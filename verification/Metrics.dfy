/** The incremental system-metrics parser, from lexed log lines to CPU samples. */
module Metrics {
  import opened Options

  datatype Loads = Loads(one: real, five: real, fifteen: real)

  /** A log line after stripping its stream prefix, classified in the order the parser tries. */
  datatype Line =
    | Timestamp(stamp: string)
    | Compact(stamp: string, cpu: map<string, real>, loads: Option<Loads>, uptime: Option<real>, available: Option<int>)
    | Cpu(name: string, fields: Option<seq<int>>)
    | Load(loads: Option<Loads>, seconds: Option<real>)
    | Mem(values: seq<int>)
    | Swap(values: seq<int>)
    | Ignored

  datatype Counters = Counters(total: int, idle: int) {
    function Busy(): int {
      total - idle
    }
  }

  /** What a snapshot has collected; None means the key is not there. */
  datatype Snapshot = Snapshot(
    cpu: map<string, Counters>, cpuSeen: bool, computed: map<string, real>,
    timestamp: Option<string>, loads: Option<Loads>, uptime: Option<Option<real>>,
    ramTotal: Option<int>, ramUsed: Option<int>, ramAvailable: Option<int>,
    swapTotal: Option<int>, swapUsed: Option<int>)

  const EMPTY: Snapshot := Snapshot(map[], false, map[], None, None, None, None, None, None, None, None)

  datatype SystemState = SystemState(
    timestamp: Option<string>, cpuUsage: map<string, real>, loads: Option<Loads>, uptime: Option<real>,
    ramTotal: Option<int>, ramUsed: Option<int>, ramAvailable: Option<int>,
    swapTotal: Option<int>, swapUsed: Option<int>)

  /** Everything the parser remembers between feeds. */
  datatype Summary = Summary(
    state: SystemState, previous: map<string, Counters>, overall: seq<real>, samples: map<string, seq<real>>)

  const FRESH: Summary :=
    Summary(SystemState(None, map[], None, None, None, None, None, None, None), map[], [], map[])

  // ----- Lines to snapshots ---------------------------------------------------------------------

  function Sum(values: seq<int>): int {
    if values == [] then 0 else values[0] + Sum(values[1..])
  }

  /** Total of the first eight tick counters, and idle plus iowait. */
  function CpuCounters(fields: Option<seq<int>>): Option<Counters> {
    if fields.None? || |fields.value| < 4 then None
    else
      var f := fields.value;
      Some(Counters(Sum(if |f| > 8 then f[..8] else f), f[3] + (if |f| > 4 then f[4] else 0)))
  }

  function Or<T>(new_: Option<T>, old_: Option<T>): Option<T> {
    if new_.Some? then new_ else old_
  }

  /** Snapshots already complete, and the one being collected. */
  datatype Parsed = Parsed(done: seq<Snapshot>, current: Snapshot)

  /** Swap and compact lines complete the snapshot they belong to. */
  predicate Closes(line: Line) {
    line.Swap? || line.Compact?
  }

  function Collect(s: Snapshot, line: Line): Snapshot {
    match line
    case Timestamp(stamp) => s.(timestamp := Some(stamp))
    case Compact(stamp, cpu, loads, uptime, available) =>
      s.(timestamp := Some(stamp), computed := cpu, loads := Or(loads, s.loads),
         uptime := if uptime.Some? then Some(uptime) else s.uptime, ramAvailable := Or(available, s.ramAvailable))
    case Cpu(name, fields) =>
      var counters := CpuCounters(fields);
      s.(cpuSeen := true, cpu := if counters.Some? then s.cpu[name := counters.value] else s.cpu)
    case Load(loads, seconds) => s.(loads := Or(loads, s.loads), uptime := Some(seconds))
    case Mem(values) =>
      if |values| >= 6 then s.(ramTotal := Some(values[0]), ramUsed := Some(values[1]), ramAvailable := Some(values[5]))
      else s
    case Swap(values) =>
      if |values| >= 2 then s.(swapTotal := Some(values[0]), swapUsed := Some(values[1])) else s
    case Ignored => s
  }

  function ParseLine(p: Parsed, line: Line): Parsed {
    if line.Timestamp? && p.current.cpu != map[] then Parsed(p.done + [p.current], Collect(EMPTY, line))
    else if Closes(line) then Parsed(p.done + [Collect(p.current, line)], EMPTY)
    else p.(current := Collect(p.current, line))
  }

  function Parse(lines: seq<Line>): Parsed {
    if lines == [] then Parsed([], EMPTY) else ParseLine(Parse(lines[..|lines| - 1]), lines[|lines| - 1])
  }

  /** Whether the end of a feed applies the snapshot still being collected. */
  predicate Flushes(s: Snapshot) {
    s.cpu != map[] || s.ramTotal.Some? || s.loads.Some? || s.timestamp.Some?
  }

  function Snapshots(lines: seq<Line>): seq<Snapshot> {
    var p := Parse(lines);
    p.done + (if Flushes(p.current) then [p.current] else [])
  }

  // ----- Snapshots to samples -------------------------------------------------------------------

  predicate Comparable(from: Counters, to: Counters) {
    to.total > from.total && 0 <= to.idle - from.idle <= to.total - from.total
  }

  function Percent(from: Counters, to: Counters): real
    requires Comparable(from, to)
  {
    100.0 * (to.Busy() - from.Busy()) as real / (to.total - from.total) as real
  }

  function Measured(previous: map<string, Counters>, cpu: map<string, Counters>): map<string, real> {
    map name | name in cpu && name in previous && Comparable(previous[name], cpu[name])
      :: Percent(previous[name], cpu[name])
  }

  function Usage(previous: map<string, Counters>, s: Snapshot): map<string, real> {
    s.computed + Measured(previous, s.cpu)
  }

  function SamplesOf(samples: map<string, seq<real>>, name: string): seq<real> {
    if name in samples then samples[name] else []
  }

  function Extended(samples: map<string, seq<real>>, usage: map<string, real>): map<string, seq<real>> {
    map name | name in samples.Keys + usage.Keys
      :: SamplesOf(samples, name) + (if name in usage then [usage[name]] else [])
  }

  function UpdatedState(state: SystemState, usage: map<string, real>, s: Snapshot): SystemState {
    SystemState(Or(s.timestamp, state.timestamp), usage, Or(s.loads, state.loads),
                if s.uptime.Some? then s.uptime.value else state.uptime,
                Or(s.ramTotal, state.ramTotal), Or(s.ramUsed, state.ramUsed), Or(s.ramAvailable, state.ramAvailable),
                Or(s.swapTotal, state.swapTotal), Or(s.swapUsed, state.swapUsed))
  }

  function Apply(m: Summary, s: Snapshot): Summary {
    var usage := Usage(m.previous, s);
    Summary(UpdatedState(m.state, usage, s),
            if s.cpuSeen then s.cpu else m.previous,
            if "cpu" in usage then m.overall + [usage["cpu"]] else m.overall,
            Extended(m.samples, usage))
  }

  function ApplyAll(m: Summary, snapshots: seq<Snapshot>): Summary {
    if snapshots == [] then m
    else Apply(ApplyAll(m, snapshots[..|snapshots| - 1]), snapshots[|snapshots| - 1])
  }

  function Feed(m: Summary, lines: seq<Line>): Summary {
    ApplyAll(m, Snapshots(lines))
  }

  // ----- The program ----------------------------------------------------------------------------

  class SystemMetricsSummary {
    var state: SystemState
    var previousCpu: map<string, Counters>
    var overallSamples: seq<real>
    var cpuSamples: map<string, seq<real>>

    ghost function View(): Summary
      reads this
    {
      Summary(state, previousCpu, overallSamples, cpuSamples)
    }

    constructor ()
      ensures View() == FRESH
    {
      state, previousCpu, overallSamples, cpuSamples := FRESH.state, map[], [], map[];
    }

    method FeedLines(lines: seq<Line>)
      modifies this
      ensures View() == Feed(old(View()), lines)
    {
      var snapshot := EMPTY;
      for i := 0 to |lines|
        invariant View() == ApplyAll(old(View()), Parse(lines[..i]).done)
        invariant snapshot == Parse(lines[..i]).current
      {
        var line := lines[i];
        ghost var p := Parse(lines[..i]);
        assert lines[..i + 1][..i] == lines[..i];
        assert Parse(lines[..i + 1]) == ParseLine(p, line);
        if line.Timestamp? && snapshot.cpu != map[] {
          ApplySnapshot(snapshot);
          ApplyOneMore(old(View()), p.done, snapshot);
          snapshot := EMPTY;
        }
        snapshot := Collect(snapshot, line);
        if Closes(line) {
          ApplySnapshot(snapshot);
          ApplyOneMore(old(View()), p.done, snapshot);
          snapshot := EMPTY;
        }
      }
      assert lines[..|lines|] == lines;
      ghost var p := Parse(lines);
      if Flushes(snapshot) {
        ApplySnapshot(snapshot);
        ApplyOneMore(old(View()), p.done, snapshot);
      } else {
        assert p.done + [] == p.done;
      }
    }

    method ApplySnapshot(snapshot: Snapshot)
      modifies this
      ensures View() == Apply(old(View()), snapshot)
    {
      var usage := Compare(snapshot);
      if snapshot.cpuSeen {
        previousCpu := snapshot.cpu;
      }
      if "cpu" in usage {
        overallSamples := overallSamples + [usage["cpu"]];
      }
      AppendSamples(usage);
      state := UpdatedState(state, usage, snapshot);
    }

    /** Compares core after core with its counters in the previous snapshot. */
    method Compare(snapshot: Snapshot) returns (usage: map<string, real>)
      ensures usage == Usage(previousCpu, snapshot)
    {
      hide Percent;
      usage := snapshot.computed;
      var names := snapshot.cpu.Keys;
      ghost var seen: set<string> := {};
      while names != {}
        invariant names + seen == snapshot.cpu.Keys && names !! seen
        invariant usage == snapshot.computed
                           + (map n | n in Measured(previousCpu, snapshot.cpu) && n in seen
                                :: Measured(previousCpu, snapshot.cpu)[n])
      {
        var name :| name in names;
        names, seen := names - {name}, seen + {name};
        if name in previousCpu && Comparable(previousCpu[name], snapshot.cpu[name]) {
          usage := usage[name := Percent(previousCpu[name], snapshot.cpu[name])];
        }
      }
    }

    method AppendSamples(usage: map<string, real>)
      modifies `cpuSamples
      ensures cpuSamples == Extended(old(cpuSamples), usage)
    {
      var names := usage.Keys;
      ghost var seen: set<string> := {};
      ExtendedByNone(cpuSamples, usage);
      while names != {}
        invariant names + seen == usage.Keys && names !! seen
        invariant cpuSamples == Extended(old(cpuSamples), Part(usage, seen))
      {
        var name :| name in names;
        ExtendedByOne(old(cpuSamples), usage, seen, name);
        names, seen := names - {name}, seen + {name};
        cpuSamples := cpuSamples[name := SamplesOf(cpuSamples, name) + [usage[name]]];
      }
      assert Part(usage, seen) == usage;
    }
  }

  ghost function Part(usage: map<string, real>, names: set<string>): map<string, real> {
    map n | n in usage && n in names :: usage[n]
  }

  lemma ExtendedByNone(samples: map<string, seq<real>>, usage: map<string, real>)
    ensures Extended(samples, Part(usage, {})) == samples
  {
    assert Part(usage, {}) == map[];
    var extended := Extended(samples, map[]);
    assert extended.Keys == samples.Keys;
    forall n | n in samples
      ensures extended[n] == samples[n]
    {
      assert samples[n] + [] == samples[n];
    }
  }

  lemma ExtendedByOne(samples: map<string, seq<real>>, usage: map<string, real>, seen: set<string>, name: string)
    requires name in usage && name !in seen
    ensures var before := Extended(samples, Part(usage, seen));
            Extended(samples, Part(usage, seen + {name}))
            == before[name := SamplesOf(before, name) + [usage[name]]]
  {
    var before, next := Extended(samples, Part(usage, seen)), Extended(samples, Part(usage, seen + {name}));
    assert name !in Part(usage, seen) && name in Part(usage, seen + {name});
    assert SamplesOf(before, name) == SamplesOf(samples, name);
    assert next[name] == SamplesOf(samples, name) + [usage[name]];
    assert next.Keys == before.Keys + {name};
    forall n | n in before && n != name
      ensures next[n] == before[n]
    {
      assert n in Part(usage, seen) <==> n in Part(usage, seen + {name});
    }
  }

  lemma ApplyOneMore(m: Summary, done: seq<Snapshot>, s: Snapshot)
    ensures ApplyAll(m, done + [s]) == Apply(ApplyAll(m, done), s)
  {
    assert (done + [s])[..|done|] == done;
  }

  // ----- Feeding in pieces ----------------------------------------------------------------------

  lemma {:induction false} ApplyAllAppend(m: Summary, a: seq<Snapshot>, b: seq<Snapshot>)
    ensures ApplyAll(m, a + b) == ApplyAll(ApplyAll(m, a), b)
    decreases |b|
  {
    if b == [] {
      assert a + b == a;
      assert ApplyAll(ApplyAll(m, a), []) == ApplyAll(m, a);
    } else {
      hide ApplyAll;
      var front, last := b[..|b| - 1], b[|b| - 1];
      ApplyAllAppend(m, a, front);
      assert a + b == (a + front) + [last] && b == front + [last];
      ApplyOneMore(m, a + front, last);
      ApplyOneMore(ApplyAll(m, a), front, last);
    }
  }

  /** Parsing goes on from a cut as from the start when nothing was being collected there. */
  lemma {:induction false} ParseAppend(a: seq<Line>, b: seq<Line>)
    requires Parse(a).current == EMPTY
    ensures Parse(a + b) == Parsed(Parse(a).done + Parse(b).done, Parse(b).current)
    decreases |b|
  {
    if b == [] {
      assert a + b == a;
    } else {
      ParseAppend(a, b[..|b| - 1]);
      assert (a + b)[..|a + b| - 1] == a + b[..|b| - 1];
    }
  }

  lemma SnapshotsAppend(a: seq<Line>, b: seq<Line>)
    requires Parse(a).current == EMPTY
    ensures Snapshots(a + b) == Snapshots(a) + Snapshots(b)
  {
    ParseAppend(a, b);
    var flushed := if Flushes(Parse(b).current) then [Parse(b).current] else [];
    assert Snapshots(a) == Parse(a).done;
    assert (Parse(a).done + Parse(b).done) + flushed == Parse(a).done + (Parse(b).done + flushed);
  }

  lemma FeedAppend(m: Summary, a: seq<Line>, b: seq<Line>)
    requires Parse(a).current == EMPTY
    ensures Feed(m, a + b) == Feed(Feed(m, a), b)
  {
    SnapshotsAppend(a, b);
    ApplyAllAppend(m, Snapshots(a), Snapshots(b));
  }

  function FeedPieces(m: Summary, pieces: seq<seq<Line>>): Summary
    decreases |pieces|
  {
    if pieces == [] then m else FeedPieces(Feed(m, pieces[0]), pieces[1..])
  }

  function Whole(pieces: seq<seq<Line>>): seq<Line> {
    if pieces == [] then [] else pieces[0] + Whole(pieces[1..])
  }

  /** Cut right after swap or compact lines, a log leaves the same summary in any number of pieces as at once. */
  lemma {:induction false} PiecesLikeWhole(m: Summary, pieces: seq<seq<Line>>)
    requires forall i :: 0 <= i < |pieces| - 1 ==> pieces[i] != [] && Closes(pieces[i][|pieces[i]| - 1])
    ensures FeedPieces(m, pieces) == Feed(m, Whole(pieces))
    decreases |pieces|
  {
    if |pieces| == 1 {
      assert pieces[0] + [] == pieces[0];
      assert pieces[1..] == [];
    } else if |pieces| > 1 {
      PiecesLikeWhole(Feed(m, pieces[0]), pieces[1..]);
      FeedAppend(m, pieces[0], Whole(pieces[1..]));
    }
  }

  /** The only things an unfinished snapshot can hold. */
  lemma {:induction false} CurrentShape(lines: seq<Line>)
    ensures var s := Parse(lines).current;
            && s.computed == map[] && s.swapTotal == None && s.swapUsed == None
            && (s.cpu != map[] ==> s.cpuSeen)
            && (s.ramTotal.None? ==> s.ramUsed.None? && s.ramAvailable.None?)
    decreases |lines|
  {
    if lines != [] {
      CurrentShape(lines[..|lines| - 1]);
    }
  }

  /** A cut is safe when feeding the two parts is feeding the whole, for any memory and any continuation. */
  ghost predicate SafeCut(a: seq<Line>) {
    forall m, b :: Feed(Feed(m, a), b) == Feed(m, a + b)
  }

  /** Exactly when nothing is being collected at the cut; a is the log since its last completed snapshot. */
  lemma SafeCutIff(a: seq<Line>)
    requires Parse(a).done == []
    ensures SafeCut(a) <==> Parse(a).current == EMPTY
  {
    if Parse(a).current == EMPTY {
      forall m, b
        ensures Feed(Feed(m, a), b) == Feed(m, a + b)
      {
        FeedAppend(m, a, b);
      }
    } else if Flushes(Parse(a).current) {
      UnsafeWhenFlushed(a);
    } else {
      UnsafeWhenDropped(a);
    }
  }

  lemma ParseOneMore(a: seq<Line>, line: Line)
    ensures Parse(a + [line]) == ParseLine(Parse(a), line)
  {
    assert (a + [line])[..|a|] == a;
  }

  /** A flushed unfinished snapshot loses an uptime that arrives after the cut. */
  lemma UnsafeWhenFlushed(a: seq<Line>)
    requires Flushes(Parse(a).current)
    ensures !SafeCut(a)
  {
    hide Usage, Extended;
    var m := Feed(FRESH, a);
    var other := if m.state.uptime == Some(1.0) then Some(2.0) else Some(1.0);
    var line := Load(None, other);
    var s := Parse(a).current;
    ParseOneMore(a, line);
    ParseOneMore([], line);
    assert [] + [line] == [line];
    var whole := Feed(FRESH, a + [line]);
    ApplyOneMore(FRESH, Parse(a).done, Collect(s, line));
    assert whole.state.uptime == other;
    assert !Flushes(Parse([line]).current);
    assert Feed(m, [line]) == m;
    assert Feed(Feed(FRESH, a), [line]) != Feed(FRESH, a + [line]);
  }

  /** A memory in which completing a forgotten snapshot would have made a difference. */
  function Witness(s: Snapshot): Summary {
    FRESH.(previous := map["cpu" := Counters(0, 0)],
           state := FRESH.state.(uptime := if s.uptime == Some(Some(1.0)) then Some(2.0) else Some(1.0)))
  }

  lemma WitnessTells(s: Snapshot)
    requires s.cpu == map[] && (s.uptime.Some? || s.cpuSeen)
    ensures Apply(Witness(s), s) != Apply(Witness(s), EMPTY)
  {
    hide Percent, Extended;
    var m := Witness(s);
    if s.uptime.Some? {
      assert Apply(m, s).state.uptime == s.uptime.value && Apply(m, EMPTY).state.uptime == m.state.uptime;
    } else {
      assert Apply(m, s).previous == map[] && "cpu" in Apply(m, EMPTY).previous;
    }
  }

  /** An unfinished snapshot that is not flushed is forgotten, although the rest of the log would complete it. */
  lemma UnsafeWhenDropped(a: seq<Line>)
    requires Parse(a).done == [] && !Flushes(Parse(a).current) && Parse(a).current != EMPTY
    ensures !SafeCut(a)
  {
    CurrentShape(a);
    var s := Parse(a).current;
    var m := Witness(s);
    assert s.uptime.Some? || s.cpuSeen;
    WitnessTells(s);
    SwapCompletes(a);
    hide *;
    ApplyOne(m, s);
    ApplyOne(m, EMPTY);
    NotSafe(m, a, [Swap([])]);
  }

  lemma SwapCompletes(a: seq<Line>)
    requires Parse(a).done == [] && !Flushes(Parse(a).current)
    ensures Snapshots(a) == [] && Snapshots([Swap([])]) == [EMPTY]
    ensures Snapshots(a + [Swap([])]) == [Parse(a).current]
  {
    var line := Swap([]);
    ParseOneMore(a, line);
    ParseOneMore([], line);
    assert [] + [line] == [line];
  }

  lemma ApplyOne(m: Summary, s: Snapshot)
    ensures ApplyAll(m, [s]) == Apply(m, s) && ApplyAll(m, []) == m
  {
    ApplyOneMore(m, [], s);
    assert [] + [s] == [s];
  }

  lemma NotSafe(m: Summary, a: seq<Line>, b: seq<Line>)
    requires ApplyAll(ApplyAll(m, Snapshots(a)), Snapshots(b)) != ApplyAll(m, Snapshots(a + b))
    ensures !SafeCut(a)
  {
    assert Feed(Feed(m, a), b) != Feed(m, a + b);
  }

  // ----- What the samples are -------------------------------------------------------------------

  /** A core's counters in one CPU-bearing snapshot after the other; None where the core is missing. */
  type History = seq<Option<Counters>>

  function HistoryOf(snapshots: seq<Snapshot>, name: string): History {
    if snapshots == [] then []
    else
      var s := snapshots[|snapshots| - 1];
      HistoryOf(snapshots[..|snapshots| - 1], name)
      + (if s.cpuSeen then [if name in s.cpu then Some(s.cpu[name]) else None] else [])
  }

  predicate Paired(a: Option<Counters>, b: Option<Counters>) {
    a.Some? && b.Some? && Comparable(a.value, b.value)
  }

  /** Two counters whose ticks went forward. */
  datatype TickPair = TickPair(from: Counters, to: Counters)

  type Measurement = p: TickPair | Comparable(p.from, p.to) witness TickPair(Counters(0, 0), Counters(1, 0))

  /** The neighbours of a history that both hold the core and between which its ticks went forward. */
  function Pairs(h: History): seq<Measurement> {
    if |h| < 2 then []
    else
      var a, b := h[|h| - 2], h[|h| - 1];
      Pairs(h[..|h| - 1]) + (if Paired(a, b) then [TickPair(a.value, b.value)] else [])
  }

  /** Where a sample comes from: ticks, or a value a compact line shows. */
  datatype Origin = Ticks(pair: Measurement) | Shown(value: real) {
    function Value(): real {
      if Ticks? then Percent(pair.from, pair.to) else value
    }
  }

  function Values(origins: seq<Origin>): seq<real> {
    if origins == [] then [] else Values(origins[..|origins| - 1]) + [origins[|origins| - 1].Value()]
  }

  function TicksOnly(origins: seq<Origin>): seq<Measurement> {
    if origins == [] then []
    else
      var last := origins[|origins| - 1];
      TicksOnly(origins[..|origins| - 1]) + (if last.Ticks? then [last.pair] else [])
  }

  function LastOf(h: History): Option<Counters> {
    if h == [] then None else h[|h| - 1]
  }

  /** The sample a snapshot gives a core: from ticks if it can be compared, else the value shown, else none. */
  function OriginIn(previous: Option<Counters>, s: Snapshot, name: string): seq<Origin> {
    if name in s.cpu && previous.Some? && Comparable(previous.value, s.cpu[name]) then
      [Ticks(TickPair(previous.value, s.cpu[name]))]
    else if name in s.computed then [Shown(s.computed[name])]
    else []
  }

  function Origins(snapshots: seq<Snapshot>, name: string): seq<Origin> {
    if snapshots == [] then []
    else
      var front := snapshots[..|snapshots| - 1];
      Origins(front, name) + OriginIn(LastOf(HistoryOf(front, name)), snapshots[|snapshots| - 1], name)
  }

  /** Counters come with the mark that a CPU line was seen. */
  predicate Marked(s: Snapshot) {
    s.cpu != map[] ==> s.cpuSeen
  }

  predicate AllMarked(snapshots: seq<Snapshot>) {
    forall i :: 0 <= i < |snapshots| ==> Marked(snapshots[i])
  }

  /** The value a core's next usage will be compared with is its last one, unless it was missing there. */
  predicate Remembers(m: Summary, h: History, name: string) {
    && (name in m.previous <==> h != [] && h[|h| - 1].Some?)
    && (name in m.previous ==> h[|h| - 1] == Some(m.previous[name]))
  }

  /** The samples of a core, snapshot after snapshot. */
  lemma {:induction false} SamplesTraced(snapshots: seq<Snapshot>, name: string)
    requires AllMarked(snapshots)
    ensures var m, h := ApplyAll(FRESH, snapshots), HistoryOf(snapshots, name);
            && SamplesOf(m.samples, name) == Values(Origins(snapshots, name))
            && (name == "cpu" ==> m.overall == Values(Origins(snapshots, name)))
            && Remembers(m, h, name)
    decreases |snapshots|
  {
    if snapshots != [] {
      hide Apply, Values, OriginIn, Marked;
      var front, s := snapshots[..|snapshots| - 1], snapshots[|snapshots| - 1];
      SamplesTraced(front, name);
      assert HistoryOf(front, name) + [] == HistoryOf(front, name);
      OneSample(ApplyAll(FRESH, front), s, HistoryOf(front, name), Origins(front, name), name);
    } else {
      assert Values([]) == [];
    }
  }

  lemma ValuesMore(origins: seq<Origin>, more: seq<Origin>)
    requires |more| <= 1
    ensures Values(origins + more) == Values(origins) + (if more == [] then [] else [more[0].Value()])
  {
    if more == [] {
      assert origins + more == origins;
    } else {
      assert (origins + more)[..|origins|] == origins;
    }
  }

  lemma OneSample(m: Summary, s: Snapshot, h: History, origins: seq<Origin>, name: string)
    requires Marked(s) && Remembers(m, h, name)
    requires SamplesOf(m.samples, name) == Values(origins) && (name == "cpu" ==> m.overall == Values(origins))
    ensures var next := if s.cpuSeen then h + [if name in s.cpu then Some(s.cpu[name]) else None] else h;
            var more := OriginIn(LastOf(h), s, name);
            && SamplesOf(Apply(m, s).samples, name) == Values(origins + more)
            && (name == "cpu" ==> Apply(m, s).overall == Values(origins + more))
            && Remembers(Apply(m, s), next, name)
  {
    hide Percent, UpdatedState, Values, SamplesOf;
    var usage := Usage(m.previous, s);
    var more := OriginIn(LastOf(h), s, name);
    UsageTraced(m, s, h, name);
    ExtendedAt(m.samples, usage, name);
    ValuesMore(origins, more);
    assert more == [] ==> Values(origins) + [] == Values(origins);
  }

  lemma ExtendedAt(samples: map<string, seq<real>>, usage: map<string, real>, name: string)
    ensures SamplesOf(Extended(samples, usage), name)
         == SamplesOf(samples, name) + (if name in usage then [usage[name]] else [])
  {
  }

  lemma UsageTraced(m: Summary, s: Snapshot, h: History, name: string)
    requires Remembers(m, h, name)
    ensures var usage, more := Usage(m.previous, s), OriginIn(LastOf(h), s, name);
            (name in usage <==> more != []) && (name in usage ==> more == [more[0]] && more[0].Value() == usage[name])
  {
  }

  /** Its tick samples compare exactly the neighbouring CPU-bearing snapshots that both contain it. */
  lemma {:induction false} TicksAreNeighbours(snapshots: seq<Snapshot>, name: string)
    requires AllMarked(snapshots)
    ensures TicksOnly(Origins(snapshots, name)) == Pairs(HistoryOf(snapshots, name))
    decreases |snapshots|
  {
    if snapshots != [] {
      var front, s := snapshots[..|snapshots| - 1], snapshots[|snapshots| - 1];
      TicksAreNeighbours(front, name);
      var h := HistoryOf(front, name);
      TicksMore(Origins(front, name), OriginIn(LastOf(h), s, name));
      hide TicksOnly, Origins;
      if s.cpuSeen {
        PairsMore(h, if name in s.cpu then Some(s.cpu[name]) else None);
      } else {
        assert h + [] == h;
      }
    }
  }

  lemma TicksMore(origins: seq<Origin>, more: seq<Origin>)
    requires |more| <= 1
    ensures TicksOnly(origins + more)
         == TicksOnly(origins) + (if more != [] && more[0].Ticks? then [more[0].pair] else [])
  {
    if more == [] {
      assert origins + more == origins;
    } else {
      assert (origins + more)[..|origins|] == origins;
    }
  }

  lemma PairsMore(h: History, c: Option<Counters>)
    ensures Pairs(h + [c])
         == Pairs(h) + (if LastOf(h).Some? && Paired(LastOf(h), c) then [TickPair(LastOf(h).value, c.value)] else [])
  {
    var next := h + [c];
    assert next[..|next| - 1] == h;
  }

  lemma PercentBounds(from: Counters, to: Counters)
    requires Comparable(from, to)
    ensures 0.0 <= Percent(from, to) <= 100.0
    ensures Percent(from, to) * (to.total - from.total) as real == 100.0 * (to.Busy() - from.Busy()) as real
  {
    var ticks, busy := (to.total - from.total) as real, (to.Busy() - from.Busy()) as real;
    assert 0.0 <= busy <= ticks;
    Quotient(100.0 * busy, ticks);
  }

  lemma Stretch(a: real, b: real, n: real)
    requires a < b && n > 0.0
    ensures a * n < b * n
  {
  }

  lemma Quotient(x: real, y: real)
    requires 0.0 <= x <= 100.0 * y && y > 0.0
    ensures 0.0 <= x / y <= 100.0 && x / y * y == x
  {
    var q := x / y;
    assert q * y == x;
    if q < 0.0 {
      Stretch(q, 0.0, y);
      assert false;
    }
    if q > 100.0 {
      Stretch(100.0, q, y);
      assert false;
    }
  }

  /** Every usage from ticks lies between 0 and 100. */
  lemma UsagesBounded(o: Origin)
    ensures o.Ticks? ==> 0.0 <= o.Value() <= 100.0
  {
    if o.Ticks? {
      PercentBounds(o.pair.from, o.pair.to);
    }
  }

  /** Usages weighted by the ticks they stand for. */
  function Weighted(pairs: seq<Measurement>): real {
    if pairs == [] then 0.0
    else
      var p := pairs[|pairs| - 1];
      Weighted(pairs[..|pairs| - 1]) + Percent(p.from, p.to) * (p.to.total - p.from.total) as real
  }

  /** The busy ticks they measured. */
  function Measures(pairs: seq<Measurement>): int {
    if pairs == [] then 0
    else
      var p := pairs[|pairs| - 1];
      Measures(pairs[..|pairs| - 1]) + (p.to.Busy() - p.from.Busy())
  }

  lemma {:induction false} WeightedMeasures(pairs: seq<Measurement>)
    ensures Weighted(pairs) == 100.0 * Measures(pairs) as real
    decreases |pairs|
  {
    if pairs != [] {
      hide Percent;
      var front, p := pairs[..|pairs| - 1], pairs[|pairs| - 1];
      WeightedMeasures(front);
      PercentBounds(p.from, p.to);
      HundredTimes(Measures(front), p.to.Busy() - p.from.Busy());
    }
  }

  lemma HundredTimes(x: int, y: int)
    ensures 100.0 * x as real + 100.0 * y as real == 100.0 * (x + y) as real
  {
  }

  /** Wherever two neighbours both hold the core, neither its busy nor its idle ticks go back. */
  predicate Rising(h: History) {
    forall i :: 0 < i < |h| && h[i - 1].Some? && h[i].Some? ==> Forward(h[i - 1].value, h[i].value)
  }

  predicate Forward(a: Counters, b: Counters) {
    a.idle <= b.idle && a.Busy() <= b.Busy()
  }

  /** The core's counters at the two ends of a longest run of snapshots that hold it. */
  datatype Span = Span(first: Counters, last: Counters)

  function Spans(h: History): (spans: seq<Span>)
    ensures LastOf(h).Some? ==> spans != [] && spans[|spans| - 1].last == LastOf(h).value
  {
    if h == [] then []
    else
      var front, c := h[..|h| - 1], h[|h| - 1];
      var before := Spans(front);
      if c.None? then before
      else if LastOf(front).Some? then before[|before| - 1 := before[|before| - 1].(last := c.value)]
      else before + [Span(c.value, c.value)]
  }

  function SpanBusy(spans: seq<Span>): int {
    if spans == [] then 0
    else SpanBusy(spans[..|spans| - 1]) + (spans[|spans| - 1].last.Busy() - spans[|spans| - 1].first.Busy())
  }

  lemma SpansMore(spans: seq<Span>, c: Counters)
    ensures SpanBusy(spans + [Span(c, c)]) == SpanBusy(spans)
    ensures spans != [] ==>
      SpanBusy(spans[|spans| - 1 := spans[|spans| - 1].(last := c)])
      == SpanBusy(spans) + (c.Busy() - spans[|spans| - 1].last.Busy())
  {
    assert (spans + [Span(c, c)])[..|spans|] == spans;
    if spans != [] {
      var longer := spans[|spans| - 1 := spans[|spans| - 1].(last := c)];
      assert longer[..|longer| - 1] == spans[..|spans| - 1];
    }
  }

  /** The runs with one more snapshot. */
  function Longer(spans: seq<Span>, before: Option<Counters>, c: Option<Counters>): seq<Span>
    requires before.Some? ==> spans != []
  {
    if c.None? then spans
    else if before.Some? then spans[|spans| - 1 := spans[|spans| - 1].(last := c.value)]
    else spans + [Span(c.value, c.value)]
  }

  lemma SpansLonger(h: History, c: Option<Counters>)
    ensures Spans(h + [c]) == Longer(Spans(h), LastOf(h), c)
  {
    assert (h + [c])[..|h|] == h;
  }

  lemma {:induction false} MeasuresSpans(h: History)
    requires Rising(h)
    ensures Measures(Pairs(h)) == SpanBusy(Spans(h))
    decreases |h|
  {
    if h != [] {
      var front, c := h[..|h| - 1], h[|h| - 1];
      assert h == front + [c];
      MeasuresSpans(front);
      PairsMore(front, c);
      SpansLonger(front, c);
      if c.Some? && LastOf(front).Some? {
        StepsForward(h);
      }
      OneMoreSnapshot(Pairs(front), Spans(front), LastOf(front), c);
    } else {
      assert Pairs(h) == [] && Spans(h) == [];
    }
  }

  lemma OneMoreSnapshot(pairs: seq<Measurement>, spans: seq<Span>, before: Option<Counters>, c: Option<Counters>)
    requires before.Some? ==> spans != [] && spans[|spans| - 1].last == before.value
    requires Measures(pairs) == SpanBusy(spans)
    requires before.Some? && c.Some? ==> Comparable(before.value, c.value) || before.value.Busy() == c.value.Busy()
    ensures Measures(pairs + (if before.Some? && Paired(before, c) then [TickPair(before.value, c.value)] else []))
         == SpanBusy(Longer(spans, before, c))
  {
    hide Measures, SpanBusy;
    assert pairs + [] == pairs;
    if c.Some? {
      SpansMore(spans, c.value);
      if before.Some? && Paired(before, c) {
        MeasuresMore(pairs, TickPair(before.value, c.value));
      }
    }
  }

  lemma MeasuresMore(pairs: seq<Measurement>, p: Measurement)
    ensures Measures(pairs + [p]) == Measures(pairs) + (p.to.Busy() - p.from.Busy())
  {
    assert (pairs + [p])[..|pairs|] == pairs;
  }

  /** If the last two cannot be compared, neither has gone forward. */
  lemma StepsForward(h: History)
    requires Rising(h) && |h| >= 2 && h[|h| - 2].Some? && h[|h| - 1].Some?
    ensures var a, b := h[|h| - 2].value, h[|h| - 1].value; Comparable(a, b) || a.Busy() == b.Busy()
  {
    assert Forward(h[|h| - 2].value, h[|h| - 1].value);
  }

  /** Usages weighted by their ticks add up to the busy ticks inside the longest runs of snapshots that hold the
      core; what passes in the gaps between two runs is not accounted for. */
  lemma BusyTicksConserved(h: History)
    requires Rising(h)
    ensures Weighted(Pairs(h)) == 100.0 * SpanBusy(Spans(h)) as real
  {
    WeightedMeasures(Pairs(h));
    MeasuresSpans(h);
  }

  /** No busy ticks go back across a gap. */
  predicate GapsForward(spans: seq<Span>) {
    forall k :: 0 < k < |spans| ==> spans[k - 1].last.Busy() <= spans[k].first.Busy()
  }

  /** Between two runs the core was not busy. */
  predicate IdleGaps(spans: seq<Span>) {
    forall k :: 0 < k < |spans| ==> spans[k - 1].last.Busy() == spans[k].first.Busy()
  }

  lemma {:induction false} WholeBusy(spans: seq<Span>)
    requires spans != [] && GapsForward(spans)
    ensures var whole := spans[|spans| - 1].last.Busy() - spans[0].first.Busy();
            SpanBusy(spans) <= whole && (SpanBusy(spans) == whole <==> IdleGaps(spans))
    decreases |spans|
  {
    var front := spans[..|spans| - 1];
    if front == [] {
      assert SpanBusy(front) == 0;
    } else {
      WholeBusy(front);
      assert spans[|spans| - 2] == front[|front| - 1];
      if IdleGaps(front) && spans[|spans| - 2].last.Busy() == spans[|spans| - 1].first.Busy() {
        assert IdleGaps(spans);
      }
      if IdleGaps(spans) {
        forall k | 0 < k < |front| ensures front[k - 1].last.Busy() == front[k].first.Busy() {
          assert spans[k - 1] == front[k - 1] && spans[k] == front[k];
        }
      }
    }
  }

  /** The weighted usages never exceed the busy ticks between the first and the last snapshot that hold the core, and
      are all of them exactly if none fall into the gaps. */
  lemma WholeDifferenceIff(h: History)
    requires Rising(h) && Spans(h) != [] && GapsForward(Spans(h))
    ensures var spans := Spans(h);
            var whole := 100.0 * (spans[|spans| - 1].last.Busy() - spans[0].first.Busy()) as real;
            Weighted(Pairs(h)) <= whole && (Weighted(Pairs(h)) == whole <==> IdleGaps(spans))
  {
    BusyTicksConserved(h);
    WholeBusy(Spans(h));
  }

  /** The values shown for a snapshot stand in one compact line of the log. */
  predicate ShownBy(s: Snapshot, lines: seq<Line>) {
    s.computed == map[] || exists line :: line in lines && line.Compact? && line.cpu == s.computed
  }

  lemma ShownByMore(s: Snapshot, lines: seq<Line>, more: seq<Line>)
    requires ShownBy(s, lines) && forall line :: line in lines ==> line in more
    ensures ShownBy(s, more)
  {
  }

  lemma {:induction false} ParseTraced(lines: seq<Line>)
    ensures AllMarked(Parse(lines).done) && Marked(Parse(lines).current) && Parse(lines).current.computed == map[]
    ensures forall i :: 0 <= i < |Parse(lines).done| ==> ShownBy(Parse(lines).done[i], lines)
    decreases |lines|
  {
    if lines != [] {
      var front, line := lines[..|lines| - 1], lines[|lines| - 1];
      ParseTraced(front);
      var before := Parse(front);
      forall i | 0 <= i < |before.done| ensures ShownBy(before.done[i], lines) {
        ShownByMore(before.done[i], front, lines);
      }
      assert line in lines;
      assert ShownBy(Collect(before.current, line), lines);
    }
  }

  /** For every log, compact lines or not: a core's samples come from ticks or from compact lines, those from ticks
      lie between 0 and 100, and they compare the neighbouring CPU-bearing snapshots that both contain it. */
  lemma LogSamples(lines: seq<Line>, name: string)
    ensures var origins, h := Origins(Snapshots(lines), name), HistoryOf(Snapshots(lines), name);
            && SamplesOf(Feed(FRESH, lines).samples, name) == Values(origins)
            && (name == "cpu" ==> Feed(FRESH, lines).overall == Values(origins))
            && TicksOnly(origins) == Pairs(h)
            && (Rising(h) ==> Weighted(TicksOnly(origins)) == 100.0 * SpanBusy(Spans(h)) as real)
    ensures forall o :: o in Origins(Snapshots(lines), name) ==>
              if o.Ticks? then 0.0 <= o.Value() <= 100.0 else ShownIn(o.value, lines, name)
  {
    var snapshots := Snapshots(lines);
    SnapshotsTraced(lines);
    hide Values, TicksOnly, Weighted, SpanBusy, Spans, Snapshots, Origins, Rising, Percent, ShownBy, HistoryOf, Pairs;
    SamplesTraced(snapshots, name);
    TicksAreNeighbours(snapshots, name);
    if Rising(HistoryOf(snapshots, name)) {
      BusyTicksConserved(HistoryOf(snapshots, name));
    }
    OriginsShown(snapshots, lines, name);
    forall o | o in Origins(snapshots, name)
      ensures if o.Ticks? then 0.0 <= o.Value() <= 100.0 else ShownIn(o.value, lines, name)
    {
      UsagesBounded(o);
    }
  }

  lemma SnapshotsTraced(lines: seq<Line>)
    ensures AllMarked(Snapshots(lines))
    ensures forall i :: 0 <= i < |Snapshots(lines)| ==> ShownBy(Snapshots(lines)[i], lines)
  {
    hide Parse;
    ParseTraced(lines);
  }

  /** Some compact line of the log shows this value for the core. */
  predicate ShownIn(value: real, lines: seq<Line>, name: string) {
    exists line :: line in lines && line.Compact? && name in line.cpu && line.cpu[name] == value
  }

  lemma {:induction false} OriginsShown(snapshots: seq<Snapshot>, lines: seq<Line>, name: string)
    requires forall i :: 0 <= i < |snapshots| ==> ShownBy(snapshots[i], lines)
    ensures forall o :: o in Origins(snapshots, name) && o.Shown? ==> ShownIn(o.value, lines, name)
    decreases |snapshots|
  {
    if snapshots != [] {
      OriginsShown(snapshots[..|snapshots| - 1], lines, name);
      var s := snapshots[|snapshots| - 1];
      assert ShownBy(s, lines);
      if name in s.computed {
        var line :| line in lines && line.Compact? && line.cpu == s.computed;
        assert ShownIn(s.computed[name], lines, name);
      }
    }
  }

  // ----- The displayed statistics ---------------------------------------------------------------

  function Total(samples: seq<real>): real {
    if samples == [] then 0.0 else samples[0] + Total(samples[1..])
  }

  function Minimum(samples: seq<real>): real
    requires samples != []
  {
    if |samples| == 1 then samples[0]
    else if samples[0] < Minimum(samples[1..]) then samples[0] else Minimum(samples[1..])
  }

  function Maximum(samples: seq<real>): real
    requires samples != []
  {
    if |samples| == 1 then samples[0]
    else if samples[0] > Maximum(samples[1..]) then samples[0] else Maximum(samples[1..])
  }

  function Average(samples: seq<real>): real
    requires samples != []
  {
    Total(samples) / |samples| as real
  }

  lemma {:induction false} TotalBetween(samples: seq<real>)
    requires samples != []
    ensures Minimum(samples) * |samples| as real <= Total(samples) <= Maximum(samples) * |samples| as real
    decreases |samples|
  {
    if |samples| > 1 {
      var first, rest := samples[0], samples[1..];
      TotalBetween(rest);
      var n := |rest| as real;
      assert |samples| as real == n + 1.0;
      var low, high := Minimum(samples), Maximum(samples);
      var rise, fall, total := Maximum(rest), Minimum(rest), Total(rest);
      assert low <= fall && low <= first && rise <= high && first <= high && Total(samples) == first + total;
      hide Minimum, Maximum, Total;
      OneMore(low, fall, first, total, n);
      OneMoreUp(high, rise, first, total, n);
    } else {
      assert samples[1..] == [];
    }
  }

  lemma OneMore(low: real, fall: real, first: real, total: real, n: real)
    requires n >= 0.0 && fall * n <= total && low <= fall && low <= first
    ensures low * (n + 1.0) <= first + total
  {
    Scaled(low, fall, n);
  }

  lemma OneMoreUp(high: real, rise: real, first: real, total: real, n: real)
    requires n >= 0.0 && total <= rise * n && rise <= high && first <= high
    ensures first + total <= high * (n + 1.0)
  {
    Scaled(rise, high, n);
  }

  lemma Scaled(a: real, b: real, n: real)
    requires a <= b && n >= 0.0
    ensures a * n <= b * n
    ensures a * (n + 1.0) == a * n + a && b * (n + 1.0) == b * n + b
  {
  }

  /** The average shown lies between the minimum and the maximum shown. */
  lemma AverageBetween(samples: seq<real>)
    requires samples != []
    ensures Minimum(samples) <= Average(samples) <= Maximum(samples)
  {
    TotalBetween(samples);
    Divided(Minimum(samples), Total(samples), Maximum(samples), |samples| as real);
  }

  lemma Divided(low: real, total: real, high: real, n: real)
    requires n > 0.0 && low * n <= total <= high * n
    ensures low <= total / n <= high
  {
    var q := total / n;
    assert q * n == total;
    if q < low {
      Stretch(q, low, n);
      assert false;
    }
    if q > high {
      Stretch(high, q, n);
      assert false;
    }
  }
}
