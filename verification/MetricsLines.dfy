/** What the metrics parser computes, stated on the lines of the log: their fields, and which line counts. */
module MetricsLines {
  import opened Options
  import opened Metrics

  // ----- The fields of a CPU line -----------------------------------------------------------------

  function Field(fields: seq<int>, i: nat): int {
    if i < |fields| then fields[i] else 0
  }

  /** user, nice, system, irq, softirq and steal. */
  function BusyTicks(fields: seq<int>): int {
    Field(fields, 0) + Field(fields, 1) + Field(fields, 2) + Field(fields, 5) + Field(fields, 6) + Field(fields, 7)
  }

  /** idle and iowait. */
  function IdleTicks(fields: seq<int>): int {
    Field(fields, 3) + Field(fields, 4)
  }

  predicate Readable(fields: Option<seq<int>>) {
    fields.Some? && |fields.value| >= 4
  }

  lemma {:induction false} SumFields(f: seq<int>)
    requires |f| <= 8
    ensures Sum(f) == Field(f, 0) + Field(f, 1) + Field(f, 2) + Field(f, 3) + Field(f, 4) + Field(f, 5) + Field(f, 6)
                      + Field(f, 7)
  {
    if f != [] {
      SumFields(f[1..]);
    }
  }

  /** A CPU line counts exactly if it has four fields; its busy and idle ticks are sums of fields, and what stands
      behind the eighth field counts for nothing. */
  lemma CountersAreFields(fields: Option<seq<int>>)
    ensures CpuCounters(fields).Some? <==> Readable(fields)
    ensures Readable(fields) ==>
              && CpuCounters(fields).value.Busy() == BusyTicks(fields.value)
              && CpuCounters(fields).value.idle == IdleTicks(fields.value)
              && CpuCounters(fields).value.total == BusyTicks(fields.value) + IdleTicks(fields.value)
  {
    if Readable(fields) {
      var f := fields.value;
      var counted := if |f| > 8 then f[..8] else f;
      SumFields(counted);
      assert forall i: nat :: i < 8 ==> Field(counted, i) == Field(f, i);
    }
  }

  // ----- Cutting a log into the lines of its snapshots --------------------------------------------

  /** The lines of the snapshots already complete, and those of the one being collected. */
  datatype Segments = Segments(done: seq<seq<Line>>, current: seq<Line>)

  /** Swap and compact lines end a segment; a time stamp begins one if a core was counted before it. */
  function Segmented(lines: seq<Line>): Segments {
    if lines == [] then Segments([], [])
    else
      var line := lines[|lines| - 1];
      var before := Segmented(lines[..|lines| - 1]);
      if line.Timestamp? && AnyCounts(before.current) then
        Segments(before.done + [before.current], [line])
      else if line.Swap? || line.Compact? then Segments(before.done + [before.current + [line]], [])
      else Segments(before.done, before.current + [line])
  }

  predicate Counts(line: Line) {
    line.Cpu? && Readable(line.fields)
  }

  /** The fields of the last line of the segment that counts this core. */
  function LastFields(segment: seq<Line>, name: string): Option<seq<int>> {
    if segment == [] then None
    else
      var line := segment[|segment| - 1];
      if Counts(line) && line.name == name then line.fields else LastFields(segment[..|segment| - 1], name)
  }

  function CountersOf(fields: Option<seq<int>>): Option<Counters> {
    if fields.None? then None
    else Some(Counters(BusyTicks(fields.value) + IdleTicks(fields.value), IdleTicks(fields.value)))
  }

  predicate HasCpuLine(segment: seq<Line>) {
    exists l :: l in segment && l.Cpu?
  }

  /** The snapshot holds the counters its lines show, core by core. */
  ghost predicate Shows(s: Snapshot, segment: seq<Line>) {
    && (s.cpuSeen <==> HasCpuLine(segment))
    && (forall name :: name in s.cpu <==> LastFields(segment, name).Some?)
    && (forall name :: name in s.cpu ==> Some(s.cpu[name]) == CountersOf(LastFields(segment, name)))
  }

  lemma LastFieldsMore(segment: seq<Line>, line: Line, name: string)
    ensures LastFields(segment + [line], name)
         == if Counts(line) && line.name == name then line.fields else LastFields(segment, name)
  {
    assert (segment + [line])[..|segment|] == segment;
  }

  lemma CollectShows(s: Snapshot, segment: seq<Line>, line: Line)
    requires Shows(s, segment)
    ensures Shows(Collect(s, line), segment + [line])
  {
    var next := Collect(s, line);
    assert forall l :: l in segment + [line] <==> l in segment || l == line;
    forall name
      ensures name in next.cpu <==> LastFields(segment + [line], name).Some?
      ensures name in next.cpu ==> Some(next.cpu[name]) == CountersOf(LastFields(segment + [line], name))
    {
      LastFieldsMore(segment, line, name);
      if line.Cpu? {
        CountersAreFields(line.fields);
      }
    }
  }

  predicate AnyCounts(segment: seq<Line>) {
    exists l :: l in segment && Counts(l)
  }

  lemma {:induction false} CountedThen(segment: seq<Line>, line: Line)
    requires line in segment && Counts(line)
    ensures LastFields(segment, line.name).Some?
  {
    var front, last := segment[..|segment| - 1], segment[|segment| - 1];
    assert segment == front + [last];
    if !(Counts(last) && last.name == line.name) {
      CountedThen(front, line);
    }
  }

  lemma {:induction false} ThenCounted(segment: seq<Line>, name: string)
    requires LastFields(segment, name).Some?
    ensures AnyCounts(segment)
  {
    var front, last := segment[..|segment| - 1], segment[|segment| - 1];
    assert last in segment;
    if !(Counts(last) && last.name == name) {
      ThenCounted(front, name);
      var l :| l in front && Counts(l);
      assert l in segment;
    }
  }

  /** The parser's snapshots are those of the segments. */
  lemma {:induction false} ParseShows(lines: seq<Line>)
    ensures var p, g := Parse(lines), Segmented(lines);
            && |p.done| == |g.done|
            && (forall i :: 0 <= i < |g.done| ==> Shows(p.done[i], g.done[i]))
            && Shows(p.current, g.current)
    decreases |lines|
  {
    if lines != [] {
      hide Shows, Collect;
      var front, line := lines[..|lines| - 1], lines[|lines| - 1];
      ParseShows(front);
      var p, g := Parse(front), Segmented(front);
      EmptyShows();
      CollectShows(p.current, g.current, line);
      CollectShows(EMPTY, [], line);
      assert [] + [line] == [line];
      CpuIff(p.current, g.current);
    } else {
      EmptyShows();
    }
  }

  lemma EmptyShows()
    ensures Shows(EMPTY, [])
  {
  }

  lemma CpuIff(s: Snapshot, segment: seq<Line>)
    requires Shows(s, segment)
    ensures s.cpu != map[] <==> AnyCounts(segment)
  {
    if name :| name in s.cpu {
      ThenCounted(segment, name);
    }
    if l :| l in segment && Counts(l) {
      CountedThen(segment, l);
      assert l.name in s.cpu;
    }
  }

  /** The segments whose snapshots the feed applies. */
  function Applied(lines: seq<Line>): seq<seq<Line>> {
    var g := Segmented(lines);
    g.done + (if exists l :: l in g.current && Completes(l) then [g.current] else [])
  }

  /** An unfinished segment is applied for such a line. */
  predicate Completes(line: Line) {
    Counts(line) || line.Timestamp? || (line.Load? && line.loads.Some?) || (line.Mem? && |line.values| >= 6)
  }

  /** The fields of a core in one CPU-bearing segment after the other; None where the core is missing. */
  function FieldHistory(segments: seq<seq<Line>>, name: string): seq<Option<seq<int>>> {
    if segments == [] then []
    else
      var last := segments[|segments| - 1];
      FieldHistory(segments[..|segments| - 1], name) + (if HasCpuLine(last) then [LastFields(last, name)] else [])
  }

  function AllCounters(h: seq<Option<seq<int>>>): History {
    seq(|h|, i requires 0 <= i < |h| => CountersOf(h[i]))
  }

  lemma {:induction false} HistoryIsFields(snapshots: seq<Snapshot>, segments: seq<seq<Line>>, name: string)
    requires |snapshots| == |segments| && forall i :: 0 <= i < |segments| ==> Shows(snapshots[i], segments[i])
    ensures HistoryOf(snapshots, name) == AllCounters(FieldHistory(segments, name))
    decreases |segments|
  {
    if segments != [] {
      HistoryIsFields(snapshots[..|snapshots| - 1], segments[..|segments| - 1], name);
      var s, last := snapshots[|snapshots| - 1], segments[|segments| - 1];
      assert Shows(s, last);
      assert name in s.cpu ==> Some(s.cpu[name]) == CountersOf(LastFields(last, name));
    }
  }

  /** What an unfinished snapshot is applied for. */
  predicate Flushing(s: Snapshot, segment: seq<Line>) {
    Flushes(s) <==> exists l :: l in segment && Completes(l)
  }

  lemma CollectFlushes(s: Snapshot, segment: seq<Line>, line: Line)
    requires Flushing(s, segment) && !line.Swap? && !line.Compact?
    ensures Flushing(Collect(s, line), segment + [line])
  {
    var next := Collect(s, line);
    assert forall l :: l in segment + [line] <==> l in segment || l == line;
    if line.Cpu? {
      CountersAreFields(line.fields);
      assert Counts(line) ==> line.name in next.cpu;
    }
    if Flushes(s) {
      KeptCollecting(s, line);
    }
    if Completes(line) {
      assert line in segment + [line];
    }
    if l :| l in segment && Completes(l) {
      assert l in segment + [line];
    }
  }

  lemma KeptCollecting(s: Snapshot, line: Line)
    requires Flushes(s) && !line.Swap? && !line.Compact?
    ensures Flushes(Collect(s, line))
  {
    if name :| name in s.cpu {
      assert name in Collect(s, line).cpu;
    }
  }

  lemma {:induction false} ParseFlushes(lines: seq<Line>)
    ensures Flushing(Parse(lines).current, Segmented(lines).current)
    decreases |lines|
  {
    if lines != [] {
      hide Collect, Flushing;
      var front, line := lines[..|lines| - 1], lines[|lines| - 1];
      ParseFlushes(front);
      ParseShows(front);
      NothingFlushes();
      if !line.Swap? && !line.Compact? {
        CollectFlushes(Parse(front).current, Segmented(front).current, line);
        CollectFlushes(EMPTY, [], line);
      }
      assert [] + [line] == [line];
      CpuIff(Parse(front).current, Segmented(front).current);
    } else {
      NothingFlushes();
    }
  }

  lemma NothingFlushes()
    ensures Flushing(EMPTY, [])
  {
  }

  /** The counters the usages rest on, for every log: those of the fields of its CPU lines, segment by segment. */
  lemma LogHistory(lines: seq<Line>, name: string)
    ensures HistoryOf(Snapshots(lines), name) == AllCounters(FieldHistory(Applied(lines), name))
  {
    hide Parse, Segmented, Shows;
    ParseShows(lines);
    ParseFlushes(lines);
    HistoryIsFields(Snapshots(lines), Applied(lines), name);
  }

  // ----- Busy ticks, as differences of fields -------------------------------------------------------

  /** In no neighbouring segments that both hold the core have its busy or idle ticks gone back. */
  predicate FieldsRise(h: seq<Option<seq<int>>>) {
    forall i :: 0 < i < |h| && h[i - 1].Some? && h[i].Some? ==>
      BusyTicks(h[i - 1].value) <= BusyTicks(h[i].value) && IdleTicks(h[i - 1].value) <= IdleTicks(h[i].value)
  }

  /** The busy ticks between neighbouring segments that both hold the core. */
  function BusyBetween(h: seq<Option<seq<int>>>): int {
    if |h| < 2 then 0
    else
      var a, b := h[|h| - 2], h[|h| - 1];
      BusyBetween(h[..|h| - 1]) + (if a.Some? && b.Some? then BusyTicks(b.value) - BusyTicks(a.value) else 0)
  }

  lemma CountersMore(h: seq<Option<seq<int>>>, c: Option<seq<int>>)
    ensures AllCounters(h + [c]) == AllCounters(h) + [CountersOf(c)]
    ensures LastOf(AllCounters(h)) == if h == [] then None else CountersOf(h[|h| - 1])
  {
  }

  lemma BusyMore(h: seq<Option<seq<int>>>, c: Option<seq<int>>)
    ensures BusyBetween(h + [c])
         == BusyBetween(h) + (if h != [] && h[|h| - 1].Some? && c.Some? then
                                BusyTicks(c.value) - BusyTicks(h[|h| - 1].value) else 0)
  {
    assert (h + [c])[..|h|] == h;
  }

  lemma {:induction false} SpansAreFields(h: seq<Option<seq<int>>>)
    ensures SpanBusy(Spans(AllCounters(h))) == BusyBetween(h)
    decreases |h|
  {
    hide Spans, SpanBusy, BusyBetween, AllCounters, BusyTicks, IdleTicks;
    if h != [] {
      var front, c := h[..|h| - 1], h[|h| - 1];
      assert h == front + [c];
      SpansAreFields(front);
      CountersMore(front, c);
      BusyMore(front, c);
      SpansLonger(AllCounters(front), CountersOf(c));
      if c.Some? {
        SpansMore(Spans(AllCounters(front)), CountersOf(c).value);
      }
    } else {
      NoSpans();
    }
  }

  lemma NoSpans()
    ensures SpanBusy(Spans(AllCounters([]))) == 0 && BusyBetween([]) == 0
  {
    assert AllCounters([]) == [];
  }

  /** For every log: a core's usages from ticks, weighted by the ticks they stand for, add up to the differences of the
      busy fields of its CPU lines, wherever neighbouring snapshots both hold the core. */
  lemma LogBusyTicks(lines: seq<Line>, name: string)
    requires FieldsRise(FieldHistory(Applied(lines), name))
    ensures Weighted(TicksOnly(Origins(Snapshots(lines), name)))
         == 100.0 * BusyBetween(FieldHistory(Applied(lines), name)) as real
  {
    var h := FieldHistory(Applied(lines), name);
    LogHistory(lines, name);
    LogSamples(lines, name);
    SpansAreFields(h);
    assert Rising(AllCounters(h));
  }

  // ----- The displayed values are the latest ones ---------------------------------------------------

  /** What is new, if anything is, and else what is old. */
  function Newer<T>(recent: Option<T>, old_: Option<T>): Option<T> {
    match recent
    case Some(_) => recent
    case None => old_
  }

  /** What the last line that shows something of this kind shows. */
  function Latest<T>(lines: seq<Line>, shown: Line -> Option<T>): Option<T> {
    if lines == [] then None
    else Newer(shown(lines[|lines| - 1]), Latest(lines[..|lines| - 1], shown))
  }

  function LatestIn<T>(snapshots: seq<Snapshot>, held: Snapshot -> Option<T>): Option<T> {
    if snapshots == [] then None
    else Newer(held(snapshots[|snapshots| - 1]), LatestIn(snapshots[..|snapshots| - 1], held))
  }

  function Stamp(line: Line): Option<string> {
    if line.Timestamp? || line.Compact? then Some(line.stamp) else None
  }

  function LoadsOf(line: Line): Option<Loads> {
    if line.Load? || line.Compact? then line.loads else None
  }

  /** An uptime line that cannot be read shows that the uptime is unknown. */
  function UptimeOf(line: Line): Option<Option<real>> {
    if line.Load? then Some(line.seconds)
    else if line.Compact? && line.uptime.Some? then Some(line.uptime)
    else None
  }

  predicate ReadableMem(line: Line) {
    line.Mem? && |line.values| >= 6
  }

  function RamTotalOf(line: Line): Option<int> {
    if ReadableMem(line) then Some(line.values[0]) else None
  }

  function RamUsedOf(line: Line): Option<int> {
    if ReadableMem(line) then Some(line.values[1]) else None
  }

  function AvailableOf(line: Line): Option<int> {
    if line.Compact? then line.available else if ReadableMem(line) then Some(line.values[5]) else None
  }

  function SwapTotalOf(line: Line): Option<int> {
    if line.Swap? && |line.values| >= 2 then Some(line.values[0]) else None
  }

  function SwapUsedOf(line: Line): Option<int> {
    if line.Swap? && |line.values| >= 2 then Some(line.values[1]) else None
  }

  /** A snapshot holds what the last of its lines shows. */
  ghost predicate Carries<T(!new)>(shown: Line -> Option<T>, held: Snapshot -> Option<T>) {
    held(EMPTY) == None && forall s, line :: held(Collect(s, line)) == Newer(shown(line), held(s))
  }

  /** The state displays what the last snapshot holds. */
  ghost predicate Displays<T(!new)>(held: Snapshot -> Option<T>, displayed: SystemState -> Option<T>) {
    forall m: Summary, s :: displayed(Apply(m, s).state) == Newer(held(s), displayed(m.state))
  }

  lemma LatestInMore<T>(snapshots: seq<Snapshot>, s: Snapshot, held: Snapshot -> Option<T>)
    ensures LatestIn(snapshots + [s], held) == Newer(held(s), LatestIn(snapshots, held))
  {
    assert (snapshots + [s])[..|snapshots|] == snapshots;
  }

  function LatestParsed<T>(p: Parsed, held: Snapshot -> Option<T>): Option<T> {
    Newer(held(p.current), LatestIn(p.done, held))
  }

  lemma LineLatest<T(!new)>(p: Parsed, line: Line, shown: Line -> Option<T>, held: Snapshot -> Option<T>)
    requires Carries(shown, held)
    ensures LatestParsed(ParseLine(p, line), held) == Newer(shown(line), LatestParsed(p, held))
  {
    hide LatestIn;
    LatestInMore(p.done, p.current, held);
    LatestInMore(p.done, Collect(p.current, line), held);
    assert held(Collect(p.current, line)) == Newer(shown(line), held(p.current));
    assert held(Collect(EMPTY, line)) == Newer(shown(line), held(EMPTY));
    hide Collect, Carries;
  }

  lemma {:induction false} ParseLatest<T(!new)>(
    lines: seq<Line>, shown: Line -> Option<T>, held: Snapshot -> Option<T>)
    requires Carries(shown, held)
    ensures LatestParsed(Parse(lines), held) == Latest(lines, shown)
    decreases |lines|
  {
    if lines != [] {
      hide Collect, Carries, LatestParsed, ParseLine, Newer;
      ParseLatest(lines[..|lines| - 1], shown, held);
      LineLatest(Parse(lines[..|lines| - 1]), lines[|lines| - 1], shown, held);
    }
  }

  lemma {:induction false} ApplyLatest<T(!new)>(
    m: Summary, snapshots: seq<Snapshot>, held: Snapshot -> Option<T>, displayed: SystemState -> Option<T>)
    requires Displays(held, displayed)
    ensures displayed(ApplyAll(m, snapshots).state) == Newer(LatestIn(snapshots, held), displayed(m.state))
    decreases |snapshots|
  {
    if snapshots != [] {
      hide Apply, Displays;
      var front, s := snapshots[..|snapshots| - 1], snapshots[|snapshots| - 1];
      ApplyLatest(m, front, held, displayed);
      DisplaysOne(ApplyAll(m, front), s, held, displayed);
    }
  }

  lemma DisplaysOne<T(!new)>(
    m: Summary, s: Snapshot, held: Snapshot -> Option<T>, displayed: SystemState -> Option<T>)
    requires Displays(held, displayed)
    ensures displayed(Apply(m, s).state) == Newer(held(s), displayed(m.state))
  {
    hide Apply;
  }

  lemma FeedLatest<T(!new)>(m: Summary, lines: seq<Line>, shown: Line -> Option<T>, held: Snapshot -> Option<T>,
                      displayed: SystemState -> Option<T>)
    requires Carries(shown, held) && Displays(held, displayed)
    requires Flushes(Parse(lines).current) || held(Parse(lines).current) == None
    ensures displayed(Feed(m, lines).state) == Newer(Latest(lines, shown), displayed(m.state))
  {
    hide Apply, Collect, Parse, Flushes, Carries, Displays, ApplyAll, LatestIn, Latest;
    ParseLatest(lines, shown, held);
    ApplyLatest(m, Snapshots(lines), held, displayed);
    var p := Parse(lines);
    LatestInMore(p.done, p.current, held);
    assert p.done + [] == p.done;
  }

  lemma StampIsLatest(m: Summary, lines: seq<Line>)
    ensures Feed(m, lines).state.timestamp == Newer(Latest(lines, Stamp), m.state.timestamp)
  {
    hide Parse, Usage, Extended, Latest;
    CurrentShape(lines);
    FeedLatest(m, lines, Stamp, (s: Snapshot) => s.timestamp, (d: SystemState) => d.timestamp);
  }

  lemma LoadsIsLatest(m: Summary, lines: seq<Line>)
    ensures Feed(m, lines).state.loads == Newer(Latest(lines, LoadsOf), m.state.loads)
  {
    hide Parse, Usage, Extended, Latest;
    CurrentShape(lines);
    FeedLatest(m, lines, LoadsOf, (s: Snapshot) => s.loads, (d: SystemState) => d.loads);
  }

  lemma RamTotalIsLatest(m: Summary, lines: seq<Line>)
    ensures Feed(m, lines).state.ramTotal == Newer(Latest(lines, RamTotalOf), m.state.ramTotal)
  {
    hide Parse, Usage, Extended, Latest;
    CurrentShape(lines);
    FeedLatest(m, lines, RamTotalOf, (s: Snapshot) => s.ramTotal, (d: SystemState) => d.ramTotal);
  }

  lemma RamUsedIsLatest(m: Summary, lines: seq<Line>)
    ensures Feed(m, lines).state.ramUsed == Newer(Latest(lines, RamUsedOf), m.state.ramUsed)
  {
    hide Parse, Usage, Extended, Latest;
    CurrentShape(lines);
    FeedLatest(m, lines, RamUsedOf, (s: Snapshot) => s.ramUsed, (d: SystemState) => d.ramUsed);
  }

  lemma AvailableIsLatest(m: Summary, lines: seq<Line>)
    ensures Feed(m, lines).state.ramAvailable == Newer(Latest(lines, AvailableOf), m.state.ramAvailable)
  {
    hide Parse, Usage, Extended, Latest;
    CurrentShape(lines);
    FeedLatest(m, lines, AvailableOf, (s: Snapshot) => s.ramAvailable, (d: SystemState) => d.ramAvailable);
  }

  lemma SwapTotalIsLatest(m: Summary, lines: seq<Line>)
    ensures Feed(m, lines).state.swapTotal == Newer(Latest(lines, SwapTotalOf), m.state.swapTotal)
  {
    hide Parse, Usage, Extended, Latest;
    CurrentShape(lines);
    FeedLatest(m, lines, SwapTotalOf, (s: Snapshot) => s.swapTotal, (d: SystemState) => d.swapTotal);
  }

  lemma SwapUsedIsLatest(m: Summary, lines: seq<Line>)
    ensures Feed(m, lines).state.swapUsed == Newer(Latest(lines, SwapUsedOf), m.state.swapUsed)
  {
    hide Parse, Usage, Extended, Latest;
    CurrentShape(lines);
    FeedLatest(m, lines, SwapUsedOf, (s: Snapshot) => s.swapUsed, (d: SystemState) => d.swapUsed);
  }

  lemma UptimeIsLatest(m: Summary, lines: seq<Line>)
    requires Flushes(Parse(lines).current)
    ensures Some(Feed(m, lines).state.uptime) == Newer(Latest(lines, UptimeOf), Some(m.state.uptime))
  {
    hide Parse, Usage, Extended, Latest;
    FeedLatest(m, lines, UptimeOf, (s: Snapshot) => s.uptime, (d: SystemState) => Some(d.uptime));
  }

  /** Feeding leaves on display what the last line of each kind shows, and the old value where no line shows any. Only
      an uptime read since the last completed snapshot waits for something else to come with it. */
  lemma StateIsLatest(m: Summary, lines: seq<Line>)
    ensures var was, now := m.state, Feed(m, lines).state;
            && now.timestamp == Newer(Latest(lines, Stamp), was.timestamp)
            && now.loads == Newer(Latest(lines, LoadsOf), was.loads)
            && now.ramTotal == Newer(Latest(lines, RamTotalOf), was.ramTotal)
            && now.ramUsed == Newer(Latest(lines, RamUsedOf), was.ramUsed)
            && now.ramAvailable == Newer(Latest(lines, AvailableOf), was.ramAvailable)
            && now.swapTotal == Newer(Latest(lines, SwapTotalOf), was.swapTotal)
            && now.swapUsed == Newer(Latest(lines, SwapUsedOf), was.swapUsed)
    ensures Flushes(Parse(lines).current) ==>
              Some(Feed(m, lines).state.uptime) == Newer(Latest(lines, UptimeOf), Some(m.state.uptime))
  {
    hide *;
    StampIsLatest(m, lines);
    LoadsIsLatest(m, lines);
    RamTotalIsLatest(m, lines);
    RamUsedIsLatest(m, lines);
    AvailableIsLatest(m, lines);
    SwapTotalIsLatest(m, lines);
    SwapUsedIsLatest(m, lines);
    if Flushes(Parse(lines).current) {
      UptimeIsLatest(m, lines);
    }
  }

  /** The usages on display are those of the last snapshot: from ticks if it can be compared, else the value shown. */
  lemma UsageIsLast(lines: seq<Line>, name: string)
    requires Snapshots(lines) != []
    ensures var snapshots, usage := Snapshots(lines), Feed(FRESH, lines).state.cpuUsage;
            var front := snapshots[..|snapshots| - 1];
            var last := OriginIn(LastOf(HistoryOf(front, name)), snapshots[|snapshots| - 1], name);
            (name in usage <==> last != []) && (name in usage ==> usage[name] == last[0].Value())
  {
    hide Snapshots, Percent, OriginIn, Extended, Usage;
    var snapshots := Snapshots(lines);
    var front, s := snapshots[..|snapshots| - 1], snapshots[|snapshots| - 1];
    SnapshotsTraced(lines);
    SamplesTraced(front, name);
    UsageTraced(ApplyAll(FRESH, front), s, HistoryOf(front, name), name);
  }
}
