/** The runtime monitor's memory of kernel lines, its events and its counters. */
module KernelMonitor {
  import opened Options

  datatype Category = Xrun | UsbReset | UsbDisconnect | UsbReconnect | AudioError | IoError | System

  datatype Event = Event(category: Category, message: string)

  /** How a line is classified, if at all. */
  type Classifier = string -> Option<Category>

  const LIMIT: nat := 10000
  const KEPT: nat := 5000

  datatype Monitor = Monitor(
    seen: set<string>, seenProcess: set<string>, events: seq<Event>, xruns: nat, resets: nat, disconnects: nat,
    reconnects: nat, errors: nat)

  const FRESH: Monitor := Monitor({}, {}, [], 0, 0, 0, 0, 0)

  function Record(m: Monitor, e: Event): Monitor {
    var t := m.(events := m.events + [e]);
    match e.category
    case Xrun => t.(xruns := t.xruns + 1)
    case UsbReset => t.(resets := t.resets + 1)
    case UsbDisconnect => t.(disconnects := t.disconnects + 1)
    case UsbReconnect => t.(reconnects := t.reconnects + 1)
    case AudioError => t.(errors := t.errors + 1)
    case IoError => t.(errors := t.errors + 1)
    case System => t
  }

  function ReadLine(c: Classifier, m: Monitor, line: string): Monitor {
    if line == "" || line in m.seen then m
    else
      var t := m.(seen := m.seen + {line});
      if c(line).Some? then Record(t, Event(c(line).value, line)) else t
  }

  function ReadLines(c: Classifier, m: Monitor, lines: seq<string>): Monitor
    decreases |lines|
  {
    if lines == [] then m else ReadLines(c, ReadLine(c, m, lines[0]), lines[1..])
  }

  /** Above the limit a fixed number of the lines stay remembered; which ones is not determined. */
  predicate Pruned(m: Monitor, t: Monitor) {
    if |m.seen| > LIMIT then t == m.(seen := t.seen) && t.seen <= m.seen && |t.seen| == KEPT else t == m
  }

  /** One poll: the whole log so far is read. */
  predicate Polled(c: Classifier, m: Monitor, log: seq<string>, t: Monitor) {
    Pruned(ReadLines(c, m, log), t)
  }

  /** Output of a capture or playback process; only some categories are recorded. */
  function ReadProcessLine(c: Classifier, m: Monitor, line: string): Monitor {
    if line in m.seenProcess then m
    else
      var t := m.(seenProcess := m.seenProcess + {line});
      if c(line) == Some(Xrun) || c(line) == Some(IoError) || c(line) == Some(AudioError) then
        Record(t, Event(c(line).value, line))
      else t
  }

  function ReadProcess(c: Classifier, m: Monitor, lines: seq<string>): Monitor
    decreases |lines|
  {
    if lines == [] then m else ReadProcess(c, ReadProcessLine(c, m, lines[0]), lines[1..])
  }

  // ----- Every counter is the number of its events --------------------------------------------------

  function Count(events: seq<Event>, category: Category): nat {
    if events == [] then 0
    else Count(events[..|events| - 1], category) + (if events[|events| - 1].category == category then 1 else 0)
  }

  predicate Counted(m: Monitor) {
    && m.xruns == Count(m.events, Xrun) && m.resets == Count(m.events, UsbReset)
    && m.disconnects == Count(m.events, UsbDisconnect) && m.reconnects == Count(m.events, UsbReconnect)
    && m.errors == Count(m.events, AudioError) + Count(m.events, IoError)
    && |m.events| == m.xruns + m.resets + m.disconnects + m.reconnects + m.errors + Count(m.events, System)
  }

  lemma CountMore(events: seq<Event>, e: Event, category: Category)
    ensures Count(events + [e], category) == Count(events, category) + (if e.category == category then 1 else 0)
  {
    var more := events + [e];
    assert more[..|more| - 1] == events;
  }

  lemma RecordCounted(m: Monitor, e: Event)
    requires Counted(m)
    ensures Counted(Record(m, e))
  {
    hide Count;
    CountMore(m.events, e, Xrun);
    CountMore(m.events, e, UsbReset);
    CountMore(m.events, e, UsbDisconnect);
    CountMore(m.events, e, UsbReconnect);
    CountMore(m.events, e, AudioError);
    CountMore(m.events, e, IoError);
    CountMore(m.events, e, System);
    match e.category
    case Xrun =>
    case UsbReset =>
    case UsbDisconnect =>
    case UsbReconnect =>
    case AudioError =>
    case IoError =>
    case System =>
  }

  lemma ReadLineCounted(c: Classifier, m: Monitor, line: string)
    requires Counted(m)
    ensures Counted(ReadLine(c, m, line)) && Counted(ReadProcessLine(c, m, line))
  {
    hide Record;
    if c(line).Some? {
      RecordCounted(m.(seen := m.seen + {line}), Event(c(line).value, line));
      RecordCounted(m.(seenProcess := m.seenProcess + {line}), Event(c(line).value, line));
    }
  }

  lemma {:induction false} ReadLinesCounted(c: Classifier, m: Monitor, lines: seq<string>)
    requires Counted(m)
    ensures Counted(ReadLines(c, m, lines))
    decreases |lines|
  {
    if lines != [] {
      ReadLineCounted(c, m, lines[0]);
      ReadLinesCounted(c, ReadLine(c, m, lines[0]), lines[1..]);
    }
  }

  // ----- Polling a growing log equals reading it once -----------------------------------------------

  /** The lines that matter. */
  function Lines(log: seq<string>): set<string> {
    (set l | l in log) - {""}
  }

  lemma {:induction false} ReadAppend(c: Classifier, m: Monitor, p: seq<string>, q: seq<string>)
    ensures ReadLines(c, m, p + q) == ReadLines(c, ReadLines(c, m, p), q)
    decreases |p|
  {
    if p == [] {
      assert p + q == q;
    } else {
      assert (p + q)[1..] == p[1..] + q;
      ReadAppend(c, ReadLine(c, m, p[0]), p[1..], q);
    }
  }

  lemma {:induction false} SeenExactly(c: Classifier, m: Monitor, lines: seq<string>)
    ensures ReadLines(c, m, lines).seen == m.seen + Lines(lines)
    decreases |lines|
  {
    if lines == [] {
      assert m.seen + Lines([]) == m.seen;
    } else {
      SeenExactly(c, ReadLine(c, m, lines[0]), lines[1..]);
      assert lines == [lines[0]] + lines[1..];
      assert Lines(lines) == Lines([lines[0]]) + Lines(lines[1..]);
      assert ReadLine(c, m, lines[0]).seen == m.seen + Lines([lines[0]]);
      assert m.seen + Lines([lines[0]]) + Lines(lines[1..]) == m.seen + Lines(lines);
    }
  }

  lemma {:induction false} RereadNothing(c: Classifier, m: Monitor, lines: seq<string>)
    requires Lines(lines) <= m.seen
    ensures ReadLines(c, m, lines) == m
    decreases |lines|
  {
    if lines != [] {
      assert lines[0] in lines;
      assert lines[0] == "" || lines[0] in Lines(lines);
      assert Lines(lines[1..]) <= Lines(lines);
      RereadNothing(c, m, lines[1..]);
    }
  }

  lemma GrownLog(c: Classifier, m: Monitor, p: seq<string>, log: seq<string>)
    requires p <= log
    ensures ReadLines(c, ReadLines(c, m, p), log) == ReadLines(c, m, log)
  {
    var q := log[|p|..];
    assert log == p + q;
    var r := ReadLines(c, m, p);
    SeenExactly(c, m, p);
    RereadNothing(c, r, p);
    ReadAppend(c, r, p, q);
    ReadAppend(c, m, p, q);
  }

  /** One poll after the other. */
  predicate Polls(c: Classifier, states: seq<Monitor>, logs: seq<seq<string>>) {
    |states| == |logs| + 1 && forall i :: 0 <= i < |logs| ==> Polled(c, states[i], logs[i], states[i + 1])
  }

  predicate Growing(logs: seq<seq<string>>) {
    forall i, j :: 0 <= i < j < |logs| ==> logs[i] <= logs[j]
  }

  lemma Fewer(a: set<string>, b: set<string>)
    requires a <= b
    ensures |a| <= |b|
  {
    var rest := b - a;
    assert b == a + rest;
  }

  lemma LinesGrow(p: seq<string>, log: seq<string>)
    requires p <= log
    ensures Lines(p) <= Lines(log)
  {
    forall l | l in p ensures l in log {
      var k :| 0 <= k < |p| && p[k] == l;
      assert log[k] == l;
    }
  }

  /** With few enough lines a poll is a reading. */
  lemma PolledIsRead(c: Classifier, m: Monitor, r: Monitor, log: seq<string>, last: seq<string>, t: Monitor)
    requires Polled(c, r, log, t) && ReadLines(c, r, log) == ReadLines(c, m, log) && log <= last
    requires |m.seen + Lines(last)| <= LIMIT
    ensures t == ReadLines(c, m, log)
  {
    SeenExactly(c, m, log);
    LinesGrow(log, last);
    Fewer(ReadLines(c, m, log).seen, m.seen + Lines(last));
  }

  lemma {:induction false} PollsRead(c: Classifier, states: seq<Monitor>, logs: seq<seq<string>>, i: nat)
    requires Polls(c, states, logs) && Growing(logs) && i < |logs|
    requires |states[0].seen + Lines(logs[|logs| - 1])| <= LIMIT
    ensures states[i + 1] == ReadLines(c, states[0], logs[i])
  {
    assert logs[i] <= logs[|logs| - 1];
    if i > 0 {
      PollsRead(c, states, logs, i - 1);
      assert logs[i - 1] <= logs[i];
      GrownLog(c, states[0], logs[i - 1], logs[i]);
    }
    PolledIsRead(c, states[0], states[i], logs[i], logs[|logs| - 1], states[i + 1]);
  }

  /** While at most ten thousand distinct lines are seen, polling ever longer versions of a log leaves exactly
      the events, counters and memory that reading the last version once would. */
  lemma PollingIsReadingOnce(c: Classifier, states: seq<Monitor>, logs: seq<seq<string>>)
    requires Polls(c, states, logs) && logs != [] && Growing(logs)
    requires |states[0].seen + Lines(logs[|logs| - 1])| <= LIMIT
    ensures states[|logs|] == ReadLines(c, states[0], logs[|logs| - 1])
  {
    PollsRead(c, states, logs, |logs| - 1);
  }

  // ----- What a forgotten line does -------------------------------------------------------------------

  /** Some classified line of the log is not remembered. */
  predicate Unremembered(c: Classifier, m: Monitor, lines: seq<string>) {
    exists l :: l in Lines(lines) && l !in m.seen && c(l).Some?
  }

  lemma {:induction false} EventsGrow(c: Classifier, m: Monitor, lines: seq<string>)
    ensures m.events <= ReadLines(c, m, lines).events
    decreases |lines|
  {
    if lines != [] {
      EventsGrow(c, ReadLine(c, m, lines[0]), lines[1..]);
    }
  }

  /** Reading records something exactly if it meets a classified line that is not remembered, so that reading a
      log again records events again exactly if pruning has forgotten one of its classified lines. */
  lemma {:induction false} RecordsIff(c: Classifier, m: Monitor, lines: seq<string>)
    ensures ReadLines(c, m, lines).events != m.events <==> Unremembered(c, m, lines)
    decreases |lines|
  {
    if lines != [] {
      var l := lines[0];
      var t := ReadLine(c, m, l);
      EventsGrow(c, t, lines[1..]);
      assert lines == [l] + lines[1..];
      assert Lines(lines) == Lines([l]) + Lines(lines[1..]);
      assert l != "" ==> l in Lines(lines);
      if t.events == m.events {
        RecordsIff(c, t, lines[1..]);
        assert l != "" && l !in m.seen ==> c(l).None?;
        assert t.seen == m.seen + Lines([l]);
      } else {
        assert l in Lines(lines) && l !in m.seen && c(l).Some?;
      }
    }
  }

  // ----- Which events a reading records -------------------------------------------------------------------

  /** The events of the classified lines that are neither remembered nor met before in the log, in its order. */
  function NewEvents(c: Classifier, seen: set<string>, log: seq<string>): seq<Event> {
    if log == [] then []
    else
      var front, l := log[..|log| - 1], log[|log| - 1];
      NewEvents(c, seen, front)
      + (if l != "" && l !in seen && l !in front && c(l).Some? then [Event(c(l).value, l)] else [])
  }

  /** Reading records exactly these. */
  lemma {:induction false} ReadingRecords(c: Classifier, m: Monitor, log: seq<string>)
    ensures ReadLines(c, m, log).events == m.events + NewEvents(c, m.seen, log)
    decreases |log|
  {
    if log != [] {
      var front, l := log[..|log| - 1], log[|log| - 1];
      ReadingRecords(c, m, front);
      SeenExactly(c, m, front);
      assert log == front + [l];
      ReadAppend(c, m, front, [l]);
      var t := ReadLines(c, m, front);
      assert ReadLines(c, t, [l]) == ReadLine(c, t, l) by {
        assert [l][1..] == [];
        assert ReadLines(c, ReadLine(c, t, l), []) == ReadLine(c, t, l);
      }
      assert l in t.seen <==> l in m.seen || (l in front && l != "");
    }
  }

  predicate AboutAudio(category: Option<Category>) {
    category == Some(Xrun) || category == Some(IoError) || category == Some(AudioError)
  }

  /** The events of the lines of process output about audio, each at its first occurrence. */
  function NewOutput(c: Classifier, seen: set<string>, output: seq<string>): seq<Event> {
    if output == [] then []
    else
      var front, l := output[..|output| - 1], output[|output| - 1];
      NewOutput(c, seen, front)
      + (if l !in seen && l !in front && AboutAudio(c(l)) then [Event(c(l).value, l)] else [])
  }

  lemma {:induction false} OutputAppend(c: Classifier, m: Monitor, p: seq<string>, l: string)
    ensures ReadProcess(c, m, p + [l]) == ReadProcessLine(c, ReadProcess(c, m, p), l)
    decreases |p|
  {
    if p == [] {
      assert ([] + [l])[1..] == [];
      assert ReadProcess(c, ReadProcessLine(c, m, l), []) == ReadProcessLine(c, m, l);
    } else {
      assert (p + [l])[1..] == p[1..] + [l];
      OutputAppend(c, ReadProcessLine(c, m, p[0]), p[1..], l);
    }
  }

  /** Process output records exactly these, and remembers every line. */
  lemma {:induction false} OutputRecords(c: Classifier, m: Monitor, output: seq<string>)
    ensures ReadProcess(c, m, output).events == m.events + NewOutput(c, m.seenProcess, output)
    ensures ReadProcess(c, m, output).seenProcess == m.seenProcess + (set l | l in output)
    decreases |output|
  {
    if output != [] {
      var front, l := output[..|output| - 1], output[|output| - 1];
      OutputRecords(c, m, front);
      assert output == front + [l];
      OutputAppend(c, m, front, l);
      hide ReadProcess;
    } else {
      assert m.seenProcess + (set l | l in output) == m.seenProcess;
    }
  }

  // ----- Polling beyond the limit -----------------------------------------------------------------------

  /** The lines of a log that are classified. */
  function Classified(c: Classifier, log: seq<string>): set<string> {
    set l | l in Lines(log) && c(l).Some?
  }

  /** Reading adds one event for each classified line that is not remembered. */
  lemma {:induction false} EventsCount(c: Classifier, m: Monitor, lines: seq<string>)
    ensures |ReadLines(c, m, lines).events| == |m.events| + |Classified(c, lines) - m.seen|
    decreases |lines|
  {
    if lines == [] {
      assert Classified(c, lines) - m.seen == {};
    } else {
      var l, rest := lines[0], lines[1..];
      EventsCount(c, ReadLine(c, m, l), rest);
      ClassifiedMore(c, l, rest);
      assert lines == [l] + rest;
      hide Classified, ReadLines;
      OneNew(c, m, l, Classified(c, lines), Classified(c, rest));
      assert ReadLines(c, m, lines) == ReadLines(c, ReadLine(c, m, l), rest) by {
        ReadFirst(c, m, lines);
      }
    }
  }

  lemma ReadFirst(c: Classifier, m: Monitor, lines: seq<string>)
    requires lines != []
    ensures ReadLines(c, m, lines) == ReadLines(c, ReadLine(c, m, lines[0]), lines[1..])
  {
  }

  lemma ClassifiedMore(c: Classifier, l: string, rest: seq<string>)
    ensures Classified(c, [l] + rest) == Classified(c, rest) + (if l != "" && c(l).Some? then {l} else {})
  {
  }

  lemma OneNew(c: Classifier, m: Monitor, l: string, whole: set<string>, rest: set<string>)
    requires whole == rest + (if l != "" && c(l).Some? then {l} else {}) && "" !in rest
    requires l in rest ==> c(l).Some?
    ensures var t := ReadLine(c, m, l);
            |t.events| + |rest - t.seen| == |m.events| + |whole - m.seen|
  {
    if l != "" && l !in m.seen && c(l).Some? {
      RecordAdds(m.(seen := m.seen + {l}), Event(c(l).value, l));
      NewOne(rest, m.seen, l);
      hide Record;
      assert ReadLine(c, m, l).seen == m.seen + {l};
    } else if l == "" || l in m.seen {
      OldOne(rest, m.seen, l);
    } else {
      OtherOne(rest, m.seen, l);
    }
  }

  lemma NewOne(rest: set<string>, seen: set<string>, l: string)
    requires l !in seen
    ensures |(rest + {l}) - seen| == |rest - (seen + {l})| + 1
  {
    assert (rest + {l}) - seen == (rest - (seen + {l})) + {l};
  }

  lemma OldOne(rest: set<string>, seen: set<string>, l: string)
    ensures l in seen ==> (rest + {l}) - seen == rest - seen
  {
  }

  lemma OtherOne(rest: set<string>, seen: set<string>, l: string)
    requires l !in rest
    ensures rest - (seen + {l}) == rest - seen
  {
  }

  lemma RecordAdds(m: Monitor, e: Event)
    ensures |Record(m, e).events| == |m.events| + 1 && Record(m, e).seen == m.seen
  {
  }

  /** What was in the memory at first, or in the log at an earlier poll. */
  function EverSeen(states: seq<Monitor>, logs: seq<seq<string>>, i: nat): set<string>
    requires states != [] && i <= |logs|
  {
    states[0].seen + (if i == 0 then {} else Lines(logs[i - 1]))
  }

  /** The classified lines the i-th poll meets that were seen before and have been pruned since. */
  function Forgotten(c: Classifier, states: seq<Monitor>, logs: seq<seq<string>>, i: nat): set<string>
    requires |states| == |logs| + 1 && i < |logs|
  {
    Classified(c, logs[i]) * EverSeen(states, logs, i) - states[i].seen
  }

  lemma SeenEver(c: Classifier, states: seq<Monitor>, logs: seq<seq<string>>, i: nat)
    requires Polls(c, states, logs) && Growing(logs) && i <= |logs|
    ensures states[i].seen <= EverSeen(states, logs, i)
  {
    if i > 0 {
      SeenEver(c, states, logs, i - 1);
      SeenExactly(c, states[i - 1], logs[i - 1]);
      assert Polled(c, states[i - 1], logs[i - 1], states[i - 1 + 1]);
      if i > 1 {
        assert logs[i - 2] <= logs[i - 1];
        LinesGrow(logs[i - 2], logs[i - 1]);
      }
    }
  }

  function Excess(c: Classifier, states: seq<Monitor>, logs: seq<seq<string>>, n: nat): nat
    requires |states| == |logs| + 1 && n <= |logs|
  {
    if n == 0 then 0 else Excess(c, states, logs, n - 1) + |Forgotten(c, states, logs, n - 1)|
  }

  lemma Split(whole: set<string>, a: set<string>, b: set<string>)
    requires whole == a + b && a !! b
    ensures |whole| == |a| + |b|
  {
  }

  lemma PollCount(c: Classifier, states: seq<Monitor>, logs: seq<seq<string>>, i: nat)
    requires Polls(c, states, logs) && Growing(logs) && i < |logs|
    ensures |states[i + 1].events|
         == |states[i].events| + |Classified(c, logs[i]) - EverSeen(states, logs, i)| + |Forgotten(c, states, logs, i)|
  {
    var now, ever := Classified(c, logs[i]), EverSeen(states, logs, i);
    SeenEver(c, states, logs, i);
    EventsCount(c, states[i], logs[i]);
    assert Polled(c, states[i], logs[i], states[i + 1]);
    assert now - states[i].seen == (now - ever) + (now * ever - states[i].seen);
    Split(now - states[i].seen, now - ever, now * ever - states[i].seen);
  }

  lemma ClassifiedGrow(c: Classifier, p: seq<string>, log: seq<string>)
    requires p <= log
    ensures Classified(c, p) == Classified(c, log) * Lines(p)
  {
    LinesGrow(p, log);
  }

  lemma OnceCount(c: Classifier, states: seq<Monitor>, logs: seq<seq<string>>, i: nat)
    requires Polls(c, states, logs) && Growing(logs) && 0 < i < |logs|
    ensures |ReadLines(c, states[0], logs[i]).events|
         == |ReadLines(c, states[0], logs[i - 1]).events| + |Classified(c, logs[i]) - EverSeen(states, logs, i)|
  {
    hide ReadLines, Classified, Lines, Polled;
    EventsCount(c, states[0], logs[i]);
    EventsCount(c, states[0], logs[i - 1]);
    assert logs[i - 1] <= logs[i];
    ClassifiedGrow(c, logs[i - 1], logs[i]);
    EarlierAndNew(Classified(c, logs[i]), Lines(logs[i - 1]), states[0].seen);
  }

  lemma EarlierAndNew(now: set<string>, earlier: set<string>, seen: set<string>)
    ensures |now - seen| == |now * earlier - seen| + |now - (seen + earlier)|
  {
    Split(now - seen, now * earlier - seen, now - (seen + earlier));
  }

  /** Polling records, beside what reading the last log once would, one event for each line at each poll that meets
      it forgotten. */
  lemma {:induction false} PollsCount(c: Classifier, states: seq<Monitor>, logs: seq<seq<string>>, n: nat)
    requires Polls(c, states, logs) && Growing(logs) && 0 < n <= |logs|
    ensures |states[n].events| == |ReadLines(c, states[0], logs[n - 1]).events| + Excess(c, states, logs, n)
  {
    hide Forgotten, ReadLines, EverSeen;
    PollCount(c, states, logs, n - 1);
    if n == 1 {
      EventsCount(c, states[0], logs[0]);
      NothingBefore(states, logs);
      assert Excess(c, states, logs, 0) == 0;
    } else {
      PollsCount(c, states, logs, n - 1);
      OnceCount(c, states, logs, n - 1);
    }
  }

  lemma NothingBefore(states: seq<Monitor>, logs: seq<seq<string>>)
    requires states != []
    ensures EverSeen(states, logs, 0) == states[0].seen
  {
  }

  /** Two monitors that remember the same classified lines of a log record the same events from it. */
  lemma {:induction false} SameEvents(c: Classifier, u: Monitor, v: Monitor, lines: seq<string>)
    requires u.events == v.events && forall l :: l in Classified(c, lines) ==> (l in u.seen <==> l in v.seen)
    ensures ReadLines(c, u, lines).events == ReadLines(c, v, lines).events
    decreases |lines|
  {
    if lines != [] {
      var l, rest := lines[0], lines[1..];
      assert lines == [l] + rest;
      assert Lines(lines) == Lines([l]) + Lines(rest);
      assert l in lines;
      SameEvents(c, ReadLine(c, u, l), ReadLine(c, v, l), rest);
    }
  }

  /** None of the first n polls meets a line that was pruned before it. */
  predicate NoneForgotten(c: Classifier, states: seq<Monitor>, logs: seq<seq<string>>, n: nat)
    requires |states| == |logs| + 1 && n <= |logs|
  {
    forall i :: 0 <= i < n ==> Forgotten(c, states, logs, i) == {}
  }

  lemma {:induction false} UnforgottenReads(c: Classifier, states: seq<Monitor>, logs: seq<seq<string>>, n: nat)
    requires Polls(c, states, logs) && Growing(logs) && 0 < n <= |logs| && NoneForgotten(c, states, logs, n)
    ensures states[n].events == ReadLines(c, states[0], logs[n - 1]).events
  {
    assert Polled(c, states[n - 1], logs[n - 1], states[n - 1 + 1]);
    if n > 1 {
      UnforgottenReads(c, states, logs, n - 1);
      var u, v := states[n - 1], ReadLines(c, states[0], logs[n - 2]);
      assert logs[n - 2] <= logs[n - 1];
      GrownLog(c, states[0], logs[n - 2], logs[n - 1]);
      SeenExactly(c, states[0], logs[n - 2]);
      SeenEver(c, states, logs, n - 1);
      var forgotten := Forgotten(c, states, logs, n - 1);
      assert forgotten == {};
      forall l | l in Classified(c, logs[n - 1]) ensures l in u.seen <==> l in v.seen {
        assert l !in forgotten;
      }
      SameEvents(c, u, v, logs[n - 1]);
    }
  }

  lemma {:induction false} NoExcess(c: Classifier, states: seq<Monitor>, logs: seq<seq<string>>, n: nat)
    requires |states| == |logs| + 1 && n <= |logs| && Excess(c, states, logs, n) == 0
    ensures NoneForgotten(c, states, logs, n)
  {
    hide Forgotten, Excess;
    if n > 0 {
      LastExcess(c, states, logs, n);
      NoExcess(c, states, logs, n - 1);
    }
  }

  lemma LastExcess(c: Classifier, states: seq<Monitor>, logs: seq<seq<string>>, n: nat)
    requires |states| == |logs| + 1 && 0 < n <= |logs| && Excess(c, states, logs, n) == 0
    ensures Excess(c, states, logs, n - 1) == 0 && Forgotten(c, states, logs, n - 1) == {}
  {
    hide Forgotten;
    assert |Forgotten(c, states, logs, n - 1)| == 0;
  }

  /** Whatever the size of the log: polling its ever longer versions records exactly the events of reading the last
      one once if and only if no poll meets a classified line that was seen before and has been pruned. */
  lemma PollsReadOnceIff(c: Classifier, states: seq<Monitor>, logs: seq<seq<string>>)
    requires Polls(c, states, logs) && logs != [] && Growing(logs)
    ensures states[|logs|].events == ReadLines(c, states[0], logs[|logs| - 1]).events
            <==> NoneForgotten(c, states, logs, |logs|)
  {
    hide Excess, NoneForgotten, ReadLines;
    PollsCount(c, states, logs, |logs|);
    if states[|logs|].events == ReadLines(c, states[0], logs[|logs| - 1]).events {
      NoExcess(c, states, logs, |logs|);
    }
    if NoneForgotten(c, states, logs, |logs|) {
      UnforgottenReads(c, states, logs, |logs|);
    }
  }

  /** It does fail: a log of more classified lines than the limit, polled twice by a fresh monitor. */
  lemma LongLogRepeats(c: Classifier, states: seq<Monitor>, log: seq<string>)
    requires Polls(c, states, [log, log]) && states[0] == FRESH && |Lines(log)| > LIMIT
    requires forall l :: l in Lines(log) ==> c(l).Some?
    ensures |states[2].events| > |ReadLines(c, FRESH, log).events|
  {
    hide ReadLines, Lines, Forgotten, Excess;
    var logs := [log, log];
    assert Growing(logs);
    PollsCount(c, states, logs, 2);
    LongLogForgotten(c, states, log);
    TwoExcess(c, states, logs);
  }

  lemma LongLogForgotten(c: Classifier, states: seq<Monitor>, log: seq<string>)
    requires Polls(c, states, [log, log]) && states[0] == FRESH && |Lines(log)| > LIMIT
    requires forall l :: l in Lines(log) ==> c(l).Some?
    ensures Forgotten(c, states, [log, log], 1) != {}
  {
    hide ReadLines, Lines, Excess;
    var logs := [log, log];
    SeenExactly(c, FRESH, log);
    assert {} + Lines(log) == Lines(log);
    assert Polled(c, states[0], logs[0], states[0 + 1]);
    assert |states[1].seen| == KEPT;
    assert Classified(c, log) == Lines(log);
    assert Forgotten(c, states, logs, 1) == Lines(log) - states[1].seen;
    AnotherOne(Lines(log), states[1].seen);
  }

  lemma TwoExcess(c: Classifier, states: seq<Monitor>, logs: seq<seq<string>>)
    requires |states| == |logs| + 1 == 3 && Forgotten(c, states, logs, 1) != {}
    ensures Excess(c, states, logs, 2) > 0
  {
    hide Forgotten;
  }

  /** There are such logs. */
  function Numbered(n: nat): (log: seq<string>)
    ensures |log| == n
  {
    if n == 0 then [] else Numbered(n - 1) + [Name(n)]
  }

  function Name(n: nat): (name: string)
    ensures |name| == n
  {
    if n == 0 then "" else Name(n - 1) + "x"
  }

  lemma LinesMore(log: seq<string>, l: string)
    requires l != ""
    ensures Lines(log + [l]) == Lines(log) + {l}
  {
  }

  lemma {:induction false} NumberedLines(n: nat)
    ensures |Lines(Numbered(n))| == n && forall l :: l in Numbered(n) ==> 0 < |l| <= n
  {
    if n == 0 {
      assert Lines([]) == {};
    } else {
      NumberedLines(n - 1);
      var log := Numbered(n - 1);
      hide Numbered, Name;
      LinesMore(log, Name(n));
      assert Name(n) !in log;
    }
  }

  lemma TenThousandAndOne(c: Classifier, states: seq<Monitor>)
    requires Polls(c, states, [Numbered(LIMIT + 1), Numbered(LIMIT + 1)]) && states[0] == FRESH
    requires forall l :: l != "" ==> c(l).Some?
    ensures |states[2].events| > |ReadLines(c, FRESH, Numbered(LIMIT + 1)).events|
  {
    hide Numbered;
    NumberedLines(LIMIT + 1);
    LongLogRepeats(c, states, Numbered(LIMIT + 1));
  }

  // ----- The program -----------------------------------------------------------------------------------

  class AudioRuntimeMonitor {
    const classify: Classifier
    var seen: set<string>
    var seenProcess: set<string>
    var events: seq<Event>
    var xruns: nat
    var resets: nat
    var disconnects: nat
    var reconnects: nat
    var errors: nat

    ghost function View(): Monitor
      reads this
    {
      Monitor(seen, seenProcess, events, xruns, resets, disconnects, reconnects, errors)
    }

    ghost predicate Valid()
      reads this
    {
      Counted(View())
    }

    constructor (c: Classifier)
      ensures classify == c && View() == FRESH && Valid()
    {
      classify := c;
      seen, seenProcess, events := {}, {}, [];
      xruns, resets, disconnects, reconnects, errors := 0, 0, 0, 0, 0;
    }

    method RecordEvent(e: Event)
      requires Valid()
      modifies this
      ensures View() == Record(old(View()), e) && Valid() && seen == old(seen) && seenProcess == old(seenProcess)
    {
      RecordCounted(View(), e);
      events := events + [e];
      match e.category
      case Xrun => xruns := xruns + 1;
      case UsbReset => resets := resets + 1;
      case UsbDisconnect => disconnects := disconnects + 1;
      case UsbReconnect => reconnects := reconnects + 1;
      case AudioError => errors := errors + 1;
      case IoError => errors := errors + 1;
      case System =>
    }

    method ConsumeKernelEvents(log: seq<string>) returns (categories: set<Category>)
      requires Valid()
      modifies this
      ensures Polled(classify, old(View()), log, View()) && Valid()
      ensures forall k :: k in categories <==>
        exists l :: l in Lines(log) && l !in old(seen) && classify(l) == Some(k)
    {
      hide Counted;
      categories := ReadLog(log);
      ghost var before := View();
      if |seen| > LIMIT {
        var kept := SomeOf(seen);
        SeenCounted(View(), kept, seenProcess);
        seen := kept;
        assert View() == before.(seen := kept);
      }
    }

    /** Some of the lines, as many as stay remembered. */
    method SomeOf(lines: set<string>) returns (kept: set<string>)
      requires |lines| > KEPT
      ensures kept <= lines && |kept| == KEPT
    {
      kept := {};
      while |kept| < KEPT
        invariant kept <= lines && |kept| <= KEPT
      {
        AnotherOne(lines, kept);
        var line :| line in lines - kept;
        kept := kept + {line};
      }
    }

    method ReadLog(log: seq<string>) returns (categories: set<Category>)
      requires Valid()
      modifies this
      ensures View() == ReadLines(classify, old(View()), log) && Valid()
      ensures forall k :: k in categories <==>
        exists l :: l in Lines(log) && l !in old(seen) && classify(l) == Some(k)
    {
      hide Record, Counted;
      categories := {};
      var i := 0;
      while i < |log|
        invariant 0 <= i <= |log| && Valid()
        invariant ReadLines(classify, View(), log[i..]) == ReadLines(classify, old(View()), log)
        invariant seen == old(seen) + Lines(log[..i])
        invariant forall k :: k in categories <==>
          exists l :: l in Lines(log[..i]) && l !in old(seen) && classify(l) == Some(k)
      {
        var line := log[i];
        assert log[i..][1..] == log[i + 1..];
        OneLineMore(log, i);
        if line != "" && line !in seen {
          SeenCounted(View(), seen + {line}, seenProcess);
          seen := seen + {line};
          var category := classify(line);
          if category.Some? {
            categories := categories + {category.value};
            RecordEvent(Event(category.value, line));
          }
        }
        assert seen == old(seen) + Lines(log[..i + 1]);
        i := i + 1;
      }
      assert log[..i] == log;
    }

    method RecordProcessOutput(lines: seq<string>)
      requires Valid()
      modifies this
      ensures View() == ReadProcess(classify, old(View()), lines) && Valid()
    {
      hide Record, Counted;
      var i := 0;
      while i < |lines|
        invariant 0 <= i <= |lines| && Valid()
        invariant ReadProcess(classify, View(), lines[i..]) == ReadProcess(classify, old(View()), lines)
      {
        assert lines[i..][1..] == lines[i + 1..];
        var line := lines[i];
        if line !in seenProcess {
          SeenCounted(View(), seen, seenProcess + {line});
          seenProcess := seenProcess + {line};
          var category := classify(line);
          if category == Some(Xrun) || category == Some(IoError) || category == Some(AudioError) {
            RecordEvent(Event(category.value, line));
          }
        }
        i := i + 1;
      }
    }
  }

  lemma OneLineMore(log: seq<string>, i: nat)
    requires i < |log|
    ensures Lines(log[..i + 1]) == Lines(log[..i]) + (if log[i] == "" then {} else {log[i]})
  {
    assert log[..i + 1] == log[..i] + [log[i]];
  }

  lemma AnotherOne(lines: set<string>, kept: set<string>)
    requires kept <= lines && |kept| < |lines|
    ensures lines - kept != {}
  {
    var rest := lines - kept;
    assert lines == kept + rest && |lines| == |kept| + |rest|;
  }

  lemma SeenCounted(m: Monitor, seen: set<string>, seenProcess: set<string>)
    requires Counted(m)
    ensures Counted(m.(seen := seen, seenProcess := seenProcess))
  {
  }
}
