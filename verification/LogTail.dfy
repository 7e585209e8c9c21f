/** Following a growing log file: its last lines on selection, then every later byte once. */
module LogTail {
  import opened Options
  import opened Pcm

  const LF: byte := 10
  const CR: byte := 13

  // ----- Lines ----------------------------------------------------------------------------------

  /** Length of the first line, its terminator included; a line ends after LF, CR LF, or a CR alone. */
  function FirstLine(s: seq<byte>): (n: nat)
    requires s != []
    ensures 0 < n <= |s|
  {
    if s[0] == LF then 1
    else if s[0] == CR then (if |s| > 1 && s[1] == LF then 2 else 1)
    else if |s| == 1 then 1
    else 1 + FirstLine(s[1..])
  }

  function SplitLines(s: seq<byte>): (lines: seq<seq<byte>>)
    decreases |s|
  {
    if s == [] then [] else [s[..FirstLine(s)]] + SplitLines(s[FirstLine(s)..])
  }

  function Concat(parts: seq<seq<byte>>): seq<byte> {
    if parts == [] then [] else parts[0] + Concat(parts[1..])
  }

  function CountLF(s: seq<byte>): nat {
    if s == [] then 0 else (if s[0] == LF then 1 else 0) + CountLF(s[1..])
  }

  function LastLines(s: seq<byte>, n: nat): seq<seq<byte>> {
    var lines := SplitLines(s);
    if n < |lines| then lines[|lines| - n..] else lines
  }

  lemma ConcatFront(first: seq<byte>, parts: seq<seq<byte>>)
    ensures Concat([first] + parts) == first + Concat(parts)
  {
    assert ([first] + parts)[1..] == parts;
  }

  /** A line: no terminator before its own end. */
  predicate IsLine(line: seq<byte>) {
    line != [] && FirstLine(line) == |line|
  }

  lemma {:induction false} FirstLineIsLine(s: seq<byte>)
    requires s != []
    ensures IsLine(s[..FirstLine(s)])
  {
    if s[0] != LF && s[0] != CR && |s| > 1 {
      FirstLineIsLine(s[1..]);
      var n := FirstLine(s);
      assert s[..n][1..] == s[1..][..n - 1];
    }
  }

  /** Splitting loses nothing and yields lines. */
  lemma {:induction false} SplitLinesCover(s: seq<byte>)
    ensures Concat(SplitLines(s)) == s
    ensures forall line :: line in SplitLines(s) ==> IsLine(line)
    decreases |s|
  {
    if s != [] {
      var n := FirstLine(s);
      FirstLineIsLine(s);
      SplitLinesCover(s[n..]);
      ConcatFront(s[..n], SplitLines(s[n..]));
      assert s[..n] + s[n..] == s;
    }
  }

  lemma {:induction false} FirstLineEnds(s: seq<byte>)
    requires s != [] && FirstLine(s) < |s|
    ensures var n := FirstLine(s);
            (s[n - 1] == LF || s[n - 1] == CR) && !(s[n - 1] == CR && s[n] == LF)
  {
    if s[0] != LF && s[0] != CR {
      FirstLineEnds(s[1..]);
    }
  }

  /** Only the last line may lack a terminator, and a CR LF pair is never split between two lines. */
  lemma {:induction false} SplitLinesTerminated(s: seq<byte>, i: nat)
    requires i + 1 < |SplitLines(s)|
    ensures var line, next := SplitLines(s)[i], SplitLines(s)[i + 1];
            && line != [] && next != []
            && (line[|line| - 1] == LF || line[|line| - 1] == CR)
            && !(line[|line| - 1] == CR && next[0] == LF)
    decreases |s|
  {
    var n := FirstLine(s);
    if i > 0 {
      SplitLinesTerminated(s[n..], i - 1);
    } else {
      FirstLineEnds(s);
      assert SplitLines(s)[1] == s[n..][..FirstLine(s[n..])];
    }
  }

  lemma {:induction false} CountAppend(a: seq<byte>, b: seq<byte>)
    ensures CountLF(a + b) == CountLF(a) + CountLF(b)
  {
    if a == [] {
      assert a + b == b;
    } else {
      CountAppend(a[1..], b);
      assert (a + b)[1..] == a[1..] + b;
    }
  }

  lemma {:induction false} LineHasOneLF(line: seq<byte>)
    requires IsLine(line)
    ensures CountLF(line) <= 1
  {
    if |line| > 1 {
      if line[0] == CR {
        assert |line| == 2;
        assert line[1..][1..] == [];
        assert CountLF(line[1..]) == 1;
      } else {
        LineHasOneLF(line[1..]);
      }
    } else {
      assert line[1..] == [];
    }
  }

  /** Every line feed ends a line, so there are at least as many lines as line feeds. */
  lemma {:induction false} LinesAtLeastLF(s: seq<byte>)
    ensures CountLF(s) <= |SplitLines(s)|
    decreases |s|
  {
    if s != [] {
      var n := FirstLine(s);
      FirstLineIsLine(s);
      LineHasOneLF(s[..n]);
      LinesAtLeastLF(s[n..]);
      CountAppend(s[..n], s[n..]);
      assert s[..n] + s[n..] == s;
    }
  }

  /** Cut inside its first line, even between CR and LF, a text keeps the same first line end. */
  lemma {:induction false} FirstLineCut(s: seq<byte>, p: nat)
    requires s != [] && p < FirstLine(s)
    ensures FirstLine(s[p..]) == FirstLine(s) - p
  {
    if p > 0 && s[0] != CR {
      FirstLineCut(s[1..], p - 1);
      assert s[1..][p - 1..] == s[p..];
    } else if p > 0 {
      assert s[p..][0] == LF;
    } else {
      assert s[p..] == s;
    }
  }

  /** Wherever a text is cut, the lines after the first of the rest are the last lines of the whole. */
  lemma {:induction false} SuffixLines(s: seq<byte>, p: nat)
    requires p < |s|
    ensures |SplitLines(s[p..])| <= |SplitLines(s)|
    ensures SplitLines(s)[|SplitLines(s)| - |SplitLines(s[p..])| + 1..] == SplitLines(s[p..])[1..]
    decreases |s|
  {
    hide SplitLines;
    var n := FirstLine(s);
    OneLineMore(s);
    if p < n {
      FirstLineCut(s, p);
      OneLineMore(s[p..]);
      assert s[p..][n - p..] == s[n..];
      SameRest(s[..n], s[p..][..n - p], SplitLines(s[n..]));
    } else if n < |s| {
      SuffixLines(s[n..], p - n);
      assert s[n..][p - n..] == s[p..];
      OneLineMore(s[p..]);
      SameEnd(s[..n], SplitLines(s[n..]), SplitLines(s[p..]));
    }
  }

  lemma SameRest<T>(first: T, other: T, later: seq<T>)
    ensures ([first] + later)[1..] == ([other] + later)[1..]
  {
  }

  lemma SameEnd<T>(first: T, later: seq<T>, last: seq<T>)
    requires 1 <= |last| <= |later| && later[|later| - |last| + 1..] == last[1..]
    ensures ([first] + later)[|later| + 1 - |last| + 1..] == last[1..]
  {
    assert ([first] + later)[1..] == later;
    assert ([first] + later)[|later| + 1 - |last| + 1..] == later[|later| - |last| + 1..];
  }

  lemma OneLineMore(s: seq<byte>)
    requires s != []
    ensures SplitLines(s) == [s[..FirstLine(s)]] + SplitLines(s[FirstLine(s)..])
  {
  }

  /** A suffix with more line feeds than lines wanted already determines them. */
  lemma SuffixSuffices(s: seq<byte>, p: nat, n: nat)
    requires p <= |s| && n >= 1
    requires p == 0 || CountLF(s[p..]) > n
    ensures LastLines(s[p..], n) == LastLines(s, n)
  {
    if p == 0 {
      assert s[p..] == s;
    } else {
      LinesAtLeastLF(s[p..]);
      assert p < |s|;
      SuffixLines(s, p);
      var all, part := SplitLines(s), SplitLines(s[p..]);
      assert part[|part| - n..] == part[1..][|part| - n - 1..];
      assert all[|all| - n..] == all[|all| - |part| + 1..][|part| - n - 1..];
    }
  }

  /** Reads backwards chunk by chunk until enough line feeds are in hand, then keeps the last lines. */
  method ReadLastLines(file: seq<byte>, lineCount: nat, chunkSize: nat) returns (text: seq<byte>)
    requires lineCount >= 1 && chunkSize >= 1
    ensures text == Concat(LastLines(file, lineCount))
  {
    var chunks: seq<seq<byte>> := [];
    var newlines := 0;
    var position := |file|;
    while position > 0 && newlines <= lineCount
      invariant 0 <= position <= |file|
      invariant Concat(chunks) == file[position..]
      invariant newlines == CountLF(file[position..])
    {
      var size := if chunkSize < position then chunkSize else position;
      ghost var read := file[position..];
      position := position - size;
      var chunk := file[position..position + size];
      ConcatFront(chunk, chunks);
      CountAppend(chunk, read);
      assert file[position..] == chunk + read;
      chunks := [chunk] + chunks;
      newlines := newlines + CountLF(chunk);
    }
    var data := Concat(chunks);
    SuffixSuffices(file, position, lineCount);
    text := Concat(LastLines(data, lineCount));
  }

  // ----- Following the file ---------------------------------------------------------------------

  /** What a path leads to. */
  datatype File = Absent | Present(identity: nat, content: seq<byte>)

  datatype Tail = Tail(identity: Option<nat>, offset: nat)

  datatype Text = NotAvailable | Shown(notice: bool, data: seq<byte>)

  const NOTHING: Text := Shown(false, [])

  /** Selecting a file forgets the old one and starts after the current end. */
  function Selected(file: File): Tail {
    if file.Absent? then Tail(None, 0) else Tail(Some(file.identity), |file.content|)
  }

  predicate Resets(tail: Tail, file: File)
    requires file.Present?
  {
    tail.identity.Some? && (file.identity != tail.identity.value || |file.content| < tail.offset)
  }

  /** The position to read from once the file's identity and size are known. */
  function Positioned(tail: Tail, file: File): Tail
    requires file.Present?
  {
    if tail.identity.None? || Resets(tail, file) then Tail(Some(file.identity), 0) else tail
  }

  /** A poll looks at the file once for its identity and size, and once more to read it. */
  function Polled(tail: Tail, looked: File, found: File): (Tail, Text) {
    if looked.Absent? then (tail, NOTHING)
    else
      var t := Positioned(tail, looked);
      if found.Absent? then (t, NOTHING)
      else if |found.content| <= t.offset then (t, NOTHING)
      else (t.(offset := |found.content|), Shown(Resets(tail, looked), found.content[t.offset..]))
  }

  class IncrementalLogTail {
    var hasPath: bool
    var initialLines: nat
    var offset: nat
    var identity: Option<nat>

    ghost function View(): Tail
      reads this
    {
      Tail(identity, offset)
    }

    constructor (initialLines: int)
      ensures !hasPath && View() == Tail(None, 0) && this.initialLines >= 1
    {
      hasPath := false;
      this.initialLines := if initialLines < 1 then 1 else initialLines;
      offset := 0;
      identity := None;
    }

    method Select(file: File, lines: Option<int>) returns (text: Text)
      requires initialLines >= 1
      modifies this
      ensures hasPath && View() == Selected(file)
      ensures initialLines == match lines { case None => old(initialLines) case Some(n) => if n < 1 then 1 else n }
      ensures text == if file.Absent? then NotAvailable else Shown(false, Concat(LastLines(file.content, initialLines)))
    {
      hasPath := true;
      if lines.Some? {
        initialLines := if lines.value < 1 then 1 else lines.value;
      }
      offset := 0;
      identity := None;
      if file.Absent? {
        return NotAvailable;
      }
      identity := Some(file.identity);
      offset := |file.content|;
      var last := ReadLastLines(file.content, initialLines, 65536);
      text := Shown(false, last);
    }

    method ReadNew(looked: File, found: File) returns (text: Text)
      modifies this
      ensures hasPath == old(hasPath) && initialLines == old(initialLines)
      ensures if !hasPath then View() == old(View()) && text == NOTHING
              else (View(), text) == Polled(old(View()), looked, found)
    {
      if !hasPath || looked.Absent? {
        return NOTHING;
      }
      var reset := identity.Some? && (looked.identity != identity.value || |looked.content| < offset);
      if identity.None? || reset {
        offset := 0;
        identity := Some(looked.identity);
      }
      if found.Absent? {
        return NOTHING;
      }
      var data := if offset <= |found.content| then found.content[offset..] else [];
      offset := offset + |data|;
      if data == [] {
        return NOTHING;
      }
      text := Shown(reset, data);
    }
  }

  // ----- Runs -----------------------------------------------------------------------------------

  /** What happens to a selected file. A poll may see the file grow by late bytes between its two looks. */
  datatype Event =
    | Append(bytes: seq<byte>)
    | Poll(late: seq<byte>)
    | Rewrite(content: seq<byte>)                 // the same file, new content
    | Replace(identity: nat, content: seq<byte>)  // another file at the path

  /** The follower, the file, and everything delivered since the follower last started at a known place. */
  datatype World = World(tail: Tail, file: File, start: nat, delivered: seq<byte>)

  function Step(w: World, e: Event): World
    requires w.file.Present?
  {
    match e
    case Append(bytes) => w.(file := w.file.(content := w.file.content + bytes))
    case Rewrite(content) => w.(file := w.file.(content := content))
    case Replace(identity, content) => w.(file := Present(identity, content))
    case Poll(late) =>
      var found := w.file.(content := w.file.content + late);
      var (tail, text) := Polled(w.tail, w.file, found);
      var kept := if Resets(w.tail, w.file) then [] else w.delivered;
      World(tail, found, if Resets(w.tail, w.file) then 0 else w.start, kept + text.data)
  }

  function Run(w: World, events: seq<Event>): (r: World)
    requires w.file.Present?
    ensures r.file.Present?
    decreases |events|
  {
    if events == [] then w else Run(Step(w, events[0]), events[1..])
  }

  /** Delivered so far is exactly the content from the starting place to the offset. */
  predicate InStep(w: World) {
    && w.file.Present? && w.tail.identity == Some(w.file.identity)
    && w.start <= w.tail.offset <= |w.file.content|
    && w.delivered == w.file.content[w.start..w.tail.offset]
  }

  function Follow(file: File): World
    requires file.Present?
  {
    World(Selected(file), file, |file.content|, [])
  }

  predicate Grows(e: Event) {
    e.Append? || e.Poll?
  }

  lemma {:induction false} GrowingKeepsInStep(w: World, events: seq<Event>)
    requires InStep(w) && forall i :: 0 <= i < |events| ==> Grows(events[i])
    ensures InStep(Run(w, events)) && Run(w, events).start == w.start
    ensures w.file.content <= Run(w, events).file.content
    decreases |events|
  {
    if events != [] {
      var next := Step(w, events[0]);
      if events[0].Poll? {
        var o := w.tail.offset;
        assert next.delivered == next.file.content[w.start..o] + next.file.content[o..next.tail.offset];
      } else {
        assert next.file.content[w.start..w.tail.offset] == w.delivered;
      }
      GrowingKeepsInStep(next, events[1..]);
    }
  }

  /** After selection, whatever is appended and however it is polled, the last poll has delivered every
      later byte exactly once and in order. */
  lemma DeliversEveryByteOnce(file: File, events: seq<Event>, late: seq<byte>)
    requires file.Present? && forall i :: 0 <= i < |events| ==> Grows(events[i])
    ensures var w := Run(Follow(file), events + [Poll(late)]);
            file.content <= w.file.content && w.delivered == w.file.content[|file.content|..]
  {
    var all := events + [Poll(late)];
    var w := Run(Follow(file), all);
    GrowingKeepsInStep(Follow(file), all);
    PollReachesEnd(Follow(file), events, late);
  }

  lemma {:induction false} PollReachesEnd(w: World, events: seq<Event>, late: seq<byte>)
    requires InStep(w) && forall i :: 0 <= i < |events| ==> Grows(events[i])
    ensures var r := Run(w, events + [Poll(late)]);
            r.tail.offset == |r.file.content|
    decreases |events|
  {
    var all := events + [Poll(late)];
    if events == [] {
      assert all[1..] == [];
    } else {
      assert all[0] == events[0] && all[1..] == events[1..] + [Poll(late)];
      GrowingKeepsInStep(w, [events[0]]);
      assert [events[0]][1..] == [];
      assert Run(w, [events[0]]) == Step(w, events[0]);
      PollReachesEnd(Step(w, events[0]), events[1..], late);
    }
  }

  /** What one poll shows: nothing while there is no file; with a file, all from the offset on, or from byte 0 of a file
      seen for the first time or changed; and a notice exactly if a change is shown. */
  lemma PollShows(tail: Tail, looked: File, found: File)
    requires looked.Present? && found.Present?
    ensures var changed := tail.identity.Some?
                           && (looked.identity != tail.identity.value || |looked.content| < tail.offset);
            var offset := if tail.identity.None? || changed then 0 else tail.offset;
            var (t, text) := Polled(tail, looked, found);
            && (offset < |found.content| ==> text == Shown(changed, found.content[offset..]))
            && (offset >= |found.content| ==> text == NOTHING)
            && t.identity == (if tail.identity.None? || changed then Some(looked.identity) else tail.identity)
            && t.offset == if offset < |found.content| then |found.content| else offset
  {
  }

  /** A changed file that is gone again before it is read loses its notice: when it is back, it is delivered from byte 0
      without one. */
  lemma NoticeLost(tail: Tail, looked: File, late: seq<byte>)
    requires looked.Present? && Resets(tail, looked)
    ensures var (t, text) := Polled(tail, looked, Absent);
            && text == NOTHING
            && Polled(t, looked, looked.(content := looked.content + late)).1 == Shown(false, looked.content + late)
  {
    assert (looked.content + late)[0..] == looked.content + late;
  }

  /** The follower and its file when a file that was not there at selection is polled for the first time. */
  function FirstSeen(file: File, late: seq<byte>): World
    requires file.Present?
  {
    var found := file.(content := file.content + late);
    var (tail, text) := Polled(Selected(Absent), file, found);
    World(tail, found, 0, text.data)
  }

  /** Until such a file appears polls deliver nothing; then every byte of it is delivered, from its very first one,
      exactly once and in order, and without a notice. */
  lemma LateFileFromStart(file: File, late: seq<byte>, events: seq<Event>, more: seq<byte>)
    requires file.Present? && forall i :: 0 <= i < |events| ==> Grows(events[i])
    ensures forall found :: Polled(Selected(Absent), Absent, found) == (Selected(Absent), NOTHING)
    ensures var content := file.content + late;
            && Polled(Selected(Absent), file, file.(content := content)).1 == Shown(false, content)
            && FirstSeen(file, late).delivered == content
    ensures var w := Run(FirstSeen(file, late), events + [Poll(more)]);
            file.content + late <= w.file.content && w.delivered == w.file.content
  {
    var content := file.content + late;
    var w := FirstSeen(file, late);
    assert content[0..] == content;
    assert InStep(w);
    GrowingKeepsInStep(w, events + [Poll(more)]);
    PollReachesEnd(w, events, more);
  }

  /** After a change of the file behind the follower's back, one poll is in step again exactly when it notices:
      another identity, or a size below the offset. Delivery then restarts at byte 0 of the new content. */
  lemma RestartIffNoticed(w: World, changed: Event, late: seq<byte>)
    requires InStep(w) && (changed.Rewrite? || changed.Replace?)
    ensures var r := Run(w, [changed, Poll(late)]);
            var noticed := Resets(w.tail, Step(w, changed).file);
            && (noticed ==> InStep(r) && r.start == 0 && r.delivered == changed.content + late)
            && (noticed <==> (changed.Replace? && changed.identity != w.file.identity)
                             || |changed.content| < w.tail.offset)
            && (!noticed ==> r.delivered == w.delivered + (changed.content + late)[w.tail.offset..])
  {
    var events := [changed, Poll(late)];
    assert events[1..] == [Poll(late)] && events[1..][1..] == [];
    assert Run(Step(w, changed), [Poll(late)]) == Step(Step(w, changed), Poll(late));
    var content := changed.content + late;
    assert content[0..] == content;
  }
}
