/** The journal of notable events: a ring in memory and two bounded files. */
module Journal {
  import opened Text

  const JOURNAL_DEPTH := 200
  const JOURNAL_MAX_BYTES := 0x4_0000
  const JOURNAL_QUEUE := 256

  datatype Event = Event(kind: string, text: string, code: int, line: string, repeats: nat, unix: int)

  predicate SameEvent(a: Event, b: Event) {
    a.kind == b.kind && a.text == b.text && a.code == b.code && a.line == b.line
  }

  predicate WorthKeeping(kind: string) {
    kind in ["alarm", "error", "reset", "intervention", "device", "fault"]
  }

  // Repeats.

  /** Neighbours that say the same thing become one with a count. */
  function Collapsed(batch: seq<Event>): seq<Event> {
    if batch == [] then []
    else
      var out := Collapsed(batch[..|batch| - 1]);
      var event := batch[|batch| - 1];
      if out != [] && SameEvent(out[|out| - 1], event)
      then out[|out| - 1 := out[|out| - 1].(repeats := out[|out| - 1].repeats + 1)]
      else out + [event]
  }

  method Collapse(batch: seq<Event>) returns (out: seq<Event>)
    ensures out == Collapsed(batch)
  {
    out := [];
    for i := 0 to |batch|
      invariant out == Collapsed(batch[..i])
    {
      assert batch[..i + 1][..i] == batch[..i];
      if |out| > 0 && SameEvent(out[|out| - 1], batch[i]) {
        var again := out[|out| - 1];
        out := out[|out| - 1 := again.(repeats := again.repeats + 1)];
      } else {
        out := out + [batch[i]];
      }
    }
    assert batch[..|batch|] == batch;
  }

  function Copies(event: Event, count: nat): (copies: seq<Event>)
    ensures |copies| == count && forall i | 0 <= i < count :: copies[i] == event
  {
    seq(count, i => event)
  }

  /** The events a collapsed batch stands for. */
  function Expanded(out: seq<Event>): seq<Event> {
    if out == [] then []
    else Expanded(out[..|out| - 1]) + Copies(out[|out| - 1], 1 + out[|out| - 1].repeats)
  }

  ghost predicate SameAccount(a: seq<Event>, b: seq<Event>) {
    |a| == |b| && forall i | 0 <= i < |a| :: SameEvent(a[i], b[i])
  }

  ghost predicate Fresh(batch: seq<Event>) {
    forall i | 0 <= i < |batch| :: batch[i].repeats == 0
  }

  function Total(events: seq<Event>): nat {
    if events == [] then 0 else Total(events[..|events| - 1]) + 1 + events[|events| - 1].repeats
  }

  lemma SameAccountOneMore(a: seq<Event>, b: seq<Event>, x: Event, y: Event)
    requires SameAccount(a, b) && SameEvent(x, y)
    ensures SameAccount(a + [x], b + [y])
  {}

  /** One more of what is already at the end. */
  lemma CountingUp(out: seq<Event>)
    requires out != []
    ensures var last := out[|out| - 1];
            var more := out[|out| - 1 := last.(repeats := last.repeats + 1)];
            && Total(more) == Total(out) + 1
            && |Expanded(more)| == |Expanded(out)| + 1
            && SameAccount(Expanded(more), Expanded(out) + [last])
  {
    var last := out[|out| - 1];
    var more := out[|out| - 1 := last.(repeats := last.repeats + 1)];
    assert more[..|more| - 1] == out[..|out| - 1];
  }

  lemma SameAccountTransitive(a: seq<Event>, b: seq<Event>, c: seq<Event>)
    requires SameAccount(a, b) && SameAccount(b, c)
    ensures SameAccount(a, c)
  {}

  lemma ExpandedFresh(out: seq<Event>, event: Event)
    requires event.repeats == 0
    ensures Expanded(out + [event]) == Expanded(out) + [event]
  {
    assert (out + [event])[..|out|] == out;
    assert Copies(event, 1) == [event];
  }

  lemma CollapsingAnother(out: seq<Event>, before: seq<Event>, event: Event)
    requires SameAccount(Expanded(out), before) && Total(out) == |before| && event.repeats == 0
    requires out != [] && SameEvent(out[|out| - 1], event)
    ensures var last := out[|out| - 1];
            var more := out[|out| - 1 := last.(repeats := last.repeats + 1)];
            SameAccount(Expanded(more), before + [event]) && Total(more) == |before| + 1
  {
    CountingUp(out);
    var last := out[|out| - 1];
    var more := out[|out| - 1 := last.(repeats := last.repeats + 1)];
    SameAccountOneMore(Expanded(out), before, last, event);
    SameAccountTransitive(Expanded(more), Expanded(out) + [last], before + [event]);
  }

  lemma AppendingAnother(out: seq<Event>, before: seq<Event>, event: Event)
    requires SameAccount(Expanded(out), before) && Total(out) == |before| && event.repeats == 0
    ensures SameAccount(Expanded(out + [event]), before + [event]) && Total(out + [event]) == |before| + 1
  {
    ExpandedFresh(out, event);
    SameAccountOneMore(Expanded(out), before, event, event);
    assert (out + [event])[..|out|] == out;
  }

  /** A collapsed batch tells the same story, event for event, in as few lines
      as telling neighbours apart allows. */
  lemma {:induction false} CollapsingKeepsTheStory(batch: seq<Event>)
    requires Fresh(batch)
    ensures SameAccount(Expanded(Collapsed(batch)), batch)
    ensures Total(Collapsed(batch)) == |batch|
  {
    if batch != [] {
      var before, event := batch[..|batch| - 1], batch[|batch| - 1];
      var out := Collapsed(before);
      CollapsingKeepsTheStory(before);
      assert batch == before + [event];
      if out != [] && SameEvent(out[|out| - 1], event) {
        CollapsingAnother(out, before, event);
      } else {
        AppendingAnother(out, before, event);
      }
    }
  }

  ghost predicate NeighboursDiffer(out: seq<Event>) {
    forall i | 0 <= i < |out| - 1 :: !SameEvent(out[i], out[i + 1])
  }

  lemma {:induction false} CollapsedNeighboursDiffer(batch: seq<Event>)
    ensures NeighboursDiffer(Collapsed(batch))
  {
    if batch != [] {
      var out := Collapsed(batch[..|batch| - 1]);
      CollapsedNeighboursDiffer(batch[..|batch| - 1]);
      var more := Collapsed(batch);
      forall i | 0 <= i < |more| - 1
        ensures !SameEvent(more[i], more[i + 1])
      {
        assert more[i] == out[i];
        if i + 1 < |out| { assert !SameEvent(out[i], out[i + 1]); }
      }
    }
  }

  // The files.

  /** How an event is written on a line and read back. JSON is not modelled;
      what is used of it is in Lawful. */
  datatype Codec = Codec(encode: Event -> string, decode: string -> Option<Event>)

  ghost predicate Lawful(codec: Codec) {
    forall event :: LawfulOn(codec, event)
  }

  ghost predicate LawfulOn(codec: Codec, event: Event) {
    var text := codec.encode(event);
    && text != "" && text[0] == '{' && text[|text| - 1] == '}'
    && '\n' !in text
    && codec.decode(text) == Some(event)
  }

  datatype Disk = Disk(rotated: string, current: string)

  const EMPTY_DISK := Disk("", "")

  /** Renaming the current file over the rotated one, which does nothing when
      there is no current file. */
  function Rotated(d: Disk): Disk {
    if d.current == "" then d else Disk(d.current, "")
  }

  /** What the files hold after one more line, had it been written by itself. */
  function Appended(d: Disk, line: string): Disk {
    var room := if |d.current| + |line| + 1 > JOURNAL_MAX_BYTES then Rotated(d) else d;
    room.(current := room.current + line + ['\n'])
  }

  function AppendedAll(d: Disk, lines: seq<string>): Disk {
    if lines == [] then d else Appended(AppendedAll(d, lines[..|lines| - 1]), lines[|lines| - 1])
  }

  function Encoded(codec: Codec, events: seq<Event>): (lines: seq<string>)
    ensures |lines| == |events|
  {
    if events == [] then [] else Encoded(codec, events[..|events| - 1]) + [codec.encode(events[|events| - 1])]
  }

  class Files {
    const codec: Codec
    var rotated: string
    var current: string
    var size: nat

    function Held(): Disk reads this { Disk(rotated, current) }

    // The size is zero until somebody looks, and right from then on.
    predicate Valid() reads this { size == 0 || size == |current| }

    constructor (codec: Codec)
      ensures Valid() && Held() == EMPTY_DISK && this.codec == codec
    {
      this.codec := codec;
      rotated, current, size := "", "", 0;
    }

    method Flush(out: string)
      requires size == |current|
      modifies this`current, this`size
      ensures current == old(current) + out && size == |current|
    {
      if |out| == 0 {
        return;
      }
      current := current + out;
      size := size + |out|;
    }

    /** One more line for what is waiting to be written, with a new file begun
        first if it would not fit this one. */
    method Buffer(out: string, text: string) returns (more: string)
      requires size == |current|
      modifies this
      ensures size == |current|
      ensures Disk(rotated, current + more) == Appended(Disk(old(rotated), old(current) + out), text)
    {
      var line := text + ['\n'];
      ghost var before := Disk(rotated, current + out);
      more := out;
      if size + |out| + |line| > JOURNAL_MAX_BYTES {
        Flush(out);
        if current != "" {
          rotated := current;
          current := "";
        }
        size := 0;
        more := "";
      }
      LineGoesLast(before, Disk(rotated, current + more), text);
      assert current + (more + line) == current + more + line;
      more := more + line;
    }

    /** One open and one write for a whole batch, rotating in its middle if it
        has to, leaves what writing each line by itself would have left. */
    method AppendBatch(events: seq<Event>)
      requires Valid()
      modifies this
      ensures Valid() && Held() == AppendedAll(old(Held()), Encoded(codec, events))
    {
      if |events| == 0 {
        return;
      }
      if size == 0 {
        size := |current|;
      }
      var out := "";
      assert current + out == current;
      for i := 0 to |events|
        invariant size == |current|
        invariant Disk(rotated, current + out) == AppendedAll(old(Held()), Encoded(codec, events[..i]))
      {
        EncodedMore(codec, events, i);
        out := Buffer(out, codec.encode(events[i]));
      }
      assert events[..|events|] == events;
      Flush(out);
    }

    /** A restart: nothing is known of the files until somebody looks. */
    method Reopen()
      modifies this`size
      ensures Valid() && Held() == old(Held())
    {
      size := 0;
    }

    /** What a restart reads back: the older file first, half-written or
        foreign lines skipped, the last so many kept. */
    method Load() returns (events: seq<Event>)
      ensures events == Reloaded(codec, Held())
    {
      events := ReadLines(codec, Pieces(rotated, '\n'), []);
      assert [] + Decoded(codec, Pieces(rotated, '\n')) == Decoded(codec, Pieces(rotated, '\n'));
      events := ReadLines(codec, Pieces(current, '\n'), events);
      LastFewOfLastFew(Decoded(codec, Pieces(rotated, '\n')), Decoded(codec, Pieces(current, '\n')), JOURNAL_DEPTH);
    }
  }

  method ReadLines(codec: Codec, pieces: seq<string>, before: seq<Event>) returns (events: seq<Event>)
    requires |before| <= JOURNAL_DEPTH
    ensures events == LastFew(before + Decoded(codec, pieces), JOURNAL_DEPTH)
  {
    events := before;
    assert before + [] == before;
    for i := 0 to |pieces|
      invariant events == LastFew(before + Decoded(codec, pieces[..i]), JOURNAL_DEPTH)
    {
      DecodedMore(codec, pieces, i, before);
      var event := DecodedLine(codec, pieces[i]);
      if event.Some? {
        events := events + [event.value];
        if |events| > JOURNAL_DEPTH {
          events := events[1..];
        }
      }
    }
    assert pieces[..|pieces|] == pieces;
  }

  function DecodedLine(codec: Codec, piece: string): Option<Event> {
    var text := TrimSpace(piece);
    if text == "" then None else codec.decode(text)
  }

  function Decoded(codec: Codec, pieces: seq<string>): seq<Event> {
    if pieces == [] then []
    else
      var before := Decoded(codec, pieces[..|pieces| - 1]);
      var event := DecodedLine(codec, pieces[|pieces| - 1]);
      if event.Some? then before + [event.value] else before
  }

  lemma DecodedMore(codec: Codec, pieces: seq<string>, i: nat, read: seq<Event>)
    requires i < |pieces|
    ensures var before := LastFew(read + Decoded(codec, pieces[..i]), JOURNAL_DEPTH);
            var event := DecodedLine(codec, pieces[i]);
            LastFew(read + Decoded(codec, pieces[..i + 1]), JOURNAL_DEPTH)
            == if event.Some? then LastFew(before + [event.value], JOURNAL_DEPTH) else before
  {
    assert pieces[..i + 1][..i] == pieces[..i];
    var event := DecodedLine(codec, pieces[i]);
    if event.Some? {
      LastApart(read, Decoded(codec, pieces[..i + 1]));
      LastFewOfLastFew(read + Decoded(codec, pieces[..i]), [event.value], JOURNAL_DEPTH);
    }
  }

  lemma LineGoesLast(before: Disk, room: Disk, text: string)
    requires room == if |before.current| + |text| + 1 > JOURNAL_MAX_BYTES then Rotated(before) else before
    ensures Appended(before, text) == Disk(room.rotated, room.current + (text + ['\n']))
  {}

  lemma EncodedMore(codec: Codec, events: seq<Event>, i: nat)
    requires i < |events|
    ensures Encoded(codec, events[..i + 1]) == Encoded(codec, events[..i]) + [codec.encode(events[i])]
    ensures forall d :: AppendedAll(d, Encoded(codec, events[..i + 1]))
                        == Appended(AppendedAll(d, Encoded(codec, events[..i])), codec.encode(events[i]))
  {
    assert events[..i + 1][..i] == events[..i];
    var lines := Encoded(codec, events[..i]);
    assert (lines + [codec.encode(events[i])])[..|lines|] == lines;
  }

  /** Every line, and its ending, fits a file. */
  ghost predicate Bounded(lines: seq<string>) {
    forall k | 0 <= k < |lines| :: |lines[k]| + 1 <= JOURNAL_MAX_BYTES
  }

  /** The two files are a run of whole lines that ends with the newest; neither
      is too long; and once anything has been dropped more than one file's worth
      is still there. */
  ghost predicate HoldsFrom(d: Disk, lines: seq<string>, i: nat, j: nat) {
    && i <= j <= |lines|
    && d.rotated == Terminated(lines[i..j], '\n')
    && d.current == Terminated(lines[j..], '\n')
    && |d.rotated| <= JOURNAL_MAX_BYTES && |d.current| <= JOURNAL_MAX_BYTES
    && (j > 0 ==> |d.rotated| + |d.current| > JOURNAL_MAX_BYTES)
    && (i > 0 ==> j > i)
  }

  lemma OneLineTerminated(lines: seq<string>, line: string)
    ensures Terminated(lines + [line], '\n') == Terminated(lines, '\n') + line + ['\n']
  {
    TerminatedAppend(lines, [line], '\n');
    assert [line][1..] == [];
  }

  lemma AppendedHolds(d: Disk, lines: seq<string>, line: string, i: nat, j: nat) returns (i': nat, j': nat)
    requires HoldsFrom(d, lines, i, j) && |line| + 1 <= JOURNAL_MAX_BYTES
    ensures HoldsFrom(Appended(d, line), lines + [line], i', j')
  {
    var more := lines + [line];
    if |d.current| + |line| + 1 > JOURNAL_MAX_BYTES {
      i', j' := j, |lines|;
      assert more[i'..j'] == lines[j..] && more[j'..] == [] + [line];
      OneLineTerminated([], line);
    } else {
      i', j' := i, j;
      assert more[i..j] == lines[i..j] && more[j..] == lines[j..] + [line];
      OneLineTerminated(lines[j..], line);
    }
  }

  /** However many lines have been written, the rotated file followed by the
      current one is a contiguous end of them. */
  lemma {:induction false} FilesHoldTheNewest(lines: seq<string>) returns (i: nat, j: nat)
    requires Bounded(lines)
    ensures HoldsFrom(AppendedAll(EMPTY_DISK, lines), lines, i, j)
  {
    if lines == [] {
      i, j := 0, 0;
    } else {
      var before := lines[..|lines| - 1];
      i, j := FilesHoldTheNewest(before);
      assert lines == before + [lines[|lines| - 1]];
      i, j := AppendedHolds(AppendedAll(EMPTY_DISK, before), before, lines[|lines| - 1], i, j);
    }
  }

  ghost predicate WrittenAs(codec: Codec, events: seq<Event>, lines: seq<string>) {
    && |lines| == |events|
    && forall k | 0 <= k < |events| :: lines[k] == codec.encode(events[k]) && LawfulOn(codec, events[k])
  }

  lemma {:induction false} EncodedIsWritten(codec: Codec, events: seq<Event>)
    requires Lawful(codec)
    ensures WrittenAs(codec, events, Encoded(codec, events))
  {
    if events != [] {
      EncodedIsWritten(codec, events[..|events| - 1]);
      assert LawfulOn(codec, events[|events| - 1]);
    }
  }

  lemma {:induction false} DecodedLines(codec: Codec, events: seq<Event>, lines: seq<string>)
    requires WrittenAs(codec, events, lines)
    ensures Decoded(codec, lines) == events
  {
    if events != [] {
      var last := |events| - 1;
      DecodedLines(codec, events[..last], lines[..last]);
      TrimKeeps(lines[last], IsSpace);
    }
  }

  lemma DecodedFile(codec: Codec, events: seq<Event>, lines: seq<string>, i: nat, j: nat)
    requires WrittenAs(codec, events, lines) && i <= j <= |lines|
    ensures Decoded(codec, Pieces(Terminated(lines[i..j], '\n'), '\n')) == events[i..j]
  {
    forall part | part in lines[i..j]
      ensures '\n' !in part
    {
      var k :| i <= k < j && lines[k] == part;
      assert LawfulOn(codec, events[k]);
    }
    PiecesTerminated(lines[i..j], '\n');
    DecodedLines(codec, events[i..j], lines[i..j]);
  }

  lemma SlicesMeet<T>(s: seq<T>, i: nat, j: nat)
    requires i <= j <= |s|
    ensures s[j..|s|] == s[j..] && s[i..j] + s[j..] == s[i..]
  {}

  /** A restart reads back the newest events that were ever written, as many as
      the files still have - all of them, as long as nothing has been dropped,
      and never less than a file's worth. */
  lemma ReloadReadsTheNewest(codec: Codec, events: seq<Event>) returns (dropped: nat)
    requires Lawful(codec) && Bounded(Encoded(codec, events))
    ensures dropped <= |events|
    ensures var d := AppendedAll(EMPTY_DISK, Encoded(codec, events));
            && Decoded(codec, Pieces(d.rotated, '\n')) + Decoded(codec, Pieces(d.current, '\n')) == events[dropped..]
            && (dropped > 0 ==> |d.rotated| + |d.current| > JOURNAL_MAX_BYTES)
  {
    var lines := Encoded(codec, events);
    EncodedIsWritten(codec, events);
    var i, j := FilesHoldTheNewest(lines);
    DecodedFile(codec, events, lines, i, j);
    DecodedFile(codec, events, lines, j, |lines|);
    SlicesMeet(lines, i, j);
    SlicesMeet(events, i, j);
    dropped := i;
  }

  // Batch after batch, across restarts. A restart finds the files as they are and
  // only has to look again how long the current one is.

  lemma {:induction false} AppendedInTwo(d: Disk, a: seq<string>, b: seq<string>)
    ensures AppendedAll(d, a + b) == AppendedAll(AppendedAll(d, a), b)
  {
    if b == [] {
      assert a + b == a;
    } else {
      LastApart(a, b);
      AppendedInTwo(d, a, b[..|b| - 1]);
    }
  }

  lemma {:induction false} EncodedInTwo(codec: Codec, a: seq<Event>, b: seq<Event>)
    ensures Encoded(codec, a + b) == Encoded(codec, a) + Encoded(codec, b)
  {
    if b == [] {
      assert a + b == a;
    } else {
      LastApart(a, b);
      EncodedInTwo(codec, a, b[..|b| - 1]);
    }
  }

  /** The files after these batches, each collapsed before it is written. */
  function AfterBatches(codec: Codec, batches: seq<seq<Event>>): Disk {
    if batches == [] then EMPTY_DISK
    else AppendedAll(AfterBatches(codec, batches[..|batches| - 1]), Encoded(codec, Collapsed(batches[|batches| - 1])))
  }

  /** Every event that was written, in order. */
  function Story(batches: seq<seq<Event>>): seq<Event> {
    if batches == [] then [] else Story(batches[..|batches| - 1]) + Collapsed(batches[|batches| - 1])
  }

  lemma {:induction false} BatchesAreOne(codec: Codec, batches: seq<seq<Event>>)
    ensures AfterBatches(codec, batches) == AppendedAll(EMPTY_DISK, Encoded(codec, Story(batches)))
  {
    if batches != [] {
      var before, last := batches[..|batches| - 1], Collapsed(batches[|batches| - 1]);
      BatchesAreOne(codec, before);
      EncodedInTwo(codec, Story(before), last);
      AppendedInTwo(EMPTY_DISK, Encoded(codec, Story(before)), Encoded(codec, last));
    }
  }

  /** What a restart reads from a disk. */
  function Reloaded(codec: Codec, d: Disk): seq<Event> {
    LastFew(Decoded(codec, Pieces(d.rotated, '\n')) + Decoded(codec, Pieces(d.current, '\n')), JOURNAL_DEPTH)
  }

  /** Over any run of batches and restarts: a restart shows the last two hundred of
      a contiguous end of everything that was ever written - of all of it, unless
      more than one file's worth is left even so. */
  lemma RestartShowsTheNewest(codec: Codec, batches: seq<seq<Event>>) returns (dropped: nat)
    requires Lawful(codec) && Bounded(Encoded(codec, Story(batches)))
    ensures dropped <= |Story(batches)|
    ensures var d := AfterBatches(codec, batches);
            && Reloaded(codec, d) == LastFew(Story(batches)[dropped..], JOURNAL_DEPTH)
            && (dropped > 0 ==> |d.rotated| + |d.current| > JOURNAL_MAX_BYTES)
  {
    BatchesAreOne(codec, batches);
    dropped := ReloadReadsTheNewest(codec, Story(batches));
  }

  // Power lost in the middle of a write.

  lemma {:induction false} PiecesAndTail(parts: seq<string>, tail: string)
    requires '\n' !in tail && forall part | part in parts :: '\n' !in part
    ensures Pieces(Terminated(parts, '\n') + tail, '\n') == parts + if tail == "" then [] else [tail]
  {
    if parts == [] {
      assert Terminated(parts, '\n') + tail == tail;
      CutNone(tail, '\n');
    } else {
      var rest := Terminated(parts[1..], '\n') + tail;
      assert Terminated(parts, '\n') + tail == parts[0] + ['\n'] + rest;
      CutAt(parts[0], '\n', rest);
      PiecesAndTail(parts[1..], tail);
      assert parts == [parts[0]] + parts[1..];
    }
  }

  lemma {:induction false} DecodedInTwo(codec: Codec, a: seq<string>, b: seq<string>)
    ensures Decoded(codec, a + b) == Decoded(codec, a) + Decoded(codec, b)
  {
    if b == [] {
      assert a + b == a;
    } else {
      LastApart(a, b);
      DecodedInTwo(codec, a, b[..|b| - 1]);
    }
  }

  /** Wherever whole lines are cut, there are whole lines and a part of the next. */
  lemma {:induction false} CutAnywhere(lines: seq<string>, n: nat) returns (i: nat, k: nat)
    requires n <= |Terminated(lines, '\n')|
    ensures i <= |lines| && if i < |lines| then k <= |lines[i]| else k == 0
    ensures Terminated(lines, '\n')[..n] == Terminated(lines[..i], '\n') + if i < |lines| then lines[i][..k] else ""
  {
    if lines == [] || n <= |lines[0]| {
      i, k := 0, if lines == [] then 0 else n;
      if lines != [] { assert (lines[0] + ['\n'] + Terminated(lines[1..], '\n'))[..n] == lines[0][..n]; }
    } else {
      var line := lines[0] + ['\n'];
      i, k := CutAnywhere(lines[1..], n - |line|);
      i := i + 1;
      assert (line + Terminated(lines[1..], '\n'))[..n] == line + Terminated(lines[1..], '\n')[..n - |line|];
      assert lines[..i][1..] == lines[1..][..i - 1] && lines[..i][0] == lines[0];
      assert i < |lines| ==> lines[i] == lines[1..][i - 1];
    }
  }

  /** What is assumed of JSON here: a part of an event is not one, and neither is an
      event that follows another, or a part of one, on the same line. */
  ghost predicate NotRunTogether(codec: Codec) {
    forall a, b, k: nat | 0 < k <= |codec.encode(a)| :: TornFails(codec, a, b, k)
  }

  predicate TornFails(codec: Codec, a: Event, b: Event, k: nat)
    requires k <= |codec.encode(a)|
  {
    && DecodedLine(codec, codec.encode(a)[..k] + codec.encode(b)) == None
    && (k < |codec.encode(a)| ==> DecodedLine(codec, codec.encode(a)[..k]) == None)
  }

  lemma OneLineDecoded(codec: Codec, piece: string)
    ensures Decoded(codec, [piece]) == var event := DecodedLine(codec, piece); if event.Some? then [event.value] else []
  {
    assert [piece][..0] == [];
  }

  lemma {:induction false} EncodedAt(codec: Codec, events: seq<Event>, i: nat)
    requires i <= |events|
    ensures Encoded(codec, events)[..i] == Encoded(codec, events[..i])
    ensures i < |events| ==> Encoded(codec, events)[i] == codec.encode(events[i])
    decreases |events|
  {
    if i < |events| {
      var last := |events| - 1;
      if i < last { EncodedAt(codec, events[..last], i); }
      assert i < last ==> events[..last][..i] == events[..i] && events[..last][i] == events[i];
      assert Encoded(codec, events)[..i] == Encoded(codec, events[..last])[..i];
    } else {
      assert events[..i] == events;
    }
  }

  lemma WholeLines(codec: Codec, events: seq<Event>, i: nat)
    requires Lawful(codec) && i <= |events|
    ensures Decoded(codec, Encoded(codec, events[..i])) == events[..i]
    ensures forall part | part in Encoded(codec, events[..i]) :: '\n' !in part
  {
    EncodedIsWritten(codec, events[..i]);
    DecodedLines(codec, events[..i], Encoded(codec, events[..i]));
  }

  lemma TailDecoded(codec: Codec, events: seq<Event>, i: nat, tail: string)
    requires Lawful(codec) && i <= |events| && '\n' !in tail
    ensures Decoded(codec, Pieces(Terminated(Encoded(codec, events[..i]), '\n') + tail, '\n'))
            == events[..i] + if tail == "" || DecodedLine(codec, tail) == None then [] else [DecodedLine(codec, tail).value]
  {
    var lines := Encoded(codec, events[..i]);
    WholeLines(codec, events, i);
    PiecesAndTail(lines, tail);
    if tail != "" {
      DecodedInTwo(codec, lines, [tail]);
      OneLineDecoded(codec, tail);
    } else {
      assert lines + [] == lines;
    }
  }

  lemma EventIsALine(codec: Codec, event: Event)
    requires Lawful(codec)
    ensures DecodedLine(codec, codec.encode(event)) == Some(event)
    ensures codec.encode(event) != "" && '\n' !in codec.encode(event)
  {
    assert LawfulOn(codec, event);
    TrimKeeps(codec.encode(event), IsSpace);
  }

  /** What a restart reads after the power went at any byte of what was being
      written: every whole line, and the last one even if only its ending is
      missing. */
  lemma ReloadAfterCut(codec: Codec, events: seq<Event>, n: nat) returns (i: nat, k: nat)
    requires Lawful(codec) && NotRunTogether(codec) && n <= |Terminated(Encoded(codec, events), '\n')|
    ensures i <= |events| && if i < |events| then k <= |codec.encode(events[i])| else k == 0
    ensures var cut := Terminated(Encoded(codec, events), '\n')[..n];
            && cut == Terminated(Encoded(codec, events[..i]), '\n') + (if i < |events| then codec.encode(events[i])[..k] else "")
            && Decoded(codec, Pieces(cut, '\n'))
               == events[..i] + if i < |events| && k == |codec.encode(events[i])| then [events[i]] else []
  {
    i, k := CutAnywhere(Encoded(codec, events), n);
    EncodedAt(codec, events, i);
    if i < |events| {
      var line := codec.encode(events[i]);
      EventIsALine(codec, events[i]);
      TailDecoded(codec, events, i, line[..k]);
      if 0 < k { assert TornFails(codec, events[i], events[i], k); }
      if k == |line| { assert line[..k] == line; }
    } else {
      TailDecoded(codec, events, i, "");
    }
  }

  lemma EndedLineDecoded(codec: Codec, lines: seq<string>, line: string)
    requires '\n' !in line && forall part | part in lines :: '\n' !in part
    ensures Decoded(codec, Pieces(Terminated(lines, '\n') + line + ['\n'], '\n'))
            == Decoded(codec, lines) + if DecodedLine(codec, line) == None then [] else [DecodedLine(codec, line).value]
  {
    OneLineTerminated(lines, line);
    PiecesTerminated(lines + [line], '\n');
    DecodedInTwo(codec, lines, [line]);
    OneLineDecoded(codec, line);
  }

  /** And after the next event was written to the same file: that event is lost
      with the torn line, even one that was only missing its ending, unless the cut
      fell between two lines. */
  lemma ReloadAfterNext(codec: Codec, events: seq<Event>, i: nat, k: nat, next: Event)
    requires Lawful(codec) && NotRunTogether(codec) && i < |events| && k <= |codec.encode(events[i])|
    ensures var torn := Terminated(Encoded(codec, events[..i]), '\n') + codec.encode(events[i])[..k];
            Decoded(codec, Pieces(torn + codec.encode(next) + ['\n'], '\n')) == events[..i] + if k == 0 then [next] else []
  {
    var lines, line := Encoded(codec, events[..i]), codec.encode(events[i])[..k] + codec.encode(next);
    WholeLines(codec, events, i);
    EventIsALine(codec, events[i]);
    EventIsALine(codec, next);
    assert Terminated(lines, '\n') + codec.encode(events[i])[..k] + codec.encode(next) + ['\n']
           == Terminated(lines, '\n') + line + ['\n'];
    EndedLineDecoded(codec, lines, line);
    if k > 0 {
      assert TornFails(codec, events[i], next, k);
      assert events[..i] + [] == events[..i];
    } else {
      assert line == codec.encode(next);
    }
  }

  // The ring in memory, and the books of what reaches the disk.

  /** The ring's index arithmetic. */
  function Wrap(i: nat): (w: nat)
    requires i < 2 * JOURNAL_DEPTH
    ensures w < JOURNAL_DEPTH && w == i % JOURNAL_DEPTH
  {
    if i < JOURNAL_DEPTH then i else i - JOURNAL_DEPTH
  }

  predicate IsRing(buffer: seq<Event>, first: nat, count: nat) {
    |buffer| == JOURNAL_DEPTH && first < JOURNAL_DEPTH && count <= JOURNAL_DEPTH
  }

  /** The ring's entries, oldest first. */
  function Unrolled(buffer: seq<Event>, first: nat, count: nat): (events: seq<Event>)
    requires IsRing(buffer, first, count)
    ensures |events| == count
  {
    if first + count <= JOURNAL_DEPTH then buffer[first..first + count]
    else buffer[first..] + buffer[..first + count - JOURNAL_DEPTH]
  }

  lemma UnrolledAt(buffer: seq<Event>, first: nat, count: nat, k: nat)
    requires IsRing(buffer, first, count) && k < count
    ensures Unrolled(buffer, first, count)[k] == buffer[Wrap(first + k)]
  {}

  lemma OneMoreAtTheEnd<T>(more: seq<T>, s: seq<T>, last: T)
    requires |more| == |s| + 1 && more[|s|] == last && forall k | 0 <= k < |s| :: more[k] == s[k]
    ensures more == s + [last]
  {}

  lemma PushedWithRoom(buffer: seq<Event>, first: nat, count: nat, event: Event)
    requires IsRing(buffer, first, count) && count < JOURNAL_DEPTH
    ensures Unrolled(buffer[Wrap(first + count) := event], first, count + 1) == Unrolled(buffer, first, count) + [event]
  {
    var pushed := buffer[Wrap(first + count) := event];
    var before, after := Unrolled(buffer, first, count), Unrolled(pushed, first, count + 1);
    forall k: nat | k < count
      ensures after[k] == before[k]
    {
      UnrolledAt(buffer, first, count, k);
      UnrolledAt(pushed, first, count + 1, k);
    }
    UnrolledAt(pushed, first, count + 1, count);
    OneMoreAtTheEnd(after, before, event);
  }

  lemma PushedOver(buffer: seq<Event>, first: nat, event: Event)
    requires IsRing(buffer, first, JOURNAL_DEPTH)
    ensures Unrolled(buffer[first := event], Wrap(first + 1), JOURNAL_DEPTH)
            == Unrolled(buffer, first, JOURNAL_DEPTH)[1..] + [event]
  {
    var pushed := buffer[first := event];
    var before, after := Unrolled(buffer, first, JOURNAL_DEPTH), Unrolled(pushed, Wrap(first + 1), JOURNAL_DEPTH);
    forall k: nat | k < JOURNAL_DEPTH - 1
      ensures after[k] == before[k + 1]
    {
      UnrolledAt(buffer, first, JOURNAL_DEPTH, k + 1);
      UnrolledAt(pushed, Wrap(first + 1), JOURNAL_DEPTH, k);
    }
    UnrolledAt(pushed, Wrap(first + 1), JOURNAL_DEPTH, JOURNAL_DEPTH - 1);
    OneMoreAtTheEnd(after, before[1..], event);
  }

  lemma PushedIsNewest(buffer: seq<Event>, first: nat, count: nat, event: Event)
    requires IsRing(buffer, first, count)
    ensures var pushed := buffer[Wrap(first + count) := event];
            var next, size := if count < JOURNAL_DEPTH then first else Wrap(first + 1),
                              if count < JOURNAL_DEPTH then count + 1 else count;
            && IsRing(pushed, next, size)
            && Unrolled(pushed, next, size) == LastFew(Unrolled(buffer, first, count) + [event], JOURNAL_DEPTH)
  {
    if count < JOURNAL_DEPTH {
      PushedWithRoom(buffer, first, count, event);
    } else {
      PushedOver(buffer, first, event);
    }
  }

  lemma IsTheEnd<T>(all: seq<T>, end: seq<T>)
    requires |end| <= |all| && forall k | 0 <= k < |end| :: end[k] == all[|all| - |end| + k]
    ensures end == LastFew(all, |end|)
  {}

  lemma RingEnds(buffer: seq<Event>, first: nat, count: nat, all: seq<Event>, end: seq<Event>)
    requires IsRing(buffer, first, count) && |all| == count && |end| <= count
    requires forall k | 0 <= k < count :: all[k] == buffer[Wrap(first + k)]
    requires forall k | 0 <= k < |end| :: end[k] == buffer[Wrap(first + (count - |end| + k))]
    ensures end == LastFew(all, |end|)
  {
    forall k | 0 <= k < |end|
      ensures end[k] == all[|all| - |end| + k]
    {
      var at := count - |end| + k;
      assert all[at] == buffer[Wrap(first + at)];
    }
    IsTheEnd(all, end);
  }

  lemma EndOfTheRing(buffer: seq<Event>, first: nat, count: nat, end: seq<Event>)
    requires IsRing(buffer, first, count) && |end| <= count
    requires forall k | 0 <= k < |end| :: end[k] == buffer[Wrap(first + (count - |end| + k))]
    ensures end == LastFew(Unrolled(buffer, first, count), |end|)
  {
    var all := Unrolled(buffer, first, count);
    forall k: nat | k < count
      ensures all[k] == buffer[Wrap(first + k)]
    {
      UnrolledAt(buffer, first, count, k);
    }
    RingEnds(buffer, first, count, all, end);
  }

  class Journal {
    const ring: array<Event>
    var first: nat
    var count: nat
    var queue: seq<Event>
    var dropped: nat

    predicate Valid() reads this, ring { IsRing(ring[..], first, count) }

    function Contents(): seq<Event>
      requires Valid()
      reads this, ring
    {
      Unrolled(ring[..], first, count)
    }

    constructor (blank: Event)
      ensures Valid() && fresh(ring) && Contents() == [] && queue == [] && dropped == 0
    {
      ring := new Event[JOURNAL_DEPTH](i => blank);
      first, count, queue, dropped := 0, 0, [], 0;
    }

    method Put(index: nat, event: Event)
      requires index < ring.Length
      modifies ring
      ensures ring[..] == old(ring[..])[index := event]
    {
      ring[index] := event;
    }

    method Push(event: Event)
      requires Valid()
      modifies this`first, this`count, ring
      ensures Valid() && Contents() == LastFew(old(Contents()) + [event], JOURNAL_DEPTH)
    {
      PushedIsNewest(ring[..], first, count, event);
      Put(Wrap(first + count), event);
      if count < JOURNAL_DEPTH {
        count := count + 1;
      } else {
        first := Wrap(first + 1);
      }
    }

    method Add(event: Event)
      requires Valid()
      modifies this, ring
      ensures Valid() && Contents() == LastFew(old(Contents()) + [event], JOURNAL_DEPTH)
      ensures (queue, dropped) == Queued(old(queue), old(dropped), event)
    {
      Push(event);
      if !WorthKeeping(event.kind) {
        return;
      }
      if |queue| < JOURNAL_QUEUE {
        queue := queue + [event];
      } else {
        dropped := dropped + 1;
      }
    }

    method Recent(limit: int) returns (events: seq<Event>)
      requires Valid()
      ensures events == LastFew(Contents(), if 0 < limit <= count then limit else count)
    {
      var wanted := if limit <= 0 || limit > count then count else limit;
      events := [];
      for i := count - wanted to count
        invariant |events| == i - (count - wanted)
        invariant forall k | 0 <= k < |events| :: events[k] == ring[Wrap(first + (count - wanted + k))]
      {
        events := events + [ring[Wrap(first + i)]];
      }
      EndOfTheRing(ring[..], first, count, events);
    }
  }

  function Queued(queue: seq<Event>, dropped: nat, event: Event): (seq<Event>, nat) {
    if !WorthKeeping(event.kind) then (queue, dropped)
    else if |queue| < JOURNAL_QUEUE then (queue + [event], dropped)
    else (queue, dropped + 1)
  }

  // Adding on one side, and a writer that takes some of what has piled up and
  // writes it collapsed on the other, in any order.

  datatype Op = Happened(event: Event) | WriterRan(taken: nat)

  datatype Books = Books(queue: seq<Event>, dropped: nat, written: seq<Event>)

  function Next(b: Books, op: Op): Books {
    match op
    case Happened(event) =>
      var (queue, dropped) := Queued(b.queue, b.dropped, event);
      Books(queue, dropped, b.written)
    case WriterRan(taken) =>
      var n := if taken <= |b.queue| then taken else |b.queue|;
      Books(b.queue[n..], b.dropped, b.written + Collapsed(b.queue[..n]))
  }

  function Run(ops: seq<Op>): Books {
    if ops == [] then Books([], 0, []) else Next(Run(ops[..|ops| - 1]), ops[|ops| - 1])
  }

  function WorthKeepingIn(ops: seq<Op>): nat {
    if ops == [] then 0
    else WorthKeepingIn(ops[..|ops| - 1])
         + match ops[|ops| - 1]
           case Happened(event) => if WorthKeeping(event.kind) then 1 else 0
           case WriterRan(_) => 0
  }

  lemma {:induction false} TotalJoins(a: seq<Event>, b: seq<Event>)
    ensures Total(a + b) == Total(a) + Total(b)
  {
    if b == [] {
      assert a + b == a;
    } else {
      LastApart(a, b);
      TotalJoins(a, b[..|b| - 1]);
    }
  }

  /** Nothing worth keeping is lost without being counted: every such event is
      on the disk, waiting, or in the count of what the disk was too slow for. */
  lemma {:induction false} EveryEventIsAccountedFor(ops: seq<Op>)
    requires forall k | 0 <= k < |ops| :: ops[k].Happened? ==> ops[k].event.repeats == 0
    ensures var b := Run(ops);
            && Fresh(b.queue) && |b.queue| <= JOURNAL_QUEUE
            && Total(b.written) + |b.queue| + b.dropped == WorthKeepingIn(ops)
  {
    if ops != [] {
      EveryEventIsAccountedFor(ops[..|ops| - 1]);
      var b := Run(ops[..|ops| - 1]);
      if ops[|ops| - 1].WriterRan? {
        var taken := ops[|ops| - 1].taken;
        var n := if taken <= |b.queue| then taken else |b.queue|;
        CollapsingKeepsTheStory(b.queue[..n]);
        TotalJoins(b.written, Collapsed(b.queue[..n]));
      }
    }
  }
}
