/** Which line a reply of the controller answers. */
module LineTail {
  import opened Text
  import opened Lines

  const CONTEXT_LINES := 4
  const MAX_PENDING := 4096
  const MAX_CONTEXT_LINE := 256

  predicate IsRealTime(c: char) { c == '!' || c == '?' || c as int == 0x18 || c == '~' }

  /** A piece of the stream without the bytes that jump the queue. */
  function Kept(piece: string): string {
    if piece == [] then []
    else
      var before := Kept(piece[..|piece| - 1]);
      if IsRealTime(piece[|piece| - 1]) then before else before + [piece[|piece| - 1]]
  }

  function Head(s: string): string { if |s| <= MAX_CONTEXT_LINE then s else s[..MAX_CONTEXT_LINE] }

  function LineOf(piece: string): string { TrimSpace(Head(Kept(piece))) }

  /** The lines a client sent, given how its stream splits. */
  function Entries(pieces: seq<string>): seq<string> {
    if pieces == [] then []
    else
      var before := Entries(pieces[..|pieces| - 1]);
      var text := LineOf(pieces[|pieces| - 1]);
      if text == "" then before else before + [text]
  }

  lemma {:induction false} EntriesAreNotBlank(pieces: seq<string>)
    ensures "" !in Entries(pieces)
  {
    if pieces != [] { EntriesAreNotBlank(pieces[..|pieces| - 1]); }
  }

  // The accounting, seen from outside: lines go out, replies come in.

  datatype Event = Line(text: string) | Reply

  function LinesIn(events: seq<Event>): seq<string> {
    if events == [] then []
    else
      var before := LinesIn(events[..|events| - 1]);
      match events[|events| - 1]
      case Line(text) => before + [text]
      case Reply => before
  }

  function Replies(events: seq<Event>): nat {
    if events == [] then 0
    else Replies(events[..|events| - 1]) + if events[|events| - 1].Reply? then 1 else 0
  }

  /** Neither has a reply come for a line that was not sent, nor have more lines
      been outstanding than the queue holds, now or at any point before. */
  ghost predicate InSync(events: seq<Event>) {
    && Replies(events) <= |LinesIn(events)| <= Replies(events) + MAX_PENDING
    && (events != [] ==> InSync(events[..|events| - 1]))
  }

  /** The answer the next reply should get: the oldest line not answered for, if
      nothing has gone wrong since the accounting started. */
  ghost function Claim(events: seq<Event>): (line: string)
    ensures line != "" ==> Replies(events) < |LinesIn(events)| && line == LinesIn(events)[Replies(events)]
  {
    if InSync(events) && Replies(events) < |LinesIn(events)| then LinesIn(events)[Replies(events)] else ""
  }

  // The program's own state and what each operation does to it.

  datatype Tail = Tail(lines: seq<string>, pending: seq<string>, desynced: bool, partial: string)

  const EMPTY := Tail([], [], false, "")

  function Enqueued(t: Tail, text: string): Tail {
    var pending := t.pending + [text];
    t.(lines := LastFew(t.lines + [text], CONTEXT_LINES),
       pending := LastFew(pending, MAX_PENDING),
       desynced := t.desynced || |pending| > MAX_PENDING)
  }

  function ByteWritten(t: Tail, c: char): Tail {
    if IsEnd(c) then
      var text := TrimSpace(t.partial);
      (if text == "" then t else Enqueued(t, text)).(partial := "")
    else if IsRealTime(c) || |t.partial| >= MAX_CONTEXT_LINE then t
    else t.(partial := t.partial + [c])
  }

  function Written(t: Tail, data: string): Tail {
    if data == "" then t else ByteWritten(Written(t, data[..|data| - 1]), data[|data| - 1])
  }

  lemma WrittenMore(t: Tail, data: string, i: nat)
    requires i < |data|
    ensures Written(t, data[..i + 1]) == ByteWritten(Written(t, data[..i]), data[i])
  {
    assert data[..i + 1][..i] == data[..i];
  }

  function Acknowledged(t: Tail): (Tail, string) {
    if t.pending == [] then (t.(desynced := true), "")
    else (t.(pending := t.pending[1..]), if t.desynced then "" else t.pending[0])
  }

  function Forgotten(t: Tail): Tail {
    t.(pending := [], desynced := false, partial := "")
  }

  class LineTail {
    var lines: seq<string>
    var pending: seq<string>
    var desynced: bool
    var partial: string

    function State(): Tail reads this { Tail(lines, pending, desynced, partial) }

    // Neither queue is ever longer than it may be.
    predicate Valid() reads this { |lines| <= CONTEXT_LINES && |pending| <= MAX_PENDING }

    constructor ()
      ensures Valid() && State() == EMPTY
    {
      lines, pending, desynced, partial := [], [], false, "";
    }

    method Acknowledge() returns (line: string)
      requires Valid()
      modifies this`pending, this`desynced
      ensures Valid() && (State(), line) == Acknowledged(old(State()))
    {
      if pending == [] {
        desynced := true;
        return "";
      }
      line := pending[0];
      pending := pending[1..];
      if desynced {
        line := "";
      }
    }

    method Forget()
      requires Valid()
      modifies this`pending, this`desynced, this`partial
      ensures Valid() && State() == Forgotten(old(State()))
    {
      pending := [];
      desynced := false;
      partial := "";
    }

    method Enqueue(text: string)
      requires Valid()
      modifies this`lines, this`pending, this`desynced
      ensures Valid() && State() == Enqueued(old(State()), text)
    {
      lines := lines + [text];
      if |lines| > CONTEXT_LINES {
        lines := lines[1..];
      }
      pending := pending + [text];
      if |pending| > MAX_PENDING {
        pending := pending[1..];
        desynced := true;
      }
    }

    method Write(data: string)
      requires Valid()
      modifies this
      ensures Valid() && State() == Written(old(State()), data)
    {
      for i := 0 to |data|
        invariant Valid() && State() == Written(old(State()), data[..i])
      {
        WrittenMore(old(State()), data, i);
        var c := data[i];
        if IsEnd(c) {
          var text := TrimSpace(partial);
          if text != "" {
            Enqueue(text);
          }
          partial := "";
        } else if !IsRealTime(c) {
          if |partial| < MAX_CONTEXT_LINE {
            partial := partial + [c];
          }
        }
      }
      assert data[..|data|] == data;
    }

    method Lines() returns (context: seq<string>)
      ensures context == lines
    {
      context := lines;
    }
  }

  /** The queue and its flag are what the events make of them. */
  ghost predicate Accounts(events: seq<Event>, t: Tail) {
    && |t.pending| <= MAX_PENDING
    && (t.desynced <==> !InSync(events))
    && (!t.desynced ==> Replies(events) <= |LinesIn(events)| && t.pending == LinesIn(events)[Replies(events)..])
  }

  lemma FreshAccounts(t: Tail)
    ensures Accounts([], Forgotten(t))
  {
  }

  lemma AccountsLine(events: seq<Event>, t: Tail, text: string)
    requires Accounts(events, t)
    ensures Accounts(events + [Line(text)], Enqueued(t, text))
  {
    assert (events + [Line(text)])[..|events|] == events;
  }

  lemma AccountsReply(events: seq<Event>, t: Tail)
    requires Accounts(events, t)
    ensures Accounts(events + [Reply], Acknowledged(t).0)
    ensures Acknowledged(t).1 == Claim(events)
  {
    assert (events + [Reply])[..|events|] == events;
  }

  function AsLines(texts: seq<string>): (events: seq<Event>) {
    if texts == [] then [] else AsLines(texts[..|texts| - 1]) + [Line(texts[|texts| - 1])]
  }

  lemma KeptOneMore(piece: string, c: char)
    ensures Kept(piece + [c]) == if IsRealTime(c) then Kept(piece) else Kept(piece) + [c]
  {
    assert (piece + [c])[..|piece|] == piece;
  }

  lemma HeadOneMore(s: string, c: char)
    ensures Head(s + [c]) == if |Head(s)| >= MAX_CONTEXT_LINE then Head(s) else Head(s) + [c]
  {}

  lemma ByteAccounts(events: seq<Event>, t: Tail, piece: string, c: char)
    requires Accounts(events, t) && t.partial == Head(Kept(piece))
    ensures Accounts(if IsEnd(c) && LineOf(piece) != "" then events + [Line(LineOf(piece))] else events, ByteWritten(t, c))
    ensures ByteWritten(t, c).partial == Head(Kept(if IsEnd(c) then [] else piece + [c]))
  {
    if IsEnd(c) {
      AccountsLine(events, t, LineOf(piece));
    } else {
      KeptOneMore(piece, c);
      HeadOneMore(Kept(piece), c);
    }
  }

  lemma OneMoreEntry(events: seq<Event>, pieces: seq<string>, piece: string)
    ensures var text := LineOf(piece);
            events + AsLines(Entries(pieces + [piece]))
            == events + AsLines(Entries(pieces)) + if text == "" then [] else [Line(text)]
  {
    assert (pieces + [piece])[..|pieces|] == pieces;
    var texts, text := Entries(pieces), LineOf(piece);
    if text != "" {
      assert (texts + [text])[..|texts|] == texts;
    }
  }

  lemma StreamByteAccounts(events: seq<Event>, t: Tail, stream: string, c: char)
    requires Accounts(events + AsLines(Entries(Completed(stream))), t)
    requires t.partial == Head(Kept(Unfinished(stream)))
    ensures Accounts(events + AsLines(Entries(Completed(stream + [c]))), ByteWritten(t, c))
    ensures ByteWritten(t, c).partial == Head(Kept(Unfinished(stream + [c])))
  {
    OneMore(stream, c);
    var before := events + AsLines(Entries(Completed(stream)));
    OneMoreEntry(events, Completed(stream), Unfinished(stream));
    ByteAccounts(before, t, Unfinished(stream), c);
  }

  /** A chunk adds the lines that splitting the unfinished line and the chunk
      together ends, whatever else is in it. */
  lemma {:induction false} ChunkAccounts(events: seq<Event>, t: Tail, rest: string, data: string)
    requires Accounts(events, t)
    requires Endless(rest) && t.partial == Head(Kept(rest))
    ensures Accounts(events + AsLines(Entries(Completed(rest + data))), Written(t, data))
    ensures Written(t, data).partial == Head(Kept(Unfinished(rest + data)))
  {
    if data == "" {
      EndlessHasNoLines(rest);
      assert rest + data == rest;
      assert events + AsLines([]) == events;
    } else {
      var before, c := data[..|data| - 1], data[|data| - 1];
      ChunkAccounts(events, t, rest, before);
      LastApart(rest, data);
      StreamByteAccounts(events, Written(t, before), rest + before, c);
    }
  }

  // Any interleaving of chunks and replies since the accounting started.

  datatype Op = Chunk(data: string) | Answer

  function Run(t: Tail, ops: seq<Op>): Tail {
    if ops == [] then t
    else
      var before := Run(t, ops[..|ops| - 1]);
      match ops[|ops| - 1]
      case Chunk(data) => Written(before, data)
      case Answer => Acknowledged(before).0
  }

  function Stream(ops: seq<Op>): string {
    if ops == [] then ""
    else Stream(ops[..|ops| - 1]) + match ops[|ops| - 1] case Chunk(data) => data case Answer => ""
  }

  /** The lines and replies of a history in the order they happened, with each
      line at the chunk that ended it. */
  function Events(ops: seq<Op>): seq<Event> {
    if ops == [] then []
    else
      var before := ops[..|ops| - 1];
      Events(before) + match ops[|ops| - 1]
                       case Chunk(data) => AsLines(Entries(Completed(Unfinished(Stream(before)) + data)))
                       case Answer => [Reply]
  }

  lemma {:induction false} EntriesJoin(a: seq<string>, b: seq<string>)
    ensures Entries(a + b) == Entries(a) + Entries(b)
  {
    if b == [] {
      assert a + b == a;
    } else {
      LastApart(a, b);
      EntriesJoin(a, b[..|b| - 1]);
    }
  }

  lemma AppendedApart<T>(a: seq<T>, b: seq<T>, last: T)
    ensures a + (b + [last]) == a + b + [last]
  {}

  lemma OneMoreEvent(events: seq<Event>, text: string)
    ensures LinesIn(events + [Line(text)]) == LinesIn(events) + [text]
    ensures Replies(events + [Line(text)]) == Replies(events)
  {
    assert (events + [Line(text)])[..|events|] == events;
  }

  lemma {:induction false} AsLinesCount(events: seq<Event>, texts: seq<string>)
    ensures LinesIn(events + AsLines(texts)) == LinesIn(events) + texts
    ensures Replies(events + AsLines(texts)) == Replies(events)
  {
    if texts == [] {
      assert events + AsLines(texts) == events;
    } else {
      var before, last := texts[..|texts| - 1], texts[|texts| - 1];
      assert texts == before + [last];
      AsLinesCount(events, before);
      OneMoreEvent(events + AsLines(before), last);
      AppendedApart(events, AsLines(before), Line(last));
      AppendedApart(LinesIn(events), before, last);
    }
  }

  /** The lines of a history are the lines of its bytes. */
  lemma {:induction false} EventsAreTheStreamsLines(ops: seq<Op>)
    ensures LinesIn(Events(ops)) == Entries(Completed(Stream(ops)))
  {
    if ops != [] {
      var before := ops[..|ops| - 1];
      EventsAreTheStreamsLines(before);
      match ops[|ops| - 1]
      case Chunk(data) =>
        AcrossChunks(Stream(before), data);
        EntriesJoin(Completed(Stream(before)), Completed(Unfinished(Stream(before)) + data));
        AsLinesCount(Events(before), Entries(Completed(Unfinished(Stream(before)) + data)));
      case Answer =>
        assert Events(ops)[..|Events(before)|] == Events(before);
        assert Stream(ops) == Stream(before);
    }
  }

  lemma {:induction false} RunAccounts(t: Tail, ops: seq<Op>)
    ensures Accounts(Events(ops), Run(Forgotten(t), ops))
    ensures Run(Forgotten(t), ops).partial == Head(Kept(Unfinished(Stream(ops))))
  {
    if ops == [] {
      FreshAccounts(t);
    } else {
      var before := ops[..|ops| - 1];
      RunAccounts(t, before);
      var state := Run(Forgotten(t), before);
      match ops[|ops| - 1]
      case Chunk(data) =>
        UnfinishedIsEndless(Stream(before));
        ChunkAccounts(Events(before), state, Unfinished(Stream(before)), data);
        AcrossChunks(Stream(before), data);
      case Answer =>
        AccountsReply(Events(before), state);
        assert Stream(ops) == Stream(before);
    }
  }

  /** Attribution is exact: after any history since the accounting started, the
      next reply is told its own line - the one with its number among the
      non-blank lines sent - if the books were in balance throughout and that
      line has been sent, and is told nothing otherwise. */
  lemma AttributionIsExact(t: Tail, ops: seq<Op>)
    ensures var told := Acknowledged(Run(Forgotten(t), ops)).1;
            var sent := Entries(Completed(Stream(ops)));
            var k := Replies(Events(ops));
            && (InSync(Events(ops)) && k < |sent| ==> told == sent[k] && told != "")
            && (!InSync(Events(ops)) || k >= |sent| ==> told == "")
  {
    RunAccounts(t, ops);
    EventsAreTheStreamsLines(ops);
    AccountsReply(Events(ops), Run(Forgotten(t), ops));
    if InSync(Events(ops)) && Replies(Events(ops)) < |LinesIn(Events(ops))| {
      EntriesAreNotBlank(Completed(Stream(ops)));
      assert LinesIn(Events(ops))[Replies(Events(ops))] in Entries(Completed(Stream(ops)));
    }
  }

  // The context shown beside an error or an alarm.

  lemma LineContext(lines: seq<string>, pieces: seq<string>, piece: string)
    ensures var context := LastFew(lines + Entries(pieces), CONTEXT_LINES);
            LastFew(lines + Entries(pieces + [piece]), CONTEXT_LINES)
            == if LineOf(piece) == "" then context else LastFew(context + [LineOf(piece)], CONTEXT_LINES)
  {
    assert (pieces + [piece])[..|pieces|] == pieces;
    AppendedApart(lines, Entries(pieces), LineOf(piece));
    LastFewOfLastFew(lines + Entries(pieces), [LineOf(piece)], CONTEXT_LINES);
  }

  lemma ByteContext(t: Tail, lines: seq<string>, pieces: seq<string>, piece: string, c: char)
    requires t.lines == LastFew(lines + Entries(pieces), CONTEXT_LINES) && t.partial == Head(Kept(piece))
    ensures ByteWritten(t, c).lines == LastFew(lines + Entries(if IsEnd(c) then pieces + [piece] else pieces), CONTEXT_LINES)
    ensures ByteWritten(t, c).partial == Head(Kept(if IsEnd(c) then "" else piece + [c]))
  {
    if IsEnd(c) {
      LineContext(lines, pieces, piece);
    } else {
      KeptOneMore(piece, c);
      HeadOneMore(Kept(piece), c);
    }
  }

  lemma {:induction false} ChunkContext(t: Tail, lines: seq<string>, stream: string, data: string)
    requires t.lines == LastFew(lines + Entries(Completed(stream)), CONTEXT_LINES)
    requires t.partial == Head(Kept(Unfinished(stream)))
    ensures Written(t, data).lines == LastFew(lines + Entries(Completed(stream + data)), CONTEXT_LINES)
    ensures Written(t, data).partial == Head(Kept(Unfinished(stream + data)))
  {
    if data == "" {
      assert stream + data == stream;
    } else {
      ChunkContext(t, lines, stream, data[..|data| - 1]);
      LastApart(stream, data);
      var before, c := stream + data[..|data| - 1], data[|data| - 1];
      OneMore(before, c);
      ByteContext(Written(t, data[..|data| - 1]), lines, Completed(before), Unfinished(before), c);
    }
  }

  /** The context is the last four non-blank lines ever sent, whatever has been
      answered or forgotten. */
  lemma {:induction false} ContextIsTheLastFour(t: Tail, ops: seq<Op>)
    requires |t.lines| <= CONTEXT_LINES
    ensures var after := Run(Forgotten(t), ops);
            && after.lines == LastFew(t.lines + Entries(Completed(Stream(ops))), CONTEXT_LINES)
            && after.partial == Head(Kept(Unfinished(Stream(ops))))
  {
    if ops == [] {
      assert t.lines + [] == t.lines;
    } else {
      var before := ops[..|ops| - 1];
      ContextIsTheLastFour(t, before);
      match ops[|ops| - 1]
      case Chunk(data) => ChunkContext(Run(Forgotten(t), before), t.lines, Stream(before), data);
      case Answer => assert Stream(ops) == Stream(before);
    }
  }

  /** Once the books are off nothing is claimed, whatever follows, until they
      are started over. */
  lemma {:induction false} OffStaysOff(events: seq<Event>, more: seq<Event>)
    requires !InSync(events)
    ensures !InSync(events + more) && Claim(events + more) == ""
  {
    if more == [] {
      assert events + more == events;
    } else {
      var before := more[..|more| - 1];
      OffStaysOff(events, before);
      LastApart(events, more);
    }
  }

  /** A reply nobody earned, or one line too many outstanding, is what puts the
      books off; nothing else does. */
  lemma WhatPutsTheBooksOff(events: seq<Event>, e: Event)
    requires InSync(events)
    ensures !InSync(events + [e]) <==>
              if e.Reply? then Replies(events) == |LinesIn(events)|
              else |LinesIn(events)| == Replies(events) + MAX_PENDING
  {
    assert (events + [e])[..|events|] == events;
  }
}
