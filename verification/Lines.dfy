/** Cutting a byte stream into lines at every carriage return and line feed. */
module Lines {
  import opened Text

  predicate IsEnd(c: char) { c == '\n' || c == '\r' }

  ghost predicate Endless(s: string) { forall i | 0 <= i < |s| :: !IsEnd(s[i]) }

  /** The lines that have been ended, oldest first, without their endings. */
  function Completed(stream: string): seq<string> {
    if stream == [] then []
    else
      var before := stream[..|stream| - 1];
      if IsEnd(stream[|stream| - 1]) then Completed(before) + [Unfinished(before)] else Completed(before)
  }

  /** What has arrived since the last ending. */
  function Unfinished(stream: string): string {
    if stream == [] || IsEnd(stream[|stream| - 1]) then []
    else Unfinished(stream[..|stream| - 1]) + [stream[|stream| - 1]]
  }

  lemma {:induction false} UnfinishedIsEndless(stream: string)
    ensures Endless(Unfinished(stream))
  {
    if stream != [] { UnfinishedIsEndless(stream[..|stream| - 1]); }
  }

  lemma OneMore(stream: string, c: char)
    ensures Completed(stream + [c]) == if IsEnd(c) then Completed(stream) + [Unfinished(stream)] else Completed(stream)
    ensures Unfinished(stream + [c]) == if IsEnd(c) then [] else Unfinished(stream) + [c]
  {
    assert (stream + [c])[..|stream|] == stream;
  }

  lemma Regrouped<T>(a: seq<T>, b: seq<T>, c: seq<T>)
    ensures a + b + c == a + (b + c)
  {}

  lemma AcrossOneMore(a: string, before: string, c: char)
    requires Completed(a + before) == Completed(a) + Completed(Unfinished(a) + before)
    requires Unfinished(a + before) == Unfinished(Unfinished(a) + before)
    ensures Completed(a + before + [c]) == Completed(a) + Completed(Unfinished(a) + before + [c])
    ensures Unfinished(a + before + [c]) == Unfinished(Unfinished(a) + before + [c])
  {
    var joined := Unfinished(a) + before;
    OneMore(a + before, c);
    OneMore(joined, c);
    Regrouped(Completed(a), Completed(joined), [Unfinished(joined)]);
  }

  /** Where a stream is cut into chunks makes no difference to its lines. */
  lemma {:induction false} AcrossChunks(a: string, b: string)
    ensures Completed(a + b) == Completed(a) + Completed(Unfinished(a) + b)
    ensures Unfinished(a + b) == Unfinished(Unfinished(a) + b)
  {
    if b == [] {
      assert a + b == a && Unfinished(a) + b == Unfinished(a);
      UnfinishedIsEndless(a);
      EndlessHasNoLines(Unfinished(a));
    } else {
      var before, c := b[..|b| - 1], b[|b| - 1];
      LastApart(a, b);
      LastApart(Unfinished(a), b);
      AcrossChunks(a, before);
      AcrossOneMore(a, before, c);
    }
  }

  lemma {:induction false} EndlessHasNoLines(s: string)
    requires Endless(s)
    ensures Completed(s) == [] && Unfinished(s) == s
  {
    if s != [] { EndlessHasNoLines(s[..|s| - 1]); }
  }

  lemma LineFirst(part: string, end: char, after: string)
    requires IsEnd(end) && Endless(part)
    ensures Completed(part + [end] + after) == [part] + Completed(after)
    ensures Unfinished(part + [end] + after) == Unfinished(after)
  {
    EndlessHasNoLines(part);
    OneMore(part, end);
    AcrossChunks(part + [end], after);
    assert [] + after == after;
  }

  /** Lines written with an ending each, and a beginning of another, come back
      as they were: this is splitting and nothing else. */
  lemma {:induction false} CompletedIsSplitting(parts: seq<string>, rest: string, end: char)
    requires IsEnd(end) && Endless(rest) && forall part | part in parts :: Endless(part)
    ensures Completed(Terminated(parts, end) + rest) == parts
    ensures Unfinished(Terminated(parts, end) + rest) == rest
  {
    if parts == [] {
      assert Terminated(parts, end) + rest == rest;
      EndlessHasNoLines(rest);
    } else {
      var after := Terminated(parts[1..], end) + rest;
      assert Terminated(parts, end) + rest == parts[0] + [end] + after;
      LineFirst(parts[0], end, after);
      CompletedIsSplitting(parts[1..], rest, end);
    }
  }
}
