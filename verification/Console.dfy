/** The bounded transcript of the wire that the web interface polls. */
module Console {

  const RING := 400

  // The lease a reader holds on the recording, in nanoseconds.
  const LEASE := 15_000_000_000

  datatype Line = Line(number: nat, mark: char, text: string, unix: int)

  datatype View = View(lines: seq<Line>, next: nat, missed: nat, recording: bool)

  /** How many of the lines ever added the ring no longer holds. */
  function Evicted(history: seq<Line>): nat {
    if |history| > RING then |history| - RING else 0
  }

  /** The answer to a poll, given every line ever added. */
  function Answer(history: seq<Line>, after: nat, recording: bool): View {
    var from := if after > Evicted(history) then after else Evicted(history);
    View(if from <= |history| then history[from..] else [],
         |history|,
         if 0 < after < Evicted(history) then Evicted(history) - after else 0,
         recording)
  }

  /** Line k of a transcript carries the number k + 1. */
  ghost predicate Numbered(history: seq<Line>) {
    forall k | 0 <= k < |history| :: history[k].number == k + 1
  }

  /** The lines of a consecutively numbered run that come after a number. */
  method Newer(lines: seq<Line>, ghost before: nat, after: nat) returns (found: seq<Line>)
    requires forall k | 0 <= k < |lines| :: lines[k].number == before + k + 1
    ensures found == if after <= before then lines
                     else if after - before <= |lines| then lines[after - before..]
                     else []
  {
    found := [];
    ghost var skip: nat := if after <= before then 0
                           else if after - before <= |lines| then after - before else |lines|;
    for k := 0 to |lines|
      invariant found == if k <= skip then [] else lines[skip..k]
    {
      if lines[k].number > after {
        found := found + [lines[k]];
      }
    }
  }

  // When the transcript is kept at all.

  datatype Event = Polled(now: nat) | Stopped | Added

  /** The lease after these events. */
  function Until(events: seq<Event>): nat {
    if events == [] then 0
    else
      match events[|events| - 1]
      case Polled(now) => now + LEASE
      case Stopped => 0
      case Added => Until(events[..|events| - 1])
  }

  predicate IsLive(until: nat, now: nat) { until != 0 && now < until }

  /** Somebody has polled less than a lease ago, and nobody has polled or left
      since. */
  ghost predicate Watched(events: seq<Event>, now: nat) {
    exists i :: 0 <= i < |events| && events[i].Polled? && now < events[i].now + LEASE
                && forall j | i < j < |events| :: events[j].Added?
  }

  lemma AddingChangesNothing(before: seq<Event>, now: nat)
    ensures Watched(before + [Added], now) <==> Watched(before, now)
  {
    var events := before + [Added];
    if Watched(before, now) {
      var i :| 0 <= i < |before| && before[i].Polled? && now < before[i].now + LEASE
               && forall j | i < j < |before| :: before[j].Added?;
      assert events[i].Polled? && forall j | i < j < |events| :: events[j].Added?;
    }
    if Watched(events, now) {
      var i :| 0 <= i < |events| && events[i].Polled? && now < events[i].now + LEASE
               && forall j | i < j < |events| :: events[j].Added?;
      assert before[i] == events[i] && forall j | i < j < |before| :: before[j] == events[j];
    }
  }

  lemma TheLastDecides(events: seq<Event>, now: nat)
    requires events != [] && !events[|events| - 1].Added?
    ensures var last := events[|events| - 1];
            Watched(events, now) <==> last.Polled? && now < last.now + LEASE
  {}

  /** Lines are recorded while somebody watches, and only then. */
  lemma {:induction false} RecordedWhileWatched(events: seq<Event>, now: nat)
    ensures IsLive(Until(events), now) <==> Watched(events, now)
  {
    if events != [] {
      var before, last := events[..|events| - 1], events[|events| - 1];
      if last.Added? {
        RecordedWhileWatched(before, now);
        AddingChangesNothing(before, now);
        assert events == before + [Added];
      } else {
        TheLastDecides(events, now);
      }
    }
  }

  class Console {
    var lines: seq<Line>
    var first: nat
    var next: nat
    var until: nat
    ghost var history: seq<Line>
    ghost var events: seq<Event>

    ghost predicate Valid() reads this {
      && until == Until(events)
      && Numbered(history)
      && next == |history| + 1
      && first == Evicted(history) + 1
      && lines == history[Evicted(history)..]
    }

    constructor ()
      ensures Valid() && history == [] && events == []
    {
      lines, first, next, until := [], 1, 1, 0;
      history, events := [], [];
    }

    method Add(mark: char, text: string, unix: int)
      requires Valid()
      modifies this
      ensures Valid() && events == old(events) + [Added]
      ensures history == old(history) + [Line(old(next), mark, text, unix)]
    {
      if |lines| == RING {
        lines := lines[1..];
        first := first + 1;
      }
      lines := lines + [Line(next, mark, text, unix)];
      history := history + [Line(next, mark, text, unix)];
      next := next + 1;
      events := events + [Added];
    }

    method Recording(now: nat) returns (recording: bool)
      requires Valid()
      ensures recording <==> Watched(events, now)
    {
      RecordedWhileWatched(events, now);
      recording := until != 0 && now < until;
    }

    method Since(after: nat, now: nat) returns (view: View)
      requires Valid()
      modifies this`until, this`events
      ensures Valid() && events == old(events) + [Polled(now)]
      ensures view == Answer(history, after, Watched(old(events), now))
    {
      var recording := Recording(now);
      until := now + LEASE;
      events := events + [Polled(now)];
      var missed := if after > 0 && after + 1 < first then first - after - 1 else 0;
      var found := Newer(lines, Evicted(history), after);
      view := View(found, next - 1, missed, recording);
    }

    method Stop()
      requires Valid()
      modifies this`until, this`events
      ensures Valid() && events == old(events) + [Stopped]
    {
      until := 0;
      events := events + [Stopped];
    }
  }

  /** A reader that comes back: each poll sees a transcript that the one before
      had not outgrown. */
  ghost predicate Growing(polls: seq<seq<Line>>) {
    forall i, j | 0 <= i < j < |polls| :: polls[i] <= polls[j]
  }

  function Missed(after: nat, polls: seq<seq<Line>>): nat
    decreases |polls|
  {
    if polls == [] then 0
    else
      var view := Answer(polls[0], after, true);
      view.missed + Missed(view.next, polls[1..])
  }

  function Delivered(after: nat, polls: seq<seq<Line>>): seq<Line>
    decreases |polls|
  {
    if polls == [] then []
    else
      var view := Answer(polls[0], after, true);
      view.lines + Delivered(view.next, polls[1..])
  }

  /** One poll accounts for everything since a number exactly when the number
      has been given out, and is not the zero of a reader who never asked -
      unless nothing has been evicted yet. */
  lemma OnePollAccounts(history: seq<Line>, after: nat)
    ensures var view := Answer(history, after, true);
            view.missed + |view.lines| == |history| - after
            <==> after <= |history| && (after > 0 || |history| <= RING)
  {}

  lemma PollsOneByOne(after: nat, polls: seq<seq<Line>>)
    requires polls != []
    ensures var view, rest := Answer(polls[0], after, true), polls[1..];
            && Missed(after, polls) == view.missed + Missed(|polls[0]|, rest)
            && |Delivered(after, polls)| == |view.lines| + |Delivered(|polls[0]|, rest)|
  {}

  lemma RestGrows(polls: seq<seq<Line>>)
    requires Growing(polls) && |polls| > 1
    ensures Growing(polls[1..]) && |polls[0]| <= |polls[1]| && polls[1..][0] == polls[1]
    ensures polls[1..][|polls| - 2] == polls[|polls| - 1]
  {
    assert polls[0] <= polls[1];
  }

  /** Lines missed and lines handed over add up to the lines added, however
      many polls there were and however much the ring dropped between them. */
  lemma {:induction false} ChainedPollsAccount(after: nat, polls: seq<seq<Line>>)
    requires Growing(polls) && polls != []
    requires 0 < after <= |polls[0]|
    ensures Missed(after, polls) + |Delivered(after, polls)| == |polls[|polls| - 1]| - after
    decreases |polls|
  {
    OnePollAccounts(polls[0], after);
    PollsOneByOne(after, polls);
    if |polls| > 1 {
      RestGrows(polls);
      ChainedPollsAccount(|polls[0]|, polls[1..]);
    } else {
      assert polls[1..] == [];
    }
  }

  /** Lines of a transcript, in its order, numbered after one bound and not
      beyond another. */
  ghost predicate Excerpt(told: seq<Line>, after: nat, upTo: nat, all: seq<Line>) {
    && upTo <= |all|
    && (forall i | 0 <= i < |told| :: after < told[i].number <= upTo && told[i] == all[told[i].number - 1])
    && (forall i, j | 0 <= i < j < |told| :: told[i].number < told[j].number)
  }

  lemma ExcerptsJoin(a: seq<Line>, b: seq<Line>, after: nat, middle: nat, upTo: nat, all: seq<Line>)
    requires Excerpt(a, after, middle, all) && Excerpt(b, middle, upTo, all) && after <= middle <= upTo
    ensures Excerpt(a + b, after, upTo, all)
  {}

  lemma AnswerIsExcerpt(history: seq<Line>, after: nat, all: seq<Line>)
    requires Numbered(history) && history <= all && after <= |history|
    ensures Excerpt(Answer(history, after, true).lines, after, |history|, all)
  {}

  /** What a reader that keeps coming back may see. */
  ghost predicate Polls(polls: seq<seq<Line>>) {
    Growing(polls) && forall i | 0 <= i < |polls| :: Numbered(polls[i])
  }

  lemma LaterPolls(polls: seq<seq<Line>>)
    requires Polls(polls) && |polls| > 1
    ensures Polls(polls[1..]) && polls[0] <= polls[1] && polls[0] <= polls[|polls| - 1]
  {}

  lemma FirstPoll(polls: seq<seq<Line>>, after: nat)
    requires Polls(polls) && polls != [] && after <= |polls[0]|
    ensures Excerpt(Answer(polls[0], after, true).lines, after, |polls[0]|, polls[|polls| - 1])
  {
    if |polls| > 1 { LaterPolls(polls); }
    AnswerIsExcerpt(polls[0], after, polls[|polls| - 1]);
  }

  /** What is handed over is the transcript itself, each line at most once and
      in order. */
  lemma {:induction false} DeliveredInOrder(after: nat, polls: seq<seq<Line>>)
    requires Polls(polls) && polls != [] && after <= |polls[0]|
    ensures Excerpt(Delivered(after, polls), after, |polls[|polls| - 1]|, polls[|polls| - 1])
    decreases |polls|
  {
    FirstPoll(polls, after);
    var rest, first, all := polls[1..], Answer(polls[0], after, true).lines, polls[|polls| - 1];
    var later := Delivered(|polls[0]|, rest);
    assert Delivered(after, polls) == first + later;
    if rest == [] {
      assert first + later == first;
    } else {
      LaterPolls(polls);
      DeliveredInOrder(|polls[0]|, rest);
      assert rest[|rest| - 1] == all;
      ExcerptsJoin(first, later, after, |polls[0]|, |all|, all);
    }
  }
}
