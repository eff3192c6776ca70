/** What each line of the controller does to the books: to the client's, which
    tell what a reply answers, and to the appliance's own, which tell how much
    of its own sending is unanswered. */
module Books {
  import opened Text
  import opened Grbl
  import LineTail
  import Credits

  predicate Answers(kind: Kind) { kind == Ok || kind == Error }

  class Recorder {
    const sent: LineTail.LineTail
    const steering: Credits.Steering

    constructor (sent: LineTail.LineTail, steering: Credits.Steering)
      ensures this.sent == sent && this.steering == steering
    {
      this.sent, this.steering := sent, steering;
    }

    /** A reply counts in both books, whoever it was for; an alarm, a message, a
        setting or a report counts in neither; a restart closes both. */
    method Record(kind: Kind) returns (line: string)
      requires sent.Valid()
      modifies sent, steering`injected
      ensures sent.Valid()
      ensures Answers(kind) ==>
                var (tail, claim) := LineTail.Acknowledged(old(sent.State()));
                && sent.State() == tail && line == (if kind == Error then claim else "")
                && steering.injected == if old(steering.injected) == [] then [] else old(steering.injected)[1..]
      ensures kind == Welcome ==> sent.State() == LineTail.Forgotten(old(sent.State())) && steering.injected == [] && line == ""
      ensures !Answers(kind) && kind != Welcome ==>
                sent.State() == old(sent.State()) && steering.injected == old(steering.injected) && line == ""
    {
      line := "";
      match kind {
        case Ok =>
          steering.Acknowledged();
          var _ := sent.Acknowledge();
        case Error =>
          steering.Acknowledged();
          line := sent.Acknowledge();
        case Welcome =>
          sent.Forget();
          steering.ForgetInjected();
        case _ =>
      }
    }
  }

  // The books beside what the controller really has left to answer.

  /** A line the controller has accepted and not answered. */
  datatype Asked = Asked(text: string, own: bool)

  datatype World = World(queue: seq<Asked>, tail: LineTail.Tail, slots: nat)

  datatype Event = ClientSends(text: string) | ApplianceSends(text: string) | Connects | Says(kind: Kind) | TimesOut(count: nat)

  /** A controller answers its lines once each and in order, so it does not
      answer when there is nothing to answer. */
  predicate CanHappen(w: World, e: Event) {
    match e
    case ClientSends(text) => text != ""
    case ApplianceSends(text) => w.slots < Credits.OUTSTANDING_LINES
    case Connects => true
    case Says(kind) => Answers(kind) ==> w.queue != []
    case TimesOut(count) => count <= w.slots
  }

  function After(w: World, e: Event): World
    requires CanHappen(w, e)
  {
    match e
    case ClientSends(text) => World(w.queue + [Asked(text, false)], LineTail.Enqueued(w.tail, text), w.slots)
    case ApplianceSends(text) => World(w.queue + [Asked(text, true)], w.tail, w.slots + 1)
    case Connects => w.(tail := LineTail.Forgotten(w.tail))
    case Says(kind) =>
      if Answers(kind) then
        World(w.queue[1..], LineTail.Acknowledged(w.tail).0, if w.slots == 0 then 0 else w.slots - 1)
      else if kind == Welcome then World([], LineTail.Forgotten(w.tail), 0)
      else w
    case TimesOut(count) => w.(slots := w.slots - count)
  }

  /** Which is what a supervision tick comes to: it gives up as many slots as there
      are stale ones at the head, and no line is answered by that. */
  lemma TickTimesOut(w: World, slots: seq<Credits.Slot>, now: nat)
    requires w.slots == |slots|
    ensures var event := TimesOut(Credits.FirstYoung(slots, now));
            CanHappen(w, event) && After(w, event) == w.(slots := |Credits.Swept(slots, now)|)
  {}

  /** Whatever is claimed about the next reply is so. */
  predicate ClaimIsTrue(w: World) {
    var claim := LineTail.Acknowledged(w.tail).1;
    claim != "" && w.queue != [] ==> w.queue[0] == Asked(claim, false)
  }

  /** Every one of these events can happen when its turn comes. */
  predicate Possible(w: World, events: seq<Event>)
    decreases |events|
  {
    events == [] || (CanHappen(w, events[0]) && Possible(After(w, events[0]), events[1..]))
  }

  function AfterAll(w: World, events: seq<Event>): World
    requires Possible(w, events)
    decreases |events|
  {
    if events == [] then w else AfterAll(After(w, events[0]), events[1..])
  }

  /** While this client stays, only it and the controller are heard, and the clock. */
  predicate OneClient(events: seq<Event>) {
    forall i | 0 <= i < |events| :: events[i].ClientSends? || events[i].Says? || events[i].TimesOut?
  }

  function Clients(lines: seq<string>): seq<Asked> {
    seq(|lines|, i requires 0 <= i < |lines| => Asked(lines[i], false))
  }

  /** The client's book lists what is left to answer - or claims nothing. */
  predicate Aligned(w: World) {
    w.tail.desynced || w.queue == Clients(w.tail.pending)
  }

  lemma AlignedAfter(w: World, e: Event)
    requires Aligned(w) && CanHappen(w, e) && (e.ClientSends? || e.Says? || e.TimesOut?)
    ensures Aligned(After(w, e)) && ClaimIsTrue(w)
  {
    if e.ClientSends? && !w.tail.desynced {
      assert Clients(w.tail.pending + [e.text]) == w.queue + [Asked(e.text, false)];
    }
  }

  lemma {:induction false} ClaimsStayTrue(w: World, events: seq<Event>)
    requires Aligned(w) && Possible(w, events) && OneClient(events)
    ensures ClaimIsTrue(AfterAll(w, events))
    decreases |events|
  {
    if events == [] {
      AlignedAfter(w, Says(Message));
    } else {
      AlignedAfter(w, events[0]);
      assert forall i | 0 <= i < |events[1..]| :: events[1..][i] == events[i + 1];
      ClaimsStayTrue(After(w, events[0]), events[1..]);
    }
  }

  /** What is claimed to a client about its lines is true for as long as it stays,
      whatever happens, if and only if nothing was left to answer when it
      connected: a reply that comes late is counted against its first line. */
  lemma ClaimsAreTrueForAClient(w: World)
    ensures (forall events | Possible(After(w, Connects), events) && OneClient(events) ::
               ClaimIsTrue(AfterAll(After(w, Connects), events)))
            <==> w.queue == []
  {
    var start := After(w, Connects);
    if w.queue == [] {
      forall events | Possible(start, events) && OneClient(events)
        ensures ClaimIsTrue(AfterAll(start, events))
      {
        ClaimsStayTrue(start, events);
      }
    } else {
      var text := w.queue[0].text + "x";
      var events := [ClientSends(text)];
      assert events[1..] == [];
      assert AfterAll(start, events) == After(start, ClientSends(text));
      assert Possible(start, events) && !ClaimIsTrue(AfterAll(start, events));
    }
  }

  // The appliance's own lines.

  function Own(queue: seq<Asked>): nat {
    if queue == [] then 0 else Own(queue[..|queue| - 1]) + if queue[|queue| - 1].own then 1 else 0
  }

  /** There is a slot for every own line that is left to answer, but for so many. */
  predicate Covered(w: World, freed: nat) { Own(w.queue) <= w.slots + freed }

  /** How many slots the timeout has given up. */
  function Freed(events: seq<Event>): nat {
    if events == [] then 0 else (if events[0].TimesOut? then events[0].count else 0) + Freed(events[1..])
  }

  /** Own lines are answered before any of a client's. */
  predicate OwnFirst(queue: seq<Asked>) {
    forall i, j | 0 <= i < j < |queue| :: queue[j].own ==> queue[i].own
  }

  lemma {:induction false} OwnOfRest(queue: seq<Asked>)
    requires queue != []
    ensures Own(queue) == Own(queue[1..]) + if queue[0].own then 1 else 0
  {
    if |queue| > 1 {
      var before := queue[..|queue| - 1];
      OwnOfRest(before);
      assert before[1..] == queue[1..][..|queue| - 2];
    }
  }

  lemma OwnOneMore(queue: seq<Asked>, line: Asked)
    ensures Own(queue + [line]) == Own(queue) + if line.own then 1 else 0
  {
    assert (queue + [line])[..|queue|] == queue;
  }

  lemma {:induction false} NoneOwn(queue: seq<Asked>)
    requires queue == [] || !queue[0].own
    requires OwnFirst(queue)
    ensures Own(queue) == 0
  {
    if queue != [] { NoneOwn(queue[..|queue| - 1]); }
  }

  predicate ClientHasLines(queue: seq<Asked>) {
    exists i :: 0 <= i < |queue| && !queue[i].own
  }

  lemma CoveredAfter(w: World, freed: nat, e: Event)
    requires Covered(w, freed) && OwnFirst(w.queue) && CanHappen(w, e)
    requires e.ApplianceSends? ==> !ClientHasLines(w.queue)
    ensures Covered(After(w, e), freed + if e.TimesOut? then e.count else 0) && OwnFirst(After(w, e).queue)
  {
    match e
    case ClientSends(text) => OwnOneMore(w.queue, Asked(text, false));
    case ApplianceSends(text) => OwnOneMore(w.queue, Asked(text, true));
    case Connects =>
    case Says(kind) =>
      if Answers(kind) {
        OwnOfRest(w.queue);
        if !w.queue[0].own { NoneOwn(w.queue); }
      }
    case TimesOut(count) =>
  }

  /** The appliance sends only when no line of a client is left to answer. */
  predicate Orderly(w: World, events: seq<Event>)
    requires Possible(w, events)
    decreases |events|
  {
    events == [] ||
    ((events[0].ApplianceSends? ==> !ClientHasLines(w.queue)) && Orderly(After(w, events[0]), events[1..]))
  }

  lemma {:induction false} StaysCovered(w: World, freed: nat, events: seq<Event>)
    requires Covered(w, freed) && OwnFirst(w.queue) && Possible(w, events) && Orderly(w, events)
    ensures Covered(AfterAll(w, events), freed + Freed(events))
    decreases |events|
  {
    if events != [] {
      var e := events[0];
      CoveredAfter(w, freed, e);
      StaysCovered(After(w, e), freed + (if e.TimesOut? then e.count else 0), events[1..]);
    }
  }

  /** What the appliance has sent is accounted for until it is answered or timed out
      - clients coming, sending and going, replies, restarts, and more of its own sent
      in the same way - if and only if no line of a client was left to answer before
      it: the replies to those give back the slots it holds. */
  lemma OwnLineStaysCovered(w: World, text: string)
    requires w.slots == Own(w.queue) < Credits.OUTSTANDING_LINES && OwnFirst(w.queue)
    ensures var start := After(w, ApplianceSends(text));
            (forall events | Possible(start, events) && Orderly(start, events) :: Covered(AfterAll(start, events), Freed(events)))
            <==> !ClientHasLines(w.queue)
  {
    var start := After(w, ApplianceSends(text));
    if !ClientHasLines(w.queue) {
      CoveredAfter(w, 0, ApplianceSends(text));
      forall events | Possible(start, events) && Orderly(start, events)
        ensures Covered(AfterAll(start, events), Freed(events))
      {
        StaysCovered(start, 0, events);
      }
    } else {
      OwnOneMore(w.queue, Asked(text, true));
      var events := Uncovered(start);
    }
  }

  /** Answering up to the first line of a client, and then that one. */
  lemma {:induction false} Uncovered(w: World) returns (events: seq<Event>)
    requires w.slots == Own(w.queue)
    requires exists i, j :: 0 <= i < j < |w.queue| && !w.queue[i].own && w.queue[j].own
    ensures Possible(w, events) && Orderly(w, events) && !Covered(AfterAll(w, events), Freed(events))
    decreases |w.queue|
  {
    var next := After(w, Says(Ok));
    OwnOfRest(w.queue);
    var i, j :| 0 <= i < j < |w.queue| && !w.queue[i].own && w.queue[j].own;
    if w.queue[0].own {
      assert next.queue[i - 1] == w.queue[i] && next.queue[j - 1] == w.queue[j];
      var later := Uncovered(next);
      events := [Says(Ok)] + later;
      assert events[1..] == later;
    } else {
      events := [Says(Ok)];
      assert events[1..] == [];
      OwnPositive(w.queue, j);
      assert AfterAll(w, events) == next;
    }
  }

  lemma {:induction false} OwnPositive(queue: seq<Asked>, j: nat)
    requires j < |queue| && queue[j].own
    ensures Own(queue) > 0
  {
    if j < |queue| - 1 { OwnPositive(queue[..|queue| - 1], j); }
  }
}
