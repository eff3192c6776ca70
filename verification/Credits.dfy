/** The appliance's books for its own sending: a slot for each line until it is
    answered, and the lease on the aiming beam. */
module Credits {
  import opened Text

  const OUTSTANDING_LINES := 4

  // Instants and durations are in nanoseconds.
  const LINE_ANSWER_TIMEOUT := 90_000_000_000
  const AIM_LEASE := 3_000_000_000

  const RECEIVE_BUFFER := 128
  const MAX_TYPED_LINE := 80

  /** A slot is a token with a date. The number is not in the program; it gives
      a slot an identity that outlives the queue being turned round. */
  datatype Slot = Slot(id: nat, sent: nat)

  predicate Stale(s: Slot, now: int) { now - s.sent >= LINE_ANSWER_TIMEOUT }

  function FirstYoung(queue: seq<Slot>, now: int): (k: nat)
    ensures k <= |queue|
    ensures forall i | 0 <= i < k :: Stale(queue[i], now)
    ensures k < |queue| ==> !Stale(queue[k], now)
  {
    if queue == [] || !Stale(queue[0], now) then 0 else 1 + FirstYoung(queue[1..], now)
  }

  /** A supervision tick: the stale slots at the head go, and the first young
      one, which was taken out to look at, comes back at the tail. */
  function Swept(queue: seq<Slot>, now: int): seq<Slot> {
    var k := FirstYoung(queue, now);
    if k == |queue| then [] else queue[k + 1..] + [queue[k]]
  }

  function Fresh(id: nat, count: nat, now: nat): (slots: seq<Slot>)
    ensures |slots| == count
    ensures forall i | 0 <= i < count :: slots[i] == Slot(id + i, now)
  {
    seq(count, i requires 0 <= i => Slot(id + i, now))
  }

  /** How many slots a send takes before it finds out that it may not go. */
  function Took(queue: seq<Slot>, count: nat): nat
    requires |queue| <= OUTSTANDING_LINES
  {
    if |queue| + count <= OUTSTANDING_LINES then count else OUTSTANDING_LINES - |queue|
  }

  /** A send takes all its slots or, having run out, hands back as many as it
      took - the oldest ones, whoever they belonged to. */
  function Taken(queue: seq<Slot>, id: nat, count: nat, now: nat, written: bool): seq<Slot>
    requires |queue| <= OUTSTANDING_LINES
  {
    var taken := Took(queue, count);
    var all := queue + Fresh(id, taken, now);
    if taken == count && written then all else all[taken..]
  }

  /** What a port makes of what is written to it: all of it goes out, or it fails
      after so many bytes. */
  datatype Port = Works | Fails(after: nat)

  function Out(port: Port, payload: string): (out: string)
    ensures out <= payload && (port.Works? ==> out == payload)
  {
    if port.Works? || port.after > |payload| then payload else payload[..port.after]
  }

  datatype SendError = Sent | ClientInCharge | StillWorking | WriteFailed

  class Steering {
    var injected: seq<Slot>
    var written: string
    var client: bool
    var issued: nat

    ghost predicate Valid() reads this {
      && |injected| <= OUTSTANDING_LINES
      && Distinct(injected, issued)
    }

    constructor ()
      ensures Valid() && injected == [] && written == "" && !client
    {
      injected, written, client, issued := [], "", false, 0;
    }

    method Acknowledged()
      modifies this`injected
      ensures injected == if old(injected) == [] then [] else old(injected)[1..]
    {
      if injected != [] {
        injected := injected[1..];
      }
    }

    method Release(count: nat)
      requires count <= |injected|
      modifies this`injected
      ensures injected == old(injected)[count..]
    {
      for i := 0 to count
        invariant injected == old(injected)[i..]
      {
        Acknowledged();
      }
    }

    /** Takes as many of the slots it is asked for as there are. */
    method TakeSlots(count: nat, now: nat) returns (taken: nat)
      requires Valid()
      modifies this`injected, this`issued
      ensures Valid() && taken == Took(old(injected), count)
      ensures injected == old(injected) + Fresh(old(issued), taken, now) && issued == old(issued) + taken
    {
      taken := 0;
      while taken < count
        invariant taken <= count && taken <= OUTSTANDING_LINES - |old(injected)|
        invariant injected == old(injected) + Fresh(old(issued), taken, now)
        invariant issued == old(issued) + taken
      {
        if |injected| == OUTSTANDING_LINES {
          return;
        }
        injected := injected + [Slot(issued, now)];
        issued := issued + 1;
        taken := taken + 1;
      }
    }

    method SendLines(lines: seq<string>, now: nat, port: Port) returns (err: SendError)
      requires Valid()
      modifies this`injected, this`written, this`issued
      ensures Valid() && issued >= old(issued)
      ensures err == if client then ClientInCharge
                     else if |lines| > OUTSTANDING_LINES - |old(injected)| then StillWorking
                     else if port.Works? then Sent else WriteFailed
      ensures written == old(written) + if err.Sent? || err.WriteFailed? then Out(port, Terminated(lines, '\n')) else ""
      ensures !err.Sent? ==> |injected| == |old(injected)|
      ensures injected == if client then old(injected)
                          else Taken(old(injected), old(issued), |lines|, now, port.Works?)
    {
      if client {
        return ClientInCharge;
      }
      var taken := TakeSlots(|lines|, now);
      if taken < |lines| {
        Release(taken);
        return StillWorking;
      }
      written := written + Out(port, Terminated(lines, '\n'));
      if port.Fails? {
        Release(taken);
        return WriteFailed;
      }
      err := Sent;
    }

    method ForgetInjected()
      modifies this`injected
      ensures injected == []
    {
      while injected != [] {
        injected := injected[1..];
      }
    }

    method ForgetStaleLines(now: nat)
      requires Valid()
      modifies this`injected
      ensures Valid() && injected == Swept(old(injected), now)
    {
      ghost var gone := 0;
      while injected != []
        invariant gone <= |old(injected)| && injected == old(injected)[gone..]
        invariant gone + FirstYoung(injected, now) == FirstYoung(old(injected), now)
      {
        var slot := injected[0];
        injected := injected[1..];
        if !Stale(slot, now) {
          injected := injected + [slot];
          return;
        }
        gone := gone + 1;
      }
    }
  }

  ghost predicate Distinct(queue: seq<Slot>, issued: nat) {
    && (forall i | 0 <= i < |queue| :: queue[i].id < issued)
    && (forall i, j | 0 <= i < j < |queue| :: queue[i].id != queue[j].id)
  }

  // A schedule of everything that touches the queue.

  datatype Step = Send(count: nat, now: nat, written: bool) | Reply | Restart | Tick(now: nat)

  datatype Books = Books(queue: seq<Slot>, issued: nat)

  ghost predicate Sound(b: Books) {
    |b.queue| <= OUTSTANDING_LINES && Distinct(b.queue, b.issued)
  }

  function Next(b: Books, step: Step): Books
    requires |b.queue| <= OUTSTANDING_LINES
  {
    match step
    case Send(count, now, written) =>
      Books(Taken(b.queue, b.issued, count, now, written), b.issued + Took(b.queue, count))
    case Reply => b.(queue := if b.queue == [] then [] else b.queue[1..])
    case Restart => b.(queue := [])
    case Tick(now) => b.(queue := Swept(b.queue, now))
  }

  lemma DropKeepsDistinct(queue: seq<Slot>, issued: nat, count: nat)
    requires Distinct(queue, issued) && count <= |queue|
    ensures Distinct(queue[count..], issued)
  {}

  lemma AppendKeepsDistinct(queue: seq<Slot>, issued: nat, count: nat, now: nat)
    requires Distinct(queue, issued)
    ensures Distinct(queue + Fresh(issued, count, now), issued + count)
  {}

  lemma TurnKeepsDistinct(queue: seq<Slot>, issued: nat, k: nat)
    requires Distinct(queue, issued) && k < |queue|
    ensures Distinct(queue[k + 1..] + [queue[k]], issued)
  {}

  lemma NextSound(b: Books, step: Step)
    requires Sound(b)
    ensures Sound(Next(b, step)) && Next(b, step).issued >= b.issued
  {
    match step
    case Send(count, now, written) =>
      var taken := Took(b.queue, count);
      var all := b.queue + Fresh(b.issued, taken, now);
      AppendKeepsDistinct(b.queue, b.issued, taken, now);
      DropKeepsDistinct(all, b.issued + taken, taken);
    case Reply =>
      if b.queue != [] { DropKeepsDistinct(b.queue, b.issued, 1); }
    case Restart =>
    case Tick(now) =>
      var k := FirstYoung(b.queue, now);
      if k < |b.queue| { TurnKeepsDistinct(b.queue, b.issued, k); }
  }

  lemma RefusedSendKeepsTheCount(b: Books, count: nat, now: nat, written: bool)
    requires Sound(b)
    ensures var after := Next(b, Send(count, now, written)).queue;
            |after| == |b.queue| + if written && |b.queue| + count <= OUTSTANDING_LINES then count else 0
  {}

  /** No tick drops a slot younger than the timeout. */
  lemma TickKeepsTheYoung(queue: seq<Slot>, now: nat, s: Slot)
    requires s in queue && !Stale(s, now)
    ensures s in Swept(queue, now)
  {
    var i :| 0 <= i < |queue| && queue[i] == s;
    var k := FirstYoung(queue, now);
    if i > k { assert queue[k + 1..][i - k - 1] == s; }
  }

  lemma PlaceIsUnique(queue: seq<Slot>, issued: nat, i: nat, j: nat)
    requires Distinct(queue, issued) && i < |queue| && j < |queue| && queue[i] == queue[j]
    ensures i == j
  {}

  ghost predicate Holds(b: Books, s: Slot, place: nat) {
    place < |b.queue| && b.queue[place] == s
  }

  /** A slot never moves back, except for a young one that a tick turns round;
      a stale one that survives a tick has moved forward. */
  lemma SlotMovesForward(b: Books, step: Step, s: Slot, place: nat, later: nat)
    requires Sound(b) && Holds(b, s, place) && Holds(Next(b, step), s, later)
    requires step.Tick? ==> Stale(s, step.now)
    ensures later <= place && (step.Tick? ==> later < place)
  {
    match step
    case Send(count, now, written) =>
      var taken := Took(b.queue, count);
      var all := b.queue + Fresh(b.issued, taken, now);
      AppendKeepsDistinct(b.queue, b.issued, taken, now);
      PlaceIsUnique(all, b.issued + taken, place, if taken == count && written then later else later + taken);
    case Reply => PlaceIsUnique(b.queue, b.issued, place, later + 1);
    case Restart =>
    case Tick(now) =>
      var k := FirstYoung(b.queue, now);
      if later + k + 1 < |b.queue| { PlaceIsUnique(b.queue, b.issued, place, later + k + 1); }
  }

  lemma SlotStaysGone(b: Books, step: Step, s: Slot)
    requires Sound(b) && s !in b.queue && s.id < b.issued
    ensures s !in Next(b, step).queue
  {}

  function Run(b: Books, steps: seq<Step>): (after: Books)
    requires Sound(b)
    ensures Sound(after)
    decreases |steps|
  {
    if steps == [] then b
    else
      NextSound(b, steps[0]);
      Run(Next(b, steps[0]), steps[1..])
  }

  function Ticks(steps: seq<Step>): nat {
    if steps == [] then 0 else (if steps[0].Tick? then 1 else 0) + Ticks(steps[1..])
  }

  lemma {:induction false} GoneForGood(b: Books, steps: seq<Step>, s: Slot)
    requires Sound(b) && s !in b.queue && s.id < b.issued
    ensures s !in Run(b, steps).queue
    decreases |steps|
  {
    if steps != [] {
      NextSound(b, steps[0]);
      SlotStaysGone(b, steps[0], s);
      GoneForGood(Next(b, steps[0]), steps[1..], s);
    }
  }

  /** A slot that has waited out the timeout is gone after as many ticks as its
      place in the queue, counted from one - whatever is sent, answered or
      refused in between. */
  lemma {:induction false} StaleSlotIsReleased(b: Books, steps: seq<Step>, s: Slot, place: nat)
    requires Sound(b) && Holds(b, s, place)
    requires forall k | 0 <= k < |steps| :: steps[k].Tick? ==> Stale(s, steps[k].now)
    requires Ticks(steps) > place
    ensures s !in Run(b, steps).queue
    decreases |steps|
  {
    var after := Next(b, steps[0]);
    NextSound(b, steps[0]);
    if s in after.queue {
      var later :| 0 <= later < |after.queue| && after.queue[later] == s;
      SlotMovesForward(b, steps[0], s, place, later);
      StaleSlotIsReleased(after, steps[1..], s, later);
    } else {
      GoneForGood(after, steps[1..], s);
    }
  }

  // How long lost replies keep the pad waiting. The timeout is there so that they
  // do not do so for good.

  /** The controller answers nothing and nothing reaches it: only ticks, and sends
      that are refused or fail. */
  predicate Unheard(b: Books, step: Step)
    requires |b.queue| <= OUTSTANDING_LINES
  {
    match step
    case Send(count, _, written) => !(written && |b.queue| + count <= OUTSTANDING_LINES)
    case Tick(_) => true
    case _ => false
  }

  /** Which slot comes back does matter: a send that is refused leaves the queue as
      it was if and only if it took no slot, or there was none to take the place
      of. */
  lemma RefusedSendKeepsTheSlots(b: Books, count: nat, now: nat, written: bool)
    requires Sound(b) && Unheard(b, Send(count, now, written))
    ensures Next(b, Send(count, now, written)).queue == b.queue <==> b.queue == [] || Took(b.queue, count) == 0
  {
    var taken := Took(b.queue, count);
    var all := b.queue + Fresh(b.issued, taken, now);
    if taken == 0 {
      assert all[0..] == b.queue;
    } else if b.queue != [] {
      assert all[taken..][|b.queue| - 1] == all[|all| - 1];
      assert all[|all| - 1].id >= b.issued;
    } else {
      assert all[taken..] == [];
    }
  }

  function Clock(step: Step, before: nat): nat {
    match step
    case Send(_, now, _) => now
    case Tick(now) => now
    case _ => before
  }

  /** Nothing is answered and nothing reaches the controller. */
  predicate Silence(b: Books, steps: seq<Step>)
    requires |b.queue| <= OUTSTANDING_LINES
    decreases |steps|
  {
    steps == [] ||
    (Unheard(b, steps[0]) && |Next(b, steps[0]).queue| <= OUTSTANDING_LINES && Silence(Next(b, steps[0]), steps[1..]))
  }

  predicate Timely(clock: nat, steps: seq<Step>)
    decreases |steps|
  {
    steps == [] || (clock <= Clock(steps[0], clock) && Timely(Clock(steps[0], clock), steps[1..]))
  }

  /** A stretch in which nothing is answered, on a clock that runs. */
  predicate Stretch(b: Books, clock: nat, steps: seq<Step>)
    requires |b.queue| <= OUTSTANDING_LINES
  {
    Silence(b, steps) && Timely(clock, steps)
  }

  /** The date that counts: the newest there is, which every refused send that
      takes a slot moves to its own. */
  function Newest(b: Books, newest: nat, steps: seq<Step>): nat
    requires |b.queue| <= OUTSTANDING_LINES
    decreases |steps|
  {
    if steps == [] then newest
    else
      var next := Next(b, steps[0]);
      var date := if steps[0].Send? && b.queue != [] && Took(b.queue, steps[0].count) > 0 then steps[0].now else newest;
      if |next.queue| <= OUTSTANDING_LINES then Newest(next, date, steps[1..]) else date
  }

  /** Nothing in the queue is newer than this, and something is as new - or all of
      it has gone because even that was old enough. */
  predicate Dated(queue: seq<Slot>, newest: nat, clock: nat) {
    && newest <= clock
    && (forall i | 0 <= i < |queue| :: queue[i].sent <= newest)
    && (queue != [] ==> exists i :: 0 <= i < |queue| && queue[i].sent == newest)
    && (queue == [] ==> clock - newest >= LINE_ANSWER_TIMEOUT)
  }

  lemma SendDated(b: Books, newest: nat, clock: nat, count: nat, now: nat, written: bool)
    requires Sound(b) && Dated(b.queue, newest, clock) && clock <= now && Unheard(b, Send(count, now, written))
    ensures Dated(Next(b, Send(count, now, written)).queue,
                  if b.queue != [] && Took(b.queue, count) > 0 then now else newest, now)
  {
    var taken := Took(b.queue, count);
    var all := b.queue + Fresh(b.issued, taken, now);
    var next := Next(b, Send(count, now, written)).queue;
    assert next == all[taken..];
    if taken == 0 {
      assert all == b.queue && next == b.queue;
    } else if b.queue != [] {
      assert next[|next| - 1] == all[|all| - 1];
    }
  }

  lemma SweptEmpty(queue: seq<Slot>, newest: nat, clock: nat, now: nat)
    requires Dated(queue, newest, clock) && clock <= now
    ensures Swept(queue, now) == [] <==> now - newest >= LINE_ANSWER_TIMEOUT
  {
    var k := FirstYoung(queue, now);
    if queue != [] {
      var i :| 0 <= i < |queue| && queue[i].sent == newest;
      if k < |queue| {
        assert queue[k].sent <= newest;
      } else {
        assert Stale(queue[i], now);
      }
    }
  }

  lemma SweptWasThere(queue: seq<Slot>, now: nat, j: nat)
    requires j < |Swept(queue, now)|
    ensures Swept(queue, now)[j] in queue
  {}

  lemma TickDated(queue: seq<Slot>, newest: nat, clock: nat, now: nat)
    requires Dated(queue, newest, clock) && clock <= now
    ensures Dated(Swept(queue, now), newest, now)
    ensures Swept(queue, now) == [] <==> now - newest >= LINE_ANSWER_TIMEOUT
  {
    SweptEmpty(queue, newest, clock, now);
    var swept := Swept(queue, now);
    forall j | 0 <= j < |swept|
      ensures swept[j].sent <= newest
    {
      SweptWasThere(queue, now, j);
    }
    if swept != [] {
      var i :| 0 <= i < |queue| && queue[i].sent == newest;
      TickKeepsTheYoung(queue, now, queue[i]);
      var j :| 0 <= j < |swept| && swept[j] == queue[i];
    }
  }

  function Ends(clock: nat, steps: seq<Step>): nat
    decreases |steps|
  {
    if steps == [] then clock else Ends(Clock(steps[0], clock), steps[1..])
  }

  lemma {:induction false} StretchDated(b: Books, newest: nat, clock: nat, steps: seq<Step>)
    requires Sound(b) && Dated(b.queue, newest, clock) && Stretch(b, clock, steps)
    ensures Dated(Run(b, steps).queue, Newest(b, newest, steps), Ends(clock, steps))
    decreases |steps|
  {
    if steps != [] {
      var step := steps[0];
      NextSound(b, step);
      var date := if step.Send? && b.queue != [] && Took(b.queue, step.count) > 0 then step.now else newest;
      match step {
        case Send(count, now, written) => SendDated(b, newest, clock, count, now, written);
        case Tick(now) => TickDated(b.queue, newest, clock, now);
        case _ =>
      }
      StretchDated(Next(b, step), date, Clock(step, clock), steps[1..]);
    }
  }

  /** After any stretch of ticks and refused sends a tick frees every slot if and
      only if the timeout is over for the newest line and for the last refused send
      that took a slot. */
  lemma TimeoutFreesExactlyWhen(b: Books, newest: nat, clock: nat, steps: seq<Step>, now: nat)
    requires Sound(b) && Dated(b.queue, newest, clock) && Stretch(b, clock, steps) && Ends(clock, steps) <= now
    ensures Next(Run(b, steps), Tick(now)).queue == [] <==> now - Newest(b, newest, steps) >= LINE_ANSWER_TIMEOUT
  {
    StretchDated(b, newest, clock, steps);
    TickDated(Run(b, steps).queue, Newest(b, newest, steps), Ends(clock, steps), now);
  }

  predicate TakesNothing(b: Books, steps: seq<Step>)
    requires |b.queue| <= OUTSTANDING_LINES
    decreases |steps|
  {
    steps == [] ||
    (&& (steps[0].Send? ==> b.queue == [] || Took(b.queue, steps[0].count) == 0)
     && |Next(b, steps[0]).queue| <= OUTSTANDING_LINES
     && TakesNothing(Next(b, steps[0]), steps[1..]))
  }

  /** So when no refused send takes a slot, the first tick past the timeout of the
      newest line frees them all. */
  lemma {:induction false} NothingTakenNothingRenewed(b: Books, newest: nat, steps: seq<Step>)
    requires Sound(b) && TakesNothing(b, steps)
    ensures Newest(b, newest, steps) == newest
    decreases |steps|
  {
    if steps != [] {
      NextSound(b, steps[0]);
      NothingTakenNothingRenewed(Next(b, steps[0]), newest, steps[1..]);
    }
  }

  // How many slots are left is another matter, and what the pad needs to take a
  // command again.

  /** Every tick finds a young slot at the head, or none. */
  predicate HeadsYoung(b: Books, steps: seq<Step>)
    requires |b.queue| <= OUTSTANDING_LINES
    decreases |steps|
  {
    steps == [] ||
    (&& (steps[0].Tick? && b.queue != [] ==> !Stale(b.queue[0], steps[0].now))
     && |Next(b, steps[0]).queue| <= OUTSTANDING_LINES
     && HeadsYoung(Next(b, steps[0]), steps[1..]))
  }

  lemma OneStepHolds(b: Books, step: Step)
    requires Sound(b) && Unheard(b, step)
    ensures |Next(b, step).queue| <= |b.queue|
    ensures |Next(b, step).queue| == |b.queue| <==> (step.Tick? && b.queue != [] ==> !Stale(b.queue[0], step.now))
  {
    if step.Send? { RefusedSendKeepsTheCount(b, step.count, step.now, step.written); }
  }

  /** Through any silence the number of slots held never grows, and stays what it is
      if and only if no tick finds an old slot at the head. */
  lemma {:induction false} SlotsAreHeldExactlyWhile(b: Books, steps: seq<Step>)
    requires Sound(b) && Silence(b, steps)
    ensures |Run(b, steps).queue| <= |b.queue|
    ensures |Run(b, steps).queue| == |b.queue| <==> HeadsYoung(b, steps)
    decreases |steps|
  {
    if steps != [] {
      NextSound(b, steps[0]);
      OneStepHolds(b, steps[0]);
      SlotsAreHeldExactlyWhile(Next(b, steps[0]), steps[1..]);
    }
  }

  /** So the smallest command the appliance had no room for is refused after any
      silence if and only if no tick found an old slot at the head. */
  lemma RefusedExactlyWhile(b: Books, steps: seq<Step>, now: nat)
    requires Sound(b) && Silence(b, steps)
    ensures Unheard(Run(b, steps), Send(OUTSTANDING_LINES + 1 - |b.queue|, now, true)) <==> HeadsYoung(b, steps)
  {
    SlotsAreHeldExactlyWhile(b, steps);
  }

  lemma RunOneMore(b: Books, step: Step, rest: seq<Step>)
    requires Sound(b)
    ensures Sound(Next(b, step)) && Run(b, [step] + rest) == Run(Next(b, step), rest)
    ensures Silence(b, [step] + rest) <==> Unheard(b, step) && Silence(Next(b, step), rest)
    ensures HeadsYoung(b, [step] + rest) <==>
              (step.Tick? && b.queue != [] ==> !Stale(b.queue[0], step.now)) && HeadsYoung(Next(b, step), rest)
  {
    NextSound(b, step);
    assert ([step] + rest)[1..] == rest;
  }

  /** Three tries at a command of two lines with no tick between them, after any
      number of ticks. */
  datatype Burst = Burst(ticks: seq<nat>, first: nat, second: nat, third: nat)

  function Ticking(ticks: seq<nat>, rest: seq<Step>): seq<Step> {
    if ticks == [] then rest else [Tick(ticks[0])] + Ticking(ticks[1..], rest)
  }

  function Bursts(bursts: seq<Burst>): seq<Step> {
    if bursts == [] then []
    else
      var b := bursts[0];
      Ticking(b.ticks, [Send(2, b.first, true)] + ([Send(2, b.second, true)] + ([Send(2, b.third, true)] + Bursts(bursts[1..]))))
  }

  /** The tries go on before the last ones have timed out. */
  predicate InTime(since: nat, bursts: seq<Burst>)
    decreases |bursts|
  {
    bursts != [] ==>
      var b := bursts[0];
      && (forall i | 0 <= i < |b.ticks| :: b.ticks[i] - since < LINE_ANSWER_TIMEOUT)
      && b.first <= b.second <= b.third
      && InTime(b.first, bursts[1..])
  }

  /** Three lines unanswered, none from before this. */
  ghost predicate ThreeSince(b: Books, since: nat) {
    Sound(b) && |b.queue| == 3 && forall i | 0 <= i < 3 :: b.queue[i].sent >= since
  }

  /** Both runs do the same from here on. */
  predicate ComesTo(b: Books, steps: seq<Step>, after: Books, rest: seq<Step>)
    requires Sound(b) && Sound(after)
  {
    && Run(b, steps) == Run(after, rest)
    && (Silence(b, steps) <==> Silence(after, rest))
    && (HeadsYoung(b, steps) <==> HeadsYoung(after, rest))
  }

  lemma {:induction false} YoungTicks(b: Books, since: nat, ticks: seq<nat>, rest: seq<Step>) returns (after: Books)
    requires ThreeSince(b, since) && forall i | 0 <= i < |ticks| :: ticks[i] - since < LINE_ANSWER_TIMEOUT
    ensures ThreeSince(after, since) && ComesTo(b, Ticking(ticks, rest), after, rest)
    decreases |ticks|
  {
    if ticks == [] {
      after := b;
    } else {
      assert !Stale(b.queue[0], ticks[0]);
      RunOneMore(b, Tick(ticks[0]), Ticking(ticks[1..], rest));
      var next := Next(b, Tick(ticks[0]));
      assert next.queue == b.queue[1..] + [b.queue[0]];
      after := YoungTicks(next, since, ticks[1..], rest);
    }
  }

  lemma RefusedWithThree(b: Books, now: nat, rest: seq<Step>)
    requires Sound(b) && |b.queue| == 3
    ensures var next := Next(b, Send(2, now, true));
            && Sound(next) && next.queue == b.queue[1..] + [Slot(b.issued, now)]
            && ComesTo(b, [Send(2, now, true)] + rest, next, rest)
  {
    RunOneMore(b, Send(2, now, true), rest);
    assert Fresh(b.issued, 1, now) == [Slot(b.issued, now)];
  }

  lemma AllReplaced<T>(three: seq<T>, x: T, y: T, z: T)
    requires |three| == 3
    ensures ((three[1..] + [x])[1..] + [y])[1..] + [z] == [x, y, z]
  {
    assert (three[1..] + [x])[1..] == [three[2], x];
    assert ([three[2], x] + [y])[1..] == [x, y];
  }

  lemma ThreeTries(b: Books, first: nat, second: nat, third: nat, rest: seq<Step>) returns (after: Books)
    requires Sound(b) && |b.queue| == 3 && first <= second <= third
    ensures ThreeSince(after, first)
    ensures ComesTo(b, [Send(2, first, true)] + ([Send(2, second, true)] + ([Send(2, third, true)] + rest)), after, rest)
  {
    RefusedWithThree(b, first, [Send(2, second, true)] + ([Send(2, third, true)] + rest));
    var b1 := Next(b, Send(2, first, true));
    RefusedWithThree(b1, second, [Send(2, third, true)] + rest);
    var b2 := Next(b1, Send(2, second, true));
    RefusedWithThree(b2, third, rest);
    after := Next(b2, Send(2, third, true));
    AllReplaced(b.queue, Slot(b.issued, first), Slot(b1.issued, second), Slot(b2.issued, third));
  }

  /** So with three lines unanswered, somebody who tries three times in a row, and
      again before ninety seconds are over, is refused for good, whatever the ticks
      in between. */
  lemma {:induction false} RefusedForGood(b: Books, since: nat, bursts: seq<Burst>)
    requires ThreeSince(b, since) && InTime(since, bursts)
    ensures Silence(b, Bursts(bursts)) && HeadsYoung(b, Bursts(bursts))
    ensures |Run(b, Bursts(bursts)).queue| == 3
    decreases |bursts|
  {
    if bursts != [] {
      var burst, rest := bursts[0], Bursts(bursts[1..]);
      var tries := [Send(2, burst.first, true)] + ([Send(2, burst.second, true)] + ([Send(2, burst.third, true)] + rest));
      var ticked := YoungTicks(b, since, burst.ticks, tries);
      var after := ThreeTries(ticked, burst.first, burst.second, burst.third, rest);
      RefusedForGood(after, burst.first, bursts[1..]);
    }
  }

  /** One try and two ticks. */
  datatype Round = Round(sent: nat, first: nat, second: nat)

  function Rounds(rounds: seq<Round>, rest: seq<Step>): seq<Step> {
    if rounds == [] then rest
    else
      var r := rounds[0];
      [Send(2, r.sent, true)] + ([Tick(r.first)] + ([Tick(r.second)] + Rounds(rounds[1..], rest)))
  }

  lemma TickTurns(b: Books, now: nat, rest: seq<Step>)
    requires Sound(b) && b.queue != [] && !Stale(b.queue[0], now)
    ensures var next := Next(b, Tick(now));
            && Sound(next) && next.queue == b.queue[1..] + [b.queue[0]]
            && (Silence(b, [Tick(now)] + rest) <==> Silence(next, rest))
            && Run(b, [Tick(now)] + rest) == Run(next, rest)
  {
    RunOneMore(b, Tick(now), rest);
  }

  lemma RoundRenewsTheFirst(b: Books, r: Round, rest: seq<Step>) returns (after: Books)
    requires Sound(b) && |b.queue| == 3 && !Stale(b.queue[1], r.first) && !Stale(b.queue[2], r.second)
    ensures Sound(after) && after.queue == [Slot(b.issued, r.sent), b.queue[1], b.queue[2]]
    ensures var steps := [Send(2, r.sent, true)] + ([Tick(r.first)] + ([Tick(r.second)] + rest));
            Run(b, steps) == Run(after, rest) && (Silence(b, steps) <==> Silence(after, rest))
  {
    RefusedWithThree(b, r.sent, [Tick(r.first)] + ([Tick(r.second)] + rest));
    var b1 := Next(b, Send(2, r.sent, true));
    TickTurns(b1, r.first, [Tick(r.second)] + rest);
    var b2 := Next(b1, Tick(r.first));
    assert b2.queue == [b.queue[2], Slot(b.issued, r.sent), b.queue[1]];
    TickTurns(b2, r.second, rest);
    after := Next(b2, Tick(r.second));
  }

  predicate RoundsInTime(queue: seq<Slot>, rounds: seq<Round>)
    requires |queue| == 3
  {
    forall i | 0 <= i < |rounds| :: !Stale(queue[1], rounds[i].first) && !Stale(queue[2], rounds[i].second)
  }

  lemma {:induction false} OnlyTheFirstIsRenewed(b: Books, rounds: seq<Round>, rest: seq<Step>) returns (after: Books)
    requires Sound(b) && |b.queue| == 3 && RoundsInTime(b.queue, rounds)
    ensures Sound(after) && |after.queue| == 3 && after.queue[1..] == b.queue[1..]
    ensures after.queue[0].sent == if rounds == [] then b.queue[0].sent else rounds[|rounds| - 1].sent
    ensures Run(b, Rounds(rounds, rest)) == Run(after, rest) && (Silence(b, Rounds(rounds, rest)) <==> Silence(after, rest))
    decreases |rounds|
  {
    if rounds == [] {
      after := b;
    } else {
      var next := RoundRenewsTheFirst(b, rounds[0], Rounds(rounds[1..], rest));
      after := OnlyTheFirstIsRenewed(next, rounds[1..], rest);
    }
  }

  /** The same somebody who tries once at a time, with two ticks in between, only
      ever renews one slot of the three. The next two ticks after the timeout of the
      other two free both, and the command goes. */
  lemma TryingOnceAtATimeGetsThrough(b: Books, rounds: seq<Round>, first: nat, second: nat, now: nat)
    requires Sound(b) && |b.queue| == 3 && RoundsInTime(b.queue, rounds)
    requires rounds != [] && first - rounds[|rounds| - 1].sent < LINE_ANSWER_TIMEOUT
    requires Stale(b.queue[1], second) && Stale(b.queue[2], second)
    ensures var steps := Rounds(rounds, [Tick(first)] + [Tick(second)]);
            Silence(b, steps) && !Unheard(Run(b, steps), Send(2, now, true))
  {
    var after := OnlyTheFirstIsRenewed(b, rounds, [Tick(first)] + [Tick(second)]);
    assert after.queue[1] == after.queue[1..][0] == b.queue[1] && after.queue[2] == after.queue[1..][1] == b.queue[2];
    TickTurns(after, first, [Tick(second)]);
    var turned := Next(after, Tick(first));
    assert turned.queue == [b.queue[1], b.queue[2], after.queue[0]];
    RunOneMore(turned, Tick(second), []);
    assert [Tick(second)] + [] == [Tick(second)];
    assert FirstYoung(turned.queue, second) == 1 + FirstYoung(turned.queue[1..], second);
    assert FirstYoung(turned.queue[1..], second) >= 1;
  }

  const SECOND := 1_000_000_000

  /** Four tries twenty seconds apart are such a run: the command that is refused
      all four times goes a second after the ninety-fourth. */
  lemma FourTriesGetThrough(b: Books)
    requires Sound(b) && |b.queue| == 3 && forall i | 0 <= i < 3 :: b.queue[i].sent == 0
    ensures var rounds := seq(4, i requires 0 <= i => Round((20 + 20 * i) * SECOND, (21 + 20 * i) * SECOND, (22 + 20 * i) * SECOND));
            var steps := Rounds(rounds, [Tick(94 * SECOND)] + [Tick(95 * SECOND)]);
            Silence(b, steps) && !Unheard(Run(b, steps), Send(2, 95 * SECOND, true))
  {
    var rounds := seq(4, i requires 0 <= i => Round((20 + 20 * i) * SECOND, (21 + 20 * i) * SECOND, (22 + 20 * i) * SECOND));
    TryingOnceAtATimeGetsThrough(b, rounds, 94 * SECOND, 95 * SECOND, 95 * SECOND);
  }

  predicate InOrder(queue: seq<Slot>) {
    forall i, j | 0 <= i <= j < |queue| :: queue[i].sent <= queue[j].sent
  }

  /** A tick keeps the queue in order of age if and only if it leaves at most one
      young slot, or young slots that are all of an age. */
  lemma TickKeepsTheOrder(queue: seq<Slot>, now: nat)
    requires InOrder(queue)
    ensures var k := FirstYoung(queue, now);
            InOrder(Swept(queue, now)) <==> k == |queue| || queue[k].sent == queue[|queue| - 1].sent
  {
    var k := FirstYoung(queue, now);
    var swept := Swept(queue, now);
    if k < |queue| - 1 {
      assert swept[|swept| - 1] == queue[k] && swept[|swept| - 2] == queue[|queue| - 1];
      assert forall i | 0 <= i < |swept| - 1 :: swept[i] == queue[k + 1 + i];
    }
  }

  lemma OneTaken(queue: seq<Slot>, id: nat, now: nat)
    requires |queue| < OUTSTANDING_LINES
    ensures Took(queue, 1) == 1 && Taken(queue, id, 1, now, true) == queue + [Slot(id, now)]
  {
    assert Fresh(id, 1, now) == [Slot(id, now)];
  }

  lemma LineSent(b: Books, now: nat, rest: seq<Step>)
    requires Sound(b) && |b.queue| < OUTSTANDING_LINES
    ensures var next := Next(b, Send(1, now, true));
            && Sound(next) && next.queue == b.queue + [Slot(b.issued, now)] && next.issued == b.issued + 1
            && Run(b, [Send(1, now, true)] + rest) == Run(next, rest)
  {
    OneTaken(b.queue, b.issued, now);
    RunOneMore(b, Send(1, now, true), rest);
  }

  /** Two lines one after the other and a tick soon after are enough to lose it. */
  lemma OutOfOrder()
    ensures Run(Books([], 0), [Send(1, 0, true)] + ([Send(1, 1, true)] + [Tick(2)])).queue == [Slot(1, 1), Slot(0, 0)]
  {
    var b0 := Books([], 0);
    LineSent(b0, 0, [Send(1, 1, true)] + [Tick(2)]);
    var b1 := Next(b0, Send(1, 0, true));
    LineSent(b1, 1, [Tick(2)]);
    TickTurns(Next(b1, Send(1, 1, true)), 2, []);
    assert [Tick(2)] + [] == [Tick(2)];
  }

  // What may be sent, and whether the receive buffer holds it.

  predicate Printable(text: string) {
    forall i | 0 <= i < |text| :: 0x20 <= text[i] as int <= 0x7e
  }

  function TypedLine(line: string): Option<string> {
    var text := TrimSpace(line);
    if text == "" || |text| > MAX_TYPED_LINE then None
    else if !Printable(text) then None
    else if text == "?" || text == "!" || text == "~" then None
    else Some(text)
  }

  lemma {:induction false} PayloadBound(lines: seq<string>, each: nat)
    requires forall line | line in lines :: |line| <= each
    ensures |Terminated(lines, '\n')| <= |lines| * (each + 1)
  {
    if lines != [] {
      PayloadBound(lines[1..], each);
      assert |lines| * (each + 1) == |lines[1..]| * (each + 1) + (each + 1);
    }
  }

  lemma {:induction false} AllOfOneLength(line: string, count: nat)
    ensures |Terminated(seq(count, i => line), '\n')| == count * (|line| + 1)
  {
    if count > 0 {
      var lines := seq(count, i => line);
      assert lines[1..] == seq(count - 1, i => line);
      AllOfOneLength(line, count - 1);
    }
  }

  /** Four lines always fit the controller's buffer if and only if none of them is
      longer than thirty-one characters. */
  lemma FourLinesFit(each: nat)
    ensures (forall lines: seq<string> | |lines| <= OUTSTANDING_LINES && (forall line | line in lines :: |line| <= each) ::
               |Terminated(lines, '\n')| <= RECEIVE_BUFFER)
            <==> each <= 31
  {
    if each <= 31 {
      forall lines: seq<string> | |lines| <= OUTSTANDING_LINES && (forall line | line in lines :: |line| <= each)
        ensures |Terminated(lines, '\n')| <= RECEIVE_BUFFER
      {
        PayloadBound(lines, 31);
        assert |lines| * 32 <= OUTSTANDING_LINES * 32;
      }
    } else {
      var long := seq(each, i => 'x');
      var lines := seq(OUTSTANDING_LINES, i => long);
      AllOfOneLength(long, OUTSTANDING_LINES);
      assert forall i | 0 <= i < |lines| :: lines[i] == long;
      assert OUTSTANDING_LINES * (each + 1) > RECEIVE_BUFFER;
    }
  }

  lemma OneLine(line: string)
    ensures Terminated([line], '\n') == line + "\n"
  {
    assert [line][1..] == [];
  }

  method TypeOne(steering: Steering, line: string, now: nat) returns (err: SendError)
    requires steering.Valid() && |steering.injected| < OUTSTANDING_LINES && !steering.client
    modifies steering`injected, steering`written, steering`issued
    ensures steering.Valid() && err.Sent? && |steering.injected| == |old(steering.injected)| + 1
    ensures steering.written == old(steering.written) + (line + "\n")
  {
    OneLine(line);
    err := steering.SendLines([line], now, Works);
  }

  /** Typed lines are not among those: whatever line of the greatest length is
      typed, typing it again before it is answered leaves more unanswered than the
      buffer holds. */
  method TypeTwice(steering: Steering, line: string, now: nat, later: nat) returns (first: SendError, second: SendError)
    requires steering.Valid() && steering.injected == [] && !steering.client
    requires |line| == MAX_TYPED_LINE && TypedLine(line) == Some(line)
    modifies steering`injected, steering`written, steering`issued
    ensures first.Sent? && second.Sent? && |steering.injected| == 2
    ensures steering.written == old(steering.written) + line + "\n" + line + "\n"
    ensures |steering.written| - |old(steering.written)| > RECEIVE_BUFFER
  {
    first := TypeOne(steering, line, now);
    second := TypeOne(steering, line, later);
  }

  // The lease on the aiming beam.

  datatype Lease = Lease(until: nat, holder: string, percent: int)

  predicate Live(l: Lease, now: nat) { l.until != 0 && now < l.until }

  /** Taken once, and over without having been given back. */
  predicate RunOut(l: Lease, now: nat) { l.until != 0 && now >= l.until }

  class AimingBeam {
    var until: nat
    var holder: string
    var percent: int

    function Terms(): Lease reads this { Lease(until, holder, percent) }

    constructor ()
      ensures until == 0 && holder == ""
    {
      until, holder, percent := 0, "", 0;
    }

    method Hold(who: string, power: int, now: nat) returns (first: bool, ok: bool)
      modifies this
      ensures ok <==> !(Live(old(Terms()), now) && old(holder) != who)
      ensures Terms() == LeaseNext(old(Terms()), TryHold(who, power, now))
      ensures first <==> !Live(old(Terms()), now)
    {
      var live := until != 0 && now < until;
      if live && holder != who {
        return false, false;
      }
      until, holder, percent := now + AIM_LEASE, who, power;
      return !live, true;
    }

    method ReleaseBy(who: string) returns (ok: bool)
      modifies this
      ensures !ok <==> who != "" && old(holder) != "" && old(holder) != who && old(until) != 0
      ensures Terms() == LeaseNext(old(Terms()), TryRelease(who))
    {
      if who != "" && holder != "" && holder != who && until != 0 {
        return false;
      }
      until, holder := 0, "";
      ok := true;
    }

    method Expired(now: nat) returns (ranOut: bool)
      modifies this`until
      ensures ranOut <==> RunOut(old(Terms()), now)
      ensures Terms() == LeaseNext(old(Terms()), Look(now))
    {
      if until == 0 || now < until {
        return false;
      }
      until := 0;
      ranOut := true;
    }
  }

  datatype LeaseStep = TryHold(who: string, percent: int, now: nat) | TryRelease(who: string) | Look(now: nat)

  function LeaseNext(l: Lease, step: LeaseStep): Lease {
    match step
    case TryHold(who, percent, now) =>
      if Live(l, now) && l.holder != who then l else Lease(now + AIM_LEASE, who, percent)
    case TryRelease(who) =>
      if who != "" && l.holder != "" && l.holder != who && l.until != 0 then l else Lease(0, "", l.percent)
    case Look(now) =>
      if l.until == 0 || now < l.until then l else l.(until := 0)
  }

  function LeaseRun(l: Lease, steps: seq<LeaseStep>): Lease
    decreases |steps|
  {
    if steps == [] then l else LeaseRun(LeaseNext(l, steps[0]), steps[1..])
  }

  /** Steps of anybody but this holder, and of the supervision, up to a time. */
  predicate OthersBefore(holder: string, time: nat, steps: seq<LeaseStep>) {
    forall k | 0 <= k < |steps| ::
      match steps[k]
      case TryHold(who, _, now) => who != holder && now < time
      case TryRelease(who) => who != holder && who != ""
      case Look(now) => now < time
  }

  lemma {:induction false} OthersChangeNothing(l: Lease, steps: seq<LeaseStep>)
    requires l.holder != "" && l.until != 0 && OthersBefore(l.holder, l.until, steps)
    ensures LeaseRun(l, steps) == l
    decreases |steps|
  {
    if steps != [] {
      assert LeaseNext(l, steps[0]) == l;
      assert forall k | 0 <= k < |steps[1..]| :: steps[1..][k] == steps[k + 1];
      OthersChangeNothing(l, steps[1..]);
    }
  }

  lemma LookEnds(l: Lease)
    requires l.until != 0
    ensures LeaseRun(l, [Look(l.until)]) != l
  {
    assert [Look(l.until)][1..] == [];
  }

  /** Whatever anybody else holds or releases leaves a lease as it is until it runs
      out, and no longer. */
  lemma LeaseLastsUntil(l: Lease, time: nat)
    requires l.holder != "" && l.until != 0
    ensures (forall steps | OthersBefore(l.holder, time, steps) :: LeaseRun(l, steps) == l) <==> time <= l.until
  {
    if time <= l.until {
      forall steps | OthersBefore(l.holder, time, steps)
        ensures LeaseRun(l, steps) == l
      {
        assert OthersBefore(l.holder, l.until, steps);
        OthersChangeNothing(l, steps);
      }
    } else {
      LookEnds(l);
      assert OthersBefore(l.holder, time, [Look(l.until)]);
    }
  }

  /** Unless the appliance itself lets go, as it does for a stop from whomever: then
      nobody holds the beam, and whoever asks next does. */
  lemma StopFreesTheLease(l: Lease, who: string, percent: int, now: nat)
    ensures var stopped := LeaseNext(l, TryRelease(""));
            !Live(stopped, now) && LeaseNext(stopped, TryHold(who, percent, now)) == Lease(now + AIM_LEASE, who, percent)
  {}

  predicate NobodyHolds(steps: seq<LeaseStep>) {
    forall k | 0 <= k < |steps| :: !steps[k].TryHold?
  }

  lemma {:induction false} FreeUntilHeld(l: Lease, steps: seq<LeaseStep>)
    requires l.until == 0 && NobodyHolds(steps)
    ensures LeaseRun(l, steps).until == 0
    decreases |steps|
  {
    if steps != [] {
      assert !steps[0].TryHold?;
      assert forall k | 0 <= k < |steps[1..]| :: steps[1..][k] == steps[k + 1];
      FreeUntilHeld(LeaseNext(l, steps[0]), steps[1..]);
    }
  }

  /** A lease is found to have run out once: whether or not anything could be done
      about it then, nobody finds it so again until the beam has been held again. */
  lemma FoundRunOutOnce(l: Lease, now: nat, steps: seq<LeaseStep>, later: nat)
    requires RunOut(l, now) && NobodyHolds(steps)
    ensures var after := LeaseRun(LeaseNext(l, Look(now)), steps);
            after.until == 0 && !RunOut(after, later) && !Live(after, later)
  {
    FreeUntilHeld(LeaseNext(l, Look(now)), steps);
  }
}
