/** The standing supervision: a beam that is on with nobody attached, or on
    while the machine stands still, is acted on whatever the reason. */
module Supervise {
  import opened Text
  import opened Grbl
  import opened Observer
  import opened Safety
  import Credits

  // How many reports may pass since the controller mentioned its outputs.
  const EVIDENCE_REPORTS := 30

  /** What is configured. A stationary beam of zero switches that rule off. */
  datatype Rules = Rules(policy: Policy, beamGrace: nat, stationaryBeam: nat)

  /** Everything one tick looks at. */
  datatype Look = Look(
    now: nat,
    port: bool,                 // the serial port is open
    asked: bool,                // nobody had to ask for a report, or asking worked
    silent: bool,               // the controller has stopped answering
    coordinates: Coordinates,
    output: Output,
    lease: Credits.Lease,       // on the aiming beam
    client: bool,               // somebody is attached
    idle: bool)                 // no intervention is under way
  {
    predicate Examined() { port && asked }

    /** On, and not because somebody is holding it on. */
    predicate Burning() { output.beam == BeamOn && !Credits.Live(lease, now) }

    predicate Evident() { output.unix != 0 && output.reports - output.beamReports <= EVIDENCE_REPORTS }
  }

  datatype Timers = Timers(beamOnSince: Option<nat>, movedAt: Option<nat>, lastPosition: Position)

  const NOT_RUNNING := Timers(None, None, ORIGIN)

  function Followed(t: Timers, l: Look): Timers {
    if l.coordinates.hasPosition && (l.coordinates.position != t.lastPosition || t.movedAt.None?)
    then t.(lastPosition := l.coordinates.position, movedAt := Some(l.now))
    else t
  }

  function Timed(t: Timers, l: Look): Timers {
    t.(beamOnSince := if !l.Burning() then None else if t.beamOnSince.None? then Some(l.now) else t.beamOnSince)
  }

  function Stopped(t: Timers): Timers {
    t.(beamOnSince := None, movedAt := None)
  }

  /** The timers as the rules see them. */
  function Viewed(t: Timers, l: Look): Timers {
    if !l.port then Stopped(t)
    else if !l.asked then t
    else Timed(Followed(t, l), l)
  }

  predicate Past(since: Option<nat>, grace: nat, now: nat) {
    since.Some? && now - since.value > grace
  }

  datatype Verdict = Nothing | OnlyAMemory | Act(trigger: Trigger)

  /** What a tick that looks at the machine makes of it. */
  function Judged(rules: Rules, t: Timers, l: Look): Verdict {
    if !l.Burning() || rules.policy == PolicyNone then Nothing
    else if !l.client && Past(t.beamOnSince, rules.beamGrace, l.now) then Act(BeamUnattended)
    else if !(&& rules.stationaryBeam > 0 && l.coordinates.hasPosition
              && Past(t.movedAt, rules.stationaryBeam, l.now)
              && Past(t.beamOnSince, rules.stationaryBeam, l.now)) then Nothing
    else if l.Evident() then Act(BeamStationary)
    else OnlyAMemory
  }

  datatype Books = Books(timers: Timers, staleReported: bool, silenceReported: bool)

  const AT_START := Books(NOT_RUNNING, false, false)

  /** What came of a tick. */
  datatype Outcome = Outcome(verdict: Verdict, acted: bool, saidStale: bool, saidSilent: bool)

  const UNEXAMINED := Outcome(Nothing, false, false, false)

  function Next(rules: Rules, b: Books, l: Look): (Books, Outcome) {
    var seen := Viewed(b.timers, l);
    if !l.Examined() then (b.(timers := seen), UNEXAMINED)
    else
      var verdict := Judged(rules, seen, l);
      var acted := verdict.Act? && l.idle;
      (Books(if acted then Stopped(seen) else seen,
             if verdict == OnlyAMemory then true else if verdict == Act(BeamStationary) then false else b.staleReported,
             l.silent),
       Outcome(verdict, acted, verdict == OnlyAMemory && !b.staleReported, l.silent && !b.silenceReported))
  }

  class Watch {
    const rules: Rules
    var beamOnSince: Option<nat>
    var movedAt: Option<nat>
    var lastPosition: Position
    var staleReported: bool
    var silenceReported: bool

    function State(): Books reads this {
      Books(Timers(beamOnSince, movedAt, lastPosition), staleReported, silenceReported)
    }

    constructor (rules: Rules)
      ensures this.rules == rules && State() == AT_START
    {
      this.rules := rules;
      beamOnSince, movedAt, lastPosition := None, None, ORIGIN;
      staleReported, silenceReported := false, false;
    }

    /** The rules, on a beam that is on and that nobody holds on. */
    method Judge(l: Look) returns (verdict: Verdict, saidStale: bool)
      requires l.Burning() && beamOnSince.Some? && (l.coordinates.hasPosition ==> movedAt.Some?)
      modifies this`staleReported
      ensures verdict == Judged(rules, State().timers, l)
      ensures saidStale <==> verdict == OnlyAMemory && !old(staleReported)
      ensures staleReported == if verdict == OnlyAMemory then true
                               else if verdict == Act(BeamStationary) then false
                               else old(staleReported)
    {
      saidStale := false;
      if rules.policy == PolicyNone {
        return Nothing, false;
      }
      if !l.client && l.now - beamOnSince.value > rules.beamGrace {
        return Act(BeamUnattended), false;
      }
      if rules.stationaryBeam > 0 && l.coordinates.hasPosition &&
         l.now - movedAt.value > rules.stationaryBeam && l.now - beamOnSince.value > rules.stationaryBeam
      {
        if l.output.unix == 0 || l.output.reports - l.output.beamReports > EVIDENCE_REPORTS {
          saidStale := !staleReported;
          staleReported := true;
          return OnlyAMemory, saidStale;
        }
        staleReported := false;
        return Act(BeamStationary), false;
      }
      verdict := Nothing;
    }

    /** Old slots go, and a lease that has run out costs one M5. */
    static method KeepHouse(now: nat, aim: Credits.AimingBeam, steering: Credits.Steering, port: Credits.Port)
      returns (released: bool)
      requires steering.Valid()
      modifies aim`until, steering`injected, steering`written, steering`issued
      ensures released <==> Credits.RunOut(old(aim.Terms()), now)
      ensures aim.until == if released then 0 else old(aim.until)
      ensures steering.Valid()
      ensures var left := Credits.Swept(old(steering.injected), now);
              && |left| <= Credits.OUTSTANDING_LINES
              && steering.injected == (if released && !steering.client
                                       then Credits.Taken(left, old(steering.issued), 1, now, port.Works?) else left)
              && steering.written == old(steering.written)
                                     + (if released && !steering.client && |left| < Credits.OUTSTANDING_LINES
                                        then Credits.Out(port, Terminated(["M5"], '\n')) else "")
    {
      steering.ForgetStaleLines(now);
      released := aim.Expired(now);
      if released {
        var _ := steering.SendLines(["M5"], now, port);
      }
    }

    /** What the rest of a tick does, with the house in order. */
    method Examine(l: Look) returns (outcome: Outcome)
      requires l.Examined()
      modifies this
      ensures (State(), outcome) == Next(rules, old(State()), l)
    {
      outcome := UNEXAMINED.(saidSilent := l.silent && !silenceReported);
      silenceReported := l.silent;
      if l.coordinates.hasPosition && (l.coordinates.position != lastPosition || movedAt.None?) {
        lastPosition, movedAt := l.coordinates.position, Some(l.now);
      }
      assert State().timers == Followed(old(State().timers), l);
      if l.output.beam != BeamOn || Credits.Live(l.lease, l.now) {
        beamOnSince := None;
        return;
      }
      if beamOnSince.None? {
        beamOnSince := Some(l.now);
      }
      assert State().timers == Viewed(old(State().timers), l);
      var verdict, saidStale := Judge(l);
      outcome := outcome.(verdict := verdict, saidStale := saidStale);
      if !verdict.Act? || !l.idle {
        return;
      }
      beamOnSince, movedAt := None, None;
      outcome := outcome.(acted := true);
    }

    method Tick(l: Look, aim: Credits.AimingBeam, steering: Credits.Steering, port: Credits.Port)
      returns (outcome: Outcome, released: bool)
      requires l.lease == aim.Terms() && steering.Valid()
      modifies this, aim`until, steering`injected, steering`written, steering`issued
      ensures (State(), outcome) == Next(rules, old(State()), l)
      ensures released <==> l.Examined() && Credits.RunOut(l.lease, l.now)
      ensures aim.until == if released then 0 else old(aim.until)
      ensures steering.Valid()
      ensures !l.Examined() ==> steering.injected == old(steering.injected) && steering.written == old(steering.written)
      // One M5 is written for a lease that has run out, unless a client is in
      // charge, every slot is taken or the port fails.
      ensures l.Examined() ==>
                var left := Credits.Swept(old(steering.injected), l.now);
                && |left| <= Credits.OUTSTANDING_LINES
                && steering.injected == (if released && !steering.client
                                         then Credits.Taken(left, old(steering.issued), 1, l.now, port.Works?) else left)
                && steering.written == old(steering.written)
                                       + (if released && !steering.client && |left| < Credits.OUTSTANDING_LINES
                                          then Credits.Out(port, Terminated(["M5"], '\n')) else "")
    {
      if !l.port {
        beamOnSince, movedAt := None, None;
        return UNEXAMINED, false;
      }
      if !l.asked {
        return UNEXAMINED, false;
      }
      released := KeepHouse(l.now, aim, steering, port);
      // The lease the machine is judged by is the one that is left.
      assert Credits.Live(aim.Terms(), l.now) == Credits.Live(l.lease, l.now);
      outcome := Examine(l);
    }
  }

  // Whole runs of the watchdog, told apart from its timers.

  function After(rules: Rules, looks: seq<Look>): Books {
    if looks == [] then AT_START
    else Next(rules, After(rules, looks[..|looks| - 1]), looks[|looks| - 1]).0
  }

  /** What came of the k-th tick. */
  function OutcomeAt(rules: Rules, looks: seq<Look>, k: nat): Outcome
    requires k < |looks|
  {
    Next(rules, After(rules, looks[..k]), looks[k]).1
  }

  /** The timers as the last tick of a run saw them, before anything it did. */
  function ViewedAt(rules: Rules, looks: seq<Look>): Timers
    requires looks != []
  {
    var last := |looks| - 1;
    Viewed(After(rules, looks[..last]).timers, looks[last])
  }

  /** What the two timers time: a beam that stays on, and a head that stays
      where it is. */
  datatype Condition = Lit | Resting

  function Timer(c: Condition, t: Timers): Option<nat> {
    if c == Lit then t.beamOnSince else t.movedAt
  }

  predicate Starts(c: Condition, l: Look) {
    l.Examined() && if c == Lit then l.Burning() else l.coordinates.hasPosition
  }

  predicate Keeps(c: Condition, first: Look, l: Look) {
    && l.port
    && (l.Examined() ==>
          if c == Lit then l.Burning()
          else l.coordinates.hasPosition ==> l.coordinates.position == first.coordinates.position)
  }

  /** The condition has held from tick i on: it began there, the port stayed
      open, every tick that looked found it so, and nothing was done about it. */
  ghost predicate Lasting(rules: Rules, looks: seq<Look>, c: Condition, i: nat) {
    && i < |looks| && Starts(c, looks[i])
    && (forall k | i <= k < |looks| :: Keeps(c, looks[i], looks[k]))
    && (forall k: nat | i <= k < |looks| - 1 :: !OutcomeAt(rules, looks, k).acted)
  }

  lemma OutcomeOfPrefix(rules: Rules, looks: seq<Look>, k: nat)
    requires k < |looks| - 1
    ensures OutcomeAt(rules, looks[..|looks| - 1], k) == OutcomeAt(rules, looks, k)
  {
    assert looks[..|looks| - 1][..k] == looks[..k];
  }

  lemma LastingStep(rules: Rules, looks: seq<Look>, c: Condition, i: nat)
    requires i < |looks| - 1
    ensures var last := |looks| - 1;
            Lasting(rules, looks, c, i) <==>
            && Lasting(rules, looks[..last], c, i)
            && !OutcomeAt(rules, looks, last - 1).acted
            && Keeps(c, looks[i], looks[last])
  {
    var last := |looks| - 1;
    var before := looks[..last];
    assert forall k | 0 <= k < last :: before[k] == looks[k];
    forall k: nat | k < last - 1
      ensures OutcomeAt(rules, before, k) == OutcomeAt(rules, looks, k)
    {
      OutcomeOfPrefix(rules, looks, k);
    }
    if Lasting(rules, before, c, i) && !OutcomeAt(rules, looks, last - 1).acted && Keeps(c, looks[i], looks[last]) {
      assert forall k | i <= k < last :: Keeps(c, before[i], before[k]);
      assert Lasting(rules, looks, c, i);
    } else if Lasting(rules, looks, c, i) {
      assert forall k | i <= k < last :: Keeps(c, looks[i], looks[k]);
      assert Lasting(rules, before, c, i);
    }
  }

  /** Tick i is when the condition began, if t shows a time, and that time is
      when; if t shows none, there is no such tick. */
  ghost predicate Began(rules: Rules, looks: seq<Look>, c: Condition, t: Option<nat>, i: nat) {
    && (t.None? ==> forall j: nat :: !Lasting(rules, looks, c, j))
    && (t.Some? ==> && Lasting(rules, looks, c, i) && looks[i].now == t.value
                    && forall j: nat | Lasting(rules, looks, c, j) :: i <= j)
  }

  lemma BeganJustNow(rules: Rules, looks: seq<Look>, c: Condition)
    requires looks != []
    ensures var last: nat := |looks| - 1;
            Lasting(rules, looks, c, last) <==> Starts(c, looks[last])
  {}

  /** With nothing lasting from before, the condition begins now or not at all. */
  lemma BeginsAnew(rules: Rules, looks: seq<Look>, c: Condition, t: Option<nat>)
    requires looks != []
    requires forall j: nat | j < |looks| - 1 :: !Lasting(rules, looks, c, j)
    requires t == if Starts(c, looks[|looks| - 1]) then Some(looks[|looks| - 1].now) else None
    ensures Began(rules, looks, c, t, |looks| - 1)
  {
    BeganJustNow(rules, looks, c);
  }

  /** What lasted before still does, and from the same tick. */
  lemma GoesOn(rules: Rules, looks: seq<Look>, c: Condition, t: Option<nat>, i: nat)
    requires |looks| > 1 && t.Some? && Began(rules, looks[..|looks| - 1], c, t, i)
    requires !OutcomeAt(rules, looks, |looks| - 2).acted && Keeps(c, looks[i], looks[|looks| - 1])
    ensures Began(rules, looks, c, t, i)
  {
    LastingStep(rules, looks, c, i);
    forall j: nat | Lasting(rules, looks, c, j)
      ensures i <= j
    {
      if j < |looks| - 1 { LastingStep(rules, looks, c, j); }
    }
  }

  /** Nothing lasts past a tick that did something, or one that breaks it. */
  lemma IsOver(rules: Rules, looks: seq<Look>, c: Condition, t: Option<nat>, i: nat)
    requires |looks| > 1 && Began(rules, looks[..|looks| - 1], c, t, i)
    requires t.None? || OutcomeAt(rules, looks, |looks| - 2).acted || !Keeps(c, looks[i], looks[|looks| - 1])
    ensures forall j: nat | j < |looks| - 1 :: !Lasting(rules, looks, c, j)
  {
    forall j: nat | j < |looks| - 1
      ensures !Lasting(rules, looks, c, j)
    {
      LastingStep(rules, looks, c, j);
      var before := looks[..|looks| - 1];
      if Lasting(rules, before, c, j) && t.Some? {
        assert Keeps(c, before[i], before[j]);
      }
    }
  }

  lemma AfterIsViewed(rules: Rules, looks: seq<Look>)
    requires looks != []
    ensures var seen := ViewedAt(rules, looks);
            After(rules, looks).timers == if OutcomeAt(rules, looks, |looks| - 1).acted then Stopped(seen) else seen
  {}

  /** A timer shows when its condition began, and is not running if and only if
      there is no such moment. */
  lemma {:induction false} TimersTellTheHistory(rules: Rules, looks: seq<Look>, c: Condition) returns (i: nat)
    requires looks != []
    ensures Began(rules, looks, c, Timer(c, ViewedAt(rules, looks)), i)
    ensures c == Resting && ViewedAt(rules, looks).movedAt.Some? ==>
              i < |looks| && ViewedAt(rules, looks).lastPosition == looks[i].coordinates.position
  {
    var last := |looks| - 1;
    var t := Timer(c, ViewedAt(rules, looks));
    if last == 0 {
      BeginsAnew(rules, looks, c, t);
      return 0;
    }
    var before := looks[..last];
    i := TimersTellTheHistory(rules, before, c);
    AfterIsViewed(rules, before);
    OutcomeOfPrefix(rules, looks, last - 1);
    var had := Timer(c, ViewedAt(rules, before));
    if had.Some? && !OutcomeAt(rules, looks, last - 1).acted && Keeps(c, looks[i], looks[last]) {
      GoesOn(rules, looks, c, had, i);
    } else {
      IsOver(rules, looks, c, had, i);
      BeginsAnew(rules, looks, c, t);
      i := last;
    }
  }

  ghost predicate ClockRuns(looks: seq<Look>) {
    forall i, j | 0 <= i <= j < |looks| :: looks[i].now <= looks[j].now
  }

  /** By the last tick the condition has lasted for longer than this. */
  ghost predicate LastedFor(rules: Rules, looks: seq<Look>, c: Condition, grace: nat) {
    exists i: nat :: Lasting(rules, looks, c, i) && looks[|looks| - 1].now - looks[i].now > grace
  }

  lemma PastMeansLasted(rules: Rules, looks: seq<Look>, c: Condition, grace: nat)
    requires looks != [] && ClockRuns(looks)
    ensures Past(Timer(c, ViewedAt(rules, looks)), grace, looks[|looks| - 1].now) <==> LastedFor(rules, looks, c, grace)
  {
    var i := TimersTellTheHistory(rules, looks, c);
    if j: nat :| Lasting(rules, looks, c, j) && looks[|looks| - 1].now - looks[j].now > grace {
      assert looks[i].now <= looks[j].now;
    }
  }

  /** The rules in terms of what was seen, with no timers in them. */
  ghost function Deserved(rules: Rules, looks: seq<Look>): Verdict
    requires looks != []
  {
    var l := looks[|looks| - 1];
    if !l.Examined() || !l.Burning() || rules.policy == PolicyNone then Nothing
    else if !l.client && LastedFor(rules, looks, Lit, rules.beamGrace) then Act(BeamUnattended)
    else if rules.stationaryBeam > 0 && l.coordinates.hasPosition
            && LastedFor(rules, looks, Lit, rules.stationaryBeam)
            && LastedFor(rules, looks, Resting, rules.stationaryBeam)
    then if l.Evident() then Act(BeamStationary) else OnlyAMemory
    else Nothing
  }

  /** Every tick of every run does what the history calls for: soundness and
      response in one. */
  lemma VerdictIsDeserved(rules: Rules, looks: seq<Look>)
    requires looks != [] && ClockRuns(looks)
    ensures var o := OutcomeAt(rules, looks, |looks| - 1);
            && o.verdict == Deserved(rules, looks)
            && (o.acted <==> Deserved(rules, looks).Act? && looks[|looks| - 1].idle)
  {
    PastMeansLasted(rules, looks, Lit, rules.beamGrace);
    PastMeansLasted(rules, looks, Lit, rules.stationaryBeam);
    PastMeansLasted(rules, looks, Resting, rules.stationaryBeam);
  }

  /** A beam that burns with nobody attached, from tick i for longer than the
      grace, is acted on by the first tick past the grace that finds no
      intervention under way - however many found one before it. */
  lemma UnattendedBeamIsActedOn(rules: Rules, looks: seq<Look>, i: nat) returns (k: nat)
    requires i < |looks| && ClockRuns(looks) && rules.policy != PolicyNone
    requires forall k | i <= k < |looks| :: looks[k].Examined() && looks[k].Burning()
    requires var last := looks[|looks| - 1]; !last.client && last.idle && last.now - looks[i].now > rules.beamGrace
    ensures i <= k < |looks| && OutcomeAt(rules, looks, k).acted
    ensures (forall j | i <= j < |looks| - 1 :: !looks[j].idle) ==>
              k == |looks| - 1 && OutcomeAt(rules, looks, k).verdict == Act(BeamUnattended)
  {
    if early: nat :| i <= early < |looks| - 1 && OutcomeAt(rules, looks, early).acted {
      return early;
    }
    k := |looks| - 1;
    assert Lasting(rules, looks, Lit, i) by {
      assert forall k | i <= k < |looks| :: Keeps(Lit, looks[i], looks[k]);
    }
    VerdictIsDeserved(rules, looks);
  }

  /** The grace is for the beam, not for the lack of a client: it runs while somebody
      is attached, and if the beam has been on for longer than that when they leave,
      the very next tick acts - unless the head stood still and it was acted on
      before. */
  lemma LeavingIsActedOnAtOnce(rules: Rules, looks: seq<Look>, i: nat)
    requires i < |looks| && ClockRuns(looks) && rules.policy != PolicyNone
    requires forall k | i <= k < |looks| :: looks[k].Examined() && looks[k].Burning()
    requires forall k | i <= k < |looks| - 1 :: looks[k].client
    requires var last := looks[|looks| - 1]; !last.client && last.idle && last.now - looks[i].now > rules.beamGrace
    ensures var left := OutcomeAt(rules, looks, |looks| - 1);
            || (left.verdict == Act(BeamUnattended) && left.acted)
            || (rules.stationaryBeam > 0
                && exists k: nat :: i <= k < |looks| - 1 && OutcomeAt(rules, looks, k).verdict == Act(BeamStationary))
  {
    if early: nat :| i <= early < |looks| - 1 && OutcomeAt(rules, looks, early).acted {
      assert looks[early].client;
      assert OutcomeAt(rules, looks, early).verdict == Act(BeamStationary);
    } else {
      assert Lasting(rules, looks, Lit, i) by {
        assert forall k | i <= k < |looks| :: Keeps(Lit, looks[i], looks[k]);
      }
      VerdictIsDeserved(rules, looks);
    }
  }

  /** From tick i on the lease on the aiming beam is changed by the ticks, and by
      anything between them but somebody holding the beam. */
  ghost predicate NotHeldAgain(looks: seq<Look>, i: nat, between: seq<seq<Credits.LeaseStep>>) {
    && |between| == |looks|
    && forall k | i <= k < |looks| - 1 ::
         && Credits.NobodyHolds(between[k])
         && looks[k + 1].lease == Credits.LeaseRun(Credits.LeaseNext(looks[k].lease, Credits.Look(looks[k].now)), between[k])
  }

  lemma {:induction false} FreeFromThenOn(looks: seq<Look>, i: nat, between: seq<seq<Credits.LeaseStep>>, k: nat)
    requires i < k < |looks| && NotHeldAgain(looks, i, between) && Credits.RunOut(looks[i].lease, looks[i].now)
    ensures looks[k].lease.until == 0
    decreases k
  {
    assert Credits.NobodyHolds(between[k - 1]);
    if k == i + 1 {
      Credits.FoundRunOutOnce(looks[i].lease, looks[i].now, between[i], 0);
    } else {
      FreeFromThenOn(looks, i, between, k - 1);
      Credits.FreeUntilHeld(looks[k - 1].lease, between[k - 1]);
    }
  }

  /** The tick that finds the lease run out is the only one that writes its M5. If
      that did not reach the controller and the beam stays on, no later tick writes
      it, and what is left is the rule for a beam nobody attends, from that tick on. */
  lemma LostReleaseIsLeftToTheRules(rules: Rules, looks: seq<Look>, i: nat, between: seq<seq<Credits.LeaseStep>>)
    returns (k: nat)
    requires i < |looks| && ClockRuns(looks) && rules.policy != PolicyNone
    requires forall k | i <= k < |looks| :: looks[k].Examined() && looks[k].output.beam == BeamOn
    requires NotHeldAgain(looks, i, between) && Credits.RunOut(looks[i].lease, looks[i].now)
    requires var last := looks[|looks| - 1]; !last.client && last.idle && last.now - looks[i].now > rules.beamGrace
    ensures forall j | i < j < |looks| :: !Credits.RunOut(looks[j].lease, looks[j].now)
    ensures i <= k < |looks| && OutcomeAt(rules, looks, k).acted
  {
    forall j | i < j < |looks|
      ensures looks[j].lease.until == 0
    {
      FreeFromThenOn(looks, i, between, j);
    }
    k := UnattendedBeamIsActedOn(rules, looks, i);
  }

  /** The head may not have moved for the whole time, and still nothing is done
      about it on old evidence: at most thirty reports since the outputs were
      mentioned. */
  lemma StationaryBeamIsEvident(rules: Rules, looks: seq<Look>) returns (i: nat, j: nat)
    requires looks != [] && ClockRuns(looks)
    requires OutcomeAt(rules, looks, |looks| - 1).verdict == Act(BeamStationary)
    ensures var now := looks[|looks| - 1].now;
            && i < |looks| && now - looks[i].now > rules.stationaryBeam
            && j < |looks| && now - looks[j].now > rules.stationaryBeam
    ensures forall k | i <= k < |looks| && looks[k].Examined() ::
              looks[k].output.beam == BeamOn && !Credits.Live(looks[k].lease, looks[k].now)
    ensures forall k | j <= k < |looks| && looks[k].Examined() && looks[k].coordinates.hasPosition ::
              looks[k].coordinates.position == looks[j].coordinates.position
    ensures forall k | i <= k < |looks| || j <= k < |looks| :: looks[k].port
    ensures var o := looks[|looks| - 1].output; o.reports - o.beamReports <= EVIDENCE_REPORTS
  {
    VerdictIsDeserved(rules, looks);
    i :| Lasting(rules, looks, Lit, i) && looks[|looks| - 1].now - looks[i].now > rules.stationaryBeam;
    j :| Lasting(rules, looks, Resting, j) && looks[|looks| - 1].now - looks[j].now > rules.stationaryBeam;
    assert forall k | i <= k < |looks| :: Keeps(Lit, looks[i], looks[k]);
    assert forall k | j <= k < |looks| :: Keeps(Resting, looks[j], looks[k]);
  }

  /** Of the two tests of the evidence the one for a missing date never decides
      anything: a beam that is known has one. */
  lemma OnlyTheAgeDecides(l: Look, uses: seq<Use>, parse: Parser)
    requires forall i | 0 <= i < |uses| :: uses[i].Feed? ==> uses[i].unix > 0
    requires l.output == Used(NO_STREAM, uses, parse).reading.machine.output && l.Burning()
    ensures l.Evident() <==> l.output.reports - l.output.beamReports <= EVIDENCE_REPORTS
  {
    KnownBeamHasADate(uses, parse);
  }

  /** That the evidence is old is said once, until the beam has been acted on as
      stationary or at least found worth it. */
  lemma {:induction false} StalenessIsSaidOnce(rules: Rules, looks: seq<Look>, i: nat, j: nat)
    requires i < j < |looks| && OutcomeAt(rules, looks, i).saidStale
    requires forall k: nat | i < k < j :: OutcomeAt(rules, looks, k).verdict != Act(BeamStationary)
    ensures !OutcomeAt(rules, looks, j).saidStale && After(rules, looks[..j]).staleReported
    decreases j
  {
    assert looks[..j][..j - 1] == looks[..j - 1] && looks[..j][j - 1] == looks[j - 1];
    if j - 1 > i {
      StalenessIsSaidOnce(rules, looks, i, j - 1);
    }
  }
}
