/** The decision table of an intervention, with nothing in it but its arguments. */
module Safety {
  import opened Grbl
  import opened Observer

  datatype Policy = PolicyNone | PolicyHold | PolicyReset

  datatype Trigger = ClientGone | BeamUnattended | BeamStationary

  datatype Step = StepNone | StepFeedHold | StepSpindleStop | StepSoftReset | StepUnconfirmed
  {
    /** Something is sent, rather than concluded. */
    predicate Commands() { StepFeedHold? || StepSpindleStop? || StepSoftReset? }
  }

  datatype Tried = Tried(feedHold: bool, spindleStop: bool, softReset: bool)
  {
    predicate Has(step: Step) {
      match step
      case StepFeedHold => feedHold
      case StepSpindleStop => spindleStop
      case StepSoftReset => softReset
      case _ => false
    }

    function With(step: Step): Tried {
      match step
      case StepFeedHold => this.(feedHold := true)
      case StepSpindleStop => this.(spindleStop := true)
      case StepSoftReset => this.(softReset := true)
      case _ => this
    }

    function Left(): nat {
      (if feedHold then 0 else 1) + (if spindleStop then 0 else 1) + (if softReset then 0 else 1)
    }
  }

  const NOTHING_TRIED := Tried(false, false, false)

  /** What a decision sees of the controller. */
  datatype Sight = Sight(state: MachineState, beam: Beam, laserMode: Setting)

  datatype Decision = Decision(step: Step, waitForRest: bool)

  function Decide(policy: Policy, trigger: Trigger, sight: Sight, tried: Tried): Decision {
    if policy == PolicyNone then Decision(StepNone, false)
    // Two kinds of first reading need no intervention.
    else if !sight.state.Moving() && sight.beam != BeamOn && tried == NOTHING_TRIED then Decision(StepNone, false)
    else if sight.state.AtRest() && sight.beam == BeamOff && tried == NOTHING_TRIED then Decision(StepNone, false)
    // Motion comes before the beam, and is held once.
    else if !tried.feedHold && !sight.state.AtRest() then Decision(StepFeedHold, false)
    else
      match sight.beam
      case BeamOn =>
        // A hold makes the gentler command worth a try.
        if sight.state == Hold && !tried.spindleStop then Decision(StepSpindleStop, false)
        else if tried.softReset then Decision(StepUnconfirmed, false)
        else Decision(StepSoftReset, false)
      case BeamOff =>
        if trigger == ClientGone && policy == PolicyReset && !tried.softReset then Decision(StepSoftReset, true)
        else Decision(StepNone, false)
      case BeamUnknown =>
        // A spindle, which is what laser mode off makes of the output, survives a hold.
        if sight.laserMode == SettingOff && !tried.softReset then Decision(StepSoftReset, false)
        else if trigger == ClientGone && policy == PolicyReset && !tried.softReset then Decision(StepSoftReset, true)
        else if tried.softReset then Decision(StepNone, false)
        else Decision(StepUnconfirmed, false)
  }

  /** Each step is taken only on the evidence it needs. */
  lemma StepsRestOnEvidence(policy: Policy, trigger: Trigger, sight: Sight, tried: Tried)
    ensures var d := Decide(policy, trigger, sight, tried);
            && (d.step.Commands() ==> policy != PolicyNone && !tried.Has(d.step))
            && (d.step.StepFeedHold? ==> !sight.state.AtRest())
            && (d.step.StepSpindleStop? ==> sight.state == Hold && sight.beam == BeamOn)
            && (d.waitForRest ==> d.step.StepSoftReset? && sight.beam != BeamOn)
  {}

  /** A beam that is known to be on is never left at that. */
  lemma KnownBeamIsDealtWith(policy: Policy, trigger: Trigger, sight: Sight, tried: Tried)
    requires policy != PolicyNone && sight.beam == BeamOn
    ensures var d := Decide(policy, trigger, sight, tried);
            d.step.Commands() || (d.step.StepUnconfirmed? && tried.softReset)
  {}

  /** The steps of a ladder whose readings are whatever they like: one for every
      decision until one sends nothing. */
  function Climb(policy: Policy, trigger: Trigger, tried: Tried, sights: seq<Sight>): seq<Step>
    decreases |sights|
  {
    if sights == [] then []
    else
      var step := Decide(policy, trigger, sights[0], tried).step;
      [step] + if step.Commands() then Climb(policy, trigger, tried.With(step), sights[1..]) else []
  }

  /** Against any controller each command is sent at most once, and with all
      three sent the next decision sends nothing. */
  lemma {:induction false} LadderTerminates(policy: Policy, trigger: Trigger, tried: Tried, sights: seq<Sight>)
    ensures var steps := Climb(policy, trigger, tried, sights);
            && |steps| <= tried.Left() + 1
            && (|steps| == tried.Left() + 1 ==> !steps[|steps| - 1].Commands())
            && (|steps| < |sights| ==> steps != [] && !steps[|steps| - 1].Commands())
            && (forall i | 0 <= i < |steps| :: steps[i].Commands() ==> !tried.Has(steps[i]))
            && (forall i, j | 0 <= i < j < |steps| :: steps[i] != steps[j])
    decreases |sights|
  {
    if sights != [] {
      var step := Decide(policy, trigger, sights[0], tried).step;
      StepsRestOnEvidence(policy, trigger, sights[0], tried);
      if step.Commands() {
        LadderTerminates(policy, trigger, tried.With(step), sights[1..]);
        var later := Climb(policy, trigger, tried.With(step), sights[1..]);
        assert forall i | 0 <= i < |later| :: later[i] != step;
      }
    }
  }

  /** Whether a first reading is one the ladder does anything about. */
  predicate Actionable(sight: Sight) {
    && (sight.state.Moving() || sight.beam == BeamOn)
    && !(sight.state.AtRest() && sight.beam == BeamOff)
  }

  lemma {:induction false} ResetIsReached(trigger: Trigger, tried: Tried, sights: seq<Sight>)
    requires trigger == ClientGone && !tried.softReset && |sights| > tried.Left()
    requires tried == NOTHING_TRIED ==> Actionable(sights[0])
    ensures StepSoftReset in Climb(PolicyReset, trigger, tried, sights)
    decreases |sights|
  {
    var step := Decide(PolicyReset, trigger, sights[0], tried).step;
    if step != StepSoftReset {
      assert step.Commands();
      ResetIsReached(trigger, tried.With(step), sights[1..]);
    }
  }

  /** A client lost under the reset policy ends in exactly one soft reset,
      whatever the controller says later, if and only if its first reading is one
      to act on; otherwise in nothing at all. */
  lemma LostClientMeansOneReset(sights: seq<Sight>)
    requires |sights| >= 4
    ensures var steps := Climb(PolicyReset, ClientGone, NOTHING_TRIED, sights);
            && (Actionable(sights[0]) <==> StepSoftReset in steps)
            && (!Actionable(sights[0]) <==> steps == [StepNone])
            && (forall i, j | 0 <= i < j < |steps| :: steps[i] != steps[j])
  {
    LadderTerminates(PolicyReset, ClientGone, NOTHING_TRIED, sights);
    if Actionable(sights[0]) { ResetIsReached(ClientGone, NOTHING_TRIED, sights); }
  }

  /** Of the states in which the axes have not stopped there is one that is not
      acted on: the empty state after a banner, unless the beam is on. */
  lemma NotAtRestIsActedOnUnlessUnknown(sight: Sight)
    requires !sight.state.AtRest()
    ensures Actionable(sight) <==> sight.state != Unknown || sight.beam == BeamOn
  {}

  /** A banner clears the state, so a feed hold can come after the reset that
      caused it: the ladder has no fixed order. */
  lemma HoldAfterReset()
    ensures Climb(PolicyHold, BeamStationary, NOTHING_TRIED,
                  [Sight(Idle, BeamOn, SettingOn), Sight(Unknown, BeamOff, SettingOn), Sight(Idle, BeamOff, SettingOn)])
            == [StepSoftReset, StepFeedHold, StepNone]
  {
    var a, b, c := Sight(Idle, BeamOn, SettingOn), Sight(Unknown, BeamOff, SettingOn), Sight(Idle, BeamOff, SettingOn);
    assert [a, b, c][1..] == [b, c] && [b, c][1..] == [c];
  }
}
