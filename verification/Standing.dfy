/** The watchdog and the ladder together: what one tick of supervision does to
    the machine. */
module Standing {
  import opened Grbl
  import opened Observer
  import opened Safety
  import Credits
  import Intervene
  import Supervise
  import Wire

  /** A tick that acts puts the output out, whatever the firmware ignores, when
      the machine is left to the bridge meanwhile; one that does not act sends
      nothing. The toggle never lights the output of a machine nobody is attached
      to, once a question asked since the last client left has been answered. */
  method TickAndIntervene(watch: Supervise.Watch, bridge: Intervene.Bridge, look: Supervise.Look,
                          aim: Credits.AimingBeam, steering: Credits.Steering, port: Credits.Port,
                          ghost left: Wire.Wire, ghost since: seq<(Wire.Event, Wire.Choice)>)
      returns (outcome: Supervise.Outcome)
    requires bridge.Valid() && bridge.beamPolls >= Wire.OVERRIDE_EVERY && steering.Valid()
    requires watch.rules.policy == bridge.policy
    requires look.client == bridge.client.Some?
    requires look.output == bridge.wire.machine.output && look.lease == aim.Terms()
    modifies watch, aim, steering, bridge
    ensures bridge.Valid() && steering.Valid()
    ensures (watch.State(), outcome) == Supervise.Next(watch.rules, old(watch.State()), look)
    ensures outcome.acted && bridge.Undisturbed() ==> !bridge.wire.controller.output
    ensures outcome.acted && !look.client && Intervene.Answered(left, since, old(bridge.wire)) ==>
              old(bridge.log) <= bridge.log && Intervene.ToggleOnlyPutsOut(bridge.log[|old(bridge.log)|..], true)
    ensures outcome.acted ==> old(bridge.wire.machine.output.beam) == BeamOn && bridge.policy != PolicyNone
    ensures outcome.acted && bridge.log != old(bridge.log) ==> bridge.droppedByUs == old(bridge.client)
    ensures !outcome.acted ==> bridge.wire == old(bridge.wire) && bridge.log == old(bridge.log)
  {
    var released;
    outcome, released := watch.Tick(look, aim, steering, port);
    if outcome.acted {
      if Intervene.Answered(left, since, bridge.wire) {
        Intervene.AnsweredIsCurrent(left, since, bridge.wire);
      }
      var end := bridge.Intervene(outcome.verdict.trigger);
    }
  }
}
