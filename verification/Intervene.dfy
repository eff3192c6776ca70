/** Carrying out the ladder, one step at a time, against a controller that is
    asked again after each. */
module Intervene {
  import opened Text
  import opened Grbl
  import opened Observer
  import opened Safety
  import opened Wire

  /** The command that carries out a step. */
  function CommandFor(step: Step): Command
    requires step.Commands()
  {
    match step
    case StepFeedHold => Command.FeedHold
    case StepSpindleStop => Command.SpindleStop
    case StepSoftReset => Command.SoftReset
  }

  function StepFor(command: Command): Step {
    match command
    case FeedHold => StepFeedHold
    case SpindleStop => StepSpindleStop
    case SoftReset => StepSoftReset
  }

  /** A command on the wire: the state the bridge had last read, the controller
      when it came and when it had been dealt with, and whether the bridge had
      the machine to itself. */
  datatype Entry = Entry(command: Command, read: MachineState, before: Controller, after: Controller, alone: bool)

  /** How an intervention ended. */
  datatype End = Decided(step: Step) | Stopping | WriteFailed | Newcomer | OutOfSteps

  /** What a controller left to itself may have done in between: its output has
      not come on, and a hold has stayed exactly what it was. */
  predicate Quieter(before: Controller, after: Controller) {
    && (after.output ==> before.output)
    && (before.state == Hold ==> after.state == Hold && after.output == before.output)
  }

  /** A question asked, and everything read up to its answer. */
  function AskedAndRead(w: Wire, ch: Choice): Wire {
    var asked := Ask(w, ch);
    Arrive(asked, |asked.inflight|, ch.unix)
  }

  /** Reading everything that is in flight leaves the reading at the last of it. */
  lemma {:induction false} ArriveAll(w: Wire, unix: nat)
    requires Sound(w) && w.inflight != []
    ensures var last := w.inflight[|w.inflight| - 1];
            var w' := Arrive(w, |w.inflight|, unix);
            && Sound(w') && w'.controller == w.controller
            && w'.inflight == [] && w'.seen == last.output
            && (last.report.kind == Status ==> w'.machine.state == last.report.fields.state)
            && (Definite(last.report) ==> w'.machine.output.beam != BeamUnknown)
    decreases |w.inflight|
  {
    var next := Deliver(w, unix);
    SoundDeliver(w, unix);
    assert Honest(w.inflight[0]);
    BeamAfter(w.machine, w.inflight[0].report, unix);
    if next.inflight != [] {
      ArriveAll(next, unix);
    } else {
      assert Arrive(next, |w.inflight| - 1, unix) == next;
    }
  }

  lemma AnsweredIsCaught(w: Wire, ch: Choice)
    requires Sound(w)
    ensures var after := AskedAndRead(w, ch);
            && Sound(after) && Caught(after) && Quieter(w.controller, after.controller)
            && (after.machine.output.beam == BeamUnknown ==> after.controller.since == w.controller.since + 1)
  {
    SoundAsk(w, ch);
    ArriveAll(Ask(w, ch), ch.unix);
  }

  class Bridge {
    const policy: Policy
    // How often the budgets allow asking: BeamConfirm over the beam poll
    // interval, HoldSettle over the rest poll interval.
    const beamPolls: nat
    const restPolls: nat
    const env: nat -> Choice

    var wire: Wire
    var clock: nat
    var client: Option<nat>
    var droppedByUs: Option<nat>
    var stopping: bool
    var failed: bool
    var asked: nat
    var lastIntervention: Option<Step>
    ghost var log: seq<Entry>

    ghost predicate Valid() reads this { Sound(wire) }

    /** Nobody attached, nothing failed, nobody has asked the daemon to stop. */
    predicate Undisturbed() reads this { client.None? && !failed && !stopping }

    constructor (policy: Policy, beamPolls: nat, restPolls: nat, env: nat -> Choice, wire: Wire, client: Option<nat>)
      requires Sound(wire)
      ensures Valid() && this.wire == wire && this.client == client
      ensures this.policy == policy && this.beamPolls == beamPolls && this.restPolls == restPolls
      ensures !failed && !stopping && log == [] && asked == 0
    {
      this.policy, this.beamPolls, this.restPolls, this.env := policy, beamPolls, restPolls, env;
      this.wire, this.client := wire, client;
      clock, droppedByUs, stopping, failed, asked, lastIntervention := 0, None, false, false, 0, None;
      log := [];
    }

    /** What happens by itself between two things the bridge does. */
    method Elapse() returns (ch: Choice)
      requires Valid()
      modifies this`wire, this`clock, this`client, this`stopping
      ensures Valid()
      ensures Undisturbed() ==> old(Undisturbed())
      ensures old(client).None? ==> Quieter(old(wire.controller), wire.controller)
      ensures wire.controller.since == old(wire.controller.since)
      ensures old(wire.inflight) == [] ==> wire.machine == old(wire.machine)
      ensures old(client).Some? ==> client == old(client)
    {
      ch := env(clock);
      SoundDrift(wire, ch, client.Some?);
      wire := Drift(wire, ch, client.Some?);
      SoundArrive(wire, ch.delivered, ch.unix);
      wire := Arrive(wire, ch.delivered, ch.unix);
      if ch.client && client.None? {
        client := Some(clock);
      }
      stopping := stopping || ch.stopping;
      clock := clock + 1;
    }

    method WriteOwn(command: Command) returns (ok: bool)
      requires Valid()
      modifies this`wire, this`clock, this`client, this`stopping, this`failed, this`log
      ensures Valid()
      ensures Undisturbed() ==> old(Undisturbed())
      ensures !ok ==> failed && log == old(log)
      ensures ok ==> |log| == |old(log)| + 1 && old(log) <= log
      ensures ok ==>
                var e := log[|old(log)|];
                && e.command == command
                && (e.alone <==> Undisturbed())
                && (old(client).None? ==> Quieter(old(wire.controller), e.before))
                && (exists ch :: e.after == Handled(e.before, command, ch))
                && e.after == wire.controller
                && (old(wire.inflight) == [] ==> e.read == old(wire.machine.state))
      ensures old(client).Some? ==> client == old(client)
    {
      var ch := Elapse();
      if !ch.writes {
        failed := true;
        return false;
      }
      log := log + [Entry(command, wire.machine.state, wire.controller, Handled(wire.controller, command, ch), Undisturbed())];
      SoundSend(wire, command, ch);
      wire := Send(wire, command, ch);
      ok := true;
    }

    /** Writes a status request and waits out the interval in which it is
        answered. */
    method AskAndWait() returns (ok: bool)
      requires Valid()
      modifies this`wire, this`clock, this`client, this`stopping, this`failed, this`asked
      ensures Valid()
      ensures Undisturbed() ==> old(Undisturbed())
      ensures old(client).None? ==> Quieter(old(wire.controller), wire.controller)
      ensures old(client).Some? ==> client == old(client)
      ensures asked == old(asked) + (if ok then 1 else 0)
      ensures !ok ==> failed
      ensures ok ==> Caught(wire)
      ensures ok && wire.machine.output.beam == BeamUnknown ==> wire.controller.since == old(wire.controller.since) + 1
    {
      var ch := Elapse();
      if !ch.writes {
        failed := true;
        return false;
      }
      asked := asked + 1;
      AnsweredIsCaught(wire, ch);
      wire := AskedAndRead(wire, ch);
      ok := true;
    }

    /** Forgets the last reading of the beam and asks for a new one, as often as the
        budget has it. */
    method PollBeam() returns (beam: Beam)
      requires Valid()
      modifies this`wire, this`clock, this`client, this`stopping, this`failed, this`asked
      ensures Valid()
      ensures Undisturbed() ==> old(Undisturbed())
      ensures old(client).Some? ==> client == old(client)
      ensures Undisturbed() ==> Quieter(old(wire.controller), wire.controller)
      ensures Undisturbed() && beamPolls >= OVERRIDE_EVERY ==>
                && Caught(wire)
                && beam == wire.machine.output.beam != BeamUnknown
                && asked <= old(asked) + OVERRIDE_EVERY
      ensures asked >= old(asked)
    {
      SoundForget(wire);
      wire := Forget(wire);
      for i := 0 to beamPolls
        invariant Valid() && wire.machine.output.beam == BeamUnknown
        invariant Undisturbed() ==> old(Undisturbed())
        invariant old(client).Some? ==> client == old(client)
        invariant Undisturbed() ==> Quieter(old(wire.controller), wire.controller)
        invariant wire.controller.since >= i && asked == old(asked) + i
      {
        var ok := AskAndWait();
        if !ok {
          return BeamUnknown;
        }
        if wire.machine.output.beam != BeamUnknown {
          return wire.machine.output.beam;
        }
        if client.Some? || stopping {
          return BeamUnknown;
        }
      }
      beam := wire.machine.output.beam;
    }

    /** Gives the axes time to come to rest, as much as the budget has. */
    method WaitUntilStill() returns (still: bool)
      requires Valid()
      modifies this`wire, this`clock, this`client, this`stopping, this`failed, this`asked
      ensures Valid()
      ensures Undisturbed() ==> old(Undisturbed())
      ensures old(client).Some? ==> client == old(client)
      ensures Undisturbed() ==> Quieter(old(wire.controller), wire.controller)
      ensures old(asked) <= asked <= old(asked) + restPolls
      ensures still ==> wire.machine.state.AtRest() && wire.inflight == []
      ensures !still && Undisturbed() ==> asked == old(asked) + restPolls
    {
      for i := 0 to restPolls
        invariant Valid()
        invariant Undisturbed() ==> old(Undisturbed())
        invariant old(client).Some? ==> client == old(client)
        invariant Undisturbed() ==> Quieter(old(wire.controller), wire.controller)
        invariant asked == old(asked) + i
      {
        var ok := AskAndWait();
        if !ok {
          return false;
        }
        if wire.machine.state.AtRest() {
          return true;
        }
        if client.Some? || stopping {
          return false;
        }
      }
      still := false;
    }

    /** Whoever is attached is let go, and remembered as let go by the bridge. */
    method TakeOver()
      modifies this`client, this`droppedByUs
      ensures droppedByUs == old(client) && client == None
    {
      droppedByUs := client;
      client := None;
    }

    /** Sends one command, having waited for the axes first if it should, and
        looks at what it achieved. */
    method CarryOut(decision: Decision, ghost tried: Tried, ghost certain: bool) returns (outcome: Outcome, ghost sent: seq<Entry>)
      requires Valid() && beamPolls >= OVERRIDE_EVERY && decision.step.Commands()
      requires Undisturbed() && tried.softReset ==> !wire.controller.output
      requires Undisturbed() && certain && decision.step == StepSpindleStop ==> Burning(wire.controller)
      requires tried.softReset ==> certain
      modifies this`wire, this`clock, this`client, this`stopping, this`failed, this`asked, this`lastIntervention, this`log
      ensures Valid()
      ensures Undisturbed() ==> old(Undisturbed()) && outcome == Went
      ensures log == old(log) + sent
      ensures outcome == Went ==> |sent| == 1 && sent[0].command == CommandFor(decision.step) && OnlyPutsOut(sent[0], certain)
      ensures outcome != Went ==> sent == []
      ensures outcome == Went && Undisturbed() ==> Looked(wire, tried.With(decision.step))
      ensures Undisturbed() ==> asked <= old(asked) + OVERRIDE_EVERY + if decision.waitForRest then restPolls else 0
      // A command that can wait goes to a machine that was read at rest, or one
      // that was asked as often as waiting allows.
      ensures decision.waitForRest && Undisturbed() ==> sent[0].read.AtRest() || asked >= old(asked) + restPolls
    {
      sent := [];
      assert log == old(log) + [];
      if decision.waitForRest {
        var still := WaitUntilStill();
        if stopping {
          return Interrupted, [];
        }
      }
      ghost var before := log;
      var ok := WriteOwn(CommandFor(decision.step));
      if !ok {
        return Failed, [];
      }
      sent := [log[|before|]];
      assert log == before + sent;
      lastIntervention := Some(decision.step);
      var beam := PollBeam();
      outcome := Went;
    }

    /** Puts the machine's own account of itself to Decide. */
    method AskDecide(trigger: Trigger, tried: Tried) returns (decision: Decision)
      ensures decision.step.Commands() ==> policy != PolicyNone && !tried.Has(decision.step)
      ensures decision.step.StepSpindleStop? ==> wire.machine.state == Hold && wire.machine.output.beam == BeamOn
      ensures decision.waitForRest ==> decision.step.StepSoftReset?
      ensures !decision.step.Commands() && policy != PolicyNone && GoodEnough(wire, tried) ==>
                decision.step == StepNone && !wire.controller.output
      ensures LostClient(policy, trigger) && !tried.softReset ==>
                (decision.step.Commands() <==> tried != NOTHING_TRIED || Actionable(SightOf(wire.machine)))
    {
      var machine := wire.machine;
      var sight := SightOf(machine);
      StepsRestOnEvidence(policy, trigger, sight, tried);
      if policy != PolicyNone && machine.output.beam == BeamOn {
        KnownBeamIsDealtWith(policy, trigger, sight, tried);
      }
      decision := Decide(policy, trigger, sight, tried);
    }

    /** One rung: what Decide asks for, or the end of the ladder. */
    method Rung(trigger: Trigger, tried: Tried, takenOver: bool, ghost current: bool)
      returns (end: Option<End>, step: Step, over: bool, ghost sent: seq<Entry>)
      requires Valid() && beamPolls >= OVERRIDE_EVERY
      requires tried == NOTHING_TRIED ==> !takenOver && (current ==> Current(wire))
      requires tried != NOTHING_TRIED ==> policy != PolicyNone && (Undisturbed() ==> Looked(wire, tried))
      requires tried != NOTHING_TRIED && trigger != ClientGone ==> takenOver
      modifies this`wire, this`clock, this`client, this`droppedByUs, this`stopping, this`failed, this`asked,
               this`lastIntervention, this`log
      ensures Valid() && log == old(log) + sent
      ensures Undisturbed() && (takenOver || trigger == ClientGone) ==> old(Undisturbed())
      ensures takenOver || trigger == ClientGone ==> over == takenOver && droppedByUs == old(droppedByUs)
      // Either one command has been sent, and it was one that had not been,
      ensures sent != [] ==>
                && |sent| == 1 && policy != PolicyNone && step.Commands() && !tried.Has(step)
                && sent[0].command == CommandFor(step)
                && OnlyPutsOut(sent[0], tried != NOTHING_TRIED || current)
                && (Undisturbed() ==>
                      && Looked(wire, tried.With(step))
                      && asked <= old(asked) + OVERRIDE_EVERY + if step == StepSoftReset then restPolls else 0)
                && (end.Some? ==> end.value == Newcomer && client.Some?)
                && (trigger != ClientGone ==>
                      over && end.None? && droppedByUs == if takenOver then old(droppedByUs) else old(client))
      // or the ladder has ended.
      ensures sent == [] ==>
                && end.Some? && !end.value.OutOfSteps? && !end.value.Newcomer?
                && (Undisturbed() ==> end.value.Decided?)
                && (end.value.Decided? ==> wire == old(wire) && client == old(client) && asked == old(asked))
                && (end.value.Decided? && policy != PolicyNone && GoodEnough(wire, tried) ==>
                      end == Some(Decided(StepNone)) && !wire.controller.output)
                && (policy == PolicyNone ==> client == old(client))
      ensures LostClient(policy, trigger) && !tried.softReset && tried == NOTHING_TRIED ==>
                && (sent != [] ==> Actionable(SightOf(old(wire.machine))))
                && (sent == [] && end.value.Decided? ==> !Actionable(SightOf(wire.machine)))
      ensures LostClient(policy, trigger) && !tried.softReset && tried != NOTHING_TRIED && sent == [] ==> !end.value.Decided?
    {
      over, sent, step := takenOver, [], StepNone;
      assert log == old(log) + [];
      if stopping {
        end := Some(Stopping);
        return;
      }
      var decision := AskDecide(trigger, tried);
      step := decision.step;
      if !step.Commands() {
        if step == StepUnconfirmed {
          lastIntervention := Some(StepUnconfirmed);
        }
        end := Some(Decided(step));
        return;
      }
      if !takenOver && trigger != ClientGone {
        TakeOver();
        over := true;
      }
      var outcome;
      outcome, sent := CarryOut(decision, tried, tried != NOTHING_TRIED || current);
      if outcome != Went {
        end := Some(if outcome == Interrupted then Stopping else WriteFailed);
        return;
      }
      end := if client.Some? && trigger == ClientGone then Some(Newcomer) else None;
    }

    /** One rung after another, looking again after each. */
    method Climb(trigger: Trigger) returns (end: End, ghost mine: seq<Entry>)
      requires Valid() && beamPolls >= OVERRIDE_EVERY
      modifies this`wire, this`clock, this`client, this`droppedByUs, this`stopping, this`failed, this`asked,
               this`lastIntervention, this`log
      ensures Valid() && log == old(log) + mine
      ensures old(wire.machine.output.beam) == BeamOn && policy != PolicyNone && Undisturbed() ==>
                end == Decided(StepNone) && !wire.controller.output
      ensures Rungs(mine) && ToggleOnlyPutsOut(mine, Current(old(wire)))
      ensures end != OutOfSteps && (Undisturbed() ==> end.Decided?)
      ensures Undisturbed() ==> asked <= old(asked) + 3 * OVERRIDE_EVERY + restPolls
      ensures policy == PolicyNone ==> mine == [] && client == old(client)
      ensures trigger != ClientGone && mine != [] ==> droppedByUs == old(client)
      ensures mine == [] && end.Decided? ==> client == old(client) && wire == old(wire)
      ensures LostClient(policy, trigger) && end.Decided? ==>
                (HasReset(mine) <==> Actionable(SightOf(old(wire.machine))))
    {
      var tried := NOTHING_TRIED;
      var takenOver := false;
      ghost var current := Current(wire);
      mine := [];
      for step := 0 to 5
        invariant Valid() && log == old(log) + mine
        invariant |mine| == step && Climbed(mine, tried) && ToggleOnlyPutsOut(mine, current)
        invariant step == 0 ==> wire == old(wire) && client == old(client) && asked == old(asked)
        invariant step == 0 ==> tried == NOTHING_TRIED && !takenOver
        invariant step > 0 ==> policy != PolicyNone && tried != NOTHING_TRIED
        invariant step > 0 && Undisturbed() ==> Looked(wire, tried)
        invariant step > 0 && trigger != ClientGone ==> takenOver && droppedByUs == old(client)
        invariant step > 0 && Undisturbed() ==> asked <= old(asked) + Budget(step, tried, restPolls)
        invariant step > 0 && LostClient(policy, trigger) ==> Actionable(SightOf(old(wire.machine)))
      {
        var ended, rung, over;
        ghost var sent;
        ended, rung, over, sent := Rung(trigger, tried, takenOver, current);
        if sent != [] {
          ClimbedMore(mine, sent[0], tried, rung, current);
          assert old(log) + mine + sent == old(log) + (mine + [sent[0]]);
          mine := mine + [sent[0]];
        } else {
          assert old(log) + mine + sent == old(log) + mine;
        }
        if ended.Some? {
          return ended.value, mine;
        }
        tried, takenOver := tried.With(rung), over;
      }
      assert false;
      end := OutOfSteps;
    }

    method Intervene(trigger: Trigger) returns (end: End)
      requires Valid() && beamPolls >= OVERRIDE_EVERY
      modifies this`wire, this`clock, this`client, this`droppedByUs, this`stopping, this`failed, this`asked,
               this`lastIntervention, this`log
      ensures Valid()
      // A beam that was reported on is off at the end, whatever the firmware
      // ignored on the way.
      ensures old(wire.machine.output.beam) == BeamOn && policy != PolicyNone && Undisturbed() ==>
                end == Decided(StepNone) && !wire.controller.output
      // Nothing is sent twice, and a promise not to command is kept.
      ensures old(log) <= log && Rungs(log[|old(log)|..])
      ensures policy == PolicyNone ==> log == old(log) && client == old(client)
      // The toggle is only ever sent to an output that is on.
      ensures ToggleOnlyPutsOut(log[|old(log)|..], Current(old(wire)))
      // The ladder ends by deciding to; the bound on its steps never does.
      ensures end != OutOfSteps && (Undisturbed() ==> end.Decided?)
      ensures Undisturbed() ==> asked <= old(asked) + 3 * OVERRIDE_EVERY + restPolls
      // A machine is taken completely before the first command, or not at all.
      ensures trigger != ClientGone && log != old(log) ==> droppedByUs == old(client)
      ensures log == old(log) && end.Decided? ==> client == old(client) && wire == old(wire)
      // A client lost under the reset policy ends in a soft reset exactly if the
      // first reading is one to act on.
      ensures LostClient(policy, trigger) && end.Decided? ==>
                (HasReset(log[|old(log)|..]) <==> Actionable(SightOf(old(wire.machine))))
    {
      ghost var mine;
      end, mine := Climb(trigger);
      assert log[|old(log)|..] == mine;
    }

    /** The reaction to a client's departure - unless the bridge dropped that
        client itself, in the middle of dealing with the machine. */
    method OnClientGone(conn: nat, portOpen: bool) returns (end: Option<End>)
      requires Valid() && beamPolls >= OVERRIDE_EVERY
      modifies this`wire, this`clock, this`client, this`droppedByUs, this`stopping, this`failed, this`asked,
               this`lastIntervention, this`log
      ensures Valid()
      ensures end.Some? <==> !old(stopping) && old(droppedByUs) != Some(conn) && portOpen
      ensures end.None? ==> log == old(log) && wire == old(wire)
      ensures end.None? ==> droppedByUs == if !old(stopping) && old(droppedByUs) == Some(conn) then None else old(droppedByUs)
      ensures end.Some? && old(wire.machine.output.beam) == BeamOn && policy != PolicyNone && Undisturbed() ==>
                !wire.controller.output
      ensures old(log) <= log && ToggleOnlyPutsOut(log[|old(log)|..], Current(old(wire)))
      ensures end.Some? && end.value.Decided? && policy == PolicyReset ==>
                (HasReset(log[|old(log)|..]) <==> Actionable(SightOf(old(wire.machine))))
    {
      if stopping {
        return None;
      }
      if droppedByUs == Some(conn) {
        droppedByUs := None;
        return None;
      }
      if !portOpen {
        return None;
      }
      var how := Intervene(ClientGone);
      end := Some(how);
    }
  }

  function Budget(step: nat, tried: Tried, restPolls: nat): nat {
    step * OVERRIDE_EVERY + if tried.softReset then restPolls else 0
  }

  datatype Outcome = Went | Interrupted | Failed

  /** The reading is of the controller as it is, as far as it matters. */
  ghost predicate Caught(w: Wire) {
    w.inflight == [] && w.seen == w.controller.output && w.machine.state == w.controller.state
  }

  /** What the last message read said about a hold is still so. */
  ghost predicate Current(w: Wire) {
    w.machine.state == Hold && w.machine.output.beam == BeamOn ==> w.controller.state == Hold && w.controller.output
  }

  /** What is known after a step has been looked at. */
  ghost predicate Looked(w: Wire, tried: Tried) {
    && Caught(w)
    && w.machine.output.beam != BeamUnknown
    && (tried.softReset ==> !w.controller.output)
  }

  /** A reading good enough to stop on: the first, if it says the beam is on, or
      one that a step was followed by. */
  ghost predicate GoodEnough(w: Wire, tried: Tried) {
    if tried == NOTHING_TRIED then w.machine.output.beam == BeamOn
    else Sound(w) && Looked(w, tried)
  }

  ghost predicate Rungs(entries: seq<Entry>) {
    && |entries| <= 3
    && forall i, j | 0 <= i < j < |entries| :: entries[i].command != entries[j].command
  }

  ghost predicate Climbed(entries: seq<Entry>, tried: Tried) {
    && Rungs(entries) && |entries| + tried.Left() == 3
    && (forall i | 0 <= i < |entries| :: tried.Has(StepFor(entries[i].command)))
    && (tried.softReset ==> HasReset(entries))
  }

  predicate LostClient(policy: Policy, trigger: Trigger) { policy == PolicyReset && trigger == ClientGone }

  function SightOf(m: Machine): Sight { Sight(m.state, m.output.beam, m.identity.laserMode) }

  ghost predicate HasReset(entries: seq<Entry>) {
    exists i :: 0 <= i < |entries| && entries[i].command == Command.SoftReset
  }

  /** A controller in a hold with its output on. */
  predicate Burning(c: Controller) { c.state == Hold && c.output }

  /** A spindle stop sent with the machine to ourselves found it in HOLD with the
      output on, and a firmware that heeded it put the output out. */
  predicate OnlyPutsOut(e: Entry, certain: bool) {
    e.command == Command.SpindleStop && e.alone && certain ==>
      Burning(e.before) && (e.after == e.before || !e.after.output)
  }

  /** So for every command of a run - for the first, provided the reading it
      rests on still held. */
  ghost predicate ToggleOnlyPutsOut(entries: seq<Entry>, current: bool) {
    forall i | 0 <= i < |entries| :: OnlyPutsOut(entries[i], i > 0 || current)
  }

  lemma ClimbedMore(entries: seq<Entry>, e: Entry, tried: Tried, step: Step, current: bool)
    requires Climbed(entries, tried) && ToggleOnlyPutsOut(entries, current)
    requires step.Commands() && !tried.Has(step) && e.command == CommandFor(step)
    requires OnlyPutsOut(e, |entries| > 0 || current)
    ensures Climbed(entries + [e], tried.With(step)) && ToggleOnlyPutsOut(entries + [e], current)
  {
    assert (entries + [e])[|entries|] == e;
    if HasReset(entries) {
      var i :| 0 <= i < |entries| && entries[i].command == Command.SoftReset;
      assert (entries + [e])[i] == entries[i];
    }
    forall i | 0 <= i < |entries|
      ensures entries[i].command != e.command
    {
      assert tried.Has(StepFor(entries[i].command));
    }
  }

  // When the reading a first spindle stop rests on is still true.

  /** The wire since a client left it: how much of what is in flight was sent
      before that, and whether anything sent after it has been read. Requests and
      answers pair up in order, so both can be counted from outside. */
  datatype Since = Since(wire: Wire, stale: nat, answered: bool)

  predicate Unattended(e: Event) { e == Drifts(false) || e.Asks? || e.Arrives? || e.Forgets? }

  function Followed(l: Since, e: Event, ch: Choice): Since {
    var read := if ch.delivered <= |l.wire.inflight| then ch.delivered else |l.wire.inflight|;
    var next := l.(wire := After(l.wire, e, ch));
    if !e.Arrives? then next
    else next.(stale := if read <= l.stale then l.stale - read else 0, answered := l.answered || read > l.stale)
  }

  function SinceLeft(w: Wire, events: seq<(Event, Choice)>): Since {
    if events == [] then Since(w, |w.inflight|, false)
    else
      var last := events[|events| - 1];
      Followed(SinceLeft(w, events[..|events| - 1]), last.0, last.1)
  }

  /** A hold that was reported is one that goes on. */
  predicate Lasts(state: MachineState, output: bool, c: Controller) {
    state == Hold ==> c.state == Hold && c.output == output
  }

  ghost predicate InHand(l: Since) {
    && l.stale <= |l.wire.inflight|
    && (forall i: nat | l.stale <= i < |l.wire.inflight| ::
          var e := l.wire.inflight[i];
          e.report.kind == Status && Lasts(e.report.fields.state, e.output, l.wire.controller))
    && (l.answered ==> l.stale == 0 && Lasts(l.wire.machine.state, l.wire.seen, l.wire.controller))
  }

  lemma {:induction false} InHandArrives(l: Since, count: nat, unix: nat)
    requires InHand(l) && count <= |l.wire.inflight|
    ensures InHand(Since(Arrive(l.wire, count, unix),
                         if count <= l.stale then l.stale - count else 0, l.answered || count > l.stale))
    ensures count == |l.wire.inflight| ==> Arrive(l.wire, count, unix).inflight == []
    decreases count
  {
    if count > 0 {
      var next := Deliver(l.wire, unix);
      assert forall i: nat | i < |next.inflight| :: next.inflight[i] == l.wire.inflight[i + 1];
      if l.stale == 0 { BeamAfter(l.wire.machine, l.wire.inflight[0].report, unix); }
      InHandArrives(Since(next, if l.stale > 0 then l.stale - 1 else 0, l.answered || l.stale == 0), count - 1, unix);
    }
  }

  lemma InHandFollowed(l: Since, e: Event, ch: Choice)
    requires InHand(l) && Unattended(e)
    ensures InHand(Followed(l, e, ch))
  {
    if e.Arrives? {
      var read := if ch.delivered <= |l.wire.inflight| then ch.delivered else |l.wire.inflight|;
      InHandArrives(l, read, ch.unix);
      ArriveNoMore(l.wire, ch.delivered, read, ch.unix);
    }
  }

  lemma {:induction false} ArriveNoMore(w: Wire, count: nat, read: nat, unix: nat)
    requires read == if count <= |w.inflight| then count else |w.inflight|
    ensures Arrive(w, count, unix) == Arrive(w, read, unix)
    decreases count
  {
    if count > 0 && w.inflight != [] { ArriveNoMore(Deliver(w, unix), count - 1, read - 1, unix); }
  }

  lemma {:induction false} StaysInHand(w: Wire, events: seq<(Event, Choice)>)
    requires Sound(w) && forall i | 0 <= i < |events| :: Unattended(events[i].0)
    ensures InHand(SinceLeft(w, events)) && SinceLeft(w, events).wire == AfterAll(w, events)
  {
    if events != [] {
      StaysInHand(w, events[..|events| - 1]);
      InHandFollowed(SinceLeft(w, events[..|events| - 1]), events[|events| - 1].0, events[|events| - 1].1);
    }
  }

  /** What the wire has come to since a client left it at w: the bridge has only
      asked, and one of its questions has been answered. */
  ghost predicate Answered(w: Wire, events: seq<(Event, Choice)>, now: Wire) {
    && Sound(w) && now == AfterAll(w, events)
    && (forall i | 0 <= i < |events| :: Unattended(events[i].0))
    && SinceLeft(w, events).answered
  }

  /** One answer to a question asked since the client left is enough: whatever is
      read after it, a hold with the beam on is one that goes on. */
  lemma AnsweredIsCurrent(w: Wire, events: seq<(Event, Choice)>, now: Wire)
    requires Answered(w, events, now)
    ensures Sound(now) && Current(now)
  {
    StaysInHand(w, events);
    EvidenceIsTrue(w, events);
  }

  /** With a client attached it is not, however good the reading: of a reading of
      HOLD and BeamOn that is true to the moment, the bridge can tell that a first
      spindle stop will not light the output if and only if nobody is attached. */
  lemma FirstToggleIsSafe(w: Wire, attached: bool, policy: Policy, trigger: Trigger)
    requires Sound(w) && Caught(w) && w.machine.state == Hold && w.machine.output.beam == BeamOn
    requires policy != PolicyNone
    ensures Decide(policy, trigger, SightOf(w.machine), NOTHING_TRIED).step == StepSpindleStop
    ensures (forall meanwhile: Choice, ch: Choice | ch.obeys ::
               !Handled(Drift(w, meanwhile, attached).controller, Command.SpindleStop, ch).output) <==> !attached
  {
    if attached {
      var off := Choice(Hold, false, true, false, BLANK, 0, 0, false, false, true);
      assert off.obeys && Handled(Drift(w, off, attached).controller, Command.SpindleStop, off).output;
    }
  }

  /** Held with the output on, asked, and the answer read. */
  function HeldAndRead(w: Wire, on: Choice): Wire {
    After(After(After(w, Drifts(true), on), Asks, on), Arrives, on)
  }

  lemma HeldIsRead(w: Wire, on: Choice)
    requires w.inflight == [] && !w.controller.output && on.state == Hold && on.output && on.delivered == 1
    ensures var now := HeldAndRead(w, on);
            && now.inflight == [] && now.machine.state == Hold && now.machine.output.beam == BeamOn
            && now.machine.identity == w.machine.identity
  {
    var asked := After(After(w, Drifts(true), on), Asks, on);
    assert Arrive(asked, 1, on.unix) == Arrive(Deliver(asked, on.unix), 0, on.unix) == Deliver(asked, on.unix);
    BeamAfter(asked.machine, asked.inflight[0].report, on.unix);
    assert 'S' in asked.inflight[0].report.fields.accessory;
  }

  /** And such a client is a run away from any quiet beginning: it holds with the
      output on, a question is answered, and it stops the spindle itself. The
      reading stands, the ladder begins with the toggle, and the toggle lights the
      output. */
  lemma ToggleCanLight(w: Wire, policy: Policy, trigger: Trigger) returns (events: seq<(Event, Choice)>)
    requires Sound(w) && w.inflight == [] && !w.controller.output && policy != PolicyNone
    ensures var now := AfterAll(w, events);
            var sight := SightOf(now.machine);
            && Sound(now) && now.inflight == []
            && Decide(policy, trigger, sight, NOTHING_TRIED).step == StepSpindleStop
            && forall ch: Choice | ch.obeys :: Handled(now.controller, Command.SpindleStop, ch).output
  {
    var on := Choice(Hold, true, true, true, BLANK, 1, 1, false, false, true);
    var held: seq<(Event, Choice)> := [] + [(Drifts(true), on)] + [(Asks, on)] + [(Arrives, on)];
    AfterOneMore(w, [], (Drifts(true), on));
    AfterOneMore(w, [] + [(Drifts(true), on)], (Asks, on));
    AfterOneMore(w, [] + [(Drifts(true), on)] + [(Asks, on)], (Arrives, on));
    HeldIsRead(w, on);
    events := held + [(Drifts(true), on.(output := false))];
    AfterOneMore(w, held, (Drifts(true), on.(output := false)));
    EvidenceIsTrue(w, events);
  }

  /** Asking again and again, with every answer read in time. */
  function Polled(w: Wire, count: nat, ch: Choice): Wire {
    if count == 0 then w
    else
      AskedAndRead(Polled(w, count - 1, ch), ch)
  }

  lemma AnsweredFromRest(w: Wire, ch: Choice)
    requires Sound(w) && w.inflight == [] && w.machine.output.beam == BeamUnknown
    requires w.controller.since < OVERRIDE_EVERY && !w.controller.mustReport && !ch.mentions
    ensures var after := AskedAndRead(w, ch);
            && Sound(after) && after.inflight == []
            && (after.machine.output.beam == BeamUnknown <==> w.controller.since + 1 < OVERRIDE_EVERY)
            && (w.controller.since + 1 < OVERRIDE_EVERY ==>
                  after.controller == w.controller.(since := w.controller.since + 1))
  {
    var asked := Ask(w, ch);
    SoundAsk(w, ch);
    ArriveAll(asked, ch.unix);
    BeamAfter(w.machine, asked.inflight[0].report, ch.unix);
    assert Arrive(asked, 1, ch.unix) == Deliver(asked, ch.unix);
  }

  /** Twenty questions are needed in the worst case: a controller with nothing
      new to say may leave nineteen answers without a word about its outputs,
      and cannot leave the twentieth. */
  lemma {:induction false} TwentyQuestions(w: Wire, count: nat, ch: Choice)
    requires Sound(w) && w.inflight == [] && w.machine.output.beam == BeamUnknown
    requires w.controller.since == 0 && !w.controller.mustReport && !ch.mentions
    requires count <= OVERRIDE_EVERY
    ensures var after := Polled(w, count, ch);
            && Sound(after) && after.inflight == []
            && (after.machine.output.beam == BeamUnknown <==> count < OVERRIDE_EVERY)
            && (count < OVERRIDE_EVERY ==> after.controller == w.controller.(since := count))
  {
    if count > 0 {
      TwentyQuestions(w, count - 1, ch);
      AnsweredFromRest(Polled(w, count - 1, ch), ch);
    }
  }
}
