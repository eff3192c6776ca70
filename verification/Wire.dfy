/** The bridge's observer at one end of a serial line and a GRBL controller at
    the other. The controller is a relation: whatever is not GRBL's documented
    behaviour is left to a choice made by an adversary. */
module Wire {
  import opened Text
  import opened Grbl
  import opened Observer

  datatype Command = FeedHold | SpindleStop | SoftReset

  /** The controller: what it does, what its output really is, whether that has
      changed since it was last reported, and how many reports ago that was. */
  datatype Controller = Controller(state: MachineState, output: bool, mustReport: bool, since: nat)

  // The widest documented gap between two reports that mention the outputs.
  const OVERRIDE_EVERY := 20

  /** One choice of the environment. */
  datatype Choice = Choice(
    state: MachineState,  // where the controller goes of its own accord, or after a reset
    output: bool,         // where its output goes, if it may
    obeys: bool,          // whether the firmware does what a command asks
    mentions: bool,       // whether a report mentions the outputs without having to
    report: Report,       // what else a report says
    unix: nat,            // when it is read
    delivered: nat,       // how much of what is in flight arrives
    client: bool,         // whether somebody connects
    stopping: bool,       // whether the daemon is told to stop
    writes: bool)         // whether the serial port takes the byte

  function Switched(c: Controller, on: bool): Controller {
    c.(output := on, mustReport := c.mustReport || on != c.output)
  }

  /** What the controller may do between two bytes. With nobody attached its
      output can go off but not on, and in HOLD nothing happens at all. */
  function Drifted(c: Controller, ch: Choice, attached: bool): Controller {
    if attached then Switched(c, ch.output).(state := ch.state)
    else if c.state == Hold then c
    else Switched(c, c.output && ch.output).(state := ch.state)
  }

  /** A real-time command. A hold is entered from a cycle or a jog and may put
      the output out; the spindle stop acts only in HOLD and toggles; a reset
      puts the output out whatever the firmware thinks. */
  function Handled(c: Controller, command: Command, ch: Choice): Controller {
    match command
    case FeedHold =>
      if ch.obeys && (c.state == Run || c.state == Jog) then Switched(c, c.output && ch.output).(state := Hold) else c
    case SpindleStop =>
      if ch.obeys && c.state == Hold then Switched(c, !c.output) else c
    case SoftReset =>
      Switched(c, false).(state := ch.state)
  }

  predicate MustMention(c: Controller) { c.mustReport || c.since + 1 >= OVERRIDE_EVERY }

  function Reported(c: Controller, mentions: bool): Controller {
    if mentions then c.(mustReport := false, since := 0) else c.(since := c.since + 1)
  }

  function Said(c: Controller, mentions: bool, other: Report): Report {
    other.(kind := Status,
           fields := other.fields.(state := c.state, hasOverrides := mentions,
                                   accessory := if mentions && c.output then "S" else ""))
  }

  /** A message on its way, and what the output was when it was sent. */
  datatype Emitted = Emitted(report: Report, output: bool)

  /** Both ends and what is between them. The reading is about the output as it
      was at the last message read, which is `seen`. */
  datatype Wire = Wire(controller: Controller, inflight: seq<Emitted>, machine: Machine, seen: bool)

  function Drift(w: Wire, ch: Choice, attached: bool): Wire {
    w.(controller := Drifted(w.controller, ch, attached))
  }

  function Send(w: Wire, command: Command, ch: Choice): Wire {
    var c := Handled(w.controller, command, ch);
    w.(controller := c,
       inflight := if command == SoftReset then w.inflight + [Emitted(ch.report.(kind := Welcome), false)] else w.inflight)
  }

  function Ask(w: Wire, ch: Choice): Wire {
    var mentions := MustMention(w.controller) || ch.mentions;
    w.(controller := Reported(w.controller, mentions),
       inflight := w.inflight + [Emitted(Said(w.controller, mentions, ch.report), w.controller.output)])
  }

  function Deliver(w: Wire, unix: nat): Wire
    requires w.inflight != []
  {
    w.(machine := Applied(w.machine, w.inflight[0].report, unix),
       seen := w.inflight[0].output,
       inflight := w.inflight[1..])
  }

  function Arrive(w: Wire, count: nat, unix: nat): Wire
    decreases count
  {
    if count == 0 || w.inflight == [] then w else Arrive(Deliver(w, unix), count - 1, unix)
  }

  function Forget(w: Wire): Wire { w.(machine := Forgotten(w.machine)) }

  // What makes a reading evidence.

  /** A message that says what the output is. */
  predicate Definite(r: Report) { r.kind == Welcome || (r.kind == Status && r.fields.hasOverrides) }

  predicate Honest(e: Emitted) {
    && (e.report.kind == Welcome || e.report.kind == Status)
    && (e.report.kind == Welcome ==> !e.output)
    && (e.report.kind == Status && e.report.fields.hasOverrides ==>
          (e.output <==> 'S' in e.report.fields.accessory || 'C' in e.report.fields.accessory))
  }

  function Before(w: Wire, i: nat): bool
    requires i <= |w.inflight|
  {
    if i == 0 then w.seen else w.inflight[i - 1].output
  }

  /** A known reading is true of the last message read, and the controller never
      lets a change of its output go by without a message that says so. */
  ghost predicate Sound(w: Wire) {
    && (w.machine.output.beam == BeamOn ==> w.seen)
    && (w.machine.output.beam == BeamOff ==> !w.seen)
    && (forall i: nat | i < |w.inflight| :: Honest(w.inflight[i]))
    && (forall i: nat | i < |w.inflight| :: Definite(w.inflight[i].report) || w.inflight[i].output == Before(w, i))
    && (!w.controller.mustReport ==> w.controller.output == Before(w, |w.inflight|))
    && w.controller.since < OVERRIDE_EVERY
  }

  lemma BeamAfter(m: Machine, r: Report, unix: nat)
    requires r.kind == Welcome || r.kind == Status
    ensures Applied(m, r, unix).output.beam
            == if r.kind == Welcome then BeamOff
               else if !r.fields.hasOverrides then m.output.beam
               else if 'S' in r.fields.accessory || 'C' in r.fields.accessory then BeamOn
               else BeamOff
    ensures Applied(m, r, unix).state == if r.kind == Welcome then Unknown else r.fields.state
  {}

  lemma SoundDrift(w: Wire, ch: Choice, attached: bool)
    requires Sound(w)
    ensures Sound(Drift(w, ch, attached))
  {
    assert Before(Drift(w, ch, attached), |w.inflight|) == Before(w, |w.inflight|);
    assert forall i: nat | i < |w.inflight| :: Before(Drift(w, ch, attached), i) == Before(w, i);
  }

  lemma SoundAppend(w: Wire, w': Wire, e: Emitted)
    requires Sound(w) && Honest(e)
    requires w'.inflight == w.inflight + [e] && w'.machine == w.machine && w'.seen == w.seen
    requires Definite(e.report) || e.output == Before(w, |w.inflight|)
    requires !w'.controller.mustReport ==> w'.controller.output == e.output
    requires w'.controller.since < OVERRIDE_EVERY
    ensures Sound(w')
  {
    assert forall i: nat | i <= |w.inflight| :: Before(w', i) == Before(w, i);
    assert Before(w', |w'.inflight|) == e.output;
  }

  lemma SoundSend(w: Wire, command: Command, ch: Choice)
    requires Sound(w)
    ensures Sound(Send(w, command, ch))
  {
    if command == SoftReset {
      SoundAppend(w, Send(w, command, ch), Emitted(ch.report.(kind := Welcome), false));
    } else {
      var w' := Send(w, command, ch);
      assert forall i: nat | i <= |w.inflight| :: Before(w', i) == Before(w, i);
    }
  }

  lemma SoundAsk(w: Wire, ch: Choice)
    requires Sound(w)
    ensures Sound(Ask(w, ch))
  {
    var mentions := MustMention(w.controller) || ch.mentions;
    var e := Emitted(Said(w.controller, mentions, ch.report), w.controller.output);
    SoundAppend(w, Ask(w, ch), e);
  }

  lemma SoundDeliver(w: Wire, unix: nat)
    requires Sound(w) && w.inflight != []
    ensures Sound(Deliver(w, unix))
    ensures Definite(w.inflight[0].report) ==> Deliver(w, unix).machine.output.beam != BeamUnknown
  {
    var w' := Deliver(w, unix);
    BeamAfter(w.machine, w.inflight[0].report, unix);
    assert w.inflight[0].output == Before(w, 1);
    assert forall i: nat | i < |w'.inflight| :: w'.inflight[i] == w.inflight[i + 1];
    assert forall i: nat | i <= |w'.inflight| :: Before(w', i) == Before(w, i + 1);
  }

  lemma SoundForget(w: Wire)
    requires Sound(w)
    ensures Sound(Forget(w))
  {
    assert forall i: nat | i <= |w.inflight| :: Before(Forget(w), i) == Before(w, i);
  }

  lemma {:induction false} SoundArrive(w: Wire, count: nat, unix: nat)
    requires Sound(w)
    ensures Sound(Arrive(w, count, unix)) && Arrive(w, count, unix).controller == w.controller
    decreases count
  {
    if count > 0 && w.inflight != [] {
      SoundDeliver(w, unix);
      SoundArrive(Deliver(w, unix), count - 1, unix);
    }
  }

  // Any run of the two ends.

  datatype Event = Drifts(attached: bool) | Sends(command: Command) | Asks | Arrives | Forgets

  function After(w: Wire, e: Event, ch: Choice): Wire {
    match e
    case Drifts(attached) => Drift(w, ch, attached)
    case Sends(command) => Send(w, command, ch)
    case Asks => Ask(w, ch)
    case Arrives => Arrive(w, ch.delivered, ch.unix)
    case Forgets => Forget(w)
  }

  function AfterAll(w: Wire, events: seq<(Event, Choice)>): Wire {
    if events == [] then w
    else
      var last := events[|events| - 1];
      After(AfterAll(w, events[..|events| - 1]), last.0, last.1)
  }

  lemma AfterOneMore(w: Wire, events: seq<(Event, Choice)>, e: (Event, Choice))
    ensures AfterAll(w, events + [e]) == After(AfterAll(w, events), e.0, e.1)
  {
    assert (events + [e])[..|events|] == events;
  }

  /** Evidence is true: through every run - clients, commands, drift, messages
      held up for as long as it pleases - a reading of the output that is known
      is what the output was when the last message read was sent. */
  lemma {:induction false} EvidenceIsTrue(w: Wire, events: seq<(Event, Choice)>)
    requires Sound(w)
    ensures var after := AfterAll(w, events);
            && Sound(after)
            && (after.machine.output.beam != BeamUnknown ==> (after.machine.output.beam == BeamOn <==> after.seen))
  {
    if events != [] {
      var before := AfterAll(w, events[..|events| - 1]);
      EvidenceIsTrue(w, events[..|events| - 1]);
      var (e, ch) := events[|events| - 1];
      match e
      case Drifts(attached) => SoundDrift(before, ch, attached);
      case Sends(command) => SoundSend(before, command, ch);
      case Asks => SoundAsk(before, ch);
      case Arrives => SoundArrive(before, ch.delivered, ch.unix);
      case Forgets => SoundForget(before);
    }
  }

  // How old evidence gets.

  /** How many reports since the outputs were mentioned the reading will rest on
      once so many more messages have been read. */
  function Age(w: Wire, i: nat): int
    requires i <= |w.inflight|
  {
    if i == 0 then if w.machine.output.beam == BeamUnknown then 0 else w.machine.output.reports - w.machine.output.beamReports
    else if Definite(w.inflight[i - 1].report) then 0
    else Age(w, i - 1) + 1
  }

  /** No message in flight will find the reading as old as the widest gap, and
      the last of them no older than the controller's own count. */
  ghost predicate Young(w: Wire) {
    && Age(w, 0) >= 0
    && (forall i: nat | i <= |w.inflight| :: Age(w, i) < OVERRIDE_EVERY)
    && Age(w, |w.inflight|) <= w.controller.since
  }

  lemma {:induction false} SameAges(w: Wire, w': Wire, i: nat)
    requires i <= |w.inflight| && w.inflight <= w'.inflight
    requires w'.machine == w.machine || w' == Forget(w)
    requires w'.machine == w.machine || Age(w, 0) >= 0
    ensures Age(w', i) <= Age(w, i) && (w'.machine == w.machine ==> Age(w', i) == Age(w, i))
  {
    if i > 0 { SameAges(w, w', i - 1); }
  }

  lemma {:induction false} DeliveredAges(w: Wire, unix: nat, i: nat)
    requires i < |w.inflight| && forall k: nat | k < |w.inflight| :: Honest(w.inflight[k])
    requires Age(w, 0) >= 0
    ensures Age(Deliver(w, unix), i) <= Age(w, i + 1)
  {
    if i == 0 {
      BeamAfter(w.machine, w.inflight[0].report, unix);
    } else {
      DeliveredAges(w, unix, i - 1);
    }
  }

  lemma YoungUnread(w: Wire, w': Wire)
    requires Young(w) && w'.machine == w.machine && w.inflight <= w'.inflight && |w'.inflight| <= |w.inflight| + 1
    requires Age(w', |w'.inflight|) <= w'.controller.since < OVERRIDE_EVERY
    ensures Young(w')
  {
    forall i: nat | i <= |w.inflight|
      ensures Age(w', i) == Age(w, i)
    {
      SameAges(w, w', i);
    }
  }

  lemma {:induction false} YoungArrive(w: Wire, count: nat, unix: nat)
    requires Sound(w) && Young(w)
    ensures Young(Arrive(w, count, unix))
    decreases count
  {
    if count > 0 && w.inflight != [] {
      var w' := Deliver(w, unix);
      forall i: nat | i <= |w'.inflight|
        ensures Age(w', i) <= Age(w, i + 1)
      {
        DeliveredAges(w, unix, i);
      }
      BeamAfter(w.machine, w.inflight[0].report, unix);
      SoundDeliver(w, unix);
      YoungArrive(w', count - 1, unix);
    }
  }

  lemma YoungDrifted(w: Wire, attached: bool, ch: Choice)
    requires Sound(w) && Young(w)
    ensures Young(After(w, Drifts(attached), ch))
  {
    var w' := After(w, Drifts(attached), ch);
    SameAges(w, w', |w.inflight|);
    YoungUnread(w, w');
  }

  lemma YoungSent(w: Wire, command: Command, ch: Choice)
    requires Sound(w) && Young(w)
    ensures Young(After(w, Sends(command), ch))
  {
    var w' := After(w, Sends(command), ch);
    SameAges(w, w', |w.inflight|);
    YoungUnread(w, w');
  }

  lemma YoungAsked(w: Wire, ch: Choice)
    requires Sound(w) && Young(w)
    ensures Young(After(w, Asks, ch))
  {
    var w' := After(w, Asks, ch);
    SameAges(w, w', |w.inflight|);
    YoungUnread(w, w');
  }

  lemma YoungForgotten(w: Wire, ch: Choice)
    requires Sound(w) && Young(w)
    ensures Young(After(w, Forgets, ch))
  {
    var w' := After(w, Forgets, ch);
    forall i: nat | i <= |w.inflight|
      ensures Age(w', i) <= Age(w, i)
    {
      SameAges(w, w', i);
    }
  }

  lemma YoungAfter(w: Wire, e: Event, ch: Choice)
    requires Sound(w) && Young(w)
    ensures Young(After(w, e, ch))
  {
    match e
    case Drifts(attached) => YoungDrifted(w, attached, ch);
    case Sends(command) => YoungSent(w, command, ch);
    case Asks => YoungAsked(w, ch);
    case Arrives => YoungArrive(w, ch.delivered, ch.unix);
    case Forgets => YoungForgotten(w, ch);
  }

  /** A controller that keeps to the documented gap never leaves a known reading
      older than that many reports: evidence is never too old to act on. */
  lemma {:induction false} EvidenceIsYoung(w: Wire, events: seq<(Event, Choice)>)
    requires Sound(w) && Young(w)
    ensures var after := AfterAll(w, events);
            && Young(after)
            && (after.machine.output.beam != BeamUnknown ==>
                  after.machine.output.reports - after.machine.output.beamReports < OVERRIDE_EVERY)
  {
    if events != [] {
      var before := events[..|events| - 1];
      EvidenceIsYoung(w, before);
      EvidenceIsTrue(w, before);
      YoungAfter(AfterAll(w, before), events[|events| - 1].0, events[|events| - 1].1);
    }
    assert Age(AfterAll(w, events), 0) < OVERRIDE_EVERY;
  }

  // The relation's reports are GRBL's own, read back from what it prints.

  predicate Plain(field: string) { !Named(field, Ov) && !Named(field, A) }

  lemma {:induction false} PlainFields(r: Fields, fields: seq<string>, decimals: Decimals)
    requires forall field | field in fields :: Plain(field)
    ensures var read := WithFields(r, fields, decimals);
            read.hasOverrides == r.hasOverrides && read.accessory == r.accessory && read.state == r.state
  {
    if fields != [] {
      var last := |fields| - 1;
      PlainFields(r, fields[..last], decimals);
      assert Plain(fields[last]);
    }
  }

  /** A status report printed as GRBL prints one - the state with whatever
      substate, other fields, then Ov: if it mentions the outputs and A: if one is
      on - reads back as the report the relation has the controller send. */
  lemma PrintedReportReadsBack(c: Controller, mentions: bool, substate: string, others: seq<string>,
                               overrides: string, decimals: Decimals)
    requires StateOf(c.state.Word()) == c.state && ':' !in c.state.Word()
    requires substate == "" || substate[0] == ':'
    requires forall field | field in others :: Plain(field)
    requires var parts := [c.state.Word() + substate] + (others + OutputFields(mentions, overrides, if c.output then "S" else ""));
             forall part | part in parts :: '|' !in part
    ensures var parts := [c.state.Word() + substate] + (others + OutputFields(mentions, overrides, if c.output then "S" else ""));
            var r := ReportOf(StatusLine(parts), decimals);
            && r.kind == Status
            && r.fields.state == Said(c, mentions, r).fields.state
            && r.fields.hasOverrides == Said(c, mentions, r).fields.hasOverrides
            && r.fields.accessory == Said(c, mentions, r).fields.accessory
  {
    var outputs := OutputFields(mentions, overrides, if c.output then "S" else "");
    var parts := [c.state.Word() + substate] + (others + outputs);
    StatusLineReadsBack(parts, decimals);
    StateWithSubstate(c.state.Word(), substate);
    var start := NO_FIELDS.(state := c.state);
    assert parts[1..] == others + outputs;
    FieldsInTwoParts(start, others, outputs, decimals);
    PlainFields(start, others, decimals);
    OutputFieldsReadBack(WithFields(start, others, decimals), mentions, overrides, if c.output then "S" else "", decimals);
  }

  lemma StateWithSubstate(word: string, substate: string)
    requires ':' !in word && (substate == "" || substate[0] == ':')
    ensures Cut(word + substate, ':').0 == word
  {
    if substate == "" {
      assert word + substate == word;
      CutNone(word, ':');
    } else {
      assert word + substate == word + [':'] + substate[1..];
      CutAt(word, ':', substate[1..]);
    }
  }
}
