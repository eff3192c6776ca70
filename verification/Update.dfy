/** Two system slots, the files that choose between them, the operations that
    write them - one durable write at a time - and the boot loader that reads
    them. */
module Update {
  import opened Text

  datatype Slot = A | B
  {
    function Other(): Slot { if A? then B else A }
  }

  // What goes into a slot. File contents are opaque strings of bytes.

  datatype Release = Release(root: string, kernel: string, initramfs: string)

  /** A bundle that has been verified, under the version its manifest gives. */
  datatype Bundle = Bundle(version: string, release: Release)

  /** What a slot holds. A root that is being rewritten is torn: nothing is
      known about what is there until the whole of it has been written. */
  datatype Payload = Payload(root: Option<string>, kernel: Option<string>, initramfs: Option<string>)
  {
    predicate Holds(r: Release) {
      root == Some(r.root) && kernel == Some(r.kernel) && initramfs == Some(r.initramfs)
    }
  }

  // The record shown to the operator.

  const ROLLBACK_VERSION := "previous-slot"

  datatype Record = Record(version: string, target: Option<Slot>, source: Option<Slot>, slots: map<Slot, string>)

  const NO_RECORD := Record("", None, None, map[])

  /** GRUB's environment block: how many boots were not confirmed, and the slot
      it has fallen back to. */
  datatype Environment = Environment(tries: nat, fallback: Option<Slot>)

  datatype Disk = Disk(a: Payload, b: Payload, record: Record, active: Option<Slot>, env: Environment)
  {
    function At(s: Slot): Payload { if s == A then a else b }

    function With(s: Slot, p: Payload): Disk { if s == A then this.(a := p) else this.(b := p) }

    /** The slot active-slot.cfg names, or the one a missing file stands for. */
    function Named(): Slot { if active.Some? then active.value else A }
  }

  /** One durable write. */
  datatype Write =
    | TearRoot(slot: Slot)
    | PutRoot(slot: Slot, content: string)
    | PutKernel(slot: Slot, content: string)
    | PutInitramfs(slot: Slot, content: string)
    | PutRecord(record: Record)
    | PutActive(slot: Slot)
    | PutEnvironment(env: Environment)

  function Written(d: Disk, w: Write): Disk {
    match w
    case TearRoot(s) => d.With(s, d.At(s).(root := None))
    case PutRoot(s, content) => d.With(s, d.At(s).(root := Some(content)))
    case PutKernel(s, content) => d.With(s, d.At(s).(kernel := Some(content)))
    case PutInitramfs(s, content) => d.With(s, d.At(s).(initramfs := Some(content)))
    case PutRecord(record) => d.(record := record)
    case PutActive(s) => d.(active := Some(s))
    case PutEnvironment(env) => d.(env := env)
  }

  /** The disk after the first so many writes of a plan. */
  function Done(d: Disk, plan: seq<Write>, k: nat): Disk
    requires k <= |plan|
  {
    if k == 0 then d else Written(Done(d, plan, k - 1), plan[k - 1])
  }

  /** The disk when the power lasted for so many writes, or for all of them. */
  function Carried(d: Disk, plan: seq<Write>, power: nat): Disk {
    Done(d, plan, if power <= |plan| then power else |plan|)
  }

  function Learn(slots: map<Slot, string>, s: Slot, version: string): map<Slot, string> {
    if version == "" then slots else slots[s := version]
  }

  function InstallPlan(d: Disk, current: Slot, version: string, bundle: Bundle): seq<Write> {
    var target, r := current.Other(), bundle.release;
    var slots := Learn(Learn(d.record.slots, target, bundle.version), current, version);
    [TearRoot(target), PutRoot(target, r.root), PutKernel(target, r.kernel), PutInitramfs(target, r.initramfs),
     PutRecord(Record(bundle.version, Some(target), Some(current), slots)), PutActive(target)]
  }

  /** A rollback asks for whatever the other slot holds, provided that there is
      a kernel in it. */
  function RollbackPlan(d: Disk, current: Slot, version: string): seq<Write> {
    var target := current.Other();
    if d.At(target).kernel.None? then []
    else [PutRecord(Record(ROLLBACK_VERSION, Some(target), Some(current), Learn(d.record.slots, current, version))),
          PutActive(target)]
  }

  function ConfirmPlan(d: Disk, current: Slot, version: string): seq<Write> {
    var slots := Learn(d.record.slots, current, version);
    [PutEnvironment(Environment(0, None))] +
    if d.active == Some(current) then [PutRecord(d.record.(slots := slots))]
    else [PutActive(current), PutRecord(NO_RECORD.(slots := slots))]
  }

  class Manager {
    const current: Slot
    const version: string
    var a: Payload
    var b: Payload
    var record: Record
    var active: Option<Slot>
    var env: Environment
    // How many more writes go through before one fails or the power does.
    var power: nat

    function Contents(): Disk reads this { Disk(a, b, record, active, env) }

    constructor (d: Disk, current: Slot, version: string, power: nat)
      ensures Contents() == d && this.current == current && this.version == version && this.power == power
    {
      a, b, record, active, env := d.a, d.b, d.record, d.active, d.env;
      this.current, this.version, this.power := current, version, power;
    }

    method Put(w: Write) returns (ok: bool)
      modifies this
      ensures ok <==> old(power) > 0
      ensures power == if ok then old(power) - 1 else old(power)
      ensures Contents() == if ok then Written(old(Contents()), w) else old(Contents())
    {
      if power == 0 {
        return false;
      }
      power := power - 1;
      match w {
        case TearRoot(s) => if s == A { a := a.(root := None); } else { b := b.(root := None); }
        case PutRoot(s, content) => if s == A { a := a.(root := Some(content)); } else { b := b.(root := Some(content)); }
        case PutKernel(s, content) => if s == A { a := a.(kernel := Some(content)); } else { b := b.(kernel := Some(content)); }
        case PutInitramfs(s, content) =>
          if s == A { a := a.(initramfs := Some(content)); } else { b := b.(initramfs := Some(content)); }
        case PutRecord(r) => record := r;
        case PutActive(s) => active := Some(s);
        case PutEnvironment(e) => env := e;
      }
      ok := true;
    }

    /** The next write of a plan, if the power lasts. */
    method Next(ghost start: Disk, ghost plan: seq<Write>, ghost k: nat, w: Write) returns (ok: bool)
      requires k < |plan| && w == plan[k] && Contents() == Done(start, plan, k)
      modifies this
      ensures ok <==> old(power) > 0
      ensures power == if ok then old(power) - 1 else old(power)
      ensures Contents() == Done(start, plan, if ok then k + 1 else k)
      ensures !w.PutRecord? ==> record == old(record)
    {
      ok := Put(w);
    }

    method WriteSlot(ghost start: Disk, ghost plan: seq<Write>, target: Slot, r: Release) returns (ok: bool)
      requires |plan| >= 4 && plan[0] == TearRoot(target) && plan[1] == PutRoot(target, r.root)
      requires plan[2] == PutKernel(target, r.kernel) && plan[3] == PutInitramfs(target, r.initramfs)
      requires Contents() == start
      modifies this
      ensures ok <==> old(power) >= 4
      ensures power == if ok then old(power) - 4 else 0
      ensures Contents() == Done(start, plan, if ok then 4 else old(power)) && record == old(record)
    {
      ok := Next(start, plan, 0, TearRoot(target));
      if !ok { return; }
      ok := Next(start, plan, 1, PutRoot(target, r.root));
      if !ok { return; }
      ok := Next(start, plan, 2, PutKernel(target, r.kernel));
      if !ok { return; }
      ok := Next(start, plan, 3, PutInitramfs(target, r.initramfs));
    }

    /** The other slot is filled from the bundle and then named to boot. Without a
        bundle that passed verification nothing is written. */
    method Install(bundle: Option<Bundle>) returns (ok: bool)
      modifies this
      ensures bundle.None? ==> !ok && Contents() == old(Contents())
      ensures bundle.Some? ==>
                var plan := InstallPlan(old(Contents()), current, version, bundle.value);
                Contents() == Carried(old(Contents()), plan, old(power)) && (ok <==> old(power) >= |plan|)
    {
      if bundle.None? {
        return false;
      }
      var target := current.Other();
      ghost var start := Contents();
      ghost var plan := InstallPlan(start, current, version, bundle.value);
      ok := WriteSlot(start, plan, target, bundle.value.release);
      if !ok { return; }
      var slots := Learn(Learn(record.slots, target, bundle.value.version), current, version);
      ok := Next(start, plan, 4, PutRecord(Record(bundle.value.version, Some(target), Some(current), slots)));
      if !ok { return; }
      ok := Next(start, plan, 5, PutActive(target));
    }

    method StageRollback() returns (staged: Option<Slot>)
      modifies this
      ensures var plan := RollbackPlan(old(Contents()), current, version);
              && Contents() == Carried(old(Contents()), plan, old(power))
              && staged == if plan != [] && old(power) >= |plan| then Some(current.Other()) else None
    {
      var target := current.Other();
      if (if target == A then a else b).kernel.None? {
        return None;
      }
      ghost var start := Contents();
      ghost var plan := RollbackPlan(start, current, version);
      var slots := Learn(record.slots, current, version);
      var ok := Next(start, plan, 0, PutRecord(Record(ROLLBACK_VERSION, Some(target), Some(current), slots)));
      if !ok { return None; }
      ok := Next(start, plan, 1, PutActive(target));
      if !ok { return None; }
      staged := Some(target);
    }

    method ConfirmBoot() returns (ok: bool)
      modifies this
      ensures var plan := ConfirmPlan(old(Contents()), current, version);
              && Contents() == Carried(old(Contents()), plan, old(power))
              && (ok <==> old(power) >= |plan|)
    {
      ghost var start := Contents();
      ghost var plan := ConfirmPlan(start, current, version);
      ok := Next(start, plan, 0, PutEnvironment(Environment(0, None)));
      if !ok { return; }
      var state := record.(slots := Learn(record.slots, current, version));
      if active == Some(current) {
        ok := Next(start, plan, 1, PutRecord(state));
        return;
      }
      ok := Next(start, plan, 1, PutActive(current));
      if !ok { return; }
      ok := Next(start, plan, 2, PutRecord(NO_RECORD.(slots := state.slots)));
    }
  }

  // The boot loader. It counts an attempt before every boot and changes slots
  // when it has counted two that nobody confirmed.

  function Booting(d: Disk): Slot {
    var chosen := if d.env.fallback.Some? then d.env.fallback.value else d.Named();
    if d.env.tries == 2 then chosen.Other() else chosen
  }

  function Grub(d: Disk): Disk {
    d.(env := if d.env.tries == 2 then Environment(0, Some(Booting(d)))
              else Environment(if d.env.tries == 1 then 2 else 1, d.env.fallback))
  }

  /** The disk after so many attempts that got nowhere. */
  function Tried(d: Disk, attempts: nat): Disk {
    if attempts == 0 then d else Grub(Tried(d, attempts - 1))
  }

  /** Which releases reach a fully started system. */
  type Works = Release -> bool

  ghost predicate Bootable(p: Payload, works: Works) {
    exists r: Release :: p.Holds(r) && works(r)
  }

  /** The attempt, counted from zero, that boots a slot that works. */
  ghost predicate ComesUp(d: Disk, works: Works, attempt: nat) {
    Bootable(d.At(Booting(Tried(d, attempt))), works)
  }

  lemma {:induction false} AttemptsChangeOnlyTheEnvironment(d: Disk, attempts: nat)
    ensures var t := Tried(d, attempts); t == d.(env := t.env)
  {
    if attempts > 0 { AttemptsChangeOnlyTheEnvironment(d, attempts - 1); }
  }

  /** Four attempts find a slot that works, wherever the counter stands, if
      there is one. */
  lemma FourAttemptsAreEnough(d: Disk, works: Works) returns (attempt: nat)
    requires Bootable(d.a, works) || Bootable(d.b, works)
    ensures attempt < 4 && ComesUp(d, works, attempt)
    ensures d.env.tries != 2 ==> attempt < 3
  {
    var d1, d2, d3 := Tried(d, 1), Tried(d, 2), Tried(d, 3);
    assert d1 == Grub(Tried(d, 0)) && d2 == Grub(d1) && d3 == Grub(d2);
    assert Tried(d, 0) == d;
    if ComesUp(d, works, 0) { return 0; }
    if ComesUp(d, works, 1) { return 1; }
    if ComesUp(d, works, 2) { return 2; }
    return 3;
  }

  /** And fewer are not: a settled slot that is booted twice without anybody
      confirming it is left for the other one, and three attempts are lost on
      that before it is booted again. */
  lemma ThreeAttemptsAreNot(d: Disk, current: Slot, works: Works)
    requires Settled(d, current) && Bootable(d.At(current), works) && !Bootable(d.At(current.Other()), works)
    ensures ComesUp(d, works, 0) && ComesUp(d, works, 1)
    ensures !ComesUp(d, works, 2) && !ComesUp(d, works, 3) && !ComesUp(d, works, 4)
    ensures ComesUp(d, works, 5)
  {
    var d1, d2, d3, d4, d5 := Tried(d, 1), Tried(d, 2), Tried(d, 3), Tried(d, 4), Tried(d, 5);
    assert Tried(d, 0) == d && d1 == Grub(d) && d2 == Grub(d1) && d3 == Grub(d2) && d4 == Grub(d3) && d5 == Grub(d4);
  }

  // One operation, however far it got.

  datatype Operation = Installing(bundle: Bundle) | RollingBack | Confirming

  function PlanOf(op: Operation, d: Disk, current: Slot, version: string): seq<Write> {
    match op
    case Installing(bundle) => InstallPlan(d, current, version, bundle)
    case RollingBack => RollbackPlan(d, current, version)
    case Confirming => ConfirmPlan(d, current, version)
  }

  function Performed(op: Operation, d: Disk, current: Slot, version: string, power: nat): Disk {
    Carried(d, PlanOf(op, d, current, version), power)
  }

  lemma FirstWrites(d: Disk, plan: seq<Write>)
    ensures |plan| >= 1 ==> Done(d, plan, 1) == Written(d, plan[0])
    ensures |plan| >= 2 ==> Done(d, plan, 2) == Written(Written(d, plan[0]), plan[1])
    ensures |plan| >= 3 ==> Done(d, plan, 3) == Written(Written(Written(d, plan[0]), plan[1]), plan[2])
  {
    if |plan| >= 1 { assert Done(d, plan, 1) == Written(Done(d, plan, 0), plan[0]); }
    if |plan| >= 2 { assert Done(d, plan, 2) == Written(Done(d, plan, 1), plan[1]); }
    if |plan| >= 3 { assert Done(d, plan, 3) == Written(Done(d, plan, 2), plan[2]); }
  }

  lemma {:induction false} InstallAfter(d: Disk, current: Slot, version: string, bundle: Bundle, k: nat)
    requires k <= 6
    ensures var d' := Done(d, InstallPlan(d, current, version, bundle), k);
            var target, r := d'.At(current.Other()), bundle.release;
            && d'.At(current) == d.At(current) && d'.env == d.env
            && d'.active == (if k < 6 then d.active else Some(current.Other()))
            && (k == 0 ==> d' == d)
            && (k == 1 ==> target.root == None)
            && (k >= 2 ==> target.root == Some(r.root))
            && (k >= 3 ==> target.kernel == Some(r.kernel))
            && (k >= 4 ==> target.initramfs == Some(r.initramfs))
            && d'.record == if k < 5 then d.record
                            else Record(bundle.version, Some(current.Other()), Some(current),
                                        Learn(Learn(d.record.slots, current.Other(), bundle.version), current, version))
  {
    if k > 0 { InstallAfter(d, current, version, bundle, k - 1); }
  }

  /** The disk at every crash point of an installation: the running slot and the
      boot counter untouched; active-slot.cfg as it was up to the last write and
      naming the written slot from then on, which by then holds all of the
      bundle. */
  lemma InstallAtEveryCrashPoint(d: Disk, current: Slot, version: string, bundle: Bundle, power: nat)
    ensures var d' := Performed(Installing(bundle), d, current, version, power);
            && d'.At(current) == d.At(current) && d'.env == d.env
            && d'.active == (if power < 6 then d.active else Some(current.Other()))
            && (power == 1 ==> d'.At(current.Other()).root == None)
            && (power >= 4 ==> d'.At(current.Other()).Holds(bundle.release))
            && (power < 5 ==> d'.record == d.record)
            && (power >= 5 ==> d'.record.target == Some(current.Other()) && d'.record.version == bundle.version)
  {
    InstallAfter(d, current, version, bundle, if power <= 6 then power else 6);
  }

  ghost predicate Complete(p: Payload) {
    exists r: Release :: p.Holds(r)
  }

  /** An installation keeps active-slot.cfg naming a complete slot at every crash
      point if and only if it names the running slot to begin with: installing
      over a staged update tears the very slot it names. */
  lemma ActiveSlotStaysComplete(d: Disk, current: Slot, version: string, bundle: Bundle)
    requires Complete(d.At(current))
    ensures (forall power: nat ::
               var d' := Performed(Installing(bundle), d, current, version, power);
               Complete(d'.At(d'.Named()))) <==> d.Named() == current
  {
    if d.Named() == current {
      forall power: nat
        ensures var d' := Performed(Installing(bundle), d, current, version, power);
                Complete(d'.At(d'.Named()))
      {
        InstallAtEveryCrashPoint(d, current, version, bundle, power);
        var d' := Performed(Installing(bundle), d, current, version, power);
        if power >= 6 { assert d'.At(d'.Named()).Holds(bundle.release); }
      }
    } else {
      InstallAtEveryCrashPoint(d, current, version, bundle, 1);
      var torn := Performed(Installing(bundle), d, current, version, 1);
      assert !Complete(torn.At(torn.Named()));
    }
  }

  lemma OthersLeaveThePayloads(op: Operation, d: Disk, current: Slot, version: string, power: nat)
    requires !op.Installing?
    ensures var d' := Performed(op, d, current, version, power); d'.a == d.a && d'.b == d.b
  {
    FirstWrites(d, PlanOf(op, d, current, version));
  }

  /** No operation, wherever it is cut short, touches the slot that is running. */
  lemma RunningSlotIsUntouched(op: Operation, d: Disk, current: Slot, version: string, power: nat)
    ensures Performed(op, d, current, version, power).At(current) == d.At(current)
  {
    if op.Installing? {
      InstallAtEveryCrashPoint(d, current, version, op.bundle, power);
    } else {
      OthersLeaveThePayloads(op, d, current, version, power);
    }
  }

  // What the operator is told.

  datatype Status = Status(rebootRequired: bool, staged: Option<Slot>, stagedVersion: string, previousVersion: string)

  function Known(slots: map<Slot, string>, s: Slot): string { if s in slots then slots[s] else "" }

  function StatusOf(record: Record, current: Slot): Status {
    var previous := Known(record.slots, current.Other());
    if record.target.None? || record.target.value == current then Status(false, None, "", previous)
    else
      var known := Known(record.slots, record.target.value);
      Status(true, record.target,
             if record.version == ROLLBACK_VERSION && known != "" then known else record.version,
             previous)
  }

  /** The other slot is announced as waiting for a reboot when, and only when,
      that is what active-slot.cfg asks for. */
  predicate Truthful(d: Disk, current: Slot) {
    StatusOf(d.record, current).rebootRequired <==> d.Named() != current
  }

  /** Every operation that is not cut short leaves the announcement true. */
  lemma FinishedOperationsTellTheTruth(op: Operation, d: Disk, current: Slot, version: string, power: nat)
    requires Truthful(d, current) && power >= |PlanOf(op, d, current, version)|
    ensures Truthful(Performed(op, d, current, version, power), current)
  {
    CutShort(op, d, current, version, power);
  }

  /** The one place of each operation where losing power leaves it false: between
      the record and active-slot.cfg. */
  predicate LiesAfter(op: Operation, d: Disk, current: Slot, power: nat) {
    match op
    case Installing(_) => power == 5 && d.Named() == current
    case RollingBack => power == 1 && d.Named() == current && d.At(current.Other()).kernel.Some?
    case Confirming => power == 2 && d.Named() != current
  }

  lemma CutShort(op: Operation, d: Disk, current: Slot, version: string, power: nat)
    requires Truthful(d, current)
    ensures Truthful(Performed(op, d, current, version, power), current) <==> !LiesAfter(op, d, current, power)
  {
    if op.Installing? {
      InstallAtEveryCrashPoint(d, current, version, op.bundle, power);
    } else {
      FirstWrites(d, PlanOf(op, d, current, version));
    }
  }

  /** A confirmation that is not cut short: no fallback, nothing counted, the
      running slot on record; and a reboot is asked for afterwards only if it
      already was, and active-slot.cfg named the running slot even so. */
  lemma Confirmed(d: Disk, current: Slot, version: string, power: nat)
    requires power >= 3
    ensures var d' := Performed(Confirming, d, current, version, power);
            && d'.env == Environment(0, None) && d'.active == Some(current)
            && d'.a == d.a && d'.b == d.b
            && (version != "" ==> Known(d'.record.slots, current) == version)
            && Known(d'.record.slots, current.Other()) == Known(d.record.slots, current.Other())
            && (StatusOf(d'.record, current).rebootRequired <==>
                  d.active == Some(current) && StatusOf(d.record, current).rebootRequired)
  {
    FirstWrites(d, ConfirmPlan(d, current, version));
  }

  /** Losing power inside the confirmation of a fallback keeps the update that
      failed announced for good: a later confirmation does not drop it. */
  lemma FailedTargetStaysAnnounced(d: Disk, current: Slot, version: string)
    requires d.Named() == current.Other() && d.record.target == Some(current.Other())
    ensures var cut := Performed(Confirming, d, current, version, 2);
            StatusOf(Performed(Confirming, cut, current, version, 3).record, current).rebootRequired
  {
    FirstWrites(d, ConfirmPlan(d, current, version));
    Confirmed(Performed(Confirming, d, current, version, 2), current, version, 3);
  }

  /** What an installation or a rollback asked for is what boots next if and only
      if the boot loader is neither falling back to the slot that is running nor
      about to change slots - or both at once. */
  lemma StagedBootsNext(d: Disk, current: Slot)
    requires d.Named() == current.Other()
    ensures Booting(d) == current.Other() <==>
            (d.env.tries == 2 <==> d.env.fallback == Some(current))
  {}

  // Whole runs: operations cut short anywhere, power cuts, boots.

  datatype Event = PowerOn | PowerOff | Operate(op: Operation, version: string, power: nat)

  datatype Appliance = Appliance(disk: Disk, running: Option<Slot>)

  ghost function After(m: Appliance, e: Event, works: Works): Appliance {
    match e
    case PowerOn =>
      var s := Booting(m.disk);
      Appliance(Grub(m.disk), if Bootable(m.disk.At(s), works) then Some(s) else None)
    case PowerOff => m.(running := None)
    case Operate(op, version, power) =>
      if m.running.None? then m else m.(disk := Performed(op, m.disk, m.running.value, version, power))
  }

  ghost function AfterAll(m: Appliance, events: seq<Event>, works: Works): Appliance {
    if events == [] then m else After(AfterAll(m, events[..|events| - 1], works), events[|events| - 1], works)
  }

  /** Some slot works, and the one that is running is such a slot. */
  ghost predicate Recoverable(m: Appliance, works: Works) {
    && (Bootable(m.disk.a, works) || Bootable(m.disk.b, works))
    && (m.running.Some? ==> Bootable(m.disk.At(m.running.value), works))
  }

  lemma RecoverableAfter(m: Appliance, e: Event, works: Works)
    requires Recoverable(m, works)
    ensures Recoverable(After(m, e, works), works)
  {
    if e.Operate? && m.running.Some? {
      RunningSlotIsUntouched(e.op, m.disk, m.running.value, e.version, e.power);
    }
  }

  /** However an appliance has been treated - bundles that do not boot installed,
      installations, rollbacks and confirmations cut short anywhere, the power
      cycled at will - a slot that works is left, switching it on four times at
      most finds it, and a confirmation that is not cut short then settles it. */
  lemma {:induction false} RecoversFromAnything(m: Appliance, events: seq<Event>, works: Works, version: string)
      returns (attempt: nat)
    requires Recoverable(m, works)
    ensures var d := AfterAll(m, events, works).disk;
            && Recoverable(AfterAll(m, events, works), works)
            && attempt < 4 && ComesUp(d, works, attempt)
            && var current := Booting(Tried(d, attempt));
               var settled := Performed(Confirming, Tried(d, attempt + 1), current, version, 3);
               && Settled(settled, current)
               && Bootable(settled.At(current), works)
               && (d.Named() != current ==> !StatusOf(settled.record, current).rebootRequired)
    decreases |events|
  {
    var d := AfterAll(m, events, works).disk;
    if events != [] {
      var _ := RecoversFromAnything(m, events[..|events| - 1], works, version);
      RecoverableAfter(AfterAll(m, events[..|events| - 1], works), events[|events| - 1], works);
    }
    attempt := FourAttemptsAreEnough(d, works);
    AttemptsChangeOnlyTheEnvironment(d, attempt);
    AttemptsChangeOnlyTheEnvironment(d, attempt + 1);
    Confirmed(Tried(d, attempt + 1), Booting(Tried(d, attempt)), version, 3);
  }

  /** Nothing counted, no fallback, and active-slot.cfg names the slot. */
  predicate Settled(d: Disk, current: Slot) {
    d.env == Environment(0, None) && d.active == Some(current)
  }

  lemma HoldsOneRelease(p: Payload, r: Release, works: Works)
    requires p.Holds(r)
    ensures Bootable(p, works) <==> works(r)
  {}

  /** An update from beginning to end. One that works is booted next and settles
      once it is confirmed. One that does not is tried twice, the third boot is
      the old system again, and confirming that drops the update. */
  lemma UpdateFromBeginningToEnd(d: Disk, current: Slot, before: string, after: string, bundle: Bundle, works: Works)
    requires Settled(d, current) && Bootable(d.At(current), works)
    ensures var staged := Performed(Installing(bundle), d, current, before, 6);
            var target := current.Other();
            && StatusOf(staged.record, current).staged == Some(target)
            && (works(bundle.release) ==>
                  && Booting(staged) == target && ComesUp(staged, works, 0)
                  && var settled := Performed(Confirming, Grub(staged), target, after, 3);
                     Settled(settled, target) && !StatusOf(settled.record, target).rebootRequired)
            && (!works(bundle.release) ==>
                  && Booting(staged) == target && !ComesUp(staged, works, 0)
                  && Booting(Tried(staged, 1)) == target && !ComesUp(staged, works, 1)
                  && Booting(Tried(staged, 2)) == current && ComesUp(staged, works, 2)
                  && var settled := Performed(Confirming, Tried(staged, 3), current, before, 3);
                     Settled(settled, current) && !StatusOf(settled.record, current).rebootRequired)
  {
    var staged := Performed(Installing(bundle), d, current, before, 6);
    InstallAtEveryCrashPoint(d, current, before, bundle, 6);
    HoldsOneRelease(staged.At(current.Other()), bundle.release, works);
    var t1, t2 := Tried(staged, 1), Tried(staged, 2);
    assert Tried(staged, 0) == staged && t1 == Grub(staged) && t2 == Grub(t1) && Tried(staged, 3) == Grub(t2);
    if works(bundle.release) {
      Confirmed(Grub(staged), current.Other(), after, 3);
    } else {
      Confirmed(Tried(staged, 3), current, before, 3);
    }
  }

  /** What the operator is told once an installation or a rollback is through. */
  lemma StagedIsReported(d: Disk, current: Slot, version: string, bundle: Bundle)
    requires bundle.version != ""
    ensures var target := current.Other();
            StatusOf(Performed(Installing(bundle), d, current, version, 6).record, current)
            == Status(true, Some(target), bundle.version, bundle.version)
    ensures var target := current.Other();
            var known := Known(d.record.slots, target);
            d.At(target).kernel.Some? ==>
              StatusOf(Performed(RollingBack, d, current, version, 2).record, current)
              == Status(true, Some(target), if known != "" then known else ROLLBACK_VERSION, known)
  {
    InstallAfter(d, current, version, bundle, 6);
    FirstWrites(d, RollbackPlan(d, current, version));
  }
}
