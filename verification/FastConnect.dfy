/** Fast-connect as a concurrent machine: openers, streams, the guard and drain tasks.
  *
  * Every reference to a transport slot is a holder token. The slot's counters are updated the
  * way the code updates its atomics, one step each; the session of a slot lives until its
  * last reference goes. Slots are numbered in the order they became active.
  */
module FastConnect {
  import opened Common
  import opened Traversal

  type Identity = string

  datatype Conn = Conn(peerId: Identity, kind: TraversalKind, blsPub: Option<Bytes>)

  datatype Cause = Initial | Promoted | Redialed

  datatype Slot = Slot(
    conn: Conn, cause: Cause, closed: bool,
    alive: bool, refs: int, outstanding: int, notifications: nat)

  /** What a reference is for. A drain task remembers how many notifications had been sent
    * when it armed its wait.
    */
  datatype Hold =
    | ActiveHold
    | GateHold
    | Opening
    | Uncounted
    | Live
    | Ending(mustNotify: bool)
    | DrainCheck
    | DrainArm
    | DrainRecheck(armedAt: nat)
    | DrainParked(armedAt: nat)

  datatype Holder = Holder(slot: nat, hold: Hold)

  datatype Guard =
    | AwaitDirect
    | Gate(conn: Conn)
    | Probing(conn: Conn)
    | LoadActive
    | Watch(slot: nat)
    | Redialing
    | Gone

  datatype System = System(
    expected: Identity,
    fallback: bool,
    connected: bool,
    slots: seq<Slot>,
    holders: map<nat, Holder>,
    nextToken: nat,
    guard: Guard)

  /** The connection's own reference to the active slot, and the guard's hold while it gates. */
  const ACTIVE: nat := 0
  const GATE: nat := 1

  datatype Step =
    | LoadSlot
    | OpenOnSession(t: nat)
    | OpenFails(t: nat)
    | CountStream(t: nat)
    | BeginDrop(t: nat)
    | NotifyDrained(t: nat)
    | FinishDrop(t: nat)
    | TransportCloses(slot: nat)
    | DirectFails
    | DirectLands(conn: Conn)
    | CheckIdentity
    | ProbeFails
    | ProbeAnswers
    | WatchActive
    | SeeClosed
    | RedialFails
    | RedialLands(conn: Conn)
    | CheckDrained(t: nat)
    | ArmDrain(t: nat)
    | RecheckDrained(t: nat)
    | WakeDrain(t: nat)
    | GraceElapses(t: nat)
    | DropConnection
    | AbortGuard
    | FreeActive

  // ---------------------------------------------------------------- reference counting

  predicate Has(s: System, t: nat, hold: Hold) {
    t in s.holders && s.holders[t].hold == hold
  }

  function SlotOf(s: System, t: nat): nat
    requires t in s.holders
  {
    s.holders[t].slot
  }

  predicate InRange(s: System) {
    forall t :: t in s.holders ==> s.holders[t].slot < |s.slots| && t < s.nextToken
  }

  /** `Arc::clone`: token `t` now refers to `slot`. */
  function Attach(s: System, t: nat, slot: nat, hold: Hold): System
    requires slot < |s.slots|
  {
    s.(holders := s.holders[t := Holder(slot, hold)],
       slots := s.slots[slot := s.slots[slot].(refs := s.slots[slot].refs + 1)])
  }

  /** Dropping an `Arc`: the session ends with the last reference. */
  function Detach(s: System, t: nat): System
    requires t in s.holders && SlotOf(s, t) < |s.slots|
  {
    var slot := SlotOf(s, t);
    var refs := s.slots[slot].refs - 1;
    s.(holders := s.holders - {t},
       slots := s.slots[slot := s.slots[slot].(refs := refs, alive := s.slots[slot].alive && refs != 0)])
  }

  /** Token `t` changes purpose; the slot's stream counter moves by `delta`. */
  function Shift(s: System, t: nat, hold: Hold, delta: int): System
    requires t in s.holders && SlotOf(s, t) < |s.slots|
  {
    var slot := SlotOf(s, t);
    s.(holders := s.holders[t := Holder(slot, hold)],
       slots := s.slots[slot := s.slots[slot].(outstanding := s.slots[slot].outstanding + delta)])
  }

  /** `Arc::new` stored as the active slot: the connection holds its only reference. */
  function Install(s: System, conn: Conn, cause: Cause): System {
    s.(slots := s.slots + [Slot(conn, cause, false, true, 1, 0, 0)],
       holders := s.holders[ACTIVE := Holder(|s.slots|, ActiveHold)])
  }

  /** Replacing the active slot releases the connection's reference to the old one. */
  function Store(s: System, conn: Conn, cause: Cause): System
    requires ACTIVE in s.holders && SlotOf(s, ACTIVE) < |s.slots|
  {
    Install(Detach(s, ACTIVE), conn, cause)
  }

  function HeldOn(holders: map<nat, Holder>, slot: nat): set<nat> {
    set t | t in holders && holders[t].slot == slot
  }

  function LiveOn(holders: map<nat, Holder>, slot: nat): set<nat> {
    set t | t in holders && holders[t].slot == slot && holders[t].hold == Live
  }

  // ---------------------------------------------------------------- steps

  function AfterPromotion(s: System): System {
    s.(guard := if s.fallback then LoadActive else Gone)
  }

  predicate IdentityMatches(s: System, conn: Conn, slot: nat)
    requires slot < |s.slots|
  {
    conn.peerId == s.expected && conn.blsPub == s.slots[slot].conn.blsPub
  }

  /** Direct establishers yield direct-tier connections and the relayed one relayed ones. */
  predicate Enabled(s: System, step: Step) {
    match step
    case LoadSlot => s.connected && ACTIVE in s.holders
    case OpenOnSession(t) => Has(s, t, Opening)
    case OpenFails(t) => Has(s, t, Opening)
    case CountStream(t) => Has(s, t, Uncounted)
    case BeginDrop(t) => Has(s, t, Live)
    case NotifyDrained(t) => Has(s, t, Ending(true))
    case FinishDrop(t) => Has(s, t, Ending(false))
    case TransportCloses(slot) => slot < |s.slots|
    case DirectFails => s.guard.AwaitDirect?
    case DirectLands(conn) => s.guard.AwaitDirect? && conn.kind != Relayed && ACTIVE in s.holders
    case CheckIdentity => s.guard.Gate? && Has(s, GATE, GateHold)
    case ProbeFails => s.guard.Probing? && Has(s, GATE, GateHold)
    case ProbeAnswers => s.guard.Probing? && Has(s, GATE, GateHold) && ACTIVE in s.holders
    case WatchActive => s.guard.LoadActive? && ACTIVE in s.holders
    case SeeClosed => s.guard.Watch? && s.guard.slot < |s.slots| && s.slots[s.guard.slot].closed
    case RedialFails => s.guard.Redialing?
    case RedialLands(conn) => s.guard.Redialing? && conn.kind == Relayed && ACTIVE in s.holders
    case CheckDrained(t) => Has(s, t, DrainCheck)
    case ArmDrain(t) => Has(s, t, DrainArm)
    case RecheckDrained(t) => t in s.holders && s.holders[t].hold.DrainRecheck?
    case WakeDrain(t) =>
      t in s.holders && s.holders[t].hold.DrainParked? && SlotOf(s, t) < |s.slots|
      && s.holders[t].hold.armedAt < s.slots[SlotOf(s, t)].notifications
    case GraceElapses(t) => t in s.holders && s.holders[t].hold.DrainParked?
    case DropConnection => s.connected
    case AbortGuard => !s.connected && !s.guard.Gone?
    case FreeActive => !s.connected && s.guard.Gone? && ACTIVE in s.holders
  }

  function StreamStep(s: System, step: Step): System
    requires InRange(s) && Enabled(s, step)
  {
    match step
    case LoadSlot => Attach(s, s.nextToken, SlotOf(s, ACTIVE), Opening).(nextToken := s.nextToken + 1)
    case OpenOnSession(t) => Shift(s, t, Uncounted, 0)
    case OpenFails(t) => Detach(s, t)
    case CountStream(t) => Shift(s, t, Live, 1)
    case BeginDrop(t) => Shift(s, t, Ending(s.slots[SlotOf(s, t)].outstanding == 1), -1)
    case NotifyDrained(t) =>
      var slot := SlotOf(s, t);
      var shifted := Shift(s, t, Ending(false), 0);
      shifted.(slots := shifted.slots[slot := shifted.slots[slot].(notifications := s.slots[slot].notifications + 1)])
    case FinishDrop(t) => Detach(s, t)
    case _ => s
  }

  function GuardStep(s: System, step: Step): System
    requires InRange(s) && Enabled(s, step)
  {
    match step
    case TransportCloses(slot) => s.(slots := s.slots[slot := s.slots[slot].(closed := true)])
    case DirectFails => AfterPromotion(s)
    case DirectLands(conn) => Attach(s, GATE, SlotOf(s, ACTIVE), GateHold).(guard := Gate(conn))
    case CheckIdentity =>
      if IdentityMatches(s, s.guard.conn, SlotOf(s, GATE)) then s.(guard := Probing(s.guard.conn))
      else AfterPromotion(Detach(s, GATE))
    case ProbeFails => AfterPromotion(Detach(s, GATE))
    case ProbeAnswers =>
      var stored := Store(s, s.guard.conn, Promoted);
      AfterPromotion(Shift(stored, GATE, DrainCheck, 0))
    case WatchActive => s.(guard := Watch(SlotOf(s, ACTIVE)))
    case SeeClosed => s.(guard := Redialing)
    case RedialFails => s.(guard := Gone)
    case RedialLands(conn) => Store(s, conn, Redialed).(guard := LoadActive)
    case DropConnection => s.(connected := false)
    case AbortGuard => (if Has(s, GATE, GateHold) then Detach(s, GATE) else s).(guard := Gone)
    case FreeActive => Detach(s, ACTIVE)
    case _ => s
  }

  function DrainStep(s: System, step: Step): System
    requires InRange(s) && Enabled(s, step)
  {
    match step
    case CheckDrained(t) =>
      if s.slots[SlotOf(s, t)].outstanding == 0 then Detach(s, t) else Shift(s, t, DrainArm, 0)
    case ArmDrain(t) => Shift(s, t, DrainRecheck(s.slots[SlotOf(s, t)].notifications), 0)
    case RecheckDrained(t) =>
      if s.slots[SlotOf(s, t)].outstanding == 0 then Detach(s, t)
      else Shift(s, t, DrainParked(s.holders[t].hold.armedAt), 0)
    case WakeDrain(t) => Shift(s, t, DrainCheck, 0)
    case GraceElapses(t) => Detach(s, t)
    case _ => s
  }

  predicate IsStreamStep(step: Step) {
    step.LoadSlot? || step.OpenOnSession? || step.OpenFails? || step.CountStream?
    || step.BeginDrop? || step.NotifyDrained? || step.FinishDrop?
  }

  predicate IsDrainStep(step: Step) {
    step.CheckDrained? || step.ArmDrain? || step.RecheckDrained? || step.WakeDrain? || step.GraceElapses?
  }

  function Next(s: System, step: Step): System
    requires InRange(s) && Enabled(s, step)
  {
    if IsStreamStep(step) then StreamStep(s, step)
    else if IsDrainStep(step) then DrainStep(s, step)
    else GuardStep(s, step)
  }

  // ---------------------------------------------------------------- establishing a connection

  datatype Race = RelayedFirst | DirectFirst

  function Build(expected: Identity, conn: Conn, fallback: bool, guard: Guard): System {
    Install(System(expected, fallback, true, [], map[], 2, guard), conn, Initial)
  }

  /** The relayed transport is the one to start on: it is usable, and it landed first or alone. */
  predicate RelayedWins(relayed: Option<Option<Conn>>, direct: Option<Conn>, race: Race) {
    relayed.Some? && relayed.value.Some? && (race == RelayedFirst || direct.None?)
  }

  /** A connection begins on the winner, with one slot that only it refers to. The guard awaits a
    * promotion exactly when the relayed transport won, and falls back exactly when a relay tier is
    * wired; with neither to do it is gone.
    */
  predicate Starts(expected: Identity, relayed: Option<Option<Conn>>, direct: Option<Conn>, race: Race, s: System) {
    && s.expected == expected && s.connected
    && |s.slots| == 1 && s.slots[0].cause == Initial && !s.slots[0].closed
    && s.holders == map[ACTIVE := Holder(0, ActiveHold)]
    && (RelayedWins(relayed, direct, race) ==> s.slots[0].conn == relayed.value.value)
    && (!RelayedWins(relayed, direct, race) ==> direct == Some(s.slots[0].conn))
    && (s.guard == AwaitDirect <==> RelayedWins(relayed, direct, race))
    && (s.fallback <==> relayed.Some?)
    && (s.guard == Gone <==> relayed.None?)
  }

  /** The first usable transport wins; `relayed` is absent when no relay tier is wired. */
  function ConnectFastWith(expected: Identity, relayed: Option<Option<Conn>>, direct: Option<Conn>, race: Race)
    : (r: Option<System>)
    ensures r.None? <==> direct.None? && (relayed.None? || relayed.value.None?)
    ensures r.Some? ==> Starts(expected, relayed, direct, race, r.value)
  {
    if relayed.None? then
      if direct.None? then None else Some(Build(expected, direct.value, false, Gone))
    else
      match (race, relayed.value, direct)
      case (RelayedFirst, Some(conn), _) => Some(Build(expected, conn, true, AwaitDirect))
      case (RelayedFirst, None, Some(conn)) => Some(Build(expected, conn, true, LoadActive))
      case (DirectFirst, _, Some(conn)) => Some(Build(expected, conn, true, LoadActive))
      case (DirectFirst, Some(conn), None) => Some(Build(expected, conn, true, AwaitDirect))
      case (_, None, None) => None
  }

  /** The connections the two tiers are assumed to yield. */
  predicate TiersKeepTheirKind(relayed: Option<Option<Conn>>, direct: Option<Conn>) {
    && (direct.Some? ==> direct.value.kind != Relayed)
    && (relayed.Some? && relayed.value.Some? ==> relayed.value.value.kind == Relayed)
  }

  // ---------------------------------------------------------------- the counters

  ghost predicate SlotCounted(s: System, slot: nat)
    requires slot < |s.slots|
  {
    && s.slots[slot].refs == |HeldOn(s.holders, slot)|
    && s.slots[slot].outstanding == |LiveOn(s.holders, slot)|
    && (s.slots[slot].alive <==> s.slots[slot].refs > 0)
  }

  ghost predicate Counted(s: System) {
    InRange(s) && forall slot :: 0 <= slot < |s.slots| ==> SlotCounted(s, slot)
  }

  function One(b: bool): int {
    if b then 1 else 0
  }

  lemma HeldAfterRemoval(holders: map<nat, Holder>, t: nat, slot: nat)
    ensures |HeldOn(holders - {t}, slot)| == |HeldOn(holders, slot)| - One(t in holders && holders[t].slot == slot)
  {
    assert HeldOn(holders - {t}, slot) == HeldOn(holders, slot) - {t};
  }

  lemma LiveAfterRemoval(holders: map<nat, Holder>, t: nat, slot: nat)
    ensures |LiveOn(holders - {t}, slot)|
      == |LiveOn(holders, slot)| - One(t in holders && holders[t].slot == slot && holders[t].hold == Live)
  {
    assert LiveOn(holders - {t}, slot) == LiveOn(holders, slot) - {t};
  }

  lemma HeldAfterUpdate(holders: map<nat, Holder>, t: nat, h: Holder, slot: nat)
    ensures |HeldOn(holders[t := h], slot)|
      == |HeldOn(holders, slot)| - One(t in holders && holders[t].slot == slot) + One(h.slot == slot)
  {
    HeldAfterRemoval(holders, t, slot);
    var rest := HeldOn(holders - {t}, slot);
    assert HeldOn(holders[t := h], slot) == if h.slot == slot then rest + {t} else rest;
  }

  lemma LiveAfterUpdate(holders: map<nat, Holder>, t: nat, h: Holder, slot: nat)
    ensures |LiveOn(holders[t := h], slot)|
      == |LiveOn(holders, slot)| - One(t in holders && holders[t].slot == slot && holders[t].hold == Live)
         + One(h.slot == slot && h.hold == Live)
  {
    LiveAfterRemoval(holders, t, slot);
    var rest := LiveOn(holders - {t}, slot);
    if h.slot == slot && h.hold == Live {
      assert LiveOn(holders[t := h], slot) == rest + {t};
    } else {
      assert LiveOn(holders[t := h], slot) == rest;
    }
  }

  lemma AttachCounts(s: System, t: nat, slot: nat, hold: Hold, i: nat)
    requires InRange(s) && t !in s.holders && slot < |s.slots| && hold != Live && s.slots[slot].alive
    requires i < |s.slots| && SlotCounted(s, i)
    ensures SlotCounted(Attach(s, t, slot, hold), i)
  {
    HeldAfterUpdate(s.holders, t, Holder(slot, hold), i);
    LiveAfterUpdate(s.holders, t, Holder(slot, hold), i);
  }

  lemma AttachKeepsCounted(s: System, t: nat, slot: nat, hold: Hold)
    requires Counted(s) && t !in s.holders && t < s.nextToken && slot < |s.slots| && hold != Live
    requires s.slots[slot].alive
    ensures Counted(Attach(s, t, slot, hold))
  {
    forall i | 0 <= i < |s.slots|
      ensures SlotCounted(Attach(s, t, slot, hold), i)
    {
      assert SlotCounted(s, i);
      AttachCounts(s, t, slot, hold, i);
    }
  }

  lemma DetachCounts(s: System, t: nat, i: nat)
    requires InRange(s) && t in s.holders && s.holders[t].hold != Live
    requires i < |s.slots| && SlotCounted(s, i)
    ensures SlotCounted(Detach(s, t), i)
  {
    HeldAfterRemoval(s.holders, t, i);
    LiveAfterRemoval(s.holders, t, i);
    assert i == SlotOf(s, t) ==> t in HeldOn(s.holders, i);
  }

  lemma DetachKeepsCounted(s: System, t: nat)
    requires Counted(s) && t in s.holders && s.holders[t].hold != Live
    ensures Counted(Detach(s, t))
  {
    forall i | 0 <= i < |s.slots|
      ensures SlotCounted(Detach(s, t), i)
    {
      assert SlotCounted(s, i);
      DetachCounts(s, t, i);
    }
  }

  lemma ShiftCounts(s: System, t: nat, hold: Hold, delta: int, i: nat)
    requires InRange(s) && t in s.holders && delta == One(hold == Live) - One(s.holders[t].hold == Live)
    requires i < |s.slots| && SlotCounted(s, i)
    ensures SlotCounted(Shift(s, t, hold, delta), i)
  {
    HeldAfterUpdate(s.holders, t, Holder(SlotOf(s, t), hold), i);
    LiveAfterUpdate(s.holders, t, Holder(SlotOf(s, t), hold), i);
  }

  lemma ShiftKeepsCounted(s: System, t: nat, hold: Hold, delta: int)
    requires Counted(s) && t in s.holders && delta == One(hold == Live) - One(s.holders[t].hold == Live)
    ensures Counted(Shift(s, t, hold, delta))
  {
    forall i | 0 <= i < |s.slots|
      ensures SlotCounted(Shift(s, t, hold, delta), i)
    {
      assert SlotCounted(s, i);
      ShiftCounts(s, t, hold, delta, i);
    }
  }

  lemma InstallKeepsCounted(s: System, conn: Conn, cause: Cause)
    requires Counted(s) && ACTIVE !in s.holders && ACTIVE < s.nextToken
    ensures Counted(Install(s, conn, cause))
  {
    var s' := Install(s, conn, cause);
    assert HeldOn(s.holders, |s.slots|) == {} && LiveOn(s.holders, |s.slots|) == {};
    forall i | 0 <= i < |s'.slots|
      ensures SlotCounted(s', i)
    {
      HeldAfterUpdate(s.holders, ACTIVE, Holder(|s.slots|, ActiveHold), i);
      LiveAfterUpdate(s.holders, ACTIVE, Holder(|s.slots|, ActiveHold), i);
      if i < |s.slots| {
        assert s'.slots[i] == s.slots[i] && SlotCounted(s, i);
      }
    }
  }

  lemma StoreKeepsCounted(s: System, conn: Conn, cause: Cause)
    requires Counted(s) && Has(s, ACTIVE, ActiveHold)
    ensures Counted(Store(s, conn, cause))
  {
    DetachKeepsCounted(s, ACTIVE);
    InstallKeepsCounted(Detach(s, ACTIVE), conn, cause);
  }

  /** The reserved tokens serve their purpose and nothing else. */
  ghost predicate TokensInRole(s: System) {
    && s.nextToken >= 2
    && (ACTIVE in s.holders ==> s.holders[ACTIVE].hold == ActiveHold)
    && (s.guard.Gate? || s.guard.Probing? <==> Has(s, GATE, GateHold))
    && (s.guard.AwaitDirect? ==> GATE !in s.holders)
    && (s.connected || !s.guard.Gone? ==> ACTIVE in s.holders)
  }

  /** A session outlives every reference to its slot, and a stream about to be dropped is counted. */
  lemma HolderKeepsSessionAlive(s: System, t: nat)
    requires Counted(s) && t in s.holders
    ensures s.slots[SlotOf(s, t)].alive
    ensures s.holders[t].hold == Live ==> s.slots[SlotOf(s, t)].outstanding >= 1
  {
    var slot := SlotOf(s, t);
    assert SlotCounted(s, slot);
    assert t in HeldOn(s.holders, slot);
    if s.holders[t].hold == Live {
      assert t in LiveOn(s.holders, slot);
    }
  }

  lemma StreamStepKeepsCounted(s: System, step: Step)
    requires Counted(s) && TokensInRole(s) && Enabled(s, step) && IsStreamStep(step)
    ensures Counted(StreamStep(s, step))
  {
    match step
    case LoadSlot =>
      HolderKeepsSessionAlive(s, ACTIVE);
      var s' := s.(nextToken := s.nextToken + 1);
      assert forall i :: 0 <= i < |s.slots| ==> SlotCounted(s, i) ==> SlotCounted(s', i);
      AttachKeepsCounted(s', s.nextToken, SlotOf(s, ACTIVE), Opening);
    case OpenOnSession(t) => ShiftKeepsCounted(s, t, Uncounted, 0);
    case OpenFails(t) => DetachKeepsCounted(s, t);
    case CountStream(t) => ShiftKeepsCounted(s, t, Live, 1);
    case BeginDrop(t) => ShiftKeepsCounted(s, t, Ending(s.slots[SlotOf(s, t)].outstanding == 1), -1);
    case NotifyDrained(t) =>
      ShiftKeepsCounted(s, t, Ending(false), 0);
      SameCountsKeepCounted(Shift(s, t, Ending(false), 0), StreamStep(s, step));
    case FinishDrop(t) => DetachKeepsCounted(s, t);
  }

  /** Steps that leave references and counters alone. */
  lemma SameCountsKeepCounted(s: System, s': System)
    requires Counted(s) && s'.holders == s.holders && s'.nextToken == s.nextToken && |s'.slots| == |s.slots|
    requires forall i :: 0 <= i < |s.slots| ==>
      && s'.slots[i].refs == s.slots[i].refs
      && s'.slots[i].outstanding == s.slots[i].outstanding
      && s'.slots[i].alive == s.slots[i].alive
    ensures Counted(s')
  {
    forall i | 0 <= i < |s'.slots|
      ensures SlotCounted(s', i)
    {
      assert SlotCounted(s, i);
    }
  }

  lemma DrainStepKeepsCounted(s: System, step: Step)
    requires Counted(s) && Enabled(s, step) && IsDrainStep(step)
    ensures Counted(DrainStep(s, step))
  {
    var t := step.t;
    if t !in DrainStep(s, step).holders {
      DetachKeepsCounted(s, t);
    } else {
      ShiftKeepsCounted(s, t, DrainStep(s, step).holders[t].hold, 0);
    }
  }

  lemma GuardStepKeepsCounted(s: System, step: Step)
    requires Counted(s) && TokensInRole(s) && Enabled(s, step) && !IsStreamStep(step) && !IsDrainStep(step)
    ensures Counted(GuardStep(s, step))
  {
    var s' := GuardStep(s, step);
    match step
    case DirectLands(conn) =>
      HolderKeepsSessionAlive(s, ACTIVE);
      AttachKeepsCounted(s, GATE, SlotOf(s, ACTIVE), GateHold);
      SameCountsKeepCounted(Attach(s, GATE, SlotOf(s, ACTIVE), GateHold), s');
    case CheckIdentity =>
      DetachKeepsCounted(s, GATE);
      if IdentityMatches(s, s.guard.conn, SlotOf(s, GATE)) {
        SameCountsKeepCounted(s, s');
      } else {
        SameCountsKeepCounted(Detach(s, GATE), s');
      }
    case ProbeFails =>
      DetachKeepsCounted(s, GATE);
      SameCountsKeepCounted(Detach(s, GATE), s');
    case ProbeAnswers =>
      StoreKeepsCounted(s, s.guard.conn, Promoted);
      var stored := Store(s, s.guard.conn, Promoted);
      ShiftKeepsCounted(stored, GATE, DrainCheck, 0);
      SameCountsKeepCounted(Shift(stored, GATE, DrainCheck, 0), s');
    case RedialLands(conn) =>
      StoreKeepsCounted(s, conn, Redialed);
      SameCountsKeepCounted(Store(s, conn, Redialed), s');
    case AbortGuard =>
      if Has(s, GATE, GateHold) {
        DetachKeepsCounted(s, GATE);
        SameCountsKeepCounted(Detach(s, GATE), s');
      } else {
        SameCountsKeepCounted(s, s');
      }
    case FreeActive => DetachKeepsCounted(s, ACTIVE);
    case _ => SameCountsKeepCounted(s, s');
  }

  lemma StreamStepKeepsTokens(s: System, step: Step)
    requires InRange(s) && TokensInRole(s) && Enabled(s, step) && IsStreamStep(step)
    ensures TokensInRole(StreamStep(s, step)) && StreamStep(s, step).expected == s.expected
  {
  }

  lemma DrainStepKeepsTokens(s: System, step: Step)
    requires InRange(s) && TokensInRole(s) && Enabled(s, step) && IsDrainStep(step)
    ensures TokensInRole(DrainStep(s, step)) && DrainStep(s, step).expected == s.expected
  {
  }

  lemma GuardStepKeepsTokens(s: System, step: Step)
    requires InRange(s) && TokensInRole(s) && Enabled(s, step) && !IsStreamStep(step) && !IsDrainStep(step)
    ensures TokensInRole(GuardStep(s, step)) && GuardStep(s, step).expected == s.expected
  {
  }

  // ---------------------------------------------------------------- promotion and fallback

  predicate IsDirect(kind: TraversalKind) {
    kind != Relayed
  }

  /** The active-method trace is D R* or R D? R*. */
  ghost predicate TraceShape(slots: seq<Slot>) {
    forall i :: 1 <= i < |slots| && IsDirect(slots[i].conn.kind) ==> i == 1 && slots[0].conn.kind == Relayed
  }

  /** Why slot `i` was allowed to replace slot `i - 1`. */
  ghost predicate ReplacedProperly(expected: Identity, before: Slot, after: Slot) {
    match after.cause
    case Initial => false
    case Promoted =>
      && IsDirect(after.conn.kind)
      && after.conn.peerId == expected
      && after.conn.blsPub == before.conn.blsPub
    case Redialed => after.conn.kind == Relayed && before.closed
  }

  ghost predicate ReplacementsProper(s: System) {
    forall i :: 1 <= i < |s.slots| ==> ReplacedProperly(s.expected, s.slots[i - 1], s.slots[i])
  }

  /** What the guard knows at each of its states. */
  ghost predicate GuardKnows(s: System) {
    && s.slots != []
    && (ACTIVE in s.holders ==> SlotOf(s, ACTIVE) == |s.slots| - 1)
    && match s.guard
       case AwaitDirect => |s.slots| == 1 && s.slots[0].conn.kind == Relayed
       case Gate(conn) =>
         |s.slots| == 1 && s.slots[0].conn.kind == Relayed && IsDirect(conn.kind)
         && GATE in s.holders && SlotOf(s, GATE) == 0
       case Probing(conn) =>
         |s.slots| == 1 && s.slots[0].conn.kind == Relayed && IsDirect(conn.kind)
         && IdentityMatches(s, conn, 0)
       case Watch(slot) => slot == |s.slots| - 1
       case Redialing => s.slots[|s.slots| - 1].closed
       case _ => true
  }

  ghost predicate History(s: System) {
    GuardKnows(s) && TraceShape(s.slots) && ReplacementsProper(s)
  }

  /** A step that installs no slot: the history is as it was, and closed stays closed. */
  ghost predicate SameHistory(slots: seq<Slot>, slots': seq<Slot>) {
    && |slots| == |slots'|
    && forall i :: 0 <= i < |slots| ==>
        && slots'[i].conn == slots[i].conn
        && slots'[i].cause == slots[i].cause
        && (slots[i].closed ==> slots'[i].closed)
  }

  lemma SameHistoryKeepsShape(s: System, s': System)
    requires TraceShape(s.slots) && ReplacementsProper(s) && SameHistory(s.slots, s'.slots) && s'.expected == s.expected
    ensures TraceShape(s'.slots) && ReplacementsProper(s')
  {
    forall i | 1 <= i < |s'.slots|
      ensures ReplacedProperly(s'.expected, s'.slots[i - 1], s'.slots[i])
    {
      assert ReplacedProperly(s.expected, s.slots[i - 1], s.slots[i]);
    }
  }

  lemma InstallKeepsShape(s: System, s': System, conn: Conn, cause: Cause)
    requires s.slots != [] && TraceShape(s.slots) && ReplacementsProper(s) && s'.expected == s.expected
    requires |s'.slots| == |s.slots| + 1 && SameHistory(s.slots, s'.slots[..|s.slots|])
    requires s'.slots[|s.slots|].conn == conn && s'.slots[|s.slots|].cause == cause
    requires ReplacedProperly(s.expected, s'.slots[|s.slots| - 1], s'.slots[|s.slots|])
    requires IsDirect(conn.kind) ==> |s.slots| == 1 && s.slots[0].conn.kind == Relayed
    ensures TraceShape(s'.slots) && ReplacementsProper(s')
  {
    var old' := s'.slots[..|s.slots|];
    forall i | 1 <= i < |s'.slots|
      ensures ReplacedProperly(s'.expected, s'.slots[i - 1], s'.slots[i])
      ensures IsDirect(s'.slots[i].conn.kind) ==> i == 1 && s'.slots[0].conn.kind == Relayed
    {
      if i < |s.slots| {
        assert old'[i - 1] == s'.slots[i - 1] && old'[i] == s'.slots[i];
        assert ReplacedProperly(s.expected, s.slots[i - 1], s.slots[i]);
      }
      assert old'[0] == s'.slots[0];
    }
  }

  /** A step that leaves the guard, the reserved tokens and the slots' past alone. */
  lemma UntouchedKeepsHistory(s: System, s': System)
    requires History(s) && SameHistory(s.slots, s'.slots)
    requires s'.expected == s.expected && s'.guard == s.guard
    requires ACTIVE in s'.holders ==> ACTIVE in s.holders && SlotOf(s', ACTIVE) == SlotOf(s, ACTIVE)
    requires s.guard.Gate? ==> GATE in s.holders && GATE in s'.holders && SlotOf(s', GATE) == SlotOf(s, GATE)
    ensures History(s')
  {
    SameHistoryKeepsShape(s, s');
  }

  lemma DetachKeepsHistory(s: System, t: nat)
    requires InRange(s) && History(s) && t in s.holders && (t == GATE ==> !s.guard.Gate?)
    ensures History(Detach(s, t))
  {
    UntouchedKeepsHistory(s, Detach(s, t));
  }

  lemma ShiftKeepsHistory(s: System, t: nat, hold: Hold, delta: int)
    requires InRange(s) && History(s) && t in s.holders
    ensures History(Shift(s, t, hold, delta))
  {
    UntouchedKeepsHistory(s, Shift(s, t, hold, delta));
  }

  lemma StreamStepKeepsHistory(s: System, step: Step)
    requires InRange(s) && TokensInRole(s) && History(s) && Enabled(s, step) && IsStreamStep(step)
    ensures History(StreamStep(s, step))
  {
    hide History;
    match step
    case LoadSlot => UntouchedKeepsHistory(s, StreamStep(s, step));
    case OpenOnSession(t) => ShiftKeepsHistory(s, t, Uncounted, 0);
    case OpenFails(t) => DetachKeepsHistory(s, t);
    case CountStream(t) => ShiftKeepsHistory(s, t, Live, 1);
    case BeginDrop(t) => ShiftKeepsHistory(s, t, Ending(s.slots[SlotOf(s, t)].outstanding == 1), -1);
    case NotifyDrained(t) => UntouchedKeepsHistory(s, StreamStep(s, step));
    case FinishDrop(t) => DetachKeepsHistory(s, t);
  }

  lemma DrainStepKeepsHistory(s: System, step: Step)
    requires InRange(s) && TokensInRole(s) && History(s) && Enabled(s, step) && IsDrainStep(step)
    ensures History(DrainStep(s, step))
  {
    hide TraceShape, ReplacementsProper, GuardKnows;
    var s', t := DrainStep(s, step), step.t;
    if t !in s'.holders {
      DetachKeepsHistory(s, t);
    } else {
      ShiftKeepsHistory(s, t, s'.holders[t].hold, 0);
    }
  }

  lemma StoreKeepsHistory(s: System, conn: Conn, cause: Cause)
    requires InRange(s) && Has(s, ACTIVE, ActiveHold) && History(s)
    requires cause == Promoted ==> s.guard.Probing? && s.guard.conn == conn
    requires cause == Redialed ==> s.guard.Redialing? && conn.kind == Relayed
    requires cause != Initial
    ensures var s' := Store(s, conn, cause);
      && TraceShape(s'.slots) && ReplacementsProper(s')
      && |s'.slots| == |s.slots| + 1 && SlotOf(s', ACTIVE) == |s.slots|
  {
    InstallKeepsShape(s, Store(s, conn, cause), conn, cause);
  }

  lemma SwapStepKeepsHistory(s: System, step: Step)
    requires InRange(s) && TokensInRole(s) && History(s) && Enabled(s, step)
    requires step.ProbeAnswers? || step.RedialLands?
    ensures History(GuardStep(s, step))
  {
    var s' := GuardStep(s, step);
    if step.ProbeAnswers? {
      StoreKeepsHistory(s, s.guard.conn, Promoted);
      SameHistoryKeepsShape(Store(s, s.guard.conn, Promoted), s');
    } else {
      StoreKeepsHistory(s, step.conn, Redialed);
      SameHistoryKeepsShape(Store(s, step.conn, Redialed), s');
    }
  }

  lemma GuardStepKeepsHistory(s: System, step: Step)
    requires InRange(s) && TokensInRole(s) && History(s) && Enabled(s, step)
    requires !IsStreamStep(step) && !IsDrainStep(step)
    ensures History(GuardStep(s, step))
  {
    hide TraceShape, ReplacementsProper;
    if step.ProbeAnswers? || step.RedialLands? {
      SwapStepKeepsHistory(s, step);
    } else {
      SameHistoryKeepsShape(s, GuardStep(s, step));
    }
  }

  // ---------------------------------------------------------------- drain wakeups

  /** Some stream on the slot has counted down to zero and is about to notify. */
  ghost predicate NotifyPending(s: System, slot: nat) {
    exists t :: t in s.holders && s.holders[t] == Holder(slot, Ending(true))
  }

  ghost predicate WaitJustified(s: System, t: nat)
    requires t in s.holders && SlotOf(s, t) < |s.slots|
  {
    var slot := s.slots[SlotOf(s, t)];
    match s.holders[t].hold
    case DrainRecheck(armedAt) => armedAt <= slot.notifications
    case DrainParked(armedAt) =>
      && armedAt <= slot.notifications
      && (armedAt == slot.notifications ==> slot.outstanding != 0 || NotifyPending(s, SlotOf(s, t)))
    case _ => true
  }

  ghost predicate WaitsJustified(s: System) {
    InRange(s) && forall t :: t in s.holders ==> WaitJustified(s, t)
  }

  /** The justification for waiting on slot `i` carries over, or a notification has been sent. */
  ghost predicate StillJustified(s: System, s': System, i: nat)
    requires i < |s.slots| && i < |s'.slots|
  {
    && s.slots[i].notifications <= s'.slots[i].notifications
    && (s.slots[i].notifications == s'.slots[i].notifications ==>
        s.slots[i].outstanding != 0 || NotifyPending(s, i) ==>
        s'.slots[i].outstanding != 0 || NotifyPending(s', i))
  }

  /** Only token `t0` changed purpose, came or went. */
  ghost predicate OthersSame(s: System, s': System, t0: nat) {
    forall t :: t != t0 ==>
      && (t in s'.holders <==> t in s.holders)
      && (t in s.holders ==> s'.holders[t] == s.holders[t])
  }

  lemma PendingCarriesOver(s: System, s': System, t0: nat, i: nat)
    requires OthersSame(s, s', t0)
    requires t0 in s.holders ==> s.holders[t0] != Holder(i, Ending(true))
    ensures NotifyPending(s, i) ==> NotifyPending(s', i)
  {
    if NotifyPending(s, i) {
      var t :| t in s.holders && s.holders[t] == Holder(i, Ending(true));
      assert t in s'.holders && s'.holders[t] == s.holders[t];
    }
  }

  lemma WaitsCarryOver(s: System, s': System, t0: nat)
    requires WaitsJustified(s) && InRange(s') && |s.slots| <= |s'.slots| && OthersSame(s, s', t0)
    requires forall i :: 0 <= i < |s.slots| ==> StillJustified(s, s', i)
    requires t0 in s'.holders ==> WaitJustified(s', t0)
    ensures WaitsJustified(s')
  {
    forall t | t in s'.holders && t != t0
      ensures WaitJustified(s', t)
    {
      assert WaitJustified(s, t);
      assert StillJustified(s, s', SlotOf(s, t));
    }
  }

  /** Token `t0` changes without having owed a notification; notifications stay as they are and
    * no stream counter that justified a wait drops to zero.
    */
  lemma PlainStepKeepsWaits(s: System, s': System, t0: nat)
    requires WaitsJustified(s) && InRange(s') && |s.slots| <= |s'.slots| && OthersSame(s, s', t0)
    requires t0 in s.holders ==> s.holders[t0].hold != Ending(true)
    requires forall i :: 0 <= i < |s.slots| ==>
      && s'.slots[i].notifications == s.slots[i].notifications
      && (s.slots[i].outstanding != 0 ==> s'.slots[i].outstanding != 0)
    requires t0 in s'.holders ==> WaitJustified(s', t0)
    ensures WaitsJustified(s')
  {
    forall i | 0 <= i < |s.slots|
      ensures StillJustified(s, s', i)
    {
      PendingCarriesOver(s, s', t0, i);
    }
    WaitsCarryOver(s, s', t0);
  }

  lemma BeginDropKeepsWaits(s: System, t: nat)
    requires WaitsJustified(s) && Enabled(s, BeginDrop(t))
    ensures WaitsJustified(StreamStep(s, BeginDrop(t)))
  {
    var s' := StreamStep(s, BeginDrop(t));
    forall i | 0 <= i < |s.slots|
      ensures StillJustified(s, s', i)
    {
      PendingCarriesOver(s, s', t, i);
      if i == SlotOf(s, t) && s.slots[i].outstanding == 1 {
        assert s'.holders[t] == Holder(i, Ending(true));
      }
    }
    WaitsCarryOver(s, s', t);
  }

  lemma NotifyKeepsWaits(s: System, t: nat)
    requires WaitsJustified(s) && Enabled(s, NotifyDrained(t))
    ensures WaitsJustified(StreamStep(s, NotifyDrained(t)))
  {
    var s' := StreamStep(s, NotifyDrained(t));
    forall i | 0 <= i < |s.slots|
      ensures StillJustified(s, s', i)
    {
      if i != SlotOf(s, t) {
        PendingCarriesOver(s, s', t, i);
      }
    }
    WaitsCarryOver(s, s', t);
  }

  lemma StreamStepKeepsWaits(s: System, step: Step)
    requires Counted(s) && TokensInRole(s) && WaitsJustified(s) && Enabled(s, step) && IsStreamStep(step)
    ensures WaitsJustified(StreamStep(s, step))
  {
    var s' := StreamStep(s, step);
    match step
    case LoadSlot => PlainStepKeepsWaits(s, s', s.nextToken);
    case CountStream(t) =>
      assert SlotCounted(s, SlotOf(s, t));
      PlainStepKeepsWaits(s, s', t);
    case BeginDrop(t) => BeginDropKeepsWaits(s, t);
    case NotifyDrained(t) => NotifyKeepsWaits(s, t);
    case OpenOnSession(t) => PlainStepKeepsWaits(s, s', t);
    case OpenFails(t) => PlainStepKeepsWaits(s, s', t);
    case FinishDrop(t) => PlainStepKeepsWaits(s, s', t);
  }

  lemma DrainStepKeepsWaits(s: System, step: Step)
    requires WaitsJustified(s) && Enabled(s, step) && IsDrainStep(step)
    ensures WaitsJustified(DrainStep(s, step))
  {
    var s', t := DrainStep(s, step), step.t;
    assert WaitJustified(s, t);
    PlainStepKeepsWaits(s, s', t);
  }

  lemma StoreKeepsWaits(s: System, conn: Conn, cause: Cause)
    requires WaitsJustified(s) && Has(s, ACTIVE, ActiveHold) && ACTIVE < s.nextToken
    ensures WaitsJustified(Store(s, conn, cause))
  {
    PlainStepKeepsWaits(s, Store(s, conn, cause), ACTIVE);
  }

  lemma DetachKeepsWaits(s: System, t: nat)
    requires WaitsJustified(s) && t in s.holders && s.holders[t].hold != Ending(true)
    ensures WaitsJustified(Detach(s, t))
  {
    PlainStepKeepsWaits(s, Detach(s, t), t);
  }

  lemma GuardMoveKeepsWaits(s: System, guard: Guard, connected: bool)
    requires WaitsJustified(s)
    ensures WaitsJustified(s.(guard := guard, connected := connected))
  {
    PlainStepKeepsWaits(s, s.(guard := guard, connected := connected), s.nextToken);
  }

  lemma SwapStepKeepsWaits(s: System, step: Step)
    requires TokensInRole(s) && WaitsJustified(s) && Enabled(s, step)
    requires step.ProbeAnswers? || step.RedialLands?
    ensures WaitsJustified(GuardStep(s, step))
  {
    if step.ProbeAnswers? {
      StoreKeepsWaits(s, s.guard.conn, Promoted);
      PlainStepKeepsWaits(Store(s, s.guard.conn, Promoted), GuardStep(s, step), GATE);
    } else {
      StoreKeepsWaits(s, step.conn, Redialed);
      GuardMoveKeepsWaits(Store(s, step.conn, Redialed), LoadActive, s.connected);
    }
  }

  lemma GuardStepKeepsWaits(s: System, step: Step)
    requires TokensInRole(s) && WaitsJustified(s) && Enabled(s, step)
    requires !IsStreamStep(step) && !IsDrainStep(step)
    ensures WaitsJustified(GuardStep(s, step))
  {
    var s' := GuardStep(s, step);
    GuardMoveKeepsWaits(s, s'.guard, s'.connected);
    if Has(s, GATE, GateHold) {
      DetachKeepsWaits(s, GATE);
      GuardMoveKeepsWaits(Detach(s, GATE), s'.guard, s'.connected);
    }
    match step
    case ProbeAnswers => SwapStepKeepsWaits(s, step);
    case RedialLands(conn) => SwapStepKeepsWaits(s, step);
    case FreeActive => DetachKeepsWaits(s, ACTIVE);
    case DirectLands(conn) => PlainStepKeepsWaits(s, s', GATE);
    case TransportCloses(slot) => PlainStepKeepsWaits(s, s', s.nextToken);
    case _ =>
  }

  // ---------------------------------------------------------------- every run

  ghost predicate Inv(s: System) {
    Counted(s) && TokensInRole(s) && History(s) && WaitsJustified(s)
  }

  lemma StepKeepsInv(s: System, step: Step)
    requires Inv(s) && Enabled(s, step)
    ensures Inv(Next(s, step)) && Next(s, step).expected == s.expected
  {
    if IsStreamStep(step) {
      StreamStepKeepsTokens(s, step);
      StreamStepKeepsCounted(s, step);
      StreamStepKeepsHistory(s, step);
      StreamStepKeepsWaits(s, step);
    } else if IsDrainStep(step) {
      DrainStepKeepsTokens(s, step);
      DrainStepKeepsCounted(s, step);
      DrainStepKeepsHistory(s, step);
      DrainStepKeepsWaits(s, step);
    } else {
      GuardStepKeepsTokens(s, step);
      GuardStepKeepsCounted(s, step);
      GuardStepKeepsHistory(s, step);
      GuardStepKeepsWaits(s, step);
    }
  }

  lemma BuildIsSound(expected: Identity, conn: Conn, fallback: bool, guard: Guard)
    requires guard.AwaitDirect? || guard.LoadActive? || guard.Gone?
    requires guard.AwaitDirect? ==> conn.kind == Relayed
    ensures Inv(Build(expected, conn, fallback, guard))
  {
    var empty := System(expected, fallback, true, [], map[], 2, guard);
    assert Counted(empty);
    InstallKeepsCounted(empty, conn, Initial);
  }

  lemma LaunchIsSound(expected: Identity, relayed: Option<Option<Conn>>, direct: Option<Conn>, race: Race)
    requires TiersKeepTheirKind(relayed, direct) && ConnectFastWith(expected, relayed, direct, race).Some?
    ensures Inv(ConnectFastWith(expected, relayed, direct, race).value)
  {
    var s := ConnectFastWith(expected, relayed, direct, race).value;
    var conn := s.slots[0].conn;
    assert s == Build(expected, conn, s.fallback, s.guard);
    BuildIsSound(expected, conn, s.fallback, s.guard);
  }

  ghost predicate Executes(states: seq<System>, steps: seq<Step>) {
    && |states| == |steps| + 1
    && forall i :: 0 <= i < |steps| ==>
        InRange(states[i]) && Enabled(states[i], steps[i]) && states[i + 1] == Next(states[i], steps[i])
  }

  /** A run starts from what the race of the two tiers produced. */
  ghost predicate Launched(s: System) {
    exists relayed, direct, race ::
      TiersKeepTheirKind(relayed, direct) && ConnectFastWith(s.expected, relayed, direct, race) == Some(s)
  }

  ghost predicate IsRun(states: seq<System>, steps: seq<Step>) {
    Executes(states, steps) && Launched(states[0])
  }

  lemma LaunchedIsSound(s: System)
    requires Launched(s)
    ensures Inv(s)
  {
    var relayed, direct, race :|
      TiersKeepTheirKind(relayed, direct) && ConnectFastWith(s.expected, relayed, direct, race) == Some(s);
    LaunchIsSound(s.expected, relayed, direct, race);
  }

  lemma {:induction false} RunsAreSound(states: seq<System>, steps: seq<Step>, i: nat)
    requires IsRun(states, steps) && i < |states|
    ensures Inv(states[i])
  {
    if i == 0 {
      LaunchedIsSound(states[0]);
    } else {
      RunsAreSound(states, steps, i - 1);
      StepKeepsInv(states[i - 1], steps[i - 1]);
    }
  }

  lemma {:induction false} ExpectedNeverChanges(states: seq<System>, steps: seq<Step>, i: nat)
    requires IsRun(states, steps) && i < |states|
    ensures states[i].expected == states[0].expected
  {
    if i == 0 {
    } else {
      ExpectedNeverChanges(states, steps, i - 1);
      RunsAreSound(states, steps, i - 1);
      StepKeepsInv(states[i - 1], steps[i - 1]);
    }
  }

  /** Slot safety: the session of a slot is alive while anything refers to the slot, the
    * stream counter is the number of live streams, and dropping a stream never underflows it.
    */
  lemma SessionOutlivesItsStreams(states: seq<System>, steps: seq<Step>, i: nat, t: nat)
    requires IsRun(states, steps) && i < |states| && t in states[i].holders
    ensures SlotOf(states[i], t) < |states[i].slots|
    ensures var slot := states[i].slots[SlotOf(states[i], t)];
      && slot.alive
      && slot.outstanding == |LiveOn(states[i].holders, SlotOf(states[i], t))|
      && (states[i].holders[t].hold == Live ==> slot.outstanding >= 1)
  {
    RunsAreSound(states, steps, i);
    HolderKeepsSessionAlive(states[i], t);
    assert SlotCounted(states[i], SlotOf(states[i], t));
  }

  /** A token handed out before the step keeps its slot for as long as it is held. */
  ghost predicate KeepsSlot(s: System, s': System, t: nat) {
    && s.nextToken <= s'.nextToken
    && (t in s'.holders ==> t in s.holders && s'.holders[t].slot == s.holders[t].slot)
  }

  lemma StreamStepKeepsSlot(s: System, step: Step, t: nat)
    requires InRange(s) && Enabled(s, step) && IsStreamStep(step) && t < s.nextToken
    ensures KeepsSlot(s, StreamStep(s, step), t)
  {
  }

  lemma DrainStepKeepsSlot(s: System, step: Step, t: nat)
    requires InRange(s) && Enabled(s, step) && IsDrainStep(step)
    ensures KeepsSlot(s, DrainStep(s, step), t)
  {
  }

  lemma GuardStepKeepsSlot(s: System, step: Step, t: nat)
    requires InRange(s) && Enabled(s, step) && !IsStreamStep(step) && !IsDrainStep(step) && t > GATE
    ensures KeepsSlot(s, GuardStep(s, step), t)
  {
  }

  lemma StepKeepsSlot(s: System, step: Step, t: nat)
    requires InRange(s) && Enabled(s, step) && GATE < t < s.nextToken
    ensures KeepsSlot(s, Next(s, step), t)
  {
    if IsStreamStep(step) {
      StreamStepKeepsSlot(s, step, t);
    } else if IsDrainStep(step) {
      DrainStepKeepsSlot(s, step, t);
    } else {
      GuardStepKeepsSlot(s, step, t);
    }
  }

  /** No stream ever changes slot, whatever is promoted or re-dialled meanwhile; a token once
    * released never comes back.
    */
  lemma {:induction false} StreamsNeverMigrate(states: seq<System>, steps: seq<Step>, i: nat, j: nat, t: nat)
    requires Executes(states, steps) && i <= j < |states|
    requires GATE < t < states[i].nextToken
    ensures states[i].nextToken <= states[j].nextToken
    ensures t in states[j].holders ==>
      t in states[i].holders && states[j].holders[t].slot == states[i].holders[t].slot
  {
    if i == j {
    } else {
      StreamsNeverMigrate(states, steps, i, j - 1, t);
      StepKeepsSlot(states[j - 1], steps[j - 1], t);
    }
  }

  /** The whole run of a fast connection: the slots' kinds read D R* or R D? R*, so there is at
    * most one promotion; a slot was replaced only by a direct one that passed the gate with
    * the expected identity and the replaced slot's key, or by a relayed one after closing.
    */
  lemma ActiveTraceHasItsShape(states: seq<System>, steps: seq<Step>, i: nat)
    requires IsRun(states, steps) && i < |states|
    ensures TraceShape(states[i].slots)
    ensures forall k :: 1 <= k < |states[i].slots| ==>
      ReplacedProperly(states[0].expected, states[i].slots[k - 1], states[i].slots[k])
    ensures ACTIVE in states[i].holders ==> SlotOf(states[i], ACTIVE) == |states[i].slots| - 1
  {
    ExpectedNeverChanges(states, steps, i);
    RunsAreSound(states, steps, i);
  }

  /** No lost drain wakeup: a drain parked with no notification sent since it armed, and none
    * about to be sent, waits for a stream that is still live.
    */
  lemma ParkedDrainHasLiveStreams(states: seq<System>, steps: seq<Step>, i: nat, t: nat)
    requires IsRun(states, steps) && i < |states|
    requires t in states[i].holders && states[i].holders[t].hold.DrainParked?
    requires !Enabled(states[i], WakeDrain(t)) && !NotifyPending(states[i], SlotOf(states[i], t))
    ensures LiveOn(states[i].holders, SlotOf(states[i], t)) != {}
  {
    RunsAreSound(states, steps, i);
    assert WaitJustified(states[i], t);
    assert SlotCounted(states[i], SlotOf(states[i], t));
  }

  predicate IsDrain(hold: Hold) {
    hold.DrainCheck? || hold.DrainArm? || hold.DrainRecheck? || hold.DrainParked?
  }

  lemma StreamStepKeepsDrains(s: System, step: Step, t: nat)
    requires InRange(s) && Enabled(s, step) && IsStreamStep(step)
    requires t in s.holders && IsDrain(s.holders[t].hold)
    ensures t in StreamStep(s, step).holders
  {
  }

  lemma GuardStepKeepsDrains(s: System, step: Step, t: nat)
    requires InRange(s) && TokensInRole(s) && Enabled(s, step) && !IsStreamStep(step) && !IsDrainStep(step)
    requires t in s.holders && IsDrain(s.holders[t].hold)
    ensures t in GuardStep(s, step).holders
  {
  }

  lemma DrainStepReleasesWhenDue(s: System, step: Step, t: nat)
    requires InRange(s) && Enabled(s, step) && IsDrainStep(step)
    requires t in s.holders && t !in DrainStep(s, step).holders
    ensures step == GraceElapses(t) || s.slots[SlotOf(s, t)].outstanding == 0
  {
  }

  /** A drain lets go of its slot only when the grace cap fires or no live stream is left on it. */
  lemma DrainHoldsUntilDue(states: seq<System>, steps: seq<Step>, i: nat, t: nat)
    requires IsRun(states, steps) && i < |steps|
    requires t in states[i].holders && IsDrain(states[i].holders[t].hold) && t !in states[i + 1].holders
    ensures steps[i] == GraceElapses(t) || LiveOn(states[i].holders, SlotOf(states[i], t)) == {}
  {
    var s, step := states[i], steps[i];
    RunsAreSound(states, steps, i);
    assert SlotCounted(s, SlotOf(s, t));
    if IsStreamStep(step) {
      StreamStepKeepsDrains(s, step, t);
    } else if IsDrainStep(step) {
      DrainStepReleasesWhenDue(s, step, t);
    } else {
      GuardStepKeepsDrains(s, step, t);
    }
  }

  /** The next action of a drain, and how many of them it needs once nothing is left to wait for. */
  function DrainTurn(hold: Hold, t: nat): Step
    requires IsDrain(hold)
  {
    match hold
    case DrainCheck => CheckDrained(t)
    case DrainArm => ArmDrain(t)
    case DrainRecheck(_) => RecheckDrained(t)
    case DrainParked(_) => WakeDrain(t)
  }

  function DrainDistance(hold: Hold): nat {
    if hold.DrainArm? || hold.DrainParked? then 2 else 1
  }

  /** Once the last stream on its slot has gone and notified, a drain can act without waiting for
    * the grace cap, and each of its actions brings it nearer to letting go.
    */
  lemma DrainEndsWithItsStreams(states: seq<System>, steps: seq<Step>, i: nat, t: nat)
    requires IsRun(states, steps) && i < |states|
    requires t in states[i].holders && IsDrain(states[i].holders[t].hold)
    requires LiveOn(states[i].holders, SlotOf(states[i], t)) == {} && !NotifyPending(states[i], SlotOf(states[i], t))
    ensures InRange(states[i]) && Enabled(states[i], DrainTurn(states[i].holders[t].hold, t))
    ensures var s' := Next(states[i], DrainTurn(states[i].holders[t].hold, t));
      t in s'.holders ==>
        && IsDrain(s'.holders[t].hold)
        && DrainDistance(s'.holders[t].hold) < DrainDistance(states[i].holders[t].hold)
  {
    RunsAreSound(states, steps, i);
    assert WaitJustified(states[i], t);
    assert SlotCounted(states[i], SlotOf(states[i], t));
  }

  lemma StreamStepOpensOnActive(s: System, step: Step, t: nat)
    requires InRange(s) && Enabled(s, step) && IsStreamStep(step)
    requires t !in s.holders && t in StreamStep(s, step).holders
    ensures step.LoadSlot? && s.connected && ACTIVE in s.holders
    ensures StreamStep(s, step).holders[t] == Holder(SlotOf(s, ACTIVE), Opening)
  {
  }

  /** A stream opens on the newest slot: the only step that hands out a token takes it there. */
  lemma NewStreamsUseTheNewestSlot(states: seq<System>, steps: seq<Step>, i: nat, t: nat)
    requires IsRun(states, steps) && i < |steps| && t > GATE
    requires t !in states[i].holders && t in states[i + 1].holders
    ensures steps[i].LoadSlot? && states[i].connected
    ensures states[i + 1].holders[t] == Holder(|states[i].slots| - 1, Opening)
  {
    var s, step := states[i], steps[i];
    assert History(s) by {
      RunsAreSound(states, steps, i);
    }
    if IsStreamStep(step) {
      StreamStepOpensOnActive(s, step, t);
    } else if IsDrainStep(step) {
      DrainStepKeepsSlot(s, step, t);
    } else {
      GuardStepKeepsSlot(s, step, t);
    }
  }

  /** A slot is added exactly when an availability probe is answered or a re-dial lands, with
    * that very connection; earlier slots keep theirs and close only with their transport.
    */
  ghost predicate SwappedProperly(s: System, step: Step, slots': seq<Slot>) {
    && |slots'| == |s.slots| + One(step.ProbeAnswers? || step.RedialLands?)
    && (step.ProbeAnswers? && s.guard.Probing? ==> slots'[|s.slots|].conn == s.guard.conn)
    && (step.RedialLands? ==> slots'[|s.slots|].conn == step.conn)
    && (forall k :: 0 <= k < |s.slots| ==>
        && slots'[k].conn == s.slots[k].conn
        && (slots'[k].closed <==> s.slots[k].closed || step == TransportCloses(k)))
  }

  lemma StreamStepSwapsNothing(s: System, step: Step)
    requires InRange(s) && Enabled(s, step) && IsStreamStep(step)
    ensures SwappedProperly(s, step, StreamStep(s, step).slots)
  {
  }

  lemma DrainStepSwapsNothing(s: System, step: Step)
    requires InRange(s) && Enabled(s, step) && IsDrainStep(step)
    ensures SwappedProperly(s, step, DrainStep(s, step).slots)
  {
  }

  lemma OtherGuardStepSwapsNothing(s: System, step: Step)
    requires InRange(s) && Enabled(s, step) && !IsStreamStep(step) && !IsDrainStep(step)
    requires !step.ProbeAnswers? && !step.RedialLands?
    ensures SwappedProperly(s, step, GuardStep(s, step).slots)
  {
  }

  lemma GuardStepSwapsProperly(s: System, step: Step)
    requires InRange(s) && TokensInRole(s) && Enabled(s, step) && !IsStreamStep(step) && !IsDrainStep(step)
    ensures SwappedProperly(s, step, GuardStep(s, step).slots)
  {
    if step.ProbeAnswers? {
      assert SwappedProperly(s, step, Store(s, s.guard.conn, Promoted).slots);
    } else if !step.RedialLands? {
      OtherGuardStepSwapsNothing(s, step);
    }
  }

  /** The active slot changes exactly when the gate's probe is answered or a re-dial lands. */
  lemma SwappedExactlyWhen(states: seq<System>, steps: seq<Step>, i: nat)
    requires IsRun(states, steps) && i < |steps|
    ensures SwappedProperly(states[i], steps[i], states[i + 1].slots)
  {
    var s, step := states[i], steps[i];
    assert TokensInRole(s) by {
      RunsAreSound(states, steps, i);
    }
    if IsStreamStep(step) {
      StreamStepSwapsNothing(s, step);
    } else if IsDrainStep(step) {
      DrainStepSwapsNothing(s, step);
    } else {
      GuardStepSwapsProperly(s, step);
    }
  }

  // ---------------------------------------------------------------- falling back, again and again

  /** The guard gives up only when a re-dial fails or the connection is dropped. */
  predicate GivesUp(step: Step) {
    step.RedialFails? || step.AbortGuard?
  }

  lemma GuardStaysUnlessGivenUp(s: System, step: Step)
    requires InRange(s) && Enabled(s, step) && s.fallback && !s.guard.Gone? && !GivesUp(step)
    ensures Next(s, step).fallback && !Next(s, step).guard.Gone?
  {
  }

  lemma LaunchedWithFallbackHasGuard(s: System)
    requires Launched(s) && s.fallback
    ensures !s.guard.Gone?
  {
  }

  /** With a relay tier the guard outlives every promotion, refused or not, and every re-dial: it is
    * gone only after a re-dial has failed or the connection has been dropped.
    */
  lemma {:induction false} GuardOutlivesEveryRedial(states: seq<System>, steps: seq<Step>, i: nat)
    requires IsRun(states, steps) && states[0].fallback && i < |states|
    requires forall j :: 0 <= j < i ==> !steps[j].RedialFails? && !steps[j].AbortGuard?
    ensures !states[i].guard.Gone? && states[i].fallback
  {
    hide Next;
    if i == 0 {
      LaunchedWithFallbackHasGuard(states[0]);
    } else {
      GuardOutlivesEveryRedial(states, steps, i - 1);
      GuardStaysUnlessGivenUp(states[i - 1], steps[i - 1]);
    }
  }

  /** What the guard does next while it watches over the active slot, and how far it is from
    * re-dialling once that has closed.
    */
  function GuardTurn(guard: Guard): Step
    requires guard.LoadActive? || guard.Watch?
  {
    if guard.LoadActive? then WatchActive else SeeClosed
  }

  function RedialDistance(guard: Guard): nat {
    match guard
    case Redialing => 0
    case Watch(_) => 1
    case _ => 2
  }

  /** A guard past its promotion phase always watches the newest slot next. Once that slot has closed
    * the guard can act without waiting, and is at most two steps from re-dialling.
    */
  lemma ClosedTransportIsRedialed(states: seq<System>, steps: seq<Step>, i: nat)
    requires IsRun(states, steps) && i < |states|
    requires states[i].guard.LoadActive? || states[i].guard.Watch?
    ensures InRange(states[i]) && states[i].slots != []
    ensures states[i].guard.LoadActive? ==>
      && Enabled(states[i], WatchActive)
      && Next(states[i], WatchActive).guard == Watch(|states[i].slots| - 1)
    ensures states[i].guard.Watch? ==> states[i].guard.slot == |states[i].slots| - 1
    ensures states[i].slots[|states[i].slots| - 1].closed ==>
      && Enabled(states[i], GuardTurn(states[i].guard))
      && RedialDistance(Next(states[i], GuardTurn(states[i].guard)).guard) < RedialDistance(states[i].guard) <= 2
  {
    RunsAreSound(states, steps, i);
  }

  /** Where the guard stands after each step that ends one of its waits. */
  predicate LeadsOn(s: System, step: Step, guard': Guard) {
    match step
    case DirectFails => guard' == if s.fallback then LoadActive else Gone
    case ProbeFails => guard' == if s.fallback then LoadActive else Gone
    case ProbeAnswers => guard' == if s.fallback then LoadActive else Gone
    case SeeClosed => guard' == Redialing
    case RedialLands(_) => guard' == LoadActive
    case RedialFails => guard' == Gone
    case _ => true
  }

  lemma GuardStepLeadsOn(s: System, step: Step)
    requires InRange(s) && Enabled(s, step)
    ensures LeadsOn(s, step, Next(s, step).guard)
  {
  }

  /** Every way the promotion phase can end leads on to the fallback phase when there is one, as does
    * every re-dial that lands.
    */
  lemma EveryPhaseLeadsToFallback(states: seq<System>, steps: seq<Step>, i: nat)
    requires IsRun(states, steps) && i < |steps|
    ensures LeadsOn(states[i], steps[i], states[i + 1].guard)
  {
    hide Next, Enabled, LeadsOn;
    GuardStepLeadsOn(states[i], steps[i]);
  }

  /** A promotion leaves the gate's reference on the relayed slot, to drain it. */
  lemma PromotionDrainsTheRelayedSlot(states: seq<System>, steps: seq<Step>, i: nat)
    requires IsRun(states, steps) && i < |steps| && steps[i].ProbeAnswers?
    ensures |states[i].slots| == 1 && states[i].slots[0].conn.kind == Relayed
    ensures GATE in states[i + 1].holders && states[i + 1].holders[GATE] == Holder(0, DrainCheck)
  {
    assert InRange(states[i]) && GuardKnows(states[i]) by {
      RunsAreSound(states, steps, i);
    }
  }

  /** What the guard waits for may turn out either way, whichever connection comes of it. */
  predicate TakesEveryOutcome(s: System, conn: Conn)
    requires InRange(s)
  {
    match s.guard
    case AwaitDirect =>
      && Enabled(s, DirectFails)
      && (conn.kind != Relayed ==> Enabled(s, DirectLands(conn)) && Next(s, DirectLands(conn)).guard == Gate(conn))
    case Gate(_) => Enabled(s, CheckIdentity)
    case Probing(_) => Enabled(s, ProbeAnswers) && Enabled(s, ProbeFails)
    case Redialing => Enabled(s, RedialFails) && (conn.kind == Relayed ==> Enabled(s, RedialLands(conn)))
    case _ => true
  }

  lemma GuardTakesEveryOutcome(s: System, conn: Conn)
    requires InRange(s) && TokensInRole(s) && GuardKnows(s)
    ensures TakesEveryOutcome(s, conn)
  {
  }

  /** Nothing that can happen to a connection is refused: besides the outcomes of the guard's waits, a
    * transport may close at any time, and a stream may be opened as long as the connection is held.
    */
  lemma NoOutcomeIsRefused(states: seq<System>, steps: seq<Step>, i: nat, conn: Conn, slot: nat)
    requires IsRun(states, steps) && i < |states| && slot < |states[i].slots|
    ensures InRange(states[i]) && (states[i].connected ==> Enabled(states[i], LoadSlot))
    ensures Enabled(states[i], TransportCloses(slot)) && Next(states[i], TransportCloses(slot)).slots[slot].closed
    ensures TakesEveryOutcome(states[i], conn)
  {
    assert InRange(states[i]) && TokensInRole(states[i]) && GuardKnows(states[i]) by {
      RunsAreSound(states, steps, i);
    }
    GuardTakesEveryOutcome(states[i], conn);
  }

  /** The identity gate: a direct connection goes on to the probe exactly when it is to the expected
    * peer and carries the key of the slot it would replace; otherwise it is let go.
    */
  lemma GatePassesExactlyTheSamePeer(states: seq<System>, steps: seq<Step>, i: nat)
    requires IsRun(states, steps) && i < |steps| && steps[i] == CheckIdentity
    ensures states[i].guard.Gate? && |states[i].slots| == 1
    ensures var conn, kept := states[i].guard.conn, states[i].slots[0].conn;
      if conn.peerId == states[0].expected && conn.blsPub == kept.blsPub then states[i + 1].guard == Probing(conn)
      else states[i + 1].guard == (if states[i].fallback then LoadActive else Gone) && GATE !in states[i + 1].holders
  {
    ExpectedNeverChanges(states, steps, i);
    RunsAreSound(states, steps, i);
  }

  /** Dropping the connection lets everything of its own go: a guard still at work can be aborted,
    * taking the gate's reference with it, and then the reference to the active slot can be released.
    */
  lemma DroppedConnectionLetsGo(states: seq<System>, steps: seq<Step>, i: nat)
    requires IsRun(states, steps) && i < |states| && !states[i].connected
    ensures InRange(states[i])
    ensures states[i].guard != Gone ==>
      && Enabled(states[i], AbortGuard)
      && Next(states[i], AbortGuard).guard == Gone
      && !Has(Next(states[i], AbortGuard), GATE, GateHold)
    ensures states[i].guard == Gone && ACTIVE in states[i].holders ==>
      Enabled(states[i], FreeActive) && ACTIVE !in Next(states[i], FreeActive).holders
  {
    RunsAreSound(states, steps, i);
  }

  /** When the grace cap fires on a waiting drain, the drain lets go at once, streams or not. */
  lemma GraceCapReleases(states: seq<System>, steps: seq<Step>, i: nat, t: nat)
    requires IsRun(states, steps) && i < |states|
    requires t in states[i].holders && states[i].holders[t].hold.DrainParked?
    ensures InRange(states[i]) && Enabled(states[i], GraceElapses(t))
    ensures t !in Next(states[i], GraceElapses(t)).holders
  {
    RunsAreSound(states, steps, i);
  }

  /** Opening a stream counts it once; dropping it counts it out, and owes the drain a notification
    * exactly when it was the last; a notification is then sent and the stream's hold released.
    */
  lemma StreamLifeCycle(states: seq<System>, steps: seq<Step>, i: nat)
    requires IsRun(states, steps) && i < |steps|
    ensures match steps[i]
      case LoadSlot => Has(states[i + 1], states[i].nextToken, Opening)
      case OpenOnSession(t) => Has(states[i + 1], t, Uncounted)
      case CountStream(t) =>
        states[i + 1].slots[SlotOf(states[i], t)].outstanding == states[i].slots[SlotOf(states[i], t)].outstanding + 1
      case BeginDrop(t) =>
        var before, after := states[i].slots[SlotOf(states[i], t)], states[i + 1].slots[SlotOf(states[i], t)];
        && after.outstanding == before.outstanding - 1
        && Has(states[i + 1], t, Ending(after.outstanding == 0))
      case NotifyDrained(t) =>
        && states[i + 1].slots[SlotOf(states[i], t)].notifications
          == states[i].slots[SlotOf(states[i], t)].notifications + 1
        && Has(states[i + 1], t, Ending(false))
      case OpenFails(t) => t !in states[i + 1].holders
      case FinishDrop(t) => t !in states[i + 1].holders
      case _ => true
  {
    assert InRange(states[i]);
  }
}
