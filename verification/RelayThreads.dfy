/** The circuit table under any number of threads, one lock region per step.
  *
  * A dial, a relayed frame, a tunnel drop and a transport reset each run as several critical
  * sections with arbitrary steps of other threads in between. What survives every
  * interleaving is registration ownership.
  */
module RelayThreads {
  import opened Common
  import opened Circuit
  import opened CircuitRuns

  /** Where a thread stands between two lock regions. */
  datatype Pc =
    | Idle
    | SawConnected(target: PeerId)
    | SawOutbound(target: PeerId)
    | DialChecked(target: PeerId)
    | Delivering(sink: nat, payload: Bytes)
    | Accepting(from: PeerId, payload: Bytes)
    | Introducing(from: PeerId, payload: Bytes)
    | Inserted(id: nat, from: PeerId, payload: Bytes)
    | Fed(id: nat)
    | Dropping(id: nat)
    | Releasing(id: nat)
    | Clearing

  datatype System = System(node: Node, threads: map<nat, Pc>)

  datatype Step =
    | Outside(ev: Event)
    | Disconnect
    | StartDial(t: nat, target: PeerId)
    | CheckOutbound(t: nat)
    | CheckSelf(t: nat)
    | CommitDial(t: nat)
    | DecideRoute(t: nat, from: PeerId, payload: Bytes)
    | SendToSink(t: nat)
    | CheckIntroduction(t: nat)
    | RegisterServer(t: nat)
    | FeedHello(t: nat)
    | Surface(t: nat)
    | StartDrop(t: nat, id: nat)
    | CloseById(t: nat)
    | Release(t: nat)
    | StopSending(t: nat)
    | ClearTable(t: nat)

  function PcOf(s: System, t: nat): Pc {
    if t in s.threads then s.threads[t] else Idle
  }

  /** The tunnel handle a thread owns between two of its steps. */
  function Holding(pc: Pc): Option<nat> {
    match pc
    case Inserted(id, _, _) => Some(id)
    case Fed(id) => Some(id)
    case Dropping(id) => Some(id)
    case Releasing(id) => Some(id)
    case _ => None
  }

  ghost predicate HeldByThread(s: System, id: nat) {
    exists t :: t in s.threads && Holding(s.threads[t]) == Some(id)
  }

  /** Frames are routed only while a session is served, so the node's own id is known by then. */
  ghost predicate StepEnabled(s: System, step: Step) {
    match step
    case Outside(ev) =>
      Enabled(s.node, ev) && !(ev.Dial? || ev.Frame? || ev.Drop? || ev.BeginSession? || ev.EndSession?)
    case Disconnect => true
    case StartDial(t, _) => PcOf(s, t).Idle?
    case CheckOutbound(t) => PcOf(s, t).SawConnected?
    case CheckSelf(t) => PcOf(s, t).SawOutbound?
    case CommitDial(t) => PcOf(s, t).DialChecked?
    case DecideRoute(t, _, _) => PcOf(s, t).Idle? && s.node.local.Some?
    case SendToSink(t) => PcOf(s, t).Delivering?
    case CheckIntroduction(t) => PcOf(s, t).Accepting?
    case RegisterServer(t) => PcOf(s, t).Introducing?
    case FeedHello(t) => PcOf(s, t).Inserted?
    case Surface(t) => PcOf(s, t).Fed?
    case StartDrop(t, id) =>
      PcOf(s, t).Idle? && id in s.node.handles && id !in QueuedIds(s.node) && !HeldByThread(s, id)
    case CloseById(t) => PcOf(s, t).Dropping? && PcOf(s, t).id in s.node.handles
    case Release(t) => PcOf(s, t).Releasing?
    case StopSending(t) => PcOf(s, t).Idle?
    case ClearTable(t) => PcOf(s, t).Clearing?
  }

  function Moved(s: System, t: nat, node: Node, pc: Pc): System {
    System(node, s.threads[t := pc])
  }

  /** The first region of routing: stamp, choose a route, perhaps give up the client circuit. */
  function Route(s: System, t: nat, from: PeerId, payload: Bytes): System {
    var n := s.node;
    if !Admissible(n, from, payload) then s
    else if from !in n.tunnels then Moved(s, t, n, Accepting(from, payload))
    else if Yields(n, from, payload) then Moved(s, t, Forget(n, from), Accepting(from, payload))
    else
      var stamped := n.(tunnels := n.tunnels[from := n.tunnels[from].(lastActivity := n.now)]);
      Moved(s, t, stamped,
            if Glare(n, from, payload) then Idle else Delivering(n.tunnels[from].id, payload))
  }

  function Next(own: PeerId, s: System, step: Step): System
    requires StepEnabled(s, step)
  {
    var n := s.node;
    match step
    case Outside(ev) => s.(node := Apply(own, n, ev))
    case Disconnect => s.(node := n.(connected := false))
    case StartDial(t, target) => Moved(s, t, n, if n.connected then SawConnected(target) else Idle)
    case CheckOutbound(t) => Moved(s, t, n, if n.outbound then SawOutbound(s.threads[t].target) else Idle)
    case CheckSelf(t) =>
      var target := s.threads[t].target;
      Moved(s, t, n, if IsSelf(n, target) then Idle else DialChecked(target))
    case CommitDial(t) =>
      var target := s.threads[t].target;
      Moved(s, t, if Fresh(n, target) then n else InsertEntry(n, target, Client), Idle)
    case DecideRoute(t, from, payload) => Route(s, t, from, payload)
    case SendToSink(t) =>
      Moved(s, t, n.(handles := TrySend(n.handles, s.threads[t].sink, s.threads[t].payload)), Idle)
    case CheckIntroduction(t) =>
      var pc := s.threads[t];
      Moved(s, t, n, if IsTlsClientHello(pc.payload) && n.accept.Some? then Introducing(pc.from, pc.payload) else Idle)
    case RegisterServer(t) =>
      var pc := s.threads[t];
      if pc.from in n.tunnels || |n.tunnels| >= MAX_RELAY_TUNNELS then Moved(s, t, n, Idle)
      else Moved(s, t, InsertEntry(n, pc.from, Server), Inserted(n.nextId, pc.from, pc.payload))
    case FeedHello(t) =>
      var pc := s.threads[t];
      Moved(s, t,
            if pc.from in n.tunnels then n.(handles := TrySend(n.handles, n.tunnels[pc.from].id, pc.payload)) else n,
            Fed(pc.id))
    case Surface(t) =>
      var id := s.threads[t].id;
      if AcceptHasRoom(n) then
        Moved(s, t, n.(accept := Some(n.accept.value.(queue := n.accept.value.queue + [id]))), Idle)
      else Moved(s, t, n, Dropping(id))
    case StartDrop(t, id) => Moved(s, t, n, Dropping(id))
    case CloseById(t) =>
      var id := s.threads[t].id;
      Moved(s, t, CloseTunnel(n, n.handles[id].target, id), Releasing(id))
    case Release(t) => Moved(s, t, n.(handles := n.handles - {s.threads[t].id}), Idle)
    case StopSending(t) => Moved(s, t, n.(outbound := false), Clearing)
    case ClearTable(t) => Moved(s, t, n.(tunnels := map[]), Idle)
  }

  ghost predicate Distinct(ids: seq<nat>) {
    forall i, j :: 0 <= i < j < |ids| ==> ids[i] != ids[j]
  }

  /** Handles belong to at most one of: a thread, the accept queue, the consumer. */
  ghost predicate HandlesExclusive(s: System) {
    && (forall t :: t in s.threads && Holding(s.threads[t]).Some? ==>
        && Holding(s.threads[t]).value in s.node.handles
        && Holding(s.threads[t]).value !in QueuedIds(s.node))
    && (forall t, u :: t in s.threads && u in s.threads && t != u && Holding(s.threads[t]).Some? ==>
        Holding(s.threads[t]) != Holding(s.threads[u]))
    && (forall id :: id in QueuedIds(s.node) ==> id in s.node.handles)
    && Distinct(QueuedIds(s.node))
  }

  /** A handle about to be freed no longer backs any table entry. */
  ghost predicate ReleasedAreDetached(s: System) {
    forall t, p :: t in s.threads && s.threads[t].Releasing? && p in s.node.tunnels ==>
      s.node.tunnels[p].id != s.threads[t].id
  }

  ghost predicate Sound(s: System) {
    Owned(s.node) && HandlesExclusive(s) && ReleasedAreDetached(s)
  }

  /** Thread `t` moves on to a state holding the same handle, or none; the node's handles and
    * queue are unchanged and its table gains no old id.
    */
  lemma QuietMove(s: System, t: nat, node: Node, pc: Pc)
    requires Sound(s) && Owned(node)
    requires node.handles.Keys == s.node.handles.Keys && QueuedIds(node) == QueuedIds(s.node)
    requires forall p :: p in node.tunnels ==> p in s.node.tunnels && s.node.tunnels[p].id == node.tunnels[p].id
    requires Holding(pc).Some? ==> t in s.threads && Holding(pc) == Holding(s.threads[t])
    requires pc.Releasing? ==> forall p :: p in node.tunnels ==> node.tunnels[p].id != pc.id
    ensures Sound(Moved(s, t, node, pc))
  {
  }

  /** Thread `t` registers a fresh circuit, keeping its handle or passing it to the consumer. */
  lemma RegisterMove(s: System, t: nat, peer: PeerId, role: Role, pc: Pc)
    requires Sound(s)
    requires Holding(pc) in {None, Some(s.node.nextId)} && !pc.Releasing?
    ensures Sound(Moved(s, t, InsertEntry(s.node, peer, role), pc))
  {
    var s' := Moved(s, t, InsertEntry(s.node, peer, role), pc);
    assert Owned(s'.node);
    assert QueuedIds(s'.node) == QueuedIds(s.node);
    forall u | u in s'.threads && s'.threads[u].Releasing?
      ensures s'.threads[u].id != s.node.nextId
    {
      assert u in s.threads && Holding(s.threads[u]) == Some(s'.threads[u].id);
    }
  }

  lemma SendKeepsOwned(n: Node, id: nat, payload: Bytes)
    requires Owned(n)
    ensures Owned(n.(handles := TrySend(n.handles, id, payload)))
    ensures TrySend(n.handles, id, payload).Keys == n.handles.Keys
  {
  }

  lemma RouteKeepsSound(s: System, t: nat, from: PeerId, payload: Bytes)
    requires Sound(s) && PcOf(s, t).Idle?
    ensures Sound(Route(s, t, from, payload))
  {
    var s' := Route(s, t, from, payload);
    if s' != s {
      QuietMove(s, t, s'.node, s'.threads[t]);
      assert Moved(s, t, s'.node, s'.threads[t]) == s';
    }
  }

  lemma OutsideKeepsSound(own: PeerId, s: System, ev: Event)
    requires Sound(s) && StepEnabled(s, Outside(ev))
    ensures Sound(Next(own, s, Outside(ev)))
  {
    var n' := Apply(own, s.node, ev);
    assert Owned(n');
    if ev.TakeAccepted? {
      assert QueuedIds(n') == QueuedIds(s.node)[1..];
    }
  }

  lemma SurfaceKeepsSound(own: PeerId, s: System, t: nat)
    requires Sound(s) && StepEnabled(s, Surface(t))
    ensures Sound(Next(own, s, Surface(t)))
  {
    var id := s.threads[t].id;
    if !AcceptHasRoom(s.node) {
      QuietMove(s, t, s.node, Dropping(id));
    }
  }

  lemma ReleaseKeepsSound(own: PeerId, s: System, t: nat)
    requires Sound(s) && StepEnabled(s, Release(t))
    ensures Sound(Next(own, s, Release(t)))
  {
  }

  lemma DialStepKeepsSound(own: PeerId, s: System, step: Step)
    requires Sound(s) && StepEnabled(s, step)
    requires step.StartDial? || step.CheckOutbound? || step.CheckSelf? || step.CommitDial?
    ensures Sound(Next(own, s, step))
  {
    match step
    case StartDial(t, target) => QuietMove(s, t, s.node, Next(own, s, step).threads[t]);
    case CheckOutbound(t) => QuietMove(s, t, s.node, Next(own, s, step).threads[t]);
    case CheckSelf(t) => QuietMove(s, t, s.node, Next(own, s, step).threads[t]);
    case CommitDial(t) =>
      QuietMove(s, t, s.node, Idle);
      RegisterMove(s, t, s.threads[t].target, Client, Idle);
  }

  lemma AcceptStepKeepsSound(own: PeerId, s: System, step: Step)
    requires Sound(s) && StepEnabled(s, step)
    requires step.CheckIntroduction? || step.RegisterServer? || step.FeedHello?
    ensures Sound(Next(own, s, step))
  {
    var n := s.node;
    var pc := s.threads[step.t];
    match step
    case CheckIntroduction(t) =>
      QuietMove(s, t, n, Idle);
      QuietMove(s, t, n, Introducing(pc.from, pc.payload));
    case RegisterServer(t) =>
      QuietMove(s, t, n, Idle);
      RegisterMove(s, t, pc.from, Server, Inserted(n.nextId, pc.from, pc.payload));
    case FeedHello(t) =>
      QuietMove(s, t, n, Fed(pc.id));
      if pc.from in n.tunnels {
        SendKeepsOwned(n, n.tunnels[pc.from].id, pc.payload);
        QuietMove(s, t, n.(handles := TrySend(n.handles, n.tunnels[pc.from].id, pc.payload)), Fed(pc.id));
      }
  }

  lemma TeardownStepKeepsSound(own: PeerId, s: System, step: Step)
    requires Sound(s) && StepEnabled(s, step)
    requires step.SendToSink? || step.CloseById? || step.StopSending? || step.ClearTable?
    ensures Sound(Next(own, s, step))
  {
    var n := s.node;
    var pc := PcOf(s, step.t);
    match step
    case SendToSink(t) =>
      SendKeepsOwned(n, pc.sink, pc.payload);
      QuietMove(s, t, n.(handles := TrySend(n.handles, pc.sink, pc.payload)), Idle);
    case CloseById(t) => QuietMove(s, t, CloseTunnel(n, n.handles[pc.id].target, pc.id), Releasing(pc.id));
    case StopSending(t) => QuietMove(s, t, n.(outbound := false), Clearing);
    case ClearTable(t) => QuietMove(s, t, n.(tunnels := map[]), Idle);
  }

  lemma StepKeepsSound(own: PeerId, s: System, step: Step)
    requires Sound(s) && StepEnabled(s, step)
    ensures Sound(Next(own, s, step))
  {
    match step
    case Outside(ev) => OutsideKeepsSound(own, s, ev);
    case DecideRoute(t, from, payload) => RouteKeepsSound(s, t, from, payload);
    case Surface(t) => SurfaceKeepsSound(own, s, t);
    case Release(t) => ReleaseKeepsSound(own, s, t);
    case StartDrop(t, id) =>
    case Disconnect =>
    case StartDial(_, _) => DialStepKeepsSound(own, s, step);
    case CheckOutbound(_) => DialStepKeepsSound(own, s, step);
    case CheckSelf(_) => DialStepKeepsSound(own, s, step);
    case CommitDial(_) => DialStepKeepsSound(own, s, step);
    case CheckIntroduction(_) => AcceptStepKeepsSound(own, s, step);
    case RegisterServer(_) => AcceptStepKeepsSound(own, s, step);
    case FeedHello(_) => AcceptStepKeepsSound(own, s, step);
    case SendToSink(_) => TeardownStepKeepsSound(own, s, step);
    case CloseById(_) => TeardownStepKeepsSound(own, s, step);
    case StopSending(_) => TeardownStepKeepsSound(own, s, step);
    case ClearTable(_) => TeardownStepKeepsSound(own, s, step);
  }

  ghost predicate IsThreadedRun(own: PeerId, states: seq<System>, steps: seq<Step>) {
    && |states| == |steps| + 1
    && states[0] == System(INITIAL, map[])
    && forall i :: 0 <= i < |steps| ==>
        StepEnabled(states[i], steps[i]) && states[i + 1] == Next(own, states[i], steps[i])
  }

  /** Registration ownership, with every lock region its own step: at every moment the ids in
    * the table are distinct, below the counter, and backed by a live handle for that peer.
    */
  lemma {:induction false} RegistrationIsOwned(own: PeerId, states: seq<System>, steps: seq<Step>, i: nat)
    requires IsThreadedRun(own, states, steps) && i < |states|
    ensures Sound(states[i])
    ensures forall p, q :: p in states[i].node.tunnels && q in states[i].node.tunnels && p != q ==>
      states[i].node.tunnels[p].id != states[i].node.tunnels[q].id
  {
    if i == 0 {
    } else {
      RegistrationIsOwned(own, states, steps, i - 1);
      StepKeepsSound(own, states[i - 1], steps[i - 1]);
    }
    var n := states[i].node;
    forall p, q | p in n.tunnels && q in n.tunnels && p != q
      ensures n.tunnels[p].id != n.tunnels[q].id
    {
      if n.tunnels[p].id == n.tunnels[q].id {
        IdsAreUnique(n, p, q);
      }
    }
  }

  /** In any run a dropped handle deregisters its own entry and no other: whatever has been
    * registered under the same peer since then stays.
    */
  lemma SupersededDropRemovesNothing(own: PeerId, states: seq<System>, steps: seq<Step>, i: nat, t: nat, p: PeerId)
    requires IsThreadedRun(own, states, steps) && i < |steps| && steps[i] == CloseById(t)
    ensures p in states[i + 1].node.tunnels
      <==> p in states[i].node.tunnels && states[i].node.tunnels[p].id != PcOf(states[i], t).id
    ensures p in states[i + 1].node.tunnels ==> states[i + 1].node.tunnels[p] == states[i].node.tunnels[p]
  {
    RegistrationIsOwned(own, states, steps, i);
    var n := states[i].node;
    if p in n.tunnels && n.tunnels[p].id == PcOf(states[i], t).id {
      assert n.handles[n.tunnels[p].id].target == p;
    }
  }

  // ---------------------------------------------------------------- the caps

  /** What a thread already knows about the peer it is about to register. */
  predicate PeerChecked(own: PeerId, n: Node, pc: Pc) {
    match pc
    case SawOutbound(_) => n.local == Some(own)
    case DialChecked(target) => target != own
    case Accepting(from, _) => from != own
    case Introducing(from, _) => from != own
    case _ => true
  }

  /** Both caps hold, and no circuit is registered under the node's own id. */
  ghost predicate Bounded(own: PeerId, s: System) {
    && |Servers(s.node)| <= MAX_RELAY_TUNNELS
    && |QueuedIds(s.node)| <= INBOUND_ACCEPT_CAP
    && own !in s.node.tunnels
    && s.node.local in {None, Some(own)}
    && (s.node.outbound ==> s.node.local == Some(own))
    && forall t :: t in s.threads ==> PeerChecked(own, s.node, s.threads[t])
  }

  /** The step brings in no server circuit, no key and no queued tunnel. */
  lemma ShrinkingKeepsBounded(own: PeerId, s: System, s': System, t0: nat)
    requires Bounded(own, s)
    requires s'.node.local in {s.node.local, Some(own)} && (s'.node.outbound ==> s'.node.local == Some(own))
    requires Servers(s'.node) <= Servers(s.node) && own !in s'.node.tunnels
    requires |QueuedIds(s'.node)| <= |QueuedIds(s.node)|
    requires forall t :: t in s'.threads && t != t0 ==> t in s.threads && s'.threads[t] == s.threads[t]
    requires t0 in s'.threads ==> PeerChecked(own, s'.node, s'.threads[t0])
    ensures Bounded(own, s')
  {
    ServersShrink(s.node, s'.node);
    forall t | t in s'.threads && t != t0
      ensures PeerChecked(own, s'.node, s'.threads[t])
    {
      assert PeerChecked(own, s.node, s.threads[t]);
    }
  }

  lemma RouteKeepsBounded(own: PeerId, s: System, t: nat, from: PeerId, payload: Bytes)
    requires own != NO_PEER && Bounded(own, s) && StepEnabled(s, DecideRoute(t, from, payload))
    ensures Bounded(own, Route(s, t, from, payload))
  {
    var s' := Route(s, t, from, payload);
    assert Servers(s'.node) <= Servers(s.node);
    ShrinkingKeepsBounded(own, s, s', t);
  }

  lemma InsertingKeepsBounded(own: PeerId, s: System, step: Step)
    requires own != NO_PEER && Bounded(own, s) && StepEnabled(s, step) && (step.CommitDial? || step.RegisterServer?)
    ensures Bounded(own, Next(own, s, step))
  {
    var s' := Next(own, s, step);
    assert PeerChecked(own, s.node, s.threads[step.t]);
    if step.CommitDial? || s'.node == s.node {
      ShrinkingKeepsBounded(own, s, s', step.t);
    } else {
      InsertionBoundsServers(s.node.tunnels, s.threads[step.t].from, Entry(Server, s.node.nextId, s.node.now));
      forall t | t in s'.threads && t != step.t
        ensures PeerChecked(own, s'.node, s'.threads[t])
      {
        assert PeerChecked(own, s.node, s.threads[t]);
      }
    }
  }

  lemma SurfacingKeepsBounded(own: PeerId, s: System, t: nat)
    requires Bounded(own, s) && StepEnabled(s, Surface(t))
    ensures Bounded(own, Next(own, s, Surface(t)))
  {
    var s' := Next(own, s, Surface(t));
    assert Servers(s'.node) == Servers(s.node);
    forall u | u in s'.threads && u != t
      ensures PeerChecked(own, s'.node, s'.threads[u])
    {
      assert PeerChecked(own, s.node, s.threads[u]);
    }
  }

  lemma OutsideKeepsBounded(own: PeerId, s: System, ev: Event)
    requires own != NO_PEER && Bounded(own, s) && StepEnabled(s, Outside(ev))
    ensures Bounded(own, Next(own, s, Outside(ev)))
  {
    var s' := Next(own, s, Outside(ev));
    assert Servers(s'.node) == Servers(s.node);
    assert 0 in s.threads ==> PeerChecked(own, s.node, s.threads[0]);
    ShrinkingKeepsBounded(own, s, s', 0);
  }

  lemma DisconnectKeepsBounded(own: PeerId, s: System)
    requires Bounded(own, s)
    ensures Bounded(own, Next(own, s, Disconnect))
  {
    assert Servers(Next(own, s, Disconnect).node) == Servers(s.node);
  }

  lemma OtherStepKeepsBounded(own: PeerId, s: System, step: Step)
    requires own != NO_PEER && Bounded(own, s) && StepEnabled(s, step)
    requires !step.Outside? && !step.Disconnect? && !step.DecideRoute?
    requires !step.CommitDial? && !step.RegisterServer? && !step.Surface?
    ensures Bounded(own, Next(own, s, step))
  {
    assert step.t in s.threads ==> PeerChecked(own, s.node, s.threads[step.t]);
    assert Servers(Next(own, s, step).node) <= Servers(s.node);
    ShrinkingKeepsBounded(own, s, Next(own, s, step), step.t);
  }

  lemma StepKeepsBounded(own: PeerId, s: System, step: Step)
    requires own != NO_PEER && Bounded(own, s) && StepEnabled(s, step)
    ensures Bounded(own, Next(own, s, step))
  {
    hide Bounded;
    match step
    case Outside(ev) => OutsideKeepsBounded(own, s, ev);
    case DecideRoute(t, from, payload) => RouteKeepsBounded(own, s, t, from, payload);
    case CommitDial(_) => InsertingKeepsBounded(own, s, step);
    case RegisterServer(_) => InsertingKeepsBounded(own, s, step);
    case Surface(t) => SurfacingKeepsBounded(own, s, t);
    case Disconnect => DisconnectKeepsBounded(own, s);
    case _ => OtherStepKeepsBounded(own, s, step);
  }

  /** In every interleaving of lock regions server circuits number at most 256, the accept queue holds
    * at most 64, and no circuit is ever registered under the node's own id.
    */
  lemma {:induction false} CapsHold(own: PeerId, states: seq<System>, steps: seq<Step>, i: nat)
    requires own != NO_PEER && IsThreadedRun(own, states, steps) && i < |states|
    ensures Bounded(own, states[i])
  {
    hide Next;
    if i == 0 {
      assert Servers(INITIAL) == {};
    } else {
      CapsHold(own, states, steps, i - 1);
      StepKeepsBounded(own, states[i - 1], steps[i - 1]);
    }
  }

  // ---------------------------------------------------------------- one operation without interference

  /** The thread that takes the step, if it is a thread's. */
  function ThreadOf(step: Step): Option<nat> {
    match step
    case Outside(_) => None
    case Disconnect => None
    case _ => Some(step.t)
  }

  /** The only step a thread in the middle of an operation can take. */
  function Turn(pc: Pc, t: nat): Step
    requires !pc.Idle?
  {
    match pc
    case SawConnected(_) => CheckOutbound(t)
    case SawOutbound(_) => CheckSelf(t)
    case DialChecked(_) => CommitDial(t)
    case Delivering(_, _) => SendToSink(t)
    case Accepting(_, _) => CheckIntroduction(t)
    case Introducing(_, _) => RegisterServer(t)
    case Inserted(_, _, _) => FeedHello(t)
    case Fed(_) => Surface(t)
    case Dropping(_) => CloseById(t)
    case Releasing(_) => Release(t)
    case Clearing => ClearTable(t)
  }

  lemma TurnIsForced(s: System, step: Step, t: nat)
    requires StepEnabled(s, step) && ThreadOf(step) == Some(t) && !PcOf(s, t).Idle?
    ensures step == Turn(PcOf(s, t), t)
  {
  }

  /** From its `i`-th state on, every step of the run is thread `t`'s, up to the first moment it is
    * idle, where the run ends.
    */
  ghost predicate Stretch(own: PeerId, states: seq<System>, steps: seq<Step>, t: nat, i: nat) {
    && |states| == |steps| + 1
    && i <= |steps|
    && (forall k :: i <= k < |steps| ==>
        && ThreadOf(steps[k]) == Some(t)
        && StepEnabled(states[k], steps[k])
        && states[k + 1] == Next(own, states[k], steps[k])
        && !PcOf(states[k], t).Idle?)
    && PcOf(states[|steps|], t).Idle?
  }

  /** A stretch ends at once when its thread is idle, and otherwise goes on with the forced step. */
  lemma StretchAdvances(own: PeerId, states: seq<System>, steps: seq<Step>, t: nat, i: nat)
    requires Stretch(own, states, steps, t, i)
    ensures |states| == |steps| + 1 && i <= |steps|
    ensures PcOf(states[i], t).Idle? <==> i == |steps|
    ensures i < |steps| ==>
      && Stretch(own, states, steps, t, i + 1)
      && steps[i] == Turn(PcOf(states[i], t), t)
      && StepEnabled(states[i], steps[i])
      && states[i + 1] == Next(own, states[i], steps[i])
  {
    if i < |steps| {
      TurnIsForced(states[i], steps[i], t);
    }
  }

  /** The table and the channels with the circuit of an introduced peer registered and fed. */
  function WithServer(n: Node, from: PeerId, payload: Bytes): Node {
    n.(tunnels := n.tunnels[from := Entry(Server, n.nextId, n.now)],
       handles := n.handles[n.nextId := Handle(from, [payload], 0)],
       nextId := n.nextId + 1)
  }

  lemma CloseTakes(own: PeerId, s: System, t: nat, id: nat)
    requires StepEnabled(s, CloseById(t)) && PcOf(s, t) == Dropping(id)
    ensures id in s.node.handles
    ensures Next(own, s, CloseById(t)).node == CloseTunnel(s.node, s.node.handles[id].target, id)
    ensures PcOf(Next(own, s, CloseById(t)), t) == Releasing(id)
  {
  }

  lemma ReleaseTakes(own: PeerId, s: System, t: nat, id: nat)
    requires StepEnabled(s, Release(t)) && PcOf(s, t) == Releasing(id)
    ensures Next(own, s, Release(t)).node == s.node.(handles := s.node.handles - {id})
    ensures PcOf(Next(own, s, Release(t)), t).Idle?
  {
  }

  lemma ResetTakes(own: PeerId, s: System, t: nat)
    ensures StepEnabled(s, StopSending(t)) ==>
      && Next(own, s, StopSending(t)).node == s.node.(outbound := false)
      && PcOf(Next(own, s, StopSending(t)), t).Clearing?
    ensures StepEnabled(s, ClearTable(t)) ==>
      && Next(own, s, ClearTable(t)).node == s.node.(tunnels := map[])
      && PcOf(Next(own, s, ClearTable(t)), t).Idle?
  {
  }

  /** A handle on its way out takes its own entry with it. */
  lemma DroppingEnds(own: PeerId, states: seq<System>, steps: seq<Step>, t: nat, i: nat, id: nat)
    requires Stretch(own, states, steps, t, i) && PcOf(states[i], t) == Dropping(id)
    ensures id in states[i].node.handles && states[|steps|].node == DropHandle(states[i].node, id)
  {
    hide Stretch, Next, StepEnabled;
    StretchAdvances(own, states, steps, t, i);
    CloseTakes(own, states[i], t, id);
    StretchAdvances(own, states, steps, t, i + 1);
    ReleaseTakes(own, states[i + 1], t, id);
    StretchAdvances(own, states, steps, t, i + 2);
  }

  /** A tunnel that could not be surfaced is dropped: its entry and its channel go again. */
  lemma UnsurfacedIsUndone(
      own: PeerId, states: seq<System>, steps: seq<Step>, t: nat, i: nat, n: Node, from: PeerId, payload: Bytes)
    requires Stretch(own, states, steps, t, i) && Owned(n) && from !in n.tunnels
    requires states[i].node == WithServer(n, from, payload) && PcOf(states[i], t) == Dropping(n.nextId)
    ensures states[|steps|].node == n.(nextId := n.nextId + 1)
  {
    DroppingEnds(own, states, steps, t, i, n.nextId);
    hide Stretch;
    var dropped := DropHandle(WithServer(n, from, payload), n.nextId);
    assert dropped.tunnels == n.tunnels && dropped.handles == n.handles;
  }

  lemma SurfaceEnds(
      own: PeerId, states: seq<System>, steps: seq<Step>, t: nat, i: nat, n: Node, from: PeerId, payload: Bytes)
    requires Stretch(own, states, steps, t, i) && Owned(n) && !Refused(n, from, payload)
    requires states[i].node == WithServer(n, from, payload) && PcOf(states[i], t) == Fed(n.nextId)
    ensures states[|steps|].node == AcceptIntroduced(n, from, payload)
  {
    hide Stretch;
    StretchAdvances(own, states, steps, t, i);
    if AcceptHasRoom(n) {
      StretchAdvances(own, states, steps, t, i + 1);
    } else {
      UnsurfacedIsUndone(own, states, steps, t, i + 1, n, from, payload);
    }
  }

  lemma FeedEnds(
      own: PeerId, states: seq<System>, steps: seq<Step>, t: nat, i: nat, n: Node, from: PeerId, payload: Bytes)
    requires Stretch(own, states, steps, t, i) && Owned(n) && !Refused(n, from, payload)
    requires states[i].node == InsertEntry(n, from, Server) && PcOf(states[i], t) == Inserted(n.nextId, from, payload)
    ensures states[|steps|].node == AcceptIntroduced(n, from, payload)
  {
    hide Stretch, AcceptIntroduced;
    StretchAdvances(own, states, steps, t, i);
    assert [] + [payload] == [payload];
    assert states[i + 1].node.handles == WithServer(n, from, payload).handles;
    SurfaceEnds(own, states, steps, t, i + 1, n, from, payload);
  }

  lemma RegisterEnds(
      own: PeerId, states: seq<System>, steps: seq<Step>, t: nat, i: nat, n: Node, from: PeerId, payload: Bytes)
    requires Stretch(own, states, steps, t, i) && Owned(n)
    requires states[i].node == n && PcOf(states[i], t) == Introducing(from, payload)
    requires IsTlsClientHello(payload) && n.accept.Some?
    ensures states[|steps|].node == AcceptIntroduced(n, from, payload)
  {
    hide Stretch;
    StretchAdvances(own, states, steps, t, i);
    if Refused(n, from, payload) {
      StretchAdvances(own, states, steps, t, i + 1);
    } else {
      FeedEnds(own, states, steps, t, i + 1, n, from, payload);
    }
  }

  lemma AcceptEnds(
      own: PeerId, states: seq<System>, steps: seq<Step>, t: nat, i: nat, n: Node, from: PeerId, payload: Bytes)
    requires Stretch(own, states, steps, t, i) && Owned(n)
    requires states[i].node == n && PcOf(states[i], t) == Accepting(from, payload)
    ensures states[|steps|].node == AcceptIntroduced(n, from, payload)
  {
    hide Stretch;
    StretchAdvances(own, states, steps, t, i);
    if IsTlsClientHello(payload) && n.accept.Some? {
      RegisterEnds(own, states, steps, t, i + 1, n, from, payload);
    } else {
      StretchAdvances(own, states, steps, t, i + 1);
    }
  }

  lemma RouteDecides(s: System, t: nat, from: PeerId, payload: Bytes)
    requires Owned(s.node) && PcOf(s, t).Idle?
    ensures var routed := Route(s, t, from, payload);
      match PcOf(routed, t)
      case Idle => routed.node == RouteRelayed(s.node, from, payload)
      case Delivering(sink, p) =>
        && p == payload
        && routed.node.(handles := TrySend(routed.node.handles, sink, payload)) == RouteRelayed(s.node, from, payload)
      case Accepting(f, p) =>
        && f == from && p == payload && Owned(routed.node)
        && AcceptIntroduced(routed.node, from, payload) == RouteRelayed(s.node, from, payload)
      case _ => false
  {
  }

  /** What follows the first step of an operation: a stretch of the same thread. */
  ghost predicate RunsAlone(own: PeerId, states: seq<System>, steps: seq<Step>, t: nat) {
    && |states| == |steps| + 1 && steps != []
    && ThreadOf(steps[0]) == Some(t)
    && PcOf(states[0], t).Idle? && StepEnabled(states[0], steps[0])
    && states[1] == Next(own, states[0], steps[0])
    && Stretch(own, states, steps, t, 1)
  }

  lemma FrameEnds(own: PeerId, states: seq<System>, steps: seq<Step>, t: nat, from: PeerId, payload: Bytes)
    requires RunsAlone(own, states, steps, t) && Owned(states[0].node) && steps[0] == DecideRoute(t, from, payload)
    ensures states[|steps|].node == RouteRelayed(states[0].node, from, payload)
  {
    RouteDecides(states[0], t, from, payload);
    hide Stretch, RouteRelayed, Route;
    StretchAdvances(own, states, steps, t, 1);
    match PcOf(states[1], t)
    case Delivering(_, _) => StretchAdvances(own, states, steps, t, 2);
    case Accepting(_, _) => AcceptEnds(own, states, steps, t, 1, states[1].node, from, payload);
    case _ =>
  }

  lemma DropEnds(own: PeerId, states: seq<System>, steps: seq<Step>, t: nat, id: nat)
    requires RunsAlone(own, states, steps, t) && steps[0] == StartDrop(t, id)
    ensures states[|steps|].node == DropHandle(states[0].node, id)
  {
    hide Stretch, DropHandle;
    DroppingEnds(own, states, steps, t, 1, id);
  }

  lemma DialEnds(own: PeerId, states: seq<System>, steps: seq<Step>, t: nat, target: PeerId)
    requires RunsAlone(own, states, steps, t) && steps[0] == StartDial(t, target)
    ensures states[|steps|].node == OpenTunnel(states[0].node, target)
  {
    hide Stretch;
    StretchAdvances(own, states, steps, t, 1);
    if states[0].node.connected {
      StretchAdvances(own, states, steps, t, 2);
      if states[0].node.outbound {
        StretchAdvances(own, states, steps, t, 3);
        if !IsSelf(states[0].node, target) {
          StretchAdvances(own, states, steps, t, 4);
        }
      }
    }
  }

  lemma ResetEnds(own: PeerId, states: seq<System>, steps: seq<Step>, t: nat)
    requires RunsAlone(own, states, steps, t) && steps[0].StopSending?
    ensures states[|steps|].node == ClearTransport(states[0].node)
  {
    hide Stretch, Next, StepEnabled;
    ResetTakes(own, states[0], t);
    StretchAdvances(own, states, steps, t, 1);
    ResetTakes(own, states[1], t);
    StretchAdvances(own, states, steps, t, 2);
  }

  /** The operation that a first step begins, taken as one step of Circuit.dfy. */
  function WholeOperation(n: Node, step: Step): Node
    requires step.StartDrop? ==> step.id in n.handles
  {
    match step
    case StartDial(_, target) => OpenTunnel(n, target)
    case DecideRoute(_, from, payload) => RouteRelayed(n, from, payload)
    case StartDrop(_, id) => DropHandle(n, id)
    case StopSending(_) => ClearTransport(n)
    case _ => n
  }

  /** Refinement: whenever a thread carries an operation through from idle to its first idle moment
    * with no other step in between, the lock regions add up to the one atomic step.
    */
  lemma UninterruptedIsAtomic(own: PeerId, states: seq<System>, steps: seq<Step>, t: nat)
    requires RunsAlone(own, states, steps, t) && Owned(states[0].node)
    ensures states[|steps|].node == WholeOperation(states[0].node, steps[0])
  {
    match steps[0]
    case DecideRoute(_, from, payload) => FrameEnds(own, states, steps, t, from, payload);
    case StartDrop(_, id) => DropEnds(own, states, steps, t, id);
    case StartDial(_, target) => DialEnds(own, states, steps, t, target);
    case _ => ResetEnds(own, states, steps, t);
  }

  /** How many lock regions an operation may still have ahead of it. */
  function RegionsLeft(pc: Pc): nat {
    match pc
    case Idle => 0
    case Accepting(_, _) => 6
    case Introducing(_, _) => 5
    case Inserted(_, _, _) => 4
    case Fed(_) => 3
    case SawConnected(_) => 3
    case Dropping(_) => 2
    case SawOutbound(_) => 2
    case _ => 1
  }

  lemma TurnMakesProgress(own: PeerId, s: System, t: nat)
    requires Sound(s) && !PcOf(s, t).Idle?
    ensures StepEnabled(s, Turn(PcOf(s, t), t))
    ensures RegionsLeft(PcOf(Next(own, s, Turn(PcOf(s, t), t)), t)) < RegionsLeft(PcOf(s, t))
  {
  }

  /** No operation gets stuck: from any reachable state, any thread can carry its operation through. */
  lemma {:induction false} OperationsCanFinish(own: PeerId, s: System, t: nat)
      returns (states: seq<System>, steps: seq<Step>)
    requires Sound(s)
    ensures Stretch(own, states, steps, t, 0) && states[0] == s && |steps| <= RegionsLeft(PcOf(s, t))
    decreases RegionsLeft(PcOf(s, t))
  {
    hide Next, StepEnabled, Sound;
    if PcOf(s, t).Idle? {
      states, steps := [s], [];
    } else {
      var step := Turn(PcOf(s, t), t);
      TurnMakesProgress(own, s, t);
      StepKeepsSound(own, s, step);
      var more, moreSteps := OperationsCanFinish(own, Next(own, s, step), t);
      states, steps := [s] + more, [step] + moreSteps;
      forall i | 0 <= i < |steps|
        ensures StepEnabled(states[i], steps[i]) && states[i + 1] == Next(own, states[i], steps[i])
        ensures ThreadOf(steps[i]) == Some(t) && !PcOf(states[i], t).Idle?
      {
        if i > 0 {
          assert states[i] == more[i - 1] && steps[i] == moreSteps[i - 1];
        }
      }
    }
  }

  /** The inboxes after one more payload for handle `id`: lost when 256 are unread or the handle is gone. */
  function Queued(n: Node, id: nat, payload: Bytes): map<nat, Handle> {
    if id in n.handles && |n.handles[id].arrived| - n.handles[id].taken < 256 then
      var h := n.handles[id];
      n.handles[id := Handle(h.target, h.arrived + [payload], h.taken)]
    else n.handles
  }

  /** What each lock region does to the table and the inboxes as they stand when it is reached, however
    * much other threads have changed since the operation began.
    */
  lemma RegionsActOnTheTableAsItStands(own: PeerId, states: seq<System>, steps: seq<Step>, i: nat)
    requires IsThreadedRun(own, states, steps) && i < |steps|
    ensures var n, n' := states[i].node, states[i + 1].node;
      match steps[i]
      case CommitDial(t) =>
        var target := states[i].threads[t].target;
        n' == if target in n.tunnels && n.now - n.tunnels[target].lastActivity < 30_000_000_000 then n
              else n.(tunnels := n.tunnels[target := Entry(Client, n.nextId, n.now)],
                      handles := n.handles[n.nextId := Handle(target, [], 0)],
                      nextId := n.nextId + 1)
      case SendToSink(t) => n'.handles == Queued(n, states[i].threads[t].sink, states[i].threads[t].payload)
      case RegisterServer(t) =>
        var from := states[i].threads[t].from;
        n' == if from in n.tunnels || |n.tunnels| >= 256 then n
              else n.(tunnels := n.tunnels[from := Entry(Server, n.nextId, n.now)],
                      handles := n.handles[n.nextId := Handle(from, [], 0)],
                      nextId := n.nextId + 1)
      case FeedHello(t) =>
        var from := states[i].threads[t].from;
        n'.handles == if from in n.tunnels then Queued(n, n.tunnels[from].id, states[i].threads[t].payload)
                      else n.handles
      case Surface(t) =>
        n'.accept == if n.accept.Some? && n.accept.value.open && |n.accept.value.queue| < 64
                     then Some(AcceptChannel(n.accept.value.queue + [states[i].threads[t].id], true))
                     else n.accept
      case _ => true
  {
  }
}
