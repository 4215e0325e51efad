/** Whole runs of one node's circuit table: registration, accept-path and timing safety.
  *
  * A run interleaves dials, relayed frames, tunnel drops, the acceptor and session resets in
  * any order; one relayed frame is one step here (RelayThreads.dfy splits it).
  */
module CircuitRuns {
  import opened Common
  import opened Circuit

  datatype Event =
    | Tick(dt: nat)
    | Dial(target: PeerId)
    | Frame(from: PeerId, payload: Bytes)
    | Drop(id: nat)
    | Receive(id: nat)
    | TurnOnAccept
    | TakeAccepted
    | DropAcceptor
    | BeginSession
    | Register
    | Registered
    | EndSession

  function QueuedIds(n: Node): seq<nat> {
    if n.accept.Some? then n.accept.value.queue else []
  }

  /** Frames arrive only while a session is served, and a queued tunnel belongs to the queue. */
  predicate Enabled(n: Node, ev: Event) {
    match ev
    case Frame(_, _) => n.outbound
    case Drop(id) => id in n.handles && id !in QueuedIds(n)
    case Receive(id) => id in n.handles && n.handles[id].taken < |n.handles[id].arrived|
    case TakeAccepted => QueuedIds(n) != []
    case DropAcceptor => n.accept.Some?
    case Registered => n.outbound
    case _ => true
  }

  /** One step of the node whose own peer id is `own`. */
  function Apply(own: PeerId, n: Node, ev: Event): Node
    requires Enabled(n, ev)
  {
    match ev
    case Tick(dt) => n.(now := n.now + dt)
    case Dial(target) => OpenTunnel(n, target)
    case Frame(from, payload) => RouteRelayed(n, from, payload)
    case Drop(id) => DropHandle(n, id)
    case Receive(id) =>
      n.(handles := n.handles[id := n.handles[id].(taken := n.handles[id].taken + 1)])
    case TurnOnAccept => EnableAccept(n)
    case TakeAccepted => n.(accept := Some(n.accept.value.(queue := n.accept.value.queue[1..])))
    case DropAcceptor => n.(accept := Some(AcceptChannel([], false)))
    case BeginSession => ClearTransport(n).(connected := false)
    case Register => n.(local := Some(own), outbound := true)
    case Registered => n.(connected := true)
    case EndSession => ClearTransport(n).(connected := false)
  }

  const INITIAL: Node := Node(false, false, None, None, map[], map[], 0, 0)

  ghost predicate IsRun(own: PeerId, states: seq<Node>, events: seq<Event>) {
    && |states| == |events| + 1
    && states[0] == INITIAL
    && forall i :: 0 <= i < |events| ==>
        Enabled(states[i], events[i]) && states[i + 1] == Apply(own, states[i], events[i])
  }

  // ---------------------------------------------------------------- the invariant

  /** Every entry is backed by the live handle that registered it: no orphans, no shared ids. */
  ghost predicate Owned(n: Node) {
    && (forall p :: p in n.tunnels ==>
        && n.tunnels[p].id in n.handles
        && n.handles[n.tunnels[p].id].target == p
        && n.tunnels[p].lastActivity <= n.now)
    && (forall id :: id in n.handles ==> id < n.nextId)
  }

  ghost predicate OpenedByHello(h: Handle) {
    h.arrived != [] && IsTlsClientHello(h.arrived[0])
  }

  function ServersOf(tunnels: map<PeerId, Entry>): set<PeerId> {
    set p | p in tunnels && tunnels[p].role == Server
  }

  function Servers(n: Node): set<PeerId> {
    ServersOf(n.tunnels)
  }

  /** Every surfaced or server-role circuit began with a ClientHello. */
  ghost predicate Introduced(n: Node) {
    && (forall id :: id in QueuedIds(n) ==> id in n.handles && OpenedByHello(n.handles[id]))
    && (forall p :: p in n.tunnels && n.tunnels[p].role == Server ==>
        n.tunnels[p].id in n.handles && OpenedByHello(n.handles[n.tunnels[p].id]))
  }

  ghost predicate InboxesBounded(n: Node) {
    forall id :: id in n.handles ==>
      n.handles[id].taken <= |n.handles[id].arrived| <= n.handles[id].taken + RELAY_TUNNEL_INBOUND_CAP
  }

  ghost predicate AcceptSafe(n: Node) {
    && |Servers(n)| <= MAX_RELAY_TUNNELS
    && |QueuedIds(n)| <= INBOUND_ACCEPT_CAP
    && Introduced(n)
    && InboxesBounded(n)
  }

  ghost predicate NotSelf(own: PeerId, n: Node) {
    && own !in n.tunnels
    && (n.outbound ==> n.local == Some(own))
  }

  ghost predicate Inv(own: PeerId, n: Node) {
    Owned(n) && AcceptSafe(n) && NotSelf(own, n)
  }

  lemma ServersShrink(n: Node, n': Node)
    requires Servers(n') <= Servers(n)
    ensures |Servers(n')| <= |Servers(n)|
  {
    CardinalityMonotone(Servers(n'), Servers(n));
  }

  lemma CardinalityMonotone<T>(a: set<T>, b: set<T>)
    requires a <= b
    ensures |a| <= |b|
  {
    assert b == a + (b - a);
  }

  lemma InsertionBoundsServers(tunnels: map<PeerId, Entry>, peer: PeerId, entry: Entry)
    requires |tunnels| < MAX_RELAY_TUNNELS
    ensures |ServersOf(tunnels[peer := entry])| <= MAX_RELAY_TUNNELS
  {
    CardinalityMonotone(ServersOf(tunnels[peer := entry]), tunnels.Keys + {peer});
  }

  lemma InsertKeepsInv(own: PeerId, n: Node, peer: PeerId)
    requires Inv(own, n) && peer != own
    ensures Inv(own, InsertEntry(n, peer, Client))
  {
    ServersShrink(n, InsertEntry(n, peer, Client));
  }

  lemma DeliverKeepsInv(own: PeerId, n: Node, from: PeerId, payload: Bytes)
    requires Inv(own, n) && from in n.tunnels
    ensures Inv(own, Deliver(n, from, payload))
  {
    assert Servers(Deliver(n, from, payload)) == Servers(n);
  }

  lemma DropKeepsInv(own: PeerId, n: Node, id: nat)
    requires Inv(own, n) && id in n.handles && id !in QueuedIds(n)
    ensures Inv(own, DropHandle(n, id))
  {
    ServersShrink(n, DropHandle(n, id));
  }

  lemma ForgetKeepsInv(own: PeerId, n: Node, from: PeerId)
    requires Inv(own, n)
    ensures Inv(own, Forget(n, from))
  {
    ServersShrink(n, Forget(n, from));
  }

  lemma AcceptBoundsServers(n: Node, from: PeerId, payload: Bytes)
    requires |Servers(n)| <= MAX_RELAY_TUNNELS
    ensures |Servers(AcceptIntroduced(n, from, payload))| <= MAX_RELAY_TUNNELS
  {
    if !Refused(n, from, payload) {
      InsertionBoundsServers(n.tunnels, from, Entry(Server, n.nextId, n.now));
    }
  }

  lemma AcceptKeepsOwned(own: PeerId, n: Node, from: PeerId, payload: Bytes)
    requires Owned(n) && NotSelf(own, n) && from != own
    ensures Owned(AcceptIntroduced(n, from, payload))
    ensures NotSelf(own, AcceptIntroduced(n, from, payload))
  {
  }

  lemma AcceptKeepsIntroduced(n: Node, from: PeerId, payload: Bytes)
    requires Owned(n) && Introduced(n)
    ensures Introduced(AcceptIntroduced(n, from, payload))
  {
    if !Refused(n, from, payload) && AcceptHasRoom(n) {
      assert QueuedIds(AcceptIntroduced(n, from, payload)) == QueuedIds(n) + [n.nextId];
      assert OpenedByHello(Handle(from, [payload], 0));
    }
  }

  lemma AcceptKeepsInv(own: PeerId, n: Node, from: PeerId, payload: Bytes)
    requires Inv(own, n) && from != own
    ensures Inv(own, AcceptIntroduced(n, from, payload))
  {
    AcceptKeepsOwned(own, n, from, payload);
    AcceptKeepsIntroduced(n, from, payload);
    AcceptBoundsServers(n, from, payload);
  }

  lemma RouteKeepsInv(own: PeerId, n: Node, from: PeerId, payload: Bytes)
    requires own != NO_PEER && Inv(own, n) && n.outbound
    ensures Inv(own, RouteRelayed(n, from, payload))
  {
    hide AcceptIntroduced, Deliver;
    if Admissible(n, from, payload) {
      AcceptKeepsInv(own, n, from, payload);
      ForgetKeepsInv(own, n, from);
      AcceptKeepsInv(own, Forget(n, from), from, payload);
      if from in n.tunnels {
        DeliverKeepsInv(own, n, from, payload);
      }
    }
  }

  lemma StepKeepsInv(own: PeerId, n: Node, ev: Event)
    requires own != NO_PEER && Inv(own, n) && Enabled(n, ev)
    ensures Inv(own, Apply(own, n, ev))
  {
    var n' := Apply(own, n, ev);
    match ev
    case Dial(target) =>
      if DialRefusal(n, target).None? {
        InsertKeepsInv(own, n, target);
      }
    case Frame(from, payload) => RouteKeepsInv(own, n, from, payload);
    case Drop(id) => DropKeepsInv(own, n, id);
    case BeginSession => assert Servers(n') == {};
    case EndSession => assert Servers(n') == {};
    case _ => ServersShrink(n, n');
  }

  /** Registration and accept-path safety over every run: ids stay below the counter, every
    * entry has a live handle with its id and target, server circuits number at most 256 and
    * start with a ClientHello, the accept queue never passes 64, and no entry is ever keyed
    * by the node's own id.
    */
  lemma {:induction false} RunsAreSafe(own: PeerId, states: seq<Node>, events: seq<Event>, i: nat)
    requires own != NO_PEER && IsRun(own, states, events) && i < |states|
    ensures Inv(own, states[i])
  {
    hide Apply;
    if i == 0 {
      assert Servers(INITIAL) == {};
    } else {
      RunsAreSafe(own, states, events, i - 1);
      StepKeepsInv(own, states[i - 1], events[i - 1]);
    }
  }

  /** Distinct entries never share a registration id. */
  lemma IdsAreUnique(n: Node, p: PeerId, q: PeerId)
    requires Owned(n) && p in n.tunnels && q in n.tunnels && n.tunnels[p].id == n.tunnels[q].id
    ensures p == q
  {
    assert n.handles[n.tunnels[p].id].target == p;
  }

  // ---------------------------------------------------------------- provenance of accepts

  /** Step `ev` is a routed ClientHello that registers handle `id` for its sender. */
  predicate Opens(n: Node, n': Node, ev: Event, id: nat) {
    && ev.Frame?
    && IsTlsClientHello(ev.payload)
    && id == n.nextId
    && id in n'.handles
    && n'.handles[id] == Handle(ev.from, [ev.payload], 0)
  }

  /** Channels keep their target and only gain payloads; a channel once gone stays gone. */
  ghost predicate ChannelsGrow(n: Node, n': Node) {
    && (forall id :: id in n.handles && id in n'.handles ==>
        && n.handles[id].target == n'.handles[id].target
        && n.handles[id].arrived <= n'.handles[id].arrived)
    && (forall id :: id in n'.handles && id < n.nextId ==> id in n.handles)
  }

  /** A circuit registered before the step was already there and no more recently active; one
    * registered by the step is stamped now.
    */
  ghost predicate CircuitsPersist(n: Node, n': Node) {
    && n.nextId <= n'.nextId
    && n.now <= n'.now
    && (forall p :: p in n'.tunnels ==>
        if n'.tunnels[p].id < n.nextId then
          && p in n.tunnels
          && n.tunnels[p].id == n'.tunnels[p].id
          && n.tunnels[p].lastActivity <= n'.tunnels[p].lastActivity
        else n'.tunnels[p].lastActivity == n'.now && n'.tunnels[p].id < n'.nextId)
  }

  lemma DeliverPersists(n: Node, from: PeerId, payload: Bytes)
    requires Owned(n) && from in n.tunnels
    ensures ChannelsGrow(n, Deliver(n, from, payload))
    ensures CircuitsPersist(n, Deliver(n, from, payload))
  {
  }

  lemma AcceptGrows(n: Node, from: PeerId, payload: Bytes)
    requires Owned(n)
    ensures ChannelsGrow(n, AcceptIntroduced(n, from, payload))
  {
  }

  lemma RouteGrows(n: Node, from: PeerId, payload: Bytes)
    requires Owned(n)
    ensures ChannelsGrow(n, RouteRelayed(n, from, payload))
  {
    hide AcceptIntroduced, Deliver;
    AcceptGrows(n, from, payload);
    AcceptGrows(Forget(n, from), from, payload);
    if from in n.tunnels {
      DeliverPersists(n, from, payload);
    }
  }

  lemma AcceptPersists(n: Node, from: PeerId, payload: Bytes)
    requires Owned(n)
    ensures CircuitsPersist(n, AcceptIntroduced(n, from, payload))
  {
  }

  lemma RoutePersists(n: Node, from: PeerId, payload: Bytes)
    requires Owned(n)
    ensures CircuitsPersist(n, RouteRelayed(n, from, payload))
  {
    hide AcceptIntroduced, Deliver;
    if from in n.tunnels {
      DeliverPersists(n, from, payload);
      AcceptPersists(Forget(n, from), from, payload);
    } else {
      AcceptPersists(n, from, payload);
    }
  }

  lemma RouteStamps(n: Node, from: PeerId, payload: Bytes)
    requires Owned(n) && Admissible(n, from, payload)
    requires from in n.tunnels && from in RouteRelayed(n, from, payload).tunnels
    ensures RouteRelayed(n, from, payload).tunnels[from].lastActivity == n.now
  {
  }

  lemma StepPersists(own: PeerId, n: Node, ev: Event)
    requires Owned(n) && Enabled(n, ev)
    ensures ChannelsGrow(n, Apply(own, n, ev))
    ensures CircuitsPersist(n, Apply(own, n, ev))
  {
    if ev.Frame? {
      RouteGrows(n, ev.from, ev.payload);
      RoutePersists(n, ev.from, ev.payload);
    }
  }

  lemma AcceptQueueGains(n: Node, from: PeerId, payload: Bytes, id: nat)
    requires id in QueuedIds(AcceptIntroduced(n, from, payload)) && id !in QueuedIds(n)
    ensures IsTlsClientHello(payload) && id == n.nextId
    ensures id in AcceptIntroduced(n, from, payload).handles
    ensures AcceptIntroduced(n, from, payload).handles[id] == Handle(from, [payload], 0)
  {
  }

  lemma RouteQueueGains(n: Node, from: PeerId, payload: Bytes, id: nat)
    requires id in QueuedIds(RouteRelayed(n, from, payload)) && id !in QueuedIds(n)
    ensures IsTlsClientHello(payload) && id == n.nextId
    ensures id in RouteRelayed(n, from, payload).handles
    ensures RouteRelayed(n, from, payload).handles[id] == Handle(from, [payload], 0)
  {
    hide AcceptIntroduced;
    if from in n.tunnels {
      assert QueuedIds(Deliver(n, from, payload)) == QueuedIds(n);
      AcceptQueueGains(Forget(n, from), from, payload, id);
    } else {
      AcceptQueueGains(n, from, payload, id);
    }
  }

  lemma QueueGainsOnlyOpened(own: PeerId, n: Node, ev: Event, id: nat)
    requires Enabled(n, ev)
    requires id in QueuedIds(Apply(own, n, ev)) && id !in QueuedIds(n)
    ensures Opens(n, Apply(own, n, ev), ev, id)
  {
    if ev.Frame? {
      RouteQueueGains(n, ev.from, ev.payload, id);
    }
  }

  /** The step at which a queued tunnel was opened. */
  lemma {:induction false} QueuedTunnelWasOpened(
      own: PeerId, states: seq<Node>, events: seq<Event>, k: nat, id: nat) returns (i: nat)
    requires own != NO_PEER && IsRun(own, states, events) && k < |states| && id in QueuedIds(states[k])
    ensures i < k && Opens(states[i], states[i + 1], events[i], id)
  {
    hide Apply;
    if id in QueuedIds(states[k - 1]) {
      i := QueuedTunnelWasOpened(own, states, events, k - 1, id);
    } else {
      i := k - 1;
      QueueGainsOnlyOpened(own, states[i], events[i], id);
    }
  }

  /** For as long as a tunnel lives, its inbox begins with what it was opened with. */
  lemma {:induction false} HelloStaysFirst(
      own: PeerId, states: seq<Node>, events: seq<Event>, i: nat, j: nat, id: nat)
    requires own != NO_PEER && IsRun(own, states, events) && i < j < |states|
    requires Opens(states[i], states[i + 1], events[i], id)
    ensures id < states[j].nextId
    ensures id in states[j].handles ==>
      var h := states[j].handles[id];
      h.target == events[i].from && h.arrived != [] && h.arrived[0] == events[i].payload
  {
    hide Apply;
    assert Owned(states[j]) && Owned(states[j - 1]) by {
      RunsAreSafe(own, states, events, j);
      RunsAreSafe(own, states, events, j - 1);
    }
    if j == i + 1 {
    } else {
      HelloStaysFirst(own, states, events, i, j - 1, id);
      StepPersists(own, states[j - 1], events[j - 1]);
    }
  }

  /** Each tunnel ever surfaced to the consumer was opened by an earlier ClientHello frame. Waiting
    * in the queue or taken from it, for as long as it lives that frame is the first payload in
    * its inbox, and came from the tunnel's target.
    */
  lemma SurfacedTunnelsStartWithTheirHello(
      own: PeerId, states: seq<Node>, events: seq<Event>, k: nat, j: nat, id: nat) returns (i: nat)
    requires own != NO_PEER && IsRun(own, states, events) && k <= j < |states|
    requires id in QueuedIds(states[k]) && id in states[j].handles
    ensures i < k && events[i].Frame? && IsTlsClientHello(events[i].payload)
    ensures Opens(states[i], states[i + 1], events[i], id)
    ensures var h := states[j].handles[id];
      h.target == events[i].from && h.arrived != [] && h.arrived[0] == events[i].payload
  {
    i := QueuedTunnelWasOpened(own, states, events, k, id);
    HelloStaysFirst(own, states, events, i, j, id);
  }

  // ---------------------------------------------------------------- who removes an entry

  /** The circuit held under `p` in `n` is no longer the one held in `n'`. */
  predicate Displaced(n: Node, n': Node, p: PeerId) {
    p in n.tunnels && !(p in n'.tunnels && n'.tunnels[p].id == n.tunnels[p].id)
  }

  /** Everything that ends a circuit: its own handle's drop, a lower-id glare yield, a session
    * reset, or a dial to the same peer once the circuit has been silent for 30 seconds.
    */
  predicate MayDisplace(n: Node, ev: Event, p: PeerId)
    requires p in n.tunnels
  {
    match ev
    case Drop(id) => id == n.tunnels[p].id
    case Frame(from, payload) => from == p && Admissible(n, from, payload) && Yields(n, from, payload)
    case BeginSession => true
    case EndSession => true
    case Dial(target) =>
      target == p && TransportReady(n) && !IsSelf(n, p) && n.now - n.tunnels[p].lastActivity >= STALE_CIRCUIT_IDLE
    case _ => false
  }

  lemma AcceptDisplacesNothing(n: Node, from: PeerId, payload: Bytes, p: PeerId)
    requires p in n.tunnels
    ensures p in AcceptIntroduced(n, from, payload).tunnels
    ensures AcceptIntroduced(n, from, payload).tunnels[p] == n.tunnels[p]
  {
  }

  lemma FrameDisplacesExactlyWhen(n: Node, from: PeerId, payload: Bytes, p: PeerId)
    requires Owned(n) && p in n.tunnels
    ensures Displaced(n, RouteRelayed(n, from, payload), p)
      <==> from == p && Admissible(n, from, payload) && Yields(n, from, payload)
  {
    if from in n.tunnels {
      var forgot := Forget(n, from);
      if from == p {
        AcceptPersists(forgot, from, payload);
      } else {
        AcceptDisplacesNothing(forgot, from, payload, p);
      }
    } else {
      AcceptDisplacesNothing(n, from, payload, p);
    }
  }

  /** A step displaces a circuit if and only if it is one of those. */
  lemma DisplacedExactlyWhen(own: PeerId, n: Node, ev: Event, p: PeerId)
    requires Owned(n) && Enabled(n, ev) && p in n.tunnels
    ensures Displaced(n, Apply(own, n, ev), p) <==> MayDisplace(n, ev, p)
  {
    match ev
    case Drop(id) => assert n.handles[n.tunnels[p].id].target == p;
    case Frame(from, payload) => FrameDisplacesExactlyWhen(n, from, payload, p);
    case _ =>
  }

  /** A drop of a superseded handle leaves the whole table as it was. */
  lemma SupersededDropIsHarmless(n: Node, id: nat)
    requires Owned(n) && id in n.handles
    requires forall p :: p in n.tunnels ==> n.tunnels[p].id != id
    ensures DropHandle(n, id).tunnels == n.tunnels
    ensures Owned(DropHandle(n, id))
  {
  }

  /** Step `i` registered circuit `id` for `p`, or routed a frame from `p` while it was held. */
  predicate Heard(n: Node, n': Node, ev: Event, p: PeerId, id: nat) {
    || (id == n.nextId && p in n'.tunnels && n'.tunnels[p].id == id)
    || (ev.Frame? && ev.from == p && Admissible(n, p, ev.payload) && p in n.tunnels && n.tunnels[p].id == id)
  }

  lemma HeardStamps(own: PeerId, n: Node, ev: Event, p: PeerId, id: nat)
    requires Owned(n) && Enabled(n, ev) && Heard(n, Apply(own, n, ev), ev, p, id)
    ensures id < Apply(own, n, ev).nextId
    ensures p in Apply(own, n, ev).tunnels && Apply(own, n, ev).tunnels[p].id == id
      ==> Apply(own, n, ev).tunnels[p].lastActivity == Apply(own, n, ev).now && n.now <= Apply(own, n, ev).now
  {
    StepPersists(own, n, ev);
    if ev.Frame? && ev.from == p && Admissible(n, p, ev.payload) {
      if p in n.tunnels && p in Apply(own, n, ev).tunnels {
        RouteStamps(n, p, ev.payload);
      }
    }
  }

  /** Ids are never reused, so a circuit heard from at step `i` and still held at step `j`
    * was held throughout, and its activity stamp is no older than step `i`.
    */
  lemma {:induction false} ActivityAtLeast(
      own: PeerId, states: seq<Node>, events: seq<Event>, i: nat, j: nat, p: PeerId, id: nat)
    requires own != NO_PEER && IsRun(own, states, events) && i < j < |states|
    requires Heard(states[i], states[i + 1], events[i], p, id)
    ensures id < states[j].nextId
    ensures p in states[j].tunnels && states[j].tunnels[p].id == id
      ==> states[i].now <= states[j].tunnels[p].lastActivity
  {
    hide Apply;
    if j == i + 1 {
      assert Owned(states[i]) by {
        RunsAreSafe(own, states, events, i);
      }
      HeardStamps(own, states[i], events[i], p, id);
    } else {
      ActivityAtLeast(own, states, events, i, j - 1, p, id);
      assert Owned(states[j - 1]) by {
        RunsAreSafe(own, states, events, j - 1);
      }
      StepPersists(own, states[j - 1], events[j - 1]);
    }
  }

  /** Timed circuit safety: a circuit registered or heard from less than 30 seconds before a
    * dial to the same peer survives that dial, whatever happened in between.
    */
  lemma HeardCircuitSurvivesDial(
      own: PeerId, states: seq<Node>, events: seq<Event>, i: nat, j: nat, p: PeerId, id: nat)
    requires own != NO_PEER && IsRun(own, states, events) && i < j < |events|
    requires Heard(states[i], states[i + 1], events[i], p, id)
    requires p in states[j].tunnels && states[j].tunnels[p].id == id
    requires events[j] == Dial(p) && states[j].now - states[i].now < STALE_CIRCUIT_IDLE
    ensures states[j + 1].tunnels == states[j].tunnels
  {
    ActivityAtLeast(own, states, events, i, j, p, id);
  }

  lemma AcceptSetsStamps(n: Node, from: PeerId, payload: Bytes, p: PeerId)
    requires p in AcceptIntroduced(n, from, payload).tunnels
    ensures AcceptIntroduced(n, from, payload).tunnels[p]
      == if p in n.tunnels then n.tunnels[p] else Entry(Server, n.nextId, n.now)
  {
  }

  /** A stamp changes only by registration or by a routed frame from that peer. */
  lemma StampsChangeOnlyWhenHeard(own: PeerId, n: Node, ev: Event, p: PeerId)
    requires Owned(n) && Enabled(n, ev) && p in Apply(own, n, ev).tunnels
    ensures var entry := Apply(own, n, ev).tunnels[p];
      || (p in n.tunnels && n.tunnels[p].id == entry.id && n.tunnels[p].lastActivity == entry.lastActivity)
      || (Heard(n, Apply(own, n, ev), ev, p, entry.id) && entry.lastActivity == n.now)
  {
    if ev.Frame? && Admissible(n, ev.from, ev.payload) {
      if ev.from !in n.tunnels {
        AcceptSetsStamps(n, ev.from, ev.payload, p);
      } else if Yields(n, ev.from, ev.payload) {
        AcceptSetsStamps(Forget(n, ev.from), ev.from, ev.payload, p);
      }
    }
  }

  /** The stamp of a circuit is the time it was last registered or heard from. */
  lemma {:induction false} StampIsWhenHeard(own: PeerId, states: seq<Node>, events: seq<Event>, j: nat, p: PeerId)
      returns (i: nat)
    requires own != NO_PEER && IsRun(own, states, events) && j < |states| && p in states[j].tunnels
    ensures i < j && Heard(states[i], states[i + 1], events[i], p, states[j].tunnels[p].id)
    ensures states[i].now == states[j].tunnels[p].lastActivity
  {
    hide Apply, Enabled;
    assert Owned(states[j - 1]) by {
      RunsAreSafe(own, states, events, j - 1);
    }
    StampsChangeOnlyWhenHeard(own, states[j - 1], events[j - 1], p);
    var before, entry := states[j - 1], states[j].tunnels[p];
    if p in before.tunnels && before.tunnels[p].id == entry.id && before.tunnels[p].lastActivity == entry.lastActivity {
      i := StampIsWhenHeard(own, states, events, j - 1, p);
    } else {
      i := j - 1;
    }
  }

  /** Circuit `id` of `p` was neither registered nor heard from in the 30 seconds before step `j`. */
  ghost predicate Silent(states: seq<Node>, events: seq<Event>, j: nat, p: PeerId, id: nat)
    requires |states| == |events| + 1 && j < |states|
  {
    forall i :: 0 <= i < j && Heard(states[i], states[i + 1], events[i], p, id) ==>
      states[j].now - states[i].now >= STALE_CIRCUIT_IDLE
  }

  /** Over every run, a dial displaces the circuit held for its target if and only if that
    * circuit has been silent for 30 seconds.
    */
  lemma DialDisplacesExactlyTheSilent(own: PeerId, states: seq<Node>, events: seq<Event>, j: nat, p: PeerId)
    requires own != NO_PEER && IsRun(own, states, events) && j < |events|
    requires events[j] == Dial(p) && p in states[j].tunnels && TransportReady(states[j])
    ensures Displaced(states[j], states[j + 1], p) <==> Silent(states, events, j, p, states[j].tunnels[p].id)
  {
    var id := states[j].tunnels[p].id;
    RunsAreSafe(own, states, events, j);
    DisplacedExactlyWhen(own, states[j], events[j], p);
    forall i | 0 <= i < j && Heard(states[i], states[i + 1], events[i], p, id)
      ensures states[i].now <= states[j].tunnels[p].lastActivity
    {
      ActivityAtLeast(own, states, events, i, j, p, id);
    }
    var last := StampIsWhenHeard(own, states, events, j, p);
  }

  // ---------------------------------------------------------------- what reaches an inbox

  /** Event `ev` is a frame that is queued on the channel of handle `id`. */
  predicate Queues(n: Node, ev: Event, id: nat)
    requires id in n.handles
  {
    && ev.Frame?
    && Admissible(n, ev.from, ev.payload)
    && ev.from in n.tunnels && n.tunnels[ev.from].id == id
    && !Glare(n, ev.from, ev.payload)
    && InboxHasRoom(n.handles[id])
  }

  lemma AcceptOpensOneChannel(n: Node, from: PeerId, payload: Bytes, id: nat)
    requires Owned(n) && id in AcceptIntroduced(n, from, payload).handles
    ensures AcceptIntroduced(n, from, payload).handles[id]
      == if id in n.handles then n.handles[id] else Handle(from, [payload], 0)
  {
  }

  lemma DeliverQueues(n: Node, from: PeerId, payload: Bytes, id: nat)
    requires Owned(n) && Admissible(n, from, payload) && from in n.tunnels && id in n.handles
    ensures Deliver(n, from, payload).handles.Keys == n.handles.Keys
    ensures Deliver(n, from, payload).handles[id] == n.handles[id].(
      arrived := n.handles[id].arrived + if Queues(n, Frame(from, payload), id) then [payload] else [])
  {
    assert n.handles[id].arrived + [] == n.handles[id].arrived;
  }

  lemma RouteQueues(n: Node, from: PeerId, payload: Bytes, id: nat)
    requires Owned(n) && id in RouteRelayed(n, from, payload).handles
    ensures RouteRelayed(n, from, payload).handles[id] ==
      if id in n.handles then
        n.handles[id].(arrived := n.handles[id].arrived + if Queues(n, Frame(from, payload), id) then [payload] else [])
      else Handle(from, [payload], 0)
  {
    hide AcceptIntroduced;
    assert id in n.handles ==> n.handles[id].arrived + [] == n.handles[id].arrived;
    if Admissible(n, from, payload) {
      if from !in n.tunnels {
        AcceptOpensOneChannel(n, from, payload, id);
      } else if Yields(n, from, payload) {
        AcceptOpensOneChannel(Forget(n, from), from, payload, id);
      } else {
        assert Deliver(n, from, payload).handles.Keys == n.handles.Keys;
        DeliverQueues(n, from, payload, id);
      }
    }
  }

  /** A live channel gains a payload exactly when a frame from its peer finds its circuit in the
    * table, is no glare ClientHello, and finds room.
    */
  lemma QueuedExactlyWhen(own: PeerId, n: Node, ev: Event, id: nat)
    requires Owned(n) && Enabled(n, ev) && id in n.handles && id in Apply(own, n, ev).handles
    ensures Apply(own, n, ev).handles[id].arrived
      == n.handles[id].arrived + if Queues(n, ev, id) then [ev.payload] else []
    ensures Apply(own, n, ev).handles[id].target == n.handles[id].target
    ensures Queues(n, ev, id) ==> ev.from == n.handles[id].target
  {
    if ev.Frame? {
      RouteQueues(n, ev.from, ev.payload, id);
    } else {
      assert n.handles[id].arrived + [] == n.handles[id].arrived;
    }
  }

  /** A channel opened by the step is empty, or holds the ClientHello that opened it. */
  lemma OpenedHoldsAtMostItsHello(own: PeerId, n: Node, ev: Event, id: nat)
    requires Owned(n) && Enabled(n, ev) && id !in n.handles && id in Apply(own, n, ev).handles
    ensures var h := Apply(own, n, ev).handles[id];
      h.arrived == [] || (ev.Frame? && ev.from == h.target && h.arrived == [ev.payload])
  {
    if ev.Frame? {
      RouteQueues(n, ev.from, ev.payload, id);
    }
  }

  /** The part of `ev` that `peer` sent. */
  function SentBy(ev: Event, peer: PeerId): seq<Bytes> {
    if ev.Frame? && ev.from == peer then [ev.payload] else []
  }

  /** The payloads stamped with `peer`'s id that reached this node, in order. */
  function FramesFrom(events: seq<Event>, peer: PeerId): seq<Bytes> {
    if events == [] then []
    else
      FramesFrom(events[..|events| - 1], peer) + SentBy(events[|events| - 1], peer)
  }

  /** `s` is what remains of `t` after losing some of its elements. */
  predicate Subsequence<T(==)>(s: seq<T>, t: seq<T>)
    decreases |t|
  {
    || s == []
    || (t != []
        && (|| Subsequence(s, t[..|t| - 1])
            || (s[|s| - 1] == t[|t| - 1] && Subsequence(s[..|s| - 1], t[..|t| - 1]))))
  }

  lemma QueueingKeepsOrder(had: seq<Bytes>, sent: seq<Bytes>, came: seq<Bytes>)
    requires Subsequence(had, sent) && |came| <= 1
    ensures Subsequence(had, sent + came)
    ensures Subsequence(had + came, sent + came)
  {
    if came == [] {
      assert sent + came == sent && had + came == had;
    } else {
      assert (sent + came)[..|sent|] == sent && (had + came)[..|had|] == had;
    }
  }

  lemma OldInboxKeepsSubsequence(own: PeerId, n: Node, ev: Event, id: nat, sent: seq<Bytes>)
    requires Owned(n) && Enabled(n, ev) && id in n.handles && id in Apply(own, n, ev).handles
    requires Subsequence(n.handles[id].arrived, sent)
    ensures Subsequence(Apply(own, n, ev).handles[id].arrived, sent + SentBy(ev, Apply(own, n, ev).handles[id].target))
  {
    hide Apply, Subsequence, Owned, Enabled;
    var came := SentBy(ev, Apply(own, n, ev).handles[id].target);
    QueuedExactlyWhen(own, n, ev, id);
    QueueingKeepsOrder(n.handles[id].arrived, sent, came);
    assert n.handles[id].arrived + [] == n.handles[id].arrived;
  }

  lemma NewInboxIsSubsequence(own: PeerId, n: Node, ev: Event, id: nat, sent: seq<Bytes>)
    requires Owned(n) && Enabled(n, ev) && id !in n.handles && id in Apply(own, n, ev).handles
    ensures Subsequence(Apply(own, n, ev).handles[id].arrived, sent + SentBy(ev, Apply(own, n, ev).handles[id].target))
  {
    hide Apply, Owned;
    var came := SentBy(ev, Apply(own, n, ev).handles[id].target);
    var arrived := Apply(own, n, ev).handles[id].arrived;
    OpenedHoldsAtMostItsHello(own, n, ev, id);
    QueueingKeepsOrder([], sent, came);
    assert [] + came == came;
    if arrived == [] {
      assert Subsequence(arrived, sent + came);
    } else {
      assert arrived == [] + came;
      assert Subsequence(arrived, sent + came);
    }
  }

  /** Isolation and order: over every run, what has been queued on a tunnel is a subsequence of
    * the frames its own peer sent, whatever anyone else sends meanwhile.
    */
  lemma {:induction false} InboxesHoldOnlyTheirPeersFrames(
      own: PeerId, states: seq<Node>, events: seq<Event>, j: nat, id: nat)
    requires own != NO_PEER && IsRun(own, states, events) && j < |states| && id in states[j].handles
    ensures Subsequence(states[j].handles[id].arrived, FramesFrom(events[..j], states[j].handles[id].target))
  {
    hide Apply;
    var i := j - 1;
    var peer := states[j].handles[id].target;
    assert Owned(states[i]) by {
      RunsAreSafe(own, states, events, i);
    }
    assert events[..j][..i] == events[..i];
    if id in states[i].handles {
      QueuedExactlyWhen(own, states[i], events[i], id);
      InboxesHoldOnlyTheirPeersFrames(own, states, events, i, id);
      OldInboxKeepsSubsequence(own, states[i], events[i], id, FramesFrom(events[..i], peer));
    } else {
      NewInboxIsSubsequence(own, states[i], events[i], id, FramesFrom(events[..i], peer));
    }
  }
}
