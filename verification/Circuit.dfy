/** The relay circuit table of one node: what each critical step does to it.
  *
  * A node keeps a table from remote peer id to the circuit registered for that peer. The
  * table is changed by outbound dials, by inbound relayed frames, by tunnels being dropped
  * and by session resets. Every operation is a function from one `Node` value to the next;
  * class `RelayStatus` (RelayStatus.dfy) performs the same operations on mutable fields.
  */
module Circuit {
  import opened Common

  datatype PeerId = PeerId(hex: string)

  const NO_PEER: PeerId := PeerId("")

  const MAX_RELAY_PAYLOAD: nat := 0x10_0000
  const RELAY_TUNNEL_INBOUND_CAP: nat := 256
  const MAX_RELAY_TUNNELS: nat := 256
  const INBOUND_ACCEPT_CAP: nat := 64

  /** Thirty seconds, on a clock that counts nanoseconds. */
  const STALE_CIRCUIT_IDLE: nat := 30_000_000_000

  datatype Role = Client | Server

  datatype Entry = Entry(role: Role, id: nat, lastActivity: nat)

  /** A live tunnel handle and its inbound channel: `arrived` is everything ever queued for
    * it, of which the owner has received the first `taken`.
    */
  datatype Handle = Handle(target: PeerId, arrived: seq<Bytes>, taken: nat)

  /** The channel that surfaces introduced circuits: handle ids waiting for the consumer. */
  datatype AcceptChannel = AcceptChannel(queue: seq<nat>, open: bool)

  datatype Node = Node(
    connected: bool,
    outbound: bool,
    local: Option<PeerId>,
    accept: Option<AcceptChannel>,
    tunnels: map<PeerId, Entry>,
    handles: map<nat, Handle>,
    nextId: nat,
    now: nat)

  datatype DialError = NotConnected | SelfDial | Duplicate

  /** Strict lexicographic order on strings, the order of the glare tie-break. */
  predicate Below(a: string, b: string) {
    b != [] && (a == [] || a[0] < b[0] || (a[0] == b[0] && Below(a[1..], b[1..])))
  }

  predicate Less(a: PeerId, b: PeerId) {
    Below(a.hex, b.hex)
  }

  lemma {:induction false} BelowIsTotal(a: string, b: string)
    ensures !Below(a, a)
    ensures a != b ==> (Below(a, b) <==> !Below(b, a))
  {
    if a != [] {
      BelowIsTotal(a[1..], if b == [] then [] else b[1..]);
    }
    if a != [] && b != [] && a[0] == b[0] {
      assert a == [a[0]] + a[1..] && b == [b[0]] + b[1..];
    }
  }

  /** Of two distinct ids exactly one is the lower, so both ends of a glare pick the same one. */
  lemma LessIsTotal(a: PeerId, b: PeerId)
    ensures !Less(a, a)
    ensures a != b ==> (Less(a, b) <==> !Less(b, a))
  {
    BelowIsTotal(a.hex, b.hex);
  }

  /** A TLS handshake record (type 22) whose first message is a client_hello (type 1). */
  predicate IsTlsClientHello(payload: Bytes) {
    |payload| >= 6 && payload[0] == 0x16 && payload[5] == 0x01
  }

  function LocalId(n: Node): PeerId {
    if n.local.Some? then n.local.value else NO_PEER
  }

  predicate IsSelf(n: Node, peer: PeerId) {
    LocalId(n) != NO_PEER && LocalId(n) == peer
  }

  predicate TransportReady(n: Node) {
    n.connected && n.outbound
  }

  /** Whether the circuit under `peer` is young enough to refuse a second dial. */
  predicate Fresh(n: Node, peer: PeerId) {
    peer in n.tunnels && n.now - n.tunnels[peer].lastActivity < STALE_CIRCUIT_IDLE
  }

  function InsertEntry(n: Node, peer: PeerId, role: Role): Node {
    n.(tunnels := n.tunnels[peer := Entry(role, n.nextId, n.now)],
       handles := n.handles[n.nextId := Handle(peer, [], 0)],
       nextId := n.nextId + 1)
  }

  function DialRefusal(n: Node, target: PeerId): Option<DialError> {
    if !TransportReady(n) then Some(NotConnected)
    else if IsSelf(n, target) then Some(SelfDial)
    else if Fresh(n, target) then Some(Duplicate)
    else None
  }

  function OpenTunnel(n: Node, target: PeerId): Node {
    if DialRefusal(n, target).Some? then n else InsertEntry(n, target, Client)
  }

  predicate InboxHasRoom(h: Handle) {
    |h.arrived| < h.taken + RELAY_TUNNEL_INBOUND_CAP
  }

  /** A non-blocking send into the channel of handle `id`: lost when full or closed. */
  function TrySend(handles: map<nat, Handle>, id: nat, payload: Bytes): map<nat, Handle> {
    if id in handles && InboxHasRoom(handles[id]) then
      handles[id := handles[id].(arrived := handles[id].arrived + [payload])]
    else handles
  }

  /** A frame from `from` that is neither oversized nor stamped with this node's own id. */
  predicate Admissible(n: Node, from: PeerId, payload: Bytes) {
    |payload| <= MAX_RELAY_PAYLOAD && !IsSelf(n, from)
  }

  /** The frame is the peer's competing ClientHello on a circuit where this node is client. */
  predicate Glare(n: Node, from: PeerId, payload: Bytes) {
    from in n.tunnels && n.tunnels[from].role == Client && IsTlsClientHello(payload)
  }

  /** The glare frame makes this node give up its client circuit. */
  predicate Yields(n: Node, from: PeerId, payload: Bytes) {
    Glare(n, from, payload) && !Less(from, LocalId(n)) && n.accept.Some?
  }

  /** A frame that finds a circuit and leaves it in place: it proves the circuit alive, and is
    * delivered unless it is a glare ClientHello this node ignores.
    */
  function Deliver(n: Node, from: PeerId, payload: Bytes): Node
    requires from in n.tunnels
  {
    n.(tunnels := n.tunnels[from := n.tunnels[from].(lastActivity := n.now)],
       handles := if Glare(n, from, payload) then n.handles
                  else TrySend(n.handles, n.tunnels[from].id, payload))
  }

  /** Why an opening frame from an unknown peer is not turned into a circuit. */
  predicate Refused(n: Node, from: PeerId, payload: Bytes) {
    || !IsTlsClientHello(payload)
    || n.accept.None?
    || from in n.tunnels
    || |n.tunnels| >= MAX_RELAY_TUNNELS
  }

  predicate AcceptHasRoom(n: Node) {
    n.accept.Some? && n.accept.value.open && |n.accept.value.queue| < INBOUND_ACCEPT_CAP
  }

  /** The net effect of accepting an introduced circuit: the server circuit holds exactly the
    * frame that opened it, or, with no room to surface it, only an id has been spent.
    */
  function AcceptIntroduced(n: Node, from: PeerId, payload: Bytes): Node {
    if Refused(n, from, payload) then n
    else if !AcceptHasRoom(n) then n.(nextId := n.nextId + 1)
    else
      n.(accept := Some(n.accept.value.(queue := n.accept.value.queue + [n.nextId])),
         tunnels := n.tunnels[from := Entry(Server, n.nextId, n.now)],
         handles := n.handles[n.nextId := Handle(from, [payload], 0)],
         nextId := n.nextId + 1)
  }

  function Forget(n: Node, peer: PeerId): Node {
    n.(tunnels := n.tunnels - {peer})
  }

  /** The net effect of one relayed frame. */
  function RouteRelayed(n: Node, from: PeerId, payload: Bytes): Node {
    if !Admissible(n, from, payload) then n
    else if from !in n.tunnels then AcceptIntroduced(n, from, payload)
    else if !Yields(n, from, payload) then Deliver(n, from, payload)
    else AcceptIntroduced(Forget(n, from), from, payload)
  }

  function CloseTunnel(n: Node, target: PeerId, id: nat): Node {
    if target in n.tunnels && n.tunnels[target].id == id then Forget(n, target) else n
  }

  /** Dropping handle `id`: deregister it if the table still holds it, then free its channel. */
  function DropHandle(n: Node, id: nat): Node
    requires id in n.handles
  {
    CloseTunnel(n, n.handles[id].target, id).(handles := n.handles - {id})
  }

  function ClearTransport(n: Node): Node {
    n.(outbound := false, tunnels := map[])
  }

  function EnableAccept(n: Node): Node {
    n.(accept := Some(AcceptChannel([], true)))
  }
}
