/** What one relayed frame and one dial come to, case by case and in plain terms.
  *
  * Circuit.dfy defines the operations through named conditions. The lemmas here state their
  * outcomes in bytes, counts and times alone.
  */
module RoutingRules {
  import opened Common
  import opened Circuit
  import opened CircuitRuns

  /** A TLS record whose first message is of the given type: the content type, four bytes of
    * version and length, and the message, which starts with its type (sections 5.1 and 4 of
    * RFC 8446).
    */
  function Record(contentType: byte, header: Bytes, messageType: byte, body: Bytes): Bytes
    requires |header| == 4
  {
    [contentType] + header + [messageType] + body
  }

  /** The handshake content type is 22 and the type of a client_hello is 1. */
  lemma ClientHelloIsExactlyThatRecord(payload: Bytes)
    ensures IsTlsClientHello(payload)
      <==> exists header, body :: |header| == 4 && payload == Record(22, header, 1, body)
  {
    if IsTlsClientHello(payload) {
      assert payload == Record(22, payload[1..5], 1, payload[6..]);
    }
  }

  // ---------------------------------------------------------------- the order of peer ids

  /** Strings are ordered at their first difference, and a proper prefix comes first. */
  lemma {:induction false} BelowExactlyWhen(a: string, b: string)
    ensures Below(a, b)
      <==> exists k: nat :: k <= |a| && k < |b| && a[..k] == b[..k] && (k == |a| || a[k] < b[k])
  {
    if b == [] || a == [] {
      assert b != [] ==> a[..0] == b[..0];
    } else if a[0] != b[0] {
      assert a[..0] == b[..0];
      assert forall k: nat :: 0 < k <= |a| && k < |b| ==> a[..k][0] == a[0] && b[..k][0] == b[0];
    } else {
      BelowExactlyWhen(a[1..], b[1..]);
      if Below(a[1..], b[1..]) {
        var k: nat :| k <= |a[1..]| && k < |b[1..]| && a[1..][..k] == b[1..][..k]
          && (k == |a[1..]| || a[1..][k] < b[1..][k]);
        assert a[..k + 1] == [a[0]] + a[1..][..k] && b[..k + 1] == [b[0]] + b[1..][..k];
      }
      forall k: nat | k <= |a| && k < |b| && a[..k] == b[..k] && (k == |a| || a[k] < b[k])
        ensures Below(a[1..], b[1..])
      {
        assert k > 0;
        assert a[1..][..k - 1] == a[..k][1..] && b[1..][..k - 1] == b[..k][1..];
      }
    }
  }

  // ---------------------------------------------------------------- one relayed frame

  /** A node that serves a session under its own id hears from somebody else. */
  predicate Hears(n: Node, own: PeerId, from: PeerId) {
    n.local == Some(own) && own.hex != "" && from != own
  }

  /** A frame above 1 MiB, or stamped with the node's own id, changes nothing. */
  lemma OversizedAndOwnFramesAreDropped(n: Node, own: PeerId, from: PeerId, payload: Bytes)
    requires n.local == Some(own) && own.hex != ""
    requires |payload| > 1_048_576 || from == own
    ensures RouteRelayed(n, from, payload) == n
  {
  }

  /** On a server circuit any payload, and on a client circuit any but a ClientHello, is queued while
    * fewer than 256 payloads are unread, and is lost otherwise. The circuit keeps its role and id.
    */
  lemma CircuitsReceiveWhatIsNoCompetingHello(n: Node, own: PeerId, from: PeerId, payload: Bytes)
    requires Owned(n) && Hears(n, own, from) && from in n.tunnels && |payload| <= 1_048_576
    requires n.tunnels[from].role == Server || |payload| < 6 || payload[0] != 22 || payload[5] != 1
    ensures var entry := n.tunnels[from];
      var inbox := n.handles[entry.id];
      RouteRelayed(n, from, payload) == n.(
        tunnels := n.tunnels[from := Entry(entry.role, entry.id, n.now)],
        handles := if |inbox.arrived| - inbox.taken < 256
                   then n.handles[entry.id := Handle(inbox.target, inbox.arrived + [payload], inbox.taken)]
                   else n.handles)
  {
  }

  /** A stranger's payload that is no ClientHello opens nothing. */
  lemma OtherRecordsOpenNothing(n: Node, own: PeerId, from: PeerId, payload: Bytes)
    requires Hears(n, own, from) && from !in n.tunnels
    requires |payload| < 6 || payload[0] != 22 || payload[5] != 1
    ensures RouteRelayed(n, from, payload) == n
  {
  }

  /** What a stranger's ClientHello leaves: nothing new while the responder is off or 256 circuits
    * are held; a spent id while 64 tunnels wait or the consumer is gone; else a server circuit.
    */
  lemma ClientHelloOpensACircuit(n: Node, own: PeerId, from: PeerId, payload: Bytes)
    requires Hears(n, own, from) && from !in n.tunnels && 6 <= |payload| <= 1_048_576
    requires payload[0] == 22 && payload[5] == 1
    ensures n.accept.None? || |n.tunnels| >= 256 ==> RouteRelayed(n, from, payload) == n
    ensures n.accept.Some? && |n.tunnels| < 256 ==>
      var channel := n.accept.value;
      RouteRelayed(n, from, payload) ==
        if channel.open && |channel.queue| < 64 then
          n.(accept := Some(AcceptChannel(channel.queue + [n.nextId], true)),
             tunnels := n.tunnels[from := Entry(Server, n.nextId, n.now)],
             handles := n.handles[n.nextId := Handle(from, [payload], 0)],
             nextId := n.nextId + 1)
        else n.(nextId := n.nextId + 1)
  {
  }

  /** The higher id, or a node with its responder off, ignores a competing ClientHello. */
  lemma CompetingHelloIsIgnored(n: Node, own: PeerId, from: PeerId, payload: Bytes)
    requires Hears(n, own, from) && 6 <= |payload| <= 1_048_576 && payload[0] == 22 && payload[5] == 1
    requires from in n.tunnels && n.tunnels[from].role == Client
    requires Below(from.hex, own.hex) || n.accept.None?
    ensures RouteRelayed(n, from, payload)
      == n.(tunnels := n.tunnels[from := Entry(Client, n.tunnels[from].id, n.now)])
  {
  }

  /** The lower id gives its client circuit up and treats the sender as a stranger. */
  lemma CompetingHelloIsTakenUp(n: Node, own: PeerId, from: PeerId, payload: Bytes)
    requires Hears(n, own, from) && 6 <= |payload| <= 1_048_576 && payload[0] == 22 && payload[5] == 1
    requires from in n.tunnels && n.tunnels[from].role == Client
    requires Below(own.hex, from.hex) && n.accept.Some?
    ensures RouteRelayed(n, from, payload) == RouteRelayed(n.(tunnels := n.tunnels - {from}), from, payload)
  {
    LessIsTotal(own, from);
  }

  // ---------------------------------------------------------------- one dial

  /** Why a dial is refused, and what a dial that is not refused registers. */
  lemma DialOutcome(n: Node, target: PeerId)
    ensures DialRefusal(n, target) == Some(NotConnected) <==> !n.connected || !n.outbound
    ensures DialRefusal(n, target) == Some(SelfDial)
      <==> n.connected && n.outbound && n.local == Some(target) && target.hex != ""
    ensures DialRefusal(n, target) == Some(Duplicate)
      <==> n.connected && n.outbound && (n.local != Some(target) || target.hex == "")
           && target in n.tunnels && n.now - n.tunnels[target].lastActivity < 30_000_000_000
    ensures OpenTunnel(n, target) ==
      if DialRefusal(n, target).Some? then n
      else n.(tunnels := n.tunnels[target := Entry(Client, n.nextId, n.now)],
              handles := n.handles[n.nextId := Handle(target, [], 0)],
              nextId := n.nextId + 1)
  {
  }

  // ---------------------------------------------------------------- the consumer and the session

  /** What the other events of a run do: time passes, the owner of a tunnel receives its oldest unread
    * payload, the consumer takes the tunnel that has waited longest, or goes away, and a session
    * begins, registers, is acknowledged and ends.
    */
  lemma OtherEventsOutcome(own: PeerId, n: Node, ev: Event)
    requires Enabled(n, ev)
    ensures match ev
      case Tick(dt) => Apply(own, n, ev) == n.(now := n.now + dt)
      case Receive(id) =>
        var h := n.handles[id];
        && h.taken < |h.arrived|
        && Apply(own, n, ev) == n.(handles := n.handles[id := Handle(h.target, h.arrived, h.taken + 1)])
      case TakeAccepted =>
        && n.accept.Some? && n.accept.value.queue != []
        && Apply(own, n, ev) == n.(accept := Some(AcceptChannel(n.accept.value.queue[1..], n.accept.value.open)))
      case DropAcceptor => Apply(own, n, ev) == n.(accept := Some(AcceptChannel([], false)))
      case TurnOnAccept => Apply(own, n, ev) == n.(accept := Some(AcceptChannel([], true)))
      case BeginSession => Apply(own, n, ev) == n.(connected := false, outbound := false, tunnels := map[])
      case Register => Apply(own, n, ev) == n.(local := Some(own), outbound := true)
      case Registered => Apply(own, n, ev) == n.(connected := true)
      case EndSession => Apply(own, n, ev) == n.(connected := false, outbound := false, tunnels := map[])
      case Drop(id) =>
        var target := n.handles[id].target;
        Apply(own, n, ev) == n.(
          tunnels := if target in n.tunnels && n.tunnels[target].id == id then n.tunnels - {target} else n.tunnels,
          handles := n.handles - {id})
      case _ => true
  {
  }
}
