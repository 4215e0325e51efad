/** The relay status object: the circuit operations of Circuit.dfy on mutable fields.
  *
  * Each method follows the original's branches and critical sections; its contract ties the
  * new field values to the net effect that Circuit.dfy states and CircuitRuns.dfy reasons
  * about.
  */
module RelayStatusModel {
  import opened Common
  import opened Circuit

  datatype Route = ToInbox(id: nat) | Ignore | Accept

  class RelayStatus {
    var connected: bool
    var outbound: bool
    var localPeerId: Option<PeerId>
    var inboundAccept: Option<AcceptChannel>
    var tunnels: map<PeerId, Entry>
    var handles: map<nat, Handle>
    var nextTunnelId: nat
    var clock: nat

    function Model(): Node
      reads this
    {
      Node(connected, outbound, localPeerId, inboundAccept, tunnels, handles, nextTunnelId, clock)
    }

    /** Handle ids are below the counter, so the next registration's channel is new. */
    ghost predicate Valid()
      reads this
    {
      forall id :: id in handles ==> id < nextTunnelId
    }

    constructor ()
      ensures Valid() && Model() == Node(false, false, None, None, map[], map[], 0, 0)
    {
      connected, outbound, localPeerId, inboundAccept := false, false, None, None;
      tunnels, handles, nextTunnelId, clock := map[], map[], 0, 0;
    }

    method InsertEntry(target: PeerId, role: Role) returns (id: nat)
      requires Valid()
      modifies this
      ensures Valid() && id == old(nextTunnelId)
      ensures Model() == Circuit.InsertEntry(old(Model()), target, role)
    {
      id := nextTunnelId;
      nextTunnelId := nextTunnelId + 1;
      tunnels := tunnels[target := Entry(role, id, clock)];
      handles := handles[id := Handle(target, [], 0)];
    }

    method OpenTunnel(target: PeerId) returns (r: Result<nat, DialError>)
      requires Valid()
      modifies this
      ensures Valid() && Model() == Circuit.OpenTunnel(old(Model()), target)
      ensures match DialRefusal(old(Model()), target)
              case Some(reason) => r == Err(reason)
              case None => r == Ok(old(nextTunnelId))
    {
      if !(connected && outbound) {
        return Err(NotConnected);
      }
      var local := if localPeerId.Some? then localPeerId.value else NO_PEER;
      if local != NO_PEER && local == target {
        return Err(SelfDial);
      }
      if target in tunnels && clock - tunnels[target].lastActivity < STALE_CIRCUIT_IDLE {
        return Err(Duplicate);
      }
      var id := InsertEntry(target, Client);
      return Ok(id);
    }

    method TrySend(id: nat, payload: Bytes)
      requires Valid()
      modifies this`handles
      ensures Valid() && handles == Circuit.TrySend(old(handles), id, payload)
    {
      if id in handles && |handles[id].arrived| - handles[id].taken < RELAY_TUNNEL_INBOUND_CAP {
        handles := handles[id := handles[id].(arrived := handles[id].arrived + [payload])];
      }
    }

    method CloseTunnel(target: PeerId, id: nat)
      modifies this`tunnels
      ensures Model() == Circuit.CloseTunnel(old(Model()), target, id)
    {
      if target in tunnels && tunnels[target].id == id {
        tunnels := tunnels - {target};
      }
    }

    /** `Drop` of a tunnel handle: deregister by id, then release the receiver. */
    method DropHandle(id: nat)
      requires Valid() && id in handles
      modifies this`tunnels, this`handles
      ensures Valid() && Model() == Circuit.DropHandle(old(Model()), id)
    {
      CloseTunnel(handles[id].target, id);
      handles := handles - {id};
    }

    method AcceptIntroduced(from: PeerId, payload: Bytes)
      requires Valid()
      modifies this
      ensures Valid() && Model() == Circuit.AcceptIntroduced(old(Model()), from, payload)
    {
      if !IsTlsClientHello(payload) {
        return;
      }
      if inboundAccept.None? {
        return;
      }
      if from in tunnels {
        return;
      }
      if |tunnels| >= MAX_RELAY_TUNNELS {
        return;
      }
      ghost var before := tunnels;
      ghost var channels := handles;
      var id := InsertEntry(from, Server);
      if from in tunnels {
        TrySend(tunnels[from].id, payload);
      }
      assert [] + [payload] == [payload];
      assert handles == channels[id := Handle(from, [payload], 0)];
      var channel := inboundAccept.value;
      if channel.open && |channel.queue| < INBOUND_ACCEPT_CAP {
        inboundAccept := Some(channel.(queue := channel.queue + [id]));
      } else {
        DropHandle(id);
        assert tunnels == before;
        assert handles == channels;
      }
    }

    method RouteRelayed(from: PeerId, payload: Bytes)
      requires Valid()
      modifies this
      ensures Valid() && Model() == Circuit.RouteRelayed(old(Model()), from, payload)
    {
      hide Circuit.AcceptIntroduced, Circuit.TrySend;
      if |payload| > MAX_RELAY_PAYLOAD {
        return;
      }
      var local := if localPeerId.Some? then localPeerId.value else NO_PEER;
      if local != NO_PEER && local == from {
        return;
      }
      ghost var before := tunnels;
      if from in tunnels {
        tunnels := tunnels[from := tunnels[from].(lastActivity := clock)];
      }
      var route := Accept;
      if from in tunnels {
        var entry := tunnels[from];
        if entry.role == Server || !IsTlsClientHello(payload) {
          route := ToInbox(entry.id);
        } else if Less(from, local) {
          route := Ignore;
        } else if inboundAccept.None? {
          route := Ignore;
        } else {
          tunnels := tunnels - {from};
          assert tunnels == before - {from};
        }
      }
      match route
      case ToInbox(id) => TrySend(id, payload);
      case Ignore =>
      case Accept => AcceptIntroduced(from, payload);
    }

    method ClearTransport()
      modifies this`outbound, this`tunnels
      ensures Model() == Circuit.ClearTransport(old(Model()))
    {
      outbound := false;
      tunnels := map[];
    }

    method EnableAccept()
      modifies this`inboundAccept
      ensures Model() == Circuit.EnableAccept(old(Model()))
    {
      inboundAccept := Some(AcceptChannel([], true));
    }
  }
}
