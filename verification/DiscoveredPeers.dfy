/** The capped set of peers discovered over one relay session. */
module Discovery {
  import opened Common

  const MAX_KNOWN_PEERS: nat := 1024

  datatype Peer = Peer(peerId: string, networkId: string, protocolVersion: nat, addresses: seq<string>)

  datatype Notice =
    | NewSession
    | Peers(peers: seq<Peer>)
    | PeerConnected(peer: Peer)
    | PeerDisconnected(peerId: string)

  // ---------------------------------------------------------------- a plain capped ordered set

  function Ids(order: seq<Peer>): set<string> {
    set p | p in order :: p.peerId
  }

  function Insert(order: seq<Peer>, peer: Peer): seq<Peer> {
    if |order| >= MAX_KNOWN_PEERS || peer.peerId in Ids(order) then order else order + [peer]
  }

  function Remove(order: seq<Peer>, peerId: string): seq<Peer> {
    if order == [] then []
    else
      var last := |order| - 1;
      Remove(order[..last], peerId) + if order[last].peerId == peerId then [] else [order[last]]
  }

  function InsertAll(order: seq<Peer>, peers: seq<Peer>): seq<Peer> {
    if peers == [] then order
    else Insert(InsertAll(order, peers[..|peers| - 1]), peers[|peers| - 1])
  }

  function Handle(order: seq<Peer>, notice: Notice): seq<Peer> {
    match notice
    case NewSession => []
    case Peers(peers) => InsertAll([], peers)
    case PeerConnected(peer) => Insert(order, peer)
    case PeerDisconnected(peerId) => Remove(order, peerId)
  }

  function HandleAll(order: seq<Peer>, notices: seq<Notice>): seq<Peer> {
    if notices == [] then order
    else Handle(HandleAll(order, notices[..|notices| - 1]), notices[|notices| - 1])
  }

  // ---------------------------------------------------------------- what it means

  predicate DistinctIds(order: seq<Peer>) {
    forall i, j :: 0 <= i < j < |order| ==> order[i].peerId != order[j].peerId
  }

  /** Every peer whose id has not appeared earlier in the list. */
  function FirstOccurrences(peers: seq<Peer>): seq<Peer> {
    if peers == [] then []
    else
      var init, last := peers[..|peers| - 1], peers[|peers| - 1];
      FirstOccurrences(init) + if last.peerId in Ids(init) then [] else [last]
  }

  lemma IdsAppend(order: seq<Peer>, peer: Peer)
    ensures Ids(order + [peer]) == Ids(order) + {peer.peerId}
  {
    var longer := order + [peer];
    forall id
      ensures id in Ids(longer) <==> id in Ids(order) + {peer.peerId}
    {
      if id in Ids(order) + {peer.peerId} {
        assert peer in longer;
        assert forall p :: p in order ==> p in longer;
      }
    }
  }

  lemma {:induction false} RemoveKeepsOthers(order: seq<Peer>, peerId: string, p: Peer)
    ensures p in Remove(order, peerId) <==> p in order && p.peerId != peerId
  {
    if order == [] {
    } else {
      var init, last := order[..|order| - 1], order[|order| - 1];
      RemoveKeepsOthers(init, peerId, p);
      assert p in order <==> p in init || p == last;
    }
  }

  lemma {:induction false} RemoveKeepsDistinct(order: seq<Peer>, peerId: string)
    requires DistinctIds(order)
    ensures DistinctIds(Remove(order, peerId))
  {
    if order == [] {
    } else {
      var init, last := order[..|order| - 1], order[|order| - 1];
      RemoveKeepsDistinct(init, peerId);
      var removed := Remove(init, peerId);
      forall i | 0 <= i < |removed|
        ensures removed[i].peerId != last.peerId
      {
        RemoveKeepsOthers(init, peerId, removed[i]);
      }
    }
  }

  lemma {:induction false} RemoveOfAbsent(order: seq<Peer>, peerId: string)
    ensures |Remove(order, peerId)| <= |order|
    ensures peerId !in Ids(order) ==> Remove(order, peerId) == order
  {
    if order == [] {
    } else {
      var init, last := order[..|order| - 1], order[|order| - 1];
      RemoveOfAbsent(init, peerId);
      assert order == init + [last];
      IdsAppend(init, last);
    }
  }

  /** Removal drops exactly the named peer and keeps the others distinct. */
  lemma RemoveDropsExactly(order: seq<Peer>, peerId: string)
    ensures forall p :: p in Remove(order, peerId) <==> p in order && p.peerId != peerId
    ensures |Remove(order, peerId)| <= |order|
    ensures peerId !in Ids(order) ==> Remove(order, peerId) == order
    ensures DistinctIds(order) ==> DistinctIds(Remove(order, peerId))
  {
    forall p
      ensures p in Remove(order, peerId) <==> p in order && p.peerId != peerId
    {
      RemoveKeepsOthers(order, peerId, p);
    }
    RemoveOfAbsent(order, peerId);
    if DistinctIds(order) {
      RemoveKeepsDistinct(order, peerId);
    }
  }

  /** No peer of the list has this id. */
  predicate Unknown(order: seq<Peer>, id: string) {
    forall i :: 0 <= i < |order| ==> order[i].peerId != id
  }

  lemma UnknownMeansNoId(order: seq<Peer>, id: string)
    ensures Unknown(order, id) <==> id !in Ids(order)
  {
    if !Unknown(order, id) {
      var i :| 0 <= i < |order| && order[i].peerId == id;
      assert order[i] in order;
    }
    if id in Ids(order) {
      var p :| p in order && p.peerId == id;
      var i :| 0 <= i < |order| && order[i] == p;
    }
  }

  /** `firsts` picks out of `peers`, in order, every peer whose id nobody before it has. */
  ghost predicate PicksFirsts(peers: seq<Peer>, firsts: seq<Peer>, at: seq<nat>) {
    && |at| == |firsts|
    && (forall k :: 0 <= k < |at| ==> at[k] < |peers| && firsts[k] == peers[at[k]])
    && (forall j, k :: 0 <= j < k < |at| ==> at[j] < at[k])
    && (forall i: nat :: i < |peers| ==> (i in at <==> Unknown(peers[..i], peers[i].peerId)))
  }

  lemma PicksGrow(init: seq<Peer>, last: Peer, firsts: seq<Peer>, at: seq<nat>)
    requires PicksFirsts(init, firsts, at)
    ensures Unknown(init, last.peerId) ==> PicksFirsts(init + [last], firsts + [last], at + [|init|])
    ensures !Unknown(init, last.peerId) ==> PicksFirsts(init + [last], firsts, at)
  {
    var peers := init + [last];
    var at' := if Unknown(init, last.peerId) then at + [|init|] else at;
    assert |init| !in at;
    forall i: nat | i < |peers|
      ensures i in at' <==> Unknown(peers[..i], peers[i].peerId)
    {
      assert peers[..i] == init[..i];
      assert i == |init| ==> init[..i] == init;
      assert i in at' <==> i in at || (i == |init| && Unknown(init, last.peerId));
    }
  }

  /** The distinct peers of a list are those, and where they stand can be told. */
  lemma {:induction false} FirstOccurrencesPick(peers: seq<Peer>) returns (at: seq<nat>)
    ensures PicksFirsts(peers, FirstOccurrences(peers), at)
  {
    hide PicksFirsts, Unknown, FirstOccurrences;
    if peers == [] {
      at := [];
      NothingToPick();
    } else {
      var init, last := peers[..|peers| - 1], peers[|peers| - 1];
      at := FirstOccurrencesPick(init);
      PicksGrow(init, last, FirstOccurrences(init), at);
      FirstOccurrencesStep(peers);
      assert init + [last] == peers;
      if Unknown(init, last.peerId) {
        at := at + [|init|];
      }
    }
  }

  lemma FirstOccurrencesStep(peers: seq<Peer>)
    requires peers != []
    ensures var init, last := peers[..|peers| - 1], peers[|peers| - 1];
      FirstOccurrences(peers)
        == if Unknown(init, last.peerId) then FirstOccurrences(init) + [last] else FirstOccurrences(init)
  {
    var init, last := peers[..|peers| - 1], peers[|peers| - 1];
    UnknownMeansNoId(init, last.peerId);
    assert FirstOccurrences(init) + [] == FirstOccurrences(init);
  }

  lemma NothingToPick()
    ensures PicksFirsts([], FirstOccurrences([]), [])
  {
  }

  lemma {:induction false} FirstOccurrencesKeepIds(peers: seq<Peer>)
    ensures Ids(FirstOccurrences(peers)) == Ids(peers)
  {
    if peers == [] {
    } else {
      var init, last := peers[..|peers| - 1], peers[|peers| - 1];
      FirstOccurrencesKeepIds(init);
      assert peers == init + [last];
      IdsAppend(init, last);
      IdsAppend(FirstOccurrences(init), last);
      assert FirstOccurrences(init) + [] == FirstOccurrences(init);
    }
  }

  /** Replacing the set keeps the first 1,024 distinct ids, in order. */
  lemma {:induction false} ReplaceKeepsFirstDistinct(peers: seq<Peer>)
    ensures InsertAll([], peers) == FirstOccurrences(peers)[..Min(MAX_KNOWN_PEERS, |FirstOccurrences(peers)|)]
  {
    if peers == [] {
    } else {
      var init, last := peers[..|peers| - 1], peers[|peers| - 1];
      ReplaceKeepsFirstDistinct(init);
      FirstOccurrencesKeepIds(init);
      var firsts := FirstOccurrences(init);
      if |firsts| < MAX_KNOWN_PEERS {
        assert InsertAll([], init) == firsts;
      }
    }
  }

  ghost predicate WellKept(order: seq<Peer>) {
    DistinctIds(order) && |order| <= MAX_KNOWN_PEERS
  }

  lemma InsertKeeps(order: seq<Peer>, peer: Peer)
    requires WellKept(order)
    ensures WellKept(Insert(order, peer))
  {
    assert forall p :: p in order ==> p.peerId in Ids(order);
  }

  lemma {:induction false} InsertAllKeeps(order: seq<Peer>, peers: seq<Peer>)
    requires WellKept(order)
    ensures WellKept(InsertAll(order, peers))
  {
    if peers == [] {
    } else {
      InsertAllKeeps(order, peers[..|peers| - 1]);
      InsertKeeps(InsertAll(order, peers[..|peers| - 1]), peers[|peers| - 1]);
    }
  }

  lemma HandleKeeps(order: seq<Peer>, notice: Notice)
    requires WellKept(order)
    ensures WellKept(Handle(order, notice))
  {
    match notice
    case NewSession =>
    case Peers(peers) => InsertAllKeeps([], peers);
    case PeerConnected(peer) => InsertKeeps(order, peer);
    case PeerDisconnected(peerId) => RemoveDropsExactly(order, peerId);
  }

  /** Over any run the list stays duplicate-free and within the cap. */
  lemma {:induction false} RunsStayWellKept(notices: seq<Notice>)
    ensures WellKept(HandleAll([], notices))
  {
    if notices == [] {
    } else {
      var init := notices[..|notices| - 1];
      RunsStayWellKept(init);
      HandleKeeps(HandleAll([], init), notices[|notices| - 1]);
    }
  }

  /** What the list shows depends only on the notices since the current session began. */
  lemma {:induction false} OnlyTheCurrentSessionShows(before: seq<Notice>, session: seq<Notice>)
    ensures HandleAll([], before + [NewSession] + session) == HandleAll([], session)
  {
    var run := before + [NewSession] + session;
    if session == [] {
      assert run[|run| - 1] == NewSession;
    } else {
      var init := session[..|session| - 1];
      OnlyTheCurrentSessionShows(before, init);
      assert run[..|run| - 1] == before + [NewSession] + init;
    }
  }

  // ---------------------------------------------------------------- each message in plain terms

  lemma InsertOutcome(order: seq<Peer>, peer: Peer)
    ensures Insert(order, peer) == if |order| < 1024 && Unknown(order, peer.peerId) then order + [peer] else order
  {
    UnknownMeansNoId(order, peer.peerId);
  }

  lemma {:induction false} RemoveAt(order: seq<Peer>, peerId: string, i: nat)
    requires DistinctIds(order) && i < |order| && order[i].peerId == peerId
    ensures Remove(order, peerId) == order[..i] + order[i + 1..]
  {
    var last := |order| - 1;
    var init := order[..last];
    if i == last {
      assert peerId !in Ids(init) by {
        UnknownMeansNoId(init, peerId);
      }
      RemoveOfAbsent(init, peerId);
      assert order[i + 1..] == [] && order[..i] == init;
    } else {
      RemoveAt(init, peerId, i);
      assert init[..i] == order[..i] && init[i + 1..] + [order[last]] == order[i + 1..];
    }
  }

  lemma RemoveOutcome(order: seq<Peer>, peerId: string)
    requires DistinctIds(order)
    ensures Unknown(order, peerId) ==> Remove(order, peerId) == order
    ensures forall i :: 0 <= i < |order| && order[i].peerId == peerId ==>
      Remove(order, peerId) == order[..i] + order[i + 1..]
  {
    UnknownMeansNoId(order, peerId);
    RemoveOfAbsent(order, peerId);
    forall i | 0 <= i < |order| && order[i].peerId == peerId
      ensures Remove(order, peerId) == order[..i] + order[i + 1..]
    {
      RemoveAt(order, peerId, i);
    }
  }

  /** `after` is the list `before` without the peer of this id. */
  predicate Without(before: seq<Peer>, peerId: string, after: seq<Peer>) {
    && (Unknown(before, peerId) ==> after == before)
    && (forall i :: 0 <= i < |before| && before[i].peerId == peerId ==> after == before[..i] + before[i + 1..])
  }

  /** `after` is the first 1,024 peers of distinct id among `peers`, in order. */
  ghost predicate FirstDistinct(peers: seq<Peer>, after: seq<Peer>) {
    exists firsts, at :: PicksFirsts(peers, firsts, at) && after == firsts[..Min(1024, |firsts|)]
  }

  /** What one message makes of the list. */
  lemma EachNoticeTakesEffect(order: seq<Peer>, notice: Notice)
    requires WellKept(order)
    ensures match notice
      case NewSession => Handle(order, notice) == []
      case Peers(peers) => FirstDistinct(peers, Handle(order, notice))
      case PeerConnected(peer) =>
        Handle(order, notice) == if |order| < 1024 && Unknown(order, peer.peerId) then order + [peer] else order
      case PeerDisconnected(peerId) => Without(order, peerId, Handle(order, notice))
  {
    match notice
    case NewSession =>
    case Peers(peers) =>
      ReplaceKeepsFirstDistinct(peers);
      var at := FirstOccurrencesPick(peers);
      assert PicksFirsts(peers, FirstOccurrences(peers), at);
    case PeerConnected(peer) => InsertOutcome(order, peer);
    case PeerDisconnected(peerId) => RemoveOutcome(order, peerId);
  }

  // ---------------------------------------------------------------- who is visible

  /** The message names the peer as present. */
  predicate Announces(notice: Notice, id: string) {
    match notice
    case Peers(peers) => !Unknown(peers, id)
    case PeerConnected(peer) => peer.peerId == id
    case _ => false
  }

  /** The message names the peer as absent: it is gone, or a whole list or a new session omits it. */
  predicate Retracts(notice: Notice, id: string) {
    match notice
    case NewSession => true
    case Peers(peers) => Unknown(peers, id)
    case PeerConnected(_) => false
    case PeerDisconnected(peerId) => peerId == id
  }

  /** Some message announces the peer and none after it retracts it. */
  predicate LastAnnounced(notices: seq<Notice>, id: string) {
    exists i :: 0 <= i < |notices| && Announces(notices[i], id)
      && forall j :: i < j < |notices| ==> !Retracts(notices[j], id)
  }

  lemma HandleShows(order: seq<Peer>, notice: Notice, id: string)
    requires WellKept(order)
    ensures Retracts(notice, id) ==> id !in Ids(Handle(order, notice))
    ensures !Announces(notice, id) && !Retracts(notice, id) ==> (id in Ids(Handle(order, notice)) <==> id in Ids(order))
    ensures id in Ids(order) && !Retracts(notice, id) && !notice.Peers? ==> id in Ids(Handle(order, notice))
    ensures Announces(notice, id) && |order| < 1024 && |Handle(order, notice)| < 1024 ==>
      id in Ids(Handle(order, notice))
  {
    match notice
    case NewSession =>
    case Peers(peers) =>
      UnknownMeansNoId(peers, id);
      ReplaceKeepsFirstDistinct(peers);
      FirstOccurrencesKeepIds(peers);
      var firsts := FirstOccurrences(peers);
      assert |firsts| < 1024 ==> firsts[..Min(1024, |firsts|)] == firsts;
      assert forall p :: p in firsts[..Min(1024, |firsts|)] ==> p in firsts;
    case PeerConnected(peer) => IdsAppend(order, peer);
    case PeerDisconnected(peerId) => RemoveDropsExactly(order, peerId);
  }

  lemma LastAnnouncedStep(init: seq<Notice>, last: Notice, id: string)
    ensures LastAnnounced(init + [last], id)
      <==> Announces(last, id) || (LastAnnounced(init, id) && !Retracts(last, id))
  {
    var notices := init + [last];
    if LastAnnounced(notices, id) && !Announces(last, id) {
      var i :| 0 <= i < |notices| && Announces(notices[i], id)
        && forall j :: i < j < |notices| ==> !Retracts(notices[j], id);
      assert i < |init| && notices[|init|] == last;
      assert forall j :: i < j < |init| ==> init[j] == notices[j];
    }
    if Announces(last, id) {
      assert notices[|init|] == last;
    } else if LastAnnounced(init, id) && !Retracts(last, id) {
      var i :| 0 <= i < |init| && Announces(init[i], id) && forall j :: i < j < |init| ==> !Retracts(init[j], id);
      assert notices[i] == init[i];
      assert forall j :: i < j < |notices| ==> notices[j] == if j < |init| then init[j] else last;
    }
  }

  /** The list was never full after the first `n` messages or fewer. */
  predicate NeverFull(notices: seq<Notice>) {
    forall n :: 0 <= n <= |notices| ==> |HandleAll([], notices[..n])| < 1024
  }

  /** Who is visible after any run, in terms of the messages alone: only a peer that was announced and
    * not retracted since, and, while the list has not been full, every such peer.
    */
  lemma {:induction false} VisibleExactlyTheLastAnnounced(notices: seq<Notice>, id: string)
    ensures id in Ids(HandleAll([], notices)) ==> LastAnnounced(notices, id)
    ensures NeverFull(notices) ==> (id in Ids(HandleAll([], notices)) <==> LastAnnounced(notices, id))
  {
    if notices == [] {
    } else {
      var n := |notices| - 1;
      var init, last := notices[..n], notices[n];
      VisibleExactlyTheLastAnnounced(init, id);
      RunsStayWellKept(init);
      HandleShows(HandleAll([], init), last, id);
      LastAnnouncedStep(init, last, id);
      assert init + [last] == notices;
      if NeverFull(notices) {
        assert notices[..n + 1] == notices;
        forall m | 0 <= m <= n
          ensures |HandleAll([], init[..m])| < 1024
        {
          assert init[..m] == notices[..m];
        }
      }
    }
  }

  // ---------------------------------------------------------------- the set in place

  class DiscoveredPeers {
    var order: seq<Peer>
    var ids: set<string>

    /** The vector and the id set are in lockstep, duplicate-free and capped. */
    ghost predicate Valid()
      reads this
    {
      ids == Ids(order) && WellKept(order)
    }

    constructor ()
      ensures Valid() && order == []
    {
      order, ids := [], {};
    }

    method InsertPeer(peer: Peer)
      requires Valid()
      modifies this
      ensures Valid() && order == Insert(old(order), peer)
    {
      InsertKeeps(order, peer);
      if |order| >= MAX_KNOWN_PEERS {
        return;
      }
      if peer.peerId !in ids {
        IdsAppend(order, peer);
        ids := ids + {peer.peerId};
        order := order + [peer];
      }
    }

    method RemovePeer(peerId: string)
      requires Valid()
      modifies this
      ensures Valid() && order == Remove(old(order), peerId)
    {
      RemoveDropsExactly(order, peerId);
      if peerId in ids {
        ids := ids - {peerId};
        var kept := [];
        for i := 0 to |order|
          invariant order == old(order)
          invariant kept == Remove(order[..i], peerId)
        {
          assert order[..i + 1][..i] == order[..i];
          if order[i].peerId != peerId {
            kept := kept + [order[i]];
          }
        }
        assert order[..|order|] == order;
        order := kept;
      }
    }

    method Clear()
      modifies this
      ensures Valid() && order == []
    {
      order, ids := [], {};
    }

    method Replace(peers: seq<Peer>)
      requires Valid()
      modifies this
      ensures Valid() && order == InsertAll([], peers)
    {
      order, ids := [], {};
      for i := 0 to |peers|
        invariant Valid() && order == InsertAll([], peers[..i])
      {
        assert peers[..i + 1][..i] == peers[..i];
        InsertPeer(peers[i]);
      }
      assert peers[..|peers|] == peers;
    }

    /** The set's part in handling one decoded relay message, and in starting a session. */
    method HandleNotice(notice: Notice)
      requires Valid()
      modifies this
      ensures Valid() && order == Handle(old(order), notice)
      ensures match notice
        case NewSession => order == []
        case Peers(peers) => FirstDistinct(peers, order)
        case PeerConnected(peer) =>
          order == if |old(order)| < 1024 && Unknown(old(order), peer.peerId) then old(order) + [peer] else old(order)
        case PeerDisconnected(peerId) => Without(old(order), peerId, order)
    {
      EachNoticeTakesEffect(order, notice);
      match notice
      case NewSession => Clear();
      case Peers(peers) => Replace(peers);
      case PeerConnected(peer) => InsertPeer(peer);
      case PeerDisconnected(peerId) => RemovePeer(peerId);
    }
  }
}
