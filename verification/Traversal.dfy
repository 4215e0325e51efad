/** The traversal tiers and their attempt order. */
module Traversal {

  datatype TraversalKind = Direct | Upnp | NatPmp | Pcp | HolePunch | Relayed

  function Rank(kind: TraversalKind): nat {
    match kind
    case Direct => 0
    case Upnp => 1
    case NatPmp => 2
    case Pcp => 3
    case HolePunch => 4
    case Relayed => 5
  }

  lemma RankIsPlaceInLadder(kind: TraversalKind, place: nat)
    requires place < 6 && [Direct, Upnp, NatPmp, Pcp, HolePunch, Relayed][place] == kind
    ensures Rank(kind) == place
  {
  }
}
