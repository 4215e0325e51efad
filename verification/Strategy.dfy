/** The traversal strategy: try the enabled methods in stable rank order, first success wins.
  *
  * A method is named by its index in the caller's list. What its two bounded stages do is an
  * oracle on that index: produce an address, then dial it.
  */
module Strategy {
  import opened Common
  import opened Traversal

  type Address = string
  type Connection = string

  datatype MethodError = MethodError(kind: TraversalKind, reason: string, timeout: bool)

  datatype NatError = NoMethodsEnabled | AllMethodsFailed(failures: seq<MethodError>)

  /** A future under a deadline. */
  datatype Bounded<+T> = Finished(result: Result<T, MethodError>) | Elapsed

  datatype Ladder = Ladder(
    kinds: seq<TraversalKind>,
    attempt: nat -> Bounded<Address>,
    dial: (nat, Address) -> Bounded<Connection>)

  function NameOf(kind: TraversalKind): string {
    match kind
    case Direct => "Direct"
    case Upnp => "Upnp"
    case NatPmp => "NatPmp"
    case Pcp => "Pcp"
    case HolePunch => "HolePunch"
    case Relayed => "Relayed"
  }

  function RunBounded<T>(kind: TraversalKind, future: Bounded<T>): Result<T, MethodError> {
    match future
    case Finished(result) => result
    case Elapsed => Err(MethodError(kind, NameOf(kind) + " timed out", true))
  }

  // ---------------------------------------------------------------- stable rank order

  /** Method `a` is tried before method `b`: lower rank first, ties in the caller's order. */
  predicate Before(kinds: seq<TraversalKind>, a: nat, b: nat)
    requires a < |kinds| && b < |kinds|
  {
    Rank(kinds[a]) < Rank(kinds[b]) || (Rank(kinds[a]) == Rank(kinds[b]) && a < b)
  }

  predicate Indices(kinds: seq<TraversalKind>, s: seq<nat>) {
    forall i :: 0 <= i < |s| ==> s[i] < |kinds|
  }

  predicate InOrder(kinds: seq<TraversalKind>, s: seq<nat>)
    requires Indices(kinds, s)
  {
    forall i, j :: 0 <= i < j < |s| ==> Before(kinds, s[i], s[j])
  }

  /** Places `x` after every element of equal or lower rank. */
  function Insert(kinds: seq<TraversalKind>, s: seq<nat>, x: nat): (r: seq<nat>)
    requires Indices(kinds, s) && x < |kinds|
    ensures Indices(kinds, r) && |r| == |s| + 1
  {
    if s == [] then [x]
    else if Rank(kinds[x]) < Rank(kinds[s[0]]) then [x] + s
    else [s[0]] + Insert(kinds, s[1..], x)
  }

  /** The stable sort of the first `n` methods by rank. */
  function SortByRank(kinds: seq<TraversalKind>, n: nat): (r: seq<nat>)
    requires n <= |kinds|
    ensures Indices(kinds, r) && |r| == n
  {
    if n == 0 then [] else Insert(kinds, SortByRank(kinds, n - 1), n - 1)
  }

  lemma {:induction false} InsertContains(kinds: seq<TraversalKind>, s: seq<nat>, x: nat, k: nat)
    requires Indices(kinds, s) && x < |kinds|
    ensures k in Insert(kinds, s, x) <==> k in s || k == x
  {
    if s == [] || Rank(kinds[x]) < Rank(kinds[s[0]]) {
    } else {
      InsertContains(kinds, s[1..], x, k);
      assert s == [s[0]] + s[1..];
    }
  }

  lemma {:induction false} InsertKeepsOrder(kinds: seq<TraversalKind>, s: seq<nat>, x: nat)
    requires Indices(kinds, s) && x < |kinds| && InOrder(kinds, s)
    requires forall i :: 0 <= i < |s| ==> s[i] < x
    ensures InOrder(kinds, Insert(kinds, s, x))
  {
    if s == [] || Rank(kinds[x]) < Rank(kinds[s[0]]) {
    } else {
      InsertKeepsOrder(kinds, s[1..], x);
      var rest := Insert(kinds, s[1..], x);
      forall j | 0 <= j < |rest|
        ensures Before(kinds, s[0], rest[j])
      {
        InsertContains(kinds, s[1..], x, rest[j]);
      }
    }
  }

  /** The sorted list holds every method once, in stable rank order. */
  lemma {:induction false} SortIsStable(kinds: seq<TraversalKind>, n: nat)
    requires n <= |kinds|
    ensures InOrder(kinds, SortByRank(kinds, n))
    ensures forall k: nat :: k in SortByRank(kinds, n) <==> k < n
  {
    hide Before, Insert, Rank;
    if n == 0 {
    } else {
      SortIsStable(kinds, n - 1);
      var sorted := SortByRank(kinds, n - 1);
      forall i | 0 <= i < |sorted|
        ensures sorted[i] < n - 1
      {
        assert sorted[i] in sorted;
      }
      InsertKeepsOrder(kinds, sorted, n - 1);
      forall k: nat
        ensures k in SortByRank(kinds, n) <==> k < n
      {
        InsertContains(kinds, sorted, n - 1, k);
      }
    }
  }

  // ---------------------------------------------------------------- one method

  /** What trying method `k` through both stages comes to. */
  function Try(l: Ladder, k: nat): Result<Connection, MethodError>
    requires k < |l.kinds|
  {
    match RunBounded(l.kinds[k], l.attempt(k))
    case Err(e) => Err(e)
    case Ok(address) => RunBounded(l.kinds[k], l.dial(k, address))
  }

  predicate Succeeds(l: Ladder, k: nat) {
    k < |l.kinds| && Try(l, k).Ok?
  }

  predicate FailuresOf(l: Ladder, tried: seq<nat>, failures: seq<MethodError>) {
    && |failures| == |tried|
    && forall i :: 0 <= i < |tried| ==> tried[i] < |l.kinds| && Try(l, tried[i]) == Err(failures[i])
  }

  /** `winner` succeeds, and every other method that would succeed comes after it. */
  ghost predicate FirstSuccess(l: Ladder, winner: nat) {
    Succeeds(l, winner) && forall k: nat :: Succeeds(l, k) && k != winner ==> Before(l.kinds, winner, k)
  }

  /** The methods tried are exactly those up to `winner`. */
  ghost predicate TriedUpTo(l: Ladder, tried: seq<nat>, winner: nat) {
    winner < |l.kinds| && forall k: nat :: k < |l.kinds| ==> (k in tried <==> k == winner || Before(l.kinds, k, winner))
  }

  ghost predicate AllTried(l: Ladder, tried: seq<nat>) {
    forall k: nat :: k in tried <==> k < |l.kinds|
  }

  ghost predicate Won(l: Ladder, tried: seq<nat>, winner: nat, connection: Connection) {
    FirstSuccess(l, winner) && TriedUpTo(l, tried, winner) && Try(l, winner) == Ok(connection)
  }

  ghost predicate NoneSucceeds(l: Ladder) {
    forall k: nat :: !Succeeds(l, k)
  }

  lemma AllFailed(l: Ladder, tried: seq<nat>, failures: seq<MethodError>)
    requires AllTried(l, tried) && FailuresOf(l, tried, failures)
    ensures NoneSucceeds(l)
  {
    forall k: nat | k < |l.kinds|
      ensures !Succeeds(l, k)
    {
      assert k in tried;
    }
  }

  lemma FailureRecorded(l: Ladder, tried: seq<nat>, failures: seq<MethodError>, k: nat, e: MethodError)
    requires FailuresOf(l, tried, failures) && k < |l.kinds| && Try(l, k) == Err(e)
    ensures FailuresOf(l, tried + [k], failures + [e])
  {
  }

  /** If everything before position `at` of the stable order failed and `at` succeeded, `at`
    * holds the first success, and the prefix up to it is everything that precedes it.
    */
  lemma WinnerIsFirst(l: Ladder, ordered: seq<nat>, at: nat, failures: seq<MethodError>)
    requires Indices(l.kinds, ordered) && InOrder(l.kinds, ordered) && at < |ordered| && AllTried(l, ordered)
    requires FailuresOf(l, ordered[..at], failures)
    requires Succeeds(l, ordered[at])
    ensures FirstSuccess(l, ordered[at])
    ensures TriedUpTo(l, ordered[..at + 1], ordered[at])
  {
    forall k: nat | k < |l.kinds|
      ensures k in ordered[..at + 1] <==> k == ordered[at] || Before(l.kinds, k, ordered[at])
      ensures Succeeds(l, k) && k != ordered[at] ==> Before(l.kinds, ordered[at], k)
    {
      assert k in ordered;
      var p :| 0 <= p < |ordered| && ordered[p] == k;
      if p < at {
        assert ordered[..at][p] == k && ordered[..at + 1][p] == k;
      } else if p == at {
        assert ordered[..at + 1][p] == k;
      } else {
        assert Before(l.kinds, ordered[at], ordered[p]);
      }
    }
  }

  lemma OneMoreTried(ordered: seq<nat>, i: nat)
    requires i < |ordered|
    ensures ordered[..i] + [ordered[i]] == ordered[..i + 1]
  {
  }

  // ---------------------------------------------------------------- in the order of the ladder

  /** Trying a method connects exactly when it yields an address in time and the dial to that address
    * succeeds in time; a stage that runs out of time fails as such.
    */
  lemma TryMeansBothStages(l: Ladder, k: nat)
    requires k < |l.kinds|
    ensures Try(l, k).Ok? <==>
      && l.attempt(k).Finished?
      && l.attempt(k).result.Ok?
      && l.dial(k, l.attempt(k).result.value).Finished?
      && l.dial(k, l.attempt(k).result.value).result.Ok?
    ensures l.attempt(k) == Elapsed ==>
      Try(l, k).Err? && Try(l, k).error.kind == l.kinds[k] && Try(l, k).error.timeout
    ensures l.attempt(k).Finished? && l.attempt(k).result.Err? ==> Try(l, k) == Err(l.attempt(k).result.error)
    ensures l.attempt(k).Finished? && l.attempt(k).result.Ok? ==>
      match l.dial(k, l.attempt(k).result.value)
      case Finished(result) => Try(l, k) == result
      case Elapsed => Try(l, k).Err? && Try(l, k).error.kind == l.kinds[k] && Try(l, k).error.timeout
  {
  }

  /** Method `a` comes before method `b`: its tier stands earlier in the list Direct, UPnP, NAT-PMP,
    * PCP, hole punch, relayed, or they share a tier and the caller named it earlier.
    */
  ghost predicate Earlier(kinds: seq<TraversalKind>, a: nat, b: nat)
    requires a < |kinds| && b < |kinds|
  {
    || (kinds[a] == kinds[b] && a < b)
    || exists p, q :: 0 <= p < q < 6
         && [Direct, Upnp, NatPmp, Pcp, HolePunch, Relayed][p] == kinds[a]
         && [Direct, Upnp, NatPmp, Pcp, HolePunch, Relayed][q] == kinds[b]
  }

  function Place(kind: TraversalKind): (p: nat)
    ensures p < 6 && [Direct, Upnp, NatPmp, Pcp, HolePunch, Relayed][p] == kind
  {
    match kind
    case Direct => 0
    case Upnp => 1
    case NatPmp => 2
    case Pcp => 3
    case HolePunch => 4
    case Relayed => 5
  }

  lemma BeforeMeansEarlier(kinds: seq<TraversalKind>, a: nat, b: nat)
    requires a < |kinds| && b < |kinds|
    ensures Before(kinds, a, b) <==> Earlier(kinds, a, b)
  {
    var p, q := Place(kinds[a]), Place(kinds[b]);
    RankIsPlaceInLadder(kinds[a], p);
    RankIsPlaceInLadder(kinds[b], q);
    if Earlier(kinds, a, b) && !(kinds[a] == kinds[b] && a < b) {
      var p', q' :| 0 <= p' < q' < 6
        && [Direct, Upnp, NatPmp, Pcp, HolePunch, Relayed][p'] == kinds[a]
        && [Direct, Upnp, NatPmp, Pcp, HolePunch, Relayed][q'] == kinds[b];
      RankIsPlaceInLadder(kinds[a], p');
      RankIsPlaceInLadder(kinds[b], q');
    }
  }

  /** The winner connects, and every other method that would connect comes later in the ladder. */
  ghost predicate EarliestOfLadder(l: Ladder, winner: nat, connection: Connection) {
    && winner < |l.kinds|
    && Try(l, winner) == Ok(connection)
    && forall k: nat :: k < |l.kinds| && k != winner && Try(l, k).Ok? ==> Earlier(l.kinds, winner, k)
  }

  /** Methods are tried in the order of the ladder. */
  ghost predicate TriedInOrder(l: Ladder, tried: seq<nat>) {
    && (forall i :: 0 <= i < |tried| ==> tried[i] < |l.kinds|)
    && forall i, j :: 0 <= i < j < |tried| ==> Earlier(l.kinds, tried[i], tried[j])
  }

  /** A relayed method is tried only after every method of another tier has been tried and failed. */
  ghost predicate RelayedIsLastResort(l: Ladder, tried: seq<nat>) {
    forall r, k: nat ::
      r in tried && r < |l.kinds| && l.kinds[r] == Relayed && k < |l.kinds| && l.kinds[k] != Relayed ==>
      k in tried && Try(l, k).Err?
  }

  lemma WonIsEarliest(l: Ladder, tried: seq<nat>, winner: nat, connection: Connection)
    requires Won(l, tried, winner, connection)
    ensures EarliestOfLadder(l, winner, connection)
  {
    forall k: nat | k < |l.kinds| && k != winner && Try(l, k).Ok?
      ensures Earlier(l.kinds, winner, k)
    {
      assert Succeeds(l, k);
      BeforeMeansEarlier(l.kinds, winner, k);
    }
  }

  lemma OrderMeansEarlier(l: Ladder, tried: seq<nat>)
    requires Indices(l.kinds, tried) && InOrder(l.kinds, tried)
    ensures TriedInOrder(l, tried)
  {
    forall i, j | 0 <= i < j < |tried|
      ensures Earlier(l.kinds, tried[i], tried[j])
    {
      BeforeMeansEarlier(l.kinds, tried[i], tried[j]);
    }
  }

  lemma RelayedComesLast(l: Ladder, tried: seq<nat>, winner: nat, connection: Connection)
    requires Won(l, tried, winner, connection)
    ensures RelayedIsLastResort(l, tried)
  {
    forall r, k: nat | r in tried && r < |l.kinds| && l.kinds[r] == Relayed && k < |l.kinds| && l.kinds[k] != Relayed
      ensures k in tried && Try(l, k).Err?
    {
      assert r == winner || Before(l.kinds, r, winner);
      assert Before(l.kinds, k, winner);
      assert !Succeeds(l, k);
    }
  }

  /** All that holds when position `at` of the stable order is the first to connect. */
  lemma FirstToConnect(l: Ladder, ordered: seq<nat>, at: nat, failures: seq<MethodError>, connection: Connection)
    requires Indices(l.kinds, ordered) && InOrder(l.kinds, ordered) && at < |ordered| && AllTried(l, ordered)
    requires FailuresOf(l, ordered[..at], failures)
    requires ordered[at] < |l.kinds| && Try(l, ordered[at]) == Ok(connection)
    ensures var tried := ordered[..at + 1];
      && Won(l, tried, ordered[at], connection)
      && EarliestOfLadder(l, ordered[at], connection)
      && TriedInOrder(l, tried)
      && RelayedIsLastResort(l, tried)
  {
    var tried := ordered[..at + 1];
    WinnerIsFirst(l, ordered, at, failures);
    WonIsEarliest(l, tried, ordered[at], connection);
    OrderMeansEarlier(l, tried);
    RelayedComesLast(l, tried, ordered[at], connection);
  }

  /** All that holds when none did. */
  lemma NoneToConnect(l: Ladder, tried: seq<nat>, failures: seq<MethodError>)
    requires Indices(l.kinds, tried) && InOrder(l.kinds, tried) && AllTried(l, tried)
    requires FailuresOf(l, tried, failures)
    ensures NoneSucceeds(l) && TriedInOrder(l, tried) && RelayedIsLastResort(l, tried)
  {
    AllFailed(l, tried, failures);
    OrderMeansEarlier(l, tried);
    forall k: nat | k < |l.kinds|
      ensures k in tried && Try(l, k).Err?
    {
      assert !Succeeds(l, k);
    }
  }

  // ---------------------------------------------------------------- the strategy

  /** The winner is the first success in stable rank order; exactly the methods up to it have
    * been tried, in that order; and when every method fails there is one reason per method,
    * in that order.
    */
  method ConnectWithStrategy(l: Ladder) returns (r: Result<Connection, NatError>, tried: seq<nat>)
    ensures r == Err(NoMethodsEnabled) <==> l.kinds == []
    ensures Indices(l.kinds, tried) && InOrder(l.kinds, tried)
    ensures TriedInOrder(l, tried) && RelayedIsLastResort(l, tried)
    ensures r.Ok? ==> tried != [] && EarliestOfLadder(l, tried[|tried| - 1], r.value)
    ensures r.Ok? ==> tried != [] && Won(l, tried, tried[|tried| - 1], r.value)
    ensures r.Err? ==> AllTried(l, tried) && NoneSucceeds(l)
    ensures r.Err? && l.kinds != [] ==> FailuresOf(l, tried, r.error.failures)
  {
    if l.kinds == [] {
      return Err(NoMethodsEnabled), [];
    }
    var ordered := SortByRank(l.kinds, |l.kinds|);
    SortIsStable(l.kinds, |l.kinds|);
    var failures := [];
    tried := [];
    for i := 0 to |ordered|
      invariant tried == ordered[..i]
      invariant FailuresOf(l, tried, failures)
    {
      var k := ordered[i];
      OneMoreTried(ordered, i);
      tried := tried + [k];
      var outcome := RunBounded(l.kinds[k], l.attempt(k));
      if outcome.Err? {
        FailureRecorded(l, ordered[..i], failures, k, outcome.error);
        failures := failures + [outcome.error];
        continue;
      }
      var dialed := RunBounded(l.kinds[k], l.dial(k, outcome.value));
      if dialed.Ok? {
        FirstToConnect(l, ordered, i, failures, dialed.value);
        return Ok(dialed.value), tried;
      }
      FailureRecorded(l, ordered[..i], failures, k, dialed.error);
      failures := failures + [dialed.error];
    }
    assert tried == ordered;
    NoneToConnect(l, tried, failures);
    return Err(AllMethodsFailed(failures)), tried;
  }
}
