/** When the two ends of a pair can both become servers.
  *
  * The lower id may do anything and the critical sections of a frame may be split. What matters
  * is when the higher id gives up a circuit it has dialled.
  */
module GlareSafety {
  import opened Common
  import opened Circuit
  import opened CircuitRuns
  import opened GlareModel

  predicate PendingLo(s: Pair) {
    s.toLo != [] || s.heldLo != []
  }

  predicate PendingHi(s: Pair) {
    s.toHi != [] || s.heldHi != []
  }

  predicate BothServe(lo: PeerId, hi: PeerId, s: Pair) {
    RoleOf(s.lo, hi) == Some(Server) && RoleOf(s.hi, lo) == Some(Server)
  }

  /** Two well-kept nodes, and nothing but ClientHellos between them. */
  ghost predicate Kept(lo: PeerId, hi: PeerId, s: Pair) {
    Inv(lo, s.lo) && Inv(hi, s.hi) && HellosOnly(s)
  }

  /** A hello of the higher id is pending only while it holds its dial; and while the lower serves,
    * the higher holds its dial, or holds nothing and has nothing pending.
    */
  predicate Safe(lo: PeerId, hi: PeerId, s: Pair) {
    && (PendingLo(s) ==> RoleOf(s.hi, lo) == Some(Client))
    && (RoleOf(s.lo, hi) == Some(Server) ==>
        RoleOf(s.hi, lo) == Some(Client) || (RoleOf(s.hi, lo) == None && !PendingHi(s)))
  }

  /** No ClientHello is pending that the lower id could still accept or, while it serves, the higher. */
  predicate Settled(lo: PeerId, hi: PeerId, s: Pair) {
    !PendingLo(s) && (RoleOf(s.lo, hi) == Some(Server) ==> !PendingHi(s))
  }

  /** The step is the higher id's giving up a circuit it has dialled. */
  predicate Abandons(lo: PeerId, s: Pair, step: Step) {
    step.HiActs? && AbandonsDial(s.hi, lo, step.ev)
  }

  ghost predicate AbandonsOnlyWhenSettled(lo: PeerId, hi: PeerId, states: seq<Pair>, steps: seq<Step>)
    requires |states| == |steps| + 1
  {
    forall j :: 0 <= j < |steps| && Abandons(lo, states[j], steps[j]) ==> Settled(lo, hi, states[j])
  }

  // ---------------------------------------------------------------- safe states stay safe

  lemma StepStaysKept(lo: PeerId, hi: PeerId, s: Pair, step: Step)
    requires Peers(lo, hi) && Kept(lo, hi, s) && Allowed(lo, hi, s, step)
    ensures Kept(lo, hi, Next(lo, hi, s, step))
  {
    hide Next, Allowed, Inv, HellosOnly;
    HellosStayHellos(lo, hi, s, step);
    if IsLoStep(step) {
      LoStepKeepsNodes(lo, hi, s, step);
    } else {
      HiStepKeepsNodes(lo, hi, s, step);
    }
  }

  lemma {:induction false} RunsStayKept(lo: PeerId, hi: PeerId, states: seq<Pair>, steps: seq<Step>, i: nat)
    requires Peers(lo, hi) && Executes(lo, hi, states, steps) && Kept(lo, hi, states[0]) && i < |states|
    ensures Kept(lo, hi, states[i])
  {
    hide Next, Allowed, Kept;
    if i == 0 {
    } else {
      RunsStayKept(lo, hi, states, steps, i - 1);
      StepStaysKept(lo, hi, states[i - 1], steps[i - 1]);
    }
  }

  lemma LoStepStaysSafe(lo: PeerId, hi: PeerId, s: Pair, step: Step)
    requires Peers(lo, hi) && Kept(lo, hi, s) && Safe(lo, hi, s) && Allowed(lo, hi, s, step) && IsLoStep(step)
    ensures Safe(lo, hi, Next(lo, hi, s, step))
  {
    if step.LoActs? {
      ActingSetsRole(lo, s.lo, hi, step.ev);
    }
  }

  /** Giving up a dial ends it, so it is safe if and only if nothing was pending. */
  lemma AbandonmentIsSafeExactlyWhenSettled(lo: PeerId, hi: PeerId, s: Pair, step: Step)
    requires Peers(lo, hi) && Kept(lo, hi, s) && Safe(lo, hi, s) && Allowed(lo, hi, s, step) && Abandons(lo, s, step)
    ensures Safe(lo, hi, Next(lo, hi, s, step)) <==> Settled(lo, hi, s)
    ensures lo !in Next(lo, hi, s, step).hi.tunnels
  {
  }

  lemma HiStepStaysSafe(lo: PeerId, hi: PeerId, s: Pair, step: Step)
    requires Peers(lo, hi) && Kept(lo, hi, s) && Safe(lo, hi, s) && Allowed(lo, hi, s, step) && !IsLoStep(step)
    requires !Abandons(lo, s, step)
    ensures Safe(lo, hi, Next(lo, hi, s, step))
  {
    if RoleOf(s.hi, lo) == Some(Client) {
      HiKeepsItsDial(lo, hi, s, step);
    } else if step.HiActs? {
      ActingSetsRole(hi, s.hi, lo, step.ev);
    }
  }

  lemma {:induction false} RunsStaySafe(lo: PeerId, hi: PeerId, states: seq<Pair>, steps: seq<Step>, i: nat)
    requires Peers(lo, hi) && Executes(lo, hi, states, steps) && i < |states|
    requires Kept(lo, hi, states[0]) && Safe(lo, hi, states[0]) && AbandonsOnlyWhenSettled(lo, hi, states, steps)
    ensures Safe(lo, hi, states[i])
  {
    hide Next, Allowed, Kept, Safe;
    if i == 0 {
    } else {
      RunsStaySafe(lo, hi, states, steps, i - 1);
      RunsStayKept(lo, hi, states, steps, i - 1);
      var s, step := states[i - 1], steps[i - 1];
      if IsLoStep(step) {
        LoStepStaysSafe(lo, hi, s, step);
      } else if Abandons(lo, s, step) {
        AbandonmentIsSafeExactlyWhenSettled(lo, hi, s, step);
      } else {
        HiStepStaysSafe(lo, hi, s, step);
      }
    }
  }

  /** The two ends are never both servers, whatever the lower id does and whether or not the
    * critical sections of a frame are split, so long as the higher id gives up a circuit it has
    * dialled only when no ClientHello is pending that matters.
    */
  lemma NeverTwoServers(lo: PeerId, hi: PeerId, states: seq<Pair>, steps: seq<Step>, i: nat)
    requires Peers(lo, hi) && IsPairRun(lo, hi, states, steps) && i < |states|
    requires AbandonsOnlyWhenSettled(lo, hi, states, steps)
    ensures !BothServe(lo, hi, states[i])
  {
    RunsStaySafe(lo, hi, states, steps, i);
  }

  // ---------------------------------------------------------------- unsafe states lead to two servers

  /** A way on from `s` in which the higher id abandons nothing. */
  ghost predicate Leads(lo: PeerId, hi: PeerId, s: Pair, states: seq<Pair>, steps: seq<Step>) {
    && Executes(lo, hi, states, steps)
    && states[0] == s
    && forall j :: 0 <= j < |steps| ==> !Abandons(lo, states[j], steps[j])
  }

  predicate ResetsNothing(steps: seq<Step>) {
    forall st :: st in steps ==>
      !((st.LoActs? || st.HiActs?) && (st.ev.BeginSession? || st.ev.EndSession?))
  }

  lemma LeadsOn(lo: PeerId, hi: PeerId, s: Pair, states: seq<Pair>, steps: seq<Step>,
                more: seq<Pair>, moreSteps: seq<Step>) returns (all: seq<Pair>, allSteps: seq<Step>)
    requires Leads(lo, hi, s, states, steps) && Leads(lo, hi, states[|steps|], more, moreSteps)
    ensures Leads(lo, hi, s, all, allSteps) && all[|allSteps|] == more[|moreSteps|]
    ensures ResetsNothing(steps) && ResetsNothing(moreSteps) ==> ResetsNothing(allSteps)
  {
    hide Next, Allowed;
    ExecutesOn(lo, hi, states, steps, more, moreSteps);
    all, allSteps := states + more[1..], steps + moreSteps;
    forall j | 0 <= j < |allSteps|
      ensures !Abandons(lo, all[j], allSteps[j])
    {
      if j >= |steps| {
        assert all[j] == more[j - |steps|] && allSteps[j] == moreSteps[j - |steps|];
      }
    }
  }

  /** The node can dial, and take up a ClientHello. */
  predicate Up(n: Node) {
    TransportReady(n) && AcceptHasRoom(n) && |n.tunnels| < MAX_RELAY_TUNNELS
  }

  /** The lower id is up, and any circuit it holds with the higher has been taken by its owner. */
  predicate UpAndFree(n: Node, peer: PeerId) {
    Up(n) && (peer in n.tunnels ==> n.tunnels[peer].id !in QueuedIds(n))
  }

  lemma DroppingFrees(own: PeerId, n: Node, p: PeerId)
    requires Inv(own, n) && UpAndFree(n, p) && p in n.tunnels
    ensures Genuine(n, p, Drop(n.tunnels[p].id))
    ensures var n' := DropHandle(n, n.tunnels[p].id);
      Up(n') && p !in n'.tunnels && Apply(own, n, Drop(n.tunnels[p].id)) == n'
  {
    assert n.tunnels - {p} == DropHandle(n, n.tunnels[p].id).tunnels;
    assert (n.tunnels - {p}).Keys + {p} == n.tunnels.Keys;
  }

  /** The lower id comes to be up without a circuit to the higher, resetting only if it must. */
  lemma LoGetsReady(lo: PeerId, hi: PeerId, s: Pair) returns (states: seq<Pair>, steps: seq<Step>)
    requires Peers(lo, hi) && Inv(lo, s.lo)
    ensures Leads(lo, hi, s, states, steps)
    ensures var e := states[|steps|];
      e == s.(lo := e.lo) && Up(e.lo) && hi !in e.lo.tunnels
    ensures UpAndFree(s.lo, hi) ==> ResetsNothing(steps)
  {
    hide Apply;
    if !UpAndFree(s.lo, hi) {
      states, steps := LoRenews(lo, hi, s);
    } else if hi in s.lo.tunnels {
      DroppingFrees(lo, s.lo, hi);
      var ev := Drop(s.lo.tunnels[hi].id);
      states, steps := [s, s.(lo := DropHandle(s.lo, ev.id))], [LoActs(ev, A_HELLO)];
      assert s.toHi + [] == s.toHi && s.loSent + [] == s.loSent;
    } else {
      states, steps := [s], [];
    }
  }

  lemma HiGetsReady(lo: PeerId, hi: PeerId, s: Pair) returns (states: seq<Pair>, steps: seq<Step>)
    requires Peers(lo, hi) && Inv(hi, s.hi) && lo !in s.hi.tunnels
    ensures Leads(lo, hi, s, states, steps)
    ensures var e := states[|steps|];
      e == s.(hi := e.hi) && Up(e.hi) && lo !in e.hi.tunnels
    ensures Up(s.hi) ==> ResetsNothing(steps)
  {
    if !Up(s.hi) {
      states, steps := HiRenews(lo, hi, s);
    } else {
      states, steps := [s], [];
    }
  }

  /** The lower id after dialling and dropping the dial again: only an id has been spent. */
  function Knocked(s: Pair): Pair {
    s.(lo := s.lo.(nextId := s.lo.nextId + 1), toHi := s.toHi + [A_HELLO], loSent := s.loSent + [A_HELLO])
  }

  lemma KnockingSpendsAnId(own: PeerId, n: Node, p: PeerId)
    requires own != p && Inv(own, n) && Up(n) && p !in n.tunnels
    ensures var dialed := InsertEntry(n, p, Client);
      && Genuine(dialed, p, Drop(n.nextId))
      && Apply(own, dialed, Drop(n.nextId)) == n.(nextId := n.nextId + 1)
  {
    var dialed := InsertEntry(n, p, Client);
    assert QueuedIds(dialed) == QueuedIds(n);
    assert DropHandle(dialed, n.nextId).tunnels == n.tunnels;
    assert DropHandle(dialed, n.nextId).handles == n.handles;
  }

  /** The lower id dials and drops the dial: its ClientHello stays on the way. */
  lemma LoKnocks(lo: PeerId, hi: PeerId, s: Pair) returns (states: seq<Pair>, steps: seq<Step>)
    requires Peers(lo, hi) && Inv(lo, s.lo) && Up(s.lo) && hi !in s.lo.tunnels
    ensures Leads(lo, hi, s, states, steps) && states[|steps|] == Knocked(s) && ResetsNothing(steps)
  {
    LessIsTotal(lo, hi);
    DialFromRest(lo, s.lo, hi);
    KnockingSpendsAnId(lo, s.lo, hi);
    var mid := Knocked(s).(lo := InsertEntry(s.lo, hi, Client));
    states, steps := [s, mid, Knocked(s)], [LoActs(Dial(hi), A_HELLO), LoActs(Drop(s.lo.nextId), A_HELLO)];
    hide Apply;
    assert mid == Next(lo, hi, s, steps[0]);
    assert mid.toHi + [] == mid.toHi && mid.loSent + [] == mid.loSent;
    assert Knocked(s) == Next(lo, hi, mid, steps[1]);
  }

  lemma UpHasRoom(n: Node, p: PeerId)
    requires Up(n) && p !in n.tunnels
    ensures Room(n, p)
  {
    assert Forget(n, p).tunnels == n.tunnels;
  }

  /** The lower id takes up a pending hello of the higher. */
  lemma LoServes(lo: PeerId, hi: PeerId, s: Pair) returns (states: seq<Pair>, steps: seq<Step>)
    requires Peers(lo, hi) && Kept(lo, hi, s) && Up(s.lo) && hi !in s.lo.tunnels && PendingLo(s)
    ensures Leads(lo, hi, s, states, steps) && ResetsNothing(steps)
    ensures var e := states[|steps|];
      && RoleOf(e.lo, hi) == Some(Server)
      && e == s.(lo := e.lo, toLo := e.toLo, heldLo := e.heldLo)
  {
    LessIsTotal(lo, hi);
    UpHasRoom(s.lo, hi);
    var step := if s.toLo != [] then LoHears(0) else LoRegisters(0);
    if s.toLo != [] {
      assert s.toLo[0] in s.toLo;
      HelloSetsRole(lo, s.lo, hi, s.toLo[0]);
    } else {
      assert s.heldLo[0] in s.heldLo;
      HelloIsAccepted(s.lo, hi, s.heldLo[0]);
    }
    states, steps := [s, Next(lo, hi, s, step)], [step];
  }

  lemma HiServes(lo: PeerId, hi: PeerId, s: Pair) returns (states: seq<Pair>, steps: seq<Step>)
    requires Peers(lo, hi) && Kept(lo, hi, s) && Up(s.hi) && lo !in s.hi.tunnels && PendingHi(s)
    ensures Leads(lo, hi, s, states, steps) && ResetsNothing(steps)
    ensures RoleOf(states[|steps|].hi, lo) == Some(Server) && states[|steps|].lo == s.lo
  {
    LessIsTotal(lo, hi);
    UpHasRoom(s.hi, lo);
    var step := if s.toHi != [] then HiHears(0) else HiRegisters(0);
    if s.toHi != [] {
      assert s.toHi[0] in s.toHi;
      HelloSetsRole(hi, s.hi, lo, s.toHi[0]);
    } else {
      assert s.heldHi[0] in s.heldHi;
      HelloIsAccepted(s.hi, lo, s.heldHi[0]);
    }
    states, steps := [s, Next(lo, hi, s, step)], [step];
  }

  /** Both ends can act without a session reset. */
  predicate BothUp(lo: PeerId, hi: PeerId, s: Pair) {
    UpAndFree(s.lo, hi) && Up(s.hi)
  }

  lemma HiJoins(lo: PeerId, hi: PeerId, s: Pair) returns (states: seq<Pair>, steps: seq<Step>)
    requires Peers(lo, hi) && Kept(lo, hi, s) && lo !in s.hi.tunnels && PendingHi(s)
    ensures Leads(lo, hi, s, states, steps)
    ensures RoleOf(states[|steps|].hi, lo) == Some(Server) && states[|steps|].lo == s.lo
    ensures Up(s.hi) ==> ResetsNothing(steps)
  {
    hide Next, Allowed;
    var first, firstSteps := HiGetsReady(lo, hi, s);
    assert Kept(lo, hi, first[|firstSteps|]) by {
      LeadsStaysKept(lo, hi, s, first, firstSteps);
    }
    var second, secondSteps := HiServes(lo, hi, first[|firstSteps|]);
    states, steps := LeadsOn(lo, hi, s, first, firstSteps, second, secondSteps);
  }

  lemma LeadsStaysKept(lo: PeerId, hi: PeerId, s: Pair, states: seq<Pair>, steps: seq<Step>)
    requires Peers(lo, hi) && Kept(lo, hi, s) && Leads(lo, hi, s, states, steps)
    ensures Kept(lo, hi, states[|steps|])
  {
    RunsStayKept(lo, hi, states, steps, |steps|);
  }

  lemma LoJoins(lo: PeerId, hi: PeerId, s: Pair) returns (states: seq<Pair>, steps: seq<Step>)
    requires Peers(lo, hi) && Kept(lo, hi, s) && PendingLo(s)
    ensures Leads(lo, hi, s, states, steps)
    ensures RoleOf(states[|steps|].lo, hi) == Some(Server) && states[|steps|].hi == s.hi
    ensures PendingHi(states[|steps|])
    ensures UpAndFree(s.lo, hi) ==> ResetsNothing(steps)
  {
    hide Next, Allowed;
    var first, firstSteps := LoGetsReady(lo, hi, s);
    var ready := first[|firstSteps|];
    LeadsStaysKept(lo, hi, s, first, firstSteps);
    var second, secondSteps := LoKnocks(lo, hi, ready);
    states, steps := LeadsOn(lo, hi, s, first, firstSteps, second, secondSteps);
    LeadsStaysKept(lo, hi, s, states, steps);
    var third, thirdSteps := LoServes(lo, hi, Knocked(ready));
    states, steps := LeadsOn(lo, hi, s, states, steps, third, thirdSteps);
  }

  /** From every unsafe state some run, in which the higher id abandons nothing more, leads to two
    * servers; it resets no session if both ends are up.
    */
  lemma UnsafeLeadsToTwoServers(lo: PeerId, hi: PeerId, s: Pair) returns (states: seq<Pair>, steps: seq<Step>)
    requires Peers(lo, hi) && Kept(lo, hi, s) && !Safe(lo, hi, s)
    ensures Leads(lo, hi, s, states, steps) && BothServe(lo, hi, states[|steps|])
    ensures BothUp(lo, hi, s) ==> ResetsNothing(steps)
  {
    hide Next, Allowed;
    if !PendingLo(s) {
      if RoleOf(s.hi, lo) == Some(Server) {
        states, steps := StaysPut(lo, hi, s);
      } else {
        states, steps := HiJoins(lo, hi, s);
      }
    } else {
      states, steps := LoJoins(lo, hi, s);
      if RoleOf(s.hi, lo) == None {
        LeadsStaysKept(lo, hi, s, states, steps);
        var more, moreSteps := HiJoins(lo, hi, states[|steps|]);
        states, steps := LeadsOn(lo, hi, s, states, steps, more, moreSteps);
      }
    }
  }

  lemma StaysPut(lo: PeerId, hi: PeerId, s: Pair) returns (states: seq<Pair>, steps: seq<Step>)
    ensures Leads(lo, hi, s, states, steps) && states[|steps|] == s && ResetsNothing(steps)
  {
    states, steps := [s], [];
  }

  /** Exactly the safe states rule out two servers for good. */
  lemma SafeExactlyWhenNeverTwoServers(lo: PeerId, hi: PeerId, s: Pair)
    requires Peers(lo, hi) && Kept(lo, hi, s)
    ensures Safe(lo, hi, s)
      <==> forall states, steps :: Leads(lo, hi, s, states, steps) ==> !BothServe(lo, hi, states[|steps|])
  {
    if Safe(lo, hi, s) {
      forall states, steps | Leads(lo, hi, s, states, steps)
        ensures !BothServe(lo, hi, states[|steps|])
      {
        RunsStaySafe(lo, hi, states, steps, |steps|);
      }
    } else {
      var states, steps := UnsafeLeadsToTwoServers(lo, hi, s);
      assert Leads(lo, hi, s, states, steps);
    }
  }

  /** The condition of `NeverTwoServers` is needed: after any run, giving up a dial when a ClientHello
    * that matters is pending leads to two servers, although nothing more is given up.
    */
  lemma UnsettledAbandonmentLeadsToTwoServers(
      lo: PeerId, hi: PeerId, states: seq<Pair>, steps: seq<Step>, step: Step)
      returns (more: seq<Pair>, moreSteps: seq<Step>)
    requires Peers(lo, hi) && IsPairRun(lo, hi, states, steps) && AbandonsOnlyWhenSettled(lo, hi, states, steps)
    requires Allowed(lo, hi, states[|steps|], step) && Abandons(lo, states[|steps|], step)
    requires !Settled(lo, hi, states[|steps|])
    ensures Leads(lo, hi, Next(lo, hi, states[|steps|], step), more, moreSteps)
    ensures BothServe(lo, hi, more[|moreSteps|])
    ensures BothUp(lo, hi, Next(lo, hi, states[|steps|], step)) ==> ResetsNothing(moreSteps)
  {
    hide Next, Allowed;
    var s := states[|steps|];
    RunsStayKept(lo, hi, states, steps, |steps|);
    RunsStaySafe(lo, hi, states, steps, |steps|);
    AbandonmentIsSafeExactlyWhenSettled(lo, hi, s, step);
    StepStaysKept(lo, hi, s, step);
    more, moreSteps := UnsafeLeadsToTwoServers(lo, hi, Next(lo, hi, s, step));
  }

  // ---------------------------------------------------------------- a run to two servers

  /** The higher id then drops the handle of its dial. */
  function Abandoned(lo: PeerId, hi: PeerId, s: Pair, h: Bytes): Pair
    requires s.hi.nextId !in s.hi.handles
  {
    BothDialing(lo, hi, s, h).(hi := DropHandle(InsertEntry(s.hi, lo, Client), s.hi.nextId))
  }

  lemma HiAbandons(lo: PeerId, hi: PeerId, s: Pair, h: Bytes)
    requires Peers(lo, hi) && AtRest(lo, hi, s) && IsHello(h)
    ensures var states, steps := [BothDialing(lo, hi, s, h), Abandoned(lo, hi, s, h)], [HiActs(Drop(s.hi.nextId), h)];
      Executes(lo, hi, states, steps)
    ensures Inv(hi, Abandoned(lo, hi, s, h).hi) && Abandoned(lo, hi, s, h).hi.tunnels == map[]
  {
    LessIsTotal(lo, hi);
    InsertKeepsInv(hi, s.hi, lo);
    assert QueuedIds(InsertEntry(s.hi, lo, Client)) == QueuedIds(s.hi);
    DropKeepsInv(hi, InsertEntry(s.hi, lo, Client), s.hi.nextId);
  }

  lemma LoHearsAlone(lo: PeerId, hi: PeerId, s: Pair, h: Bytes) returns (s': Pair)
    requires Peers(lo, hi) && IsHello(h) && Inv(lo, s.lo) && s.lo.outbound && Room(s.lo, hi) && s.toLo == [h]
    ensures Executes(lo, hi, [s, s'], [LoHears(0)])
    ensures s' == s.(lo := s'.lo, toLo := []) && RoleOf(s'.lo, hi) == Some(Server)
  {
    LessIsTotal(lo, hi);
    HelloSetsRole(lo, s.lo, hi, h);
    assert Remove(s.toLo, 0) == [];
    s' := Next(lo, hi, s, LoHears(0));
  }

  lemma HiHearsAlone(lo: PeerId, hi: PeerId, s: Pair, h: Bytes) returns (s': Pair)
    requires Peers(lo, hi) && IsHello(h) && Inv(hi, s.hi) && s.hi.outbound && Room(s.hi, lo) && s.toHi == [h]
    requires lo !in s.hi.tunnels
    ensures Executes(lo, hi, [s, s'], [HiHears(0)])
    ensures s' == s.(hi := s'.hi, toHi := []) && RoleOf(s'.hi, lo) == Some(Server)
  {
    LessIsTotal(lo, hi);
    HelloSetsRole(hi, s.hi, lo, h);
    assert Remove(s.toHi, 0) == [];
    s' := Next(lo, hi, s, HiHears(0));
  }

  /** Both can serve, and the higher holds no circuit, while both hellos are on the way. */
  ghost predicate BothMayServe(lo: PeerId, hi: PeerId, s: Pair, h: Bytes) {
    && Inv(lo, s.lo) && s.lo.outbound && Room(s.lo, hi)
    && Inv(hi, s.hi) && s.hi.outbound && Room(s.hi, lo) && lo !in s.hi.tunnels
    && s.toLo == [h] && s.toHi == [h] && s.heldLo == s.heldHi == []
  }

  lemma AbandonedMayServe(lo: PeerId, hi: PeerId, s: Pair, h: Bytes)
    requires Peers(lo, hi) && AtRest(lo, hi, s) && IsHello(h)
    ensures BothMayServe(lo, hi, Abandoned(lo, hi, s, h), h)
  {
    LessIsTotal(lo, hi);
    InsertKeepsInv(lo, s.lo, hi);
    HiAbandons(lo, hi, s, h);
    assert Forget(Abandoned(lo, hi, s, h).lo, hi).tunnels == map[];
  }

  lemma BothHear(lo: PeerId, hi: PeerId, s: Pair, h: Bytes) returns (states: seq<Pair>, steps: seq<Step>)
    requires Peers(lo, hi) && BothMayServe(lo, hi, s, h) && IsHello(h)
    ensures Executes(lo, hi, states, steps) && states[0] == s
    ensures var end := states[|steps|];
      NothingPending(end) && RoleOf(end.lo, hi) == Some(Server) && RoleOf(end.hi, lo) == Some(Server)
  {
    hide Next, Allowed;
    var mid := LoHearsAlone(lo, hi, s, h);
    var end := HiHearsAlone(lo, hi, mid, h);
    ExecutesOn(lo, hi, [s, mid], [LoHears(0)], [mid, end], [HiHears(0)]);
    states, steps := [s, mid] + [mid, end][1..], [LoHears(0)] + [HiHears(0)];
    assert states[|steps|] == end;
  }

  /** A short such run from any pair at rest: both dial, the higher id drops its dial while both
    * hellos are in flight, and both hellos arrive.
    */
  lemma DroppedDialCanLeaveTwoServers(lo: PeerId, hi: PeerId, s: Pair, h: Bytes)
      returns (states: seq<Pair>, steps: seq<Step>)
    requires Peers(lo, hi) && AtRest(lo, hi, s) && IsHello(h)
    ensures IsPairRun(lo, hi, states, steps) && states[0] == s && NothingPending(states[|steps|])
    ensures RoleOf(states[|steps|].lo, hi) == Some(Server) && RoleOf(states[|steps|].hi, lo) == Some(Server)
    ensures !AbandonsOnlyWhenSettled(lo, hi, states, steps)
  {
    hide Next, Allowed;
    var s1 := BothDial(lo, hi, s, h);
    var s2, s3 := BothDialing(lo, hi, s, h), Abandoned(lo, hi, s, h);
    var drop := HiActs(Drop(s.hi.nextId), h);
    HiAbandons(lo, hi, s, h);
    AbandonedMayServe(lo, hi, s, h);
    var more, moreSteps := BothHear(lo, hi, s3, h);
    ExecutesOn(lo, hi, [s, s1, s2], [LoActs(Dial(hi), h), HiActs(Dial(lo), h)], [s2, s3], [drop]);
    states, steps := [s, s1, s2] + [s2, s3][1..], [LoActs(Dial(hi), h), HiActs(Dial(lo), h)] + [drop];
    assert states[|steps|] == s3;
    ExecutesOn(lo, hi, states, steps, more, moreSteps);
    states, steps := states + more[1..], steps + moreSteps;
    assert states[|steps|] == more[|moreSteps|];
    if AbandonsOnlyWhenSettled(lo, hi, states, steps) {
      NeverTwoServers(lo, hi, states, steps, |steps|);
    }
  }
}
