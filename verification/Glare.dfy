/** Two nodes that may dial each other over the relay at the same time.
  *
  * A run interleaves, in any order, everything each node may do on its own with deliveries
  * of the ClientHellos in flight between the two. The node with the lower peer id is `lo`. A
  * run may start from any two nodes, whatever they have been through, that hold no circuit to
  * each other. Frames stamped with the partner's id carry a ClientHello only if the partner
  * sent it.
  */
module GlareModel {
  import opened Common
  import opened Circuit
  import opened CircuitRuns

  datatype Pair = Pair(
    lo: Node, hi: Node,
    toHi: seq<Bytes>, toLo: seq<Bytes>,
    heldLo: seq<Bytes>, heldHi: seq<Bytes>,
    loSent: seq<Bytes>, hiSent: seq<Bytes>)

  /** `Hears` routes one frame in one step; `Decides` and `Registers` are its two critical
    * sections taken separately, with other steps in between.
    */
  datatype Step =
    | LoActs(ev: Event, hello: Bytes)
    | HiActs(ev: Event, hello: Bytes)
    | LoHears(k: nat)
    | HiHears(k: nat)
    | LoDecides(k: nat)
    | HiDecides(k: nat)
    | LoRegisters(k: nat)
    | HiRegisters(k: nat)

  /** The first payload in the inbox of the circuit held with `peer`. */
  function FirstPayload(n: Node, peer: PeerId): Option<Bytes> {
    if peer in n.tunnels && n.tunnels[peer].id in n.handles && n.handles[n.tunnels[peer].id].arrived != [] then
      Some(n.handles[n.tunnels[peer].id].arrived[0])
    else None
  }

  function RoleOf(n: Node, peer: PeerId): Option<Role> {
    if peer in n.tunnels then Some(n.tunnels[peer].role) else None
  }

  predicate IsHello(h: Bytes) {
    IsTlsClientHello(h) && |h| <= MAX_RELAY_PAYLOAD
  }

  /** A step of the node alone: it forges no ClientHello in the partner's name. */
  predicate Genuine(n: Node, partner: PeerId, ev: Event) {
    Enabled(n, ev) && (ev.Frame? && ev.from == partner ==> !IsTlsClientHello(ev.payload))
  }

  predicate Dials(n: Node, partner: PeerId, ev: Event) {
    ev == Dial(partner) && DialRefusal(n, partner).None?
  }

  predicate Accepts(n: Node, from: PeerId, payload: Bytes) {
    Admissible(n, from, payload) && (from in n.tunnels ==> Yields(n, from, payload))
  }

  function Remove<T>(s: seq<T>, k: nat): seq<T>
    requires k < |s|
  {
    s[..k] + s[k + 1..]
  }

  predicate Allowed(lo: PeerId, hi: PeerId, s: Pair, step: Step) {
    match step
    case LoActs(ev, hello) => Genuine(s.lo, hi, ev) && IsHello(hello)
    case HiActs(ev, hello) => Genuine(s.hi, lo, ev) && IsHello(hello)
    case LoHears(k) => k < |s.toLo| && s.lo.outbound
    case HiHears(k) => k < |s.toHi| && s.hi.outbound
    case LoDecides(k) => k < |s.toLo| && s.lo.outbound
    case HiDecides(k) => k < |s.toHi| && s.hi.outbound
    case LoRegisters(k) => k < |s.heldLo|
    case HiRegisters(k) => k < |s.heldHi|
  }

  function Next(lo: PeerId, hi: PeerId, s: Pair, step: Step): Pair
    requires Allowed(lo, hi, s, step)
  {
    match step
    case LoActs(ev, hello) =>
      var sent := if Dials(s.lo, hi, ev) then [hello] else [];
      s.(lo := Apply(lo, s.lo, ev), toHi := s.toHi + sent, loSent := s.loSent + sent)
    case HiActs(ev, hello) =>
      var sent := if Dials(s.hi, lo, ev) then [hello] else [];
      s.(hi := Apply(hi, s.hi, ev), toLo := s.toLo + sent, hiSent := s.hiSent + sent)
    case LoHears(k) => s.(lo := RouteRelayed(s.lo, hi, s.toLo[k]), toLo := Remove(s.toLo, k))
    case HiHears(k) => s.(hi := RouteRelayed(s.hi, lo, s.toHi[k]), toHi := Remove(s.toHi, k))
    case LoDecides(k) =>
      if Accepts(s.lo, hi, s.toLo[k]) then
        s.(lo := Forget(s.lo, hi), toLo := Remove(s.toLo, k), heldLo := s.heldLo + [s.toLo[k]])
      else s.(lo := RouteRelayed(s.lo, hi, s.toLo[k]), toLo := Remove(s.toLo, k))
    case HiDecides(k) =>
      if Accepts(s.hi, lo, s.toHi[k]) then
        s.(hi := Forget(s.hi, lo), toHi := Remove(s.toHi, k), heldHi := s.heldHi + [s.toHi[k]])
      else s.(hi := RouteRelayed(s.hi, lo, s.toHi[k]), toHi := Remove(s.toHi, k))
    case LoRegisters(k) =>
      s.(lo := AcceptIntroduced(s.lo, hi, s.heldLo[k]), heldLo := Remove(s.heldLo, k))
    case HiRegisters(k) =>
      s.(hi := AcceptIntroduced(s.hi, lo, s.heldHi[k]), heldHi := Remove(s.heldHi, k))
  }

  ghost predicate Executes(lo: PeerId, hi: PeerId, states: seq<Pair>, steps: seq<Step>) {
    && |states| == |steps| + 1
    && forall i :: 0 <= i < |steps| ==>
        Allowed(lo, hi, states[i], steps[i]) && states[i + 1] == Next(lo, hi, states[i], steps[i])
  }

  ghost predicate Peers(lo: PeerId, hi: PeerId) {
    lo != NO_PEER && hi != NO_PEER && Less(lo, hi)
  }

  predicate NothingPending(s: Pair) {
    s.toHi == s.toLo == s.heldLo == s.heldHi == []
  }

  /** No circuit between the two, no ClientHello on the way and none sent yet. */
  ghost predicate Apart(lo: PeerId, hi: PeerId, s: Pair) {
    && Inv(lo, s.lo) && Inv(hi, s.hi)
    && hi !in s.lo.tunnels && lo !in s.hi.tunnels
    && NothingPending(s)
    && s.loSent == s.hiSent == []
  }

  ghost predicate IsPairRun(lo: PeerId, hi: PeerId, states: seq<Pair>, steps: seq<Step>) {
    Executes(lo, hi, states, steps) && Apart(lo, hi, states[0])
  }

  // ---------------------------------------------------------------- what a run may be assumed to do

  /** The step ends the circuit currently held with `partner`: its handle is dropped, the session
    * is reset, or it is dialled over after going stale.
    */
  predicate EndsCircuit(n: Node, partner: PeerId, ev: Event) {
    partner in n.tunnels && MayDisplace(n, ev, partner)
  }

  /** The step leaves `partner` without the client circuit that was dialled to it. */
  predicate AbandonsDial(n: Node, partner: PeerId, ev: Event) {
    RoleOf(n, partner) == Some(Client) && EndsCircuit(n, partner, ev) && !ev.Dial?
  }

  /** A ClientHello from `partner` would find the responder on and both caps unreached. */
  predicate Room(n: Node, partner: PeerId) {
    AcceptHasRoom(n) && |Forget(n, partner).tunnels| < MAX_RELAY_TUNNELS
  }

  /** No circuit between the two is ended, and a ClientHello finds room where it needs it. */
  predicate Undisturbed(lo: PeerId, hi: PeerId, s: Pair, step: Step) {
    match step
    case LoActs(ev, _) => !EndsCircuit(s.lo, hi, ev)
    case HiActs(ev, _) => !EndsCircuit(s.hi, lo, ev)
    case LoHears(_) => Room(s.lo, hi)
    case HiHears(_) => lo in s.hi.tunnels || Room(s.hi, lo)
    case LoDecides(_) => s.lo.accept.Some?
    case HiDecides(_) => true
    case LoRegisters(_) => hi in s.lo.tunnels || Room(s.lo, hi)
    case HiRegisters(_) => lo in s.hi.tunnels || Room(s.hi, lo)
  }

  ghost predicate IsCalm(lo: PeerId, hi: PeerId, states: seq<Pair>, steps: seq<Step>)
    requires |states| == |steps| + 1
  {
    forall i :: 0 <= i < |steps| ==> Undisturbed(lo, hi, states[i], steps[i])
  }

  // ---------------------------------------------------------------- one node

  lemma AcceptKeepsOtherRoles(n: Node, from: PeerId, payload: Bytes, p: PeerId)
    requires from != p
    ensures RoleOf(AcceptIntroduced(n, from, payload), p) == RoleOf(n, p)
  {
  }

  lemma FrameKeepsOtherRoles(n: Node, from: PeerId, payload: Bytes, p: PeerId)
    requires from != p
    ensures RoleOf(RouteRelayed(n, from, payload), p) == RoleOf(n, p)
  {
    if from in n.tunnels {
      assert RoleOf(Deliver(n, from, payload), p) == RoleOf(n, p);
      AcceptKeepsOtherRoles(Forget(n, from), from, payload, p);
      assert RoleOf(Forget(n, from), p) == RoleOf(n, p);
    } else {
      AcceptKeepsOtherRoles(n, from, payload, p);
    }
  }

  lemma DataKeepsRole(n: Node, from: PeerId, payload: Bytes)
    requires !IsTlsClientHello(payload)
    ensures RoleOf(RouteRelayed(n, from, payload), from) == RoleOf(n, from)
  {
  }

  lemma GenuineFrameKeepsRole(n: Node, p: PeerId, ev: Event)
    requires Genuine(n, p, ev) && ev.Frame?
    ensures RoleOf(RouteRelayed(n, ev.from, ev.payload), p) == RoleOf(n, p)
  {
    if ev.from == p {
      DataKeepsRole(n, p, ev.payload);
    } else {
      FrameKeepsOtherRoles(n, ev.from, ev.payload, p);
    }
  }

  /** On its own a node gains a circuit to its partner only by dialling, and becomes no server. */
  lemma ActingSetsRole(own: PeerId, n: Node, p: PeerId, ev: Event)
    requires Inv(own, n) && Genuine(n, p, ev)
    ensures Dials(n, p, ev) ==> RoleOf(Apply(own, n, ev), p) == Some(Client)
    ensures !Dials(n, p, ev) ==> RoleOf(Apply(own, n, ev), p) in {None, RoleOf(n, p)}
    ensures !Dials(n, p, ev) && !EndsCircuit(n, p, ev) ==> RoleOf(Apply(own, n, ev), p) == RoleOf(n, p)
    ensures !EndsCircuit(n, p, ev) && Dials(n, p, ev) ==> RoleOf(n, p) == None
  {
    if ev.Frame? {
      GenuineFrameKeepsRole(n, p, ev);
    }
  }

  /** A server circuit that is not ended keeps the payload it began with. */
  lemma ActingKeepsFirstPayload(own: PeerId, n: Node, p: PeerId, ev: Event)
    requires own != NO_PEER && Inv(own, n) && Genuine(n, p, ev) && !EndsCircuit(n, p, ev)
    requires RoleOf(n, p) == Some(Server)
    ensures FirstPayload(Apply(own, n, ev), p) == FirstPayload(n, p)
  {
    var n' := Apply(own, n, ev);
    DisplacedExactlyWhen(own, n, ev, p);
    StepPersists(own, n, ev);
    assert Owned(n') by {
      StepKeepsInv(own, n, ev);
    }
    hide Apply;
    var id := n.tunnels[p].id;
    assert id in n'.handles && OpenedByHello(n.handles[id]);
  }

  lemma AcceptKeepsPresentRole(n: Node, p: PeerId, payload: Bytes)
    ensures p in n.tunnels ==> AcceptIntroduced(n, p, payload) == n
    ensures p !in n.tunnels ==> RoleOf(AcceptIntroduced(n, p, payload), p) in {None, Some(Server)}
  {
  }

  /** What one ClientHello does to the role held for its sender. */
  function HelloOutcome(before: Option<Role>, lower: bool): Role {
    if before == Some(Client) && !lower then Client else Server
  }

  lemma HelloIsAccepted(n: Node, p: PeerId, h: Bytes)
    requires Room(n, p) && IsHello(h) && p !in n.tunnels
    ensures RoleOf(AcceptIntroduced(n, p, h), p) == Some(Server)
    ensures FirstPayload(AcceptIntroduced(n, p, h), p) == Some(h)
  {
    assert Forget(n, p).tunnels == n.tunnels;
  }

  lemma HelloSetsRole(own: PeerId, n: Node, p: PeerId, h: Bytes)
    requires own != NO_PEER && own != p && Inv(own, n) && n.outbound && Room(n, p) && IsHello(h)
    ensures RoleOf(RouteRelayed(n, p, h), p) == Some(HelloOutcome(RoleOf(n, p), Less(own, p)))
    ensures RoleOf(n, p) == None || (RoleOf(n, p) == Some(Client) && Less(own, p))
      ==> FirstPayload(RouteRelayed(n, p, h), p) == Some(h)
  {
    LessIsTotal(own, p);
    assert Admissible(n, p, h);
    if p in n.tunnels {
      assert Forget(Forget(n, p), p) == Forget(n, p);
      HelloIsAccepted(Forget(n, p), p, h);
      assert RoleOf(Deliver(n, p, h), p) == RoleOf(n, p);
      assert Yields(n, p, h) <==> RoleOf(n, p) == Some(Client) && Less(own, p);
    } else {
      HelloIsAccepted(n, p, h);
    }
  }

  lemma LowerAccepts(own: PeerId, n: Node, p: PeerId, h: Bytes)
    requires own != NO_PEER && Less(own, p) && Inv(own, n) && n.outbound && n.accept.Some? && IsHello(h)
    requires RoleOf(n, p) != Some(Server)
    ensures Accepts(n, p, h)
  {
    LessIsTotal(own, p);
  }

  lemma HigherNeverYields(own: PeerId, n: Node, p: PeerId, h: Bytes)
    requires Inv(own, n) && n.outbound && Less(p, own)
    requires RoleOf(n, p) == Some(Client)
    ensures RoleOf(RouteRelayed(n, p, h), p) == Some(Client)
    ensures !Accepts(n, p, h)
  {
  }

  // ---------------------------------------------------------------- one step of the pair

  predicate IsLoStep(step: Step) {
    step.LoActs? || step.LoHears? || step.LoDecides? || step.LoRegisters?
  }

  lemma LoStepKeepsNodes(lo: PeerId, hi: PeerId, s: Pair, step: Step)
    requires Peers(lo, hi) && Inv(lo, s.lo) && Allowed(lo, hi, s, step) && IsLoStep(step)
    ensures Inv(lo, Next(lo, hi, s, step).lo) && Next(lo, hi, s, step).hi == s.hi
  {
    LessIsTotal(lo, hi);
    match step
    case LoActs(ev, hello) => StepKeepsInv(lo, s.lo, ev);
    case LoHears(k) => RouteKeepsInv(lo, s.lo, hi, s.toLo[k]);
    case LoDecides(k) =>
      RouteKeepsInv(lo, s.lo, hi, s.toLo[k]);
      ForgetKeepsInv(lo, s.lo, hi);
    case LoRegisters(k) => AcceptKeepsInv(lo, s.lo, hi, s.heldLo[k]);
  }

  lemma HiStepKeepsNodes(lo: PeerId, hi: PeerId, s: Pair, step: Step)
    requires Peers(lo, hi) && Inv(hi, s.hi) && Allowed(lo, hi, s, step) && !IsLoStep(step)
    ensures Inv(hi, Next(lo, hi, s, step).hi) && Next(lo, hi, s, step).lo == s.lo
  {
    LessIsTotal(lo, hi);
    match step
    case HiActs(ev, hello) => StepKeepsInv(hi, s.hi, ev);
    case HiHears(k) => RouteKeepsInv(hi, s.hi, lo, s.toHi[k]);
    case HiDecides(k) =>
      RouteKeepsInv(hi, s.hi, lo, s.toHi[k]);
      ForgetKeepsInv(hi, s.hi, lo);
    case HiRegisters(k) => AcceptKeepsInv(hi, s.hi, lo, s.heldHi[k]);
  }

  lemma HiKeepsItsDial(lo: PeerId, hi: PeerId, s: Pair, step: Step)
    requires Peers(lo, hi) && Inv(hi, s.hi) && Allowed(lo, hi, s, step) && !IsLoStep(step)
    requires step.HiActs? ==> !AbandonsDial(s.hi, lo, step.ev)
    requires RoleOf(s.hi, lo) == Some(Client)
    ensures RoleOf(Next(lo, hi, s, step).hi, lo) == Some(Client)
  {
    match step
    case HiActs(ev, hello) => ActingSetsRole(hi, s.hi, lo, ev);
    case HiHears(k) => HigherNeverYields(hi, s.hi, lo, s.toHi[k]);
    case HiDecides(k) => HigherNeverYields(hi, s.hi, lo, s.toHi[k]);
    case HiRegisters(k) => AcceptKeepsPresentRole(s.hi, lo, s.heldHi[k]);
  }

  predicate AllHellos(hs: seq<Bytes>) {
    forall h :: h in hs ==> IsHello(h)
  }

  predicate HellosOnly(s: Pair) {
    AllHellos(s.toHi) && AllHellos(s.toLo) && AllHellos(s.heldLo) && AllHellos(s.heldHi)
  }

  lemma HellosRemoved(hs: seq<Bytes>, k: nat)
    requires AllHellos(hs) && k < |hs|
    ensures AllHellos(Remove(hs, k)) && IsHello(hs[k])
  {
    assert hs[k] in hs;
  }

  lemma HellosAppended(hs: seq<Bytes>, h: Bytes)
    requires AllHellos(hs) && IsHello(h)
    ensures AllHellos(hs + [h]) && AllHellos(hs + [])
  {
    assert hs + [] == hs;
  }

  lemma HellosStayHellos(lo: PeerId, hi: PeerId, s: Pair, step: Step)
    requires Allowed(lo, hi, s, step) && HellosOnly(s)
    ensures HellosOnly(Next(lo, hi, s, step))
  {
    hide Apply, RouteRelayed, AcceptIntroduced, AllHellos, Remove;
    match step
    case LoActs(_, hello) => HellosAppended(s.toHi, hello);
    case HiActs(_, hello) => HellosAppended(s.toLo, hello);
    case LoHears(k) => HellosRemoved(s.toLo, k);
    case HiHears(k) => HellosRemoved(s.toHi, k);
    case LoDecides(k) =>
      HellosRemoved(s.toLo, k);
      HellosAppended(s.heldLo, s.toLo[k]);
    case HiDecides(k) =>
      HellosRemoved(s.toHi, k);
      HellosAppended(s.heldHi, s.toHi[k]);
    case LoRegisters(k) => HellosRemoved(s.heldLo, k);
    case HiRegisters(k) => HellosRemoved(s.heldHi, k);
  }

  // ---------------------------------------------------------------- convergence

  /** The lower id, about to register an accepted ClientHello, finds that a dial of its own has
    * claimed the key.
    */
  predicate Overtakes(hi: PeerId, s: Pair, step: Step) {
    step.LoRegisters? && hi in s.lo.tunnels
  }

  ghost predicate Overtaken(hi: PeerId, states: seq<Pair>, steps: seq<Step>, i: nat)
    requires |states| == |steps| + 1 && i < |states|
  {
    exists j :: 0 <= j < i && Overtakes(hi, states[j], steps[j])
  }

  /** What one end holds of a circuit with the other, and what a server's inbox began with. */
  datatype End = End(role: Option<Role>, first: Option<Bytes>)

  function EndOf(n: Node, peer: PeerId): End {
    End(RoleOf(n, peer), if RoleOf(n, peer) == Some(Server) then FirstPayload(n, peer) else None)
  }

  /** All that lies between the two nodes. */
  datatype Link = Link(
    lo: End, hi: End,
    toHi: seq<Bytes>, toLo: seq<Bytes>,
    heldLo: seq<Bytes>, heldHi: seq<Bytes>,
    loSent: seq<Bytes>, hiSent: seq<Bytes>)

  function LinkOf(lo: PeerId, hi: PeerId, s: Pair): Link {
    Link(EndOf(s.lo, hi), EndOf(s.hi, lo), s.toHi, s.toLo, s.heldLo, s.heldHi, s.loSent, s.hiSent)
  }

  /** While only the lower id has dialled, its hello is on the way, or the circuit that the higher
    * serves began with it.
    */
  predicate OneSided(l: Link) {
    && l.toLo == l.heldLo == []
    && |l.loSent| <= 1
    && l.lo.role == (if l.loSent != [] then Some(Client) else None)
    && l.hi.role != Some(Client)
    && l.toHi + l.heldHi == (if l.hi.role == None then l.loSent else [])
    && (l.hi.role == Some(Server) ==> l.loSent != [] && l.hi.first == Some(l.loSent[0]))
  }

  /** Once the higher id has dialled, its hello is on the way, or the circuit that the lower serves
    * began with it, or it was lost to a dial of the lower id.
    */
  predicate Crossed(l: Link, overtaken: bool) {
    && |l.hiSent| == 1
    && l.hi.role == Some(Client)
    && l.toLo + l.heldLo == (if l.lo.role == Some(Server) || overtaken then [] else l.hiSent)
    && (l.lo.role == Some(Server) ==> l.lo.first == Some(l.hiSent[0]))
    && (overtaken ==> l.lo.role == Some(Client))
  }

  predicate Converging(l: Link, overtaken: bool) {
    if l.hiSent != [] then Crossed(l, overtaken) else OneSided(l) && !overtaken
  }

  ghost predicate PairInv(lo: PeerId, hi: PeerId, s: Pair, overtaken: bool) {
    Inv(lo, s.lo) && Inv(hi, s.hi) && HellosOnly(s) && Converging(LinkOf(lo, hi, s), overtaken)
  }

  // What can happen on the link, one lemma for each.

  lemma LoDials(l: Link, h: Bytes, overtaken: bool)
    requires Converging(l, overtaken) && l.lo.role == None
    ensures Converging(l.(lo := End(Some(Client), None), toHi := l.toHi + [h], loSent := l.loSent + [h]), overtaken)
  {
    match l.hi.role
    case Some(Client) =>
    case Some(Server) =>
    case None => assert l.hiSent == [] ==> l.toHi + [h] + l.heldHi == [h];
  }

  lemma HiDials(l: Link, h: Bytes, overtaken: bool)
    requires Converging(l, overtaken) && l.hi.role == None
    ensures Converging(l.(hi := End(Some(Client), None), toLo := l.toLo + [h], hiSent := l.hiSent + [h]), overtaken)
  {
  }

  lemma LoTakesUp(l: Link, h: Bytes, overtaken: bool)
    requires Converging(l, overtaken) && l.toLo + l.heldLo == [h]
    ensures Converging(l.(lo := End(Some(Server), Some(h)), toLo := [], heldLo := []), overtaken)
  {
  }

  lemma LoYields(l: Link, h: Bytes, overtaken: bool)
    requires Converging(l, overtaken) && l.toLo == [h] && l.heldLo == []
    ensures Converging(l.(lo := End(None, None), toLo := [], heldLo := [h]), overtaken)
  {
  }

  lemma LoIsOvertaken(l: Link, h: Bytes, overtaken: bool)
    requires Converging(l, overtaken) && l.heldLo == [h] && l.toLo == [] && l.lo.role == Some(Client)
    ensures Converging(l.(heldLo := []), true)
  {
  }

  lemma HiTakesUp(l: Link, h: Bytes, overtaken: bool)
    requires Converging(l, overtaken) && l.hi.role != Some(Client) && l.toHi + l.heldHi == [h]
    ensures Converging(l.(hi := End(Some(Server), Some(h)), toHi := [], heldHi := []), overtaken)
  {
  }

  lemma HiHolds(l: Link, h: Bytes, overtaken: bool)
    requires Converging(l, overtaken) && l.hi.role != Some(Client) && l.toHi == [h] && l.heldHi == []
    ensures Converging(l.(toHi := [], heldHi := [h]), overtaken)
  {
  }

  lemma HiIgnores(l: Link, toHi: seq<Bytes>, heldHi: seq<Bytes>, overtaken: bool)
    requires Converging(l, overtaken) && l.hi.role == Some(Client)
    ensures Converging(l.(toHi := toHi, heldHi := heldHi), overtaken)
  {
  }

  /** At most one hello that matters is pending, and its receiver can take it up. */
  lemma PendingHellos(l: Link, overtaken: bool)
    requires Converging(l, overtaken)
    ensures l.toLo + l.heldLo != [] ==> |l.toLo + l.heldLo| == 1 && l.lo.role != Some(Server)
    ensures l.hi.role != Some(Client) && l.toHi + l.heldHi != [] ==> |l.toHi + l.heldHi| == 1 && l.hi.role == None
    ensures l.hi.role == Some(Client) <==> l.hiSent != []
  {
  }

  /** The only pending hello, removed from where it is. */
  lemma RemoveOne<T>(s: seq<T>, t: seq<T>, k: nat)
    requires k < |s| && |s + t| <= 1
    ensures k == 0 && Remove(s, k) == [] && t == [] && s == [s[0]] && s + t == t + s == s
  {
  }

  lemma RoleIsOneOfThree(n: Node, p: PeerId)
    ensures RoleOf(n, p) == None || RoleOf(n, p) == Some(Client) || RoleOf(n, p) == Some(Server)
    ensures p in n.tunnels <==> RoleOf(n, p) != None
  {
    assert p in n.tunnels ==> n.tunnels[p].role.Client? || n.tunnels[p].role.Server?;
  }

  /** Left alone, a node changes its end only by dialling. */
  lemma ActingSetsEnd(own: PeerId, n: Node, p: PeerId, ev: Event)
    requires own != NO_PEER && Inv(own, n) && Genuine(n, p, ev) && !EndsCircuit(n, p, ev)
    ensures Dials(n, p, ev) ==> RoleOf(n, p) == None && EndOf(Apply(own, n, ev), p) == End(Some(Client), None)
    ensures !Dials(n, p, ev) ==> EndOf(Apply(own, n, ev), p) == EndOf(n, p)
  {
    ActingSetsRole(own, n, p, ev);
    if RoleOf(n, p) == Some(Server) {
      ActingKeepsFirstPayload(own, n, p, ev);
    }
    hide Apply, FirstPayload, EndsCircuit, Inv;
  }

  lemma LoActKeepsConverging(lo: PeerId, hi: PeerId, s: Pair, step: Step, overtaken: bool)
    requires Peers(lo, hi) && PairInv(lo, hi, s, overtaken)
    requires Allowed(lo, hi, s, step) && Undisturbed(lo, hi, s, step) && step.LoActs?
    ensures Converging(LinkOf(lo, hi, Next(lo, hi, s, step)), overtaken)
  {
    hide Converging, EndOf, Apply, EndsCircuit, Inv;
    var l := LinkOf(lo, hi, s);
    ActingSetsEnd(lo, s.lo, hi, step.ev);
    if Dials(s.lo, hi, step.ev) {
      EndHasRole(s.lo, hi);
      LoDials(l, step.hello, overtaken);
    } else {
      assert s.toHi + [] == s.toHi && s.loSent + [] == s.loSent;
      assert LinkOf(lo, hi, Next(lo, hi, s, step)) == l;
    }
  }

  lemma HiActKeepsConverging(lo: PeerId, hi: PeerId, s: Pair, step: Step, overtaken: bool)
    requires Peers(lo, hi) && PairInv(lo, hi, s, overtaken)
    requires Allowed(lo, hi, s, step) && Undisturbed(lo, hi, s, step) && step.HiActs?
    ensures Converging(LinkOf(lo, hi, Next(lo, hi, s, step)), overtaken)
  {
    hide Converging, EndOf, Apply, EndsCircuit, Inv;
    var l := LinkOf(lo, hi, s);
    ActingSetsEnd(hi, s.hi, lo, step.ev);
    if Dials(s.hi, lo, step.ev) {
      EndHasRole(s.hi, lo);
      HiDials(l, step.hello, overtaken);
    } else {
      assert s.toLo + [] == s.toLo && s.hiSent + [] == s.hiSent;
      assert LinkOf(lo, hi, Next(lo, hi, s, step)) == l;
    }
  }

  lemma EndHasRole(n: Node, p: PeerId)
    ensures EndOf(n, p).role == RoleOf(n, p)
    ensures RoleOf(n, p) != Some(Server) ==> EndOf(n, p) == End(RoleOf(n, p), None)
    ensures RoleOf(n, p) == Some(Server) ==> EndOf(n, p) == End(Some(Server), FirstPayload(n, p))
  {
  }

  lemma LoHearingKeepsConverging(lo: PeerId, hi: PeerId, s: Pair, k: nat, overtaken: bool)
    requires Peers(lo, hi) && PairInv(lo, hi, s, overtaken)
    requires Allowed(lo, hi, s, LoHears(k)) && Undisturbed(lo, hi, s, LoHears(k))
    ensures Converging(LinkOf(lo, hi, Next(lo, hi, s, LoHears(k))), overtaken)
  {
    hide Converging, EndOf, RouteRelayed, Inv;
    var l, h := LinkOf(lo, hi, s), s.toLo[k];
    LessIsTotal(lo, hi);
    PendingHellos(l, overtaken);
    EndHasRole(s.lo, hi);
    RoleIsOneOfThree(s.lo, hi);
    RemoveOne(s.toLo, s.heldLo, k);
    assert h in s.toLo;
    HelloSetsRole(lo, s.lo, hi, h);
    EndHasRole(RouteRelayed(s.lo, hi, h), hi);
    LoTakesUp(l, h, overtaken);
  }

  lemma LoDecisionKeepsConverging(lo: PeerId, hi: PeerId, s: Pair, k: nat, overtaken: bool)
    requires Peers(lo, hi) && PairInv(lo, hi, s, overtaken)
    requires Allowed(lo, hi, s, LoDecides(k)) && Undisturbed(lo, hi, s, LoDecides(k))
    ensures Converging(LinkOf(lo, hi, Next(lo, hi, s, LoDecides(k))), overtaken)
  {
    hide Converging, EndOf, RouteRelayed, Inv;
    var l, h := LinkOf(lo, hi, s), s.toLo[k];
    PendingHellos(l, overtaken);
    EndHasRole(s.lo, hi);
    RemoveOne(s.toLo, s.heldLo, k);
    assert h in s.toLo;
    LowerAccepts(lo, s.lo, hi, h);
    EndHasRole(Forget(s.lo, hi), hi);
    LoYields(l, h, overtaken);
  }

  lemma LoRegistrationKeepsConverging(lo: PeerId, hi: PeerId, s: Pair, k: nat, overtaken: bool)
    requires Peers(lo, hi) && PairInv(lo, hi, s, overtaken)
    requires Allowed(lo, hi, s, LoRegisters(k)) && Undisturbed(lo, hi, s, LoRegisters(k))
    ensures Converging(LinkOf(lo, hi, Next(lo, hi, s, LoRegisters(k))), overtaken || hi in s.lo.tunnels)
  {
    hide Converging, EndOf, AcceptIntroduced, Inv;
    var l, h := LinkOf(lo, hi, s), s.heldLo[k];
    PendingHellos(l, overtaken);
    EndHasRole(s.lo, hi);
    RoleIsOneOfThree(s.lo, hi);
    RemoveOne(s.heldLo, s.toLo, k);
    if hi in s.lo.tunnels {
      AcceptKeepsPresentRole(s.lo, hi, h);
      LoIsOvertaken(l, h, overtaken);
    } else {
      assert h in s.heldLo;
      HelloIsAccepted(s.lo, hi, h);
      EndHasRole(AcceptIntroduced(s.lo, hi, h), hi);
      LoTakesUp(l, h, overtaken);
    }
  }

  lemma CrossedKeepsConverging(lo: PeerId, hi: PeerId, s: Pair, step: Step, overtaken: bool)
    requires Peers(lo, hi) && PairInv(lo, hi, s, overtaken) && RoleOf(s.hi, lo) == Some(Client)
    requires Allowed(lo, hi, s, step) && (step.HiHears? || step.HiDecides? || step.HiRegisters?)
    ensures Converging(LinkOf(lo, hi, Next(lo, hi, s, step)), overtaken)
  {
    hide Converging, EndOf, RouteRelayed, AcceptIntroduced, Inv;
    var s' := Next(lo, hi, s, step);
    HiKeepsItsDial(lo, hi, s, step);
    EndHasRole(s.hi, lo);
    EndHasRole(s'.hi, lo);
    HiIgnores(LinkOf(lo, hi, s), s'.toHi, s'.heldHi, overtaken);
  }

  lemma HiHearingKeepsConverging(lo: PeerId, hi: PeerId, s: Pair, k: nat, overtaken: bool)
    requires Peers(lo, hi) && PairInv(lo, hi, s, overtaken) && RoleOf(s.hi, lo) != Some(Client)
    requires Allowed(lo, hi, s, HiHears(k)) && Undisturbed(lo, hi, s, HiHears(k))
    ensures Converging(LinkOf(lo, hi, Next(lo, hi, s, HiHears(k))), overtaken)
  {
    hide Converging, EndOf, RouteRelayed, Inv;
    var l, h := LinkOf(lo, hi, s), s.toHi[k];
    LessIsTotal(lo, hi);
    EndHasRole(s.hi, lo);
    PendingHellos(l, overtaken);
    RemoveOne(s.toHi, s.heldHi, k);
    RoleIsOneOfThree(s.hi, lo);
    assert h in s.toHi;
    HelloSetsRole(hi, s.hi, lo, h);
    EndHasRole(RouteRelayed(s.hi, lo, h), lo);
    HiTakesUp(l, h, overtaken);
  }

  lemma HiDecisionKeepsConverging(lo: PeerId, hi: PeerId, s: Pair, k: nat, overtaken: bool)
    requires Peers(lo, hi) && PairInv(lo, hi, s, overtaken) && RoleOf(s.hi, lo) != Some(Client)
    requires Allowed(lo, hi, s, HiDecides(k))
    ensures Converging(LinkOf(lo, hi, Next(lo, hi, s, HiDecides(k))), overtaken)
  {
    hide Converging, EndOf, RouteRelayed;
    var l, h := LinkOf(lo, hi, s), s.toHi[k];
    LessIsTotal(lo, hi);
    EndHasRole(s.hi, lo);
    PendingHellos(l, overtaken);
    RemoveOne(s.toHi, s.heldHi, k);
    RoleIsOneOfThree(s.hi, lo);
    assert h in s.toHi;
    assert Accepts(s.hi, lo, h);
    assert Forget(s.hi, lo) == s.hi;
    HiHolds(l, h, overtaken);
  }

  lemma HiRegistrationKeepsConverging(lo: PeerId, hi: PeerId, s: Pair, k: nat, overtaken: bool)
    requires Peers(lo, hi) && PairInv(lo, hi, s, overtaken) && RoleOf(s.hi, lo) != Some(Client)
    requires Allowed(lo, hi, s, HiRegisters(k)) && Undisturbed(lo, hi, s, HiRegisters(k))
    ensures Converging(LinkOf(lo, hi, Next(lo, hi, s, HiRegisters(k))), overtaken)
  {
    hide Converging, EndOf, AcceptIntroduced, Inv;
    var l, h := LinkOf(lo, hi, s), s.heldHi[k];
    EndHasRole(s.hi, lo);
    PendingHellos(l, overtaken);
    RemoveOne(s.heldHi, s.toHi, k);
    RoleIsOneOfThree(s.hi, lo);
    assert h in s.heldHi;
    HelloIsAccepted(s.hi, lo, h);
    EndHasRole(AcceptIntroduced(s.hi, lo, h), lo);
    HiTakesUp(l, h, overtaken);
  }

  lemma StepKeepsPairInv(lo: PeerId, hi: PeerId, s: Pair, step: Step, overtaken: bool)
    requires Peers(lo, hi) && PairInv(lo, hi, s, overtaken)
    requires Allowed(lo, hi, s, step) && Undisturbed(lo, hi, s, step)
    ensures PairInv(lo, hi, Next(lo, hi, s, step), overtaken || Overtakes(hi, s, step))
  {
    hide Next, Allowed, Undisturbed, Converging, HellosOnly, Inv;
    HellosStayHellos(lo, hi, s, step);
    if IsLoStep(step) {
      LoStepKeepsNodes(lo, hi, s, step);
    } else {
      HiStepKeepsNodes(lo, hi, s, step);
    }
    match step
    case LoActs(_, _) => LoActKeepsConverging(lo, hi, s, step, overtaken);
    case HiActs(_, _) => HiActKeepsConverging(lo, hi, s, step, overtaken);
    case LoHears(k) => LoHearingKeepsConverging(lo, hi, s, k, overtaken);
    case LoDecides(k) => LoDecisionKeepsConverging(lo, hi, s, k, overtaken);
    case LoRegisters(k) => LoRegistrationKeepsConverging(lo, hi, s, k, overtaken);
    case HiHears(k) =>
      if RoleOf(s.hi, lo) == Some(Client) {
        CrossedKeepsConverging(lo, hi, s, step, overtaken);
      } else {
        HiHearingKeepsConverging(lo, hi, s, k, overtaken);
      }
    case HiDecides(k) =>
      if RoleOf(s.hi, lo) == Some(Client) {
        CrossedKeepsConverging(lo, hi, s, step, overtaken);
      } else {
        HiDecisionKeepsConverging(lo, hi, s, k, overtaken);
      }
    case HiRegisters(k) =>
      if RoleOf(s.hi, lo) == Some(Client) {
        CrossedKeepsConverging(lo, hi, s, step, overtaken);
      } else {
        HiRegistrationKeepsConverging(lo, hi, s, k, overtaken);
      }
  }

  lemma OvertakenGrows(hi: PeerId, states: seq<Pair>, steps: seq<Step>, i: nat)
    requires |states| == |steps| + 1 && i < |steps|
    ensures Overtaken(hi, states, steps, i + 1)
      <==> Overtaken(hi, states, steps, i) || Overtakes(hi, states[i], steps[i])
  {
  }

  lemma {:induction false} RunsConverge(lo: PeerId, hi: PeerId, states: seq<Pair>, steps: seq<Step>, i: nat)
    requires Peers(lo, hi) && IsPairRun(lo, hi, states, steps) && IsCalm(lo, hi, states, steps) && i < |states|
    ensures PairInv(lo, hi, states[i], Overtaken(hi, states, steps, i))
  {
    hide Next, Allowed, Undisturbed;
    if i == 0 {
    } else {
      RunsConverge(lo, hi, states, steps, i - 1);
      StepKeepsPairInv(lo, hi, states[i - 1], steps[i - 1], Overtaken(hi, states, steps, i - 1));
      OvertakenGrows(hi, states, steps, i - 1);
    }
  }

  /** One end is client and the other server. */
  predicate Paired(lo: PeerId, hi: PeerId, s: Pair) {
    || (RoleOf(s.lo, hi) == Some(Server) && RoleOf(s.hi, lo) == Some(Client))
    || (RoleOf(s.lo, hi) == Some(Client) && RoleOf(s.hi, lo) == Some(Server))
  }

  /** The circuit the server holds began with the one ClientHello the client ever sent. */
  predicate Joined(lo: PeerId, hi: PeerId, s: Pair) {
    if RoleOf(s.lo, hi) == Some(Server) then |s.hiSent| == 1 && FirstPayload(s.lo, hi) == Some(s.hiSent[0])
    else |s.loSent| == 1 && FirstPayload(s.hi, lo) == Some(s.loSent[0])
  }

  predicate BothClients(lo: PeerId, hi: PeerId, s: Pair) {
    RoleOf(s.lo, hi) == Some(Client) && RoleOf(s.hi, lo) == Some(Client)
  }

  /** When a calm run converges: once a dial has been made and no ClientHello is pending, one end
    * is client and the other server if and only if the lower id was never overtaken by its own
    * dial; otherwise both are clients. A dial that overtakes a registration at the higher id
    * does no harm. The two ends then hold the halves of one circuit.
    */
  lemma ConvergesExactlyUnlessOvertaken(lo: PeerId, hi: PeerId, states: seq<Pair>, steps: seq<Step>, i: nat)
    requires Peers(lo, hi) && IsPairRun(lo, hi, states, steps) && IsCalm(lo, hi, states, steps) && i < |states|
    requires states[i].loSent + states[i].hiSent != [] && NothingPending(states[i])
    ensures Paired(lo, hi, states[i]) <==> !Overtaken(hi, states, steps, i)
    ensures Overtaken(hi, states, steps, i) ==> BothClients(lo, hi, states[i])
    ensures Paired(lo, hi, states[i]) ==> Joined(lo, hi, states[i])
    ensures Paired(lo, hi, states[i]) ==> (RoleOf(states[i].lo, hi) == Some(Server) <==> states[i].hiSent != [])
  {
    RunsConverge(lo, hi, states, steps, i);
  }

  predicate OneFramePerStep(step: Step) {
    step.LoActs? || step.HiActs? || step.LoHears? || step.HiHears?
  }

  /** Glare convergence: with one frame per step every calm run converges; the lower id serves
    * exactly when the higher id dialled, in particular whenever both did.
    */
  lemma GlareConverges(lo: PeerId, hi: PeerId, states: seq<Pair>, steps: seq<Step>, i: nat)
    requires Peers(lo, hi) && IsPairRun(lo, hi, states, steps) && IsCalm(lo, hi, states, steps) && i < |states|
    requires forall j :: 0 <= j < |steps| ==> OneFramePerStep(steps[j])
    requires states[i].loSent + states[i].hiSent != []
    requires states[i].toLo == [] && states[i].toHi == []
    ensures Paired(lo, hi, states[i]) && Joined(lo, hi, states[i])
    ensures RoleOf(states[i].lo, hi) == Some(Server) <==> states[i].hiSent != []
  {
    NothingHeld(lo, hi, states, steps, i);
    ConvergesExactlyUnlessOvertaken(lo, hi, states, steps, i);
  }

  lemma {:induction false} NothingHeld(lo: PeerId, hi: PeerId, states: seq<Pair>, steps: seq<Step>, i: nat)
    requires IsPairRun(lo, hi, states, steps) && i < |states|
    requires forall j :: 0 <= j < |steps| ==> OneFramePerStep(steps[j])
    ensures states[i].heldLo == states[i].heldHi == []
  {
    if i == 0 {
    } else {
      NothingHeld(lo, hi, states, steps, i - 1);
    }
  }

  // ---------------------------------------------------------------- the failing runs

  /** A pair at rest: both reservations held, both responders on, no circuit at all. */
  ghost predicate AtRest(lo: PeerId, hi: PeerId, s: Pair) {
    && Apart(lo, hi, s)
    && TransportReady(s.lo) && TransportReady(s.hi)
    && AcceptHasRoom(s.lo) && AcceptHasRoom(s.hi)
    && s.lo.tunnels == map[] && s.hi.tunnels == map[]
  }

  const START: Pair := Pair(INITIAL, INITIAL, [], [], [], [], [], [])

  const A_HELLO: Bytes := [0x16, 3, 1, 0, 1, 1]

  /** What a node is once its session has been reset, its responder turned on and its reservation
    * acknowledged.
    */
  function Renewed(own: PeerId, n: Node): Node {
    n.(connected := true, outbound := true, local := Some(own),
       accept := Some(AcceptChannel([], true)), tunnels := map[])
  }

  lemma ExecutesOn(lo: PeerId, hi: PeerId, states: seq<Pair>, steps: seq<Step>, more: seq<Pair>, moreSteps: seq<Step>)
    requires Executes(lo, hi, states, steps) && Executes(lo, hi, more, moreSteps)
    requires states[|steps|] == more[0]
    ensures Executes(lo, hi, states + more[1..], steps + moreSteps)
    ensures IsCalm(lo, hi, states, steps) && IsCalm(lo, hi, more, moreSteps)
      ==> IsCalm(lo, hi, states + more[1..], steps + moreSteps)
  {
    hide Next, Allowed, Undisturbed;
    var all, allSteps := states + more[1..], steps + moreSteps;
    forall i | 0 <= i < |allSteps|
      ensures Allowed(lo, hi, all[i], allSteps[i]) && all[i + 1] == Next(lo, hi, all[i], allSteps[i])
      ensures i < |steps| ==> all[i] == states[i] && allSteps[i] == steps[i]
      ensures i >= |steps| ==> all[i] == more[i - |steps|] && allSteps[i] == moreSteps[i - |steps|]
    {
      if i >= |steps| {
        var j := i - |steps|;
        assert all[i] == more[j] && all[i + 1] == more[j + 1] && allSteps[i] == moreSteps[j];
      }
    }
  }

  const RENEWAL: seq<Event> := [EndSession, TurnOnAccept, Register, Registered]

  lemma RenewalRenews(own: PeerId, n: Node, p: PeerId)
    requires own != NO_PEER && Inv(own, n)
    ensures Inv(own, Renewed(own, n))
    ensures Enabled(n, EndSession)
    ensures var n1 := Apply(own, n, EndSession);
      && n1 == n.(connected := false, outbound := false, tunnels := map[])
      && Apply(own, n1, TurnOnAccept) == n1.(accept := Some(AcceptChannel([], true)))
    ensures var n2 := n.(
        connected := false, outbound := false, tunnels := map[], accept := Some(AcceptChannel([], true)));
      && Apply(own, n2, Register) == n2.(local := Some(own), outbound := true)
      && Enabled(n2.(local := Some(own), outbound := true), Registered)
      && Apply(own, n2.(local := Some(own), outbound := true), Registered) == Renewed(own, n)
  {
    assert Servers(Renewed(own, n)) == {};
  }

  lemma LoRenews(lo: PeerId, hi: PeerId, s: Pair) returns (states: seq<Pair>, steps: seq<Step>)
    requires Peers(lo, hi) && Inv(lo, s.lo)
    ensures Executes(lo, hi, states, steps) && states[0] == s
    ensures states[|steps|] == s.(lo := Renewed(lo, s.lo))
    ensures |steps| == 4 && forall i :: 0 <= i < 4 ==> steps[i] == LoActs(RENEWAL[i], A_HELLO)
  {
    RenewalRenews(lo, s.lo, hi);
    var n1 := s.lo.(connected := false, outbound := false, tunnels := map[]);
    var n2 := n1.(accept := Some(AcceptChannel([], true)));
    states := [
      s, s.(lo := n1), s.(lo := n2), s.(lo := n2.(local := Some(lo), outbound := true)), s.(lo := Renewed(lo, s.lo))];
    steps := [
      LoActs(EndSession, A_HELLO), LoActs(TurnOnAccept, A_HELLO), LoActs(Register, A_HELLO),
      LoActs(Registered, A_HELLO)];
    hide Apply;
  }

  lemma HiRenews(lo: PeerId, hi: PeerId, s: Pair) returns (states: seq<Pair>, steps: seq<Step>)
    requires Peers(lo, hi) && Inv(hi, s.hi)
    ensures Executes(lo, hi, states, steps) && states[0] == s
    ensures states[|steps|] == s.(hi := Renewed(hi, s.hi))
    ensures |steps| == 4 && forall i :: 0 <= i < 4 ==> steps[i] == HiActs(RENEWAL[i], A_HELLO)
    ensures lo !in s.hi.tunnels ==> forall i :: 0 <= i <= 4 ==> lo !in states[i].hi.tunnels
  {
    RenewalRenews(hi, s.hi, lo);
    var n1 := s.hi.(connected := false, outbound := false, tunnels := map[]);
    var n2 := n1.(accept := Some(AcceptChannel([], true)));
    states := [
      s, s.(hi := n1), s.(hi := n2), s.(hi := n2.(local := Some(hi), outbound := true)), s.(hi := Renewed(hi, s.hi))];
    steps := [
      HiActs(EndSession, A_HELLO), HiActs(TurnOnAccept, A_HELLO), HiActs(Register, A_HELLO),
      HiActs(Registered, A_HELLO)];
    hide Apply;
  }

  /** Two fresh nodes come to rest: the lower comes up, then the higher. */
  lemma RestIsReachable(lo: PeerId, hi: PeerId) returns (states: seq<Pair>, steps: seq<Step>)
    requires Peers(lo, hi)
    ensures Executes(lo, hi, states, steps) && states[0] == START && Apart(lo, hi, START)
    ensures AtRest(lo, hi, states[|steps|])
  {
    assert Servers(INITIAL) == {};
    var first, loUp := LoRenews(lo, hi, START);
    var second, hiUp := HiRenews(lo, hi, first[|loUp|]);
    ExecutesOn(lo, hi, first, loUp, second, hiUp);
    states, steps := first + second[1..], loUp + hiUp;
    assert states[|steps|] == second[|hiUp|];
    RenewalRenews(lo, INITIAL, hi);
    RenewalRenews(hi, INITIAL, lo);
  }

  lemma DialFromRest(own: PeerId, n: Node, p: PeerId)
    requires own != p && Inv(own, n) && TransportReady(n) && p !in n.tunnels
    ensures Genuine(n, p, Dial(p)) && Dials(n, p, Dial(p)) && !EndsCircuit(n, p, Dial(p))
    ensures Apply(own, n, Dial(p)) == InsertEntry(n, p, Client)
  {
  }

  /** The higher id dials and the lower decides to accept its hello. */
  function Decided(lo: PeerId, s: Pair, h: Bytes): Pair {
    s.(hi := InsertEntry(s.hi, lo, Client), heldLo := [h], hiSent := [h])
  }

  lemma RaceOpens(lo: PeerId, hi: PeerId, s: Pair, h: Bytes) returns (mid: Pair)
    requires Peers(lo, hi) && AtRest(lo, hi, s) && IsHello(h)
    ensures var states, steps := [s, mid, Decided(lo, s, h)], [HiActs(Dial(lo), h), LoDecides(0)];
      Executes(lo, hi, states, steps) && IsCalm(lo, hi, states, steps)
  {
    hide Apply, RouteRelayed, Inv, MayDisplace;
    LessIsTotal(lo, hi);
    DialFromRest(hi, s.hi, lo);
    mid := s.(hi := InsertEntry(s.hi, lo, Client), toLo := [h], hiSent := [h]);
    assert mid == Next(lo, hi, s, HiActs(Dial(lo), h));
    LowerAccepts(lo, mid.lo, hi, h);
    assert Forget(mid.lo, hi) == mid.lo;
    assert Remove(mid.toLo, 0) == [];
    assert Decided(lo, s, h) == Next(lo, hi, mid, LoDecides(0));
  }

  /** The lower id's own dial claims the key, so the held hello is abandoned. */
  function AfterOvertaking(lo: PeerId, hi: PeerId, s: Pair, h: Bytes): Pair {
    Decided(lo, s, h).(lo := InsertEntry(s.lo, hi, Client), heldLo := [], toHi := [h], loSent := [h])
  }

  lemma RaceOvertakes(lo: PeerId, hi: PeerId, s: Pair, h: Bytes) returns (mid: Pair)
    requires Peers(lo, hi) && AtRest(lo, hi, s) && IsHello(h)
    ensures hi in mid.lo.tunnels
    ensures
      var states := [Decided(lo, s, h), mid, AfterOvertaking(lo, hi, s, h)];
      var steps := [LoActs(Dial(hi), h), LoRegisters(0)];
      Executes(lo, hi, states, steps) && IsCalm(lo, hi, states, steps)
  {
    hide Apply, AcceptIntroduced;
    LessIsTotal(lo, hi);
    DialFromRest(lo, s.lo, hi);
    var decided := Decided(lo, s, h);
    mid := AfterOvertaking(lo, hi, s, h).(heldLo := [h]);
    assert mid == Next(lo, hi, decided, LoActs(Dial(hi), h));
    AcceptKeepsPresentRole(mid.lo, hi, h);
    assert Remove(mid.heldLo, 0) == [];
    assert AfterOvertaking(lo, hi, s, h) == Next(lo, hi, mid, LoRegisters(0));
  }

  lemma RaceEnds(lo: PeerId, hi: PeerId, s: Pair, h: Bytes) returns (end: Pair)
    requires Peers(lo, hi) && AtRest(lo, hi, s) && IsHello(h)
    ensures
      var states, steps := [AfterOvertaking(lo, hi, s, h), end], [HiDecides(0)];
      Executes(lo, hi, states, steps) && IsCalm(lo, hi, states, steps)
    ensures NothingPending(end) && end.hiSent == [h]
  {
    var before := AfterOvertaking(lo, hi, s, h);
    LessIsTotal(lo, hi);
    InsertKeepsInv(hi, s.hi, lo);
    HigherNeverYields(hi, before.hi, lo, h);
    assert Remove(before.toHi, 0) == [];
    end := before.(hi := RouteRelayed(before.hi, lo, h), toHi := []);
    assert end == Next(lo, hi, before, HiDecides(0));
  }

  /** From any pair at rest a calm run leads to two clients and nothing pending: a dial claims the
    * key between the two critical sections of a frame, and the ClientHello is lost.
    */
  lemma SplitFrameCanLeaveTwoClients(lo: PeerId, hi: PeerId, s: Pair, h: Bytes)
      returns (states: seq<Pair>, steps: seq<Step>)
    requires Peers(lo, hi) && AtRest(lo, hi, s) && IsHello(h)
    ensures IsPairRun(lo, hi, states, steps) && IsCalm(lo, hi, states, steps) && states[0] == s
    ensures NothingPending(states[|steps|]) && Overtaken(hi, states, steps, |steps|)
    ensures BothClients(lo, hi, states[|steps|])
  {
    hide Next, Allowed, Undisturbed;
    var s1 := RaceOpens(lo, hi, s, h);
    var s2 := Decided(lo, s, h);
    var s3 := RaceOvertakes(lo, hi, s, h);
    var s4 := AfterOvertaking(lo, hi, s, h);
    var last := RaceEnds(lo, hi, s, h);
    ExecutesOn(lo, hi, [s, s1, s2], [HiActs(Dial(lo), h), LoDecides(0)],
               [s2, s3, s4], [LoActs(Dial(hi), h), LoRegisters(0)]);
    states, steps := [s, s1, s2, s3, s4], [HiActs(Dial(lo), h), LoDecides(0), LoActs(Dial(hi), h), LoRegisters(0)];
    assert states == [s, s1, s2] + [s2, s3, s4][1..];
    assert steps == [HiActs(Dial(lo), h), LoDecides(0)] + [LoActs(Dial(hi), h), LoRegisters(0)];
    ExecutesOn(lo, hi, states, steps, [s4, last], [HiDecides(0)]);
    states, steps := states + [s4, last][1..], steps + [HiDecides(0)];
    assert steps[3].LoRegisters? && states[3] == s3;
    ConvergesExactlyUnlessOvertaken(lo, hi, states, steps, |steps|);
  }

  /** Both ends have dialled and neither hello has arrived. */
  function BothDialing(lo: PeerId, hi: PeerId, s: Pair, h: Bytes): Pair {
    s.(lo := InsertEntry(s.lo, hi, Client), hi := InsertEntry(s.hi, lo, Client),
       toHi := [h], toLo := [h], loSent := [h], hiSent := [h])
  }

  lemma BothDial(lo: PeerId, hi: PeerId, s: Pair, h: Bytes) returns (mid: Pair)
    requires Peers(lo, hi) && AtRest(lo, hi, s) && IsHello(h)
    ensures Executes(lo, hi, [s, mid, BothDialing(lo, hi, s, h)], [LoActs(Dial(hi), h), HiActs(Dial(lo), h)])
  {
    LessIsTotal(lo, hi);
    DialFromRest(lo, s.lo, hi);
    DialFromRest(hi, s.hi, lo);
    mid := s.(lo := InsertEntry(s.lo, hi, Client), toHi := [h], loSent := [h]);
    assert mid == Next(lo, hi, s, LoActs(Dial(hi), h));
    assert BothDialing(lo, hi, s, h) == Next(lo, hi, mid, HiActs(Dial(lo), h));
  }
}
