# A model of dig-nat's relay, framing and fast-connect cores

dig-nat connects two peers of the DIG network through whatever lies between them. It tries a
ladder of traversal methods, falls back to circuits over a relay, and swaps a relayed connection
for a direct one while streams are running. This project states the behaviour those parts rely
on as a Dafny model and proves it.

Verify everything with `dafny verify dfyconfig.toml`.

## What is modelled

**The relay circuit table** (`Circuit`, `RelayStatusModel`, `CircuitRuns`, `RoutingRules`,
`RelayThreads`, `GlareModel`, `GlareSafety`). A node keeps a table from peer id to a circuit: a role,
a registration id and a last-activity stamp. Dials, relayed frames, dropped tunnel handles and session
resets change it.

- `Circuit` gives the net effect of every operation on a `Node` value, including the handles'
  bounded inboxes and the bounded accept queue. `RelayStatusModel.RelayStatus` performs the same
  operations on mutable fields, branch by branch, and is proved equal to them.
- `RoutingRules` states the outcome of every relayed frame, dial and other event in bytes, counts and
  times alone.
- `CircuitRuns` proves safety over every run of one node, one relayed frame per step. The results
  cover ownership of registrations, the accept path, isolation of inboxes, and the exact reasons
  for which a circuit leaves the table.
- `RelayThreads` makes every lock region a step of its own, with any number of threads.
- `GlareModel` runs two nodes against each other with ClientHellos in flight and proves when they
  converge; `GlareSafety` proves when both can become servers.

**The range protocol** (`ChunkLens`, `FrameBudget`, `FrameText`, `Framing`). The paged prologue
with its in-place assembler, the printed JSON body of a range frame with its zero-slack size bound, a
reader that recovers every field from that body, and the length-prefixed framing.

**Fast-connect** (`FastConnect`, `ClosedHandleModel`). Openers, streams, the promote/fallback guard
and the drain task are concurrent machines over reference-counted transport slots. The wait for a
session to close is a machine of its own.

**The smaller cores.** `TunnelStream` is the byte stream over relay frames. The adapter does not notice
a frame that was lost to a full channel; the error that `src/tunnel.rs:20-24` speaks of is raised by
the TLS session above it, which is not part of this model. `Descriptor` is the signed relay record,
`Strategy` the ranked ladder, `Backoff` the two backoffs and their loops, and `Discovery` the capped set
of discovered peers.

## Where the code does not do what its comments say

The model follows the code. These are the points where a comment promises more.

- `src/relay.rs:721-730` says that a crossed pair converges under any frame ordering and that a dial
  racing between the two lock regions of a frame is abandoned. What is abandoned is the ClientHello.
  `GlareModel.ConvergesExactlyUnlessOvertaken` proves when a pair converges: if and only if the lower
  id, about to register the server circuit it has accepted, never finds the key taken by a dial of its
  own (the guard at `src/relay.rs:874`). Otherwise both ends stay clients, and
  `GlareModel.SplitFrameCanLeaveTwoClients` is such a run. The same race at the higher id does no harm.
- `src/fast_connect.rs:564-566` says that each rapid death doubles the wait up to the cap. At
  exactly 64 rapid deaths the shift drops every bit and the wait falls back to 50 ms.
  `Backoff.FallbackWaitClosedForm` states the wait for every count.
- `src/mux.rs:1126-1127` says that end of stream is reported only at a frame boundary. A stream cut
  one to three bytes into a length prefix is reported in the same way;
  `Framing.CutStreamDecodesToAPrefix` says exactly when.

## Assumptions

- Peer ids are compared as strings, as the code does. For equally long lower-case hex that is
  numeric order.
- A notification wakes exactly the waits created before it was sent, which is what tokio promises
  for `Notified` and `notify_waiters`.
- A two-node run starts from any two nodes that hold no circuit to each other and have no ClientHello
  on the way, whatever they did before. The relay puts no ClientHello of its own in a partner's name.
- Convergence further assumes that no circuit held between the two is ended by its own drop, by a
  session reset or by a dial after going stale, that the lower id's responder is on when it yields, and
  that a ClientHello finds accept room when it is registered. Sessions may otherwise be reset at will.
- That the two ends are never both servers needs less: only that the higher id, when it gives up a
  circuit it has dialled, does so in a settled state. Settled means that no ClientHello of its own is
  pending and, if the lower id serves, none of the lower id's either. The condition is exact: giving up
  a dial in any other state leads to two servers in some continuation in which nothing more is given up
  (`GlareSafety.UnsettledAbandonmentLeadsToTwoServers`). A ClientHello in flight may be delivered after
  a session reset in the model; when both ends are up that continuation resets no session.
- Direct establishers yield connections of a direct tier and the relayed one relayed connections.
- The body codec of `Framing` inverts itself. Nothing else is assumed of it, and
  `FrameText.FrameCodecInverts` proves it for range frames.

## Model

| member | source | states |
|---|---|---|
| Circuit.LessIsTotal | src/relay.rs:786 | Of two distinct ids exactly one is the lower, so both ends of a glare apply the tie-break the same way. |
| RelayStatusModel.RelayStatus.constructor | src/relay.rs:439-441 | A fresh status is disconnected, has no circuit, no handle and no accept channel. |
| RelayStatusModel.RelayStatus.InsertEntry | src/relay.rs:687-711 | Registers a circuit under a new id with a new, empty inbox, stamped now, over whatever held the key. |
| RelayStatusModel.RelayStatus.OpenTunnel | src/relay.rs:617-666 | A dial is refused for want of a session, for a self-dial or for a circuit active within 30 s, in that order, and then changes nothing; otherwise it registers a client circuit. |
| RelayStatusModel.RelayStatus.TrySend | src/relay.rs:819-824 | A payload is queued on one inbox if that handle lives and holds fewer than 256 unread payloads, and is lost otherwise. |
| RelayStatusModel.RelayStatus.CloseTunnel | src/relay.rs:912-917 | Deregistration removes the entry only if it still carries the given id. |
| RelayStatusModel.RelayStatus.DropHandle | src/relay.rs:1062-1066 | Dropping a handle deregisters its own registration and frees its inbox. |
| RelayStatusModel.RelayStatus.AcceptIntroduced | src/relay.rs:842-906 | Inserting, feeding the opening frame and surfacing, with the drop of the new tunnel when the queue is full or closed, add up to: a server circuit holding exactly its opening frame, or only an id spent. |
| RelayStatusModel.RelayStatus.RouteRelayed | src/relay.rs:731-826 | The whole routing decision, with stamping, glare tie-break, yield and accept, has the net effect the run proofs use. |
| RelayStatusModel.RelayStatus.ClearTransport | src/relay.rs:601-604 | A reset drops the outbound sink and every circuit; handles live on. |
| RelayStatusModel.RelayStatus.EnableAccept | src/relay.rs:593-597 | Turning the responder on installs an empty, open accept channel. |
| RoutingRules.ClientHelloIsExactlyThatRecord | src/relay.rs:171-173 | A payload opens a handshake exactly when it is a TLS record of type 22 whose first message is of type 1. |
| RoutingRules.BelowExactlyWhen | src/relay.rs:786 | Ids are ordered at their first difference, and a proper prefix comes first. |
| RoutingRules.OversizedAndOwnFramesAreDropped | src/relay.rs:732-753 | A frame above 1,048,576 bytes or stamped with the node's own id changes nothing. |
| RoutingRules.CircuitsReceiveWhatIsNoCompetingHello | src/relay.rs:775-785 | On a server circuit any payload, on a client circuit any but a ClientHello, is queued while fewer than 256 are unread; the circuit keeps its role and id and is stamped, and nothing else changes. |
| RoutingRules.OtherRecordsOpenNothing | src/relay.rs:852-863 | A stranger's payload that is no ClientHello leaves the node as it was. |
| RoutingRules.ClientHelloOpensACircuit | src/relay.rs:842-906 | A stranger's ClientHello opens a server circuit holding it while the responder is on, fewer than 256 circuits are held and fewer than 64 tunnels wait; otherwise it leaves at most a spent id. |
| RoutingRules.CompetingHelloIsIgnored | src/relay.rs:786-801 | The higher id, or a node with its responder off, only stamps its client circuit. |
| RoutingRules.CompetingHelloIsTakenUp | src/relay.rs:802-810 | The lower id drops its client circuit and treats the sender as a stranger. |
| RoutingRules.DialOutcome | src/relay.rs:617-666 | Which of the three refusals a dial gets, with the 30 s window, and exactly what it registers otherwise. |
| RoutingRules.OtherEventsOutcome | src/relay.rs:593-604 | What drops, receipts, the acceptor and the session's phases change, and that they change nothing else. |
| CircuitRuns.StepKeepsInv | src/relay.rs:617-917 | Every step of a node keeps ownership, the accept-path bounds and the absence of a self-keyed entry. |
| CircuitRuns.RunsAreSafe | src/relay.rs:617-917 | Over every run: each entry has a live handle with its id and target, ids stay below the counter, server circuits number at most 256 and begin with a ClientHello, the accept queue holds at most 64, inboxes at most 256 unread, and no entry is keyed by the node's own id. |
| CircuitRuns.IdsAreUnique | src/relay.rs:682-695 | Two entries never share a registration id. |
| CircuitRuns.SurfacedTunnelsStartWithTheirHello | src/relay.rs:842-906 | Every tunnel ever surfaced was opened by an earlier routed ClientHello from its target; queued or taken by the consumer, for as long as it lives that frame is the first payload in its inbox. |
| CircuitRuns.FrameDisplacesExactlyWhen | src/relay.rs:764-817 | A relayed frame ends a circuit if and only if it is its peer's competing ClientHello and this node, the lower id with the responder on, yields. |
| CircuitRuns.DisplacedExactlyWhen | src/relay.rs:601-917 | A step ends a circuit if and only if it is its own handle's drop, a lower-id glare yield, a session reset, or a dial to that peer after 30 s of silence. |
| CircuitRuns.SupersededDropIsHarmless | src/relay.rs:908-917 | Dropping a handle that backs no entry leaves the table as it was. |
| CircuitRuns.StepPersists | src/relay.rs:687-826 | Inboxes keep their target and only grow, an entry with an old id was there before and is no less recently active, and a new entry is stamped now. |
| CircuitRuns.ActivityAtLeast | src/relay.rs:775-777 | A circuit registered or heard from at some step and still held later was held throughout, with a stamp no older than that step. |
| CircuitRuns.StampIsWhenHeard | src/relay.rs:687-704 | The stamp of a held circuit is the time of some earlier registration of it or frame for it. |
| CircuitRuns.HeardCircuitSurvivesDial | src/relay.rs:642-647 | A circuit registered or heard from within 30 s before a dial to its peer survives that dial, whatever happened in between. |
| CircuitRuns.DialDisplacesExactlyTheSilent | src/relay.rs:642-665 | Over every run, a dial on a live session displaces its target's circuit if and only if that circuit was neither registered nor heard from in the last 30 s. |
| CircuitRuns.QueuedExactlyWhen | src/relay.rs:731-824 | An inbox gains a payload exactly when an admissible frame from its peer finds its circuit in the table, is no glare ClientHello, and finds room. |
| CircuitRuns.InboxesHoldOnlyTheirPeersFrames | src/relay.rs:713-726 | Over every run, what a tunnel has been given is a subsequence of the frames its own peer sent, in order. |
| RelayThreads.StepKeepsSound | src/relay.rs:617-917 | Every lock region, taken as one step among any number of threads, keeps registration ownership and the exclusive ownership of handles. |
| RelayThreads.RegistrationIsOwned | src/relay.rs:682-917 | In every interleaving of lock regions, ids in the table are distinct, below the counter and backed by a live handle for that peer, and a handle about to be freed backs none. |
| RelayThreads.CapsHold | src/relay.rs:731-906 | In every interleaving of lock regions server circuits number at most 256, the accept queue holds at most 64, and no circuit is registered under the node's own id. |
| RelayThreads.SupersededDropRemovesNothing | src/relay.rs:908-917 | In every such run a drop removes exactly the entries carrying its own id; a newer registration under the same peer stays as it is. |
| RelayThreads.UninterruptedIsAtomic | src/relay.rs:617-917 | Whenever a thread carries a dial, a relayed frame, a drop or a reset through from idle to its first idle moment with no other step in between, its lock regions, the three reads before a dial among them, end in exactly the node that the atomic operation gives. |
| RelayThreads.OperationsCanFinish | src/relay.rs:731-906 | From any reachable state any thread can carry its operation through, in at most six more lock regions. |
| RelayThreads.RegionsActOnTheTableAsItStands | src/relay.rs:682-906 | Whatever other threads changed since an operation began, its dial, registration, first payload and surfacing go by the table, inbox and queue at their own lock region: the payload reaches whichever circuit stands under the peer then. |
| GlareModel.HelloSetsRole | src/relay.rs:778-816 | A ClientHello that finds accept room leaves the receiver client if it was client and has the higher id, and server otherwise. |
| GlareModel.HigherNeverYields | src/relay.rs:786-793 | The higher id keeps its client circuit whatever arrives from its partner. |
| GlareModel.ActingSetsRole | src/relay.rs:617-817 | On its own a node becomes client of its partner only by dialling and never its server, and keeps its role unless the circuit is ended. |
| GlareModel.ActingKeepsFirstPayload | src/relay.rs:731-826 | A server circuit that is not ended keeps the payload its inbox began with. |
| GlareModel.RunsConverge | src/relay.rs:617-906 | Over every calm run, lock regions split or not, the higher id's one hello is in exactly one place: on the way, first in the inbox the lower serves, or lost to a dial of the lower id; and while only the lower id has dialled, its hello is on the way or first in the inbox the higher serves. |
| GlareModel.ConvergesExactlyUnlessOvertaken | src/relay.rs:872-878 | Once a dial has been made and no ClientHello is pending, one end is client and the other server if and only if the lower id never found its own dial under the key it was about to register; otherwise both are clients. The ends hold halves of one circuit: the server's inbox begins with the one ClientHello the client sent. |
| GlareModel.GlareConverges | src/relay.rs:721-730 | With one frame per step every calm run converges to one client and one server holding halves of one circuit; the lower id serves exactly when the higher dialled, so always when both did. |
| GlareSafety.AbandonmentIsSafeExactlyWhenSettled | src/relay.rs:1062-1066 | From a safe state, the higher id's giving up of its dial leaves a safe state if and only if no ClientHello that matters is pending. |
| GlareSafety.NeverTwoServers | src/relay.rs:764-887 | The two ends are never both servers, lock regions split or not, whatever the lower id does, so long as the higher gives up a circuit it has dialled only in a settled state. |
| GlareSafety.UnsafeLeadsToTwoServers | src/relay.rs:764-906 | From every unsafe state, held hellos and a client circuit at the lower id included, some run in which the higher id gives up nothing more ends with two servers; it resets no session if both ends are up. |
| GlareSafety.SafeExactlyWhenNeverTwoServers | src/relay.rs:764-906 | The safe states are exactly those from which no run without further abandonment reaches two servers. |
| GlareSafety.UnsettledAbandonmentLeadsToTwoServers | src/relay.rs:802-815 | After any run, giving up a dial in an unsettled state leads to two servers in some such continuation. |
| GlareModel.SplitFrameCanLeaveTwoClients | src/relay.rs:872-878 | From any pair at rest there is a calm run, overtaken at the lower id, that ends with both ends clients and nothing pending. |
| GlareModel.RestIsReachable | src/relay.rs:553-597 | Two fresh nodes reach such a pair. |
| GlareModel.BothDial | src/relay.rs:617-666 | From any pair at rest both ends can dial before either ClientHello arrives, which is where the next witness starts. |
| GlareSafety.DroppedDialCanLeaveTwoServers | src/relay.rs:802-815 | A short instance: from any pair at rest both dial, the higher id drops its dial while both hellos are in flight, both arrive, and both ends are servers. |
| ChunkLens.SplitIsTiling | src/mux.rs:523-529 | The pages of a layout are exactly its aligned slots of 2,048 entries, in order, the last one shorter. |
| ChunkLens.EachBrokenRuleHasItsError | src/mux.rs:994-1040 | Which error a page gets, with which fields, for the first rule it breaks. |
| ChunkLens.AcceptedExactlyWhenFits | src/mux.rs:994-1040 | A page is accepted if and only if its offset names an unfilled aligned slot and its length is that slot's. |
| ChunkLens.PlacingKeepsOtherSlots | src/mux.rs:1042-1044 | An accepted page fills its own slot with exactly its entries and leaves every other slot alone. |
| ChunkLens.FeedKeepsExactlyTheAcceptedPages | src/mux.rs:994-1046 | Over any page sequence the array holds exactly the accepted pages, intact and once each, the fill count matches the flags, and the filled slots hold the accepted total. |
| ChunkLens.IncompleteReportsTheAcceptedLength | src/mux.rs:1061-1079 | An incomplete assembler reports as `have` the total length of the pages it accepted. |
| ChunkLens.YieldsLayoutIffItsPagesWereAccepted | src/mux.rs:994-1079 | An assembler yields a layout if and only if the pages it accepted are that layout's pages, in some order. |
| ChunkLens.RoundTripInAnyOrder | src/mux.rs:511-529 | Feeding a layout's pages in any permutation, with rejected pages interleaved anywhere, accepts exactly those pages and yields exactly that layout. |
| ChunkLens.ChunkLensAssembler.constructor | src/mux.rs:978-982 | A new assembler has as many zero entries and unfilled slots as the count demands. |
| ChunkLens.ChunkLensAssembler.New | src/mux.rs:955-983 | A count above 1,048,576 is refused before anything is reserved, and a failed reservation is an error. |
| ChunkLens.ChunkLensAssembler.AcceptPage | src/mux.rs:994-1046 | Reports the first rule a page breaks and then changes nothing; otherwise places it in the array. |
| ChunkLens.ChunkLensAssembler.IntoChunkLens | src/mux.rs:1061-1079 | Yields the array when every slot is filled, and otherwise the count of entries held in filled slots. |
| FrameBudget.DecimalWidth | src/mux.rs:698-709 | A number prints in at most k digits exactly when it is below 10^k. |
| FrameBudget.Base64Length | src/mux.rs:243-252 | Base64 (section 4 of RFC 4648) prints four characters for every three bytes, the last group padded. |
| FrameBudget.EscapeFreeIsVerbatim | src/mux.rs:201-211 | A string with nothing to escape prints as itself in JSON. |
| FrameBudget.BodyBound | src/mux.rs:684-725 | With n entries of at most six digits the body is at most 48,134 + 7n bytes (48,135 when n is 0), and exactly that at the maxima. |
| FrameBudget.EncodeRefusesExactly | src/mux.rs:582-606 | Which frames are refused and why: a payload above 32,768 bytes or a proof above 4,096 even if the body would fit, else a body above 65,536. |
| FrameBudget.BoundedFrameEncodes | src/mux.rs:582-607 | Every frame within the premises that states at most 2,486 entries encodes within 65,536 bytes. |
| FrameBudget.BoundIsExactAtTheMaxima | src/mux.rs:711-727 | With every premise at its maximum a frame encodes if and only if it states at most 2,486 entries, and 2,486 fill the body to the last byte. |
| FrameBudget.MaximaAreAttained | src/mux.rs:719-729 | Frames at the maxima exist for every entry count. |
| FrameBudget.EveryPageFitsAFullFrame | src/mux.rs:737-742 | Every page of a split layout encodes beside a full payload, a full proof and any scalars. |
| FrameText.Base64IsRead | src/mux.rs:243-252 | Base64 text (section 4 of RFC 4648) gives back the bytes it was made from. |
| FrameText.StringIsRead | src/mux.rs:201-211 | An escaped string in quotes gives back the string, whatever characters it holds. |
| FrameText.DecimalIsRead | src/mux.rs:172-174 | A printed number is read back. |
| FrameText.BodyReadsBack | src/mux.rs:169-231 | The printed body of any frame, any options present, reads back as exactly that frame. |
| FrameText.EncodingIsInjective | src/mux.rs:582-607 | Two frames that encode alike are alike. |
| FrameText.FrameCodecInverts | src/mux.rs:1089-1149 | The assumption of the framing proofs holds of range frames. |
| FrameText.FramesReadBack | src/mux.rs:610-612 | A stream of range frames reads back as those frames, and cut anywhere as those that arrived whole. |
| Framing.PrefixIsBigEndian | src/mux.rs:1102-1105 | A frame is four bytes that say the length of the body, most significant first, and the body of at most 65,536 bytes. |
| Framing.EncodingRefusal | src/mux.rs:1089-1101 | A message is refused exactly when it cannot be printed or its body exceeds 65,536 bytes. |
| Framing.ReaderOutcome | src/mux.rs:1128-1149 | What a reader makes of any bytes: a length above 65,536 is refused, a short or malformed body is an error, a short prefix is the end. |
| Framing.BigEndianInverts | src/mux.rs:1103 | The four-byte prefix determines the length. |
| Framing.DecodesFirst | src/mux.rs:1089-1149 | An encoded message is read back first, and what follows it is left untouched. |
| Framing.CutFrameNeverDecodes | src/mux.rs:1128-1148 | A strict prefix of a frame reads as end of stream within the length prefix and as an error within the body. |
| Framing.StreamRoundTrip | src/mux.rs:1089-1149 | The concatenation of any encodable messages decodes to that list and then end of stream. |
| Framing.CutStreamDecodesToAPrefix | src/mux.rs:1126-1149 | A stream cut anywhere decodes to exactly the messages that arrived whole, then end of stream if fewer than four bytes are left over, and an error otherwise. |
| Framing.ByteStream.ReadExact | src/mux.rs:1132-1145 | Reads exactly the bytes asked for, or consumes what is left and reports an unexpected end. |
| Framing.ByteStream.DecodeFramedOpt | src/mux.rs:1128-1149 | Reading one message from a stream has the three outcomes the round trip is proved about, and leaves the rest of the stream. |
| FastConnect.ConnectFastWith | src/fast_connect.rs:348-433 | A connection is refused if and only if both tiers fail; otherwise it starts on the first usable transport, the guard awaits a promotion exactly when that is the relayed one, and falls back exactly when a relay tier is wired. |
| FastConnect.HolderKeepsSessionAlive | src/fast_connect.rs:136-152 | While anything refers to a slot its session is alive, and a live stream is always counted. |
| FastConnect.StepKeepsInv | src/fast_connect.rs:145-653 | Every step of openers, streams, guard and drains keeps the counters exact, the reserved references in role, the replacement history proper and every parked wait justified. |
| FastConnect.RunsAreSound | src/fast_connect.rs:348-653 | All of that holds throughout every run, from whatever the race of the two tiers produced. |
| FastConnect.SessionOutlivesItsStreams | src/fast_connect.rs:136-219 | In every run a slot's session outlives every stream on it, `outstanding` is the number of its live streams, and dropping one never underflows it, even after the grace cap. |
| FastConnect.StreamsNeverMigrate | src/fast_connect.rs:205-219 | No stream ever changes slot, and a released reference never comes back. |
| FastConnect.ExpectedNeverChanges | src/fast_connect.rs:125-127 | The verified identity is the same at every step of a run. |
| FastConnect.ActiveTraceHasItsShape | src/fast_connect.rs:489-631 | The active methods read D R* or R D? R*, so there is at most one promotion; a slot was replaced only by a direct one with the expected id and the replaced slot's key that passed the gate, or by a relayed one after closing. |
| FastConnect.GuardOutlivesEveryRedial | src/fast_connect.rs:499-554 | With a relay tier the guard outlives every promotion and every re-dial: it is gone only after a re-dial failed or the connection was dropped. |
| FastConnect.ClosedTransportIsRedialed | src/fast_connect.rs:527-543 | Past the promotion phase the guard watches exactly the newest slot, and once that has closed it can act and is at most two steps from re-dialling. |
| FastConnect.EveryPhaseLeadsToFallback | src/fast_connect.rs:497-549 | Every end of the promotion phase, and every re-dial that lands, leads on to the watch for the next death. |
| FastConnect.PromotionDrainsTheRelayedSlot | src/fast_connect.rs:615-632 | When the probe is answered the one slot there was is relayed, and the reference the gate held on it passes to its drain. |
| FastConnect.NoOutcomeIsRefused | src/fast_connect.rs:497-552 | Whatever the guard awaits may turn out either way, with any connection of the right tier; a transport may close at any time and then is closed; a stream can be opened as long as the connection is held. |
| FastConnect.GatePassesExactlyTheSamePeer | src/fast_connect.rs:587-603 | A direct connection goes on to the probe exactly when it is to the expected peer and carries the key of the slot it would replace. |
| FastConnect.StreamLifeCycle | src/fast_connect.rs:145-219 | A stream is counted once and counted out once, and exactly the last one out notifies the drain. |
| FastConnect.ParkedDrainHasLiveStreams | src/fast_connect.rs:636-653 | A drain parked with no notification sent or about to be sent waits for a stream that is still live. |
| FastConnect.DrainHoldsUntilDue | src/fast_connect.rs:633-653 | A drain lets go of the swapped-out slot only when the grace cap fires or no live stream is left on it. |
| FastConnect.DroppedConnectionLetsGo | src/fast_connect.rs:257-265 | After the connection is dropped its guard can be aborted with the gate's reference, and then the reference to the active slot can be released. |
| FastConnect.GraceCapReleases | src/fast_connect.rs:647-652 | When the grace cap fires a waiting drain lets go, streams or not. |
| FastConnect.DrainEndsWithItsStreams | src/fast_connect.rs:145-152 | Once the last stream has gone and notified, a drain can act without waiting for the cap and is at most two actions from letting go. |
| FastConnect.NewStreamsUseTheNewestSlot | src/fast_connect.rs:208-219 | A stream opens only on a connection still held, and on the slot installed last. |
| FastConnect.SwappedExactlyWhen | src/fast_connect.rs:543-625 | The active slot changes exactly when the gate's probe is answered or a re-dial lands, to that very connection; other slots keep theirs and close only with their transport. |
| ClosedHandleModel.RunsKeepInv | src/mux.rs:1209-1223 | For any number of waiters, the flag is up exactly when the driver has set it, a parked wait was armed before any notification, and a waiter returns only once the flag is up. |
| ClosedHandleModel.ParkedImpliesNotNotified | src/mux.rs:1385-1388 | A waiter parked with nothing to wake it means the driver has not yet notified. |
| ClosedHandleModel.WaitersReturnOnceNotified | src/mux.rs:1208-1223 | Once the driver has notified, every waiter can act and is at most two actions from returning. |
| ClosedHandleModel.DriverFinishes | src/mux.rs:1385-1388 | The driver is never held up between closing, raising the flag and notifying, and anyone can begin to wait at any time. |
| TunnelStream.RelayTunnelStream.constructor | src/tunnel.rs:49-55 | A new stream has nothing carried over. |
| TunnelStream.RelayTunnelStream.PollRead | src/tunnel.rs:59-85 | A read hands out the front of the oldest unread payload, loses and reorders nothing, and pends exactly when nothing has arrived on an open tunnel. |
| TunnelStream.RelayTunnelStream.Send | src/relay.rs:1016-1043 | A payload is sent if and only if it is within the cap, a local id is set and the sink is live, with the next number; each failure has its own error, and those of the sink spend a number. |
| TunnelStream.RelayTunnelStream.PollWrite | src/tunnel.rs:89-101 | On success a buffer of at most 1,048,576 bytes is shipped whole and its length reported, a longer one its first 1,048,576; a write never fails for its size. |
| TunnelStream.WritesShipWhatFits | src/tunnel.rs:94-98 | A write within 1 MiB goes out whole in one frame; a longer one ships its first 1 MiB. |
| TunnelStream.ForwardsDeliverWhileThereIsRoom | src/relay.rs:819-824 | A forwarded frame is delivered while fewer than 256 payloads are unread, and else lost. |
| TunnelStream.ReadsFillTheRoom | src/tunnel.rs:66-84 | A read hands out as much of the oldest unread payload as there is room for. |
| TunnelStream.ZeroReadExactlyWhen | src/tunnel.rs:66-84 | A read with room returns no bytes, which a reader takes as end of stream, exactly when the next payload is empty or there is none. |
| TunnelStream.ReadsArePrefixOfDeliveries | src/tunnel.rs:58-85 | Whatever the relay delivers or loses, empty payloads included, the bytes read are a prefix of the payloads delivered and the rest is still to be read. |
| TunnelStream.RunsConserve | src/tunnel.rs:58-101 | Over every run with a FIFO relay every written byte is delivered, on the way or lost, and a frame is lost exactly when one met a channel of 256 unread payloads. |
| TunnelStream.ReadsAreWritesExactlyUnlessOverflowed | src/tunnel.rs:18-24 | As long as no frame has met a full channel the bytes read are a prefix of the bytes written; once all is drained they are all of them if and only if none ever did. |
| TunnelStream.LostFrameGoesUnnoticed | src/relay.rs:820-824 | There is a run in which a frame meets a full channel and is lost, and the next read returns data as if it had never been sent. |
| TunnelStream.FramesFitAndReadsMakeProgress | src/relay.rs:732-739 | No frame exceeds the cap both ends check, and a read with room returns nothing only when every delivered byte has been read. |
| Descriptor.AppendAddresses | src/relay_descriptor.rs:80-85 | The address loop appends each printed address behind its length, in order. |
| Descriptor.SigningBytes | src/relay_descriptor.rs:74-99 | What is signed is the encoding that the parser inverts. |
| Descriptor.EncodingBeginsWithItsContext | src/relay_descriptor.rs:74-76 | The signed bytes begin with `dig-nat/relay-descriptor/v1` in ASCII. |
| Descriptor.EncodingLayout | src/relay_descriptor.rs:76-80 | Where hash, key and the number of addresses stand, the number least significant byte first. |
| Descriptor.PrefixedLayout | src/relay_descriptor.rs:82-88 | Each string stands behind its length in four bytes, least significant first. |
| Descriptor.EncodingEnds | src/relay_descriptor.rs:87-97 | The signed bytes end with the network id and a byte 0, or a byte 1 and the DID. |
| Descriptor.TakeStringsInverts | src/relay_descriptor.rs:80-85 | The parser recovers a list of addresses and leaves what follows. |
| Descriptor.ParseInvertsEncoding | src/relay_descriptor.rs:74-99 | A parser recovers every field from the signed bytes. |
| Descriptor.EncodingIsInjective | src/relay_descriptor.rs:69-73 | Two descriptors with the same signed bytes agree on hash, key, printed addresses, network id and DID. |
| Traversal.RankIsPlaceInLadder | src/method/mod.rs:63-72 | A tier's rank is its place in the list Direct, UPnP, NAT-PMP, PCP, hole punch, relayed. |
| Strategy.TryMeansBothStages | src/strategy.rs:75-112 | A method connects exactly when it yields an address in time and the dial to it succeeds in time; a stage that runs out of time fails as such for that tier. |
| Strategy.SortIsStable | src/strategy.rs:69-71 | The sorted list holds every method once, lower rank first and ties in the caller's order. |
| Strategy.WinnerIsFirst | src/strategy.rs:75-97 | If everything before a position of that order failed and it succeeded, it is the first success and the prefix up to it is everything that precedes it. |
| Strategy.ConnectWithStrategy | src/strategy.rs:59-100 | The winner is the earliest of all methods that would connect, by tier in the list direct first, relayed last, then by the caller's order; exactly the methods up to it are tried, in that order; a relayed one only after every other tier has failed; and when all fail there is one reason per method. |
| Backoff.BackoffSecsClosedForm | src/relay.rs:200-209 | `backoff_secs(n)` is min(300, 5 * 2^n) for every n, in spite of dropped bits. |
| Backoff.FallbackWaitClosedForm | src/fast_connect.rs:567-574 | For n >= 1 the wait is within 50 ms and 5 s and is min(5000, 50 * 2^(n-1)) ms, except 50 ms at n = 64. |
| Backoff.NoRapidDeathNoWait | src/fast_connect.rs:568-570 | A transport that was held stably is re-dialled at once. |
| Backoff.FailureStreakMeans | src/relay.rs:1135-1143 | The streak that sets a delay is the longest run of failures ending with that session. |
| Backoff.RapidStreakMeans | src/fast_connect.rs:532-537 | The streak that sets a wait is the longest run of transports that lived less than ten seconds. |
| Backoff.SaturationIsInvisible | src/fast_connect.rs:533-537 | Saturating either failure counter at 2^32 - 1 changes no delay. |
| Backoff.RunRelayConnection | src/relay.rs:1132-1148 | Over any sequence of sessions, each delay is min(300, 5 * 2^k) seconds for the k-th failure in a row. |
| Backoff.FallbackLoop | src/fast_connect.rs:526-553 | Each re-dial waits for its streak of rapid deaths, and k re-dials take at least k * 50 ms, whatever dies when. |
| Discovery.EachNoticeTakesEffect | src/relay.rs:1429-1431 | A peer that comes online is appended exactly when there is room and its id is new; a list replaces everything with its first 1,024 distinct ids, in order; a peer that goes is taken out and the rest stay in order. |
| Discovery.VisibleExactlyTheLastAnnounced | src/relay.rs:1291-1431 | After any run only peers announced and not retracted since are visible and, while the list was never full, all of them. |
| Discovery.FirstOccurrencesPick | src/relay.rs:311-317 | The distinct peers of a list are those whose id nobody before them has, in order. |
| Discovery.ReplaceKeepsFirstDistinct | src/relay.rs:311-317 | Replacing the set keeps the first 1,024 distinct ids, in order. |
| Discovery.RemoveDropsExactly | src/relay.rs:304-308 | Removal drops exactly the named peer and keeps the others distinct. |
| Discovery.RunsStayWellKept | src/relay.rs:285-317 | Over any run the list is free of duplicates and at most 1,024 long. |
| Discovery.OnlyTheCurrentSessionShows | src/relay.rs:1291-1294 | The visible list is the fold of the messages since the session began; nothing before it shows. |
| Discovery.DiscoveredPeers.constructor | src/relay.rs:285-289 | A new set is empty. |
| Discovery.DiscoveredPeers.InsertPeer | src/relay.rs:294-301 | Inserts unless full or known, keeping vector and id set in lockstep. |
| Discovery.DiscoveredPeers.RemovePeer | src/relay.rs:304-308 | Removes from both vector and id set. |
| Discovery.DiscoveredPeers.Clear | src/relay.rs:319-322 | Empties both. |
| Discovery.DiscoveredPeers.Replace | src/relay.rs:311-317 | Leaves what inserting each listed peer in turn into an empty set leaves. |
| Discovery.DiscoveredPeers.HandleNotice | src/relay.rs:1429-1431 | Each relay message changes the set in place as stated there in plain terms. |

## Left out

- FastConnect.StepKeepsInv: slots, references and the guard are values stepped by a state machine and not objects updated in place, because the claims are about every interleaving of concurrent tasks; atomics are taken to be sequentially consistent.
- FastConnect.ActiveTraceHasItsShape: says nothing about the keys of slots installed by the fallback, which the guard does not compare (src/fast_connect.rs:543-548).
- FastConnect.ConnectFastWith: how the reasons of two failed attempts are merged into one error, and the notifications to subscribers, are not modelled.
- ClosedHandleModel.RunsKeepInv: the driver and its waiters are values stepped by a state machine, for the same reason.
- RelayThreads.RegistrationIsOwned: a surfaced tunnel goes to the accept channel current at that moment; a responder turned on again between the clone of the sender and its use is not modelled.
- RelayStatusModel.RelayStatus.InsertEntry: ids are unbounded; wrap-around after 2^64 registrations is not modelled. The same holds for the sequence numbers of `TunnelStream.RelayTunnelStream.Send`.
- TunnelStream.ReadsAreWritesExactlyUnlessOverflowed: writes are non-empty and the relay is FIFO and forwards every frame; `TunnelStream.ZeroReadExactlyWhen` says what an empty payload does to a reader, and `TunnelStream.ReadsArePrefixOfDeliveries` assumes nothing of the relay.
- GlareModel.GlareConverges: a ClientHello sent again after a HelloRetryRequest on the same circuit is not modelled.
- FrameBudget.BoundedFrameEncodes: encoding is modelled up to the body; the four-byte prefix is modelled in `Framing`.
- Framing.StreamRoundTrip: for messages other than range frames a codec that inverts itself stands for the JSON parser. `decode_framed`, which differs from the modelled reader only in reporting a missing prefix as an error, is left out.
- FrameText.BodyReadsBack: the reader reads what the encoder prints; white space, other spellings of numbers and strings, and the byte-array form of the payload that a tolerant reader also takes are not modelled.
- Descriptor.ParseInvertsEncoding: lists and strings of 2^32 elements or more, whose lengths the cast truncates.
- Backoff.RunRelayConnection: how long a session lasts. One warning per outage is not claimed: the loop reports connecting before every attempt (src/relay.rs:1134).
- mTLS, certificates, BLS and SHA-256, and with them `verify_relay_descriptor`: foreign calls; a dial is an oracle.
- yamux, happy-eyeballs racing and the STUN codec: they live in other crates.
- Sockets, WebSocket I/O, DNS, UPnP and environment variables: plumbing.
- NAT-PMP and PCP packets: fixed offsets, which would add only easy members.
- `safe_text`, the config builders and the setters of the wire types: single-branch facts.
- Keepalive pings, DHT record queries and the fatal error codes in `handle_incoming`: constants and forwarding.
