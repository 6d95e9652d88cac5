# Verified models of the tunnel's data path and the panel's accounting

SR-PA is a VPN panel that ships its own AmneziaWG kernel module. This project models the parts of both whose
correctness is hardest to see from the code, and proves what they promise:

- **Routing** (`BitKeys`, `AllowedIps`): the path-compressed trie of allowed IPs, on the heap and rewritten in
  place, answers every lookup as a longest-prefix search of a plain map would, over every run of insertions,
  deletions, forgotten peers and resets.
- **Queueing** (`PrevQueue`): the intrusive many-producer queue, one atomic step at a time, is a FIFO under every
  interleaving; a packet is let in exactly while fewer than 1024 are counted, and a dequeue finds the first packet
  exactly when it is ready.
- **Transport** (`ReplayWindow`, `Transport`): the ring of replay bits decides exactly what a window over the set of
  accepted numbers would; concurrent senders never reuse a nonce and no packet is delivered twice.
- **Handshake** (`Hkdf`, `Noise`, `NoisePattern`, `NoiseHandshake`): HMAC and HKDF as RFC 2104 and RFC 5869 define
  them, the exchange over abstract primitives, its equality with the pattern IKpsk2 as the Noise Protocol Framework's
  token rules carry it out, and the objects that perform it.
- **Keys** (`Keypairs`, `IndexTable`): the three-slot rotation, said from what happened and not from the slots, and the
  32-bit index table, over every run and every interleaving of inserters.
- **Admission** (`RateLimiter`, `Leases`): the token bucket, which decides each packet exactly by the quota of five and
  twenty a second over the answers before it, its sweep and its races; and the OpenVPN device slots kept as lease files,
  release markers and stale status snapshots.
- **Disguise** (`Headers`, `JunkPackets`): header ranges as text and on the wire, and the compiler from tag
  descriptions to packet templates.
- **Accounting** (`Traffic`, `NodeNames`, `Usage`, `ProtoFields`): the node's traffic meter, the names and the usage
  figure of a subscription, and the hand-written protobuf encoder.

`Basics` and `Decimals` hold what several modules share. `dafny verify dfyconfig.toml` checks everything.

Conventions. Time, randomness, memory and the network are parameters or nondeterministic events. Code that updates
objects in place is a class whose methods are proved against functions on values; where the difficulty is
interleaving, the code is a state machine over its atomic steps, and the theorems quantify over all its runs.
Integers are unbounded unless a width is written out. Where a promise turned out not to hold of the code, the code
is kept, a lemma shows a failing family of inputs or a failing run, and another states exactly when the promise
holds:

| promise | fails in | holds exactly when |
|---|---|---|
| three index entries per peer | `Keypairs.FourthEntry` | `Keypairs.TidyExactly`, `Keypairs.ThreeExactly` |
| an initiation is let through once | `NoiseHandshake.AdmittedTwice` | `NoiseHandshake.OnceExactly` |
| a burst of five, then the steady rate | `RateLimiter.DuplicatesPass`, `RateLimiter.LatePass` | `RateLimiter.RateBound` counts the exceptions, `RateLimiter.BoundMet` reaches it |
| sweeping the limiter is invisible | `RateLimiter.SweepShows`, `RateLimiter.SweepMakesRoom` | `RateLimiter.InvisibleExactly` |
| a packet is taken for its own type | `Headers.FarApartMisread` | `Headers.RecoveredExactly` |
| a template's slices lie in its packet | `JunkPackets.WrappedAccepted` | `JunkPackets.InBoundsExactly` |
| a device that hung up can redial | `Leases.RedialAcrossRefused` | `Leases.RedialExactly`, `Leases.RefusedExactly` |
| no name is acknowledged beyond what it was served | `Traffic.OverCredited` | `Traffic.OverCreditExactly`; what the panel books beyond that is in `Traffic.PanelBooks` |
| a restart of the core loses no bytes | `Traffic.RestartLoss`, by what the counter stood at | `Traffic.RestartLoss` |
| two levels of folding are one | `Usage.NegativeTotalsDiffer` | `Usage.AgreeExactly` |

## Model

| member | source | states |
|---|---|---|
| `BitKeys.CommonBitsSpec` | awgsrc/src/allowedips.c:82-97 | the xor-and-find-last-set computation, one word for IPv4 and two for IPv6, gives exactly the length of the common prefix |
| `BitKeys.CommonBitsIff` | awgsrc/src/allowedips.c:99-109 | a prefix of length n matches an address exactly when the common bits reach n |
| `BitKeys.ChoosesNextBit` | awgsrc/src/allowedips.c:13-39 | the byte index and shift kept in a node, on host-order words of either family, pick the bit of the key that follows the node's prefix |
| `AllowedIps.Table.FindNode` | awgsrc/src/allowedips.c:111-125 | the descent finds the deepest owned node on the address's path, and never asks a full-length node for its next bit |
| `AllowedIps.Table.Lookup` | awgsrc/src/allowedips.c:127-147 | the peer returned is the one a search of the route map finds trying every prefix length, longest first |
| `AllowedIps.FoundIsLongest` | awgsrc/src/allowedips.c:111-147 | in every well-formed trie the node found by descent carries the longest matching route, and none is found exactly when no route matches |
| `AllowedIps.Table.NodePlacement` | awgsrc/src/allowedips.c:149-167 | exact exactly when a node stands for the prefix; otherwise the parent is the last node above the place, and what hangs there neither covers nor equals the prefix |
| `AllowedIps.Table.Add` | awgsrc/src/allowedips.c:181-250 | the route map gains exactly the prefix with its owner, all invariants kept; EINVAL exactly for an over-long prefix or no peer; ENOMEM exactly when fewer nodes can be had than the routes call for; in either case nothing changes |
| `AllowedIps.LeafShape` | awgsrc/src/allowedips.c:212-221 | hanging a leaf in an empty place keeps the trie well formed |
| `AllowedIps.AboveShape` | awgsrc/src/allowedips.c:222-232 | inserting a covering node between a parent and its child keeps the trie well formed |
| `AllowedIps.BranchShape` | awgsrc/src/allowedips.c:234-249 | splitting an edge with an ownerless branch node above two children keeps the trie well formed |
| `AllowedIps.Table.RemoveNode` | awgsrc/src/allowedips.c:252-281 | removing a node's owner, then the node and its ownerless parent where they have become redundant, drops exactly that route and keeps every invariant |
| `AllowedIps.WithoutRoutes` | awgsrc/src/allowedips.c:252-281 | the trie after removal represents the route map less that node's prefix |
| `AllowedIps.Table.Remove` | awgsrc/src/allowedips.c:283-296 | a route goes exactly when the prefix is there and owned by the given peer; anything else changes nothing |
| `AllowedIps.Table.RemoveByPeer` | awgsrc/src/allowedips.c:371-381 | exactly the peer's routes go and its list is left empty |
| `AllowedIps.Bereft` | awgsrc/src/allowedips.c:371-381 | the routes a peer owns are the prefixes of the nodes on its own list, so walking the list removes them all |
| `AllowedIps.Table.FreeAll` | awgsrc/src/allowedips.c:304-325 | both tries and every peer's list end up empty, and every node of both is given back exactly once |
| `AllowedIps.Table.FreeTrie` | awgsrc/src/allowedips.c:56-67 | the freeing walk, on the same stack, gives back each node of a trie that has been cut off exactly once |
| `AllowedIps.Table.RemovePeerLists` | awgsrc/src/allowedips.c:69-80 | the walk with an explicit stack of 129 slots visits every node of its trie once and takes it off its owner's list |
| `AllowedIps.WalkFits` | awgsrc/src/allowedips.c:41-49 | the stack never needs more than 129 slots |
| `AllowedIps.NodeCount` | awgsrc/src/allowedips.c:234-281 | n routes of a family are held by at most 2n - 1 nodes: no ownerless node with fewer than two children is left behind |
| `AllowedIps.Table.constructor` | awgsrc/src/allowedips.c:298-302 | a new table is empty, with sequence number 1 |
| `AllowedIps.Canonical` | awgsrc/src/allowedips.c:181-281 | a prefix has a node exactly when it is a route or two routes part there, whatever was inserted and removed on the way |
| `AllowedIps.NeededAt` | awgsrc/src/allowedips.c:198-249 | the place the descent ends at asks for two new nodes exactly when the prefix parts from some route at a point without a node, and otherwise for one |
| `AllowedIps.Serve` | awgsrc/src/allowedips.c:298-415 | over any run of operations on one table, with memory to be had or not, every operation reports the status and every lookup gives the answer that a plain map built by those operations calls for, longest prefix first |
| `PrevQueue.StepInv` | awgsrc/src/queueing.c:66-107 | each atomic step of a producer or of the consumer keeps the queue's invariant |
| `PrevQueue.Fifo` | awgsrc/src/queueing.c:53-107 | under every interleaving packets leave in the order of the head exchanges, each once, the rest still queued in that order; the stub is queued at most once; the count is at most 1024 and covers what is queued |
| `PrevQueue.EnqueueExact` | awgsrc/src/queueing.c:66-78 | an uninterrupted enqueue puts its packet last, in the list and in the order of exchanges, exactly when fewer than 1024 are counted, and otherwise changes nothing |
| `PrevQueue.FillsUp` | awgsrc/src/queueing.c:66-78 | a run from the empty queue reaches 1024 queued packets in order, and the next one is turned away |
| `PrevQueue.DequeueExact` | awgsrc/src/queueing.c:80-107 | an uninterrupted dequeue returns the first packet exactly when the links in front of it are in place, and otherwise returns nothing and loses nothing |
| `PrevQueue.Drain` | awgsrc/src/queueing.c:80-107 | once producers are quiet, as many dequeues as there are packets return them all in order |
| `ReplayWindow.ReplayCounter.Validate` | awgsrc/src/receive.c:322-358 | a number is accepted exactly when it is below the limit, not accepted before, and not more than the window behind the highest accepted |
| `ReplayWindow.ReplayCounter.Slide` | awgsrc/src/receive.c:340-349 | moving the ring forward clears exactly the words that enter the window |
| `Transport.Peer.SendStaged` | awgsrc/src/send.c:412-484 | the staged batch is handed off whole under consecutive nonces below the limit, or goes back to the front of the queue in order with a handshake asked for and the key marked invalid; nothing is asked of the counter, which other calls may have pushed past the limit |
| `Transport.ConservedStep` | awgsrc/src/send.c:412-484 | at every step each packet ever staged is queued, in some call's hands, or sent |
| `Transport.UniqueStep` | awgsrc/src/send.c:444-453 | at every step no nonce has been given out twice across concurrent calls |
| `Transport.AtMostOnce` | awgsrc/src/receive.c:322-358 | over every run with a duplicating, reordering, lossy network: nonces sent are distinct and below the limit, what is delivered was sent, and nothing is delivered twice |
| `Transport.CallAlone` | awgsrc/src/send.c:412-484 | one call of the interleaved machine, uninterrupted, leaves what `Transport.Peer.SendStaged` leaves: the whole batch sent under consecutive nonces, or everything given back |
| `Transport.GivenBackFirst` | awgsrc/src/send.c:470-484 | what a call gives back goes in front of what was staged while it ran |
| `Transport.FirstArrival` | awgsrc/src/receive.c:322-358 | a packet sent is delivered when it arrives for the first time and no more than 8128 numbers late |
| `Hkdf.ComputeHmac` | awgsrc/src/noise.c:308-341 | the in-place computation, flipping one pad into the other, is HMAC of RFC 2104 |
| `Hkdf.FlipAll` | awgsrc/src/noise.c:322-331 | flipping the inner pad by the difference of the two constants gives the outer pad |
| `Hkdf.Derive` | awgsrc/src/noise.c:347-393 | for any three lengths up to a hash, the outputs made in one reused 33-byte buffer are the beginnings of the blocks of HKDF-Expand; a length of zero ends the derivation |
| `Hkdf.Kdf` | awgsrc/src/noise.c:347-393 | for one, two or three whole blocks, as the callers ask, the outputs together are HKDF-Expand of RFC 5869 applied to HKDF-Extract |
| `Hkdf.ExpandBlocks` | awgsrc/src/noise.c:347-393 | one, two or three whole blocks are the expansion to that many hash lengths |
| `Noise.FirstMessageHeard` | awgsrc/src/noise.c:520-681 | a responder that knows the initiator opens its static key and timestamp and reaches the same hash and chaining key |
| `Noise.SecondMessageConcludes` | awgsrc/src/noise.c:683-830 | from equal states the initiator opens the response and both hold the same hash and chaining key |
| `Noise.SessionKeysMirror` | awgsrc/src/noise.c:395-405 | deriving in the two orders gives mirrored sending and receiving keys |
| `NoisePattern.SessionKeysAre` | awgsrc/src/noise.c:395-405 | the keys are the two halves of one HKDF expansion, the first sent under by the initiator and the second by the responder |
| `Noise.Agreement` | awgsrc/src/noise.c:520-877 | the exchange completes exactly when the four secrets have public keys and no Diffie-Hellman step among them is degenerate, and then each side's sending key is the other's receiving key |
| `NoisePattern.InitiateIs` | awgsrc/src/noise.c:520-584 | the first message and the state after it are what the framework writes for the tokens e, es, s, ss, and both fail together |
| `NoisePattern.HearIs` | awgsrc/src/noise.c:604-643 | the responder, among the peers it knows, reads it as the framework does |
| `NoisePattern.RespondIs` | awgsrc/src/noise.c:683-741 | the second message is what the framework writes for e, ee, se, psk |
| `NoisePattern.ConcludeIs` | awgsrc/src/noise.c:769-799 | and the initiator reads it as the framework does |
| `NoisePattern.HonestIs` | awgsrc/src/noise.c:520-877 | the whole exchange, its keys and its failures, is the handshake IKpsk2 carried out by the framework's rules |
| `NoiseHandshake.Handshake.CreateInitiation` | awgsrc/src/noise.c:520-584 | the message and the new state are those of the protocol; without an identity or with a degenerate step the stage and index stay as they were |
| `NoiseHandshake.ConsumeInitiation` | awgsrc/src/noise.c:587-681 | undisturbed, only a message that opens, carries a later timestamp and comes a fiftieth of a second after the last one is consumed by the peer it names; any other leaves every peer as it was but for the advanced-security note, which follows every message whose static key opens and names a peer |
| `NoiseHandshake.NameCaller` | awgsrc/src/noise.c:604-620 | who is calling is worked out on locals as the protocol says |
| `NoiseHandshake.ListenTo` | awgsrc/src/noise.c:635-643 | and so is the timestamp, with the secret kept for that peer |
| `NoiseHandshake.Handshake.Admits` | awgsrc/src/noise.c:645-653 | the replay and flood tests made under the read lock |
| `NoiseHandshake.Handshake.CopyInitiation` | awgsrc/src/noise.c:655-670 | the fields copied under the write lock without a second test; neither the timestamp nor the time of the last consumption goes back |
| `NoiseHandshake.Handshake.CreateResponse` | awgsrc/src/noise.c:683-741 | only after a consumed initiation; the message and state are the protocol's, and on failure the stage stays |
| `NoiseHandshake.Handshake.OpenResponse` | awgsrc/src/noise.c:769-799 | what is worked out on copies is the initiator's conclusion of its pending initiation |
| `NoiseHandshake.Handshake.CopyResponse` | awgsrc/src/noise.c:802-815 | the stage is looked at again under the write lock: if it has moved on nothing is copied, whatever was worked out |
| `NoiseHandshake.Handshake.ConsumeResponse` | awgsrc/src/noise.c:744-830 | undisturbed, it succeeds exactly when the response concludes the pending initiation; otherwise every field is as before |
| `NoiseHandshake.Handshake.BeginSession` | awgsrc/src/noise.c:832-862 | in the two final stages the session's keys are derived in the order of the role, sending and receiving together one expansion of the chaining key, and the ephemeral keys, hash, chaining key and remote index are wiped; in any other stage nothing happens |
| `NoiseHandshake.Exchange` | awgsrc/src/noise.c:520-877 | carried out on the objects of two acquainted devices, the whole exchange succeeds, gives the keys of `Noise.Honest` and so of the framework's handshake, mirror images of each other, each side addressing the other by the index it announced |
| `NoiseHandshake.LaterIsGreater` | awgsrc/src/noise.c:646-647 | of two timestamps of one length the later by byte comparison is the greater as a big-endian number |
| `NoiseHandshake.PassesExactly` | awgsrc/src/noise.c:645-653 | an initiation passes exactly when its timestamp is a greater number than the last one's and twenty milliseconds have gone by |
| `NoiseHandshake.GateNeverBack` | awgsrc/src/noise.c:657-668 | however tests and copies of many workers interleave, the latest timestamp and the time of the last consumption never go back |
| `NoiseHandshake.ApartUnlessTogether` | awgsrc/src/noise.c:645-670 | in every such run two admissions share a timestamp, come out of order or stand closer than 20 ms only if the later one was tested before the earlier one was copied |
| `NoiseHandshake.OnceExactly` | awgsrc/src/noise.c:645-670 | in every run from quiet to quiet a timestamp is let through at most once exactly when at no moment two workers hold a passed test of it |
| `NoiseHandshake.AdmittedTwice` | awgsrc/src/noise.c:645-670 | any initiation that passes, tested twice before it is copied, is let through twice |
| `Keypairs.KeypairSlots.AddNew` | awgsrc/src/noise.c:201-254 | the slots and the references dropped, in order, are those of the rotation for either role |
| `Keypairs.KeypairSlots.ReceivedWith` | awgsrc/src/noise.c:256-294 | true exactly when the keypair was the waiting one, which then becomes current |
| `Keypairs.KeypairSlots.Clear` | awgsrc/src/noise.c:154-180 | all three slots are emptied and each reference dropped once |
| `Keypairs.StepKeeps` | awgsrc/src/noise.c:134-294 | every event keeps the rotation's invariant |
| `Keypairs.Rotation` | awgsrc/src/noise.c:134-294 | in every run next and previous are never both filled, filled slots are distinct, and every keypair made is in exactly one slot or has been let go exactly once |
| `Keypairs.NeverReturns` | awgsrc/src/noise.c:134-143 | a keypair once let go is in no slot, and is not let go again, in any continuation of the run |
| `Keypairs.CurrentIsConfirmed` | awgsrc/src/noise.c:241-294 | the current keypair is one we initiated or one under which a packet has arrived |
| `Keypairs.SlotsTold` | awgsrc/src/noise.c:201-294 | in every run next holds exactly the keypair answered for and neither confirmed, overtaken, replaced nor cleared since; current the one last initiated or first heard under while waited for; previous the one that promotion displaced, a waiting one before the one that reigned |
| `Keypairs.SendersTold` | awgsrc/src/noise.c:182-199 | in every run a keypair can send exactly from its start until an expiry meets it in next or current |
| `Keypairs.HandshakeTold` | awgsrc/src/noise.c:832-877 | the handshake is in the index exactly while a message of it waits for its session |
| `Keypairs.EntriesTold` | awgsrc/src/noise.c:832-877 | a keypair is in the index exactly from the end of its session start until it is let go or its last reference goes |
| `Keypairs.ExpirySilences` | awgsrc/src/noise.c:182-199 | after an expiry, wherever it falls, no keypair that becomes current can send until a new session starts |
| `Keypairs.TidyExactly` | awgsrc/src/noise.c:91-180 | when no start is under way, the entries were at every moment within the handshake's and those of the keypairs in the slots exactly when no clear of the slots fell inside a session start |
| `Keypairs.AtMostThree` | awgsrc/src/peerlookup.c:95-96 | in every run without such a clear a peer holds at most three index entries |
| `Keypairs.ThreeExactly` | awgsrc/src/peerlookup.c:95-96 | from a state with no start under way, three entries remain the bound in every continuation without such a clear exactly when no entry has been left behind |
| `Keypairs.FourthEntry` | awgsrc/src/timers.c:133-134 | a run that clears the slots inside a session start ends with four entries or more |
| `Keypairs.Replay` | awgsrc/src/noise.c:154-294 | the slot objects driven by any sequence of events hold what the state machine says |
| `IndexTable.Table.Scan` | awgsrc/src/peerlookup.c:73-81 | scanning one of 8192 buckets finds the entry exactly when any entry of the whole table has that index |
| `IndexTable.Table.Search` | awgsrc/src/peerlookup.c:129-139 | the numbers passed over are in use and the one kept is free |
| `IndexTable.Table.Insert` | awgsrc/src/peerlookup.c:119-164 | undisturbed, the entry ends up under the first number drawn that no other entry uses, whatever it was under before |
| `IndexTable.Table.Replace` | awgsrc/src/peerlookup.c:166-190 | the new entry takes over the old one's index and the old one is unhashed; if the old one was not hashed nothing changes |
| `IndexTable.Table.Remove` | awgsrc/src/peerlookup.c:192-198 | exactly that entry goes, and removing an unhashed entry does nothing |
| `IndexTable.Table.Lookup` | awgsrc/src/peerlookup.c:201-226 | an entry is found exactly when one has the index and a wanted kind |
| `IndexTable.ExclusiveAlways` | awgsrc/src/peerlookup.c:119-198 | however unlocked searches, locked commits, takeovers and removals interleave, no two hashed entries share an index |
| `IndexTable.InsertAlone` | awgsrc/src/peerlookup.c:119-198 | undisturbed, the steps of an insertion end with the entry under the number it found free, and a removal takes it out |
| `IndexTable.SecondLookNeeded` | awgsrc/src/peerlookup.c:141-153 | from any table two inserters can hold the same free number; committing the second unchecked would break exclusivity, and the repeated look sends it back to searching |
| `IndexTable.Takeover` | awgsrc/src/peerlookup.c:166-190 | after a takeover the handshake's index leads to the keypair and to nothing else |
| `IndexTable.SomeIndexFree` | awgsrc/src/peerlookup.c:95-111 | while fewer than 2^32 entries are hashed some number is free, so a search can end |
| `RateLimiter.Limiter.Allow` | awgsrc/src/ratelimiter.c:96-168 | undisturbed, the decision and the table of levels are those of a token bucket per source; a new source needs room and memory |
| `RateLimiter.Limiter.Sweep` | awgsrc/src/ratelimiter.c:67-94 | exactly the entries idle for more than a second at the time read leave their buckets, and with them any touched since, whose unsigned age wraps; they are counted until freed |
| `RateLimiter.Handle` | awgsrc/src/ratelimiter.c:67-168 | the limiter object, driven through any run, gives the answers of the token buckets |
| `RateLimiter.AnsweredByQuota` | awgsrc/src/ratelimiter.c:118-168 | over any run, a packet of a source new at the start that is listed or can be passes exactly when with it no stretch of time T, counted over the answers given before, would hold more than five packets and twenty a second; one that cannot be listed is refused |
| `RateLimiter.QuotaKept` | awgsrc/src/ratelimiter.c:46-51 | in any stretch of any run, whoever else sends, whatever is swept and however full the table, a source gets no more than that quota through |
| `RateLimiter.FiveAtOnce` | awgsrc/src/ratelimiter.c:118-168 | of n packets a new source sends at once into a table with room exactly the first five pass |
| `RateLimiter.RateBound` | awgsrc/src/ratelimiter.c:118-163 | however lookups, charges, stampings, listings and purges of many workers interleave, in any stretch of time T a source gets through at most 5 + T / PACKET_COST packets, five more for each duplicate listing or early purge of its entry, one more for each pass charged to an entry no longer in force and one more for each entry listed later than it was stamped |
| `RateLimiter.BoundMet` | awgsrc/src/ratelimiter.c:118-163 | the bound is reached, for any number of duplicates, listed late or not, and any length of time |
| `RateLimiter.DuplicatesPass` | awgsrc/src/ratelimiter.c:118-163 | n packets of a new source that look before any is listed let 5n through at once, and one per price after |
| `RateLimiter.LatePass` | awgsrc/src/ratelimiter.c:158-162 | held up for the price of a packet between stamping and listing, they let 6n through |
| `RateLimiter.AllowAlike` | awgsrc/src/ratelimiter.c:118-168 | a packet is decided alike with and without earlier sweeps exactly when a source swept away finds room to come back, and one counted by neither table finds room in both or in neither |
| `RateLimiter.InvisibleExactly` | awgsrc/src/ratelimiter.c:67-168 | with room worked out from each table's own count, retired entries included, every packet of a run gets the answer it would have got had nothing been swept exactly when each finds its room as in `AllowAlike` |
| `RateLimiter.SweepShows` | awgsrc/src/ratelimiter.c:142-167 | a source swept from a full table that comes back before its old entry is freed is refused, and would have passed unswept |
| `RateLimiter.SweepMakesRoom` | awgsrc/src/ratelimiter.c:142-167 | a new source that meets a full table is let in once an idle one has been swept and freed, and would have been refused unswept |
| `Leases.Files.ReleasedIps` | main.go:2500-2521 | the markers within their time are returned and the others deleted |
| `Leases.Files.ScanLeases` | main.go:2251-2269 | leases within their time join the in-use set with their ages and the others are deleted |
| `Leases.FindFree` | main.go:2307-2316 | the first address of the block not in use, if there is one |
| `Leases.FindGhost` | main.go:2336-2349 | the block's oldest abandoned lease, the first on a tie, if there is one |
| `Leases.Connect` | main.go:2207-2377 | under "reject", the hook's answer and the files it leaves are those of the decision rule over both transports |
| `Leases.Disconnect` | main.go:2458-2526 | a lease of that session is dropped and its address marked, or there is none and nothing changes |
| `Leases.NeverALiveAddress` | main.go:2306-2349 | no dial is handed the address of a live device, whether it takes a free slot or reclaims a lease |
| `Leases.StepSound` | main.go:2207-2526 | every event keeps live devices visible through their lease or the snapshot, and unmarked |
| `Leases.LimitKept` | main.go:2280-2316 | in every run from empty files, an account's live devices and unexpired leases over both transports stay within its limit |
| `Leases.UsedIsOccupiedPlusStale` | main.go:2273-2304 | what the hook counts is what is really occupied plus the snapshot rows that outlived their device |
| `Leases.RefusedExactly` | main.go:2306-2377 | a dial is refused exactly when devices, unexpired leases and stale rows reach the limit and the block has no abandoned lease |
| `Leases.MarkerOutlives` | main.go:2474-2514 | a marker outlives every snapshot that can still list its address |
| `Leases.GivenUpIsFree` | main.go:2478-2521 | in every run an address that was given up and not handed out since is not counted as taken, at any moment |
| `Leases.RedialAdmitted` | main.go:2474-2521 | a device whose lease is on file when it hangs up is admitted on the same transport at every later moment, whatever snapshots come or fail to come and whatever other accounts do, if the hook did not count more than the limit before |
| `Leases.RedialExactly` | main.go:2251-2349 | an account whose devices make up its limit, one of which hangs up and redials on the same transport after any time in which nothing else of the account happens, is admitted exactly when its lease was still on file, or the snapshot did not list it, or has been rewritten since |
| `Leases.AbandonedReclaimed` | main.go:2318-2349 | a slot granted to a device that has not shown itself for ten seconds is handed out again, even at the limit |
| `Leases.ReclaimOnlyIfFull` | main.go:2306-2349 | nobody's lease is taken over while the account is below its limit |
| `Leases.RedialAcrossRefused` | main.go:2290-2304 | an account at its limit that hangs up on one transport and redials on the other is refused: markers are not applied there |
| `Headers.MagicHeader.Parse` | awgsrc/src/magic_header.c:8-32 | succeeds exactly on a number or a dash-separated pair in order, both below 2^32, and stores them |
| `Headers.RangeRoundTrip` | awgsrc/src/magic_header.c:8-38 | parsing a printed range returns it, for every start and end with start <= end < 2^32 |
| `Headers.ParseForms` | awgsrc/src/magic_header.c:8-32 | a number is read with or without a plus sign and a newline, exactly if it is below 2^32 |
| `Headers.CheckApart` | awgsrc/src/device.c:606-614 | accepted exactly when all ranges are pairwise disjoint |
| `Headers.Packet.Try` | awgsrc/src/receive.c:38-44 | the junk is skipped exactly when length and header fit the type; a failed match restores the offset |
| `Headers.Packet.Prepare` | awgsrc/src/receive.c:30-74 | the packet is taken for the first type that matches and its junk is off; none matches exactly when 0 is returned and the offset is as before; for a cookie reply the value is 3 |
| `Headers.RecoveredExactly` | awgsrc/src/receive.c:30-74 | every message of a type is taken for what it is exactly when, for each type tried earlier, the lengths cannot coincide or no two header words agree on the bytes they would share at the two junk sizes |
| `Headers.TypeRecovered` | awgsrc/src/receive.c:30-74 | with disjoint ranges and one junk size every message of every type is taken for what it is |
| `Headers.FarApartMisread` | awgsrc/src/receive.c:38-69 | for any two types whose junk sizes are four bytes or more apart and whose lengths can meet, some message of the later is taken for another type |
| `Headers.DispatchAgrees` | awgsrc/src/receive.c:582-619 | a packet taken for a type goes to that type's queue and is never dropped as unknown |
| `JunkPackets.ReadHex` | awgsrc/src/junk.c:23-40 | reading the pairs from the last to the first decodes the hex string, or fails exactly when some pair does |
| `JunkPackets.HexAnyCase` | awgsrc/src/junk.c:23-40 | a literal reads the same in either case, digit by digit |
| `JunkPackets.SizesRead` | awgsrc/src/junk.c:108-116 | a size is read with either sign or none, with or without a newline behind it, exactly if it fits 32 bits |
| `JunkPackets.ReadTags` | awgsrc/src/junk.c:23-233 | the list built by head insertion, literals read through `ReadHex`, is the reverse of the tags as written, or parsing fails |
| `JunkPackets.DescriptionRoundTrip` | awgsrc/src/junk.c:11-233 | every list of tags with non-empty literals and non-negative sizes is read back from its description |
| `JunkPackets.Build` | awgsrc/src/junk.c:282-319 | refused exactly when the 32-bit sum of the sizes is out of range; when the true sum fits, the packet is the concatenation of the tags in written order although the list is reversed; otherwise a literal overruns the buffer or a modifier's slice does not lie inside it |
| `JunkPackets.InBoundsExactly` | awgsrc/src/junk.c:285-319 | of the templates let through, exactly those with no negative size and a true sum within the maximum have every tag inside the buffer |
| `JunkPackets.WrappedAccepted` | awgsrc/src/junk.c:285-292 | a description whose sizes sum to 2^32 + 98 is read, let through with a buffer of 98 bytes, and has a slice outside it |
| `JunkPackets.Template.Setup` | awgsrc/src/junk.c:250-330 | a template is refused exactly when its description cannot be read or its wrapped size is out of range, and is then empty; when the true size fits it holds that packet and those modifiers |
| `JunkPackets.SlicesApart` | awgsrc/src/junk.c:304-319 | for sizes that do not wrap, modifier slices lie inside the packet, in order, and do not overlap |
| `JunkPackets.SliceWrite` | awgsrc/src/junk.c:332-341 | writing one modifier's slice gives the packet with that modifier's bytes changed and nothing else |
| `JunkPackets.ApplyModifiers` | awgsrc/src/junk.c:332-341 | after all modifiers have written, the packet is the tags in order with each modifier's output in its place |
| `JunkPackets.LiteralsKept` | awgsrc/src/junk.c:332-341 | a byte outside every slice is the same before and after |
| `Traffic.Pass` | cmd/sr-node/traffic.go:160-196 | one pass gives the readings under trimmed names and a line for each name that moved and is sane |
| `Traffic.Meter.Commit` | cmd/sr-node/traffic.go:202-223 | the readings are merged over the baselines; a name not read keeps its own |
| `Traffic.Meter.Report` | cmd/sr-node/traffic.go:243-270 | baselines move exactly when the report landed or had no line |
| `Traffic.ListedCredit` | cmd/sr-node/traffic.go:143-197 | a report credits a name listed once its own step, or nothing if it is passed over |
| `Traffic.CreditIsSum` | cmd/sr-node/traffic.go:160-178 | however often a name is listed, it is credited with the sum of its rows, each measured against the same baseline |
| `Traffic.SoundRead` | cmd/sr-node/traffic.go:228-236 | the step of a reading is covered by what was served since the last committed one, restart or not |
| `Traffic.RestartLoss` | cmd/sr-node/traffic.go:228-236 | a counter that began again is credited in full exactly while it reads less than where it stood; past that, exactly that much is missing |
| `Traffic.AbsurdStep` | cmd/sr-node/traffic.go:160-178 | a user that seems to have moved more than 16 TiB since the last report is passed over, an inbound is not |
| `Traffic.NeverOverCredited` | cmd/sr-node/traffic.go:143-270 | over any run of traffic, scrapes, lost reports, lost answers, commits and restarts, no name is credited with more than it was served, as long as no two of the core's keys trim to one name |
| `Traffic.OverCredited` | cmd/sr-node/traffic.go:160-178 | two keys that trim to one name, three bytes and two reports: four bytes are credited |
| `Traffic.OverCreditExactly` | cmd/sr-node/traffic.go:143-270 | no run over-credits any name exactly when no two keys trim to one metered name |
| `Traffic.PanelBooks` | cmd/sr-node/traffic.go:243-270 | in every run the panel has booked what the node knows to have landed plus exactly what was said by the reports that landed with their answer lost |
| `Traffic.CreditedExactly` | cmd/sr-node/traffic.go:198-236 | without a restart, for an inbound or a user within the sanity limit, the credit equals the last committed reading |
| `NodeNames.Scope.UniqueName` | sub/subAccount.go:195-222 | terminates; a free or empty name is kept, a taken one becomes the first free candidate, which is then taken |
| `NodeNames.CandidatesDiffer` | sub/subAccount.go:215-219 | no two candidates for a name are equal, which is why the search ends |
| `NodeNames.CandidatesRead` | sub/subAccount.go:207-219 | the candidates are the name with the inbound's tag, or its number if it has none, and then with 2, 3 and so on |
| `NodeNames.NameAll` | sub/subAccount.go:180-222 | over a whole response non-empty names are pairwise distinct and whoever first asks for a name gets it unchanged |
| `Usage.QuotaFold.Add` | sub/subAccount.go:248-269 | the accumulator after an entry is the fold of the old one with it |
| `Usage.SubUsage.Add` | sub/subAccount.go:301-320 | the identities, their folds and the counted marks after one more membership |
| `Usage.SubUsage.Result` | sub/subAccount.go:323-329 | the result is the fold of the identities' figures in order of appearance |
| `Usage.FoldMeans` | sub/subAccount.go:248-269 | the bytes are the sums of the entries' and the expiry is that of all of them if they agree, else none |
| `Usage.FoldAnyOrder` | sub/subAccount.go:239-242 | for non-negative totals the fold does not depend on the order of the entries |
| `Usage.TwoLevels` | sub/subAccount.go:230-329 | for non-negative totals, folding per identity and then across identities equals folding the counted entries one by one |
| `Usage.AnyOrder` | sub/subAccount.go:239-329 | and equals the fold of the counted entries in any order |
| `Usage.CountedOnce` | sub/subAccount.go:287-320 | further memberships of an account already counted change no figure |
| `Usage.OnlineIsLatest` | sub/subAccount.go:301-306 | the last time online is the latest of the memberships' times |
| `Usage.RestAgrees` | sub/subAccount.go:248-329 | whatever the totals, the bytes and the expiry of the two-level figure are those of the flat fold |
| `Usage.AgreeExactly` | sub/subAccount.go:248-329 | for totals of either sign the two-level figure is the flat one exactly when (some identity's running total over its own counted entries collapses to zero, or that of the identities' sums does) if and only if the running total of all counted entries does, or these sum to zero |
| `Usage.NegativeTotalsDiffer` | sub/subAccount.go:258-265 | the memberships n for one identity, then -n and m for another, give m in two levels and zero, which reads as unlimited, in one |
| `ProtoFields.AppendVarint` | xray/api.go:213-219 | the loop appends the base-128 encoding |
| `ProtoFields.VarintRoundTrip` | xray/api.go:213-219 | the wire format's decoder reads back every value below 2^64 and leaves the rest |
| `ProtoFields.ForkAccount` | xray/api.go:192-198 | the bytes are the encodings of the fields one after another |
| `ProtoFields.RoundTrip` | xray/api.go:192-211 | decoding by the wire format returns exactly the non-empty fields in order |
| `ProtoFields.EveryFieldFound` | xray/api.go:200-211 | with increasing numbers each field is found under its own, an empty one as absent |

## Left out

- AllowedIps: RCU readers running beside a writer, reference counts on peers and the retry of a lookup that meets a dying peer are not modelled, nor is how long the deferred freeing waits.
- PrevQueue: steps are sequentially consistent; the acquire, release and relaxed orderings and the `peeked` slot are not modelled.
- Transport: encryption, the padding computation and the parallel crypt queues between nonce assignment and the wire are not modelled.
- Noise: hash, Diffie-Hellman and authenticated encryption are functions with the laws stated in `Noise.Sound`; MACs, cookies and secrecy are not modelled.
- NoiseHandshake: whether a message came under the device's own header is a parameter, and the notice sent for an unknown peer is not modelled.
- Keypairs: reference counts beyond the slots' own and peers already dead are not modelled.
- IndexTable: list traversal by readers during a takeover, and references to dying peers, are not modelled.
- RateLimiter: time does not run backwards within a run; hashing is any function; both address families share one table.
- RateLimiter.InvisibleExactly: packets and sweeps come one at a time, so a sweep meets no entry touched after it read the time; what such a sweep costs is in `RateLimiter.RateBound`.
- Leases: hooks of both transports are serialised, live sessions of a transport have distinct keys, the status is rewritten every five seconds, and blocks of different accounts share no address; the "accept" strategy with its evictor, half-written status files and file errors are not modelled.
- Headers: the cookie and MAC checks behind the dispatch and the truncation of `mh_genspec` in a short buffer are not modelled.
- JunkPackets: allocation failures other than of a negative size, what happens after a literal has been copied outside its buffer, and what the random, counter and time modifiers write are not modelled.
- Traffic: baselines live as long as the run, so a restart of the agent itself is not modelled; the report's lines come in the order of the rows.
- Usage: sums are not taken modulo 2^64; identity keys are already normalised.
- NodeNames: the tag is already trimmed, and the call on a missing scope, which returns the name unchanged, is not modelled.
- ProtoFields: field numbers are non-negative and shifted without overflow.
- The cookie protocol, timers, sockets, netlink configuration, the web panel, the database and the other tunnel back-ends would only add simpler members or lie outside what a model of the code can say.
