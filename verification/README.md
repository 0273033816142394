# CSPCL in Dafny

CSPCL is a convergence layer: it hands Bundle Protocol bundles to a peer over CSP connections
and tells the caller what became of them, the adapter services of section 7.2 of RFC 9171. This
project models the parts of it that carry state and proves what they promise together:

- **The sender** (`src/cspcl.c`): a pool of 16 outbound connections with least-recently-used
  eviction and age limit; a send that waits for an ack without an identifier, discards the
  connection on failure and retries once; the receiver's side of the ack; the C receive table.
- **The inbound receiver** of the Rust binding (`rust-bindings/cspcl/src/inbound.rs`,
  `instance.rs`): one accept thread, up to ten listener threads, streams opened and dropped at
  will, overlapping closes, failed thread starts, panics of the accept thread, and the grace
  period, interleaved in any order.
- **The link** of `picod3tn-cspcl` (`link.rs`, `rx.rs`) on top of it: shutdown, the threads that
  open streams, the receive loop and its backoff.

`dafny verify dfyconfig.toml` checks everything.

## How it is built

What the code changes in place is a class here (`ConnectionPool`, `Send.Instance`,
`RxTable.Receiver`, `ReceiverState`, `ListenerVec.Table`, `ReceiveLoop.Receiving`), with the same
loops; each method is proved to compute a function on values (`Pool`, `Send`, `RxTable`, `Hub`,
`ListenerTable`, `ReceiveLoop`), and the properties are proved about those functions. Threads and
the network become transition systems whose steps are the critical sections, the calls into C and
the atomic accesses, in any order: `AckProtocol` (sender, peers and lossy connections), `Receiver`
(the inbound side), `Link` (the link over a receiver), `EndToEnd` (a sender and a receiver
together). A run is a sequence of states joined by enabled steps; the theorems speak of every
state of every run.

libcsp is an environment that may do anything within these bounds: `csp_connect` returns a new
connection or fails; a connection is a pair of channels that may lose messages but do not
duplicate, reorder or invent them; an SFP send is one message that is enqueued or not, also when
it reports a failure. Clocks, locks that cannot be taken, thread starts that fail and panics are
choices of the environment, in the parameters named `Weather`, `Reply`, `Surroundings` or in the
events. `Copy` values carry the number of their send and attempt, so that a copy can be followed;
no operation looks at them. Integers that wrap in C (`tick`, the counters, the age in seconds)
wrap in the model.

Modules: `Base`, `Bags`, `Search`, `Counting` (shared definitions); `Pool`, `ConnectionPool`,
`PoolLru`, `PoolLedger`, `PoolLaws` (the pool); `Send`, `Retry`, `AckProtocol`, `SendRuns`, `SendLaws`
(sending); `RxTable`, `RxFairness`, `RxLedger`, `RxLaws` (the C receive table); `Hub`, `ReceiverState`,
`ListenerTable`, `ListenerVec`, `ListenerRuns`, `Receiver`, `ReceiverCoupling`, `ReceiverBounds`,
`ReceiverConservation`, `ReceiverClose`, `ReceiverStop`, `ReceiverEviction`, `ReceiverOrder`,
`ReceiverRuns`, `ReceiverLaws`, `ReceiverErrors` (the inbound receiver); `ReceiveLoop`, `Link`, `LinkShutdown`, `LinkStreams`,
`LinkBackoff`, `LinkYields`, `LinkOwners` (the link); `Budget`, `WireOrder`, `EndToEnd`, `EndToEndOrder`, `Delivery` (both
sides together).

`docs/architecture.md:80-99` describes one connection per bundle; the code pools connections, and
the model follows the code.

## Model

| member | source | states |
|---|---|---|
| AckProtocol.AckSoundness | src/cspcl.c:526-545 | In every state of every run, each send that returned OK had exactly its bundle accepted by the receiver at its destination, once on the connection whose ack was read, although any packet counts as the ack; and that copy went over no other connection. |
| AckProtocol.PoolIsQuietBetweenSends | src/cspcl.c:579-602 | Between sends, on every pooled connection sent = received = acks sent = acks read, with nothing on its way in either direction. |
| AckProtocol.StepInv | src/cspcl.c:551-621 | Every step of sender, receiver and network keeps the counting invariant: all pooled connections quiet but the one waited on, which has only the current copy in flight. |
| AckProtocol.AckMeansReceived | src/cspcl.c:756-800 | An ack waiting on a connection with one copy in flight means that this copy was received, and reading it leaves the connection quiet. |
| AckProtocol.AckProvesDeliveryIffNothingOutstanding | src/cspcl.c:537-545 | For any connection whatsoever: an ack read after a send proves its delivery if and only if no ack and no bundle was outstanding before the send. |
| AckProtocol.AtMostTwoCopies | src/cspcl.c:582-602 | Whatever the network does, at most two copies of a send are accepted, over all receivers, each once. |
| Retry.RetryContract | src/cspcl.c:551-621 | For every pool with unique keys, at any tick, and every behaviour of libcsp: at most two SFP sends of exactly the bundle, the second on a connection opened after the first; on OK one pool entry for the destination, stamped with the current tick, whose ack was read; on failure none; at most one other destination loses its connection. |
| Retry.SendContract | src/cspcl.c:551-621 | The same for the whole function, at any tick: a call is refused with the code of the first check it fails, and leaves the pool alone; anything else keeps the retry contract. |
| Retry.OkIsMostRecent | src/cspcl.c:147-222 | Unless the tick wraps during the send, the entry that an OK leaves is the most recently used one. |
| SendLaws.SendLaw | src/cspcl.c:579-620 | In terms of libcsp's answers alone: after the first lookup, the calls made are exactly the first exchange, and if it was not confirmed the close, the reconnect, the second exchange and its close; the code is OK if and only if a connection was obtained and the first exchange was confirmed, or a second connection was obtained and the second one was; otherwise CONNECTION, TIMEOUT for a missing ack or a timeout, CSP_SEND for another failure, of the last exchange. |
| SendLaws.FailureIsRetried | src/cspcl.c:582-602 | A failed first exchange with a reconnect that succeeds is followed by a second SFP send of the bundle, on the new connection. |
| SendLaws.EveryFailureIsRetried | src/cspcl.c:594-602 | In every run: a failed SFP send or a missing ack in the first attempt goes on to the second one on the new connection if there is one; else, and in the second attempt, the send ends and reports that failure. |
| SendLaws.EveryStartGoesOn | src/cspcl.c:582-592 | In every run, a send that starts goes on with the connection looked up, or reports CONNECTION. |
| SendRuns.SendIsAttempts | src/cspcl.c:582-602 | Refinement: every send that starts and finishes in a run of the protocol, with any steps of peers and network in between, leaves the pool and reports what the retry loop computes for some answers of libcsp. |
| SendRuns.EverySendKeepsTheContract | src/cspcl.c:551-621 | Hence every send of every run, of any length and at any tick, keeps the retry contract. |
| SendRuns.EveryOkIsMostRecent | src/cspcl.c:551-621 | In every run with fewer than 2^32 lookups so far, whatever the network did, an OK leaves the one entry of its destination as the most recently used one. |
| Retry.ObtainEffect | src/cspcl.c:144-223 | At any tick: obtaining a connection loses at most one to another destination, none if there was room or an entry for this one, closes before it connects, and leaves one entry for the destination, stamped with the current tick. |
| Retry.InvalidateEffect | src/cspcl.c:225-243 | At any tick: invalidating removes every entry of a destination, closes only, and touches no other entry. |
| Send.Instance.SendBundle | src/cspcl.c:551-621 | The C function with its checks and retry loop computes `Outcome`: result code, pool and calls to libcsp. |
| Send.Instance.SendAndConfirm | src/cspcl.c:537-545 | SFP send, then the wait for any packet; result and calls. |
| Send.LoopIsPhases | src/cspcl.c:582-602 | The retry loop is the same computation as the sequence of phases between which the network acts in `AckProtocol`. |
| ConnectionPool.ConnectionPool.Create | src/cspcl.c:420-458 | A pool with 16 unused slots, tick and counters zero, and no call made; without a mutex `NO_MEMORY`, and a pool that is not initialised. |
| ConnectionPool.ConnectionPool.GetOrCreate | src/cspcl.c:144-223 | The scans, age check, eviction and connect on the array compute `Obtain`: slots, tick, counters, calls and the connection returned. |
| ConnectionPool.ConnectionPool.Scan | src/cspcl.c:147-181 | The single pass finds the cached connection or the first free slot, also after it closed an outdated one on the way. |
| ConnectionPool.ConnectionPool.FindFreeOrEvict | src/cspcl.c:82-109 | The first free slot, or the least recently used one after closing and counting its eviction. |
| ConnectionPool.ConnectionPool.Add | src/cspcl.c:111-142 | Error codes in order, then the connection adopted in a free or evicted slot. |
| ConnectionPool.ConnectionPool.Invalidate | src/cspcl.c:225-243 | The first entry of the destination, if any, is closed, freed and counted; nothing else changes. |
| ConnectionPool.ConnectionPool.Cleanup | src/cspcl.c:460-476 | Every cached connection is closed in slot order, every slot is freed, and the pool is no longer initialised. |
| PoolLru.PoolIsLruCache | src/cspcl.c:144-243 | For every sequence of lookups and invalidations before the tick wraps, the slot array gives the answers of a 16-entry recency list and makes the same connects and closes in the same order; keys are unique, last uses distinct; used slots = misses - evictions - invalidations, and tick = hits + misses + connect failures. |
| PoolLru.ObtainIsTouch | src/cspcl.c:144-223 | One lookup on the slots is one lookup on the recency list: hit, miss, evicted victim, and removal of a connection older than the maximum age, which the list judges by its own arithmetic. |
| PoolLru.InvalidateIsForget | src/cspcl.c:225-243 | One invalidation on the slots is a removal from the recency list. |
| PoolLru.ObtainCounts | src/cspcl.c:147-222 | One lookup keeps the counters balanced and advances the tick by one. |
| PoolLru.InvalidateCounts | src/cspcl.c:225-243 | One invalidation keeps the counters balanced. |
| PoolLru.WrapEvictsTheMostRecent | src/cspcl.c:147-204 | The bound on the tick is needed: in every full pool whose entry is used when the tick wraps, the next new destination evicts that entry, the most recently used one. |
| PoolLaws.AgeLaw | src/cspcl.c:158-180 | With an entry for the destination that is not from the future: if its age in seconds times 1000 is within the maximum, or there is none, its connection is returned without any call; else it is closed, and then a new one opened. |
| PoolLaws.CountersTell | src/cspcl.c:144-243 | Over any sequence of lookups and invalidations before the tick wraps, the five counters are what the recency list did: hits, successful and failed connects, connections closed for another destination, and those closed for age or on request. |
| PoolLaws.AddLaw | src/cspcl.c:111-142 | An adopted connection is cached for its destination in one slot, stamped as just used; it closes nothing if a slot is free, else exactly the connection used longest ago. |
| PoolLaws.AddRefusals | src/cspcl.c:114-124 | A null connection, a pool not initialised and a lock not taken are refused with their codes, in this order, and change nothing. |
| PoolLaws.CleanedPoolRefuses | src/cspcl.c:460-476 | After a cleanup every slot is free, and every send and every adopted connection is refused as not initialised. |
| PoolLedger.ExactlyOnceClose | src/cspcl.c:82-243 | From init through cleanup, adopted connections included: a handle supplied once is in exactly one used slot and not closed, or in none and closed exactly once; after cleanup all are closed. |
| PoolLedger.RunSound | src/cspcl.c:82-243 | In every run the handles held and closed are, as multisets, those opened; exactly the used slots hold one. |
| PoolLedger.CleanupSound | src/cspcl.c:460-476 | Cleanup closes exactly what was held. |
| PoolLedger.ObtainWithin | src/cspcl.c:183-217 | At every moment inside a lookup at most 16 connections are open, because eviction precedes connect. |
| Budget.ConnectionBudget | src/cspcl.c:285-286 | For one instance, in any combination of sender and receiver states and at any point inside a send, pool-owned plus inbound connections, the one being accepted included, are at most `conn_max` - 2. |
| Budget.RunWithin | src/cspcl.c:551-621 | In every run of sends the pool has accounted for its handles and never had more than 16 open. |
| RxTable.Receiver.TableStore | src/cspcl.c:817-855 | The C function computes `Store`; RxLaws.StoreLaw says which connection that replaces. |
| RxTable.Receiver.FindSlot | src/cspcl.c:820-844 | The scans give the slot of `SlotFor`, and whether it is the peer's own; RxLaws.SlotLaw says which slot that is. |
| RxTable.Receiver.PollAll | src/cspcl.c:922-948 | The rotating loop computes `Poll`: first fitting bundle in turn, broken connections closed on the way. |
| RxTable.Receiver.RecvBundle | src/cspcl.c:857-949 | The whole call: accept, store, poll, with its error codes and the length it reports: that of the bundle, 0 on failure, untouched if not initialised. |
| RxTable.Receiver.CloseAll | src/cspcl.c:398-418 | Cleanup closes every connection of the table in slot order and empties it. |
| RxLaws.SlotLaw | src/cspcl.c:820-848 | The slot chosen is that of the same address and port; else a free one; else one with the least stamp. |
| RxLaws.StoreLaw | src/cspcl.c:817-855 | In every run before the tick wraps, with recency taken from the calls: a new connection replaces and closes the one of the same peer, which is the only one; else none, if a slot is free; else the one accepted, or served, longest ago; nothing else changes. |
| RxLaws.PollLaw | src/cspcl.c:922-948 | The first connection in turn with a bundle that fits is read, acknowledged and stamped, and the bundle returned with its source; connections before it whose read failed are closed and forgotten, silent ones stay; the calls are exactly these. |
| RxLaws.ReadLaw | src/cspcl.c:756-800 | Which code a read has: OK exactly for a non-empty bundle that fits, TIMEOUT exactly for silence, SFP, CSP_RECV and NO_MEMORY for what is broken, empty or too large. |
| RxLaws.RecvLaw | src/cspcl.c:857-949 | A call returns OK if and only if some live connection, the one just accepted included, has a bundle that fits; TIMEOUT otherwise; a failed accept is reported at once. |
| RxLaws.CleanedTableRefuses | src/cspcl.c:398-418 | After a cleanup no slot is used, and every call is refused as not initialised. |
| RxFairness.ServedWithinEightCalls | src/cspcl.c:914-945 | While nobody connects, a connection that always has a fitting bundle is served within any 8 consecutive calls, at any tick, the wrap included. |
| RxFairness.ReadyCallSucceeds | src/cspcl.c:922-937 | A call with some fitting bundle waiting succeeds, keeps the ready connection, and advances the rotation by one. |
| RxLedger.EachReadAtMostOnce | src/cspcl.c:922-945 | In every run, one call reads no connection twice. |
| RxLedger.ExactlyOnceClose | src/cspcl.c:817-855 | In every run, an accepted connection is in exactly one used slot and not closed, or in none and closed exactly once. |
| ReceiverCoupling.ReceiverIsCoupled | rust-bindings/cspcl/src/inbound.rs:227-313 | In every reachable state: streams are subscribed exactly while receiving is on; `accept_running` exactly while there is one claimed start or one live accept thread, never two; bundles are kept only without a stream; no stream is subscribed during a close; every subscriber accepts items. |
| ReceiverCoupling.StepCoupled | rust-bindings/cspcl/src/inbound.rs:227-372 | Every step of every thread keeps the coupling invariant. |
| ReceiverCoupling.DeliverReachesNewest | rust-bindings/cspcl/src/inbound.rs:163-183 | With a stream open, the send to the last subscriber succeeds: the fallback for a failed send is never taken. ReceiverLaws.DeliveryGoesToNewest says which stream that is. |
| ReceiverLaws.RunRises | rust-bindings/cspcl/src/inbound.rs:232-244 | In every reachable state the subscribers are in the order they were opened. |
| ReceiverLaws.DeliveryGoesToNewest | rust-bindings/cspcl/src/inbound.rs:163-183 | In every run, a delivered bundle or error joins the end of the queue of the stream opened last among those subscribed; without one a bundle is kept and an error dropped; no other queue changes. |
| ReceiverLaws.DropPassesOn | rust-bindings/cspcl/src/inbound.rs:297-313 | In every run, the unread bundles of a dropped stream join, in order, the queue of the newest other stream, or those kept if there is none; no other queue changes. |
| ReceiverLaws.FailureIsTold | rust-bindings/cspcl/src/inbound.rs:273-290 | In every run, when the accept thread cannot start, every other subscriber gets the error at the end of its queue, all are unsubscribed, and the bundles of the stream itself are kept. |
| ReceiverLaws.FailedStreamYieldsTheError | rust-bindings/cspcl/src/inbound.rs:260-266 | In every run, a stream whose accept thread could not start holds that error and nothing else. |
| ReceiverLaws.AcceptsBelowTen | rust-bindings/cspcl/src/inbound.rs:543-546 | In every run, the accept thread goes on to accept if and only if fewer than ten listeners are unfinished. |
| ReceiverLaws.AcceptThreadEnds | rust-bindings/cspcl/src/inbound.rs:530-541 | In every run, the accept thread ends at its loop head if and only if receiving is off, clearing `accept_running`; otherwise only by a panic. |
| ReceiverLaws.ConnectionIsKept | rust-bindings/cspcl/src/inbound.rs:636-692 | In every run, a listener keeps its connection however many bundles it carries, as long as it is not evicted, the grace is not over, and no read fails or is hopeless. |
| ReceiverErrors.FaultsAreReported | rust-bindings/cspcl/src/inbound.rs:548-560 | In every run, each failed accept, socket that could not be opened and listener that could not start is reported by the accept thread exactly once, before anything else. |
| ReceiverErrors.ReadErrorsAreReported | rust-bindings/cspcl/src/inbound.rs:677-681 | In every run, a listener reports each failed read exactly once. |
| ReceiverErrors.UnstartedReadsNothing | rust-bindings/cspcl/src/inbound.rs:587-604 | In every run, a connection whose listener could not start is only closed and marked finished. |
| ReceiverConservation.NothingLostOrDuplicated | rust-bindings/cspcl/src/inbound.rs:163-372 | In every reachable state the multiset of acknowledged bundles is in hands + queued + kept + read. |
| ReceiverConservation.UnsubscribeStored | rust-bindings/cspcl/src/inbound.rs:297-313 | Dropping a stream moves its unread bundles and loses none. |
| ReceiverConservation.AcceptFailedStored | rust-bindings/cspcl/src/inbound.rs:273-290 | A failed start of the accept thread keeps every bundle of every stream. |
| ReceiverBounds.InboundBounds | rust-bindings/cspcl/src/inbound.rs:403-605 | In every reachable state: running listeners, and open connections, plus one accepted and not registered, are at most 10; outside the register-to-supersede window at most 8 are kept, with distinct keys. |
| ReceiverBounds.StepTable | rust-bindings/cspcl/src/inbound.rs:522-622 | Every step keeps table and threads in agreement and within the bounds, inside the window too. |
| ListenerTable.SupersedeBounded | rust-bindings/cspcl/src/inbound.rs:475-519 | Superseding restores the bound of 8 and distinct keys, and keeps the newcomer. |
| ListenerTable.ReconnectClosesOnlyTheStaleOne | rust-bindings/cspcl/src/inbound.rs:475-501 | A connection from a key already held evicts that connection and no other. |
| ListenerTable.NewcomerClosesAtMostOne | rust-bindings/cspcl/src/inbound.rs:497-519 | A connection from a new key evicts at most one other, a least recently active one. |
| ListenerTable.LeastRecentIsLeast | rust-bindings/cspcl/src/inbound.rs:505-518 | The candidate chosen is least recently active, the first registered among equals. |
| ListenerVec.Table.Supersede | rust-bindings/cspcl/src/inbound.rs:475-501 | The vector marks, forgets finished listeners and evicts exactly as `ListenerTable.Supersede` on its contents; a listener that finished changes nothing. |
| ListenerVec.Table.Open | rust-bindings/cspcl/src/inbound.rs:446-450 | Forgets exactly the finished listeners, in order, and counts the open connections. |
| ListenerVec.Table.MayAccept | rust-bindings/cspcl/src/inbound.rs:461-463 | Another connection may be accepted if and only if fewer than 10 are open. |
| ListenerVec.Table.Kept | rust-bindings/cspcl/src/inbound.rs:453-458 | The number of listeners not asked to close. |
| ListenerVec.FinishedAreNoDifference | rust-bindings/cspcl/src/inbound.rs:446-519 | Forgetting finished listeners changes neither the count of kept ones nor the choice of the one to evict. |
| ListenerRuns.SupersedeThrough | rust-bindings/cspcl/src/inbound.rs:475-519 | For any sequence of listeners and any part of it that holds all running ones, superseding in the part is superseding in the whole, flags of running listeners included. |
| ListenerRuns.SameCounts | rust-bindings/cspcl/src/inbound.rs:446-463 | As many are open, as many kept, and another may be accepted, in the part exactly as in the whole. |
| ListenerRuns.ForgettingIsNoDifference | rust-bindings/cspcl/src/inbound.rs:439-519 | In every state of every run, the vector beside the machine may accept exactly if the full table may, and holds every running listener with the same flags. |
| ListenerRuns.VectorRunsAlong | rust-bindings/cspcl/src/inbound.rs:439-519 | Every run of the receiver has such a run of the vector beside it. |
| ReceiverState.ReceiverState.Deliver | rust-bindings/cspcl/src/inbound.rs:163-183 | To the newest stream, or kept; an undeliverable error is dropped. |
| ReceiverState.ReceiverState.Subscribe | rust-bindings/cspcl/src/inbound.rs:229-250 | The locked part of opening a stream: kept bundles handed over in order, receiving on, accept thread claimed if none runs. |
| ReceiverState.ReceiverState.AcceptFailed | rust-bindings/cspcl/src/inbound.rs:273-290 | All other streams get the error, all are unsubscribed, receiving is off, the stream's bundles are kept. |
| ReceiverState.ReceiverState.Unsubscribe | rust-bindings/cspcl/src/inbound.rs:297-313 | The loop that redelivers unread bundles one by one moves them all, in order, and stops receiving if no stream is left. |
| ReceiverState.ReceiverState.BeginClose | rust-bindings/cspcl/src/inbound.rs:320-331 | Receiving off, all streams unsubscribed, one more close in progress; queues and kept bundles untouched. |
| ReceiverState.ReceiverState.SetReceiving | rust-bindings/cspcl/src/inbound.rs:154-160 | The stop is stamped when receiving goes off, not again while it stays off. |
| ReceiverState.ReceiverState.AcceptLoopHead | rust-bindings/cspcl/src/inbound.rs:530-541 | The accept thread goes on while receiving is on, and otherwise clears `accept_running`. |
| ReceiverState.ReceiverState.AcceptPanicked | rust-bindings/cspcl/src/inbound.rs:361-372 | A panic of the accept thread ends all streams and stops receiving. |
| ReceiverClose.ClosesAreSafe | rust-bindings/cspcl/src/instance.rs:98-128 | With any number of overlapping closes: no stream is subscribed while one is in progress; the socket is cleared only with no stream open and nobody in the C accept; the socket is open while the C accept runs. |
| ReceiverClose.ClearedUntilSubscribe | rust-bindings/cspcl/src/instance.rs:111-128 | Once cleared, the socket stays closed and receiving off until a later `subscribe`. |
| ReceiverClose.OnlySubscribeResumes | rust-bindings/cspcl/src/inbound.rs:245-249 | No step but opening a stream turns receiving on or moves the stamp of the stop. |
| ReceiverStop.AtMostOneMoreEach | rust-bindings/cspcl/src/inbound.rs:624-656 | During any period with receiving off, a listener delivers at most one more bundle. |
| ReceiverStop.AtMostTenMore | rust-bindings/cspcl/src/inbound.rs:624-656 | And all listeners together at most ten. |
| ReceiverStop.GraceIsKept | rust-bindings/cspcl/src/inbound.rs:207-216 | A listener closes its connection because of the stop only after receiving has been off, without a break, for the full 1 s, however many closes happen meanwhile. |
| ReceiverEviction.EvictedReadsOnceMore | rust-bindings/cspcl/src/inbound.rs:636-646 | Once asked to close, a listener reads at most once more, and then only to finish the read it was in. |
| ReceiverEviction.VictimIsLongestSilent | rust-bindings/cspcl/src/inbound.rs:497-519 | In every run, a connection closed for one from another peer received its last bundle, or was accepted, no later than any other that stays. |
| ReceiverEviction.ReconnectInRuns | rust-bindings/cspcl/src/inbound.rs:475-501 | In every run, a connection from a key already held evicts that connection and no other. |
| ReceiverEviction.NewcomerInRuns | rust-bindings/cspcl/src/inbound.rs:475-519 | In every run, one from a new key evicts exactly one other if more than 8 are kept, else none, and itself stays. |
| Hub.GraceLeft | rust-bindings/cspcl/src/inbound.rs:696-700 | Nothing is left if and only if the grace has passed; else exactly the time until it has; a clock behind the stamp counts as no time. |
| ReceiverOrder.StreamsOneAfterAnother | rust-bindings/cspcl/src/inbound.rs:163-313 | In every run without a close or a panic, failed starts included, where each stream is dropped before the next is opened: bundles read, then the open queue, then those kept are exactly the bundles delivered, in order. |
| ReceiverOrder.OrderIsKept | rust-bindings/cspcl/src/inbound.rs:163-331 | The same with closes and panics, as long as no stream goes away with unread bundles while later ones are kept. |
| ReceiverOrder.DropKeepsOrderIffOrderly | rust-bindings/cspcl/src/inbound.rs:297-313 | Dropping the one open stream keeps the order of different bundles if and only if it has none unread or none is kept. |
| ReceiverOrder.FailKeepsOrderIffOrderly | rust-bindings/cspcl/src/inbound.rs:273-290 | A failed start of the accept thread keeps the order of different bundles under exactly the same condition. |
| ReceiverOrder.CloseMayReorder | rust-bindings/cspcl/src/inbound.rs:320-331 | After a close, a delivery and then the drop of the stream, two bundles come in the wrong order. |
| ReceiverRuns.CloseReordersInARun | rust-bindings/cspcl/src/inbound.rs:320-331 | A run of the receiver, with one stream at a time, that delivers two bundles and keeps them in the wrong order, because a close came in between. |
| LinkShutdown.ShutdownIsFinal | rust-bindings/picod3tn-cspcl/src/link.rs:143-150 | After a `shutdown` returned, in every later state: no subscriber, no stream being opened, the socket closed, nobody in the C accept. |
| LinkStreams.EndsOnlyAfterShutdown | rust-bindings/picod3tn-cspcl/src/rx.rs:82-144 | A receive loop yields its end only after some `shutdown` began. |
| LinkStreams.ShutdownIsNotAFailure | rust-bindings/picod3tn-cspcl/src/rx.rs:122-141 | A loop that asks after a shutdown's close began ends; it never pauses and reopens. |
| LinkStreams.EndHasACause | rust-bindings/picod3tn-cspcl/src/rx.rs:122-129 | A loop sees its stream end only because the accept thread could not start or panicked, or because of a shutdown, which is then flagged. |
| LinkStreams.StreamsRunDry | rust-bindings/cspcl/src/inbound.rs:320-331 | From the close of a shutdown on, each open stream yields exactly what is queued in it, in order, and then is at its end for good. |
| Link.LinkRunsReceiver | rust-bindings/picod3tn-cspcl/src/link.rs:143-189 | Every run of the link is, seen from the receiver, a run of the receiver: all its theorems hold under the link. |
| ReceiveLoop.BackoffClosedForm | rust-bindings/picod3tn-cspcl/src/rx.rs:82-174 | For scripts of any length, every failure that is the k-th quick one in a row, failed opens and short-lived streams alike, waits min(500 * 2^k, 30000) ms. |
| ReceiveLoop.RowFromRestart | rust-bindings/picod3tn-cspcl/src/rx.rs:122-141 | A stream that outlived the delay in force restarts the sequence at 500 ms, and k quick failures later the pause is min(500 * 2^k, 30000) ms. |
| ReceiveLoop.Receiving.Next | rust-bindings/picod3tn-cspcl/src/rx.rs:82-144 | The loop returns the next bundle, or `None` only when over (or still waiting), skipping errors, and pauses and reopens as `Turn` says. |
| ReceiveLoop.YieldsInOrder | rust-bindings/picod3tn-cspcl/src/rx.rs:105-121 | For every script and at every turn, what was yielded, then what the open stream still holds, is the bundles of the streams opened so far, in order. |
| ReceiveLoop.EndsWhenTold | rust-bindings/picod3tn-cspcl/src/rx.rs:84-141 | For every script and at every turn: the loop is over if and only if the last thing that passed was a refusal, a stream that ended with the link closed, or a pause in which it was shut down, and nothing before was; its pauses are, in order, for the streams that could not be opened or ended otherwise, judged by their lifetimes. |
| ReceiveLoop.Backoff.Wait | rust-bindings/picod3tn-cspcl/src/rx.rs:165-173 | Waits the current delay and doubles it up to 30 s; false if shut down first. |
| LinkBackoff.LoopsAreScripted | rust-bindings/picod3tn-cspcl/src/rx.rs:82-144 | Refinement: in every run of the link, whatever other threads do, each receive loop has waited, yielded and ended as the loop does on some script. |
| LinkBackoff.BackoffInLinkRuns | rust-bindings/picod3tn-cspcl/src/rx.rs:147-174 | Hence in every run of the link each pause is min(500 * 2^k, 30000) ms for the k-th quick failure in a row. |
| LinkBackoff.ReopensAfterThePause | rust-bindings/picod3tn-cspcl/src/rx.rs:163-173 | A loop reopens only after its whole pause has passed, and only while no shutdown is flagged. |
| LinkBackoff.JudgedByItsLifetime | rust-bindings/picod3tn-cspcl/src/rx.rs:122-137 | In every run of the link, a stream that ended without a shutdown is judged by the time since it was opened, and the backoff starts over at 500 ms exactly if that is longer than the delay in force. |
| LinkYields.YieldsWhatItReads | rust-bindings/picod3tn-cspcl/src/rx.rs:105-121 | In every run of the link, a loop has yielded exactly the bundles among the items it took from the heads of its streams' queues, in order. |
| LinkYields.LoopsYieldAllThatIsRead | rust-bindings/picod3tn-cspcl/src/rx.rs:105-121 | In every run of the link, what was read from the receiver is what the loops yielded, dropped ones included. |
| LinkOwners.EveryStreamHasOneOwner | rust-bindings/picod3tn-cspcl/src/link.rs:160-179 | In every run of the link, each open stream has exactly one owner, the thread that opens it or the loop that reads it, and only open streams have one: no bundle goes to a stream that nobody reads. |
| EndToEnd.AcknowledgedIsInOnePlace | rust-bindings/cspcl/src/inbound.rs:645-656 | For every send to this receiver that returned OK, in every state from then on, the acknowledged copy is in exactly one of: a listener's hand, a stream's queue, kept, read. |
| EndToEnd.EachCopyInOnePlace | rust-bindings/cspcl/src/inbound.rs:163-183 | Each copy the receiver accepted is in exactly one place in every state of every run, and one it did not accept in none. |
| EndToEnd.NoThirdCopy | src/cspcl.c:582-602 | Whatever a send returned, only its two copies can be anywhere at the receiver, each once. |
| EndToEndOrder.ConnectionInOrder | rust-bindings/cspcl/src/inbound.rs:636-656 | In every run, what the only listener of a connection delivered, then what it holds, is exactly what was received on the connection, in the order it was sent. |
| EndToEndOrder.ReadInSendOrder | rust-bindings/cspcl/src/inbound.rs:163-313 | With streams one after another and no close or panic, the bundles of a connection that were read, among those of all connections, are the first ones received on it, in the order they were sent. |
| WireOrder.ReceivedInOrder | src/cspcl.c:756-800 | In every run, however much is lost, the bundles of a connection are received in the order they were sent on it. |
| Delivery.EveryBundleCanArrive | rust-bindings/cspcl/src/inbound.rs:522-692 | For every bundle and destination there is a run of sender and receiver in which it is sent, received, acknowledged, delivered and read: the theorems about runs are not empty. |

## Left out

- libcsp itself (SFP fragmentation, RDP, routing, interfaces) and `stubs/`: an environment with the bounds above.
- `cspcl_init`, interface setup, environment variables, logging, the FreeRTOS and pthread variants (the model has the age check, as without FreeRTOS).
- Null pointers for the instance and for the arguments of the receive functions: these would only add easy members; a null or empty bundle given to a send is modelled.
- RxTable.Receiver.RecvBundle: does not model how the timeout is split between accept and reads, because durations of calls into libcsp are not modelled.
- The idle timeout and the detection of resets by elapsed time: a listener may leave its loop after any read.
- Panics of listener threads, of the thread that opens a stream after it subscribed, and of the accept thread after it accepted a connection.
- ReceiverEviction.VictimIsLongestSilent: takes the stamps as read at one moment, because superseding is one step of the model; the code loads them one by one, and a listener that receives a bundle during the scan may be judged by its older stamp.
- Dropping the instance: what is kept or unread then is lost, as documented.
- Wake-ups: that a waiting thread is woken in time is not stated; the theorems are about what never happens, not about progress.
- PoolLru.PoolIsLruCache: before the tick wraps and without `cspcl_conn_pool_add`, which can insert a key twice by design; PoolLru.WrapEvictsTheMostRecent shows that the first bound is needed.
- Retry.RetryContract: without `cspcl_conn_pool_add`, for the same reason.
- Retry.OkIsMostRecent: before the tick wraps, which PoolLru.WrapEvictsTheMostRecent shows to be needed; the rest of the contract holds at any tick.
- EndToEndOrder.ReadInSendOrder: for a connection served by one listener, because libcsp accepts a connection once.
- AckProtocol.AckSoundness: for connections that the pool opened itself; for one adopted with `cspcl_conn_pool_add`, AckProtocol.AckProvesDeliveryIffNothingOutstanding gives the exact condition.
- `ud3tn-integration/`, `unibo-integration/` and `hardy-cspcl`: adapters over libraries not shown; the last repeats the reopen and close pattern of `rx.rs` and `link.rs`.
- Address, port and interface parsers, error categories, byte conversions and the FFI layer: small case tables.
