# Lock-free queues: a verified model

This project models the queues of the repository as state machines and proves what every run of them keeps. Each atomic load, store, compare-and-swap and fetch-and-add is one step of one thread; any number of threads is scheduled in any order; the ring size is any positive number.

| file | models |
|---|---|
| `Tickets.dfy` | the geometry of a ring buffer, and the abstract ring of tickets that CRQ and PRQ refine |
| `Prq.dfy`, `Crq.dfy` | the two rings, access by access, with the invariant of a single cell lifted to the ring |
| `RingPromises.dfy` | what each ring promises its callers |
| `PrqCalls.dfy`, `CrqCalls.dfy` | why a ring answers CLOSED, counted from the schedule, and what `fixState` leaves behind |
| `PrqAlone.dfy`, `CrqAlone.dfy` | a thread that runs alone on a ring is answered, and exactly how when nobody else is at work |
| `Words.dfy`, `PrqRing.dfy`, `CrqRing.dfy` | the rings as objects: packed 64-bit words, token words and the 128-bit compare-and-swap, updated in place |
| `RingList.dfy`, `RingListSafety.dfy`, `RingListRefinement.dfy` | the list of rings, over any ring that refines the ticket ring |
| `RingListAnswers.dfy`, `RingListProgress.dfy` | what a call on such a list returns with, and that a call that runs alone returns |
| `Queues.dfy` | LPRQueue and LCRQueue: that list over PRQ, which looks at a ring twice before leaving it, and over CRQ, which looks once |
| `LprRings.dfy` | LPRQueue as an object over PRQ objects |
| `LcrAbandons.dfy`, `LcrKeeps.dfy` | a run in which LCRQueue leaves an item behind for good, and exactly when it keeps its items |
| `Fifo.dfy` | the atomic first-in-first-out queue that the linked queues refine |
| `Plj.dfy`, `PljOwners.dfy`, `PljQueue.dfy` | PLJQueue: its helping protocol, who has yet to finish a half-done operation, and the object |
| `LinkedQueue.dfy`, `LinkedAlone.dfy`, `MsQueue.dfy`, `ValoisQueue.dfy` | MSQueue and ValoisQueue: their common protocol, its progress, and the two objects |
| `TwoLockQueue.dfy`, `TwoLockAlone.dfy`, `TwoLockList.dfy` | TwoLockQueue: its protocol with immediate deletion, its progress, and the object |

In every protocol module a thread's program counter names the access it performs next and carries its locals. `Next` is that access, `Inv` the invariant, `Run` the state after a schedule, and `Abs` the abstract state behind a concrete one. The class of each queue holds the shared words, nodes or cells as mutable fields; its `Step` performs one access in place and is proved to be `Next`.

How the proofs go. A ring cell is reasoned about alone: what one thread knows about its cell, and what two threads at the same cell know about each other, survives every access to that cell; accesses to other cells do not matter. Each access then is one step of a ledger of tickets (deposited, taken, retired). The list of rings is proved over that ledger only, so both lists share one proof. The linked queues are proved against an atomic queue: every access leaves it alone or is exactly the enqueue or dequeue of its thread.

Assumptions. Accesses are sequentially consistent. Items are not null, and for PRQ have low bit 0; thread tokens are distinct words with low bit 1. Tickets, and CRQ indices, stay below 2^63. The counters of PLJQueue are unbounded; those of MSQueue wrap modulo 2^32. Nodes are never reused while a queue is in use.

Where the code differs from what one may expect of it:

- `LCRQueue::dequeue` swings `_head` after a single EMPTY (include/lcr_queue.hpp:221-232). `LcrAbandons` gives a run, for every ring size, that loses an item this way. `LcrKeeps` says exactly when a run keeps the items of the rings it leaves, and that a check of the ring's tail against its head before each swing would be enough. `LPRQueue` asks the ring again (include/lpr_queue.hpp:215-219), and `LprQueue.NothingAbandoned` is proved for it.
- `t - h >= R` is an unsigned comparison (include/lcr_queue.hpp:117, include/lpr_queue.hpp:102). It also holds when the head has passed t, so a ring may be closed that is not full. `PrqCalls.OverflowDecides` and `CrqCalls.OverflowDecides` say that the call then gives up in just these cases, or after too many attempts.
- PRQ has nothing like the `fixState` of CRQ: once dequeues have taken its head past its tail, the next enqueue alone closes it (`PrqAlone.EnqueueAlone`), where CRQ goes on (`CrqAlone.EmptyThenEnqueue`).
- The comment at include/two_lock_queue.hpp:74-76 says that nobody can reach the old dummy any more. `tail_` may still point to it (`TwoLockQueue.TailDoesDangle`); what holds is that nobody follows `tail_` then.

## Model

| member | source | states |
|---|---|---|
| `TicketRing.StepKeepsValid` | include/lcr_queue.hpp:85-169 | every step of the abstract ring keeps its invariant: a ticket belongs to one enqueuer and one dequeuer, is deposited once, taken only if deposited, never both deposited and retired, and every dequeue ticket drawn is taken, retired or still being visited |
| `TicketRing.StepGrows` | include/lcr_queue.hpp:85-169 | a step never undoes a deposit, a take, a retirement or the closing; nothing is deposited under a retired ticket; a new deposit or take is that of the stepping thread's own ticket |
| `TicketRing.EmptyIsHonest` | include/lcr_queue.hpp:163-167 | when a dequeuer's tail check answers EMPTY, every item in the ring already has its own dequeuer or has been taken |
| `TicketRing.ClaimedIffPassed` | include/lcr_queue.hpp:130-167 | every item of a ring has been taken or has its dequeuer if and only if the head has passed every ticket that was deposited under |
| `TicketRing.ClosedAndEmptyIsDrained` | include/lpr_queue.hpp:215-219 | EMPTY from a closed ring means that no ticket at or beyond the head holds or can still receive an item |
| `TicketRing.DrainedForever` | include/lpr_queue.hpp:215-221 | a drained ring stays drained, whatever is called on it |
| `Prq.RefinesRing` | include/lpr_queue.hpp:64-152 | every single-word access of PRQ is one step of the ticket ring: token, stamp and item swaps amount to one deposit, the plain NULL store to one take, a failed visit to one retirement; when a ring is closed is said by `PrqCalls` |
| `Prq.NextKeepsInv` | include/lpr_queue.hpp:64-152 | every access of any thread keeps the cell, token and pairwise knowledge invariant |
| `Prq.EveryRunKeepsInv` | include/lpr_queue.hpp:57-152 | the invariant holds after every schedule of any number of threads, from an empty ring of any size |
| `Prq.AccessKeepsPair` | include/lpr_queue.hpp:84-92 | of two threads at one cell: while a token stands under its owner's own stamp, no other thread can move that stamp or is about to; a dequeuer that may still retire a ticket of an unsafe cell drew it before any enqueuer that passed the head check |
| `Prq.AccessKeepsCell` | include/lpr_queue.hpp:84-148 | after every access a cell holds exactly the pending item of its tickets, under that ticket's round, and turns retired tickets away by its epoch or its unsafe bit |
| `Prq.ClearedItemIsOwn` | include/lpr_queue.hpp:124-127 | the item a dequeuer is about to overwrite was deposited under the dequeuer's own ticket |
| `Prq.RetiredHasNoItem` | include/lpr_queue.hpp:129-147 | a dequeuer leaves its cell without an item only if nothing was deposited under its ticket |
| `Prq.FreshEnqueueSucceeds` | include/lpr_queue.hpp:187-188 | an enqueue alone on a new PRQ deposits its item under the first ticket in six accesses, so ignoring its result is safe |
| `PrqPromises.DepositMeetsItsDequeuer` | include/lpr_queue.hpp:86-98 | when the token-to-item swap succeeds the cell is exactly (safe, own round, own token), the ticket is not retired, and its dequeuer has yet to draw or is still at the cell |
| `PrqPromises.OnlyItsDequeuerTakes` | include/lpr_queue.hpp:116-148 | an item not yet taken stays in its cell across every access of every thread, except the access by which the dequeuer of that very ticket returns it |
| `PrqPromises.ClearOverwritesOwnItem` | include/lpr_queue.hpp:124-127 | the plain NULL store overwrites the item being returned, never a token or a newer item |
| `PrqPromises.TokenStandsInOneCell` | include/lpr_queue.hpp:86-97 | a thread's token is in one cell at most, and only during that thread's attempt on that cell |
| `PrqPromises.EmptyIsHonest` | include/lpr_queue.hpp:150 | at the tail read that answers EMPTY every item not yet taken sits in its cell with its dequeuer at that cell |
| `PrqPromises.RunGrows` | include/lpr_queue.hpp:64-152 | over whole runs deposits, takes and retirements are never undone and no ticket retired before is deposited later |
| `PrqPromises.ItemIsNeverLost` | include/lpr_queue.hpp:64-152 | an item once deposited is ever after in its cell or taken, and whoever gets that ticket gets that item |
| `PrqPromises.AnswersAreApart` | include/lpr_queue.hpp:96-98 | no two dequeues get the same ticket and no two enqueues are answered OK for the same ticket |
| `PrqCalls.ClosedHasReason` | include/lpr_queue.hpp:64-106 | over every schedule: an enqueue answers CLOSED only if at some instant of that very call the ring was closed already, or the head had passed its last ticket or was R or more behind it, or the call had drawn more than STARVING_THRESHOLD + 1 tickets |
| `PrqCalls.OverflowDecides` | include/lpr_queue.hpp:101-106 | after a failed attempt the call closes the ring exactly in those cases, and otherwise draws again; tickets are counted from the schedule |
| `PrqCalls.GivesUp` | include/lpr_queue.hpp:101-106 | over every schedule: once a call has seen such a reason it draws no further ticket |
| `PrqCalls.ClosedIsClosed` | include/lpr_queue.hpp:101-106 | an enqueue that has answered CLOSED leaves the ring closed |
| `PrqAlone.AloneIsAnswered` | include/lpr_queue.hpp:64-152 | from any state, whatever other threads have left undone, a thread that runs alone is answered within a number of accesses that is computed from the state |
| `PrqAlone.EveryRunFits` | include/lpr_queue.hpp:57-152 | over every schedule: the cell of a ticket that neither side has drawn has not seen that ticket's round; with the invariant this is all that the two rows below ask of a ring |
| `PrqAlone.EnqueueAlone` | include/lpr_queue.hpp:64-106 | with nobody else at work an enqueue is answered OK, under the ticket of the tail, exactly if the ring is open, its head has not passed its tail and no item waits in the tail's cell, and CLOSED otherwise |
| `PrqAlone.DequeueAlone` | include/lpr_queue.hpp:109-152 | with nobody else at work a dequeue answers with the oldest item, taking that and nothing else, and answers EMPTY exactly if there is none |
| `Crq.RefinesRing` | include/lcr_queue.hpp:85-169 | every access of CRQ, `fixState` included, is one step of the same ticket ring that PRQ refines; when a ring is closed, and what `fixState` leaves, is said by `CrqCalls` |
| `Crq.NextKeepsInv` | include/lcr_queue.hpp:46-169 | every access of any thread keeps the node and knowledge invariant |
| `Crq.EveryRunKeepsInv` | include/lcr_queue.hpp:78-169 | the invariant holds after every schedule of any number of threads, from an empty ring of any size |
| `Crq.DepositedTicketIsOpen` | include/lcr_queue.hpp:107-114 | a double-word swap that deposits finds its ticket not retired, although value, index and head were read separately |
| `Crq.AccessKeepsNode` | include/lcr_queue.hpp:130-161 | after every access a node holds exactly the pending item of its index, and turns retired tickets away by its index or its unsafe bit |
| `Crq.RetiredHasNoItem` | include/lcr_queue.hpp:139-161 | a dequeuer leaves its node without an item only if nothing was deposited under its ticket |
| `Crq.FreshEnqueueSucceeds` | include/lcr_queue.hpp:204-205 | an enqueue alone on a new CRQ deposits its item under the first ticket in four accesses |
| `CrqPromises.DepositMeetsItsDequeuer` | include/lcr_queue.hpp:101-114 | when the deposit succeeds the ticket is not retired and its dequeuer has yet to draw or is still at the node |
| `CrqPromises.OnlyItsDequeuerTakes` | include/lcr_queue.hpp:130-161 | an item not yet taken stays in its node across every access, except the one by which the dequeuer of that ticket returns it |
| `CrqPromises.EmptyIsHonest` | include/lcr_queue.hpp:163-167 | at the tail read that leads to EMPTY, before `fixState`, every item not yet taken sits in its node with its dequeuer there |
| `CrqPromises.RunGrows` | include/lcr_queue.hpp:85-169 | over whole runs deposits, takes and retirements are never undone and no ticket retired before is deposited later |
| `CrqPromises.ItemIsNeverLost` | include/lcr_queue.hpp:85-169 | an item once deposited is ever after in its node or taken, and whoever gets that ticket gets that item |
| `CrqPromises.AnswersAreApart` | include/lcr_queue.hpp:107-145 | no two dequeues get the same ticket and no two enqueues are answered OK for the same ticket |
| `CrqPromises.TailActsAsPair` | include/lcr_queue.hpp:46-56 | under draws, closing and the compare-and-swap of `fixState` the tail's ticket never decreases, a draw moves it by exactly one, and the closed bit is never cleared |
| `CrqPromises.TicketsAreUnique` | include/lcr_queue.hpp:94-98 | no two enqueuers hold the same ticket |
| `CrqCalls.ClosedHasReason` | include/lcr_queue.hpp:85-121 | over every schedule: an enqueue answers CLOSED only if at some instant of that very call the ring was closed already, or the head had passed its last ticket or was R or more behind it, or the call had drawn more than STARVING_THRESHOLD + 1 tickets |
| `CrqCalls.OverflowDecides` | include/lcr_queue.hpp:116-121 | after a failed attempt the call closes the ring exactly in those cases, and otherwise draws again; tickets are counted from the schedule |
| `CrqCalls.GivesUp` | include/lcr_queue.hpp:116-121 | over every schedule: once a call has seen such a reason it draws no further ticket |
| `CrqCalls.ClosedIsClosed` | include/lcr_queue.hpp:116-121 | an enqueue that has answered CLOSED leaves the ring closed |
| `CrqCalls.EmptyMovesTail` | include/lcr_queue.hpp:46-56 | over every schedule: a dequeue that has answered EMPTY retired its last ticket, and from then on the ring is closed or its tail is past that ticket |
| `CrqCalls.QuiescentTail` | include/lcr_queue.hpp:46-56 | over every schedule: while no dequeue is at work the ring is closed or its tail is not behind its head |
| `CrqAlone.AloneIsAnswered` | include/lcr_queue.hpp:46-169 | from any state, whatever other threads have left undone, a thread that runs alone is answered, `fixState` included, within a number of accesses that is computed from the state |
| `CrqAlone.EveryRunFits` | include/lcr_queue.hpp:78-169 | over every schedule: the index of the node of a ticket that neither side has drawn is not past that ticket; with the invariant and the tail minded this is all that the three rows below ask of a ring |
| `CrqAlone.EnqueueAlone` | include/lcr_queue.hpp:85-121 | with nobody else at work an enqueue is answered OK, under the ticket of the tail, exactly if the ring is open and no item waits in the tail's node, and CLOSED otherwise; in at most five accesses |
| `CrqAlone.DequeueAlone` | include/lcr_queue.hpp:124-169 | with nobody else at work a dequeue answers with the oldest item, taking that and nothing else, and answers EMPTY exactly if there is none |
| `CrqAlone.EmptyThenEnqueue` | include/lcr_queue.hpp:163-167 | after a dequeue that alone answered EMPTY on an open ring, an enqueue alone is answered OK |
| `Words.PackedWord` | include/lcr_queue.hpp:20-43 | what is packed into a 64-bit word, flag and 63-bit number, is what is unpacked |
| `Words.DrawOnPackedTail` | include/lcr_queue.hpp:94-96 | fetch_add(1) on the packed tail adds one to the ticket and leaves the closed bit, below 2^63 |
| `Words.CloseOnPackedTail` | include/lcr_queue.hpp:118 | fetch_or(1 << 63) sets the closed bit and leaves the ticket |
| `Words.HeadAgainstTailWord` | include/lcr_queue.hpp:52 | comparing a head with a whole tail word: a closed word is never below the head |
| `Words.OverflowTest` | include/lcr_queue.hpp:116-117 | the unsigned test `t - h >= R` holds exactly if t is R or more ahead of the head or behind it |
| `Words.WideIsInjective` | include/lcr_queue.hpp:58-68 | two node word pairs give the same 128-bit word only if both halves agree |
| `PrqRing.ValueCodec` | include/lpr_queue.hpp:43-49 | NULL, tokens and items never share a word, so comparing words compares values |
| `PrqRing.StampCodec` | include/lpr_queue.hpp:17-28 | two stamp words are equal exactly if safe bit and epoch are |
| `PrqRing.Read` | include/lpr_queue.hpp:79-147 | deciding on loaded words takes the branch that the decoded cell takes |
| `PrqRing.Ring.CasStamp` | include/lpr_queue.hpp:90-91 | a compare-and-swap of the stamp word succeeds exactly if the cell's stamp is the expected one, and then changes that stamp and nothing else |
| `PrqRing.Ring.CasValue` | include/lpr_queue.hpp:86-96 | a compare-and-swap of the value word succeeds exactly if the cell's value is the expected one, and then changes that value and nothing else |
| `PrqRing.Ring.Step` | include/lpr_queue.hpp:64-152 | an access to the counter words and cell array, in place, is the access of the state machine and keeps the invariant |
| `CrqRing.NodeCodec` | include/lcr_queue.hpp:20-30 | two node word pairs are equal exactly if safe bit, index and value are |
| `CrqRing.Read` | include/lcr_queue.hpp:101-111 | deciding on loaded words takes the branch that the decoded node takes |
| `CrqRing.Ring.Cas2` | include/lcr_queue.hpp:58-68 | the 128-bit compare-and-swap succeeds exactly if the node is the expected one, and then replaces both words of that node |
| `CrqRing.Ring.CasTail` | include/lcr_queue.hpp:54 | the compare-and-swap of `fixState` never succeeds on a closed tail and never changes the closed bit |
| `CrqRing.Ring.Step` | include/lcr_queue.hpp:46-169 | an access to the counter words and node array, in place, is the access of the state machine and keeps the invariant |
| `RingListSafety.StepKeepsInv` | include/lpr_queue.hpp:174-223 | every step of `enqueue` or `dequeue` on a list of rings, with or without the second look at a ring, keeps the list invariant |
| `RingListRefinement.StepRefines` | include/lpr_queue.hpp:174-223 | a list of rings that refine the ticket ring takes only steps of a list of ticket rings |
| `RingListRefinement.EveryRunKeepsInv` | include/lpr_queue.hpp:174-223 | every run of a list of any such rings keeps the invariants of list and rings |
| `RingListAnswers.EnqueueDeposits` | include/lpr_queue.hpp:174-196 | over every run of a list of rings that refine the ticket ring: a call enqueue(x) that has returned has logged, by one step of its own, that it enqueued that x, and x is deposited at that position |
| `RingListAnswers.DequeueAnswers` | include/lpr_queue.hpp:199-223 | over every such run: a call dequeue() that has returned x has logged, by one step of its own, that it dequeued x, which was deposited and is taken there; one that has returned false has logged that |
| `RingListAnswers.LatestCall` | include/lpr_queue.hpp:174-223 | every thread that has called has exactly such a call, so the two theorems speak of every answer |
| `RingListAnswers.FalseSawLastRing` | include/lcr_queue.hpp:216-234 | over every such run: a call that answers false was, at some earlier instant, in the last ring of the list, the head's, with every item of that ring taken or with its dequeuer there |
| `RingListProgress.AloneReturns` | include/lpr_queue.hpp:174-223 | from every reachable state a thread that runs alone returns from its call, provided rings answer threads that run alone |
| `RingListSafety.NoOvertaking` | include/lpr_queue.hpp:178-222 | real-time FIFO: if enqueue(x) returned before enqueue(y) began and y was returned before a dequeue began, that dequeue does not return x |
| `LprQueue.PrqRefinesTickets` | include/lpr_queue.hpp:57-152 | PRQ meets what the list needs of a ring |
| `LprQueue.NothingAbandoned` | include/lpr_queue.hpp:215-221 | once `_head` has left a ring it is closed, every item in it sits in its cell with its dequeuer there, and every ticket an enqueuer still holds is retired or being visited |
| `LprQueue.FalseIsHonest` | include/lpr_queue.hpp:204-213 | `return false` happens only if at some instant of that call every item in all rings already had its own dequeuer at its cell |
| `LprQueue.LprIsFifo` | include/lpr_queue.hpp:174-223 | the returns of every run of LPRQueue are in real-time FIFO order, no position twice, and a dequeue returns the item enqueued at its position |
| `LprQueue.LprDepositsOnce` | include/lpr_queue.hpp:178-195 | every deposit in a published ring is that of exactly one enqueue, which has returned or is about to |
| `LprQueue.LprConserves` | include/lpr_queue.hpp:174-223 | an enqueued item is in the cell of its ticket or was taken; every take is that of exactly one dequeue and every deposit that of exactly one enqueue, returned or, exclusively, about to; a returned item was enqueued at its position |
| `LprQueue.LprSkipsNothing` | include/lpr_queue.hpp:199-223 | no older item is skipped: once an item has been returned, every item at an earlier position is taken or sits in its cell with its own dequeuer there |
| `LprQueue.EnqueuePutsItem` | include/lpr_queue.hpp:174-196 | an enqueue that has returned has put the item it was called with into the queue: it is in the cell of the position logged, or has been taken |
| `LprQueue.DequeueTakesItem` | include/lpr_queue.hpp:199-223 | a dequeue that has returned an item has taken that very item, by one step of its own |
| `LprQueue.AloneReturns` | include/lpr_queue.hpp:174-223 | a thread that from any instant of a run on runs alone returns from its call |
| `LcrQueue.CrqRefinesTickets` | include/lcr_queue.hpp:78-169 | CRQ meets what the list needs of a ring |
| `LcrQueue.LcrIsFifo` | include/lcr_queue.hpp:191-234 | the returns of every run of LCRQueue are in real-time FIFO order, no position twice, and a dequeue returns the item enqueued at its position |
| `LcrQueue.LcrDepositsOnce` | include/lcr_queue.hpp:195-212 | every deposit in a published ring is that of exactly one enqueue, which has returned or is about to |
| `LcrQueue.LcrConserves` | include/lcr_queue.hpp:191-234 | an enqueued item is in the node of its ticket or was taken; every take is that of exactly one dequeue and every deposit that of exactly one enqueue, returned or, exclusively, about to; a returned item was enqueued at its position |
| `LcrQueue.EnqueuePutsItem` | include/lcr_queue.hpp:191-213 | an enqueue that has returned has put the item it was called with into the queue: it is in the node of the position logged, or has been taken |
| `LcrQueue.DequeueTakesItem` | include/lcr_queue.hpp:216-227 | a dequeue that has returned an item has taken that very item, by one step of its own |
| `LcrQueue.FalseIsHonest` | include/lcr_queue.hpp:220-230 | `return false` happens only if at some earlier instant of that very call the head's ring was the last of the list, as it is at the return, and every item of that ring not yet taken was in its node with its dequeuer there; so only items of rings already left may be missed |
| `LcrQueue.AloneReturns` | include/lcr_queue.hpp:191-234 | a thread that from any instant of a run on runs alone returns from its call |
| `LcrAbandons.HeadLeavesItem` | include/lcr_queue.hpp:216-234 | for every ring size some run moves `_head` past an enqueued item that no dequeue is working on |
| `LcrAbandons.LostForever` | include/lcr_queue.hpp:216-234 | such an item is never returned by any continuation of the run |
| `LcrKeeps.ItemIsVisitedIffPassed` | include/lcr_queue.hpp:216-234 | exactly per item: an item not yet taken has its dequeuer at its node if and only if the ring's head has passed its ticket |
| `LcrKeeps.ClaimedIffNothingAhead` | include/lcr_queue.hpp:228-232 | exactly per ring, on words that can be read before the swing: every item has been taken or has its dequeuer if and only if no node holds an item under an index at or beyond the head |
| `LcrKeeps.KeepsItemsIffCareful` | include/lcr_queue.hpp:216-234 | exactly per run: at every instant all items of the rings left behind are taken or have their dequeuers if and only if no swing leaves a ring with an item ahead of its head and no deposit into a ring already left is under a ticket at or beyond its head |
| `LcrKeeps.PassedRingMayBeLeft` | include/lcr_queue.hpp:228-232 | sufficient: in a closed ring whose tail is not ahead of its head every item, now and later, is taken or has its dequeuer at its node |
| `LcrKeeps.CheckedSwingsLoseNothing` | include/lcr_queue.hpp:228-232 | sufficient: in every run whose swings all find the tail not ahead of the head in the ring they leave, every ring left behind is drained and all its items are claimed |
| `LprRings.Queue.NewRing` | include/lpr_queue.hpp:187-188 | a new PRQ in which one thread has enqueued alone holds exactly that item under its first ticket |
| `LprRings.Queue.Step` | include/lpr_queue.hpp:174-223 | an access to the list of PRQ objects, in place, is one step of the list and keeps the list invariant |
| `LprRings.Queue.Begin` | include/lpr_queue.hpp:174-199 | a call puts its thread at the first access of enqueue, with the item it was called with, or of dequeue |
| `LprRings.Queue.DequeueGivesItem` | include/lpr_queue.hpp:206-209 | when the object shows that a dequeue has answered x, that call has logged that it dequeued x, which was deposited and is taken at that position |
| `LprRings.Queue.EnqueuePutsItem` | include/lpr_queue.hpp:182-194 | when the object shows that an enqueue has returned, that call has logged that it enqueued its item, which was deposited at that position |
| `LprRings.Queue.FalseFoundEmpty` | include/lpr_queue.hpp:212-213 | when the object shows the answer false, that call has logged that it found every item claimed |
| `LprRings.Queue.ReturnedShows` | include/lpr_queue.hpp:174-223 | a call that has returned shows its answer, an item as that very item |
| `Fifo.RunsAreFifo` | src/correctness.cc:42-60 | in every run of the atomic queue the record of items enqueued only grows at its end, and the number dequeued never falls or exceeds it |
| `Fifo.AnswersAreFifo` | src/correctness.cc:42-60 | in every run of the atomic queue the dequeue that removes item number r of the record answers with exactly that item, so items come out in the order they went in |
| `Fifo.EmptyAnswersAreHonest` | include/plj_queue.hpp:229-231 | a dequeue of the atomic queue that answers empty saw it empty at an instant of its own call |
| `Fifo.CallTakesEffect` | src/correctness.cc:42-60 | in every run of the atomic queue a call that has returned has taken effect by one step of its own inside the call: it has appended the item it was called with, or removed the oldest item and answers with it; or the queue was empty inside the call |
| `Plj.NextKeepsInv` | include/plj_queue.hpp:88-258 | every access of any thread, however stale its snapshot, keeps the shape of the queue and what every thread knows |
| `Plj.AccessEffect` | include/plj_queue.hpp:88-258 | the appending swap, the tail swap on an empty queue, the head shift and the DEQ mark each are exactly one enqueue or dequeue of the right item; every other access leaves the abstract queue alone |
| `Plj.RefinesFifo` | include/plj_queue.hpp:88-258 | every access is a step of the atomic FIFO queue |
| `Plj.EveryRunKeepsInv` | include/plj_queue.hpp:81-258 | the invariant holds after every schedule of any number of threads |
| `Plj.EveryRunIsFifo` | include/plj_queue.hpp:88-258 | every run is a run of the atomic FIFO queue |
| `Plj.CallReturns` | include/plj_queue.hpp:88-258 | over every schedule: a call that has returned added the item it was called with, or removed the item it answers with, by one access of its own inside the call; `false` means that the queue was empty inside the call |
| `Plj.DecisionKnows` | include/plj_queue.hpp:46-62 | the branch chosen on a finished snapshot rests on facts that bind every compare-and-swap it makes |
| `Plj.FollowsFigure2` | include/plj_queue.hpp:102-161 | shared memory moves only 7-8-3, 3 to 4 or 5, 4-6-7, 5 to 1, 1 to 2 or 3, 2 to 1 or 5, or stays, whatever stale helpers do |
| `Plj.NullOnlyWhenMarked` | include/plj_queue.hpp:175-238 | no access follows null; the shifts and swings that re-read a delinked object never install null; the tail becomes null only when the sole object carries a DEQ mark |
| `Plj.SnapshotIsAtomic` | include/plj_queue.hpp:65-78 | a snapshot returns a head, a tail and, for a non-null tail, a next that were the shared words at one instant from which on the thread has not left that snapshot |
| `Plj.StaleNextIsIgnored` | include/plj_queue.hpp:46-78 | with a null tail a left-over next changes neither the state chosen nor the branch taken |
| `Plj.FalseMeansEmpty` | include/plj_queue.hpp:229-231 | `return false` happens only if the queue was empty at an instant from which on the thread has not left the snapshot that the answer rests on |
| `Plj.HelpAlone` | include/plj_queue.hpp:118-160 | in a state that needs help, one helper alone reaches a new iteration in a state that needs none, without another snapshot |
| `Plj.SoloCompletes` | include/plj_queue.hpp:96-162 | from every reachable state a thread that starts a loop iteration and runs alone completes with at most two snapshots, in at most 17 accesses |
| `PljOwners.EveryRunMinds` | include/plj_queue.hpp:96-227 | over every schedule: whenever the queue is in a state of Figure 2 that needs help, the thread whose operation is half done has yet to make the very update that is missing |
| `PljOwners.QuiescentIsFinished` | include/plj_queue.hpp:96-227 | with no call running the queue is in state 1, 3 or 7: operations that have returned leave nothing half done |
| `PljQueue.Queue.Step` | include/plj_queue.hpp:65-258 | an access to the shared pointers and objects, in place, is the access of the state machine, follows no missing object and keeps the invariant |
| `LinkedQueue.NextKeepsInv` | include/ms_queue.hpp:55-141 | every access keeps the chain, the ends, what each thread knows and, for Valois, the accounting of passed nodes |
| `LinkedQueue.AccessEffect` | include/ms_queue.hpp:78-128 | the link swap is exactly one enqueue and the head swap exactly one dequeue of the oldest item; every other access leaves the abstract queue alone |
| `LinkedQueue.RefinesFifo` | include/ms_queue.hpp:55-141 | every access is a step of the atomic FIFO queue, with counters wrapping modulo 2^32 |
| `LinkedQueue.EveryRunKeepsInv` | include/valois_queue.hpp:60-112 | the invariant holds after every schedule, including spurious failures of the weak swap in `retire` |
| `LinkedQueue.EveryRunIsFifo` | include/valois_queue.hpp:60-112 | every run of either queue is a run of the atomic FIFO queue |
| `LinkedQueue.CallReturns` | include/valois_queue.hpp:60-112 | over every schedule of either queue: a call that has returned added the item it was called with, or removed the item it answers with, by one access of its own inside the call; `false` means that the queue was empty inside the call |
| `LinkedAlone.AloneReturns` | include/valois_queue.hpp:60-112 | from every reachable state of either queue, whatever the others have left undone, a thread that runs alone has returned after 19 accesses, retiring included |
| `LinkedAlone.TailReachesNode` | include/ms_queue.hpp:90-92 | over every schedule of either queue: when an enqueue returns the tail has reached its node, by its own swing or by the help of others |
| `LinkedAlone.EveryRunMindsLag` | include/ms_queue.hpp:71-92 | over every schedule of either queue: a tail that lags behind the last node is about to be swung by the thread that linked that node |
| `LinkedAlone.QuiescentTailIsLast` | include/ms_queue.hpp:71-92 | with no call running the tail is at the last node |
| `LinkedQueue.NeverFollowsNull` | include/ms_queue.hpp:123 | no reachable access follows null; in particular next is not null at D12 |
| `LinkedQueue.EndsAdvance` | include/ms_queue.hpp:55-141 | head and tail advance one link at a time, the head never passes the tail, and the tail is at most one node behind the last |
| `LinkedQueue.NextKeepsPartition` | include/valois_queue.hpp:102-109 | every node the head has passed is on the retired stack or in the hands of a thread between its head swap and its retire swap |
| `LinkedQueue.FailKeepsInv` | include/valois_queue.hpp:21-25 | a spurious failure of the weak swap in `retire` keeps the invariant |
| `LinkedQueue.DestructorFreesEachNodeOnce` | include/valois_queue.hpp:55-58 | when no call is running the live chain and the retired stack together list every node ever linked, each exactly once |
| `MsQueue.Queue.Step` | include/ms_queue.hpp:55-141 | an access to counted pointers and nodes, in place, is the access of the state machine and keeps the invariant |
| `ValoisQueue.Queue.Step` | include/valois_queue.hpp:60-112 | an access to bare pointers and nodes, in place, is the access of the state machine and keeps the invariant |
| `ValoisQueue.Queue.FailStep` | include/valois_queue.hpp:21-25 | a failing weak swap makes `retire` load again and keeps the invariant |
| `ValoisQueue.Queue.DeleteChain` | include/valois_queue.hpp:28-34 | walks a chain to its end, reads no deleted node, deletes none twice and deletes all of it |
| `ValoisQueue.Queue.DeleteRetired` | include/valois_queue.hpp:36-42 | walks the retired stack to its end, reads no deleted node, deletes none twice and deletes all of it |
| `ValoisQueue.Queue.Destroy` | include/valois_queue.hpp:55-58 | when no call is running the destructor deletes exactly the nodes that were ever in the list |
| `TwoLockQueue.NextKeepsInv` | include/two_lock_queue.hpp:46-79 | every access keeps the chain, the locks, what each thread knows and the accounting of passed nodes |
| `TwoLockQueue.NoAccessToDeletedNodes` | include/two_lock_queue.hpp:46-79 | no reachable access touches or deletes a deleted node; the head is always live, and the tail whenever its lock is free |
| `TwoLockQueue.RefinesFifo` | include/two_lock_queue.hpp:46-79 | the link store is exactly one enqueue, the head store exactly one dequeue, and reading a null next the instant of an empty answer |
| `TwoLockQueue.EveryRunKeepsInv` | include/two_lock_queue.hpp:25-79 | the invariant holds after every schedule of any number of threads |
| `TwoLockQueue.EveryRunIsFifo` | include/two_lock_queue.hpp:46-79 | every run is a run of the atomic FIFO queue |
| `TwoLockQueue.CallReturns` | include/two_lock_queue.hpp:46-79 | over every schedule: a call that has returned added the item it was called with, or removed the item it answers with, by one access of its own inside the call; `false` means that the queue was empty inside the call |
| `TwoLockAlone.AloneReturnsIff` | include/two_lock_queue.hpp:46-79 | from every reachable state a thread that runs alone has returned after seven accesses if and only if it does not wait for a lock that is held |
| `TwoLockAlone.HolderIsFree` | include/two_lock_queue.hpp:46-79 | a thread that waits for a lock waits for another one, which is inside the section of that lock and waits for none |
| `TwoLockQueue.MutualExclusion` | include/two_lock_queue.hpp:50-53 | no two threads are between taking and releasing the same lock |
| `TwoLockQueue.TailDanglesOnlyBeforeUpdate` | include/two_lock_queue.hpp:51-52 | `tail_` points to a deleted node only while the holder of the tail lock has linked its node and not yet moved the tail |
| `TwoLockQueue.TailDanglesIff` | include/two_lock_queue.hpp:51-77 | exactly: `tail_` points to a deleted node if and only if the holder of the tail lock has linked its node and not yet moved the tail, that node has been dequeued, and no dequeuer still has the old dummy to delete |
| `TwoLockQueue.TailDoesDangle` | include/two_lock_queue.hpp:74-77 | some run does delete the node `tail_` points to |
| `TwoLockQueue.QuiescentReclamation` | include/two_lock_queue.hpp:77 | when no call is running exactly the nodes the head has passed have been deleted |
| `TwoLockList.Queue.Step` | include/two_lock_queue.hpp:46-79 | an access to plain pointers, locks and nodes, in place, is the access of the state machine, touches no deleted node and keeps the invariant |
| `TwoLockList.Queue.Destroy` | include/two_lock_queue.hpp:35-44 | when no call is running the destructor leaves every node ever linked deleted, none of them twice |

## Left out

- LcrQueue.LcrConserves: does not say that an item can still be reached by a later dequeue, because that is false (`LcrAbandons.HeadLeavesItem`); `LcrKeeps.KeepsItemsIffCareful` gives the exact condition.
- LcrKeeps.KeepsItemsIffCareful: is about claimed items at every instant; an item that is unclaimed when its ring is left may still be taken by a dequeue that is inside that ring and has yet to draw.
- PrqRing.Ring.Step: does not model tickets of 2^63 and more, where the ticket would run into the closed bit.
- CrqRing.Ring.Step: does not model tickets or indices of 2^63 and more.
- LprRings.Queue.Step: asks the same of every ring of the list.
- Plj.RefinesFifo: does not model the wrap-around of the 32-bit counters, which protect reused words; nodes are not reused, but a word could return to an old value after 2^32 updates.
- Plj.SoloCompletes: is progress of a thread running alone, not lock-freedom under contention.
- LprQueue.AloneReturns: the same, and so for every other queue but TwoLockQueue.
- LinkedAlone.AloneReturns: a weak compare-and-swap that fails for no reason for ever could keep `retire` in its loop; alone means without such failures.
- The bit operations are written as arithmetic: masking off the top bit is the remainder by 2^63, setting it is an addition.
- The list of CRQs is not given as an object of its own, as it differs from LPRQueue's in one branch; `LcrQueue` has it on values.
- Node and ring pointers are numbers of nodes ever allocated; aliasing by address reuse is not modelled.
- Work on memory that no other thread can reach yet is not split into accesses: a node is filled when its call begins, and a new ring, with its first item, when it is linked (`Prq.FreshEnqueueSucceeds` and `Crq.FreshEnqueueSucceeds` say what that work does).
- A new ring that loses the race for `next` is dropped; its deletion, and the destructors of the lists of rings and of MSQueue, are not modelled.
- Dequeued nodes of MSQueue and PLJQueue and drained rings are never freed by the code, so nothing is stated about freeing them.
- A thread waiting for a lock of TwoLockQueue retries; fairness and the operating system's mutex are not modelled.
- Hardware memory ordering, alignment and padding.
- MutexQueue: one lock around a list; `Fifo` is that queue.
- The benchmark, the calibration, the scripts and the plots.
