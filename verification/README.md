# Badem: verified models of the ledger and of the OpenCL binding headers

Two parts of the repository carry most of its state and most of its ways to go wrong.

**The ledger** (`badem/ledger.cpp`, with the visitors of `badem/common.cpp` and the store of
`badem/blockstore.cpp`). Every account is a chain of blocks: send, receive, open, change and state. A send leaves
funds pending until its destination receives them. `process` accepts or refuses a block; `rollback` takes blocks
away again, together with whatever received from them on other chains. The block, account, pending, frontier,
checkpoint and representation tables are updated in place.

**The OpenCL binding headers** (`CL/cl.hpp`, `CL/cl2.hpp`). Lazily created default objects shared by threads (a
compare-and-exchange protocol in the older header, `call_once` in the newer one), wrappers that own reference
counts of runtime objects, queries that fill vectors of such wrappers, and the header's own vector, string and
version parser.

## How it is modelled

| files | what they hold |
|---|---|
| `MapTotal` | sums over finite maps |
| `LedgerTypes`, `LedgerInvariant` | blocks, tables, the history behind them, and what sound tables say about it |
| `LedgerExtend`, `LedgerRemove`, `LedgerWeights` | adding a block, taking a head away, and moving voting weight, on values |
| `LedgerAdmission` | which blocks a ledger takes, and the answer to every offered block |
| `LedgerDepends` | which blocks cannot stay without a given one |
| `LedgerConverge`, `LedgerLaws`, `LedgerGenesis` | the tables are a function of the blocks; laws of every sound ledger; the first block |
| `BlockLattice`, `LedgerRuns` | the ledger class with the code's own update order; runs on one node and on two |
| `LazyDefault`, `LazyDefaultAnswers`, `LazyDefaultProgress`, `LazyDefaultFromZero` | the compare-and-exchange protocol: safety, where results come from, progress, and what happens when the flag starts at 0 |
| `OnceDefault`, `OnceDefaultLaws` | the four `call_once` defaults and their nested initialisers |
| `Bindings`, `RefCounting`, `Ownership`, `OwnershipRuns` | handles, holders and counts; the wrapper class; any run of wrapper operations |
| `VectorQueries`, `KernelCreation` | the two vector queries; the creation of a program's kernels |
| `DeviceOwnership`, `DeviceRuns` | the device wrapper with its flag; any run of its operations, balanced or not |
| `PlatformVersion`, `FixedVector`, `HeapString` | version texts, the fixed-capacity vector, the string class |

The invariant of the ledger is built around a ghost history (`Trail`): for every stored block its account, balance,
representative block, height and time of entry, and for every received send the block that received it. Five kinds
of blocks share two lemmas about tables as values, one for adding a block and one for removing a head; the methods
are proved to do exactly that to the tables. A rollback that meets a received send rolls the receiver back first;
it terminates because receivers are later than sends. While a state block is rolled back its voting weight has
already been moved when the receivers are rolled back, so the nested rollbacks run with weights that are off by a
known amount; `Holds(skew)` states that, and it is zero again at the end.

Where the code assumes something of its surroundings it is a parameter or a precondition here:

- A block comes with its hash and with the set of accounts whose key verifies its signature. Hashes do not collide
  (`body` gives the one block of a hash), and no block hashes to 0, to 1 (the starting value of the successor walk)
  or to the genesis account's number (the source named by the genesis block).
- The OpenCL runtime's answers are parameters of the steps or calls that ask for them; an initialiser's calls to the
  runtime are one such answer, the error of the first that fails or the object. Retaining and releasing a
  live object succeeds; for a device that is not alive it is an error, which the wrappers ignore. Exceptions are off, and atomics and fences are sequentially consistent.
- `Balance`, `Representative` and `AccountOf` are looked up before the writes of a rollback where the code looks
  them up between writes that do not affect them.

What turned out to be different from what one might expect:

- Rolling a block back restores every table but one: a state block at a multiple of 32 whose successor is rolled
  back gains a checkpoint it did not have, because `change_latest` is called without its `is_state` argument
  there. `ProcessAndRollback` says exactly when, `GrowToThirtyTwo` and `CheckpointIsLeftBehind` give a run in which it
  happens, and all lookups are proved right in the presence of such checkpoints.
- With the C++11 definitions the flag of the older defaults starts at 0, not at 1. The exchange then never succeeds,
  and there is one initialiser exactly if no two calls overlap (`OneInitialiserIffNoOverlap`,
  `OverlapBreaksAgreement`).
- Assigning a raw handle to a wrapper balances exactly if the caller gives up a count of its own
  (`RawAssignGiving`).
- The string constructor from a pointer and a size is documented to leave the string empty for NULL; the code copies
  from NULL if the size is not 0. The model follows the code; `Readable` names where the copy is defined.
- The vector's `back` for writing refers to the slot behind the last element, which a full vector does not have
  (`BackForWriting`).
- The two tests for version 1.2 agree exactly up to major number 32767: one of them compares a signed number
  (`TestsAgreeIff`).

## Model

| member | source | states |
|---|---|---|
| BlockLattice.Ledger.constructor | badem/common.cpp:771-780 | the store after genesis is sound, holds the whole supply in one account, and has exact weights |
| BlockLattice.Ledger.Balance | badem/common.cpp:512-587 | walking back over sends, receives, changes, checkpoints and sources ends with the balance right after the block |
| BlockLattice.Ledger.VisitForBalance | badem/common.cpp:521-570 | one visit adds what the block says and names the blocks the rest of the sum is to be found in |
| BlockLattice.Ledger.Amount | badem/common.cpp:428-510 | the amount is the size of the change of the account's balance at the block, also where it has to be found through a source |
| BlockLattice.Ledger.Representative | badem/common.cpp:589-630 | the result is the latest block of the chain, up to the given one, that names a representative |
| BlockLattice.Ledger.AccountOf | badem/ledger.cpp:704-735 | walking forward to a state block, a checkpoint or a frontier ends with the owner of the block |
| BlockLattice.Ledger.Latest | badem/ledger.cpp:746-751 | the last block of the account: it has no successor and no block of the account is later; 0 if and only if the account has no block |
| BlockLattice.Ledger.BlockPut | badem/blockstore.cpp:590-603 | stores the block without a successor and makes it the successor of the one before it |
| BlockLattice.Ledger.RepresentationAdd | badem/blockstore.cpp:548-555 | changes the weight of the block's representative by the amount, modulo 2^128, and no other weight |
| BlockLattice.Ledger.ChangeLatest | badem/ledger.cpp:800-834 | the account row, the open block kept, the row removed for hash 0, and a checkpoint every 32 blocks unless told otherwise |
| BlockLattice.Ledger.ProcessSend | badem/ledger.cpp:332-377 | the answer is exactly the one the history calls for; on progress the tables are the old ones with the block added, otherwise nothing changes; the invariant is kept |
| BlockLattice.Ledger.CheckSend | badem/ledger.cpp:332-357 | the answer to a send block is that of the first failing test, each stated on the history instead of the pending and frontier tables |
| BlockLattice.Ledger.ProcessReceive | badem/ledger.cpp:379-438 | the same for receive blocks, whose source has to be an unreceived send to the account |
| BlockLattice.Ledger.CheckReceive | badem/ledger.cpp:379-434 | the answer to a receive block is that of the first failing test, each stated on the history instead of the pending and frontier tables |
| BlockLattice.Ledger.ProcessOpen | badem/ledger.cpp:440-483 | the same for open blocks: a new account, not the burn account, with an unreceived send to it |
| BlockLattice.Ledger.CheckOpen | badem/ledger.cpp:440-463 | the answer to a open block is that of the first failing test, each stated on the history instead of the pending and frontier tables |
| BlockLattice.Ledger.ProcessChange | badem/ledger.cpp:290-330 | the same for change blocks: the whole balance moves from one representative to the other |
| BlockLattice.Ledger.CheckChange | badem/ledger.cpp:290-312 | the answer to a change block is that of the first failing test, each stated on the history instead of the pending and frontier tables |
| BlockLattice.Ledger.ProcessState | badem/ledger.cpp:183-288 | the same for state blocks, which send, receive, open or change according to balance and link |
| BlockLattice.Ledger.CheckStatePosition | badem/ledger.cpp:196-224 | the answer to the place a state block wants: that of the first failing test; on progress the row, the amount and whether it sends are right |
| BlockLattice.Ledger.CheckStateFunds | badem/ledger.cpp:225-249 | the answer to what the block claims to receive; a block that sends is not asked about its link; progress if and only if the block is acceptable |
| BlockLattice.Ledger.Process | badem/ledger.cpp:577-582 | progress if and only if the ledger can be sound with exactly this block more, a first block receives something, and the owner signed; otherwise the code of the first failing test; on progress exactly this block is added, otherwise nothing changes |
| BlockLattice.Ledger.RollbackReceivers | badem/ledger.cpp:25-28 | the send is pending again; exactly the blocks that depend on it are gone, but for the send itself |
| BlockLattice.Ledger.RollbackSend | badem/ledger.cpp:20-44 | exactly the blocks that depend on the send are gone, itself included, and the invariant is kept |
| BlockLattice.Ledger.DropReceive | badem/ledger.cpp:45-67 | the tables are exactly those without the receive: its source is pending again with the amount and sender it had, and no other block is touched |
| BlockLattice.Ledger.DropOpen | badem/ledger.cpp:68-80 | the tables are exactly those without the account, whose source is pending again |
| BlockLattice.Ledger.DropChange | badem/ledger.cpp:81-102 | the tables are exactly those without the change, and the weight is back with the representative before |
| BlockLattice.Ledger.RollbackState | badem/ledger.cpp:103-157 | exactly the blocks that depend on the state block are gone, although weights are moved before the nested rollback |
| BlockLattice.Ledger.TakeStateWeights | badem/ledger.cpp:106-119 | before the nested rollback the weights are off by exactly the block's own share |
| BlockLattice.Ledger.RollbackHead | badem/ledger.cpp:688-701 | the head of any chain but genesis can be taken away, whatever its kind, and exactly what depends on it goes with it |
| BlockLattice.Ledger.Rollback | badem/ledger.cpp:688-701 | terminates; exactly the blocks that depend on the given one are gone, and the whole invariant (supply, pending, frontiers, checkpoints, weights) holds |
| BlockLattice.Ledger.ProcessAndRollback | badem/ledger.cpp:577-701 | rolling back the block just accepted restores blocks, accounts, pending, frontiers and all weights, and the checkpoints if and only if the block before is not a state block at a multiple of 32 without one |
| BlockLattice.Ledger.Restored | badem/ledger.cpp:688-701 | a ledger with the blocks of an earlier valid state is in that state, checkpoints of state blocks aside |
| BlockLattice.Ledger.WeightIsExact | badem/blockstore.cpp:1011-1030 | a representative's weight is the sum of the balances that name it, without loss to 128-bit arithmetic |
| LedgerRuns.Perform | badem/ledger.cpp:577-701 | an offer adds exactly the offered block if the ledger can be sound with it and its owner signed, otherwise nothing changes; an undo removes exactly the blocks that depend on the one undone |
| LedgerRuns.Run | badem/ledger.cpp:577-701 | after any run of offered and undone blocks the supply is what genesis issued and all weights are exact |
| LedgerRuns.NodesAgree | badem/ledger.cpp:577-701 | two nodes that end with the same blocks have the same accounts, pending entries, frontiers, checkpoints of blocks that are not state blocks, and weights, whatever order the blocks came and went in |
| LedgerRuns.GrowToThirtyTwo | badem/ledger.cpp:183-288 | a run from genesis reaches a state block of height 32 without a checkpoint |
| LedgerRuns.CheckpointIsLeftBehind | badem/ledger.cpp:138-151 | there, accepting one block and rolling it back changes the checkpoint table |
| LedgerExtend.AddKeepsSound | badem/ledger.cpp:183-483 | adding an acceptable block of any kind keeps all tables sound |
| LedgerExtend.AddKeepsSupply | badem/ledger.cpp:183-483 | balances plus pending amounts do not change when a block is added |
| LedgerExtend.WeightDueAfterAdd | badem/ledger.cpp:183-483 | by how much a block changes the weight due to each representative |
| LedgerAdmission.AcceptableIffAdmissible | badem/ledger.cpp:183-483 | the tests of all five kinds together are neither stricter nor laxer than soundness: a block passes if and only if some sound ledger has exactly this block more, latest of all, and a first block receives something |
| LedgerAdmission.VerdictMeans | badem/ledger.cpp:183-483 | the answer is progress exactly for acceptable blocks signed by their owner, old exactly for stored ones, and every refusal names something that is wrong |
| LedgerRemove.DropKeepsSound | badem/ledger.cpp:20-157 | removing a head whose send nobody received keeps all tables sound |
| LedgerRemove.DropKeepsSupply | badem/ledger.cpp:20-157 | balances plus pending amounts do not change when a head is removed |
| LedgerRemove.WeightDueAfterDrop | badem/ledger.cpp:20-157 | by how much removing a head changes the weight due to each representative |
| LedgerRemove.HeadIsLatest | badem/ledger.cpp:688-701 | an account's head is its latest block, so a rollback always removes the end of the chain |
| LedgerRemove.ReceiverIsLater | badem/ledger.cpp:25-28 | a received send has a receiver that is later and on its destination's chain, which is why nested rollbacks end |
| LedgerRemove.StillHead | badem/ledger.cpp:20-44 | rolling receivers back leaves the sending block where it was, at the head of its chain |
| LedgerDepends.HeadDepends | badem/ledger.cpp:688-701 | the head of a chain depends on every block of it, so rolling heads back only removes dependents |
| LedgerDepends.ReceiverDepends | badem/ledger.cpp:25-28 | the head of the destination's chain depends on a send that is no longer pending |
| LedgerDepends.StayersDoNotDepend | badem/ledger.cpp:688-701 | no block of a sound ledger without a given block depends on it, through chains or through receives |
| LedgerDepends.UndoneConcludes | badem/ledger.cpp:688-701 | with the block gone and only dependents gone, exactly the dependents are gone |
| LedgerDepends.LargestWithout | badem/ledger.cpp:688-701 | what a rollback leaves contains every sound part of the ledger without the block: nothing goes that could have stayed |
| LedgerWeights.AddCompletes | badem/ledger.cpp:183-483 | table update and weight update together keep the invariant when a block is added |
| LedgerWeights.DropCompletes | badem/ledger.cpp:20-157 | the same when a head is removed, with weights that may be off |
| LedgerWeights.EarlyWeights | badem/ledger.cpp:113-119 | moving a state block's weight early leaves weights off by exactly that |
| LedgerWeights.LateWeights | badem/ledger.cpp:103-157 | once the state block is gone, weights moved early are right |
| LedgerConverge.MeaningIsDetermined | badem/common.cpp:428-630 | what a block means (account, balance, representative, height) depends on the stored blocks alone |
| LedgerConverge.TablesAreDetermined | badem/ledger.cpp:183-483 | two sound stores with the same blocks have the same successor links, accounts, pending entries, frontiers and checkpoints of blocks that are not state blocks |
| LedgerConverge.WeightsAreDetermined | badem/ledger.cpp:183-483 | and the same weights |
| LedgerInvariant.WeightsAreExact | badem/blockstore.cpp:548-555 | as long as the supply is conserved no weight wraps around |
| LedgerInvariant.ReceivedFits | badem/ledger.cpp:413-420 | a receiver's balance plus what it receives fits in 128 bits |
| LedgerInvariant.WrapIsModulo | badem/blockstore.cpp:548-555 | the arithmetic used for weights is the remainder modulo 2^128 |
| LedgerLaws.NoDoubleReceive | badem/ledger.cpp:379-438 | no send is received twice |
| LedgerLaws.PendingOrReceived | badem/ledger.cpp:332-483 | a send is pending for its full amount if and only if no block received it |
| LedgerLaws.HeadIsHighest | badem/ledger.cpp:800-834 | the account row's block count is the height of the head, and no block of the account is higher |
| LedgerLaws.OneBlockPerHeight | badem/ledger.cpp:183-483 | forks never coexist: an account has one block of each height |
| LedgerLaws.EveryHeightIsTaken | badem/ledger.cpp:800-834 | the block count is the length of the chain |
| LedgerLaws.CheckpointsRestoredIff | badem/ledger.cpp:138-151 | adding and removing a block leaves the checkpoint table as it was if and only if the block before is not a state block at a multiple of 32 without a checkpoint |
| LedgerGenesis.GenesisIsSound | badem/common.cpp:771-780 | the tables after genesis are sound |
| LedgerGenesis.GenesisSupply | badem/common.cpp:62 | the supply is 2^128 - 1 |
| LedgerGenesis.GenesisWeights | badem/common.cpp:771-780 | the genesis account has all the weight |
| LazyDefault.RunKeepsConsistent | CL/cl.hpp:2646-2692 | in every interleaving of any number of calls, flag, claimant and published result agree, for the context and for the queue |
| LazyDefault.AtMostOneInitialiserAndAgreement | CL/cl.hpp:2646-2692 | starting from 1 there is at most one initialiser, nobody returns before it has published, and all calls that return return the published object and error |
| LazyDefault.FlagOrder | CL/cl.hpp:2648-2683 | the flag only moves from 1 to 2 to 4, and once it is 4 object and error never change |
| LazyDefault.PublishedStaysFixed | CL/cl.hpp:2646-2692 | what is published stays the same in every continuation |
| LazyDefault.CallersAgreeAcrossTime | CL/cl.hpp:2646-2692 | calls that return at different times return the same |
| LazyDefaultAnswers.QueueFollowsContext | CL/cl.hpp:5592-5651 | a published queue rests on a published context: without error it is what the runtime answered for the queue, otherwise the context's error and no object |
| LazyDefaultAnswers.ReturnsTheAnswer | CL/cl.hpp:2646-2692 | what any call returns is the runtime's answer in the step in which the initialiser asked it, nested context call included, or for the queue the context's error and no object |
| LazyDefaultAnswers.TheAnswerIsPublished | CL/cl.hpp:2671-2683 | whatever the runtime answers when it is asked is what is published |
| LazyDefaultAnswers.AskedOnce | CL/cl.hpp:2646-2692 | in no interleaving is the runtime asked twice for the object of a class |
| LazyDefaultProgress.StepUsesMeasure | CL/cl.hpp:5592-5651 | every step that is not an idle turn of a waiting loop uses up a measure, nested call included |
| LazyDefaultProgress.MovesAreBounded | CL/cl.hpp:5592-5651 | no schedule makes more than 13 moves per call |
| LazyDefaultProgress.SomeCallCanMove | CL/cl.hpp:5592-5651 | as long as a call is unfinished some call that is not waiting can move |
| LazyDefaultProgress.EveryCallCanReturn | CL/cl.hpp:5592-5651 | from every consistent state all calls can be brought to return, whatever the runtime answers |
| LazyDefaultProgress.NoDeadlock | CL/cl.hpp:5592-5651 | the same for every state a run reaches |
| LazyDefaultFromZero.ExchangeNeverSucceeds | CL/cl.hpp:1060-1062 | with the flag starting at 0 no exchange ever succeeds |
| LazyDefaultFromZero.TwoEarlyCallsIffOverlapping | CL/cl.hpp:2648-2683 | two calls find nothing published exactly if two calls reach the exchange before a publication |
| LazyDefaultFromZero.OneInitialiserIffNoOverlap | CL/cl.hpp:2812-2823 | then there is at most one initialiser if and only if calls do not overlap |
| LazyDefaultFromZero.AgreementWithoutOverlap | CL/cl.hpp:2812-2823 | without overlap all calls agree, and for the context on what the runtime answered |
| LazyDefaultFromZero.OverlapBreaksAgreement | CL/cl.hpp:2812-2823 | two overlapping calls that return different objects |
| OnceDefault.StepKeepsConsistent | CL/cl2.hpp:2534-2564 | every step of every get or set call, nested ones included, keeps once-flags, stacks and statics consistent |
| OnceDefault.NeverWaitsForItself | CL/cl2.hpp:6580-6605 | no call waits for an initialiser it is running itself |
| OnceDefault.StackDescends | CL/cl2.hpp:6580-6605 | nested calls descend from queue over device and context to platform |
| OnceDefaultLaws.RunKeepsConsistent | CL/cl2.hpp:2237-2260 | the same over every run of any number of calls |
| OnceDefaultLaws.OnlyTheWinnerWrites | CL/cl2.hpp:1959-1982 | a default only changes in a step of the call that won its once-flag, and only if it was not written before |
| OnceDefaultLaws.WrittenAtMostOnce | CL/cl2.hpp:2154-2190 | in every run each default is written at most once, and exactly once when it is done |
| OnceDefaultLaws.FirstWinnerFixes | CL/cl2.hpp:2768-2790 | value and error of the first winner stay in every continuation |
| OnceDefaultLaws.CallersAgree | CL/cl2.hpp:2768-2790 | all calls on a class return the same value and error, get and set calls alike |
| OnceDefaultLaws.AnswersFollow | CL/cl2.hpp:2887-2914 | a returned answer is what the winning initialiser makes of the runtime's answer in the step that assigned it, and of the defaults below, class by class |
| OnceDefaultLaws.ToldIsAnswered | CL/cl2.hpp:2154-2190 | what a default was made of is the runtime's answer in the step in which the winner assigned it |
| OnceDefaultLaws.WrittenInOneStep | CL/cl2.hpp:2154-2190 | there is only one such step in a run |
| OnceDefaultLaws.ErrorsPropagate | CL/cl2.hpp:6580-6605 | a provided default is returned without error; a missing context is the error of every made device and queue, whose objects stay NULL |
| OnceDefaultLaws.StepUsesMeasure | CL/cl2.hpp:6580-6605 | every step of a call that is not waiting uses up a measure that covers its nested calls |
| OnceDefaultLaws.MovesAreBounded | CL/cl2.hpp:6580-6605 | no schedule makes more than 34 moves per call |
| OnceDefaultLaws.SomeCallCanMove | CL/cl2.hpp:6884-6910 | as long as a call is unfinished some call that is not waiting can move |
| OnceDefaultLaws.EveryCallCanReturn | CL/cl2.hpp:6884-6910 | initialisation terminates from every consistent state |
| OnceDefaultLaws.NoDeadlock | CL/cl2.hpp:6884-6910 | and from every state a run reaches |
| Ownership.Runtime.AliveIffOwned | CL/cl.hpp:1781-1860 | an object is alive if and only if a wrapper or another owner holds it |
| Ownership.Wrapper.Empty | CL/cl.hpp:1791 | a default wrapper holds nothing and keeps the balance |
| Ownership.Wrapper.Adopt | CL/cl.hpp:1793 | taking a raw handle leaves exactly one count owed |
| Ownership.Wrapper.Retaining | CL/cl2.hpp:1595-1600 | taking a raw handle with a retain keeps the balance |
| Ownership.Wrapper.Copy | CL/cl.hpp:1800-1804 | one count more for what the source holds, and the balance is kept |
| Ownership.Wrapper.Move | CL/cl.hpp:1807-1811 | the count passes on, the source holds nothing, no count changes |
| Ownership.Wrapper.Destroy | CL/cl.hpp:1795-1798 | releases a live object exactly once, also while counts are owed elsewhere |
| Ownership.Wrapper.CopyAssign | CL/cl.hpp:1814-1822 | keeps the balance for any two wrappers; what is taken over is alive after the release even if both hold the same handle |
| Ownership.Wrapper.MoveAssign | CL/cl.hpp:1825-1833 | the same for moves; moving to itself changes nothing |
| Ownership.Wrapper.RawAssign | CL/cl.hpp:1836-1841 | releases what was held and leaves one count owed for the new handle |
| Ownership.Wrapper.RawAssignGiving | CL/cl.hpp:1836-1841 | balances if and only if the caller gives up exactly one count of the new handle |
| Ownership.Wrapper.PayOff | CL/cl.hpp:1181-1187 | retaining afterwards settles exactly what was owed for that wrapper |
| OwnershipRuns.Perform | CL/cl.hpp:1781-1860 | any operation on any of a program's wrappers keeps the balance |
| OwnershipRuns.Run | CL/cl.hpp:1781-1860 | after any run counts balance and objects are alive exactly if owned |
| OwnershipRuns.RunAndCleanUp | CL/cl.hpp:1781-1860 | after any run and the destruction of all wrappers every count is what it was before |
| VectorQueries.AssignRaw | CL/cl.hpp:1177-1178 | elements are reused, added and destroyed as needed; exactly the returned handles are owed afterwards |
| VectorQueries.RetainOne | CL/cl.hpp:1179-1187 | each step shrinks the debt to the non-null handles of the elements after it |
| VectorQueries.RetainEach | CL/cl.hpp:1179-1187 | throughout the loop the counts fall short by exactly the handles not yet retained |
| VectorQueries.RetainAll | CL/cl.hpp:1179-1188 | at the end nothing is owed, with duplicates, NULLs and previously held elements allowed |
| VectorQueries.QueryThenRetain | CL/cl.hpp:1162-1190 | a failed size call ends with its error, else a failed data call with its own, and then nothing changes; otherwise the elements hold the returned handles and counts changed by exactly old and new elements |
| VectorQueries.FillOne | CL/cl2.hpp:965 | a retaining temporary moved into an element keeps the balance and is gone afterwards |
| VectorQueries.FillAll | CL/cl2.hpp:962-966 | counts balance after every element |
| VectorQueries.Resize | CL/cl2.hpp:960 | dropped elements are released, added ones hold nothing |
| VectorQueries.QueryRetaining | CL/cl2.hpp:940-969 | the same for the newer query; without a vector nothing changes either |
| VectorQueries.QueriesAgree | CL/cl2.hpp:940-969 | from equal starts both queries end with the same error, the same elements and the same counts |
| KernelCreation.CreateKernels | CL/cl.hpp:5340-5357 | a failed call ends with its error and changes nothing; otherwise the vector holds the kernels and every kernel has two counts more, one of which nobody will release |
| KernelCreation.KernelsLeak | CL/cl.hpp:5340-5357 | once the vector is gone exactly one count of every non-null kernel is left |
| DeviceOwnership.DeviceRuntime.constructor | CL/cl.hpp:1872-1882 | references are counted exactly for devices whose platform version exceeds 1.1 |
| DeviceOwnership.DeviceRuntime.UncountedIsUntouched | CL/cl.hpp:1862-1979 | in a balanced state the counts of a device without counting are what others own |
| DeviceOwnership.DeviceRuntime.AliveIffOwned | CL/cl.hpp:1862-1979 | a counted device is alive if and only if somebody owns it |
| DeviceOwnership.DeviceWrapper.Empty | CL/cl.hpp:1885-1887 | holds nothing, is not countable, and keeps flags and balance |
| DeviceOwnership.DeviceWrapper.Adopt | CL/cl.hpp:1889-1892 | the flag is right whatever is given; the counts balance if and only if the caller gives the count that is needed, if any |
| DeviceOwnership.DeviceWrapper.Copy | CL/cl.hpp:1899-1904 | finds the flag out again; keeps all flags, and the balance where there was one |
| DeviceOwnership.DeviceWrapper.Move | CL/cl.hpp:1907-1913 | handle and flag move along |
| DeviceOwnership.DeviceWrapper.Destroy | CL/cl.hpp:1894-1897 | releases exactly if references are counted; keeps all flags, and the balance where there was one |
| DeviceOwnership.DeviceWrapper.CopyAssign | CL/cl.hpp:1916-1925 | copying the flag keeps every flag right and the counts balanced |
| DeviceOwnership.DeviceWrapper.MoveAssign | CL/cl.hpp:1928-1938 | the same for moves |
| DeviceOwnership.DeviceWrapper.RawAssign | CL/cl.hpp:1941-1947 | finds the flag out again, which is right whatever is given; the counts balance if and only if the caller gives the count that is needed, if any |
| DeviceRuns.Perform | CL/cl.hpp:1862-1979 | any operation keeps all flags right and the counts of uncounted devices unchanged; it keeps the balance unless a needed count is only borrowed |
| DeviceRuns.Run | CL/cl.hpp:1862-1979 | after any run, balanced or not, every flag equals the countability of its handle and the counts of uncounted devices are those before the run; after a balanced run the counts balance |
| DeviceRuns.RunAndCleanUp | CL/cl.hpp:1862-1979 | a balanced run and the destruction of all wrappers leave every count as it was: each retain is matched by one release |
| PlatformVersion.GetVersion | CL/cl.hpp:1731-1748 | the two loops read whatever stands up to the dot and up to the blank or NUL behind it, digits or not, and pack the two values |
| PlatformVersion.ReadMajor | CL/cl.hpp:1736-1740 | the value of the text in front of the first dot |
| PlatformVersion.ReadMinor | CL/cl.hpp:1742-1746 | the value of the text behind it, up to the first blank or NUL |
| PlatformVersion.ValueIsPositional | CL/cl.hpp:1736-1746 | what the loops read is positional notation, for any text |
| PlatformVersion.PackBits | CL/cl.hpp:1747 | bit by bit, for any two numbers, what shift and bitwise or give in 32 bits |
| PlatformVersion.RoundTrip | CL/cl.hpp:1731-1748 | reading a printed version gives major * 65536 + minor, for numbers up to 65535 and whatever the vendor text |
| PlatformVersion.PackAdds | CL/cl.hpp:1747 | shift and bitwise or of 32-bit words add up when both numbers fit in 16 bits |
| PlatformVersion.PackKeepsOrder | CL/cl.hpp:1747 | packed versions compare like pairs |
| PlatformVersion.TestsAgreeIff | CL/cl.hpp:1872-1882 | the unsigned test accepts exactly the versions from 1.2 on, and the signed test agrees with it if and only if the major number is at most 32767 |
| FixedVector.Vector.PushBack | CL/cl.hpp:726-734 | appends, or changes nothing when full |
| FixedVector.Vector.PopBack | CL/cl.hpp:740-748 | removes exactly the last element, or changes nothing when empty |
| FixedVector.Vector.ClearAll | CL/cl.hpp:715-720 | empties the vector |
| FixedVector.Vector.ResizeTo | CL/cl.hpp:841-861 | the size is the new one, elements below both sizes are kept and new ones are the fill; beyond the capacity nothing changes |
| FixedVector.Vector.Filled | CL/cl.hpp:768-774 | so many copies, as far as they fit |
| FixedVector.Vector.Range | CL/cl.hpp:942-954 | the two ends delimit exactly the contents, and are equal if and only if the vector is empty |
| FixedVector.Vector.AssignRange | CL/cl.hpp:893-901 | the contents are the range as it was, as far as it fits, whether it belongs to another vector or to this one |
| FixedVector.Vector.Assign | CL/cl.hpp:783-796 | the contents are those of the other vector, which keeps its own |
| FixedVector.Vector.Copy | CL/cl.hpp:754-760 | a copy has the same contents although the size is set first |
| FixedVector.Vector.BackForWriting | CL/cl.hpp:1024-1027 | never refers to an element; inside the buffer if and only if the vector is not full |
| FixedVector.Vector.WriteBack | CL/cl.hpp:1024-1027 | writing through that reference changes no element |
| FixedVector.Vector.BackForReading | CL/cl.hpp:1034-1037 | the last element |
| FixedVector.Vector.Run | CL/cl.hpp:685-1037 | any run of operations does to the vector what it does to a bounded sequence |
| FixedVector.RunSteps | CL/cl.hpp:685-1037 | any run over several vectors, assignments between them included, does what it does to bounded sequences |
| FixedVector.Equal | CL/cl.hpp:802-814 | true if and only if the contents are equal |
| HeapString.String.FromBytes | CL/cl.hpp:506-520 | wherever the read is defined: the bytes, NULs included, with a buffer of one byte more that ends in NUL |
| HeapString.NullIsReadableIff | CL/cl.hpp:506-520 | NULL leaves the string empty, as documented, exactly for size 0; otherwise the code reads from NULL |
| HeapString.String.FromText | CL/cl.hpp:527-540 | the bytes in front of the first NUL; no buffer for an empty text |
| HeapString.String.Resize | CL/cl.hpp:542-573 | the size is the new one, every byte of the common prefix is kept and every byte behind it is NUL; the copy stays in bounds |
| HeapString.String.Assign | CL/cl.hpp:591-620 | an independent copy; assigning to itself changes nothing |
| HeapString.String.Copy | CL/cl.hpp:626-631 | an independent copy |
| HeapString.String.CStr | CL/cl.hpp:649 | the contents and a NUL, also for the empty string |
| HeapString.String.Rebuilt | CL/cl.hpp:527-540 | rebuilding from the text gives the string back if and only if it has no NUL inside |
| HeapString.StrLen | CL/cl.hpp:531-533 | the number of bytes in front of the first NUL |

## Left out

- Modification times, the checksum table, statistics, vote tallies, and the wallet and node code around the ledger.
- Representative weights preset for bootstrapping, which `weight` may answer with instead of the stored ones.
- Serialisation of blocks and the database underneath the store; hashing and signing are parameters.
- Rolling back the genesis block, which the code does not support.
- Store upgrades and blocks that arrive out of order: they only add callers of `process`.
- Failing retain and release calls of a live object, and builds with exceptions enabled: an initialiser that throws leaves the older protocol unfinished.
- Weak-memory effects, `unitTestClearDefault`, and writing to a handle through `operator()()`.
- Construction and destruction of a fixed-capacity vector's elements are not observed, since elements are values.
- GetVersion: the code's signed integers are taken to wrap around where a version text makes them overflow.
- FromBytes: asks for readable memory where the size is not 0; the code would read from NULL.
- DeviceRuntime.constructor: the build variants of the newer header that decide countability at compile time.
- Wrappers of images, buffers, samplers and events, and the plain query helpers: each forwards to one or two runtime calls.
- Kernel argument setting, build information and shared-virtual-memory traits: short recursions and loops whose results would only add easy members.
