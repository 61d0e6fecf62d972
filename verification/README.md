# Phenix

Phenix runs an agent from plugins under a small kernel. Plugin code is foreign and may do anything its
interface allows; the kernel holds the authority, the call tree and the shared state. This project models
that kernel and the protocols around it in Dafny and proves what they promise.

| part | modules |
|---|---|
| pending calls, dispatch, authority, roots, generations | `Tickets`, `Worlds`, `KernelModel`, `Prepared`, `RootModel`, `GenerationModel` |
| shared cells and state requests | `CellStore`, `StateRequests`, `StateCodec` |
| the reactive graph executor | `Dag`, `Graphs`, `NameOrders`, `Waves`, `Schedules`, `ExecutorModel` |
| canonical codecs | `ValueCodec`, `SchemaCodec`, `StaticSchemas`, `ScopeCodec` |
| delegated definitions | `Resolve` |
| compaction and the verified transcript | `Conversations`, `Checkpoints`, `Replay`, `Transcripts`, `HistoryModel`, `Recording` |
| crash recovery | `RecoveryModel` |

`dafny verify dfyconfig.toml` checks everything.

**How the kernel is modelled.** `Kernel`, `Root`, `GraphExecution`, `Cells`, `Generations`, `Host`, the
encoders and the depth-first search are classes with the fields of the program, and their methods follow its
branches in order. Native code is an oracle: each entry performs any finite sequence of host requests
(begin, invoke, poll, cancel, state) and then gives any reply or failure. One particular code, which consumes
its children once it is cancelled, shows what can happen. The laws live on values: a `World`
is the kernel's state with its cells and cursors, a count of the results handed out, the scope that the last root
was admitted with, and the list of effects caused so far, each with that scope, the stack and the tickets of its
moment. An effect is lawful when no frame on the stack is revoked, every provider on the stack is permitted to cause
it, and it lies within that scope; every ticket and every frame lies within it too.
`Calm` is what holds between any two steps, `Lagging` what
holds while one derived flag is stale, and the parameter `open` names the tickets whose children are being
cancelled right now. The finished tickets that a panicked drop leaves without their parent are kept apart from
the other tickets, because no call can name them. Every method keeps `Inv`, so the theorems hold in every
reachable state, not only at rest.

**What the wire types are.** Strings are UTF-8 byte sequences (section 4 of RFC 3629), maps are strictly
ascending sequences of entries, and integers have their widths. A digest (FIPS 180-4) is any function of the
hashed bytes; where a result depends on it, the statement names the collision as the alternative.

**What the code does beyond its documentation**, each proved:

- Dropping a root can panic. The drop collects ids first, and cancel code may consume a finished child whose
  turn has not come. It can happen exactly when some ticket, at or below one that is not cancelled, still works
  natively and has a child (`RootModel.AbandonRoot`, `RootModel.AnExposedRoot`). After the panic draining can
  still free the root slot if the drop reached every ticket, apart from those that entered code may consume
  (`RootModel.ASlotToFree`). Otherwise the slot is lost, even when every ticket has finished, and no root is
  admitted again (`RootModel.DrainCancelled`, `RootModel.ALostSlot`, `RootModel.AnyRun`).
- Compilation orders two writers by any path, the projection keeps direct edges between active nodes. A path
  inside the active nodes holds in every run: the later writer starts after the earlier one has succeeded, unless
  that one was lost (`ExecutorModel.GraphExecution.PumpRun`). Writers joined only through a dormant node lose
  their order. Their names decide which one is listed first (`NameOrders.WriterOrder`,
  `NameOrders.FreeWritersListedByName`, `NameOrders.DormantNodeLosesOrder`), and with synchronous calls they run in
  that order (`Schedules.QuietRunByNames`). With pending calls either may come first: behind a busy provider a
  later writer starts and succeeds while the earlier one waits (`Schedules.BusyProviderLosesOrder`,
  `Schedules.EitherMayFinishFirst`).
- A failed poll of a pending node loses that node: it is neither finished nor skipped, and it does not hold
  back the nodes that depend on it (`Waves.LostDoesNotBlock`). A poll fails only when the process has used up
  its scope numbers (`ExecutorModel.GraphExecution.PumpRun`).
- A cancellation of the pending calls that fails, again only without scope numbers, drops the call that failed
  and all calls after it; the latter are not even cancelled (`ExecutorModel.GraphExecution.CancelPending`).
- The agent compares the call identities of one reply, the verifier those of a whole turn. A turn with a
  repeated identity is recorded and never compacted (`Recording.RepeatedIdentity`), nor is a conversation with
  a turn that ended in a failure or a cancellation, or an elided turn without a receipt
  (`Recording.RecordedIsCurrent`).
- A struct costs two levels of the value codec and one of the schema check, so valid schemas of 17 to 32
  nested structs have no encoding (`SchemaCodec.ValidButNotEncodable`).
- Several checks can never refuse: the projection errors of a compiled graph, the checks on the parts of a
  rederived view, the role of the last kept message, a missing slice in `restore_original_events`.
- The recovery marker's prefix is longer than the owner marker's and the bounded read is the same for both, so
  a run name of 232 to 234 bytes can be claimed by recovery but never finished after a second fault
  (`RecoveryModel.LongNamesStall`). A torn first write of the marker strands a running session: later
  attempts refuse.
- When the kernel fails while a tool call is open, the agent's cleanup leaves the session Failed with the call
  pending, and only an indeterminate session can be reconciled (`RecoveryModel.ALostCall`). Over any history an
  ended run with pending calls can be reconciled exactly when that has not happened
  (`RecoveryModel.Host.AnyHistory`).
- A session whose calls have all been reconciled after a recovery is Running and has no marker, which is what the
  next host refuses (`RecoveryModel.Host.ReconcileAll`).

## Model

| member | source | states |
|---|---|---|
| RootModel.RestTheorem | crates/phenix-kernel/src/pending.rs:169-291 | whenever the kernel rests: a ticket is `quiescent` exactly when it and everything below it is natively finished; every live descendant of a cancelled or failed ticket is cancelled; Ready implies quiescent; no result was handed out twice; live tickets have pairwise distinct providers; every effect ever caused was lawful and within the scope of its root; every ticket stays within the operations, the resources and the fixed resource that its root was admitted with; without an active root there is no ticket |
| RootModel.AnyRun | crates/phenix-kernel/src/pending.rs:413-476 | any sequence of host calls, with any native behaviour inside each, leads back to rest (laws of tickets, stack, roots, cells and effects) unless a drop panics. The run goes on after a panic: the laws of tickets, stack, cells and of what the drop left behind hold after every call; once something is stranded, it stays so, the dropped root keeps its slot and no root is ever admitted again |
| RootModel.RootCall | crates/phenix-kernel/src/pending.rs:490-556 | a call of a host that holds a root, or its drop, keeps these laws; every effect it causes is on behalf of the scope that the root was admitted with |
| RootModel.IdleCall | crates/phenix-kernel/src/pending.rs:455-476 | a call of a host without a root, admission, draining or shutdown, keeps these laws, at rest or after a panic, and causes no effect; where something is stranded it admits nothing and frees nothing |
| RootModel.RestsIfReached | crates/phenix-kernel/src/pending.rs:413-446 | what a drop leaves behind is at rest exactly when the drop reached every ticket |
| RootModel.LostForGood | crates/phenix-kernel/src/pending.rs:447-476 | at rest nothing is stranded; what is stranded keeps the root slot |
| Tickets.QuiescentIffSubtreeFinished | crates/phenix-kernel/src/pending.rs:276-291 | the derived flag of one descending-id pass is the conjunction of `native_quiescent` over the whole subtree |
| KernelModel.Kernel.RefreshQuiescence | crates/phenix-kernel/src/pending.rs:276-291 | one pass over the ids, youngest first, makes every derived flag exact, changes nothing else and takes no flag back |
| Tickets.CancellationReaches | crates/phenix-kernel/src/pending.rs:292-314 | when no cancellation is in progress, everything live below a cancelled or failed ticket is cancelled |
| KernelModel.Kernel.CancelTicket | crates/phenix-kernel/src/pending.rs:373-397 | Ok or Err, a live ticket and all its live descendants are cancelled; meanwhile no ticket begins, no cell is committed, no cursor is opened or moved and no effect takes place; only the subtree changes, a ticket vanishes only if some child could be consumed, and a pending call becomes Cancelled for good; an already cancelled or finished ticket is refused without a change; any other cancellation fails only for want of a scope number, and then always |
| KernelModel.Kernel.CancelChildren | crates/phenix-kernel/src/pending.rs:292-314 | every live child is cancelled even when one of them fails, while native cancel code may poll, cancel or consume its own children; no ticket begins, no cell is committed and no effect takes place |
| KernelModel.Kernel.DrainChildren | crates/phenix-kernel/src/pending.rs:398-405 | a revoked ticket polls its children without a new ticket, without a commit and without touching anything but its descendants |
| KernelModel.Kernel.EnterTicket | crates/phenix-kernel/src/pending.rs:332-372 | native code may be entered for a live ticket at rest or below the top frame; the laws hold afterwards, the stack is the old one, and a revoked ticket begins nothing, commits no cell, opens no cursor and causes no effect |
| KernelModel.Kernel.AcceptReply | crates/phenix-kernel/src/pending.rs:190-266 | a reply settles a pending call once: Ready only with a declared result and quiet children, otherwise Failed, with the code that the kind of reply and the children decide; a terminal status and its stored result never change; the native flag follows the reply; no ticket begins and no cell is committed |
| KernelModel.Kernel.SettleTicket | crates/phenix-kernel/src/pending.rs:227-264 | the result or the failure is stored once, with its code and its native flag; the live children of a failed call are cancelled, while nothing begins and nothing is committed |
| KernelModel.Kernel.StoreResult | crates/phenix-kernel/src/pending.rs:227-264 | the settled record is stored, and a failed call loses exactly its own subscriptions |
| KernelModel.ReplySettles | crates/phenix-kernel/src/pending.rs:198-254 | the settled record of any native reply obeys the lifecycle laws of its ticket |
| KernelModel.Verdict | crates/phenix-kernel/src/pending.rs:198-226 | a reply stands for a result exactly when it is a declared success or domain error; otherwise a reported failure stays what was reported, an undeclared result is SchemaRejected, and any other reply is AbiIncompatible |
| KernelModel.Kernel.ReleaseTree | crates/phenix-kernel/src/pending.rs:406-412 | exactly the ticket and its descendants are forgotten, and exactly their cursors |
| Tickets.WithoutKeepsExact | crates/phenix-kernel/src/pending.rs:406-412 | removing a quiescent subtree leaves every other derived flag exact |
| Worlds.TakeAndRelease | crates/phenix-kernel/src/pending.rs:671-685 | taking a finished child's result and releasing it keeps all laws and hands the result out for the first time |
| KernelModel.Kernel.PendingCall | crates/phenix-kernel/src/pending.rs:99-186 | a begun call is the next ticket, below the caller's, with the import it was made through and exactly the scope that was granted; a nested call that finished at once is answered with its declared outcome and leaves no ticket; it fails exactly for want of a ticket number |
| KernelModel.Kernel.RecordTicket | crates/phenix-kernel/src/pending.rs:108-160 | the ticket is recorded pending, below the ticket of the frame beneath, with a fresh id and frozen authority, and attached to its frame |
| KernelModel.Kernel.Ancestors | crates/phenix-kernel/src/pending.rs:112-127 | the loop collects exactly the chain of parents, the tickets a wake also notifies |
| KernelModel.Kernel.AnswerAtOnce | crates/phenix-kernel/src/pending.rs:169-186 | exactly a finished nested call with an outcome is answered at once: its stored outcome is handed out once and the ticket is released |
| KernelModel.Kernel.ImportPoll | crates/phenix-kernel/src/pending.rs:622-687 | native code polls only its own children of that slot and operation. Of the state afterwards: the answer is 3 exactly when the child is still there and pending, 5 exactly when it is still there and its call is over, and 0, 1, 2 or 4 exactly when it is gone; a result is declared by the child's operation and handed out once, 4 means cancelled. Of its own child a poll fails only for want of a scope number, and then always if the child is live |
| KernelModel.Kernel.AnswerPoll | crates/phenix-kernel/src/pending.rs:660-686 | what follows the entry never fails: a finished child is consumed, any other stays as it is, and the status tells which and whether it is still pending |
| KernelModel.Kernel.OwnsExactly | crates/phenix-kernel/src/pending.rs:634-655 | a child is authentic exactly when it hangs below the executing ticket and was begun through that slot for that operation: the tests of root, binding and caller follow from the laws |
| KernelModel.Kernel.ConsumeChild | crates/phenix-kernel/src/pending.rs:663-686 | a finished child answers with its stored outcome or failure, or that it was cancelled, and is gone: the refusal of a child without a result is never taken |
| KernelModel.Kernel.TakeChild | crates/phenix-kernel/src/pending.rs:671-684 | a finished child is gone with everything below it; its result, if it has one, was handed out for the first time |
| KernelModel.Kernel.ImportCancel | crates/phenix-kernel/src/pending.rs:622-659 | native code cancels only its own children: a live one and its whole live subtree lose their authority, Ok tells whether it has finished; a foreign, cancelled or finished ticket is refused without a change; no ticket begins and no cell is committed |
| KernelModel.Kernel.RunNative | crates/phenix-kernel/src/state_effects.rs:299-544 | any finite sequence of host requests by adversarial native code keeps every law, the stack and all tickets that are not below the caller; under a revoked frame no ticket begins and no cell is committed; every commit has a recorded effect of its own |
| KernelModel.Kernel.HostCall | crates/phenix-kernel/src/state_effects.rs:299-544 | one host request (begin, invoke, poll, cancel, state) keeps every law and touches only the caller's own subtree; under a revoked frame it begins nothing and commits nothing; a begin or invoke takes effect exactly when the top frame's import is bound and the call is admitted. The answer says what has been done: a declared outcome, the new ticket of a waiting call, the status of a polled child, whether a cancelled one has finished, or what a state request did |
| KernelModel.Kernel.HostState | crates/phenix-kernel/src/state_effects.rs:299-312 | the bytes of a state request are carried out as `state_request` says, and the bytes of the answer stand for what it did |
| Worlds.TopEffectTrans | crates/phenix-kernel/src/pending.rs:292-405 | what one request of native code may do, any number of them may do: a revoked frame never begins a call or commits a cell, however often it asks |
| KernelModel.Kernel.DispatchCall | crates/phenix-kernel/src/runtime.rs:344-473 | a call takes effect exactly when it is admitted: its root is the active one, its caller is not revoked, binding, operation, request and scope are good, and a property is in scope or no instance would be re-entered; its own effect comes first, and otherwise nothing changes; an admitted pending call fails only for want of a number; a synchronous call leaves the tickets alone; an immediate outcome is declared by the operation; a waiting call is the next ticket, with the scope that `effect_scope` grants |
| KernelModel.Kernel.NativeDispatch | crates/phenix-kernel/src/runtime.rs:411-473 | a native call takes effect exactly when neither a live ticket nor a frame has its provider, and is refused as re-entry without a change otherwise |
| KernelModel.Kernel.CellDispatch | crates/phenix-kernel/src/runtime.rs:387-410 | a property call takes effect exactly when the property's resource is in the effective scope, with the error for either reason otherwise; it is then served as `CellCall` says, and its outcome is declared |
| KernelModel.Kernel.CellCall | crates/phenix-kernel/src/state_effects.rs:215-287 | only the selected provider's own cell of that property is reached: `get` answers its present value, `set` is one commit that answers the next revision exactly when the edit has no obstacle, and the obstacle's name otherwise, `watch` a new cursor for that caller, root and ticket; any other cell is a stale reference; nothing else changes a cell or a cursor; an outcome is handed out exactly when it fits the declared schemas |
| KernelModel.CellRequest | crates/phenix-kernel/src/state_effects.rs:215-248 | `get` reads and `watch` subscribes the reference given; `set` compares and exchanges exactly the edit that its three fields spell, and is refused when they spell none |
| KernelModel.Kernel.CellOutcome | crates/phenix-kernel/src/state_effects.rs:249-287 | the request behind a property operation always has an outcome: the answer of the wrong shape, an infrastructure failure, never occurs |
| Tickets.ChildMayBeEntered | crates/phenix-kernel/src/pending.rs:332-372 | `enter_ticket` pushes a frame without a re-entry check, and needs none: a live descendant of the top ticket has a provider that is not on the stack |
| Tickets.PushTicketFrame | crates/phenix-kernel/src/pending.rs:332-358 | pushing a ticket's frame keeps the stack free of re-entry, attenuated and in descending order of tickets |
| Prepared.ScopeAttenuates | crates/phenix-kernel/src/runtime.rs:475-535 | a scope granted by `effect_scope` may be pushed: operations and resources only shrink, a fixed resource never switches, and every operation lies in the ceiling of its provider |
| Prepared.GrantedExactly | crates/phenix-kernel/src/runtime.rs:475-535 | a scope is granted exactly when the operation is held, asked for, granted to the caller and permitted to its provider and to every provider on the stack, no other resource was fixed before, and a fixed resource is held, asked for and granted |
| Prepared.GrantedScope | crates/phenix-kernel/src/runtime.rs:475-535 | a granted scope holds exactly the operations that are held, asked for and permitted to the provider, among them the one called, and exactly the resources that are held, asked for and granted to the caller for it; its fixed resource is the inherited or the requested one, and one of these |
| Prepared.GrantConfined | crates/phenix-kernel/src/runtime.rs:475-535 | a scope granted over a stack within a root's scope, or to the root itself, is within that scope, and so is the operation called |
| Prepared.TopFrameDecides | crates/phenix-kernel/src/runtime.rs:475-535 | an operation in the top frame is in the ceiling of every provider on the stack: the scan over the whole stack follows from the top frame |
| Prepared.ScopeHoldsKey | crates/phenix-kernel/src/runtime.rs:475-535 | an admitted key was already held, is granted to the caller, and the new authority is within the inherited one |
| Prepared.OperationKeyExactly | crates/phenix-contract/src/descriptor/mod.rs:8-27 | exactly the texts name@major/operation with identifiers and a major number from 1 written without leading zeros are operation keys, though one is split at its first slash and then at the last @ |
| Prepared.DistinctImports | crates/phenix-contract/src/descriptor/mod.rs:28-34 | imports through different slots or of different operations have different identities, as long as neither contains a colon |
| Prepared.ImportedKeySplits | crates/phenix-kernel/src/state_effects.rs:53-60 | the operation read off an import's identity is what follows its first colon; an import without a slot has none |
| KernelModel.Kernel.AuthorizeEdits | crates/phenix-kernel/src/state_effects.rs:168-176 | a batch is authorized exactly when each of its edits is, before any is made |
| KernelModel.Kernel.AuthorizedExactly | crates/phenix-kernel/src/state_effects.rs:29-75 | access to a cell is authorized exactly when it exists and has the operation enabled, the caller is the root, the owner or an importer of that operation from the owner, the operation is granted, and the property's resource is in the granted scope |
| KernelModel.Kernel.EditAuthorizedExactly | crates/phenix-kernel/src/state_effects.rs:76-118 | an edit is authorized as a `set`, or, by the owner of a cell without one, exactly when the owner is executing under no revoked frame with the property's resource in the top frame |
| KernelModel.Kernel.AuthorizeRequest | crates/phenix-kernel/src/state_effects.rs:155-181 | succeeds exactly for a permitted request, and records exactly the effects of that request, each by caller, operation and property; a refused one changes nothing |
| KernelModel.Kernel.StateEffect | crates/phenix-kernel/src/state_effects.rs:119-186 | refused without a change under a foreign root; carried out exactly when it is permitted, with exactly the effects of the request; a permitted write succeeds exactly when no edit has an obstacle and the epoch is not exhausted, and then is one commit of all its edits; nothing else changes a cell, the answer is exact, and a read answers the present snapshot |
| Worlds.EffectStep | crates/phenix-kernel/src/runtime.rs:475-535 | an effect under a live top frame is lawful: no frame is revoked and every provider on the stack is permitted to cause it |
| Worlds.BirthCalm | crates/phenix-kernel/src/pending.rs:108-160 | recording a new call keeps every law of forest and stack |
| RootModel.AdmitRoot | crates/phenix-kernel/src/runtime.rs:211-260 | a root is admitted exactly when scope, entry and grant are valid, the kernel has not stopped and no root is active; its scope then bounds every effect; otherwise nothing changes |
| RootModel.Root.Begin | crates/phenix-kernel/src/pending.rs:490-507 | an encodable request takes effect exactly when `dispatch_call` admits it under the root's own scope, otherwise nothing changes; other tickets stay as they are, an immediate outcome is declared, a waiting call is an authentic ticket of this root with the scope granted within that of the root; every effect is on behalf of the root's scope |
| RootModel.Root.Invoke | crates/phenix-kernel/src/runtime.rs:692-710 | a synchronous root call takes effect exactly when it is admitted, leaves no ticket behind and its outcome is declared |
| RootModel.Root.CallGraph | crates/phenix-kernel/src/runtime.rs:646-669 | as `begin`, on behalf of a graph owner and only pending where allowed |
| RootModel.Root.PollTicket | crates/phenix-kernel/src/pending.rs:508-540 | a foreign or drained ticket is refused without a change; a stored result is delivered exactly, declared, and only once; every other answer tells the status of the ticket; any other failure is for want of a scope number; polling a revoked ticket begins nothing and commits nothing |
| RootModel.Root.Cancel | crates/phenix-kernel/src/pending.rs:541-544 | a held ticket and its whole live subtree lose their authority, whether the call reports Ok or Err; nothing begins, nothing is committed and no effect takes place; a live ticket's cancellation fails only for want of a scope number, and then always |
| RootModel.Root.Release | crates/phenix-kernel/src/pending.rs:545-556 | succeeds exactly for an authentic, quiescent ticket and forgets exactly its subtree and the cursors of that |
| RootModel.Root.Drop | crates/phenix-kernel/src/runtime.rs:711-722 | no ticket begins, no cell is committed, no effect takes place and no cursor of the root is left; every remaining ticket is cancelled and live, and the root slot is empty exactly when no ticket remains, unless the drop panicked, which leaves the laws of a broken-off drop; it never panics unless some child is exposed, and with code that consumes its children it panics exactly then |
| RootModel.AbandonRoot | crates/phenix-kernel/src/pending.rs:413-446 | the loop over the ids collected first panics at a vanished id. It never does unless some ticket at or below one not cancelled still works natively and has a child; with native code that consumes its children when cancelled it does exactly then. No cursor of the root is left either way |
| RootModel.AnExposedRoot | crates/phenix-kernel/src/pending.rs:413-446 | a concrete root at rest with an exposed child: a cancelled child that finished without a result, below a pending host call |
| RootModel.ASlotToFree | crates/phenix-kernel/src/pending.rs:413-454 | what is left of that root after the panic at its vanished child: the drop has reached everything, so the slot can still be freed |
| RootModel.ALostSlot | crates/phenix-kernel/src/pending.rs:447-476 | the same with another finished child that the drop did not reach: no ticket is live, and the slot is lost; draining orphans the child |
| RootModel.NotConsumable | crates/phenix-kernel/src/pending.rs:422-429 | with such code a ticket that is still there when its turn comes was not exposed: whoever stopped working has left no child behind |
| RootModel.SparedUnlessExposed | crates/phenix-kernel/src/pending.rs:413-446 | what the cancellation of a ticket makes vanish was exposed when the drop began |
| KernelModel.Kernel.Devour | crates/phenix-kernel/src/pending.rs:332-405 | native code that polls each of its children leaves none: every one can be polled by its parent, entered while live, and consumed |
| Tickets.NoneLeft | crates/phenix-kernel/src/pending.rs:663-685 | below a ticket that has finished no consumable child is left |
| RootModel.ReleaseAbandoned | crates/phenix-kernel/src/pending.rs:447-454 | exactly the abandoned quiescent tickets go, and the root slot with the last ticket; a finished ticket that the drop did not reach stays, as an orphan if its parent goes |
| RootModel.OrphansAreLeft | crates/phenix-kernel/src/pending.rs:447-454 | an orphan has finished, and no drop has reached it: no call can name it any more |
| RootModel.DrainCancelled | crates/phenix-kernel/src/pending.rs:455-476 | only a dropped root is polled, nothing begins, nothing is committed and no effect takes place, and Ok tells how many tickets are live, at rest zero exactly when the slot is free. If a panicked drop left a ticket that it did not reach and that no entered code can consume, or an orphan, the slot is not freed now or ever; otherwise code that consumes its children frees it at once |
| RootModel.StaysStranded | crates/phenix-kernel/src/pending.rs:332-405 | entering a ticket keeps stranded what nobody below it can consume |
| RootModel.AllFinish | crates/phenix-kernel/src/pending.rs:455-476 | with code that consumes its children, every ticket that draining leaves was reached by the drop and has finished, if nothing was stranded |
| RootModel.Shutdown | crates/phenix-kernel/src/runtime.rs:559-577 | refused without a change over live native work or an admitted root; otherwise the kernel stops with no ticket and no cell |
| GenerationModel.Generations.InstallCandidate | crates/phenix-kernel/src/generation.rs:160-177 | a failed identity or a second install of a generation changes nothing, and no install changes the default |
| GenerationModel.Generations.Activate | crates/phenix-kernel/src/generation.rs:178-204 | Ok exactly when the generation is resident afterwards; a failed load is final; other generations and the default stay |
| GenerationModel.Generations.Promote | crates/phenix-kernel/src/generation.rs:209-213 | the default changes only to a resident generation |
| GenerationModel.Generations.Retire | crates/phenix-kernel/src/generation.rs:272-310 | never the default, an admitted root or live native work; otherwise the generation is removed and its kernel, without tickets, is stopped |
| CellStore.Cells.Commit | crates/phenix-kernel/src/value_state.rs:220-251 | all edits or none: Ok exactly when no edit has an obstacle and the epoch is not exhausted; each touched cell gets its next revision under one new epoch; the first obstacle in order is the error |
| CellStore.Cells.ObstacleMeans | crates/phenix-kernel/src/value_state.rs:220-228 | an edit has no obstacle exactly when its reference resolves, its value fits the cell, the revision it expects is the present one and there is a next; otherwise the obstacle names the first of these that fails |
| CellStore.Cells.Install | crates/phenix-kernel/src/value_state.rs:229-251 | the edits are installed one by one, each once, and every other cell stays |
| CellStore.Cells.CompareExchange | crates/phenix-kernel/src/value_state.rs:215-219 | a commit of one edit, answered with the snapshot that it made |
| CellStore.Cells.CommitKeepsCells | crates/phenix-kernel/src/value_state.rs:220-251 | over any run the revision of a cell is the number of commits that touched it and its epoch that of the last one |
| CellStore.Cells.DistinctReferences | crates/phenix-kernel/src/value_state.rs:173-188 | distinct references that resolve name distinct cells |
| CellStore.Cells.LookupExact | crates/phenix-kernel/src/value_state.rs:173-188 | a reference resolves exactly when it is the whole location of a cell; a schema mismatch is reported exactly for a location that is wrong in its schema only, a lost owner exactly for one that this generation does not have |
| CellStore.IdentityKept | crates/phenix-kernel/src/value_state.rs:220-251 | a commit changes no location, owner or property, and values stay within their schema |
| CellStore.Cells.Create | crates/phenix-kernel/src/value_state.rs:123-172 | Ok exactly when there is room, the owner has no cell for the property, the initial value fits its schema and has an encoding, and the digests that name cell and schema can be made and do not collide; then one cell at revision 0 is new, otherwise nothing changes |
| CellStore.Cells.WatchedChangesSince | crates/phenix-kernel/src/value_state.rs:261-271 | exactly the watched properties that some later commit touched |
| CellStore.Cells.Subscribe | crates/phenix-kernel/src/value_state.rs:272-299 | Ok exactly when there is room, the reference resolves and cursors are not exhausted; the next cursor number, at the present snapshot, owned by root, caller and ticket |
| CellStore.Cells.Next | crates/phenix-kernel/src/value_state.rs:313-328 | Ok exactly for a cursor of that root, caller and ticket whose cell resolves: the present snapshot, unless this cursor has seen it; exactly that cursor has then seen the present revision |
| CellStore.Cells.Unsubscribe | crates/phenix-kernel/src/value_state.rs:329-339 | Ok exactly for the owner of a cursor, which is then gone; nothing else goes |
| CellStore.Cells.ReleaseTicket | crates/phenix-kernel/src/value_state.rs:340-342 | exactly the cursors of the ticket go |
| CellStore.Cells.ReleaseRoot | crates/phenix-kernel/src/value_state.rs:343-345 | exactly the cursors of the root go |
| StateRequests.Apply | crates/phenix-kernel/src/state_effects.rs:189-214 | a write is one commit of all its edits or of none and answers with the new revisions; everything else leaves the cells alone; a read or a subscription answers with the present snapshot, a cursor with what it has not seen, and only its owner moves or removes it |
| StateRequests.AscendingDistinct | crates/phenix-contract/src/state.rs:74-78 | a strictly ascending batch names each location once |
| Dag.Order | crates/phenix-kernel/src/dag.rs:4-37 | the order is that of the depth-first search by names; Ok is a duplicate-free topological order of all nodes, Err a closed walk of dependencies, and Ok exactly when there is no cycle |
| Dag.Search.Visit | crates/phenix-kernel/src/dag.rs:7-30 | the search on the fields of the class does what the search by names does: it finishes the node and all it depends on in the same order, or meets the same cycle; it terminates because the path cannot repeat a node |
| Dag.NameOrderSound | crates/phenix-kernel/src/dag.rs:4-37 | the search by names yields a topological order or a real cycle |
| Dag.OrderedHasNoCycle | crates/phenix-kernel/src/dag.rs:4-37 | a graph that can be ordered has no cycle |
| Dag.RestrictedHasNoCycle | crates/phenix-kernel/src/graph.rs:203-231 | a projection of an acyclic graph is acyclic |
| Graphs.Ancestor | crates/phenix-kernel/src/graph.rs:48-63 | true exactly when a dependency path leads from the one node to the other |
| Graphs.Compile | crates/phenix-kernel/src/graph.rs:71-200 | Ok exactly for known triggers, declared predecessors, no cycle, and every pair of writers of a property ordered by a path |
| Graphs.CheckWriters | crates/phenix-kernel/src/graph.rs:162-182 | the loop over all pairs finds exactly the unordered writers |
| Graphs.ProjectTriggers | crates/phenix-kernel/src/graph.rs:203-231 | for a compiled graph the projection never fails; it is the order by names of the active nodes and their direct active edges, and a topological one |
| Graphs.StateActivation | crates/phenix-kernel/src/graph.rs:245-258 | fails exactly on a badly named property |
| Graphs.StateHookRequests | crates/phenix-kernel/src/graph.rs:692-723 | fails exactly when an active node declared none of the changed properties |
| Graphs.HooksNeverFail | crates/phenix-kernel/src/graph.rs:692-723 | for nodes activated by those changes it never does |
| Graphs.HookTells | crates/phenix-kernel/src/graph.rs:692-723 | the request of a hook holds the epoch and exactly the changed properties that its triggers name, and nothing else |
| Graphs.NodeKeyExactly | crates/phenix-contract/src/graph.rs:148-151 | exactly the texts owner/name of two identifiers, the first of them not `root`, name a node or a property |
| Graphs.ActivePathKeepsOrder | crates/phenix-kernel/src/graph.rs:203-231 | a dependency path inside the active nodes is kept by every order of the projection |
| NameOrders.NameOrderDecides | crates/phenix-kernel/src/dag.rs:4-37 | of two nodes the one comes first by names exactly when the first node in turn that needs either decides for it: which node that is depends on names and dependency paths only |
| NameOrders.WriterOrder | crates/phenix-kernel/src/graph.rs:162-231 | two active writers are listed in a given order exactly when the names and paths of the active nodes say so; a path inside the active nodes always keeps it |
| NameOrders.FreeWritersListedByName | crates/phenix-kernel/src/graph.rs:203-231 | writers that no other active node needs are listed in the order of their names, whatever order compilation found |
| NameOrders.AfterAllAdds | crates/phenix-kernel/src/dag.rs:7-30 | a visit finishes exactly the nodes that the visited ones need |
| NameOrders.DormantNodeLosesOrder | crates/phenix-kernel/src/graph.rs:162-231 | a compiled graph whose two writers, with providers of their own, are ordered through a dormant node only: the prompt lists the later one first |
| Schedules.QuietRunByNames | crates/phenix-kernel/src/graph.rs:1015-1078 | where calls are synchronous, of two nodes of a wave the one starts first that the names and paths of the active nodes put first |
| Schedules.DormantRunsReversed | crates/phenix-kernel/src/graph.rs:1015-1078 | so the two writers of that graph run against the order that compilation found |
| Schedules.EitherMayFinishFirst | crates/phenix-kernel/src/graph.rs:1015-1078 | with pending calls, and no path inside the active nodes from one to the other, either of two nodes may succeed before the other, whatever their names, if neither it nor a node it comes after has the other one's provider |
| Schedules.BusyProviderLosesOrder | crates/phenix-kernel/src/graph.rs:1037-1046 | a compiled graph with both orders of two writers that are ordered through a dormant node only: in one pass the later writer starts and succeeds while the earlier one, listed first, waits for its busy provider; in the other it starts after the earlier one has succeeded |
| Waves.RunKeepsPaths | crates/phenix-kernel/src/graph.rs:1015-1078 | over all waves a node starts once, and after every node that it comes after along a path inside its wave; each of these has succeeded, exactly unless it was lost |
| Waves.PathStartsLater | crates/phenix-kernel/src/graph.rs:1015-1078 | for one start: every node on such a path has succeeded or been lost |
| Waves.PassInOrder | crates/phenix-kernel/src/graph.rs:1015-1078 | a pass over a fresh wave in the order of its list keeps all waves in the order by names |
| Graphs.Matching | crates/phenix-kernel/src/graph.rs:692-723 | the changed properties that the node's triggers name |
| Waves.StartNode | crates/phenix-kernel/src/graph.rs:1015-1078 | a waiting node starts once, and only when no active direct predecessor waits, is pending or was unsuccessful |
| Waves.SkipNode | crates/phenix-kernel/src/graph.rs:1023-1030 | a skip has an unsuccessful direct predecessor and makes the node unsuccessful in turn |
| Waves.SettleNode | crates/phenix-kernel/src/graph.rs:805-859 | a pending node moves to exactly one final place |
| Waves.UnsuccessfulBlocks | crates/phenix-kernel/src/graph.rs:1023-1030 | a node with an unsuccessful direct predecessor is never started |
| Waves.FinishedWave | crates/phenix-kernel/src/graph.rs:1001-1083 | in an unstopped wave with nothing waiting, pending or lost, every active node succeeded, failed or was skipped; exactly those with an unsuccessful direct predecessor were skipped; the active predecessors of all others succeeded |
| Waves.TimelyUnlessLost | crates/phenix-kernel/src/graph.rs:1015-1078 | exactly a start behind a lost active direct predecessor is not timely |
| Waves.LostDoesNotBlock | crates/phenix-kernel/src/graph.rs:863-904 | such a start is possible: the steps of a wave in which the first node is lost and the one that depends on it starts |
| Waves.CommitHasOneWindow | crates/phenix-kernel/src/graph.rs:930-953 | every commit since admission up to the cursor falls in exactly one wave window, which names each watched property it touched |
| Waves.NoPhantomChange | crates/phenix-kernel/src/graph.rs:930-953 | a window names only watched properties that one of its commits touched |
| Waves.WaveBegun | crates/phenix-kernel/src/graph.rs:930-953 | a wave begun by a window keeps the law of requests: each node that is called in it will be asked with the changes of that window that concern it |
| Waves.OneMoreRequest | crates/phenix-kernel/src/graph.rs:1058 | a node called with its prepared request, or with the payload when it has none, is asked what its own wave asks of it: the payload in the first wave, and its own changes in every other one |
| ExecutorModel.GraphExecution.constructor | crates/phenix-kernel/src/graph.rs:542-690 | a new execution has every active node waiting and its cursor at the epoch of admission |
| ExecutorModel.GraphExecution.FinishNode | crates/phenix-kernel/src/graph.rs:805-859 | success, domain error with the node's failure policy, or a kernel failure that always stops: each leaves exactly its own marks |
| ExecutorModel.GraphExecution.AcceptPoll | crates/phenix-kernel/src/graph.rs:863-904 | pending stays pending, a delivered result ends the node with exactly that result, taken once, a cancelled ticket stops the graph, a poll that fails for want of a scope number loses the node; the lease is retained until it is released |
| ExecutorModel.GraphExecution.CancelPending | crates/phenix-kernel/src/graph.rs:905-917 | all pending nodes end; the calls dealt with have lost their authority or finished, and are retained or released; on Ok these are all. It fails only for want of a scope number, and always without one if some call is live: then the failing call and those after it are in nobody's hands, the latter untouched |
| ExecutorModel.GraphExecution.Cancel | crates/phenix-kernel/src/graph.rs:919-926 | the same, and the execution is stopped and cancelled; a terminal execution is left alone |
| ExecutorModel.GraphExecution.CancelTaken | crates/phenix-kernel/src/graph.rs:905-917 | the loop itself: which calls have been dealt with, which one failed and which were let go |
| ExecutorModel.GraphExecution.AdmitStateWave | crates/phenix-kernel/src/graph.rs:930-953 | never fails; closes one window at the present epoch; the next wave is exactly the nodes that watch a changed property, in the order by names, each with the request that tells it of its own changes |
| ExecutorModel.GraphExecution.ReadChanges | crates/phenix-kernel/src/graph.rs:930-937 | the window read is exact and the cursor moves to the present epoch |
| ExecutorModel.GraphExecution.StartOne | crates/phenix-kernel/src/graph.rs:1049-1077 | a node whose turn it is leaves the queue once; it is called with its own request, the payload in the first wave and its own changes in a later one, and the call takes effect exactly when the kernel admits it; its outcome, failure or ticket is recorded as such |
| ExecutorModel.GraphExecution.CallNode | crates/phenix-kernel/src/graph.rs:1049-1077 | the call is made for the node's owner, its selected provider and the encoding of the request given, and takes effect exactly when the kernel admits that |
| ExecutorModel.GraphExecution.StartNodes | crates/phenix-kernel/src/graph.rs:1015-1078 | the loop over the active nodes is a pass of turns (`Schedules.Turn`): each waiting node is skipped behind an unsuccessful one, passed over behind one that waits or is pending or while its provider is busy, and started otherwise; it starts nodes in their order, never grows the queue, and shrinks it when nothing is live; where calls are synchronous it empties the queue or stops |
| ExecutorModel.GraphExecution.TakeTurn | crates/phenix-kernel/src/graph.rs:1015-1078 | one turn of the loop does exactly what `Schedules.Turn` says, with the providers of the live tickets as the busy ones; a node that starts is called with its own request, and the call takes effect exactly when the kernel admits it |
| ExecutorModel.GraphExecution.RunNode | crates/phenix-kernel/src/graph.rs:1049-1077 | the call of a started node takes effect exactly when the kernel admits it for that request; it goes on and keeps its provider busy, or the node ends as its answer says; no other provider becomes free meanwhile |
| ExecutorModel.GraphExecution.PollPending | crates/phenix-kernel/src/graph.rs:1001-1008 | every pending node is polled once; with nothing live none stays pending |
| ExecutorModel.GraphExecution.DrainLeases | crates/phenix-kernel/src/graph.rs:990-1000 | each retained lease is released or still retained; with nothing live all are released; no node is admitted |
| ExecutorModel.GraphExecution.ReleaseOrRetain | crates/phenix-kernel/src/graph.rs:860-898 | a finished ticket is released, a live one retained, and no other ticket changes |
| ExecutorModel.GraphExecution.Pump | crates/phenix-kernel/src/graph.rs:959-1126 | a turn of an unstopped execution with waiting nodes and nothing live strictly shrinks the queue or closes a window; unstopped termination leaves no node, no pending call and no commit beyond the cursor; no lease of a pending or draining call is dropped unless the turn fails |
| ExecutorModel.GraphExecution.PumpRun | crates/phenix-kernel/src/graph.rs:959-1126 | over any run of pumps, failed ones included, a node starts once in its wave, with the request of that wave, after every node that it comes after along a path inside the wave; each of these has succeeded exactly unless it was lost, and while scope numbers last no node is lost; where calls are synchronous and nothing is live, all waves start their nodes in the order by names |
| ExecutorModel.BeginAction | crates/phenix-kernel/src/graph.rs:533-690 | admitted exactly when the action is known, its payload fits, its scope is granted, its event is known and a root is admissible, with the error of the first that fails; the first wave is what its event activates, in the order by names, and the root's scope is exactly the one that the action's grants leave of the one requested; where calls are synchronous it begins with nothing live; otherwise nothing changes |
| ExecutorModel.ActionScope | crates/phenix-kernel/src/graph.rs:626-658 | a scope is left exactly when every required operation is held, asked for and granted to the root, and a fixed resource is asked for and in every such grant; it keeps the operations asked for, and exactly the resources that every required operation is granted |
| ValueCodec.Bijection | crates/phenix-contract/src/value.rs:46-228 | encode and decode are inverse under the depth, count and byte limits: a value and its bytes determine each other |
| ValueCodec.SchemaBijection | crates/phenix-contract/src/value.rs:54-228 | the same for the encoding without prefix |
| ValueCodec.PrefixFree | crates/phenix-contract/src/value.rs:54-126 | no encoding is a proper prefix of another |
| ValueCodec.WireParses | crates/phenix-contract/src/value.rs:134-228 | whatever follows it, an encoding reads back as its value |
| ValueCodec.ParsedIsWire | crates/phenix-contract/src/value.rs:134-228 | only the canonical encoding of a value reads back as that value |
| ValueCodec.Writer.Put | crates/phenix-contract/src/value.rs:63-126 | the recursive writer appends exactly the wire form, and fails exactly beyond a limit |
| ValueCodec.EncodeValue | crates/phenix-contract/src/value.rs:46-53 | the buffer encoder computes the specified encoding |
| ValueCodec.Reader.ReadValue | crates/phenix-contract/src/value.rs:162-228 | the cursor reader reads exactly what the specified parser reads |
| ValueCodec.DecodeValue | crates/phenix-contract/src/value.rs:128-133 | the cursor decoder computes the specified decoding |
| ValueCodec.DecodeSchemaValue | crates/phenix-contract/src/value.rs:134-228 | the same without prefix |
| ValueCodec.FromToBe | crates/phenix-contract/src/value.rs:55-62 | big-endian numbers of a width read back |
| ValueCodec.KnownBytes | crates/phenix-contract/src/value.rs:46-126 | the bytes of one value of each kind: prefix, tags, widths and byte order |
| ValueCodec.KnownReference | crates/phenix-contract/src/value.rs:67-76 | a reference is its tag and its four identities, 113 bytes |
| SchemaCodec.DescriptorBijection | crates/phenix-contract/src/reference.rs:162-235 | a schema and its canonical bytes determine each other |
| SchemaCodec.DescriptorDescribes | crates/phenix-contract/src/reference.rs:121-235 | the parser inverts the descriptor |
| SchemaCodec.DescribedHasDescriptor | crates/phenix-contract/src/reference.rs:174-235 | only a descriptor parses to a schema |
| SchemaCodec.ComparisonOnlyValidates | crates/phenix-contract/src/reference.rs:230-235 | the byte comparison that ends decoding can fail only through `validate` |
| SchemaCodec.EncodesExactly | crates/phenix-contract/src/reference.rs:82-166 | a schema has an encoding exactly when it is valid, its value levels, counts and names fit, and its bytes do |
| SchemaCodec.DescriptorFits | crates/phenix-contract/src/reference.rs:121-160 | the value limits of a descriptor are limits on its levels, where a struct costs two |
| SchemaCodec.ValidButNotEncodable | crates/phenix-contract/src/reference.rs:82-166 | between 17 and 32 nested structs a schema is valid and has no encoding |
| SchemaCodec.KnownDescriptors | crates/phenix-contract/src/reference.rs:121-160 | the descriptors of scalars and references by name |
| SchemaCodec.KnownComposites | crates/phenix-contract/src/reference.rs:121-160 | the descriptors of lists, options, structs and variants by name |
| SchemaCodec.KnownTagged | crates/phenix-contract/src/reference.rs:121-160 | the descriptor of a tagged union: a payload or nothing under its name |
| StaticSchemas.EmitterAgrees | crates/phenix-contract/src/static_schema.rs:72-200 | whenever emitter and tree encoder both succeed they give the same bytes |
| StaticSchemas.SchemaBytes.Schema | crates/phenix-contract/src/static_schema.rs:72-163 | the emitter fills the fixed buffer with exactly the tree encoding, or fails by an assertion or for want of space |
| StaticSchemas.EncodeStatic | crates/phenix-contract/src/static_schema.rs:186-193 | exactly the schemas that meet the emitter's assertions and the buffer are emitted |
| StaticSchemas.Compare | crates/phenix-contract/src/static_schema.rs:165-183 | the comparison loop is the order of strings |
| StaticSchemas.EmittedIsFormed | crates/phenix-contract/src/static_schema.rs:72-163 | what the emitter accepts is a well-formed schema |
| StateCodec.RequestBijection | crates/phenix-contract/src/state.rs:54-117 | a request and its opcode and bytes determine each other |
| StateCodec.DecodedBatch | crates/phenix-contract/src/state.rs:105-117 | a decoded batch is not empty, ascends strictly and names each reference once |
| StateCodec.ComparisonOnlyChecks | crates/phenix-contract/src/state.rs:83-117 | the comparison that ends decoding can fail only for a request that may not be sent |
| StateCodec.ErrorBijection | crates/phenix-contract/src/state.rs:119-164 | an access error and its value determine each other |
| StateCodec.KnownRequests | crates/phenix-contract/src/state.rs:54-117 | the opcodes and bytes of the requests of one cursor or one reference |
| StateCodec.KnownErrors | crates/phenix-contract/src/state.rs:119-139 | each access error has its own name, and a conflict tells the expected and then the present revision |
| ScopeCodec.AuthorityBijection | crates/phenix-contract/src/scope.rs:32-79 | an authority and its value determine each other: strings ascend strictly, so a set has one form |
| ScopeCodec.ScopedBijection | crates/phenix-contract/src/scope.rs:81-129 | a scoped request and its bytes determine each other |
| ScopeCodec.ScopedNames | crates/phenix-contract/src/scope.rs:32-100 | which part of a scope stands under which key |
| ScopeCodec.AscendingUnique | crates/phenix-contract/src/scope.rs:48-65 | two strictly ascending lists of the same strings are equal |
| Schemas.StructAccepts | crates/phenix-contract/src/reference.rs:249-254 | comparing the lengths and looking up each field accepts exactly the maps with one accepted entry for each field and no other |
| Schemas.AcceptedBy | crates/phenix-contract/src/reference.rs:237-267 | for each kind of value, exactly the schemas that accept it |
| Resolve.Delegate | crates/phenix-kernel/src/resolve.rs:479-510 | the loop ends; each plugin holds exactly the definitions of the plugins it reaches by selected imports, in whatever order the edges are visited |
| Resolve.Least | crates/phenix-kernel/src/resolve.rs:479-510 | they lie in every family that is closed under the imports: the result is the least fixpoint |
| Resolve.Pass | crates/phenix-kernel/src/resolve.rs:494-506 | a pass grows some set or shows that all edges are closed |
| Resolve.SameSize | crates/phenix-kernel/src/resolve.rs:503-505 | comparing lengths before and after `extend` detects exactly a new key |
| Checkpoints.ValidateCheckpoint | crates/phenix-advanced-contracts/src/compaction.rs:63-137 | Ok exactly for a sealed checkpoint: valid names, lineage and spans, and every input number in exactly one span; an overlap or gap error comes with a number covered twice or not at all |
| Checkpoints.Sweep | crates/phenix-advanced-contracts/src/compaction.rs:112-124 | the sweep over the sorted ranges succeeds exactly when they partition the input |
| Checkpoints.Sorting | crates/phenix-advanced-contracts/src/compaction.rs:111 | sorting keeps every range and every number's count |
| Checkpoints.Gather | crates/phenix-advanced-contracts/src/compaction.rs:101-110 | the spans are gathered exactly when each is valid and inside the input |
| Checkpoints.ValidateSpan | crates/phenix-advanced-contracts/src/compaction.rs:51-59 | a span is a non-empty range from 1 with a digest |
| Checkpoints.ValidateReference | crates/phenix-advanced-contracts/src/lib.rs:171-186 | a source reference has identities, a digest and an ordered range |
| Checkpoints.CheckSources | crates/phenix-advanced-contracts/src/compaction.rs:125-135 | every hydration source belongs to the session and is valid |
| Checkpoints.OneVisibility | crates/phenix-p2-compaction-replay/src/view.rs:49-67 | in a sealed checkpoint the order of the tests is immaterial: a number is held by spans of one kind only, and the rest is excluded by name |
| Replay.SpanForEvents | crates/phenix-p2-compaction-replay/src/lib.rs:60-109 | Ok exactly for one session's contiguous, encodable events within the limits; the span has their ends and the digest of their framed bytes; a gap is reported only for an otherwise ascending stream |
| Replay.StreamDetermines | crates/phenix-p2-compaction-replay/src/lib.rs:72-109 | the framed bytes determine the events: only a digest collision can confuse two spans |
| Replay.SliceIsJournal | crates/phenix-p2-compaction-replay/src/lib.rs:134-150 | for every span of a sealed checkpoint neither subtraction underflows, the end does not overflow, the slice exists and is itself a valid span |
| Replay.CheckSpans | crates/phenix-p2-compaction-replay/src/lib.rs:134-150 | so the loop over the spans can fail by a digest only |
| Replay.RestoreOriginalEvents | crates/phenix-p2-compaction-replay/src/lib.rs:114-152 | Ok exactly when every digest agrees, and then the events are returned unchanged |
| Replay.OneOriginal | crates/phenix-p2-compaction-replay/src/lib.rs:114-152 | two journals that restore one checkpoint are equal unless the digest collides on them |
| Replay.CompactedView | crates/phenix-p2-compaction-replay/src/view.rs:72-166 | Ok exactly when the journal restores, summaries come first, calls are whole and the budget suffices; the view is the one projection |
| Replay.CallsStayWhole | crates/phenix-p2-compaction-replay/src/view.rs:97-122 | every tool start has its end, the next event of the call, on the same side |
| Replay.PartsAre | crates/phenix-p2-compaction-replay/src/view.rs:124-158 | the parts are one summary, if anything is summarized, and then the retained events in order |
| Replay.CheckPrefix | crates/phenix-p2-compaction-replay/src/view.rs:84-96 | detects exactly a summarized event after one that is not |
| Replay.CheckTools | crates/phenix-p2-compaction-replay/src/view.rs:97-122 | detects exactly repeated, orphaned, split and unresolved calls |
| Replay.Project | crates/phenix-p2-compaction-replay/src/view.rs:124-165 | the running sum rejects exactly a payload over the budget, without overflow |
| Conversations.EventBytesDetermine | crates/phenix-basic-contracts/src/lib.rs:406-415 | the canonical bytes of a journal record determine it |
| Conversations.MessageBijection | crates/phenix-basic-contracts/src/lib.rs:143-155 | a message and its portable value determine each other |
| Conversations.KnownMessages | crates/phenix-basic-contracts/src/lib.rs:143-155 | the portable value of one message of each kind |
| Conversations.ReceiptIsExact | crates/phenix-basic-contracts/src/lib.rs:49-51 | a receipt decodes to a message exactly when it consists of the message's canonical bytes |
| HistoryModel.AssembleVerifiedBasicRequest | crates/phenix-p2-compaction-replay/src/history.rs:38-342 | Ok exactly when the view is the one derived from the checkpoint and the journal, tool runs are shown or summarized as wholes, and the journal reads the whole history up to a kept open turn of the request's run; the result keeps what the kept events match, and its context is the old one with the checkpoint's summary, exactly when something is summarized |
| HistoryModel.ReadJournal | crates/phenix-p2-compaction-replay/src/history.rs:99-301 | the loop over the events refines the reference reading: it succeeds exactly when journal and history align |
| HistoryModel.AcceptPrompt | crates/phenix-p2-compaction-replay/src/history.rs:127-150 | one step of that refinement: a prompt opens a turn |
| HistoryModel.AcceptReceipt | crates/phenix-p2-compaction-replay/src/history.rs:154-189 | a receipt matches the assistant message whose bytes it holds |
| HistoryModel.BeginTool | crates/phenix-p2-compaction-replay/src/history.rs:190-226 | a start takes the next queued call, whose identity and tool it must carry; without a receipt it first matches the message that asked, which must be kept |
| HistoryModel.EndTool | crates/phenix-p2-compaction-replay/src/history.rs:227-261 | an end matches the result of the active call |
| HistoryModel.AcceptAnswer | crates/phenix-p2-compaction-replay/src/history.rs:262-289 | an answer closes a turn with no call open |
| HistoryModel.Claim | crates/phenix-p2-compaction-replay/src/history.rs:172-183 | the inserting check accepts exactly new, non-empty, distinct identities |
| HistoryModel.CheckRun | crates/phenix-p2-compaction-replay/src/history.rs:108-125 | a run with tools is retained or summarized as a whole |
| HistoryModel.ReadParts | crates/phenix-p2-compaction-replay/src/history.rs:76-97 | the checks on the parts of a derived view never refuse; the collected numbers are exactly the retained ones |
| HistoryModel.SummaryTold | crates/phenix-p2-compaction-replay/src/history.rs:76-97 | where summaries come first, the summary shown is the checkpoint's exactly when some event is summarized |
| HistoryModel.LastKept | crates/phenix-p2-compaction-replay/src/history.rs:308-316 | the last kept message is the last of the history and the user's or a tool's: the check of its role never refuses |
| Transcripts.TurnsStayWhole | crates/phenix-p2-compaction-replay/src/history.rs:107-342 | the history is cut into finished turns and the open one; what is kept is the in-order concatenation of whole kept turns and the kept open turn |
| Transcripts.EachMessageOnce | crates/phenix-p2-compaction-replay/src/history.rs:107-301 | each message is told by exactly one event, in order, and no prompt, receipt, result or answer is left over |
| Transcripts.TurnsHaveOneSide | crates/phenix-p2-compaction-replay/src/history.rs:107-301 | all messages of a turn are told by kept events, or none |
| Transcripts.ElidedHasReceipt | crates/phenix-p2-compaction-replay/src/history.rs:154-189 | every elided assistant message with calls is told by a receipt of exactly its bytes |
| Transcripts.ResultsFollowCalls | crates/phenix-p2-compaction-replay/src/history.rs:190-261 | every call of a matched turn has its result, in call order, directly after the message that asked |
| Transcripts.CallsStartInTurn | crates/phenix-p2-compaction-replay/src/history.rs:190-261 | in an aligned journal the k-th start carries the identity and the tool of the k-th call of the history, and the k-th end its identity and its result; starts and ends alternate, so no call starts while another is open; what is left open is what the history still waits for |
| Transcripts.EventsBelong | crates/phenix-p2-compaction-replay/src/history.rs:107-301 | every event of an aligned journal belongs to the run of the prompt that opened its turn, no turn opens inside another, and no other kind of event occurs |
| Recording.RecordedIsCurrent | crates/phenix-p2-compaction-replay/src/history.rs:107-342 | a conversation that the agent records, with finished turns kept or elided as wholes and the current one kept, is read to its end exactly when every finished turn was answered, no turn uses a call identity twice, and every reply of an elided turn has its receipt |
| Recording.ScriptReads | crates/phenix-plugin-basic-agent/src/lib.rs:763-824 | the records of one turn are read from its prompt to its answer, or to where it waits, exactly when no reply reuses an identity of the turn and, if the turn is elided, each has its receipt; a turn stopped by a failure or a cancellation is always refused, whatever it shows of its last reply |
| Recording.RoundReads | crates/phenix-plugin-advanced-model-adapter/src/lib.rs:100-134 | the records of one tool round, with text around them, are read as its messages: with the receipt of its reply, or without one in a kept turn |
| Recording.RepeatedIdentity | crates/phenix-plugin-basic-agent/src/lib.rs:754-761 | a turn that the agent accepts and records, and the verifier refuses: two replies with calls of the same identity |
| Recording.RoundsRead | crates/phenix-plugin-basic-agent/src/lib.rs:754-824 | the rounds of a turn are read exactly when their identities are fresh and, unless the turn is kept, each has its receipt |
| RecoveryModel.Host.RecoverOwnedRun | crates/phenix-basic-runtime/src/main.rs:471-542 | from any safe disk, wherever a fault stops it, the disk stays safe; unless a fault occurs or the journal is full it is Ok exactly when the marker does not refuse it; Ok leaves no marker and, for a running or claimed session, one report of its run, and the session Indeterminate exactly when some call is pending and Failed exactly when none is; run and pending calls never change; only a torn first write strands a session |
| RecoveryModel.Host.AnyHistory | crates/phenix-basic-runtime/src/main.rs:471-568 | over any number of processes, each stopped anywhere, with calls reconciled between them, no run is reported twice, nothing leaves the journal, and a recovery marker beside an ended run is that run's; an ended run with calls pending can be reconciled exactly when no kernel failure has stopped the agent between a call and its result, and such a session never changes again |
| RecoveryModel.Host.RecoveryEventExists | crates/phenix-basic-runtime/src/main.rs:441-469 | the page loop ends and finds exactly whether the run was reported |
| RecoveryModel.Host.Announce | crates/phenix-basic-runtime/src/main.rs:514-542 | the report is appended only where there was none, and the marker ends |
| RecoveryModel.Host.SetMarker | crates/phenix-basic-runtime/src/main.rs:411-421 | the marker is the text written, or the old text or a first part of the new one when a fault stops the write |
| RecoveryModel.Host.MarkAdmittedRun | crates/phenix-basic-runtime/src/main.rs:546-568 | only a run committed as running is marked, and what a fault leaves never looks like a recovery marker |
| RecoveryModel.Host.Serve | crates/phenix-basic-runtime/src/main.rs:877-950 | one process keeps the disk safe; a session left with calls that nobody can reconcile stays as it is, and so does an indeterminate one; Ok leaves no marker |
| RecoveryModel.WholeMarker | crates/phenix-basic-runtime/src/main.rs:402-436 | a whole marker is verified exactly when the bounded read holds it |
| RecoveryModel.TornMarker | crates/phenix-basic-runtime/src/main.rs:411-436 | a torn marker is never verified |
| RecoveryModel.MarkersDiffer | crates/phenix-basic-runtime/src/main.rs:398-399 | no text begins like both markers |
| RecoveryModel.LongNamesStall | crates/phenix-basic-runtime/src/main.rs:398-436 | run names of 232 to 234 bytes, and only these, are recognized as owned but not as recovering |
| RecoveryModel.Host.Append | crates/phenix-plugin-event-journal/src/lib.rs:31-52 | events are numbered contiguously from one |
| RecoveryModel.Host.Reconcile | crates/phenix-plugin-basic-session/src/lib.rs:38-65 | succeeds exactly for a pending call of an indeterminate session, which is then gone; the session runs exactly when none is left; otherwise nothing changes |
| RecoveryModel.Host.ReconcileAll | crates/phenix-plugin-basic-session/src/lib.rs:38-65 | reconciling the calls one by one leaves none pending exactly when the session is not stuck, and a session that was recovered is then running without a marker, which the next host refuses |
| RecoveryModel.ALostCall | crates/phenix-plugin-basic-agent/src/lib.rs:825-890 | a prompt, a reply with one call, and a kernel failure while its tool works: the session accepts each checkpoint, and is left Failed with the call pending, where nobody can reconcile it |
| RecoveryModel.Host.Work | crates/phenix-plugin-basic-agent/src/lib.rs:438-868 | a step of the agent is committed or not; only a kernel failure in a running session leaves calls that nobody can reconcile, and nothing changes such a session or an indeterminate one |
| RecoveryModel.Host.Checkpoint | crates/phenix-plugin-basic-session/src/lib.rs:175-212 | what the session provider does not accept changes nothing; what it accepts is committed, unless a fault stops it |
| RecoveryModel.PageFrom | crates/phenix-plugin-event-journal/src/lib.rs:56-84 | a page holds the next events after the offset, up to the limit, and ends at the offset after them; it is refused exactly without a limit or beyond the end |

## Left out

- RootModel.AbandonRoot: that a drop with an exposed child panics is shown for code that consumes its children, with enough nesting and scope numbers; other code may leave them alone.
- RootModel.DrainCancelled: that a slot which can be freed becomes free is shown for the same code; other code may never end its work.
- Schedules.EitherMayFinishFirst: does not decide for a node that shares the other one's provider, or comes after a node that does; which of the two can come first then depends on what delays the other.
- RootModel.AnyRun: the recursion of native code through the kernel has a bound, `fuel`; the bound is arbitrary and every law is independent of it.
- Graphs.Compile: works on the nodes and events of all contributions together; duplicate declarations and per-owner checks are not modelled, and every refusal is one error.
- ExecutorModel.GraphExecution.Pump: emission of events to the observer is not modelled.
- Resolve.Delegate: slot selection, cardinalities, grants and the construction of bindings in the same function are not modelled.
- Checkpoints.ValidateCheckpoint: the library sort is modelled by a function, not in place.
- Replay.OneOriginal: digests are not assumed collision-free; the statement names the collision.
- RecoveryModel.Host.Work: the agent's checkpoints are those of its steps in Basic mode; staged continuations, other holders of the session and an agent that appends events that look like a report of interruption are not modelled.
- KernelModel.Kernel.EnterTicket: whether native code is told to poll or to cancel is not part of any law; native code may do anything either way.
- KernelModel.Kernel.AcceptReply: the failure that a reply with status 2 or 5 reports is any failure; decoding it from the reply's value is not modelled.
- RecoveryModel.Host.RecoverOwnedRun: the lock itself is not modelled; one process at a time holds a session, and a marker is read as bytes.
- Native loading, the raw pointer interface, packages and ELF files: foreign calls and files.
- Threads, the global scope and permit registries and `wake`: identities are fresh numbers, and the ticket's list of ancestors stands for its permit.
- Property initialization and live values through native code: cells are created through `Create`.
- Failure observation, inspection and counters without a law.
- KernelModel.Kernel.HostCall: import commands arrive decoded, a nested call's restriction as any scoped request (`ScopedBijection` covers its bytes); the codes of refusals that native code is given, and the lookups of slots, properties and snapshots, are not modelled.
- Graph version 2, the plan, tail, transaction, publish, budget and admission checks of compaction.
- The synchronous `submit_action` loop, which pumps a started execution until it ends; `PumpRun` is any number of pumps.
- The frontends, JSON-RPC, providers, credentials, storage and the command line.
