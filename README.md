# WatchingStore of k8sutil, modelled in Dafny

This project models the coordinator of `watch.go` in datawire/k8sutil.
`WatchingStore` keeps a two-level store: resource kind → (uid → resource).
It fills the store from the Kubernetes API through a set of registered watches.
`Run` executes successive rounds. A round does four things in order:

- It registers every watched kind.
- It merges one initial listing per watch (the catch-up phase).
- It deletes what those listings no longer contain and invokes the callback once if anything changed (the checkpoint).
- It applies watch events one at a time (the steady state).

Each session exit cancels the round, and the round returns after the last exit.

The goroutines and channels of a round are replaced by the sequence of messages the coordinator receives, one at a time:
`ListBatch(items)`, `WatchEvent(type, resource)` or `Exit`.
The coordinator's state is the store, `newUids`, `dirty`, `listCnt`, `exitCnt`, whether the round's context was cancelled, and where the coordinator is (catch-up, steady, returned, panicked).
A ghost log records every callback invocation together with the store it was shown.

Modules:

- `Resources`: resources, watches, messages and counting functions over traces.
- `MapStore`: `mapStore.List`, a method with a loop.
- `Round`: the specification functions of one round and of `Run`, one function per part of the round.
- `Watching`: the class `WatchingStore`. Its fields are updated in place. Each method is proved to take `Model()` to the corresponding `Round` function of the old `Model()`.
- `StepProperties`: lemmas about one part of a round (entry, merge, prune, event).
- `RoundProperties`: lemmas about whole rounds and about `Run`.
- `AsWritten`: three places where the code as written does not do what it evidently intends, with counterexamples (see Findings).

Three facts about the code that shape the model:

- **Catch-up after an exit.** The doc comment of `run` (watch.go:95-97) says that once the first watch of a round dies, all the others are cancelled. The code does this by cancelling the round's context on every exit (watch.go:145-150). It stays in the catch-up loop, though, and keeps merging listings until the last exit returns. The model does the same.
- **Prune scope.** The prune ranges over every kind in the store (watch.go:153), not only over the kinds listed in this round.
- **Callback argument.** The callback receives `mapStore(w.store)`, a live view of the store (watch.go:52-54). The model records the value of the store at the time of the call.

## Model

| member | source | states |
|---|---|---|
| MapStore.List | watch.go:23-30 | Returns exactly the stored resources of the kind, each once: a ghost sequence of keys enumerates the kind's uids without repetition, and each element is the resource stored under its key. The length is the number of stored uids, and an unknown kind gives the empty sequence. For a keyed store, every element is stored under its own uid and no uid repeats. |
| MapStore.Enumerate | watch.go:25-28 | The loop over one entry returns one element per uid of the entry, each the resource stored under that uid, with no uid repeated and none left out. |
| Watching.WatchingStore.constructor | watch.go:43-50 | A new store has no watches, an empty store and no callbacks. |
| Watching.WatchingStore.AddWatch | watch.go:70-72 | Appends one registration and keeps the earlier ones. Neither the store nor the round state changes. |
| Watching.WatchingStore.Notify | watch.go:52-54 | The callback log gains exactly the current store. Nothing else changes. |
| Watching.WatchingStore.EnterRound | watch.go:99-125 | The registration loop, proved by loop invariant to produce `Round.Enter` of the old state. |
| Watching.WatchingStore.ResetRound | watch.go:99-117 | The round's own state starts fresh: not dirty, nothing observed, counters zero, not cancelled, catching up. The store and the callback log are kept. |
| Watching.WatchingStore.RegisterKind | watch.go:119-124 | One registration pass is `Round.EnterKind`: an empty observed set, and an empty entry only when the kind had none (that sets dirty). |
| Watching.WatchingStore.MergeListing | watch.go:129-139 | The merge loop, proved by loop invariant to produce `Round.MergeBatch` of the old state. |
| Watching.WatchingStore.MergeResource | watch.go:130-138 | Merging one item is `Round.MergeItem`: its uid is observed, and it is stored (setting dirty) iff absent or at another version. |
| Watching.WatchingStore.Prune | watch.go:153-160 | The loop over kinds, in any visiting order, proved to produce `Round.PruneStore` of the old state. |
| Watching.WatchingStore.PruneKind | watch.go:154-159 | One kind keeps only its observed uids, and any deletion sets dirty. |
| Watching.WatchingStore.Checkpoint | watch.go:161-163 | One callback iff dirty; otherwise nothing changes. |
| Watching.WatchingStore.ApplyEvent | watch.go:172-187 | `ok` is false exactly on the panic of line 186, and then nothing changes. Otherwise the new state is `Round.ApplyEvent`'s. |
| Watching.WatchingStore.ApplyUpsert | watch.go:179-184 | Added/Modified: stores the record and notifies iff the uid is absent or its version differs. |
| Watching.WatchingStore.ReceiveExit | watch.go:145-150 | An exit cancels the round and counts. Reaching the number of watches returns. |
| Watching.WatchingStore.Receive | watch.go:126-195 | Receiving one message is exactly `Round.Step`, including the switch to the steady state at the last listing. |
| Watching.WatchingStore.RunRound | watch.go:98-196 | The message loop, proved by loop invariant to produce `Round.RunRound`. `returned` is true iff the round returned. |
| Watching.WatchingStore.Run | watch.go:78-93 | The round loop, proved to give `Round.RunFrom`'s state and result. |
| Round.EnterKinds | watch.go:118-125 | Registration adds an entry for every registered kind, in both the store and newUids, and adds no other kind. |
| Round.Kept | watch.go:153-160 | A pruned entry is the stored entry restricted to the uids observed this round. |
| Round.PruneKinds | watch.go:153-160 | The kinds already visited are pruned and the others untouched. Only store and dirty change, and dirty is set iff it was set or the store changed. |
| Round.PruneKindsStep | watch.go:153 | Visiting one more kind is one more `PruneKind`, whatever the order in which Go's map iteration visits kinds. |
| Round.PruneStore | watch.go:153-160 | Every kind is pruned to its observed uids. No kind is added or removed. Dirty becomes set iff something was deleted or it was set already. |
| Round.Checkpoint | watch.go:161-163 | The callback is invoked once, with the current store, iff dirty. Nothing else changes. |
| Round.ApplyEvent | watch.go:168-187 | Panics iff the event type is unknown. Otherwise it keeps the set of kinds and changes only the store and the callback log. |
| Round.ReceiveExit | watch.go:145-150 | The exit is counted and the round cancelled. The round returns iff this was the n-th exit. |
| Round.Step | watch.go:126-195 | No message adds or removes a kind, from the store or from newUids. |
| Round.RunTrace | watch.go:126-195 | A trace of messages adds or removes no kind. |
| Round.RunRound | watch.go:98-196 | After a round, the store's kinds are the previous kinds plus the registered ones. |
| Round.RunLoop | watch.go:87-92 | Run's loop stops at a round within the trace, and anything other than still running names a round that exists. |
| Round.RunFrom | watch.go:78-93 | The same bounds for Run over the rounds of `run`. |
| StepProperties.EnterKindsStore | watch.go:118-125 | Registration creates empty entries for missing kinds, keeps every existing entry, and sets dirty iff it created one. |
| StepProperties.EnterKindsObserved | watch.go:118-125 | Registration gives each registered kind an empty observed set and changes nothing but store, newUids and dirty. |
| StepProperties.EnterEffect | watch.go:99-125 | Round entry: entries for all registered kinds, existing contents untouched, exactly the registered kinds observed (none yet), dirty iff an entry was created, counters reset, no callback. |
| StepProperties.MergeBatchEffect | watch.go:129-139 | A listing records every listed uid as observed, and each kind's stored uids become the old ones plus the listed ones. |
| StepProperties.MergeItemGating | watch.go:134-137 | One item is stored iff its uid is absent or at another version, and dirty is set exactly then. |
| StepProperties.MergeItemOther | watch.go:129-139 | Merging an item leaves every other record in place. |
| StepProperties.MergeBatchUnlisted | watch.go:129-139 | A uid a listing does not contain keeps its record or its absence. |
| StepProperties.MergeBatchGating | watch.go:133-137 | Version gating over a whole listing: each item ends stored, as the old record if that had the same version, else as the listed item. |
| StepProperties.MergeBatchDirty | watch.go:134-137 | A listing sets dirty iff some item was absent or at another version. |
| StepProperties.MergeQuiet | watch.go:135 | Relisting what the store already holds changes neither the store nor dirty. |
| StepProperties.MergeIdempotent | watch.go:129-139 | Merging the same listing twice is merging it once. |
| StepProperties.PruneIdempotent | watch.go:153-160 | Pruning twice is pruning once. |
| StepProperties.PruneQuiet | watch.go:153-160 | When every stored uid was observed, the prune changes nothing and does not set dirty. |
| StepProperties.DeletedEffect | watch.go:173-178 | Deleted removes exactly that uid and keeps every other record and kind. It notifies once, with the new store, iff the uid was present. |
| StepProperties.UpsertEffect | watch.go:179-184 | Added/Modified leaves the uid stored at the event's version. The record is replaced, with one callback, iff absent or at another version. Everything else is kept. |
| StepProperties.EventIdempotent | watch.go:172-184 | Applying the same known event twice: the second application changes nothing and does not notify. |
| StepProperties.MergeBatchKeyed | watch.go:129-139 | A listing keeps every record under its own kind and uid. |
| StepProperties.EnterKeyed | watch.go:118-125 | Round entry keeps records keyed. |
| StepProperties.PruneKeyed | watch.go:153-160 | The prune keeps records keyed. |
| StepProperties.EventKeyed | watch.go:172-184 | A known event keeps records keyed. |
| RoundProperties.StoppedStaysStopped | watch.go:148-149 | Once the round has returned or panicked, later messages change nothing. |
| RoundProperties.StepInCatchUp | watch.go:126-152 | A message leaves the round in catch-up only from catch-up, and only as a non-final listing merge, a non-final exit or an unread message. |
| RoundProperties.CatchUpCounts | watch.go:126-152 | While catching up, listCnt and exitCnt count the listings and exits received, the round is cancelled iff an exit came, and the callback has not been invoked. |
| RoundProperties.CatchUpObserved | watch.go:129-132 | While catching up, each kind's observed set has grown by exactly the uids listed so far. |
| RoundProperties.CatchUpStored | watch.go:129-139 | While catching up, each kind's stored uids are those it started with plus exactly the uids listed so far: nothing is removed before the prune. |
| RoundProperties.CatchUpDirty | watch.go:134-138 | While catching up, dirty is never cleared, and the store differs from the one the phase started with only if dirty is set. |
| RoundProperties.NoCallbackBeforeAllListings | watch.go:36-38 | While fewer listings than watches have been merged, the round is catching up or has returned and the callback has not been invoked. Listings are counted, not attributed to watches (see Left out). |
| RoundProperties.NoCallbackInCatchUp | watch.go:36-38 | The same for a whole round from entry: fewer listings than watches means no callback. |
| RoundProperties.EnterQuiet | watch.go:116-125 | Round entry leaves dirty unset only if it leaves the store as it was. |
| RoundProperties.SwitchStep | watch.go:141-163 | The last listing is merged, each kind is pruned to what was observed, and the round enters the steady state. The callback fires iff dirty is then set, once, with the pruned store. Dirty is set if it was set before or if the merge or the prune changed the store. |
| RoundProperties.CatchUpRoundCounts | watch.go:126-152 | From round entry, while catching up: listCnt counts the listings and no callback was made. |
| RoundProperties.CatchUpRoundObserved | watch.go:118-132 | From round entry, while catching up: exactly the registered kinds are observed, each with exactly the uids listed so far. |
| RoundProperties.CatchUpRoundStored | watch.go:118-139 | From round entry, while catching up: the store's kinds are the old plus the registered ones, and each holds every uid listed so far. |
| RoundProperties.CatchUpRoundDirty | watch.go:116-138 | From round entry, while catching up: if dirty is unset, the store is unchanged, and if round entry created an entry, dirty is set. |
| RoundProperties.CatchUpEndKinds | watch.go:141-160 | The last listing puts the round in the steady state. Every registered kind has an entry, and every stored kind outside the given watches is emptied by the prune. |
| RoundProperties.CatchUpEndListed | watch.go:129-160 | Deletion by omission: at the checkpoint each registered kind holds exactly the uids listed in this round. |
| RoundProperties.CatchUpEndCallback | watch.go:161-163 | Coalesced checkpoint: since the round began, at most one callback, with the checkpoint store. There is one if the store changed. |
| RoundProperties.CatchUpEndDirty | watch.go:161-163 | At the end of the catch-up the round has made one callback, with the checkpoint store, iff dirty is set, and none otherwise. Dirty is set if it was set before the last listing or if the last listing or the prune changed the store. |
| RoundProperties.CatchUpQuiet | watch.go:129-139 | While catching up, listings of what the store already holds change nothing and leave dirty unset. |
| RoundProperties.QuietSwitch | watch.go:141-163 | A quiet last listing with every stored uid observed leaves the store as it is and makes no callback. |
| RoundProperties.QuietCatchUpRound | watch.go:116-139 | From round entry: with all kinds already stored and only held items listed, the catch-up changes nothing. |
| RoundProperties.QuietRelist | watch.go:116-163 | Idempotent relist: relisting exactly what the store holds ends the catch-up with the store unchanged and no callback. |
| RoundProperties.StepNotifiesOnce | watch.go:126-195 | Each message causes at most one callback, which shows the store as it is after the message. |
| RoundProperties.StepKeyed | watch.go:126-195 | Each message keeps records keyed. |
| RoundProperties.TraceKeyed | watch.go:126-195 | Over a trace, the callback log only grows, and every store shown to the callback is keyed, so `List` on it meets its keyed guarantees. |
| RoundProperties.RoundKeyed | watch.go:98-196 | The same for a whole round from entry. |
| RoundProperties.StepCountsExits | watch.go:145-150 | One known message: the exit count rises by one exactly on an exit, an exit cancels, and the round returns iff it was the n-th. It never panics. |
| RoundProperties.ExitCounting | watch.go:145-150 | Over a trace with at most n exits: every exit counted, cancelled iff any exit, returned iff n exits. |
| RoundProperties.RoundExits | watch.go:145-150 | A whole round returns exactly when every session has exited, and the first exit cancels it. |
| RoundProperties.LoopChecksContext | watch.go:87-90 | Every round Run started was preceded by a context check that found no error. |
| RoundProperties.LoopStopsOnContextError | watch.go:88-89 | Run stops with the context's error exactly when the check before that round finds one. |
| RoundProperties.RunChecksContext | watch.go:78-93 | Both properties for Run over the rounds of `run`. |
| RoundProperties.RunKeepsRunning | watch.go:86-93 | While the context has no error and every round's sessions all exit, Run runs every round and keeps running. |
| AsWritten.StepAsWritten | watch.go:126-151 | The catch-up loop as written, where the `break` leaves only the `select`. It adds or removes no kind. |
| AsWritten.RunTraceAsWritten | watch.go:126-151 | A trace as written adds or removes no kind. |
| AsWritten.AsWrittenNeverNotifies | watch.go:126-151 | As written, the round stays in catch-up until it returns and never invokes the callback. |
| AsWritten.AsWrittenRoundNeverNotifies | watch.go:98-151 | The same for a whole round from entry. |
| AsWritten.BreakCounterexample | watch.go:141-144 | With one pod watch and one listing, the intended round notifies once with the pod. The round as written never notifies. |
| AsWritten.ApplyEventAsWritten | watch.go:179-184 | As written, an event panics iff its type is unknown, or it is Added/Modified for an absent uid. Otherwise Added/Modified always stores the event's record and notifies once, whatever the stored version. |
| AsWritten.AsWrittenAgreesWhenChanged | watch.go:172-187 | The code as written agrees with the intended rule for every Deleted or unknown event, and for Added/Modified of a stored uid at another version. |
| AsWritten.NilRecordCounterexample | watch.go:180-181 | An Added event for a new pod panics as written. The intended rule stores the pod and notifies once. |
| AsWritten.SameVersionCounterexample | watch.go:181-183 | A Modified event repeating the stored pod at its stored version makes one callback as written. The intended rule changes nothing and makes none. |
| AsWritten.RunRoundAsWritten | watch.go:98-151 | A round as written ends with the old kinds plus the registered ones. |
| Round.Notify | watch.go:52-54 | The callback log gains exactly the current store at its end. Nothing else changes. |
| Round.Reset | watch.go:99-117 | The round's own state starts fresh: nothing observed, not dirty, counters zero, not cancelled, catching up. The store and the callback log are kept. |
| Round.EnterKind | watch.go:119-124 | Registering one kind gives it an empty observed set and an entry, which is the stored entry if there was one and an empty one otherwise. Dirty is set iff it was set or an entry was created. |
| Round.Enter | watch.go:99-125 | Round entry: the store's kinds become the old ones plus the registered ones, exactly the registered kinds are observed, the counters are zero, the round is not cancelled and is catching up, and no callback is made. |
| Round.MergeItem | watch.go:130-138 | Merging one item leaves its uid observed and stored at the item's version. Dirty is set iff it was set or the store changed. |
| Round.MergeBatch | watch.go:129-139 | A listing keeps the set of kinds and changes only store, observed uids and dirty. Dirty is never cleared, and the store changes only with dirty set. |
| Round.PruneKind | watch.go:154-159 | Pruning one kind keeps exactly its observed stored uids, with their records, and leaves every other kind alone. Dirty is set iff it was set or a uid was deleted. Only store and dirty change. |

## Left out

- Goroutines, channels, `select` and `context`: a round is a sequence of messages received one at a time. Which interleavings the sessions can produce is not modelled. Any order of messages is allowed.
- A message whose channel the current phase does not read (an event during catch-up, a listing in the steady state) cannot be received there. In the model it leaves the state unchanged.
- The watch sessions (`watch.run`, watch_single.go), the Kubernetes client, logging and error classification are not modelled. They are the source of the messages.
- Reflection: a resource's kind is an explicit string field, and the type of the sample passed to `List` or `AddWatch` is that string.
- Resource bodies are opaque strings. Only the kind, uid and resource version are read.
- `List` returns elements in an unspecified order (Go map iteration). Its contract does not fix the order.
- Callback effects: the callback is recorded in a ghost log with the store it was shown. Whatever the callback does is not modelled, and neither is the live aliasing of `mapStore(w.store)`.
- Store initialisation: no shown code initialises `w.store` (watch.go:49), so the model starts from an empty store. A zero `WatchingStore` would hold a nil Go map, and line 122 would then panic on assignment. This is not modelled.
- Zero watches: with no watches, no session sends anything and `run` blocks forever. In the model such a round never leaves catch-up. `RoundExits` and `RunKeepsRunning` require at least one watch.
- NoCallbackBeforeAllListings: a listing message does not say which session sent it, so the model counts listings rather than attributing one to each watch. The reading "every watch's listing has been merged" (watch.go:36-38) holds only if each session sends exactly one listing per round (watch_single.go is not part of this model). `NoCallbackInCatchUp` has the same limit. Under pre-1.22 Go, the closure at watch.go:108-112 captures the range variable `watch`, so two sessions could run the same watch. The Go version is not recorded in the files, and this is not modelled.
- Kinds of messages: every message is assumed to carry only registered kinds (`RegisteredKinds`), as the sessions of this round guarantee. An unregistered kind would dereference a nil Go map at line 132.
- MergeBatchGating and MergeIdempotent assume a listing has no repeated uid of the same kind, as the API server guarantees. They are weaker than an unconditional statement.
- ApplyEventAsWritten: line 181 compares two `*string` fields of separately decoded objects. The model takes such pointers to be never equal, and never nil, for a stored uid. The pointer values themselves are not modelled.
- Watching.WatchingStore.AddWatch takes the kind rather than a `ResourceList` whose element type names the kind.
- Run's result: a round that neither returns nor panics within its trace leaves Run still running (`Running`). Blocking forever is not distinguished from not yet returned.

## Findings

| source | as written | input that shows it | evidently intended | confidence | as-written member | corrected member |
|---|---|---|---|---|---|---|
| watch.go:141-144 | `break` inside `select` leaves only the `select`. The catch-up loop never ends except through the return at lines 148-149, so the prune, the checkpoint callback and the steady state are never reached. | One watch of kind Pod, one listing holding one pod, an empty store: no callback. | The `listCnt`-th listing ends the catch-up, then the prune and one checkpoint callback (doc comment at watch.go:36-38). | not executed | AsWritten.BreakCounterexample | RoundProperties.CatchUpEndCallback |
| watch.go:180-181 | For an Added/Modified event whose uid is not stored, `oldResource` is a nil interface, and calling its `GetMetadata` panics. | A steady-state store with an empty Pod entry, then an Added event for a new pod: nil pointer dereference. | The rule of line 135: an absent uid is stored, and the callback is invoked. | not executed | AsWritten.NilRecordCounterexample | StepProperties.UpsertEffect |
| watch.go:181 | The `ResourceVersion` fields of the client library's `ObjectMeta` are `*string`, and line 181 compares the pointers. Two separately decoded objects never share a pointer, so every Added/Modified event for a stored uid replaces the record and invokes the callback. | A steady-state store holding pod uid-1 at version "1", then a Modified event for uid-1 at version "1": one callback. | Compare the version strings, as line 135 does through `GetResourceVersion()`: no change and no callback. | not executed | AsWritten.SameVersionCounterexample | StepProperties.UpsertEffect |
