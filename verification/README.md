# Observable: a verified model

This project models the core of the `observable` package
(`packages/observable/src`): a small library of lazily started, reference
counted observable values and the combinators built on them.

- **Chain** (`Chain.ts`) is the subscriber list. It is a circular doubly linked
  list with a sentinel `head`. `add` links a node at the tail and returns a
  disposer that unlinks it once and reports whether it did. `forEach` walks the
  list from `head`, and `isEmpty` looks at `head.prev`. The module `Chain`
  gives an abstract `List` value (attached entries in order, with handles that
  are never reused) and a class `Chain` over sequences of `prev`/`next` links,
  whose methods are proved against that value.
- **Observable** (`Observable.ts`) is `mutable(start)`. A cell's `withOb`
  calls `start()` the first time, and `start(previousState)` when the cell is
  idle (no observers). It writes the new state and runs the teardown when
  nobody observes after the call. `observe` adds an observer, and its disposer
  tears the cell down when the last observer leaves. `update` applies a
  transition and notifies every observer, in list order, only when the state
  changed (`!==`). The value-level `Cell` and its operations `Observed`,
  `Updated` and `Unobserved` carry the contracts. Class `Mutable` holds a real
  `Chain` object and is proved against them.
- **Functor** (`Functor.ts`): `fmap(f)(src)` is a derived cell. Its start
  subscribes to the source and holds `f` of the source state.
  `property(key)`/`propertyOf` are `fmap` with a field read. The invariant
  `Mirrors` says that the source's observers are exactly the forwarding
  subscriptions of the active derived cells, and that each active derived cell
  holds `f` of the source state. Observing, updating and unobserving preserve
  it.
- **Applicative** (`Applicative.ts`): `join(obr)` subscribes to every field's
  source, in key order, and keeps a record of their states. Its teardown
  disposes the subscriptions last key first. `pure(s)` is constant, and
  `lift(f)` is `fmap(f)` over a join. The invariants are `Joins` and `Lifts`.
- **Monad** (`Monad.ts`): `bind(f)(src)` subscribes to the source and to the
  target `f(src)`. When the source changes it subscribes to the new target
  before disposing the old one. Its teardown disposes the target, then the
  source. The `World` value holds the source, an arena of targets (the cells
  `f` hands out), the bound cell, the current target subscription
  (`unobserveTar`) and the log of teardowns that ran. The invariant is
  `Binds`. Class `Bind` is proved against the spec functions.

The scenario modules (`ObservableScenarios`, `FunctorScenarios`,
`ApplicativeScenarios`, `MonadScenarios`) restate the library's own test files
call by call, as lemmas about the model.

Handlers are numbers (the handle a derived cell or callback is known by). An
update returns the handlers it notifies, and the caller then dispatches them.
A start, where the source would call it, is a parameter (`started`). The caller
computes it with `StartWith`, `MapStart`, `JoinStarted`, `PureStart` or
`BindStart`, and the `StartedFor` precondition ties it to the cell.

## Model

| member | source | states |
|---|---|---|
| `Chain.Empty` | packages/observable/src/Chain.ts:7-9 | A fresh chain is well formed and empty, and its first handle is 1. |
| `Chain.Appended` | packages/observable/src/Chain.ts:11-13 | `add` appends exactly one entry at the tail, under a handle that was never attached before and is attached now; the list stays well formed. |
| `Chain.Detached` | packages/observable/src/Chain.ts:14-22 | The disposer returns true iff its entry was attached. It cuts exactly that entry out, keeping the others in order, and leaves the handle detached; when it returns false nothing changes. |
| `Chain.DetachIdempotent` | packages/observable/src/Chain.ts:15-21 | A second call of the same disposer returns false and leaves the list as the first call left it. |
| `Chain.AppendThenDetach` | packages/observable/src/Chain.ts:11-22 | Disposing the entry just added restores the previous entries and returns true. |
| `Chain.Link` | packages/observable/src/Chain.ts:12-13 | Linking a new node between `head.prev` and `head` keeps every attached node linked to its neighbours in a cycle through `head`. |
| `Chain.Unlink` | packages/observable/src/Chain.ts:16-18 | Unlinking any attached node keeps the remaining nodes linked in a cycle, in the same order without it. |
| `Chain.UnlinkEnds` | packages/observable/src/Chain.ts:16-17 | After unlinking, `head.next` and `head.prev` are the first and last remaining nodes, or `head` itself when none remains. |
| `Chain.UnlinkSelfLoops` | packages/observable/src/Chain.ts:18 | After unlinking, the unlinked node and every node detached earlier point to themselves, which is the test the disposer's guard makes. |
| `Chain.Chain.constructor` | packages/observable/src/Chain.ts:7-9 | The sentinel points to itself and the chain holds the empty list. |
| `Chain.Chain.Add` | packages/observable/src/Chain.ts:11-13 | The linked arena afterwards spells out `Appended` of the list before, with the returned handle. |
| `Chain.Chain.Dispose` | packages/observable/src/Chain.ts:14-22 | The arena afterwards spells out `Detached` of the list before, and the result is its flag; the node is a self-loop. |
| `Chain.Chain.ForEach` | packages/observable/src/Chain.ts:25-31 | The walk from `head.next` to `head` visits exactly the attached values, in insertion order. |
| `Chain.Chain.IsEmpty` | packages/observable/src/Chain.ts:33-35 | The `head.prev == head` test is true iff no entry is attached. |
| `Observable.Fresh` | packages/observable/src/Observable.ts:22-23 | A new cell has no observers and has not started yet. |
| `Observable.StartWith` | packages/observable/src/Observable.ts:15-20 | The start resumes from the previous state when it is given one and uses the default otherwise; the teardown is the one supplied. |
| `Observable.StartCall` | packages/observable/src/Observable.ts:28-32 | Start is called iff the cell is idle: with no argument the first time, and with the stored state afterwards. |
| `Observable.Begun` | packages/observable/src/Observable.ts:28-34 | After the start check the cell holds an observation: the new one when start ran, counted once, otherwise the stored one. |
| `Observable.Observed` | packages/observable/src/Observable.ts:45-50 | Observing appends the observer under a fresh handle and reports the current (possibly just started) state; the cell is active afterwards and never tears down in this call. |
| `Observable.Updated` | packages/observable/src/Observable.ts:51-58 | The new state is the transition of the current state; every observer is notified, in list order, iff it changed; an idle cell starts and tears down within the call, balancing start and teardown. |
| `Observable.Unobserved` | packages/observable/src/Observable.ts:48 | The disposer detaches its entry; the teardown runs iff this call removed an attached entry and left the list empty; a stale handle changes nothing. |
| `Observable.UnobserveTwice` | packages/observable/src/__tests__/Observable.test.ts:131-133 | Disposing the same observation twice does nothing the second time. |
| `Observable.ResumeAfterLastObserver` | packages/observable/src/Observable.ts:30-31 | After the last observer leaves, the next start receives the last stored state, and a new observer sees that state. |
| `Observable.LeafStart` | packages/observable/src/Observable.ts:28-32 | The start the leaf `mutable(startWith(d, u))` runs is the one the start check calls for. |
| `Observable.Run` | packages/observable/src/__tests__/Observable.test.ts:47-90 | Over any sequence of observe, update and unobserve calls, the cell stays consistent, and an idle cell has run its teardown as often as its start. The induction carries the `Lifecycle` invariant; the balance is its last conjunct read at an idle cell. |
| `Observable.Mutable.constructor` | packages/observable/src/Observable.ts:22-23 | A new `mutable` holds a fresh cell over a new chain. |
| `Observable.Mutable.NeedsStart` | packages/observable/src/Observable.ts:28-32 | Answers the start check of `withOb` from the chain's `isEmpty` and the stored observation. |
| `Observable.Mutable.Observe` | packages/observable/src/Observable.ts:45-50 | The object, with its chain, moves exactly as `Observed` says and returns its state and handle. |
| `Observable.Mutable.Update` | packages/observable/src/Observable.ts:51-58 | The object moves exactly as `Updated` says; it returns the new state, the handlers `forEach` reaches, and the teardown. |
| `Observable.Mutable.Unobserve` | packages/observable/src/Observable.ts:48 | The object, with its chain, moves exactly as `Unobserved` says. |
| `Observable.LeafObserve` | packages/observable/src/Observable.ts:45-50 | `observe` on a leaf `mutable(startWith(d, u))`; reports whether start ran, which is iff the cell was idle. |
| `Observable.LeafUpdate` | packages/observable/src/Observable.ts:51-58 | `update` on a leaf; reports whether start and teardown ran, which is iff the cell was idle. |
| `ObservableScenarios.CounterTestExpectations` | packages/observable/src/__tests__/Observable.test.ts:16-45 | The counter test: the states, the notified observers and the teardown counts after each call. |
| `ObservableScenarios.LazyTestExpectations` | packages/observable/src/__tests__/Observable.test.ts:47-90 | The lazy-start test: the start and teardown counts after each call. |
| `ObservableScenarios.LazyRestartExpectations` | packages/observable/src/__tests__/Observable.test.ts:92-114 | A cell whose observers have all left starts again for the next observer. |
| `ObservableScenarios.MultipleExpectations` | packages/observable/src/__tests__/Observable.test.ts:116-138 | One callback observing twice is called twice, and the teardown waits for the last observer. |
| `Functor.MapStart` | packages/observable/src/Functor.ts:8 | The derived cell's start ignores what the cell held before: it begins at `f` of the state the source reported to the new subscription, and its teardown is that subscription's disposer. |
| `Functor.PropertyReads` | packages/observable/src/Functor.ts:11 | The field read of `property(key)`: defined exactly when the record has the field, and then its value; a field written and read back gives the value written. |
| `Functor.TargetsDistinct` | packages/observable/src/Functor.ts:7 | No two source subscriptions forward to the same derived cell. |
| `Functor.ActiveSource` | packages/observable/src/Functor.ts:6-9 | Under the fmap wiring the source is observed iff some derived cell is. |
| `Functor.MapObserved` | packages/observable/src/Functor.ts:6-9 | Observing a derived cell appends the observer. An idle derived cell also subscribes once to the source (which may start); an active one leaves the source alone. Other derived cells do not change. |
| `Functor.MapObservedPlumbed` | packages/observable/src/Functor.ts:7 | Observing a derived cell keeps each source subscription forwarding to one active derived cell. |
| `Functor.MapObservedMirrors` | packages/observable/src/Functor.ts:7-8 | Observing keeps the fmap wiring, and the observer sees `f` of the current source state. |
| `Functor.MapUnobserved` | packages/observable/src/Functor.ts:7-8 | When the last observer of a derived cell leaves, its teardown disposes its source subscription; otherwise the source is untouched. |
| `Functor.MapUnobservedPlumbed` | packages/observable/src/Functor.ts:7-8 | Disposing a derived observer keeps each source subscription forwarding to one active derived cell. |
| `Functor.UnsubscribeForwards` | packages/observable/src/Functor.ts:7-8 | A derived cell going idle leaves no source subscription forwarding to it. |
| `Functor.MapUnobservedMirrors` | packages/observable/src/Functor.ts:7-8 | Disposing keeps the wiring; the source tears down iff the disposal removed a live observer and no derived cell is observed any more. |
| `Functor.Unsubscribe` | packages/observable/src/Functor.ts:7-8 | A derived cell going idle and disposing its subscription keeps the wiring. |
| `Functor.UnsubscribeFollows` | packages/observable/src/Functor.ts:7-8 | The other active derived cells stay subscribed and in step with the source. |
| `Functor.Forwarded` | packages/observable/src/Functor.ts:7 | The cascade updates exactly the notified derived cells to `f` of the new state; their observers hear what `Heard` says, in order. |
| `Functor.ForwardOne` | packages/observable/src/Observable.ts:51-58 | One derived cell's `update(() => f(src))` writes `f(src)` and tells its observers iff the value changed. |
| `Functor.ForwardedMirrors` | packages/observable/src/Functor.ts:7 | Once the source has told every subscriber its new state, the derived cells mirror it again. |
| `Functor.Propagated` | packages/observable/src/Observable.ts:51-58 | A source update followed by its cascade leaves the source's observers and the number of derived cells unchanged; `PropagatedMirrors` states the rest. |
| `Functor.PropagatedPlumbed` | packages/observable/src/Functor.ts:7 | A source update changes only the states of the derived cells, so every subscription still forwards to one active cell. |
| `Functor.PropagatedMirrors` | packages/observable/src/Functor.ts:7-8 | A source update keeps the wiring; the derived observers hear the cascade iff the source state changed; the source tears down iff no derived cell is observed. |
| `Functor.PropagatedFollows` | packages/observable/src/Functor.ts:7 | After a source update every active derived cell holds `f` of the new source state. |
| `Functor.QuietUnlessChanged` | packages/observable/src/Observable.ts:53-56 | A derived cell whose value the update leaves unchanged keeps its state and tells nobody. |
| `Functor.FmapWired` | packages/observable/src/Functor.ts:3-9 | Building `fmap(f)(src)` adds an unstarted derived cell and keeps the wiring; nothing is called. |
| `FunctorScenarios.MessageText` | packages/observable/src/__tests__/Functor.test.ts:10-24 | The mapped messages are the strings the test expects. |
| `FunctorScenarios.MessageTest` | packages/observable/src/__tests__/Functor.test.ts:7-31 | The fmap test: the states, the notified callbacks and the single source teardown, call by call. |
| `FunctorScenarios.PropertyPoints` | packages/observable/src/Functor.ts:11-16 | `property` reads the field of the record each update produces, and each update changes the record. |
| `FunctorScenarios.PropertyTest` | packages/observable/src/__tests__/Functor.test.ts:34-63 | The property test: each observer hears only its own field's changes; `obj` tears down once, at the last disposal. |
| `Applicative.RecordFields` | packages/observable/src/Applicative.ts:11-16 | With distinct keys, the reduce's record holds exactly the keys seen, each bound to the state its source reported. |
| `Applicative.JoinStart` | packages/observable/src/Applicative.ts:11-25 | The reduce as a loop over the keys in order: its sources, record and disposer handles are exactly what `JoinStarted` describes. |
| `Applicative.JoinStarted` | packages/observable/src/Applicative.ts:10-25 | The join's start returns one teardown handle per key and keeps the number of sources; `JoinStartedSubscribes` and `JoinStartedFields` state the rest. |
| `Applicative.JoinStartedSubscribes` | packages/observable/src/Applicative.ts:13-20 | The start observes each source once, by its own field's handler, and keeps that handle as the field's teardown. |
| `Applicative.JoinStartedFields` | packages/observable/src/Applicative.ts:11-16 | With distinct keys, the record the start begins at holds exactly the keys, each bound to the state its source reported. |
| `Applicative.JoinObserved` | packages/observable/src/Applicative.ts:10-25 | Observing the join appends the observer. An idle join first subscribes every field anew, ignoring its previous state; an active one leaves the sources alone. |
| `Applicative.JoinObservedJoins` | packages/observable/src/Applicative.ts:11-16 | Observing keeps the join joined, and the observer sees the record of the current source states, with exactly the keys of `obr`. |
| `Applicative.Relayed` | packages/observable/src/Applicative.ts:13-15 | The field handlers update only the record; an empty handler list changes nothing. |
| `Applicative.FieldUpdated` | packages/observable/src/Applicative.ts:13-15 | A source update reaches the joined cell's observers all at once or not at all; the joined cell's observers and teardown are unchanged. |
| `Applicative.FieldUpdatedJoins` | packages/observable/src/Applicative.ts:13-15 | A source update keeps the join joined; the record differs only in that field; its observers hear the new record iff the source state changed. |
| `Applicative.TornDown` | packages/observable/src/Applicative.ts:17-22 | The chained teardown touches only the first `n` sources; `TornDownReleases` states what it does to them. |
| `Applicative.TornDownReleases` | packages/observable/src/Applicative.ts:17-22 | When each source's only observer is its field subscription, the chained teardown disposes each once, last key first, and each runs its own teardown. |
| `Applicative.JoinUnobserved` | packages/observable/src/Observable.ts:48 | Disposing a join observer changes the joined cell as `Unobserved` does. |
| `Applicative.JoinUnobservedJoins` | packages/observable/src/Applicative.ts:17-22 | Unobserving keeps the join joined; the last departure disposes every source once, last key first, and leaves them idle; any other touches no source. |
| `Applicative.PureStart` | packages/observable/src/Applicative.ts:29-30 | `pure`'s start holds `s`, whatever the previous state, with a no-op teardown. |
| `Applicative.PureRun` | packages/observable/src/Applicative.ts:29-30 | Any run of observers entering and leaving keeps the cell consistent (the induction carries `Lifecycle`); `PureRunConstant` states what they see. |
| `Applicative.PureRunConstant` | packages/observable/src/__tests__/Applicative.test.ts:36-41 | Every observer of `pure(s)`, at any point of any run, sees `s`. |
| `Applicative.LiftWired` | packages/observable/src/Applicative.ts:32-35 | Building `lift(f)(obr)` over unobserved sources with distinct keys establishes the lift invariant. |
| `Applicative.LiftObserved` | packages/observable/src/Applicative.ts:32-35 | Observing a lifted cell makes it active; `LiftObservedLifts` states the rest. |
| `Applicative.LiftObservedLifts` | packages/observable/src/Applicative.ts:32-35 | Observing keeps the lift, and the observer sees `f` of the record of the current source states. |
| `Applicative.LiftUpdated` | packages/observable/src/Applicative.ts:32-35 | A source update under a lift keeps the number of lifted cells; `LiftUpdatedLifts` states the rest. |
| `Applicative.LiftUpdatedLifts` | packages/observable/src/Applicative.ts:32-35 | A source update keeps the lift; when the state changed, the lifted observers hear `f` of the new record; when it did not, nobody hears. |
| `Applicative.LiftUnobserved` | packages/observable/src/Applicative.ts:32-35 | Disposing a lifted observer keeps the number of sources and lifted cells; `LiftUnobservedLifts` states the rest. |
| `Applicative.LiftUnobservedLifts` | packages/observable/src/Applicative.ts:32-35 | Disposing keeps the lift; when no lifted cell is observed any more, every source is disposed once, last key first, and is idle. |
| `ApplicativeScenarios.JoinObserve` | packages/observable/src/__tests__/Applicative.test.ts:13-18 | Observing `join({x, y})` starts both sources and reports `{x: 1, y: 5}`. |
| `ApplicativeScenarios.JoinIncX` | packages/observable/src/__tests__/Applicative.test.ts:21-23 | `x.update(inc)` tells the join's observer `{x: 2, y: 5}`. |
| `ApplicativeScenarios.JoinDecY` | packages/observable/src/__tests__/Applicative.test.ts:25-27 | `y.update(dec)` tells the join's observer `{x: 2, y: 4}`. |
| `ApplicativeScenarios.JoinLeaveReleases` | packages/observable/src/__tests__/Applicative.test.ts:29-32 | Disposing the join runs `y`'s teardown, then `x`'s, once each. |
| `ApplicativeScenarios.JoinLeave` | packages/observable/src/__tests__/Applicative.test.ts:29-32 | After disposal both sources and the join are idle. |
| `ApplicativeScenarios.PureTest` | packages/observable/src/__tests__/Applicative.test.ts:36-41 | Observing `pure(42)` reports 42. |
| `ApplicativeScenarios.LiftObserve` | packages/observable/src/__tests__/Applicative.test.ts:51-58 | Observing `lift(prodXY)` reports 5. |
| `ApplicativeScenarios.LiftIncXStep` | packages/observable/src/__tests__/Applicative.test.ts:61-63 | `x.update(inc)` tells the lifted observer 10. |
| `ApplicativeScenarios.LiftDecYStep` | packages/observable/src/__tests__/Applicative.test.ts:65-67 | `y.update(dec)` tells the lifted observer 8. |
| `ApplicativeScenarios.LiftLeaveStep` | packages/observable/src/__tests__/Applicative.test.ts:70-72 | Disposing the lifted observer tears down `y`, then `x`, and leaves everything idle. |
| `Monad.UnobserveTar` | packages/observable/src/Monad.ts:10 | Disposing the remembered target subscription touches only the targets, and the initial `noop` changes nothing. |
| `Monad.Rebound` | packages/observable/src/Monad.ts:8-13 | `setSrc(s)` leaves the bind subscribed to target `f(s)` and reports its state; the source and the bound cell are untouched. |
| `Monad.ReboundFirst` | packages/observable/src/Monad.ts:7-13 | The first `setSrc` of a start subscribes to an idle target and disposes nothing. |
| `Monad.ReboundSame` | packages/observable/src/Monad.ts:9-11 | Rebinding to the current target subscribes again before dropping the old subscription, so the target keeps running. |
| `Monad.ReboundOther` | packages/observable/src/Monad.ts:9-11 | Rebinding to another target subscribes to it, then tears the old one down. |
| `Monad.BindStart` | packages/observable/src/Monad.ts:6-22 | The bound cell's start observes the source and binds its state; the bound cell itself is untouched. |
| `Monad.BindObserved` | packages/observable/src/Monad.ts:6-22 | Observing the bound cell appends the observer and reports its state; an active bind changes nothing else. |
| `Monad.BindObservedBinds` | packages/observable/src/Monad.ts:14-15 | Observing keeps the bind bound; the observer sees the state of target `f(source state)`; starting tears nothing down. |
| `Monad.TargetUpdated` | packages/observable/src/Monad.ts:9 | A target update never touches the source or the remembered subscription. |
| `Monad.TargetUpdatedBinds` | packages/observable/src/Monad.ts:9 | A target update keeps the bind bound. On the current target the bound cell takes the new state, and its observers hear it iff it changed. Any other target is idle and reaches nobody. |
| `Monad.Rebind` | packages/observable/src/Monad.ts:14 | A rebind keeps the number of targets; `RebindBinds`, `RebindTold` and `RebindLog` state the rest. |
| `Monad.RebindBinds` | packages/observable/src/Monad.ts:14 | A rebind to state `s` keeps the bind bound, to target `f(s)`. |
| `Monad.RebindTold` | packages/observable/src/Monad.ts:14 | The bound observers hear the new target's state iff it differs from the bound state. |
| `Monad.RebindLog` | packages/observable/src/Monad.ts:9-11 | The old target is torn down iff it is not the new one, and only after the new subscription. |
| `Monad.SourceUpdated` | packages/observable/src/Monad.ts:14 | A source update keeps the number of targets; `SourceRebinds` and `SourceUpdatedBinds` state the rest. |
| `Monad.SourceRebinds` | packages/observable/src/Monad.ts:8-14 | When an observed bind's source changes, the bind moves to `f` of the new state and its observers hear that target's state iff it differs. |
| `Monad.SourceUpdatedBinds` | packages/observable/src/Monad.ts:8-14 | A source update keeps the bind bound; the old target is disposed once, after the new one is subscribed; an unchanged source reaches nobody. |
| `Monad.BindUnobserved` | packages/observable/src/Monad.ts:18-21 | Unobserving keeps the number of targets; `BindUnobservedBinds` and `BindTornDown` state the rest. |
| `Monad.BindUnobservedBinds` | packages/observable/src/Monad.ts:18-21 | Unobserving keeps the bind bound. The last departure tears down the target, then the source, once each. Any other departure changes only the bound observers. |
| `Monad.BindTornDown` | packages/observable/src/Monad.ts:18-21 | After the last departure nothing is observed, and the log ends with the target's and then the source's teardown. |
| `Monad.Bind.constructor` | packages/observable/src/Monad.ts:3-6 | `bind(f)(obSrc)` starts nothing and observes nothing. |
| `Monad.Bind.UnobserveTarget` | packages/observable/src/Monad.ts:10 | The object moves exactly as `UnobserveTar` says. |
| `Monad.Bind.SetSrc` | packages/observable/src/Monad.ts:8-13 | The object moves exactly as `Rebound` says and returns the target's state. |
| `Monad.Bind.Start` | packages/observable/src/Monad.ts:6-22 | The object moves exactly as `BindStart` says. |
| `Monad.Bind.Observe` | packages/observable/src/Monad.ts:14-15 | The object moves as `BindObserved` says; the observer sees the state of target `f(source state)`; the bind stays bound and nothing is torn down. |
| `Monad.Bind.UpdateTarget` | packages/observable/src/Monad.ts:9 | The object moves as `TargetUpdated` says and stays bound. |
| `Monad.Bind.RebindBound` | packages/observable/src/Monad.ts:14 | The object moves exactly as `Rebind` says. |
| `Monad.Bind.UpdateSource` | packages/observable/src/Monad.ts:8-14 | The object moves as `SourceUpdated` says and stays bound. |
| `Monad.Bind.Unobserve` | packages/observable/src/Monad.ts:18-21 | The object moves as `BindUnobserved` says and stays bound. |
| `MonadScenarios.Observe` | packages/observable/src/__tests__/Monad.test.ts:16-18 | Observing the bind reports 10. |
| `MonadScenarios.TargetInc` | packages/observable/src/__tests__/Monad.test.ts:20-23 | `mutM.update(inc)` tells the observer 11. |
| `MonadScenarios.SourceInc` | packages/observable/src/__tests__/Monad.test.ts:25-29 | `mutN.update(inc)` rebinds, tells the observer 20 and tears the old target down once. |
| `MonadScenarios.TargetAdd` | packages/observable/src/__tests__/Monad.test.ts:31-34 | `mutM.update(add(10))` on the new target tells the observer 30. |
| `MonadScenarios.SourceIncSilent` | packages/observable/src/__tests__/Monad.test.ts:36-38 | A rebind to a target that also holds 30 tells nobody and tears the old target down. |
| `MonadScenarios.Unobserve` | packages/observable/src/__tests__/Monad.test.ts:40-43 | Disposing the bind tears the current target down, then the source. |

## Left out

- I/O, exceptions, `null`/`undefined` and JavaScript's dynamic typing are not modelled. The source has no I/O; its callbacks are assumed not to throw.
- Equality: `update` compares states with `!==`. The model compares values structurally. A record rebuilt with equal fields (the `{...rec, [key]: value}` of `join`, the new objects of the property test) therefore counts as unchanged in the model whenever its fields are equal. The source would see a fresh object and notify. In every modelled scenario the changed record also differs in a field, so the two agree there.
- Chain.Chain.ForEach: its callback cannot touch the list. The source reads `iter.next` after the callback. A callback that disposed the node being visited would leave `iter` on a self-loop and call itself forever. A callback that added a node would see it in the same walk. No handler in this model does either.
- Re-entrancy: `update` returns the handlers it notifies, and the caller dispatches them after the cell has written its new state. In the source they run inside `forEach`, before `obn.state = newState`. The two agree because no handler in the modelled wirings updates the cell that notifies it. A handler that did would see the state before the write.
- Observers are handles, not closures. A combinator's handler is modelled by the step it performs (`Forwarded`, `Relayed`, `TargetUpdated`, `SourceUpdated`), and a test callback by its handle.
- `observable(cb)` (Observable.ts:62-65) is not a separate member. Each combinator's start (`MapStart`, `JoinStarted`, `PureStart`, `BindStart`) is what `cb(mut.update)` returns, and hiding `update` is reflected by modelling no outside update of derived cells.
- Starts are parameters: an operation takes what `start` returned (`started`), and the `StartedFor` precondition ties it to the start check. `Observable.LeafStart` and the combinators' start functions supply it.
- Functor: each wiring has one source and its derived cells, and a source is observed only through them. A source shared with unrelated observers, or cells nested deeper than one level except through `lift` and `bind`, are not modelled.
- Functor.Property: a missing field reads as `None` rather than `undefined`. The function carries no contract of its own; `PropertyReads` states what it reads.
- `propertyOf(ob)(key)` (Functor.ts:13-16) is `property(key)(ob)`: the same derived cell, reading with `Property(key)` over the same source, so it has no member of its own.
- Applicative: the keys are a sequence of distinct keys, in `Object.keys` order. `join` over a record with no keys is allowed but not otherwise treated.
- Applicative: `Tied` assumes each source is a distinct cell whose only observer, while the join is observed, is its own field's subscription. Three cases are not modelled. The first is one cell under two keys (`join({a: ob, b: ob})`): the chain holds two subscriptions, an update relays twice, and the first relay yields a record with only one of the two fields updated. The second is a source that other code also observes: the join's teardown then leaves it running. The third is a source shared by two joins.
- Applicative.JoinStarted: its own contract is a size fact; `JoinStartedSubscribes` and `JoinStartedFields` state the rest.
- Applicative.PureRun: `pure` hands out no `update`, so the run has only observers entering and leaving.
- Monad: `Wired` and `Current` assume that, while the bind is observed, the source's only observer is the bind's subscription, and the current target's only observer is the subscription `unobserveTar` disposes. Two cases are not modelled. The first is a source or target that other code also observes: a rebind or the bind's teardown then leaves it running, instead of tearing it down. The second is `bind(_ => obSrc)`, where the source is its own target, so one update both rebinds and relays.
- Monad: `f` returns an index into an arena of target cells given in advance, instead of a new observable per call. The test's "a fresh `mutable` per call" is modelled by giving each source state its own target.
- Functor.Propagated: its own contract states only that the source's observers and the number of cells are kept; `PropagatedMirrors`, `PropagatedFollows` and `QuietUnlessChanged` state the rest.
- Applicative.TornDown: its own contract is a frame; `TornDownReleases` states what it disposes, in which order.
- Applicative.LiftObserved: its own contract says only that the cell becomes active; `LiftObservedLifts` states the rest.
- Applicative.LiftUpdated: its own contract is a length fact; `LiftUpdatedLifts` states the rest.
- Applicative.LiftUnobserved: its own contract is a length fact; `LiftUnobservedLifts` states the rest.
- Monad.Rebind: its own contract is a length fact; `RebindBinds`, `RebindTold` and `RebindLog` state the rest.
- Monad.SourceUpdated: its own contract is a length fact; `SourceRebinds` and `SourceUpdatedBinds` state the rest.
- Monad.TargetUpdated: its own contract is a frame; `TargetUpdatedBinds` states the rest.
- Monad.BindUnobserved: its own contract is a length fact; `BindUnobservedBinds` and `BindTornDown` state the rest.
- The combined tests of `Applicative.test.ts` and `Monad.test.ts` are stated as one lemma per test call, each starting from the state the previous one ends in, rather than as a single lemma.
- `index.ts` (re-exports) and `__tests__/index.test.ts` are not part of this model.
