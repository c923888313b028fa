# KVOMagic in Dafny

A model of the change-propagation core of KVOMagic, a Swift library built on
Objective-C key-value observing (KVO):

- **Observer registry** (`Observing`, observing_utils.dfy).
  - `startObserving` / `stopObserving` file `KeyValueObserver` handles in
    per-holder tables keyed by key path.
    - An owned subscription is filed under (owner, observed object).
    - An anonymous one gets a fresh slot from a `UUID`.
  - A duplicate owned path is refused.
  - A handle goes from started to invalidated. Removal is deferred to the
    main queue for `.initial` handles invalidated asynchronously.
  - `observeValue` filters and decodes change dictionaries.
- **Computed properties** (`Computing`, computed.dfy).
  - `Computed` recomputes from the whole owner. It rate-limits its own
    will/did notifications with `lastUpdate` and one coalescing timer.
  - `Computed1/2/3` (one class, `SyncComputed`, with one to three typed key
    paths) recompute and notify on every upstream change.
  - `UIProperty` brackets each assignment with will/did notifications.
  - `initWrappers` turns a storage name `_name` into the key path `name`.
- **Array wrapper** (`ArrayKvo`, array_kvo.dfy).
  - `ArrayWrapper` forwards every `addObserver` made on it to each object
    element of its array.
  - When the array is replaced, it moves the registrations of every live
    context from the old elements to the new ones.
- **`$` key routing** (`ArrayOwners`, array_owner.dfy; `KeyPaths`,
  keypaths.dfy).
  - `value(forKey: "$k")` answers a cached `ArrayWrapper` for `k`.
  - For a wrapped key, `ArrayOwner` sends the `$k` notifications around
    those for `k`.

The Objective-C runtime is the `Kvo.Runtime` class (kvo_runtime.dfy). It
holds two things:
- the registrations `addObserver` made, in order, as a sequence of
  (target, observer, key path, context);
  - the observer is either a `KeyValueObserver` handle (`HandleRef`) or an
    object given to the wrapper (`ObjectRef`), so the two never collide;
- the log of will/did-change notifications.

Objects, observers, change handlers and context pointers are natural-number
identities. Time is an integer clock.

The main results are these:
- The wrapper's registrations are exactly "object elements × live
  contexts" (`MirrorCount`). Every wrapper operation changes the runtime's
  registrations by exactly the change in that product (the multiset
  equations on `SetArray`, `AddObserver`, `RemoveObserver` and
  `OwnerKeyChanged`).
- `Computed` notifications are at least `changeRate` apart for any input
  sequence (`RunSpaced`). The class methods follow the pure state machine
  `Step` / `Run`.
- The `$k` notifications bracket those of `k`, so the event log stays well
  nested (`NestedChange`).
- A `$`-prefixed lookup is cached: a repeated lookup returns the same
  wrapper and builds nothing (`ValueForKey`).
- The handle lifecycle has these properties:
  - after `invalidate`, nothing is delivered;
  - invalidating twice is the same as invalidating once;
  - `deinit` after invalidation removes nothing more;
  - an immediate invalidation undoes `start`.

## Model

| member | source | states |
|---|---|---|
| KeyPaths.DropArrayPrefix | KVOMagic/KVOMagic/PropertyWrappers.swift:90-92 | the stripped key, with the `$` marker put back in front, is the original key; it is one character shorter |
| KeyPaths.SyntheticKey | KVOMagic/KVOMagic/PropertyWrappers.swift:323 | `.arrayKVO + key` carries the marker, and stripping the marker gives `key` back |
| KeyPaths.SyntheticKeyRoundTrip | KVOMagic/KVOMagic/PropertyWrappers.swift:91-92 | a prefixed key is the marker followed by its stripped key |
| KeyPaths.SyntheticKeyInjective | KVOMagic/KVOMagic/PropertyWrappers.swift:321-335 | distinct keys have distinct synthetic keys, so `$k` notifications never mix two keys |
| KeyPaths.WrapperKeyPath | KVOMagic/KVOMagic/PropertyWrappers.swift:24 | the rewritten key path has no `_`, is no longer than the label and uses only the label's characters |
| KeyPaths.WrapperKeyPathAppend | KVOMagic/KVOMagic/PropertyWrappers.swift:24 | removing every `_` distributes over concatenation |
| KeyPaths.WrapperKeyPathKeepsPlainLabel | KVOMagic/KVOMagic/PropertyWrappers.swift:24 | a label without `_` is unchanged |
| KeyPaths.StorageLabelKeyPath | KVOMagic/KVOMagic/PropertyWrappers.swift:24 | the storage `_name` of a wrapped property `name` is registered as `name` |
| KeyPaths.WrapperKeyPathIdempotent | KVOMagic/KVOMagic/PropertyWrappers.swift:24 | rewriting twice equals rewriting once |
| Kvo.LastMatch | KVOMagic/KVOMagic/ArrayKVO.swift:69 | a position found holds a matching registration and no later one matches; nothing is found only when nothing matches |
| Kvo.RemoveLatest | KVOMagic/KVOMagic/ArrayKVO.swift:69 | with a match, exactly the registration at `LastMatch` is taken out, and it matches; the others keep their order; without a match nothing changes |
| Kvo.RemoveOne | KVOMagic/KVOMagic/ArrayKVO.swift:69 | as multisets, one `removeObserver` takes out one copy of the matching registration it finds, and nothing else; without a match the registrations are unchanged |
| Kvo.RemoveExact | KVOMagic/KVOMagic/ArrayKVO.swift:35 | removal with the context given takes exactly one copy of that registration out of the multiset |
| Kvo.Runtime.AddObserver | KVOMagic/KVOMagic/ArrayKVO.swift:62 | appends the registration; the notification log is untouched |
| Kvo.Runtime.RemoveObserver | KVOMagic/KVOMagic/ArrayKVO.swift:69 | the registrations become `RemoveLatest` of the old ones; the log is untouched |
| Kvo.Runtime.WillChangeValue | KVOMagic/KVOMagic/PropertyWrappers.swift:63 | appends one will-change event and leaves the registrations alone |
| Kvo.Runtime.DidChangeValue | KVOMagic/KVOMagic/PropertyWrappers.swift:65 | appends one did-change event and leaves the registrations alone |
| Observing.KindFromRaw | KVOMagic/KVOMagic/ObservingUtils.swift:148 | a raw kind decodes exactly when it is 1 to 4 |
| Observing.RawKind | KVOMagic/KVOMagic/ObservingUtils.swift:148 | every kind's raw value decodes back to that kind |
| Observing.DecodeChange | KVOMagic/KVOMagic/ObservingUtils.swift:145-154 | a change is produced exactly when the dictionary is present and its kind is 1 to 4; `isPrior` is true only when the flag is present and true; the kind matches the raw value |
| Observing.EncodeChange | KVOMagic/KVOMagic/ObservingUtils.swift:150-154 | decoding the dictionary built for a change gives that change back |
| Observing.Started | KVOMagic/KVOMagic/ObservingUtils.swift:158-162 | without a path or an object nothing changes; otherwise exactly one registration with no context is appended |
| Observing.Deregistered | KVOMagic/KVOMagic/ObservingUtils.swift:182-183 | the object is cleared; the handler and queue are kept; without an object the registrations are untouched |
| Observing.DeregisteredKeepsOthers | KVOMagic/KVOMagic/ObservingUtils.swift:182-183 | a handle's removal leaves every registration of any other observer, handle or object, as often as before |
| Observing.Invalidated | KVOMagic/KVOMagic/ObservingUtils.swift:168-185 | without a path nothing changes; otherwise the handler is cleared; a deferral keeps object and registrations and queues one removal; otherwise the object is cleared at once |
| Observing.RanDeferred | KVOMagic/KVOMagic/ObservingUtils.swift:177-180 | running a queued removal block shortens the queue by one and clears the object |
| Observing.Drained | KVOMagic/KVOMagic/ObservingUtils.swift:176-180 | after the main queue has run, no removal is pending |
| Observing.Delivered | KVOMagic/KVOMagic/ObservingUtils.swift:143-156 | the handler runs exactly when it is set, the object has the observed type and the change decodes, and it gets that handler and object |
| Observing.NoDeliveryAfterInvalidate | KVOMagic/KVOMagic/ObservingUtils.swift:168-170 | once a handle with a path is invalidated, deferred or not, no notification reaches its handler |
| Observing.DrainedWithoutObject | KVOMagic/KVOMagic/ObservingUtils.swift:177-180 | queued blocks on a handle with no object only empty the queue |
| Observing.DrainedPending | KVOMagic/KVOMagic/ObservingUtils.swift:176-180 | however many blocks are queued, draining removes the registration once |
| Observing.InvalidateIdempotent | KVOMagic/KVOMagic/ObservingUtils.swift:168-185 | invalidating twice ends, once the queue has run, in the same state as invalidating once |
| Observing.DeinitAfterInvalidate | KVOMagic/KVOMagic/ObservingUtils.swift:187-189 | `deinit` after a completed invalidation changes nothing |
| Observing.StartThenInvalidate | KVOMagic/KVOMagic/ObservingUtils.swift:158-185 | an immediate invalidation removes exactly the registration `start` added |
| Observing.KeyValueObserver.constructor | KVOMagic/KVOMagic/ObservingUtils.swift:133-140 | the handle holds the handler, object, path and options; no removal is queued |
| Observing.KeyValueObserver.Start | KVOMagic/KVOMagic/ObservingUtils.swift:158-162 | the new state is `Started` of the old one |
| Observing.KeyValueObserver.Invalidate | KVOMagic/KVOMagic/ObservingUtils.swift:164-166 | the new state is `Invalidated` of the old one, asynchronously |
| Observing.KeyValueObserver.InvalidateWith | KVOMagic/KVOMagic/ObservingUtils.swift:168-185 | the new state is `Invalidated` of the old one |
| Observing.KeyValueObserver.RunDeferredRemoval | KVOMagic/KVOMagic/ObservingUtils.swift:177-180 | the new state is `RanDeferred` of the old one |
| Observing.KeyValueObserver.Deinit | KVOMagic/KVOMagic/ObservingUtils.swift:187-189 | the new state is the immediate `Invalidated` of the old one |
| Observing.KeyValueObserver.ObserveValue | KVOMagic/KVOMagic/ObservingUtils.swift:143-156 | the delivery is `Delivered` of the handle's state, carrying the decoded change |
| Observing.TableKeyFor | KVOMagic/KVOMagic/ObservingUtils.swift:50-53 | an owned subscription is filed on the owner under the observed object; an anonymous one is filed on the object under a fresh token |
| Observing.ObserverRegistry.HeldPaths | KVOMagic/KVOMagic/ObservingUtils.swift:53 | the paths in the owner's table for a subject, or none |
| Observing.ObserverRegistry.StartObserving | KVOMagic/KVOMagic/ObservingUtils.swift:47-64 | a missing path changes nothing; an owned duplicate is refused and nothing changes; otherwise the table gains exactly path → new started handle and one registration is added; anonymous slots are always fresh |
| Observing.ObserverRegistry.StopObserving | KVOMagic/KVOMagic/ObservingUtils.swift:94-102 | with no owner nothing changes; otherwise only that path's entry is removed and its handle invalidated; an absent path leaves the registrations alone; every other handle is unchanged |
| Computing.Send | KVOMagic/KVOMagic/PropertyWrappers.swift:144-152 | with a key path, one notification now, and `lastUpdate` is stamped; without one, no notification and no stamp |
| Computing.Step | KVOMagic/KVOMagic/PropertyWrappers.swift:126-139 | keeps the timer due `changeRate` after `lastUpdate`; a change while a timer is pending does nothing; a change without a timer notifies at once when `changeRate` has passed since `lastUpdate` and there is a key path, and otherwise, when it has not passed, sends nothing and schedules the timer for `lastUpdate + changeRate`; a due tick clears the timer and notifies exactly when there is a key path; an emission comes no earlier than `lastUpdate + changeRate` |
| Computing.Run | KVOMagic/KVOMagic/PropertyWrappers.swift:126-139 | a run of inputs keeps the timer consistent and notifies at most once per input |
| Computing.RunAppend | KVOMagic/KVOMagic/PropertyWrappers.swift:126-139 | running one more input is one more `Step` on the final state |
| Computing.RunSpaced | KVOMagic/KVOMagic/PropertyWrappers.swift:130-152 | for any inputs, every two notifications are at least `changeRate` apart, and the first is at least `changeRate` after the last stamp |
| Computing.FirstChangeNotifies | KVOMagic/KVOMagic/PropertyWrappers.swift:130-139 | the first change a fresh wrapper with a key path sees is announced at once, because `lastUpdate` starts two windows back |
| Computing.ChangeNotDropped | KVOMagic/KVOMagic/PropertyWrappers.swift:130-139 | a change followed by a clock tick at least `changeRate` later is announced exactly once, between the two, so spacing is not bought by silence |
| Computing.BurstScenario | KVOMagic/KVOMagic/PropertyWrappers.swift:126-162 | for any start time `t`, with rate 100: changes at `t`, `t + 30`, `t + 60`, `t + 90` and `t + 150`, with the clock reaching `t + 100` and `t + 200`, notify at `t`, `t + 100` and `t + 200` |
| Computing.ChangesAt | KVOMagic/KVOMagic/PropertyWrappers.swift:126 | the `.initial` deliveries of binding are `n` changes at the same instant |
| Computing.Notifications | KVOMagic/KVOMagic/PropertyWrappers.swift:145-149 | without a key path there are no events; otherwise there are two events per emission |
| Computing.NotificationsAdd | KVOMagic/KVOMagic/PropertyWrappers.swift:147-149 | notification pairs concatenate |
| Computing.NotificationsAlternate | KVOMagic/KVOMagic/PropertyWrappers.swift:147-149 | each will-change is immediately followed by its did-change |
| Computing.FreshPathsExtend | KVOMagic/KVOMagic/ObservingUtils.swift:60-61 | subscribing one more path succeeds exactly when it is neither already held nor already subscribed |
| Computing.FreshPathsStep | KVOMagic/KVOMagic/PropertyWrappers.swift:125-126 | during binding, the next upstream path either makes the whole list clash or extends the clash-free prefix |
| Computing.FreshPathsPrefix | KVOMagic/KVOMagic/PropertyWrappers.swift:125-126 | a list free of clashes has prefixes free of clashes |
| Computing.Computed.constructor | KVOMagic/KVOMagic/PropertyWrappers.swift:156-160 | no owner, key path, cache, stamp or timer, and no notification yet |
| Computing.Computed.Read | KVOMagic/KVOMagic/PropertyWrappers.swift:166-169 | the cached value if any, otherwise the block on the current owner |
| Computing.Computed.SendNotifications | KVOMagic/KVOMagic/PropertyWrappers.swift:144-152 | follows `Send`; when it notifies, the cache is recomputed between one will/did pair |
| Computing.Computed.UpstreamChanged | KVOMagic/KVOMagic/PropertyWrappers.swift:126-139 | the timing state follows `Step` on a change; the notifications sent, cache and event log follow from it; the spacing invariant is kept |
| Computing.Computed.TimerFired | KVOMagic/KVOMagic/PropertyWrappers.swift:132-135 | the timing state follows `Step` on the due tick; the notification recomputes the cache |
| Computing.Computed.Subscribe | KVOMagic/KVOMagic/PropertyWrappers.swift:125-139 | a duplicate exactly when the registry already held the path, and then nothing changes; otherwise the path is held, exactly one handle registration on the owner for it, with no context, is appended after the old ones, and the `.initial` delivery acts as `UpstreamChanged`; only this wrapper's table for the owner may change |
| Computing.Computed.BindNext | KVOMagic/KVOMagic/PropertyWrappers.swift:125-139 | one more path subscribed keeps the binding invariant (earlier registrations and other tables untouched, one handle registration per path so far, in order), or a duplicate proves the path list clashes |
| Computing.Computed.BindAll | KVOMagic/KVOMagic/PropertyWrappers.swift:125-139 | the `for affecting in affectings` loop succeeds exactly when the paths are clash-free, and then the binding invariant holds for all of them |
| Computing.Computed.Bind | KVOMagic/KVOMagic/PropertyWrappers.swift:120-141 | a nil owner changes nothing; otherwise the outcome of `BindTo` for that owner |
| Computing.Computed.BindTo | KVOMagic/KVOMagic/PropertyWrappers.swift:111-141 | the owner is set; earlier registrations and every other table are kept; it succeeds exactly when the upstream paths clash neither with each other nor with paths already held; on success the cache is recomputed, every path is held with one new handle registration each, in order, and timing and events are those of `Run` over one change per path |
| Computing.Computed.Attach | KVOMagic/KVOMagic/PropertyWrappers.swift:24-27 | the key path is the storage name without `_`, and the outcome is that of `BindTo` for the owner |
| Computing.SyncComputed.constructor | KVOMagic/KVOMagic/PropertyWrappers.swift:210-213 | one to three key paths and no owner, key path or cache |
| Computing.SyncComputed.Read | KVOMagic/KVOMagic/PropertyWrappers.swift:205-208 | the cached value if any, otherwise the block on the key paths' current values |
| Computing.SyncComputed.UpstreamChanged | KVOMagic/KVOMagic/PropertyWrappers.swift:195-201 | with a key path: exactly one will/did pair around a recompute from the current values; without one: nothing |
| Computing.SyncComputed.Subscribe | KVOMagic/KVOMagic/PropertyWrappers.swift:195-201 | a typed path without a string form changes nothing; otherwise a duplicate exactly when the registry already held it, and then nothing changes; else it is held, one handle registration for it is appended, and the `.initial` delivery recomputes the cache inside one will/did pair when there is a key path; only this wrapper's table for the owner may change |
| Computing.SyncComputed.BindNext | KVOMagic/KVOMagic/PropertyWrappers.swift:195 | one more typed path subscribed keeps the binding invariant (earlier registrations and other tables untouched, one handle registration per named path so far, in order), or a duplicate proves the paths clash |
| Computing.SyncComputed.BindAll | KVOMagic/KVOMagic/PropertyWrappers.swift:292-294 | the one to three subscriptions in turn succeed exactly when the named paths are clash-free, and then the binding invariant holds for all of them |
| Computing.SyncComputed.Bind | KVOMagic/KVOMagic/PropertyWrappers.swift:192-194 | a nil owner changes nothing; otherwise the outcome of `BindTo` for that owner |
| Computing.SyncComputed.BindTo | KVOMagic/KVOMagic/PropertyWrappers.swift:182-202 | the owner is set; earlier registrations and every other table are kept; it succeeds exactly when the named paths are clash-free; then the cache is recomputed, every named path is held with one new handle registration each, in order, and one will/did pair is logged per subscription |
| Computing.SyncComputed.Attach | KVOMagic/KVOMagic/PropertyWrappers.swift:24-27 | the key path is the storage name without `_`, and the outcome is that of `BindTo` for the owner |
| Computing.NamedStep | KVOMagic/KVOMagic/ObservingUtils.swift:39-42 | a typed key path without a string form subscribes nothing; one with a string form clashes or extends the clash-free prefix |
| Computing.UIProperty.constructor | KVOMagic/KVOMagic/PropertyWrappers.swift:50-52 | stores the initial value, with no owner or key path |
| Computing.UIProperty.Set | KVOMagic/KVOMagic/PropertyWrappers.swift:59-66 | with owner and key path, the value is stored between exactly one will/did pair; otherwise nothing is stored or logged |
| Computing.UIProperty.Attach | KVOMagic/KVOMagic/PropertyWrappers.swift:29-31 | the key path is the storage name without `_`, and the owner is set; the value is kept |
| ArrayKvo.Objects | KVOMagic/KVOMagic/ArrayKVO.swift:61 | the object elements are no more than the elements; `ObjectsCount` and `ObjectsAppend` give their contents |
| ArrayKvo.ObjectsCount | KVOMagic/KVOMagic/ArrayKVO.swift:61 | each object occurs among the object elements exactly as often as it occurs in the array |
| ArrayKvo.ObjectsAppend | KVOMagic/KVOMagic/ArrayKVO.swift:61 | the object elements of two arrays joined are those of the first followed by those of the second |
| ArrayKvo.Regs | KVOMagic/KVOMagic/ArrayKVO.swift:61-63 | one registration per object, in order, each for the context's observer, path and pointer |
| ArrayKvo.Kept | KVOMagic/KVOMagic/ArrayKVO.swift:67 | `removeAll` never adds contexts |
| ArrayKvo.KeptMembers | KVOMagic/KVOMagic/ArrayKVO.swift:67 | a context is kept exactly when it was there and does not match the removal |
| ArrayKvo.Dropped | KVOMagic/KVOMagic/ArrayKVO.swift:74 | every dropped context matches the removal |
| ArrayKvo.Live | KVOMagic/KVOMagic/ArrayKVO.swift:28 | only contexts whose observer is alive take part in the resync |
| ArrayKvo.RegsCount | KVOMagic/KVOMagic/ArrayKVO.swift:61-63 | a context registers each object once per occurrence, and nothing else |
| ArrayKvo.MirrorCount | KVOMagic/KVOMagic/ArrayKVO.swift:26-42 | the mirror holds each registration (occurrences of its target) × (live contexts making it) times |
| ArrayKvo.DetachedNotObserved | KVOMagic/KVOMagic/ArrayKVO.swift:34-35 | when an object is not an element of the array, the wrapper holds no registration on it |
| ArrayKvo.MirrorLive | KVOMagic/KVOMagic/ArrayKVO.swift:28 | filtering out dead contexts changes no registration |
| ArrayKvo.MirrorSplit | KVOMagic/KVOMagic/ArrayKVO.swift:67 | the mirror is the sum of the kept contexts' part and the dropped contexts' part |
| ArrayKvo.Deregister | KVOMagic/KVOMagic/ArrayKVO.swift:34-36 | exactly the context's registration on each old object is removed |
| ArrayKvo.Register | KVOMagic/KVOMagic/ArrayKVO.swift:38-40 | exactly one registration per new object is appended, in order |
| ArrayKvo.MoveContext | KVOMagic/KVOMagic/ArrayKVO.swift:29-40 | one live context's registrations leave the old objects and are made on the new ones |
| ArrayKvo.DropContext | KVOMagic/KVOMagic/ArrayKVO.swift:75-77 | one dropped context's registrations leave every object |
| ArrayKvo.Resync | KVOMagic/KVOMagic/ArrayKVO.swift:28-41 | the registrations lose the live contexts × old objects and gain the live contexts × new objects |
| ArrayKvo.DeregisterAll | KVOMagic/KVOMagic/ArrayKVO.swift:74-77 | the registrations lose exactly the dropped contexts × objects |
| ArrayKvo.Released | KVOMagic/KVOMagic/ArrayKVO.swift:12 | the weak references to the released observer read nil; the rest is unchanged |
| ArrayKvo.MirrorReleased | KVOMagic/KVOMagic/ArrayKVO.swift:12 | releasing an observer only shrinks the mirror |
| ArrayKvo.ArrayWrapper.Create | KVOMagic/KVOMagic/ArrayKVO.swift:46-57 | no wrapper and no change exactly when the value is not an array; otherwise a fresh, empty wrapper holding the array and one new registration on the owner's key path |
| ArrayKvo.ArrayWrapper.SetArray | KVOMagic/KVOMagic/ArrayKVO.swift:26-43 | the array is replaced; the registrations change by exactly (new − old mirror), so "registrations ⊇ elements × live contexts" is kept |
| ArrayKvo.ArrayWrapper.AddObserver | KVOMagic/KVOMagic/ArrayKVO.swift:59-64 | one context is appended, and one registration per object element is appended in order |
| ArrayKvo.ArrayWrapper.RemoveObserver | KVOMagic/KVOMagic/ArrayKVO.swift:66-78 | the contexts become `Kept`; the registrations lose exactly the dropped contexts' mirror; this is the corrected behaviour, see Findings |
| ArrayKvo.ArrayWrapper.ReleaseObserver | KVOMagic/KVOMagic/ArrayKVO.swift:12 | the released observer's contexts go dead and the invariant holds |
| ArrayKvo.ArrayWrapper.OwnerKeyChanged | KVOMagic/KVOMagic/ArrayKVO.swift:53-56 | an array value replaces the elements, moving the registrations; anything else changes nothing |
| ArrayKvo.MatchingOnAppend | KVOMagic/KVOMagic/ArrayKVO.swift:69 | the registrations a removal could take out of two joined lists are those of each list |
| ArrayKvo.MatchingOnWithout | KVOMagic/KVOMagic/ArrayKVO.swift:69 | taking one registration out lowers the removable count on its target by one exactly when it is removable |
| ArrayKvo.RemovedAtMostOnceStep | KVOMagic/KVOMagic/ArrayKVO.swift:68-70 | one object's `removeObserver` followed by the others' keeps the at-most-once bound over all the objects |
| ArrayKvo.RemoveFromEach | KVOMagic/KVOMagic/ArrayKVO.swift:68-70 | nothing is added; only registrations of the observer and path (and context, when given) on an asked object go; no registration and no object loses more than the object's occurrences among the elements |
| ArrayKvo.RemoveObserverAsWritten | KVOMagic/KVOMagic/ArrayKVO.swift:66-78 | every matching context is forgotten, and the registrations obey the `RemoveFromEach` bound: each object element loses at most one removable registration per occurrence |
| ArrayKvo.MatchingOnRegs | KVOMagic/KVOMagic/ArrayKVO.swift:61-63 | a context's registrations on an object that the removal could take out are one per occurrence when the removal drops the context, none otherwise |
| ArrayKvo.MatchingOnMirror | KVOMagic/KVOMagic/ArrayKVO.swift:26-42 | the wrapper's removable registrations on an object are (its occurrences) × (contexts `removeAll` drops) |
| ArrayKvo.AsWrittenLeaks | KVOMagic/KVOMagic/ArrayKVO.swift:66-78 | for all inputs: when two or more contexts are dropped, every object element keeps at least one registration that should have gone (`k × (d − 1)` of them), although no matching context is left |
| ArrayKvo.RemoveObserverAsWrittenLeaks | KVOMagic/KVOMagic/ArrayKVO.swift:66-71 | two contexts of one observer and path: both are forgotten, yet one registration stays on the element |
| ArrayKvo.RemoveObserverWithContextAsWrittenLeaks | KVOMagic/KVOMagic/ArrayKVO.swift:73-78 | the same observer, path and pointer added twice: both contexts are forgotten, yet one registration stays |
| ArrayOwners.WillEvents | KVOMagic/KVOMagic/PropertyWrappers.swift:321-327 | `$k` will-change first when wrapped, then `k` |
| ArrayOwners.DidEvents | KVOMagic/KVOMagic/PropertyWrappers.swift:329-335 | `k` did-change first, then `$k` when wrapped |
| ArrayOwners.NestedChange | KVOMagic/KVOMagic/PropertyWrappers.swift:319-335 | will-events, then any well-nested events, then did-events, form a well-nested log whether or not the key is wrapped |
| ArrayOwners.ArrayOwner.ValueForKey | KVOMagic/KVOMagic/PropertyWrappers.swift:89-103 | an unprefixed key answers the plain value and changes nothing; a cached `$k` returns the same wrapper and changes nothing; a non-array `$k` gives nil and no entry; otherwise a fresh wrapper is filed under `k` |
| ArrayOwners.ArrayOwner.WillChangeValue | KVOMagic/KVOMagic/PropertyWrappers.swift:321-327 | the log grows by `WillEvents` |
| ArrayOwners.ArrayOwner.DidChangeValue | KVOMagic/KVOMagic/PropertyWrappers.swift:329-335 | the log grows by `DidEvents`; the wrapper takes the owner's new array before `$k` is announced |

## Left out

- The Objective-C runtime is only modelled as registrations and an event
  log. These are not modelled:
  - associated-object storage, beyond a map;
  - the actual dispatch of a change to every registered observer;
  - the exception Cocoa raises when removing an observer that is not
    registered (the model leaves the registrations unchanged instead).
- Registrations do not carry their `NSKeyValueObservingOptions`, and the
  `.initial` delivery of a new subscription is modelled only where binding
  depends on it (`Subscribe`, `BindNext`).
- Threads and queues:
  - `DispatchQueue.main.sync` in the `UIProperty` setter is not modelled;
    the setter runs in line.
  - The `DispatchQueue.main.async` block of `invalidate` is the
    pending-removal count, run by `RunDeferredRemoval` / `Drained`.
- `Date` and `Timer`: an integer clock replaces them. A timer is a fire date
  that fires through `TimerFired` when the clock reaches it. Floating-point
  intervals are not modelled.
- Object lifetime (ARC, `weak`, `unowned(unsafe)`):
  - A released array observer is an explicit `ReleaseObserver` call.
  - The wrapper's unowned owner never dies in the model.
  - Handles released from a table run `deinit` only when `Deinit` is
    called.
  - A `UUID` address reused after release is not modelled (anonymous
    tokens are never reused).
- Generic value conversion is not modelled: the `converter` closure,
  Optionals.swift and the `as? Value` casts of the typed overloads.
- The typed key path's `_kvcKeyPathString` is an `Option<string>`.
- The typed `startObserving(object, keyPath, owner)` overload at
  ObservingUtils.swift:66-81 is `StartObserving` with that object as
  subject. The crash of its forced unwrap when there is no string form is
  not modelled.
- The typed `stopObserving` overloads at ObservingUtils.swift:83-92 forward
  to `StopObserving`, or do nothing when there is no string form.
- `Mirror` reflection in `initWrappers` is not modelled; only its rewrite of
  each label is (`WrapperKeyPath`, the `Attach` methods).
- The superclass `value(forKey:)` is the `stored` function parameter of
  `ValueForKey`. The exception it raises for an unknown key is not
  modelled.
- `SyncComputed` is not generic over the arity, and its callers pass the
  values the key paths currently read.
- UIProperty.Set models the `assert(owner != nil)` at
  PropertyWrappers.swift:60 as a release build does: without an owner, the
  assignment is dropped.
- Observing.ObserverRegistry.StartObserving models the
  duplicate-path `assert` at ObservingUtils.swift:41 and 60 as a debug build
  does: the call is refused with `DuplicateOwnedPath` and nothing changes.
- ArrayKvo.ArrayWrapper.SetArray, AddObserver, RemoveObserver and
  OwnerKeyChanged state the registrations as a multiset, not as a sequence.
  The order in which the runtime keeps identical registrations is not
  captured.
- ArrayOwners.ArrayOwner.DidChangeValue delivers the owner's change only to
  the wrapper's own subscription. Other observers of the key receive
  nothing beyond the logged events.
- Computed values are debounced as the code schedules them. With a
  100 ms window, changes at `t`, `t + 30`, `t + 60`, `t + 90` and
  `t + 150` notify at `t`, `t + 100` and `t + 200`:
  - `lastUpdate` starts two windows in the past, so the change at `t`
    notifies at once;
  - the changes inside the window wait for a timer due at `t + 100`;
  - the change at `t + 150` waits for a timer due at `t + 200`.

  See `Computing.BurstScenario`.

## Findings

| source | as written | input that shows it | evidently intended | confidence | as-written member | corrected member |
|---|---|---|---|---|---|---|
| KVOMagic/KVOMagic/ArrayKVO.swift:66-71 | `removeAll` drops every context of (observer, keyPath), but each element is asked only once to remove one registration | observer 1 added for "p" with context pointers 1 and 2 on an array holding object 7: after `removeObserver(1, "p")` no context is left, yet object 7 still notifies observer 1, and no later array replacement removes it | one removal per element for each dropped context, so the elements keep exactly the registrations of the remaining contexts | not executed | ArrayKvo.RemoveObserverAsWrittenLeaks | ArrayKvo.ArrayWrapper.RemoveObserver |
| KVOMagic/KVOMagic/ArrayKVO.swift:73-78 | the context-taking variant drops every equal context but removes one registration per element | observer 1 added twice for "p" with pointer 3 on [object 7]: both contexts are dropped, and one of the two registrations stays | one removal per element for each dropped context | not executed | ArrayKvo.RemoveObserverWithContextAsWrittenLeaks | ArrayKvo.ArrayWrapper.RemoveObserver |
