/** ObservingUtils.swift: `KeyValueObserver`, the handle that owns one
    subscription, and the registry behind `startObserving` /
    `stopObserving`, which files handles in per-holder tables (the
    associated objects of the original) keyed by key path. */
module Observing {
  import opened Basics
  import opened Kvo

  /** `NSKeyValueObservingOptions` members. */
  datatype ObservingOption = New | Old | Initial | Prior

  /** `NSKeyValueChange`, whose raw values are 1 to 4. */
  datatype ChangeKind = Setting | Insertion | Removal | Replacement

  /** `NSKeyValueChange(rawValue:)`: a raw kind outside 1..4 is not a kind. */
  function KindFromRaw(raw: nat): (kind: Option<ChangeKind>)
    ensures kind.Some? <==> 1 <= raw <= 4
  {
    if raw == 1 then Some(Setting)
    else if raw == 2 then Some(Insertion)
    else if raw == 3 then Some(Removal)
    else if raw == 4 then Some(Replacement)
    else None
  }

  /** `kind.rawValue` */
  function RawKind(kind: ChangeKind): (raw: nat)
    ensures KindFromRaw(raw) == Some(kind)
  {
    match kind
    case Setting => 1
    case Insertion => 2
    case Removal => 3
    case Replacement => 4
  }

  /** The change dictionary handed to `observeValue`. Each entry is `None`
      when it is missing or is not of the type the observer reads it as
      (`kindKey` as `UInt`, `notificationIsPriorKey` as `Bool`). */
  datatype RawChange = RawChange(
    kind: Option<nat>,
    newValue: Option<Value>,
    oldValue: Option<Value>,
    indexes: Option<set<nat>>,
    isPrior: Option<bool>)

  /** `KeyValueObservedChange` */
  datatype ObservedChange = ObservedChange(
    kind: ChangeKind,
    newValue: Option<Value>,
    oldValue: Option<Value>,
    indexes: Option<set<nat>>,
    isPrior: bool)

  /** The filtering and decoding at the top of `observeValue`: a missing
      dictionary or a missing or unknown kind drops the notification, and a
      missing prior flag reads as `false`. */
  function DecodeChange(raw: Option<RawChange>): (change: Option<ObservedChange>)
    ensures change.Some? <==> raw.Some? && raw.value.kind.Some? && 1 <= raw.value.kind.value <= 4
    ensures change.Some? ==> change.value.isPrior == (raw.value.isPrior == Some(true))
    ensures change.Some? ==> RawKind(change.value.kind) == raw.value.kind.value
  {
    if raw.None? || raw.value.kind.None? then None
    else
      match KindFromRaw(raw.value.kind.value)
      case None => None
      case Some(kind) =>
        Some(ObservedChange(kind, raw.value.newValue, raw.value.oldValue, raw.value.indexes,
                            raw.value.isPrior.GetOr(false)))
  }

  /** The dictionary the runtime builds for a change. */
  function EncodeChange(change: ObservedChange): (raw: RawChange)
    ensures DecodeChange(Some(raw)) == Some(change)
  {
    RawChange(Some(RawKind(change.kind)), change.newValue, change.oldValue, change.indexes, Some(change.isPrior))
  }

  /** Identity of the closure passed as `changeHandler`. */
  type HandlerId = nat

  /** One call of a change handler: which closure, on which object, with
      which change. */
  datatype Delivery = Delivery(handler: HandlerId, subject: ObjectId, change: ObservedChange)

  /** The mutable part of a `KeyValueObserver` together with the runtime's
      registrations: `changeHandler`, the unowned `object` (here `observed`), and the number
      of deferred removals queued on the main queue and not yet run. */
  datatype ObserverState = ObserverState(
    changeHandler: Option<HandlerId>,
    observed: Option<ObjectId>,
    pendingRemovals: nat,
    registrations: seq<Registration>)

  /** `start()`: with a path, register on the observed object (if any). */
  function Started(id: nat, path: Option<string>, s: ObserverState): (t: ObserverState)
    ensures path.None? || s.observed.None? ==> t == s
    ensures path.Some? && s.observed.Some? ==>
      t == s.(registrations := s.registrations + [Registration(s.observed.value, HandleRef(id), path.value, None)])
  {
    if path.None? then s
    else match s.observed
      case None => s
      case Some(subject) => s.(registrations := s.registrations + [Registration(subject, HandleRef(id), path.value, None)])
  }

  /** `object?.removeObserver(self, forKeyPath:); object = nil` */
  function Deregistered(id: nat, path: string, s: ObserverState): (t: ObserverState)
    ensures t.observed.None? && t.changeHandler == s.changeHandler && t.pendingRemovals == s.pendingRemovals
    ensures s.observed.None? ==> t.registrations == s.registrations
  {
    match s.observed
    case None => s
    case Some(subject) =>
      s.(observed := None, registrations := RemoveLatest(s.registrations, subject, HandleRef(id), path, AnyContext))
  }

  /** Whether `invalidate(async:)` defers the removal to the main queue. */
  predicate Defers(options: set<ObservingOption>, async: bool) {
    async && Initial in options
  }

  /** `invalidate(async:)`: without a path nothing happens; otherwise the
      handler is dropped at once and the removal either runs now or is
      queued. */
  function Invalidated(id: nat, path: Option<string>, options: set<ObservingOption>, async: bool, s: ObserverState): (t: ObserverState)
    ensures path.None? ==> t == s
    ensures path.Some? ==> t.changeHandler.None?
    ensures path.Some? && Defers(options, async) ==>
      t.observed == s.observed && t.registrations == s.registrations && t.pendingRemovals == s.pendingRemovals + 1
    ensures path.Some? && !Defers(options, async) ==>
      t.observed.None? && t.pendingRemovals == s.pendingRemovals
  {
    if path.None? then s
    else
      var cleared := s.(changeHandler := None);
      if Defers(options, async) then cleared.(pendingRemovals := s.pendingRemovals + 1)
      else Deregistered(id, path.value, cleared)
  }

  /** The main queue runs one queued removal block. */
  function RanDeferred(id: nat, path: string, s: ObserverState): (t: ObserverState)
    requires s.pendingRemovals > 0
    ensures t.pendingRemovals == s.pendingRemovals - 1 && t.observed.None?
  {
    Deregistered(id, path, s).(pendingRemovals := s.pendingRemovals - 1)
  }

  /** The state once the main queue has run every queued removal block. */
  function Drained(id: nat, path: string, s: ObserverState): (t: ObserverState)
    ensures t.pendingRemovals == 0
    decreases s.pendingRemovals
  {
    if s.pendingRemovals == 0 then s else Drained(id, path, RanDeferred(id, path, s))
  }

  /** `observeValue` on a handle: the handler is called only if it is still
      set, the object is of the observed type and the change decodes. */
  function Delivered(s: ObserverState, observed: Option<ObjectId>, raw: Option<RawChange>): (d: Option<Delivery>)
    ensures d.Some? <==> s.changeHandler.Some? && observed.Some? && DecodeChange(raw).Some?
    ensures d.Some? ==> d.value.handler == s.changeHandler.value && d.value.subject == observed.value
  {
    if s.changeHandler.None? || observed.None? then None
    else match DecodeChange(raw)
      case None => None
      case Some(change) => Some(Delivery(s.changeHandler.value, observed.value, change))
  }

  /** Once a handle with a path is invalidated, no notification reaches its
      handler, deferred removal or not. */
  lemma NoDeliveryAfterInvalidate(id: nat, path: string, options: set<ObservingOption>, async: bool,
                                  s: ObserverState, observed: Option<ObjectId>, raw: Option<RawChange>)
    ensures Delivered(Invalidated(id, Some(path), options, async, s), observed, raw).None?
  {
  }

  /** Draining a queue whose handle no longer has an object only empties
      the queue. */
  lemma {:induction false} DrainedWithoutObject(id: nat, path: string, s: ObserverState)
    requires s.observed.None?
    ensures Drained(id, path, s) == s.(pendingRemovals := 0)
    decreases s.pendingRemovals
  {
    if s.pendingRemovals > 0 {
      DrainedWithoutObject(id, path, RanDeferred(id, path, s));
    }
  }

  /** With queued removals, draining removes the registration once and
      leaves no observed object behind. */
  lemma DrainedPending(id: nat, path: string, s: ObserverState)
    requires s.pendingRemovals > 0
    ensures Drained(id, path, s) == Deregistered(id, path, s).(pendingRemovals := 0)
  {
    DrainedWithoutObject(id, path, RanDeferred(id, path, s));
  }

  /** Invalidating twice has the effect of invalidating once: immediately
      for an immediate removal, and once the main queue has run the queued
      blocks for a deferred one. */
  lemma InvalidateIdempotent(id: nat, path: string, options: set<ObservingOption>, async: bool, s: ObserverState)
    ensures var once := Invalidated(id, Some(path), options, async, s);
            var twice := Invalidated(id, Some(path), options, async, once);
            Drained(id, path, twice) == Drained(id, path, once)
  {
    var once := Invalidated(id, Some(path), options, async, s);
    var twice := Invalidated(id, Some(path), options, async, once);
    if Defers(options, async) {
      DrainedPending(id, path, once);
      DrainedPending(id, path, twice);
    } else {
      assert twice == once;
    }
  }

  /** `deinit` (an immediate invalidation) after a completed invalidation
      changes nothing: no second removal. */
  lemma DeinitAfterInvalidate(id: nat, path: string, options: set<ObservingOption>, async: bool, s: ObserverState)
    ensures var done := Drained(id, path, Invalidated(id, Some(path), options, async, s));
            Invalidated(id, Some(path), options, false, done) == done
  {
    var once := Invalidated(id, Some(path), options, async, s);
    if Defers(options, async) {
      DrainedPending(id, path, once);
    } else {
      DrainedWithoutObject(id, path, once);
    }
  }

  /** An immediate invalidation undoes `start()`: the registration added by
      `start()` is the one removed. */
  lemma StartThenInvalidate(id: nat, path: string, options: set<ObservingOption>, s: ObserverState)
    requires s.observed.Some?
    ensures Invalidated(id, Some(path), options, false, Started(id, Some(path), s)).registrations == s.registrations
  {
    var r := Registration(s.observed.value, HandleRef(id), path, None);
    var regs := s.registrations + [r];
    assert regs[..|regs| - 1] == s.registrations;
    assert Matches(regs[|regs| - 1], s.observed.value, HandleRef(id), path, AnyContext);
  }

  /** Removing a handle's registration never touches a registration made
      for any other observer, be it another handle or an object. */
  lemma DeregisteredKeepsOthers(id: nat, path: string, s: ObserverState, r: Registration)
    requires r.observer != HandleRef(id)
    ensures multiset(Deregistered(id, path, s).registrations)[r] == multiset(s.registrations)[r]
  {
    if s.observed.Some? {
      RemoveOne(s.registrations, s.observed.value, HandleRef(id), path, AnyContext);
    }
  }

  /** `KeyValueObserver`: one subscription to `path` of `object`, made by
      the handle the registry numbered `id`. */
  class KeyValueObserver {
    const id: nat
    const path: Option<string>
    const options: set<ObservingOption>
    const rt: Runtime
    var changeHandler: Option<HandlerId>
    var observed: Option<ObjectId>
    var pendingRemovals: nat

    function State(): ObserverState
      reads this, rt
    {
      ObserverState(changeHandler, observed, pendingRemovals, rt.registrations)
    }

    /** `init(object:_:options:changeHandler:)` */
    constructor (id: nat, subject: ObjectId, path: Option<string>, options: set<ObservingOption>,
                 handler: HandlerId, rt: Runtime)
      ensures this.id == id && this.path == path && this.options == options && this.rt == rt
      ensures changeHandler == Some(handler) && observed == Some(subject) && pendingRemovals == 0
    {
      this.id := id;
      this.path := path;
      this.options := options;
      this.rt := rt;
      changeHandler := Some(handler);
      observed := Some(subject);
      pendingRemovals := 0;
    }

    /** `start()` */
    method Start()
      modifies rt
      ensures State() == Started(id, path, old(State()))
      ensures rt.events == old(rt.events)
    {
      if path.Some? && observed.Some? {
        rt.AddObserver(observed.value, HandleRef(id), path.value, None);
      }
    }

    /** `invalidate()`: the public entry point defers when the handle was
        started with `.initial`. */
    method Invalidate()
      modifies this, rt
      ensures State() == Invalidated(id, path, options, true, old(State()))
      ensures rt.events == old(rt.events)
    {
      InvalidateWith(true);
    }

    /** `invalidate(async:)` */
    method InvalidateWith(async: bool)
      modifies this, rt
      ensures State() == Invalidated(id, path, options, async, old(State()))
      ensures rt.events == old(rt.events)
    {
      if path.None? {
        return;
      }
      changeHandler := None;
      if async && Initial in options {
        pendingRemovals := pendingRemovals + 1;
      } else if observed.Some? {
        rt.RemoveObserver(observed.value, HandleRef(id), path.value, AnyContext);
        observed := None;
      } else {
        observed := None;
      }
    }

    /** The block `invalidate(async: true)` queued, run by the main queue. */
    method RunDeferredRemoval()
      requires path.Some? && pendingRemovals > 0
      modifies this, rt
      ensures State() == RanDeferred(id, path.value, old(State()))
      ensures rt.events == old(rt.events)
    {
      if observed.Some? {
        rt.RemoveObserver(observed.value, HandleRef(id), path.value, AnyContext);
      }
      observed := None;
      pendingRemovals := pendingRemovals - 1;
    }

    /** `deinit`: always an immediate invalidation. */
    method Deinit()
      modifies this, rt
      ensures State() == Invalidated(id, path, options, false, old(State()))
      ensures rt.events == old(rt.events)
    {
      InvalidateWith(false);
    }

    /** `observeValue(forKeyPath:of:change:context:)`: which handler call, if
        any, a notification turns into. */
    method ObserveValue(subject: Option<ObjectId>, raw: Option<RawChange>) returns (d: Option<Delivery>)
      ensures d == Delivered(State(), subject, raw)
      ensures d.Some? ==> d.value.change == DecodeChange(raw).value
    {
      if subject.None? || raw.None? || raw.value.kind.None? {
        return None;
      }
      var kind := KindFromRaw(raw.value.kind.value);
      if kind.None? {
        return None;
      }
      var isPrior := if raw.value.isPrior.Some? then raw.value.isPrior.value else false;
      var change := ObservedChange(kind.value, raw.value.newValue, raw.value.oldValue, raw.value.indexes, isPrior);
      if changeHandler.None? {
        return None;
      }
      d := Some(Delivery(changeHandler.value, subject.value, change));
    }
  }

  /** Where a subscription's table hangs: on the owner, keyed by the observed
      object's address, or, without an owner, on the observed object, keyed
      by the address of a fresh `UUID`. */
  datatype Slot = SubjectSlot(subject: ObjectId) | TokenSlot(token: nat)
  datatype TableKey = TableKey(holder: ObjectId, slot: Slot)

  /** `objc_getAssociatedObject(owner ?? self, contextPtr)` for a call of
      `startObserving` on `subject`. */
  function TableKeyFor(subject: ObjectId, owner: Option<ObjectId>, token: nat): (key: TableKey)
    ensures owner.Some? ==> key == TableKey(owner.value, SubjectSlot(subject))
    ensures owner.None? ==> key == TableKey(subject, TokenSlot(token))
  {
    match owner
    case Some(o) => TableKey(o, SubjectSlot(subject))
    case None => TableKey(subject, TokenSlot(token))
  }

  /** Outcome of `startObserving`. */
  datatype Subscription =
    | Subscribed(observer: KeyValueObserver)
    | NoKeyPath            // the key path has no string form: nothing registered
    | DuplicateOwnedPath   // the `assert` fails: the owner already observes this path

  /** The tables of `KeyValueObserver`s that `startObserving` files away. */
  class ObserverRegistry {
    const rt: Runtime
    var tables: map<TableKey, map<string, KeyValueObserver>>
    var nextToken: nat
    var nextObserverId: nat

    ghost predicate Valid()
      reads this
    {
      && (forall key | key in tables && key.slot.TokenSlot? :: key.slot.token < nextToken)
      && (forall key, path | key in tables && path in tables[key] :: tables[key][path].rt == rt)
    }

    function Handles(): set<KeyValueObserver>
      reads this
    {
      set key, path | key in tables && path in tables[key] :: tables[key][path]
    }

    /** The key paths `holder` observes on `subject` under its name. */
    function HeldPaths(holder: ObjectId, subject: ObjectId): (paths: set<string>)
      reads this
      ensures TableKey(holder, SubjectSlot(subject)) in tables ==> paths == tables[TableKey(holder, SubjectSlot(subject))].Keys
      ensures TableKey(holder, SubjectSlot(subject)) !in tables ==> paths == {}
    {
      var key := TableKey(holder, SubjectSlot(subject));
      if key in tables then tables[key].Keys else {}
    }

    /** The handle `stopObserving` would stop: the owner's entry for
        `keyPath` in its table for `subject`. */
    function OwnedHandle(subject: ObjectId, keyPath: string, owner: Option<ObjectId>): Option<KeyValueObserver>
      reads this
    {
      if owner.None? then None
      else
        var key := TableKey(owner.value, SubjectSlot(subject));
        if key in tables && keyPath in tables[key] then Some(tables[key][keyPath]) else None
    }

    constructor (rt: Runtime)
      ensures Valid() && this.rt == rt && tables == map[]
    {
      this.rt := rt;
      tables := map[];
      nextToken := 0;
      nextObserverId := 0;
    }

    /** `startObserving(_:_:options:changeHandler:)` on `subject`, both the
        string and the typed key-path overload (whose key path may have no
        string form). */
    method StartObserving(subject: ObjectId, keyPath: Option<string>, owner: Option<ObjectId>,
                          options: set<ObservingOption>, handler: HandlerId) returns (s: Subscription)
      requires Valid()
      modifies this, rt
      ensures Valid()
      ensures nextToken == old(nextToken) + 1
      ensures rt.events == old(rt.events)
      ensures owner.None? ==> TableKeyFor(subject, owner, old(nextToken)) !in old(tables)
      ensures keyPath.None? ==>
        s == NoKeyPath && tables == old(tables) && rt.registrations == old(rt.registrations)
      ensures keyPath.Some? ==>
        var key := TableKeyFor(subject, owner, old(nextToken));
        var table: map<string, KeyValueObserver> := if key in old(tables) then old(tables)[key] else map[];
        if owner.Some? && keyPath.value in table then
          s == DuplicateOwnedPath && tables == old(tables) && rt.registrations == old(rt.registrations)
        else
          && s.Subscribed?
          && fresh(s.observer)
          && s.observer.path == keyPath && s.observer.options == options && s.observer.rt == rt
          && s.observer.changeHandler == Some(handler) && s.observer.observed == Some(subject)
          && s.observer.pendingRemovals == 0
          && tables == old(tables)[key := table[keyPath.value := s.observer]]
          && rt.registrations == old(rt.registrations) + [Registration(subject, HandleRef(s.observer.id), keyPath.value, None)]
    {
      var token := nextToken;
      nextToken := nextToken + 1;
      var key := TableKeyFor(subject, owner, token);
      var observer := new KeyValueObserver(nextObserverId, subject, keyPath, options, handler, rt);
      nextObserverId := nextObserverId + 1;
      var table: map<string, KeyValueObserver> := if key in tables then tables[key] else map[];
      if keyPath.None? {
        return NoKeyPath;
      }
      if owner.Some? && keyPath.value in table {
        return DuplicateOwnedPath;
      }
      tables := tables[key := table[keyPath.value := observer]];
      observer.Start();
      s := Subscribed(observer);
    }

    /** `stopObserving(_:_:)` (string key path) called on `subject`: only an
        owned subscription can be stopped; its handle is invalidated and its
        entry removed. */
    method StopObserving(subject: ObjectId, keyPath: string, owner: Option<ObjectId>)
      requires Valid()
      modifies this, rt, Handles()
      ensures Valid()
      ensures nextToken == old(nextToken)
      ensures rt.events == old(rt.events)
      ensures owner.None? ==> tables == old(tables) && rt.registrations == old(rt.registrations)
      ensures owner.Some? ==>
        var key := TableKey(owner.value, SubjectSlot(subject));
        && (key in old(tables) ==> tables == old(tables)[key := old(tables)[key] - {keyPath}])
        && (key !in old(tables) ==> tables == old(tables))
        && (key in old(tables) && keyPath in old(tables)[key] ==>
              var h := old(tables)[key][keyPath];
              h.State() == Invalidated(h.id, h.path, h.options, true, old(h.State())))
        && (key !in old(tables) || keyPath !in old(tables)[key] ==> rt.registrations == old(rt.registrations))
      ensures forall h | h in old(Handles()) && old(OwnedHandle(subject, keyPath, owner)) != Some(h) :: unchanged(h)
    {
      if owner.None? {
        return;
      }
      var key := TableKey(owner.value, SubjectSlot(subject));
      if key !in tables {
        return;
      }
      var table := tables[key];
      if keyPath in table {
        table[keyPath].Invalidate();
      }
      tables := tables[key := table - {keyPath}];
    }
  }
}
