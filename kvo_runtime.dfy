/** The Objective-C key-value-observing runtime the library builds on:
    `addObserver` / `removeObserver` on `NSObject`, and the
    `willChangeValue` / `didChangeValue` notifications. Registrations are
    kept in the order they were added, because `removeObserver` without a
    context removes the most recent matching one. */
module Kvo {
  import opened Basics

  /** A context pointer handed to `addObserver`; `None` is `nil`. */
  type ContextPtr = Option<nat>

  /** Who receives a registration's notifications: a `KeyValueObserver`
      handle, numbered by the registry that created it, or an object the
      caller names. Handles are objects of their own, so a handle is never
      the same observer as a caller's object. */
  datatype ObserverRef = HandleRef(handle: nat) | ObjectRef(id: ObjectId)

  /** One `addObserver(observer, forKeyPath: path, context:)` on `target`. */
  datatype Registration = Registration(target: ObjectId, observer: ObserverRef, path: string, context: ContextPtr)

  /** How a removal picks its registration: the context-less
      `removeObserver(_:forKeyPath:)` accepts any context. */
  datatype ContextFilter = AnyContext | ExactContext(context: ContextPtr)

  /** A change notification posted on `subject` for `key`. */
  datatype Event = WillChange(subject: ObjectId, key: string) | DidChange(subject: ObjectId, key: string)

  predicate Matches(r: Registration, target: ObjectId, observer: ObserverRef, path: string, filter: ContextFilter) {
    && r.target == target
    && r.observer == observer
    && r.path == path
    && (filter.ExactContext? ==> r.context == filter.context)
  }

  predicate HasMatch(regs: seq<Registration>, target: ObjectId, observer: ObserverRef, path: string, filter: ContextFilter) {
    exists i :: 0 <= i < |regs| && Matches(regs[i], target, observer, path, filter)
  }

  /** The position of the most recently added registration that matches,
      if any. */
  function LastMatch(regs: seq<Registration>, target: ObjectId, observer: ObserverRef, path: string, filter: ContextFilter)
    : (r: Option<nat>)
    ensures r.Some? ==>
      && r.value < |regs| && Matches(regs[r.value], target, observer, path, filter)
      && forall j | r.value < j < |regs| :: !Matches(regs[j], target, observer, path, filter)
    ensures r.None? ==> !HasMatch(regs, target, observer, path, filter)
  {
    if regs == [] then None
    else if Matches(regs[|regs| - 1], target, observer, path, filter) then Some(|regs| - 1)
    else
      var r := LastMatch(regs[..|regs| - 1], target, observer, path, filter);
      assert forall j | 0 <= j < |regs| - 1 :: regs[..|regs| - 1][j] == regs[j];
      r
  }

  /** The registrations left after one `removeObserver`: the most recently
      added matching registration is dropped, if there is one. */
  function RemoveLatest(regs: seq<Registration>, target: ObjectId, observer: ObserverRef, path: string, filter: ContextFilter): (rest: seq<Registration>)
    ensures HasMatch(regs, target, observer, path, filter) ==>
      var i := LastMatch(regs, target, observer, path, filter).value;
      && Matches(regs[i], target, observer, path, filter)
      && rest == regs[..i] + regs[i + 1..]
    ensures !HasMatch(regs, target, observer, path, filter) ==> rest == regs
  {
    match LastMatch(regs, target, observer, path, filter)
    case Some(i) => regs[..i] + regs[i + 1..]
    case None => regs
  }

  /** Any removal takes out at most one registration, and only one that
      matches: as a multiset, the registrations lose one copy of the latest
      match, or nothing when none matches. */
  lemma RemoveOne(regs: seq<Registration>, target: ObjectId, observer: ObserverRef, path: string, filter: ContextFilter)
    ensures !HasMatch(regs, target, observer, path, filter) ==>
      multiset(RemoveLatest(regs, target, observer, path, filter)) == multiset(regs)
    ensures HasMatch(regs, target, observer, path, filter) ==>
      var r := regs[LastMatch(regs, target, observer, path, filter).value];
      && Matches(r, target, observer, path, filter)
      && multiset(RemoveLatest(regs, target, observer, path, filter)) == multiset(regs) - multiset{r}
  {
    var m := LastMatch(regs, target, observer, path, filter);
    if m.Some? {
      MultisetWithout(regs, m.value);
    }
  }

  /** Removing with an exact context removes exactly that registration, if
      present: as a multiset, the registrations lose one copy of it. */
  lemma RemoveExact(regs: seq<Registration>, r: Registration)
    ensures multiset(RemoveLatest(regs, r.target, r.observer, r.path, ExactContext(r.context)))
         == multiset(regs) - multiset{r}
  {
    var filter := ExactContext(r.context);
    RemoveOne(regs, r.target, r.observer, r.path, filter);
    if !HasMatch(regs, r.target, r.observer, r.path, filter) {
      forall i | 0 <= i < |regs| ensures regs[i] != r {
        assert !Matches(regs[i], r.target, r.observer, r.path, filter);
      }
      assert r !in multiset(regs);
    }
  }

  lemma MultisetWithout<T>(s: seq<T>, i: nat)
    requires i < |s|
    ensures multiset(s[..i] + s[i + 1..]) == multiset(s) - multiset{s[i]}
  {
    assert s == s[..i] + [s[i]] + s[i + 1..];
    var a, b := multiset(s[..i]), multiset(s[i + 1..]);
    assert multiset(s) == a + multiset{s[i]} + b;
  }

  /** The runtime shared by every subject: who observes what, and the log of
      change notifications posted so far. */
  class Runtime {
    var registrations: seq<Registration>
    var events: seq<Event>

    constructor ()
      ensures registrations == [] && events == []
    {
      registrations := [];
      events := [];
    }

    /** `target.addObserver(observer, forKeyPath: path, context: context)` */
    method AddObserver(target: ObjectId, observer: ObserverRef, path: string, context: ContextPtr)
      modifies this
      ensures registrations == old(registrations) + [Registration(target, observer, path, context)]
      ensures events == old(events)
    {
      registrations := registrations + [Registration(target, observer, path, context)];
    }

    /** `target.removeObserver(observer, forKeyPath: path)` or, with an exact
        filter, `removeObserver(_:forKeyPath:context:)`. */
    method RemoveObserver(target: ObjectId, observer: ObserverRef, path: string, filter: ContextFilter)
      modifies this
      ensures registrations == RemoveLatest(old(registrations), target, observer, path, filter)
      ensures events == old(events)
    {
      registrations := RemoveLatest(registrations, target, observer, path, filter);
    }

    /** `subject.willChangeValue(forKey: key)` as `NSObject` implements it. */
    method WillChangeValue(subject: ObjectId, key: string)
      modifies this
      ensures events == old(events) + [WillChange(subject, key)]
      ensures registrations == old(registrations)
    {
      events := events + [WillChange(subject, key)];
    }

    /** `subject.didChangeValue(forKey: key)` as `NSObject` implements it. */
    method DidChangeValue(subject: ObjectId, key: string)
      modifies this
      ensures events == old(events) + [DidChange(subject, key)]
      ensures registrations == old(registrations)
    {
      events := events + [DidChange(subject, key)];
    }
  }
}
