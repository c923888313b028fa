/** `ArrayOwner` and `arrayCompatibleValue(forKey:defaultValue:)` of
    PropertyWrappers.swift: an object whose array-valued keys can also be
    read as `"$" + key`, which yields a cached `ArrayWrapper`, and whose
    change notifications for a wrapped key are bracketed by the matching
    notifications for `"$" + key`. */
module ArrayOwners {
  import opened Basics
  import opened Kvo
  import opened KeyPaths
  import opened Observing
  import opened ArrayKvo

  /** What `value(forKey:)` answers: the cached or new wrapper, the plain
      value of an unprefixed key, or `nil` for a prefixed key whose value is
      not an array. */
  datatype Lookup = Wrapped(wrapper: ArrayWrapper) | Plain(value: Value) | Missing

  /** The notifications `willChangeValue(forKey:)` sends: the wrapper's key
      first, when `key` has a wrapper. */
  function WillEvents(owner: ObjectId, key: string, wrapped: bool): (events: seq<Event>)
    ensures |events| == if wrapped then 2 else 1
    ensures events[|events| - 1] == WillChange(owner, key)
    ensures wrapped ==> events[0] == WillChange(owner, SyntheticKey(key))
  {
    (if wrapped then [WillChange(owner, SyntheticKey(key))] else []) + [WillChange(owner, key)]
  }

  /** The notifications `didChangeValue(forKey:)` sends: the wrapper's key
      last, when `key` has a wrapper. */
  function DidEvents(owner: ObjectId, key: string, wrapped: bool): (events: seq<Event>)
    ensures |events| == if wrapped then 2 else 1
    ensures events[0] == DidChange(owner, key)
    ensures wrapped ==> events[1] == DidChange(owner, SyntheticKey(key))
  {
    [DidChange(owner, key)] + (if wrapped then [DidChange(owner, SyntheticKey(key))] else [])
  }

  /** The change brackets still open after `events`, innermost last,
      starting from `open`; `None` when a did-change closes anything but the
      innermost open bracket. */
  function Open(events: seq<Event>, open: seq<(ObjectId, string)>): (r: Option<seq<(ObjectId, string)>>)
    ensures events == [] ==> r == Some(open)
  {
    if events == [] then Some(open)
    else match events[0]
      case WillChange(subject, key) => Open(events[1..], open + [(subject, key)])
      case DidChange(subject, key) =>
        if open != [] && open[|open| - 1] == (subject, key) then Open(events[1..], open[..|open| - 1])
        else None
  }

  /** Every will-change is closed by its did-change, innermost first. */
  predicate WellNested(events: seq<Event>) {
    Open(events, []) == Some([])
  }

  /** Processing a concatenation is processing its parts in turn. */
  lemma {:induction false} OpenAppend(a: seq<Event>, b: seq<Event>, open: seq<(ObjectId, string)>)
    ensures Open(a + b, open) == if Open(a, open).Some? then Open(b, Open(a, open).value) else None
    decreases |a|
  {
    if a == [] {
      assert a + b == b;
    } else {
      assert (a + b)[0] == a[0];
      assert (a + b)[1..] == a[1..] + b;
      match a[0]
      case WillChange(subject, key) =>
        OpenAppend(a[1..], b, open + [(subject, key)]);
      case DidChange(subject, key) =>
        if open != [] && open[|open| - 1] == (subject, key) {
          OpenAppend(a[1..], b, open[..|open| - 1]);
        }
    }
  }

  /** Brackets opened before a sequence of events do not disturb it: it
      only works on the innermost ones. */
  lemma {:induction false} OpenBelow(events: seq<Event>, below: seq<(ObjectId, string)>,
                                     open: seq<(ObjectId, string)>, after: seq<(ObjectId, string)>)
    requires Open(events, open) == Some(after)
    ensures Open(events, below + open) == Some(below + after)
    decreases |events|
  {
    if events != [] {
      match events[0]
      case WillChange(subject, key) =>
        assert below + open + [(subject, key)] == below + (open + [(subject, key)]);
        OpenBelow(events[1..], below, open + [(subject, key)], after);
      case DidChange(subject, key) =>
        assert (below + open)[..|below + open| - 1] == below + open[..|open| - 1];
        OpenBelow(events[1..], below, open[..|open| - 1], after);
    }
  }

  /** The ordering `ArrayOwner` keeps: the notifications for `key`, with any
      well-nested changes made between them, sit inside those for
      `"$" + key`, so the whole is well nested whether or not `key` has a
      wrapper. */
  lemma NestedChange(owner: ObjectId, key: string, wrapped: bool, between: seq<Event>)
    requires WellNested(between)
    ensures WellNested(WillEvents(owner, key, wrapped) + between + DidEvents(owner, key, wrapped))
  {
    var will := WillEvents(owner, key, wrapped);
    var did := DidEvents(owner, key, wrapped);
    var outer: seq<(ObjectId, string)> := if wrapped then [(owner, SyntheticKey(key))] else [];
    var started := outer + [(owner, key)];
    assert Open(will, []) == Some(started) by {
      if wrapped {
        assert will[1..] == [WillChange(owner, key)];
        assert Open(will[1..], outer) == Some(started) by {
          assert will[1..][1..] == [];
        }
        assert [] + [(owner, SyntheticKey(key))] == outer;
      } else {
        assert will[1..] == [];
        assert [] + [(owner, key)] == started;
      }
    }
    OpenBelow(between, started, [], []);
    assert started + [] == started;
    assert Open(did, started) == Some([]) by {
      assert started[..|started| - 1] == outer;
      if wrapped {
        assert did[1..] == [DidChange(owner, SyntheticKey(key))];
        assert did[1..][1..] == [];
      } else {
        assert did[1..] == [];
      }
    }
    OpenAppend(will, between, []);
    OpenAppend(will + between, did, []);
  }

  /** An `ArrayOwner`: `wrappers` is the associated table of wrappers,
      keyed by the key without its `"$"`. */
  class ArrayOwner {
    const id: ObjectId
    const rt: Runtime
    const registry: ObserverRegistry
    var wrappers: map<string, ArrayWrapper>

    /** Each wrapper follows the key it is filed under, through this
        owner's runtime. */
    ghost predicate Valid()
      reads this
    {
      forall key | key in wrappers :: wrappers[key].rt == rt && wrappers[key].ownerKey == key
    }

    constructor (id: ObjectId, rt: Runtime, registry: ObserverRegistry)
      ensures this.id == id && this.rt == rt && this.registry == registry
      ensures wrappers == map[]
      ensures Valid()
    {
      this.id := id;
      this.rt := rt;
      this.registry := registry;
      wrappers := map[];
    }

    /** `value(forKey:)` through `arrayCompatibleValue`: an unprefixed key
        reads the plain value; `"$" + k` answers the wrapper filed under `k`,
        creating and filing one when the value of `k` is an array, and
        `nil` otherwise. `stored` stands for the superclass lookup. */
    method ValueForKey(key: string, stored: string -> Value, handler: HandlerId) returns (r: Lookup)
      requires Valid() && registry.Valid() && registry.rt == rt
      modifies this, registry, rt
      ensures Valid() && registry.Valid()
      ensures rt.events == old(rt.events)
      ensures !HasArrayPrefix(key) ==>
        r == Plain(stored(key)) && wrappers == old(wrappers)
        && registry.tables == old(registry.tables) && rt.registrations == old(rt.registrations)
      ensures HasArrayPrefix(key) && DropArrayPrefix(key) in old(wrappers) ==>
        r == Wrapped(old(wrappers)[DropArrayPrefix(key)]) && wrappers == old(wrappers)
        && registry.tables == old(registry.tables) && rt.registrations == old(rt.registrations)
      ensures HasArrayPrefix(key) && DropArrayPrefix(key) !in old(wrappers) && !stored(DropArrayPrefix(key)).Array? ==>
        r == Missing && wrappers == old(wrappers)
        && registry.tables == old(registry.tables) && rt.registrations == old(rt.registrations)
      ensures HasArrayPrefix(key) && DropArrayPrefix(key) !in old(wrappers) && stored(DropArrayPrefix(key)).Array? ==>
        var k := DropArrayPrefix(key);
        && r.Wrapped? && fresh(r.wrapper) && wrappers == old(wrappers)[k := r.wrapper]
        && r.wrapper.Valid() && r.wrapper.elements == stored(k).elements
        && r.wrapper.owner == Some(id) && r.wrapper.observingContexts == []
        && |rt.registrations| == |old(rt.registrations)| + 1
        && rt.registrations[..|old(rt.registrations)|] == old(rt.registrations)
        && rt.registrations[|old(rt.registrations)|].target == id
        && rt.registrations[|old(rt.registrations)|].path == k
    {
      if !HasArrayPrefix(key) {
        return Plain(stored(key));
      }
      var k := DropArrayPrefix(key);
      if k in wrappers {
        return Wrapped(wrappers[k]);
      }
      var w := ArrayWrapper.Create(stored(k), id, k, rt, registry, handler);
      if w == null {
        return Missing;
      }
      wrappers := wrappers[k := w];
      r := Wrapped(w);
    }

    /** `willChangeValue(forKey:)`: the wrapper's key is announced first. */
    method WillChangeValue(key: string)
      modifies rt
      ensures rt.events == old(rt.events) + WillEvents(id, key, key in wrappers)
      ensures rt.registrations == old(rt.registrations)
    {
      if key in wrappers {
        rt.WillChangeValue(id, SyntheticKey(key));
      }
      rt.WillChangeValue(id, key);
    }

    /** `didChangeValue(forKey:)`, with the delivery it triggers: the change
        of `key` reaches the wrapper's subscription, which loads the owner's
        `current` value into the wrapper, and only then is the wrapper's key
        announced, so its observers see the new elements. */
    method DidChangeValue(key: string, current: Value)
      requires Valid()
      requires key in wrappers ==> wrappers[key].Valid()
      modifies rt, if key in wrappers then {wrappers[key]} else {}
      ensures rt.events == old(rt.events) + DidEvents(id, key, key in wrappers)
      ensures key !in wrappers ==> rt.registrations == old(rt.registrations)
      ensures key in wrappers ==>
        var w := wrappers[key];
        && w.Valid()
        && w.observingContexts == old(w.observingContexts)
        && (w.owner.Some? && current.Array? ==> w.elements == current.elements)
        && (w.owner.None? || !current.Array? ==> w.elements == old(w.elements))
        && multiset(rt.registrations) + old(w.Managed()) == old(multiset(rt.registrations)) + w.Managed()
    {
      rt.DidChangeValue(id, key);
      if key in wrappers {
        var w := wrappers[key];
        w.OwnerKeyChanged(current);
        rt.DidChangeValue(id, SyntheticKey(key));
      }
    }
  }
}
