/** `ArrayWrapper` of ArrayKVO.swift: an array standing in for an owner's
    array property, which forwards every observer added to it to each
    object element, and moves those registrations when the array is
    replaced. */
module ArrayKvo {
  import opened Basics
  import opened Kvo
  import opened Observing

  /** `ArrayWrapper.Context`: one `addObserver` made on the wrapper. The
      observer is held weakly, so it becomes `None` once released. */
  datatype ObservingContext = ObservingContext(
    observer: Option<ObjectId>,
    keyPath: string,
    options: Option<set<ObservingOption>>,
    context: ContextPtr)

  /** The elements that are objects (`compactMap { $0 as? NSObject }`), in
      order; other elements are skipped by every loop. */
  function Objects(elements: seq<Element>): (objects: seq<ObjectId>)
    ensures |objects| <= |elements|
  {
    if elements == [] then []
    else
      var last := elements[|elements| - 1];
      Objects(elements[..|elements| - 1]) + (if last.Object? then [last.id] else [])
  }

  /** Each object occurs among the objects exactly as often as it occurs
      in the array. */
  lemma {:induction false} ObjectsCount(elements: seq<Element>, x: ObjectId)
    ensures multiset(Objects(elements))[x] == multiset(elements)[Object(x)]
    decreases |elements|
  {
    if elements != [] {
      var n := |elements| - 1;
      ObjectsCount(elements[..n], x);
      assert elements == elements[..n] + [elements[n]];
    }
  }

  /** The objects of two arrays joined are the objects of the first, then
      those of the second: `Objects` keeps the array's order. */
  lemma {:induction false} ObjectsAppend(a: seq<Element>, b: seq<Element>)
    ensures Objects(a + b) == Objects(a) + Objects(b)
    decreases |b|
  {
    if b == [] {
      assert a + b == a;
    } else {
      var n := |b| - 1;
      var last := if b[n].Object? then [b[n].id] else [];
      ObjectsAppend(a, b[..n]);
      var ab := a + b;
      assert ab[..|ab| - 1] == a + b[..n];
      assert ab[|ab| - 1] == b[n];
      assert Objects(ab) == Objects(a + b[..n]) + last;
      assert Objects(b) == Objects(b[..n]) + last;
      assert Objects(a) + Objects(b[..n]) + last == Objects(a) + (Objects(b[..n]) + last);
    }
  }

  /** The registrations one context makes on the given objects, one per
      object, in order. */
  function Regs(objects: seq<ObjectId>, observer: ObjectId, keyPath: string, context: ContextPtr): (regs: seq<Registration>)
    ensures |regs| == |objects|
    ensures forall i | 0 <= i < |objects| :: regs[i] == Registration(objects[i], ObjectRef(observer), keyPath, context)
  {
    seq(|objects|, i requires 0 <= i < |objects| => Registration(objects[i], ObjectRef(observer), keyPath, context))
  }

  /** The registrations context `c` makes on the objects: none once its
      observer is released. */
  function Contribution(objects: seq<ObjectId>, c: ObservingContext): seq<Registration>
  {
    if c.observer.Some? then Regs(objects, c.observer.value, c.keyPath, c.context) else []
  }

  /** The registrations the wrapper is responsible for: every object
      element for every context whose observer is still alive. */
  function Mirror(objects: seq<ObjectId>, contexts: seq<ObservingContext>): seq<Registration>
  {
    if contexts == [] then []
    else Mirror(objects, contexts[..|contexts| - 1]) + Contribution(objects, contexts[|contexts| - 1])
  }

  /** Whether `removeObserver` drops context `c`: same observer, same key
      path and, for the context-taking variant, the same context. A
      released observer matches nothing. */
  predicate Removes(c: ObservingContext, observer: ObjectId, keyPath: string, filter: ContextFilter) {
    && c.observer == Some(observer)
    && c.keyPath == keyPath
    && (filter.ExactContext? ==> c.context == filter.context)
  }

  /** The contexts `removeAll` keeps, in order. */
  function Kept(contexts: seq<ObservingContext>, observer: ObjectId, keyPath: string, filter: ContextFilter): (kept: seq<ObservingContext>)
    ensures |kept| <= |contexts|
  {
    if contexts == [] then []
    else
      var c := contexts[|contexts| - 1];
      var rest := Kept(contexts[..|contexts| - 1], observer, keyPath, filter);
      if Removes(c, observer, keyPath, filter) then rest else rest + [c]
  }

  /** `removeAll` keeps a context exactly when it does not match. */
  lemma {:induction false} KeptMembers(contexts: seq<ObservingContext>, observer: ObjectId, keyPath: string, filter: ContextFilter)
    ensures forall c :: c in Kept(contexts, observer, keyPath, filter) <==> c in contexts && !Removes(c, observer, keyPath, filter)
    decreases |contexts|
  {
    if contexts != [] {
      var n := |contexts| - 1;
      KeptMembers(contexts[..n], observer, keyPath, filter);
      assert contexts == contexts[..n] + [contexts[n]];
    }
  }

  /** The contexts `removeAll` drops, in order. */
  function Dropped(contexts: seq<ObservingContext>, observer: ObjectId, keyPath: string, filter: ContextFilter): (dropped: seq<ObservingContext>)
    ensures forall i | 0 <= i < |dropped| :: Removes(dropped[i], observer, keyPath, filter)
  {
    if contexts == [] then []
    else
      var c := contexts[|contexts| - 1];
      var rest := Dropped(contexts[..|contexts| - 1], observer, keyPath, filter);
      if Removes(c, observer, keyPath, filter) then rest + [c] else rest
  }

  /** The contexts whose observer is still alive, in order. */
  function Live(contexts: seq<ObservingContext>): (live: seq<ObservingContext>)
    ensures forall i | 0 <= i < |live| :: live[i].observer.Some?
  {
    if contexts == [] then []
    else
      var c := contexts[|contexts| - 1];
      Live(contexts[..|contexts| - 1]) + (if c.observer.Some? then [c] else [])
  }

  /** Whether context `c` makes registrations for `observer`, `keyPath`
      and `context`: only while its observer is alive. */
  predicate Makes(c: ObservingContext, observer: ObserverRef, keyPath: string, context: ContextPtr) {
    c.observer.Some? && observer == ObjectRef(c.observer.value) && c.keyPath == keyPath && c.context == context
  }

  /** How many contexts register `observer` for `keyPath` with `context`. */
  function CountContexts(contexts: seq<ObservingContext>, observer: ObserverRef, keyPath: string, context: ContextPtr): nat
  {
    if contexts == [] then 0
    else
      var c := contexts[|contexts| - 1];
      CountContexts(contexts[..|contexts| - 1], observer, keyPath, context)
        + (if Makes(c, observer, keyPath, context) then 1 else 0)
  }

  /** One more context adds its registrations at the end. */
  lemma MirrorSnoc(objects: seq<ObjectId>, contexts: seq<ObservingContext>, c: ObservingContext)
    ensures Mirror(objects, contexts + [c]) == Mirror(objects, contexts) + Contribution(objects, c)
  {
    assert (contexts + [c])[..|contexts|] == contexts;
  }

  /** A context registers each object as often as the object occurs. */
  lemma {:induction false} RegsCount(objects: seq<ObjectId>, observer: ObjectId, keyPath: string, context: ContextPtr, r: Registration)
    ensures multiset(Regs(objects, observer, keyPath, context))[r]
         == if r.observer == ObjectRef(observer) && r.path == keyPath && r.context == context then multiset(objects)[r.target] else 0
    decreases |objects|
  {
    if objects != [] {
      var n := |objects| - 1;
      RegsCount(objects[..n], observer, keyPath, context, r);
      assert Regs(objects, observer, keyPath, context)
          == Regs(objects[..n], observer, keyPath, context) + [Registration(objects[n], ObjectRef(observer), keyPath, context)];
      assert objects == objects[..n] + [objects[n]];
    }
  }

  /** A live context registers each object once per occurrence; a dead
      one registers nothing. */
  lemma ContributionCount(objects: seq<ObjectId>, c: ObservingContext, r: Registration)
    ensures multiset(Contribution(objects, c))[r]
         == if Makes(c, r.observer, r.path, r.context) then multiset(objects)[r.target] else 0
  {
    if c.observer.Some? {
      RegsCount(objects, c.observer.value, c.keyPath, c.context, r);
    }
  }

  /** The mirror invariant stated exactly: the wrapper holds each
      registration as many times as its target occurs among the object
      elements, times the number of live contexts that make it. */
  lemma {:induction false} MirrorCount(objects: seq<ObjectId>, contexts: seq<ObservingContext>, r: Registration)
    ensures multiset(Mirror(objects, contexts))[r]
         == multiset(objects)[r.target] * CountContexts(contexts, r.observer, r.path, r.context)
    decreases |contexts|
  {
    if contexts != [] {
      var n := |contexts| - 1;
      var c := contexts[n];
      MirrorCount(objects, contexts[..n], r);
      ContributionCount(objects, c, r);
      var m := multiset(objects)[r.target];
      var k := CountContexts(contexts[..n], r.observer, r.path, r.context);
      var front := Mirror(objects, contexts[..n]);
      var extra := Contribution(objects, c);
      assert Mirror(objects, contexts) == front + extra;
      assert multiset(front + extra)[r] == multiset(front)[r] + multiset(extra)[r];
      assert multiset(front)[r] == m * k;
      if Makes(c, r.observer, r.path, r.context) {
        assert CountContexts(contexts, r.observer, r.path, r.context) == k + 1;
        assert multiset(extra)[r] == m;
        MulSucc(m, k);
      } else {
        assert CountContexts(contexts, r.observer, r.path, r.context) == k;
        assert multiset(extra)[r] == 0;
      }
    }
  }

  lemma MulSucc(m: int, k: int)
    ensures m * (k + 1) == m * k + m
  {
  }

  /** Elements that left the array are no longer observed through the
      wrapper: no registration the wrapper is responsible for targets an
      object that is not an element. */
  lemma DetachedNotObserved(elements: seq<Element>, contexts: seq<ObservingContext>, r: Registration)
    requires Object(r.target) !in elements
    ensures r !in multiset(Mirror(Objects(elements), contexts))
  {
    MirrorCount(Objects(elements), contexts, r);
    ObjectsCount(elements, r.target);
  }

  /** Dead contexts hold no registrations. */
  lemma {:induction false} MirrorLive(objects: seq<ObjectId>, contexts: seq<ObservingContext>)
    ensures Mirror(objects, Live(contexts)) == Mirror(objects, contexts)
    decreases |contexts|
  {
    if contexts != [] {
      var n := |contexts| - 1;
      var c := contexts[n];
      MirrorLive(objects, contexts[..n]);
      if c.observer.Some? {
        assert Live(contexts) == Live(contexts[..n]) + [c];
        MirrorSnoc(objects, Live(contexts[..n]), c);
      } else {
        assert Live(contexts) == Live(contexts[..n]);
        assert Mirror(objects, contexts) == Mirror(objects, contexts[..n]);
      }
    }
  }

  /** `removeAll` splits the registrations: those of the kept contexts and
      those of the dropped ones. */
  lemma {:induction false} MirrorSplit(objects: seq<ObjectId>, contexts: seq<ObservingContext>, observer: ObjectId,
                                       keyPath: string, filter: ContextFilter)
    ensures multiset(Mirror(objects, contexts))
         == multiset(Mirror(objects, Kept(contexts, observer, keyPath, filter)))
          + multiset(Mirror(objects, Dropped(contexts, observer, keyPath, filter)))
    decreases |contexts|
  {
    if contexts != [] {
      var n := |contexts| - 1;
      var c := contexts[n];
      MirrorSplit(objects, contexts[..n], observer, keyPath, filter);
      var kept := Kept(contexts[..n], observer, keyPath, filter);
      var dropped := Dropped(contexts[..n], observer, keyPath, filter);
      var extra := Contribution(objects, c);
      assert Mirror(objects, contexts) == Mirror(objects, contexts[..n]) + extra;
      if Removes(c, observer, keyPath, filter) {
        MirrorSnoc(objects, dropped, c);
        AddToPart(multiset(Mirror(objects, contexts[..n])), multiset(Mirror(objects, kept)),
                  multiset(Mirror(objects, dropped)), multiset(extra));
      } else {
        MirrorSnoc(objects, kept, c);
        AddToPart(multiset(Mirror(objects, contexts[..n])), multiset(Mirror(objects, dropped)),
                  multiset(Mirror(objects, kept)), multiset(extra));
      }
    }
  }

  /** Multiset bookkeeping: what is added to a sum is added to one part. */
  lemma AddToPart<T>(m: multiset<T>, a: multiset<T>, b: multiset<T>, e: multiset<T>)
    requires m == a + b || m == b + a
    ensures m + e == a + (b + e) && m + e == (b + e) + a
  {
  }

  /** The first `j` contexts are responsible for part of the mirror. */
  lemma {:induction false} MirrorPrefix(objects: seq<ObjectId>, contexts: seq<ObservingContext>, j: nat)
    requires j <= |contexts|
    ensures multiset(Mirror(objects, contexts[..j])) <= multiset(Mirror(objects, contexts))
    decreases |contexts|
  {
    if j == |contexts| {
      assert contexts[..j] == contexts;
    } else {
      var n := |contexts| - 1;
      MirrorPrefix(objects, contexts[..n], j);
      assert contexts[..n][..j] == contexts[..j];
      assert multiset(Mirror(objects, contexts))
          == multiset(Mirror(objects, contexts[..n])) + multiset(Contribution(objects, contexts[n]));
    }
  }

  /** Registering one object more: the prefix up to `i` grows by the
      registration on `objects[i]`, and what remains is still held. */
  lemma RegsSlice(objects: seq<ObjectId>, observer: ObjectId, keyPath: string, context: ContextPtr, i: nat)
    requires i < |objects|
    ensures Regs(objects[..i + 1], observer, keyPath, context)
         == Regs(objects[..i], observer, keyPath, context) + [Registration(objects[i], ObjectRef(observer), keyPath, context)]
    ensures multiset(Regs(objects[..i], observer, keyPath, context)) + multiset{Registration(objects[i], ObjectRef(observer), keyPath, context)}
         <= multiset(Regs(objects, observer, keyPath, context))
  {
    var whole := Regs(objects, observer, keyPath, context);
    assert whole == Regs(objects[..i + 1], observer, keyPath, context) + whole[i + 1..];
    assert multiset(whole) == multiset(Regs(objects[..i + 1], observer, keyPath, context)) + multiset(whole[i + 1..]);
  }

  /** Multiset bookkeeping: a part of a sum that is held is held. */
  lemma PartOfSum<T>(a: multiset<T>, b: multiset<T>, m: multiset<T>)
    requires a + b <= m
    ensures b <= m
  {
    forall e ensures b[e] <= m[e] {
      assert (a + b)[e] <= m[e];
    }
  }

  /** Multiset bookkeeping: if `x + a == m + b` and `a <= m`, then `b <= x`. */
  lemma Cancel<T>(x: multiset<T>, a: multiset<T>, m: multiset<T>, b: multiset<T>)
    requires x + a == m + b && a <= m
    ensures b <= x
  {
    forall e ensures b[e] <= x[e] {
      assert (x + a)[e] == (m + b)[e];
    }
  }

  /** Multiset bookkeeping: if `x + a == m + b` and `a + r <= m`, then
      `r <= x`. */
  lemma StillHeld<T>(x: multiset<T>, a: multiset<T>, r: multiset<T>, m: multiset<T>, b: multiset<T>)
    requires x + a == m + b && a + r <= m
    ensures r <= x
  {
    forall e ensures r[e] <= x[e] {
      assert (x + a)[e] == (m + b)[e];
      assert (a + r)[e] <= m[e];
    }
  }

  /** Multiset bookkeeping for one removal: with `x + p == m0`, taking out
      of `x` an `r` that `p` does not yet account for moves it to `p`. */
  lemma TakeOne<T>(x: multiset<T>, x2: multiset<T>, p: multiset<T>, r: T, m0: multiset<T>, whole: multiset<T>)
    requires x + p == m0 && p + multiset{r} <= whole && whole <= m0
    requires x2 == x - multiset{r}
    ensures x2 + (p + multiset{r}) == m0
  {
    StillHeld(x, p, multiset{r}, m0, multiset{});
    assert x == x2 + multiset{r};
  }

  /** `for object in objects { object.removeObserver(observer, forKeyPath:
      keyPath, context: context) }`: each object loses exactly the
      registration the context made on it. */
  method Deregister(rt: Runtime, objects: seq<ObjectId>, observer: ObjectId, keyPath: string, context: ContextPtr)
    requires multiset(Regs(objects, observer, keyPath, context)) <= multiset(rt.registrations)
    modifies rt
    ensures multiset(rt.registrations) + multiset(Regs(objects, observer, keyPath, context)) == old(multiset(rt.registrations))
    ensures rt.events == old(rt.events)
  {
    var i := 0;
    while i < |objects|
      invariant 0 <= i <= |objects|
      invariant multiset(rt.registrations) + multiset(Regs(objects[..i], observer, keyPath, context))
             == old(multiset(rt.registrations))
      invariant rt.events == old(rt.events)
    {
      var r := Registration(objects[i], ObjectRef(observer), keyPath, context);
      RegsSlice(objects, observer, keyPath, context, i);
      ghost var before := multiset(rt.registrations);
      RemoveExact(rt.registrations, r);
      rt.RemoveObserver(objects[i], ObjectRef(observer), keyPath, ExactContext(context));
      TakeOne(before, multiset(rt.registrations), multiset(Regs(objects[..i], observer, keyPath, context)), r,
              old(multiset(rt.registrations)), multiset(Regs(objects, observer, keyPath, context)));
      i := i + 1;
    }
    assert objects[..i] == objects;
  }

  /** `for object in objects { object.addObserver(observer, forKeyPath:
      keyPath, options: …, context: context) }` */
  method Register(rt: Runtime, objects: seq<ObjectId>, observer: ObjectId, keyPath: string, context: ContextPtr)
    modifies rt
    ensures rt.registrations == old(rt.registrations) + Regs(objects, observer, keyPath, context)
    ensures rt.events == old(rt.events)
  {
    var i := 0;
    while i < |objects|
      invariant 0 <= i <= |objects|
      invariant rt.registrations == old(rt.registrations) + Regs(objects[..i], observer, keyPath, context)
      invariant rt.events == old(rt.events)
    {
      RegsSlice(objects, observer, keyPath, context, i);
      rt.AddObserver(objects[i], ObjectRef(observer), keyPath, context);
      i := i + 1;
    }
    assert objects[..i] == objects;
  }

  /** One more context of a list, as multisets. */
  lemma MirrorStep(objects: seq<ObjectId>, contexts: seq<ObservingContext>, k: nat)
    requires k < |contexts|
    ensures multiset(Mirror(objects, contexts[..k + 1]))
         == multiset(Mirror(objects, contexts[..k])) + multiset(Contribution(objects, contexts[k]))
  {
    assert contexts[..k + 1] == contexts[..k] + [contexts[k]];
    MirrorSnoc(objects, contexts[..k], contexts[k]);
  }

  /** Multiset bookkeeping for one step of a loop that keeps
      `x + a == m + b`: the state goes from `x` to `x2` by giving up `r`
      and gaining `n`, while `a` grows by `r` and `b` by `n`. */
  lemma Shift<T>(x: multiset<T>, a: multiset<T>, m: multiset<T>, b: multiset<T>,
                 x2: multiset<T>, r: multiset<T>, n: multiset<T>)
    requires x + a == m + b && x2 + r == x + n
    ensures x2 + (a + r) == m + (b + n)
  {
    forall e ensures (x2 + (a + r))[e] == (m + (b + n))[e] {
      assert (x + a)[e] == (m + b)[e];
      assert (x2 + r)[e] == (x + n)[e];
    }
  }

  /** One live context's part of the `didSet`: its registrations leave the
      old object elements and are made on the new ones. */
  method MoveContext(rt: Runtime, oldObjects: seq<ObjectId>, newObjects: seq<ObjectId>, c: ObservingContext)
    requires c.observer.Some?
    requires multiset(Contribution(oldObjects, c)) <= multiset(rt.registrations)
    modifies rt
    ensures multiset(rt.registrations) + multiset(Contribution(oldObjects, c))
         == old(multiset(rt.registrations)) + multiset(Contribution(newObjects, c))
    ensures rt.events == old(rt.events)
  {
    Deregister(rt, oldObjects, c.observer.value, c.keyPath, c.context);
    Register(rt, newObjects, c.observer.value, c.keyPath, c.context);
  }

  /** One context's part of removing: its registrations leave every
      object element (nothing happens for a released observer). */
  method DropContext(rt: Runtime, objects: seq<ObjectId>, c: ObservingContext)
    requires multiset(Contribution(objects, c)) <= multiset(rt.registrations)
    modifies rt
    ensures multiset(rt.registrations) + multiset(Contribution(objects, c)) == old(multiset(rt.registrations))
    ensures rt.events == old(rt.events)
  {
    if c.observer.Some? {
      Deregister(rt, objects, c.observer.value, c.keyPath, c.context);
    }
  }

  /** The state of `Resync` after its first `k` contexts. */
  ghost predicate Resynced(regs: seq<Registration>, m0: multiset<Registration>,
                           oldObjects: seq<ObjectId>, newObjects: seq<ObjectId>, live: seq<ObservingContext>, k: nat)
    requires k <= |live|
  {
    multiset(regs) + multiset(Mirror(oldObjects, live[..k])) == m0 + multiset(Mirror(newObjects, live[..k]))
  }

  /** Step `k` of `Resync`: the `k`-th live context moves over. */
  method ResyncNext(rt: Runtime, oldObjects: seq<ObjectId>, newObjects: seq<ObjectId>, live: seq<ObservingContext>,
                    k: nat, ghost m0: multiset<Registration>)
    requires k < |live| && live[k].observer.Some?
    requires multiset(Mirror(oldObjects, live)) <= m0
    requires Resynced(rt.registrations, m0, oldObjects, newObjects, live, k)
    modifies rt
    ensures Resynced(rt.registrations, m0, oldObjects, newObjects, live, k + 1)
    ensures rt.events == old(rt.events)
  {
    ghost var x := multiset(rt.registrations);
    ghost var a := multiset(Mirror(oldObjects, live[..k]));
    ghost var b := multiset(Mirror(newObjects, live[..k]));
    ghost var r := multiset(Contribution(oldObjects, live[k]));
    ghost var n := multiset(Contribution(newObjects, live[k]));
    MirrorStep(oldObjects, live, k);
    MirrorStep(newObjects, live, k);
    MirrorPrefix(oldObjects, live, k + 1);
    StillHeld(x, a, r, m0, b);
    MoveContext(rt, oldObjects, newObjects, live[k]);
    Shift(x, a, m0, b, multiset(rt.registrations), r, n);
  }

  /** The loop of the `didSet`, over the live contexts in order: each
      context's registrations move from the old object elements to the new
      ones. */
  method Resync(rt: Runtime, oldObjects: seq<ObjectId>, newObjects: seq<ObjectId>, live: seq<ObservingContext>)
    requires forall i | 0 <= i < |live| :: live[i].observer.Some?
    requires multiset(Mirror(oldObjects, live)) <= multiset(rt.registrations)
    modifies rt
    ensures multiset(rt.registrations) + multiset(Mirror(oldObjects, live))
         == old(multiset(rt.registrations)) + multiset(Mirror(newObjects, live))
    ensures rt.events == old(rt.events)
  {
    ghost var m0 := multiset(rt.registrations);
    ghost var e0 := rt.events;
    assert live[..0] == [];
    var k := 0;
    while k < |live|
      invariant 0 <= k <= |live|
      invariant Resynced(rt.registrations, m0, oldObjects, newObjects, live, k)
      invariant rt.events == e0
    {
      ResyncNext(rt, oldObjects, newObjects, live, k, m0);
      k := k + 1;
    }
    assert live[..k] == live;
  }

  /** The state of `DeregisterAll` after its first `k` contexts. */
  ghost predicate Deregistered(regs: seq<Registration>, m0: multiset<Registration>,
                               objects: seq<ObjectId>, contexts: seq<ObservingContext>, k: nat)
    requires k <= |contexts|
  {
    multiset(regs) + multiset(Mirror(objects, contexts[..k])) == m0
  }

  /** Step `k` of `DeregisterAll`. */
  method DeregisterNext(rt: Runtime, objects: seq<ObjectId>, contexts: seq<ObservingContext>,
                        k: nat, ghost m0: multiset<Registration>)
    requires k < |contexts|
    requires multiset(Mirror(objects, contexts)) <= m0
    requires Deregistered(rt.registrations, m0, objects, contexts, k)
    modifies rt
    ensures Deregistered(rt.registrations, m0, objects, contexts, k + 1)
    ensures rt.events == old(rt.events)
  {
    ghost var x := multiset(rt.registrations);
    ghost var a := multiset(Mirror(objects, contexts[..k]));
    ghost var r := multiset(Contribution(objects, contexts[k]));
    MirrorStep(objects, contexts, k);
    MirrorPrefix(objects, contexts, k + 1);
    StillHeld(x, a, r, m0, multiset{});
    DropContext(rt, objects, contexts[k]);
    Shift(x, a, m0, multiset{}, multiset(rt.registrations), r, multiset{});
  }

  /** Removing the registrations of the given contexts from every object,
      one context after the other. */
  method DeregisterAll(rt: Runtime, objects: seq<ObjectId>, contexts: seq<ObservingContext>)
    requires multiset(Mirror(objects, contexts)) <= multiset(rt.registrations)
    modifies rt
    ensures multiset(rt.registrations) + multiset(Mirror(objects, contexts)) == old(multiset(rt.registrations))
    ensures rt.events == old(rt.events)
  {
    ghost var m0 := multiset(rt.registrations);
    ghost var e0 := rt.events;
    assert contexts[..0] == [];
    var k := 0;
    while k < |contexts|
      invariant 0 <= k <= |contexts|
      invariant Deregistered(rt.registrations, m0, objects, contexts, k)
      invariant rt.events == e0
    {
      DeregisterNext(rt, objects, contexts, k, m0);
      k := k + 1;
    }
    assert contexts[..k] == contexts;
  }

  /** The contexts after `observer` is released: the weak references to it
      read `nil`. */
  function Released(contexts: seq<ObservingContext>, observer: ObjectId): (after: seq<ObservingContext>)
    ensures |after| == |contexts|
    ensures forall i | 0 <= i < |contexts| ::
      after[i] == if contexts[i].observer == Some(observer) then contexts[i].(observer := None) else contexts[i]
  {
    if contexts == [] then []
    else
      var c := contexts[|contexts| - 1];
      Released(contexts[..|contexts| - 1], observer) + [if c.observer == Some(observer) then c.(observer := None) else c]
  }

  /** Releasing an observer only ever shrinks the mirror. */
  lemma {:induction false} MirrorReleased(objects: seq<ObjectId>, contexts: seq<ObservingContext>, observer: ObjectId)
    ensures multiset(Mirror(objects, Released(contexts, observer))) <= multiset(Mirror(objects, contexts))
    decreases |contexts|
  {
    if contexts != [] {
      var n := |contexts| - 1;
      var c := contexts[n];
      MirrorReleased(objects, contexts[..n], observer);
      var front := Released(contexts[..n], observer);
      var last := if c.observer == Some(observer) then c.(observer := None) else c;
      MirrorSnoc(objects, front, last);
      assert Contribution(objects, last) == [] || Contribution(objects, last) == Contribution(objects, c);
      SumWithin(multiset(Mirror(objects, front)), multiset(Contribution(objects, last)),
                multiset(Mirror(objects, contexts[..n])), multiset(Contribution(objects, c)));
    }
  }

  /** Multiset bookkeeping: sums of parts held within each other. */
  lemma SumWithin<T>(a: multiset<T>, b: multiset<T>, x: multiset<T>, y: multiset<T>)
    requires a <= x && (b == multiset{} || b == y)
    ensures a + b <= x + y
  {
  }

  /** `ArrayWrapper`: the array itself, the owner it belongs to and the
      observers added to it. */
  class ArrayWrapper {
    const rt: Runtime
    /** The owner's key the wrapper follows. */
    const ownerKey: string
    var owner: Option<ObjectId>
    var observingContexts: seq<ObservingContext>
    /** The wrapped `array`. */
    var elements: seq<Element>

    /** The element registrations made on the wrapper's behalf. */
    ghost function Managed(): multiset<Registration>
      reads this
    {
      multiset(Mirror(Objects(elements), observingContexts))
    }

    /** Every registration the wrapper is responsible for is in place. */
    ghost predicate Valid()
      reads this, rt
    {
      Managed() <= multiset(rt.registrations)
    }

    constructor (elements: seq<Element>, owner: ObjectId, ownerKey: string, rt: Runtime)
      ensures this.elements == elements && this.owner == Some(owner) && this.ownerKey == ownerKey && this.rt == rt
      ensures observingContexts == []
    {
      this.elements := elements;
      this.owner := Some(owner);
      this.ownerKey := ownerKey;
      this.rt := rt;
      observingContexts := [];
    }

    /** `init?(array:owner:keyPath:)`: no wrapper unless the value is an
        array; otherwise a wrapper with no observers, which follows `keyPath`
        of `owner` through an anonymous subscription. */
    static method Create(value: Value, owner: ObjectId, keyPath: string, rt: Runtime,
                         registry: ObserverRegistry, handler: HandlerId) returns (w: ArrayWrapper?)
      requires registry.Valid() && registry.rt == rt
      modifies registry, rt
      ensures registry.Valid() && rt.events == old(rt.events)
      ensures w == null <==> !value.Array?
      ensures w == null ==> registry.tables == old(registry.tables) && rt.registrations == old(rt.registrations)
      ensures w != null ==>
        && fresh(w) && w.Valid() && w.rt == rt
        && w.elements == value.elements && w.owner == Some(owner) && w.ownerKey == keyPath && w.observingContexts == []
        && |rt.registrations| == |old(rt.registrations)| + 1
        && rt.registrations[..|old(rt.registrations)|] == old(rt.registrations)
        && rt.registrations[|old(rt.registrations)|].target == owner
        && rt.registrations[|old(rt.registrations)|].path == keyPath
    {
      if !value.Array? {
        return null;
      }
      w := new ArrayWrapper(value.elements, owner, keyPath, rt);
      var s := registry.StartObserving(owner, Some(keyPath), None, {}, handler);
    }

    /** The `array` setter and its `didSet`: for each live context, remove
        its registration from every old object element, then add it to
        every new one. */
    method SetArray(newArray: seq<Element>)
      requires Valid()
      modifies this, rt
      ensures elements == newArray && observingContexts == old(observingContexts) && owner == old(owner)
      ensures Valid()
      ensures multiset(rt.registrations) + old(Managed()) == old(multiset(rt.registrations)) + Managed()
      ensures rt.events == old(rt.events)
    {
      var oldObjects := Objects(elements);
      elements := newArray;
      var newObjects := Objects(elements);
      var live := Live(observingContexts);
      MirrorLive(oldObjects, observingContexts);
      MirrorLive(newObjects, observingContexts);
      Resync(rt, oldObjects, newObjects, live);
      Cancel(multiset(rt.registrations), old(Managed()), old(multiset(rt.registrations)), Managed());
    }

    /** `addObserver(_:forKeyPath:options:context:)`: remember the context
        and register the observer on every object element. */
    method AddObserver(observer: ObjectId, keyPath: string, options: set<ObservingOption>, context: ContextPtr)
      requires Valid()
      modifies this, rt
      ensures observingContexts == old(observingContexts) + [ObservingContext(Some(observer), keyPath, Some(options), context)]
      ensures elements == old(elements) && owner == old(owner)
      ensures rt.registrations == old(rt.registrations) + Regs(Objects(elements), observer, keyPath, context)
      ensures Valid()
      ensures multiset(rt.registrations) + old(Managed()) == old(multiset(rt.registrations)) + Managed()
      ensures rt.events == old(rt.events)
    {
      var c := ObservingContext(Some(observer), keyPath, Some(options), context);
      MirrorSnoc(Objects(elements), observingContexts, c);
      observingContexts := observingContexts + [c];
      Register(rt, Objects(elements), observer, keyPath, context);
    }

    /** Both `removeObserver` overrides, as intended: every context that
        matches is dropped, and for each dropped context the registration
        it made is removed from every object element, so the elements keep
        exactly the registrations of the contexts that remain.
        `AnyContext` is `removeObserver(_:forKeyPath:)`, `ExactContext` the
        variant taking `context:`. */
    method RemoveObserver(observer: ObjectId, keyPath: string, filter: ContextFilter)
      requires Valid()
      modifies this, rt
      ensures observingContexts == Kept(old(observingContexts), observer, keyPath, filter)
      ensures elements == old(elements) && owner == old(owner)
      ensures Valid()
      ensures multiset(rt.registrations) + old(Managed()) == old(multiset(rt.registrations)) + Managed()
      ensures rt.events == old(rt.events)
    {
      var objects := Objects(elements);
      var dropped := Dropped(observingContexts, observer, keyPath, filter);
      ghost var m0 := multiset(rt.registrations);
      ghost var all := Managed();
      ghost var gone := multiset(Mirror(objects, dropped));
      MirrorSplit(objects, observingContexts, observer, keyPath, filter);
      observingContexts := Kept(observingContexts, observer, keyPath, filter);
      ghost var kept := Managed();
      assert all == kept + gone;
      PartOfSum(kept, gone, m0);
      DeregisterAll(rt, objects, dropped);
      Cancel(multiset(rt.registrations), all, m0, kept);
    }

    /** The observer behind some contexts is released: their weak
        references read `nil` from now on, and replacing the array skips
        them. */
    method ReleaseObserver(observer: ObjectId)
      requires Valid()
      modifies this
      ensures observingContexts == Released(old(observingContexts), observer)
      ensures elements == old(elements) && owner == old(owner)
      ensures Valid()
    {
      MirrorReleased(Objects(elements), observingContexts, observer);
      observingContexts := Released(observingContexts, observer);
    }

    /** The change handler of the subscription made by `Create`, given the
        owner's current value for the key: an array replaces the wrapper's
        elements; anything else, or a missing owner, is ignored. */
    method OwnerKeyChanged(current: Value)
      requires Valid()
      modifies this, rt
      ensures observingContexts == old(observingContexts) && owner == old(owner)
      ensures owner.Some? && current.Array? ==> elements == current.elements
      ensures owner.None? || !current.Array? ==> elements == old(elements) && rt.registrations == old(rt.registrations)
      ensures Valid()
      ensures multiset(rt.registrations) + old(Managed()) == old(multiset(rt.registrations)) + Managed()
      ensures rt.events == old(rt.events)
    {
      if owner.None? || !current.Array? {
        return;
      }
      SetArray(current.elements);
    }
  }

  /** Whether `removeObserver(observer, forKeyPath: keyPath)`, with the
      filter's context, asked of `r`'s target, could take `r` out. */
  predicate Removable(r: Registration, observer: ObjectId, keyPath: string, filter: ContextFilter) {
    Matches(r, r.target, ObjectRef(observer), keyPath, filter)
  }

  /** How many of the registrations on object `x` such a removal could
      take out. */
  function MatchingOn(regs: seq<Registration>, x: ObjectId, observer: ObjectId, keyPath: string,
                      filter: ContextFilter): nat
  {
    if regs == [] then 0
    else
      var r := regs[|regs| - 1];
      MatchingOn(regs[..|regs| - 1], x, observer, keyPath, filter)
        + (if r.target == x && Removable(r, observer, keyPath, filter) then 1 else 0)
  }

  /** The count over two joined lists is the sum of the counts. */
  lemma {:induction false} MatchingOnAppend(a: seq<Registration>, b: seq<Registration>, x: ObjectId, observer: ObjectId,
                                            keyPath: string, filter: ContextFilter)
    ensures MatchingOn(a + b, x, observer, keyPath, filter)
         == MatchingOn(a, x, observer, keyPath, filter) + MatchingOn(b, x, observer, keyPath, filter)
    decreases |b|
  {
    if b != [] {
      var n := |b| - 1;
      MatchingOnAppend(a, b[..n], x, observer, keyPath, filter);
      assert (a + b)[..|a + b| - 1] == a + b[..n];
      assert (a + b)[|a + b| - 1] == b[n];
    } else {
      assert a + b == a;
    }
  }

  /** Taking out the registration at `i` lowers the count on `x` by one
      exactly when that registration counts. */
  lemma MatchingOnWithout(regs: seq<Registration>, i: nat, x: ObjectId, observer: ObjectId, keyPath: string,
                          filter: ContextFilter)
    requires i < |regs|
    ensures MatchingOn(regs[..i] + regs[i + 1..], x, observer, keyPath, filter)
            + (if regs[i].target == x && Removable(regs[i], observer, keyPath, filter) then 1 else 0)
         == MatchingOn(regs, x, observer, keyPath, filter)
  {
    assert regs == regs[..i] + [regs[i]] + regs[i + 1..];
    MatchingOnAppend(regs[..i] + [regs[i]], regs[i + 1..], x, observer, keyPath, filter);
    MatchingOnAppend(regs[..i], [regs[i]], x, observer, keyPath, filter);
    MatchingOnAppend(regs[..i], regs[i + 1..], x, observer, keyPath, filter);
    assert [regs[i]][..0] == [];
  }

  /** Counting each registration in `before` and `after`: none loses more
      copies than its target occurs in `objects`, and only removable
      registrations lose any. */
  ghost predicate RemovedEach(before: multiset<Registration>, after: multiset<Registration>, objects: multiset<ObjectId>,
                              observer: ObjectId, keyPath: string, filter: ContextFilter)
  {
    forall r :: before[r] <= after[r] + if Removable(r, observer, keyPath, filter) then objects[r.target] else 0
  }

  /** No object loses more removable registrations than it occurs in
      `objects`. */
  ghost predicate RemovedPerObject(regs: seq<Registration>, rest: seq<Registration>, objects: seq<ObjectId>,
                                   observer: ObjectId, keyPath: string, filter: ContextFilter)
  {
    forall x :: MatchingOn(regs, x, observer, keyPath, filter)
                <= MatchingOn(rest, x, observer, keyPath, filter) + multiset(objects)[x]
  }

  /** `rest` is `regs` less registrations that asking each of `objects`
      once to remove one registration of `observer` for `keyPath` could
      take out: nothing is added, only removable registrations go, and no
      object loses more of them than it occurs in `objects`. */
  ghost predicate RemovedAtMostOnce(regs: seq<Registration>, rest: seq<Registration>, objects: seq<ObjectId>,
                                    observer: ObjectId, keyPath: string, filter: ContextFilter)
  {
    && multiset(rest) <= multiset(regs)
    && RemovedEach(multiset(regs), multiset(rest), multiset(objects), observer, keyPath, filter)
    && RemovedPerObject(regs, rest, objects, observer, keyPath, filter)
  }

  /** One object's removal followed by removals that keep the bound for
      the other objects keeps the bound for all of them. */
  lemma RemovedAtMostOnceStep(regs: seq<Registration>, rest: seq<Registration>, all: seq<ObjectId>,
                              observer: ObjectId, keyPath: string, filter: ContextFilter)
    requires all != []
    requires RemovedAtMostOnce(RemoveLatest(regs, all[0], ObjectRef(observer), keyPath, filter), rest, all[1..],
                               observer, keyPath, filter)
    ensures RemovedAtMostOnce(regs, rest, all, observer, keyPath, filter)
  {
    RemoveOne(regs, all[0], ObjectRef(observer), keyPath, filter);
    RemovedEachStep(regs, rest, all, observer, keyPath, filter);
    RemovedPerObjectStep(regs, rest, all, observer, keyPath, filter);
  }

  lemma RemovedEachStep(regs: seq<Registration>, rest: seq<Registration>, all: seq<ObjectId>,
                        observer: ObjectId, keyPath: string, filter: ContextFilter)
    requires all != []
    requires RemovedEach(multiset(RemoveLatest(regs, all[0], ObjectRef(observer), keyPath, filter)), multiset(rest),
                         multiset(all[1..]), observer, keyPath, filter)
    ensures RemovedEach(multiset(regs), multiset(rest), multiset(all), observer, keyPath, filter)
  {
    var o, objects := all[0], all[1..];
    var once := RemoveLatest(regs, o, ObjectRef(observer), keyPath, filter);
    assert all == [o] + objects;
    RemoveOne(regs, o, ObjectRef(observer), keyPath, filter);
    var m := LastMatch(regs, o, ObjectRef(observer), keyPath, filter);
    var gone := if m.Some? then Some(regs[m.value]) else None;
    RemovedEachOne(multiset(regs), multiset(once), multiset(rest), o, multiset(objects), gone, observer, keyPath, filter);
  }

  /** `RemovedEachStep` on multisets: `before` loses at most one removable
      registration on `o` to become `once`. */
  lemma RemovedEachOne(before: multiset<Registration>, once: multiset<Registration>, after: multiset<Registration>,
                       o: ObjectId, objects: multiset<ObjectId>, gone: Option<Registration>,
                       observer: ObjectId, keyPath: string, filter: ContextFilter)
    requires RemovedEach(once, after, objects, observer, keyPath, filter)
    requires gone.None? ==> before == once
    requires gone.Some? ==> && before == once + multiset{gone.value}
                            && gone.value.target == o && Removable(gone.value, observer, keyPath, filter)
    ensures RemovedEach(before, after, multiset{o} + objects, observer, keyPath, filter)
  {
    forall r
      ensures before[r] <= after[r] + if Removable(r, observer, keyPath, filter) then (multiset{o} + objects)[r.target] else 0
    {
      assert once[r] <= after[r] + if Removable(r, observer, keyPath, filter) then objects[r.target] else 0;
    }
  }

  lemma RemovedPerObjectStep(regs: seq<Registration>, rest: seq<Registration>, all: seq<ObjectId>,
                             observer: ObjectId, keyPath: string, filter: ContextFilter)
    requires all != []
    requires RemovedPerObject(RemoveLatest(regs, all[0], ObjectRef(observer), keyPath, filter), rest, all[1..],
                              observer, keyPath, filter)
    ensures RemovedPerObject(regs, rest, all, observer, keyPath, filter)
  {
    var o, objects := all[0], all[1..];
    var once := RemoveLatest(regs, o, ObjectRef(observer), keyPath, filter);
    assert all == [o] + objects;
    assert multiset(all) == multiset{o} + multiset(objects);
    var m := LastMatch(regs, o, ObjectRef(observer), keyPath, filter);
    if m.None? {
      assert once == regs;
      return;
    }
    var i := m.value;
    assert regs[i].target == o && Removable(regs[i], observer, keyPath, filter);
    forall x
      ensures MatchingOn(regs, x, observer, keyPath, filter)
              <= MatchingOn(rest, x, observer, keyPath, filter) + multiset(all)[x]
    {
      MatchingOnWithout(regs, i, x, observer, keyPath, filter);
    }
  }

  /** Asking each object in turn to remove one registration of `observer`
      for `keyPath`. */
  function RemoveFromEach(regs: seq<Registration>, objects: seq<ObjectId>, observer: ObjectId, keyPath: string,
                          filter: ContextFilter): (rest: seq<Registration>)
    ensures |regs| - |objects| <= |rest| <= |regs|
    ensures RemovedAtMostOnce(regs, rest, objects, observer, keyPath, filter)
    decreases |objects|
  {
    if objects == [] then regs
    else
      var once := RemoveLatest(regs, objects[0], ObjectRef(observer), keyPath, filter);
      assert |regs| - 1 <= |once| <= |regs|;
      var rest := RemoveFromEach(once, objects[1..], observer, keyPath, filter);
      RemovedAtMostOnceStep(regs, rest, objects, observer, keyPath, filter);
      rest
  }

  /** Both `removeObserver` overrides as written: every matching context
      is dropped, but each object element is asked to remove only one
      registration, whatever the number of contexts dropped. */
  function RemoveObserverAsWritten(contexts: seq<ObservingContext>, elements: seq<Element>, regs: seq<Registration>,
                                   observer: ObjectId, keyPath: string, filter: ContextFilter)
    : (after: (seq<ObservingContext>, seq<Registration>))
    ensures forall c :: c in after.0 <==> c in contexts && !Removes(c, observer, keyPath, filter)
    ensures |regs| - |Objects(elements)| <= |after.1| <= |regs|
    ensures RemovedAtMostOnce(regs, after.1, Objects(elements), observer, keyPath, filter)
  {
    KeptMembers(contexts, observer, keyPath, filter);
    (Kept(contexts, observer, keyPath, filter), RemoveFromEach(regs, Objects(elements), observer, keyPath, filter))
  }

  /** A context's registrations on `x` that the removal could take out:
      one per occurrence of `x` when the removal drops the context, none
      otherwise. */
  lemma {:induction false} MatchingOnRegs(objects: seq<ObjectId>, c: ObservingContext, x: ObjectId, observer: ObjectId,
                                          keyPath: string, filter: ContextFilter)
    ensures MatchingOn(Contribution(objects, c), x, observer, keyPath, filter)
         == if Removes(c, observer, keyPath, filter) then multiset(objects)[x] else 0
    decreases |objects|
  {
    if objects != [] && c.observer.Some? {
      var n := |objects| - 1;
      MatchingOnRegs(objects[..n], c, x, observer, keyPath, filter);
      var regs := Regs(objects, c.observer.value, c.keyPath, c.context);
      assert regs[..n] == Regs(objects[..n], c.observer.value, c.keyPath, c.context);
      assert objects == objects[..n] + [objects[n]];
    }
  }

  /** The wrapper's registrations on `x` that the removal could take out:
      one per occurrence of `x` for each context `removeAll` drops. */
  lemma {:induction false} MatchingOnMirror(objects: seq<ObjectId>, contexts: seq<ObservingContext>, x: ObjectId,
                                            observer: ObjectId, keyPath: string, filter: ContextFilter)
    ensures MatchingOn(Mirror(objects, contexts), x, observer, keyPath, filter)
         == Times(multiset(objects)[x], |Dropped(contexts, observer, keyPath, filter)|)
    decreases |contexts|
  {
    if contexts != [] {
      var n := |contexts| - 1;
      var c := contexts[n];
      MatchingOnMirror(objects, contexts[..n], x, observer, keyPath, filter);
      MatchingOnAppend(Mirror(objects, contexts[..n]), Contribution(objects, c), x, observer, keyPath, filter);
      MatchingOnRegs(objects, c, x, observer, keyPath, filter);
    }
  }

  /** The leak, for all inputs: when `removeAll` drops two or more
      contexts, every object element they were registered on keeps at
      least one registration the removal should have taken out. With `d`
      contexts dropped and `x` occurring `k` times, `k * (d - 1)` stay. */
  lemma AsWrittenLeaks(contexts: seq<ObservingContext>, elements: seq<Element>, observer: ObjectId, keyPath: string,
                       filter: ContextFilter, x: ObjectId)
    requires |Dropped(contexts, observer, keyPath, filter)| >= 2
    requires Object(x) in elements
    ensures var after := RemoveObserverAsWritten(contexts, elements, Mirror(Objects(elements), contexts),
                                                 observer, keyPath, filter);
            && (forall c | c in after.0 :: !Removes(c, observer, keyPath, filter))
            && MatchingOn(after.1, x, observer, keyPath, filter)
               >= Times(multiset(elements)[Object(x)], |Dropped(contexts, observer, keyPath, filter)| - 1)
            && MatchingOn(after.1, x, observer, keyPath, filter) > 0
  {
    var objects := Objects(elements);
    var regs := Mirror(objects, contexts);
    var after := RemoveObserverAsWritten(contexts, elements, regs, observer, keyPath, filter);
    ObjectsCount(elements, x);
    MatchingOnMirror(objects, contexts, x, observer, keyPath, filter);
    RemovedOn(regs, after.1, objects, x, observer, keyPath, filter);
    LeftOver(multiset(elements)[Object(x)], |Dropped(contexts, observer, keyPath, filter)|,
             MatchingOn(after.1, x, observer, keyPath, filter));
  }

  /** The per-object part of `RemovedAtMostOnce`, for one object. */
  lemma RemovedOn(regs: seq<Registration>, rest: seq<Registration>, objects: seq<ObjectId>, x: ObjectId,
                  observer: ObjectId, keyPath: string, filter: ContextFilter)
    requires RemovedAtMostOnce(regs, rest, objects, observer, keyPath, filter)
    ensures MatchingOn(regs, x, observer, keyPath, filter)
            <= MatchingOn(rest, x, observer, keyPath, filter) + multiset(objects)[x]
  {
  }

  /** `k * n` as `n` repeated additions of `k` (see `TimesIsProduct`), so
      that counting proofs stay within linear arithmetic. */
  function Times(k: nat, n: nat): nat {
    if n == 0 then 0 else Times(k, n - 1) + k
  }

  lemma {:induction false} TimesIsProduct(k: nat, n: nat)
    ensures Times(k, n) == k * n
  {
    if n > 0 {
      TimesIsProduct(k, n - 1);
      MulSucc(k, n - 1);
    }
  }

  /** `k * d` less at most `k` leaves `k * (d - 1)`, which is positive for
      `k >= 1` and `d >= 2`. */
  lemma LeftOver(k: nat, d: nat, left: nat)
    requires d >= 2 && Times(k, d) <= left + k
    ensures left >= Times(k, d - 1)
    ensures k >= 1 ==> left > 0
  {
    assert Times(k, d - 1) == Times(k, d - 2) + k;
  }

  /** Two contexts of observer 1 on "p" with different context pointers
      over one element: the context-less removal forgets both contexts but
      removes only one of the two registrations, so the element still
      notifies observer 1, and no later array change removes it. */
  lemma RemoveObserverAsWrittenLeaks()
    ensures var contexts := [ObservingContext(Some(1), "p", Some({}), Some(1)),
                             ObservingContext(Some(1), "p", Some({}), Some(2))];
            var regs := Mirror([7], contexts);
            var after := RemoveObserverAsWritten(contexts, [Object(7)], regs, 1, "p", AnyContext);
            && regs == [Registration(7, ObjectRef(1), "p", Some(1)), Registration(7, ObjectRef(1), "p", Some(2))]
            && after.0 == [] && Mirror([7], after.0) == []
            && after.1 == [Registration(7, ObjectRef(1), "p", Some(1))]
  {
    var c1 := ObservingContext(Some(1), "p", Some({}), Some(1));
    var c2 := ObservingContext(Some(1), "p", Some({}), Some(2));
    var r1 := Registration(7, ObjectRef(1), "p", Some(1));
    var r2 := Registration(7, ObjectRef(1), "p", Some(2));
    assert [c1, c2][..1] == [c1];
    assert Mirror([7], [c1]) == [r1];
    assert Mirror([7], [c1, c2]) == [r1, r2];
    assert Objects([Object(7)]) == [7];
    assert Kept([c1], 1, "p", AnyContext) == [];
    assert Kept([c1, c2], 1, "p", AnyContext) == [];
    assert RemoveLatest([r1, r2], 7, ObjectRef(1), "p", AnyContext) == [r1];
    assert RemoveFromEach([r1, r2], [7], 1, "p", AnyContext) == [r1];
  }

  /** The same observer added twice with the same context pointer: the
      context-taking removal forgets both contexts but removes one of the
      two identical registrations. */
  lemma RemoveObserverWithContextAsWrittenLeaks()
    ensures var c := ObservingContext(Some(1), "p", Some({}), Some(3));
            var regs := Mirror([7], [c, c]);
            var after := RemoveObserverAsWritten([c, c], [Object(7)], regs, 1, "p", ExactContext(Some(3)));
            && after.0 == [] && Mirror([7], after.0) == []
            && after.1 == [Registration(7, ObjectRef(1), "p", Some(3))]
  {
    var c := ObservingContext(Some(1), "p", Some({}), Some(3));
    var r := Registration(7, ObjectRef(1), "p", Some(3));
    assert [c, c][..1] == [c];
    assert Mirror([7], [c]) == [r];
    assert Mirror([7], [c, c]) == [r, r];
    assert Objects([Object(7)]) == [7];
    assert Kept([c], 1, "p", ExactContext(Some(3))) == [];
    assert Kept([c, c], 1, "p", ExactContext(Some(3))) == [];
    assert RemoveLatest([r, r], 7, ObjectRef(1), "p", ExactContext(Some(3))) == [r];
    assert RemoveFromEach([r, r], [7], 1, "p", ExactContext(Some(3))) == [r];
  }
}
