/** The computed-property wrappers of PropertyWrappers.swift. `Computed`
    recomputes from the whole owner and rate-limits its notifications with
    one coalescing timer; `Computed1/2/3` recompute from one to three key
    paths and notify on every upstream change. Time is an integer clock;
    a timer fires no earlier than its fire date. */
module Computing {
  import opened Basics
  import opened Kvo
  import opened KeyPaths
  import opened Observing

  /** The timing state of a `Computed`: `lastUpdate` (a lazy property,
      `None` until first read) and the fire date of `updateTimer` (`None`
      while no timer is scheduled). */
  datatype Debounce = Debounce(lastUpdate: Option<int>, timer: Option<int>)

  /** What reaches the timing logic: an upstream change, or the clock
      reaching `at` (when a due timer fires). */
  datatype Input = Change(at: int) | Tick(at: int)

  /** A scheduled timer is always due `changeRate` after `lastUpdate`. */
  ghost predicate Consistent(d: Debounce, rate: nat) {
    d.timer.Some? ==> d.lastUpdate.Some? && d.timer.value == d.lastUpdate.value + rate
  }

  /** Every two emission times are at least `rate` apart. */
  ghost predicate Spaced(times: seq<int>, rate: nat) {
    forall i, j | 0 <= i < j < |times| :: times[i] + rate <= times[j]
  }

  /** `sendNotifications()`: with an owner key path, notify and stamp
      `lastUpdate`; without one, do nothing at all. */
  function Send(d: Debounce, keyed: bool, now: int): (r: (Debounce, Option<int>))
    ensures keyed ==> r == (d.(lastUpdate := Some(now)), Some(now))
    ensures !keyed ==> r == (d, None)
  {
    if keyed then (d.(lastUpdate := Some(now)), Some(now)) else (d, None)
  }

  /** One reaction of a `Computed` to an input: the new timing state and the
      time of the notification it sends, if any. */
  function Step(d: Debounce, rate: nat, keyed: bool, input: Input): (r: (Debounce, Option<int>))
    requires Consistent(d, rate)
    ensures Consistent(r.0, rate)
    ensures r.1.Some? ==> keyed && r.1.value == input.at && r.0 == Debounce(Some(input.at), None)
    ensures r.1.Some? && d.lastUpdate.Some? ==> d.lastUpdate.value + rate <= input.at
    ensures r.1.None? && d.lastUpdate.Some? ==> r.0.lastUpdate == d.lastUpdate
    ensures input.Change? && d.timer.Some? ==> r == (d, None)
    ensures input.Change? && d.timer.None? ==>
      var last := d.lastUpdate.GetOr(input.at - 2 * rate);
      && (keyed && input.at - last >= rate ==> r.1 == Some(input.at))
      && (input.at - last < rate ==> r.1.None? && r.0 == Debounce(Some(last), Some(last + rate)))
    ensures input.Tick? && (d.timer.None? || input.at < d.timer.value) ==> r == (d, None)
    ensures input.Tick? && d.timer.Some? && d.timer.value <= input.at ==>
      r.0.timer.None? && r.1 == (if keyed then Some(input.at) else None)
  {
    match input
    case Change(now) =>
      if d.timer.Some? then (d, None)
      else
        var last := d.lastUpdate.GetOr(now - 2 * rate);
        var elapsed := now - last;
        if elapsed < rate then (Debounce(Some(last), Some(now + (rate - elapsed))), None)
        else Send(Debounce(Some(last), None), keyed, now)
    case Tick(now) =>
      if d.timer.Some? && d.timer.value <= now then Send(d.(timer := None), keyed, now)
      else (d, None)
  }

  /** The first change a `Computed` sees is announced at once: the lazy
      `lastUpdate` starts `2 * changeRate` in the past. */
  lemma FirstChangeNotifies(rate: nat, t: int)
    ensures Step(Debounce(None, None), rate, true, Change(t)).1 == Some(t)
  {
  }

  /** No change is lost: a change at `t` followed by the clock reaching
      `u >= t + changeRate` yields exactly one notification, no earlier
      than the change and no later than `u`, whether it is sent at once,
      by a timer the change schedules or by one already pending. */
  lemma {:induction false} ChangeNotDropped(d: Debounce, rate: nat, t: int, u: int)
    requires Consistent(d, rate)
    requires d.lastUpdate.None? || d.lastUpdate.value <= t
    requires t + rate <= u
    ensures var sent := Run(d, rate, true, [Change(t), Tick(u)]).1;
            |sent| == 1 && t <= sent[0] <= u
  {
    var s: seq<Input> := [Change(t), Tick(u)];
    var (d1, first) := Step(d, rate, true, Change(t));
    var (d2, second) := Step(d1, rate, true, Tick(u));
    assert Run(d2, rate, true, s[2..]) == (d2, []);
    RunDrop(d1, rate, true, s, 1);
    RunDrop(d, rate, true, s, 0);
    assert s[0..] == s;
    if first.Some? {
      assert d1.timer.None?;
      assert second.None?;
    } else {
      assert d1.timer.Some? && d1.timer.value <= u;
      assert second == Some(u);
    }
  }

  /** Feeding a sequence of inputs: the final timing state and the times
      of the notifications sent, in order. */
  function Run(d: Debounce, rate: nat, keyed: bool, inputs: seq<Input>): (r: (Debounce, seq<int>))
    requires Consistent(d, rate)
    ensures Consistent(r.0, rate)
    ensures |r.1| <= |inputs|
    decreases |inputs|
  {
    if inputs == [] then (d, [])
    else
      var step := Step(d, rate, keyed, inputs[0]);
      var rest := Run(step.0, rate, keyed, inputs[1..]);
      (rest.0, Times(step.1) + rest.1)
  }

  /** The times a step's optional notification contributes. */
  function Times(note: Option<int>): (times: seq<int>)
    ensures note.Some? ==> times == [note.value]
    ensures note.None? ==> times == []
  {
    if note.Some? then [note.value] else []
  }

  /** Running `xs + [x]` is running `xs` then stepping on `x`. */
  lemma {:induction false} RunAppend(d: Debounce, rate: nat, keyed: bool, xs: seq<Input>, x: Input)
    requires Consistent(d, rate)
    ensures Run(d, rate, keyed, xs + [x]).0 == Step(Run(d, rate, keyed, xs).0, rate, keyed, x).0
    ensures Run(d, rate, keyed, xs + [x]).1
            == Run(d, rate, keyed, xs).1 + Times(Step(Run(d, rate, keyed, xs).0, rate, keyed, x).1)
    decreases |xs|
  {
    if xs == [] {
      assert [x][1..] == [];
      assert Times(Step(d, rate, keyed, x).1) + [] == Times(Step(d, rate, keyed, x).1);
      assert Run(d, rate, keyed, [x]) == (Step(d, rate, keyed, x).0, Times(Step(d, rate, keyed, x).1));
    } else {
      assert (xs + [x])[0] == xs[0];
      assert (xs + [x])[1..] == xs[1..] + [x];
      var step := Step(d, rate, keyed, xs[0]);
      RunAppend(step.0, rate, keyed, xs[1..], x);
      var whole := Run(d, rate, keyed, xs + [x]);
      var tail := Run(step.0, rate, keyed, xs[1..] + [x]);
      assert whole == (tail.0, Times(step.1) + tail.1);
      assert Run(d, rate, keyed, xs) == (Run(step.0, rate, keyed, xs[1..]).0, Times(step.1) + Run(step.0, rate, keyed, xs[1..]).1);
    }
  }

  /** The debounce guarantee: whatever the inputs, notifications are at
      least `changeRate` apart, and the first comes at least `changeRate`
      after the previous stamp. */
  lemma {:induction false} RunSpaced(d: Debounce, rate: nat, keyed: bool, inputs: seq<Input>)
    requires Consistent(d, rate)
    ensures Spaced(Run(d, rate, keyed, inputs).1, rate)
    ensures d.lastUpdate.Some? ==> forall t | t in Run(d, rate, keyed, inputs).1 :: d.lastUpdate.value + rate <= t
    decreases |inputs|
  {
    if inputs != [] {
      var (d1, sent) := Step(d, rate, keyed, inputs[0]);
      var later := Run(d1, rate, keyed, inputs[1..]).1;
      RunSpaced(d1, rate, keyed, inputs[1..]);
      var all := Run(d, rate, keyed, inputs).1;
      if sent.Some? {
        assert all == [sent.value] + later;
        assert forall t | t in later :: sent.value + rate <= t;
        forall i, j | 0 <= i < j < |all| ensures all[i] + rate <= all[j] {
          if i > 0 {
            assert all[i] == later[i - 1] && all[j] == later[j - 1];
          } else {
            assert all[j] in later;
          }
        }
      } else {
        assert all == later;
      }
    }
  }

  /** Changes at `t`, `t + 30`, `t + 60` and `t + 90` with a rate of 100,
      the clock reaching `t + 100`, a change at `t + 150` and the clock
      reaching `t + 200`: the first change notifies at once, the next three
      coalesce into the timer that fires at `t + 100`, and the change at
      `t + 150` is delivered by a timer at `t + 200`. */
  lemma BurstScenario(t: int)
    ensures Run(Debounce(None, None), 100, true,
                [Change(t), Change(t + 30), Change(t + 60), Change(t + 90), Tick(t + 100), Change(t + 150), Tick(t + 200)]).1
            == [t, t + 100, t + 200]
  {
    var s: seq<Input> := [Change(t), Change(t + 30), Change(t + 60), Change(t + 90), Tick(t + 100), Change(t + 150), Tick(t + 200)];
    var d0, d1, d2 := Debounce(None, None), Debounce(Some(t), None), Debounce(Some(t), Some(t + 100));
    var timers := [t + 100, t + 200];
    BurstTimers(t, s);
    assert [] + timers == timers;
    assert Step(d2, 100, true, Change(t + 90)) == (d2, None);
    RunDrop(d2, 100, true, s, 3);
    assert Run(d2, 100, true, s[3..]).1 == timers;
    assert Step(d2, 100, true, Change(t + 60)) == (d2, None);
    RunDrop(d2, 100, true, s, 2);
    assert Run(d2, 100, true, s[2..]).1 == timers;
    assert Step(d1, 100, true, Change(t + 30)) == (d2, None);
    RunDrop(d1, 100, true, s, 1);
    assert Run(d1, 100, true, s[1..]).1 == timers;
    assert Step(d0, 100, true, Change(t)) == (d1, Some(t));
    RunDrop(d0, 100, true, s, 0);
    assert Run(d0, 100, true, s[0..]).1 == [t] + timers;
    assert s[0..] == s;
    assert [t] + timers == [t, t + 100, t + 200];
    assert Run(d0, 100, true, s).1 == [t, t + 100, t + 200];
  }

  /** The end of `BurstScenario`, from the pending timer on: it fires at
      `t + 100`, the change at `t + 150` schedules the next for
      `t + 200`, and that one fires too. */
  lemma BurstTimers(t: int, s: seq<Input>)
    requires |s| == 7 && s[4] == Tick(t + 100) && s[5] == Change(t + 150) && s[6] == Tick(t + 200)
    ensures Run(Debounce(Some(t), Some(t + 100)), 100, true, s[4..]) == (Debounce(Some(t + 200), None), [t + 100, t + 200])
  {
    var d2, d3 := Debounce(Some(t), Some(t + 100)), Debounce(Some(t + 100), None);
    var d4, d5 := Debounce(Some(t + 100), Some(t + 200)), Debounce(Some(t + 200), None);
    assert Run(d5, 100, true, s[7..]) == (d5, []);
    assert Step(d4, 100, true, Tick(t + 200)) == (d5, Some(t + 200));
    RunDrop(d4, 100, true, s, 6);
    assert [t + 200] + [] == [t + 200];
    assert Run(d4, 100, true, s[6..]) == (d5, [t + 200]);
    assert Step(d3, 100, true, Change(t + 150)) == (d4, None);
    RunDrop(d3, 100, true, s, 5);
    assert [] + [t + 200] == [t + 200];
    assert Run(d3, 100, true, s[5..]) == (d5, [t + 200]);
    assert Step(d2, 100, true, Tick(t + 100)) == (d3, Some(t + 100));
    RunDrop(d2, 100, true, s, 4);
    assert [t + 100] + [t + 200] == [t + 100, t + 200];
  }

  /** Running from position `k` is stepping on the input there, then
      running from `k + 1`. */
  lemma RunDrop(d: Debounce, rate: nat, keyed: bool, inputs: seq<Input>, k: nat)
    requires Consistent(d, rate) && k < |inputs|
    ensures var step := Step(d, rate, keyed, inputs[k]);
            var rest := Run(step.0, rate, keyed, inputs[k + 1..]);
            Run(d, rate, keyed, inputs[k..]) == (rest.0, Times(step.1) + rest.1)
  {
    assert inputs[k..][0] == inputs[k] && inputs[k..][1..] == inputs[k + 1..];
  }

  /** `n` upstream changes at the same instant, as the `.initial`
      deliveries of binding produce. */
  function ChangesAt(now: int, n: nat): (inputs: seq<Input>)
    ensures |inputs| == n && forall i | 0 <= i < n :: inputs[i] == Change(now)
  {
    seq(n, _ => Change(now))
  }

  /** One more simultaneous change is one more `Step` after the others. */
  lemma RunChangesAtStep(d0: Debounce, rate: nat, keyed: bool, now: int, i: nat)
    requires Consistent(d0, rate)
    ensures var run := Run(d0, rate, keyed, ChangesAt(now, i));
            var step := Step(run.0, rate, keyed, Change(now));
            Run(d0, rate, keyed, ChangesAt(now, i + 1)) == (step.0, run.1 + Times(step.1))
  {
    RunAppend(d0, rate, keyed, ChangesAt(now, i), Change(now));
    assert ChangesAt(now, i + 1) == ChangesAt(now, i) + [Change(now)];
  }

  /** `n` notification pairs for `key` of `owner`; none when there is no
      key path to announce under. */
  function Notifications(owner: ObjectId, key: Option<string>, n: nat): (events: seq<Event>)
    ensures key.None? ==> events == []
    ensures key.Some? ==> |events| == 2 * n
  {
    if key.None? || n == 0 then []
    else Notifications(owner, key, n - 1) + [WillChange(owner, key.value), DidChange(owner, key.value)]
  }

  /** Notification pairs accumulate: `n` pairs followed by `m` more are
      `n + m` pairs. */
  lemma {:induction false} NotificationsAdd(owner: ObjectId, key: Option<string>, n: nat, m: nat)
    ensures Notifications(owner, key, n) + Notifications(owner, key, m) == Notifications(owner, key, n + m)
    decreases m
  {
    if key.Some? && m > 0 {
      NotificationsAdd(owner, key, n, m - 1);
      var pair := [WillChange(owner, key.value), DidChange(owner, key.value)];
      assert Notifications(owner, key, m) == Notifications(owner, key, m - 1) + pair;
      assert Notifications(owner, key, n + m) == Notifications(owner, key, n + m - 1) + pair;
    }
  }

  /** The pairs alternate: every even position announces the change to
      come, the odd one after it that the change is done. */
  lemma {:induction false} NotificationsAlternate(owner: ObjectId, key: string, n: nat)
    ensures forall i | 0 <= i < |Notifications(owner, Some(key), n)| ::
      Notifications(owner, Some(key), n)[i] == if i % 2 == 0 then WillChange(owner, key) else DidChange(owner, key)
  {
    if n > 0 {
      NotificationsAlternate(owner, key, n - 1);
    }
  }

  /** The bookkeeping of one `.initial` delivery during binding: with
      `before` reached by `i` simultaneous changes and the delivery acting
      as one more, the run, the notifications sent and the event log all
      extend by that step. */
  lemma BindStep(d0: Debounce, rate: nat, keyPath: Option<string>, now: int, i: nat, before: Debounce, times: seq<int>,
                 owner: ObjectId, sent0: seq<int>, sentMid: seq<int>, sentAfter: seq<int>,
                 events0: seq<Event>, eventsMid: seq<Event>, eventsAfter: seq<Event>, after: Debounce)
    requires Consistent(d0, rate)
    requires Run(d0, rate, keyPath.Some?, ChangesAt(now, i)) == (before, times)
    requires sentMid == sent0 + times
    requires eventsMid == events0 + Notifications(owner, keyPath, |times|)
    requires after == Step(before, rate, keyPath.Some?, Change(now)).0
    requires sentAfter == sentMid + Times(Step(before, rate, keyPath.Some?, Change(now)).1)
    requires eventsAfter == eventsMid + Notifications(owner, keyPath, |sentAfter| - |sentMid|)
    ensures var times' := times + Times(Step(before, rate, keyPath.Some?, Change(now)).1);
            && Run(d0, rate, keyPath.Some?, ChangesAt(now, i + 1)) == (after, times')
            && sentAfter == sent0 + times'
            && eventsAfter == events0 + Notifications(owner, keyPath, |times'|)
  {
    RunChangesAtStep(d0, rate, keyPath.Some?, now, i);
    SentStep(owner, keyPath, times, Times(Step(before, rate, keyPath.Some?, Change(now)).1),
             sent0, sentMid, sentAfter, events0, eventsMid, eventsAfter);
  }

  /** The sent times and the event log grow together: each time sent adds
      one notification pair. */
  lemma SentStep(owner: ObjectId, keyPath: Option<string>, times: seq<int>, extra: seq<int>,
                 sent0: seq<int>, sentMid: seq<int>, sentAfter: seq<int>,
                 events0: seq<Event>, eventsMid: seq<Event>, eventsAfter: seq<Event>)
    requires sentMid == sent0 + times && sentAfter == sentMid + extra
    requires eventsMid == events0 + Notifications(owner, keyPath, |times|)
    requires eventsAfter == eventsMid + Notifications(owner, keyPath, |sentAfter| - |sentMid|)
    ensures sentAfter == sent0 + (times + extra)
    ensures eventsAfter == events0 + Notifications(owner, keyPath, |times + extra|)
  {
    assert sentAfter == sent0 + (times + extra);
    NotificationsAdd(owner, keyPath, |times|, |extra|);
    assert |times + extra| == |times| + |extra|;
  }

  /** The registry's tables, keyed by holder and slot. */
  type Tables = map<TableKey, map<string, KeyValueObserver>>

  /** The tables are those `before`, except perhaps for the one at `key`,
      which is then present. */
  ghost predicate OtherTablesUnchanged(tables: Tables, before: Tables, key: TableKey) {
    tables == before || (key in tables && tables == before[key := tables[key]])
  }

  /** A registration made through a `KeyValueObserver` handle: on
      `subject`, for `path`, with no context. */
  predicate HandleSubscription(r: Registration, subject: ObjectId, path: string) {
    r.target == subject && r.observer.HandleRef? && r.path == path && r.context == None
  }

  /** The `j`th registration is the handle registration for the `j`th
      path. */
  predicate SubscribedAt(added: seq<Registration>, subject: ObjectId, paths: seq<string>, j: int) {
    0 <= j < |added| && j < |paths| && HandleSubscription(added[j], subject, paths[j])
  }

  /** One handle registration on `subject` per path, in the order of the
      paths. */
  predicate Subscriptions(added: seq<Registration>, subject: ObjectId, paths: seq<string>) {
    && |added| == |paths|
    && forall j | 0 <= j < |added| :: SubscribedAt(added, subject, paths, j)
  }

  /** Registrations made after `regs0`: one more handle registration for
      `p` extends those made for `paths`. */
  lemma SubscriptionsSnoc(regs0: seq<Registration>, added: seq<Registration>, regs': seq<Registration>,
                          subject: ObjectId, paths: seq<string>, p: string)
    requires Subscriptions(added, subject, paths)
    requires |regs'| == |regs0 + added| + 1 && regs'[..|regs0 + added|] == regs0 + added
    requires HandleSubscription(regs'[|regs0 + added|], subject, p)
    ensures regs' == regs0 + (added + [regs'[|regs0 + added|]])
    ensures Subscriptions(added + [regs'[|regs0 + added|]], subject, paths + [p])
  {
    var r := regs'[|regs0 + added|];
    assert regs' == regs'[..|regs0 + added|] + [r];
    forall j | 0 <= j < |added| + 1
      ensures SubscribedAt(added + [r], subject, paths + [p], j)
    {
      if j < |added| {
        assert SubscribedAt(added, subject, paths, j);
      }
    }
  }

  /** The registrations after `regs0` and `added` are `added`, with
      `regs0` in front. */
  lemma AddedSplit(regs0: seq<Registration>, added: seq<Registration>)
    ensures (regs0 + added)[..|regs0|] == regs0 && (regs0 + added)[|regs0|..] == added
  {
  }

  /** Leaving the other tables alone twice leaves them alone. */
  lemma OtherTablesTrans(t0: Tables, t1: Tables, t2: Tables, key: TableKey)
    requires OtherTablesUnchanged(t1, t0, key) && OtherTablesUnchanged(t2, t1, key)
    ensures OtherTablesUnchanged(t2, t0, key)
  {
  }

  /** No key path repeats, and none is already taken. */
  predicate FreshPaths(paths: seq<string>, taken: set<string>) {
    && (forall i | 0 <= i < |paths| :: paths[i] !in taken)
    && (forall i, j | 0 <= i < j < |paths| :: paths[i] != paths[j])
  }

  function PathSet(paths: seq<string>): (s: set<string>)
    ensures forall p :: p in s <==> p in paths
  {
    set p | p in paths
  }

  /** Subscribing the paths one at a time: the next path either clashes
      with one already taken or subscribed, so the extended list is not
      fresh, or it extends the fresh prefix. */
  lemma FreshPathsExtend(paths: seq<string>, p: string, taken: set<string>)
    requires FreshPaths(paths, taken)
    ensures p in taken + PathSet(paths) ==> !FreshPaths(paths + [p], taken)
    ensures p !in taken + PathSet(paths) ==> FreshPaths(paths + [p], taken)
    ensures PathSet(paths + [p]) == PathSet(paths) + {p}
  {
    var all := paths + [p];
    assert all[|paths|] == p;
    if p in PathSet(paths) {
      var j :| 0 <= j < |paths| && paths[j] == p;
      assert all[j] == all[|paths|];
    }
  }

  /** Binding's view of `FreshPathsExtend`: the next path `paths[i]`
      either makes the whole list stale or extends the fresh prefix. */
  lemma FreshPathsStep(paths: seq<string>, i: nat, taken: set<string>)
    requires i < |paths| && FreshPaths(paths[..i], taken)
    ensures paths[i] in taken + PathSet(paths[..i]) ==> !FreshPaths(paths, taken)
    ensures paths[i] !in taken + PathSet(paths[..i]) ==> FreshPaths(paths[..i + 1], taken)
    ensures PathSet(paths[..i + 1]) == PathSet(paths[..i]) + {paths[i]}
    ensures paths[..i + 1] == paths[..i] + [paths[i]]
  {
    assert paths[..i + 1] == paths[..i] + [paths[i]];
    assert paths == paths[..i + 1] + paths[i + 1..];
    FreshPathsExtend(paths[..i], paths[i], taken);
    FreshPathsPrefix(paths[..i + 1], paths[i + 1..], taken);
  }

  /** A list is fresh only if each of its prefixes is. */
  lemma FreshPathsPrefix(paths: seq<string>, rest: seq<string>, taken: set<string>)
    ensures FreshPaths(paths + rest, taken) ==> FreshPaths(paths, taken)
  {
    var all := paths + rest;
    if FreshPaths(all, taken) {
      forall i, j | 0 <= i < j < |paths| ensures paths[i] != paths[j] {
        assert all[i] != all[j];
      }
      forall i | 0 <= i < |paths| ensures paths[i] !in taken {
        assert all[i] !in taken;
      }
    }
  }

  /** `Computed`: a value computed from the whole owner, re-announced under
      the owner's key path at most once per `changeRate`. */
  class Computed<T> {
    const id: ObjectId
    const affectings: seq<string>
    const block: map<string, Value> -> T
    const changeRate: nat
    const rt: Runtime
    var owner: Option<ObjectId>
    var ownerKeypath: Option<string>
    var storedValue: Option<T>
    var lastUpdate: Option<int>
    var updateTimer: Option<int>
    /** The times of every notification sent so far. */
    ghost var sent: seq<int>

    ghost predicate Valid()
      reads this
    {
      && Consistent(Timing(), changeRate)
      && Spaced(sent, changeRate)
      && (sent != [] ==> lastUpdate == Some(sent[|sent| - 1]))
    }

    function Timing(): Debounce
      reads this
    {
      Debounce(lastUpdate, updateTimer)
    }

    /** `init(_:_:changeRate:_:)` */
    constructor (id: ObjectId, block: map<string, Value> -> T, changeRate: nat, affectings: seq<string>, rt: Runtime)
      ensures Valid() && sent == []
      ensures this.id == id && this.block == block && this.changeRate == changeRate
      ensures this.affectings == affectings && this.rt == rt
      ensures owner.None? && ownerKeypath.None? && storedValue.None? && Timing() == Debounce(None, None)
    {
      this.id := id;
      this.block := block;
      this.changeRate := changeRate;
      this.affectings := affectings;
      this.rt := rt;
      owner := None;
      ownerKeypath := None;
      storedValue := None;
      lastUpdate := None;
      updateTimer := None;
      sent := [];
    }

    /** `wrappedValue`: the cached value, or the block evaluated now when
        nothing is cached (the unwrapped owner must exist then). */
    function Read(state: map<string, Value>): (v: T)
      reads this
      requires storedValue.Some? || owner.Some?
      ensures storedValue.Some? ==> v == storedValue.value
      ensures storedValue.None? ==> v == block(state)
    {
      if storedValue.Some? then storedValue.value else block(state)
    }

    /** `sendNotifications()`, reached only while no timer is pending. */
    method SendNotifications(now: int, state: map<string, Value>)
      requires Valid() && owner.Some? && updateTimer.None?
      requires lastUpdate.Some? ==> lastUpdate.value + changeRate <= now
      modifies this, rt
      ensures Valid() && owner == old(owner) && ownerKeypath == old(ownerKeypath)
      ensures rt.registrations == old(rt.registrations)
      ensures (Timing(), if sent == old(sent) then None else Some(now)) == Send(old(Timing()), ownerKeypath.Some?, now)
      ensures sent == old(sent) + Times(if ownerKeypath.Some? then Some(now) else None)
      ensures storedValue == if sent == old(sent) then old(storedValue) else Some(block(state))
      ensures rt.events == old(rt.events) + Notifications(owner.value, ownerKeypath, |sent| - |old(sent)|)
    {
      if ownerKeypath.None? {
        return;
      }
      rt.WillChangeValue(owner.value, ownerKeypath.value);
      storedValue := Some(block(state));
      rt.DidChangeValue(owner.value, ownerKeypath.value);
      lastUpdate := Some(now);
      sent := sent + [now];
    }

    /** The change handler each upstream subscription runs. */
    method UpstreamChanged(now: int, state: map<string, Value>)
      requires Valid() && owner.Some?
      modifies this, rt
      ensures Valid() && owner == old(owner) && ownerKeypath == old(ownerKeypath)
      ensures rt.registrations == old(rt.registrations)
      ensures var step := Step(old(Timing()), changeRate, ownerKeypath.Some?, Change(now));
        Timing() == step.0 && sent == old(sent) + Times(step.1)
      ensures storedValue == if sent == old(sent) then old(storedValue) else Some(block(state))
      ensures rt.events == old(rt.events) + Notifications(owner.value, ownerKeypath, |sent| - |old(sent)|)
    {
      if updateTimer.Some? {
        return;
      }
      if lastUpdate.None? {
        lastUpdate := Some(now - 2 * changeRate);
      }
      var elapsed := now - lastUpdate.value;
      if elapsed < changeRate {
        updateTimer := Some(now + (changeRate - elapsed));
      } else {
        SendNotifications(now, state);
      }
    }

    /** The block of `updateTimer`, run when the clock reaches its fire
        date: clear the timer, then notify with the value recomputed from
        the owner as it is now. */
    method TimerFired(now: int, state: map<string, Value>)
      requires Valid() && owner.Some?
      requires updateTimer.Some? && updateTimer.value <= now
      modifies this, rt
      ensures Valid() && owner == old(owner) && ownerKeypath == old(ownerKeypath)
      ensures rt.registrations == old(rt.registrations)
      ensures var step := Step(old(Timing()), changeRate, ownerKeypath.Some?, Tick(now));
        Timing() == step.0 && sent == old(sent) + Times(step.1)
      ensures storedValue == if sent == old(sent) then old(storedValue) else Some(block(state))
      ensures rt.events == old(rt.events) + Notifications(owner.value, ownerKeypath, |sent| - |old(sent)|)
    {
      updateTimer := None;
      SendNotifications(now, state);
    }

    /** One upstream subscription made while binding: register `path` of
        the owner, owned by this wrapper, with `.initial`, whose immediate
        delivery runs the change handler. Reports whether the registry
        already held `path` for this owner and wrapper. Only this wrapper's
        table for the owner changes. */
    method Subscribe(path: string, now: int, state: map<string, Value>,
                     registry: ObserverRegistry, handler: HandlerId) returns (duplicate: bool)
      requires Valid() && registry.Valid() && registry.rt == rt && owner.Some?
      modifies this, registry, rt
      ensures Valid() && registry.Valid() && registry.rt == rt
      ensures owner == old(owner) && ownerKeypath == old(ownerKeypath)
      ensures duplicate <==> path in old(registry.HeldPaths(id, owner.value))
      ensures OtherTablesUnchanged(registry.tables, old(registry.tables), TableKey(id, SubjectSlot(owner.value)))
      ensures duplicate ==>
        && registry.tables == old(registry.tables) && rt.registrations == old(rt.registrations)
        && rt.events == old(rt.events) && Timing() == old(Timing()) && sent == old(sent)
      ensures !duplicate ==> registry.HeldPaths(id, owner.value) == old(registry.HeldPaths(id, owner.value)) + {path}
      ensures !duplicate ==>
        && |rt.registrations| == |old(rt.registrations)| + 1
        && rt.registrations[..|old(rt.registrations)|] == old(rt.registrations)
        && HandleSubscription(rt.registrations[|old(rt.registrations)|], owner.value, path)
      ensures !duplicate ==>
        var step := Step(old(Timing()), changeRate, ownerKeypath.Some?, Change(now));
        && Timing() == step.0 && sent == old(sent) + Times(step.1)
        && storedValue == (if sent == old(sent) then old(storedValue) else Some(block(state)))
        && rt.events == old(rt.events) + Notifications(owner.value, ownerKeypath, |sent| - |old(sent)|)
    {
      var s := registry.StartObserving(owner.value, Some(path), Some(id), {Initial}, handler);
      duplicate := s.DuplicateOwnedPath?;
      if !duplicate {
        UpstreamChanged(now, state);
      }
    }

    /** What binding leaves alone: the registrations made before it, and
        every table but this wrapper's for the owner. */
    ghost predicate Framed(registry: ObserverRegistry, regs0: seq<Registration>, tables0: Tables)
      reads this, registry, rt
    {
      && owner.Some?
      && |regs0| <= |rt.registrations| && rt.registrations[..|regs0|] == regs0
      && OtherTablesUnchanged(registry.tables, tables0, TableKey(id, SubjectSlot(owner.value)))
    }

    /** Binding at `now` has subscribed the first `i` upstream paths of the
        owner, announced under `keyPath`: `taken` are the paths the
        registry held for them before, `d0`, `sent0`, `events0`, `regs0`
        and `tables0` the timing, notifications, events, registrations
        and tables before, `added` the registrations made since and
        `times` the notifications the `.initial` deliveries have sent
        since. */
    ghost predicate Bound(i: nat, registry: ObserverRegistry, keyPath: Option<string>, now: int,
                          state: map<string, Value>, taken: set<string>, d0: Debounce, sent0: seq<int>,
                          events0: seq<Event>, regs0: seq<Registration>, tables0: Tables,
                          added: seq<Registration>, times: seq<int>)
      reads this, registry, rt
    {
      && i <= |affectings|
      && Valid() && registry.Valid() && registry.rt == rt
      && owner.Some? && ownerKeypath == keyPath
      && Consistent(d0, changeRate)
      && FreshPaths(affectings[..i], taken)
      && storedValue == Some(block(state))
      && Run(d0, changeRate, keyPath.Some?, ChangesAt(now, i)) == (Timing(), times)
      && sent == sent0 + times
      && rt.events == events0 + Notifications(owner.value, keyPath, |times|)
      && registry.HeldPaths(id, owner.value) == taken + PathSet(affectings[..i])
      && rt.registrations == regs0 + added
      && Subscriptions(added, owner.value, affectings[..i])
      && OtherTablesUnchanged(registry.tables, tables0, TableKey(id, SubjectSlot(owner.value)))
    }

    /** One round of binding: subscribe the next upstream path, or report
        that the registry would refuse it as a duplicate. */
    method BindNext(i: nat, registry: ObserverRegistry, now: int, state: map<string, Value>, handler: HandlerId,
                    ghost keyPath: Option<string>, ghost taken: set<string>, ghost d0: Debounce,
                    ghost sent0: seq<int>, ghost events0: seq<Event>, ghost regs0: seq<Registration>,
                    ghost tables0: Tables, ghost added: seq<Registration>, ghost times: seq<int>)
      returns (duplicate: bool, ghost added': seq<Registration>, ghost times': seq<int>)
      requires i < |affectings|
      requires Bound(i, registry, keyPath, now, state, taken, d0, sent0, events0, regs0, tables0, added, times)
      modifies this, registry, rt
      ensures owner == old(owner)
      ensures Valid() && registry.Valid() && ownerKeypath == keyPath
      ensures duplicate ==> !FreshPaths(affectings, taken) && Framed(registry, regs0, tables0)
      ensures !duplicate ==>
        Bound(i + 1, registry, keyPath, now, state, taken, d0, sent0, events0, regs0, tables0, added', times')
    {
      FreshPathsStep(affectings, i, taken);
      ghost var before := Timing();
      ghost var sentBefore := sent;
      ghost var eventsBefore := rt.events;
      ghost var tablesBefore := registry.tables;
      duplicate := Subscribe(affectings[i], now, state, registry, handler);
      times', added' := times, added;
      OtherTablesTrans(tables0, tablesBefore, registry.tables, TableKey(id, SubjectSlot(owner.value)));
      if duplicate {
        AddedSplit(regs0, added);
      } else {
        BindStep(d0, changeRate, keyPath, now, i, before, times, owner.value,
                 sent0, sentBefore, sent, events0, eventsBefore, rt.events, Timing());
        times' := times + Times(Step(before, changeRate, keyPath.Some?, Change(now)).1);
        SubscriptionsSnoc(regs0, added, rt.registrations, owner.value, affectings[..i], affectings[i]);
        added' := added + [rt.registrations[|regs0 + added|]];
      }
    }

    /** The outcome of binding to `ownerId` at `now`, given the timing
        `d0`, the notifications `sent0`, the events `events0`, the
        registrations `regs0`, the tables `tables0` and the paths `held0`
        the registry held for the owner and this wrapper before: the owner
        is set, earlier registrations and other tables are left alone, and
        binding succeeds exactly when the upstream paths are clash-free.
        Then each path holds one new handle registration, in order, and
        its `.initial` delivery has run the change handler: the cache is
        recomputed and the timing is that of one change per path. */
    ghost predicate BindOutcome(ownerId: ObjectId, ok: bool, now: int, state: map<string, Value>,
                                registry: ObserverRegistry, d0: Debounce, sent0: seq<int>, events0: seq<Event>,
                                regs0: seq<Registration>, tables0: Tables, held0: set<string>)
      reads this, registry, rt
    {
      && owner == Some(ownerId)
      && Framed(registry, regs0, tables0)
      && (ok <==> FreshPaths(affectings, held0))
      && (ok && Consistent(d0, changeRate) ==>
            var run := Run(d0, changeRate, ownerKeypath.Some?, ChangesAt(now, |affectings|));
            && Timing() == run.0
            && sent == sent0 + run.1
            && storedValue == Some(block(state))
            && registry.HeldPaths(id, ownerId) == held0 + PathSet(affectings)
            && Subscriptions(rt.registrations[|regs0|..], ownerId, affectings)
            && rt.events == events0 + Notifications(ownerId, ownerKeypath, |run.1|))
    }

    /** The `anyOwner` setter: a nil owner changes nothing; otherwise see
        `BindTo`. */
    method Bind(newOwner: Option<ObjectId>, now: int, state: map<string, Value>,
                registry: ObserverRegistry, handler: HandlerId) returns (ok: bool)
      requires Valid() && registry.Valid() && registry.rt == rt
      modifies this, registry, rt
      ensures Valid() && registry.Valid()
      ensures ownerKeypath == old(ownerKeypath)
      ensures newOwner.None? ==>
        ok && unchanged(this) && registry.tables == old(registry.tables) && rt.registrations == old(rt.registrations)
        && rt.events == old(rt.events)
      ensures newOwner.Some? ==>
        BindOutcome(newOwner.value, ok, now, state, registry, old(Timing()), old(sent), old(rt.events),
                    old(rt.registrations), old(registry.tables), old(registry.HeldPaths(id, newOwner.value)))
    {
      if newOwner.None? {
        return true;
      }
      ok := BindTo(newOwner.value, now, state, registry, handler);
    }

    /** Binding to an owner: store it (the `didSet` recomputes the cache),
        then subscribe to every upstream key path with `.initial`, which
        runs the change handler once per path at once. Returns false
        where the registry's duplicate-path assertion fails. */
    method BindTo(ownerId: ObjectId, now: int, state: map<string, Value>,
                  registry: ObserverRegistry, handler: HandlerId) returns (ok: bool)
      requires Valid() && registry.Valid() && registry.rt == rt
      modifies this, registry, rt
      ensures Valid() && registry.Valid()
      ensures ownerKeypath == old(ownerKeypath)
      ensures BindOutcome(ownerId, ok, now, state, registry, old(Timing()), old(sent), old(rt.events),
                          old(rt.registrations), old(registry.tables), old(registry.HeldPaths(id, ownerId)))
    {
      ghost var keyPath := ownerKeypath;
      ghost var taken := registry.HeldPaths(id, ownerId);
      ghost var d0 := Timing();
      ghost var sent0 := sent;
      ghost var events0 := rt.events;
      ghost var regs0 := rt.registrations;
      ghost var tables0 := registry.tables;
      owner := Some(ownerId);
      storedValue := Some(block(state));
      ghost var times: seq<int> := [];
      assert affectings[..0] == [] && PathSet([]) == {};
      assert ChangesAt(now, 0) == [];
      assert Run(d0, changeRate, keyPath.Some?, []) == (Timing(), times);
      assert Notifications(ownerId, keyPath, 0) == [];
      assert rt.registrations == regs0 + [];
      assert Bound(0, registry, keyPath, now, state, taken, d0, sent0, events0, regs0, tables0, [], times);
      ghost var added;
      ok, added, times := BindAll(registry, now, state, handler, keyPath, taken, d0, sent0, events0, regs0, tables0);
      if ok {
        BoundComplete(registry, keyPath, now, state, taken, d0, sent0, events0, regs0, tables0, added, times);
      }
    }

    /** The subscriptions of the binding, one upstream path after the
        other, stopping at the first the registry refuses; `times` are the
        notifications their deliveries sent. */
    method BindAll(registry: ObserverRegistry, now: int, state: map<string, Value>, handler: HandlerId,
                   ghost keyPath: Option<string>, ghost taken: set<string>, ghost d0: Debounce,
                   ghost sent0: seq<int>, ghost events0: seq<Event>, ghost regs0: seq<Registration>,
                   ghost tables0: Tables)
      returns (ok: bool, ghost added: seq<Registration>, ghost times: seq<int>)
      requires Bound(0, registry, keyPath, now, state, taken, d0, sent0, events0, regs0, tables0, [], [])
      modifies this, registry, rt
      ensures owner == old(owner)
      ensures Valid() && registry.Valid() && ownerKeypath == keyPath
      ensures ok <==> FreshPaths(affectings, taken)
      ensures !ok ==> Framed(registry, regs0, tables0)
      ensures ok ==>
        Bound(|affectings|, registry, keyPath, now, state, taken, d0, sent0, events0, regs0, tables0, added, times)
    {
      added, times := [], [];
      var i := 0;
      while i < |affectings|
        invariant Bound(i, registry, keyPath, now, state, taken, d0, sent0, events0, regs0, tables0, added, times)
        invariant owner == old(owner)
      {
        var duplicate;
        duplicate, added, times :=
          BindNext(i, registry, now, state, handler, keyPath, taken, d0, sent0, events0, regs0, tables0, added, times);
        if duplicate {
          return false, added, times;
        }
        i := i + 1;
      }
      assert affectings[..i] == affectings;
      ok := true;
    }

    /** Every upstream path subscribed: the binding's outcome. */
    lemma BoundComplete(registry: ObserverRegistry, keyPath: Option<string>, now: int, state: map<string, Value>,
                        taken: set<string>, d0: Debounce, sent0: seq<int>, events0: seq<Event>,
                        regs0: seq<Registration>, tables0: Tables, added: seq<Registration>, times: seq<int>)
      requires Bound(|affectings|, registry, keyPath, now, state, taken, d0, sent0, events0, regs0, tables0, added, times)
      ensures Run(d0, changeRate, keyPath.Some?, ChangesAt(now, |affectings|)) == (Timing(), times)
      ensures registry.HeldPaths(id, owner.value) == taken + PathSet(affectings)
      ensures Framed(registry, regs0, tables0)
      ensures Subscriptions(rt.registrations[|regs0|..], owner.value, affectings)
    {
      assert affectings[..|affectings|] == affectings;
      AddedSplit(regs0, added);
    }

    /** What `initWrappers` does with a `Computed` stored as `storage`: set
        the key path it is announced under, then bind the owner. */
    method Attach(storage: string, ownerId: ObjectId, now: int, state: map<string, Value>,
                  registry: ObserverRegistry, handler: HandlerId) returns (ok: bool)
      requires Valid() && registry.Valid() && registry.rt == rt
      modifies this, registry, rt
      ensures Valid() && registry.Valid()
      ensures ownerKeypath == Some(WrapperKeyPath(storage))
      ensures BindOutcome(ownerId, ok, now, state, registry, old(Timing()), old(sent), old(rt.events),
                          old(rt.registrations), old(registry.tables), old(registry.HeldPaths(id, ownerId)))
    {
      ownerKeypath := Some(WrapperKeyPath(storage));
      ok := Bind(Some(ownerId), now, state, registry, handler);
    }
  }

  /** The string forms of the typed key paths that have one, in order. */
  function Named(paths: seq<Option<string>>): (named: seq<string>)
    ensures |named| <= |paths|
  {
    if paths == [] then []
    else
      var init := Named(paths[..|paths| - 1]);
      var last := paths[|paths| - 1];
      assert paths == paths[..|paths| - 1] + [last];
      if last.Some? then init + [last.value] else init
  }

  /** `Computed1`, `Computed2` and `Computed3`: a value computed from one to
      three typed key paths of the owner, re-announced under the owner's
      key path on every change to any of them. The values the key paths
      read are passed in, in order. */
  class SyncComputed<T> {
    const id: ObjectId
    const affectings: seq<Option<string>>
    const block: seq<Value> -> T
    const rt: Runtime
    var owner: Option<ObjectId>
    var ownerKeypath: Option<string>
    var storedValue: Option<T>

    ghost predicate Valid()
      reads this
    {
      1 <= |affectings| <= 3
    }

    /** `init(_:_:_:)`, `init(_:_:_:_:)` and `init(_:_:_:_:_:)` */
    constructor (id: ObjectId, block: seq<Value> -> T, affectings: seq<Option<string>>, rt: Runtime)
      requires 1 <= |affectings| <= 3
      ensures Valid()
      ensures this.id == id && this.block == block && this.affectings == affectings && this.rt == rt
      ensures owner.None? && ownerKeypath.None? && storedValue.None?
    {
      this.id := id;
      this.block := block;
      this.affectings := affectings;
      this.rt := rt;
      owner := None;
      ownerKeypath := None;
      storedValue := None;
    }

    /** `wrappedValue`: the cached value, or the block applied to the key
        paths' current values when nothing is cached. */
    function Read(values: seq<Value>): (v: T)
      reads this
      requires |values| == |affectings|
      requires storedValue.Some? || owner.Some?
      ensures storedValue.Some? ==> v == storedValue.value
      ensures storedValue.None? ==> v == block(values)
    {
      if storedValue.Some? then storedValue.value else block(values)
    }

    /** The shared change handler: with an owner key path, recompute the
        cache between the will- and did-change notifications; without one,
        do nothing. */
    method UpstreamChanged(values: seq<Value>)
      requires owner.Some?
      modifies this, rt
      ensures owner == old(owner) && ownerKeypath == old(ownerKeypath)
      ensures rt.registrations == old(rt.registrations)
      ensures ownerKeypath.Some? ==>
        && storedValue == Some(block(values))
        && rt.events == old(rt.events) + [WillChange(owner.value, ownerKeypath.value), DidChange(owner.value, ownerKeypath.value)]
      ensures ownerKeypath.None? ==> storedValue == old(storedValue) && rt.events == old(rt.events)
    {
      if ownerKeypath.None? {
        return;
      }
      rt.WillChangeValue(owner.value, ownerKeypath.value);
      storedValue := Some(block(values));
      rt.DidChangeValue(owner.value, ownerKeypath.value);
    }

    /** One subscription made while binding: the typed key path `path` of
        the owner, owned by this wrapper, with `.initial`, whose immediate
        delivery runs the change handler. A key path without a string form
        subscribes nothing; otherwise reports whether the registry already
        held its string form for this owner and wrapper. Only this
        wrapper's table for the owner changes. */
    method Subscribe(path: Option<string>, values: seq<Value>, registry: ObserverRegistry, handler: HandlerId)
      returns (duplicate: bool)
      requires Valid() && registry.Valid() && registry.rt == rt && owner.Some?
      modifies this, registry, rt
      ensures Valid() && registry.Valid() && registry.rt == rt
      ensures owner == old(owner) && ownerKeypath == old(ownerKeypath)
      ensures duplicate <==> path.Some? && path.value in old(registry.HeldPaths(id, owner.value))
      ensures OtherTablesUnchanged(registry.tables, old(registry.tables), TableKey(id, SubjectSlot(owner.value)))
      ensures path.None? || duplicate ==>
        && registry.tables == old(registry.tables) && rt.registrations == old(rt.registrations)
        && rt.events == old(rt.events) && storedValue == old(storedValue)
      ensures path.Some? && !duplicate ==>
        && registry.HeldPaths(id, owner.value) == old(registry.HeldPaths(id, owner.value)) + {path.value}
        && |rt.registrations| == |old(rt.registrations)| + 1
        && rt.registrations[..|old(rt.registrations)|] == old(rt.registrations)
        && HandleSubscription(rt.registrations[|old(rt.registrations)|], owner.value, path.value)
        && storedValue == (if ownerKeypath.Some? then Some(block(values)) else old(storedValue))
        && rt.events == old(rt.events) + Notifications(owner.value, ownerKeypath, 1)
    {
      var s := registry.StartObserving(owner.value, path, Some(id), {Initial}, handler);
      duplicate := s.DuplicateOwnedPath?;
      if s.Subscribed? {
        UpstreamChanged(values);
      }
    }

    /** What binding leaves alone: the registrations made before it, and
        every table but this wrapper's for the owner. */
    ghost predicate Framed(registry: ObserverRegistry, regs0: seq<Registration>, tables0: Tables)
      reads this, registry, rt
    {
      && owner.Some?
      && |regs0| <= |rt.registrations| && rt.registrations[..|regs0|] == regs0
      && OtherTablesUnchanged(registry.tables, tables0, TableKey(id, SubjectSlot(owner.value)))
    }

    /** Binding to the owner has made the first `i` subscriptions:
        `taken` are the paths the registry held for them before, and
        `events0`, `regs0` and `tables0` the events, registrations and
        tables before, and `added` the registrations made since. */
    ghost predicate Bound(i: nat, registry: ObserverRegistry, keyPath: Option<string>, values: seq<Value>,
                          taken: set<string>, events0: seq<Event>, regs0: seq<Registration>, tables0: Tables,
                          added: seq<Registration>)
      reads this, registry, rt
    {
      && i <= |affectings|
      && Valid() && registry.Valid() && registry.rt == rt
      && owner.Some? && ownerKeypath == keyPath
      && FreshPaths(Named(affectings[..i]), taken)
      && storedValue == Some(block(values))
      && rt.events == events0 + Notifications(owner.value, keyPath, |Named(affectings[..i])|)
      && registry.HeldPaths(id, owner.value) == taken + PathSet(Named(affectings[..i]))
      && rt.registrations == regs0 + added
      && Subscriptions(added, owner.value, Named(affectings[..i]))
      && OtherTablesUnchanged(registry.tables, tables0, TableKey(id, SubjectSlot(owner.value)))
    }

    /** One `startObserving(_:_:options:changeHandler:)` of the binding:
        the typed key path `affectings[i]` with `.initial`, whose immediate
        delivery runs the change handler. Reports whether the registry
        refused it as a duplicate. */
    method BindNext(i: nat, registry: ObserverRegistry, values: seq<Value>, handler: HandlerId,
                    ghost keyPath: Option<string>, ghost taken: set<string>, ghost events0: seq<Event>,
                    ghost regs0: seq<Registration>, ghost tables0: Tables, ghost added: seq<Registration>)
      returns (duplicate: bool, ghost added': seq<Registration>)
      requires i < |affectings|
      requires Bound(i, registry, keyPath, values, taken, events0, regs0, tables0, added)
      modifies this, registry, rt
      ensures owner == old(owner)
      ensures Valid() && registry.Valid() && ownerKeypath == keyPath
      ensures duplicate ==> !FreshPaths(Named(affectings), taken) && Framed(registry, regs0, tables0)
      ensures !duplicate ==> Bound(i + 1, registry, keyPath, values, taken, events0, regs0, tables0, added')
    {
      NamedStep(affectings, i, taken);
      ghost var named := Named(affectings[..i]);
      ghost var tablesBefore := registry.tables;
      duplicate := Subscribe(affectings[i], values, registry, handler);
      added' := added;
      OtherTablesTrans(tables0, tablesBefore, registry.tables, TableKey(id, SubjectSlot(owner.value)));
      if duplicate {
        AddedSplit(regs0, added);
      } else if affectings[i].Some? {
        SubscriptionsSnoc(regs0, added, rt.registrations, owner.value, named, affectings[i].value);
        added' := added + [rt.registrations[|regs0 + added|]];
        NotificationsAdd(owner.value, keyPath, |named|, 1);
      }
    }

    /** The outcome of binding to `ownerId`, given the events `events0`,
        the registrations `regs0`, the tables `tables0` and the paths
        `held0` the registry held for the owner and this wrapper before:
        the owner is set, earlier registrations and other tables are left
        alone, and binding succeeds exactly when the string forms of the
        key paths are clash-free. Then each string form holds one new
        handle registration, in order, and each `.initial` delivery has
        announced one change. */
    ghost predicate BindOutcome(ownerId: ObjectId, ok: bool, values: seq<Value>, registry: ObserverRegistry,
                                events0: seq<Event>, regs0: seq<Registration>, tables0: Tables, held0: set<string>)
      reads this, registry, rt
    {
      && owner == Some(ownerId)
      && Framed(registry, regs0, tables0)
      && (ok <==> FreshPaths(Named(affectings), held0))
      && (ok ==>
            && storedValue == Some(block(values))
            && registry.HeldPaths(id, ownerId) == held0 + PathSet(Named(affectings))
            && Subscriptions(rt.registrations[|regs0|..], ownerId, Named(affectings))
            && rt.events == events0 + Notifications(ownerId, ownerKeypath, |Named(affectings)|))
    }

    /** The `anyOwner` setter: a nil owner changes nothing; otherwise see
        `BindTo`. */
    method Bind(newOwner: Option<ObjectId>, values: seq<Value>, registry: ObserverRegistry, handler: HandlerId)
      returns (ok: bool)
      requires Valid() && registry.Valid() && registry.rt == rt
      requires |values| == |affectings|
      modifies this, registry, rt
      ensures Valid() && registry.Valid() && ownerKeypath == old(ownerKeypath)
      ensures newOwner.None? ==>
        ok && unchanged(this) && registry.tables == old(registry.tables) && rt.events == old(rt.events)
        && rt.registrations == old(rt.registrations)
      ensures newOwner.Some? ==>
        BindOutcome(newOwner.value, ok, values, registry, old(rt.events), old(rt.registrations),
                    old(registry.tables), old(registry.HeldPaths(id, newOwner.value)))
    {
      if newOwner.None? {
        return true;
      }
      ok := BindTo(newOwner.value, values, registry, handler);
    }

    /** Binding to an owner: store it (the `didSet` recomputes the cache)
        and subscribe to each typed key path in turn with `.initial`
        (`Computed1` makes one such call, `Computed2` two, `Computed3`
        three).
        Returns false where the registry's duplicate-path assertion
        fails. */
    method BindTo(ownerId: ObjectId, values: seq<Value>, registry: ObserverRegistry, handler: HandlerId)
      returns (ok: bool)
      requires Valid() && registry.Valid() && registry.rt == rt
      requires |values| == |affectings|
      modifies this, registry, rt
      ensures Valid() && registry.Valid() && ownerKeypath == old(ownerKeypath)
      ensures BindOutcome(ownerId, ok, values, registry, old(rt.events), old(rt.registrations),
                          old(registry.tables), old(registry.HeldPaths(id, ownerId)))
    {
      ghost var keyPath := ownerKeypath;
      ghost var taken := registry.HeldPaths(id, ownerId);
      ghost var events0 := rt.events;
      ghost var regs0 := rt.registrations;
      ghost var tables0 := registry.tables;
      owner := Some(ownerId);
      storedValue := Some(block(values));
      assert affectings[..0] == [] && Named([]) == [] && PathSet([]) == {};
      assert Notifications(ownerId, keyPath, 0) == [];
      assert rt.registrations == regs0 + [];
      assert Bound(0, registry, keyPath, values, taken, events0, regs0, tables0, []);
      ghost var added;
      ok, added := BindAll(registry, values, handler, keyPath, taken, events0, regs0, tables0);
      if ok {
        BoundComplete(registry, keyPath, values, taken, events0, regs0, tables0, added);
      }
    }

    /** The subscriptions of the binding, one typed key path after the
        other, stopping at the first the registry refuses. */
    method BindAll(registry: ObserverRegistry, values: seq<Value>, handler: HandlerId,
                   ghost keyPath: Option<string>, ghost taken: set<string>, ghost events0: seq<Event>,
                   ghost regs0: seq<Registration>, ghost tables0: Tables)
      returns (ok: bool, ghost added: seq<Registration>)
      requires Bound(0, registry, keyPath, values, taken, events0, regs0, tables0, [])
      modifies this, registry, rt
      ensures owner == old(owner)
      ensures Valid() && registry.Valid() && ownerKeypath == keyPath
      ensures ok <==> FreshPaths(Named(affectings), taken)
      ensures !ok ==> Framed(registry, regs0, tables0)
      ensures ok ==> Bound(|affectings|, registry, keyPath, values, taken, events0, regs0, tables0, added)
    {
      added := [];
      var i := 0;
      while i < |affectings|
        invariant Bound(i, registry, keyPath, values, taken, events0, regs0, tables0, added)
        invariant owner == old(owner)
      {
        var duplicate;
        duplicate, added := BindNext(i, registry, values, handler, keyPath, taken, events0, regs0, tables0, added);
        if duplicate {
          return false, added;
        }
        i := i + 1;
      }
      assert affectings[..i] == affectings;
      ok := true;
    }

    /** Every typed key path subscribed: the binding's outcome. */
    lemma BoundComplete(registry: ObserverRegistry, keyPath: Option<string>, values: seq<Value>,
                        taken: set<string>, events0: seq<Event>, regs0: seq<Registration>, tables0: Tables,
                        added: seq<Registration>)
      requires Bound(|affectings|, registry, keyPath, values, taken, events0, regs0, tables0, added)
      ensures FreshPaths(Named(affectings), taken)
      ensures registry.HeldPaths(id, owner.value) == taken + PathSet(Named(affectings))
      ensures rt.events == events0 + Notifications(owner.value, keyPath, |Named(affectings)|)
      ensures Framed(registry, regs0, tables0)
      ensures Subscriptions(rt.registrations[|regs0|..], owner.value, Named(affectings))
    {
      assert affectings[..|affectings|] == affectings;
      AddedSplit(regs0, added);
    }

    /** What `initWrappers` does with a `Computed1/2/3` stored as
        `storage`: set the key path it is announced under, then bind the
        owner. */
    method Attach(storage: string, ownerId: ObjectId, values: seq<Value>, registry: ObserverRegistry, handler: HandlerId)
      returns (ok: bool)
      requires Valid() && registry.Valid() && registry.rt == rt
      requires |values| == |affectings|
      modifies this, registry, rt
      ensures Valid() && registry.Valid()
      ensures ownerKeypath == Some(WrapperKeyPath(storage))
      ensures BindOutcome(ownerId, ok, values, registry, old(rt.events), old(rt.registrations),
                          old(registry.tables), old(registry.HeldPaths(id, ownerId)))
    {
      ownerKeypath := Some(WrapperKeyPath(storage));
      ok := Bind(Some(ownerId), values, registry, handler);
    }
  }

  /** Splitting the typed key paths splits their string forms. */
  lemma {:induction false} NamedTail(paths: seq<Option<string>>, i: nat)
    requires i <= |paths|
    ensures Named(paths) == Named(paths[..i]) + Named(paths[i..])
    decreases |paths|
  {
    if i < |paths| {
      var init := paths[..|paths| - 1];
      NamedTail(init, i);
      assert init[..i] == paths[..i];
      assert paths[i..][..|paths[i..]| - 1] == init[i..];
    } else {
      assert paths[..i] == paths;
      assert paths[i..] == [];
    }
  }

  /** The string forms of one more typed key path. */
  lemma NamedSnoc(paths: seq<Option<string>>, i: nat)
    requires i < |paths|
    ensures Named(paths[..i + 1]) == Named(paths[..i]) + (if paths[i].Some? then [paths[i].value] else [])
  {
    assert paths[..i + 1][..i] == paths[..i];
  }

  /** `FreshPathsStep` for typed key paths: a path without a string form
      leaves the string forms as they were. */
  lemma NamedStep(paths: seq<Option<string>>, i: nat, taken: set<string>)
    requires i < |paths| && FreshPaths(Named(paths[..i]), taken)
    ensures paths[i].None? ==> Named(paths[..i + 1]) == Named(paths[..i])
    ensures paths[i].Some? ==> Named(paths[..i + 1]) == Named(paths[..i]) + [paths[i].value]
    ensures paths[i].Some? && paths[i].value in taken + PathSet(Named(paths[..i])) ==> !FreshPaths(Named(paths), taken)
    ensures paths[i].Some? && paths[i].value !in taken + PathSet(Named(paths[..i])) ==>
      FreshPaths(Named(paths[..i + 1]), taken)
      && PathSet(Named(paths[..i + 1])) == PathSet(Named(paths[..i])) + {paths[i].value}
  {
    NamedSnoc(paths, i);
    NamedTail(paths, i + 1);
    if paths[i].Some? {
      FreshPathsExtend(Named(paths[..i]), paths[i].value, taken);
      FreshPathsPrefix(Named(paths[..i + 1]), Named(paths[i + 1..]), taken);
    }
  }

  /** `UIProperty`: a stored value whose every assignment is announced
      under the owner's key path. */
  class UIProperty<T> {
    const rt: Runtime
    var owner: Option<ObjectId>
    var ownerKeypath: Option<string>
    var storedValue: T

    /** `init(wrappedValue:)` */
    constructor (wrappedValue: T, rt: Runtime)
      ensures storedValue == wrappedValue && owner.None? && ownerKeypath.None? && this.rt == rt
    {
      this.rt := rt;
      storedValue := wrappedValue;
      owner := None;
      ownerKeypath := None;
    }

    /** The `wrappedValue` setter: with an owner and a key path, store the
        new value between the will- and did-change notifications; without
        either, drop the assignment. */
    method Set(newValue: T)
      modifies this, rt
      ensures owner == old(owner) && ownerKeypath == old(ownerKeypath)
      ensures rt.registrations == old(rt.registrations)
      ensures owner.Some? && ownerKeypath.Some? ==>
        && storedValue == newValue
        && rt.events == old(rt.events) + [WillChange(owner.value, ownerKeypath.value), DidChange(owner.value, ownerKeypath.value)]
      ensures owner.None? || ownerKeypath.None? ==> storedValue == old(storedValue) && rt.events == old(rt.events)
    {
      if owner.None? || ownerKeypath.None? {
        return;
      }
      rt.WillChangeValue(owner.value, ownerKeypath.value);
      storedValue := newValue;
      rt.DidChangeValue(owner.value, ownerKeypath.value);
    }

    /** What `initWrappers` does with a `UIProperty` stored as `storage`. */
    method Attach(storage: string, ownerId: ObjectId)
      modifies this
      ensures ownerKeypath == Some(WrapperKeyPath(storage)) && owner == Some(ownerId)
      ensures storedValue == old(storedValue)
    {
      ownerKeypath := Some(WrapperKeyPath(storage));
      owner := Some(ownerId);
    }
  }
}
