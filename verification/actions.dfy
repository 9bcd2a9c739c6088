/**
 * What `debounce` and `throttle` hand their timers as callbacks, and facts
 * about their sets of idle timers.
 *
 * The wait timer runs `invoke` or `clear`, the max-wait timer runs `invoke`,
 * and each idle timer made by `idle(gracePeriod)` removes itself from the set
 * and resolves the promise `idle` returned. That promise is named by a waiter
 * number, so the tag `Resolve(w)` stands for the idle timer's closure.
 */
module Actions {
  import opened Timers

  datatype Action = Invoke | Clear | Resolve(waiter: nat)

  /** The callbacks of a collection of handles, in order. */
  function Callbacks(ts: seq<TimerValue<Action>>): (cs: seq<Action>)
    ensures |cs| == |ts|
    decreases |ts|
  {
    if ts == [] then [] else [ts[0].callback] + Callbacks(ts[1..])
  }

  /** The callbacks all resolve waiters, numbered in increasing order and
      below `bound`: `idle` hands out its waiter numbers in order, and a
      handle leaves the set without disturbing the others. */
  ghost predicate Ascending(cs: seq<Action>, bound: nat)
    decreases |cs|
  {
    cs == [] ||
    (var last := cs[|cs| - 1];
     last.Resolve? && last.waiter < bound && Ascending(cs[..|cs| - 1], last.waiter))
  }

  /** Every idle timer resolves a waiter of its own, numbered below `waiters`. */
  ghost predicate Waiters(idle: seq<TimerValue<Action>>, waiters: nat)
  {
    Ascending(Callbacks(idle), waiters)
  }

  /** 1 for true, 0 for false: counts calls of `fn` in a run. */
  function Bit(b: bool): nat
  {
    if b then 1 else 0
  }

  /** A disabled handle (negative timeout) is unarmed. */
  predicate Dormant(t: TimerValue<Action>)
  {
    t.timeout < 0 ==> !t.armed
  }

  /** An enabled handle is armed. */
  predicate Ready(t: TimerValue<Action>)
  {
    t.timeout >= 0 ==> t.armed
  }

  predicate AllDormant(ts: seq<TimerValue<Action>>)
  {
    forall i :: 0 <= i < |ts| ==> Dormant(ts[i])
  }

  predicate NoneArmed(ts: seq<TimerValue<Action>>)
  {
    forall i :: 0 <= i < |ts| ==> !ts[i].armed
  }

  /** `us` holds the same handles as `ts` (same timeouts and callbacks, in order). */
  predicate SameHandles(ts: seq<TimerValue<Action>>, us: seq<TimerValue<Action>>)
  {
    |us| == |ts| &&
    forall i :: 0 <= i < |ts| ==> us[i].timeout == ts[i].timeout && us[i].callback == ts[i].callback
  }

  /** `clearTimer(idleTimers)`, given that disabled handles are unarmed: no
      handle stays armed. */
  lemma ClearAllSilences(ts: seq<TimerValue<Action>>)
    requires AllDormant(ts)
    ensures SameHandles(ts, ApplyAll(ts, ClearOp))
    ensures NoneArmed(ApplyAll(ts, ClearOp)) && AllDormant(ApplyAll(ts, ClearOp))
  {
    var us := ApplyAll(ts, ClearOp);
    forall i | 0 <= i < |ts|
      ensures !us[i].armed
    {
      assert us[i] == Apply(ts[i], ClearOp);
    }
  }

  /** `restartTimer(idleTimers)`: exactly the enabled handles are armed. */
  lemma RestartAllArms(ts: seq<TimerValue<Action>>)
    requires AllDormant(ts)
    ensures SameHandles(ts, ApplyAll(ts, RestartOp))
    ensures forall i :: 0 <= i < |ts| ==> ApplyAll(ts, RestartOp)[i].armed == (ts[i].timeout >= 0)
    ensures AllDormant(ApplyAll(ts, RestartOp))
  {
    var us := ApplyAll(ts, RestartOp);
    forall i | 0 <= i < |ts|
      ensures us[i].armed == (ts[i].timeout >= 0)
    {
      assert us[i] == Apply(ts[i], RestartOp);
    }
  }

  lemma {:induction false} CallbackAt(ts: seq<TimerValue<Action>>, i: nat)
    requires i < |ts|
    ensures Callbacks(ts)[i] == ts[i].callback
    decreases i
  {
    if i > 0 {
      CallbackAt(ts[1..], i - 1);
    }
  }

  /** The timer operations keep every handle's callback. */
  lemma {:induction false} SameCallbacks(ts: seq<TimerValue<Action>>, us: seq<TimerValue<Action>>)
    requires SameHandles(ts, us)
    ensures Callbacks(us) == Callbacks(ts)
    decreases |ts|
  {
    if ts != [] {
      assert SameHandles(ts[1..], us[1..]) by {
        forall i | 0 <= i < |ts| - 1
          ensures us[1..][i].timeout == ts[1..][i].timeout && us[1..][i].callback == ts[1..][i].callback
        {
          assert us[1..][i] == us[i + 1] && ts[1..][i] == ts[i + 1];
        }
      }
      SameCallbacks(ts[1..], us[1..]);
    }
  }

  /** Every callback of an ascending sequence resolves a waiter below the bound. */
  lemma {:induction false} AscendingBelow(cs: seq<Action>, bound: nat, a: Action)
    requires Ascending(cs, bound) && a in cs
    ensures a.Resolve? && a.waiter < bound
    decreases |cs|
  {
    var n := |cs| - 1;
    if a != cs[n] {
      assert a in cs[..n] by {
        var k :| 0 <= k < |cs| && cs[k] == a;
        assert k < n && cs[..n][k] == a;
      }
      AscendingBelow(cs[..n], cs[n].waiter, a);
    }
  }

  /** The waiter of the handle at `i`. */
  lemma WaiterAt(ts: seq<TimerValue<Action>>, waiters: nat, i: nat)
    requires Waiters(ts, waiters) && i < |ts|
    ensures ts[i].callback.Resolve? && ts[i].callback.waiter < waiters
  {
    CallbackAt(ts, i);
    AscendingBelow(Callbacks(ts), waiters, ts[i].callback);
  }

  /** Removing the callback at `i` keeps the rest ascending, and leaves no copy of it. */
  lemma {:induction false} AscendingWithout(cs: seq<Action>, bound: nat, i: nat)
    requires Ascending(cs, bound) && i < |cs|
    ensures Ascending(Without(cs, i), bound)
    ensures cs[i] !in Without(cs, i)
    decreases |cs|
  {
    var n := |cs| - 1;
    var r := Without(cs, i);
    if i == n {
      assert r == cs[..n];
      if cs[i] in r {
        AscendingBelow(cs[..n], cs[n].waiter, cs[i]);
      }
    } else {
      var p := cs[..n];
      assert p[i] == cs[i];
      AscendingWithout(p, cs[n].waiter, i);
      assert r == Without(p, i) + [cs[n]];
      assert r[..|r| - 1] == Without(p, i);
      if cs[i] == cs[n] {
        AscendingBelow(p, cs[n].waiter, p[i]);
      }
    }
  }

  /** `idle(gracePeriod)` adds a handle with a fresh waiter: the waiters stay
      apart, and the new one is awaited by no earlier handle. */
  lemma AppendKeepsWaiters(ts: seq<TimerValue<Action>>, t: TimerValue<Action>, waiters: nat)
    requires Waiters(ts, waiters) && t.callback == Resolve(waiters)
    ensures Waiters(ts + [t], waiters + 1)
    ensures t.callback !in Callbacks(ts)
  {
    CallbacksAppend(ts, t);
    var cs := Callbacks(ts) + [t.callback];
    assert cs[..|cs| - 1] == Callbacks(ts);
    if t.callback in Callbacks(ts) {
      AscendingBelow(Callbacks(ts), waiters, t.callback);
    }
  }

  lemma {:induction false} CallbacksAppend(ts: seq<TimerValue<Action>>, t: TimerValue<Action>)
    ensures Callbacks(ts + [t]) == Callbacks(ts) + [t.callback]
    decreases |ts|
  {
    if ts != [] {
      assert (ts + [t])[1..] == ts[1..] + [t];
      CallbacksAppend(ts[1..], t);
    }
  }

  lemma CallbacksWithout(ts: seq<TimerValue<Action>>, i: nat)
    requires i < |ts|
    ensures Callbacks(Without(ts, i)) == Without(Callbacks(ts), i)
  {
    var r := Without(ts, i);
    forall k | 0 <= k < |r|
      ensures Callbacks(r)[k] == Without(Callbacks(ts), i)[k]
    {
      CallbackAt(r, k);
      if k < i {
        CallbackAt(ts, k);
      } else {
        CallbackAt(ts, k + 1);
      }
    }
  }

  /** The idle timer at `i` fires and leaves the set: the waiters stay apart,
      and no handle left awaits the removed one's waiter, so each promise
      `idle` returned resolves at most once. */
  lemma WithoutKeepsWaiters(ts: seq<TimerValue<Action>>, i: nat, waiters: nat)
    requires i < |ts| && Waiters(ts, waiters)
    ensures Waiters(Without(ts, i), waiters)
    ensures ts[i].callback !in Callbacks(Without(ts, i))
  {
    CallbacksWithout(ts, i);
    CallbackAt(ts, i);
    AscendingWithout(Callbacks(ts), waiters, i);
  }
}
