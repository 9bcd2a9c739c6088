/**
 * Timer handles (packages/promise/src/Promise/internals/timers.ts).
 *
 * A handle holds a timeout (a negative one disables the handle for good), a
 * callback and the platform token `tid` of its outstanding schedule. The model
 * keeps no clock: `tid` becomes the flag `armed`, the callback becomes a tag the
 * owner dispatches on when the timer fires, and the ghost counter `scheduled`
 * counts the platform schedules ever requested for the handle, so that a fresh
 * schedule (which postpones the firing) can be told from a kept one.
 */
module Timers {

  /** The value of a handle at one moment. */
  datatype TimerValue<C> = TimerValue(timeout: int, callback: C, armed: bool, scheduled: nat)

  /** The three operations of the module, each of which also has a collection form. */
  datatype TimerOp = ClearOp | StartOp | RestartOp

  /** `clearTimer` on one handle. */
  function Cleared<C>(t: TimerValue<C>): TimerValue<C>
  {
    if t.timeout < 0 then t else t.(armed := false)
  }

  /** `startTimer` on one handle. */
  function Started<C>(t: TimerValue<C>): TimerValue<C>
  {
    if t.timeout < 0 then t
    else if t.armed then t
    else t.(armed := true, scheduled := t.scheduled + 1)
  }

  /** `restartTimer` on one handle: clear, then start. */
  function Restarted<C>(t: TimerValue<C>): TimerValue<C>
  {
    if t.timeout < 0 then t else Started(Cleared(t))
  }

  /** One operation on one handle, and what the source promises of it. */
  function Apply<C>(t: TimerValue<C>, op: TimerOp): (r: TimerValue<C>)
    // the timeout and callback of a handle never change
    ensures r.timeout == t.timeout && r.callback == t.callback
    // a disabled handle is left untouched by every operation
    ensures t.timeout < 0 ==> r == t
    // clearing leaves an enabled handle unarmed, armed or not before
    ensures op == ClearOp && t.timeout >= 0 ==> !r.armed && r.scheduled == t.scheduled
    // starting an armed handle changes nothing: no handle is ever armed twice
    ensures op == StartOp && t.armed ==> r == t
    // starting an unarmed enabled handle schedules exactly one callback
    ensures op == StartOp && t.timeout >= 0 && !t.armed ==> r.armed && r.scheduled == t.scheduled + 1
    // restarting an enabled handle drops any old schedule for exactly one new one
    ensures op == RestartOp && t.timeout >= 0 ==> r.armed && r.scheduled == t.scheduled + 1
  {
    match op
    case ClearOp => Cleared(t)
    case StartOp => Started(t)
    case RestartOp => Restarted(t)
  }

  /** The collection form: the operation applied to each handle of a snapshot. */
  function ApplyAll<C>(ts: seq<TimerValue<C>>, op: TimerOp): (r: seq<TimerValue<C>>)
    ensures |r| == |ts|
    ensures forall i :: 0 <= i < |ts| ==> r[i] == Apply(ts[i], op)
  {
    seq(|ts|, i requires 0 <= i < |ts| => Apply(ts[i], op))
  }

  /** The firing closure: the handle is disarmed before its callback runs. */
  function Fired<C>(t: TimerValue<C>): (r: TimerValue<C>)
    requires t.armed
    ensures !r.armed && r.timeout == t.timeout && r.callback == t.callback
    // the callback may arm the handle again
    ensures t.timeout >= 0 ==> Apply(r, StartOp).armed
  {
    t.(armed := false)
  }

  /** Applies the operations one after the other. */
  function ApplySeq<C>(t: TimerValue<C>, ops: seq<TimerOp>): TimerValue<C>
    decreases |ops|
  {
    if ops == [] then t else ApplySeq(Apply(t, ops[0]), ops[1..])
  }

  /** A handle created with a negative timeout is never armed, whatever is done to it. */
  lemma {:induction false} DisabledNeverArmed<C>(t: TimerValue<C>, ops: seq<TimerOp>)
    requires t.timeout < 0 && !t.armed
    ensures ApplySeq(t, ops) == t
    decreases |ops|
  {
    if ops != [] {
      DisabledNeverArmed(Apply(t, ops[0]), ops[1..]);
    }
  }

  /** After any sequence of operations ending in a start or a restart, an
      enabled handle is armed. */
  lemma {:induction false} EnabledArmedAfterStart<C>(t: TimerValue<C>, ops: seq<TimerOp>)
    requires t.timeout >= 0 && ops != [] && ops[|ops| - 1] != ClearOp
    ensures ApplySeq(t, ops).armed
    decreases |ops|
  {
    if |ops| > 1 {
      EnabledArmedAfterStart(Apply(t, ops[0]), ops[1..]);
    }
  }

  ghost predicate Distinct<T>(s: seq<T>)
  {
    forall i, j :: 0 <= i < j < |s| ==> s[i] != s[j]
  }

  /** A handle (`Timer` in the source). */
  class Timer<C> {
    const timeout: int
    const callback: C
    var armed: bool
    ghost var scheduled: nat

    ghost function Value(): TimerValue<C>
      reads this
    {
      TimerValue(timeout, callback, armed, scheduled)
    }

    /** `createTimer`: an unarmed handle holding the given timeout and callback. */
    constructor (timeout: int, callback: C)
      ensures this.timeout == timeout && this.callback == callback
      ensures !armed && scheduled == 0
    {
      this.timeout := timeout;
      this.callback := callback;
      armed := false;
      scheduled := 0;
    }

    /** `clearTimer` on a single handle. */
    method Clear()
      modifies this
      ensures Value() == Apply(old(Value()), ClearOp)
    {
      if timeout < 0 {
        return;
      }
      armed := false;
    }

    /** `startTimer` on a single handle. */
    method Start()
      modifies this
      ensures Value() == Apply(old(Value()), StartOp)
    {
      if timeout < 0 {
        return;
      }
      if armed {
        return;
      }
      armed := true;
      scheduled := scheduled + 1;
    }

    /** `restartTimer` on a single handle. */
    method Restart()
      modifies this
      ensures Value() == Apply(old(Value()), RestartOp)
    {
      if timeout < 0 {
        return;
      }
      Clear();
      Start();
    }

    /** One of the three operations, chosen by `op`. */
    method Perform(op: TimerOp)
      modifies this
      ensures Value() == Apply(old(Value()), op)
    {
      match op
      case ClearOp => Clear();
      case StartOp => Start();
      case RestartOp => Restart();
    }

    /** The platform fires the schedule: the handle is disarmed and its
        callback handed back to the owner to run. */
    method Fire() returns (cb: C)
      requires armed
      modifies this
      ensures Value() == Fired(old(Value())) && cb == callback
    {
      armed := false;
      cb := callback;
    }
  }

  ghost function Values<C>(ts: seq<Timer<C>>): (vs: seq<TimerValue<C>>)
    reads set t | t in ts
    ensures |vs| == |ts|
    ensures forall i :: 0 <= i < |ts| ==> vs[i] == ts[i].Value()
  {
    seq(|ts|, i requires 0 <= i < |ts| reads set t | t in ts => ts[i].Value())
  }

  /** The sequence without its element at `i`, as `Set.delete` leaves a set. */
  function Without<T>(s: seq<T>, i: nat): (r: seq<T>)
    requires i < |s|
    ensures |r| == |s| - 1
    ensures forall k :: 0 <= k < i ==> r[k] == s[k]
    ensures forall k :: i <= k < |r| ==> r[k] == s[k + 1]
  {
    s[..i] + s[i + 1..]
  }

  /** A handle added to a collection adds its value. */
  lemma ValuesAppend<C>(ts: seq<Timer<C>>, t: Timer<C>)
    ensures Values(ts + [t]) == Values(ts) + [t.Value()]
  {
    assert forall k :: 0 <= k < |ts| ==> (ts + [t])[k] == ts[k];
  }

  /** A handle removed from a collection removes its value. */
  lemma ValuesWithout<C>(ts: seq<Timer<C>>, i: nat)
    requires i < |ts|
    ensures Values(Without(ts, i)) == Without(Values(ts), i)
  {
  }

  /** Adding a handle not yet present keeps the collection distinct. */
  lemma DistinctAppend<T>(s: seq<T>, x: T)
    requires Distinct(s) && x !in s
    ensures Distinct(s + [x])
  {
    var r := s + [x];
    forall k, l | 0 <= k < l < |r|
      ensures r[k] != r[l]
    {
      if l < |s| {
        assert r[k] == s[k] && r[l] == s[l];
      } else {
        assert r[k] == s[k] && r[l] == x;
      }
    }
  }

  /** Removing a handle keeps the rest distinct. */
  lemma DistinctWithout<T>(s: seq<T>, i: nat)
    requires i < |s| && Distinct(s)
    ensures Distinct(Without(s, i))
    ensures forall k :: 0 <= k < |Without(s, i)| ==> Without(s, i)[k] != s[i]
  {
    var r := Without(s, i);
    forall k, l | 0 <= k < l < |r|
      ensures r[k] != r[l]
    {
      var k' := if k < i then k else k + 1;
      var l' := if l < i then l else l + 1;
      assert r[k] == s[k'] && r[l] == s[l'] && k' < l';
    }
  }

  /** The collection form of `clearTimer`, `startTimer` and `restartTimer`:
      the operation applied to each handle of the snapshot `ts` in turn. */
  method ApplyEach<C>(ts: seq<Timer<C>>, op: TimerOp)
    requires Distinct(ts)
    modifies set t | t in ts
    ensures Values(ts) == ApplyAll(old(Values(ts)), op)
  {
    for i := 0 to |ts|
      invariant forall j :: 0 <= j < i ==> ts[j].Value() == Apply(old(ts[j].Value()), op)
      invariant forall j :: i <= j < |ts| ==> ts[j].Value() == old(ts[j].Value())
    {
      ts[i].Perform(op);
    }
  }
}
