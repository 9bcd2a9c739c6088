/**
 * The bounded executor behind `queue` and `limit`
 * (packages/promise/src/Promise/queue.ts).
 *
 * A task is represented by its id; the FIFO queue holds the ids of tasks that
 * wait for permission to run (the source enqueues each task's `resolve`
 * callback, its permission). Granting a permission is handing out an id; a
 * task's `done` is an explicit event. The idle Deferred is an optional signal
 * number: `Some(k)` is the k-th idle Deferred the executor created.
 */
module TaskQueue {
  import opened Wrappers
  import LinkedQueue

  /** `Number.MAX_SAFE_INTEGER`, 2^53 - 1. */
  const MAX_SAFE_INTEGER: int := 0x1F_FFFF_FFFF_FFFF

  /** A JavaScript number as `getConcurrency` sees it: an integral value, or
      anything else (a fraction, NaN, an infinity). */
  datatype Num = Integer(value: int) | NonInteger

  /** `QueueOptions`: a bare number or `{ concurrency }`. */
  datatype QueueOptions = Count(count: Num) | Settings(concurrency: Num)

  /** A concurrency limit; `Unbounded` is the source's `Infinity`. */
  datatype Limit = Finite(n: nat) | Unbounded

  predicate IsSafeInteger(x: Num)
  {
    x.Integer? && -MAX_SAFE_INTEGER <= x.value <= MAX_SAFE_INTEGER
  }

  function BaseOf(options: QueueOptions): Num
  {
    match options
    case Count(c) => c
    case Settings(c) => c
  }

  /** `getConcurrency`: no limit for anything that is not a safe integer,
      otherwise the number raised to at least 1. */
  function GetConcurrency(options: QueueOptions): (r: Limit)
    ensures r.Unbounded? <==> !IsSafeInteger(BaseOf(options))
    ensures r.Finite? ==> r.n >= 1
    ensures r.Finite? && BaseOf(options).value >= 1 ==> r.n == BaseOf(options).value
    ensures r.Finite? && BaseOf(options).value < 1 ==> r.n == 1
  {
    var base := BaseOf(options);
    if !IsSafeInteger(base) then Unbounded
    else if base.value < 1 then Finite(1) else Finite(base.value)
  }

  /** `running < concurrency`. */
  predicate Below(running: nat, limit: Limit)
  {
    limit.Unbounded? || running < limit.n
  }

  /** `running <= concurrency`. */
  predicate Within(running: nat, limit: Limit)
  {
    limit.Unbounded? || running <= limit.n
  }

  predicate Increasing(s: seq<nat>)
  {
    forall i, j :: 0 <= i < j < |s| ==> s[i] < s[j]
  }

  /** The permissions one pass of the `flush` loop grants, what stays queued,
      and the running count afterwards. */
  datatype Drained = Drained(granted: seq<nat>, rest: seq<nat>, running: nat)

  /** The `flush` loop: while a slot is free, dequeue a permission and grant it. */
  function Drain(limit: Limit, pending: seq<nat>, running: nat): Drained
    decreases |pending|
  {
    if !Below(running, limit) || pending == [] then Drained([], pending, running)
    else
      var d := Drain(limit, pending[1..], running + 1);
      Drained([pending[0]] + d.granted, d.rest, d.running)
  }

  /** What the `flush` loop achieves. */
  lemma {:induction false} DrainEffect(limit: Limit, pending: seq<nat>, running: nat)
    // the granted permissions are the front of the queue, in queue order
    ensures Drain(limit, pending, running).granted + Drain(limit, pending, running).rest == pending
    // each grant takes exactly one slot
    ensures Drain(limit, pending, running).running == running + |Drain(limit, pending, running).granted|
    // a grant happens only while a slot is free, so the limit is never passed
    ensures Within(running, limit) ==> Within(Drain(limit, pending, running).running, limit)
    // the loop stops with every slot taken or nothing left to grant
    ensures !Below(Drain(limit, pending, running).running, limit) || Drain(limit, pending, running).rest == []
    decreases |pending|
  {
    if Below(running, limit) && pending != [] {
      DrainEffect(limit, pending[1..], running + 1);
      assert [pending[0]] + pending[1..] == pending;
    }
  }

  /** The outcome of the `flush` loop is fixed by three facts: the granted
      permissions are the front of the queue, each took one slot, and the
      loop stopped with the limit reached or the queue empty. */
  lemma {:induction false} DrainDetermined(limit: Limit, pending: seq<nat>, running: nat,
                                            granted: seq<nat>, rest: seq<nat>)
    requires Within(running, limit)
    requires granted + rest == pending
    requires Within(running + |granted|, limit)
    requires !Below(running + |granted|, limit) || rest == []
    ensures Drain(limit, pending, running) == Drained(granted, rest, running + |granted|)
    decreases |pending|
  {
    if granted != [] {
      assert pending == [granted[0]] + (granted[1..] + rest);
      DrainDetermined(limit, pending[1..], running + 1, granted[1..], rest);
    } else {
      assert rest == pending;
    }
  }

  /** The executor's state: the limit, the queued permissions, the running
      count, the idle signal, and two counters that name fresh tasks and
      fresh idle Deferreds. */
  datatype Executor = Executor(
    limit: Limit, pending: seq<nat>, running: nat, idle: Option<nat>,
    nextTask: nat, signals: nat)

  /** The state after a `flush`, the permissions it granted in order, and the
      idle signal it resolved, if any. */
  datatype Flushed = Flushed(after: Executor, granted: seq<nat>, resolved: Option<nat>)

  predicate Quiet(e: Executor)
  {
    e.pending == [] && e.running == 0
  }

  /** What holds between public operations. */
  predicate Inv(e: Executor)
  {
    && (e.limit.Finite? ==> e.limit.n >= 1)
    && Within(e.running, e.limit)
    // no permission waits while a slot is free
    && (e.pending != [] ==> !Below(e.running, e.limit))
    // an idle signal exists exactly while work is queued or running
    && (e.idle.Some? <==> !Quiet(e))
    && (e.idle.Some? ==> e.idle.value < e.signals)
    // permissions wait in the order of the `add` calls that made them
    && Increasing(e.pending)
    && (forall i :: 0 <= i < |e.pending| ==> e.pending[i] < e.nextTask)
  }

  /** `queue(options)`: the initial state. */
  function Create(options: QueueOptions): (e: Executor)
    ensures Inv(e) && Quiet(e) && e.idle == None
    // the limit is the configured concurrency
    ensures e.limit == GetConcurrency(options)
  {
    Executor(GetConcurrency(options), [], 0, None, 0, 0)
  }

  /** `flush`: drain, then resolve and drop the idle signal once nothing is
      queued or running. */
  function FlushStep(e: Executor): (f: Flushed)
    ensures f.granted + f.after.pending == e.pending
    ensures f.after.running == e.running + |f.granted|
    ensures Within(e.running, e.limit) ==> Within(f.after.running, f.after.limit)
    ensures !Below(f.after.running, f.after.limit) || f.after.pending == []
    // the signal is resolved and dropped exactly when the executor ends quiet
    ensures f.resolved.Some? <==> Quiet(f.after) && e.idle.Some?
    ensures f.resolved.Some? ==> f.resolved == e.idle
    ensures f.after.idle == if Quiet(f.after) then None else e.idle
    ensures f.after.limit == e.limit && f.after.nextTask == e.nextTask && f.after.signals == e.signals
  {
    DrainEffect(e.limit, e.pending, e.running);
    var d := Drain(e.limit, e.pending, e.running);
    var after := e.(pending := d.rest, running := d.running);
    if Quiet(after) then Flushed(after.(idle := None), d.granted, e.idle)
    else Flushed(after, d.granted, None)
  }

  /** A proof aid for the class methods, not a property: `FlushStep` spelled out with the
      drain result named, for the proofs that hold `d` already. */
  lemma FlushStepIs(e: Executor, d: Drained)
    requires d == Drain(e.limit, e.pending, e.running)
    ensures FlushStep(e) ==
      var after := e.(pending := d.rest, running := d.running);
      if Quiet(after) then Flushed(after.(idle := None), d.granted, e.idle)
      else Flushed(after, d.granted, None)
  {
  }

  /** The first half of `add(fn)`: make the idle signal if there is none,
      queue one fresh permission. */
  function Admit(e: Executor): Executor
  {
    var withSignal := if e.idle.None? then e.(idle := Some(e.signals), signals := e.signals + 1) else e;
    withSignal.(pending := e.pending + [e.nextTask], nextTask := e.nextTask + 1)
  }

  /** `add(fn)`: admit, then flush. The new task's id is `e.nextTask`. */
  function AddStep(e: Executor): (f: Flushed)
    requires Inv(e)
    ensures Inv(f.after)
    // the new permission is granted at once or waits behind the old ones
    ensures f.granted + f.after.pending == e.pending + [e.nextTask]
    ensures f.after.nextTask == e.nextTask + 1
    // the limit is fixed; each grant takes one slot
    ensures f.after.limit == e.limit && f.after.running == e.running + |f.granted|
    // an existing signal is kept, a missing one is created
    ensures e.idle.Some? ==> f.after.idle == e.idle
    ensures e.idle.None? ==> f.after.idle == Some(e.signals)
    // adding never resolves the idle signal
    ensures f.resolved == None
  {
    AppendIncreasing(e.pending, e.nextTask);
    FlushKeepsInv(Admit(e));
    FlushStep(Admit(e))
  }

  /** A proof aid for the class methods, not a property: `add` is a flush after the new
      permission is admitted. */
  lemma AddStepIs(e: Executor)
    requires Inv(e)
    ensures AddStep(e) == FlushStep(Admit(e))
  {
  }

  /** `done()`: a granted task finished (resolved or threw): free its slot,
      flush. */
  function DoneStep(e: Executor): (f: Flushed)
    requires Inv(e) && e.running >= 1
    ensures Inv(f.after)
    ensures f.granted + f.after.pending == e.pending
    ensures f.after.running == e.running - 1 + |f.granted|
    // finishing a task names no new one, and the limit is fixed
    ensures f.after.nextTask == e.nextTask && f.after.limit == e.limit
    // while work remains the same signal stays pending
    ensures f.resolved.None? ==> f.after.idle == e.idle
    // the signal resolves exactly when this was the last queued or running task
    ensures f.resolved.Some? <==> Quiet(f.after)
    ensures f.resolved.Some? ==> f.resolved == e.idle
  {
    FlushKeepsInv(e.(running := e.running - 1));
    FlushStep(e.(running := e.running - 1))
  }

  /** A proof aid for the class methods, not a property: `done` is a flush after one slot is
      released. */
  lemma DoneStepIs(e: Executor)
    requires Inv(e) && e.running >= 1
    ensures DoneStep(e) == FlushStep(e.(running := e.running - 1))
  {
  }

  lemma AppendIncreasing(s: seq<nat>, x: nat)
    requires Increasing(s) && forall i :: 0 <= i < |s| ==> s[i] < x
    ensures Increasing(s + [x])
  {
  }

  /** A flush re-establishes the invariant from any state that holds an idle
      signal, whose running count is within the limit and whose queue is
      ordered: the state `add` and `done` hand to `flush`. */
  lemma FlushKeepsInv(e: Executor)
    requires e.limit.Finite? ==> e.limit.n >= 1
    requires Within(e.running, e.limit)
    requires e.idle.Some? ==> e.idle.value < e.signals
    requires Increasing(e.pending) && forall i :: 0 <= i < |e.pending| ==> e.pending[i] < e.nextTask
    requires e.idle.Some?
    ensures Inv(FlushStep(e).after)
  {
    DrainKeepsOrder(e.limit, e.pending, e.running, e.nextTask);
    var after := FlushStep(e).after;
    assert after.pending == Drain(e.limit, e.pending, e.running).rest;
    assert after.limit == e.limit && after.signals == e.signals && after.nextTask == e.nextTask;
    assert Within(after.running, after.limit);
    assert after.pending != [] ==> !Below(after.running, after.limit);
    assert after.idle.Some? <==> !Quiet(after);
    assert Increasing(after.pending);
  }

  /** What the `flush` loop leaves queued is still in `add` order and below
      the next id. */
  lemma DrainKeepsOrder(limit: Limit, pending: seq<nat>, running: nat, bound: nat)
    requires Increasing(pending) && forall i :: 0 <= i < |pending| ==> pending[i] < bound
    ensures Increasing(Drain(limit, pending, running).rest)
    ensures forall i :: 0 <= i < |Drain(limit, pending, running).rest| ==> Drain(limit, pending, running).rest[i] < bound
  {
    var d := Drain(limit, pending, running);
    DrainEffect(limit, pending, running);
    assert d.rest == pending[|d.granted|..];
    SuffixOrdered(pending, |d.granted|, bound);
  }

  /** Moving the front of the queue to the end of the granted ids keeps
      their concatenation. */
  lemma MoveFront(granted: seq<nat>, before: seq<nat>, v: nat, rest: seq<nat>)
    requires LinkedQueue.Step(before, LinkedQueue.Pop) == (rest, Some(v))
    ensures granted + before == (granted + [v]) + rest
  {
    assert before == [v] + rest;
  }

  /** A suffix of an ordered queue of ids below `bound` is one too. */
  lemma SuffixOrdered(s: seq<nat>, k: nat, bound: nat)
    requires k <= |s|
    requires Increasing(s) && forall i :: 0 <= i < |s| ==> s[i] < bound
    ensures Increasing(s[k..]) && forall i :: 0 <= i < |s[k..]| ==> s[k..][i] < bound
  {
    forall i, j | 0 <= i < j < |s[k..]|
      ensures s[k..][i] < s[k..][j]
    {
      assert s[k..][i] == s[k + i] && s[k..][j] == s[k + j];
    }
  }

  /** What `idle()` returns: an already resolved promise, or the promise of
      the current signal. */
  datatype IdlePromise = AlreadyResolved | Awaiting(signal: nat)

  function IdleStep(e: Executor): (p: IdlePromise)
    requires Inv(e)
    ensures p.AlreadyResolved? <==> Quiet(e)
    ensures p.Awaiting? ==> e.idle == Some(p.signal)
  {
    if e.idle.Some? then Awaiting(e.idle.value) else AlreadyResolved
  }

  /** Every task finishing in turn drains the executor: there is never a
      queued permission with no running task left to release it, and the
      last `done` resolves the idle signal. */
  function CompleteAll(e: Executor): (r: Executor)
    requires Inv(e)
    ensures Inv(r) && Quiet(r) && r.idle == None
    decreases e.running + |e.pending|
  {
    if e.running == 0 then e
    else
      var f := DoneStep(e);
      CompleteAll(f.after)
  }

  /** What a caller can do to the executor: `add` a task, or have a granted
      task finish (its `.finally(done)`). */
  datatype Request = AddTask | TaskDone

  /** A whole run: the final state, every permission granted along the way
      in grant order, and the ids of the tasks added, in `add` order. */
  datatype Served = Served(final: Executor, granted: seq<nat>, added: seq<nat>)

  /** One request, in a state where it can happen, and the ids it adds. */
  function Handle(e: Executor, r: Request): (f: Flushed)
    requires Inv(e) && (r.TaskDone? ==> e.running >= 1)
    ensures Inv(f.after)
    ensures f.granted + f.after.pending == e.pending + Made(e, r)
    ensures f.after.nextTask == e.nextTask + |Made(e, r)|
    ensures f.after.limit == e.limit
  {
    if r.AddTask? then AddStep(e) else DoneStep(e)
  }

  /** The id an `add` names: none for a finishing task. */
  function Made(e: Executor, r: Request): seq<nat>
  {
    if r.AddTask? then [e.nextTask] else []
  }

  /** Runs requests in order; a `TaskDone` with nothing running has no task
      to come from and is skipped. */
  function Serve(e: Executor, rs: seq<Request>): (s: Served)
    requires Inv(e)
    // the limit never changes, so it bounds the running tasks throughout
    ensures Inv(s.final) && s.final.limit == e.limit
    decreases |rs|
  {
    if rs == [] then Served(e, [], [])
    else if rs[0].TaskDone? && e.running == 0 then Serve(e, rs[1..])
    else
      var f := Handle(e, rs[0]);
      var s := Serve(f.after, rs[1..]);
      Served(s.final, f.granted + s.granted, Made(e, rs[0]) + s.added)
  }

  /** Over any run, no permission is lost, duplicated or reordered: what was
      granted, followed by what still waits, is exactly what was waiting
      followed by every task added, in `add` order, and the added tasks get
      consecutive ids. */
  lemma {:induction false} ServeConserves(e: Executor, rs: seq<Request>)
    requires Inv(e)
    ensures Serve(e, rs).granted + Serve(e, rs).final.pending == e.pending + Serve(e, rs).added
    ensures forall i :: 0 <= i < |Serve(e, rs).added| ==> Serve(e, rs).added[i] == e.nextTask + i
    ensures Serve(e, rs).final.nextTask == e.nextTask + |Serve(e, rs).added|
    decreases |rs|
  {
    if rs == [] {
    } else if rs[0].TaskDone? && e.running == 0 {
      ServeConserves(e, rs[1..]);
    } else {
      var f := Handle(e, rs[0]);
      ServeConserves(f.after, rs[1..]);
      var t := Serve(f.after, rs[1..]);
      Regroup(f.granted, t.granted, f.after.pending, t.final.pending, e.pending, Made(e, rs[0]), t.added);
      CountUp(Made(e, rs[0]), t.added, e.nextTask);
    }
  }

  /** Permissions are granted first come, first served: over any run the
      grants come out in ascending id order, each at most once. */
  lemma ServeInOrder(e: Executor, rs: seq<Request>)
    requires Inv(e)
    ensures Increasing(Serve(e, rs).granted)
  {
    var s := Serve(e, rs);
    ServeConserves(e, rs);
    QueuedThenAdded(e, s.added);
    PrefixIncreasing(e.pending + s.added, s.granted, s.final.pending);
  }

  /** One step's grants and the rest of the run's, regrouped. */
  lemma Regroup(g1: seq<nat>, g2: seq<nat>, p1: seq<nat>, p2: seq<nat>,
                q: seq<nat>, m1: seq<nat>, m2: seq<nat>)
    requires g1 + p1 == q + m1 && g2 + p2 == p1 + m2
    ensures (g1 + g2) + p2 == q + (m1 + m2)
  {
    calc {
      (g1 + g2) + p2;
      g1 + (p1 + m2);
      (g1 + p1) + m2;
    }
  }

  /** Ids counted up from `n`, the first `|m1|` of them by one step and the
      rest by the remainder of the run. */
  lemma CountUp(m1: seq<nat>, m2: seq<nat>, n: nat)
    requires forall i :: 0 <= i < |m1| ==> m1[i] == n + i
    requires forall i :: 0 <= i < |m2| ==> m2[i] == n + |m1| + i
    ensures forall i :: 0 <= i < |m1 + m2| ==> (m1 + m2)[i] == n + i
  {
  }

  /** The queued permissions followed by fresh ids counted up from
      `nextTask` are in ascending order. */
  lemma QueuedThenAdded(e: Executor, added: seq<nat>)
    requires Inv(e)
    requires forall i :: 0 <= i < |added| ==> added[i] == e.nextTask + i
    ensures Increasing(e.pending + added)
  {
    var all := e.pending + added;
    forall i, j | 0 <= i < j < |all|
      ensures all[i] < all[j]
    {
      if j < |e.pending| {
        assert all[i] == e.pending[i] && all[j] == e.pending[j];
      } else if i < |e.pending| {
        assert all[i] == e.pending[i] && all[j] == added[j - |e.pending|];
      } else {
        assert all[i] == added[i - |e.pending|] && all[j] == added[j - |e.pending|];
      }
    }
  }

  lemma PrefixIncreasing(all: seq<nat>, front: seq<nat>, back: seq<nat>)
    requires front + back == all && Increasing(all)
    ensures Increasing(front)
  {
    forall i, j | 0 <= i < j < |front|
      ensures front[i] < front[j]
    {
      assert front[i] == all[i] && front[j] == all[j];
    }
  }

  /** The imperative executor, with the source's closed-over variables as fields. */
  class BoundedQueue {
    const concurrency: Limit
    const queue: LinkedQueue.Queue<nat>
    var idle: Option<nat>
    var running: nat
    var nextTask: nat
    var signals: nat
    ghost var Repr: set<object>

    ghost predicate Wf()
      reads this, Repr
    {
      && this in Repr && queue in Repr && queue.Repr <= Repr && this !in queue.Repr
      && queue.Valid()
    }

    ghost function Abs(): Executor
      reads this, queue
    {
      Executor(concurrency, queue.Contents, running, idle, nextTask, signals)
    }

    ghost predicate Valid()
      reads this, Repr
    {
      Wf() && Inv(Abs())
    }

    constructor (options: QueueOptions)
      ensures Valid() && fresh(Repr)
      ensures Abs() == Create(options)
    {
      concurrency := GetConcurrency(options);
      var q := new LinkedQueue.Queue<nat>();
      queue := q;
      idle := None;
      running := 0;
      nextTask, signals := 0, 0;
      Repr := {this} + q.Repr;
    }

    /** The loop of `flush`: dequeue permissions while a slot is free. */
    method Grant() returns (granted: seq<nat>)
      requires Wf() && Within(running, concurrency)
      modifies Repr
      ensures Wf() && Repr == old(Repr)
      ensures idle == old(idle) && nextTask == old(nextTask) && signals == old(signals)
      ensures granted + queue.Contents == old(queue.Contents)
      ensures running == old(running) + |granted|
      ensures Within(running, concurrency)
      ensures !Below(running, concurrency) || queue.Contents == []
    {
      granted := [];
      while Below(running, concurrency)
        invariant Wf() && Repr == old(Repr)
        invariant idle == old(idle) && nextTask == old(nextTask) && signals == old(signals)
        invariant granted + queue.Contents == old(queue.Contents)
        invariant running == old(running) + |granted|
        invariant Within(running, concurrency)
        decreases |queue.Contents|
      {
        ghost var before := queue.Contents;
        var next := queue.Dequeue();
        if next.None? {
          return;
        }
        MoveFront(granted, before, next.value, queue.Contents);
        running := running + 1;
        granted := granted + [next.value];
      }
    }

    /** `flush`. */
    method Flush() returns (granted: seq<nat>, resolved: Option<nat>)
      requires Wf() && Within(running, concurrency)
      modifies Repr
      ensures Wf() && Repr == old(Repr)
      ensures Flushed(Abs(), granted, resolved) == FlushStep(old(Abs()))
    {
      ghost var e := Abs();
      granted := Grant();
      DrainDetermined(e.limit, e.pending, e.running, granted, queue.Contents);
      FlushStepIs(e, Drained(granted, queue.Contents, running));
      resolved := None;
      if queue.size == 0 && running == 0 {
        resolved := idle;
        idle := None;
      }
    }

    /** `done`: a granted task settled, whether it resolved or threw. */
    method Done() returns (granted: seq<nat>, resolved: Option<nat>)
      requires Valid() && running >= 1
      modifies Repr
      ensures Valid() && Repr == old(Repr)
      ensures Flushed(Abs(), granted, resolved) == DoneStep(old(Abs()))
    {
      ghost var e := Abs();
      running := running - 1;
      ghost var mid := Abs();
      assert mid == e.(running := e.running - 1);
      granted, resolved := Flush();
      DoneStepIs(e);
    }

    /** The first half of `add`: create the idle signal if there is none and
        enqueue the new task's permission. */
    method Enlist() returns (id: nat)
      requires Valid()
      modifies Repr
      ensures Wf() && fresh(Repr - old(Repr))
      ensures Within(running, concurrency)
      ensures id == old(nextTask)
      ensures Abs() == Admit(old(Abs()))
    {
      if idle.None? {
        idle := Some(signals);
        signals := signals + 1;
      }
      id := nextTask;
      nextTask := nextTask + 1;
      queue.Enqueue(id);
      Repr := Repr + queue.Repr;
    }

    /** `add(fn)`: returns the new task's id. */
    method Add() returns (id: nat, granted: seq<nat>, resolved: Option<nat>)
      requires Valid()
      modifies Repr
      ensures Valid() && fresh(Repr - old(Repr))
      ensures id == old(nextTask)
      ensures Flushed(Abs(), granted, resolved) == AddStep(old(Abs()))
    {
      ghost var e := Abs();
      id := Enlist();
      ghost var mid := Abs();
      granted, resolved := Flush();
      AddStepIs(e);
    }

    /** `idle()`. */
    method Idle() returns (p: IdlePromise)
      requires Valid()
      ensures p == IdleStep(Abs())
    {
      p := if idle.Some? then Awaiting(idle.value) else AlreadyResolved;
    }
  }
}
