/**
 * `debounce(fn, options)` (packages/promise/src/Promise/debounce.ts).
 *
 * The closure's state is the flags `isRunning`, `isPending` and `flushAsap`,
 * the latest arguments `nextArgs`, the wait and max-wait timers and the set of
 * idle timers. Everything runs on one thread, so each public function is a
 * transition of that state. The two things that happen later are events of
 * their own: a timer firing, and the `fn` call in flight finishing (the
 * `finally` block of `invoke`). `invoke` is split accordingly into
 * `BeginStep`, which runs up to the call of `fn` and reports the arguments it
 * calls `fn` with, and `CompleteStep`.
 *
 * `Session` is the state as a value and the `...Step` functions are the
 * transitions; `Debouncer` is the closure itself, with its timers as objects,
 * and each of its methods is proved to perform the matching transition.
 */
module Debounce {
  import opened Wrappers
  import opened Timers
  import opened Actions

  /** `DebounceOptions`; an absent field is `None`. */
  datatype Options = Options(wait: int, maxWait: Option<int>, leading: Option<bool>, trailing: Option<bool>)

  datatype Session<A> = Session(
    leading: bool,
    isRunning: bool, isPending: bool, flushAsap: bool, nextArgs: Option<A>,
    wait: TimerValue<Action>, maxWait: TimerValue<Action>,
    idle: seq<TimerValue<Action>>, waiters: nat)

  /** The state after a step, and the arguments `fn` was called with, if it was. */
  datatype Begun<A> = Begun(after: Session<A>, started: Option<A>)

  /** The state after a step, and the waiter it concerns. */
  datatype Ticket<A> = Ticket(after: Session<A>, waiter: nat)

  /** `isIdle`. */
  predicate IsIdle<A>(s: Session<A>)
  {
    !s.isPending && !s.isRunning
  }

  /** What holds at every moment, also halfway through a step. */
  ghost predicate Core<A>(s: Session<A>)
  {
    // `nextArgs` is defined exactly while a call is pending
    && (s.nextArgs.Some? <==> s.isPending)
    && !s.wait.callback.Resolve? && s.maxWait.callback == Invoke
    && Waiters(s.idle, s.waiters)
    && Dormant(s.wait) && Dormant(s.maxWait) && AllDormant(s.idle)
    // no timer runs while `fn` runs, nor a wait timer with nothing pending
    && (s.isRunning ==> !s.wait.armed && !s.maxWait.armed)
    && (!s.isPending ==> !s.wait.armed && !s.maxWait.armed)
    // idle timers run only while idle
    && (!IsIdle(s) ==> NoneArmed(s.idle))
  }

  /** What holds between public operations and events: in addition, a
      pending call that is not running always has its timers running. */
  ghost predicate Inv<A>(s: Session<A>)
  {
    Core(s) && (s.isPending && !s.isRunning ==> Ready(s.wait) && Ready(s.maxWait))
  }

  /** What no step changes: `options.leading` and the timeout and callback
      of each wait timer (the handles are `const` in the closure). */
  predicate Fixed<A>(s: Session<A>, r: Session<A>)
  {
    && r.leading == s.leading
    && r.wait.timeout == s.wait.timeout && r.wait.callback == s.wait.callback
    && r.maxWait.timeout == s.maxWait.timeout && r.maxWait.callback == s.maxWait.callback
  }

  /** The closure as `debounce(fn, options)` leaves it. */
  function Create<A>(options: Options): (s: Session<A>)
    ensures Inv(s) && IsIdle(s) && !s.flushAsap && s.idle == []
    ensures !s.wait.armed && !s.maxWait.armed
    ensures s.wait.timeout == options.wait
    // `trailing: false` makes the wait timer clear instead of invoke
    ensures s.wait.callback == Clear <==> options.trailing == Some(false)
    // without `maxWait` the max-wait timer is disabled for good
    ensures options.maxWait.None? ==> s.maxWait.timeout < 0
    ensures options.maxWait.Some? ==> s.maxWait.timeout == options.maxWait.value
    ensures s.leading <==> options.leading == Some(true)
  {
    Session(options.leading == Some(true), false, false, false, None,
            TimerValue(options.wait, if options.trailing == Some(false) then Clear else Invoke, false, 0),
            TimerValue(options.maxWait.GetOr(-1), Invoke, false, 0),
            [], 0)
  }

  /** `clear`. */
  function ClearStep<A>(s: Session<A>): (r: Session<A>)
    ensures !s.isPending ==> r == s
    ensures !r.isPending && (s.isPending ==> r.nextArgs.None?)
    // a call in flight is not cancelled
    ensures r.isRunning == s.isRunning && r.flushAsap == s.flushAsap
    ensures s.isPending && s.wait.timeout >= 0 ==> !r.wait.armed
    ensures s.isPending && s.maxWait.timeout >= 0 ==> !r.maxWait.armed
    // the idle timers start over only when nothing runs
    ensures s.isPending && !s.isRunning ==>
              SameHandles(s.idle, r.idle) && forall i :: 0 <= i < |s.idle| && s.idle[i].timeout >= 0 ==> r.idle[i].armed
    ensures s.isRunning ==> r.idle == s.idle
    ensures Fixed(s, r) && r.waiters == s.waiters
  {
    if !s.isPending then s
    else
      var cleared := s.(isPending := false, nextArgs := None,
                        wait := Apply(s.wait, ClearOp), maxWait := Apply(s.maxWait, ClearOp));
      if !s.isRunning then cleared.(idle := ApplyAll(s.idle, RestartOp)) else cleared
  }

  /** The synchronous part of `invoke`, up to the call of `fn`. */
  function BeginStep<A>(s: Session<A>): (r: Begun<A>)
    // `fn` is called only with a pending call and none in flight
    ensures r.started.Some? <==> !s.isRunning && s.isPending && s.nextArgs.Some?
    ensures r.started.None? ==> r.after == s
    ensures r.started.Some? ==>
              && r.started == s.nextArgs
              && r.after.isRunning && !r.after.isPending && r.after.nextArgs.None?
              && SameHandles(s.idle, r.after.idle)
    ensures Fixed(s, r.after) && r.after.flushAsap == s.flushAsap && r.after.waiters == s.waiters
  {
    if s.isRunning || !s.isPending || s.nextArgs.None? then Begun(s, None)
    else
      Begun(s.(isRunning := true, isPending := false, nextArgs := None,
               wait := Apply(s.wait, ClearOp), maxWait := Apply(s.maxWait, ClearOp),
               idle := ApplyAll(s.idle, ClearOp)),
            s.nextArgs)
  }

  /** The `finally` block of `invoke`: the call in flight has finished, by
      returning or by throwing. */
  function CompleteStep<A>(s: Session<A>): (r: Begun<A>)
    requires s.isRunning
    // `flush` during the call: the pending call starts at once
    ensures s.isPending && s.flushAsap && s.nextArgs.Some? ==> r.started == s.nextArgs && r.after.isRunning
    ensures !(s.isPending && s.flushAsap) ==> r.started.None? && !r.after.isRunning
    // a call that came in meanwhile waits anew, both timers restarted
    ensures s.isPending && !s.flushAsap ==>
              && (s.wait.timeout >= 0 ==> r.after.wait.armed && r.after.wait.scheduled == s.wait.scheduled + 1)
              && (s.maxWait.timeout >= 0 ==> r.after.maxWait.armed && r.after.maxWait.scheduled == s.maxWait.scheduled + 1)
    // otherwise the idle timers start over
    ensures !s.isPending ==>
              SameHandles(s.idle, r.after.idle) &&
              forall i :: 0 <= i < |s.idle| && s.idle[i].timeout >= 0 ==> r.after.idle[i].armed
    ensures r.after.flushAsap == s.flushAsap && r.after.isPending == (s.isPending && !r.started.Some?)
    // the flushed call is started by `invoke` itself
    ensures s.isPending && s.flushAsap ==> r == BeginStep(s.(isRunning := false))
    // a waiting call keeps its arguments, and the idle timers are left alone
    ensures s.isPending && !s.flushAsap ==> r.after.nextArgs == s.nextArgs && r.after.idle == s.idle
    ensures !s.isPending ==> r.after.nextArgs == s.nextArgs
    ensures Fixed(s, r.after) && r.after.waiters == s.waiters
  {
    var done := s.(isRunning := false);
    if done.isPending && done.flushAsap then BeginStep(done)
    else if done.isPending then
      Begun(done.(wait := Apply(done.wait, RestartOp), maxWait := Apply(done.maxWait, RestartOp)), None)
    else
      Begun(done.(idle := ApplyAll(done.idle, RestartOp)), None)
  }

  /** `debounced(...args)`. */
  function CallStep<A>(s: Session<A>, args: A): (r: Begun<A>)
    // the leading edge never fires: a call never starts `fn` by itself
    ensures r.started.None?
    // the latest arguments replace any pending ones
    ensures r.after.isPending && r.after.nextArgs == Some(args)
    // during a call in flight nothing else changes
    ensures s.isRunning ==> r.after == s.(isPending := true, nextArgs := Some(args))
    // otherwise the wait timer starts over, postponing the invocation ...
    ensures !s.isRunning && s.wait.timeout >= 0 ==>
              r.after.wait.armed && r.after.wait.scheduled == s.wait.scheduled + 1
    // ... while a running max-wait timer is kept, so it bounds the delay
    ensures !s.isRunning && s.maxWait.timeout >= 0 ==> r.after.maxWait.armed
    ensures s.maxWait.armed ==> r.after.maxWait == s.maxWait
    ensures SameHandles(s.idle, r.after.idle)
    ensures r.after.isRunning == s.isRunning && r.after.flushAsap == s.flushAsap
    ensures Fixed(s, r.after) && r.after.waiters == s.waiters
  {
    var called := s.(isPending := true, nextArgs := Some(args));
    if called.isRunning then Begun(called, None)
    else if !called.isPending && !called.isRunning && called.leading then BeginStep(called)
    else
      Begun(called.(idle := ApplyAll(called.idle, ClearOp),
                    wait := Apply(called.wait, RestartOp),
                    maxWait := Apply(called.maxWait, StartOp)),
            None)
  }

  /** `debounced.flush()`. */
  function FlushStep<A>(s: Session<A>): (r: Begun<A>)
    ensures !s.isPending ==> r == Begun(s, None)
    // nothing runs: the pending call starts now, and is used up, exactly as
    // `invoke` does it
    ensures s.isPending && !s.isRunning && s.nextArgs.Some? ==> r.started == s.nextArgs
    ensures s.isPending && !s.isRunning ==> r == BeginStep(s)
    ensures s.isPending && !s.isRunning && s.nextArgs.Some? ==>
              r.after.isRunning && !r.after.isPending && r.after.nextArgs.None?
    // a call runs: the pending one is marked to start as soon as it finishes
    ensures s.isPending && s.isRunning ==> r == Begun(s.(flushAsap := true), None)
    // once set, `flushAsap` stays set
    ensures s.flushAsap ==> r.after.flushAsap
    ensures Fixed(s, r.after) && r.after.waiters == s.waiters
  {
    if !s.isPending then Begun(s, None)
    else if !s.isRunning then BeginStep(s)
    else Begun(s.(flushAsap := true), None)
  }

  /** `debounced.idle(gracePeriod)`: registers a new, unarmed idle timer. */
  function IdleStep<A>(s: Session<A>, grace: int): (r: Ticket<A>)
    ensures r.after.idle == s.idle + [TimerValue(grace, Resolve(r.waiter), false, 0)]
    ensures r.after.(idle := s.idle, waiters := s.waiters) == s
    // the waiter is numbered by a counter that moves on
    ensures r.waiter == s.waiters && r.after.waiters == s.waiters + 1
  {
    Ticket(s.(idle := s.idle + [TimerValue(grace, Resolve(s.waiters), false, 0)], waiters := s.waiters + 1),
           s.waiters)
  }

  /** The wait timer fires. */
  function FireWaitStep<A>(s: Session<A>): (r: Begun<A>)
    requires s.wait.armed && !s.wait.callback.Resolve?
    ensures !r.after.wait.armed
    ensures s.wait.callback == Clear ==> r.started.None? && !r.after.isPending
    ensures s.wait.callback == Invoke && !s.isRunning && s.isPending && s.nextArgs.Some? ==>
              r.started == s.nextArgs && r.after.isRunning && !r.after.isPending && r.after.nextArgs.None?
    // the callback is `invoke` or `clear`, run on the disarmed handle
    ensures s.wait.callback == Invoke ==> r == BeginStep(s.(wait := Fired(s.wait)))
    ensures s.wait.callback == Clear ==> r == Begun(ClearStep(s.(wait := Fired(s.wait))), None)
    ensures Fixed(s, r.after) && r.after.waiters == s.waiters
  {
    var fired := s.(wait := Fired(s.wait));
    if s.wait.callback == Invoke then BeginStep(fired) else Begun(ClearStep(fired), None)
  }

  /** The max-wait timer fires; its callback is `invoke`. */
  function FireMaxWaitStep<A>(s: Session<A>): (r: Begun<A>)
    requires s.maxWait.armed
    ensures !r.after.maxWait.armed
    ensures !s.isRunning && s.isPending && s.nextArgs.Some? ==>
              r.started == s.nextArgs && r.after.isRunning && !r.after.isPending && r.after.nextArgs.None?
    // the callback is `invoke`, run on the disarmed handle
    ensures r == BeginStep(s.(maxWait := Fired(s.maxWait)))
    ensures Fixed(s, r.after) && r.after.waiters == s.waiters
  {
    BeginStep(s.(maxWait := Fired(s.maxWait)))
  }

  /** The idle timer at `i` fires: it leaves the set and resolves its waiter. */
  function FireIdleStep<A>(s: Session<A>, i: nat): (r: Ticket<A>)
    requires i < |s.idle| && s.idle[i].armed && s.idle[i].callback.Resolve?
    ensures r.waiter == s.idle[i].callback.waiter
    // exactly the fired handle leaves; the others stay, in order
    ensures r.after.idle == Without(s.idle, i)
    ensures r.after.(idle := s.idle) == s
  {
    Ticket(s.(idle := Without(s.idle, i)), s.idle[i].callback.waiter)
  }

  // ----- The invariant, step by step -----

  lemma BeginKeepsInv<A>(s: Session<A>)
    requires Core(s)
    ensures Inv(BeginStep(s).after)
    // every timer is stopped before `fn` is called
    ensures BeginStep(s).started.Some? ==>
              var t := BeginStep(s).after; !t.wait.armed && !t.maxWait.armed && NoneArmed(t.idle)
  {
    ClearAllSilences(s.idle);
    SameCallbacks(s.idle, ApplyAll(s.idle, ClearOp));
  }

  lemma ClearKeepsInv<A>(s: Session<A>)
    requires Core(s)
    ensures Inv(ClearStep(s))
    // nothing is pending and no wait timer runs after `clear`
    ensures !ClearStep(s).wait.armed && !ClearStep(s).maxWait.armed
  {
    RestartAllArms(s.idle);
    SameCallbacks(s.idle, ApplyAll(s.idle, RestartOp));
  }

  lemma CompleteKeepsInv<A>(s: Session<A>)
    requires Inv(s) && s.isRunning
    ensures Inv(CompleteStep(s).after)
  {
    var done := s.(isRunning := false);
    if s.isPending && s.flushAsap {
      BeginKeepsInv(done);
    } else if !s.isPending {
      RestartAllArms(s.idle);
      SameCallbacks(s.idle, ApplyAll(s.idle, RestartOp));
    }
  }

  lemma CallKeepsInv<A>(s: Session<A>, args: A)
    requires Inv(s)
    ensures Inv(CallStep(s, args).after)
    // a call outside a call in flight stops every idle timer
    ensures !s.isRunning ==> NoneArmed(CallStep(s, args).after.idle)
  {
    ClearAllSilences(s.idle);
    SameCallbacks(s.idle, ApplyAll(s.idle, ClearOp));
  }

  lemma FlushKeepsInv<A>(s: Session<A>)
    requires Inv(s)
    ensures Inv(FlushStep(s).after)
    // with a call pending and none in flight, `flush` calls `fn`
    ensures s.isPending && !s.isRunning ==> FlushStep(s).started.Some?
  {
    if s.isPending && !s.isRunning {
      BeginKeepsInv(s);
    }
  }

  lemma IdleKeepsInv<A>(s: Session<A>, grace: int)
    requires Inv(s)
    ensures Inv(IdleStep(s, grace).after)
    // the new idle timer waits for a later `clear` or completion to arm it
    ensures !IdleStep(s, grace).after.idle[|s.idle|].armed
    // its waiter is awaited by no earlier idle timer
    ensures Resolve(IdleStep(s, grace).waiter) !in Callbacks(s.idle)
  {
    AppendKeepsWaiters(s.idle, TimerValue(grace, Resolve(s.waiters), false, 0), s.waiters);
  }

  lemma FireWaitKeepsInv<A>(s: Session<A>)
    requires Inv(s) && s.wait.armed
    ensures Inv(FireWaitStep(s).after)
    // with trailing calls the wait timer always calls `fn`
    ensures s.wait.callback == Invoke ==> FireWaitStep(s).started.Some?
  {
    var fired := s.(wait := Fired(s.wait));
    if s.wait.callback == Invoke {
      BeginKeepsInv(fired);
    } else {
      ClearKeepsInv(fired);
    }
  }

  lemma FireMaxWaitKeepsInv<A>(s: Session<A>)
    requires Inv(s) && s.maxWait.armed
    ensures Inv(FireMaxWaitStep(s).after)
    // the max-wait timer always calls `fn`
    ensures FireMaxWaitStep(s).started.Some?
  {
    BeginKeepsInv(s.(maxWait := Fired(s.maxWait)));
  }

  lemma FireIdleKeepsInv<A>(s: Session<A>, i: nat)
    requires Inv(s) && i < |s.idle| && s.idle[i].armed
    // an armed idle timer always resolves a waiter
    ensures s.idle[i].callback.Resolve?
    ensures Inv(FireIdleStep(s, i).after)
    // an idle promise resolves only while idle ...
    ensures IsIdle(s)
    // ... and once: no idle timer left awaits its waiter
    ensures Resolve(FireIdleStep(s, i).waiter) !in Callbacks(FireIdleStep(s, i).after.idle)
  {
    WaiterAt(s.idle, s.waiters, i);
    WithoutKeepsWaiters(s.idle, i, s.waiters);
  }

  // ----- Any run of calls and events -----

  datatype Event<A> =
    | Call(args: A) | ClearCall | FlushCall | IdleCall(grace: int)
    | Finish | WaitFires | MaxWaitFires | IdleFires(index: nat)

  /** Whether the event can happen in `s` (a timer fires only while armed,
      a call finishes only while one runs). */
  predicate Enabled<A>(s: Session<A>, ev: Event<A>)
  {
    match ev
    case Finish => s.isRunning
    case WaitFires => s.wait.armed && !s.wait.callback.Resolve?
    case MaxWaitFires => s.maxWait.armed
    case IdleFires(i) => i < |s.idle| && s.idle[i].armed && s.idle[i].callback.Resolve?
    case _ => true
  }

  function Next<A>(s: Session<A>, ev: Event<A>): Begun<A>
    requires Enabled(s, ev)
  {
    match ev
    case Call(args) => CallStep(s, args)
    case ClearCall => Begun(ClearStep(s), None)
    case FlushCall => FlushStep(s)
    case IdleCall(grace) => Begun(IdleStep(s, grace).after, None)
    case Finish => CompleteStep(s)
    case WaitFires => FireWaitStep(s)
    case MaxWaitFires => FireMaxWaitStep(s)
    case IdleFires(i) => Begun(FireIdleStep(s, i).after, None)
  }

  /** One event keeps the invariant and `flushAsap`, and starts `fn` only
      when no call is in flight or the one in flight has just finished. */
  lemma NextKeepsInv<A>(s: Session<A>, ev: Event<A>)
    requires Inv(s) && Enabled(s, ev)
    ensures Inv(Next(s, ev).after)
    ensures s.flushAsap ==> Next(s, ev).after.flushAsap
    ensures Fixed(s, Next(s, ev).after)
    // waiter numbers are never handed out twice
    ensures s.waiters <= Next(s, ev).after.waiters
    // an event that starts `fn` uses the pending call up, so no call starts twice
    ensures Next(s, ev).started.Some? ==>
              Next(s, ev).started == s.nextArgs && !Next(s, ev).after.isPending && Next(s, ev).after.nextArgs.None?
    ensures Bit(s.isRunning) + Bit(Next(s, ev).started.Some?) == Bit(ev.Finish?) + Bit(Next(s, ev).after.isRunning)
  {
    match ev
    case Call(args) => CallKeepsInv(s, args);
    case ClearCall => ClearKeepsInv(s);
    case FlushCall => FlushKeepsInv(s);
    case IdleCall(grace) => IdleKeepsInv(s, grace);
    case Finish => CompleteKeepsInv(s);
    case WaitFires => FireWaitKeepsInv(s);
    case MaxWaitFires => FireMaxWaitKeepsInv(s);
    case IdleFires(i) => FireIdleKeepsInv(s, i);
  }

  /** The state after a run, how many times it called `fn`, and how many of
      those calls finished. */
  datatype Outcome<A> = Outcome(final: Session<A>, starts: nat, finishes: nat)

  /** Runs the events in order; an event that cannot happen is skipped. */
  function Run<A>(s: Session<A>, evs: seq<Event<A>>): Outcome<A>
    decreases |evs|
  {
    if evs == [] then Outcome(s, 0, 0)
    else if !Enabled(s, evs[0]) then Run(s, evs[1..])
    else
      var step := Next(s, evs[0]);
      var rest := Run(step.after, evs[1..]);
      Outcome(rest.final, Bit(step.started.Some?) + rest.starts, Bit(evs[0].Finish?) + rest.finishes)
  }

  /** Over any run the invariant holds, `flushAsap` is never reset, and at
      most one call of `fn` is in flight at any time: every call but the one
      still running has finished. */
  lemma {:induction false} RunSingleFlight<A>(s: Session<A>, evs: seq<Event<A>>)
    requires Inv(s)
    ensures Inv(Run(s, evs).final)
    ensures s.flushAsap ==> Run(s, evs).final.flushAsap
    ensures Fixed(s, Run(s, evs).final)
    ensures s.waiters <= Run(s, evs).final.waiters
    ensures Bit(s.isRunning) + Run(s, evs).starts == Run(s, evs).finishes + Bit(Run(s, evs).final.isRunning)
    decreases |evs|
  {
    if evs != [] {
      if !Enabled(s, evs[0]) {
        RunSingleFlight(s, evs[1..]);
      } else {
        NextKeepsInv(s, evs[0]);
        RunSingleFlight(Next(s, evs[0]).after, evs[1..]);
      }
    }
  }

  /** The options stay in force over any run: with `trailing: false` the
      wait timer keeps `clear` as its callback, so it never calls `fn`;
      without `maxWait` the max-wait timer is never armed; and the timeouts
      stay the ones given. */
  lemma OptionsHold<A>(options: Options, evs: seq<Event<A>>)
    ensures options.trailing == Some(false) ==> Run(Create(options), evs).final.wait.callback == Clear
    ensures options.maxWait.None? ==> !Run(Create(options), evs).final.maxWait.armed
    ensures Run(Create(options), evs).final.wait.timeout == options.wait
    ensures options.maxWait.Some? ==> Run(Create(options), evs).final.maxWait.timeout == options.maxWait.value
  {
    RunSingleFlight(Create(options), evs);
  }

  /** The events whose code restarts the idle timers: `clear`, a finished
      call, and the wait timer when its callback (`callback`) is `clear`. */
  predicate RestartsIdle<A>(callback: Action, ev: Event<A>)
  {
    ev.ClearCall? || ev.Finish? || (ev.WaitFires? && callback == Clear)
  }

  /** No other event arms an idle timer: while none is armed, every other
      event leaves them all unarmed. */
  lemma OnlyRestartsArmIdle<A>(s: Session<A>, ev: Event<A>)
    requires Inv(s) && Enabled(s, ev) && NoneArmed(s.idle)
    requires !RestartsIdle(s.wait.callback, ev)
    ensures NoneArmed(Next(s, ev).after.idle)
  {
    match ev
    case Call(args) => CallKeepsInv(s, args);
    case FlushCall => FlushKeepsInv(s);
    case IdleCall(grace) =>
      var t := IdleStep(s, grace).after;
      assert t.idle == s.idle + [TimerValue(grace, Resolve(s.waiters), false, 0)];
    case WaitFires => BeginKeepsInv(s.(wait := Fired(s.wait)));
    case MaxWaitFires => BeginKeepsInv(s.(maxWait := Fired(s.maxWait)));
    case IdleFires(i) => assert false;
  }

  /** An `idle()` promise issued while no idle timer runs stays unresolved
      until a `clear`, a finished call or a clearing wait timer: over any run
      without those events, no idle timer is ever armed, so none can fire. */
  lemma {:induction false} IdleWaitsForRestart<A>(s: Session<A>, evs: seq<Event<A>>)
    requires Inv(s) && NoneArmed(s.idle)
    requires forall k :: 0 <= k < |evs| ==> !RestartsIdle(s.wait.callback, evs[k])
    ensures NoneArmed(Run(s, evs).final.idle)
    decreases |evs|
  {
    if evs != [] {
      if !Enabled(s, evs[0]) {
        IdleWaitsForRestart(s, evs[1..]);
      } else {
        NextKeepsInv(s, evs[0]);
        OnlyRestartsArmIdle(s, evs[0]);
        IdleWaitsForRestart(Next(s, evs[0]).after, evs[1..]);
      }
    }
  }

  /** Calls with no event between them: only the latest arguments are kept. */
  function CallAll<A>(s: Session<A>, calls: seq<A>): Session<A>
    decreases |calls|
  {
    if calls == [] then s else CallAll(CallStep(s, calls[0]).after, calls[1..])
  }

  lemma {:induction false} CallsCoalesce<A>(s: Session<A>, calls: seq<A>)
    requires calls != []
    ensures CallAll(s, calls).isPending && CallAll(s, calls).nextArgs == Some(calls[|calls| - 1])
    ensures CallAll(s, calls).isRunning == s.isRunning
    decreases |calls|
  {
    if |calls| > 1 {
      CallsCoalesce(CallStep(s, calls[0]).after, calls[1..]);
    }
  }

  // ----- The closure -----

  /** The state `debounce(fn, options)` closes over, and its functions. */
  class Debouncer<A> {
    const leading: bool
    var isRunning: bool
    var isPending: bool
    var flushAsap: bool
    var nextArgs: Option<A>
    const waitTimer: Timer<Action>
    const maxWaitTimer: Timer<Action>
    var idleTimers: seq<Timer<Action>>
    var waiters: nat
    ghost var Repr: set<object>

    /** The heap shape: the timers are distinct objects owned by the closure,
        and each holds the callback its role gives it. */
    ghost predicate Wf()
      reads this, Repr
    {
      && this in Repr && waitTimer in Repr && maxWaitTimer in Repr
      && (forall t :: t in idleTimers ==> t in Repr && t.callback.Resolve?)
      && waitTimer != maxWaitTimer && waitTimer !in idleTimers && maxWaitTimer !in idleTimers
      && Distinct(idleTimers)
      && !waitTimer.callback.Resolve? && maxWaitTimer.callback == Action.Invoke
    }

    /** The closure's state as a value. */
    ghost function Abs(): Session<A>
      reads this, waitTimer, maxWaitTimer, set t | t in idleTimers
    {
      Session(leading, isRunning, isPending, flushAsap, nextArgs,
              waitTimer.Value(), maxWaitTimer.Value(), Values(idleTimers), waiters)
    }

    /** `debounce(fn, options)`. */
    constructor (options: Options)
      ensures Wf() && fresh(Repr)
      ensures Abs() == Create(options) && Inv(Abs())
    {
      leading := options.leading == Some(true);
      isRunning, isPending, flushAsap, nextArgs := false, false, false, None;
      var w := new Timer(options.wait, if options.trailing == Some(false) then Action.Clear else Action.Invoke);
      var m := new Timer(options.maxWait.GetOr(-1), Action.Invoke);
      waitTimer, maxWaitTimer := w, m;
      idleTimers, waiters := [], 0;
      Repr := {this, w, m};
    }

    /** `clear`, which is also `.clear()`. */
    method Clear()
      requires Wf()
      modifies Repr
      ensures Wf() && Repr == old(Repr)
      ensures Abs() == ClearStep(old(Abs()))
    {
      if !isPending {
        return;
      }
      isPending := false;
      nextArgs := None;
      waitTimer.Clear();
      maxWaitTimer.Clear();
      if !isRunning {
        ApplyEach(idleTimers, RestartOp);
      }
    }

    /** `invoke`, up to the call of `fn`; `started` is what `fn` is called with. */
    method Invoke() returns (started: Option<A>)
      requires Wf()
      modifies Repr
      ensures Wf() && Repr == old(Repr)
      ensures Begun(Abs(), started) == BeginStep(old(Abs()))
    {
      var args := nextArgs;
      if isRunning || !isPending || args.None? {
        return None;
      }
      isRunning := true;
      isPending := false;
      nextArgs := None;
      waitTimer.Clear();
      maxWaitTimer.Clear();
      ApplyEach(idleTimers, ClearOp);
      started := args;
    }

    /** The `finally` block of `invoke`. */
    method Complete() returns (started: Option<A>)
      requires Wf() && isRunning
      modifies Repr
      ensures Wf() && Repr == old(Repr)
      ensures Begun(Abs(), started) == CompleteStep(old(Abs()))
    {
      isRunning := false;
      started := None;
      if isPending && flushAsap {
        started := Invoke();
      } else if isPending {
        waitTimer.Restart();
        maxWaitTimer.Restart();
      } else {
        ApplyEach(idleTimers, RestartOp);
      }
    }

    /** `debounced(...args)`. */
    method Call(args: A) returns (started: Option<A>)
      requires Wf()
      modifies Repr
      ensures Wf() && Repr == old(Repr)
      ensures Begun(Abs(), started) == CallStep(old(Abs()), args)
    {
      isPending := true;
      nextArgs := Some(args);
      started := None;
      if isRunning {
        return;
      }
      if !isPending && !isRunning && leading {
        assert false;
      }
      ApplyEach(idleTimers, ClearOp);
      waitTimer.Restart();
      maxWaitTimer.Start();
    }

    /** `debounced.flush()`. */
    method Flush() returns (started: Option<A>)
      requires Wf()
      modifies Repr
      ensures Wf() && Repr == old(Repr)
      ensures Begun(Abs(), started) == FlushStep(old(Abs()))
    {
      started := None;
      if !isPending {
        return;
      }
      if !isRunning {
        started := Invoke();
      } else {
        flushAsap := true;
      }
    }

    /** `debounced.idle(gracePeriod)`: `waiter` names the returned promise. */
    method Idle(grace: int) returns (waiter: nat)
      requires Wf()
      modifies this
      ensures Wf() && fresh(Repr - old(Repr))
      ensures Ticket(Abs(), waiter) == IdleStep(old(Abs()), grace)
    {
      var t := new Timer(grace, Resolve(waiters));
      ValuesAppend(idleTimers, t);
      DistinctAppend(idleTimers, t);
      waiter := waiters;
      waiters := waiters + 1;
      idleTimers := idleTimers + [t];
      Repr := Repr + {t};
    }

    /** `debounced.isIdle()`, `.isPending()` and `.isRunning()`. */
    method Status() returns (idle: bool, pending: bool, running: bool)
      requires Wf()
      ensures pending == Abs().isPending && running == Abs().isRunning
      ensures idle <==> IsIdle(Abs())
      ensures idle <==> !pending && !running
    {
      idle := !isPending && !isRunning;
      pending := isPending;
      running := isRunning;
    }

    /** The wait timer fires. */
    method FireWait() returns (started: Option<A>)
      requires Wf() && waitTimer.armed
      modifies Repr
      ensures Wf() && Repr == old(Repr)
      ensures Begun(Abs(), started) == FireWaitStep(old(Abs()))
    {
      var cb := waitTimer.Fire();
      if cb == Action.Invoke {
        started := Invoke();
      } else {
        Clear();
        started := None;
      }
    }

    /** The max-wait timer fires. */
    method FireMaxWait() returns (started: Option<A>)
      requires Wf() && maxWaitTimer.armed
      modifies Repr
      ensures Wf() && Repr == old(Repr)
      ensures Begun(Abs(), started) == FireMaxWaitStep(old(Abs()))
    {
      var _ := maxWaitTimer.Fire();
      started := Invoke();
    }

    /** The idle timer at `i` fires: it leaves the set and its waiter resolves. */
    method FireIdle(i: nat) returns (waiter: nat)
      requires Wf() && i < |idleTimers| && idleTimers[i].armed
      modifies Repr
      ensures Wf() && Repr == old(Repr)
      ensures Ticket(Abs(), waiter) == FireIdleStep(old(Abs()), i)
    {
      var t := idleTimers[i];
      ValuesWithout(idleTimers, i);
      DistinctWithout(idleTimers, i);
      // the handle is disarmed and then deletes itself from the set; the two
      // writes touch different objects, so the order below is immaterial
      idleTimers := Without(idleTimers, i);
      var cb := t.Fire();
      waiter := cb.waiter;
    }
  }
}
