# The scheduling core of `@monstermann/promise`, in Dafny

This project models the stateful part of the `promise` library. That part has five pieces:

- the singly linked FIFO queue;
- timer handles;
- the bounded executor behind `queue` and `limit`;
- the single-flight wrappers `debounce` and `throttle`.

Everything in the library runs on one thread and each step runs to completion. So every public function is a transition of the closure's state. Two things happen "later": a timer firing, and the wrapped `fn` (or a queued task) finishing. Each is an event method of its own: `FireWait`, `FireMaxWait`, `FireIdle(i)`, `Complete` and `Done`. `invoke` is asynchronous, so it is split in two:
- `Invoke`, up to the call of `fn`, which returns the arguments `fn` is called with;
- `Complete`, which is the `finally` block.

Each stateful piece comes in two parts:

- **The state as a value.** A datatype, transition functions (`...Step`) and lemmas about them. These carry the properties, and include whole-run theorems:
  - strict FIFO order of the queue;
  - the invariant of the executor, first-come first-served grants over any run, and its drain to quiet;
  - for `debounce` and `throttle`: the invariant over any run of calls and events, single flight, `flushAsap` never being reset, coalescing of calls, and the throttle's wait timer never being postponed.
- **The closure itself.** An imperative class with the source's variables as fields and its timers as heap objects. Each method is proved to perform exactly the matching transition: `Abs() == Step(old(Abs()))`.

Files:

| file | models |
|---|---|
| `wrappers.dfy` | `Option` |
| `linked_queue.dfy` | `internals/queue.ts` |
| `timers.dfy` | `internals/timers.ts` |
| `actions.dfy` | the callbacks handed to timers by `debounce`/`throttle`, and facts about their idle timers |
| `task_queue.dfy` | `queue.ts` |
| `debounce.dfy` | `debounce.ts` |
| `throttle.dfy` | `throttle.ts` |

How the source's data is represented:

- **Timer handle.** The `tid` of a handle is the flag `armed`. A ghost counter `scheduled` counts the platform schedules requested. This shows the difference between a restart, which always schedules anew, and a start on an armed handle, which keeps the old schedule.
- **Timer callback.** The callback is a tag: `Invoke`, `Clear`, or `Resolve(w)` for the idle timer that resolves the `w`-th promise handed out by `idle`. Firing disarms the handle and hands the tag back to its owner, which runs the matching code.
- **Idle timers.** The `Set` of idle timers is a sequence of distinct handles kept in insertion order, as a JavaScript `Set` iterates. The collection forms of `clearTimer`/`startTimer`/`restartTimer` loop over that snapshot.
- **Executor permissions.** A permission in the executor's queue is the id of the task it belongs to. The idle `Deferred` is `Option<nat>`, naming the n-th idle Deferred the executor created (the per-task Deferreds of `add` are not counted).
- **Concurrency limit.** JavaScript numbers as `getConcurrency` sees them are `Integer(n)` or `NonInteger` (a fraction, `NaN` or an infinity). The limit `Infinity` is `Unbounded`.

Three behaviours of the code are worth stating, because a reader of the options and doc comments might expect otherwise:

- **Leading edge.** The option `leading` is documented as "Invoke function on the leading edge" (debounce.ts:44-45). The code tests `!isPending` right after setting `isPending = true` (debounce.ts:123-128, throttle.ts:116-121), so that branch is dead. The model keeps the branch; `CallStep` states that a call never starts `fn`.
- **Idle timers.** `idle()` registers an unarmed timer (debounce.ts:146-153). An `idle()` issued while the wrapper is already idle therefore stays unresolved until a later `clear` or completion arms its timer (debounce.ts:89, 117). `IdleKeepsInv` states that the new timer starts unarmed; `OnlyRestartsArmIdle` that no other event arms an idle timer; `IdleWaitsForRestart` that over any run without those events none is ever armed.
- **`flushAsap`.** Once set, `flushAsap` is never cleared. `NextKeepsInv` and `RunSingleFlight` state that it survives every event.

## Model

| member | source | states |
|---|---|---|
| LinkedQueue.Queue.constructor | packages/promise/src/Promise/internals/queue.ts:12-18 | a new queue is valid and empty: size 0, no head, no tail |
| LinkedQueue.Queue.Enqueue | packages/promise/src/Promise/internals/queue.ts:20-30 | the contents become the old contents followed by the value and the size grows by one; on an empty queue head and tail become the same new node with no successor; the chain invariant is kept; the call is exactly the step `Step(old contents, Push(value))` that `FifoOrder` and `RunLength` are about |
| LinkedQueue.Queue.Dequeue | packages/promise/src/Promise/internals/queue.ts:32-39 | an empty queue returns nothing and stays empty; otherwise the head value is returned and removed and the size drops by one; when the last node goes, head and tail are both cleared; the chain invariant is kept; the call is exactly the step `Step(old contents, Pop)` that `FifoOrder` and `RunLength` are about |
| LinkedQueue.ValuesAppend | packages/promise/src/Promise/internals/queue.ts:20-30 | linking a node behind the tail appends its value to the contents |
| LinkedQueue.StepConserves | packages/promise/src/Promise/internals/queue.ts:20-39 | one enqueue or dequeue loses and invents nothing: the value returned followed by the new contents is the old contents followed by the value pushed |
| LinkedQueue.FifoOrder | packages/promise/src/Promise/internals/queue.ts:20-39 | over any run of enqueues and dequeues, the values dequeued followed by those still queued are the initial contents followed by the values enqueued, in order (strict FIFO) |
| LinkedQueue.RunLength | packages/promise/src/Promise/internals/queue.ts:20-39 | over any run, the final size is the initial size plus the values enqueued minus the values dequeued |
| Timers.Apply | packages/promise/src/Promise/internals/timers.ts:17-38 | timeout and callback never change; a disabled handle (negative timeout) is left untouched; clear leaves an enabled handle unarmed; start on an armed handle changes nothing; start on an unarmed enabled handle schedules exactly one callback; restart drops any schedule for exactly one new one |
| Timers.ApplyAll | packages/promise/src/Promise/internals/timers.ts:17-38 | the collection form applies the operation to each handle of the snapshot independently |
| Timers.Fired | packages/promise/src/Promise/internals/timers.ts:27-29 | firing disarms the handle before its callback runs, so the callback can arm it again |
| Timers.DisabledNeverArmed | packages/promise/src/Promise/internals/timers.ts:17-38 | a handle created with a negative timeout is unchanged, and so never armed, by any sequence of operations |
| Timers.EnabledArmedAfterStart | packages/promise/src/Promise/internals/timers.ts:23-38 | an enabled handle is armed after any sequence of operations that ends in a start or a restart |
| Timers.Timer.constructor | packages/promise/src/Promise/internals/timers.ts:9-15 | `createTimer`: an unarmed handle with the given timeout and callback |
| Timers.Timer.Clear | packages/promise/src/Promise/internals/timers.ts:17-21 | the handle becomes `Apply(old, ClearOp)` |
| Timers.Timer.Start | packages/promise/src/Promise/internals/timers.ts:23-31 | the handle becomes `Apply(old, StartOp)` |
| Timers.Timer.Restart | packages/promise/src/Promise/internals/timers.ts:33-38 | the handle becomes `Apply(old, RestartOp)` |
| Timers.Timer.Perform | packages/promise/src/Promise/internals/timers.ts:17-38 | performs the single-handle form of the given operation |
| Timers.Timer.Fire | packages/promise/src/Promise/internals/timers.ts:27-29 | the handle becomes `Fired(old)` and its callback is handed back |
| Timers.ApplyEach | packages/promise/src/Promise/internals/timers.ts:18 | the collection form on distinct handles: the new values are `ApplyAll` of the old ones |
| Actions.ClearAllSilences | packages/promise/src/Promise/internals/timers.ts:17-21 | clearing a collection in which disabled handles are unarmed leaves every handle unarmed and keeps timeouts and callbacks |
| Actions.RestartAllArms | packages/promise/src/Promise/internals/timers.ts:33-38 | restarting a collection arms exactly its enabled handles |
| Actions.SameCallbacks | packages/promise/src/Promise/internals/timers.ts:17-38 | the timer operations keep every handle's callback |
| Actions.AppendKeepsWaiters | packages/promise/src/Promise/debounce.ts:146-153 | a handle added by `idle` resolves a fresh waiter, awaited by no earlier idle handle |
| Actions.WithoutKeepsWaiters | packages/promise/src/Promise/debounce.ts:148-151 | a firing idle handle that deletes itself from the set leaves no handle that resolves the same waiter |
| TaskQueue.GetConcurrency | packages/promise/src/Promise/queue.ts:85-89 | unbounded exactly for a value that is not a safe integer; otherwise `max(n, 1)`, so a finite limit is at least 1 |
| TaskQueue.DrainEffect | packages/promise/src/Promise/queue.ts:50-55 | the `flush` loop grants the front of the queue in queue order, one slot per grant; it never passes the limit; it stops with every slot taken or the queue empty |
| TaskQueue.DrainDetermined | packages/promise/src/Promise/queue.ts:50-55 | any outcome with those three properties is the loop's outcome |
| TaskQueue.Create | packages/promise/src/Promise/queue.ts:43-47 | `queue(options)` starts quiet, without an idle signal, satisfying the invariant, with the limit `GetConcurrency(options)` |
| TaskQueue.FlushStep | packages/promise/src/Promise/queue.ts:49-61 | grants the front of the queue within the limit; resolves and drops the idle signal exactly when nothing is queued or running afterwards |
| TaskQueue.AddStep | packages/promise/src/Promise/queue.ts:69-78 | keeps the invariant and the limit; each grant takes one slot; the new permission is granted at once or waits behind the older ones; the signal is created only if missing; adding never resolves it |
| TaskQueue.DoneStep | packages/promise/src/Promise/queue.ts:63-66 | frees one slot and flushes, keeping the invariant and the limit, creating no task id; the signal resolves exactly when this was the last queued or running task, and otherwise the same signal stays pending |
| TaskQueue.FlushKeepsInv | packages/promise/src/Promise/queue.ts:49-61 | `flush` restores the invariant: `running <= concurrency`, no permission waits beside a free slot, the signal exists exactly while work remains, and permissions wait in `add` order |
| TaskQueue.IdleStep | packages/promise/src/Promise/queue.ts:79-81 | `idle()` is already resolved exactly when nothing is queued or running, and otherwise returns the current signal |
| TaskQueue.CompleteAll | packages/promise/src/Promise/queue.ts:63-66 | if every running task finishes in turn, the executor drains to quiet and resolves its signal: no permission is ever stranded |
| TaskQueue.Serve | packages/promise/src/Promise/queue.ts:63-78 | a run of `add` calls and finishing tasks keeps the executor invariant and the limit throughout, so `running` never exceeds the concurrency fixed at creation |
| TaskQueue.ServeConserves | packages/promise/src/Promise/queue.ts:49-78 | over any run, the permissions granted followed by those still queued are the ones queued at the start followed by every task added, in `add` order: none is lost, duplicated or reordered; added tasks get consecutive ids |
| TaskQueue.ServeInOrder | packages/promise/src/Promise/queue.ts:49-78 | over any run, permissions are granted first come, first served: in ascending id order, each at most once |
| TaskQueue.DrainKeepsOrder | packages/promise/src/Promise/queue.ts:50-55 | what the `flush` loop leaves queued stays in `add` order and below the next id |
| TaskQueue.SuffixOrdered | packages/promise/src/Promise/queue.ts:50-55 | what the loop leaves queued is still in `add` order |
| TaskQueue.AppendIncreasing | packages/promise/src/Promise/queue.ts:75 | enqueueing a fresh id keeps the queue in `add` order |
| TaskQueue.BoundedQueue.constructor | packages/promise/src/Promise/queue.ts:43-47 | the closure starts as `Create(options)` |
| TaskQueue.BoundedQueue.Grant | packages/promise/src/Promise/queue.ts:50-55 | the loop: the granted ids followed by what stays queued are the old queue; one slot per grant; within the limit; stops with the limit reached or the queue empty |
| TaskQueue.BoundedQueue.Flush | packages/promise/src/Promise/queue.ts:49-61 | performs `FlushStep` |
| TaskQueue.BoundedQueue.Done | packages/promise/src/Promise/queue.ts:63-66 | performs `DoneStep` and keeps the invariant |
| TaskQueue.BoundedQueue.Enlist | packages/promise/src/Promise/queue.ts:70-75 | creates the signal if missing and enqueues the new task's id |
| TaskQueue.BoundedQueue.Add | packages/promise/src/Promise/queue.ts:69-78 | performs `AddStep` and keeps the invariant |
| TaskQueue.BoundedQueue.Idle | packages/promise/src/Promise/queue.ts:79-81 | returns `IdleStep` of the current state |
| Debounce.Create | packages/promise/src/Promise/debounce.ts:73-79 | starts idle with both timers unarmed and the invariant holding; `trailing: false` gives the wait timer `clear` as callback; the timers get `options.wait` and `options.maxWait` as timeouts; without `maxWait` the max-wait timer is disabled |
| Debounce.ClearStep | packages/promise/src/Promise/debounce.ts:81-90 | no-op unless pending; drops the call and its arguments and stops both wait timers; restarts the idle timers only when nothing runs; never touches `isRunning`; `leading` and the wait handles' timeouts and callbacks never change |
| Debounce.BeginStep | packages/promise/src/Promise/debounce.ts:92-104 | calls `fn` exactly when pending and not running, with the pending arguments, after entering running and dropping the pending call; `leading` and the wait handles' timeouts and callbacks never change |
| Debounce.CompleteStep | packages/promise/src/Promise/debounce.ts:106-119 | after a finished call, with `flushAsap` the pending call is started exactly as `invoke` (`BeginStep`) starts it; a pending call restarts both wait timers; otherwise the idle timers are restarted; a waiting call keeps its arguments and leaves the idle timers alone; the waiter counter, `leading` and the wait handles' timeouts and callbacks never change |
| Debounce.CallStep | packages/promise/src/Promise/debounce.ts:122-136 | a call never starts `fn`; it keeps the latest arguments; while running nothing else changes; otherwise the wait timer is rescheduled and an armed max-wait timer is kept; the waiter counter, `leading` and the wait handles' timeouts and callbacks never change |
| Debounce.FlushStep | packages/promise/src/Promise/debounce.ts:140-144 | no-op unless pending; when not running it is exactly `invoke` (`BeginStep`): `fn` starts and the pending call is used up; otherwise sets `flushAsap`, which stays set; `leading` and the wait handles' timeouts and callbacks never change |
| Debounce.IdleStep | packages/promise/src/Promise/debounce.ts:146-153 | appends one unarmed idle timer for the waiter the counter names, moves the counter on by one, and changes nothing else |
| Debounce.FireWaitStep | packages/promise/src/Promise/debounce.ts:78 | the wait timer fires and runs, on the disarmed handle, exactly `invoke` (`BeginStep`: the pending call starts and is used up) or, with `trailing: false`, exactly `clear` (`ClearStep`, which restarts the idle timers when nothing runs); the waiter counter, `leading` and the wait handles' timeouts and callbacks never change |
| Debounce.FireMaxWaitStep | packages/promise/src/Promise/debounce.ts:79 | the max-wait timer fires and runs, on the disarmed handle, exactly `invoke` (`BeginStep`): the pending call starts and is used up; the waiter counter, `leading` and the wait handles' timeouts and callbacks never change |
| Debounce.FireIdleStep | packages/promise/src/Promise/debounce.ts:148-151 | exactly the fired handle leaves the idle set, the others stay in order, and its waiter resolves |
| Debounce.BeginKeepsInv | packages/promise/src/Promise/debounce.ts:92-104 | `invoke` keeps the invariant and stops every timer before `fn` runs |
| Debounce.ClearKeepsInv | packages/promise/src/Promise/debounce.ts:81-90 | `clear` keeps the invariant and leaves both wait timers stopped |
| Debounce.CompleteKeepsInv | packages/promise/src/Promise/debounce.ts:106-119 | completion keeps the invariant |
| Debounce.CallKeepsInv | packages/promise/src/Promise/debounce.ts:122-136 | a call keeps the invariant; outside a call in flight it stops every idle timer |
| Debounce.FlushKeepsInv | packages/promise/src/Promise/debounce.ts:140-144 | `flush` keeps the invariant and starts `fn` whenever a call is pending and none runs |
| Debounce.IdleKeepsInv | packages/promise/src/Promise/debounce.ts:146-153 | `idle` keeps the invariant; the new timer is unarmed and its waiter is new |
| Debounce.FireWaitKeepsInv | packages/promise/src/Promise/debounce.ts:78 | the wait timer firing keeps the invariant; with trailing calls it always starts `fn` |
| Debounce.FireMaxWaitKeepsInv | packages/promise/src/Promise/debounce.ts:79 | the max-wait timer firing keeps the invariant and always starts `fn` |
| Debounce.FireIdleKeepsInv | packages/promise/src/Promise/debounce.ts:148-151 | an idle timer fires only while idle, keeps the invariant, and its waiter resolves once |
| Debounce.NextKeepsInv | packages/promise/src/Promise/debounce.ts:81-153 | every call or event keeps the invariant, `flushAsap`, `leading` and the wait handles' timeouts and callbacks, and never moves the waiter counter back; `fn` starts only when no call is in flight or the one in flight has just finished, and an event that starts it passes the pending arguments and uses the pending call up, so no call starts twice |
| Debounce.RunSingleFlight | packages/promise/src/Promise/debounce.ts:92-119 | over any run the invariant holds, `flushAsap` is never reset, `leading` and the wait handles' timeouts and callbacks stay as created, the waiter counter never moves back (no waiter number is handed out twice), and every started call but the one still running has finished |
| Debounce.OptionsHold | packages/promise/src/Promise/debounce.ts:78-79 | after any run from `debounce(fn, options)`, `trailing: false` still has the wait timer run `clear`, and without `maxWait` the max-wait timer is still never armed; both timeouts stay the ones given |
| Debounce.OnlyRestartsArmIdle | packages/promise/src/Promise/debounce.ts:81-153 | while no idle timer is armed, every event other than `clear`, a finished call or a clearing wait timer leaves them all unarmed |
| Debounce.IdleWaitsForRestart | packages/promise/src/Promise/debounce.ts:146-153 | over any run with none of those events, an idle closure with no armed idle timer never arms one, so no `idle()` promise resolves |
| Debounce.CallsCoalesce | packages/promise/src/Promise/debounce.ts:122-126 | back-to-back calls leave one pending call holding the latest arguments |
| Debounce.Debouncer.constructor | packages/promise/src/Promise/debounce.ts:73-79 | the closure starts as `Create(options)` |
| Debounce.Debouncer.Clear | packages/promise/src/Promise/debounce.ts:81-90 | performs `ClearStep` |
| Debounce.Debouncer.Invoke | packages/promise/src/Promise/debounce.ts:92-104 | performs `BeginStep` |
| Debounce.Debouncer.Complete | packages/promise/src/Promise/debounce.ts:106-119 | performs `CompleteStep` |
| Debounce.Debouncer.Call | packages/promise/src/Promise/debounce.ts:122-136 | performs `CallStep` |
| Debounce.Debouncer.Flush | packages/promise/src/Promise/debounce.ts:140-144 | performs `FlushStep` |
| Debounce.Debouncer.Idle | packages/promise/src/Promise/debounce.ts:146-153 | performs `IdleStep` |
| Debounce.Debouncer.Status | packages/promise/src/Promise/debounce.ts:156-158 | `isIdle` is exactly `!isPending && !isRunning` |
| Debounce.Debouncer.FireWait | packages/promise/src/Promise/internals/timers.ts:27-29 | performs `FireWaitStep` |
| Debounce.Debouncer.FireMaxWait | packages/promise/src/Promise/internals/timers.ts:27-29 | performs `FireMaxWaitStep` |
| Debounce.Debouncer.FireIdle | packages/promise/src/Promise/debounce.ts:148-151 | performs `FireIdleStep` |
| Throttle.Create | packages/promise/src/Promise/throttle.ts:70-75 | starts idle with the wait timer unarmed and the invariant holding; `trailing: false` gives the wait timer `clear` as callback |
| Throttle.ClearStep | packages/promise/src/Promise/throttle.ts:77-85 | no-op unless pending; drops the call and its arguments and stops the wait timer; restarts the idle timers only when nothing runs; never touches `isRunning`; `leading` and the wait handles' timeouts and callbacks never change |
| Throttle.BeginStep | packages/promise/src/Promise/throttle.ts:87-98 | calls `fn` exactly when pending and not running, with the pending arguments, after entering running; `leading` and the wait handles' timeouts and callbacks never change |
| Throttle.CompleteStep | packages/promise/src/Promise/throttle.ts:100-112 | with `flushAsap` the pending call is started exactly as `invoke` (`BeginStep`) starts it; a pending call starts (not restarts) the wait timer; otherwise the idle timers are restarted; a waiting call keeps its arguments and leaves the idle timers alone; the waiter counter, `leading` and the wait handles' timeouts and callbacks never change |
| Throttle.CallStep | packages/promise/src/Promise/throttle.ts:115-128 | a call never starts `fn`; it keeps the latest arguments; an armed wait timer is left as it was; otherwise the first call opens one wait period; the waiter counter, `leading` and the wait handles' timeouts and callbacks never change |
| Throttle.FlushStep | packages/promise/src/Promise/throttle.ts:132-136 | no-op unless pending; when not running it is exactly `invoke` (`BeginStep`): `fn` starts and the pending call is used up; otherwise sets `flushAsap`, which stays set; `leading` and the wait handles' timeouts and callbacks never change |
| Throttle.IdleStep | packages/promise/src/Promise/throttle.ts:138-146 | appends one unarmed idle timer for the waiter the counter names, moves the counter on by one, and changes nothing else |
| Throttle.FireWaitStep | packages/promise/src/Promise/throttle.ts:75 | the wait timer fires and runs, on the disarmed handle, exactly `invoke` (`BeginStep`: the pending call starts and is used up) or, with `trailing: false`, exactly `clear` (`ClearStep`, which restarts the idle timers when nothing runs); the waiter counter, `leading` and the wait handles' timeouts and callbacks never change |
| Throttle.FireIdleStep | packages/promise/src/Promise/throttle.ts:140-143 | exactly the fired handle leaves the idle set, the others stay in order, and its waiter resolves |
| Throttle.BeginKeepsInv | packages/promise/src/Promise/throttle.ts:87-98 | `invoke` keeps the invariant and stops every timer before `fn` runs |
| Throttle.ClearKeepsInv | packages/promise/src/Promise/throttle.ts:77-85 | `clear` keeps the invariant and leaves the wait timer stopped |
| Throttle.CompleteKeepsInv | packages/promise/src/Promise/throttle.ts:100-112 | completion keeps the invariant; a call that came in meanwhile is always waited for |
| Throttle.CallKeepsInv | packages/promise/src/Promise/throttle.ts:115-128 | a call keeps the invariant; outside a call in flight it stops every idle timer |
| Throttle.FlushKeepsInv | packages/promise/src/Promise/throttle.ts:132-136 | `flush` keeps the invariant and starts `fn` whenever a call is pending and none runs |
| Throttle.IdleKeepsInv | packages/promise/src/Promise/throttle.ts:138-146 | `idle` keeps the invariant; the new timer is unarmed and its waiter is new |
| Throttle.FireWaitKeepsInv | packages/promise/src/Promise/throttle.ts:75 | the wait timer firing keeps the invariant; with trailing calls it always starts `fn` |
| Throttle.FireIdleKeepsInv | packages/promise/src/Promise/throttle.ts:140-143 | an idle timer fires only while idle, keeps the invariant, and its waiter resolves once |
| Throttle.NextKeepsInv | packages/promise/src/Promise/throttle.ts:77-146 | every call or event keeps the invariant, `flushAsap`, `leading` and the wait handles' timeouts and callbacks, and never moves the waiter counter back; `fn` starts only when no call is in flight or the one in flight has just finished, and an event that starts it passes the pending arguments and uses the pending call up, so no call starts twice |
| Throttle.RunSingleFlight | packages/promise/src/Promise/throttle.ts:87-112 | over any run the invariant holds, `flushAsap` is never reset, `leading` and the wait handles' timeouts and callbacks stay as created, the waiter counter never moves back (no waiter number is handed out twice), and every started call but the one still running has finished |
| Throttle.OptionsHold | packages/promise/src/Promise/throttle.ts:75 | after any run from `throttle(fn, options)`, the wait timer keeps `options.wait` as its timeout and, with `trailing: false`, still runs `clear` |
| Throttle.OnlyRestartsArmIdle | packages/promise/src/Promise/throttle.ts:77-146 | while no idle timer is armed, every event other than `clear`, a finished call or a clearing wait timer leaves them all unarmed |
| Throttle.IdleWaitsForRestart | packages/promise/src/Promise/throttle.ts:138-146 | over any run with none of those events, an idle closure with no armed idle timer never arms one, so no `idle()` promise resolves |
| Throttle.CallsCoalesce | packages/promise/src/Promise/throttle.ts:115-119 | back-to-back calls leave one pending call holding the latest arguments |
| Throttle.CallsKeepWait | packages/promise/src/Promise/throttle.ts:126-127 | calls leave an armed or disabled wait timer exactly as it was |
| Throttle.CallsScheduleOnce | packages/promise/src/Promise/throttle.ts:115-128 | however many calls come in, the wait timer is scheduled at most once: calls never postpone `fn` |
| Throttle.Throttler.constructor | packages/promise/src/Promise/throttle.ts:70-75 | the closure starts as `Create(options)` |
| Throttle.Throttler.Clear | packages/promise/src/Promise/throttle.ts:77-85 | performs `ClearStep` |
| Throttle.Throttler.Invoke | packages/promise/src/Promise/throttle.ts:87-98 | performs `BeginStep` |
| Throttle.Throttler.Complete | packages/promise/src/Promise/throttle.ts:100-112 | performs `CompleteStep` |
| Throttle.Throttler.Call | packages/promise/src/Promise/throttle.ts:115-128 | performs `CallStep` |
| Throttle.Throttler.Flush | packages/promise/src/Promise/throttle.ts:132-136 | performs `FlushStep` |
| Throttle.Throttler.Idle | packages/promise/src/Promise/throttle.ts:138-146 | performs `IdleStep` |
| Throttle.Throttler.Status | packages/promise/src/Promise/throttle.ts:148-150 | `isIdle` is exactly `!isPending && !isRunning` |
| Throttle.Throttler.FireWait | packages/promise/src/Promise/internals/timers.ts:27-29 | performs `FireWaitStep` |
| Throttle.Throttler.FireIdle | packages/promise/src/Promise/throttle.ts:140-143 | performs `FireIdleStep` |

## Left out

- Real time, `setTimeout` and `clearTimeout` are not modelled. A schedule is the flag `armed`, and its firing is an explicit event that may happen whenever the handle is armed. The model therefore says nothing about elapsed time, such as "fires `wait` ms after the last call" or an idle timer's grace period.
- The promise machinery (`.then`, `.finally`, microtask order, `defer`) is not modelled. A task starting, a task finishing and `fn` finishing are explicit events. The promises returned by `add` and `idle` are named by numbers.
- Errors thrown by `fn` or by a task have no channel in the model. The `finally` paths (`Complete`, `Done`) run the same either way.
- The promise returned by `add` settling with the task's own result is not modelled. The model returns the task's id instead.
- A reentrant call of the wrapper from inside `fn` is not modelled separately. Such a call is just another `Call` event while `isRunning` holds.
- Mutation of the options object after the closure was created is not modelled. `leading` is read once.
- `gracePeriod` defaults to 0 in the source; the model always passes it explicitly.
- Numbers are unbounded integers: timeouts and grace periods are `int`, and counters and ids are `nat`. A fractional timeout is not modelled.
- `wait.ts`, `defer.ts`, `is.ts`, `limit.ts` (a pass-through to `queue(options).add`), the native pass-throughs (`all`, `allSettled`, `any`, `create`, `reject`, `resolve`, `then`, `orElse`) and the build configuration are not part of this model.
- The closures' class methods require only the heap shape `Wf()` and state the exact transition. The invariant `Inv` is proved on the transitions rather than carried as a method precondition:
  - for `debounce` and `throttle`: `NextKeepsInv` and `RunSingleFlight`;
  - for the executor: `Done` and `Add` carry `Valid()`.
- Debounce.Debouncer.FireIdle and Throttle.Throttler.FireIdle: the source's firing closure first disarms the handle and then deletes it from the set. The method does the two writes in the other order. They touch different objects, so the resulting state is the same.
