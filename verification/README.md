# Screen brightness during face authentication

A Dafny model of the service that brightens the screen in the dark while a face is being authenticated, with proofs.
The code it models is a stack of four layers:

1. An event-queue state machine (`services_ex/src/finite_state_machine_impl.cpp`, its builder and its single-worker
   thread pool). Any thread pushes an event and then posts a run; the one worker executes runs in order; a run
   handles at most 100 events; callbacks may schedule more.
2. `ScreenBrightnessTask`: six states, five events, one-shot timers, a light sensor and a ramp over a sorted table.
3. `ScreenBrightnessManager`: one executor at a time owns the module and its current brightness task.
4. The command registry, the dispatch of command batches, and the sweep when the driver disconnects.

The main result joins the layers. `Stop()` only queues an event, so a second brightness task can be started before the
first has handled its stop. `NonInterference.BrightnessNeverInterleaves` shows that the sensor and display effects
of successive brightness tasks still never mix, for every interleaving of commands, disconnects, timers, light
readings, posts, destructors and worker steps. Push and post are separate actions here, and the result needs a
bound: at most `cap` threads may be between the two on the same machine at the same time. The bound is exact.
`Threshold.ApartIffThreadsWithinCap` proves that it separates the configurations that are safe from those that are
not: with `cap + 1` threads a run can be used up by unposted light readings, the stop stays queued, and the next
brightness task subscribes before the first is restored. With the source's cap that is 100 threads and 101.

## Files

| file | content |
|---|---|
| `Prelude.dfy` | `Option`, 32-bit and 64-bit words |
| `StateMachine.dfy` | the machine as functions: run loop, reference interpreter, refinement, telescoping, stranded events |
| `Machine.dfy` | the classes `ThreadHandlerImpl` and `FiniteStateMachineImpl`, proved against those functions |
| `Builder.dfy` | the builder class and its faithfulness |
| `Runtime.dfy` | many machines, one worker, any number of threads; no lost wake-up; the barrier |
| `TaskModel.dfy` | data, callbacks and transition table of the brightness task; the join of its events |
| `TaskRun.dfy` | one brightness task against an adversarial environment: ramp, tokens, brackets |
| `Task.dfy` | the class `ScreenBrightnessTask`, proved against `TaskModel` |
| `Manager.dfy` | `ScreenBrightnessManager` and the ownership protocol |
| `Dispatch.dfy`, `Services.dfy` | registry, dispatch, sweep as functions; the classes proved against them |
| `System.dfy` | all layers as one transition system, and its simulation by `Runtime` |
| `NonInterference.dfy` | the invariants of whole runs and the main theorem |
| `Threshold.dfy` | the exact thread bound |

## How callbacks and concurrency are modelled

A callback is a total function of the data it captured, of the state `GetCurrentState()` reports and of its argument;
it yields the new data and the events it schedules. Schedules through the machine itself push and post
(`Outer`), those through the reference handed to the callback only push (`Inner`). `StateMachine` allows both;
`Runtime` and everything above needs callbacks that use the first kind only, which the brightness task does.

What the libraries answer (sensor calls, brightness reading, light level) is part of the data and may be changed by the
environment between any two steps. Three library contracts are assumed: the event queue and the pool with one thread
are first-in first-out, and a timer registered as one-shot goes off at most once, under an id that is not reused.
Between the moment a timer thread takes an expired timer and the moment it pushes the event, unregistering the timer no
longer reaches it; the model keeps that window. If the destructor begins within it, the thread finds the object gone and
pushes nothing.

`Machine.arrivals` is every event ever pushed to a machine in push order; the queue is the part behind `popped`. The
fields `arrivals`, `popped`, `posts`, `calls`, `effects`, `trace`, `stopAt` and `made` are history.

## Model

| member | source | states |
|---|---|---|
| StateMachine.TransitionIndexInjective | services_ex/inc/finite_state_machine_impl.h:57-61 | two (state, event) pairs share a transition key only if they are equal |
| StateMachine.ShiftOrIsPlaceValue | services_ex/inc/finite_state_machine_impl.h:57-61 | the source's shift-and-or on 64-bit words, read as a number, is the key the model uses |
| StateMachine.RunLoop | services_ex/src/finite_state_machine_impl.cpp:60-92 | a run pops at most its cap, and ends either with an empty queue or with its cap used up; pushes only append |
| StateMachine.PopOneIsProcess | services_ex/src/finite_state_machine_impl.cpp:64-83 | one pass of the queue loop is one step of the queue-less interpreter, and what it schedules goes to the end of the queue |
| StateMachine.RunRefinesInterpreter | services_ex/src/finite_state_machine_impl.cpp:60-92 | a capped run leaves the state, data and callback log the interpreter gives for the popped events |
| StateMachine.AnyGroupingRefinesInterpreter | services_ex/src/finite_state_machine_impl.cpp:44-92 | the same for any interleaving of pushes and capped runs, whatever the callbacks push |
| StateMachine.RunsCompose | services_ex/src/finite_state_machine_impl.cpp:86-90 | where a run is cut does not matter: two consecutive runs are one longer run |
| StateMachine.StrandedExactly | services_ex/src/finite_state_machine_impl.cpp:86-90 | if every step pushes c >= 1 events through the inner reference, a run from q pending events uses its whole cap and leaves exactly q + cap * (c - 1) |
| StateMachine.DeadlockExample | test/unittest/state_machine_test.cpp:261-277 | the machine of the deadlock test leaves 1 + 2 * cap events after one run, for every cap |
| StateMachine.LeaveEnterTelescope | services_ex/src/finite_state_machine_impl.cpp:71-111 | with callbacks on all visited states the log is one chain of leave and enter from the initial to the current state; self-loops add nothing; an action comes first and sees the old state, leave and enter see the new one |
| ThreadHandling.ThreadHandlerImpl.PostTask | services_ex/src/thread_handler_impl.cpp:56-59 | a posted job goes to the end of the pool |
| ThreadHandling.ThreadHandlerImpl.EnsureTask | services_ex/src/thread_handler_impl.cpp:61-71 | the job and, behind it, a new promise go to the end of the pool |
| Machine.FiniteStateMachineImpl.constructor | services_ex/src/finite_state_machine_impl.cpp:26-36 | a new machine is in its initial state with an empty queue and the shared handler |
| Machine.FiniteStateMachineImpl.Schedule | services_ex/src/finite_state_machine_impl.cpp:44-58 | without a handler nothing happens; otherwise the event is pushed and exactly one run posted |
| Machine.FiniteStateMachineImpl.InnerSchedule | services_ex/src/finite_state_machine_impl.cpp:141-144 | the event is pushed and nothing is posted |
| Machine.FiniteStateMachineImpl.DealWithStateLeaveAndEnter | services_ex/src/finite_state_machine_impl.cpp:94-111 | the callbacks run as the specification says, in order, and only this machine's runs are added to the pool |
| Machine.FiniteStateMachineImpl.ScheduleInner | services_ex/src/finite_state_machine_impl.cpp:60-92 | the loop computes the specified run with a cap of 100 |
| Builder.ValidIffDistinct | services_ex/src/finite_state_machine_builder.cpp:40-78 | a builder is still good exactly when no two declarations share a (state, event), enter or leave key |
| Builder.DistinctAllStored | services_ex/src/finite_state_machine_builder.cpp:40-78 | distinct declarations are all in the tables, each as it was made |
| Builder.LookupIsDeclared | services_ex/src/finite_state_machine_builder.cpp:40-78 | read back by (state, event) the relation is the declared one and nothing else; likewise the callbacks on states |
| Builder.DeclaredCallbacksRun | services_ex/src/finite_state_machine_impl.cpp:71-111 | from distinct declarations to one handled event: the action declared for (s, e), the leave callback declared for s and the enter callback declared for the new state run in this order, each on what the one before left, with these arguments and the right state in view; a self-loop runs the action only |
| Builder.UndeclaredIsIgnored | services_ex/src/finite_state_machine_impl.cpp:71-78 | an event not declared for the state runs nothing and changes nothing |
| Builder.FirstBuildOnly | services_ex/src/finite_state_machine_builder.cpp:80-88 | the first build is accepted iff the declarations before it are distinct; no later build is, whatever is called in between |
| Builder.FiniteStateMachineBuilder.MakeTransition | services_ex/src/finite_state_machine_builder.cpp:40-49 | inserts, or spoils the builder and keeps the old entry |
| Builder.FiniteStateMachineBuilder.MakeOnStateEnter | services_ex/src/finite_state_machine_builder.cpp:58-67 | the same for enter callbacks |
| Builder.FiniteStateMachineBuilder.MakeOnStateLeave | services_ex/src/finite_state_machine_builder.cpp:69-78 | the same for leave callbacks |
| Builder.FiniteStateMachineBuilder.Build | services_ex/src/finite_state_machine_builder.cpp:80-88 | hands out the tables once, if the builder is good |
| Runtime.HandledIsPopOne | services_ex/src/finite_state_machine_impl.cpp:64-83 | the worker's step in the concurrent model is one pass of the machine's run loop, and posts the same runs |
| Runtime.UninterruptedRun | services_ex/src/finite_state_machine_impl.cpp:60-92 | taking a run, handling events and ending it with nobody in between is possible for exactly one number of events, and leaves machine and pool as the machine's own run loop does |
| Runtime.NoLostWakeUp | services_ex/src/finite_state_machine_impl.cpp:44-92 | with push and post as separate actions of any number of threads and any cap >= 1: once the pool is empty and no thread is in between, every live machine has handled every event and is in the state the fold over them gives |
| Runtime.CoveredAlways | services_ex/src/finite_state_machine_impl.cpp:44-92 | at every moment a machine's pending events are at most its posted runs plus the threads between push and post plus the run just begun |
| Runtime.BarrierExactly | services_ex/src/thread_handler_impl.cpp:61-71 | in every reachable state: the first n events of a live machine are handled before a promise whatever happens next iff n is at most what is handled plus what the run underway and the posted runs ahead of the promise can handle |
| Runtime.ScheduleThenEnsure | services_ex/src/finite_state_machine_impl.cpp:118-125 | an event just posted is sure to be handled before a promise queued later is fulfilled iff the posted runs can handle all that is pending; they can whenever at most `cap` threads were between push and post |
| Runtime.EnsureCurrentState | services_ex/src/finite_state_machine_impl.cpp:118-125 | with any number of threads between push and post: after the wait all earlier events are handled except at most as many as such threads, and the state is the fold over what is handled in push order |
| Runtime.EnsureWhenPosted | services_ex/src/finite_state_machine_impl.cpp:118-125 | with no such thread all earlier events are handled, for every cap; if none came since, the state is the fold over all of them |
| TaskModel.SourceTableSorted | services_ex/src/screen_brightness_task.cpp:69-70 | the source's table has 44 entries and never decreases |
| TaskModel.ClampInterval | services_ex/src/screen_brightness_task.cpp:103-112 | the interval is the parameter itself, or 75 if that is 0 |
| TaskModel.ClampMax | services_ex/src/screen_brightness_task.cpp:114-123 | the limit is the lesser of the parameter and 255 |
| TaskModel.StartIndex | services_ex/src/screen_brightness_task.cpp:158-166 | the first entry beyond the reading, or the table's length |
| TaskModel.TaskDeclarationsDistinct | services_ex/src/screen_brightness_task.cpp:253-293 | the declarations of the machine are pairwise distinct, so its build is accepted |
| TaskModel.ProcessIs | services_ex/src/screen_brightness_task.cpp:253-293 | the machine the builder makes moves and acts as the closed-form transition and effect functions say, in every state and for every event, and schedules only through the machine itself |
| TaskModel.JoinClosedForm | services_ex/src/screen_brightness_task.cpp:253-293 | for every sequence of events the state is a function of what came after the first E_START: ended iff E_STOP, increasing iff both delay and light in any order and number, otherwise the matching wait |
| TaskModel.EndAbsorbs | services_ex/src/screen_brightness_task.cpp:277-291 | in S_END no event changes anything or runs anything |
| TaskRun.RampValues | services_ex/src/screen_brightness_task.cpp:158-166 | the ramp holds each value as often as the table does if it is above the reading and within the limit, and no other |
| TaskRun.RampIsStretch | services_ex/src/screen_brightness_task.cpp:158-166 | in a sorted table the ramp is one stretch, from the first entry above the reading up to the first beyond the limit |
| TaskRun.WholeRamp | services_ex/src/screen_brightness_task.cpp:69-70 | with the source's table, a reading of 0 and no limit the ramp is 4, 4, 5, and so on up to 241 |
| TaskRun.SubscribedIs | services_ex/src/screen_brightness_task.cpp:321-346 | starting subscribes: with all four sensor calls successful the delay is armed and nothing scheduled, otherwise a stop is scheduled and no timer touched |
| TaskRun.TaskStepKeeps | services_ex/src/screen_brightness_task.cpp:239-405 | every action of the environment or the worker keeps the invariant of a brightness task |
| TaskRun.BeginDecides | services_ex/src/screen_brightness_task.cpp:348-372 | at 2.0 lux and more only a stop is scheduled; below, the least entry above a valid reading is shown iff one is within the limit, and nothing otherwise; 0xFFFFFFFF is no reading |
| TaskRun.EnteringShowsFirst | services_ex/src/screen_brightness_task.cpp:348-372 | entering the ramp shows its first value and arms the first tick, or it has none, there is light or no reading, and nothing is shown or armed |
| TaskRun.TickShowsNext | services_ex/src/screen_brightness_task.cpp:374-397 | handling a tick shows the next value of the ramp and arms the next tick; if the ramp has none left nothing is shown and no tick is armed, underway or queued any more |
| TaskRun.NoTickNoMore | services_ex/src/screen_brightness_task.cpp:374-397 | once no tick is left nothing is shown in any continuation |
| TaskRun.LightShowsNothing | services_ex/src/screen_brightness_task.cpp:356-362 | over every run: with a light reading of at least 2.0 lux when S_INCREASING is entered no brightness is ever shown |
| TaskRun.RampFinishes | services_ex/src/screen_brightness_task.cpp:374-397 | every ramp ends by itself: with no stop queued, timers, their threads and the worker alone show the whole ramp, after which no tick is left |
| TaskRun.OverridesAreRampPrefix | services_ex/src/screen_brightness_task.cpp:364-397 | the overrides are always a prefix of the ramp, never decrease, exceed the reading, and stay within the limit and 255 |
| TaskRun.RampCompletes | services_ex/src/screen_brightness_task.cpp:374-397 | when no tick is underway and no stop is queued the whole ramp has been shown |
| TaskRun.TicksAreFew | services_ex/src/screen_brightness_task.cpp:374-397 | armed, firing and queued ticks are at most one together; all ticks ever produced are at most as many as values shown, and exactly as many while the ramp runs with no stop queued; at most one timer is armed, with the interval of its kind |
| TaskRun.WaitIsNeverStuck | services_ex/src/screen_brightness_task.cpp:321-346 | while waiting for the start delay, its timer is armed or firing or its event queued, or a stop is queued; never two of these tokens |
| TaskRun.EffectsAreBracketed | services_ex/src/screen_brightness_task.cpp:321-346 | before S_END nothing is unsubscribed or restored; in S_END both happened exactly once, last, also after a partial subscription, and no timer is armed |
| TaskRun.EndIsFinal | services_ex/src/screen_brightness_task.cpp:399-405 | an ended brightness task stays ended and has no further effect in any continuation |
| TaskRun.StopHandledMeansEnd | services_ex/src/screen_brightness_task.cpp:247-251 | once any stop after E_START is handled the brightness task is in S_END with its effects closed |
| TaskRun.EveryReachedTask | services_ex/src/screen_brightness_task.cpp:239-405 | every run from the start, for any sorted table, in terms of the parameters: no value shown exceeds the max parameter or 255; overrides follow the ramp up to the lesser of the two, complete it when no tick or stop is left, and come only after a full subscription; ticks have the interval parameter, or 75 if it is 0; the bracket holds; the state is the join of the handled events; one timer, tick and delay token at most, and no stuck wait |
| Task.ScreenBrightnessTask.constructor | services_ex/src/screen_brightness_task.cpp:212-221 | the limit is the lesser of the max parameter and 255, the interval the interval parameter or 75; the other fields are initial |
| Task.ScreenBrightnessTask.MakeFiniteStateMachine | services_ex/src/screen_brightness_task.cpp:253-293 | the builder calls give the modelled machine, never null |
| Task.ScreenBrightnessTask.Start | services_ex/src/screen_brightness_task.cpp:239-245 | the machine exists afterwards and E_START is scheduled |
| Task.ScreenBrightnessTask.Stop | services_ex/src/screen_brightness_task.cpp:247-251 | E_STOP is scheduled if there is a machine |
| Task.ScreenBrightnessTask.SetAmbientLight | services_ex/src/screen_brightness_task.cpp:295-305 | the reading is kept in any case, the event scheduled if there is a machine |
| Task.ScreenBrightnessTask.OnStartDelayTimeout | services_ex/src/screen_brightness_task.cpp:307-312 | the delay event is scheduled if there is a machine |
| Task.ScreenBrightnessTask.OnIncreaseBrightness | services_ex/src/screen_brightness_task.cpp:314-319 | the tick is scheduled if there is a machine |
| Task.ScreenBrightnessTask.SubscribeSensor | services_ex/src/screen_brightness_task.cpp:125-143 | succeeds iff all four sensor calls do, and stops at the first that fails |
| Task.ScreenBrightnessTask.StartProcess | services_ex/src/screen_brightness_task.cpp:321-346 | does what the callback of the model does; without a machine nothing changes |
| Task.ScreenBrightnessTask.GetIncreaseBrightnessStartIndex | services_ex/src/screen_brightness_task.cpp:158-166 | the loop finds the first entry beyond the reading |
| Task.ScreenBrightnessTask.BeginIncreaseBrightness | services_ex/src/screen_brightness_task.cpp:348-372 | does what the callback of the model does: at 2.0 lux and more only E_STOP is scheduled; without a machine nothing changes |
| Task.ScreenBrightnessTask.DoIncreaseBrightness | services_ex/src/screen_brightness_task.cpp:374-397 | does what the callback of the model does: the tick timer is replaced iff a value is shown |
| Task.ScreenBrightnessTask.EndProcess | services_ex/src/screen_brightness_task.cpp:399-405 | does what the callback of the model does |
| Manager.OwnershipAlways | services/src/screen_brightness_manager.cpp:57-151 | over every run the calls on brightness tasks alternate start and stop, and the fields say how that history ends |
| Manager.OwnerIffTask | services/src/screen_brightness_manager.cpp:57-151 | an owner iff a current one; starts equal stops plus the current one; no second stop; every stop follows the start for the same executor |
| Manager.OperationsAnswer | services/src/screen_brightness_manager.cpp:57-151 | after any run of operations: exactly when Begin and End succeed, and nothing else does; a command that does not succeed changes nothing |
| Manager.OperationsDo | services/src/screen_brightness_manager.cpp:78-151 | after any run of operations: a successful Begin makes its own executor the owner of a brightness task never handed out before and starts it; a successful End and the owner's disconnect free the module with one stop; everything else changes nothing |
| Manager.BeginHoldsUntilEnd | services/src/screen_brightness_manager.cpp:78-151 | round trip: once an executor has begun, no operation of others and none of its own short of an End or disconnect changes anything, others' Ends are refused, and its End or disconnect frees the module with exactly one start and one stop |
| Manager.ScreenBrightnessManager.ProcessSaCommand | services/src/screen_brightness_manager.cpp:57-76 | new fields and answer are those of the specified command, null executor and unknown command included |
| Manager.ScreenBrightnessManager.OnHdiDisconnect | services/src/screen_brightness_manager.cpp:78-96 | new fields are those of the specified disconnect |
| Manager.ScreenBrightnessManager.ProcessScreenBrightnessIncreaseBegin | services/src/screen_brightness_manager.cpp:98-131 | new fields and answer are those of the specified begin, each failure included; on success the asking executor owns the new brightness task |
| Manager.ScreenBrightnessManager.ProcessScreenBrightnessIncreaseEnd | services/src/screen_brightness_manager.cpp:133-151 | new fields and answer are those of the specified end |
| Dispatch.UnregisterAgreesIff | services/src/sa_command_manager.cpp:49-65 | unregistering keeps the two indexes in agreement iff the processor is null or every id it holds is named |
| Dispatch.RegistryAlwaysAgrees | services/src/sa_command_manager.cpp:31-65 | over every run of registrations and covering unregistrations, whoever is reachable by an id is non-null and told of disconnects |
| Dispatch.NullStaysOut | services/src/sa_command_manager.cpp:31-65 | no run of registrations and unregistrations, covering or not, makes null a processor |
| Dispatch.RegistryIsHistory | services/src/sa_command_manager.cpp:31-65 | after any run: a processor is in the set iff the last operation on it was a registration, it is reachable by an id iff the last one naming both was, and an id is known iff anybody ever registered for it |
| Dispatch.PlanHolds | services/src/sa_command_manager.cpp:72-81 | a batch asks for exactly the calls of its commands on the processors registered for them, and for a stop exactly at ids never registered |
| Dispatch.PlanCounts | services/src/sa_command_manager.cpp:72-81 | a batch asks each processor registered for a command exactly once each time the command occurs, and stops once for each unknown id in it |
| Dispatch.CommandAscends | services/src/sa_command_manager.cpp:76-80 | within one command the processors are called in strictly ascending order |
| Dispatch.DispatchIsPrefix | services/src/sa_command_manager.cpp:67-84 | the calls made are a prefix of the flattened batch that ends with the first failing call or before the first unknown id or null processor; SUCCESS iff everything passed |
| Dispatch.DispatchDrivesManager | services/src/sa_command_manager.cpp:67-84 | a batch takes the brightness manager exactly where the commands it sent there take it, one after the other |
| Dispatch.BatchesCompose | services/src/sa_command_manager.cpp:67-84 | a batch is the same as its two parts sent in a row, the second only if the first succeeded |
| Dispatch.SweepFreesManager | services/src/face_auth_driver_hdi.cpp:79-92 | for every registry and list: if the manager is a processor and null is none, no listed executor owns it after the sweep and the current brightness task of a listed owner is stopped exactly once; otherwise, and for any other owner, everything stays |
| Dispatch.SweepAfterAnyRun | services/src/face_auth_driver_hdi.cpp:79-92 | the same after any registrations and unregistrations that leave the manager a processor, whatever they did to others |
| Dispatch.ToldExactly | services/src/sa_command_manager.cpp:86-96 | a sweep tells a registered processor of an executor's disconnect exactly as often as the executor is listed, unless null is registered, and others never |
| Dispatch.SweepConcat | services/src/face_auth_driver_hdi.cpp:79-92 | executors are swept in the order of the list |
| Dispatch.ReachableIsTold | services/src/sa_command_manager.cpp:86-96 | with agreeing indexes whoever a batch can call is told of every listed executor's disconnect |
| Services.SaCommandManager.RegisterSaCommandProcessor | services/src/sa_command_manager.cpp:31-47 | both indexes afterwards are those of the specification, and null is still no processor |
| Services.SaCommandManager.UnregisterSaCommandProcessor | services/src/sa_command_manager.cpp:49-65 | both indexes afterwards are those of the specification, and null is still no processor |
| Services.SaCommandManager.ProcessSaCommands | services/src/sa_command_manager.cpp:67-84 | the nested loops make the calls, give the answer and leave the manager as the flattened execution says |
| Services.SaCommandManager.OnHdiDisconnect | services/src/sa_command_manager.cpp:86-96 | every processor in order is told, up to a null one |
| Services.FaceAuthDriverHdi.GetExecutorList | services/src/face_auth_driver_hdi.cpp:46-77 | a failure changes nothing; a reply replaces the list by one new executor per usable entry, and the caller gets the same |
| Services.FaceAuthDriverHdi.OnHdiDisconnect | services/src/face_auth_driver_hdi.cpp:79-92 | the list is empty afterwards and the manager is where the specified sweep puts it |
| Services.FaceAuthDriverHdi.DisconnectFrees | services/src/face_auth_driver_hdi.cpp:79-92 | with the manager registered, whatever the ids say: a listed owner is gone and its brightness task stopped once, any other owner untouched |
| System.Simulates | services/src/screen_brightness_manager.cpp:98-151 | every step of the whole system is a sequence of runtime actions with the same outcome |
| NonInterference.BrightnessNeverInterleaves | services/src/screen_brightness_manager.cpp:98-151 | with at most `cap` threads between push and post of one machine, every reachable trace is one block of effects per brightness task, in order; none acts after its restore nor before the restore of all earlier ones; each block follows its ramp |
| NonInterference.EveryTaskBehaves | services_ex/src/screen_brightness_task.cpp:239-405 | in every run of the whole system, for any number of threads, every brightness task has all the guarantees of `TaskRun.EveryReachedTask` for the parameters it was begun with |
| NonInterference.DestructorFindsEnd | services_ex/src/screen_brightness_task.cpp:223-237 | for any number of threads: when a destructor's wait is over its machine is in S_END, restored and without timers, and no event makes any callback run again |
| NonInterference.QuiescentMeansRestored | services_ex/src/screen_brightness_task.cpp:374-405 | for any number of threads: once nothing is underway every stopped brightness task has ended and given the display back |
| NonInterference.DestructorsStillWait | services_ex/src/screen_brightness_task.cpp:223-237 | every system step keeps, for any number of threads: a task's stop is handled before its destructor's promise is fulfilled |
| NonInterference.GuardedStep | services_ex/src/finite_state_machine_impl.cpp:44-92 | every system step keeps: a stop is handled before the worker reaches a later brightness task |
| Threshold.OneThreadTooMany | services_ex/src/finite_state_machine_impl.cpp:86-90 | for every cap, with more than `cap` such threads a reachable trace interleaves two brightness tasks |
| Threshold.ApartIffThreadsWithinCap | services_ex/src/finite_state_machine_impl.cpp:44-92 | all reachable traces keep brightness tasks apart iff at most `cap` threads may be between push and post of one machine |
| Threshold.SourceKeepsTasksApart | services_ex/inc/finite_state_machine_impl.h:56 | for the source's cap and table that bound is 100 |

## Left out

- The blocking part of `EnsureTask` and `EnsureCurrentState` is a step of `Runtime` and `System`, not of the classes: the classes queue the promise, and the theorems say what holds once it is fulfilled.
- `ScreenBrightnessTask` and its machine are two views of the same data: the class is proved to do what the callbacks of `TaskModel` do, and records what it hands to `machine_->Schedule`; it holds the machine's tables instead of a machine object.
- A machine that cannot be allocated after its builder accepted it, and a timer that cannot be registered.
- Events a callback pushes and posts are one step with the event it handles; other threads do not get between them.
- The last reference to a brightness task being dropped on the timer thread or the worker.
- The float arithmetic of the light threshold: the reading is a real number.
- Reading and parsing the parameters: they are arbitrary 32-bit words before clamping.
- Loading the library that provides brightness tasks: acquiring it and making one may each fail.
- The order in which a C++ set of pointers is walked is taken as ascending addresses, null being 0.
- The IPC, NAPI and ANI layers, permission checks, conversion tables and the executor's forwarding methods.
