/** services_ex/src/thread_handler_impl.cpp: one worker thread and its first-in first-out pool. */
module ThreadHandling {

  /** What the pool holds: the run of a machine (a weak reference), an empty task, a promise to fulfil. */
  datatype Job = Run(machine: nat) | Null | Signal(promise: nat)

  class ThreadHandlerImpl {
    var pool: seq<Job>
    var promises: nat  // promises made so far; each EnsureTask makes a new one

    constructor ()
      ensures pool == [] && promises == 0
    {
      pool := [];
      promises := 0;
    }

    method PostTask(task: Job)
      modifies this
      ensures pool == old(pool) + [task] && promises == old(promises)
    {
      pool := pool + [task];
    }

    /** Queues the task and, behind it, the promise; the caller then waits for that promise. */
    method EnsureTask(task: Job) returns (promise: nat)
      modifies this
      ensures promise == old(promises) && promises == old(promises) + 1
      ensures pool == old(pool) + [task, Signal(promise)]
    {
      promise := promises;
      promises := promises + 1;
      pool := pool + [task];
      pool := pool + [Signal(promise)];
    }
  }
}

/** The class of services_ex/src/finite_state_machine_impl.cpp, proved against StateMachine. */
module Machine {
  import opened Prelude
  import opened StateMachine
  import opened ThreadHandling

  class FiniteStateMachineImpl<!U> {
    const maxScheduleTimes: nat  // MAX_SCHEDULE_TIMES
    const id: nat  // stands for the weak reference a posted run holds
    const transitionMap: map<uint64, Transition<U>>
    const enterMap: map<uint32, Option<Callback<U>>>
    const leaveMap: map<uint32, Option<Callback<U>>>
    var currentState: uint32
    var threadHandler: ThreadHandlerImpl?
    var pendingEvents: seq<uint32>
    var user: U  // the data the callbacks capture

    // History: every event pushed, the number popped, the callbacks invoked, the runs posted.
    ghost var arrivals: seq<uint32>
    ghost var popped: nat
    ghost var posts: nat
    ghost var calls: seq<Call>

    ghost predicate Valid()
      reads this
    {
      maxScheduleTimes == 100 && popped <= |arrivals| && pendingEvents == arrivals[popped..]
    }

    ghost function AsCore(): (c: Core<U>)
      reads this
    {
      Core(currentState, user, arrivals, popped, posts, calls, threadHandler != null)
    }

    function AsTables(): Tables<U> { Tables(transitionMap, enterMap, leaveMap) }

    constructor (id: nat, initialState: uint32, tables: Tables<U>, user: U, handler: ThreadHandlerImpl)
      ensures Valid() && this.id == id && AsTables() == tables && threadHandler == handler
      ensures AsCore() == Core(initialState, user, [], 0, 0, [], true)
    {
      maxScheduleTimes := 100;
      this.id, currentState, this.user := id, initialState, user;
      transitionMap, enterMap, leaveMap := tables.transitions, tables.enters, tables.leaves;
      threadHandler := handler;
      pendingEvents := [];
      arrivals, popped, posts, calls := [], 0, 0, [];
    }

    /** Without a handler nothing is pushed; otherwise the event is pushed and one run is posted. */
    method Schedule(event: uint32)
      requires Valid()
      modifies this, threadHandler
      ensures Valid() && threadHandler == old(threadHandler)
      ensures AsCore() == ScheduleOne(old(AsCore()), Outer(event))
      ensures threadHandler != null ==> threadHandler.pool == old(threadHandler.pool) + [Run(id)]
    {
      if threadHandler == null {
        return;
      }
      pendingEvents := pendingEvents + [event];
      arrivals := arrivals + [event];
      threadHandler.PostTask(Run(id));
      posts := posts + 1;
    }

    /** The `Schedule` of the reference handed to callbacks: a push without a run. */
    method InnerSchedule(event: uint32)
      requires Valid()
      modifies this
      ensures Valid() && threadHandler == old(threadHandler)
      ensures AsCore() == ScheduleOne(old(AsCore()), Inner(event))
    {
      pendingEvents := pendingEvents + [event];
      arrivals := arrivals + [event];
    }

    /** Calls a callback, if there is one, and performs what it schedules, in its order. */
    method CallBack(cb: Option<Callback<U>>, arg: uint32, ghost call: Call)
      requires Valid()
      modifies this, threadHandler
      ensures Valid() && threadHandler == old(threadHandler)
      ensures AsCore() == Invoke(old(AsCore()), cb, arg, call)
      ensures Posted(old(Pool()), old(posts))
    {
      match cb
      case None =>
      case Some(f) =>
        var o := f(user, currentState, arg);
        user := o.user;
        calls := calls + [call];
        ghost var start := AsCore();
        var i := 0;
        while i < |o.scheds|
          invariant 0 <= i <= |o.scheds|
          invariant Valid() && threadHandler == old(threadHandler)
          invariant ScheduleAll(AsCore(), o.scheds[i..]) == ScheduleAll(start, o.scheds)
          invariant Posted(old(Pool()), old(posts))
        {
          assert o.scheds[i..][1..] == o.scheds[i + 1..];
          match o.scheds[i] {
            case Inner(e) => InnerSchedule(e);
            case Outer(e) => Schedule(e);
          }
          i := i + 1;
        }
        assert o.scheds[i..] == [];
    }

    method DealWithStateLeaveAndEnter(oldState: uint32)
      requires Valid()
      modifies this, threadHandler
      ensures Valid() && threadHandler == old(threadHandler)
      ensures AsCore() == LeaveAndEnter(AsTables(), old(AsCore()), oldState)
      ensures Posted(old(Pool()), old(posts))
    {
      if oldState == currentState {
        return;
      }
      if oldState in leaveMap {
        CallBack(leaveMap[oldState], oldState, Leave(currentState, oldState));
      }
      if currentState in enterMap {
        CallBack(enterMap[currentState], currentState, Enter(currentState, currentState));
      }
    }

    /** The body of the run loop: take the oldest event and handle it. */
    method HandleOne()
      requires Valid() && pendingEvents != []
      modifies this, threadHandler
      ensures Valid() && threadHandler == old(threadHandler)
      ensures AsCore() == PopOne(AsTables(), old(AsCore()))
      ensures Posted(old(Pool()), old(posts))
    {
      var event := pendingEvents[0];
      pendingEvents := pendingEvents[1..];
      popped := popped + 1;
      var oldState := currentState;
      var key := GetTransitionIndex(currentState, event);
      if key in transitionMap {
        CallBack(transitionMap[key].action, event, Act(currentState, event));
        currentState := transitionMap[key].next;
      }
      DealWithStateLeaveAndEnter(oldState);
    }

    /** One run, as the worker executes it: the specification's run loop with the cap of 100. */
    method ScheduleInner()
      requires Valid()
      modifies this, threadHandler
      ensures Valid() && threadHandler == old(threadHandler)
      ensures AsCore() == RunLoop(AsTables(), old(AsCore()), maxScheduleTimes)
      ensures Posted(old(Pool()), old(posts))
    {
      hide PopOne;
      var runTimes := 0;
      while true
        invariant 0 <= runTimes < maxScheduleTimes
        invariant Valid() && threadHandler == old(threadHandler)
        invariant RunLoop(AsTables(), AsCore(), maxScheduleTimes - runTimes)
               == RunLoop(AsTables(), old(AsCore()), maxScheduleTimes)
        invariant Posted(old(Pool()), old(posts))
        decreases maxScheduleTimes - runTimes
      {
        if pendingEvents == [] {
          break;
        }
        HandleOne();
        runTimes := runTimes + 1;
        if runTimes >= maxScheduleTimes {
          break;
        }
      }
    }

    method GetCurrentState() returns (s: uint32)
      ensures s == currentState
    {
      s := currentState;
    }

    // ---- the pool as this machine sees it ----

    ghost function Pool(): seq<Job>
      reads this, threadHandler
    {
      if threadHandler == null then [] else threadHandler.pool
    }

    /** The pool grew by one run of this machine for every run posted since, and by nothing else. */
    ghost predicate Posted(pool: seq<Job>, since: nat)
      reads this, threadHandler
    {
      && since <= posts && |Pool()| == |pool| + (posts - since) && pool <= Pool()
      && forall i | |pool| <= i < |Pool()| :: Pool()[i] == Run(id)
    }
  }
}
