/**
 Any number of machines served by the one worker of the pool, at the grain of single atomic actions: a thread
 that schedules first pushes its event and, as a separate action, posts a run. Between the two it is in
 flight, and any other thread or the worker may act. Every choice is a parameter of a step, so a behaviour is
 a sequence of steps.
 */
module Runtime {
  import opened Prelude
  import opened StateMachine
  import opened ThreadHandling

  /** `arrivals[popped..]` is the queue; `inFlight` counts the threads between push and post. */
  datatype Machine<!U> = Machine(table: Tables<U>, init: uint32, state: uint32, user: U,
                                 arrivals: seq<uint32>, popped: nat, inFlight: nat)
  {
    function Pending(): nat { if popped <= |arrivals| then |arrivals| - popped else 0 }
  }

  datatype Worker = Idle | Running(machine: nat, pops: nat)

  datatype Runtime<!U> = Runtime(machines: seq<Machine<U>>, jobs: seq<Job>, worker: Worker,
                                 signalled: set<nat>, expired: set<nat>)

  datatype Step<!U> =
    | Create(table: Tables<U>, init: uint32, user: U)
    | Touch(i: nat, data: U)        // the world changes the data the callbacks will read
    | PushEvent(i: nat, event: uint32)
    | PostRun(i: nat)
    | Enqueue(job: Job)             // EnsureTask: an empty task or a promise
    | Take                          // the worker takes the oldest job
    | Pop                           // the running run handles one event
    | EndRun
    | Expire(i: nat)                // the last strong reference to the machine goes

  function Empty<U>(): Runtime<U> { Runtime([], [], Idle, {}, {}) }

  ghost predicate OnlyOuter<U(!new)>(t: Tables<U>) {
    forall s, u, e {:trigger Process(t, s, u, e)} :: AllOuter(Process(t, s, u, e).scheds)
  }

  predicate AllOuter(scheds: seq<Sched>) { forall x | x in scheds :: x.Outer? }

  ghost predicate Enabled<U(!new)>(cap: nat, rt: Runtime<U>, step: Step<U>) {
    match step
    case Create(t, _, _) => OnlyOuter(t)
    case Touch(i, _) => i < |rt.machines|
    case PushEvent(i, _) => i < |rt.machines|
    case PostRun(i) => i < |rt.machines| && rt.machines[i].inFlight > 0
    case Enqueue(job) => !job.Run?
    case Take => rt.worker.Idle? && rt.jobs != []
    case Pop =>
      rt.worker.Running? && rt.worker.pops < cap && rt.worker.machine < |rt.machines|
      && rt.machines[rt.worker.machine].Pending() > 0
    case EndRun =>
      rt.worker.Running? && rt.worker.machine < |rt.machines|
      && (rt.worker.pops >= cap || rt.machines[rt.worker.machine].Pending() == 0)
    case Expire(i) => i < |rt.machines| && !(rt.worker.Running? && rt.worker.machine == i)
  }

  /** The runs posted by the outer schedules of a callback. */
  function PostAll(jobs: seq<Job>, i: nat, scheds: seq<Sched>): seq<Job>
    decreases |scheds|
  {
    if scheds == [] then jobs
    else PostAll(if scheds[0].Outer? then jobs + [Run(i)] else jobs, i, scheds[1..])
  }

  /** A machine after handling the event at the head of its queue. */
  function Handled<U>(m: Machine<U>): Machine<U>
    requires m.Pending() > 0
  {
    var e := m.arrivals[m.popped];
    var f := Process(m.table, m.state, m.user, e);
    m.(state := NextState(m.table, m.state, e), user := f.user, popped := m.popped + 1,
       arrivals := m.arrivals + Accepted(f.scheds, true))
  }

  function HandledScheds<U>(m: Machine<U>): seq<Sched>
    requires m.Pending() > 0
  {
    Process(m.table, m.state, m.user, m.arrivals[m.popped]).scheds
  }

  ghost function Apply<U(!new)>(cap: nat, rt: Runtime<U>, step: Step<U>): Runtime<U>
    requires Enabled(cap, rt, step)
  {
    match step
    case Create(t, s, u) => rt.(machines := rt.machines + [Machine(t, s, s, u, [], 0, 0)])
    case Touch(i, u) => rt.(machines := rt.machines[i := rt.machines[i].(user := u)])
    case PushEvent(i, e) =>
      var m := rt.machines[i];
      rt.(machines := rt.machines[i := m.(arrivals := m.arrivals + [e], inFlight := m.inFlight + 1)])
    case PostRun(i) =>
      var m := rt.machines[i];
      rt.(machines := rt.machines[i := m.(inFlight := m.inFlight - 1)], jobs := rt.jobs + [Run(i)])
    case Enqueue(job) => rt.(jobs := rt.jobs + [job])
    case Take =>
      var job := rt.jobs[0];
      var rest := rt.(jobs := rt.jobs[1..]);
      (match job
       case Null => rest
       case Signal(p) => rest.(signalled := rest.signalled + {p})
       case Run(i) => if i in rt.expired || i >= |rt.machines| then rest else rest.(worker := Running(i, 0)))
    case Pop =>
      var i := rt.worker.machine;
      var m := rt.machines[i];
      rt.(machines := rt.machines[i := Handled(m)], jobs := PostAll(rt.jobs, i, HandledScheds(m)),
          worker := Running(i, rt.worker.pops + 1))
    case EndRun => rt.(worker := Idle)
    case Expire(i) => rt.(expired := rt.expired + {i})
  }

  ghost predicate AllEnabled<U(!new)>(cap: nat, rt: Runtime<U>, steps: seq<Step<U>>)
    decreases |steps|
  {
    steps == [] || (Enabled(cap, rt, steps[0]) && AllEnabled(cap, Apply(cap, rt, steps[0]), steps[1..]))
  }

  ghost function Exec<U(!new)>(cap: nat, rt: Runtime<U>, steps: seq<Step<U>>): Runtime<U>
    requires AllEnabled(cap, rt, steps)
    decreases |steps|
  {
    if steps == [] then rt else Exec(cap, Apply(cap, rt, steps[0]), steps[1..])
  }

  // ------------------------------------------------------------------------------------------
  // Counting the runs that are ahead of a marker in the pool.
  // ------------------------------------------------------------------------------------------

  datatype Marker = Never | PromiseOf(p: nat) | RunAfter(i: nat)

  predicate Stops(marker: Marker, job: Job) {
    match marker
    case Never => false
    case PromiseOf(p) => job == Signal(p)
    case RunAfter(i) => job.Run? && job.machine > i
  }

  /** How many runs of machine `i` stand before the first job the marker stops at. */
  function Ahead(jobs: seq<Job>, marker: Marker, i: nat): nat {
    if jobs == [] || Stops(marker, jobs[0]) then 0
    else (if jobs[0] == Run(i) then 1 else 0) + Ahead(jobs[1..], marker, i)
  }

  ghost predicate Clear(jobs: seq<Job>, marker: Marker) { forall j | j in jobs :: !Stops(marker, j) }

  lemma {:induction false} AheadSnoc(jobs: seq<Job>, job: Job, marker: Marker, i: nat)
    ensures Ahead(jobs, marker, i) <= Ahead(jobs + [job], marker, i)
    ensures Clear(jobs + [job], marker) ==>
              Ahead(jobs + [job], marker, i) == Ahead(jobs, marker, i) + if job == Run(i) then 1 else 0
  {
    if jobs == [] {
      assert [job][1..] == [];
    } else {
      assert (jobs + [job])[1..] == jobs[1..] + [job];
      AheadSnoc(jobs[1..], job, marker, i);
    }
  }

  lemma {:induction false} AheadPostAll(jobs: seq<Job>, k: nat, scheds: seq<Sched>, marker: Marker, i: nat)
    ensures Ahead(jobs, marker, i) <= Ahead(PostAll(jobs, k, scheds), marker, i)
    ensures AllOuter(scheds) && k == i ==>
              Ahead(PostAll(jobs, k, scheds), Never, i) == Ahead(jobs, Never, i) + |Accepted(scheds, true)|
    decreases |scheds|
  {
    if scheds != [] {
      var next := if scheds[0].Outer? then jobs + [Run(k)] else jobs;
      AheadSnoc(jobs, Run(k), marker, i);
      AheadSnoc(jobs, Run(k), Never, i);
      AheadPostAll(next, k, scheds[1..], marker, i);
    }
  }

  lemma {:induction false} AheadMonotone(jobs: seq<Job>, narrow: Marker, wide: Marker, i: nat)
    requires forall j | j in jobs && Stops(wide, j) :: Stops(narrow, j)
    ensures Ahead(jobs, narrow, i) <= Ahead(jobs, wide, i)
  {
    if jobs != [] {
      AheadMonotone(jobs[1..], narrow, wide, i);
    }
  }

  // ------------------------------------------------------------------------------------------
  // No lost wake-up.
  // ------------------------------------------------------------------------------------------

  ghost predicate WellFormed<U(!new)>(rt: Runtime<U>) {
    && (forall i | 0 <= i < |rt.machines| :: Sound(rt.machines[i]))
    && (rt.worker.Running? ==> rt.worker.machine < |rt.machines| && rt.worker.machine !in rt.expired)
    && (forall i | i in rt.expired :: i < |rt.machines|)
  }

  /** The control state is the fold of the transition relation over the popped events, in push order. */
  ghost predicate Sound<U(!new)>(m: Machine<U>) {
    && m.popped <= |m.arrivals| && OnlyOuter(m.table)
    && m.state == FoldState(m.table, m.init, m.arrivals[..m.popped])
  }

  /** Every pending event is covered by a posted run, by a thread about to post one, or by the run that
      has just begun. */
  ghost predicate Covered<U>(rt: Runtime<U>, i: nat)
    requires i < |rt.machines|
  {
    i in rt.expired ||
    rt.machines[i].Pending()
      <= Ahead(rt.jobs, Never, i) + rt.machines[i].inFlight + if rt.worker == Running(i, 0) then 1 else 0
  }

  ghost predicate AllCovered<U>(rt: Runtime<U>) {
    forall i | 0 <= i < |rt.machines| :: Covered(rt, i)
  }

  lemma HandledSound<U(!new)>(m: Machine<U>)
    requires Sound(m) && m.Pending() > 0
    ensures var n := Handled(m);
            && Sound(n) && n.popped == m.popped + 1 && n.inFlight == m.inFlight && m.arrivals <= n.arrivals
            && n.table == m.table && n.init == m.init
            && n.Pending() == m.Pending() - 1 + |Accepted(HandledScheds(m), true)|
            && AllOuter(HandledScheds(m))
  {
    var n := Handled(m);
    var e := m.arrivals[m.popped];
    assert n.arrivals[..n.popped] == m.arrivals[..m.popped] + [e];
    FoldStateSnoc(m.table, m.init, m.arrivals[..m.popped], e);
  }

  lemma PushedSound<U(!new)>(m: Machine<U>, e: uint32)
    requires Sound(m)
    ensures var n := m.(arrivals := m.arrivals + [e], inFlight := m.inFlight + 1);
            Sound(n) && n.Pending() == m.Pending() + 1
  {
    assert (m.arrivals + [e])[..m.popped] == m.arrivals[..m.popped];
  }

  /** What a step may do to a machine that exists already. */
  lemma MachineStep<U(!new)>(cap: nat, rt: Runtime<U>, step: Step<U>, i: nat)
    requires WellFormed(rt) && Enabled(cap, rt, step) && i < |rt.machines|
    ensures var next := Apply(cap, rt, step);
            && |rt.machines| <= |next.machines| && Sound(next.machines[i])
            && rt.machines[i].arrivals <= next.machines[i].arrivals
            && rt.machines[i].popped <= next.machines[i].popped
            && next.machines[i].table == rt.machines[i].table && next.machines[i].init == rt.machines[i].init
  {
    match step
    case PushEvent(k, e) => PushedSound(rt.machines[k], e);
    case Pop => HandledSound(rt.machines[rt.worker.machine]);
    case _ =>
  }

  lemma WellFormedStep<U(!new)>(cap: nat, rt: Runtime<U>, step: Step<U>)
    requires WellFormed(rt) && Enabled(cap, rt, step)
    ensures WellFormed(Apply(cap, rt, step))
  {
    var next := Apply(cap, rt, step);
    forall i | 0 <= i < |next.machines|
      ensures Sound(next.machines[i])
    {
      if i < |rt.machines| {
        MachineStep(cap, rt, step, i);
      }
    }
  }

  lemma CoveredStep<U(!new)>(cap: nat, rt: Runtime<U>, step: Step<U>, i: nat)
    requires cap >= 1 && WellFormed(rt) && Enabled(cap, rt, step) && i < |rt.machines| && Covered(rt, i)
    ensures i < |Apply(cap, rt, step).machines| && Covered(Apply(cap, rt, step), i)
  {
    match step
    case PushEvent(k, e) => PushedSound(rt.machines[k], e);
    case PostRun(k) => AheadSnoc(rt.jobs, Run(k), Never, i);
    case Enqueue(job) => AheadSnoc(rt.jobs, job, Never, i);
    case Pop =>
      var k := rt.worker.machine;
      HandledSound(rt.machines[k]);
      AheadPostAll(rt.jobs, k, HandledScheds(rt.machines[k]), Never, i);
    case _ =>
  }

  lemma {:induction false} CoveredAlways<U(!new)>(cap: nat, rt: Runtime<U>, steps: seq<Step<U>>)
    requires cap >= 1 && WellFormed(rt) && AllCovered(rt) && AllEnabled(cap, rt, steps)
    ensures WellFormed(Exec(cap, rt, steps)) && AllCovered(Exec(cap, rt, steps))
    decreases |steps|
  {
    if steps != [] {
      var next := Apply(cap, rt, steps[0]);
      WellFormedStep(cap, rt, steps[0]);
      forall i | 0 <= i < |next.machines|
        ensures Covered(next, i)
      {
        if i < |rt.machines| {
          CoveredStep(cap, rt, steps[0], i);
        }
      }
      CoveredAlways(cap, next, steps[1..]);
    }
  }

  // ------------------------------------------------------------------------------------------
  // The worker's steps and the machine's own run loop.
  // ------------------------------------------------------------------------------------------

  /** `n` runs of machine `i`. */
  function Runs(i: nat, n: nat): seq<Job> { seq(n, _ => Run(i)) }

  lemma RunsConcat(jobs: seq<Job>, i: nat, a: nat, b: nat)
    ensures jobs + Runs(i, a) + Runs(i, b) == jobs + Runs(i, a + b)
  {
  }

  lemma {:induction false} PostAllIs(jobs: seq<Job>, i: nat, scheds: seq<Sched>)
    ensures PostAll(jobs, i, scheds) == jobs + Runs(i, Outers(scheds, true))
    decreases |scheds|
  {
    if scheds != [] {
      PostAllIs(if scheds[0].Outer? then jobs + [Run(i)] else jobs, i, scheds[1..]);
    }
  }

  /** A machine as its own run loop sees it, after `posts` posted runs and the callbacks `calls`. */
  function CoreOf<U>(m: Machine<U>, posts: nat, calls: seq<Call>): Core<U> {
    Core(m.state, m.user, m.arrivals, m.popped, posts, calls, true)
  }

  function WithCore<U>(m: Machine<U>, c: Core<U>): Machine<U> {
    m.(state := c.state, user := c.user, arrivals := c.arrivals, popped := c.popped)
  }

  /** Handling an event here is one pass of the machine's own run loop, and posts the same runs. */
  lemma HandledIsPopOne<U>(m: Machine<U>, posts: nat, calls: seq<Call>, jobs: seq<Job>, i: nat)
    requires m.Pending() > 0
    ensures var r := PopOne(m.table, CoreOf(m, posts, calls));
            && Handled(m) == WithCore(m, r) && r.posts >= posts && r.connected
            && PostAll(jobs, i, HandledScheds(m)) == jobs + Runs(i, r.posts - posts)
  {
    hide PopOne, Process;
    PopOneIsProcess(m.table, CoreOf(m, posts, calls));
    PostAllIs(jobs, i, HandledScheds(m));
  }

  /** The worker handles `k` events and ends its run, nobody else acting. */
  function RestOfRun<U>(k: nat): seq<Step<U>> {
    if k == 0 then [EndRun] else [Pop] + RestOfRun(k - 1)
  }

  lemma PopIsPass<U(!new)>(cap: nat, rt: Runtime<U>, posts: nat, calls: seq<Call>)
    requires Enabled(cap, rt, Pop)
    ensures var i := rt.worker.machine; var m := rt.machines[i];
            var c := PopOne(m.table, CoreOf(m, posts, calls));
            && c.posts >= posts && c == CoreOf(WithCore(m, c), c.posts, c.calls)
            && c.popped == m.popped + 1 && WithCore(m, c).popped <= |WithCore(m, c).arrivals|
            && Apply(cap, rt, Pop) == rt.(machines := rt.machines[i := WithCore(m, c)],
                                          jobs := rt.jobs + Runs(i, c.posts - posts),
                                          worker := Running(i, rt.worker.pops + 1))
  {
    hide PopOne, Process, HandledScheds, Handled, PostAll, Runs;
    HandledIsPopOne(rt.machines[rt.worker.machine], posts, calls, rt.jobs, rt.worker.machine);
  }

  /** From anywhere within a run: the rest of it is the rest of the run loop, and the number of events is
      determined. */
  lemma {:induction false} RestOfRunIs<U(!new)>(cap: nat, rt: Runtime<U>, k: nat, posts: nat, calls: seq<Call>)
    requires rt.worker.Running? && rt.worker.machine < |rt.machines| && rt.worker.pops <= cap
    requires rt.machines[rt.worker.machine].popped <= |rt.machines[rt.worker.machine].arrivals|
    ensures var i := rt.worker.machine; var m := rt.machines[i];
            var r := RunLoop(m.table, CoreOf(m, posts, calls), cap - rt.worker.pops);
            && r.posts >= posts
            && (AllEnabled(cap, rt, RestOfRun(k)) <==> k == r.popped - m.popped)
            && (AllEnabled(cap, rt, RestOfRun(k)) ==>
                  Exec(cap, rt, RestOfRun(k)) ==
                    rt.(machines := rt.machines[i := WithCore(m, r)], jobs := rt.jobs + Runs(i, r.posts - posts),
                        worker := Idle))
    decreases cap - rt.worker.pops
  {
    hide PopOne, Runs, Apply;
    var i, pops := rt.worker.machine, rt.worker.pops;
    var m := rt.machines[i];
    if pops < cap && m.Pending() > 0 {
      PopIsPass(cap, rt, posts, calls);
      var c := PopOne(m.table, CoreOf(m, posts, calls));
      RestOfRunIs(cap, Apply(cap, rt, Pop), if k > 0 then k - 1 else 0, c.posts, c.calls);
      RunsConcat(rt.jobs, i, c.posts - posts, RunLoop(m.table, c, cap - pops - 1).posts - c.posts);
    } else {
      RunEnds(cap, rt);
    }
  }

  lemma RunEnds<U(!new)>(cap: nat, rt: Runtime<U>)
    requires Enabled(cap, rt, EndRun)
    ensures AllEnabled(cap, rt, RestOfRun(0)) && Exec(cap, rt, RestOfRun(0)) == rt.(worker := Idle)
    ensures forall i :: rt.jobs + Runs(i, 0) == rt.jobs
  {
    assert RestOfRun<U>(0)[1..] == [];
  }

  /**
   A run nobody interrupts is the machine's own run loop: taking the run, handling events and ending it is possible
   for exactly one number of events, and leaves the machine and the pool as the loop with this cap does.
   */
  lemma UninterruptedRun<U(!new)>(cap: nat, rt: Runtime<U>, i: nat, k: nat)
    requires WellFormed(rt) && rt.worker.Idle? && rt.jobs != [] && rt.jobs[0] == Run(i)
    requires i < |rt.machines| && i !in rt.expired
    ensures var m := rt.machines[i];
            var r := RunLoop(m.table, CoreOf(m, 0, []), cap);
            && (AllEnabled(cap, rt, [Take] + RestOfRun(k)) <==> k == r.popped - m.popped)
            && (AllEnabled(cap, rt, [Take] + RestOfRun(k)) ==>
                  Exec(cap, rt, [Take] + RestOfRun(k)) ==
                    rt.(machines := rt.machines[i := WithCore(m, r)], jobs := rt.jobs[1..] + Runs(i, r.posts)))
  {
    hide RunLoop, RestOfRun;
    assert ([Take] + RestOfRun<U>(k))[1..] == RestOfRun<U>(k);
    RestOfRunIs(cap, Apply(cap, rt, Take), k, 0, []);
  }

  ghost predicate Quiescent<U>(rt: Runtime<U>) {
    rt.worker.Idle? && rt.jobs == [] && forall i | 0 <= i < |rt.machines| :: rt.machines[i].inFlight == 0
  }

  /**
   No lost wake-up: however pushes, posts and capped runs of any machines interleave, once the pool is empty
   and no thread is in flight, every live machine has consumed every event and is in the state the
   one-event-at-a-time fold gives.
   */
  lemma NoLostWakeUp<U(!new)>(cap: nat, steps: seq<Step<U>>, i: nat)
    requires cap >= 1 && AllEnabled(cap, Empty(), steps)
    requires Quiescent(Exec(cap, Empty(), steps))
    requires i < |Exec(cap, Empty(), steps).machines| && i !in Exec(cap, Empty(), steps).expired
    ensures var m := Exec(cap, Empty(), steps).machines[i];
            m.popped == |m.arrivals| && m.state == FoldState(m.table, m.init, m.arrivals)
  {
    CoveredAlways(cap, Empty(), steps);
    var rt := Exec(cap, Empty(), steps);
    assert Covered(rt, i);
    var m := rt.machines[i];
    assert m.arrivals[..m.popped] == m.arrivals;
  }

  // ------------------------------------------------------------------------------------------
  // The barrier.
  // ------------------------------------------------------------------------------------------

  /** How many events the run underway can still handle if it is one of machine `i`. */
  function Left(cap: nat, worker: Worker, i: nat): nat {
    if worker.Running? && worker.machine == i && worker.pops <= cap then cap - worker.pops else 0
  }

  /** How many events of machine `i` the worker can handle before it gets to the marker. */
  function Budget<U>(cap: nat, rt: Runtime<U>, i: nat, marker: Marker): nat {
    Ahead(rt.jobs, marker, i) * cap + Left(cap, rt.worker, i)
  }

  /** The first `target` events of machine `i` will be gone before the worker gets to the marker. */
  ghost predicate Behind<U>(cap: nat, rt: Runtime<U>, i: nat, target: nat, marker: Marker)
    requires i < |rt.machines|
  {
    target <= rt.machines[i].popped + Budget(cap, rt, i, marker)
  }

  lemma Times(a: nat, b: nat, cap: nat)
    ensures a <= b ==> a * cap <= b * cap
    ensures (a + 1) * cap == a * cap + cap
    ensures cap >= 1 ==> a <= a * cap
  {
    if cap >= 1 && a >= 1 {
      Distribute(cap, a);
      assert (cap - 1) * a >= 0;
    }
  }

  lemma BehindStep<U(!new)>(cap: nat, rt: Runtime<U>, step: Step<U>, i: nat, target: nat, marker: Marker)
    requires WellFormed(rt) && Enabled(cap, rt, step) && i < |rt.machines|
    requires target <= |rt.machines[i].arrivals| && !Stops(marker, Run(i))
    requires i !in rt.expired || target <= rt.machines[i].popped
    requires Behind(cap, rt, i, target, marker)
    ensures i < |Apply(cap, rt, step).machines| && Behind(cap, Apply(cap, rt, step), i, target, marker)
    ensures step.Take? && Stops(marker, rt.jobs[0]) ==> target <= rt.machines[i].popped
  {
    var next := Apply(cap, rt, step);
    MachineStep(cap, rt, step, i);
    match step {
      case PostRun(k) => AheadSnoc(rt.jobs, Run(k), marker, i);
      case Enqueue(job) => AheadSnoc(rt.jobs, job, marker, i);
      case Pop =>
        var k := rt.worker.machine;
        HandledSound(rt.machines[k]);
        AheadPostAll(rt.jobs, k, HandledScheds(rt.machines[k]), marker, i);
      case _ =>
    }
    var before, after := Ahead(rt.jobs, marker, i), Ahead(next.jobs, marker, i);
    Times(before, after, cap);
    Times(after, before, cap);
  }

  lemma {:induction false} BehindUntilSignal<U(!new)>(cap: nat, rt: Runtime<U>, steps: seq<Step<U>>, i: nat,
                                                      target: nat, p: nat)
    requires WellFormed(rt) && AllEnabled(cap, rt, steps) && i < |rt.machines|
    requires target <= |rt.machines[i].arrivals| && Behind(cap, rt, i, target, PromiseOf(p))
    requires p in rt.signalled ==> target <= rt.machines[i].popped
    requires i !in Exec(cap, rt, steps).expired
    ensures i < |Exec(cap, rt, steps).machines|
    ensures p in Exec(cap, rt, steps).signalled ==> target <= Exec(cap, rt, steps).machines[i].popped
    decreases |steps|
  {
    if steps != [] {
      var next := Apply(cap, rt, steps[0]);
      ExpiredStays(cap, next, steps[1..], i);
      BehindStep(cap, rt, steps[0], i, target, PromiseOf(p));
      MachineStep(cap, rt, steps[0], i);
      WellFormedStep(cap, rt, steps[0]);
      BehindUntilSignal(cap, next, steps[1..], i, target, p);
    }
  }

  lemma {:induction false} ExpiredStays<U(!new)>(cap: nat, rt: Runtime<U>, steps: seq<Step<U>>, i: nat)
    requires AllEnabled(cap, rt, steps)
    ensures i in rt.expired ==> i in Exec(cap, rt, steps).expired
    decreases |steps|
  {
    if steps != [] {
      ExpiredStays(cap, Apply(cap, rt, steps[0]), steps[1..], i);
    }
  }

  /** Whatever happens from here on, once promise `p` is fulfilled the first `target` events of a machine that is
      still alive have been handled. */
  ghost predicate HandledFirst<U(!new)>(cap: nat, rt: Runtime<U>, i: nat, target: nat, p: nat) {
    forall after | AllEnabled(cap, rt, after) ::
      var end := Exec(cap, rt, after);
      i < |end.machines| && i !in end.expired && p in end.signalled ==> target <= end.machines[i].popped
  }

  // ---- the converse: a worker that is left alone gets to the promise ----

  function Position(jobs: seq<Job>, p: nat): nat {
    if jobs == [] || jobs[0] == Signal(p) then 0 else 1 + Position(jobs[1..], p)
  }

  /** What is posted behind a promise does not count before it. */
  lemma {:induction false} BehindPromise(jobs: seq<Job>, more: seq<Job>, p: nat, i: nat)
    requires Signal(p) in jobs
    ensures Ahead(jobs + more, PromiseOf(p), i) == Ahead(jobs, PromiseOf(p), i)
    ensures Position(jobs + more, p) == Position(jobs, p)
  {
    assert (jobs + more)[0] == jobs[0];
    if jobs[0] != Signal(p) {
      assert (jobs + more)[1..] == jobs[1..] + more;
      BehindPromise(jobs[1..], more, p, i);
    }
  }

  /** What the worker does when nobody else acts. */
  ghost function Alone<U(!new)>(cap: nat, rt: Runtime<U>): Step<U>
    requires WellFormed(rt) && (rt.worker.Running? || rt.jobs != [])
    ensures Enabled(cap, rt, Alone(cap, rt))
  {
    if rt.worker.Idle? then Take else if Enabled(cap, rt, Pop) then Pop else EndRun
  }

  /** How far a worker that is left alone is from the promise. */
  function Distance<U>(cap: nat, rt: Runtime<U>): nat {
    match rt.worker case Idle => 0 case Running(_, pops) => if pops <= cap then 1 + cap - pops else 1
  }

  /** As long as the promise is not reached, an overdrawn budget stays overdrawn and the promise comes closer. */
  lemma AloneStep<U(!new)>(cap: nat, rt: Runtime<U>, i: nat, target: nat, p: nat)
    requires WellFormed(rt) && Signal(p) in rt.jobs && i < |rt.machines| && i !in rt.expired
    requires target <= |rt.machines[i].arrivals| && !Behind(cap, rt, i, target, PromiseOf(p))
    requires !(rt.worker.Idle? && rt.jobs[0] == Signal(p))
    ensures var next := Apply(cap, rt, Alone(cap, rt));
            && WellFormed(next) && Signal(p) in next.jobs && i < |next.machines| && i !in next.expired
            && target <= |next.machines[i].arrivals| && !Behind(cap, next, i, target, PromiseOf(p))
            && (Position(next.jobs, p) < Position(rt.jobs, p)
                || (Position(next.jobs, p) == Position(rt.jobs, p) && Distance(cap, next) < Distance(cap, rt)))
  {
    var step := Alone(cap, rt);
    var next := Apply(cap, rt, step);
    WellFormedStep(cap, rt, step);
    MachineStep(cap, rt, step, i);
    if step.Pop? {
      var k := rt.worker.machine;
      HandledSound(rt.machines[k]);
      PostAllIs(rt.jobs, k, HandledScheds(rt.machines[k]));
      BehindPromise(rt.jobs, Runs(k, Outers(HandledScheds(rt.machines[k]), true)), p, i);
    }
    Times(Ahead(next.jobs, PromiseOf(p), i), 0, cap);
  }

  lemma {:induction false} TooEarly<U(!new)>(cap: nat, rt: Runtime<U>, i: nat, target: nat, p: nat)
    returns (after: seq<Step<U>>)
    requires WellFormed(rt) && Signal(p) in rt.jobs && i < |rt.machines| && i !in rt.expired
    requires target <= |rt.machines[i].arrivals| && !Behind(cap, rt, i, target, PromiseOf(p))
    ensures AllEnabled(cap, rt, after)
    ensures var end := Exec(cap, rt, after);
            i < |end.machines| && i !in end.expired && p in end.signalled && end.machines[i].popped < target
    decreases Position(rt.jobs, p), Distance(cap, rt)
  {
    var step := Alone(cap, rt);
    var next := Apply(cap, rt, step);
    var rest: seq<Step<U>> := [];
    if !(rt.worker.Idle? && rt.jobs[0] == Signal(p)) {
      AloneStep(cap, rt, i, target, p);
      rest := TooEarly(cap, next, i, target, p);
    }
    after := [step] + rest;
    assert after[1..] == rest;
  }

  /** With the promise not queued yet, it may be queued at once. */
  lemma TooEarlyAtOnce<U(!new)>(cap: nat, rt: Runtime<U>, i: nat, target: nat, p: nat) returns (after: seq<Step<U>>)
    requires WellFormed(rt) && i < |rt.machines| && i !in rt.expired
    requires target <= |rt.machines[i].arrivals| && !Behind(cap, rt, i, target, PromiseOf(p))
    ensures AllEnabled(cap, rt, after)
    ensures var end := Exec(cap, rt, after);
            i < |end.machines| && i !in end.expired && p in end.signalled && end.machines[i].popped < target
  {
    if Signal(p) in rt.jobs {
      after := TooEarly(cap, rt, i, target, p);
    } else {
      var queued := Apply(cap, rt, Enqueue(Signal(p)));
      assert queued.jobs[|rt.jobs|] == Signal(p);
      PromiseQueued(rt.jobs, p, i);
      var rest := TooEarly(cap, queued, i, target, p);
      after := [Enqueue(Signal(p))] + rest;
      assert after[1..] == rest;
    }
  }

  /** A promise queued now has every posted run ahead of it. */
  lemma {:induction false} PromiseQueued(jobs: seq<Job>, p: nat, i: nat)
    requires Signal(p) !in jobs
    ensures Ahead(jobs + [Signal(p)], PromiseOf(p), i) == Ahead(jobs, PromiseOf(p), i) == Ahead(jobs, Never, i)
  {
    if jobs == [] {
      assert [Signal(p)][1..] == [];
    } else {
      assert (jobs + [Signal(p)])[0] == jobs[0] && (jobs + [Signal(p)])[1..] == jobs[1..] + [Signal(p)];
      PromiseQueued(jobs[1..], p, i);
    }
  }

  /**
   The barrier, exactly: in a reachable state the first `target` events of a live machine are sure to be handled
   before promise `p` is fulfilled if and only if they are not more than the runs ahead of the promise can handle.
   */
  lemma BarrierExactly<U(!new)>(cap: nat, before: seq<Step<U>>, i: nat, target: nat, p: nat)
    requires cap >= 1 && AllEnabled(cap, Empty(), before)
    requires var rt := Exec(cap, Empty(), before);
             i < |rt.machines| && i !in rt.expired && p !in rt.signalled && target <= |rt.machines[i].arrivals|
    ensures var rt := Exec(cap, Empty(), before);
            HandledFirst(cap, rt, i, target, p)
            <==> target - rt.machines[i].popped <= Ahead(rt.jobs, PromiseOf(p), i) * cap + Left(cap, rt.worker, i)
  {
    var rt := Exec(cap, Empty(), before);
    CoveredAlways(cap, Empty(), before);
    if Behind(cap, rt, i, target, PromiseOf(p)) {
      forall after | AllEnabled(cap, rt, after)
        ensures var end := Exec(cap, rt, after);
                i < |end.machines| && i !in end.expired && p in end.signalled ==> target <= end.machines[i].popped
      {
        if i !in Exec(cap, rt, after).expired {
          BehindUntilSignal(cap, rt, after, i, target, p);
        }
      }
    } else {
      var after := TooEarlyAtOnce(cap, rt, i, target, p);
    }
  }

  /** A thread that is done scheduling while at most `cap` threads, itself included, were in flight on this
      machine has its event, and all pushed before it, handled before any later promise. */
  lemma PostedIsBehind<U(!new)>(cap: nat, rt: Runtime<U>, i: nat, marker: Marker)
    requires cap >= 1 && WellFormed(rt) && i < |rt.machines| && Covered(rt, i) && i !in rt.expired
    requires Enabled(cap, rt, PostRun(i)) && rt.machines[i].inFlight <= cap
    requires Clear(rt.jobs, marker) && !Stops(marker, Run(i))
    ensures Behind(cap, Apply(cap, rt, PostRun(i)), i, |rt.machines[i].arrivals|, marker)
  {
    AheadSnoc(rt.jobs, Run(i), marker, i);
    AheadMonotone(rt.jobs, Never, marker, i);
    Times(Ahead(rt.jobs, marker, i), 0, cap);
  }

  lemma {:induction false} ExecSnoc<U(!new)>(cap: nat, rt: Runtime<U>, steps: seq<Step<U>>, step: Step<U>)
    requires AllEnabled(cap, rt, steps) && Enabled(cap, Exec(cap, rt, steps), step)
    ensures AllEnabled(cap, rt, steps + [step])
    ensures Exec(cap, rt, steps + [step]) == Apply(cap, Exec(cap, rt, steps), step)
    decreases |steps|
  {
    hide Enabled, Apply;
    if steps == [] {
      assert [] + [step] == [step] && [step][1..] == [];
    } else {
      assert (steps + [step])[1..] == steps[1..] + [step];
      ExecSnoc(cap, Apply(cap, rt, steps[0]), steps[1..], step);
    }
  }

  /**
   Barrier for one schedule: the event just posted, with all pushed before it, is sure to be handled before a promise
   queued after the schedule is fulfilled if and only if the runs posted so far, this one included, can handle all
   that is pending; which they can whenever at most `cap` threads were between push and post.
   */
  lemma ScheduleThenEnsure<U(!new)>(cap: nat, before: seq<Step<U>>, i: nat, p: nat)
    requires cap >= 1 && AllEnabled(cap, Empty(), before)
    requires var rt := Exec(cap, Empty(), before);
             Enabled(cap, rt, PostRun(i)) && i !in rt.expired && Signal(p) !in rt.jobs && p !in rt.signalled
    ensures var rt := Exec(cap, Empty(), before);
            var posted := Apply(cap, rt, PostRun(i));
            && (HandledFirst(cap, posted, i, |rt.machines[i].arrivals|, p)
                <==> rt.machines[i].Pending() <= (Ahead(rt.jobs, Never, i) + 1) * cap + Left(cap, rt.worker, i))
            && (rt.machines[i].inFlight <= cap ==> HandledFirst(cap, posted, i, |rt.machines[i].arrivals|, p))
  {
    var rt := Exec(cap, Empty(), before);
    CoveredAlways(cap, Empty(), before);
    ExecSnoc(cap, Empty(), before, PostRun(i));
    BarrierExactly(cap, before + [PostRun(i)], i, |rt.machines[i].arrivals|, p);
    AheadSnoc(rt.jobs, Run(i), Never, i);
    PromiseQueued(rt.jobs + [Run(i)], p, i);
    if rt.machines[i].inFlight <= cap {
      PostedIsBehind(cap, rt, i, PromiseOf(p));
    }
  }

  /**
   EnsureCurrentState, with any number of threads between push and post: after the wait all events scheduled before
   it are handled, except at most as many as threads were in between; the state is the fold over what is handled.
   */
  lemma EnsureCurrentState<U(!new)>(cap: nat, before: seq<Step<U>>, i: nat, p: nat, after: seq<Step<U>>)
    requires cap >= 1 && AllEnabled(cap, Empty(), before)
    requires var rt := Exec(cap, Empty(), before);
             && i < |rt.machines| && Signal(p) !in rt.jobs && p !in rt.signalled
             && AllEnabled(cap, rt, [Enqueue(Null), Enqueue(Signal(p))] + after)
    ensures var rt := Exec(cap, Empty(), before);
            var end := Exec(cap, rt, [Enqueue(Null), Enqueue(Signal(p))] + after);
            i < |end.machines| && i !in end.expired && p in end.signalled ==>
              var m := end.machines[i];
              && |rt.machines[i].arrivals| - rt.machines[i].inFlight <= m.popped <= |m.arrivals|
              && rt.machines[i].arrivals <= m.arrivals && m.state == FoldState(m.table, m.init, m.arrivals[..m.popped])
  {
    var rt := Exec(cap, Empty(), before);
    var steps := [Enqueue(Null), Enqueue(Signal(p))] + after;
    var end := Exec(cap, rt, steps);
    CoveredAlways(cap, Empty(), before);
    CoveredAlways(cap, rt, steps);
    ArrivalsStay(cap, rt, steps, i);
    ExpiredStays(cap, rt, steps, i);
    var settled := |rt.machines[i].arrivals| - rt.machines[i].inFlight;
    if i !in end.expired && p in end.signalled && settled > 0 {
      assert Covered(rt, i);
      PromiseQueued(rt.jobs, p, i);
      Times(Ahead(rt.jobs, Never, i), 0, cap);
      BehindUntilSignal(cap, rt, steps, i, settled, p);
    }
  }

  lemma {:induction false} ArrivalsStay<U(!new)>(cap: nat, rt: Runtime<U>, steps: seq<Step<U>>, i: nat)
    requires WellFormed(rt) && AllEnabled(cap, rt, steps) && i < |rt.machines|
    ensures i < |Exec(cap, rt, steps).machines|
    ensures rt.machines[i].arrivals <= Exec(cap, rt, steps).machines[i].arrivals
    decreases |steps|
  {
    if steps != [] {
      MachineStep(cap, rt, steps[0], i);
      WellFormedStep(cap, rt, steps[0]);
      ArrivalsStay(cap, Apply(cap, rt, steps[0]), steps[1..], i);
    }
  }

  /** With no thread in between when the wait begins, every earlier event is handled after it, for every cap; if none
      came since, the state is the fold over all of them in push order. */
  lemma EnsureWhenPosted<U(!new)>(cap: nat, before: seq<Step<U>>, i: nat, p: nat, after: seq<Step<U>>)
    requires cap >= 1 && AllEnabled(cap, Empty(), before)
    requires var rt := Exec(cap, Empty(), before);
             && i < |rt.machines| && rt.machines[i].inFlight == 0 && Signal(p) !in rt.jobs && p !in rt.signalled
             && AllEnabled(cap, rt, [Enqueue(Null), Enqueue(Signal(p))] + after)
    ensures var rt := Exec(cap, Empty(), before);
            var end := Exec(cap, rt, [Enqueue(Null), Enqueue(Signal(p))] + after);
            i < |end.machines| && i !in end.expired && p in end.signalled ==>
              var m := end.machines[i];
              && |rt.machines[i].arrivals| <= m.popped
              && (m.arrivals == rt.machines[i].arrivals ==>
                    m.state == FoldState(m.table, m.init, rt.machines[i].arrivals))
  {
    EnsureCurrentState(cap, before, i, p, after);
    var end := Exec(cap, Exec(cap, Empty(), before), [Enqueue(Null), Enqueue(Signal(p))] + after);
    if i < |end.machines| && i !in end.expired && p in end.signalled {
      var m := end.machines[i];
      assert m.popped == |m.arrivals| ==> m.arrivals[..m.popped] == m.arrivals;
    }
  }
}
