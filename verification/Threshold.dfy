/**
 The exact bound: successive tasks are kept apart for `threads` concurrent schedulers of one machine if and only if
 `threads <= cap`. One more, and a run used up by unposted light readings leaves the stop in the queue.
 */
module Threshold {
  import opened Prelude
  import opened StateMachine
  import opened ThreadHandling
  import opened TaskModel
  import opened TaskRun
  import opened System
  import opened NonInterference
  import R = Runtime
  import M = Manager

  lemma {:induction false} AppendEnabled(c: Config, s: Sys, steps: seq<SysStep>, step: SysStep)
    requires AllEnabled(c, s, steps) && Enabled(c, Exec(c, s, steps), step)
    ensures AllEnabled(c, s, steps + [step]) && Exec(c, s, steps + [step]) == Apply(c, Exec(c, s, steps), step)
    decreases |steps|
  {
    hide Enabled, Apply;
    if steps == [] {
      assert [] + [step] == [step] && [step][1..] == [];
    } else {
      AppendEnabled(c, Apply(c, s, steps[0]), steps[1..], step);
      assert (steps + [step])[1..] == steps[1..] + [step];
    }
  }

  lemma Reach(c: Config, s: Sys, step: SysStep)
    requires Reachable(c, s) && Enabled(c, s, step)
    ensures Reachable(c, Apply(c, s, step))
  {
    hide Enabled, Apply;
    var steps :| AllEnabled(c, Init(), steps) && s == Exec(c, Init(), steps);
    AppendEnabled(c, Init(), steps, step);
  }

  const ByFirst: M.State := M.State(Some(0), Some(0), 1, [M.Start(0, 0)])

  /** After E_START, `n` light readings and nothing else. */
  ghost predicate LightUpTo(m: Task, n: nat) {
    && |m.arrivals| >= n + 1 && forall i | 1 <= i < n + 1 :: m.arrivals[i] == E_AMBIENT
  }

  /** The first task waits; its queue holds `n` light readings, pushed and not posted. */
  ghost predicate Lit(s: Sys, n: nat) {
    && |s.rt.machines| == 1 && s.rt.jobs == [] && s.rt.worker == R.Idle && s.rt.expired == {}
    && s.mgr == ByFirst && s.posting == None && s.leaving == {}
    && s.trace == [Tagged(0, Subscribe(SUBSCRIBE_CALLS))]
    && var m := s.rt.machines[0];
       LightUpTo(m, n) && |m.arrivals| == n + 1 && m.inFlight == n && m.popped == 1 && m.state == S_WAIT_BOTH
  }

  /** What the worker makes of the oldest event of a machine, in a reachable state. */
  lemma PopMoves(c: Config, s: Sys)
    requires c.cap >= 1 && Sorted(c.table) && Reachable(c, s) && Enabled(c, s, WorkerPops)
    ensures var t := Apply(c, s, WorkerPops); var j := s.rt.worker.machine; var m := s.rt.machines[j];
            var o := TaskEffect(m.state, m.user, m.arrivals[m.popped]);
            && Reachable(c, t)
            && t == s.(rt := t.rt, trace := t.trace) && t.trace == s.trace + Tag(j, NewEffects(m))
            && t.rt == s.rt.(machines := s.rt.machines[j := R.Handled(m)], jobs := t.rt.jobs,
                             worker := R.Running(j, s.rt.worker.pops + 1))
            && (o.scheds == [] ==> t.rt.jobs == s.rt.jobs)
            && R.Handled(m).user == o.user && R.Handled(m).state == TaskNext(m.state, m.arrivals[m.popped])
            && R.Handled(m).popped == m.popped + 1 && R.Handled(m).inFlight == m.inFlight
            && m.arrivals <= R.Handled(m).arrivals
            && (o.scheds == [] ==> R.Handled(m).arrivals == m.arrivals)
  {
    var m := s.rt.machines[s.rt.worker.machine];
    assert m.Pending() > 0;
    hide Enabled, Apply, Basic, Guarded, Traced, TaskEffect, TaskTables, Process, NextState, Reachable;
    Reach(c, s, WorkerPops);
    ReachableSound(c, s);
    assert TaskInv(m) by { BasicHolds(c, s, s.rt.worker.machine); }
    hide TaskInv;
    HandledIs(m);
    HandledGrows(m);
    ProcessIs(m.state, m.user, m.arrivals[m.popped]);
    PopShape(c, s);
  }

  lemma PopShape(c: Config, s: Sys)
    requires Enabled(c, s, WorkerPops)
    ensures var t := Apply(c, s, WorkerPops); var j := s.rt.worker.machine; var m := s.rt.machines[j];
            && t == s.(rt := t.rt, trace := t.trace) && t.trace == s.trace + Tag(j, NewEffects(m))
            && t.rt == s.rt.(machines := s.rt.machines[j := R.Handled(m)], jobs := t.rt.jobs,
                             worker := R.Running(j, s.rt.worker.pops + 1))
            && (Process(m.table, m.state, m.user, m.arrivals[m.popped]).scheds == [] ==> t.rt.jobs == s.rt.jobs)
  {
    hide R.Handled, NewEffects, Process;
  }

  /** Handling E_START adds the subscription. */
  lemma StartAdds(m: Task)
    requires TaskInv(m) && m.Pending() > 0 && m.state == S_INIT && m.arrivals[m.popped] == E_START
    ensures NewEffects(m) ==
              [Subscribe(if m.user.sensorSteps < SUBSCRIBE_CALLS then m.user.sensorSteps else SUBSCRIBE_CALLS)]
  {
    HandledIs(m);
    hide R.Handled, TaskInv, TaskTables;
  }

  /** The worker handles E_START of task `j`: it subscribes, and waits if all sensor calls succeeded. */
  lemma StartHandled(c: Config, s: Sys, j: nat)
    requires c.cap >= 1 && Sorted(c.table) && Reachable(c, s) && s.rt.worker == R.Running(j, 0) && j < |s.rt.machines|
    requires var m := s.rt.machines[j]; m.arrivals == [E_START] && m.popped == 0 && m.state == S_INIT
    ensures Enabled(c, s, WorkerPops)
    ensures var t := Apply(c, s, WorkerPops); var m := s.rt.machines[j];
            var k := if m.user.sensorSteps < SUBSCRIBE_CALLS then m.user.sensorSteps else SUBSCRIBE_CALLS;
            && Reachable(c, t) && t.trace == s.trace + [Tagged(j, Subscribe(k))]
            && t == s.(rt := t.rt, trace := t.trace)
            && t.rt == s.rt.(machines := s.rt.machines[j := t.rt.machines[j]], jobs := t.rt.jobs,
                             worker := R.Running(j, 1))
            && (k == SUBSCRIBE_CALLS ==> t.rt.jobs == s.rt.jobs && t.rt.machines[j].arrivals == [E_START])
            && t.rt.machines[j].popped == 1 && t.rt.machines[j].inFlight == m.inFlight
            && t.rt.machines[j].state == S_WAIT_BOTH
  {
    var m := s.rt.machines[j];
    assert m.Pending() > 0 && Enabled(c, s, WorkerPops);
    hide Apply, Enabled, R.Handled, Basic, NewEffects, TaskTables, Guarded, Traced, Reachable;
    PopMoves(c, s);
    ReachableSound(c, s);
    BasicHolds(c, s, j);
    hide TaskInv;
    StartAdds(m);
    assert Tag(j, NewEffects(m)) == [Tagged(j, NewEffects(m)[0])];
  }

  /** The first task is started and its run posted; nothing has been handled. */
  ghost predicate Queued1(s: Sys) {
    && |s.rt.machines| == 1 && s.rt.jobs == [Run(0)] && s.rt.worker == R.Idle && s.rt.expired == {}
    && s.mgr == ByFirst && s.posting == None && s.leaving == {} && s.trace == []
    && var m := s.rt.machines[0];
       m.arrivals == [E_START] && m.popped == 0 && m.inFlight == 0 && m.state == S_INIT && m.user.effects == []
  }

  /** What a successful begin does. */
  lemma BeginIs(c: Config, s: Sys)
    requires s.posting == None && c.threads >= 1 && s.mgr.executorInProc == None && s.mgr.taskInProc == None
    requires s.mgr.made == |s.rt.machines|
    ensures var begin := BeginCommand(Some(0), true, true, 75, 30);
            var n := |s.rt.machines|;
            && Enabled(c, s, begin)
            && Apply(c, s, begin) ==
                 s.(mgr := M.State(Some(0), Some(n), n + 1, s.mgr.calls + [M.Start(n, 0)]), posting := Some(n),
                    rt := s.rt.(machines := s.rt.machines + [Started(NewTask(c.table, 75, 30))]))
  {
    hide Started, NewTask;
  }

  lemma FirstIsQueued(c: Config) returns (s: Sys)
    requires c.threads >= 1
    ensures Reachable(c, s) && Queued1(s)
  {
    assert AllEnabled(c, Init(), []) && Exec(c, Init(), []) == Init();
    var begin := BeginCommand(Some(0), true, true, 75, 30);
    BeginIs(c, Init());
    Reach(c, Init(), begin);
    var s1 := Apply(c, Init(), begin);
    assert s1.rt.machines == [Started(NewTask(c.table, 75, 30))];
    Reach(c, s1, ManagerPosts);
    s := Apply(c, s1, ManagerPosts);
  }

  /** The sensor works; the worker handles E_START: one task waits for its start delay. */
  lemma FirstWaits(c: Config, s: Sys) returns (t: Sys)
    requires c.cap >= 1 && c.threads >= 1 && Sorted(c.table) && Reachable(c, s) && Queued1(s)
    ensures Reachable(c, t) && Lit(t, 0)
  {
    var answer := SysStep.World(0, Change(TaskRun.World.World(0.0, SUBSCRIBE_CALLS, 10)));
    Reach(c, s, answer);
    var s1 := Apply(c, s, answer);
    Reach(c, s1, WorkerTakes);
    var s2 := Apply(c, s1, WorkerTakes);
    assert s2.rt.machines[0].user.sensorSteps == SUBSCRIBE_CALLS
      && Queued1(s2.(rt := s2.rt.(jobs := [Run(0)], worker := R.Idle)));
    t := FirstHandled(c, s2);
  }

  lemma FirstHandled(c: Config, s: Sys) returns (t: Sys)
    requires c.cap >= 1 && Sorted(c.table) && Reachable(c, s) && s.rt.worker == R.Running(0, 0) && s.rt.jobs == []
    requires Queued1(s.(rt := s.rt.(jobs := [Run(0)], worker := R.Idle)))
             && s.rt.machines[0].user.sensorSteps == SUBSCRIBE_CALLS
    ensures Reachable(c, t) && Lit(t, 0)
  {
    hide R.Handled, TaskTables, Reachable;
    StartHandled(c, s, 0);
    var u := Apply(c, s, WorkerPops);
    Reach(c, u, WorkerEnds);
    t := Apply(c, u, WorkerEnds);
  }

  lemma {:induction false} LightComes(c: Config, s: Sys, n: nat, more: nat) returns (t: Sys)
    requires c.cap >= 1 && Sorted(c.table) && Reachable(c, s) && Lit(s, n) && n + more < c.threads
    ensures Reachable(c, t) && Lit(t, n + more)
    decreases more
  {
    if more == 0 {
      t := s;
    } else {
      var light := SysStep.World(0, Light);
      Reach(c, s, light);
      t := LightComes(c, Apply(c, s, light), n + 1, more - 1);
    }
  }

  /** The run posted for the stop is under way and has handled `k` light readings; the second task's run waits. */
  ghost predicate Draining(c: Config, s: Sys, k: nat) {
    && |s.rt.machines| == 2 && s.rt.jobs == [Run(1)] && s.rt.worker == R.Running(0, k) && s.rt.expired == {}
    && s.trace == [Tagged(0, Subscribe(SUBSCRIBE_CALLS))]
    && (var m := s.rt.machines[0];
        && LightUpTo(m, c.cap) && |m.arrivals| == c.cap + 2 && m.popped == k + 1
        && (m.state == S_WAIT_BOTH || m.state == S_WAIT_START_DELAY))
    && (var m := s.rt.machines[1];
        m.arrivals == [E_START] && m.popped == 0 && m.state == S_INIT && m.user.effects == [])
  }

  /** The stop is pushed and posted behind the light readings. */
  ghost predicate StopQueued(c: Config, s: Sys) {
    && |s.rt.machines| == 1 && s.rt.jobs == [Run(0)] && s.rt.worker == R.Idle && s.rt.expired == {}
    && s.mgr.executorInProc == None && s.mgr.taskInProc == None && s.mgr.made == 1 && s.posting == None
    && s.trace == [Tagged(0, Subscribe(SUBSCRIBE_CALLS))]
    && var m := s.rt.machines[0];
       LightUpTo(m, c.cap) && |m.arrivals| == c.cap + 2 && m.popped == 1 && m.state == S_WAIT_BOTH
  }

  lemma FirstIsStopped(c: Config, s: Sys) returns (t: Sys)
    requires 1 <= c.cap < c.threads && Reachable(c, s) && Lit(s, c.cap)
    ensures Reachable(c, t) && StopQueued(c, t)
  {
    var stop := EndCommand(Some(0));
    assert Stopped(s, stop) == Some(0);
    Reach(c, s, stop);
    var u := Apply(c, s, stop);
    assert u.rt.machines[0] == TaskRun.Push(s.rt.machines[0], E_STOP);
    Reach(c, u, ManagerPosts);
    t := Apply(c, u, ManagerPosts);
  }

  /** A second task starts while the light readings are still unposted. */
  lemma SecondQueues(c: Config, s: Sys) returns (t: Sys)
    requires 1 <= c.cap < c.threads && Reachable(c, s) && StopQueued(c, s)
    ensures Reachable(c, t) && Draining(c, t, 0)
  {
    var begin := BeginCommand(Some(0), true, true, 75, 30);
    BeginIs(c, s);
    Reach(c, s, begin);
    var u := Apply(c, s, begin);
    assert u.rt.machines[0] == s.rt.machines[0] && u.rt.machines[1] == Started(NewTask(c.table, 75, 30));
    Reach(c, u, ManagerPosts);
    var v := Apply(c, u, ManagerPosts);
    assert v.rt.jobs == [Run(0), Run(1)];
    Reach(c, v, WorkerTakes);
    t := Apply(c, v, WorkerTakes);
  }

  /** The run spends its whole cap on light readings. */
  lemma {:induction false} RunIsUsedUp(c: Config, s: Sys, k: nat) returns (t: Sys)
    requires c.cap >= 1 && Sorted(c.table) && Reachable(c, s) && Draining(c, s, k) && k <= c.cap
    ensures Reachable(c, t) && Draining(c, t, c.cap)
    decreases c.cap - k
  {
    if k == c.cap {
      t := s;
    } else {
      var m := s.rt.machines[0];
      assert m.arrivals[m.popped] == E_AMBIENT;
      PopMoves(c, s);
      assert Tag(0, NewEffects(m)) == [];
      var u := Apply(c, s, WorkerPops);
      t := RunIsUsedUp(c, u, k + 1);
    }
  }

  /** The worker goes on to the second task, which subscribes before the first is restored. */
  lemma SecondGoesFirst(c: Config, s: Sys) returns (t: Sys)
    requires c.cap >= 1 && Sorted(c.table) && Reachable(c, s) && Draining(c, s, c.cap)
    ensures Reachable(c, t) && !NoInterleaving(t.trace)
  {
    Reach(c, s, WorkerEnds);
    var s1 := Apply(c, s, WorkerEnds);
    Reach(c, s1, WorkerTakes);
    var s2 := Apply(c, s1, WorkerTakes);
    hide R.Handled, TaskTables, Reachable;
    StartHandled(c, s2, 1);
    t := Apply(c, s2, WorkerPops);
    assert t.trace[1].task == 1;
    assert !RestoredBefore(t.trace, 0, 1);
  }

  /** With one thread more than the cap, two tasks do interleave, for every cap. */
  lemma OneThreadTooMany(c: Config) returns (s: Sys)
    requires 1 <= c.cap < c.threads && Sorted(c.table)
    ensures Reachable(c, s) && !NoInterleaving(s.trace)
  {
    var q := FirstIsQueued(c);
    var a := FirstWaits(c, q);
    var b := LightComes(c, a, 0, c.cap);
    var z := FirstIsStopped(c, b);
    var d := SecondQueues(c, z);
    var e := RunIsUsedUp(c, d, 0);
    s := SecondGoesFirst(c, e);
  }

  ghost predicate KeepsTasksApart(c: Config) { forall s | Reachable(c, s) :: NoInterleaving(s.trace) }

  /**
   The exact condition: with runs capped at `cap`, all runs of the system keep successive tasks apart if and only
   if no more than `cap` threads may be between push and post of one machine. The source's cap is 100.
   */
  lemma ApartIffThreadsWithinCap(c: Config)
    requires c.cap >= 1 && c.threads >= 1 && Sorted(c.table)
    ensures KeepsTasksApart(c) <==> c.threads <= c.cap
  {
    if c.threads <= c.cap {
      forall s | Reachable(c, s)
        ensures NoInterleaving(s.trace)
      {
        BrightnessNeverInterleaves(c, s);
      }
    } else {
      var s := OneThreadTooMany(c);
    }
  }

  /** The source's cap of 100 and the source's table: apart for up to 100 such threads, and not for 101. */
  lemma SourceKeepsTasksApart(threads: nat)
    requires threads >= 1
    ensures KeepsTasksApart(Config(100, threads, INCREASE_BRIGHTNESS_ARRAY)) <==> threads <= 100
  {
    SourceTableSorted();
    hide *;
    ApartIffThreadsWithinCap(Config(100, threads, INCREASE_BRIGHTNESS_ARRAY));
  }
}
