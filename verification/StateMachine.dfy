/**
 The event-queue state machine of services_ex/src/finite_state_machine_impl.cpp, as functions on values.

 A callback is a function of the data it captured, of what `GetCurrentState()` answers at that moment and
 of its argument. It yields the new captured data and the events it schedules: `Inner` through the
 machine reference it was handed (push only), `Outer` through the machine itself (push, then post a run).
 */
module StateMachine {
  import opened Prelude

  datatype Sched = Inner(event: uint32) | Outer(event: uint32)

  datatype Outcome<U> = Outcome(user: U, scheds: seq<Sched>)

  type Callback<!U> = (U, uint32, uint32) -> Outcome<U>

  datatype Transition<!U> = Transition(next: uint32, action: Option<Callback<U>>)

  datatype Tables<!U> = Tables(
    transitions: map<uint64, Transition<U>>,
    enters: map<uint32, Option<Callback<U>>>,
    leaves: map<uint32, Option<Callback<U>>>)

  /** One invoked callback: what it saw as current state, and its argument. */
  datatype Call =
    | Act(seen: uint32, event: uint32)
    | Leave(seen: uint32, state: uint32)
    | Enter(seen: uint32, state: uint32)

  /** The key under which a (state, event) pair is stored: the state in the high word, the event in the low one. */
  function GetTransitionIndex(state: uint32, event: uint32): uint64 {
    state * 0x1_0000_0000 + event
  }

  /** Distinct pairs never share a key. */
  lemma TransitionIndexInjective(s1: uint32, e1: uint32, s2: uint32, e2: uint32)
    ensures GetTransitionIndex(s1, e1) == GetTransitionIndex(s2, e2) ==> s1 == s2 && e1 == e2
  {
  }

  /** Shifting the state left by 32 bits and or-ing the event in, as the source does, gives this key. */
  lemma ShiftOrIsPlaceValue(state: bv32, event: bv32)
    ensures (((state as bv64) << 32) | (event as bv64)) as int == GetTransitionIndex(state as int, event as int)
  {
  }

  function NextState<U>(t: Tables<U>, s: uint32, e: uint32): uint32 {
    var k := GetTransitionIndex(s, e);
    if k in t.transitions then t.transitions[k].next else s
  }

  function TransitionAction<U>(t: Tables<U>, s: uint32, e: uint32): Option<Callback<U>> {
    var k := GetTransitionIndex(s, e);
    if k in t.transitions then t.transitions[k].action else None
  }

  function StateCallback<U>(m: map<uint32, Option<Callback<U>>>, s: uint32): Option<Callback<U>> {
    if s in m then m[s] else None
  }

  // ------------------------------------------------------------------------------------------
  // The machine as it runs: a queue, a current state, captured data.
  // `arrivals` is every event ever pushed, in push order; the queue is the part not yet popped.
  // `posts` counts the runs posted by outer schedules; `connected` says a thread handler is set.
  // ------------------------------------------------------------------------------------------

  datatype Core<U> = Core(state: uint32, user: U, arrivals: seq<uint32>, popped: nat, posts: nat,
                          calls: seq<Call>, connected: bool)
  {
    ghost predicate Valid() { popped <= |arrivals| }

    function Pending(): seq<uint32>
      requires Valid()
    {
      arrivals[popped..]
    }
  }

  /** An outer schedule without a thread handler is dropped before the push. */
  function ScheduleOne<U>(c: Core<U>, sched: Sched): Core<U> {
    match sched
    case Inner(e) => c.(arrivals := c.arrivals + [e])
    case Outer(e) => if c.connected then c.(arrivals := c.arrivals + [e], posts := c.posts + 1) else c
  }

  function ScheduleAll<U>(c: Core<U>, scheds: seq<Sched>): (r: Core<U>)
    ensures r.state == c.state && r.user == c.user && r.popped == c.popped && r.calls == c.calls
    ensures r.connected == c.connected
    ensures c.arrivals <= r.arrivals && |r.arrivals| <= |c.arrivals| + |scheds|
    decreases |scheds|
  {
    if scheds == [] then c else ScheduleAll(ScheduleOne(c, scheds[0]), scheds[1..])
  }

  /** Run one callback, if there is one: it sees the current state. */
  function Invoke<U>(c: Core<U>, cb: Option<Callback<U>>, arg: uint32, call: Call): Core<U> {
    match cb
    case None => c
    case Some(f) =>
      var o := f(c.user, c.state, arg);
      ScheduleAll(c.(user := o.user, calls := c.calls + [call]), o.scheds)
  }

  /** DealWithStateLeaveAndEnter: `currentState_` is already the new state when the leave callback runs. */
  function LeaveAndEnter<U>(t: Tables<U>, c: Core<U>, oldState: uint32): Core<U> {
    if oldState == c.state then c else
      var left := Invoke(c, StateCallback(t.leaves, oldState), oldState, Leave(c.state, oldState));
      Invoke(left, StateCallback(t.enters, left.state), left.state, Enter(left.state, left.state))
  }

  /** One pass of the loop in ScheduleInner. */
  function PopOne<U>(t: Tables<U>, c: Core<U>): (r: Core<U>)
    requires c.Valid() && c.popped < |c.arrivals|
    ensures r.Valid() && r.popped == c.popped + 1 && c.arrivals <= r.arrivals
    ensures r.connected == c.connected
  {
    var e := c.arrivals[c.popped];
    var taken := c.(popped := c.popped + 1);
    var acted := Invoke(taken, TransitionAction(t, c.state, e), e, Act(c.state, e));
    LeaveAndEnter(t, acted.(state := NextState(t, c.state, e)), c.state)
  }

  /** ScheduleInner with at most `n` more pops. */
  function RunLoop<U>(t: Tables<U>, c: Core<U>, n: nat): (r: Core<U>)
    requires c.Valid()
    ensures r.Valid() && c.popped <= r.popped <= c.popped + n && c.arrivals <= r.arrivals
    ensures r.popped == c.popped + n || r.popped == |r.arrivals|
    ensures r.connected == c.connected
    decreases n
  {
    if n == 0 || c.popped == |c.arrivals| then c else RunLoop(t, PopOne(t, c), n - 1)
  }

  // ------------------------------------------------------------------------------------------
  // The reference: an interpreter that has no queue, no cap and no runs. It is handed one event at a
  // time and says which state, data, callbacks and scheduled events follow.
  // ------------------------------------------------------------------------------------------

  datatype Snapshot<U> = Snapshot(state: uint32, user: U, calls: seq<Call>)

  datatype Fired<U> = Fired(user: U, scheds: seq<Sched>, calls: seq<Call>)

  function Fire<U>(f: Fired<U>, cb: Option<Callback<U>>, seen: uint32, arg: uint32, call: Call): Fired<U> {
    match cb
    case None => f
    case Some(g) => var o := g(f.user, seen, arg); Fired(o.user, f.scheds + o.scheds, f.calls + [call])
  }

  /** The effect of one event in one state. */
  function Process<U>(t: Tables<U>, s: uint32, u: U, e: uint32): Fired<U> {
    var n := NextState(t, s, e);
    var acted := Fire(Fired(u, [], []), TransitionAction(t, s, e), s, e, Act(s, e));
    if n == s then acted else
      Fire(Fire(acted, StateCallback(t.leaves, s), n, s, Leave(n, s)), StateCallback(t.enters, n), n, n, Enter(n, n))
  }

  function Interpret<U>(t: Tables<U>, m: Snapshot<U>, events: seq<uint32>): Snapshot<U>
    decreases |events|
  {
    if events == [] then m else
      var f := Process(t, m.state, m.user, events[0]);
      Interpret(t, Snapshot(NextState(t, m.state, events[0]), f.user, m.calls + f.calls), events[1..])
  }

  function Snap<U>(c: Core<U>): Snapshot<U> { Snapshot(c.state, c.user, c.calls) }

  /** The events a list of schedules really pushes. */
  function Accepted(scheds: seq<Sched>, connected: bool): seq<uint32> {
    if scheds == [] then [] else
      (if scheds[0].Outer? && !connected then [] else [scheds[0].event]) + Accepted(scheds[1..], connected)
  }

  lemma {:induction false} AcceptedConcat(a: seq<Sched>, b: seq<Sched>, connected: bool)
    ensures Accepted(a + b, connected) == Accepted(a, connected) + Accepted(b, connected)
  {
    if a == [] {
      assert a + b == b;
    } else {
      var first := if a[0].Outer? && !connected then [] else [a[0].event];
      AcceptedConcat(a[1..], b, connected);
      assert (a + b)[0] == a[0] && (a + b)[1..] == a[1..] + b;
      assert Accepted(a + b, connected) == first + (Accepted(a[1..], connected) + Accepted(b, connected));
    }
  }

  /** The runs a list of schedules really posts. */
  function Outers(scheds: seq<Sched>, connected: bool): nat {
    if scheds == [] then 0 else (if scheds[0].Outer? && connected then 1 else 0) + Outers(scheds[1..], connected)
  }

  lemma {:induction false} OutersConcat(a: seq<Sched>, b: seq<Sched>, connected: bool)
    ensures Outers(a + b, connected) == Outers(a, connected) + Outers(b, connected)
  {
    if a == [] {
      assert a + b == b;
    } else {
      OutersConcat(a[1..], b, connected);
      assert (a + b)[0] == a[0] && (a + b)[1..] == a[1..] + b;
    }
  }

  lemma {:induction false} ScheduleAllIs<U>(c: Core<U>, scheds: seq<Sched>)
    ensures ScheduleAll(c, scheds).arrivals == c.arrivals + Accepted(scheds, c.connected)
    ensures ScheduleAll(c, scheds).posts == c.posts + Outers(scheds, c.connected)
    decreases |scheds|
  {
    if scheds != [] {
      ScheduleAllIs(ScheduleOne(c, scheds[0]), scheds[1..]);
    }
  }

  /** A core and the interpreter's account of the events handled so far within one pass. */
  ghost predicate Tracks<U>(base: Core<U>, c: Core<U>, f: Fired<U>) {
    && c.user == f.user && c.calls == base.calls + f.calls && c.connected == base.connected
    && c.arrivals == base.arrivals + Accepted(f.scheds, base.connected)
    && c.posts == base.posts + Outers(f.scheds, base.connected)
  }

  lemma InvokeTracks<U>(base: Core<U>, c: Core<U>, f: Fired<U>, cb: Option<Callback<U>>, arg: uint32, call: Call)
    requires Tracks(base, c, f)
    ensures Tracks(base, Invoke(c, cb, arg, call), Fire(f, cb, c.state, arg, call))
    ensures Invoke(c, cb, arg, call).state == c.state && Invoke(c, cb, arg, call).popped == c.popped
  {
    hide ScheduleAll, ScheduleOne, Accepted, Outers;
    if cb.Some? {
      var o := cb.value(c.user, c.state, arg);
      ScheduleAllIs(c.(user := o.user, calls := c.calls + [call]), o.scheds);
      AcceptedConcat(f.scheds, o.scheds, base.connected);
      OutersConcat(f.scheds, o.scheds, base.connected);
    }
  }

  /** One pass of the queue loop is one step of the interpreter; what it schedules goes to the queue's end. */
  lemma PopOneIsProcess<U>(t: Tables<U>, c: Core<U>)
    requires c.Valid() && c.popped < |c.arrivals|
    ensures var e := c.arrivals[c.popped];
            var f := Process(t, c.state, c.user, e);
            var r := PopOne(t, c);
            && r.state == NextState(t, c.state, e) && r.user == f.user && r.calls == c.calls + f.calls
            && r.arrivals == c.arrivals + Accepted(f.scheds, c.connected)
            && r.posts == c.posts + Outers(f.scheds, c.connected)
  {
    hide Invoke, Fire, NextState, TransitionAction, StateCallback;
    var e := c.arrivals[c.popped];
    var n := NextState(t, c.state, e);
    var taken := c.(popped := c.popped + 1);
    var f0 := Fired(c.user, [], []);
    assert Tracks(c, taken, f0);
    InvokeTracks(c, taken, f0, TransitionAction(t, c.state, e), e, Act(c.state, e));
    var acted := Invoke(taken, TransitionAction(t, c.state, e), e, Act(c.state, e)).(state := n);
    var f1 := Fire(f0, TransitionAction(t, c.state, e), c.state, e, Act(c.state, e));
    assert Tracks(c, acted, f1);
    if n != c.state {
      InvokeTracks(c, acted, f1, StateCallback(t.leaves, c.state), c.state, Leave(n, c.state));
      var left := Invoke(acted, StateCallback(t.leaves, c.state), c.state, Leave(n, c.state));
      var f2 := Fire(f1, StateCallback(t.leaves, c.state), n, c.state, Leave(n, c.state));
      InvokeTracks(c, left, f2, StateCallback(t.enters, n), n, Enter(n, n));
    }
  }

  lemma {:induction false} InterpretConcat<U>(t: Tables<U>, m: Snapshot<U>, a: seq<uint32>, b: seq<uint32>)
    ensures Interpret(t, m, a + b) == Interpret(t, Interpret(t, m, a), b)
    decreases |a|
  {
    if a == [] {
      assert a + b == b;
    } else {
      var f := Process(t, m.state, m.user, a[0]);
      InterpretConcat(t, Snapshot(NextState(t, m.state, a[0]), f.user, m.calls + f.calls), a[1..], b);
      assert (a + b)[1..] == a[1..] + b;
    }
  }

  lemma {:induction false} RunRefinesInterpreter<U>(t: Tables<U>, c: Core<U>, n: nat)
    requires c.Valid()
    ensures var r := RunLoop(t, c, n); Snap(r) == Interpret(t, Snap(c), r.arrivals[c.popped..r.popped])
    decreases n
  {
    hide PopOne, Process, NextState;
    if n > 0 && c.popped < |c.arrivals| {
      var d := PopOne(t, c);
      var r := RunLoop(t, d, n - 1);
      PopOneIsProcess(t, c);
      RunRefinesInterpreter(t, d, n - 1);
      var e := c.arrivals[c.popped];
      assert r.arrivals[c.popped..r.popped] == [e] + r.arrivals[d.popped..r.popped];
    }
  }

  // What the outside does to a machine: any thread pushes, the worker executes capped runs.
  datatype Op = Push(event: uint32) | CappedRun(cap: nat)

  function Perform<U>(t: Tables<U>, c: Core<U>, op: Op): (r: Core<U>)
    requires c.Valid()
    ensures r.Valid() && c.arrivals <= r.arrivals && c.popped <= r.popped
  {
    match op
    case Push(e) => c.(arrivals := c.arrivals + [e])
    case CappedRun(cap) => RunLoop(t, c, cap)
  }

  function PerformAll<U>(t: Tables<U>, c: Core<U>, ops: seq<Op>): (r: Core<U>)
    requires c.Valid()
    ensures r.Valid() && c.arrivals <= r.arrivals && c.popped <= r.popped
    decreases |ops|
  {
    if ops == [] then c else PerformAll(t, Perform(t, c, ops[0]), ops[1..])
  }

  /**
   Refinement: however pushes and capped runs are interleaved, and whatever the callbacks push, the state,
   the data and the log of callbacks are those of the interpreter fed the popped events in push order.
   */
  lemma {:induction false} AnyGroupingRefinesInterpreter<U>(t: Tables<U>, c: Core<U>, ops: seq<Op>)
    requires c.Valid()
    ensures var r := PerformAll(t, c, ops); Snap(r) == Interpret(t, Snap(c), r.arrivals[c.popped..r.popped])
    decreases |ops|
  {
    if ops != [] {
      hide Process, RunLoop, PopOne, Perform, NextState;
      var d := Perform(t, c, ops[0]);
      PerformRefines(t, c, ops[0]);
      AnyGroupingRefinesInterpreter(t, d, ops[1..]);
      Continued(t, c, d, PerformAll(t, d, ops[1..]));
    }
  }

  /** One push or run is the interpreter on what it pops. */
  lemma PerformRefines<U>(t: Tables<U>, c: Core<U>, op: Op)
    requires c.Valid()
    ensures var d := Perform(t, c, op); Snap(d) == Interpret(t, Snap(c), d.arrivals[c.popped..d.popped])
  {
    hide Process, RunLoop, PopOne;
    if op.CappedRun? {
      RunRefinesInterpreter(t, c, op.cap);
    }
  }

  /** Two stretches of interpretation in a row are one. */
  lemma Continued<U>(t: Tables<U>, c: Core<U>, d: Core<U>, r: Core<U>)
    requires c.popped <= d.popped <= r.popped && d.popped <= |d.arrivals| && r.popped <= |r.arrivals|
    requires d.arrivals <= r.arrivals
    requires Snap(d) == Interpret(t, Snap(c), d.arrivals[c.popped..d.popped])
    requires Snap(r) == Interpret(t, Snap(d), r.arrivals[d.popped..r.popped])
    ensures Snap(r) == Interpret(t, Snap(c), r.arrivals[c.popped..r.popped])
  {
    hide Interpret;
    var early, late := d.arrivals[c.popped..d.popped], r.arrivals[d.popped..r.popped];
    InterpretConcat(t, Snap(c), early, late);
    assert r.arrivals[c.popped..r.popped] == early + late;
  }

  /** Where a run is cut does not matter: two runs in a row are one longer run. */
  lemma {:induction false} RunsCompose<U>(t: Tables<U>, c: Core<U>, n: nat, m: nat)
    requires c.Valid()
    ensures RunLoop(t, RunLoop(t, c, n), m) == RunLoop(t, c, n + m)
    decreases n
  {
    hide PopOne;
    if n > 0 && c.popped < |c.arrivals| {
      RunsCompose(t, PopOne(t, c), n - 1, m);
    }
  }

  // ------------------------------------------------------------------------------------------
  // How much a capped run leaves behind.
  // ------------------------------------------------------------------------------------------

  /** On these states and events every step schedules exactly `c` of these events and stays in these states. */
  ghost predicate Breeds<U(!new)>(t: Tables<U>, states: set<uint32>, events: set<uint32>, c: nat) {
    forall s, u, e {:trigger Process(t, s, u, e)} | s in states && e in events ::
      var f := Process(t, s, u, e);
      && NextState(t, s, e) in states && |f.scheds| == c
      && forall i | 0 <= i < |f.scheds| :: f.scheds[i].Inner? && f.scheds[i].event in events
  }

  lemma {:induction false} AcceptedInner(scheds: seq<Sched>, connected: bool, events: set<uint32>)
    requires forall i | 0 <= i < |scheds| :: scheds[i].Inner? && scheds[i].event in events
    ensures |Accepted(scheds, connected)| == |scheds|
    ensures forall e | e in Accepted(scheds, connected) :: e in events
  {
    if scheds != [] {
      AcceptedInner(scheds[1..], connected, events);
    }
  }

  ghost predicate Breeding<U(!new)>(t: Tables<U>, core: Core<U>, states: set<uint32>, events: set<uint32>, c: nat) {
    && core.Valid() && Breeds(t, states, events, c)
    && core.state in states && forall e | e in core.Pending() :: e in events
  }

  lemma BreedingStep<U(!new)>(t: Tables<U>, core: Core<U>, states: set<uint32>, events: set<uint32>, c: nat)
    requires Breeding(t, core, states, events, c) && core.Pending() != []
    ensures var d := PopOne(t, core);
            Breeding(t, d, states, events, c) && |d.Pending()| == |core.Pending()| + c - 1
  {
    var e := core.arrivals[core.popped];
    assert e == core.Pending()[0];
    var f := Process(t, core.state, core.user, e);
    var d := PopOne(t, core);
    PopOneIsProcess(t, core);
    AcceptedInner(f.scheds, core.connected, events);
    assert d.Pending() == core.Pending()[1..] + Accepted(f.scheds, core.connected);
  }

  /**
   Events pushed through the inner reference start no run of their own. If every step breeds `c >= 1` of
   them, a run capped at `cap` always uses its whole cap and strands exactly `q + cap * (c - 1)` events.
   */
  lemma {:induction false} StrandedExactly<U(!new)>(t: Tables<U>, core: Core<U>, states: set<uint32>,
                                                    events: set<uint32>, c: nat, cap: nat)
    requires c >= 1 && Breeding(t, core, states, events, c) && core.Pending() != []
    ensures var r := RunLoop(t, core, cap);
            r.popped == core.popped + cap && |r.Pending()| == |core.Pending()| + cap * (c - 1)
    decreases cap
  {
    if cap > 0 {
      BreedingStep(t, core, states, events, c);
      StrandedExactly(t, PopOne(t, core), states, events, c, cap - 1);
      Distribute(cap, c - 1);
    }
  }

  lemma Distribute(cap: nat, d: nat)
    requires cap > 0
    ensures cap * d == (cap - 1) * d + d
  {
  }

  /** One state, one event, an action that pushes three more: `1 + 2 * cap` are left, 201 at the cap of 100. */
  lemma DeadlockExample(f: Callback<int>, u0: int, cap: nat)
    requires forall u, s, e :: f(u, s, e) == Outcome(u, [Inner(0), Inner(0), Inner(0)])
    ensures var t := Tables(map[GetTransitionIndex(0, 0) := Transition(0, Some(f))], map[], map[]);
            |RunLoop(t, Core(0, u0, [0], 0, 1, [], true), cap).Pending()| == 1 + 2 * cap
  {
    var t := Tables(map[GetTransitionIndex(0, 0) := Transition(0, Some(f))], map[], map[]);
    var core := Core(0, u0, [0], 0, 1, [], true);
    assert core.Pending() == [0];
    forall u: int
      ensures NextState(t, 0, 0) == 0 && Process(t, 0, u, 0).scheds == [Inner(0), Inner(0), Inner(0)]
    {
      assert TransitionAction(t, 0, 0) == Some(f);
      assert Process(t, 0, u, 0).scheds == [] + f(u, 0, 0).scheds;
    }
    StrandedExactly(t, core, {0}, {0}, 3, cap);
  }

  // ------------------------------------------------------------------------------------------
  // Leave and enter callbacks telescope.
  // ------------------------------------------------------------------------------------------

  /** The call log is one walk from `s` to `d`: actions see the state they start from, every leave(x) is
      directly followed by the enter of the state it goes to, and both already see that state. */
  ghost predicate Walk(s: uint32, calls: seq<Call>, d: uint32)
    decreases |calls|
  {
    if calls == [] then s == d
    else match calls[0]
      case Act(seen, _) => seen == s && Walk(s, calls[1..], d)
      case Leave(seen, x) =>
        x == s && seen != s && |calls| >= 2 && calls[1] == Enter(seen, seen) && Walk(seen, calls[2..], d)
      case Enter(_, _) => false
  }

  lemma {:induction false} WalkConcat(a: uint32, x: seq<Call>, b: uint32, y: seq<Call>, c: uint32)
    requires Walk(a, x, b) && Walk(b, y, c)
    ensures Walk(a, x + y, c)
    decreases |x|
  {
    if x == [] {
      assert x + y == y;
    } else if x[0].Act? {
      WalkConcat(a, x[1..], b, y, c);
      assert (x + y)[1..] == x[1..] + y;
    } else {
      WalkConcat(x[0].seen, x[2..], b, y, c);
      assert (x + y)[2..] == x[2..] + y;
    }
  }

  /** Both callbacks are present for this state. */
  predicate Watched<U>(t: Tables<U>, s: uint32) {
    StateCallback(t.enters, s).Some? && StateCallback(t.leaves, s).Some?
  }

  predicate AllTargetsWatched<U>(t: Tables<U>) {
    forall k | k in t.transitions :: Watched(t, t.transitions[k].next)
  }

  lemma {:induction false} InterpretWalks<U>(t: Tables<U>, m: Snapshot<U>, s0: uint32, events: seq<uint32>)
    requires AllTargetsWatched(t) && Watched(t, m.state) && Walk(s0, m.calls, m.state)
    ensures var r := Interpret(t, m, events); Walk(s0, r.calls, r.state)
    decreases |events|
  {
    if events != [] {
      var e := events[0];
      var n := NextState(t, m.state, e);
      var f := Process(t, m.state, m.user, e);
      var act := if TransitionAction(t, m.state, e).Some? then [Act(m.state, e)] else [];
      var swap := if n == m.state then [] else [Leave(n, m.state), Enter(n, n)];
      assert f.calls == act + swap;
      assert Walk(m.state, swap, n) by {
        if n != m.state { assert swap[2..] == []; }
      }
      WalkConcat(m.state, act, m.state, swap, n);
      WalkConcat(s0, m.calls, m.state, f.calls, n);
      InterpretWalks(t, Snapshot(n, f.user, m.calls + f.calls), s0, events[1..]);
    }
  }

  /** Telescoping over any run of the machine. */
  lemma LeaveEnterTelescope<U>(t: Tables<U>, c: Core<U>, ops: seq<Op>)
    requires c.Valid() && c.calls == [] && AllTargetsWatched(t) && Watched(t, c.state)
    ensures var r := PerformAll(t, c, ops); Walk(c.state, r.calls, r.state)
  {
    var r := PerformAll(t, c, ops);
    AnyGroupingRefinesInterpreter(t, c, ops);
    InterpretWalks(t, Snap(c), c.state, r.arrivals[c.popped..r.popped]);
  }

  // ------------------------------------------------------------------------------------------
  // The control state alone.
  // ------------------------------------------------------------------------------------------

  /** The control state depends on the events only: callbacks cannot steer it. */
  function FoldState<U>(t: Tables<U>, s: uint32, events: seq<uint32>): uint32
    decreases |events|
  {
    if events == [] then s else FoldState(t, NextState(t, s, events[0]), events[1..])
  }

  lemma {:induction false} FoldStateSnoc<U>(t: Tables<U>, s: uint32, events: seq<uint32>, e: uint32)
    ensures FoldState(t, s, events + [e]) == NextState(t, FoldState(t, s, events), e)
    decreases |events|
  {
    if events == [] {
      assert [e][1..] == [];
    } else {
      FoldStateSnoc(t, NextState(t, s, events[0]), events[1..], e);
      assert (events + [e])[1..] == events[1..] + [e];
    }
  }
}
