/**
 One task under an adversarial environment: timers may expire at any time and their threads may dawdle, light
 readings and stop requests may come at any time and any number of times, the libraries may answer anything.
 The machine is the one of Runtime; its events are handled one at a time, however the worker groups them.
 */
module TaskRun {
  import opened Prelude
  import opened StateMachine
  import opened TaskModel
  import opened Runtime

  type Task = Machine<TaskData>

  datatype World = World(lux: real, sensorSteps: nat, device: uint32)

  datatype TaskStep =
    | Change(w: World)         // the next answers of the libraries, the last light reading
    | Expires(id: nat)         // an armed one-shot timer goes off: its thread has it now
    | Deliver(kind: Kind)      // that thread pushes its event
    | Light                    // a light reading is pushed
    | Stop                     // Stop() is called
    | Posted                   // a thread is done with its schedule
    | Handle                   // the worker handles the oldest event
    | Shutdown                 // the destructor begins

  function EventOf(kind: Kind): uint32 { if kind.StartDelay? then E_DELAY_EXPIRED else E_INCREASE }

  function Push(m: Task, e: uint32): Task { m.(arrivals := m.arrivals + [e], inFlight := m.inFlight + 1) }

  function Firing(d: TaskData, kind: Kind): nat { if kind.StartDelay? then d.delayFiring else d.tickFiring }

  /** The destructor runs only after Stop() was called. */
  predicate StepEnabled(m: Task, step: TaskStep) {
    match step
    case Shutdown => m.state == S_END || (m.popped <= |m.arrivals| && E_STOP in m.arrivals[m.popped..])
    case Expires(id) => id in m.user.timers
    case Deliver(kind) => Firing(m.user, kind) > 0
    case Posted => m.inFlight > 0
    case Handle => m.Pending() > 0
    case _ => true
  }

  /** The timer thread takes an expired timer; it is no longer armed. */
  function Expired(d: TaskData, id: nat): TaskData
    requires id in d.timers
  {
    var u := d.(timers := d.timers - {id});
    if d.timers[id].kind.StartDelay? then u.(delayFiring := u.delayFiring + 1) else u.(tickFiring := u.tickFiring + 1)
  }

  function Delivered(d: TaskData, kind: Kind): TaskData
    requires Firing(d, kind) > 0
  {
    if kind.StartDelay? then d.(delayFiring := d.delayFiring - 1) else d.(tickFiring := d.tickFiring - 1)
  }

  /** The destructor stops the timer; a thread that has taken an expired one finds the object gone and pushes
      nothing. */
  function Shut(d: TaskData): TaskData { d.(timers := map[], delayFiring := 0, tickFiring := 0) }

  function TaskApply(m: Task, step: TaskStep): Task
    requires StepEnabled(m, step)
  {
    match step
    case Change(w) => m.(user := m.user.(lux := w.lux, sensorSteps := w.sensorSteps, device := w.device))
    case Expires(id) => m.(user := Expired(m.user, id))
    case Deliver(kind) => Push(m.(user := Delivered(m.user, kind)), EventOf(kind))
    case Light => Push(m, E_AMBIENT)
    case Stop => Push(m, E_STOP)
    case Posted => m.(inFlight := m.inFlight - 1)
    case Handle => Handled(m)
    case Shutdown => m.(user := Shut(m.user))
  }

  /** Right after Start(): the machine is made and E_START is its first event. */
  function Started(d: TaskData): Task { Machine(TaskTables(), S_INIT, S_INIT, d, [E_START], 0, 1) }

  // ------------------------------------------------------------------------------------------
  // The ramp.
  // ------------------------------------------------------------------------------------------

  /** The table's entries above the current brightness and within the limit, in table order. */
  function Ramp(table: seq<uint32>, cur: uint32, max: uint32): seq<uint32> {
    if table == [] then []
    else Ramp(table[..|table| - 1], cur, max)
         + if cur < table[|table| - 1] <= max then [table[|table| - 1]] else []
  }

  /** The brightness values shown so far. */
  function Shown(effects: seq<Effect>): seq<uint32> {
    if effects == [] then []
    else Shown(effects[..|effects| - 1])
         + if effects[|effects| - 1].Override? then [effects[|effects| - 1].value] else []
  }

  lemma ShownSnoc(effects: seq<Effect>, x: Effect)
    ensures Shown(effects + [x]) == if x.Override? then Shown(effects) + [x.value] else Shown(effects)
  {
    assert (effects + [x])[..|effects|] == effects;
  }

  lemma RampSnoc(table: seq<uint32>, i: nat, cur: uint32, max: uint32)
    requires i < |table|
    ensures Ramp(table[..i + 1], cur, max)
         == Ramp(table[..i], cur, max) + if cur < table[i] <= max then [table[i]] else []
  {
    assert table[..i + 1][..i] == table[..i];
  }

  lemma {:induction false} RampEmpty(table: seq<uint32>, cur: uint32, max: uint32)
    requires forall i | 0 <= i < |table| :: !(cur < table[i] <= max)
    ensures Ramp(table, cur, max) == []
    decreases |table|
  {
    if table != [] {
      RampEmpty(table[..|table| - 1], cur, max);
    }
  }

  lemma {:induction false} RampPrefix(table: seq<uint32>, i: nat, cur: uint32, max: uint32)
    requires i <= |table|
    ensures Ramp(table[..i], cur, max) <= Ramp(table, cur, max)
    decreases |table|
  {
    if i < |table| {
      var front := table[..|table| - 1];
      assert front[..i] == table[..i];
      RampPrefix(front, i, cur, max);
    } else {
      assert table[..i] == table;
    }
  }

  /** Nothing after an entry beyond the limit belongs to the ramp. */
  lemma {:induction false} RampComplete(table: seq<uint32>, i: nat, cur: uint32, max: uint32)
    requires i <= |table| && forall j | i <= j < |table| :: table[j] > max
    ensures Ramp(table[..i], cur, max) == Ramp(table, cur, max)
    decreases |table|
  {
    if i < |table| {
      var front := table[..|table| - 1];
      assert front[..i] == table[..i];
      RampComplete(front, i, cur, max);
    } else {
      assert table[..i] == table;
    }
  }

  /** The ramp value by value: each as often as the table has it, if it is above the reading and within the limit. */
  lemma {:induction false} RampValues(table: seq<uint32>, cur: uint32, max: uint32)
    ensures forall x: uint32 ::
              multiset(Ramp(table, cur, max))[x] == if cur < x <= max then multiset(table)[x] else 0
    decreases |table|
  {
    if table != [] {
      var front, last := table[..|table| - 1], table[|table| - 1];
      RampValues(front, cur, max);
      assert table == front + [last];
    }
  }

  lemma RampMembers(table: seq<uint32>, cur: uint32, max: uint32)
    ensures |Ramp(table, cur, max)| <= |table|
    ensures forall x | x in Ramp(table, cur, max) :: cur < x <= max && x in table
    ensures forall x | x in table && cur < x <= max :: x in Ramp(table, cur, max)
  {
    RampValues(table, cur, max);
    var ramp := Ramp(table, cur, max);
    forall x | x in ramp
      ensures cur < x <= max && x in table
    {
      assert multiset(ramp)[x] >= 1;
    }
    forall x | x in table && cur < x <= max
      ensures x in ramp
    {
      assert multiset(table)[x] >= 1 && multiset(ramp)[x] >= 1;
    }
    assert multiset(ramp) <= multiset(table);
    assert |multiset(ramp)| <= |multiset(table)| by {
      assert multiset(table) == multiset(ramp) + (multiset(table) - multiset(ramp));
    }
  }

  /** In a sorted table the ramp is one stretch. */
  lemma {:induction false} RampIsStretch(table: seq<uint32>, a: nat, b: nat, cur: uint32, max: uint32)
    requires a <= b <= |table| && (forall i | 0 <= i < a :: table[i] <= cur)
    requires (forall i | a <= i < b :: cur < table[i] <= max) && (forall i | b <= i < |table| :: table[i] > max)
    ensures Ramp(table, cur, max) == table[a..b]
    decreases |table|
  {
    if table != [] {
      var front := table[..|table| - 1];
      if a == |table| {
        RampIsStretch(front, a - 1, a - 1, cur, max);
      } else if b == |table| {
        RampIsStretch(front, a, b - 1, cur, max);
        assert table[a..b] == front[a..b - 1] + [table[b - 1]];
      } else {
        RampIsStretch(front, a, b, cur, max);
        assert table[a..b] == front[a..b];
      }
    }
  }

  /** The source's table in use: all of it, for a dark display and no limit. */
  lemma WholeRamp()
    ensures Ramp(INCREASE_BRIGHTNESS_ARRAY, 0, 255) == [
              4, 4, 5, 5, 6, 6, 7, 8, 9, 9, 10, 11, 13, 14, 15, 17, 18, 20, 22, 24, 27, 30, 33, 36, 39, 43, 48, 52, 58,
              63, 70, 77, 84, 93, 102, 112, 124, 136, 150, 166, 181, 199, 219, 241]
  {
    var table := INCREASE_BRIGHTNESS_ARRAY;
    hide Ramp;
    RampIsStretch(table, 0, 44, 0, 255);
    assert table[0..44] == table;
  }

  lemma {:induction false} RampSorted(table: seq<uint32>, cur: uint32, max: uint32)
    requires Sorted(table)
    ensures Sorted(Ramp(table, cur, max))
    decreases |table|
  {
    if table != [] {
      var front, last := table[..|table| - 1], table[|table| - 1];
      RampSorted(front, cur, max);
      RampMembers(front, cur, max);
      var ramp := Ramp(front, cur, max);
      forall i | 0 <= i < |ramp|
        ensures ramp[i] <= last
      {
        assert ramp[i] in ramp && ramp[i] in front;
        var k :| 0 <= k < |front| && front[k] == ramp[i];
        assert table[k] <= table[|table| - 1];
      }
    }
  }

  // ------------------------------------------------------------------------------------------
  // The invariant of one task.
  // ------------------------------------------------------------------------------------------

  function Queue(m: Task): seq<uint32>
    requires m.popped <= |m.arrivals|
  {
    m.arrivals[m.popped..]
  }

  function Queued(m: Task, e: uint32): nat
    requires m.popped <= |m.arrivals|
  {
    multiset(Queue(m))[e]
  }

  function Armed(d: TaskData, kind: Kind): nat {
    if d.currTimerId in d.timers && d.timers[d.currTimerId].kind == kind then 1 else 0
  }

  /** Timers armed, timer threads underway and (`queued`) events queued of one kind, together. */
  function Tokens(d: TaskData, kind: Kind, queued: nat): nat { Armed(d, kind) + Firing(d, kind) + queued }

  /** Subscribed and then only overrides. */
  predicate OpenBlock(effects: seq<Effect>) {
    |effects| >= 1 && effects[0].Subscribe? && effects[0].steps <= SUBSCRIBE_CALLS
    && forall i | 1 <= i < |effects| :: effects[i].Override?
  }

  /** An open block closed by exactly one unsubscription and one restore. */
  predicate ClosedBlock(effects: seq<Effect>) {
    |effects| >= 3 && OpenBlock(effects[..|effects| - 2])
    && effects[|effects| - 2] == Unsubscribe && effects[|effects| - 1] == Restore
  }

  ghost predicate TimersSound(d: TaskData) {
    && d.timers.Keys <= {d.currTimerId} && d.currTimerId < d.nextTimerId
    && forall id | id in d.timers ::
         d.timers[id].interval == if d.timers[id].kind.StartDelay? then INCREASE_BRIGHTNESS_START_DELAY else d.interval
  }

  ghost predicate DataSound(d: TaskData) {
    && Sorted(d.table) && d.index <= |d.table| && d.interval >= 1 && d.max <= MAX_BRIGHTNESS
    && TimersSound(d) && Shown(d.effects) <= Ramp(d.table, d.currentBrightness, d.max)
    && (Shown(d.effects) != [] ==> FullySubscribed(d.effects))
  }

  predicate FullySubscribed(effects: seq<Effect>) { effects != [] && effects[0] == Subscribe(SUBSCRIBE_CALLS) }

  ghost predicate EventsSound(m: Task) {
    && m.table == TaskTables() && m.init == S_INIT && Sound(m)
    && |m.arrivals| >= 1 && m.arrivals[0] == E_START
    && forall i | 1 <= i < |m.arrivals| :: m.arrivals[i] != E_START
  }

  /** All ticks ever produced, queued or handled, and those still to come from the armed timer and its thread. */
  function TicksMade(m: Task): nat { multiset(m.arrivals)[E_INCREASE] + m.user.tickFiring + Armed(m.user, Tick) }

  /** Each tick is paid for by a value shown; none is missing while the task increases and no stop is queued. */
  ghost predicate TicksBounded(m: Task)
    requires m.popped <= |m.arrivals|
  {
    && TicksMade(m) <= |Shown(m.user.effects)|
    && (m.state == S_INCREASING && E_STOP !in Queue(m) ==> TicksMade(m) == |Shown(m.user.effects)|)
  }

  /** A ramp in progress: the overrides are the ramp up to the index, and it is complete once no tick is
      left, unless a stop is queued. */
  ghost predicate Ramping(d: TaskData, ticks: nat, stopping: bool)
    requires d.index <= |d.table|
  {
    && Shown(d.effects) == Ramp(d.table[..d.index], d.currentBrightness, d.max)
    && (d.index < |d.table| ==> d.table[d.index] > d.currentBrightness)
    && (ticks == 0 ==> d.index == |d.table| || (d.index >= 1 && d.table[d.index - 1] > d.max) || stopping)
  }

  ghost predicate Waiting(d: TaskData, ticks: nat) {
    |d.effects| == 1 && OpenBlock(d.effects) && d.index == 0 && ticks == 0
  }

  /** What holds of the data in each control state; `delays` and `ticks` are tokens, `stopping` says that an
      E_STOP is queued. */
  ghost predicate Shape(state: uint32, popped: nat, d: TaskData, delays: nat, ticks: nat, stopping: bool)
    requires d.index <= |d.table|
  {
    if state == S_INIT then
      popped == 0 && d.effects == [] && delays == 0 && ticks == 0 && d.index == 0
    else if state == S_WAIT_BOTH || state == S_WAIT_START_DELAY then
      Waiting(d, ticks)
      && (delays == 1 ==> d.effects[0].steps == SUBSCRIBE_CALLS) && (delays == 1 || (delays == 0 && stopping))
    else if state == S_WAIT_AMBIENT then
      Waiting(d, ticks) && d.effects[0].steps == SUBSCRIBE_CALLS && delays == 0
    else if state == S_INCREASING then
      && OpenBlock(d.effects) && d.effects[0].steps == SUBSCRIBE_CALLS && delays == 0 && ticks <= 1
      && (if d.currentBrightness == INVALID_BRIGHTNESS then ticks == 0 && Shown(d.effects) == []
          else (ticks == 0 && stopping && |d.effects| == 1) || Ramping(d, ticks, stopping))
    else
      state == S_END && ClosedBlock(d.effects) && d.timers == map[] && delays + ticks <= 1
  }

  ghost predicate InState(m: Task)
    requires m.popped <= |m.arrivals| && m.user.index <= |m.user.table|
  {
    Shape(m.state, m.popped, m.user, Tokens(m.user, StartDelay, Queued(m, E_DELAY_EXPIRED)),
          Tokens(m.user, Tick, Queued(m, E_INCREASE)), E_STOP in Queue(m))
  }

  ghost predicate TaskInv(m: Task) {
    EventsSound(m) && DataSound(m.user) && TicksBounded(m) && InState(m)
  }

  // ------------------------------------------------------------------------------------------
  // Every step keeps it.
  // ------------------------------------------------------------------------------------------

  lemma StartedInv(table: seq<uint32>, intervalParam: uint32, maxParam: uint32)
    requires Sorted(table)
    ensures TaskInv(Started(NewTask(table, intervalParam, maxParam)))
  {
    var m := Started(NewTask(table, intervalParam, maxParam));
    assert m.arrivals[m.popped..] == [E_START];
    assert m.arrivals[..0] == [];
    OuterOnly();
  }

  lemma OuterOnly()
    ensures OnlyOuter(TaskTables())
  {
    forall s, d, e
      ensures AllOuter(Process(TaskTables(), s, d, e).scheds)
    {
      ProcessIs(s, d, e);
    }
  }

  /** A push grows the queue by one event of its kind and leaves the rest. */
  lemma PushCounts(m: Task, e: uint32)
    requires EventsSound(m) && e != E_START
    ensures var n := Push(m, e);
            && EventsSound(n) && Queue(n) == Queue(m) + [e]
            && (forall x :: Queued(n, x) == Queued(m, x) + if x == e then 1 else 0)
            && multiset(n.arrivals)[E_INCREASE] == multiset(m.arrivals)[E_INCREASE] + if e == E_INCREASE then 1 else 0
  {
    var n := Push(m, e);
    PushedSound(m, e);
    assert Queue(n) == Queue(m) + [e];
  }

  lemma LightOrStopKeeps(m: Task, e: uint32)
    requires TaskInv(m) && (e == E_AMBIENT || e == E_STOP)
    ensures TaskInv(Push(m, e))
  {
    hide TaskTables, FoldState, Ramp, Shown, OpenBlock, ClosedBlock, DataSound, EventsSound;
    PushCounts(m, e);
  }

  lemma DeliverKeeps(m: Task, kind: Kind)
    requires TaskInv(m) && Firing(m.user, kind) > 0
    ensures TaskInv(TaskApply(m, Deliver(kind)))
  {
    hide TaskTables, FoldState, Ramp, Shown, OpenBlock, ClosedBlock, Shape, Queue;
    var d := m.(user := Delivered(m.user, kind));
    Undisturbed(m, d);
    PushCounts(d, EventOf(kind));
    SameShape(m.state, m.popped, m.user, d.user, Tokens(m.user, StartDelay, Queued(m, E_DELAY_EXPIRED)),
              Tokens(m.user, Tick, Queued(m, E_INCREASE)), E_STOP in Queue(m));
    assert EventOf(kind) != E_STOP;
  }

  /** Only the data changed. */
  lemma Undisturbed(m: Task, n: Task)
    requires EventsSound(m) && n == m.(user := n.user)
    ensures EventsSound(n) && Queue(n) == Queue(m) && (forall x :: Queued(n, x) == Queued(m, x))
  {
    hide TaskTables, FoldState;
  }

  lemma ExpiresKeeps(m: Task, id: nat)
    requires TaskInv(m) && id in m.user.timers
    ensures TaskInv(TaskApply(m, Expires(id)))
  {
    hide TaskTables, FoldState, Ramp, Shown, OpenBlock, ClosedBlock, Shape;
    var n := TaskApply(m, Expires(id));
    assert id == m.user.currTimerId && n.user.timers.Keys == {};
    assert Queue(n) == Queue(m);
    SameShape(m.state, m.popped, m.user, n.user, Tokens(m.user, StartDelay, Queued(m, E_DELAY_EXPIRED)),
              Tokens(m.user, Tick, Queued(m, E_INCREASE)), E_STOP in Queue(m));
  }

  /** The shape does not depend on where the tokens are, nor on the answers the libraries will give. */
  lemma SameShape(state: uint32, popped: nat, d: TaskData, c: TaskData, delays: nat, ticks: nat, stopping: bool)
    requires d.index <= |d.table| && Shape(state, popped, d, delays, ticks, stopping)
    requires c.table == d.table && c.index == d.index && c.effects == d.effects && c.max == d.max
    requires c.currentBrightness == d.currentBrightness && (d.timers == map[] ==> c.timers == map[])
    ensures Shape(state, popped, c, delays, ticks, stopping)
  {
    hide Ramp, Shown, OpenBlock, ClosedBlock;
  }

  lemma WorldKeeps(m: Task, step: TaskStep)
    requires TaskInv(m) && StepEnabled(m, step) && (step.Change? || step.Posted?)
    ensures TaskInv(TaskApply(m, step))
  {
    hide TaskTables, FoldState, Ramp, Shown, OpenBlock, ClosedBlock, Shape;
    var n := TaskApply(m, step);
    assert Queue(n) == Queue(m);
    SameShape(m.state, m.popped, m.user, n.user, Tokens(m.user, StartDelay, Queued(m, E_DELAY_EXPIRED)),
              Tokens(m.user, Tick, Queued(m, E_INCREASE)), E_STOP in Queue(m));
  }

  lemma ShutdownKeeps(m: Task)
    requires TaskInv(m) && StepEnabled(m, Shutdown)
    ensures TaskInv(TaskApply(m, Shutdown))
  {
    hide TaskTables, FoldState, Ramp, Shown, OpenBlock, ClosedBlock;
    var n := TaskApply(m, Shutdown);
    assert Queue(n) == Queue(m);
  }

  /** Handling one event, seen from the task. */
  lemma HandledIs(m: Task)
    requires TaskInv(m) && m.Pending() > 0
    ensures var n := Handled(m);
            var e := m.arrivals[m.popped];
            var o := TaskEffect(m.state, m.user, e);
            && n.user == o.user && n.state == TaskNext(m.state, e) && n.popped == m.popped + 1
            && n.arrivals == m.arrivals + (if o.scheds == [] then [] else [E_STOP])
            && (o.scheds == [] || o.scheds == [Outer(E_STOP)])
            && EventsSound(n)
  {
    hide TaskTables, FoldState, InState, DataSound, TicksBounded, NextState;
    var e := m.arrivals[m.popped];
    ProcessIs(m.state, m.user, e);
    HandledSound(m);
    assert [Outer(E_STOP)][1..] == [];
  }

  /** Queue, events and tick count after the oldest event is handled and E_STOP perhaps pushed. */
  lemma QueueAfter(m: Task, n: Task, more: seq<uint32>)
    requires m.popped < |m.arrivals| && n.popped == m.popped + 1
    requires n.arrivals == m.arrivals + more && (more == [] || more == [E_STOP])
    ensures var e := m.arrivals[m.popped];
            && Queued(m, e) >= 1 && (forall x | x != E_STOP :: Queued(n, x) == Queued(m, x) - if x == e then 1 else 0)
            && (E_STOP in Queue(m) && e != E_STOP ==> E_STOP in Queue(n)) && (more != [] ==> E_STOP in Queue(n))
            && multiset(n.arrivals)[E_INCREASE] == multiset(m.arrivals)[E_INCREASE]
  {
    var e, rest := m.arrivals[m.popped], m.arrivals[m.popped + 1..];
    assert Queue(m) == [e] + rest;
    assert Queue(n) == rest + more;
    if more != [] {
      assert Queue(n)[|Queue(n)| - 1] == E_STOP;
    }
  }

  lemma HandleCounts(m: Task)
    requires TaskInv(m) && m.Pending() > 0
    ensures var n := Handled(m);
            var e := m.arrivals[m.popped];
            var o := TaskEffect(m.state, m.user, e);
            && n.user == o.user && n.state == TaskNext(m.state, e) && EventsSound(n)
            && Queued(m, e) >= 1 && (forall x | x != E_STOP :: Queued(n, x) == Queued(m, x) - if x == e then 1 else 0)
            && (E_STOP in Queue(m) && e != E_STOP ==> E_STOP in Queue(n)) && (o.scheds != [] ==> E_STOP in Queue(n))
            && multiset(n.arrivals)[E_INCREASE] == multiset(m.arrivals)[E_INCREASE]
            && n.popped == m.popped + 1 && (m.popped == 0 <==> e == E_START)
  {
    HandledIs(m);
    var n := Handled(m);
    QueueAfter(m, n, n.arrivals[|m.arrivals|..]);
  }

  /** Subscribing: the delay is armed if all four sensor calls succeed, a stop is asked for otherwise. */
  lemma SubscribedIs(d: TaskData)
    requires DataSound(d) && d.effects == []
    ensures var o := StartProcess(d);
            var r := o.user;
            && DataSound(r) && Shown(r.effects) == [] && OpenBlock(r.effects) && |r.effects| == 1
            && r.index == d.index && r.tickFiring == d.tickFiring && r.delayFiring == d.delayFiring
            && (if d.sensorSteps >= 4 then
                  o.scheds == [] && r.effects == [Subscribe(4)] && Armed(r, StartDelay) == 1 && Armed(r, Tick) == 0
                else
                  o.scheds == [Outer(E_STOP)] && r.effects == [Subscribe(d.sensorSteps)] && r.timers == d.timers
                  && r.currTimerId == d.currTimerId)
  {
    hide Ramp;
    var steps := if d.sensorSteps < SUBSCRIBE_CALLS then d.sensorSteps else SUBSCRIBE_CALLS;
    ShownSnoc(d.effects, Subscribe(steps));
    assert d.effects + [Subscribe(steps)] == [Subscribe(steps)];
  }

  lemma StartKeeps(m: Task)
    requires TaskInv(m) && m.Pending() > 0 && m.state == S_INIT
    ensures TaskInv(Handled(m))
  {
    hide Handled, TaskTables, FoldState, Sound, Queue, Ramp, Shown, OpenBlock, ClosedBlock, StartProcess;
    HandleCounts(m);
    SubscribedIs(m.user);
    assert Shown([]) == [] by {
      ShownOfNothing();
    }
  }

  lemma ShownOfNothing()
    ensures Shown([]) == []
  {
  }

  /** Entering S_END closes the block and disarms the timer. */
  lemma EndCloses(d: TaskData)
    requires DataSound(d) && OpenBlock(d.effects)
    ensures var r := EndProcess(d);
            && DataSound(r) && ClosedBlock(r.effects) && r.timers == map[] && r.index == d.index
            && Shown(r.effects) == Shown(d.effects)
            && r.delayFiring == d.delayFiring && r.tickFiring == d.tickFiring
  {
    hide Ramp, Shown;
    var r := EndProcess(d);
    var mid := d.effects + [Unsubscribe];
    ShownSnoc(d.effects, Unsubscribe);
    ShownSnoc(mid, Restore);
    assert mid + [Restore] == r.effects;
    assert r.effects[..|r.effects| - 2] == d.effects;
    assert r.timers.Keys == {};
  }

  lemma StopKeeps(m: Task)
    requires TaskInv(m) && m.Pending() > 0
    requires m.state != S_INIT && m.state != S_END && m.arrivals[m.popped] == E_STOP
    ensures TaskInv(Handled(m))
  {
    hide Handled, TaskTables, FoldState, Sound, Queue, Ramp, Shown, OpenBlock, ClosedBlock, EndProcess, DataSound;
    HandleCounts(m);
    EndCloses(m.user);
  }

  /** One brightening of a ramp that stands at `index`. */
  lemma BrighteningIs(d: TaskData)
    requires DataSound(d) && OpenBlock(d.effects) && Armed(d, StartDelay) == 0 && Armed(d, Tick) == 0
    requires d.effects[0].steps == SUBSCRIBE_CALLS
    requires Shown(d.effects) == Ramp(d.table[..d.index], d.currentBrightness, d.max)
    requires d.index < |d.table| && d.table[d.index] > d.currentBrightness
    ensures var r := DoIncreaseBrightness(d);
            && DataSound(r) && OpenBlock(r.effects) && r.effects[0] == d.effects[0] && r.index == d.index + 1
            && Ramping(r, Armed(r, Tick), false) && r.currentBrightness == d.currentBrightness
            && r.delayFiring == d.delayFiring && r.tickFiring == d.tickFiring
            && Armed(r, StartDelay) == 0 && Armed(r, Tick) <= 1
            && |Shown(r.effects)| == |Shown(d.effects)| + Armed(r, Tick)
  {
    hide Ramp, Shown;
    var r := DoIncreaseBrightness(d);
    ShownSnoc(d.effects, Override(d.table[d.index]));
    RampSnoc(d.table, d.index, d.currentBrightness, d.max);
    RampPrefix(d.table, d.index + 1, d.currentBrightness, d.max);
    assert r.index < |d.table| ==> d.table[d.index] <= d.table[r.index];
  }

  /** What entering the ramp does to a task that has only subscribed so far. */
  lemma BegunIs(d: TaskData)
    requires DataSound(d) && Waiting(d, 0) && Armed(d, StartDelay) == 0 && Armed(d, Tick) == 0
    requires d.effects[0].steps == SUBSCRIBE_CALLS
    ensures var o := BeginIncreaseBrightness(d);
            var r := o.user;
            && DataSound(r) && OpenBlock(r.effects) && r.effects[0] == d.effects[0]
            && r.delayFiring == d.delayFiring && r.tickFiring == d.tickFiring
            && Armed(r, StartDelay) == 0 && Armed(r, Tick) <= 1
            && Armed(r, Tick) == |Shown(r.effects)|
            && (if o.scheds != [] then r == d
                else if r.currentBrightness == INVALID_BRIGHTNESS then Armed(r, Tick) == 0 && Shown(r.effects) == []
                else Ramping(r, Armed(r, Tick), false))
  {
    hide StartIndex, Ramp, DoIncreaseBrightness;
    assert Shown(d.effects) == [] by {
      assert d.effects[..0] == [];
    }
    if d.lux < AMBIENT_LIGHT_THRESHOLD_FOR_BEGIN && d.device != INVALID_BRIGHTNESS {
      var placed := d.(currentBrightness := d.device, index := StartIndex(d.table, d.device));
      RampEmpty(placed.table[..placed.index], placed.currentBrightness, placed.max);
      if placed.index < |placed.table| {
        BrighteningIs(placed);
      }
    }
  }

  /** What an event that leads into the ramp finds and leaves of queue and tokens. */
  lemma AboutToBegin(m: Task)
    requires TaskInv(m) && m.Pending() > 0
    requires m.state != S_INCREASING && TaskNext(m.state, m.arrivals[m.popped]) == S_INCREASING
    ensures var n := Handled(m); var d := m.user;
            && DataSound(d) && Waiting(d, 0) && d.effects[0].steps == SUBSCRIBE_CALLS && Shown(d.effects) == []
            && d.timers == map[] && d.delayFiring == 0 && d.tickFiring == 0
            && EventsSound(n) && n.user == BeginIncreaseBrightness(d).user && n.state == S_INCREASING
            && Queued(n, E_DELAY_EXPIRED) == 0 && Queued(n, E_INCREASE) == 0
            && multiset(n.arrivals)[E_INCREASE] == 0
            && (BeginIncreaseBrightness(d).scheds != [] ==> E_STOP in Queue(n))
  {
    hide Handled, TaskTables, FoldState, Sound, Queue, Ramp, ClosedBlock, BeginIncreaseBrightness;
    HandleCounts(m);
    assert Shown(m.user.effects) == [] by {
      assert m.user.effects[..0] == [];
    }
    assert m.user.timers.Keys == {};
  }

  lemma BeginKeeps(m: Task)
    requires TaskInv(m) && m.Pending() > 0
    requires m.state != S_INCREASING && TaskNext(m.state, m.arrivals[m.popped]) == S_INCREASING
    ensures TaskInv(Handled(m))
  {
    hide Handled, Sound, TaskTables, FoldState, Queue, Ramp, Shown, ClosedBlock, BeginIncreaseBrightness, TimersSound;
    AboutToBegin(m);
    BegunIs(m.user);
    hide OpenBlock;
  }

  lemma TickKeeps(m: Task)
    requires TaskInv(m) && m.Pending() > 0 && m.state == S_INCREASING && m.arrivals[m.popped] == E_INCREASE
    ensures TaskInv(Handled(m))
  {
    hide Handled, TaskTables, FoldState, Sound, Queue, Ramp, Shown, OpenBlock, ClosedBlock;
    HandleCounts(m);
    var d := m.user;
    if d.index < |d.table| {
      hide DoIncreaseBrightness;
      BrighteningIs(d);
    }
  }

  lemma QuietKeeps(m: Task)
    requires TaskInv(m) && m.Pending() > 0 && m.state != S_INIT
    requires m.arrivals[m.popped] == E_STOP ==> m.state == S_END
    requires m.state == S_INCREASING ==> m.arrivals[m.popped] != E_INCREASE
    requires m.state != S_INCREASING ==> TaskNext(m.state, m.arrivals[m.popped]) != S_INCREASING
    ensures TaskInv(Handled(m))
  {
    hide Handled, TaskTables, FoldState, Sound, Queue, Ramp, Shown, OpenBlock, ClosedBlock, DataSound;
    HandleCounts(m);
  }

  lemma HandleKeeps(m: Task)
    requires TaskInv(m) && m.Pending() > 0
    ensures TaskInv(Handled(m))
  {
    hide Handled, TaskTables, FoldState, Sound, Ramp;
    var e := m.arrivals[m.popped];
    if m.state == S_INIT {
      StartKeeps(m);
    } else if e == E_STOP && m.state != S_END {
      StopKeeps(m);
    } else if m.state == S_INCREASING && e == E_INCREASE {
      TickKeeps(m);
    } else if m.state != S_INCREASING && TaskNext(m.state, e) == S_INCREASING {
      BeginKeeps(m);
    } else {
      QuietKeeps(m);
    }
  }

  /** Whatever happens to a task, its invariant stays. */
  lemma TaskStepKeeps(m: Task, step: TaskStep)
    requires TaskInv(m) && StepEnabled(m, step)
    ensures TaskInv(TaskApply(m, step))
  {
    match step
    case Change(_) => WorldKeeps(m, step);
    case Posted => WorldKeeps(m, step);
    case Expires(id) => ExpiresKeeps(m, id);
    case Deliver(kind) => DeliverKeeps(m, kind);
    case Light => LightOrStopKeeps(m, E_AMBIENT);
    case Stop => LightOrStopKeeps(m, E_STOP);
    case Handle => HandleKeeps(m);
    case Shutdown => ShutdownKeeps(m);
  }

  // ------------------------------------------------------------------------------------------
  // Whole runs.
  // ------------------------------------------------------------------------------------------

  predicate StepsEnabled(m: Task, steps: seq<TaskStep>)
    decreases |steps|
  {
    steps == [] || (StepEnabled(m, steps[0]) && StepsEnabled(TaskApply(m, steps[0]), steps[1..]))
  }

  function TaskExec(m: Task, steps: seq<TaskStep>): Task
    requires StepsEnabled(m, steps)
    decreases |steps|
  {
    if steps == [] then m else TaskExec(TaskApply(m, steps[0]), steps[1..])
  }

  lemma {:induction false} InvAlways(m: Task, steps: seq<TaskStep>)
    requires TaskInv(m) && StepsEnabled(m, steps)
    ensures TaskInv(TaskExec(m, steps))
    decreases |steps|
  {
    if steps != [] {
      TaskStepKeeps(m, steps[0]);
      InvAlways(TaskApply(m, steps[0]), steps[1..]);
    }
  }

  lemma ReachedInv(table: seq<uint32>, intervalParam: uint32, maxParam: uint32, steps: seq<TaskStep>)
    requires Sorted(table) && StepsEnabled(Started(NewTask(table, intervalParam, maxParam)), steps)
    ensures TaskInv(TaskExec(Started(NewTask(table, intervalParam, maxParam)), steps))
  {
    StartedInv(table, intervalParam, maxParam);
    InvAlways(Started(NewTask(table, intervalParam, maxParam)), steps);
  }

  /** The task has this table, and the limit and the interval that these parameters mean. */
  ghost predicate FromParams(d: TaskData, table: seq<uint32>, intervalParam: uint32, maxParam: uint32) {
    && d.table == table
    && d.max == (if maxParam < 255 then maxParam else 255)
    && d.interval == (if intervalParam == 0 then 75 else intervalParam)
  }

  /** Nothing a task ever does changes its table, limit or interval. */
  lemma SettingsStay(m: Task, step: TaskStep)
    requires TaskInv(m) && StepEnabled(m, step)
    ensures var d, c := m.user, TaskApply(m, step).user;
            c.table == d.table && c.max == d.max && c.interval == d.interval
  {
    hide Handled, TaskTables, FoldState, Ramp, Shown, OpenBlock, ClosedBlock, InState, TicksBounded;
    if step.Handle? {
      HandledIs(m);
    }
  }

  lemma {:induction false} SettingsAlways(m: Task, steps: seq<TaskStep>)
    requires TaskInv(m) && StepsEnabled(m, steps)
    ensures var d, c := m.user, TaskExec(m, steps).user;
            c.table == d.table && c.max == d.max && c.interval == d.interval
    decreases |steps|
  {
    if steps != [] {
      hide TaskInv, TaskApply, StepEnabled;
      SettingsStay(m, steps[0]);
      TaskStepKeeps(m, steps[0]);
      SettingsAlways(TaskApply(m, steps[0]), steps[1..]);
    }
  }

  /**
   The ramp: the brightness values shown are always a prefix of the table's entries above the reading and within
   the limit; they never decrease, exceed the reading, and stay within the limit and within 255.
   */
  lemma OverridesAreRampPrefix(m: Task)
    requires TaskInv(m)
    ensures var d := m.user; var shown := Shown(d.effects);
            && shown <= Ramp(d.table, d.currentBrightness, d.max) && Sorted(shown)
            && forall i | 0 <= i < |shown| :: d.currentBrightness < shown[i] <= d.max <= 255 && shown[i] in d.table
  {
    var d := m.user;
    var shown, ramp := Shown(d.effects), Ramp(d.table, d.currentBrightness, d.max);
    RampMembers(d.table, d.currentBrightness, d.max);
    RampSorted(d.table, d.currentBrightness, d.max);
    assert forall i | 0 <= i < |shown| :: shown[i] == ramp[i] && ramp[i] in ramp;
  }

  /** An increasing task with a valid reading, no tick underway and no stop queued has shown the whole ramp. */
  lemma RampCompletes(m: Task)
    requires TaskInv(m) && m.state == S_INCREASING && m.user.currentBrightness != INVALID_BRIGHTNESS
    requires Tokens(m.user, Tick, Queued(m, E_INCREASE)) == 0 && E_STOP !in Queue(m)
    ensures Shown(m.user.effects) == Ramp(m.user.table, m.user.currentBrightness, m.user.max)
  {
    var d := m.user;
    assert forall j | d.index <= j < |d.table| && d.index >= 1 :: d.table[d.index - 1] <= d.table[j];
    RampComplete(d.table, d.index, d.currentBrightness, d.max);
  }

  /** At most one tick is ever underway; each tick ever produced belongs to a value shown, and while a task increases
      with no stop queued each value shown has its tick. */
  lemma TicksAreFew(m: Task)
    requires TaskInv(m)
    ensures Tokens(m.user, Tick, Queued(m, E_INCREASE)) <= 1
    ensures TicksMade(m) <= |Shown(m.user.effects)| <= |m.user.table|
    ensures m.state == S_INCREASING && E_STOP !in Queue(m) ==> TicksMade(m) == |Shown(m.user.effects)|
    ensures |m.user.timers| <= 1
    ensures forall id | id in m.user.timers ::
              m.user.timers[id].interval == if m.user.timers[id].kind.StartDelay? then 100 else m.user.interval
  {
    hide Ramp, Shown, OpenBlock, ClosedBlock, TaskTables, FoldState;
    var d := m.user;
    RampMembers(d.table, d.currentBrightness, d.max);
    if d.timers.Keys != {} {
      assert d.timers.Keys == {d.currTimerId};
    }
    assert |d.timers| == |d.timers.Keys|;
  }

  // ------------------------------------------------------------------------------------------
  // What each tick does, and when the ticking ends.
  // ------------------------------------------------------------------------------------------

  /** One brightening shows the next value of the ramp and arms the next tick, or there is none and nothing is shown
      or armed any more. */
  lemma BrighteningShowsNext(d: TaskData)
    requires Sorted(d.table) && d.index <= |d.table| && TimersSound(d)
    requires Armed(d, StartDelay) == 0 && Armed(d, Tick) == 0
    requires Shown(d.effects) == Ramp(d.table[..d.index], d.currentBrightness, d.max)
    requires d.index < |d.table| ==> d.table[d.index] > d.currentBrightness
    ensures var r := DoIncreaseBrightness(d);
            var shown, ramp := Shown(d.effects), Ramp(d.table, d.currentBrightness, d.max);
            if |shown| < |ramp|
            then r.effects == d.effects + [Override(ramp[|shown|])]
                 && r.timers == map[r.currTimerId := Timer(Tick, d.interval)]
            else r.effects == d.effects && r.timers == map[]
  {
    hide Ramp, Shown;
    var ramp := Ramp(d.table, d.currentBrightness, d.max);
    assert d.timers == map[];
    if d.index == |d.table| {
      assert d.table[..d.index] == d.table;
    } else if d.table[d.index] <= d.max {
      RampSnoc(d.table, d.index, d.currentBrightness, d.max);
      RampPrefix(d.table, d.index + 1, d.currentBrightness, d.max);
    } else {
      RampComplete(d.table, d.index, d.currentBrightness, d.max);
    }
  }

  /** A tick shows the next value of the ramp and arms the next tick if there is a value left; otherwise it shows
      nothing, and no tick is left. */
  lemma TickShowsNext(m: Task)
    requires TaskInv(m) && m.Pending() > 0 && m.state == S_INCREASING && m.arrivals[m.popped] == E_INCREASE
    ensures var d, n := m.user, Handled(m);
            var shown, ramp := Shown(d.effects), Ramp(d.table, d.currentBrightness, d.max);
            && n.popped == m.popped + 1 && n.arrivals == m.arrivals && n.state == S_INCREASING
            && (if |shown| < |ramp|
                then n.user.effects == d.effects + [Override(ramp[|shown|])]
                     && n.user.timers == map[n.user.currTimerId := Timer(Tick, d.interval)]
                     && Tokens(n.user, Tick, Queued(n, E_INCREASE)) == 1
                else n.user.effects == d.effects && n.user.timers == map[]
                     && Tokens(n.user, Tick, Queued(n, E_INCREASE)) == 0)
  {
    hide Handled, TaskTables, FoldState, Sound, Ramp, Shown, OpenBlock, ClosedBlock, DoIncreaseBrightness;
    HandleCounts(m);
    HandledIs(m);
    BrighteningShowsNext(m.user);
    SameThreads(m.user);
  }

  lemma SameThreads(d: TaskData)
    ensures DoIncreaseBrightness(d).tickFiring == d.tickFiring
    ensures BeginIncreaseBrightness(d).user.tickFiring == d.tickFiring
  {
  }

  /** Entering the ramp: at 2.0 lux and more nothing is shown or armed and a stop is asked for; in the dark the first
      value of the ramp above a valid reading is shown and the first tick armed, or there is none and nothing is. */
  lemma EnteringShowsFirst(m: Task)
    requires TaskInv(m) && m.Pending() > 0 && m.state != S_INCREASING && Handled(m).state == S_INCREASING
    ensures var d, n := m.user, Handled(m);
            var ramp := Ramp(d.table, d.device, d.max);
            && (if d.lux >= 2.0 then
                  n.user.effects == d.effects && n.user.timers == map[] && n.arrivals == m.arrivals + [E_STOP]
                else if d.device == 0xFFFF_FFFF || ramp == [] then
                  n.user.effects == d.effects && n.user.timers == map[] && n.arrivals == m.arrivals
                else
                  && n.user.effects == d.effects + [Override(ramp[0])] && n.arrivals == m.arrivals
                  && n.user.timers == map[n.user.currTimerId := Timer(Tick, d.interval)])
            && (d.lux < 2.0 ==> n.user.currentBrightness == d.device)
            && Shown(d.effects) == [] && n.user.tickFiring == 0 && Queued(n, E_INCREASE) == 0
  {
    hide Handled, TaskTables, FoldState, Sound, Ramp, ClosedBlock, BeginIncreaseBrightness, Queue, Shown, OpenBlock;
    HandledIs(m);
    AboutToBegin(m);
    var d := m.user;
    BeginningShowsFirst(d);
    SameThreads(d);
  }

  lemma BeginningShowsFirst(d: TaskData)
    requires DataSound(d) && Armed(d, StartDelay) == 0 && Armed(d, Tick) == 0 && Shown(d.effects) == []
    ensures var o := BeginIncreaseBrightness(d);
            var ramp := Ramp(d.table, d.device, d.max);
            && (d.lux >= 2.0 ==> o == Outcome(d, [Outer(E_STOP)]))
            && (d.lux < 2.0 ==> o.scheds == [] && o.user.currentBrightness == d.device)
            && d.timers == map[]
            && (if d.lux >= 2.0 || d.device == 0xFFFF_FFFF || ramp == [] then
                  o.user.effects == d.effects && o.user.timers == map[]
                else
                  && o.user.effects == d.effects + [Override(ramp[0])]
                  && o.user.timers == map[o.user.currTimerId := Timer(Tick, d.interval)])
  {
    hide Ramp, Shown;
    if d.lux < 2.0 && d.device != 0xFFFF_FFFF {
      var placed := d.(currentBrightness := d.device, index := StartIndex(d.table, d.device));
      RampEmpty(d.table[..placed.index], d.device, d.max);
      if placed.index < |d.table| {
        BrighteningShowsNext(placed);
      } else {
        assert d.table[..placed.index] == d.table;
      }
    }
  }

  /** No tick is left, or the task has ended. */
  ghost predicate Still(m: Task)
    requires m.popped <= |m.arrivals|
  {
    (m.state == S_INCREASING && Tokens(m.user, Tick, Queued(m, E_INCREASE)) == 0) || m.state == S_END
  }

  lemma StillHandled(m: Task)
    requires TaskInv(m) && Still(m) && m.Pending() > 0
    ensures var n := Handled(m);
            n.popped <= |n.arrivals| && Still(n) && Shown(n.user.effects) == Shown(m.user.effects)
  {
    hide Handled, TaskTables, FoldState, Ramp, Shown, OpenBlock, ClosedBlock;
    HandleCounts(m);
    if m.state != S_END && m.arrivals[m.popped] == E_STOP {
      EndCloses(m.user);
    }
  }

  lemma StillStep(m: Task, step: TaskStep)
    requires TaskInv(m) && Still(m) && StepEnabled(m, step)
    ensures var n := TaskApply(m, step); TaskInv(n) && Still(n) && Shown(n.user.effects) == Shown(m.user.effects)
  {
    hide Handled, TaskTables, FoldState, Ramp, Shown, OpenBlock, ClosedBlock;
    TaskStepKeeps(m, step);
    match step {
      case Handle => StillHandled(m);
      case Deliver(kind) => PushCounts(m.(user := Delivered(m.user, kind)), EventOf(kind));
      case Light => PushCounts(m, E_AMBIENT);
      case Stop => PushCounts(m, E_STOP);
      case _ =>
    }
  }

  /** Once no tick is left, nothing is shown in any continuation. */
  lemma {:induction false} NoTickNoMore(m: Task, steps: seq<TaskStep>)
    requires TaskInv(m) && Still(m) && StepsEnabled(m, steps)
    ensures Shown(TaskExec(m, steps).user.effects) == Shown(m.user.effects)
    decreases |steps|
  {
    if steps != [] {
      hide TaskInv, Still, Shown, TaskApply, StepEnabled;
      StillStep(m, steps[0]);
      NoTickNoMore(TaskApply(m, steps[0]), steps[1..]);
    }
  }

  /** In a room of 2.0 lux and more no brightness is ever shown: over every run in which the light reading is that
      high when the task enters S_INCREASING. */
  lemma LightShowsNothing(table: seq<uint32>, intervalParam: uint32, maxParam: uint32, before: seq<TaskStep>,
                          after: seq<TaskStep>)
    requires Sorted(table) && StepsEnabled(Started(NewTask(table, intervalParam, maxParam)), before)
    requires var m := TaskExec(Started(NewTask(table, intervalParam, maxParam)), before);
             && m.Pending() > 0 && m.state != S_INCREASING && Handled(m).state == S_INCREASING && m.user.lux >= 2.0
             && StepsEnabled(Handled(m), after)
    ensures var m := TaskExec(Started(NewTask(table, intervalParam, maxParam)), before);
            Shown(TaskExec(Handled(m), after).user.effects) == []
  {
    var m := TaskExec(Started(NewTask(table, intervalParam, maxParam)), before);
    ReachedInv(table, intervalParam, maxParam, before);
    EnteringShowsFirst(m);
    HandleKeeps(m);
    var n := Handled(m);
    hide Handled, Shown;
    NoTickNoMore(n, after);
  }

  /** How many steps are left before the next value is shown or the ticking ends. */
  function Errands(m: Task): nat
    requires m.popped <= |m.arrivals|
  {
    |Queue(m)| + 2 * m.user.tickFiring + 3 * |m.user.timers|
  }

  /** The next thing to happen without the outside: the worker, a timer thread, a timer. */
  ghost function Errand(m: Task): (s: Option<TaskStep>)
    ensures s.Some? ==> StepEnabled(m, s.value)
  {
    if m.Pending() > 0 then Some(Handle)
    else if m.user.tickFiring > 0 then Some(Deliver(Tick))
    else if m.user.currTimerId in m.user.timers then Some(Expires(m.user.currTimerId))
    else None
  }

  lemma NothingLeft(m: Task)
    requires TaskInv(m) && Errand(m) == None
    ensures Queue(m) == [] && Tokens(m.user, Tick, Queued(m, E_INCREASE)) == 0
  {
    hide InState, DataSound, TicksBounded, TaskTables, FoldState;
  }

  lemma ErrandDone(m: Task, step: TaskStep)
    requires TaskInv(m) && m.state == S_INCREASING && E_STOP !in Queue(m) && Errand(m) == Some(step)
    requires m.user.currentBrightness != INVALID_BRIGHTNESS
    ensures var n := TaskApply(m, step);
            && TaskInv(n) && n.state == S_INCREASING && E_STOP !in Queue(n)
            && n.user.table == m.user.table && n.user.currentBrightness == m.user.currentBrightness
            && n.user.max == m.user.max
            && (|Shown(n.user.effects)| > |Shown(m.user.effects)|
                || (|Shown(n.user.effects)| == |Shown(m.user.effects)| && Errands(n) < Errands(m)))
  {
    hide Handled, TaskTables, FoldState, Ramp, Shown, OpenBlock, ClosedBlock;
    TaskStepKeeps(m, step);
    if step.Handle? {
      HandleErrand(m);
    } else if step.Deliver? {
      PushCounts(m.(user := Delivered(m.user, Tick)), E_INCREASE);
    } else {
      assert |m.user.timers| >= 1 && m.user.timers.Keys == {m.user.currTimerId};
      assert m.user.timers - {m.user.currTimerId} == map[];
      assert m.user.timers[m.user.currTimerId].kind == Tick;
    }
  }

  lemma HandleErrand(m: Task)
    requires TaskInv(m) && m.state == S_INCREASING && E_STOP !in Queue(m) && m.Pending() > 0
    requires m.user.currentBrightness != INVALID_BRIGHTNESS
    ensures var n := Handled(m);
            && n.state == S_INCREASING && n.popped == m.popped + 1 && n.arrivals == m.arrivals
            && E_STOP !in Queue(n) && |Queue(n)| == |Queue(m)| - 1
            && n.user.table == m.user.table && n.user.currentBrightness == m.user.currentBrightness
            && n.user.max == m.user.max
            && (|Shown(n.user.effects)| > |Shown(m.user.effects)|
                || (n.user.effects == m.user.effects && Errands(n) < Errands(m)))
  {
    hide Handled, TaskTables, FoldState, Ramp, Shown, OpenBlock, ClosedBlock;
    HandledIs(m);
    var n := Handled(m);
    assert Queue(m) == [m.arrivals[m.popped]] + m.arrivals[m.popped + 1..];
    assert Queue(m)[0] != E_STOP;
    if m.arrivals[m.popped] == E_INCREASE {
      TickShowsNext(m);
      SameThreads(m.user);
      var d := m.user;
      var shown, ramp := Shown(d.effects), Ramp(d.table, d.currentBrightness, d.max);
      if |shown| < |ramp| {
        ShownSnoc(d.effects, Override(ramp[|shown|]));
      }
    }
    assert Queue(n) == m.arrivals[m.popped + 1..];
  }

  /** Every ramp ends by itself: with no stop queued, the timers going off, their threads and the worker alone bring
      it to its last value, and then no tick is left. */
  lemma {:induction false} RampFinishes(m: Task) returns (steps: seq<TaskStep>)
    requires TaskInv(m) && m.state == S_INCREASING && E_STOP !in Queue(m)
    requires m.user.currentBrightness != INVALID_BRIGHTNESS
    ensures forall s | s in steps :: s.Expires? || s.Deliver? || s.Handle?
    ensures StepsEnabled(m, steps)
    ensures var n := TaskExec(m, steps); var d := m.user;
            && TaskInv(n) && n.state == S_INCREASING && Tokens(n.user, Tick, Queued(n, E_INCREASE)) == 0
            && Shown(n.user.effects) == Ramp(d.table, d.currentBrightness, d.max)
    decreases |m.user.table| - |Shown(m.user.effects)|, Errands(m)
  {
    hide TaskInv, Shown, Ramp, Handled;
    TicksAreFew(m);
    var step := Errand(m);
    if step == None {
      NothingLeft(m);
      RampCompletes(m);
      return [];
    }
    ErrandDone(m, step.value);
    var rest := RampFinishes(TaskApply(m, step.value));
    steps := [step.value] + rest;
    assert steps[1..] == rest;
  }

  /** A task that waits for its start delay is never stuck: the one delay token is underway or a stop is queued. */
  lemma WaitIsNeverStuck(m: Task)
    requires TaskInv(m) && (m.state == S_WAIT_BOTH || m.state == S_WAIT_START_DELAY)
    ensures Armed(m.user, StartDelay) == 1 || m.user.delayFiring >= 1 || E_DELAY_EXPIRED in Queue(m)
            || E_STOP in Queue(m)
    ensures Tokens(m.user, StartDelay, Queued(m, E_DELAY_EXPIRED)) <= 1
  {
    hide Ramp, Shown, OpenBlock, ClosedBlock, TaskTables, FoldState;
  }

  /** Resources: before S_END nothing is unsubscribed or restored; in S_END both were, once, last, whether or not
      the subscription was complete, and no timer is armed. */
  lemma EffectsAreBracketed(m: Task)
    requires TaskInv(m)
    ensures m.state == S_INIT ==> m.user.effects == []
    ensures m.state != S_INIT && m.state != S_END ==> OpenBlock(m.user.effects)
    ensures m.state == S_END ==> ClosedBlock(m.user.effects) && m.user.timers == map[]
    ensures m.user.effects != [] ==> m.user.effects[0].Subscribe?
  {
    hide Ramp, Shown, TaskTables, FoldState;
  }

  /** The control state is the join of the events handled so far. */
  lemma StateIsJoin(m: Task)
    requires TaskInv(m)
    ensures m.state == Join(m.arrivals[..m.popped])
  {
    JoinClosedForm(m.arrivals[..m.popped]);
  }

  /** Once ended, a task stays ended and never touches sensor or display again. */
  lemma {:induction false} EndIsFinal(m: Task, steps: seq<TaskStep>)
    requires TaskInv(m) && m.state == S_END && StepsEnabled(m, steps)
    ensures TaskExec(m, steps).state == S_END && TaskExec(m, steps).user.effects == m.user.effects
    decreases |steps|
  {
    if steps != [] {
      var n := TaskApply(m, steps[0]);
      if steps[0].Handle? {
        EndAbsorbs(m.user, m.arrivals[m.popped]);
      }
      TaskStepKeeps(m, steps[0]);
      EndIsFinal(n, steps[1..]);
    }
  }

  /** A stop among the handled events means the end, wherever it came after E_START. */
  lemma StopHandledMeansEnd(m: Task, i: nat)
    requires TaskInv(m) && 1 <= i < m.popped && m.arrivals[i] == E_STOP
    ensures m.state == S_END && ClosedBlock(m.user.effects)
  {
    var events := m.arrivals[..m.popped];
    StateIsJoin(m);
    assert events[0] == E_START && E_START in events && AfterStart(events) == events[1..];
    assert events[1..][i - 1] == E_STOP;
  }

  /** The guarantees of one brightness task started with these parameters, in one place. */
  ghost predicate Behaves(m: Task, table: seq<uint32>, intervalParam: uint32, maxParam: uint32) {
    var d := m.user;
    var shown := Shown(d.effects);
    var limit := if maxParam < 255 then maxParam else 255;
    var ramp := Ramp(table, d.currentBrightness, limit);
    && m.popped <= |m.arrivals| && m.state == Join(m.arrivals[..m.popped])
    // the ramp
    && shown <= ramp && Sorted(shown)
    && (forall i | 0 <= i < |shown| :: d.currentBrightness < shown[i] <= maxParam && shown[i] <= 255)
    && (shown != [] ==> d.currentBrightness != 0xFFFF_FFFF && d.effects[0] == Subscribe(4))
    && ((m.state == S_INCREASING && d.currentBrightness != 0xFFFF_FFFF && E_STOP !in Queue(m)
         && Tokens(d, Tick, Queued(m, E_INCREASE)) == 0) ==> shown == ramp)
    // the bracket
    && (m.state == S_INIT ==> d.effects == [])
    && (m.state != S_INIT && m.state != S_END ==> OpenBlock(d.effects))
    && (m.state == S_END ==> ClosedBlock(d.effects) && d.timers == map[])
    // timers and ticks
    && |d.timers| <= 1
    && (forall id | id in d.timers ::
          d.timers[id].interval == if d.timers[id].kind.StartDelay? then 100
                                   else if intervalParam == 0 then 75 else intervalParam)
    && Tokens(d, Tick, Queued(m, E_INCREASE)) <= 1 && TicksMade(m) <= |shown| <= |table|
    && (m.state == S_INCREASING && E_STOP !in Queue(m) ==> TicksMade(m) == |shown|)
    // the start delay
    && Tokens(d, StartDelay, Queued(m, E_DELAY_EXPIRED)) <= 1
    && (m.state == S_WAIT_BOTH || m.state == S_WAIT_START_DELAY ==>
          Tokens(d, StartDelay, Queued(m, E_DELAY_EXPIRED)) == 1 || E_STOP in Queue(m))
  }

  lemma InvMeansBehaves(m: Task, table: seq<uint32>, intervalParam: uint32, maxParam: uint32)
    requires TaskInv(m) && FromParams(m.user, table, intervalParam, maxParam)
    ensures Behaves(m, table, intervalParam, maxParam)
  {
    hide Ramp, Shown, OpenBlock, ClosedBlock, TaskTables, FoldState, Sorted;
    StateIsJoin(m);
    OverridesAreRampPrefix(m);
    TicksAreFew(m);
    EffectsAreBracketed(m);
    if m.state == S_INCREASING && m.user.currentBrightness != INVALID_BRIGHTNESS && E_STOP !in Queue(m)
       && Tokens(m.user, Tick, Queued(m, E_INCREASE)) == 0 {
      RampCompletes(m);
    }
    assert Shown(m.user.effects) != [] ==> m.user.currentBrightness < Shown(m.user.effects)[0];
    if m.state == S_INCREASING && m.user.currentBrightness != INVALID_BRIGHTNESS && E_STOP !in Queue(m)
       && Tokens(m.user, Tick, Queued(m, E_INCREASE)) == 0 {
      RampCompletes(m);
    }
  }

  /** All guarantees at once, for every run of a brightness task from its start, in terms of its parameters. */
  lemma EveryReachedTask(table: seq<uint32>, intervalParam: uint32, maxParam: uint32, steps: seq<TaskStep>)
    requires Sorted(table) && StepsEnabled(Started(NewTask(table, intervalParam, maxParam)), steps)
    ensures Behaves(TaskExec(Started(NewTask(table, intervalParam, maxParam)), steps), table, intervalParam, maxParam)
  {
    var start := Started(NewTask(table, intervalParam, maxParam));
    ReachedInv(table, intervalParam, maxParam, steps);
    StartedInv(table, intervalParam, maxParam);
    SettingsAlways(start, steps);
    assert FromParams(start.user, table, intervalParam, maxParam);
    InvMeansBehaves(TaskExec(start, steps), table, intervalParam, maxParam);
  }

  /**
   What entering the ramp decides: at 2.0 lux and more the task only asks to be stopped; in the dark it shows the least
   entry above a valid reading, if that is within the limit, and nothing otherwise. 0xFFFF_FFFF is no reading.
   */
  lemma BeginDecides(d: TaskData)
    requires Sorted(d.table)
    ensures var o := BeginIncreaseBrightness(d);
            && (d.lux >= 2.0 <==> o.scheds == [Outer(E_STOP)])
            && (d.lux >= 2.0 ==> o.user == d)
            && (d.lux < 2.0 ==>
                  && o.scheds == [] && o.user.currentBrightness == d.device
                  && (o.user.effects != d.effects <==>
                        d.device != 0xFFFF_FFFF && exists x: uint32 :: x in d.table && d.device < x <= d.max)
                  && (o.user.effects != d.effects ==>
                        exists x: uint32 :: o.user.effects == d.effects + [Override(x)] && x in d.table && x > d.device
                                    && forall y: uint32 | y in d.table && y > d.device :: x <= y))
  {
    var k := StartIndex(d.table, d.device);
    if k < |d.table| {
      forall y: uint32 | y in d.table && y > d.device
        ensures d.table[k] <= y
      {
        var i :| 0 <= i < |d.table| && d.table[i] == y;
        assert k <= i;
      }
      assert d.table[k] in d.table;
      assert (d.effects + [Override(d.table[k])])[|d.effects|] == Override(d.table[k]);
    }
  }
}
