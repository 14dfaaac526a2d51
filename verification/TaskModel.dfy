/**
 The data, the callbacks and the machine of services_ex/src/screen_brightness_task.cpp. The brightness table is
 any sequence; INCREASE_BRIGHTNESS_ARRAY is the one the source uses.
 */
module TaskModel {
  import opened Prelude
  import opened StateMachine
  import opened Builder

  const S_INIT: uint32 := 0
  const S_WAIT_BOTH: uint32 := 1         // S_WAIT_AMBIENT_LIGHT_INFO_AND_START_DELAY
  const S_WAIT_AMBIENT: uint32 := 2      // S_WAIT_AMBIENT_LIGHT_INFO
  const S_WAIT_START_DELAY: uint32 := 3
  const S_INCREASING: uint32 := 4        // S_INCREASING_BRIGHTNESS
  const S_END: uint32 := 5

  const E_START: uint32 := 0
  const E_DELAY_EXPIRED: uint32 := 1     // E_START_DELAY_EXPIRED
  const E_AMBIENT: uint32 := 2           // E_RECEIVE_AMBIENT_LIGHT_INFO
  const E_INCREASE: uint32 := 3          // E_INCREASE_BRIGHTNESS
  const E_STOP: uint32 := 4

  const INVALID_BRIGHTNESS: uint32 := 0xFFFF_FFFF
  const INCREASE_BRIGHTNESS_START_DELAY: nat := 100
  const DEFAULT_INCREASE_BRIGHTNESS_INTERVAL: uint32 := 75
  const MAX_BRIGHTNESS: uint32 := 255
  const AMBIENT_LIGHT_THRESHOLD_FOR_BEGIN: real := 2.0
  const SUBSCRIBE_CALLS: nat := 4        // SubscribeSensor, SetBatch, ActivateSensor, SetMode

  const INCREASE_BRIGHTNESS_ARRAY: seq<uint32> := [
    4, 4, 5, 5, 6, 6, 7, 8, 9, 9, 10, 11, 13, 14, 15, 17, 18, 20, 22, 24, 27, 30, 33, 36, 39, 43, 48, 52, 58, 63, 70,
    77, 84, 93, 102, 112, 124, 136, 150, 166, 181, 199, 219, 241]

  ghost predicate Sorted(table: seq<uint32>) {
    forall i, j | 0 <= i <= j < |table| :: table[i] <= table[j]
  }

  ghost predicate StepwiseSorted(table: seq<uint32>) {
    forall i | 0 <= i < |table| - 1 :: table[i] <= table[i + 1]
  }

  lemma {:induction false} StepwiseIsSorted(table: seq<uint32>, i: nat, j: nat)
    requires StepwiseSorted(table) && i <= j < |table|
    ensures table[i] <= table[j]
    decreases j - i
  {
    if i < j {
      StepwiseIsSorted(table, i, j - 1);
      assert table[j - 1] <= table[j - 1 + 1];
    }
  }

  lemma SourceTableSorted()
    ensures Sorted(INCREASE_BRIGHTNESS_ARRAY) && |INCREASE_BRIGHTNESS_ARRAY| == 44
  {
    forall i, j | 0 <= i <= j < |INCREASE_BRIGHTNESS_ARRAY|
      ensures INCREASE_BRIGHTNESS_ARRAY[i] <= INCREASE_BRIGHTNESS_ARRAY[j]
    {
      StepwiseIsSorted(INCREASE_BRIGHTNESS_ARRAY, i, j);
    }
  }

  // ------------------------------------------------------------------------------------------
  // What the task owns and what it does to the world.
  // ------------------------------------------------------------------------------------------

  datatype Kind = StartDelay | Tick
  datatype Timer = Timer(kind: Kind, interval: nat)

  /** `Subscribe(k)`: the first k of the four sensor calls succeeded. */
  datatype Effect = Subscribe(steps: nat) | Unsubscribe | Override(value: uint32) | Restore

  /**
   `timers` are the one-shot timers armed now. `delayFiring` and `tickFiring` count the timer threads that took an
   expired timer and have not pushed its event yet: unregistering no longer reaches those.
   `lux`, `sensorSteps` and `device` are what the sensor and display libraries answer next.
   */
  datatype TaskData = TaskData(
    table: seq<uint32>, max: uint32, interval: uint32,
    timers: map<nat, Timer>, nextTimerId: nat, currTimerId: nat, delayFiring: nat, tickFiring: nat,
    currentBrightness: uint32, index: nat,
    lux: real, sensorSteps: nat, device: uint32,
    effects: seq<Effect>)

  function ClampInterval(val: uint32): (r: uint32)
    ensures (val >= 1 ==> r == val) && (val == 0 ==> r == 75)
  {
    if val == 0 then DEFAULT_INCREASE_BRIGHTNESS_INTERVAL else val
  }

  function ClampMax(val: uint32): (r: uint32)
    ensures r <= val && r <= 255 && (r == val || r == 255)
  {
    if val > MAX_BRIGHTNESS then MAX_BRIGHTNESS else val
  }

  function NewTask(table: seq<uint32>, intervalParam: uint32, maxParam: uint32): TaskData {
    TaskData(table, ClampMax(maxParam), ClampInterval(intervalParam), map[], 1, 0, 0, 0, 0, 0, -1.0, 0, 0, [])
  }

  function Emit(d: TaskData, effects: seq<Effect>): TaskData { d.(effects := d.effects + effects) }

  /** timer_.Unregister(currTimerId_) */
  function Unregister(d: TaskData): TaskData { d.(timers := d.timers - {d.currTimerId}) }

  /** Unregister the current timer, register a new one-shot timer and remember its id. */
  function Rearm(d: TaskData, kind: Kind, interval: nat): TaskData {
    var u := Unregister(d);
    u.(timers := u.timers[d.nextTimerId := Timer(kind, interval)], currTimerId := d.nextTimerId,
       nextTimerId := d.nextTimerId + 1)
  }

  function StartProcess(d: TaskData): Outcome<TaskData> {
    var steps := if d.sensorSteps < SUBSCRIBE_CALLS then d.sensorSteps else SUBSCRIBE_CALLS;
    var subscribed := Emit(d, [Subscribe(steps)]);
    if steps < SUBSCRIBE_CALLS then Outcome(subscribed, [Outer(E_STOP)])
    else Outcome(Rearm(subscribed, StartDelay, INCREASE_BRIGHTNESS_START_DELAY), [])
  }

  /** The first index whose entry exceeds `current`, or the table's length. */
  function StartIndex(table: seq<uint32>, current: uint32): (r: nat)
    ensures r <= |table|
    ensures forall i | 0 <= i < r :: table[i] <= current
    ensures r < |table| ==> table[r] > current
  {
    if table == [] || table[0] > current then 0 else 1 + StartIndex(table[1..], current)
  }

  function DoIncreaseBrightness(d: TaskData): TaskData {
    if d.index < |d.table| then
      var shown :=
        if d.table[d.index] <= d.max then Rearm(Emit(d, [Override(d.table[d.index])]), Tick, d.interval) else d;
      shown.(index := d.index + 1)
    else d
  }

  function BeginIncreaseBrightness(d: TaskData): Outcome<TaskData> {
    if !(d.lux < AMBIENT_LIGHT_THRESHOLD_FOR_BEGIN) then Outcome(d, [Outer(E_STOP)])
    else
      var read := d.(currentBrightness := d.device);
      if d.device == INVALID_BRIGHTNESS then Outcome(read, [])
      else
        var placed := read.(index := StartIndex(d.table, d.device));
        if placed.index < |d.table| then Outcome(DoIncreaseBrightness(placed), []) else Outcome(placed, [])
  }

  function EndProcess(d: TaskData): TaskData { Emit(Unregister(d), [Unsubscribe, Restore]) }

  // ------------------------------------------------------------------------------------------
  // The machine: the declarations of MakeFiniteStateMachine, in the source's order.
  // ------------------------------------------------------------------------------------------

  const OnStart: Callback<TaskData> := (d, seen, arg) => StartProcess(d)
  const OnBegin: Callback<TaskData> := (d, seen, arg) => BeginIncreaseBrightness(d)
  const OnTick: Callback<TaskData> := (d, seen, arg) => Outcome(DoIncreaseBrightness(d), [])
  const OnEnd: Callback<TaskData> := (d, seen, arg) => Outcome(EndProcess(d), [])

  function TaskDeclarations(): seq<Declaration<TaskData>> {
    [OnTransition(S_INIT, E_START, S_WAIT_BOTH, Some(OnStart)),
     OnTransition(S_WAIT_BOTH, E_DELAY_EXPIRED, S_WAIT_AMBIENT, None),
     OnTransition(S_WAIT_BOTH, E_AMBIENT, S_WAIT_START_DELAY, None),
     OnTransition(S_WAIT_AMBIENT, E_AMBIENT, S_INCREASING, None),
     OnTransition(S_WAIT_START_DELAY, E_DELAY_EXPIRED, S_INCREASING, None),
     OnEnter(S_INCREASING, Some(OnBegin)),
     OnTransition(S_INCREASING, E_INCREASE, S_INCREASING, Some(OnTick)),
     OnEnter(S_END, Some(OnEnd)),
     OnTransition(S_WAIT_BOTH, E_STOP, S_END, None),
     OnTransition(S_WAIT_AMBIENT, E_STOP, S_END, None),
     OnTransition(S_WAIT_START_DELAY, E_STOP, S_END, None),
     OnTransition(S_INCREASING, E_STOP, S_END, None),
     OnTransition(S_END, E_STOP, S_END, None),
     OnTransition(S_WAIT_START_DELAY, E_AMBIENT, S_WAIT_START_DELAY, None),
     OnTransition(S_INCREASING, E_AMBIENT, S_INCREASING, None),
     OnTransition(S_END, E_AMBIENT, S_END, None)]
  }

  function TaskTables(): Tables<TaskData> { DeclareAll(TaskDeclarations()).tables }

  /** A number for what a declaration is about. */
  function KeyNumber(d: Declaration<TaskData>): nat {
    match d
    case OnTransition(s, e, _, _) => 10 * (s + 1) + e
    case OnEnter(s, _) => 1000 + s
    case OnLeave(s, _) => 0
  }

  lemma TaskDeclarationsDistinct()
    ensures Distinct(TaskDeclarations())
  {
    var ds := TaskDeclarations();
    var keys := [10, 21, 22, 32, 41, 1004, 53, 1005, 24, 34, 44, 54, 64, 42, 52, 62];
    assert forall i | 0 <= i < 16 :: KeyNumber(ds[i]) == keys[i];
    hide TaskDeclarations;
    assert forall i, j | 0 <= i < j < 16 :: keys[i] != keys[j];
  }

  /** Where an event leads. */
  function TaskNext(s: uint32, e: uint32): uint32 {
    if s == S_INIT then if e == E_START then S_WAIT_BOTH else s
    else if 1 <= s <= 5 && e == E_STOP then S_END
    else if s == S_WAIT_BOTH then
      if e == E_DELAY_EXPIRED then S_WAIT_AMBIENT else if e == E_AMBIENT then S_WAIT_START_DELAY else s
    else if s == S_WAIT_AMBIENT then if e == E_AMBIENT then S_INCREASING else s
    else if s == S_WAIT_START_DELAY then if e == E_DELAY_EXPIRED then S_INCREASING else s
    else s
  }

  /** What an event makes the task do. */
  function TaskEffect(s: uint32, d: TaskData, e: uint32): Outcome<TaskData> {
    if s == S_INIT && e == E_START then StartProcess(d)
    else if s == S_INCREASING && e == E_INCREASE then Outcome(DoIncreaseBrightness(d), [])
    else if s != S_INCREASING && TaskNext(s, e) == S_INCREASING then BeginIncreaseBrightness(d)
    else if s != S_END && TaskNext(s, e) == S_END then Outcome(EndProcess(d), [])
    else Outcome(d, [])
  }

  /** What runs on a transition. */
  function TaskAction(s: uint32, e: uint32): Option<Callback<TaskData>> {
    if s == S_INIT && e == E_START then Some(OnStart)
    else if s == S_INCREASING && e == E_INCREASE then Some(OnTick) else None
  }

  lemma TransitionIs(s: uint32, e: uint32)
    ensures NextState(TaskTables(), s, e) == TaskNext(s, e)
    ensures TransitionAction(TaskTables(), s, e) == TaskAction(s, e)
  {
    hide TaskTables, DeclareAll, NextState, TransitionAction, TaskDeclarations, TaskNext, TaskAction;
    var ds := TaskDeclarations();
    var d := OnTransition(s, e, s, None);
    if Declared(ds, d) {
      var i :| 0 <= i < |ds| && SameKey(ds[i], d);
      Reads(ds[i]);
      DeclaredIs(i);
    } else {
      Reads(d);
      assert forall i | 0 <= i < |ds| :: !SameKey(ds[i], d);
      NotDeclared(s, e);
    }
  }

  lemma DeclaredIs(i: nat)
    requires i < |TaskDeclarations()|
    ensures var d := TaskDeclarations()[i];
            d.OnTransition? ==> TaskNext(d.state, d.event) == d.next && TaskAction(d.state, d.event) == d.action
  {
  }

  lemma NotDeclared(s: uint32, e: uint32)
    requires forall i | 0 <= i < |TaskDeclarations()| :: !SameKey(TaskDeclarations()[i], OnTransition(s, e, s, None))
    ensures TaskNext(s, e) == s && TaskAction(s, e) == None
  {
    var ds := TaskDeclarations();
    var d: Declaration<TaskData> := OnTransition(s, e, s, None);
    assert !SameKey(ds[0], d) && !SameKey(ds[1], d) && !SameKey(ds[2], d) && !SameKey(ds[3], d) && !SameKey(ds[4], d);
    assert !SameKey(ds[6], d) && !SameKey(ds[8], d) && !SameKey(ds[9], d) && !SameKey(ds[10], d) && !SameKey(ds[11], d);
  }

  lemma Reads(d: Declaration<TaskData>)
    ensures var t := TaskTables(); var ds := TaskDeclarations();
            && (d in ds && d.OnTransition? ==>
                  NextState(t, d.state, d.event) == d.next && TransitionAction(t, d.state, d.event) == d.action)
            && (!Declared(ds, d) && d.OnTransition? ==>
                  NextState(t, d.state, d.event) == d.state && TransitionAction(t, d.state, d.event) == None)
            && (d in ds && d.OnEnter? ==> StateCallback(t.enters, d.state) == d.callback)
            && (!Declared(ds, d) && d.OnEnter? ==> StateCallback(t.enters, d.state) == None)
            && (!Declared(ds, d) && d.OnLeave? ==> StateCallback(t.leaves, d.state) == None)
  {
    TaskDeclarationsDistinct();
    LookupIsDeclared(TaskDeclarations(), d);
  }

  lemma CallbacksAre(s: uint32)
    ensures StateCallback(TaskTables().leaves, s) == None
    ensures StateCallback(TaskTables().enters, s) ==
              if s == S_INCREASING then Some(OnBegin) else if s == S_END then Some(OnEnd) else None
  {
    hide TaskTables, StateCallback;
    var ds := TaskDeclarations();
    Reads(OnLeave(s, None));
    if s == S_INCREASING {
      Reads(ds[5]);
    } else if s == S_END {
      Reads(ds[7]);
    } else {
      Reads(OnEnter(s, None));
    }
  }

  /** The built machine does exactly what the two functions above say, and schedules through `machine_` only. */
  lemma ProcessIs(s: uint32, d: TaskData, e: uint32)
    ensures NextState(TaskTables(), s, e) == TaskNext(s, e)
    ensures Process(TaskTables(), s, d, e).user == TaskEffect(s, d, e).user
    ensures Process(TaskTables(), s, d, e).scheds == TaskEffect(s, d, e).scheds
    ensures forall x | x in Process(TaskTables(), s, d, e).scheds :: x.Outer?
  {
    hide TaskTables;
    TransitionIs(s, e);
    CallbacksAre(s);
    CallbacksAre(TaskNext(s, e));
  }

  // ------------------------------------------------------------------------------------------
  // The order-independent join.
  // ------------------------------------------------------------------------------------------

  /** The control state as a function of which events came after the first E_START, in any order and number. */
  ghost function Join(events: seq<uint32>): uint32 {
    if E_START !in events then S_INIT
    else
      var seen := AfterStart(events);
      if E_STOP in seen then S_END
      else if E_DELAY_EXPIRED in seen && E_AMBIENT in seen then S_INCREASING
      else if E_AMBIENT in seen then S_WAIT_START_DELAY
      else if E_DELAY_EXPIRED in seen then S_WAIT_AMBIENT
      else S_WAIT_BOTH
  }

  function AfterStart(events: seq<uint32>): seq<uint32> {
    if events == [] then [] else if events[0] == E_START then events[1..] else AfterStart(events[1..])
  }

  lemma {:induction false} AfterStartSnoc(events: seq<uint32>, e: uint32)
    ensures E_START in events ==> AfterStart(events + [e]) == AfterStart(events) + [e]
    ensures E_START !in events && e == E_START ==> AfterStart(events + [e]) == []
  {
    if events == [] {
      assert [e][1..] == [];
    } else {
      assert (events + [e])[1..] == events[1..] + [e];
      if events[0] != E_START {
        AfterStartSnoc(events[1..], e);
      }
    }
  }

  lemma JoinSnoc(events: seq<uint32>, e: uint32)
    ensures Join(events + [e]) == TaskNext(Join(events), e)
  {
    AfterStartSnoc(events, e);
  }

  /** For every sequence of events whatsoever the machine is in the state the join gives. */
  lemma {:induction false} JoinClosedForm(events: seq<uint32>)
    ensures FoldState(TaskTables(), S_INIT, events) == Join(events)
    decreases |events|
  {
    if events != [] {
      var front, e := events[..|events| - 1], events[|events| - 1];
      assert events == front + [e];
      JoinClosedForm(front);
      FoldStateSnoc(TaskTables(), S_INIT, front, e);
      JoinSnoc(front, e);
      TransitionIs(Join(front), e);
    }
  }

  /** S_END absorbs every event and does nothing at all any more. */
  lemma EndAbsorbs(d: TaskData, e: uint32)
    ensures NextState(TaskTables(), S_END, e) == S_END
    ensures Process(TaskTables(), S_END, d, e).user == d && Process(TaskTables(), S_END, d, e).scheds == []
  {
    ProcessIs(S_END, d, e);
  }
}
