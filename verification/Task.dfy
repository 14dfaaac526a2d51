/** The class of services_ex/src/screen_brightness_task.cpp, proved against TaskModel. */
module Task {
  import opened Prelude
  import opened StateMachine
  import opened Builder
  import opened TaskModel

  class ScreenBrightnessTask {
    const table: seq<uint32>
    const increaseBrightnessMax: uint32
    const increaseBrightnessInterval: uint32
    var timers: map<nat, Timer>            // the timer library: what is armed, and the next id it gives out
    var nextTimerId: nat
    var currTimerId: nat
    var currentBrightness: uint32
    var increaseBrightnessIndex: nat
    var currentAmbientLightLux: real
    var machine: Option<Tables<TaskData>>  // machine_: None while it is null
    var scheduled: seq<uint32>             // the events handed to machine_->Schedule, in order
    ghost var effects: seq<Effect>

    /** The task as the callbacks see it, given what sensor and display will answer; timer threads are outside. */
    ghost function AsData(sensorSteps: nat, device: uint32): TaskData
      reads this
    {
      TaskData(table, increaseBrightnessMax, increaseBrightnessInterval, timers, nextTimerId, currTimerId, 0, 0,
               currentBrightness, increaseBrightnessIndex, currentAmbientLightLux, sensorSteps, device, effects)
    }

    /** The callback did what its specification says: same new data, same events scheduled. */
    twostate predicate Did(o: Outcome<TaskData>, sensorSteps: nat, device: uint32)
      reads this
    {
      && AsData(sensorSteps, device) == o.user && machine == old(machine)
      && scheduled == old(scheduled) + Accepted(o.scheds, true)
    }

    constructor (table: seq<uint32>, intervalParam: uint32, maxParam: uint32)
      ensures AsData(0, 0) == NewTask(table, intervalParam, maxParam)
      ensures increaseBrightnessMax == if maxParam < 255 then maxParam else 255
      ensures increaseBrightnessInterval == if intervalParam == 0 then 75 else intervalParam
      ensures currentAmbientLightLux == -1.0 && timers == map[] && effects == []
      ensures machine == None && scheduled == []
    {
      this.table := table;
      timers, nextTimerId := map[], 1;
      increaseBrightnessIndex := 0;
      increaseBrightnessInterval := ClampInterval(intervalParam);
      increaseBrightnessMax := ClampMax(maxParam);
      currTimerId := 0;
      currentBrightness := 0;
      currentAmbientLightLux := -1.0;
      machine, scheduled, effects := None, [], [];
    }

    /** All sixteen declarations are accepted: the machine is the one of the model, never null. */
    method MakeFiniteStateMachine() returns (m: Option<Tables<TaskData>>)
      ensures m == Some(TaskTables())
    {
      ghost var ds := TaskDeclarations();
      hide TaskTables, Declare, DeclareAll, Distinct;
      var builder := new FiniteStateMachineBuilder<TaskData>();
      assert builder.AsState() == DeclareAll(ds[..0]) by { Nothing(ds); }
      builder.MakeTransition(S_INIT, E_START, S_WAIT_BOTH, Some(OnStart));
      DeclareNext(ds, 0);
      builder.MakeTransition(S_WAIT_BOTH, E_DELAY_EXPIRED, S_WAIT_AMBIENT, None);
      DeclareNext(ds, 1);
      builder.MakeTransition(S_WAIT_BOTH, E_AMBIENT, S_WAIT_START_DELAY, None);
      DeclareNext(ds, 2);
      builder.MakeTransition(S_WAIT_AMBIENT, E_AMBIENT, S_INCREASING, None);
      DeclareNext(ds, 3);
      builder.MakeTransition(S_WAIT_START_DELAY, E_DELAY_EXPIRED, S_INCREASING, None);
      DeclareNext(ds, 4);
      builder.MakeOnStateEnter(S_INCREASING, Some(OnBegin));
      DeclareNext(ds, 5);
      builder.MakeTransition(S_INCREASING, E_INCREASE, S_INCREASING, Some(OnTick));
      DeclareNext(ds, 6);
      builder.MakeOnStateEnter(S_END, Some(OnEnd));
      DeclareNext(ds, 7);
      builder.MakeTransition(S_WAIT_BOTH, E_STOP, S_END, None);
      DeclareNext(ds, 8);
      builder.MakeTransition(S_WAIT_AMBIENT, E_STOP, S_END, None);
      DeclareNext(ds, 9);
      builder.MakeTransition(S_WAIT_START_DELAY, E_STOP, S_END, None);
      DeclareNext(ds, 10);
      builder.MakeTransition(S_INCREASING, E_STOP, S_END, None);
      DeclareNext(ds, 11);
      builder.MakeTransition(S_END, E_STOP, S_END, None);
      DeclareNext(ds, 12);
      builder.MakeTransition(S_WAIT_START_DELAY, E_AMBIENT, S_WAIT_START_DELAY, None);
      DeclareNext(ds, 13);
      builder.MakeTransition(S_INCREASING, E_AMBIENT, S_INCREASING, None);
      DeclareNext(ds, 14);
      builder.MakeTransition(S_END, E_AMBIENT, S_END, None);
      DeclareNext(ds, 15);
      assert ds[..16] == ds;
      AllAccepted();
      m := builder.Build();
    }

    static lemma Nothing(ds: seq<Declaration<TaskData>>)
      ensures DeclareAll(ds[..0]) == New()
    {
    }

    static lemma AllAccepted()
      ensures DeclareAll(TaskDeclarations()).valid && TaskTables() == DeclareAll(TaskDeclarations()).tables
    {
      hide DeclareAll;
      TaskDeclarationsDistinct();
      ValidIffDistinct(TaskDeclarations());
    }

    method Start()
      modifies this
      ensures machine == Some(TaskTables()) && scheduled == old(scheduled) + [E_START]
      ensures forall k, d :: AsData(k, d) == old(AsData(k, d))
    {
      machine := MakeFiniteStateMachine();
      scheduled := scheduled + [E_START];
    }

    /** Hand an event to the machine, if there is one. */
    method ScheduleIfMade(event: uint32)
      modifies this`scheduled
      ensures scheduled == if machine == None then old(scheduled) else old(scheduled) + [event]
    {
      if machine == None {
        return;
      }
      scheduled := scheduled + [event];
    }

    method Stop()
      modifies this`scheduled
      ensures scheduled == if machine == None then old(scheduled) else old(scheduled) + [E_STOP]
    {
      ScheduleIfMade(E_STOP);
    }

    method SetAmbientLight(lux: real)
      modifies this`scheduled, this`currentAmbientLightLux
      ensures currentAmbientLightLux == lux
      ensures scheduled == if machine == None then old(scheduled) else old(scheduled) + [E_AMBIENT]
    {
      currentAmbientLightLux := lux;
      ScheduleIfMade(E_AMBIENT);
    }

    method OnStartDelayTimeout()
      modifies this`scheduled
      ensures scheduled == if machine == None then old(scheduled) else old(scheduled) + [E_DELAY_EXPIRED]
    {
      ScheduleIfMade(E_DELAY_EXPIRED);
    }

    method OnIncreaseBrightness()
      modifies this`scheduled
      ensures scheduled == if machine == None then old(scheduled) else old(scheduled) + [E_INCREASE]
    {
      ScheduleIfMade(E_INCREASE);
    }

    /** The four sensor calls, up to the first that fails. */
    method SubscribeSensor(sensorSteps: nat) returns (ok: bool)
      modifies this`effects
      ensures ok == (sensorSteps >= SUBSCRIBE_CALLS)
      ensures effects == old(effects)
              + [Subscribe(if sensorSteps < SUBSCRIBE_CALLS then sensorSteps else SUBSCRIBE_CALLS)]
    {
      if sensorSteps < 1 {
        effects := effects + [Subscribe(0)];
        return false;
      }
      if sensorSteps < 2 {
        effects := effects + [Subscribe(1)];
        return false;
      }
      if sensorSteps < 3 {
        effects := effects + [Subscribe(2)];
        return false;
      }
      if sensorSteps < 4 {
        effects := effects + [Subscribe(3)];
        return false;
      }
      effects := effects + [Subscribe(4)];
      return true;
    }

    /** timer_.Unregister(currTimerId_) and timer_.Register(...), the new id kept. */
    method RegisterTimer(kind: Kind, interval: nat)
      modifies this`timers, this`nextTimerId, this`currTimerId
      ensures timers == (old(timers) - {old(currTimerId)})[old(nextTimerId) := Timer(kind, interval)]
      ensures currTimerId == old(nextTimerId) && nextTimerId == old(nextTimerId) + 1
    {
      timers := timers - {currTimerId};
      timers := timers[nextTimerId := Timer(kind, interval)];
      currTimerId := nextTimerId;
      nextTimerId := nextTimerId + 1;
    }

    method StartProcess(sensorSteps: nat, ghost device: uint32)
      modifies this
      ensures old(machine) != None ==>
                Did(TaskModel.StartProcess(old(AsData(sensorSteps, device))), sensorSteps, device)
      ensures machine == old(machine)
      ensures machine == None ==>
                AsData(sensorSteps, device) == old(AsData(sensorSteps, device)) && scheduled == old(scheduled)
    {
      if machine == None {
        return;
      }
      var result := SubscribeSensor(sensorSteps);
      if !result {
        ScheduleIfMade(E_STOP);
        assert [Outer(E_STOP)][1..] == [];
        return;
      }
      RegisterTimer(StartDelay, INCREASE_BRIGHTNESS_START_DELAY);
    }

    /** The first entry beyond the given brightness. */
    method GetIncreaseBrightnessStartIndex(current: uint32) returns (r: nat)
      ensures r == StartIndex(table, current)
      ensures r <= |table| && (forall i | 0 <= i < r :: table[i] <= current) && (r < |table| ==> table[r] > current)
    {
      var i := 0;
      while i < |table|
        invariant 0 <= i <= |table| && forall k | 0 <= k < i :: table[k] <= current
      {
        if table[i] > current {
          return i;
        }
        i := i + 1;
      }
      return |table|;
    }

    method BeginIncreaseBrightness(ghost sensorSteps: nat, device: uint32)
      modifies this
      ensures old(machine) != None ==>
                Did(TaskModel.BeginIncreaseBrightness(old(AsData(sensorSteps, device))), sensorSteps, device)
      ensures old(machine) != None && currentAmbientLightLux >= 2.0 ==>
                effects == old(effects) && timers == old(timers) && scheduled == old(scheduled) + [E_STOP]
      ensures currentAmbientLightLux < 2.0 ==> scheduled == old(scheduled)
      ensures machine == old(machine)
      ensures machine == None ==>
                AsData(sensorSteps, device) == old(AsData(sensorSteps, device)) && scheduled == old(scheduled)
    {
      if machine == None {
        return;
      }
      var shouldIncrease := currentAmbientLightLux < AMBIENT_LIGHT_THRESHOLD_FOR_BEGIN;
      if !shouldIncrease {
        ScheduleIfMade(E_STOP);
        assert [Outer(E_STOP)][1..] == [];
        return;
      }
      currentBrightness := device;
      if currentBrightness == INVALID_BRIGHTNESS {
        return;
      }
      increaseBrightnessIndex := GetIncreaseBrightnessStartIndex(currentBrightness);
      if !(increaseBrightnessIndex < |table|) {
        return;
      }
      DoIncreaseBrightness(sensorSteps, device);
    }

    method DoIncreaseBrightness(ghost sensorSteps: nat, ghost device: uint32)
      modifies this
      ensures Did(Outcome(TaskModel.DoIncreaseBrightness(old(AsData(sensorSteps, device))), []), sensorSteps, device)
      ensures if effects == old(effects) then timers == old(timers)
              else timers == (old(timers) - {old(currTimerId)})[currTimerId := Timer(Tick, increaseBrightnessInterval)]
    {
      if increaseBrightnessIndex < |table| {
        if table[increaseBrightnessIndex] <= increaseBrightnessMax {
          effects := effects + [Override(table[increaseBrightnessIndex])];
          RegisterTimer(Tick, increaseBrightnessInterval);
        }
        increaseBrightnessIndex := increaseBrightnessIndex + 1;
      }
    }

    method EndProcess(ghost sensorSteps: nat, ghost device: uint32)
      modifies this
      ensures Did(Outcome(TaskModel.EndProcess(old(AsData(sensorSteps, device))), []), sensorSteps, device)
    {
      timers := timers - {currTimerId};
      effects := effects + [Unsubscribe];
      effects := effects + [Restore];
      assert effects == old(effects) + [Unsubscribe, Restore];
    }
  }
}
