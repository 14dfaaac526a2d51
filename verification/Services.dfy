/** The objects of services/src/sa_command_manager.cpp and services/src/face_auth_driver_hdi.cpp,
    proved against Dispatch. */
module Services {
  import opened Prelude
  import opened Manager
  import opened Dispatch

  lemma ProcessorsAfter(r: Registry, ids: seq<CommandId>, p: Address)
    requires p != 0
    ensures Register(r, ids, p).processors == r.processors + {p}
    ensures Unregister(r, ids, p).processors == r.processors - {p}
  {
  }

  class SaCommandManager {
    const self: Address                     // where the brightness manager sits
    const manager: ScreenBrightnessManager
    var commandId2Processors: map<CommandId, set<Address>>
    var processors: set<Address>

    /** Null is never a processor. */
    ghost predicate Valid()
      reads this
    {
      0 !in processors
    }

    constructor (self: Address, manager: ScreenBrightnessManager)
      ensures Valid()
      ensures this.self == self && this.manager == manager && AsRegistry() == Registry({}, map[])
    {
      this.self, this.manager := self, manager;
      commandId2Processors, processors := map[], {};
    }

    ghost function AsRegistry(): Registry
      reads this
    {
      Registry(processors, commandId2Processors)
    }

    method RegisterSaCommandProcessor(commandIds: seq<CommandId>, processor: Address)
      modifies this
      ensures AsRegistry() == Register(old(AsRegistry()), commandIds, processor)
      ensures old(Valid()) ==> Valid()
    {
      if processor == 0 {
        return;
      }
      processors := processors + {processor};
      ghost var before := old(AsRegistry());
      NoIds(before, processor);
      hide Register, WithProcessor;
      var i := 0;
      while i < |commandIds|
        invariant 0 <= i <= |commandIds|
        invariant commandId2Processors == Register(before, commandIds[..i], processor).byId
        invariant processors == old(processors) + {processor}
      {
        var commandId := commandIds[i];
        RegisterOneMore(before, commandIds[..i], commandId, processor);
        assert commandIds[..i + 1] == commandIds[..i] + [commandId];
        InsertIs(commandId2Processors, commandId, processor);
        if commandId !in commandId2Processors {
          commandId2Processors := commandId2Processors[commandId := {}];
        }
        commandId2Processors := commandId2Processors[commandId := commandId2Processors[commandId] + {processor}];
        i := i + 1;
      }
      assert commandIds[..i] == commandIds;
      ProcessorsAfter(before, commandIds, processor);
    }

    method UnregisterSaCommandProcessor(commandIds: seq<CommandId>, processor: Address)
      modifies this
      ensures AsRegistry() == Unregister(old(AsRegistry()), commandIds, processor)
      ensures old(Valid()) ==> Valid()
    {
      if processor == 0 {
        return;
      }
      processors := processors - {processor};
      ghost var before := old(AsRegistry());
      NoIds(before, processor);
      hide Unregister;
      var i := 0;
      while i < |commandIds|
        invariant 0 <= i <= |commandIds|
        invariant commandId2Processors == Unregister(before, commandIds[..i], processor).byId
        invariant processors == old(processors) - {processor}
      {
        var commandId := commandIds[i];
        UnregisterOneMore(before, commandIds[..i], commandId, processor);
        assert commandIds[..i + 1] == commandIds[..i] + [commandId];
        if commandId in commandId2Processors {
          commandId2Processors := commandId2Processors[commandId := commandId2Processors[commandId] - {processor}];
        }
        i := i + 1;
      }
      assert commandIds[..i] == commandIds;
      ProcessorsAfter(before, commandIds, processor);
    }

    /** The k-th call of the batch gets the k-th answer; calls to the brightness manager are really made. */
    method ProcessSaCommands(executor: Option<Executor>, commands: seq<SaCommand>, answers: nat -> Answer)
      returns (result: ResultCode, ghost made: seq<Item>)
      modifies manager
      ensures (Progress(made, manager.AsState()), result)
           == Execute(Progress([], old(manager.AsState())), self, executor, Plan(AsRegistry(), commands), answers)
    {
      hide Ascending, Least, CallsOf, Command;
      made := [];
      var k := 0;
      ghost var whole := Execute(Progress([], old(manager.AsState())), self, executor, Plan(AsRegistry(), commands),
                                 answers);
      var i := 0;
      while i < |commands|
        invariant 0 <= i <= |commands| && k == |made| && unchanged(this)
        invariant Execute(Progress(made, manager.AsState()), self, executor, Plan(AsRegistry(), commands[i..]),
                          answers) == whole
      {
        var command := commands[i];
        ghost var later := Plan(AsRegistry(), commands[i + 1..]);
        assert commands[i..][1..] == commands[i + 1..];
        if command.id !in commandId2Processors {
          return GENERAL_ERROR, made;
        }
        var rest := commandId2Processors[command.id];
        while rest != {}
          invariant k == |made| && unchanged(this)
          invariant Execute(Progress(made, manager.AsState()), self, executor,
                            CallsOf(Ascending(rest), command) + later, answers) == whole
          decreases |rest|
        {
          hide Execute;
          NextCall(Progress(made, manager.AsState()), self, executor, rest, command, later, answers);
          var processor := Least(rest);
          rest := rest - {processor};
          if processor == 0 {
            return GENERAL_ERROR, made;
          }
          var outcome := answers(k).reply;
          if processor == self {
            outcome := manager.ProcessSaCommand(executor, command.id, answers(k).acquired, answers(k).created);
          }
          made := made + [Call(processor, command)];
          k := k + 1;
          if outcome != SUCCESS {
            return GENERAL_ERROR, made;
          }
        }
        NoCalls(command, later);
        i := i + 1;
      }
      assert commands[i..] == [];
      return SUCCESS, made;
    }

    method OnHdiDisconnect(executor: Executor, ghost notices: seq<Notice>) returns (ghost told: seq<Notice>)
      modifies manager
      ensures Sweep(told, manager.AsState())
           == TellAll(Sweep(notices, old(manager.AsState())), self, executor, Ascending(processors))
    {
      told := notices;
      ghost var whole := TellAll(Sweep(notices, old(manager.AsState())), self, executor, Ascending(processors));
      var rest := processors;
      while rest != {}
        invariant unchanged(this)
        invariant TellAll(Sweep(told, manager.AsState()), self, executor, Ascending(rest)) == whole
        decreases |rest|
      {
        var processor := Least(rest);
        assert Ascending(rest)[1..] == Ascending(rest - {processor});
        rest := rest - {processor};
        if processor == 0 {
          return;
        }
        if processor == self {
          manager.OnHdiDisconnect(Some(executor));
        }
        told := told + [Notice(processor, executor)];
      }
    }
  }

  class FaceAuthDriverHdi {
    const commands: SaCommandManager
    var faceAuthExecutorList: seq<Option<Executor>>
    var made: nat  // executors made so far: the identity of the next one

    constructor (commands: SaCommandManager)
      ensures this.commands == commands && faceAuthExecutorList == [] && made == 0
    {
      this.commands := commands;
      faceAuthExecutorList, made := [], 0;
    }

    /** `reply` is None if any step up to the service's answer failed; each entry tells whether the proxy is there
        and its wrapper can be made. A failure leaves the list alone; a reply replaces it. */
    method GetExecutorList(reply: Option<seq<bool>>) returns (executorList: seq<Option<Executor>>)
      modifies this
      ensures reply == None ==> executorList == [] && faceAuthExecutorList == old(faceAuthExecutorList)
      ensures reply.Some? ==> faceAuthExecutorList == executorList
      ensures made == old(made) + |executorList|
      ensures forall i | 0 <= i < |executorList| :: executorList[i] == Some(old(made) + i)
      ensures reply.Some? ==> |executorList| == multiset(reply.value)[true]
    {
      executorList := [];
      if reply == None {
        return;
      }
      faceAuthExecutorList := [];
      var i := 0;
      while i < |reply.value|
        invariant 0 <= i <= |reply.value| && faceAuthExecutorList == executorList
        invariant made == old(made) + |executorList| && |executorList| == multiset(reply.value[..i])[true]
        invariant forall j | 0 <= j < |executorList| :: executorList[j] == Some(old(made) + j)
      {
        assert reply.value[..i + 1] == reply.value[..i] + [reply.value[i]];
        if reply.value[i] {
          executorList := executorList + [Some(made)];
          faceAuthExecutorList := faceAuthExecutorList + [Some(made)];
          made := made + 1;
        }
        i := i + 1;
      }
      assert reply.value[..i] == reply.value;
    }

    /** The sweep: after it the list is empty and the manager is where SweepList puts it. */
    method OnHdiDisconnect() returns (ghost told: seq<Notice>)
      modifies this, commands.manager
      ensures faceAuthExecutorList == []
      ensures Sweep(told, commands.manager.AsState())
           == SweepList(Sweep([], old(commands.manager.AsState())), commands.self, commands.AsRegistry(),
                        old(faceAuthExecutorList))
    {
      told := [];
      ghost var whole := SweepList(Sweep([], old(commands.manager.AsState())), commands.self, commands.AsRegistry(),
                                   faceAuthExecutorList);
      var i := 0;
      while i < |faceAuthExecutorList|
        invariant 0 <= i <= |faceAuthExecutorList| && faceAuthExecutorList == old(faceAuthExecutorList)
        invariant commands.AsRegistry() == old(commands.AsRegistry())
        invariant SweepList(Sweep(told, commands.manager.AsState()), commands.self, commands.AsRegistry(),
                            faceAuthExecutorList[i..]) == whole
      {
        assert faceAuthExecutorList[i..][1..] == faceAuthExecutorList[i + 1..];
        if faceAuthExecutorList[i] != None {
          told := commands.OnHdiDisconnect(faceAuthExecutorList[i].value, told);
        }
        i := i + 1;
      }
      faceAuthExecutorList := [];
    }

    /** The sweep and what it means for the brightness manager, in one. */
    method DisconnectFrees() returns (ghost told: seq<Notice>)
      requires commands.Valid() && commands.self in commands.processors && Owned(commands.manager.AsState())
      modifies this, commands.manager
      ensures faceAuthExecutorList == [] && commands.Valid() && Owned(commands.manager.AsState())
      ensures old(commands.manager.executorInProc.Some? && commands.manager.executorInProc in faceAuthExecutorList) ==>
                && commands.manager.executorInProc == None && commands.manager.taskInProc == None
                && commands.manager.calls == old(commands.manager.calls
                     + [Stop(commands.manager.taskInProc.value, commands.manager.executorInProc.value)])
      ensures old(!(commands.manager.executorInProc.Some?
                    && commands.manager.executorInProc in faceAuthExecutorList)) ==>
                commands.manager.AsState() == old(commands.manager.AsState())
    {
      SweepFreesManager(Sweep([], commands.manager.AsState()), commands.self, commands.AsRegistry(),
                        faceAuthExecutorList);
      ghost var owner := commands.manager.executorInProc;
      OwnedStep(commands.manager.AsState(), DoDisconnect(owner));
      told := OnHdiDisconnect();
    }
  }
}
