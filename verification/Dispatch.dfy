/**
 services/src/sa_command_manager.cpp and services/src/face_auth_driver_hdi.cpp: the registry of processors, the
 dispatch of command batches and the disconnect sweep. Processors are named by their address; 0 is null, and a
 C++ ordered set of them is walked in ascending order.
 */
module Dispatch {
  import opened Prelude
  import opened Manager

  type Address = nat

  datatype SaCommand = SaCommand(id: CommandId)

  // ------------------------------------------------------------------------------------------
  // The two indexes.
  // ------------------------------------------------------------------------------------------

  datatype Registry = Registry(processors: set<Address>, byId: map<CommandId, set<Address>>)

  function At(r: Registry, id: CommandId): set<Address> { if id in r.byId then r.byId[id] else {} }

  function Register(r: Registry, ids: seq<CommandId>, p: Address): Registry {
    if p == 0 then r
    else Registry(r.processors + {p},
                  map id | id in r.byId.Keys + (set x | x in ids) :: if id in ids then At(r, id) + {p} else At(r, id))
  }

  function Unregister(r: Registry, ids: seq<CommandId>, p: Address): Registry {
    if p == 0 then r
    else Registry(r.processors - {p}, map id | id in r.byId :: if id in ids then r.byId[id] - {p} else r.byId[id])
  }

  function WithProcessor(b: map<CommandId, set<Address>>, id: CommandId, p: Address): map<CommandId, set<Address>> {
    b[id := (if id in b then b[id] else {}) + {p}]
  }

  /** First make sure the id has a set, then insert into it. */
  lemma InsertIs(b: map<CommandId, set<Address>>, id: CommandId, p: Address)
    ensures var c := if id in b then b else b[id := {}]; c[id := c[id] + {p}] == WithProcessor(b, id, p)
  {
  }

  /** Registering or unregistering for one more id. */
  lemma RegisterOneMore(r: Registry, ids: seq<CommandId>, id: CommandId, p: Address)
    requires p != 0
    ensures Register(r, ids + [id], p).byId == WithProcessor(Register(r, ids, p).byId, id, p)
  {
    var b, c := Register(r, ids, p).byId, Register(r, ids + [id], p).byId;
    assert forall x :: x in ids + [id] <==> x in ids || x == id;
    var n := WithProcessor(b, id, p);
    assert c.Keys == b.Keys + {id} == n.Keys;
    forall x | x in c
      ensures c[x] == n[x]
    {
      assert c[x] == if x in ids || x == id then At(r, x) + {p} else At(r, x);
      assert x in b ==> b[x] == if x in ids then At(r, x) + {p} else At(r, x);
    }
  }

  lemma UnregisterOneMore(r: Registry, ids: seq<CommandId>, id: CommandId, p: Address)
    requires p != 0
    ensures var b := Unregister(r, ids, p).byId;
            Unregister(r, ids + [id], p).byId == if id in b then b[id := b[id] - {p}] else b
  {
    var b, c := Unregister(r, ids, p).byId, Unregister(r, ids + [id], p).byId;
    assert forall x :: x in ids + [id] <==> x in ids || x == id;
    var n := if id in b then b[id := b[id] - {p}] else b;
    assert c.Keys == n.Keys == r.byId.Keys;
    forall x | x in c
      ensures c[x] == n[x]
    {
      assert c[x] == if x in ids || x == id then r.byId[x] - {p} else r.byId[x];
      assert b[x] == if x in ids then r.byId[x] - {p} else r.byId[x];
    }
  }

  lemma NoIds(r: Registry, p: Address)
    ensures Register(r, [], p).byId == r.byId && Unregister(r, [], p).byId == r.byId
  {
  }

  /** Whoever can be sent a command is a real processor and is told of every disconnect. */
  ghost predicate Agrees(r: Registry) {
    0 !in r.processors && forall id, p | id in r.byId && p in r.byId[id] :: p in r.processors
  }

  /** The ids named cover every id under which the processor is known. */
  ghost predicate Covers(r: Registry, ids: seq<CommandId>, p: Address) {
    forall id | id in r.byId && p in r.byId[id] :: id in ids
  }

  lemma RegisterAgrees(r: Registry, ids: seq<CommandId>, p: Address)
    requires Agrees(r)
    ensures Agrees(Register(r, ids, p))
  {
  }

  /** Unregistering keeps the two indexes in agreement exactly when every id the processor holds is named. */
  lemma UnregisterAgreesIff(r: Registry, ids: seq<CommandId>, p: Address)
    requires Agrees(r)
    ensures Agrees(Unregister(r, ids, p)) <==> p == 0 || Covers(r, ids, p)
  {
    if p != 0 && !Covers(r, ids, p) {
      var id :| id in r.byId && p in r.byId[id] && id !in ids;
      var u := Unregister(r, ids, p);
      assert id in u.byId && p in u.byId[id] && p !in u.processors;
    }
  }

  datatype RegistryOp = DoRegister(ids: seq<CommandId>, p: Address) | DoUnregister(ids: seq<CommandId>, p: Address)

  function PerformOp(r: Registry, op: RegistryOp): Registry {
    match op
    case DoRegister(ids, p) => Register(r, ids, p)
    case DoUnregister(ids, p) => Unregister(r, ids, p)
  }

  function PerformOps(r: Registry, ops: seq<RegistryOp>): Registry
    decreases |ops|
  {
    if ops == [] then r else PerformOps(PerformOp(r, ops[0]), ops[1..])
  }

  ghost predicate AllCover(r: Registry, ops: seq<RegistryOp>)
    decreases |ops|
  {
    ops == [] || ((ops[0].DoUnregister? ==> Covers(r, ops[0].ids, ops[0].p))
                  && AllCover(PerformOp(r, ops[0]), ops[1..]))
  }

  /** Over every run of registrations and of covering unregistrations the indexes agree. */
  lemma {:induction false} RegistryAlwaysAgrees(r: Registry, ops: seq<RegistryOp>)
    requires Agrees(r) && AllCover(r, ops)
    ensures Agrees(PerformOps(r, ops))
    decreases |ops|
  {
    if ops != [] {
      match ops[0] {
        case DoRegister(ids, p) => RegisterAgrees(r, ids, p);
        case DoUnregister(ids, p) => UnregisterAgreesIff(r, ids, p);
      }
      RegistryAlwaysAgrees(PerformOp(r, ops[0]), ops[1..]);
    }
  }

  /** Covering or not, no run of registrations and unregistrations makes null a processor. */
  lemma {:induction false} NullStaysOut(r: Registry, ops: seq<RegistryOp>)
    requires 0 !in r.processors
    ensures 0 !in PerformOps(r, ops).processors
    decreases |ops|
  {
    if ops != [] {
      NullStaysOut(PerformOp(r, ops[0]), ops[1..]);
    }
  }

  lemma {:induction false} PerformOpsSnoc(r: Registry, ops: seq<RegistryOp>, op: RegistryOp)
    ensures PerformOps(r, ops + [op]) == PerformOp(PerformOps(r, ops), op)
    decreases |ops|
  {
    hide PerformOp;
    if ops == [] {
      assert [op][1..] == [];
    } else {
      assert (ops + [op])[0] == ops[0] && (ops + [op])[1..] == ops[1..] + [op];
      PerformOpsSnoc(PerformOp(r, ops[0]), ops[1..], op);
    }
  }

  /** The last operation on `p` was a registration. */
  predicate Registered(ops: seq<RegistryOp>, p: Address) {
    ops != [] &&
    var last := ops[|ops| - 1];
    if last.p == p then last.DoRegister? else Registered(ops[..|ops| - 1], p)
  }

  /** The last operation on `p` that named `id` was a registration. */
  predicate RegisteredFor(ops: seq<RegistryOp>, p: Address, id: CommandId) {
    ops != [] &&
    var last := ops[|ops| - 1];
    if last.p == p && id in last.ids then last.DoRegister? else RegisteredFor(ops[..|ops| - 1], p, id)
  }

  /** Somebody registered for `id` once. */
  ghost predicate Known(ops: seq<RegistryOp>, id: CommandId) {
    exists i | 0 <= i < |ops| :: ops[i].DoRegister? && ops[i].p != 0 && id in ops[i].ids
  }

  /** What the two indexes hold after any run of registrations and unregistrations. */
  lemma {:induction false} RegistryIsHistory(ops: seq<RegistryOp>, p: Address, id: CommandId)
    ensures var r := PerformOps(Registry({}, map[]), ops);
            && (p in r.processors <==> p != 0 && Registered(ops, p))
            && (p in At(r, id) <==> p != 0 && RegisteredFor(ops, p, id))
            && (id in r.byId <==> Known(ops, id))
    decreases |ops|
  {
    if ops != [] {
      var front, last := ops[..|ops| - 1], ops[|ops| - 1];
      assert ops == front + [last];
      PerformOpsSnoc(Registry({}, map[]), front, last);
      RegistryIsHistory(front, p, id);
      assert Known(ops, id) <==> Known(front, id) || (last.DoRegister? && last.p != 0 && id in last.ids) by {
        if Known(front, id) {
          var i :| 0 <= i < |front| && front[i].DoRegister? && front[i].p != 0 && id in front[i].ids;
          assert ops[i] == front[i];
        }
      }
    }
  }

  // ------------------------------------------------------------------------------------------
  // Ordered sets.
  // ------------------------------------------------------------------------------------------

  lemma {:induction false} LeastExists(s: set<nat>) returns (least: nat)
    requires s != {}
    ensures least in s && forall x | x in s :: least <= x
  {
    var a :| a in s;
    least := a;
    var rest := s - {a};
    assert forall x | x in s :: x == a || x in rest;
    if rest != {} {
      var m := LeastExists(rest);
      least := if a <= m then a else m;
    }
  }

  function Least(s: set<nat>): (m: nat)
    requires s != {}
    ensures m in s && forall x | x in s :: m <= x
  {
    assert exists m :: m in s && forall x | x in s :: m <= x by {
      var m := LeastExists(s);
    }
    var m :| m in s && forall x | x in s :: m <= x;
    m
  }

  function Ascending(s: set<nat>): (r: seq<nat>)
    ensures forall x :: x in r <==> x in s
    decreases |s|
  {
    if s == {} then [] else var m := Least(s); [m] + Ascending(s - {m})
  }

  /** Each element once, in ascending order. */
  lemma {:induction false} AscendingIs(s: set<nat>)
    ensures multiset(Ascending(s)) == multiset(s)
    ensures forall i, j | 0 <= i < j < |Ascending(s)| :: Ascending(s)[i] < Ascending(s)[j]
    decreases |s|
  {
    if s != {} {
      var m := Least(s);
      var rest := Ascending(s - {m});
      AscendingIs(s - {m});
      assert multiset(s) == multiset{m} + multiset(s - {m});
      forall j | 0 <= j < |rest|
        ensures m < rest[j]
      {
        assert rest[j] in rest;
      }
    }
  }

  // ------------------------------------------------------------------------------------------
  // Dispatch.
  // ------------------------------------------------------------------------------------------

  /** One thing a batch asks for, in order: a call, or the stop at an id nobody ever registered. */
  datatype Item = Call(p: Address, command: SaCommand) | Unknown

  function CallsOf(ps: seq<Address>, c: SaCommand): seq<Item> { seq(|ps|, i requires 0 <= i < |ps| => Call(ps[i], c)) }

  function ItemsOf(r: Registry, c: SaCommand): seq<Item> {
    if c.id in r.byId then CallsOf(Ascending(r.byId[c.id]), c) else [Unknown]
  }

  /** The batch flattened, command by command and processor by processor. */
  function Plan(r: Registry, commands: seq<SaCommand>): seq<Item> {
    if commands == [] then [] else ItemsOf(r, commands[0]) + Plan(r, commands[1..])
  }

  /** The plan asks for exactly the calls the registry and the batch ask for, and stops at unknown ids only. */
  lemma {:induction false} PlanHolds(r: Registry, commands: seq<SaCommand>, p: Address, c: SaCommand)
    ensures Call(p, c) in Plan(r, commands) <==> c in commands && p in At(r, c.id)
    ensures Unknown in Plan(r, commands) <==> exists k | 0 <= k < |commands| :: commands[k].id !in r.byId
    decreases |commands|
  {
    if commands != [] {
      var first, rest := ItemsOf(r, commands[0]), commands[1..];
      PlanHolds(r, rest, p, c);
      ItemsHold(r, commands[0], p, c);
      assert commands == [commands[0]] + rest;
      if k :| 0 <= k < |rest| && rest[k].id !in r.byId {
        assert commands[k + 1].id !in r.byId;
      }
    }
  }

  lemma ItemsHold(r: Registry, d: SaCommand, p: Address, c: SaCommand)
    ensures Call(p, c) in ItemsOf(r, d) <==> c == d && p in At(r, c.id)
    ensures Unknown in ItemsOf(r, d) <==> d.id !in r.byId
  {
    if d.id in r.byId {
      var ps := Ascending(r.byId[d.id]);
      var items := CallsOf(ps, d);
      if c == d && p in At(r, c.id) {
        assert p in ps;
        var i :| 0 <= i < |ps| && ps[i] == p;
        assert items[i] == Call(p, c);
      }
    }
  }

  lemma {:induction false} CallsCount(ps: seq<Address>, d: SaCommand, p: Address, c: SaCommand)
    ensures multiset(CallsOf(ps, d))[Call(p, c)] == if c == d then multiset(ps)[p] else 0
    ensures multiset(CallsOf(ps, d))[Unknown] == 0
    decreases |ps|
  {
    if ps != [] {
      var front, last := ps[..|ps| - 1], ps[|ps| - 1];
      CallsCount(front, d, p, c);
      assert ps == front + [last] && CallsOf(ps, d) == CallsOf(front, d) + [Call(last, d)];
    }
  }

  /** How often each command's id is one nobody ever registered. */
  function Strangers(r: Registry, commands: seq<SaCommand>): nat {
    if commands == [] then 0 else (if commands[0].id in r.byId then 0 else 1) + Strangers(r, commands[1..])
  }

  /** A batch asks each processor registered for a command exactly once each time the command occurs. */
  lemma {:induction false} PlanCounts(r: Registry, commands: seq<SaCommand>, p: Address, c: SaCommand)
    ensures multiset(Plan(r, commands))[Call(p, c)] == if p in At(r, c.id) then multiset(commands)[c] else 0
    ensures multiset(Plan(r, commands))[Unknown] == Strangers(r, commands)
    decreases |commands|
  {
    if commands != [] {
      var d, rest := commands[0], commands[1..];
      PlanCounts(r, rest, p, c);
      assert commands == [d] + rest;
      if d.id in r.byId {
        AscendingIs(r.byId[d.id]);
        CallsCount(Ascending(r.byId[d.id]), d, p, c);
      }
    }
  }

  /** Within one command the processors are called in strictly ascending order. */
  lemma CommandAscends(r: Registry, c: SaCommand, i: nat, j: nat)
    requires c.id in r.byId && i < j < |Plan(r, [c])|
    ensures var plan := Plan(r, [c]); plan[i].Call? && plan[j].Call? && plan[i].p < plan[j].p
  {
    assert [c][1..] == [];
    AscendingIs(r.byId[c.id]);
  }

  /** What the outside answers to the k-th call of a batch: the library, the task factory, another processor. */
  datatype Answer = Answer(acquired: bool, created: bool, reply: ResultCode)

  /** The calls made so far, and what they did to the brightness manager, which sits at address `self`. */
  datatype Progress = Progress(made: seq<Item>, manager: State)

  function DoCall(g: Progress, self: Address, executor: Option<Executor>, item: Item,
                  answer: Answer): (Progress, ResultCode)
    requires item.Call?
  {
    var made := g.made + [item];
    if item.p == self then
      var r := Command(g.manager, executor, item.command.id, answer.acquired, answer.created);
      (Progress(made, r.0), r.1)
    else (Progress(made, g.manager), answer.reply)
  }

  function Execute(g: Progress, self: Address, executor: Option<Executor>, plan: seq<Item>,
                   answers: nat -> Answer): (Progress, ResultCode)
    decreases |plan|
  {
    if plan == [] then (g, SUCCESS)
    else if plan[0].Unknown? || plan[0].p == 0 then (g, GENERAL_ERROR)
    else
      var r := DoCall(g, self, executor, plan[0], answers(|g.made|));
      if r.1 != SUCCESS then (r.0, GENERAL_ERROR) else Execute(r.0, self, executor, plan[1..], answers)
  }

  /** The next call of the command in hand. */
  lemma NextCall(g: Progress, self: Address, executor: Option<Executor>, ps: set<Address>, c: SaCommand,
                 later: seq<Item>, answers: nat -> Answer)
    requires ps != {}
    ensures var p := Least(ps);
            Execute(g, self, executor, CallsOf(Ascending(ps), c) + later, answers) ==
              if p == 0 then (g, GENERAL_ERROR)
              else var r := DoCall(g, self, executor, Call(p, c), answers(|g.made|));
                   if r.1 != SUCCESS then (r.0, GENERAL_ERROR)
                   else Execute(r.0, self, executor, CallsOf(Ascending(ps - {p}), c) + later, answers)
  {
    var items, next := CallsOf(Ascending(ps), c), CallsOf(Ascending(ps - {Least(ps)}), c);
    assert items == [Call(Least(ps), c)] + next;
    assert (items + later)[0] == Call(Least(ps), c) && (items + later)[1..] == next + later;
  }

  lemma NoCalls(c: SaCommand, later: seq<Item>)
    ensures CallsOf(Ascending({}), c) + later == later
  {
  }

  lemma {:induction false} ExecuteConcat(g: Progress, self: Address, executor: Option<Executor>, a: seq<Item>,
                                         b: seq<Item>, answers: nat -> Answer)
    ensures var first := Execute(g, self, executor, a, answers);
            Execute(g, self, executor, a + b, answers) ==
              if first.1 != SUCCESS then first else Execute(first.0, self, executor, b, answers)
    decreases |a|
  {
    if a == [] {
      assert a + b == b;
    } else {
      assert (a + b)[0] == a[0] && (a + b)[1..] == a[1..] + b;
      if !a[0].Unknown? && a[0].p != 0 {
        var r := DoCall(g, self, executor, a[0], answers(|g.made|));
        if r.1 == SUCCESS {
          ExecuteConcat(r.0, self, executor, a[1..], b, answers);
        }
      }
    }
  }

  lemma {:induction false} PlanConcat(r: Registry, a: seq<SaCommand>, b: seq<SaCommand>)
    ensures Plan(r, a + b) == Plan(r, a) + Plan(r, b)
    decreases |a|
  {
    if a == [] {
      assert a + b == b;
    } else {
      assert (a + b)[0] == a[0] && (a + b)[1..] == a[1..] + b;
      PlanConcat(r, a[1..], b);
    }
  }

  /** Where a batch is cut does not matter as long as it succeeds: one batch is the same as two in a row, the second
      being sent only if the first succeeded. */
  lemma BatchesCompose(g: Progress, self: Address, executor: Option<Executor>, r: Registry, a: seq<SaCommand>,
                       b: seq<SaCommand>, answers: nat -> Answer)
    ensures var first := Execute(g, self, executor, Plan(r, a), answers);
            Execute(g, self, executor, Plan(r, a + b), answers) ==
              if first.1 != SUCCESS then first else Execute(first.0, self, executor, Plan(r, b), answers)
  {
    PlanConcat(r, a, b);
    ExecuteConcat(g, self, executor, Plan(r, a), Plan(r, b), answers);
  }

  /** The commands among these calls that go to the brightness manager, the first call being number `k`. */
  function SelfOps(self: Address, executor: Option<Executor>, items: seq<Item>, answers: nat -> Answer, k: nat): seq<Op>
    decreases |items|
  {
    if items == [] then []
    else
      (if items[0].Call? && items[0].p == self
       then [DoCommand(executor, items[0].command.id, answers(k).acquired, answers(k).created)] else [])
      + SelfOps(self, executor, items[1..], answers, k + 1)
  }

  /** A batch takes the brightness manager where the commands sent to it take it, one after the other, and no calls
      but the ones recorded are made. */
  lemma {:induction false} DispatchDrivesManager(g: Progress, self: Address, executor: Option<Executor>,
                                                 plan: seq<Item>, answers: nat -> Answer)
    ensures var r := Execute(g, self, executor, plan, answers).0;
            && g.made <= r.made
            && r.manager == PerformAll(g.manager, SelfOps(self, executor, r.made[|g.made|..], answers, |g.made|))
    decreases |plan|
  {
    hide Command;
    var r := Execute(g, self, executor, plan, answers).0;
    if plan == [] || plan[0].Unknown? || plan[0].p == 0 {
      assert r.made[|g.made|..] == [];
    } else {
      var n := DoCall(g, self, executor, plan[0], answers(|g.made|));
      var op := DoCommand(executor, plan[0].command.id, answers(|g.made|).acquired, answers(|g.made|).created);
      if n.1 == SUCCESS {
        DispatchDrivesManager(n.0, self, executor, plan[1..], answers);
      } else {
        assert r.made[|n.0.made|..] == [];
      }
      var later := r.made[|n.0.made|..];
      var ops := SelfOps(self, executor, later, answers, |n.0.made|);
      assert r.made[|g.made|..] == [plan[0]] + later && ([plan[0]] + later)[1..] == later;
      assert ([op] + ops)[1..] == ops && [] + ops == ops;
    }
  }

  /** The manager's state after the first `n` calls of a plan, had they all been made. */
  function ManagerAfter(g: Progress, self: Address, executor: Option<Executor>, plan: seq<Item>,
                        answers: nat -> Answer, n: nat): State
    requires n <= |plan| && forall i | 0 <= i < n :: plan[i].Call?
    decreases n
  {
    if n == 0 then g.manager
    else ManagerAfter(DoCall(g, self, executor, plan[0], answers(|g.made|)).0, self, executor, plan[1..], answers,
                      n - 1)
  }

  /** Item `i` of the plan can be done and is answered with SUCCESS, given that all before it were. */
  ghost predicate Passes(g: Progress, self: Address, executor: Option<Executor>, plan: seq<Item>,
                         answers: nat -> Answer, i: nat)
    requires i < |plan| && forall k | 0 <= k < i :: plan[k].Call?
  {
    plan[i].Call? && plan[i].p != 0
    && (if plan[i].p == self
        then Command(ManagerAfter(g, self, executor, plan, answers, i), executor, plan[i].command.id,
                     answers(|g.made| + i).acquired, answers(|g.made| + i).created).1 == SUCCESS
        else answers(|g.made| + i).reply == SUCCESS)
  }

  /**
   Prefix semantics: there is a number n of items that pass, one after the other; exactly they are made, plus the
   first that does not pass if it is a call at all; nothing runs after it; SUCCESS means that all passed.
   */
  lemma {:induction false} DispatchIsPrefix(g: Progress, self: Address, executor: Option<Executor>, plan: seq<Item>,
                                            answers: nat -> Answer)
    returns (n: nat)
    ensures n <= |plan| && (forall k | 0 <= k < n :: plan[k].Call?)
    ensures forall k | 0 <= k < n :: Passes(g, self, executor, plan, answers, k)
    ensures n < |plan| ==> !Passes(g, self, executor, plan, answers, n)
    ensures var r := Execute(g, self, executor, plan, answers);
            && (r.1 == SUCCESS <==> n == |plan|)
            && r.0.made == g.made + plan[..if n < |plan| && plan[n].Call? && plan[n].p != 0 then n + 1 else n]
    decreases |plan|
  {
    hide Passes, DoCall, ManagerAfter;
    if plan != [] {
      PassesFirst(g, self, executor, plan, answers);
    }
    if plan == [] {
      n := 0;
    } else if plan[0].Unknown? || plan[0].p == 0 {
      n := 0;
    } else {
      var r := DoCall(g, self, executor, plan[0], answers(|g.made|));
      if r.1 != SUCCESS {
        n := 0;
        assert plan[..1] == [plan[0]];
      } else {
        var rest := plan[1..];
        var m := DispatchIsPrefix(r.0, self, executor, rest, answers);
        n := m + 1;
        forall k | 0 <= k < n
          ensures plan[k].Call? && Passes(g, self, executor, plan, answers, k)
        {
          if k > 0 {
            assert rest[k - 1] == plan[k];
            PassesShift(g, self, executor, plan, answers, k);
          }
        }
        if n < |plan| {
          PassesShift(g, self, executor, plan, answers, n);
        }
        var stop := if m < |rest| && rest[m].Call? && rest[m].p != 0 then m + 1 else m;
        assert plan[..stop + 1] == [plan[0]] + rest[..stop];
      }
    }
  }

  lemma PassesFirst(g: Progress, self: Address, executor: Option<Executor>, plan: seq<Item>, answers: nat -> Answer)
    requires plan != []
    ensures Passes(g, self, executor, plan, answers, 0)
       <==> plan[0].Call? && plan[0].p != 0 && DoCall(g, self, executor, plan[0], answers(|g.made|)).1 == SUCCESS
    ensures plan[0].Call? ==> DoCall(g, self, executor, plan[0], answers(|g.made|)).0.made == g.made + [plan[0]]
  {
  }

  /** An item passes in a plan iff it passes in the plan's rest once the first call is made. */
  lemma PassesShift(g: Progress, self: Address, executor: Option<Executor>, plan: seq<Item>, answers: nat -> Answer,
                    k: nat)
    requires 1 <= k < |plan| && (forall i | 0 <= i < k :: plan[i].Call?)
             && (forall i | 0 <= i < k - 1 :: plan[1..][i].Call?)
    ensures Passes(g, self, executor, plan, answers, k)
       <==> Passes(DoCall(g, self, executor, plan[0], answers(|g.made|)).0, self, executor, plan[1..], answers, k - 1)
  {
    assert plan[1..][k - 1] == plan[k];
  }

  // ------------------------------------------------------------------------------------------
  // Disconnects.
  // ------------------------------------------------------------------------------------------

  /** One call of OnHdiDisconnect on a processor. */
  datatype Notice = Notice(p: Address, executor: Executor)

  datatype Sweep = Sweep(notices: seq<Notice>, manager: State)

  function Tell(w: Sweep, self: Address, e: Executor, p: Address): Sweep {
    Sweep(w.notices + [Notice(p, e)], if p == self then Disconnect(w.manager, Some(e)) else w.manager)
  }

  /** OnHdiDisconnect of the command manager: every processor in order, up to a null one. */
  function TellAll(w: Sweep, self: Address, e: Executor, ps: seq<Address>): Sweep
    decreases |ps|
  {
    if ps == [] || ps[0] == 0 then w else TellAll(Tell(w, self, e, ps[0]), self, e, ps[1..])
  }

  /** The driver's sweep over its list; null entries are skipped. */
  function SweepList(w: Sweep, self: Address, r: Registry, list: seq<Option<Executor>>): Sweep
    decreases |list|
  {
    if list == [] then w
    else
      var next := if list[0].Some? then TellAll(w, self, list[0].value, Ascending(r.processors)) else w;
      SweepList(next, self, r, list[1..])
  }

  lemma {:induction false} TellAllIs(w: Sweep, self: Address, e: Executor, ps: seq<Address>)
    requires 0 !in ps
    ensures var t := TellAll(w, self, e, ps);
            && t.notices == w.notices + seq(|ps|, i requires 0 <= i < |ps| => Notice(ps[i], e))
            && t.manager == if self in ps then Disconnect(w.manager, Some(e)) else w.manager
    decreases |ps|
  {
    if ps != [] {
      TellAllIs(Tell(w, self, e, ps[0]), self, e, ps[1..]);
      assert Disconnect(Disconnect(w.manager, Some(e)), Some(e)) == Disconnect(w.manager, Some(e));
      assert self in ps <==> self == ps[0] || self in ps[1..];
    }
  }

  /**
   The sweep, for every registry and every list: if the manager is a registered processor and null is none, no listed
   executor owns it afterwards, and a task owned by a listed executor has been stopped exactly once, with nothing
   else called on tasks. In all other cases, and for an owner not in the list, everything stays.
   */
  lemma {:induction false} SweepFreesManager(w: Sweep, self: Address, r: Registry, list: seq<Option<Executor>>)
    requires Owned(w.manager)
    ensures var m := SweepList(w, self, r, list).manager;
            var told := 0 !in r.processors && self in r.processors;
            && (told && m.executorInProc.Some? ==> m.executorInProc !in list)
            && (if told && w.manager.executorInProc.Some? && w.manager.executorInProc in list
                then m == State(None, None, w.manager.made,
                                w.manager.calls + [Stop(w.manager.taskInProc.value, w.manager.executorInProc.value)])
                else m == w.manager)
    decreases |list|
  {
    if list != [] {
      var next := w;
      if list[0].Some? {
        if 0 in r.processors {
          assert Ascending(r.processors)[0] == 0;
        } else {
          TellAllIs(w, self, list[0].value, Ascending(r.processors));
        }
        next := TellAll(w, self, list[0].value, Ascending(r.processors));
        OwnedStep(w.manager, DoDisconnect(list[0]));
      }
      SweepFreesManager(next, self, r, list[1..]);
      assert list == [list[0]] + list[1..];
    }
  }

  /** After any registrations and unregistrations at all: a sweep while the manager is a processor frees it. */
  lemma SweepAfterAnyRun(ops: seq<RegistryOp>, w: Sweep, self: Address, list: seq<Option<Executor>>)
    requires self in PerformOps(Registry({}, map[]), ops).processors && Owned(w.manager)
    ensures var m := SweepList(w, self, PerformOps(Registry({}, map[]), ops), list).manager;
            && Owned(m) && (m.executorInProc.Some? ==> m.executorInProc !in list)
            && (w.manager.executorInProc.Some? && w.manager.executorInProc in list ==>
                  m.calls == w.manager.calls + [Stop(w.manager.taskInProc.value, w.manager.executorInProc.value)])
            && (!(w.manager.executorInProc.Some? && w.manager.executorInProc in list) ==> m == w.manager)
  {
    NullStaysOut(Registry({}, map[]), ops);
    SweepFreesManager(w, self, PerformOps(Registry({}, map[]), ops), list);
    OwnedStep(w.manager, DoDisconnect(w.manager.executorInProc));
  }

  lemma {:induction false} NoticeCount(ps: seq<Address>, d: Executor, p: Address, e: Executor)
    ensures multiset(seq(|ps|, i requires 0 <= i < |ps| => Notice(ps[i], d)))[Notice(p, e)]
         == if d == e then multiset(ps)[p] else 0
    decreases |ps|
  {
    if ps != [] {
      var front, last := ps[..|ps| - 1], ps[|ps| - 1];
      NoticeCount(front, d, p, e);
      assert ps == front + [last];
      assert seq(|ps|, i requires 0 <= i < |ps| => Notice(ps[i], d))
          == seq(|front|, i requires 0 <= i < |front| => Notice(front[i], d)) + [Notice(last, d)];
    }
  }

  /** One disconnect: every processor is told once, in ascending order, unless null is among them. */
  lemma ToldOne(w: Sweep, self: Address, d: Executor, r: Registry, p: Address, e: Executor)
    ensures multiset(TellAll(w, self, d, Ascending(r.processors)).notices)[Notice(p, e)]
         == multiset(w.notices)[Notice(p, e)] + if 0 !in r.processors && p in r.processors && d == e then 1 else 0
  {
    var ps := Ascending(r.processors);
    if 0 in r.processors {
      assert ps[0] == 0;
    } else {
      TellAllIs(w, self, d, ps);
      NoticeCount(ps, d, p, e);
      AscendingIs(r.processors);
    }
  }

  /** Who is told: a processor hears of an executor exactly as often as the executor is listed if it is registered,
      and never if it is not, or if null is registered too. */
  lemma {:induction false} ToldExactly(w: Sweep, self: Address, r: Registry, list: seq<Option<Executor>>, p: Address,
                                       e: Executor)
    ensures multiset(SweepList(w, self, r, list).notices)[Notice(p, e)]
         == multiset(w.notices)[Notice(p, e)]
            + if 0 !in r.processors && p in r.processors then multiset(list)[Some(e)] else 0
    decreases |list|
  {
    hide Ascending, TellAll;
    if list != [] {
      var next := w;
      if list[0].Some? {
        ToldOne(w, self, list[0].value, r, p, e);
        next := TellAll(w, self, list[0].value, Ascending(r.processors));
      }
      ToldExactly(next, self, r, list[1..], p, e);
      assert list == [list[0]] + list[1..];
    }
  }

  /** Executors are swept in the order of the list. */
  lemma {:induction false} SweepConcat(w: Sweep, self: Address, r: Registry, a: seq<Option<Executor>>,
                                       b: seq<Option<Executor>>)
    ensures SweepList(w, self, r, a + b) == SweepList(SweepList(w, self, r, a), self, r, b)
    decreases |a|
  {
    if a == [] {
      assert a + b == b;
    } else {
      assert (a + b)[0] == a[0] && (a + b)[1..] == a[1..] + b;
      var next := if a[0].Some? then TellAll(w, self, a[0].value, Ascending(r.processors)) else w;
      SweepConcat(next, self, r, a[1..], b);
    }
  }

  /** With agreeing indexes, whoever a batch can call is told of every listed executor's disconnect. */
  lemma ReachableIsTold(w: Sweep, self: Address, r: Registry, list: seq<Option<Executor>>, id: CommandId, p: Address,
                        e: Executor)
    requires Agrees(r) && p in At(r, id) && Some(e) in list
    ensures Notice(p, e) in SweepList(w, self, r, list).notices
  {
    ToldExactly(w, self, r, list, p, e);
  }
}
