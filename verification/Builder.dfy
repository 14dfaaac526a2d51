/** services_ex/src/finite_state_machine_builder.cpp: the one-shot builder with duplicate detection. */
module Builder {
  import opened Prelude
  import opened StateMachine

  datatype Declaration<!U> =
    | OnTransition(state: uint32, event: uint32, next: uint32, action: Option<Callback<U>>)
    | OnEnter(state: uint32, callback: Option<Callback<U>>)
    | OnLeave(state: uint32, callback: Option<Callback<U>>)

  /** The builder's fields; `valid` is also cleared by the first successful build. */
  datatype State<!U> = State(tables: Tables<U>, valid: bool)

  function New<U>(): State<U> { State(Tables(map[], map[], map[]), true) }

  /** An insertion never replaces an entry; meeting one spoils the builder for good. */
  function Declare<U>(b: State<U>, d: Declaration<U>): State<U> {
    match d
    case OnTransition(s, e, n, a) =>
      var k := GetTransitionIndex(s, e);
      if k in b.tables.transitions then b.(valid := false)
      else b.(tables := b.tables.(transitions := b.tables.transitions[k := Transition(n, a)]))
    case OnEnter(s, a) =>
      if s in b.tables.enters then b.(valid := false)
      else b.(tables := b.tables.(enters := b.tables.enters[s := a]))
    case OnLeave(s, a) =>
      if s in b.tables.leaves then b.(valid := false)
      else b.(tables := b.tables.(leaves := b.tables.leaves[s := a]))
  }

  function DeclareAll<U>(ds: seq<Declaration<U>>): State<U> {
    if ds == [] then New() else Declare(DeclareAll(ds[..|ds| - 1]), ds[|ds| - 1])
  }

  lemma DeclareNext<U>(ds: seq<Declaration<U>>, k: nat)
    requires k < |ds|
    ensures DeclareAll(ds[..k + 1]) == Declare(DeclareAll(ds[..k]), ds[k])
  {
    assert ds[..k + 1][..k] == ds[..k];
  }

  /** Building hands the maps over and leaves the builder empty and spoilt. */
  function AfterBuild<U>(b: State<U>): State<U> {
    if b.valid then State(Tables(map[], map[], map[]), false) else b
  }

  // ------------------------------------------------------------------------------------------
  // Faithfulness.
  // ------------------------------------------------------------------------------------------

  predicate SameKey<U>(a: Declaration<U>, b: Declaration<U>) {
    || (a.OnTransition? && b.OnTransition? && a.state == b.state && a.event == b.event)
    || (a.OnEnter? && b.OnEnter? && a.state == b.state)
    || (a.OnLeave? && b.OnLeave? && a.state == b.state)
  }

  ghost predicate Distinct<U>(ds: seq<Declaration<U>>) {
    forall i, j | 0 <= i < j < |ds| :: !SameKey(ds[i], ds[j])
  }

  ghost predicate Declared<U>(ds: seq<Declaration<U>>, d: Declaration<U>) {
    exists i | 0 <= i < |ds| :: SameKey(ds[i], d)
  }

  /** The entry this declaration asks for is in the tables. */
  ghost predicate Stored<U>(t: Tables<U>, d: Declaration<U>) {
    match d
    case OnTransition(s, e, n, a) =>
      var k := GetTransitionIndex(s, e); k in t.transitions && t.transitions[k] == Transition(n, a)
    case OnEnter(s, a) => s in t.enters && t.enters[s] == a
    case OnLeave(s, a) => s in t.leaves && t.leaves[s] == a
  }

  predicate Occupied<U>(t: Tables<U>, d: Declaration<U>) {
    match d
    case OnTransition(s, e, _, _) => GetTransitionIndex(s, e) in t.transitions
    case OnEnter(s, _) => s in t.enters
    case OnLeave(s, _) => s in t.leaves
  }

  lemma OneDeclaration<U>(b: State<U>, d: Declaration<U>, x: Declaration<U>)
    ensures Occupied(Declare(b, d).tables, x) <==> Occupied(b.tables, x) || SameKey(d, x)
    ensures Stored(b.tables, x) ==> Stored(Declare(b, d).tables, x)
    ensures !Occupied(b.tables, d) ==> Stored(Declare(b, d).tables, d)
    ensures Declare(b, d).valid <==> b.valid && !Occupied(b.tables, d)
  {
    if d.OnTransition? && x.OnTransition? {
      TransitionIndexInjective(d.state, d.event, x.state, x.event);
    }
  }

  lemma {:induction false} OccupiedIffDeclared<U>(ds: seq<Declaration<U>>, x: Declaration<U>)
    ensures Occupied(DeclareAll(ds).tables, x) <==> Declared(ds, x)
    decreases |ds|
  {
    if ds != [] {
      var front, d := ds[..|ds| - 1], ds[|ds| - 1];
      OccupiedIffDeclared(front, x);
      OneDeclaration(DeclareAll(front), d, x);
      assert Declared(ds, x) <==> Declared(front, x) || SameKey(d, x) by {
        assert ds == front + [d];
        if Declared(front, x) {
          var i :| 0 <= i < |front| && SameKey(front[i], x);
          assert SameKey(ds[i], x);
        }
      }
    }
  }

  /** A builder is still good exactly when no two declarations so far share a key. */
  lemma {:induction false} ValidIffDistinct<U>(ds: seq<Declaration<U>>)
    ensures DeclareAll(ds).valid <==> Distinct(ds)
    decreases |ds|
  {
    if ds != [] {
      var front, d := ds[..|ds| - 1], ds[|ds| - 1];
      ValidIffDistinct(front);
      OneDeclaration(DeclareAll(front), d, d);
      OccupiedIffDeclared(front, d);
      assert Distinct(ds) <==> Distinct(front) && !Declared(front, d);
    }
  }

  /** Distinct declarations are all stored, each as it was made. */
  lemma {:induction false} DistinctAllStored<U>(ds: seq<Declaration<U>>, i: nat)
    requires Distinct(ds) && i < |ds|
    ensures Stored(DeclareAll(ds).tables, ds[i])
    decreases |ds|
  {
    var front, d := ds[..|ds| - 1], ds[|ds| - 1];
    OneDeclaration(DeclareAll(front), d, ds[i]);
    if i < |front| {
      DistinctAllStored(front, i);
    } else {
      OccupiedIffDeclared(front, d);
    }
  }

  /**
   Faithfulness: the transition relation of an accepted machine, read back by (state, event), is the declared
   one and nothing else; likewise the enter and leave callbacks.
   */
  lemma LookupIsDeclared<U>(ds: seq<Declaration<U>>, d: Declaration<U>)
    requires Distinct(ds)
    ensures var t := DeclareAll(ds).tables;
            && (d in ds && d.OnTransition? ==>
                  NextState(t, d.state, d.event) == d.next && TransitionAction(t, d.state, d.event) == d.action)
            && (!Declared(ds, d) && d.OnTransition? ==>
                  NextState(t, d.state, d.event) == d.state && TransitionAction(t, d.state, d.event) == None)
            && (d in ds && d.OnEnter? ==> StateCallback(t.enters, d.state) == d.callback)
            && (!Declared(ds, d) && d.OnEnter? ==> StateCallback(t.enters, d.state) == None)
            && (d in ds && d.OnLeave? ==> StateCallback(t.leaves, d.state) == d.callback)
            && (!Declared(ds, d) && d.OnLeave? ==> StateCallback(t.leaves, d.state) == None)
  {
    OccupiedIffDeclared(ds, d);
    if d in ds {
      var i :| 0 <= i < |ds| && ds[i] == d;
      DistinctAllStored(ds, i);
    }
  }

  /** What a callback, if there is one, makes of the data: it is handed the current state and an argument. */
  function Ran<U>(cb: Option<Callback<U>>, u: U, seen: uint32, arg: uint32): Outcome<U> {
    match cb case None => Outcome(u, []) case Some(f) => f(u, seen, arg)
  }

  ghost predicate EnterIs<U>(ds: seq<Declaration<U>>, s: uint32, cb: Option<Callback<U>>) {
    OnEnter(s, cb) in ds || (cb == None && !Declared(ds, OnEnter(s, None)))
  }

  ghost predicate LeaveIs<U>(ds: seq<Declaration<U>>, s: uint32, cb: Option<Callback<U>>) {
    OnLeave(s, cb) in ds || (cb == None && !Declared(ds, OnLeave(s, None)))
  }

  /**
   From the declarations to one handled event: the action declared for (s, e) runs first and sees the old state s;
   if the state changes, the leave callback declared for s and the enter callback declared for the new state n
   follow, both see n, and each works on what the one before left; what they schedule is queued in that order.
   */
  lemma DeclaredCallbacksRun<U>(ds: seq<Declaration<U>>, s: uint32, e: uint32, n: uint32, action: Option<Callback<U>>,
                                leave: Option<Callback<U>>, enter: Option<Callback<U>>, u: U)
    requires Distinct(ds) && OnTransition(s, e, n, action) in ds && LeaveIs(ds, s, leave) && EnterIs(ds, n, enter)
    ensures var t := DeclareAll(ds).tables;
            var f := Process(t, s, u, e);
            var acted := Ran(action, u, s, e);
            var left := if n == s then Outcome(acted.user, []) else Ran(leave, acted.user, n, s);
            var entered := if n == s then Outcome(left.user, []) else Ran(enter, left.user, n, n);
            && NextState(t, s, e) == n
            && f.user == entered.user && f.scheds == acted.scheds + left.scheds + entered.scheds
            && f.calls == (if action.Some? then [Act(s, e)] else [])
                          + (if n != s && leave.Some? then [Leave(n, s)] else [])
                          + (if n != s && enter.Some? then [Enter(n, n)] else [])
  {
    hide DeclareAll, Distinct, Declared, NextState, TransitionAction, StateCallback;
    LookupIsDeclared(ds, OnTransition(s, e, n, action));
    LookupIsDeclared(ds, OnLeave(s, leave));
    LookupIsDeclared(ds, OnEnter(n, enter));
  }

  /** An event nobody declared for the state runs nothing and changes nothing. */
  lemma UndeclaredIsIgnored<U>(ds: seq<Declaration<U>>, s: uint32, e: uint32, u: U)
    requires Distinct(ds) && !Declared(ds, OnTransition(s, e, s, None))
    ensures var t := DeclareAll(ds).tables;
            NextState(t, s, e) == s && Process(t, s, u, e) == Fired(u, [], [])
  {
    hide DeclareAll, Distinct, Declared, NextState, TransitionAction;
    LookupIsDeclared(ds, OnTransition(s, e, s, None));
  }

  // Calls a client makes on a builder, in any order.
  datatype BuilderCall<!U> = Make(d: Declaration<U>) | BuildIt

  function Perform<U>(b: State<U>, call: BuilderCall<U>): State<U> {
    match call case Make(d) => Declare(b, d) case BuildIt => AfterBuild(b)
  }

  function PerformAll<U>(b: State<U>, calls: seq<BuilderCall<U>>): State<U>
    decreases |calls|
  {
    if calls == [] then b else PerformAll(Perform(b, calls[0]), calls[1..])
  }

  lemma {:induction false} SpoiltStaysSpoilt<U>(b: State<U>, calls: seq<BuilderCall<U>>)
    requires !b.valid
    ensures !PerformAll(b, calls).valid
    decreases |calls|
  {
    if calls != [] {
      SpoiltStaysSpoilt(Perform(b, calls[0]), calls[1..]);
    }
  }

  /** The first build succeeds iff the declarations before it are distinct; no build after it ever does. */
  lemma FirstBuildOnly<U>(ds: seq<Declaration<U>>, later: seq<BuilderCall<U>>)
    ensures DeclareAll(ds).valid <==> Distinct(ds)
    ensures !PerformAll(AfterBuild(DeclareAll(ds)), later).valid
  {
    ValidIffDistinct(ds);
    SpoiltStaysSpoilt(AfterBuild(DeclareAll(ds)), later);
  }

  // ------------------------------------------------------------------------------------------

  class FiniteStateMachineBuilder<!U> {
    var transitionMap: map<uint64, Transition<U>>
    var enterMap: map<uint32, Option<Callback<U>>>
    var leaveMap: map<uint32, Option<Callback<U>>>
    var valid: bool

    ghost function AsState(): State<U>
      reads this
    {
      State(Tables(transitionMap, enterMap, leaveMap), valid)
    }

    constructor ()
      ensures AsState() == New()
    {
      transitionMap, enterMap, leaveMap, valid := map[], map[], map[], true;
    }

    method MakeTransition(state: uint32, event: uint32, nextState: uint32, action: Option<Callback<U>>)
      modifies this
      ensures AsState() == Declare(old(AsState()), OnTransition(state, event, nextState, action))
    {
      var key := GetTransitionIndex(state, event);
      if key in transitionMap {
        valid := false;
      } else {
        transitionMap := transitionMap[key := Transition(nextState, action)];
      }
    }

    method MakeOnStateEnter(state: uint32, action: Option<Callback<U>>)
      modifies this
      ensures AsState() == Declare(old(AsState()), OnEnter(state, action))
    {
      if state in enterMap {
        valid := false;
      } else {
        enterMap := enterMap[state := action];
      }
    }

    method MakeOnStateLeave(state: uint32, action: Option<Callback<U>>)
      modifies this
      ensures AsState() == Declare(old(AsState()), OnLeave(state, action))
    {
      if state in leaveMap {
        valid := false;
      } else {
        leaveMap := leaveMap[state := action];
      }
    }

    /** The tables of the machine, unless the builder was spoilt. */
    method Build() returns (tables: Option<Tables<U>>)
      modifies this
      ensures tables == if old(valid) then Some(old(AsState().tables)) else None
      ensures AsState() == AfterBuild(old(AsState()))
    {
      if !valid {
        return None;
      }
      valid := false;
      tables := Some(Tables(transitionMap, enterMap, leaveMap));
      transitionMap, enterMap, leaveMap := map[], map[], map[];
    }
  }
}
