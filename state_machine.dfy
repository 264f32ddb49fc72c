/** Scripts/StateMachine.cs: a state machine whose states are identified by number and whose
    calls into those states (OnExitState, OnEnterState, UpdateState) are recorded in order.
    A transition's condition is a closure over the game; CheckTransitions receives the values
    the conditions evaluate to, one per transition, in the order they are evaluated. */
module StateMachines {
  import opened Wrappers

  type StateId = nat

  /** A transition to a target state. One built without a condition has the condition
      () => false and fires only through Trigger. */
  datatype Transition = Transition(to: StateId, conditional: bool)

  /** A call the machine makes on one of its states. */
  datatype Call =
    | Exit(state: StateId, next: StateId)
    | Enter(state: StateId, prev: Option<StateId>)
    | UpdateState(state: StateId)

  /** The calls of one ChangeState: OnExitState(to) on the old state when there is one, then
      OnEnterState(old) on the new state. */
  function SwitchCalls(from: Option<StateId>, to: StateId): (r: seq<Call>)
    ensures 1 <= |r| <= 2 && r[|r| - 1] == Enter(to, from)
    ensures from.Some? <==> |r| == 2
    ensures from.Some? ==> r[0] == Exit(from.value, to)
    ensures from.None? ==> |r| == 1
  {
    (if from.Some? then [Exit(from.value, to)] else []) + [Enter(to, from)]
  }

  /** Whether the condition of a transition evaluates to true. */
  predicate Holds(t: Transition, value: bool) { t.conditional && value }

  /** The targets CheckTransitions triggers, in order: every transition whose condition holds. */
  function Fired(ts: seq<Transition>, values: seq<bool>): (r: seq<StateId>)
    requires |values| == |ts|
    ensures |r| <= |ts|
  {
    if |ts| == 0 then []
    else
      var n := |ts| - 1;
      Fired(ts[..n], values[..n]) + (if Holds(ts[n], values[n]) then [ts[n].to] else [])
  }

  /** The state after switching to each of targets in turn. */
  function LastOr(from: Option<StateId>, targets: seq<StateId>): Option<StateId> {
    if |targets| == 0 then from else Some(targets[|targets| - 1])
  }

  /** The calls of switching to each of targets in turn. */
  function ChainCalls(from: Option<StateId>, targets: seq<StateId>): seq<Call> {
    if |targets| == 0 then []
    else
      var n := |targets| - 1;
      ChainCalls(from, targets[..n]) + SwitchCalls(LastOr(from, targets[..n]), targets[n])
  }

  /** A pass over one more transition fires what the shorter pass fired, then that
      transition if its condition holds. */
  lemma FiredPrefix(ts: seq<Transition>, values: seq<bool>, i: nat)
    requires |values| == |ts| && i < |ts|
    ensures Fired(ts[..i + 1], values[..i + 1])
      == Fired(ts[..i], values[..i]) + (if Holds(ts[i], values[i]) then [ts[i].to] else [])
  {
    assert ts[..i + 1][..i] == ts[..i] && values[..i + 1][..i] == values[..i];
  }

  /** Switching to one more target ends in it, after that switch's calls. */
  lemma ChainAppend(from: Option<StateId>, targets: seq<StateId>, x: StateId)
    ensures LastOr(from, targets + [x]) == Some(x)
    ensures ChainCalls(from, targets + [x]) == ChainCalls(from, targets) + SwitchCalls(LastOr(from, targets), x)
  {
    assert (targets + [x])[..|targets|] == targets;
  }

  lemma AppendAssoc<T>(a: seq<T>, b: seq<T>, c: seq<T>)
    ensures a + b + c == a + (b + c)
  {
  }

  /** Every transition whose condition holds fires, not only the first one. */
  lemma {:induction false} EveryHoldingTransitionFires(ts: seq<Transition>, values: seq<bool>, i: nat)
    requires |values| == |ts| && i < |ts| && Holds(ts[i], values[i])
    ensures ts[i].to in Fired(ts, values)
    decreases |ts|
  {
    var n := |ts| - 1;
    if i < n {
      assert ts[..n][i] == ts[i] && values[..n][i] == values[i];
      EveryHoldingTransitionFires(ts[..n], values[..n], i);
    }
  }

  /** Only transitions whose condition holds fire; in particular a transition built without a
      condition never fires from CheckTransitions. */
  lemma {:induction false} OnlyHoldingTransitionsFire(ts: seq<Transition>, values: seq<bool>, k: nat)
    requires |values| == |ts| && k < |Fired(ts, values)|
    ensures exists i :: 0 <= i < |ts| && Holds(ts[i], values[i]) && ts[i].to == Fired(ts, values)[k]
    decreases |ts|
  {
    var n := |ts| - 1;
    var prefix := Fired(ts[..n], values[..n]);
    if k < |prefix| {
      OnlyHoldingTransitionsFire(ts[..n], values[..n], k);
      var i :| 0 <= i < n && Holds(ts[..n][i], values[..n][i]) && ts[..n][i].to == prefix[k];
      assert ts[i] == ts[..n][i] && values[i] == values[..n][i];
    } else {
      assert Holds(ts[n], values[n]) && Fired(ts, values)[k] == ts[n].to;
    }
  }

  /** A state whose transitions were all built without a condition never leaves through
      CheckTransitions. */
  lemma {:induction false} TriggerOnlyNeverFires(ts: seq<Transition>, values: seq<bool>)
    requires |values| == |ts|
    requires forall i :: 0 <= i < |ts| ==> !ts[i].conditional
    ensures Fired(ts, values) == []
    decreases |ts|
  {
    if |ts| > 0 {
      var n := |ts| - 1;
      assert forall i :: 0 <= i < n ==> ts[..n][i] == ts[i];
      TriggerOnlyNeverFires(ts[..n], values[..n]);
    }
  }

  class StateMachine {
    var current: Option<StateId>
    var defaultState: Option<StateId>
    var states: seq<StateId>
    var transitions: map<StateId, seq<Transition>>
    /** Calls made on the states so far, oldest first. */
    var calls: seq<Call>

    constructor()
      ensures current == None && defaultState == None
      ensures states == [] && transitions == map[] && calls == []
    {
      current := None;
      defaultState := None;
      states := [];
      transitions := map[];
      calls := [];
    }

    /** The transitions added to state s, in the order they were added. */
    function TransitionsOf(s: StateId): seq<Transition>
      reads this
    {
      if s in transitions then transitions[s] else []
    }

    method ChangeState(s: StateId)
      modifies this
      ensures current == Some(s)
      ensures calls == old(calls) + SwitchCalls(old(current), s)
      ensures defaultState == old(defaultState) && states == old(states)
      ensures transitions == old(transitions)
    {
      if current.Some? {
        calls := calls + [Exit(current.value, s)];
      }
      var previous := current;
      current := Some(s);
      calls := calls + [Enter(s, previous)];
    }

    /** Calls UpdateState on the current state once, or does nothing without one. */
    method Update()
      modifies this
      ensures calls == old(calls) + (if current.Some? then [UpdateState(current.value)] else [])
      ensures current == old(current) && defaultState == old(defaultState)
      ensures states == old(states) && transitions == old(transitions)
    {
      if current.Some? {
        calls := calls + [UpdateState(current.value)];
      }
    }

    method AddState(s: StateId)
      modifies this
      ensures states == old(states) + [s]
      ensures current == old(current) && defaultState == old(defaultState)
      ensures transitions == old(transitions) && calls == old(calls)
    {
      states := states + [s];
    }

    /** State.AddTransition, in all three overloads: the transition is appended to the list of
        the state it leaves. */
    method AddTransition(from: StateId, t: Transition)
      modifies this
      ensures TransitionsOf(from) == old(TransitionsOf(from)) + [t]
      ensures forall s :: s != from ==> TransitionsOf(s) == old(TransitionsOf(s))
      ensures current == old(current) && defaultState == old(defaultState)
      ensures states == old(states) && calls == old(calls)
    {
      transitions := transitions[from := TransitionsOf(from) + [t]];
    }

    /** Switches to the default state. Despite the comment in the source, the state left is
        sent OnExitState, so this is ChangeState(defaultState). The source dereferences both
        the current and the default state, so both must exist. */
    method Reset()
      requires current.Some? && defaultState.Some?
      modifies this
      ensures current == old(defaultState)
      ensures calls == old(calls) + SwitchCalls(old(current), old(defaultState).value)
      ensures defaultState == old(defaultState) && states == old(states)
      ensures transitions == old(transitions)
    {
      ChangeState(defaultState.value);
    }

    method SetDefaultState(s: StateId)
      modifies this
      ensures defaultState == Some(s)
      ensures current == old(current) && states == old(states)
      ensures transitions == old(transitions) && calls == old(calls)
    {
      defaultState := Some(s);
    }

    /** Transition.Trigger. */
    method Trigger(t: Transition)
      modifies this
      ensures current == Some(t.to)
      ensures calls == old(calls) + SwitchCalls(old(current), t.to)
      ensures defaultState == old(defaultState) && states == old(states)
      ensures transitions == old(transitions)
    {
      ChangeState(t.to);
    }

    /** State.CheckTransitions on state s: goes through its transitions in insertion order and
        triggers each whose condition holds, without stopping after the first. */
    method CheckTransitions(s: StateId, values: seq<bool>)
      requires |values| == |TransitionsOf(s)|
      modifies this
      ensures var fired := Fired(old(TransitionsOf(s)), values);
        && current == LastOr(old(current), fired)
        && calls == old(calls) + ChainCalls(old(current), fired)
      ensures defaultState == old(defaultState) && states == old(states)
      ensures transitions == old(transitions)
    {
      var ts := TransitionsOf(s);
      ghost var start := current;
      ghost var fired: seq<StateId> := [];
      for i := 0 to |ts|
        invariant transitions == old(transitions)
        invariant defaultState == old(defaultState) && states == old(states)
        invariant fired == Fired(ts[..i], values[..i])
        invariant current == LastOr(start, fired)
        invariant calls == old(calls) + ChainCalls(start, fired)
      {
        FiredPrefix(ts, values, i);
        if Holds(ts[i], values[i]) {
          ChainAppend(start, fired, ts[i].to);
          Trigger(ts[i]);
          AppendAssoc(old(calls), ChainCalls(start, fired), SwitchCalls(LastOr(start, fired), ts[i].to));
          fired := fired + [ts[i].to];
        } else {
          assert fired + [] == fired;
        }
      }
      assert ts[..|ts|] == ts && values[..|ts|] == values;
    }
  }
}
