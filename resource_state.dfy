/**
 * The resource lifecycle: four states, three operations, and the transition table that the
 * four state classes (CreatedState, RunningState, StoppedState, DeletedState) spread over
 * their start/stop/delete methods. A legal operation makes the resource move to a new state
 * (through set_state); an illegal one raises ValueError and leaves the resource alone.
 */
module ResourceState {
  import opened Wrappers

  datatype State = Created | Running | Stopped | Deleted

  datatype Op = Start | Stop | Delete

  /** The ValueError a state raises, with the state it was raised in, the operation and its text. */
  datatype TransitionError = IllegalTransition(state: State, op: Op, message: string)

  /** What a lifecycle call on a resource does as seen by its caller: it returns, or it raises. */
  datatype Outcome = Pass | Fail(error: TransitionError)

  /** get_state_name of each state class. */
  function StateName(s: State): (r: string)
    ensures r == "CREATED" <==> s == Created
    ensures r == "RUNNING" <==> s == Running
    ensures r == "STOPPED" <==> s == Stopped
    ensures r == "DELETED" <==> s == Deleted
  {
    match s
    case Created => "CREATED"
    case Running => "RUNNING"
    case Stopped => "STOPPED"
    case Deleted => "DELETED"
  }

  /** The four state names are pairwise distinct, so a name identifies its state. */
  lemma StateNameInjective(s: State, t: State)
    requires StateName(s) == StateName(t)
    ensures s == t
  {
    assert StateName(s)[0] == StateName(t)[0];
    if s == Running || s == Stopped {
      assert StateName(s)[1] == StateName(t)[1];
    }
  }

  /**
   * The state method called for `op` in state `s`: Ok(next) when it calls set_state(next),
   * Err when it raises. The ensures clauses give the table by its target state: a resource
   * never returns to CREATED, reaches RUNNING only by start from CREATED or STOPPED, STOPPED only
   * by stop from RUNNING, and DELETED only by delete from CREATED or STOPPED.
   */
  function Transition(s: State, op: Op): (r: Result<State, TransitionError>)
    ensures r.Err? ==> r.error.state == s && r.error.op == op
    ensures s == Deleted ==> r.Err?
    ensures r != Ok(Created)
    ensures r == Ok(Running) <==> op == Start && (s == Created || s == Stopped)
    ensures r == Ok(Stopped) <==> op == Stop && s == Running
    ensures r == Ok(Deleted) <==> op == Delete && (s == Created || s == Stopped)
  {
    match (s, op)
    case (Created, Start) => Ok(Running)
    case (Created, Stop) => Err(IllegalTransition(s, op, "Cannot stop a resource that hasn't been started"))
    case (Created, Delete) => Ok(Deleted)
    case (Running, Start) => Err(IllegalTransition(s, op, "Resource is already running"))
    case (Running, Stop) => Ok(Stopped)
    case (Running, Delete) => Err(IllegalTransition(s, op, "Cannot delete a running resource. Stop it first"))
    case (Stopped, Start) => Ok(Running)
    case (Stopped, Stop) => Err(IllegalTransition(s, op, "Resource is already stopped"))
    case (Stopped, Delete) => Ok(Deleted)
    case (Deleted, Start) => Err(IllegalTransition(s, op, "Cannot start a deleted resource"))
    case (Deleted, Stop) => Err(IllegalTransition(s, op, "Cannot stop a deleted resource"))
    case (Deleted, Delete) => Err(IllegalTransition(s, op, "Resource is already deleted"))
  }

  /** An operation is legal in a state exactly when the table has an entry for it. */
  predicate Legal(s: State, op: Op) {
    Transition(s, op).Ok?
  }

  /** The state a resource is in after the call: the new state, or the old one if the call raised. */
  function Step(s: State, op: Op): (r: State)
    ensures Legal(s, op) ==> r == Transition(s, op).value
    ensures !Legal(s, op) ==> r == s
  {
    match Transition(s, op)
    case Ok(next) => next
    case Err(_) => s
  }

  /** The caller's view of a call: it returned, or it raised this error. */
  function OutcomeOf(r: Result<State, TransitionError>): (o: Outcome)
    ensures o.Pass? <==> r.Ok?
    ensures r.Err? ==> o == Fail(r.error)
  {
    match r
    case Ok(_) => Pass
    case Err(e) => Fail(e)
  }

  /** The state after a caller issues `ops` in order, catching each ValueError and carrying on. */
  function Run(s: State, ops: seq<Op>): State
    decreases |ops|
  {
    if ops == [] then s else Run(Step(s, ops[0]), ops[1..])
  }

  /** DELETED is terminal: no sequence of operations leaves it. */
  lemma {:induction false} DeletedIsTerminal(ops: seq<Op>)
    ensures Run(Deleted, ops) == Deleted
    decreases |ops|
  {
    if ops != [] {
      DeletedIsTerminal(ops[1..]);
    }
  }

  /** Once a resource has left CREATED it never comes back to it. */
  lemma {:induction false} NeverBackToCreated(s: State, ops: seq<Op>)
    requires s != Created
    ensures Run(s, ops) != Created
    decreases |ops|
  {
    if ops != [] {
      NeverBackToCreated(Step(s, ops[0]), ops[1..]);
    }
  }

  /**
   * A running resource cannot be deleted directly: every run from RUNNING that ends in DELETED
   * passes through STOPPED first.
   */
  lemma {:induction false} DeletingRunningGoesThroughStopped(ops: seq<Op>)
    requires Run(Running, ops) == Deleted
    ensures exists k :: 0 < k <= |ops| && Run(Running, ops[..k]) == Stopped
    decreases |ops|
  {
    assert ops != [];
    if ops[0] == Stop {
      assert ops[..1][1..] == [];
      assert Run(Running, ops[..1]) == Stopped;
    } else {
      assert Step(Running, ops[0]) == Running;
      DeletingRunningGoesThroughStopped(ops[1..]);
      var k :| 0 < k <= |ops[1..]| && Run(Running, ops[1..][..k]) == Stopped;
      assert ops[..k + 1][1..] == ops[1..][..k];
      assert Run(Running, ops[..k + 1]) == Stopped;
    }
  }

  /** Every state can be reached from CREATED. */
  lemma EveryStateReachable(s: State)
    ensures exists ops :: Run(Created, ops) == s
  {
    match s
    case Created => assert Run(Created, []) == Created;
    case Running => assert Run(Created, [Start]) == Running;
    case Stopped => assert Run(Created, [Start, Stop]) == Stopped;
    case Deleted => assert Run(Created, [Delete]) == Deleted;
  }
}
