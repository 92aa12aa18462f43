/**
 * Forwarding wrappers around a resource. A ResourceDecorator copies the wrapped object's id,
 * name and current state object at construction and forwards every operation to it; a
 * LoggingDecorator additionally writes an "Attempting" line before the forwarded call and a
 * "Successfully" or "Failed" line after it, re-raising the error. Wrappers may wrap wrappers.
 *
 * Python's duck typing lets a wrapper hold either a bare resource or another wrapper; here
 * that choice is the datatype Handle. A wrapper never changes what it wraps, so the chain is
 * made of constants, and each wrapper records its depth in the chain to make recursion over
 * the chain terminate.
 */
module ResourceDecorators {
  import opened PyValues
  import opened ResourceState
  import opened CloudResources

  /** Standard output, where LoggingDecorator prints its lines (timestamps are not modelled). */
  class Console {
    var lines: seq<string>

    constructor ()
      ensures lines == []
    {
      lines := [];
    }

    method Log(message: string)
      modifies this
      ensures lines == old(lines) + [message]
    {
      lines := lines + [message];
    }
  }

  /** Anything that offers the resource operations: a bare resource or a wrapper around one. */
  datatype Handle = Bare(resource: CloudResource) | Plain(plain: ResourceDecorator) | Logged(logged: LoggingDecorator)

  function Depth(h: Handle): nat {
    match h
    case Bare(_) => 0
    case Plain(d) => d.depth
    case Logged(d) => d.depth
  }

  /** The `id` attribute of whatever the handle refers to. */
  function HandleId(h: Handle): Value {
    match h
    case Bare(r) => r.id
    case Plain(d) => d.id
    case Logged(d) => d.id
  }

  /** The `name` attribute of whatever the handle refers to. */
  function HandleName(h: Handle): Value {
    match h
    case Bare(r) => r.name
    case Plain(d) => d.name
    case Logged(d) => d.name
  }

  /** The `current_state` attribute: live on a bare resource, the copied snapshot on a wrapper. */
  function CurrentStateAttribute(h: Handle): State
    reads if h.Bare? then {h.resource} else {}
  {
    match h
    case Bare(r) => r.currentState
    case Plain(d) => d.currentState
    case Logged(d) => d.currentState
  }

  /** Every wrapper in the chain is deeper than what it wraps and copied its id and name. */
  predicate WellFormed(h: Handle)
    decreases Depth(h)
  {
    match h
    case Bare(_) => true
    case Plain(d) =>
      Depth(d.wrapped) < d.depth && d.id == HandleId(d.wrapped) && d.name == HandleName(d.wrapped) && WellFormed(d.wrapped)
    case Logged(d) =>
      Depth(d.wrapped) < d.depth && d.id == HandleId(d.wrapped) && d.name == HandleName(d.wrapped) && WellFormed(d.wrapped)
  }

  /** The bare resource at the bottom of the chain. */
  function Innermost(h: Handle): CloudResource
    requires WellFormed(h)
    decreases Depth(h)
  {
    match h
    case Bare(r) => r
    case Plain(d) => Innermost(d.wrapped)
    case Logged(d) => Innermost(d.wrapped)
  }

  /** The innermost resource of a chain that exists is itself an existing object. */
  lemma {:induction false} InnermostAllocated(h: Handle)
    requires WellFormed(h)
    ensures allocated(Innermost(h))
    decreases Depth(h)
  {
    match h
    case Bare(_) =>
    case Plain(d) => InnermostAllocated(d.wrapped);
    case Logged(d) => InnermostAllocated(d.wrapped);
  }

  /** A wrapper's id and name are those of the innermost resource, however deep the stack. */
  lemma {:induction false} WrappedIdentity(h: Handle)
    requires WellFormed(h)
    ensures HandleId(h) == Innermost(h).id && HandleName(h) == Innermost(h).name
    decreases Depth(h)
  {
    match h
    case Bare(_) =>
    case Plain(d) => WrappedIdentity(d.wrapped);
    case Logged(d) => WrappedIdentity(d.wrapped);
  }

  function Verb(op: Op): string {
    match op
    case Start => "start"
    case Stop => "stop"
    case Delete => "delete"
  }

  function PastTense(op: Op): string {
    match op
    case Start => "started"
    case Stop => "stopped"
    case Delete => "deleted"
  }

  function AttemptMessage(op: Op, name: Value): string {
    "Attempting to " + Verb(op) + " resource: " + Render(name)
  }

  /** The line LoggingDecorator writes after the forwarded call returned or raised. */
  function ResultMessage(op: Op, name: Value, outcome: Outcome): string {
    match outcome
    case Pass => "Successfully " + PastTense(op) + " resource: " + Render(name)
    case Fail(e) => "Failed to " + Verb(op) + " resource: " + Render(name) + " - " + e.message
  }

  /** The lines one forwarded operation writes: each logging layer brackets the layers inside it. */
  function Trace(h: Handle, op: Op, outcome: Outcome): seq<string>
    requires WellFormed(h)
    decreases Depth(h)
  {
    match h
    case Bare(_) => []
    case Plain(d) => Trace(d.wrapped, op, outcome)
    case Logged(d) => [AttemptMessage(op, d.name)] + Trace(d.wrapped, op, outcome) + [ResultMessage(op, d.name, outcome)]
  }

  /** The number of LoggingDecorators in the chain. */
  function LoggingLayers(h: Handle): nat
    requires WellFormed(h)
    decreases Depth(h)
  {
    match h
    case Bare(_) => 0
    case Plain(d) => LoggingLayers(d.wrapped)
    case Logged(d) => LoggingLayers(d.wrapped) + 1
  }

  /** Every logging layer writes exactly two lines per operation, whatever the outcome. */
  lemma {:induction false} TraceLength(h: Handle, op: Op, outcome: Outcome)
    requires WellFormed(h)
    ensures |Trace(h, op, outcome)| == 2 * LoggingLayers(h)
    decreases Depth(h)
  {
    match h
    case Bare(_) =>
    case Plain(d) => TraceLength(d.wrapped, op, outcome);
    case Logged(d) => TraceLength(d.wrapped, op, outcome);
  }

  /**
   * The operation `op` on a handle: it reaches the innermost resource, which moves exactly as
   * if it had been called directly, and the caller sees the same return or the same error.
   */
  method Forward(h: Handle, op: Op, console: Console) returns (outcome: Outcome)
    requires WellFormed(h)
    modifies Innermost(h), console
    ensures outcome == OutcomeOf(Transition(old(Innermost(h).currentState), op))
    ensures Innermost(h).currentState == Step(old(Innermost(h).currentState), op)
    ensures console.lines == old(console.lines) + Trace(h, op, outcome)
    decreases Depth(h), 1
  {
    match h
    case Bare(r) =>
      match op {
        case Start => outcome := r.Start();
        case Stop => outcome := r.Stop();
        case Delete => outcome := r.Delete();
      }
    case Plain(d) => outcome := d.Perform(op, console);
    case Logged(d) => outcome := d.Perform(op, console);
  }

  /** set_state on a handle: the innermost resource takes exactly the given state. */
  method ForwardSetState(h: Handle, state: State)
    requires WellFormed(h)
    modifies Innermost(h)
    ensures Innermost(h).currentState == state
    decreases Depth(h), 1
  {
    match h
    case Bare(r) => r.SetState(state);
    case Plain(d) => d.SetState(state);
    case Logged(d) => d.SetState(state);
  }

  /** get_state on a handle: always the innermost resource's state name. */
  function HandleState(h: Handle): (r: string)
    requires WellFormed(h)
    reads Innermost(h)
    ensures r == StateName(Innermost(h).currentState)
    decreases Depth(h), 1
  {
    match h
    case Bare(res) => res.GetState()
    case Plain(d) => d.GetState()
    case Logged(d) => d.GetState()
  }

  /** get_details on a handle: always the innermost resource's details. */
  function HandleDetails(h: Handle): (r: string)
    requires WellFormed(h)
    reads Innermost(h)
    ensures r == Innermost(h).GetDetails()
    decreases Depth(h), 1
  {
    match h
    case Bare(res) => res.GetDetails()
    case Plain(d) => d.GetDetails()
    case Logged(d) => d.GetDetails()
  }

  class ResourceDecorator {
    const wrapped: Handle
    const id: Value
    const name: Value
    const currentState: State  // copied at construction; never updated and never consulted
    const depth: nat

    predicate Valid() {
      WellFormed(Plain(this))
    }

    constructor (inner: Handle)
      requires WellFormed(inner)
      ensures Valid() && wrapped == inner
      ensures id == HandleId(inner) && name == HandleName(inner)
      ensures currentState == old(CurrentStateAttribute(inner))
    {
      wrapped := inner;
      id := HandleId(inner);
      name := HandleName(inner);
      currentState := CurrentStateAttribute(inner);
      depth := Depth(inner) + 1;
    }

    /** The forwarding body shared by start, stop and delete. */
    method Perform(op: Op, console: Console) returns (outcome: Outcome)
      requires Valid()
      modifies Innermost(wrapped), console
      ensures outcome == OutcomeOf(Transition(old(Innermost(wrapped).currentState), op))
      ensures Innermost(wrapped).currentState == Step(old(Innermost(wrapped).currentState), op)
      ensures console.lines == old(console.lines) + Trace(wrapped, op, outcome)
      decreases depth, 0
    {
      outcome := Forward(wrapped, op, console);
    }

    method Start(console: Console) returns (outcome: Outcome)
      requires Valid()
      modifies Innermost(wrapped), console
      ensures outcome == OutcomeOf(Transition(old(Innermost(wrapped).currentState), Op.Start))
      ensures Innermost(wrapped).currentState == Step(old(Innermost(wrapped).currentState), Op.Start)
      ensures console.lines == old(console.lines) + Trace(wrapped, Op.Start, outcome)
    {
      outcome := Perform(Op.Start, console);
    }

    method Stop(console: Console) returns (outcome: Outcome)
      requires Valid()
      modifies Innermost(wrapped), console
      ensures outcome == OutcomeOf(Transition(old(Innermost(wrapped).currentState), Op.Stop))
      ensures Innermost(wrapped).currentState == Step(old(Innermost(wrapped).currentState), Op.Stop)
      ensures console.lines == old(console.lines) + Trace(wrapped, Op.Stop, outcome)
    {
      outcome := Perform(Op.Stop, console);
    }

    method Delete(console: Console) returns (outcome: Outcome)
      requires Valid()
      modifies Innermost(wrapped), console
      ensures outcome == OutcomeOf(Transition(old(Innermost(wrapped).currentState), Op.Delete))
      ensures Innermost(wrapped).currentState == Step(old(Innermost(wrapped).currentState), Op.Delete)
      ensures console.lines == old(console.lines) + Trace(wrapped, Op.Delete, outcome)
    {
      outcome := Perform(Op.Delete, console);
    }

    method SetState(state: State)
      requires Valid()
      modifies Innermost(wrapped)
      ensures Innermost(wrapped).currentState == state
      decreases depth, 0
    {
      ForwardSetState(wrapped, state);
    }

    function GetState(): (r: string)
      requires Valid()
      reads Innermost(wrapped)
      ensures r == StateName(Innermost(wrapped).currentState)
      decreases depth, 0
    {
      HandleState(wrapped)
    }

    function GetDetails(): (r: string)
      requires Valid()
      reads Innermost(wrapped)
      ensures r == Innermost(wrapped).GetDetails()
      decreases depth, 0
    {
      HandleDetails(wrapped)
    }
  }

  class LoggingDecorator {
    const wrapped: Handle
    const id: Value
    const name: Value
    const currentState: State  // copied at construction; never updated and never consulted
    const depth: nat

    predicate Valid() {
      WellFormed(Logged(this))
    }

    constructor (inner: Handle)
      requires WellFormed(inner)
      ensures Valid() && wrapped == inner
      ensures id == HandleId(inner) && name == HandleName(inner)
      ensures currentState == old(CurrentStateAttribute(inner))
    {
      wrapped := inner;
      id := HandleId(inner);
      name := HandleName(inner);
      currentState := CurrentStateAttribute(inner);
      depth := Depth(inner) + 1;
    }

    /** The try/log/re-raise body shared by start, stop and delete. */
    method Perform(op: Op, console: Console) returns (outcome: Outcome)
      requires Valid()
      modifies Innermost(wrapped), console
      ensures outcome == OutcomeOf(Transition(old(Innermost(wrapped).currentState), op))
      ensures Innermost(wrapped).currentState == Step(old(Innermost(wrapped).currentState), op)
      ensures console.lines == old(console.lines) + [AttemptMessage(op, name)] + Trace(wrapped, op, outcome)
                               + [ResultMessage(op, name, outcome)]
      decreases depth, 0
    {
      InnermostAllocated(wrapped);
      console.Log(AttemptMessage(op, name));
      outcome := Forward(wrapped, op, console);
      console.Log(ResultMessage(op, name, outcome));
    }

    method Start(console: Console) returns (outcome: Outcome)
      requires Valid()
      modifies Innermost(wrapped), console
      ensures outcome == OutcomeOf(Transition(old(Innermost(wrapped).currentState), Op.Start))
      ensures Innermost(wrapped).currentState == Step(old(Innermost(wrapped).currentState), Op.Start)
      ensures console.lines == old(console.lines) + Trace(Logged(this), Op.Start, outcome)
    {
      outcome := Perform(Op.Start, console);
    }

    method Stop(console: Console) returns (outcome: Outcome)
      requires Valid()
      modifies Innermost(wrapped), console
      ensures outcome == OutcomeOf(Transition(old(Innermost(wrapped).currentState), Op.Stop))
      ensures Innermost(wrapped).currentState == Step(old(Innermost(wrapped).currentState), Op.Stop)
      ensures console.lines == old(console.lines) + Trace(Logged(this), Op.Stop, outcome)
    {
      outcome := Perform(Op.Stop, console);
    }

    method Delete(console: Console) returns (outcome: Outcome)
      requires Valid()
      modifies Innermost(wrapped), console
      ensures outcome == OutcomeOf(Transition(old(Innermost(wrapped).currentState), Op.Delete))
      ensures Innermost(wrapped).currentState == Step(old(Innermost(wrapped).currentState), Op.Delete)
      ensures console.lines == old(console.lines) + Trace(Logged(this), Op.Delete, outcome)
    {
      outcome := Perform(Op.Delete, console);
    }

    method SetState(state: State)
      requires Valid()
      modifies Innermost(wrapped)
      ensures Innermost(wrapped).currentState == state
      decreases depth, 0
    {
      ForwardSetState(wrapped, state);
    }

    function GetState(): (r: string)
      requires Valid()
      reads Innermost(wrapped)
      ensures r == StateName(Innermost(wrapped).currentState)
      decreases depth, 0
    {
      HandleState(wrapped)
    }

    function GetDetails(): (r: string)
      requires Valid()
      reads Innermost(wrapped)
      ensures r == Innermost(wrapped).GetDetails()
      decreases depth, 0
    {
      HandleDetails(wrapped)
    }
  }

  /**
   * A logging wrapper around a bare resource: a legal operation writes the attempt and the
   * success, an illegal one the attempt and the failure with the error's text.
   */
  lemma LoggedOperationLines(d: LoggingDecorator, op: Op, state: State)
    requires d.Valid() && d.wrapped.Bare?
    ensures var outcome := OutcomeOf(Transition(state, op));
            Trace(Logged(d), op, outcome)
            == if Legal(state, op)
               then ["Attempting to " + Verb(op) + " resource: " + Render(d.name),
                     "Successfully " + PastTense(op) + " resource: " + Render(d.name)]
               else ["Attempting to " + Verb(op) + " resource: " + Render(d.name),
                     "Failed to " + Verb(op) + " resource: " + Render(d.name) + " - " + Transition(state, op).error.message]
  {
  }

  /**
   * The state copied into a wrapper at construction goes stale: after a start through the
   * wrapper the copy still says CREATED while get_state reports RUNNING.
   */
  method SnapshotGoesStale(id: Value, name: Value) returns (snapshot: State, reported: string)
    ensures snapshot == Created && reported == "RUNNING"
  {
    var resource := new CloudResource.StorageAccount(id, name, Bool(true), Int(100));
    var wrapper := new ResourceDecorator(Bare(resource));
    var console := new Console();
    var _ := wrapper.Start(console);
    snapshot := wrapper.currentState;
    reported := wrapper.GetState();
  }
}
