/**
 * The resource entity: an id, a name, the type-specific fields of one of the three concrete
 * types (AppService, StorageAccount, CacheDB) and a current lifecycle state that start, stop
 * and delete update in place by delegating to the state's transition.
 */
module CloudResources {
  import opened PyValues
  import opened ResourceState

  /** The two cache eviction strategy classes; only their class names are ever observed. */
  datatype EvictionStrategy = LRUStrategy | FIFOStrategy {

    /** `strategy.__class__.__name__`. */
    function ClassName(): (r: string)
      ensures r == "LRUStrategy" <==> this == LRUStrategy
      ensures r == "FIFOStrategy" <==> this == FIFOStrategy
    {
      match this
      case LRUStrategy => "LRUStrategy"
      case FIFOStrategy => "FIFOStrategy"
    }
  }

  /** The attributes each concrete resource class adds to CloudResource. */
  datatype TypeFields =
    | AppServiceFields(runtime: Value, region: Value, replicaCount: Value)
    | StorageAccountFields(encryptionEnabled: Value, maxSizeGb: Value)
    | CacheDBFields(ttlSeconds: Value, capacityMb: Value, evictionPolicy: EvictionStrategy)

  /** The name of the concrete class, as get_details prints it. */
  function TypeName(fields: TypeFields): string {
    match fields
    case AppServiceFields(_, _, _) => "AppService"
    case StorageAccountFields(_, _) => "StorageAccount"
    case CacheDBFields(_, _, _) => "CacheDB"
  }

  /** StorageAccount's rendering of its encryption flag, by the flag's truthiness. */
  function EncryptionLabel(enabled: Value): (r: string)
    ensures r == "Enabled" <==> Truthy(enabled)
    ensures r == "Disabled" <==> !Truthy(enabled)
  {
    if Truthy(enabled) then "Enabled" else "Disabled"
  }

  /** First line of get_details: "<Type>[<id>]: <name>". */
  function Header(id: Value, name: Value, fields: TypeFields): string {
    TypeName(fields) + "[" + Render(id) + "]: " + Render(name)
  }

  /** Second line of get_details. */
  function StateLine(state: State): string {
    "  State: " + StateName(state)
  }

  /** The type-specific lines after the state line, joined by newlines. */
  function FieldLines(fields: TypeFields): string {
    match fields
    case AppServiceFields(runtime, region, replicas) =>
      "  Runtime: " + Render(runtime) + "\n" + "  Region: " + Render(region) + "\n" + "  Replicas: " + Render(replicas)
    case StorageAccountFields(enabled, maxSize) =>
      "  Encryption: " + EncryptionLabel(enabled) + "\n" + "  Max Size: " + Render(maxSize) + "GB"
    case CacheDBFields(ttl, capacity, eviction) =>
      "  TTL: " + Render(ttl) + "s\n" + "  Capacity: " + Render(capacity) + "MB\n" + "  Eviction: " + eviction.ClassName()
  }

  /** The pieces of `a + "\n" + b + "\n" + c` sit where they were put. */
  lemma Opening(a: string, b: string, c: string)
    ensures |a| + 1 + |b| <= |a + "\n" + b + "\n" + c|
    ensures (a + "\n" + b + "\n" + c)[..|a|] == a
    ensures (a + "\n" + b + "\n" + c)[|a|] == '\n'
    ensures (a + "\n" + b + "\n" + c)[|a| + 1..|a| + 1 + |b|] == b
  {
    var s := a + "\n" + b + "\n" + c;
    assert s == a + ("\n" + b + "\n" + c);
    assert s[|a| + 1..] == b + "\n" + c;
  }

  /**
   * get_details of a resource with these fields in this state: whatever the id and name hold,
   * it opens with the header, a newline and the state line.
   */
  function Details(id: Value, name: Value, fields: TypeFields, state: State): (r: string)
    ensures |Header(id, name, fields)| + 1 + |StateLine(state)| <= |r|
    ensures r[..|Header(id, name, fields)|] == Header(id, name, fields)
    ensures r[|Header(id, name, fields)|] == '\n'
    ensures r[|Header(id, name, fields)| + 1..|Header(id, name, fields)| + 1 + |StateLine(state)|] == StateLine(state)
  {
    Opening(Header(id, name, fields), StateLine(state), FieldLines(fields));
    Header(id, name, fields) + "\n" + StateLine(state) + "\n" + FieldLines(fields)
  }

  /** The header is a single line when the id and the name are. */
  lemma HeaderIsOneLine(id: Value, name: Value, fields: TypeFields)
    requires '\n' !in Render(id) && '\n' !in Render(name)
    ensures '\n' !in Header(id, name, fields)
  {
  }

  /** The state line is a single line. */
  lemma StateLineIsOneLine(state: State)
    ensures '\n' !in StateLine(state)
  {
  }

  /**
   * When neither the id nor the name contains a newline, the rendering splits into the header
   * line, the state line and then the type-specific lines.
   */
  lemma DetailsLines(id: Value, name: Value, fields: TypeFields, state: State)
    requires '\n' !in Render(id) && '\n' !in Render(name)
    ensures SplitLines(Details(id, name, fields, state))
            == [Header(id, name, fields), "  State: " + StateName(state)] + SplitLines(FieldLines(fields))
  {
    HeaderIsOneLine(id, name, fields);
    StateLineIsOneLine(state);
    SplitTwoLines(Header(id, name, fields), StateLine(state), FieldLines(fields));
  }

  /** Two strings that differ only in an equally long middle part agree on that part. */
  lemma SameMiddle(prefix: string, m1: string, m2: string, sep: string, rest: string)
    requires |m1| == |m2| && prefix + m1 + sep + rest == prefix + m2 + sep + rest
    ensures m1 == m2
  {
    assert m1 == (prefix + m1 + sep + rest)[|prefix|..|prefix| + |m1|];
    assert m2 == (prefix + m2 + sep + rest)[|prefix|..|prefix| + |m2|];
  }

  /** The rendering of one resource tells its states apart: equal details mean equal states. */
  lemma DetailsDetermineState(id: Value, name: Value, fields: TypeFields, s: State, t: State)
    ensures Details(id, name, fields, s) == Details(id, name, fields, t) <==> s == t
  {
    if Details(id, name, fields, s) == Details(id, name, fields, t) {
      SameMiddle(Header(id, name, fields) + "\n", StateLine(s), StateLine(t), "\n", FieldLines(fields));
      assert StateName(s) == StateLine(s)[9..];
      assert StateName(t) == StateLine(t)[9..];
      StateNameInjective(s, t);
    }
  }

  /**
   * CloudResource and its three subclasses. Python keeps id, name and the type fields as
   * attributes that nothing in the core ever reassigns; here they are constants, so no
   * lifecycle operation can change them.
   */
  class CloudResource {
    const id: Value
    const name: Value
    const fields: TypeFields
    var currentState: State

    constructor AppService(id: Value, name: Value, runtime: Value, region: Value, replicaCount: Value)
      ensures this.id == id && this.name == name
      ensures fields == AppServiceFields(runtime, region, replicaCount)
      ensures currentState == Created
    {
      this.id := id;
      this.name := name;
      fields := AppServiceFields(runtime, region, replicaCount);
      currentState := Created;
    }

    constructor StorageAccount(id: Value, name: Value, encryptionEnabled: Value, maxSizeGb: Value)
      ensures this.id == id && this.name == name
      ensures fields == StorageAccountFields(encryptionEnabled, maxSizeGb)
      ensures currentState == Created
    {
      this.id := id;
      this.name := name;
      fields := StorageAccountFields(encryptionEnabled, maxSizeGb);
      currentState := Created;
    }

    constructor CacheDB(id: Value, name: Value, ttlSeconds: Value, capacityMb: Value, evictionPolicy: EvictionStrategy)
      ensures this.id == id && this.name == name
      ensures fields == CacheDBFields(ttlSeconds, capacityMb, evictionPolicy)
      ensures currentState == Created
    {
      this.id := id;
      this.name := name;
      fields := CacheDBFields(ttlSeconds, capacityMb, evictionPolicy);
      currentState := Created;
    }

    /** set_state: the current state becomes exactly the given one. */
    method SetState(state: State)
      modifies this
      ensures currentState == state
    {
      currentState := state;
    }

    /** `self.current_state.<op>(self)`: the state either calls set_state or raises. */
    method Dispatch(op: Op) returns (outcome: Outcome)
      modifies this
      ensures outcome == OutcomeOf(Transition(old(currentState), op))
      ensures currentState == Step(old(currentState), op)
    {
      var next := Transition(currentState, op);
      if next.Ok? {
        SetState(next.value);
        outcome := Pass;
      } else {
        outcome := Fail(next.error);
      }
    }

    method Start() returns (outcome: Outcome)
      modifies this
      ensures outcome == OutcomeOf(Transition(old(currentState), Op.Start))
      ensures currentState == Step(old(currentState), Op.Start)
    {
      outcome := Dispatch(Op.Start);
    }

    method Stop() returns (outcome: Outcome)
      modifies this
      ensures outcome == OutcomeOf(Transition(old(currentState), Op.Stop))
      ensures currentState == Step(old(currentState), Op.Stop)
    {
      outcome := Dispatch(Op.Stop);
    }

    method Delete() returns (outcome: Outcome)
      modifies this
      ensures outcome == OutcomeOf(Transition(old(currentState), Op.Delete))
      ensures currentState == Step(old(currentState), Op.Delete)
    {
      outcome := Dispatch(Op.Delete);
    }

    /** get_state: the name of the current state. */
    function GetState(): (r: string)
      reads this
      ensures r == "CREATED" <==> currentState == Created
      ensures r == "RUNNING" <==> currentState == Running
      ensures r == "STOPPED" <==> currentState == Stopped
      ensures r == "DELETED" <==> currentState == Deleted
    {
      StateName(currentState)
    }

    /** get_details: its second line is "  State: " followed by get_state(). */
    function GetDetails(): (r: string)
      reads this
      ensures '\n' !in Render(id) && '\n' !in Render(name) ==>
                |SplitLines(r)| >= 2 && SplitLines(r)[1] == "  State: " + GetState()
    {
      if '\n' !in Render(id) && '\n' !in Render(name) then
        DetailsLines(id, name, fields, currentState);
        Details(id, name, fields, currentState)
      else
        Details(id, name, fields, currentState)
    }
  }

  /** A fresh resource of each of the three types is CREATED and reports "CREATED". */
  method FreshResourceIsCreated(id: Value, name: Value, runtime: Value, region: Value, replicas: Value,
                                enabled: Value, maxSize: Value, ttl: Value, capacity: Value,
                                eviction: EvictionStrategy)
    returns (app: string, storage: string, cache: string)
    ensures app == "CREATED" && storage == "CREATED" && cache == "CREATED"
  {
    var a := new CloudResource.AppService(id, name, runtime, region, replicas);
    var s := new CloudResource.StorageAccount(id, name, enabled, maxSize);
    var c := new CloudResource.CacheDB(id, name, ttl, capacity, eviction);
    app, storage, cache := a.GetState(), s.GetState(), c.GetState();
  }
}
