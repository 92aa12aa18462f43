/**
 * The resource manager: a table of resources under string ids "1", "2", ... handed out in
 * order, a private factory, and a current user. Creating, listing, starting, stopping, deleting
 * and describing resources need a logged-in user; get_resource does not. Logging in goes
 * through the configured login service and the user repository.
 */
module ResourceManagers {
  import opened Wrappers
  import opened PyValues
  import opened ResourceState
  import opened CloudResources
  import opened ResourceFactories
  import opened ResourceDecorators
  import opened UserRepositories
  import opened LoginServices

  /** A configuration dict: the manager writes its "id" entry, and the caller sees the write. */
  class ConfigDict {
    var entries: Config

    constructor (entries: Config)
      ensures this.entries == entries
    {
      this.entries := entries;
    }
  }

  /** The ids handed out before `next`: "1", ..., str(next - 1). */
  ghost function IssuedIds(next: nat): set<string> {
    set i: nat | 1 <= i < next :: NatString(i)
  }

  /** Handing out `next` adds exactly str(next), which was not among the earlier ids. */
  lemma IssueNextId(next: nat)
    requires next >= 1
    ensures NatString(next) !in IssuedIds(next)
    ensures IssuedIds(next + 1) == IssuedIds(next) + {NatString(next)}
  {
    forall i: nat | 1 <= i < next
      ensures NatString(i) != NatString(next)
    {
      NatStringInjective(i, next);
    }
    forall x | x in IssuedIds(next + 1)
      ensures x in IssuedIds(next) + {NatString(next)}
    {
      var i: nat :| 1 <= i < next + 1 && x == NatString(i);
      if i < next {
        assert x in IssuedIds(next);
      }
    }
    assert NatString(next) in IssuedIds(next + 1);
  }

  /**
   * The shape of the resource table: one entry per id handed out before `next`, each a wrapper
   * chain over a resource whose id is the entry's key. Since ids are constant, distinct entries
   * wrap distinct resources.
   */
  ghost predicate TableValid(resources: map<string, Handle>, next: nat) {
    && next >= 1
    && resources.Keys == IssuedIds(next)
    && EntriesValid(resources)
  }

  /** Every entry is a wrapper chain over a resource whose id is the entry's key. */
  ghost predicate EntriesValid(resources: map<string, Handle>) {
    forall k :: k in resources ==> WellFormed(resources[k]) && Innermost(resources[k]).id == Str(k)
  }

  /** Storing a new resource under the next id and advancing the counter keeps the table's shape. */
  lemma InsertKeepsTableValid(resources: map<string, Handle>, next: nat, h: Handle)
    requires TableValid(resources, next)
    requires WellFormed(h) && Innermost(h).id == Str(NatString(next))
    ensures NatString(next) !in resources
    ensures TableValid(resources[NatString(next) := h], next + 1)
  {
    IssueNextId(next);
  }

  class ResourceManager {
    const userRepository: UserRepository
    const loginService: LoginService
    const factory: ResourceFactory
    var resources: map<string, Handle>
    var nextId: nat
    var currentUser: Option<User>

    /**
     * The table holds an entry for every id handed out so far and no other; each entry is a
     * wrapper chain over its own resource, whose id is the entry's key.
     */
    ghost predicate Valid()
      reads this
    {
      TableValid(resources, nextId)
    }

    /** The resources behind the table's entries. */
    ghost function Targets(): set<CloudResource>
      requires EntriesValid(resources)
      reads this
    {
      set k | k in resources :: Innermost(resources[k])
    }

    /** The lifecycle state of every entry. */
    ghost function States(): map<string, State>
      requires EntriesValid(resources)
      reads this, Targets()
    {
      map k | k in resources :: Innermost(resources[k]).currentState
    }

    constructor (userRepository: UserRepository, loginService: LoginService)
      ensures Valid()
      ensures this.userRepository == userRepository && this.loginService == loginService
      ensures fresh(factory) && factory.Valid() && factory.registry == DefaultRegistry
      ensures factory.order == ["AppService", "StorageAccount", "CacheDB"]
      ensures resources == map[] && nextId == 1 && currentUser == None
    {
      this.userRepository := userRepository;
      this.loginService := loginService;
      factory := new ResourceFactory();
      resources := map[];
      nextId := 1;
      currentUser := None;
    }

    /**
     * login: a failed authentication changes nothing; a successful one sets the current user to
     * what the repository finds, which is None (and a False result) if it has no such user.
     */
    method Login(username: string, password: string) returns (ok: bool)
      modifies this`currentUser
      ensures var authenticated := loginService.Authenticate(username, password);
              && (ok <==> authenticated && HasUsername(userRepository.users, username))
              && currentUser == if authenticated then UserNamed(userRepository.users, username) else old(currentUser)
    {
      if loginService.Authenticate(username, password) {
        currentUser := userRepository.FindByUsername(username);
        if currentUser == None {
          return false;
        }
        return true;
      }
      return false;
    }

    /** logout: nobody is logged in afterwards. */
    method Logout()
      modifies this`currentUser
      ensures currentUser == None
    {
      if currentUser.Some? {
        currentUser := None;
      }
    }

    function IsAuthenticated(): (r: bool)
      reads this
      ensures r <==> currentUser != None
    {
      currentUser.Some?
    }

    /** register_user: adds the user unless the username is taken. */
    method RegisterUser(username: string, password: string, role: string := "user") returns (registered: bool)
      modifies userRepository
      ensures registered <==> !HasUsername(old(userRepository.users), username)
      ensures userRepository.users
              == if registered then old(userRepository.users) + [ToDict(User(username, password, role))]
                 else old(userRepository.users)
    {
      var user := User(username, password, role);
      registered := userRepository.AddUser(user);
    }

    /**
     * create_resource: nothing happens without a logged-in user; otherwise config["id"] is set
     * to the next id, and if the factory succeeds the (optionally logged) resource is stored
     * under that id, which is returned, and the counter advances. A factory error propagates
     * and leaves the table and the counter as they were.
     */
    method CreateResource(resourceType: string, config: ConfigDict, enableLogging: bool := false)
      returns (r: Result<Option<string>, FactoryError>)
      requires Valid()
      modifies this, config
      ensures Valid()
      ensures currentUser == old(currentUser)
      ensures !old(IsAuthenticated()) ==>
                r == Ok(None) && resources == old(resources) && nextId == old(nextId)
                && config.entries == old(config.entries)
      ensures old(IsAuthenticated()) ==>
                config.entries == old(config.entries)["id" := Str(NatString(old(nextId)))]
      ensures old(IsAuthenticated()) && Instantiate(factory.registry, resourceType, config.entries).Err? ==>
                r == Err(Instantiate(factory.registry, resourceType, config.entries).error)
                && resources == old(resources) && nextId == old(nextId)
      ensures old(IsAuthenticated()) && Instantiate(factory.registry, resourceType, config.entries).Ok? ==>
                var key := NatString(old(nextId));
                var spec := Instantiate(factory.registry, resourceType, config.entries).value;
                && r == Ok(Some(key))
                && nextId == old(nextId) + 1
                && key !in old(resources)
                && key in resources
                && resources == old(resources)[key := resources[key]]
                && (if enableLogging
                    then resources[key].Logged? && resources[key].logged.wrapped == Bare(Innermost(resources[key]))
                    else resources[key] == Bare(Innermost(resources[key])))
                && fresh(Innermost(resources[key]))
                && Innermost(resources[key]).id == Str(key)
                && Innermost(resources[key]).name == spec.name
                && Innermost(resources[key]).fields == spec.fields
                && Innermost(resources[key]).currentState == Created
    {
      if !IsAuthenticated() {
        return Ok(None);
      }
      var resourceId := NatString(nextId);
      config.entries := config.entries["id" := Str(resourceId)];
      var created := factory.CreateResource(resourceType, config.entries);
      if created.Err? {
        return Err(created.error);
      }
      var handle := Bare(created.value);
      if enableLogging {
        var wrapper := new LoggingDecorator(handle);
        handle := Logged(wrapper);
      }
      assert Innermost(handle) == created.value;
      InsertKeepsTableValid(resources, nextId, handle);
      resources := resources[resourceId := handle];
      nextId := nextId + 1;
      return Ok(Some(resourceId));
    }

    /** get_resource: the entry under the id, if any; no login needed. */
    function GetResource(resourceId: string): (r: Option<Handle>)
      reads this
      ensures r.Some? <==> resourceId in resources
      ensures r.Some? ==> r.value == resources[resourceId]
    {
      if resourceId in resources then Some(resources[resourceId]) else None
    }

    /** list_resources: the whole table for a logged-in user, an empty one otherwise. */
    function ListResources(): (r: map<string, Handle>)
      reads this
      ensures r == if currentUser.Some? then resources else map[]
    {
      if !IsAuthenticated() then map[] else resources
    }

    /** What start/stop/delete_resource report: False, True, or the state's error. */
    ghost function Attempted(resourceId: string, op: Op): Result<bool, TransitionError>
      requires Valid()
      reads this, Targets()
    {
      if !IsAuthenticated() || resourceId !in resources then Ok(false)
      else match Transition(Innermost(resources[resourceId]).currentState, op)
        case Ok(_) => Ok(true)
        case Err(e) => Err(e)
    }

    /** The states after start/stop/delete_resource: only the addressed entry can move. */
    ghost function StatesAfter(resourceId: string, op: Op): map<string, State>
      requires Valid()
      reads this, Targets()
    {
      if !IsAuthenticated() || resourceId !in resources then States()
      else States()[resourceId := Step(States()[resourceId], op)]
    }

    /** The lines start/stop/delete_resource print through logging wrappers. */
    ghost function AttemptTrace(resourceId: string, op: Op): seq<string>
      requires Valid()
      reads this, Targets()
    {
      if !IsAuthenticated() || resourceId !in resources then []
      else Trace(resources[resourceId], op, OutcomeOf(Transition(Innermost(resources[resourceId]).currentState, op)))
    }

    /** Forwarding the operation to an entry that exists moves that entry's resource alone. */
    method ForwardTo(resourceId: string, op: Op, console: Console) returns (outcome: Outcome)
      requires EntriesValid(resources) && resourceId in resources
      modifies Targets(), console
      ensures outcome == OutcomeOf(Transition(old(States())[resourceId], op))
      ensures States() == old(States())[resourceId := Step(old(States())[resourceId], op)]
      ensures console.lines == old(console.lines) + Trace(resources[resourceId], op, outcome)
    {
      ghost var before := States();
      var handle := resources[resourceId];
      assert Innermost(handle) in Targets();
      forall k | k in resources {
        InnermostAllocated(resources[k]);
      }
      outcome := ResourceDecorators.Forward(handle, op, console);
      forall k | k in resources && k != resourceId
        ensures Innermost(resources[k]).currentState == before[k]
      {
        assert Innermost(resources[k]).id != Innermost(handle).id;
      }
    }

    /** The body shared by start_resource, stop_resource and delete_resource. */
    method Operate(resourceId: string, op: Op, console: Console) returns (r: Result<bool, TransitionError>)
      requires Valid()
      modifies Targets(), console
      ensures Valid() && resources == old(resources) && nextId == old(nextId)
      ensures r == old(Attempted(resourceId, op))
      ensures States() == old(StatesAfter(resourceId, op))
      ensures console.lines == old(console.lines) + old(AttemptTrace(resourceId, op))
    {
      if !IsAuthenticated() {
        return Ok(false);
      }
      var resource := GetResource(resourceId);
      if resource.None? {
        return Ok(false);
      }
      var outcome := ForwardTo(resourceId, op, console);
      if outcome.Fail? {
        return Err(outcome.error);
      }
      return Ok(true);
    }

    method StartResource(resourceId: string, console: Console) returns (r: Result<bool, TransitionError>)
      requires Valid()
      modifies Targets(), console
      ensures Valid() && resources == old(resources) && nextId == old(nextId)
      ensures r == old(Attempted(resourceId, Op.Start))
      ensures States() == old(StatesAfter(resourceId, Op.Start))
      ensures console.lines == old(console.lines) + old(AttemptTrace(resourceId, Op.Start))
    {
      r := Operate(resourceId, Op.Start, console);
    }

    method StopResource(resourceId: string, console: Console) returns (r: Result<bool, TransitionError>)
      requires Valid()
      modifies Targets(), console
      ensures Valid() && resources == old(resources) && nextId == old(nextId)
      ensures r == old(Attempted(resourceId, Op.Stop))
      ensures States() == old(StatesAfter(resourceId, Op.Stop))
      ensures console.lines == old(console.lines) + old(AttemptTrace(resourceId, Op.Stop))
    {
      r := Operate(resourceId, Op.Stop, console);
    }

    /** delete_resource: the entry stays in the table, in state DELETED. */
    method DeleteResource(resourceId: string, console: Console) returns (r: Result<bool, TransitionError>)
      requires Valid()
      modifies Targets(), console
      ensures Valid() && resources == old(resources) && nextId == old(nextId)
      ensures r == old(Attempted(resourceId, Op.Delete))
      ensures States() == old(StatesAfter(resourceId, Op.Delete))
      ensures console.lines == old(console.lines) + old(AttemptTrace(resourceId, Op.Delete))
      ensures r == Ok(true) ==> resourceId in resources && States()[resourceId] == Deleted
    {
      r := Operate(resourceId, Op.Delete, console);
    }

    /** get_resource_details: the innermost resource's details, for a logged-in user and a known id. */
    function GetResourceDetails(resourceId: string): (r: Option<string>)
      requires Valid()
      reads this, Targets()
      ensures r.Some? <==> currentUser.Some? && resourceId in resources
      ensures r.Some? ==> var t := Innermost(resources[resourceId]);
                          r.value == Details(t.id, t.name, t.fields, t.currentState)
    {
      if !IsAuthenticated() then None
      else match GetResource(resourceId)
        case None => None
        case Some(resource) => Some(HandleDetails(resource))
    }
  }
}
