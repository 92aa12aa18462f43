/**
 * The type registry and factory: a dictionary from type name to resource class, filled with
 * the three built-in classes, extensible by register (last write wins), and a create_resource
 * that dispatches on the type NAME while calling the class currently registered under it.
 */
module ResourceFactories {
  import opened Wrappers
  import opened PyValues
  import opened ResourceState
  import opened CloudResources

  /** A class reference stored in the registry: one of the built-ins, or some other class. */
  datatype ResourceClass = AppServiceClass | StorageAccountClass | CacheDBClass | CustomClass(className: string)

  /** The errors create_resource raises. */
  datatype FactoryError =
    | UnknownType(resourceType: string)        // ValueError "Unknown resource type"
    | CannotInstantiate(resourceType: string)  // ValueError "Cannot instantiate resource type"
    | MissingKey(key: string)                  // KeyError from config[key]
    | IncompatibleClass(resourceType: string, cls: ResourceClass)  // the registered class does not accept these arguments

  /** Everything create_resource decides about the new resource, before it is allocated. */
  datatype ResourceSpec = ResourceSpec(id: Value, name: Value, fields: TypeFields)

  /** The configuration dictionary passed to create_resource. */
  type Config = map<string, Value>

  /** The type names create_resource knows how to call a constructor for. */
  const BuiltinTypes: set<string> := {"AppService", "StorageAccount", "CacheDB"}

  /** The class the factory registers by default under each built-in name. */
  function DefaultClass(resourceType: string): ResourceClass
    requires resourceType in BuiltinTypes
  {
    if resourceType == "AppService" then AppServiceClass
    else if resourceType == "StorageAccount" then StorageAccountClass
    else CacheDBClass
  }

  /** The registry right after construction. */
  const DefaultRegistry: map<string, ResourceClass> :=
    map["AppService" := AppServiceClass, "StorageAccount" := StorageAccountClass, "CacheDB" := CacheDBClass]

  /** The configuration keys create_resource reads with config[key] for each built-in type, in order. */
  function RequiredKeys(resourceType: string): seq<string>
    requires resourceType in BuiltinTypes
  {
    if resourceType == "AppService" then ["id", "name", "runtime", "region", "replica_count"]
    else if resourceType == "StorageAccount" then ["id", "name", "encryption_enabled", "max_size_gb"]
    else ["id", "name", "ttl_seconds", "capacity_mb"]
  }

  /** `config[key]`, raising KeyError when the key is absent. */
  function Lookup(config: Config, key: string): (r: Result<Value, FactoryError>)
    ensures r.Ok? <==> key in config
    ensures r.Ok? ==> r.value == config[key]
    ensures r.Err? ==> r.error == MissingKey(key)
  {
    if key in config then Ok(config[key]) else Err(MissingKey(key))
  }

  /** The eviction strategy for a CacheDB: LRU unless the policy is present and is not 'LRU'. */
  function ChooseStrategy(config: Config): (r: EvictionStrategy)
    ensures r == LRUStrategy <==> ("eviction_policy" !in config || config["eviction_policy"] == Str("LRU"))
    ensures r == FIFOStrategy <==> ("eviction_policy" in config && config["eviction_policy"] != Str("LRU"))
  {
    var policy := if "eviction_policy" in config then config["eviction_policy"] else Str("LRU");
    if policy == Str("LRU") then LRUStrategy else FIFOStrategy
  }

  /** Calling the registered class `cls` for the built-in type name `resourceType`. */
  function Construct(resourceType: string, cls: ResourceClass, spec: ResourceSpec): Result<ResourceSpec, FactoryError>
    requires resourceType in BuiltinTypes
  {
    if cls == DefaultClass(resourceType) then Ok(spec) else Err(IncompatibleClass(resourceType, cls))
  }

  /**
   * create_resource without the allocation: the error it raises, or the id, name and fields of
   * the resource it builds. Keys are read in the order the Python call evaluates its arguments,
   * so the first missing one is reported.
   */
  function Instantiate(registry: map<string, ResourceClass>, resourceType: string, config: Config)
    : (r: Result<ResourceSpec, FactoryError>)
    ensures resourceType !in registry ==> r == Err(UnknownType(resourceType))
    ensures resourceType in registry && resourceType !in BuiltinTypes ==> r == Err(CannotInstantiate(resourceType))
    ensures r.Ok? ==> "id" in config && r.value.id == config["id"] && "name" in config && r.value.name == config["name"]
    ensures r.Ok? ==> resourceType in BuiltinTypes && resourceType in registry
                      && registry[resourceType] == DefaultClass(resourceType)
                      && TypeName(r.value.fields) == resourceType
    ensures r.Err? && r.error.MissingKey? ==> r.error.key !in config
  {
    if resourceType !in registry then Err(UnknownType(resourceType))
    else
      var cls := registry[resourceType];
      if resourceType == "AppService" then
        var id :- Lookup(config, "id");
        var name :- Lookup(config, "name");
        var runtime :- Lookup(config, "runtime");
        var region :- Lookup(config, "region");
        var replicas :- Lookup(config, "replica_count");
        Construct(resourceType, cls, ResourceSpec(id, name, AppServiceFields(runtime, region, replicas)))
      else if resourceType == "StorageAccount" then
        var id :- Lookup(config, "id");
        var name :- Lookup(config, "name");
        var enabled :- Lookup(config, "encryption_enabled");
        var maxSize :- Lookup(config, "max_size_gb");
        Construct(resourceType, cls, ResourceSpec(id, name, StorageAccountFields(enabled, maxSize)))
      else if resourceType == "CacheDB" then
        var strategy := ChooseStrategy(config);
        var id :- Lookup(config, "id");
        var name :- Lookup(config, "name");
        var ttl :- Lookup(config, "ttl_seconds");
        var capacity :- Lookup(config, "capacity_mb");
        Construct(resourceType, cls, ResourceSpec(id, name, CacheDBFields(ttl, capacity, strategy)))
      else
        Err(CannotInstantiate(resourceType))
  }

  /**
   * Creation succeeds exactly when the name is a registered built-in, its own class is the one
   * registered under it, and the configuration has every key that type reads.
   */
  lemma InstantiateSucceedsIff(registry: map<string, ResourceClass>, resourceType: string, config: Config)
    ensures Instantiate(registry, resourceType, config).Ok?
            <==> resourceType in registry && resourceType in BuiltinTypes
                 && registry[resourceType] == DefaultClass(resourceType)
                 && forall k :: k in RequiredKeys(resourceType) ==> k in config
  {
    if resourceType in registry && resourceType in BuiltinTypes && registry[resourceType] == DefaultClass(resourceType) {
      var keys := RequiredKeys(resourceType);
      if forall k :: k in keys ==> k in config {
        assert forall i :: 0 <= i < |keys| ==> keys[i] in config;
      } else {
        var k :| k in keys && k !in config;
      }
    }
  }

  /** A CacheDB gets the LRU strategy when eviction_policy is absent or 'LRU', FIFO otherwise. */
  lemma CacheDBStrategy(registry: map<string, ResourceClass>, config: Config)
    requires Instantiate(registry, "CacheDB", config).Ok?
    ensures Instantiate(registry, "CacheDB", config).value.fields.CacheDBFields?
    ensures Instantiate(registry, "CacheDB", config).value.fields.evictionPolicy
            == if "eviction_policy" !in config || config["eviction_policy"] == Str("LRU") then LRUStrategy else FIFOStrategy
  {
  }

  /**
   * Creation consults the registry only through the entry under the requested name, so after
   * register(t, c) every creation of t behaves as c dictates, whatever was registered before.
   */
  lemma InstantiateUsesCurrentEntry(registry: map<string, ResourceClass>, resourceType: string,
                                    cls: ResourceClass, config: Config)
    ensures Instantiate(registry[resourceType := cls], resourceType, config)
            == Instantiate(map[resourceType := cls], resourceType, config)
  {
  }

  /** The factory object: its registry dictionary, whose keys Python keeps in insertion order. */
  class ResourceFactory {
    var registry: map<string, ResourceClass>
    var order: seq<string>  // the registry's keys in insertion order

    /** `order` lists every key of `registry` exactly once. */
    ghost predicate Valid()
      reads this
    {
      (forall i, j :: 0 <= i < j < |order| ==> order[i] != order[j])
      && (forall t :: t in registry <==> t in order)
    }

    constructor ()
      ensures Valid()
      ensures registry == DefaultRegistry
      ensures order == ["AppService", "StorageAccount", "CacheDB"]
    {
      registry := map[];
      order := [];
      new;
      RegisterDefaults();
    }

    /** _register_defaults: the three built-in classes under their own names. */
    method RegisterDefaults()
      requires Valid()
      modifies this
      ensures Valid()
      ensures registry == old(registry)["AppService" := AppServiceClass]["StorageAccount" := StorageAccountClass]["CacheDB" := CacheDBClass]
      ensures old(order) == [] ==> order == ["AppService", "StorageAccount", "CacheDB"]
    {
      Register("AppService", AppServiceClass);
      Register("StorageAccount", StorageAccountClass);
      Register("CacheDB", CacheDBClass);
    }

    /** register: the name now maps to the class; a new name is appended, an old one keeps its place. */
    method Register(resourceType: string, cls: ResourceClass)
      requires Valid()
      modifies this
      ensures Valid()
      ensures registry == old(registry)[resourceType := cls]
      ensures order == if resourceType in old(registry) then old(order) else old(order) + [resourceType]
    {
      if resourceType !in registry {
        order := order + [resourceType];
      }
      registry := registry[resourceType := cls];
    }

    /** list_available_types: each registered name once, in insertion order. */
    method ListAvailableTypes() returns (types: seq<string>)
      requires Valid()
      ensures forall t :: t in types <==> t in registry
      ensures forall i, j :: 0 <= i < j < |types| ==> types[i] != types[j]
      ensures types == order
    {
      types := order;
    }

    /** create_resource: a new resource in state CREATED, or the error Instantiate names. */
    method CreateResource(resourceType: string, config: Config) returns (r: Result<CloudResource, FactoryError>)
      ensures Instantiate(registry, resourceType, config).Err? ==> r == Err(Instantiate(registry, resourceType, config).error)
      ensures Instantiate(registry, resourceType, config).Ok? ==>
                r.Ok? && fresh(r.value)
                && var spec := Instantiate(registry, resourceType, config).value;
                   r.value.id == spec.id && r.value.name == spec.name && r.value.fields == spec.fields
                   && r.value.currentState == Created
    {
      var built := Instantiate(registry, resourceType, config);
      if built.Err? {
        return Err(built.error);
      }
      var spec := built.value;
      var resource: CloudResource;
      if spec.fields.AppServiceFields? {
        resource := new CloudResource.AppService(spec.id, spec.name, spec.fields.runtime, spec.fields.region,
                                                 spec.fields.replicaCount);
      } else if spec.fields.StorageAccountFields? {
        resource := new CloudResource.StorageAccount(spec.id, spec.name, spec.fields.encryptionEnabled,
                                                     spec.fields.maxSizeGb);
      } else {
        resource := new CloudResource.CacheDB(spec.id, spec.name, spec.fields.ttlSeconds, spec.fields.capacityMb,
                                              spec.fields.evictionPolicy);
      }
      r := Ok(resource);
    }
  }

  /** A registered name that is not a built-in still cannot be created. */
  method RegisteringIsNotEnough(config: Config) returns (r: Result<CloudResource, FactoryError>)
    ensures r == Err(CannotInstantiate("Cache"))
  {
    var factory := new ResourceFactory();
    factory.Register("Cache", CustomClass("Cache"));
    r := factory.CreateResource("Cache", config);
  }
}
