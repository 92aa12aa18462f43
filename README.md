# Cloud resource manager, modelled and verified in Dafny

This project models the lifecycle core of a small cloud resource manager and proves properties of the model:

- **Resources:** App services, storage accounts and cache databases are created through a type registry (the factory). Each one moves through the lifecycle CREATED → RUNNING ⇄ STOPPED → DELETED; deleting is also possible straight from CREATED.
- **Wrappers:** A resource can be wrapped in forwarding decorators. A logging decorator prints an "Attempting …" line, then a "Successfully …" or "Failed …" line, around each operation, and re-raises the error.
- **The manager:** It keeps resources in a table under the ids "1", "2", … handed out in order. Creating, listing, starting, stopping, deleting and describing resources need a logged-in user; `get_resource` does not, and it hands out the stored resource to any caller.
- **Users and login:** Users live in a repository of records. Login goes through either file-based authentication against that repository or a simulated external service.

Modules follow the source files:

| module | file | source |
|---|---|---|
| `Wrappers` | wrappers.dfy | `Option` and `Result` (with `:-` support) |
| `PyValues` | values.dfy | configuration values (`str`, `int`, `bool`), their `str()` rendering and truthiness, decimal `str(n)`, `str.split('\n')` |
| `ResourceState` | resource_state.dfy | src/core/resource_state.py |
| `CloudResources` | cloud_resource.dfy | src/core/cloud_resource.py |
| `ResourceFactories` | resource_factory.dfy | src/patterns/resource_factory.py |
| `ResourceDecorators` | resource_decorator.dfy | src/patterns/resource_decorator.py |
| `UserRepositories` | user_repository.dfy | src/services/user_repository.py |
| `LoginServices` | login_service.dfy | src/services/login_service.py |
| `ResourceManagers` | resource_manager.dfy | src/services/resource_manager.py |

Modelling choices:

- **The state classes** become one transition table, `Transition(state, op)`. It returns the next state or an `IllegalTransition` error that carries the exact `ValueError` text. The change itself happens on the `CloudResource` class, whose `currentState` field is the only mutable one. `id`, `name` and the type-specific fields are `const`, so no lifecycle operation can change them.
- **The decorator class hierarchy** becomes a wrapper chain, `Handle = Bare | Plain | Logged`. Each decorator is a class with a `const` reference to what it wraps. It also keeps a copy of the wrapped resource's `current_state` taken at construction. That copy goes stale and is never consulted, as in the source.
- **Standard output** is a `Console` object whose `lines` the logging decorator appends to.
- **A raised exception** is a `Result` error.
- **`str(next_id)`** is `NatString`, the decimal rendering of a natural number. It is injective, so the manager's ids never collide.
- **The configuration dict** is the `ConfigDict` class. The manager writes `config['id']` into it before it calls the factory, and the caller sees that write even when the factory then fails.
- **The user file** is the `users` sequence field of `UserRepository`. The `from_dict` defaulting of a missing role is kept as `UserRecord.role: Option<string>`.

Registering a new name such as "Cache" does not make it creatable: `create_resource` only knows how to build the three built-in types, so it still raises "Cannot instantiate resource type" (src/patterns/resource_factory.py:58-59). `ResourceFactories.RegisteringIsNotEnough` proves this.

## Model

| member | source | states |
|---|---|---|
| ResourceState.StateName | src/core/resource_state.py:37-83 | the name is "CREATED", "RUNNING", "STOPPED" or "DELETED" exactly for the matching state |
| ResourceState.StateNameInjective | src/core/resource_state.py:37-83 | the four state names are pairwise distinct |
| ResourceState.Transition | src/core/resource_state.py:25-80 | start succeeds exactly from CREATED or STOPPED and yields RUNNING; stop succeeds exactly from RUNNING and yields STOPPED; delete succeeds exactly from CREATED or STOPPED and yields DELETED; nothing leads to CREATED; DELETED refuses everything; every error names the state and the operation |
| ResourceState.Step | src/core/resource_state.py:25-80 | a legal operation moves to the table's next state; an illegal one leaves the state unchanged |
| ResourceState.OutcomeOf | src/core/resource_state.py:25-80 | an operation passes exactly when the transition succeeds; otherwise it fails with the transition's error |
| ResourceState.DeletedIsTerminal | src/core/resource_state.py:72-80 | no sequence of operations leaves DELETED |
| ResourceState.NeverBackToCreated | src/core/resource_state.py:25-80 | once a resource has left CREATED, no sequence of operations returns it there |
| ResourceState.DeletingRunningGoesThroughStopped | src/core/resource_state.py:41-66 | any sequence that takes a RUNNING resource to DELETED passes through STOPPED first |
| ResourceState.EveryStateReachable | src/core/resource_state.py:25-66 | each of the four states is reachable from CREATED |
| CloudResources.EvictionStrategy.ClassName | src/core/cloud_resource.py:81 | the reported class name is "LRUStrategy" exactly for LRU and "FIFOStrategy" exactly for FIFO |
| CloudResources.EncryptionLabel | src/core/cloud_resource.py:63 | "Enabled" exactly when the flag is truthy, "Disabled" exactly when it is not |
| CloudResources.Details | src/core/cloud_resource.py:44-81 | whatever the id and name hold, the details open with the type header, a newline, then "  State: " followed by the state name |
| CloudResources.DetailsLines | src/core/cloud_resource.py:44-81 | when id and name hold no newline, the details split into the type header, then "  State: " followed by the state name, then the type-specific lines |
| CloudResources.DetailsDetermineState | src/core/cloud_resource.py:44-81 | two resources with the same id, name and fields have the same details exactly when their states are equal |
| CloudResources.CloudResource.AppService | src/core/cloud_resource.py:35-42 | the new resource holds the given id, name and fields and is CREATED |
| CloudResources.CloudResource.StorageAccount | src/core/cloud_resource.py:52-58 | the new resource holds the given id, name and fields and is CREATED |
| CloudResources.CloudResource.CacheDB | src/core/cloud_resource.py:67-74 | the new resource holds the given id, name, fields and strategy and is CREATED |
| CloudResources.CloudResource.SetState | src/core/cloud_resource.py:24-25 | the current state becomes exactly the given one; nothing else changes |
| CloudResources.CloudResource.Dispatch | src/core/cloud_resource.py:15-25 | the operation is delegated to the transition table: the outcome is the table's, and the state moves only if the operation is legal |
| CloudResources.CloudResource.Start | src/core/cloud_resource.py:15-16 | start delegates to the current state, with the outcome and new state of the transition table |
| CloudResources.CloudResource.Stop | src/core/cloud_resource.py:18-19 | stop delegates to the current state, with the outcome and new state of the transition table |
| CloudResources.CloudResource.Delete | src/core/cloud_resource.py:21-22 | delete delegates to the current state, with the outcome and new state of the transition table |
| CloudResources.CloudResource.GetState | src/core/cloud_resource.py:27-28 | the reported name is "CREATED", "RUNNING", "STOPPED" or "DELETED" exactly for the matching current state |
| CloudResources.CloudResource.GetDetails | src/core/cloud_resource.py:44-81 | reads without changing the resource; when id and name hold no newline, the second line is "  State: " followed by get_state() |
| CloudResources.FreshResourceIsCreated | src/core/cloud_resource.py:10-28 | a freshly constructed AppService, StorageAccount and CacheDB each report "CREATED" |
| ResourceFactories.Lookup | src/patterns/resource_factory.py:34-55 | a config key read succeeds exactly when the key is present, and a missing key is reported by name |
| ResourceFactories.ChooseStrategy | src/patterns/resource_factory.py:49-50 | LRU exactly when `eviction_policy` is absent or equal to "LRU", FIFO exactly otherwise |
| ResourceFactories.Instantiate | src/patterns/resource_factory.py:24-59 | an unregistered type is an unknown-type error; a registered non-built-in name cannot be instantiated; a success takes id and name from the config and is of the requested built-in type; a missing-key error names a key absent from the config |
| ResourceFactories.InstantiateSucceedsIff | src/patterns/resource_factory.py:24-59 | creation succeeds exactly when the type is a built-in registered under its own class and every key that type reads is in the config |
| ResourceFactories.CacheDBStrategy | src/patterns/resource_factory.py:47-57 | a CacheDB gets the strategy chosen from `eviction_policy` |
| ResourceFactories.InstantiateUsesCurrentEntry | src/patterns/resource_factory.py:29-47 | creation depends only on the class now registered under the requested name; earlier entries and other names make no difference |
| ResourceFactories.ResourceFactory.constructor | src/patterns/resource_factory.py:9-17 | a new factory registers AppService, StorageAccount and CacheDB, in that order, each under its own class |
| ResourceFactories.ResourceFactory.RegisterDefaults | src/patterns/resource_factory.py:13-17 | the three built-ins are registered in order over whatever was there |
| ResourceFactories.ResourceFactory.Register | src/patterns/resource_factory.py:19-21 | the name maps to the given class, overwriting an earlier entry; the other entries are unchanged; a new name goes last in key order, and a re-registered name keeps its place |
| ResourceFactories.ResourceFactory.ListAvailableTypes | src/patterns/resource_factory.py:61-63 | the result lists exactly the registered names, in insertion order, without duplicates |
| ResourceFactories.ResourceFactory.CreateResource | src/patterns/resource_factory.py:24-59 | an error from the registry or the config propagates; otherwise a fresh CREATED resource holds the config's id, name and type fields |
| ResourceFactories.RegisteringIsNotEnough | src/patterns/resource_factory.py:58-59 | registering "Cache" and then creating it still fails with "Cannot instantiate" |
| ResourceDecorators.Console.Log | src/patterns/resource_decorator.py:41-43 | exactly one line is appended to the output |
| ResourceDecorators.WrappedIdentity | src/patterns/resource_decorator.py:9-13 | however deeply it is wrapped, a wrapper's id and name are those of the innermost resource |
| ResourceDecorators.TraceLength | src/patterns/resource_decorator.py:45-70 | a forwarded operation prints two lines per logging layer and none for plain layers |
| ResourceDecorators.Forward | src/patterns/resource_decorator.py:16-70 | forwarding through any wrapper chain changes the innermost resource exactly as calling it directly would, returns the same outcome or re-raises the same error, and prints the chain's log lines |
| ResourceDecorators.ForwardSetState | src/patterns/resource_decorator.py:28-29 | setting the state through a chain sets the innermost resource's state |
| ResourceDecorators.HandleState | src/patterns/resource_decorator.py:31-32 | the state a chain reports is the innermost resource's current state name |
| ResourceDecorators.HandleDetails | src/patterns/resource_decorator.py:25-26 | the details a chain reports are the innermost resource's details |
| ResourceDecorators.ResourceDecorator.constructor | src/patterns/resource_decorator.py:9-14 | the wrapper copies the id and name of what it wraps, and a snapshot of its state |
| ResourceDecorators.ResourceDecorator.Perform | src/patterns/resource_decorator.py:16-23 | each operation is forwarded unchanged to the wrapped chain |
| ResourceDecorators.ResourceDecorator.Start | src/patterns/resource_decorator.py:16-17 | start is forwarded; the innermost resource moves as the table says |
| ResourceDecorators.ResourceDecorator.Stop | src/patterns/resource_decorator.py:19-20 | stop is forwarded; the innermost resource moves as the table says |
| ResourceDecorators.ResourceDecorator.Delete | src/patterns/resource_decorator.py:22-23 | delete is forwarded; the innermost resource moves as the table says |
| ResourceDecorators.ResourceDecorator.SetState | src/patterns/resource_decorator.py:28-29 | the innermost resource takes exactly the given state |
| ResourceDecorators.ResourceDecorator.GetState | src/patterns/resource_decorator.py:31-32 | the reported state is the innermost resource's state, not the snapshot |
| ResourceDecorators.ResourceDecorator.GetDetails | src/patterns/resource_decorator.py:25-26 | the reported details are the innermost resource's details |
| ResourceDecorators.LoggingDecorator.constructor | src/patterns/resource_decorator.py:38-39 | as for the plain wrapper |
| ResourceDecorators.LoggingDecorator.Perform | src/patterns/resource_decorator.py:45-70 | the "Attempting" line comes first, then the inner chain's lines, then a success line or a failure line quoting the error; the outcome and state change are the wrapped chain's |
| ResourceDecorators.LoggingDecorator.Start | src/patterns/resource_decorator.py:45-52 | start is forwarded between the attempt line and the success or failure line |
| ResourceDecorators.LoggingDecorator.Stop | src/patterns/resource_decorator.py:54-61 | stop is forwarded between the attempt line and the success or failure line |
| ResourceDecorators.LoggingDecorator.Delete | src/patterns/resource_decorator.py:63-70 | delete is forwarded between the attempt line and the success or failure line |
| ResourceDecorators.LoggingDecorator.SetState | src/patterns/resource_decorator.py:28-29 | the innermost resource takes exactly the given state |
| ResourceDecorators.LoggingDecorator.GetState | src/patterns/resource_decorator.py:31-32 | the reported state is the innermost resource's state |
| ResourceDecorators.LoggingDecorator.GetDetails | src/patterns/resource_decorator.py:25-26 | the reported details are the innermost resource's details |
| ResourceDecorators.LoggedOperationLines | src/patterns/resource_decorator.py:45-70 | over a bare resource, a logged operation prints exactly "Attempting to X resource: name", then "Successfully Xed resource: name" or "Failed to X resource: name - message" |
| ResourceDecorators.SnapshotGoesStale | src/patterns/resource_decorator.py:14 | after a start through the wrapper, the copied state is still CREATED while the reported state is RUNNING |
| UserRepositories.ToDict | src/services/user_repository.py:15-30 | the record keeps the username and role, and reading it back gives the same user |
| UserRepositories.FromDict | src/services/user_repository.py:23-30 | the user has the record's username and password, and its role, or "user" when the record has none |
| UserRepositories.FirstIndexOf | src/services/user_repository.py:72-76 | the result is the first index holding the name, or none exactly when no record has it |
| UserRepositories.UserNamed | src/services/user_repository.py:68-76 | a user is found exactly when some record has the name, and it has that name |
| UserRepositories.UserNamedWhenUnique | src/services/user_repository.py:68-76 | with unique usernames, the lookup returns the very record holding the name |
| UserRepositories.Without | src/services/user_repository.py:100 | the filtered list keeps only records of the original, none with the name |
| UserRepositories.WithoutAppend | src/services/user_repository.py:100 | filtering distributes over concatenation, so the order of the rest is kept |
| UserRepositories.WithoutShrinks | src/services/user_repository.py:98-102 | filtering shortens the list exactly when some record has the name |
| UserRepositories.WithoutKeepsUnique | src/services/user_repository.py:100 | filtering preserves unique usernames |
| UserRepositories.UserRepository.constructor | src/services/user_repository.py:36-44 | a repository over a missing file starts empty; otherwise it holds the stored records |
| UserRepositories.UserRepository.AddUser | src/services/user_repository.py:56-66 | a taken username is refused with no change; otherwise exactly one record is appended; uniqueness is preserved |
| UserRepositories.UserRepository.FindByUsername | src/services/user_repository.py:68-76 | returns the first record with the name, or none |
| UserRepositories.UserRepository.GetAllUsers | src/services/user_repository.py:78-81 | every record, read back in order |
| UserRepositories.UserRepository.UpdateUser | src/services/user_repository.py:83-93 | only the first matching record is replaced, at its index; the length is kept; no match means no change and false; uniqueness is preserved |
| UserRepositories.UserRepository.DeleteUser | src/services/user_repository.py:95-106 | every record with the name is removed and the rest keep their order; true exactly when the list shrank, which is exactly when the name was present; uniqueness is preserved |
| LoginServices.LoginService.Authenticate | src/services/login_service.py:27-66 | file login: false when the user is unknown, otherwise true exactly when the first matching record's password equals the given one; service login: true exactly when both username and password are non-empty; reads and changes nothing else |
| LoginServices.LoginService.GetServiceName | src/services/login_service.py:42-69 | "File-Based Authentication" for file login; for service login, a name that embeds the service URL in parentheses |
| LoginServices.FileLoginWithUniqueUsers | src/services/login_service.py:27-40 | with unique usernames, file login succeeds exactly when the user's stored password matches |
| LoginServices.ServiceNamesDiffer | src/services/login_service.py:42-69 | the two services never report the same name |
| PyValues.NatStringInjective | src/services/resource_manager.py:60-66 | different counters give different id strings |
| ResourceManagers.IssueNextId | src/services/resource_manager.py:60-68 | the next id has not been issued, and issuing it adds exactly that id |
| ResourceManagers.InsertKeepsTableValid | src/services/resource_manager.py:60-68 | storing a new resource under str(next_id) and advancing the counter keeps the table's keys exactly "1" … str(next_id - 1), each entry wrapping a resource whose id is its key (so distinct entries wrap distinct resources) |
| ResourceManagers.ResourceManager.constructor | src/services/resource_manager.py:13-19 | a new manager has the given repository and login service, a default factory whose types are AppService, StorageAccount and CacheDB in that order, an empty table, counter 1 and nobody logged in |
| ResourceManagers.ResourceManager.Login | src/services/resource_manager.py:21-30 | true exactly when authentication succeeds and the repository has the user; a failed authentication leaves the current user unchanged; otherwise the current user becomes what the repository finds |
| ResourceManagers.ResourceManager.Logout | src/services/resource_manager.py:32-38 | nobody is logged in afterwards |
| ResourceManagers.ResourceManager.IsAuthenticated | src/services/resource_manager.py:40-42 | true exactly when there is a current user |
| ResourceManagers.ResourceManager.RegisterUser | src/services/resource_manager.py:44-52 | the user is added, with default role "user", exactly when the username is free |
| ResourceManagers.ResourceManager.CreateResource | src/services/resource_manager.py:54-71 | logged out: returns None with nothing changed, the config included; logged in: config["id"] is set to the next id; a factory error propagates with the table and counter unchanged; a success stores a fresh CREATED resource under a new key equal to its id, bare, or inside exactly one logging decorator if logging is enabled, and returns that key, keeps every other entry and advances the counter by one; the table invariant is kept |
| ResourceManagers.ResourceManager.GetResource | src/services/resource_manager.py:73-75 | with no login check, the entry under the id, or none exactly when it is absent |
| ResourceManagers.ResourceManager.ListResources | src/services/resource_manager.py:77-82 | the whole table for a logged-in user, an empty one otherwise |
| ResourceManagers.ResourceManager.ForwardTo | src/services/resource_manager.py:90-92 | an operation on an entry moves that entry's resource as the transition table says and leaves every other entry's state alone |
| ResourceManagers.ResourceManager.Operate | src/services/resource_manager.py:84-124 | false with no change when logged out or the id is absent; an illegal transition propagates as its error; true exactly when the transition succeeded; only the addressed entry's state changes; the table is kept |
| ResourceManagers.ResourceManager.StartResource | src/services/resource_manager.py:84-96 | as for Operate, with start |
| ResourceManagers.ResourceManager.StopResource | src/services/resource_manager.py:98-110 | as for Operate, with stop |
| ResourceManagers.ResourceManager.DeleteResource | src/services/resource_manager.py:112-124 | as for Operate, with delete; a successful delete keeps the entry in the table, in state DELETED |
| ResourceManagers.ResourceManager.GetResourceDetails | src/services/resource_manager.py:126-137 | some details exactly when a user is logged in and the id is present, and then they are the innermost resource's details |

## Left out

- Console output other than the logging decorator's lines is not modelled: the "Starting …" messages of the states, the factory's "Registered …" messages, and the manager's and login services' messages. None of it affects any result.
- The logging decorator's timestamps are dropped: the model's log line is the message without the "[LOG timestamp]" prefix. The clock is a source of nondeterminism.
- The JSON file behind the user repository is a sequence field. The file's existence becomes the constructor's `Option` argument, and reading, writing and indentation are not modelled.
- A user record lacking "username" or "password" is not modelled: in the source it raises `KeyError`. Values of other JSON types in those fields are also not modelled.
- ResourceFactories.Instantiate: when a built-in name is registered with any class other than its own built-in (a custom class or another built-in, as in `register("AppService", CacheDB)`), the source calls that class with the name's arguments, which either raises `TypeError` or builds whatever the class builds (here a CacheDB whose eviction policy is `config['replica_count']`). The model reports an `IncompatibleClass` error instead.
- Configuration values are strings, integers and booleans only. Other Python values (floats, `None`, lists) are outside the model.
- Exceptions are `Result` errors: `ValueError`, `KeyError`, and so on are not told apart by type, but the error datatypes keep their cause and message.
- The eviction strategies' `evict` method (src/core/eviction_strategy.py) is not modelled: it returns fixed strings and no resource operation consults it. The strategy is a two-valued enum.
- ResourceManagers.ResourceManager.ListResources: the source returns the manager's live dictionary, so a caller could change the table through it. The model returns a value, so that aliasing is not captured.
- The simulated network in the service login is not modelled: the URL and API key are inert, and only the non-empty check decides.
- ResourceManagers.ResourceManager: the login service is a `const`, so the model does not capture a caller replacing `login_service` on an existing manager.
- ResourceManagers.ResourceManager: the resource table is a `map`, so the insertion order in which a caller iterates over `list_resources()` is not captured. Ids are handed out in increasing order, but the model does not record that order.
- The command-line front ends (src/cli/main.py, src/cli/main_with_auth.py, src/cli/demo_resource_manager.py, run.py) are not part of this model.
- The abstract base classes `ResourceState`, `CloudResource` and `LoginService` are not modelled as such. The state table, the single `CloudResource` class with a fields variant, and the two-variant `LoginService` datatype each cover their concrete subclasses.
