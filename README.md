# django-modern-rpc method registry, modelled in Dafny

This project models the method registry of django-modern-rpc. The registry lets a
Django project expose Python functions as remote procedures under a public name.
Each one can be restricted to one entry point and to a set of protocol variants
(rpc types such as `json` or `xml`). Methods are found at call time by name plus
the caller's entry point and rpc type.

- `wrappers.dfy` (module `Wrappers`): `Option` and `Result`.
- `descriptor.dfy` (module `Descriptor`): the `RPCMethod` descriptor as a datatype.
  It covers the constructor's normalisation of `rpc_type`, a one-to-one change of
  representation for `entry_point` (the source stores that argument unchanged), the
  field-by-field equality of `__eq__`, and the three admission predicates
  `AvailableForType`, `AvailableForEntryPoint` and `IsValidFor`. It also models how
  invocation finds the callable again from its module and function name.
- `registry.dfy` (module `Registry`): the registry.
  - Pure functions state what one registration does to the store (`Admission`, `Registered`).
  - The class `MethodRegistry` has two fields. `methods` is a `map` that stands for the
    dict kept under the cache key. `names` is that dict's key order (insertion order).
  - `RegisterMethod` updates the registry in place. `GetMethod` and `GetAllMethods` read it.
  - Two client methods, `SquareScenario` and `ListingScenario`, walk through registration,
    lookup and listing.

The sentinel `ALL` is the string `"__all__"`, as in the source. A stored entry point is
either `AnyEntryPoint` or `EP(name)`. Stored rpc types are either `AnyType` or
`Types(list)`. `EntryPointOf` and `RpcTypesOf` map the raw constructor arguments to these
values; `EntryPointOf` only rewrites the stored string, and is proved one-to-one by
`EntryPointOfInjective`. The query arguments of `GetMethod` and `GetAllMethods` stay plain strings. So the
wildcard acts only on the descriptor's side, as the source's comparisons do.

## Model

| member | source | states |
|---|---|---|
| `Descriptor.NewRPCMethod` | modernrpc/core.py:17-25 | the descriptor takes the function's module and `__name__`, the given external name, and the normalised entry point and rpc types |
| `Descriptor.RpcTypesOf` | modernrpc/core.py:22-25 | the sentinel becomes the wildcard; a list is kept unchanged; any other single value becomes a one-element list |
| `Descriptor.EntryPointOf` | modernrpc/core.py:21 | the stored entry point is the wildcard exactly when the argument is the sentinel; otherwise it is the argument itself |
| `Descriptor.EntryPointOfInjective` | modernrpc/core.py:43 | normalising entry points keeps distinct raw values distinct, so comparing normalised entry points is the same as comparing raw ones |
| `Descriptor.ScalarIsSingletonList` | modernrpc/core.py:22-25 | a non-sentinel single rpc type builds the same descriptor as the one-element list holding it; the sentinel does not build the same descriptor as `[ALL]` |
| `Descriptor.NewRPCMethodEquality` | modernrpc/core.py:38-44 | two constructions are equal iff they have the same function, external name and entry point and the same normalised rpc types |
| `Descriptor.RPCMethod.SameDefinition` | modernrpc/core.py:38-44 | the five-field comparison holds exactly when the two descriptors are equal values |
| `Descriptor.RPCMethod.AvailableForType` | modernrpc/core.py:46-47 | admits every type under the wildcard; otherwise admits exactly the members of the stored list (also stated by `IsValidForCharacterised`) |
| `Descriptor.RPCMethod.AvailableForEntryPoint` | modernrpc/core.py:49-50 | admits every entry point under the wildcard; otherwise admits exactly the stored entry point (also stated by `IsValidForCharacterised`) |
| `Descriptor.RPCMethod.IsValidFor` | modernrpc/core.py:52-53 | holds iff the entry point is admitted (wildcard or equal) and the type is admitted (wildcard or member); this is the check every lookup and listing uses |
| `Descriptor.IsValidForCharacterised` | modernrpc/core.py:46-53 | valid iff available for the entry point and for the type; a wildcard admits every value; otherwise the entry point must be equal and the type must be a member of the list |
| `Descriptor.AdmissionOnRawArguments` | modernrpc/core.py:46-50 | admission on the raw arguments: entry point is `ALL` or equals the group; rpc type is `ALL`, equals the single value, or is in the list |
| `Descriptor.LocateCallable` | modernrpc/core.py:34-35 | the callable is found iff its module can be imported and has an attribute of that function name; otherwise lookup fails (`None`) |
| `Descriptor.LocateIgnoresRegistration` | modernrpc/core.py:34-36 | the callable depends only on module and function name, not on the external name or the constraints |
| `Registry.ExternalName` | modernrpc/core.py:74-75 | a given non-empty name is used; an absent or empty name is replaced by the function's `__name__` |
| `Registry.Admission` | modernrpc/core.py:85-94 | registration fails iff the name is taken by a different descriptor; the error names that external name |
| `Registry.Registered` | modernrpc/core.py:85-99 | afterwards the name is a key and the key set is the old keys plus that name; every existing entry keeps its descriptor; a new name maps to the new descriptor |
| `Registry.RegisterNewName` | modernrpc/core.py:96-99 | a fresh name succeeds and adds exactly that one entry; the store grows by one |
| `Registry.RegisterIdempotent` | modernrpc/core.py:85-90 | after a successful registration, registering the same descriptor again succeeds and leaves the store unchanged |
| `Registry.RegisterConflict` | modernrpc/core.py:89-94 | a different descriptor under a taken name gives `ImproperlyConfigured(name)`; the store, including the original descriptor, is unchanged |
| `Registry.RegisterKeepsWellKeyed` | modernrpc/core.py:97 | registration keeps every descriptor stored under its own external name |
| `Registry.RegisterCommutes` | modernrpc/core.py:71-99 | two registrations under different names have the same admission either way and give the same store in either order |
| `Registry.DistinctRegistrationsAccumulate` | modernrpc/core.py:71-99 | registering N descriptors with distinct fresh names grows the store by exactly N; each name holds its descriptor and old entries are kept |
| `Registry.ValidNames` | modernrpc/core.py:102-109 | the listing holds exactly those names among the keys whose descriptor is valid for the pair; it has no duplicates when the keys have none, and it is never longer than the keys |
| `Registry.GetAllMethodsAsWritten` | modernrpc/core.py:107-109 | the loop as written returns (an empty list) only for an empty registry; otherwise it raises, `ValueError` exactly when the first key does not have two characters and `AttributeError` when it does |
| `Registry.GetAllMethodsAsWrittenFails` | modernrpc/core.py:107-108 | with one method `add` open to every entry point and type, the intended listing is `["add"]`, while the code as written raises `ValueError` |
| `Registry.MethodRegistry.constructor` | modernrpc/core.py:82 | the registry starts empty when the cache holds none |
| `Registry.MethodRegistry.RegisterMethod` | modernrpc/core.py:71-99 | the outcome is `Admission` and the new map is `Registered` for the constructed descriptor; a new name is appended to the key order; the registry invariant (well keyed, key order distinct and equal to the keys) is kept |
| `Registry.MethodRegistry.GetMethod` | modernrpc/core.py:56-68 | returns the stored descriptor iff the name is registered and its descriptor is valid for the pair; otherwise it returns None |
| `Registry.MethodRegistry.GetAllMethods` | modernrpc/core.py:102-109 | lists exactly the registered names whose descriptor is valid for the pair, each once, and no more names than are registered |
| `Registry.ListedIffFound` | modernrpc/core.py:56-68 | a name is listed iff `GetMethod` finds it, and what it finds carries that external name |
| `Registry.UnregisteredNotFound` | modernrpc/core.py:62-68 | an unregistered name is found for no entry point and no rpc type |
| `Registry.ListingOfTwo` | modernrpc/core.py:102-109 | with `m1` restricted to entry point `A` and `m2` open to all, listing for `A` gives `[m1, m2]` and listing for `B` gives `[m2]` |

## Left out

- `RPCMethod.__call__` (modernrpc/core.py:27-36): re-importing the module and calling the function are dynamic code loading and a foreign call. `LocateCallable` models only finding the function, as a lookup in a map of the modules that `import_module` can return, which may fail. It folds both failures into `None`: the `ImportError` of line 34 and the `AttributeError` of `getattr` at line 35. Running the function, and the errors it raises, are not modelled.
- The Django cache (`cache.get`, `cache.set`, `cache.get_or_set`) and its timeout become the in-memory fields of `MethodRegistry`. Persistence, sharing across processes and a registry evicted from the cache are not modelled.
- Concurrency: the model is sequential. The read-check-write in `register_method` is one method call. The lost updates that two processes racing on the cache key could cause are not modelled.
- Default arguments: `entry_point=ALL, rpc_type=ALL` of `register_method` (modernrpc/core.py:71) and of `get_all_methods` (modernrpc/core.py:102). Dafny has no such defaults here, so callers pass `ALL` and `Scalar(ALL)` explicitly; no behaviour is lost.
- Logging (modernrpc/core.py:76) and the unused local `xx` (modernrpc/core.py:88): neither has an effect on the registry.
- The `rpc_method` decorator (modernrpc/core.py:112-124): it only forwards its keyword arguments to `register_method`.
- Argument types: an external name is `Option<string>`, so only `None` and `""` count as "not given"; other falsy Python values are not modelled. An `rpc_type` is a string or a list of strings; tuples and other containers are not modelled.
- modernrpc/tests/testsite/rpc_methods_stub/with_authentication.py: authentication decorators from `modernrpc.auth`. That module is not part of this model.

## Findings

| source | as written | input that shows it | evidently intended | confidence | as-written member | corrected member |
|---|---|---|---|---|---|---|
| modernrpc/core.py:108 | `for method_name, method in registry` iterates a dict, which yields only keys, then unpacks each key string into two names. This raises `ValueError` unless the name has exactly two characters, and `AttributeError` (a `str` has no `is_valid_for`) when it does. | a registry holding one method `add` registered with `entry_point=ALL, rpc_type=ALL`; `get_all_methods()` raises `ValueError` instead of returning `["add"]` | iterate `registry.items()` and list every name whose descriptor `is_valid_for` the pair, as the docstring at line 103 says | high (not executed) | `Registry.GetAllMethodsAsWritten`, `Registry.GetAllMethodsAsWrittenFails` | `Registry.ValidNames`, `Registry.MethodRegistry.GetAllMethods` |
