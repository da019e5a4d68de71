/**
 * The registry of django-modern-rpc: a store from external name to method
 * descriptor, with registration that tolerates repeats and rejects conflicts,
 * lookup by name, and listing of every name usable through an entry point and
 * protocol variant.
 */
module Registry {
  import opened Wrappers
  import opened Descriptor

  /** The outcome of `register_method`: it returns, or raises `ImproperlyConfigured`. */
  datatype RegisterOutcome = Success | ImproperlyConfigured(name: string)

  /** The exceptions the listing loop, as written, raises. */
  datatype PyError = ValueError | AttributeError

  /** No value occurs twice. */
  predicate Distinct(s: seq<string>) {
    forall i, j :: 0 <= i < j < |s| ==> s[i] != s[j]
  }

  /** Every descriptor is stored under its own external name. */
  ghost predicate WellKeyed(reg: map<string, RPCMethod>) {
    forall n :: n in reg ==> reg[n].externalName == n
  }

  /** The external name: the one given, unless it is absent or empty, else the function's `__name__`. */
  function ExternalName(f: PyFunction, name: Option<string>): (r: string)
    ensures name.Some? && name.value != "" ==> r == name.value
    ensures name == None || name == Some("") ==> r == f.name
  {
    if name.None? || name.value == "" then f.name else name.value
  }

  /**
   * Whether registering `m` into `reg` succeeds: it fails exactly when its name is
   * taken by a different descriptor.
   */
  function Admission(reg: map<string, RPCMethod>, m: RPCMethod): (r: RegisterOutcome)
    ensures r.Success? <==> m.externalName !in reg || reg[m.externalName] == m
    ensures r.ImproperlyConfigured? ==> r.name == m.externalName
  {
    if m.externalName in reg && !m.SameDefinition(reg[m.externalName]) then
      ImproperlyConfigured(m.externalName)
    else
      Success
  }

  /**
   * The store after registering `m`: its name is now a key, and no entry that was
   * already there is replaced.
   */
  function Registered(reg: map<string, RPCMethod>, m: RPCMethod): (r: map<string, RPCMethod>)
    ensures r.Keys == reg.Keys + {m.externalName}
    ensures forall n :: n in reg ==> r[n] == reg[n]
    ensures m.externalName !in reg ==> r[m.externalName] == m
  {
    if m.externalName in reg then reg else reg[m.externalName := m]
  }

  /** Registering `ms` one after another, from first to last. */
  function RegisterAll(reg: map<string, RPCMethod>, ms: seq<RPCMethod>): map<string, RPCMethod>
    decreases |ms|
  {
    if ms == [] then reg else RegisterAll(Registered(reg, ms[0]), ms[1..])
  }

  /** A name not yet taken is added as exactly one new entry, and nothing else changes. */
  lemma RegisterNewName(reg: map<string, RPCMethod>, m: RPCMethod)
    requires m.externalName !in reg
    ensures Admission(reg, m) == Success
    ensures Registered(reg, m) == reg[m.externalName := m]
    ensures |Registered(reg, m)| == |reg| + 1
  {
  }

  /** Registering the same descriptor again succeeds and leaves the store as it was. */
  lemma RegisterIdempotent(reg: map<string, RPCMethod>, m: RPCMethod)
    requires Admission(reg, m) == Success
    ensures Admission(Registered(reg, m), m) == Success
    ensures Registered(Registered(reg, m), m) == Registered(reg, m)
  {
  }

  /** A different descriptor under a taken name is refused and the stored one is kept. */
  lemma RegisterConflict(reg: map<string, RPCMethod>, m: RPCMethod)
    requires m.externalName in reg && reg[m.externalName] != m
    ensures Admission(reg, m) == ImproperlyConfigured(m.externalName)
    ensures Registered(reg, m) == reg
  {
  }

  /** Registration keeps every descriptor under its own external name. */
  lemma RegisterKeepsWellKeyed(reg: map<string, RPCMethod>, m: RPCMethod)
    requires WellKeyed(reg)
    ensures WellKeyed(Registered(reg, m))
  {
  }

  /** Two registrations under different names give the same store in either order. */
  lemma RegisterCommutes(reg: map<string, RPCMethod>, a: RPCMethod, b: RPCMethod)
    requires a.externalName != b.externalName
    ensures Admission(Registered(reg, a), b) == Admission(reg, b)
    ensures Registered(Registered(reg, a), b) == Registered(Registered(reg, b), a)
  {
  }

  /** The names of a sequence of descriptors are pairwise distinct. */
  ghost predicate DistinctNames(ms: seq<RPCMethod>) {
    forall i, j :: 0 <= i < j < |ms| ==> ms[i].externalName != ms[j].externalName
  }

  /**
   * Registering N descriptors under N distinct fresh names loses none of them: the
   * store grows by exactly N entries and each name holds its own descriptor.
   */
  lemma {:induction false} DistinctRegistrationsAccumulate(reg: map<string, RPCMethod>, ms: seq<RPCMethod>)
    requires DistinctNames(ms)
    requires forall i :: 0 <= i < |ms| ==> ms[i].externalName !in reg
    ensures |RegisterAll(reg, ms)| == |reg| + |ms|
    ensures forall i :: 0 <= i < |ms| ==>
      ms[i].externalName in RegisterAll(reg, ms) && RegisterAll(reg, ms)[ms[i].externalName] == ms[i]
    ensures forall n :: n in reg ==> n in RegisterAll(reg, ms) && RegisterAll(reg, ms)[n] == reg[n]
    decreases |ms|
  {
    if ms != [] {
      var next := Registered(reg, ms[0]);
      RegisterNewName(reg, ms[0]);
      var rest := ms[1..];
      assert DistinctNames(rest) by {
        forall i, j | 0 <= i < j < |rest| ensures rest[i].externalName != rest[j].externalName {
          assert rest[i] == ms[i + 1] && rest[j] == ms[j + 1];
        }
      }
      forall i | 0 <= i < |rest| ensures rest[i].externalName !in next {
        assert rest[i] == ms[i + 1];
      }
      DistinctRegistrationsAccumulate(next, rest);
      forall i | 0 <= i < |ms|
        ensures ms[i].externalName in RegisterAll(reg, ms) && RegisterAll(reg, ms)[ms[i].externalName] == ms[i]
      {
        if i > 0 {
          assert ms[i] == rest[i - 1];
        }
      }
    }
  }

  /**
   * The names among `keys` whose stored descriptor admits the pair, in the order of
   * `keys`: the listing `get_all_methods` is documented to produce.
   */
  function ValidNames(keys: seq<string>, reg: map<string, RPCMethod>, group: string, t: string): (r: seq<string>)
    ensures forall n :: n in r <==> n in keys && n in reg && reg[n].IsValidFor(group, t)
    ensures Distinct(keys) ==> Distinct(r)
    ensures |r| <= |keys|
  {
    if keys == [] then []
    else
      var rest := ValidNames(keys[1..], reg, group, t);
      if keys[0] in reg && reg[keys[0]].IsValidFor(group, t) then [keys[0]] + rest else rest
  }

  /**
   * `get_all_methods` as written: iterating the dict yields its keys, and unpacking a
   * key into `method_name, method` fails, with `ValueError` unless the key has exactly
   * two characters and with `AttributeError` when it does (a one-character string has
   * no `is_valid_for`). Only the empty registry is listed without an error.
   */
  function GetAllMethodsAsWritten(keys: seq<string>): (r: Result<seq<string>, PyError>)
    ensures r.Ok? <==> keys == []
    ensures r.Ok? ==> r.value == []
    ensures r.Err? ==> (r.error == ValueError <==> |keys[0]| != 2)
  {
    if keys == [] then Ok([])
    else if |keys[0]| != 2 then Err(ValueError)
    else Err(AttributeError)
  }

  /** One method registered for every entry point and type is listed as intended, but not as written. */
  lemma GetAllMethodsAsWrittenFails()
    ensures var m := NewRPCMethod(PyFunction("calc", "add"), "add", ALL, Scalar(ALL));
      && ValidNames(["add"], map["add" := m], ALL, ALL) == ["add"]
      && GetAllMethodsAsWritten(["add"]) == Err(ValueError)
  {
  }

  /**
   * The registry store. `methods` holds what the cache key holds; `names` is the key
   * order of that dict (insertion order), which a listing follows.
   */
  class MethodRegistry {
    var methods: map<string, RPCMethod>
    var names: seq<string>

    ghost predicate Valid()
      reads this
    {
      && WellKeyed(methods)
      && Distinct(names)
      && (forall n :: n in names <==> n in methods)
    }

    /** The registry as first read: empty. */
    constructor ()
      ensures Valid()
      ensures methods == map[] && names == []
    {
      methods := map[];
      names := [];
    }

    /**
     * `register_method`: build the descriptor, read the store, refuse a conflicting
     * name, accept a repeat without change, otherwise add the new entry and write back.
     */
    method RegisterMethod(f: PyFunction, name: Option<string>, entryPoint: string, rpcType: RpcTypeArg)
      returns (outcome: RegisterOutcome)
      requires Valid()
      modifies this
      ensures Valid()
      ensures var m := NewRPCMethod(f, ExternalName(f, name), entryPoint, rpcType);
        && outcome == Admission(old(methods), m)
        && methods == Registered(old(methods), m)
        && names == if m.externalName in old(methods) then old(names) else old(names) + [m.externalName]
    {
      var external := ExternalName(f, name);
      var m := NewRPCMethod(f, external, entryPoint, rpcType);
      var registry := methods;
      if m.externalName in registry {
        if m.SameDefinition(registry[m.externalName]) {
          return Success;
        } else {
          return ImproperlyConfigured(m.externalName);
        }
      }
      registry := registry[m.externalName := m];
      methods := registry;
      names := names + [m.externalName];
      outcome := Success;
    }

    /**
     * `get_method`: the stored descriptor when the name is registered and the
     * descriptor admits the entry point and type; nothing otherwise.
     */
    function GetMethod(name: string, entryPoint: string, rpcType: string): (r: Option<RPCMethod>)
      reads this
      ensures r.Some? <==> name in methods && methods[name].IsValidFor(entryPoint, rpcType)
      ensures r.Some? ==> r.value == methods[name]
    {
      if name in methods && methods[name].IsValidFor(entryPoint, rpcType) then Some(methods[name]) else None
    }

    /**
     * `get_all_methods`, as its documentation states it: every registered name whose
     * descriptor admits the pair, each once, in registration order.
     */
    function GetAllMethods(entryPoint: string, rpcType: string): (r: seq<string>)
      reads this
      requires Valid()
      ensures forall n :: n in r <==> n in methods && methods[n].IsValidFor(entryPoint, rpcType)
      ensures Distinct(r)
      ensures |r| <= |methods|
    {
      ValidNamesCount(names, methods);
      ValidNames(names, methods, entryPoint, rpcType)
    }
  }

  /** A sequence of distinct keys of a map is no longer than the map. */
  lemma {:induction false} ValidNamesCount(keys: seq<string>, reg: map<string, RPCMethod>)
    requires Distinct(keys)
    requires forall n :: n in keys ==> n in reg
    ensures |keys| <= |reg|
  {
    if keys != [] {
      var k := keys[0];
      var rest := keys[1..];
      assert Distinct(rest) by {
        forall i, j | 0 <= i < j < |rest| ensures rest[i] != rest[j] {
          assert rest[i] == keys[i + 1] && rest[j] == keys[j + 1];
        }
      }
      forall n | n in rest ensures n in reg - {k} {
        var i :| 0 <= i < |rest| && rest[i] == n;
        assert keys[i + 1] == n;
      }
      ValidNamesCount(rest, reg - {k});
    }
  }

  /** A name is listed exactly when it can be looked up, and what is found carries that name. */
  lemma ListedIffFound(r: MethodRegistry, name: string, entryPoint: string, rpcType: string)
    requires r.Valid()
    ensures name in r.GetAllMethods(entryPoint, rpcType) <==> r.GetMethod(name, entryPoint, rpcType).Some?
    ensures r.GetMethod(name, entryPoint, rpcType).Some? ==>
      r.GetMethod(name, entryPoint, rpcType).value.externalName == name
  {
  }

  /** A name never registered is found through no entry point and no type. */
  lemma UnregisteredNotFound(r: MethodRegistry, name: string)
    requires name !in r.methods
    ensures forall g, t :: r.GetMethod(name, g, t) == None
  {
  }

  /**
   * A function registered for the json protocol only: found for json, not for xml;
   * a repeat with the same definition is accepted and changes nothing; another
   * function under the same name is refused.
   */
  method SquareScenario()
  {
    var r := new MethodRegistry();
    var square := PyFunction("rpc_methods_stub", "square");
    var o := r.RegisterMethod(square, None, ALL, Scalar("json"));
    assert o == Success;
    assert r.GetMethod("square", ALL, "xml") == None;
    assert r.GetMethod("square", ALL, "json").Some?;
    o := r.RegisterMethod(square, Some(""), ALL, List(["json"]));
    assert o == Success && r.names == ["square"];
    o := r.RegisterMethod(PyFunction("other", "square"), None, ALL, Scalar("json"));
    assert o == ImproperlyConfigured("square") && r.names == ["square"];
  }

  /**
   * One method restricted to entry point "A" and one open to every entry point:
   * listing for "A" gives both, listing for "B" only the open one.
   */
  method ListingScenario()
  {
    var r := new MethodRegistry();
    var o := r.RegisterMethod(PyFunction("m", "one"), Some("m1"), "A", Scalar(ALL));
    o := r.RegisterMethod(PyFunction("m", "two"), Some("m2"), ALL, Scalar(ALL));
    ListingOfTwo(r.names, r.methods);
    assert r.GetAllMethods("A", "xml") == ["m1", "m2"];
    assert r.GetAllMethods("B", "xml") == ["m2"];
  }

  /** The listings of `ListingScenario`, on the registry it builds. */
  lemma ListingOfTwo(keys: seq<string>, reg: map<string, RPCMethod>)
    requires keys == ["m1", "m2"]
    requires reg == map["m1" := NewRPCMethod(PyFunction("m", "one"), "m1", "A", Scalar(ALL)),
                        "m2" := NewRPCMethod(PyFunction("m", "two"), "m2", ALL, Scalar(ALL))]
    ensures ValidNames(keys, reg, "A", "xml") == ["m1", "m2"]
    ensures ValidNames(keys, reg, "B", "xml") == ["m2"]
  {
    assert keys[1..] == ["m2"] && keys[1..][1..] == [];
  }
}
