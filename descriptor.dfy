/**
 * The method descriptor of django-modern-rpc (`RPCMethod`): where a remote
 * procedure lives, the public name it is called by, and the entry point and
 * protocol variants (rpc types) it may be called through.
 */
module Descriptor {
  import opened Wrappers

  /** The wildcard sentinel: "any entry point" or "any rpc type". */
  const ALL: string := "__all__"

  /** A Python function as the registry sees it: its `__module__` and its `__name__`. */
  datatype PyFunction = PyFunction(moduleName: string, name: string)

  /** The `rpc_type` argument as callers pass it: one value (possibly the sentinel) or a list. */
  datatype RpcTypeArg = Scalar(value: string) | List(items: seq<string>)

  /** The stored entry-point constraint: the wildcard, or exactly one entry point. */
  datatype EntryPoint = AnyEntryPoint | EP(name: string)

  /** The stored rpc-type constraint: the wildcard, or a list of admitted types. */
  datatype RpcTypes = AnyType | Types(list: seq<string>)

  /** One registered remote procedure. Equality of two values is equality of all five fields. */
  datatype RPCMethod = RPCMethod(
    moduleName: string,
    funcName: string,
    externalName: string,
    entryPoint: EntryPoint,
    rpcType: RpcTypes)
  {
    /** The comparison `__eq__` performs, field by field; it is exactly value equality. */
    predicate SameDefinition(other: RPCMethod): (r: bool)
      ensures r <==> this == other
    {
      && externalName == other.externalName
      && moduleName == other.moduleName
      && funcName == other.funcName
      && entryPoint == other.entryPoint
      && rpcType == other.rpcType
    }

    /** May this method be called with protocol variant `t`? */
    predicate AvailableForType(t: string): (r: bool)
      ensures rpcType.AnyType? ==> r
      ensures rpcType.Types? ==> (r <==> t in rpcType.list)
    {
      rpcType.AnyType? || t in rpcType.list
    }

    /** May this method be called through entry point `group`? */
    predicate AvailableForEntryPoint(group: string): (r: bool)
      ensures entryPoint.AnyEntryPoint? ==> r
      ensures entryPoint.EP? ==> (r <==> group == entryPoint.name)
    {
      entryPoint.AnyEntryPoint? || group == entryPoint.name
    }

    /** The admission check used by every lookup: both constraints must admit the pair. */
    predicate IsValidFor(group: string, t: string): (r: bool)
      ensures r <==> (entryPoint.AnyEntryPoint? || group == entryPoint.name) && (rpcType.AnyType? || t in rpcType.list)
    {
      AvailableForEntryPoint(group) && AvailableForType(t)
    }
  }

  /**
   * The entry point a raw `entry_point` argument stands for, in this model's
   * representation: the sentinel is the wildcard, every other string is itself.
   * The source stores the argument unchanged; this mapping is one-to-one
   * (`EntryPointOfInjective`), so it only changes how the value is written.
   */
  function EntryPointOf(raw: string): (e: EntryPoint)
    ensures e.AnyEntryPoint? <==> raw == ALL
    ensures e.EP? ==> e.name == raw
  {
    if raw == ALL then AnyEntryPoint else EP(raw)
  }

  /**
   * Constructor normalisation of `rpc_type`: the sentinel stays the wildcard,
   * a list is kept as it is, and any other single value becomes a one-element list.
   */
  function RpcTypesOf(raw: RpcTypeArg): (r: RpcTypes)
    ensures r.AnyType? <==> raw == Scalar(ALL)
    ensures raw.Scalar? && raw.value != ALL ==> r == Types([raw.value])
    ensures raw.List? ==> r == Types(raw.items)
  {
    match raw
    case Scalar(v) => if v == ALL then AnyType else Types([v])
    case List(items) => Types(items)
  }

  /** `RPCMethod(function, external_name, entry_point, rpc_type)`. */
  function NewRPCMethod(f: PyFunction, externalName: string, entryPoint: string, rpcType: RpcTypeArg): (m: RPCMethod)
    ensures m.moduleName == f.moduleName && m.funcName == f.name && m.externalName == externalName
    ensures m.entryPoint == EntryPointOf(entryPoint)
    ensures m.rpcType == RpcTypesOf(rpcType)
  {
    RPCMethod(f.moduleName, f.name, externalName, EntryPointOf(entryPoint), RpcTypesOf(rpcType))
  }

  /**
   * `is_valid_for` is the conjunction of the two availability checks; a wildcard
   * admits every value, otherwise the entry point must match exactly and the type
   * must be one of the listed ones.
   */
  lemma IsValidForCharacterised(d: RPCMethod, group: string, t: string)
    ensures d.IsValidFor(group, t) <==> d.AvailableForEntryPoint(group) && d.AvailableForType(t)
    ensures d.entryPoint.AnyEntryPoint? ==> forall g :: d.AvailableForEntryPoint(g)
    ensures d.rpcType.AnyType? ==> forall u :: d.AvailableForType(u)
    ensures d.entryPoint.EP? ==> (d.AvailableForEntryPoint(group) <==> group == d.entryPoint.name)
    ensures d.rpcType.Types? ==> (d.AvailableForType(t) <==> t in d.rpcType.list)
  {
  }

  /** Normalising the entry point loses nothing: the sentinel and every other string stay apart. */
  lemma EntryPointOfInjective(a: string, b: string)
    ensures EntryPointOf(a) == EntryPointOf(b) <==> a == b
  {
  }

  /**
   * Admission stated on the raw constructor arguments, as the source compares them:
   * `entry_point == ALL or group == entry_point`, and `rpc_type == ALL or t in rpc_type`
   * where a single value stands for the one-element list holding it.
   */
  lemma AdmissionOnRawArguments(f: PyFunction, name: string, ep: string, rt: RpcTypeArg, group: string, t: string)
    ensures NewRPCMethod(f, name, ep, rt).AvailableForEntryPoint(group) <==> ep == ALL || group == ep
    ensures NewRPCMethod(f, name, ep, rt).AvailableForType(t) <==>
      rt == Scalar(ALL) || (rt.Scalar? && t == rt.value) || (rt.List? && t in rt.items)
  {
  }

  /**
   * Two constructions give equal descriptors exactly when they wrap the same function
   * under the same name, with the same entry point and the same normalised rpc types.
   */
  lemma NewRPCMethodEquality(
    f1: PyFunction, n1: string, e1: string, r1: RpcTypeArg,
    f2: PyFunction, n2: string, e2: string, r2: RpcTypeArg)
    ensures NewRPCMethod(f1, n1, e1, r1) == NewRPCMethod(f2, n2, e2, r2) <==>
      f1 == f2 && n1 == n2 && e1 == e2 && RpcTypesOf(r1) == RpcTypesOf(r2)
  {
    EntryPointOfInjective(e1, e2);
  }

  /**
   * A single non-sentinel rpc type and the one-element list holding it build the same
   * descriptor; the sentinel, by contrast, is not the same as a list holding it.
   */
  lemma ScalarIsSingletonList(f: PyFunction, name: string, ep: string, s: string)
    ensures s != ALL ==> NewRPCMethod(f, name, ep, Scalar(s)) == NewRPCMethod(f, name, ep, List([s]))
    ensures NewRPCMethod(f, name, ep, Scalar(ALL)) != NewRPCMethod(f, name, ep, List([ALL]))
  {
  }

  /**
   * Invocation first re-finds the function: it imports the descriptor's module and
   * reads the function name from it. `importable` maps every module name that an
   * import can return to the attributes of that module. Both failures (the import
   * fails, or the module has no such attribute) are `None`.
   */
  function LocateCallable<F>(d: RPCMethod, importable: map<string, map<string, F>>): (r: Option<F>)
    ensures r.Some? <==> d.moduleName in importable && d.funcName in importable[d.moduleName]
    ensures r.Some? ==> r.value == importable[d.moduleName][d.funcName]
  {
    if d.moduleName in importable && d.funcName in importable[d.moduleName] then
      Some(importable[d.moduleName][d.funcName])
    else
      None
  }

  /**
   * What is called depends only on where the function lives, not on the name or the
   * constraints it was registered with.
   */
  lemma LocateIgnoresRegistration<F>(d1: RPCMethod, d2: RPCMethod, importable: map<string, map<string, F>>)
    requires d1.moduleName == d2.moduleName && d1.funcName == d2.funcName
    ensures LocateCallable(d1, importable) == LocateCallable(d2, importable)
  {
  }
}
