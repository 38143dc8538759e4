/**
  One call of `Evaluate`: resolve the caller's argument and output keys against the
  root function's variables, run the native evaluation, and write every produced value
  back into the caller's output dictionary under its key.
*/
module Executor {
  import opened Wrappers
  import opened CntkTypes
  import opened NodeRegistry

  /** A native variable-to-value map (`UnorderedMapVariableValuePtr`). */
  type Bindings<V> = map<Variable, V>

  /**
    The native `Function.Evaluate`, seen per output slot: the value it leaves for output
    variable `v`, given the argument bindings, the output bindings and the device.
  */
  type NativeEvaluate<!V> = (Bindings<V>, Bindings<V>, Device, Variable) -> V

  /** The caller's `Dictionary<string, Value>`, which `Evaluate` updates in place. */
  class ValueMap<V> {
    var entries: map<string, V>

    constructor (init: map<string, V>)
      ensures entries == init
    {
      entries := init;
    }
  }

  /** Every key of `keys` names some variable of `vars`. */
  predicate AllResolve(vars: seq<Variable>, keys: set<string>)
  {
    forall k :: k in keys ==> HasName(vars, k)
  }

  /**
    The native map built from a dictionary: each key's value, bound to the first
    variable of that name.
  */
  function Bind<V>(vars: seq<Variable>, dict: map<string, V>): (b: Bindings<V>)
    requires AllResolve(vars, dict.Keys)
    ensures forall k :: k in dict ==> Lookup(vars, k).value in b
    ensures forall v :: v in b ==> v.name in dict && Lookup(vars, v.name) == Some(v) && b[v] == dict[v.name]
  {
    map k | k in dict :: Lookup(vars, k).value := dict[k]
  }

  /** `b` binds exactly the keys of `keys`, each to its variable of `vars` and its value in `dict`. */
  ghost predicate BindsKeys<V>(b: Bindings<V>, vars: seq<Variable>, dict: map<string, V>, keys: set<string>)
    requires keys <= dict.Keys
  {
    && (forall k :: k in keys ==> Lookup(vars, k).Some? && Lookup(vars, k).value in b && b[Lookup(vars, k).value] == dict[k])
    && (forall v :: v in b ==> v.name in keys && Lookup(vars, v.name) == Some(v))
  }

  /** A map binding every key of the dictionary is the dictionary's `Bind`. */
  lemma BindsAllKeys<V>(b: Bindings<V>, vars: seq<Variable>, dict: map<string, V>)
    requires BindsKeys(b, vars, dict, dict.Keys)
    ensures AllResolve(vars, dict.Keys)
    ensures b == Bind(vars, dict)
  {
  }

  /**
    The `foreach` over a caller's dictionary that builds a native map: fails on a key that
    names no variable of `vars`, and otherwise binds every key's value to its variable.
  */
  method BindAll<V>(vars: seq<Variable>, dict: map<string, V>) returns (r: Result<Bindings<V>, string>)
    ensures r.Success? <==> AllResolve(vars, dict.Keys)
    ensures r.Success? ==> r.value == Bind(vars, dict)
    ensures r.Failure? ==> r.error in dict && !HasName(vars, r.error)
  {
    var bound: Bindings<V> := map[];
    var pending := dict.Keys;
    while pending != {}
      invariant pending <= dict.Keys
      invariant BindsKeys(bound, vars, dict, dict.Keys - pending)
      decreases pending
    {
      var k :| k in pending;
      var variable := Lookup(vars, k);
      if variable.None? {
        return Failure(k);
      }
      bound := bound[variable.value := dict[k]];
      pending := pending - {k};
    }
    BindsAllKeys(bound, vars, dict);
    r := Success(bound);
  }

  /** Distinct variables of `b` have distinct names. */
  predicate NamesUnique<V>(b: Bindings<V>)
  {
    forall v, w :: v in b && w in b && v.name == w.name ==> v == w
  }

  /**
    The loop `outputs[p.Key.Name()] = p.Value` over the evaluated output map: each
    variable's value lands under its name, and every other entry is left alone.
  */
  method WriteBack<V>(outputs: ValueMap<V>, produced: Bindings<V>)
    requires NamesUnique(produced)
    requires forall v :: v in produced ==> v.name in outputs.entries
    modifies outputs
    ensures outputs.entries.Keys == old(outputs.entries).Keys
    ensures forall v :: v in produced ==> outputs.entries[v.name] == produced[v]
    ensures forall k :: k in outputs.entries && (forall v :: v in produced ==> v.name != k) ==>
      outputs.entries[k] == old(outputs.entries)[k]
  {
    var pending := produced.Keys;
    while pending != {}
      invariant pending <= produced.Keys
      invariant outputs.entries.Keys == old(outputs.entries).Keys
      invariant forall v :: v in produced && v !in pending ==> outputs.entries[v.name] == produced[v]
      invariant forall k :: k in outputs.entries && (forall v :: v in produced && v !in pending ==> v.name != k) ==>
        outputs.entries[k] == old(outputs.entries)[k]
      decreases pending
    {
      var v :| v in pending;
      outputs.entries := outputs.entries[v.name := produced[v]];
      pending := pending - {v};
    }
  }

  /**
    Fails when no root function is loaded, then on an argument key that names no argument
    variable, then on an output key that names no output variable; only after all keys
    resolve does it run the native evaluation and overwrite each output entry with the value
    produced for its variable, adding and removing no key.
  */
  method Evaluate<V>(root: Option<Graph>, arguments: map<string, V>, outputs: ValueMap<V>,
                     device: Device, native: NativeEvaluate<V>)
    returns (r: Outcome<Error>)
    modifies outputs
    ensures r.Fail? ==> outputs.entries == old(outputs.entries)
    ensures root.None? ==> r == Fail(NullReference)
    ensures root.Some? && !AllResolve(root.value.arguments, arguments.Keys) ==>
      r.Fail? && r.error.InputNotFound? && r.error.name in arguments &&
      !HasName(root.value.arguments, r.error.name)
    ensures root.Some? && AllResolve(root.value.arguments, arguments.Keys) &&
            !AllResolve(root.value.outputs, old(outputs.entries).Keys) ==>
      r.Fail? && r.error.OutputNotFound? && r.error.name in old(outputs.entries) &&
      !HasName(root.value.outputs, r.error.name)
    ensures root.Some? && AllResolve(root.value.arguments, arguments.Keys) &&
            AllResolve(root.value.outputs, old(outputs.entries).Keys) ==>
      && r.Pass?
      && outputs.entries.Keys == old(outputs.entries).Keys
      && forall k :: k in outputs.entries ==>
           outputs.entries[k] == native(Bind(root.value.arguments, arguments),
                                        Bind(root.value.outputs, old(outputs.entries)),
                                        device, Lookup(root.value.outputs, k).value)
  {
    if root.None? {
      return Fail(NullReference);
    }
    var g := root.value;

    var argMap := BindAll(g.arguments, arguments);
    if argMap.Failure? {
      return Fail(InputNotFound(argMap.error));
    }
    var outMap := BindAll(g.outputs, outputs.entries);
    if outMap.Failure? {
      return Fail(OutputNotFound(outMap.error));
    }

    // The native evaluation fills every output slot.
    var produced := map v | v in outMap.value :: native(argMap.value, outMap.value, device, v);

    WriteBack(outputs, produced);
    forall k | k in outputs.entries
      ensures outputs.entries[k] == produced[Lookup(g.outputs, k).value]
    {
      assert Lookup(g.outputs, k).value in outMap.value;
    }
    r := Pass;
  }
}
