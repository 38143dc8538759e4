/**
  Name resolution over the loaded graph's argument and output variables, and
  the two node queries that list them by kind (`GetNodesShape`, `GetNodesSize`).
*/
module NodeRegistry {
  import opened Wrappers
  import opened CntkTypes

  /** Some variable of `vars` is called `name`. */
  predicate HasName(vars: seq<Variable>, name: string)
  {
    exists i :: 0 <= i < |vars| && vars[i].name == name
  }

  /** The names of `vars`. */
  function NameSet(vars: seq<Variable>): set<string>
  {
    set i | 0 <= i < |vars| :: vars[i].name
  }

  /** No two variables of `vars` share a name. */
  predicate NamesDistinct(vars: seq<Variable>)
  {
    forall i, j :: 0 <= i < j < |vars| ==> vars[i].name != vars[j].name
  }

  /** `i` is the position of the first variable of `vars` called `name`. */
  predicate IsFirstNamed(vars: seq<Variable>, name: string, i: int)
  {
    0 <= i < |vars| && vars[i].name == name && forall j :: 0 <= j < i ==> vars[j].name != name
  }

  /** Position of the first variable called `name`, the `Where(...).FirstOrDefault()` search. */
  function FindByName(vars: seq<Variable>, name: string): (r: Option<nat>)
    ensures r.Some? ==> IsFirstNamed(vars, name, r.value)
    ensures r.None? <==> !HasName(vars, name)
  {
    if |vars| == 0 then None
    else if vars[0].name == name then Some(0)
    else match FindByName(vars[1..], name)
      case None => None
      case Some(i) => Some(i + 1)
  }

  /** The first variable called `name`, or `None` (C# `null`). */
  function Lookup(vars: seq<Variable>, name: string): (r: Option<Variable>)
    ensures r.Some? <==> HasName(vars, name)
    ensures r.Some? ==> r.value.name == name
    ensures r.Some? ==> exists i :: IsFirstNamed(vars, name, i) && r.value == vars[i]
  {
    match FindByName(vars, name)
    case Some(i) => Some(vars[i])
    case None => None
  }

  /** Resolves a name against the arguments first and the outputs second; `None` when neither has it. */
  function GetVariableByName(g: Graph, name: string): (r: Option<Variable>)
    ensures r.Some? <==> HasName(g.arguments, name) || HasName(g.outputs, name)
    ensures r.Some? ==> r.value.name == name
    ensures HasName(g.arguments, name) ==>
      exists i :: IsFirstNamed(g.arguments, name, i) && r == Some(g.arguments[i])
    ensures !HasName(g.arguments, name) && HasName(g.outputs, name) ==>
      exists i :: IsFirstNamed(g.outputs, name, i) && r == Some(g.outputs[i])
  {
    match Lookup(g.arguments, name)
    case Some(v) => Some(v)
    case None => Lookup(g.outputs, name)
  }

  predicate IsTerminalKind(kind: VariableKind)
  {
    kind == Input || kind == Output
  }

  /** The variables a node query enumerates for `kind`. */
  function VariablesOfKind(g: Graph, kind: VariableKind): seq<Variable>
    requires IsTerminalKind(kind)
  {
    if kind == Input then g.arguments else g.outputs
  }

  /**
    The name the enumeration from position `i` on reports as duplicated: the
    first variable whose name already occurred before it.
  */
  function DuplicateFrom(vars: seq<Variable>, i: nat): Option<string>
    requires i <= |vars|
    decreases |vars| - i
  {
    if i == |vars| then None
    else if vars[i].name in NameSet(vars[..i]) then Some(vars[i].name)
    else DuplicateFrom(vars, i + 1)
  }

  function FirstDuplicate(vars: seq<Variable>): Option<string>
  {
    DuplicateFrom(vars, 0)
  }

  /** A duplicate is reported exactly when two variables share a name, and it is a shared name. */
  lemma FirstDuplicateSpec(vars: seq<Variable>)
    ensures FirstDuplicate(vars).None? <==> NamesDistinct(vars)
    ensures FirstDuplicate(vars).Some? ==>
      exists i, j :: 0 <= i < j < |vars| && vars[i].name == vars[j].name == FirstDuplicate(vars).value
  {
    DuplicateFromSpec(vars, 0);
  }

  lemma {:induction false} DuplicateFromSpec(vars: seq<Variable>, i: nat)
    requires i <= |vars| && NamesDistinct(vars[..i])
    ensures DuplicateFrom(vars, i).None? <==> NamesDistinct(vars)
    ensures DuplicateFrom(vars, i).Some? ==>
      exists p, q :: 0 <= p < q < |vars| && vars[p].name == vars[q].name == DuplicateFrom(vars, i).value
    decreases |vars| - i
  {
    if i == |vars| {
      assert vars[..i] == vars;
    } else if vars[i].name in NameSet(vars[..i]) {
      var p :| 0 <= p < i && vars[..i][p].name == vars[i].name;
      assert vars[p].name == vars[i].name;
    } else {
      EnumerationStep(vars, i);
      DuplicateFromSpec(vars, i + 1);
    }
  }

  /** One more step of an enumeration that has met no duplicate so far and meets a new name. */
  lemma EnumerationStep(vars: seq<Variable>, i: nat)
    requires i < |vars| && NamesDistinct(vars[..i]) && vars[i].name !in NameSet(vars[..i])
    ensures NamesDistinct(vars[..i + 1])
    ensures NameSet(vars[..i + 1]) == NameSet(vars[..i]) + {vars[i].name}
    ensures DuplicateFrom(vars, i) == DuplicateFrom(vars, i + 1)
  {
  }

  /** The enumeration stops at the first name it has already met, and that is the name reported. */
  lemma DuplicateMet(vars: seq<Variable>, i: nat)
    requires i < |vars| && DuplicateFrom(vars, i) == FirstDuplicate(vars)
    requires vars[i].name in NameSet(vars[..i])
    ensures !NamesDistinct(vars)
    ensures FirstDuplicate(vars) == Some(vars[i].name)
  {
  }

  /** An enumeration that ran to the end without meeting a duplicate. */
  lemma EnumerationDone(vars: seq<Variable>)
    requires NamesDistinct(vars[..|vars|])
    ensures NamesDistinct(vars) && FirstDuplicate(vars) == None
  {
    assert vars[..|vars|] == vars;
    FirstDuplicateSpec(vars);
  }

  /** The variables of `kind` in enumeration order, or the exception the node queries throw first. */
  method VariablesFor(root: Option<Graph>, kind: VariableKind) returns (r: Result<seq<Variable>, Error>)
    ensures !IsTerminalKind(kind) ==> r == Failure(ArgumentError)
    ensures IsTerminalKind(kind) && root.None? ==> r == Failure(NullReference)
    ensures IsTerminalKind(kind) && root.Some? ==> r == Success(VariablesOfKind(root.value, kind))
  {
    if kind == Input {
      if root.None? { return Failure(NullReference); }
      r := Success(root.value.arguments);
    } else if kind == Output {
      if root.None? { return Failure(NullReference); }
      r := Success(root.value.outputs);
    } else {
      r := Failure(ArgumentError);
    }
  }

  /**
    The `foreach` of `GetNodesShape`: the dimensions of every variable keyed by its name,
    or the first name met twice.
  */
  method ShapeTable(vars: seq<Variable>) returns (r: Result<map<string, seq<nat>>, Error>)
    ensures r.Success? <==> NamesDistinct(vars)
    ensures r.Failure? ==> FirstDuplicate(vars).Some? && r.error == DuplicatedName(FirstDuplicate(vars).value)
    ensures r.Success? ==> r.value.Keys == NameSet(vars)
    ensures r.Success? ==> forall i :: 0 <= i < |vars| ==> r.value[vars[i].name] == vars[i].dims
  {
    var retVal: map<string, seq<nat>> := map[];
    var i := 0;
    while i < |vars|
      invariant 0 <= i <= |vars|
      invariant NamesDistinct(vars[..i])
      invariant DuplicateFrom(vars, i) == FirstDuplicate(vars)
      invariant retVal.Keys == NameSet(vars[..i])
      invariant forall j :: 0 <= j < i ==> vars[j].name in retVal && retVal[vars[j].name] == vars[j].dims
    {
      var arg := vars[i];
      if arg.name in retVal {
        DuplicateMet(vars, i);
        return Failure(DuplicatedName(arg.name));
      }
      var dim: seq<nat> := [];
      var d := 0;
      while d < |arg.dims|
        invariant 0 <= d <= |arg.dims|
        invariant dim == arg.dims[..d]
      {
        dim := dim + [arg.dims[d]];
        d := d + 1;
      }
      assert dim == arg.dims;
      EnumerationStep(vars, i);
      ghost var before := retVal;
      retVal := retVal[arg.name := dim];
      forall j | 0 <= j < i + 1
        ensures vars[j].name in retVal && retVal[vars[j].name] == vars[j].dims
      {
        if j < i {
          assert vars[..i + 1][j].name != vars[..i + 1][i].name;
          assert retVal[vars[j].name] == before[vars[j].name];
        }
      }
      i := i + 1;
    }
    EnumerationDone(vars);
    assert vars[..i] == vars;
    r := Success(retVal);
  }

  /**
    The `foreach` of `GetNodesSize`: the number of elements of every variable keyed by its
    name, or the first name met twice.
  */
  method SizeTable(vars: seq<Variable>) returns (r: Result<map<string, nat>, Error>)
    ensures r.Success? <==> NamesDistinct(vars)
    ensures r.Failure? ==> FirstDuplicate(vars).Some? && r.error == DuplicatedName(FirstDuplicate(vars).value)
    ensures r.Success? ==> r.value.Keys == NameSet(vars)
    ensures r.Success? ==> forall i :: 0 <= i < |vars| ==> r.value[vars[i].name] == TotalSize(vars[i].dims)
  {
    var retVal: map<string, nat> := map[];
    var i := 0;
    while i < |vars|
      invariant 0 <= i <= |vars|
      invariant NamesDistinct(vars[..i])
      invariant DuplicateFrom(vars, i) == FirstDuplicate(vars)
      invariant retVal.Keys == NameSet(vars[..i])
      invariant forall j :: 0 <= j < i ==> vars[j].name in retVal && retVal[vars[j].name] == TotalSize(vars[j].dims)
    {
      var arg := vars[i];
      if arg.name in retVal {
        DuplicateMet(vars, i);
        return Failure(DuplicatedName(arg.name));
      }
      EnumerationStep(vars, i);
      ghost var before := retVal;
      retVal := retVal[arg.name := TotalSize(arg.dims)];
      forall j | 0 <= j < i + 1
        ensures vars[j].name in retVal && retVal[vars[j].name] == TotalSize(vars[j].dims)
      {
        if j < i {
          assert vars[..i + 1][j].name != vars[..i + 1][i].name;
          assert retVal[vars[j].name] == before[vars[j].name];
        }
      }
      i := i + 1;
    }
    EnumerationDone(vars);
    assert vars[..i] == vars;
    r := Success(retVal);
  }

  /**
    The dimensions of every variable of `kind`, keyed by name. Fails for any other kind
    before touching a variable, and on the first name met twice.
  */
  method GetNodesShape(root: Option<Graph>, kind: VariableKind) returns (r: Result<map<string, seq<nat>>, Error>)
    ensures !IsTerminalKind(kind) ==> r == Failure(ArgumentError)
    ensures IsTerminalKind(kind) && root.None? ==> r == Failure(NullReference)
    ensures IsTerminalKind(kind) && root.Some? ==>
      var vars := VariablesOfKind(root.value, kind);
      && (r.Success? <==> NamesDistinct(vars))
      && (r.Failure? ==> FirstDuplicate(vars).Some? && r.error == DuplicatedName(FirstDuplicate(vars).value))
      && (r.Success? ==> r.value.Keys == NameSet(vars))
      && (r.Success? ==> forall i :: 0 <= i < |vars| ==> r.value[vars[i].name] == vars[i].dims)
  {
    var varList := VariablesFor(root, kind);
    if varList.Failure? {
      return Failure(varList.error);
    }
    r := ShapeTable(varList.value);
  }

  /**
    The number of elements of every variable of `kind`, keyed by name, under the same
    kind check and duplicate rule as `GetNodesShape`.
  */
  method GetNodesSize(root: Option<Graph>, kind: VariableKind) returns (r: Result<map<string, nat>, Error>)
    ensures !IsTerminalKind(kind) ==> r == Failure(ArgumentError)
    ensures IsTerminalKind(kind) && root.None? ==> r == Failure(NullReference)
    ensures IsTerminalKind(kind) && root.Some? ==>
      var vars := VariablesOfKind(root.value, kind);
      && (r.Success? <==> NamesDistinct(vars))
      && (r.Failure? ==> FirstDuplicate(vars).Some? && r.error == DuplicatedName(FirstDuplicate(vars).value))
      && (r.Success? ==> r.value.Keys == NameSet(vars))
      && (r.Success? ==> forall i :: 0 <= i < |vars| ==> r.value[vars[i].name] == TotalSize(vars[i].dims))
  {
    var varList := VariablesFor(root, kind);
    if varList.Failure? {
      return Failure(varList.error);
    }
    r := SizeTable(varList.value);
  }
}
