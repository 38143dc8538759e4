# CNTK C# evaluation binding: a Dafny model of its managed logic

`CNTK.CSharp.Evaluation` (bindings/csharp/CSEvalV2Library/CSEvalV2Library.cs) is a thin C#
layer over the native CNTK library. Most of its work happens in native code: loading a model,
evaluating the graph, packing sequences into a dense tensor, and copying tensor data.
Around those calls it has its own logic, and that logic is what this project models and proves:

- **Node registry** (`NodeRegistry`). `GetNodesShape` and `GetNodesSize` list the root
  function's argument or output variables by name. They reject any other variable kind and
  any duplicated name. `getVariableByName` searches the arguments first, then the outputs.
- **Evaluation** (`Executor`). `Evaluate` resolves every argument key against the arguments
  and every output key against the outputs. It then calls the native evaluation and writes
  each produced value back into the caller's output dictionary.
- **Dense exchange** (`DenseCodec`). `CreateValue<T>` checks that each sequence holds a whole
  number of samples and that `T` is float or double, then hands the sequences to the native
  packer. `CopyValueTo<T>` checks device, element type, storage format and shape, then splits
  the value's flat buffer into one new list per sequence.

Shared types are in `CntkTypes`: variables as `(name, dims)`, the graph as its argument and
output lists, devices, element and storage tags, and one `Error` constructor per exception the
binding throws. `TotalSize` is the product of the dimensions. `Wrappers` holds
`Option`/`Result`/`Outcome`: a C# `null` becomes `None` and a thrown exception becomes a
failure value.

Modelling choices:

- The `Evaluation` object's only field, `rootFunction`, is passed as `root: Option<Graph>`.
  `LoadModel` never assigns it, so "loaded or not" is an input.
- The caller's output dictionary is the class `Executor.ValueMap` (a `map` field that
  `Evaluate` rewrites). The caller's `List<List<T>>` is the class `DenseCodec.SequenceList`
  (a `seq` field that `CopyValueTo` appends to). The host buffer of `CopyValueTo` is an
  `array<T>`.
- Native collaborators are parameters:
  - `NativeEvaluate` gives the value `Function.Evaluate` leaves in each output slot.
  - `Packer` stands for `Value.CreateDenseFloat`/`CreateDenseDouble`.
  - The native copy into the host buffer is the value's `data` sequence. Its length is the
    shape's size, which a native value always satisfies; `CopyValueTo` requires it.
- `Debug.Assert` on the value's rank and size becomes the failure `AssertionFailed`.
- A .NET `Dictionary` enumerates keys in an order the model does not fix. `Evaluate` therefore
  promises to name *some* unknown key, not the first one in enumeration order.

Behaviour of the code that a caller may not expect:

- An unknown name is not reported as "node not found". `getVariableByName` returns `null`,
  and `CreateValue`/`CopyValueTo` then dereference it. The model reports `NullReference`.
- The element-type guard of `CopyValueTo` is `(Float && T≠float) || (Double && T≠double)`.
  A value tagged `Unknown` passes it. It fails later, after the shape assertions, with
  `UnsupportedDataType("Unknown")`.
- `Evaluate` writes nothing to `outputs` before every key has resolved. A failed call
  therefore leaves `outputs` unchanged.
- A zero per-sample size makes `CreateValue` divide by zero, but only when at least one
  sequence is present (`DivideByZero`).
- The round trip "encode then decode gives back the batch" is proved for the contiguous
  layout of equal-length sequences (`DenseLayout`). The native packer itself is not modelled.

## Model

| member | source | states |
|---|---|---|
| `CntkTypes.TotalSizeAppend` | bindings/csharp/CSEvalV2Library/CSEvalV2Library.cs:218-233 | the size of a shape with appended axes is the product of both sizes, which is what makes "elements per sample × samples × sequences = total" hold for a shape with the two sequence axes appended |
| `NodeRegistry.FindByName` | bindings/csharp/CSEvalV2Library/CSEvalV2Library.cs:270 | `Where(name).FirstOrDefault()`: returns the position of the first variable with that name, and nothing exactly when no variable has it |
| `NodeRegistry.Lookup` | bindings/csharp/CSEvalV2Library/CSEvalV2Library.cs:121 | present exactly when some variable has the name; then it is the variable at the first position holding that name |
| `NodeRegistry.GetVariableByName` | bindings/csharp/CSEvalV2Library/CSEvalV2Library.cs:268-277 | present exactly when an argument or an output has the name; it is the first argument with the name if any, else the first output with it, and `None` (null) when neither has it |
| `NodeRegistry.FirstDuplicateSpec` | bindings/csharp/CSEvalV2Library/CSEvalV2Library.cs:55-60 | the enumeration reports a duplicate exactly when two variables share a name, and the name it reports is shared by two variables |
| `NodeRegistry.DuplicateFromSpec` | bindings/csharp/CSEvalV2Library/CSEvalV2Library.cs:55-60 | the same, for an enumeration resumed at position `i` after a duplicate-free prefix |
| `NodeRegistry.VariablesFor` | bindings/csharp/CSEvalV2Library/CSEvalV2Library.cs:40-53 | any kind other than Input or Output fails with an argument error whether or not a root is loaded; Input gives the arguments and Output the outputs; a missing root is a null reference |
| `NodeRegistry.ShapeTable` | bindings/csharp/CSEvalV2Library/CSEvalV2Library.cs:55-69 | succeeds exactly when names are distinct; on failure it reports the first repeated name; on success the key set is exactly the names and each name maps to that variable's dimensions |
| `NodeRegistry.SizeTable` | bindings/csharp/CSEvalV2Library/CSEvalV2Library.cs:96-104 | same duplicate rule and key set, with each name mapped to the product of its variable's dimensions |
| `NodeRegistry.GetNodesShape` | bindings/csharp/CSEvalV2Library/CSEvalV2Library.cs:36-72 | the kind is rejected before any variable is read; then the duplicate rule, the key set and the dimension lists of `ShapeTable` over the arguments or outputs |
| `NodeRegistry.GetNodesSize` | bindings/csharp/CSEvalV2Library/CSEvalV2Library.cs:77-107 | the kind is rejected before any variable is read; then the duplicate rule, the key set and the sizes of `SizeTable`, so each size is the product of the dimensions `GetNodesShape` reports for that name |
| `Executor.Bind` | bindings/csharp/CSEvalV2Library/CSEvalV2Library.cs:118-138 | the native map built from a dictionary binds exactly the first variable of each key's name, to that key's value, and nothing else |
| `Executor.BindAll` | bindings/csharp/CSEvalV2Library/CSEvalV2Library.cs:119-127 | the resolution loop fails exactly when some key names no variable, naming such a key; otherwise it yields `Bind` of the dictionary |
| `Executor.WriteBack` | bindings/csharp/CSEvalV2Library/CSEvalV2Library.cs:142-145 | writing the evaluated map back puts each variable's value under its name, keeps the key set, and leaves every other entry as it was |
| `Executor.Evaluate` | bindings/csharp/CSEvalV2Library/CSEvalV2Library.cs:110-146 | fails with a null reference when no root is loaded, then on an unknown argument key, then on an unknown output key, and in each case leaves `outputs` unchanged; on success the key set of `outputs` is unchanged and each key holds what the native evaluation produced for its output variable |
| `DenseCodec.CheckSequences` | bindings/csharp/CSEvalV2Library/CSEvalV2Library.cs:158-166 | passes exactly when every sequence's length is a multiple of a non-zero sample size (an empty list passes); otherwise it fails with a division by zero for a zero sample size, or a dimension mismatch |
| `DenseCodec.CreateValue` | bindings/csharp/CSEvalV2Library/CSEvalV2Library.cs:150-189 | an unresolved name is a null reference; otherwise it succeeds exactly when `T` is float or double and every sequence is whole samples; another `T` fails with its type name; a success is the native packer's value for the variable's shape and the matching element tag |
| `DenseCodec.Chunks` | bindings/csharp/CSEvalV2Library/CSEvalV2Library.cs:249-258 | cutting `n` chunks yields exactly `n` lists |
| `DenseCodec.ChunkAt` | bindings/csharp/CSEvalV2Library/CSEvalV2Library.cs:249-258 | the `i`-th chunk is elements `k*i` up to `k*(i+1)` of the buffer, and that range lies inside the buffer |
| `DenseCodec.FlattenChunks` | bindings/csharp/CSEvalV2Library/CSEvalV2Library.cs:249-258 | the chunks laid end to end are the first `k*n` elements of the buffer: nothing is lost, duplicated or reordered |
| `DenseCodec.ChunksOfFlatten` | bindings/csharp/CSEvalV2Library/CSEvalV2Library.cs:249-258 | sequences of `k` elements each, laid end to end and cut every `k` elements, come back unchanged |
| `DenseCodec.AppendChunks` | bindings/csharp/CSEvalV2Library/CSEvalV2Library.cs:249-258 | the nested loop with its running `dataIndex` appends exactly the `n` chunks of the buffer, in order, after the lists already present, reading only indices inside the buffer |
| `DenseCodec.CopyValueTo` | bindings/csharp/CSEvalV2Library/CSEvalV2Library.cs:193-259 | checks in order: non-CPU device, element type mismatch, non-dense storage, unresolved name, rank and size assertions, unknown element tag; any failure leaves `sequences` unchanged; success appends `seqs` lists, the `i`-th being the `i`-th run of `elements × samples` buffer elements |
| `DenseCodec.SequenceList.Add` | bindings/csharp/CSEvalV2Library/CSEvalV2Library.cs:257 | `List.Add` appends one list at the end |
| `DenseCodec.DenseLayoutDecodes` | bindings/csharp/CSEvalV2Library/CSEvalV2Library.cs:218-233 | a value in the contiguous dense layout satisfies the rank and size assertions, and the chunks cut from it are the original sequences |
| `DenseCodec.CreateThenCopy` | bindings/csharp/CSEvalV2Library/CSEvalV2Library.cs:150-189 | equal-length sequences, encoded for a variable of non-zero sample size (or an empty batch for any variable) with a contiguous packer on the CPU, pass every check of `CopyValueTo` for the same element type and decode to the same sequences |

## Left out

- `LoadModel` (file-existence check plus native load): not modelled. The loaded root is an input. As written, `LoadModel` never stores the loaded function, so `Evaluate` on a fresh object always fails with the null-reference error.
- `Clone`: an empty method with no behaviour.
- Native packing by `Value.CreateDenseFloat`/`CreateDenseDouble`, including padding and masks for sequences of different lengths: an opaque `Packer` parameter. The round trip is proved only for the contiguous layout of equal-length sequences.
- Native `Function.Evaluate`: an opaque parameter. A native failure during evaluation is not modelled.
- `NDArrayView` construction, `CopyFrom` and `FloatVector`/`DoubleVector` marshalling: the value's `data` sequence stands for the copied buffer.
- The GPU transfer path: not implemented in the source; a non-CPU value is only rejected.
- Floating-point contents: elements are an opaque type `T`; `float`/`double` are only the tag `ElementType`.
- Fixed-width integers: dimension lists, sizes, `uint numOfOutputData` and the `int` loop counters are unbounded `nat`, so overflow of a shape's size is not modelled.
- Thread safety of concurrent evaluation: the source has no synchronization, and the model is sequential.
- Dictionary enumeration order: `Evaluate` promises only that the reported key is an unknown one, not that it is the first in .NET's enumeration order.
- A `null` dictionary, list or value passed by the caller: not modelled, since every reference here is non-null.
