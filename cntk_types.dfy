/**
  The values the binding receives from, and hands to, the native library:
  variables with their shapes, the loaded graph's terminals, devices, element
  and storage tags, and the exceptions the binding throws.
*/
module CntkTypes {

  /** The kinds of a graph variable; the node queries accept only Input and Output. */
  datatype VariableKind = Input | Output | Parameter | Constant | Placeholder

  /** A graph variable: its name and the dimensions of its shape. */
  datatype Variable = Variable(name: string, dims: seq<nat>)

  /** A loaded root function, seen through its argument and output variables, in native order. */
  datatype Graph = Graph(arguments: seq<Variable>, outputs: seq<Variable>)

  datatype Device = CPU | GPU(id: nat)

  /** The element type tag of a native value. */
  datatype DataType = Unknown | Float | Double

  datatype StorageFormat = Dense | SparseCSC | SparseBlockCol

  /** The exceptions thrown by the binding, one constructor per distinct throw. */
  datatype Error =
    | NullReference                          // no root function loaded, or a variable name resolved to null
    | ArgumentError                          // a node kind other than Input or Output
    | DuplicatedName(name: string)           // two variables of one kind share a name
    | InputNotFound(name: string)            // an argument key names no argument variable
    | OutputNotFound(name: string)           // an output key names no output variable
    | DivideByZero                           // a sequence length taken modulo a zero sample size
    | DimensionMismatch                      // a sequence length that is not a whole number of samples
    | UnsupportedDataType(typeName: string)  // an element type other than float or double
    | DeviceNotSupported                     // a value that is not on the CPU
    | TypeMismatch                           // the value's element type differs from the list's
    | NotDense                               // a value that is not in dense storage
    | AssertionFailed                        // a debug assertion on the value's shape does not hold

  /** Number of elements of a shape: the product of its dimensions (1 for rank 0). */
  function TotalSize(dims: seq<nat>): nat
  {
    if |dims| == 0 then 1 else dims[0] * TotalSize(dims[1..])
  }

  /** Appending axes to a shape multiplies its size by theirs. */
  lemma {:induction false} TotalSizeAppend(dims: seq<nat>, extra: seq<nat>)
    ensures TotalSize(dims + extra) == TotalSize(dims) * TotalSize(extra)
  {
    if |dims| > 0 {
      assert (dims + extra)[1..] == dims[1..] + extra;
      TotalSizeAppend(dims[1..], extra);
      calc {
        TotalSize(dims + extra);
        dims[0] * TotalSize(dims[1..] + extra);
        dims[0] * (TotalSize(dims[1..]) * TotalSize(extra));
        (dims[0] * TotalSize(dims[1..])) * TotalSize(extra);
      }
    } else {
      assert dims + extra == extra;
    }
  }
}
