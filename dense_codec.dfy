/**
  The dense exchange between a caller's list of sequences and a native value whose
  shape is the variable's shape followed by two axes: samples per sequence, then the
  number of sequences. `CreateValue` validates and hands the sequences to the native
  packer; `CopyValueTo` checks the value and splits its flat buffer back into sequences.
*/
module DenseCodec {
  import opened Wrappers
  import opened CntkTypes
  import opened NodeRegistry

  /** The element type `T` a caller instantiates `CreateValue<T>` or `CopyValueTo<T>` with. */
  datatype ElementType = FloatType | DoubleType | OtherType(typeName: string)

  /** A native value: where it lives, its element and storage tags, its shape and its flat contents. */
  datatype Value<T> = Value(device: Device, dataType: DataType, storage: StorageFormat,
                            shape: seq<nat>, data: seq<T>)

  /** The native `Value.CreateDenseFloat` / `CreateDenseDouble`: element tag, sample shape, sequences, device. */
  type Packer<!T> = (DataType, seq<nat>, seq<seq<T>>, Device) -> Value<T>

  /** The caller's `List<List<T>>`, which `CopyValueTo` appends to. */
  class SequenceList<T> {
    var items: seq<seq<T>>

    constructor (init: seq<seq<T>>)
      ensures items == init
    {
      items := init;
    }

    method Add(s: seq<T>)
      modifies this
      ensures items == old(items) + [s]
    {
      items := items + [s];
    }
  }

  /** The variable a name resolves to, or `None` where the source dereferences `null`. */
  function VariableOf(root: Option<Graph>, name: string): Option<Variable>
  {
    if root.None? then None else GetVariableByName(root.value, name)
  }

  function ElementTag(ty: ElementType): DataType
    requires !ty.OtherType?
  {
    if ty == FloatType then Float else Double
  }

  /** Every sequence holds a whole number of samples of `dim` elements (no sequence at all when `dim` is 0). */
  predicate WholeSamples<T>(sequences: seq<seq<T>>, dim: nat)
  {
    |sequences| == 0 || (dim > 0 && forall i :: 0 <= i < |sequences| ==> |sequences[i]| % dim == 0)
  }

  /**
    The length check of the marshalling loop, sequence by sequence: the first sequence
    met divides by a zero sample size, or is not a whole number of samples.
  */
  function CheckSequences<T>(sequences: seq<seq<T>>, dim: nat): (r: Outcome<Error>)
    ensures r.Pass? <==> WholeSamples(sequences, dim)
    ensures r.Fail? ==> r.error == if dim == 0 then DivideByZero else DimensionMismatch
  {
    if |sequences| == 0 then Pass
    else if dim == 0 then Fail(DivideByZero)
    else if |sequences[0]| % dim != 0 then Fail(DimensionMismatch)
    else
      var rest := CheckSequences(sequences[1..], dim);
      assert forall i :: 1 <= i < |sequences| ==> sequences[i] == sequences[1..][i - 1];
      rest
  }

  /**
    Builds a dense value for variable `varName` from `sequences`. Fails when the name
    resolves to nothing, for an element type other than float or double, and for a
    sequence that is not a whole number of samples; an empty list passes.
  */
  function CreateValue<T>(root: Option<Graph>, ty: ElementType, varName: string,
                          sequences: seq<seq<T>>, device: Device, pack: Packer<T>): (r: Result<Value<T>, Error>)
    ensures VariableOf(root, varName).None? ==> r == Failure(NullReference)
    ensures VariableOf(root, varName).Some? ==>
      var variable := VariableOf(root, varName).value;
      && (r.Success? <==> !ty.OtherType? && WholeSamples(sequences, TotalSize(variable.dims)))
      && (ty.OtherType? ==> r == Failure(UnsupportedDataType(ty.typeName)))
      && (!ty.OtherType? && !WholeSamples(sequences, TotalSize(variable.dims)) ==>
            r == Failure(if TotalSize(variable.dims) == 0 then DivideByZero else DimensionMismatch))
      && (r.Success? ==> r.value == pack(ElementTag(ty), variable.dims, sequences, device))
  {
    match VariableOf(root, varName)
    case None => Failure(NullReference)
    case Some(variable) =>
      var dim := TotalSize(variable.dims);
      if ty.OtherType? then Failure(UnsupportedDataType(ty.typeName))
      else match CheckSequences(sequences, dim)
        case Fail(e) => Failure(e)
        case Pass => Success(pack(ElementTag(ty), variable.dims, sequences, device))
  }

  /** Multiplying by a non-negative factor keeps the order. */
  lemma MulMonotone(k: nat, a: nat, b: nat)
    requires a <= b
    ensures k * a <= k * b
  {
  }

  lemma MultipleMod(a: nat, b: nat)
    requires a > 0
    ensures (a * b) % a == 0
  {
    var x := a * b;
    var q, r := x / a, x % a;
    assert x == a * q + r;
    var d := b - q;
    assert a * d == r;
    if d > 0 {
      MulMonotone(a, 1, d);
    }
  }

  /** The first `n` chunks of `k` elements of `data`, in order. */
  function Chunks<T>(data: seq<T>, k: nat, n: nat): (r: seq<seq<T>>)
    requires k * n <= |data|
    ensures |r| == n
    decreases n
  {
    if n == 0 then []
    else
      MulMonotone(k, n - 1, n);
      Chunks(data, k, n - 1) + [data[k * (n - 1) .. k * n]]
  }

  /** Chunk `i` is the `i`-th run of `k` consecutive elements. */
  lemma {:induction false} ChunkAt<T>(data: seq<T>, k: nat, n: nat, i: nat)
    requires k * n <= |data| && i < n
    ensures k * (i + 1) <= |data|
    ensures Chunks(data, k, n)[i] == data[k * i .. k * (i + 1)]
    decreases n
  {
    MulMonotone(k, i + 1, n);
    if i < n - 1 {
      MulMonotone(k, n - 1, n);
      ChunkAt(data, k, n - 1, i);
    }
  }

  /** The sequences of `s` laid end to end. */
  function Flatten<T>(s: seq<seq<T>>): seq<T>
  {
    if |s| == 0 then [] else Flatten(s[..|s| - 1]) + s[|s| - 1]
  }

  /** Laying the chunks end to end gives back the buffer they were cut from. */
  lemma {:induction false} FlattenChunks<T>(data: seq<T>, k: nat, n: nat)
    requires k * n <= |data|
    ensures Flatten(Chunks(data, k, n)) == data[..k * n]
    decreases n
  {
    if n > 0 {
      MulMonotone(k, n - 1, n);
      var c := Chunks(data, k, n);
      assert c[..n - 1] == Chunks(data, k, n - 1);
      FlattenChunks(data, k, n - 1);
      assert data[..k * (n - 1)] + data[k * (n - 1) .. k * n] == data[..k * n];
    }
  }

  /** Chunks never read past the prefix they cover. */
  lemma {:induction false} ChunksOfPrefix<T>(front: seq<T>, back: seq<T>, k: nat, n: nat)
    requires k * n <= |front|
    ensures Chunks(front + back, k, n) == Chunks(front, k, n)
    decreases n
  {
    if n > 0 {
      MulMonotone(k, n - 1, n);
      ChunksOfPrefix(front, back, k, n - 1);
      assert (front + back)[k * (n - 1) .. k * n] == front[k * (n - 1) .. k * n];
    }
  }

  /** Sequences of `k` elements each, laid end to end and cut every `k` elements, come back unchanged. */
  lemma {:induction false} ChunksOfFlatten<T>(s: seq<seq<T>>, k: nat)
    requires forall i :: 0 <= i < |s| ==> |s[i]| == k
    ensures |Flatten(s)| == k * |s|
    ensures Chunks(Flatten(s), k, |s|) == s
    decreases |s|
  {
    if |s| > 0 {
      var n := |s|;
      var front := s[..n - 1];
      ChunksOfFlatten(front, k);
      assert Flatten(s) == Flatten(front) + s[n - 1];
      ChunksOfPrefix(Flatten(front), s[n - 1], k, n - 1);
      assert Flatten(s)[k * (n - 1) .. k * n] == s[n - 1];
      assert s == front + [s[n - 1]];
    }
  }

  /**
    Element type check of `CopyValueTo<T>`: a float value read into a list that is not of
    float, or a double value into one that is not of double. A value of unknown element
    type passes it.
  */
  predicate ElementTypeDiffers(dataType: DataType, ty: ElementType)
  {
    (dataType == Float && ty != FloatType) || (dataType == Double && ty != DoubleType)
  }

  /** The three guards `CopyValueTo` applies before it looks the variable up. */
  predicate PassesGuards<T>(ty: ElementType, value: Value<T>)
  {
    value.device == CPU && !ElementTypeDiffers(value.dataType, ty) && value.storage == Dense
  }

  /**
    The two debug assertions on the value's shape: two more axes than the variable's
    shape, and sample size times samples per sequence times sequences is the value's size.
  */
  predicate ConsistentShape<T>(dims: seq<nat>, value: Value<T>)
  {
    && |value.shape| == |dims| + 2
    && TotalSize(dims) * value.shape[|dims|] * value.shape[|dims| + 1] == TotalSize(value.shape)
  }

  /** Elements per sequence of a value that passes the shape assertions. */
  function SequenceLength<T>(dims: seq<nat>, value: Value<T>): nat
    requires ConsistentShape(dims, value)
  {
    TotalSize(dims) * value.shape[|dims|]
  }

  /** Sequences in a value that passes the shape assertions. */
  function SequenceCount<T>(dims: seq<nat>, value: Value<T>): nat
    requires ConsistentShape(dims, value)
  {
    value.shape[|dims| + 1]
  }

  /**
    Copies a CPU-resident dense value into `sequences`: rejects a non-CPU device, then a
    mismatched element type, then a non-dense format; resolves the variable; checks the
    shape assertions and the element tag; then appends one new list per sequence, the
    `i`-th holding the `i`-th run of `SequenceLength` elements of the buffer.
  */
  method CopyValueTo<T>(root: Option<Graph>, ty: ElementType, varName: string,
                        value: Value<T>, sequences: SequenceList<T>)
    returns (r: Outcome<Error>)
    requires |value.data| == TotalSize(value.shape)
    modifies sequences
    ensures r.Fail? ==> sequences.items == old(sequences.items)
    ensures value.device != CPU ==> r == Fail(DeviceNotSupported)
    ensures value.device == CPU && ElementTypeDiffers(value.dataType, ty) ==> r == Fail(TypeMismatch)
    ensures value.device == CPU && !ElementTypeDiffers(value.dataType, ty) && value.storage != Dense ==>
      r == Fail(NotDense)
    ensures PassesGuards(ty, value) && VariableOf(root, varName).None? ==> r == Fail(NullReference)
    ensures PassesGuards(ty, value) && VariableOf(root, varName).Some? ==>
      var dims := VariableOf(root, varName).value.dims;
      && (!ConsistentShape(dims, value) ==> r == Fail(AssertionFailed))
      && (ConsistentShape(dims, value) && value.dataType == Unknown ==>
            r == Fail(UnsupportedDataType("Unknown")))
      && (ConsistentShape(dims, value) && value.dataType != Unknown ==>
            && r.Pass?
            && SequenceLength(dims, value) * SequenceCount(dims, value) <= |value.data|
            && sequences.items == old(sequences.items) +
                 Chunks(value.data, SequenceLength(dims, value), SequenceCount(dims, value)))
  {
    if value.device != CPU {
      return Fail(DeviceNotSupported);
    }
    if ElementTypeDiffers(value.dataType, ty) {
      return Fail(TypeMismatch);
    }
    if value.storage != Dense {
      return Fail(NotDense);
    }
    var variable := VariableOf(root, varName);
    if variable.None? {
      return Fail(NullReference);
    }
    var dims := variable.value.dims;
    var varRank := |dims|;
    var valueRank := |value.shape|;
    if varRank + 2 != valueRank {
      return Fail(AssertionFailed);
    }
    var numOfElementsInSample := TotalSize(dims);
    var numOfSamplesInSequence := value.shape[varRank];
    var numOfSequences := value.shape[varRank + 1];
    var numOfOutputData := TotalSize(value.shape);
    if numOfElementsInSample * numOfSamplesInSequence * numOfSequences != numOfOutputData {
      return Fail(AssertionFailed);
    }
    if value.dataType == Unknown {
      return Fail(UnsupportedDataType("Unknown"));
    }

    // The host buffer the native copy fills with the value's elements.
    var outputData := new T[numOfOutputData](i requires 0 <= i < numOfOutputData => value.data[i]);
    assert outputData[..] == value.data;
    AppendChunks(outputData, numOfElementsInSample * numOfSamplesInSequence, numOfSequences, sequences);
    r := Pass;
  }

  /**
    The partition loop of `CopyValueTo`: appends `n` new lists to `sequences`, the `i`-th
    holding elements `k * i` up to `k * (i + 1)` of the buffer, reading them in order
    with a running index.
  */
  method AppendChunks<T>(outputData: array<T>, k: nat, n: nat, sequences: SequenceList<T>)
    requires k * n <= outputData.Length
    modifies sequences
    ensures sequences.items == old(sequences.items) + Chunks(outputData[..], k, n)
  {
    var seqIndex, dataIndex := 0, 0;
    while seqIndex < n
      invariant 0 <= seqIndex <= n
      invariant k * seqIndex <= k * n
      invariant dataIndex == k * seqIndex
      invariant sequences.items == old(sequences.items) + Chunks(outputData[..], k, seqIndex)
    {
      MulMonotone(k, seqIndex + 1, n);
      var seqData: seq<T> := [];
      var i := 0;
      while i < k
        invariant 0 <= i <= k
        invariant dataIndex == k * seqIndex + i
        invariant seqData == outputData[k * seqIndex .. dataIndex]
      {
        seqData := seqData + [outputData[dataIndex]];
        dataIndex := dataIndex + 1;
        i := i + 1;
      }
      sequences.Add(seqData);
      seqIndex := seqIndex + 1;
    }
  }

  /**
    A reference for the dense layout, for sequences that all hold `samples` samples: the
    variable's shape followed by the samples and sequence axes, with the sequences laid
    end to end.
  */
  function DenseLayout<T>(dataType: DataType, dims: seq<nat>, sequences: seq<seq<T>>,
                          samples: nat, device: Device): Value<T>
  {
    Value(device, dataType, Dense, dims + [samples, |sequences|], Flatten(sequences))
  }

  /** A packer that lays the sequences out as `DenseLayout` does. */
  function ContiguousPacker<T>(samples: nat): Packer<T>
  {
    (dataType, dims, sequences, device) => DenseLayout(dataType, dims, sequences, samples, device)
  }

  /**
    A value in the dense layout satisfies the decoder's shape assertions, and the chunks the
    decoder cuts from it are the original sequences.
  */
  lemma DenseLayoutDecodes<T>(dataType: DataType, dims: seq<nat>, sequences: seq<seq<T>>,
                              samples: nat, device: Device)
    requires forall i :: 0 <= i < |sequences| ==> |sequences[i]| == TotalSize(dims) * samples
    ensures var v := DenseLayout(dataType, dims, sequences, samples, device);
      && |v.data| == TotalSize(v.shape)
      && ConsistentShape(dims, v)
      && SequenceLength(dims, v) * SequenceCount(dims, v) <= |v.data|
      && Chunks(v.data, SequenceLength(dims, v), SequenceCount(dims, v)) == sequences
  {
    var v := DenseLayout(dataType, dims, sequences, samples, device);
    var n := |sequences|;
    var dim := TotalSize(dims);
    var k := dim * samples;
    TotalSizeAppend(dims, [samples, n]);
    assert TotalSize([n]) == n by {
      assert [n][1..] == [];
    }
    assert TotalSize([samples, n]) == samples * n by {
      assert [samples, n][1..] == [n];
    }
    assert v.shape[|dims|] == samples && v.shape[|dims| + 1] == n;
    assert TotalSize(v.shape) == dim * (samples * n);
    assert dim * (samples * n) == k * n;
    ChunksOfFlatten(sequences, k);
  }

  /**
    Encoding then decoding: sequences of equal length, packed contiguously for a variable
    of non-zero sample size (or an empty batch) on the CPU, pass every check of `CopyValueTo` for the same element
    type, and decode to the same sequences in the same order.
  */
  lemma CreateThenCopy<T>(g: Graph, ty: ElementType, varName: string,
                          sequences: seq<seq<T>>, samples: nat)
    requires GetVariableByName(g, varName).Some? && !ty.OtherType?
    requires TotalSize(GetVariableByName(g, varName).value.dims) > 0 || |sequences| == 0
    requires forall i :: 0 <= i < |sequences| ==>
      |sequences[i]| == TotalSize(GetVariableByName(g, varName).value.dims) * samples
    ensures var r := CreateValue(Some(g), ty, varName, sequences, CPU, ContiguousPacker(samples));
      var dims := GetVariableByName(g, varName).value.dims;
      && r.Success?
      && PassesGuards(ty, r.value) && r.value.dataType != Unknown
      && |r.value.data| == TotalSize(r.value.shape)
      && ConsistentShape(dims, r.value)
      && SequenceLength(dims, r.value) * SequenceCount(dims, r.value) <= |r.value.data|
      && Chunks(r.value.data, SequenceLength(dims, r.value), SequenceCount(dims, r.value)) == sequences
  {
    var dims := GetVariableByName(g, varName).value.dims;
    var dim := TotalSize(dims);
    forall i | 0 <= i < |sequences| ensures |sequences[i]| % dim == 0 {
      MultipleMod(dim, samples);
    }
    DenseLayoutDecodes(ElementTag(ty), dims, sequences, samples, CPU);
  }
}
