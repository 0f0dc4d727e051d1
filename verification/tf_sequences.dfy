/** The sequence helpers of the TensorFlow utilities: the length of each padded
    sequence in a batch, and the conversion of a padded batch into a sparse tensor.
    Tensors hold integers here; a tensor is its shape and its entries. */
module TfSequences {
  import opened PyValues

  /** A rank-2 tensor `[batch, time]`. */
  datatype Tensor2D = Tensor2D(width: nat, rows: seq<seq<int>>)

  /** Every row has the tensor's width. */
  predicate Shaped(t: Tensor2D) {
    forall i :: 0 <= i < |t.rows| ==> |t.rows[i]| == t.width
  }

  function Abs(x: int): nat {
    if x < 0 then -x else x
  }

  /** `tf.sign`. */
  function Sign(x: int): int {
    if x > 0 then 1 else if x < 0 then -1 else 0
  }

  // ---------------------------------------------------------------------------
  // sequence_length_2D

  /** `reduce_sum(sign(abs(row)))`: the number of non-zero entries of a row. */
  function CountNonZero(row: seq<int>): (n: nat)
    ensures n <= |row|
  {
    if row == [] then 0 else CountNonZero(row[..|row| - 1]) + Sign(Abs(row[|row| - 1]))
  }

  /** `sequence_length_2D(sequence)`: the count for each row of the batch. */
  function SequenceLength2D(t: Tensor2D): (lengths: seq<int>)
    ensures |lengths| == |t.rows|
    ensures forall i :: 0 <= i < |t.rows| ==> 0 <= lengths[i] <= |t.rows[i]|
  {
    seq(|t.rows|, i requires 0 <= i < |t.rows| => CountNonZero(t.rows[i]))
  }

  /** The count is the row's length less its zeros. */
  lemma {:induction false} CountNonZeroIsNonZeros(row: seq<int>)
    ensures CountNonZero(row) == |row| - multiset(row)[0]
    decreases |row|
  {
    if row != [] {
      var front := row[..|row| - 1];
      CountNonZeroIsNonZeros(front);
      assert row == front + [row[|row| - 1]];
      assert multiset(row) == multiset(front) + multiset{row[|row| - 1]};
    }
  }

  /** A row padded with zeros after non-zero entries has the length of those entries. */
  lemma {:induction false} CountNonZeroOfPadded(prefix: seq<int>, padding: nat)
    requires forall k :: 0 <= k < |prefix| ==> prefix[k] != 0
    ensures CountNonZero(prefix + seq(padding, _ => 0)) == |prefix|
    decreases |prefix| + padding
  {
    var row := prefix + seq(padding, _ => 0);
    if padding > 0 {
      assert row[..|row| - 1] == prefix + seq(padding - 1, _ => 0);
      CountNonZeroOfPadded(prefix, padding - 1);
    } else if prefix != [] {
      assert row == prefix && row[..|row| - 1] == prefix[..|prefix| - 1] + seq(0, _ => 0);
      CountNonZeroOfPadded(prefix[..|prefix| - 1], 0);
    }
  }

  /** A row holding a zero counts fewer entries than its length. */
  lemma {:induction false} CountNonZeroBelowLength(row: seq<int>, j: int)
    requires 0 <= j < |row| && row[j] == 0
    ensures CountNonZero(row) < |row|
    decreases |row|
  {
    var front := row[..|row| - 1];
    if j < |row| - 1 {
      assert front[j] == 0;
      CountNonZeroBelowLength(front, j);
    }
  }

  /** Trailing zeros from position `i` on add nothing to the count. */
  lemma {:induction false} CountNonZeroOfZeroSuffix(row: seq<int>, i: int)
    requires 0 <= i <= |row|
    requires forall m :: i <= m < |row| ==> row[m] == 0
    ensures CountNonZero(row) == CountNonZero(row[..i])
    decreases |row| - i
  {
    if i < |row| {
      var front := row[..|row| - 1];
      assert front[..i] == row[..i];
      CountNonZeroOfZeroSuffix(front, i);
    } else {
      assert row[..i] == row;
    }
  }

  /** A zero before the last non-zero entry is not counted: the result is less
      than the position after that entry, so the count is not an index of it. */
  lemma {:induction false} CountNonZeroIsNotLastIndex(row: seq<int>, j: int, k: int)
    requires 0 <= j < k < |row| && row[j] == 0 && row[k] != 0
    requires forall m :: k < m < |row| ==> row[m] == 0
    ensures CountNonZero(row) < k + 1
  {
    CountNonZeroOfZeroSuffix(row, k + 1);
    assert row[..k + 1][j] == 0;
    CountNonZeroBelowLength(row[..k + 1], j);
  }

  // ---------------------------------------------------------------------------
  // sequence_length_3D

  /** `reduce_max(abs(v))` over the feature axis, for a non-empty feature vector. */
  function MaxAbs(v: seq<int>): (m: nat)
    requires |v| > 0
    ensures forall k :: 0 <= k < |v| ==> Abs(v[k]) <= m
    ensures exists k :: 0 <= k < |v| && Abs(v[k]) == m
  {
    if |v| == 1 then Abs(v[0])
    else
      var m := MaxAbs(v[..|v| - 1]);
      assert forall k :: 0 <= k < |v| - 1 ==> v[..|v| - 1][k] == v[k];
      if Abs(v[|v| - 1]) > m then Abs(v[|v| - 1]) else m
  }

  /** `sign(reduce_max(abs(v)))` for one timestep: 1 when some feature is non-zero,
      0 when all are zero, and -1 for an empty feature axis, whose maximum is the
      lowest value of the type. */
  function StepUsed(v: seq<int>): (u: int)
    ensures |v| > 0 ==> (u == 1 <==> exists k :: 0 <= k < |v| && v[k] != 0)
    ensures |v| > 0 ==> (u == 0 <==> forall k :: 0 <= k < |v| ==> v[k] == 0)
    ensures |v| == 0 <==> u == -1
  {
    if |v| == 0 then -1 else Sign(MaxAbs(v))
  }

  /** The sum of the step flags of one example `[time, feature]`. */
  function Length3D(example: seq<seq<int>>): int {
    if example == [] then 0 else Length3D(example[..|example| - 1]) + StepUsed(example[|example| - 1])
  }

  /** `sequence_length_3D(sequence)` for a `[batch, time, feature]` tensor. */
  function SequenceLength3D(batch: seq<seq<seq<int>>>): (lengths: seq<int>)
    ensures |lengths| == |batch|
  {
    seq(|batch|, b requires 0 <= b < |batch| => Length3D(batch[b]))
  }

  /** With features, the 3D length is the 2D length of the per-step maximum. */
  lemma {:induction false} Length3DIsLength2DOfMax(example: seq<seq<int>>)
    requires forall t :: 0 <= t < |example| ==> |example[t]| > 0
    ensures Length3D(example) == CountNonZero(seq(|example|, t requires 0 <= t < |example| => MaxAbs(example[t])))
    decreases |example|
  {
    if example != [] {
      var front := example[..|example| - 1];
      Length3DIsLength2DOfMax(front);
      var maxes := seq(|example|, t requires 0 <= t < |example| => MaxAbs(example[t]));
      assert maxes[..|maxes| - 1] == seq(|front|, t requires 0 <= t < |front| => MaxAbs(front[t]));
    }
  }

  /** With features, the length counts the steps whose feature vector is not all zero. */
  lemma {:induction false} Length3DCountsUsedSteps(example: seq<seq<int>>)
    requires forall t :: 0 <= t < |example| ==> |example[t]| > 0
    ensures Length3D(example) == |example| - multiset(seq(|example|, t requires 0 <= t < |example| => MaxAbs(example[t])))[0]
    ensures 0 <= Length3D(example) <= |example|
  {
    Length3DIsLength2DOfMax(example);
    CountNonZeroIsNonZeros(seq(|example|, t requires 0 <= t < |example| => MaxAbs(example[t])));
  }

  /** Without features every step counts -1. */
  lemma {:induction false} Length3DOfNoFeatures(example: seq<seq<int>>)
    requires forall t :: 0 <= t < |example| ==> example[t] == []
    ensures Length3D(example) == -|example|
    decreases |example|
  {
    if example != [] {
      Length3DOfNoFeatures(example[..|example| - 1]);
    }
  }

  // ---------------------------------------------------------------------------
  // to_sparse

  /** A sparse tensor: the positions of its entries, their values and its dense shape. */
  datatype SparseTensor = SparseTensor(indices: seq<(nat, nat)>, values: seq<int>, shape: (nat, nat))

  /** How many leading positions of a row `sequence_mask(lengths, max_length)`
      keeps: those `j < max_length` with `j < length`. */
  function RowLimit(length: int, maxLength: nat): (n: nat)
    ensures n <= maxLength && (n <= length || n == 0)
    ensures n == maxLength || n == length || (length < 0 && n == 0)
  {
    if length < 0 then 0 else if length > maxLength then maxLength else length
  }

  /** Row-major order on positions. */
  predicate Before(p: (nat, nat), q: (nat, nat)) {
    p.0 < q.0 || (p.0 == q.0 && p.1 < q.1)
  }

  /** Each position comes strictly before the next. */
  predicate RowMajor(ix: seq<(nat, nat)>) {
    forall p, q :: 0 <= p < q < |ix| ==> Before(ix[p], ix[q])
  }

  /** `where(mask)`: the positions the mask keeps, row by row. */
  function MaskIndices(lengths: seq<int>, maxLength: nat): (ix: seq<(nat, nat)>)
    ensures forall p :: 0 <= p < |ix| ==> ix[p].0 < |lengths| && ix[p].1 < RowLimit(lengths[ix[p].0], maxLength)
  {
    if lengths == [] then []
    else
      var n := |lengths| - 1;
      MaskIndices(lengths[..n], maxLength) + seq(RowLimit(lengths[n], maxLength), j => (n, j))
  }

  /** `boolean_mask(tensor, mask)`: the kept entries, row by row. */
  function MaskValues(rows: seq<seq<int>>, lengths: seq<int>, maxLength: nat): seq<int>
    requires |rows| == |lengths|
    requires forall i :: 0 <= i < |rows| ==> |rows[i]| == maxLength
  {
    if rows == [] then []
    else
      var n := |rows| - 1;
      MaskValues(rows[..n], lengths[..n], maxLength) + rows[n][..RowLimit(lengths[n], maxLength)]
  }

  /** `to_sparse(tensor, lengths, max_length)`: `tf.boolean_mask` checks that the
      mask's shape is compatible with the tensor's, and with the static shapes
      known (as in eager execution) a mismatch is a ValueError. */
  function ToSparse(t: Tensor2D, lengths: seq<int>, maxLength: nat): (r: Result<SparseTensor>)
    requires Shaped(t)
    ensures r.Err? <==> |lengths| != |t.rows| || maxLength != t.width
    ensures r.Err? ==> r.error == ValueError
    ensures r.Ok? ==> r.value.shape == (|t.rows|, t.width)
  {
    if |lengths| != |t.rows| || maxLength != t.width then Err(ValueError)
    else Ok(SparseTensor(MaskIndices(lengths, maxLength), MaskValues(t.rows, lengths, maxLength), (|t.rows|, t.width)))
  }

  /** The indices are exactly the positions `(i, j)` with `j < min(lengths[i], max_length)`. */
  lemma {:induction false} MaskIndicesComplete(lengths: seq<int>, maxLength: nat, i: nat, j: nat)
    ensures (i, j) in MaskIndices(lengths, maxLength) <==> i < |lengths| && j < maxLength && j < lengths[i]
    decreases |lengths|
  {
    if lengths != [] {
      var n := |lengths| - 1;
      MaskIndicesComplete(lengths[..n], maxLength, i, j);
      var front := MaskIndices(lengths[..n], maxLength);
      var row := seq(RowLimit(lengths[n], maxLength), j => (n, j));
      assert MaskIndices(lengths, maxLength) == front + row;
      assert i < n ==> lengths[..n][i] == lengths[i];
      assert (i, j) in row <==> i == n && j < RowLimit(lengths[n], maxLength) by {
        if i == n && j < RowLimit(lengths[n], maxLength) {
          assert row[j] == (i, j);
        }
      }
    }
  }

  /** The indices come in row-major order, each once. */
  lemma {:induction false} MaskIndicesSorted(lengths: seq<int>, maxLength: nat)
    ensures RowMajor(MaskIndices(lengths, maxLength))
    decreases |lengths|
  {
    if lengths != [] {
      var n := |lengths| - 1;
      MaskIndicesSorted(lengths[..n], maxLength);
      var front := MaskIndices(lengths[..n], maxLength);
      var row := seq(RowLimit(lengths[n], maxLength), j => (n, j));
      var ix := front + row;
      assert MaskIndices(lengths, maxLength) == ix;
      forall p, q | 0 <= p < q < |ix| ensures Before(ix[p], ix[q]) {
        if q < |front| {
          assert ix[p] == front[p] && ix[q] == front[q];
          assert RowMajor(front);
        } else if p < |front| {
          assert ix[p] == front[p];
          assert front[p].0 < |lengths[..n]|;
          assert ix[q] == row[q - |front|];
        } else {
          assert ix[p] == row[p - |front|] && ix[q] == row[q - |front|];
        }
      }
    }
  }

  /** Each value is the tensor's entry at the matching index. */
  lemma {:induction false} MaskValuesAtIndices(rows: seq<seq<int>>, lengths: seq<int>, maxLength: nat)
    requires |rows| == |lengths|
    requires forall i :: 0 <= i < |rows| ==> |rows[i]| == maxLength
    ensures var ix := MaskIndices(lengths, maxLength);
      var vs := MaskValues(rows, lengths, maxLength);
      |vs| == |ix| && forall p :: 0 <= p < |ix| ==> vs[p] == rows[ix[p].0][ix[p].1]
    decreases |rows|
  {
    if rows != [] {
      var n := |rows| - 1;
      MaskValuesAtIndices(rows[..n], lengths[..n], maxLength);
      var front := MaskIndices(lengths[..n], maxLength);
      var frontValues := MaskValues(rows[..n], lengths[..n], maxLength);
      var k := RowLimit(lengths[n], maxLength);
      var ix := front + seq(k, j => (n, j));
      var vs := frontValues + rows[n][..k];
      forall p | 0 <= p < |ix| ensures vs[p] == rows[ix[p].0][ix[p].1] {
        if p < |front| {
          assert ix[p] == front[p] && vs[p] == frontValues[p];
          assert rows[..n][front[p].0] == rows[front[p].0];
        } else {
          assert ix[p] == (n, p - |front|);
        }
      }
    }
  }

  /** The sparse form of a correctly shaped batch: its entries are exactly the
      masked positions, in row-major order, carrying the tensor's values. */
  lemma {:induction false} ToSparseContents(t: Tensor2D, lengths: seq<int>, i: nat, j: nat)
    requires Shaped(t) && |lengths| == |t.rows|
    ensures var r := ToSparse(t, lengths, t.width);
      && r.Ok?
      && ((i, j) in r.value.indices <==> i < |t.rows| && j < t.width && j < lengths[i])
      && RowMajor(r.value.indices)
      && |r.value.values| == |r.value.indices|
      && (forall p :: 0 <= p < |r.value.indices| ==>
            r.value.values[p] == t.rows[r.value.indices[p].0][r.value.indices[p].1])
  {
    MaskIndicesComplete(lengths, t.width, i, j);
    MaskIndicesSorted(lengths, t.width);
    MaskValuesAtIndices(t.rows, lengths, t.width);
  }
}
