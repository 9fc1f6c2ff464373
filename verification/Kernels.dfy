module Kernels {
  /**
   The generated dense kernels and the order in which the graph executor runs them, against the
   Relay program they were compiled from. The element type and its operations are arbitrary: no
   law of addition or multiplication is used, so the sums must be taken in the same order.
   */

  import opened ModArithmetic

  datatype Arith<!T> = Arith(zero: T, add: (T, T) -> T, mul: (T, T) -> T, gt: (T, T) -> bool)

  // ---------------------------------------------------------------------------
  // The Relay operators
  // ---------------------------------------------------------------------------

  /** A matrix is the sequence of its rows. */
  predicate Rows<T>(m: seq<seq<T>>, cols: nat) {
    forall i :: 0 <= i < |m| ==> |m[i]| == cols
  }

  /** The first n products, added to zero from the left. */
  function Dot<T>(ar: Arith<T>, x: seq<T>, w: seq<T>, n: nat): T
    requires n <= |x| && n <= |w|
  {
    if n == 0 then ar.zero else ar.add(Dot(ar, x, w, n - 1), ar.mul(x[n - 1], w[n - 1]))
  }

  /** nn.dense: the rows of x by the rows of w. */
  ghost function Dense<T>(ar: Arith<T>, x: seq<seq<T>>, w: seq<seq<T>>, cols: nat): (r: seq<seq<T>>)
    requires Rows(x, cols) && Rows(w, cols)
    ensures Rows(r, |w|)
  {
    seq(|x|, i requires 0 <= i < |x| =>
      seq(|w|, o requires 0 <= o < |w| => Dot(ar, x[i], w[o], cols)))
  }

  /** nn.bias_add along the last axis. */
  ghost function BiasAdd<T>(ar: Arith<T>, x: seq<seq<T>>, b: seq<T>): (r: seq<seq<T>>)
    requires Rows(x, |b|)
    ensures Rows(r, |b|)
  {
    seq(|x|, i requires 0 <= i < |x| => seq(|b|, o requires 0 <= o < |b| => ar.add(x[i][o], b[o])))
  }

  function Rectify<T>(ar: Arith<T>, v: T): T {
    if ar.gt(v, ar.zero) then v else ar.zero
  }

  /** nn.relu */
  ghost function Relu<T>(ar: Arith<T>, x: seq<seq<T>>, cols: nat): (r: seq<seq<T>>)
    requires Rows(x, cols)
    ensures Rows(r, cols)
  {
    seq(|x|, i requires 0 <= i < |x| => seq(cols, o requires 0 <= o < cols => Rectify(ar, x[i][o])))
  }

  /** The elements in row-major order, as a tensor lies in memory. */
  function Flat<T>(m: seq<seq<T>>): seq<T> {
    if m == [] then [] else m[0] + Flat(m[1..])
  }

  /** Cuts a row-major buffer into rows; what does not fill a row is dropped. */
  function Cut<T>(s: seq<T>, cols: nat): seq<seq<T>>
    requires cols > 0
    decreases |s|
  {
    if |s| < cols then [] else [s[..cols]] + Cut(s[cols..], cols)
  }

  /** reshape with newshape=[-1, cols] */
  function Reshape<T>(m: seq<seq<T>>, cols: nat): seq<seq<T>>
    requires cols > 0
  {
    Cut(Flat(m), cols)
  }

  /**
   Reshaping to the width a matrix already has gives the same matrix, which is why the
   executor may replace each of the program's reshapes by no operation at all.
   */
  lemma {:induction false} SameWidthReshapeIsNop<T>(m: seq<seq<T>>, cols: nat)
    requires cols > 0 && Rows(m, cols)
    ensures Reshape(m, cols) == m
  {
    if m != [] {
      SameWidthReshapeIsNop(m[1..], cols);
      assert Flat(m)[..cols] == m[0];
      assert Flat(m)[cols..] == Flat(m[1..]);
      assert m == [m[0]] + m[1..];
    }
  }

  /** Reshaping never changes what lies in memory, as long as the rows come out even. */
  lemma {:induction false} ReshapeKeepsMemory<T>(s: seq<T>, cols: nat, rows: nat)
    requires cols > 0 && |s| == rows * cols
    ensures Flat(Cut(s, cols)) == s && |Cut(s, cols)| == rows && Rows(Cut(s, cols), cols)
  {
    if rows == 0 {
      assert |s| == 0;
    } else {
      assert rows * cols == (rows - 1) * cols + cols;
      assert (rows - 1) * cols >= 0;
      ReshapeKeepsMemory(s[cols..], cols, rows - 1);
      assert Cut(s, cols)[1..] == Cut(s[cols..], cols);
      assert s == s[..cols] + s[cols..];
    }
  }

  /** One reshape, dense, bias and rectifier of the program. */
  ghost function Stage<T>(ar: Arith<T>, x: seq<seq<T>>, w: seq<seq<T>>, b: seq<T>, cols: nat): seq<seq<T>>
    requires cols > 0 && Rows(x, cols) && Rows(w, cols) && |w| == |b|
  {
    Relu(ar, BiasAdd(ar, Dense(ar, x, w, cols), b), |b|)
  }

  /** The seven statements of @main. */
  ghost function RelayMain<T>(ar: Arith<T>, input: seq<seq<T>>, w1: seq<seq<T>>, b1: seq<T>,
                             w2: seq<seq<T>>, b2: seq<T>, w3: seq<seq<T>>, b3: seq<T>): seq<seq<T>>
    requires |input| == 1 && Rows(input, 1)
    requires |w1| == |b1| == 16 && Rows(w1, 1)
    requires |w2| == |b2| == 16 && Rows(w2, 16)
    requires |w3| == |b3| == 1 && Rows(w3, 16)
  {
    SameWidthReshapeIsNop(input, 1);
    var t0 := Reshape(input, 1);
    var t3 := Stage(ar, t0, w1, b1, 1);
    SameWidthReshapeIsNop(t3, 16);
    var t4 := Reshape(t3, 16);
    var t7 := Stage(ar, t4, w2, b2, 16);
    SameWidthReshapeIsNop(t7, 16);
    var t8 := Reshape(t7, 16);
    BiasAdd(ar, Dense(ar, t8, w3, 16), b3)
  }

  // ---------------------------------------------------------------------------
  // Packed weights
  // ---------------------------------------------------------------------------

  /**
   Where the weight of output o and input k lies in a packed matrix of `cols` inputs, whose
   rows are interleaved `width` at a time.
   */
  function PackIndex(o: nat, k: nat, cols: nat, width: nat): nat
    requires width > 0
  {
    o / width * (cols * width) + k * width + o % width
  }

  function PackRow(j: nat, cols: nat, width: nat): nat
    requires width > 0 && cols > 0
  {
    assert cols * width > 0;
    j / (cols * width) * width + j % width
  }

  function PackCol(j: nat, cols: nat, width: nat): nat
    requires width > 0 && cols > 0
  {
    assert cols * width > 0;
    j % (cols * width) / width
  }

  lemma InBlock(q: nat, bound: nat, b: nat, r: nat)
    requires q < bound && r < b
    ensures q * b + r < bound * b
  {
    MulAtLeast(bound - q, b);
    assert bound * b == (bound - q) * b + q * b;
  }

  lemma QuotientBelow(j: nat, bound: nat, b: nat)
    requires b > 0 && j < bound * b
    ensures j / b < bound
  {
  }

  lemma Regroup(q: nat, k: nat, c: nat, cols: nat, width: nat)
    ensures q * (cols * width) + k * width + c == (q * cols + k) * width + c
  {
    assert q * (cols * width) == (q * cols) * width;
  }

  /** Packing sends distinct weights to distinct slots... */
  lemma {:induction false} PackedSlotIsOwn(o: nat, k: nat, groups: nat, cols: nat, width: nat)
    requires width > 0 && o < groups * width && k < cols
    ensures PackIndex(o, k, cols, width) < groups * (cols * width)
    ensures PackRow(PackIndex(o, k, cols, width), cols, width) == o
    ensures PackCol(PackIndex(o, k, cols, width), cols, width) == k
  {
    var q, c := o / width, o % width;
    var inner := k * width + c;
    var j := q * (cols * width) + inner;
    QuotientBelow(o, groups, width);
    InBlock(k, cols, width, c);
    InBlock(q, groups, cols * width, inner);
    ModUnique(j, cols * width, q, inner);
    ModUnique(inner, width, k, c);
    Regroup(q, k, c, cols, width);
    ModUnique(j, width, q * cols + k, c);
  }

  /** ... and fills every slot. */
  lemma {:induction false} EverySlotIsUsed(j: nat, groups: nat, cols: nat, width: nat)
    requires width > 0 && cols > 0 && j < groups * (cols * width)
    ensures PackRow(j, cols, width) < groups * width && PackCol(j, cols, width) < cols
    ensures PackIndex(PackRow(j, cols, width), PackCol(j, cols, width), cols, width) == j
  {
    hide PackIndex;
    MulAtLeast(cols, width);
    var block := cols * width;
    var q, inner := j / block, j % block;
    var k, c := inner / width, inner % width;
    QuotientBelow(j, groups, block);
    QuotientBelow(inner, cols, width);
    Regroup(q, k, c, cols, width);
    ModUnique(j, width, q * cols + k, c);
    InBlock(q, groups, width, c);
    SlotOf(q, k, c, cols, width);
  }

  lemma SlotOf(q: nat, k: nat, c: nat, cols: nat, width: nat)
    requires width > 0 && c < width
    ensures PackIndex(q * width + c, k, cols, width) == q * (cols * width) + k * width + c
  {
    ModUnique(q * width + c, width, q, c);
  }

  /** The matrix a packed buffer stands for. */
  ghost function Unpack<T>(p: seq<T>, groups: nat, cols: nat, width: nat): (w: seq<seq<T>>)
    requires width > 0 && |p| == groups * (cols * width)
    ensures |w| == groups * width && Rows(w, cols)
    ensures forall o, k :: 0 <= o < groups * width && 0 <= k < cols ==>
              PackIndex(o, k, cols, width) < |p| && w[o][k] == p[PackIndex(o, k, cols, width)]
  {
    forall o: nat, k: nat | o < groups * width && k < cols ensures PackIndex(o, k, cols, width) < |p| {
      PackedSlotIsOwn(o, k, groups, cols, width);
    }
    seq(groups * width, o requires 0 <= o < groups * width =>
      seq(cols, k requires 0 <= k < cols => p[PackIndex(o, k, cols, width)]))
  }

  /** The packed form of a matrix. */
  ghost function Pack<T>(w: seq<seq<T>>, groups: nat, cols: nat, width: nat): (p: seq<T>)
    requires width > 0 && cols > 0 && |w| == groups * width && Rows(w, cols)
    ensures |p| == groups * (cols * width)
  {
    forall j: nat | j < groups * (cols * width)
      ensures PackRow(j, cols, width) < |w| && PackCol(j, cols, width) < cols
    {
      EverySlotIsUsed(j, groups, cols, width);
    }
    seq(groups * (cols * width), j requires 0 <= j < groups * (cols * width) =>
      w[PackRow(j, cols, width)][PackCol(j, cols, width)])
  }

  lemma {:induction false} UnpackPack<T>(w: seq<seq<T>>, groups: nat, cols: nat, width: nat)
    requires width > 0 && cols > 0 && |w| == groups * width && Rows(w, cols)
    ensures Unpack(Pack(w, groups, cols, width), groups, cols, width) == w
  {
    var u := Unpack(Pack(w, groups, cols, width), groups, cols, width);
    forall o: nat | o < |w| ensures u[o] == w[o] {
      forall k: nat | k < cols ensures u[o][k] == w[o][k] {
        PackedSlotIsOwn(o, k, groups, cols, width);
      }
    }
  }

  lemma {:induction false} PackUnpack<T>(p: seq<T>, groups: nat, cols: nat, width: nat)
    requires width > 0 && cols > 0 && |p| == groups * (cols * width)
    ensures Pack(Unpack(p, groups, cols, width), groups, cols, width) == p
  {
    forall j: nat | j < |p| ensures Pack(Unpack(p, groups, cols, width), groups, cols, width)[j] == p[j] {
      EverySlotIsUsed(j, groups, cols, width);
    }
  }

  /** The generated code's subscript: group, input, place in the group. */
  lemma SubscriptOf<T>(p: seq<T>, groups: nat, cols: nat, width: nat, q: nat, c: nat, k: nat)
    requires width > 0 && |p| == groups * (cols * width)
    requires q < groups && c < width && k < cols
    ensures 0 <= q * width + c < groups * width
    ensures 0 <= q * (cols * width) + k * width + c < |p|
    ensures Unpack(p, groups, cols, width)[q * width + c][k] == p[q * (cols * width) + k * width + c]
  {
    InBlock(q, groups, width, c);
    SlotOf(q, k, c, cols, width);
    PackedSlotIsOwn(q * width + c, k, groups, cols, width);
  }

  lemma OneInputSubscript<T>(p: seq<T>, q: nat, c: nat)
    requires |p| == 16 && q < 2 && c < 8
    ensures Unpack(p, 2, 1, 8)[q * 8 + c][0] == p[q * 8 + c]
  {
    SubscriptOf(p, 2, 1, 8, q, c, 0);
  }

  lemma DotSteps<T>(ar: Arith<T>, x: seq<T>, w: seq<T>, k: nat)
    requires k < |x| && k < |w|
    ensures Dot(ar, x, w, 0) == ar.zero
    ensures Dot(ar, x, w, k + 1) == ar.add(Dot(ar, x, w, k), ar.mul(x[k], w[k]))
  {
  }

  lemma StageAt<T>(ar: Arith<T>, x: seq<T>, w: seq<seq<T>>, b: seq<T>, cols: nat, o: nat)
    requires cols > 0 && |x| == cols && Rows(w, cols) && |w| == |b| && o < |w|
    ensures |Stage(ar, [x], w, b, cols)| == 1 && |Stage(ar, [x], w, b, cols)[0]| == |b|
    ensures Stage(ar, [x], w, b, cols)[0][o] == Rectify(ar, ar.add(Dot(ar, x, w[o], cols), b[o]))
  {
  }

  // ---------------------------------------------------------------------------
  // The kernels
  // ---------------------------------------------------------------------------

  /**
   fused_nn_contrib_dense_pack_add: sixteen inputs, one output, no rectifier. Input and output
   may share memory: the one store comes after every load.
   */
  method DensePackAdd<T(0)>(ar: Arith<T>, p0: array<T>, weights: seq<T>, bias: seq<T>, out: array<T>)
    requires p0.Length >= 16 && out.Length >= 1 && |weights| == 16 && |bias| == 1
    modifies out
    ensures [out[..1]] == BiasAdd(ar, Dense(ar, [old(p0[..16])], Unpack(weights, 1, 16, 1), 16), bias)
    ensures out[1..] == old(out[1..])
  {
    var computeGlobal := new T[1];
    computeGlobal[0] := ar.zero;
    ghost var x, w := p0[..16], Unpack(weights, 1, 16, 1);
    for k := 0 to 16
      invariant p0[..16] == x && out[..] == old(out[..])
      invariant computeGlobal[0] == Dot(ar, x, w[0], k)
    {
      assert w[0][k] == weights[PackIndex(0, k, 16, 1)];
      assert x[k] == p0[k];
      computeGlobal[0] := ar.add(computeGlobal[0], ar.mul(p0[k], weights[k]));
    }
    assert out[1..] == old(out[1..]);
    out[0] := ar.add(computeGlobal[0], bias[0]);
    assert out[1..] == old(out[1..]);
    assert out[..1] == BiasAdd(ar, Dense(ar, [x], w, 16), bias)[0];
  }

  /** fused_nn_contrib_dense_pack_add_nn_relu: one input, sixteen outputs in two groups of eight. */
  method DensePackAddNnRelu<T(0)>(ar: Arith<T>, p0: array<T>, weights: seq<T>, bias: seq<T>, out: array<T>)
    requires p0.Length >= 1 && out.Length >= 16 && p0 != out && |weights| == |bias| == 16
    modifies out
    ensures [out[..16]] == Stage(ar, [p0[..1]], Unpack(weights, 2, 1, 8), bias, 1)
    ensures out[16..] == old(out[16..])
  {
    hide Stage, Unpack, Dot, PackIndex;
    ghost var x, w := p0[..1], Unpack(weights, 2, 1, 8);
    StageAt(ar, x, w, bias, 1, 0);
    ghost var stage := Stage(ar, [x], w, bias, 1)[0];
    for outer := 0 to 2
      invariant forall o :: 0 <= o < outer * 8 ==> out[o] == stage[o]
      invariant forall o :: 16 <= o < out.Length ==> out[o] == old(out[o])
    {
      var computeGlobal := new T[8];
      for c := 0 to 8
        modifies computeGlobal
        invariant forall i :: 0 <= i < c ==> computeGlobal[i] == Dot(ar, x, w[outer * 8 + i], 0)
      {
        DotSteps(ar, x, w[outer * 8 + c], 0);
        computeGlobal[c] := ar.zero;
      }
      for c := 0 to 8
        modifies computeGlobal
        invariant forall i :: 0 <= i < c ==> computeGlobal[i] == Dot(ar, x, w[outer * 8 + i], 1)
        invariant forall i :: c <= i < 8 ==> computeGlobal[i] == Dot(ar, x, w[outer * 8 + i], 0)
      {
        OneInputSubscript(weights, outer, c);
        DotSteps(ar, x, w[outer * 8 + c], 0);
        computeGlobal[c] := ar.add(computeGlobal[c], ar.mul(p0[0], weights[outer * 8 + c]));
      }
      for i := 0 to 8
        modifies out
        invariant forall o :: 0 <= o < outer * 8 + i ==> out[o] == stage[o]
        invariant forall o :: 16 <= o < out.Length ==> out[o] == old(out[o])
      {
        StageAt(ar, x, w, bias, 1, outer * 8 + i);
        var cse := outer * 8 + i;
        var v := ar.add(computeGlobal[i], bias[cse]);
        out[cse] := if ar.gt(v, ar.zero) then v else ar.zero;
      }
    }
    assert out[..16] == stage;
  }

  /** fused_nn_contrib_dense_pack_add_nn_relu_1: sixteen inputs, sixteen outputs. */
  method DensePackAddNnRelu1<T(0)>(ar: Arith<T>, p0: array<T>, weights: seq<T>, bias: seq<T>, out: array<T>)
    requires p0.Length >= 16 && out.Length >= 16 && p0 != out && |weights| == 256 && |bias| == 16
    modifies out
    ensures [out[..16]] == Stage(ar, [p0[..16]], Unpack(weights, 2, 16, 8), bias, 16)
    ensures out[16..] == old(out[16..])
  {
    hide Stage, Unpack, Dot, PackIndex;
    ghost var x, w := p0[..16], Unpack(weights, 2, 16, 8);
    StageAt(ar, x, w, bias, 16, 0);
    ghost var stage := Stage(ar, [x], w, bias, 16)[0];
    for outer := 0 to 2
      invariant forall o :: 0 <= o < outer * 8 ==> out[o] == stage[o]
      invariant forall o :: 16 <= o < out.Length ==> out[o] == old(out[o])
    {
      var computeGlobal := new T[8];
      for c := 0 to 8
        modifies computeGlobal
        invariant forall i :: 0 <= i < c ==> computeGlobal[i] == Dot(ar, x, w[outer * 8 + i], 0)
      {
        DotSteps(ar, x, w[outer * 8 + c], 0);
        computeGlobal[c] := ar.zero;
      }
      for k := 0 to 16
        modifies computeGlobal
        invariant forall i :: 0 <= i < 8 ==> computeGlobal[i] == Dot(ar, x, w[outer * 8 + i], k)
      {
        for c := 0 to 8
          modifies computeGlobal
          invariant forall i :: 0 <= i < c ==> computeGlobal[i] == Dot(ar, x, w[outer * 8 + i], k + 1)
          invariant forall i :: c <= i < 8 ==> computeGlobal[i] == Dot(ar, x, w[outer * 8 + i], k)
        {
          SubscriptOf(weights, 2, 16, 8, outer, c, k);
          DotSteps(ar, x, w[outer * 8 + c], k);
          computeGlobal[c] := ar.add(computeGlobal[c], ar.mul(p0[k], weights[outer * 128 + k * 8 + c]));
        }
      }
      for i := 0 to 8
        modifies out
        invariant forall o :: 0 <= o < outer * 8 + i ==> out[o] == stage[o]
        invariant forall o :: 16 <= o < out.Length ==> out[o] == old(out[o])
      {
        StageAt(ar, x, w, bias, 16, outer * 8 + i);
        var cse := outer * 8 + i;
        var v := ar.add(computeGlobal[i], bias[cse]);
        out[cse] := if ar.gt(v, ar.zero) then v else ar.zero;
      }
    }
    assert out[..16] == stage;
  }

  /** fused_reshape_1: copies in row-major order; correct when input and output are one buffer. */
  method FusedReshape1<T>(p0: array<T>, out: array<T>)
    requires p0.Length >= 16 && out.Length >= 16
    modifies out
    ensures [out[..16]] == Reshape([old(p0[..16])], 16)
    ensures out[16..] == old(out[16..])
  {
    for i := 0 to 16
      invariant p0[..16] == old(p0[..16])
      invariant out[..i] == old(p0[..i]) && out[16..] == old(out[16..])
    {
      out[i] := p0[i];
      assert out[..i + 1] == out[..i] + [out[i]];
      assert old(p0[..i + 1]) == old(p0[..i]) + [old(p0[i])];
      assert out[16..] == old(out[16..]);
    }
    SameWidthReshapeIsNop([old(p0[..16])], 16);
  }

  /** fused_reshape: the same for one element. */
  method FusedReshape<T>(p0: array<T>, out: array<T>)
    requires p0.Length >= 1 && out.Length >= 1
    modifies out
    ensures [out[..1]] == Reshape([old(p0[..1])], 1)
    ensures out[1..] == old(out[1..])
  {
    ghost var x := p0[..1];
    out[0] := p0[0];
    SameWidthReshapeIsNop([x], 1);
    assert out[..1] == x;
    assert out[1..] == old(out[1..]);
  }

  /**
   The graph the executor runs: its three operators over the memory plan of storage ids
   0, 1, 2 and again 1, the program's reshapes being no operations on one storage. The result
   is the Relay program on the matrices the packed constants stand for, although the last
   operator overwrites the first one's output.
   */
  method RunGraph<T(0)>(ar: Arith<T>, storage0: array<T>, storage1: array<T>, storage2: array<T>,
                        p1: seq<T>, b1: seq<T>, p2: seq<T>, b2: seq<T>, p3: seq<T>, b3: seq<T>)
    requires storage0.Length == 1 && storage1.Length == storage2.Length == 16
    requires storage0 != storage1 && storage1 != storage2 && storage0 != storage2
    requires |p1| == |b1| == 16 && |p2| == 256 && |b2| == 16 && |p3| == 16 && |b3| == 1
    modifies storage1, storage2
    ensures storage0[..] == old(storage0[..])
    ensures [storage1[..1]] == RelayMain(ar, [storage0[..]], Unpack(p1, 2, 1, 8), b1,
                                         Unpack(p2, 2, 16, 8), b2, Unpack(p3, 1, 16, 1), b3)
  {
    assert storage0[..1] == storage0[..];
    ghost var input := [storage0[..]];
    SameWidthReshapeIsNop(input, 1);
    DensePackAddNnRelu(ar, storage0, p1, b1, storage1);
    ghost var first := [storage1[..16]];
    SameWidthReshapeIsNop(first, 16);
    DensePackAddNnRelu1(ar, storage1, p2, b2, storage2);
    ghost var second := [storage2[..16]];
    SameWidthReshapeIsNop(second, 16);
    DensePackAdd(ar, storage2, p3, b3, storage1);
  }

  /**
   The same chain on values, with the weights given as matrices and packed by the compiler:
   the packed form stands for the program's own parameters.
   */
  lemma {:induction false} PackedParametersGiveTheProgram<T>(ar: Arith<T>, input: seq<seq<T>>, w1: seq<seq<T>>,
      b1: seq<T>, w2: seq<seq<T>>, b2: seq<T>, w3: seq<seq<T>>, b3: seq<T>)
    requires |input| == 1 && Rows(input, 1)
    requires |w1| == |b1| == 16 && Rows(w1, 1)
    requires |w2| == |b2| == 16 && Rows(w2, 16)
    requires |w3| == |b3| == 1 && Rows(w3, 16)
    ensures RelayMain(ar, input, Unpack(Pack(w1, 2, 1, 8), 2, 1, 8), b1,
                      Unpack(Pack(w2, 2, 16, 8), 2, 16, 8), b2, Unpack(Pack(w3, 1, 16, 1), 1, 16, 1), b3)
            == RelayMain(ar, input, w1, b1, w2, b2, w3, b3)
  {
    UnpackPack(w1, 2, 1, 8);
    UnpackPack(w2, 2, 16, 8);
    UnpackPack(w3, 1, 16, 1);
  }
}
