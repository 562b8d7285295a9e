/** The tensor-layout contract of the GEMM operation, as
    apu-app/tests/vta-gemm-test.cpp states it: a layout is a list of
    dimension names, outermost first, whose sizes are set by name; an
    element's position in a buffer laid out that way is the sum of its
    coordinates weighted by each dimension's step, the product of the
    sizes of the dimensions inside it.  `permuteDims` moves every element
    from one layout to another of the same names, and `padData` copies a
    tensor into a larger one, dimension by dimension in order, zeroing
    the rest.  Elements are one byte wide. */
module TensorLayout {
  import opened Bits

  /** The dimension sizes `setDim` records, by name. */
  type Dims = map<string, nat>

  /** A layout the operation can work with: no name twice, each with a
      size. */
  predicate Layout(dims: Dims, l: seq<string>)
  {
    && (forall i, j :: 0 <= i < j < |l| ==> l[i] != l[j])
    && (forall i :: 0 <= i < |l| ==> l[i] in dims)
  }

  /** The sizes of a layout's dimensions, in layout order. */
  function Shape(dims: Dims, l: seq<string>): (s: seq<nat>)
    requires forall i :: 0 <= i < |l| ==> l[i] in dims
    ensures |s| == |l| && forall i :: 0 <= i < |l| ==> s[i] == dims[l[i]]
  {
    seq(|l|, i requires 0 <= i < |l| && l[i] in dims => dims[l[i]])
  }

  /** The number of elements of a shape. */
  function Elements(s: seq<nat>): nat
  {
    if |s| == 0 then 1 else s[0] * Elements(s[1..])
  }

  /** `tensorElements`: the product of the sizes of every dimension of the
      layout. */
  function TensorElements(dims: Dims, l: seq<string>): (n: nat)
    requires forall i :: 0 <= i < |l| ==> l[i] in dims
    ensures n == Elements(Shape(dims, l))
  {
    if |l| == 0 then 1
    else
      assert Shape(dims, l)[1..] == Shape(dims, l[1..]);
      dims[l[0]] * TensorElements(dims, l[1..])
  }

  /** `getDimStep(layout, d)`: the product of the sizes of the dimensions
      named after `d`. */
  function DimStep(dims: Dims, l: seq<string>, d: string): (n: nat)
    requires forall i :: 0 <= i < |l| ==> l[i] in dims
    requires d in l
  {
    if l[0] == d then TensorElements(dims, l[1..]) else DimStep(dims, l[1..], d)
  }

  /** The step of the dimension at position `i` is the number of elements
      of the dimensions inside it. */
  lemma {:induction false} DimStepIsInnerElements(dims: Dims, l: seq<string>, i: nat)
    requires Layout(dims, l) && i < |l|
    ensures DimStep(dims, l, l[i]) == Elements(Shape(dims, l)[i + 1..])
  {
    if i == 0 {
      assert Shape(dims, l)[1..] == Shape(dims, l[1..]);
    } else {
      assert l[1..][i - 1] == l[i];
      assert Shape(dims, l)[i + 1..] == Shape(dims, l[1..])[i..];
      DimStepIsInnerElements(dims, l[1..], i - 1);
    }
  }

  /** The step the test checks: `Io` in the input layout of the
      permutation test is 4 * 4 * 4. */
  lemma PermuteTestStep()
    ensures var dims := map["No" := 1, "Ni" := 4, "Io" := 4, "Ii" := 4, "H" := 4, "W" := 4];
      DimStep(dims, ["No", "Ni", "Io", "Ii", "H", "W"], "Io") == 4 * 4 * 4
  {
    var dims := map["No" := 1, "Ni" := 4, "Io" := 4, "Ii" := 4, "H" := 4, "W" := 4];
    var l := ["No", "Ni", "Io", "Ii", "H", "W"];
    assert l[1..][1..] == ["Io", "Ii", "H", "W"];
    assert l[3..] == ["Ii", "H", "W"] && l[4..] == ["H", "W"] && l[5..] == ["W"] && l[6..] == [];
  }

  /** A coordinate tuple that lies inside a shape. */
  predicate InShape(s: seq<nat>, t: seq<nat>)
  {
    |t| == |s| && forall i :: 0 <= i < |s| ==> t[i] < s[i]
  }

  /** The position of the element at coordinates `t`: each coordinate
      times the number of elements inside its dimension, summed. */
  function Offset(s: seq<nat>, t: seq<nat>): nat
    requires |t| == |s|
  {
    if |s| == 0 then 0 else t[0] * Elements(s[1..]) + Offset(s[1..], t[1..])
  }

  /** The sum the tests write out, coordinate times `getDimStep` over the
      names of the layout, for the coordinates `t` given in layout order. */
  function StepSum(dims: Dims, l: seq<string>, names: seq<string>, t: seq<nat>): nat
    requires forall i :: 0 <= i < |l| ==> l[i] in dims
    requires |t| == |names| && forall i :: 0 <= i < |names| ==> names[i] in l
  {
    if |names| == 0 then 0
    else
      assert forall i :: 0 <= i < |names| - 1 ==> names[1..][i] == names[i + 1];
      t[0] * DimStep(dims, l, names[0]) + StepSum(dims, l, names[1..], t[1..])
  }

  /** The step of a name other than the first is its step in the rest of
      the layout. */
  lemma {:induction false} DimStepTail(dims: Dims, l: seq<string>, d: string)
    requires forall i :: 0 <= i < |l| ==> l[i] in dims
    requires d in l && d != l[0]
    ensures d in l[1..] && DimStep(dims, l, d) == DimStep(dims, l[1..], d)
  {
  }

  lemma {:induction false} StepSumTail(dims: Dims, l: seq<string>, names: seq<string>, t: seq<nat>)
    requires |l| > 0 && forall i :: 0 <= i < |l| ==> l[i] in dims
    requires |t| == |names| && forall i :: 0 <= i < |names| ==> names[i] in l && names[i] != l[0]
    ensures forall i :: 0 <= i < |names| ==> names[i] in l[1..]
    ensures StepSum(dims, l, names, t) == StepSum(dims, l[1..], names, t)
  {
    forall i | 0 <= i < |names|
      ensures names[i] in l[1..]
    {
      DimStepTail(dims, l, names[i]);
    }
    if |names| > 0 {
      DimStepTail(dims, l, names[0]);
      StepSumTail(dims, l, names[1..], t[1..]);
    }
  }

  /** The offset is the tests' sum of coordinates times steps. */
  lemma {:induction false} OffsetIsStepSum(dims: Dims, l: seq<string>, t: seq<nat>)
    requires Layout(dims, l) && |t| == |l|
    ensures Offset(Shape(dims, l), t) == StepSum(dims, l, l, t)
  {
    if |l| > 0 {
      assert Shape(dims, l)[1..] == Shape(dims, l[1..]);
      assert Layout(dims, l[1..]);
      StepSumTail(dims, l, l[1..], t[1..]);
      OffsetIsStepSum(dims, l[1..], t[1..]);
    }
  }

  /** `j % m` and `j / m` are the unique remainder and quotient. */
  lemma DivModUnique(j: int, m: int, q: int, r: int)
    requires m > 0 && 0 <= r < m && j == q * m + r
    ensures j / m == q && j % m == r
  {
    var q', r' := j / m, j % m;
    assert q' * m + r' == q * m + r;
    if q' < q {
      AtLeastOneMultiple(q - q', m);
    } else if q < q' {
      AtLeastOneMultiple(q' - q, m);
    }
  }

  lemma AtLeastOneMultiple(a: int, m: int)
    requires a >= 1 && m > 0
    ensures a * m >= m
  {
  }

  /** A coordinate below `b` and an offset below `e` inside it stay below
      `b` blocks of `e`. */
  lemma BlockBound(a: nat, b: nat, e: nat, x: nat)
    requires a < b && x < e
    ensures a * e + x < b * e
  {
    assert a * e + e == (a + 1) * e;
    assert (a + 1) * e <= b * e;
  }

  /** Every coordinate tuple inside a shape lands inside the buffer. */
  lemma {:induction false} OffsetBound(s: seq<nat>, t: seq<nat>)
    requires InShape(s, t)
    ensures Offset(s, t) < Elements(s)
  {
    if |s| > 0 {
      OffsetBound(s[1..], t[1..]);
      BlockBound(t[0], s[0], Elements(s[1..]), Offset(s[1..], t[1..]));
    }
  }

  /** The coordinates of position `j`, outermost dimension first. */
  function Decode(s: seq<nat>, j: nat): (t: seq<nat>)
    requires j < Elements(s)
    ensures InShape(s, t)
  {
    if |s| == 0 then []
    else
      var e := Elements(s[1..]);
      assert e > 0;
      var r := j % e;
      assert j / e < s[0];
      [j / e] + Decode(s[1..], r)
  }

  /** Decoding a position and taking the offset of the coordinates gives
      the position back. */
  lemma {:induction false} OffsetOfDecode(s: seq<nat>, j: nat)
    requires j < Elements(s)
    ensures Offset(s, Decode(s, j)) == j
  {
    if |s| > 0 {
      var e := Elements(s[1..]);
      var t := Decode(s, j);
      assert t[0] == j / e && t[1..] == Decode(s[1..], j % e);
      OffsetOfDecode(s[1..], j % e);
      assert Offset(s, t) == (j / e) * e + j % e;
    }
  }

  /** The coordinates of an element's offset are its coordinates. */
  lemma {:induction false} DecodeOfOffset(s: seq<nat>, t: seq<nat>)
    requires InShape(s, t)
    ensures Offset(s, t) < Elements(s) && Decode(s, Offset(s, t)) == t
  {
    OffsetBound(s, t);
    if |s| > 0 {
      var e := Elements(s[1..]);
      var rest := Offset(s[1..], t[1..]);
      OffsetBound(s[1..], t[1..]);
      DivModUnique(Offset(s, t), e, t[0], rest);
      DecodeOfOffset(s[1..], t[1..]);
    }
  }

  /** The position of name `n` in layout `l`. */
  function PosOf(l: seq<string>, n: string): (p: nat)
    requires n in l
    ensures p < |l| && l[p] == n
  {
    if l[0] == n then 0 else 1 + PosOf(l[1..], n)
  }

  /** Two layouts of the same names. */
  predicate SameNames(a: seq<string>, b: seq<string>)
  {
    |a| == |b| && (forall i :: 0 <= i < |a| ==> a[i] in b) && (forall i :: 0 <= i < |b| ==> b[i] in a)
  }

  /** Coordinates given in the order of layout `outL`, reordered to the
      order of layout `inL`. */
  function Reordered(inL: seq<string>, outL: seq<string>, t: seq<nat>): (u: seq<nat>)
    requires SameNames(inL, outL) && |t| == |outL|
    ensures |u| == |inL| && forall i :: 0 <= i < |inL| ==> u[i] == t[PosOf(outL, inL[i])]
  {
    seq(|inL|, i requires 0 <= i < |inL| => t[PosOf(outL, inL[i])])
  }

  lemma ReorderedInShape(dims: Dims, inL: seq<string>, outL: seq<string>, t: seq<nat>)
    requires Layout(dims, inL) && Layout(dims, outL) && SameNames(inL, outL)
    requires InShape(Shape(dims, outL), t)
    ensures InShape(Shape(dims, inL), Reordered(inL, outL, t))
  {
  }

  /** A layout's elements are those of one dimension times those of the
      others. */
  lemma {:induction false} ElementsWithout(dims: Dims, l: seq<string>, p: nat)
    requires (forall i :: 0 <= i < |l| ==> l[i] in dims) && p < |l|
    ensures TensorElements(dims, l) == dims[l[p]] * TensorElements(dims, l[..p] + l[p + 1..])
  {
    if p == 0 {
      assert l[..0] + l[1..] == l[1..];
    } else {
      var r := l[1..];
      assert r[..p - 1] + r[p..] == (l[..p] + l[p + 1..])[1..];
      assert (l[..p] + l[p + 1..])[0] == l[0];
      ElementsWithout(dims, r, p - 1);
      var x, y, z := dims[l[0]], dims[l[p]], TensorElements(dims, r[..p - 1] + r[p..]);
      assert x * (y * z) == y * (x * z);
    }
  }

  /** A layout with one name taken out, at position `p`. */
  function Without(l: seq<string>, p: nat): (r: seq<string>)
    requires p < |l|
    ensures |r| == |l| - 1 && forall i :: 0 <= i < |r| ==> r[i] == (if i < p then l[i] else l[i + 1])
  {
    l[..p] + l[p + 1..]
  }

  /** Every name of `a` but its first is a name of `b` without `a[0]`. */
  lemma RemovedCovered(dims: Dims, a: seq<string>, b: seq<string>, p: nat)
    requires Layout(dims, a) && Layout(dims, b) && SameNames(a, b)
    requires |a| > 0 && p < |b| && b[p] == a[0]
    ensures forall i :: 0 <= i < |a| - 1 ==> a[1..][i] in Without(b, p)
  {
    var b' := Without(b, p);
    forall i | 0 <= i < |a| - 1
      ensures a[1..][i] in b'
    {
      var q := PosOf(b, a[i + 1]);
      assert q != p;
      assert b'[if q < p then q else q - 1] == a[i + 1];
    }
  }

  /** Every name of `b` without `a[0]` is a name of `a` but its first. */
  lemma RemovedCovers(dims: Dims, a: seq<string>, b: seq<string>, p: nat)
    requires Layout(dims, a) && Layout(dims, b) && SameNames(a, b)
    requires |a| > 0 && p < |b| && b[p] == a[0]
    ensures forall i :: 0 <= i < |b| - 1 ==> Without(b, p)[i] in a[1..]
  {
    var b' := Without(b, p);
    forall i | 0 <= i < |b'|
      ensures b'[i] in a[1..]
    {
      var q := PosOf(a, b'[i]);
      assert q != 0;
      assert a[1..][q - 1] == b'[i];
    }
  }

  /** Taking the first name of `a` out of both layouts leaves two layouts
      of the same names. */
  lemma RemovedSameNames(dims: Dims, a: seq<string>, b: seq<string>, p: nat)
    requires Layout(dims, a) && Layout(dims, b) && SameNames(a, b)
    requires |a| > 0 && p < |b| && b[p] == a[0]
    ensures Layout(dims, a[1..]) && Layout(dims, Without(b, p))
    ensures SameNames(a[1..], Without(b, p))
  {
    RemovedCovered(dims, a, b, p);
    RemovedCovers(dims, a, b, p);
  }

  /** Two layouts of the same names have the same number of elements, so a
      permutation fills its output exactly. */
  lemma {:induction false} SameNamesSameElements(dims: Dims, a: seq<string>, b: seq<string>)
    requires Layout(dims, a) && Layout(dims, b) && SameNames(a, b)
    ensures TensorElements(dims, a) == TensorElements(dims, b)
  {
    if |a| > 0 {
      var p := PosOf(b, a[0]);
      RemovedSameNames(dims, a, b, p);
      ElementsWithout(dims, b, p);
      assert Without(b, p) == b[..p] + b[p + 1..];
      SameNamesSameElements(dims, a[1..], Without(b, p));
    }
  }

  /** The input position the element at output position `j` comes from. */
  function PermuteSource(dims: Dims, inL: seq<string>, outL: seq<string>, j: nat): (i: nat)
    requires Layout(dims, inL) && Layout(dims, outL) && SameNames(inL, outL)
    requires j < TensorElements(dims, outL)
    ensures i < TensorElements(dims, inL)
  {
    var t := Decode(Shape(dims, outL), j);
    ReorderedInShape(dims, inL, outL, t);
    OffsetBound(Shape(dims, inL), Reordered(inL, outL, t));
    Offset(Shape(dims, inL), Reordered(inL, outL, t))
  }

  /** The buffer `permuteDims` produces from `input`. */
  function Permuted(dims: Dims, inL: seq<string>, outL: seq<string>, input: seq<u8>): (r: seq<u8>)
    requires Layout(dims, inL) && Layout(dims, outL) && SameNames(inL, outL)
    requires |input| == TensorElements(dims, inL)
    ensures |r| == TensorElements(dims, outL)
  {
    seq(TensorElements(dims, outL), j requires 0 <= j < TensorElements(dims, outL) =>
      input[PermuteSource(dims, inL, outL, j)])
  }

  /** What the permutation test asserts: for every coordinate tuple, the
      output element at its position in the output layout is the input
      element at its position in the input layout. */
  lemma PermutedContract(dims: Dims, inL: seq<string>, outL: seq<string>, input: seq<u8>, t: seq<nat>)
    requires Layout(dims, inL) && Layout(dims, outL) && SameNames(inL, outL)
    requires |input| == TensorElements(dims, inL)
    requires InShape(Shape(dims, outL), t)
    ensures Offset(Shape(dims, outL), t) < TensorElements(dims, outL)
    ensures InShape(Shape(dims, inL), Reordered(inL, outL, t))
    ensures Offset(Shape(dims, inL), Reordered(inL, outL, t)) < |input|
    ensures Permuted(dims, inL, outL, input)[Offset(Shape(dims, outL), t)]
         == input[Offset(Shape(dims, inL), Reordered(inL, outL, t))]
  {
    DecodeOfOffset(Shape(dims, outL), t);
    ReorderedInShape(dims, inL, outL, t);
    OffsetBound(Shape(dims, inL), Reordered(inL, outL, t));
  }

  /** `permuteDims` with an element size of one byte. */
  method PermuteDims(dims: Dims, inL: seq<string>, outL: seq<string>, input: array<u8>, output: array<u8>)
    requires Layout(dims, inL) && Layout(dims, outL) && SameNames(inL, outL)
    requires input.Length == TensorElements(dims, inL) && output.Length == TensorElements(dims, outL)
    requires input != output
    modifies output
    ensures output[..] == Permuted(dims, inL, outL, input[..])
  {
    for j := 0 to output.Length
      invariant forall k :: 0 <= k < j ==> output[k] == Permuted(dims, inL, outL, input[..])[k]
    {
      output[j] := input[PermuteSource(dims, inL, outL, j)];
    }
  }

  /** Layouts `padData` pairs position by position, each input dimension
      no larger than its output partner. */
  predicate Pads(dims: Dims, inL: seq<string>, outL: seq<string>)
  {
    && Layout(dims, inL) && Layout(dims, outL) && |inL| == |outL|
    && forall i :: 0 <= i < |inL| ==> dims[inL[i]] <= dims[outL[i]]
  }

  /** The buffer `padData` produces from `input`: an output element whose
      coordinates fit the input shape is the input element at the same
      coordinates; every other one is zero. */
  function Padded(dims: Dims, inL: seq<string>, outL: seq<string>, input: seq<u8>): (r: seq<u8>)
    requires Pads(dims, inL, outL) && |input| == TensorElements(dims, inL)
    ensures |r| == TensorElements(dims, outL)
  {
    seq(TensorElements(dims, outL), j requires 0 <= j < TensorElements(dims, outL) =>
      var t := Decode(Shape(dims, outL), j);
      if InShape(Shape(dims, inL), t) then
        OffsetBound(Shape(dims, inL), t);
        input[Offset(Shape(dims, inL), t)]
      else 0)
  }

  /** Every input element lands at the output position of the same
      coordinates, and every output position no input coordinates reach
      is zero. */
  lemma PaddedContract(dims: Dims, inL: seq<string>, outL: seq<string>, input: seq<u8>)
    requires Pads(dims, inL, outL) && |input| == TensorElements(dims, inL)
    ensures forall t :: InShape(Shape(dims, inL), t) ==>
      && Offset(Shape(dims, outL), t) < TensorElements(dims, outL)
      && Offset(Shape(dims, inL), t) < |input|
      && Padded(dims, inL, outL, input)[Offset(Shape(dims, outL), t)] == input[Offset(Shape(dims, inL), t)]
    ensures forall j :: (0 <= j < TensorElements(dims, outL) &&
      forall t :: InShape(Shape(dims, inL), t) ==> Offset(Shape(dims, outL), t) != j) ==>
      Padded(dims, inL, outL, input)[j] == 0
  {
    var si, so := Shape(dims, inL), Shape(dims, outL);
    forall t | InShape(si, t)
      ensures Offset(so, t) < TensorElements(dims, outL)
      ensures Offset(si, t) < |input|
      ensures Padded(dims, inL, outL, input)[Offset(so, t)] == input[Offset(si, t)]
    {
      assert InShape(so, t);
      DecodeOfOffset(so, t);
      OffsetBound(si, t);
    }
    forall j | 0 <= j < TensorElements(dims, outL) &&
      (forall t :: InShape(si, t) ==> Offset(so, t) != j)
      ensures Padded(dims, inL, outL, input)[j] == 0
    {
      OffsetOfDecode(so, j);
    }
  }

  /** The dimension sizes of the simple padding test. */
  const PAD_TEST_DIMS: Dims := map["Ni" := 1, "Hi" := 2, "Wi" := 3, "Ci" := 1, "No" := 2, "Ho" := 2, "Wo" := 3, "Co" := 2]
  const PAD_TEST_IN: seq<string> := ["Ni", "Hi", "Wi", "Ci"]
  const PAD_TEST_OUT: seq<string> := ["No", "Ho", "Wo", "Co"]

  /** The test's input values and the output it expects. */
  const PAD_TEST_INPUT: seq<u8> := [1, 2, 3, 4, 5, 6]
  const PAD_TEST_EXPECTED: seq<u8> := [1, 0, 2, 0, 3, 0, 4, 0, 5, 0, 6, 0, 0, 0, 0, 0, 0, 0, 0, 0, 0, 0, 0, 0]

  /** The layouts of the simple padding test and their shapes. */
  lemma PadTestShapes()
    ensures Pads(PAD_TEST_DIMS, PAD_TEST_IN, PAD_TEST_OUT)
    ensures Shape(PAD_TEST_DIMS, PAD_TEST_IN) == [1, 2, 3, 1]
    ensures Shape(PAD_TEST_DIMS, PAD_TEST_OUT) == [2, 2, 3, 2]
    ensures TensorElements(PAD_TEST_DIMS, PAD_TEST_IN) == |PAD_TEST_INPUT| == 6
    ensures TensorElements(PAD_TEST_DIMS, PAD_TEST_OUT) == 24
  {
    assert Elements([1, 2, 3, 1]) == 6 && Elements([2, 2, 3, 2]) == 24;
  }

  /** The coordinates of position `j` of a 2x2x3x2 tensor. */
  lemma DecodePadTestOutput(j: nat)
    requires j < 24
    ensures Elements([2, 2, 3, 2]) == 24
    ensures Decode([2, 2, 3, 2], j) == [j / 12, j % 12 / 6, j % 6 / 2, j % 2]
  {
    assert [2, 2, 3, 2][1..] == [2, 3, 2] && [2, 3, 2][1..] == [3, 2] && [3, 2][1..] == [2] && [2][1..] == [];
    assert Elements([2]) == 2 && Elements([3, 2]) == 6 && Elements([2, 3, 2]) == 12;
    var j1 := j % 12;
    var j2 := j1 % 6;
    var j3 := j2 % 2;
    assert Decode([2], j3) == [j3];
    assert Decode([3, 2], j2) == [j2 / 2] + Decode([2], j3);
    assert Decode([2, 3, 2], j1) == [j1 / 6] + Decode([3, 2], j2);
    assert Decode([2, 2, 3, 2], j) == [j / 12] + Decode([2, 3, 2], j1);
    assert j2 == j % 6 && j3 == j % 2;
  }

  /** Where coordinates of a 1x2x3x1 tensor lie in its buffer. */
  lemma OffsetPadTestInput(t: seq<nat>)
    requires InShape([1, 2, 3, 1], t)
    ensures Offset([1, 2, 3, 1], t) == t[1] * 3 + t[2]
  {
    assert [1, 2, 3, 1][1..] == [2, 3, 1] && [2, 3, 1][1..] == [3, 1] && [3, 1][1..] == [1] && [1][1..] == [];
    assert Elements([1]) == 1 && Elements([3, 1]) == 3 && Elements([2, 3, 1]) == 6;
    assert t[0] == 0 && t[3] == 0;
    assert Offset([1], t[3..]) == 0;
    assert Offset([3, 1], t[2..]) == t[2] by {
      assert t[2..][1..] == t[3..];
    }
    assert Offset([2, 3, 1], t[1..]) == t[1] * 3 + t[2] by {
      assert t[1..][1..] == t[2..];
    }
  }

  /** Element `j` of the simple padding test's output. */
  lemma PadTestElement(j: nat)
    requires j < 24
    ensures Pads(PAD_TEST_DIMS, PAD_TEST_IN, PAD_TEST_OUT)
    ensures TensorElements(PAD_TEST_DIMS, PAD_TEST_OUT) == 24
    ensures Padded(PAD_TEST_DIMS, PAD_TEST_IN, PAD_TEST_OUT, PAD_TEST_INPUT)[j] == EvenFirstHalf(j)
  {
    PadTestShapes();
    DecodePadTestOutput(j);
    var t := Decode([2, 2, 3, 2], j);
    if InShape([1, 2, 3, 1], t) {
      OffsetPadTestInput(t);
    }
  }

  /** The simple padding test: a 1x2x3x1 tensor padded into 2x2x3x2
      occupies the even positions of the first half of the output. */
  lemma PadTestSimple()
    ensures Pads(PAD_TEST_DIMS, PAD_TEST_IN, PAD_TEST_OUT)
    ensures Padded(PAD_TEST_DIMS, PAD_TEST_IN, PAD_TEST_OUT, PAD_TEST_INPUT) == PAD_TEST_EXPECTED
  {
    PadTestShapes();
    var p := Padded(PAD_TEST_DIMS, PAD_TEST_IN, PAD_TEST_OUT, PAD_TEST_INPUT);
    var e := PAD_TEST_EXPECTED;
    EvenFirstHalfValues();
    forall j | 0 <= j < 24
      ensures p[j] == e[j]
    {
      PadTestElement(j);
    }
    assert p == e;
  }

  /** The expected output of the simple padding test, element by element. */
  function EvenFirstHalf(j: int): int
  {
    if 0 <= j < 12 && j % 2 == 0 then j / 2 + 1 else 0
  }

  lemma EvenFirstHalfValues()
    ensures |PAD_TEST_EXPECTED| == 24
    ensures forall j :: 0 <= j < 24 ==> PAD_TEST_EXPECTED[j] == EvenFirstHalf(j)
  {
  }

  /** `padData` with an element size of one byte. */
  method PadData(dims: Dims, inL: seq<string>, outL: seq<string>, input: array<u8>, output: array<u8>)
    requires Pads(dims, inL, outL)
    requires input.Length == TensorElements(dims, inL) && output.Length == TensorElements(dims, outL)
    requires input != output
    modifies output
    ensures output[..] == Padded(dims, inL, outL, input[..])
  {
    var si, so := Shape(dims, inL), Shape(dims, outL);
    for j := 0 to output.Length
      invariant forall k :: 0 <= k < j ==> output[k] == Padded(dims, inL, outL, input[..])[k]
    {
      var t := Decode(so, j);
      if InShape(si, t) {
        OffsetBound(si, t);
        output[j] := input[Offset(si, t)];
      } else {
        output[j] := 0;
      }
    }
  }
}
