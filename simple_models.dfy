/** The model fixtures of apu-app/scripts/simple-models.py: one addition
    model per vector length, a sweep of single-convolution models over six
    parameter lists with three skip rules, and two small networks that
    mix convolutions and an addition.  The models themselves are built
    and exported by PyTorch; what is modelled is which files are made,
    their names, the inputs of the addition models and the shapes the
    networks' layers produce. */
module SimpleModels {
  import opened Bits

  // Decimal formatting, as an f-string prints a non-negative int.

  function Digit(d: nat): (c: char)
    requires d < 10
    ensures '0' <= c <= '9' && c as int - '0' as int == d
  {
    ('0' as int + d) as char
  }

  predicate IsDigit(c: char)
  {
    '0' <= c <= '9'
  }

  predicate AllDigits(s: string)
  {
    forall i :: 0 <= i < |s| ==> IsDigit(s[i])
  }

  /** `f'{n}'`: the digits of `n`, most significant first, no leading
      zero. */
  function Dec(n: nat): (s: string)
    ensures |s| > 0 && AllDigits(s)
  {
    if n < 10 then [Digit(n)] else Dec(n / 10) + [Digit(n % 10)]
  }

  /** The number a string of digits spells. */
  function Value(s: string): nat
    requires AllDigits(s)
  {
    if |s| == 0 then 0 else Value(s[..|s| - 1]) * 10 + (s[|s| - 1] as int - '0' as int)
  }

  lemma {:induction false} ValueOfDec(n: nat)
    ensures Value(Dec(n)) == n
  {
    if n >= 10 {
      var s := Dec(n);
      assert s[..|s| - 1] == Dec(n / 10);
      ValueOfDec(n / 10);
    }
  }

  /** Different numbers are written differently. */
  lemma DecInjective(a: nat, b: nat)
    requires Dec(a) == Dec(b)
    ensures a == b
  {
    ValueOfDec(a);
    ValueOfDec(b);
  }

  /** A run of digits followed by text that starts with a non-digit can be
      told apart from the text: the digits end where the first non-digit
      is. */
  lemma DigitsThenText(x: string, y: string, x': string, y': string)
    requires AllDigits(x) && AllDigits(x')
    requires |y| > 0 && |y'| > 0 && !IsDigit(y[0]) && !IsDigit(y'[0])
    requires x + y == x' + y'
    ensures x == x' && y == y'
  {
    assert x == (x + y)[..|x|];
    assert x' == (x' + y')[..|x'|];
    assert y == (x + y)[|x|..];
    assert y' == (x' + y')[|x'|..];
  }

  /** A number printed between a fixed prefix and text that starts with a
      non-digit is read back. */
  lemma FieldSplit(p: string, a: nat, y: string, b: nat, y': string)
    requires |y| > 0 && |y'| > 0 && !IsDigit(y[0]) && !IsDigit(y'[0])
    requires p + (Dec(a) + y) == p + (Dec(b) + y')
    ensures a == b && y == y'
  {
    assert Dec(a) + y == (p + (Dec(a) + y))[|p|..];
    assert Dec(b) + y' == (p + (Dec(b) + y'))[|p|..];
    DigitsThenText(Dec(a), y, Dec(b), y');
    DecInjective(a, b);
  }

  // The addition fixtures.

  /** `alu_vectors_sizes`. */
  const ALU_VECTOR_SIZES: seq<nat> := [1, 4, 16, 25, 64, 256, 1024, 4096, 8192, 10000, 200007]

  /** A path: the output directory's components, then those below it. */
  type Path = seq<string>

  /** `output_dir / 'add' / f'add-{size}.onnx'`. */
  function AddPath(dir: Path, size: nat): (p: Path)
    ensures |p| == |dir| + 2 && p[..|dir|] == dir && p[|dir|] == "add"
  {
    dir + ["add", "add-" + (Dec(size) + ".onnx")]
  }

  /** Different lengths give different files. */
  lemma AddPathInjective(dir: Path, a: nat, b: nat)
    requires AddPath(dir, a) == AddPath(dir, b)
    ensures a == b
  {
    assert AddPath(dir, a)[|dir| + 1] == AddPath(dir, b)[|dir| + 1];
    FieldSplit("add-", a, ".onnx", b, ".onnx");
  }

  /** The eleven lengths are distinct, so are the eleven files. */
  lemma AddPathsDistinct(dir: Path)
    ensures |ALU_VECTOR_SIZES| == 11
    ensures forall i, j :: 0 <= i < j < |ALU_VECTOR_SIZES| ==>
      AddPath(dir, ALU_VECTOR_SIZES[i]) != AddPath(dir, ALU_VECTOR_SIZES[j])
  {
    forall i, j | 0 <= i < j < |ALU_VECTOR_SIZES|
      ensures AddPath(dir, ALU_VECTOR_SIZES[i]) != AddPath(dir, ALU_VECTOR_SIZES[j])
    {
      if AddPath(dir, ALU_VECTOR_SIZES[i]) == AddPath(dir, ALU_VECTOR_SIZES[j]) {
        AddPathInjective(dir, ALU_VECTOR_SIZES[i], ALU_VECTOR_SIZES[j]);
      }
    }
  }

  /** What `simple_add` exports: the names of the inputs and outputs and
      the sample inputs, each a 1 x L tensor. */
  datatype AddModel = AddModel(inputNames: seq<string>, outputNames: seq<string>, samples: seq<seq<seq<int>>>)

  /** `simple_add(out, L)`: two inputs `input_0` and `input_1` whose
      samples are both the row 0, 1, ..., L - 1, and one output
      `output_0`. */
  function SimpleAdd(vectorLength: nat): (m: AddModel)
    ensures m.inputNames == ["input_0", "input_1"] && m.outputNames == ["output_0"]
    ensures |m.samples| == |m.inputNames|
    ensures forall i :: 0 <= i < |m.samples| ==>
      |m.samples[i]| == 1 && |m.samples[i][0]| == vectorLength
      && forall v :: 0 <= v < vectorLength ==> m.samples[i][0][v] == v
  {
    var row := seq(vectorLength, v => v);
    AddModel(["input_0", "input_1"], ["output_0"], [[row], [row]])
  }

  // The convolution sweep.

  const INP_SIZES: seq<nat> := [10, 224]
  const INP_CHANNELS: seq<nat> := [1, 3, 32]
  const OUT_CHANNELS: seq<nat> := [32, 256]
  const KERNEL_SIZES: seq<nat> := [3, 5, 11]
  const STRIDES: seq<nat> := [1, 3]
  const PADDINGS: seq<nat> := [0, 2]

  /** The number of tuples of the product. */
  const VARIANTS: nat := 144

  /** One tuple: input size, input channels, output channels, kernel size,
      stride and padding. */
  datatype Variant = Variant(isize: nat, ichan: nat, ochan: nat, ksize: nat, stride: nat, padding: nat)

  /** Positions in the six lists, one per list, each within its list. */
  predicate InRange(d: seq<nat>)
  {
    && |d| == 6
    && d[0] < |INP_SIZES| && d[1] < |INP_CHANNELS| && d[2] < |OUT_CHANNELS|
    && d[3] < |KERNEL_SIZES| && d[4] < |STRIDES| && d[5] < |PADDINGS|
  }

  /** The index in the product of the tuple at positions `d`: the last list
      varies fastest. */
  function Weight(d: seq<nat>): nat
    requires |d| == 6
  {
    72 * d[0] + 24 * d[1] + 12 * d[2] + 4 * d[3] + 2 * d[4] + d[5]
  }

  /** Every index of the product is the weight of some positions. */
  lemma DigitsExist(k: nat)
    requires k < VARIANTS
    ensures exists d :: InRange(d) && Weight(d) == k
  {
    var r0 := k % 72;
    var r1 := r0 % 24;
    var r2 := r1 % 12;
    var r3 := r2 % 4;
    assert k == 72 * (k / 72) + r0;
    assert r0 == 24 * (r0 / 24) + r1;
    assert r1 == 12 * (r1 / 12) + r2;
    assert r2 == 4 * (r2 / 4) + r3;
    assert r3 == 2 * (r3 / 2) + r3 % 2;
    var d := [k / 72, r0 / 24, r1 / 12, r2 / 4, r3 / 2, r3 % 2];
    assert InRange(d) && Weight(d) == k;
  }

  /** Positions are determined by their weight. */
  lemma WeightInjective(d: seq<nat>, e: seq<nat>)
    requires InRange(d) && InRange(e) && Weight(d) == Weight(e)
    ensures d == e
  {
    assert d[0] == e[0];
    assert d[1] == e[1];
    assert d[2] == e[2];
    assert d[3] == e[3];
    assert d[4] == e[4];
    assert d[5] == e[5];
  }

  /** The positions in the six lists of tuple `k` of `itertools.product`. */
  ghost function Digits(k: nat): (d: seq<nat>)
    requires k < VARIANTS
    ensures InRange(d) && Weight(d) == k
  {
    DigitsExist(k);
    var d :| InRange(d) && Weight(d) == k; d
  }

  /** The positions that follow `d`, as the product's iterator advances:
      the last position moves on, carrying into the one before it when it
      runs off the end of its list. */
  function Next(d: seq<nat>): (e: seq<nat>)
    requires |d| == 6
    ensures |e| == 6
  {
    if d[5] + 1 < |PADDINGS| then [d[0], d[1], d[2], d[3], d[4], d[5] + 1]
    else if d[4] + 1 < |STRIDES| then [d[0], d[1], d[2], d[3], d[4] + 1, 0]
    else if d[3] + 1 < |KERNEL_SIZES| then [d[0], d[1], d[2], d[3] + 1, 0, 0]
    else if d[2] + 1 < |OUT_CHANNELS| then [d[0], d[1], d[2] + 1, 0, 0, 0]
    else if d[1] + 1 < |INP_CHANNELS| then [d[0], d[1] + 1, 0, 0, 0, 0]
    else [d[0] + 1, 0, 0, 0, 0, 0]
  }

  /** Advancing moves to the positions of the next index of the product. */
  lemma NextWeight(d: seq<nat>)
    requires InRange(d) && Weight(d) + 1 < VARIANTS
    ensures InRange(Next(d)) && Weight(Next(d)) == Weight(d) + 1
  {
  }

  /** The tuple at positions `d`. */
  function VariantAt(d: seq<nat>): (v: Variant)
    requires InRange(d)
    ensures v.isize in INP_SIZES && v.ichan in INP_CHANNELS && v.ochan in OUT_CHANNELS
    ensures v.ksize in KERNEL_SIZES && v.stride in STRIDES && v.padding in PADDINGS
  {
    Variant(INP_SIZES[d[0]], INP_CHANNELS[d[1]], OUT_CHANNELS[d[2]], KERNEL_SIZES[d[3]], STRIDES[d[4]], PADDINGS[d[5]])
  }

  /** Tuple `k` of the product of the six lists. */
  ghost function ProductAt(k: nat): (v: Variant)
    requires k < VARIANTS
  {
    VariantAt(Digits(k))
  }

  /** `a` comes before `b` in lexicographic order. */
  predicate LexLess(a: seq<nat>, b: seq<nat>)
  {
    exists i :: 0 <= i < |a| && i < |b| && a[..i] == b[..i] && a[i] < b[i]
  }

  /** The product's tuples come in lexicographic order of their positions
      in the lists. */
  lemma ProductOrder(k1: nat, k2: nat)
    requires k1 < k2 < VARIANTS
    ensures LexLess(Digits(k1), Digits(k2))
  {
    var a, b := Digits(k1), Digits(k2);
    if a[0] != b[0] {
      assert a[..0] == b[..0];
    } else if a[1] != b[1] {
      assert a[..1] == b[..1];
    } else if a[2] != b[2] {
      assert a[..2] == b[..2];
    } else if a[3] != b[3] {
      assert a[..3] == b[..3];
    } else if a[4] != b[4] {
      assert a[..4] == b[..4];
    } else {
      assert a[..5] == b[..5];
    }
  }

  /** Every combination of list entries is a tuple of the product. */
  lemma ProductComplete(i0: nat, i1: nat, i2: nat, i3: nat, i4: nat, i5: nat)
    requires i0 < 2 && i1 < 3 && i2 < 2 && i3 < 3 && i4 < 2 && i5 < 2
    ensures var k := 72 * i0 + 24 * i1 + 12 * i2 + 4 * i3 + 2 * i4 + i5;
      k < VARIANTS && Digits(k) == [i0, i1, i2, i3, i4, i5]
  {
    var d := [i0, i1, i2, i3, i4, i5];
    WeightInjective(d, Digits(Weight(d)));
  }

  /** No two positions of the product hold the same tuple: the entries of
      each list are distinct. */
  lemma ProductInjective(k1: nat, k2: nat)
    requires k1 < VARIANTS && k2 < VARIANTS
    requires ProductAt(k1) == ProductAt(k2)
    ensures k1 == k2
  {
    var a, b := Digits(k1), Digits(k2);
    assert a[0] == b[0] && a[1] == b[1] && a[2] == b[2];
    assert a[3] == b[3] && a[4] == b[4] && a[5] == b[5];
    assert a == b;
  }

  /** The sequence `itertools.product` yields over the six lists. */
  ghost function Product(): (ps: seq<Variant>)
    ensures |ps| == VARIANTS
    ensures forall k :: 0 <= k < VARIANTS ==> ps[k] == ProductAt(k)
  {
    seq(VARIANTS, k requires 0 <= k < VARIANTS => ProductAt(k))
  }

  /** The three skip rules, each written as the condition that passes it. */
  predicate Kept(v: Variant)
  {
    !(v.padding > v.ksize / 2) && !(v.isize > 224 && v.ichan > 32) && !(v.isize <= v.ksize)
  }

  /** The file name a kept tuple gets. */
  function ConvName(v: Variant): string
  {
    "conv2d-is" + (Dec(v.isize) + ("_ic" + (Dec(v.ichan) + ("_oc" + (Dec(v.ochan) + ("_ks" + (Dec(v.ksize)
      + ("_s" + (Dec(v.stride) + ("_p" + (Dec(v.padding) + ".onnx")))))))))))
  }

  /** The name holds all six values, so different tuples get different
      names. */
  lemma ConvNameInjective(v: Variant, w: Variant)
    requires ConvName(v) == ConvName(w)
    ensures v == w
  {
    var tv := "_ic" + (Dec(v.ichan) + ("_oc" + (Dec(v.ochan) + ("_ks" + (Dec(v.ksize)
      + ("_s" + (Dec(v.stride) + ("_p" + (Dec(v.padding) + ".onnx")))))))));
    var tw := "_ic" + (Dec(w.ichan) + ("_oc" + (Dec(w.ochan) + ("_ks" + (Dec(w.ksize)
      + ("_s" + (Dec(w.stride) + ("_p" + (Dec(w.padding) + ".onnx")))))))));
    FieldSplit("conv2d-is", v.isize, tv, w.isize, tw);
    var uv := "_oc" + (Dec(v.ochan) + ("_ks" + (Dec(v.ksize) + ("_s" + (Dec(v.stride) + ("_p" + (Dec(v.padding) + ".onnx")))))));
    var uw := "_oc" + (Dec(w.ochan) + ("_ks" + (Dec(w.ksize) + ("_s" + (Dec(w.stride) + ("_p" + (Dec(w.padding) + ".onnx")))))));
    FieldSplit("_ic", v.ichan, uv, w.ichan, uw);
    var xv := "_ks" + (Dec(v.ksize) + ("_s" + (Dec(v.stride) + ("_p" + (Dec(v.padding) + ".onnx")))));
    var xw := "_ks" + (Dec(w.ksize) + ("_s" + (Dec(w.stride) + ("_p" + (Dec(w.padding) + ".onnx")))));
    FieldSplit("_oc", v.ochan, xv, w.ochan, xw);
    var yv := "_s" + (Dec(v.stride) + ("_p" + (Dec(v.padding) + ".onnx")));
    var yw := "_s" + (Dec(w.stride) + ("_p" + (Dec(w.padding) + ".onnx")));
    FieldSplit("_ks", v.ksize, yv, w.ksize, yw);
    var zv := "_p" + (Dec(v.padding) + ".onnx");
    var zw := "_p" + (Dec(w.padding) + ".onnx");
    FieldSplit("_s", v.stride, zv, w.stride, zw);
    FieldSplit("_p", v.padding, ".onnx", w.padding, ".onnx");
  }

  /** `output_dir / 'conv2d' / name`. */
  function ConvPath(dir: Path, v: Variant): (p: Path)
    ensures |p| == |dir| + 2 && p[..|dir|] == dir && p[|dir|] == "conv2d"
  {
    dir + ["conv2d", ConvName(v)]
  }

  /** A model file the script writes. */
  datatype Fixture = AddFixture(path: Path, model: AddModel) | ConvFixture(path: Path, variant: Variant)

  /** The tuples of `ps` that pass the rules, in their order. */
  function Sweep(ps: seq<Variant>): (r: seq<Variant>)
    ensures |r| <= |ps|
    ensures forall i :: 0 <= i < |r| ==> Kept(r[i])
  {
    if |ps| == 0 then []
    else
      var v := ps[|ps| - 1];
      Sweep(ps[..|ps| - 1]) + (if Kept(v) then [v] else [])
  }

  /** The files made for a sequence of tuples. */
  function ConvFixtures(dir: Path, vs: seq<Variant>): (r: seq<Fixture>)
    ensures |r| == |vs|
    ensures forall i :: 0 <= i < |vs| ==> r[i] == ConvFixture(ConvPath(dir, vs[i]), vs[i])
  {
    seq(|vs|, i requires 0 <= i < |vs| => ConvFixture(ConvPath(dir, vs[i]), vs[i]))
  }

  /** Sweeping one more tuple adds it when it passes. */
  lemma SweepStep(ps: seq<Variant>, k: nat)
    requires k < |ps|
    ensures Sweep(ps[..k + 1]) == Sweep(ps[..k]) + (if Kept(ps[k]) then [ps[k]] else [])
  {
    assert ps[..k + 1][..k] == ps[..k];
  }

  lemma ConvFixturesAppend(dir: Path, vs: seq<Variant>, v: Variant)
    ensures ConvFixtures(dir, vs + [v]) == ConvFixtures(dir, vs) + [ConvFixture(ConvPath(dir, v), v)]
  {
  }

  /** The addition fixtures for the first `n` lengths. */
  function AddsMade(dir: Path, n: nat): (r: seq<Fixture>)
    requires n <= |ALU_VECTOR_SIZES|
    ensures |r| == n
    ensures forall i :: 0 <= i < n ==>
      r[i] == AddFixture(AddPath(dir, ALU_VECTOR_SIZES[i]), SimpleAdd(ALU_VECTOR_SIZES[i]))
  {
    seq(n, i requires 0 <= i < n => AddFixture(AddPath(dir, ALU_VECTOR_SIZES[i]), SimpleAdd(ALU_VECTOR_SIZES[i])))
  }

  /** The `__main__` block below `output_dir`: the addition models, then
      the sweep, skipping each tuple a rule rejects. */
  method MakeFixtures(dir: Path) returns (made: seq<Fixture>)
    ensures made == AddsMade(dir, |ALU_VECTOR_SIZES|) + ConvFixtures(dir, Sweep(Product()))
  {
    var adds := MakeAddFixtures(dir);
    var convs := MakeConvFixtures(dir);
    made := adds + convs;
  }

  /** The first loop: one addition model per length, in order. */
  method MakeAddFixtures(dir: Path) returns (made: seq<Fixture>)
    ensures made == AddsMade(dir, |ALU_VECTOR_SIZES|)
  {
    made := [];
    for i := 0 to |ALU_VECTOR_SIZES|
      invariant made == AddsMade(dir, i)
    {
      var size := ALU_VECTOR_SIZES[i];
      made := made + [AddFixture(AddPath(dir, size), SimpleAdd(size))];
    }
  }

  /** One step of the second loop: the tuple at positions `d` is the next
      of the product, and its file is made when it passes. */
  lemma SweepAdvance(dir: Path, d: seq<nat>, k: nat)
    requires InRange(d) && Weight(d) == k
    ensures k < VARIANTS
    ensures ConvFixtures(dir, Sweep(Product()[..k + 1])) == ConvFixtures(dir, Sweep(Product()[..k]))
      + (if Kept(VariantAt(d)) then [ConvFixture(ConvPath(dir, VariantAt(d)), VariantAt(d))] else [])
  {
    var ps := Product();
    ProductAtPositions(d, k);
    SweepStep(ps, k);
    ConvFixturesAppend(dir, Sweep(ps[..k]), ps[k]);
  }

  /** The second loop: over the product, in order, skipping each tuple a
      rule rejects. */
  method MakeConvFixtures(dir: Path) returns (made: seq<Fixture>)
    ensures made == ConvFixtures(dir, Sweep(Product()))
  {
    made := [];
    ghost var ps := Product();
    var d := [0, 0, 0, 0, 0, 0];
    for k := 0 to VARIANTS
      invariant k < VARIANTS ==> InRange(d) && Weight(d) == k
      invariant made == ConvFixtures(dir, Sweep(ps[..k]))
    {
      var v := VariantAt(d);
      SweepAdvance(dir, d, k);
      if k + 1 < VARIANTS {
        NextWeight(d);
      }
      d := Next(d);
      if v.padding > v.ksize / 2 {
        continue;
      }
      if v.isize > 224 && v.ichan > 32 {
        continue;
      }
      if v.isize <= v.ksize {
        continue;
      }
      made := made + [ConvFixture(ConvPath(dir, v), v)];
    }
    assert ps[..|ps|] == ps;
  }

  /** Sweeping two runs of tuples one after the other sweeps each. */
  lemma {:induction false} SweepAppend(a: seq<Variant>, b: seq<Variant>)
    ensures Sweep(a + b) == Sweep(a) + Sweep(b)
  {
    if |b| == 0 {
      assert a + b == a;
    } else {
      var c := b[..|b| - 1];
      assert (a + b)[..|a + b| - 1] == a + c;
      assert b[|b| - 1] == (a + b)[|a + b| - 1];
      SweepAppend(a, c);
    }
  }

  /** A tuple is swept up exactly when it passes all three rules and is
      among those swept. */
  lemma {:induction false} SweepIff(ps: seq<Variant>, v: Variant)
    ensures v in Sweep(ps) <==> Kept(v) && v in ps
  {
    if |ps| > 0 {
      var qs := ps[..|ps| - 1];
      SweepIff(qs, v);
      assert ps == qs + [ps[|ps| - 1]];
    }
  }

  /** Where in `ps` the `i`th swept tuple comes from. */
  function SweepPos(ps: seq<Variant>, i: nat): (k: nat)
    requires i < |Sweep(ps)|
    ensures k < |ps| && ps[k] == Sweep(ps)[i]
  {
    var qs := ps[..|ps| - 1];
    if i < |Sweep(qs)| then SweepPos(qs, i) else |ps| - 1
  }

  /** The sweep keeps the order of `ps`. */
  lemma {:induction false} SweepPosIncreasing(ps: seq<Variant>, i: nat, j: nat)
    requires i < j < |Sweep(ps)|
    ensures SweepPos(ps, i) < SweepPos(ps, j)
  {
    var qs := ps[..|ps| - 1];
    if j < |Sweep(qs)| {
      SweepPosIncreasing(qs, i, j);
    }
  }

  /** When `ps` holds no tuple twice, neither does its sweep. */
  lemma SweepDistinct(ps: seq<Variant>, i: nat, j: nat)
    requires forall k1, k2 :: 0 <= k1 < k2 < |ps| ==> ps[k1] != ps[k2]
    requires i < j < |Sweep(ps)|
    ensures Sweep(ps)[i] != Sweep(ps)[j]
  {
    SweepPosIncreasing(ps, i, j);
  }

  /** A tuple of the product is made into a file exactly when it passes all
      three rules. */
  lemma SweptIff(v: Variant)
    ensures v in Sweep(Product()) <==>
      Kept(v) && exists k :: 0 <= k < VARIANTS && ProductAt(k) == v
  {
    SweepIff(Product(), v);
  }

  /** The tuple at index `k` of the product is the one at the positions
      whose weight is `k`. */
  lemma ProductAtPositions(d: seq<nat>, k: nat)
    requires InRange(d) && Weight(d) == k
    ensures k < VARIANTS && Product()[k] == VariantAt(d)
  {
    WeightInjective(d, Digits(k));
  }

  /** The channel rule rejects no tuple of these lists: only the kernel
      size, the padding and the input size decide. */
  lemma KeptEntries(i0: nat, i1: nat, i2: nat, i3: nat, i4: nat, i5: nat)
    requires i0 < 2 && i1 < 3 && i2 < 2 && i3 < 3 && i4 < 2 && i5 < 2
    ensures Kept(Variant(INP_SIZES[i0], INP_CHANNELS[i1], OUT_CHANNELS[i2], KERNEL_SIZES[i3], STRIDES[i4], PADDINGS[i5]))
      <==> (i3 == 0 && i5 == 0) || i3 == 1 || (i3 == 2 && i0 == 1)
  {
  }

  /** The sweep of four tuples. */
  lemma SweepFour(q: seq<Variant>)
    requires |q| == 4
    ensures |Sweep(q)| == (if Kept(q[0]) then 1 else 0) + (if Kept(q[1]) then 1 else 0)
      + (if Kept(q[2]) then 1 else 0) + (if Kept(q[3]) then 1 else 0)
  {
    SweepStep(q, 0);
    SweepStep(q, 1);
    SweepStep(q, 2);
    SweepStep(q, 3);
    assert q[..0] == [] && q[..4] == q;
  }

  /** The four tuples that share everything but stride and padding, in
      product order. */
  function Quad(g0: nat, g1: nat, g2: nat, g3: nat): (q: seq<Variant>)
    requires g0 < 2 && g1 < 3 && g2 < 2 && g3 < 3
    ensures |q| == 4
  {
    [VariantAt([g0, g1, g2, g3, 0, 0]), VariantAt([g0, g1, g2, g3, 0, 1]),
     VariantAt([g0, g1, g2, g3, 1, 0]), VariantAt([g0, g1, g2, g3, 1, 1])]
  }

  lemma SliceFour(ps: seq<Variant>, m: nat, q: seq<Variant>)
    requires m + 4 <= |ps| && |q| == 4
    requires ps[m] == q[0] && ps[m + 1] == q[1] && ps[m + 2] == q[2] && ps[m + 3] == q[3]
    ensures ps[m..m + 4] == q
  {
  }

  /** They sit at indices 4m to 4m + 3 of the product. */
  lemma ProductQuad(g0: nat, g1: nat, g2: nat, g3: nat)
    requires g0 < 2 && g1 < 3 && g2 < 2 && g3 < 3
    ensures var m := 18 * g0 + 6 * g1 + 3 * g2 + g3;
      4 * m + 4 <= VARIANTS && Product()[4 * m..4 * m + 4] == Quad(g0, g1, g2, g3)
  {
    var m := 18 * g0 + 6 * g1 + 3 * g2 + g3;
    var ps, q := Product(), Quad(g0, g1, g2, g3);
    ProductAtPositions([g0, g1, g2, g3, 0, 0], 4 * m);
    ProductAtPositions([g0, g1, g2, g3, 0, 1], 4 * m + 1);
    ProductAtPositions([g0, g1, g2, g3, 1, 0], 4 * m + 2);
    ProductAtPositions([g0, g1, g2, g3, 1, 1], 4 * m + 3);
    SliceFour(ps, 4 * m, q);
  }

  /** How many of them pass.  A kernel of 3 passes only without padding, a
      kernel of 5 always, a kernel of 11 only on the larger input. */
  lemma QuadCount(g0: nat, g1: nat, g2: nat, g3: nat)
    requires g0 < 2 && g1 < 3 && g2 < 2 && g3 < 3
    ensures |Sweep(Quad(g0, g1, g2, g3))|
      == if g3 == 0 then 2 else if g3 == 1 then 4 else if g0 == 1 then 4 else 0
  {
    var q := Quad(g0, g1, g2, g3);
    KeptEntries(g0, g1, g2, g3, 0, 0);
    KeptEntries(g0, g1, g2, g3, 0, 1);
    KeptEntries(g0, g1, g2, g3, 1, 0);
    KeptEntries(g0, g1, g2, g3, 1, 1);
    SweepFour(q);
  }

  /** Sweeping a prefix in two parts. */
  lemma SweepSplit(ps: seq<Variant>, m: nat, n: nat)
    requires m <= n <= |ps|
    ensures Sweep(ps[..n]) == Sweep(ps[..m]) + Sweep(ps[m..n])
  {
    assert ps[..n] == ps[..m] + ps[m..n];
    SweepAppend(ps[..m], ps[m..n]);
  }

  /** Twelve consecutive tuples share the input size and the channels:
      six of them pass on the smaller input and ten on the larger. */
  lemma DozenCount(g0: nat, g1: nat, g2: nat)
    requires g0 < 2 && g1 < 3 && g2 < 2
    ensures var t := 6 * g0 + 2 * g1 + g2;
      12 * t + 12 <= VARIANTS
      && |Sweep(Product()[12 * t..12 * t + 12])| == if g0 == 1 then 10 else 6
  {
    var a, b, c := Quad(g0, g1, g2, 0), Quad(g0, g1, g2, 1), Quad(g0, g1, g2, 2);
    QuadCount(g0, g1, g2, 0);
    QuadCount(g0, g1, g2, 1);
    QuadCount(g0, g1, g2, 2);
    SweepAppend(a, b);
    SweepAppend(a + b, c);
    ProductDozen(g0, g1, g2);
  }

  /** The twelve tuples are the three groups of four in turn. */
  lemma ProductDozen(g0: nat, g1: nat, g2: nat)
    requires g0 < 2 && g1 < 3 && g2 < 2
    ensures var t := 6 * g0 + 2 * g1 + g2;
      12 * t + 12 <= VARIANTS
      && Product()[12 * t..12 * t + 12] == Quad(g0, g1, g2, 0) + Quad(g0, g1, g2, 1) + Quad(g0, g1, g2, 2)
  {
    var ps := Product();
    var m := 12 * (6 * g0 + 2 * g1 + g2);
    ProductQuad(g0, g1, g2, 0);
    ProductQuad(g0, g1, g2, 1);
    ProductQuad(g0, g1, g2, 2);
    SliceThree(ps, m);
  }

  lemma SliceThree(ps: seq<Variant>, m: nat)
    requires m + 12 <= |ps|
    ensures ps[m..m + 12] == ps[m..m + 4] + ps[m + 4..m + 8] + ps[m + 8..m + 12]
  {
  }

  /** The `u`th group of twelve tuples of `ps`. */
  function Dozen(ps: seq<Variant>, u: nat): seq<Variant>
    requires 12 * u + 12 <= |ps|
  {
    ps[12 * u..12 * u + 12]
  }

  /** The same count, for the `u`th group of twelve. */
  lemma DozenCountAt(u: nat)
    requires u < 12
    ensures |Sweep(Dozen(Product(), u))| == if u >= 6 then 10 else 6
  {
    var g0, g1, g2 := u / 6, u % 6 / 2, u % 2;
    assert u == 6 * g0 + 2 * g1 + g2;
    DozenCount(g0, g1, g2);
  }

  /** Twelve groups of twelve, the first six passing six tuples each and
      the others ten. */
  ghost predicate DozenCounts(ps: seq<Variant>)
  {
    |ps| == VARIANTS && forall u :: 0 <= u < 12 ==> |Sweep(Dozen(ps, u))| == if u >= 6 then 10 else 6
  }

  lemma {:induction false} PrefixCount(ps: seq<Variant>, t: nat)
    requires DozenCounts(ps) && t <= 12
    ensures |Sweep(ps[..12 * t])| == if t <= 6 then 6 * t else 36 + 10 * (t - 6)
  {
    if t > 0 {
      PrefixCount(ps, t - 1);
      SweepSplit(ps, 12 * (t - 1), 12 * t);
      assert |Sweep(Dozen(ps, t - 1))| == if t - 1 >= 6 then 10 else 6;
    } else {
      assert ps[..0] == [];
    }
  }

  /** Of the 144 tuples of the product, 96 become files: the number of
      models the convolution test suite declares. */
  lemma SweptCount()
    ensures VARIANTS == |INP_SIZES| * |INP_CHANNELS| * |OUT_CHANNELS| * |KERNEL_SIZES| * |STRIDES| * |PADDINGS|
    ensures |Sweep(Product())| == 96
  {
    forall u | 0 <= u < 12
      ensures |Sweep(Dozen(Product(), u))| == if u >= 6 then 10 else 6
    {
      DozenCountAt(u);
    }
    PrefixCount(Product(), 12);
    assert Product()[..12 * 12] == Product();
  }

  /** No two sweep files share a path. */
  lemma SweptPathsDistinct(dir: Path)
    ensures forall i, j :: 0 <= i < j < |Sweep(Product())| ==>
      ConvPath(dir, Sweep(Product())[i]) != ConvPath(dir, Sweep(Product())[j])
  {
    var ps := Product();
    var vs := Sweep(ps);
    forall k1, k2 | 0 <= k1 < k2 < |ps|
      ensures ps[k1] != ps[k2]
    {
      if ps[k1] == ps[k2] {
        ProductInjective(k1, k2);
      }
    }
    forall i, j | 0 <= i < j < |vs|
      ensures ConvPath(dir, vs[i]) != ConvPath(dir, vs[j])
    {
      SweepDistinct(ps, i, j);
      if ConvPath(dir, vs[i]) == ConvPath(dir, vs[j]) {
        assert ConvPath(dir, vs[i])[|dir| + 1] == ConvPath(dir, vs[j])[|dir| + 1];
        ConvNameInjective(vs[i], vs[j]);
      }
    }
  }

  // The two composite networks.

  /** A `Conv2d(in, out, k, padding=p)` layer with stride 1. */
  datatype Conv = Conv(inCh: nat, outCh: nat, k: nat, pad: nat)

  /** A tensor's channels, height and width. */
  datatype Shape3 = Shape3(c: nat, h: nat, w: nat)

  /** A convolution's output side, n - k + 2p + 1 at stride 1; `None` when
      the kernel does not fit. */
  function ConvSide(n: nat, l: Conv): (r: Option<nat>)
    ensures r.Some? <==> n + 2 * l.pad >= l.k
    ensures r.Some? ==> r.value + l.k == n + 2 * l.pad + 1
  {
    if n + 2 * l.pad >= l.k then Some(n + 2 * l.pad + 1 - l.k) else None
  }

  /** The output shape of a layer on an input of shape `s`. */
  function ConvShape(s: Shape3, l: Conv): (r: Option<Shape3>)
    ensures r.Some? <==> s.c == l.inCh && ConvSide(s.h, l).Some? && ConvSide(s.w, l).Some?
    ensures r.Some? ==> r.value == Shape3(l.outCh, ConvSide(s.h, l).value, ConvSide(s.w, l).value)
  {
    match (ConvSide(s.h, l), ConvSide(s.w, l)) {
      case (Some(h), Some(w)) => if s.c == l.inCh then Some(Shape3(l.outCh, h, w)) else None
      case _ => None
    }
  }

  /** Where a step of a network takes a tensor from: the network's input
      or an earlier step. */
  datatype Source = FromInput | FromStep(i: nat)

  /** A step of `forward`: a convolution, or the sum of two tensors of the
      same shape. */
  datatype Step = ConvStep(layer: Conv, src: Source) | AddStep(a: Source, b: Source)

  function Fetch(input: Shape3, done: seq<Shape3>, s: Source): Option<Shape3>
  {
    match s {
      case FromInput => Some(input)
      case FromStep(i) => if i < |done| then Some(done[i]) else None
    }
  }

  /** The output shapes of the steps of a network on an input of shape
      `input`, in order; `None` when a step's operands do not fit it. */
  function Forward(steps: seq<Step>, input: Shape3): (r: Option<seq<Shape3>>)
    ensures r.Some? ==> |r.value| == |steps|
    decreases |steps|
  {
    if |steps| == 0 then Some([])
    else
      match Forward(steps[..|steps| - 1], input) {
        case None => None
        case Some(done) =>
          match steps[|steps| - 1] {
            case ConvStep(l, src) =>
              match Fetch(input, done, src) {
                case None => None
                case Some(x) =>
                  match ConvShape(x, l) {
                    case None => None
                    case Some(y) => Some(done + [y])
                  }
              }
            case AddStep(a, b) =>
              match (Fetch(input, done, a), Fetch(input, done, b)) {
                case (Some(x), Some(y)) => if x == y then Some(done + [x]) else None
                case _ => None
              }
          }
      }
  }

  /** `simple_conv2d_add_network`: the second convolution reads the first
      one's output; both are padded. */
  const NETWORK_V1: seq<Step> := [
    ConvStep(Conv(1, 3, 3, 1), FromInput),
    ConvStep(Conv(3, 3, 3, 1), FromStep(0)),
    AddStep(FromStep(0), FromStep(1)),
    ConvStep(Conv(3, 5, 3, 0), FromStep(2)),
    ConvStep(Conv(5, 1, 3, 0), FromStep(3))]

  /** `simple_conv2d_add_network_v2`: both first convolutions read the
      network's input; none is padded. */
  const NETWORK_V2: seq<Step> := [
    ConvStep(Conv(1, 3, 3, 0), FromInput),
    ConvStep(Conv(1, 3, 3, 0), FromInput),
    AddStep(FromStep(0), FromStep(1)),
    ConvStep(Conv(3, 5, 3, 0), FromStep(2)),
    ConvStep(Conv(5, 1, 3, 0), FromStep(3))]

  /** On its 1 x 5 x 5 sample the first network's layers produce the
      shapes its comments give, 3x5x5, 3x5x5, 5x3x3 and 1x1x1. */
  lemma NetworkV1Shapes()
    ensures var r := Forward(NETWORK_V1, Shape3(1, 5, 5));
      r.Some? && r.value == [Shape3(3, 5, 5), Shape3(3, 5, 5), Shape3(3, 5, 5), Shape3(5, 3, 3), Shape3(1, 1, 1)]
  {
    var l, x := NETWORK_V1, Shape3(1, 5, 5);
    assert l[..0] == [] && l[..1][..0] == [];
    assert l[..2][..1] == l[..1];
    assert l[..3][..2] == l[..2];
    assert l[..4][..3] == l[..3];
    assert l[..4] == l[..|l| - 1];
    assert var r := Forward(l[..1], x); r.Some? && r.value == [Shape3(3, 5, 5)];
    assert var r := Forward(l[..2], x); r.Some? && r.value == [Shape3(3, 5, 5), Shape3(3, 5, 5)];
    assert var r := Forward(l[..3], x); r.Some? && r.value == [Shape3(3, 5, 5), Shape3(3, 5, 5), Shape3(3, 5, 5)];
    assert var r := Forward(l[..4], x); r.Some? && r.value == [Shape3(3, 5, 5), Shape3(3, 5, 5), Shape3(3, 5, 5), Shape3(5, 3, 3)];
  }

  /** The second network on its 1 x 7 x 7 sample ends in the same shapes
      as the first. */
  lemma NetworkV2Shapes()
    ensures var r := Forward(NETWORK_V2, Shape3(1, 7, 7));
      r.Some? && r.value == [Shape3(3, 5, 5), Shape3(3, 5, 5), Shape3(3, 5, 5), Shape3(5, 3, 3), Shape3(1, 1, 1)]
  {
    var l, x := NETWORK_V2, Shape3(1, 7, 7);
    assert l[..0] == [] && l[..1][..0] == [];
    assert l[..2][..1] == l[..1];
    assert l[..3][..2] == l[..2];
    assert l[..4][..3] == l[..3];
    assert l[..4] == l[..|l| - 1];
    assert var r := Forward(l[..1], x); r.Some? && r.value == [Shape3(3, 5, 5)];
    assert var r := Forward(l[..2], x); r.Some? && r.value == [Shape3(3, 5, 5), Shape3(3, 5, 5)];
    assert var r := Forward(l[..3], x); r.Some? && r.value == [Shape3(3, 5, 5), Shape3(3, 5, 5), Shape3(3, 5, 5)];
    assert var r := Forward(l[..4], x); r.Some? && r.value == [Shape3(3, 5, 5), Shape3(3, 5, 5), Shape3(3, 5, 5), Shape3(5, 3, 3)];
  }

  /** On the 1 x 5 x 5 input its comment names, the second network's last
      convolution no longer fits: without padding the sides shrink to 1
      before it. */
  lemma NetworkV2SmallInput()
    ensures Forward(NETWORK_V2, Shape3(1, 5, 5)).None?
  {
    var l, y := NETWORK_V2, Shape3(1, 5, 5);
    assert l[..0] == [] && l[..1][..0] == [];
    assert l[..2][..1] == l[..1];
    assert l[..3][..2] == l[..2];
    assert l[..4][..3] == l[..3];
    assert l[..4] == l[..|l| - 1];
    assert var r := Forward(l[..1], y); r.Some? && r.value == [Shape3(3, 3, 3)];
    assert var r := Forward(l[..2], y); r.Some? && r.value == [Shape3(3, 3, 3), Shape3(3, 3, 3)];
    assert var r := Forward(l[..3], y); r.Some? && r.value == [Shape3(3, 3, 3), Shape3(3, 3, 3), Shape3(3, 3, 3)];
    assert var r := Forward(l[..4], y); r.Some? && r.value == [Shape3(3, 3, 3), Shape3(3, 3, 3), Shape3(3, 3, 3), Shape3(5, 1, 1)];
  }
}
