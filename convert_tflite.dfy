/** apu-app/scripts/convert-to-tflite.py: which inputs of an ONNX graph
    are given calibration data and of what shape, the calibration set
    handed to the TensorFlow Lite converter, where each converted model is
    written, and what `main` does for a missing input, a file, a directory
    and anything else.  The converters themselves (onnx-tf, TensorFlow
    Lite), the random sample values, the clock in the temporary directory
    name and the file system are left out; what the file system holds is
    an input. */
module ConvertTflite {
  import opened Bits

  // The input map of `onnxconversion`.

  /** One dimension of an input's declared shape: `dim_value` when the
      field is present. */
  datatype Dim = Dim(hasValue: bool, value: int)

  /** A `graph.input` entry: its name and declared dimensions. */
  datatype GraphInput = GraphInput(name: string, dims: seq<Dim>)

  /** The parts of an ONNX graph the conversion reads: the names of its
      initializers and its inputs, in order. */
  datatype Graph = Graph(initializers: seq<string>, inputs: seq<GraphInput>)

  /** The outcome of reading the inputs: the input map, or
      `NotImplementedError` for a dimension without a value. */
  datatype Extraction = Extracted(inputs: map<string, seq<int>>) | Unsupported

  /** `initializernames`. */
  function InitializerNames(g: Graph): (s: set<string>)
    ensures forall n :: n in s <==> n in g.initializers
  {
    set i | 0 <= i < |g.initializers| :: g.initializers[i]
  }

  /** The values of `dims`, in order; `None` as soon as one has none. */
  function DimValues(dims: seq<Dim>): (r: Option<seq<int>>)
    ensures r.Some? <==> forall j :: 0 <= j < |dims| ==> dims[j].hasValue
    ensures r.Some? ==> |r.value| == |dims| && forall j :: 0 <= j < |dims| ==> r.value[j] == dims[j].value
  {
    if |dims| == 0 then Some([])
    else
      match DimValues(dims[..|dims| - 1]) {
        case None => None
        case Some(vs) => if dims[|dims| - 1].hasValue then Some(vs + [dims[|dims| - 1].value]) else None
      }
  }

  /** The input map built from the inputs `ins`, initializers skipped, a
      later input of the same name replacing an earlier one. */
  function ExtractFrom(inits: set<string>, ins: seq<GraphInput>): Extraction
  {
    if |ins| == 0 then Extracted(map[])
    else
      match ExtractFrom(inits, ins[..|ins| - 1]) {
        case Unsupported => Unsupported
        case Extracted(m) =>
          var x := ins[|ins| - 1];
          if x.name in inits then Extracted(m)
          else
            match DimValues(x.dims) {
              case None => Unsupported
              case Some(vs) => Extracted(m[x.name := vs])
            }
      }
  }

  /** Every input that is not an initializer has a value in each of its
      dimensions. */
  predicate AllDimsKnown(inits: set<string>, ins: seq<GraphInput>)
  {
    forall i, j :: 0 <= i < |ins| && ins[i].name !in inits && 0 <= j < |ins[i].dims| ==> ins[i].dims[j].hasValue
  }

  /** The map is built exactly when no inspected dimension lacks a value:
      the error is raised for any such dimension and for no other reason. */
  lemma {:induction false} ExtractOkIff(inits: set<string>, ins: seq<GraphInput>)
    ensures ExtractFrom(inits, ins).Extracted? <==> AllDimsKnown(inits, ins)
  {
    if |ins| > 0 {
      var p := ins[..|ins| - 1];
      ExtractOkIff(inits, p);
      assert forall i :: 0 <= i < |p| ==> p[i] == ins[i];
    }
  }

  /** Some input in `ins` is named `n`. */
  predicate NamedIn(ins: seq<GraphInput>, n: string)
  {
    exists i :: 0 <= i < |ins| && ins[i].name == n
  }

  /** The inputs named `n` are those of the prefix and the last one. */
  lemma NamedInSplit(ins: seq<GraphInput>, n: string)
    requires |ins| > 0
    ensures NamedIn(ins, n) <==> NamedIn(ins[..|ins| - 1], n) || ins[|ins| - 1].name == n
  {
    var p := ins[..|ins| - 1];
    if NamedIn(ins, n) {
      var i :| 0 <= i < |ins| && ins[i].name == n;
      if i < |p| {
        assert p[i].name == n;
      }
    }
    if NamedIn(p, n) {
      var i :| 0 <= i < |p| && p[i].name == n;
      assert ins[i].name == n;
    }
  }

  /** The map's keys are the inputs' names less the initializers'. */
  lemma {:induction false} ExtractKeys(inits: set<string>, ins: seq<GraphInput>)
    requires ExtractFrom(inits, ins).Extracted?
    ensures forall n :: n in ExtractFrom(inits, ins).inputs <==> n !in inits && NamedIn(ins, n)
  {
    if |ins| > 0 {
      ExtractKeys(inits, ins[..|ins| - 1]);
      forall n
        ensures n in ExtractFrom(inits, ins).inputs <==> n !in inits && NamedIn(ins, n)
      {
        NamedInSplit(ins, n);
      }
    }
  }

  /** The shape kept for a name is the list of dimension values of the last
      input of that name, in declared order. */
  lemma {:induction false} ExtractValue(inits: set<string>, ins: seq<GraphInput>, i: nat)
    requires ExtractFrom(inits, ins).Extracted?
    requires i < |ins| && ins[i].name !in inits
    requires forall j :: i < j < |ins| ==> ins[j].name != ins[i].name
    ensures ins[i].name in ExtractFrom(inits, ins).inputs
    ensures DimValues(ins[i].dims).Some?
    ensures ExtractFrom(inits, ins).inputs[ins[i].name] == DimValues(ins[i].dims).value
  {
    var p := ins[..|ins| - 1];
    if i < |ins| - 1 {
      assert p[i] == ins[i];
      ExtractValue(inits, p, i);
    }
  }

  /** Initializers are never inspected: an initializer's dimensions do not
      change the outcome. */
  lemma {:induction false} ExtractIgnoresInitializers(inits: set<string>, a: seq<GraphInput>, b: seq<GraphInput>)
    requires |a| == |b|
    requires forall i :: 0 <= i < |a| ==> a[i].name == b[i].name
    requires forall i :: 0 <= i < |a| && a[i].name !in inits ==> a[i].dims == b[i].dims
    ensures ExtractFrom(inits, a) == ExtractFrom(inits, b)
  {
    if |a| > 0 {
      ExtractIgnoresInitializers(inits, a[..|a| - 1], b[..|b| - 1]);
    }
  }

  /** Once a prefix of the inputs raises, so do all of them. */
  lemma {:induction false} UnsupportedStays(inits: set<string>, ins: seq<GraphInput>, k: nat)
    requires k <= |ins| && ExtractFrom(inits, ins[..k]).Unsupported?
    ensures ExtractFrom(inits, ins).Unsupported?
  {
    if k < |ins| {
      var p := ins[..|ins| - 1];
      assert p[..k] == ins[..k];
      UnsupportedStays(inits, p, k);
    } else {
      assert ins[..k] == ins;
    }
  }

  /** The input loop of `onnxconversion`. */
  method ExtractInputs(g: Graph) returns (r: Extraction)
    ensures r == ExtractFrom(InitializerNames(g), g.inputs)
  {
    var inits := InitializerNames(g);
    var inputs: map<string, seq<int>> := map[];
    for i := 0 to |g.inputs|
      invariant ExtractFrom(inits, g.inputs[..i]) == Extracted(inputs)
    {
      var x := g.inputs[i];
      assert g.inputs[..i + 1][..i] == g.inputs[..i];
      if x.name in inits {
        continue;
      }
      var dimensions: seq<int> := [];
      for j := 0 to |x.dims|
        invariant DimValues(x.dims[..j]) == Some(dimensions)
      {
        var d := x.dims[j];
        assert x.dims[..j + 1][..j] == x.dims[..j];
        if d.hasValue {
          dimensions := dimensions + [d.value];
        } else {
          UnsupportedStays(inits, g.inputs, i + 1);
          return Unsupported;
        }
      }
      assert x.dims[..|x.dims|] == x.dims;
      inputs := inputs[x.name := dimensions];
    }
    assert g.inputs[..|g.inputs|] == g.inputs;
    return Extracted(inputs);
  }

  // The calibration data of `save_to_tflite`.

  /** A sample array: its shape; the normally distributed values are not
      modelled. */
  datatype Tensor = Tensor(shape: seq<int>)

  /** The number of samples the generator yields. */
  const CALIBRATION_SAMPLES: nat := 100

  /** One sample: an array of the input's shape for every input. */
  method CalibrationSample(inputs: map<string, seq<int>>) returns (sample: map<string, Tensor>)
    ensures sample.Keys == inputs.Keys
    ensures forall n :: n in sample ==> sample[n].shape == inputs[n]
  {
    sample := map[];
    var remaining := inputs.Keys;
    while remaining != {}
      invariant remaining <= inputs.Keys
      invariant sample.Keys == inputs.Keys - remaining
      invariant forall n :: n in sample ==> sample[n].shape == inputs[n]
      decreases |remaining|
    {
      var n :| n in remaining;
      sample := sample[n := Tensor(inputs[n])];
      remaining := remaining - {n};
    }
  }

  /** `calibration_dataset_generator`, its samples in the order it yields
      them. */
  method CalibrationDataset(inputs: map<string, seq<int>>) returns (samples: seq<map<string, Tensor>>)
    ensures |samples| == CALIBRATION_SAMPLES
    ensures forall i :: 0 <= i < |samples| ==>
      samples[i].Keys == inputs.Keys && forall n :: n in samples[i] ==> samples[i][n].shape == inputs[n]
  {
    samples := [];
    for i := 0 to CALIBRATION_SAMPLES
      invariant |samples| == i
      invariant forall k :: 0 <= k < i ==>
        samples[k].Keys == inputs.Keys && forall n :: n in samples[k] ==> samples[k][n].shape == inputs[n]
    {
      var s := CalibrationSample(inputs);
      samples := samples + [s];
    }
  }

  // Output paths.

  /** A path: its components. */
  type Path = seq<string>

  /** `s` ends with `t`. */
  predicate EndsWith(s: string, t: string)
  {
    |t| <= |s| && s[|s| - |t|..] == t
  }

  /** The index of the last '.' of `name`, as `str.rfind` finds it; -1 when
      there is none. */
  function LastDot(name: string): (i: int)
    ensures -1 <= i < |name|
    ensures i >= 0 ==> name[i] == '.' && forall j :: i < j < |name| ==> name[j] != '.'
    ensures i == -1 ==> forall j :: 0 <= j < |name| ==> name[j] != '.'
  {
    if |name| == 0 then -1
    else if name[|name| - 1] == '.' then |name| - 1
    else LastDot(name[..|name| - 1])
  }

  /** `PurePath.suffix` of a final component: from its last dot, unless
      that dot leads the name or ends it. */
  function Suffix(name: string): (s: string)
    ensures s == "" || (EndsWith(name, s) && |s| < |name| && s[0] == '.')
  {
    var i := LastDot(name);
    if 0 < i < |name| - 1 then name[i..] else ""
  }

  /** `PurePath.with_suffix` on a final component: the suffix replaced, or
      `suffix` appended when there is none. */
  function WithSuffix(name: string, suffix: string): string
  {
    var current := Suffix(name);
    if current == "" then name + suffix else name[..|name| - |current|] + suffix
  }

  /** A name `rglob('*.onnx')` matches. */
  predicate OnnxName(name: string)
  {
    EndsWith(name, ".onnx")
  }

  /** A name longer than `.onnx` has its `.onnx` replaced by `.tflite`. */
  lemma OnnxSuffixReplaced(name: string)
    requires OnnxName(name) && |name| > 5
    ensures WithSuffix(name, ".tflite") == Stem(name) + ".tflite"
  {
    var i := |name| - 5;
    assert name[i..] == ".onnx";
    assert name[i] == '.';
    forall j | i < j < |name|
      ensures name[j] != '.'
    {
      assert name[j] == ".onnx"[j - i];
    }
    var k := LastDot(name);
    assert k == i;
  }

  /** `relpath` and `outpath` of the directory loop: the path below the
      input directory, its last name given the suffix `.tflite`, below the
      output directory. */
  function OutputPath(output: Path, rel: Path): (p: Path)
    requires |rel| > 0
    ensures |p| == |output| + |rel| && p[..|output|] == output
    ensures p[|output|..|p| - 1] == rel[..|rel| - 1]
  {
    output + rel[..|rel| - 1] + [WithSuffix(rel[|rel| - 1], ".tflite")]
  }

  /** A file found below the input directory whose name is more than
      `.onnx`: its output name is its name with `.onnx` replaced. */
  predicate Convertible(rel: Path)
  {
    |rel| > 0 && OnnxName(rel[|rel| - 1]) && |rel[|rel| - 1]| > 5
  }

  /** The stem of a convertible name: all but its `.onnx`. */
  function Stem(name: string): string
    requires |name| >= 5
  {
    name[..|name| - 5]
  }

  /** Two `.onnx` names whose stems give the same name with `.tflite`
      are the same. */
  lemma StemsEqual(x: string, y: string)
    requires OnnxName(x) && |x| > 5 && OnnxName(y) && |y| > 5
    requires Stem(x) + ".tflite" == Stem(y) + ".tflite"
    ensures x == y
  {
    var sx, sy := Stem(x), Stem(y);
    assert |sx| == |sy|;
    assert sx == (sx + ".tflite")[..|sx|];
    assert sy == (sy + ".tflite")[..|sy|];
    assert x == sx + x[|x| - 5..];
    assert y == sy + y[|y| - 5..];
  }

  /** Different convertible names get different output names. */
  lemma OutputNameInjective(x: string, y: string)
    requires OnnxName(x) && |x| > 5 && OnnxName(y) && |y| > 5
    requires WithSuffix(x, ".tflite") == WithSuffix(y, ".tflite")
    ensures x == y
  {
    OnnxSuffixReplaced(x);
    OnnxSuffixReplaced(y);
    StemsEqual(x, y);
  }

  /** Equal output paths come from paths of the same length, the same
      directories and last components with the same output name. */
  lemma OutputPathParts(output: Path, a: Path, b: Path)
    requires |a| > 0 && |b| > 0
    requires OutputPath(output, a) == OutputPath(output, b)
    ensures |a| == |b| && a[..|a| - 1] == b[..|b| - 1]
    ensures WithSuffix(a[|a| - 1], ".tflite") == WithSuffix(b[|b| - 1], ".tflite")
  {
    var p := OutputPath(output, a);
    assert p[|p| - 1] == WithSuffix(a[|a| - 1], ".tflite");
  }

  /** Sequences that agree on all but their last element and on that one
      are equal. */
  lemma SameFrontAndLast<T>(a: seq<T>, b: seq<T>)
    requires |a| == |b| > 0 && a[..|a| - 1] == b[..|b| - 1] && a[|a| - 1] == b[|b| - 1]
    ensures a == b
  {
    forall i | 0 <= i < |a|
      ensures a[i] == b[i]
    {
      if i < |a| - 1 {
        assert a[i] == a[..|a| - 1][i] && b[i] == b[..|b| - 1][i];
      }
    }
  }

  /** Different such files are written to different outputs. */
  lemma OutputPathInjective(output: Path, a: Path, b: Path)
    requires Convertible(a) && Convertible(b)
    requires OutputPath(output, a) == OutputPath(output, b)
    ensures a == b
  {
    OutputPathParts(output, a, b);
    OutputNameInjective(a[|a| - 1], b[|b| - 1]);
    SameFrontAndLast(a, b);
  }

  /** A file named just `.onnx` has no suffix in pathlib's sense, so its
      output is `.onnx.tflite`: the same as for a file `.onnx.onnx` beside
      it. */
  lemma DotOnnxCollides(output: Path)
    ensures OutputPath(output, [".onnx"]) == OutputPath(output, [".onnx.onnx"])
  {
    var n := ".onnx";
    assert n[0] == '.';
    assert forall j :: 0 < j < |n| ==> n[j] != '.';
    assert LastDot(n) == 0;
    OnnxSuffixReplaced(".onnx.onnx");
    assert ".onnx.onnx"[..5] == n;
  }

  // `main`.

  /** What `rglob('*.onnx')` yields below a directory: a path relative to
      it, and the graph the file holds. */
  datatype Found = Found(rel: Path, graph: Graph)

  /** What the input argument names. */
  datatype InputKind = Missing | IsFile(graph: Graph) | IsDir(found: seq<Found>) | Other

  /** One model written: read from `src`, written to `dst`, calibrated on
      samples of the shapes in `inputs`. */
  datatype Conversion = Conversion(src: Path, dst: Path, inputs: map<string, seq<int>>)

  /** How `main` ends: with a return value, without one, or by the
      `NotImplementedError` of a conversion. */
  datatype Exit = Returned(code: int) | ReturnedNone | Raised

  datatype Outcome = Outcome(exit: Exit, written: seq<Conversion>)

  /** The process's exit status: the return value of `main` is dropped, so
      only an uncaught exception makes it non-zero. */
  function ProcessStatus(e: Exit): (s: int)
    ensures s == 0 <==> !e.Raised?
  {
    if e.Raised? then 1 else 0
  }

  predicate Extracts(g: Graph)
  {
    ExtractFrom(InitializerNames(g), g.inputs).Extracted?
  }

  /** The index of the first file whose conversion raises; the number of
      files when none does. */
  function FirstRaising(found: seq<Found>): (k: nat)
    ensures k <= |found|
    ensures forall i :: 0 <= i < k ==> Extracts(found[i].graph)
    ensures k < |found| ==> !Extracts(found[k].graph)
  {
    if |found| == 0 then 0
    else if !Extracts(found[0].graph) then 0
    else 1 + FirstRaising(found[1..])
  }

  /** The model written for a file found below `input`. */
  function ConversionOf(input: Path, output: Path, f: Found): Conversion
    requires |f.rel| > 0 && Extracts(f.graph)
  {
    Conversion(input + f.rel, OutputPath(output, f.rel), ExtractFrom(InitializerNames(f.graph), f.graph.inputs).inputs)
  }

  /** The models written by the directory loop: those found before the
      first one that raises, in the order they were found. */
  function DirWritten(input: Path, output: Path, found: seq<Found>): (w: seq<Conversion>)
    requires forall i :: 0 <= i < |found| ==> |found[i].rel| > 0
    ensures |w| == FirstRaising(found)
    ensures forall i :: 0 <= i < |w| ==> w[i] == ConversionOf(input, output, found[i])
  {
    seq(FirstRaising(found), i requires 0 <= i < FirstRaising(found) => ConversionOf(input, output, found[i]))
  }

  /** `save_to_tflite`: the inputs are read, then the model is converted
      with a calibration set of 100 samples and written. */
  method SaveToTflite(src: Path, dst: Path, g: Graph) returns (r: Option<Conversion>, samples: seq<map<string, Tensor>>)
    ensures r.Some? <==> Extracts(g)
    ensures r.Some? ==> r.value == Conversion(src, dst, ExtractFrom(InitializerNames(g), g.inputs).inputs)
    ensures r.Some? ==> |samples| == CALIBRATION_SAMPLES
    ensures r.Some? ==> forall i :: 0 <= i < |samples| ==> samples[i].Keys == r.value.inputs.Keys
  {
    var e := ExtractInputs(g);
    if e.Unsupported? {
      return None, [];
    }
    samples := CalibrationDataset(e.inputs);
    r := Some(Conversion(src, dst, e.inputs));
  }

  /** A prefix one longer is the prefix and the next element. */
  lemma PrefixStep<T>(s: seq<T>, i: nat)
    requires i < |s|
    ensures s[..i + 1] == s[..i] + [s[i]]
  {
  }

  /** The directory loop of `main`: every file found is converted, in
      order, below the output directory, until one raises. */
  method ConvertDirectory(input: Path, output: Path, found: seq<Found>) returns (raised: bool, written: seq<Conversion>)
    requires forall i :: 0 <= i < |found| ==> |found[i].rel| > 0
    ensures written == DirWritten(input, output, found)
    ensures raised <==> FirstRaising(found) < |found|
  {
    ghost var all := DirWritten(input, output, found);
    written := [];
    for i := 0 to |found|
      invariant i <= FirstRaising(found)
      invariant written == all[..i]
    {
      var f := found[i];
      var outpath := OutputPath(output, f.rel);
      var r, _ := SaveToTflite(input + f.rel, outpath, f.graph);
      if r.None? {
        assert i == FirstRaising(found);
        assert all[..i] == all;
        return true, written;
      }
      assert all[i] == r.value;
      PrefixStep(all, i);
      written := written + [r.value];
    }
    assert all[..|found|] == all;
    raised := false;
  }

  /** `main`.  A missing input returns -1 and converts nothing; a file is
      converted to the output path as given; a directory is converted file
      by file; anything else converts nothing.  Only `NotImplementedError`
      ends it otherwise than by returning. */
  method RunMain(input: Path, output: Path, kind: InputKind) returns (o: Outcome)
    requires kind.IsDir? ==> forall i :: 0 <= i < |kind.found| ==> |kind.found[i].rel| > 0
    ensures kind.Missing? ==> o == Outcome(Returned(-1), [])
    ensures kind.Other? ==> o == Outcome(ReturnedNone, [])
    ensures kind.IsFile? && Extracts(kind.graph) ==> o == Outcome(ReturnedNone,
      [Conversion(input, output, ExtractFrom(InitializerNames(kind.graph), kind.graph.inputs).inputs)])
    ensures kind.IsFile? && !Extracts(kind.graph) ==> o == Outcome(Raised, [])
    ensures kind.IsDir? ==> o.written == DirWritten(input, output, kind.found)
    ensures kind.IsDir? ==> o.exit == (if FirstRaising(kind.found) < |kind.found| then Raised else ReturnedNone)
  {
    match kind {
      case Missing =>
        return Outcome(Returned(-1), []);
      case IsFile(g) =>
        var r, _ := SaveToTflite(input, output, g);
        if r.None? {
          return Outcome(Raised, []);
        }
        return Outcome(ReturnedNone, [r.value]);
      case IsDir(found) =>
        var raised, written := ConvertDirectory(input, output, found);
        return Outcome(if raised then Raised else ReturnedNone, written);
      case Other =>
        return Outcome(ReturnedNone, []);
    }
  }

  /** A missing input is reported through a return value the script
      drops: the process still ends with status 0. */
  lemma MissingInputStatus()
    ensures ProcessStatus(Returned(-1)) == 0
  {
  }
}
