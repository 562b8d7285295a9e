/** The operation objects of the VTA delegate, apu-app/src/vta-delegate-ops.cpp:
    an ALU operation and a GEMM operation, each named after the TensorFlow
    Lite builtin it stands for, and the status each reports when asked
    for its compute steps. */
module VtaOps {

  /** `kTfLiteBuiltinAdd` and `kTfLiteBuiltinConv2d` of TensorFlow Lite's
      `builtin_ops.h`. */
  const BUILTIN_ADD: int := 0
  const BUILTIN_CONV2D: int := 3

  /** The values of `TfLiteStatus` this model distinguishes. */
  datatype Status = Ok | Error | DelegateError | UnresolvedOps

  /** Which subclass of `VTAOp` an operation is. */
  datatype Kind = Alu | Gemm

  /** A `VTAOp`: its kind, its name, the builtin code it was built for and
      the indices of its input and output tensors. */
  datatype Op = Op(kind: Kind, name: string, code: int, inputs: seq<int>, outputs: seq<int>)

  /** The name the `VTAALUOp` constructor gives. */
  function AluName(code: int): (n: string)
    ensures n == "ADD" <==> code == BUILTIN_ADD
    ensures code != BUILTIN_ADD ==> n == "unknown"
  {
    if code == BUILTIN_ADD then "ADD" else "unknown"
  }

  /** The name the `VTAGEMMOp` constructor gives. */
  function GemmName(code: int): (n: string)
    ensures n == "CONV2D" <==> code == BUILTIN_CONV2D
    ensures code != BUILTIN_CONV2D ==> n == "unknown"
  {
    if code == BUILTIN_CONV2D then "CONV2D" else "unknown"
  }

  /** The `VTAALUOp` and `VTAGEMMOp` constructors: the base class keeps the
      code and copies the index lists, the subclass sets the name. */
  function NewOp(kind: Kind, code: int, inputs: seq<int>, outputs: seq<int>): (op: Op)
    ensures op.kind == kind && op.code == code && op.inputs == inputs && op.outputs == outputs
    ensures op.name == (if kind == Alu then AluName(code) else GemmName(code))
  {
    match kind {
      case Alu => Op(Alu, AluName(code), code, inputs, outputs)
      case Gemm => Op(Gemm, GemmName(code), code, inputs, outputs)
    }
  }

  /** `getAddOps` and `getConv2dOps`: both succeed. */
  function AddOps(): (s: Status)
    ensures s == Ok
  {
    Ok
  }

  function Conv2dOps(): (s: Status)
    ensures s == Ok
  {
    Ok
  }

  /** `getComputeOps` of either subclass: an ALU operation resolves only an
      addition; a GEMM operation falls through to success for every code. */
  function ComputeOps(op: Op): (s: Status)
    ensures op.kind == Alu ==> (s == Ok <==> op.code == BUILTIN_ADD)
    ensures op.kind == Alu && op.code != BUILTIN_ADD ==> s == UnresolvedOps
    ensures op.kind == Gemm ==> s == Ok
  {
    match op.kind {
      case Alu => if op.code == BUILTIN_ADD then AddOps() else UnresolvedOps
      case Gemm => if op.code == BUILTIN_CONV2D then Conv2dOps() else Ok
    }
  }

  /** An operation's compute steps resolve exactly when its name is not
      "unknown", for ALU operations; GEMM operations resolve even when the
      name is "unknown". */
  lemma ResolvedIffNamed(op: Op)
    requires op == NewOp(op.kind, op.code, op.inputs, op.outputs)
    ensures op.kind == Alu ==> (ComputeOps(op) == Ok <==> op.name != "unknown")
    ensures op.kind == Gemm && op.name == "unknown" ==> ComputeOps(op) == Ok
  {
    if op.kind == Alu && op.code != BUILTIN_ADD {
      assert op.name == "unknown";
    }
  }
}
