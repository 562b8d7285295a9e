/** The VTA delegate and its kernel, apu-app/src/vta-delegate.cpp: which
    TensorFlow Lite nodes the delegate claims, the list of operations the
    kernel builds from the nodes it was handed, and the evaluation that
    runs them in order.  The interpreter's node lookup and each
    operation's computation are inputs. */
module VtaDelegate {
  import opened VtaOps

  /** `kTfLiteInt32`, `kTfLiteUInt8` and `kTfLiteInt8` of TensorFlow Lite's
      `TfLiteType`. */
  const TYPE_INT32: int := 2
  const TYPE_UINT8: int := 3
  const TYPE_INT8: int := 9

  predicate SupportedType(t: int)
  {
    t == TYPE_INT8 || t == TYPE_UINT8 || t == TYPE_INT32
  }

  predicate SupportedCode(code: int)
  {
    code == BUILTIN_ADD || code == BUILTIN_CONV2D
  }

  /** The loop over the node's inputs: every type is an 8-bit or a 32-bit
      integer type. */
  function AllTypesSupported(types: seq<int>): (b: bool)
    ensures b <==> forall i :: 0 <= i < |types| ==> SupportedType(types[i])
  {
    if |types| == 0 then true
    else SupportedType(types[0]) && AllTypesSupported(types[1..])
  }

  /** `IsNodeSupportedByDelegate` for a node with builtin `code` whose input
      tensors have the types `inputTypes`, in order. */
  function IsNodeSupported(code: int, inputTypes: seq<int>): (b: bool)
    ensures b <==> SupportedCode(code) && forall i :: 0 <= i < |inputTypes| ==> SupportedType(inputTypes[i])
  {
    if !SupportedCode(code) then false else AllTypesSupported(inputTypes)
  }

  /** A node as `GetNodeAndRegistration` returns it: its builtin code and the
      indices of its input and output tensors. */
  datatype Node = Node(code: int, inputs: seq<int>, outputs: seq<int>)

  /** The outcome of looking a node up: found, or the lookup failed. */
  datatype Lookup = Found(node: Node) | LookupFailed

  /** A node `Init` turns into an operation. */
  predicate Buildable(l: Lookup)
  {
    l.Found? && SupportedCode(l.node.code)
  }

  /** The operation `Init` builds for a buildable node. */
  function OpFor(n: Node): (op: Op)
    requires SupportedCode(n.code)
  {
    NewOp(if n.code == BUILTIN_ADD then Alu else Gemm, n.code, n.inputs, n.outputs)
  }

  /** What `Init` appends for an operation of each of its two codes: an ALU
      operation named "ADD" for an addition, a GEMM operation named
      "CONV2D" for a convolution, each with the node's index lists and
      compute steps that resolve. */
  lemma OpForShape(n: Node)
    requires SupportedCode(n.code)
    ensures OpFor(n).inputs == n.inputs && OpFor(n).outputs == n.outputs && OpFor(n).code == n.code
    ensures n.code == BUILTIN_ADD ==> OpFor(n).kind == Alu && OpFor(n).name == "ADD"
    ensures n.code == BUILTIN_CONV2D ==> OpFor(n).kind == Gemm && OpFor(n).name == "CONV2D"
    ensures ComputeOps(OpFor(n)) == Ok
  {
  }

  /** The operations for a run of buildable nodes, one per node, in order. */
  function OpsFor(ls: seq<Lookup>): (ops: seq<Op>)
    requires forall i :: 0 <= i < |ls| ==> Buildable(ls[i])
    ensures |ops| == |ls|
    ensures forall i :: 0 <= i < |ls| ==> Buildable(ls[i]) && ops[i] == OpFor(ls[i].node)
  {
    seq(|ls|, i requires 0 <= i < |ls| && Buildable(ls[i]) => OpFor(ls[i].node))
  }

  /** The index of the first node `Init` does not get past: a failed lookup
      or an unsupported code; the number of nodes if there is none. */
  function FirstUnbuilt(ls: seq<Lookup>): (k: nat)
    ensures k <= |ls|
    ensures forall i :: 0 <= i < k ==> Buildable(ls[i])
    ensures k < |ls| ==> !Buildable(ls[k])
  {
    if |ls| == 0 then 0
    else if !Buildable(ls[0]) then 0
    else 1 + FirstUnbuilt(ls[1..])
  }

  /** The status `Init` returns when it stops at node `k`: success past the
      last node, an error for a failed lookup (`TF_LITE_ENSURE_EQ`) and
      unresolved operations for an unsupported code. */
  function InitStatus(ls: seq<Lookup>, k: nat): (s: Status)
    requires k <= |ls|
    ensures s == Ok <==> k == |ls|
    ensures k < |ls| && ls[k].LookupFailed? ==> s == Error
    ensures k < |ls| && ls[k].Found? ==> s == UnresolvedOps
  {
    if k == |ls| then Ok
    else if ls[k].LookupFailed? then Error
    else UnresolvedOps
  }

  /** The operations built for a whole sequence of buildable nodes resolve. */
  lemma {:induction false} BuiltOpsResolve(ls: seq<Lookup>)
    requires forall i :: 0 <= i < |ls| ==> Buildable(ls[i])
    ensures forall i :: 0 <= i < |OpsFor(ls)| ==> ComputeOps(OpsFor(ls)[i]) == Ok
  {
    forall i | 0 <= i < |OpsFor(ls)|
      ensures ComputeOps(OpsFor(ls)[i]) == Ok
    {
      OpForShape(ls[i].node);
    }
  }

  /** `VTADelegateKernel`: its list of operations and whether it holds a
      communication context; `contextsCreated` counts the contexts it has
      started. */
  class Kernel {
    var ops: seq<Op>
    var hasContext: bool
    var contextsCreated: nat

    /** A kernel as `CreateDelegateKernelInterface` makes it. */
    constructor ()
      ensures ops == [] && !hasContext && contextsCreated == 0
    {
      ops := [];
      hasContext := false;
      contextsCreated := 0;
    }

    /** `Init` on the lookups of the nodes to replace.  A context is
        started only when there is none; the operations for the nodes
        before the first one that cannot be built are appended, in node
        order, to those already there, and the status says where the loop
        stopped. */
    method Init(ls: seq<Lookup>) returns (status: Status)
      modifies this
      ensures hasContext
      ensures contextsCreated == old(contextsCreated) + (if old(hasContext) then 0 else 1)
      ensures ops == old(ops) + OpsFor(ls[..FirstUnbuilt(ls)])
      ensures status == InitStatus(ls, FirstUnbuilt(ls))
    {
      if !hasContext {
        hasContext := true;
        contextsCreated := contextsCreated + 1;
      }
      var i := 0;
      while i < |ls|
        invariant 0 <= i <= |ls|
        invariant hasContext
        invariant contextsCreated == old(contextsCreated) + (if old(hasContext) then 0 else 1)
        invariant forall j :: 0 <= j < i ==> Buildable(ls[j])
        invariant ops == old(ops) + OpsFor(ls[..i])
      {
        var l := ls[i];
        if l.LookupFailed? {
          status := Error;
          return;
        }
        var n := l.node;
        if n.code == BUILTIN_ADD {
          ops := ops + [NewOp(Alu, n.code, n.inputs, n.outputs)];
        } else if n.code == BUILTIN_CONV2D {
          ops := ops + [NewOp(Gemm, n.code, n.inputs, n.outputs)];
        } else {
          status := UnresolvedOps;
          return;
        }
        assert ls[..i + 1] == ls[..i] + [l];
        assert OpsFor(ls[..i + 1]) == OpsFor(ls[..i]) + [OpFor(n)];
        i := i + 1;
      }
      assert ls[..i] == ls;
      status := Ok;
    }

    /** `Eval`, with `results[i]` the status the computation of `ops[i]`
        returns.  The operations run in order up to and including the first
        that fails, whose status is returned; `ran` counts the operations
        run. */
    method Eval(results: seq<Status>) returns (status: Status, ran: nat)
      requires |results| == |ops|
      ensures ran <= |ops|
      ensures status == Ok <==> forall i :: 0 <= i < |ops| ==> results[i] == Ok
      ensures status == Ok ==> ran == |ops|
      ensures status != Ok ==> 0 < ran && results[ran - 1] == status
      ensures status != Ok ==> forall i :: 0 <= i < ran - 1 ==> results[i] == Ok
    {
      var i := 0;
      while i < |ops|
        invariant 0 <= i <= |ops|
        invariant forall j :: 0 <= j < i ==> results[j] == Ok
      {
        var ret := results[i];
        if ret != Ok {
          return ret, i + 1;
        }
        i := i + 1;
      }
      return Ok, i;
    }
  }

  /** When every node is found and supported, `Init` appends one operation
      per node and succeeds, and then evaluation runs them all as long as
      each computation succeeds. */
  lemma AllBuildableInitOk(ls: seq<Lookup>)
    requires forall i :: 0 <= i < |ls| ==> Buildable(ls[i])
    ensures FirstUnbuilt(ls) == |ls| && InitStatus(ls, FirstUnbuilt(ls)) == Ok
    ensures ls[..FirstUnbuilt(ls)] == ls
  {
  }

  /** A node the delegate claims is one `Init` can build, once its lookup
      succeeds. */
  lemma SupportedIsBuildable(n: Node, inputTypes: seq<int>)
    requires IsNodeSupported(n.code, inputTypes)
    ensures Buildable(Found(n))
  {
  }
}
