/**
 * The continuation engine as a specification: which signatures `finalize`
 * publishes for a finished task and its outcome, and in which order.
 */
module ContinuationEngine {
  import opened Tasks

  /** The signature published for the template `c` of `origin` under `outcome`. */
  function Derive(origin: TaskSignature, outcome: Outcome, c: TaskSignature): TaskSignature
  {
    match outcome
    case Failed(e) => PrependArg(ErrorArg(e), c)
    case Succeeded(r) => if origin.immutable then c else PrependArg(r, c)
  }

  /** The continuation list the outcome selects: `onError` on failure, `onSuccess` otherwise. */
  function Templates(origin: TaskSignature, outcome: Outcome): seq<TaskSignature>
  {
    if outcome.Failed? then origin.onError else origin.onSuccess
  }

  /** Derive every template of `cs`, keeping their order. */
  function DeriveAll(origin: TaskSignature, outcome: Outcome, cs: seq<TaskSignature>): seq<TaskSignature>
  {
    if cs == [] then [] else [Derive(origin, outcome, cs[0])] + DeriveAll(origin, outcome, cs[1..])
  }

  /** Everything `finalize` publishes for `origin` and `outcome`, in publication order. */
  function Continuations(origin: TaskSignature, outcome: Outcome): seq<TaskSignature>
  {
    DeriveAll(origin, outcome, Templates(origin, outcome))
  }

  /** Deriving one more template publishes one more signature, at the end. */
  lemma {:induction false} DeriveAllSnoc(origin: TaskSignature, outcome: Outcome, cs: seq<TaskSignature>, c: TaskSignature)
    ensures DeriveAll(origin, outcome, cs + [c]) == DeriveAll(origin, outcome, cs) + [Derive(origin, outcome, c)]
  {
    if cs != [] {
      assert (cs + [c])[1..] == cs[1..] + [c];
      DeriveAllSnoc(origin, outcome, cs[1..], c);
    }
  }

  /** One published signature per template, the k-th derived from the k-th template. */
  lemma {:induction false} DeriveAllAt(origin: TaskSignature, outcome: Outcome, cs: seq<TaskSignature>)
    ensures |DeriveAll(origin, outcome, cs)| == |cs|
    ensures forall k :: 0 <= k < |cs| ==> DeriveAll(origin, outcome, cs)[k] == Derive(origin, outcome, cs[k])
  {
    if cs != [] {
      DeriveAllAt(origin, outcome, cs[1..]);
      forall k | 0 <= k < |cs|
        ensures DeriveAll(origin, outcome, cs)[k] == Derive(origin, outcome, cs[k])
      {
        if k > 0 {
          assert DeriveAll(origin, outcome, cs)[k] == DeriveAll(origin, outcome, cs[1..])[k - 1];
        }
      }
    }
  }

  /**
   * Deriving reads nothing of the origin but its `immutable` flag, and not
   * even that on failure.
   */
  lemma {:induction false} DeriveAllOriginIrrelevant(o1: TaskSignature, o2: TaskSignature, outcome: Outcome, cs: seq<TaskSignature>)
    requires outcome.Failed? || o1.immutable == o2.immutable
    ensures DeriveAll(o1, outcome, cs) == DeriveAll(o2, outcome, cs)
  {
    if cs != [] {
      DeriveAllOriginIrrelevant(o1, o2, outcome, cs[1..]);
    }
  }

  /** `finalize` publishes exactly one signature per entry of the selected continuation list. */
  lemma ContinuationCount(origin: TaskSignature, outcome: Outcome)
    ensures outcome.Failed? ==> |Continuations(origin, outcome)| == |origin.onError|
    ensures outcome.Succeeded? ==> |Continuations(origin, outcome)| == |origin.onSuccess|
  {
    DeriveAllAt(origin, outcome, Templates(origin, outcome));
  }

  /**
   * Error branch: the k-th published signature is the k-th error continuation
   * with the error prepended as its first argument, whatever `immutable` is.
   */
  lemma ErrorContinuations(origin: TaskSignature, e: Error)
    ensures |Continuations(origin, Failed(e))| == |origin.onError|
    ensures forall k :: 0 <= k < |origin.onError| ==>
      Continuations(origin, Failed(e))[k].args == [ErrorArg(e)] + origin.onError[k].args
    ensures Continuations(origin.(immutable := !origin.immutable), Failed(e)) == Continuations(origin, Failed(e))
  {
    DeriveAllAt(origin, Failed(e), origin.onError);
    DeriveAllOriginIrrelevant(origin.(immutable := !origin.immutable), origin, Failed(e), origin.onError);
  }

  /**
   * Success branch of a mutable origin: the k-th published signature is the
   * k-th success continuation with the result prepended as its first argument.
   */
  lemma MutableSuccessContinuations(origin: TaskSignature, result: TaskArg)
    requires !origin.immutable
    ensures |Continuations(origin, Succeeded(result))| == |origin.onSuccess|
    ensures forall k :: 0 <= k < |origin.onSuccess| ==>
      Continuations(origin, Succeeded(result))[k].args == [result] + origin.onSuccess[k].args
  {
    DeriveAllAt(origin, Succeeded(result), origin.onSuccess);
  }

  /** Success branch of an immutable origin: the success continuations are published as declared. */
  lemma ImmutableSuccessContinuations(origin: TaskSignature, result: TaskArg)
    requires origin.immutable
    ensures Continuations(origin, Succeeded(result)) == origin.onSuccess
  {
    var cs := origin.onSuccess;
    DeriveAllAt(origin, Succeeded(result), cs);
    assert forall k :: 0 <= k < |cs| ==> DeriveAll(origin, Succeeded(result), cs)[k] == cs[k];
  }

  /**
   * Only `args` of a published signature differs from its template: the name,
   * the nested continuation lists and the `immutable` flag are carried over,
   * and the arguments are the template's, at most one added in front.
   */
  lemma OnlyArgsChange(origin: TaskSignature, outcome: Outcome, k: nat)
    requires k < |Templates(origin, outcome)|
    ensures k < |Continuations(origin, outcome)|
    ensures Continuations(origin, outcome)[k].(args := Templates(origin, outcome)[k].args) == Templates(origin, outcome)[k]
    ensures Continuations(origin, outcome)[k].args == Templates(origin, outcome)[k].args
         || (|Continuations(origin, outcome)[k].args| == |Templates(origin, outcome)[k].args| + 1 &&
             Continuations(origin, outcome)[k].args[1..] == Templates(origin, outcome)[k].args)
  {
    DeriveAllAt(origin, outcome, Templates(origin, outcome));
  }

  /**
   * Exactly one branch fires: on failure nothing depends on the success list
   * or the flag, and on success nothing depends on the error list.
   */
  lemma OneBranchFires(origin: TaskSignature, outcome: Outcome, other: seq<TaskSignature>, flag: bool)
    ensures outcome.Failed? ==>
      Continuations(origin.(onSuccess := other, immutable := flag), outcome) == Continuations(origin, outcome)
    ensures outcome.Succeeded? ==>
      Continuations(origin.(onError := other), outcome) == Continuations(origin, outcome)
  {
    if outcome.Failed? {
      DeriveAllOriginIrrelevant(origin.(onSuccess := other, immutable := flag), origin, outcome, origin.onError);
    } else {
      DeriveAllOriginIrrelevant(origin.(onError := other), origin, outcome, origin.onSuccess);
    }
  }
}
