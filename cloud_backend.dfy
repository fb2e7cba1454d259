/**
 * The abstract cloud backend. Every create-or-update and delete call the model
 * issues goes through a `Backend`, which records the call in a trace and
 * answers with success or failure; which calls fail is fixed up front by the
 * set of their positions in the trace. List responses, which must hand back
 * data, are given to the operations as parameters instead: a pager is the
 * sequence of its page results.
 */
module CloudBackend {
  import opened Wrappers

  /** An error returned by the cloud; `index` identifies the call that failed. */
  datatype CloudError = CloudError(index: nat)

  /** A recorder of the calls made against one cloud service. */
  class Backend<C> {
    var trace: seq<C>
    const failing: set<nat>

    constructor (failing: set<nat>)
      ensures trace == [] && this.failing == failing
    {
      trace := [];
      this.failing := failing;
    }

    /** Issues one call: it is recorded, and fails iff its position is in `failing`. */
    method Call(c: C) returns (err: Option<CloudError>)
      modifies this
      ensures trace == old(trace) + [c]
      ensures err == Outcome(|old(trace)|, failing)
    {
      err := Outcome(|trace|, failing);
      trace := trace + [c];
    }
  }

  /** The answer the backend gives to the call at trace position `index`. */
  function Outcome(index: nat, failing: set<nat>): (err: Option<CloudError>)
    ensures err.Some? <==> index in failing
    ensures err.Some? ==> err.value.index == index
  {
    if index in failing then Some(CloudError(index)) else None
  }

  /**
   * How many of `n` calls issued from trace position `start` on succeed
   * before the first failure.
   */
  function Succeeding(start: nat, n: nat, failing: set<nat>): (k: nat)
    ensures k <= n
    ensures forall i :: start <= i < start + k ==> i !in failing
    ensures k < n ==> start + k in failing
    decreases n
  {
    if n == 0 || start in failing then 0 else 1 + Succeeding(start + 1, n - 1, failing)
  }

  /**
   * The calls that a run which stops at the first error actually issues out
   * of the planned `calls`: those that succeed, and the one that fails.
   */
  function Issued<C>(calls: seq<C>, start: nat, failing: set<nat>): seq<C>
  {
    var k := Succeeding(start, |calls|, failing);
    if k < |calls| then calls[..k + 1] else calls
  }

  /** The error such a run returns: that of the first failing call, if any. */
  function RunError(n: nat, start: nat, failing: set<nat>): Option<CloudError>
  {
    var k := Succeeding(start, n, failing);
    if k < n then Some(CloudError(start + k)) else None
  }

  /** With the calls before `p` succeeding and call `p` failing, exactly `p` calls succeed. */
  lemma {:induction false} SucceedingStopsAt(start: nat, n: nat, failing: set<nat>, p: nat)
    requires p < n && start + p in failing
    requires forall i :: start <= i < start + p ==> i !in failing
    ensures Succeeding(start, n, failing) == p
    decreases p
  {
    if p > 0 {
      assert start !in failing;
      SucceedingStopsAt(start + 1, n - 1, failing, p - 1);
    }
  }

  /** With calls up to and including `p` succeeding, more than `p` calls succeed. */
  lemma {:induction false} SucceedingPast(start: nat, n: nat, failing: set<nat>, p: nat)
    requires p < n
    requires forall i :: start <= i <= start + p ==> i !in failing
    ensures p + 1 <= Succeeding(start, n, failing)
    decreases p
  {
    assert start !in failing;
    if p > 0 {
      SucceedingPast(start + 1, n - 1, failing, p - 1);
    }
  }

  /** A run that has issued `calls[..p]` without error ends at call `p` if that one fails. */
  lemma StepFails<C>(calls: seq<C>, start: nat, failing: set<nat>, p: nat)
    requires p < |calls| && p <= Succeeding(start, |calls|, failing) && start + p in failing
    ensures Issued(calls, start, failing) == calls[..p + 1]
    ensures RunError(|calls|, start, failing) == Some(CloudError(start + p))
  {
    SucceedingStopsAt(start, |calls|, failing, p);
  }

  /** A call that succeeds moves the run one call further. */
  lemma StepSucceeds<C>(calls: seq<C>, start: nat, failing: set<nat>, p: nat)
    requires p < |calls| && p <= Succeeding(start, |calls|, failing) && start + p !in failing
    ensures p + 1 <= Succeeding(start, |calls|, failing)
  {
    SucceedingPast(start, |calls|, failing, p);
  }

  /** A run that got through every planned call issued them all and returns no error. */
  lemma RunCompletes<C>(calls: seq<C>, start: nat, failing: set<nat>)
    requires |calls| <= Succeeding(start, |calls|, failing)
    ensures Issued(calls, start, failing) == calls
    ensures RunError(|calls|, start, failing).None?
  {
  }

  /**
   * Draining a pager: the concatenation of its pages in order, or the error
   * of the first page that failed.
   */
  function Drain<T>(pages: seq<Result<seq<T>, CloudError>>): Result<seq<T>, CloudError>
  {
    if |pages| == 0 then Success([])
    else match Drain(pages[..|pages| - 1])
      case Failure(e) => Failure(e)
      case Success(acc) =>
        match pages[|pages| - 1]
        case Failure(e) => Failure(e)
        case Success(v) => Success(acc + v)
  }

  /** Once a prefix of the pages drains to an error, every longer prefix does too. */
  lemma {:induction false} DrainFailureSticks<T>(pages: seq<Result<seq<T>, CloudError>>, i: nat)
    requires i <= |pages|
    requires Drain(pages[..i]).Failure?
    ensures Drain(pages) == Drain(pages[..i])
    decreases |pages| - i
  {
    if i < |pages| {
      assert pages[..i + 1][..i] == pages[..i];
      DrainFailureSticks(pages, i + 1);
    } else {
      assert pages[..i] == pages;
    }
  }

  /** Draining succeeds iff no page failed, and then yields every page's entries in order. */
  lemma {:induction false} DrainSucceedsIffNoPageFails<T>(pages: seq<Result<seq<T>, CloudError>>)
    ensures Drain(pages).Success? <==> forall j :: 0 <= j < |pages| ==> pages[j].Success?
  {
    if |pages| > 0 {
      var init := pages[..|pages| - 1];
      DrainSucceedsIffNoPageFails(init);
      assert forall j :: 0 <= j < |init| ==> init[j] == pages[j];
    }
  }

  /** The entries of a sequence of pages, one page after another. */
  function Concat<T>(pages: seq<seq<T>>): seq<T>
  {
    if |pages| == 0 then [] else Concat(pages[..|pages| - 1]) + pages[|pages| - 1]
  }

  /** The pager of pages that all succeed, page `j` holding `values[j]`. */
  function Pages<T>(values: seq<seq<T>>): seq<Result<seq<T>, CloudError>>
  {
    seq(|values|, j requires 0 <= j < |values| => Success(values[j]))
  }

  /** A pager whose pages all succeed drains to every page's entries, in page order. */
  lemma {:induction false} DrainConcatenates<T>(values: seq<seq<T>>)
    ensures Drain(Pages(values)) == Success(Concat(values))
  {
    if |values| > 0 {
      var n := |values| - 1;
      assert Pages(values)[..n] == Pages(values[..n]);
      DrainConcatenates(values[..n]);
    }
  }
}
