/**
 * The filter wrapper: the control loop that drives any filter kernel over a
 * half-open range [first, last) of a time schedule. The kernel's own
 * operations are seen only as the calls the loop makes, recorded in order.
 */
module Filters {

  /** A call made on the kernel, with the schedule position it was made at. */
  datatype KernelCall =
    | Output0
    | Correct(t: nat)
    | Output(t: nat)
    | Step(t: nat)
    | Term
    | OutputT

  /** The step calls made while the cursor moves from `lo` up to `hi`. */
  function StepCalls(lo: nat, hi: nat): seq<KernelCall>
    decreases hi - lo
  {
    if lo >= hi then [] else [Step(lo)] + StepCalls(lo + 1, hi)
  }

  /** The calls one filtering pass makes over the schedule range [first, last). */
  function FilterCalls(first: nat, last: nat): seq<KernelCall>
    requires first < last
  {
    [Output0, Correct(first), Output(first)] + StepCalls(first, last - 1) + [Term, OutputT]
  }

  /** The steps are made at every position from `lo` to `hi - 1`, in order. */
  lemma {:induction false} StepCallsAt(lo: nat, hi: nat)
    requires lo <= hi
    ensures |StepCalls(lo, hi)| == hi - lo
    ensures forall i :: 0 <= i < hi - lo ==> StepCalls(lo, hi)[i] == Step(lo + i)
    decreases hi - lo
  {
    if lo < hi {
      StepCallsAt(lo + 1, hi);
    }
  }

  /**
   * The shape of a pass: output0 first, then correct and output at the
   * first schedule point, one step at every point before the last one, and
   * term then outputT as the final two calls.
   */
  lemma FilterCallsShape(first: nat, last: nat)
    requires first < last
    ensures var calls := FilterCalls(first, last);
      && |calls| == (last - first) + 4
      && calls[0] == Output0
      && calls[1] == Correct(first)
      && calls[2] == Output(first)
      && (forall i :: 3 <= i < |calls| - 2 ==> calls[i] == Step(first + i - 3))
      && calls[|calls| - 2] == Term
      && calls[|calls| - 1] == OutputT
  {
    StepCallsAt(first, last - 1);
  }

  /** The number of step calls in a record of calls. */
  function StepCount(calls: seq<KernelCall>): nat {
    if calls == [] then 0 else (if calls[0].Step? then 1 else 0) + StepCount(calls[1..])
  }

  lemma {:induction false} StepCountConcat(a: seq<KernelCall>, b: seq<KernelCall>)
    ensures StepCount(a + b) == StepCount(a) + StepCount(b)
  {
    if a == [] {
      assert a + b == b;
    } else {
      assert (a + b)[0] == a[0];
      assert (a + b)[1..] == a[1..] + b;
      StepCountConcat(a[1..], b);
    }
  }

  lemma {:induction false} StepCountNone(calls: seq<KernelCall>)
    requires forall i :: 0 <= i < |calls| ==> !calls[i].Step?
    ensures StepCount(calls) == 0
  {
    if calls != [] {
      StepCountNone(calls[1..]);
    }
  }

  lemma {:induction false} StepCountOfSteps(lo: nat, hi: nat)
    requires lo <= hi
    ensures StepCount(StepCalls(lo, hi)) == hi - lo
    decreases hi - lo
  {
    if lo < hi {
      assert StepCalls(lo, hi)[1..] == StepCalls(lo + 1, hi);
      StepCountOfSteps(lo + 1, hi);
    }
  }

  /**
   * Output0, correct, term and outputT are each made exactly once, and
   * there are exactly (last - first) - 1 steps.
   */
  lemma FilterCallsOnce(first: nat, last: nat)
    requires first < last
    ensures var calls := FilterCalls(first, last);
      && (forall i :: 0 <= i < |calls| && calls[i] == Output0 ==> i == 0)
      && (forall i :: 0 <= i < |calls| && calls[i].Correct? ==> i == 1)
      && (forall i :: 0 <= i < |calls| && calls[i] == Term ==> i == |calls| - 2)
      && (forall i :: 0 <= i < |calls| && calls[i] == OutputT ==> i == |calls| - 1)
      && StepCount(calls) == (last - first) - 1
  {
    FilterCallsShape(first, last);
    var prologue: seq<KernelCall> := [Output0, Correct(first), Output(first)];
    var epilogue: seq<KernelCall> := [Term, OutputT];
    var steps := StepCalls(first, last - 1);
    StepCountConcat(prologue, steps);
    StepCountConcat(prologue + steps, epilogue);
    StepCountOfSteps(first, last - 1);
    StepCountNone(prologue);
    StepCountNone(epilogue);
  }

  /** A one-point schedule makes no step at all. */
  lemma OnePointSchedule(first: nat)
    ensures FilterCalls(first, first + 1) == [Output0, Correct(first), Output(first), Term, OutputT]
  {
  }

  /**
   * The layout of the pass over [first, last): output0, correct and output
   * at the first point, one step at every point before the last, then term
   * and outputT.
   */
  ghost predicate IsPass(calls: seq<KernelCall>, first: nat, last: nat) {
    && first < last
    && |calls| == (last - first) + 4
    && calls[0] == Output0 && calls[1] == Correct(first) && calls[2] == Output(first)
    && (forall i :: 3 <= i < |calls| - 2 ==> calls[i] == Step(first + i - 3))
    && calls[|calls| - 2] == Term && calls[|calls| - 1] == OutputT
  }

  /** How a pass ends: having made every call, or left by an exception. */
  datatype Outcome = Completed | Thrown

  /** None of the calls throws. */
  predicate NoneThrow(calls: seq<KernelCall>, throws: set<KernelCall>) {
    forall i :: 0 <= i < |calls| ==> calls[i] !in throws
  }

  /**
   * The calls actually made when `calls` are attempted in order and an
   * exception leaves at once: every call up to and including the first one
   * that throws.
   */
  function Attempt(calls: seq<KernelCall>, throws: set<KernelCall>): seq<KernelCall> {
    if calls == [] then []
    else if calls[0] in throws then [calls[0]]
    else [calls[0]] + Attempt(calls[1..], throws)
  }

  /**
   * The calls made are a prefix of those attempted: all of them when none
   * throws, and otherwise a non-empty prefix whose last call, and only that
   * one, throws.
   */
  lemma {:induction false} AttemptShape(calls: seq<KernelCall>, throws: set<KernelCall>)
    ensures var made := Attempt(calls, throws);
      && |made| <= |calls| && made == calls[..|made|]
      && (NoneThrow(calls, throws) ==> made == calls)
      && (!NoneThrow(calls, throws) ==>
            |made| > 0 && made[|made| - 1] in throws && NoneThrow(made[..|made| - 1], throws))
  {
    AttemptIsPrefix(calls, throws);
    if NoneThrow(calls, throws) {
      AttemptAll(calls, throws);
    } else {
      AttemptStops(calls, throws);
    }
  }

  /** The calls made are a prefix of those attempted. */
  lemma {:induction false} AttemptIsPrefix(calls: seq<KernelCall>, throws: set<KernelCall>)
    ensures |Attempt(calls, throws)| <= |calls|
    ensures Attempt(calls, throws) == calls[..|Attempt(calls, throws)|]
  {
    if calls != [] && calls[0] !in throws {
      var rest := Attempt(calls[1..], throws);
      AttemptIsPrefix(calls[1..], throws);
      assert Attempt(calls, throws) == [calls[0]] + rest;
      assert calls[..|rest| + 1] == [calls[0]] + calls[1..][..|rest|];
    }
  }

  /** When none of the calls throws, every one of them is made. */
  lemma {:induction false} AttemptAll(calls: seq<KernelCall>, throws: set<KernelCall>)
    requires NoneThrow(calls, throws)
    ensures Attempt(calls, throws) == calls
  {
    if calls != [] {
      assert calls[0] !in throws;
      forall j | 0 <= j < |calls| - 1
        ensures calls[1..][j] !in throws
      {
        assert calls[1..][j] == calls[j + 1];
      }
      AttemptAll(calls[1..], throws);
    }
  }

  /** When some call throws, the last call made throws and no earlier one does. */
  lemma {:induction false} AttemptStops(calls: seq<KernelCall>, throws: set<KernelCall>)
    requires !NoneThrow(calls, throws)
    ensures var made := Attempt(calls, throws);
      |made| > 0 && made[|made| - 1] in throws && NoneThrow(made[..|made| - 1], throws)
  {
    if calls[0] !in throws {
      var rest := Attempt(calls[1..], throws);
      var i :| 0 <= i < |calls| && calls[i] in throws;
      assert calls[1..][i - 1] == calls[i];
      AttemptStops(calls[1..], throws);
      var made := [calls[0]] + rest;
      assert Attempt(calls, throws) == made;
      assert made[..|made| - 1] == [calls[0]] + rest[..|rest| - 1];
    }
  }

  /** None of the calls before position k throws. */
  predicate NoneThrowBefore(calls: seq<KernelCall>, k: nat, throws: set<KernelCall>)
    requires k <= |calls|
  {
    forall i :: 0 <= i < k ==> calls[i] !in throws
  }

  /**
   * When the calls before position k do not throw and the call at k does,
   * the attempt stops right after it.
   */
  lemma {:induction false} AttemptUpTo(calls: seq<KernelCall>, k: nat, throws: set<KernelCall>)
    requires k < |calls| && NoneThrowBefore(calls, k, throws) && calls[k] in throws
    ensures Attempt(calls, throws) == calls[..k + 1]
    decreases k
  {
    if k > 0 {
      AttemptUpTo(calls[1..], k - 1, throws);
      assert calls[..k + 1] == [calls[0]] + calls[1..][..k];
    }
  }

  /** The call at position k throws: the calls made end with it. */
  lemma StopsAt(calls: seq<KernelCall>, k: nat, throws: set<KernelCall>)
    requires k < |calls| && NoneThrowBefore(calls, k, throws) && calls[k] in throws
    ensures Attempt(calls, throws) == calls[..k + 1]
    ensures !NoneThrow(calls, throws)
  {
    AttemptUpTo(calls, k, throws);
  }

  /**
   * After the first `made` calls of a pass: none of them threw if `thrown`
   * is false, and otherwise only the last one did.
   */
  ghost predicate Progress(calls: seq<KernelCall>, made: nat, thrown: bool, throws: set<KernelCall>) {
    && made <= |calls|
    && (!thrown ==> NoneThrowBefore(calls, made, throws))
    && (thrown ==> 0 < made && NoneThrowBefore(calls, made - 1, throws) && calls[made - 1] in throws)
  }

  /**
   * Making the call at position k, after calls that did not throw, extends
   * the calls made by it.
   */
  lemma Made(prior: seq<KernelCall>, calls: seq<KernelCall>, k: nat, throws: set<KernelCall>)
    requires k < |calls| && NoneThrowBefore(calls, k, throws)
    ensures prior + calls[..k] + [calls[k]] == prior + calls[..k + 1]
    ensures Progress(calls, k + 1, calls[k] in throws, throws)
  {
    assert calls[..k + 1] == calls[..k] + [calls[k]];
  }

  /** When none of the calls throws, every call is made. */
  lemma Completes(calls: seq<KernelCall>, k: nat, throws: set<KernelCall>)
    requires k == |calls| && NoneThrowBefore(calls, k, throws)
    ensures calls[..k] == Attempt(calls, throws)
    ensures NoneThrow(calls, throws)
  {
    assert calls[..k] == calls;
    AttemptAll(calls, throws);
  }

  /**
   * A pass in which a call before term throws (the j-th call: output0,
   * correct, output or a step) never reaches term or outputT.
   */
  lemma ThrownPassEndsEarly(first: nat, last: nat, throws: set<KernelCall>, j: nat)
    requires first < last
    ensures var calls := FilterCalls(first, last);
      var made := Attempt(calls, throws);
      j < |calls| - 2 && calls[j] in throws ==> Term !in made && OutputT !in made
  {
    var calls := FilterCalls(first, last);
    var made := Attempt(calls, throws);
    AttemptShape(calls, throws);
    FilterCallsShape(first, last);
    FilterCallsOnce(first, last);
    if j < |calls| - 2 && calls[j] in throws {
      assert !NoneThrow(calls, throws);
      assert |made| - 1 <= j;
      forall i | 0 <= i < |made|
        ensures made[i] != Term && made[i] != OutputT
      {
        assert made[i] == calls[i];
      }
    }
  }

  /**
   * A filter: the kernel it wraps, seen through the calls made on it.
   * Which kernel calls throw is supplied from outside as a set of calls,
   * since the kernel's operations are not part of this model; a call that
   * throws is still recorded as made.
   */
  class Filter {
    var calls: seq<KernelCall>

    constructor ()
      ensures calls == []
    {
      calls := [];
    }

    method Output0(throws: set<KernelCall>) returns (thrown: bool)
      modifies this
      ensures thrown <==> KernelCall.Output0 in throws
      ensures calls == old(calls) + [KernelCall.Output0]
    {
      calls := calls + [KernelCall.Output0];
      thrown := KernelCall.Output0 in throws;
    }

    method Correct(t: nat, throws: set<KernelCall>) returns (thrown: bool)
      modifies this
      ensures thrown <==> KernelCall.Correct(t) in throws
      ensures calls == old(calls) + [KernelCall.Correct(t)]
    {
      calls := calls + [KernelCall.Correct(t)];
      thrown := KernelCall.Correct(t) in throws;
    }

    method Output(t: nat, throws: set<KernelCall>) returns (thrown: bool)
      modifies this
      ensures thrown <==> KernelCall.Output(t) in throws
      ensures calls == old(calls) + [KernelCall.Output(t)]
    {
      calls := calls + [KernelCall.Output(t)];
      thrown := KernelCall.Output(t) in throws;
    }

    /** One step of the kernel: advances the schedule cursor by one. */
    method Step(iter: nat, last: nat, throws: set<KernelCall>) returns (thrown: bool, next: nat)
      requires iter + 1 < last
      modifies this
      ensures thrown <==> KernelCall.Step(iter) in throws
      ensures next == iter + 1
      ensures calls == old(calls) + [KernelCall.Step(iter)]
    {
      calls := calls + [KernelCall.Step(iter)];
      thrown := KernelCall.Step(iter) in throws;
      next := iter + 1;
    }

    method Term(throws: set<KernelCall>) returns (thrown: bool)
      modifies this
      ensures thrown <==> KernelCall.Term in throws
      ensures calls == old(calls) + [KernelCall.Term]
    {
      calls := calls + [KernelCall.Term];
      thrown := KernelCall.Term in throws;
    }

    method OutputT(throws: set<KernelCall>) returns (thrown: bool)
      modifies this
      ensures thrown <==> KernelCall.OutputT in throws
      ensures calls == old(calls) + [KernelCall.OutputT]
    {
      calls := calls + [KernelCall.OutputT];
      thrown := KernelCall.OutputT in throws;
    }

    /**
     * Filters over the schedule range [first, last), after initialisation
     * or proposal. The pass makes the calls of FilterCalls in order until
     * one of them throws, and then leaves at once.
     */
    method Filter(first: nat, last: nat, throws: set<KernelCall>) returns (outcome: Outcome)
      requires first < last
      modifies this
      ensures calls == old(calls) + Attempt(FilterCalls(first, last), throws)
      ensures outcome == Completed <==> NoneThrow(FilterCalls(first, last), throws)
    {
      FilterCallsShape(first, last);
      outcome := Run(first, last, throws, FilterCalls(first, last));
    }

    /**
     * The body of Filter, against the layout of the pass it makes. Once a
     * call has thrown, no further call is made.
     */
    method Run(first: nat, last: nat, throws: set<KernelCall>, ghost pass: seq<KernelCall>)
      returns (outcome: Outcome)
      requires IsPass(pass, first, last)
      modifies this
      ensures calls == old(calls) + Attempt(pass, throws)
      ensures outcome == Completed <==> NoneThrow(pass, throws)
    {
      ghost var made := 0;
      var iter := first;
      var thrown := Output0(throws);
      Made(old(calls), pass, made, throws);
      made := made + 1;
      if !thrown {
        thrown := Correct(iter, throws);
        Made(old(calls), pass, made, throws);
        made := made + 1;
      }
      if !thrown {
        thrown := Output(iter, throws);
        Made(old(calls), pass, made, throws);
        made := made + 1;
      }
      while !thrown && iter + 1 != last
        invariant first <= iter < last
        invariant Progress(pass, made, thrown, throws)
        invariant calls == old(calls) + pass[..made]
        invariant !thrown ==> made == 3 + (iter - first)
        decreases last - iter, if thrown then 0 else 1
      {
        assert pass[made] == KernelCall.Step(iter);
        thrown, iter := Step(iter, last, throws);
        Made(old(calls), pass, made, throws);
        made := made + 1;
      }
      if !thrown {
        assert pass[made] == KernelCall.Term;
        thrown := Term(throws);
        Made(old(calls), pass, made, throws);
        made := made + 1;
      }
      if !thrown {
        thrown := OutputT(throws);
        Made(old(calls), pass, made, throws);
        made := made + 1;
      }
      if thrown {
        StopsAt(pass, made - 1, throws);
        outcome := Thrown;
      } else {
        Completes(pass, made, throws);
        outcome := Completed;
      }
    }
  }

  /** A pass in which no call throws makes exactly the calls of FilterCalls. */
  method CompletePass(first: nat, last: nat) returns (f: Filter)
    requires first < last
    ensures fresh(f)
    ensures f.calls == FilterCalls(first, last)
  {
    f := new Filter();
    var outcome := f.Filter(first, last, {});
    AttemptShape(FilterCalls(first, last), {});
  }
}
