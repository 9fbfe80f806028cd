/**
 * The state a filter carries through a pass: a sampled path, the times of
 * its columns, and three log-densities of the parameters.
 */
module FilterStates {

  import opened Linalg

  /** A log-density: a real number or negative infinity. */
  datatype ExtReal = NegInf | Finite(value: real)

  /** The log-density of a certain event. */
  const LogOne: ExtReal := Finite(0.0)

  /**
   * Storage of a host matrix. Copy construction of a state shares it;
   * assignment copies new contents into it.
   */
  class HostMatrix {
    var rows: Matrix

    constructor (rows: Matrix)
      ensures this.rows == rows
    {
      this.rows := rows;
    }
  }

  /** Storage of a host vector, shared and assigned in the same way. */
  class HostVector {
    var elems: Vector

    constructor (elems: Vector)
      ensures this.elems == elems
    {
      this.elems := elems;
    }
  }

  /**
   * Calls a filter state hands on to its base state, whose own fields are
   * not part of this model.
   */
  datatype BaseCall = BaseConstruct | BaseCopy | BaseAssign | BaseClear | BaseSwap

  class FilterState {
    /** Path sample: one row per state variable, one column per output time. */
    var path: HostMatrix
    /** Times associated with the columns of the path sample. */
    var times: HostVector
    /** Log-prior density of the parameters. */
    var logPrior: ExtReal
    /** Log-proposal density of the parameters. */
    var logProposal: ExtReal
    /** Marginal log-likelihood of the parameters. */
    var logLikelihood: ExtReal
    /** The calls handed on to the base state. */
    ghost var delegated: seq<BaseCall>

    /** The three log-densities, in declaration order. */
    function LogDensities(): (ExtReal, ExtReal, ExtReal)
      reads this
    {
      (logPrior, logProposal, logLikelihood)
    }

    /**
     * A state for a model with `nr` noise and `nd` state variables and `T`
     * output times, with storage of its own. The number of particles and
     * of observation times go to the base state.
     */
    constructor (nr: nat, nd: nat, T: nat)
      ensures fresh(path) && fresh(times)
      ensures HasShape(path.rows, nr + nd, T)
      ensures |times.elems| == T
      ensures logPrior == NegInf && logProposal == NegInf && logLikelihood == LogOne
      ensures delegated == [BaseConstruct]
    {
      path := new HostMatrix(ZeroMatrix(nr + nd, T));
      times := new HostVector(ZeroVector(T));
      logPrior := NegInf;
      logProposal := NegInf;
      logLikelihood := LogOne;
      delegated := [BaseConstruct];
    }

    /** Shallow copy construction: the path and times storage is shared with o. */
    constructor Copy(o: FilterState)
      ensures path == o.path && times == o.times
      ensures LogDensities() == o.LogDensities()
      ensures delegated == [BaseCopy]
    {
      path := o.path;
      times := o.times;
      logPrior := o.logPrior;
      logProposal := o.logProposal;
      logLikelihood := o.logLikelihood;
      delegated := [BaseCopy];
    }

    /**
     * Assignment from o: the contents of o's path and times are copied
     * into this state's own storage, which stays where it is.
     */
    method Assign(o: FilterState)
      modifies this, path, times
      ensures path == old(path) && times == old(times)
      ensures path.rows == old(o.path.rows) && times.elems == old(o.times.elems)
      ensures LogDensities() == old(o.LogDensities())
      ensures delegated == old(delegated) + [BaseAssign]
    {
      delegated := delegated + [BaseAssign];
      path.rows := o.path.rows;
      times.elems := o.times.elems;
      logLikelihood := o.logLikelihood;
      logPrior := o.logPrior;
      logProposal := o.logProposal;
    }

    /** Restores the three log-densities to their initial values. */
    method Clear()
      modifies this
      ensures logPrior == NegInf && logProposal == NegInf && logLikelihood == LogOne
      ensures path == old(path) && times == old(times)
      ensures delegated == old(delegated) + [BaseClear]
    {
      delegated := delegated + [BaseClear];
      logPrior := NegInf;
      logProposal := NegInf;
      logLikelihood := LogOne;
    }

    /**
     * Exchanges the three log-densities with those of o; the paths and
     * times stay where they are.
     */
    method Swap(o: FilterState)
      modifies this, o
      ensures LogDensities() == old(o.LogDensities())
      ensures o.LogDensities() == old(LogDensities())
      ensures path == old(path) && times == old(times)
      ensures o.path == old(o.path) && o.times == old(o.times)
      ensures delegated == old(delegated) + [BaseSwap]
      ensures o != this ==> o.delegated == old(o.delegated)
    {
      delegated := delegated + [BaseSwap];
      logPrior, o.logPrior := o.logPrior, logPrior;
      logProposal, o.logProposal := o.logProposal, logProposal;
      logLikelihood, o.logLikelihood := o.logLikelihood, logLikelihood;
    }
  }

  /**
   * A copy shares its storage: a path written through the copy is the
   * original's path too.
   */
  method CopySharesPath(s: FilterState, m: Matrix) returns (c: FilterState)
    modifies s.path
    ensures fresh(c)
    ensures c.path.rows == m && s.path.rows == m
  {
    c := new FilterState.Copy(s);
    c.path.rows := m;
  }

  /**
   * Assignment between states with storage of their own copies contents
   * only: a path written afterwards through the assigned state is not seen
   * by the state it was assigned from.
   */
  method AssignCopiesContents(s: FilterState, o: FilterState, m: Matrix)
    requires s.path != o.path
    modifies s, s.path, s.times
    ensures s.path.rows == m && o.path.rows == old(o.path.rows)
    ensures s.times.elems == old(o.times.elems)
  {
    s.Assign(o);
    s.path.rows := m;
  }

  /** Swapping twice gives both states back their own log-densities. */
  method SwapTwice(s: FilterState, o: FilterState)
    modifies s, o
    ensures s.LogDensities() == old(s.LogDensities())
    ensures o.LogDensities() == old(o.LogDensities())
  {
    s.Swap(o);
    s.Swap(o);
  }

  /** Clearing a freshly constructed state changes nothing. */
  method ClearFresh(nr: nat, nd: nat, T: nat) returns (s: FilterState)
    ensures fresh(s)
    ensures HasShape(s.path.rows, nr + nd, T) && |s.times.elems| == T
    ensures s.LogDensities() == (NegInf, NegInf, LogOne)
  {
    s := new FilterState(nr, nd, T);
    s.Clear();
  }
}
