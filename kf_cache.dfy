/**
 * The write-through cache of extended Kalman filter output. Five slot
 * caches, keyed by time index, hold the predicted and corrected means, the
 * Cholesky factors of the predicted and corrected covariances, and the
 * across-time covariance. Every write lands in its slot cache and is
 * forwarded at once to the output buffer.
 */
module KFCache {

  import opened Linalg

  /** One call received by the output buffer. */
  datatype BufferWrite =
    | PredictedMean(k: int, mu: Vector)
    | PredictedStd(k: int, U: Matrix)
    | CorrectedMean(k: int, mu: Vector)
    | CorrectedStd(k: int, U: Matrix)
    | Cross(k: int, C: Matrix)
    | LogLikelihood(ll: real)

  /** The output buffer, seen through the writes it has received. */
  class KalmanFilterBuffer {
    var writes: seq<BufferWrite>

    constructor ()
      ensures writes == []
    {
      writes := [];
    }

    method Write(w: BufferWrite)
      modifies this
      ensures writes == old(writes) + [w]
    {
      writes := writes + [w];
    }
  }

  /** The five slot caches of the aggregate. */
  datatype Slot = PredictedMeanSlot | PredictedStdSlot | CorrectedMeanSlot | CorrectedStdSlot | CrossSlot

  /**
   * Calls the aggregate hands on to its base simulator cache and to the
   * slot caches' own flush, whose internals are not part of this model.
   */
  datatype Delegated = BaseConstruct | BaseCopy | BaseAssign | BaseSwap | BaseClear | BaseEmpty | BaseFlush | SlotFlush(slot: Slot)

  /** What a flush hands on: the base cache first, then each slot cache in turn. */
  const FlushCalls: seq<Delegated> :=
    [BaseFlush, SlotFlush(PredictedMeanSlot), SlotFlush(PredictedStdSlot),
     SlotFlush(CorrectedMeanSlot), SlotFlush(CorrectedStdSlot), SlotFlush(CrossSlot)]

  class ExtendedKFCache {
    /** Predicted means; a time index is a key exactly when its slot is valid. */
    var mu1Cache: map<int, Vector>
    /** Cholesky factors of the predicted covariances. */
    var U1Cache: map<int, Matrix>
    /** Corrected means. */
    var mu2Cache: map<int, Vector>
    /** Cholesky factors of the corrected covariances. */
    var U2Cache: map<int, Matrix>
    /** Across-time covariances. */
    var CCache: map<int, Matrix>
    /** The output buffer every write is forwarded to; held by reference, so never reseated. */
    const out: KalmanFilterBuffer
    /** The calls handed on to the base cache and to the slot caches' flush. */
    ghost var delegated: seq<Delegated>

    /** The contents of all five slot caches. */
    function Slots(): (map<int, Vector>, map<int, Matrix>, map<int, Vector>, map<int, Matrix>, map<int, Matrix>)
      reads this
    {
      (mu1Cache, U1Cache, mu2Cache, U2Cache, CCache)
    }

    constructor (out: KalmanFilterBuffer)
      ensures Slots() == (map[], map[], map[], map[], map[])
      ensures this.out == out && delegated == [BaseConstruct]
    {
      mu1Cache, U1Cache, mu2Cache, U2Cache, CCache := map[], map[], map[], map[], map[];
      this.out := out;
      delegated := [BaseConstruct];
    }

    /** Shallow copy: the same slot contents and the same output buffer. */
    constructor Copy(o: ExtendedKFCache)
      ensures Slots() == o.Slots()
      ensures out == o.out && delegated == [BaseCopy]
    {
      mu1Cache, U1Cache, mu2Cache, U2Cache, CCache := o.mu1Cache, o.U1Cache, o.mu2Cache, o.U2Cache, o.CCache;
      out := o.out;
      delegated := [BaseCopy];
    }

    /**
     * Assignment from o. The output buffer is held by reference, so the
     * assignment copies the contents of o's buffer into this cache's
     * buffer rather than switching buffers.
     */
    method Assign(o: ExtendedKFCache)
      modifies this, out
      ensures Slots() == old(o.Slots())
      ensures out.writes == old(o.out.writes)
      ensures delegated == old(delegated) + [BaseAssign]
    {
      delegated := delegated + [BaseAssign];
      out.writes := o.out.writes;
      mu1Cache := o.mu1Cache;
      U1Cache := o.U1Cache;
      mu2Cache := o.mu2Cache;
      U2Cache := o.U2Cache;
      CCache := o.CCache;
    }

    /**
     * Flushes the cache, as happens when it is destroyed; `baseWrites` is
     * what the base cache's flush sends to the shared output buffer.
     */
    method Destroy(baseWrites: seq<BufferWrite>)
      modifies this, out
      ensures Slots() == old(Slots())
      ensures out.writes == old(out.writes) + baseWrites
      ensures delegated == old(delegated) + FlushCalls
    {
      Flush(baseWrites);
    }

    method ReadPredictedMean(k: int) returns (mu1: Vector)
      requires k in mu1Cache
      ensures mu1 == mu1Cache[k]
    {
      mu1 := mu1Cache[k];
    }

    /**
     * Writes the predicted mean at time index k: allocates the slot, shaped
     * like mu1, if it is not yet valid, then overwrites it and forwards the
     * write to the output buffer.
     */
    method WritePredictedMean(k: int, mu1: Vector) returns (ghost allocates: bool)
      modifies this, out
      ensures allocates <==> k !in old(mu1Cache)
      ensures mu1Cache == old(mu1Cache)[k := mu1]
      ensures U1Cache == old(U1Cache) && mu2Cache == old(mu2Cache)
      ensures U2Cache == old(U2Cache) && CCache == old(CCache)
      ensures out.writes == old(out.writes) + [PredictedMean(k, mu1)]
      ensures delegated == old(delegated)
    {
      allocates := false;
      if k !in mu1Cache {
        mu1Cache := mu1Cache[k := []];
        mu1Cache := mu1Cache[k := ZeroVector(|mu1|)];
        allocates := true;
      }
      mu1Cache := mu1Cache[k := mu1];
      out.Write(PredictedMean(k, mu1));
    }

    method ReadPredictedStd(k: int) returns (U1: Matrix)
      requires k in U1Cache
      ensures U1 == U1Cache[k]
    {
      U1 := U1Cache[k];
    }

    /** Writes the Cholesky factor of the predicted covariance at time index k. */
    method WritePredictedStd(k: int, U1: Matrix) returns (ghost allocates: bool)
      modifies this, out
      ensures allocates <==> k !in old(U1Cache)
      ensures U1Cache == old(U1Cache)[k := U1]
      ensures mu1Cache == old(mu1Cache) && mu2Cache == old(mu2Cache)
      ensures U2Cache == old(U2Cache) && CCache == old(CCache)
      ensures out.writes == old(out.writes) + [PredictedStd(k, U1)]
      ensures delegated == old(delegated)
    {
      allocates := false;
      if k !in U1Cache {
        U1Cache := U1Cache[k := []];
        U1Cache := U1Cache[k := ZeroMatrixShaped(U1)];
        allocates := true;
      }
      U1Cache := U1Cache[k := U1];
      out.Write(PredictedStd(k, U1));
    }

    method ReadCorrectedMean(k: int) returns (mu2: Vector)
      requires k in mu2Cache
      ensures mu2 == mu2Cache[k]
    {
      mu2 := mu2Cache[k];
    }

    /** Writes the corrected mean at time index k. */
    method WriteCorrectedMean(k: int, mu2: Vector) returns (ghost allocates: bool)
      modifies this, out
      ensures allocates <==> k !in old(mu2Cache)
      ensures mu2Cache == old(mu2Cache)[k := mu2]
      ensures mu1Cache == old(mu1Cache) && U1Cache == old(U1Cache)
      ensures U2Cache == old(U2Cache) && CCache == old(CCache)
      ensures out.writes == old(out.writes) + [CorrectedMean(k, mu2)]
      ensures delegated == old(delegated)
    {
      allocates := false;
      if k !in mu2Cache {
        mu2Cache := mu2Cache[k := []];
        mu2Cache := mu2Cache[k := ZeroVector(|mu2|)];
        allocates := true;
      }
      mu2Cache := mu2Cache[k := mu2];
      out.Write(CorrectedMean(k, mu2));
    }

    method ReadCorrectedStd(k: int) returns (U2: Matrix)
      requires k in U2Cache
      ensures U2 == U2Cache[k]
    {
      U2 := U2Cache[k];
    }

    /** Writes the Cholesky factor of the corrected covariance at time index k. */
    method WriteCorrectedStd(k: int, U2: Matrix) returns (ghost allocates: bool)
      modifies this, out
      ensures allocates <==> k !in old(U2Cache)
      ensures U2Cache == old(U2Cache)[k := U2]
      ensures mu1Cache == old(mu1Cache) && U1Cache == old(U1Cache)
      ensures mu2Cache == old(mu2Cache) && CCache == old(CCache)
      ensures out.writes == old(out.writes) + [CorrectedStd(k, U2)]
      ensures delegated == old(delegated)
    {
      allocates := false;
      if k !in U2Cache {
        U2Cache := U2Cache[k := []];
        U2Cache := U2Cache[k := ZeroMatrixShaped(U2)];
        allocates := true;
      }
      U2Cache := U2Cache[k := U2];
      out.Write(CorrectedStd(k, U2));
    }

    method ReadCross(k: int) returns (C: Matrix)
      requires k in CCache
      ensures C == CCache[k]
    {
      C := CCache[k];
    }

    /** Writes the across-time covariance at time index k. */
    method WriteCross(k: int, C: Matrix) returns (ghost allocates: bool)
      modifies this, out
      ensures allocates <==> k !in old(CCache)
      ensures CCache == old(CCache)[k := C]
      ensures mu1Cache == old(mu1Cache) && U1Cache == old(U1Cache)
      ensures mu2Cache == old(mu2Cache) && U2Cache == old(U2Cache)
      ensures out.writes == old(out.writes) + [Cross(k, C)]
      ensures delegated == old(delegated)
    {
      allocates := false;
      if k !in CCache {
        CCache := CCache[k := []];
        CCache := CCache[k := ZeroMatrixShaped(C)];
        allocates := true;
      }
      CCache := CCache[k := C];
      out.Write(Cross(k, C));
    }

    /** Forwards the log-likelihood to the output buffer; nothing is cached. */
    method WriteLL(ll: real)
      modifies out
      ensures out.writes == old(out.writes) + [LogLikelihood(ll)]
    {
      out.Write(LogLikelihood(ll));
    }

    /** Swaps the base cache's contents with o's; the slot caches stay. */
    method Swap(o: ExtendedKFCache)
      modifies this
      ensures Slots() == old(Slots())
      ensures delegated == old(delegated) + [BaseSwap]
    {
      delegated := delegated + [BaseSwap];
    }

    /** Clears the base cache; the slot caches stay. */
    method Clear()
      modifies this
      ensures Slots() == old(Slots())
      ensures delegated == old(delegated) + [BaseClear]
    {
      delegated := delegated + [BaseClear];
    }

    /** Empties the base cache; the slot caches stay. */
    method Empty()
      modifies this
      ensures Slots() == old(Slots())
      ensures delegated == old(delegated) + [BaseEmpty]
    {
      delegated := delegated + [BaseEmpty];
    }

    /**
     * Flushes the base cache and then each slot cache. The base cache was
     * built on the same output buffer, and what its flush sends there is
     * supplied as `baseWrites`, since the base cache is not part of this
     * model. The slot caches hold no buffer, and every write to a slot
     * already went through, so nothing else reaches the buffer.
     */
    method Flush(baseWrites: seq<BufferWrite>)
      modifies this, out
      ensures Slots() == old(Slots())
      ensures out.writes == old(out.writes) + baseWrites
      ensures delegated == old(delegated) + FlushCalls
    {
      delegated := delegated + [BaseFlush];
      out.writes := out.writes + baseWrites;
      delegated := delegated + [SlotFlush(PredictedMeanSlot)];
      delegated := delegated + [SlotFlush(PredictedStdSlot)];
      delegated := delegated + [SlotFlush(CorrectedMeanSlot)];
      delegated := delegated + [SlotFlush(CorrectedStdSlot)];
      delegated := delegated + [SlotFlush(CrossSlot)];
    }
  }

  /**
   * A client: a predicted mean written at time index k reads back as
   * written, also after a cross-covariance has been written at k, and the
   * output buffer has received exactly those two writes, in order.
   */
  method WriteThenRead(cache: ExtendedKFCache, k: int, mu1: Vector, C: Matrix) returns (m: Vector, c: Matrix)
    modifies cache, cache.out
    ensures m == mu1 && c == C
    ensures cache.out.writes == old(cache.out.writes) + [PredictedMean(k, mu1), Cross(k, C)]
  {
    var _ := cache.WritePredictedMean(k, mu1);
    var _ := cache.WriteCross(k, C);
    m := cache.ReadPredictedMean(k);
    c := cache.ReadCross(k);
  }

  /**
   * Flushing twice leaves the slot caches as they were, and the output
   * buffer receives only what the two base flushes send, in order.
   */
  method FlushTwice(cache: ExtendedKFCache, first: seq<BufferWrite>, second: seq<BufferWrite>)
    modifies cache, cache.out
    ensures cache.Slots() == old(cache.Slots())
    ensures cache.out.writes == old(cache.out.writes) + first + second
    ensures cache.delegated == old(cache.delegated) + FlushCalls + FlushCalls
  {
    cache.Flush(first);
    cache.Flush(second);
  }
}
