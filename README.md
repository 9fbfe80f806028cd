# LibBi filtering core: a Dafny model

This project models the core of LibBi's sequential Monte Carlo engine in
Dafny and proves properties of that model. It covers five parts:

- **Systematic resampler** (`resampler.dfy`, modules `Randoms` and
  `Resampler`). The per-particle functor maps an inclusive prefix sum of
  weights `Ws` to a cumulative offspring count `min(n, trunc(Ws / W * n + a))`.
  `cumulativeOffspring` draws one offset `a` and fills an array with that
  count for every particle. It throws the degeneracy exception when
  `W <= 0`. `ancestorsPermute` calls it with `n` equal to the ancestor
  vector's size.
- **Extended Kalman filter cache** (`kf_cache.dfy`, module `KFCache`). The
  class has five time-indexed slot caches: predicted mean, predicted
  Cholesky factor, corrected mean, corrected Cholesky factor and
  across-time covariance. Each is a `map<int, _>` whose keys are the valid
  slots. Writes allocate the slot if it is not yet valid, overwrite it, and
  forward the same value to the output buffer.
- **Filter control loop** (`filter.dfy`, module `Filters`). The loop runs
  `output0`, then `correct` and `output` at the first schedule point, then
  `step` until the cursor is one before `last`, then `term` and `outputT`.
  An exception thrown by any of these calls leaves the pass at once.
- **Filter state** (`filter_state.dfy`, module `FilterStates`). The state
  holds the path matrix, the time vector and three log-densities, with
  construction, copy, assignment, `clear` and `swap`. The path and time
  storage are objects of their own, so a shallow copy shares them.
- **Vectors and matrices** (`linalg.dfy`, module `Linalg`). These are the
  dense host vector and matrix values both of the above use.
- **Syntax-tree comparisons** (`program.dfy`, module `Program`). These are
  the six comparison operators of binary expressions and of statement
  sequences.

Modelling choices:

- **Weights are exact reals.** `static_cast<int>` is truncation toward zero
  (`Resampler.Trunc`).
- **Random generator.** It is a fixed stream of variates in [0, 1] plus a
  count of draws. `uniform(lo, hi)` returns `lo + (hi - lo) * u`.
- **Kernel calls.** The loop's calls on the filter kernel are recorded in
  order, and a kernel `step` advances the schedule cursor by exactly one.
  The calls that throw are a set that the caller supplies. A call that
  throws is recorded as made, and no later call is made. The filter
  reports the pass as thrown instead of propagating an exception value.
- **`ExtendedKFCache::operator=`.** `out` is a reference member, so
  `out = o.out` copy-assigns the buffer object it refers to. It does not
  switch buffers. The model's `out` is a `const` field, and `Assign`
  copies the contents of `o`'s buffer into this cache's own buffer.
- **Base-class calls.** Calls that `ExtendedKFCache` and `FilterState`
  hand on to their base classes, from construction and copy onwards, are
  kept in a ghost log of delegated calls.
- **Base cache flush.** `SimulatorCache` is constructed on the same output
  buffer as `ExtendedKFCache`, so its flush may write to that buffer. What
  it writes is a sequence of buffer writes that the caller supplies to
  `Flush`, `Destroy` and `FlushTwice`.
- **`-BI_INF`.** It is `NegInf` in a small extended-real datatype.
- **Leaf comparisons.** Other node kinds (`Leaf` here) compare through a
  function that the caller supplies. Their operators live in
  `Expression.hpp`, which is not part of this model. Lemmas about whole
  trees assume the matching property of that function.

Three operations of the Kalman cache do less than their header comments
in `ExtendedKFCache.hpp` say; the model follows the code:

- **`swap`** (comment at lines 139-141, "swap the contents of the cache
  with that of another"). The body at lines 359-362 only calls the base
  `SimulatorCache::swap`, so the five slot caches are not exchanged.
- **`clear`** (comment at lines 144-147, "clear cache"). The body at lines
  364-367 only calls the base `SimulatorCache::clear`, so the five slot
  caches keep their contents.
- **`empty`** (comment at lines 149-152, "empty cache"). The body at lines
  369-372 only calls the base `SimulatorCache::empty`, so the five slot
  caches keep their contents.

## Model

| member | source | states |
|---|---|---|
| Resampler.Trunc | share/src/bi/resampler/SystematicResampler.hpp:51 | the integer cast truncates toward zero: for x >= 0 the result is the largest integer not above x, for x < 0 the smallest not below it |
| Resampler.TruncMonotone | share/src/bi/resampler/SystematicResampler.hpp:51 | the truncating cast is monotone |
| Resampler.CumulativeOffspringOf | share/src/bi/resampler/SystematicResampler.hpp:34-52 | under the functor's preconditions 0 <= a <= 1, W > 0, n > 0: the count is at most n, non-negative for a non-negative prefix sum, and exactly n when the prefix sum equals W |
| Resampler.CumulativeOffspringOfMonotone | share/src/bi/resampler/SystematicResampler.hpp:51 | the functor is monotone in the prefix sum |
| Resampler.CumulativeOffspringSeq | share/src/bi/resampler/SystematicResampler.hpp:122 | applying the functor elementwise keeps the length, and every count is at most n and non-negative when the prefix sums are |
| Resampler.CumulativeOffspringMonotone | share/src/bi/resampler/SystematicResampler.hpp:122 | non-decreasing prefix sums give non-decreasing cumulative offspring |
| Resampler.LastCumulativeOffspringIsN | share/src/bi/resampler/SystematicResampler.hpp:124-128 | when W is the last prefix sum and W > 0, there is at least one particle and its last cumulative count is exactly n (the debug assertion) |
| Resampler.OffspringCountsSum | share/src/bi/resampler/SystematicResampler.hpp:122-128 | the per-particle counts (successive differences of the cumulative counts) add up to the last cumulative count |
| Resampler.OffspringCountsValid | share/src/bi/resampler/SystematicResampler.hpp:120-128 | for non-negative, non-decreasing, consistent prefix sums, every particle gets a non-negative number of offspring and the numbers total n |
| Resampler.TwoLiveParticlesExample | share/src/bi/resampler/SystematicResampler.hpp:51 | weights [1, 1, 0, 0] with n = 4 and a = 0.1 give cumulative offspring [2, 4, 4, 4], i.e. two copies of each live particle |
| Randoms.Random.Uniform | share/src/bi/resampler/SystematicResampler.hpp:121 | one draw consumes exactly one variate u of the stream and returns lo + (hi - lo) * u |
| Resampler.CumulativeOffspring | share/src/bi/resampler/SystematicResampler.hpp:111-132 | with W > 0: exactly one offset is drawn, Os holds the functor applied with that one offset to every prefix sum, and its last element is n; with W <= 0: the degeneracy outcome, no draw, Os unchanged |
| Resampler.AncestorsPermute | share/src/bi/resampler/SystematicResampler.hpp:134-142 | offspring are computed for as many draws as the ancestor vector has slots, into a vector as long as the log-weights; the degeneracy outcome passes through unchanged |
| KFCache.ExtendedKFCache.constructor | share/src/bi/cache/ExtendedKFCache.hpp:220-224 | a new cache has five empty slot caches and the given output buffer, and the base cache is constructed once |
| KFCache.ExtendedKFCache.Copy | share/src/bi/cache/ExtendedKFCache.hpp:226-231 | the copy has the same five slot caches and refers to the same output buffer, and the base cache is copy-constructed once |
| KFCache.ExtendedKFCache.Assign | share/src/bi/cache/ExtendedKFCache.hpp:233-245 | assignment delegates to the base, copies all five slot caches, and copy-assigns the referenced output buffer |
| KFCache.ExtendedKFCache.Destroy | share/src/bi/cache/ExtendedKFCache.hpp:247-250 | destruction performs a full flush: the slot caches keep their contents, the buffer receives only what the base flush sends, and the base and the five slot caches are flushed in order |
| KFCache.ExtendedKFCache.ReadPredictedMean | share/src/bi/cache/ExtendedKFCache.hpp:252-257 | a valid slot reads back its stored predicted mean |
| KFCache.ExtendedKFCache.WritePredictedMean | share/src/bi/cache/ExtendedKFCache.hpp:259-270 | the allocation branch runs exactly when the slot was not valid; afterwards slot k holds the value, the other four caches are unchanged, and the buffer received exactly this one write |
| KFCache.ExtendedKFCache.ReadPredictedStd | share/src/bi/cache/ExtendedKFCache.hpp:272-276 | a valid slot reads back its stored predicted Cholesky factor |
| KFCache.ExtendedKFCache.WritePredictedStd | share/src/bi/cache/ExtendedKFCache.hpp:278-289 | as for the predicted mean, for the predicted Cholesky factor |
| KFCache.ExtendedKFCache.ReadCorrectedMean | share/src/bi/cache/ExtendedKFCache.hpp:291-296 | a valid slot reads back its stored corrected mean |
| KFCache.ExtendedKFCache.WriteCorrectedMean | share/src/bi/cache/ExtendedKFCache.hpp:298-309 | as for the predicted mean, for the corrected mean |
| KFCache.ExtendedKFCache.ReadCorrectedStd | share/src/bi/cache/ExtendedKFCache.hpp:311-315 | a valid slot reads back its stored corrected Cholesky factor |
| KFCache.ExtendedKFCache.WriteCorrectedStd | share/src/bi/cache/ExtendedKFCache.hpp:317-328 | as for the predicted mean, for the corrected Cholesky factor |
| KFCache.ExtendedKFCache.ReadCross | share/src/bi/cache/ExtendedKFCache.hpp:330-334 | a valid slot reads back its stored across-time covariance |
| KFCache.ExtendedKFCache.WriteCross | share/src/bi/cache/ExtendedKFCache.hpp:336-346 | as for the predicted mean, for the across-time covariance |
| KFCache.ExtendedKFCache.WriteLL | share/src/bi/cache/ExtendedKFCache.hpp:348-351 | the log-likelihood goes straight to the buffer and no cache is touched |
| KFCache.ExtendedKFCache.Swap | share/src/bi/cache/ExtendedKFCache.hpp:359-362 | swap only delegates to the base cache; the five slot caches are unchanged |
| KFCache.ExtendedKFCache.Clear | share/src/bi/cache/ExtendedKFCache.hpp:364-367 | clear only delegates to the base cache; the five slot caches are unchanged |
| KFCache.ExtendedKFCache.Empty | share/src/bi/cache/ExtendedKFCache.hpp:369-372 | empty only delegates to the base cache; the five slot caches are unchanged |
| KFCache.ExtendedKFCache.Flush | share/src/bi/cache/ExtendedKFCache.hpp:374-382 | flush hands on to the base cache first and then to each slot cache in order; the slot caches keep their contents, and the shared buffer receives exactly what the base flush sends, nothing from the slot caches |
| KFCache.WriteThenRead | share/src/bi/cache/ExtendedKFCache.hpp:252-270 | the predicted mean read back at k is the one written, also after a cross-covariance is written at k; the cross-covariance reads back as written; the buffer saw each write once, in order |
| KFCache.FlushTwice | share/src/bi/cache/ExtendedKFCache.hpp:374-382 | two flushes leave the slot caches as they were; the buffer receives only what the two base flushes send, in order, and the delegated calls are two full flush sequences |
| Filters.StepCallsAt | share/src/bi/filter/Filter.hpp:57-59 | the loop steps once at every cursor position from first to last - 2, in order |
| Filters.FilterCallsShape | share/src/bi/filter/Filter.hpp:53-61 | a pass is output0, correct and output at the first point, one step per position before the last, then term and outputT |
| Filters.FilterCallsOnce | share/src/bi/filter/Filter.hpp:53-61 | output0, correct, term and outputT each occur exactly once and at their places, and there are exactly (last - first) - 1 steps |
| Filters.OnePointSchedule | share/src/bi/filter/Filter.hpp:53-61 | a one-point schedule gives output0, correct, output, term, outputT and no step |
| Filters.Filter.Step | share/src/bi/filter/Filter.hpp:58 | a kernel step is recorded, reports whether it threw, and advances the cursor by exactly one |
| Filters.AttemptShape | share/src/bi/filter/Filter.hpp:53-61 | calls attempted in order, with an exception leaving at once, make a prefix of the attempted calls: all of them when none throws, otherwise a non-empty prefix whose last call, and only that one, throws |
| Filters.ThrownPassEndsEarly | share/src/bi/filter/Filter.hpp:53-61 | if any call before term (output0, correct, output or a step, at index j of the pass) throws, the calls made include neither term nor outputT, whatever term and outputT would do |
| Filters.Filter.Filter | share/src/bi/filter/Filter.hpp:49-62 | on a non-empty schedule range, the loop terminates having made the calls of a pass, in order, up to and including the first call that throws; it completes exactly when no call throws. The range must be non-empty: on an empty range the source dereferences `*first` (line 55), and its exit test `iter + 1 != last` (line 57) never becomes false |
| Filters.Filter.Run | share/src/bi/filter/Filter.hpp:53-61 | the body of filter, against any sequence laid out as the pass over [first, last): the calls made are the attempted prefix of that pass, and the outcome is completed exactly when none of its calls throws |
| Filters.CompletePass | share/src/bi/filter/Filter.hpp:49-62 | when no kernel call throws, a pass makes exactly the calls of FilterCalls |
| FilterStates.FilterState.constructor | share/src/bi/state/FilterState.hpp:97-102 | the path is fresh (NR + ND) x T storage, the times vector is fresh storage of length T, log-prior and log-proposal are negative infinity, the log-likelihood is zero, and the base state is constructed |
| FilterStates.FilterState.Copy | share/src/bi/state/FilterState.hpp:104-109 | a shallow copy: it shares o's path and times storage, has the same three log-densities, and copy-constructs the base state |
| FilterStates.FilterState.Assign | share/src/bi/state/FilterState.hpp:111-122 | assignment hands on to the base state, copies o's path and times contents into this state's own storage, which stays in place, and takes o's three log-densities |
| FilterStates.FilterState.Clear | share/src/bi/state/FilterState.hpp:124-130 | clear hands on to the base state, restores the three log-densities to their initial values, and leaves path and times alone |
| FilterStates.FilterState.Swap | share/src/bi/state/FilterState.hpp:132-138 | swap hands on to the base state, exchanges the three log-densities, and exchanges neither path nor times |
| FilterStates.CopySharesPath | share/src/bi/state/FilterState.hpp:31-34 | a path written through a shallow copy is the original's path too |
| FilterStates.AssignCopiesContents | share/src/bi/state/FilterState.hpp:111-122 | after assignment between states with separate storage, a path written through the assigned state is not seen by the state it came from, and the times contents are o's |
| FilterStates.SwapTwice | share/src/bi/state/FilterState.hpp:132-138 | swapping twice gives both states back their own log-densities |
| FilterStates.ClearFresh | share/src/bi/state/FilterState.hpp:97-102 | clearing a freshly constructed state leaves it as constructed: the defaults of clear are those of construction |
| Program.BinaryCompare | share/src/bi/program/BinaryExpression.hpp:72-124 | against a non-binary node only != holds; against a binary node the ordering operators and == need equal operators and the same comparison on both operands, and differing operators make != true |
| Program.SequenceCompare | share/src/bi/program/Sequence.hpp:65-117 | against a non-sequence node only != holds; against a sequence the ordering operators and == compare heads and tails componentwise, and != holds iff heads or tails compare != |
| Program.NeIsNotEq | share/src/bi/program/BinaryExpression.hpp:108-124 | if != is the negation of == on leaves, it is on whole trees of binary expressions and sequences |
| Program.EqReflexive | share/src/bi/program/Sequence.hpp:101-108 | if every leaf is == to itself, so is every tree |
| Program.EqIsIdentity | share/src/bi/program/BinaryExpression.hpp:108-115 | if == on leaves is identity, == on trees holds exactly for structurally equal trees |
| Program.StrictIrreflexive | share/src/bi/program/BinaryExpression.hpp:72-97 | if no leaf is < (or >) itself, no tree is |
| Program.StrictImpliesWeak | share/src/bi/program/Sequence.hpp:65-99 | if < implies <= (and > implies >=) on leaves, it does on trees |

## Left out

- The base classes `SimulatorCache` and `State` are not part of this model.
  The calls handed on to them are recorded in ghost logs of delegated
  calls. Apart from the base flush's writes to the output buffer, which
  the caller supplies, they are taken to change none of the modelled
  fields. In particular, the base cache's assignment, swap, clear and
  empty are taken not to write to the output buffer.
- `CacheObject`'s own flush is recorded as a delegated call; the slot maps
  keep their contents (its effect on validity is not shown).
- `readPath` of the Kalman cache has an empty body and is not modelled.
- `cumulativeOffspringToAncestorsPermute` (the expansion of offspring
  counts into ancestor indices) is not part of this model, so
  `AncestorsPermute` does not write the ancestor vector.
- Resampler.AncestorsPermute: does not state the ancestor vector's contents, since the expansion that writes it is not modelled.
- The computation of `W` and `Ws` belongs to the scan resampler base and is
  a precondition (`Consistent`) rather than modelled.
- Boost serialization `save`/`load` in both the cache and the filter state
  is left out: it is a foreign archive format.
- The kernel's `correct`, `output`, `step`, `term` and output calls are
  recorded by name and schedule position only, with whether they throw.
  What they do to the state and the output buffer is the kernel's, not the
  loop's. Which exception is thrown is not modelled.
- The random generator's argument to `filter` and the state and output
  arguments are not modelled, for the same reason.
- Randoms.Random.Uniform: does not promise `lo <= x <= hi`; the caller derives the bound on `a` from the stream itself.
- Floating-point rounding, 32-bit overflow of the integer cast and the
  host/device location templates are left out; weights are exact reals.
- The path matrix and time vector are zero-filled at construction, where
  the source leaves their contents uninitialised; only their sizes are
  stated.
- The comparison operators of other node kinds (`Conditional` and those in
  `Expression.hpp`) are not part of this model; they enter as the leaf
  comparison function.
