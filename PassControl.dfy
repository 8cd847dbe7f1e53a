/** The statistics passes that run before the final encoding: the
    quantiser search towards a target size or PSNR (a secant search on q),
    the partition-0 overflow retry, the fast-probe macroblock count, and the
    finalization of the partitions after the encoding loop.

    float and double values are real numbers here. The macroblock visit of
    a statistics pass (mode decision, token recording and distortion, in
    OneStatPass) is a parameter: a function from the pass number, the
    quantiser, the i4 header-bit budget, the macroblock count and the token
    statistics so far to what the visit produced. */
module PassControl {
  import opened Vp8Common
  import opened Probas

  /** Convergence is reached once the quantiser step is at most DqLimit. */
  const DqLimit: real := 0.4

  /** The largest first partition VP8 can signal: its size field has 19
      bits (section 9.1 of RFC 6386). */
  const MaxPartition0Size: int := 0x8_0000

  /** The partition-0 bit budget of a pass, with 2 kilobytes of head-room. */
  const Partition0SizeLimit: int := (MaxPartition0Size - 2048) * 2048

  function Abs(x: real): real {
    if x < 0.0 then -x else x
  }

  /** The distance between two reals. */
  function Dist(a: real, b: real): real {
    Abs(a - b)
  }

  /** v limited to [lo, hi]. */
  function Clamp(v: real, lo: real, hi: real): (r: real)
    ensures lo <= hi ==> lo <= r <= hi
    ensures lo <= hi ==> (r == v <==> lo <= v <= hi)
  {
    if v < lo then lo else if v > hi then hi else v
  }

  /** Clamp picks the point of [lo, hi] nearest to v. */
  lemma ClampNearest(v: real, lo: real, hi: real, x: real)
    requires lo <= x <= hi
    ensures Dist(Clamp(v, lo, hi), v) <= Dist(x, v)
  {
  }

  /** Clamping twice to the same range is clamping once. */
  lemma ClampIdempotent(v: real, lo: real, hi: real)
    requires lo <= hi
    ensures Clamp(Clamp(v, lo, hi), lo, hi) == Clamp(v, lo, hi)
  {
  }

  /** The quantiser step ComputeNextQ takes before limiting it: on the first
      call the previous step towards the target, then the secant step
      through the last two (q, value) points, and 0 when the value did not
      move. */
  function RawDq(isFirst: bool, dq: real, q: real, lastQ: real, value: real, lastValue: real, target: real): real {
    if isFirst then (if value > target then -dq else dq)
    else if value != lastValue then (target - value) / (lastValue - value) * (lastQ - q)
    else 0.0
  }

  /** The first step moves q towards the target, which is reached by a
      lower q when the value is too large. */
  lemma FirstStepTowardsTarget(dq: real, q: real, lastQ: real, value: real, lastValue: real, target: real)
    requires dq >= 0.0
    ensures value > target ==> RawDq(true, dq, q, lastQ, value, lastValue, target) == -dq
    ensures value <= target ==> RawDq(true, dq, q, lastQ, value, lastValue, target) == dq
  {
  }

  /** The later steps follow the secant: the line through (lastQ, lastValue)
      and (q, value) reaches the target at q + RawDq. */
  lemma SecantStep(dq: real, q: real, lastQ: real, value: real, lastValue: real, target: real)
    requires value != lastValue && q != lastQ
    ensures
      var step := RawDq(false, dq, q, lastQ, value, lastValue, target);
      value + step * ((lastValue - value) / (lastQ - q)) == target
  {
    var slope := (target - value) / (lastValue - value);
    var dv, dqq := lastValue - value, lastQ - q;
    calc {
      slope * dqq * (dv / dqq);
      slope * dv * (dqq / dqq);
      { assert dqq / dqq == 1.0; }
      slope * dv;
      { assert slope * dv == (target - value) * (dv / dv); }
      target - value;
    }
  }

  /** The state of the quantiser search (PassStats). */
  class PassStats {
    var isFirst: bool
    var dq: real
    var q: real
    var lastQ: real
    var value: real        // the size or PSNR the last pass reached
    var lastValue: real
    var target: real
    var doSizeSearch: bool

    /** InitPassStats: searches on size when a target size is set, else on
        PSNR, with 40 dB when no PSNR target is set. The target size is read
        as an unsigned 64-bit number. */
    constructor InitPassStats(targetSize: int, targetPSNR: real, quality: real)
      requires -0x8000_0000 <= targetSize < 0x8000_0000
      ensures isFirst && dq == 10.0 && q == quality && lastQ == quality
      ensures value == 0.0 && lastValue == 0.0
      ensures doSizeSearch <==> targetSize != 0
      ensures target == if targetSize != 0 then (targetSize % 0x1_0000_0000_0000_0000) as real
                        else if targetPSNR > 0.0 then targetPSNR else 40.0
    {
      var size := targetSize % 0x1_0000_0000_0000_0000;
      isFirst := true;
      dq := 10.0;
      q, lastQ := quality, quality;
      target := if size != 0 then size as real else if targetPSNR > 0.0 then targetPSNR else 40.0;
      value, lastValue := 0.0, 0.0;
      doSizeSearch := size != 0;
    }

    /** One step of the search: the next quantiser step, limited to 30 either
        way, and the next quantiser, limited to [0, 100]. */
    method ComputeNextQ() returns (r: real)
      modifies this`isFirst, this`dq, this`q, this`lastQ, this`lastValue
      ensures !isFirst
      ensures dq == Clamp(RawDq(old(isFirst), old(dq), old(q), old(lastQ), old(value), old(lastValue), target), -30.0, 30.0)
      ensures -30.0 <= dq <= 30.0
      ensures !old(isFirst) && old(value) == old(lastValue) ==> dq == 0.0
      ensures lastQ == old(q) && lastValue == old(value)
      ensures q == Clamp(old(q) + dq, 0.0, 100.0) && 0.0 <= q <= 100.0
      ensures r == q
    {
      var step: real;
      if isFirst {
        step := if value > target then -dq else dq;
        isFirst := false;
      } else if value != lastValue {
        var slope := (target - value) / (lastValue - value);
        step := slope * (lastQ - q);
      } else {
        step := 0.0;
      }
      assert step == RawDq(old(isFirst), old(dq), old(q), old(lastQ), old(value), old(lastValue), target);
      dq := Clamp(step, -30.0, 30.0);
      lastQ := q;
      lastValue := value;
      q := Clamp(q + dq, 0.0, 100.0);
      r := q;
    }
  }

  // ---------------------------------------------------------------------
  // StatLoop

  /** Methods 0 and 3 without a quantiser search only probe a few
      macroblocks. */
  predicate FastProbe(encMethod: int, doSearch: bool) {
    (encMethod == 0 || encMethod == 3) && !doSearch
  }

  /** The number of macroblocks a statistics pass visits: all of them, or
      for a fast probe half (method 3) or a quarter of a picture of more
      than 200, else a fixed 100 or 50. */
  function ProbeMbs(encMethod: int, doSearch: bool, nbMbs: int): (n: int)
    ensures !FastProbe(encMethod, doSearch) ==> n == nbMbs
    ensures FastProbe(encMethod, doSearch) && nbMbs > 200 ==> 50 <= n < nbMbs
    ensures FastProbe(encMethod, doSearch) && nbMbs > 200 ==> n == if encMethod == 3 then nbMbs / 2 else nbMbs / 4
    ensures FastProbe(encMethod, doSearch) && nbMbs <= 200 ==> n == if encMethod == 3 then 100 else 50
    ensures FastProbe(encMethod, doSearch) && encMethod == 3 ==> n >= 100
  {
    if FastProbe(encMethod, doSearch) then
      if encMethod == 3 then (if nbMbs > 200 then nbMbs / 2 else 100)
      else (if nbMbs > 200 then nbMbs / 4 else 50)
    else nbMbs
  }

  /** What one statistics pass over the macroblocks produced, before the
      segment header and the finalization are added: whether it was
      cancelled, the header bits (partition 0) and all bits it spent, the
      PSNR it reached, its skip count and the token statistics, which
      accumulate over the passes. */
  datatype PassResult = PassResult(cancelled: bool, sizeP0: int, size: int, psnr: real,
                                   nbSkip: int, stats: seq<Stat>)

  /** A skip count and token statistics of the shape the finalization
      needs, for a picture of nbMbs macroblocks. */
  predicate ValidStats(nbSkip: int, stats: seq<Stat>, nbMbs: int) {
    0 <= nbSkip <= nbMbs && |stats| == NumKeys && forall k :: 0 <= k < NumKeys ==> ValidStat(stats[k])
  }

  predicate ValidPass(r: PassResult, nbMbs: int) {
    r.sizeP0 >= 0 && r.size >= 0 && ValidStats(r.nbSkip, r.stats, nbMbs)
  }

  /** The pass oracle: from the pass number, the quantiser, the i4
      header-bit budget, the number of macroblocks to visit and the token
      statistics so far, what the pass produced. */
  type PassFn = (nat, real, int, int, seq<Stat>) -> PassResult

  /** Every pass leaves statistics of the right shape. */
  ghost predicate ValidPasses(onePass: PassFn, nbMbs: int) {
    forall i, q, m, n, st :: ValidPass(onePass(i, q, m, n, st), nbMbs)
  }

  lemma PassIsValid(onePass: PassFn, nbMbs: int, i: nat, q: real, m: int, n: int, st: seq<Stat>)
    requires ValidPasses(onePass, nbMbs)
    ensures ValidPass(onePass(i, q, m, n, st), nbMbs)
  {
  }

  /** How often a positive budget can be halved before it reaches 0: its
      bit length. */
  function Halvings(m: int): (h: nat)
    ensures m > 0 ==> h >= 1
    decreases if m > 0 then m else 0
  {
    if m <= 0 then 0 else 1 + Halvings(m / 2)
  }

  /** The RIFF header (12 bytes), the VP8 chunk header (8) and the VP8
      frame header (10) that the size estimate adds. */
  const HeaderSizeEstimate: int := 12 + 8 + 10

  /** The header bits of the skip flags, as FinalizeSkipProba counts them. */
  function SkipHeaderSize(nbSkip: int, nbMbs: int, cost: CostFn): int
    requires 0 <= nbSkip <= nbMbs
  {
    var p := CalcSkipProba(nbSkip, nbMbs);
    256 + if p < SkipProbaThreshold then BranchCost(nbSkip, nbMbs, p, cost) + 8 * 256 else 0
  }

  /** The header bits of the coefficient-probability updates, as
      FinalizeTokenProbas counts them. */
  function TokenHeaderSize(stats: seq<Stat>, proba0: seq<int>, update: seq<int>, cost: CostFn): int
    requires ValidTables(stats, proba0, update)
  {
    TokenSize(stats, proba0, update, cost, |stats|)
  }

  /** The header bits the finalization of both probabilities costs. */
  function HeaderBits(nbSkip: int, nbMbs: int, stats: seq<Stat>, proba0: seq<int>, update: seq<int>, cost: CostFn): int
    requires 0 <= nbSkip <= nbMbs && ValidTables(stats, proba0, update)
  {
    SkipHeaderSize(nbSkip, nbMbs, cost) + TokenHeaderSize(stats, proba0, update, cost)
  }

  /** The size estimate of a size-search pass: the bits of the pass and of
      the probability headers, the partition-0 bits counted once more, over
      2048 and rounded to the nearest integer (halves up), plus the
      container headers. */
  function SizeEstimate(size: int, headers: int, sizeP0: int): (e: int)
    ensures size + headers + sizeP0 >= 0 ==>
      (e - HeaderSizeEstimate) * 2048 - 1024 <= size + headers + sizeP0 < (e - HeaderSizeEstimate) * 2048 + 1024
  {
    (size + headers + sizeP0 + 1024) / 2048 + HeaderSizeEstimate
  }

  /** The skip probability and the coefficient probabilities have been
      finalized from the skip count and token statistics of a picture of
      nbMbs macroblocks. */
  predicate Finalized(nbSkip: int, stats: seq<Stat>, nbMbs: int, skipProba: int, useSkipProba: bool,
                      coeffs: seq<int>, dirty: bool, proba0: seq<int>, update: seq<int>, cost: CostFn)
  {
    && ValidStats(nbSkip, stats, nbMbs) && |proba0| == NumKeys && |update| == NumKeys
    && skipProba == CalcSkipProba(nbSkip, nbMbs)
    && (useSkipProba <==> skipProba < SkipProbaThreshold)
    && coeffs == AdoptedTable(stats, proba0, update, cost)
    && (dirty <==> coeffs != proba0)
  }

  /** Finalizes both probabilities and returns the header bits they cost. */
  method FinalizeProbas(enc: Encoder, proba0: seq<int>, update: seq<int>, cost: CostFn) returns (size: int)
    requires enc.Valid() && ValidStats(enc.nbSkip, enc.stats, enc.mbW * enc.mbH) && |proba0| == NumKeys && |update| == NumKeys
    modifies enc`skipProba, enc`useSkipProba, enc`dirty, enc.coeffs
    ensures enc.Valid() && Finalized(enc.nbSkip, enc.stats, enc.mbW * enc.mbH, enc.skipProba,
                enc.useSkipProba, enc.coeffs[..], enc.dirty, proba0, update, cost)
    ensures size == HeaderBits(enc.nbSkip, enc.mbW * enc.mbH, enc.stats, proba0, update, cost)
  {
    var skipSize := enc.FinalizeSkipProba(cost);
    var tokenSize := enc.FinalizeTokenProbas(proba0, update, cost);
    size := skipSize + tokenSize;
  }

  /** The part of a pass before its estimate: the segment probabilities
      are set and the skip count cleared (SetLoopParams), then the
      macroblocks are visited, which the oracle stands for. */
  method VisitMacroblocks(enc: Encoder, q: real, onePass: PassFn, run: nat, nbMbs: int,
                          mbSegments: seq<int>, cost: CostFn)
    returns (r: PassResult)
    requires enc.Valid() && ValidPasses(onePass, enc.mbW * enc.mbH)
    requires |mbSegments| == enc.mbW * enc.mbH
    requires forall n :: 0 <= n < |mbSegments| ==> 0 <= mbSegments[n] < NumMbSegments
    modifies enc`nbSkip, enc`stats, enc`updateMap, enc`segmentHeaderSize, enc.segments
    ensures enc.Valid()
    ensures r == onePass(run, q, enc.maxI4HeaderBits, nbMbs, old(enc.stats))
    ensures enc.nbSkip == r.nbSkip && enc.stats == r.stats && ValidPass(r, enc.mbW * enc.mbH)
    ensures enc.numSegments > 1 ==> enc.segmentHeaderSize == SegmentsCost(mbSegments, enc.segments[..], cost)
    ensures enc.numSegments <= 1 ==> enc.segmentHeaderSize == 0
  {
    var _ := enc.SetSegmentProbas(mbSegments, cost);
    r := onePass(run, q, enc.maxI4HeaderBits, nbMbs, enc.stats);
    PassIsValid(onePass, enc.mbW * enc.mbH, run, q, enc.maxI4HeaderBits, nbMbs, enc.stats);
    enc.nbSkip, enc.stats := r.nbSkip, r.stats;
  }

  /** The value of a size-search pass: the probabilities are finalized and
      their header bits added to the bits of the pass for the estimate. */
  method EstimateSize(enc: Encoder, s: PassStats, size: int, sizeP0: int,
                      proba0: seq<int>, update: seq<int>, cost: CostFn)
    requires enc.Valid() && ValidStats(enc.nbSkip, enc.stats, enc.mbW * enc.mbH) && |proba0| == NumKeys && |update| == NumKeys
    modifies s`value, enc`skipProba, enc`useSkipProba, enc`dirty, enc.coeffs
    ensures enc.Valid()
    ensures Finalized(enc.nbSkip, enc.stats, enc.mbW * enc.mbH, enc.skipProba, enc.useSkipProba,
                      enc.coeffs[..], enc.dirty, proba0, update, cost)
    ensures s.value == SizeEstimate(size, HeaderBits(enc.nbSkip, enc.mbW * enc.mbH, enc.stats, proba0, update, cost), sizeP0) as real
  {
    var headers := FinalizeProbas(enc, proba0, update, cost);
    s.value := SizeEstimate(size, headers, sizeP0) as real;
  }

  /** What a pass does after visiting the macroblocks: the segment header
      is added to the partition-0 bits, and a size search finalizes the
      probabilities and takes the size estimate as the pass's value, while
      a PSNR search takes the PSNR. A cancelled pass returns 0 and sets no
      value. */
  method FinishPass(enc: Encoder, s: PassStats, r: PassResult, proba0: seq<int>, update: seq<int>, cost: CostFn)
    returns (sizeP0: int)
    requires enc.Valid() && |proba0| == NumKeys && |update| == NumKeys
    requires ValidPass(r, enc.mbW * enc.mbH) && enc.nbSkip == r.nbSkip && enc.stats == r.stats
    modifies s`value, enc`skipProba, enc`useSkipProba, enc`dirty, enc.coeffs
    ensures enc.Valid()
    ensures r.cancelled ==> sizeP0 == 0 && s.value == old(s.value)
    ensures !r.cancelled ==> sizeP0 == r.sizeP0 + enc.segmentHeaderSize
    ensures !r.cancelled && !s.doSizeSearch ==> s.value == r.psnr
    ensures !r.cancelled && s.doSizeSearch ==>
      && Finalized(enc.nbSkip, enc.stats, enc.mbW * enc.mbH, enc.skipProba, enc.useSkipProba,
                   enc.coeffs[..], enc.dirty, proba0, update, cost)
      && s.value == SizeEstimate(r.size, HeaderBits(enc.nbSkip, enc.mbW * enc.mbH, enc.stats, proba0, update, cost), sizeP0) as real
  {
    if r.cancelled {
      return 0;
    }
    sizeP0 := r.sizeP0 + enc.segmentHeaderSize;
    if s.doSizeSearch {
      EstimateSize(enc, s, r.size, sizeP0, proba0, update, cost);
    } else {
      s.value := r.psnr;
    }
  }

  /** One statistics pass (OneStatPass): the macroblocks are visited, then
      the pass is finished as FinishPass describes. The result is the
      partition-0 bits, 0 for a cancelled pass; r is what the visit
      produced. */
  method OneStatPass(enc: Encoder, s: PassStats, onePass: PassFn, run: nat, nbMbs: int,
                     mbSegments: seq<int>, proba0: seq<int>, update: seq<int>, cost: CostFn)
    returns (sizeP0: int, ghost r: PassResult)
    requires enc.Valid() && |proba0| == NumKeys && |update| == NumKeys
    requires ValidPasses(onePass, enc.mbW * enc.mbH)
    requires |mbSegments| == enc.mbW * enc.mbH
    requires forall n :: 0 <= n < |mbSegments| ==> 0 <= mbSegments[n] < NumMbSegments
    modifies s`value, enc`nbSkip, enc`stats, enc`updateMap, enc`segmentHeaderSize, enc.segments
    modifies enc`skipProba, enc`useSkipProba, enc`dirty, enc.coeffs
    ensures r == onePass(run, old(s.q), enc.maxI4HeaderBits, nbMbs, old(enc.stats))
    ensures enc.Valid() && ValidPass(r, enc.mbW * enc.mbH) && enc.nbSkip == r.nbSkip && enc.stats == r.stats
    ensures r.cancelled ==> sizeP0 == 0 && s.value == old(s.value)
    ensures !r.cancelled ==> sizeP0 == r.sizeP0 + enc.segmentHeaderSize
    ensures !r.cancelled && !s.doSizeSearch ==> s.value == r.psnr
    ensures !r.cancelled && s.doSizeSearch ==>
      && Finalized(enc.nbSkip, enc.stats, enc.mbW * enc.mbH, enc.skipProba, enc.useSkipProba,
                   enc.coeffs[..], enc.dirty, proba0, update, cost)
      && s.value == SizeEstimate(r.size, HeaderBits(enc.nbSkip, enc.mbW * enc.mbH, enc.stats, proba0, update, cost), sizeP0) as real
  {
    var res := VisitMacroblocks(enc, s.q, onePass, run, nbMbs, mbSegments, cost);
    r := res;
    sizeP0 := FinishPass(enc, s, res, proba0, update, cost);
  }

  /** The last pass of the loop was visit number run, from quantiser q,
      budget budget and statistics st, and produced last; the encoder holds
      its skip count and statistics, and ok says whether it returned any
      partition-0 bits. */
  predicate LastPass(onePass: PassFn, nbMbs: int, last: PassResult, run: nat, q: real, budget: int, st: seq<Stat>,
                     nbSkip: int, stats: seq<Stat>, segmentHeaderSize: int, ok: bool)
  {
    && last == onePass(run, q, budget, nbMbs, st)
    && nbSkip == last.nbSkip && stats == last.stats
    && (ok <==> !last.cancelled && last.sizeP0 + segmentHeaderSize != 0)
  }

  /** One pass of the loop, numbered run: OneStatPass, with what it
      produced summarised as LastPass. */
  method RunPass(enc: Encoder, s: PassStats, onePass: PassFn, run: nat, nbMbs: int,
                 mbSegments: seq<int>, proba0: seq<int>, update: seq<int>, cost: CostFn)
    returns (sizeP0: int, ghost last: PassResult, ghost q: real, ghost budget: int, ghost st: seq<Stat>)
    requires enc.Valid() && |proba0| == NumKeys && |update| == NumKeys
    requires ValidPasses(onePass, enc.mbW * enc.mbH)
    requires |mbSegments| == enc.mbW * enc.mbH
    requires forall n :: 0 <= n < |mbSegments| ==> 0 <= mbSegments[n] < NumMbSegments
    modifies s`value, enc`nbSkip, enc`stats, enc`updateMap, enc`segmentHeaderSize, enc.segments
    modifies enc`skipProba, enc`useSkipProba, enc`dirty, enc.coeffs
    ensures enc.Valid() && ValidStats(enc.nbSkip, enc.stats, enc.mbW * enc.mbH)
    ensures q == old(s.q) && budget == enc.maxI4HeaderBits && st == old(enc.stats)
    ensures LastPass(onePass, nbMbs, last, run, q, budget, st, enc.nbSkip, enc.stats, enc.segmentHeaderSize, sizeP0 != 0)
    ensures sizeP0 != 0 && s.doSizeSearch ==> Finalized(enc.nbSkip, enc.stats, enc.mbW * enc.mbH, enc.skipProba,
                enc.useSkipProba, enc.coeffs[..], enc.dirty, proba0, update, cost)
  {
    q, budget, st := s.q, enc.maxI4HeaderBits, enc.stats;
    sizeP0, last := OneStatPass(enc, s, onePass, run, nbMbs, mbSegments, proba0, update, cost);
  }

  /** RunPass, then the retry test: when the first partition came out
      above Partition0SizeLimit while the i4 header budget was positive,
      the budget is halved and retry is set. */
  method PassStep(enc: Encoder, s: PassStats, onePass: PassFn, run: nat, nbMbs: int,
                  mbSegments: seq<int>, proba0: seq<int>, update: seq<int>, cost: CostFn)
    returns (sizeP0: int, retry: bool, ghost last: PassResult, ghost q: real, ghost budget: int, ghost st: seq<Stat>)
    requires enc.Valid() && |proba0| == NumKeys && |update| == NumKeys
    requires ValidPasses(onePass, enc.mbW * enc.mbH)
    requires |mbSegments| == enc.mbW * enc.mbH
    requires forall n :: 0 <= n < |mbSegments| ==> 0 <= mbSegments[n] < NumMbSegments
    modifies s`value, enc`nbSkip, enc`stats, enc`updateMap, enc`segmentHeaderSize, enc.segments, enc`maxI4HeaderBits
    modifies enc`skipProba, enc`useSkipProba, enc`dirty, enc.coeffs
    ensures enc.Valid() && ValidStats(enc.nbSkip, enc.stats, enc.mbW * enc.mbH)
    ensures q == old(s.q) && budget == old(enc.maxI4HeaderBits) && st == old(enc.stats)
    ensures LastPass(onePass, nbMbs, last, run, q, budget, st, enc.nbSkip, enc.stats, enc.segmentHeaderSize, sizeP0 != 0)
    ensures sizeP0 != 0 && s.doSizeSearch ==> Finalized(enc.nbSkip, enc.stats, enc.mbW * enc.mbH, enc.skipProba,
                enc.useSkipProba, enc.coeffs[..], enc.dirty, proba0, update, cost)
    ensures retry <==> sizeP0 != 0 && budget > 0 && sizeP0 > Partition0SizeLimit
    ensures enc.maxI4HeaderBits == if retry then budget / 2 else budget
  {
    sizeP0, last, q, budget, st := RunPass(enc, s, onePass, run, nbMbs, mbSegments, proba0, update, cost);
    retry := sizeP0 != 0 && enc.maxI4HeaderBits > 0 && sizeP0 > Partition0SizeLimit;
    if retry {
      enc.maxI4HeaderBits := enc.maxI4HeaderBits / 2;
    }
  }

  /** The pass loop of StatLoop. Each pass is counted against the
      configured number, except one whose first partition overflowed while
      the i4 header budget was positive: the budget is halved and the pass
      retried. The loop stops after the last pass, once the quantiser step
      has converged, or when a pass returns no partition-0 bits (a
      cancelled pass, or one that spent none): ok is then false. runs is
      the number of passes made; last is what the visit of the last pass
      (number runs - 1) produced, from quantiser lastQ, budget lastBudget
      and statistics lastStats. */
  method PassLoop(enc: Encoder, s: PassStats, onePass: PassFn, passes: int, doSearch: bool, nbMbs: int,
                  mbSegments: seq<int>, proba0: seq<int>, update: seq<int>, cost: CostFn)
    returns (ok: bool, runs: nat, ghost last: PassResult, ghost lastRun: nat, ghost lastQ: real,
             ghost lastBudget: int, ghost lastStats: seq<Stat>)
    requires passes >= 1 && enc.Valid() && |proba0| == NumKeys && |update| == NumKeys
    requires ValidPasses(onePass, enc.mbW * enc.mbH)
    requires |mbSegments| == enc.mbW * enc.mbH
    requires forall n :: 0 <= n < |mbSegments| ==> 0 <= mbSegments[n] < NumMbSegments
    modifies s`isFirst, s`dq, s`q, s`lastQ, s`lastValue, s`value
    modifies enc`nbSkip, enc`stats, enc`updateMap, enc`segmentHeaderSize, enc.segments, enc`maxI4HeaderBits
    modifies enc`skipProba, enc`useSkipProba, enc`dirty, enc.coeffs
    ensures enc.Valid() && runs >= 1
    ensures runs <= passes + Halvings(old(enc.maxI4HeaderBits))
    ensures old(enc.maxI4HeaderBits) >= 0 ==> 0 <= enc.maxI4HeaderBits <= old(enc.maxI4HeaderBits)
    ensures old(enc.maxI4HeaderBits) < 0 ==> enc.maxI4HeaderBits == old(enc.maxI4HeaderBits)
    ensures ValidStats(enc.nbSkip, enc.stats, enc.mbW * enc.mbH)
    ensures lastRun == runs - 1
    ensures LastPass(onePass, nbMbs, last, lastRun, lastQ, lastBudget, lastStats,
                     enc.nbSkip, enc.stats, enc.segmentHeaderSize, ok)
    ensures ok && s.doSizeSearch ==> Finalized(enc.nbSkip, enc.stats, enc.mbW * enc.mbH, enc.skipProba,
                enc.useSkipProba, enc.coeffs[..], enc.dirty, proba0, update, cost)
  {
    var numPassLeft := passes;
    ghost var maxI4 := enc.maxI4HeaderBits;
    ghost var budget := Halvings(maxI4);
    runs := 0;
    ok := true;
    lastQ, lastBudget, lastStats := s.q, enc.maxI4HeaderBits, enc.stats;
    last := onePass(0, lastQ, lastBudget, nbMbs, lastStats);
    lastRun := 0;
    while numPassLeft > 0
      invariant enc.Valid() && 0 <= numPassLeft
      invariant budget == Halvings(enc.maxI4HeaderBits)
      invariant runs + numPassLeft + budget == passes + Halvings(maxI4)
      invariant maxI4 >= 0 ==> 0 <= enc.maxI4HeaderBits <= maxI4
      invariant maxI4 < 0 ==> enc.maxI4HeaderBits == maxI4
      invariant runs == 0 ==> numPassLeft == passes
      invariant runs > 0 ==> ValidStats(enc.nbSkip, enc.stats, enc.mbW * enc.mbH)
      invariant runs > 0 ==> lastRun == runs - 1
      invariant runs > 0 ==> LastPass(onePass, nbMbs, last, lastRun, lastQ, lastBudget, lastStats,
                                      enc.nbSkip, enc.stats, enc.segmentHeaderSize, true)
      invariant runs > 0 && s.doSizeSearch ==> Finalized(enc.nbSkip, enc.stats, enc.mbW * enc.mbH, enc.skipProba,
                enc.useSkipProba, enc.coeffs[..], enc.dirty, proba0, update, cost)
      decreases budget, numPassLeft
    {
      numPassLeft := numPassLeft - 1;
      var isLastPass := Abs(s.dq) <= DqLimit || numPassLeft == 0 || enc.maxI4HeaderBits == 0;
      lastRun := runs;
      var sizeP0;
      var retry;
      sizeP0, retry, last, lastQ, lastBudget, lastStats :=
        PassStep(enc, s, onePass, runs, nbMbs, mbSegments, proba0, update, cost);
      runs := runs + 1;
      if sizeP0 == 0 {
        ok := false;
        return;
      }
      if retry {
        numPassLeft := numPassLeft + 1;
        budget := budget - 1;
        continue;
      }
      if isLastPass {
        break;
      }
      if doSearch {
        var _ := s.ComputeNextQ();
        if Abs(s.dq) <= DqLimit {
          break;
        }
      }
    }
  }

  /** The cleared token statistics (ResetTokenStats). */
  const NoStats: seq<Stat> := seq(NumKeys, _ => 0)

  /** The part of StatLoop before the final finalization: the search
      state is initialised, the token statistics cleared and the passes
      run. sizeSearch tells whether the passes searched on size. */
  method RunPasses(enc: Encoder, encMethod: int, doSearch: bool, passes: int,
                   targetSize: int, targetPSNR: real, quality: real, onePass: PassFn,
                   mbSegments: seq<int>, proba0: seq<int>, update: seq<int>, cost: CostFn)
    returns (ok: bool, sizeSearch: bool, ghost last: PassResult, ghost lastRun: nat, ghost lastQ: real,
             ghost lastBudget: int, ghost lastStats: seq<Stat>)
    requires enc.Valid() && passes >= 1 && |proba0| == NumKeys && |update| == NumKeys
    requires -0x8000_0000 <= targetSize < 0x8000_0000
    requires ValidPasses(onePass, enc.mbW * enc.mbH)
    requires |mbSegments| == enc.mbW * enc.mbH
    requires forall n :: 0 <= n < |mbSegments| ==> 0 <= mbSegments[n] < NumMbSegments
    modifies enc`nbSkip, enc`stats, enc`updateMap, enc`segmentHeaderSize, enc.segments, enc`maxI4HeaderBits
    modifies enc`skipProba, enc`useSkipProba, enc`dirty, enc.coeffs
    ensures enc.Valid() && ValidStats(enc.nbSkip, enc.stats, enc.mbW * enc.mbH)
    ensures sizeSearch <==> targetSize != 0
    ensures LastPass(onePass, ProbeMbs(encMethod, doSearch, enc.mbW * enc.mbH), last, lastRun, lastQ, lastBudget,
                     lastStats, enc.nbSkip, enc.stats, enc.segmentHeaderSize, ok)
    ensures ok && sizeSearch ==> Finalized(enc.nbSkip, enc.stats, enc.mbW * enc.mbH, enc.skipProba,
                enc.useSkipProba, enc.coeffs[..], enc.dirty, proba0, update, cost)
  {
    var nbMbs := ProbeMbs(encMethod, doSearch, enc.mbW * enc.mbH);
    var s := new PassStats.InitPassStats(targetSize, targetPSNR, quality);
    enc.stats := NoStats;  // ResetTokenStats
    var runs;
    ok, runs, last, lastRun, lastQ, lastBudget, lastStats := PassLoop(enc, s, onePass, passes, doSearch, nbMbs,
                                                                      mbSegments, proba0, update, cost);
    sizeSearch := s.doSizeSearch;
  }

  /** The statistics passes (StatLoop): the passes run, and without a
      search, or without a target size, the probabilities are finalized
      afterwards; a size search finalized them in its last pass. The
      result is false when a pass returned no partition-0 bits; last is
      what the visit of the last pass produced, as PassLoop states. */
  method StatLoop(enc: Encoder, encMethod: int, doSearch: bool, passes: int,
                  targetSize: int, targetPSNR: real, quality: real, onePass: PassFn,
                  mbSegments: seq<int>, proba0: seq<int>, update: seq<int>, cost: CostFn)
    returns (ok: bool, ghost last: PassResult, ghost lastRun: nat, ghost lastQ: real, ghost lastBudget: int,
             ghost lastStats: seq<Stat>)
    requires enc.Valid() && passes >= 1 && |proba0| == NumKeys && |update| == NumKeys
    requires -0x8000_0000 <= targetSize < 0x8000_0000
    requires ValidPasses(onePass, enc.mbW * enc.mbH)
    requires |mbSegments| == enc.mbW * enc.mbH
    requires forall n :: 0 <= n < |mbSegments| ==> 0 <= mbSegments[n] < NumMbSegments
    modifies enc`nbSkip, enc`stats, enc`updateMap, enc`segmentHeaderSize, enc.segments, enc`maxI4HeaderBits
    modifies enc`skipProba, enc`useSkipProba, enc`dirty, enc.coeffs
    ensures LastPass(onePass, ProbeMbs(encMethod, doSearch, enc.mbW * enc.mbH), last, lastRun, lastQ, lastBudget,
                     lastStats, enc.nbSkip, enc.stats, enc.segmentHeaderSize, ok)
    ensures ok ==> Finalized(enc.nbSkip, enc.stats, enc.mbW * enc.mbH, enc.skipProba,
                enc.useSkipProba, enc.coeffs[..], enc.dirty, proba0, update, cost)
  {
    var sizeSearch;
    ok, sizeSearch, last, lastRun, lastQ, lastBudget, lastStats :=
      RunPasses(enc, encMethod, doSearch, passes, targetSize, targetPSNR, quality, onePass, mbSegments,
                proba0, update, cost);
    FinalizeIf(enc, ok && (!doSearch || !sizeSearch), proba0, update, cost);
  }

  /** FinalizeProbas when finalize is set; otherwise the probabilities stay as they are. */
  method FinalizeIf(enc: Encoder, finalize: bool, proba0: seq<int>, update: seq<int>, cost: CostFn)
    requires enc.Valid() && ValidStats(enc.nbSkip, enc.stats, enc.mbW * enc.mbH) && |proba0| == NumKeys && |update| == NumKeys
    modifies enc`skipProba, enc`useSkipProba, enc`dirty, enc.coeffs
    ensures enc.Valid()
    ensures finalize ==> Finalized(enc.nbSkip, enc.stats, enc.mbW * enc.mbH, enc.skipProba,
                enc.useSkipProba, enc.coeffs[..], enc.dirty, proba0, update, cost)
    ensures !finalize ==> enc.skipProba == old(enc.skipProba) && enc.useSkipProba == old(enc.useSkipProba)
                          && enc.coeffs[..] == old(enc.coeffs[..]) && enc.dirty == old(enc.dirty)
  {
    if finalize {
      var _ := FinalizeProbas(enc, proba0, update, cost);
    }
  }

  // ---------------------------------------------------------------------
  // PostLoopFinalize

  /** ok stays set only if every partition finished without error. */
  method FinishPartitions(ok: bool, errors: seq<bool>) returns (ok': bool)
    ensures ok' <==> ok && forall p :: 0 <= p < |errors| ==> !errors[p]
  {
    ok' := ok;
    if ok {
      for p := 0 to |errors|
        invariant ok' <==> forall j :: 0 <= j < p ==> !errors[j]
      {
        ok' := ok' && !errors[p];
      }
    }
  }

  /** The bytes needed to hold a number of bits. */
  function BytesOfBits(bits: nat): (n: nat)
    ensures n * 8 >= bits && (n - 1) * 8 < bits
  {
    (bits + 7) / 8
  }

  /** Finalizes the partitions after the encoding loop. errors holds each
      partition's error flag after it was finished; bitCount[s][i] the bits
      the macroblocks of segment s spent on plane type i. With statistics
      requested, residualBytes[i, s] receives those counts in bytes. */
  method PostLoopFinalize(ok: bool, errors: seq<bool>, hasStats: bool, bitCount: seq<seq<nat>>,
                          residualBytes: array2<int>)
    returns (ok': bool)
    requires |bitCount| == NumMbSegments && forall s :: 0 <= s < NumMbSegments ==> |bitCount[s]| == 3
    requires residualBytes.Length0 == 3 && residualBytes.Length1 == NumMbSegments
    modifies residualBytes
    ensures ok' <==> ok && forall p :: 0 <= p < |errors| ==> !errors[p]
    ensures ok' && hasStats ==> forall i, s :: 0 <= i < 3 && 0 <= s < NumMbSegments ==>
      residualBytes[i, s] == BytesOfBits(bitCount[s][i])
    ensures !(ok' && hasStats) ==> forall i, s :: 0 <= i < 3 && 0 <= s < NumMbSegments ==>
      residualBytes[i, s] == old(residualBytes[i, s])
  {
    ok' := FinishPartitions(ok, errors);
    if ok' && hasStats {
      for i := 0 to 3
        invariant forall i', s :: 0 <= i' < i && 0 <= s < NumMbSegments ==> residualBytes[i', s] == BytesOfBits(bitCount[s][i'])
      {
        for s := 0 to NumMbSegments
          invariant forall i', s' :: 0 <= i' < i && 0 <= s' < NumMbSegments ==> residualBytes[i', s'] == BytesOfBits(bitCount[s'][i'])
          invariant forall s' :: 0 <= s' < s ==> residualBytes[i, s'] == BytesOfBits(bitCount[s'][i])
        {
          residualBytes[i, s] := (bitCount[s][i] + 7) / 8;
        }
      }
    }
  }
}
