/** Probability estimation between coding passes: the skip probability,
    the coefficient-probability updates (section 13.4 of RFC 6386) and the
    segment-tree probabilities (section 9.3 of RFC 6386).

    VP8BitCost, the cost in 1/256 bit of coding a bit with a probability,
    is a parameter: any function to the naturals. VP8CoeffsProba0 and
    VP8CoeffsUpdateProba are parameters too: tables of NumKeys entries in
    the flat layout of Vp8Common. */
module Probas {
  import opened Vp8Common
  import opened Arith

  /** VP8BitCost(bit, proba). */
  type CostFn = (int, int) -> nat

  const SkipProbaThreshold: int := 250

  // ---------------------------------------------------------------------
  // Counting probabilities

  /** The probability of a 0 event after nb ones out of total events,
      scaled to 255 and rounded down; 255 when nothing was counted. */
  function CalcSkipProba(nb: int, total: int): (p: int)
    requires 0 <= nb <= total
    ensures 0 <= p <= 255
    ensures total == 0 ==> p == 255
    ensures total > 0 ==> p * total <= (total - nb) * 255 < (p + 1) * total
  {
    if total != 0 then
      MulMonotone(total, total - nb, 255);
      DivBounds((total - nb) * 255, total);
      DivBelow((total - nb) * 255, total, 256);
      (total - nb) * 255 / total
    else 255
  }

  /** The token probability from nb ones out of total events: 255 minus
      the scaled share of ones, rounded down; 255 when no one was seen. */
  function CalcTokenProba(nb: int, total: int): (p: int)
    requires 0 <= nb <= total
    ensures 0 <= p <= 255
    ensures nb == 0 ==> p == 255
    ensures nb > 0 ==> (255 - p) * total <= nb * 255 < (256 - p) * total
  {
    if nb != 0 then
      MulMonotone(total, nb, 255);
      DivBounds(nb * 255, total);
      DivBelow(nb * 255, total, 256);
      255 - nb * 255 / total
    else 255
  }

  /** More ones never raise the token probability. */
  lemma TokenProbaMonotone(nb1: int, nb2: int, total: int)
    requires 0 <= nb1 <= nb2 <= total
    ensures CalcTokenProba(nb2, total) <= CalcTokenProba(nb1, total)
  {
    if nb1 > 0 {
      MulMonotone(nb2, nb1, 255);
      DivMonotone(nb1 * 255, nb2 * 255, total);
    }
  }

  /** The token probability is 0 exactly when every counted event was a
      one. */
  lemma TokenProbaZero(nb: int, total: int)
    requires 0 <= nb <= total
    ensures CalcTokenProba(nb, total) == 0 <==> nb > 0 && nb == total
  {
  }

  /** More skipped macroblocks never raise the skip probability. */
  lemma SkipProbaMonotone(nb1: int, nb2: int, total: int)
    requires 0 <= nb1 <= nb2 <= total
    ensures CalcSkipProba(nb2, total) <= CalcSkipProba(nb1, total)
  {
    if total > 0 {
      MulMonotone(total - nb1, total - nb2, 255);
      DivMonotone((total - nb2) * 255, (total - nb1) * 255, total);
    }
  }

  // ---------------------------------------------------------------------
  // Costs

  /** The cost of coding nb ones and total - nb zeros with one probability. */
  function BranchCost(nb: int, total: int, proba: int, cost: CostFn): (c: int)
    requires 0 <= nb <= total
    ensures c >= 0
  {
    nb * cost(1, proba) + (total - nb) * cost(0, proba)
  }

  /** The number of ones among the events. */
  function Ones(bits: seq<bool>): (n: nat)
    ensures n <= |bits|
  {
    if bits == [] then 0 else (if bits[0] then 1 else 0) + Ones(bits[1..])
  }

  /** The cost of coding the events one by one. */
  function EventsCost(bits: seq<bool>, proba: int, cost: CostFn): nat {
    if bits == [] then 0 else cost(if bits[0] then 1 else 0, proba) + EventsCost(bits[1..], proba, cost)
  }

  /** BranchCost is the cost of coding any sequence of events with that
      many ones, in any order. */
  lemma {:induction false} BranchCostOfEvents(bits: seq<bool>, proba: int, cost: CostFn)
    ensures EventsCost(bits, proba, cost) == BranchCost(Ones(bits), |bits|, proba, cost)
  {
    if bits != [] {
      BranchCostOfEvents(bits[1..], proba, cost);
      var nb, t := Ones(bits[1..]), |bits| - 1;
      var c1, c0 := cost(1, proba), cost(0, proba);
      if bits[0] {
        Distribute(nb, 1, c1);
      } else {
        Distribute(t - nb, 1, c0);
      }
    }
  }

  // ---------------------------------------------------------------------
  // Token probability updates

  /** A stats_ entry is an unsigned 32-bit word. */
  newtype Stat = x: int | 0 <= x < 0x1_0000_0000

  /** The number of ones, in the low 16 bits of a stats_ entry. */
  function Nb(stat: Stat): int {
    stat as int % 0x1_0000
  }

  /** The number of events, in the high 16 bits of a stats_ entry. */
  function Total(stat: Stat): int {
    stat as int / 0x1_0000 % 0x1_0000
  }

  predicate ValidStat(stat: Stat) {
    Nb(stat) <= Total(stat)
  }

  /** The cost of keeping the default probability p0: its events plus the
      "no update" flag. */
  function OldCost(stat: Stat, p0: int, update: int, cost: CostFn): int
    requires ValidStat(stat)
  {
    BranchCost(Nb(stat), Total(stat), p0, cost) + cost(0, update)
  }

  /** The cost of sending the counted probability: its events, the
      "update" flag and the 8-bit value. */
  function NewCost(stat: Stat, update: int, cost: CostFn): int
    requires ValidStat(stat)
  {
    BranchCost(Nb(stat), Total(stat), CalcTokenProba(Nb(stat), Total(stat)), cost) + cost(1, update) + 8 * 256
  }

  /** The counted probability is adopted only when strictly cheaper. */
  predicate UseNew(stat: Stat, p0: int, update: int, cost: CostFn)
    requires ValidStat(stat)
  {
    OldCost(stat, p0, update, cost) > NewCost(stat, update, cost)
  }

  /** The probability an entry ends up with. */
  function Adopted(stat: Stat, p0: int, update: int, cost: CostFn): (p: int)
    requires ValidStat(stat)
    ensures UseNew(stat, p0, update, cost) ==> p == CalcTokenProba(Nb(stat), Total(stat))
    ensures !UseNew(stat, p0, update, cost) ==> p == p0
  {
    if UseNew(stat, p0, update, cost) then CalcTokenProba(Nb(stat), Total(stat)) else p0
  }

  /** The header bits one entry costs: its update flag, plus 8 bits when the
      new value is sent. */
  function EntrySize(stat: Stat, p0: int, update: int, cost: CostFn): int
    requires ValidStat(stat)
  {
    if UseNew(stat, p0, update, cost) then cost(1, update) + 8 * 256 else cost(0, update)
  }

  predicate ValidTables(stats: seq<Stat>, proba0: seq<int>, update: seq<int>) {
    && |stats| == NumKeys && |proba0| == NumKeys && |update| == NumKeys
    && (forall k :: 0 <= k < NumKeys ==> ValidStat(stats[k]))
  }

  /** The header bits of the first n entries. */
  function TokenSize(stats: seq<Stat>, proba0: seq<int>, update: seq<int>, cost: CostFn, n: int): int
    requires ValidTables(stats, proba0, update) && 0 <= n <= NumKeys
    decreases n
  {
    if n == 0 then 0
    else TokenSize(stats, proba0, update, cost, n - 1) + EntrySize(stats[n - 1], proba0[n - 1], update[n - 1], cost)
  }

  /** The number of entries whose counted probability is adopted among the
      first n. */
  function AdoptedCount(stats: seq<Stat>, proba0: seq<int>, update: seq<int>, cost: CostFn, n: int): nat
    requires ValidTables(stats, proba0, update) && 0 <= n <= NumKeys
    decreases n
  {
    if n == 0 then 0
    else
      var used := if UseNew(stats[n - 1], proba0[n - 1], update[n - 1], cost) then 1 else 0;
      AdoptedCount(stats, proba0, update, cost, n - 1) + used
  }

  /** Each adopted entry costs at least its 8-bit value. */
  lemma {:induction false} TokenSizeBound(stats: seq<Stat>, proba0: seq<int>, update: seq<int>, cost: CostFn, n: int)
    requires ValidTables(stats, proba0, update) && 0 <= n <= NumKeys
    ensures TokenSize(stats, proba0, update, cost, n) >= 8 * 256 * AdoptedCount(stats, proba0, update, cost, n)
    decreases n
  {
    if n > 0 {
      TokenSizeBound(stats, proba0, update, cost, n - 1);
    }
  }

  /** The probability table after the updates. */
  function AdoptedTable(stats: seq<Stat>, proba0: seq<int>, update: seq<int>, cost: CostFn): (t: seq<int>)
    requires ValidTables(stats, proba0, update)
    ensures |t| == NumKeys
  {
    seq(NumKeys, k requires 0 <= k < NumKeys => Adopted(stats[k], proba0[k], update[k], cost))
  }

  /** The table after the updates differs from the defaults exactly when
      some adopted counted probability differs from its default. */
  lemma AdoptedTableChanged(stats: seq<Stat>, proba0: seq<int>, update: seq<int>, cost: CostFn)
    requires ValidTables(stats, proba0, update)
    ensures AdoptedTable(stats, proba0, update, cost) != proba0 <==>
      exists k :: 0 <= k < NumKeys && UseNew(stats[k], proba0[k], update[k], cost) &&
        CalcTokenProba(Nb(stats[k]), Total(stats[k])) != proba0[k]
  {
    var t := AdoptedTable(stats, proba0, update, cost);
    if t != proba0 {
      var k :| 0 <= k < NumKeys && t[k] != proba0[k];
      assert UseNew(stats[k], proba0[k], update[k], cost);
    }
  }

  /** Every entry of the table after the updates is a probability whenever
      the defaults are. */
  lemma AdoptedTableIsProba(stats: seq<Stat>, proba0: seq<int>, update: seq<int>, cost: CostFn)
    requires ValidTables(stats, proba0, update) && forall k :: 0 <= k < NumKeys ==> IsProba(proba0[k])
    ensures forall k :: 0 <= k < NumKeys ==> IsProba(AdoptedTable(stats, proba0, update, cost)[k])
  {
  }

  /** The first k entries of co have been finalized: each holds its
      adopted probability, size is the header bits they cost, and hasChanged
      says whether one of them differs from its default. */
  predicate TokensDone(co: seq<int>, stats: seq<Stat>, proba0: seq<int>, update: seq<int>, cost: CostFn,
                       k: int, size: int, hasChanged: bool)
  {
    && ValidTables(stats, proba0, update) && |co| == NumKeys && 0 <= k <= NumKeys
    && co[..k] == AdoptedTable(stats, proba0, update, cost)[..k]
    && size == TokenSize(stats, proba0, update, cost, k)
    && (hasChanged <==> co[..k] != proba0[..k])
  }

  /** Finalizing entry k extends the finalized prefix by one. */
  lemma TokensDoneStep(co: seq<int>, stats: seq<Stat>, proba0: seq<int>, update: seq<int>, cost: CostFn,
                       k: int, size: int, hasChanged: bool)
    requires TokensDone(co, stats, proba0, update, cost, k, size, hasChanged) && k < NumKeys
    ensures
      var v := Adopted(stats[k], proba0[k], update[k], cost);
      TokensDone(co[k := v], stats, proba0, update, cost, k + 1,
                 size + EntrySize(stats[k], proba0[k], update[k], cost), hasChanged || v != proba0[k])
  {
    var v := Adopted(stats[k], proba0[k], update[k], cost);
    var co', t := co[k := v], AdoptedTable(stats, proba0, update, cost);
    assert co'[..k + 1] == co[..k] + [v];
    assert t[..k + 1] == t[..k] + [v];
    assert proba0[..k + 1] == proba0[..k] + [proba0[k]];
  }

  // ---------------------------------------------------------------------
  // Segment probabilities

  /** The probability of the left branch after a left and b right events,
      rounded to nearest; 255 when nothing was counted. */
  function GetProba(a: int, b: int): (p: int)
    requires a >= 0 && b >= 0
    ensures 0 <= p <= 255
    ensures a + b == 0 ==> p == 255
    ensures a + b > 0 ==> p * (a + b) <= 255 * a + (a + b) / 2 < (p + 1) * (a + b)
  {
    var total := a + b;
    if total == 0 then 255
    else
      MulMonotone(total, a, 255);
      DivBounds(255 * a + total / 2, total);
      DivBelow(255 * a + total / 2, total, 256);
      (255 * a + total / 2) / total
  }

  /** A branch never taken to the right gets probability 255, one never
      taken to the left 0. */
  lemma GetProbaExtremes(a: int, b: int)
    requires a >= 0 && b >= 0
    ensures b == 0 ==> GetProba(a, b) == 255
    ensures a == 0 && b > 0 ==> GetProba(a, b) == 0
  {
    if b == 0 && a > 0 {
      DivModUnique(255 * a + a / 2, a, 255, a / 2);
    } else if a == 0 && b > 0 {
      DivModUnique(b / 2, b, 0, b / 2);
    }
  }

  /** The cost of coding one macroblock's segment id on the segment tree:
      the root chooses {0, 1} or {2, 3}, then one of the two leaves. */
  function SegmentCost(s: int, probas: seq<int>, cost: CostFn): nat
    requires 0 <= s < NumMbSegments && |probas| == 3
  {
    if s < 2 then cost(0, probas[0]) + cost(s, probas[1]) else cost(1, probas[0]) + cost(s - 2, probas[2])
  }

  /** The cost of coding every macroblock's segment id. */
  function SegmentsCost(segs: seq<int>, probas: seq<int>, cost: CostFn): nat
    requires |probas| == 3 && forall n :: 0 <= n < |segs| ==> 0 <= segs[n] < NumMbSegments
  {
    if segs == [] then 0 else SegmentCost(segs[0], probas, cost) + SegmentsCost(segs[1..], probas, cost)
  }

  /** The segment header size from the per-segment macroblock counts. */
  function SegmentHeaderSize(p: seq<int>, probas: seq<int>, cost: CostFn): int
    requires |p| == NumMbSegments && |probas| == 3
  {
    p[0] * (cost(0, probas[0]) + cost(0, probas[1])) +
    p[1] * (cost(0, probas[0]) + cost(1, probas[1])) +
    p[2] * (cost(1, probas[0]) + cost(0, probas[2])) +
    p[3] * (cost(1, probas[0]) + cost(1, probas[2]))
  }

  /** The number of macroblocks in each segment. */
  function SegmentCounts(segs: seq<int>): (p: seq<int>)
    ensures |p| == NumMbSegments
  {
    [multiset(segs)[0], multiset(segs)[1], multiset(segs)[2], multiset(segs)[3]]
  }

  /** Prepending one macroblock adds one to its segment's count. */
  lemma SegmentCountsCons(s: int, rest: seq<int>)
    requires 0 <= s < NumMbSegments
    ensures SegmentCounts([s] + rest) == SegmentCounts(rest)[s := SegmentCounts(rest)[s] + 1]
  {
    assert multiset([s] + rest) == multiset{s} + multiset(rest);
  }

  /** Appending one macroblock adds one to its segment's count. */
  lemma SegmentCountsSnoc(init: seq<int>, s: int)
    requires 0 <= s < NumMbSegments
    ensures SegmentCounts(init + [s]) == SegmentCounts(init)[s := SegmentCounts(init)[s] + 1]
  {
    assert multiset(init + [s]) == multiset(init) + multiset{s};
  }

  /** One more macroblock in segment s adds the cost of coding s. */
  lemma SegmentHeaderSizeStep(p: seq<int>, s: int, probas: seq<int>, cost: CostFn)
    requires |p| == NumMbSegments && |probas| == 3 && 0 <= s < NumMbSegments
    ensures SegmentHeaderSize(p[s := p[s] + 1], probas, cost) == SegmentHeaderSize(p, probas, cost) + SegmentCost(s, probas, cost)
  {
    var x := if s < 2 then cost(0, probas[0]) + cost(s, probas[1]) else cost(1, probas[0]) + cost(s - 2, probas[2]);
    Distribute(p[s], 1, x);
  }

  /** The first macroblock of segs contributes the cost of coding its
      segment id. */
  lemma SegmentHeaderSizeFirst(segs: seq<int>, probas: seq<int>, cost: CostFn)
    requires |probas| == 3 && segs != [] && forall n :: 0 <= n < |segs| ==> 0 <= segs[n] < NumMbSegments
    ensures SegmentHeaderSize(SegmentCounts(segs), probas, cost) ==
      SegmentHeaderSize(SegmentCounts(segs[1..]), probas, cost) + SegmentCost(segs[0], probas, cost)
  {
    assert segs == [segs[0]] + segs[1..];
    SegmentCountsCons(segs[0], segs[1..]);
    SegmentHeaderSizeStep(SegmentCounts(segs[1..]), segs[0], probas, cost);
  }

  /** The size computed from the counts is the cost of coding every
      macroblock's segment id. */
  lemma {:induction false} SegmentHeaderSizeIsCost(segs: seq<int>, probas: seq<int>, cost: CostFn)
    requires |probas| == 3 && forall n :: 0 <= n < |segs| ==> 0 <= segs[n] < NumMbSegments
    ensures SegmentHeaderSize(SegmentCounts(segs), probas, cost) == SegmentsCost(segs, probas, cost)
  {
    if segs != [] {
      SegmentHeaderSizeIsCost(segs[1..], probas, cost);
      SegmentHeaderSizeFirst(segs, probas, cost);
    }
  }

  /** Counts the macroblocks of each segment. */
  method CountSegments(mbSegments: seq<int>) returns (p: seq<int>)
    requires forall n :: 0 <= n < |mbSegments| ==> 0 <= mbSegments[n] < NumMbSegments
    ensures p == SegmentCounts(mbSegments)
  {
    p := [0, 0, 0, 0];
    for n := 0 to |mbSegments|
      invariant p == SegmentCounts(mbSegments[..n])
    {
      var s := mbSegments[n];
      assert mbSegments[..n + 1] == mbSegments[..n] + [s];
      SegmentCountsSnoc(mbSegments[..n], s);
      p := p[s := p[s] + 1];
    }
    assert mbSegments[..|mbSegments|] == mbSegments;
  }

  // ---------------------------------------------------------------------
  // The encoder's probability state

  /** The fields of VP8Encoder and its VP8EncProba that the estimators read
      and write. */
  class Encoder {
    var coeffs: array<int>       // proba_.coeffs_, flat
    var stats: seq<Stat>         // proba_.stats_, flat; read only here
    var segments: array<int>     // proba_.segments_
    var nbSkip: int              // proba_.nb_skip_
    var skipProba: int           // proba_.skip_proba_
    var useSkipProba: bool       // proba_.use_skip_proba_
    var dirty: bool              // proba_.dirty_
    var numSegments: int         // segment_hdr_.num_segments_
    var updateMap: bool          // segment_hdr_.update_map_
    var segmentHeaderSize: int   // segment_hdr_.size_
    var maxI4HeaderBits: int     // max_i4_header_bits_
    var mbW: int
    var mbH: int

    predicate Valid()
      reads this`coeffs, this`stats, this`segments, this`mbW, this`mbH
    {
      coeffs.Length == NumKeys && |stats| == NumKeys && segments.Length == 3 && coeffs != segments
      && mbW >= 0 && mbH >= 0
    }

    /** Sets the skip probability from the skip count and returns the
        header bits the skip flags cost. */
    method FinalizeSkipProba(cost: CostFn) returns (size: int)
      requires Valid() && 0 <= nbSkip <= mbW * mbH
      modifies this`skipProba, this`useSkipProba
      ensures Valid()
      ensures skipProba == CalcSkipProba(nbSkip, mbW * mbH)
      ensures useSkipProba <==> skipProba < SkipProbaThreshold
      ensures size == 256 + if useSkipProba then BranchCost(nbSkip, mbW * mbH, skipProba, cost) + 8 * 256 else 0
    {
      var nbMbs := mbW * mbH;
      var nbEvents := nbSkip;
      skipProba := CalcSkipProba(nbEvents, nbMbs);
      useSkipProba := skipProba < SkipProbaThreshold;
      size := 256;
      if useSkipProba {
        size := size + nbEvents * cost(1, skipProba) + (nbMbs - nbEvents) * cost(0, skipProba);
        size := size + 8 * 256;
      }
    }

    /** One entry of FinalizeTokenProbas. */
    method FinalizeEntry(proba0: seq<int>, update: seq<int>, cost: CostFn, k: int, size: int, hasChanged: bool)
      returns (size': int, hasChanged': bool)
      requires Valid() && TokensDone(coeffs[..], stats, proba0, update, cost, k, size, hasChanged) && k < NumKeys
      modifies coeffs
      ensures TokensDone(coeffs[..], stats, proba0, update, cost, k + 1, size', hasChanged')
    {
      ghost var co := coeffs[..];
      var stat := stats[k];
      var nb, total := Nb(stat), Total(stat);
      var updateProba, oldP := update[k], proba0[k];
      var newP := CalcTokenProba(nb, total);
      var oldCost := BranchCost(nb, total, oldP, cost) + cost(0, updateProba);
      var newCost := BranchCost(nb, total, newP, cost) + cost(1, updateProba) + 8 * 256;
      var useNewP := oldCost > newCost;
      assert useNewP == UseNew(stat, oldP, updateProba, cost);
      size' := size + cost(if useNewP then 1 else 0, updateProba);
      hasChanged' := hasChanged;
      if useNewP {
        coeffs[k] := newP;
        hasChanged' := hasChanged' || newP != oldP;
        size' := size' + 8 * 256;
      } else {
        coeffs[k] := oldP;
      }
      assert coeffs[..] == co[k := Adopted(stat, oldP, updateProba, cost)];
      TokensDoneStep(co, stats, proba0, update, cost, k, size, hasChanged);
    }

    /** The NumProbas entries of one (type, band, context) row. */
    method FinalizeRow(proba0: seq<int>, update: seq<int>, cost: CostFn, t: int, b: int, c: int, size: int, hasChanged: bool)
      returns (size': int, hasChanged': bool)
      requires 0 <= t < NumTypes && 0 <= b < NumBands && 0 <= c < NumCtx
      requires Valid() && TokensDone(coeffs[..], stats, proba0, update, cost, Key(t, b, c, 0), size, hasChanged)
      modifies coeffs
      ensures TokensDone(coeffs[..], stats, proba0, update, cost, Key(t, b, c, 0) + NumProbas, size', hasChanged')
    {
      size', hasChanged' := size, hasChanged;
      for p := 0 to NumProbas
        invariant TokensDone(coeffs[..], stats, proba0, update, cost, t * 264 + b * 33 + c * 11 + p, size', hasChanged')
      {
        size', hasChanged' := FinalizeEntry(proba0, update, cost, Key(t, b, c, p), size', hasChanged');
      }
    }

    /** The rows of one (type, band). */
    method FinalizeBand(proba0: seq<int>, update: seq<int>, cost: CostFn, t: int, b: int, size: int, hasChanged: bool)
      returns (size': int, hasChanged': bool)
      requires 0 <= t < NumTypes && 0 <= b < NumBands
      requires Valid() && TokensDone(coeffs[..], stats, proba0, update, cost, t * 264 + b * 33, size, hasChanged)
      modifies coeffs
      ensures TokensDone(coeffs[..], stats, proba0, update, cost, t * 264 + b * 33 + 33, size', hasChanged')
    {
      size', hasChanged' := size, hasChanged;
      for c := 0 to NumCtx
        invariant TokensDone(coeffs[..], stats, proba0, update, cost, t * 264 + b * 33 + c * 11, size', hasChanged')
      {
        size', hasChanged' := FinalizeRow(proba0, update, cost, t, b, c, size', hasChanged');
      }
    }

    /** The bands of one coefficient type. */
    method FinalizeType(proba0: seq<int>, update: seq<int>, cost: CostFn, t: int, size: int, hasChanged: bool)
      returns (size': int, hasChanged': bool)
      requires 0 <= t < NumTypes
      requires Valid() && TokensDone(coeffs[..], stats, proba0, update, cost, t * 264, size, hasChanged)
      modifies coeffs
      ensures TokensDone(coeffs[..], stats, proba0, update, cost, t * 264 + 264, size', hasChanged')
    {
      size', hasChanged' := size, hasChanged;
      for b := 0 to NumBands
        invariant TokensDone(coeffs[..], stats, proba0, update, cost, t * 264 + b * 33, size', hasChanged')
      {
        size', hasChanged' := FinalizeBand(proba0, update, cost, t, b, size', hasChanged');
      }
    }

    /** Keeps or replaces every coefficient probability, sets dirty_ and
        returns the header bits of the probability updates. */
    method FinalizeTokenProbas(proba0: seq<int>, update: seq<int>, cost: CostFn) returns (size: int)
      requires Valid() && ValidTables(stats, proba0, update)
      modifies this`dirty, coeffs
      ensures coeffs[..] == AdoptedTable(stats, proba0, update, cost)
      ensures dirty <==> coeffs[..] != proba0
      ensures size == TokenSize(stats, proba0, update, cost, NumKeys)
    {
      var hasChanged := false;
      size := 0;
      for t := 0 to NumTypes
        invariant TokensDone(coeffs[..], stats, proba0, update, cost, t * 264, size, hasChanged)
        modifies coeffs
      {
        size, hasChanged := FinalizeType(proba0, update, cost, t, size, hasChanged);
      }
      dirty := hasChanged;
      assert coeffs[..][..NumKeys] == coeffs[..] && proba0[..NumKeys] == proba0;
    }

    /** Counts the macroblocks of each segment and, with more than one
        segment, sets the segment-tree probabilities, whether the segment
        map is sent, and its size. Returns the counts (the segment_size
        statistics). */
    method SetSegmentProbas(mbSegments: seq<int>, cost: CostFn) returns (counts: seq<int>)
      requires Valid() && |mbSegments| == mbW * mbH
      requires forall n :: 0 <= n < |mbSegments| ==> 0 <= mbSegments[n] < NumMbSegments
      modifies this`updateMap, this`segmentHeaderSize, segments
      ensures counts == SegmentCounts(mbSegments)
      ensures numSegments > 1 ==>
        && segments[..] == [GetProba(counts[0] + counts[1], counts[2] + counts[3]),
                             GetProba(counts[0], counts[1]), GetProba(counts[2], counts[3])]
        && (updateMap <==> segments[..] != [255, 255, 255])
        && segmentHeaderSize == SegmentsCost(mbSegments, segments[..], cost)
      ensures numSegments <= 1 ==> segments[..] == old(segments[..]) && !updateMap && segmentHeaderSize == 0
    {
      var p := CountSegments(mbSegments);
      counts := p;
      if numSegments > 1 {
        var p0 := GetProba(p[0] + p[1], p[2] + p[3]);
        var p1 := GetProba(p[0], p[1]);
        var p2 := GetProba(p[2], p[3]);
        segments[0], segments[1], segments[2] := p0, p1, p2;
        assert segments[..] == [p0, p1, p2];
        updateMap := p0 != 255 || p1 != 255 || p2 != 255;
        segmentHeaderSize := SegmentHeaderSize(p, [p0, p1, p2], cost);
        SegmentHeaderSizeIsCost(mbSegments, [p0, p1, p2], cost);
      } else {
        updateMap := false;
        segmentHeaderSize := 0;
      }
    }
  }
}
