/** The VP8 residual coder (PutCoeffs): one block of up to 16 quantised
    levels becomes a sequence of boolean-coder decisions that walk the
    coefficient token tree of section 13.2 of RFC 6386, with the
    escape categories 3 to 6 carrying literal extra bits.

    CoeffTokens is the decision sequence PutCoeffs appends to the writer,
    stated the way the C loop computes it (a probability row carried from
    one position to the next). RefTokens states the same sequence position
    by position, the way the token syntax is specified (the context of a
    position is decided by the previous coefficient), and
    CoeffTokensMatchReference proves the two equal. */
module ResidualCoder {
  import opened Arith
  import opened Vp8Common

  /** Extra-bit probabilities of the escape categories (VP8Cat3..VP8Cat6). */
  const Cat3: seq<int> := [173, 148, 140]
  const Cat4: seq<int> := [176, 155, 140, 135]
  const Cat5: seq<int> := [180, 157, 141, 134, 130]
  const Cat6: seq<int> := [254, 254, 243, 230, 196, 177, 153, 140, 133, 130, 129]

  /** The largest magnitude category 6 can carry in its 11 extra bits. */
  const MaxCodableLevel: int := 67 + 2047

  /** VP8Residual: the first coded position (1 when the DC coefficient is
      coded in a separate block), the position of the last non-zero level
      (-1 for none), the 16 levels, and the coefficient type that selects
      the probability rows coeffs_[type]. */
  datatype Residual = Residual(first: int, last: int, coeffs: seq<int>, coeffType: int)

  /** The index ranges PutCoeffs relies on. */
  predicate Shaped(res: Residual) {
    && (res.first == 0 || res.first == 1)
    && -1 <= res.last < 16
    && |res.coeffs| == 16
    && 0 <= res.coeffType < NumTypes
  }

  function Abs(x: int): nat {
    if x < 0 then -x else x
  }

  /** Escape category of a magnitude above 10. */
  function Category(v: int): (cat: int)
    requires v >= 11
    ensures 3 <= cat <= 6
    ensures CatBase(cat) <= v
    ensures cat < 6 ==> v < CatBase(cat + 1)
  {
    if v < 19 then 3 else if v < 35 then 4 else if v < 67 then 5 else 6
  }

  /** Smallest magnitude of each category. */
  function CatBase(cat: int): int
    requires 3 <= cat <= 6
  {
    if cat == 3 then 11 else if cat == 4 then 19 else if cat == 5 then 35 else 67
  }

  function CatTable(cat: int): seq<int>
    requires 3 <= cat <= 6
  {
    if cat == 3 then Cat3 else if cat == 4 then Cat4 else if cat == 5 then Cat5 else Cat6
  }

  /** Each category's extra bits span exactly the magnitudes up to the next
      category's base: 3, 4 and 5 bits for categories 3, 4 and 5, and
      11 bits for category 6, up to MaxCodableLevel. */
  lemma CategoriesTile(cat: int)
    requires 3 <= cat <= 6
    ensures |CatTable(cat)| == (if cat == 6 then 11 else cat)
    ensures cat < 6 ==> CatBase(cat) + Pow2(|CatTable(cat)|) == CatBase(cat + 1)
    ensures cat == 6 ==> CatBase(cat) + Pow2(|CatTable(cat)|) == MaxCodableLevel + 1
  {
    assert Pow2(3) == 8 && Pow2(4) == 16 && Pow2(5) == 32 && Pow2(11) == 2048;
  }

  /** Bit i of x (the test `x & (1 << i)` on a non-negative x). */
  function TestBit(x: int, i: nat): bool {
    (x / Pow2(i)) % 2 == 1
  }

  /** The literal extra bits of an escape category: bit |tab|-1 of x down to
      bit 0, most significant first, the k-th one coded with tab[k]. */
  function ExtraBits(x: int, tab: seq<int>): (ds: seq<Decision>)
    ensures |ds| == |tab|
    decreases |tab|
  {
    if tab == [] then [] else [Coded(TestBit(x, |tab| - 1), tab[0])] + ExtraBits(x, tab[1..])
  }

  /** Decisions of a magnitude above 10: the category selector, then the
      offset from the category base as literal bits. */
  function CategoryTokens(v: int, p: seq<int>): seq<Decision>
    requires v >= 11 && |p| == NumProbas
  {
    var cat := Category(v);
    [Coded(cat >= 5, p[8]), Coded(cat == 4 || cat == 6, if cat >= 5 then p[10] else p[9])]
      + ExtraBits(v - CatBase(cat), CatTable(cat))
  }

  /** Decisions of a magnitude v >= 2 after the "v > 1" decision. */
  function LargeLevelTokens(v: int, p: seq<int>): seq<Decision>
    requires v >= 2 && |p| == NumProbas
  {
    if v <= 4 then
      [Coded(false, p[3]), Coded(v != 2, p[4])] + (if v != 2 then [Coded(v == 4, p[5])] else [])
    else if v <= 10 then
      [Coded(true, p[3]), Coded(false, p[6])] +
      (if v <= 6 then [Coded(false, p[7]), Coded(v == 6, 159)]
       else [Coded(true, p[7]), Coded(v >= 9, 165), Coded(v % 2 == 0, 145)])
    else
      [Coded(true, p[3]), Coded(true, p[6])] + CategoryTokens(v, p)
  }

  /** Decisions of a non-zero magnitude v after the "v != 0" decision. */
  function MagnitudeTokens(v: int, p: seq<int>): seq<Decision>
    requires v >= 1 && |p| == NumProbas
  {
    [Coded(v > 1, p[2])] + (if v > 1 then LargeLevelTokens(v, p) else [])
  }

  /** Context left by a coded level for the next position: 0 after a zero,
      1 after a magnitude of one, 2 after a larger magnitude. */
  function NextCtx(c: int): (ctx: int)
    ensures 0 <= ctx < NumCtx
  {
    if c == 0 then 0 else if Abs(c) == 1 then 1 else 2
  }

  /** The token of one level: zero, or non-zero with magnitude and sign. */
  function TokenAt(c: int, p: seq<int>): seq<Decision>
    requires |p| == NumProbas
  {
    if c == 0 then [Coded(false, p[1])]
    else [Coded(true, p[1])] + MagnitudeTokens(Abs(c), p) + [Uniform(c < 0)]
  }

  /** What the `while (n < 16)` loop of PutCoeffs emits from loop head
      position n with current probability row p: the token of level n, then,
      after a zero, the next position in context 0 without an end-of-block
      decision; after a non-zero level below position 15, the end-of-block
      decision and, when the block goes on, the next position in context 1
      or 2. */
  function CoeffLoop(res: Residual, table: seq<int>, n: int, p: seq<int>): seq<Decision>
    requires Shaped(res) && |table| == NumKeys
    requires 0 <= n <= 16 && |p| == NumProbas
    decreases 16 - n
  {
    if n == 16 then []
    else
      var c := res.coeffs[n];
      var m := n + 1;
      var q := Row(table, res.coeffType, Band(m), NextCtx(c));
      TokenAt(c, p) +
      (if c == 0 then CoeffLoop(res, table, m, q)
       else if m == 16 then []
       else [Coded(m <= res.last, q[0])] + (if m <= res.last then CoeffLoop(res, table, m, q) else []))
  }

  /** Everything PutCoeffs appends for one block coded in context ctx. */
  function CoeffTokens(ctx: int, res: Residual, table: seq<int>): seq<Decision>
    requires Shaped(res) && |table| == NumKeys && 0 <= ctx < NumCtx
  {
    var p := Row(table, res.coeffType, res.first, ctx);
    [Coded(res.last >= 0, p[0])] + (if res.last < 0 then [] else CoeffLoop(res, table, res.first, p))
  }

  lemma AppendAssoc(a: seq<Decision>, b: seq<Decision>, c: seq<Decision>)
    ensures a + (b + c) == (a + b) + c
  {
  }

  /** Codes the literal extra bits of an escape category, one per table
      entry, while the bit mask is non-zero. */
  method PutExtraBits(bw: BitWriter, v: int, mask0: int, tab: seq<int>)
    requires |tab| >= 1 && mask0 == Pow2(|tab| - 1)
    modifies bw
    ensures bw.log == old(bw.log) + ExtraBits(v, tab)
  {
    var mask := mask0;
    var i := 0;
    while mask != 0
      invariant 0 <= i <= |tab|
      invariant mask == (if i < |tab| then Pow2(|tab| - 1 - i) else 0)
      invariant bw.log + ExtraBits(v, tab[i..]) == old(bw.log) + ExtraBits(v, tab)
      decreases |tab| - i
    {
      assert tab[i..][1..] == tab[i + 1..];
      var b := bw.PutBit((v / mask) % 2 == 1, tab[i]);
      i := i + 1;
      mask := mask / 2;
    }
  }

  /** Codes a magnitude v >= 2 after its "v > 1" decision. */
  method PutLargeLevel(bw: BitWriter, v: int, p: seq<int>)
    requires v >= 2 && |p| == NumProbas
    modifies bw
    ensures bw.log == old(bw.log) + LargeLevelTokens(v, p)
  {
    var b := bw.PutBit(v > 4, p[3]);
    if !b {
      b := bw.PutBit(v != 2, p[4]);
      if b {
        b := bw.PutBit(v == 4, p[5]);
      }
    } else {
      b := bw.PutBit(v > 10, p[6]);
      if !b {
        b := bw.PutBit(v > 6, p[7]);
        if !b {
          b := bw.PutBit(v == 6, 159);
        } else {
          b := bw.PutBit(v >= 9, 165);
          b := bw.PutBit(v % 2 == 0, 145);
        }
      } else {
        ghost var mid := bw.log;
        ghost var cat := CategoryTokens(v, p);
        PutCategory(bw, v, p);
        AppendAssoc(old(bw.log), [Coded(true, p[3]), Coded(true, p[6])], cat);
      }
    }
  }

  /** Codes a magnitude above 10: the category selector decisions, then the
      offset from the category base in as many bits as the category's table
      has entries. */
  method PutCategory(bw: BitWriter, v: int, p: seq<int>)
    requires v >= 11 && |p| == NumProbas
    modifies bw
    ensures bw.log == old(bw.log) + CategoryTokens(v, p)
  {
    var w := v;
    var mask: int;
    var tab: seq<int>;
    var b: bool;
    ghost var cat := Category(v);
    ghost var selector := [Coded(cat >= 5, p[8]), Coded(cat == 4 || cat == 6, if cat >= 5 then p[10] else p[9])];
    if w < 19 {
      b := bw.PutBit(false, p[8]);
      b := bw.PutBit(false, p[9]);
      w := w - 11;
      mask := 4;
      tab := Cat3;
      assert Pow2(2) == 4;
      assert bw.log == old(bw.log) + selector;
    } else if w < 35 {
      b := bw.PutBit(false, p[8]);
      b := bw.PutBit(true, p[9]);
      w := w - 19;
      mask := 8;
      tab := Cat4;
      assert Pow2(3) == 8;
      assert bw.log == old(bw.log) + selector;
    } else if w < 67 {
      b := bw.PutBit(true, p[8]);
      b := bw.PutBit(false, p[10]);
      w := w - 35;
      mask := 16;
      tab := Cat5;
      assert Pow2(4) == 16;
      assert bw.log == old(bw.log) + selector;
    } else {
      b := bw.PutBit(true, p[8]);
      b := bw.PutBit(true, p[10]);
      w := w - 67;
      mask := 1024;
      tab := Cat6;
      assert Pow2(10) == 1024;
      assert bw.log == old(bw.log) + selector;
    }
    assert tab == CatTable(cat) && w == v - CatBase(cat);
    ghost var extra := ExtraBits(w, tab);
    assert CategoryTokens(v, p) == selector + extra;
    PutExtraBits(bw, w, mask, tab);
    AppendAssoc(old(bw.log), selector, extra);
  }

  /** The token of one position of PutCoeffs's loop: the zero/non-zero
      decision and, for a non-zero level, its magnitude and sign. Returns the
      context (0, 1 or 2) the next position is coded in. */
  method PutToken(bw: BitWriter, c: int, p: seq<int>) returns (next: int)
    requires |p| == NumProbas
    modifies bw
    ensures bw.log == old(bw.log) + TokenAt(c, p)
    ensures next == NextCtx(c)
  {
    var sign := c < 0;
    var v := if sign then -c else c;
    var b := bw.PutBit(v != 0, p[1]);
    if !b {
      return 0;
    }
    ghost var head := [Coded(true, p[1])];
    ghost var mag := head + MagnitudeTokens(v, p);
    b := bw.PutBit(v > 1, p[2]);
    if !b {
      assert mag == head + [Coded(false, p[2])];
      AppendAssoc(old(bw.log), head, [Coded(false, p[2])]);
      next := 1;
    } else {
      ghost var large := LargeLevelTokens(v, p);
      ghost var mid := bw.log;
      PutLargeLevel(bw, v, p);
      assert mag == head + ([Coded(true, p[2])] + large);
      AppendAssoc(head, [Coded(true, p[2])], large);
      AppendAssoc(old(bw.log), head, [Coded(true, p[2])]);
      AppendAssoc(old(bw.log), head + [Coded(true, p[2])], large);
      next := 2;
    }
    assert bw.log == old(bw.log) + mag;
    b := bw.PutBitUniform(sign);
    assert TokenAt(c, p) == mag + [Uniform(sign)];
    AppendAssoc(old(bw.log), mag, [Uniform(sign)]);
  }

  /** PutCoeffs: codes one block in context ctx and returns 1 when it has a
      non-zero level (the block's neighbour flag), 0 otherwise. */
  method PutCoeffs(bw: BitWriter, ctx: int, res: Residual, table: seq<int>) returns (nz: int)
    requires Shaped(res) && |table| == NumKeys && 0 <= ctx < NumCtx
    modifies bw
    ensures bw.log == old(bw.log) + CoeffTokens(ctx, res, table)
    ensures nz == if res.last >= 0 then 1 else 0
  {
    var n := res.first;
    var p := Row(table, res.coeffType, n, ctx);
    var b := bw.PutBit(res.last >= 0, p[0]);
    if !b {
      return 0;
    }
    ghost var goal := old(bw.log) + CoeffTokens(ctx, res, table);
    AppendAssoc(old(bw.log), [Coded(true, p[0])], CoeffLoop(res, table, n, p));
    while n < 16
      invariant res.first <= n <= 16 && |p| == NumProbas && res.last >= 0
      invariant bw.log + CoeffLoop(res, table, n, p) == goal
    {
      ghost var log0, n0, p0 := bw.log, n, p;
      var c := res.coeffs[n];
      CoeffLoopStep(res, table, n, p);
      n := n + 1;
      var next := PutToken(bw, c, p);
      p := Row(table, res.coeffType, Band(n), next);
      if c == 0 {
        assert AfterToken(res, table, n0) == CoeffLoop(res, table, n, p);
        AppendAssoc(log0, TokenAt(c, p0), CoeffLoop(res, table, n, p));
        continue;
      }
      if n == 16 {
        assert AfterToken(res, table, n0) == [];
        return 1;
      }
      ghost var eob := [Coded(n <= res.last, p[0])];
      ghost var rest := if n <= res.last then CoeffLoop(res, table, n, p) else [];
      assert AfterToken(res, table, n0) == eob + rest;
      b := bw.PutBit(n <= res.last, p[0]);
      assert bw.log == (log0 + TokenAt(c, p0)) + eob;
      AppendAssoc(log0, TokenAt(c, p0), eob + rest);
      AppendAssoc(log0 + TokenAt(c, p0), eob, rest);
      if !b {
        assert eob + rest == eob;
        return 1;
      }
    }
    return 1;
  }

  /** What CoeffLoop emits after the token of position n: the next position
      in context 0 after a zero; after a non-zero level below position 15,
      the end-of-block decision and, when the block goes on, the next
      position in the context of that level. */
  function AfterToken(res: Residual, table: seq<int>, n: int): seq<Decision>
    requires Shaped(res) && |table| == NumKeys && 0 <= n < 16
  {
    var c := res.coeffs[n];
    var m := n + 1;
    var q := Row(table, res.coeffType, Band(m), NextCtx(c));
    if c == 0 then CoeffLoop(res, table, m, q)
    else if m == 16 then []
    else [Coded(m <= res.last, q[0])] + (if m <= res.last then CoeffLoop(res, table, m, q) else [])
  }

  lemma CoeffLoopStep(res: Residual, table: seq<int>, n: int, p: seq<int>)
    requires Shaped(res) && |table| == NumKeys
    requires 0 <= n < 16 && |p| == NumProbas
    ensures CoeffLoop(res, table, n, p) == TokenAt(res.coeffs[n], p) + AfterToken(res, table, n)
  {
  }

  // ---------------------------------------------------------------------
  // The token syntax position by position

  /** The last non-zero position of a block of levels, -1 when all are zero
      (what VP8SetResidualCoeffs stores in res->last). */
  function LastNonZero(cs: seq<int>): (last: int)
    ensures -1 <= last < |cs|
    ensures last >= 0 ==> cs[last] != 0
    ensures forall i :: last < i < |cs| ==> cs[i] == 0
  {
    if cs == [] then -1
    else if cs[|cs| - 1] != 0 then |cs| - 1
    else LastNonZero(cs[..|cs| - 1])
  }

  /** A residual as the encoder builds it: `last` is the last non-zero
      position, and a block whose DC is coded separately has a zero DC. */
  predicate WellFormed(res: Residual) {
    && Shaped(res)
    && res.last == LastNonZero(res.coeffs)
    && (res.first == 1 ==> res.coeffs[0] == 0)
  }

  /** Every level fits the token tree (category 6 carries 11 extra bits). */
  predicate Codable(res: Residual) {
    forall i :: 0 <= i < |res.coeffs| ==> Abs(res.coeffs[i]) <= MaxCodableLevel
  }

  /** An end-of-block decision is coded at the first position and after
      every non-zero level, never after a zero. */
  predicate EobCoded(res: Residual, n: int)
    requires Shaped(res) && res.first <= n <= 16
  {
    n == res.first || res.coeffs[n - 1] != 0
  }

  /** The probability row of position n: band `first` in the neighbour
      context at the first position, otherwise band Band(n) in the context
      left by the previous level. */
  function PosRow(res: Residual, table: seq<int>, ctx: int, n: int): (p: seq<int>)
    requires Shaped(res) && |table| == NumKeys && 0 <= ctx < NumCtx
    requires res.first <= n <= 16
    ensures |p| == NumProbas
  {
    if n == res.first then Row(table, res.coeffType, n, ctx)
    else Row(table, res.coeffType, Band(n), NextCtx(res.coeffs[n - 1]))
  }

  /** The decisions of positions n..15: at each position the end-of-block
      decision when one is coded (stopping there when the block has ended),
      then the level's token. */
  function RefTokens(res: Residual, table: seq<int>, ctx: int, n: int): seq<Decision>
    requires Shaped(res) && |table| == NumKeys && 0 <= ctx < NumCtx
    requires res.first <= n <= 16
    decreases 16 - n
  {
    if n == 16 then []
    else
      var p := PosRow(res, table, ctx, n);
      if EobCoded(res, n) && n > res.last then [Coded(false, p[0])]
      else
        (if EobCoded(res, n) then [Coded(true, p[0])] else [])
        + TokenAt(res.coeffs[n], p) + RefTokens(res, table, ctx, n + 1)
  }

  lemma {:induction false} LoopMatchesReference(res: Residual, table: seq<int>, ctx: int, n: int)
    requires Shaped(res) && |table| == NumKeys && 0 <= ctx < NumCtx
    requires res.first <= n < 16
    ensures CoeffLoop(res, table, n, PosRow(res, table, ctx, n))
         == TokenAt(res.coeffs[n], PosRow(res, table, ctx, n)) + RefTokens(res, table, ctx, n + 1)
    decreases 16 - n
  {
    if n + 1 < 16 {
      LoopMatchesReference(res, table, ctx, n + 1);
    }
    CoeffLoopStep(res, table, n, PosRow(res, table, ctx, n));
    AfterTokenMatchesReference(res, table, ctx, n);
  }

  /** The inductive step of LoopMatchesReference: given the claim at n + 1,
      what CoeffLoop emits after position n is the reference syntax from
      n + 1 on. */
  lemma AfterTokenMatchesReference(res: Residual, table: seq<int>, ctx: int, n: int)
    requires Shaped(res) && |table| == NumKeys && 0 <= ctx < NumCtx
    requires res.first <= n < 16
    requires n + 1 < 16 ==>
      CoeffLoop(res, table, n + 1, PosRow(res, table, ctx, n + 1))
      == TokenAt(res.coeffs[n + 1], PosRow(res, table, ctx, n + 1)) + RefTokens(res, table, ctx, n + 2)
    ensures AfterToken(res, table, n) == RefTokens(res, table, ctx, n + 1)
  {
    var m := n + 1;
    var q := PosRow(res, table, ctx, m);
    if m < 16 {
      var tail := TokenAt(res.coeffs[m], q) + RefTokens(res, table, ctx, m + 1);
      if res.coeffs[n] == 0 {
        assert RefTokens(res, table, ctx, m) == [] + tail;
      } else if m <= res.last {
        var eob := [Coded(true, q[0])];
        assert RefTokens(res, table, ctx, m) == (eob + TokenAt(res.coeffs[m], q)) + RefTokens(res, table, ctx, m + 1);
        AppendAssoc(eob, TokenAt(res.coeffs[m], q), RefTokens(res, table, ctx, m + 1));
      }
    }
  }

  /** For a residual as the encoder builds it, PutCoeffs emits exactly the
      position-by-position token syntax: contexts 0/1/2 after a zero, a one
      and a larger level, no end-of-block decision after a zero, none after
      position 15. */
  lemma CoeffTokensMatchReference(ctx: int, res: Residual, table: seq<int>)
    requires WellFormed(res) && |table| == NumKeys && 0 <= ctx < NumCtx
    ensures CoeffTokens(ctx, res, table) == RefTokens(res, table, ctx, res.first)
  {
    var n := res.first;
    var p := PosRow(res, table, ctx, n);
    assert p == Row(table, res.coeffType, n, ctx);
    assert EobCoded(res, n);
    if res.last < 0 {
      assert RefTokens(res, table, ctx, n) == [Coded(false, p[0])];
    } else {
      assert n <= res.last by {
        assert n == 1 ==> res.coeffs[0] == 0;
      }
      var eob := [Coded(true, p[0])];
      assert RefTokens(res, table, ctx, n) == (eob + TokenAt(res.coeffs[n], p)) + RefTokens(res, table, ctx, n + 1);
      AppendAssoc(eob, TokenAt(res.coeffs[n], p), RefTokens(res, table, ctx, n + 1));
      LoopMatchesReference(res, table, ctx, n);
    }
  }
}
