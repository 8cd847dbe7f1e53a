/** The decoding side of the coefficient token syntax, reading bit values
    only: the inverse partner of the residual coder. A decoder that follows
    the same token tree recovers every level of a block from the bits
    PutCoeffs emits, so the coded sequence loses nothing and a decoder can
    tell where the block ends. */
module TokenDecoder {
  import opened Arith
  import opened Vp8Common
  import opened ResidualCoder

  /** A value read from the front of a bit sequence with the unread rest, or
      the report that the sequence ended too early. */
  datatype Decoded<T> = Ok(value: T, rest: seq<bool>) | Truncated

  /** k literal bits, most significant first, as a number below 2^k. */
  function ReadLiteral(bits: seq<bool>, k: nat): (r: Decoded<int>)
    ensures r.Ok? ==> 0 <= r.value < Pow2(k)
  {
    if k == 0 then Ok(0, bits)
    else if bits == [] then Truncated
    else
      match ReadLiteral(bits[1..], k - 1)
      case Truncated => Truncated
      case Ok(x, rest) => Ok((if bits[0] then Pow2(k - 1) else 0) + x, rest)
  }

  /** Decodes the decisions LargeLevelTokens emits for a magnitude v >= 2. */
  function ReadLarge(bits: seq<bool>): (r: Decoded<int>)
    ensures r.Ok? ==> 2 <= r.value <= MaxCodableLevel
  {
    if |bits| < 2 then Truncated
    else if !bits[0] then
      if !bits[1] then Ok(2, bits[2..])
      else if |bits| < 3 then Truncated
      else Ok(if bits[2] then 4 else 3, bits[3..])
    else if !bits[1] then
      if |bits| < 4 then Truncated
      else if !bits[2] then Ok(if bits[3] then 6 else 5, bits[4..])
      else if |bits| < 5 then Truncated
      else Ok(7 + (if bits[3] then 2 else 0) + (if bits[4] then 1 else 0), bits[5..])
    else if |bits| < 4 then Truncated
    else
      var cat := if !bits[2] then (if bits[3] then 4 else 3) else (if bits[3] then 6 else 5);
      CategoriesTile(cat);
      match ReadLiteral(bits[4..], |CatTable(cat)|)
      case Truncated => Truncated
      case Ok(x, rest) => Ok(CatBase(cat) + x, rest)
  }

  /** Decodes a non-zero magnitude after its "v != 0" decision. */
  function ReadMagnitude(bits: seq<bool>): (r: Decoded<int>)
    ensures r.Ok? ==> 1 <= r.value <= MaxCodableLevel
  {
    if bits == [] then Truncated
    else if !bits[0] then Ok(1, bits[1..])
    else ReadLarge(bits[1..])
  }

  /** Decodes the token of one level: zero, or magnitude then sign. */
  function ReadToken(bits: seq<bool>): (r: Decoded<int>)
    ensures r.Ok? ==> Abs(r.value) <= MaxCodableLevel
  {
    if bits == [] then Truncated
    else if !bits[0] then Ok(0, bits[1..])
    else
      match ReadMagnitude(bits[1..])
      case Truncated => Truncated
      case Ok(v, rest) =>
        if rest == [] then Truncated else Ok(if rest[0] then -v else v, rest[1..])
  }

  function Zeros(k: nat): (z: seq<int>)
    ensures |z| == k && forall i :: 0 <= i < k ==> z[i] == 0
  {
    seq(k, i => 0)
  }

  /** Decodes the levels of positions n..15. `eob` says whether an
      end-of-block decision comes first (at the first position and after a
      non-zero level); a false one ends the block with zeros. */
  function ReadBlockFrom(n: int, eob: bool, bits: seq<bool>): (r: Decoded<seq<int>>)
    requires 0 <= n <= 16
    ensures r.Ok? ==> |r.value| == 16 - n
    decreases 16 - n
  {
    if n == 16 then Ok([], bits)
    else if eob && bits == [] then Truncated
    else if eob && !bits[0] then Ok(Zeros(16 - n), bits[1..])
    else
      match ReadToken(if eob then bits[1..] else bits)
      case Truncated => Truncated
      case Ok(c, rest) =>
        match ReadBlockFrom(n + 1, c != 0, rest)
        case Truncated => Truncated
        case Ok(cs, rest2) => Ok([c] + cs, rest2)
  }

  /** Decodes one block whose coding starts at position `first`. */
  function ReadBlock(first: int, bits: seq<bool>): (r: Decoded<seq<int>>)
    requires first == 0 || first == 1
    ensures r.Ok? ==> |r.value| == 16
  {
    match ReadBlockFrom(first, true, bits)
    case Truncated => Truncated
    case Ok(cs, rest) => Ok(Zeros(first) + cs, rest)
  }

  // ---------------------------------------------------------------------
  // Round trips

  lemma BoolAppendAssoc(a: seq<bool>, b: seq<bool>, c: seq<bool>)
    ensures a + (b + c) == (a + b) + c
  {
  }

  /** The top bit of a k-bit remainder splits it into that bit's weight and
      the remainder below it. */
  lemma TopBitSplit(x: int, k: nat)
    requires k >= 1
    ensures x % Pow2(k) == (if TestBit(x, k - 1) then Pow2(k - 1) else 0) + x % Pow2(k - 1)
  {
    var m := Pow2(k - 1);
    ModSplit(x, m, 2);
    assert Pow2(k) == m * 2;
  }

  lemma {:induction false} LiteralRoundTrip(x: int, tab: seq<int>, more: seq<bool>)
    ensures ReadLiteral(Bits(ExtraBits(x, tab)) + more, |tab|) == Ok(x % Pow2(|tab|), more)
    decreases |tab|
  {
    var k := |tab|;
    if k > 0 {
      var tail := ExtraBits(x, tab[1..]);
      var bits := Bits(ExtraBits(x, tab)) + more;
      assert ExtraBits(x, tab) == [Coded(TestBit(x, k - 1), tab[0])] + tail;
      BitsAppend([Coded(TestBit(x, k - 1), tab[0])], tail);
      BoolAppendAssoc([TestBit(x, k - 1)], Bits(tail), more);
      assert bits[0] == TestBit(x, k - 1);
      assert bits[1..] == Bits(tail) + more;
      LiteralRoundTrip(x, tab[1..], more);
      TopBitSplit(x, k);
    }
  }

  /** A value below 2^k is its own k-bit remainder. */
  lemma SmallModIdentity(x: int, k: nat)
    requires 0 <= x < Pow2(k)
    ensures x % Pow2(k) == x
  {
    DivModUnique(x, Pow2(k), 0, x);
  }

  /** ReadLarge on the escape prefix of category cat reads cat's literal. */
  lemma ReadLargeCategory(cat: int, lit: seq<bool>, bits: seq<bool>)
    requires 3 <= cat <= 6
    requires bits == [true, true, cat >= 5, cat == 4 || cat == 6] + lit
    ensures ReadLarge(bits)
         == match ReadLiteral(lit, |CatTable(cat)|)
            case Truncated => Truncated
            case Ok(x, rest) => Ok(CatBase(cat) + x, rest)
  {
    assert bits[4..] == lit;
  }

  /** The literal of an escape reads back as the offset from the category
      base. */
  lemma CategoryLiteral(v: int, more: seq<bool>)
    requires 11 <= v <= MaxCodableLevel
    ensures var cat := Category(v);
            ReadLiteral(Bits(ExtraBits(v - CatBase(cat), CatTable(cat))) + more, |CatTable(cat)|)
            == Ok(v - CatBase(cat), more)
  {
    var cat := Category(v);
    var w := v - CatBase(cat);
    var tab := CatTable(cat);
    CategoriesTile(cat);
    LiteralRoundTrip(w, tab, more);
    SmallModIdentity(w, |tab|);
  }

  lemma BitsOfTwo(a: Decision, b: Decision)
    ensures Bits([a, b]) == [a.bit, b.bit]
  {
    assert [a, b][1..] == [b];
    assert Bits([b]) == [b.bit];
  }

  lemma BitsOfThree(a: Decision, b: Decision, c: Decision)
    ensures Bits([a, b, c]) == [a.bit, b.bit, c.bit]
  {
    assert [a, b, c][1..] == [b, c];
    BitsOfTwo(b, c);
  }

  lemma BitsOfFour(a: Decision, b: Decision, c: Decision, d: Decision)
    ensures Bits([a, b, c, d]) == [a.bit, b.bit, c.bit, d.bit]
  {
    assert [a, b, c, d][1..] == [b, c, d];
    BitsOfThree(b, c, d);
  }

  /** The bits of an escape: the two escape decisions, the category
      selector, then the literal. */
  lemma CategoryBits(v: int, p: seq<int>, more: seq<bool>)
    requires 11 <= v && |p| == NumProbas
    ensures var cat := Category(v);
            Bits([Coded(true, p[3]), Coded(true, p[6])] + CategoryTokens(v, p)) + more
            == [true, true, cat >= 5, cat == 4 || cat == 6] + (Bits(ExtraBits(v - CatBase(cat), CatTable(cat))) + more)
  {
    var cat := Category(v);
    var selector := [Coded(true, p[3]), Coded(true, p[6]), Coded(cat >= 5, p[8]),
                     Coded(cat == 4 || cat == 6, if cat >= 5 then p[10] else p[9])];
    var extra := ExtraBits(v - CatBase(cat), CatTable(cat));
    var escape := [Coded(true, p[3]), Coded(true, p[6])];
    var pick := [Coded(cat >= 5, p[8]), Coded(cat == 4 || cat == 6, if cat >= 5 then p[10] else p[9])];
    assert CategoryTokens(v, p) == pick + extra;
    AppendAssoc(escape, pick, extra);
    assert escape + pick == selector;
    BitsAppend(selector, extra);
    BoolAppendAssoc(Bits(selector), Bits(extra), more);
    BitsOfFour(selector[0], selector[1], selector[2], selector[3]);
  }

  lemma CategoryRoundTrip(v: int, p: seq<int>, more: seq<bool>)
    requires 11 <= v <= MaxCodableLevel && |p| == NumProbas
    ensures ReadLarge(Bits([Coded(true, p[3]), Coded(true, p[6])] + CategoryTokens(v, p)) + more) == Ok(v, more)
  {
    var cat := Category(v);
    var lit := Bits(ExtraBits(v - CatBase(cat), CatTable(cat))) + more;
    CategoryBits(v, p, more);
    CategoryLiteral(v, more);
    ReadLargeCategory(cat, lit, Bits([Coded(true, p[3]), Coded(true, p[6])] + CategoryTokens(v, p)) + more);
  }

  lemma SmallLargeRoundTrip(v: int, p: seq<int>, more: seq<bool>)
    requires 2 <= v <= 10 && |p| == NumProbas
    ensures ReadLarge(Bits(LargeLevelTokens(v, p)) + more) == Ok(v, more)
  {
    var ds := LargeLevelTokens(v, p);
    var bits := Bits(ds) + more;
    if v == 2 {
      assert ds == [Coded(false, p[3]), Coded(false, p[4])];
      BitsOfTwo(ds[0], ds[1]);
      assert bits[2..] == more;
    } else if v <= 4 {
      assert ds == [Coded(false, p[3]), Coded(true, p[4]), Coded(v == 4, p[5])];
      BitsOfThree(ds[0], ds[1], ds[2]);
      assert bits[3..] == more;
    } else if v <= 6 {
      assert ds == [Coded(true, p[3]), Coded(false, p[6]), Coded(false, p[7]), Coded(v == 6, 159)];
      BitsOfFour(ds[0], ds[1], ds[2], ds[3]);
      assert bits[4..] == more;
    } else {
      assert ds == [Coded(true, p[3]), Coded(false, p[6]), Coded(true, p[7]), Coded(v >= 9, 165), Coded(v % 2 == 0, 145)];
      assert ds[1..] == [ds[1], ds[2], ds[3], ds[4]];
      BitsOfFour(ds[1], ds[2], ds[3], ds[4]);
      assert bits[5..] == more;
    }
  }

  lemma MagnitudeRoundTrip(v: int, p: seq<int>, more: seq<bool>)
    requires 1 <= v <= MaxCodableLevel && |p| == NumProbas
    ensures ReadMagnitude(Bits(MagnitudeTokens(v, p)) + more) == Ok(v, more)
  {
    var head := [Coded(v > 1, p[2])];
    if v == 1 {
      assert MagnitudeTokens(v, p) == head;
      assert (Bits(head) + more)[1..] == more;
    } else {
      var large := LargeLevelTokens(v, p);
      assert MagnitudeTokens(v, p) == head + large;
      BitsAppend(head, large);
      BoolAppendAssoc(Bits(head), Bits(large), more);
      assert (Bits(head) + (Bits(large) + more))[1..] == Bits(large) + more;
      if v <= 10 {
        SmallLargeRoundTrip(v, p, more);
      } else {
        assert large == [Coded(true, p[3]), Coded(true, p[6])] + CategoryTokens(v, p);
        CategoryRoundTrip(v, p, more);
      }
    }
  }

  /** ReadToken on a non-zero token: the magnitude, then the sign bit. */
  lemma ReadTokenNonZero(mbits: seq<bool>, v: int, sign: bool, more: seq<bool>)
    requires ReadMagnitude(mbits) == Ok(v, [sign] + more)
    ensures ReadToken([true] + mbits) == Ok(if sign then -v else v, more)
  {
    assert ([true] + mbits)[1..] == mbits;
    assert ([sign] + more)[1..] == more;
  }

  /** Every codable level, zero or not, is read back from its token. */
  lemma TokenRoundTrip(c: int, p: seq<int>, more: seq<bool>)
    requires Abs(c) <= MaxCodableLevel && |p| == NumProbas
    ensures ReadToken(Bits(TokenAt(c, p)) + more) == Ok(c, more)
  {
    if c == 0 {
      assert (Bits(TokenAt(c, p)) + more)[1..] == more;
    } else {
      var v := Abs(c);
      var mbits := Bits(MagnitudeTokens(v, p)) + ([c < 0] + more);
      NonZeroTokenBits(c, p, more);
      MagnitudeRoundTrip(v, p, [c < 0] + more);
      ReadTokenNonZero(mbits, v, c < 0, more);
    }
  }

  lemma NonZeroTokenBits(c: int, p: seq<int>, more: seq<bool>)
    requires c != 0 && |p| == NumProbas
    ensures Bits(TokenAt(c, p)) + more == [true] + (Bits(MagnitudeTokens(Abs(c), p)) + ([c < 0] + more))
  {
    var mb := Bits(MagnitudeTokens(Abs(c), p));
    NonZeroTokenShape(c, p);
    BoolAppendAssoc([true], mb + [c < 0], more);
    BoolAppendAssoc(mb, [c < 0], more);
  }

  /** The bits of a non-zero token: 1, the magnitude, the sign. */
  lemma NonZeroTokenShape(c: int, p: seq<int>)
    requires c != 0 && |p| == NumProbas
    ensures Bits(TokenAt(c, p)) == [true] + (Bits(MagnitudeTokens(Abs(c), p)) + [c < 0])
  {
    var head := [Coded(true, p[1])];
    var mag := MagnitudeTokens(Abs(c), p);
    var sign := [Uniform(c < 0)];
    AppendAssoc(head, mag, sign);
    BitsAppend(head, mag + sign);
    BitsAppend(mag, sign);
    assert Bits(head) == [true];
    assert Bits(sign) == [c < 0];
  }

  /** One position of ReadBlockFrom when the block goes on: the optional
      "not yet ended" bit, then a level's token. */
  lemma ReadBlockFromToken(n: int, eob: bool, after: seq<bool>, c: int, rest: seq<bool>)
    requires 0 <= n < 16
    requires ReadToken(after) == Ok(c, rest)
    ensures ReadBlockFrom(n, eob, (if eob then [true] else []) + after)
         == match ReadBlockFrom(n + 1, c != 0, rest)
            case Truncated => Truncated
            case Ok(cs, rest2) => Ok([c] + cs, rest2)
  {
    var bits := (if eob then [true] else []) + after;
    assert (if eob then bits[1..] else bits) == after;
  }

  /** The bits of the reference syntax at a position where the block goes
      on: the optional end-of-block bit, the level's token, the rest. */
  lemma RefBitsStep(res: Residual, table: seq<int>, ctx: int, n: int, more: seq<bool>)
    requires Shaped(res) && |table| == NumKeys && 0 <= ctx < NumCtx
    requires res.first <= n < 16 && !(EobCoded(res, n) && n > res.last)
    ensures Bits(RefTokens(res, table, ctx, n)) + more
         == (if EobCoded(res, n) then [true] else [])
            + (Bits(TokenAt(res.coeffs[n], PosRow(res, table, ctx, n)))
               + (Bits(RefTokens(res, table, ctx, n + 1)) + more))
  {
    var p := PosRow(res, table, ctx, n);
    var pre := if EobCoded(res, n) then [Coded(true, p[0])] else [];
    var token := TokenAt(res.coeffs[n], p);
    var later := RefTokens(res, table, ctx, n + 1);
    assert RefTokens(res, table, ctx, n) == (pre + token) + later;
    BitsAppend(pre + token, later);
    BitsAppend(pre, token);
    assert Bits(pre) == (if EobCoded(res, n) then [true] else []);
    BoolAppendAssoc(Bits(pre) + Bits(token), Bits(later), more);
    BoolAppendAssoc(Bits(pre), Bits(token), Bits(later) + more);
  }

  /** The position-by-position token syntax of a well-formed, codable block
      decodes to its levels from position n on. */
  lemma {:induction false} RefRoundTrip(res: Residual, table: seq<int>, ctx: int, n: int, more: seq<bool>)
    requires WellFormed(res) && Codable(res) && |table| == NumKeys && 0 <= ctx < NumCtx
    requires res.first <= n <= 16
    ensures ReadBlockFrom(n, EobCoded(res, n), Bits(RefTokens(res, table, ctx, n)) + more)
         == Ok(res.coeffs[n..], more)
    decreases 16 - n
  {
    if n == 16 {
      assert Bits(RefTokens(res, table, ctx, n)) + more == more;
      assert res.coeffs[n..] == [];
    } else if EobCoded(res, n) && n > res.last {
      RefStop(res, table, ctx, n, more);
    } else {
      RefRoundTrip(res, table, ctx, n + 1, more);
      RefStep(res, table, ctx, n, more);
    }
  }

  /** An end-of-block decision past the last non-zero level ends the block
      with zeros. */
  lemma RefStop(res: Residual, table: seq<int>, ctx: int, n: int, more: seq<bool>)
    requires WellFormed(res) && |table| == NumKeys && 0 <= ctx < NumCtx
    requires res.first <= n < 16 && EobCoded(res, n) && n > res.last
    ensures ReadBlockFrom(n, EobCoded(res, n), Bits(RefTokens(res, table, ctx, n)) + more)
         == Ok(res.coeffs[n..], more)
  {
    var p := PosRow(res, table, ctx, n);
    assert RefTokens(res, table, ctx, n) == [Coded(false, p[0])];
    assert (Bits([Coded(false, p[0])]) + more)[1..] == more;
    ZeroTail(res, n);
  }

  /** A position where the block goes on reads its level, then the rest. */
  lemma RefStep(res: Residual, table: seq<int>, ctx: int, n: int, more: seq<bool>)
    requires WellFormed(res) && Codable(res) && |table| == NumKeys && 0 <= ctx < NumCtx
    requires res.first <= n < 16 && !(EobCoded(res, n) && n > res.last)
    requires ReadBlockFrom(n + 1, EobCoded(res, n + 1), Bits(RefTokens(res, table, ctx, n + 1)) + more)
          == Ok(res.coeffs[n + 1..], more)
    ensures ReadBlockFrom(n, EobCoded(res, n), Bits(RefTokens(res, table, ctx, n)) + more)
         == Ok(res.coeffs[n..], more)
  {
    var c := res.coeffs[n];
    var p := PosRow(res, table, ctx, n);
    var rest := Bits(RefTokens(res, table, ctx, n + 1)) + more;
    RefBitsStep(res, table, ctx, n, more);
    TokenRoundTrip(c, p, rest);
    ReadBlockFromToken(n, EobCoded(res, n), Bits(TokenAt(c, p)) + rest, c, rest);
    assert EobCoded(res, n + 1) == (c != 0);
    SliceCons(res.coeffs, n);
  }

  lemma SliceCons(s: seq<int>, n: int)
    requires 0 <= n < |s|
    ensures [s[n]] + s[n + 1..] == s[n..]
  {
  }

  /** Past the last non-zero position a well-formed block holds only zeros. */
  lemma ZeroTail(res: Residual, n: int)
    requires WellFormed(res) && res.last < n <= 16
    ensures res.coeffs[n..] == Zeros(16 - n)
  {
  }

  /** PutCoeffs is lossless: for a block as the encoder builds it whose
      levels all fit the token tree, the bits it emits decode back to the
      block's levels, and decoding stops exactly where the block's
      decisions end. */
  lemma CoeffTokensRoundTrip(ctx: int, res: Residual, table: seq<int>, more: seq<bool>)
    requires WellFormed(res) && Codable(res) && |table| == NumKeys && 0 <= ctx < NumCtx
    ensures ReadBlock(res.first, Bits(CoeffTokens(ctx, res, table)) + more) == Ok(res.coeffs, more)
  {
    CoeffTokensMatchReference(ctx, res, table);
    RefRoundTrip(res, table, ctx, res.first, more);
    assert EobCoded(res, res.first);
    assert Zeros(res.first) + res.coeffs[res.first..] == res.coeffs;
  }
}
