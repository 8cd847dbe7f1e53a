/** Constants, the coefficient-probability key space and the bit-writer
    abstraction shared by the VP8 coefficient coder, the context driver and
    the probability estimator.

    The encoder keeps its coefficient probabilities and statistics as
    four-dimensional C arrays indexed [type][band][ctx][proba]; this model
    keeps them flat, in the same row-major order, so entry (t, b, c, p) lives
    at Key(t, b, c, p). */
module Vp8Common {

  const NumTypes: int := 4     // i16-AC, i16-DC, chroma, i4
  const NumBands: int := 8
  const NumCtx: int := 3
  const NumProbas: int := 11
  const NumKeys: int := 1056   // NumTypes * NumBands * NumCtx * NumProbas
  const NumMbSegments: int := 4

  /** Row-major position of coeffs_[t][b][c][p]. */
  function Key(t: int, b: int, c: int, p: int): (k: int)
    requires 0 <= t < NumTypes && 0 <= b < NumBands && 0 <= c < NumCtx && 0 <= p < NumProbas
    ensures 0 <= k < NumKeys
  {
    t * 264 + b * 33 + c * 11 + p
  }

  predicate IsProba(x: int) {
    0 <= x <= 255
  }

  /** VP8EncBands: the coefficient band of each position (the band table of
      section 13.3 of RFC 6386), plus the sentinel entry read after
      position 15. */
  const Bands: seq<int> := [0, 1, 2, 3, 6, 4, 5, 6, 6, 6, 6, 6, 6, 6, 6, 7, 0]

  function Band(n: int): (b: int)
    requires 0 <= n <= 16
    ensures 0 <= b < NumBands
  {
    Bands[n]
  }

  /** The probability row coeffs_[t][b][c] used to code one position. */
  function Row(table: seq<int>, t: int, b: int, c: int): (row: seq<int>)
    requires |table| == NumKeys
    requires 0 <= t < NumTypes && 0 <= b < NumBands && 0 <= c < NumCtx
    ensures |row| == NumProbas
  {
    table[Key(t, b, c, 0) .. Key(t, b, c, 0) + NumProbas]
  }

  /** One event of the boolean coder: a bit coded with an 8-bit probability
      (VP8PutBit) or a bit coded at even odds (VP8PutBitUniform). */
  datatype Decision = Coded(bit: bool, proba: int) | Uniform(bit: bool)

  /** The bit values of a decision sequence, as a decoder reads them. */
  function Bits(ds: seq<Decision>): (bs: seq<bool>)
    ensures |bs| == |ds|
  {
    if ds == [] then [] else [ds[0].bit] + Bits(ds[1..])
  }

  lemma {:induction false} BitsAppend(a: seq<Decision>, b: seq<Decision>)
    ensures Bits(a + b) == Bits(a) + Bits(b)
    decreases |a|
  {
    if a == [] {
      assert a + b == b;
    } else {
      assert (a + b)[1..] == a[1..] + b;
      BitsAppend(a[1..], b);
    }
  }

  /** The boolean arithmetic coder, seen as the append-only log of the
      decisions it has been given. Range, value and carry arithmetic and
      byte output are not part of this model. */
  class BitWriter {
    var log: seq<Decision>

    constructor ()
      ensures log == []
    {
      log := [];
    }

    /** VP8PutBit: codes `bit` with probability `proba` and returns it. */
    method PutBit(bit: bool, proba: int) returns (b: bool)
      modifies this
      ensures log == old(log) + [Coded(bit, proba)]
      ensures b == bit
    {
      log := log + [Coded(bit, proba)];
      b := bit;
    }

    /** VP8PutBitUniform: codes `bit` at probability one half. */
    method PutBitUniform(bit: bool) returns (b: bool)
      modifies this
      ensures log == old(log) + [Uniform(bit)]
      ensures b == bit
    {
      log := log + [Uniform(bit)];
      b := bit;
    }
  }
}
