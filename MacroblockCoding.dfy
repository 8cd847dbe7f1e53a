/** The iterator state that CodeResiduals, RecordResiduals and
    ResetAfterSkip update in place: the top_nz_ and left_nz_ flag arrays and
    the packed non-zero word *nz_ of the current macroblock.

    The methods walk the blocks of a macroblock in the order of the C loops
    and are proved against the schedule and flag fold of MacroblockContext:
    after CodeResiduals the flags are the fold of the whole schedule and the
    bit writer holds the tokens of every block, each coded in the context its
    neighbours left. */
module MacroblockCoding {
  import opened Vp8Common
  import opened ResidualCoder
  import opened MacroblockContext

  /** Coding the n-th scheduled block extends the flags and the tokens of
      the first n blocks by that block's step and tokens. */
  lemma ScheduleStep(f0: Flags, slots: seq<Slot>, n: int, table: seq<int>, log0: seq<Decision>)
    requires ValidFlags(f0) && Shapes(slots) && 0 <= n < |slots| && |table| == NumKeys
    ensures Shapes(slots[..n]) && Shapes(slots[..n + 1])
    ensures FoldFlags(f0, slots[..n + 1]) == Step(FoldFlags(f0, slots[..n]), slots[n])
    ensures log0 + SlotTokens(f0, slots[..n + 1], table)
         == log0 + SlotTokens(f0, slots[..n], table)
          + CoeffTokens(Ctx(FoldFlags(f0, slots[..n]), slots[n]), slots[n].res, table)
  {
    assert slots[..n + 1] == slots[..n] + [slots[n]];
    FoldFlagsSnoc(f0, slots[..n], slots[n]);
    SlotTokensSnoc(f0, slots[..n], slots[n], table);
    AppendAssoc(log0, SlotTokens(f0, slots[..n], table),
                CoeffTokens(Ctx(FoldFlags(f0, slots[..n]), slots[n]), slots[n].res, table));
  }

  /** Recording the n-th scheduled block extends the flags of the first n. */
  lemma ScheduleFlagStep(f0: Flags, slots: seq<Slot>, n: int)
    requires ValidFlags(f0) && 0 <= n < |slots|
    ensures FoldFlags(f0, slots[..n + 1]) == Step(FoldFlags(f0, slots[..n]), slots[n])
  {
    assert slots[..n + 1] == slots[..n] + [slots[n]];
    FoldFlagsSnoc(f0, slots[..n], slots[n]);
  }

  /** ResetAfterSkip on the packed word: an i16 macroblock clears every
      non-zero bit, any other keeps only bit 24, the luma DC flag. */
  function SkipReset(i16: bool, nz: bv32): (r: bv32)
  {
    if i16 then 0 else nz & (1 << 24)
  }

  /** Bit i of a 32-bit word. */
  predicate Bit(v: bv32, i: nat)
    requires i < 32
  {
    (v >> i) & 1 == 1
  }

  /** After a skipped macroblock no flag is set except, for a non-i16
      macroblock, the DC flag it had. */
  lemma SkipResetBits(i16: bool, nz: bv32, i: nat)
    requires i < 32
    ensures Bit(SkipReset(i16, nz), i) == (!i16 && i == 24 && Bit(nz, 24))
  {
  }

  /** The encoder's macroblock iterator, restricted to the non-zero
      bookkeeping: nine top flags, nine left flags, and the packed word. */
  class EncIterator {
    var topNz: array<bool>
    var leftNz: array<bool>
    var nz: bv32

    predicate Valid()
      reads this
    {
      topNz.Length == 9 && leftNz.Length == 9 && topNz != leftNz
    }

    /** The flags as a value. */
    function NzFlags(): (f: Flags)
      reads this, topNz, leftNz
      requires Valid()
      ensures ValidFlags(f)
    {
      Flags(topNz[..], leftNz[..])
    }

    constructor ()
      ensures Valid() && fresh(topNz) && fresh(leftNz)
      ensures NzFlags() == Flags(seq(9, _ => false), seq(9, _ => false)) && nz == 0
    {
      topNz := new bool[9](_ => false);
      leftNz := new bool[9](_ => false);
      nz := 0;
    }

    /** One block: the context is the sum of its column and row flags, and
        both are overwritten with PutCoeffs' result. */
    method CodeBlock(bw: BitWriter, s: Slot, table: seq<int>)
      requires Valid() && Shaped(s.res) && |table| == NumKeys
      modifies bw, topNz, leftNz
      ensures Valid()
      ensures NzFlags() == Step(old(NzFlags()), s)
      ensures bw.log == old(bw.log) + CoeffTokens(Ctx(old(NzFlags()), s), s.res, table)
    {
      ghost var f := NzFlags();
      var ctx := Count(topNz[s.top]) + Count(leftNz[s.left]);
      assert ctx == Ctx(f, s);
      var r := PutCoeffs(bw, ctx, s.res, table);
      topNz[s.top] := r != 0;
      assert topNz[..] == f.top[s.top := Nz(s.res)];
      leftNz[s.left] := r != 0;
      assert leftNz[..] == f.left[s.left := Nz(s.res)];
    }

    /** One block of RecordResiduals: its flags are overwritten with whether
        it has a non-zero level, the value VP8RecordCoeffs returns. */
    method RecordBlock(s: Slot)
      requires Valid()
      modifies topNz, leftNz
      ensures Valid()
      ensures NzFlags() == Step(old(NzFlags()), s)
    {
      ghost var f := NzFlags();
      var r := Nz(s.res);
      topNz[s.top] := r;
      assert topNz[..] == f.top[s.top := r];
      leftNz[s.left] := r;
      assert leftNz[..] == f.left[s.left := r];
    }

    /** The first n scheduled blocks have been coded from flags f0 onto
        a log that held log0. */
    predicate CodedUpTo(bw: BitWriter, f0: Flags, log0: seq<Decision>, slots: seq<Slot>, n: int, table: seq<int>)
      reads this, topNz, leftNz, bw
    {
      && Valid() && ValidFlags(f0) && Shapes(slots) && 0 <= n <= |slots| && |table| == NumKeys
      && NzFlags() == FoldFlags(f0, slots[..n])
      && bw.log == log0 + SlotTokens(f0, slots[..n], table)
    }

    /** Codes the n-th scheduled block. */
    method CodeNext(bw: BitWriter, ghost f0: Flags, ghost log0: seq<Decision>, ghost slots: seq<Slot>, ghost n: int,
                    s: Slot, table: seq<int>)
      requires CodedUpTo(bw, f0, log0, slots, n, table) && n < |slots| && slots[n] == s
      modifies bw, topNz, leftNz
      ensures CodedUpTo(bw, f0, log0, slots, n + 1, table)
    {
      ScheduleStep(f0, slots, n, table, log0);
      CodeBlock(bw, s, table);
    }

    /** Luma block (x, y), coded from y_ac_levels[x + y * 4], is the n-th
        scheduled block. */
    method CodeLumaBlock(bw: BitWriter, i16: bool, rd: Levels, x: nat, y: nat, table: seq<int>,
                         ghost f0: Flags, ghost log0: seq<Decision>, ghost n: int)
      requires ValidLevels(rd) && x < 4 && y < 4 && n == (if i16 then 1 else 0) + y * 4 + x
      requires CodedUpTo(bw, f0, log0, Schedule(i16, rd), n, table)
      modifies bw, topNz, leftNz
      ensures CodedUpTo(bw, f0, log0, Schedule(i16, rd), n + 1, table)
    {
      ScheduleLumaSlot(i16, rd, x, y);
      CodeNext(bw, f0, log0, Schedule(i16, rd), n, Slot(x, y, LumaBlock(i16, rd.yAc[x + y * 4])), table);
    }

    /** Block (x, y) of chroma plane ch, coded from uv_levels[ch * 2 + x + y * 2],
        is the n-th scheduled block. */
    method CodeChromaBlock(bw: BitWriter, i16: bool, rd: Levels, ch: int, x: nat, y: nat, table: seq<int>,
                           ghost f0: Flags, ghost log0: seq<Decision>, ghost n: int)
      requires ValidLevels(rd) && (ch == 0 || ch == 2) && x < 2 && y < 2
      requires n == (if i16 then 1 else 0) + 16 + ch * 2 + y * 2 + x
      requires CodedUpTo(bw, f0, log0, Schedule(i16, rd), n, table)
      modifies bw, topNz, leftNz
      ensures CodedUpTo(bw, f0, log0, Schedule(i16, rd), n + 1, table)
    {
      ScheduleChromaSlot(i16, rd, ch, x, y);
      CodeNext(bw, f0, log0, Schedule(i16, rd), n, Slot(4 + ch + x, 4 + ch + y, Block(0, 2, rd.uv[ch * 2 + x + y * 2])), table);
    }

    /** The luma-AC loop of CodeResiduals. */
    method CodeLuma(bw: BitWriter, i16: bool, rd: Levels, table: seq<int>,
                    ghost f0: Flags, ghost log0: seq<Decision>, ghost n0: int)
      requires ValidLevels(rd) && n0 == (if i16 then 1 else 0)
      requires CodedUpTo(bw, f0, log0, Schedule(i16, rd), n0, table)
      modifies bw, topNz, leftNz
      ensures CodedUpTo(bw, f0, log0, Schedule(i16, rd), n0 + 16, table)
    {
      ghost var n := n0;
      for y := 0 to 4
        invariant n == n0 + y * 4 && CodedUpTo(bw, f0, log0, Schedule(i16, rd), n, table)
      {
        for x := 0 to 4
          invariant n == n0 + y * 4 + x && CodedUpTo(bw, f0, log0, Schedule(i16, rd), n, table)
        {
          CodeLumaBlock(bw, i16, rd, x, y, table, f0, log0, n);
          n := n + 1;
        }
      }
    }

    /** The blocks of chroma plane ch (0 for U, 2 for V), row by row. */
    method CodePlane(bw: BitWriter, i16: bool, rd: Levels, ch: int, table: seq<int>,
                     ghost f0: Flags, ghost log0: seq<Decision>, ghost n0: int)
      requires ValidLevels(rd) && (ch == 0 || ch == 2) && n0 == (if i16 then 1 else 0) + 16 + ch * 2
      requires CodedUpTo(bw, f0, log0, Schedule(i16, rd), n0, table)
      modifies bw, topNz, leftNz
      ensures CodedUpTo(bw, f0, log0, Schedule(i16, rd), n0 + 4, table)
    {
      ghost var n := n0;
      for y := 0 to 2
        invariant n == n0 + y * 2 && CodedUpTo(bw, f0, log0, Schedule(i16, rd), n, table)
      {
        for x := 0 to 2
          invariant n == n0 + y * 2 + x && CodedUpTo(bw, f0, log0, Schedule(i16, rd), n, table)
        {
          CodeChromaBlock(bw, i16, rd, ch, x, y, table, f0, log0, n);
          n := n + 1;
        }
      }
    }

    /** The U/V loop of CodeResiduals. */
    method CodeChroma(bw: BitWriter, i16: bool, rd: Levels, table: seq<int>,
                      ghost f0: Flags, ghost log0: seq<Decision>, ghost n0: int)
      requires ValidLevels(rd) && n0 == (if i16 then 1 else 0) + 16
      requires CodedUpTo(bw, f0, log0, Schedule(i16, rd), n0, table)
      modifies bw, topNz, leftNz
      ensures CodedUpTo(bw, f0, log0, Schedule(i16, rd), n0 + 8, table)
    {
      ghost var n := n0;
      var ch := 0;
      while ch <= 2
        invariant (ch == 0 || ch == 2 || ch == 4) && n == n0 + ch * 2
        invariant CodedUpTo(bw, f0, log0, Schedule(i16, rd), n, table)
      {
        CodePlane(bw, i16, rd, ch, table, f0, log0, n);
        n := n + 4;
        ch := ch + 2;
      }
    }

    /** Codes the residuals of one macroblock: the DC block of an i16
        macroblock, the 16 luma blocks row by row, then the U and the V
        blocks. */
    method CodeResiduals(bw: BitWriter, i16: bool, rd: Levels, table: seq<int>)
      requires Valid() && ValidLevels(rd) && |table| == NumKeys
      modifies bw, topNz, leftNz
      ensures Valid()
      ensures NzFlags() == FoldFlags(old(NzFlags()), Schedule(i16, rd))
      ensures bw.log == old(bw.log) + MacroblockTokens(old(NzFlags()), i16, rd, table)
    {
      ghost var f0, log0, slots := NzFlags(), bw.log, Schedule(i16, rd);
      ScheduleShapes(i16, rd);
      assert slots[..0] == [] && log0 + [] == log0;
      if i16 {
        ScheduleDcSlot(rd);
        CodeNext(bw, f0, log0, slots, 0, Slot(8, 8, Block(0, 1, rd.yDc)), table);
      }
      ghost var n := if i16 then 1 else 0;
      CodeLuma(bw, i16, rd, table, f0, log0, n);
      CodeChroma(bw, i16, rd, table, f0, log0, n + 16);
      assert slots[..|slots|] == slots;
    }

    /** The first n scheduled blocks have been recorded from flags f0. */
    predicate RecordedUpTo(f0: Flags, slots: seq<Slot>, n: int)
      reads this, topNz, leftNz
    {
      Valid() && ValidFlags(f0) && 0 <= n <= |slots| && NzFlags() == FoldFlags(f0, slots[..n])
    }

    /** Records luma block (x, y), the n-th scheduled block. */
    method RecordLumaBlock(i16: bool, rd: Levels, x: nat, y: nat, ghost f0: Flags, ghost n: int)
      requires ValidLevels(rd) && x < 4 && y < 4 && n == (if i16 then 1 else 0) + y * 4 + x
      requires RecordedUpTo(f0, Schedule(i16, rd), n)
      modifies topNz, leftNz
      ensures RecordedUpTo(f0, Schedule(i16, rd), n + 1)
    {
      ScheduleLumaSlot(i16, rd, x, y);
      ScheduleFlagStep(f0, Schedule(i16, rd), n);
      RecordBlock(Slot(x, y, LumaBlock(i16, rd.yAc[x + y * 4])));
    }

    /** Records block (x, y) of chroma plane ch, the n-th scheduled block. */
    method RecordChromaBlock(i16: bool, rd: Levels, ch: int, x: nat, y: nat, ghost f0: Flags, ghost n: int)
      requires ValidLevels(rd) && (ch == 0 || ch == 2) && x < 2 && y < 2
      requires n == (if i16 then 1 else 0) + 16 + ch * 2 + y * 2 + x
      requires RecordedUpTo(f0, Schedule(i16, rd), n)
      modifies topNz, leftNz
      ensures RecordedUpTo(f0, Schedule(i16, rd), n + 1)
    {
      ScheduleChromaSlot(i16, rd, ch, x, y);
      ScheduleFlagStep(f0, Schedule(i16, rd), n);
      RecordBlock(Slot(4 + ch + x, 4 + ch + y, Block(0, 2, rd.uv[ch * 2 + x + y * 2])));
    }

    /** The same walk as CodeResiduals, recording instead of coding: only
        the flags change. */
    method RecordResiduals(i16: bool, rd: Levels)
      requires Valid() && ValidLevels(rd)
      modifies topNz, leftNz
      ensures Valid()
      ensures NzFlags() == FoldFlags(old(NzFlags()), Schedule(i16, rd))
    {
      ghost var f0 := NzFlags();
      ghost var n := 0;
      assert Schedule(i16, rd)[..0] == [];
      if i16 {
        ScheduleDcSlot(rd);
        ScheduleFlagStep(f0, Schedule(i16, rd), 0);
        RecordBlock(Slot(8, 8, Block(0, 1, rd.yDc)));
        n := 1;
      }
      // luma-AC
      for y := 0 to 4
        invariant n == (if i16 then 1 else 0) + y * 4 && RecordedUpTo(f0, Schedule(i16, rd), n)
      {
        for x := 0 to 4
          invariant n == (if i16 then 1 else 0) + y * 4 + x && RecordedUpTo(f0, Schedule(i16, rd), n)
        {
          RecordLumaBlock(i16, rd, x, y, f0, n);
          n := n + 1;
        }
      }
      // U/V
      var ch := 0;
      while ch <= 2
        invariant (ch == 0 || ch == 2 || ch == 4) && n == (if i16 then 1 else 0) + 16 + ch * 2
        invariant RecordedUpTo(f0, Schedule(i16, rd), n)
      {
        for y := 0 to 2
          invariant n == (if i16 then 1 else 0) + 16 + ch * 2 + y * 2 && RecordedUpTo(f0, Schedule(i16, rd), n)
        {
          for x := 0 to 2
            invariant n == (if i16 then 1 else 0) + 16 + ch * 2 + y * 2 + x && RecordedUpTo(f0, Schedule(i16, rd), n)
          {
            RecordChromaBlock(i16, rd, ch, x, y, f0, n);
            n := n + 1;
          }
        }
        ch := ch + 2;
      }
      ScheduleShapes(i16, rd);
      assert Schedule(i16, rd)[..n] == Schedule(i16, rd);
    }

    /** After a skipped macroblock: an i16 macroblock resets every
        predictor, the packed word and the left DC flag; any other keeps
        only the DC bit of the packed word. */
    method ResetAfterSkip(i16: bool)
      requires Valid()
      modifies this, leftNz
      ensures Valid() && topNz == old(topNz) && leftNz == old(leftNz)
      ensures nz == SkipReset(i16, old(nz))
      ensures leftNz[..] == if i16 then old(leftNz[..])[8 := false] else old(leftNz[..])
    {
      if i16 {
        nz := 0;
        leftNz[8] := false;
      } else {
        nz := nz & (1 << 24);
      }
    }
  }
}
