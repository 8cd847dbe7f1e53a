/** Neighbour-context propagation across the blocks of one macroblock
    (CodeResiduals, RecordResiduals, ResetAfterSkip).

    Each 4x4 block is coded in a context counting how many of its two
    neighbours (the block above, the block to the left) had a non-zero
    level. The encoder keeps one "non-zero" flag per column (top_nz_) and
    per row (left_nz_): slots 0-3 for luma, 4-5 for U, 6-7 for V, and slot 8
    for the separately coded luma DC block of i16 macroblocks. Coding a block
    reads the two flags of its column and row and overwrites both with the
    block's own flag. The C arrays hold the flags as the integers 0 and 1;
    here they are booleans and the context is the number of set flags.

    The functional part states the order in which blocks are coded as a
    schedule of slots and folds the flags over it; the grid lemmas then say
    which neighbour each flag holds when a block is coded. */
module MacroblockContext {
  import opened Vp8Common
  import opened ResidualCoder

  /** An index into top_nz_ or left_nz_. */
  type FlagIndex = i: int | 0 <= i < 9

  /** A block to code: the column flag and row flag it uses, and its
      residual. */
  datatype Slot = Slot(top: FlagIndex, left: FlagIndex, res: Residual)

  /** The top_nz_ and left_nz_ arrays, nine flags each. */
  datatype Flags = Flags(top: seq<bool>, left: seq<bool>)

  predicate ValidFlags(f: Flags) {
    |f.top| == 9 && |f.left| == 9
  }

  /** The flag a coded block leaves: whether it has a non-zero level (what
      PutCoeffs and VP8RecordCoeffs return, as 1 or 0). */
  function Nz(res: Residual): bool {
    res.last >= 0
  }

  function Count(b: bool): int {
    if b then 1 else 0
  }

  /** The context a block is coded in: the number of its set neighbour
      flags. */
  function Ctx(f: Flags, s: Slot): (ctx: int)
    requires ValidFlags(f)
    ensures 0 <= ctx < NumCtx
  {
    Count(f.top[s.top]) + Count(f.left[s.left])
  }

  /** Both neighbour flags of a coded block are overwritten with its own. */
  function Step(f: Flags, s: Slot): (g: Flags)
    requires ValidFlags(f)
    ensures ValidFlags(g)
  {
    Flags(f.top[s.top := Nz(s.res)], f.left[s.left := Nz(s.res)])
  }

  /** The flags after coding the slots in order. */
  function FoldFlags(f: Flags, slots: seq<Slot>): (g: Flags)
    requires ValidFlags(f)
    ensures ValidFlags(g)
    decreases |slots|
  {
    if slots == [] then f else FoldFlags(Step(f, slots[0]), slots[1..])
  }

  predicate Shapes(slots: seq<Slot>) {
    forall i :: 0 <= i < |slots| ==> Shaped(slots[i].res)
  }

  /** The decisions PutCoeffs appends while coding the slots in order. */
  function SlotTokens(f: Flags, slots: seq<Slot>, table: seq<int>): seq<Decision>
    requires ValidFlags(f) && Shapes(slots) && |table| == NumKeys
    decreases |slots|
  {
    if slots == [] then []
    else CoeffTokens(Ctx(f, slots[0]), slots[0].res, table) + SlotTokens(Step(f, slots[0]), slots[1..], table)
  }

  /** The context the k-th scheduled block is coded in. */
  function ContextAt(f: Flags, slots: seq<Slot>, k: int): (ctx: int)
    requires ValidFlags(f) && 0 <= k < |slots|
    ensures 0 <= ctx < NumCtx
    decreases k
  {
    if k == 0 then Ctx(f, slots[0]) else ContextAt(Step(f, slots[0]), slots[1..], k - 1)
  }

  /** The k-th block is coded in the context left by the k blocks before it. */
  lemma {:induction false} ContextAtFold(f: Flags, slots: seq<Slot>, k: int)
    requires ValidFlags(f) && 0 <= k < |slots|
    ensures ContextAt(f, slots, k) == Ctx(FoldFlags(f, slots[..k]), slots[k])
    decreases k
  {
    if k == 0 {
      assert slots[..k] == [];
    } else {
      assert slots[..k][1..] == slots[1..][..k - 1];
      ContextAtFold(Step(f, slots[0]), slots[1..], k - 1);
    }
  }

  lemma {:induction false} FoldFlagsSnoc(f: Flags, slots: seq<Slot>, s: Slot)
    requires ValidFlags(f)
    ensures FoldFlags(f, slots + [s]) == Step(FoldFlags(f, slots), s)
    decreases |slots|
  {
    if slots != [] {
      assert (slots + [s])[1..] == slots[1..] + [s];
      FoldFlagsSnoc(Step(f, slots[0]), slots[1..], s);
    }
  }

  lemma {:induction false} FoldFlagsAppend(f: Flags, a: seq<Slot>, b: seq<Slot>)
    requires ValidFlags(f)
    ensures FoldFlags(f, a + b) == FoldFlags(FoldFlags(f, a), b)
    decreases |a|
  {
    if a == [] {
      assert a + b == b;
    } else {
      assert (a + b)[1..] == a[1..] + b;
      FoldFlagsAppend(Step(f, a[0]), a[1..], b);
    }
  }

  /** Coding one more block appends its tokens, in the context left by the
      blocks before it. */
  lemma {:induction false} SlotTokensSnoc(f: Flags, slots: seq<Slot>, s: Slot, table: seq<int>)
    requires ValidFlags(f) && Shapes(slots) && Shaped(s.res) && |table| == NumKeys
    ensures Shapes(slots + [s])
    ensures SlotTokens(f, slots + [s], table)
         == SlotTokens(f, slots, table) + CoeffTokens(Ctx(FoldFlags(f, slots), s), s.res, table)
    decreases |slots|
  {
    if slots == [] {
      assert [s][1..] == [];
    } else {
      var g := Step(f, slots[0]);
      assert (slots + [s])[1..] == slots[1..] + [s];
      SlotTokensSnoc(g, slots[1..], s, table);
      AppendAssoc(CoeffTokens(Ctx(f, slots[0]), slots[0].res, table), SlotTokens(g, slots[1..], table),
                  CoeffTokens(Ctx(FoldFlags(g, slots[1..]), s), s.res, table));
    }
  }

  // ---------------------------------------------------------------------
  // Grids of blocks

  /** A grid of w-wide rows whose columns use flags tb.. and whose rows use
      flags lb..; every index it uses is a flag slot. */
  predicate GridFits(tb: int, lb: int, w: nat, rows: seq<seq<Residual>>) {
    && 0 <= tb && tb + w <= 9 && 0 <= lb && lb + |rows| <= 9
    && forall y :: 0 <= y < |rows| ==> |rows[y]| == w
  }

  /** Row y of the grid: the block in column x is rows[y][x]. */
  function GridRow(tb: int, lb: int, w: nat, rows: seq<seq<Residual>>, y: int): (slots: seq<Slot>)
    requires GridFits(tb, lb, w, rows) && 0 <= y < |rows|
    ensures |slots| == w
  {
    seq(w, x requires 0 <= x < w => Slot(tb + x, lb + y, rows[y][x]))
  }

  /** The first h rows of the grid, row by row, left to right. */
  function Grid(tb: int, lb: int, w: nat, rows: seq<seq<Residual>>, h: nat): seq<Slot>
    requires GridFits(tb, lb, w, rows) && h <= |rows|
  {
    if h == 0 then [] else Grid(tb, lb, w, rows, h - 1) + GridRow(tb, lb, w, rows, h - 1)
  }

  lemma {:induction false} GridLength(tb: int, lb: int, w: nat, rows: seq<seq<Residual>>, h: nat)
    requires GridFits(tb, lb, w, rows) && h <= |rows|
    ensures |Grid(tb, lb, w, rows, h)| == w * h
  {
    if h > 0 {
      GridLength(tb, lb, w, rows, h - 1);
    }
  }

  /** After the first x blocks of row y: the columns of those blocks hold
      their flags, the row's flag holds the last one's, nothing else moves. */
  lemma {:induction false} RowPrefixFlags(f: Flags, tb: int, lb: int, w: nat, rows: seq<seq<Residual>>, y: nat, x: nat)
    requires ValidFlags(f) && GridFits(tb, lb, w, rows) && y < |rows| && x <= w
    ensures forall i :: 0 <= i < 9 ==>
      FoldFlags(f, GridRow(tb, lb, w, rows, y)[..x]).top[i]
        == if tb <= i < tb + x then Nz(rows[y][i - tb]) else f.top[i]
    ensures forall i :: 0 <= i < 9 ==>
      FoldFlags(f, GridRow(tb, lb, w, rows, y)[..x]).left[i]
        == if i == lb + y && x > 0 then Nz(rows[y][x - 1]) else f.left[i]
  {
    var row := GridRow(tb, lb, w, rows, y);
    if x == 0 {
      assert row[..0] == [];
    } else {
      RowPrefixFlags(f, tb, lb, w, rows, y, x - 1);
      assert row[..x] == row[..x - 1] + [row[x - 1]];
      FoldFlagsSnoc(f, row[..x - 1], row[x - 1]);
    }
  }

  /** After the first h rows: each column holds the flag of its block in
      the last row, each coded row holds the flag of its rightmost block. */
  lemma {:induction false} GridFlags(f: Flags, tb: int, lb: int, w: nat, rows: seq<seq<Residual>>, h: nat)
    requires ValidFlags(f) && GridFits(tb, lb, w, rows) && h <= |rows| && w > 0
    ensures forall i :: 0 <= i < 9 ==>
      FoldFlags(f, Grid(tb, lb, w, rows, h)).top[i]
        == if tb <= i < tb + w && h > 0 then Nz(rows[h - 1][i - tb]) else f.top[i]
    ensures forall i :: 0 <= i < 9 ==>
      FoldFlags(f, Grid(tb, lb, w, rows, h)).left[i]
        == if lb <= i < lb + h then Nz(rows[i - lb][w - 1]) else f.left[i]
  {
    if h > 0 {
      GridFlags(f, tb, lb, w, rows, h - 1);
      var prev := Grid(tb, lb, w, rows, h - 1);
      var row := GridRow(tb, lb, w, rows, h - 1);
      var g0 := FoldFlags(f, prev);
      RowPrefixFlags(g0, tb, lb, w, rows, h - 1, w);
      assert row[..w] == row;
      FoldFlagsAppend(f, prev, row);
      forall i | 0 <= i < 9
        ensures FoldFlags(f, prev + row).left[i] == if lb <= i < lb + h then Nz(rows[i - lb][w - 1]) else f.left[i]
      {
        assert g0.left[i] == if lb <= i < lb + (h - 1) then Nz(rows[i - lb][w - 1]) else f.left[i];
      }
    }
  }

  lemma SliceMiddle<T>(pre: seq<T>, mid: seq<T>, post: seq<T>, j: nat)
    requires j < |mid|
    ensures (pre + mid + post)[..|pre| + j] == pre + mid[..j]
    ensures (pre + mid + post)[|pre| + j] == mid[j]
  {
    assert (pre + mid + post)[..|pre| + j] == (pre + mid)[..|pre| + j];
  }

  /** Block (x, y) of a grid is coded after the rows above it and the blocks
      to its left. */
  lemma {:induction false} GridPrefix(tb: int, lb: int, w: nat, rows: seq<seq<Residual>>, h: nat, x: nat, y: nat)
    requires GridFits(tb, lb, w, rows) && h <= |rows| && x < w && y < h
    ensures |Grid(tb, lb, w, rows, y)| + x < |Grid(tb, lb, w, rows, h)|
    ensures Grid(tb, lb, w, rows, h)[..|Grid(tb, lb, w, rows, y)| + x]
         == Grid(tb, lb, w, rows, y) + GridRow(tb, lb, w, rows, y)[..x]
    ensures Grid(tb, lb, w, rows, h)[|Grid(tb, lb, w, rows, y)| + x] == GridRow(tb, lb, w, rows, y)[x]
  {
    var prev := Grid(tb, lb, w, rows, h - 1);
    var last := GridRow(tb, lb, w, rows, h - 1);
    if y + 1 < h {
      GridPrefix(tb, lb, w, rows, h - 1, x, y);
      SliceMiddle([], prev, last, |Grid(tb, lb, w, rows, y)| + x);
      assert [] + prev + last == prev + last;
    } else {
      assert (prev + last)[..|prev| + x] == prev + last[..x];
    }
  }

  /** The context block (x, y) of a grid is coded in counts its neighbours:
      the block above it (or the incoming column flag on the first row) and
      the block to its left (or the incoming row flag on the first column). */
  lemma GridContext(f: Flags, tb: int, lb: int, w: nat, rows: seq<seq<Residual>>, x: nat, y: nat)
    requires ValidFlags(f) && GridFits(tb, lb, w, rows) && y < |rows| && x < w
    ensures Ctx(FoldFlags(f, Grid(tb, lb, w, rows, y) + GridRow(tb, lb, w, rows, y)[..x]), GridRow(tb, lb, w, rows, y)[x])
         == Count(if y > 0 then Nz(rows[y - 1][x]) else f.top[tb + x])
          + Count(if x > 0 then Nz(rows[y][x - 1]) else f.left[lb + y])
  {
    var prev := Grid(tb, lb, w, rows, y);
    var row := GridRow(tb, lb, w, rows, y);
    var g := FoldFlags(f, prev);
    var h := FoldFlags(g, row[..x]);
    assert FoldFlags(f, prev + row[..x]) == h by {
      FoldFlagsAppend(f, prev, row[..x]);
    }
    assert h.top[tb + x] == g.top[tb + x] && h.left[lb + y] == if x > 0 then Nz(rows[y][x - 1]) else g.left[lb + y] by {
      RowPrefixFlags(g, tb, lb, w, rows, y, x);
    }
    assert g.top[tb + x] == (if y > 0 then Nz(rows[y - 1][x]) else f.top[tb + x]) && g.left[lb + y] == f.left[lb + y] by {
      GridFlags(f, tb, lb, w, rows, y);
    }
    assert row[x] == Slot(tb + x, lb + y, rows[y][x]);
    assert Ctx(h, row[x]) == Count(h.top[tb + x]) + Count(h.left[lb + y]);
  }

  /** A block coded after `pre` and then `done` sees the flags those left. */
  lemma ContextAfter(f: Flags, slots: seq<Slot>, k: int, pre: seq<Slot>, done: seq<Slot>)
    requires ValidFlags(f) && 0 <= k < |slots| && slots[..k] == pre + done
    ensures ContextAt(f, slots, k) == Ctx(FoldFlags(FoldFlags(f, pre), done), slots[k])
  {
    ContextAtFold(f, slots, k);
    FoldFlagsAppend(f, pre, done);
  }

  lemma EmbeddedGridPrefix(pre: seq<Slot>, tb: int, lb: int, w: nat, rows: seq<seq<Residual>>,
                           post: seq<Slot>, x: nat, y: nat)
    requires GridFits(tb, lb, w, rows) && y < |rows| && x < w
    ensures |pre| + |Grid(tb, lb, w, rows, y)| + x < |pre + Grid(tb, lb, w, rows, |rows|) + post|
    ensures (pre + Grid(tb, lb, w, rows, |rows|) + post)[..|pre| + |Grid(tb, lb, w, rows, y)| + x]
         == pre + (Grid(tb, lb, w, rows, y) + GridRow(tb, lb, w, rows, y)[..x])
    ensures (pre + Grid(tb, lb, w, rows, |rows|) + post)[|pre| + |Grid(tb, lb, w, rows, y)| + x]
         == GridRow(tb, lb, w, rows, y)[x]
  {
    GridPrefix(tb, lb, w, rows, |rows|, x, y);
    SliceMiddle(pre, Grid(tb, lb, w, rows, |rows|), post, |Grid(tb, lb, w, rows, y)| + x);
  }

  /** Block (x, y) of a grid scheduled after `pre` sees the flags left by
      `pre`, the rows above it and the blocks to its left. */
  lemma EmbeddedContextAt(f: Flags, pre: seq<Slot>, tb: int, lb: int, w: nat, rows: seq<seq<Residual>>,
                          post: seq<Slot>, x: nat, y: nat)
    requires ValidFlags(f) && GridFits(tb, lb, w, rows) && y < |rows| && x < w
    ensures |pre| + |Grid(tb, lb, w, rows, y)| + x < |pre + Grid(tb, lb, w, rows, |rows|) + post|
    ensures ContextAt(f, pre + Grid(tb, lb, w, rows, |rows|) + post, |pre| + |Grid(tb, lb, w, rows, y)| + x)
         == Ctx(FoldFlags(FoldFlags(f, pre), Grid(tb, lb, w, rows, y) + GridRow(tb, lb, w, rows, y)[..x]),
                GridRow(tb, lb, w, rows, y)[x])
  {
    EmbeddedGridPrefix(pre, tb, lb, w, rows, post, x, y);
    ContextAfter(f, pre + Grid(tb, lb, w, rows, |rows|) + post, |pre| + |Grid(tb, lb, w, rows, y)| + x,
                 pre, Grid(tb, lb, w, rows, y) + GridRow(tb, lb, w, rows, y)[..x]);
  }

  /** A grid scheduled between `pre` and `post`: block (x, y) is coded in
      the context of its neighbours, with the flags `pre` left on the grid's
      edges. */
  lemma EmbeddedGridContext(f: Flags, slots: seq<Slot>, pre: seq<Slot>, tb: int, lb: int, w: nat,
                            rows: seq<seq<Residual>>, post: seq<Slot>, x: nat, y: nat)
    requires ValidFlags(f) && GridFits(tb, lb, w, rows) && y < |rows| && x < w
    requires slots == pre + Grid(tb, lb, w, rows, |rows|) + post
    ensures |pre| + |Grid(tb, lb, w, rows, y)| + x < |slots|
    ensures ContextAt(f, slots, |pre| + |Grid(tb, lb, w, rows, y)| + x)
         == Count(if y > 0 then Nz(rows[y - 1][x]) else FoldFlags(f, pre).top[tb + x])
          + Count(if x > 0 then Nz(rows[y][x - 1]) else FoldFlags(f, pre).left[lb + y])
  {
    EmbeddedContextAt(f, pre, tb, lb, w, rows, post, x, y);
    GridContext(FoldFlags(f, pre), tb, lb, w, rows, x, y);
  }

  /** The tokens of the first k + 1 slots extend those of the first k by
      the (k)-th block's tokens, coded in context ContextAt(f, slots, k). */
  lemma SlotTokensAt(f: Flags, slots: seq<Slot>, k: int, table: seq<int>)
    requires ValidFlags(f) && Shapes(slots) && |table| == NumKeys && 0 <= k < |slots|
    ensures Shapes(slots[..k]) && Shapes(slots[..k + 1])
    ensures SlotTokens(f, slots[..k + 1], table)
         == SlotTokens(f, slots[..k], table) + CoeffTokens(ContextAt(f, slots, k), slots[k].res, table)
  {
    assert slots[..k + 1] == slots[..k] + [slots[k]];
    ContextAtFold(f, slots, k);
    SlotTokensSnoc(f, slots[..k], slots[k], table);
  }

  // ---------------------------------------------------------------------
  // The schedule of one macroblock

  /** VP8ModeScore's quantised levels: the i16 luma DC block, the 16 luma
      blocks and the 8 chroma blocks (4 U then 4 V), 16 levels each. */
  datatype Levels = Levels(yDc: seq<int>, yAc: seq<seq<int>>, uv: seq<seq<int>>)

  predicate ValidLevels(rd: Levels) {
    && |rd.yDc| == 16 && |rd.yAc| == 16 && |rd.uv| == 8
    && (forall k :: 0 <= k < 16 ==> |rd.yAc[k]| == 16)
    && (forall k :: 0 <= k < 8 ==> |rd.uv[k]| == 16)
  }

  /** VP8InitResidual followed by VP8SetResidualCoeffs. */
  function Block(first: int, coeffType: int, levels: seq<int>): (res: Residual)
    requires (first == 0 || first == 1) && 0 <= coeffType < NumTypes && |levels| == 16
    ensures Shaped(res) && res.coeffs == levels && res.first == first && res.coeffType == coeffType
  {
    Residual(first, LastNonZero(levels), levels, coeffType)
  }

  /** Whether some level of the block is non-zero. */
  predicate Flag(levels: seq<int>) {
    exists i :: 0 <= i < |levels| && levels[i] != 0
  }

  /** The flag a coded block leaves says whether it has a non-zero level. */
  lemma NzBlock(first: int, coeffType: int, levels: seq<int>)
    requires (first == 0 || first == 1) && 0 <= coeffType < NumTypes && |levels| == 16
    ensures Nz(Block(first, coeffType, levels)) == Flag(levels)
  {
    var last := LastNonZero(levels);
    if last < 0 {
      assert forall i :: 0 <= i < |levels| ==> levels[i] == 0;
    } else {
      assert levels[last] != 0;
    }
  }

  predicate RowsShaped(rows: seq<seq<Residual>>) {
    forall y, x :: 0 <= y < |rows| && 0 <= x < |rows[y]| ==> Shaped(rows[y][x])
  }

  /** A luma block: i16-AC (type 0) starting at position 1 for an i16
      macroblock, i4 (type 3) starting at position 0 otherwise. */
  function LumaBlock(i16: bool, levels: seq<int>): (res: Residual)
    requires |levels| == 16
    ensures Shaped(res)
  {
    if i16 then Block(1, 0, levels) else Block(0, 3, levels)
  }

  /** The 16 luma blocks, in y_ac_levels order. */
  function LumaBlocks(i16: bool, rd: Levels): (blocks: seq<Residual>)
    requires ValidLevels(rd)
    ensures |blocks| == 16 && forall k :: 0 <= k < 16 ==> Shaped(blocks[k])
  {
    seq(16, k requires 0 <= k < 16 => LumaBlock(i16, rd.yAc[k]))
  }

  /** The luma blocks as four rows of four: row y, column x is
      y_ac_levels[x + y * 4]. */
  function LumaRows(i16: bool, rd: Levels): (rows: seq<seq<Residual>>)
    requires ValidLevels(rd)
    ensures GridFits(0, 0, 4, rows) && |rows| == 4
  {
    var blocks := LumaBlocks(i16, rd);
    seq(4, y requires 0 <= y < 4 => blocks[y * 4 .. y * 4 + 4])
  }

  /** The eight chroma blocks, U then V. */
  function ChromaBlocks(rd: Levels): (blocks: seq<Residual>)
    requires ValidLevels(rd)
    ensures |blocks| == 8 && forall k :: 0 <= k < 8 ==> Shaped(blocks[k])
  {
    seq(8, k requires 0 <= k < 8 => Block(0, 2, rd.uv[k]))
  }

  /** The blocks of chroma plane ch (0 for U, 2 for V) as two rows of two:
      row y, column x is uv_levels[ch * 2 + x + y * 2]. */
  function ChromaRows(ch: int, rd: Levels): (rows: seq<seq<Residual>>)
    requires ValidLevels(rd) && (ch == 0 || ch == 2)
    ensures GridFits(4 + ch, 4 + ch, 2, rows) && |rows| == 2
  {
    var blocks := ChromaBlocks(rd);
    var base := if ch == 0 then 0 else 4;
    seq(2, y requires 0 <= y < 2 => blocks[base + y * 2 .. base + y * 2 + 2])
  }

  /** The i16 DC block, coded first with the slot-8 flags. */
  function DcSlots(i16: bool, rd: Levels): seq<Slot>
    requires ValidLevels(rd)
  {
    if i16 then [Slot(8, 8, Block(0, 1, rd.yDc))] else []
  }

  function LumaGrid(i16: bool, rd: Levels): seq<Slot>
    requires ValidLevels(rd)
  {
    Grid(0, 0, 4, LumaRows(i16, rd), 4)
  }

  function ChromaGrid(ch: int, rd: Levels): seq<Slot>
    requires ValidLevels(rd) && (ch == 0 || ch == 2)
  {
    Grid(4 + ch, 4 + ch, 2, ChromaRows(ch, rd), 2)
  }

  /** The order CodeResiduals codes the blocks of a macroblock in: the DC
      block of an i16 macroblock, the luma blocks row by row, then U and V
      row by row. */
  function Schedule(i16: bool, rd: Levels): seq<Slot>
    requires ValidLevels(rd)
  {
    DcSlots(i16, rd) + LumaGrid(i16, rd) + ChromaGrid(0, rd) + ChromaGrid(2, rd)
  }

  lemma {:induction false} GridShapes(tb: int, lb: int, w: nat, rows: seq<seq<Residual>>, h: nat)
    requires GridFits(tb, lb, w, rows) && RowsShaped(rows) && h <= |rows|
    ensures Shapes(Grid(tb, lb, w, rows, h))
  {
    if h > 0 {
      GridShapes(tb, lb, w, rows, h - 1);
    }
  }

  /** Every scheduled block is a shaped residual; the schedule has one slot
      per block: 1 + 16 + 4 + 4 for i16 macroblocks, 16 + 4 + 4 otherwise. */
  lemma ScheduleShapes(i16: bool, rd: Levels)
    requires ValidLevels(rd)
    ensures Shapes(Schedule(i16, rd))
    ensures |Schedule(i16, rd)| == (if i16 then 25 else 24)
  {
    assert RowsShaped(LumaRows(i16, rd)) && RowsShaped(ChromaRows(0, rd)) && RowsShaped(ChromaRows(2, rd));
    GridShapes(0, 0, 4, LumaRows(i16, rd), 4);
    GridShapes(4, 4, 2, ChromaRows(0, rd), 2);
    GridShapes(6, 6, 2, ChromaRows(2, rd), 2);
    GridLength(0, 0, 4, LumaRows(i16, rd), 4);
    GridLength(4, 4, 2, ChromaRows(0, rd), 2);
    GridLength(6, 6, 2, ChromaRows(2, rd), 2);
  }

  /** The decisions coding the blocks of one macroblock, in order, from
      incoming flags f. */
  function MacroblockTokens(f: Flags, i16: bool, rd: Levels, table: seq<int>): seq<Decision>
    requires ValidFlags(f) && ValidLevels(rd) && |table| == NumKeys
  {
    ScheduleShapes(i16, rd);
    SlotTokens(f, Schedule(i16, rd), table)
  }

  // ---------------------------------------------------------------------
  // The flags each part of the schedule leaves

  lemma LumaNz(i16: bool, rd: Levels, y: int, x: int)
    requires ValidLevels(rd) && 0 <= y < 4 && 0 <= x < 4
    ensures Nz(LumaRows(i16, rd)[y][x]) == Flag(rd.yAc[x + y * 4])
  {
    var k := x + y * 4;
    assert LumaRows(i16, rd)[y][x] == LumaBlock(i16, rd.yAc[k]);
    if i16 { NzBlock(1, 0, rd.yAc[k]); } else { NzBlock(0, 3, rd.yAc[k]); }
  }

  lemma ChromaNz(ch: int, rd: Levels, y: int, x: int)
    requires ValidLevels(rd) && (ch == 0 || ch == 2) && 0 <= y < 2 && 0 <= x < 2
    ensures Nz(ChromaRows(ch, rd)[y][x]) == Flag(rd.uv[ch * 2 + x + y * 2])
  {
    var k := ch * 2 + x + y * 2;
    assert ChromaRows(ch, rd)[y][x] == ChromaBlocks(rd)[k];
    NzBlock(0, 2, rd.uv[k]);
  }

  /** The DC block of an i16 macroblock moves slot 8 only. */
  lemma DcFlags(f: Flags, i16: bool, rd: Levels)
    requires ValidFlags(f) && ValidLevels(rd)
    ensures forall i :: 0 <= i < 8 ==> FoldFlags(f, DcSlots(i16, rd)).top[i] == f.top[i]
    ensures forall i :: 0 <= i < 8 ==> FoldFlags(f, DcSlots(i16, rd)).left[i] == f.left[i]
    ensures FoldFlags(f, DcSlots(i16, rd)).top[8] == if i16 then Flag(rd.yDc) else f.top[8]
    ensures FoldFlags(f, DcSlots(i16, rd)).left[8] == if i16 then Flag(rd.yDc) else f.left[8]
  {
    if i16 {
      var s := Slot(8, 8, Block(0, 1, rd.yDc));
      assert FoldFlags(f, [s]) == FoldFlags(Step(f, s), []);
      NzBlock(0, 1, rd.yDc);
    }
  }

  /** After the luma blocks, column x holds the flag of luma block (x, 3)
      and row y the flag of luma block (3, y); slots 4-8 are untouched. */
  lemma LumaFlags(f: Flags, i16: bool, rd: Levels)
    requires ValidFlags(f) && ValidLevels(rd)
    ensures forall x :: 0 <= x < 4 ==> FoldFlags(f, LumaGrid(i16, rd)).top[x] == Flag(rd.yAc[x + 12])
    ensures forall y :: 0 <= y < 4 ==> FoldFlags(f, LumaGrid(i16, rd)).left[y] == Flag(rd.yAc[3 + y * 4])
    ensures forall i :: 4 <= i < 9 ==> FoldFlags(f, LumaGrid(i16, rd)).top[i] == f.top[i]
    ensures forall i :: 4 <= i < 9 ==> FoldFlags(f, LumaGrid(i16, rd)).left[i] == f.left[i]
  {
    var rows := LumaRows(i16, rd);
    GridFlags(f, 0, 0, 4, rows, 4);
    forall x | 0 <= x < 4 ensures Nz(rows[3][x]) == Flag(rd.yAc[x + 12]) { LumaNz(i16, rd, 3, x); }
    forall y | 0 <= y < 4 ensures Nz(rows[y][3]) == Flag(rd.yAc[3 + y * 4]) { LumaNz(i16, rd, y, 3); }
  }

  /** After chroma plane ch, its two columns (slots 4 + ch and 5 + ch) hold
      the flags of its bottom row and its two rows the flags of its right
      column; other slots are untouched. */
  lemma ChromaFlags(f: Flags, ch: int, rd: Levels)
    requires ValidFlags(f) && ValidLevels(rd) && (ch == 0 || ch == 2)
    ensures FoldFlags(f, ChromaGrid(ch, rd)).top[4 + ch] == Flag(rd.uv[ch * 2 + 2])
    ensures FoldFlags(f, ChromaGrid(ch, rd)).top[5 + ch] == Flag(rd.uv[ch * 2 + 3])
    ensures FoldFlags(f, ChromaGrid(ch, rd)).left[4 + ch] == Flag(rd.uv[ch * 2 + 1])
    ensures FoldFlags(f, ChromaGrid(ch, rd)).left[5 + ch] == Flag(rd.uv[ch * 2 + 3])
    ensures forall i :: 0 <= i < 9 && !(4 + ch <= i < 6 + ch) ==> FoldFlags(f, ChromaGrid(ch, rd)).top[i] == f.top[i]
    ensures forall i :: 0 <= i < 9 && !(4 + ch <= i < 6 + ch) ==> FoldFlags(f, ChromaGrid(ch, rd)).left[i] == f.left[i]
  {
    var rows := ChromaRows(ch, rd);
    GridFlags(f, 4 + ch, 4 + ch, 2, rows, 2);
    ChromaNz(ch, rd, 1, 0);
    ChromaNz(ch, rd, 1, 1);
    ChromaNz(ch, rd, 0, 1);
  }

  /** Coding U then V sets slots 4-7 from the chroma blocks' bottom rows
      and right columns and leaves slots 0-3 and 8 as they were. */
  lemma ChromaPlanesFlags(g: Flags, rd: Levels)
    requires ValidFlags(g) && ValidLevels(rd)
    ensures FoldFlags(FoldFlags(g, ChromaGrid(0, rd)), ChromaGrid(2, rd)).top[4] == Flag(rd.uv[2])
    ensures FoldFlags(FoldFlags(g, ChromaGrid(0, rd)), ChromaGrid(2, rd)).top[5] == Flag(rd.uv[3])
    ensures FoldFlags(FoldFlags(g, ChromaGrid(0, rd)), ChromaGrid(2, rd)).top[6] == Flag(rd.uv[6])
    ensures FoldFlags(FoldFlags(g, ChromaGrid(0, rd)), ChromaGrid(2, rd)).top[7] == Flag(rd.uv[7])
    ensures FoldFlags(FoldFlags(g, ChromaGrid(0, rd)), ChromaGrid(2, rd)).left[4] == Flag(rd.uv[1])
    ensures FoldFlags(FoldFlags(g, ChromaGrid(0, rd)), ChromaGrid(2, rd)).left[5] == Flag(rd.uv[3])
    ensures FoldFlags(FoldFlags(g, ChromaGrid(0, rd)), ChromaGrid(2, rd)).left[6] == Flag(rd.uv[5])
    ensures FoldFlags(FoldFlags(g, ChromaGrid(0, rd)), ChromaGrid(2, rd)).left[7] == Flag(rd.uv[7])
    ensures forall i :: 0 <= i < 9 && !(4 <= i < 8) ==>
      FoldFlags(FoldFlags(g, ChromaGrid(0, rd)), ChromaGrid(2, rd)).top[i] == g.top[i]
    ensures forall i :: 0 <= i < 9 && !(4 <= i < 8) ==>
      FoldFlags(FoldFlags(g, ChromaGrid(0, rd)), ChromaGrid(2, rd)).left[i] == g.left[i]
  {
    ChromaFlags(g, 0, rd);
    ChromaFlags(FoldFlags(g, ChromaGrid(0, rd)), 2, rd);
  }

  /** The flags after the whole schedule, in parts. */
  lemma ScheduleFold(f: Flags, i16: bool, rd: Levels)
    requires ValidFlags(f) && ValidLevels(rd)
    ensures FoldFlags(f, Schedule(i16, rd))
         == FoldFlags(FoldFlags(FoldFlags(FoldFlags(f, DcSlots(i16, rd)), LumaGrid(i16, rd)), ChromaGrid(0, rd)),
                      ChromaGrid(2, rd))
  {
    var dc, luma, u, v := DcSlots(i16, rd), LumaGrid(i16, rd), ChromaGrid(0, rd), ChromaGrid(2, rd);
    FoldFlagsAppend(f, dc, luma);
    FoldFlagsAppend(f, dc + luma, u);
    FoldFlagsAppend(f, dc + luma + u, v);
  }

  /** After the schedule, luma column x holds the flag of block (x, 3) and
      luma row y the flag of block (3, y). */
  lemma FinalLumaFlags(f: Flags, i16: bool, rd: Levels)
    requires ValidFlags(f) && ValidLevels(rd)
    ensures FoldFlags(f, Schedule(i16, rd)).top[0] == Flag(rd.yAc[12])
    ensures FoldFlags(f, Schedule(i16, rd)).top[1] == Flag(rd.yAc[13])
    ensures FoldFlags(f, Schedule(i16, rd)).top[2] == Flag(rd.yAc[14])
    ensures FoldFlags(f, Schedule(i16, rd)).top[3] == Flag(rd.yAc[15])
    ensures FoldFlags(f, Schedule(i16, rd)).left[0] == Flag(rd.yAc[3])
    ensures FoldFlags(f, Schedule(i16, rd)).left[1] == Flag(rd.yAc[7])
    ensures FoldFlags(f, Schedule(i16, rd)).left[2] == Flag(rd.yAc[11])
    ensures FoldFlags(f, Schedule(i16, rd)).left[3] == Flag(rd.yAc[15])
  {
    var g0 := FoldFlags(f, DcSlots(i16, rd));
    ScheduleFold(f, i16, rd);
    ChromaPlanesFlags(FoldFlags(g0, LumaGrid(i16, rd)), rd);
    LumaFlags(g0, i16, rd);
    assert 3 + 1 * 4 == 7 && 3 + 2 * 4 == 11 && 3 + 3 * 4 == 15;
  }

  /** After the schedule, slots 4-7 hold the chroma planes' last flags. */
  lemma FinalChromaFlags(f: Flags, i16: bool, rd: Levels)
    requires ValidFlags(f) && ValidLevels(rd)
    ensures FoldFlags(f, Schedule(i16, rd)).top[4] == Flag(rd.uv[2])
    ensures FoldFlags(f, Schedule(i16, rd)).top[5] == Flag(rd.uv[3])
    ensures FoldFlags(f, Schedule(i16, rd)).top[6] == Flag(rd.uv[6])
    ensures FoldFlags(f, Schedule(i16, rd)).top[7] == Flag(rd.uv[7])
    ensures FoldFlags(f, Schedule(i16, rd)).left[4] == Flag(rd.uv[1])
    ensures FoldFlags(f, Schedule(i16, rd)).left[5] == Flag(rd.uv[3])
    ensures FoldFlags(f, Schedule(i16, rd)).left[6] == Flag(rd.uv[5])
    ensures FoldFlags(f, Schedule(i16, rd)).left[7] == Flag(rd.uv[7])
  {
    ScheduleFold(f, i16, rd);
    ChromaPlanesFlags(FoldFlags(FoldFlags(f, DcSlots(i16, rd)), LumaGrid(i16, rd)), rd);
  }

  /** After the schedule, slot 8 holds the DC block's flag for an i16
      macroblock and is untouched otherwise. */
  lemma FinalDcFlags(f: Flags, i16: bool, rd: Levels)
    requires ValidFlags(f) && ValidLevels(rd)
    ensures FoldFlags(f, Schedule(i16, rd)).top[8] == if i16 then Flag(rd.yDc) else f.top[8]
    ensures FoldFlags(f, Schedule(i16, rd)).left[8] == if i16 then Flag(rd.yDc) else f.left[8]
  {
    var g0 := FoldFlags(f, DcSlots(i16, rd));
    ScheduleFold(f, i16, rd);
    ChromaPlanesFlags(FoldFlags(g0, LumaGrid(i16, rd)), rd);
    LumaFlags(g0, i16, rd);
    DcFlags(f, i16, rd);
  }

  lemma NineEqual(s: seq<bool>, b0: bool, b1: bool, b2: bool, b3: bool, b4: bool, b5: bool, b6: bool, b7: bool, b8: bool)
    requires |s| == 9
    requires s[0] == b0 && s[1] == b1 && s[2] == b2 && s[3] == b3 && s[4] == b4
    requires s[5] == b5 && s[6] == b6 && s[7] == b7 && s[8] == b8
    ensures s == [b0, b1, b2, b3, b4, b5, b6, b7, b8]
  {
  }

  lemma FinalTopFlags(f: Flags, i16: bool, rd: Levels)
    requires ValidFlags(f) && ValidLevels(rd)
    ensures FoldFlags(f, Schedule(i16, rd)).top
         == [Flag(rd.yAc[12]), Flag(rd.yAc[13]), Flag(rd.yAc[14]), Flag(rd.yAc[15]),
             Flag(rd.uv[2]), Flag(rd.uv[3]), Flag(rd.uv[6]), Flag(rd.uv[7]),
             if i16 then Flag(rd.yDc) else f.top[8]]
  {
    var g := FoldFlags(f, Schedule(i16, rd)).top;
    assert g[0] == Flag(rd.yAc[12]) && g[1] == Flag(rd.yAc[13]) && g[2] == Flag(rd.yAc[14]) && g[3] == Flag(rd.yAc[15]) by {
      FinalLumaFlags(f, i16, rd);
    }
    assert g[4] == Flag(rd.uv[2]) && g[5] == Flag(rd.uv[3]) && g[6] == Flag(rd.uv[6]) && g[7] == Flag(rd.uv[7]) by {
      FinalChromaFlags(f, i16, rd);
    }
    assert g[8] == if i16 then Flag(rd.yDc) else f.top[8] by {
      FinalDcFlags(f, i16, rd);
    }
    NineEqual(g, Flag(rd.yAc[12]), Flag(rd.yAc[13]), Flag(rd.yAc[14]), Flag(rd.yAc[15]),
              Flag(rd.uv[2]), Flag(rd.uv[3]), Flag(rd.uv[6]), Flag(rd.uv[7]),
              if i16 then Flag(rd.yDc) else f.top[8]);
  }

  lemma FinalLeftFlags(f: Flags, i16: bool, rd: Levels)
    requires ValidFlags(f) && ValidLevels(rd)
    ensures FoldFlags(f, Schedule(i16, rd)).left
         == [Flag(rd.yAc[3]), Flag(rd.yAc[7]), Flag(rd.yAc[11]), Flag(rd.yAc[15]),
             Flag(rd.uv[1]), Flag(rd.uv[3]), Flag(rd.uv[5]), Flag(rd.uv[7]),
             if i16 then Flag(rd.yDc) else f.left[8]]
  {
    var g := FoldFlags(f, Schedule(i16, rd)).left;
    assert g[0] == Flag(rd.yAc[3]) && g[1] == Flag(rd.yAc[7]) && g[2] == Flag(rd.yAc[11]) && g[3] == Flag(rd.yAc[15]) by {
      FinalLumaFlags(f, i16, rd);
    }
    assert g[4] == Flag(rd.uv[1]) && g[5] == Flag(rd.uv[3]) && g[6] == Flag(rd.uv[5]) && g[7] == Flag(rd.uv[7]) by {
      FinalChromaFlags(f, i16, rd);
    }
    assert g[8] == if i16 then Flag(rd.yDc) else f.left[8] by {
      FinalDcFlags(f, i16, rd);
    }
    NineEqual(g, Flag(rd.yAc[3]), Flag(rd.yAc[7]), Flag(rd.yAc[11]), Flag(rd.yAc[15]),
              Flag(rd.uv[1]), Flag(rd.uv[3]), Flag(rd.uv[5]), Flag(rd.uv[7]),
              if i16 then Flag(rd.yDc) else f.left[8]);
  }

  /** The flags CodeResiduals leaves for the next macroblock: each luma
      column and row holds the flag of its last block (bottom row, right
      column), likewise for U and V, and slot 8 the DC block's flag when the
      macroblock is i16 (untouched otherwise). */
  lemma FinalFlags(f: Flags, i16: bool, rd: Levels)
    requires ValidFlags(f) && ValidLevels(rd)
    ensures FoldFlags(f, Schedule(i16, rd)).top
         == [Flag(rd.yAc[12]), Flag(rd.yAc[13]), Flag(rd.yAc[14]), Flag(rd.yAc[15]),
             Flag(rd.uv[2]), Flag(rd.uv[3]), Flag(rd.uv[6]), Flag(rd.uv[7]),
             if i16 then Flag(rd.yDc) else f.top[8]]
    ensures FoldFlags(f, Schedule(i16, rd)).left
         == [Flag(rd.yAc[3]), Flag(rd.yAc[7]), Flag(rd.yAc[11]), Flag(rd.yAc[15]),
             Flag(rd.uv[1]), Flag(rd.uv[3]), Flag(rd.uv[5]), Flag(rd.uv[7]),
             if i16 then Flag(rd.yDc) else f.left[8]]
  {
    FinalTopFlags(f, i16, rd);
    FinalLeftFlags(f, i16, rd);
  }

  // ---------------------------------------------------------------------
  // The context of every block of one macroblock

  /** The schedule around the luma grid and around each chroma grid. */
  lemma ScheduleSplit(i16: bool, rd: Levels)
    requires ValidLevels(rd)
    ensures Schedule(i16, rd)
         == DcSlots(i16, rd) + Grid(0, 0, 4, LumaRows(i16, rd), |LumaRows(i16, rd)|)
          + (ChromaGrid(0, rd) + ChromaGrid(2, rd))
    ensures Schedule(i16, rd)
         == (DcSlots(i16, rd) + LumaGrid(i16, rd)) + Grid(4, 4, 2, ChromaRows(0, rd), |ChromaRows(0, rd)|)
          + ChromaGrid(2, rd)
    ensures Schedule(i16, rd)
         == (DcSlots(i16, rd) + LumaGrid(i16, rd) + ChromaGrid(0, rd)) + Grid(6, 6, 2, ChromaRows(2, rd), |ChromaRows(2, rd)|)
          + []
  {
    var dc, luma, u, v := DcSlots(i16, rd), LumaGrid(i16, rd), ChromaGrid(0, rd), ChromaGrid(2, rd);
    assert dc + luma + u + v == dc + luma + (u + v);
    assert dc + luma + u + v == dc + luma + u + v + [];
  }

  /** Luma block (x, y) is coded after the DC slots and the luma blocks
      before it, with the flags the DC block left on the luma grid's edges. */
  lemma LumaContextAt(f: Flags, i16: bool, rd: Levels, x: nat, y: nat)
    requires ValidFlags(f) && ValidLevels(rd) && x < 4 && y < 4
    ensures |DcSlots(i16, rd)| + |Grid(0, 0, 4, LumaRows(i16, rd), y)| + x == (if i16 then 1 else 0) + y * 4 + x
    ensures |DcSlots(i16, rd)| + |Grid(0, 0, 4, LumaRows(i16, rd), y)| + x < |Schedule(i16, rd)|
    ensures ContextAt(f, Schedule(i16, rd), |DcSlots(i16, rd)| + |Grid(0, 0, 4, LumaRows(i16, rd), y)| + x)
         == Count(if y > 0 then Nz(LumaRows(i16, rd)[y - 1][x]) else FoldFlags(f, DcSlots(i16, rd)).top[0 + x])
          + Count(if x > 0 then Nz(LumaRows(i16, rd)[y][x - 1]) else FoldFlags(f, DcSlots(i16, rd)).left[0 + y])
  {
    var dc, rows, post := DcSlots(i16, rd), LumaRows(i16, rd), ChromaGrid(0, rd) + ChromaGrid(2, rd);
    GridLength(0, 0, 4, rows, y);
    assert Schedule(i16, rd) == dc + Grid(0, 0, 4, rows, |rows|) + post by {
      ScheduleSplit(i16, rd);
    }
    EmbeddedGridContext(f, Schedule(i16, rd), dc, 0, 0, 4, rows, post, x, y);
  }

  /** The neighbour flags of luma block (x, y) in terms of the levels. */
  lemma LumaNeighbours(f: Flags, i16: bool, rd: Levels, x: nat, y: nat)
    requires ValidFlags(f) && ValidLevels(rd) && x < 4 && y < 4
    ensures (if y > 0 then Nz(LumaRows(i16, rd)[y - 1][x]) else FoldFlags(f, DcSlots(i16, rd)).top[0 + x])
         == (if y > 0 then Flag(rd.yAc[x + (y - 1) * 4]) else f.top[x])
    ensures (if x > 0 then Nz(LumaRows(i16, rd)[y][x - 1]) else FoldFlags(f, DcSlots(i16, rd)).left[0 + y])
         == (if x > 0 then Flag(rd.yAc[x - 1 + y * 4]) else f.left[y])
  {
    DcFlags(f, i16, rd);
    if y > 0 { LumaNz(i16, rd, y - 1, x); }
    if x > 0 { LumaNz(i16, rd, y, x - 1); }
  }

  /** The context of luma block (x, y), the (d + 4y + x)-th block coded
      where d is 1 for an i16 macroblock (its DC block comes first) and 0
      otherwise: the flag of the luma block above (the incoming column flag
      on the top row) plus the flag of the luma block to the left (the
      incoming row flag on the left column). */
  lemma LumaContext(f: Flags, i16: bool, rd: Levels, x: int, y: int)
    requires ValidFlags(f) && ValidLevels(rd) && 0 <= x < 4 && 0 <= y < 4
    ensures (if i16 then 1 else 0) + y * 4 + x < |Schedule(i16, rd)|
    ensures ContextAt(f, Schedule(i16, rd), (if i16 then 1 else 0) + y * 4 + x)
         == Count(if y > 0 then Flag(rd.yAc[x + (y - 1) * 4]) else f.top[x])
          + Count(if x > 0 then Flag(rd.yAc[x - 1 + y * 4]) else f.left[y])
  {
    LumaContextAt(f, i16, rd, x, y);
    LumaNeighbours(f, i16, rd, x, y);
  }

  /** The blocks coded before chroma plane ch: the DC and luma blocks, and
      for V the U blocks too. */
  function ChromaPre(i16: bool, rd: Levels, ch: int): seq<Slot>
    requires ValidLevels(rd) && (ch == 0 || ch == 2)
  {
    if ch == 0 then DcSlots(i16, rd) + LumaGrid(i16, rd) else DcSlots(i16, rd) + LumaGrid(i16, rd) + ChromaGrid(0, rd)
  }

  /** The blocks coded before a chroma plane leave its flags alone. */
  lemma ChromaPreFlags(f: Flags, i16: bool, rd: Levels, ch: int)
    requires ValidFlags(f) && ValidLevels(rd) && (ch == 0 || ch == 2)
    ensures forall i :: 4 + ch <= i < 6 + ch ==> FoldFlags(f, ChromaPre(i16, rd, ch)).top[i] == f.top[i]
    ensures forall i :: 4 + ch <= i < 6 + ch ==> FoldFlags(f, ChromaPre(i16, rd, ch)).left[i] == f.left[i]
  {
    var dc, luma := DcSlots(i16, rd), LumaGrid(i16, rd);
    var g0 := FoldFlags(f, dc);
    FoldFlagsAppend(f, dc, luma);
    DcFlags(f, i16, rd);
    LumaFlags(g0, i16, rd);
    if ch == 2 {
      FoldFlagsAppend(f, dc + luma, ChromaGrid(0, rd));
      ChromaFlags(FoldFlags(g0, luma), 0, rd);
    }
  }

  lemma ChromaPreLength(i16: bool, rd: Levels, ch: int)
    requires ValidLevels(rd) && (ch == 0 || ch == 2)
    ensures |ChromaPre(i16, rd, ch)| == (if i16 then 1 else 0) + 16 + ch * 2
  {
    GridLength(0, 0, 4, LumaRows(i16, rd), 4);
    GridLength(4, 4, 2, ChromaRows(0, rd), 2);
  }

  /** Block (x, y) of chroma plane ch is the (d + 16 + 2ch + 2y + x)-th
      block coded, with the flags the earlier blocks left on the plane's
      edges. */
  lemma ChromaContextAt(f: Flags, i16: bool, rd: Levels, ch: int, x: int, y: int)
    requires ValidFlags(f) && ValidLevels(rd) && (ch == 0 || ch == 2) && 0 <= x < 2 && 0 <= y < 2
    ensures (if i16 then 1 else 0) + 16 + ch * 2 + y * 2 + x < |Schedule(i16, rd)|
    ensures ContextAt(f, Schedule(i16, rd), (if i16 then 1 else 0) + 16 + ch * 2 + y * 2 + x)
         == Count(if y > 0 then Nz(ChromaRows(ch, rd)[y - 1][x]) else FoldFlags(f, ChromaPre(i16, rd, ch)).top[4 + ch + x])
          + Count(if x > 0 then Nz(ChromaRows(ch, rd)[y][x - 1]) else FoldFlags(f, ChromaPre(i16, rd, ch)).left[4 + ch + y])
  {
    var pre, rows := ChromaPre(i16, rd, ch), ChromaRows(ch, rd);
    var post := if ch == 0 then ChromaGrid(2, rd) else [];
    var k := |pre| + |Grid(4 + ch, 4 + ch, 2, rows, y)| + x;
    assert k == (if i16 then 1 else 0) + 16 + ch * 2 + y * 2 + x by {
      ChromaPreLength(i16, rd, ch);
      GridLength(4 + ch, 4 + ch, 2, rows, y);
    }
    assert Schedule(i16, rd) == pre + Grid(4 + ch, 4 + ch, 2, rows, |rows|) + post by {
      ScheduleSplit(i16, rd);
    }
    EmbeddedGridContext(f, Schedule(i16, rd), pre, 4 + ch, 4 + ch, 2, rows, post, x, y);
  }

  /** The context of block (x, y) of chroma plane ch (0 for U, 2 for V),
      coded after the DC and luma blocks and, for V, the four U blocks: its
      neighbours within the plane, or the incoming flags on the plane's
      edges. */
  lemma ChromaContext(f: Flags, i16: bool, rd: Levels, ch: int, x: int, y: int)
    requires ValidFlags(f) && ValidLevels(rd) && (ch == 0 || ch == 2) && 0 <= x < 2 && 0 <= y < 2
    ensures (if i16 then 1 else 0) + 16 + ch * 2 + y * 2 + x < |Schedule(i16, rd)|
    ensures ContextAt(f, Schedule(i16, rd), (if i16 then 1 else 0) + 16 + ch * 2 + y * 2 + x)
         == Count(if y > 0 then Flag(rd.uv[ch * 2 + x + (y - 1) * 2]) else f.top[4 + ch + x])
          + Count(if x > 0 then Flag(rd.uv[ch * 2 + (x - 1) + y * 2]) else f.left[4 + ch + y])
  {
    ChromaContextAt(f, i16, rd, ch, x, y);
    ChromaPreFlags(f, i16, rd, ch);
    if y > 0 { ChromaNz(ch, rd, y - 1, x); }
    if x > 0 { ChromaNz(ch, rd, y, x - 1); }
  }

  /** The DC block of an i16 macroblock is coded first, in the context of
      the two slot-8 flags. */
  lemma DcContext(f: Flags, rd: Levels)
    requires ValidFlags(f) && ValidLevels(rd)
    ensures 0 < |Schedule(true, rd)|
    ensures ContextAt(f, Schedule(true, rd), 0) == Count(f.top[8]) + Count(f.left[8])
  {
    assert Schedule(true, rd)[0] == Slot(8, 8, Block(0, 1, rd.yDc));
  }

  // ---------------------------------------------------------------------
  // Which block is coded k-th

  /** The DC block of an i16 macroblock is coded first. */
  lemma ScheduleDcSlot(rd: Levels)
    requires ValidLevels(rd)
    ensures 0 < |Schedule(true, rd)| && Schedule(true, rd)[0] == Slot(8, 8, Block(0, 1, rd.yDc))
  {
  }

  /** Luma block (x, y), from y_ac_levels[x + y * 4], is coded (d + 4y + x)-th
      with column flag x and row flag y. */
  lemma ScheduleLumaSlot(i16: bool, rd: Levels, x: nat, y: nat)
    requires ValidLevels(rd) && x < 4 && y < 4
    ensures (if i16 then 1 else 0) + y * 4 + x < |Schedule(i16, rd)|
    ensures Schedule(i16, rd)[(if i16 then 1 else 0) + y * 4 + x] == Slot(x, y, LumaBlock(i16, rd.yAc[x + y * 4]))
  {
    var dc, rows, post := DcSlots(i16, rd), LumaRows(i16, rd), ChromaGrid(0, rd) + ChromaGrid(2, rd);
    GridLength(0, 0, 4, rows, y);
    assert Schedule(i16, rd) == dc + Grid(0, 0, 4, rows, |rows|) + post by {
      ScheduleSplit(i16, rd);
    }
    EmbeddedGridPrefix(dc, 0, 0, 4, rows, post, x, y);
    assert rows[y][x] == LumaBlock(i16, rd.yAc[x + y * 4]);
  }

  /** Block (x, y) of chroma plane ch, from uv_levels[ch * 2 + x + y * 2],
      is coded (d + 16 + 2ch + 2y + x)-th with column flag 4 + ch + x and
      row flag 4 + ch + y. */
  lemma ScheduleChromaSlot(i16: bool, rd: Levels, ch: int, x: nat, y: nat)
    requires ValidLevels(rd) && (ch == 0 || ch == 2) && x < 2 && y < 2
    ensures (if i16 then 1 else 0) + 16 + ch * 2 + y * 2 + x < |Schedule(i16, rd)|
    ensures Schedule(i16, rd)[(if i16 then 1 else 0) + 16 + ch * 2 + y * 2 + x]
         == Slot(4 + ch + x, 4 + ch + y, Block(0, 2, rd.uv[ch * 2 + x + y * 2]))
  {
    var pre, rows := ChromaPre(i16, rd, ch), ChromaRows(ch, rd);
    var post := if ch == 0 then ChromaGrid(2, rd) else [];
    ChromaPreLength(i16, rd, ch);
    GridLength(4 + ch, 4 + ch, 2, rows, y);
    assert Schedule(i16, rd) == pre + Grid(4 + ch, 4 + ch, 2, rows, |rows|) + post by {
      ScheduleSplit(i16, rd);
    }
    EmbeddedGridPrefix(pre, 4 + ch, 4 + ch, 2, rows, post, x, y);
    assert rows[y][x] == ChromaBlocks(rd)[ch * 2 + x + y * 2];
  }
}
