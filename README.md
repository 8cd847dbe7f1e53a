# VP8 coefficient coding and statistics passes, gzip member framing

This project models two parts of the repository.

The first is the core of the accelerated WebP encoder's frame coder (`webp/src/enc/frame.c`):

- **Token coding.** The VP8 coefficient token coder turns a block of up to 16 quantised levels into boolean-coder decisions (PutCoeffs). The token tree and the escape categories 3 to 6 follow section 13.2 of RFC 6386.
- **Non-zero contexts.** Each block is coded in a context taken from the "non-zero" flags of its neighbours. CodeResiduals, RecordResiduals and ResetAfterSkip carry those flags through a macroblock.
- **Probability estimation.** The encoder estimates:
  - the skip probability (CalcSkipProba, FinalizeSkipProba);
  - the coefficient probabilities (CalcTokenProba, BranchCost, FinalizeTokenProbas);
  - the segment-tree probabilities (GetProba, SetSegmentProbas).
- **Statistics passes (StatLoop).** Before the final encoding, the encoder runs statistics passes:
  - a secant search on the quantiser towards a target size or PSNR (InitPassStats, Clamp, ComputeNextQ);
  - a fast probe over few macroblocks;
  - a retry with a halved i4 header budget when partition 0 would overflow;
  - finalization of the probabilities, either inside each size-search pass or after the loop.
- **PostLoopFinalize.** This finishes the partitions after the encoding loop and turns per-segment bit counts into byte counts.

The second is the gzip member written by the FPGA host code (`GZip/src/xil_gzip.cpp`, `zip`) and the size it hands the compression kernel per unit.

## How the model is organised

The model is split into these modules:

| module | what it holds |
|---|---|
| `Arith` | Powers of two and division facts. |
| `Vp8Common` | Constants, the flat probability key space and the bit writer. The writer is an append-only log of decisions, each coded with an 8-bit probability or at even odds. |
| `ResidualCoder` | PutCoeffs and its helpers, each proved to append a specification function of its inputs to the log (CoeffTokens). It also holds a position-by-position reference definition of the token syntax (RefTokens), proved equal to CoeffTokens. |
| `TokenDecoder` | A decoder for the token syntax, the partner of the coder. It is proved to recover every codable block from the bits the coder writes. |
| `MacroblockContext` | The order in which CodeResiduals visits the 25 or 24 blocks of a macroblock, as a schedule of slots, and the fold of the non-zero flags over it. Lemmas state which neighbour's flag each block's context counts and what the flags hold after the macroblock. |
| `MacroblockCoding` | The iterator as a class with the nine top and nine left flags as arrays, plus the packed `nz` word. CodeResiduals, RecordResiduals and ResetAfterSkip are proved against the functions of MacroblockContext. |
| `Probas` | The probability estimators, the cost model and the encoder's probability state as a class. |
| `PassControl` | PassStats, the search step, OneStatPass, StatLoop and PostLoopFinalize. |
| `Gzip` | The output stream, the byte layout of the member, its parser and the round trip, and the unit size. |

How the source's quantities are represented:

- The bit-cost table `VP8BitCost` is a parameter `cost`.
- The default and update-probability tables (`VP8CoeffsProba0`, `VP8CoeffsUpdateProba`) are sequence parameters.
- The `[type][band][ctx][proba]` C arrays are flat sequences in the same row-major order.
- `float` and `double` are real numbers.
- The non-zero flags, 0 and 1 in C, are booleans.
- A statistics pass's visit of the macroblocks is a function parameter. That visit covers mode decision, token recording, distortion and the progress hook that may cancel the pass.

## Model

| member | source | states |
|---|---|---|
| `Vp8Common.Key` | webp/src/enc/frame.c:224 | Every in-range (type, band, context, probability) index, read in the row-major order of `stats_[t][b][c][p]`, falls inside the 1056-entry table. |
| `Vp8Common.BitsAppend` | webp/src/enc/frame.c:306-377 | The bits a decoder reads from two decision runs written one after the other are the bits of the first run followed by those of the second. |
| `Vp8Common.BitWriter.PutBit` | webp/src/enc/frame.c:311 | A coded bit appends exactly one decision, carrying that bit and probability, to what was written, and returns the bit. |
| `Vp8Common.BitWriter.PutBitUniform` | webp/src/enc/frame.c:371 | The sign is appended as one even-odds decision. |
| `ResidualCoder.Category` | webp/src/enc/frame.c:334-362 | A level of 11 or more falls into exactly one escape category 3..6, the one whose base it reaches and whose successor's base it does not. |
| `ResidualCoder.CategoriesTile` | webp/src/enc/frame.c:334-362 | Each category has 3, 4, 5 or 11 extra bits. Its base plus 2^(extra bits) is the next category's base, and for category 6 it is one past the largest codable level, so the categories tile the levels without gaps. |
| `ResidualCoder.LastNonZero` | webp/src/enc/frame.c:395-419 | Stands for the `last` that `VP8SetResidualCoeffs` sets at each of these calls (its body is not part of this model) and that PutCoeffs reads at lines 311 and 372. `last` is the index of the last non-zero coefficient, or -1 when all are zero. Every coefficient after it is zero. |
| `ResidualCoder.NextCtx` | webp/src/enc/frame.c:319-368 | The context the next position is coded in is always one of the three contexts (0 after a zero, 1 after a magnitude of 1, 2 otherwise). |
| `ResidualCoder.PutExtraBits` | webp/src/enc/frame.c:363-366 | The mask loop appends the extra bits of the value from most to least significant, each with its table probability. |
| `ResidualCoder.PutLargeLevel` | webp/src/enc/frame.c:326-367 | A level of 2 or more appends the decisions of its branch of the token tree (the p[3..10] branches and the category escape) and nothing else. |
| `ResidualCoder.PutCategory` | webp/src/enc/frame.c:334-367 | A level of 11 or more appends its two category-selection decisions and then its extra bits relative to the category base. |
| `ResidualCoder.PutToken` | webp/src/enc/frame.c:316-370 | One coefficient appends its token decisions and, for a non-zero level, the sign. It returns the context for the next position. |
| `ResidualCoder.PutCoeffs` | webp/src/enc/frame.c:306-377 | The whole block appends exactly CoeffTokens(ctx, res, table): the first "not at end of block" decision, the tokens and the end-of-block decisions. It returns 1 exactly when the block has a non-zero level. |
| `ResidualCoder.CoeffTokensMatchReference` | webp/src/enc/frame.c:306-377 | Carrying the probability row from one position to the next, as the C loop does, yields the same decisions as choosing each position's row from its band and the previous coefficient, as the token syntax specifies. |
| `TokenDecoder.LiteralRoundTrip` | webp/src/enc/frame.c:363-366 | Reading back the extra bits written for a value yields the value modulo 2^(number of bits) and leaves the following bits untouched. |
| `TokenDecoder.CategoryRoundTrip` | webp/src/enc/frame.c:334-367 | The category escape of every level from 11 up to the largest codable level decodes to that level. |
| `TokenDecoder.MagnitudeRoundTrip` | webp/src/enc/frame.c:322-367 | The magnitude decisions of every codable non-zero level decode to that level. |
| `TokenDecoder.TokenRoundTrip` | webp/src/enc/frame.c:316-370 | The decisions of one coefficient, with its sign, decode to that coefficient for every codable value, zero included. |
| `TokenDecoder.RefRoundTrip` | webp/src/enc/frame.c:315-375 | The reference decisions from position n onwards decode to the block's coefficients from n on. |
| `TokenDecoder.CoeffTokensRoundTrip` | webp/src/enc/frame.c:306-377 | Decoding the bits PutCoeffs writes for a well-formed, codable block gives back all 16 coefficients and leaves the following bits untouched. |
| `MacroblockContext.ContextAtFold` | webp/src/enc/frame.c:404-424 | The context of the k-th scheduled block is computed from the flags as left by the k blocks before it. |
| `MacroblockContext.FoldFlagsAppend` | webp/src/enc/frame.c:393-424 | Coding two runs of blocks in turn leaves the flags that coding their concatenation leaves. |
| `MacroblockContext.DcContext` | webp/src/enc/frame.c:393-397 | The i16 DC block is coded in the context top_nz[8] + left_nz[8]. |
| `MacroblockContext.LumaContext` | webp/src/enc/frame.c:404-410 | Luma block (x, y) is coded in the context counting the non-zero flag of the block above it (row y-1 of this macroblock, or the incoming top flag x) and of the block to its left (column x-1, or the incoming left flag y). |
| `MacroblockContext.ChromaContext` | webp/src/enc/frame.c:414-424 | Chroma block (x, y) of plane ch is coded in the context counting the flags of its neighbour above and its neighbour to the left in the same plane, or the incoming flags 4+ch+x and 4+ch+y. |
| `MacroblockContext.FinalTopFlags` | webp/src/enc/frame.c:393-424 | After a macroblock the top flags are those of the bottom row of luma blocks, the bottom rows of U and V, and the DC block's (for i16) or the incoming DC flag otherwise. |
| `MacroblockContext.FinalLeftFlags` | webp/src/enc/frame.c:393-424 | After a macroblock the left flags are those of the right column of luma blocks, the right columns of U and V, and the DC block's (for i16) or the incoming DC flag otherwise. |
| `MacroblockContext.FinalFlags` | webp/src/enc/frame.c:379-432 | Both flag vectors after the macroblock, together, in terms of the levels alone. |
| `MacroblockContext.NzBlock` | webp/src/enc/frame.c:404-424 | The flag PutCoeffs returns for a block set from 16 levels is set exactly when one of those levels is non-zero. |
| `MacroblockCoding.SkipResetBits` | webp/src/enc/frame.c:815-822 | After a skipped macroblock no bit of the packed word is set, except bit 24 (the DC flag) of a non-i16 macroblock when it was set before. |
| `MacroblockCoding.EncIterator.CodeResiduals` | webp/src/enc/frame.c:379-432 | The flags end as the fold of the old flags over the macroblock's schedule. The writer receives exactly the concatenated CoeffTokens of each block in schedule order, each in the context the flags give at that point. |
| `MacroblockCoding.EncIterator.RecordResiduals` | webp/src/enc/frame.c:436-477 | Recording walks the same schedule and leaves the same flags as coding. |
| `MacroblockCoding.EncIterator.ResetAfterSkip` | webp/src/enc/frame.c:815-822 | For i16 the packed word and left_nz[8] are cleared. Otherwise only the packed word's bit 24 survives. No other flag changes. |
| `Probas.CalcSkipProba` | webp/src/enc/frame.c:181-183 | The probability of "not skipped" is floor((total - nb) * 255 / total), as a bracketing, or 255 with no macroblocks. It always lies in 0..255. |
| `Probas.SkipProbaMonotone` | webp/src/enc/frame.c:181-183 | More skipped macroblocks never raise the skip probability. |
| `Probas.CalcTokenProba` | webp/src/enc/frame.c:204-207 | The probability of a 0 is 255 - floor(nb * 255 / total), as a bracketing, or 255 when no 1 was seen. It always lies in 0..255. |
| `Probas.TokenProbaMonotone` | webp/src/enc/frame.c:204-207 | More 1 events never raise the probability of a 0. |
| `Probas.TokenProbaZero` | webp/src/enc/frame.c:204-207 | The probability is 0 exactly when every event was a 1. |
| `Probas.BranchCostOfEvents` | webp/src/enc/frame.c:210-212 | BranchCost equals the cost of coding, one by one, any event sequence with that many ones in that many events. |
| `Probas.TokenSizeBound` | webp/src/enc/frame.c:219-260 | The update header costs at least 8 bits (8 * 256 cost units) per adopted probability. |
| `Probas.AdoptedTableChanged` | webp/src/enc/frame.c:219-260 | The finalized table differs from the defaults exactly when some adopted counted probability differs from its default, which is when dirty_ is set. |
| `Probas.AdoptedTableIsProba` | webp/src/enc/frame.c:219-260 | When the defaults are probabilities, every finalized entry is a probability. |
| `Probas.GetProba` | webp/src/enc/frame.c:265-269 | The rounded proportion of left events: p is within half a step of 255 * a / (a + b), or 255 when there are no events. It always lies in 0..255. |
| `Probas.GetProbaExtremes` | webp/src/enc/frame.c:265-269 | A branch never taken to the right gets 255, and one only taken to the right gets 0. |
| `Probas.SegmentCountsSnoc` | webp/src/enc/frame.c:275-278 | Counting one more macroblock adds one to its segment's count only. |
| `Probas.SegmentHeaderSizeIsCost` | webp/src/enc/frame.c:292-296 | The size computed from the per-segment counts equals the cost of coding every macroblock's segment id on the segment tree. |
| `Probas.CountSegments` | webp/src/enc/frame.c:275-278 | The loop's counts are the number of macroblocks in each segment. |
| `Probas.Encoder.FinalizeSkipProba` | webp/src/enc/frame.c:186-200 | skip_proba_ is the skip probability of the count. It is used exactly when below 250. The size is 256, plus the branch cost and 8 * 256 when used. |
| `Probas.Encoder.FinalizeTokenProbas` | webp/src/enc/frame.c:219-260 | Every entry takes the counted probability exactly when that is strictly cheaper than the default, and the default otherwise. dirty_ is set exactly when the table differs from the defaults. The size is the sum of the entries' header costs. |
| `Probas.Encoder.SetSegmentProbas` | webp/src/enc/frame.c:271-302 | With more than one segment, the three tree probabilities come from the segment counts. The map is sent exactly when one of them is not 255, and the header size is the cost of all segment ids. Otherwise no map is sent, the size is 0 and the probabilities are untouched. |
| `PassControl.Clamp` | webp/src/enc/frame.c:135-137 | The result lies in [lo, hi] and equals v exactly when v already does. |
| `PassControl.ClampNearest` | webp/src/enc/frame.c:135-137 | The clamped value is the point of [lo, hi] nearest to v. |
| `PassControl.ClampIdempotent` | webp/src/enc/frame.c:135-137 | Clamping twice is clamping once. |
| `PassControl.FirstStepTowardsTarget` | webp/src/enc/frame.c:141-143 | The first step moves q by the initial step, down when the value is above the target and up otherwise. |
| `PassControl.SecantStep` | webp/src/enc/frame.c:144-146 | A later step is the secant step, which aims the linear interpolation of the last two (q, value) points exactly at the target. |
| `PassControl.PassStats.InitPassStats` | webp/src/enc/frame.c:119-133 | A size search happens exactly when a target size is set. The target is that size (read as unsigned 64-bit), else the PSNR target when positive, else 40. The search starts at the configured quality with a step of 10. |
| `PassControl.PassStats.ComputeNextQ` | webp/src/enc/frame.c:139-158 | The new step is the raw step clamped to [-30, 30], and 0 when the value did not move. The previous q and value are kept. The new q is q + step clamped to [0, 100], and it is returned. |
| `PassControl.ProbeMbs` | webp/src/enc/frame.c:688-694 | Without a fast probe every macroblock is visited. A fast probe visits half (method 3) or a quarter of a picture of more than 200 macroblocks, and otherwise 100 or 50. |
| `PassControl.SizeEstimate` | webp/src/enc/frame.c:660 | The estimate is the bits of the pass, of the probability headers and of partition 0 over 2048, rounded to the nearest integer, plus the 30 container header bytes. |
| `PassControl.FinalizeProbas` | webp/src/enc/frame.c:721-725 | After finalizing both probabilities the encoder state is Finalized for its skip count and statistics. The returned bits are the skip and token header bits of those statistics. |
| `PassControl.FinishPass` | webp/src/enc/frame.c:647-664 | A cancelled pass returns 0 and leaves the value alone. Otherwise it returns the pass's partition-0 bits plus the segment header. A size search finalizes the probabilities and sets the value to the size estimate; a PSNR search sets the pass's PSNR. |
| `PassControl.VisitMacroblocks` | webp/src/enc/frame.c:629-653 | The segment probabilities are set afresh. The skip count and token statistics become what the visit produced for this quantiser, budget and macroblock count. |
| `PassControl.OneStatPass` | webp/src/enc/frame.c:629-664 | One pass is the macroblock visit followed by FinishPass, with the skip count and statistics of that visit. |
| `PassControl.PassLoop` | webp/src/enc/frame.c:696-720 | The loop terminates, even with the overflow retries. It makes at most passes + bitlength(max_i4_header_bits) passes, and the budget only shrinks and stays non-negative. ok is false exactly when the last pass (number runs - 1) returned no partition-0 bits, whether it was cancelled or spent none. The encoder's skip count and statistics are what the oracle produced for that pass, from its quantiser, budget and incoming statistics (`LastPass`). When ok after a size search, the probabilities are finalized for those statistics. |
| `PassControl.StatLoop` | webp/src/enc/frame.c:668-729 | ok is false exactly when the last pass returned no partition-0 bits. The encoder's skip count and statistics are the oracle's result for that pass, over ProbeMbs macroblocks (`LastPass`). When ok, the skip probability, probability table and dirty_ flag are finalized for those statistics: inside that pass for a size search, after the loop otherwise. |
| `PassControl.FinishPartitions` | webp/src/enc/frame.c:759-765 | ok stays set exactly when it was set and no partition reported an error. |
| `PassControl.BytesOfBits` | webp/src/enc/frame.c:772 | (bits + 7) >> 3 is the least number of bytes holding the bits. |
| `PassControl.PostLoopFinalize` | webp/src/enc/frame.c:754-784 | ok as FinishPartitions. With statistics requested and ok, every residual_bytes_[i][s] is the byte count of bit_count[s][i]; otherwise residual_bytes_ is untouched. |
| `Gzip.Le32RoundTrip` | GZip/src/xil_gzip.cpp:69-76 | The four bytes written least significant first read back as the value modulo 2^32. |
| `Gzip.Le32OfValue` | GZip/src/xil_gzip.cpp:69-76 | Every four bytes are the encoding of the value they read as. |
| `Gzip.NameField` | GZip/src/xil_gzip.cpp:86-89 | The name written is the longest prefix of the name without a NUL byte. |
| `Gzip.PutLe32` | GZip/src/xil_gzip.cpp:105-113 | Appends the four little-endian bytes of the value. |
| `Gzip.PutHeader` | GZip/src/xil_gzip.cpp:51-83 | Appends the ten header bytes: magic, deflate, FNAME, mtime, XFL 0, OS 3. |
| `Gzip.PutName` | GZip/src/xil_gzip.cpp:86-89 | Appends the name up to its first NUL, then a NUL. |
| `Gzip.Zip` | GZip/src/xil_gzip.cpp:48-114 | Appends exactly one member: the header, the NUL-terminated name, the first `enbytes` compressed bytes, a zero CRC and the input size modulo 2^32. |
| `Gzip.MemberHeader` | GZip/src/xil_gzip.cpp:51-83 | The member is 10 + name + 1 + payload + 8 bytes long, and its first ten bytes are the fixed fields with the mtime in little-endian order. |
| `Gzip.MemberBody` | GZip/src/xil_gzip.cpp:86-91 | Between header and trailer lie the NUL-free name, one NUL and the compressed bytes. |
| `Gzip.MemberTrailer` | GZip/src/xil_gzip.cpp:93-113 | The last eight bytes are a zero CRC and the input size modulo 2^32. |
| `Gzip.ParseMember` | GZip/src/xil_gzip.cpp:48-114 | Parsing a written member recovers the mtime and input size modulo 2^32, the name field and the compressed bytes exactly. |
| `Gzip.MemberOfParse` | GZip/src/xil_gzip.cpp:48-114 | Every byte string that parses with a zero CRC is exactly the member written from its fields. |
| `Gzip.RoundUpToUnitBounds` | GZip/src/xil_gzip.cpp:273 | The rounded size is a multiple of 4096, at least the input size and less than one unit above it. An empty input still rounds to one unit, because C division truncates toward zero. |
| `Gzip.UnitSizeIsInput` | GZip/src/xil_gzip.cpp:271-280 | For every non-negative input size, the clamp undoes the rounding: the kernel is handed the whole input as a single unit. |

## Left out

- `VP8BitWriter` internals (range, value, carry propagation, byte output, buffer growth) are outside the frame coder. The writer is the log of the decisions it is given, so PutBit returns its bit and never fails.
- `VP8IteratorNzToBytes`/`VP8IteratorBytesToNz` (the packing of flags into the `nz` word) are not in this file. The flags are kept unpacked; ResetAfterSkip works on the packed word as its own field.
- The bit-position profiling of CodeResiduals (`luma_bits_`, `uv_bits_`, `bit_count_` accumulation, StopProfiling) is not modelled.
- `VP8RecordCoeffs` is not in this file. RecordResiduals models only the context walk and treats a block's flag as "has a non-zero level", which is what that function returns; the statistics it records are the pass oracle's output.
- `VP8Decimate`, `VP8IteratorImport`/`SaveBoundary`/`Next`, the distortion sum and `GetPSNR` (log10) are not modelled. The pass result stands for them, and so does the progress callback that cancels a pass (`VP8IteratorProgress`).
- `VP8SetSegmentParams` (segment quantisers and filters) is not modelled. Neither is `ResetSSE`, nor the `segment_size` statistics copy, which SetSegmentProbas instead returns.
- `VP8CalculateLevelCosts` and `WebPReportProgress` at the end of StatLoop are not modelled. StatLoop's result reflects only whether the last pass returned partition-0 bits.
- `VP8AdjustFilterStrength` and `VP8EncFreeBitWriters` in PostLoopFinalize are not modelled. Each partition's `VP8BitWriterFinish` is represented by its error flag.
- `PassControl.PassLoop`: the `uint64_t` size sums of OneStatPass are unbounded integers, so their overflow is not modelled.
- `PassControl.PassStats.ComputeNextQ`: float and double arithmetic is exact real arithmetic, so rounding to float is not modelled.
- `PassControl.PassStats.InitPassStats`: the target size is limited to the range of a C `int`, the type of `config_->target_size`.
- `PassControl.PostLoopFinalize`: the `(int)` cast of the byte count assumes it fits in an `int`.
- `PassControl.StatLoop` does not restate PassLoop's bound on the number of passes or the i4 budget bounds. Those are proved on `PassControl.PassLoop`, which StatLoop calls.
- `VP8_MAX_PARTITION0_SIZE` is taken as 2^19, the size of the first-partition length field (section 9.1 of RFC 6386). Its header is not part of this model.
- `Gzip.Zip`: `stat()` becomes the `mtime` and `inputSize` parameters, and the `ofstream` becomes a byte-sequence stream. The name is a byte sequence, and `std::string`'s terminating NUL is the end of that sequence.
- `Gzip.MemberTrailer`: the CRC-32 is not computed, because the code writes a constant 0.
- `Gzip.UnitSizeIsInput`: the `long` arithmetic of the unit size is unbounded, so its overflow near 2^63 is not modelled.
- The remaining functions of `xil_gzip.cpp` (kernel requests, timing, file reading in `compress_file`) and all of `xil_gzip.h` are accelerator I/O and are not part of this model.
