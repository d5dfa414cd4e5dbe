# MPEG-1/2 Audio Layer II encoding core (toolame-dab `encode_new.c`), in Dafny

This project models the Layer II encoding core of toolame-dab's
`encode_new.c`. The core follows Annex C of ISO/IEC 11172-3 and the
low-sampling-frequency table of ISO/IEC 13818-3. It has five parts:

- **Constant tables and table choice.** `step_index`, `nbal`, `steps`,
  `steps2n`, `bits`, `group`, `table_sblimit`, `line` and the SNR table are
  in module `Tables`. `encode_init` picks one of five allocation tables
  (`AllocationTable`).
- **Scalefactor engine.** The peak scan and the five-step binary search of
  `scalefactor_calc_new`, `find_sf_max`, and `sf_transmission_pattern`
  (`ScaleFactors`, `Transmission`). The pattern step merges the three
  granule indices in place and records the 2-bit select code.
- **Bit allocation.**
  - The feasibility probe `bits_for_nonoise_new` (`Probe`).
  - `maxmnr_new`, which is also `VBR_maxmnr_new` once its dead block is
    dropped (`MinimumMnr`).
  - The greedy allocators `a_bit_allocation_new` and
    `VBR_bit_allocation_new`: one loop with a `mirror` flag
    (`GreedyAllocation` for the step and its invariant, `BitAllocation` for
    the in-place loops).
  - `main_bit_allocation_new`, with the joint-stereo mode choice and the
    VBR bitrate choice (`MainAllocation`).
- **Writers.** `write_header`, `write_bit_alloc`, `write_scalefactors` and
  `write_samples_new` (`FrameHeader`, `SideInfo`, `Samples`). They append
  `(value, width)` fields to a `BitStream` object.
  - `FrameBits` and `AllocationBits` define the bit counts the probe and
    the allocators charge.
  - `FrameLayout.FrameWidth` proves that a whole written frame has exactly
    that width.
- **Quantiser loops.** The shape of `subband_quantization_new`: which
  entries get a codeword, from which sample stream and at which step, and
  the zeroing above `sblimit` (`Quantize`).

Arrays the C code updates in place stay arrays: `bit_alloc` is an
`array2`, `sf_index` an `array3`, and `sf_selectinfo`, `sb_sample` and
`sbband` are arrays as in the C code. `frame_info` and the VBR session
statics are classes (`MainAllocation.Frame`, `MainAllocation.VbrSession`).
The greedy loop's locals `mnr` and `used` and its three counters are local
values. Every loop method is proved against a function or predicate:

- `Raise` and its invariant for the greedy loop;
- `IsMinimum` for the MNR scan;
- `SfIndex` for the binary search;
- `Transmit` for the pattern step;
- `FrameTotal` for the probe;
- the field sequences `HeaderFields`, `AllocFields`, `SelectFields`,
  `ScaleFields` and `SampleFields` for the writers.

Where a description of this encoder and the code disagree, the model follows the code:

- Pattern `0x122` (select code 3) copies granule 2's index into granule 3
  (`sf_index[k][2][i] = sf_index[k][1][i]`).
- The probe's step scan stops one step short of the top of the line
  (`ba < maxAlloc - 1`), so a probed allocation never reaches the line's
  last step.
- A VBR allocator that stops early once every subband clears the quality
  floor does not exist in the code. Even the dead `NEWBIT` block of
  `VBR_maxmnr_new` (encode_new.c:898-910, `NEWBIT` is not defined) only
  returns the first entry whose MNR is below `vbrlevel`, ignoring `used`,
  and otherwise falls through to the ordinary scan.
- Joint stereo is meant to be off in VBR mode (the comment at
  encode_new.c:959), yet `main_bit_allocation_new` runs its joint-stereo
  choice (encode_new.c:802-818) before the VBR branch. The model follows
  the code: `VbrBitAllocation` may see `jsbound < sblimit`. See Findings.

## Model

| member | source | states |
|---|---|---|
| Tables.StepIndex | encode_new.c:16-27 | every entry of `step_index` is a step index 0..17 |
| Tables.StepIndexIsTable | encode_new.c:16-27 | the run-by-run `StepIndex` the model uses agrees with every one of the 9×16 entries of `step_index` as written |
| Tables.Nbal | encode_new.c:29 | every allocation field is 2, 3 or 4 bits wide |
| Tables.Line | encode_new.c:54-62 | every entry of `line` is -1 or a line 0..8 |
| Tables.LineBelowSblimit | encode_new.c:48-62 | below `table_sblimit` the line is valid; for tables 0-3 the line is -1 exactly from `sblimit` on |
| Tables.MaxAlloc | encode_new.c:673 | the top allocation of a line is 3, 7 or 15 |
| Tables.MaxAllocIsPow2 | encode_new.c:673 | the top allocation is `(1 << nbal[line]) - 1` |
| Tables.StepSampleBitsIsProduct | encode_new.c:691 | the sample bits of a step are `SCALE_BLOCK * group * bits` |
| Tables.StepsIncreaseAlongLine | encode_new.c:16-27 | allocation 0 is step 0, and each allocation below the top has a strictly larger step than the one before |
| Tables.NextStep | encode_new.c:34-41 | the next step costs strictly more sample bits and has a strictly larger SNR; step 0 costs nothing |
| Tables.StepSampleBitsSign | encode_new.c:38-41 | sample bits are non-negative and zero exactly at step 0 |
| Tables.PackedStepsFit | encode_new.c:34-41 | group 1 is exactly the steps 3, 5 and 9; for them steps³ ≤ 2^bits, and for all other non-zero steps group is 3 and 2·steps2n = 2^bits |
| StepOrder.SnrMonotone | encode_new.c:96-100 | SNR strictly increases with the step index |
| StepOrder.StepSampleBitsMonotone | encode_new.c:34-41 | sample bits strictly increase with the step index |
| StepOrder.NextAllocation | encode_new.c:16-27 | raising an allocation below the top costs strictly more sample bits and gives a strictly larger SNR |
| StepOrder.StepIndexAlongLine | encode_new.c:16-27 | step indices never decrease along a line |
| StepOrder.SnrAlongLine | encode_new.c:96-100 | SNR never decreases along a line |
| StepOrder.AllocationCost | encode_new.c:688-691 | an allocation costs sample bits exactly when it is non-zero |
| AllocationTable.EncodeInit | encode_new.c:104-156 | the result is a table with `sblimit == table_sblimit[tablenum]` ∈ {27,30,8,12}; table 4 exactly when the version is not MPEG-1 |
| AllocationTable.TableRules | encode_new.c:112-124 | each MPEG-1 table is chosen exactly when its own condition on the bitrate per channel and the sampling frequency holds |
| FrameBits.BbalAsWritten | encode_new.c:1103-1106 | the bbal loops as written are defined exactly when no `line` entry below jsbound is -1, agree with `Bbal` when defined and jsbound ≤ sblimit, and are undefined for tables 0-3 when jsbound > sblimit |
| FrameBits.CountBbal | encode_new.c:662-665 | the bbal loops clamped at sblimit compute `Bbal`: nch fields per subband below jsbound, one above |
| AllocationBits.EntrySampleBits | encode_new.c:691 | an entry's sample bits are non-negative and zero exactly when it has no allocation |
| ScaleFactors.MaxAbs | encode_new.c:203-207 | the peak bounds the magnitude of every sample and is the magnitude of one of them |
| ScaleFactors.Peak | encode_new.c:203-207 | the downward `fabs` scan over the twelve samples computes that peak |
| ScaleFactors.MaxAbsIsMaximum | encode_new.c:203-207 | a value that bounds every magnitude and is attained is the peak |
| ScaleFactors.CoveringIndex | encode_new.c:210-217 | linear reference: the first index from i downward whose entry covers x; every entry above it is below x |
| ScaleFactors.SfIndex | encode_new.c:210-218 | the scalefactor index of a peak is in 0..63 |
| ScaleFactors.CompareAt | encode_new.c:211 | on a descending table, x ≤ table[s] exactly when s ≤ the covering index |
| ScaleFactors.ScalefactorSearch | encode_new.c:210-217 | the binary search yields the linear covering index: every later entry is below the peak, the entry covers it when table[0] does, and a peak at or below the last entry gives 63 |
| ScaleFactors.CalcGranule | encode_new.c:195-218 | one granule's indices are the covering indices of their blocks' peaks; nothing else changes |
| ScaleFactors.ScalefactorCalc | encode_new.c:179-230 | every index with ch < nch and sb < sblimit is the covering index of its block's peak; all other entries are unchanged |
| ScaleFactors.Lowest | encode_new.c:270-272 | the lowest of three indices is at most each and equal to one |
| ScaleFactors.FindSfMax | encode_new.c:260-277 | `sf_max` of each coded entry is `multiple` at the lowest granule index; 1E-20 above sblimit for both channels; other entries unchanged |
| Transmission.DiffClassOrder | encode_new.c:307-318 | the classes of an index difference are ordered like the difference, symmetric about class 2 (`DiffClass(-d) == 4 - DiffClass(d)`), class 2 exactly for equal indices and classes 0-1 exactly for a falling index |
| Transmission.SelectCodes | encode_new.c:319-353 | select code in 0..3. Code 0 keeps the triple; 1 gives g1 = g0; 3 gives g0 kept and g1 = g2; 2 gives all equal, min(g0, g2) for pattern 0x444 |
| Transmission.MergeKeepsScaleCovering | encode_new.c:319-353 | no merged index exceeds the granule's own, so every granule keeps a covering scalefactor |
| Transmission.MergeFromOriginals | encode_new.c:319-353 | each merged index is one of the three original indices |
| Transmission.SentIndices | encode_new.c:431-443 | a select code sends `sfsPerScfsi[code]` indices |
| Transmission.TransmitRoundTrip | encode_new.c:428-443 | a decoder rebuilds exactly the merged triple from the code and the indices written |
| Transmission.MergeTriple | encode_new.c:305-352 | one (ch, sb) entry: the new code and triple are `Transmit` of the old triple; no other entry changes |
| Transmission.SfTransmissionPattern | encode_new.c:288-354 | every coded entry gets `Transmit` of its old triple; entries with ch ≥ nch or sb ≥ sblimit are unchanged |
| FrameHeader.LayoutTotal | encode_new.c:360-372 | the header field widths total 32 bits |
| FrameHeader.HeaderLayout | encode_new.c:360-372 | the header is 13 fields in the fixed layout, 32 bits wide, and fits its widths when valid |
| FrameHeader.ParseHeader | encode_new.c:360-372 | a decoder's reading of the 13 fields; anything it accepts is a valid header |
| FrameHeader.HeaderRoundTrip | encode_new.c:360-372 | reading back a written valid header gives that header (layer as 4 − lay, protection bit inverted) |
| FrameHeader.ParsedHeaderIsWritten | encode_new.c:360-372 | fields that read as a header are exactly the fields that header writes |
| FrameHeader.WriteHeader | encode_new.c:356-373 | `write_header` appends exactly the header fields |
| FrameHeader.WriteHeaderStart | encode_new.c:360-365 | appends sync word, ID, layer, protection, bitrate index and sampling frequency |
| FrameHeader.WriteHeaderRest | encode_new.c:366-372 | appends padding, private bit, mode, mode extension, copyright, original and emphasis |
| SideInfo.AllocColumnWidth | encode_new.c:392-397 | one subband's allocation fields are as wide as its bbal term |
| SideInfo.AllocFieldsWidth | encode_new.c:391-398 | the allocation fields of the first n subbands are as wide as the first n bbal terms |
| SideInfo.AllocFieldsBbal | encode_new.c:391-398 | `write_bit_alloc` emits exactly the bbal bits the probe and allocator reserve |
| SideInfo.AllocFieldsFit | encode_new.c:394 | allocation values within their lines fit their nbal-bit fields |
| SideInfo.WriteBitAlloc | encode_new.c:383-399 | appends exactly the allocation fields, in subband order |
| SideInfo.SelectColumnWidth | encode_new.c:423-426 | one subband's select codes are as wide as the select bits the allocator charges for it |
| SideInfo.ScaleEntryWidth | encode_new.c:431-443 | an allocated entry sends 6·sfsPerScfsi[code] bits of scalefactors, an unallocated one none |
| SideInfo.ScaleColumnWidth | encode_new.c:428-443 | one subband's scalefactors are as wide as the scalefactor bits charged for it |
| SideInfo.SelectFieldsWidth | encode_new.c:423-426 | all select codes are as wide as the bsel total |
| SideInfo.ScaleFieldsWidth | encode_new.c:428-443 | all scalefactors are as wide as the bscf total |
| SideInfo.WriteScalefactors | encode_new.c:413-444 | appends all select codes, then all scalefactors |
| SideInfo.WriteSelectCodes | encode_new.c:423-426 | appends the select code of every allocated entry, subband by subband |
| SideInfo.WriteSelectColumn | encode_new.c:424-426 | appends one subband's select codes |
| SideInfo.WriteScaleIndices | encode_new.c:428-443 | appends the indices each select code sends, subband by subband |
| SideInfo.WriteScaleColumn | encode_new.c:429-443 | appends one subband's sent indices |
| SideInfo.WriteSent | encode_new.c:431-443 | the switch appends the indices code 0..3 sends, and nothing for another code |
| Samples.PackRoundTrip | encode_new.c:591-595 | a packed triple with samples below steps unpacks to the three samples and is below steps³ |
| Samples.FrameOfTriples | encode_new.c:579-595 | the sample bits charged per entry are twelve triples' bits |
| Samples.TripleFieldsWidth | encode_new.c:579-595 | a triple is 3·bits wide when group is 3 and bits wide when packed |
| Samples.ColumnFieldsWidth | encode_new.c:573-597 | one subband's triple is as wide as its triple term |
| Samples.BlockFieldsWidth | encode_new.c:572-597 | a block of subbands is as wide as the sum of their triple terms |
| Samples.GranuleFieldsWidth | encode_new.c:571-597 | k triples of a granule are k copies of the block width |
| Samples.SampleFieldsWidth | encode_new.c:570-597 | n granules are n × 4 copies of the block width |
| Samples.EntrySamples | encode_new.c:691 | the sample bits of an entry are twelve times its triple bits |
| Samples.SamplesWidth | encode_new.c:560-598 | `write_samples_new` emits exactly the sample bits (bspl) the allocator charged |
| Samples.WriteSamples | encode_new.c:560-598 | appends exactly the sample fields of the three granules |
| Samples.WriteGranule | encode_new.c:571-597 | appends one granule's four triples |
| Samples.WriteBlock | encode_new.c:572-597 | appends one triple position across the subbands |
| Samples.WriteColumn | encode_new.c:573-597 | appends the triples of one subband's coded channels |
| Samples.WriteTriple | encode_new.c:575-596 | appends three codewords or one packed codeword |
| FrameLayout.FrameWidth | encode_new.c:642-700 | for a mirrored allocation, a whole written frame is exactly as wide as `bits_for_nonoise_new` counts it, CRC bits aside |
| FrameLayout.VbrFrameWidth | encode_new.c:955-1049 | with joint stereo off, as the VBR allocator's bbal assumes, a whole written frame is exactly as wide as the bits `VBR_bit_allocation_new` charges, CRC bits aside |
| FrameLayout.VbrJointOvercharged | encode_new.c:959-1003 | with joint subbands on and a mirrored allocation, the VBR charge is strictly more than the written frame |
| FrameLayout.VbrJointUnreadable | encode_new.c:391-433 | with joint subbands on, giving channel 1 bits in a joint subband where channel 0 has none leaves the written allocation fields unchanged but adds one select code |
| Quantize.SubbandQuantization | encode_new.c:480-547 | every coded entry gets its codeword, every entry of the frame's channels above sblimit becomes 0, nothing else changes |
| Quantize.QuantiseGranules | encode_new.c:494-539 | the granule and sample loops code exactly the coded entries |
| Quantize.QuantiseSample | encode_new.c:496-539 | the subband and channel loops code exactly the coded entries of one sample |
| Quantize.ZeroAboveSblimit | encode_new.c:542-546 | every entry of the frame's channels above sblimit becomes 0, nothing else changes |
| Quantize.ZeroGranule | encode_new.c:544-546 | one granule of one channel is zeroed above sblimit |
| Quantize.ColumnAgree | encode_new.c:573-597 | arrays agreeing on coded entries give the same subband triples |
| Quantize.BlockAgree | encode_new.c:572-597 | arrays agreeing on coded entries give the same block fields |
| Quantize.GranuleAgree | encode_new.c:571-597 | arrays agreeing on coded entries give the same granule fields |
| Quantize.SamplesAgree | encode_new.c:570-597 | `write_samples_new` reads only coded entries |
| Quantize.QuantisedSamplesDetermined | encode_new.c:494-546 | after quantisation the written samples depend only on the allocation and the codewords |
| Probe.Scan | encode_new.c:677-687 | the scan stops at the first allocation from ba whose MNR clears min_mnr, or at the bound; every allocation skipped falls short |
| Probe.ProbeAlloc | encode_new.c:670-687 | a probed allocation is below the top of its line |
| Probe.ProbeAllocBound | encode_new.c:673-687 | a probed allocation is in [0, 2^nbal − 2] |
| Probe.ProbeGrid | encode_new.c:668-703 | the probed grid is a valid allocation: each coded entry is its probe, the rest 0 |
| Probe.JointScan | encode_new.c:682-687 | a joint subband's two scans end at an allocation where both channels clear min_mnr, or at the bound |
| Probe.JointScanFirst | encode_new.c:677-687 | every allocation below the joint result fails for one of the two channels |
| Probe.JointProbeClearsBoth | encode_new.c:677-687 | in a joint subband, each allocation below the probe fails for channel 0 or channel 1 |
| Probe.CodedBitsSplit | encode_new.c:642-700 | 32 + berr + bbal plus the per-subband charges is `FrameTotal` |
| Probe.CodedTermSplit | encode_new.c:688-700 | one subband's charge is the sum of its channels' charges |
| Probe.BitsForNonoise | encode_new.c:634-705 | `bit_alloc` holds the probe for every coded entry, the rest unchanged; the result is `FrameTotal` of the probed grid |
| Probe.ProbeSubbands | encode_new.c:668-703 | the subband loop stores every probe and adds up the charges |
| Probe.ProbeSubband | encode_new.c:669-703 | one subband's probes are stored and its charge returned |
| Probe.ProbeColumn | encode_new.c:669-703 | one subband's probes and charge, as values |
| Probe.ProbedTerm | encode_new.c:688-700 | a subband's charge is the charge of its probed allocations |
| Probe.ChargeEntry | encode_new.c:688-700 | smp_bits + sel_bits + sc_bits of one entry is `EntryCharge` |
| Probe.ScanLoop | encode_new.c:677-681 | the scan loop computes `Scan` |
| Probe.ProbeEntry | encode_new.c:670-687 | the one- or two-channel scan computes `ProbeAlloc` |
| MinimumMnr.MaxMnr | encode_new.c:1061-1077 | (-1, -1) exactly when no entry is open below 999999; otherwise the open entry of least MNR, first in channel-major order |
| MinimumMnr.MinInChannel | encode_new.c:1071-1076 | the subband loop of one channel keeps the scan's running minimum |
| MinimumMnr.MinimumUnique | encode_new.c:1070-1076 | at most one entry is the minimum |
| MinimumMnr.MinimumOrNone | encode_new.c:1067-1076 | a minimum exists only if some entry is open |
| GreedyAllocation.StepCostCharges | encode_new.c:1125-1147 | raising an entry by one costs a positive amount, and its charge grows by exactly that |
| GreedyAllocation.JointStepCost | encode_new.c:1140-1146 | in a joint subband both channels cost the same |
| GreedyAllocation.ChargedIsTotals | encode_new.c:1154-1156 | the committed charge of a grid is bspl + bscf + bsel |
| GreedyAllocation.Pass | encode_new.c:1151-1164 | a pass keeps the allocation within its line |
| GreedyAllocation.PassCost | encode_new.c:1125-1147 | increment + scale + seli of a pass is the step cost |
| GreedyAllocation.PassEffect | encode_new.c:1151-1164 | a pass raises the entry when it fits and closes it otherwise |
| GreedyAllocation.MirrorEffect | encode_new.c:1166-1173 | mirroring copies the raised entry to the other channel |
| GreedyAllocation.RaiseEffect | encode_new.c:1122-1175 | a loop iteration has the effect described by `Effect` |
| GreedyAllocation.EntryAfterPass | encode_new.c:1151-1173 | entries the iteration does not touch keep their invariant |
| GreedyAllocation.EffectKeepsEntries | encode_new.c:1151-1173 | every entry keeps its invariant after an iteration |
| GreedyAllocation.ColumnAfterPass | encode_new.c:1151-1173 | the touched subband's charge grows by the step cost exactly when the step fits |
| GreedyAllocation.EffectKeepsCharged | encode_new.c:1154-1156 | the counters stay equal to the grid's charge |
| GreedyAllocation.EffectLowersMoves | encode_new.c:1153-1164 | every iteration strictly lowers the termination measure |
| GreedyAllocation.ColumnMovesAfterPass | encode_new.c:1153-1164 | the touched subband's moves strictly decrease |
| GreedyAllocation.MovesNonNegative | encode_new.c:1118-1177 | the termination measure is never negative |
| GreedyAllocation.ColumnRanges | encode_new.c:1110-1177 | every entry of a subband is in range under the invariant |
| GreedyAllocation.EffectKeepsBudget | encode_new.c:1151 | committed bits never exceed ad once anything is committed |
| GreedyAllocation.EffectKeepsMirror | encode_new.c:1166-1173 | when mirroring, joint subbands stay equal in both channels |
| GreedyAllocation.RaiseKeepsInvariant | encode_new.c:1118-1177 | an iteration keeps the loop invariant and lowers the measure |
| BitAllocation.InitialInvariant | encode_new.c:1110-1116 | the initialised state satisfies the loop invariant |
| BitAllocation.Finished | encode_new.c:1118-1177 | when no entry is open the grid is a complete allocation: valid, mirrored if mirroring, charged exactly, within ad, and maximal |
| BitAllocation.InvariantAllocation | encode_new.c:1153-1162 | under the invariant every allocation is within its line |
| BitAllocation.AllocatedInFrame | encode_new.c:1182-1184 | the result depends only on entries inside the frame |
| BitAllocation.ChargedInFrame | encode_new.c:1182-1184 | the charge depends only on entries inside the frame |
| BitAllocation.InitAllocation | encode_new.c:1110-1116 | every frame entry becomes 0, untouched and at SNR[0] − SMR; others unchanged |
| BitAllocation.CountStep | encode_new.c:1123-1147 | increment, scale and seli of one pass |
| BitAllocation.PassRaises | encode_new.c:1151-1162 | a fitting pass raises the entry by one, updates its MNR, closes it at the top and adds the counters |
| BitAllocation.PassCloses | encode_new.c:1163-1164 | a pass that does not fit only closes the entry |
| BitAllocation.PassEntry | encode_new.c:1151-1164 | the array pass computes `Pass` |
| BitAllocation.MirrorEntry | encode_new.c:1166-1173 | the mirror step computes `Mirror` and touches only its subband |
| BitAllocation.RaiseEntry | encode_new.c:1122-1175 | one loop iteration computes `Raise` and touches only frame entries |
| BitAllocation.ZeroAbove | encode_new.c:1182-1184 | the frame's channels become 0 above sblimit, nothing else changes |
| BitAllocation.Allocate | encode_new.c:1110-1184 | the do-while loop ends with a complete allocation, zero above sblimit |
| BitAllocation.VbrBbalUnjoined | encode_new.c:960-961 | without a joint subband the VBR bbal equals the written bbal |
| BitAllocation.VbrBbalJoined | encode_new.c:960-961 | with a joint subband the VBR bbal exceeds the written bbal |
| BitAllocation.CountVbrBbal | encode_new.c:960-961 | the VBR bbal loop counts nch fields for every subband below sblimit |
| BitAllocation.ABitAllocation | encode_new.c:1078-1187 | valid, mirrored, maximal allocation; `*adb` drops by the frame total of that allocation, and the result is non-negative unless only header, CRC and bbal were charged |
| BitAllocation.VbrBitAllocation | encode_new.c:934-1032 | valid, maximal allocation; `*adb` drops by header, CRC, VBR bbal and the unmirrored charge, and is non-negative unless nothing was allocated |
| MainAllocation.FirstFit | encode_new.c:809-816 | the mode extension the countdown stops at: fitting unless 0, nothing above it fits |
| MainAllocation.StereoChoiceMeaning | encode_new.c:803-818 | stereo exactly when the full-stereo probe fits; otherwise joint at the largest fitting extension, or 0 |
| MainAllocation.JsboundPastSblimit | encode_new.c:803-813 | every two-channel frame in joint-stereo mode on table 2 or 3 whose full-stereo probe exceeds adb takes joint stereo, and its first countdown probe (mode extension 3) decides whether extension 3 is kept; that probe's jsbound 16 passes sblimit, below which a subband with `line` -1 lies |
| MainAllocation.VbrLimits | encode_new.c:752-761 | the `vbrlimits` range is within 1..14 |
| MainAllocation.GuessIndex | encode_new.c:839-854 | the first index in [lower, upper] whose frame holds more than req bits, or upper |
| MainAllocation.VbrSession.constructor | encode_new.c:763-766 | the statics start uninitialised with lower = upper = 10 and a zero table |
| MainAllocation.VbrSession.Initialise | encode_new.c:769-801 | the range is 1..14 for LSF and `vbrlimits` otherwise; `bitrateindextobits` is filled over the range only |
| MainAllocation.VbrSession.FindBitrate | encode_new.c:839-854 | the search loop computes `GuessIndex`, within [lower, upper] |
| MainAllocation.ProbeAt | encode_new.c:807 | one probe at MNR 0 returns the probe's bit count |
| MainAllocation.ProbeStereo | encode_new.c:803-818 | the probe sequence computes `ChooseStereo` |
| MainAllocation.SelectJointStereo | encode_new.c:803-818 | the header gets the chosen mode and extension, `frame_info` the chosen jsbound |
| MainAllocation.VbrAllocation | encode_new.c:826-885 | the header gets `GuessIndex` of the probe at vbrlevel; VBR allocation at that index's budget; the allocation is maximal for the bits left and zero above sblimit |
| MainAllocation.PrepareFrame | encode_new.c:769-818 | the session is initialised once; a joint-stereo frame gets its mode choice, other frames are unchanged |
| MainAllocation.AllocateFrame | encode_new.c:821-885 | CBR: mirrored allocation and adb less the frame total. VBR: the guessed index and its budget less the charge. Either way the allocation is maximal for the bits left and zero above sblimit. Only the bitrate index of the header changes |
| MainAllocation.MainBitAllocation | encode_new.c:733-886 | the composition: session initialised, stereo choice made, then the CBR or VBR allocation with its bit balance; the allocation is maximal for the bits left and zero above sblimit; `actualMode` and every header field other than mode, mode extension and bitrate index keep their values, and a frame not in joint-stereo mode keeps its mode and mode extension too |

## Left out

- Floating point. SMR, SNR and MNR are exact `real`s, and the probe's
  `float min_mnr` is a `real`. The SNR table is written as exact decimals.
  Rounding is not modelled.
- The scalefactor table (`scalefactor[64]`) and `multiple[64]` are
  parameters. The search only needs the table to be non-increasing.
- The quantiser arithmetic of `subband_quantization_new` is the `quantise`
  parameter: scaling by the scalefactor, the `a`/`b` coefficients, the
  truncating cast and the sign-bit tag.
- `combine_LR_new` (the averaging of the two channels) is left out.
  The joint-stereo samples are a separate stream in `Quantize.SourceOf`.
- Calls into code outside `encode_new.c` are parameters:
  - `available_bits` is `availableBits`.
  - The `bitrate`/`s_freq` product of `bitrateindextobits` is `bitsAt`.
  - `js_bound` is `JsBound`, with the values of ISO/IEC 11172-3 2.4.2.3.
  - `putbits`/`put1bit` append a field to `Bitstream.BitStream`.
- Output and statistics are left out: `fprintf`, verbosity printing, the
  `DUMPTABLES` block and the `vbrstats_new` counters.
- `noisy_sbs` and the allocators' constant return value 0 are left out.
- The dead `NEWBIT` block of `VBR_maxmnr_new` is not modelled. Without it
  `VBR_maxmnr_new` is the same as `maxmnr_new`, so `MinimumMnr.MaxMnr`
  stands for both.
- BitAllocation.ABitAllocation: `berr` is taken from the current frame's
  header on every call. The C code caches it in a static at the first call.
  These agree while error protection stays fixed for a session.
- BitAllocation.VbrBitAllocation: the same simplification for its static
  `berr`.
- `encode_init`'s table is computed from the bitrate and frequency values,
  not from the `bitrate`/`s_freq` lookup tables. Those tables are outside
  `encode_new.c`.
- The 32-bit `int` and `unsigned int` widths are not modelled. No sum in
  this core comes near 2^31. A packed codeword is below 9³.
- The files `audio_read.c`, `vlc_input.c`, `zmqoutput.c` and `xpad.c` are
  not part of this model: sample I/O, threads and the output transport.
  The headers `options.h`, `vlc_input.h`, `zmqoutput.h` and `xpad.h` are
  not part of this model either.

## Findings

| source | as written | input that shows it | evidently intended | confidence | as-written member | corrected member |
|---|---|---|---|---|---|---|
| encode_new.c:1103-1106 (also 662-665) | the first bbal loop runs `sb` up to `jsbound`, even past `sblimit`, reading `nbal[line[tablenum][sb]]` with `line[tablenum][sb] == -1`, i.e. `nbal[-1]` | the first do-while probe (encode_new.c:809-813, mode extension 3, jsbound 16) of any two-channel frame in joint-stereo mode on table 2 or 3 whose full-stereo probe exceeds `*adb` | stop the first loop at `min(jsbound, sblimit)`, as `write_bit_alloc` does, so bbal counts exactly the allocation fields written | high (by reading; not executed) | FrameBits.BbalAsWritten, MainAllocation.JsboundPastSblimit | FrameBits.CountBbal |
| encode_new.c:802-818 with 959-961, 997-1003 and 391-398, 423-433 | joint stereo is chosen before the VBR branch, but `VBR_bit_allocation_new` charges `nch * nbal` per subband and both channels' samples in joint subbands, and raises the channels independently, while the writers emit only channel 0's allocation field above `jsbound` | a two-channel VBR frame whose full-stereo probe exceeds `*adb`, so that `jsbound < sblimit`: with a mirrored allocation the charge exceeds the written width; with channel 1 alone allocated in a joint subband the select codes no longer follow the written allocation | keep joint stereo off in VBR mode, as the comment at line 959 says, so the charge is exactly the written width | plausible (by reading; not executed; depends on whether the callers allow VBR with joint stereo) | FrameLayout.VbrJointOvercharged, FrameLayout.VbrJointUnreadable | FrameLayout.VbrFrameWidth |
