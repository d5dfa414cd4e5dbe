/** The feasibility probe bits_for_nonoise_new: the smallest allocations
    whose mask-to-noise ratio reaches a threshold, and the bits a frame with
    those allocations needs. */
module Probe {
  import opened Tables
  import opened StepOrder
  import opened Common
  import opened FrameBits
  import opened AllocationBits

  /** smr[2][SBLIMIT] */
  predicate IsRealGrid(s: seq<seq<real>>)
  {
    |s| == 2 && forall ch :: 0 <= ch < 2 ==> |s[ch]| == SbLimitMax
  }

  /** The scan loop: from allocation ba upwards, the first allocation below
      bound whose SNR exceeds smr by at least minMnr, or bound when none
      does (an allocation at bound is never tested). */
  function Scan(l: int, smr: real, minMnr: real, ba: int, bound: int): (r: int)
    requires ValidLine(l) && 0 <= ba && bound < MaxAlloc(l)
    ensures ba >= bound ==> r == ba
    ensures ba < bound ==> ba <= r <= bound
    ensures forall k :: ba <= k < r ==> ValidAlloc(k) && Snr(StepIndex(l, k)) - smr < minMnr
    ensures ba <= r < bound ==> ValidAlloc(r) && Snr(StepIndex(l, r)) - smr >= minMnr
    decreases bound - ba
  {
    if ba >= bound then ba
    else if Snr(StepIndex(l, ba)) - smr >= minMnr then ba
    else Scan(l, smr, minMnr, ba + 1, bound)
  }

  /** The allocation the probe gives (ch, sb): the scan on the channel's own
      SMR, continued on the other channel's SMR in a joint subband. */
  function ProbeAlloc(f: FrameInfo, smr: seq<seq<real>>, minMnr: real, ch: int, sb: int): (ba: int)
    requires f.Valid() && IsRealGrid(smr) && 0 <= ch < f.nch && 0 <= sb < f.sblimit
    ensures 0 <= ba <= MaxAlloc(LineOf(f, sb)) - 1
  {
    var l := LineOf(f, sb);
    var ba := Scan(l, smr[ch][sb], minMnr, 0, MaxAlloc(l) - 1);
    if f.nch == 2 && sb >= f.jsbound then Scan(l, smr[1 - ch][sb], minMnr, ba, MaxAlloc(l) - 1) else ba
  }

  /** The probed allocation table: ProbeAlloc for every probed entry, 0 for
      the rest. */
  function ProbeGrid(f: FrameInfo, smr: seq<seq<real>>, minMnr: real): (g: seq<seq<int>>)
    requires f.Valid() && IsRealGrid(smr)
    ensures IsGrid(g, 2, SbLimitMax) && ValidAllocation(f, g)
    ensures forall ch, sb :: 0 <= ch < 2 && 0 <= sb < SbLimitMax ==>
      g[ch][sb] == if sb < f.sblimit && ch < ChannelsIn(f.nch, f.jsbound, sb) then ProbeAlloc(f, smr, minMnr, ch, sb) else 0
  {
    seq(2, ch requires 0 <= ch < 2 =>
      seq(SbLimitMax, sb requires 0 <= sb < SbLimitMax =>
        if sb < f.sblimit && ch < ChannelsIn(f.nch, f.jsbound, sb) then ProbeAlloc(f, smr, minMnr, ch, sb) else 0))
  }

  /** Every probed allocation is an index of its line below the last one:
      the scan stops at 2^nbal - 2. */
  lemma ProbeAllocBound(f: FrameInfo, smr: seq<seq<real>>, minMnr: real, ch: int, sb: int)
    requires f.Valid() && IsRealGrid(smr) && 0 <= ch < f.nch && 0 <= sb < f.sblimit
    ensures 0 <= ProbeAlloc(f, smr, minMnr, ch, sb) <= Pow2(NbalOf(f, sb)) - 2
  {
    MaxAllocIsPow2(LineOf(f, sb));
  }

  /** Continuing the scan on a second SMR from where the first stopped
      finds the first allocation at which both SMRs are cleared, unless the
      scan hit its bound. */
  lemma JointScan(l: int, s0: real, s1: real, minMnr: real)
    requires ValidLine(l)
    ensures MaxAlloc(l) >= 3
    ensures var bound := MaxAlloc(l) - 1;
      var ba := Scan(l, s1, minMnr, Scan(l, s0, minMnr, 0, bound), bound);
      ba < bound ==> ValidAlloc(ba) && Snr(StepIndex(l, ba)) - s0 >= minMnr && Snr(StepIndex(l, ba)) - s1 >= minMnr
  {
    var bound := MaxAlloc(l) - 1;
    var b0 := Scan(l, s0, minMnr, 0, bound);
    var ba := Scan(l, s1, minMnr, b0, bound);
    if ba < bound {
      SnrAlongLine(l, b0, ba);
    }
  }

  /** No allocation below the joint scan's result clears both SMRs. */
  lemma JointScanFirst(l: int, s0: real, s1: real, minMnr: real, k: int)
    requires ValidLine(l)
    requires MaxAlloc(l) >= 3
    requires 0 <= k < Scan(l, s1, minMnr, Scan(l, s0, minMnr, 0, MaxAlloc(l) - 1), MaxAlloc(l) - 1)
    ensures ValidAlloc(k) && (Snr(StepIndex(l, k)) - s0 < minMnr || Snr(StepIndex(l, k)) - s1 < minMnr)
  {
    var bound := MaxAlloc(l) - 1;
    var b0 := Scan(l, s0, minMnr, 0, bound);
    if k >= b0 {
      assert b0 <= k < Scan(l, s1, minMnr, b0, bound);
    }
  }

  /** In a joint subband the probed allocation is the first one at which
      both channels reach minMnr, unless the scan hit its bound. */
  lemma JointProbeClearsBoth(f: FrameInfo, smr: seq<seq<real>>, minMnr: real, sb: int, k: int)
    requires f.Valid() && IsRealGrid(smr) && 0 <= sb < f.sblimit && Joint(f, sb)
    requires 0 <= k < ProbeAlloc(f, smr, minMnr, 0, sb)
    ensures var ba, l := ProbeAlloc(f, smr, minMnr, 0, sb), LineOf(f, sb);
      && (ba < MaxAlloc(l) - 1 ==>
            ValidAlloc(ba) && Snr(StepIndex(l, ba)) - smr[0][sb] >= minMnr
            && Snr(StepIndex(l, ba)) - smr[1][sb] >= minMnr)
      && ValidAlloc(k) && (Snr(StepIndex(l, k)) - smr[0][sb] < minMnr || Snr(StepIndex(l, k)) - smr[1][sb] < minMnr)
  {
    var l := LineOf(f, sb);
    JointScan(l, smr[0][sb], smr[1][sb], minMnr);
    JointScanFirst(l, smr[0][sb], smr[1][sb], minMnr, k);
  }

  /** The bits charged for a probed entry: its samples, its select code(s)
      and its scalefactors, when it has an allocation. */
  function EntryBits(f: FrameInfo, g: seq<seq<int>>, scfsi: seq<seq<int>>, ch: int, sb: int): int
    requires f.Valid() && ValidAllocation(f, g) && ValidScfsi(f, scfsi) && 0 <= ch < f.nch && 0 <= sb < f.sblimit
  {
    EntryCharge(f, scfsi, ch, sb, g[ch][sb])
  }

  function CodedTerm(f: FrameInfo, g: seq<seq<int>>, scfsi: seq<seq<int>>): nat -> int
    requires f.Valid() && ValidAllocation(f, g) && ValidScfsi(f, scfsi)
  {
    (sb: nat) => if sb < f.sblimit then
      EntryBits(f, g, scfsi, 0, sb) + (if ChannelsIn(f.nch, f.jsbound, sb) == 2 then EntryBits(f, g, scfsi, 1, sb) else 0)
    else 0
  }

  /** The entry-by-entry tally of the probe is the frame total less header,
      CRC and allocation fields. */
  lemma CodedBitsSplit(f: FrameInfo, berr: int, g: seq<seq<int>>, scfsi: seq<seq<int>>)
    requires f.Valid() && ValidAllocation(f, g) && ValidScfsi(f, scfsi)
    ensures HeaderBits + berr + Bbal(f) + SumTo(f.sblimit, CodedTerm(f, g, scfsi)) == FrameTotal(f, berr, g, scfsi)
  {
    var a, b, c := SampleTerm(f, true, g), SelTerm(f, true, g), ScaleTerm(f, true, g, scfsi);
    var ab: nat -> int := (sb: nat) => a(sb) + b(sb);
    var coded := CodedTerm(f, g, scfsi);
    forall sb: nat | sb < f.sblimit
      ensures coded(sb) == ab(sb) + c(sb)
    {
      CodedTermSplit(f, g, scfsi, sb);
    }
    SumToAdd(f.sblimit, a, b, ab);
    SumToAdd(f.sblimit, ab, c, coded);
  }

  lemma CodedTermSplit(f: FrameInfo, g: seq<seq<int>>, scfsi: seq<seq<int>>, sb: nat)
    requires f.Valid() && ValidAllocation(f, g) && ValidScfsi(f, scfsi) && sb < f.sblimit
    ensures CodedTerm(f, g, scfsi)(sb)
      == ColumnSampleBits(f, true, g, sb) + ColumnSelBits(f, true, g, sb) + ColumnScaleBits(f, true, g, scfsi, sb)
  {
  }

  /** bits_for_nonoise_new: writes the probed allocation of every probed
      entry into bit_alloc and returns the bits the frame then needs. */
  method BitsForNonoise(f: FrameInfo, errorProtection: bool, smr: seq<seq<real>>, scfsi: seq<seq<int>>,
                        minMnr: real, bitAlloc: array2<int>) returns (reqBits: int)
    requires f.Valid() && IsRealGrid(smr) && ValidScfsi(f, scfsi)
    requires bitAlloc.Length0 == 2 && bitAlloc.Length1 == SbLimitMax
    modifies bitAlloc
    ensures forall ch, sb :: 0 <= sb < f.sblimit && 0 <= ch < ChannelsIn(f.nch, f.jsbound, sb) ==>
      bitAlloc[ch, sb] == ProbeAlloc(f, smr, minMnr, ch, sb)
    ensures forall ch, sb :: (0 <= ch < 2 && 0 <= sb < SbLimitMax && !(sb < f.sblimit && ch < ChannelsIn(f.nch, f.jsbound, sb))) ==>
      bitAlloc[ch, sb] == old(bitAlloc[ch, sb])
    ensures reqBits == FrameTotal(f, ErrorBits(errorProtection), ProbeGrid(f, smr, minMnr), scfsi)
  {
    var berr := if errorProtection then CrcBits else 0;
    var bbal := CountBbal(f);
    reqBits := HeaderBits + bbal + berr;
    reqBits := ProbeSubbands(f, smr, scfsi, minMnr, bitAlloc, reqBits);
    CodedBitsSplit(f, berr, ProbeGrid(f, smr, minMnr), scfsi);
  }

  /** The subband loop of bits_for_nonoise_new, adding the bits of every
      probed entry to reqBits. */
  method ProbeSubbands(f: FrameInfo, smr: seq<seq<real>>, scfsi: seq<seq<int>>, minMnr: real,
                       bitAlloc: array2<int>, start: int) returns (reqBits: int)
    requires f.Valid() && IsRealGrid(smr) && ValidScfsi(f, scfsi)
    requires bitAlloc.Length0 == 2 && bitAlloc.Length1 == SbLimitMax
    modifies bitAlloc
    ensures forall ch, sb :: 0 <= sb < f.sblimit && 0 <= ch < ChannelsIn(f.nch, f.jsbound, sb) ==>
      bitAlloc[ch, sb] == ProbeAlloc(f, smr, minMnr, ch, sb)
    ensures forall ch, sb :: (0 <= ch < 2 && 0 <= sb < SbLimitMax && !(sb < f.sblimit && ch < ChannelsIn(f.nch, f.jsbound, sb))) ==>
      bitAlloc[ch, sb] == old(bitAlloc[ch, sb])
    ensures reqBits == start + SumTo(f.sblimit, CodedTerm(f, ProbeGrid(f, smr, minMnr), scfsi))
  {
    ghost var term := CodedTerm(f, ProbeGrid(f, smr, minMnr), scfsi);
    reqBits := start;
    var sb := 0;
    while sb < f.sblimit
      invariant 0 <= sb <= f.sblimit
      invariant reqBits == start + SumTo(sb, term)
      invariant forall c, b :: 0 <= b < sb && 0 <= c < ChannelsIn(f.nch, f.jsbound, b) ==>
        bitAlloc[c, b] == ProbeAlloc(f, smr, minMnr, c, b)
      invariant forall c, b :: 0 <= c < 2 && sb <= b < SbLimitMax ==> bitAlloc[c, b] == old(bitAlloc[c, b])
      invariant forall c, b :: 0 <= b < sb && ChannelsIn(f.nch, f.jsbound, b) <= c < 2 ==>
        bitAlloc[c, b] == old(bitAlloc[c, b])
    {
      var bits := ProbeSubband(f, smr, scfsi, minMnr, bitAlloc, sb);
      reqBits := reqBits + bits;
      sb := sb + 1;
    }
  }

  /** One pass of the subband loop of bits_for_nonoise_new: probes the
      channels coded in subband sb and returns the bits they need. */
  method ProbeSubband(f: FrameInfo, smr: seq<seq<real>>, scfsi: seq<seq<int>>, minMnr: real,
                      bitAlloc: array2<int>, sb: int) returns (bits: int)
    requires f.Valid() && IsRealGrid(smr) && ValidScfsi(f, scfsi) && 0 <= sb < f.sblimit
    requires bitAlloc.Length0 == 2 && bitAlloc.Length1 == SbLimitMax
    modifies bitAlloc
    ensures bits == CodedTerm(f, ProbeGrid(f, smr, minMnr), scfsi)(sb)
    ensures forall c :: 0 <= c < ChannelsIn(f.nch, f.jsbound, sb) ==> bitAlloc[c, sb] == ProbeAlloc(f, smr, minMnr, c, sb)
    ensures forall c, b :: 0 <= c < 2 && 0 <= b < SbLimitMax && b != sb ==> bitAlloc[c, b] == old(bitAlloc[c, b])
    ensures forall c :: ChannelsIn(f.nch, f.jsbound, sb) <= c < 2 ==> bitAlloc[c, sb] == old(bitAlloc[c, sb])
  {
    var allocs;
    bits, allocs := ProbeColumn(f, smr, scfsi, minMnr, sb);
    bitAlloc[0, sb] := allocs[0];
    if |allocs| == 2 {
      bitAlloc[1, sb] := allocs[1];
    }
  }

  /** The channel loop of one subband of bits_for_nonoise_new: the
      allocation each coded channel gets and the bits they need together. */
  method ProbeColumn(f: FrameInfo, smr: seq<seq<real>>, scfsi: seq<seq<int>>, minMnr: real, sb: int)
    returns (bits: int, allocs: seq<int>)
    requires f.Valid() && IsRealGrid(smr) && ValidScfsi(f, scfsi) && 0 <= sb < f.sblimit
    ensures bits == CodedTerm(f, ProbeGrid(f, smr, minMnr), scfsi)(sb)
    ensures |allocs| == ChannelsIn(f.nch, f.jsbound, sb)
    ensures forall c :: 0 <= c < |allocs| ==> allocs[c] == ProbeAlloc(f, smr, minMnr, c, sb)
  {
    var span := if sb < f.jsbound then f.nch else 1;
    var ch := 0;
    bits, allocs := 0, [];
    while ch < span
      invariant 0 <= ch <= span && |allocs| == ch
      invariant forall c :: 0 <= c < ch ==> allocs[c] == ProbeAlloc(f, smr, minMnr, c, sb)
      invariant ch == 0 ==> bits == 0
      invariant ch == 1 ==> bits == EntryCharge(f, scfsi, 0, sb, allocs[0])
      invariant ch == 2 ==> bits == EntryCharge(f, scfsi, 0, sb, allocs[0]) + EntryCharge(f, scfsi, 1, sb, allocs[1])
    {
      var ba := ProbeEntry(f, smr, minMnr, ch, sb);
      var charge := ChargeEntry(f, scfsi, ch, sb, ba);
      bits := bits + charge;
      allocs := allocs + [ba];
      ch := ch + 1;
    }
    ProbedTerm(f, smr, scfsi, minMnr, sb);
  }

  /** The bits of subband sb in the probed table are the charges of its
      probed allocations. */
  lemma ProbedTerm(f: FrameInfo, smr: seq<seq<real>>, scfsi: seq<seq<int>>, minMnr: real, sb: int)
    requires f.Valid() && IsRealGrid(smr) && ValidScfsi(f, scfsi) && 0 <= sb < f.sblimit
    ensures CodedTerm(f, ProbeGrid(f, smr, minMnr), scfsi)(sb)
      == EntryCharge(f, scfsi, 0, sb, ProbeAlloc(f, smr, minMnr, 0, sb))
        + if ChannelsIn(f.nch, f.jsbound, sb) == 2 then EntryCharge(f, scfsi, 1, sb, ProbeAlloc(f, smr, minMnr, 1, sb)) else 0
  {
    var g := ProbeGrid(f, smr, minMnr);
    assert g[0][sb] == ProbeAlloc(f, smr, minMnr, 0, sb);
    if ChannelsIn(f.nch, f.jsbound, sb) == 2 {
      assert g[1][sb] == ProbeAlloc(f, smr, minMnr, 1, sb);
    }
  }

  /** The bits bits_for_nonoise_new adds for an entry with allocation ba:
      nothing for ba == 0, otherwise its samples, its select code(s) and its
      scalefactors, those of both channels in a joint subband. */
  method ChargeEntry(f: FrameInfo, scfsi: seq<seq<int>>, ch: int, sb: int, ba: int) returns (bits: int)
    requires f.Valid() && ValidScfsi(f, scfsi) && 0 <= ch < f.nch && 0 <= sb < f.sblimit
    requires 0 <= ba <= MaxAlloc(LineOf(f, sb))
    ensures bits == EntryCharge(f, scfsi, ch, sb, ba)
  {
    bits := 0;
    if ba > 0 {
      var l := LineOf(f, sb);
      // SCALE_BLOCK * group * bits of the entry's step (StepSampleBitsIsProduct)
      var smpBits := StepSampleBits(StepIndex(l, ba));
      var selBits := SelBits;
      var scBits := SfBits * SfsPerScfsi(scfsi[ch][sb]);
      if f.nch == 2 && sb >= f.jsbound {
        selBits := selBits + SelBits;
        scBits := scBits + SfBits * SfsPerScfsi(scfsi[1 - ch][sb]);
      }
      bits := smpBits + selBits + scBits;
    }
  }

  /** One scan loop of bits_for_nonoise_new: `for (; ba < maxAlloc - 1; ++ba)`
      until SNR[step] - smr >= minMnr. */
  method ScanLoop(l: int, smr: real, minMnr: real, start: int) returns (ba: int)
    requires ValidLine(l) && 0 <= start <= MaxAlloc(l) - 1
    ensures ba == Scan(l, smr, minMnr, start, MaxAlloc(l) - 1)
  {
    var maxAlloc := MaxAlloc(l);
    ba := start;
    while ba < maxAlloc - 1
      invariant start <= ba <= maxAlloc - 1
      invariant Scan(l, smr, minMnr, start, maxAlloc - 1) == Scan(l, smr, minMnr, ba, maxAlloc - 1)
    {
      if Snr(StepIndex(l, ba)) - smr >= minMnr {
        break;
      }
      ba := ba + 1;
    }
  }

  /** The two scan loops of bits_for_nonoise_new for one entry: the
      channel's own SMR, then, in a joint subband, the other channel's. */
  method ProbeEntry(f: FrameInfo, smr: seq<seq<real>>, minMnr: real, ch: int, sb: int) returns (ba: int)
    requires f.Valid() && IsRealGrid(smr) && 0 <= ch < f.nch && 0 <= sb < f.sblimit
    ensures ba == ProbeAlloc(f, smr, minMnr, ch, sb)
  {
    var l := LineOf(f, sb);
    ba := ScanLoop(l, smr[ch][sb], minMnr, 0);
    if f.nch == 2 && sb >= f.jsbound {
      ba := ScanLoop(l, smr[1 - ch][sb], minMnr, ba);
    }
  }
}
