/** Bit costs of a Layer II frame: the quantities the feasibility probe and
    the allocators charge, and that the writers emit. */
module FrameBits {
  import opened Tables
  import opened Common

  /** Width of a scalefactor select code (scfsi). */
  const SelBits := 2
  /** Width of one scalefactor index. */
  const SfBits := 6
  /** Bits reserved for the CRC word when error protection is on. */
  const CrcBits := 16

  /** The per-frame context the encoder functions read from frame_info,
      together with the allocation table chosen by encode_init. */
  datatype FrameInfo = FrameInfo(nch: int, sblimit: int, jsbound: int, tablenum: int)
  {
    predicate Valid()
    {
      && ValidTable(tablenum) && sblimit == TableSblimit(tablenum)
      && (nch == 1 || nch == 2) && 0 <= jsbound <= SbLimitMax
    }
  }

  /** The subband bound of joint stereo for a Layer II mode extension
      (ISO/IEC 11172-3 2.4.2.3, mode_extension): intensity coding starts at
      subband 4, 8, 12 or 16. */
  function JsBound(modeExt: int): (b: int)
    requires 0 <= modeExt < 4
    ensures 4 <= b <= 16
  {
    4 * (modeExt + 1)
  }

  /** berr: the bits kept for the CRC word. */
  function ErrorBits(errorProtection: bool): int
  {
    if errorProtection then CrcBits else 0
  }

  /** Channels with their own allocation in subband sb. */
  function ChannelsIn(nch: int, jsbound: int, sb: int): int
  {
    if sb < jsbound then nch else 1
  }

  /** A subband above jsbound of a two-channel frame: one allocation and one
      sample stream for both channels, but two sets of scalefactors. */
  predicate Joint(f: FrameInfo, sb: int)
  {
    f.nch == 2 && sb >= f.jsbound
  }

  /** Allocation-field width of subband sb below sblimit. */
  function NbalOf(f: FrameInfo, sb: int): (n: int)
    requires f.Valid() && 0 <= sb < f.sblimit
    ensures n == 2 || n == 3 || n == 4
  {
    LineBelowSblimit(f.tablenum, sb);
    Nbal(Line(f.tablenum, sb))
  }

  /** Allocation line of subband sb below sblimit. */
  function LineOf(f: FrameInfo, sb: int): (l: int)
    requires f.Valid() && 0 <= sb < f.sblimit
    ensures ValidLine(l)
  {
    LineBelowSblimit(f.tablenum, sb);
    Line(f.tablenum, sb)
  }

  function BbalTerm(f: FrameInfo): nat -> int
    requires f.Valid()
  {
    (sb: nat) => if sb < f.sblimit then ChannelsIn(f.nch, f.jsbound, sb) * NbalOf(f, sb) else 0
  }

  /** bbal: the bits of all allocation fields, nch of them below jsbound and
      one above it, for every subband below sblimit. */
  function Bbal(f: FrameInfo): int
    requires f.Valid()
  {
    SumTo(f.sblimit, BbalTerm(f))
  }

  /** The two bbal loops as written in bits_for_nonoise_new and
      a_bit_allocation_new: nch fields for every sb < jsbound, then one for
      every jsbound <= sb < sblimit. When jsbound exceeds sblimit the first
      loop reads line[tablenum][sb] == -1 and indexes nbal[-1]; `defined`
      reports whether that happened (the C result is then undefined, and
      the term is counted as 0 here). */
  method BbalAsWritten(f: FrameInfo) returns (bbal: int, defined: bool)
    requires f.Valid()
    ensures defined <==> forall sb :: 0 <= sb < f.jsbound ==> Line(f.tablenum, sb) >= 0
    ensures defined && f.jsbound <= f.sblimit ==> bbal == Bbal(f)
    ensures f.tablenum < 4 && f.jsbound > f.sblimit ==> !defined
  {
    bbal, defined := 0, true;
    var sb := 0;
    while sb < f.jsbound
      invariant 0 <= sb <= f.jsbound
      invariant defined <==> forall b :: 0 <= b < sb ==> Line(f.tablenum, b) >= 0
      invariant defined && sb <= f.sblimit ==> bbal == SumTo(sb, BbalTerm(f))
    {
      var l := Line(f.tablenum, sb);
      if l < 0 {
        defined := false;
      } else {
        bbal := bbal + f.nch * Nbal(l);
      }
      sb := sb + 1;
    }
    sb := f.jsbound;
    while sb < f.sblimit
      invariant f.jsbound <= sb
      invariant sb <= f.sblimit ==> (defined && f.jsbound <= f.sblimit ==> bbal == SumTo(sb, BbalTerm(f)))
      invariant f.jsbound <= f.sblimit ==> sb <= f.sblimit
    {
      bbal := bbal + NbalOf(f, sb);
      sb := sb + 1;
    }
    if f.tablenum < 4 && f.jsbound > f.sblimit {
      LineBelowSblimit(f.tablenum, f.sblimit);
    }
  }

  /** bbal with the first loop stopped at sblimit as well as at jsbound:
      exactly the allocation fields write_bit_alloc emits. */
  method CountBbal(f: FrameInfo) returns (bbal: int)
    requires f.Valid()
    ensures bbal == Bbal(f)
  {
    bbal := 0;
    var sb := 0;
    while sb < f.jsbound && sb < f.sblimit
      invariant 0 <= sb <= f.sblimit && sb <= f.jsbound
      invariant bbal == SumTo(sb, BbalTerm(f))
    {
      bbal := bbal + f.nch * NbalOf(f, sb);
      sb := sb + 1;
    }
    while sb < f.sblimit
      invariant 0 <= sb <= f.sblimit
      invariant sb < f.sblimit ==> f.jsbound <= sb
      invariant bbal == SumTo(sb, BbalTerm(f))
    {
      bbal := bbal + NbalOf(f, sb);
      sb := sb + 1;
    }
  }
}

/** Allocation-dependent bit counts over a snapshot bit_alloc[2][SBLIMIT]. */
module AllocationBits {
  import opened Tables
  import opened StepOrder
  import opened Common
  import opened FrameBits

  /** Every coded entry below sblimit is an allocation index of its line. */
  predicate ValidAllocation(f: FrameInfo, g: seq<seq<int>>)
    requires f.Valid()
  {
    && IsGrid(g, 2, SbLimitMax)
    && forall ch, sb {:trigger g[ch][sb]} :: 0 <= ch < f.nch && 0 <= sb < f.sblimit ==> 0 <= g[ch][sb] <= MaxAlloc(LineOf(f, sb))
  }

  /** Every coded select code is one of the four codes. */
  predicate ValidScfsi(f: FrameInfo, scfsi: seq<seq<int>>)
    requires f.Valid()
  {
    && IsGrid(scfsi, 2, SbLimitMax)
    && forall ch, sb :: 0 <= ch < f.nch && 0 <= sb < f.sblimit ==> 0 <= scfsi[ch][sb] < 4
  }

  /** Above jsbound both channels of a two-channel frame hold the same
      allocation. */
  predicate Mirrored(f: FrameInfo, g: seq<seq<int>>)
    requires IsGrid(g, 2, SbLimitMax)
  {
    forall sb :: 0 <= sb < f.sblimit && Joint(f, sb) && sb < SbLimitMax ==> g[0][sb] == g[1][sb]
  }

  /** The counts an allocator keeps match what is written: with mirrored
      allocations above jsbound when the allocator counts a joint subband
      once, and without joint subbands when it counts every channel. */
  predicate CountedAsWritten(f: FrameInfo, mirror: bool, g: seq<seq<int>>)
    requires IsGrid(g, 2, SbLimitMax)
  {
    if mirror then Mirrored(f, g) else f.nch == 1 || f.sblimit <= f.jsbound
  }

  /** Channels counted in subband sb: those coded on their own when
      allocations are mirrored above jsbound, every channel otherwise. */
  function Span(f: FrameInfo, mirror: bool, sb: int): int
  {
    if mirror then ChannelsIn(f.nch, f.jsbound, sb) else f.nch
  }

  /** SCALE_BLOCK * group * bits of the step entry (ch, sb) is allocated. */
  function EntrySampleBits(f: FrameInfo, g: seq<seq<int>>, ch: int, sb: int): (n: int)
    requires f.Valid() && ValidAllocation(f, g) && 0 <= ch < f.nch && 0 <= sb < f.sblimit
    ensures 0 <= n && (n == 0 <==> g[ch][sb] == 0)
  {
    AllocationCost(LineOf(f, sb), g[ch][sb]);
    SampleBits(LineOf(f, sb), g[ch][sb])
  }

  /** Select-code bits charged for an allocated (ch, sb): two, plus two for
      the other channel's code in a joint subband. */
  function SelCharge(f: FrameInfo, sb: int): int
  {
    if Joint(f, sb) then 2 * SelBits else SelBits
  }

  /** Scalefactor bits charged for an allocated (ch, sb): six per sent
      scalefactor, plus the other channel's in a joint subband. */
  function ScaleCharge(f: FrameInfo, scfsi: seq<seq<int>>, ch: int, sb: int): int
    requires f.Valid() && ValidScfsi(f, scfsi) && 0 <= ch < f.nch && 0 <= sb < f.sblimit
  {
    SfBits * SfsPerScfsi(scfsi[ch][sb])
      + if Joint(f, sb) then SfBits * SfsPerScfsi(scfsi[1 - ch][sb]) else 0
  }

  /** The bits an entry with allocation ba costs: nothing for ba == 0,
      otherwise its samples, its select code(s) and its scalefactors. */
  function EntryCharge(f: FrameInfo, scfsi: seq<seq<int>>, ch: int, sb: int, ba: int): int
    requires f.Valid() && ValidScfsi(f, scfsi) && 0 <= ch < f.nch && 0 <= sb < f.sblimit
    requires 0 <= ba <= MaxAlloc(LineOf(f, sb))
  {
    if ba > 0 then SampleBits(LineOf(f, sb), ba) + SelCharge(f, sb) + ScaleCharge(f, scfsi, ch, sb) else 0
  }

  function ColumnSampleBits(f: FrameInfo, mirror: bool, g: seq<seq<int>>, sb: int): int
    requires f.Valid() && ValidAllocation(f, g) && 0 <= sb < f.sblimit
  {
    EntrySampleBits(f, g, 0, sb) + if Span(f, mirror, sb) == 2 then EntrySampleBits(f, g, 1, sb) else 0
  }

  function ColumnSelBits(f: FrameInfo, mirror: bool, g: seq<seq<int>>, sb: int): int
    requires f.Valid() && ValidAllocation(f, g) && 0 <= sb < f.sblimit
  {
    (if g[0][sb] > 0 then SelCharge(f, sb) else 0)
      + if Span(f, mirror, sb) == 2 && g[1][sb] > 0 then SelCharge(f, sb) else 0
  }

  function ColumnScaleBits(f: FrameInfo, mirror: bool, g: seq<seq<int>>, scfsi: seq<seq<int>>, sb: int): int
    requires f.Valid() && ValidAllocation(f, g) && ValidScfsi(f, scfsi) && 0 <= sb < f.sblimit
  {
    (if g[0][sb] > 0 then ScaleCharge(f, scfsi, 0, sb) else 0)
      + if Span(f, mirror, sb) == 2 && g[1][sb] > 0 then ScaleCharge(f, scfsi, 1, sb) else 0
  }

  function SampleTerm(f: FrameInfo, mirror: bool, g: seq<seq<int>>): nat -> int
    requires f.Valid() && ValidAllocation(f, g)
  {
    (sb: nat) => if sb < f.sblimit then ColumnSampleBits(f, mirror, g, sb) else 0
  }

  function SelTerm(f: FrameInfo, mirror: bool, g: seq<seq<int>>): nat -> int
    requires f.Valid() && ValidAllocation(f, g)
  {
    (sb: nat) => if sb < f.sblimit then ColumnSelBits(f, mirror, g, sb) else 0
  }

  function ScaleTerm(f: FrameInfo, mirror: bool, g: seq<seq<int>>, scfsi: seq<seq<int>>): nat -> int
    requires f.Valid() && ValidAllocation(f, g) && ValidScfsi(f, scfsi)
  {
    (sb: nat) => if sb < f.sblimit then ColumnScaleBits(f, mirror, g, scfsi, sb) else 0
  }

  /** Sample bits of an allocation: 12 * group * bits per counted entry. */
  function SampleTotal(f: FrameInfo, mirror: bool, g: seq<seq<int>>): int
    requires f.Valid() && ValidAllocation(f, g)
  {
    SumTo(f.sblimit, SampleTerm(f, mirror, g))
  }

  /** Select-code bits of an allocation. */
  function SelTotal(f: FrameInfo, mirror: bool, g: seq<seq<int>>): int
    requires f.Valid() && ValidAllocation(f, g)
  {
    SumTo(f.sblimit, SelTerm(f, mirror, g))
  }

  /** Scalefactor bits of an allocation. */
  function ScaleTotal(f: FrameInfo, mirror: bool, g: seq<seq<int>>, scfsi: seq<seq<int>>): int
    requires f.Valid() && ValidAllocation(f, g) && ValidScfsi(f, scfsi)
  {
    SumTo(f.sblimit, ScaleTerm(f, mirror, g, scfsi))
  }

  /** The bits bits_for_nonoise_new reports for an allocation: header,
      CRC, allocation fields, and the samples, select codes and scalefactors
      of every allocated entry. */
  function FrameTotal(f: FrameInfo, berr: int, g: seq<seq<int>>, scfsi: seq<seq<int>>): int
    requires f.Valid() && ValidAllocation(f, g) && ValidScfsi(f, scfsi)
  {
    HeaderBits + berr + Bbal(f) + SampleTotal(f, true, g) + SelTotal(f, true, g) + ScaleTotal(f, true, g, scfsi)
  }
}
