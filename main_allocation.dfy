/** main_bit_allocation_new: the joint-stereo mode extension of a joint
    stereo frame, the bitrate index of a VBR frame, and the greedy
    allocator that then fills the frame. */
module MainAllocation {
  import opened Tables
  import opened Common
  import opened FrameBits
  import opened AllocationBits
  import opened FrameHeader
  import opened Probe
  import opened BitAllocation

  /** Header mode values (ISO/IEC 11172-3 2.4.2.3). */
  const MdStereo := 0
  const MdJointStereo := 1
  const MdMono := 3

  /** Bitrate indices 1..14 are the ones a frame may use. */
  const BitrateSlots := 15

  /** The bits bits_for_nonoise_new reports for frame f when every entry
      must clear minMnr. */
  function ProbeBits(f: FrameInfo, errorProtection: bool, smr: seq<seq<real>>, scfsi: seq<seq<int>>, minMnr: real): int
    requires f.Valid() && IsRealGrid(smr) && ValidScfsi(f, scfsi)
  {
    FrameTotal(f, ErrorBits(errorProtection), ProbeGrid(f, smr, minMnr), scfsi)
  }

  /** f with the joint-stereo bound of mode extension m. */
  function JointFrame(f: FrameInfo, m: int): (r: FrameInfo)
    requires f.Valid() && 0 <= m < 4
    ensures r.Valid() && r.nch == f.nch && r.sblimit == f.sblimit && r.tablenum == f.tablenum
  {
    f.(jsbound := JsBound(m))
  }

  /** Whether the probe of f at mode extension m fits adb. */
  predicate JointFits(f: FrameInfo, errorProtection: bool, smr: seq<seq<real>>, scfsi: seq<seq<int>>, adb: int, m: int)
    requires f.Valid() && IsRealGrid(smr) && ValidScfsi(f, scfsi) && 0 <= m < 4
  {
    ProbeBits(JointFrame(f, m), errorProtection, smr, scfsi, 0.0) <= adb
  }

  /** Whether the probe fits adb at each mode extension 0..3. The ensures
      only spells out the entries; it is there as a proof aid for the
      stereo choice, which reasons about the table entry by entry. */
  function FitTable(f: FrameInfo, errorProtection: bool, smr: seq<seq<real>>, scfsi: seq<seq<int>>, adb: int): (fits: seq<bool>)
    requires f.Valid() && IsRealGrid(smr) && ValidScfsi(f, scfsi)
    ensures |fits| == 4 && forall m :: 0 <= m < 4 ==> fits[m] == JointFits(f, errorProtection, smr, scfsi, adb, m)
  {
    seq(4, m requires 0 <= m < 4 => JointFits(f, errorProtection, smr, scfsi, adb, m))
  }

  /** The mode extension the do-while loop of main_bit_allocation_new ends
      with when it starts below m + 1: the largest k <= m that fits, or 0
      when none does. */
  function FirstFit(fits: seq<bool>, m: int): (r: int)
    requires 0 <= m < |fits|
    ensures 0 <= r <= m
    ensures r > 0 ==> fits[r]
    ensures forall k :: r < k <= m ==> !fits[k]
    decreases m
  {
    if m == 0 || fits[m] then m else FirstFit(fits, m - 1)
  }

  /** The header mode, mode extension and jsbound a joint-stereo frame
      gets. */
  datatype StereoChoice = StereoChoice(mode: int, modeExt: int, jsbound: int)

  /** Full stereo when its probe fits adb; joint stereo at the first mode
      extension from 3 down whose probe fits, or at 0, otherwise. */
  function ChooseStereo(f: FrameInfo, errorProtection: bool, smr: seq<seq<real>>, scfsi: seq<seq<int>>, adb: int): StereoChoice
    requires f.Valid() && IsRealGrid(smr) && ValidScfsi(f, scfsi)
  {
    if ProbeBits(f.(jsbound := f.sblimit), errorProtection, smr, scfsi, 0.0) <= adb then
      StereoChoice(MdStereo, 0, f.sblimit)
    else
      var m := FirstFit(FitTable(f, errorProtection, smr, scfsi, adb), 3);
      StereoChoice(MdJointStereo, m, JsBound(m))
  }

  /** The choice is full stereo exactly when the full-stereo probe fits;
      otherwise the mode extension is the largest whose probe fits, and it
      is 0 only when it fits or nothing larger does. */
  lemma StereoChoiceMeaning(f: FrameInfo, errorProtection: bool, smr: seq<seq<real>>, scfsi: seq<seq<int>>, adb: int)
    requires f.Valid() && IsRealGrid(smr) && ValidScfsi(f, scfsi)
    ensures var c := ChooseStereo(f, errorProtection, smr, scfsi, adb);
      && (c.mode == MdStereo <==> ProbeBits(f.(jsbound := f.sblimit), errorProtection, smr, scfsi, 0.0) <= adb)
      && (c.mode == MdStereo ==> c.modeExt == 0 && c.jsbound == f.sblimit)
      && (c.mode == MdJointStereo ==>
            && 0 <= c.modeExt <= 3 && c.jsbound == JsBound(c.modeExt)
            && (c.modeExt > 0 ==> JointFits(f, errorProtection, smr, scfsi, adb, c.modeExt))
            && forall k :: c.modeExt < k <= 3 ==> !JointFits(f, errorProtection, smr, scfsi, adb, k))
  {
    var fits := FitTable(f, errorProtection, smr, scfsi, adb);
    var m := FirstFit(fits, 3);
    assert forall k :: m < k <= 3 ==> !fits[k];
  }

  /** Every two-channel frame in joint-stereo mode (the only frames whose
      stereo choice runs) on allocation table 2 or 3 (sblimit 8 or 12)
      whose full-stereo probe does not fit adb takes joint stereo, and the
      first probe of the countdown, the one at mode extension 3, decides
      whether it stays there. That probe's frame has jsbound 16, past
      sblimit, so the bbal loop of bits_for_nonoise_new, which runs sb up
      to jsbound, reaches a subband whose line entry is -1. */
  lemma JsboundPastSblimit(f: FrameInfo, errorProtection: bool, smr: seq<seq<real>>, scfsi: seq<seq<int>>, adb: int)
    requires f.Valid() && IsRealGrid(smr) && ValidScfsi(f, scfsi)
    requires f.nch == 2 && (f.tablenum == 2 || f.tablenum == 3)
    requires ProbeBits(f.(jsbound := f.sblimit), errorProtection, smr, scfsi, 0.0) > adb
    ensures var c := ChooseStereo(f, errorProtection, smr, scfsi, adb);
      c.mode == MdJointStereo && (c.modeExt == 3 <==> JointFits(f, errorProtection, smr, scfsi, adb, 3))
    ensures JointFrame(f, 3).jsbound == 16 > f.sblimit
    ensures exists sb :: 0 <= sb < JointFrame(f, 3).jsbound && Line(f.tablenum, sb) == -1
  {
    StereoChoiceMeaning(f, errorProtection, smr, scfsi, adb);
    LineBelowSblimit(f.tablenum, f.sblimit);
  }

  /** vbrlimits[nch - 1][sfreq]: the bitrate indices VBR may use with the
      allocation table of an MPEG-1 session. */
  function VbrLimits(nch: int, sfreq: int): (r: (int, int))
    requires nch == 1 || nch == 2
    requires 0 <= sfreq < 3
    ensures 1 <= r.0 <= r.1 <= 14
  {
    if nch == 1 then (if sfreq == 1 then (3, 10) else (6, 10))
    else (if sfreq == 1 then (7, 14) else (10, 14))
  }

  /** The bitrate index the VBR loop picks from b on: the first index up to
      upper whose frame holds more than req bits, upper when there is
      none. */
  function GuessIndex(brBits: seq<int>, b: int, upper: int, req: int): (r: int)
    requires 0 <= b && upper < |brBits|
    ensures forall k :: b <= k < r && k <= upper ==> brBits[k] <= req
    ensures (b <= r <= upper && brBits[r] > req) || (r == upper && forall k :: b <= k <= upper ==> brBits[k] <= req)
    decreases upper - b
  {
    if b > upper then upper
    else if brBits[b] > req then b
    else GuessIndex(brBits, b + 1, upper, req)
  }

  /** The static state of main_bit_allocation_new: initialised once, at
      the first frame, with the bitrate index range VBR may use and the
      bits a frame holds at each index of that range. */
  class VbrSession {
    var initialised: bool
    var lower: int
    var upper: int
    var brBits: seq<int>

    /** The session before the first frame. */
    constructor ()
      ensures !initialised && lower == 10 && upper == 10 && brBits == seq(BitrateSlots, _ => 0)
    {
      initialised := false;
      lower, upper := 10, 10;
      brBits := seq(BitrateSlots, _ => 0);
    }

    predicate Valid()
      reads this
    {
      && |brBits| == BitrateSlots
      && (initialised ==> 1 <= lower <= upper < BitrateSlots)
    }

    /** The init block: LSF sessions may use indices 1..14, MPEG-1 sessions
        the range of vbrlimits for their channels and sampling frequency;
        bitrateindextobits is filled over the range from bitsAt. */
    method Initialise(h: Header, actualMode: int, bitsAt: int -> int)
      requires Valid() && !initialised
      requires h.version == 0 || 0 <= h.samplingFrequency < 3
      modifies this
      ensures Valid() && initialised
      ensures (lower, upper) == if h.version == 0 then (1, 14)
        else VbrLimits(if actualMode == MdMono then 1 else 2, h.samplingFrequency)
      ensures forall k :: 0 <= k < BitrateSlots ==>
        brBits[k] == if lower <= k <= upper then bitsAt(k) else old(brBits[k])
    {
      initialised := true;
      if h.version == 0 {
        lower, upper := 1, 14;
      } else {
        var nch := if actualMode == MdMono then 1 else 2;
        var limits := VbrLimits(nch, h.samplingFrequency);
        lower, upper := limits.0, limits.1;
      }
      var brindex := lower;
      ghost var range := (lower, upper);
      while brindex <= upper
        invariant initialised && (lower, upper) == range
        invariant lower <= brindex <= upper + 1 && |brBits| == BitrateSlots
        invariant forall k :: 0 <= k < BitrateSlots ==>
          brBits[k] == if lower <= k < brindex then bitsAt(k) else old(brBits[k])
      {
        brBits := brBits[brindex := bitsAt(brindex)];
        brindex := brindex + 1;
      }
    }

    /** The loop over [lower, upper] that picks the first index whose frame
        holds more than req bits, upper when none does. */
    method FindBitrate(req: int) returns (guess: int)
      requires Valid() && initialised
      ensures guess == GuessIndex(brBits, lower, upper, req)
      ensures lower <= guess <= upper
    {
      guess := 0;
      var found := false;
      var brindex := lower;
      while brindex <= upper
        invariant lower <= brindex <= upper + 1
        invariant GuessIndex(brBits, brindex, upper, req) == GuessIndex(brBits, lower, upper, req)
      {
        if brBits[brindex] > req {
          guess := brindex;
          found := true;
          break;
        }
        brindex := brindex + 1;
      }
      if !found {
        guess := upper;
      }
    }
  }

  /** frame_info and its header as main_bit_allocation_new changes them. */
  class Frame {
    var header: Header
    var info: FrameInfo
    var actualMode: int

    constructor (h: Header, f: FrameInfo, mode: int)
      ensures header == h && info == f && actualMode == mode
    {
      header, info, actualMode := h, f, mode;
    }
  }

  /** One bits_for_nonoise_new probe at minimum MNR 0 of the joint-stereo
      block; the allocation it leaves in bitAlloc is not used. */
  method ProbeAt(f: FrameInfo, errorProtection: bool, smr: seq<seq<real>>, scfsi: seq<seq<int>>,
                 bitAlloc: array2<int>) returns (bits: int)
    requires f.Valid() && IsRealGrid(smr) && ValidScfsi(f, scfsi)
    requires bitAlloc.Length0 == 2 && bitAlloc.Length1 == SbLimitMax
    modifies bitAlloc
    ensures bits == ProbeBits(f, errorProtection, smr, scfsi, 0.0)
  {
    bits := BitsForNonoise(f, errorProtection, smr, scfsi, 0.0, bitAlloc);
  }

  /** The probes of the joint-stereo block of main_bit_allocation_new:
      full stereo when its probe fits adb, otherwise joint stereo with the
      mode extension lowered from 3 until the probe fits or it reaches 0.
      Each probe leaves its allocation in bitAlloc. */
  method ProbeStereo(f: FrameInfo, errorProtection: bool, smr: seq<seq<real>>, scfsi: seq<seq<int>>,
                     bitAlloc: array2<int>, adb: int) returns (c: StereoChoice)
    requires f.Valid() && IsRealGrid(smr) && ValidScfsi(f, scfsi)
    requires bitAlloc.Length0 == 2 && bitAlloc.Length1 == SbLimitMax
    modifies bitAlloc
    ensures c == ChooseStereo(f, errorProtection, smr, scfsi, adb)
  {
    ghost var fits := FitTable(f, errorProtection, smr, scfsi, adb);
    var rqDb := ProbeAt(f.(jsbound := f.sblimit), errorProtection, smr, scfsi, bitAlloc);
    if rqDb <= adb {
      return StereoChoice(MdStereo, 0, f.sblimit);
    }
    var modeExt := 3;
    rqDb := ProbeAt(f.(jsbound := JsBound(modeExt)), errorProtection, smr, scfsi, bitAlloc);
    while rqDb > adb && modeExt > 0
      invariant 0 <= modeExt <= 3
      invariant rqDb == ProbeBits(JointFrame(f, modeExt), errorProtection, smr, scfsi, 0.0)
      invariant FirstFit(fits, modeExt) == FirstFit(fits, 3)
      decreases modeExt
    {
      assert !fits[modeExt];
      modeExt := modeExt - 1;
      rqDb := ProbeAt(f.(jsbound := JsBound(modeExt)), errorProtection, smr, scfsi, bitAlloc);
    }
    c := StereoChoice(MdJointStereo, modeExt, JsBound(modeExt));
  }

  /** The joint-stereo block of main_bit_allocation_new: the header gets
      the chosen mode and mode extension, frame_info the chosen jsbound. */
  method SelectJointStereo(frame: Frame, smr: seq<seq<real>>, scfsi: seq<seq<int>>, bitAlloc: array2<int>, adb: int)
    requires frame.info.Valid() && IsRealGrid(smr) && ValidScfsi(frame.info, scfsi)
    requires bitAlloc.Length0 == 2 && bitAlloc.Length1 == SbLimitMax
    modifies frame, bitAlloc
    ensures frame.actualMode == old(frame.actualMode)
    ensures var c := ChooseStereo(old(frame.info), old(frame.header).errorProtection, smr, scfsi, adb);
      && frame.info == old(frame.info).(jsbound := c.jsbound)
      && frame.header == old(frame.header).(mode := c.mode, modeExt := c.modeExt)
  {
    var c := ProbeStereo(frame.info, frame.header.errorProtection, smr, scfsi, bitAlloc, adb);
    frame.header := frame.header.(mode := c.mode, modeExt := c.modeExt);
    frame.info := frame.info.(jsbound := c.jsbound);
  }

  /** The VBR branch of main_bit_allocation_new: the frame starts at the
      lowest bitrate index of the session, the probe at vbrLevel sets the
      bits the frame needs, the header gets the first index whose frame
      holds them, and VBR_bit_allocation_new fills the bits that index
      gives. */
  method VbrAllocation(session: VbrSession, frame: Frame, smr: seq<seq<real>>, scfsi: seq<seq<int>>,
                       bitAlloc: array2<int>, vbrLevel: real, availableBits: Header -> int) returns (adbOut: int)
    requires session.Valid() && session.initialised
    requires frame.info.Valid() && IsRealGrid(smr) && ValidScfsi(frame.info, scfsi)
    requires bitAlloc.Length0 == 2 && bitAlloc.Length1 == SbLimitMax
    modifies frame, bitAlloc
    ensures frame.info == old(frame.info) && frame.actualMode == old(frame.actualMode)
    ensures frame.header == old(frame.header).(bitrateIndex :=
      GuessIndex(session.brBits, session.lower, session.upper,
                 ProbeBits(frame.info, frame.header.errorProtection, smr, scfsi, vbrLevel)))
    ensures session.lower <= frame.header.bitrateIndex <= session.upper
    ensures ValidAllocation(frame.info, Rows(bitAlloc))
    ensures var g := Rows(bitAlloc);
      adbOut == availableBits(frame.header) - (HeaderBits + ErrorBits(frame.header.errorProtection) + VbrBbal(frame.info))
        - (SampleTotal(frame.info, false, g) + SelTotal(frame.info, false, g) + ScaleTotal(frame.info, false, g, scfsi))
    ensures Maximal(frame.info, smr, scfsi, Rows(bitAlloc), adbOut)
    ensures forall c, b :: 0 <= c < frame.info.nch && frame.info.sblimit <= b < SbLimitMax ==> bitAlloc[c, b] == 0
  {
    var ep := frame.header.errorProtection;
    frame.header := frame.header.(bitrateIndex := session.lower);
    adbOut := availableBits(frame.header);
    var req := BitsForNonoise(frame.info, ep, smr, scfsi, vbrLevel, bitAlloc);
    var guessIndex := session.FindBitrate(req);
    frame.header := frame.header.(bitrateIndex := guessIndex);
    adbOut := availableBits(frame.header);
    adbOut := VbrBitAllocation(frame.info, ep, smr, scfsi, bitAlloc, adbOut);
  }

  /** The part of main_bit_allocation_new before any allocation: the
      session is initialised at the first frame, and a joint-stereo frame
      gets its mode, mode extension and jsbound. */
  method PrepareFrame(session: VbrSession, frame: Frame, smr: seq<seq<real>>, scfsi: seq<seq<int>>,
                      bitAlloc: array2<int>, adb: int, bitsAt: int -> int)
    requires session.Valid() && frame.info.Valid() && IsRealGrid(smr) && ValidScfsi(frame.info, scfsi)
    requires !session.initialised ==> frame.header.version == 0 || 0 <= frame.header.samplingFrequency < 3
    requires bitAlloc.Length0 == 2 && bitAlloc.Length1 == SbLimitMax
    modifies session, frame, bitAlloc
    ensures session.Valid() && session.initialised
    ensures old(session.initialised) ==>
      session.lower == old(session.lower) && session.upper == old(session.upper) && session.brBits == old(session.brBits)
    ensures frame.actualMode == old(frame.actualMode)
    ensures old(frame.actualMode) == MdJointStereo ==>
      var c := ChooseStereo(old(frame.info), old(frame.header).errorProtection, smr, scfsi, adb);
      && frame.info == old(frame.info).(jsbound := c.jsbound)
      && frame.header == old(frame.header).(mode := c.mode, modeExt := c.modeExt)
    ensures old(frame.actualMode) != MdJointStereo ==> frame.info == old(frame.info) && frame.header == old(frame.header)
  {
    if !session.initialised {
      session.Initialise(frame.header, frame.actualMode, bitsAt);
    }
    if frame.actualMode == MdJointStereo {
      SelectJointStereo(frame, smr, scfsi, bitAlloc, adb);
    }
  }

  /** main_bit_allocation_new: choose the stereo mode of a joint-stereo
      frame, then allocate with a_bit_allocation_new, or, in VBR, pick the
      bitrate index from the probe at vbrLevel and allocate with
      VBR_bit_allocation_new at the bits that index gives. Returns the
      bits left over. */
  method MainBitAllocation(session: VbrSession, frame: Frame, smr: seq<seq<real>>, scfsi: seq<seq<int>>,
                           bitAlloc: array2<int>, adb: int, vbr: bool, vbrLevel: real,
                           availableBits: Header -> int, bitsAt: int -> int) returns (adbOut: int)
    requires session.Valid() && frame.info.Valid() && IsRealGrid(smr) && ValidScfsi(frame.info, scfsi)
    requires !session.initialised ==> frame.header.version == 0 || 0 <= frame.header.samplingFrequency < 3
    requires bitAlloc.Length0 == 2 && bitAlloc.Length1 == SbLimitMax
    modifies session, frame, bitAlloc
    ensures session.Valid() && session.initialised
    ensures old(session.initialised) ==>
      session.lower == old(session.lower) && session.upper == old(session.upper) && session.brBits == old(session.brBits)
    ensures old(frame.actualMode) == MdJointStereo ==>
      var c := ChooseStereo(old(frame.info), old(frame.header).errorProtection, smr, scfsi, adb);
      frame.info == old(frame.info).(jsbound := c.jsbound) && frame.header.mode == c.mode && frame.header.modeExt == c.modeExt
    ensures old(frame.actualMode) != MdJointStereo ==>
      frame.info == old(frame.info) && frame.header.mode == old(frame.header.mode) && frame.header.modeExt == old(frame.header.modeExt)
    ensures frame.actualMode == old(frame.actualMode)
    ensures frame.header == old(frame.header).(mode := frame.header.mode, modeExt := frame.header.modeExt,
                                               bitrateIndex := frame.header.bitrateIndex)
    ensures frame.info.Valid() && ValidAllocation(frame.info, Rows(bitAlloc))
    ensures Maximal(frame.info, smr, scfsi, Rows(bitAlloc), adbOut)
    ensures forall c, b :: 0 <= c < frame.info.nch && frame.info.sblimit <= b < SbLimitMax ==> bitAlloc[c, b] == 0
    ensures !vbr ==>
      && frame.header.bitrateIndex == old(frame.header.bitrateIndex)
      && Mirrored(frame.info, Rows(bitAlloc))
      && adbOut == adb - FrameTotal(frame.info, ErrorBits(frame.header.errorProtection), Rows(bitAlloc), scfsi)
    ensures vbr ==>
      && frame.header.bitrateIndex
           == GuessIndex(session.brBits, session.lower, session.upper,
                         ProbeBits(frame.info, frame.header.errorProtection, smr, scfsi, vbrLevel))
      && var g := Rows(bitAlloc);
         adbOut == availableBits(frame.header) - (HeaderBits + ErrorBits(frame.header.errorProtection) + VbrBbal(frame.info))
           - (SampleTotal(frame.info, false, g) + SelTotal(frame.info, false, g) + ScaleTotal(frame.info, false, g, scfsi))
  {
    PrepareFrame(session, frame, smr, scfsi, bitAlloc, adb, bitsAt);
    assert ValidScfsi(frame.info, scfsi);
    adbOut := AllocateFrame(session, frame, smr, scfsi, bitAlloc, adb, vbr, vbrLevel, availableBits);
  }

  /** The last step of main_bit_allocation_new: a_bit_allocation_new for a
      fixed bitrate, VBR_bit_allocation_new otherwise. Only the bitrate
      index of the header changes. */
  method AllocateFrame(session: VbrSession, frame: Frame, smr: seq<seq<real>>, scfsi: seq<seq<int>>,
                       bitAlloc: array2<int>, adb: int, vbr: bool, vbrLevel: real,
                       availableBits: Header -> int) returns (adbOut: int)
    requires session.Valid() && session.initialised
    requires frame.info.Valid() && IsRealGrid(smr) && ValidScfsi(frame.info, scfsi)
    requires bitAlloc.Length0 == 2 && bitAlloc.Length1 == SbLimitMax
    modifies frame, bitAlloc
    ensures frame.info == old(frame.info) && frame.actualMode == old(frame.actualMode)
    ensures frame.header == old(frame.header).(bitrateIndex := frame.header.bitrateIndex)
    ensures ValidAllocation(frame.info, Rows(bitAlloc))
    ensures Maximal(frame.info, smr, scfsi, Rows(bitAlloc), adbOut)
    ensures forall c, b :: 0 <= c < frame.info.nch && frame.info.sblimit <= b < SbLimitMax ==> bitAlloc[c, b] == 0
    ensures !vbr ==>
      && frame.header.bitrateIndex == old(frame.header.bitrateIndex)
      && Mirrored(frame.info, Rows(bitAlloc))
      && adbOut == adb - FrameTotal(frame.info, ErrorBits(frame.header.errorProtection), Rows(bitAlloc), scfsi)
    ensures vbr ==>
      && frame.header.bitrateIndex
           == GuessIndex(session.brBits, session.lower, session.upper,
                         ProbeBits(frame.info, frame.header.errorProtection, smr, scfsi, vbrLevel))
      && var g := Rows(bitAlloc);
         adbOut == availableBits(frame.header) - (HeaderBits + ErrorBits(frame.header.errorProtection) + VbrBbal(frame.info))
           - (SampleTotal(frame.info, false, g) + SelTotal(frame.info, false, g) + ScaleTotal(frame.info, false, g, scfsi))
  {
    if !vbr {
      adbOut := ABitAllocation(frame.info, frame.header.errorProtection, smr, scfsi, bitAlloc, adb);
    } else {
      adbOut := VbrAllocation(session, frame, smr, scfsi, bitAlloc, vbrLevel, availableBits);
    }
  }
}
