/** a_bit_allocation_new and VBR_bit_allocation_new as the C code runs
    them: bit_alloc is an array updated in place, mnr, used and the three
    bit counters are locals of the do-while loop. Each pass is proved to be
    the step Raise of GreedyAllocation, so the loop keeps its invariant. */
module BitAllocation {
  import opened Tables
  import opened StepOrder
  import opened Common
  import opened FrameBits
  import opened AllocationBits
  import opened Probe
  import opened MinimumMnr
  import opened GreedyAllocation

  /** Entry (ch, sb) is one the allocator works on. */
  predicate InFrame(f: FrameInfo, ch: int, sb: int)
  {
    0 <= ch < f.nch && 0 <= sb < f.sblimit
  }

  /** No entry could be raised any further: it is at the top of its line,
      its next step costs more than the bits left, or its MNR is at the
      ceiling maxmnr_new never picks. */
  ghost predicate Maximal(f: FrameInfo, smr: seq<seq<real>>, scfsi: seq<seq<int>>, g: seq<seq<int>>, left: int)
    requires f.Valid() && IsRealGrid(smr) && ValidScfsi(f, scfsi) && ValidAllocation(f, g)
  {
    forall ch, sb :: InFrame(f, ch, sb) ==>
      var l, ba := LineOf(f, sb), g[ch][sb];
      ba == MaxAlloc(l) || left < StepCost(f, scfsi, ch, sb, ba) || Snr(StepIndex(l, ba)) - smr[ch][sb] >= MnrCeiling
  }

  /** What the greedy loop leaves behind: a valid allocation, mirrored
      above jsbound when it mirrors, whose charge is the committed bits,
      within the bits available, and that nothing more can be added to. */
  ghost predicate Allocated(f: FrameInfo, mirror: bool, smr: seq<seq<real>>, scfsi: seq<seq<int>>, ad: int,
                      g: seq<seq<int>>, committed: int)
    requires f.Valid() && IsRealGrid(smr) && ValidScfsi(f, scfsi)
  {
    && ValidAllocation(f, g)
    && (mirror ==> Mirrored(f, g))
    && committed == Charged(f, mirror, scfsi, g)
    && (committed == 0 || committed <= ad)
    && Maximal(f, smr, scfsi, g, ad - committed)
  }

  /** The state after the initialisation loop satisfies the loop
      invariant: nothing allocated, nothing committed, every entry open at
      the MNR of allocation 0. */
  lemma InitialInvariant(f: FrameInfo, mirror: bool, smr: seq<seq<real>>, scfsi: seq<seq<int>>, ad: int, s: AllocState)
    requires f.Valid() && IsRealGrid(smr) && ValidScfsi(f, scfsi) && s.Shaped()
    requires s.bspl == 0 && s.bscf == 0 && s.bsel == 0
    requires forall ch, sb :: InFrame(f, ch, sb) ==>
      s.g[ch][sb] == 0 && s.used[ch][sb] == Untouched && s.mnr[ch][sb] == Snr(0) - smr[ch][sb]
    ensures Invariant(f, mirror, smr, scfsi, ad, s)
  {
    forall ch, sb | InFrame(f, ch, sb)
      ensures EntryInvariant(f, smr, scfsi, s, ad, ch, sb)
    {
      NextAllocation(LineOf(f, sb), 0);
      assert EntryRange(f, s, ch, sb);
      assert EntryMnr(f, smr, s, ch, sb);
    }
    assert s.Committed() == 0;
    var term := ChargeTerm(f, mirror, scfsi, s.g);
    forall sb: nat | sb < f.sblimit
      ensures term(sb) == 0
    {
      assert InFrame(f, 0, sb);
      assert f.nch == 2 ==> InFrame(f, 1, sb);
    }
    SumToTail(f.sblimit, 0, term);
    assert Charged(f, mirror, scfsi, s.g) == 0;
  }

  /** When maxmnr_new finds nothing, the invariant gives the result. */
  lemma Finished(f: FrameInfo, mirror: bool, smr: seq<seq<real>>, scfsi: seq<seq<int>>, ad: int, s: AllocState)
    requires f.Valid() && IsRealGrid(smr) && ValidScfsi(f, scfsi) && Invariant(f, mirror, smr, scfsi, ad, s)
    requires NoneOpen(s.mnr, s.used, f.nch, f.sblimit)
    ensures Allocated(f, mirror, smr, scfsi, ad, s.g, s.Committed())
  {
    InvariantAllocation(f, mirror, smr, scfsi, ad, s);
    forall ch, sb | InFrame(f, ch, sb)
      ensures var l, ba := LineOf(f, sb), s.g[ch][sb];
        ba == MaxAlloc(l) || ad - s.Committed() < StepCost(f, scfsi, ch, sb, ba)
          || Snr(StepIndex(l, ba)) - smr[ch][sb] >= MnrCeiling
    {
      assert EntryInvariant(f, smr, scfsi, s, ad, ch, sb);
    }
  }

  /** The loop invariant keeps the allocation valid. */
  lemma InvariantAllocation(f: FrameInfo, mirror: bool, smr: seq<seq<real>>, scfsi: seq<seq<int>>, ad: int, s: AllocState)
    requires f.Valid() && IsRealGrid(smr) && ValidScfsi(f, scfsi) && Invariant(f, mirror, smr, scfsi, ad, s)
    ensures ValidAllocation(f, s.g)
  {
    forall ch, sb {:trigger s.g[ch][sb]} | 0 <= ch < f.nch && 0 <= sb < f.sblimit
      ensures 0 <= s.g[ch][sb] <= MaxAlloc(LineOf(f, sb))
    {
      assert EntryInvariant(f, smr, scfsi, s, ad, ch, sb);
    }
  }

  /** Allocated speaks only of the entries the allocator works on. */
  lemma AllocatedInFrame(f: FrameInfo, mirror: bool, smr: seq<seq<real>>, scfsi: seq<seq<int>>, ad: int,
                         g: seq<seq<int>>, h: seq<seq<int>>, committed: int)
    requires f.Valid() && IsRealGrid(smr) && ValidScfsi(f, scfsi)
    requires Allocated(f, mirror, smr, scfsi, ad, g, committed) && IsGrid(h, 2, SbLimitMax)
    requires forall ch, sb :: InFrame(f, ch, sb) ==> g[ch][sb] == h[ch][sb]
    ensures Allocated(f, mirror, smr, scfsi, ad, h, committed)
  {
    assert forall ch, sb :: InFrame(f, ch, sb) ==> h[ch][sb] == g[ch][sb];
    ChargedInFrame(f, mirror, scfsi, g, h);
  }

  /** The charge of a grid depends on the entries the allocator works on
      alone. */
  lemma ChargedInFrame(f: FrameInfo, mirror: bool, scfsi: seq<seq<int>>, g: seq<seq<int>>, h: seq<seq<int>>)
    requires f.Valid() && ValidScfsi(f, scfsi) && IsGrid(g, 2, SbLimitMax) && IsGrid(h, 2, SbLimitMax)
    requires forall ch, sb :: InFrame(f, ch, sb) ==> g[ch][sb] == h[ch][sb]
    ensures Charged(f, mirror, scfsi, g) == Charged(f, mirror, scfsi, h)
  {
    var a, b := ChargeTerm(f, mirror, scfsi, g), ChargeTerm(f, mirror, scfsi, h);
    forall sb: nat | sb < f.sblimit
      ensures a(sb) == b(sb)
    {
      assert InFrame(f, 0, sb);
      assert f.nch == 2 ==> InFrame(f, 1, sb);
    }
    SumToCongruent(f.sblimit, a, b);
  }

  /** One pass of the do-while body on bit_alloc and the loop's locals,
      for the entry (ch, sb) maxmnr_new picked: raise or close it, then,
      in a joint subband of a mirroring allocator, copy it to the other
      channel. */
  method RaiseEntry(f: FrameInfo, mirror: bool, smr: seq<seq<real>>, scfsi: seq<seq<int>>, ad: int,
                    bitAlloc: array2<int>, mnr0: seq<seq<real>>, used0: seq<seq<int>>,
                    bspl0: int, bscf0: int, bsel0: int, ch: int, sb: int)
    returns (mnr: seq<seq<real>>, used: seq<seq<int>>, bspl: int, bscf: int, bsel: int)
    requires f.Valid() && IsRealGrid(smr) && ValidScfsi(f, scfsi)
    requires bitAlloc.Length0 == 2 && bitAlloc.Length1 == SbLimitMax
    requires AllocState(Rows(bitAlloc), mnr0, used0, bspl0, bscf0, bsel0).Shaped()
    requires InFrame(f, ch, sb) && 0 <= bitAlloc[ch, sb] < MaxAlloc(LineOf(f, sb))
    modifies bitAlloc
    ensures AllocState(Rows(bitAlloc), mnr, used, bspl, bscf, bsel)
      == Raise(f, mirror, smr, scfsi, ad, AllocState(old(Rows(bitAlloc)), mnr0, used0, bspl0, bscf0, bsel0), ch, sb)
    ensures forall c, b :: 0 <= c < 2 && 0 <= b < SbLimitMax && !InFrame(f, c, b) ==> bitAlloc[c, b] == old(bitAlloc[c, b])
  {
    ghost var g := Rows(bitAlloc);
    var ba;
    ba, mnr, used, bspl, bscf, bsel := PassEntry(f, smr, scfsi, ad, g, bitAlloc[ch, sb], mnr0, used0, bspl0, bscf0, bsel0, ch, sb);
    bitAlloc[ch, sb] := ba;
    GridExtensional(Rows(bitAlloc), Set2(g, ch, sb, ba), 2, SbLimitMax);
    if sb >= f.jsbound && f.nch == 2 && mirror {
      mnr, used := MirrorEntry(f, smr, bitAlloc, mnr, used, bspl, bscf, bsel, ch, sb);
    }
  }

  /** The picked entry at allocation ba0: the bits its next step costs
      (sample bits, and the select codes and scalefactors of an untouched
      entry), and either the step or closing the entry. Returns the
      entry's new allocation, which the caller stores in bit_alloc. */
  method PassEntry(f: FrameInfo, smr: seq<seq<real>>, scfsi: seq<seq<int>>, ad: int, ghost g: seq<seq<int>>,
                   ba0: int, mnr0: seq<seq<real>>, used0: seq<seq<int>>,
                   bspl0: int, bscf0: int, bsel0: int, ch: int, sb: int)
    returns (ba: int, mnr: seq<seq<real>>, used: seq<seq<int>>, bspl: int, bscf: int, bsel: int)
    requires f.Valid() && IsRealGrid(smr) && ValidScfsi(f, scfsi)
    requires AllocState(g, mnr0, used0, bspl0, bscf0, bsel0).Shaped()
    requires InFrame(f, ch, sb) && g[ch][sb] == ba0 && 0 <= ba0 < MaxAlloc(LineOf(f, sb))
    ensures AllocState(Set2(g, ch, sb, ba), mnr, used, bspl, bscf, bsel)
      == Pass(f, smr, scfsi, ad, AllocState(g, mnr0, used0, bspl0, bscf0, bsel0), ch, sb)
  {
    ghost var s := AllocState(g, mnr0, used0, bspl0, bscf0, bsel0);
    var l := LineOf(f, sb);
    ba := ba0;
    NextAllocation(l, ba);
    var increment, scale, seli := CountStep(f, scfsi, ch, sb, ba, used0[ch][sb]);
    mnr, used, bspl, bscf, bsel := mnr0, used0, bspl0, bscf0, bsel0;
    if ad >= bspl + bscf + bsel + seli + scale + increment {
      ghost var u' := if ba + 1 >= MaxAlloc(l) then Closed else HasBits;
      PassRaises(f, smr, scfsi, ad, s, ch, sb);
      ba := ba + 1;
      bspl, bscf, bsel := bspl + increment, bscf + scale, bsel + seli;
      used := Set2(used, ch, sb, HasBits);
      mnr := Set2(mnr, ch, sb, Snr(StepIndex(l, ba)) - smr[ch][sb]);
      if ba >= MaxAlloc(l) {
        used := Set2(used, ch, sb, Closed);
      }
      GridExtensional(used, Set2(used0, ch, sb, u'), 2, SbLimitMax);
    } else {
      PassCloses(f, smr, scfsi, ad, s, ch, sb);
      used := Set2(used, ch, sb, Closed);
      GridExtensional(Set2(g, ch, sb, ba), g, 2, SbLimitMax);
    }
  }

  /** The pass of an entry whose next step fits. */
  lemma PassRaises(f: FrameInfo, smr: seq<seq<real>>, scfsi: seq<seq<int>>, ad: int, s: AllocState, ch: int, sb: int)
    requires f.Valid() && IsRealGrid(smr) && ValidScfsi(f, scfsi) && s.Shaped()
    requires InFrame(f, ch, sb) && 0 <= s.g[ch][sb] < MaxAlloc(LineOf(f, sb))
    requires var c := NextStepBits(f, scfsi, ch, sb, s.g[ch][sb], s.used[ch][sb]);
      ad >= s.bspl + s.bscf + s.bsel + c.seli + c.scale + c.increment
    ensures var l, ba := LineOf(f, sb), s.g[ch][sb];
      var c := NextStepBits(f, scfsi, ch, sb, ba, s.used[ch][sb]);
      Pass(f, smr, scfsi, ad, s, ch, sb)
        == AllocState(Set2(s.g, ch, sb, ba + 1),
                      Set2(s.mnr, ch, sb, Snr(StepIndex(l, ba + 1)) - smr[ch][sb]),
                      Set2(s.used, ch, sb, if ba + 1 >= MaxAlloc(l) then Closed else HasBits),
                      s.bspl + c.increment, s.bscf + c.scale, s.bsel + c.seli)
  {
  }

  /** The pass of an entry whose next step does not fit. */
  lemma PassCloses(f: FrameInfo, smr: seq<seq<real>>, scfsi: seq<seq<int>>, ad: int, s: AllocState, ch: int, sb: int)
    requires f.Valid() && IsRealGrid(smr) && ValidScfsi(f, scfsi) && s.Shaped()
    requires InFrame(f, ch, sb) && 0 <= s.g[ch][sb] < MaxAlloc(LineOf(f, sb))
    requires var c := NextStepBits(f, scfsi, ch, sb, s.g[ch][sb], s.used[ch][sb]);
      ad < s.bspl + s.bscf + s.bsel + c.seli + c.scale + c.increment
    ensures Pass(f, smr, scfsi, ad, s, ch, sb) == s.(used := Set2(s.used, ch, sb, Closed))
  {
  }

  /** The bits the next step of (ch, sb) costs, added up as the C code
      does: the growth of its sample bits, and for an untouched entry its
      select code and scalefactors, the other channel's too in a joint
      subband. */
  method CountStep(f: FrameInfo, scfsi: seq<seq<int>>, ch: int, sb: int, ba: int, u: int)
    returns (increment: int, scale: int, seli: int)
    requires f.Valid() && ValidScfsi(f, scfsi) && InFrame(f, ch, sb) && 0 <= ba < MaxAlloc(LineOf(f, sb))
    ensures StepBits(increment, scale, seli) == NextStepBits(f, scfsi, ch, sb, ba, u)
  {
    var l := LineOf(f, sb);
    NextAllocation(l, ba);
    increment := SampleBits(l, ba + 1);
    if u != Untouched {
      increment := increment - SampleBits(l, ba);
    }
    scale, seli := 0, 0;
    if u == Untouched {
      seli := SelBits;
      scale := SfBits * SfsPerScfsi(scfsi[ch][sb]);
      if f.nch == 2 && sb >= f.jsbound {
        seli := seli + SelBits;
        scale := scale + SfBits * SfsPerScfsi(scfsi[1 - ch][sb]);
      }
    }
  }

  /** Above jsbound the other channel takes the picked entry's allocation,
      used state and the MNR of that allocation. */
  method MirrorEntry(f: FrameInfo, smr: seq<seq<real>>, bitAlloc: array2<int>, mnr0: seq<seq<real>>, used0: seq<seq<int>>,
                     bspl: int, bscf: int, bsel: int, ch: int, sb: int)
    returns (mnr: seq<seq<real>>, used: seq<seq<int>>)
    requires f.Valid() && IsRealGrid(smr)
    requires bitAlloc.Length0 == 2 && bitAlloc.Length1 == SbLimitMax
    requires AllocState(Rows(bitAlloc), mnr0, used0, bspl, bscf, bsel).Shaped()
    requires InFrame(f, ch, sb) && Joint(f, sb) && 0 <= bitAlloc[ch, sb] <= MaxAlloc(LineOf(f, sb))
    modifies bitAlloc
    ensures AllocState(Rows(bitAlloc), mnr, used, bspl, bscf, bsel)
      == Mirror(f, smr, AllocState(old(Rows(bitAlloc)), mnr0, used0, bspl, bscf, bsel), ch, sb)
    ensures forall c, b :: 0 <= c < 2 && 0 <= b < SbLimitMax && b != sb ==> bitAlloc[c, b] == old(bitAlloc[c, b])
  {
    ghost var t := AllocState(Rows(bitAlloc), mnr0, used0, bspl, bscf, bsel);
    var l := LineOf(f, sb);
    var oth := 1 - ch;
    var ba := bitAlloc[ch, sb];
    bitAlloc[oth, sb] := ba;
    used := Set2(used0, oth, sb, used0[ch][sb]);
    mnr := Set2(mnr0, oth, sb, Snr(StepIndex(l, ba)) - smr[oth][sb]);
    ghost var mirrored := Set2(t.g, oth, sb, ba);
    forall c, b | 0 <= c < 2 && 0 <= b < SbLimitMax
      ensures Rows(bitAlloc)[c][b] == mirrored[c][b]
    {
    }
    GridExtensional(Rows(bitAlloc), mirrored, 2, SbLimitMax);
  }

  /** The initialisation loop: every entry the allocator works on starts
      with allocation 0, untouched, at the MNR of allocation 0. */
  method InitAllocation(f: FrameInfo, smr: seq<seq<real>>, bitAlloc: array2<int>)
    returns (mnr: seq<seq<real>>, used: seq<seq<int>>)
    requires f.Valid() && IsRealGrid(smr)
    requires bitAlloc.Length0 == 2 && bitAlloc.Length1 == SbLimitMax
    modifies bitAlloc
    ensures MinimumMnr.Shaped(mnr, used) && IsGrid(used, 2, SbLimitMax)
    ensures forall c, b :: 0 <= c < 2 && 0 <= b < SbLimitMax ==>
      bitAlloc[c, b] == if InFrame(f, c, b) then 0 else old(bitAlloc[c, b])
    ensures forall c, b :: InFrame(f, c, b) ==> used[c][b] == Untouched && mnr[c][b] == Snr(0) - smr[c][b]
  {
    mnr := seq(2, _ => seq(SbLimitMax, _ => 0.0));
    used := seq(2, _ => seq(SbLimitMax, _ => 0));
    var sb := 0;
    while sb < f.sblimit
      invariant 0 <= sb <= f.sblimit
      invariant MinimumMnr.Shaped(mnr, used) && IsGrid(used, 2, SbLimitMax)
      invariant forall c, b :: 0 <= c < 2 && 0 <= b < SbLimitMax ==>
        bitAlloc[c, b] == if c < f.nch && b < sb then 0 else old(bitAlloc[c, b])
      invariant forall c, b :: 0 <= c < f.nch && 0 <= b < sb ==> used[c][b] == Untouched && mnr[c][b] == Snr(0) - smr[c][b]
    {
      var ch := 0;
      while ch < f.nch
        invariant 0 <= ch <= f.nch
        invariant MinimumMnr.Shaped(mnr, used) && IsGrid(used, 2, SbLimitMax)
        invariant forall c, b :: 0 <= c < 2 && 0 <= b < SbLimitMax ==>
          bitAlloc[c, b] == if c < f.nch && (b < sb || (b == sb && c < ch)) then 0 else old(bitAlloc[c, b])
        invariant forall c, b :: 0 <= c < f.nch && (0 <= b < sb || (b == sb && c < ch)) ==>
          used[c][b] == Untouched && mnr[c][b] == Snr(0) - smr[c][b]
      {
        mnr := Set2(mnr, ch, sb, Snr(0) - smr[ch][sb]);
        bitAlloc[ch, sb] := 0;
        used := Set2(used, ch, sb, Untouched);
        ch := ch + 1;
      }
      sb := sb + 1;
    }
  }

  /** The closing loop: allocations above sblimit are zero. */
  method ZeroAbove(f: FrameInfo, bitAlloc: array2<int>)
    requires f.Valid() && bitAlloc.Length0 == 2 && bitAlloc.Length1 == SbLimitMax
    modifies bitAlloc
    ensures forall c, b :: 0 <= c < 2 && 0 <= b < SbLimitMax ==>
      bitAlloc[c, b] == if c < f.nch && b >= f.sblimit then 0 else old(bitAlloc[c, b])
  {
    var ch := 0;
    while ch < f.nch
      invariant 0 <= ch <= f.nch
      invariant forall c, b :: 0 <= c < 2 && 0 <= b < SbLimitMax ==>
        bitAlloc[c, b] == if c < ch && b >= f.sblimit then 0 else old(bitAlloc[c, b])
    {
      var sb := f.sblimit;
      while sb < SbLimitMax
        invariant f.sblimit <= sb <= SbLimitMax
        invariant forall c, b :: 0 <= c < 2 && 0 <= b < SbLimitMax ==>
          bitAlloc[c, b] == if (c < ch || (c == ch && b < sb)) && b >= f.sblimit then 0 else old(bitAlloc[c, b])
      {
        bitAlloc[ch, sb] := 0;
        sb := sb + 1;
      }
      ch := ch + 1;
    }
  }

  /** The body shared by both allocators after the bits of header, CRC and
      allocation fields are taken off: initialise, raise the entry
      maxmnr_new picks until it picks none, zero the allocations above
      sblimit. Returns bspl + bscf + bsel. */
  method Allocate(f: FrameInfo, mirror: bool, smr: seq<seq<real>>, scfsi: seq<seq<int>>, ad: int,
                  bitAlloc: array2<int>) returns (committed: int)
    requires f.Valid() && IsRealGrid(smr) && ValidScfsi(f, scfsi)
    requires bitAlloc.Length0 == 2 && bitAlloc.Length1 == SbLimitMax
    modifies bitAlloc
    ensures Allocated(f, mirror, smr, scfsi, ad, Rows(bitAlloc), committed)
    ensures forall c, b :: 0 <= c < 2 && 0 <= b < SbLimitMax && !InFrame(f, c, b) ==>
      bitAlloc[c, b] == if c < f.nch then 0 else old(bitAlloc[c, b])
  {
    var mnr, used := InitAllocation(f, smr, bitAlloc);
    var bspl, bscf, bsel := 0, 0, 0;
    InitialInvariant(f, mirror, smr, scfsi, ad, AllocState(Rows(bitAlloc), mnr, used, bspl, bscf, bsel));
    while true
      invariant Invariant(f, mirror, smr, scfsi, ad, AllocState(Rows(bitAlloc), mnr, used, bspl, bscf, bsel))
      invariant forall c, b :: 0 <= c < 2 && 0 <= b < SbLimitMax && !InFrame(f, c, b) ==>
        bitAlloc[c, b] == old(bitAlloc[c, b])
      decreases Moves(f, AllocState(Rows(bitAlloc), mnr, used, bspl, bscf, bsel))
    {
      ghost var s := AllocState(Rows(bitAlloc), mnr, used, bspl, bscf, bsel);
      var minSb, minCh := MaxMnr(mnr, used, f.sblimit, f.nch);
      if minSb == -1 {
        Finished(f, mirror, smr, scfsi, ad, s);
        break;
      }
      RaiseKeepsInvariant(f, mirror, smr, scfsi, ad, s, minCh, minSb);
      mnr, used, bspl, bscf, bsel := RaiseEntry(f, mirror, smr, scfsi, ad, bitAlloc, mnr, used, bspl, bscf, bsel, minCh, minSb);
    }
    committed := bspl + bscf + bsel;
    ghost var g := Rows(bitAlloc);
    ZeroAbove(f, bitAlloc);
    AllocatedInFrame(f, mirror, smr, scfsi, ad, g, Rows(bitAlloc), committed);
  }

  /** bbal of VBR_bit_allocation_new: nch allocation fields in every
      subband below sblimit, jsbound playing no part. */
  function VbrBbal(f: FrameInfo): int
    requires f.Valid()
  {
    Bbal(f.(jsbound := SbLimitMax))
  }

  /** Without joint subbands the two counts agree. */
  lemma VbrBbalUnjoined(f: FrameInfo)
    requires f.Valid() && (f.nch == 1 || f.jsbound >= f.sblimit)
    ensures VbrBbal(f) == Bbal(f)
  {
    SumToCongruent(f.sblimit, BbalTerm(f.(jsbound := SbLimitMax)), BbalTerm(f));
  }

  /** With joint subbands VBR counts one field more per joint subband. */
  lemma VbrBbalJoined(f: FrameInfo)
    requires f.Valid() && f.nch == 2 && f.jsbound < f.sblimit
    ensures VbrBbal(f) > Bbal(f)
  {
    var a, b := BbalTerm(f.(jsbound := SbLimitMax)), BbalTerm(f);
    forall sb: nat | sb < f.sblimit
      ensures b(sb) <= a(sb)
    {
    }
    SumToStrictlyAbove(f.sblimit, b, a, f.jsbound);
  }

  /** The bbal loop of VBR_bit_allocation_new. */
  method CountVbrBbal(f: FrameInfo) returns (bbal: int)
    requires f.Valid()
    ensures bbal == VbrBbal(f)
  {
    ghost var term := BbalTerm(f.(jsbound := SbLimitMax));
    bbal := 0;
    var sb := 0;
    while sb < f.sblimit
      invariant 0 <= sb <= f.sblimit
      invariant bbal == SumTo(sb, term)
    {
      bbal := bbal + f.nch * NbalOf(f, sb);
      sb := sb + 1;
    }
  }

  /** a_bit_allocation_new: takes the header, the CRC and the allocation
      fields off adb, allocates greedily with the allocations of joint
      subbands mirrored, and returns the bits left over. */
  method ABitAllocation(f: FrameInfo, errorProtection: bool, smr: seq<seq<real>>, scfsi: seq<seq<int>>,
                        bitAlloc: array2<int>, adb: int) returns (adbOut: int)
    requires f.Valid() && IsRealGrid(smr) && ValidScfsi(f, scfsi)
    requires bitAlloc.Length0 == 2 && bitAlloc.Length1 == SbLimitMax
    modifies bitAlloc
    ensures ValidAllocation(f, Rows(bitAlloc)) && Mirrored(f, Rows(bitAlloc))
    ensures adbOut == adb - FrameTotal(f, ErrorBits(errorProtection), Rows(bitAlloc), scfsi)
    ensures adbOut >= 0 || adbOut == adb - (HeaderBits + ErrorBits(errorProtection) + Bbal(f))
    ensures Maximal(f, smr, scfsi, Rows(bitAlloc), adbOut)
    ensures forall c, b :: 0 <= c < 2 && 0 <= b < SbLimitMax && !InFrame(f, c, b) ==>
      bitAlloc[c, b] == if c < f.nch then 0 else old(bitAlloc[c, b])
  {
    var berr := if errorProtection then CrcBits else 0;
    var bbal := CountBbal(f);
    var ad := adb - (bbal + berr + HeaderBits);
    var committed := Allocate(f, true, smr, scfsi, ad, bitAlloc);
    adbOut := ad - committed;
    ChargedIsTotals(f, true, scfsi, Rows(bitAlloc));
  }

  /** VBR_bit_allocation_new: as a_bit_allocation_new with nch allocation
      fields in every subband and no mirroring. */
  method VbrBitAllocation(f: FrameInfo, errorProtection: bool, smr: seq<seq<real>>, scfsi: seq<seq<int>>,
                          bitAlloc: array2<int>, adb: int) returns (adbOut: int)
    requires f.Valid() && IsRealGrid(smr) && ValidScfsi(f, scfsi)
    requires bitAlloc.Length0 == 2 && bitAlloc.Length1 == SbLimitMax
    modifies bitAlloc
    ensures ValidAllocation(f, Rows(bitAlloc))
    ensures var g := Rows(bitAlloc);
      adbOut == adb - (HeaderBits + ErrorBits(errorProtection) + VbrBbal(f))
        - (SampleTotal(f, false, g) + SelTotal(f, false, g) + ScaleTotal(f, false, g, scfsi))
    ensures adbOut >= 0 || adbOut == adb - (HeaderBits + ErrorBits(errorProtection) + VbrBbal(f))
    ensures Maximal(f, smr, scfsi, Rows(bitAlloc), adbOut)
    ensures forall c, b :: 0 <= c < 2 && 0 <= b < SbLimitMax && !InFrame(f, c, b) ==>
      bitAlloc[c, b] == if c < f.nch then 0 else old(bitAlloc[c, b])
  {
    var berr := if errorProtection then CrcBits else 0;
    var bbal := CountVbrBbal(f);
    var ad := adb - (bbal + berr + HeaderBits);
    var committed := Allocate(f, false, smr, scfsi, ad, bitAlloc);
    adbOut := ad - committed;
    ChargedIsTotals(f, false, scfsi, Rows(bitAlloc));
  }
}
