/** The greedy allocators a_bit_allocation_new (CBR, allocations mirrored
    above jsbound) and VBR_bit_allocation_new (no mirroring): raise the
    open entry with the smallest MNR one allocation index at a time while
    the frame's bits allow it. */
module GreedyAllocation {
  import opened Tables
  import opened StepOrder
  import opened Common
  import opened FrameBits
  import opened AllocationBits
  import opened Probe
  import opened MinimumMnr

  /** used[ch][sb]: no bits yet, has bits (and may get more). Closed is
      the third state. */
  const Untouched := 0
  const HasBits := 1

  /** s with entry (i, j) replaced by v. */
  function Set2<T>(s: seq<seq<T>>, i: int, j: int, v: T): (r: seq<seq<T>>)
    requires 0 <= i < |s| && 0 <= j < |s[i]|
    ensures |r| == |s| && forall k :: 0 <= k < |s| ==> |r[k]| == |s[k]|
    ensures forall k, m :: 0 <= k < |s| && 0 <= m < |s[k]| ==> r[k][m] == if k == i && m == j then v else s[k][m]
  {
    s[i := s[i][j := v]]
  }

  /** The state of the do-while loop: bit_alloc, mnr and used, and the bits
      committed to samples (bspl), scalefactors (bscf) and select codes
      (bsel). */
  datatype AllocState = AllocState(g: seq<seq<int>>, mnr: seq<seq<real>>, used: seq<seq<int>>,
                                   bspl: int, bscf: int, bsel: int)
  {
    predicate Shaped()
    {
      IsGrid(g, 2, SbLimitMax) && MinimumMnr.Shaped(mnr, used) && IsGrid(used, 2, SbLimitMax)
    }

    function Committed(): int
    {
      bspl + bscf + bsel
    }
  }

  /** The bits raising entry (ch, sb) from allocation ba to ba + 1 costs:
      the extra sample bits, and the select code(s) and scalefactors when
      the entry had no bits. */
  function StepCost(f: FrameInfo, scfsi: seq<seq<int>>, ch: int, sb: int, ba: int): int
    requires f.Valid() && ValidScfsi(f, scfsi) && 0 <= ch < f.nch && 0 <= sb < f.sblimit
    requires 0 <= ba < MaxAlloc(LineOf(f, sb))
  {
    SampleBits(LineOf(f, sb), ba + 1) - SampleBits(LineOf(f, sb), ba)
      + if ba == 0 then SelCharge(f, sb) + ScaleCharge(f, scfsi, ch, sb) else 0
  }

  /** Each step costs bits, and the charges of an entry are the sum of the
      steps that led to it. */
  lemma StepCostCharges(f: FrameInfo, scfsi: seq<seq<int>>, ch: int, sb: int, ba: int)
    requires f.Valid() && ValidScfsi(f, scfsi) && 0 <= ch < f.nch && 0 <= sb < f.sblimit
    requires 0 <= ba < MaxAlloc(LineOf(f, sb))
    ensures StepCost(f, scfsi, ch, sb, ba) > 0
    ensures EntryCharge(f, scfsi, ch, sb, ba + 1) == EntryCharge(f, scfsi, ch, sb, ba) + StepCost(f, scfsi, ch, sb, ba)
  {
    NextAllocation(LineOf(f, sb), ba);
  }

  /** In a joint subband both channels' steps cost the same: the select
      codes and scalefactors of both channels are charged either way. */
  lemma JointStepCost(f: FrameInfo, scfsi: seq<seq<int>>, sb: int, ba: int)
    requires f.Valid() && ValidScfsi(f, scfsi) && 0 <= sb < f.sblimit && Joint(f, sb)
    requires 0 <= ba < MaxAlloc(LineOf(f, sb))
    ensures StepCost(f, scfsi, 0, sb, ba) == StepCost(f, scfsi, 1, sb, ba)
    ensures EntryCharge(f, scfsi, 0, sb, ba) == EntryCharge(f, scfsi, 1, sb, ba)
  {
  }

  /** The charge of entry (ch, sb) of grid g, 0 for a value off its line. */
  function GridCharge(f: FrameInfo, scfsi: seq<seq<int>>, g: seq<seq<int>>, ch: int, sb: int): int
    requires f.Valid() && ValidScfsi(f, scfsi) && IsGrid(g, 2, SbLimitMax)
    requires 0 <= ch < f.nch && 0 <= sb < f.sblimit
  {
    if 0 <= g[ch][sb] <= MaxAlloc(LineOf(f, sb)) then EntryCharge(f, scfsi, ch, sb, g[ch][sb]) else 0
  }

  function ChargeTerm(f: FrameInfo, mirror: bool, scfsi: seq<seq<int>>, g: seq<seq<int>>): nat -> int
    requires f.Valid() && ValidScfsi(f, scfsi) && IsGrid(g, 2, SbLimitMax)
  {
    (sb: nat) => if sb < f.sblimit then
      GridCharge(f, scfsi, g, 0, sb) + (if Span(f, mirror, sb) == 2 then GridCharge(f, scfsi, g, 1, sb) else 0)
    else 0
  }

  /** The bits an allocator has charged for grid g: every counted entry,
      the joint subbands once when it mirrors them. */
  function Charged(f: FrameInfo, mirror: bool, scfsi: seq<seq<int>>, g: seq<seq<int>>): int
    requires f.Valid() && ValidScfsi(f, scfsi) && IsGrid(g, 2, SbLimitMax)
  {
    SumTo(f.sblimit, ChargeTerm(f, mirror, scfsi, g))
  }

  /** What the allocator charges is what the frame's samples, select codes
      and scalefactors take. */
  lemma ChargedIsTotals(f: FrameInfo, mirror: bool, scfsi: seq<seq<int>>, g: seq<seq<int>>)
    requires f.Valid() && ValidScfsi(f, scfsi) && ValidAllocation(f, g)
    ensures Charged(f, mirror, scfsi, g) == SampleTotal(f, mirror, g) + SelTotal(f, mirror, g) + ScaleTotal(f, mirror, g, scfsi)
  {
    var a, b, c := SampleTerm(f, mirror, g), SelTerm(f, mirror, g), ScaleTerm(f, mirror, g, scfsi);
    var ab: nat -> int := (sb: nat) => a(sb) + b(sb);
    var charged := ChargeTerm(f, mirror, scfsi, g);
    forall sb: nat | sb < f.sblimit
      ensures charged(sb) == ab(sb) + c(sb)
    {
      assert 0 <= g[0][sb] <= MaxAlloc(LineOf(f, sb));
      assert Span(f, mirror, sb) == 2 ==> 0 <= g[1][sb] <= MaxAlloc(LineOf(f, sb));
    }
    SumToAdd(f.sblimit, a, b, ab);
    SumToAdd(f.sblimit, ab, c, charged);
  }

  /** Entry (ch, sb) holds an allocation index of its line; an untouched
      entry has none and an entry with bits is below the top. */
  predicate EntryRange(f: FrameInfo, s: AllocState, ch: int, sb: int)
    requires f.Valid() && s.Shaped() && 0 <= ch < 2 && 0 <= sb < f.sblimit
  {
    var l, ba, u := LineOf(f, sb), s.g[ch][sb], s.used[ch][sb];
    && 0 <= ba <= MaxAlloc(l) && 0 <= u <= Closed
    && (u == Untouched ==> ba == 0)
    && (u == HasBits ==> 0 < ba < MaxAlloc(l))
  }

  /** mnr of entry (ch, sb) is the SNR of its allocation less its SMR. */
  predicate EntryMnr(f: FrameInfo, smr: seq<seq<real>>, s: AllocState, ch: int, sb: int)
    requires f.Valid() && IsRealGrid(smr) && s.Shaped() && 0 <= ch < 2 && 0 <= sb < f.sblimit
    requires EntryRange(f, s, ch, sb)
  {
    s.mnr[ch][sb] == Snr(StepIndex(LineOf(f, sb), s.g[ch][sb])) - smr[ch][sb]
  }

  /** A closed entry (ch, sb) is at the top of its line or its next step
      does not fit the bits left of ad. */
  predicate EntryBlocked(f: FrameInfo, scfsi: seq<seq<int>>, s: AllocState, ad: int, ch: int, sb: int)
    requires f.Valid() && ValidScfsi(f, scfsi) && s.Shaped() && 0 <= ch < f.nch && 0 <= sb < f.sblimit
    requires EntryRange(f, s, ch, sb)
  {
    var ba := s.g[ch][sb];
    s.used[ch][sb] == Closed ==> ba == MaxAlloc(LineOf(f, sb)) || ad - s.Committed() < StepCost(f, scfsi, ch, sb, ba)
  }

  /** What the loop keeps of entry (ch, sb). */
  predicate EntryInvariant(f: FrameInfo, smr: seq<seq<real>>, scfsi: seq<seq<int>>, s: AllocState,
                           ad: int, ch: int, sb: int)
    requires f.Valid() && IsRealGrid(smr) && ValidScfsi(f, scfsi) && s.Shaped()
    requires 0 <= ch < f.nch && 0 <= sb < f.sblimit
  {
    EntryRange(f, s, ch, sb) && EntryMnr(f, smr, s, ch, sb) && EntryBlocked(f, scfsi, s, ad, ch, sb)
  }

  /** The loop invariant of the greedy allocators, with ad the bits
      available after header, CRC and allocation fields. */
  predicate Invariant(f: FrameInfo, mirror: bool, smr: seq<seq<real>>, scfsi: seq<seq<int>>, ad: int, s: AllocState)
    requires f.Valid() && IsRealGrid(smr) && ValidScfsi(f, scfsi)
  {
    && s.Shaped()
    && (forall ch, sb :: 0 <= ch < f.nch && 0 <= sb < f.sblimit ==>
          EntryInvariant(f, smr, scfsi, s, ad, ch, sb))
    && (mirror ==> forall sb :: 0 <= sb < f.sblimit && Joint(f, sb) ==>
          s.g[0][sb] == s.g[1][sb] && s.used[0][sb] == s.used[1][sb])
    && s.Committed() == Charged(f, mirror, scfsi, s.g)
    && (s.Committed() == 0 || s.Committed() <= ad)
  }

  /** Moves left for entry (ch, sb): two per allocation index still above
      it and one per used state still ahead. */
  function EntryMoves(f: FrameInfo, s: AllocState, ch: int, sb: int): int
    requires f.Valid() && s.Shaped() && 0 <= ch < 2 && 0 <= sb < f.sblimit
  {
    var l, ba, u := LineOf(f, sb), s.g[ch][sb], s.used[ch][sb];
    if 0 <= ba <= MaxAlloc(l) && 0 <= u <= Closed then 2 * (MaxAlloc(l) - ba) + (Closed - u) else 0
  }

  function MovesTerm(f: FrameInfo, s: AllocState): nat -> int
    requires f.Valid() && s.Shaped()
  {
    (sb: nat) => if sb < f.sblimit then EntryMoves(f, s, 0, sb) + (if f.nch == 2 then EntryMoves(f, s, 1, sb) else 0) else 0
  }

  /** The termination measure of the do-while loop. */
  function Moves(f: FrameInfo, s: AllocState): int
    requires f.Valid() && s.Shaped()
  {
    SumTo(f.sblimit, MovesTerm(f, s))
  }

  lemma MovesNonNegative(f: FrameInfo, s: AllocState)
    requires f.Valid() && s.Shaped()
    ensures 0 <= Moves(f, s)
  {
    SumToNonNegative(f.sblimit, MovesTerm(f, s));
  }

  /** One pass of the do-while body for the entry (ch, sb) that
      maxmnr_new picked: Pass, then, when mirroring, Mirror in a joint
      subband. */
  function Raise(f: FrameInfo, mirror: bool, smr: seq<seq<real>>, scfsi: seq<seq<int>>, ad: int,
                 s: AllocState, ch: int, sb: int): (t: AllocState)
    requires f.Valid() && IsRealGrid(smr) && ValidScfsi(f, scfsi) && s.Shaped()
    requires 0 <= ch < f.nch && 0 <= sb < f.sblimit
    requires 0 <= s.g[ch][sb] < MaxAlloc(LineOf(f, sb))
    ensures t.Shaped()
  {
    var t := Pass(f, smr, scfsi, ad, s, ch, sb);
    if mirror && Joint(f, sb) then Mirror(f, smr, t, ch, sb) else t
  }

  /** The bits a step adds to bspl, bscf and bsel. */
  datatype StepBits = StepBits(increment: int, scale: int, seli: int)

  /** What the C code adds up for the next step of entry (ch, sb) at
      allocation ba in used state u: the growth of its sample bits (all of
      them for an untouched entry) and, for an untouched entry, its select
      code(s) and scalefactors. */
  function NextStepBits(f: FrameInfo, scfsi: seq<seq<int>>, ch: int, sb: int, ba: int, u: int): StepBits
    requires f.Valid() && ValidScfsi(f, scfsi) && 0 <= ch < f.nch && 0 <= sb < f.sblimit
    requires 0 <= ba < MaxAlloc(LineOf(f, sb))
  {
    var l := LineOf(f, sb);
    StepBits(SampleBits(l, ba + 1) - (if u != Untouched then SampleBits(l, ba) else 0),
             if u != Untouched then 0 else ScaleCharge(f, scfsi, ch, sb),
             if u != Untouched then 0 else SelCharge(f, sb))
  }

  /** The picked entry: raise it if its next step fits the bits left of
      ad, closing it when it reaches the top of its line, and close it
      otherwise. */
  function Pass(f: FrameInfo, smr: seq<seq<real>>, scfsi: seq<seq<int>>, ad: int,
                s: AllocState, ch: int, sb: int): (t: AllocState)
    requires f.Valid() && IsRealGrid(smr) && ValidScfsi(f, scfsi) && s.Shaped()
    requires 0 <= ch < f.nch && 0 <= sb < f.sblimit
    requires 0 <= s.g[ch][sb] < MaxAlloc(LineOf(f, sb))
    ensures t.Shaped()
    ensures 0 <= t.g[ch][sb] <= MaxAlloc(LineOf(f, sb))
  {
    var l, ba := LineOf(f, sb), s.g[ch][sb];
    var c := NextStepBits(f, scfsi, ch, sb, ba, s.used[ch][sb]);
    if ad >= s.Committed() + c.seli + c.scale + c.increment then
      AllocState(Set2(s.g, ch, sb, ba + 1),
                 Set2(s.mnr, ch, sb, Snr(StepIndex(l, ba + 1)) - smr[ch][sb]),
                 Set2(s.used, ch, sb, if ba + 1 >= MaxAlloc(l) then Closed else HasBits),
                 s.bspl + c.increment, s.bscf + c.scale, s.bsel + c.seli)
    else
      s.(used := Set2(s.used, ch, sb, Closed))
  }

  /** Above jsbound the allocation, the used state and the MNR of the
      other channel follow the picked one. */
  function Mirror(f: FrameInfo, smr: seq<seq<real>>, t: AllocState, ch: int, sb: int): (r: AllocState)
    requires f.Valid() && IsRealGrid(smr) && t.Shaped() && 0 <= ch < 2 && 0 <= sb < f.sblimit
    requires 0 <= t.g[ch][sb] <= MaxAlloc(LineOf(f, sb))
    ensures r.Shaped()
  {
    var l, ba := LineOf(f, sb), t.g[ch][sb];
    t.(g := Set2(t.g, 1 - ch, sb, ba),
       used := Set2(t.used, 1 - ch, sb, t.used[ch][sb]),
       mnr := Set2(t.mnr, 1 - ch, sb, Snr(StepIndex(l, ba)) - smr[1 - ch][sb]))
  }

  /** The entries one pass changes: the picked one and, when mirroring, the
      other channel of a joint subband. */
  predicate Hit(f: FrameInfo, mirror: bool, ch: int, sb: int, c: int, b: int)
  {
    b == sb && (c == ch || (mirror && Joint(f, sb)))
  }

  /** Whether the picked entry's next step fits the bits left. */
  predicate Fits(f: FrameInfo, scfsi: seq<seq<int>>, ad: int, s: AllocState, ch: int, sb: int)
    requires f.Valid() && ValidScfsi(f, scfsi) && s.Shaped()
    requires 0 <= ch < f.nch && 0 <= sb < f.sblimit && 0 <= s.g[ch][sb] < MaxAlloc(LineOf(f, sb))
  {
    s.Committed() + StepCost(f, scfsi, ch, sb, s.g[ch][sb]) <= ad
  }

  /** One pass, entry by entry: the entries it hits move to the next
      allocation and stay open below the top when the step fits, and are
      closed where they are otherwise; their mnr follows the allocation;
      nothing else changes; the step's cost is committed when it fits. */
  predicate Effect(f: FrameInfo, mirror: bool, smr: seq<seq<real>>, scfsi: seq<seq<int>>, ad: int,
                   s: AllocState, ch: int, sb: int, t: AllocState)
    requires f.Valid() && IsRealGrid(smr) && ValidScfsi(f, scfsi) && s.Shaped() && t.Shaped()
    requires 0 <= ch < f.nch && 0 <= sb < f.sblimit && 0 <= s.g[ch][sb] < MaxAlloc(LineOf(f, sb))
  {
    var l, ba := LineOf(f, sb), s.g[ch][sb];
    var ok := Fits(f, scfsi, ad, s, ch, sb);
    var ba' := if ok then ba + 1 else ba;
    var u' := if ok && ba + 1 < MaxAlloc(l) then HasBits else Closed;
    && (forall c, b :: 0 <= c < 2 && 0 <= b < SbLimitMax ==>
          t.g[c][b] == (if Hit(f, mirror, ch, sb, c, b) then ba' else s.g[c][b]))
    && (forall c, b :: 0 <= c < 2 && 0 <= b < SbLimitMax ==>
          t.used[c][b] == (if Hit(f, mirror, ch, sb, c, b) then u' else s.used[c][b]))
    && (forall c, b :: 0 <= c < 2 && 0 <= b < SbLimitMax ==>
          t.mnr[c][b] == (if Hit(f, mirror, ch, sb, c, b) then Snr(StepIndex(l, ba')) - smr[c][b] else s.mnr[c][b]))
    && t.Committed() == s.Committed() + (if ok then StepCost(f, scfsi, ch, sb, ba) else 0)
  }

  /** The bits the C code adds up for a step (increment, seli, scale) are
      the step's cost: an open entry has no bits exactly when it is
      untouched. */
  lemma PassCost(f: FrameInfo, smr: seq<seq<real>>, scfsi: seq<seq<int>>, ad: int, s: AllocState, ch: int, sb: int)
    requires f.Valid() && IsRealGrid(smr) && ValidScfsi(f, scfsi) && s.Shaped()
    requires 0 <= ch < f.nch && 0 <= sb < f.sblimit
    requires EntryRange(f, s, ch, sb) && s.used[ch][sb] != Closed
    ensures 0 <= s.g[ch][sb] < MaxAlloc(LineOf(f, sb))
    ensures var c := NextStepBits(f, scfsi, ch, sb, s.g[ch][sb], s.used[ch][sb]);
      StepCost(f, scfsi, ch, sb, s.g[ch][sb]) == c.increment + c.scale + c.seli
  {
    NextAllocation(LineOf(f, sb), s.g[ch][sb]);
  }

  /** Pass does what Effect describes for the picked entry alone. */
  lemma PassEffect(f: FrameInfo, smr: seq<seq<real>>, scfsi: seq<seq<int>>, ad: int,
                   s: AllocState, ch: int, sb: int)
    requires f.Valid() && IsRealGrid(smr) && ValidScfsi(f, scfsi) && s.Shaped()
    requires 0 <= ch < f.nch && 0 <= sb < f.sblimit
    requires EntryRange(f, s, ch, sb) && EntryMnr(f, smr, s, ch, sb) && s.used[ch][sb] != Closed
    ensures 0 <= s.g[ch][sb] < MaxAlloc(LineOf(f, sb))
    ensures Effect(f, false, smr, scfsi, ad, s, ch, sb, Pass(f, smr, scfsi, ad, s, ch, sb))
  {
    PassCost(f, smr, scfsi, ad, s, ch, sb);
  }

  /** Mirroring a pass in a joint subband extends its effect to the other
      channel, which held the same allocation and state. */
  lemma MirrorEffect(f: FrameInfo, smr: seq<seq<real>>, scfsi: seq<seq<int>>, ad: int,
                     s: AllocState, ch: int, sb: int, t: AllocState)
    requires f.Valid() && IsRealGrid(smr) && ValidScfsi(f, scfsi) && s.Shaped() && t.Shaped()
    requires 0 <= ch < f.nch && 0 <= sb < f.sblimit && Joint(f, sb)
    requires 0 <= s.g[ch][sb] < MaxAlloc(LineOf(f, sb))
    requires s.g[0][sb] == s.g[1][sb] && s.used[0][sb] == s.used[1][sb]
    requires Effect(f, false, smr, scfsi, ad, s, ch, sb, t)
    ensures 0 <= t.g[ch][sb] <= MaxAlloc(LineOf(f, sb))
    ensures Effect(f, true, smr, scfsi, ad, s, ch, sb, Mirror(f, smr, t, ch, sb))
  {
    assert t.g[ch][sb] == (if Fits(f, scfsi, ad, s, ch, sb) then s.g[ch][sb] + 1 else s.g[ch][sb]);
  }

  /** Raise does what Effect describes. */
  lemma RaiseEffect(f: FrameInfo, mirror: bool, smr: seq<seq<real>>, scfsi: seq<seq<int>>, ad: int,
                    s: AllocState, ch: int, sb: int)
    requires f.Valid() && IsRealGrid(smr) && ValidScfsi(f, scfsi) && Invariant(f, mirror, smr, scfsi, ad, s)
    requires 0 <= ch < f.nch && 0 <= sb < f.sblimit && s.used[ch][sb] != Closed
    ensures 0 <= s.g[ch][sb] < MaxAlloc(LineOf(f, sb))
    ensures Effect(f, mirror, smr, scfsi, ad, s, ch, sb, Raise(f, mirror, smr, scfsi, ad, s, ch, sb))
  {
    assert EntryInvariant(f, smr, scfsi, s, ad, ch, sb);
    PassEffect(f, smr, scfsi, ad, s, ch, sb);
    var t := Pass(f, smr, scfsi, ad, s, ch, sb);
    if mirror && Joint(f, sb) {
      MirrorEffect(f, smr, scfsi, ad, s, ch, sb, t);
    } else {
      assert forall c, b :: Hit(f, mirror, ch, sb, c, b) == Hit(f, false, ch, sb, c, b);
    }
  }

  /** The entry invariant of one entry after a pass: a hit entry by the
      way the pass moved it, any other because the bits left only shrink. */
  lemma EntryAfterPass(f: FrameInfo, mirror: bool, smr: seq<seq<real>>, scfsi: seq<seq<int>>, ad: int,
                       s: AllocState, ch: int, sb: int, t: AllocState, c: int, b: int)
    requires f.Valid() && IsRealGrid(smr) && ValidScfsi(f, scfsi) && s.Shaped() && t.Shaped()
    requires 0 <= ch < f.nch && 0 <= sb < f.sblimit && 0 <= s.g[ch][sb] < MaxAlloc(LineOf(f, sb))
    requires 0 <= c < f.nch && 0 <= b < f.sblimit
    requires EntryInvariant(f, smr, scfsi, s, ad, c, b)
    requires mirror && Joint(f, sb) ==> s.g[0][sb] == s.g[1][sb]
    requires Effect(f, mirror, smr, scfsi, ad, s, ch, sb, t)
    requires t.Committed() >= s.Committed()
    ensures EntryInvariant(f, smr, scfsi, t, ad, c, b)
  {
    if Hit(f, mirror, ch, sb, c, b) {
      HitEntryAfterPass(f, mirror, smr, scfsi, ad, s, ch, sb, t, c);
    } else {
      assert t.g[c][b] == s.g[c][b] && t.used[c][b] == s.used[c][b] && t.mnr[c][b] == s.mnr[c][b];
    }
  }

  /** The entry invariant of an entry a pass hits. */
  lemma HitEntryAfterPass(f: FrameInfo, mirror: bool, smr: seq<seq<real>>, scfsi: seq<seq<int>>, ad: int,
                          s: AllocState, ch: int, sb: int, t: AllocState, c: int)
    requires f.Valid() && IsRealGrid(smr) && ValidScfsi(f, scfsi) && s.Shaped() && t.Shaped()
    requires 0 <= ch < f.nch && 0 <= sb < f.sblimit && 0 <= s.g[ch][sb] < MaxAlloc(LineOf(f, sb))
    requires 0 <= c < f.nch && Hit(f, mirror, ch, sb, c, sb)
    requires mirror && Joint(f, sb) ==> s.g[0][sb] == s.g[1][sb]
    requires Effect(f, mirror, smr, scfsi, ad, s, ch, sb, t)
    ensures EntryInvariant(f, smr, scfsi, t, ad, c, sb)
  {
    HitRange(f, mirror, smr, scfsi, ad, s, ch, sb, t, c);
    HitMnr(f, mirror, smr, scfsi, ad, s, ch, sb, t, c);
    HitBlocked(f, mirror, smr, scfsi, ad, s, ch, sb, t, c);
  }

  lemma HitRange(f: FrameInfo, mirror: bool, smr: seq<seq<real>>, scfsi: seq<seq<int>>, ad: int,
                 s: AllocState, ch: int, sb: int, t: AllocState, c: int)
    requires f.Valid() && IsRealGrid(smr) && ValidScfsi(f, scfsi) && s.Shaped() && t.Shaped()
    requires 0 <= ch < f.nch && 0 <= sb < f.sblimit && 0 <= s.g[ch][sb] < MaxAlloc(LineOf(f, sb))
    requires 0 <= c < f.nch && Hit(f, mirror, ch, sb, c, sb)
    requires Effect(f, mirror, smr, scfsi, ad, s, ch, sb, t)
    ensures EntryRange(f, t, c, sb)
  {
  }

  lemma HitMnr(f: FrameInfo, mirror: bool, smr: seq<seq<real>>, scfsi: seq<seq<int>>, ad: int,
               s: AllocState, ch: int, sb: int, t: AllocState, c: int)
    requires f.Valid() && IsRealGrid(smr) && ValidScfsi(f, scfsi) && s.Shaped() && t.Shaped()
    requires 0 <= ch < f.nch && 0 <= sb < f.sblimit && 0 <= s.g[ch][sb] < MaxAlloc(LineOf(f, sb))
    requires 0 <= c < f.nch && Hit(f, mirror, ch, sb, c, sb)
    requires Effect(f, mirror, smr, scfsi, ad, s, ch, sb, t)
    requires EntryRange(f, t, c, sb)
    ensures EntryMnr(f, smr, t, c, sb)
  {
  }

  lemma HitBlocked(f: FrameInfo, mirror: bool, smr: seq<seq<real>>, scfsi: seq<seq<int>>, ad: int,
                   s: AllocState, ch: int, sb: int, t: AllocState, c: int)
    requires f.Valid() && IsRealGrid(smr) && ValidScfsi(f, scfsi) && s.Shaped() && t.Shaped()
    requires 0 <= ch < f.nch && 0 <= sb < f.sblimit && 0 <= s.g[ch][sb] < MaxAlloc(LineOf(f, sb))
    requires 0 <= c < f.nch && Hit(f, mirror, ch, sb, c, sb)
    requires mirror && Joint(f, sb) ==> s.g[0][sb] == s.g[1][sb]
    requires Effect(f, mirror, smr, scfsi, ad, s, ch, sb, t)
    requires EntryRange(f, t, c, sb)
    ensures EntryBlocked(f, scfsi, t, ad, c, sb)
  {
    if c != ch {
      JointStepCost(f, scfsi, sb, s.g[ch][sb]);
    }
  }

  /** After a pass every entry still satisfies the entry invariant. */
  lemma EffectKeepsEntries(f: FrameInfo, mirror: bool, smr: seq<seq<real>>, scfsi: seq<seq<int>>, ad: int,
                           s: AllocState, ch: int, sb: int, t: AllocState)
    requires f.Valid() && IsRealGrid(smr) && ValidScfsi(f, scfsi) && Invariant(f, mirror, smr, scfsi, ad, s) && t.Shaped()
    requires 0 <= ch < f.nch && 0 <= sb < f.sblimit && 0 <= s.g[ch][sb] < MaxAlloc(LineOf(f, sb))
    requires Effect(f, mirror, smr, scfsi, ad, s, ch, sb, t)
    ensures forall c, b :: 0 <= c < f.nch && 0 <= b < f.sblimit ==> EntryInvariant(f, smr, scfsi, t, ad, c, b)
  {
    if Fits(f, scfsi, ad, s, ch, sb) {
      StepCostCharges(f, scfsi, ch, sb, s.g[ch][sb]);
    }
    forall c, b | 0 <= c < f.nch && 0 <= b < f.sblimit
      ensures EntryInvariant(f, smr, scfsi, t, ad, c, b)
    {
      EntryAfterPass(f, mirror, smr, scfsi, ad, s, ch, sb, t, c, b);
    }
  }

  /** The charge of the column of subband sb grows by the cost of the
      step when the step fits and stays put otherwise. */
  lemma ColumnAfterPass(f: FrameInfo, mirror: bool, smr: seq<seq<real>>, scfsi: seq<seq<int>>, ad: int,
                        s: AllocState, ch: int, sb: int, t: AllocState)
    requires f.Valid() && IsRealGrid(smr) && ValidScfsi(f, scfsi) && s.Shaped() && t.Shaped()
    requires 0 <= ch < f.nch && 0 <= sb < f.sblimit && 0 <= s.g[ch][sb] < MaxAlloc(LineOf(f, sb))
    requires mirror && Joint(f, sb) ==> s.g[0][sb] == s.g[1][sb]
    requires Effect(f, mirror, smr, scfsi, ad, s, ch, sb, t)
    ensures ChargeTerm(f, mirror, scfsi, t.g)(sb) == ChargeTerm(f, mirror, scfsi, s.g)(sb)
      + if Fits(f, scfsi, ad, s, ch, sb) then StepCost(f, scfsi, ch, sb, s.g[ch][sb]) else 0
  {
    var ba := s.g[ch][sb];
    var before, after := ChargeTerm(f, mirror, scfsi, s.g), ChargeTerm(f, mirror, scfsi, t.g);
    assert t.g[0][sb] == (if Hit(f, mirror, ch, sb, 0, sb) then t.g[ch][sb] else s.g[0][sb]);
    assert t.g[1][sb] == (if Hit(f, mirror, ch, sb, 1, sb) then t.g[ch][sb] else s.g[1][sb]);
    if Fits(f, scfsi, ad, s, ch, sb) {
      StepCostCharges(f, scfsi, ch, sb, ba);
      if mirror && Joint(f, sb) {
        JointStepCost(f, scfsi, sb, ba);
        StepCostCharges(f, scfsi, 0, sb, ba);
      } else {
        assert Span(f, mirror, sb) == f.nch;
      }
    }
  }

  /** After a pass the committed bits are still the charge of the grid:
      only the column of subband sb changes, by the cost of the step. */
  lemma EffectKeepsCharged(f: FrameInfo, mirror: bool, smr: seq<seq<real>>, scfsi: seq<seq<int>>, ad: int,
                           s: AllocState, ch: int, sb: int, t: AllocState)
    requires f.Valid() && IsRealGrid(smr) && ValidScfsi(f, scfsi) && Invariant(f, mirror, smr, scfsi, ad, s) && t.Shaped()
    requires 0 <= ch < f.nch && 0 <= sb < f.sblimit && 0 <= s.g[ch][sb] < MaxAlloc(LineOf(f, sb))
    requires Effect(f, mirror, smr, scfsi, ad, s, ch, sb, t)
    ensures t.Committed() == Charged(f, mirror, scfsi, t.g)
  {
    var before, after := ChargeTerm(f, mirror, scfsi, s.g), ChargeTerm(f, mirror, scfsi, t.g);
    forall b: nat | b < f.sblimit && b != sb
      ensures before(b) == after(b)
    {
      assert s.g[0][b] == t.g[0][b] && s.g[1][b] == t.g[1][b];
    }
    ColumnAfterPass(f, mirror, smr, scfsi, ad, s, ch, sb, t);
    SumToUpdate(f.sblimit, before, after, sb);
  }

  /** A pass lowers the termination measure: only the column of subband
      sb changes, and there a hit entry either gains an allocation index or
      is closed. */
  lemma EffectLowersMoves(f: FrameInfo, mirror: bool, smr: seq<seq<real>>, scfsi: seq<seq<int>>, ad: int,
                          s: AllocState, ch: int, sb: int, t: AllocState)
    requires f.Valid() && IsRealGrid(smr) && ValidScfsi(f, scfsi) && s.Shaped() && t.Shaped()
    requires 0 <= ch < f.nch && 0 <= sb < f.sblimit && 0 <= s.g[ch][sb] < MaxAlloc(LineOf(f, sb))
    requires s.used[ch][sb] != Closed
    requires forall c :: 0 <= c < f.nch ==> EntryRange(f, s, c, sb)
    requires mirror && Joint(f, sb) ==> s.g[0][sb] == s.g[1][sb] && s.used[0][sb] == s.used[1][sb]
    requires Effect(f, mirror, smr, scfsi, ad, s, ch, sb, t)
    ensures Moves(f, t) < Moves(f, s)
  {
    var before, after := MovesTerm(f, s), MovesTerm(f, t);
    forall b: nat | b < f.sblimit && b != sb
      ensures before(b) == after(b)
    {
      assert s.g[0][b] == t.g[0][b] && s.g[1][b] == t.g[1][b];
      assert s.used[0][b] == t.used[0][b] && s.used[1][b] == t.used[1][b];
    }
    ColumnMovesAfterPass(f, mirror, smr, scfsi, ad, s, ch, sb, t);
    SumToUpdate(f.sblimit, before, after, sb);
  }

  lemma ColumnMovesAfterPass(f: FrameInfo, mirror: bool, smr: seq<seq<real>>, scfsi: seq<seq<int>>, ad: int,
                             s: AllocState, ch: int, sb: int, t: AllocState)
    requires f.Valid() && IsRealGrid(smr) && ValidScfsi(f, scfsi) && s.Shaped() && t.Shaped()
    requires 0 <= ch < f.nch && 0 <= sb < f.sblimit && 0 <= s.g[ch][sb] < MaxAlloc(LineOf(f, sb))
    requires s.used[ch][sb] != Closed
    requires forall c :: 0 <= c < f.nch ==> EntryRange(f, s, c, sb)
    requires mirror && Joint(f, sb) ==> s.g[0][sb] == s.g[1][sb] && s.used[0][sb] == s.used[1][sb]
    requires Effect(f, mirror, smr, scfsi, ad, s, ch, sb, t)
    ensures MovesTerm(f, t)(sb) < MovesTerm(f, s)(sb)
  {
    assert EntryRange(f, s, ch, sb);
    assert EntryMoves(f, t, ch, sb) < EntryMoves(f, s, ch, sb);
    if f.nch == 2 {
      assert EntryRange(f, s, 1 - ch, sb);
      assert EntryMoves(f, t, 1 - ch, sb) <= EntryMoves(f, s, 1 - ch, sb);
    }
  }

  /** One pass keeps the loop invariant and lowers the measure. */
  lemma RaiseKeepsInvariant(f: FrameInfo, mirror: bool, smr: seq<seq<real>>, scfsi: seq<seq<int>>, ad: int,
                            s: AllocState, ch: int, sb: int)
    requires f.Valid() && IsRealGrid(smr) && ValidScfsi(f, scfsi) && Invariant(f, mirror, smr, scfsi, ad, s)
    requires 0 <= ch < f.nch && 0 <= sb < f.sblimit && s.used[ch][sb] != Closed
    ensures 0 <= s.g[ch][sb] < MaxAlloc(LineOf(f, sb))
    ensures Invariant(f, mirror, smr, scfsi, ad, Raise(f, mirror, smr, scfsi, ad, s, ch, sb))
    ensures 0 <= Moves(f, Raise(f, mirror, smr, scfsi, ad, s, ch, sb)) < Moves(f, s)
  {
    RaiseEffect(f, mirror, smr, scfsi, ad, s, ch, sb);
    var t := Raise(f, mirror, smr, scfsi, ad, s, ch, sb);
    EffectKeepsEntries(f, mirror, smr, scfsi, ad, s, ch, sb, t);
    EffectKeepsCharged(f, mirror, smr, scfsi, ad, s, ch, sb, t);
    ColumnRanges(f, mirror, smr, scfsi, ad, s, sb);
    EffectLowersMoves(f, mirror, smr, scfsi, ad, s, ch, sb, t);
    MovesNonNegative(f, t);
    EffectKeepsBudget(f, mirror, smr, scfsi, ad, s, ch, sb, t);
    EffectKeepsMirror(f, mirror, smr, scfsi, ad, s, ch, sb, t);
  }

  lemma ColumnRanges(f: FrameInfo, mirror: bool, smr: seq<seq<real>>, scfsi: seq<seq<int>>, ad: int, s: AllocState, sb: int)
    requires f.Valid() && IsRealGrid(smr) && ValidScfsi(f, scfsi) && Invariant(f, mirror, smr, scfsi, ad, s)
    requires 0 <= sb < f.sblimit
    ensures forall c :: 0 <= c < f.nch ==> EntryRange(f, s, c, sb)
  {
    forall c | 0 <= c < f.nch
      ensures EntryRange(f, s, c, sb)
    {
      assert EntryInvariant(f, smr, scfsi, s, ad, c, sb);
    }
  }

  /** A pass commits bits only when they fit. */
  lemma EffectKeepsBudget(f: FrameInfo, mirror: bool, smr: seq<seq<real>>, scfsi: seq<seq<int>>, ad: int,
                          s: AllocState, ch: int, sb: int, t: AllocState)
    requires f.Valid() && IsRealGrid(smr) && ValidScfsi(f, scfsi) && s.Shaped() && t.Shaped()
    requires 0 <= ch < f.nch && 0 <= sb < f.sblimit && 0 <= s.g[ch][sb] < MaxAlloc(LineOf(f, sb))
    requires s.Committed() == 0 || s.Committed() <= ad
    requires Effect(f, mirror, smr, scfsi, ad, s, ch, sb, t)
    ensures t.Committed() == 0 || t.Committed() <= ad
  {
  }

  /** With mirroring, both channels of a joint subband stay equal. */
  lemma EffectKeepsMirror(f: FrameInfo, mirror: bool, smr: seq<seq<real>>, scfsi: seq<seq<int>>, ad: int,
                          s: AllocState, ch: int, sb: int, t: AllocState)
    requires f.Valid() && IsRealGrid(smr) && ValidScfsi(f, scfsi) && s.Shaped() && t.Shaped()
    requires 0 <= ch < f.nch && 0 <= sb < f.sblimit && 0 <= s.g[ch][sb] < MaxAlloc(LineOf(f, sb))
    requires mirror ==> forall b :: 0 <= b < f.sblimit && Joint(f, b) ==>
      s.g[0][b] == s.g[1][b] && s.used[0][b] == s.used[1][b]
    requires Effect(f, mirror, smr, scfsi, ad, s, ch, sb, t)
    ensures mirror ==> forall b :: 0 <= b < f.sblimit && Joint(f, b) ==>
      t.g[0][b] == t.g[1][b] && t.used[0][b] == t.used[1][b]
  {
    if mirror {
      forall b | 0 <= b < f.sblimit && Joint(f, b)
        ensures t.g[0][b] == t.g[1][b] && t.used[0][b] == t.used[1][b]
      {
        assert Hit(f, mirror, ch, sb, 0, b) == Hit(f, mirror, ch, sb, 1, b);
      }
    }
  }
}
