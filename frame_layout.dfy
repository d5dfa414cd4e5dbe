/** A whole Layer II frame as the writers lay it out: header, allocation
    fields, select codes, scalefactors and samples, in that order. Its
    width is what the feasibility probe and the allocators charge. */
module FrameLayout {
  import opened Tables
  import opened Common
  import opened Bitstream
  import opened FrameBits
  import opened AllocationBits
  import opened FrameHeader
  import opened SideInfo
  import opened Samples
  import opened BitAllocation

  /** The fields write_header, write_bit_alloc, write_scalefactors and
      write_samples_new emit for one frame, one after the other (the CRC
      word is written by their caller and is not among them). */
  function FrameFields(h: Header, f: FrameInfo, g: seq<seq<int>>, sel: seq<seq<int>>,
                       sfIndex: array3<int>, s: array4<int>): seq<Field>
    requires f.Valid() && IsGrid(g, 2, SbLimitMax) && IsGrid(sel, 2, SbLimitMax)
    requires sfIndex.Length0 == 2 && sfIndex.Length1 == 3 && sfIndex.Length2 == SbLimitMax
    requires SampleShape(s)
    reads sfIndex, s
  {
    HeaderFields(h) + AllocFields(f, g, f.sblimit) + SelectFields(f, g, sel, f.sblimit)
      + ScaleFields(f, g, sel, sfIndex, f.sblimit) + SampleFields(f, g, s, 3)
  }

  /** For an allocation mirrored above jsbound, as a_bit_allocation_new
      leaves it, the frame the writers emit is exactly as wide as the bits
      bits_for_nonoise_new reports and a_bit_allocation_new subtracts
      from adb, less the CRC bits. */
  lemma FrameWidth(h: Header, f: FrameInfo, g: seq<seq<int>>, sel: seq<seq<int>>,
                   sfIndex: array3<int>, s: array4<int>)
    requires f.Valid() && ValidAllocation(f, g) && ValidScfsi(f, sel) && Mirrored(f, g)
    requires sfIndex.Length0 == 2 && sfIndex.Length1 == 3 && sfIndex.Length2 == SbLimitMax
    requires SampleShape(s)
    ensures Width(FrameFields(h, f, g, sel, sfIndex, s)) == FrameTotal(f, 0, g, sel)
  {
    var a, b := HeaderFields(h), AllocFields(f, g, f.sblimit);
    var c, d := SelectFields(f, g, sel, f.sblimit), ScaleFields(f, g, sel, sfIndex, f.sblimit);
    var e := SampleFields(f, g, s, 3);
    HeaderLayout(h);
    AllocFieldsBbal(f, g);
    SelectFieldsWidth(f, true, g, sel, f.sblimit);
    ScaleFieldsWidth(f, true, g, sel, sfIndex, f.sblimit);
    SamplesWidth(f, true, g, s);
    WidthAppend(a, b);
    WidthAppend(a + b, c);
    WidthAppend(a + b + c, d);
    WidthAppend(a + b + c + d, e);
  }

  /** The bits VBR_bit_allocation_new takes off adb for allocation g: the
      header, berr, its bbal of nch fields per subband, and the samples,
      select codes and scalefactors of every channel's entries. */
  function VbrCharge(f: FrameInfo, berr: int, g: seq<seq<int>>, scfsi: seq<seq<int>>): int
    requires f.Valid() && ValidAllocation(f, g) && ValidScfsi(f, scfsi)
  {
    HeaderBits + berr + VbrBbal(f) + SampleTotal(f, false, g) + SelTotal(f, false, g) + ScaleTotal(f, false, g, scfsi)
  }

  /** With joint stereo off, as the bbal count of VBR_bit_allocation_new
      assumes, the frame the writers emit is exactly as wide as the bits
      the VBR allocator charges, CRC aside, for any allocation it makes. */
  lemma VbrFrameWidth(h: Header, f: FrameInfo, g: seq<seq<int>>, sel: seq<seq<int>>,
                      sfIndex: array3<int>, s: array4<int>)
    requires f.Valid() && ValidAllocation(f, g) && ValidScfsi(f, sel)
    requires f.nch == 1 || f.jsbound >= f.sblimit
    requires sfIndex.Length0 == 2 && sfIndex.Length1 == 3 && sfIndex.Length2 == SbLimitMax
    requires SampleShape(s)
    ensures Width(FrameFields(h, f, g, sel, sfIndex, s)) == VbrCharge(f, 0, g, sel)
  {
    var a, b := HeaderFields(h), AllocFields(f, g, f.sblimit);
    var c, d := SelectFields(f, g, sel, f.sblimit), ScaleFields(f, g, sel, sfIndex, f.sblimit);
    var e := SampleFields(f, g, s, 3);
    HeaderLayout(h);
    AllocFieldsBbal(f, g);
    VbrBbalUnjoined(f);
    SelectFieldsWidth(f, false, g, sel, f.sblimit);
    ScaleFieldsWidth(f, false, g, sel, sfIndex, f.sblimit);
    SamplesWidth(f, false, g, s);
    WidthAppend(a, b);
    WidthAppend(a + b, c);
    WidthAppend(a + b + c, d);
    WidthAppend(a + b + c + d, e);
  }

  /** With joint subbands left on, a VBR frame whose allocation happens to
      be mirrored (the empty allocation, say) is charged more than the
      writers emit: VBR_bit_allocation_new counts nch allocation fields and
      every channel's samples in a joint subband, the writers one. */
  lemma VbrJointOvercharged(h: Header, f: FrameInfo, g: seq<seq<int>>, sel: seq<seq<int>>,
                            sfIndex: array3<int>, s: array4<int>)
    requires f.Valid() && ValidAllocation(f, g) && ValidScfsi(f, sel) && Mirrored(f, g)
    requires f.nch == 2 && f.jsbound < f.sblimit
    requires sfIndex.Length0 == 2 && sfIndex.Length1 == 3 && sfIndex.Length2 == SbLimitMax
    requires SampleShape(s)
    ensures Width(FrameFields(h, f, g, sel, sfIndex, s)) < VbrCharge(f, 0, g, sel)
  {
    FrameWidth(h, f, g, sel, sfIndex, s);
    VbrBbalJoined(f);
    forall sb: nat | sb < f.sblimit
      ensures SampleTerm(f, true, g)(sb) <= SampleTerm(f, false, g)(sb)
      ensures SelTerm(f, true, g)(sb) <= SelTerm(f, false, g)(sb)
      ensures ScaleTerm(f, true, g, sel)(sb) <= ScaleTerm(f, false, g, sel)(sb)
    {
      var _ := EntrySampleBits(f, g, 1, sb);
    }
    SumToBelow(f.sblimit, SampleTerm(f, true, g), SampleTerm(f, false, g));
    SumToBelow(f.sblimit, SelTerm(f, true, g), SelTerm(f, false, g));
    SumToBelow(f.sblimit, ScaleTerm(f, true, g, sel), ScaleTerm(f, false, g, sel));
  }

  /** g with the allocation of channel 1 in subband sb cleared. */
  function ClearRight(g: seq<seq<int>>, sb: int): (h: seq<seq<int>>)
    requires IsGrid(g, 2, SbLimitMax) && 0 <= sb < SbLimitMax
    ensures IsGrid(h, 2, SbLimitMax)
  {
    g[1 := g[1][sb := 0]]
  }

  /** With joint subbands left on, an unmirrored VBR allocation that gives
      channel 1 bits in a joint subband where channel 0 has none writes the
      same allocation fields as the allocation without those bits (only
      channel 0's field is written above jsbound), yet one more select
      code: a decoder, which reads the select codes by the allocation
      fields, cannot tell the two frames apart. */
  lemma {:induction false} VbrJointUnreadable(f: FrameInfo, g: seq<seq<int>>, sel: seq<seq<int>>, sb: int, n: int)
    requires f.Valid() && IsGrid(g, 2, SbLimitMax) && IsGrid(sel, 2, SbLimitMax)
    requires 0 <= sb < f.sblimit && Joint(f, sb) && g[0][sb] == 0 && g[1][sb] != 0
    requires sb < n <= f.sblimit
    ensures AllocFields(f, g, n) == AllocFields(f, ClearRight(g, sb), n)
    ensures Width(SelectFields(f, g, sel, n)) == Width(SelectFields(f, ClearRight(g, sb), sel, n)) + SelBits
  {
    var h := ClearRight(g, sb);
    if n - 1 == sb {
      SameBelow(f, g, sel, sb, sb);
    } else {
      VbrJointUnreadable(f, g, sel, sb, n - 1);
    }
    assert AllocColumn(f, g, n - 1) == AllocColumn(f, h, n - 1);
    WidthAppend(SelectFields(f, g, sel, n - 1), SelectColumn(f, g, sel, n - 1));
    WidthAppend(SelectFields(f, h, sel, n - 1), SelectColumn(f, h, sel, n - 1));
    if n - 1 == sb {
      assert SelectColumn(f, g, sel, sb) == [Field(sel[1][sb], SelBits)];
      assert SelectColumn(f, h, sel, sb) == [];
    } else {
      assert SelectColumn(f, g, sel, n - 1) == SelectColumn(f, h, sel, n - 1);
    }
  }

  /** Below the cleared subband the two allocations write the same fields. */
  lemma {:induction false} SameBelow(f: FrameInfo, g: seq<seq<int>>, sel: seq<seq<int>>, sb: int, n: int)
    requires f.Valid() && IsGrid(g, 2, SbLimitMax) && IsGrid(sel, 2, SbLimitMax)
    requires 0 <= sb < f.sblimit && 0 <= n <= sb
    ensures AllocFields(f, g, n) == AllocFields(f, ClearRight(g, sb), n)
    ensures SelectFields(f, g, sel, n) == SelectFields(f, ClearRight(g, sb), sel, n)
  {
    if n > 0 {
      SameBelow(f, g, sel, sb, n - 1);
      assert AllocColumn(f, g, n - 1) == AllocColumn(f, ClearRight(g, sb), n - 1);
      assert SelectColumn(f, g, sel, n - 1) == SelectColumn(f, ClearRight(g, sb), sel, n - 1);
    }
  }
}
