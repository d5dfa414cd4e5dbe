/** The side information of a frame: write_bit_alloc and
    write_scalefactors, and the bits they emit compared with what the
    allocators charge. */
module SideInfo {
  import opened Tables
  import opened Common
  import opened Bitstream
  import opened FrameBits
  import opened AllocationBits
  import opened Transmission

  /** The allocation fields of subband sb: nbal bits for each channel below
      jsbound, one shared field above it. */
  function AllocColumn(f: FrameInfo, g: seq<seq<int>>, sb: int): seq<Field>
    requires f.Valid() && IsGrid(g, 2, SbLimitMax) && 0 <= sb < f.sblimit
  {
    [Field(g[0][sb], NbalOf(f, sb))]
      + if ChannelsIn(f.nch, f.jsbound, sb) == 2 then [Field(g[1][sb], NbalOf(f, sb))] else []
  }

  /** The allocation fields of subbands 0 .. n - 1, in write order. */
  function AllocFields(f: FrameInfo, g: seq<seq<int>>, n: int): seq<Field>
    requires f.Valid() && IsGrid(g, 2, SbLimitMax) && 0 <= n <= f.sblimit
  {
    if n == 0 then [] else AllocFields(f, g, n - 1) + AllocColumn(f, g, n - 1)
  }

  /** write_bit_alloc emits bbal bits: the count bits_for_nonoise_new and
      a_bit_allocation_new reserve for the allocation fields. */
  lemma {:induction false} AllocFieldsWidth(f: FrameInfo, g: seq<seq<int>>, n: int)
    requires f.Valid() && IsGrid(g, 2, SbLimitMax) && 0 <= n <= f.sblimit
    ensures Width(AllocFields(f, g, n)) == SumTo(n, BbalTerm(f))
  {
    if n > 0 {
      var front, column := AllocFields(f, g, n - 1), AllocColumn(f, g, n - 1);
      AllocFieldsWidth(f, g, n - 1);
      AllocColumnWidth(f, g, n - 1);
      WidthAppend(front, column);
      assert AllocFields(f, g, n) == front + column;
      assert SumTo(n, BbalTerm(f)) == SumTo(n - 1, BbalTerm(f)) + BbalTerm(f)(n - 1);
    }
  }

  /** All the allocation fields of a frame take bbal bits. */
  lemma AllocFieldsBbal(f: FrameInfo, g: seq<seq<int>>)
    requires f.Valid() && IsGrid(g, 2, SbLimitMax)
    ensures Width(AllocFields(f, g, f.sblimit)) == Bbal(f)
  {
    AllocFieldsWidth(f, g, f.sblimit);
  }

  /** The allocation fields of one subband take its share of bbal. */
  lemma AllocColumnWidth(f: FrameInfo, g: seq<seq<int>>, sb: int)
    requires f.Valid() && IsGrid(g, 2, SbLimitMax) && 0 <= sb < f.sblimit
    ensures Width(AllocColumn(f, g, sb)) == BbalTerm(f)(sb)
  {
    var one := [Field(g[0][sb], NbalOf(f, sb))];
    WidthSingle(one[0]);
    if ChannelsIn(f.nch, f.jsbound, sb) == 2 {
      WidthSingle(Field(g[1][sb], NbalOf(f, sb)));
      WidthAppend(one, [Field(g[1][sb], NbalOf(f, sb))]);
    } else {
      assert AllocColumn(f, g, sb) == one;
    }
  }

  /** A valid allocation fits its fields: every index is at most 2^nbal - 1. */
  lemma {:induction false} AllocFieldsFit(f: FrameInfo, g: seq<seq<int>>, n: int)
    requires f.Valid() && ValidAllocation(f, g) && 0 <= n <= f.sblimit
    ensures Fits(AllocFields(f, g, n))
  {
    if n > 0 {
      AllocFieldsFit(f, g, n - 1);
      var sb := n - 1;
      MaxAllocIsPow2(LineOf(f, sb));
      FitsAppend(AllocFields(f, g, n - 1), AllocColumn(f, g, sb));
    }
  }

  /** write_bit_alloc */
  method WriteBitAlloc(f: FrameInfo, bitAlloc: array2<int>, bs: BitStream)
    requires f.Valid() && bitAlloc.Length0 == 2 && bitAlloc.Length1 == SbLimitMax
    modifies bs
    ensures bs.fields == old(bs.fields) + AllocFields(f, Rows(bitAlloc), f.sblimit)
  {
    ghost var g := Rows(bitAlloc);
    var sb := 0;
    while sb < f.sblimit
      invariant 0 <= sb <= f.sblimit
      invariant bs.fields == old(bs.fields) + AllocFields(f, g, sb)
    {
      ghost var before := bs.fields;
      var nbal := NbalOf(f, sb);
      if sb < f.jsbound {
        var ch := 0;
        while ch < f.nch
          invariant 0 <= ch <= f.nch
          invariant bs.fields == before + seq(ch, c requires 0 <= c < ch => Field(g[c][sb], nbal))
        {
          bs.PutBits(bitAlloc[ch, sb], nbal);
          ch := ch + 1;
        }
      } else {
        bs.PutBits(bitAlloc[0, sb], nbal);
      }
      sb := sb + 1;
    }
  }

  /** The select code of channel ch of subband sb, if it is allocated. */
  function SelectEntry(g: seq<seq<int>>, sel: seq<seq<int>>, ch: int, sb: int): seq<Field>
    requires IsGrid(g, 2, SbLimitMax) && IsGrid(sel, 2, SbLimitMax) && 0 <= ch < 2 && 0 <= sb < SbLimitMax
  {
    if g[ch][sb] != 0 then [Field(sel[ch][sb], SelBits)] else []
  }

  /** The scalefactor indices of channel ch of subband sb that its select
      code sends, if it is allocated; an unknown code sends nothing. */
  function ScaleEntry(g: seq<seq<int>>, sel: seq<seq<int>>, sfIndex: array3<int>, ch: int, sb: int): seq<Field>
    requires IsGrid(g, 2, SbLimitMax) && IsGrid(sel, 2, SbLimitMax) && 0 <= ch < 2 && 0 <= sb < SbLimitMax
    requires sfIndex.Length0 == 2 && sfIndex.Length1 == 3 && sfIndex.Length2 == SbLimitMax
    reads sfIndex
  {
    if g[ch][sb] != 0 && 0 <= sel[ch][sb] < 4 then
      var s := SentIndices(sel[ch][sb], TripleAt(sfIndex, ch, sb));
      seq(|s|, i requires 0 <= i < |s| => Field(s[i], SfBits))
    else []
  }

  function SelectColumn(f: FrameInfo, g: seq<seq<int>>, sel: seq<seq<int>>, sb: int): seq<Field>
    requires f.Valid() && IsGrid(g, 2, SbLimitMax) && IsGrid(sel, 2, SbLimitMax) && 0 <= sb < f.sblimit
  {
    SelectEntry(g, sel, 0, sb) + if f.nch == 2 then SelectEntry(g, sel, 1, sb) else []
  }

  function ScaleColumn(f: FrameInfo, g: seq<seq<int>>, sel: seq<seq<int>>, sfIndex: array3<int>, sb: int): seq<Field>
    requires f.Valid() && IsGrid(g, 2, SbLimitMax) && IsGrid(sel, 2, SbLimitMax) && 0 <= sb < f.sblimit
    requires sfIndex.Length0 == 2 && sfIndex.Length1 == 3 && sfIndex.Length2 == SbLimitMax
    reads sfIndex
  {
    ScaleEntry(g, sel, sfIndex, 0, sb) + if f.nch == 2 then ScaleEntry(g, sel, sfIndex, 1, sb) else []
  }

  /** The select codes of subbands 0 .. n - 1: every channel with an
      allocation, subband by subband. */
  function SelectFields(f: FrameInfo, g: seq<seq<int>>, sel: seq<seq<int>>, n: int): seq<Field>
    requires f.Valid() && IsGrid(g, 2, SbLimitMax) && IsGrid(sel, 2, SbLimitMax) && 0 <= n <= f.sblimit
  {
    if n == 0 then [] else SelectFields(f, g, sel, n - 1) + SelectColumn(f, g, sel, n - 1)
  }

  /** The scalefactors of subbands 0 .. n - 1, in the same order. */
  function ScaleFields(f: FrameInfo, g: seq<seq<int>>, sel: seq<seq<int>>, sfIndex: array3<int>, n: int): seq<Field>
    requires f.Valid() && IsGrid(g, 2, SbLimitMax) && IsGrid(sel, 2, SbLimitMax) && 0 <= n <= f.sblimit
    requires sfIndex.Length0 == 2 && sfIndex.Length1 == 3 && sfIndex.Length2 == SbLimitMax
    reads sfIndex
  {
    if n == 0 then [] else ScaleFields(f, g, sel, sfIndex, n - 1) + ScaleColumn(f, g, sel, sfIndex, n - 1)
  }

  lemma SelectColumnWidth(f: FrameInfo, mirror: bool, g: seq<seq<int>>, sel: seq<seq<int>>, sb: int)
    requires f.Valid() && ValidAllocation(f, g) && IsGrid(sel, 2, SbLimitMax) && 0 <= sb < f.sblimit
    requires CountedAsWritten(f, mirror, g)
    ensures Width(SelectColumn(f, g, sel, sb)) == ColumnSelBits(f, mirror, g, sb)
  {
    var e0, e1 := SelectEntry(g, sel, 0, sb), SelectEntry(g, sel, 1, sb);
    assert 0 <= g[0][sb] && (f.nch == 2 ==> 0 <= g[1][sb]);
    assert Width([]) == 0;
    WidthSingle(Field(sel[0][sb], SelBits));
    WidthSingle(Field(sel[1][sb], SelBits));
    if f.nch == 2 {
      WidthAppend(e0, e1);
    } else {
      assert SelectColumn(f, g, sel, sb) == e0;
    }
  }

  lemma ScaleEntryWidth(f: FrameInfo, g: seq<seq<int>>, sel: seq<seq<int>>, sfIndex: array3<int>, ch: int, sb: int)
    requires f.Valid() && ValidAllocation(f, g) && ValidScfsi(f, sel) && 0 <= ch < f.nch && 0 <= sb < f.sblimit
    requires sfIndex.Length0 == 2 && sfIndex.Length1 == 3 && sfIndex.Length2 == SbLimitMax
    ensures Width(ScaleEntry(g, sel, sfIndex, ch, sb)) == if g[ch][sb] > 0 then SfBits * SfsPerScfsi(sel[ch][sb]) else 0
  {
    var e := ScaleEntry(g, sel, sfIndex, ch, sb);
    assert 0 <= g[ch][sb] && 0 <= sel[ch][sb] < 4;
    WidthUniform(e, SfBits);
  }

  lemma ScaleColumnWidth(f: FrameInfo, mirror: bool, g: seq<seq<int>>, sel: seq<seq<int>>, sfIndex: array3<int>, sb: int)
    requires f.Valid() && ValidAllocation(f, g) && ValidScfsi(f, sel) && 0 <= sb < f.sblimit
    requires sfIndex.Length0 == 2 && sfIndex.Length1 == 3 && sfIndex.Length2 == SbLimitMax
    requires CountedAsWritten(f, mirror, g)
    ensures Width(ScaleColumn(f, g, sel, sfIndex, sb)) == ColumnScaleBits(f, mirror, g, sel, sb)
  {
    var e0, e1 := ScaleEntry(g, sel, sfIndex, 0, sb), ScaleEntry(g, sel, sfIndex, 1, sb);
    ScaleEntryWidth(f, g, sel, sfIndex, 0, sb);
    if f.nch == 2 {
      ScaleEntryWidth(f, g, sel, sfIndex, 1, sb);
      WidthAppend(e0, e1);
    } else {
      assert ScaleColumn(f, g, sel, sfIndex, sb) == e0;
    }
  }

  /** The select codes write_scalefactors emits are the bsel bits the
      allocator counted. */
  lemma {:induction false} SelectFieldsWidth(f: FrameInfo, mirror: bool, g: seq<seq<int>>, sel: seq<seq<int>>, n: int)
    requires f.Valid() && ValidAllocation(f, g) && IsGrid(sel, 2, SbLimitMax) && 0 <= n <= f.sblimit
    requires CountedAsWritten(f, mirror, g)
    ensures Width(SelectFields(f, g, sel, n)) == SumTo(n, SelTerm(f, mirror, g))
    ensures n == f.sblimit ==> Width(SelectFields(f, g, sel, n)) == SelTotal(f, mirror, g)
  {
    if n > 0 {
      SelectFieldsWidth(f, mirror, g, sel, n - 1);
      SelectColumnWidth(f, mirror, g, sel, n - 1);
      WidthAppend(SelectFields(f, g, sel, n - 1), SelectColumn(f, g, sel, n - 1));
    }
  }

  /** The scalefactors write_scalefactors emits are the bscf bits the
      allocator counted. */
  lemma {:induction false} ScaleFieldsWidth(f: FrameInfo, mirror: bool, g: seq<seq<int>>, sel: seq<seq<int>>,
                                             sfIndex: array3<int>, n: int)
    requires f.Valid() && ValidAllocation(f, g) && ValidScfsi(f, sel) && 0 <= n <= f.sblimit
    requires sfIndex.Length0 == 2 && sfIndex.Length1 == 3 && sfIndex.Length2 == SbLimitMax
    requires CountedAsWritten(f, mirror, g)
    ensures Width(ScaleFields(f, g, sel, sfIndex, n)) == SumTo(n, ScaleTerm(f, mirror, g, sel))
    ensures n == f.sblimit ==> Width(ScaleFields(f, g, sel, sfIndex, n)) == ScaleTotal(f, mirror, g, sel)
  {
    if n > 0 {
      ScaleFieldsWidth(f, mirror, g, sel, sfIndex, n - 1);
      ScaleColumnWidth(f, mirror, g, sel, sfIndex, n - 1);
      WidthAppend(ScaleFields(f, g, sel, sfIndex, n - 1), ScaleColumn(f, g, sel, sfIndex, n - 1));
    }
  }

  /** One more subband of scalefactors extends the fields written so far. */
  lemma ScaleStep(f: FrameInfo, g: seq<seq<int>>, sel: seq<seq<int>>, sfIndex: array3<int>, front: seq<Field>, n: int)
    requires f.Valid() && IsGrid(g, 2, SbLimitMax) && IsGrid(sel, 2, SbLimitMax) && 0 <= n < f.sblimit
    requires sfIndex.Length0 == 2 && sfIndex.Length1 == 3 && sfIndex.Length2 == SbLimitMax
    ensures front + ScaleFields(f, g, sel, sfIndex, n + 1)
      == front + ScaleFields(f, g, sel, sfIndex, n) + ScaleColumn(f, g, sel, sfIndex, n)
  {
  }

  /** write_scalefactors: all select codes first, then the scalefactors
      each code sends. */
  method WriteScalefactors(f: FrameInfo, bitAlloc: array2<int>, sfSelect: array2<int>, sfIndex: array3<int>, bs: BitStream)
    requires f.Valid()
    requires bitAlloc.Length0 == 2 && bitAlloc.Length1 == SbLimitMax
    requires sfSelect.Length0 == 2 && sfSelect.Length1 == SbLimitMax
    requires sfIndex.Length0 == 2 && sfIndex.Length1 == 3 && sfIndex.Length2 == SbLimitMax
    modifies bs
    ensures bs.fields == old(bs.fields) + SelectFields(f, Rows(bitAlloc), Rows(sfSelect), f.sblimit)
      + ScaleFields(f, Rows(bitAlloc), Rows(sfSelect), sfIndex, f.sblimit)
  {
    WriteSelectCodes(f, bitAlloc, sfSelect, bs);
    WriteScaleIndices(f, bitAlloc, sfSelect, sfIndex, bs);
  }

  /** The first subband loop of write_scalefactors: the select codes. */
  method WriteSelectCodes(f: FrameInfo, bitAlloc: array2<int>, sfSelect: array2<int>, bs: BitStream)
    requires f.Valid()
    requires bitAlloc.Length0 == 2 && bitAlloc.Length1 == SbLimitMax
    requires sfSelect.Length0 == 2 && sfSelect.Length1 == SbLimitMax
    modifies bs
    ensures bs.fields == old(bs.fields) + SelectFields(f, Rows(bitAlloc), Rows(sfSelect), f.sblimit)
  {
    ghost var g, sel := Rows(bitAlloc), Rows(sfSelect);
    var sb := 0;
    while sb < f.sblimit
      invariant 0 <= sb <= f.sblimit
      invariant bs.fields == old(bs.fields) + SelectFields(f, g, sel, sb)
    {
      WriteSelectColumn(f, bitAlloc, sfSelect, sb, bs);
      sb := sb + 1;
    }
  }

  /** The second subband loop of write_scalefactors: the scalefactor
      indices. */
  method WriteScaleIndices(f: FrameInfo, bitAlloc: array2<int>, sfSelect: array2<int>, sfIndex: array3<int>, bs: BitStream)
    requires f.Valid()
    requires bitAlloc.Length0 == 2 && bitAlloc.Length1 == SbLimitMax
    requires sfSelect.Length0 == 2 && sfSelect.Length1 == SbLimitMax
    requires sfIndex.Length0 == 2 && sfIndex.Length1 == 3 && sfIndex.Length2 == SbLimitMax
    modifies bs
    ensures bs.fields == old(bs.fields) + ScaleFields(f, Rows(bitAlloc), Rows(sfSelect), sfIndex, f.sblimit)
  {
    ghost var g, sel := Rows(bitAlloc), Rows(sfSelect);
    var sb := 0;
    while sb < f.sblimit
      invariant 0 <= sb <= f.sblimit
      invariant bs.fields == old(bs.fields) + ScaleFields(f, g, sel, sfIndex, sb)
    {
      WriteScaleColumn(f, bitAlloc, sfSelect, sfIndex, g, sel, sb, bs);
      ScaleStep(f, g, sel, sfIndex, old(bs.fields), sb);
      sb := sb + 1;
    }
  }

  /** One pass of the first subband loop of write_scalefactors. */
  method WriteSelectColumn(f: FrameInfo, bitAlloc: array2<int>, sfSelect: array2<int>, sb: int, bs: BitStream)
    requires f.Valid() && 0 <= sb < f.sblimit
    requires bitAlloc.Length0 == 2 && bitAlloc.Length1 == SbLimitMax
    requires sfSelect.Length0 == 2 && sfSelect.Length1 == SbLimitMax
    modifies bs
    ensures bs.fields == old(bs.fields) + SelectColumn(f, Rows(bitAlloc), Rows(sfSelect), sb)
  {
    ghost var g, sel := Rows(bitAlloc), Rows(sfSelect);
    var ch := 0;
    while ch < f.nch
      invariant 0 <= ch <= f.nch
      invariant bs.fields == old(bs.fields) + (if ch > 0 then SelectEntry(g, sel, 0, sb) else [])
        + (if ch > 1 then SelectEntry(g, sel, 1, sb) else [])
    {
      if bitAlloc[ch, sb] != 0 {
        bs.PutBits(sfSelect[ch, sb], SelBits);
      }
      ch := ch + 1;
    }
  }

  /** One pass of the second subband loop of write_scalefactors. */
  method WriteScaleColumn(f: FrameInfo, bitAlloc: array2<int>, sfSelect: array2<int>, sfIndex: array3<int>,
                          ghost g: seq<seq<int>>, ghost sel: seq<seq<int>>, sb: int, bs: BitStream)
    requires f.Valid() && 0 <= sb < f.sblimit
    requires bitAlloc.Length0 == 2 && bitAlloc.Length1 == SbLimitMax && g == Rows(bitAlloc)
    requires sfSelect.Length0 == 2 && sfSelect.Length1 == SbLimitMax && sel == Rows(sfSelect)
    requires sfIndex.Length0 == 2 && sfIndex.Length1 == 3 && sfIndex.Length2 == SbLimitMax
    modifies bs
    ensures bs.fields == old(bs.fields) + ScaleColumn(f, g, sel, sfIndex, sb)
  {
    var ch := 0;
    while ch < f.nch
      invariant 0 <= ch <= f.nch
      invariant ch == 0 ==> bs.fields == old(bs.fields)
      invariant ch == 1 ==> bs.fields == old(bs.fields) + ScaleEntry(g, sel, sfIndex, 0, sb)
      invariant ch == 2 ==> bs.fields == old(bs.fields) + ScaleEntry(g, sel, sfIndex, 0, sb) + ScaleEntry(g, sel, sfIndex, 1, sb)
    {
      if bitAlloc[ch, sb] != 0 {
        WriteSent(sfSelect[ch, sb], sfIndex, ch, sb, bs);
      }
      ch := ch + 1;
    }
  }


  /** The switch of write_scalefactors for one allocated entry. */
  method WriteSent(code: int, sfIndex: array3<int>, ch: int, sb: int, bs: BitStream)
    requires sfIndex.Length0 == 2 && sfIndex.Length1 == 3 && sfIndex.Length2 == SbLimitMax
    requires 0 <= ch < 2 && 0 <= sb < SbLimitMax
    modifies bs
    ensures 0 <= code < 4 ==> var s := SentIndices(code, TripleAt(sfIndex, ch, sb));
      bs.fields == old(bs.fields) + seq(|s|, i requires 0 <= i < |s| => Field(s[i], SfBits))
    ensures !(0 <= code < 4) ==> bs.fields == old(bs.fields)
  {
    if code == 0 {
      bs.PutBits(sfIndex[ch, 0, sb], SfBits);
      bs.PutBits(sfIndex[ch, 1, sb], SfBits);
      bs.PutBits(sfIndex[ch, 2, sb], SfBits);
    } else if code == 1 || code == 3 {
      bs.PutBits(sfIndex[ch, 0, sb], SfBits);
      bs.PutBits(sfIndex[ch, 2, sb], SfBits);
    } else if code == 2 {
      bs.PutBits(sfIndex[ch, 0, sb], SfBits);
    }
  }
}
