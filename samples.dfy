/** write_samples_new: the quantised samples of a frame, three at a time,
    with steps 3, 5 and 9 packed into one codeword per triple
    (ISO/IEC 11172-3 C.1.5.2.8). */
module Samples {
  import opened Tables
  import opened Common
  import opened Bitstream
  import opened FrameBits
  import opened AllocationBits

  /** Three granules of SCALE_BLOCK samples, written three at a time. */
  const TriplesPerGranule := 4
  const TriplesPerFrame := 3 * TriplesPerGranule

  /** The codeword of a packed triple: x + n * y + n^2 * z. */
  function Pack(x: int, y: int, z: int, n: int): int
  {
    x + y * n + z * n * n
  }

  /** A decoder's split of a packed codeword back into its three samples. */
  function Unpack(v: int, n: int): (int, int, int)
    requires n > 0
  {
    (v % n, (v / n) % n, v / (n * n))
  }

  lemma MulBelow(a: int, n: int)
    requires n > 0 && a * n < n
    ensures a < 1
  {
  }

  lemma MulAbove(a: int, n: int)
    requires n > 0 && a * n > -n
    ensures a > -1
  {
  }

  /** Euclidean division of q * n + r by n, for 0 <= r < n. */
  lemma DivModStep(q: int, r: int, n: int)
    requires n > 0 && 0 <= r < n
    ensures (q * n + r) / n == q && (q * n + r) % n == r
  {
    var v := q * n + r;
    var d, m := v / n, v % n;
    assert v == d * n + m && 0 <= m < n;
    assert (q - d) * n == m - r;
    MulBelow(q - d, n);
    MulAbove(q - d, n);
  }

  /** Packing is undone by unpacking, and the codeword stays below n^3. */
  lemma PackRoundTrip(x: int, y: int, z: int, n: int)
    requires n == 3 || n == 5 || n == 9
    requires 0 <= x < n && 0 <= y < n && 0 <= z < n
    ensures Unpack(Pack(x, y, z, n), n) == (x, y, z)
    ensures 0 <= Pack(x, y, z, n) < n * n * n
  {
    var w := y + z * n;
    var v := w * n + x;
    assert Pack(x, y, z, n) == v;
    DivModStep(w, x, n);
    assert v / n == w && v % n == x;
    DivModStep(z, y, n);
    assert w / n == z && w % n == y;
    var nn := n * n;
    assert nn > 0;
    assert v == z * nn + (y * n + x);
    assert y * n + x < nn by {
      assert y * n <= (n - 1) * n;
    }
    DivModStep(z, y * n + x, nn);
    assert v / nn == z;
    assert z * nn <= (n - 1) * nn;
  }

  /** Bits of one triple of an entry at step q: three codewords, or one
      packed codeword. */
  function TripleBits(q: int): int
    requires ValidStep(q)
  {
    if Group(q) == 3 then 3 * Bits(q) else Bits(q)
  }

  /** The sample bits an allocator charges per entry are the bits of its
      twelve triples. */
  lemma FrameOfTriples(q: int)
    requires ValidStep(q)
    ensures StepSampleBits(q) == TriplesPerFrame * TripleBits(q)
  {
  }

  predicate SampleShape(s: array4<int>)
  {
    s.Length0 == 2 && s.Length1 == 3 && s.Length2 == ScaleBlock && s.Length3 == SbLimitMax
  }

  /** The fields of the triple starting at sample j of granule gr of
      channel ch in subband sb, coded at step q. */
  function TripleFields(s: array4<int>, q: int, ch: int, gr: int, j: int, sb: int): seq<Field>
    requires SampleShape(s) && ValidStep(q)
    requires 0 <= ch < 2 && 0 <= gr < 3 && 0 <= j <= ScaleBlock - 3 && 0 <= sb < SbLimitMax
    reads s
  {
    if Group(q) == 3 then
      [Field(s[ch, gr, j, sb], Bits(q)), Field(s[ch, gr, j + 1, sb], Bits(q)), Field(s[ch, gr, j + 2, sb], Bits(q))]
    else
      [Field(Pack(s[ch, gr, j, sb], s[ch, gr, j + 1, sb], s[ch, gr, j + 2, sb], Steps(q)), Bits(q))]
  }

  /** The step of an allocated entry. */
  function EntryStep(f: FrameInfo, g: seq<seq<int>>, ch: int, sb: int): (q: int)
    requires f.Valid() && IsGrid(g, 2, SbLimitMax) && 0 <= ch < 2 && 0 <= sb < f.sblimit
    ensures ValidStep(q)
  {
    if ValidAlloc(g[ch][sb]) then StepIndex(LineOf(f, sb), g[ch][sb]) else 0
  }

  function EntryFields(f: FrameInfo, g: seq<seq<int>>, s: array4<int>, ch: int, gr: int, j: int, sb: int): seq<Field>
    requires f.Valid() && IsGrid(g, 2, SbLimitMax) && SampleShape(s)
    requires 0 <= ch < 2 && 0 <= gr < 3 && 0 <= j <= ScaleBlock - 3 && 0 <= sb < f.sblimit
    reads s
  {
    if g[ch][sb] != 0 then TripleFields(s, EntryStep(f, g, ch, sb), ch, gr, j, sb) else []
  }

  /** The triples of subband sb: one per channel coded on its own. */
  function ColumnFields(f: FrameInfo, g: seq<seq<int>>, s: array4<int>, gr: int, j: int, sb: int): seq<Field>
    requires f.Valid() && IsGrid(g, 2, SbLimitMax) && SampleShape(s)
    requires 0 <= gr < 3 && 0 <= j <= ScaleBlock - 3 && 0 <= sb < f.sblimit
    reads s
  {
    EntryFields(f, g, s, 0, gr, j, sb)
      + if ChannelsIn(f.nch, f.jsbound, sb) == 2 then EntryFields(f, g, s, 1, gr, j, sb) else []
  }

  /** The triples at sample j of granule gr of subbands 0 .. n - 1. */
  function BlockFields(f: FrameInfo, g: seq<seq<int>>, s: array4<int>, gr: int, j: int, n: int): seq<Field>
    requires f.Valid() && IsGrid(g, 2, SbLimitMax) && SampleShape(s)
    requires 0 <= gr < 3 && 0 <= j <= ScaleBlock - 3 && 0 <= n <= f.sblimit
    reads s
  {
    if n == 0 then [] else BlockFields(f, g, s, gr, j, n - 1) + ColumnFields(f, g, s, gr, j, n - 1)
  }

  /** The first k triple positions (samples 0, 3, 6, 9) of granule gr. */
  function GranuleFields(f: FrameInfo, g: seq<seq<int>>, s: array4<int>, gr: int, k: int): seq<Field>
    requires f.Valid() && IsGrid(g, 2, SbLimitMax) && SampleShape(s) && 0 <= gr < 3 && 0 <= k <= TriplesPerGranule
    reads s
  {
    if k == 0 then [] else GranuleFields(f, g, s, gr, k - 1) + BlockFields(f, g, s, gr, 3 * (k - 1), f.sblimit)
  }

  /** The first n granules of the frame, in write order. */
  function SampleFields(f: FrameInfo, g: seq<seq<int>>, s: array4<int>, n: int): seq<Field>
    requires f.Valid() && IsGrid(g, 2, SbLimitMax) && SampleShape(s) && 0 <= n <= 3
    reads s
  {
    if n == 0 then [] else SampleFields(f, g, s, n - 1) + GranuleFields(f, g, s, n - 1, TriplesPerGranule)
  }

  // ---------------------------------------------------------------------
  // Bits written against bits charged

  /** Bits of the triple of entry (ch, sb) at one sample position. */
  function EntryTripleBits(f: FrameInfo, g: seq<seq<int>>, ch: int, sb: int): int
    requires f.Valid() && IsGrid(g, 2, SbLimitMax) && 0 <= ch < 2 && 0 <= sb < f.sblimit
  {
    if g[ch][sb] != 0 then TripleBits(EntryStep(f, g, ch, sb)) else 0
  }

  function TripleTerm(f: FrameInfo, g: seq<seq<int>>): nat -> int
    requires f.Valid() && IsGrid(g, 2, SbLimitMax)
  {
    (sb: nat) => if sb < f.sblimit then
      EntryTripleBits(f, g, 0, sb) + (if ChannelsIn(f.nch, f.jsbound, sb) == 2 then EntryTripleBits(f, g, 1, sb) else 0)
    else 0
  }

  lemma TripleFieldsWidth(s: array4<int>, q: int, ch: int, gr: int, j: int, sb: int)
    requires SampleShape(s) && ValidStep(q)
    requires 0 <= ch < 2 && 0 <= gr < 3 && 0 <= j <= ScaleBlock - 3 && 0 <= sb < SbLimitMax
    ensures Width(TripleFields(s, q, ch, gr, j, sb)) == TripleBits(q)
  {
    if Group(q) == 3 {
      WidthUniform(TripleFields(s, q, ch, gr, j, sb), Bits(q));
    } else {
      WidthSingle(TripleFields(s, q, ch, gr, j, sb)[0]);
    }
  }

  lemma ColumnFieldsWidth(f: FrameInfo, g: seq<seq<int>>, s: array4<int>, gr: int, j: int, sb: int)
    requires f.Valid() && IsGrid(g, 2, SbLimitMax) && SampleShape(s)
    requires 0 <= gr < 3 && 0 <= j <= ScaleBlock - 3 && 0 <= sb < f.sblimit
    ensures Width(ColumnFields(f, g, s, gr, j, sb)) == TripleTerm(f, g)(sb)
  {
    var e0, e1 := EntryFields(f, g, s, 0, gr, j, sb), EntryFields(f, g, s, 1, gr, j, sb);
    assert Width([]) == 0;
    TripleFieldsWidth(s, EntryStep(f, g, 0, sb), 0, gr, j, sb);
    TripleFieldsWidth(s, EntryStep(f, g, 1, sb), 1, gr, j, sb);
    if ChannelsIn(f.nch, f.jsbound, sb) == 2 {
      WidthAppend(e0, e1);
    } else {
      assert ColumnFields(f, g, s, gr, j, sb) == e0;
    }
  }

  /** One triple position of all subbands: the triple bits of every coded
      entry. */
  lemma {:induction false} BlockFieldsWidth(f: FrameInfo, g: seq<seq<int>>, s: array4<int>, gr: int, j: int, n: int)
    requires f.Valid() && IsGrid(g, 2, SbLimitMax) && SampleShape(s)
    requires 0 <= gr < 3 && 0 <= j <= ScaleBlock - 3 && 0 <= n <= f.sblimit
    ensures Width(BlockFields(f, g, s, gr, j, n)) == SumTo(n, TripleTerm(f, g))
  {
    if n > 0 {
      BlockFieldsWidth(f, g, s, gr, j, n - 1);
      ColumnFieldsWidth(f, g, s, gr, j, n - 1);
      WidthAppend(BlockFields(f, g, s, gr, j, n - 1), ColumnFields(f, g, s, gr, j, n - 1));
    }
  }

  /** n copies of x added up. */
  function Copies(n: nat, x: int): int
  {
    if n == 0 then 0 else Copies(n - 1, x) + x
  }

  /** Three granules of four triple positions each. */
  lemma FrameCopies(x: int)
    ensures Copies(3, Copies(TriplesPerGranule, x)) == TriplesPerFrame * x
  {
    assert Copies(1, x) == x;
    assert Copies(2, x) == 2 * x;
    assert Copies(3, x) == 3 * x;
    var y := Copies(TriplesPerGranule, x);
    assert y == 4 * x;
    assert Copies(1, y) == y;
    assert Copies(2, y) == 2 * y;
    assert Copies(3, y) == 3 * y;
  }

  lemma {:induction false} GranuleFieldsWidth(f: FrameInfo, g: seq<seq<int>>, s: array4<int>, gr: int, k: int)
    requires f.Valid() && IsGrid(g, 2, SbLimitMax) && SampleShape(s) && 0 <= gr < 3 && 0 <= k <= TriplesPerGranule
    ensures Width(GranuleFields(f, g, s, gr, k)) == Copies(k, SumTo(f.sblimit, TripleTerm(f, g)))
  {
    if k > 0 {
      var front, block := GranuleFields(f, g, s, gr, k - 1), BlockFields(f, g, s, gr, 3 * (k - 1), f.sblimit);
      assert GranuleFields(f, g, s, gr, k) == front + block;
      GranuleFieldsWidth(f, g, s, gr, k - 1);
      BlockFieldsWidth(f, g, s, gr, 3 * (k - 1), f.sblimit);
      WidthAppend(front, block);
    }
  }

  lemma {:induction false} SampleFieldsWidth(f: FrameInfo, g: seq<seq<int>>, s: array4<int>, n: int)
    requires f.Valid() && IsGrid(g, 2, SbLimitMax) && SampleShape(s) && 0 <= n <= 3
    ensures Width(SampleFields(f, g, s, n)) == Copies(n, Copies(TriplesPerGranule, SumTo(f.sblimit, TripleTerm(f, g))))
  {
    if n > 0 {
      var front, granule := SampleFields(f, g, s, n - 1), GranuleFields(f, g, s, n - 1, TriplesPerGranule);
      assert SampleFields(f, g, s, n) == front + granule;
      SampleFieldsWidth(f, g, s, n - 1);
      GranuleFieldsWidth(f, g, s, n - 1, TriplesPerGranule);
      WidthAppend(front, granule);
    }
  }

  /** The bits of one entry's samples are twelve times its triple bits. */
  lemma EntrySamples(f: FrameInfo, g: seq<seq<int>>, ch: int, sb: int)
    requires f.Valid() && ValidAllocation(f, g) && 0 <= ch < f.nch && 0 <= sb < f.sblimit
    ensures EntrySampleBits(f, g, ch, sb) == TriplesPerFrame * EntryTripleBits(f, g, ch, sb)
  {
    FrameOfTriples(EntryStep(f, g, ch, sb));
  }

  /** The bits write_samples_new emits for a frame are the sample bits the
      allocator charged (bspl): SCALE_BLOCK * group * bits for every coded
      entry with an allocation. */
  lemma SamplesWidth(f: FrameInfo, mirror: bool, g: seq<seq<int>>, s: array4<int>)
    requires f.Valid() && ValidAllocation(f, g) && SampleShape(s)
    requires CountedAsWritten(f, mirror, g)
    ensures Width(SampleFields(f, g, s, 3)) == SampleTotal(f, mirror, g)
  {
    var t := TripleTerm(f, g);
    forall sb: nat | sb < f.sblimit
      ensures SampleTerm(f, mirror, g)(sb) == TriplesPerFrame * t(sb)
    {
      EntrySamples(f, g, 0, sb);
      if f.nch == 2 {
        EntrySamples(f, g, 1, sb);
      }
    }
    forall sb: nat | sb >= f.sblimit
      ensures SampleTerm(f, mirror, g)(sb) == TriplesPerFrame * t(sb)
    {
    }
    SumToScale(f.sblimit, TriplesPerFrame, t, SampleTerm(f, mirror, g));
    SampleFieldsWidth(f, g, s, 3);
    FrameCopies(SumTo(f.sblimit, t));
  }

  /** write_samples_new */
  method WriteSamples(f: FrameInfo, sbband: array4<int>, bitAlloc: array2<int>, bs: BitStream)
    requires f.Valid() && SampleShape(sbband)
    requires bitAlloc.Length0 == 2 && bitAlloc.Length1 == SbLimitMax
    modifies bs
    ensures bs.fields == old(bs.fields) + SampleFields(f, Rows(bitAlloc), sbband, 3)
  {
    ghost var g := Rows(bitAlloc);
    var gr := 0;
    while gr < 3
      invariant 0 <= gr <= 3
      invariant bs.fields == old(bs.fields) + SampleFields(f, g, sbband, gr)
    {
      WriteGranule(f, sbband, bitAlloc, g, gr, bs);
      SampleStep(f, g, sbband, gr, old(bs.fields));
      gr := gr + 1;
    }
  }

  /** The sample loop of write_samples_new for granule gr: triples at
      samples 0, 3, 6 and 9. */
  method WriteGranule(f: FrameInfo, sbband: array4<int>, bitAlloc: array2<int>, ghost g: seq<seq<int>>, gr: int, bs: BitStream)
    requires f.Valid() && SampleShape(sbband) && 0 <= gr < 3
    requires bitAlloc.Length0 == 2 && bitAlloc.Length1 == SbLimitMax && g == Rows(bitAlloc)
    modifies bs
    ensures bs.fields == old(bs.fields) + GranuleFields(f, g, sbband, gr, TriplesPerGranule)
  {
    ghost var k := 0;
    var j := 0;
    while j < ScaleBlock
      invariant 0 <= k <= TriplesPerGranule && j == 3 * k
      invariant bs.fields == old(bs.fields) + GranuleFields(f, g, sbband, gr, k)
    {
      WriteBlock(f, sbband, bitAlloc, g, gr, j, bs);
      GranuleStep(f, g, sbband, gr, k, old(bs.fields));
      j, k := j + 3, k + 1;
    }
  }

  /** The fields of granule gr follow those of the granules before it. */
  lemma SampleStep(f: FrameInfo, g: seq<seq<int>>, s: array4<int>, gr: int, front: seq<Field>)
    requires f.Valid() && IsGrid(g, 2, SbLimitMax) && SampleShape(s) && 0 <= gr < 3
    ensures front + SampleFields(f, g, s, gr + 1)
      == front + SampleFields(f, g, s, gr) + GranuleFields(f, g, s, gr, TriplesPerGranule)
  {
  }

  /** The triples at sample 3k of a granule follow those before it. */
  lemma GranuleStep(f: FrameInfo, g: seq<seq<int>>, s: array4<int>, gr: int, k: int, front: seq<Field>)
    requires f.Valid() && IsGrid(g, 2, SbLimitMax) && SampleShape(s) && 0 <= gr < 3 && 0 <= k < TriplesPerGranule
    ensures front + GranuleFields(f, g, s, gr, k + 1)
      == front + GranuleFields(f, g, s, gr, k) + BlockFields(f, g, s, gr, 3 * k, f.sblimit)
  {
  }

  /** The fields of subband sb follow those of the subbands below it. */
  lemma BlockStep(f: FrameInfo, g: seq<seq<int>>, s: array4<int>, gr: int, j: int, sb: int, front: seq<Field>)
    requires f.Valid() && IsGrid(g, 2, SbLimitMax) && SampleShape(s)
    requires 0 <= gr < 3 && 0 <= j <= ScaleBlock - 3 && 0 <= sb < f.sblimit
    ensures front + BlockFields(f, g, s, gr, j, sb + 1)
      == front + BlockFields(f, g, s, gr, j, sb) + ColumnFields(f, g, s, gr, j, sb)
  {
  }

  /** The subband loop of write_samples_new for one triple position. */
  method WriteBlock(f: FrameInfo, sbband: array4<int>, bitAlloc: array2<int>, ghost g: seq<seq<int>>, gr: int, j: int, bs: BitStream)
    requires f.Valid() && SampleShape(sbband) && 0 <= gr < 3 && 0 <= j <= ScaleBlock - 3
    requires bitAlloc.Length0 == 2 && bitAlloc.Length1 == SbLimitMax && g == Rows(bitAlloc)
    modifies bs
    ensures bs.fields == old(bs.fields) + BlockFields(f, g, sbband, gr, j, f.sblimit)
  {
    var sb := 0;
    while sb < f.sblimit
      invariant 0 <= sb <= f.sblimit
      invariant bs.fields == old(bs.fields) + BlockFields(f, g, sbband, gr, j, sb)
    {
      WriteColumn(f, sbband, bitAlloc, g, gr, j, sb, bs);
      BlockStep(f, g, sbband, gr, j, sb, old(bs.fields));
      sb := sb + 1;
    }
  }

  /** The channel loop of write_samples_new: every channel coded on its own
      in subband sb. */
  method WriteColumn(f: FrameInfo, sbband: array4<int>, bitAlloc: array2<int>, ghost g: seq<seq<int>>, gr: int, j: int, sb: int, bs: BitStream)
    requires f.Valid() && SampleShape(sbband) && 0 <= gr < 3 && 0 <= j <= ScaleBlock - 3 && 0 <= sb < f.sblimit
    requires bitAlloc.Length0 == 2 && bitAlloc.Length1 == SbLimitMax && g == Rows(bitAlloc)
    modifies bs
    ensures bs.fields == old(bs.fields) + ColumnFields(f, g, sbband, gr, j, sb)
  {
    var span := if sb < f.jsbound then f.nch else 1;
    var ch := 0;
    while ch < span
      invariant 0 <= ch <= span
      invariant bs.fields == old(bs.fields) + (if ch > 0 then EntryFields(f, g, sbband, 0, gr, j, sb) else [])
        + (if ch > 1 then EntryFields(f, g, sbband, 1, gr, j, sb) else [])
    {
      if bitAlloc[ch, sb] != 0 {
        WriteTriple(f, sbband, bitAlloc, g, ch, gr, j, sb, bs);
      }
      ch := ch + 1;
    }
  }

  /** The codewords of one allocated triple. */
  method WriteTriple(f: FrameInfo, sbband: array4<int>, bitAlloc: array2<int>, ghost g: seq<seq<int>>, ch: int, gr: int, j: int, sb: int,
                     bs: BitStream)
    requires f.Valid() && SampleShape(sbband)
    requires bitAlloc.Length0 == 2 && bitAlloc.Length1 == SbLimitMax && g == Rows(bitAlloc)
    requires 0 <= ch < 2 && 0 <= gr < 3 && 0 <= j <= ScaleBlock - 3 && 0 <= sb < f.sblimit
    modifies bs
    ensures bs.fields == old(bs.fields) + TripleFields(sbband, EntryStep(f, g, ch, sb), ch, gr, j, sb)
  {
    var thisStep := if ValidAlloc(bitAlloc[ch, sb]) then StepIndex(LineOf(f, sb), bitAlloc[ch, sb]) else 0;
    ghost var v := [sbband[ch, gr, j, sb], sbband[ch, gr, j + 1, sb], sbband[ch, gr, j + 2, sb]];
    if Group(thisStep) == 3 {
      var x := 0;
      while x < 3
        invariant 0 <= x <= 3
        invariant bs.fields == old(bs.fields) + seq(x, i requires 0 <= i < x => Field(v[i], Bits(thisStep)))
      {
        bs.PutBits(sbband[ch, gr, j + x, sb], Bits(thisStep));
        x := x + 1;
      }
    } else {
      var y := Steps(thisStep);
      var temp := sbband[ch, gr, j, sb] + sbband[ch, gr, j + 1, sb] * y + sbband[ch, gr, j + 2, sb] * y * y;
      bs.PutBits(temp, Bits(thisStep));
    }
  }
}
