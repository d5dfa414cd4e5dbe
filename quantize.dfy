/** subband_quantization_new: which entries of sbband the quantiser codes,
    from which sample stream and at which step, and the zeroing above
    sblimit. The floating-point scaling and truncation that produce a
    codeword are a parameter. */
module Quantize {
  import opened Tables
  import opened Common
  import opened Bitstream
  import opened FrameBits
  import opened AllocationBits
  import opened Samples

  /** The sample stream of the joint-stereo subbands of a two-channel
      frame (j_samps, scaled by j_scale). */
  const JointSamples := 2

  /** The stream entry (ch, sb) is quantised from: its own channel, or the
      joint-stereo samples above jsbound of a two-channel frame. */
  function SourceOf(f: FrameInfo, ch: int, sb: int): (src: int)
    requires 0 <= ch < 2
    ensures 0 <= src <= JointSamples
    ensures src == JointSamples <==> f.nch == 2 && sb >= f.jsbound
  {
    if f.nch == 2 && sb >= f.jsbound then JointSamples else ch
  }

  /** The entries the quantiser loop codes: a subband below sblimit, a
      channel that subband codes on its own, and an allocation. */
  predicate Coded(f: FrameInfo, g: seq<seq<int>>, ch: int, sb: int)
    requires IsGrid(g, 2, SbLimitMax) && 0 <= ch < 2 && 0 <= sb < SbLimitMax
  {
    sb < f.sblimit && ch < ChannelsIn(f.nch, f.jsbound, sb) && g[ch][sb] != 0
  }

  /** The codeword of a coded entry: quantise(src, gr, j, sb, q) stands for
      the scaling of sample j of granule gr of stream src by its
      scalefactor, the affine map of step q and the sign-bit tagging. */
  function Codeword(f: FrameInfo, g: seq<seq<int>>, quantise: (int, int, int, int, int) -> int,
                    ch: int, gr: int, j: int, sb: int): int
    requires f.Valid() && IsGrid(g, 2, SbLimitMax) && 0 <= ch < 2 && 0 <= sb < f.sblimit
  {
    quantise(SourceOf(f, ch, sb), gr, j, sb, EntryStep(f, g, ch, sb))
  }

  /** An entry of sbband after subband_quantization_new, given its value v
      before: zero above sblimit for the frame's channels, the codeword
      where the entry is coded, v elsewhere. */
  function Quantised(f: FrameInfo, g: seq<seq<int>>, quantise: (int, int, int, int, int) -> int,
                     ch: int, gr: int, j: int, sb: int, v: int): int
    requires f.Valid() && IsGrid(g, 2, SbLimitMax) && 0 <= ch < 2 && 0 <= sb < SbLimitMax
  {
    if ch < f.nch && sb >= f.sblimit then 0
    else if Coded(f, g, ch, sb) then Codeword(f, g, quantise, ch, gr, j, sb)
    else v
  }

  /** subband_quantization_new: every coded entry gets its codeword, every
      entry of the frame's channels above sblimit becomes 0, and nothing
      else changes. */
  method SubbandQuantization(f: FrameInfo, bitAlloc: array2<int>, sbband: array4<int>,
                             quantise: (int, int, int, int, int) -> int)
    requires f.Valid() && SampleShape(sbband)
    requires bitAlloc.Length0 == 2 && bitAlloc.Length1 == SbLimitMax
    modifies sbband
    ensures forall ch, gr, j, sb :: 0 <= ch < 2 && 0 <= gr < 3 && 0 <= j < ScaleBlock && 0 <= sb < SbLimitMax ==>
      sbband[ch, gr, j, sb] == Quantised(f, Rows(bitAlloc), quantise, ch, gr, j, sb, old(sbband[ch, gr, j, sb]))
  {
    QuantiseGranules(f, bitAlloc, sbband, quantise);
    ZeroAboveSblimit(f, sbband);
  }

  /** The granule and sample loops of the quantiser. */
  method QuantiseGranules(f: FrameInfo, bitAlloc: array2<int>, sbband: array4<int>,
                          quantise: (int, int, int, int, int) -> int)
    requires f.Valid() && SampleShape(sbband)
    requires bitAlloc.Length0 == 2 && bitAlloc.Length1 == SbLimitMax
    modifies sbband
    ensures forall ch, gr, j, sb :: 0 <= ch < 2 && 0 <= gr < 3 && 0 <= j < ScaleBlock && 0 <= sb < SbLimitMax ==>
      sbband[ch, gr, j, sb] ==
        if Coded(f, Rows(bitAlloc), ch, sb) then Codeword(f, Rows(bitAlloc), quantise, ch, gr, j, sb)
        else old(sbband[ch, gr, j, sb])
  {
    ghost var g := Rows(bitAlloc);
    var gr := 0;
    while gr < 3
      invariant 0 <= gr <= 3
      invariant forall c, r, k, b :: 0 <= c < 2 && 0 <= r < 3 && 0 <= k < ScaleBlock && 0 <= b < SbLimitMax ==>
        sbband[c, r, k, b] ==
          if r < gr && Coded(f, g, c, b) then Codeword(f, g, quantise, c, r, k, b) else old(sbband[c, r, k, b])
    {
      var j := 0;
      while j < ScaleBlock
        invariant 0 <= j <= ScaleBlock
        invariant forall c, r, k, b :: 0 <= c < 2 && 0 <= r < 3 && 0 <= k < ScaleBlock && 0 <= b < SbLimitMax ==>
          sbband[c, r, k, b] ==
            if (r < gr || (r == gr && k < j)) && Coded(f, g, c, b) then Codeword(f, g, quantise, c, r, k, b)
            else old(sbband[c, r, k, b])
      {
        QuantiseSample(f, bitAlloc, sbband, quantise, gr, j);
        j := j + 1;
      }
      gr := gr + 1;
    }
  }

  /** The subband and channel loops of the quantiser at sample j of
      granule gr. */
  method QuantiseSample(f: FrameInfo, bitAlloc: array2<int>, sbband: array4<int>,
                        quantise: (int, int, int, int, int) -> int, gr: int, j: int)
    requires f.Valid() && SampleShape(sbband) && 0 <= gr < 3 && 0 <= j < ScaleBlock
    requires bitAlloc.Length0 == 2 && bitAlloc.Length1 == SbLimitMax
    modifies sbband
    ensures forall c, r, k, b :: 0 <= c < 2 && 0 <= r < 3 && 0 <= k < ScaleBlock && 0 <= b < SbLimitMax ==>
      sbband[c, r, k, b] ==
        if r == gr && k == j && Coded(f, Rows(bitAlloc), c, b) then Codeword(f, Rows(bitAlloc), quantise, c, r, k, b)
        else old(sbband[c, r, k, b])
  {
    ghost var g := Rows(bitAlloc);
    var sb := 0;
    while sb < f.sblimit
      invariant 0 <= sb <= f.sblimit
      invariant forall c, r, k, b :: 0 <= c < 2 && 0 <= r < 3 && 0 <= k < ScaleBlock && 0 <= b < SbLimitMax ==>
        sbband[c, r, k, b] ==
          if r == gr && k == j && b < sb && Coded(f, g, c, b) then Codeword(f, g, quantise, c, r, k, b)
          else old(sbband[c, r, k, b])
    {
      var span := if sb < f.jsbound then f.nch else 1;
      var ch := 0;
      while ch < span
        invariant 0 <= ch <= span
        invariant forall c, r, k, b :: 0 <= c < 2 && 0 <= r < 3 && 0 <= k < ScaleBlock && 0 <= b < SbLimitMax ==>
          sbband[c, r, k, b] ==
            if r == gr && k == j && (b < sb || (b == sb && c < ch)) && Coded(f, g, c, b)
            then Codeword(f, g, quantise, c, r, k, b)
            else old(sbband[c, r, k, b])
      {
        if bitAlloc[ch, sb] != 0 {
          var src := if f.nch == 2 && sb >= f.jsbound then JointSamples else ch;
          var q := if ValidAlloc(bitAlloc[ch, sb]) then StepIndex(LineOf(f, sb), bitAlloc[ch, sb]) else 0;
          sbband[ch, gr, j, sb] := quantise(src, gr, j, sb, q);
        }
        ch := ch + 1;
      }
      sb := sb + 1;
    }
  }

  /** The closing loops of subband_quantization_new: every sample of the
      frame's channels above sblimit becomes 0. */
  method ZeroAboveSblimit(f: FrameInfo, sbband: array4<int>)
    requires f.Valid() && SampleShape(sbband)
    modifies sbband
    ensures forall c, r, k, b :: 0 <= c < 2 && 0 <= r < 3 && 0 <= k < ScaleBlock && 0 <= b < SbLimitMax ==>
      sbband[c, r, k, b] == if c < f.nch && b >= f.sblimit then 0 else old(sbband[c, r, k, b])
  {
    var ch := 0;
    while ch < f.nch
      invariant 0 <= ch <= f.nch
      invariant forall c, r, k, b :: 0 <= c < 2 && 0 <= r < 3 && 0 <= k < ScaleBlock && 0 <= b < SbLimitMax ==>
        sbband[c, r, k, b] == if c < ch && b >= f.sblimit then 0 else old(sbband[c, r, k, b])
    {
      var gr := 0;
      while gr < 3
        invariant 0 <= gr <= 3
        invariant forall c, r, k, b :: 0 <= c < 2 && 0 <= r < 3 && 0 <= k < ScaleBlock && 0 <= b < SbLimitMax ==>
          sbband[c, r, k, b] ==
            if (c < ch || (c == ch && r < gr)) && b >= f.sblimit then 0 else old(sbband[c, r, k, b])
      {
        ZeroGranule(f, sbband, ch, gr);
        gr := gr + 1;
      }
      ch := ch + 1;
    }
  }

  /** The sample and subband loops of the zeroing for one channel and
      granule. */
  method ZeroGranule(f: FrameInfo, sbband: array4<int>, ch: int, gr: int)
    requires f.Valid() && SampleShape(sbband) && 0 <= ch < 2 && 0 <= gr < 3
    modifies sbband
    ensures forall c, r, k, b :: 0 <= c < 2 && 0 <= r < 3 && 0 <= k < ScaleBlock && 0 <= b < SbLimitMax ==>
      sbband[c, r, k, b] == if c == ch && r == gr && b >= f.sblimit then 0 else old(sbband[c, r, k, b])
  {
    var s := 0;
    while s < ScaleBlock
      invariant 0 <= s <= ScaleBlock
      invariant forall c, r, k, b :: 0 <= c < 2 && 0 <= r < 3 && 0 <= k < ScaleBlock && 0 <= b < SbLimitMax ==>
        sbband[c, r, k, b] == if c == ch && r == gr && k < s && b >= f.sblimit then 0 else old(sbband[c, r, k, b])
    {
      var j := f.sblimit;
      while j < SbLimitMax
        invariant f.sblimit <= j <= SbLimitMax
        invariant forall c, r, k, b :: 0 <= c < 2 && 0 <= r < 3 && 0 <= k < ScaleBlock && 0 <= b < SbLimitMax ==>
          sbband[c, r, k, b] ==
            if c == ch && r == gr && (k < s || (k == s && b < j)) && b >= f.sblimit then 0 else old(sbband[c, r, k, b])
      {
        sbband[ch, gr, s, j] := 0;
        j := j + 1;
      }
      s := s + 1;
    }
  }

  // ---------------------------------------------------------------------
  // The writer reads only what the quantiser codes

  /** Two sample arrays that agree on every coded entry. */
  predicate AgreeOnCoded(f: FrameInfo, g: seq<seq<int>>, s: array4<int>, t: array4<int>)
    requires IsGrid(g, 2, SbLimitMax) && SampleShape(s) && SampleShape(t)
    reads s, t
  {
    forall ch, gr, j, sb ::
      0 <= ch < 2 && 0 <= gr < 3 && 0 <= j < ScaleBlock && 0 <= sb < SbLimitMax && Coded(f, g, ch, sb) ==>
        s[ch, gr, j, sb] == t[ch, gr, j, sb]
  }

  lemma ColumnAgree(f: FrameInfo, g: seq<seq<int>>, s: array4<int>, t: array4<int>, gr: int, j: int, sb: int)
    requires f.Valid() && IsGrid(g, 2, SbLimitMax) && SampleShape(s) && SampleShape(t)
    requires 0 <= gr < 3 && 0 <= j <= ScaleBlock - 3 && 0 <= sb < f.sblimit
    requires AgreeOnCoded(f, g, s, t)
    ensures ColumnFields(f, g, s, gr, j, sb) == ColumnFields(f, g, t, gr, j, sb)
  {
    forall ch | 0 <= ch < ChannelsIn(f.nch, f.jsbound, sb) && g[ch][sb] != 0
      ensures s[ch, gr, j, sb] == t[ch, gr, j, sb] && s[ch, gr, j + 1, sb] == t[ch, gr, j + 1, sb]
        && s[ch, gr, j + 2, sb] == t[ch, gr, j + 2, sb]
    {
      assert Coded(f, g, ch, sb);
    }
  }

  lemma {:induction false} BlockAgree(f: FrameInfo, g: seq<seq<int>>, s: array4<int>, t: array4<int>,
                                      gr: int, j: int, n: int)
    requires f.Valid() && IsGrid(g, 2, SbLimitMax) && SampleShape(s) && SampleShape(t)
    requires 0 <= gr < 3 && 0 <= j <= ScaleBlock - 3 && 0 <= n <= f.sblimit
    requires AgreeOnCoded(f, g, s, t)
    ensures BlockFields(f, g, s, gr, j, n) == BlockFields(f, g, t, gr, j, n)
  {
    if n > 0 {
      BlockAgree(f, g, s, t, gr, j, n - 1);
      ColumnAgree(f, g, s, t, gr, j, n - 1);
    }
  }

  lemma {:induction false} GranuleAgree(f: FrameInfo, g: seq<seq<int>>, s: array4<int>, t: array4<int>, gr: int, k: int)
    requires f.Valid() && IsGrid(g, 2, SbLimitMax) && SampleShape(s) && SampleShape(t)
    requires 0 <= gr < 3 && 0 <= k <= TriplesPerGranule
    requires AgreeOnCoded(f, g, s, t)
    ensures GranuleFields(f, g, s, gr, k) == GranuleFields(f, g, t, gr, k)
  {
    if k > 0 {
      GranuleAgree(f, g, s, t, gr, k - 1);
      BlockAgree(f, g, s, t, gr, 3 * (k - 1), f.sblimit);
    }
  }

  /** write_samples_new reads only coded entries: two sample arrays that
      agree on them give the same codewords. */
  lemma {:induction false} SamplesAgree(f: FrameInfo, g: seq<seq<int>>, s: array4<int>, t: array4<int>, n: int)
    requires f.Valid() && IsGrid(g, 2, SbLimitMax) && SampleShape(s) && SampleShape(t) && 0 <= n <= 3
    requires AgreeOnCoded(f, g, s, t)
    ensures SampleFields(f, g, s, n) == SampleFields(f, g, t, n)
  {
    if n > 0 {
      SamplesAgree(f, g, s, t, n - 1);
      GranuleAgree(f, g, s, t, n - 1, TriplesPerGranule);
    }
  }

  /** After subband_quantization_new the samples write_samples_new emits
      depend only on the allocation and the quantised values, not on what
      sbband held before: any two arrays the quantiser has filled give the
      same codewords. */
  lemma QuantisedSamplesDetermined(f: FrameInfo, g: seq<seq<int>>, quantise: (int, int, int, int, int) -> int,
                                   s: array4<int>, t: array4<int>)
    requires f.Valid() && IsGrid(g, 2, SbLimitMax) && SampleShape(s) && SampleShape(t)
    requires forall ch, gr, j, sb :: 0 <= ch < 2 && 0 <= gr < 3 && 0 <= j < ScaleBlock && 0 <= sb < SbLimitMax ==>
      s[ch, gr, j, sb] == Quantised(f, g, quantise, ch, gr, j, sb, s[ch, gr, j, sb])
      && t[ch, gr, j, sb] == Quantised(f, g, quantise, ch, gr, j, sb, t[ch, gr, j, sb])
    ensures SampleFields(f, g, s, 3) == SampleFields(f, g, t, 3)
  {
    SamplesAgree(f, g, s, t, 3);
  }
}
