/** The scalefactor engine: the index search, the per-subband minimum index
    and the Layer II scalefactor transmission pattern (ISO/IEC 11172-3
    C.1.5.2.5, Table C.4). Arrays are indexed [ch, gr, sb] and
    [ch, gr, sample, sb] as in the C arrays. */
module ScaleFactors {
  import opened Tables

  /** Number of entries of the scalefactor table. */
  const NumScalefactors := 64

  /** 1E-20, the value find_sf_max stores above sblimit. */
  const Floor: real := 0.00000000000000000001

  function Abs(x: real): real
  {
    if x < 0.0 then -x else x
  }

  /** A table whose entries never increase, as scalefactor[] (2 / 2^(n/3)). */
  predicate Descending(table: seq<real>)
  {
    forall i, j :: 0 <= i <= j < |table| ==> table[j] <= table[i]
  }

  // ---------------------------------------------------------------------
  // Peak of a block of twelve samples

  /** The largest magnitude among s[0..n]. */
  function MaxAbs(s: seq<real>, n: nat): (m: real)
    requires 0 < n <= |s|
    ensures forall j :: 0 <= j < n ==> Abs(s[j]) <= m
    ensures exists j :: 0 <= j < n && m == Abs(s[j])
  {
    if n == 1 then Abs(s[0])
    else
      var m' := MaxAbs(s, n - 1);
      if Abs(s[n - 1]) > m' then Abs(s[n - 1]) else m'
  }

  /** The maximum scan of scalefactor_calc_new: start from the last sample
      and walk down, keeping the larger magnitude. */
  method Peak(s: seq<real>) returns (curMax: real)
    requires |s| == ScaleBlock
    ensures curMax == MaxAbs(s, ScaleBlock)
  {
    curMax := Abs(s[ScaleBlock - 1]);
    var j := ScaleBlock - 1;
    while j != 0
      invariant 0 <= j <= ScaleBlock - 1
      invariant forall i :: j <= i < ScaleBlock ==> Abs(s[i]) <= curMax
      invariant exists i :: j <= i < ScaleBlock && curMax == Abs(s[i])
    {
      j := j - 1;
      var temp := Abs(s[j]);
      if temp > curMax {
        curMax := temp;
      }
    }
    MaxAbsIsMaximum(s, ScaleBlock, curMax);
  }

  /** A bound of all magnitudes that is one of them is the maximum. */
  lemma MaxAbsIsMaximum(s: seq<real>, n: nat, m: real)
    requires 0 < n <= |s|
    requires forall j :: 0 <= j < n ==> Abs(s[j]) <= m
    requires exists j :: 0 <= j < n && m == Abs(s[j])
    ensures m == MaxAbs(s, n)
  {
  }

  // ---------------------------------------------------------------------
  // Scalefactor index search

  /** Linear reference for the search: scanning down from entry i, the first
      index whose entry is at least x, or 0 when there is none. */
  function CoveringIndex(table: seq<real>, x: real, i: int): (r: int)
    requires 0 <= i < |table|
    ensures 0 <= r <= i
    ensures r == 0 || x <= table[r]
    ensures forall j :: r < j <= i ==> table[j] < x
    decreases i
  {
    if i == 0 || x <= table[i] then i else CoveringIndex(table, x, i - 1)
  }

  /** The scalefactor index of a peak: the largest i with x <= table[i]
      (the smallest scalefactor still covering the peak), or 0 when the
      peak exceeds every entry. */
  function SfIndex(table: seq<real>, x: real): (r: int)
    requires |table| == NumScalefactors
    ensures 0 <= r < NumScalefactors
  {
    CoveringIndex(table, x, NumScalefactors - 1)
  }

  /** On a descending table, x fits below entry s exactly when s is at most
      the covering index. */
  lemma CompareAt(table: seq<real>, x: real, s: int)
    requires |table| == NumScalefactors && Descending(table)
    requires 1 <= s < NumScalefactors
    ensures x <= table[s] <==> s <= SfIndex(table, x)
  {
    var k := SfIndex(table, x);
    if s <= k {
      assert table[k] <= table[s];
    }
  }

  /** The binary search of scalefactor_calc_new: five halving steps from
      index 32, then one correction step down. */
  method ScalefactorSearch(table: seq<real>, curMax: real) returns (scaleFac: int)
    requires |table| == NumScalefactors && Descending(table)
    ensures 0 <= scaleFac < NumScalefactors
    ensures scaleFac == SfIndex(table, curMax)
    ensures curMax <= table[0] ==> curMax <= table[scaleFac]
    ensures forall j :: scaleFac < j < NumScalefactors ==> table[j] < curMax
    ensures curMax <= table[NumScalefactors - 1] ==> scaleFac == NumScalefactors - 1
  {
    ghost var k := SfIndex(table, curMax);
    var l := 16;
    scaleFac := 32;
    while l != 0
      invariant l == 16 || l == 8 || l == 4 || l == 2 || l == 1 || l == 0
      invariant l > 0 ==> 2 * l <= scaleFac <= 64 - 2 * l && scaleFac - 2 * l <= k <= scaleFac + 2 * l - 1
      invariant l == 0 ==> 1 <= scaleFac <= 63 && scaleFac - 1 <= k <= scaleFac
      decreases l
    {
      CompareAt(table, curMax, scaleFac);
      if curMax <= table[scaleFac] {
        scaleFac := scaleFac + l;
      } else {
        scaleFac := scaleFac - l;
      }
      l := l / 2;
    }
    CompareAt(table, curMax, scaleFac);
    if curMax > table[scaleFac] {
      scaleFac := scaleFac - 1;
    }
    if curMax <= table[0] && k == 0 {
      assert curMax <= table[scaleFac];
    }
  }

  /** The samples sb_sample[ch][gr][0..12][sb] of one scalefactor block. */
  function Block(sbSample: array4<real>, ch: int, gr: int, sb: int): (s: seq<real>)
    reads sbSample
    requires 0 <= ch < sbSample.Length0 && 0 <= gr < sbSample.Length1 && 0 <= sb < sbSample.Length3
    requires sbSample.Length2 == ScaleBlock
    ensures |s| == ScaleBlock
  {
    seq(ScaleBlock, j requires 0 <= j < ScaleBlock reads sbSample => sbSample[ch, gr, j, sb])
  }

  /** The scalefactor index of block (ch, gr, sb). */
  ghost function Expected(sbSample: array4<real>, table: seq<real>, ch: int, gr: int, sb: int): int
    reads sbSample
    requires sbSample.Length0 == 2 && sbSample.Length1 == 3 && sbSample.Length2 == ScaleBlock
    requires sbSample.Length3 == SbLimitMax && |table| == NumScalefactors
    requires 0 <= ch < 2 && 0 <= gr < 3 && 0 <= sb < SbLimitMax
  {
    SfIndex(table, MaxAbs(Block(sbSample, ch, gr, sb), ScaleBlock))
  }

  /** One granule of one channel, subbands sblimit - 1 down to 0. */
  method CalcGranule(sbSample: array4<real>, sfIndex: array3<int>, ch: int, gr: int, sblimit: int,
                     table: seq<real>)
    requires sbSample.Length0 == 2 && sbSample.Length1 == 3 && sbSample.Length2 == ScaleBlock
    requires sbSample.Length3 == SbLimitMax
    requires sfIndex.Length0 == 2 && sfIndex.Length1 == 3 && sfIndex.Length2 == SbLimitMax
    requires 0 <= ch < 2 && 0 <= gr < 3 && 0 <= sblimit <= SbLimitMax
    requires |table| == NumScalefactors && Descending(table)
    modifies sfIndex
    ensures forall sb :: 0 <= sb < sblimit ==> sfIndex[ch, gr, sb] == Expected(sbSample, table, ch, gr, sb)
    ensures forall c, g, b :: (0 <= c < 2 && 0 <= g < 3 && 0 <= b < SbLimitMax &&
      (c != ch || g != gr || b >= sblimit)) ==> sfIndex[c, g, b] == old(sfIndex[c, g, b])
  {
    var sb := sblimit;
    while sb != 0
      invariant 0 <= sb <= sblimit
      invariant forall b :: sb <= b < sblimit ==> sfIndex[ch, gr, b] == Expected(sbSample, table, ch, gr, b)
      invariant forall c, g, b :: (0 <= c < 2 && 0 <= g < 3 && 0 <= b < SbLimitMax &&
        (c != ch || g != gr || b < sb || b >= sblimit)) ==> sfIndex[c, g, b] == old(sfIndex[c, g, b])
    {
      sb := sb - 1;
      var curMax := Peak(Block(sbSample, ch, gr, sb));
      var scaleFac := ScalefactorSearch(table, curMax);
      sfIndex[ch, gr, sb] := scaleFac;
    }
  }

  /** scalefactor_calc_new: the scalefactor index of every block below
      sblimit of the nch coded channels; everything else is left alone. */
  method ScalefactorCalc(sbSample: array4<real>, sfIndex: array3<int>, nch: int, sblimit: int,
                         table: seq<real>)
    requires sbSample.Length0 == 2 && sbSample.Length1 == 3 && sbSample.Length2 == ScaleBlock
    requires sbSample.Length3 == SbLimitMax
    requires sfIndex.Length0 == 2 && sfIndex.Length1 == 3 && sfIndex.Length2 == SbLimitMax
    requires 1 <= nch <= 2 && 0 <= sblimit <= SbLimitMax
    requires |table| == NumScalefactors && Descending(table)
    modifies sfIndex
    ensures forall ch, gr, sb :: 0 <= ch < nch && 0 <= gr < 3 && 0 <= sb < sblimit ==>
      sfIndex[ch, gr, sb] == SfIndex(table, MaxAbs(Block(sbSample, ch, gr, sb), ScaleBlock))
    ensures forall ch, gr, sb :: (0 <= ch < 2 && 0 <= gr < 3 && 0 <= sb < SbLimitMax &&
      (ch >= nch || sb >= sblimit)) ==> sfIndex[ch, gr, sb] == old(sfIndex[ch, gr, sb])
  {
    var ch := nch;
    while ch != 0
      invariant 0 <= ch <= nch
      invariant forall c, g, b :: ch <= c < nch && 0 <= g < 3 && 0 <= b < sblimit ==>
        sfIndex[c, g, b] == Expected(sbSample, table, c, g, b)
      invariant forall c, g, b :: (0 <= c < 2 && 0 <= g < 3 && 0 <= b < SbLimitMax &&
        (c < ch || c >= nch || b >= sblimit)) ==> sfIndex[c, g, b] == old(sfIndex[c, g, b])
    {
      ch := ch - 1;
      var gr := 3;
      while gr != 0
        invariant 0 <= gr <= 3
        invariant forall c, g, b :: ch < c < nch && 0 <= g < 3 && 0 <= b < sblimit ==>
          sfIndex[c, g, b] == Expected(sbSample, table, c, g, b)
        invariant forall g, b :: gr <= g < 3 && 0 <= b < sblimit ==>
          sfIndex[ch, g, b] == Expected(sbSample, table, ch, g, b)
        invariant forall c, g, b :: (0 <= c < 2 && 0 <= g < 3 && 0 <= b < SbLimitMax &&
          (c < ch || c >= nch || b >= sblimit || (c == ch && g < gr))) ==>
          sfIndex[c, g, b] == old(sfIndex[c, g, b])
      {
        gr := gr - 1;
        CalcGranule(sbSample, sfIndex, ch, gr, sblimit, table);
      }
    }
  }

  // ---------------------------------------------------------------------
  // Smallest index per subband (find_sf_max)

  /** The smallest of the three granules' indices, scanning gr = 1, 2 and
      replacing only on a strictly smaller value. */
  function Lowest(g0: int, g1: int, g2: int): (r: int)
    ensures r <= g0 && r <= g1 && r <= g2
    ensures r == g0 || r == g1 || r == g2
  {
    var m := if g0 > g1 then g1 else g0;
    if m > g2 then g2 else m
  }

  /** find_sf_max: for every coded channel and subband below sblimit, the
      scalefactor value of its smallest index (the largest scalefactor);
      above sblimit both rows get the floor value 1E-20. */
  method FindSfMax(sfIndex: array3<int>, nch: int, sblimit: int, multiple: seq<real>,
                   sfMax: array2<real>)
    requires sfIndex.Length0 == 2 && sfIndex.Length1 == 3 && sfIndex.Length2 == SbLimitMax
    requires sfMax.Length0 == 2 && sfMax.Length1 == SbLimitMax
    requires 1 <= nch <= 2 && 0 <= sblimit <= SbLimitMax
    requires |multiple| == NumScalefactors
    requires forall ch, gr, sb :: 0 <= ch < nch && 0 <= gr < 3 && 0 <= sb < sblimit ==>
      0 <= sfIndex[ch, gr, sb] < NumScalefactors
    modifies sfMax
    ensures forall ch, sb :: 0 <= ch < nch && 0 <= sb < sblimit ==>
      sfMax[ch, sb] == multiple[Lowest(sfIndex[ch, 0, sb], sfIndex[ch, 1, sb], sfIndex[ch, 2, sb])]
    ensures forall ch, sb :: 0 <= ch < 2 && sblimit <= sb < SbLimitMax ==> sfMax[ch, sb] == Floor
    ensures forall ch, sb :: nch <= ch < 2 && 0 <= sb < sblimit ==> sfMax[ch, sb] == old(sfMax[ch, sb])
  {
    var ch := 0;
    while ch < nch
      invariant 0 <= ch <= nch
      invariant forall c, b :: 0 <= c < ch && 0 <= b < sblimit ==>
        sfMax[c, b] == multiple[Lowest(sfIndex[c, 0, b], sfIndex[c, 1, b], sfIndex[c, 2, b])]
      invariant forall c, b :: 0 <= c < 2 && 0 <= b < SbLimitMax && (c >= ch || b >= sblimit) ==>
        sfMax[c, b] == old(sfMax[c, b])
    {
      var sb := 0;
      while sb < sblimit
        invariant 0 <= sb <= sblimit
        invariant forall c, b :: 0 <= c < ch && 0 <= b < sblimit ==>
          sfMax[c, b] == multiple[Lowest(sfIndex[c, 0, b], sfIndex[c, 1, b], sfIndex[c, 2, b])]
        invariant forall b :: 0 <= b < sb ==>
          sfMax[ch, b] == multiple[Lowest(sfIndex[ch, 0, b], sfIndex[ch, 1, b], sfIndex[ch, 2, b])]
        invariant forall c, b :: (0 <= c < 2 && 0 <= b < SbLimitMax &&
          (c > ch || b >= sblimit || (c == ch && b >= sb))) ==> sfMax[c, b] == old(sfMax[c, b])
      {
        var lowest := sfIndex[ch, 0, sb];
        var gr := 1;
        while gr < 3
          invariant 1 <= gr <= 3
          invariant lowest == if gr == 1 then sfIndex[ch, 0, sb] else if gr == 2 then
            (if sfIndex[ch, 0, sb] > sfIndex[ch, 1, sb] then sfIndex[ch, 1, sb] else sfIndex[ch, 0, sb])
            else Lowest(sfIndex[ch, 0, sb], sfIndex[ch, 1, sb], sfIndex[ch, 2, sb])
        {
          if lowest > sfIndex[ch, gr, sb] {
            lowest := sfIndex[ch, gr, sb];
          }
          gr := gr + 1;
        }
        sfMax[ch, sb] := multiple[lowest];
        sb := sb + 1;
      }
      ch := ch + 1;
    }
    var sb := sblimit;
    while sb < SbLimitMax
      invariant sblimit <= sb <= SbLimitMax
      invariant forall c, b :: 0 <= c < nch && 0 <= b < sblimit ==>
        sfMax[c, b] == multiple[Lowest(sfIndex[c, 0, b], sfIndex[c, 1, b], sfIndex[c, 2, b])]
      invariant forall c, b :: 0 <= c < 2 && sblimit <= b < sb ==> sfMax[c, b] == Floor
      invariant forall c, b :: nch <= c < 2 && 0 <= b < sblimit ==> sfMax[c, b] == old(sfMax[c, b])
    {
      sfMax[0, sb] := Floor;
      sfMax[1, sb] := Floor;
      sb := sb + 1;
    }
  }
}

/** Scalefactor select information (ISO/IEC 11172-3 C.1.5.2.5, Table C.4)
    and the scalefactors it leaves to transmit. */
module Transmission {
  import opened Tables

  /** The scalefactor indices of the three granules of one (ch, sb). */
  datatype Triple = Triple(g0: int, g1: int, g2: int)

  /** A select code (scfsi) with the indices after merging. */
  datatype Selection = Selection(scfsi: int, sf: Triple)

  /** The class of a difference between consecutive granule indices. */
  function DiffClass(d: int): (c: int)
    ensures 0 <= c < 5
    ensures c == 0 <==> d <= -3
    ensures c == 1 <==> -3 < d < 0
    ensures c == 2 <==> d == 0
    ensures c == 3 <==> 0 < d < 3
    ensures c == 4 <==> 3 <= d
  {
    if d <= -3 then 0
    else if d > -3 && d < 0 then 1
    else if d == 0 then 2
    else if d > 0 && d < 3 then 3
    else 4
  }

  /** The classes order the differences: a larger difference never falls
      in a lower class, the classes are symmetric about "equal" (class 2),
      and class 2 holds exactly the unchanged indices. */
  lemma DiffClassOrder(d: int, d': int)
    ensures d <= d' ==> DiffClass(d) <= DiffClass(d')
    ensures DiffClass(-d) == 4 - DiffClass(d)
    ensures DiffClass(d) == 2 <==> d == 0
    ensures DiffClass(d) < 2 <==> d < 0
  {
  }

  function Row5(i: int, a0: int, a1: int, a2: int, a3: int, a4: int): int
  {
    if i == 0 then a0 else if i == 1 then a1 else if i == 2 then a2 else if i == 3 then a3 else a4
  }

  /** pattern[class0][class1]: each digit names the granule whose index
      is sent for granules 1, 2 and 3; 0x444 sends the larger scalefactor
      of granules 1 and 3 for all three. */
  function Pattern(c0: int, c1: int): int
    requires 0 <= c0 < 5 && 0 <= c1 < 5
  {
    match c0
    case 0 => Row5(c1, 0x123, 0x122, 0x122, 0x133, 0x123)
    case 1 => Row5(c1, 0x113, 0x111, 0x111, 0x444, 0x113)
    case 2 => Row5(c1, 0x111, 0x111, 0x111, 0x333, 0x113)
    case 3 => Row5(c1, 0x222, 0x222, 0x222, 0x333, 0x123)
    case _ => Row5(c1, 0x123, 0x122, 0x122, 0x133, 0x123)
  }

  /** The case of sf_transmission_pattern's switch for one triple: its select
      code and the indices after merging. */
  function Transmit(t: Triple): (r: Selection)
  {
    var p := Pattern(DiffClass(t.g0 - t.g1), DiffClass(t.g1 - t.g2));
    if p == 0x123 then Selection(0, t)
    else if p == 0x122 then Selection(3, Triple(t.g0, t.g1, t.g1))
    else if p == 0x133 then Selection(3, Triple(t.g0, t.g2, t.g2))
    else if p == 0x113 then Selection(1, Triple(t.g0, t.g0, t.g2))
    else if p == 0x111 then Selection(2, Triple(t.g0, t.g0, t.g0))
    else if p == 0x222 then Selection(2, Triple(t.g1, t.g1, t.g1))
    else if p == 0x333 then Selection(2, Triple(t.g2, t.g2, t.g2))
    else if p == 0x444 then
      var g0 := if t.g0 > t.g2 then t.g2 else t.g0;
      Selection(2, Triple(g0, g0, g0))
    else assert false; Selection(0, t)
  }

  /** What each select code means for the merged triple: code 0 keeps all
      three, code 1 repeats granule 1 in granule 2, code 3 repeats granule 2
      in granule 3, code 2 uses one index for all three (the smaller of
      granules 1 and 3 when both differ from granule 2 in opposite
      directions, pattern 0x444). */
  lemma SelectCodes(t: Triple)
    ensures var r := Transmit(t);
      && 0 <= r.scfsi < 4
      && (r.scfsi == 0 ==> r.sf == t)
      && (r.scfsi == 1 ==> r.sf == Triple(t.g0, t.g0, t.g2))
      && (r.scfsi == 3 ==> r.sf.g0 == t.g0 && r.sf.g1 == r.sf.g2)
      && (r.scfsi == 2 ==> r.sf.g0 == r.sf.g1 == r.sf.g2)
      && (r.scfsi == 2 && t.g0 < t.g1 && t.g2 < t.g1 ==> r.sf.g0 == if t.g0 > t.g2 then t.g2 else t.g0)
  {
  }

  /** Merging never lowers a granule's scalefactor: every merged index is at
      most the granule's own index (a smaller index is a larger scalefactor),
      so no granule's samples exceed the scalefactor sent for them. */
  lemma MergeKeepsScaleCovering(t: Triple)
    ensures var m := Transmit(t).sf;
      m.g0 <= t.g0 && m.g1 <= t.g1 && m.g2 <= t.g2
  {
  }

  /** The merged index of each granule is one of the three original indices. */
  lemma MergeFromOriginals(t: Triple)
    ensures var m := Transmit(t).sf;
      && (m.g0 == t.g0 || m.g0 == t.g1 || m.g0 == t.g2)
      && (m.g1 == t.g0 || m.g1 == t.g1 || m.g1 == t.g2)
      && (m.g2 == t.g0 || m.g2 == t.g1 || m.g2 == t.g2)
  {
  }

  /** The indices write_scalefactors sends for a select code. */
  function SentIndices(scfsi: int, t: Triple): (s: seq<int>)
    requires 0 <= scfsi < 4
    ensures |s| == SfsPerScfsi(scfsi)
  {
    match scfsi
    case 0 => [t.g0, t.g1, t.g2]
    case 1 => [t.g0, t.g2]
    case 3 => [t.g0, t.g2]
    case _ => [t.g0]
  }

  /** The decoder's reading of the sent indices (ISO/IEC 11172-3 2.4.2.7,
      scfsi): 1 reuses the first for granules 1 and 2, 3 reuses the second
      for granules 2 and 3, 2 reuses the only one for all three. */
  function Reconstruct(scfsi: int, s: seq<int>): Triple
    requires 0 <= scfsi < 4 && |s| == SfsPerScfsi(scfsi)
  {
    match scfsi
    case 0 => Triple(s[0], s[1], s[2])
    case 1 => Triple(s[0], s[0], s[1])
    case 3 => Triple(s[0], s[1], s[1])
    case _ => Triple(s[0], s[0], s[0])
  }

  /** A decoder rebuilds exactly the merged triple from what is sent. */
  lemma TransmitRoundTrip(t: Triple)
    ensures var r := Transmit(t);
      0 <= r.scfsi < 4 && Reconstruct(r.scfsi, SentIndices(r.scfsi, r.sf)) == r.sf
  {
    SelectCodes(t);
  }

  function TripleAt(sfIndex: array3<int>, ch: int, sb: int): Triple
    reads sfIndex
    requires sfIndex.Length0 == 2 && sfIndex.Length1 == 3 && sfIndex.Length2 == SbLimitMax
    requires 0 <= ch < 2 && 0 <= sb < SbLimitMax
  {
    Triple(sfIndex[ch, 0, sb], sfIndex[ch, 1, sb], sfIndex[ch, 2, sb])
  }

  /** sf_transmission_pattern: for every coded channel and subband below
      sblimit, records the select code and merges the three indices in
      place; all other entries are left alone. */
  method SfTransmissionPattern(sfIndex: array3<int>, sfSelect: array2<int>, nch: int, sblimit: int)
    requires sfIndex.Length0 == 2 && sfIndex.Length1 == 3 && sfIndex.Length2 == SbLimitMax
    requires sfSelect.Length0 == 2 && sfSelect.Length1 == SbLimitMax
    requires 1 <= nch <= 2 && 0 <= sblimit <= SbLimitMax
    modifies sfIndex, sfSelect
    ensures forall k, i :: 0 <= k < nch && 0 <= i < sblimit ==>
      Transmit(old(TripleAt(sfIndex, k, i))) == Selection(sfSelect[k, i], TripleAt(sfIndex, k, i))
    ensures forall k, i :: (0 <= k < 2 && 0 <= i < SbLimitMax && (k >= nch || i >= sblimit)) ==>
      TripleAt(sfIndex, k, i) == old(TripleAt(sfIndex, k, i)) && sfSelect[k, i] == old(sfSelect[k, i])
  {
    var k := 0;
    while k < nch
      invariant 0 <= k <= nch
      invariant forall c, b :: 0 <= c < k && 0 <= b < sblimit ==>
        Transmit(old(TripleAt(sfIndex, c, b))) == Selection(sfSelect[c, b], TripleAt(sfIndex, c, b))
      invariant forall c, b :: (0 <= c < 2 && 0 <= b < SbLimitMax && (c >= k || b >= sblimit)) ==>
        TripleAt(sfIndex, c, b) == old(TripleAt(sfIndex, c, b)) && sfSelect[c, b] == old(sfSelect[c, b])
    {
      var i := 0;
      while i < sblimit
        invariant 0 <= i <= sblimit
        invariant forall c, b :: 0 <= c < k && 0 <= b < sblimit ==>
          Transmit(old(TripleAt(sfIndex, c, b))) == Selection(sfSelect[c, b], TripleAt(sfIndex, c, b))
        invariant forall b :: 0 <= b < i ==>
          Transmit(old(TripleAt(sfIndex, k, b))) == Selection(sfSelect[k, b], TripleAt(sfIndex, k, b))
        invariant forall c, b :: (0 <= c < 2 && 0 <= b < SbLimitMax && (c > k || b >= sblimit || (c == k && b >= i))) ==>
          TripleAt(sfIndex, c, b) == old(TripleAt(sfIndex, c, b)) && sfSelect[c, b] == old(sfSelect[c, b])
      {
        MergeTriple(sfIndex, sfSelect, k, i);
        i := i + 1;
      }
      k := k + 1;
    }
  }

  /** The body of sf_transmission_pattern for one (ch, sb). */
  method MergeTriple(sfIndex: array3<int>, sfSelect: array2<int>, k: int, i: int)
    requires sfIndex.Length0 == 2 && sfIndex.Length1 == 3 && sfIndex.Length2 == SbLimitMax
    requires sfSelect.Length0 == 2 && sfSelect.Length1 == SbLimitMax
    requires 0 <= k < 2 && 0 <= i < SbLimitMax
    modifies sfIndex, sfSelect
    ensures Transmit(old(TripleAt(sfIndex, k, i))) == Selection(sfSelect[k, i], TripleAt(sfIndex, k, i))
    ensures forall c, g, b :: (0 <= c < 2 && 0 <= g < 3 && 0 <= b < SbLimitMax && (c != k || b != i)) ==>
      sfIndex[c, g, b] == old(sfIndex[c, g, b])
    ensures forall c, b :: (0 <= c < 2 && 0 <= b < SbLimitMax && (c != k || b != i)) ==>
      sfSelect[c, b] == old(sfSelect[c, b])
  {
    var dscf0 := sfIndex[k, 0, i] - sfIndex[k, 1, i];
    var dscf1 := sfIndex[k, 1, i] - sfIndex[k, 2, i];
    var p := Pattern(DiffClass(dscf0), DiffClass(dscf1));
    if p == 0x123 {
      sfSelect[k, i] := 0;
    } else if p == 0x122 {
      sfSelect[k, i] := 3;
      sfIndex[k, 2, i] := sfIndex[k, 1, i];
    } else if p == 0x133 {
      sfSelect[k, i] := 3;
      sfIndex[k, 1, i] := sfIndex[k, 2, i];
    } else if p == 0x113 {
      sfSelect[k, i] := 1;
      sfIndex[k, 1, i] := sfIndex[k, 0, i];
    } else if p == 0x111 {
      sfSelect[k, i] := 2;
      sfIndex[k, 2, i] := sfIndex[k, 0, i];
      sfIndex[k, 1, i] := sfIndex[k, 2, i];
    } else if p == 0x222 {
      sfSelect[k, i] := 2;
      sfIndex[k, 2, i] := sfIndex[k, 1, i];
      sfIndex[k, 0, i] := sfIndex[k, 2, i];
    } else if p == 0x333 {
      sfSelect[k, i] := 2;
      sfIndex[k, 1, i] := sfIndex[k, 2, i];
      sfIndex[k, 0, i] := sfIndex[k, 1, i];
    } else if p == 0x444 {
      sfSelect[k, i] := 2;
      if sfIndex[k, 0, i] > sfIndex[k, 2, i] {
        sfIndex[k, 0, i] := sfIndex[k, 2, i];
      }
      sfIndex[k, 2, i] := sfIndex[k, 0, i];
      sfIndex[k, 1, i] := sfIndex[k, 2, i];
    }
  }
}
