/** maxmnr_new and VBR_maxmnr_new: the next entry the greedy allocators
    raise is the open one with the smallest mask-to-noise ratio, the first
    such entry in channel-major order. */
module MinimumMnr {
  import opened Tables

  /** The starting value of `small`: an entry whose MNR reaches it is never
      picked. */
  const MnrCeiling: real := 999999.0

  /** used[ch][sb] == Closed: the entry may not be raised again. */
  const Closed := 2

  /** mnr[2][SBLIMIT] and used[2][SBLIMIT]. */
  predicate Shaped(mnr: seq<seq<real>>, used: seq<seq<int>>)
  {
    && |mnr| == 2 && |used| == 2
    && (forall ch :: 0 <= ch < 2 ==> |mnr[ch]| == SbLimitMax && |used[ch]| == SbLimitMax)
  }

  /** The scan order of maxmnr_new: channel by channel, subband by subband. */
  predicate Before(ch: int, sb: int, ch': int, sb': int)
  {
    ch < ch' || (ch == ch' && sb < sb')
  }

  /** (ch, sb) is the entry maxmnr_new picks: open, below the ceiling, no
      open entry has a smaller MNR and every open entry scanned before it
      has a larger one. */
  predicate IsMinimum(mnr: seq<seq<real>>, used: seq<seq<int>>, nch: int, sblimit: int, ch: int, sb: int)
    requires Shaped(mnr, used) && 0 <= nch <= 2 && 0 <= sblimit <= SbLimitMax
  {
    && 0 <= ch < nch && 0 <= sb < sblimit
    && used[ch][sb] != Closed && mnr[ch][sb] < MnrCeiling
    && (forall c, b :: 0 <= c < nch && 0 <= b < sblimit && used[c][b] != Closed ==> mnr[ch][sb] <= mnr[c][b])
    && (forall c, b :: 0 <= c < nch && 0 <= b < sblimit && used[c][b] != Closed && Before(c, b, ch, sb) ==>
          mnr[ch][sb] < mnr[c][b])
  }

  /** No entry maxmnr_new could pick: every entry is closed or at the
      ceiling. */
  predicate NoneOpen(mnr: seq<seq<real>>, used: seq<seq<int>>, nch: int, sblimit: int)
    requires Shaped(mnr, used) && 0 <= nch <= 2 && 0 <= sblimit <= SbLimitMax
  {
    forall c, b :: 0 <= c < nch && 0 <= b < sblimit ==> used[c][b] == Closed || mnr[c][b] >= MnrCeiling
  }

  /** The pick is unique: two entries that are both the minimum are the
      same entry. */
  lemma MinimumUnique(mnr: seq<seq<real>>, used: seq<seq<int>>, nch: int, sblimit: int,
                      ch: int, sb: int, ch': int, sb': int)
    requires Shaped(mnr, used) && 0 <= nch <= 2 && 0 <= sblimit <= SbLimitMax
    requires IsMinimum(mnr, used, nch, sblimit, ch, sb) && IsMinimum(mnr, used, nch, sblimit, ch', sb')
    ensures ch == ch' && sb == sb'
  {
  }

  /** Either some entry is the minimum or none is open, never both. */
  lemma MinimumOrNone(mnr: seq<seq<real>>, used: seq<seq<int>>, nch: int, sblimit: int, ch: int, sb: int)
    requires Shaped(mnr, used) && 0 <= nch <= 2 && 0 <= sblimit <= SbLimitMax
    requires IsMinimum(mnr, used, nch, sblimit, ch, sb)
    ensures !NoneOpen(mnr, used, nch, sblimit)
  {
  }

  /** maxmnr_new: the open entry with the smallest MNR below the ceiling,
      the first in channel-major order on a tie; (-1, -1) when there is
      none. */
  method MaxMnr(mnr: seq<seq<real>>, used: seq<seq<int>>, sblimit: int, nch: int) returns (minSb: int, minCh: int)
    requires Shaped(mnr, used) && 0 <= nch <= 2 && 0 <= sblimit <= SbLimitMax
    ensures minSb == -1 <==> minCh == -1
    ensures minSb == -1 ==> NoneOpen(mnr, used, nch, sblimit)
    ensures minSb != -1 ==> IsMinimum(mnr, used, nch, sblimit, minCh, minSb)
  {
    var small := MnrCeiling;
    minSb, minCh := -1, -1;
    var ch := 0;
    while ch < nch
      invariant 0 <= ch <= nch
      invariant Scanned(mnr, used, sblimit, small, minCh, minSb, ch, 0)
    {
      small, minSb, minCh := MinInChannel(mnr, used, sblimit, ch, small, minSb, minCh);
      ch := ch + 1;
    }
  }

  /** What the scan has established once it reaches (ch, sb): `small` is
      the smallest MNR of an open entry scanned so far, or the ceiling, and
      (minCh, minSb) is the first entry that holds it. */
  predicate Scanned(mnr: seq<seq<real>>, used: seq<seq<int>>, sblimit: int, small: real,
                    minCh: int, minSb: int, ch: int, sb: int)
    requires Shaped(mnr, used) && 0 <= sblimit <= SbLimitMax
  {
    && (minSb == -1 <==> minCh == -1)
    && (minSb == -1 ==> small == MnrCeiling)
    && (minSb != -1 ==>
          && 0 <= minCh < 2 && 0 <= minSb < sblimit && Before(minCh, minSb, ch, sb)
          && used[minCh][minSb] != Closed && small == mnr[minCh][minSb] && small < MnrCeiling)
    && (forall c, b :: 0 <= c < 2 && 0 <= b < sblimit && Before(c, b, ch, sb) && used[c][b] != Closed ==>
          small <= mnr[c][b])
    && (forall c, b :: 0 <= c < 2 && 0 <= b < sblimit && Before(c, b, minCh, minSb) && used[c][b] != Closed ==>
          small < mnr[c][b])
  }

  /** The inner loop of maxmnr_new over the subbands of one channel. */
  method MinInChannel(mnr: seq<seq<real>>, used: seq<seq<int>>, sblimit: int, ch: int,
                      small0: real, minSb0: int, minCh0: int) returns (small: real, minSb: int, minCh: int)
    requires Shaped(mnr, used) && 0 <= sblimit <= SbLimitMax && 0 <= ch < 2
    requires Scanned(mnr, used, sblimit, small0, minCh0, minSb0, ch, 0)
    ensures Scanned(mnr, used, sblimit, small, minCh, minSb, ch + 1, 0)
  {
    small, minSb, minCh := small0, minSb0, minCh0;
    var sb := 0;
    while sb < sblimit
      invariant 0 <= sb <= sblimit
      invariant Scanned(mnr, used, sblimit, small, minCh, minSb, ch, sb)
    {
      if used[ch][sb] != Closed && small > mnr[ch][sb] {
        small := mnr[ch][sb];
        minSb, minCh := sb, ch;
      }
      sb := sb + 1;
    }
  }
}
