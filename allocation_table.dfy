/** Choice of the Layer II allocation table (encode_init). */
module AllocationTable {
  import opened Tables

  /** The header's version bit: 1 is MPEG-1, 0 is the MPEG-2 low sampling
      frequency extension. */
  const MpegAudioId := 1

  datatype TableChoice = TableChoice(tablenum: int, sblimit: int)

  /** The table chosen for a frame from its version, its total bitrate in
      kbit/s, its channel count and its sampling frequency in whole kHz
      (44.1 kHz reads as 44, as the C conversion to int truncates). The
      decision uses the bitrate per channel. */
  function EncodeInit(version: int, bitrate: int, nch: int, sfrq: int): (r: TableChoice)
    requires nch == 1 || nch == 2
    ensures ValidTable(r.tablenum) && r.sblimit == TableSblimit(r.tablenum)
    ensures r.sblimit == 27 || r.sblimit == 30 || r.sblimit == 8 || r.sblimit == 12
    ensures version != MpegAudioId <==> r.tablenum == 4
  {
    var brPerCh := bitrate / nch;
    var t :=
      if version == MpegAudioId then
        if (sfrq == 48 && brPerCh >= 56) || (56 <= brPerCh <= 80) then 0
        else if sfrq != 48 && brPerCh >= 96 then 1
        else if sfrq != 32 && brPerCh <= 48 then 2
        else 3
      else 4;
    TableChoice(t, TableSblimit(t))
  }

  /** The if-chain of encode_init as four independent conditions on the
      bitrate per channel b: each MPEG-1 table is chosen exactly when its own
      condition holds, whatever order the tests are written in. */
  lemma TableRules(version: int, bitrate: int, nch: int, sfrq: int)
    requires nch == 1 || nch == 2
    requires version == MpegAudioId
    ensures var b, t := bitrate / nch, EncodeInit(version, bitrate, nch, sfrq).tablenum;
      && (t == 0 <==> b >= 56 && (sfrq == 48 || b <= 80))
      && (t == 1 <==> sfrq != 48 && b >= 96)
      && (t == 2 <==> sfrq != 32 && b <= 48)
      && (t == 3 <==> (b < 56 || (sfrq != 48 && b > 80)) && (sfrq == 48 || b < 96) && (sfrq == 32 || b > 48))
  {
  }

  /** An illustration only, not a property: sample inputs of EncodeInit
      and the table each one selects. 48 kHz stereo at 192 kbit/s uses
      table B.2a (27 subbands), 44.1 kHz stereo at 224 kbit/s table B.2b (30),
      48 kHz stereo at 64 kbit/s table B.2c (8), 32 kHz mono at 32 kbit/s
      table B.2d (12), and every LSF frame the ISO/IEC 13818-3 table (30). */
  lemma WorkedSelections()
    ensures EncodeInit(1, 192, 2, 48) == TableChoice(0, 27)
    ensures EncodeInit(1, 224, 2, 44) == TableChoice(1, 30)
    ensures EncodeInit(1, 64, 2, 48) == TableChoice(2, 8)
    ensures EncodeInit(1, 32, 1, 32) == TableChoice(3, 12)
    ensures EncodeInit(0, 160, 2, 24) == TableChoice(4, 30)
  {
  }
}
