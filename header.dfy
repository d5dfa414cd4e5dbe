/** The 32-bit Layer II frame header and write_header (ISO/IEC 11172-3
    2.4.1.3). */
module FrameHeader {
  import opened Tables
  import opened Common
  import opened Bitstream

  const SyncWord := 0xfff

  /** frame_header, the fields write_header emits. */
  datatype Header = Header(
    version: int,
    lay: int,
    errorProtection: bool,
    bitrateIndex: int,
    samplingFrequency: int,
    padding: int,
    extension: int,
    mode: int,
    modeExt: int,
    copyright: int,
    original: int,
    emphasis: int)

  function Bit(b: bool): int
  {
    if b then 1 else 0
  }

  /** Header values that fit their fields; layer 4 - lay == 0 is reserved. */
  predicate ValidHeader(h: Header)
  {
    && 0 <= h.version < 2 && 1 <= h.lay <= 3
    && 0 <= h.bitrateIndex < 16 && 0 <= h.samplingFrequency < 4
    && 0 <= h.padding < 2 && 0 <= h.extension < 2
    && 0 <= h.mode < 4 && 0 <= h.modeExt < 4
    && 0 <= h.copyright < 2 && 0 <= h.original < 2 && 0 <= h.emphasis < 4
  }

  /** The field widths of the header, in the order they are written. */
  const Layout: seq<int> := [12, 1, 2, 1, 4, 2, 1, 1, 2, 2, 1, 1, 2]

  /** Sum of a sequence of widths. */
  function Total(ws: seq<int>): int
  {
    if |ws| == 0 then 0 else Total(ws[..|ws| - 1]) + ws[|ws| - 1]
  }

  lemma {:induction false} WidthFollowsLayout(fs: seq<Field>, ws: seq<int>)
    requires |fs| == |ws| && forall i :: 0 <= i < |fs| ==> fs[i].width == ws[i]
    ensures Width(fs) == Total(ws)
    decreases |fs|
  {
    if |fs| > 0 {
      WidthFollowsLayout(fs[..|fs| - 1], ws[..|ws| - 1]);
    }
  }

  /** The layout adds up to the 32 header bits. */
  lemma LayoutTotal()
    ensures Total(Layout) == HeaderBits
  {
    var ws := Layout;
    assert Total(ws[..0]) == 0;
    assert ws[..1][..0] == ws[..0] && Total(ws[..1]) == 12;
    assert ws[..2][..1] == ws[..1] && Total(ws[..2]) == 13;
    assert ws[..3][..2] == ws[..2] && Total(ws[..3]) == 15;
    assert ws[..4][..3] == ws[..3] && Total(ws[..4]) == 16;
    assert ws[..5][..4] == ws[..4] && Total(ws[..5]) == 20;
    assert ws[..6][..5] == ws[..5] && Total(ws[..6]) == 22;
    assert ws[..7][..6] == ws[..6] && Total(ws[..7]) == 23;
    assert ws[..8][..7] == ws[..7] && Total(ws[..8]) == 24;
    assert ws[..9][..8] == ws[..8] && Total(ws[..9]) == 26;
    assert ws[..10][..9] == ws[..9] && Total(ws[..10]) == 28;
    assert ws[..11][..10] == ws[..10] && Total(ws[..11]) == 29;
    assert ws[..12][..11] == ws[..11] && Total(ws[..12]) == 30;
    assert ws[..13][..12] == ws[..12] && Total(ws[..13]) == 32;
    assert ws[..13] == ws;
  }

  /** The fields write_header emits: the layer as 4 - lay and the
      protection bit inverted (set means no CRC). */
  function HeaderFields(h: Header): (fs: seq<Field>)
  {
    [ Field(SyncWord, 12), Field(h.version, 1), Field(4 - h.lay, 2), Field(Bit(!h.errorProtection), 1),
      Field(h.bitrateIndex, 4), Field(h.samplingFrequency, 2), Field(h.padding, 1), Field(h.extension, 1),
      Field(h.mode, 2), Field(h.modeExt, 2), Field(h.copyright, 1), Field(h.original, 1),
      Field(h.emphasis, 2) ]
  }

  /** A decoder's reading of thirteen header fields: they must have the
      header layout, fit their widths, start with the sync word and not
      use the reserved layer code. */
  function ParseHeader(fs: seq<Field>): (r: Option<Header>)
    ensures r.Some? ==> ValidHeader(r.value)
  {
    if |fs| == 13 && Fits(fs) && (forall i :: 0 <= i < 13 ==> fs[i].width == Layout[i])
       && fs[0].value == SyncWord && fs[2].value != 0
    then
      HeaderFieldBounds(fs);
      Some(Header(fs[1].value, 4 - fs[2].value, fs[3].value == 0, fs[4].value, fs[5].value,
                  fs[6].value, fs[7].value, fs[8].value, fs[9].value, fs[10].value, fs[11].value, fs[12].value))
    else None
  }

  /** Fields that fit the header layout hold values below 2^width. */
  lemma HeaderFieldBounds(fs: seq<Field>)
    requires |fs| == 13 && Fits(fs) && forall i :: 0 <= i < 13 ==> fs[i].width == Layout[i]
    ensures 0 <= fs[1].value < 2 && 0 <= fs[2].value < 4 && 0 <= fs[3].value < 2
    ensures 0 <= fs[4].value < 16 && 0 <= fs[5].value < 4 && 0 <= fs[6].value < 2
    ensures 0 <= fs[7].value < 2 && 0 <= fs[8].value < 4 && 0 <= fs[9].value < 4
    ensures 0 <= fs[10].value < 2 && 0 <= fs[11].value < 2 && 0 <= fs[12].value < 4
  {
    assert Pow2(1) == 2 && Pow2(2) == 4 && Pow2(4) == 16;
    assert forall i :: 0 <= i < 13 ==> 0 <= fs[i].value < Pow2(Layout[i]);
  }

  /** The header is exactly 32 bits and, for a valid header, every field
      fits its width. */
  lemma HeaderLayout(h: Header)
    ensures Width(HeaderFields(h)) == HeaderBits
    ensures |HeaderFields(h)| == 13 && forall i :: 0 <= i < 13 ==> HeaderFields(h)[i].width == Layout[i]
    ensures ValidHeader(h) ==> Fits(HeaderFields(h))
  {
    var fs := HeaderFields(h);
    WidthFollowsLayout(fs, Layout);
    LayoutTotal();
    assert Pow2(1) == 2 && Pow2(2) == 4 && Pow2(4) == 16 && Pow2(12) == 4096;
  }

  /** Reading back what write_header emits gives the header again. */
  lemma HeaderRoundTrip(h: Header)
    requires ValidHeader(h)
    ensures ParseHeader(HeaderFields(h)) == Some(h)
  {
    HeaderLayout(h);
  }

  /** Every run of fields a decoder accepts as a header is what
      write_header emits for the header read. */
  lemma ParsedHeaderIsWritten(fs: seq<Field>)
    requires ParseHeader(fs).Some?
    ensures HeaderFields(ParseHeader(fs).value) == fs
  {
    var h := ParseHeader(fs).value;
    assert Pow2(1) == 2;
    assert fs[3].width == 1 && 0 <= fs[3].value < 2;
    assert HeaderFields(h)[3] == fs[3];
  }

  /** write_header: thirteen putbits calls in header order. */
  method WriteHeader(h: Header, bs: BitStream)
    modifies bs
    ensures bs.fields == old(bs.fields) + HeaderFields(h)
  {
    ghost var fs := HeaderFields(h);
    WriteHeaderStart(h, bs);
    WriteHeaderRest(h, bs);
    assert fs[..6] + fs[6..] == fs;
  }

  /** The first six header fields: sync word to sampling frequency. */
  method WriteHeaderStart(h: Header, bs: BitStream)
    modifies bs
    ensures bs.fields == old(bs.fields) + HeaderFields(h)[..6]
  {
    ghost var fs := HeaderFields(h);
    bs.PutBits(SyncWord, 12);
    assert bs.fields == old(bs.fields) + fs[..1];
    bs.PutBits(h.version, 1);
    assert bs.fields == old(bs.fields) + fs[..2];
    bs.PutBits(4 - h.lay, 2);
    assert bs.fields == old(bs.fields) + fs[..3];
    bs.PutBits(if h.errorProtection then 0 else 1, 1);
    assert bs.fields == old(bs.fields) + fs[..4];
    bs.PutBits(h.bitrateIndex, 4);
    assert bs.fields == old(bs.fields) + fs[..5];
    bs.PutBits(h.samplingFrequency, 2);
  }

  /** The last seven header fields: padding to emphasis. */
  method WriteHeaderRest(h: Header, bs: BitStream)
    modifies bs
    ensures bs.fields == old(bs.fields) + HeaderFields(h)[6..]
  {
    ghost var fs := HeaderFields(h);
    bs.PutBits(h.padding, 1);
    assert bs.fields == old(bs.fields) + fs[6..7];
    bs.PutBits(h.extension, 1);
    assert bs.fields == old(bs.fields) + fs[6..8];
    bs.PutBits(h.mode, 2);
    assert bs.fields == old(bs.fields) + fs[6..9];
    bs.PutBits(h.modeExt, 2);
    assert bs.fields == old(bs.fields) + fs[6..10];
    bs.PutBits(h.copyright, 1);
    assert bs.fields == old(bs.fields) + fs[6..11];
    bs.PutBits(h.original, 1);
    assert bs.fields == old(bs.fields) + fs[6..12];
    bs.PutBits(h.emphasis, 2);
  }

}
