/** The output bitstream as the sequence of (value, width) fields that
    putbits and put1bit append to it. */
module Bitstream {
  import opened Tables

  /** One putbits call: the low `width` bits of `value`. */
  datatype Field = Field(value: int, width: int)

  /** Total number of bits of a run of fields. */
  function Width(fs: seq<Field>): int
  {
    if |fs| == 0 then 0 else Width(fs[..|fs| - 1]) + fs[|fs| - 1].width
  }

  /** Every value is non-negative and fits its width, so putbits loses
      nothing when it keeps the low `width` bits. */
  predicate Fits(fs: seq<Field>)
  {
    forall i :: 0 <= i < |fs| ==> 0 <= fs[i].width && 0 <= fs[i].value < Pow2(fs[i].width)
  }

  /** Widths add up over concatenation. */
  lemma {:induction false} WidthAppend(a: seq<Field>, b: seq<Field>)
    ensures Width(a + b) == Width(a) + Width(b)
    decreases |b|
  {
    if |b| > 0 {
      var b' := b[..|b| - 1];
      assert (a + b)[..|a + b| - 1] == a + b';
      WidthAppend(a, b');
    } else {
      assert a + b == a;
    }
  }

  lemma WidthSingle(x: Field)
    ensures Width([x]) == x.width
  {
    assert [x][..0] == [];
  }

  /** A run of fields of one width w has w bits per field. */
  lemma {:induction false} WidthUniform(fs: seq<Field>, w: int)
    requires forall i :: 0 <= i < |fs| ==> fs[i].width == w
    ensures Width(fs) == w * |fs|
    decreases |fs|
  {
    if |fs| > 0 {
      WidthUniform(fs[..|fs| - 1], w);
    }
  }

  lemma FitsAppend(a: seq<Field>, b: seq<Field>)
    requires Fits(a) && Fits(b)
    ensures Fits(a + b)
  {
    forall i | 0 <= i < |a + b|
      ensures 0 <= (a + b)[i].width && 0 <= (a + b)[i].value < Pow2((a + b)[i].width)
    {
      if i >= |a| {
        assert (a + b)[i] == b[i - |a|];
      }
    }
  }

  /** Bit_stream_struc, as far as the writers use it. */
  class BitStream {
    var fields: seq<Field>

    constructor ()
      ensures fields == []
    {
      fields := [];
    }

    /** putbits (and put1bit with width 1). */
    method PutBits(value: int, width: int)
      modifies this
      ensures fields == old(fields) + [Field(value, width)]
    {
      fields := fields + [Field(value, width)];
    }
  }
}
