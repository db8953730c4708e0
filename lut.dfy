/**
 * The LUT codec of `ApplyCS`: the hardware's packed 8-bit LUT words, the
 * 16-bit working curve of three 256-slot channels, and the conversions
 * between them (expand by byte replication, truncate by taking the high byte).
 */
module Lut {
  import opened Bits

  /** Number of LUT slots per screen. */
  const Slots: nat := 0x100

  /**
   * The struct laid over one LUT word (`0x00BBGGRR`): red in the low byte,
   * then green, blue, and an unused padding byte, little-endian.
   */
  datatype Pixel = Pixel(r: u8, g: u8, b: u8, z: u8)

  /** The 32-bit word whose four bytes are the struct's fields, from the low end. */
  function Pack(p: Pixel): u32
  {
    p.r + 0x100 * (p.g + 0x100 * (p.b + 0x100 * p.z))
  }

  /** The struct view of a 32-bit word: its four bytes, from the low end. */
  function Unpack(w: u32): (p: Pixel)
    ensures Pack(p) == w
  {
    var q1 := w / 0x100;
    var q2 := q1 / 0x100;
    Pixel(w % 0x100, q1 % 0x100, q2 % 0x100, q2 / 0x100)
  }

  /** Reading the struct back from the word it was packed into gives every field unchanged. */
  lemma UnpackPack(p: Pixel)
    ensures Unpack(Pack(p)) == p
  {
    var w := Pack(p);
    var t := p.g + 0x100 * (p.b + 0x100 * p.z);
    assert w == p.r + 0x100 * t;
    assert w % 0x100 == p.r && w / 0x100 == t;
    assert t % 0x100 == p.g && t / 0x100 == p.b + 0x100 * p.z;
  }

  /** Storing `v` into the red byte of word `w` (`px[i].r = v`). */
  function WithRed(w: u32, v: u8): (w': u32)
    ensures Unpack(w') == Unpack(w).(r := v)
  {
    UnpackPack(Unpack(w).(r := v));
    Pack(Unpack(w).(r := v))
  }

  /** Storing `v` into the green byte of word `w` (`px[i].g = v`). */
  function WithGreen(w: u32, v: u8): (w': u32)
    ensures Unpack(w') == Unpack(w).(g := v)
  {
    UnpackPack(Unpack(w).(g := v));
    Pack(Unpack(w).(g := v))
  }

  /** Storing `v` into the blue byte of word `w` (`px[i].b = v`). */
  function WithBlue(w: u32, v: u8): (w': u32)
    ensures Unpack(w') == Unpack(w).(b := v)
  {
    UnpackPack(Unpack(w).(b := v));
    Pack(Unpack(w).(b := v))
  }

  /** The identity word for slot `i`, `i | (i << 8) | (i << 16)`: red, green and blue all `i`, padding 0. */
  function IdentityWord(i: u8): (w: u32)
    ensures w == i * 0x01_01_01
    ensures Unpack(w) == Pixel(i, i, i, 0)
  {
    ShiftConstants();
    OrDisjoint(i, i, 8);
    OrDisjoint(i + Shl(i, 8), i, 16);
    UnpackPack(Pixel(i, i, i, 0));
    BitOr(BitOr(i, Shl(i, 8)), Shl(i, 16))
  }

  /** Expand a byte to 16 bits by replicating it into both halves, `b | (b << 8)`, stored into a `u16`. */
  function Widen(b: u8): (v: u16)
    ensures v == b * 0x101
  {
    ShiftConstants();
    OrDisjoint(b, b, 8);
    LowHalf(BitOr(b, Shl(b, 8)))
  }

  /** Truncate a 16-bit value to its high byte, `v >> 8`, stored into a `u8`. */
  function Narrow(v: u16): (b: u8)
    ensures b == v / 0x100
    ensures b * 0x100 <= v < b * 0x100 + 0x100
  {
    ShiftConstants();
    LowByte(Shr(v, 8))
  }

  /** Truncation undoes expansion: every byte survives the round trip unchanged. */
  lemma NarrowWiden(b: u8)
    ensures Narrow(Widen(b)) == b
  {
  }

  /** Truncation keeps order: a larger 16-bit value never truncates to a smaller byte. */
  lemma NarrowMonotone(v: u16, v': u16)
    requires v <= v'
    ensures Narrow(v) <= Narrow(v')
  {
    assert Narrow(v) * 0x100 <= v' < (Narrow(v') + 1) * 0x100;
  }

  /** A full LUT: one packed word per slot. */
  type Table = s: seq<u32> | |s| == Slots witness seq(Slots, _ => 0)

  /** One channel of the working curve: one 16-bit value per slot. */
  type Channel = s: seq<u16> | |s| == Slots witness seq(Slots, _ => 0)

  /** The working curve handed to the curve step: red, green and blue channels. */
  datatype Curve = Curve(r: Channel, g: Channel, b: Channel)

  /** The identity ramp the pipeline always starts from: slot `i` holds `i` in every channel. */
  function IdentityRamp(): Table
  {
    seq(Slots, i requires 0 <= i < Slots => IdentityWord(i))
  }

  /** The curve obtained by expanding each channel byte of every slot of `px`. */
  function Expanded(px: Table): Curve
  {
    Curve(seq(Slots, i requires 0 <= i < Slots => Widen(Unpack(px[i]).r)),
          seq(Slots, i requires 0 <= i < Slots => Widen(Unpack(px[i]).g)),
          seq(Slots, i requires 0 <= i < Slots => Widen(Unpack(px[i]).b)))
  }

  /**
   * The LUT obtained by truncating each channel value of `c` into the
   * corresponding byte of `px`; the padding byte of every slot is kept.
   */
  function Truncated(px: Table, c: Curve): Table
  {
    seq(Slots, i requires 0 <= i < Slots =>
      WithBlue(WithGreen(WithRed(px[i], Narrow(c.r[i])), Narrow(c.g[i])), Narrow(c.b[i])))
  }

  /** The flat `u16` buffer `c`: red at 0x000, green at 0x100, blue at 0x200. */
  function Layout(c: Curve): (flat: seq<u16>)
    ensures |flat| == 3 * Slots
    ensures forall i :: 0 <= i < Slots ==>
      flat[i] == c.r[i] && flat[Slots + i] == c.g[i] && flat[2 * Slots + i] == c.b[i]
  {
    c.r + c.g + c.b
  }

  /** The three channel segments of a flat `u16` buffer. */
  function Segments(flat: seq<u16>): (c: Curve)
    requires |flat| == 3 * Slots
    ensures Layout(c) == flat
  {
    Curve(flat[..Slots], flat[Slots..2 * Slots], flat[2 * Slots..])
  }

  /** Reading the segments of a laid-out curve gives the curve back. */
  lemma SegmentsLayout(c: Curve)
    ensures Segments(Layout(c)) == c
  {
  }

  /** Slot `i` of the identity ramp holds `i` in red, green and blue and 0 in the padding byte. */
  lemma IdentityRampAt(i: nat)
    requires i < Slots
    ensures IdentityRamp()[i] == i * 0x01_01_01
    ensures Unpack(IdentityRamp()[i]) == Pixel(i, i, i, 0)
  {
  }

  /** Expanding the identity ramp gives `i * 257` in every channel of slot `i`. */
  lemma ExpandedIdentity(i: nat)
    requires i < Slots
    ensures Expanded(IdentityRamp()).r[i] == i * 0x101
    ensures Expanded(IdentityRamp()).g[i] == i * 0x101
    ensures Expanded(IdentityRamp()).b[i] == i * 0x101
  {
    IdentityRampAt(i);
  }

  /** Slot `i` after truncation: the three channel bytes are the high bytes of `c`, the padding is that of `px`. */
  lemma TruncatedAt(px: Table, c: Curve, i: nat)
    requires i < Slots
    ensures Unpack(Truncated(px, c)[i]) ==
      Pixel(c.r[i] / 0x100, c.g[i] / 0x100, c.b[i] / 0x100, Unpack(px[i]).z)
  {
  }

  /** Truncating the expansion of any LUT gives back that LUT, word for word. */
  lemma TruncateExpand(px: Table)
    ensures Truncated(px, Expanded(px)) == px
  {
    forall i | 0 <= i < Slots
      ensures Truncated(px, Expanded(px))[i] == px[i]
    {
      var p := Unpack(px[i]);
      TruncatedAt(px, Expanded(px), i);
      NarrowWiden(p.r);
      NarrowWiden(p.g);
      NarrowWiden(p.b);
      assert Unpack(Truncated(px, Expanded(px))[i]) == p;
      assert Truncated(px, Expanded(px))[i] == Pack(Unpack(Truncated(px, Expanded(px))[i]));
    }
  }
}
