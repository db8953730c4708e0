/**
 * `ApplyCS`: build the identity LUT, expand it to the 16-bit working curve,
 * run the curve step over it, truncate the result back into the LUT, and write
 * the LUT to the screen's registers.
 *
 * The curve step (`colorramp_fill`, blackbody interpolation and power-law
 * gamma in floating point) is not part of this model; it is a parameter
 * `fill`, any function from the setting and the working curve to a new
 * working curve, so everything below holds for every such curve step.
 */
module Apply {
  import opened Bits
  import opened Lut
  import opened Settings
  import opened Port

  /** The curve step: from the setting and the curve it applies on top of, the corrected curve. */
  type CurveFill = (Setting, Curve) -> Curve

  /** The LUT that `ApplyCS` hands to `WriteAll` for setting `s`. */
  function Pipeline(s: Setting, fill: CurveFill): Table
  {
    Truncated(IdentityRamp(), fill(s, Expanded(IdentityRamp())))
  }

  /**
   * Slot `i` of the written LUT holds the high bytes of slot `i` of the
   * corrected curve and a zero padding byte.
   */
  lemma PipelineAt(s: Setting, fill: CurveFill, i: nat)
    requires i < Slots
    ensures var cv := fill(s, Expanded(IdentityRamp()));
      Unpack(Pipeline(s, fill)[i]) == Pixel(cv.r[i] / 0x100, cv.g[i] / 0x100, cv.b[i] / 0x100, 0)
  {
    TruncatedAt(IdentityRamp(), fill(s, Expanded(IdentityRamp())), i);
    IdentityRampAt(i);
  }

  /** With a curve step that changes nothing, the written LUT is exactly the identity ramp. */
  lemma PipelineIdentity(s: Setting, fill: CurveFill)
    requires forall c :: fill(s, c) == c
    ensures Pipeline(s, fill) == IdentityRamp()
  {
    TruncateExpand(IdentityRamp());
  }

  /**
   * Truncation keeps order: if one curve step's output is nowhere below
   * another's, no byte of the first LUT is below the matching byte of the second.
   */
  lemma PipelineMonotone(s: Setting, fill: CurveFill, s': Setting, fill': CurveFill, i: nat)
    requires i < Slots
    requires var lo, hi := fill(s, Expanded(IdentityRamp())), fill'(s', Expanded(IdentityRamp()));
      lo.r[i] <= hi.r[i] && lo.g[i] <= hi.g[i] && lo.b[i] <= hi.b[i]
    ensures var p, p' := Unpack(Pipeline(s, fill)[i]), Unpack(Pipeline(s', fill')[i]);
      p.r <= p'.r && p.g <= p'.g && p.b <= p'.b
  {
    PipelineAt(s, fill, i);
    PipelineAt(s', fill', i);
    var lo, hi := fill(s, Expanded(IdentityRamp())), fill'(s', Expanded(IdentityRamp()));
    NarrowMonotone(lo.r[i], hi.r[i]);
    NarrowMonotone(lo.g[i], hi.g[i]);
    NarrowMonotone(lo.b[i], hi.b[i]);
  }

  /**
   * End to end, with a curve step that changes nothing: the bulk write makes
   * 512 accesses, and the k-th data-register store carries the identity word
   * `k * 0x010101`, right after the index register is set to k.
   */
  lemma IdentityWriteTrace(s: Setting, fill: CurveFill, screen: int, k: nat)
    requires forall c :: fill(s, c) == c
    requires k < Slots
    ensures var trace := WriteAllTrace(screen, Pipeline(s, fill));
      && |trace| == 2 * Slots
      && trace[2 * k] == Store(IndexReg(screen), k)
      && trace[2 * k + 1] == Store(DataReg(screen), k * 0x01_01_01)
  {
    PipelineIdentity(s, fill);
    IdentityRampAt(k);
    WriteAllTraceAt(screen, Pipeline(s, fill), k);
  }

  /** The first loop of `ApplyCS`: slot `i` gets the identity word, for every value of a wrapping `u8` counter. */
  method FillIdentity(px: array<u32>)
    requires px.Length == Slots
    modifies px
    ensures px[..] == IdentityRamp()
  {
    var i: u8 := 0;
    while true
      invariant forall k :: 0 <= k < i ==> px[k] == IdentityWord(k)
      decreases Slots - i
    {
      px[i] := IdentityWord(i);
      i := Inc8(i);
      if i == 0 {
        break;
      }
    }
    assert forall k :: 0 <= k < Slots ==> px[k] == IdentityRamp()[k];
  }

  /** The second loop of `ApplyCS`: every channel byte of every slot, replicated into a 16-bit value of its segment. */
  method ExpandLut(px: array<u32>, c: array<u16>)
    requires px.Length == Slots && c.Length == 3 * Slots
    modifies c
    ensures c[..] == Layout(Expanded(px[..]))
  {
    ghost var want := Layout(Expanded(px[..]));
    var i: u8 := 0;
    while true
      invariant forall k :: 0 <= k < i ==> c[k] == want[k]
      invariant forall k :: Slots <= k < Slots + i ==> c[k] == want[k]
      invariant forall k :: 2 * Slots <= k < 2 * Slots + i ==> c[k] == want[k]
      decreases Slots - i
    {
      assert want[i] == Widen(Unpack(px[i]).r) && want[Slots + i] == Widen(Unpack(px[i]).g)
        && want[2 * Slots + i] == Widen(Unpack(px[i]).b);
      c[i + 0x000] := Widen(Unpack(px[i]).r);
      c[i + 0x100] := Widen(Unpack(px[i]).g);
      c[i + 0x200] := Widen(Unpack(px[i]).b);
      i := Inc8(i);
      if i == 0 {
        break;
      }
    }
  }

  /** The curve step, done in place on the three segments of `c`. */
  method RunCurveStep(c: array<u16>, s: Setting, fill: CurveFill)
    requires c.Length == 3 * Slots
    modifies c
    ensures c[..] == Layout(fill(s, Segments(old(c[..]))))
  {
    var out := Layout(fill(s, Segments(c[..])));
    forall k | 0 <= k < c.Length {
      c[k] := out[k];
    }
  }

  /** The third loop of `ApplyCS`: the high byte of each 16-bit value is stored into its channel byte. */
  method TruncateLut(c: array<u16>, px: array<u32>)
    requires px.Length == Slots && c.Length == 3 * Slots
    modifies px
    ensures px[..] == Truncated(old(px[..]), Segments(c[..]))
  {
    ghost var cv := Segments(c[..]);
    ghost var want := Truncated(px[..], cv);
    var i: u8 := 0;
    while true
      invariant forall k :: 0 <= k < i ==> px[k] == want[k]
      invariant forall k :: i <= k < Slots ==> px[k] == old(px[k])
      decreases Slots - i
    {
      assert cv.r[i] == c[i] && cv.g[i] == c[Slots + i] && cv.b[i] == c[2 * Slots + i];
      px[i] := WithRed(px[i], Narrow(c[i + 0x000]));
      px[i] := WithGreen(px[i], Narrow(c[i + 0x100]));
      px[i] := WithBlue(px[i], Narrow(c[i + 0x200]));
      i := Inc8(i);
      if i == 0 {
        break;
      }
    }
  }

  /**
   * `ApplyCS`: the screen's LUT becomes `Pipeline(setting, fill)`, written
   * slot by slot in increasing order; the other screen's LUT is untouched.
   * The result does not depend on what the LUT held before, so repeated
   * applications never compound.
   */
  method ApplyCS(cs: ColorSetting, screen: int, gpu: Gpu, fill: CurveFill)
    requires cs.Valid() && gpu.Valid()
    modifies gpu
    ensures gpu.Valid()
    ensures gpu.tables == old(gpu.tables)[Pair(screen) := Pipeline(cs.Value(), fill)]
    ensures gpu.log == old(gpu.log) + WriteAllTrace(screen, Pipeline(cs.Value(), fill))
    ensures gpu.slot == old(gpu.slot)[Pair(screen) := 0xFF]
  {
    var c := new u16[3 * Slots];
    var px := new u32[Slots];

    FillIdentity(px);
    ExpandLut(px, c);
    SegmentsLayout(Expanded(IdentityRamp()));

    RunCurveStep(c, cs.Value(), fill);
    SegmentsLayout(fill(cs.Value(), Expanded(IdentityRamp())));

    TruncateLut(c, px);
    assert px[..Slots] == px[..];
    WriteAll(px, screen, gpu);
  }
}
