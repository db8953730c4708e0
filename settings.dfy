/**
 * The colour setting (`color_setting_t`) and the clamp that forces each of
 * its fields into its own range (`ClampCS`). The bounds MIN_TEMP .. MAX_BRIGHTNESS
 * are compile-time constants of a header that is not part of this model; they
 * are carried here as a `Limits` value.
 */
module Settings {

  /** The three per-channel gammas (red, green, blue). */
  type Triple = s: seq<real> | |s| == 3 witness [1.0, 1.0, 1.0]

  /** A colour setting as a value: temperature in Kelvin, gamma triple, brightness. */
  datatype Setting = Setting(temperature: int, gamma: Triple, brightness: real)

  /** The clamp bounds, one closed range per field. */
  datatype Limits = Limits(minTemp: int, maxTemp: int,
                           minGamma: real, maxGamma: real,
                           minBrightness: real, maxBrightness: real)
  {
    /** Every range is non-empty. */
    predicate Ordered()
    {
      minTemp <= maxTemp && minGamma <= maxGamma && minBrightness <= maxBrightness
    }
  }

  /** Every field of `s` lies in its range. */
  predicate InRange(s: Setting, lim: Limits)
  {
    && lim.minTemp <= s.temperature <= lim.maxTemp
    && (forall k :: 0 <= k < 3 ==> lim.minGamma <= s.gamma[k] <= lim.maxGamma)
    && lim.minBrightness <= s.brightness <= lim.maxBrightness
  }

  /**
   * One integer field clamped by the two guarded assignments of the source:
   * first raise to `lo`, then lower to `hi`. When the range is empty the
   * second assignment wins and the result is `hi`.
   */
  function ClampInt(x: int, lo: int, hi: int): (r: int)
    ensures lo <= hi ==> lo <= r <= hi
    ensures lo <= x <= hi ==> r == x
    ensures lo <= hi && x < lo ==> r == lo
    ensures x > hi ==> r == hi
    ensures lo > hi ==> r == hi
  {
    var raised := if x < lo then lo else x;
    if raised > hi then hi else raised
  }

  /** The same two guarded assignments on a real-valued field. */
  function ClampReal(x: real, lo: real, hi: real): (r: real)
    ensures lo <= hi ==> lo <= r <= hi
    ensures lo <= x <= hi ==> r == x
    ensures lo <= hi && x < lo ==> r == lo
    ensures x > hi ==> r == hi
    ensures lo > hi ==> r == hi
  {
    var raised := if x < lo then lo else x;
    if raised > hi then hi else raised
  }

  /** The three gammas, each clamped on its own to the one gamma range. */
  function ClampGammas(g: Triple, lo: real, hi: real): Triple
  {
    [ClampReal(g[0], lo, hi), ClampReal(g[1], lo, hi), ClampReal(g[2], lo, hi)]
  }

  /** The setting `ClampCS` leaves behind: every field clamped on its own. */
  function Clamp(s: Setting, lim: Limits): Setting
  {
    Setting(ClampInt(s.temperature, lim.minTemp, lim.maxTemp),
            ClampGammas(s.gamma, lim.minGamma, lim.maxGamma),
            ClampReal(s.brightness, lim.minBrightness, lim.maxBrightness))
  }

  /** With non-empty ranges, every clamped field lies in its range. */
  lemma ClampInRange(s: Setting, lim: Limits)
    requires lim.Ordered()
    ensures InRange(Clamp(s, lim), lim)
  {
  }

  /** Clamping twice is clamping once (for any bounds, ordered or not). */
  lemma ClampIdempotent(s: Setting, lim: Limits)
    ensures Clamp(Clamp(s, lim), lim) == Clamp(s, lim)
  {
  }

  /** A setting already in range is left alone. */
  lemma ClampKeepsInRange(s: Setting, lim: Limits)
    requires InRange(s, lim)
    ensures Clamp(s, lim) == s
  {
  }

  /** Each clamped field depends on that field of the input alone. */
  lemma ClampPerField(s: Setting, t: Setting, lim: Limits)
    ensures s.temperature == t.temperature ==> Clamp(s, lim).temperature == Clamp(t, lim).temperature
    ensures forall k :: 0 <= k < 3 && s.gamma[k] == t.gamma[k] ==> Clamp(s, lim).gamma[k] == Clamp(t, lim).gamma[k]
    ensures s.brightness == t.brightness ==> Clamp(s, lim).brightness == Clamp(t, lim).brightness
  {
  }

  /** The setting with which `main` starts and to which X/Y resets: the identity configuration. */
  function DefaultSetting(neutralTemp: int): (s: Setting)
    ensures s.temperature == neutralTemp && s.brightness == 1.0
    ensures forall k :: 0 <= k < 3 ==> s.gamma[k] == 1.0
  {
    Setting(neutralTemp, [1.0, 1.0, 1.0], 1.0)
  }

  /** The caller-owned, mutable `color_setting_t`. */
  class ColorSetting {
    var temperature: int
    var gamma: array<real>
    var brightness: real

    ghost predicate Valid()
      reads this
    {
      gamma.Length == 3
    }

    /** The current contents, as a value. */
    function Value(): Setting
      requires Valid()
      reads this, gamma
    {
      Setting(temperature, gamma[..], brightness)
    }

    /** The default setting: `memset` to zero, then neutral temperature, unit gammas and brightness. */
    constructor Default(neutralTemp: int)
      ensures Valid() && fresh(gamma)
      ensures Value() == DefaultSetting(neutralTemp)
    {
      temperature := neutralTemp;
      var g := new real[3];
      g[0], g[1], g[2] := 1.0, 1.0, 1.0;
      gamma := g;
      brightness := 1.0;
      assert g[..] == [1.0, 1.0, 1.0];
    }
  }

  /**
   * `ClampCS`: clamp the setting in place, field by field, with the source's
   * guarded assignments; the new contents are the clamped old contents.
   */
  method ClampCS(cs: ColorSetting, lim: Limits)
    requires cs.Valid()
    modifies cs, cs.gamma
    ensures cs.Valid() && cs.gamma == old(cs.gamma)
    ensures cs.Value() == Clamp(old(cs.Value()), lim)
  {
    if cs.temperature < lim.minTemp { cs.temperature := lim.minTemp; }
    if cs.temperature > lim.maxTemp { cs.temperature := lim.maxTemp; }

    ClampGamma(cs.gamma, lim);

    if cs.brightness < lim.minBrightness { cs.brightness := lim.minBrightness; }
    if cs.brightness > lim.maxBrightness { cs.brightness := lim.maxBrightness; }
  }

  /** The six gamma assignments of `ClampCS`: all three raised to the minimum, then all three lowered to the maximum. */
  method ClampGamma(gamma: array<real>, lim: Limits)
    requires gamma.Length == 3
    modifies gamma
    ensures gamma[..] == ClampGammas(old(gamma[..]), lim.minGamma, lim.maxGamma)
  {
    if gamma[0] < lim.minGamma { gamma[0] := lim.minGamma; }
    if gamma[1] < lim.minGamma { gamma[1] := lim.minGamma; }
    if gamma[2] < lim.minGamma { gamma[2] := lim.minGamma; }
    if gamma[0] > lim.maxGamma { gamma[0] := lim.maxGamma; }
    if gamma[1] > lim.maxGamma { gamma[1] := lim.maxGamma; }
    if gamma[2] > lim.maxGamma { gamma[2] := lim.maxGamma; }
  }
}
