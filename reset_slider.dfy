// Modules/Gui/reset_slider.py (and the identical class at the end of gui.py):
// a QSlider that remembers a default position and may scale what value()
// reports.
module SliderWidget {
  import opened Channels
  import opened Pillow

  /** The integer value of the Qt.Vertical enum member. */
  const QtVertical: int := 2

  /** QAbstractSlider keeps its position within [minimum, maximum]. */
  function Bound(v: int, lo: int, hi: int): (r: int)
    requires lo <= hi
    ensures lo <= r <= hi
    ensures lo <= v <= hi ==> r == v
    ensures v < lo ==> r == lo
    ensures v > hi ==> r == hi
  {
    if v < lo then lo else if v > hi then hi else v
  }

  /** Python truthiness of `scale_factor`: None and 0 are false. */
  predicate Truthy(scale: Option<int>) {
    scale.Some? && scale.value != 0
  }

  /**
   * What `value()` reports for slider position `raw`: the position divided
   * (true division) by a truthy scale factor, otherwise the position itself.
   */
  function Scaled(raw: int, scale: Option<int>): (v: real)
    ensures Truthy(scale) ==> v * scale.value as real == raw as real
    ensures !Truthy(scale) ==> v == raw as real
  {
    if Truthy(scale) then raw as real / scale.value as real else raw as real
  }

  class ResetSlider {
    const defaultValue: int
    const scaleFactor: Option<int>
    const minimum: int
    const maximum: int
    /** The position QSlider.value() would report, before any scaling. */
    var raw: int

    ghost predicate Valid()
      reads this
    {
      minimum <= raw <= maximum
    }

    /** The position `reset()` returns to. */
    function Default(): int
    {
      if defaultValue < minimum then minimum
      else if defaultValue > maximum then maximum
      else defaultValue
    }

    /**
     * `ResetSlider(default_value, minv, maxv, scale_factor)`: setRange keeps
     * maximum >= minimum, and setValue(default_value) is bounded by the range.
     */
    constructor (defaultValue: int, minv: int, maxv: int, scaleFactor: Option<int>)
      ensures Valid()
      ensures this.defaultValue == defaultValue && this.scaleFactor == scaleFactor
      ensures minimum == minv && maximum == if maxv < minv then minv else maxv
      ensures raw == Default()
      ensures minv <= defaultValue <= maxv ==> raw == defaultValue
    {
      this.defaultValue := defaultValue;
      this.scaleFactor := scaleFactor;
      minimum := minv;
      maximum := if maxv < minv then minv else maxv;
      raw := Bound(defaultValue, minv, if maxv < minv then minv else maxv);
    }

    /** QSlider.setValue: the position moves to `v`, bounded by the range. */
    method SetValue(v: int)
      requires Valid()
      modifies this
      ensures Valid()
      ensures raw == Bound(v, minimum, maximum)
    {
      raw := Bound(v, minimum, maximum);
    }

    /** `reset()`: back to the default position; a second call changes nothing. */
    method Reset()
      requires Valid()
      modifies this
      ensures Valid()
      ensures raw == Default()
      ensures raw == defaultValue <==> minimum <= defaultValue <= maximum
    {
      SetValue(defaultValue);
    }

    /** `value()`. */
    function Value(): (v: real)
      reads this
      ensures Truthy(scaleFactor) ==> v * scaleFactor.value as real == raw as real
      ensures !Truthy(scaleFactor) ==> v == raw as real
    {
      Scaled(raw, scaleFactor)
    }
  }

  /** The RGB sliders: `ResetSlider(0, -255, 255, Qt.Vertical)`. */
  method NewRgbSlider() returns (s: ResetSlider)
    ensures fresh(s) && s.Valid()
    ensures s.defaultValue == 0 && s.minimum == -255 && s.maximum == 255
    ensures s.scaleFactor == Some(QtVertical) && s.raw == 0
  {
    s := new ResetSlider(0, -255, 255, Some(QtVertical));
  }

  /**
   * The effect sliders: default 1000, range 0..maxv, scale factor 1000
   * (maxv is 3000 in Modules/Gui/commands.py, 2000 in gui.py).
   */
  method NewEffectSlider(maxv: int) returns (s: ResetSlider)
    requires maxv >= 1000
    ensures fresh(s) && s.Valid()
    ensures s.defaultValue == 1000 && s.minimum == 0 && s.maximum == maxv
    ensures s.scaleFactor == Some(1000) && s.raw == 1000 && s.Value() == 1.0
  {
    s := new ResetSlider(1000, 0, maxv, Some(1000));
  }

  /**
   * Because Qt.Vertical lands in `scale_factor`, an RGB slider reports half
   * its position: the offsets it can produce lie in [-127.5, 127.5].
   */
  lemma RgbSliderReportsHalf(raw: int)
    requires -255 <= raw <= 255
    ensures Scaled(raw, Some(QtVertical)) * 2.0 == raw as real
    ensures -127.5 <= Scaled(raw, Some(QtVertical)) <= 127.5
    ensures raw == 255 ==> Scaled(raw, Some(QtVertical)) == 127.5
  {
  }

  /** The neutral position of an effect slider reports the identity factor 1.0. */
  lemma EffectSliderNeutral(raw: int)
    ensures Scaled(raw, Some(1000)) == 1.0 <==> raw == 1000
  {
  }

  /** `reset()` on a set of sliders, one after the other (the loops over `sliders`). */
  method ResetEach(ss: seq<ResetSlider>)
    requires forall s :: s in ss ==> s.Valid()
    modifies set s | s in ss
    ensures forall s :: s in ss ==> s.Valid() && s.raw == s.Default()
  {
    for i := 0 to |ss|
      invariant forall s :: s in ss ==> s.Valid()
      invariant forall j :: 0 <= j < i ==> ss[j].raw == ss[j].Default()
    {
      ss[i].Reset();
    }
  }

  /** The effect sliders, in the order `make_effect_slider` is called. */
  const EffectSliderOrder: seq<Effect> := [Contrast, Color, Brightness, Sharpness]

  /** Position of an effect's slider in `sliders`. */
  function EffectIndex(e: Effect): (i: nat)
    ensures i < 4 && EffectSliderOrder[i] == e
  {
    match e
    case Contrast => 0
    case Color => 1
    case Brightness => 2
    case Sharpness => 3
  }

  /** The RGB sliders, in the order `make_RGB_sliders` creates them. */
  const BandSliderOrder: seq<Band> := [Red, Green, Blue]

  /** Position of a band's slider in `sliders`: after the four effect sliders. */
  function BandIndex(c: Band): (i: nat)
    ensures 4 <= i < 7 && BandSliderOrder[i - 4] == c
  {
    match c
    case Red => 4
    case Green => 5
    case Blue => 6
  }

  /**
   * `self.sliders` of both revisions: seven distinct sliders, the four
   * effect sliders of `make_effect_slider` (default 1000, range
   * 0..effectMax, scale factor 1000) followed by the three RGB sliders of
   * `make_RGB_sliders` (default 0, range -255..255, Qt.Vertical in the
   * scale-factor position).
   */
  ghost predicate SlidersShape(ss: seq<ResetSlider>, effectMax: int)
    reads set s | s in ss
  {
    && |ss| == 7
    && (forall i, j :: 0 <= i < j < |ss| ==> ss[i] != ss[j])
    && (forall s :: s in ss ==> s.Valid())
    && (forall i :: 0 <= i < 4 ==>
          ss[i].defaultValue == 1000 && ss[i].minimum == 0
          && ss[i].maximum == effectMax && ss[i].scaleFactor == Some(1000))
    && (forall i :: 4 <= i < 7 ==>
          ss[i].defaultValue == 0 && ss[i].minimum == -255
          && ss[i].maximum == 255 && ss[i].scaleFactor == Some(QtVertical))
  }

  /** The sliders `Commands.__init__` creates, each at its default position. */
  method NewSliders(effectMax: int) returns (ss: seq<ResetSlider>)
    requires effectMax >= 1000
    ensures SlidersShape(ss, effectMax)
    ensures forall s :: s in ss ==> fresh(s)
    ensures forall i :: 0 <= i < 4 ==> ss[i].raw == 1000
    ensures forall i :: 4 <= i < 7 ==> ss[i].raw == 0
  {
    ss := [];
    for i := 0 to 7
      invariant |ss| == i
      invariant forall s :: s in ss ==> fresh(s) && s.Valid()
      invariant forall j, k :: 0 <= j < k < i ==> ss[j] != ss[k]
      invariant forall j :: 0 <= j < i && j < 4 ==>
        ss[j].defaultValue == 1000 && ss[j].minimum == 0 && ss[j].maximum == effectMax
        && ss[j].scaleFactor == Some(1000) && ss[j].raw == 1000
      invariant forall j :: 4 <= j < i ==>
        ss[j].defaultValue == 0 && ss[j].minimum == -255 && ss[j].maximum == 255
        && ss[j].scaleFactor == Some(QtVertical) && ss[j].raw == 0
    {
      var s;
      if i < 4 {
        s := NewEffectSlider(effectMax);
      } else {
        s := NewRgbSlider();
      }
      ss := ss + [s];
    }
  }
}
