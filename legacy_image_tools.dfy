// image_tools.py: the older, RGB-only revision of the pixel operations.
// Its `change_effect` keeps the "effect applied" flags as attributes of the
// picture, looked up by name.
module LegacyImageTools {
  import opened Channels
  import opened Pillow
  import IT = ImageTools

  /**
   * `prepare_image` of the older revision: RGBA, grey-scale and palette
   * images become RGB; any other mode is left as it is.
   */
  function PrepareMode(m: Mode): (r: Mode)
    ensures m == RGBA || m == L || m == P || m == RGB ==> r == RGB
    ensures m.OtherMode? ==> r == m
  {
    var first := if m == RGBA || m == L then RGB else m;
    if first == P then RGB else first
  }

  /**
   * The conversion `prepare_image` evidently means: every loaded image
   * becomes RGB, as the modes it converts do.
   */
  function IntendedPrepareMode(m: Mode): (r: Mode)
    ensures r == RGB
    ensures PrepareMode(m) == RGB ==> r == PrepareMode(m)
  {
    RGB
  }

  // ---------------------------------------------------------------------
  // change_color
  // ---------------------------------------------------------------------

  /** Every band other than `color` of the display equals the original's. */
  predicate OthersEqual(original: Rgb, display: Rgb, color: Band)
    requires RgbWf(original) && RgbWf(display) && RgbSize(original) == RgbSize(display)
  {
    forall x :: x != color ==> IT.Equal(RgbPlane(original, x), RgbPlane(display, x))
  }

  /**
   * `change_color(pic, color, slider)`: the planes `m` are the original's
   * when the other two bands of the display are untouched, otherwise the
   * original's band `color` with the display's other two; band `color` is
   * then shifted by the slider value. The merged image and the planes it is
   * made of are returned together.
   */
  function ChangeColor(original: Rgb, display: Rgb, color: Band, value: real): (res: (Rgb, Rgb))
    requires RgbWf(original) && RgbWf(display) && RgbSize(original) == RgbSize(display)
    ensures res.0 == res.1
    ensures RgbWf(res.0) && RgbSize(res.0) == RgbSize(display)
    ensures RgbPlane(res.0, color) == IT.Point(RgbPlane(original, color), value)
    ensures forall x :: x != color ==> RgbPlane(res.0, x) == RgbPlane(display, x)
  {
    var m := if OthersEqual(original, display, color) then original
             else RgbWithPlane(display, color, RgbPlane(original, color));
    var planes := RgbWithPlane(m, color, IT.Point(RgbPlane(m, color), value));
    (planes, planes)
  }

  lemma RgbPlanesDetermineImage(x: Rgb, y: Rgb)
    requires forall c :: RgbPlane(x, c) == RgbPlane(y, c)
    ensures x == y
  {
    assert x.r == RgbPlane(x, Red) && y.r == RgbPlane(y, Red);
    assert x.g == RgbPlane(x, Green) && y.g == RgbPlane(y, Green);
    assert x.b == RgbPlane(x, Blue) && y.b == RgbPlane(y, Blue);
  }

  /** As in the newer revision, moving a band's slider does not accumulate offsets. */
  lemma {:induction false} OffsetsDoNotAccumulate(original: Rgb, display: Rgb, color: Band, v1: real, v2: real)
    requires RgbWf(original) && RgbWf(display) && RgbSize(original) == RgbSize(display)
    ensures ChangeColor(original, ChangeColor(original, display, color, v1).0, color, v2)
         == ChangeColor(original, display, color, v2)
  {
    var once := ChangeColor(original, display, color, v1).0;
    RgbPlanesDetermineImage(ChangeColor(original, once, color, v2).0, ChangeColor(original, display, color, v2).0);
  }

  // ---------------------------------------------------------------------
  // change_effect with attribute flags
  // ---------------------------------------------------------------------

  /**
   * The flag attributes a picture of the older revision can carry: the
   * four `Picture.set_effects` sets in gui.py and the four named in
   * `change_effect.effects`, which share three names.
   */
  datatype Attr =
    | ChangedRgb | ChangedColorBalance | ChangedBrightness | ChangedContrast | ChangedSharpness

  /** The keys of `change_effect.effects`, in dict order. */
  const EffectOrder: seq<Effect> := [Color, Brightness, Contrast, Sharpness]

  /** `change_effect.effects`: the attribute holding each effect's flag. */
  function EffectAttr(e: Effect): Attr
  {
    match e
    case Color => ChangedColorBalance
    case Brightness => ChangedBrightness
    case Contrast => ChangedContrast
    case Sharpness => ChangedSharpness
  }

  /** The flag attributes `change_effect` knows of. */
  const EffectAttrs: set<Attr> := {ChangedColorBalance, ChangedBrightness, ChangedContrast, ChangedSharpness}

  lemma EffectListed(e: Effect)
    ensures e in EffectOrder
  {
    match e
    case Color => assert EffectOrder[0] == e;
    case Brightness => assert EffectOrder[1] == e;
    case Contrast => assert EffectOrder[2] == e;
    case Sharpness => assert EffectOrder[3] == e;
  }

  /**
   * The attribute `getattr` fails on first while `change_effect(.., effect)`
   * reads the flags of the other effects of `order`, if any.
   */
  function FirstMissing(order: seq<Effect>, attrs: map<Attr, bool>, effect: Effect): (r: Option<Attr>)
    ensures r.None? <==> forall e :: e in order && e != effect ==> EffectAttr(e) in attrs
    ensures r.Some? ==> exists i :: 0 <= i < |order| && order[i] != effect && r.value == EffectAttr(order[i])
                          && r.value !in attrs
                          && forall j :: 0 <= j < i && order[j] != effect ==> EffectAttr(order[j]) in attrs
  {
    if |order| == 0 then None
    else if order[0] != effect && EffectAttr(order[0]) !in attrs then Some(EffectAttr(order[0]))
    else
      var rest := FirstMissing(order[1..], attrs, effect);
      assert forall e :: e in order <==> e == order[0] || e in order[1..];
      if rest.Some? then
        var i :| 0 <= i < |order| - 1 && order[1..][i] != effect && rest.value == EffectAttr(order[1..][i])
                && forall j :: 0 <= j < i && order[1..][j] != effect ==> EffectAttr(order[1..][j]) in attrs;
        assert forall j :: 0 <= j < i + 1 && order[j] != effect ==> EffectAttr(order[j]) in attrs by {
          forall j | 0 <= j < i + 1 && order[j] != effect
            ensures EffectAttr(order[j]) in attrs
          {
            if j > 0 {
              assert order[j] == order[1..][j - 1];
            }
          }
        }
        rest
      else
        rest
  }

  /**
   * When every effect before position `i` has its attribute and the one at
   * `i` does not, the lookup fails on that one.
   */
  lemma {:induction false} FirstMissingAt(order: seq<Effect>, attrs: map<Attr, bool>, effect: Effect, i: nat)
    requires i < |order| && order[i] != effect && EffectAttr(order[i]) !in attrs
    requires forall j :: 0 <= j < i && order[j] != effect ==> EffectAttr(order[j]) in attrs
    ensures FirstMissing(order, attrs, effect) == Some(EffectAttr(order[i]))
    decreases i
  {
    if i > 0 {
      forall j | 0 <= j < i - 1 && order[1..][j] != effect
        ensures EffectAttr(order[1..][j]) in attrs
      {
        assert order[1..][j] == order[j + 1];
      }
      FirstMissingAt(order[1..], attrs, effect, i - 1);
    }
  }

  /** Every flag attribute `change_effect` knows of belongs to an effect. */
  lemma AttrOfEffect(n: Attr)
    requires n in EffectAttrs
    ensures exists e :: EffectAttr(e) == n
  {
    if n == ChangedColorBalance {
      assert EffectAttr(Color) == n;
    } else if n == ChangedBrightness {
      assert EffectAttr(Brightness) == n;
    } else if n == ChangedContrast {
      assert EffectAttr(Contrast) == n;
    } else {
      assert EffectAttr(Sharpness) == n;
    }
  }

  /** Some effect other than `effect` has its flag attribute set to True. */
  predicate OtherFlagSet(attrs: map<Attr, bool>, effect: Effect) {
    exists e :: e != effect && EffectAttr(e) in attrs && attrs[EffectAttr(e)]
  }

  /**
   * The attributes after a successful `change_effect(.., effect)`: the flag
   * of `effect` is True, the flags of the other effects are False, and any
   * other attribute keeps its value.
   */
  function AttrsAfter(attrs: map<Attr, bool>, effect: Effect): (res: map<Attr, bool>)
    ensures res.Keys == attrs.Keys + {EffectAttr(effect)}
    ensures res[EffectAttr(effect)]
    ensures forall e :: e != effect && EffectAttr(e) in res ==> !res[EffectAttr(e)]
    ensures forall n :: n in attrs && n !in EffectAttrs ==> res[n] == attrs[n]
    ensures !OtherFlagSet(res, effect)
  {
    map n | n in attrs.Keys + {EffectAttr(effect)} ::
      if n == EffectAttr(effect) then true else if n in EffectAttrs then false else attrs[n]
  }

  /** The flag attributes of the effects other than `effect`. */
  function OtherAttrs(effect: Effect): (names: set<Attr>)
    ensures forall e :: EffectAttr(e) in names <==> e != effect
    ensures names <= EffectAttrs
  {
    EffectAttrs - {EffectAttr(effect)}
  }

  /**
   * The first loop of `change_effect`: the flags of the other effects are
   * read, in dict order, into `check`; `missing` is the attribute whose
   * lookup fails, if any.
   */
  method CheckEffects(attrs: map<Attr, bool>, effect: Effect) returns (missing: Option<Attr>, check: map<Attr, bool>)
    ensures missing == FirstMissing(EffectOrder, attrs, effect)
    ensures missing.None? ==> check.Keys == OtherAttrs(effect)
    ensures missing.None? ==> forall n :: n in check ==> n in attrs && check[n] == attrs[n]
  {
    check := map[];
    for i := 0 to |EffectOrder|
      invariant forall j :: 0 <= j < i && EffectOrder[j] != effect ==> EffectAttr(EffectOrder[j]) in check
      invariant check.Keys <= OtherAttrs(effect)
      invariant forall n :: n in check ==> n in attrs && check[n] == attrs[n]
    {
      var e := EffectOrder[i];
      if e != effect {
        var name := EffectAttr(e);
        if name !in attrs {
          FirstMissingAt(EffectOrder, attrs, effect, i);
          return Some(name), check;
        }
        check := check[name := attrs[name]];
      }
    }
    missing := None;
    forall n | n in OtherAttrs(effect)
      ensures n in check
    {
      AttrOfEffect(n);
      var e :| EffectAttr(e) == n;
      EffectListed(e);
    }
  }

  /** The second loop of `change_effect`: every attribute in `names` is set to False. */
  method ClearFlags(attrs: map<Attr, bool>, names: set<Attr>) returns (res: map<Attr, bool>)
    requires names <= attrs.Keys
    ensures res.Keys == attrs.Keys
    ensures forall n :: n in res ==> res[n] == if n in names then false else attrs[n]
  {
    res := attrs;
    var rest := names;
    while rest != {}
      invariant rest <= names
      invariant res.Keys == attrs.Keys
      invariant forall n :: n in res ==> res[n] == if n in names - rest then false else attrs[n]
      decreases rest
    {
      var n :| n in rest;
      res := res[n := false];
      rest := rest - {n};
    }
  }

  datatype Outcome =
    | AttributeError(name: Attr)
    | Enhanced(attrs: map<Attr, bool>, cache: Rgb, image: Rgb)

  /**
   * `change_effect(pic, slider, effect)`, on the picture's flag attributes
   * `attrs`, its display and its cache planes. Reading the flag of another
   * effect that was never set raises AttributeError before anything is
   * changed. Otherwise, when another flag is set, the cache takes the
   * display's planes and the other flags are cleared; the flag of `effect`
   * is set and the result is the enhancement of the cache. The new
   * attributes and cache are returned for the caller to store.
   */
  method ChangeEffect(attrs: map<Attr, bool>, display: Rgb, cache: Rgb, effect: Effect, value: real, enhance: RgbEnhancer)
    returns (out: Outcome)
    ensures out.AttributeError? <==> FirstMissing(EffectOrder, attrs, effect).Some?
    ensures out.AttributeError? ==> out.name == FirstMissing(EffectOrder, attrs, effect).value
    ensures out.Enhanced? ==> out.attrs == AttrsAfter(attrs, effect)
    ensures out.Enhanced? ==> out.cache == if OtherFlagSet(attrs, effect) then display else cache
    ensures out.Enhanced? ==> out.image == enhance(effect, out.cache, value)
  {
    var missing, check := CheckEffects(attrs, effect);
    if missing.Some? {
      return AttributeError(missing.value);
    }
    var anySet := true in check.Values;
    assert anySet <==> OtherFlagSet(attrs, effect) by {
      if OtherFlagSet(attrs, effect) {
        var e :| e != effect && EffectAttr(e) in attrs && attrs[EffectAttr(e)];
        assert check[EffectAttr(e)];
      }
      if anySet {
        var n :| n in check && check[n];
        AttrOfEffect(n);
      }
    }
    var newAttrs := attrs;
    var newCache := cache;
    if anySet {
      newCache := display;
      newAttrs := ClearFlags(attrs, check.Keys);
    }
    newAttrs := newAttrs[EffectAttr(effect) := true];
    assert newAttrs == AttrsAfter(attrs, effect) by {
      var expected := AttrsAfter(attrs, effect);
      forall n | n in newAttrs
        ensures newAttrs[n] == expected[n]
      {
        if n != EffectAttr(effect) && n in EffectAttrs && !anySet {
          assert n in check;
          assert check[n] in check.Values;
        }
      }
    }
    out := Enhanced(newAttrs, newCache, enhance(effect, newCache, value));
  }
}
