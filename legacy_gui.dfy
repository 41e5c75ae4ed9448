// gui.py: the older revision's picture label and sliders tab. The picture
// keeps RGB images, holds its "effect applied" flags as attributes, and the
// sliders tab has no filters.
module LegacyGui {
  import opened Channels
  import opened Pillow
  import opened SliderWidget
  import opened LegacyImageTools

  /** `maxv` of the older `make_effect_slider`. */
  const LegacyEffectMax: int := 2000

  /** `Picture.effects` of gui.py: the attribute `set_effects` clears for each effect. */
  function GuiAttr(e: Effect): Attr
  {
    match e
    case Color => ChangedRgb
    case Brightness => ChangedBrightness
    case Contrast => ChangedContrast
    case Sharpness => ChangedSharpness
  }

  /** The attributes `set_effects` clears. */
  const GuiAttrs: set<Attr> := {ChangedRgb, ChangedBrightness, ChangedContrast, ChangedSharpness}

  lemma GuiAttrOfEffect(n: Attr)
    requires n in GuiAttrs
    ensures exists e :: GuiAttr(e) == n
  {
    if n == ChangedRgb {
      assert GuiAttr(Color) == n;
    } else if n == ChangedBrightness {
      assert GuiAttr(Brightness) == n;
    } else if n == ChangedContrast {
      assert GuiAttr(Contrast) == n;
    } else {
      assert GuiAttr(Sharpness) == n;
    }
  }

  /** The flag attributes of a new picture: those of `set_effects`, all False. */
  function InitialAttrs(): (res: map<Attr, bool>)
    ensures res.Keys == GuiAttrs
    ensures forall n :: n in res ==> !res[n]
  {
    map n | n in GuiAttrs :: false
  }

  /**
   * The flag-name mismatch: a new picture carries `changed_rgb` where
   * `change_effect` looks for `changed_color_balance`. Any effect other
   * than Color, used before Color, fails on that attribute; Color itself
   * succeeds, and once it has, every effect finds all its attributes.
   */
  lemma FlagNameMismatch(e: Effect)
    ensures e != Color ==> FirstMissing(EffectOrder, InitialAttrs(), e) == Some(ChangedColorBalance)
    ensures FirstMissing(EffectOrder, InitialAttrs(), Color) == None
    ensures FirstMissing(EffectOrder, AttrsAfter(InitialAttrs(), Color), e) == None
  {
    if e != Color {
      FirstMissingAt(EffectOrder, InitialAttrs(), e, 0);
    }
  }

  /**
   * The buffer `qt_tweaks` hands to QImage: the display with red and blue
   * swapped, made opaque, as raw RGBA bytes.
   */
  function QimBytes(im: Rgb): seq<int>
    requires RgbWf(im)
  {
    RawRgba(RgbToRgba(Rgb(im.b, im.g, im.r)))
  }

  /** Each pixel of that buffer reads B, G, R, 255. */
  lemma QimLayout(im: Rgb, i: nat)
    requires RgbWf(im) && i < RgbSize(im)
    ensures |QimBytes(im)| == 4 * RgbSize(im)
    ensures QimBytes(im)[4 * i] == im.b[i] && QimBytes(im)[4 * i + 1] == im.g[i]
    ensures QimBytes(im)[4 * i + 2] == im.r[i] && QimBytes(im)[4 * i + 3] == 255
  {
    RawRgbaLayout(RgbToRgba(Rgb(im.b, im.g, im.r)), i);
  }

  /** The picture fields `prep_image` assigns, and the pixmap it builds. */
  datatype Field = OriginalField | DisplayField | CacheField | QimField | PixmapField

  /** Pillow modes with three bands, which `r, g, b = split()` can unpack. */
  predicate ThreeBands(m: Mode) {
    m == RGB || m == OtherMode("YCbCr") || m == OtherMode("LAB") || m == OtherMode("HSV")
  }

  /**
   * `prep_image(fname)` as written, on an image `prepare_image` left in mode
   * `m`: the fields it assigns, in order, and whether it raises. The
   * original, the display and the cache are assigned first; the three-way
   * unpack of `qt_tweaks` then raises on a mode without three bands, which
   * leaves those fields holding the new image beside the old buffer and
   * pixmap.
   */
  function PrepImageAsWritten(m: Mode): (r: (seq<Field>, bool))
    ensures |r.0| >= 3 && r.0[..3] == [OriginalField, DisplayField, CacheField]
    ensures r.1 <==> !ThreeBands(m)
    ensures r.1 ==> r.0 == [OriginalField, DisplayField, CacheField]
    ensures !r.1 ==> r.0[3..] == [QimField, PixmapField]
  {
    var loaded := [OriginalField, DisplayField, CacheField];
    if ThreeBands(m) then (loaded + [QimField, PixmapField], false) else (loaded, true)
  }

  /**
   * As written, `prep_image` raises after assigning the original, the
   * display and the cache on every mode `prepare_image` leaves without three
   * bands, such as CMYK, LA or I.
   */
  lemma PrepImageHalfLoads(m: Mode)
    requires CanonicalMode(m) && m.OtherMode? && !ThreeBands(m)
    ensures PrepareMode(m) == m
    ensures PrepImageAsWritten(PrepareMode(m)) == ([OriginalField, DisplayField, CacheField], true)
  {
  }

  /** With the intended conversion, `prep_image` completes on every mode. */
  lemma IntendedPrepImageCompletes(m: Mode)
    ensures !PrepImageAsWritten(IntendedPrepareMode(m)).1
    ensures PrepImageAsWritten(IntendedPrepareMode(m)).0 == [OriginalField, DisplayField, CacheField, QimField, PixmapField]
  {
  }

  class Picture {
    /** Truthiness of the scaled pixmap `image`. */
    var image: bool
    var name: Option<string>
    var path: Option<string>
    /** The boolean flag attributes set on the picture so far. */
    var attrs: map<Attr, bool>
    /** Not set by `__init__`; None stands for the missing attribute. */
    var original: Option<Rgb>
    var toDisplay: Option<Rgb>
    var cacheColors: Option<Rgb>
    var qim: Option<seq<int>>

    ghost predicate Valid()
      reads this
    {
      && GuiAttrs <= attrs.Keys
      && (image ==>
            && original.Some? && RgbWf(original.value)
            && toDisplay.Some? && RgbWf(toDisplay.value) && RgbSize(toDisplay.value) == RgbSize(original.value)
            && cacheColors.Some? && RgbWf(cacheColors.value) && RgbSize(cacheColors.value) == RgbSize(original.value))
    }

    /** `Picture(parent)`: no image, and the four flags of `set_effects`, all False. */
    constructor ()
      ensures Valid() && !image
      ensures name == None && path == None
      ensures original == None && toDisplay == None && cacheColors == None && qim == None
      ensures attrs == InitialAttrs()
    {
      image := false;
      name, path := None, None;
      original, toDisplay, cacheColors, qim := None, None, None, None;
      attrs := map[];
      new;
      SetEffects();
    }

    /**
     * `set_effects`: the attribute of each entry of `effects` is set to
     * False; `changed_color_balance` is not among them and keeps its value.
     */
    method SetEffects()
      modifies this`attrs
      ensures attrs.Keys == old(attrs).Keys + GuiAttrs
      ensures forall n :: n in GuiAttrs ==> !attrs[n]
      ensures forall n :: n in old(attrs) && n !in GuiAttrs ==> attrs[n] == old(attrs)[n]
    {
      for i := 0 to |EffectOrder|
        invariant old(attrs).Keys <= attrs.Keys <= old(attrs).Keys + GuiAttrs
        invariant forall j :: 0 <= j < i ==> GuiAttr(EffectOrder[j]) in attrs && !attrs[GuiAttr(EffectOrder[j])]
        invariant forall n :: n in old(attrs) && n !in GuiAttrs ==> attrs[n] == old(attrs)[n]
      {
        attrs := attrs[GuiAttr(EffectOrder[i]) := false];
      }
      forall n | n in GuiAttrs
        ensures n in attrs && !attrs[n]
      {
        GuiAttrOfEffect(n);
        var e :| GuiAttr(e) == n;
        EffectListed(e);
      }
    }

    /** `qt_tweaks`. */
    method QtTweaks()
      requires toDisplay.Some? && RgbWf(toDisplay.value)
      modifies this`qim
      ensures qim == Some(QimBytes(toDisplay.value))
    {
      qim := Some(QimBytes(toDisplay.value));
    }

    /** `adjust_size`: a scaled pixmap is made from `qim`. */
    method AdjustSize()
      modifies this`image
      ensures image
    {
      image := true;
    }

    /** `update`. */
    method Update()
      requires Valid() && image
      modifies this`qim, this`image
      ensures Valid() && image
      ensures qim == Some(QimBytes(toDisplay.value))
    {
      QtTweaks();
      AdjustSize();
    }

    /**
     * `prep_image(fname)`, given the image `prepare_image` produced: the
     * display is the original itself, not a copy, and the cache takes the
     * original's planes (`get_cache_colors`).
     */
    method PrepImage(loaded: Rgb)
      requires Valid() && RgbWf(loaded)
      modifies this
      ensures Valid() && image
      ensures original == Some(loaded) && toDisplay == original && cacheColors == original
      ensures qim == Some(QimBytes(loaded))
      ensures name == old(name) && path == old(path) && attrs == old(attrs)
    {
      original := Some(loaded);
      toDisplay := original;
      cacheColors := original;
      QtTweaks();
      AdjustSize();
    }

    /**
     * `change_RGB(color, rgb_slider, color_slider, contrast_slider,
     * brightness_slider, sharpness_slider)`: with an image, the four effect
     * sliders are reset and the flags cleared; the display and the cache
     * are the image and the planes `change_color` returns. Without an image
     * nothing happens.
     */
    method ChangeRgb(c: Band, rgbSlider: ResetSlider, colorSlider: ResetSlider, contrastSlider: ResetSlider,
                     brightnessSlider: ResetSlider, sharpnessSlider: ResetSlider)
      requires Valid()
      requires colorSlider.Valid() && contrastSlider.Valid() && brightnessSlider.Valid() && sharpnessSlider.Valid()
      modifies this, colorSlider, contrastSlider, brightnessSlider, sharpnessSlider
      ensures Valid() && image == old(image)
      ensures !old(image) ==> unchanged(this, colorSlider, contrastSlider, brightnessSlider, sharpnessSlider)
      ensures old(image) ==> colorSlider.raw == colorSlider.Default() && contrastSlider.raw == contrastSlider.Default()
      ensures old(image) ==> brightnessSlider.raw == brightnessSlider.Default() && sharpnessSlider.raw == sharpnessSlider.Default()
      ensures old(image) ==> attrs.Keys == old(attrs).Keys && (forall n :: n in GuiAttrs ==> !attrs[n])
      ensures old(image) ==> forall n :: n in old(attrs) && n !in GuiAttrs ==> attrs[n] == old(attrs)[n]
      ensures old(image) ==>
        (toDisplay.value, cacheColors.value) == ChangeColor(old(original).value, old(toDisplay).value, c, rgbSlider.Value())
      ensures old(image) ==> qim == Some(QimBytes(toDisplay.value))
      ensures original == old(original) && name == old(name) && path == old(path)
    {
      if image {
        ResetEach([colorSlider, contrastSlider, brightnessSlider, sharpnessSlider]);
        SetEffects();
        var res := ChangeColor(original.value, toDisplay.value, c, rgbSlider.Value());
        toDisplay, cacheColors := Some(res.0), Some(res.1);
        Update();
      }
    }

    /**
     * `change_effect(slider, effect)`: with an image, the display becomes
     * the enhancement `change_effect` computes, which first re-bases the
     * cache on the display when another flag is set. An AttributeError
     * from the flag lookup is returned as `error`, with nothing changed.
     */
    method ChangeEffect(e: Effect, slider: ResetSlider, enhance: RgbEnhancer) returns (error: Option<Attr>)
      requires Valid() && RgbSizePreserving(enhance)
      modifies this
      ensures Valid() && image == old(image)
      ensures !old(image) ==> error.None? && unchanged(this)
      ensures old(image) ==> error == FirstMissing(EffectOrder, old(attrs), e)
      ensures error.Some? ==> unchanged(this)
      ensures old(image) && error.None? ==> attrs == AttrsAfter(old(attrs), e)
      ensures old(image) && error.None? ==>
        cacheColors == if OtherFlagSet(old(attrs), e) then old(toDisplay) else old(cacheColors)
      ensures old(image) && error.None? ==> toDisplay == Some(enhance(e, cacheColors.value, slider.Value()))
      ensures old(image) && error.None? ==> qim == Some(QimBytes(toDisplay.value))
      ensures original == old(original) && name == old(name) && path == old(path)
    {
      error := None;
      if image {
        var out := LegacyImageTools.ChangeEffect(attrs, toDisplay.value, cacheColors.value, e, slider.Value(), enhance);
        match out
        case AttributeError(n) =>
          error := Some(n);
        case Enhanced(newAttrs, cache, result) =>
          attrs := newAttrs;
          cacheColors := Some(cache);
          toDisplay := Some(result);
          Update();
      }
    }
  }

  class Commands {
    const pic: Picture
    /** The four effect sliders (Contrast, Color, Brightness, Sharpness), then red, green, blue. */
    const sliders: seq<ResetSlider>

    ghost predicate Valid()
      reads this, pic, set s | s in sliders
    {
      pic.Valid() && SlidersShape(sliders, LegacyEffectMax)
    }

    function EffectSlider(e: Effect): ResetSlider
      reads this
      requires |sliders| == 7
    {
      sliders[EffectIndex(e)]
    }

    function RgbSlider(c: Band): ResetSlider
      reads this
      requires |sliders| == 7
    {
      sliders[BandIndex(c)]
    }

    /** `Commands(parent, pic)`: effect sliders in 0..2000, RGB sliders as in the newer revision. */
    constructor (pic: Picture)
      requires pic.Valid()
      ensures Valid() && this.pic == pic
      ensures forall e :: EffectSlider(e).raw == 1000
      ensures forall c :: RgbSlider(c).raw == 0
      ensures forall s :: s in sliders ==> fresh(s)
    {
      this.pic := pic;
      var ss := NewSliders(LegacyEffectMax);
      sliders := ss;
    }

    /** `reset_sliders`. */
    method ResetSliders()
      requires Valid()
      modifies set s | s in sliders
      ensures Valid()
      ensures forall e :: EffectSlider(e).raw == 1000
      ensures forall c :: RgbSlider(c).raw == 0
    {
      ResetEach(sliders);
    }

    /** `reset_RGB_sliders`: only the red, green and blue sliders go back to 0. */
    method ResetRgbSliders()
      requires Valid()
      modifies set s | s in sliders[4..]
      ensures Valid()
      ensures forall c :: RgbSlider(c).raw == 0
      ensures forall e :: EffectSlider(e).raw == old(EffectSlider(e).raw)
    {
      ResetEach(sliders[4..]);
    }

    /**
     * The handler `make_RGB_sliders` connects to the slider of band `c`:
     * `pic.change_RGB` with that slider and the Color, Contrast, Brightness
     * and Sharpness sliders.
     */
    method ChangeRgb(c: Band)
      requires Valid()
      modifies pic, set s | s in sliders[..4]
      ensures Valid() && pic.image == old(pic.image)
      ensures !old(pic.image) ==> unchanged(pic) && unchanged(set s | s in sliders)
      ensures old(pic.image) ==> forall e :: EffectSlider(e).raw == 1000
      ensures old(pic.image) ==> forall n :: n in GuiAttrs ==> !pic.attrs[n]
      ensures old(pic.image) ==>
        (pic.toDisplay.value, pic.cacheColors.value)
          == ChangeColor(old(pic.original).value, old(pic.toDisplay).value, c, old(RgbSlider(c).Value()))
      ensures old(pic.image) ==> pic.attrs.Keys == old(pic.attrs).Keys
      ensures old(pic.image) ==> forall n :: n in old(pic.attrs) && n !in GuiAttrs ==> pic.attrs[n] == old(pic.attrs)[n]
      ensures old(pic.image) ==> pic.qim == Some(QimBytes(pic.toDisplay.value))
      ensures pic.original == old(pic.original) && pic.name == old(pic.name) && pic.path == old(pic.path)
      ensures forall b :: RgbSlider(b).raw == old(RgbSlider(b).raw)
    {
      pic.ChangeRgb(c, RgbSlider(c), EffectSlider(Color), EffectSlider(Contrast),
                    EffectSlider(Brightness), EffectSlider(Sharpness));
    }

    /** The handler `make_effect_slider` connects to the slider of effect `e`. */
    method ChangeEffect(e: Effect, enhance: RgbEnhancer) returns (error: Option<Attr>)
      requires Valid() && RgbSizePreserving(enhance)
      modifies pic
      ensures Valid() && pic.image == old(pic.image)
      ensures old(pic.image) ==> error == FirstMissing(EffectOrder, old(pic.attrs), e)
      ensures old(pic.image) && error.None? ==> pic.attrs == AttrsAfter(old(pic.attrs), e)
      ensures old(pic.image) && error.None? ==>
        pic.cacheColors == if OtherFlagSet(old(pic.attrs), e) then old(pic.toDisplay) else old(pic.cacheColors)
      ensures old(pic.image) && error.None? ==> pic.toDisplay == Some(enhance(e, pic.cacheColors.value, EffectSlider(e).Value()))
      ensures old(pic.image) && error.None? ==> pic.qim == Some(QimBytes(pic.toDisplay.value))
      ensures pic.original == old(pic.original) && pic.name == old(pic.name) && pic.path == old(pic.path)
      ensures !old(pic.image) || error.Some? ==> unchanged(pic)
    {
      error := pic.ChangeEffect(e, EffectSlider(e), enhance);
    }

    /**
     * `delete`: every slider back to its default; with an image, the
     * picture's display, original, image, name, path and cache are cleared.
     */
    method Delete()
      requires Valid()
      modifies pic, set s | s in sliders
      ensures Valid() && !pic.image
      ensures forall e :: EffectSlider(e).raw == 1000
      ensures forall c :: RgbSlider(c).raw == 0
      ensures old(pic.image) ==> pic.toDisplay == None && pic.original == None && pic.cacheColors == None
      ensures old(pic.image) ==> pic.name == None && pic.path == None && pic.qim == Some([])
      ensures !old(pic.image) ==> unchanged(pic)
      ensures pic.attrs == old(pic.attrs)
    {
      ResetSliders();
      if pic.image {
        pic.qim := Some([]);
        pic.toDisplay := None;
        pic.original := None;
        pic.image := false;
        pic.name := None;
        pic.path := None;
        pic.cacheColors := None;
      }
    }

    /**
     * `total_reset`: every slider back to its default; with an image, the
     * display is the original again and the cache takes its planes.
     */
    method TotalReset()
      requires Valid()
      modifies pic, set s | s in sliders
      ensures Valid() && pic.image == old(pic.image)
      ensures forall e :: EffectSlider(e).raw == 1000
      ensures forall c :: RgbSlider(c).raw == 0
      ensures old(pic.image) ==> pic.toDisplay == old(pic.original) && pic.cacheColors == old(pic.original)
      ensures old(pic.image) ==> pic.qim == Some(QimBytes(pic.original.value))
      ensures !old(pic.image) ==> unchanged(pic)
      ensures pic.original == old(pic.original) && pic.attrs == old(pic.attrs)
      ensures pic.name == old(pic.name) && pic.path == old(pic.path)
    {
      ResetSliders();
      if pic.image {
        pic.toDisplay := pic.original;
        pic.cacheColors := pic.original;
        pic.Update();
      }
    }
  }
}
