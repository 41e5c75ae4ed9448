// Modules/Gui/commands.py: the sliders tab. Its handlers decide what the
// picture's display and cache become when an RGB or an effect slider moves,
// and what the reset buttons restore.
module CommandsWidget {
  import opened Channels
  import opened Pillow
  import opened SliderWidget
  import opened PictureWidget
  import opened ImageTools
  import opened FiltersWidget

  /** `maxv` of `make_effect_slider`. */
  const EffectMax: int := 3000

  /** The effects dict of `__init__`: the four effects, none applied. */
  function NoEffects(): (res: map<Effect, bool>)
    ensures forall e :: e in res && !res[e]
  {
    var m := map e | e in EffectSliderOrder :: false;
    assert forall e :: e in m by {
      forall e
        ensures e in m
      {
        assert EffectSliderOrder[EffectIndex(e)] == e;
      }
    }
    m
  }

  class Commands {
    const pic: Picture
    const filters: Filters
    /** The flags `change_effect` reads and updates. */
    var effects: map<Effect, bool>
    /**
     * `self.sliders`: the four effect sliders, then red, green and blue;
     * `effect_sliders` and `rgb_sliders` are views of it.
     */
    const sliders: seq<ResetSlider>

    ghost predicate Valid()
      reads this, filters, pic, set s | s in sliders
    {
      && filters.pic == pic && filters.Valid() && pic.Valid()
      && (forall e :: e in effects)
      && SlidersShape(sliders, EffectMax)
    }

    function EffectSlider(e: Effect): ResetSlider
      reads this
      requires |sliders| == 7
    {
      sliders[EffectIndex(e)]
    }

    function RgbSlider(c: Band): ResetSlider
      reads this
      requires |sliders| == 7
    {
      sliders[BandIndex(c)]
    }

    /**
     * `Commands(parent, pic, filters)`: no effect applied, four effect
     * sliders at 1000 in 0..3000 scaled by 1000 (so each reports 1.0), and
     * three RGB sliders at 0 in -255..255 scaled by Qt.Vertical.
     */
    constructor (pic: Picture, filters: Filters)
      requires filters.pic == pic && filters.Valid() && pic.Valid()
      ensures Valid() && this.pic == pic && this.filters == filters
      ensures effects == NoEffects()
      ensures forall e :: EffectSlider(e).raw == 1000 && EffectSlider(e).Value() == 1.0
      ensures forall c :: RgbSlider(c).raw == 0 && RgbSlider(c).Value() == 0.0
      ensures forall s :: s in sliders ==> fresh(s)
    {
      this.pic := pic;
      this.filters := filters;
      effects := NoEffects();
      var ss := NewSliders(EffectMax);
      sliders := ss;
    }

    /** `set_effects`: every flag is cleared, one key after the other. */
    method SetEffects()
      requires forall e :: e in effects
      modifies this`effects
      ensures effects == NoEffects()
    {
      var todo := effects.Keys;
      while todo != {}
        invariant forall e :: e in effects
        invariant forall e :: e !in todo ==> !effects[e]
        decreases todo
      {
        var k :| k in todo;
        effects := effects[k := false];
        todo := todo - {k};
      }
    }

    /** `reset_sliders`: every slider back to its default position. */
    method ResetSliders()
      requires Valid()
      modifies set s | s in sliders
      ensures Valid()
      ensures forall e :: EffectSlider(e).raw == 1000
      ensures forall c :: RgbSlider(c).raw == 0
    {
      ResetEach(sliders);
    }

    /**
     * `reset_RGB_sliders`: the filter boxes are unchecked and the red, green
     * and blue sliders go back to 0; the effect sliders stay where they are.
     */
    method ResetRgbSliders()
      requires Valid()
      modifies filters, set s | s in sliders[4..]
      ensures Valid()
      ensures forall c :: RgbSlider(c).raw == 0
      ensures forall e :: EffectSlider(e).raw == old(EffectSlider(e).raw)
      ensures forall k :: !filters.checked[k]
      ensures filters.transparency == old(filters.transparency)
    {
      filters.Reset(false);
      ResetEach(sliders[4..]);
    }

    /**
     * `change_RGB(color, rgb_slider)`: with an image, the filter boxes are
     * unchecked, the effect sliders reset and the flags cleared; the display
     * becomes the RGB offset of band `c` by the slider's value, and the
     * cache takes its planes. Without an image nothing happens.
     */
    method ChangeRgb(c: Band)
      requires Valid()
      modifies this, filters, pic, set s | s in sliders[..4]
      ensures Valid()
      ensures !old(pic.image) ==> unchanged(this, filters, pic) && unchanged(set s | s in sliders)
      ensures old(pic.image) ==> effects == NoEffects()
      ensures old(pic.image) ==> forall e :: EffectSlider(e).raw == 1000
      ensures old(pic.image) ==> forall k :: !filters.checked[k]
      ensures old(pic.image) ==>
        pic.toDisplay == Some(ChangeRgbColor(old(pic.original).value, old(pic.toDisplay).value, c, old(RgbSlider(c).Value())))
      ensures old(pic.image) ==> pic.cacheColors == pic.toDisplay && pic.image
      ensures old(pic.image) ==> pic.qim == Some(RawRgba(SwapRedBlue(pic.toDisplay.value)))
      ensures forall b :: RgbSlider(b).raw == old(RgbSlider(b).raw)
      ensures pic.original == old(pic.original) && pic.originalAlpha == old(pic.originalAlpha)
      ensures pic.beforeFilter == old(pic.beforeFilter) && pic.whitePixels == old(pic.whitePixels)
      ensures filters.transparency == old(filters.transparency)
      ensures pic.name == old(pic.name) && pic.path == old(pic.path) && pic.extension == old(pic.extension)
    {
      if pic.image {
        filters.Reset(false);
        ResetEach(sliders[..4]);
        SetEffects();
        var offset := RgbSlider(c).Value();
        pic.toDisplay := Some(ChangeRgbColor(pic.original.value, pic.toDisplay.value, c, offset));
        pic.cacheColors := pic.toDisplay;
        pic.Update();
      }
    }

    /**
     * `change_effect(slider, effect)`: with an image, the filter boxes are
     * unchecked and the display becomes the enhancement `change_effect`
     * computes from the cache, which is re-based on the display first when
     * another effect was applied. Without an image nothing happens.
     */
    method ChangeEffect(e: Effect, enhance: Enhancer)
      requires Valid() && SizePreserving(enhance)
      modifies this, filters, pic
      ensures Valid()
      ensures !old(pic.image) ==> unchanged(this, filters, pic)
      ensures old(pic.image) ==> effects == FlagsAfter(old(effects), e)
      ensures old(pic.image) ==>
        pic.cacheColors == if OtherEffectActive(old(effects), e) then old(pic.toDisplay) else old(pic.cacheColors)
      ensures old(pic.image) ==> pic.toDisplay == Some(enhance(e, pic.cacheColors.value, EffectSlider(e).Value()))
      ensures old(pic.image) ==> forall k :: !filters.checked[k]
      ensures old(pic.image) ==> pic.image && pic.qim == Some(RawRgba(SwapRedBlue(pic.toDisplay.value)))
      ensures pic.original == old(pic.original) && pic.originalAlpha == old(pic.originalAlpha)
      ensures pic.beforeFilter == old(pic.beforeFilter) && pic.whitePixels == old(pic.whitePixels)
      ensures filters.transparency == old(filters.transparency)
      ensures pic.name == old(pic.name) && pic.path == old(pic.path) && pic.extension == old(pic.extension)
    {
      if pic.image {
        filters.Reset(false);
        var result, newEffects := ImageTools.ChangeEffect(pic, EffectSlider(e).Value(), e, effects, enhance);
        assert pic.name == old(pic.name) && pic.path == old(pic.path) && pic.extension == old(pic.extension);
        effects := newEffects;
        pic.toDisplay := Some(result);
        pic.Update();
      }
    }

    /**
     * `delete`: every slider back to its default, every box (transparency
     * included) unchecked, and the picture's image dropped.
     */
    method Delete()
      requires Valid()
      modifies filters, pic, set s | s in sliders
      ensures Valid() && !pic.image
      ensures forall e :: EffectSlider(e).raw == 1000
      ensures forall c :: RgbSlider(c).raw == 0
      ensures forall k :: !filters.checked[k]
      ensures !filters.transparency
      ensures old(pic.image) ==> pic.toDisplay == None && pic.original == None && pic.cacheColors == None
      ensures old(pic.image) ==> pic.name == None && pic.path == None && pic.extension == None
      ensures old(pic.image) ==> pic.qim == Some([])
      ensures !old(pic.image) ==> unchanged(pic)
      ensures pic.originalAlpha == old(pic.originalAlpha) && pic.whitePixels == old(pic.whitePixels)
      ensures pic.beforeFilter == old(pic.beforeFilter)
      ensures effects == old(effects)
    {
      ResetSliders();
      filters.Reset(true);
      pic.Reset();
    }

    /**
     * `total_reset`: every slider back to its default, every box unchecked,
     * and the picture restored to the original.
     */
    method TotalReset()
      requires Valid()
      modifies filters, pic, set s | s in sliders
      ensures Valid() && pic.image == old(pic.image)
      ensures forall e :: EffectSlider(e).raw == 1000
      ensures forall c :: RgbSlider(c).raw == 0
      ensures forall k :: !filters.checked[k]
      ensures !filters.transparency
      ensures old(pic.image) ==> pic.toDisplay == old(pic.original) && pic.cacheColors == old(pic.original)
      ensures old(pic.image) ==> pic.qim == Some(RawRgba(SwapRedBlue(pic.original.value)))
      ensures !old(pic.image) ==> unchanged(pic)
      ensures pic.original == old(pic.original) && pic.originalAlpha == old(pic.originalAlpha)
      ensures pic.beforeFilter == old(pic.beforeFilter) && pic.whitePixels == old(pic.whitePixels)
      ensures pic.name == old(pic.name) && pic.path == old(pic.path) && pic.extension == old(pic.extension)
      ensures effects == old(effects)
    {
      ResetSliders();
      filters.Reset(true);
      pic.Restore();
    }
  }
}
