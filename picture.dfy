// Modules/Gui/picture.py: the label that holds the loaded image and every
// image-valued piece of the edit state.
module PictureWidget {
  import opened Channels

  /**
   * The reorder `qt_tweaks` applies before handing the buffer to QImage:
   * the planes are merged as (b, g, r, alpha).
   */
  function SwapRedBlue(im: Image): Image {
    Image(im.b, im.g, im.r, im.a)
  }

  /** The buffer passed to QImage holds B, G, R, A for each pixel, in pixel order. */
  lemma QimLayout(im: Image, i: nat)
    requires Wf(im) && i < Size(im)
    ensures |RawRgba(SwapRedBlue(im))| == 4 * Size(im)
    ensures RawRgba(SwapRedBlue(im))[4 * i] == im.b[i]
    ensures RawRgba(SwapRedBlue(im))[4 * i + 1] == im.g[i]
    ensures RawRgba(SwapRedBlue(im))[4 * i + 2] == im.r[i]
    ensures RawRgba(SwapRedBlue(im))[4 * i + 3] == im.a[i]
  {
    RawRgbaLayout(SwapRedBlue(im), i);
  }

  /** The picture fields `prep_image` assigns, and the pixmap it builds. */
  datatype Field = OriginalField | DisplayField | SnapshotField | CacheField | AlphaField | QimField | PixmapField

  /**
   * Pillow modes with a band named "A", the band `getchannel("A")` reads:
   * an alpha band, or the a* band of CIELab.
   */
  predicate HasAlphaBand(m: Mode) {
    m == RGBA || m == OtherMode("LA") || m == OtherMode("PA") || m == OtherMode("LAB")
  }

  /**
   * `prep_image` as written, on an image `prepare_image` left in mode `m`:
   * the fields it assigns, in order, and whether it raises. The original,
   * the display, the snapshot and the cache are assigned before anything
   * can fail; `getchannel("A")` then raises on a mode without a band
   * named "A", and the four-way unpack of `qt_tweaks` on any mode but RGBA. A
   * raise leaves those fields holding the new image beside the old buffer
   * and pixmap.
   */
  function PrepImageAsWritten(m: Mode): (r: (seq<Field>, bool))
    ensures |r.0| >= 4 && r.0[..4] == [OriginalField, DisplayField, SnapshotField, CacheField]
    ensures !r.1 <==> m == RGBA
    ensures !r.1 ==> r.0[4..] == [AlphaField, QimField, PixmapField]
    ensures r.1 ==> QimField !in r.0 && PixmapField !in r.0
    ensures r.1 ==> (AlphaField in r.0 <==> HasAlphaBand(m))
  {
    var loaded := [OriginalField, DisplayField, SnapshotField, CacheField];
    if !HasAlphaBand(m) then (loaded, true)
    else if m != RGBA then (loaded + [AlphaField], true)
    else (loaded + [AlphaField, QimField, PixmapField], false)
  }

  class Picture {
    /** Truthiness of the scaled pixmap `image`: an image is loaded and shown. */
    var image: bool
    var name: Option<string>
    var path: Option<string>
    var extension: Option<string>
    var toDisplay: Option<Image>
    var original: Option<Image>
    var originalAlpha: Option<seq<int>>
    var cacheColors: Option<Image>
    /** The indices the `white_pixels` generator has still to yield. */
    var whitePixels: Option<seq<nat>>
    /** The raw buffer last handed to QImage. */
    var qim: Option<seq<int>>
    /** Not set by `__init__`; None here stands for the missing attribute. */
    var beforeFilter: Option<Image>

    /**
     * While an image is loaded, every image-valued field is present and
     * has the size of `original`.
     */
    ghost predicate Valid()
      reads this
    {
      image ==>
        && original.Some? && Wf(original.value)
        && toDisplay.Some? && Wf(toDisplay.value) && Size(toDisplay.value) == Size(original.value)
        && cacheColors.Some? && Wf(cacheColors.value) && Size(cacheColors.value) == Size(original.value)
        && beforeFilter.Some? && Wf(beforeFilter.value) && Size(beforeFilter.value) == Size(original.value)
        && originalAlpha.Some? && IsPlane(originalAlpha.value, Size(original.value))
    }

    constructor ()
      ensures Valid() && !image
      ensures name == None && path == None && extension == None
      ensures toDisplay == None && original == None && originalAlpha == None
      ensures cacheColors == None && whitePixels == None && qim == None
      ensures beforeFilter == None
    {
      image := false;
      name, path, extension := None, None, None;
      toDisplay, original, originalAlpha := None, None, None;
      cacheColors, whitePixels, qim := None, None, None;
      beforeFilter := None;
    }

    /**
     * `prep_image`, given the image `prepare_image` produced from `path`:
     * display and snapshot are copies of the original, the cache holds the
     * original's planes and its alpha plane is saved.
     */
    method PrepImage(loaded: Image)
      requires Wf(loaded)
      modifies this
      ensures Valid() && image
      ensures original == Some(loaded) && toDisplay == Some(loaded) && beforeFilter == Some(loaded)
      ensures cacheColors == Some(loaded) && originalAlpha == Some(loaded.a)
      ensures qim == Some(RawRgba(SwapRedBlue(loaded)))
      ensures name == old(name) && path == old(path) && extension == old(extension)
      ensures whitePixels == old(whitePixels)
    {
      original := Some(loaded);
      toDisplay := Some(loaded);
      beforeFilter := Some(loaded);
      cacheColors := Some(loaded);
      originalAlpha := Some(loaded.a);
      QtTweaks();
      AdjustSize();
    }

    /** `qt_tweaks`: the display buffer is `to_display` with red and blue swapped. */
    method QtTweaks()
      requires toDisplay.Some? && Wf(toDisplay.value)
      modifies this`qim
      ensures qim == Some(RawRgba(SwapRedBlue(toDisplay.value)))
    {
      qim := Some(RawRgba(SwapRedBlue(toDisplay.value)));
    }

    /** `adjust_size`: a scaled pixmap is made from `qim`. */
    method AdjustSize()
      modifies this`image
      ensures image
    {
      image := true;
    }

    /** `update`: redraw from `to_display`. */
    method Update()
      requires Valid() && image
      modifies this`qim, this`image
      ensures Valid() && image
      ensures qim == Some(RawRgba(SwapRedBlue(toDisplay.value)))
    {
      QtTweaks();
      AdjustSize();
    }

    /**
     * `reset`: with an image, drop it and clear the fields naming it; the
     * saved alpha, the white-pixel record and the filter snapshot stay.
     */
    method Reset()
      requires Valid()
      modifies this
      ensures Valid() && !image
      ensures old(image) ==> toDisplay == None && original == None && name == None
      ensures old(image) ==> path == None && extension == None && cacheColors == None
      ensures old(image) ==> qim == Some([])
      ensures !old(image) ==> toDisplay == old(toDisplay) && original == old(original)
      ensures !old(image) ==> name == old(name) && path == old(path) && extension == old(extension)
      ensures !old(image) ==> cacheColors == old(cacheColors) && qim == old(qim)
      ensures !old(image) ==> unchanged(this)
      ensures originalAlpha == old(originalAlpha) && whitePixels == old(whitePixels)
      ensures beforeFilter == old(beforeFilter)
    {
      if image {
        qim := Some([]);
        AdjustSize();
        toDisplay := None;
        original := None;
        image := false;
        name := None;
        path := None;
        extension := None;
        cacheColors := None;
      }
    }

    /** `restore`: with an image, show a fresh copy of the original again. */
    method Restore()
      requires Valid()
      modifies this
      ensures Valid() && image == old(image)
      ensures old(image) ==> toDisplay == old(original) && cacheColors == old(original)
      ensures old(image) ==> qim == Some(RawRgba(SwapRedBlue(original.value)))
      ensures !old(image) ==> toDisplay == old(toDisplay) && cacheColors == old(cacheColors)
      ensures !old(image) ==> qim == old(qim) && unchanged(this)
      ensures original == old(original) && originalAlpha == old(originalAlpha)
      ensures beforeFilter == old(beforeFilter) && whitePixels == old(whitePixels)
      ensures name == old(name) && path == old(path) && extension == old(extension)
    {
      if image {
        toDisplay := original;
        cacheColors := original;
        Update();
      }
    }
  }
}
