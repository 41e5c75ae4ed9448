// Modules/Gui/filters.py: the check boxes of the predefined Pillow filters
// and of the transparency filter.
module FiltersWidget {
  import opened Channels
  import opened Pillow
  import opened PictureWidget
  import opened ImageTools

  /** The filter check boxes, in the order of the `filters` OrderedDict. */
  const AllKernels: seq<Kernel> :=
    [Blur, Contour, Detail, EdgeEnhance, EdgeEnhanceMore, Emboss, FindEdges, Sharpen, Smooth, SmoothMore]

  lemma AllKernelsListed(k: Kernel)
    ensures k in AllKernels
  {
    match k
    case Blur => assert AllKernels[0] == k;
    case Contour => assert AllKernels[1] == k;
    case Detail => assert AllKernels[2] == k;
    case EdgeEnhance => assert AllKernels[3] == k;
    case EdgeEnhanceMore => assert AllKernels[4] == k;
    case Emboss => assert AllKernels[5] == k;
    case FindEdges => assert AllKernels[6] == k;
    case Sharpen => assert AllKernels[7] == k;
    case Smooth => assert AllKernels[8] == k;
    case SmoothMore => assert AllKernels[9] == k;
  }

  /** At most one filter box is checked. */
  predicate AtMostOneChecked(checked: map<Kernel, bool>) {
    forall k1, k2 :: k1 in checked && k2 in checked && checked[k1] && checked[k2] ==> k1 == k2
  }

  /** The boxes after every one except `name` has been unchecked. */
  function OnlyBox(checked: map<Kernel, bool>, name: Kernel, state: bool): (res: map<Kernel, bool>)
    requires forall k :: k in checked
    ensures forall k :: k in res
    ensures res[name] == state
    ensures forall k :: k != name ==> !res[k]
    ensures AtMostOneChecked(res)
  {
    map k: Kernel | k in checked :: if k == name then state else false
  }

  /** A box for every kernel, none of them checked. */
  function NoneChecked(): (res: map<Kernel, bool>)
    ensures forall k :: k in res && !res[k]
  {
    var m := map k | k in AllKernels :: false;
    assert forall k :: k in m by {
      forall k
        ensures k in m
      {
        AllKernelsListed(k);
      }
    }
    m
  }

  /**
   * The list comprehension of `apply` that unchecks every box other than
   * `name`, one box after the other.
   */
  method UncheckOthers(checked: map<Kernel, bool>, name: Kernel) returns (boxes: map<Kernel, bool>)
    requires forall k :: k in checked
    ensures boxes == OnlyBox(checked, name, checked[name])
  {
    boxes := checked;
    for i := 0 to |AllKernels|
      invariant forall k :: k in boxes
      invariant boxes[name] == checked[name]
      invariant forall j :: 0 <= j < i ==> AllKernels[j] != name ==> !boxes[AllKernels[j]]
      invariant forall k :: k !in AllKernels[..i] ==> boxes[k] == checked[k]
    {
      if AllKernels[i] != name {
        boxes := boxes[AllKernels[i] := false];
      }
    }
    forall k | k != name
      ensures !boxes[k]
    {
      AllKernelsListed(k);
    }
  }

  class Filters {
    const pic: Picture
    /** The state of each filter check box. */
    var checked: map<Kernel, bool>
    /** The state of the transparency check box. */
    var transparency: bool

    /** There is a box for every kernel. */
    ghost predicate Valid()
      reads this
    {
      forall k :: k in checked
    }

    constructor (pic: Picture)
      ensures Valid() && this.pic == pic
      ensures forall k :: !checked[k]
      ensures !transparency
    {
      this.pic := pic;
      checked := NoneChecked();
      transparency := false;
    }

    /**
     * `apply(name, state)`, run when the box `name` is set to `state`.
     * With an image, checking a filter unchecks every other box, saves the
     * display in `before_filter` and shows the filtered display with its
     * old alpha plane; unchecking shows `before_filter` again. Without an
     * image only the clicked box changes.
     */
    method Apply(name: Kernel, state: bool, filter: Filter)
      requires Valid() && pic.Valid() && FilterSizePreserving(filter)
      modifies this, pic
      ensures Valid() && pic.Valid() && pic.image == old(pic.image)
      ensures transparency == old(transparency)
      ensures !old(pic.image) ==> checked == old(checked)[name := state] && unchanged(pic)
      ensures old(pic.image) && state ==> checked == OnlyBox(old(checked), name, true)
      ensures old(pic.image) && state ==> pic.beforeFilter == old(pic.toDisplay)
      ensures old(pic.image) && state ==>
        pic.toDisplay == Some(PutAlpha(filter(name, old(pic.toDisplay).value), old(pic.toDisplay).value.a))
      ensures old(pic.image) && !state ==> checked == old(checked)[name := false]
      ensures old(pic.image) && !state ==> pic.toDisplay == old(pic.beforeFilter) && pic.beforeFilter == old(pic.beforeFilter)
      ensures old(pic.image) ==> pic.qim == Some(RawRgba(SwapRedBlue(pic.toDisplay.value)))
      ensures pic.original == old(pic.original) && pic.cacheColors == old(pic.cacheColors)
      ensures pic.originalAlpha == old(pic.originalAlpha) && pic.whitePixels == old(pic.whitePixels)
      ensures pic.name == old(pic.name) && pic.path == old(pic.path) && pic.extension == old(pic.extension)
    {
      checked := checked[name := state];
      if pic.image {
        if state {
          checked := UncheckOthers(checked, name);
          var display := pic.toDisplay.value;
          pic.beforeFilter := pic.toDisplay;
          var alpha := display.a;
          pic.toDisplay := Some(PutAlpha(filter(name, display), alpha));
        } else {
          pic.toDisplay := pic.beforeFilter;
        }
        pic.Update();
      }
    }

    /**
     * `make_pic_transparent(state)`: with an image, checking mattes the
     * white pixels of the display and unchecking restores them; either way
     * the cache then takes the planes of the new display. When
     * `reset_alpha` raises IndexError (`raised`) the handler stops before
     * the cache and the display are refreshed.
     */
    method MakePicTransparent(state: bool) returns (raised: bool)
      requires Valid() && pic.Valid()
      modifies this, pic
      ensures Valid() && pic.Valid() && pic.image == old(pic.image)
      ensures transparency == state && checked == old(checked)
      ensures !old(pic.image) ==> !raised && unchanged(pic)
      ensures old(pic.image) && state ==> !raised && pic.toDisplay == Some(Matte(old(pic.toDisplay).value))
      ensures old(pic.image) && state ==> pic.whitePixels.Some? && ListsWhite(old(pic.toDisplay).value, pic.whitePixels.value)
      ensures old(pic.image) && !state && old(pic.whitePixels).None? ==> pic.whitePixels == None
      ensures old(pic.image) && !state && old(pic.whitePixels).Some? ==>
        pic.whitePixels == Some(Consumed(old(pic.whitePixels).value, Size(old(pic.toDisplay).value)))
      ensures old(pic.image) && !state && old(pic.whitePixels).None? ==> !raised && pic.toDisplay == old(pic.toDisplay)
      ensures old(pic.image) && !state && old(pic.whitePixels).Some? ==>
        (raised <==> OutOfRange(old(pic.whitePixels).value, Size(old(pic.toDisplay).value)))
      ensures old(pic.image) && !state && old(pic.whitePixels).Some? && !raised ==>
        pic.toDisplay == Some(Unmatte(old(pic.toDisplay).value, old(pic.whitePixels).value, old(pic.originalAlpha).value))
      ensures raised ==> pic.toDisplay == old(pic.toDisplay) && pic.cacheColors == old(pic.cacheColors) && pic.qim == old(pic.qim)
      ensures old(pic.image) && !raised ==> pic.cacheColors == pic.toDisplay
      ensures old(pic.image) && !raised ==> pic.qim == Some(RawRgba(SwapRedBlue(pic.toDisplay.value)))
      ensures pic.original == old(pic.original) && pic.originalAlpha == old(pic.originalAlpha)
      ensures pic.beforeFilter == old(pic.beforeFilter)
      ensures pic.name == old(pic.name) && pic.path == old(pic.path) && pic.extension == old(pic.extension)
    {
      transparency := state;
      raised := false;
      if pic.image {
        if state {
          MakeTransparent(pic);
        } else {
          raised := ResetAlpha(pic);
          if raised {
            return;
          }
        }
        pic.cacheColors := pic.toDisplay;
        pic.Update();
      }
    }

    /**
     * `reset(reset_tranparency)`: every filter box is unchecked, and the
     * transparency box too when asked.
     */
    method Reset(resetTransparency: bool)
      requires Valid()
      modifies this
      ensures Valid()
      ensures forall k :: !checked[k]
      ensures transparency == if resetTransparency then false else old(transparency)
    {
      for i := 0 to |AllKernels|
        invariant Valid()
        invariant forall j :: 0 <= j < i ==> !checked[AllKernels[j]]
        invariant transparency == old(transparency)
      {
        checked := checked[AllKernels[i] := false];
      }
      forall k
        ensures !checked[k]
      {
        AllKernelsListed(k);
      }
      if resetTransparency {
        transparency := false;
      }
    }
  }

  /**
   * Checking a filter and unchecking it again shows the display the filter
   * was applied to.
   */
  method CheckThenUncheck(filters: Filters, name: Kernel, filter: Filter)
    requires filters.Valid() && filters.pic.Valid() && filters.pic.image && FilterSizePreserving(filter)
    modifies filters, filters.pic
    ensures filters.Valid() && filters.pic.toDisplay == old(filters.pic.toDisplay)
    ensures filters.pic.beforeFilter == old(filters.pic.toDisplay)
    ensures forall k :: !filters.checked[k]
  {
    filters.Apply(name, true, filter);
    filters.Apply(name, false, filter);
  }

  /**
   * Unchecking transparency consumes the record of white pixels; a second
   * uncheck finds the record empty but present, so it raises nothing, puts
   * back the alpha plane saved at load once more, and leaves the display as
   * the first uncheck left it.
   */
  method UncheckTwice(filters: Filters) returns (first: bool, second: bool)
    requires filters.Valid() && filters.pic.Valid() && filters.pic.image
    requires filters.pic.whitePixels.Some?
    requires !OutOfRange(filters.pic.whitePixels.value, Size(filters.pic.toDisplay.value))
    modifies filters, filters.pic
    ensures !first && !second && !filters.transparency
    ensures filters.pic.whitePixels == Some([])
    ensures filters.pic.toDisplay.Some? && filters.pic.originalAlpha.Some?
    ensures filters.pic.toDisplay.value.a == filters.pic.originalAlpha.value
    ensures filters.pic.toDisplay
         == Some(Unmatte(old(filters.pic.toDisplay).value, old(filters.pic.whitePixels).value, old(filters.pic.originalAlpha).value))
  {
    first := filters.MakePicTransparent(false);
    ghost var once := filters.pic.toDisplay.value;
    second := filters.MakePicTransparent(false);
    UnmatteNothing(once);
  }
}
