// Modules/image_tools.py: the pixel-level operations behind the sliders and
// check boxes, and the bookkeeping that decides which planes an edit starts
// from.
module ImageTools {
  import opened Channels
  import opened Pillow
  import opened PictureWidget

  // ---------------------------------------------------------------------
  // prepare_image: mode normalisation on load
  // ---------------------------------------------------------------------

  /**
   * The mode `prepare_image` leaves a freshly opened image in: grey-scale,
   * RGB and palette images become RGBA, RGBA stays, and any other mode is
   * left as it is.
   */
  function PrepareMode(m: Mode): (r: Mode)
    ensures m == L || m == RGB || m == P || m == RGBA ==> r == RGBA
    ensures m.OtherMode? ==> r == m
  {
    var first := if m == L || m == RGB then RGBA else m;
    if first == P then RGBA else first
  }

  /**
   * What the docstring of `prepare_image` promises: every loaded image is
   * converted to RGBA. It agrees with `PrepareMode` wherever that yields
   * RGBA.
   */
  function IntendedPrepareMode(m: Mode): (r: Mode)
    ensures r == RGBA
    ensures PrepareMode(m) == RGBA ==> r == PrepareMode(m)
  {
    RGBA
  }

  /**
   * As written, `prep_image` completes exactly on the modes `prepare_image`
   * converts; on every other mode it raises after the original, display,
   * snapshot and cache already hold the new image, and before the buffer
   * and pixmap are rebuilt.
   */
  lemma PrepImageHalfLoads(m: Mode)
    requires CanonicalMode(m)
    ensures PrepImageAsWritten(PrepareMode(m)).1 <==> m.OtherMode?
    ensures m.OtherMode? ==> OriginalField in PrepImageAsWritten(PrepareMode(m)).0
    ensures m.OtherMode? ==> QimField !in PrepImageAsWritten(PrepareMode(m)).0
  {
    assert OriginalField == PrepImageAsWritten(PrepareMode(m)).0[0];
  }

  /** A CMYK image raises at `getchannel("A")`, after four fields are assigned. */
  lemma CmykHalfLoads()
    ensures PrepImageAsWritten(PrepareMode(OtherMode("CMYK")))
         == ([OriginalField, DisplayField, SnapshotField, CacheField], true)
  {
  }

  /**
   * A CIELab image passes `getchannel("A")`, which reads its a* band, so the
   * saved alpha is replaced too before the four-way unpack raises.
   */
  lemma LabHalfLoads()
    ensures PrepImageAsWritten(PrepareMode(OtherMode("LAB")))
         == ([OriginalField, DisplayField, SnapshotField, CacheField, AlphaField], true)
  {
    assert [OriginalField, DisplayField, SnapshotField, CacheField] + [AlphaField]
        == [OriginalField, DisplayField, SnapshotField, CacheField, AlphaField];
  }

  /** With the intended conversion, `prep_image` completes on every mode. */
  lemma IntendedPrepImageCompletes(m: Mode)
    ensures !PrepImageAsWritten(IntendedPrepareMode(m)).1
    ensures PrepImageAsWritten(IntendedPrepareMode(m)).0
         == [OriginalField, DisplayField, SnapshotField, CacheField, AlphaField, QimField, PixmapField]
  {
  }

  // ---------------------------------------------------------------------
  // change_pixel_color and Pillow's `point` table
  // ---------------------------------------------------------------------

  /** Python's int() on a float: truncation toward zero. */
  function Trunc(x: real): (t: int)
    ensures 0.0 <= x ==> t as real <= x < t as real + 1.0
    ensures x < 0.0 ==> t as real - 1.0 < x <= t as real
  {
    if 0.0 <= x then x.Floor else -((-x).Floor)
  }

  /** Pillow stores each entry of a `point` table as a byte, clipped to 0..255. */
  function Clip8(x: int): (r: int)
    ensures IsSample(r)
    ensures IsSample(x) ==> r == x
    ensures x < 0 ==> r == 0
    ensures x > 255 ==> r == 255
  {
    if x < 0 then 0 else if x > 255 then 255 else x
  }

  /**
   * One sample through `point(change_pixel_color(value))`: the offset is
   * added, and the table entry is stored as a byte.
   */
  function ShiftSample(x: int, value: real): (r: int)
    ensures IsSample(r)
    ensures IsSample(x) && value == 0.0 ==> r == x
    ensures x as real + value >= 256.0 ==> r == 255
    ensures x as real + value <= -1.0 ==> r == 0
    ensures 0.0 <= x as real + value < 256.0 ==> r as real <= x as real + value < r as real + 1.0
    ensures -1.0 < x as real + value < 0.0 ==> r == 0
  {
    Clip8(Trunc(x as real + value))
  }

  /** `plane.point(change_pixel_color(value))`. */
  function Point(p: seq<int>, value: real): (q: seq<int>)
    ensures IsPlane(q, |p|)
    ensures forall i :: 0 <= i < |p| ==> q[i] == ShiftSample(p[i], value)
  {
    seq(|p|, i requires 0 <= i < |p| => ShiftSample(p[i], value))
  }

  /** `equal`: ImageChops.difference has an empty bounding box. */
  function Equal(p: seq<int>, q: seq<int>): (r: bool)
    requires |p| == |q|
    ensures r <==> forall i :: 0 <= i < |p| ==> p[i] == q[i]
  {
    p == q
  }

  // ---------------------------------------------------------------------
  // change_RGB_color: the mixed baseline
  // ---------------------------------------------------------------------

  /** Every band other than `color` of the display equals the original's. */
  predicate OthersEqual(original: Image, display: Image, color: Band)
    requires Wf(original) && Wf(display) && Size(original) == Size(display)
  {
    forall x :: x != color ==> Equal(Plane(original, x), Plane(display, x))
  }

  /**
   * The planes `m` an RGB offset starts from: all of the original's when
   * the other two bands are untouched, otherwise the original's band for
   * `color` and the display's for the other two. Either way the other two
   * bands are those of the display, and the edited band is the original's.
   */
  function Baseline(original: Image, display: Image, color: Band): (m: Image)
    requires Wf(original) && Wf(display) && Size(original) == Size(display)
    ensures Plane(m, color) == Plane(original, color)
    ensures forall x :: x != color ==> Plane(m, x) == Plane(display, x)
  {
    if OthersEqual(original, display, color) then original
    else WithPlane(display, color, Plane(original, color))
  }

  /**
   * `change_RGB_color`: the edited band is rebuilt from the original's and
   * shifted by the slider value; the other two bands and the alpha plane
   * are the display's.
   */
  function ChangeRgbColor(original: Image, display: Image, color: Band, value: real): (res: Image)
    requires Wf(original) && Wf(display) && Size(original) == Size(display)
    ensures Wf(res) && Size(res) == Size(display)
    ensures Plane(res, color) == Point(Plane(original, color), value)
    ensures forall x :: x != color ==> Plane(res, x) == Plane(display, x)
    ensures res.a == display.a
  {
    var m := Baseline(original, display, color);
    var planes := WithPlane(m, color, Point(Plane(m, color), value));
    Image(planes.r, planes.g, planes.b, display.a)
  }

  /** Two images agree when their three colour bands and alpha agree. */
  lemma PlanesDetermineImage(x: Image, y: Image)
    requires forall c :: Plane(x, c) == Plane(y, c)
    requires x.a == y.a
    ensures x == y
  {
    assert x.r == Plane(x, Red) && y.r == Plane(y, Red);
    assert x.g == Plane(x, Green) && y.g == Plane(y, Green);
    assert x.b == Plane(x, Blue) && y.b == Plane(y, Blue);
  }

  /**
   * Offsets do not accumulate: moving a band's slider from `v1` to `v2`
   * gives the image a single offset of `v2` would have given.
   */
  lemma {:induction false} OffsetsDoNotAccumulate(original: Image, display: Image, color: Band, v1: real, v2: real)
    requires Wf(original) && Wf(display) && Size(original) == Size(display)
    ensures ChangeRgbColor(original, ChangeRgbColor(original, display, color, v1), color, v2)
         == ChangeRgbColor(original, display, color, v2)
  {
    var once := ChangeRgbColor(original, display, color, v1);
    PlanesDetermineImage(ChangeRgbColor(original, once, color, v2), ChangeRgbColor(original, display, color, v2));
  }

  /**
   * Offsets on different bands compose: each band ends up as the original's
   * shifted by its own slider, whatever the order.
   */
  lemma {:induction false} BandOffsetsCommute(original: Image, display: Image, c1: Band, v1: real, c2: Band, v2: real)
    requires Wf(original) && Wf(display) && Size(original) == Size(display)
    requires c1 != c2
    ensures ChangeRgbColor(original, ChangeRgbColor(original, display, c1, v1), c2, v2)
         == ChangeRgbColor(original, ChangeRgbColor(original, display, c2, v2), c1, v1)
  {
    var x := ChangeRgbColor(original, ChangeRgbColor(original, display, c1, v1), c2, v2);
    var y := ChangeRgbColor(original, ChangeRgbColor(original, display, c2, v2), c1, v1);
    PlanesDetermineImage(x, y);
  }

  /**
   * An offset of 0 leaves the display as it is exactly when the edited band
   * of the display still equals the original's; otherwise it puts the
   * original's band back.
   */
  lemma {:induction false} ZeroOffsetKeepsDisplay(original: Image, display: Image, color: Band)
    requires Wf(original) && Wf(display) && Size(original) == Size(display)
    ensures ChangeRgbColor(original, display, color, 0.0) == display
        <==> Plane(display, color) == Plane(original, color)
  {
    var res := ChangeRgbColor(original, display, color, 0.0);
    var p := Plane(original, color);
    assert Point(p, 0.0) == p;
    if Plane(display, color) == p {
      PlanesDetermineImage(res, display);
    }
  }

  // ---------------------------------------------------------------------
  // change_effect: re-baselining the cache on a change of effect family
  // ---------------------------------------------------------------------

  /** Some effect other than `effect` is flagged as applied. */
  predicate OtherEffectActive(effects: map<Effect, bool>, effect: Effect) {
    exists k :: k in effects && k != effect && effects[k]
  }

  /**
   * The flags after `change_effect(.., effect, effects)`: `effect` is set,
   * every other key is cleared, and no key is lost. Hence a second change
   * of the same effect never re-baselines, and a change of any other
   * effect always does.
   */
  function FlagsAfter(effects: map<Effect, bool>, effect: Effect): (res: map<Effect, bool>)
    ensures res.Keys == effects.Keys + {effect}
    ensures res[effect]
    ensures forall k :: k in res && k != effect ==> !res[k]
    ensures !OtherEffectActive(res, effect)
    ensures forall e :: e != effect ==> OtherEffectActive(res, e)
  {
    map k | k in effects.Keys + {effect} :: k == effect
  }

  /**
   * `change_effect`: when another effect is flagged, the cache takes the
   * display's current planes and the other flags are cleared; the flag of
   * `effect` is set, and the result is the enhancement of the cache.
   * The effects dict is returned rather than updated in place.
   */
  method ChangeEffect(pic: Picture, value: real, effect: Effect, effects: map<Effect, bool>, enhance: Enhancer)
    returns (result: Image, newEffects: map<Effect, bool>)
    requires pic.Valid() && pic.image && SizePreserving(enhance)
    modifies pic
    ensures pic.Valid() && pic.image
    ensures pic.cacheColors == if OtherEffectActive(effects, effect) then old(pic.toDisplay) else old(pic.cacheColors)
    ensures newEffects == FlagsAfter(effects, effect)
    ensures result == enhance(effect, pic.cacheColors.value, value)
    ensures Wf(result) && Size(result) == Size(pic.original.value)
    ensures pic.toDisplay == old(pic.toDisplay) && pic.original == old(pic.original)
    ensures pic.originalAlpha == old(pic.originalAlpha) && pic.beforeFilter == old(pic.beforeFilter)
    ensures pic.whitePixels == old(pic.whitePixels) && pic.qim == old(pic.qim)
    ensures pic.name == old(pic.name) && pic.path == old(pic.path) && pic.extension == old(pic.extension)
  {
    var checkEffects: map<Effect, bool> := map[];
    var todo := effects.Keys;
    while todo != {}
      invariant todo <= effects.Keys
      invariant checkEffects.Keys == effects.Keys - todo - {effect}
      invariant forall k :: k in checkEffects ==> checkEffects[k] == effects[k]
      decreases todo
    {
      var k :| k in todo;
      if k != effect {
        checkEffects := checkEffects[k := effects[k]];
      }
      todo := todo - {k};
    }
    assert true in checkEffects.Values <==> OtherEffectActive(effects, effect) by {
      if OtherEffectActive(effects, effect) {
        var k :| k in effects && k != effect && effects[k];
        assert checkEffects[k] == true;
      }
    }
    newEffects := effects;
    if true in checkEffects.Values {
      pic.cacheColors := pic.toDisplay;
      var rest := checkEffects.Keys;
      while rest != {}
        invariant rest <= checkEffects.Keys
        invariant newEffects.Keys == effects.Keys
        invariant forall k :: k in newEffects ==>
          newEffects[k] == if k in checkEffects.Keys - rest then false else effects[k]
        decreases rest
      {
        var k :| k in rest;
        newEffects := newEffects[k := false];
        rest := rest - {k};
      }
    }
    newEffects := newEffects[effect := true];
    assert newEffects == FlagsAfter(effects, effect) by {
      var expected := FlagsAfter(effects, effect);
      assert newEffects.Keys == expected.Keys;
      forall k | k in newEffects
        ensures newEffects[k] == expected[k]
      {
        if k != effect && effects[k] {
          assert OtherEffectActive(effects, effect);
        }
      }
    }
    result := enhance(effect, pic.cacheColors.value, value);
  }

  // ---------------------------------------------------------------------
  // make_transparent, white_pixels, reset_alpha
  // ---------------------------------------------------------------------

  /** Pixel `i` has RGB (255, 255, 255). */
  predicate IsWhite(im: Image, i: int)
    requires Wf(im) && 0 <= i < Size(im)
  {
    im.r[i] == 255 && im.g[i] == 255 && im.b[i] == 255
  }

  ghost predicate Increasing(s: seq<nat>) {
    forall p, q :: 0 <= p < q < |s| ==> s[p] < s[q]
  }

  /** `idx` lists exactly the white pixels of `im`, in increasing order. */
  ghost predicate ListsWhite(im: Image, idx: seq<nat>)
    requires Wf(im)
  {
    && Increasing(idx)
    && forall i: nat :: i in idx <==> i < Size(im) && IsWhite(im, i)
  }

  /** Lists with the same elements are both empty or both non-empty. */
  lemma SameElementsSameEmptiness(s: seq<nat>, t: seq<nat>)
    requires forall x :: x in s <==> x in t
    ensures |s| == 0 <==> |t| == 0
  {
    if |s| > 0 {
      assert s[0] in s;
    }
    if |t| > 0 {
      assert t[0] in t;
    }
  }

  /** Two increasing lists with the same elements are the same list. */
  lemma {:induction false} IncreasingListsEqual(s: seq<nat>, t: seq<nat>)
    requires Increasing(s) && Increasing(t)
    requires forall x :: x in s <==> x in t
    ensures s == t
    decreases |s|
  {
    SameElementsSameEmptiness(s, t);
    if |s| > 0 {
      assert s[0] in t;
      assert t[0] in s;
      assert s[0] == t[0];
      forall x
        ensures x in s[1..] <==> x in t[1..]
      {
        if x in s[1..] {
          var j :| 1 <= j < |s| && s[j] == x;
          assert x in t;
          assert x != t[0];
        }
        if x in t[1..] {
          var j :| 1 <= j < |t| && t[j] == x;
          assert x in s;
          assert x != s[0];
        }
      }
      IncreasingListsEqual(s[1..], t[1..]);
      assert s == [s[0]] + s[1..] && t == [t[0]] + t[1..];
    }
  }

  /** The record of white pixels is determined by the image. */
  lemma WhiteListUnique(im: Image, s: seq<nat>, t: seq<nat>)
    requires Wf(im) && ListsWhite(im, s) && ListsWhite(im, t)
    ensures s == t
  {
    IncreasingListsEqual(s, t);
  }

  /**
   * `white_pixels(data)`: the positions of the white pixels, in the order
   * the generator yields them.
   */
  method WhitePixels(im: Image) returns (idx: seq<nat>)
    requires Wf(im)
    ensures ListsWhite(im, idx)
  {
    idx := [];
    for i := 0 to Size(im)
      invariant Increasing(idx)
      invariant forall j: nat :: j in idx <==> j < i && IsWhite(im, j)
    {
      if IsWhite(im, i) {
        forall p | 0 <= p < |idx|
          ensures idx[p] < i
        {
          assert idx[p] in idx;
        }
        idx := idx + [i];
      }
    }
  }

  /** The display after matting: white pixels get alpha 0, nothing else changes. */
  function Matte(im: Image): (m: Image)
    requires Wf(im)
    ensures Wf(m) && Size(m) == Size(im)
    ensures m.r == im.r && m.g == im.g && m.b == im.b
    ensures forall i :: 0 <= i < Size(im) ==> m.a[i] == if IsWhite(im, i) then 0 else im.a[i]
  {
    im.(a := seq(Size(im), i requires 0 <= i < Size(im) => if IsWhite(im, i) then 0 else im.a[i]))
  }

  /**
   * `make_transparent`: the display is matted in place and the positions of
   * its white pixels are recorded.
   */
  method MakeTransparent(pic: Picture)
    requires pic.Valid() && pic.image
    modifies pic
    ensures pic.Valid() && pic.image
    ensures pic.toDisplay == Some(Matte(old(pic.toDisplay).value))
    ensures pic.whitePixels.Some? && ListsWhite(old(pic.toDisplay).value, pic.whitePixels.value)
    ensures pic.original == old(pic.original) && pic.cacheColors == old(pic.cacheColors)
    ensures pic.originalAlpha == old(pic.originalAlpha) && pic.beforeFilter == old(pic.beforeFilter)
    ensures pic.qim == old(pic.qim)
    ensures pic.name == old(pic.name) && pic.path == old(pic.path) && pic.extension == old(pic.extension)
  {
    var data := pic.toDisplay.value;
    var r, g, b, a := [], [], [], [];
    for i := 0 to Size(data)
      invariant r == data.r[..i] && g == data.g[..i] && b == data.b[..i]
      invariant |a| == i
      invariant forall j :: 0 <= j < i ==> a[j] == if IsWhite(data, j) then 0 else data.a[j]
    {
      if data.r[i] == 255 && data.g[i] == 255 && data.b[i] == 255 {
        r, g, b, a := r + [255], g + [255], b + [255], a + [0];
      } else {
        r, g, b, a := r + [data.r[i]], g + [data.g[i]], b + [data.b[i]], a + [data.a[i]];
      }
    }
    var white := WhitePixels(data);
    pic.whitePixels := Some(white);
    assert data.r[..Size(data)] == data.r && data.g[..Size(data)] == data.g;
    assert data.b[..Size(data)] == data.b;
    assert a == Matte(data).a;
    pic.toDisplay := Some(Image(r, g, b, a));
  }

  /** Plane `p` with every position listed in `idx` set to 255. */
  function Whiten(p: seq<int>, idx: seq<nat>): (q: seq<int>)
    ensures |q| == |p|
    ensures forall j :: 0 <= j < |p| ==> q[j] == if j in idx then 255 else p[j]
  {
    seq(|p|, j requires 0 <= j < |p| => if j in idx then 255 else p[j])
  }

  lemma WhitenStep(p: seq<int>, idx: seq<nat>, k: nat)
    requires k < |idx| && idx[k] < |p|
    ensures Whiten(p, idx[..k + 1]) == Whiten(p, idx[..k])[idx[k] := 255]
  {
    assert idx[..k + 1] == idx[..k] + [idx[k]];
  }

  /**
   * The display after `reset_alpha` has consumed the record `idx`: the
   * recorded positions are white again and the alpha plane is `alpha`.
   */
  function Unmatte(im: Image, idx: seq<nat>, alpha: seq<int>): (res: Image)
    requires Wf(im) && IsPlane(alpha, Size(im))
    ensures Wf(res) && Size(res) == Size(im) && res.a == alpha
    ensures forall j :: 0 <= j < Size(im) && j in idx ==> res.r[j] == 255 && res.g[j] == 255 && res.b[j] == 255
    ensures forall j :: 0 <= j < Size(im) && j !in idx ==> res.r[j] == im.r[j] && res.g[j] == im.g[j] && res.b[j] == im.b[j]
  {
    Image(Whiten(im.r, idx), Whiten(im.g, idx), Whiten(im.b, idx), alpha)
  }

  /**
   * What is left of the record after the loop of `reset_alpha` over a
   * display of `n` pixels: nothing, or, when a recorded position is out of
   * range, the positions after the first such one (IndexError stops it).
   */
  function Consumed(idx: seq<nat>, n: nat): (rest: seq<nat>)
    ensures (forall k :: 0 <= k < |idx| ==> idx[k] < n) <==> rest == [] && (|idx| == 0 || idx[|idx| - 1] < n)
    ensures OutOfRange(idx, n) ==>
      exists k :: 0 <= k < |idx| && idx[k] >= n && (forall j :: 0 <= j < k ==> idx[j] < n) && rest == idx[k + 1..]
  {
    if |idx| == 0 then []
    else if idx[0] >= n then idx[1..]
    else Consumed(idx[1..], n)
  }

  /** Some recorded position is outside a display of `n` pixels. */
  predicate OutOfRange(idx: seq<nat>, n: nat) {
    exists k :: 0 <= k < |idx| && idx[k] >= n
  }

  /**
   * `reset_alpha`: when a record exists, the recorded positions become
   * white again and the alpha plane is the one saved at load. A recorded
   * position outside the display raises IndexError (`raised`) before the
   * display is touched.
   */
  method ResetAlpha(pic: Picture) returns (raised: bool)
    requires pic.Valid() && pic.image
    modifies pic
    ensures pic.Valid() && pic.image
    ensures pic.original == old(pic.original) && pic.cacheColors == old(pic.cacheColors)
    ensures pic.originalAlpha == old(pic.originalAlpha) && pic.beforeFilter == old(pic.beforeFilter)
    ensures pic.qim == old(pic.qim)
    ensures old(pic.whitePixels).None? ==> !raised && pic.toDisplay == old(pic.toDisplay) && pic.whitePixels == None
    ensures old(pic.whitePixels).Some? ==>
      && (raised <==> OutOfRange(old(pic.whitePixels).value, Size(old(pic.toDisplay).value)))
      && pic.whitePixels == Some(Consumed(old(pic.whitePixels).value, Size(old(pic.toDisplay).value)))
    ensures old(pic.whitePixels).Some? && !raised ==>
      pic.toDisplay == Some(Unmatte(old(pic.toDisplay).value, old(pic.whitePixels).value, pic.originalAlpha.value))
    ensures raised ==> pic.toDisplay == old(pic.toDisplay)
    ensures pic.name == old(pic.name) && pic.path == old(pic.path) && pic.extension == old(pic.extension)
  {
    raised := false;
    if pic.whitePixels.Some? {
      var data := pic.toDisplay.value;
      var n := Size(data);
      var idx := pic.whitePixels.value;
      var r, g, b := data.r, data.g, data.b;
      var k := 0;
      assert idx[..0] == [];
      while k < |idx|
        invariant 0 <= k <= |idx|
        invariant unchanged(pic)
        invariant forall j :: 0 <= j < k ==> idx[j] < n
        invariant Consumed(idx, n) == Consumed(idx[k..], n)
        invariant r == Whiten(data.r, idx[..k]) && g == Whiten(data.g, idx[..k]) && b == Whiten(data.b, idx[..k])
      {
        if idx[k] >= n {
          break;
        }
        WhitenStep(data.r, idx, k);
        WhitenStep(data.g, idx, k);
        WhitenStep(data.b, idx, k);
        r, g, b := r[idx[k] := 255], g[idx[k] := 255], b[idx[k] := 255];
        assert idx[k..][1..] == idx[k + 1..];
        k := k + 1;
      }
      if k < |idx| {
        // IndexError: the generator has yielded idx[k], the display is untouched.
        pic.whitePixels := Some(idx[k + 1..]);
        return true;
      }
      assert idx[..k] == idx;
      pic.whitePixels := Some([]);
      pic.toDisplay := Some(Image(r, g, b, pic.originalAlpha.value));
    }
  }

  /** An empty record restores nothing: only the alpha plane is put back. */
  lemma UnmatteNothing(im: Image)
    requires Wf(im)
    ensures Unmatte(im, [], im.a) == im
  {
    assert Whiten(im.r, []) == im.r && Whiten(im.g, []) == im.g && Whiten(im.b, []) == im.b;
  }

  /**
   * Matting and then restoring with the record made by the matting puts
   * every pixel back, with the restored alpha plane; restoring the alpha
   * the display had gives back the display itself.
   */
  lemma {:induction false} TransparencyRoundTrip(d: Image, idx: seq<nat>, alpha: seq<int>)
    requires Wf(d) && ListsWhite(d, idx) && IsPlane(alpha, Size(d))
    ensures Unmatte(Matte(d), idx, alpha) == d.(a := alpha)
    ensures alpha == d.a ==> Unmatte(Matte(d), idx, alpha) == d
  {
    var res := Unmatte(Matte(d), idx, alpha);
    forall j | 0 <= j < Size(d)
      ensures res.r[j] == d.r[j] && res.g[j] == d.g[j] && res.b[j] == d.b[j]
    {
      if j in idx {
        assert IsWhite(d, j);
      }
    }
    assert res.r == d.r && res.g == d.g && res.b == d.b;
  }
}
