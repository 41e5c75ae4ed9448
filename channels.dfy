// The channel splitter/merger: an image is held as its planes, so Pillow's
// `split` and `merge` are the identity here, and `tobytes("raw", "RGBA")`
// is the interleaving `RawRgba`.
module Channels {

  datatype Option<+T> = None | Some(value: T)

  /** The three colour bands an RGB offset can be applied to. */
  datatype Band = Red | Green | Blue

  /**
   * Pillow image modes, as far as the editor tells them apart. `OtherMode`
   * stands for a mode the editor does not name; `CanonicalMode` rules out
   * spelling a named mode through it.
   */
  datatype Mode = L | RGB | RGBA | P | OtherMode(name: string)

  predicate CanonicalMode(m: Mode) {
    m.OtherMode? ==> m.name !in {"L", "RGB", "RGBA", "P"}
  }

  /** An RGBA image as its four "L" planes, each flattened row by row. */
  datatype Image = Image(r: seq<int>, g: seq<int>, b: seq<int>, a: seq<int>)

  /** An RGB image, as the older revision holds it (no alpha plane). */
  datatype Rgb = Rgb(r: seq<int>, g: seq<int>, b: seq<int>)

  predicate IsSample(x: int) {
    0 <= x <= 255
  }

  /** A plane of `n` 8-bit samples. */
  predicate IsPlane(p: seq<int>, n: nat) {
    |p| == n && forall i :: 0 <= i < n ==> IsSample(p[i])
  }

  function Size(im: Image): nat {
    |im.r|
  }

  /** Four planes of 8-bit samples, all of the same length. */
  predicate Wf(im: Image) {
    var n := |im.r|;
    IsPlane(im.r, n) && IsPlane(im.g, n) && IsPlane(im.b, n) && IsPlane(im.a, n)
  }

  function RgbSize(im: Rgb): nat {
    |im.r|
  }

  predicate RgbWf(im: Rgb) {
    var n := |im.r|;
    IsPlane(im.r, n) && IsPlane(im.g, n) && IsPlane(im.b, n)
  }

  function Plane(im: Image, c: Band): (p: seq<int>)
    ensures Wf(im) ==> IsPlane(p, Size(im))
  {
    match c
    case Red => im.r
    case Green => im.g
    case Blue => im.b
  }

  function RgbPlane(im: Rgb, c: Band): (p: seq<int>)
    ensures RgbWf(im) ==> IsPlane(p, RgbSize(im))
  {
    match c
    case Red => im.r
    case Green => im.g
    case Blue => im.b
  }

  /** `im` with the plane of band `c` replaced by `p`. */
  function WithPlane(im: Image, c: Band, p: seq<int>): (res: Image)
    ensures Plane(res, c) == p && res.a == im.a
    ensures forall d :: d != c ==> Plane(res, d) == Plane(im, d)
  {
    match c
    case Red => im.(r := p)
    case Green => im.(g := p)
    case Blue => im.(b := p)
  }

  function RgbWithPlane(im: Rgb, c: Band, p: seq<int>): (res: Rgb)
    ensures RgbPlane(res, c) == p
    ensures forall d :: d != c ==> RgbPlane(res, d) == RgbPlane(im, d)
  {
    match c
    case Red => im.(r := p)
    case Green => im.(g := p)
    case Blue => im.(b := p)
  }

  /** `putalpha(alpha)` on an image of the same size. */
  function PutAlpha(im: Image, alpha: seq<int>): (res: Image)
    requires |alpha| == Size(im)
    ensures res.r == im.r && res.g == im.g && res.b == im.b && res.a == alpha
  {
    im.(a := alpha)
  }

  /**
   * `tobytes("raw", "RGBA")`: the samples of each pixel, R, G, B, A, one
   * pixel after the other.
   */
  function RawRgba(im: Image): seq<int>
    requires Wf(im)
    decreases |im.r|
  {
    if |im.r| == 0 then []
    else [im.r[0], im.g[0], im.b[0], im.a[0]]
         + RawRgba(Image(im.r[1..], im.g[1..], im.b[1..], im.a[1..]))
  }

  /** Byte `4 * i + k` of the raw buffer is sample `i` of band `k`. */
  lemma {:induction false} RawRgbaLayout(im: Image, i: nat)
    requires Wf(im) && i < Size(im)
    ensures |RawRgba(im)| == 4 * Size(im)
    ensures RawRgba(im)[4 * i] == im.r[i] && RawRgba(im)[4 * i + 1] == im.g[i]
    ensures RawRgba(im)[4 * i + 2] == im.b[i] && RawRgba(im)[4 * i + 3] == im.a[i]
    decreases |im.r|
  {
    var tail := Image(im.r[1..], im.g[1..], im.b[1..], im.a[1..]);
    if |im.r| == 1 {
      assert RawRgba(tail) == [];
    } else if i == 0 {
      RawRgbaLayout(tail, 0);
    } else {
      RawRgbaLayout(tail, i - 1);
    }
  }

  /** `convert("RGBA")` of an RGB image: every pixel becomes opaque. */
  function RgbToRgba(im: Rgb): (res: Image)
    requires RgbWf(im)
    ensures Wf(res) && Size(res) == RgbSize(im)
    ensures res.r == im.r && res.g == im.g && res.b == im.b
    ensures forall i :: 0 <= i < Size(res) ==> res.a[i] == 255
  {
    Image(im.r, im.g, im.b, seq(|im.r|, _ => 255))
  }
}
