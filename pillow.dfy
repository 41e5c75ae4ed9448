// Stand-ins for the parts of Pillow the editor calls but does not define:
// the ImageEnhance classes and the ImageFilter kernels. Their pixel
// arithmetic is not modelled; each is a function supplied by the caller,
// of which the model requires only that it maps a well-formed image to a
// well-formed image of the same size.
module Pillow {
  import opened Channels

  /** The ImageEnhance classes the sliders drive, in the order of the effects dict. */
  datatype Effect = Color | Brightness | Contrast | Sharpness

  /** The ImageFilter kernels offered as check boxes. */
  datatype Kernel =
    | Blur | Contour | Detail | EdgeEnhance | EdgeEnhanceMore
    | Emboss | FindEdges | Sharpen | Smooth | SmoothMore

  /** `getattr(ImageEnhance, effect)(image).enhance(factor)` on an RGBA image. */
  type Enhancer = (Effect, Image, real) -> Image

  /** The same, on the RGB images of the older revision. */
  type RgbEnhancer = (Effect, Rgb, real) -> Rgb

  /** `image.filter(getattr(ImageFilter, name))`. */
  type Filter = (Kernel, Image) -> Image

  ghost predicate SizePreserving(enhance: Enhancer) {
    forall e, im, f :: Wf(im) ==> Wf(enhance(e, im, f)) && Size(enhance(e, im, f)) == Size(im)
  }

  ghost predicate RgbSizePreserving(enhance: RgbEnhancer) {
    forall e, im, f :: RgbWf(im) ==> RgbWf(enhance(e, im, f)) && RgbSize(enhance(e, im, f)) == RgbSize(im)
  }

  ghost predicate FilterSizePreserving(filter: Filter) {
    forall k, im :: Wf(im) ==> Wf(filter(k, im)) && Size(filter(k, im)) == Size(im)
  }
}
