# Edit-state cache of the Qt/Pillow image editor

This project models the bookkeeping of a small Qt/Pillow image editor, and
proves properties of that model. The bookkeeping decides which image each
edit starts from. A loaded picture carries these fields:

- the loaded image (`original`);
- the image on screen (`to_display`);
- the channel planes the global enhancements start from (`cache_colors`);
- a map of "effect applied" flags for Color, Brightness, Contrast and
  Sharpness;
- the snapshot taken before a filter (`before_filter`);
- the alpha plane saved at load (`original_alpha`);
- the record of the pixels matted to transparent (`white_pixels`).

Two revisions are modelled:

- The current package under `Modules/`:
  - `Channels`: images as planes, and the split/merge/tobytes helpers.
  - `Pillow`: stand-ins for the enhancers and filters.
  - `SliderWidget`: `reset_slider.py`.
  - `PictureWidget`: `picture.py`.
  - `ImageTools`: `image_tools.py`.
  - `FiltersWidget`: `filters.py`.
  - `CommandsWidget`: `commands.py`.
- The older, self-contained revision:
  - `LegacyImageTools`: the root `image_tools.py`.
  - `LegacyGui`: the `Picture` and `Commands` classes of `gui.py`.
  - The `ResetSlider` class of `gui.py` is identical to the current one, so
    `SliderWidget` serves both revisions.

An image is held as its planes. An RGBA image is four equal-length planes
of 8-bit samples, each flattened row by row. The older revision's RGB image
has three planes. So Pillow's `split` and `merge` are the identity. The
Pillow enhancers (`ImageEnhance`) and kernels (`ImageFilter`) are
function-valued parameters. All the model requires of them is that they map
a well-formed image to a well-formed image of the same size.

Classes follow the source's widgets:

- `Picture`, `Filters`, `Commands` and `ResetSlider` are Dafny classes with
  the fields the source assigns.
- The handlers are methods whose postconditions give the new state.
- The value-level helpers are functions, related to the handlers by lemmas:
  - the RGB offset;
  - the flags after an enhancement;
  - matting and unmatting.

Three quirks of the code are reproduced as written:

- The RGB sliders are built as `ResetSlider(0, -255, 255, Qt.Vertical)`.
  Against the constructor's signature, `Qt.Vertical` (the integer 2) lands
  in `scale_factor`. So an RGB slider reports half its position
  (`SliderWidget.RgbSliderReportsHalf`).
- `white_pixels` is a generator. It is always truthy and can be consumed
  only once. It is held as the list of positions still to be yielded.
  - Unchecking transparency a second time finds an empty but truthy record.
  - That second uncheck still puts back the saved alpha plane.
- The older revision's `Picture` names its Color flag `changed_rgb`. Its
  `change_effect` reads `changed_color_balance`. So any other effect used
  before Color raises AttributeError. This is modelled as an error outcome
  (`LegacyGui.FlagNameMismatch`).

Two behaviours of the code worth noting:

- An RGB offset of 0 does not always leave the display as it is. It does
  so exactly when the display's edited band still equals the original's.
  Otherwise the original's band comes back (`ImageTools.ZeroOffsetKeepsDisplay`).
- In `change_RGB_color`, the two bands that are not edited always come from
  the display, and so does alpha. They equal the original's in the branch
  that takes the original's planes, so either branch gives the same result
  (`ImageTools.Baseline`).

## Model

| member | source | states |
|---|---|---|
| Channels.Plane | Modules/image_tools.py:56-60 | each band `split` returns from a well-formed image is a plane of 8-bit samples of the image's size |
| Channels.PutAlpha | Modules/Gui/filters.py:60-62 | `putalpha` replaces the alpha plane and leaves red, green and blue as they were |
| Channels.RawRgbaLayout | Modules/image_tools.py:35-40 | the raw RGBA buffer has 4 bytes per pixel, and byte 4i+k is sample i of band k |
| Channels.RgbToRgba | image_tools.py:24-26 | converting an RGB image to RGBA keeps its three bands and makes every pixel opaque (alpha 255) |
| SliderWidget.Bound | Modules/Gui/reset_slider.py:15-16 | a slider position is kept inside [minimum, maximum], and a position already inside is kept as it is |
| SliderWidget.Scaled | Modules/Gui/reset_slider.py:24-31 | `value()` is the position divided by a truthy scale factor (result × factor = position), or the position itself when the factor is None or 0 |
| SliderWidget.ResetSlider.constructor | Modules/Gui/reset_slider.py:10-16 | the range is set (maximum never below minimum), the position is the default bounded by the range, and it equals `default_value` whenever the default lies in the range |
| SliderWidget.ResetSlider.SetValue | Modules/Gui/reset_slider.py:22 | `setValue` moves the position to the requested value bounded by the range |
| SliderWidget.ResetSlider.Reset | Modules/Gui/reset_slider.py:18-22 | `reset` moves back to the default position (so a second reset changes nothing), which is `default_value` exactly when that lies in the range |
| SliderWidget.ResetSlider.Value | Modules/Gui/reset_slider.py:24-31 | the reported value is the position divided by a truthy scale factor, else the position |
| SliderWidget.NewRgbSlider | Modules/Gui/commands.py:140 | an RGB slider has default 0, range -255..255, scale factor Qt.Vertical (2) and starts at 0 |
| SliderWidget.NewEffectSlider | Modules/Gui/commands.py:152-162 | an effect slider has default 1000, range 0..maxv, scale factor 1000, starts at 1000 and reports 1.0 |
| SliderWidget.RgbSliderReportsHalf | Modules/Gui/commands.py:140 | with Qt.Vertical as scale factor an RGB slider reports half its position, so offsets lie in [-127.5, 127.5] and the top position gives 127.5 |
| SliderWidget.EffectSliderNeutral | Modules/Gui/commands.py:155-158 | an effect slider reports the neutral factor 1.0 exactly at position 1000 |
| SliderWidget.ResetEach | Modules/Gui/commands.py:121-122 | resetting every slider of a list leaves each at its default position |
| SliderWidget.EffectIndex | Modules/Gui/commands.py:31-38 | each effect has its own one of the first four slots, in the order the effect sliders are made |
| SliderWidget.BandIndex | Modules/Gui/commands.py:138-150 | the RGB sliders take the three slots after the four effect sliders, red, green and blue in the order they are created |
| SliderWidget.NewSliders | Modules/Gui/commands.py:31-40 | `sliders` holds seven distinct new sliders: four effect sliders at 1000, then three RGB sliders at 0, with their defaults, ranges and scale factors |
| PictureWidget.QimLayout | Modules/Gui/picture.py:62-72 | the buffer handed to QImage holds B, G, R, A for each pixel: red and blue are swapped, green and alpha stay in place |
| PictureWidget.Picture.constructor | Modules/Gui/picture.py:14-25 | a new picture has no image and every field None |
| PictureWidget.PrepImageAsWritten | Modules/Gui/picture.py:43-51 | the fields `prep_image` sets, in order: it raises exactly when the mode is not RGBA; without a band named "A" at `getchannel("A")`, with one (LA, PA, LAB) at the four-way unpack of `qt_tweaks`, leaving the buffer and pixmap unset |
| PictureWidget.Picture.PrepImage | Modules/Gui/picture.py:38-51 | after loading, display, filter snapshot and cache all equal the original, the saved alpha is the original's alpha, and the buffer is drawn from the display |
| PictureWidget.Picture.QtTweaks | Modules/Gui/picture.py:62-72 | the display buffer is the display with red and blue swapped, as raw bytes |
| PictureWidget.Picture.AdjustSize | Modules/Gui/picture.py:53-60 | a pixmap is made, so an image is shown |
| PictureWidget.Picture.Update | Modules/Gui/picture.py:77-83 | redrawing rebuilds the buffer from the current display and keeps the state consistent |
| PictureWidget.Picture.Reset | Modules/Gui/picture.py:85-99 | with an image: display, original, name, path, extension and cache are cleared and the image dropped; saved alpha, white-pixel record and snapshot stay; without an image nothing changes |
| PictureWidget.Picture.Restore | Modules/Gui/picture.py:101-108 | with an image, display and cache become the original and the buffer is redrawn; without one nothing changes; the original, alpha, snapshot and record stay |
| ImageTools.PrepareMode | Modules/image_tools.py:23-33 | L, RGB, P and RGBA images end up RGBA; any other mode is left as it is |
| ImageTools.IntendedPrepareMode | Modules/image_tools.py:23-33 | every mode becomes RGBA, as the docstring says; it agrees with `PrepareMode` wherever that gives RGBA |
| ImageTools.PrepImageHalfLoads | Modules/Gui/picture.py:43-48 | for every mode not spelled through `OtherMode`, `prep_image` raises exactly on the modes `prepare_image` leaves unconverted, after original, display, snapshot and cache are set and before the buffer is drawn |
| ImageTools.CmykHalfLoads | Modules/Gui/picture.py:43-48 | a CMYK image stops `prep_image` after the original, display, snapshot and cache are set |
| ImageTools.LabHalfLoads | Modules/Gui/picture.py:43-48 | a CIELab image passes `getchannel("A")` on its a* band, so the saved alpha is replaced too before `qt_tweaks` raises |
| ImageTools.IntendedPrepImageCompletes | Modules/Gui/picture.py:43-51 | with the intended conversion `prep_image` never raises and sets every field |
| ImageTools.Trunc | Modules/image_tools.py:46-47 | conversion of the shifted sample to an integer truncates toward zero |
| ImageTools.Clip8 | Modules/image_tools.py:80 | a `point` table entry is stored as a byte: values below 0 give 0, above 255 give 255, samples are kept |
| ImageTools.ShiftSample | Modules/image_tools.py:42-48 | a shifted sample is a byte; offset 0 keeps it, a sum of 256 or more saturates to 255, of -1 or less to 0; a sum in [0, 256) gives its integer part, and one in (-1, 0) gives 0 |
| ImageTools.Point | Modules/image_tools.py:80 | `point(change_pixel_color(v))` shifts every sample of the plane by v and keeps its length |
| ImageTools.Equal | Modules/image_tools.py:50-54 | two planes are `equal` exactly when they agree at every position |
| ImageTools.Baseline | Modules/image_tools.py:72-79 | the planes an offset starts from hold the original's edited band and the display's other two bands, in both branches |
| ImageTools.ChangeRgbColor | Modules/image_tools.py:62-82 | the edited band is the original's shifted by the slider value; the other two bands and alpha are the display's; the size is kept |
| ImageTools.OffsetsDoNotAccumulate | Modules/image_tools.py:67-80 | moving a band's slider from v1 to v2 gives the image a single offset v2 gives |
| ImageTools.BandOffsetsCommute | Modules/image_tools.py:62-82 | offsets on two different bands give the same image in either order |
| ImageTools.ZeroOffsetKeepsDisplay | Modules/image_tools.py:73-80 | an offset of 0 leaves the display unchanged exactly when its edited band equals the original's |
| ImageTools.FlagsAfter | Modules/image_tools.py:88-97 | after an enhancement the requested flag is set, every other flag is cleared, no key is lost; so repeating the same effect never re-bases and any other effect always does |
| ImageTools.ChangeEffect | Modules/image_tools.py:84-99 | the cache becomes the display when another flag was set and stays otherwise; the flags become `FlagsAfter`; the result is the enhancement of the cache |
| ImageTools.WhiteListUnique | Modules/image_tools.py:124-131 | the increasing list of white-pixel positions of an image is unique |
| ImageTools.WhitePixels | Modules/image_tools.py:124-131 | the positions yielded are exactly the white pixels, in increasing order |
| ImageTools.Matte | Modules/image_tools.py:111-117 | white pixels get alpha 0; every other sample is unchanged |
| ImageTools.MakeTransparent | Modules/image_tools.py:107-122 | the display becomes its matte and the record lists exactly its white pixels; original, cache, alpha and snapshot stay |
| ImageTools.Whiten | Modules/image_tools.py:139-141 | the recorded positions of a plane become 255, the rest stay |
| ImageTools.Unmatte | Modules/image_tools.py:138-143 | recorded positions become white, other pixels keep their colour, and the alpha plane is the saved one |
| ImageTools.Consumed | Modules/image_tools.py:140-141 | the record is fully consumed exactly when all its positions are inside the display; otherwise what follows the first position outside the display, after every earlier position was inside it, is left |
| ImageTools.ResetAlpha | Modules/image_tools.py:133-143 | without a record nothing changes; with one, IndexError is raised exactly when a recorded position is outside the display (display untouched); otherwise the display is the unmatted one with the saved alpha |
| ImageTools.UnmatteNothing | Modules/image_tools.py:133-143 | an empty record whitens nothing, so unmatting with it only puts the alpha plane back |
| ImageTools.TransparencyRoundTrip | Modules/image_tools.py:107-143 | matting and then unmatting with the record the matting made restores every pixel, with the saved alpha; when that is the display's old alpha, the display itself comes back |
| FiltersWidget.OnlyBox | Modules/Gui/filters.py:58 | after the clicked box is set, every other filter box is unchecked, so at most one is checked |
| FiltersWidget.NoneChecked | Modules/Gui/filters.py:22-34 | every kernel has a box, and none is checked |
| FiltersWidget.UncheckOthers | Modules/Gui/filters.py:58 | unchecking the other boxes one by one gives `OnlyBox` |
| FiltersWidget.Filters.constructor | Modules/Gui/filters.py:18-36 | all filter boxes and the transparency box start unchecked |
| FiltersWidget.Filters.Apply | Modules/Gui/filters.py:50-65 | with an image, checking unchecks the others, saves the display as snapshot and shows the filtered display with its old alpha; unchecking shows the snapshot; the transparency box and cache are untouched; without an image the picture is untouched |
| FiltersWidget.Filters.MakePicTransparent | Modules/Gui/filters.py:67-78 | with an image, checking mattes the display and unchecking unmattes it; the cache then equals the new display; unchecking with no record leaves the record absent, and otherwise leaves what follows the first bad position; an IndexError leaves display, cache and buffer; name, path and extension are kept; without an image the picture is untouched |
| FiltersWidget.Filters.Reset | Modules/Gui/filters.py:80-87 | every filter box is unchecked, and the transparency box only when asked |
| FiltersWidget.UncheckTwice | Modules/Gui/filters.py:67-78 | unchecking transparency twice finds the record empty the second time, yet both unchecks put back the saved alpha; the display is the once-unmatted one |
| FiltersWidget.CheckThenUncheck | Modules/Gui/filters.py:56-64 | checking and then unchecking a filter brings back the display it was applied to, with no box checked |
| CommandsWidget.NoEffects | Modules/Gui/commands.py:25-28 | the effect map has all four effects, none applied |
| CommandsWidget.Commands.constructor | Modules/Gui/commands.py:18-40 | no effect applied, effect sliders at 1000 reporting 1.0, RGB sliders at 0 reporting 0.0 |
| CommandsWidget.Commands.SetEffects | Modules/Gui/commands.py:99-104 | every flag is cleared and every key is kept |
| CommandsWidget.Commands.ResetSliders | Modules/Gui/commands.py:117-122 | every slider is back at its default |
| CommandsWidget.Commands.ResetRgbSliders | Modules/Gui/commands.py:124-131 | filter boxes unchecked, RGB sliders at 0, effect sliders and transparency box untouched |
| CommandsWidget.Commands.ChangeRgb | Modules/Gui/commands.py:179-194 | with an image: boxes unchecked, effect sliders reset, flags cleared, display the RGB offset of the band by the slider value, cache equal to the display; without an image nothing changes |
| CommandsWidget.Commands.ChangeEffect | Modules/Gui/commands.py:196-208 | with an image: boxes unchecked, flags become `FlagsAfter`, cache re-based on the display when another effect was applied, display the enhancement of the cache; without an image nothing changes |
| CommandsWidget.Commands.Delete | Modules/Gui/commands.py:210-217 | sliders at default, every box (transparency included) unchecked, image dropped with its fields; saved alpha, record and snapshot stay |
| CommandsWidget.Commands.TotalReset | Modules/Gui/commands.py:219-225 | sliders at default, every box unchecked, display and cache back to the original |
| LegacyImageTools.PrepareMode | image_tools.py:15-22 | RGBA, L, P and RGB images end up RGB; any other mode is left as it is |
| LegacyImageTools.IntendedPrepareMode | image_tools.py:15-22 | every mode becomes RGB; it agrees with `PrepareMode` wherever that gives RGB |
| LegacyImageTools.ChangeColor | image_tools.py:39-55 | the returned image and planes are the same; the edited band is the original's shifted by the slider value and the other two are the display's |
| LegacyImageTools.OffsetsDoNotAccumulate | image_tools.py:39-55 | moving a band's slider from v1 to v2 gives what a single offset v2 gives |
| LegacyImageTools.FirstMissing | image_tools.py:66-69 | the lookup of the other effects' flags fails exactly when one of their attributes is missing, and then on the first missing one in dict order |
| LegacyImageTools.FirstMissingAt | image_tools.py:66-69 | when the attributes before position i are present and the one at i is missing, the lookup fails on the one at i |
| LegacyImageTools.AttrsAfter | image_tools.py:70-75 | after a successful `change_effect` the effect's flag is True, the other effects' flags are False and any other attribute keeps its value |
| LegacyImageTools.OtherAttrs | image_tools.py:66-69 | the attributes read are those of every effect except the requested one |
| LegacyImageTools.CheckEffects | image_tools.py:66-69 | the first loop reports the first missing attribute, or reads exactly the other effects' flags |
| LegacyImageTools.ClearFlags | image_tools.py:72-73 | the named attributes become False, all others keep their values |
| LegacyImageTools.ChangeEffect | image_tools.py:64-77 | AttributeError exactly when an attribute is missing, on that attribute; otherwise the flags become `AttrsAfter`, the cache is re-based on the display exactly when another flag was set, and the result enhances the cache |
| LegacyGui.InitialAttrs | gui.py:330-334 | a new picture carries the four flags of `set_effects`, all False |
| LegacyGui.FlagNameMismatch | gui.py:330-334 | on a new picture every effect other than Color fails on `changed_color_balance`, Color succeeds, and after Color every effect succeeds |
| LegacyGui.QimLayout | gui.py:379-385 | the buffer handed to QImage holds B, G, R and an opaque alpha for each pixel |
| LegacyGui.Picture.constructor | gui.py:323-334 | a new picture has no image and exactly the four `set_effects` flags, all False |
| LegacyGui.Picture.SetEffects | gui.py:338-340 | the four flags named in `effects` are False; `changed_color_balance` keeps its value |
| LegacyGui.Picture.QtTweaks | gui.py:379-385 | the display buffer is the display with red and blue swapped, made opaque |
| LegacyGui.Picture.AdjustSize | gui.py:373-377 | a pixmap is made, so an image is shown |
| LegacyGui.Picture.Update | gui.py:390-393 | redrawing rebuilds the buffer from the current display |
| LegacyGui.PrepImageAsWritten | gui.py:345-352 | the fields `prep_image` sets, in order: it raises exactly when the mode has not three bands, at the unpack of `qt_tweaks`, after original, display and cache are set |
| LegacyGui.PrepImageHalfLoads | gui.py:345-381 | every mode `prepare_image` leaves unconverted without three bands stops `prep_image` after original, display and cache are set |
| LegacyGui.IntendedPrepImageCompletes | gui.py:345-352 | with the intended conversion `prep_image` never raises and sets every field |
| LegacyGui.Picture.PrepImage | gui.py:345-352 | display and cache are the original itself |
| LegacyGui.Picture.ChangeRgb | gui.py:354-366 | with an image: the four effect sliders reset, the flags cleared, display and cache the image and planes `change_color` returns; without one nothing changes |
| LegacyGui.Picture.ChangeEffect | gui.py:368-371 | with an image: the outcome of `change_effect`, with nothing changed on AttributeError; without an image nothing changes |
| LegacyGui.Commands.constructor | gui.py:153-170 | effect sliders at 1000 in 0..2000, RGB sliders at 0 |
| LegacyGui.Commands.ResetSliders | gui.py:231-233 | every slider is back at its default |
| LegacyGui.Commands.ResetRgbSliders | gui.py:235-237 | RGB sliders at 0, effect sliders untouched |
| LegacyGui.Commands.ChangeRgb | gui.py:239-252 | the RGB handler passes the band's slider and the Color, Contrast, Brightness and Sharpness sliders to `change_RGB`: with an image the effect sliders are reset, the GUI flags cleared and `changed_color_balance` kept, display and cache are `change_color`'s and the buffer is redrawn; original, name and path stay |
| LegacyGui.Commands.ChangeEffect | gui.py:260-274 | the effect handler passes the effect's own slider to `change_effect`: the first missing flag is the error, otherwise the flags become `AttrsAfter`, the cache is re-based on the display iff another flag was set, the display is the enhanced cache and the buffer is redrawn; original, name and path stay |
| LegacyGui.Commands.Delete | gui.py:282-294 | sliders at default; with an image, display, original, name, path and cache cleared and the image dropped |
| LegacyGui.Commands.TotalReset | gui.py:296-301 | sliders at default; with an image, display and cache back to the original and the buffer redrawn; original, flags, name and path stay |

## Left out

- Qt widget construction, layout, styling, status tips, pixmap scaling, `resizeEvent` and `set_pixmap` are not modelled. The pixmap is reduced to the truthiness of `image`.
- File dialogs, opening and saving (`main_window.py`, `pycture.py`, `load_image`) are not part of this model. `PrepImage` takes the image `prepare_image` produced as a parameter. `name`, `path` and `extension`, which the main window sets, are only carried along.
- `ImageTools.PrepareMode` / `LegacyImageTools.PrepareMode`: only the resulting mode is modelled, not Pillow's pixel conversion. Other modes (CMYK, LA, I, 1 and the like) pass through unconverted; what `prep_image` then does with them is traced by `PictureWidget.PrepImageAsWritten` and `LegacyGui.PrepImageAsWritten`.
- `PictureWidget.Picture.PrepImage`: takes only a well-formed RGBA image, which is what the intended conversion gives. It does not model the exception `prep_image` raises on other modes, nor the half-loaded picture that exception leaves (original, display, snapshot and cache replaced, the saved alpha replaced as well for LA, PA and LAB, whose a* band `getchannel("A")` reads, buffer and pixmap stale); the findings table below records it.
- `LegacyGui.Picture.PrepImage`: takes only a well-formed RGB image. It does not model the exception `prep_image` raises on modes without three bands, nor the half-loaded picture it leaves (original, display and cache replaced, buffer and pixmap stale); the findings table below records it.
- `PictureWidget.Picture.PrepImage` keeps `white_pixels` as it was, as the source does: a record from the previous image survives loading a new one. Only the transparency box's signal, which is not modelled, would consume it.
- The Pillow enhancement curves and convolution kernels are parameters. The model knows only that they preserve size. `ImageTools.ChangeEffect` states its result as the enhancer applied to the cache, not as pixel values.
- `ImageTools.ShiftSample`: Pillow builds the `point` table from a float function. The model converts each entry by truncation toward zero and clips it to a byte. Pillow versions that round instead differ by one for fractional offsets. Floating point is modelled as exact reals.
- Qt signal cascades are not modelled. `setChecked(False)` and `slider.reset()` re-enter the `stateChanged`/`valueChanged` handlers. The handlers are modelled as direct calls, so `Filters.Reset` changes only box states and `ResetSlider.Reset` only the position.
- `FiltersWidget.Filters.Apply`: without an image only the clicked box changes. At most one filter box checked is proved only for the image-loaded path, where the source unchecks the others.
- `FiltersWidget.Filters.MakePicTransparent` / `ImageTools.ResetAlpha`: the IndexError that `reset_alpha` can raise is returned as a flag, not propagated.
- `ImageTools.ChangeEffect`: returns the new effects map as `newEffects` instead of updating the `effects` dict in place; `CommandsWidget.Commands.ChangeEffect` stores it, so the caller sees the same flags, but the aliasing of the dict is not modelled.
- `LegacyImageTools.ChangeEffect` / `LegacyGui.Picture.ChangeEffect`: the AttributeError is returned as a value, not propagated. The value-level `change_effect` returns the new attributes and cache for the picture to store, rather than calling `setattr` on it.
- The `white_pixels` generator is held as the list of positions still to be yielded. Its laziness is not modelled. The record is fixed when it is made. The generator reads the matted image object lazily, but the only in-place change made to it while the record can still be read is the matting's own `putdata`, which keeps white pixels white in their colour bands (`reset_alpha`'s own `putdata` and `putalpha` run only after the record is exhausted); later edits assign new images to `to_display` instead of mutating it. The record's truthiness is "a record exists", so an empty record still counts, as the generator does.
- Object identity and copying are not modelled: images are values. The copies `prep_image` and `restore` make in the current revision and the aliasing of `to_display` and `original` in the older one are therefore indistinguishable. In the older revision no aliased image is mutated in place. In the current one, after a filter is unchecked `to_display` is `before_filter` (Modules/Gui/filters.py:64), and `make_transparent` and `reset_alpha` then `putdata` that object, so the snapshot changes with the display while `ImageTools.MakeTransparent` keeps it. The program cannot observe the difference: `before_filter` is read only on an uncheck, every check reassigns it first (Modules/Gui/filters.py:59), and loading an image unchecks every box (Modules/Gui/main_window.py:107).
- `get_modes`, `merge`, `apply_filter` and `get_cache_colors` are the identity or a direct application of a parameter here. They have no separate members: the callers' postconditions state their effect. `get_data` is `Channels.RawRgba`, with its layout in `Channels.RawRgbaLayout`.
- The root `commands.py`, `picture.py` and `filters.py` and `ImageTools.py` are not part of this model. They are an intermediate snapshot whose calls do not resolve, and thin Pillow wrappers.
- The reset buttons of the sliders tab call the slider's own `reset`, which `SliderWidget.ResetSlider.Reset` models.

## Findings

| source | as written | input that shows it | evidently intended | confidence | as-written member | corrected member |
|---|---|---|---|---|---|---|
| Modules/image_tools.py:27-33, Modules/Gui/picture.py:43-48 | `prepare_image` converts only L, RGB and P; `prep_image` then replaces original, display, snapshot and cache before `getchannel("A")` or the four-way unpack in `qt_tweaks` raises | a CMYK image (also I, 1, and LA, PA or LAB, which also replace the saved alpha before the unpack raises) | every loaded image is converted to RGBA, as the docstring says, so `prep_image` completes; no handler surrounds the call (Modules/Gui/main_window.py:104), so with PyQt5 5.5 or later the exception escaping the slot most likely aborts the application, and the half-loaded picture survives only where it does not | medium, not executed | ImageTools.CmykHalfLoads | ImageTools.IntendedPrepareMode |
| image_tools.py:15-22, gui.py:345-381 | `prepare_image` converts only RGBA, L and P; `prep_image` then replaces original, display and cache before `r, g, b = split()` raises | a CMYK image (also LA, I, 1) | every loaded image is converted to RGB, so `prep_image` completes; no handler surrounds the call (gui.py:99 and 343), so with PyQt5 5.5 or later the exception escaping the slot most likely aborts the application, and the half-loaded picture survives only where it does not | medium, not executed | LegacyGui.PrepImageHalfLoads | LegacyImageTools.IntendedPrepareMode |
