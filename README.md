# go-iiif image transformation core, modelled in Dafny

This project models the control logic of go-iiif's image engines, which serve the IIIF Image API.
An engine takes a `Transformation` (the region, size, rotation, quality and format of a request).
It resolves the transformation into concrete instructions and applies them in the order required
by section 4.6 ("Order of Implementation") of the IIIF Image API 2.1.

The model covers:

- **`CustomTransform`** (`Custom`), the shared custom-quality pass. It handles "dither" and
  `primitive:<mode>,<iterations>,<alpha>`, parsed with Go's `strings.Split` and `strconv.Atoi`.
  Both are written out in `Strings` and `Strconv`, following Go's `ParseInt` rules: an
  optional sign, decimal digits only, a 64-bit range check, and syntax errors distinguished
  from range errors.
- **`Foo`** (`Quality`), the older copy of that dispatcher. It has no response flag and it
  drops a format-resolution error.
- **The libvips engine** (`Vips`):
  - the `bimg.Options` of its crop pass and of its combined size/rotation/quality/format pass;
  - the custom pass;
  - the GIF re-encode.

  The image object is the class `Vips.VIPSImage`. A ghost trace records the options of every
  `Process` call.
- **The bild engine** (`Bild`), which replaces an in-memory image stage by stage. The image
  object is the class `Bild.BILDImage`.
- **`NewProfile`** (`Profile`), the core of the image information document.

The collaborators whose code is not part of this model are function-valued fields of the
datatypes passed in, with no rules assumed:

- the `Transformation.*Instructions` resolvers (`Instructions.Resolvers`);
- `ImageFormatToContentType`;
- libvips and bimg (`Vips.Library`);
- the bild operations and `image.Decode` (`Bild.Library`);
- `DitherImage` and `PrimitiveImage` (`Custom.Effects`).

Each engine's `Transform` is specified by a pure function (`TransformSpec` and the stage
functions it calls). The method's postcondition states that the error it returns, the state it
leaves and, for libvips, the passes it makes are exactly what that function gives. `Transform`
hands each stage to a method of its own (`CropStep`, `ResizeStep`, ...), specified the same way
by its stage function. The lemmas then state the engine's promises about those functions.

Every Go error is a value of `Results.Error`. A Go index panic becomes
`IndexOutOfRange(index, length)`, raised at the exact point where Go indexes.

## Model

| member | source | states |
|---|---|---|
| Custom.CustomTransform | image/custom.go:18-99 | If format resolution fails, its error is returned before any quality handling. A successful response has IsGIF exactly when the quality is "primitive:..." and the target is "gif". "dither" gives the dither effect's result or error with IsGIF false. For a "primitive:" quality, the error `ParsePrimitive` reports is returned; otherwise the stylisation runs on the parsed options and its error, or its result with IsGIF set for a "gif" target, is returned. Any other quality leaves the image unchanged with IsGIF false. |
| Custom.ParsePrimitive | image/custom.go:38-85 | The options it builds have Size 0 and Animated exactly for a "gif" target. Alpha is at most 255. Iterations respect a positive limit. Mode and alpha are 64-bit values as `Atoi` yields them. |
| Custom.ParseFields | image/custom.go:43-85 | Field by field, with the same guarantees as `ParsePrimitive`: the options have Size 0, Animated exactly for "gif", alpha at most 255, iterations within a positive limit, and 64-bit mode and alpha. |
| Custom.QualityAction | image/custom.go:30-98 | "dither" selects the dither effect. A quality that is neither "dither" nor "primitive:"-prefixed selects no operation. Only a "primitive:" quality can select the stylisation. |
| Custom.PrefixHasColon | image/custom.go:38-41 | A "primitive:" quality always splits on ':' into at least two pieces, so `parts[1]` exists. |
| Custom.ParsePrimitiveWellFormed | image/custom.go:40-85 | For `primitive:<m>,<i>,<a>`, optionally followed by `:...`: over a positive iteration limit fails first, then alpha above 255 fails, otherwise the options carry the three numbers unchanged. Alpha 255, negative alphas and iterations equal to the limit are accepted, and a limit of 0 or less is no limit. Text after a second ':' is ignored. |
| Custom.PrimitiveQualityOutcome | image/custom.go:38-95 | For a well-formed `primitive:<m>,<i>,<a>` quality, `CustomTransform` fails with the iteration error over a positive limit, else with the alpha error above 255, and otherwise returns what the stylisation gives for options carrying the three numbers, with IsGIF exactly for a "gif" target. |
| Custom.IterationLimitBeforeAlpha | image/custom.go:49-62 | An over-limit iteration count is reported whatever follows the second comma, even an unparseable alpha. |
| Custom.MissingAlphaPanics | image/custom.go:62 | With only two comma fields, once mode and iterations pass, Go's index of the third field panics: IndexOutOfRange(2, 2). |
| Custom.MissingIterationsPanics | image/custom.go:49 | With only one comma field, indexing the second panics: IndexOutOfRange(1, 1). |
| Custom.PrimitiveGifResponse | image/custom.go:73-95 | IsGIF is set only when the target is "gif", the quality is "primitive:..." and the stylisation succeeded with Animated set; the payload is what the stylisation produced. |
| Quality.Foo | image/quality.go:14-91 | A format-resolution error is dropped: Foo returns no error and does no quality processing. Any quality that is neither "dither" nor "primitive:..." returns no error and leaves the image unchanged. |
| Quality.FooPrimitive | image/quality.go:30-87 | The check-by-check "primitive:" branch of Foo returns exactly the error `ParsePrimitive` reports; otherwise the stylisation's error with the image unchanged, or no error and its result. |
| Quality.FooAgreesWithCustomTransform | image/quality.go:22-90 | Wherever the format resolves, Foo fails exactly when CustomTransform does, with the same error, and otherwise leaves the same image. |
| Quality.FormatErrorDivergence | image/quality.go:16-20 | Where the format does not resolve, Foo reports success with the image unchanged, while CustomTransform returns the error. |
| Strings.Split | image/custom.go:40-41 | `strings.Split` with a one-character separator always yields at least one piece. |
| Strings.JoinSplit | image/custom.go:40-41 | Joining the pieces of a split with the separator gives back the original string. |
| Strings.SplitJoin | image/custom.go:40-41 | Splitting a join of separator-free pieces gives back those pieces. |
| Strconv.Atoi | image/custom.go:43-66 | `strconv.Atoi` yields only values in the signed 64-bit range. Every failure is a `*strconv.NumError` naming the input, and the empty string is a syntax error. |
| Strconv.AtoiAcceptsDecimals | image/custom.go:43-66 | `strconv.Atoi` succeeds exactly on an optional sign followed by one or more decimal digits whose value fits in 64 bits, and then yields that value. |
| Strconv.ScanDigitsValue | image/custom.go:43-66 | The digit loop of `ParseUint` yields each digit string's positional value, or a range error once the value passes 2^64-1. |
| Strconv.AtoiItoa | image/custom.go:43-66 | `Atoi` parses every decimal rendering of a 64-bit integer back to that integer. |
| GoImage.Rect | image/bild.go:160 | `image.Rect` orders each axis, so the rectangle is well-formed and its corners use exactly the given coordinates. |
| Vips.DimensionsOf | image/vips.go:33-63 | The `Width` and `Height` of the dimensions returned: with `isgif` set, the maximum corner of the image Go's GIF decoder gives, failing exactly when it fails with its error; otherwise libvips's width and height, failing exactly when libvips's size fails with its error. |
| Vips.NormalizedAngle | image/vips.go:253 | `int(angle) % 360` with Go's truncated remainder: strictly between -360 and 360, congruent to the angle, with the angle's sign, and unchanged for 0 <= angle < 360. |
| Vips.CropOptions | image/vips.go:185-211 | The crop options carry the region's width, height and x as AreaWidth, AreaHeight and Left. Top is the region's y, except that a (0, 0) origin becomes -1. The type is PNG exactly for an SVG source. Every other field is left at its zero value. |
| Vips.ResizeOptions | image/vips.go:221-244 | The second pass starts from the current dimensions when the size is "max" or "full", and from the size instruction's width, height, enlarge and force otherwise. Every other field is left at its zero value. |
| Vips.OrientOptions | image/vips.go:246-263 | Flip is the rotation's flip and Rotate its angle mod 360. B/W is set for "gray" and "bitonal" and never reset. Every other field is kept. |
| Vips.QualityInterpretation | image/vips.go:255-263 | B/W interpretation exactly for "gray" and "bitonal"; unset for any other quality. |
| Vips.TargetType | image/vips.go:271-284 | jpg maps to JPEG, png to PNG, webp to WEBP, tif to TIFF and gif to PNG. Every other format has no type. |
| Vips.TransformSpec | image/vips.go:172-219 | A transform never changes the identifier or `isgif` and makes at most two `Process` calls. |
| Vips.Cropped | image/vips.go:175-217 | The region stage keeps the identifier and `isgif` and makes at most two `Process` calls in all. |
| Vips.CropPassThen | image/vips.go:213-217 | The crop options are the first `Process` call of the transform, followed by at most one more. |
| Vips.AfterCrop | image/vips.go:221-244 | After the crop, at most one more `Process` call is made, and the identifier and `isgif` are kept. |
| Vips.SecondPass | image/vips.go:246-290 | The rotation, quality and format stage makes at most one `Process` call and keeps the identifier and `isgif`. |
| Vips.Encoded | image/vips.go:265-290 | The format stage makes at most one `Process` call and keeps the identifier and `isgif`. |
| Vips.AfterProcess | image/vips.go:292-316 | The custom pass and the GIF re-encode make no `Process` call and keep the identifier and `isgif`. |
| Vips.Reconcile | image/vips.go:300-314 | The GIF re-encode makes no `Process` call and keeps the identifier and `isgif`. |
| Vips.VIPSImage.constructor | image/vips.go:75-82 | A new image has both its identifier and its source identifier set to the given id, holds the source bytes, has `isgif` false and an empty trace. |
| Vips.VIPSImage.Format | image/vips.go:114-117 | The format is libvips's type of the current buffer. |
| Vips.VIPSImage.ContentType | image/vips.go:119-125 | The content type of the current format, or "" when the lookup fails. |
| Vips.VIPSImage.Dimensions | image/vips.go:136-168 | With `isgif` set, the dimensions are the maximum corner of Go's GIF decoding of the buffer, and its error when it fails. Otherwise they are libvips's width and height of the buffer, and libvips's error when that fails. |
| Vips.VIPSImage.Update | image/vips.go:101-112 | Update replaces the buffer with the new bytes, cannot fail, and changes nothing else. `Body` then returns exactly those bytes. |
| Vips.VIPSImage.Rename | image/vips.go:127-134 | Rename changes only the identifier, cannot fail, and `Identifier` then returns the new id. |
| Vips.VIPSImage.Process | image/vips.go:213-217 | A `Process` call is appended to the trace. The buffer becomes libvips's output, or stays the same with libvips's error returned. |
| Vips.VIPSImage.Transform | image/vips.go:172-317 | The returned error, the new state and the passes appended to the trace are exactly what `TransformSpec` gives for the old state. |
| Vips.VIPSImage.CropStep | image/vips.go:175-211 | The region branch builds the crop options `CropOptions` describes and does what `Cropped` gives. |
| Vips.VIPSImage.CropPassStep | image/vips.go:213-217 | The crop `Process` call and the rest of the transform do what `CropPassThen` gives. |
| Vips.VIPSImage.ResizeStep | image/vips.go:221-244 | The dimension and size stage of `Transform` does what `AfterCrop` gives. |
| Vips.VIPSImage.RenderStep | image/vips.go:246-263 | The rotation and quality stage builds the options `OrientOptions` describes and does what `SecondPass` gives. |
| Vips.VIPSImage.FormatStep | image/vips.go:265-290 | The target type and the second `Process` call do what `Encoded` gives. |
| Vips.VIPSImage.CustomStep | image/vips.go:292-316 | The custom pass and the GIF re-encode do what `AfterProcess` gives. |
| Vips.RegionErrorAborts | image/vips.go:177-183 | If the region does not resolve, the transform ends with that error, makes no `Process` call and leaves the state unchanged. |
| Vips.CropPass | image/vips.go:185-217 | The first pass carries the region's width, height and x as AreaWidth, AreaHeight and Left. Top is the region's y, except that a (0, 0) origin becomes Top -1. The type is PNG exactly for an SVG source. A failing crop pass ends the transform with its error. |
| Vips.FullRegionSkipsCrop | image/vips.go:177-219 | A region of "full" makes no crop pass: the transform starts at the dimensions stage and makes at most one `Process` call. |
| Vips.SizeStageErrorsAbort | image/vips.go:221-238 | A `Dimensions` error, or a size resolution error when the size is neither "max" nor "full", ends the transform with that error, with no second pass and the state unchanged. |
| Vips.SecondPassOptions | image/vips.go:221-284 | The second pass takes Width, Height, Enlarge and Force from the size instruction unless the size is "max" or "full", in which case Width and Height are the post-crop dimensions. Flip is copied, Rotate is the angle mod 360, B/W iff "gray" or "bitonal", and the type is the target's type. |
| Vips.SecondProcessErrorAborts | image/vips.go:286-290 | A failing second `Process` call ends the transform with libvips's error, the buffer as it was, and that call recorded. |
| Vips.ResolutionErrorsSwallowed | image/vips.go:246-269 | If rotation or format resolution fails, the transform returns success without the second pass and keeps the cropped image. |
| Vips.UnsupportedFormatFails | image/vips.go:271-284 | A format other than jpg, png, webp, tif or gif ends the transform with the unsupported-format error for that format, before the second pass. |
| Vips.CustomErrorAborts | image/vips.go:292-296 | An error from the custom pass is returned, with the buffer as the second pass left it. |
| Vips.GifReconciliation | image/vips.go:292-314 | After a successful custom pass, the GIF re-encode runs iff the target is "gif" and the response's IsGIF is false. Otherwise the custom pass's output is final. |
| Vips.ReencodeErrorsAbort | image/vips.go:300-312 | A failure of either half of the GIF re-encode ends the transform with that error and the buffer unchanged. On success the buffer is the re-encoded image. |
| Vips.GifWithoutPrimitiveReencodes | image/vips.go:292-314 | For a "gif" target with a quality other than "primitive:...", the re-encode always runs. |
| Vips.PlainRequestSinglePass | image/vips.go:172-290 | A full-region, "max" or "full" size, unrotated, "default"-quality request to jpg, png, webp or tif, on an image whose dimensions can be read, makes exactly one `Process` call: at the image's own dimensions with the target type. |
| Bild.CropBox | image/bild.go:160 | The crop box is `Rect(X, Y, X+W, Y+H)`: exactly that box for a non-negative W and H, and in every case |W| wide and |H| high. |
| Bild.Toned | image/bild.go:205-221 | "gray" gives the greyscale image and "bitonal" the threshold at 160. Every other quality leaves the image unchanged. |
| Bild.TransformSpec | image/bild.go:146-164 | A transform never changes the identifier. |
| Bild.AfterCrop | image/bild.go:168-178 | The resize stage and what follows keep the identifier. |
| Bild.Orient | image/bild.go:182-221 | The rotation and quality stage and what follows keep the identifier. |
| Bild.Encode | image/bild.go:225-247 | The format stage and what follows keep the identifier. |
| Bild.Stylise | image/bild.go:249-256 | The custom pass keeps the identifier. |
| Bild.BILDImage.constructor | image/bild.go:63-69 | A new image has both identifiers set to the id, and holds the decoded image with its format. |
| Bild.BILDImage.ContentType | image/bild.go:111-122 | The content type of the current format, or "" when the lookup fails. |
| Bild.BILDImage.Dimensions | image/bild.go:135-144 | Dimensions never fails and reports Width = bounds.Max.X and Height = bounds.Max.Y. |
| Bild.BILDImage.Update | image/bild.go:74-103 | If the bytes do not decode, the error is returned and the image and format are left untouched. On success both are replaced together, and `Format` then returns the decoded format. |
| Bild.BILDImage.Rename | image/bild.go:124-133 | Rename changes only the identifier, cannot fail, and `Identifier` then returns the new id. |
| Bild.BILDImage.Transform | image/bild.go:146-164 | The crop step and the rest of the transform: the returned error and the new image, format and identifier are exactly what `TransformSpec` gives for the old state. |
| Bild.BILDImage.ResizeStep | image/bild.go:168-178 | The size step and what follows do what `AfterCrop` gives. |
| Bild.BILDImage.OrientStep | image/bild.go:182-221 | The rotation and quality steps and what follows do what `Orient` gives. |
| Bild.BILDImage.EncodeStep | image/bild.go:225-256 | The format stage and the custom pass do what `Encode` gives. |
| Bild.ViewReportsBounds | image/bild.go:38-46 | `BILDDimensions` reports the maximum corner of the bounds as Width and Height, and that is what the resolvers are shown; for bounds at the origin it is the image's size. |
| Bild.RegionErrorAborts | image/bild.go:152-158 | A region that does not resolve ends the transform with that error and the image unchanged. |
| Bild.CropUsesRegionBox | image/bild.go:152-164 | A resolved region with non-negative width and height crops to the box from (X, Y) to (X+W, Y+H), and the rest of the transform starts from the cropped image. A "full" region crops nothing. |
| Bild.SizeErrorAborts | image/bild.go:168-174 | A size that does not resolve, when the size is neither "max" nor "full", ends the transform with that error and the cropped image. |
| Bild.ResizeToResolvedSize | image/bild.go:168-178 | "max" and "full" never resize. Any other size resizes to exactly the resolved width and height before the rotation stage. |
| Bild.EnlargeAndForceIgnored | image/bild.go:168-178 | The size instruction's Enlarge and Force are never consulted. Size results that differ only in those give the same transform outcome. |
| Bild.OrientIgnoresSize | image/bild.go:180-256 | The rotation stage and everything after it never consult the size resolver. |
| Bild.FlipBeforeRotate | image/bild.go:188-200 | With a flip and a non-zero angle, the rotation is applied to the flipped image. |
| Bild.ZeroAngleKeepsImage | image/bild.go:188-200 | A zero angle never rotates. With no flip either, the image and its bounds are unchanged. |
| Bild.ConversionOnlyOnChange | image/bild.go:231-247 | Re-encoding happens only when the target content type differs from the current one. A failed conversion aborts with its error. A successful one replaces the image and format together. |
| Bild.ContentTypeErrorAborts | image/bild.go:231-235 | A failed content-type lookup for the target format aborts the transform with that error. |
| Bild.ResolutionErrorsPropagate | image/bild.go:182-229 | A rotation or format resolution error is returned, with the image as the earlier stages left it. |
| Bild.CustomResponseDiscarded | image/bild.go:249-256 | The custom pass's response is ignored. On success the image and format are what the custom pass left. |
| Bild.CustomErrorAborts | image/bild.go:249-254 | A failing custom pass ends the transform with its error, with the image and format as the format step left them. |
| Bild.IdentityRequestKeepsImage | image/bild.go:146-257 | A full/max, unrotated, default-quality request whose format has the image's own content type succeeds and leaves the image exactly as it was. |
| Bild.ResizeReachesRequestedSize | image/bild.go:146-257 | A full-region request whose size is neither "max" nor "full" and resolves to W x H, which is unrotated and in "default" quality and targets a format with the image's own content type, succeeds and leaves exactly the resized image. When that resize produces a W x H image (W, H >= 0), the result's maximum corner is (W, H). |
| Profile.NewProfile | profile/profile.go:21-45 | A `Dimensions` error is returned and no profile is built. Otherwise the profile has the fixed @context, @type and protocol, the image's width and height, and exactly two entries: the level2 URI, then the level. Its @id starts with the endpoint and a slash. |
| Profile.IdNamesImage | profile/profile.go:31 | The @id is exactly endpoint + "/" + identifier: what follows the endpoint's slash is the identifier. |
| Profile.IdsDistinguishImages | profile/profile.go:31 | Distinct identifiers under one endpoint give distinct @ids. |

## Left out

- Pixels are opaque (`GoImage.Raster`). The operations of libvips, bimg and bild (crop, linear
  resize, flip, rotate, greyscale, threshold) are uninterpreted functions. Only their results
  flow through the model.
- Rotation angles are whole numbers. The truncation of a floating-point angle by `int(...)` in
  image/vips.go:253, and the float angle given to bild's rotate, are not modelled.
- Source reads in `NewVIPSImageFromConfigWithSource` and `NewBILDImageFromConfigWithSource` are
  I/O. The constructors take the bytes (libvips) or the decoded image (bild) that the read and
  decode produced, and the read and decode errors are not modelled.
- `Body()` of the bild engine encodes the image through `GolangImageToBytes`. That function is
  not part of this model, and neither is `BILDDimensions.String`.
- `IIIFImageToGolangImage`, `GolangImageToIIIFImage`, `GolangImageToGolangImage`,
  `DitherImage` and `PrimitiveImage` are opaque fallible functions. When one of them fails, the
  model leaves the image as it was: any partial update they make before failing is not captured.
- The `isgif` branch of the libvips engine's `Dimensions` uses `gif.Decode` as an opaque
  function. Nothing in the modelled code sets `isgif` to true.
- Bild.CropBox: `X+W` and `Y+H` are Go `int` sums. Their wrap-around on overflow is not
  modelled, because integers here are unbounded apart from `Atoi`'s 64-bit range check.
- Strconv.AtoiAcceptsDecimals: the text of a `*strconv.NumError` is not modelled, only its kind
  (syntax or range). The three errors the core creates itself carry their exact messages
  (`Results.Message`).
- The index panics at image/custom.go:49 and :62 (and image/quality.go:41 and :53) are
  modelled as the error `IndexOutOfRange(index, length)`, returned like any other error. In Go
  the panic unwinds `Transform` and its callers instead of coming back as a return value.
- The rules of the `Transformation.*Instructions` resolvers and of `ImageFormatToContentType`
  (percentages, clamping, format tables) are defined outside this code and are not part of
  this model.
- Configuration loading and the JSON tags of `Profile` are not modelled. The profile's level is
  a type parameter.
