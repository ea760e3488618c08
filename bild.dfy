/**
 * The bild engine (image/bild.go): an image held decoded in memory and replaced stage by
 * stage by pure-Go crop, resize, flip, rotate, greyscale and threshold operations.
 */
module Bild {
  import opened Results
  import opened GoImage
  import opened Instructions
  import Custom

  /** The collaborators of this engine, none of which is part of this model. */
  datatype Library = Library(
    /** `image.Decode`: the image and the name of its format */
    decode: Bytes -> Result<Decoded>,
    /** `transform.Crop` */
    crop: (Raster, Rectangle) -> Raster,
    /** `transform.Resize` with linear resampling */
    resize: (Raster, int, int) -> Raster,
    /** `transform.FlipH` */
    flipH: Raster -> Raster,
    /** `transform.Rotate` with bounds resized to fit and the default pivot */
    rotate: (Raster, int) -> Raster,
    /** `effect.Grayscale` */
    grayscale: Raster -> Raster,
    /** `segment.Threshold` */
    threshold: (Raster, int) -> Raster,
    /** `ImageFormatToContentType` */
    contentTypeOf: string -> Result<string>,
    /** `GolangImageToGolangImage`: re-encode to a content type, giving the image and its new format */
    convert: (Raster, string) -> Result<Decoded>,
    /** `DitherImage` and `PrimitiveImage` on this engine's image and format */
    effects: Custom.Effects<Decoded>)

  /** The level `segment.Threshold` is given for "bitonal". */
  const BitonalThreshold := 160

  /** `BILDDimensions`: the image's bounds, reported by their maximum corner. */
  datatype BILDDimensions = BILDDimensions(bounds: Rectangle)
  {
    function Width(): int { bounds.max.x }
    function Height(): int { bounds.max.y }
  }

  /** The fields of a `BILDImage` that its methods read or change. */
  datatype State = State(id: string, image: Raster, format: string)

  function ContentTypeOf(lib: Library, s: State): string
  {
    ContentTypeOrEmpty(lib.contentTypeOf, s.format)
  }

  function ViewOf(s: State): ImageView
  {
    ImageView(s.id, s.format, Ok(Dims(s.image.bounds.max.x, s.image.bounds.max.y)))
  }

  /** The crop box `image.Rect(X, Y, X+W, Y+H)` of a resolved region. */
  function CropBox(rgi: RegionInstruction): (box: Rectangle)
    ensures rgi.width >= 0 && rgi.height >= 0 ==>
      box == Rectangle(Point(rgi.x, rgi.y), Point(rgi.x + rgi.width, rgi.y + rgi.height))
    ensures box.max.x - box.min.x == if rgi.width >= 0 then rgi.width else -rgi.width
    ensures box.max.y - box.min.y == if rgi.height >= 0 then rgi.height else -rgi.height
  {
    Rect(rgi.x, rgi.y, rgi.x + rgi.width, rgi.y + rgi.height)
  }

  /** Flip, then rotate when the angle is not zero. */
  function Oriented(lib: Library, img: Raster, ri: RotationInstruction): Raster
  {
    var flipped := if ri.flip then lib.flipH(img) else img;
    if ri.angle != 0 then lib.rotate(flipped, ri.angle) else flipped
  }

  /** The quality step: greyscale for "gray", a threshold at 160 for "bitonal", nothing otherwise. */
  function Toned(lib: Library, img: Raster, quality: string): (r: Raster)
    ensures quality != "gray" && quality != "bitonal" ==> r == img
    ensures quality == "gray" ==> r == lib.grayscale(img)
    ensures quality == "bitonal" ==> r == lib.threshold(img, BitonalThreshold)
  {
    if quality == "color" || quality == "default" then img
    else if quality == "gray" then lib.grayscale(img)
    else if quality == "bitonal" then lib.threshold(img, BitonalThreshold)
    else img
  }

  /** The result of `Transform` and the state it leaves; an error leaves the stages done so far. */
  datatype Outcome = Outcome(err: Option<Error>, state: State)

  /** `Transform(t)`, step 1: the crop when the region is not "full". */
  function TransformSpec(lib: Library, config: Config, s: State, t: Transformation, rs: Resolvers): (o: Outcome)
    ensures o.state.id == s.id
  {
    if t.region != "full" then
      match rs.regionInstructions(t, ViewOf(s))
      case Err(e) => Outcome(Some(e), s)
      case Ok(rgi) => AfterCrop(lib, config, s.(image := lib.crop(s.image, CropBox(rgi))), t, rs)
    else AfterCrop(lib, config, s, t, rs)
  }

  /** Step 2: resize to exactly the instruction's width and height unless the size is "max" or "full". */
  function AfterCrop(lib: Library, config: Config, s: State, t: Transformation, rs: Resolvers): (o: Outcome)
    ensures o.state.id == s.id
  {
    if !KeepsSize(t.size) then
      match rs.sizeInstructions(t, ViewOf(s))
      case Err(e) => Outcome(Some(e), s)
      case Ok(si) => Orient(lib, config, s.(image := lib.resize(s.image, si.width, si.height)), t, rs)
    else Orient(lib, config, s, t, rs)
  }

  /** Steps 3 and 4: rotation, then quality. */
  function Orient(lib: Library, config: Config, s: State, t: Transformation, rs: Resolvers): (o: Outcome)
    ensures o.state.id == s.id
  {
    match rs.rotationInstructions(t, ViewOf(s))
    case Err(e) => Outcome(Some(e), s)
    case Ok(ri) => Encode(lib, config, s.(image := Toned(lib, Oriented(lib, s.image, ri), t.quality)), t, rs)
  }

  /** Step 5, the format, and then the custom-quality pass, whose response is dropped. */
  function Encode(lib: Library, config: Config, s: State, t: Transformation, rs: Resolvers): (o: Outcome)
    ensures o.state.id == s.id
  {
    match rs.formatInstructions(t, ViewOf(s))
    case Err(e) => Outcome(Some(e), s)
    case Ok(fi) =>
      match lib.contentTypeOf(fi.format)
      case Err(e) => Outcome(Some(e), s)
      case Ok(ct) =>
        if ct != ContentTypeOf(lib, s) then
          match lib.convert(s.image, ct)
          case Err(e) => Outcome(Some(e), s)
          case Ok(d) => Stylise(lib, config, s.(image := d.raster, format := d.format), t, rs)
        else Stylise(lib, config, s, t, rs)
  }

  function Stylise(lib: Library, config: Config, s: State, t: Transformation, rs: Resolvers): (o: Outcome)
    ensures o.state.id == s.id
  {
    match Custom.CustomTransform(rs.formatInstructions(t, ViewOf(s)), t.quality, config,
                                 Decoded(s.image, s.format), lib.effects)
    case Err(e) => Outcome(Some(e), s)
    case Ok((_, d)) => Outcome(None, s.(image := d.raster, format := d.format))
  }

  // ----- the engine object -----

  class BILDImage {
    const lib: Library
    const config: Config
    const sourceId: string
    var id: string
    var image: Raster
    var format: string

    /** The struct built once the source bytes have been read and decoded (neither is modelled). */
    constructor (lib: Library, config: Config, id: string, decoded: Decoded)
      ensures this.lib == lib && this.config == config
      ensures sourceId == id && this.id == id
      ensures image == decoded.raster && format == decoded.format
    {
      this.lib := lib;
      this.config := config;
      sourceId := id;
      this.id := id;
      image := decoded.raster;
      format := decoded.format;
    }

    function Snapshot(): State
      reads this
    {
      State(id, image, format)
    }

    function Identifier(): string
      reads this
    {
      id
    }

    function Format(): string
      reads this
    {
      format
    }

    function ContentType(): (ct: string)
      reads this
      ensures lib.contentTypeOf(format).Ok? ==> ct == lib.contentTypeOf(format).value
      ensures lib.contentTypeOf(format).Err? ==> ct == ""
    {
      ContentTypeOf(lib, Snapshot())
    }

    /** `Dimensions()` never fails and reports the maximum corner of the image's bounds. */
    function Dimensions(): (r: Result<BILDDimensions>)
      reads this
      ensures r.Ok?
      ensures r.value.Width() == image.bounds.max.x && r.value.Height() == image.bounds.max.y
    {
      Ok(BILDDimensions(image.bounds))
    }

    function View(): ImageView
      reads this
    {
      ViewOf(Snapshot())
    }

    /** `Update(body)`: on a decode error nothing changes; otherwise image and format are replaced together. */
    method Update(body: Bytes) returns (err: Option<Error>)
      modifies this`image, this`format
      ensures match lib.decode(body)
              case Err(e) => err == Some(e) && image == old(image) && format == old(format)
              case Ok(d) => err == None && image == d.raster && format == d.format && Format() == d.format
    {
      var decoded := lib.decode(body);
      if decoded.Err? {
        return Some(decoded.error);
      }
      image := decoded.value.raster;
      format := decoded.value.format;
      return None;
    }

    /** `Rename(id)`: only the identifier changes. */
    method Rename(newId: string) returns (err: Option<Error>)
      modifies this`id
      ensures err == None && id == newId && Identifier() == newId
    {
      id := newId;
      err := None;
    }

    /** `Transform(t)`, following the order of section 4.6 of the IIIF Image API 2.1: first the crop. */
    method Transform(t: Transformation, rs: Resolvers) returns (err: Option<Error>)
      modifies this`image, this`format
      ensures var o := TransformSpec(lib, config, old(Snapshot()), t, rs);
              err == o.err && Snapshot() == o.state
    {
      if t.region != "full" {
        var rgi := rs.regionInstructions(t, View());
        if rgi.Err? {
          return Some(rgi.error);
        }
        var box := Rect(rgi.value.x, rgi.value.y, rgi.value.x + rgi.value.width, rgi.value.y + rgi.value.height);
        image := lib.crop(image, box);
      }
      err := ResizeStep(t, rs);
    }

    /** The size step. */
    method ResizeStep(t: Transformation, rs: Resolvers) returns (err: Option<Error>)
      modifies this`image, this`format
      ensures var o := AfterCrop(lib, config, old(Snapshot()), t, rs);
              err == o.err && Snapshot() == o.state
    {
      if t.size != "max" && t.size != "full" {
        var si := rs.sizeInstructions(t, View());
        if si.Err? {
          return Some(si.error);
        }
        image := lib.resize(image, si.value.width, si.value.height);
      }
      err := OrientStep(t, rs);
    }

    /** The rotation and quality steps. */
    method OrientStep(t: Transformation, rs: Resolvers) returns (err: Option<Error>)
      modifies this`image, this`format
      ensures var o := Orient(lib, config, old(Snapshot()), t, rs);
              err == o.err && Snapshot() == o.state
    {
      var ri := rs.rotationInstructions(t, View());
      if ri.Err? {
        return Some(ri.error);
      }
      if ri.value.flip {
        image := lib.flipH(image);
      }
      if ri.value.angle != 0 {
        image := lib.rotate(image, ri.value.angle);
      }

      if t.quality == "color" || t.quality == "default" {
        // nothing to do
      } else if t.quality == "gray" {
        image := lib.grayscale(image);
      } else if t.quality == "bitonal" {
        image := lib.threshold(image, BitonalThreshold);
      }

      err := EncodeStep(t, rs);
    }

    /** The format step and the custom-quality pass. */
    method EncodeStep(t: Transformation, rs: Resolvers) returns (err: Option<Error>)
      modifies this`image, this`format
      ensures var o := Encode(lib, config, old(Snapshot()), t, rs);
              err == o.err && Snapshot() == o.state
    {
      var fi := rs.formatInstructions(t, View());
      if fi.Err? {
        return Some(fi.error);
      }
      var contentType := lib.contentTypeOf(fi.value.format);
      if contentType.Err? {
        return Some(contentType.error);
      }
      if contentType.value != ContentType() {
        var converted := lib.convert(image, contentType.value);
        if converted.Err? {
          return Some(converted.error);
        }
        image := converted.value.raster;
        format := converted.value.format;
      }

      var rsp := Custom.CustomTransform(rs.formatInstructions(t, View()), t.quality, config,
                                        Decoded(image, format), lib.effects);
      if rsp.Err? {
        return Some(rsp.error);
      }
      image := rsp.value.1.raster;
      format := rsp.value.1.format;
      return None;
    }
  }

  // ----- properties of the pipeline -----

  /**
   * The dimensions the resolvers are shown are what `BILDDimensions` reports for the current
   * image: the maximum corner of its bounds, which is its size when the bounds start at the origin.
   */
  lemma ViewReportsBounds(s: State)
    ensures var d := BILDDimensions(s.image.bounds);
      ViewOf(s).dimensions == Ok(Dims(d.Width(), d.Height())) &&
      d.Width() == s.image.bounds.max.x && d.Height() == s.image.bounds.max.y
    ensures s.image.bounds.min == Point(0, 0) ==>
      var d := BILDDimensions(s.image.bounds);
      d.Width() == s.image.bounds.max.x - s.image.bounds.min.x &&
      d.Height() == s.image.bounds.max.y - s.image.bounds.min.y
  {
  }

  /** Two size results that differ at most in `enlarge` and `force`. */
  predicate SameExtent(a: Result<SizeInstruction>, b: Result<SizeInstruction>)
  {
    match (a, b)
    case (Ok(x), Ok(y)) => x.width == y.width && x.height == y.height
    case (Err(e), Err(f)) => e == f
    case _ => false
  }

  /**
   * The size instruction's `enlarge` and `force` are never consulted: resolvers that agree on
   * everything else give the same outcome.
   */
  lemma EnlargeAndForceIgnored(lib: Library, config: Config, s: State, t: Transformation, rs: Resolvers, rs': Resolvers)
    requires rs'.regionInstructions == rs.regionInstructions
    requires rs'.rotationInstructions == rs.rotationInstructions
    requires rs'.formatInstructions == rs.formatInstructions
    requires forall v :: SameExtent(rs.sizeInstructions(t, v), rs'.sizeInstructions(t, v))
    ensures TransformSpec(lib, config, s, t, rs) == TransformSpec(lib, config, s, t, rs')
  {
    var cropped := if t.region != "full" && rs.regionInstructions(t, ViewOf(s)).Ok? then
      s.(image := lib.crop(s.image, CropBox(rs.regionInstructions(t, ViewOf(s)).value))) else s;
    if !KeepsSize(t.size) && rs.sizeInstructions(t, ViewOf(cropped)).Ok? {
      var si := rs.sizeInstructions(t, ViewOf(cropped)).value;
      OrientIgnoresSize(lib, config, cropped.(image := lib.resize(cropped.image, si.width, si.height)), t, rs, rs');
    } else {
      OrientIgnoresSize(lib, config, cropped, t, rs, rs');
    }
  }

  /** The rotation stage and everything after it do not consult the size resolver. */
  lemma OrientIgnoresSize(lib: Library, config: Config, s: State, t: Transformation, rs: Resolvers, rs': Resolvers)
    requires rs'.rotationInstructions == rs.rotationInstructions
    requires rs'.formatInstructions == rs.formatInstructions
    ensures Orient(lib, config, s, t, rs) == Orient(lib, config, s, t, rs')
  {
  }

  /** With a flip and a non-zero angle, the rotation is applied to the flipped image. */
  lemma FlipBeforeRotate(lib: Library, img: Raster, ri: RotationInstruction)
    requires ri.flip && ri.angle != 0
    ensures Oriented(lib, img, ri) == lib.rotate(lib.flipH(img), ri.angle)
  {
  }

  /** No flip and a zero angle leave the image as it is; a zero angle never rotates. */
  lemma ZeroAngleKeepsImage(lib: Library, img: Raster, ri: RotationInstruction)
    requires ri.angle == 0
    ensures Oriented(lib, img, ri) == if ri.flip then lib.flipH(img) else img
    ensures !ri.flip ==> Oriented(lib, img, ri).bounds == img.bounds
  {
  }

  /**
   * Re-encoding happens only when the target content type differs from the current one: with
   * the same content type the image goes to the custom pass as it is; with another, a failed
   * conversion aborts with nothing changed at this step, and a successful one replaces image
   * and format together.
   */
  lemma ConversionOnlyOnChange(lib: Library, config: Config, s: State, t: Transformation, rs: Resolvers,
                               fi: FormatInstruction, ct: string)
    requires rs.formatInstructions(t, ViewOf(s)) == Ok(fi)
    requires lib.contentTypeOf(fi.format) == Ok(ct)
    ensures ct == ContentTypeOf(lib, s) ==> Encode(lib, config, s, t, rs) == Stylise(lib, config, s, t, rs)
    ensures ct != ContentTypeOf(lib, s) ==>
      match lib.convert(s.image, ct)
      case Err(e) => Encode(lib, config, s, t, rs) == Outcome(Some(e), s)
      case Ok(d) => Encode(lib, config, s, t, rs) == Stylise(lib, config, s.(image := d.raster, format := d.format), t, rs)
  {
  }

  /** A content type that cannot be looked up for the target format aborts with that error. */
  lemma ContentTypeErrorAborts(lib: Library, config: Config, s: State, t: Transformation, rs: Resolvers,
                               fi: FormatInstruction)
    requires rs.formatInstructions(t, ViewOf(s)) == Ok(fi)
    requires lib.contentTypeOf(fi.format).Err?
    ensures Encode(lib, config, s, t, rs) == Outcome(Some(lib.contentTypeOf(fi.format).error), s)
  {
  }

  /**
   * Unlike the libvips engine, a rotation or format resolution error is returned, with the
   * image as the earlier stages left it.
   */
  lemma ResolutionErrorsPropagate(lib: Library, config: Config, s: State, t: Transformation, rs: Resolvers)
    ensures rs.rotationInstructions(t, ViewOf(s)).Err? ==>
      Orient(lib, config, s, t, rs) == Outcome(Some(rs.rotationInstructions(t, ViewOf(s)).error), s)
    ensures rs.formatInstructions(t, ViewOf(s)).Err? ==>
      Encode(lib, config, s, t, rs) == Outcome(Some(rs.formatInstructions(t, ViewOf(s)).error), s)
  {
  }

  /** The custom pass's response is dropped: whatever it reports, success leaves its image and format. */
  lemma CustomResponseDiscarded(lib: Library, config: Config, s: State, t: Transformation, rs: Resolvers,
                                rsp: Custom.CustomResponse, d: Decoded)
    requires Custom.CustomTransform(rs.formatInstructions(t, ViewOf(s)), t.quality, config,
                                    Decoded(s.image, s.format), lib.effects) == Ok((rsp, d))
    ensures Stylise(lib, config, s, t, rs) == Outcome(None, State(s.id, d.raster, d.format))
  {
  }

  /**
   * A request for the whole image at full size, unrotated, in default quality and in a format
   * with the image's own content type returns success and leaves the image exactly as it was.
   */
  lemma IdentityRequestKeepsImage(lib: Library, config: Config, s: State, t: Transformation, rs: Resolvers,
                                  fi: FormatInstruction)
    requires t.region == "full" && KeepsSize(t.size) && t.quality == "default"
    requires rs.rotationInstructions(t, ViewOf(s)) == Ok(RotationInstruction(false, 0))
    requires rs.formatInstructions(t, ViewOf(s)) == Ok(fi)
    requires lib.contentTypeOf(fi.format) == Ok(ContentTypeOf(lib, s))
    ensures TransformSpec(lib, config, s, t, rs) == Outcome(None, s)
  {
  }

  /** A region that does not resolve ends the transform with that error, before anything is changed. */
  lemma RegionErrorAborts(lib: Library, config: Config, s: State, t: Transformation, rs: Resolvers)
    requires t.region != "full" && rs.regionInstructions(t, ViewOf(s)).Err?
    ensures TransformSpec(lib, config, s, t, rs) == Outcome(Some(rs.regionInstructions(t, ViewOf(s)).error), s)
  {
  }

  /**
   * A resolved region crops the image to the box at its offset with its width and height, and
   * the rest of the transform starts from the cropped image; a "full" region crops nothing.
   */
  lemma CropUsesRegionBox(lib: Library, config: Config, s: State, t: Transformation, rs: Resolvers,
                          rgi: RegionInstruction)
    requires rgi.width >= 0 && rgi.height >= 0
    ensures t.region != "full" && rs.regionInstructions(t, ViewOf(s)) == Ok(rgi) ==>
      var box := Rectangle(Point(rgi.x, rgi.y), Point(rgi.x + rgi.width, rgi.y + rgi.height));
      TransformSpec(lib, config, s, t, rs) == AfterCrop(lib, config, s.(image := lib.crop(s.image, box)), t, rs)
    ensures t.region == "full" ==> TransformSpec(lib, config, s, t, rs) == AfterCrop(lib, config, s, t, rs)
  {
  }

  /** A size that does not resolve ends the transform with that error, with the image as cropped. */
  lemma SizeErrorAborts(lib: Library, config: Config, s: State, t: Transformation, rs: Resolvers)
    requires !KeepsSize(t.size) && rs.sizeInstructions(t, ViewOf(s)).Err?
    ensures AfterCrop(lib, config, s, t, rs) == Outcome(Some(rs.sizeInstructions(t, ViewOf(s)).error), s)
  {
  }

  /** "max" and "full" never resize; any other size resizes to exactly the resolved width and height. */
  lemma ResizeToResolvedSize(lib: Library, config: Config, s: State, t: Transformation, rs: Resolvers,
                             si: SizeInstruction)
    ensures KeepsSize(t.size) ==> AfterCrop(lib, config, s, t, rs) == Orient(lib, config, s, t, rs)
    ensures !KeepsSize(t.size) && rs.sizeInstructions(t, ViewOf(s)) == Ok(si) ==>
      AfterCrop(lib, config, s, t, rs) == Orient(lib, config, s.(image := lib.resize(s.image, si.width, si.height)), t, rs)
  {
  }

  /** A failing custom-quality pass ends the transform with its error, with the image as converted. */
  lemma CustomErrorAborts(lib: Library, config: Config, s: State, t: Transformation, rs: Resolvers)
    requires Custom.CustomTransform(rs.formatInstructions(t, ViewOf(s)), t.quality, config,
                                    Decoded(s.image, s.format), lib.effects).Err?
    ensures Stylise(lib, config, s, t, rs) ==
      Outcome(Some(Custom.CustomTransform(rs.formatInstructions(t, ViewOf(s)), t.quality, config,
                                          Decoded(s.image, s.format), lib.effects).error), s)
  {
  }

  /**
   * A request for the whole image at a size that resolves to W x H, unrotated, in default quality
   * and in a format with the image's own content type, succeeds and leaves exactly the resized
   * image; when the resize produces the size asked for, the result is W x H.
   */
  lemma ResizeReachesRequestedSize(lib: Library, config: Config, s: State, t: Transformation, rs: Resolvers,
                                   si: SizeInstruction, fi: FormatInstruction)
    requires t.region == "full" && !KeepsSize(t.size) && t.quality == "default"
    requires rs.sizeInstructions(t, ViewOf(s)) == Ok(si)
    requires var r := s.(image := lib.resize(s.image, si.width, si.height));
      rs.rotationInstructions(t, ViewOf(r)) == Ok(RotationInstruction(false, 0)) &&
      rs.formatInstructions(t, ViewOf(r)) == Ok(fi)
    requires lib.contentTypeOf(fi.format) == Ok(ContentTypeOf(lib, s))
    ensures var o := TransformSpec(lib, config, s, t, rs);
      o.err == None && o.state == s.(image := lib.resize(s.image, si.width, si.height))
    ensures var o := TransformSpec(lib, config, s, t, rs);
      si.width >= 0 && si.height >= 0 && lib.resize(s.image, si.width, si.height).bounds == Rect(0, 0, si.width, si.height) ==>
      o.state.image.bounds.max == Point(si.width, si.height)
  {
    var r := s.(image := lib.resize(s.image, si.width, si.height));
    assert AfterCrop(lib, config, s, t, rs) == Orient(lib, config, r, t, rs);
    assert Orient(lib, config, r, t, rs) == Encode(lib, config, r, t, rs);
    assert Encode(lib, config, r, t, rs) == Stylise(lib, config, r, t, rs);
  }
}
