/**
 * The libvips engine (image/vips.go): an image held as the bytes a `bimg.Image` wraps,
 * transformed by at most two `Process` calls whose `bimg.Options` the engine builds field by
 * field, followed by the custom-quality pass and, for GIF targets, a re-encode through Go's
 * image packages because libvips cannot write GIF.
 */
module Vips {
  import opened Results
  import opened GoImage
  import opened Instructions
  import Custom

  /** The `bimg.ImageType` values the engine asks for; `Unknown` is Go's zero value. */
  datatype ImageType = Unknown | Jpeg | Webp | Png | Tiff

  /** `Interpretation` is left at Go's zero value (`Unset`) or set to `bimg.InterpretationBW`. */
  datatype Interpretation = Unset | BW

  /** The fields of `bimg.Options` the engine sets. */
  datatype Options = Options(
    width: int, height: int,
    areaWidth: int, areaHeight: int, top: int, left: int,
    enlarge: bool, force: bool,
    flip: bool, rotate: int,
    interpretation: Interpretation, imageType: ImageType)

  /** `bimg.Options{}`. */
  const ZeroOptions := Options(0, 0, 0, 0, 0, 0, false, false, false, 0, Unset, Unknown)

  datatype ImageSize = ImageSize(width: int, height: int)

  /** The two `Dimensions` implementations this file defines. */
  datatype Dimensions = GolangImageDimensions(image: Raster) | VIPSDimensions(imagesize: ImageSize)
  {
    function Width(): int
    {
      match this
      case GolangImageDimensions(img) => img.bounds.max.x
      case VIPSDimensions(sz) => sz.width
    }

    function Height(): int
    {
      match this
      case GolangImageDimensions(img) => img.bounds.max.y
      case VIPSDimensions(sz) => sz.height
    }
  }

  /** The collaborators of this engine, none of which is part of this model. */
  datatype Library = Library(
    /** `bimg.Image.Process`: libvips applied to the buffer */
    process: (Bytes, Options) -> Result<Bytes>,
    /** `bimg.Image.Size` */
    size: Bytes -> Result<ImageSize>,
    /** `bimg.Image.Type` */
    imageType: Bytes -> string,
    /** `gif.Decode` */
    gifDecode: Bytes -> Result<Raster>,
    /** `ImageFormatToContentType` */
    contentTypeOf: string -> Result<string>,
    /** `IIIFImageToGolangImage` */
    toGolang: Bytes -> Result<Raster>,
    /** `GolangImageToIIIFImage`: the bytes it hands to `Update` */
    fromGolang: (Raster, ImageView) -> Result<Bytes>,
    /** `DitherImage` and `PrimitiveImage` on this engine's buffer */
    effects: Custom.Effects<Bytes>)

  const GifFormat := "gif"

  /** The fields of a `VIPSImage` that its methods read or change. */
  datatype State = State(id: string, isgif: bool, buffer: Bytes)

  function FormatOf(lib: Library, s: State): string
  {
    lib.imageType(s.buffer)
  }

  function ContentTypeOf(lib: Library, s: State): string
  {
    ContentTypeOrEmpty(lib.contentTypeOf, FormatOf(lib, s))
  }

  /** `Dimensions()`: decoded with Go's GIF decoder when `isgif` is set, asked of libvips otherwise. */
  function DimensionsOf(lib: Library, s: State): (r: Result<Dimensions>)
    ensures s.isgif ==> (r.Ok? <==> lib.gifDecode(s.buffer).Ok?)
    ensures !s.isgif ==> (r.Ok? <==> lib.size(s.buffer).Ok?)
    ensures r.Ok? && !s.isgif ==>
      r.value.Width() == lib.size(s.buffer).value.width && r.value.Height() == lib.size(s.buffer).value.height
    ensures r.Ok? && s.isgif ==>
      r.value.Width() == lib.gifDecode(s.buffer).value.bounds.max.x &&
      r.value.Height() == lib.gifDecode(s.buffer).value.bounds.max.y
    ensures r.Err? ==> r.error == (if s.isgif then lib.gifDecode(s.buffer).error else lib.size(s.buffer).error)
  {
    if s.isgif then
      match lib.gifDecode(s.buffer)
      case Err(e) => Err(e)
      case Ok(img) => Ok(GolangImageDimensions(img))
    else
      match lib.size(s.buffer)
      case Err(e) => Err(e)
      case Ok(sz) => Ok(VIPSDimensions(sz))
  }

  function ViewOf(lib: Library, s: State): ImageView
  {
    ImageView(s.id, FormatOf(lib, s),
      match DimensionsOf(lib, s)
      case Ok(d) => Ok(Dims(d.Width(), d.Height()))
      case Err(e) => Err(e))
  }

  // ----- the options of the two passes -----

  /** The crop pass: the region box, a (0, 0) origin sent as top -1, and PNG output for an SVG source. */
  function CropOptions(rgi: RegionInstruction, sourceIsSvg: bool): (o: Options)
    ensures o.areaWidth == rgi.width && o.areaHeight == rgi.height && o.left == rgi.x
    ensures rgi.x == 0 && rgi.y == 0 ==> o.top == -1
    ensures rgi.x != 0 || rgi.y != 0 ==> o.top == rgi.y
    ensures o.imageType == (if sourceIsSvg then Png else Unknown)
    ensures o.(areaWidth := 0, areaHeight := 0, left := 0, top := 0, imageType := Unknown) == ZeroOptions
  {
    ZeroOptions.(areaWidth := rgi.width, areaHeight := rgi.height, left := rgi.x,
                 top := if rgi.x == 0 && rgi.y == 0 then -1 else rgi.y,
                 imageType := if sourceIsSvg then Png else Unknown)
  }

  /** The size part of the second pass: the size instruction if one was resolved, else the current dimensions. */
  function ResizeOptions(dims: Dims, si: Option<SizeInstruction>): (o: Options)
    ensures si.None? ==> o.width == dims.width && o.height == dims.height && !o.enlarge && !o.force
    ensures si.Some? ==>
      o.width == si.value.width && o.height == si.value.height &&
      o.enlarge == si.value.enlarge && o.force == si.value.force
    ensures o.(width := 0, height := 0, enlarge := false, force := false) == ZeroOptions
  {
    match si
    case None => ZeroOptions.(width := dims.width, height := dims.height)
    case Some(si) => ZeroOptions.(width := si.width, height := si.height, enlarge := si.enlarge, force := si.force)
  }

  /** Go's `%`: truncated division, so the remainder takes the sign of the dividend. */
  function NormalizedAngle(angle: int): (r: int)
    ensures -360 < r < 360
    ensures (angle - r) % 360 == 0
    ensures angle >= 0 ==> r >= 0
    ensures angle <= 0 ==> r <= 0
    ensures 0 <= angle < 360 ==> r == angle
  {
    if angle >= 0 then angle % 360 else -((-angle) % 360)
  }

  function QualityInterpretation(quality: string): (i: Interpretation)
    ensures i == BW <==> quality == "gray" || quality == "bitonal"
  {
    if quality == "color" || quality == "default" then Unset
    else if quality == "gray" then BW
    else if quality == "bitonal" then BW
    else Unset
  }

  /**
   * The rotation and quality part of the second pass: flip copied, angle mod 360, and B/W set for
   * "gray" and "bitonal" (an interpretation already set is never reset); every other field kept.
   */
  function OrientOptions(sized: Options, ri: RotationInstruction, quality: string): (o: Options)
    ensures o.flip == ri.flip && o.rotate == NormalizedAngle(ri.angle)
    ensures o.interpretation == BW <==> quality == "gray" || quality == "bitonal" || sized.interpretation == BW
    ensures o.(flip := sized.flip, rotate := sized.rotate, interpretation := sized.interpretation) == sized
  {
    var interpretation := if QualityInterpretation(quality) == BW then BW else sized.interpretation;
    sized.(flip := ri.flip, rotate := NormalizedAngle(ri.angle), interpretation := interpretation)
  }

  /** The type libvips is asked to write for a target format; GIF is written as PNG. */
  function TargetType(format: string): (r: Option<ImageType>)
    ensures r.Some? <==> format in {"jpg", "png", "webp", "tif", "gif"}
    ensures r == Some(Png) <==> format == "png" || format == GifFormat
    ensures r == Some(Jpeg) <==> format == "jpg"
    ensures r == Some(Webp) <==> format == "webp"
    ensures r == Some(Tiff) <==> format == "tif"
  {
    if format == "jpg" then Some(Jpeg)
    else if format == "png" then Some(Png)
    else if format == "webp" then Some(Webp)
    else if format == "tif" then Some(Tiff)
    else if format == GifFormat then Some(Png)
    else None
  }

  // ----- the pipeline -----

  /** The result of `Transform`, the state it leaves, and the options of every `Process` call it made. */
  datatype Outcome = Outcome(err: Option<Error>, state: State, passes: seq<Options>)

  function Prepend(opts: Options, o: Outcome): Outcome
  {
    o.(passes := [opts] + o.passes)
  }

  /** `Transform(t)`: the crop pass only when the region is not "full". */
  function TransformSpec(lib: Library, config: Config, s: State, t: Transformation, rs: Resolvers): (o: Outcome)
    ensures o.state.id == s.id && o.state.isgif == s.isgif
    ensures |o.passes| <= 2
  {
    if t.region != "full" then Cropped(lib, config, s, t, rs) else AfterCrop(lib, config, s, t, rs)
  }

  /** Step 1, the region: resolve it and make the crop pass, then go on from the cropped image. */
  function Cropped(lib: Library, config: Config, s: State, t: Transformation, rs: Resolvers): (o: Outcome)
    ensures o.state.id == s.id && o.state.isgif == s.isgif
    ensures |o.passes| <= 2
  {
    match rs.regionInstructions(t, ViewOf(lib, s))
    case Err(e) => Outcome(Some(e), s, [])
    case Ok(rgi) => CropPassThen(lib, config, s, t, rs, CropOptions(rgi, ContentTypeOf(lib, s) == SvgContentType))
  }

  /** The crop `Process` call itself; its error ends the transform. */
  function CropPassThen(lib: Library, config: Config, s: State, t: Transformation, rs: Resolvers,
                        opts: Options): (o: Outcome)
    ensures o.state.id == s.id && o.state.isgif == s.isgif
    ensures 1 <= |o.passes| <= 2 && o.passes[0] == opts
  {
    match lib.process(s.buffer, opts)
    case Err(e) => Outcome(Some(e), s, [opts])
    case Ok(b) => Prepend(opts, AfterCrop(lib, config, s.(buffer := b), t, rs))
  }

  /** Steps 2 and 3: the dimensions after the crop, and the size instruction unless the size is "max" or "full". */
  function AfterCrop(lib: Library, config: Config, s: State, t: Transformation, rs: Resolvers): (o: Outcome)
    ensures o.state.id == s.id && o.state.isgif == s.isgif
    ensures |o.passes| <= 1
  {
    match DimensionsOf(lib, s)
    case Err(e) => Outcome(Some(e), s, [])
    case Ok(d) =>
      var dims := Dims(d.Width(), d.Height());
      if !KeepsSize(t.size) then
        match rs.sizeInstructions(t, ViewOf(lib, s))
        case Err(e) => Outcome(Some(e), s, [])
        case Ok(si) => SecondPass(lib, config, s, t, rs, ResizeOptions(dims, Some(si)))
      else SecondPass(lib, config, s, t, rs, ResizeOptions(dims, None))
  }

  /** Steps 4 and 5: rotation and quality; a rotation resolution error ends the transform as a success. */
  function SecondPass(lib: Library, config: Config, s: State, t: Transformation, rs: Resolvers,
                      sized: Options): (o: Outcome)
    ensures o.state.id == s.id && o.state.isgif == s.isgif
    ensures |o.passes| <= 1
  {
    match rs.rotationInstructions(t, ViewOf(lib, s))
    case Err(_) => Outcome(None, s, [])
    case Ok(ri) => Encoded(lib, config, s, t, rs, OrientOptions(sized, ri, t.quality))
  }

  /**
   * Step 6: the format completes the second pass's options and the pass is made; a format
   * resolution error ends the transform as a success without it.
   */
  function Encoded(lib: Library, config: Config, s: State, t: Transformation, rs: Resolvers,
                   oriented: Options): (o: Outcome)
    ensures o.state.id == s.id && o.state.isgif == s.isgif
    ensures |o.passes| <= 1
  {
    match rs.formatInstructions(t, ViewOf(lib, s))
    case Err(_) => Outcome(None, s, [])
    case Ok(fi) =>
      match TargetType(fi.format)
      case None => Outcome(Some(UnsupportedImageFormat(fi.format)), s, [])
      case Some(ty) =>
        var opts := oriented.(imageType := ty);
        match lib.process(s.buffer, opts)
        case Err(e) => Outcome(Some(e), s, [opts])
        case Ok(b) => Prepend(opts, AfterProcess(lib, config, s.(buffer := b), t, rs, fi))
  }

  /** Steps 7 and 8: the custom-quality pass, then the GIF re-encode unless that pass produced the GIF. */
  function AfterProcess(lib: Library, config: Config, s: State, t: Transformation, rs: Resolvers,
                        fi: FormatInstruction): (o: Outcome)
    ensures o.state.id == s.id && o.state.isgif == s.isgif
    ensures o.passes == []
  {
    match Custom.CustomTransform(rs.formatInstructions(t, ViewOf(lib, s)), t.quality, config, s.buffer, lib.effects)
    case Err(e) => Outcome(Some(e), s, [])
    case Ok((rsp, b)) =>
      var s' := s.(buffer := b);
      if fi.format == GifFormat && !rsp.isGIF then Reconcile(lib, s') else Outcome(None, s', [])
  }

  /** Decode the processed buffer with Go's image packages and store it re-encoded. */
  function Reconcile(lib: Library, s: State): (o: Outcome)
    ensures o.state.id == s.id && o.state.isgif == s.isgif
    ensures o.passes == []
  {
    match lib.toGolang(s.buffer)
    case Err(e) => Outcome(Some(e), s, [])
    case Ok(img) =>
      match lib.fromGolang(img, ViewOf(lib, s))
      case Err(e) => Outcome(Some(e), s, [])
      case Ok(b) => Outcome(None, s.(buffer := b), [])
  }

  // ----- the engine object -----

  class VIPSImage {
    const lib: Library
    const config: Config
    const sourceId: string
    var id: string
    /** the bytes the `bimg.Image` wraps */
    var buffer: Bytes
    var isgif: bool
    /** the options of every `Process` call made so far */
    ghost var passes: seq<Options>

    /** The struct built once the source bytes `body` have been read (the read itself is not modelled). */
    constructor (lib: Library, config: Config, id: string, body: Bytes)
      ensures this.lib == lib && this.config == config
      ensures sourceId == id && this.id == id && buffer == body
      ensures !isgif && passes == []
    {
      this.lib := lib;
      this.config := config;
      sourceId := id;
      this.id := id;
      buffer := body;
      isgif := false;
      passes := [];
    }

    function Snapshot(): State
      reads this
    {
      State(id, isgif, buffer)
    }

    function Body(): Bytes
      reads this
    {
      buffer
    }

    function Identifier(): string
      reads this
    {
      id
    }

    function Format(): (f: string)
      reads this
      ensures f == lib.imageType(buffer)
    {
      FormatOf(lib, Snapshot())
    }

    function ContentType(): (ct: string)
      reads this
      ensures lib.contentTypeOf(Format()).Ok? ==> ct == lib.contentTypeOf(Format()).value
      ensures lib.contentTypeOf(Format()).Err? ==> ct == ""
    {
      ContentTypeOf(lib, Snapshot())
    }

    /** Go's GIF decoder when `isgif` is set, libvips's size otherwise; either one's error is returned. */
    function Dimensions(): (r: Result<Dimensions>)
      reads this
      ensures !isgif ==> (r.Ok? <==> lib.size(buffer).Ok?)
      ensures !isgif && r.Ok? ==>
        r.value.Width() == lib.size(buffer).value.width && r.value.Height() == lib.size(buffer).value.height
      ensures !isgif && r.Err? ==> r.error == lib.size(buffer).error
      ensures isgif ==> (r.Ok? <==> lib.gifDecode(buffer).Ok?)
      ensures isgif && r.Ok? ==>
        r.value.Width() == lib.gifDecode(buffer).value.bounds.max.x &&
        r.value.Height() == lib.gifDecode(buffer).value.bounds.max.y
      ensures isgif && r.Err? ==> r.error == lib.gifDecode(buffer).error
    {
      DimensionsOf(lib, Snapshot())
    }

    function View(): ImageView
      reads this
    {
      ViewOf(lib, Snapshot())
    }

    /** `Update(body)`: the new bytes are taken as they are; nothing is decoded, so it cannot fail. */
    method Update(body: Bytes) returns (err: Option<Error>)
      modifies this`buffer
      ensures err == None && buffer == body && Body() == body
    {
      buffer := body;
      err := None;
    }

    /** `Rename(id)`: only the identifier changes. */
    method Rename(newId: string) returns (err: Option<Error>)
      modifies this`id
      ensures err == None && id == newId && Identifier() == newId
    {
      id := newId;
      err := None;
    }

    /** `im.bimg.Process(opts)`: recorded in `passes`; the buffer changes only when libvips succeeds. */
    method Process(opts: Options) returns (err: Option<Error>)
      modifies this`buffer, this`passes
      ensures passes == old(passes) + [opts]
      ensures match lib.process(old(buffer), opts)
              case Err(e) => err == Some(e) && buffer == old(buffer)
              case Ok(b) => err == None && buffer == b
    {
      passes := passes + [opts];
      var r := lib.process(buffer, opts);
      if r.Err? {
        return Some(r.error);
      }
      buffer := r.value;
      return None;
    }

    /** `Transform(t)`, following the order of section 4.6 of the IIIF Image API 2.1. */
    method Transform(t: Transformation, rs: Resolvers) returns (err: Option<Error>)
      modifies this`buffer, this`passes
      ensures var o := TransformSpec(lib, config, old(Snapshot()), t, rs);
              err == o.err && Snapshot() == o.state && passes == old(passes) + o.passes
    {
      if t.region != "full" {
        err := CropStep(t, rs);
      } else {
        err := ResizeStep(t, rs);
      }
    }

    /** The region branch of `Transform`: the crop pass's options. */
    method CropStep(t: Transformation, rs: Resolvers) returns (err: Option<Error>)
      modifies this`buffer, this`passes
      ensures var o := Cropped(lib, config, old(Snapshot()), t, rs);
              err == o.err && Snapshot() == o.state && passes == old(passes) + o.passes
    {
      var rgi := rs.regionInstructions(t, View());
      if rgi.Err? {
        return Some(rgi.error);
      }
      var opts := ZeroOptions.(areaWidth := rgi.value.width, areaHeight := rgi.value.height,
                               left := rgi.value.x, top := rgi.value.y);
      if ContentType() == SvgContentType {
        opts := opts.(imageType := Png);
      }
      if opts.top == 0 && opts.left == 0 {
        opts := opts.(top := -1);
      }
      assert opts == CropOptions(rgi.value, ContentType() == SvgContentType);
      err := CropPassStep(t, rs, opts);
    }

    /** The crop `Process` call, then the rest of `Transform`. */
    method CropPassStep(t: Transformation, rs: Resolvers, opts: Options) returns (err: Option<Error>)
      modifies this`buffer, this`passes
      ensures var o := CropPassThen(lib, config, old(Snapshot()), t, rs, opts);
              err == o.err && Snapshot() == o.state && passes == old(passes) + o.passes
    {
      ghost var before := passes;
      err := Process(opts);
      if err.Some? {
        return;
      }
      ghost var cropped := Snapshot();
      assert cropped == old(Snapshot()).(buffer := lib.process(old(buffer), opts).value);
      err := ResizeStep(t, rs);
      ghost var rest := AfterCrop(lib, config, cropped, t, rs).passes;
      assert passes == before + ([opts] + rest) by {
        assert passes == before + [opts] + rest;
      }
    }

    /** Dimensions and size. */
    method ResizeStep(t: Transformation, rs: Resolvers) returns (err: Option<Error>)
      modifies this`buffer, this`passes
      ensures var o := AfterCrop(lib, config, old(Snapshot()), t, rs);
              err == o.err && Snapshot() == o.state && passes == old(passes) + o.passes
    {
      var dims := Dimensions();
      if dims.Err? {
        return Some(dims.error);
      }
      var opts := ZeroOptions.(width := dims.value.Width(), height := dims.value.Height());
      if !KeepsSize(t.size) {
        var si := rs.sizeInstructions(t, View());
        if si.Err? {
          return Some(si.error);
        }
        opts := opts.(height := si.value.height, width := si.value.width,
                      enlarge := si.value.enlarge, force := si.value.force);
      }
      err := RenderStep(t, rs, opts);
    }

    /** Rotation and quality. */
    method RenderStep(t: Transformation, rs: Resolvers, sized: Options) returns (err: Option<Error>)
      modifies this`buffer, this`passes
      ensures var o := SecondPass(lib, config, old(Snapshot()), t, rs, sized);
              err == o.err && Snapshot() == o.state && passes == old(passes) + o.passes
    {
      var ri := rs.rotationInstructions(t, View());
      if ri.Err? {
        return None;
      }
      var opts := sized.(flip := ri.value.flip, rotate := NormalizedAngle(ri.value.angle));

      if t.quality == "color" || t.quality == "default" {
        // nothing to set
      } else if t.quality == "gray" {
        opts := opts.(interpretation := BW);
      } else if t.quality == "bitonal" {
        opts := opts.(interpretation := BW);
      }
      assert opts == OrientOptions(sized, ri.value, t.quality);
      err := FormatStep(t, rs, opts);
    }

    /** The format, then the second `Process` call. */
    method FormatStep(t: Transformation, rs: Resolvers, oriented: Options) returns (err: Option<Error>)
      modifies this`buffer, this`passes
      ensures var o := Encoded(lib, config, old(Snapshot()), t, rs, oriented);
              err == o.err && Snapshot() == o.state && passes == old(passes) + o.passes
    {
      var fi := rs.formatInstructions(t, View());
      if fi.Err? {
        return None;
      }
      var opts := oriented;
      var format := fi.value.format;
      if format == "jpg" {
        opts := opts.(imageType := Jpeg);
      } else if format == "png" {
        opts := opts.(imageType := Png);
      } else if format == "webp" {
        opts := opts.(imageType := Webp);
      } else if format == "tif" {
        opts := opts.(imageType := Tiff);
      } else if format == GifFormat {
        opts := opts.(imageType := Png);
      } else {
        return Some(UnsupportedImageFormat(format));
      }

      err := Process(opts);
      if err.Some? {
        return;
      }
      err := CustomStep(t, rs, fi.value);
    }

    /** The custom-quality pass and the GIF re-encode. */
    method CustomStep(t: Transformation, rs: Resolvers, fi: FormatInstruction) returns (err: Option<Error>)
      modifies this`buffer
      ensures var o := AfterProcess(lib, config, old(Snapshot()), t, rs, fi);
              err == o.err && Snapshot() == o.state
    {
      var rsp := Custom.CustomTransform(rs.formatInstructions(t, View()), t.quality, config, buffer, lib.effects);
      if rsp.Err? {
        return Some(rsp.error);
      }
      err := Update(rsp.value.1);

      if fi.format == GifFormat && !rsp.value.0.isGIF {
        var goimg := lib.toGolang(Body());
        if goimg.Err? {
          return Some(goimg.error);
        }
        var body := lib.fromGolang(goimg.value, View());
        if body.Err? {
          return Some(body.error);
        }
        err := Update(body.value);
      }
      return None;
    }
  }

  // ----- properties of the pipeline -----

  /** A region that does not resolve ends the transform with that error, before any `Process` call. */
  lemma RegionErrorAborts(lib: Library, config: Config, s: State, t: Transformation, rs: Resolvers)
    requires t.region != "full" && rs.regionInstructions(t, ViewOf(lib, s)).Err?
    ensures TransformSpec(lib, config, s, t, rs) ==
            Outcome(Some(rs.regionInstructions(t, ViewOf(lib, s)).error), s, [])
  {
  }

  /**
   * The crop pass is the first `Process` call and carries the region's box, with a (0, 0) origin
   * sent as top -1 and PNG output for an SVG source; a failing crop pass ends the transform.
   */
  lemma CropPass(lib: Library, config: Config, s: State, t: Transformation, rs: Resolvers, rgi: RegionInstruction)
    requires t.region != "full" && rs.regionInstructions(t, ViewOf(lib, s)) == Ok(rgi)
    ensures var o := TransformSpec(lib, config, s, t, rs);
      |o.passes| >= 1 &&
      o.passes[0].areaWidth == rgi.width && o.passes[0].areaHeight == rgi.height &&
      o.passes[0].left == rgi.x &&
      o.passes[0].top == (if rgi.x == 0 && rgi.y == 0 then -1 else rgi.y) &&
      o.passes[0].imageType == (if ContentTypeOf(lib, s) == SvgContentType then Png else Unknown) &&
      o.passes[0].width == 0 && o.passes[0].height == 0 && o.passes[0].rotate == 0
    ensures var opts := CropOptions(rgi, ContentTypeOf(lib, s) == SvgContentType);
      lib.process(s.buffer, opts).Err? ==>
      TransformSpec(lib, config, s, t, rs) == Outcome(Some(lib.process(s.buffer, opts).error), s, [opts])
  {
  }

  /** A region of "full" makes no crop pass: the transform starts at the dimensions. */
  lemma FullRegionSkipsCrop(lib: Library, config: Config, s: State, t: Transformation, rs: Resolvers)
    requires t.region == "full"
    ensures TransformSpec(lib, config, s, t, rs) == AfterCrop(lib, config, s, t, rs)
    ensures |TransformSpec(lib, config, s, t, rs).passes| <= 1
  {
  }

  /**
   * An error from `Dimensions` or, when the size is neither "max" nor "full", from the size
   * resolution ends the transform with that error before the second pass.
   */
  lemma SizeStageErrorsAbort(lib: Library, config: Config, s: State, t: Transformation, rs: Resolvers)
    ensures DimensionsOf(lib, s).Err? ==>
      AfterCrop(lib, config, s, t, rs) == Outcome(Some(DimensionsOf(lib, s).error), s, [])
    ensures DimensionsOf(lib, s).Ok? && !KeepsSize(t.size) && rs.sizeInstructions(t, ViewOf(lib, s)).Err? ==>
      AfterCrop(lib, config, s, t, rs) == Outcome(Some(rs.sizeInstructions(t, ViewOf(lib, s)).error), s, [])
  {
  }

  /**
   * When the second pass is made, its options are: the size instruction's width, height,
   * enlarge and force when the size is neither "max" nor "full", the current dimensions
   * otherwise; the flip; the angle taken mod 360 as Go does; black-and-white interpretation
   * exactly for "gray" and "bitonal"; and the target type; no crop fields.
   */
  lemma SecondPassOptions(lib: Library, config: Config, s: State, t: Transformation, rs: Resolvers,
                          d: Dimensions, ri: RotationInstruction, fi: FormatInstruction, ty: ImageType)
    requires DimensionsOf(lib, s) == Ok(d)
    requires !KeepsSize(t.size) ==> rs.sizeInstructions(t, ViewOf(lib, s)).Ok?
    requires rs.rotationInstructions(t, ViewOf(lib, s)) == Ok(ri)
    requires rs.formatInstructions(t, ViewOf(lib, s)) == Ok(fi)
    requires TargetType(fi.format) == Some(ty)
    ensures var o := AfterCrop(lib, config, s, t, rs);
      |o.passes| == 1 &&
      var p := o.passes[0];
      (KeepsSize(t.size) ==> p.width == d.Width() && p.height == d.Height() && !p.enlarge && !p.force) &&
      (!KeepsSize(t.size) ==>
        var si := rs.sizeInstructions(t, ViewOf(lib, s)).value;
        p.width == si.width && p.height == si.height && p.enlarge == si.enlarge && p.force == si.force) &&
      p.flip == ri.flip && p.rotate == NormalizedAngle(ri.angle) &&
      (p.interpretation == BW <==> t.quality == "gray" || t.quality == "bitonal") &&
      p.imageType == ty &&
      p.areaWidth == 0 && p.areaHeight == 0 && p.left == 0 && p.top == 0
  {
  }

  /** A failing second `Process` call ends the transform with libvips's error and the buffer as it was. */
  lemma SecondProcessErrorAborts(lib: Library, config: Config, s: State, t: Transformation, rs: Resolvers,
                                 oriented: Options, fi: FormatInstruction, ty: ImageType)
    requires rs.formatInstructions(t, ViewOf(lib, s)) == Ok(fi) && TargetType(fi.format) == Some(ty)
    requires lib.process(s.buffer, oriented.(imageType := ty)).Err?
    ensures Encoded(lib, config, s, t, rs, oriented) ==
      Outcome(Some(lib.process(s.buffer, oriented.(imageType := ty)).error), s, [oriented.(imageType := ty)])
  {
  }

  /**
   * A rotation or format resolution error is dropped: the transform reports success, keeps the
   * cropped image, and makes no second pass.
   */
  lemma ResolutionErrorsSwallowed(lib: Library, config: Config, s: State, t: Transformation, rs: Resolvers)
    requires DimensionsOf(lib, s).Ok?
    requires !KeepsSize(t.size) ==> rs.sizeInstructions(t, ViewOf(lib, s)).Ok?
    requires rs.rotationInstructions(t, ViewOf(lib, s)).Err? || rs.formatInstructions(t, ViewOf(lib, s)).Err?
    ensures AfterCrop(lib, config, s, t, rs) == Outcome(None, s, [])
  {
  }

  /** A target format other than jpg, png, webp, tif and gif fails before the second pass. */
  lemma UnsupportedFormatFails(lib: Library, config: Config, s: State, t: Transformation, rs: Resolvers,
                               fi: FormatInstruction)
    requires DimensionsOf(lib, s).Ok?
    requires !KeepsSize(t.size) ==> rs.sizeInstructions(t, ViewOf(lib, s)).Ok?
    requires rs.rotationInstructions(t, ViewOf(lib, s)).Ok?
    requires rs.formatInstructions(t, ViewOf(lib, s)) == Ok(fi)
    requires fi.format !in {"jpg", "png", "webp", "tif", "gif"}
    ensures AfterCrop(lib, config, s, t, rs) == Outcome(Some(UnsupportedImageFormat(fi.format)), s, [])
  {
  }

  /** An error from the custom pass is returned, with the buffer as the second pass left it. */
  lemma CustomErrorAborts(lib: Library, config: Config, s: State, t: Transformation, rs: Resolvers,
                          fi: FormatInstruction)
    requires Custom.CustomTransform(rs.formatInstructions(t, ViewOf(lib, s)), t.quality, config, s.buffer, lib.effects).Err?
    ensures AfterProcess(lib, config, s, t, rs, fi) == Outcome(Some(
      Custom.CustomTransform(rs.formatInstructions(t, ViewOf(lib, s)), t.quality, config, s.buffer, lib.effects).error), s, [])
  {
  }

  /**
   * After the second pass, the GIF re-encode runs exactly when the target is "gif" and the
   * custom pass did not report that it produced the GIF itself; otherwise the custom pass's
   * result is final.
   */
  lemma GifReconciliation(lib: Library, config: Config, s: State, t: Transformation, rs: Resolvers,
                          fi: FormatInstruction)
    requires Custom.CustomTransform(rs.formatInstructions(t, ViewOf(lib, s)), t.quality, config, s.buffer, lib.effects).Ok?
    ensures var c := Custom.CustomTransform(rs.formatInstructions(t, ViewOf(lib, s)), t.quality, config, s.buffer, lib.effects);
      var s' := s.(buffer := c.value.1);
      AfterProcess(lib, config, s, t, rs, fi) ==
        if fi.format == GifFormat && !c.value.0.isGIF then Reconcile(lib, s') else Outcome(None, s', [])
  {
  }

  /** Either half of the GIF re-encode failing ends the transform with that error and the buffer unchanged. */
  lemma ReencodeErrorsAbort(lib: Library, s: State)
    ensures lib.toGolang(s.buffer).Err? ==> Reconcile(lib, s) == Outcome(Some(lib.toGolang(s.buffer).error), s, [])
    ensures lib.toGolang(s.buffer).Ok? && lib.fromGolang(lib.toGolang(s.buffer).value, ViewOf(lib, s)).Err? ==>
      Reconcile(lib, s) == Outcome(Some(lib.fromGolang(lib.toGolang(s.buffer).value, ViewOf(lib, s)).error), s, [])
    ensures Reconcile(lib, s).err.None? ==>
      lib.toGolang(s.buffer).Ok? &&
      Reconcile(lib, s).state.buffer == lib.fromGolang(lib.toGolang(s.buffer).value, ViewOf(lib, s)).value
  {
  }

  /**
   * With a "gif" target and any quality but a primitive one, the re-encode always runs: a
   * custom pass that is not the primitive stylisation never reports a GIF.
   */
  lemma GifWithoutPrimitiveReencodes(lib: Library, config: Config, s: State, t: Transformation, rs: Resolvers,
                                     fi: FormatInstruction)
    requires fi.format == GifFormat && !(Custom.PrimitivePrefix <= t.quality)
    requires Custom.CustomTransform(rs.formatInstructions(t, ViewOf(lib, s)), t.quality, config, s.buffer, lib.effects).Ok?
    ensures var c := Custom.CustomTransform(rs.formatInstructions(t, ViewOf(lib, s)), t.quality, config, s.buffer, lib.effects);
      AfterProcess(lib, config, s, t, rs, fi) == Reconcile(lib, s.(buffer := c.value.1))
  {
  }

  /**
   * A request with region "full", size "max" or "full", no rotation and "default" quality to
   * jpg, png, webp or tif, on an image whose dimensions can be read, makes exactly one
   * `Process` call, at the image's own dimensions.
   */
  lemma PlainRequestSinglePass(lib: Library, config: Config, s: State, t: Transformation, rs: Resolvers,
                               d: Dimensions, fi: FormatInstruction)
    requires t.region == "full" && KeepsSize(t.size) && t.quality == "default"
    requires DimensionsOf(lib, s) == Ok(d)
    requires rs.rotationInstructions(t, ViewOf(lib, s)) == Ok(RotationInstruction(false, 0))
    requires rs.formatInstructions(t, ViewOf(lib, s)) == Ok(fi)
    requires fi.format in {"jpg", "png", "webp", "tif"}
    ensures var o := TransformSpec(lib, config, s, t, rs);
      |o.passes| == 1 &&
      o.passes[0] == ZeroOptions.(width := d.Width(), height := d.Height(), imageType := TargetType(fi.format).value)
  {
  }
}
