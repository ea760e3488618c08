/**
 * The request side of the engine: a `Transformation` holding the raw IIIF parameters, the
 * concrete instructions it resolves to, and the collaborators that resolve them.
 */
module Instructions {
  import opened Results

  /** The five raw request parameters, as the protocol gives them. */
  datatype Transformation = Transformation(
    region: string, size: string, rotation: string, quality: string, format: string)

  datatype RegionInstruction = RegionInstruction(x: int, y: int, width: int, height: int)
  datatype SizeInstruction = SizeInstruction(width: int, height: int, enlarge: bool, force: bool)
  /** The angle is whole degrees (the source truncates it with `int(...)` where it matters). */
  datatype RotationInstruction = RotationInstruction(flip: bool, angle: int)
  datatype FormatInstruction = FormatInstruction(format: string)

  /** What an engine's `Dimensions()` reports through the `Dimensions` interface. */
  datatype Dims = Dims(width: int, height: int)

  /** What a collaborator can observe of an image through the `Image` interface at one moment. */
  datatype ImageView = ImageView(identifier: string, format: string, dimensions: Result<Dims>)

  /**
   * `Transformation.RegionInstructions`, `SizeInstructions`, `RotationInstructions` and
   * `FormatInstructions`: each resolves the request against the image as it is when called.
   * Their rules (percentages, clamping, parsing) are not part of this model.
   */
  datatype Resolvers = Resolvers(
    regionInstructions: (Transformation, ImageView) -> Result<RegionInstruction>,
    sizeInstructions: (Transformation, ImageView) -> Result<SizeInstruction>,
    rotationInstructions: (Transformation, ImageView) -> Result<RotationInstruction>,
    formatInstructions: (Transformation, ImageView) -> Result<FormatInstruction>)

  /** The one configuration value the core reads: `config.Primitive.MaxIterations`. */
  datatype Config = Config(primitiveMaxIterations: int)

  /** A size parameter that asks for no resampling. */
  predicate KeepsSize(size: string) { size == "max" || size == "full" }

  /**
   * `ContentType()` of both engines: the content type `ImageFormatToContentType` gives for
   * `format`, with its error dropped; a lookup that fails yields the empty string.
   */
  function ContentTypeOrEmpty(contentTypeOf: string -> Result<string>, format: string): string
  {
    match contentTypeOf(format)
    case Ok(ct) => ct
    case Err(_) => ""
  }

  const SvgContentType := "image/svg+xml"
}
