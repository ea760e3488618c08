/**
 * `Foo` (image/quality.go), the earlier copy of the custom-quality dispatcher: the same checks,
 * no response flag, and a format-resolution error that is dropped instead of returned.
 */
module Quality {
  import opened Results
  import opened Strings
  import opened Strconv
  import opened Instructions
  import opened Custom

  /**
   * `Foo(im, t, config)`: `fi` is what `t.FormatInstructions(im)` returned. The error Go
   * returns, and the payload after the pass.
   */
  function Foo<P>(fi: Result<FormatInstruction>, quality: string, config: Config,
                  image: P, fx: Effects<P>): (r: (Option<Error>, P))
    ensures fi.Err? ==> r == (None, image)
    ensures quality != DitherQuality && !(PrimitivePrefix <= quality) ==> r == (None, image)
  {
    if fi.Err? then (None, image)
    else if quality == DitherQuality then
      match fx.dither(image)
      case Err(e) => (Some(e), image)
      case Ok(p) => (None, p)
    else if PrimitivePrefix <= quality then FooPrimitive(fi.value, quality, config, image, fx)
    else (None, image)
  }

  /**
   * The "primitive:" branch of `Foo`, check by check with its early returns. It fails with the
   * error `ParsePrimitive` reports, and otherwise with the stylisation's own error or its payload.
   */
  function FooPrimitive<P>(fi: FormatInstruction, quality: string, config: Config,
                           image: P, fx: Effects<P>): (r: (Option<Error>, P))
    requires PrimitivePrefix <= quality
    ensures r == match ParsePrimitive(quality, fi.format, config.primitiveMaxIterations)
                 case Err(e) => (Some(e), image)
                 case Ok(opts) =>
                   match fx.primitive(image, opts)
                   case Err(e) => (Some(e), image)
                   case Ok(p) => (None, p)
  {
    PrefixHasColon(quality);
    var parts := Split(quality, ':');
    var fields := Split(parts[1], ',');
    match Atoi(fields[0])
    case Err(e) => (Some(e), image)
    case Ok(mode) =>
      if |fields| < 2 then (Some(IndexOutOfRange(1, |fields|)), image)
      else match Atoi(fields[1])
      case Err(e) => (Some(e), image)
      case Ok(iterations) =>
        var maxIterations := config.primitiveMaxIterations;
        if maxIterations > 0 && iterations > maxIterations then (Some(InvalidPrimitiveIterations), image)
        else if |fields| < 3 then (Some(IndexOutOfRange(2, |fields|)), image)
        else match Atoi(fields[2])
        case Err(e) => (Some(e), image)
        case Ok(alpha) =>
          if alpha > MaxAlpha then (Some(InvalidPrimitiveAlpha), image)
          else
            var animated := fi.format == AnimatedFormat;
            var opts := PrimitiveOptions(alpha, mode, iterations, 0, animated);
            match fx.primitive(image, opts)
            case Err(e) => (Some(e), image)
            case Ok(p) => (None, p)
  }

  /**
   * Wherever the format resolves, `Foo` and `CustomTransform` agree: `Foo` fails exactly when
   * `CustomTransform` does, with the same error, and otherwise leaves the same payload.
   */
  lemma FooAgreesWithCustomTransform<P>(fi: FormatInstruction, quality: string, config: Config,
                                        image: P, fx: Effects<P>)
    ensures var (err, p) := Foo(Ok(fi), quality, config, image, fx);
            var c := CustomTransform(Ok(fi), quality, config, image, fx);
            (err.Some? <==> c.Err?) &&
            (c.Err? ==> err == Some(c.error)) &&
            (c.Ok? ==> p == c.value.1)
  {
  }

  /** Where the format does not resolve, the two differ: `Foo` reports success, `CustomTransform` the error. */
  lemma FormatErrorDivergence<P>(e: Error, quality: string, config: Config, image: P, fx: Effects<P>)
    ensures Foo(Err(e), quality, config, image, fx) == (None, image)
    ensures CustomTransform(Err(e), quality, config, image, fx) == Err(e)
  {
  }
}
