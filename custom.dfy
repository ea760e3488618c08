/**
 * The custom-quality pass shared by both engines (image/custom.go): "dither", and
 * "primitive:<mode>,<iterations>,<alpha>" parsed and validated before the stylisation runs.
 */
module Custom {
  import opened Results
  import opened Strings
  import opened Strconv
  import opened Instructions

  datatype CustomResponse = CustomResponse(isGIF: bool)

  /** `PrimitiveOptions` as the dispatcher builds it. */
  datatype PrimitiveOptions = PrimitiveOptions(
    alpha: int, mode: int, iterations: int, size: int, animated: bool)

  /** What a quality value asks the dispatcher to do to the image. */
  datatype Action = NoAction | Dither | Primitive(options: PrimitiveOptions)

  /**
   * `DitherImage(im)` and `PrimitiveImage(im, opts)`: fallible effects on an engine's image
   * payload `P`. They are not part of this model.
   */
  datatype Effects<!P> = Effects(dither: P -> Result<P>, primitive: (P, PrimitiveOptions) -> Result<P>)

  const DitherQuality := "dither"
  const PrimitivePrefix := "primitive:"
  const MaxAlpha := 255
  const AnimatedFormat := "gif"

  lemma PrefixHasColon(quality: string)
    requires PrimitivePrefix <= quality
    ensures |Split(quality, ':')| >= 2
  {
    assert quality[9] == ':';
    SplitHasSecond(quality, ':');
  }

  /**
   * The "primitive:" branch up to the options: split on ':' and keep the second piece, split
   * that on ',', and parse the comma fields.
   */
  function ParsePrimitive(quality: string, format: string, maxIterations: int): (r: Result<PrimitiveOptions>)
    requires PrimitivePrefix <= quality
    ensures r.Ok? ==> r.value.size == 0 && r.value.animated == (format == AnimatedFormat)
    ensures r.Ok? ==> r.value.alpha <= MaxAlpha
    ensures r.Ok? && maxIterations > 0 ==> r.value.iterations <= maxIterations
    ensures r.Ok? ==> MinInt64 <= r.value.alpha <= MaxInt64 && MinInt64 <= r.value.mode <= MaxInt64
  {
    PrefixHasColon(quality);
    ParseFields(Split(Split(quality, ':')[1], ','), format, maxIterations)
  }

  /**
   * The comma fields: parse the mode, parse the iterations, check them against a positive
   * limit, parse the alpha and check it, in that order. Go indexes the fields without a length
   * check, so a missing field is the runtime's index panic at that point.
   */
  function ParseFields(fields: seq<string>, format: string, maxIterations: int): (r: Result<PrimitiveOptions>)
    requires |fields| >= 1
    ensures r.Ok? ==> r.value.size == 0 && r.value.animated == (format == AnimatedFormat)
    ensures r.Ok? ==> r.value.alpha <= MaxAlpha
    ensures r.Ok? && maxIterations > 0 ==> r.value.iterations <= maxIterations
    ensures r.Ok? ==> MinInt64 <= r.value.alpha <= MaxInt64 && MinInt64 <= r.value.mode <= MaxInt64
  {
    AtoiAcceptsDecimals(fields[0]);
    var mode :- Atoi(fields[0]);
    if |fields| < 2 then Err(IndexOutOfRange(1, |fields|))
    else
      var iterations :- Atoi(fields[1]);
      if maxIterations > 0 && iterations > maxIterations then Err(InvalidPrimitiveIterations)
      else if |fields| < 3 then Err(IndexOutOfRange(2, |fields|))
      else
        AtoiAcceptsDecimals(fields[2]);
        var alpha :- Atoi(fields[2]);
        if alpha > MaxAlpha then Err(InvalidPrimitiveAlpha)
        else Ok(PrimitiveOptions(alpha, mode, iterations, 0, format == AnimatedFormat))
  }

  /** Which action a quality value selects; anything but "dither" and "primitive:..." is no action. */
  function QualityAction(quality: string, format: string, maxIterations: int): (r: Result<Action>)
    ensures quality == DitherQuality ==> r == Ok(Dither)
    ensures quality != DitherQuality && !(PrimitivePrefix <= quality) ==> r == Ok(NoAction)
    ensures r.Ok? && r.value.Primitive? ==> PrimitivePrefix <= quality
  {
    if quality == DitherQuality then Ok(Dither)
    else if PrimitivePrefix <= quality then
      var options :- ParsePrimitive(quality, format, maxIterations);
      Ok(Primitive(options))
    else Ok(NoAction)
  }

  function Perform<P>(action: Action, image: P, fx: Effects<P>): Result<P>
  {
    match action
    case NoAction => Ok(image)
    case Dither => fx.dither(image)
    case Primitive(options) => fx.primitive(image, options)
  }

  /**
   * `CustomTransform(im, t, config)`: `fi` is what `t.FormatInstructions(im)` returned, `image`
   * the payload before the pass. On success, the response and the payload after the pass.
   */
  function CustomTransform<P>(fi: Result<FormatInstruction>, quality: string, config: Config,
                              image: P, fx: Effects<P>): (r: Result<(CustomResponse, P)>)
    ensures fi.Err? ==> r == Err(fi.error)
    ensures r.Ok? ==> fi.Ok?
    ensures r.Ok? ==> (r.value.0.isGIF <==> PrimitivePrefix <= quality && fi.value.format == AnimatedFormat)
    ensures quality == DitherQuality && fi.Ok? ==>
      r == match fx.dither(image) case Ok(p) => Ok((CustomResponse(false), p)) case Err(e) => Err(e)
    ensures quality != DitherQuality && !(PrimitivePrefix <= quality) && fi.Ok? ==>
      r == Ok((CustomResponse(false), image))
    ensures quality != DitherQuality && PrimitivePrefix <= quality && fi.Ok? ==>
      r == match ParsePrimitive(quality, fi.value.format, config.primitiveMaxIterations)
           case Err(e) => Err(e)
           case Ok(opts) =>
             match fx.primitive(image, opts)
             case Err(e) => Err(e)
             case Ok(p) => Ok((CustomResponse(fi.value.format == AnimatedFormat), p))
  {
    var rsp := CustomResponse(isGIF := false);
    var f :- fi;
    var action :- QualityAction(quality, f.format, config.primitiveMaxIterations);
    var image' :- Perform(action, image, fx);
    if action.Primitive? && f.format == AnimatedFormat then Ok((rsp.(isGIF := true), image'))
    else Ok((rsp, image'))
  }

  // ----- the quality string as a client writes it -----

  /** The quality string "primitive:<mode>,<iterations>,<alpha>" followed by `tail`. */
  function PrimitiveQuality(mode: int, iterations: int, alpha: int, tail: string): string
  {
    PrimitivePrefix + (Itoa(mode) + "," + Itoa(iterations) + "," + Itoa(alpha) + tail)
  }

  lemma ItoaHasNoSeparator(n: int)
    ensures ':' !in Itoa(n) && ',' !in Itoa(n)
  {
    ItoaIsDecimal(n);
  }

  /** The piece of "primitive:" + `lead` + `rest` after the first ':', when `lead` has no ':'. */
  lemma ColonPiece(lead: string, rest: string)
    requires ':' !in lead
    ensures |Split(PrimitivePrefix + lead + rest, ':')| >= 2
    ensures Split(PrimitivePrefix + lead + rest, ':')[1] == lead + Split(rest, ':')[0]
  {
    var word, body := "primitive", lead + rest;
    assert PrimitivePrefix + lead + rest == word + [':'] + body by {
      assert PrimitivePrefix == word + [':'];
    }
    assert Split(word + [':'] + body, ':') == [word] + Split(body, ':') by {
      assert ':' !in word;
      SplitAppend(word, body, ':');
      SplitFree(word, ':');
    }
    SplitFirst(lead, rest, ':');
  }

  /** The comma pieces of `a` + "," + `rest`, when `a` has no comma. */
  lemma CommaPiece(a: string, rest: string)
    requires ',' !in a
    ensures Split(a + "," + rest, ',') == [a] + Split(rest, ',')
  {
    assert a + "," + rest == a + [','] + rest;
    SplitAppend(a, rest, ',');
    SplitFree(a, ',');
  }

  /** The comma pieces of `a` + "," + `b` + "," + `r`, when `a` and `b` have no comma. */
  lemma CommaPieces(a: string, b: string, r: string)
    requires ',' !in a && ',' !in b
    ensures Split(a + "," + b + "," + r, ',') == [a, b] + Split(r, ',')
  {
    assert a + "," + b + "," + r == a + "," + (b + "," + r);
    CommaPiece(a, b + "," + r);
    CommaPiece(b, r);
  }

  /**
   * For a well-formed primitive quality, the outcome is decided by the two limits alone: over a
   * positive iteration limit fails, then alpha above 255 fails, and otherwise the options carry
   * the three numbers unchanged. Alpha 255, negative alphas and iterations equal to the limit
   * are accepted; a limit of 0 or less admits any iteration count. Text after a second ':' is
   * ignored.
   */
  lemma {:induction false} ParsePrimitiveWellFormed(mode: int, iterations: int, alpha: int, tail: string,
                                                    format: string, maxIterations: int)
    requires MinInt64 <= mode <= MaxInt64 && MinInt64 <= iterations <= MaxInt64 && MinInt64 <= alpha <= MaxInt64
    requires tail == [] || tail[0] == ':'
    ensures ParsePrimitive(PrimitiveQuality(mode, iterations, alpha, tail), format, maxIterations) ==
      if maxIterations > 0 && iterations > maxIterations then Err(InvalidPrimitiveIterations)
      else if alpha > MaxAlpha then Err(InvalidPrimitiveAlpha)
      else Ok(PrimitiveOptions(alpha, mode, iterations, 0, format == AnimatedFormat))
  {
    var quality := PrimitiveQuality(mode, iterations, alpha, tail);
    var body := Itoa(mode) + "," + Itoa(iterations) + "," + Itoa(alpha);
    var fields := [Itoa(mode), Itoa(iterations), Itoa(alpha)];
    ItoaHasNoSeparator(mode);
    ItoaHasNoSeparator(iterations);
    ItoaHasNoSeparator(alpha);
    assert Split(quality, ':')[1] == body by {
      assert quality == PrimitivePrefix + body + tail;
      ColonPiece(body, tail);
      assert Split(tail, ':')[0] == [];
      assert body + [] == body;
    }
    assert Split(body, ',') == fields by {
      CommaPieces(Itoa(mode), Itoa(iterations), Itoa(alpha));
      SplitFree(Itoa(alpha), ',');
    }
    AtoiItoa(mode);
    AtoiItoa(iterations);
    AtoiItoa(alpha);
    assert ParsePrimitive(quality, format, maxIterations) == ParseFields(fields, format, maxIterations);
  }

  /**
   * The limits reach `CustomTransform`: for a well-formed primitive quality, the response is the
   * first failing limit's error, or else what the stylisation does with the parsed options,
   * reported as a GIF exactly for a "gif" target.
   */
  lemma PrimitiveQualityOutcome<P>(mode: int, iterations: int, alpha: int, tail: string,
                                   fi: FormatInstruction, config: Config, image: P, fx: Effects<P>)
    requires MinInt64 <= mode <= MaxInt64 && MinInt64 <= iterations <= MaxInt64 && MinInt64 <= alpha <= MaxInt64
    requires tail == [] || tail[0] == ':'
    ensures var max := config.primitiveMaxIterations;
      var opts := PrimitiveOptions(alpha, mode, iterations, 0, fi.format == AnimatedFormat);
      CustomTransform(Ok(fi), PrimitiveQuality(mode, iterations, alpha, tail), config, image, fx) ==
      if max > 0 && iterations > max then Err(InvalidPrimitiveIterations)
      else if alpha > MaxAlpha then Err(InvalidPrimitiveAlpha)
      else match fx.primitive(image, opts)
           case Err(e) => Err(e)
           case Ok(p) => Ok((CustomResponse(fi.format == AnimatedFormat), p))
  {
    var quality := PrimitiveQuality(mode, iterations, alpha, tail);
    var max := config.primitiveMaxIterations;
    var opts := PrimitiveOptions(alpha, mode, iterations, 0, fi.format == AnimatedFormat);
    var parsed := ParsePrimitive(quality, fi.format, max);
    assert PrimitivePrefix <= quality && quality != DitherQuality by {
      assert quality[1] == PrimitivePrefix[1];
    }
    assert parsed == if max > 0 && iterations > max then Err(InvalidPrimitiveIterations)
                     else if alpha > MaxAlpha then Err(InvalidPrimitiveAlpha)
                     else Ok(opts) by {
      ParsePrimitiveWellFormed(mode, iterations, alpha, tail, fi.format, max);
    }
  }



  /**
   * The iteration limit is checked before the alpha field is even looked at: whatever follows
   * the second comma, even nothing parseable, an over-limit iteration count is what is reported.
   */
  lemma {:induction false} IterationLimitBeforeAlpha(mode: int, iterations: int, rest: string,
                                                     format: string, maxIterations: int)
    requires MinInt64 <= mode <= MaxInt64 && MinInt64 <= iterations <= MaxInt64
    requires maxIterations > 0 && iterations > maxIterations
    ensures ParsePrimitive(PrimitivePrefix + Itoa(mode) + "," + Itoa(iterations) + "," + rest,
                           format, maxIterations) == Err(InvalidPrimitiveIterations)
  {
    ItoaHasNoSeparator(mode);
    ItoaHasNoSeparator(iterations);
    var quality := PrimitivePrefix + Itoa(mode) + "," + Itoa(iterations) + "," + rest;
    var lead := Itoa(mode) + "," + Itoa(iterations) + ",";
    var r := Split(rest, ':')[0];
    assert Split(quality, ':')[1] == Itoa(mode) + "," + Itoa(iterations) + "," + r by {
      assert quality == PrimitivePrefix + lead + rest;
      ColonPiece(lead, rest);
      assert lead + r == Itoa(mode) + "," + Itoa(iterations) + "," + r;
    }
    var fields := [Itoa(mode), Itoa(iterations)] + Split(r, ',');
    assert Split(Split(quality, ':')[1], ',') == fields by {
      CommaPieces(Itoa(mode), Itoa(iterations), r);
    }
    assert fields[0] == Itoa(mode) && fields[1] == Itoa(iterations);
    AtoiItoa(mode);
    AtoiItoa(iterations);
    assert ParsePrimitive(quality, format, maxIterations) == ParseFields(fields, format, maxIterations);
  }

  /**
   * Fewer than three comma pieces: where Go indexes the missing piece, the index panic is the
   * outcome (once the fields before it have parsed and passed their check).
   */
  lemma {:induction false} MissingAlphaPanics(mode: int, iterations: int, format: string, maxIterations: int)
    requires MinInt64 <= mode <= MaxInt64 && MinInt64 <= iterations <= MaxInt64
    requires maxIterations <= 0 || iterations <= maxIterations
    ensures ParsePrimitive(PrimitivePrefix + Itoa(mode) + "," + Itoa(iterations), format, maxIterations)
            == Err(IndexOutOfRange(2, 2))
  {
    ItoaHasNoSeparator(mode);
    ItoaHasNoSeparator(iterations);
    var body := Itoa(mode) + "," + Itoa(iterations);
    ColonPiece(body, []);
    assert PrimitivePrefix + body + [] == PrimitivePrefix + Itoa(mode) + "," + Itoa(iterations);
    assert body + Split([], ':')[0] == body;
    assert body == Itoa(mode) + [','] + Itoa(iterations);
    SplitAppend(Itoa(mode), Itoa(iterations), ',');
    SplitFree(Itoa(mode), ',');
    SplitFree(Itoa(iterations), ',');
    AtoiItoa(mode);
    AtoiItoa(iterations);
  }

  /** A mode with nothing after it: the iterations piece is missing, which panics. */
  lemma {:induction false} MissingIterationsPanics(mode: int, format: string, maxIterations: int)
    requires MinInt64 <= mode <= MaxInt64
    ensures ParsePrimitive(PrimitivePrefix + Itoa(mode), format, maxIterations) == Err(IndexOutOfRange(1, 1))
  {
    ItoaHasNoSeparator(mode);
    ColonPiece(Itoa(mode), []);
    assert PrimitivePrefix + Itoa(mode) + [] == PrimitivePrefix + Itoa(mode);
    assert Itoa(mode) + Split([], ':')[0] == Itoa(mode);
    SplitFree(Itoa(mode), ',');
    AtoiItoa(mode);
  }

  /**
   * A response reports an animated result only when the primitive stylisation ran to completion
   * for a "gif" target; the payload is then what the stylisation produced with "animated" set.
   */
  lemma PrimitiveGifResponse<P>(fi: FormatInstruction, quality: string, config: Config, image: P, fx: Effects<P>)
    requires CustomTransform(Ok(fi), quality, config, image, fx).Ok?
    requires CustomTransform(Ok(fi), quality, config, image, fx).value.0.isGIF
    ensures fi.format == AnimatedFormat && PrimitivePrefix <= quality
    ensures var opts := ParsePrimitive(quality, fi.format, config.primitiveMaxIterations);
      opts.Ok? && opts.value.animated &&
      fx.primitive(image, opts.value) == Ok(CustomTransform(Ok(fi), quality, config, image, fx).value.1)
  {
  }
}
