/** Error values and the Option/Result wrappers shared by every module of the model. */
module Results {

  /** Which of strconv's two failures a numeric parse reported. */
  datatype NumErrorKind = ErrSyntax | ErrRange

  /** The errors the modelled code can produce or pass on. */
  datatype Error =
    /** a `*strconv.NumError` from `strconv.Atoi` on input `num` */
    | NumError(num: string, kind: NumErrorKind)
    /** the Go runtime panic "index out of range" when a slice of `length` elements is indexed at `index` */
    | IndexOutOfRange(index: int, length: int)
    /** `errors.New("Invalid primitive iterations")` */
    | InvalidPrimitiveIterations
    /** `errors.New("Invalid primitive alpha")` */
    | InvalidPrimitiveAlpha
    /** `errors.New(fmt.Sprintf("Unsupported image format '%s'", format))` */
    | UnsupportedImageFormat(format: string)
    /** an error raised by a collaborator that is not part of this model */
    | External(message: string)

  datatype Option<+T> = None | Some(value: T)

  datatype Result<+T> = Ok(value: T) | Err(error: Error) {
    predicate IsFailure() { Err? }

    function PropagateFailure<U>(): Result<U>
      requires Err?
    {
      Err(error)
    }

    function Extract(): T
      requires Ok?
    {
      value
    }
  }

  /** The message text of the errors the core itself creates; library errors carry their own. */
  function Message(e: Error): Option<string>
  {
    match e
    case InvalidPrimitiveIterations => Some("Invalid primitive iterations")
    case InvalidPrimitiveAlpha => Some("Invalid primitive alpha")
    case UnsupportedImageFormat(f) => Some("Unsupported image format '" + f + "'")
    case _ => None
  }
}
