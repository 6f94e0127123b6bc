/**
 * The request object of the preprocessor integration test and the
 * preprocessors that test declares.  A preprocessor first validates the
 * parsed body and throws a BadRequestError when it is unhappy; only after
 * the check passes does it mark the request with its own flag.
 */
module Preprocessors {
  import opened Wrappers
  import opened JsValues

  /** The parsed JSON body; a field the client did not send is Undefined. */
  datatype Body = Body(valid: JsValue, asyncValid: JsValue)

  /**
   * The flags the preprocessors attach to the request.  They start out
   * undefined, which the handlers read as false.
   */
  datatype Flags = Flags(preprocessor1: bool, preprocessor2: bool,
                         asyncPreprocessor1: bool, asyncPreprocessor2: bool)

  const NoFlags := Flags(false, false, false, false)

  /** Every flag set in `f` is set in `g`. */
  predicate FlagsLe(f: Flags, g: Flags)
  {
    && (f.preprocessor1 ==> g.preprocessor1)
    && (f.preprocessor2 ==> g.preprocessor2)
    && (f.asyncPreprocessor1 ==> g.asyncPreprocessor1)
    && (f.asyncPreprocessor2 ==> g.asyncPreprocessor2)
  }

  /** The one client error a preprocessor raises here. */
  datatype HttpError = BadRequestError

  /** The status code the server answers with for an error. */
  function StatusCode(e: HttpError): (code: nat)
    ensures 400 <= code < 500
  {
    match e
    case BadRequestError => 400
  }

  /**
   * The preprocessors the tests declare.  Passthrough is the do-nothing
   * preprocessor of the decorator unit test; the other four are those of the
   * integration test (the last two are `async` there, which changes nothing
   * here because the chain awaits each one before starting the next).
   */
  datatype ServicePreprocessor = Preprocessor1 | Preprocessor2 | AsyncPreprocessor1 | AsyncPreprocessor2 | Passthrough

  /** What running `p` does to a request with body `body` and flags `f`. */
  function Step(p: ServicePreprocessor, body: Body, f: Flags): Result<Flags, HttpError>
  {
    match p
    case Preprocessor1 =>
      if !Truthy(body.valid) then Err(BadRequestError) else Ok(f.(preprocessor1 := true))
    case Preprocessor2 => Ok(f.(preprocessor2 := true))
    case AsyncPreprocessor1 =>
      if !Truthy(body.asyncValid) then Err(BadRequestError) else Ok(f.(asyncPreprocessor1 := true))
    case AsyncPreprocessor2 => Ok(f.(asyncPreprocessor2 := true))
    case Passthrough => Ok(f)
  }

  /** Only the two validating preprocessors can throw, and only on a falsey body field. */
  lemma StepFailsExactly(p: ServicePreprocessor, body: Body, f: Flags)
    ensures Step(p, body, f).Err? <==>
              (p == Preprocessor1 && !Truthy(body.valid)) ||
              (p == AsyncPreprocessor1 && !Truthy(body.asyncValid))
  {
  }

  /** A preprocessor never clears a flag, and it sets at most its own. */
  lemma StepOnlyAddsItsFlag(p: ServicePreprocessor, body: Body, f: Flags)
    requires Step(p, body, f).Ok?
    ensures FlagsLe(f, Step(p, body, f).value)
    ensures var g := Step(p, body, f).value;
            && (g.preprocessor1 != f.preprocessor1 ==> p == Preprocessor1)
            && (g.preprocessor2 != f.preprocessor2 ==> p == Preprocessor2)
            && (g.asyncPreprocessor1 != f.asyncPreprocessor1 ==> p == AsyncPreprocessor1)
            && (g.asyncPreprocessor2 != f.asyncPreprocessor2 ==> p == AsyncPreprocessor2)
  {
  }

  /** The request object the preprocessors receive and mark. */
  class PreprocessedRequest {
    const body: Body
    var preprocessor1: bool
    var preprocessor2: bool
    var asyncPreprocessor1: bool
    var asyncPreprocessor2: bool

    /** The flags currently attached to the request. */
    function State(): Flags
      reads this
    {
      Flags(preprocessor1, preprocessor2, asyncPreprocessor1, asyncPreprocessor2)
    }

    /** A freshly received request: the body as posted, no flag attached yet. */
    constructor (body: Body)
      ensures this.body == body && State() == NoFlags
    {
      this.body := body;
      preprocessor1, preprocessor2 := false, false;
      asyncPreprocessor1, asyncPreprocessor2 := false, false;
    }
  }

  /**
   * Runs `p` on `req`.  A preprocessor that throws has changed nothing,
   * because every one of them assigns its flag only after its check.
   */
  method Run(p: ServicePreprocessor, req: PreprocessedRequest) returns (err: Option<HttpError>)
    modifies req
    ensures err.None? ==> Step(p, req.body, old(req.State())) == Ok(req.State())
    ensures err.Some? ==> Step(p, req.body, old(req.State())) == Err(err.value)
    ensures err.Some? ==> req.State() == old(req.State())
  {
    err := None;
    match p
    case Preprocessor1 =>
      if !Truthy(req.body.valid) {
        return Some(BadRequestError);
      }
      req.preprocessor1 := true;
    case Preprocessor2 =>
      req.preprocessor2 := true;
    case AsyncPreprocessor1 =>
      if !Truthy(req.body.asyncValid) {
        return Some(BadRequestError);
      }
      req.asyncPreprocessor1 := true;
    case AsyncPreprocessor2 =>
      req.asyncPreprocessor2 := true;
    case Passthrough =>
  }
}
