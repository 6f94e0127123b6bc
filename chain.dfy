/**
 * The preprocessor chain: the preprocessors of a service method run one
 * after another on the same request, each awaited before the next starts,
 * and the first one that throws ends the chain.  A request that got through
 * the whole chain reaches the handler; one that did not is answered with the
 * status code of the error.
 */
module PreprocessorChain {
  import opened Wrappers
  import opened JsValues
  import opened Preprocessors

  /**
   * How a chain ended: the flags on the request afterwards, the error it
   * stopped with (if any), and how many preprocessors completed.
   */
  datatype ChainResult = ChainResult(flags: Flags, error: Option<HttpError>, ran: nat)

  /** Whether `p` throws on this body; no preprocessor's check looks at the flags. */
  predicate Rejects(p: ServicePreprocessor, body: Body)
  {
    (p == Preprocessor1 && !Truthy(body.valid)) || (p == AsyncPreprocessor1 && !Truthy(body.asyncValid))
  }

  /** Running the preprocessors `ps`, in order, on a request with flags `f`. */
  function Chain(ps: seq<ServicePreprocessor>, body: Body, f: Flags): (r: ChainResult)
    ensures r.ran <= |ps|
    ensures r.error.None? <==> r.ran == |ps|
    ensures FlagsLe(f, r.flags)
    decreases |ps|
  {
    if ps == [] then ChainResult(f, None, 0)
    else
      match Step(ps[0], body, f)
      case Err(e) => ChainResult(f, Some(e), 0)
      case Ok(g) =>
        var r := Chain(ps[1..], body, g);
        r.(ran := r.ran + 1)
  }

  /** Carrying on with `qs` after a chain that ended as `r`. */
  function Resume(r: ChainResult, qs: seq<ServicePreprocessor>, body: Body): ChainResult
  {
    if r.error.Some? then r
    else
      var s := Chain(qs, body, r.flags);
      s.(ran := r.ran + s.ran)
  }

  /**
   * Running `ps` and then `qs` is running `ps + qs`: an error in `ps` means
   * `qs` never starts.
   */
  lemma {:induction false} ChainAppend(ps: seq<ServicePreprocessor>, qs: seq<ServicePreprocessor>, body: Body, f: Flags)
    ensures Chain(ps + qs, body, f) == Resume(Chain(ps, body, f), qs, body)
    decreases |ps|
  {
    if ps == [] {
      assert ps + qs == qs;
    } else {
      assert (ps + qs)[0] == ps[0];
      assert (ps + qs)[1..] == ps[1..] + qs;
      match Step(ps[0], body, f)
      case Err(e) =>
      case Ok(g) => ChainAppend(ps[1..], qs, body, g);
    }
  }

  /**
   * The chain stops at the first preprocessor that rejects the body: it
   * fails exactly when one of them does, every preprocessor before the one
   * that threw passed, and a chain without error ran all of them.
   */
  lemma {:induction false} ChainStopsAtFirstRejection(ps: seq<ServicePreprocessor>, body: Body, f: Flags)
    ensures Chain(ps, body, f).error.Some? <==> exists i :: 0 <= i < |ps| && Rejects(ps[i], body)
    ensures forall i :: 0 <= i < Chain(ps, body, f).ran ==> !Rejects(ps[i], body)
    ensures Chain(ps, body, f).error.Some? ==>
              && Rejects(ps[Chain(ps, body, f).ran], body)
              && Chain(ps, body, f).error == Some(BadRequestError)
    decreases |ps|
  {
    if ps != [] {
      StepFailsExactly(ps[0], body, f);
      match Step(ps[0], body, f)
      case Err(e) =>
      case Ok(g) =>
        ChainStopsAtFirstRejection(ps[1..], body, g);
        var r := Chain(ps[1..], body, g);
        if r.error.Some? {
          assert Rejects(ps[1..][r.ran], body);
        } else {
          assert forall i :: 1 <= i < |ps| ==> ps[i] == ps[1..][i - 1];
        }
    }
  }

  /**
   * A flag is set after the chain exactly when it was set before or the
   * preprocessor that sets it is among those that completed; in particular
   * the one that threw, and every one after it, left no mark.
   */
  lemma {:induction false} ChainSetsFlagsOfCompleted(ps: seq<ServicePreprocessor>, body: Body, f: Flags)
    ensures var r := Chain(ps, body, f);
            && (r.flags.preprocessor1 <==> f.preprocessor1 || Preprocessor1 in ps[..r.ran])
            && (r.flags.preprocessor2 <==> f.preprocessor2 || Preprocessor2 in ps[..r.ran])
            && (r.flags.asyncPreprocessor1 <==> f.asyncPreprocessor1 || AsyncPreprocessor1 in ps[..r.ran])
            && (r.flags.asyncPreprocessor2 <==> f.asyncPreprocessor2 || AsyncPreprocessor2 in ps[..r.ran])
    decreases |ps|
  {
    if ps != [] {
      match Step(ps[0], body, f)
      case Err(e) =>
      case Ok(g) =>
        ChainSetsFlagsOfCompleted(ps[1..], body, g);
        var r := Chain(ps[1..], body, g);
        assert ps[..r.ran + 1] == [ps[0]] + ps[1..][..r.ran];
        assert forall p :: p in ps[..r.ran + 1] <==> p == ps[0] || p in ps[1..][..r.ran];
        StepOnlyAddsItsFlag(ps[0], body, f);
    }
  }

  /**
   * Runs the preprocessors `ps` on `req` in order, stopping at the first one
   * that throws; returns that error and the number that completed.
   */
  method RunChain(ps: seq<ServicePreprocessor>, req: PreprocessedRequest) returns (err: Option<HttpError>, ran: nat)
    modifies req
    ensures Chain(ps, req.body, old(req.State())) == ChainResult(req.State(), err, ran)
  {
    var i := 0;
    while i < |ps|
      invariant 0 <= i <= |ps|
      invariant Chain(ps[..i], req.body, old(req.State())) == ChainResult(req.State(), None, i)
    {
      ghost var before := req.State();
      var e := Run(ps[i], req);
      ChainAppend(ps[..i], ps[i..], req.body, old(req.State()));
      assert ps[..i] + ps[i..] == ps;
      if e.Some? {
        assert Chain(ps[i..], req.body, before) == ChainResult(before, e, 0);
        return e, i;
      }
      ChainAppend(ps[..i], [ps[i]], req.body, old(req.State()));
      assert [ps[i]][1..] == [];
      assert Chain([ps[i]], req.body, before) == ChainResult(req.State(), None, 1);
      assert ps[..i + 1] == ps[..i] + [ps[i]];
      i := i + 1;
    }
    assert ps[..i] == ps;
    return None, i;
  }

  /** The two handlers of the integration test's service. */
  datatype Endpoint = Test | AsyncTest

  /**
   * What a handler returns: `test` needs both synchronous flags, `asynctest`
   * needs the class's flag and both asynchronous ones, and the method
   * preprocessor of `test` must not have run.
   */
  function Handler(e: Endpoint, f: Flags): bool
  {
    match e
    case Test => f.preprocessor1 && f.preprocessor2
    case AsyncTest => f.preprocessor1 && !f.preprocessor2 && f.asyncPreprocessor1 && f.asyncPreprocessor2
  }

  /** What the client receives: the handler's boolean as the body, or an error status. */
  datatype Response = Returned(value: bool) | Rejected(status: nat)

  /** The answer to a request whose chain ended as `r`. */
  function Respond(e: Endpoint, r: ChainResult): Response
  {
    match r.error
    case Some(err) => Rejected(StatusCode(err))
    case None => Returned(Handler(e, r.flags))
  }

  /**
   * Serves a request to endpoint `e`: the class-level preprocessors run,
   * then the method-level ones unless a class-level one threw, and only a
   * request that got through both reaches the handler.
   */
  method Dispatch(classPre: seq<ServicePreprocessor>, methodPre: seq<ServicePreprocessor>,
                  e: Endpoint, req: PreprocessedRequest) returns (resp: Response)
    modifies req
    ensures var r := Chain(classPre + methodPre, req.body, old(req.State()));
            req.State() == r.flags && resp == Respond(e, r)
  {
    ChainAppend(classPre, methodPre, req.body, req.State());
    var err, ran := RunChain(classPre, req);
    if err.None? {
      var ran2;
      err, ran2 := RunChain(methodPre, req);
    }
    match err
    case Some(x) => resp := Rejected(StatusCode(x));
    case None => resp := Returned(Handler(e, req.State()));
  }
}
