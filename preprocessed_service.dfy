/**
 * The service of the preprocessor integration test, built with the
 * decorators and served through the preprocessor chain: the class is at
 * path `preprocessor` with preprocessor1; `test` adds preprocessor2 and
 * `asynctest` adds the two asynchronous preprocessors.
 */
module PreprocessedService {
  import opened Wrappers
  import opened JsValues
  import opened Preprocessors
  import opened Metadata
  import opened Decorators
  import opened PreprocessorChain

  const ServiceName := "PreprocessedService"

  function KeyOf(e: Endpoint): MethodKey
  {
    match e
    case Test => MethodKey(ServiceName, "test")
    case AsyncTest => MethodKey(ServiceName, "asynctest")
  }

  /** The decorator arguments of the class itself and of one of its handlers. */
  const ClassArgs := [Constructor(ServiceName)]

  lemma ClassArgsSite()
    ensures SiteOf(ClassArgs) == Some(ClassSite(ServiceName))
  {
  }

  function MethodArgs(e: Endpoint): (args: seq<DecoratorArg>)
    ensures SiteOf(args) == Some(MethodSite(KeyOf(e)))
  {
    [Prototype(ServiceName), PropertyKey(KeyOf(e).name), PropertyDescriptor]
  }

  /**
   * The method-level preprocessors of endpoint `e`: preprocessor2 for `test`,
   * and for `asynctest` the two asynchronous ones in either order, since the
   * order between them is not something the service relies on.
   */
  predicate MethodPreprocessors(e: Endpoint, ps: seq<ServicePreprocessor>)
  {
    match e
    case Test => ps == [Preprocessor2]
    case AsyncTest => ps == [AsyncPreprocessor1, AsyncPreprocessor2] || ps == [AsyncPreprocessor2, AsyncPreprocessor1]
  }

  /** Decorates the class: `@Path('preprocessor')` and `@Preprocessor(preprocessor1)`. */
  method DecorateService(reg: Registry)
    requires reg.Valid()
    modifies reg, reg.Repr
    ensures reg.Valid() && fresh(reg.Repr - old(reg.Repr))
    ensures var m := old(reg.ViewAt(ClassSite(ServiceName)));
            reg.ViewAt(ClassSite(ServiceName)) == m.(path := Some("preprocessor"), preProcessors := m.preProcessors + [Preprocessor1])
    ensures forall s :: s != ClassSite(ServiceName) ==> reg.ViewAt(s) == old(reg.ViewAt(s))
  {
    ClassArgsSite();
    var r1 := Preprocessor(reg, Some(Preprocessor1), ClassArgs);
    var r2 := Path(reg, "preprocessor", ClassArgs);
  }

  /** Decorates `test`: `@Path('test')` and `@Preprocessor(preprocessor2)`. */
  method DecorateTest(reg: Registry)
    requires reg.Valid()
    modifies reg, reg.Repr
    ensures reg.Valid() && fresh(reg.Repr - old(reg.Repr))
    ensures var m := old(reg.ViewAt(MethodSite(KeyOf(Test))));
            reg.ViewAt(MethodSite(KeyOf(Test))) == m.(path := Some("test"), preProcessors := m.preProcessors + [Preprocessor2])
    ensures forall s :: s != MethodSite(KeyOf(Test)) ==> reg.ViewAt(s) == old(reg.ViewAt(s))
  {
    var args := MethodArgs(Test);
    var r1 := Preprocessor(reg, Some(Preprocessor2), args);
    var r2 := Path(reg, "test", args);
  }

  /**
   * The two asynchronous preprocessors of `asynctest`, applied from the
   * innermost decorator outwards.
   */
  method DecorateAsyncPreprocessors(reg: Registry)
    requires reg.Valid()
    modifies reg, reg.Repr
    ensures reg.Valid() && fresh(reg.Repr - old(reg.Repr))
    ensures var m := old(reg.ViewAt(MethodSite(KeyOf(AsyncTest))));
            reg.ViewAt(MethodSite(KeyOf(AsyncTest))) == m.(preProcessors := m.preProcessors + [AsyncPreprocessor2, AsyncPreprocessor1])
    ensures forall s :: s != MethodSite(KeyOf(AsyncTest)) ==> reg.ViewAt(s) == old(reg.ViewAt(s))
  {
    var args := MethodArgs(AsyncTest);
    var r1 := Preprocessor(reg, Some(AsyncPreprocessor2), args);
    var r2 := Preprocessor(reg, Some(AsyncPreprocessor1), args);
  }

  /** Decorates `asynctest`: `@Path('asynctest')` and the two asynchronous preprocessors. */
  method DecorateAsyncTest(reg: Registry)
    requires reg.Valid()
    modifies reg, reg.Repr
    ensures reg.Valid() && fresh(reg.Repr - old(reg.Repr))
    ensures var m := old(reg.ViewAt(MethodSite(KeyOf(AsyncTest))));
            reg.ViewAt(MethodSite(KeyOf(AsyncTest))) ==
              m.(path := Some("asynctest"), preProcessors := m.preProcessors + [AsyncPreprocessor2, AsyncPreprocessor1])
    ensures forall s :: s != MethodSite(KeyOf(AsyncTest)) ==> reg.ViewAt(s) == old(reg.ViewAt(s))
  {
    DecorateAsyncPreprocessors(reg);
    var r := Path(reg, "asynctest", MethodArgs(AsyncTest));
  }

  /**
   * The registry the server is built from: the class record carries
   * preprocessor1 and each handler's record carries its own preprocessors.
   */
  method BuildService() returns (reg: Registry)
    ensures reg.Valid()
    ensures reg.EffectivePreprocessors(KeyOf(Test)) == [Preprocessor1, Preprocessor2]
    ensures forall e :: MethodPreprocessors(e, reg.ViewAt(MethodSite(KeyOf(e))).preProcessors)
    ensures forall e :: reg.ViewAt(ClassSite(KeyOf(e).target)).preProcessors == [Preprocessor1]
  {
    reg := new Registry();
    DecorateService(reg);
    DecorateTest(reg);
    DecorateAsyncTest(reg);
  }

  /**
   * What the integration test observes for a request to `e` with `body`,
   * whichever order the asynchronous preprocessors run in: only a request
   * that every preprocessor accepts reaches the handler, which then returns
   * true; any other is answered 400, and a preprocessor that threw left its
   * own flag, and every later one, unset.
   */
  lemma {:induction false} ServeOutcomes(e: Endpoint, methodPre: seq<ServicePreprocessor>, body: Body)
    requires MethodPreprocessors(e, methodPre)
    ensures var r := Chain([Preprocessor1] + methodPre, body, NoFlags);
            && (Respond(e, r).Returned? <==> Truthy(body.valid) && (e == AsyncTest ==> Truthy(body.asyncValid)))
            && (Respond(e, r).Returned? ==> Respond(e, r).value)
            && (Respond(e, r).Rejected? ==> Respond(e, r).status == 400)
            && (!Truthy(body.valid) ==> r.flags == NoFlags)
            && (e == Test ==> !r.flags.asyncPreprocessor1 && !r.flags.asyncPreprocessor2)
            && (e == AsyncTest ==> r.flags.preprocessor1 == Truthy(body.valid) && !r.flags.preprocessor2)
            && (e == AsyncTest ==> (r.flags.asyncPreprocessor1 <==> Truthy(body.valid) && Truthy(body.asyncValid)))
  {
    var ps := [Preprocessor1] + methodPre;
    ChainStopsAtFirstRejection(ps, body, NoFlags);
    ChainSetsFlagsOfCompleted(ps, body, NoFlags);
    var r := Chain(ps, body, NoFlags);
    if !Truthy(body.valid) {
      assert Rejects(ps[0], body);
      assert r.ran == 0;
    } else if e == AsyncTest && !Truthy(body.asyncValid) {
      var i := if methodPre[0] == AsyncPreprocessor1 then 1 else 2;
      assert Rejects(ps[i], body);
      assert ps[r.ran] == AsyncPreprocessor1;
      assert AsyncPreprocessor1 !in ps[..r.ran];
    } else {
      assert forall i :: 0 <= i < |ps| ==> !Rejects(ps[i], body);
      assert ps[..r.ran] == ps;
    }
  }

  /**
   * Handles a request to endpoint `e` on a server built from `reg`: the
   * request goes through the preprocessors the registry holds for the
   * handler, the class's and then the method's, and is answered as the
   * chain over them ended.
   */
  method ServeWith(reg: Registry, e: Endpoint, req: PreprocessedRequest) returns (resp: Response)
    requires reg.Valid()
    modifies req
    ensures var r := Chain(old(reg.EffectivePreprocessors(KeyOf(e))), req.body, old(req.State()));
            req.State() == r.flags && resp == Respond(e, r)
  {
    var classPre := reg.ViewAt(ClassSite(KeyOf(e).target)).preProcessors;
    var methodPre := reg.ViewAt(MethodSite(KeyOf(e))).preProcessors;
    resp := Dispatch(classPre, methodPre, e, req);
  }

  /**
   * Serves one request to endpoint `e` with the posted `body`, on a server
   * built from the decorated service; returns the response and the flags the
   * request carried when the handler ran or the chain stopped.
   */
  method Serve(e: Endpoint, body: Body) returns (resp: Response, flags: Flags)
    ensures resp.Returned? <==> Truthy(body.valid) && (e == AsyncTest ==> Truthy(body.asyncValid))
    ensures resp.Returned? ==> resp.value
    ensures resp.Rejected? ==> resp.status == 400
    ensures !Truthy(body.valid) ==> flags == NoFlags
    ensures e == Test ==> !flags.asyncPreprocessor1 && !flags.asyncPreprocessor2
    ensures e == AsyncTest ==> flags.preprocessor1 == Truthy(body.valid) && !flags.preprocessor2
  {
    var reg := BuildService();
    var methodPre := reg.ViewAt(MethodSite(KeyOf(e))).preProcessors;
    assert reg.EffectivePreprocessors(KeyOf(e)) == [Preprocessor1] + methodPre;
    var req := new PreprocessedRequest(body);
    resp := ServeWith(reg, e, req);
    flags := req.State();
    ServeOutcomes(e, methodPre, body);
  }
}
