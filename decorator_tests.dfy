/**
 * The situations the decorator unit test sets up, each on a registry of its
 * own that has received no call yet: a decorator is applied to the class
 * `TestService` or to its method `test`, and the registration calls and the
 * record's fields are read back.
 */
module DecoratorTests {
  import opened Wrappers
  import opened JsValues
  import opened Preprocessors
  import opened Metadata
  import opened Decorators

  const TestService := "TestService"
  const TestMethod := MethodKey(TestService, "test")

  /** Where a test applies its decorator: the class, or its method `test`. */
  function SiteFor(onClass: bool): Site
  {
    if onClass then ClassSite(TestService) else MethodSite(TestMethod)
  }

  /** The arguments a decorator receives there. */
  function ArgsFor(onClass: bool): (args: seq<DecoratorArg>)
    ensures SiteOf(args) == Some(SiteFor(onClass))
  {
    if onClass then [Constructor(TestService)]
    else [Prototype(TestService), PropertyKey(TestMethod.name), PropertyDescriptor]
  }

  /** A method decorator called with one argument too many. */
  const MisuseArgs := [Prototype(TestService), PropertyKey(TestMethod.name), PropertyDescriptor, Extra("extra-arg")]

  lemma MisuseArgsHaveNoSite()
    ensures SiteOf(MisuseArgs) == None
  {
  }

  /** The arguments of the falsey-values tests, around two truthy ones. */
  function WithFalseys(first: string, second: string): seq<JsValue>
  {
    [Null, Str(first), Undefined, Num(0), Bool(false), Str(second)]
  }

  /** Of those, exactly the two non-empty strings survive, in order. */
  lemma CompactWithFalseys(first: string, second: string)
    requires first != "" && second != ""
    ensures Compact(WithFalseys(first, second)) == [Str(first), Str(second)]
  {
    var front, falseys, back := [Null, Str(first)], [Undefined, Num(0), Bool(false)], [Str(second)];
    assert front[1..] == [Str(first)];
    CompactSingle(Str(first));
    assert Compact(front) == [Str(first)];
    CompactAll(falseys);
    CompactAppend(front, falseys);
    CompactSingle(Str(second));
    CompactAppend(front + falseys, back);
    assert WithFalseys(first, second) == front + falseys + back;
  }

  /**
   * `@Path(path)` on the class or on `test`: that record is registered once
   * and its path is `path`.
   */
  method PathTest(path: string, onClass: bool) returns (calls: seq<Site>, stored: Option<string>)
    ensures calls == [SiteFor(onClass)]
    ensures stored == Some(path)
  {
    var reg := new Registry();
    var r := Path(reg, path, ArgsFor(onClass));
    calls, stored := reg.calls, reg.ViewAt(SiteFor(onClass)).path;
  }

  /**
   * `@Security(roles)` on the class or on `test`: one non-empty role is
   * recorded as itself, a list as given, and an empty or missing role as `*`.
   */
  method SecurityTest(roles: RoleArg, onClass: bool) returns (calls: seq<Site>, stored: seq<string>)
    ensures calls == [SiteFor(onClass)]
    ensures roles.Role? && roles.role != "" ==> stored == [roles.role]
    ensures roles.Roles? ==> stored == roles.roles
    ensures roles == NoRoles || roles == Role("") ==> stored == ["*"]
  {
    var reg := new Registry();
    var r := Security(reg, roles, ArgsFor(onClass));
    calls, stored := reg.calls, reg.ViewAt(SiteFor(onClass)).roles;
  }

  /**
   * `@Preprocessor(p)` on the class or on `test`: the record holds exactly
   * `p`; an undefined preprocessor is refused, and in this model nothing is
   * registered then.
   */
  method PreprocessorTest(p: Option<ServicePreprocessor>, onClass: bool)
    returns (r: Outcome<string>, calls: seq<Site>, stored: seq<ServicePreprocessor>)
    ensures p.Some? ==> r == Pass && calls == [SiteFor(onClass)] && stored == [p.value]
    ensures p.None? ==> r == Fail("Invalid @Preprocessor Decorator declaration.") && calls == [] && stored == []
  {
    var reg := new Registry();
    r := Preprocessor(reg, p, ArgsFor(onClass));
    calls, stored := reg.calls, reg.ViewAt(SiteFor(onClass)).preProcessors;
  }

  /**
   * `@AcceptLanguage(...languages)` on the class or on `test`: the record
   * holds the truthy languages in order; with none it is refused, and in
   * this model nothing is registered then.
   */
  method AcceptLanguageTest(languages: seq<JsValue>, onClass: bool)
    returns (r: Outcome<string>, calls: seq<Site>, stored: seq<JsValue>)
    ensures r.Pass? <==> Compact(languages) != []
    ensures r.Pass? ==> calls == [SiteFor(onClass)] && stored == Compact(languages)
    ensures r.Fail? ==> r.error == "Invalid @AcceptLanguage Decorator declaration." && calls == [] && stored == []
  {
    var reg := new Registry();
    r := AcceptLanguage(reg, languages, ArgsFor(onClass));
    calls, stored := reg.calls, reg.ViewAt(SiteFor(onClass)).languages;
  }

  /**
   * The cases the unit test tries: `'en'` alone, `'en'` and `'pt'` among
   * falsey values, and `undefined` alone or nothing at all, which are refused.
   */
  method AcceptLanguageCases(onClass: bool)
    returns (single: seq<JsValue>, mixed: seq<JsValue>, undefinedOnly: Outcome<string>, nothing: Outcome<string>)
    ensures single == [Str("en")]
    ensures mixed == [Str("en"), Str("pt")]
    ensures undefinedOnly == nothing == Fail("Invalid @AcceptLanguage Decorator declaration.")
  {
    CompactSingle(Str("en"));
    var r, calls, ignored;
    r, calls, single := AcceptLanguageTest([Str("en")], onClass);
    CompactWithFalseys("en", "pt");
    r, calls, mixed := AcceptLanguageTest(WithFalseys("en", "pt"), onClass);
    CompactSingle(Undefined);
    undefinedOnly, calls, ignored := AcceptLanguageTest([Undefined], onClass);
    nothing, calls, ignored := AcceptLanguageTest([], onClass);
  }

  /**
   * `@Accept(...types)` on the class or on `test`: the record holds the
   * truthy content types in order; with none it is refused, and in this
   * model nothing is registered then.
   */
  method AcceptTest(types: seq<JsValue>, onClass: bool)
    returns (r: Outcome<string>, calls: seq<Site>, stored: seq<JsValue>)
    ensures r.Pass? <==> Compact(types) != []
    ensures r.Pass? ==> calls == [SiteFor(onClass)] && stored == Compact(types)
    ensures r.Fail? ==> r.error == "Invalid @Accept Decorator declaration." && calls == [] && stored == []
  {
    var reg := new Registry();
    r := Accept(reg, types, ArgsFor(onClass));
    calls, stored := reg.calls, reg.ViewAt(SiteFor(onClass)).accepts;
  }

  /**
   * The cases the unit test tries: `application/json` alone, JSON and XML
   * among falsey values, and `undefined` alone or nothing at all, which are
   * refused.
   */
  method AcceptCases(onClass: bool)
    returns (single: seq<JsValue>, mixed: seq<JsValue>, undefinedOnly: Outcome<string>, nothing: Outcome<string>)
    ensures single == [Str("application/json")]
    ensures mixed == [Str("application/json"), Str("application/xml")]
    ensures undefinedOnly == nothing == Fail("Invalid @Accept Decorator declaration.")
  {
    CompactSingle(Str("application/json"));
    var r, calls, ignored;
    r, calls, single := AcceptTest([Str("application/json")], onClass);
    CompactWithFalseys("application/json", "application/xml");
    r, calls, mixed := AcceptTest(WithFalseys("application/json", "application/xml"), onClass);
    CompactSingle(Undefined);
    undefinedOnly, calls, ignored := AcceptTest([Undefined], onClass);
    nothing, calls, ignored := AcceptTest([], onClass);
  }

  /**
   * Each decorator applied to a method with an extra fourth argument throws
   * `Invalid @<Name> Decorator declaration.`; in this model it registers
   * nothing.
   */
  method MisuseTest(a: Annotation) returns (r: Outcome<string>, calls: seq<Site>)
    ensures a.PathAnnotation? ==> r == Fail("Invalid @Path Decorator declaration.")
    ensures a.SecurityAnnotation? ==> r == Fail("Invalid @Security Decorator declaration.")
    ensures a.PreprocessorAnnotation? ==> r == Fail("Invalid @Preprocessor Decorator declaration.")
    ensures a.AcceptLanguageAnnotation? ==> r == Fail("Invalid @AcceptLanguage Decorator declaration.")
    ensures a.AcceptAnnotation? ==> r == Fail("Invalid @Accept Decorator declaration.")
    ensures calls == []
  {
    MisuseArgsHaveNoSite();
    var reg := new Registry();
    match a {
      case PathAnnotation(p) => r := Path(reg, p, MisuseArgs);
      case SecurityAnnotation(rs) => r := Security(reg, rs, MisuseArgs);
      case PreprocessorAnnotation(p) => r := Preprocessor(reg, p, MisuseArgs);
      case AcceptLanguageAnnotation(vs) => r := AcceptLanguage(reg, vs, MisuseArgs);
      case AcceptAnnotation(vs) => r := Accept(reg, vs, MisuseArgs);
    }
    calls := reg.calls;
  }

  /**
   * Two decorators on the same class reach the same record: the class is
   * registered twice, holds one record, and that record carries both changes.
   */
  method SharedRecordTest(path: string, role: string) returns (calls: seq<Site>, classes: set<string>, stored: Meta)
    requires role != ""
    ensures calls == [ClassSite(TestService), ClassSite(TestService)]
    ensures classes == {TestService}
    ensures stored == EmptyMeta.(path := Some(path), roles := [role])
  {
    var reg := new Registry();
    var r1 := Security(reg, Role(role), ArgsFor(true));
    var r2 := Path(reg, path, ArgsFor(true));
    calls, classes, stored := reg.calls, reg.classes.Keys, reg.ViewAt(ClassSite(TestService));
  }

  /**
   * Whether the class or the method is decorated first, a request to the
   * method goes through the class's preprocessor and then the method's.
   */
  method EffectivePreprocessorsTest(p: ServicePreprocessor, q: ServicePreprocessor, classFirst: bool)
    returns (ps: seq<ServicePreprocessor>)
    ensures ps == [p, q]
  {
    var reg := new Registry();
    if classFirst {
      var r1 := Preprocessor(reg, Some(p), ArgsFor(true));
      var r2 := Preprocessor(reg, Some(q), ArgsFor(false));
    } else {
      var r2 := Preprocessor(reg, Some(q), ArgsFor(false));
      var r1 := Preprocessor(reg, Some(p), ArgsFor(true));
    }
    ps := reg.EffectivePreprocessors(TestMethod);
  }
}
