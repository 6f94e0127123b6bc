/**
 * The five decorators of the unit test: each checks how it was applied,
 * fetches the record of the decorated class or method from the registry, and
 * changes exactly one field of it.  Misuse throws
 * `Invalid @<Name> Decorator declaration.` and leaves the registry alone.
 */
module Decorators {
  import opened Wrappers
  import opened JsValues
  import opened Preprocessors
  import opened Metadata

  /**
   * The arguments a decorator receives: `(Class)` on a class,
   * `(Class.prototype, 'name', descriptor)` on a method; anything else,
   * such as a trailing extra argument, is misuse.
   */
  datatype DecoratorArg =
    | Constructor(target: string)
    | Prototype(target: string)
    | PropertyKey(name: string)
    | PropertyDescriptor
    | Extra(text: string)

  function SiteOf(args: seq<DecoratorArg>): Option<Site>
  {
    if |args| == 1 && args[0].Constructor? then
      Some(ClassSite(args[0].target))
    else if |args| == 3 && args[0].Prototype? && args[1].PropertyKey? && args[2].PropertyDescriptor? then
      Some(MethodSite(MethodKey(args[0].target, args[1].name)))
    else
      None
  }

  /** The argument of @Security: nothing, one role, or a list of roles. */
  datatype RoleArg = NoRoles | Role(role: string) | Roles(roles: seq<string>)

  /** The roles @Security adds: a missing or empty role stands for any role, `*`. */
  function SecurityRoles(arg: RoleArg): seq<string>
  {
    match arg
    case NoRoles => ["*"]
    case Role(r) => if r == "" then ["*"] else [r]
    case Roles(rs) => rs
  }

  /** A decorator together with the arguments it was created with. */
  datatype Annotation =
    | PathAnnotation(path: string)
    | SecurityAnnotation(roles: RoleArg)
    | PreprocessorAnnotation(preprocessor: Option<ServicePreprocessor>)
    | AcceptLanguageAnnotation(languages: seq<JsValue>)
    | AcceptAnnotation(types: seq<JsValue>)

  /** The message a misused decorator throws. */
  function InvalidDeclaration(a: Annotation): string
  {
    match a
    case PathAnnotation(_) => "Invalid @Path Decorator declaration."
    case SecurityAnnotation(_) => "Invalid @Security Decorator declaration."
    case PreprocessorAnnotation(_) => "Invalid @Preprocessor Decorator declaration."
    case AcceptLanguageAnnotation(_) => "Invalid @AcceptLanguage Decorator declaration."
    case AcceptAnnotation(_) => "Invalid @Accept Decorator declaration."
  }

  /**
   * Whether the decorator's own arguments are acceptable: @Preprocessor needs
   * a preprocessor, @AcceptLanguage and @Accept need at least one truthy value.
   */
  predicate Admissible(a: Annotation)
  {
    match a
    case PathAnnotation(_) => true
    case SecurityAnnotation(_) => true
    case PreprocessorAnnotation(p) => p.Some?
    case AcceptLanguageAnnotation(vs) => Compact(vs) != []
    case AcceptAnnotation(vs) => Compact(vs) != []
  }

  /** The change one decorator makes to the record it decorates. */
  function Apply(m: Meta, a: Annotation): Meta
    requires Admissible(a)
  {
    match a
    case PathAnnotation(p) => m.(path := Some(p))
    case SecurityAnnotation(rs) => m.(roles := m.roles + SecurityRoles(rs))
    case PreprocessorAnnotation(p) => m.(preProcessors := m.preProcessors + [p.value])
    case AcceptLanguageAnnotation(vs) => m.(languages := m.languages + Compact(vs))
    case AcceptAnnotation(vs) => m.(accepts := m.accepts + Compact(vs))
  }

  /**
   * Apply changes exactly the field its decorator is about and keeps the
   * others; the list-valued fields only ever grow at their end.
   */
  lemma ApplyChangesOneField(m: Meta, a: Annotation)
    requires Admissible(a)
    ensures !a.PathAnnotation? ==> Apply(m, a).path == m.path
    ensures !a.SecurityAnnotation? ==> Apply(m, a).roles == m.roles
    ensures !a.PreprocessorAnnotation? ==> Apply(m, a).preProcessors == m.preProcessors
    ensures !a.AcceptLanguageAnnotation? ==> Apply(m, a).languages == m.languages
    ensures !a.AcceptAnnotation? ==> Apply(m, a).accepts == m.accepts
    ensures m.roles <= Apply(m, a).roles && m.preProcessors <= Apply(m, a).preProcessors
    ensures m.languages <= Apply(m, a).languages && m.accepts <= Apply(m, a).accepts
  {
  }

  /** Sets the field of a class record that `a` is about. */
  method AnnotateClass(sc: ServiceClass, a: Annotation)
    requires Admissible(a)
    modifies sc
    ensures sc.View() == Apply(old(sc.View()), a)
  {
    match a
    case PathAnnotation(p) => sc.path := Some(p);
    case SecurityAnnotation(rs) => sc.roles := sc.roles + SecurityRoles(rs);
    case PreprocessorAnnotation(p) => sc.preProcessors := sc.preProcessors + [p.value];
    case AcceptLanguageAnnotation(vs) => sc.languages := sc.languages + Compact(vs);
    case AcceptAnnotation(vs) => sc.accepts := sc.accepts + Compact(vs);
  }

  /** Sets the field of a method record that `a` is about. */
  method AnnotateMethod(sm: ServiceMethod, a: Annotation)
    requires Admissible(a)
    modifies sm
    ensures sm.View() == Apply(old(sm.View()), a)
  {
    match a
    case PathAnnotation(p) => sm.path := Some(p);
    case SecurityAnnotation(rs) => sm.roles := sm.roles + SecurityRoles(rs);
    case PreprocessorAnnotation(p) => sm.preProcessors := sm.preProcessors + [p.value];
    case AcceptLanguageAnnotation(vs) => sm.languages := sm.languages + Compact(vs);
    case AcceptAnnotation(vs) => sm.accepts := sm.accepts + Compact(vs);
  }

  /**
   * Applies an admissible decorator to the record of class `c`: the class is
   * registered once, its record changes by Apply, and no other record changes.
   */
  method DecorateClass(reg: Registry, c: string, a: Annotation)
    requires reg.Valid() && Admissible(a)
    modifies reg, reg.Repr
    ensures reg.Valid() && fresh(reg.Repr - old(reg.Repr))
    ensures RegisteredOnce(reg, ClassSite(c))
    ensures reg.ViewAt(ClassSite(c)) == Apply(old(reg.ViewAt(ClassSite(c))), a)
    ensures forall s :: s != ClassSite(c) ==> reg.ViewAt(s) == old(reg.ViewAt(s))
  {
    var sc := reg.RegisterServiceClass(c);
    AnnotateClass(sc, a);
  }

  /**
   * Applies an admissible decorator to the record of method `k`: the method is
   * registered once, its record changes by Apply, and no other record changes.
   */
  method DecorateMethod(reg: Registry, k: MethodKey, a: Annotation)
    requires reg.Valid() && Admissible(a)
    modifies reg, reg.Repr
    ensures reg.Valid() && fresh(reg.Repr - old(reg.Repr))
    ensures RegisteredOnce(reg, MethodSite(k))
    ensures reg.ViewAt(MethodSite(k)) == Apply(old(reg.ViewAt(MethodSite(k))), a)
    ensures forall s :: s != MethodSite(k) ==> reg.ViewAt(s) == old(reg.ViewAt(s))
  {
    var sm := reg.RegisterServiceMethod(k);
    AnnotateMethod(sm, a);
  }

  /**
   * Runs decorator `a` on `args`: misuse throws the decorator's fixed message
   * and, as this model chooses, touches nothing; otherwise the decorated record is registered once and
   * changed by Apply, and every other record is left as it was.
   */
  method ApplyDecorator(reg: Registry, a: Annotation, args: seq<DecoratorArg>) returns (r: Outcome<string>)
    requires reg.Valid()
    modifies reg, reg.Repr
    ensures reg.Valid() && fresh(reg.Repr - old(reg.Repr))
    ensures r.Pass? <==> SiteOf(args).Some? && Admissible(a)
    ensures r.Fail? ==> r.error == InvalidDeclaration(a)
    ensures r.Fail? ==> Untouched(reg)
    ensures r.Pass? ==> RegisteredOnce(reg, SiteOf(args).value)
    ensures r.Pass? ==> reg.ViewAt(SiteOf(args).value) == Apply(old(reg.ViewAt(SiteOf(args).value)), a)
    ensures r.Pass? ==> forall s :: s != SiteOf(args).value ==> reg.ViewAt(s) == old(reg.ViewAt(s))
  {
    var site := SiteOf(args);
    if site.None? || !Admissible(a) {
      return Fail(InvalidDeclaration(a));
    }
    r := Pass;
    match site.value
    case ClassSite(c) => DecorateClass(reg, c, a);
    case MethodSite(k) => DecorateMethod(reg, k, a);
  }

  /** @Path(path): sets `path` of the decorated class or method. */
  method Path(reg: Registry, path: string, args: seq<DecoratorArg>) returns (r: Outcome<string>)
    requires reg.Valid()
    modifies reg, reg.Repr
    ensures reg.Valid() && fresh(reg.Repr - old(reg.Repr))
    ensures r.Pass? <==> SiteOf(args).Some?
    ensures r.Fail? ==> r.error == "Invalid @Path Decorator declaration."
    ensures r.Fail? ==> Untouched(reg)
    ensures r.Pass? ==> RegisteredOnce(reg, SiteOf(args).value)
    ensures r.Pass? ==> var m := old(reg.ViewAt(SiteOf(args).value));
                        reg.ViewAt(SiteOf(args).value) == m.(path := Some(path))
    ensures r.Pass? ==> forall s :: s != SiteOf(args).value ==> reg.ViewAt(s) == old(reg.ViewAt(s))
  {
    r := ApplyDecorator(reg, PathAnnotation(path), args);
  }

  /** @Security(roles): appends the roles, `*` for a missing or empty one. */
  method Security(reg: Registry, roles: RoleArg, args: seq<DecoratorArg>) returns (r: Outcome<string>)
    requires reg.Valid()
    modifies reg, reg.Repr
    ensures reg.Valid() && fresh(reg.Repr - old(reg.Repr))
    ensures r.Pass? <==> SiteOf(args).Some?
    ensures r.Fail? ==> r.error == "Invalid @Security Decorator declaration."
    ensures r.Fail? ==> Untouched(reg)
    ensures r.Pass? ==> RegisteredOnce(reg, SiteOf(args).value)
    ensures r.Pass? ==> var m := old(reg.ViewAt(SiteOf(args).value));
                        reg.ViewAt(SiteOf(args).value) == m.(roles := m.roles + SecurityRoles(roles))
    ensures r.Pass? ==> forall s :: s != SiteOf(args).value ==> reg.ViewAt(s) == old(reg.ViewAt(s))
  {
    r := ApplyDecorator(reg, SecurityAnnotation(roles), args);
  }

  /** @Preprocessor(p): appends `p`; an undefined preprocessor is misuse. */
  method Preprocessor(reg: Registry, p: Option<ServicePreprocessor>, args: seq<DecoratorArg>) returns (r: Outcome<string>)
    requires reg.Valid()
    modifies reg, reg.Repr
    ensures reg.Valid() && fresh(reg.Repr - old(reg.Repr))
    ensures r.Pass? <==> SiteOf(args).Some? && p.Some?
    ensures r.Fail? ==> r.error == "Invalid @Preprocessor Decorator declaration."
    ensures r.Fail? ==> Untouched(reg)
    ensures r.Pass? ==> RegisteredOnce(reg, SiteOf(args).value)
    ensures r.Pass? ==> var m := old(reg.ViewAt(SiteOf(args).value));
                        reg.ViewAt(SiteOf(args).value) == m.(preProcessors := m.preProcessors + [p.value])
    ensures r.Pass? ==> forall s :: s != SiteOf(args).value ==> reg.ViewAt(s) == old(reg.ViewAt(s))
  {
    r := ApplyDecorator(reg, PreprocessorAnnotation(p), args);
  }

  /** @AcceptLanguage(...languages): appends the truthy ones; none at all is misuse. */
  method AcceptLanguage(reg: Registry, languages: seq<JsValue>, args: seq<DecoratorArg>) returns (r: Outcome<string>)
    requires reg.Valid()
    modifies reg, reg.Repr
    ensures reg.Valid() && fresh(reg.Repr - old(reg.Repr))
    ensures r.Pass? <==> SiteOf(args).Some? && Compact(languages) != []
    ensures r.Fail? ==> r.error == "Invalid @AcceptLanguage Decorator declaration."
    ensures r.Fail? ==> Untouched(reg)
    ensures r.Pass? ==> RegisteredOnce(reg, SiteOf(args).value)
    ensures r.Pass? ==> var m := old(reg.ViewAt(SiteOf(args).value));
                        reg.ViewAt(SiteOf(args).value) == m.(languages := m.languages + Compact(languages))
    ensures r.Pass? ==> forall s :: s != SiteOf(args).value ==> reg.ViewAt(s) == old(reg.ViewAt(s))
  {
    r := ApplyDecorator(reg, AcceptLanguageAnnotation(languages), args);
  }

  /** @Accept(...types): appends the truthy content types; none at all is misuse. */
  method Accept(reg: Registry, types: seq<JsValue>, args: seq<DecoratorArg>) returns (r: Outcome<string>)
    requires reg.Valid()
    modifies reg, reg.Repr
    ensures reg.Valid() && fresh(reg.Repr - old(reg.Repr))
    ensures r.Pass? <==> SiteOf(args).Some? && Compact(types) != []
    ensures r.Fail? ==> r.error == "Invalid @Accept Decorator declaration."
    ensures r.Fail? ==> Untouched(reg)
    ensures r.Pass? ==> RegisteredOnce(reg, SiteOf(args).value)
    ensures r.Pass? ==> var m := old(reg.ViewAt(SiteOf(args).value));
                        reg.ViewAt(SiteOf(args).value) == m.(accepts := m.accepts + Compact(types))
    ensures r.Pass? ==> forall s :: s != SiteOf(args).value ==> reg.ViewAt(s) == old(reg.ViewAt(s))
  {
    r := ApplyDecorator(reg, AcceptAnnotation(types), args);
  }
}
