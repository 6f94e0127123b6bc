/**
 * The metadata records that decorators accumulate, and the registry that
 * hands them out: one ServiceClass per class and one ServiceMethod per
 * method of a class, created on first request and returned unchanged
 * (the same object) on every later one.
 */
module Metadata {
  import opened Wrappers
  import opened JsValues
  import opened Preprocessors

  /** The fields a ServiceClass and a ServiceMethod share, as a value. */
  datatype Meta = Meta(path: Option<string>, roles: seq<string>, languages: seq<JsValue>,
                       accepts: seq<JsValue>, preProcessors: seq<ServicePreprocessor>)

  /** A record that no decorator has touched yet. */
  const EmptyMeta := Meta(None, [], [], [], [])

  /** A method is identified by its class and its property name. */
  datatype MethodKey = MethodKey(target: string, name: string)

  /** What a decorator was applied to: a whole class, or one method of a class. */
  datatype Site = ClassSite(target: string) | MethodSite(key: MethodKey)

  /** The metadata of a decorated class. */
  class ServiceClass {
    const target: string
    var path: Option<string>
    var roles: seq<string>
    var languages: seq<JsValue>
    var accepts: seq<JsValue>
    var preProcessors: seq<ServicePreprocessor>

    function View(): Meta
      reads this
    {
      Meta(path, roles, languages, accepts, preProcessors)
    }

    constructor (target: string)
      ensures this.target == target && View() == EmptyMeta
    {
      this.target := target;
      path, roles, languages, accepts, preProcessors := None, [], [], [], [];
    }
  }

  /** The metadata of a decorated method. */
  class ServiceMethod {
    const key: MethodKey
    var path: Option<string>
    var roles: seq<string>
    var languages: seq<JsValue>
    var accepts: seq<JsValue>
    var preProcessors: seq<ServicePreprocessor>

    function View(): Meta
      reads this
    {
      Meta(path, roles, languages, accepts, preProcessors)
    }

    constructor (key: MethodKey)
      ensures this.key == key && View() == EmptyMeta
    {
      this.key := key;
      path, roles, languages, accepts, preProcessors := None, [], [], [], [];
    }
  }

  /**
   * The process-wide registry the decorators write into.  `calls` logs the
   * registration calls received, in order, which is what the unit tests
   * count when they expect a class or a method to be registered once.
   */
  class Registry {
    var classes: map<string, ServiceClass>
    var methods: map<MethodKey, ServiceMethod>
    var calls: seq<Site>
    ghost var Repr: set<object>

    /** Every record is owned by the registry and filed under its own identity. */
    ghost predicate Valid()
      reads this
    {
      && this !in Repr
      && (forall c :: c in classes ==> classes[c] in Repr && classes[c].target == c)
      && (forall k :: k in methods ==> methods[k] in Repr && methods[k].key == k)
    }

    /** The metadata at `site`; a site nothing was registered for reads as empty. */
    function ViewAt(site: Site): Meta
      reads this, Repr
      requires Valid()
    {
      match site
      case ClassSite(c) => if c in classes then classes[c].View() else EmptyMeta
      case MethodSite(k) => if k in methods then methods[k].View() else EmptyMeta
    }

    /** The preprocessors a request to method `k` goes through: the class's, then the method's. */
    function EffectivePreprocessors(k: MethodKey): seq<ServicePreprocessor>
      reads this, Repr
      requires Valid()
    {
      ViewAt(ClassSite(k.target)).preProcessors + ViewAt(MethodSite(k)).preProcessors
    }

    /** A new registry holds no record and has received no call. */
    constructor ()
      ensures Valid() && classes == map[] && methods == map[] && calls == [] && Repr == {}
    {
      classes, methods, calls := map[], map[], [];
      Repr := {};
    }

    /** Forgets every record and every call, so that the next situation starts from a registry nobody has called. */
    method Reset()
      modifies this
      ensures Valid() && classes == map[] && methods == map[] && calls == [] && Repr == {}
    {
      classes, methods, calls := map[], map[], [];
      Repr := {};
    }

    /** Creates an empty record for class `c` unless it has one; logs nothing. */
    method EnsureClass(c: string)
      requires Valid()
      modifies this
      ensures Valid() && fresh(Repr - old(Repr))
      ensures calls == old(calls) && methods == old(methods)
      ensures classes.Keys == old(classes.Keys) + {c}
      ensures forall c' :: c' in old(classes) ==> classes[c'] == old(classes[c'])
      ensures c !in old(classes) ==> fresh(classes[c]) && classes[c].View() == EmptyMeta
    {
      if c !in classes {
        var sc := new ServiceClass(c);
        classes := classes[c := sc];
        Repr := Repr + {sc};
      }
    }

    /** Get-or-create the record of class `c`. */
    method RegisterServiceClass(c: string) returns (sc: ServiceClass)
      requires Valid()
      modifies this
      ensures Valid() && fresh(Repr - old(Repr))
      ensures RegisteredOnce(this, ClassSite(c))
      ensures sc == classes[c]
      ensures c in old(classes) ==> sc == old(classes[c])
      ensures c !in old(classes) ==> fresh(sc) && sc.View() == EmptyMeta
    {
      EnsureClass(c);
      sc := classes[c];
      calls := calls + [ClassSite(c)];
    }

    /** Get-or-create the record of method `k`, and of its class if that has none yet. */
    method RegisterServiceMethod(k: MethodKey) returns (sm: ServiceMethod)
      requires Valid()
      modifies this
      ensures Valid() && fresh(Repr - old(Repr))
      ensures RegisteredOnce(this, MethodSite(k))
      ensures sm == methods[k]
      ensures k in old(methods) ==> sm == old(methods[k])
      ensures k !in old(methods) ==> fresh(sm) && sm.View() == EmptyMeta
      ensures k.target !in old(classes) ==> fresh(classes[k.target]) && classes[k.target].View() == EmptyMeta
    {
      EnsureClass(k.target);
      if k in methods {
        sm := methods[k];
      } else {
        sm := new ServiceMethod(k);
        methods := methods[k := sm];
        Repr := Repr + {sm};
      }
      calls := calls + [MethodSite(k)];
    }
  }

  /**
   * Between the old and the new state, `reg` received exactly one
   * registration call for `site`: the record there now exists, every record
   * that existed is still filed under the same key as the same object, and
   * the only other record that may have appeared is that of the method's class.
   */
  twostate predicate RegisteredOnce(reg: Registry, site: Site)
    reads reg
  {
    && reg.calls == old(reg.calls) + [site]
    && (forall c :: c in old(reg.classes) ==> c in reg.classes && reg.classes[c] == old(reg.classes[c]))
    && (forall k :: k in old(reg.methods) ==> k in reg.methods && reg.methods[k] == old(reg.methods[k]))
    && match site
       case ClassSite(c) =>
         reg.classes.Keys == old(reg.classes.Keys) + {c} && reg.methods == old(reg.methods)
       case MethodSite(k) =>
         reg.classes.Keys == old(reg.classes.Keys) + {k.target} && reg.methods.Keys == old(reg.methods.Keys) + {k}
  }

  /** Between the old and the new state, `reg` received no call and no record changed. */
  twostate predicate Untouched(reg: Registry)
    requires old(reg.Valid()) && reg.Valid()
    reads reg, reg.Repr
  {
    && reg.calls == old(reg.calls) && reg.classes == old(reg.classes) && reg.methods == old(reg.methods)
    && forall s :: reg.ViewAt(s) == old(reg.ViewAt(s))
  }
}
