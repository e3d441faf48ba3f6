/** The `createObject()` builder of the digester3 binder: a configuration
    record (the type to instantiate, the attribute that may override it, the
    constructor argument types) together with the binder's error log. An
    `ofType` call either sets the type or reports; a `usingConstructor` call
    always stores its array, and reports as well when it is `null` or holds
    names that do not load.

    The builder's final `classLoader` field is the `loader` parameter of the
    operations that load classes: `loader(name)` is the class
    `loadClass(name)` returns, or `None` when it throws
    `ClassNotFoundException`. */
module ObjectCreateBuilder {
  import opened JavaLang

  /** An opaque loaded `Class<?>`; the builder never looks inside one. */
  datatype JavaClass = JavaClass(name: string)

  type ClassLoader = string -> Option<JavaClass>

  /** One `reportError(context, message)` entry of the binder's log. */
  datatype Diagnostic = Diagnostic(context: string, message: string)

  /** The three configurable fields; `None` is a field still `null`. */
  datatype Settings = Settings(
    objectType: Option<JavaClass>,
    attributeName: Option<string>,
    constructorArgumentsType: Option<seq<Option<JavaClass>>>)

  datatype Builder = Builder(settings: Settings, errors: seq<Diagnostic>)

  /** What `createRule` hands to `ObjectCreateRule`: the constructor's two
      arguments, and the argument types passed to `setConstructorArguments`,
      or `None` when that setter is never called. */
  datatype ObjectCreateRule = ObjectCreateRule(
    attributeName: Option<string>,
    clazz: Option<JavaClass>,
    constructorArguments: Option<seq<Option<JavaClass>>>)

  const OfTypeStringContext := "createObject().ofType( String )"
  const OfTypeClassContext := "createObject().ofType( Class<?> )"
  const UsingNamesContext := "createObject().usingConstructor( String[] )"
  const UsingClassesContext := "createObject().usingConstructor( Class<?>[] )"
  const NullTypeMessage := "NULL Java type not allowed"
  const NullParameterTypesMessage := "NULL parametersTypes not allowed"

  function CannotLoadMessage(className: string): string {
    "class '" + className + "' cannot be load"
  }

  /** `Arrays.toString` of a `String[]` whose elements are not null. */
  function ArrayToString(names: seq<string>): string {
    "[" + JoinWithComma(names) + "]"
  }

  function JoinWithComma(names: seq<string>): string {
    if |names| == 0 then ""
    else if |names| == 1 then names[0]
    else names[0] + ", " + JoinWithComma(names[1..])
  }

  /** The context reported for each class name that fails to load. */
  function LoadContext(names: seq<string>): string {
    "createObject().usingConstructor( " + ArrayToString(names) + " )"
  }

  /** The freshly constructed builder: nothing configured yet. */
  function NewBuilder(errors: seq<Diagnostic>): Builder {
    Builder(Settings(None, None, None), errors)
  }

  function ReportError(b: Builder, context: string, message: string): (b': Builder)
    ensures b'.settings == b.settings
    ensures b'.errors == b.errors + [Diagnostic(context, message)]
  {
    b.(errors := b.errors + [Diagnostic(context, message)])
  }

  /** `ofType(Class<T>)`. */
  function OfType(b: Builder, clazz: Option<JavaClass>): (b': Builder)
    ensures clazz.None? ==> b'.settings == b.settings
    ensures clazz.None? ==> b'.errors == b.errors + [Diagnostic(OfTypeClassContext, NullTypeMessage)]
    ensures clazz.Some? ==> b'.settings.objectType == clazz && b'.errors == b.errors
    ensures b'.settings.attributeName == b.settings.attributeName
    ensures b'.settings.constructorArgumentsType == b.settings.constructorArgumentsType
  {
    if clazz.None? then
      ReportError(b, OfTypeClassContext, NullTypeMessage)
    else
      b.(settings := b.settings.(objectType := clazz))
  }

  /** `ofType(String)`: a null name and a name the loader cannot resolve are
      each reported once and leave the type as it was; a resolvable name
      goes through `ofType(Class<T>)` with the loaded class. */
  function OfTypeName(b: Builder, loader: ClassLoader, className: Option<string>): (b': Builder)
    ensures className.None? ==>
      b'.settings == b.settings && b'.errors == b.errors + [Diagnostic(OfTypeStringContext, NullTypeMessage)]
    ensures className.Some? && loader(className.value).None? ==>
      && b'.settings == b.settings
      && b'.errors == b.errors + [Diagnostic(OfTypeStringContext, CannotLoadMessage(className.value))]
    ensures className.Some? && loader(className.value).Some? ==>
      b'.settings.objectType == loader(className.value) && b'.errors == b.errors
    ensures b'.settings.attributeName == b.settings.attributeName
    ensures b'.settings.constructorArgumentsType == b.settings.constructorArgumentsType
  {
    match className
    case None => ReportError(b, OfTypeStringContext, NullTypeMessage)
    case Some(name) =>
      match loader(name)
      case None => ReportError(b, OfTypeStringContext, CannotLoadMessage(name))
      case Some(clazz) => OfType(b, Some(clazz))
  }

  /** `ofTypeSpecifiedByAttribute`: always accepted, `null` included. */
  function OfTypeSpecifiedByAttribute(b: Builder, attributeName: Option<string>): (b': Builder)
    ensures b'.settings.attributeName == attributeName
    ensures b'.settings.objectType == b.settings.objectType
    ensures b'.settings.constructorArgumentsType == b.settings.constructorArgumentsType
    ensures b'.errors == b.errors
  {
    b.(settings := b.settings.(attributeName := attributeName))
  }

  /** `usingConstructor(Class<?>...)`: the argument is stored even when it is
      `null`, which is reported. */
  function UsingConstructor(b: Builder, types: Option<seq<Option<JavaClass>>>): (b': Builder)
    ensures b'.settings.constructorArgumentsType == types
    ensures b'.settings.objectType == b.settings.objectType
    ensures b'.settings.attributeName == b.settings.attributeName
    ensures types.Some? ==> b'.errors == b.errors
    ensures types.None? ==> b'.errors == b.errors + [Diagnostic(UsingClassesContext, NullParameterTypesMessage)]
  {
    var b1 := if types.None? then ReportError(b, UsingClassesContext, NullParameterTypesMessage) else b;
    b1.(settings := b1.settings.(constructorArgumentsType := types))
  }

  /** The indices of the names `loader` cannot resolve, in ascending order:
      every failing index exactly once, and nothing else. */
  function FailingIndices(loader: ClassLoader, names: seq<string>): (ix: seq<nat>)
    ensures forall k :: 0 <= k < |ix| ==> ix[k] < |names| && loader(names[ix[k]]).None?
    ensures forall k, l :: 0 <= k < l < |ix| ==> ix[k] < ix[l]
    ensures forall i :: 0 <= i < |names| && loader(names[i]).None? ==> i in ix
    decreases |names|
  {
    if |names| == 0 then []
    else
      var last := |names| - 1;
      FailingIndices(loader, names[..last]) + (if loader(names[last]).None? then [last] else [])
  }

  /** The names `loader` cannot resolve, kept in index order. */
  function Unresolvable(loader: ClassLoader, names: seq<string>): (u: seq<string>)
    ensures |u| <= |names|
    decreases |names|
  {
    if |names| == 0 then []
    else
      var last := |names| - 1;
      Unresolvable(loader, names[..last]) + (if loader(names[last]).None? then [names[last]] else [])
  }

  /** `Unresolvable` lists, in ascending index order, the name at each
      failing index, one entry per failing index (so a name that occurs
      twice and fails is listed twice). */
  lemma {:induction false} UnresolvableInIndexOrder(loader: ClassLoader, names: seq<string>)
    ensures |Unresolvable(loader, names)| == |FailingIndices(loader, names)|
    ensures forall k :: 0 <= k < |FailingIndices(loader, names)| ==>
      Unresolvable(loader, names)[k] == names[FailingIndices(loader, names)[k]]
    decreases |names|
  {
    if |names| > 0 {
      var init := names[..|names| - 1];
      UnresolvableInIndexOrder(loader, init);
      assert forall j :: 0 <= j < |init| ==> init[j] == names[j];
    }
  }

  /** The loop of `usingConstructor(String...)`, one iteration per name in
      index order: slot `i` of the types receives the class loaded for
      `names[i]`, or stays `null` when loading fails, and each failure is
      reported under `context` as it happens. */
  function LoadConstructorTypes(b: Builder, loader: ClassLoader, names: seq<string>, context: string)
    : (r: (Builder, seq<Option<JavaClass>>))
    ensures |r.1| == |names|
    ensures forall i :: 0 <= i < |names| ==> r.1[i] == loader(names[i])
    ensures r.0.settings == b.settings
    ensures r.0.errors == b.errors + FailureDiagnostics(context, Unresolvable(loader, names))
    decreases |names|
  {
    if |names| == 0 then
      (b, [])
    else
      var init := names[..|names| - 1];
      var last := names[|names| - 1];
      var (b1, types) := LoadConstructorTypes(b, loader, init, context);
      var loaded := loader(last);
      var b2 := if loaded.None? then ReportError(b1, context, CannotLoadMessage(last)) else b1;
      LoadStepErrors(loader, names, context, b.errors, b1.errors, b2.errors);
      (b2, types + [loaded])
  }

  /** One iteration's diagnostics extend the log of the iterations before it. */
  lemma LoadStepErrors(loader: ClassLoader, names: seq<string>, context: string,
                       prior: seq<Diagnostic>, before: seq<Diagnostic>, after: seq<Diagnostic>)
    requires |names| > 0
    requires before == prior + FailureDiagnostics(context, Unresolvable(loader, names[..|names| - 1]))
    requires after == before + (if loader(names[|names| - 1]).None?
                                then [Diagnostic(context, CannotLoadMessage(names[|names| - 1]))] else [])
    ensures after == prior + FailureDiagnostics(context, Unresolvable(loader, names))
  {
  }

  /** `usingConstructor(String...)`: a `null` array is reported, and reported
      again by the `usingConstructor(Class<?>...)` it delegates to, which
      stores `null`; otherwise the loaded types, one slot per name, are
      stored after one diagnostic per name that fails to load. */
  function UsingConstructorNames(b: Builder, loader: ClassLoader, names: Option<seq<string>>): (b': Builder)
    ensures b'.settings.objectType == b.settings.objectType
    ensures b'.settings.attributeName == b.settings.attributeName
    ensures names.None? ==> b'.settings.constructorArgumentsType.None?
    ensures names.None? ==>
      b'.errors == b.errors + [Diagnostic(UsingNamesContext, NullParameterTypesMessage),
                               Diagnostic(UsingClassesContext, NullParameterTypesMessage)]
    ensures names.Some? ==>
      var types := b'.settings.constructorArgumentsType;
      && types.Some?
      && |types.value| == |names.value|
      && (forall i :: 0 <= i < |names.value| ==> types.value[i] == loader(names.value[i]))
    ensures names.Some? ==>
      b'.errors == b.errors + FailureDiagnostics(LoadContext(names.value), Unresolvable(loader, names.value))
  {
    match names
    case None =>
      UsingConstructor(ReportError(b, UsingNamesContext, NullParameterTypesMessage), None)
    case Some(ns) =>
      var (b1, types) := LoadConstructorTypes(b, loader, ns, LoadContext(ns));
      UsingConstructor(b1, Some(types))
  }

  /** `createRule`: the rule is built from the attribute name and the type,
      and receives the constructor argument types only when they are set. */
  function CreateRule(b: Builder): (r: ObjectCreateRule)
    ensures r.attributeName == b.settings.attributeName
    ensures r.clazz == b.settings.objectType
    ensures r.constructorArguments.Some? <==> b.settings.constructorArgumentsType.Some?
    ensures r.constructorArguments.Some? ==> r.constructorArguments == b.settings.constructorArgumentsType
  {
    var rule := ObjectCreateRule(b.settings.attributeName, b.settings.objectType, None);
    match b.settings.constructorArgumentsType
    case Some(types) => rule.(constructorArguments := Some(types))
    case None => rule
  }

  /** One "cannot be load" diagnostic per name, in the same order. */
  function FailureDiagnostics(context: string, failed: seq<string>): (d: seq<Diagnostic>)
    ensures |d| == |failed|
    ensures forall k :: 0 <= k < |failed| ==> d[k] == Diagnostic(context, CannotLoadMessage(failed[k]))
  {
    if |failed| == 0 then []
    else [Diagnostic(context, CannotLoadMessage(failed[0]))] + FailureDiagnostics(context, failed[1..])
  }
}
