/** A configuration session: the sequence of calls made on one
    `createObject()` builder before the binder asks it for its rule. Each
    call is one of the builder's public methods with its argument; the
    session facts relate the state after all of them to what can be read off
    the calls alone. */
module BuilderSession {
  import opened JavaLang
  import opened ObjectCreateBuilder

  datatype Call =
    | OfTypeNamed(className: Option<string>)
    | OfTypeClass(clazz: Option<JavaClass>)
    | ByAttribute(attributeName: Option<string>)
    | ConstructorNamed(names: Option<seq<string>>)
    | ConstructorClasses(types: Option<seq<Option<JavaClass>>>)

  function Apply(b: Builder, loader: ClassLoader, c: Call): Builder {
    match c
    case OfTypeNamed(className) => OfTypeName(b, loader, className)
    case OfTypeClass(clazz) => OfType(b, clazz)
    case ByAttribute(attributeName) => OfTypeSpecifiedByAttribute(b, attributeName)
    case ConstructorNamed(names) => UsingConstructorNames(b, loader, names)
    case ConstructorClasses(types) => UsingConstructor(b, types)
  }

  /** The calls applied in order, the first one first. */
  function Run(b: Builder, loader: ClassLoader, calls: seq<Call>): Builder
    decreases |calls|
  {
    if |calls| == 0 then b else Run(Apply(b, loader, calls[0]), loader, calls[1..])
  }

  lemma {:induction false} RunAppend(b: Builder, loader: ClassLoader, calls: seq<Call>, c: Call)
    ensures Run(b, loader, calls + [c]) == Apply(Run(b, loader, calls), loader, c)
    decreases |calls|
  {
    if |calls| == 0 {
      assert calls + [c] == [c];
    } else {
      assert (calls + [c])[1..] == calls[1..] + [c];
      RunAppend(Apply(b, loader, calls[0]), loader, calls[1..], c);
    }
  }

  // ---------------------------------------------------------------------
  // The error log

  /** How many times a call invokes `reportError`, read off the call and the
      class loader alone: a `null` type or an unloadable type name once, a
      `null` name array twice (once itself, once through the delegate), a
      name array once per unloadable name, a `null` class array once. */
  function ReportedErrors(loader: ClassLoader, c: Call): nat {
    match c
    case OfTypeNamed(className) =>
      if className.None? || loader(className.value).None? then 1 else 0
    case OfTypeClass(clazz) => if clazz.None? then 1 else 0
    case ByAttribute(_) => 0
    case ConstructorNamed(names) =>
      if names.None? then 2 else |FailingIndices(loader, names.value)|
    case ConstructorClasses(types) => if types.None? then 1 else 0
  }

  function TotalReportedErrors(loader: ClassLoader, calls: seq<Call>): nat
    decreases |calls|
  {
    if |calls| == 0 then 0 else ReportedErrors(loader, calls[0]) + TotalReportedErrors(loader, calls[1..])
  }

  /** One call only appends to the log, exactly as many entries as it
      reports. */
  lemma ApplyErrors(b: Builder, loader: ClassLoader, c: Call)
    ensures |Apply(b, loader, c).errors| == |b.errors| + ReportedErrors(loader, c)
    ensures Apply(b, loader, c).errors[..|b.errors|] == b.errors
  {
    match c
    case ConstructorNamed(names) =>
      if names.Some? {
        UnresolvableInIndexOrder(loader, names.value);
      }
    case _ =>
  }

  /** The log of a whole session is append-only, and it grows by exactly the
      number of errors its calls report. */
  lemma {:induction false} RunErrors(b: Builder, loader: ClassLoader, calls: seq<Call>)
    ensures |Run(b, loader, calls).errors| == |b.errors| + TotalReportedErrors(loader, calls)
    ensures Run(b, loader, calls).errors[..|b.errors|] == b.errors
    decreases |calls|
  {
    if |calls| > 0 {
      var b1 := Apply(b, loader, calls[0]);
      ApplyErrors(b, loader, calls[0]);
      RunErrors(b1, loader, calls[1..]);
      var e := Run(b, loader, calls).errors;
      assert e[..|b1.errors|] == b1.errors;
      assert e[..|b.errors|] == e[..|b1.errors|][..|b.errors|];
    }
  }

  // ---------------------------------------------------------------------
  // The settings: the last call that sets a field wins

  /** The type set by the last call that sets one, or `init`. Only a
      non-null class, or a name the loader resolves, sets it. */
  function LastObjectType(loader: ClassLoader, init: Option<JavaClass>, calls: seq<Call>): Option<JavaClass>
    decreases |calls|
  {
    if |calls| == 0 then init
    else
      match calls[|calls| - 1]
      case OfTypeClass(Some(clazz)) => Some(clazz)
      case OfTypeNamed(Some(name)) =>
        if loader(name).Some? then loader(name) else LastObjectType(loader, init, calls[..|calls| - 1])
      case _ => LastObjectType(loader, init, calls[..|calls| - 1])
  }

  /** The attribute name of the last `ofTypeSpecifiedByAttribute`, or `init`. */
  function LastAttributeName(init: Option<string>, calls: seq<Call>): Option<string>
    decreases |calls|
  {
    if |calls| == 0 then init
    else
      match calls[|calls| - 1]
      case ByAttribute(attributeName) => attributeName
      case _ => LastAttributeName(init, calls[..|calls| - 1])
  }

  /** The argument types of the last `usingConstructor` of either kind, or
      `init`; a name array contributes the classes its names load to. */
  function LastConstructorTypes(loader: ClassLoader, init: Option<seq<Option<JavaClass>>>, calls: seq<Call>)
    : Option<seq<Option<JavaClass>>>
    decreases |calls|
  {
    if |calls| == 0 then init
    else
      match calls[|calls| - 1]
      case ConstructorClasses(types) => types
      case ConstructorNamed(None) => None
      case ConstructorNamed(Some(names)) => Some(seq(|names|, i requires 0 <= i < |names| => loader(names[i])))
      case _ => LastConstructorTypes(loader, init, calls[..|calls| - 1])
  }

  /** Each field of the settings after a session is the one the last call
      that sets it chose. A reported `ofType` call sets nothing, but every
      `usingConstructor` sets the constructor types, even one that reports:
      a `null` array clears the types an earlier call chose. */
  lemma {:induction false} RunSettings(b: Builder, loader: ClassLoader, calls: seq<Call>)
    ensures Run(b, loader, calls).settings == Settings(
      LastObjectType(loader, b.settings.objectType, calls),
      LastAttributeName(b.settings.attributeName, calls),
      LastConstructorTypes(loader, b.settings.constructorArgumentsType, calls))
    decreases |calls|
  {
    if |calls| > 0 {
      var init := calls[..|calls| - 1];
      var c := calls[|calls| - 1];
      assert calls == init + [c];
      RunAppend(b, loader, init, c);
      RunSettings(b, loader, init);
      match c
      case ConstructorNamed(Some(names)) =>
        var types := Run(b, loader, calls).settings.constructorArgumentsType;
        assert types.value == seq(|names|, i requires 0 <= i < |names| => loader(names[i]));
      case _ =>
    }
  }

  /** The rule a session produces, read off the calls: starting from a fresh
      builder, the rule carries the last attribute name and type chosen, and
      receives constructor arguments only if some `usingConstructor` left a
      non-null array in place. */
  lemma SessionRule(log: seq<Diagnostic>, loader: ClassLoader, calls: seq<Call>)
    ensures CreateRule(Run(NewBuilder(log), loader, calls)) == ObjectCreateRule(
      LastAttributeName(None, calls),
      LastObjectType(loader, None, calls),
      LastConstructorTypes(loader, None, calls))
  {
    RunSettings(NewBuilder(log), loader, calls);
  }

  /** A session whose calls report nothing leaves the log as it found it. */
  lemma ErrorFreeSession(b: Builder, loader: ClassLoader, calls: seq<Call>)
    requires TotalReportedErrors(loader, calls) == 0
    ensures Run(b, loader, calls).errors == b.errors
  {
    RunErrors(b, loader, calls);
  }
}
