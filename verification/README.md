# Digester: the `createObject()` builder and `PathCallParamRule`

A Dafny model of two small pieces of the Apache Commons Digester rule engine.

- **`ObjectCreateBuilder`** (digester3 binder) is the fluent builder behind
  `createObject()`. It is modelled as a configuration record plus the binder's
  append-only error log. The record holds the type to instantiate, the
  attribute that may override it, and the constructor argument types. Each
  builder call updates at most one field, and errors append diagnostics to the
  log (`reportError`). A reported `ofType` call leaves the settings unchanged;
  `usingConstructor` always stores its array, even when it reports.
  `createRule` projects the record onto an `ObjectCreateRule`.
  Class loading is a parameter `loader: string -> Option<JavaClass>`. `None`
  there stands for `ClassNotFoundException`.
- **`BuilderSession`** strings builder calls together. It relates the state
  after a whole sequence of calls to what can be read off the calls alone:
  - the log only grows, by exactly the number of errors the calls report;
  - every field holds the value chosen by the last call that sets it.
- **`PathCallParamRule`** (Digester 1.x) saves the current match path into
  slot `paramIndex` of the top parameter frame when an element starts. The
  digester is reduced to a `Context`: the current match (possibly `null`) and
  the parameter-frame stack, with the top frame last. `toString` is modelled
  together with a parser, which proves the index can be read back from the text.
- **`JavaLang`** holds the Java notions the models need:
  - `null` as `Option`;
  - thrown exceptions as `Result`;
  - the 32-bit `int`;
  - the decimal rendering `StringBuffer.append(int)` produces, with a parser
    as its inverse.

Three behaviours of the code worth noting:

- A call-param index outside its frame is not rejected when the rule is
  registered. `begin` writes without any check, so the failure shows up at
  run time as `ArrayIndexOutOfBoundsException`.
- An unloadable type name does not make the builder call throw:
  `ofType(String)` reports it to the binder's log and returns the builder.
- The two setters treat `null` differently. `ofType(null)` reports and keeps
  the type chosen earlier. `usingConstructor(null)` reports and still stores
  `null`, so it clears constructor types chosen earlier. A name array with
  unloadable names is stored too, with `null` in each failing slot.

## Model

| member | source | states |
|---|---|---|
| ObjectCreateBuilder.OfTypeName | src/main/java/org/apache/commons/digester3/binder/ObjectCreateBuilder.java:63-80 | A null class name appends exactly one "NULL Java type not allowed" diagnostic. An unloadable name appends exactly one "class '<name>' cannot be load" diagnostic. In both cases all settings stay unchanged. A loadable name sets the type to the loaded class and reports nothing. The attribute name and the constructor types never change. |
| ObjectCreateBuilder.OfType | src/main/java/org/apache/commons/digester3/binder/ObjectCreateBuilder.java:89-100 | A null class appends one diagnostic under the `ofType( Class<?> )` context and leaves the settings unchanged. A non-null class becomes the type, with no diagnostic and no other field touched. |
| ObjectCreateBuilder.OfTypeSpecifiedByAttribute | src/main/java/org/apache/commons/digester3/binder/ObjectCreateBuilder.java:108-112 | The attribute name becomes the argument, null included. The call never reports and leaves the type, the constructor types and the log alone. |
| ObjectCreateBuilder.FailingIndices | src/main/java/org/apache/commons/digester3/binder/ObjectCreateBuilder.java:130-141 | The indices whose `loadClass` fails, strictly ascending. Every failing index appears, and only failing indices. |
| ObjectCreateBuilder.UnresolvableInIndexOrder | src/main/java/org/apache/commons/digester3/binder/ObjectCreateBuilder.java:130-141 | The failing names, as the loop meets them: one entry per failing index, in ascending index order, so a name that occurs twice and fails is listed twice. |
| ObjectCreateBuilder.LoadConstructorTypes | src/main/java/org/apache/commons/digester3/binder/ObjectCreateBuilder.java:126-143 | The loop yields one slot per name, in the same order. Slot i holds the class loaded for name i, or null when loading fails. The log gains exactly one "cannot be load" diagnostic per failing name, in index order. The settings are untouched. |
| ObjectCreateBuilder.UsingConstructorNames | src/main/java/org/apache/commons/digester3/binder/ObjectCreateBuilder.java:119-146 | A null array is reported twice: once under the `String[]` context, then once by the delegate under the `Class<?>[]` context. The constructor types are then null. A non-null array stores a same-length sequence whose slot i is the class loaded for name i. Its failures are reported under the `Arrays.toString` context. The type and attribute name are untouched. |
| ObjectCreateBuilder.UsingConstructor | src/main/java/org/apache/commons/digester3/binder/ObjectCreateBuilder.java:153-163 | The argument is always stored, even null. A diagnostic is reported exactly when it is null. The other fields are untouched. |
| ObjectCreateBuilder.CreateRule | src/main/java/org/apache/commons/digester3/binder/ObjectCreateBuilder.java:169-179 | The rule gets the builder's attribute name and type. It receives constructor arguments exactly when the builder's constructor types are non-null, and then they are those types. |
| BuilderSession.ApplyErrors | src/main/java/org/apache/commons/digester3/binder/ObjectCreateBuilder.java:63-163 | Any single builder call keeps the old log as a prefix of the new one. It adds exactly the number of diagnostics read off the call and the loader alone: 1 for a null or unloadable type, 2 for a null name array, one per unloadable name, 1 for a null class array, 0 otherwise. |
| BuilderSession.RunErrors | src/main/java/org/apache/commons/digester3/binder/ObjectCreateBuilder.java:63-163 | Over any sequence of builder calls the log is append-only. It grows by the sum of the per-call error counts. |
| BuilderSession.ErrorFreeSession | src/main/java/org/apache/commons/digester3/binder/ObjectCreateBuilder.java:63-163 | A sequence of calls that reports nothing leaves the log exactly as it was. |
| BuilderSession.RunSettings | src/main/java/org/apache/commons/digester3/binder/ObjectCreateBuilder.java:63-163 | After any sequence of calls, each field holds the value chosen by the last call that sets it. The type comes from the last non-null class or loadable name; a reported `ofType` call sets nothing. The attribute name comes from the last `ofTypeSpecifiedByAttribute`. The constructor types come from the last `usingConstructor` of either kind, even one that reports: a null array clears earlier types, and unloadable names leave null slots. |
| BuilderSession.SessionRule | src/main/java/org/apache/commons/digester3/binder/ObjectCreateBuilder.java:169-178 | The rule built from a fresh builder after any sequence of calls is determined by the calls. It carries the last attribute name and type chosen, and constructor arguments only when the last `usingConstructor` left a non-null array. |
| PathCallParamRule.NewPathCallParamRule | src/java/org/apache/commons/digester/PathCallParamRule.java:87-98 | The constructor keeps its parameter index verbatim. |
| PathCallParamRule.Begin | src/java/org/apache/commons/digester/PathCallParamRule.java:114-123 | With a null match, `begin` leaves the context unchanged, even on an empty stack. With a non-null match it succeeds exactly when a frame exists and `0 <= paramIndex < ` its length. Otherwise it throws: the null-pointer failure on an empty stack, or out-of-bounds with the index and length. On success the match and stack depth are kept, and every frame below the top is unchanged. In the top frame, slot `paramIndex` holds the match string and every other slot is unchanged. |
| PathCallParamRule.BeginSlots | src/java/org/apache/commons/digester/PathCallParamRule.java:116-121 | Slot by slot, with a non-null match and a valid index: the rule's slot of the top frame holds the match path. Every other slot of every frame is as before. |
| PathCallParamRule.BeginIdempotent | src/java/org/apache/commons/digester/PathCallParamRule.java:116-121 | Running a successful `begin` a second time on its own result changes nothing more. |
| PathCallParamRule.BeginIgnoresElement | src/java/org/apache/commons/digester/PathCallParamRule.java:114-123 | The outcome does not depend on the element's namespace, name or attributes. |
| PathCallParamRule.ToString | src/java/org/apache/commons/digester/PathCallParamRule.java:128-136 | The text starts with `PathCallParamRule[paramIndex=` and ends with `]`. What lies between is a canonical decimal (no leading zero, no "-0") that parses to `paramIndex`. |
| PathCallParamRule.ToStringShapeIsExact | src/java/org/apache/commons/digester/PathCallParamRule.java:130-134 | Any text of the shape `ToString` promises, for a given index, is exactly `PathCallParamRule[paramIndex=` followed by the index's decimal rendering and `]`. |
| PathCallParamRule.ToStringRoundTrip | src/java/org/apache/commons/digester/PathCallParamRule.java:128-136 | Parsing the rendering of any rule gives back its index. |
| PathCallParamRule.ToStringInjective | src/java/org/apache/commons/digester/PathCallParamRule.java:128-136 | Two rules render to the same text exactly when they are equal. |
| JavaLang.NatToDecimal | src/java/org/apache/commons/digester/PathCallParamRule.java:132 | The decimal digits of a non-negative int: non-empty, all digits, no leading zero except for 0 itself. They evaluate back to the number. |
| JavaLang.IntToDecimal | src/java/org/apache/commons/digester/PathCallParamRule.java:132 | The rendering of an int is canonical: an optional minus sign, then digits with no leading zero, and never "-0". It starts with a minus sign exactly when the number is negative, and it parses back to the number. |
| JavaLang.CanonicalDecimalUnique | src/java/org/apache/commons/digester/PathCallParamRule.java:132 | Every canonical decimal text is the rendering of the value it parses to. So the rendering is the only canonical text for its value, which is the text `append(int)` produces. |
| JavaLang.IntToDecimalInjective | src/java/org/apache/commons/digester/PathCallParamRule.java:132 | Distinct ints render to distinct texts. |

## Left out

- Class loading is foreign. It is the `loader` parameter, which either yields a class or fails as `ClassNotFoundException` does. Other throwables of `loadClass` (linkage errors, security exceptions) are not modelled.
- `null` elements inside the `String[]` given to `usingConstructor` are not modelled. What `loadClass(null)` does belongs to the class loader. The names are non-null strings here, and `Arrays.toString` is rendered for such arrays only.
- `reportError` is modelled as appending a (context, message) pair to the log. Its real implementation in `AbstractBackToLinkedRuleBuilder` is not part of this model. Neither is the rest of the linked-builder chaining: pattern, namespace, main binder and the fluent `return this`.
- What the binder does with its error log afterwards is not part of this model. The binder collects the errors, and the loader that configures it can refuse to build a rule set when the log is non-empty. The model only states which diagnostics each builder call appends.
- Aliasing of the constructor argument array is not modelled. `usingConstructor(Class<?>...)` keeps the caller's array by reference, and `createRule` passes that same array to the rule. In Java, a caller who writes into the array afterwards changes both the builder's and the rule's argument types. The model stores an immutable sequence, so it promises nothing about such later writes.
- `ObjectCreateRule` internals are not part of this model. That covers its constructor's handling of a null class and what `setConstructorArguments` does. The built rule is the record of the settings passed to it.
- The builder's constructor is `NewBuilder`, a state with every field null. It has no contract worth stating.
- How the digester computes `getMatch()`, and what `peekParams()` returns on an empty stack, are not part of this model. The match and the stack are inputs. An empty stack is modelled as the write failing with a null-pointer exception.
- The `(Object[])` cast in `begin` cannot fail in the model, because every frame is a sequence of slots.
- The members `PathCallParamRule` inherits from `Rule` (its digester and namespace fields and the no-op `body`/`end`/`finish`) are not modelled.
- Logging is not modelled.
- The pattern matcher, the dispatcher and the value stacks are outside the modelled core. They appear only through the `Context` that `begin` reads.
