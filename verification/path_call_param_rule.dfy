/** `PathCallParamRule` of Digester 1.x: on the start of a matching element
    it saves the digester's current match path into one slot of the
    parameter frame on top of the parameter stack, for the surrounding
    `CallMethodRule` to pass on. */
module PathCallParamRule {
  import opened JavaLang

  /** A value held in a parameter slot: a string, or any other object. */
  datatype Value = Text(text: string) | Object(handle: nat)

  /** One parameter frame: the `Object[]` a `CallMethodRule` pushed, a slot
      per declared parameter, `None` for a slot still `null`. */
  type Frame = seq<Option<Value>>

  /** What `begin` reads of the digester: the current match path (`null`
      possible) and the parameter stack, its top frame LAST. */
  datatype Context = Context(currentMatch: Option<string>, params: seq<Frame>)

  /** An element attribute; `begin` ignores them. */
  datatype Attribute = Attribute(qName: string, value: string)

  /** The exceptions the unchecked write can throw: `peekParams` yields no
      frame on an empty stack, or `paramIndex` lies outside the top frame. */
  datatype Exception =
    | NullPointerException
    | ArrayIndexOutOfBoundsException(index: int32, length: nat)

  datatype PathCallParamRule = PathCallParamRule(paramIndex: int32)

  /** The constructor: the zero-relative parameter number, kept verbatim. */
  function NewPathCallParamRule(paramIndex: int32): (r: PathCallParamRule)
    ensures r.paramIndex == paramIndex
  {
    PathCallParamRule(paramIndex)
  }

  function Top(ctx: Context): Frame
    requires |ctx.params| > 0
  {
    ctx.params[|ctx.params| - 1]
  }

  /** The write in `begin` cannot fail: a frame exists and the index lies
      inside it. */
  predicate CanStore(rule: PathCallParamRule, ctx: Context) {
    |ctx.params| > 0 && 0 <= rule.paramIndex as int < |Top(ctx)|
  }

  /** `begin(namespace, name, attributes)`: with a non-null match path, the
      path is stored at slot `paramIndex` of the top frame and nothing else
      changes; with a null path nothing changes at all, whatever the stack.
      The write is unchecked, so an empty stack or an index outside the top
      frame ends in the exception the array access throws. */
  function Begin(rule: PathCallParamRule, ctx: Context, namespace: string, name: string, attributes: seq<Attribute>)
    : (r: Result<Context, Exception>)
    ensures ctx.currentMatch.None? ==> r == Success(ctx)
    ensures r.Success? <==> ctx.currentMatch.None? || CanStore(rule, ctx)
    ensures ctx.currentMatch.Some? && |ctx.params| == 0 ==> r == Failure(NullPointerException)
    ensures ctx.currentMatch.Some? && |ctx.params| > 0 && !CanStore(rule, ctx) ==>
      r == Failure(ArrayIndexOutOfBoundsException(rule.paramIndex, |Top(ctx)|))
    ensures r.Success? ==> r.value.currentMatch == ctx.currentMatch
    ensures r.Success? ==> |r.value.params| == |ctx.params|
    ensures r.Success? ==>
      forall j :: 0 <= j < |ctx.params| - 1 ==> r.value.params[j] == ctx.params[j]
    ensures r.Success? && ctx.currentMatch.Some? ==>
      var top := Top(r.value);
      && |top| == |Top(ctx)|
      && top[rule.paramIndex] == Some(Text(ctx.currentMatch.value))
      && (forall k :: 0 <= k < |top| && k != rule.paramIndex as int ==> top[k] == Top(ctx)[k])
  {
    match ctx.currentMatch
    case None => Success(ctx)
    case Some(path) =>
      if |ctx.params| == 0 then
        Failure(NullPointerException)
      else if !(0 <= rule.paramIndex as int < |Top(ctx)|) then
        Failure(ArrayIndexOutOfBoundsException(rule.paramIndex, |Top(ctx)|))
      else
        var top := Top(ctx)[rule.paramIndex := Some(Text(path))];
        Success(ctx.(params := ctx.params[|ctx.params| - 1 := top]))
  }

  /** The content of slot `k` of frame `j`, `None` where there is no such
      slot. */
  function Slot(ctx: Context, j: int, k: int): Option<Value> {
    if 0 <= j < |ctx.params| && 0 <= k < |ctx.params[j]| then ctx.params[j][k] else None
  }

  /** Slot by slot: `begin` writes the match path into exactly one slot, the
      rule's slot of the top frame, and leaves every other slot of every
      frame as it was. */
  lemma BeginSlots(rule: PathCallParamRule, ctx: Context, namespace: string, name: string,
                   attributes: seq<Attribute>, j: int, k: int)
    requires ctx.currentMatch.Some? && CanStore(rule, ctx)
    ensures Begin(rule, ctx, namespace, name, attributes).Success?
    ensures Slot(Begin(rule, ctx, namespace, name, attributes).value, j, k)
         == if j == |ctx.params| - 1 && k == rule.paramIndex as int
            then Some(Text(ctx.currentMatch.value))
            else Slot(ctx, j, k)
  {
  }

  /** Running `begin` a second time on its own result changes nothing more. */
  lemma BeginIdempotent(rule: PathCallParamRule, ctx: Context, namespace: string, name: string,
                        attributes: seq<Attribute>)
    requires Begin(rule, ctx, namespace, name, attributes).Success?
    ensures Begin(rule, Begin(rule, ctx, namespace, name, attributes).value, namespace, name, attributes)
         == Begin(rule, ctx, namespace, name, attributes)
  {
    var once := Begin(rule, ctx, namespace, name, attributes).value;
    if ctx.currentMatch.Some? {
      var top := Top(once);
      assert top[rule.paramIndex := Some(Text(ctx.currentMatch.value))] == top;
      assert once.params[|once.params| - 1 := top] == once.params;
    }
  }

  /** The outcome depends on the rule and the digester only: the element's
      namespace, name and attributes play no part. */
  lemma BeginIgnoresElement(rule: PathCallParamRule, ctx: Context,
                            namespace1: string, name1: string, attributes1: seq<Attribute>,
                            namespace2: string, name2: string, attributes2: seq<Attribute>)
    ensures Begin(rule, ctx, namespace1, name1, attributes1) == Begin(rule, ctx, namespace2, name2, attributes2)
  {
  }

  const ToStringPrefix := "PathCallParamRule[paramIndex="

  /** `toString`: the class name, then `paramIndex=` and the index in
      decimal, in square brackets. The index can be read back from the
      text between the prefix and the closing bracket. */
  function ToString(rule: PathCallParamRule): (s: string)
    ensures |s| > |ToStringPrefix| + 1
    ensures s[..|ToStringPrefix|] == ToStringPrefix
    ensures s[|s| - 1] == ']'
    ensures CanonicalDecimal(s[|ToStringPrefix|..|s| - 1])
    ensures ParseDecimal(s[|ToStringPrefix|..|s| - 1]) == Some(rule.paramIndex as int)
  {
    var digits := IntToDecimal(rule.paramIndex as int);
    var s := ToStringPrefix + digits + "]";
    assert s[|ToStringPrefix|..|s| - 1] == digits;
    s
  }

  /** The shape `ToString` promises fixes the text completely: any string
      of that shape for a given index is exactly the prefix, `Integer`'s
      decimal rendering of the index, and `]`. */
  lemma ToStringShapeIsExact(rule: PathCallParamRule, s: string)
    requires |s| > |ToStringPrefix| + 1
    requires s[..|ToStringPrefix|] == ToStringPrefix && s[|s| - 1] == ']'
    requires CanonicalDecimal(s[|ToStringPrefix|..|s| - 1])
    requires ParseDecimal(s[|ToStringPrefix|..|s| - 1]) == Some(rule.paramIndex as int)
    ensures s == ToStringPrefix + IntToDecimal(rule.paramIndex as int) + "]"
  {
    var middle := s[|ToStringPrefix|..|s| - 1];
    CanonicalDecimalUnique(middle);
    assert s == s[..|ToStringPrefix|] + middle + [s[|s| - 1]];
  }

  /** Reads the index back out of a rendering; `None` for any other text. */
  function ParseToString(s: string): (r: Option<int32>)
  {
    if |s| > |ToStringPrefix| + 1 && s[..|ToStringPrefix|] == ToStringPrefix && s[|s| - 1] == ']' then
      match ParseDecimal(s[|ToStringPrefix|..|s| - 1])
      case Some(n) => if -0x8000_0000 <= n < 0x8000_0000 then Some(n as int32) else None
      case None => None
    else
      None
  }

  /** The index can always be read back from the rendering. */
  lemma ToStringRoundTrip(rule: PathCallParamRule)
    ensures ParseToString(ToString(rule)) == Some(rule.paramIndex)
  {
  }

  /** Two rules render alike exactly when they are the same rule. */
  lemma ToStringInjective(r1: PathCallParamRule, r2: PathCallParamRule)
    ensures ToString(r1) == ToString(r2) <==> r1 == r2
  {
  }
}
