/**
 * The arm tables of `const_arr!` and `make_const_arr!`.
 *
 * A call is abstracted to the comma-separated arguments between the macro's
 * parentheses, each classified by the syntactic shape that decides which
 * fragment specifiers (`ty`, `ident`, `literal`, `tt`, closure forms) it can
 * match, plus whether a trailing comma follows the last argument.  Each macro
 * is an ordered list of arms; the first arm whose pattern matches decides the
 * outcome, as `macro_rules!` does.
 */
module MacroArms {
  import opened ArrayInit

  datatype Option<T> = None | Some(value: T)

  /** What stands after the `;` inside square brackets. */
  datatype SizeForm =
    | Unsized          // `[T]`
    | EmptySize        // `[T;]`
    | LiteralSize      // `[T; 5]`
    | NonLiteralSize   // `[T; N]` with `N` a constant name or an expression

  /** The parameter list of a closure-like argument. */
  datatype ParamForm =
    | NoParam          // `||`
    | NamedParam       // `|i|`
    | IgnoredParam     // `|_|`
    | OtherParams      // `|a, b|`, `|i: usize|`

  /** What follows the parameter list of a closure-like argument. */
  datatype BodyForm =
    | NoBody           // nothing
    | OneTree          // a single token tree: `i`, `5`, `(i / 2)`, `{ ... }`
    | SeveralTrees     // an expression of several token trees: `i as i32 + 1`

  /** One argument of a call. */
  datatype Arg =
    | Ident                                    // `ARR`, `i32`, `to_i32_plus_one`
    | Literal                                  // `5`, `"x"`: one token
    | NegativeLiteral                          // `-5`: a literal of two tokens
    | Bracketed(size: SizeForm)                // `[T]`, `[T;]`, `[T; 5]`, `[T; N]` with `T` a type
    | CompoundType                             // a type of several tokens: `&str`, `Vec<u8>`
    | Closure(param: ParamForm, body: BodyForm)
    | Group(isType: bool)                      // one delimited group `( ... )` or `{ ... }`, or a
                                               // `[ ... ]` whose contents cannot begin a type, such
                                               // as `[1; 5]`; `isType` for a parenthesised or tuple
                                               // type `(i32, u8)`
    | CompoundExpr                             // any other expression of several tokens: `4 / 2`, `f(3)`

  datatype Call = Call(args: seq<Arg>, trailingComma: bool)

  /** `[$t:ty]`, `[$t:ty;]` or `[$t:ty; $s:literal]`. */
  datatype SizeFragment = NoSizeFragment | EmptySizeFragment | LiteralSizeFragment

  /** One position of an arm's pattern. */
  datatype Fragment =
    | TypeFragment                      // `$x:ty`
    | IdentFragment                     // `$x:ident`
    | LiteralFragment                   // `$x:literal`
    | TreeFragment                      // `$x:tt`
    | ArrayTypeFragment(size: SizeFragment)
    | NamedClosureFragment              // `|$name:ident| $body:expr`
    | IgnoredClosureFragment            // `|_| $body:expr`
    | BarsFragment                      // `||`
    | BarsTreeFragment                  // `|| $w:tt`
    | TreeClosureFragment               // `|$p:tt| $b:tt`

  /** The kinds of `compile_error!` message the crate emits. */
  datatype Diagnostic =
    | SpecifyArrayName        // "Please specify array name ARR_NAME"
    | SpecifyArrayType        // "Please specify array type TYPE"
    | SpecifyInitFn           // "Please specify init function INIT_FN"
    | InitFnWrongFormat       // "Init function has wrong format. It should be |i| i"
    | AddIgnoredParam         // "Please add |_| to last argument to turn it to closure"
    | ArrayTypeWrongFormat    // "Array type has wrong format. It should be [TYPE; SIZE]"
    | AddSize                 // "Please add SIZE to array type"

  /**
   * The result of expanding a call: an array built by one of the accepting
   * arms, one of the crate's diagnostics, or a rejection by the compiler
   * itself (no arm matches).
   */
  datatype Outcome = Accepted(kind: InitKind) | Rejected(diagnostic: Diagnostic) | NoRuleMatched

  /** What an arm does: produce an outcome, or invoke the macro again without the trailing comma. */
  datatype Action = Emit(outcome: Outcome) | ReinvokeWithoutTrailingComma

  datatype Arm = Arm(pattern: seq<Fragment>, trailingComma: bool, action: Action)

  /** Arguments that parse as a type. `[T;]` does not. */
  predicate IsType(a: Arg)
  {
    a.Ident? || a.CompoundType? || (a.Bracketed? && a.size != EmptySize) || a == Group(true)
  }

  /** Arguments that are a single token tree (`||` is one token, a delimited group is one tree). */
  predicate IsTree(a: Arg)
  {
    a.Ident? || a.Literal? || a.Bracketed? || a.Group? || a == Closure(NoParam, NoBody)
  }

  /** Arguments that a `literal` fragment takes, a leading minus sign included. */
  predicate IsLiteral(a: Arg)
  {
    a.Literal? || a.NegativeLiteral?
  }

  predicate SizeMatches(s: SizeFragment, f: SizeForm)
  {
    match s
    case NoSizeFragment => f == Unsized
    case EmptySizeFragment => f == EmptySize
    case LiteralSizeFragment => f == LiteralSize
  }

  predicate FragmentMatches(p: Fragment, a: Arg)
  {
    match p
    case TypeFragment => IsType(a)
    case IdentFragment => a.Ident?
    case LiteralFragment => IsLiteral(a)
    case TreeFragment => IsTree(a)
    case ArrayTypeFragment(s) => a.Bracketed? && SizeMatches(s, a.size)
    case NamedClosureFragment => a.Closure? && a.param == NamedParam && a.body != NoBody
    case IgnoredClosureFragment => a.Closure? && a.param == IgnoredParam && a.body != NoBody
    case BarsFragment => a == Closure(NoParam, NoBody)
    case BarsTreeFragment => a == Closure(NoParam, OneTree)
    case TreeClosureFragment => a.Closure? && (a.param == NamedParam || a.param == IgnoredParam) && a.body == OneTree
  }

  predicate Matches(arm: Arm, c: Call)
  {
    arm.trailingComma == c.trailingComma &&
    |arm.pattern| == |c.args| &&
    forall i {:trigger c.args[i]} :: 0 <= i < |c.args| ==> FragmentMatches(arm.pattern[i], c.args[i])
  }

  /** The initializer forms the documentation gives: a function name, `|i| expr` or `|_| expr`. */
  function InitForm(a: Arg): Option<InitKind>
  {
    match a
    case Ident => Some(NamedFn)
    case Closure(NamedParam, body) => if body == NoBody then None else Some(BoundClosure)
    case Closure(IgnoredParam, body) => if body == NoBody then None else Some(IgnoredClosure)
    case _ => None
  }

  /** The index of the first arm, from `from` on, whose pattern matches the call. */
  function FirstMatchFrom(arms: seq<Arm>, c: Call, from: nat): (r: Option<nat>)
    requires from <= |arms|
    ensures r.Some? ==> from <= r.value < |arms| && Matches(arms[r.value], c)
    ensures r.Some? ==> forall j :: from <= j < r.value ==> !Matches(arms[j], c)
    ensures r.None? ==> forall j :: from <= j < |arms| ==> !Matches(arms[j], c)
    decreases |arms| - from
  {
    if from == |arms| then None
    else if Matches(arms[from], c) then Some(from)
    else FirstMatchFrom(arms, c, from + 1)
  }

  function FirstMatch(arms: seq<Arm>, c: Call): Option<nat>
  {
    FirstMatchFrom(arms, c, 0)
  }

  /** If arm `k` matches and no earlier arm does, arm `k` is the one chosen. */
  lemma FirstMatchIs(arms: seq<Arm>, c: Call, k: nat)
    requires k < |arms| && Matches(arms[k], c)
    requires forall j :: 0 <= j < k ==> !Matches(arms[j], c)
    ensures FirstMatch(arms, c) == Some(k)
  {
  }

  /**
   * Expansion of a call against an arm table.  An arm that re-invokes the
   * macro on the same tokens would recurse until the compiler's recursion
   * limit, which is a rejection by the compiler.  The first arm matching the
   * call decides: its outcome, or the expansion of the call without its
   * trailing comma; and every outcome other than a rejection by the compiler
   * is what the first arm matching the call, or the call without its
   * trailing comma, emits.
   */
  function Expand(arms: seq<Arm>, c: Call): (r: Outcome)
    ensures FirstMatch(arms, c).None? ==> r == NoRuleMatched
    ensures FirstMatch(arms, c).Some? && arms[FirstMatch(arms, c).value].action.Emit? ==>
      r == arms[FirstMatch(arms, c).value].action.outcome
    ensures FirstMatch(arms, c).Some? && arms[FirstMatch(arms, c).value].action == ReinvokeWithoutTrailingComma ==>
      r == if c.trailingComma then Expand(arms, c.(trailingComma := false)) else NoRuleMatched
    ensures r != NoRuleMatched ==>
      exists i :: 0 <= i < |arms| && arms[i].action == Emit(r) &&
        (FirstMatch(arms, c) == Some(i) || (c.trailingComma && FirstMatch(arms, c.(trailingComma := false)) == Some(i)))
    decreases if c.trailingComma then 1 else 0
  {
    match FirstMatch(arms, c)
    case None => NoRuleMatched
    case Some(i) =>
      match arms[i].action
      case Emit(o) => o
      case ReinvokeWithoutTrailingComma =>
        if c.trailingComma then Expand(arms, c.(trailingComma := false)) else NoRuleMatched
  }
}
