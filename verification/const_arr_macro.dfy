/** The arms of `const_arr!`, in source order, and what they do with each call shape. */
module ConstArrMacro {
  import opened ArrayInit
  import opened MacroArms

  /** `const_arr!([TYPE; SIZE], INIT_FN)`: three accepting arms, then the diagnostic arms. */
  const Arms: seq<Arm> := [
    Arm([ArrayTypeFragment(LiteralSizeFragment), IdentFragment], false, Emit(Accepted(NamedFn))),
    Arm([ArrayTypeFragment(LiteralSizeFragment), NamedClosureFragment], false, Emit(Accepted(BoundClosure))),
    Arm([ArrayTypeFragment(LiteralSizeFragment), IgnoredClosureFragment], false, Emit(Accepted(IgnoredClosure))),
    Arm([], false, Emit(Rejected(SpecifyArrayType))),
    Arm([ArrayTypeFragment(LiteralSizeFragment)], false, Emit(Rejected(SpecifyInitFn))),
    Arm([ArrayTypeFragment(LiteralSizeFragment)], true, Emit(Rejected(SpecifyInitFn))),
    Arm([ArrayTypeFragment(LiteralSizeFragment), BarsFragment], false, Emit(Rejected(InitFnWrongFormat))),
    Arm([ArrayTypeFragment(LiteralSizeFragment), BarsTreeFragment], false, Emit(Rejected(InitFnWrongFormat))),
    Arm([ArrayTypeFragment(LiteralSizeFragment), LiteralFragment], false, Emit(Rejected(AddIgnoredParam))),
    Arm([TypeFragment], false, Emit(Rejected(ArrayTypeWrongFormat))),
    Arm([TypeFragment], true, Emit(Rejected(ArrayTypeWrongFormat))),
    Arm([TypeFragment, LiteralFragment], false, Emit(Rejected(ArrayTypeWrongFormat))),
    Arm([TypeFragment, LiteralFragment, TreeFragment], false, Emit(Rejected(ArrayTypeWrongFormat))),
    Arm([TypeFragment, LiteralFragment, TreeClosureFragment], false, Emit(Rejected(ArrayTypeWrongFormat)))
  ]

  /**
   * The table's structure: every arm emits an outcome, the first three accept
   * and only a call whose first argument is `[T; literal]` can reach them, and
   * every later arm rejects with one of the crate's diagnostics.
   */
  lemma ArmOutcomes()
    ensures |Arms| == 14
    ensures forall i :: 0 <= i < |Arms| ==> Arms[i].action.Emit?
    ensures forall i :: 0 <= i < |Arms| ==> (Arms[i].action.outcome.Accepted? <==> i < 3)
    ensures forall i :: 0 <= i < 3 ==> Arms[i].pattern[0] == ArrayTypeFragment(LiteralSizeFragment)
    ensures forall i :: 3 <= i < |Arms| ==> Arms[i].action.outcome.Rejected?
  {
  }

  /** The documented call `const_arr!([TYPE; SIZE], INIT_FN)`, and the initializer kind it names. */
  function DocumentedForm(c: Call): Option<InitKind>
  {
    if !c.trailingComma && |c.args| == 2 && c.args[0] == Bracketed(LiteralSize) then InitForm(c.args[1]) else None
  }

  /**
   * A call is accepted exactly when it has the documented form, and then with
   * the initializer kind that form names; every other call is rejected.
   */
  lemma AcceptsExactlyDocumentedForm(c: Call)
    ensures Expand(Arms, c).Accepted? <==> DocumentedForm(c).Some?
    ensures Expand(Arms, c).Accepted? ==> Expand(Arms, c).kind == DocumentedForm(c).value
  {
    match DocumentedForm(c)
    case Some(k) =>
      assert c.args[0] == Bracketed(LiteralSize) && c.args[1] == c.args[1];
      FirstMatchIs(Arms, c, if k == NamedFn then 0 else if k == BoundClosure then 1 else 2);
    case None =>
      UndocumentedNotAccepted(c);
  }

  lemma UndocumentedNotAccepted(c: Call)
    requires DocumentedForm(c).None?
    ensures !Expand(Arms, c).Accepted?
  {
    var r := FirstMatch(Arms, c);
    if r.Some? && r.value < 3 {
      assert c.args[0] == c.args[0] && c.args[1] == c.args[1];
    }
  }

  /** `const_arr!()` asks for the array type. */
  lemma NoArguments()
    ensures Expand(Arms, Call([], false)) == Rejected(SpecifyArrayType)
  {
    FirstMatchIs(Arms, Call([], false), 3);
  }

  /** `const_arr!([T; N])` and `const_arr!([T; N], )` ask for the init function. */
  lemma MissingInit(trailingComma: bool)
    ensures Expand(Arms, Call([Bracketed(LiteralSize)], trailingComma)) == Rejected(SpecifyInitFn)
  {
    var c := Call([Bracketed(LiteralSize)], trailingComma);
    assert c.args[0] == Bracketed(LiteralSize);
    FirstMatchIs(Arms, c, if trailingComma then 5 else 4);
  }

  /** `const_arr!([T; N], ||)` and `const_arr!([T; N], || x)` get "wrong format". */
  lemma ClosureWithoutParameter(body: BodyForm)
    requires body == NoBody || body == OneTree
    ensures Expand(Arms, Call([Bracketed(LiteralSize), Closure(NoParam, body)], false)) == Rejected(InitFnWrongFormat)
  {
    var c := Call([Bracketed(LiteralSize), Closure(NoParam, body)], false);
    assert c.args[0] == Bracketed(LiteralSize) && c.args[1] == Closure(NoParam, body);
    FirstMatchIs(Arms, c, if body == NoBody then 6 else 7);
  }

  /** `const_arr!([T; N], 5)` and `const_arr!([T; N], -5)` are told to wrap the literal in `|_|`. */
  lemma LiteralInit(lit: Arg)
    requires IsLiteral(lit)
    ensures Expand(Arms, Call([Bracketed(LiteralSize), lit], false)) == Rejected(AddIgnoredParam)
  {
    var c := Call([Bracketed(LiteralSize), lit], false);
    assert c.args[0] == Bracketed(LiteralSize) && c.args[1] == lit;
    FirstMatchIs(Arms, c, 8);
  }

  /** A type that is not `[T; literal]`, alone or with a trailing comma, gets "wrong array type". */
  lemma TypeWithoutSize(a: Arg, trailingComma: bool)
    requires IsType(a) && a != Bracketed(LiteralSize)
    ensures Expand(Arms, Call([a], trailingComma)) == Rejected(ArrayTypeWrongFormat)
  {
    var c := Call([a], trailingComma);
    assert c.args[0] == a;
    FirstMatchIs(Arms, c, if trailingComma then 10 else 9);
  }

  /** `const_arr!(i32, 5)`: the size written as a separate argument gets "wrong array type". */
  lemma TypeThenSize(a: Arg, size: Arg)
    requires IsType(a) && a != Bracketed(LiteralSize)
    requires IsLiteral(size)
    ensures Expand(Arms, Call([a, size], false)) == Rejected(ArrayTypeWrongFormat)
  {
    var c := Call([a, size], false);
    assert c.args[0] == a && c.args[1] == size;
    FirstMatchIs(Arms, c, 11);
  }

  /**
   * `const_arr!(i32, 5, f)`, `const_arr!(i32, 5, { f })` and
   * `const_arr!(i32, 5, |i| i)` get "wrong array type" (a one-token-tree
   * initializer only).
   */
  lemma TypeSizeInit(a: Arg, size: Arg, init: Arg)
    requires IsType(a) && IsLiteral(size)
    requires IsTree(init) || FragmentMatches(TreeClosureFragment, init)
    ensures Expand(Arms, Call([a, size, init], false)) == Rejected(ArrayTypeWrongFormat)
  {
    var c := Call([a, size, init], false);
    assert c.args[0] == a && c.args[1] == size && c.args[2] == init;
    if IsTree(init) {
      assert Matches(Arms[12], c);
      FirstMatchIs(Arms, c, 12);
    } else {
      assert Matches(Arms[13], c);
      FirstMatchIs(Arms, c, 13);
    }
  }
}
