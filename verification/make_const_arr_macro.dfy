/** The arms of `make_const_arr!`, in source order, and what they do with each call shape. */
module MakeConstArrMacro {
  import opened ArrayInit
  import opened MacroArms
  import ConstArrMacro

  /** `make_const_arr!(NAME, [TYPE; SIZE], INIT_FN)`: three accepting arms, then the diagnostic arms. */
  const Arms: seq<Arm> := [
    Arm([IdentFragment, ArrayTypeFragment(LiteralSizeFragment), IdentFragment], false, Emit(Accepted(NamedFn))),
    Arm([IdentFragment, ArrayTypeFragment(LiteralSizeFragment), NamedClosureFragment], false, Emit(Accepted(BoundClosure))),
    Arm([IdentFragment, ArrayTypeFragment(LiteralSizeFragment), IgnoredClosureFragment], false, Emit(Accepted(IgnoredClosure))),
    Arm([], false, Emit(Rejected(SpecifyArrayName))),
    Arm([LiteralFragment], false, Emit(Rejected(SpecifyArrayName))),
    Arm([IdentFragment], false, Emit(Rejected(SpecifyArrayType))),
    Arm([IdentFragment], true, ReinvokeWithoutTrailingComma),
    Arm([IdentFragment, ArrayTypeFragment(NoSizeFragment)], false, Emit(Rejected(AddSize))),
    Arm([IdentFragment, ArrayTypeFragment(EmptySizeFragment)], false, Emit(Rejected(AddSize))),
    Arm([IdentFragment, ArrayTypeFragment(LiteralSizeFragment)], false, Emit(Rejected(SpecifyInitFn))),
    Arm([IdentFragment, ArrayTypeFragment(LiteralSizeFragment), LiteralFragment], false, Emit(Rejected(AddIgnoredParam))),
    Arm([IdentFragment, TreeFragment], false, Emit(Rejected(ArrayTypeWrongFormat))),
    Arm([IdentFragment, TreeFragment, TreeFragment], false, Emit(Rejected(ArrayTypeWrongFormat))),
    Arm([IdentFragment, TreeFragment, TreeFragment, TreeFragment], false, Emit(Rejected(ArrayTypeWrongFormat))),
    Arm([IdentFragment, TreeFragment, TreeFragment, IdentFragment], false, Emit(Rejected(ArrayTypeWrongFormat))),
    Arm([IdentFragment, TreeFragment, TreeFragment, TreeClosureFragment], false, Emit(Rejected(ArrayTypeWrongFormat)))
  ]

  /**
   * The table's structure: the first three arms accept, and only a call that
   * starts with a name and `[T; literal]` can reach them; the one arm that
   * does not emit is the re-invocation for `(NAME, )`; every other arm rejects
   * with one of the crate's diagnostics.
   */
  lemma ArmOutcomes()
    ensures |Arms| == 16
    ensures forall i :: 0 <= i < |Arms| ==> (Arms[i].action.Emit? <==> i != 6)
    ensures Arms[6] == Arm([IdentFragment], true, ReinvokeWithoutTrailingComma)
    ensures forall i :: 0 <= i < |Arms| && i != 6 ==> (Arms[i].action.outcome.Accepted? <==> i < 3)
    ensures forall i :: 0 <= i < 3 ==> Arms[i].pattern[..2] == [IdentFragment, ArrayTypeFragment(LiteralSizeFragment)]
    ensures forall i :: 3 <= i < |Arms| && i != 6 ==> Arms[i].action.outcome.Rejected?
  {
  }

  /** The documented call `make_const_arr!(NAME, [TYPE; SIZE], INIT_FN)`, and the initializer kind it names. */
  function DocumentedForm(c: Call): Option<InitKind>
  {
    if !c.trailingComma && |c.args| == 3 && c.args[0] == Ident && c.args[1] == Bracketed(LiteralSize)
    then InitForm(c.args[2])
    else None
  }

  /**
   * A call is accepted exactly when it has the documented form, and then with
   * the initializer kind that form names; every other call is rejected.
   */
  lemma AcceptsExactlyDocumentedForm(c: Call)
    ensures Expand(Arms, c).Accepted? <==> DocumentedForm(c).Some?
    ensures Expand(Arms, c).Accepted? ==> Expand(Arms, c).kind == DocumentedForm(c).value
  {
    match DocumentedForm(c)
    case Some(k) =>
      assert c.args[0] == Ident && c.args[1] == Bracketed(LiteralSize) && c.args[2] == c.args[2];
      FirstMatchIs(Arms, c, if k == NamedFn then 0 else if k == BoundClosure then 1 else 2);
    case None =>
      UndocumentedNotAccepted(c);
  }

  lemma UndocumentedNotAccepted(c: Call)
    requires DocumentedForm(c).None?
    ensures !Expand(Arms, c).Accepted?
  {
    var r := FirstMatch(Arms, c);
    if r.Some? {
      if r.value < 3 {
        AcceptingArmIsDocumented(c, r.value);
      } else {
        LaterArmNotAccepted(c, r.value);
      }
    }
  }

  lemma LaterArmNotAccepted(c: Call, i: nat)
    requires 3 <= i && FirstMatch(Arms, c) == Some(i)
    ensures !Expand(Arms, c).Accepted?
  {
    if i == 6 {
      assert c.args[0] == Ident;
      assert c == Call([Ident], true);
      NameOnly(true);
    } else {
      assert Arms[i].action.Emit? && !Arms[i].action.outcome.Accepted?;
    }
  }

  lemma AcceptingArmIsDocumented(c: Call, i: nat)
    requires i < 3 && Matches(Arms[i], c)
    ensures DocumentedForm(c).Some?
  {
    assert c.args[0] == c.args[0] && c.args[1] == c.args[1] && c.args[2] == c.args[2];
  }

  /**
   * The name argument is the only difference: `make_const_arr!(NAME, rest)` is
   * accepted, with a given initializer kind, exactly when `const_arr!(rest)` is.
   */
  lemma AcceptsWhatConstArrAccepts(args: seq<Arg>, trailingComma: bool, k: InitKind)
    ensures Expand(Arms, Call([Ident] + args, trailingComma)) == Accepted(k)
        <==> Expand(ConstArrMacro.Arms, Call(args, trailingComma)) == Accepted(k)
  {
    var c := Call([Ident] + args, trailingComma);
    var d := Call(args, trailingComma);
    AcceptsExactlyDocumentedForm(c);
    ConstArrMacro.AcceptsExactlyDocumentedForm(d);
    if |args| == 2 {
      assert c.args[1] == args[0] && c.args[2] == args[1];
    }
  }

  /** `make_const_arr!()`, `make_const_arr!(5)` and `make_const_arr!(-5)` ask for the array name. */
  lemma MissingName(args: seq<Arg>)
    requires args == [] || (|args| == 1 && IsLiteral(args[0]))
    ensures Expand(Arms, Call(args, false)) == Rejected(SpecifyArrayName)
  {
    var c := Call(args, false);
    if args != [] {
      assert c.args[0] == args[0];
      FirstMatchIs(Arms, c, 4);
    }
  }

  /**
   * `make_const_arr!(NAME)` asks for the array type, and so does
   * `make_const_arr!(NAME, )`, which re-invokes the macro without the comma.
   */
  lemma NameOnly(trailingComma: bool)
    ensures Expand(Arms, Call([Ident], trailingComma)) == Rejected(SpecifyArrayType)
  {
    var c := Call([Ident], false);
    assert c.args[0] == Ident;
    FirstMatchIs(Arms, c, 5);
    if trailingComma {
      var d := Call([Ident], true);
      assert d.args[0] == Ident;
      FirstMatchIs(Arms, d, 6);
    }
  }

  /** `make_const_arr!(NAME, [T])` and `make_const_arr!(NAME, [T;])` ask for the size. */
  lemma MissingSize(size: SizeForm)
    requires size == Unsized || size == EmptySize
    ensures Expand(Arms, Call([Ident, Bracketed(size)], false)) == Rejected(AddSize)
  {
    var c := Call([Ident, Bracketed(size)], false);
    assert c.args[0] == Ident && c.args[1] == Bracketed(size);
    FirstMatchIs(Arms, c, if size == Unsized then 7 else 8);
  }

  /** `make_const_arr!(NAME, [T; N])` asks for the init function. */
  lemma MissingInit()
    ensures Expand(Arms, Call([Ident, Bracketed(LiteralSize)], false)) == Rejected(SpecifyInitFn)
  {
    var c := Call([Ident, Bracketed(LiteralSize)], false);
    assert c.args[0] == Ident && c.args[1] == Bracketed(LiteralSize);
    FirstMatchIs(Arms, c, 9);
  }

  /** `make_const_arr!(NAME, [T; N], 5)` and `(NAME, [T; N], -5)` are told to wrap the literal in `|_|`. */
  lemma LiteralInit(lit: Arg)
    requires IsLiteral(lit)
    ensures Expand(Arms, Call([Ident, Bracketed(LiteralSize), lit], false)) == Rejected(AddIgnoredParam)
  {
    var c := Call([Ident, Bracketed(LiteralSize), lit], false);
    assert c.args[0] == Ident && c.args[1] == Bracketed(LiteralSize) && c.args[2] == lit;
    FirstMatchIs(Arms, c, 10);
  }

  /**
   * `make_const_arr!(NAME, i32)`, `make_const_arr!(NAME, (i32, u8))`,
   * `make_const_arr!(NAME, [T; N])` with a non-literal `N`, ...: "wrong array type".
   */
  lemma TypeWithoutSize(t: Arg)
    requires IsTree(t)
    requires t != Bracketed(Unsized) && t != Bracketed(EmptySize) && t != Bracketed(LiteralSize)
    ensures Expand(Arms, Call([Ident, t], false)) == Rejected(ArrayTypeWrongFormat)
  {
    var c := Call([Ident, t], false);
    assert c.args[0] == Ident && c.args[1] == t;
    FirstMatchIs(Arms, c, 11);
  }

  /**
   * Two single-token-tree arguments after the name, other than the forms
   * above, such as `make_const_arr!(NAME, [i32; 3], { 2 })`: "wrong array type".
   */
  lemma TwoTreesAfterName(t1: Arg, t2: Arg)
    requires IsTree(t1) && IsTree(t2)
    requires !(t1 == Bracketed(LiteralSize) && (t2 == Ident || t2 == Literal))
    ensures Expand(Arms, Call([Ident, t1, t2], false)) == Rejected(ArrayTypeWrongFormat)
  {
    var c := Call([Ident, t1, t2], false);
    assert c.args[0] == Ident && c.args[1] == t1 && c.args[2] == t2;
    FirstMatchIs(Arms, c, 12);
  }

  /** `make_const_arr!(NAME, i32, 5, f)` and `make_const_arr!(NAME, i32, 5, |i| i)`: "wrong array type". */
  lemma TypeAndSizeApart(t1: Arg, t2: Arg, init: Arg)
    requires IsTree(t1) && IsTree(t2)
    requires IsTree(init) || FragmentMatches(TreeClosureFragment, init)
    ensures Expand(Arms, Call([Ident, t1, t2, init], false)) == Rejected(ArrayTypeWrongFormat)
  {
    var c := Call([Ident, t1, t2, init], false);
    assert c.args[0] == Ident && c.args[1] == t1 && c.args[2] == t2 && c.args[3] == init;
    FirstMatchIs(Arms, c, if IsTree(init) then 13 else 15);
  }

  /**
   * `make_const_arr!(NAME, -5)`: no arm takes it.  `-5` is a literal of two
   * token trees, so the arms that want `[T; N]` or a single tree after the
   * name all fail on it.
   */
  lemma NegativeLiteralAfterName()
    ensures Expand(Arms, Call([Ident, NegativeLiteral], false)) == NoRuleMatched
  {
    var c := Call([Ident, NegativeLiteral], false);
    assert c.args[0] == Ident && c.args[1] == NegativeLiteral;
  }

  /** The arm `($NAME:ident, $_n1:tt, $_n2:tt, $_fn_name:ident)` is never chosen: the arm before it takes every call it matches. */
  lemma IdentArmShadowed(c: Call)
    ensures FirstMatch(Arms, c) != Some(14)
  {
    if Matches(Arms[14], c) {
      assert c.args[3] == c.args[3];
      assert Matches(Arms[13], c);
    }
  }
}
