# const-array-init, modelled in Dafny

The crate provides two `macro_rules!` macros that build a fixed-size array in a
`const` context from an index-to-element mapping:

- `const_arr!([TYPE; SIZE], INIT_FN)` expands to an array expression;
- `make_const_arr!(NAME, [TYPE; SIZE], INIT_FN)` expands to
  `const NAME: [TYPE; SIZE] = …;` with the same array as its value.

`INIT_FN` is a `const fn` name, a closure `|i| body` or a closure `|_| body`.
Every other call shape is rejected, most of them by a `compile_error!` arm
with a message saying what is missing.

The model has two halves.

- **The array engine** (`array_init.dfy`, module `ArrayInit`). The accepting
  arms expand to a placeholder-then-overwrite algorithm. The initializer is
  evaluated at index 0, an array of `SIZE` copies of that placeholder is
  made, and a `while ind < SIZE` loop overwrites slot `ind` with the
  initializer at `ind`. `FillByIndex` is that loop over a Dafny `array<T>`.
  It is proved against `Tabulate`, a slot-by-slot reference definition. The
  `|_|` arm is a single array-repeat expression, `Replicate`. The
  macro's result is a Rust array value, so it is returned as a `seq<T>`.
  Each method also returns how many times the initializer was evaluated:
  `SIZE + 1` for the loop arms (slot 0 twice) and 1 for `|_|`.
- **The arm tables** (`macro_arms.dfy`, `const_arr_macro.dfy`,
  `make_const_arr_macro.dfy`). A call is abstracted to its comma-separated
  arguments plus a trailing-comma flag. Each argument is classified by the
  shape that decides which fragment specifiers it can match: identifier,
  one-token literal, negative literal (two tokens), bracketed type with or
  without a size, a delimited group `( … )` or `{ … }` (a type or not), a
  type of several tokens, a closure form, or another expression. Each macro is its arms, in source
  order, as data: a pattern of fragment matchers and an action. `Expand`
  picks the first matching arm, as `macro_rules!` does. The outcome is an
  accepted initializer kind, one of the crate's diagnostics (an enumeration
  of message kinds), or `NoRuleMatched` when the compiler itself rejects the
  call.

`doc_examples.dfy` (module `DocExamples`) states the arrays that the crate's
documentation and its tests assert.

## Model

| member | source | states |
|---|---|---|
| `ArrayInit.TabulateSlots` | src/lib.rs:116-121 | the reference array for `n` and `f` has exactly `n` slots and slot `k` is `f(k)` for every `k < n` |
| `ArrayInit.MaterializeSlots` | src/lib.rs:105-153 | for each of the three accepted initializer shapes, the array has `SIZE` slots and slot `k` holds the initializer's value at `k` (the single value for the index-ignoring closure) |
| `ArrayInit.SameSlotsSameArray` | src/lib.rs:105-147 | two initializers that agree on every index below `SIZE` build the same array, so a named function and a bound-parameter closure with the same mapping give equal arrays |
| `ArrayInit.IgnoredIsConstantFill` | src/lib.rs:149-153 | the index-ignoring closure's repeat of one value equals what the fill loop builds from a mapping that ignores its index |
| `ArrayInit.FillByIndex` | src/lib.rs:113-122 | the placeholder-fill-then-overwrite loop returns exactly `SIZE` slots with slot `k == f(k)`, equal to the reference array; the loop keeps slots `[0, ind)` overwritten and `[ind, SIZE)` at the placeholder `f(0)`, never indexes out of bounds, and for `SIZE == 0` never runs and returns the empty array; `f` is evaluated `SIZE + 1` times |
| `ArrayInit.ConstArr` | src/lib.rs:105-153 | the expansion of the accepting `const_arr!` arms: the named-function and bound-parameter closure arms build the reference array through the loop with `SIZE + 1` evaluations, the index-ignoring closure arm builds `SIZE` copies of its single value with one evaluation; which path runs is decided by the initializer kind the arm table accepts |
| `ArrayInit.MakeConstArr` | src/lib.rs:201-251 | the accepting `make_const_arr!` arms declare a constant with the given name and size whose value is the array `const_arr!` builds for the same size and initializer, with the same number of evaluations |
| `DocExamples.PlusOneOverFive` | src/lib.rs:13-14 | the closure `i => i + 1` over 5 slots gives `[1, 2, 3, 4, 5]` |
| `DocExamples.PlusOneNamedOverFive` | src/lib.rs:16-20 | the `const fn` `to_i32_plus_one` over 5 slots gives `[1, 2, 3, 4, 5]` |
| `DocExamples.DeclarePlusOne` | src/lib.rs:27-35 | `make_const_arr!` with the closure `i => i + 1` and with `to_i32_plus_one` declares `ARR1` and `ARR2` of size 5, both `[1, 2, 3, 4, 5]` |
| `DocExamples.HalvesOverThree` | tests/const_arr_tests.rs:3-18 | `div_2` and the closure `i => i / 2` over 3 slots both give `[0, 0, 1]` |
| `DocExamples.ConstantOverThree` | tests/const_arr_tests.rs:21-25 | the index-ignoring closure of `4 / 2` over 3 slots gives `[2, 2, 2]` |
| `DocExamples.UsersByIndex` | tests/const_arr_tests.rs:43-66 | `create_user` and the closure `i => User { id: i }` over 3 slots give users 0, 1 and 2 |
| `DocExamples.UserReplicated` | tests/const_arr_tests.rs:50-54 | the index-ignoring closure of `User { id: 1 }` over 3 slots gives three copies of user 1 |
| `MacroArms.FirstMatchFrom` | src/lib.rs:104-166 | the chosen arm matches the call and no arm before it does; when none is chosen, no arm matches |
| `MacroArms.FirstMatchIs` | src/lib.rs:104-166 | an arm that matches, with no earlier arm matching, is the one chosen |
| `MacroArms.Expand` | src/lib.rs:200-263 | the first arm matching the call decides the result: its emitted outcome, or for the comma-dropping re-invocation the expansion of the call without its trailing comma; a call no arm matches is rejected by the compiler; conversely every other outcome is emitted by the first arm matching the call or the call without its trailing comma |
| `ConstArrMacro.ArmOutcomes` | src/lib.rs:105-165 | the `const_arr!` table has 14 arms, all emitting; exactly the first three accept, each requires `[T; literal]` first, and every later arm emits a diagnostic |
| `ConstArrMacro.AcceptsExactlyDocumentedForm` | src/lib.rs:104-165 | `const_arr!` accepts a call if and only if it is `([TYPE; literal], INIT_FN)` with `INIT_FN` a name, a closure with a named parameter, or a closure whose parameter is `_`, and then with that initializer's kind; every other shape is rejected |
| `ConstArrMacro.NoArguments` | src/lib.rs:155 | `const_arr!()` gets the "specify array type" diagnostic |
| `ConstArrMacro.MissingInit` | src/lib.rs:156-157 | `([T; N])` and `([T; N], )` get the "specify init function" diagnostic |
| `ConstArrMacro.ClosureWithoutParameter` | src/lib.rs:158-159 | `[T; N]` followed by a parameterless closure, empty or with a one-token body, get the "init function has wrong format" diagnostic |
| `ConstArrMacro.LiteralInit` | src/lib.rs:160 | `([T; N], 5)` and `([T; N], -5)` get the distinct "add the index-ignoring closure bars" diagnostic |
| `ConstArrMacro.TypeWithoutSize` | src/lib.rs:161-162 | any type other than `[T; literal]`, tuple types such as `(i32, u8)` included, with or without a trailing comma, gets "array type has wrong format" |
| `ConstArrMacro.TypeThenSize` | src/lib.rs:163 | a type other than `[T; literal]` followed by a literal, negative or not, gets "array type has wrong format" |
| `ConstArrMacro.TypeSizeInit` | src/lib.rs:164-165 | a type, a literal and a single-token-tree initializer (a name, a literal, a group such as `{ f }`) or a closure with a one-tree body get "array type has wrong format" |
| `MakeConstArrMacro.ArmOutcomes` | src/lib.rs:201-263 | the `make_const_arr!` table has 16 arms; exactly the first three accept, each requires a name and `[T; literal]` first; the only arm that does not emit is the re-invocation for `(NAME, )`; every other arm emits a diagnostic |
| `MakeConstArrMacro.AcceptsExactlyDocumentedForm` | src/lib.rs:200-263 | `make_const_arr!` accepts a call if and only if it is `(NAME, [TYPE; literal], INIT_FN)` with one of the three initializer forms, and then with that initializer's kind |
| `MakeConstArrMacro.AcceptsWhatConstArrAccepts` | src/lib.rs:176-179 | `make_const_arr!(NAME, rest)` is accepted with a given initializer kind exactly when `const_arr!(rest)` is |
| `MakeConstArrMacro.MissingName` | src/lib.rs:252-253 | an empty call, or a literal (`5` or `-5`) in the name position, gets "specify array name" |
| `MakeConstArrMacro.NameOnly` | src/lib.rs:254-255 | `(NAME)` gets "specify array type", and so does `(NAME, )` through the re-invocation without the comma |
| `MakeConstArrMacro.MissingSize` | src/lib.rs:256-257 | `(NAME, [T])` and `(NAME, [T;])` get "add SIZE" |
| `MakeConstArrMacro.MissingInit` | src/lib.rs:258 | `(NAME, [T; N])` gets "specify init function" |
| `MakeConstArrMacro.LiteralInit` | src/lib.rs:259 | `(NAME, [T; N], 5)` and `(NAME, [T; N], -5)` get "add the index-ignoring closure bars" |
| `MakeConstArrMacro.TypeWithoutSize` | src/lib.rs:260 | a name and any other single token tree (such as `i32`, a group `(i32, u8)`, or `[T; N]` with a non-literal `N`) get "array type has wrong format" |
| `MakeConstArrMacro.TwoTreesAfterName` | src/lib.rs:261 | a name and two single token trees other than `[T; literal]` followed by a name or one-token literal get "array type has wrong format"; this includes `[T; N]` followed by a group such as `{ 2 }`, `[1; 5]` followed by a name, and a parameterless empty closure after `[T; N]` |
| `MakeConstArrMacro.TypeAndSizeApart` | src/lib.rs:261-263 | a name, two single token trees and a single-token-tree initializer (a name, a literal, a group) or a closure with a one-tree body get "array type has wrong format" |
| `MakeConstArrMacro.NegativeLiteralAfterName` | src/lib.rs:252-263 | `(NAME, -5)` matches no arm, because `-5` is two token trees and not an array type |
| `MakeConstArrMacro.IdentArmShadowed` | src/lib.rs:261-262 | the `($NAME, $_n1:tt, $_n2:tt, $_fn_name:ident)` arm is never the one chosen, because the `tt` arm before it matches every call it matches |

## Left out

- Token-level matching by `macro_rules!` is not modelled. Arguments are
  abstract shapes. A fragment that fails to parse (such as `[T;]` in a `ty`
  position), "no rules expected this token" and the recursion limit are
  all the single outcome `NoRuleMatched`.
- A delimited group `( … )` or `{ … }` is one argument shape whose contents
  are not modelled beyond whether it parses as a type. A square-bracket group
  whose contents cannot begin a type, such as `[1; 5]`, is the same shape
  (not a type), because `[$type:ty` then fails without a parse error; a parenthesised group
  that is not a type, in a `ty` position, is a parse error in the compiler
  and, like the other parse errors, `NoRuleMatched`.
- The value of the size literal is not part of a call's shape, because no
  arm depends on it. A non-integer literal in the size position matches the
  accepting arms and is then refused by the type checker; that is outside the
  model.
- The exact diagnostic texts, and the `compile_error!` mechanism, are left
  out. Each message is one constructor of `Diagnostic`.
- The compile-time evaluation environment is left out: the `const TEMP_ITEM`
  item, the missing `MaybeUninit`, `#[allow(non_upper_case_globals)]`, and
  panics during constant evaluation. The initializer is a total, pure Dafny
  function, so the second evaluation of slot 0 cannot be observed. The
  model counts evaluations instead.
- The index type `usize` and its width are left out: indices are `nat`.
  Conversions such as `i as i32` belong to the caller's initializer; the
  examples use unbounded integers, and all their values are small.
- `ArrayInit.MakeConstArr`: `make_const_arr!` repeats the expansion text of
  `const_arr!` instead of invoking it, for macro hygiene. The model shares
  one engine. Binding the constant's name in the caller's scope is
  represented only by the `ConstDecl` record.
