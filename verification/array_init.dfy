/**
 * The array-filling engine that the accepting arms of `const_arr!` and
 * `make_const_arr!` expand to.
 *
 * A Rust array `[TYPE; SIZE]` is a value, so the result is modelled as a
 * `seq<T>`; the working copy that the expansion mutates (`let mut arr`) is a
 * Dafny `array<T>` local to the method that fills it.  The initializer is a
 * pure Dafny function from index to element.
 */
module ArrayInit {

  /** The three initializer shapes that the macros accept. */
  datatype Initializer<T> =
    | Named(f: nat -> T)         // `$func_name:ident`: a `const fn` from index to element
    | Indexed(body: nat -> T)    // `|$name:ident| $body:expr`: the body with `$name` bound to the index
    | Ignored(value: T)          // `|_| $body:expr`: the body, whose value does not depend on the index

  /** The initializer kinds an accepting arm expands, as the arm tables name them. */
  datatype InitKind = NamedFn | BoundClosure | IgnoredClosure

  /** The arm that accepts an initializer of this shape. */
  function KindOf<T>(init: Initializer<T>): InitKind
  {
    match init
    case Named(_) => NamedFn
    case Indexed(_) => BoundClosure
    case Ignored(_) => IgnoredClosure
  }

  /** What slot `k` of the array must hold for a given initializer. */
  function Eval<T>(init: Initializer<T>, k: nat): T
  {
    match init
    case Named(f) => f(k)
    case Indexed(body) => body(k)
    case Ignored(v) => v
  }

  /**
   * Reference definition of "the array whose slot k is f(k)", built one slot
   * at a time from the front, independently of the placeholder trick.
   */
  function Tabulate<T>(n: nat, f: nat -> T): seq<T>
  {
    if n == 0 then [] else Tabulate(n - 1, f) + [f(n - 1)]
  }

  /** The array-repeat expression `[v; n]`. */
  function Replicate<T>(n: nat, v: T): seq<T>
  {
    seq(n, _ => v)
  }

  /** The array an accepted call denotes. */
  function Materialize<T>(n: nat, init: Initializer<T>): seq<T>
  {
    match init
    case Named(f) => Tabulate(n, f)
    case Indexed(body) => Tabulate(n, body)
    case Ignored(v) => Replicate(n, v)
  }

  lemma {:induction false} TabulateSlots<T>(n: nat, f: nat -> T)
    ensures |Tabulate(n, f)| == n
    ensures forall k :: 0 <= k < n ==> Tabulate(n, f)[k] == f(k)
  {
    if n > 0 {
      TabulateSlots(n - 1, f);
    }
  }

  /** Every accepted shape yields exactly `n` slots, slot `k` holding the initializer at `k`. */
  lemma MaterializeSlots<T>(n: nat, init: Initializer<T>)
    ensures |Materialize(n, init)| == n
    ensures forall k :: 0 <= k < n ==> Materialize(n, init)[k] == Eval(init, k)
  {
    match init
    case Named(f) => TabulateSlots(n, f);
    case Indexed(body) => TabulateSlots(n, body);
    case Ignored(v) =>
  }

  /**
   * The array depends only on the values the initializer gives at the indices
   * `0 .. n-1`: a named function and a closure with the same mapping, or a
   * `|_|` closure and a `|i|` closure whose body ignores `i`, build the same
   * array.
   */
  lemma SameSlotsSameArray<T>(n: nat, a: Initializer<T>, b: Initializer<T>)
    requires forall k :: 0 <= k < n ==> Eval(a, k) == Eval(b, k)
    ensures Materialize(n, a) == Materialize(n, b)
  {
    MaterializeSlots(n, a);
    MaterializeSlots(n, b);
  }

  /** The `|_|` fast path builds what the fill loop would build from a constant body. */
  lemma {:induction false} IgnoredIsConstantFill<T>(n: nat, v: T)
    ensures Replicate(n, v) == Tabulate(n, _ => v)
  {
    if n > 0 {
      IgnoredIsConstantFill(n - 1, v);
      assert Replicate(n, v) == Replicate(n - 1, v) + [v];
    }
  }

  /**
   * Placeholder-then-overwrite: evaluate `f(0)` once, fill all `size` slots
   * with that placeholder, then overwrite slot `ind` with `f(ind)` for every
   * `ind` below `size`.  `evaluations` counts the calls of `f`.
   */
  method FillByIndex<T>(size: nat, f: nat -> T) returns (r: seq<T>, evaluations: nat)
    ensures r == Tabulate(size, f)
    ensures |r| == size && forall k :: 0 <= k < size ==> r[k] == f(k)
    ensures evaluations == size + 1
  {
    var placeholder := f(0);
    evaluations := 1;
    var arr := new T[size](_ => placeholder);
    var ind := 0;
    while ind < size
      invariant 0 <= ind <= size
      invariant arr[..ind] == Tabulate(ind, f)
      invariant forall k :: ind <= k < size ==> arr[k] == f(0)
      invariant evaluations == ind + 1
    {
      arr[ind] := f(ind);
      evaluations := evaluations + 1;
      ind := ind + 1;
      assert arr[..ind] == arr[..ind - 1] + [f(ind - 1)];
    }
    assert arr[..] == arr[..ind];
    r := arr[..];
    TabulateSlots(size, f);
  }

  /**
   * The expansion of an accepting `const_arr!` arm: the fill loop for a named
   * function or an `|i|` closure, a single array-repeat for a `|_|` closure.
   */
  method ConstArr<T>(size: nat, init: Initializer<T>) returns (r: seq<T>, evaluations: nat)
    ensures r == Materialize(size, init)
    ensures |r| == size && forall k :: 0 <= k < size ==> r[k] == Eval(init, k)
    ensures evaluations == if KindOf(init) == IgnoredClosure then 1 else size + 1
  {
    match init
    case Named(f) =>
      r, evaluations := FillByIndex(size, f);
    case Indexed(body) =>
      r, evaluations := FillByIndex(size, body);
    case Ignored(v) =>
      r, evaluations := Replicate(size, v), 1;
  }

  /** `const NAME: [TYPE; SIZE] = value;` */
  datatype ConstDecl<T> = ConstDecl(name: string, size: nat, value: seq<T>)

  /**
   * The expansion of an accepting `make_const_arr!` arm: a constant named
   * `name` of type `[TYPE; size]` whose value is what `const_arr!` builds.
   */
  method MakeConstArr<T>(name: string, size: nat, init: Initializer<T>) returns (decl: ConstDecl<T>, evaluations: nat)
    ensures decl.name == name && decl.size == size
    ensures decl.value == Materialize(size, init)
    ensures |decl.value| == decl.size
    ensures evaluations == if KindOf(init) == IgnoredClosure then 1 else size + 1
  {
    var value;
    value, evaluations := ConstArr(size, init);
    decl := ConstDecl(name, size, value);
  }
}
