/**
 * The concrete arrays that the crate's documentation and its tests assert,
 * stated about the engine's specification.
 */
module DocExamples {
  import opened ArrayInit

  /** A record type that is not `Copy`. */
  datatype User = User(id: nat)

  /** The tests' `div_2`: half the index, rounded down. */
  function DivTwo(n: nat): int
  {
    n / 2
  }

  /** The documentation's `to_i32_plus_one`: the index plus one. */
  function ToI32PlusOne(n: nat): int
  {
    n + 1
  }

  /** The tests' `create_user`: the user whose id is the index. */
  function CreateUser(n: nat): User
  {
    User(n)
  }

  /** `const_arr!([i32; 5], |i| i as i32 + 1)` is `[1, 2, 3, 4, 5]`. */
  lemma PlusOneOverFive()
    ensures Materialize(5, Indexed(i => i + 1)) == [1, 2, 3, 4, 5]
  {
    TabulateSlots(5, (i: nat) => i + 1);
  }

  /** `const_arr!([i32; 5], to_i32_plus_one)` is `[1, 2, 3, 4, 5]` too. */
  lemma PlusOneNamedOverFive()
    ensures Materialize(5, Named(ToI32PlusOne)) == [1, 2, 3, 4, 5]
  {
    TabulateSlots(5, ToI32PlusOne);
  }

  /**
   * `make_const_arr!(ARR1, [i32; 5], |i| i as i32 + 1)` and
   * `make_const_arr!(ARR2, [i32; 5], to_i32_plus_one)` both declare
   * `[1, 2, 3, 4, 5]`.
   */
  method DeclarePlusOne() returns (arr1: ConstDecl<int>, arr2: ConstDecl<int>)
    ensures arr1 == ConstDecl("ARR1", 5, [1, 2, 3, 4, 5])
    ensures arr2 == ConstDecl("ARR2", 5, [1, 2, 3, 4, 5])
  {
    var evaluations;
    arr1, evaluations := MakeConstArr("ARR1", 5, Indexed(i => i + 1));
    PlusOneOverFive();
    arr2, evaluations := MakeConstArr("ARR2", 5, Named(ToI32PlusOne));
    PlusOneNamedOverFive();
  }

  /** `div_2` and `|i| i as i32 / 2` over 3 slots both give `[0, 0, 1]`. */
  lemma HalvesOverThree()
    ensures Materialize(3, Named(DivTwo)) == [0, 0, 1]
    ensures Materialize(3, Indexed(i => i / 2)) == [0, 0, 1]
  {
    TabulateSlots(3, DivTwo);
    TabulateSlots(3, (i: nat) => i / 2);
  }

  /** `|_| 4 / 2` over 3 slots gives `[2, 2, 2]`. */
  lemma ConstantOverThree()
    ensures Materialize(3, Ignored(4 / 2)) == [2, 2, 2]
  {
  }

  /** `create_user` and `|i| User { id: i as u32 }` give users 0, 1 and 2. */
  lemma UsersByIndex()
    ensures Materialize(3, Named(CreateUser)) == [User(0), User(1), User(2)]
    ensures Materialize(3, Indexed(i => User(i))) == [User(0), User(1), User(2)]
  {
    TabulateSlots(3, CreateUser);
    TabulateSlots(3, (i: nat) => User(i));
  }

  /** `|_| User { id: 1 }` replicates the one user into every slot. */
  lemma UserReplicated()
    ensures Materialize(3, Ignored(User(1))) == [User(1), User(1), User(1)]
  {
  }
}
