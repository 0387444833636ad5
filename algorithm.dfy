/** `generic_min` and its two instances `max` and `min` (util/algorithm.ts).

    `generic_min(op)` returns a variadic function that scans its arguments left
    to right and replaces the running optimum `opt` with the current argument
    only when `op(x, opt)` is strictly true. */
module Algorithm {

  /** The running optimum after scanning `a` and then all of `b`. Defined on the
      prefix `b[..|b| - 1]` so that it matches the loop state after each step. */
  function FirstOpt<T>(op: (T, T) -> bool, a: T, b: seq<T>): T
    decreases |b|
  {
    if b == [] then a
    else
      var opt := FirstOpt(op, a, b[..|b| - 1]);
      if op(b[|b| - 1], opt) then b[|b| - 1] else opt
  }

  /** The loop of `generic_min(op)(a, ...b)`. */
  method GenericMin<T>(op: (T, T) -> bool, a: T, b: seq<T>) returns (opt: T)
    ensures opt == FirstOpt(op, a, b)
    ensures b == [] ==> opt == a
  {
    opt := a;
    for i := 0 to |b|
      invariant opt == FirstOpt(op, a, b[..i])
    {
      assert b[..i + 1][..i] == b[..i];
      if op(b[i], opt) {
        opt := b[i];
      }
    }
    assert b[..|b|] == b;
  }

  /** Whatever `op` is, the result is one of the arguments. */
  lemma {:induction false} FirstOptIsArgument<T>(op: (T, T) -> bool, a: T, b: seq<T>)
    ensures FirstOpt(op, a, b) == a || FirstOpt(op, a, b) in b
    decreases |b|
  {
    if b != [] {
      FirstOptIsArgument(op, a, b[..|b| - 1]);
    }
  }

  /** When `op` compares by a key with `>`, the result has the largest key, and no
      argument to its left reaches that key: it is the leftmost maximum. */
  lemma {:induction false} FirstOptIsLeftmostMax<T>(op: (T, T) -> bool, key: T -> int, a: T, b: seq<T>)
    requires forall x, y :: op(x, y) == (key(x) > key(y))
    ensures forall x :: x in [a] + b ==> key(x) <= key(FirstOpt(op, a, b))
    ensures exists k :: 0 <= k < |[a] + b| && ([a] + b)[k] == FirstOpt(op, a, b) &&
                        forall j :: 0 <= j < k ==> key(([a] + b)[j]) < key(FirstOpt(op, a, b))
    decreases |b|
  {
    var args := [a] + b;
    var r := FirstOpt(op, a, b);
    if b == [] {
      assert args[0] == r;
    } else {
      var init := b[..|b| - 1];
      var last := b[|b| - 1];
      var opt := FirstOpt(op, a, init);
      FirstOptIsLeftmostMax(op, key, a, init);
      assert args == ([a] + init) + [last];
      var k :| 0 <= k < |[a] + init| && ([a] + init)[k] == opt &&
               forall j :: 0 <= j < k ==> key(([a] + init)[j]) < key(opt);
      if op(last, opt) {
        assert args[|args| - 1] == r;
        forall j | 0 <= j < |args| - 1
          ensures key(args[j]) < key(r)
        {
          assert args[j] in [a] + init;
        }
      } else {
        assert args[k] == r;
        forall x | x in args
          ensures key(x) <= key(r)
        {
          if x != last {
            assert x in [a] + init;
          }
        }
      }
    }
  }

  /** `max(a, ...b)` over integers: the largest argument. */
  function Max(a: int, b: seq<int>): (r: int)
    ensures r == a || r in b
    ensures r >= a && forall x :: x in b ==> x <= r
  {
    var op := (x: int, y: int) => x > y;
    FirstOptIsArgument(op, a, b);
    FirstOptIsLeftmostMax(op, x => x, a, b);
    assert a in [a] + b && forall x :: x in b ==> x in [a] + b;
    FirstOpt(op, a, b)
  }

  /** `min(a, ...b)` over integers: the smallest argument. */
  function Min(a: int, b: seq<int>): (r: int)
    ensures r == a || r in b
    ensures r <= a && forall x :: x in b ==> r <= x
  {
    var op := (x: int, y: int) => x < y;
    FirstOptIsArgument(op, a, b);
    FirstOptIsLeftmostMax(op, x => -x, a, b);
    assert a in [a] + b && forall x :: x in b ==> x in [a] + b;
    FirstOpt(op, a, b)
  }
}
