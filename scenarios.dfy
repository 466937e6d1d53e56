/**
 Client scenarios of the curry transformer, each proved from the contracts of
 `Curry.Start` and `Curry.Inner.Step` alone. The first ones follow the unit tests
 of curry.py; the others pin down what the code does where a reader might expect
 otherwise: an all-at-once top-level call, a reused intermediate, a repeated call
 after completion, an overwritten keyword and a one-argument callable.
 */
module CurryScenarios {
  import opened Curry

  /** `curry(lambda a, b: a + b)(1)(2)` invokes on (1, 2). */
  method TwoArgs() returns (o: Outcome<string, int>)
    ensures o == Invoke([1, 2], map[])
  {
    var add := Curried(2, "<lambda>");
    var p := Start<string, int>(add, [1], map[]);
    o := p.Step([2], map[]);
  }

  /** `curry(lambda a, b, c: a + b + c)(1)(2)(3)`: the middle call continues, the last
      invokes on (1, 2, 3). */
  method ThreeArgs() returns (o1: Outcome<string, int>, o2: Outcome<string, int>)
    ensures o1 == Continue
    ensures o2 == Invoke([1, 2, 3], map[])
  {
    var add3 := Curried(3, "<lambda>");
    var p := Start<string, int>(add3, [1], map[]);
    o1 := p.Step([2], map[]);
    o2 := p.Step([3], map[]);
  }

  /** Two top-level calls of the same curried callable do not see each other's
      arguments: `add(1)` and `add(2)`, each then called with 1. */
  method ArgsDontPersist() returns (o1: Outcome<string, int>, o2: Outcome<string, int>)
    ensures o1 == Invoke([1, 1], map[])
    ensures o2 == Invoke([2, 1], map[])
  {
    var add := Curried(2, "<lambda>");
    var add1 := Start<string, int>(add, [1], map[]);
    var add2 := Start<string, int>(add, [2], map[]);
    o1 := add1.Step([1], map[]);
    o2 := add2.Step([1], map[]);
  }

  /** `curry(add)(1, 2)` returns the intermediate, holding both arguments, rather than
      invoking; only a further (empty) call invokes. */
  method AllAtOnce() returns (stored: Accumulation<string, int>, o: Outcome<string, int>)
    ensures stored == Accumulation([1, 2], map[])
    ensures Count(stored) == 2
    ensures o == Invoke([1, 2], map[])
  {
    var add := Curried(2, "add");
    var p := Start<string, int>(add, [1, 2], map[]);
    stored := p.State();
    o := p.Step([], map[]);
  }

  /** Branches of one intermediate share its state: after `p = add(1)`, the first
      `p(1)` invokes on (1, 1), and a second `p(1)` sees three stored arguments and
      returns the intermediate. */
  method SameIntermediateShared() returns (o1: Outcome<string, int>, o2: Outcome<string, int>, stored: Accumulation<string, int>)
    ensures o1 == Invoke([1, 1], map[])
    ensures o2 == Continue
    ensures stored == Accumulation([1, 1, 1], map[])
  {
    var add := Curried(2, "add");
    var p := Start<string, int>(add, [1], map[]);
    o1 := p.Step([1], map[]);
    o2 := p.Step([1], map[]);
    stored := p.State();
  }

  /** The state survives completion: calling the completing intermediate again with
      no arguments invokes a second time on the same arguments. */
  method RepeatedCompletion() returns (o1: Outcome<string, int>, o2: Outcome<string, int>)
    ensures o1 == Invoke([1, 2], map[])
    ensures o2 == o1
  {
    var add := Curried(2, "add");
    var p := Start<string, int>(add, [1], map[]);
    o1 := p.Step([2], map[]);
    o2 := p.Step([], map[]);
  }

  /** A keyword given again overwrites the stored value and does not raise the count:
      `add(a=1)(a=2)` continues, and `(b=3)` then invokes with a=2, b=3. */
  method KeywordOverwrite() returns (o1: Outcome<string, int>, o2: Outcome<string, int>)
    ensures o1 == Continue
    ensures o2 == Invoke([], map["a" := 2, "b" := 3])
  {
    var add := Curried(2, "add");
    var p := Start<string, int>(add, [], map["a" := 1]);
    o1 := p.Step([], map["a" := 2]);
    assert p.kwargs == map["a" := 2];
    o2 := p.Step([], map["b" := 3]);
    assert p.kwargs == map["a" := 2, "b" := 3];
  }

  /** A one-argument callable is not invoked by the top-level call `f(5)`; the next
      call of the intermediate invokes it. */
  method UnaryNeedsSecondCall() returns (o: Outcome<string, int>)
    ensures o == Invoke([5], map[])
  {
    var identity := Curried(1, "identity");
    var p := Start<string, int>(identity, [5], map[]);
    o := p.Step([], map[]);
  }

  /** The wrapped callable's name is carried by the intermediate before and after a call. */
  method PreserveName() returns (before: string, after: string)
    ensures before == "add" && after == "add"
  {
    var add := Curried(2, "add");
    var p := Start<string, int>(add, [1], map[]);
    before := p.name;
    var _ := p.Step([], map[]);
    after := p.name;
  }
}
