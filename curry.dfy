/**
 The curry transformer: `curry(fun)` fixes an arity and a name and returns a
 curried callable. Each top-level call of the curried callable starts a fresh
 accumulation state (a positional sequence and a keyword map) and returns an
 intermediate. Each call of an intermediate appends its positional arguments,
 merges its keyword arguments (last write wins) and then either invokes the
 wrapped callable -- when positional count plus keyword count equals the arity --
 or returns the same intermediate, whose state later calls keep extending.

 The wrapped callable is opaque: an invocation is recorded as the arguments it
 would receive.
 */
module Curry {

  /** What a call of an intermediate yields: the wrapped callable invoked on
      exactly these arguments, or the same intermediate returned again. */
  datatype Outcome<K(==), V> = Invoke(args: seq<V>, kwargs: map<K, V>) | Continue

  /** The accumulation state of one chain: stored positional and keyword arguments. */
  datatype Accumulation<K(==), V> = Accumulation(args: seq<V>, kwargs: map<K, V>)

  /** The arguments of one call. */
  datatype Call<K(==), V> = Call(args: seq<V>, kwargs: map<K, V>)

  /** The curried callable returned by `curry`: the arity read from the wrapped
      callable's signature and the wrapped callable's name. It holds no mutable state. */
  datatype Curried = Curried(arity: nat, name: string)

  /** Stored argument count: positional arguments plus distinct keyword names. */
  function Count<K(==), V>(s: Accumulation<K, V>): nat
  {
    |s.args| + |s.kwargs|
  }

  /** Keyword merge as a dictionary update: every incoming key takes its new value,
      every other stored key keeps its old one, and no other key appears. */
  function Merge<K(==), V>(stored: map<K, V>, incoming: map<K, V>): (r: map<K, V>)
    ensures r.Keys == stored.Keys + incoming.Keys
    ensures forall k :: k in incoming ==> r[k] == incoming[k]
    ensures forall k :: k in stored && k !in incoming ==> r[k] == stored[k]
  {
    stored + incoming
  }

  /** The state after one intermediate call: the old positional arguments stay
      in front, unchanged, followed by the new ones in call order; keywords are merged. */
  function Next<K(==), V>(s: Accumulation<K, V>, newArgs: seq<V>, newKwargs: map<K, V>): (r: Accumulation<K, V>)
    ensures |r.args| == |s.args| + |newArgs|
    ensures r.args[..|s.args|] == s.args
    ensures r.args[|s.args|..] == newArgs
    ensures r.kwargs == Merge(s.kwargs, newKwargs)
  {
    Accumulation(s.args + newArgs, Merge(s.kwargs, newKwargs))
  }

  /** The completion rule, applied after merging: invoke on exactly the stored
      arguments when the count equals the arity (exact equality), otherwise continue. */
  function Decide<K(==), V>(arity: nat, s: Accumulation<K, V>): (o: Outcome<K, V>)
    ensures o.Invoke? <==> Count(s) == arity
    ensures o.Invoke? ==> o.args == s.args && o.kwargs == s.kwargs
  {
    if Count(s) == arity then Invoke(s.args, s.kwargs) else Continue
  }

  /** A chain of intermediate calls on one shared state: the final state and the
      outcome of each call, in order. */
  datatype Trace<K(==), V> = Trace(final: Accumulation<K, V>, outcomes: seq<Outcome<K, V>>)

  function Run<K(==), V>(arity: nat, s: Accumulation<K, V>, calls: seq<Call<K, V>>): (t: Trace<K, V>)
    ensures |t.outcomes| == |calls|
    decreases |calls|
  {
    if calls == [] then Trace(s, [])
    else
      var s' := Next(s, calls[0].args, calls[0].kwargs);
      var rest := Run(arity, s', calls[1..]);
      Trace(rest.final, [Decide(arity, s')] + rest.outcomes)
  }

  /** All positional arguments of a sequence of calls, in call order. */
  function Positionals<K(==), V>(calls: seq<Call<K, V>>): seq<V>
    decreases |calls|
  {
    if calls == [] then [] else calls[0].args + Positionals(calls[1..])
  }

  /** One single-positional-argument call per element. */
  function Singles<K(==), V>(xs: seq<V>): (calls: seq<Call<K, V>>)
    ensures |calls| == |xs|
    decreases |xs|
  {
    if xs == [] then [] else [Call([xs[0]], map[])] + Singles(xs[1..])
  }

  /** One call adds its positional arguments and the keyword names that were not
      stored yet; an overwritten keyword adds nothing. So the count never decreases. */
  lemma CountAfterNext<K, V>(s: Accumulation<K, V>, newArgs: seq<V>, newKwargs: map<K, V>)
    ensures Count(Next(s, newArgs, newKwargs)) == Count(s) + |newArgs| + |newKwargs.Keys - s.kwargs.Keys|
    ensures Count(Next(s, newArgs, newKwargs)) >= Count(s)
  {
  }

  /** Once the count exceeds the arity, one more call never invokes and the count
      still exceeds the arity. */
  lemma ExceededStep<K, V>(arity: nat, s: Accumulation<K, V>, newArgs: seq<V>, newKwargs: map<K, V>)
    requires Count(s) > arity
    ensures Count(Next(s, newArgs, newKwargs)) > arity
    ensures Decide(arity, Next(s, newArgs, newKwargs)) == Continue
  {
    CountAfterNext(s, newArgs, newKwargs);
  }

  /** Once the count exceeds the arity, no later call of the chain ever invokes. */
  lemma {:induction false} ExceededNeverInvokes<K, V>(arity: nat, s: Accumulation<K, V>, calls: seq<Call<K, V>>)
    requires Count(s) > arity
    ensures forall i :: 0 <= i < |calls| ==> Run(arity, s, calls).outcomes[i] == Continue
    ensures Count(Run(arity, s, calls).final) > arity
    decreases |calls|
  {
    if calls != [] {
      var s' := Next(s, calls[0].args, calls[0].kwargs);
      ExceededStep(arity, s, calls[0].args, calls[0].kwargs);
      ExceededNeverInvokes(arity, s', calls[1..]);
    }
  }

  /** Across a chain the count never decreases, and the stored positional sequence
      is the starting one followed by every call's positional arguments in call order. */
  lemma {:induction false} RunAccumulates<K, V>(arity: nat, s: Accumulation<K, V>, calls: seq<Call<K, V>>)
    ensures Count(Run(arity, s, calls).final) >= Count(s)
    ensures Run(arity, s, calls).final.args == s.args + Positionals(calls)
    decreases |calls|
  {
    if calls != [] {
      var s' := Next(s, calls[0].args, calls[0].kwargs);
      CountAfterNext(s, calls[0].args, calls[0].kwargs);
      assert s'.args == s.args + calls[0].args;
      RunAccumulates(arity, s', calls[1..]);
      assert Run(arity, s, calls).final == Run(arity, s', calls[1..]).final;
      assert Positionals(calls) == calls[0].args + Positionals(calls[1..]);
      assert s.args + calls[0].args + Positionals(calls[1..]) == s.args + Positionals(calls);
    }
  }

  /** Feeding the remaining positional arguments one per call to a chain that holds
      the first ones continues until the last call, which invokes on all of them in order. */
  lemma {:induction false} SinglesComplete<K, V>(arity: nat, done: seq<V>, rest: seq<V>)
    requires |done| + |rest| == arity && |rest| >= 1
    ensures forall i :: 0 <= i < |rest| - 1 ==>
      Run(arity, Accumulation(done, map[]), Singles<K, V>(rest)).outcomes[i] == Continue
    ensures Run(arity, Accumulation(done, map[]), Singles<K, V>(rest)).outcomes[|rest| - 1]
      == Invoke(done + rest, map[])
    decreases |rest|
  {
    var s: Accumulation<K, V> := Accumulation(done, map[]);
    var calls := Singles<K, V>(rest);
    var s' := Next(s, calls[0].args, calls[0].kwargs);
    assert s' == Accumulation(done + [rest[0]], map[]);
    var tail := Run(arity, s', calls[1..]);
    assert Run(arity, s, calls).outcomes == [Decide(arity, s')] + tail.outcomes;
    if |rest| == 1 {
      assert done + [rest[0]] == done + rest;
    } else {
      assert Count(s') == |done| + 1 < arity;
      assert calls[1..] == Singles<K, V>(rest[1..]);
      SinglesComplete<K, V>(arity, done + [rest[0]], rest[1..]);
      assert done + [rest[0]] + rest[1..] == done + rest;
    }
  }

  /** For an n-ary callable with n >= 2: a top-level call with the first argument
      followed by n - 1 single-argument calls invokes exactly once, on the last call,
      with the arguments in call order. */
  lemma OneArgumentAtATime<K, V>(xs: seq<V>)
    requires |xs| >= 2
    ensures |Run(|xs|, Accumulation([xs[0]], map[]), Singles<K, V>(xs[1..])).outcomes| == |xs| - 1
    ensures forall i :: 0 <= i < |xs| - 2 ==>
      Run(|xs|, Accumulation([xs[0]], map[]), Singles<K, V>(xs[1..])).outcomes[i] == Continue
    ensures Run(|xs|, Accumulation([xs[0]], map[]), Singles<K, V>(xs[1..])).outcomes[|xs| - 2]
      == Invoke(xs, map[])
  {
    SinglesComplete<K, V>(|xs|, [xs[0]], xs[1..]);
    assert [xs[0]] + xs[1..] == xs;
  }

  /** The intermediate `_inner` of one top-level call. Its fields are the
      accumulation state that every call of it extends; arity and name never change. */
  class Inner<K(==), V> {
    const arity: nat
    const name: string
    var args: seq<V>
    var kwargs: map<K, V>

    function State(): Accumulation<K, V>
      reads this
    {
      Accumulation(args, kwargs)
    }

    constructor (arity: nat, name: string, args: seq<V>, kwargs: map<K, V>)
      ensures this.arity == arity && this.name == name
      ensures State() == Accumulation(args, kwargs)
    {
      this.arity := arity;
      this.name := name;
      this.args := args;
      this.kwargs := kwargs;
    }

    /** One call of the intermediate. `Continue` means that this same object is
        returned, with its state updated. */
    method Step(newArgs: seq<V>, newKwargs: map<K, V>) returns (o: Outcome<K, V>)
      modifies this
      ensures State() == Next(old(State()), newArgs, newKwargs)
      ensures o == Decide(arity, State())
    {
      kwargs := kwargs + newKwargs;
      args := args + newArgs;
      if |args| + |kwargs| == arity {
        o := Invoke(args, kwargs);
      } else {
        o := Continue;
      }
    }
  }

  /** A top-level call of the curried callable: a fresh intermediate whose state is
      exactly this call's arguments, carrying the curried callable's arity and name.
      The completion rule is not applied here, so nothing is invoked whatever the count. */
  method Start<K(==), V>(c: Curried, args: seq<V>, kwargs: map<K, V>) returns (inner: Inner<K, V>)
    ensures fresh(inner)
    ensures inner.arity == c.arity && inner.name == c.name
    ensures inner.State() == Accumulation(args, kwargs)
  {
    inner := new Inner(c.arity, c.name, args, kwargs);
  }

  /** A caller making a sequence of calls on one intermediate, each on the same
      object whatever the earlier outcomes: the outcomes and the final state are those of
      `Run` from the state before the first call, so the chain lemmas above are
      statements about the intermediate object itself. */
  method Feed<K(==), V>(p: Inner<K, V>, calls: seq<Call<K, V>>) returns (outs: seq<Outcome<K, V>>)
    modifies p
    ensures outs == Run(p.arity, old(p.State()), calls).outcomes
    ensures p.State() == Run(p.arity, old(p.State()), calls).final
    decreases |calls|
  {
    if calls == [] {
      outs := [];
    } else {
      var o := p.Step(calls[0].args, calls[0].kwargs);
      var rest := Feed(p, calls[1..]);
      outs := [o] + rest;
    }
  }
}
