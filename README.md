# curry.py: the curry transformer as a state machine

`curry(fun)` reads the arity of `fun` and returns a curried callable with the
name of `fun`. Each top-level call of the curried callable makes a fresh
accumulation state: a list of positional arguments and a dictionary of keyword
arguments. It returns an intermediate, `_inner`, without checking completion.
Each call of `_inner` does three things:

- it appends the new positional arguments to the stored ones;
- it updates the stored dictionary with the new keyword arguments, so the last write wins;
- it invokes `fun` on the stored arguments when positional count plus keyword
  count equals the arity. Otherwise it returns itself.

The state lives in the closure (`nonlocal`). Later calls of the same intermediate
therefore continue from whatever earlier calls left behind.

The Dafny model is in two files:

- `curry.dfy` (module `Curry`), the transformer.
  - `Curried` is the curried callable. It holds only an arity and a name.
  - `Inner` is a class for `_inner`. Its `args`/`kwargs` fields are the shared state, and `Step` updates them in place.
  - `Start` is a top-level call. It allocates a fresh `Inner`.
  - `Next`, `Merge`, `Decide` and `Run` are the specification functions. `Step` is proved against them, and the lemmas about chains are stated over them. `Feed` (repeated `Step` calls on one object) is proved equal to `Run`.
- `scenarios.dfy` (module `CurryScenarios`): client methods. Each one is proved only from the contracts of `Start` and `Step`. They replay the unit tests and the code's less obvious behaviours.

The wrapped callable itself is never run. An invocation is the outcome
`Invoke(args, kwargs)`, which carries the positional arguments `fun` would
receive, in order, and its keyword arguments as a map (their order is not
modelled, see "## Left out").
`Continue` means "the same intermediate is returned, with its state updated".

Three behaviours of the code differ from what a reader of a curry utility might expect; the model follows the code:

- A reader might expect `curry(add)(1, 2)` to return 3. In the code, the top-level call never applies the completion rule (curry.py:12-14, 29-30), so it returns `_inner`. Only a further call such as `_inner()` invokes (`AllAtOnce`). For the same reason a one-argument callable needs a second call (`UnaryNeedsSecondCall`).
- A reader might expect two calls of one intermediate to be isolated branches. The code shares one state per top-level call (curry.py:17-21). Calling the same intermediate twice continues from the first call's leftovers (`SameIntermediateShared`). Only separate top-level calls are independent (`ArgsDontPersist`).
- A reader might expect the callable to be invoked once per completed chain. The code keeps the state after completion, so an empty call of the completing intermediate invokes again (`RepeatedCompletion`).

## Model

| member | source | states |
|---|---|---|
| `Curry.Start` | curry.py:12-14 | A top-level call returns a freshly allocated intermediate. Its state is exactly the call's positional arguments, in order, and its keyword arguments, so earlier top-level calls have no effect on it. It carries the curried callable's arity and name. Its result is an intermediate, never an invocation, whatever the argument count. |
| `Curry.Inner.constructor` | curry.py:29-30 | The intermediate gets the wrapped callable's name and the arity. Both are constants, so no later call changes them. |
| `Curry.Inner.Step` | curry.py:16-27 | One intermediate call turns the old state into `Next(old state, new arguments)`. It invokes on exactly the stored positional sequence and keyword map if and only if their combined count equals the arity. Otherwise it continues on the same object. |
| `Curry.Merge` | curry.py:20 | Keyword merge is last-write-wins. The keys are the stored keys plus the new ones. Every new key has its new value, and every other stored key keeps its old value. |
| `Curry.Next` | curry.py:18-21 | After a call, the stored positional sequence is the old one, unchanged in front, followed by the new arguments in call order. The keywords are the merge of old and new. |
| `Curry.Decide` | curry.py:24-27 | The completion rule is exact equality. The result is an invocation if and only if the count (`Count`: positional count plus number of distinct keyword names, the `len(args_store) + len(kwargs_store)` of line 24) equals the arity, and an invocation carries exactly the stored arguments. |
| `Curry.Run` | curry.py:16-27 | A chain of calls on one shared state yields exactly one outcome per call. |
| `Curry.Feed` | curry.py:16-27 | Calling one intermediate object repeatedly, whatever the earlier outcomes (a completing call returns the wrapped callable's result, so the caller keeps its own reference), yields exactly the outcomes and the final state of `Run` from the state before the first call. So the chain lemmas hold of the intermediate object. |
| `Curry.CountAfterNext` | curry.py:18-24 | A call raises the count by its positional arguments plus the keyword names not stored before. An overwritten keyword adds nothing, so the count never decreases. |
| `Curry.ExceededStep` | curry.py:18-24 | Once the count exceeds the arity, the next call does not invoke, and the count still exceeds the arity. |
| `Curry.ExceededNeverInvokes` | curry.py:18-24 | Once the count exceeds the arity, no later call in any chain ever invokes the wrapped callable. |
| `Curry.RunAccumulates` | curry.py:18-21 | Across any chain the count never decreases. The stored positional sequence is the starting one followed by every call's positional arguments, in call order. |
| `Curry.SinglesComplete` | curry.py:16-27 | A chain holds some arguments, and the remaining ones are fed one per call. Every call but the last continues, and the last invokes on all arguments in order. |
| `Curry.OneArgumentAtATime` | curry.py:12-27 | For an n-ary callable with n >= 2, a top-level call with the first argument followed by n - 1 single-argument calls invokes exactly once. It does so on the last call, with the arguments in call order. |
| `CurryScenarios.TwoArgs` | curry.py:37-39 | `add(1)(2)` invokes on (1, 2). |
| `CurryScenarios.ThreeArgs` | curry.py:41-43 | `add3(1)(2)(3)` continues on the middle call and invokes on (1, 2, 3) on the last. |
| `CurryScenarios.ArgsDontPersist` | curry.py:45-50 | `add(1)` and `add(2)` are independent. Each completed with 1, they invoke on (1, 1) and (2, 1). |
| `CurryScenarios.AllAtOnce` | curry.py:12-14 | `curry(add)(1, 2)` stores both arguments but does not invoke. The next empty call invokes on (1, 2). |
| `CurryScenarios.SameIntermediateShared` | curry.py:16-21 | Calling one intermediate twice with 1 first invokes on (1, 1). The second call then sees three stored arguments and continues. |
| `CurryScenarios.RepeatedCompletion` | curry.py:24-25 | An empty call after completion invokes again on the same arguments. |
| `CurryScenarios.KeywordOverwrite` | curry.py:20 | `add(a=1)(a=2)` keeps one keyword with value 2 and continues. Adding `b=3` then invokes with a=2, b=3. |
| `CurryScenarios.UnaryNeedsSecondCall` | curry.py:12-14 | A one-argument callable is not invoked by `f(5)`. It is invoked by the next call. |
| `CurryScenarios.PreserveName` | curry.py:74-78 | The intermediate carries the wrapped callable's name before and after a call. |

## Left out

- Arity discovery through `inspect.signature`, including the class `__call__` case (curry.py:7-10). It is runtime reflection, so the arity is a field of `Curried`, given by the caller.
- Running the wrapped callable and any error it raises (curry.py:25). It is opaque foreign code, so it is recorded as an `Invoke` outcome carrying the arguments.
- The `__name__` attribute mechanics (curry.py:23, 29, 32). The name is a constant field of `Curried` and `Inner`.
- In-place `dict.update` rather than reassignment (curry.py:20). The stored dictionary is created by `**old_kwargs` and never escapes the closure, so reassigning the `kwargs` field is equivalent.
- Keyword order: the stored keywords are a `map`, so the insertion order that a `**kwargs` parameter of `fun` would observe at curry.py:25 is not modelled. `dict.update` at curry.py:20 keeps an overwritten key in its first position.
- A callable without `__name__` (a callable instance, a `functools.partial`): `curry` raises AttributeError at curry.py:32. The model always takes a name.
- The `unittest` harness and `__main__` block (curry.py:36, 80-81).
- `test_mutable_args` and `test_builtin` (curry.py:52-64). They exercise arguments and behaviour inside the wrapped callable, which is not modelled.
- `test_positional_kwargs` (curry.py:66-68). It has the same two-call shape as `TwoArgs`, because a defaulted parameter counts toward the arity.
- `test_kwargs` (curry.py:70-72). It passes an argument that `curry` does not accept, so it raises a TypeError before any currying.
- Object identity beyond "the same intermediate is returned", and thread safety of a shared chain: concurrency is outside this single-threaded model.
