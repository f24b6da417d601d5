# resumeback: generator wrappers and the `send_self` decorator

This project models the core of `resumeback` in Dafny and proves
properties of the model. `resumeback` is a small Python library. It lets a
generator function receive a handle on its own generator, so that
callbacks can resume it later.

The model has four modules.

- `PyRuntime` covers the parts of the Python runtime that the library
  delegates to:
  - the values and exceptions that pass through a generator;
  - generator objects (`class Generator`), with the states Created,
    Running, Suspended and Closed, and the `send`/`throw`/`close`
    protocol (`Step`, `CloseStep`);
  - weak-reference slots (`class WeakRef`), their creation with reuse of a
    callback-free reference (`NewRef`), and their equality (`SlotEq`).

  A generator's code is a total function from the inputs it has received
  to what it does next: yield, return or raise. A resume is split into
  `Begin` and `Finish`, so that another caller can see the generator
  Running.
- `WaitPolicy` is the pure decision the `_wait` polling loop takes, given
  what each round observed (`Decide`). It comes with lemmas about
  timeouts.
- `GeneratorWrappers` covers `WeakGeneratorWrapper` and
  `StrongGeneratorWrapper`. Both are one `class Wrapper` with a `kind`
  field:
  - the state queries, equality and the weak/strong conversions;
  - resuming through `next`, `send` and `throw`, with `catch_stopiteration`
    applied by `Deliver`;
  - `close`;
  - the `_wait` loop, proved against `WaitPolicy.Decide`.
- `Decorators` covers `send_self` and `send_self_return`:
  - the configuration type checks (`ConfigError`, the `FirstMismatch`
    loop over the type table);
  - the delayed decoration;
  - the start sequence: advance the generator once, make a weak slot
    with the finalize callback, send the generator its weak wrapper, and
    return either the strong wrapper or the first yielded value.

The environment is given to the model as inputs:

- The wait loop takes a schedule of rounds. Each round says whether the
  non-blocking lock try succeeded, whether a step another thread is
  running inside the generator ends during the round, and how long the
  round took (a `real`).
- Garbage collection is the `WeakRef.Reclaim` action. It clears the
  slot's target and fires the callback once.

Where the library's general description and its code differ, the model
follows the code:

- `can_resume` holds for a Created generator as well as a Suspended one,
  because it tests `gi_frame`.
- `next`/`send` on a closed generator do not raise "already terminated".
  Python's generator raises `StopIteration(None)`. With
  `catch_stopiteration` the wrapper turns that into `None`. Only the
  `*_wait` operations raise "already terminated".
- Equality goes through weak-reference equality. Weak slots whose target
  is gone are equal only to themselves. A weak wrapper never equals a
  strong one, even on the same generator.
- The package's tests use an older API in places: `GeneratorWrapper`,
  the wrapper passed as the first argument, and descriptor behaviour.
  Where a test expects something else of the current code, the model
  follows the code. For example, `send_self(f)` with `f` a function that
  is not a generator function raises TypeError in `__init__`
  (`resumeback/__init__.py:311-312`), while `tests/test_send_self.py:193-194`
  expect ValueError, which the code raises only for a bare decorator
  instance applied to such a function (`resumeback/__init__.py:352-353`).
- `weakref.ref(generator)` without a callback hands out the callback-free
  reference the generator already has, as CPython does (`PyRuntime.NewRef`).
  So a `StrongGeneratorWrapper` built without a slot may share the
  identical slot with earlier wrappers.

## Model

| member | source | states |
|---|---|---|
| PyRuntime.Step | resumeback/__init__.py:141-151 | `generator.send`/`throw`: a running generator is refused with ValueError and is not changed. Closed is absorbing: `send` raises StopIteration(None), and `throw` re-raises the thrown error. The code runs exactly when the generator is Suspended, or Created with a None input, and then the input is consumed. Otherwise the history is unchanged and the call raises. A step leaves the generator running only if it was running already (and was then refused). |
| PyRuntime.CloseStep | resumeback/__init__.py:221-224 | `generator.close()`: a running generator is refused. Afterwards the generator is Closed unless it ignored GeneratorExit, which raises RuntimeError and leaves it Suspended. A successful close returns None. Only a suspended generator receives GeneratorExit. |
| PyRuntime.Generator.constructor | resumeback/__init__.py:359 | Calling the generator function makes a generator that has not run: Created, with no inputs and no weak reference yet. |
| PyRuntime.Generator.Begin | resumeback/__init__.py:141-151 | First half of a resume: the generator is entered exactly when it can run, and it is then Running on that input with its history unchanged. Otherwise the call is refused, as `Step` says. |
| PyRuntime.Generator.Finish | resumeback/__init__.py:141-151 | Second half of a resume: the generator's code runs on the pending input. |
| PyRuntime.Generator.Send | resumeback/__init__.py:147 | `generator.send(value)` changes the generator and returns exactly as `Step` says. |
| PyRuntime.Generator.Throw | resumeback/__init__.py:189 | `generator.throw(error)` changes the generator and returns exactly as `Step` says. |
| PyRuntime.Generator.Close | resumeback/__init__.py:221-224 | `generator.close()` changes the generator and returns exactly as `CloseStep` says. |
| PyRuntime.WeakRef.constructor | resumeback/__init__.py:333-334 | `weakref.ref(generator, finalize_callback)`: the slot targets the generator and keeps the callback. |
| PyRuntime.WeakRef.Reclaim | resumeback/__init__.py:333-334 | Reclamation clears the slot. The callback fires only if the target was still alive, so at most once. |
| PyRuntime.NewRef | resumeback/__init__.py:275 | `weakref.ref(generator, callback)`: the reference targets the generator and has the callback. Without a callback, the generator's existing callback-free reference is returned if it has one; otherwise a new one is made and recorded for reuse. A callback always gives a new reference. The generator's state is untouched. |
| PyRuntime.SlotEq | resumeback/__init__.py:245-248 | Weak references are equal exactly when they are the same slot, or when their live targets are the same generator. Equal slots are both alive or both dead. |
| WaitPolicy.Decide | resumeback/__init__.py:73-96 | The verdict of the polling loop. With no timeout it never times out. Resume or terminate happens only at a round that held the lock and saw the generator resumable or gone. An undecided wait still has budget left. |
| WaitPolicy.RemainingSnoc | resumeback/__init__.py:90-91 | One more round reduces the budget by that round's elapsed time. |
| WaitPolicy.DecideAppend | resumeback/__init__.py:79-91 | While undecided, later rounds are judged against the budget that is left. |
| WaitPolicy.RemainingIsBudgetMinusSpent | resumeback/__init__.py:90-91 | A finite budget left after some rounds is the timeout minus the total time they took. |
| WaitPolicy.FirstDecisiveRoundDecides | resumeback/__init__.py:79-88 | The first round that holds the lock and sees the generator resumable or gone, reached with budget left, decides the wait: resume or "already terminated". |
| WaitPolicy.TimedOutOnlyWhenBudgetSpent | resumeback/__init__.py:79-96 | A timeout means that rounds, none of them decisive, took at least the whole timeout. |
| WaitPolicy.TimesOutOnceBudgetSpent | resumeback/__init__.py:79-96 | Conversely, rounds that are not decisive and take the whole timeout end in a timeout. |
| WaitPolicy.WaitEndsWithinTimeout | resumeback/__init__.py:79-96 | With a finite timeout and rounds that each take at least `tick > 0`, the wait has ended once the rounds could have used up the timeout. |
| GeneratorWrappers.Deliver | resumeback/__init__.py:145-151 | With `catch_stopiteration`, a StopIteration becomes the value it carries, and no StopIteration escapes. Without it, or for any other outcome, the result passes through unchanged. |
| GeneratorWrappers.WrapperStep | resumeback/__init__.py:141-151 | A resume through a wrapper: a running generator fails with ValueError and is unchanged. The generator changes as the raw step says. Completion returns its value when catching and raises StopIteration(value) otherwise. A yield is returned as is. A closed generator answers `next`/`send` with None when catching and with StopIteration(None) otherwise. |
| GeneratorWrappers.Wrapper.MakeWeak | resumeback/__init__.py:35-40 | `WeakGeneratorWrapper(slot, catch_stopiteration, debug)` keeps `_args` as given and holds no strong reference. |
| GeneratorWrappers.Wrapper.MakeStrong | resumeback/__init__.py:259-278 | A strong wrapper holds the given generator, with `_args` as given. |
| GeneratorWrappers.Wrapper.NewStrong | resumeback/__init__.py:259-278 | `StrongGeneratorWrapper.__init__`: a given slot is kept as is. Without one, the slot is `weakref.ref(generator)`: a callback-free reference on the generator, the one it already had if any, otherwise a new one. Without both, it raises TypeError. The wrapper holds the generator and the flags as given. |
| GeneratorWrappers.ArgsEq | resumeback/__init__.py:247 | `_args` tuples are equal exactly when the flags are equal and the slots are the identical object or two slots on the same live generator. |
| GeneratorWrappers.Wrapper.Target | resumeback/__init__.py:58-61 | The `generator` attribute: the weak slot's current target for a weak wrapper, the wrapper's own reference for a strong one (lines 257, 272), even after the slot is cleared. For a wrapper whose slot designates its generator, both are the slot's target. |
| GeneratorWrappers.ViewOf | resumeback/__init__.py:83-85 | What a poll under the lock reports: resumable exactly when `next()` would run the code, gone exactly when closed, busy exactly when running. |
| GeneratorWrappers.Wrapper.View | resumeback/__init__.py:83-85 | The view `_wait` takes: resumable exactly when `can_resume()`, gone exactly when `has_terminated()`. |
| GeneratorWrappers.ObservedIsStartOrSettled | resumeback/__init__.py:79-88 | While a waiter polls, it sees the generator either as it was or with the step another caller was running in it ended. With no other caller inside, it sees it unchanged. |
| GeneratorWrappers.PollsAt | resumeback/__init__.py:79-88 | Round `k` of a wait records that round's lock try and time, and the view of the generator as it is after rounds `0..k`. |
| GeneratorWrappers.Wrapper.Observe | resumeback/__init__.py:80-85 | The start of a round: a step another caller is running inside the generator may end, then the view is read. Only a round that lets the step end changes the generator. |
| GeneratorWrappers.Wrapper.AwaitDecision | resumeback/__init__.py:78-92 | The polling loop ends exactly as `Decide` says on the rounds it polled, and each round's view is the generator's actual state then (`Polls`). Resume is decided only when `can_resume()` holds at the end, and terminate only when `has_terminated()` does. The loop changes the generator only through another caller's step ending. |
| GeneratorWrappers.Wrapper.CanResume | resumeback/__init__.py:234-243 | `can_resume` holds exactly when the generator exists and `next()` would run its code: it is not running and not closed. |
| GeneratorWrappers.Wrapper.HasTerminated | resumeback/__init__.py:226-232 | `has_terminated` excludes `can_resume`. Neither holds exactly when the generator is running. |
| GeneratorWrappers.Wrapper.Equals | resumeback/__init__.py:245-248 | Equal wrappers are of the same kind and their slots reach the same target. Equal wrappers from the library reach the same generator. |
| GeneratorWrappers.Wrapper.WithStrongRef | resumeback/__init__.py:63-65 | A strong wrapper with the same `_args` (the identical slot and flags), holding the current generator. A strong wrapper returns itself. A weak wrapper returns a fresh one and allocates no slot. |
| GeneratorWrappers.Wrapper.WithWeakRef | resumeback/__init__.py:284-286 | A weak wrapper with the same `_args`. A weak wrapper returns itself. A strong wrapper returns a fresh one and allocates no slot. |
| GeneratorWrappers.Wrapper.Resume | resumeback/__init__.py:141-151 | `_send`/`_throw` on the captured generator: the generator and the result are as `WrapperStep` says. Without a generator, it raises AttributeError. |
| GeneratorWrappers.Wrapper.Next | resumeback/__init__.py:99-109 | `next()` is `WrapperStep` with a None input on the wrapper's generator. Without a generator, it raises. |
| GeneratorWrappers.Wrapper.Send | resumeback/__init__.py:135-151 | `send(value)` is `WrapperStep` with that value. Without a generator, it raises. |
| GeneratorWrappers.Wrapper.Throw | resumeback/__init__.py:178-193 | `throw(error)` is `WrapperStep` with that error thrown in. Without a generator, it raises. |
| GeneratorWrappers.Wrapper.Close | resumeback/__init__.py:221-224 | `close()` is the generator's own close, which `catch_stopiteration` does not affect. Without a generator, it raises. |
| GeneratorWrappers.Wrapper.Wait | resumeback/__init__.py:73-96 | `_wait` for `next_wait`/`send_wait`/`throw_wait`: it ends exactly as `Decide` says on the rounds it polled. Each poll's view is the generator's state at that round: unchanged, or with another caller's step ended once a round let it end. It resumes only a resumable generator, exactly once, through the wrapper. "Already terminated" means the generator is gone or closed. A timeout carries the configured timeout. Apart from other callers' steps, the resume is the only change; with no other caller inside, the generator is unchanged until the resume. |
| GeneratorWrappers.NextDuringStep | tests/test_deferring_methods.py:32-42 | A `next()` issued while another caller is inside the generator fails with ValueError without touching it. The step under way finishes on its own input, so the generator is stepped once. |
| GeneratorWrappers.TerminatedIgnoresResumes | resumeback/__init__.py:226-232 | Once `has_terminated()` holds, no send, throw or close changes the generator. |
| GeneratorWrappers.WeakNeverEqualsStrong | resumeback/__init__.py:288-292 | A weak and a strong wrapper are never equal, in either order. |
| GeneratorWrappers.EqualsIsEquivalence | resumeback/__init__.py:245-248 | Wrapper equality is reflexive, symmetric and transitive. |
| GeneratorWrappers.DistinctSlotsSameGeneratorEqual | tests/test_wrappers.py:25-35 | Weak wrappers with the same flags, on distinct slots of the same live generator, are equal. |
| GeneratorWrappers.ConversionRoundTrip | tests/test_wrappers.py:38-101 | Converting to the other kind keeps `_args`. Converting back gives a wrapper of the original kind on the identical slot, equal to the original both ways. Converting to the kind a wrapper already has returns it. |
| Decorators.WrappersAreCallable | resumeback/__init__.py:250 | Wrappers are callable (`__call__`, also line 294) and are not generator functions, while generators are not callable. So `send_self(finalize_callback=wrapper)` passes the type checks. |
| Decorators.FirstMismatch | resumeback/__init__.py:314-318 | The loop over the type table stops at the first entry of the wrong type. Every entry before it has the expected type. |
| Decorators.ConfigError | resumeback/__init__.py:304-318 | `send_self.__init__` raises exactly when `func` is given but is not a generator function, or a parameter has the wrong type. A bad `func` is reported first. Otherwise the error names the first entry of the type table (catch_stopiteration, debug, finalize_callback) whose value has the wrong type, and only that entry. |
| Decorators.SendSelf.constructor | resumeback/__init__.py:320-323 | The decorator keeps its function and configuration. |
| Decorators.SendSelf.New | resumeback/__init__.py:304-327 | `send_self(...)` fails exactly with `ConfigError`'s error. Otherwise it keeps the function and the flags. |
| Decorators.SendSelf.Call | resumeback/__init__.py:346-361 | Without a function: no callable argument raises RuntimeError, a callable that is not a generator function raises ValueError, and a generator function becomes the function and the decorator returns itself. With a function: it makes a fresh generator and starts it as `Started` describes. |
| Decorators.SendSelf.StartGenerator | resumeback/__init__.py:329-344 | The generator is advanced once, and an exception from that step propagates. Then it receives exactly one weak wrapper on a new slot targeting it with the finalize callback. Without a callback, that slot becomes the generator's callback-free reference. The wrapper shares the slot and flags of the returned strong wrapper. The call returns the strong wrapper unless that send raised. |
| Decorators.SendSelf.StartGeneratorReturn | resumeback/__init__.py:368-383 | The same start, but the generator receives a weak wrapper on the new slot, and the call returns the first yielded value. |
| Decorators.StrongWrapperReusesSlot | tests/test_wrappers.py:42-45 | Without a finalize callback, `StrongGeneratorWrapper(w.generator)` on a generator started by `send_self` gets the identical slot as `w`, and the two wrappers are equal. |

## Left out

- `_next_wait_async`, `_send_wait_async`, `_throw_wait_async` (resumeback/__init__.py:124-133, 166-176, 209-219): they only start a daemon thread around `_wait`, and threads are not modelled.
- The RLock that `_send` and `_throw` take with a blocking `with`: steps are sequential in the model. In `_wait` the non-blocking try is an input of each round, and the RLock's reentrancy is not modelled.
- Debug `print` calls and `__del__`: output only.
- `functools.partial`, `functools.update_wrapper`, `callable` and `inspect.isgeneratorfunction`: `partial` is folded into the methods, `update_wrapper` is not modelled, and the other two are predicates on a function value.
- Garbage collection timing, close-on-collect and the finalize callback's own effects: reclamation is the environment action `WeakRef.Reclaim`.
- Wall-clock time: each round's elapsed time is a `real` input. `timeout` is a `Budget` (`Forever` for None).
- Generator code is deterministic in its input history. Plain callables are `Function` values, and among the model's objects wrappers, weak references and decorator objects are the callable ones (they define `__call__`); other Python callables (classes, bound methods) are not modelled. Keyword and positional argument binding errors are not modelled.
- The `*_wait` operations are one `Wait` method taking a `Request` (`next`, `send` or `throw`), in place of three methods that each pass a different bound method to `_wait`.
- GeneratorWrappers.Wrapper.Wait: returns `StillWaiting` when the schedule of rounds runs out, so a wait with no timeout is modelled only over a finite number of rounds.
- GeneratorWrappers.Wrapper.Close: a successful close returns None. Newer Python versions return the generator's return value from `close()`.
- Decorators.SendSelf.StartGenerator: requires a freshly created generator with no weak reference yet, which is the only one `__call__` passes to it. `StartGeneratorReturn` requires the same.
- GeneratorWrappers.ConversionRoundTrip: requires the strong wrapper's slot to designate its own generator. Every wrapper the library builds satisfies this, but `StrongGeneratorWrapper(g1, weakref.ref(g2))` does not.
- `send_self.py`, `tests/wip.py`, `setup.py`, `_util.py`, `conftest.py`, and the tests as code: these are plugin demos, packaging and test plumbing. The tests serve only as evidence for the properties above.
