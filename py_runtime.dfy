/*
 * The parts of the Python runtime that the generator wrappers delegate to:
 * the values and exceptions that pass through a generator, generator
 * objects with their `send`/`throw`/`close` protocol, and weak-reference
 * slots.
 */
module PyRuntime {

  datatype Option<T> = None | Some(value: T)

  /** A callable; `isGeneratorFunction` is what `inspect.isgeneratorfunction` answers for it. */
  datatype FunctionObj = FunctionObj(id: nat, isGeneratorFunction: bool)

  /** The Python values the model distinguishes. Wrapper objects travel as `Obj`. */
  datatype Value =
    | NoneValue
    | BoolValue(b: bool)
    | IntValue(i: int)
    | StrValue(s: string)
    | Function(f: FunctionObj)
    | Obj(o: object)

  /** The exceptions that can leave a call into a generator or a wrapper. */
  datatype PyError =
    | StopIteration(value: Value)       // completion of a generator, carrying its return value
    | GeneratorRunning                  // ValueError: generator already executing
    | NonNoneToJustStarted              // TypeError: can't send non-None value to a just-started generator
    | StopIterationInGenerator          // RuntimeError: a StopIteration escaped the generator's code (PEP 479)
    | GeneratorExit                     // what `close` throws in at the suspension point
    | IgnoredGeneratorExit              // RuntimeError: generator ignored GeneratorExit
    | NoGenerator                       // AttributeError: the wrapper's generator is None
    | WeakRefToNone                     // TypeError: cannot create weak reference to 'NoneType' object
    | WrongArgumentType(param: string)  // TypeError: Expected <type> for parameter '<param>'
    | NotGeneratorFunction              // TypeError: Callable must be a generatorfunction
    | NotInitialized                    // RuntimeError: send_self wrapper has not properly been initialized yet
    | NotGeneratorFunctionValue         // ValueError: Callable must be a generatorfunction
    | UserError(code: int)              // any other exception, raised by user code or thrown in by a caller

  /** The outcome of a Python call: a returned value or a raised exception. */
  datatype Result<T> = Ok(value: T) | Err(error: PyError)

  /** What a resume delivers at the suspension point. */
  datatype Input = Sent(value: Value) | Thrown(error: PyError)

  /** What the generator's code does with the inputs delivered so far. */
  datatype Reaction = Yielded(value: Value) | Completed(value: Value) | Raised(error: PyError)

  /**
   * A generator's code, seen from outside: given every input delivered so
   * far (the last one being the one it now resumes with), it either yields,
   * returns, or raises.
   */
  type Body = seq<Input> -> Reaction

  /**
   * `inspect.getgeneratorstate`: `gi_running` holds exactly in `Running`,
   * `gi_frame is None` exactly in `Closed`. A running generator remembers
   * the input it is working on.
   */
  datatype GenState = Created | Running(input: Input) | Suspended | Closed

  /** A generator's state together with the inputs its code has consumed. */
  datatype Snapshot = Snapshot(state: GenState, history: seq<Input>)

  /** Whether delivering `input` in state `s` lets the generator's code run. */
  predicate Runs(s: GenState, input: Input) {
    s == Suspended || (s == Created && input == Sent(NoneValue))
  }

  /** PEP 479: a StopIteration escaping a generator's code is re-raised as RuntimeError. */
  function Escaped(e: PyError): (r: PyError)
    ensures !r.StopIteration?
    ensures !e.StopIteration? ==> r == e
  {
    if e.StopIteration? then StopIterationInGenerator else e
  }

  /** The generator's code runs on `input` until it yields, returns or raises. */
  function Run(g: Snapshot, body: Body, input: Input): (r: (Snapshot, Result<Value>))
    ensures r.0.history == g.history + [input]
    ensures r.1.Ok? <==> r.0.state == Suspended
    ensures r.1.Ok? <==> body(g.history + [input]).Yielded?
    // the code has stopped: suspended at a yield, or closed
    ensures r.0.state == Suspended || r.0.state == Closed
  {
    var h := g.history + [input];
    match body(h)
    case Yielded(v) => (Snapshot(Suspended, h), Ok(v))
    case Completed(v) => (Snapshot(Closed, h), Err(StopIteration(v)))
    case Raised(e) => (Snapshot(Closed, h), Err(Escaped(e)))
  }

  /**
   * `generator.send(value)` (input `Sent(value)`) and `generator.throw(e)`
   * (input `Thrown(e)`): the new snapshot and the outcome of the call.
   */
  function Step(g: Snapshot, body: Body, input: Input): (r: (Snapshot, Result<Value>))
    // a running generator is never entered a second time
    ensures g.state.Running? ==> r == (g, Err(GeneratorRunning))
    // nothing leaves Closed, and a closed generator only raises
    ensures g.state == Closed ==> r.0 == g && r.1.Err?
    ensures g.state == Closed && input.Sent? ==> r.1 == Err(StopIteration(NoneValue))
    ensures g.state == Closed && input.Thrown? ==> r.1 == Err(input.error)
    // the code runs exactly when Runs says so, and then the input is consumed
    ensures Runs(g.state, input) ==> r == Run(g, body, input)
    ensures !Runs(g.state, input) ==> r.0.history == g.history && r.1.Err?
    // a step leaves the generator running only if it was running already
    ensures r.0.state.Running? ==> g.state.Running?
  {
    match g.state
    case Running(_) => (g, Err(GeneratorRunning))
    case Closed =>
      (g, Err(if input.Sent? then StopIteration(NoneValue) else input.error))
    case Created =>
      if input.Thrown? then (Snapshot(Closed, g.history), Err(Escaped(input.error)))
      else if input.value != NoneValue then (g, Err(NonNoneToJustStarted))
      else Run(g, body, input)
    case Suspended => Run(g, body, input)
  }

  /** `generator.close()`. */
  function CloseStep(g: Snapshot, body: Body): (r: (Snapshot, Result<Value>))
    ensures g.state.Running? ==> r == (g, Err(GeneratorRunning))
    // unless it is running or ignores GeneratorExit, the generator ends closed
    ensures r.0.state == Closed || g.state.Running? || (g.state == Suspended && r == (Snapshot(Suspended, g.history + [Thrown(GeneratorExit)]), Err(IgnoredGeneratorExit)))
    // a successful close returns None and leaves the generator closed
    ensures r.1.Ok? ==> r.1.value == NoneValue && r.0.state == Closed
    // code runs only in a suspended generator, and then it receives GeneratorExit
    ensures r.0.history == (if g.state == Suspended then g.history + [Thrown(GeneratorExit)] else g.history)
  {
    match g.state
    case Running(_) => (g, Err(GeneratorRunning))
    case Created => (Snapshot(Closed, g.history), Ok(NoneValue))
    case Closed => (g, Ok(NoneValue))
    case Suspended =>
      var h := g.history + [Thrown(GeneratorExit)];
      match body(h)
      case Yielded(_) => (Snapshot(Suspended, h), Err(IgnoredGeneratorExit))
      case Completed(_) => (Snapshot(Closed, h), Ok(NoneValue))
      case Raised(e) =>
        (Snapshot(Closed, h), if e == GeneratorExit then Ok(NoneValue) else Err(Escaped(e)))
  }

  /** A Python generator object. */
  class Generator {
    var state: GenState
    var history: seq<Input>
    const body: Body
    /** The weak reference without a callback that CPython keeps on the object for reuse, if any. */
    var plainRef: WeakRef?

    /** Calling a generator function: nothing runs yet. */
    constructor (body: Body)
      ensures state == Created && history == [] && this.body == body && plainRef == null
    {
      state := Created;
      history := [];
      this.body := body;
      plainRef := null;
    }

    function Now(): Snapshot
      reads this
    {
      Snapshot(state, history)
    }

    /**
     * First half of a resume: the interpreter either refuses the call, or
     * marks the generator running and enters its code. Between `Begin` and
     * `Finish` other threads see `gi_running`.
     */
    method Begin(input: Input) returns (refused: Option<Result<Value>>)
      modifies this
      ensures refused.None? <==> Runs(old(state), input)
      ensures refused.None? ==> state == Running(input) && history == old(history)
      ensures refused.Some? ==> (Now(), refused.value) == Step(old(Now()), body, input)
      ensures plainRef == old(plainRef)
    {
      if Runs(state, input) {
        state := Running(input);
        refused := None;
      } else {
        var next := Step(Now(), body, input);
        state, history := next.0.state, next.0.history;
        refused := Some(next.1);
      }
    }

    /** Second half of a resume: the code yields, returns or raises. */
    method Finish() returns (r: Result<Value>)
      requires state.Running?
      modifies this
      ensures (Now(), r) == Run(old(Now()), body, old(state).input)
      ensures plainRef == old(plainRef)
    {
      var next := Run(Now(), body, state.input);
      state, history := next.0.state, next.0.history;
      r := next.1;
    }

    /** `generator.send(value)`; `next(generator)` is `Send(NoneValue)`. */
    method Send(value: Value) returns (r: Result<Value>)
      modifies this
      ensures (Now(), r) == Step(old(Now()), body, Sent(value))
      ensures plainRef == old(plainRef)
    {
      r := Resume(Sent(value));
    }

    /** `generator.throw(error)`. */
    method Throw(error: PyError) returns (r: Result<Value>)
      modifies this
      ensures (Now(), r) == Step(old(Now()), body, Thrown(error))
      ensures plainRef == old(plainRef)
    {
      r := Resume(Thrown(error));
    }

    method Resume(input: Input) returns (r: Result<Value>)
      modifies this
      ensures (Now(), r) == Step(old(Now()), body, input)
      ensures plainRef == old(plainRef)
    {
      var refused := Begin(input);
      if refused.Some? {
        r := refused.value;
      } else {
        r := Finish();
      }
    }

    /** `generator.close()`. */
    method Close() returns (r: Result<Value>)
      modifies this
      ensures (Now(), r) == CloseStep(old(Now()), body)
      ensures plainRef == old(plainRef)
    {
      var next := CloseStep(Now(), body);
      state, history := next.0.state, next.0.history;
      r := next.1;
    }
  }

  /**
   * A `weakref.ref` slot: its target becomes None when the generator is
   * reclaimed, and its callback (the finalize callback) is then called once.
   */
  class WeakRef {
    var target: Generator?
    const callback: Option<Value>

    /** `weakref.ref(generator, callback)`. */
    constructor (target: Generator, callback: Option<Value>)
      ensures this.target == target && this.callback == callback
    {
      this.target := target;
      this.callback := callback;
    }

    /**
     * The collector reclaims the target. Returns the callback that fires:
     * the slot's callback the first time, nothing once the target is gone.
     */
    method Reclaim() returns (fired: Option<Value>)
      modifies this
      ensures target == null
      ensures fired == (if old(target) != null then callback else None)
    {
      fired := if target != null then callback else None;
      target := null;
    }
  }

  /** Whether `g` holds a callback-free weak reference to itself that `weakref.ref(g)` hands out again. */
  predicate Reusable(g: Generator)
    reads g, g.plainRef
  {
    g.plainRef != null && g.plainRef.target == g && g.plainRef.callback == None
  }

  /**
   * `weakref.ref(target, callback)`: without a callback, CPython returns
   * the callback-free reference the object already has, if any, and
   * otherwise records the new one for reuse; with a callback it always
   * makes a new reference.
   */
  method NewRef(target: Generator, callback: Option<Value>) returns (r: WeakRef)
    modifies target
    ensures r.target == target && r.callback == callback
    ensures callback.None? && old(Reusable(target)) ==> r == old(target.plainRef)
    ensures !(callback.None? && old(Reusable(target))) ==> fresh(r)
    ensures target.plainRef == (if callback.None? then r else old(target.plainRef))
    ensures target.Now() == old(target.Now())
  {
    if callback.None? && Reusable(target) {
      r := target.plainRef;
    } else {
      r := new WeakRef(target, callback);
      if callback.None? {
        target.plainRef := r;
      }
    }
  }

  /**
   * `==` on weak references: while both targets are alive they compare as
   * their targets do (generators compare by identity); otherwise only the
   * same slot object is equal to itself.
   */
  predicate SlotEq(a: WeakRef, b: WeakRef)
    reads a, b
    ensures SlotEq(a, b) <==> a == b || (a.target != null && a.target == b.target)
    ensures SlotEq(a, b) ==> (a.target == null <==> b.target == null)
  {
    if a.target != null && b.target != null then a.target == b.target else a == b
  }
}
