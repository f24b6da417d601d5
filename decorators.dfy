/*
 * The `send_self` and `send_self_return` decorators: they check their
 * configuration, and each call of the decorated generator function starts a
 * generator and sends it a weak wrapper of itself.
 */
module Decorators {
  import opened PyRuntime
  import opened GeneratorWrappers

  /** The keyword parameters the type table checks. */
  datatype Param = CatchStopIterationParam | DebugParam | FinalizeCallbackParam

  function ParamName(p: Param): string {
    match p
    case CatchStopIterationParam => "catch_stopiteration"
    case DebugParam => "debug"
    case FinalizeCallbackParam => "finalize_callback"
  }

  /**
   * `callable(value)`: functions, and the objects of the model whose class
   * defines `__call__` — wrappers, weak references and decorator objects.
   * Generators are not callable.
   */
  predicate IsCallable(v: Value) {
    v.Function? || (v.Obj? && (v.o is Wrapper || v.o is WeakRef || v.o is SendSelf))
  }

  /** `inspect.isgeneratorfunction(value)`. */
  predicate IsGeneratorFunction(v: Value) {
    v.Function? && v.f.isGeneratorFunction
  }

  /** `isinstance(val, type_)` for an entry of the type table. */
  predicate HasExpectedType(p: Param, v: Value) {
    match p
    case CatchStopIterationParam => v.BoolValue?
    case DebugParam => v.BoolValue?
    case FinalizeCallbackParam => IsCallable(v) || v.NoneValue?
  }

  /**
   * The loop over the type table: the index of the first entry whose value
   * has the wrong type, or the table's length when every entry is right.
   */
  method FirstMismatch(table: seq<(Param, Value)>) returns (k: nat)
    ensures k <= |table|
    ensures forall j :: 0 <= j < k ==> HasExpectedType(table[j].0, table[j].1)
    ensures k < |table| ==> !HasExpectedType(table[k].0, table[k].1)
  {
    k := 0;
    while k < |table|
      invariant k <= |table|
      invariant forall j :: 0 <= j < k ==> HasExpectedType(table[j].0, table[j].1)
    {
      if !HasExpectedType(table[k].0, table[k].1) {
        return;
      }
      k := k + 1;
    }
  }

  /**
   * The error `send_self(func, catch_stopiteration=..., finalize_callback=...,
   * debug=...)` raises, if any: a `func` that is given but is not a
   * generator function first, then the first parameter, in the order
   * catch_stopiteration, debug, finalize_callback, with the wrong type.
   */
  function ConfigError(func: Value, catchStopIteration: Value, finalizeCallback: Value, debug: Value): (e: Option<PyError>)
    ensures e.None? <==>
      (func.NoneValue? || IsGeneratorFunction(func)) &&
      catchStopIteration.BoolValue? && debug.BoolValue? &&
      (finalizeCallback.NoneValue? || IsCallable(finalizeCallback))
    ensures !func.NoneValue? && !IsGeneratorFunction(func) ==> e == Some(NotGeneratorFunction)
    // otherwise the first entry of the type table with the wrong type is named
    ensures e == Some(WrongArgumentType(ParamName(CatchStopIterationParam))) <==>
      (func.NoneValue? || IsGeneratorFunction(func)) &&
      !HasExpectedType(CatchStopIterationParam, catchStopIteration)
    ensures e == Some(WrongArgumentType(ParamName(DebugParam))) <==>
      (func.NoneValue? || IsGeneratorFunction(func)) &&
      HasExpectedType(CatchStopIterationParam, catchStopIteration) &&
      !HasExpectedType(DebugParam, debug)
    ensures e == Some(WrongArgumentType(ParamName(FinalizeCallbackParam))) <==>
      (func.NoneValue? || IsGeneratorFunction(func)) &&
      HasExpectedType(CatchStopIterationParam, catchStopIteration) &&
      HasExpectedType(DebugParam, debug) &&
      !HasExpectedType(FinalizeCallbackParam, finalizeCallback)
    ensures e.Some? ==> e.value == NotGeneratorFunction || e.value.WrongArgumentType?
  {
    if !func.NoneValue? && !IsGeneratorFunction(func) then Some(NotGeneratorFunction)
    else if !HasExpectedType(CatchStopIterationParam, catchStopIteration) then
      Some(WrongArgumentType(ParamName(CatchStopIterationParam)))
    else if !HasExpectedType(DebugParam, debug) then Some(WrongArgumentType(ParamName(DebugParam)))
    else if !HasExpectedType(FinalizeCallbackParam, finalizeCallback) then
      Some(WrongArgumentType(ParamName(FinalizeCallbackParam)))
    else None
  }

  /**
   * Wrappers are callable objects and generators are not: so
   * `send_self(finalize_callback=wrapper)` passes the type checks, and a
   * wrapper given to a bare decorator is a callable that is not a
   * generator function.
   */
  lemma WrappersAreCallable(w: Wrapper, g: Generator)
    ensures IsCallable(Obj(w)) && !IsGeneratorFunction(Obj(w))
    ensures !IsCallable(Obj(g))
    ensures ConfigError(NoneValue, BoolValue(true), Obj(w), BoolValue(false)) == None
  {
  }

  /** What calling the decorator returns. */
  datatype Called =
    | Decorated                  // `self`, once the delayed decoration has taken the function
    | StartedWrapper(w: Wrapper) // `send_self`: the strong wrapper
    | FirstYield(v: Value)       // `send_self_return`: the first value the generator yielded

  /**
   * What starting the fresh generator `g` leaves behind: `next(g)` once,
   * whose exception propagates unchanged; otherwise a new slot on `g` with
   * the finalize callback (recorded on `g` for reuse when there is no
   * callback), and one wrapper send of `handle`, a weak wrapper
   * on that slot with the decorator's flags; the result is the strong
   * wrapper (`send_self`) or the first yielded value (`send_self_return`),
   * unless that send raised.
   */
  ghost predicate Started(g: Generator, catchStopIteration: bool, debug: bool,
                          finalizeCallback: Option<Value>, returnsFirstYield: bool,
                          handle: Wrapper?, r: Result<Called>)
    reads g, if handle == null then {} else {handle.args.slot}
  {
    var first := Step(Snapshot(Created, []), g.body, Sent(NoneValue));
    if first.1.Err? then
      r == Err(first.1.error) && g.Now() == first.0
    else
      handle != null && handle.kind == Weak &&
      handle.args == Args(handle.args.slot, catchStopIteration, debug) &&
      handle.args.slot.target == g && handle.args.slot.callback == finalizeCallback &&
      g.plainRef == (if finalizeCallback.None? then handle.args.slot else null) &&
      var second := Step(first.0, g.body, Sent(Obj(handle)));
      var sent := Deliver(catchStopIteration, second.1);
      g.Now() == second.0 &&
      g.history == [Sent(NoneValue), Sent(Obj(handle))] &&
      (sent.Err? ==> r == Err(sent.error)) &&
      (sent.Ok? && returnsFirstYield ==> r == Ok(FirstYield(first.1.value))) &&
      (sent.Ok? && !returnsFirstYield ==>
        r.Ok? && r.value.StartedWrapper? && r.value.w.kind == Strong &&
        r.value.w.strongRef == g && r.value.w.args == handle.args)
  }

  /** A `send_self` (or, with `returnsFirstYield`, a `send_self_return`) decorator object. */
  class SendSelf {
    var func: Option<FunctionObj>
    const catchStopIteration: bool
    const finalizeCallback: Option<Value>
    const debug: bool
    const returnsFirstYield: bool

    constructor (func: Option<FunctionObj>, catchStopIteration: bool, finalizeCallback: Option<Value>,
                 debug: bool, returnsFirstYield: bool)
      ensures this.func == func && this.catchStopIteration == catchStopIteration
      ensures this.finalizeCallback == finalizeCallback && this.debug == debug
      ensures this.returnsFirstYield == returnsFirstYield
    {
      this.func := func;
      this.catchStopIteration := catchStopIteration;
      this.finalizeCallback := finalizeCallback;
      this.debug := debug;
      this.returnsFirstYield := returnsFirstYield;
    }

    /** `send_self.__init__`: type-check the configuration, then keep it. */
    static method New(func: Value, catchStopIteration: Value, finalizeCallback: Value, debug: Value,
                      returnsFirstYield: bool)
      returns (r: Result<SendSelf>)
      ensures r.Err? <==> ConfigError(func, catchStopIteration, finalizeCallback, debug).Some?
      ensures r.Err? ==> r.error == ConfigError(func, catchStopIteration, finalizeCallback, debug).value
      ensures r.Ok? ==>
        (fresh(r.value) &&
         r.value.func == (if func.Function? then Some(func.f) else None) &&
         r.value.catchStopIteration == catchStopIteration.b && r.value.debug == debug.b &&
         r.value.finalizeCallback == (if finalizeCallback.NoneValue? then None else Some(finalizeCallback)) &&
         r.value.returnsFirstYield == returnsFirstYield)
    {
      if !func.NoneValue? && !IsGeneratorFunction(func) {
        return Err(NotGeneratorFunction);
      }
      var table := [(CatchStopIterationParam, catchStopIteration), (DebugParam, debug),
                    (FinalizeCallbackParam, finalizeCallback)];
      var k := FirstMismatch(table);
      if k < |table| {
        assert k > 0 ==> HasExpectedType(table[0].0, table[0].1);
        assert k > 1 ==> HasExpectedType(table[1].0, table[1].1);
        return Err(WrongArgumentType(ParamName(table[k].0)));
      }
      assert HasExpectedType(table[0].0, table[0].1);
      assert HasExpectedType(table[1].0, table[1].1);
      assert HasExpectedType(table[2].0, table[2].1);
      var f := if func.Function? then Some(func.f) else None;
      var callback := if finalizeCallback.NoneValue? then None else Some(finalizeCallback);
      var d := new SendSelf(f, catchStopIteration.b, callback, debug.b, returnsFirstYield);
      r := Ok(d);
    }

    /**
     * `__call__`: without a function yet, the first argument must be a
     * generator function and becomes it; with one, the call makes a
     * generator (whose code is `code`) and starts it.
     */
    method Call(args: seq<Value>, code: Body)
      returns (r: Result<Called>, ghost g: Generator?, ghost handle: Wrapper?)
      modifies this
      ensures old(func).None? && (|args| == 0 || !IsCallable(args[0])) ==>
        r == Err(NotInitialized) && func == None
      ensures old(func).None? && |args| > 0 && IsCallable(args[0]) && !IsGeneratorFunction(args[0]) ==>
        r == Err(NotGeneratorFunctionValue) && func == None
      ensures old(func).None? && |args| > 0 && IsGeneratorFunction(args[0]) ==>
        r == Ok(Decorated) && func == Some(args[0].f)
      ensures old(func).Some? ==>
        (func == old(func) && g != null && fresh(g) && g.body == code &&
         (handle != null ==> fresh(handle) && fresh(handle.args.slot)) &&
         Started(g, catchStopIteration, debug, finalizeCallback, returnsFirstYield, handle, r))
    {
      g, handle := null, null;
      if func.None? {
        if |args| == 0 || !IsCallable(args[0]) {
          return Err(NotInitialized), g, handle;
        }
        if !IsGeneratorFunction(args[0]) {
          return Err(NotGeneratorFunctionValue), g, handle;
        }
        func := Some(args[0].f);
        return Ok(Decorated), g, handle;
      }
      var generator := new Generator(code);
      g := generator;
      if returnsFirstYield {
        r, handle := StartGeneratorReturn(generator);
      } else {
        r, handle := StartGenerator(generator);
      }
    }

    /**
     * `send_self._start_generator`: advance the generator once, make the
     * slot with the finalize callback and the strong wrapper, send the
     * generator the strong wrapper's weak counterpart, return the strong
     * wrapper.
     */
    method StartGenerator(g: Generator) returns (r: Result<Called>, ghost handle: Wrapper?)
      requires !returnsFirstYield
      requires g.state == Created && g.history == [] && g.plainRef == null
      modifies g
      ensures handle != null ==> fresh(handle) && fresh(handle.args.slot)
      ensures Started(g, catchStopIteration, debug, finalizeCallback, false, handle, r)
    {
      handle := null;
      var first := g.Send(NoneValue);
      if first.Err? {
        return Err(first.error), handle;
      }
      var slot := NewRef(g, finalizeCallback);
      var strong := new Wrapper.MakeStrong(g, slot, catchStopIteration, debug);
      var weak := strong.WithWeakRef();
      handle := weak;
      var sent := strong.Send(Obj(weak));
      if sent.Err? {
        return Err(sent.error), handle;
      }
      r := Ok(StartedWrapper(strong));
    }

    /**
     * `send_self_return._start_generator`: the same start, except that the
     * generator receives a weak wrapper built directly on the new slot and
     * the call returns the first yielded value.
     */
    method StartGeneratorReturn(g: Generator) returns (r: Result<Called>, ghost handle: Wrapper?)
      requires returnsFirstYield
      requires g.state == Created && g.history == [] && g.plainRef == null
      modifies g
      ensures handle != null ==> fresh(handle) && fresh(handle.args.slot)
      ensures Started(g, catchStopIteration, debug, finalizeCallback, true, handle, r)
    {
      handle := null;
      var first := g.Send(NoneValue);
      if first.Err? {
        return Err(first.error), handle;
      }
      var slot := NewRef(g, finalizeCallback);
      var weak := new Wrapper.MakeWeak(slot, catchStopIteration, debug);
      handle := weak;
      var sent := weak.Send(Obj(weak));
      if sent.Err? {
        return Err(sent.error), handle;
      }
      r := Ok(FirstYield(first.value));
    }
  }

  /**
   * With no finalize callback the decorator's slot is the generator's
   * callback-free weak reference, so a strong wrapper built later on the
   * same generator without a slot shares it, and equals the decorator's
   * wrapper even once the generator is gone.
   */
  method StrongWrapperReusesSlot(d: SendSelf, code: Body) returns (started: Result<Called>, later: Result<Wrapper>)
    requires d.func.Some? && d.finalizeCallback.None? && !d.returnsFirstYield
    modifies d
    ensures started.Ok? ==>
      (started.value.StartedWrapper? && later.Ok? &&
       later.value.args == started.value.w.args && later.value.Equals(started.value.w))
  {
    ghost var g: Generator?;
    ghost var handle: Wrapper?;
    started, g, handle := d.Call([], code);
    later := Err(WeakRefToNone);
    if started.Ok? {
      var w := started.value.w;
      later := Wrapper.NewStrong(w.strongRef, null, d.catchStopIteration, d.debug);
    }
  }
}
