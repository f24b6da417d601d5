/*
 * `WeakGeneratorWrapper` and `StrongGeneratorWrapper`: handles over a
 * generator that resume it, report its state, convert between the weak and
 * the strong variant, and wait until it can be resumed.
 */
module GeneratorWrappers {
  import opened PyRuntime
  import W = WaitPolicy

  datatype Kind = Weak | Strong

  /** The `_args` tuple every wrapper keeps: its weak slot and its two flags. */
  datatype Args = Args(slot: WeakRef, catchStopIteration: bool, debug: bool)

  /** Tuple equality on `_args`; slots compare as weak references do. */
  predicate ArgsEq(x: Args, y: Args)
    reads x.slot, y.slot
    // the same flags, and the identical slot or two slots on the same live generator
    ensures ArgsEq(x, y) <==>
      (x.slot == y.slot || (x.slot.target != null && x.slot.target == y.slot.target)) &&
      x.catchStopIteration == y.catchStopIteration && x.debug == y.debug
  {
    SlotEq(x.slot, y.slot) && x.catchStopIteration == y.catchStopIteration && x.debug == y.debug
  }

  /**
   * What a wrapper makes of a generator's outcome: with `catch_stopiteration`
   * a StopIteration becomes the value it carries, everything else passes.
   */
  function Deliver(catchStopIteration: bool, r: Result<Value>): (d: Result<Value>)
    ensures catchStopIteration ==> !(d.Err? && d.error.StopIteration?)
    ensures catchStopIteration && r.Err? && r.error.StopIteration? ==> d == Ok(r.error.value)
    ensures !(catchStopIteration && r.Err? && r.error.StopIteration?) ==> d == r
  {
    if catchStopIteration && r.Err? && r.error.StopIteration? then Ok(r.error.value) else r
  }

  /** One resume through a wrapper: the generator's step, then `Deliver`. */
  function WrapperStep(catchStopIteration: bool, g: Snapshot, body: Body, input: Input): (r: (Snapshot, Result<Value>))
    // a running generator is not stepped again: the call fails and nothing changes
    ensures g.state.Running? ==> r == (g, Err(GeneratorRunning))
    ensures r.0 == Step(g, body, input).0
    // completion is a returned value with catch_stopiteration, a StopIteration without
    ensures Runs(g.state, input) && body(g.history + [input]).Completed? ==>
      r == (Snapshot(Closed, g.history + [input]),
            var v := body(g.history + [input]).value;
            if catchStopIteration then Ok(v) else Err(StopIteration(v)))
    // a yield is returned as it is, whatever the flag
    ensures Runs(g.state, input) && body(g.history + [input]).Yielded? ==>
      r == (Snapshot(Suspended, g.history + [input]), Ok(body(g.history + [input]).value))
    // a finished generator answers `next`/`send` with None when catching
    ensures g.state == Closed && input.Sent? ==>
      r == (g, if catchStopIteration then Ok(NoneValue) else Err(StopIteration(NoneValue)))
  {
    var s := Step(g, body, input);
    (s.0, Deliver(catchStopIteration, s.1))
  }

  /** `_next`, `_send` and `_throw`, with their arguments. */
  datatype Request = Next | SendValue(value: Value) | ThrowError(error: PyError)

  function InputOf(q: Request): Input {
    match q
    case Next => Sent(NoneValue)
    case SendValue(v) => Sent(v)
    case ThrowError(e) => Thrown(e)
  }

  /**
   * One round of the wait loop as the environment plays it: whether the
   * non-blocking acquire succeeds, whether a step that another thread is
   * running inside the generator finishes first, and how long the round takes.
   */
  datatype Round = Round(acquired: bool, stepEnds: bool, elapsed: real)

  predicate Quiet(schedule: seq<Round>) {
    forall k :: 0 <= k < |schedule| ==> !schedule[k].stepEnds
  }

  /** What a poll under the lock reports of a generator in state `s`. */
  function ViewOf(s: GenState): (v: W.View)
    ensures v == W.Resumable <==> Runs(s, Sent(NoneValue))
    ensures v == W.Gone <==> s == Closed
    ensures v == W.Busy <==> s.Running?
  {
    if s == Closed then W.Gone else if s.Running? then W.Busy else W.Resumable
  }

  /** The generator once the step another caller is running inside it has ended. */
  function Settled(g: Snapshot, body: Body): (s: Snapshot)
    ensures !s.state.Running?
    ensures !g.state.Running? ==> s == g
  {
    if g.state.Running? then Run(g, body, g.state.input).0 else g
  }

  /**
   * The generator `g` as a waiter finds it after `rounds`: unchanged, or
   * settled once one of the rounds let the other caller's step end.
   */
  function Observed(g: Snapshot, body: Body, rounds: seq<Round>): Snapshot
    decreases |rounds|
  {
    if rounds == [] then g
    else if rounds[|rounds| - 1].stepEnds then Settled(g, body)
    else Observed(g, body, rounds[..|rounds| - 1])
  }

  /** A waiter finds the generator either as it was or with the other step ended. */
  lemma {:induction false} ObservedIsStartOrSettled(g: Snapshot, body: Body, rounds: seq<Round>)
    ensures Observed(g, body, rounds) == g || Observed(g, body, rounds) == Settled(g, body)
    ensures Quiet(rounds) ==> Observed(g, body, rounds) == g
    decreases |rounds|
  {
    if rounds != [] && !rounds[|rounds| - 1].stepEnds {
      ObservedIsStartOrSettled(g, body, rounds[..|rounds| - 1]);
    }
  }

  /**
   * The rounds a waiter polls, as it sees them: each round's lock try and
   * time, with the view of the generator `g` as observed by then.
   */
  function Polls(g: Snapshot, body: Body, rounds: seq<Round>): (ps: seq<W.Poll>)
    decreases |rounds|
    ensures |ps| == |rounds|
  {
    if rounds == [] then []
    else
      var last := rounds[|rounds| - 1];
      Polls(g, body, rounds[..|rounds| - 1]) +
      [W.Poll(last.acquired, ViewOf(Observed(g, body, rounds).state), last.elapsed)]
  }

  /** Round `k` of `Polls`: its lock try, its time, and the generator as seen after rounds `0..k`. */
  lemma {:induction false} PollsAt(g: Snapshot, body: Body, rounds: seq<Round>, k: nat)
    requires k < |rounds|
    ensures Polls(g, body, rounds)[k] ==
      W.Poll(rounds[k].acquired, ViewOf(Observed(g, body, rounds[..k + 1]).state), rounds[k].elapsed)
    decreases |rounds|
  {
    var n := |rounds| - 1;
    if k == n {
      assert rounds[..k + 1] == rounds;
    } else {
      assert rounds[..n][..k + 1] == rounds[..k + 1];
      PollsAt(g, body, rounds[..n], k);
    }
  }

  /**
   * How a wait ends: the resume's own outcome (returned or raised), the
   * RuntimeError "already terminated", a WaitTimeoutError carrying the
   * configured timeout, or still looping when the schedule runs out.
   */
  datatype WaitResult = Resumed(result: Result<Value>) | Terminated | TimedOut(timeout: real) | StillWaiting

  function VerdictOf(r: WaitResult): W.Verdict {
    match r
    case Resumed(_) => W.Resume
    case Terminated => W.Terminated
    case TimedOut(_) => W.TimedOut
    case StillWaiting => W.Undecided
  }

  /**
   * A weak (`WeakGeneratorWrapper`) or strong (`StrongGeneratorWrapper`)
   * wrapper. Its attributes are fixed at construction.
   */
  class Wrapper {
    const kind: Kind
    /** The strong wrapper's own `generator` attribute; null for a weak wrapper. */
    const strongRef: Generator?
    const args: Args

    /** `WeakGeneratorWrapper(weak_generator, catch_stopiteration, debug)`. */
    constructor MakeWeak(slot: WeakRef, catchStopIteration: bool, debug: bool)
      ensures kind == Weak && strongRef == null
      ensures args == Args(slot, catchStopIteration, debug)
    {
      kind := Kind.Weak;
      strongRef := null;
      args := Args(slot, catchStopIteration, debug);
    }

    /** `StrongGeneratorWrapper(generator, weak_generator, ...)` with the slot given. */
    constructor MakeStrong(generator: Generator?, slot: WeakRef, catchStopIteration: bool, debug: bool)
      ensures kind == Strong && strongRef == generator
      ensures args == Args(slot, catchStopIteration, debug)
    {
      kind := Kind.Strong;
      strongRef := generator;
      args := Args(slot, catchStopIteration, debug);
    }

    /**
     * `StrongGeneratorWrapper.__init__`: without a slot it takes
     * `weakref.ref(generator)`, which fails for `None` and reuses the
     * generator's callback-free reference when it has one.
     */
    static method NewStrong(generator: Generator?, slot: WeakRef?, catchStopIteration: bool, debug: bool)
      returns (r: Result<Wrapper>)
      modifies if slot == null && generator != null then {generator} else {}
      ensures slot == null && generator == null ==> r == Err(WeakRefToNone)
      ensures slot != null ==> r.Ok? && fresh(r.value) && r.value.args.slot == slot
      ensures slot == null && generator != null ==>
        (r.Ok? && fresh(r.value) &&
         r.value.args.slot.target == generator && r.value.args.slot.callback == None &&
         (old(Reusable(generator)) ==> r.value.args.slot == old(generator.plainRef)) &&
         (!old(Reusable(generator)) ==> fresh(r.value.args.slot)) &&
         generator.plainRef == r.value.args.slot && generator.Now() == old(generator.Now()))
      ensures r.Ok? ==>
        (r.value.kind == Strong && r.value.strongRef == generator &&
         r.value.args.catchStopIteration == catchStopIteration && r.value.args.debug == debug)
    {
      var s: WeakRef;
      if slot != null {
        s := slot;
      } else if generator != null {
        s := NewRef(generator, None);
      } else {
        return Err(WeakRefToNone);
      }
      var w := new Wrapper.MakeStrong(generator, s, catchStopIteration, debug);
      r := Ok(w);
    }

    /** The `generator` attribute: the strong reference, or the weak slot's target. */
    function Target(): (t: Generator?)
      reads args.slot
      ensures kind == Weak ==> t == args.slot.target
      // a strong wrapper answers with its own reference even once the slot is cleared
      ensures kind == Strong ==> t == strongRef
      ensures Coherent() ==> t == args.slot.target
    {
      if kind == Strong then strongRef else args.slot.target
    }

    function Reach(): set<Generator>
      reads args.slot
    {
      if Target() == null then {} else {Target()}
    }

    /** The library's wrappers: a strong wrapper's slot designates its own generator. */
    predicate Coherent()
      reads args.slot
    {
      kind == Strong ==> strongRef == args.slot.target
    }

    /** `can_resume`: the generator exists and is neither running nor closed. */
    predicate CanResume()
      reads args.slot, Reach()
      // exactly when `next()` would run the generator's code
      ensures CanResume() <==> Target() != null && Runs(Target().state, Sent(NoneValue))
    {
      var g := Target();
      g != null && !g.state.Running? && g.state != Closed
    }

    /** What `_wait` sees under the lock: `can_resume()`, else `has_terminated()`, else busy. */
    function View(): (v: W.View)
      reads args.slot, Reach()
      ensures v == W.Resumable <==> CanResume()
      ensures v == W.Gone <==> HasTerminated()
    {
      if Target() == null then W.Gone else ViewOf(Target().state)
    }

    /** `has_terminated`: the generator is gone or closed. */
    predicate HasTerminated()
      reads args.slot, Reach()
      ensures HasTerminated() ==> !CanResume()
      // the remaining case is a generator some other caller is running
      ensures !HasTerminated() && !CanResume() <==> Target() != null && Target().state.Running?
    {
      var g := Target();
      g == null || g.state == Closed
    }

    /**
     * `__eq__`: wrappers of different kinds are never equal; weak wrappers
     * are equal when their `_args` are; strong ones must also hold the same
     * generator.
     */
    predicate Equals(other: Wrapper)
      reads args.slot, other.args.slot
      ensures Equals(other) ==> kind == other.kind && args.slot.target == other.args.slot.target
      // equal wrappers that reach a generator reach the same one
      ensures Equals(other) && Coherent() && other.Coherent() ==> Target() == other.Target()
    {
      kind == other.kind && ArgsEq(args, other.args) &&
      (kind == Strong ==> strongRef == other.strongRef)
    }

    /** `with_strong_ref` (also `__call__` of a weak wrapper). */
    method WithStrongRef() returns (w: Wrapper)
      ensures w.kind == Strong && w.args == args && w.strongRef == Target()
      ensures kind == Weak || Coherent() ==> w.Coherent()
      ensures kind == Strong ==> w == this
      ensures kind == Weak ==> fresh(w)
    {
      if kind == Strong {
        w := this;
        assert w.strongRef == Target();
      } else {
        w := new Wrapper.MakeStrong(Target(), args.slot, args.catchStopIteration, args.debug);
      }
    }

    /** `with_weak_ref` (also `__call__` of a strong wrapper). */
    method WithWeakRef() returns (w: Wrapper)
      ensures w.kind == Weak && w.args == args
      ensures kind == Weak ==> w == this
      ensures kind == Strong ==> fresh(w)
    {
      if kind == Weak {
        w := this;
      } else {
        w := new Wrapper.MakeWeak(args.slot, args.catchStopIteration, args.debug);
      }
    }

    /**
     * `_send(generator, value)` / `_throw(generator, error)` on the generator
     * the bound method captured: delegate, and catch StopIteration if asked.
     */
    method Resume(g: Generator?, input: Input) returns (r: Result<Value>)
      modifies if g == null then {} else {g}
      ensures g == null ==> r == Err(NoGenerator)
      ensures g != null ==> (g.Now(), r) == WrapperStep(args.catchStopIteration, old(g.Now()), g.body, input)
      ensures g != null ==> g.plainRef == old(g.plainRef)
    {
      if g == null {
        return Err(NoGenerator);
      }
      var raw := g.Resume(input);
      r := Deliver(args.catchStopIteration, raw);
    }

    /** `next()`. */
    method Next() returns (r: Result<Value>)
      modifies Reach()
      ensures Target() == null ==> r == Err(NoGenerator)
      ensures Target() != null ==>
        (Target().Now(), r) == WrapperStep(args.catchStopIteration, old(Target().Now()), Target().body, Sent(NoneValue))
      ensures Target() != null ==> Target().plainRef == old(Target().plainRef)
    {
      r := Resume(Target(), Sent(NoneValue));
    }

    /** `send(value)`. */
    method Send(value: Value) returns (r: Result<Value>)
      modifies Reach()
      ensures Target() == null ==> r == Err(NoGenerator)
      ensures Target() != null ==>
        (Target().Now(), r) == WrapperStep(args.catchStopIteration, old(Target().Now()), Target().body, Sent(value))
      ensures Target() != null ==> Target().plainRef == old(Target().plainRef)
    {
      r := Resume(Target(), Sent(value));
    }

    /** `throw(error)`. */
    method Throw(error: PyError) returns (r: Result<Value>)
      modifies Reach()
      ensures Target() == null ==> r == Err(NoGenerator)
      ensures Target() != null ==>
        (Target().Now(), r) == WrapperStep(args.catchStopIteration, old(Target().Now()), Target().body, Thrown(error))
      ensures Target() != null ==> Target().plainRef == old(Target().plainRef)
    {
      r := Resume(Target(), Thrown(error));
    }

    /** `close()`: the generator's own `close`, which StopIteration handling does not touch. */
    method Close() returns (r: Result<Value>)
      modifies Reach()
      ensures Target() == null ==> r == Err(NoGenerator)
      ensures Target() != null ==>
        (Target().Now(), r) == CloseStep(old(Target().Now()), Target().body)
      ensures Target() != null ==> Target().plainRef == old(Target().plainRef)
    {
      var g := Target();
      if g == null {
        return Err(NoGenerator);
      }
      r := g.Close();
    }

    /**
     * The start of a wait round: a step another caller is running inside
     * the generator ends if the round lets it, then the state is read.
     */
    method Observe(round: Round, ghost g0: Snapshot, ghost seen: seq<Round>) returns (view: W.View)
      requires Target() != null ==> Target().Now() == Observed(g0, Target().body, seen)
      modifies Reach()
      ensures view == View()
      ensures Target() != null ==> Target().Now() == Observed(g0, Target().body, seen + [round])
      ensures !round.stepEnds && Target() != null ==> Target().Now() == old(Target().Now())
      ensures Target() != null ==> Target().plainRef == old(Target().plainRef)
    {
      var gen := Target();
      if gen != null {
        ObservedIsStartOrSettled(g0, gen.body, seen);
      }
      if round.stepEnds && gen != null && gen.state.Running? {
        var ignored := gen.Finish();
      }
      assert (seen + [round])[..|seen|] == seen;
      view := View();
    }

    /**
     * The polling loop of `_wait`: each round tries the lock without
     * blocking and, holding it, stops on a generator that can resume or has
     * terminated; otherwise it charges the round's time to the timeout.
     * It also stops when the timeout is spent or the schedule runs out.
     */
    method AwaitDecision(timeout: W.Budget, schedule: seq<Round>) returns (verdict: W.Verdict, ghost polls: seq<W.Poll>)
      modifies Reach()
      ensures |polls| <= |schedule|
      ensures verdict == W.Decide(timeout, polls)
      ensures verdict == W.Undecided ==> |polls| == |schedule|
      ensures verdict == W.Resume ==> CanResume()
      ensures verdict == W.Terminated ==> HasTerminated()
      ensures Target() == null ==> forall k :: 0 <= k < |polls| ==>
        polls[k] == W.Poll(schedule[k].acquired, W.Gone, schedule[k].elapsed)
      ensures Target() != null ==>
        polls == Polls(old(Target().Now()), Target().body, schedule[..|polls|]) &&
        Target().Now() == Observed(old(Target().Now()), Target().body, schedule[..|polls|]) &&
        Target().plainRef == old(Target().plainRef)
    {
      var gen := Target();
      ghost var g0 := if gen == null then Snapshot(Closed, []) else gen.Now();
      polls := [];
      var budget := timeout;
      var i := 0;
      while i < |schedule| && W.Live(budget)
        invariant 0 <= i <= |schedule| && |polls| == i
        invariant budget == W.Remaining(timeout, polls)
        invariant W.Decide(timeout, polls) == W.Decide(budget, [])
        invariant Target() == gen
        invariant gen == null ==> forall k :: 0 <= k < i ==>
          polls[k] == W.Poll(schedule[k].acquired, W.Gone, schedule[k].elapsed)
        invariant gen != null ==>
          polls == Polls(g0, gen.body, schedule[..i]) &&
          gen.Now() == Observed(g0, gen.body, schedule[..i]) &&
          gen.plainRef == old(gen.plainRef)
      {
        var round := schedule[i];
        var view := Observe(round, g0, schedule[..i]);
        assert schedule[..i + 1][..i] == schedule[..i];
        var poll := W.Poll(round.acquired, view, round.elapsed);
        W.DecideAppend(timeout, polls, [poll]);
        W.RemainingSnoc(timeout, polls, poll);
        polls := polls + [poll];
        if round.acquired && view != W.Busy {
          verdict := if view == W.Resumable then W.Resume else W.Terminated;
          return;
        }
        budget := W.Spend(budget, round.elapsed);
        i := i + 1;
      }
      verdict := if W.Live(budget) then W.Undecided else W.TimedOut;
    }

    /**
     * `_wait(generator, method, timeout)` for `next_wait`, `send_wait` and
     * `throw_wait`: poll, then resume the generator through the wrapper
     * when a round found it resumable. `polls` records what each round
     * saw; `before` is the generator just before it is resumed.
     */
    method Wait(request: Request, timeout: W.Budget, schedule: seq<Round>)
      returns (r: WaitResult, ghost polls: seq<W.Poll>, ghost before: Snapshot)
      modifies Reach()
      ensures |polls| <= |schedule|
      ensures forall k :: 0 <= k < |polls| ==>
        polls[k].acquired == schedule[k].acquired && polls[k].elapsed == schedule[k].elapsed
      // the loop ends exactly as the polling decision says
      ensures VerdictOf(r) == W.Decide(timeout, polls)
      ensures r == StillWaiting ==> |polls| == |schedule|
      // it resumes only a resumable generator, exactly once, through the wrapper
      ensures r.Resumed? ==>
        (Target() != null && Runs(before.state, Sent(NoneValue)) &&
         (Target().Now(), r.result) == WrapperStep(args.catchStopIteration, before, Target().body, InputOf(request)))
      ensures r.Terminated? ==> Target() == null || Target().state == Closed
      ensures r.TimedOut? ==> timeout.Left? && r.timeout == timeout.seconds
      // each round sees the generator as it is by then
      ensures Target() == null ==> forall k :: 0 <= k < |polls| ==> polls[k].view == W.Gone
      ensures Target() != null ==> polls == Polls(old(Target().Now()), Target().body, schedule[..|polls|])
      // other callers' steps aside, the resume is the only change
      ensures Target() != null ==>
        (if r.Resumed? then before else Target().Now()) ==
        Observed(old(Target().Now()), Target().body, schedule[..|polls|])
      // with no other thread inside the generator, only the resume itself changes it
      ensures Quiet(schedule) && Target() != null ==>
        (if r.Resumed? then before == old(Target().Now()) else Target().Now() == old(Target().Now()))
    {
      var gen := Target();
      ghost var g0 := if gen == null then Snapshot(Closed, []) else gen.Now();
      var verdict;
      verdict, polls := AwaitDecision(timeout, schedule);
      before := if gen == null then Snapshot(Closed, []) else gen.Now();
      if gen != null {
        assert forall k :: 0 <= k < |schedule[..|polls|]| ==> schedule[..|polls|][k] == schedule[k];
        ObservedIsStartOrSettled(g0, gen.body, schedule[..|polls|]);
        forall k | 0 <= k < |polls|
          ensures polls[k].acquired == schedule[k].acquired && polls[k].elapsed == schedule[k].elapsed
        {
          PollsAt(g0, gen.body, schedule[..|polls|], k);
        }
      }
      match verdict
      case Resume =>
        var res := Resume(gen, InputOf(request));
        r := Resumed(res);
      case Terminated =>
        r := Terminated;
      case TimedOut =>
        r := TimedOut(timeout.seconds);
      case Undecided =>
        r := StillWaiting;
    }
  }

  /**
   * A `next()` issued while another caller is inside the generator fails at
   * once without touching it; the step already under way then finishes on
   * its own input, so the generator is stepped exactly once.
   */
  method NextDuringStep(w: Wrapper) returns (inside: Result<Value>, outside: Result<Value>)
    requires w.Target() != null && w.Target().state == Suspended
    modifies w.Reach()
    ensures inside == Err(GeneratorRunning)
    ensures w.Target().history == old(w.Target().history) + [Sent(NoneValue)]
    ensures (w.Target().Now(), outside) == Run(old(w.Target().Now()), w.Target().body, Sent(NoneValue))
  {
    var g := w.Target();
    var refused := g.Begin(Sent(NoneValue));
    inside := w.Next();
    outside := g.Finish();
  }

  /** Once `has_terminated()` holds, no resume changes the generator any more. */
  lemma TerminatedIgnoresResumes(w: Wrapper, input: Input)
    requires w.HasTerminated() && w.Target() != null
    ensures Step(w.Target().Now(), w.Target().body, input).0 == w.Target().Now()
    ensures CloseStep(w.Target().Now(), w.Target().body).0 == w.Target().Now()
  {
  }

  /** Weak and strong wrappers never compare equal. */
  lemma WeakNeverEqualsStrong(a: Wrapper, b: Wrapper)
    requires a.kind == Weak && b.kind == Strong
    ensures !a.Equals(b) && !b.Equals(a)
  {
  }

  /**
   * `__eq__` is an equivalence: weak-reference equality is, even though it
   * switches from comparing targets to comparing slot identity.
   */
  lemma EqualsIsEquivalence(a: Wrapper, b: Wrapper, c: Wrapper)
    ensures a.Equals(a)
    ensures a.Equals(b) ==> b.Equals(a)
    ensures a.Equals(b) && b.Equals(c) ==> a.Equals(c)
  {
  }

  /**
   * Two weak wrappers on distinct slots of the same live generator, with the
   * same flags, are equal.
   */
  lemma DistinctSlotsSameGeneratorEqual(a: Wrapper, b: Wrapper)
    requires a.kind == Weak && b.kind == Weak
    requires a.args.slot.target != null && a.args.slot.target == b.args.slot.target
    requires a.args.catchStopIteration == b.args.catchStopIteration && a.args.debug == b.args.debug
    ensures a.Equals(b)
  {
  }

  /**
   * The conversion chains of the package's tests: converting away and back
   * ends on a wrapper of the same kind, on the identical slot, equal to the
   * start; converting to the kind a wrapper already has returns it.
   */
  method ConversionRoundTrip(w: Wrapper) returns (there: Wrapper, thereAgain: Wrapper, back: Wrapper, backAgain: Wrapper)
    requires w.Coherent()
    ensures there.kind != w.kind && there.args == w.args
    ensures thereAgain == there
    ensures back.kind == w.kind && back.args.slot == w.args.slot && back.Equals(w) && w.Equals(back)
    ensures backAgain == back
  {
    if w.kind == Weak {
      there := w.WithStrongRef();
      thereAgain := there.WithStrongRef();
      back := thereAgain.WithWeakRef();
      backAgain := back.WithWeakRef();
    } else {
      there := w.WithWeakRef();
      thereAgain := there.WithWeakRef();
      back := thereAgain.WithStrongRef();
      backAgain := back.WithStrongRef();
    }
  }
}
