/*
 * The decision the wait loop of `WeakGeneratorWrapper._wait` takes, as a
 * function of what each polling round observed. Each round tries the lock
 * without blocking; with the lock it finds the generator resumable, busy
 * (running) or gone (collected or closed); then it spends the time the
 * round took from the timeout budget.
 */
module WaitPolicy {

  /** The timeout: `None` waits forever, a number is the seconds left. */
  datatype Budget = Forever | Left(seconds: real)

  /** What `can_resume()` / `has_terminated()` report under the lock. */
  datatype View = Resumable | Busy | Gone

  /** One round: whether the non-blocking acquire succeeded, what was seen, and how long it took. */
  datatype Poll = Poll(acquired: bool, view: View, elapsed: real)

  datatype Verdict = Resume | Terminated | TimedOut | Undecided

  /** The loop guard `timeout is None or timeout > 0`. */
  predicate Live(b: Budget) {
    b.Forever? || b.seconds > 0.0
  }

  /** `timeout -= time.time() - last_time`, skipped for `None`. */
  function Spend(b: Budget, elapsed: real): Budget {
    if b.Forever? then b else Left(b.seconds - elapsed)
  }

  /** A round that ends the wait, provided it is reached. */
  predicate Decisive(p: Poll) {
    p.acquired && p.view != Busy
  }

  /** The budget left after the rounds in `polls`. */
  function Remaining(b: Budget, polls: seq<Poll>): Budget
    decreases |polls|
  {
    if polls == [] then b else Remaining(Spend(b, polls[0].elapsed), polls[1..])
  }

  /** Total time the rounds took. */
  function Spent(polls: seq<Poll>): real
    decreases |polls|
  {
    if polls == [] then 0.0 else polls[0].elapsed + Spent(polls[1..])
  }

  /**
   * How the loop ends on these rounds: before each round the budget must
   * be live, a round that holds the lock and finds the generator resumable
   * resumes it, one that finds it gone fails, any other round only spends
   * time. `Undecided` means the rounds ran out with the loop still going.
   */
  function Decide(b: Budget, polls: seq<Poll>): (v: Verdict)
    decreases |polls|
    ensures b.Forever? ==> v != TimedOut
    ensures v == Undecided ==> Live(Remaining(b, polls))
    ensures v == Resume ==> exists k :: 0 <= k < |polls| && polls[k].acquired && polls[k].view == Resumable
    ensures v == Terminated ==> exists k :: 0 <= k < |polls| && polls[k].acquired && polls[k].view == Gone
  {
    if !Live(b) then TimedOut
    else if polls == [] then Undecided
    else if polls[0].acquired && polls[0].view == Resumable then
      Resume
    else if polls[0].acquired && polls[0].view == Gone then
      Terminated
    else
      Decide(Spend(b, polls[0].elapsed), polls[1..])
  }

  /** The budget after one more round. */
  lemma {:induction false} RemainingSnoc(b: Budget, polls: seq<Poll>, p: Poll)
    ensures Remaining(b, polls + [p]) == Spend(Remaining(b, polls), p.elapsed)
    decreases |polls|
  {
    if polls == [] {
      assert polls + [p] == [p];
    } else {
      assert (polls + [p])[1..] == polls[1..] + [p];
      RemainingSnoc(Spend(b, polls[0].elapsed), polls[1..], p);
    }
  }

  /** While undecided, later rounds are judged against the budget that is left. */
  lemma {:induction false} DecideAppend(b: Budget, polls: seq<Poll>, more: seq<Poll>)
    requires Decide(b, polls) == Undecided
    ensures Decide(b, polls + more) == Decide(Remaining(b, polls), more)
    decreases |polls|
  {
    if polls == [] {
      assert polls + more == more;
    } else {
      assert (polls + more)[0] == polls[0];
      assert (polls + more)[1..] == polls[1..] + more;
      DecideAppend(Spend(b, polls[0].elapsed), polls[1..], more);
    }
  }

  /** A finite budget is spent by exactly the total elapsed time. */
  lemma {:induction false} RemainingIsBudgetMinusSpent(t: real, polls: seq<Poll>)
    ensures Remaining(Left(t), polls) == Left(t - Spent(polls))
    decreases |polls|
  {
    if polls != [] {
      RemainingIsBudgetMinusSpent(t - polls[0].elapsed, polls[1..]);
    }
  }

  /**
   * The first decisive round fixes the verdict, provided the budget is
   * still live when it is reached: resume when it found the generator
   * resumable, terminated when it found it gone.
   */
  lemma {:induction false} FirstDecisiveRoundDecides(b: Budget, polls: seq<Poll>, k: nat)
    requires k < |polls| && Decisive(polls[k])
    requires forall j :: 0 <= j < k ==> !Decisive(polls[j])
    requires forall j :: 0 <= j <= k ==> Live(Remaining(b, polls[..j]))
    ensures Decide(b, polls) == (if polls[k].view == Resumable then Resume else Terminated)
    decreases k
  {
    assert polls[..0] == [];
    if k > 0 {
      forall j | 0 <= j <= k - 1
        ensures Live(Remaining(Spend(b, polls[0].elapsed), polls[1..][..j]))
      {
        assert polls[..j + 1] == [polls[0]] + polls[1..][..j];
        assert Live(Remaining(b, polls[..j + 1]));
      }
      FirstDecisiveRoundDecides(Spend(b, polls[0].elapsed), polls[1..], k - 1);
    }
  }

  /**
   * A timeout is reported only for a finite budget, and only after the
   * rounds so far, none of them decisive, took at least the whole budget.
   */
  lemma {:induction false} TimedOutOnlyWhenBudgetSpent(t: real, polls: seq<Poll>)
    requires Decide(Left(t), polls) == TimedOut
    ensures exists k :: 0 <= k <= |polls| && Spent(polls[..k]) >= t &&
                        forall j :: 0 <= j < k ==> !Decisive(polls[j])
    decreases |polls|
  {
    assert polls[..0] == [];
    if t > 0.0 {
      assert polls != [];
      TimedOutOnlyWhenBudgetSpent(t - polls[0].elapsed, polls[1..]);
      var k :| 0 <= k <= |polls[1..]| && Spent(polls[1..][..k]) >= t - polls[0].elapsed &&
               forall j :: 0 <= j < k ==> !Decisive(polls[1..][j]);
      assert polls[..k + 1][1..] == polls[1..][..k];
      assert Spent(polls[..k + 1]) >= t;
      assert forall j :: 0 <= j < k + 1 ==> !Decisive(polls[j]) by {
        forall j | 0 < j < k + 1 ensures !Decisive(polls[j]) {
          assert polls[j] == polls[1..][j - 1];
        }
      }
    }
  }

  /**
   * Conversely, once rounds that were none of them decisive have taken the
   * whole budget, the wait reports a timeout (if an earlier round already
   * left it spent, the timeout came then).
   */
  lemma {:induction false} TimesOutOnceBudgetSpent(t: real, polls: seq<Poll>, k: nat)
    requires k <= |polls| && Spent(polls[..k]) >= t
    requires forall j :: 0 <= j < k ==> !Decisive(polls[j])
    ensures Decide(Left(t), polls) == TimedOut
    decreases k
  {
    assert polls[..0] == [];
    if t > 0.0 {
      assert k > 0 && !Decisive(polls[0]);
      assert polls[..k][1..] == polls[1..][..k - 1];
      forall j | 0 <= j < k - 1
        ensures !Decisive(polls[1..][j])
      {
        assert polls[1..][j] == polls[j + 1];
      }
      TimesOutOnceBudgetSpent(t - polls[0].elapsed, polls[1..], k - 1);
    }
  }

  /**
   * With a finite timeout the wait cannot go on forever: if every round
   * takes at least `tick` seconds, it has ended once the rounds could have
   * used up the timeout.
   */
  lemma {:induction false} WaitEndsWithinTimeout(t: real, polls: seq<Poll>, tick: real)
    requires tick > 0.0
    requires forall k :: 0 <= k < |polls| ==> polls[k].elapsed >= tick
    requires |polls| as real * tick >= t
    ensures Decide(Left(t), polls) != Undecided
    decreases |polls|
  {
    if Live(Left(t)) && !(polls[0].acquired && polls[0].view != Busy) {
      var rest := polls[1..];
      assert |rest| as real * tick == |polls| as real * tick - tick;
      WaitEndsWithinTimeout(t - polls[0].elapsed, rest, tick);
    }
  }
}
