/**
 * What the three retry loops share: at most three model calls, a first wait
 * of 60 seconds that doubles after every rate-limited attempt, and the model
 * itself, seen as the reply to its i-th call.
 */
module Retry {

  /** `max_retries`. */
  const MaxRetries: nat := 3

  /** `delay_seconds` / `initial_delay` before the first retry. */
  const InitialDelay: nat := 60

  /** The reply to one `generate_content` call: text, or the exception it raised. */
  datatype Reply = Answered(text: string) | Raised(message: string)

  /** What a retry loop returned, how many model calls it made, and the `time.sleep` calls in order. */
  datatype Run<T> = Run(result: T, calls: nat, sleeps: seq<nat>)

  /** The delay waited after the i-th rate-limited attempt. */
  function DelayAt(i: nat): (d: nat)
    ensures d > 0
  {
    if i == 0 then InitialDelay else 2 * DelayAt(i - 1)
  }

  /** The sleeps after `n` rate-limited attempts. */
  function Backoff(n: nat): (ds: seq<nat>)
    ensures |ds| == n
    ensures forall i :: 0 <= i < n ==> ds[i] == DelayAt(i)
  {
    if n == 0 then [] else Backoff(n - 1) + [DelayAt(n - 1)]
  }

  /** The schedule of the source: 60, then 120, then 240, each wait twice the one before. */
  lemma BackoffSchedule(n: nat)
    requires n <= MaxRetries
    ensures Backoff(n) == [60, 120, 240][..n]
    ensures forall i :: 0 < i < n ==> Backoff(n)[i] == 2 * Backoff(n)[i - 1]
  {
    assert DelayAt(1) == 120 && DelayAt(2) == 240;
  }

  /** A shorter backoff is a prefix of a longer one. */
  lemma {:induction false} BackoffPrefix(m: nat, n: nat)
    requires m <= n
    ensures Backoff(m) == Backoff(n)[..m]
    decreases n
  {
    if m < n {
      BackoffPrefix(m, n - 1);
      assert Backoff(n)[..n - 1] == Backoff(n - 1);
    }
  }

  /**
   * The first attempt, from `i` on, that is not rate limited, or MaxRetries
   * when every remaining attempt is.
   */
  function FirstSettled(limited: nat -> bool, i: nat): (k: nat)
    requires i <= MaxRetries
    ensures i <= k <= MaxRetries
    ensures forall j :: i <= j < k ==> limited(j)
    ensures k < MaxRetries ==> !limited(k)
    decreases MaxRetries - i
  {
    if i == MaxRetries || !limited(i) then i else FirstSettled(limited, i + 1)
  }

  /** The contract of FirstSettled pins its value down. */
  lemma FirstSettledIs(limited: nat -> bool, k: nat)
    requires k <= MaxRetries
    requires forall j :: 0 <= j < k ==> limited(j)
    requires k < MaxRetries ==> !limited(k)
    ensures FirstSettled(limited, 0) == k
  {
  }

  /**
   * Any of the retry loops, stated without the loop: attempt `i` is rate
   * limited when `limited(i)`; the first attempt that is not decides the
   * result `outcome(k)` after one backoff sleep per earlier attempt, and three
   * rate-limited attempts give `exhausted` after all three sleeps.
   */
  function Schedule<T>(limited: nat -> bool, outcome: nat -> T, exhausted: T): Run<T> {
    var k := FirstSettled(limited, 0);
    if k == MaxRetries then Run(exhausted, MaxRetries, Backoff(MaxRetries))
    else Run(outcome(k), k + 1, Backoff(k))
  }

  /** At most three calls, and one sleep fewer than calls unless all three were rate limited. */
  lemma ScheduleCalls<T>(limited: nat -> bool, outcome: nat -> T, exhausted: T)
    ensures var run := Schedule(limited, outcome, exhausted);
      && 1 <= run.calls <= MaxRetries
      && (|run.sleeps| == run.calls - 1 || (|run.sleeps| == MaxRetries && run.calls == MaxRetries))
  {
  }

  /** The sleeps are 60, 120, 240 in that order, and the i-th sleep follows the i-th attempt, which was rate limited. */
  lemma ScheduleSleeps<T>(limited: nat -> bool, outcome: nat -> T, exhausted: T)
    ensures var run := Schedule(limited, outcome, exhausted);
      && run.sleeps == [60, 120, 240][..|run.sleeps|]
      && forall i :: 0 <= i < |run.sleeps| ==> limited(i)
  {
    BackoffSchedule(FirstSettled(limited, 0));
  }

  /** All three sleeps happen exactly when all three attempts are rate limited, and then the result is `exhausted`. */
  lemma ScheduleExhausted<T>(limited: nat -> bool, outcome: nat -> T, exhausted: T)
    ensures var run := Schedule(limited, outcome, exhausted);
      && (|run.sleeps| == MaxRetries <==> forall i :: 0 <= i < MaxRetries ==> limited(i))
      && (|run.sleeps| == MaxRetries ==> run.result == exhausted)
  {
    var k := FirstSettled(limited, 0);
    assert k < MaxRetries ==> !limited(k);
  }

  /** The first attempt that is not rate limited ends the run with its outcome, after the earlier sleeps only. */
  lemma ScheduleSettles<T>(limited: nat -> bool, outcome: nat -> T, exhausted: T, k: nat)
    requires k < MaxRetries
    requires forall j :: 0 <= j < k ==> limited(j)
    requires !limited(k)
    ensures Schedule(limited, outcome, exhausted) == Run(outcome(k), k + 1, Backoff(k))
  {
    FirstSettledIs(limited, k);
  }
}
