/**
  The retry middleware (retry/retry.go) with its Backoff and Loop classifiers
  (retry/backoff.go, retry/loop.go).
 */
module Retry {
  import opened Options

  type Error = nat

  /** What the select of `waitOnChannel` finds. */
  datatype Signal = Emitted | ClosedEmpty | StoppingClosed | ContextDone

  /** How a task fails: the classifier rejects its error, the attempts are used up, the
      channel is closed, or a stop is joined to the error. */
  datatype Failure =
    | Rejected(err: Error)
    | MaxAttempts(err: Error)
    | Abandoned(err: Error)
    | JoinedStopped(err: Error)
    | JoinedContext(err: Error)

  datatype Outcome = Success | Failed(f: Failure)

  datatype Policy = Policy(maxAttempts: int, retryable: Error -> bool)

  /** The world a retried task lives in: the result of its k-th attempt, and what the
      wait after it finds. */
  datatype World = World(task: nat -> Option<Error>, signal: nat -> Signal)

  function Wait(s: Signal, err: Error): Option<Failure> {
    match s
    case Emitted => None
    case ClosedEmpty => Some(Abandoned(err))
    case StoppingClosed => Some(JoinedStopped(err))
    case ContextDone => Some(JoinedContext(err))
  }

  // Any classifier.

  /** What a classifier answers: it fails the task, takes the error as handled, or gives a
      channel to wait on. */
  datatype Answer = Reject(f: Failure) | Handled | Again

  /** The state a classifier starts attempt k with; attempts count from one. */
  function StateAt<S>(init: S, classify: (S, Error) -> (S, Answer), w: World, k: nat): S {
    if k <= 1 then init
    else
      var s := StateAt(init, classify, w, k - 1);
      match w.task(k - 1)
      case None => s
      case Some(err) => classify(s, err).0
  }

  /** How attempt k ends the loop, if it does. */
  function EndOf<S>(init: S, classify: (S, Error) -> (S, Answer), w: World, k: nat): Option<Outcome> {
    match w.task(k)
    case None => Some(Success)
    case Some(err) =>
      match classify(StateAt(init, classify, w, k), err).1
      case Reject(f) => Some(Failed(f))
      case Handled => Some(Success)
      case Again =>
        match Wait(w.signal(k), err)
        case Some(f) => Some(Failed(f))
        case None => None
  }

  /** Attempt n is the first that ends the loop, and this is how. */
  ghost predicate EndsAt<S>(init: S, classify: (S, Error) -> (S, Answer), w: World, outcome: Outcome, n: nat) {
    && 1 <= n && (forall j :: 1 <= j < n ==> EndOf(init, classify, w, j).None?)
    && EndOf(init, classify, w, n) == Some(outcome)
  }

  /** The loop of `Middleware` around any classifier, on any world in which some attempt ends
      it (the source's loop goes on for ever otherwise). */
  method Invoke<S>(init: S, classify: (S, Error) -> (S, Answer), w: World, ghost last: nat)
    returns (outcome: Outcome, attempts: nat)
    requires last >= 1 && EndOf(init, classify, w, last).Some?
    ensures EndsAt(init, classify, w, outcome, attempts) && attempts <= last
  {
    var state := init;
    attempts := 0;
    while true
      invariant state == StateAt(init, classify, w, attempts + 1) && attempts < last
      invariant forall j :: 1 <= j <= attempts ==> EndOf(init, classify, w, j).None?
      decreases last - attempts
    {
      attempts := attempts + 1;
      var result := w.task(attempts);
      if result.None? {
        return Success, attempts;
      }
      var (next, answer) := classify(state, result.value);
      state := next;
      if answer.Reject? {
        return Failed(answer.f), attempts;
      }
      if answer.Handled? {
        return Success, attempts;
      }
      var failure := Wait(w.signal(attempts), result.value);
      if failure.Some? {
        return Failed(failure.value), attempts;
      }
    }
  }

  /** The result is nil exactly when the last attempt succeeded or its error was handled;
      otherwise it is what the classifier rejected it with, or the last attempt's error with
      what ended the wait: nothing when the channel was closed, ErrStopped when a stop began,
      the context's error when the context was done.  A wait that ends with a value never
      ends the loop.  There is only one such last attempt. */
  lemma EndMeaning<S>(init: S, classify: (S, Error) -> (S, Answer), w: World, outcome: Outcome, n: nat)
    requires EndsAt(init, classify, w, outcome, n)
    ensures var last := w.task(n);
      outcome.Success? <==>
        last.None? || classify(StateAt(init, classify, w, n), last.value).1.Handled?
    ensures outcome.Failed? ==>
      var err := w.task(n).value;
      var (_, answer) := classify(StateAt(init, classify, w, n), err);
      if answer.Reject? then outcome.f == answer.f
      else
        && answer.Again?
        && (w.signal(n).ClosedEmpty? ==> outcome.f == Abandoned(err))
        && (w.signal(n).StoppingClosed? ==> outcome.f == JoinedStopped(err))
        && (w.signal(n).ContextDone? ==> outcome.f == JoinedContext(err))
        && !w.signal(n).Emitted?
    ensures forall other: Outcome, m: nat :: EndsAt(init, classify, w, other, m) ==> m == n && other == outcome
  {
    forall other: Outcome, m: nat | EndsAt(init, classify, w, other, m) ensures m == n && other == outcome {
      assert EndOf(init, classify, w, n) == Some(outcome) && EndOf(init, classify, w, m) == Some(other);
    }
  }

  // Classifiers that count.

  /** The k-th attempt and all that follow: the outcome and the last attempt made. */
  function From(p: Policy, w: World, k: nat): (Outcome, nat)
    decreases if p.maxAttempts > k then p.maxAttempts - k else 0
  {
    match w.task(k)
    case None => (Success, k)
    case Some(err) =>
      if !p.retryable(err) then (Failed(Rejected(err)), k)
      else if k >= p.maxAttempts then (Failed(MaxAttempts(err)), k)
      else
        match Wait(w.signal(k), err)
        case Some(f) => (Failed(f), k)
        case None => From(p, w, k + 1)
  }

  function Attempts(p: Policy, w: World): (Outcome, nat) {
    From(p, w, 1)
  }

  /** Attempt k does not end the retries. */
  predicate GoesOn(p: Policy, w: World, k: nat) {
    && w.task(k).Some? && p.retryable(w.task(k).value)
    && k < p.maxAttempts && w.signal(k).Emitted?
  }

  lemma {:induction false} FromMeaning(p: Policy, w: World, k: nat)
    ensures var (outcome, n) := From(p, w, k);
      && k <= n && (n <= p.maxAttempts || n == k)
      && (forall j :: k <= j < n ==> GoesOn(p, w, j)) && !GoesOn(p, w, n)
      && (outcome.Success? <==> w.task(n).None?)
      && (outcome.Failed? ==> w.task(n) == Some(outcome.f.err))
    decreases if p.maxAttempts > k then p.maxAttempts - k else 0
  {
    if GoesOn(p, w, k) { FromMeaning(p, w, k + 1); }
  }

  /** The task runs at least once and at most max(1, MaxAttempts) times, namely up to the
      first attempt that does not go on; the result is nil exactly when that attempt
      succeeded, and otherwise carries its error. */
  lemma AttemptsMeaning(p: Policy, w: World)
    ensures var (outcome, n) := Attempts(p, w);
      && 1 <= n && (n <= p.maxAttempts || n == 1)
      && (forall j :: 1 <= j < n ==> GoesOn(p, w, j)) && !GoesOn(p, w, n)
      && (outcome.Success? <==> w.task(n).None?)
      && (outcome.Failed? ==> w.task(n) == Some(outcome.f.err))
  {
    FromMeaning(p, w, 1);
  }

  /** The classifier that Backoff and Loop have in common: reject what is not retryable, and
      everything once the attempts are used up. */
  function Counting(p: Policy): (nat, Error) -> (nat, Answer) {
    (count: nat, err: Error) =>
      if !p.retryable(err) then (count, Reject(Rejected(err)))
      else if count + 1 >= p.maxAttempts then (count + 1, Reject(MaxAttempts(err)))
      else (count + 1, Again)
  }

  lemma {:induction false} CountAt(p: Policy, w: World, k: nat)
    requires k >= 1 && forall j :: 1 <= j < k ==> GoesOn(p, w, j)
    ensures StateAt(0, Counting(p), w, k) == k - 1
  {
    if k > 1 {
      CountAt(p, w, k - 1);
      assert GoesOn(p, w, k - 1);
    }
  }

  lemma CountingEnds(p: Policy, w: World, k: nat)
    requires k >= 1 && forall j :: 1 <= j < k ==> GoesOn(p, w, j)
    ensures EndOf(0, Counting(p), w, k).None? <==> GoesOn(p, w, k)
    ensures !GoesOn(p, w, k) ==> EndOf(0, Counting(p), w, k) == Some(From(p, w, k).0)
  {
    CountAt(p, w, k);
  }

  /** The attempts of a policy are those of the general loop around its classifier. */
  lemma AttemptsAreEnd(p: Policy, w: World)
    ensures var (outcome, n) := Attempts(p, w); EndsAt(0, Counting(p), w, outcome, n)
  {
    FromMeaning(p, w, 1);
    var (outcome, n) := Attempts(p, w);
    forall j | 1 <= j < n ensures EndOf(0, Counting(p), w, j).None? { CountingEnds(p, w, j); }
    CountingEnds(p, w, n);
    FromSkips(p, w, 1, n);
  }

  lemma {:induction false} FromSkips(p: Policy, w: World, k: nat, n: nat)
    requires k <= n && forall j :: k <= j < n ==> GoesOn(p, w, j)
    ensures From(p, w, k) == From(p, w, n)
    decreases n - k
  {
    if k < n {
      assert GoesOn(p, w, k);
      FromSkips(p, w, k + 1, n);
    }
  }

  // Backoff.

  datatype Backoff = Backoff(maxAttempts: int, maxDelay: int, minDelay: int, multiplier: real,
                             retryable: Option<Error -> bool>)

  const MILLISECOND := 1_000_000
  const SECOND := 1_000_000_000

  /** Field by field: what is set stays, what is not gets its default. */
  function Sanitize(b: Backoff): (r: Backoff)
    ensures r.maxAttempts != 0 && r.maxDelay != 0 && r.minDelay != 0 && r.multiplier != 0.0 && r.retryable.Some?
    ensures b.maxAttempts != 0 ==> r.maxAttempts == b.maxAttempts
    ensures b.maxAttempts == 0 ==> r.maxAttempts == 4
    ensures b.maxDelay != 0 ==> r.maxDelay == b.maxDelay
    ensures b.maxDelay == 0 ==> r.maxDelay == SECOND
    ensures b.minDelay != 0 ==> r.minDelay == b.minDelay
    ensures b.minDelay == 0 ==> r.minDelay == 10 * MILLISECOND
    ensures b.multiplier != 0.0 ==> r.multiplier == b.multiplier
    ensures b.multiplier == 0.0 ==> r.multiplier == 10.0
    ensures b.retryable.Some? ==> r.retryable == b.retryable
    ensures b.retryable.None? ==> forall e :: r.retryable.value(e)
  {
    Backoff(if b.maxAttempts == 0 then 4 else b.maxAttempts,
            if b.maxDelay == 0 then SECOND else b.maxDelay,
            if b.minDelay == 0 then 10 * MILLISECOND else b.minDelay,
            if b.multiplier == 0.0 then 10.0 else b.multiplier,
            if b.retryable.None? then Some(_ => true) else b.retryable)
  }

  function Truncate(x: real): int {
    if x >= 0.0 then x.Floor else -((-x).Floor)
  }

  function Min(a: int, b: int): int { if a <= b then a else b }

  function Max(a: int, b: int): int { if a >= b then a else b }

  function NextDelay(b: Backoff, delay: int): int {
    Min(Max(b.minDelay, Truncate(delay as real * b.multiplier)), b.maxDelay)
  }

  /** The delay after the k-th failure; the state starts at zero. */
  function Delay(b: Backoff, k: nat): int {
    if k == 0 then 0 else NextDelay(b, Delay(b, k - 1))
  }

  lemma DelayBounds(b: Backoff, k: nat)
    requires k >= 1
    ensures Min(b.minDelay, b.maxDelay) <= Delay(b, k) <= b.maxDelay
  {
  }

  lemma DelayStep(b: Backoff, k: nat)
    ensures Delay(b, k + 1) == NextDelay(b, Delay(b, k))
  {
  }

  /** A duration is cut off towards zero. */
  lemma TruncateMeaning(x: real)
    ensures x >= 0.0 ==> 0 <= Truncate(x) && Truncate(x) as real <= x < Truncate(x) as real + 1.0
    ensures x <= 0.0 ==> Truncate(x) <= 0 && Truncate(x) as real - 1.0 < x <= Truncate(x) as real
  {
  }

  /** An ordinary configuration: the delays start somewhere and do not shrink. */
  predicate Ordinary(b: Backoff) {
    b.multiplier >= 1.0 && 0 < b.minDelay <= b.maxDelay
  }

  lemma NextMultiplies(b: Backoff, d: int)
    requires Ordinary(b) && b.minDelay <= d <= b.maxDelay
    ensures NextDelay(b, d) == Min(Truncate(d as real * b.multiplier), b.maxDelay)
  {
    Grows(d, b.multiplier);
  }

  /** The first delay is the minimum; each further one is the one before times the
      multiplier, cut off to whole nanoseconds and at the maximum. */
  lemma DelaysMultiply(b: Backoff, k: nat, d: int)
    requires Ordinary(b) && d == Delay(b, k + 1)
    ensures k == 0 ==> d == b.minDelay
    ensures Delay(b, k + 2) == Min(Truncate(d as real * b.multiplier), b.maxDelay)
  {
    if k == 0 { FirstDelay(b); }
    assert Delay(b, k + 2) == NextDelay(b, d) by { DelayStep(b, k + 1); }
    assert b.minDelay <= d <= b.maxDelay by { AtLeastMin(b, k); }
    NextMultiplies(b, d);
  }

  lemma FirstDelay(b: Backoff)
    requires Ordinary(b)
    ensures Delay(b, 1) == b.minDelay
  {
    ZeroDelay(b.multiplier);
    assert Delay(b, 0) == 0;
    DelayStep(b, 0);
  }

  lemma AtLeastMin(b: Backoff, k: nat)
    requires Ordinary(b)
    ensures b.minDelay <= Delay(b, k + 1) <= b.maxDelay
  {
    DelayStep(b, k);
  }

  function Power(m: nat, k: nat): nat {
    if k == 0 then 1 else m * Power(m, k - 1)
  }

  lemma Times(d: int, m: nat)
    requires d >= 0
    ensures Truncate(d as real * m as real) == d * m
  {
    assert d as real * m as real == (d * m) as real;
  }

  lemma CappedGrowth(low: int, high: int, m: nat, p: nat)
    requires 0 < low <= high && m >= 1
    ensures Min(Min(low * p, high) * m, high) == Min(low * (m * p), high)
  {
    assert low * (m * p) == (low * p) * m;
    if low * p >= high {
      assert high * m >= high;
      assert (low * p) * m >= low * p;
    }
  }

  lemma PowerStep(b: Backoff, m: nat, d: int, p: nat)
    requires Ordinary(b) && b.multiplier == m as real && d == Min(b.minDelay * p, b.maxDelay)
    ensures Min(Truncate(d as real * b.multiplier), b.maxDelay) == Min(b.minDelay * (m * p), b.maxDelay)
  {
    assert b.minDelay * p >= 0;
    Times(d, m);
    CappedGrowth(b.minDelay, b.maxDelay, m, p);
  }

  lemma PowerDelay(b: Backoff, m: nat, k: nat, d: int, e: int, p: nat)
    requires Ordinary(b) && b.multiplier == m as real && k >= 1
    requires d == Delay(b, k) && e == Delay(b, k + 1) && d == Min(b.minDelay * p, b.maxDelay)
    ensures e == Min(b.minDelay * (m * p), b.maxDelay)
  {
    DelaysMultiply(b, k - 1, d);
    PowerStep(b, m, d, p);
  }

  lemma PowerUnfolds(m: nat, k: nat)
    requires k >= 1
    ensures Power(m, k) == m * Power(m, k - 1)
  {
  }

  /** Backoff is exponential: with a whole multiplier the delays are the minimum times its
      powers, up to the maximum. */
  lemma {:induction false} DelayIsExponential(b: Backoff, m: nat, k: nat, d: int, p: nat)
    requires Ordinary(b) && b.multiplier == m as real && d == Delay(b, k + 1) && p == Power(m, k)
    ensures d == Min(b.minDelay * p, b.maxDelay)
  {
    if k == 0 {
      FirstDelay(b);
    } else {
      var before, q := Delay(b, k), Power(m, k - 1);
      DelayIsExponential(b, m, k - 1, before, q);
      PowerDelay(b, m, k, before, d, q);
      PowerUnfolds(m, k);
    }
  }

  /** The only configurations in which a multiplier of at least one shrinks a delay. */
  predicate Shrinks(b: Backoff) {
    b.maxDelay < 0 && b.minDelay < b.maxDelay && Truncate(b.maxDelay as real * b.multiplier) < b.maxDelay
  }

  lemma Grows(d: int, m: real)
    requires d >= 0 && m >= 1.0
    ensures Truncate(d as real * m) >= d
  {
    assert d as real * m >= d as real;
  }

  lemma NextGrows(b: Backoff, d: int)
    requires b.multiplier >= 1.0 && 0 <= d <= b.maxDelay
    ensures d <= NextDelay(b, d)
  {
    Grows(d, b.multiplier);
  }

  lemma NextStays(b: Backoff, d: int)
    requires b.maxDelay < 0 && !Shrinks(b) && (d == 0 || d == b.maxDelay)
    ensures NextDelay(b, d) == b.maxDelay
  {
    if d == 0 { ZeroDelay(b.multiplier); }
  }

  lemma ZeroDelay(m: real)
    ensures Truncate(0 as real * m) == 0
  {
  }

  lemma {:induction false} DelayShape(b: Backoff, k: nat)
    requires b.multiplier >= 1.0 && !Shrinks(b)
    ensures b.maxDelay >= 0 ==> 0 <= Delay(b, k) <= b.maxDelay
    ensures b.maxDelay < 0 ==> Delay(b, k) == if k == 0 then 0 else b.maxDelay
  {
    if k > 0 {
      DelayShape(b, k - 1);
      if b.maxDelay >= 0 { NextGrows(b, Delay(b, k - 1)); }
      else { NextStays(b, Delay(b, k - 1)); }
    }
  }

  lemma ShrinksAtSecond(b: Backoff)
    requires Shrinks(b)
    ensures Delay(b, 1) == b.maxDelay && Delay(b, 2) < b.maxDelay
  {
    ZeroDelay(b.multiplier);
    assert Delay(b, 0) == 0;
    assert Delay(b, 2) == NextDelay(b, Delay(b, 1));
  }

  /** With a multiplier of at least one, delays never shrink, unless the maximum delay is
      negative, the minimum is below it, and multiplying it takes it down. */
  lemma DelaysNeverShrinkIff(b: Backoff)
    requires b.multiplier >= 1.0
    ensures (forall k: nat :: 1 <= k ==> Delay(b, k) <= Delay(b, k + 1)) <==> !Shrinks(b)
  {
    if Shrinks(b) {
      ShrinksAtSecond(b);
      assert !(Delay(b, 1) <= Delay(b, 1 + 1));
    } else {
      forall k: nat | 1 <= k ensures Delay(b, k) <= Delay(b, k + 1) {
        DelayShape(b, k);
        if b.maxDelay >= 0 { NextGrows(b, Delay(b, k)); }
        else { NextStays(b, Delay(b, k)); }
        assert Delay(b, k + 1) == NextDelay(b, Delay(b, k));
      }
    }
  }

  /** A concrete configuration whose delays shrink. */
  lemma NegativeDelaysShrink()
    ensures var b := Backoff(4, -5, -100, 2.0, None);
      Delay(b, 1) == -5 && Delay(b, 2) == -10
  {
    var b := Backoff(4, -5, -100, 2.0, None);
    assert Delay(b, 0) == 0;
    assert Truncate(0 as real * 2.0) == 0;
    assert Truncate((-5) as real * 2.0) == -10;
    assert Delay(b, 2) == NextDelay(b, Delay(b, 1));
  }

  function BackoffPolicy(b: Backoff): Policy {
    Policy(Sanitize(b).maxAttempts, Sanitize(b).retryable.value)
  }

  /** What a classifier answers: an error that fails the task, or a wait. */
  datatype Verdict = Fail(f: Failure) | WaitFor(delay: int)

  class BackoffState {
    var count: int
    var delay: int

    constructor ()
      ensures count == 0 && delay == 0
    {
      count, delay := 0, 0;
    }

    /** The classifier of a sanitized Backoff; jitter is what the random source gives. */
    method Classify(b: Backoff, err: Error, jitter: int) returns (v: Verdict)
      requires b.retryable.Some?
      modifies this
      ensures !b.retryable.value(err) ==>
        v == Fail(Rejected(err)) && count == old(count) && delay == old(delay)
      ensures b.retryable.value(err) ==> count == old(count) + 1
      ensures b.retryable.value(err) && count >= b.maxAttempts ==>
        v == Fail(MaxAttempts(err)) && delay == old(delay)
      ensures b.retryable.value(err) && count < b.maxAttempts ==>
        delay == NextDelay(b, old(delay)) && v == WaitFor(delay + jitter)
    {
      if !b.retryable.value(err) {
        return Fail(Rejected(err));
      }
      count := count + 1;
      if count >= b.maxAttempts {
        return Fail(MaxAttempts(err));
      }
      var next := Truncate(delay as real * b.multiplier);
      delay := Min(Max(b.minDelay, next), b.maxDelay);
      return WaitFor(delay + jitter);
    }
  }

  ghost predicate WaitsOk(b: Backoff, jitter: nat -> int, waits: seq<int>) {
    forall k :: 0 <= k < |waits| ==> waits[k] == Delay(b, k + 1) + jitter(k + 1)
  }

  lemma WaitsAppend(b: Backoff, jitter: nat -> int, waits: seq<int>, d: int)
    requires WaitsOk(b, jitter, waits) && d == Delay(b, |waits| + 1) + jitter(|waits| + 1)
    ensures WaitsOk(b, jitter, waits + [d])
  {
  }

  /** The retry loop around a Backoff. */
  method InvokeBackoff(config: Backoff, w: World, jitter: nat -> int)
    returns (outcome: Outcome, attempts: nat, waits: seq<int>)
    ensures (outcome, attempts) == Attempts(BackoffPolicy(config), w)
    ensures |waits| == attempts - 1 || |waits| == attempts
    ensures WaitsOk(Sanitize(config), jitter, waits)
  {
    var b := Sanitize(config);
    var st := new BackoffState();
    attempts, waits := 0, [];
    while true
      invariant st.count == attempts && |waits| == attempts
      invariant st.delay == Delay(b, attempts)
      invariant attempts == 0 || attempts < b.maxAttempts
      invariant Attempts(BackoffPolicy(config), w) == From(BackoffPolicy(config), w, attempts + 1)
      invariant WaitsOk(b, jitter, waits)
      decreases b.maxAttempts - attempts
    {
      attempts := attempts + 1;
      var result := w.task(attempts);
      if result.None? {
        return Success, attempts, waits;
      }
      var v := st.Classify(b, result.value, jitter(attempts));
      if v.Fail? {
        return Failed(v.f), attempts, waits;
      }
      DelayStep(b, attempts - 1);
      WaitsAppend(b, jitter, waits, v.delay);
      waits := waits + [v.delay];
      var failure := Wait(w.signal(attempts), result.value);
      if failure.Some? {
        return Failed(failure.value), attempts, waits;
      }
    }
  }

  // Loop.

  datatype Loop = Loop(maxAttempts: int, retryable: Option<Error -> bool>)

  function LoopPolicy(l: Loop): Policy {
    Policy(if l.maxAttempts == 0 then 2 else l.maxAttempts,
           if l.retryable.None? then _ => true else l.retryable.value)
  }

  /** What is not configured: two attempts for Loop, four for Backoff, every error retried. */
  lemma DefaultAttempts(w: World)
    requires forall k :: w.task(k).Some? && w.signal(k).Emitted?
    ensures Attempts(LoopPolicy(Loop(0, None)), w).1 == 2
    ensures Attempts(BackoffPolicy(Backoff(0, 0, 0, 0.0, None)), w).1 == 4
    ensures forall n :: n > 0 ==> Attempts(LoopPolicy(Loop(n, None)), w).1 == n
  {
    AllAttempts(LoopPolicy(Loop(0, None)), w);
    AllAttempts(BackoffPolicy(Backoff(0, 0, 0, 0.0, None)), w);
    forall n | n > 0 ensures Attempts(LoopPolicy(Loop(n, None)), w).1 == n {
      AllAttempts(LoopPolicy(Loop(n, None)), w);
    }
  }

  /** If every attempt fails with an error that is retried, all attempts are made. */
  lemma AllAttempts(p: Policy, w: World)
    requires p.maxAttempts >= 1
    requires forall k :: w.task(k).Some? && w.signal(k).Emitted? && p.retryable(w.task(k).value)
    ensures Attempts(p, w).1 == p.maxAttempts && Attempts(p, w).0.Failed? && Attempts(p, w).0.f.MaxAttempts?
  {
    FromMeaning(p, w, 1);
    var n := Attempts(p, w).1;
    assert !GoesOn(p, w, n);
    if n > 1 { assert GoesOn(p, w, n - 1); }
    FromSkips(p, w, 1, n);
  }

  /** The retry loop around a Loop, whose channel always holds a value already. */
  method InvokeLoop(config: Loop, w: World) returns (outcome: Outcome, attempts: nat)
    ensures (outcome, attempts) == Attempts(LoopPolicy(config), w)
  {
    var maxAttempts := config.maxAttempts;
    if maxAttempts == 0 {
      maxAttempts := 2;
    }
    var state := 0;
    attempts := 0;
    while true
      invariant state == attempts && (attempts == 0 || attempts < maxAttempts)
      invariant Attempts(LoopPolicy(config), w) == From(LoopPolicy(config), w, attempts + 1)
      decreases maxAttempts - attempts
    {
      attempts := attempts + 1;
      var result := w.task(attempts);
      if result.None? {
        return Success, attempts;
      }
      if config.retryable.Some? && !config.retryable.value(result.value) {
        return Failed(Rejected(result.value)), attempts;
      }
      state := state + 1;
      if state >= maxAttempts {
        return Failed(MaxAttempts(result.value)), attempts;
      }
      var failure := Wait(w.signal(attempts), result.value);
      if failure.Some? {
        return Failed(failure.value), attempts;
      }
    }
  }

  lemma {:induction false} PoliciesAgree(p: Policy, q: Policy, w: World, k: nat)
    requires p.maxAttempts == q.maxAttempts && forall e :: p.retryable(e) == q.retryable(e)
    ensures From(p, w, k) == From(q, w, k)
    decreases if p.maxAttempts > k then p.maxAttempts - k else 0
  {
    if GoesOn(p, w, k) { PoliciesAgree(p, q, w, k + 1); }
  }

  /** With the same limit and the same retryable errors Backoff and Loop make the same
      attempts with the same outcome.  (A limit of zero stands for four and for two.) */
  lemma BackoffAndLoopAgree(b: Backoff, l: Loop, w: World)
    requires b.maxAttempts == l.maxAttempts != 0
    requires forall e :: BackoffPolicy(b).retryable(e) == LoopPolicy(l).retryable(e)
    ensures Attempts(BackoffPolicy(b), w) == Attempts(LoopPolicy(l), w)
  {
    PoliciesAgree(BackoffPolicy(b), LoopPolicy(l), w, 1);
  }
}
