/** Bounded retries with exponential backoff and full jitter. Durations are nanoseconds in
    64-bit signed integers, whose left shift wraps. */
module Retry {
  import opened Basics

  const MAX_ATTEMPTS := 3
  const BASE_DELAY := 150_000_000
  const MAX_DELAY := 1_500_000_000

  // ------------------------------------------------------------ error chains

  /** An error value and what it wraps; `Retryable` is the marker. */
  datatype Error = Plain(message: string) | Wrapped(message: string, cause: Error) | Retryable(cause: Error)

  /** errors.As finds the outermost marker anywhere in the chain. */
  predicate IsRetryable(e: Error) {
    match e
    case Plain(_) => false
    case Wrapped(_, cause) => IsRetryable(cause)
    case Retryable(_) => true
  }

  function UnwrapRetryable(e: Error): Error {
    match Outermost(e)
    case None => e
    case Some(cause) => cause
  }

  function Outermost(e: Error): Option<Error> {
    match e
    case Plain(_) => None
    case Wrapped(_, cause) => Outermost(cause)
    case Retryable(cause) => Some(cause)
  }

  function Markers(e: Error): nat {
    match e
    case Plain(_) => 0
    case Wrapped(_, cause) => Markers(cause)
    case Retryable(cause) => 1 + Markers(cause)
  }

  lemma {:induction false} OutermostMarker(e: Error)
    ensures IsRetryable(e) <==> Markers(e) > 0
    ensures Outermost(e).Some? <==> Markers(e) > 0
    ensures Outermost(e).Some? ==> Markers(Outermost(e).value) == Markers(e) - 1
  {
    match e
    case Plain(_) =>
    case Wrapped(_, cause) => OutermostMarker(cause);
    case Retryable(cause) => OutermostMarker(cause);
  }

  /** Unwrapping removes one marker, so the result is still retryable exactly when the error
      carried two or more. */
  lemma UnwrapLeavesMarkerIff(e: Error)
    ensures IsRetryable(UnwrapRetryable(e)) <==> Markers(e) >= 2
  {
    OutermostMarker(e);
    OutermostMarker(UnwrapRetryable(e));
  }

  // ----------------------------------------------------------------- backoff

  function Pow2(n: nat): nat { if n == 0 then 1 else 2 * Pow2(n - 1) }

  function Min(a: int, b: int): int { if a <= b then a else b }

  const TWO_63 := 0x8000_0000_0000_0000
  const TWO_64 := 0x1_0000_0000_0000_0000

  /** The 64-bit two's complement value of an integer. */
  function Wrap64(x: int): int { (x + TWO_63) % TWO_64 - TWO_63 }

  /** x << n on an int64: bits shifted out are lost, and a shift of 64 or more leaves nothing. */
  function ShiftLeft64(x: int, n: nat): int {
    if n >= 64 then 0 else Wrap64(x * Pow2(n))
  }

  /** The largest delay a retry may wait: the shifted base, or the cap when the shift has grown
      past it or has wrapped. */
  function Ceiling(n: nat): int {
    var d := ShiftLeft64(BASE_DELAY, n);
    if d > MAX_DELAY || d <= 0 then MAX_DELAY else d
  }

  lemma Doubled(a: nat, b: nat)
    ensures (2 * a) * b == 2 * (a * b)
  {}

  lemma {:induction false} Pow2Adds(m: nat, n: nat)
    ensures Pow2(m + n) == Pow2(m) * Pow2(n)
  {
    if m > 0 {
      Pow2Adds(m - 1, n);
      Doubled(Pow2(m - 1), Pow2(n));
      assert Pow2(m + n) == 2 * Pow2(m - 1 + n);
    }
  }

  lemma {:induction false} Pow2Grows(m: nat, n: nat)
    requires m <= n
    ensures 1 <= Pow2(m) <= Pow2(n)
  {
    if m < n { Pow2Grows(m, n - 1); } else if n > 0 { Pow2Grows(m - 1, n - 1); }
  }

  lemma Pow2At35()
    ensures Pow2(4) == 16 && Pow2(35) == 0x8_0000_0000 && Pow2(36) == 0x10_0000_0000
  {
    assert Pow2(4) == 16;
    assert Pow2(8) == 256;
    Pow2Adds(8, 8);
    Pow2Adds(16, 16);
    assert Pow2(3) == 8;
    Pow2Adds(32, 3);
    Pow2Adds(32, 4);
  }

  /** The wrapped value of a multiple of 2^36 is a multiple of 2^36. */
  lemma WrapKeepsMultiples(k: int)
    ensures Wrap64(0x10_0000_0000 * k) % 0x10_0000_0000 == 0
  {
    var x := 0x10_0000_0000 * k;
    var q := (x + TWO_63) / TWO_64;
    assert Wrap64(x) == x - q * TWO_64;
    assert Wrap64(x) == 0x10_0000_0000 * (k - q * 0x1000_0000);
  }

  lemma NothingWraps(n: nat)
    requires n <= 35
    ensures ShiftLeft64(BASE_DELAY, n) == BASE_DELAY * Pow2(n) && Pow2(n) > 0
  {
    Pow2At35();
    Pow2Grows(n, 35);
    WrapsNothing(BASE_DELAY * Pow2(n));
  }

  lemma WrapsNothing(x: int)
    requires -TWO_63 <= x < TWO_63
    ensures Wrap64(x) == x
  {}

  lemma WrapsToMultiple(n: nat)
    requires n >= 36
    ensures ShiftLeft64(BASE_DELAY, n) % 0x10_0000_0000 == 0
  {
    if n < 64 {
      Pow2At35();
      Pow2Adds(36, n - 36);
      var k := BASE_DELAY * Pow2(n - 36);
      assert BASE_DELAY * Pow2(n) == 0x10_0000_0000 * k;
      WrapKeepsMultiples(k);
    }
  }

  lemma AboveCap(n: nat)
    requires n >= 36
    ensures BASE_DELAY * Pow2(n) > MAX_DELAY
  {
    Pow2At35();
    Pow2Grows(4, n);
  }

  /** For every attempt number the guard yields the capped exponential over the integers: up to
      35 doublings nothing wraps, and beyond that a positive wrapped value is a multiple of 2^36,
      hence above the cap. */
  lemma CeilingIsExact(n: nat)
    ensures Ceiling(n) == Min(150_000_000 * Pow2(n), 1_500_000_000)
    ensures 0 < Ceiling(n) <= 1_500_000_000
  {
    if n <= 35 {
      NothingWraps(n);
    } else {
      WrapsToMultiple(n);
      AboveCap(n);
    }
  }

  /** rand.Int63n panics unless its bound is positive; `draw` stands for the generator's state, so
      that every value below the bound is possible. */
  function Int63n(draw: nat, bound: int): (r: int)
    requires bound > 0
    ensures 0 <= r < bound
    ensures draw < bound ==> r == draw
  {
    draw % bound
  }

  /** Full jitter: a draw from [0, the capped exponential], both ends included. */
  method BackoffDelay(attempt: int, draw: nat) returns (delay: int)
    requires attempt >= 1
    ensures delay == Int63n(draw, Min(150_000_000 * Pow2(attempt - 1), 1_500_000_000) + 1)
    ensures 0 <= delay <= 1_500_000_000
  {
    var d := ShiftLeft64(BASE_DELAY, attempt - 1);
    if d > MAX_DELAY || d <= 0 {
      d := MAX_DELAY;
    }
    CeilingIsExact(attempt - 1);
    delay := Int63n(draw, d + 1);
  }

  // ------------------------------------------------------------------- retry

  /** What happens outside: the result of the i-th call of the function, the jitter and the result
      of the sleep before it, and the context check after it. */
  datatype World<T> = World(
    call: nat -> Result<T, Error>,
    draw: nat -> nat,
    sleep: nat -> Option<Error>,
    cancelled: nat -> Option<Error>)

  /** After the i-th call the loop sleeps: a retryable error, and no cancellation. */
  predicate GoesOn<T>(w: World<T>, i: nat) {
    w.call(i).Err? && IsRetryable(w.call(i).error) && w.cancelled(i).None?
  }

  /** The delay asked for before the i-th call. */
  function Requested<T>(w: World<T>, attempt: nat): int
    requires attempt >= 1
  {
    Int63n(w.draw(attempt), Min(150_000_000 * Pow2(attempt - 1), 1_500_000_000) + 1)
  }

  /** `calls` calls were made, and `r` is what the last thing that happened says. */
  ghost predicate Policy<T>(w: World<T>, calls: nat, r: Result<T, Error>) {
    && 1 <= calls <= MAX_ATTEMPTS
    && (forall i :: 0 <= i < calls - 1 ==> GoesOn(w, i))
    && (forall i :: 1 <= i < calls ==> w.sleep(i).None?)
    && var last := w.call(calls - 1);
       match last
       case Ok(value) => r == Ok(value)
       case Err(e) =>
         if !IsRetryable(e) then r == Err(UnwrapRetryable(e))
         else if w.cancelled(calls - 1).Some? then r == Err(w.cancelled(calls - 1).value)
         else if calls < MAX_ATTEMPTS then w.sleep(calls).Some? && r == Err(w.sleep(calls).value)
         else r == Err(UnwrapRetryable(e))
  }

  method Retry<T>(w: World<T>) returns (r: Result<T, Error>, calls: nat, sleeps: seq<int>)
    ensures Policy(w, calls, r)
    ensures |sleeps| <= MAX_ATTEMPTS - 1 && calls - 1 <= |sleeps| <= calls
    ensures forall i :: 0 <= i < |sleeps| ==> sleeps[i] == Requested(w, i + 1)
    ensures Total(sleeps) <= 450_000_000
  {
    calls, sleeps := 0, [];
    var last: Option<Error> := None;
    var attempt := 0;
    while attempt < MAX_ATTEMPTS
      invariant 0 <= attempt <= MAX_ATTEMPTS && calls == attempt
      invariant |sleeps| == if attempt == 0 then 0 else attempt - 1
      invariant forall i :: 0 <= i < |sleeps| ==> sleeps[i] == Requested(w, i + 1)
      invariant forall i :: 0 <= i < attempt ==> GoesOn(w, i)
      invariant forall i :: 1 <= i < attempt ==> w.sleep(i).None?
      invariant attempt > 0 ==> last.Some? && w.call(attempt - 1) == Err(last.value)
    {
      if attempt > 0 {
        var delay := BackoffDelay(attempt, w.draw(attempt));
        sleeps := sleeps + [delay];
        var interrupted := w.sleep(attempt);
        if interrupted.Some? {
          AtMostTwoSleeps(w, sleeps);
          assert GoesOn(w, attempt - 1);
          r := Err(interrupted.value);
          return;
        }
      }
      var out := w.call(attempt);
      calls := calls + 1;
      AtMostTwoSleeps(w, sleeps);
      if out.Ok? {
        r := out;
        return;
      }
      last := Some(out.error);
      if !IsRetryable(out.error) {
        r := Err(UnwrapRetryable(out.error));
        return;
      }
      if w.cancelled(attempt).Some? {
        r := Err(w.cancelled(attempt).value);
        return;
      }
      attempt := attempt + 1;
    }
    AtMostTwoSleeps(w, sleeps);
    assert GoesOn(w, attempt - 1);
    r := Err(UnwrapRetryable(last.value));
  }

  function Total(sleeps: seq<int>): int {
    if sleeps == [] then 0 else sleeps[0] + Total(sleeps[1..])
  }

  /** At most 150ms before the first retry and 300ms before the second. */
  lemma AtMostTwoSleeps<T>(w: World<T>, sleeps: seq<int>)
    requires |sleeps| <= 2
    requires forall i :: 0 <= i < |sleeps| ==> sleeps[i] == Requested(w, i + 1)
    ensures 0 <= Total(sleeps) <= 450_000_000
  {
    assert Pow2(0) == 1 && Pow2(1) == 2;
    assert |sleeps| > 0 ==> 0 <= sleeps[0] <= 150_000_000;
    assert |sleeps| > 1 ==> 0 <= sleeps[1] <= 300_000_000;
    if |sleeps| == 2 {
      assert Total(sleeps) == sleeps[0] + Total(sleeps[1..]);
      assert Total(sleeps[1..]) == sleeps[1] + Total(sleeps[1..][1..]);
    }
  }

  /** The policy leaves no choice: the outside world determines the calls and the result. */
  lemma PolicyIsDeterministic<T>(w: World<T>, m: nat, q: Result<T, Error>, n: nat, r: Result<T, Error>)
    requires Policy(w, m, q) && Policy(w, n, r)
    ensures m == n && q == r
  {
    assert m < n ==> GoesOn(w, m - 1) && w.sleep(m).None?;
    assert n < m ==> GoesOn(w, n - 1) && w.sleep(n).None?;
  }

  /** Layers of context around an error, outermost first. */
  function Wrap(layers: seq<string>, inner: Error): Error {
    if layers == [] then inner else Wrapped(layers[0], Wrap(layers[1..], inner))
  }

  /** Unwrapping gives an unmarked error back as it is, and otherwise what the outermost marker holds. */
  lemma {:induction false} UnwrapsTo(e: Error) returns (layers: seq<string>)
    ensures Markers(e) == 0 ==> UnwrapRetryable(e) == e
    ensures Markers(e) > 0 ==> e == Wrap(layers, Retryable(UnwrapRetryable(e)))
  {
    match e
    case Plain(_) => layers := [];
    case Retryable(_) => layers := [];
    case Wrapped(message, cause) =>
      var inner := UnwrapsTo(cause);
      layers := [message] + inner;
      OutermostMarker(e);
      assert layers[1..] == inner;
  }

  /** A retry that ends on the last call's error, because it is permanent or the attempts are used
      up, returns that error: itself when it carries no marker, and else what is behind the outermost
      marker, without the layers around it. */
  lemma LastErrorComesBack<T>(w: World<T>, calls: nat, r: Result<T, Error>) returns (layers: seq<string>)
    requires Policy(w, calls, r) && w.call(calls - 1).Err?
    requires Markers(w.call(calls - 1).error) == 0 || (calls == 3 && w.cancelled(calls - 1).None?)
    ensures r.Err?
    ensures Markers(w.call(calls - 1).error) == 0 ==> r.error == w.call(calls - 1).error
    ensures Markers(w.call(calls - 1).error) > 0 ==> w.call(calls - 1).error == Wrap(layers, Retryable(r.error))
  {
    OutermostMarker(w.call(calls - 1).error);
    layers := UnwrapsTo(w.call(calls - 1).error);
  }

  /** Marked errors, and only they, are retried, up to three calls in all; the first value is the
      result, and a cancelled context or an interrupted sleep ends the loop with its own error. */
  lemma HowItEnds<T>(w: World<T>, calls: nat, r: Result<T, Error>)
    requires Policy(w, calls, r)
    ensures 1 <= calls <= 3
    ensures forall i: nat :: i < calls - 1 ==> w.call(i).Err? && Markers(w.call(i).error) > 0 && w.cancelled(i).None?
    ensures r.Ok? <==> w.call(calls - 1).Ok?
    ensures r.Ok? ==> r == w.call(calls - 1)
    ensures w.call(calls - 1).Err? && Markers(w.call(calls - 1).error) > 0 && w.cancelled(calls - 1).Some? ==>
              r == Err(w.cancelled(calls - 1).value)
    ensures
      var last, cancel := w.call(calls - 1), w.cancelled(calls - 1);
      calls < 3 && last.Err? && Markers(last.error) > 0 && cancel.None? ==>
        w.sleep(calls).Some? && r == Err(w.sleep(calls).value)
  {
    forall i: nat | i < calls - 1 ensures w.call(i).Err? && Markers(w.call(i).error) > 0 && w.cancelled(i).None? {
      assert GoesOn(w, i);
      OutermostMarker(w.call(i).error);
    }
    if w.call(calls - 1).Err? { OutermostMarker(w.call(calls - 1).error); }
  }

  /** The context's errors carry no marker. */
  ghost predicate PlainContext<T>(w: World<T>) {
    && (forall i :: w.cancelled(i).Some? ==> Markers(w.cancelled(i).value) == 0)
    && (forall i :: w.sleep(i).Some? ==> Markers(w.sleep(i).value) == 0)
  }

  /** Exactly when a caller sees a retryable error: every attempt is used up, the context is not
      cancelled, and the last error carries two markers or more. With one marker at most, which is
      all that the API client puts on an error, that never happens. */
  lemma MarkersStayInside<T>(w: World<T>, calls: nat, r: Result<T, Error>)
    requires Policy(w, calls, r) && r.Err? && PlainContext(w)
    ensures w.call(calls - 1).Err?
    ensures IsRetryable(r.error) <==>
              calls == MAX_ATTEMPTS && w.cancelled(calls - 1).None? && Markers(w.call(calls - 1).error) >= 2
    ensures (forall i :: w.call(i).Err? ==> Markers(w.call(i).error) <= 1) ==> !IsRetryable(r.error)
  {
    var last := w.call(calls - 1).error;
    UnwrapLeavesMarkerIff(last);
    OutermostMarker(last);
    OutermostMarker(r.error);
  }

  /** Every attempt fails with an error that carries two markers. */
  function TwiceMarked(): World<bool> {
    World((i: nat) => Err(Retryable(Retryable(Plain("down")))), (i: nat) => 0, (i: nat) => None, (i: nat) => None)
  }

  /** The input that shows it: the third attempt's error comes back marked. */
  lemma MarkersCanLeak()
    ensures PlainContext(TwiceMarked()) && Policy(TwiceMarked(), 3, Err(Retryable(Plain("down"))))
    ensures IsRetryable(Retryable(Plain("down")))
  {}
}
