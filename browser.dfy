/**
 * The navigation helpers of the crawler: retry with exponential backoff, the pass/fail
 * decision of `SmartPageLoader.goto` with its settle steps, the lazy-loading scroll and the
 * screenshot result. Playwright calls are replaced by their outcomes, passed in as data.
 */
module Browser {
  import opened Common

  /** What one call of the retried function did: returned a value or raised an exception with a message. */
  datatype Outcome<T> = Returned(value: T) | Raised(message: string)

  /** `str(TypeError)` of `raise None`, which is what `retry_with_backoff` raises when it never called `func`. */
  const RaiseNoneMessage: string := "exceptions must derive from BaseException"

  function Pow2(k: nat): (r: nat)
    ensures r >= 1
  {
    if k == 0 then 1 else 2 * Pow2(k - 1)
  }

  /** The sleep after failed attempt `k`, in milliseconds: `min(base_delay * 2**k, max_delay)`. */
  function BackoffDelay(k: nat, baseMs: nat, maxMs: nat): nat {
    Min(baseMs * Pow2(k), maxMs)
  }

  /** The sleeps after failed attempts `0 .. n-1`, in order. */
  function Delays(n: nat, baseMs: nat, maxMs: nat): (ds: seq<nat>)
    ensures |ds| == n
    ensures forall k :: 0 <= k < n ==> ds[k] == BackoffDelay(k, baseMs, maxMs)
  {
    if n == 0 then [] else Delays(n - 1, baseMs, maxMs) + [BackoffDelay(n - 1, baseMs, maxMs)]
  }

  /** Index of the first call among `0 .. n-1` that returns, or `n` when all of them raise. */
  function FirstSuccess<T>(call: nat -> Outcome<T>, n: nat): (k: nat)
    ensures k <= n
    ensures forall j :: 0 <= j < k ==> call(j).Raised?
    ensures k < n ==> call(k).Returned?
  {
    if n == 0 then 0
    else
      var k := FirstSuccess(call, n - 1);
      if k < n - 1 then k else if call(n - 1).Returned? then n - 1 else n
  }

  /**
   * `retry_with_backoff(func, max_retries, base_delay, max_delay)`: `call(k)` is what the k-th call
   * of `func` does. Returns the result, the number of calls made and the sleeps taken, in order.
   */
  method RetryWithBackoff<T>(call: nat -> Outcome<T>, maxRetries: int, baseMs: nat, maxMs: nat)
    returns (r: Result<T, string>, calls: nat, sleeps: seq<nat>)
    ensures var n := Max(maxRetries, 0); var k := FirstSuccess(call, n);
      && (k < n ==> r == Ok(call(k).value) && calls == k + 1 && sleeps == Delays(k, baseMs, maxMs))
      && (k == n && n > 0 ==> r == Err(call(n - 1).message) && calls == n && sleeps == Delays(n - 1, baseMs, maxMs))
      && (n == 0 ==> r == Err(RaiseNoneMessage) && calls == 0 && sleeps == [])
  {
    var lastError: Option<string> := None;
    var attempt := 0;
    sleeps := [];
    while attempt < maxRetries
      invariant 0 <= attempt <= Max(maxRetries, 0)
      invariant FirstSuccess(call, attempt) == attempt
      invariant attempt == 0 ==> lastError.None?
      invariant attempt > 0 ==> lastError == Some(call(attempt - 1).message)
      invariant sleeps == Delays(if attempt < maxRetries || attempt == 0 then attempt else attempt - 1, baseMs, maxMs)
      decreases maxRetries - attempt
    {
      match call(attempt)
      case Returned(v) =>
        FirstSuccessStable(call, attempt, Max(maxRetries, 0));
        return Ok(v), attempt + 1, sleeps;
      case Raised(msg) =>
        lastError := Some(msg);
        if attempt < maxRetries - 1 {
          sleeps := sleeps + [BackoffDelay(attempt, baseMs, maxMs)];
        }
        attempt := attempt + 1;
    }
    if lastError.None? {
      return Err(RaiseNoneMessage), 0, [];
    }
    return Err(lastError.value), attempt, sleeps;
  }

  /** Once a call has returned, later bounds find the same first success. */
  lemma {:induction false} FirstSuccessStable<T>(call: nat -> Outcome<T>, k: nat, n: nat)
    requires k < n && FirstSuccess(call, k + 1) == k
    ensures FirstSuccess(call, n) == k
    decreases n - k
  {
    if n > k + 1 {
      FirstSuccessStable(call, k, n - 1);
    }
  }

  /** Fail, fail, succeed with three attempts allowed: two calls are retried, after sleeps of `base` and `2*base`. */
  lemma {:induction false} FailFailSucceed<T>(call: nat -> Outcome<T>, baseMs: nat, maxMs: nat)
    requires call(0).Raised? && call(1).Raised? && call(2).Returned?
    requires 2 * baseMs <= maxMs
    ensures FirstSuccess(call, 3) == 2
    ensures Delays(2, baseMs, maxMs) == [baseMs, 2 * baseMs]
  {
    assert Pow2(1) == 2;
  }

  /** Every sleep is capped by `max_delay`, and the sleeps never get shorter. */
  lemma {:induction false} DelaysCappedAndGrowing(n: nat, baseMs: nat, maxMs: nat)
    ensures forall k :: 0 <= k < n ==> Delays(n, baseMs, maxMs)[k] <= maxMs
    ensures forall j, k :: 0 <= j <= k < n ==> Delays(n, baseMs, maxMs)[j] <= Delays(n, baseMs, maxMs)[k]
  {
    var ds := Delays(n, baseMs, maxMs);
    forall k | 0 <= k < n
      ensures ds[k] <= maxMs
    {
      assert ds[k] == BackoffDelay(k, baseMs, maxMs);
    }
    forall j, k | 0 <= j <= k < n
      ensures ds[j] <= ds[k]
    {
      Pow2Monotone(j, k);
      ScaleMonotone(baseMs, Pow2(j), Pow2(k));
      assert ds[j] == BackoffDelay(j, baseMs, maxMs) && ds[k] == BackoffDelay(k, baseMs, maxMs);
    }
  }

  lemma {:induction false} ScaleMonotone(a: nat, x: nat, y: nat)
    requires x <= y
    ensures a * x <= a * y
  {
    assert a * y == a * x + a * (y - x);
  }

  lemma {:induction false} Pow2Monotone(j: nat, k: nat)
    requires j <= k
    ensures Pow2(j) <= Pow2(k)
    decreases k
  {
    if j < k {
      Pow2Monotone(j, k - 1);
    }
  }

  /** What `page.goto` gave: a response (or none), a Playwright timeout, or another exception. */
  datatype Navigation = Responded(response: Option<int>) | NavTimedOut | NavFailed(message: string)

  /** The outcome of one Playwright wait. */
  datatype WaitOutcome = Completed | WaitTimedOut | WaitFailed(message: string)

  /** The settle steps of `_wait_for_dynamic_content`. */
  datatype SettleStep = WaitSelector(selector: string, timeoutMs: int) | WaitNetworkIdle(timeoutMs: int) | WaitFixed(ms: int) | Scroll

  /** The settle steps in the order they run: the selector wait only when a selector is set. */
  function SettlePlan(selector: Option<string>, waitMs: int): (plan: seq<SettleStep>)
    ensures |plan| == if Truthy(selector) then 4 else 3
    ensures plan[|plan| - 3..] == [WaitNetworkIdle(5000), WaitFixed(waitMs), Scroll]
    ensures Truthy(selector) ==> plan[0] == WaitSelector(selector.value, waitMs)
  {
    (if Truthy(selector) then [WaitSelector(selector.value, waitMs)] else [])
    + [WaitNetworkIdle(5000), WaitFixed(waitMs), Scroll]
  }

  /**
   * Whether a step's outcome aborts the settling: timeouts of the selector and network-idle waits
   * are swallowed, the scroll catches everything itself, anything else propagates.
   */
  predicate Aborts(step: SettleStep, outcome: WaitOutcome) {
    match step
    case WaitSelector(_, _) => outcome.WaitFailed?
    case WaitNetworkIdle(_) => outcome.WaitFailed?
    case WaitFixed(_) => outcome != Completed
    case Scroll => false
  }

  /** Run `steps` in order, stopping after the first one that aborts; returns the steps run and whether none aborted. */
  function RunSteps(steps: seq<SettleStep>, outcome: SettleStep -> WaitOutcome): (r: (seq<SettleStep>, bool))
    ensures |r.0| <= |steps| && r.0 == steps[..|r.0|]
    ensures forall i :: 0 <= i < |r.0| - 1 ==> !Aborts(r.0[i], outcome(r.0[i]))
    ensures r.1 <==> r.0 == steps && forall i :: 0 <= i < |steps| ==> !Aborts(steps[i], outcome(steps[i]))
    ensures !r.1 ==> r.0 != [] && Aborts(r.0[|r.0| - 1], outcome(r.0[|r.0| - 1]))
  {
    if steps == [] then ([], true)
    else if Aborts(steps[0], outcome(steps[0])) then ([steps[0]], false)
    else
      var rest := RunSteps(steps[1..], outcome);
      ([steps[0]] + rest.0, rest.1)
  }

  /** The page and viewport heights `_trigger_lazy_loading` reads (None: the read raised). */
  datatype PageHeights = PageHeights(scrollHeight: Option<int>, viewportHeight: Option<int>)

  /** The scroll loop of `_trigger_lazy_loading` never ends: the page has height and half the viewport is not positive. */
  predicate ScrollHangs(heights: PageHeights) {
    heights.scrollHeight.Some? && heights.viewportHeight.Some?
    && heights.scrollHeight.value > 0 && heights.viewportHeight.value / 2 <= 0
  }

  /** `goto` reaches the settle steps: a response came with a status below 400. */
  predicate Reached(nav: Navigation) {
    nav.Responded? && nav.response.Some? && nav.response.value < 400
  }

  /**
   * `SmartPageLoader.goto`: the verdict and the settle steps that ran, or None when the call never
   * returns because the settle steps reach a scroll loop that does not end.
   */
  function Goto(nav: Navigation, selector: Option<string>, waitMs: int, outcome: SettleStep -> WaitOutcome,
                heights: PageHeights): (r: Option<(bool, seq<SettleStep>)>)
    ensures var plan := SettlePlan(selector, waitMs);
      r.None? <==> (Reached(nav) && (forall i :: 0 <= i < |plan| ==> !Aborts(plan[i], outcome(plan[i])))
                    && ScrollHangs(heights))
    ensures var plan := SettlePlan(selector, waitMs);
      r.Some? ==> (r.value.0 <==> Reached(nav) && forall i :: 0 <= i < |plan| ==> !Aborts(plan[i], outcome(plan[i])))
    ensures r.Some? && !Reached(nav) ==> r.value.1 == []
    ensures r.Some? ==> |r.value.1| <= |SettlePlan(selector, waitMs)| && r.value.1 == SettlePlan(selector, waitMs)[..|r.value.1|]
  {
    match nav
    case Responded(Some(code)) =>
      if code >= 400 then Some((false, []))
      else
        var run := RunSteps(SettlePlan(selector, waitMs), outcome);
        if run.1 && ScrollHangs(heights) then None else Some((run.1, run.0))
    case _ => Some((false, []))
  }

  /** `capture_screenshot`: true iff the screenshot call raised nothing. */
  function CaptureScreenshot(outcome: WaitOutcome): (ok: bool)
    ensures ok <==> outcome.Completed?
  {
    match outcome
    case Completed => true
    case _ => false
  }

  /** What `_trigger_lazy_loading` does. */
  datatype ScrollRun =
    | Scrolled(positions: seq<int>)   // scrolled to each position in turn, then back to the top
    | Stuck                           // the source loops forever: the step is not positive and the page has height
    | Skipped                         // reading the height or the viewport raised; the exception is swallowed

  /** The positions the loop visits from `current` until it reaches `height`, moving by `step`. */
  function ScrollFrom(current: int, height: int, step: int): (ps: seq<int>)
    requires step > 0
    decreases height - current
  {
    if current >= height then [] else [current + step] + ScrollFrom(current + step, height, step)
  }

  /** The scroll positions: multiples of `step`, up to the first one at or past `height`. */
  function ScrollPositions(height: int, step: int): seq<int>
    requires step > 0
  {
    ScrollFrom(0, height, step)
  }

  /** `_trigger_lazy_loading`, with the page height and viewport height read beforehand (None: the read raised). */
  method TriggerLazyLoading(scrollHeight: Option<int>, viewportHeight: Option<int>) returns (run: ScrollRun)
    ensures scrollHeight.None? || viewportHeight.None? <==> run.Skipped?
    ensures scrollHeight.Some? && viewportHeight.Some? ==>
      var h := scrollHeight.value; var step := viewportHeight.value / 2;
      && (ScrollHangs(PageHeights(scrollHeight, viewportHeight)) <==> run.Stuck?)
      && (step > 0 || h <= 0 ==> run == Scrolled(if h <= 0 then [] else ScrollPositions(h, step)))
  {
    if scrollHeight.None? || viewportHeight.None? {
      return Skipped;
    }
    var height := scrollHeight.value;
    var step := viewportHeight.value / 2;
    if height > 0 && step <= 0 {
      return Stuck;
    }
    if height <= 0 {
      return Scrolled([]);
    }
    var positions: seq<int> := [];
    var current := 0;
    while current < height
      invariant positions + ScrollFrom(current, height, step) == ScrollPositions(height, step)
      decreases height - current
    {
      positions := positions + [current + step];
      current := current + step;
    }
    return Scrolled(positions);
  }

  /**
   * The positions strictly increase, are the multiples `step, 2*step, ...`, and stop at the first one
   * at or past `height`: every earlier one is below `height`, the last is below `height + step`.
   */
  lemma {:induction false} ScrollFromShape(current: int, height: int, step: int)
    requires step > 0
    ensures var ps := ScrollFrom(current, height, step);
      && (current >= height <==> ps == [])
      && (forall i :: 0 <= i < |ps| ==> ps[i] == current + (i + 1) * step)
      && (forall i :: 0 <= i < |ps| - 1 ==> ps[i] < height)
      && (ps != [] ==> height <= ps[|ps| - 1] < height + step)
    decreases height - current
  {
    if current < height {
      ScrollFromShape(current + step, height, step);
      var ps := ScrollFrom(current, height, step);
      var tail := ScrollFrom(current + step, height, step);
      assert ps == [current + step] + tail;
      forall i | 0 <= i < |ps| ensures ps[i] == current + (i + 1) * step {
        if i > 0 {
          assert ps[i] == tail[i - 1];
        }
      }
    }
  }

  lemma {:induction false} ScrollPositionsShape(height: int, step: int)
    requires step > 0
    ensures var ps := ScrollPositions(height, step);
      && (height <= 0 <==> ps == [])
      && (forall i :: 0 <= i < |ps| ==> ps[i] == (i + 1) * step)
      && (forall i, j :: 0 <= i < j < |ps| ==> ps[i] < ps[j])
      && (ps != [] ==> height <= ps[|ps| - 1] < height + step)
  {
    ScrollFromShape(0, height, step);
    var ps := ScrollPositions(height, step);
    forall i, j | 0 <= i < j < |ps|
      ensures ps[i] < ps[j]
    {
      StepsIncrease(i + 1, j + 1, step);
    }
  }

  lemma {:induction false} StepsIncrease(a: int, b: int, step: int)
    requires a < b && step > 0
    ensures a * step < b * step
  {
    assert b * step == a * step + (b - a) * step;
  }
}
