/** Bounded attempts and fallbacks over one backend (src/oran-provider/execution.cpp). */
module Execution {
  import opened Core
  import opened Provider

  /** What the backend does with one send, and what the pause after it does: the backend's answer
      may follow visible stream output, may be an exception, and the pause may be cancelled. */
  datatype Answer =
    | Answered(response: Result<Response>, emits: bool, pause: Result<()>)
    | Threw(aborted: bool, emits: bool)

  /** One request as it went out: to which target, as which attempt, and whether the caller's sink
      saw any of its output. */
  datatype Send = Send(target: nat, attempt: nat, request: Request, emitted: bool)

  datatype Outcome = Outcome(target: nat, response: Result<Response>)

  /** A fallback's own thinking budget replaces the request's; a fallback without one keeps the
      request's only when it speaks the primary protocol. */
  function AttemptRequest(request: Request, route: Route, target: nat): Request
    requires target <= |route.fallbacks|
  {
    if target == 0 then request
    else if route.At(target).thinkingBudget.Some? then
      request.(thinkingBudget := route.At(target).thinkingBudget)
    else if route.At(target).protocol != AnthropicMessages then
      request.(thinkingBudget := None)
    else request
  }

  /** Send number `k` is attempt `k % max` of target `k / max`. */
  predicate InOrder(sends: seq<Send>, max: nat) {
    forall k :: 0 <= k < |sends| ==>
      1 <= sends[k].attempt <= max && sends[k].target * max + (sends[k].attempt - 1) == k
  }

  predicate Faithful(sends: seq<Send>, request: Request, route: Route) {
    forall k :: 0 <= k < |sends| ==>
      sends[k].target <= |route.fallbacks| && sends[k].request == AttemptRequest(request, route, sends[k].target)
  }

  /** A failed attempt may be followed by another one: the error is worth retrying and nothing
      was shown. */
  predicate MayRetry(answer: Answer, hasSink: bool) {
    && answer.Answered? && answer.response.Err? && Retryable(answer.response.kind)
    && !(hasSink && answer.emits)
  }

  /** Every send but the last failed in a way worth retrying, and showed nothing. */
  ghost predicate RetriedOnly(sends: seq<Send>, backend: nat -> Answer, hasSink: bool) {
    forall k :: 0 <= k < |sends| - 1 ==> MayRetry(backend(k), hasSink) && !sends[k].emitted
  }

  /** The sends so far: in order, unaltered, and each but the last was worth another attempt. */
  ghost predicate Trail(sends: seq<Send>, backend: nat -> Answer, request: Request, route: Route, hasSink: bool) {
    && InOrder(sends, request.maxAttempts)
    && Faithful(sends, request, route)
    && RetriedOnly(sends, backend, hasSink)
    && forall k :: 0 <= k < |sends| ==> (sends[k].emitted <==> hasSink && backend(k).emits)
  }

  ghost predicate Continues(sends: seq<Send>, backend: nat -> Answer, hasSink: bool) {
    sends != [] ==> MayRetry(backend(|sends| - 1), hasSink)
  }

  lemma OneMoreSend(sends: seq<Send>, backend: nat -> Answer, request: Request, route: Route, hasSink: bool,
                    target: nat, attempt: nat)
    requires Trail(sends, backend, request, route, hasSink) && Continues(sends, backend, hasSink)
    requires target <= |route.fallbacks| && 1 <= attempt <= request.maxAttempts
    requires |sends| == target * request.maxAttempts + (attempt - 1)
    ensures var emitted := hasSink && backend(|sends|).emits;
      Trail(sends + [Send(target, attempt, AttemptRequest(request, route, target), emitted)], backend, request,
            route, hasSink)
  {
    var emitted := hasSink && backend(|sends|).emits;
    var more := sends + [Send(target, attempt, AttemptRequest(request, route, target), emitted)];
    forall k | 0 <= k < |more| - 1 ensures MayRetry(backend(k), hasSink) && !more[k].emitted {
      assert more[k] == sends[k];
      if k < |sends| - 1 {
        assert MayRetry(backend(k), hasSink);
      }
    }
  }

  /** How the last attempt of a target left the run: over, or free to go on with the next target. */
  ghost predicate Settled(outcome: Outcome, sends: seq<Send>, backend: nat -> Answer, hasSink: bool) {
    && sends != []
    && var last := backend(|sends| - 1);
    && outcome.target == sends[|sends| - 1].target
    && (outcome.response.Ok? <==> last.Answered? && last.response.Ok?)
    && (outcome.response.Ok? ==> outcome.response == last.response)
  }

  /** What a run ends with is the last answer, what was thrown, or what interrupted the pause before
      another attempt. */
  ghost predicate Explains(last: Answer, response: Result<Response>, hasSink: bool) {
    match last
    case Threw(aborted, _) => response == Err(if aborted then Cancelled else Internal)
    case Answered(answer, _, pause) =>
      response == answer || (MayRetry(last, hasSink) && pause.Err? && response == Err(pause.kind))
  }

  /** All attempts for one target. */
  method RunTarget(backend: nat -> Answer, request: Request, route: Route, hasSink: bool, target: nat,
                   earlier: seq<Send>)
    returns (outcome: Outcome, sends: seq<Send>, over: bool)
    requires request.maxAttempts > 0 && target <= |route.fallbacks|
    requires |earlier| == target * request.maxAttempts
    requires Trail(earlier, backend, request, route, hasSink) && Continues(earlier, backend, hasSink)
    ensures Trail(sends, backend, request, route, hasSink)
    ensures Settled(outcome, sends, backend, hasSink) && outcome.target == target
    ensures Explains(backend(|sends| - 1), outcome.response, hasSink)
    ensures |earlier| < |sends| <= |earlier| + request.maxAttempts
    ensures !over ==> outcome.response.Err? && Continues(sends, backend, hasSink)
    ensures !over ==> |sends| == |earlier| + request.maxAttempts
    ensures over && outcome.response.Err? ==>
      !MayRetry(backend(|sends| - 1), hasSink) || backend(|sends| - 1).pause.Err?
  {
    sends := earlier;
    outcome := Outcome(target, Err(Internal));
    var attempt := 0;
    while attempt < request.maxAttempts
      invariant attempt <= request.maxAttempts && |sends| == |earlier| + attempt
      invariant Trail(sends, backend, request, route, hasSink) && Continues(sends, backend, hasSink)
      invariant attempt > 0 ==> Settled(outcome, sends, backend, hasSink)
      invariant outcome.target == target && outcome.response.Err?
      invariant attempt > 0 ==> Explains(backend(|sends| - 1), outcome.response, hasSink)
    {
      attempt := attempt + 1;
      var answer := backend(|sends|);
      OneMoreSend(sends, backend, request, route, hasSink, target, attempt);
      var emitted := hasSink && answer.emits;
      sends := sends + [Send(target, attempt, AttemptRequest(request, route, target), emitted)];
      if answer.Threw? {
        return Outcome(target, Err(if answer.aborted then Cancelled else Internal)), sends, true;
      }
      outcome := Outcome(target, answer.response);
      if answer.response.Ok? || answer.response.kind == Cancelled || !Retryable(answer.response.kind) || emitted {
        return outcome, sends, true;
      }
      if attempt == request.maxAttempts {
        break;
      }
      if answer.pause.Err? {
        return Outcome(target, Err(answer.pause.kind)), sends, true;
      }
    }
    over := false;
  }

  /** Sends follow a prefix of (target, attempt) order with at most `maxAttempts` per target. Only
      the last one can have shown output. Success is the last answer; failure before the order is
      used up means the last attempt could not be retried, or its pause was interrupted. */
  method Run(backend: nat -> Answer, request: Request, route: Route, hasSink: bool)
    returns (outcome: Outcome, sends: seq<Send>)
    ensures Trail(sends, backend, request, route, hasSink)
    ensures request.maxAttempts == 0 <==> sends == []
    ensures sends == [] ==> outcome == Outcome(0, Err(InvalidArgument))
    ensures sends != [] ==> Settled(outcome, sends, backend, hasSink)
    ensures sends != [] ==> Explains(backend(|sends| - 1), outcome.response, hasSink)
    ensures |sends| <= (|route.fallbacks| + 1) * request.maxAttempts
    ensures outcome.response.Err? && 0 < |sends| < (|route.fallbacks| + 1) * request.maxAttempts ==>
      !MayRetry(backend(|sends| - 1), hasSink) || backend(|sends| - 1).pause.Err?
  {
    sends := [];
    outcome := Outcome(0, Err(InvalidArgument));
    if request.maxAttempts == 0 {
      return;
    }
    var target := 0;
    while target <= |route.fallbacks|
      invariant target <= |route.fallbacks| + 1
      invariant |sends| == target * request.maxAttempts
      invariant Trail(sends, backend, request, route, hasSink) && Continues(sends, backend, hasSink)
      invariant outcome.response.Err?
      invariant target > 0 ==> Settled(outcome, sends, backend, hasSink)
      invariant target > 0 ==> Explains(backend(|sends| - 1), outcome.response, hasSink)
    {
      var over;
      Steps(target, |route.fallbacks|, request.maxAttempts);
      outcome, sends, over := RunTarget(backend, request, route, hasSink, target, sends);
      if over {
        return;
      }
      target := target + 1;
    }
  }

  lemma Steps(target: nat, last: nat, max: nat)
    requires target <= last
    ensures (target + 1) * max == target * max + max <= (last + 1) * max
  {
    if target < last {
      Steps(target, last - 1, max);
    }
  }

  function MaxBudget(budgets: seq<Option<nat>>): (m: nat)
    ensures forall k :: 0 <= k < |budgets| && budgets[k].Some? ==> budgets[k].value <= m
  {
    if budgets == [] then 0
    else
      var rest := MaxBudget(budgets[..|budgets| - 1]);
      var last := budgets[|budgets| - 1];
      if last.Some? && last.value > rest then last.value else rest
  }

  /** The thinking reserve that covers the request and every target of the route. */
  function ThinkingReserve(thinking: Option<nat>, route: Route): (m: nat)
    ensures thinking.Some? ==> thinking.value <= m
    ensures forall t :: 0 <= t <= |route.fallbacks| && route.At(t).thinkingBudget.Some? ==>
      route.At(t).thinkingBudget.value <= m
  {
    var targets := [thinking, route.primary.thinkingBudget] +
      seq(|route.fallbacks|, t requires 0 <= t < |route.fallbacks| => route.fallbacks[t].thinkingBudget);
    assert targets[0] == thinking && targets[1] == route.primary.thinkingBudget;
    assert forall t :: 1 <= t <= |route.fallbacks| ==> targets[t + 1] == route.At(t).thinkingBudget;
    MaxBudget(targets)
  }

  /** Whichever target gets it, an attempt thinks within the reserve. */
  lemma AttemptWithinReserve(request: Request, route: Route, target: nat)
    requires target <= |route.fallbacks|
    ensures var a := AttemptRequest(request, route, target);
      && a.(thinkingBudget := None) == request.(thinkingBudget := None)
      && (a.thinkingBudget.Some? ==> a.thinkingBudget.value <= ThinkingReserve(request.thinkingBudget, route))
  {
  }
}
