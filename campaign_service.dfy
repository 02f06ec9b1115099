/** `updateCampaignActiveStatusOptimized` and `updateCampaignStatusAdvanced`
    of week2/refactoring/services/campaign-optimized.service.ts. */
module CampaignService {
  import opened Js
  import opened Http
  import opened Api
  import opened CampaignSchema
  import opened CampaignApi

  /** The campaign's current status, `"active" | "inactive"`. */
  datatype CampaignStatus = Active | Inactive

  /** A given `onFinally`: what it throws when called with `true` and when
      called with `false`, `None` where it returns normally. */
  datatype FinallyCallback = FinallyCallback(throwsOnTrue: Option<string>, throwsOnFalse: Option<string>)

  /** What the callback throws when called with `success`. */
  function ThrowOf(f: FinallyCallback, success: bool): (e: Option<string>)
    ensures e == if success then f.throwsOnTrue else f.throwsOnFalse
  {
    if success then f.throwsOnTrue else f.throwsOnFalse
  }

  /** A callback that never throws. */
  predicate Quiet(f: FinallyCallback) {
    f.throwsOnTrue.None? && f.throwsOnFalse.None?
  }

  /** `UpdateCampaignStatusParams` */
  datatype Params = Params(id: string, activeStatus: CampaignStatus, onFinally: Option<FinallyCallback>)

  /** The status to switch to: an active campaign is made inactive, any
      other is activated. */
  function NextStatus(current: CampaignStatus): (next: ActiveStatus)
    ensures next.Inactivate? <==> current.Active?
    ensures next.Activate? <==> current.Inactive?
  {
    if current == Active then ActiveStatus.Inactivate else ActiveStatus.Activate
  }

  /** How a service call settles: it returns the API's result, or it
      rethrows. */
  datatype Settled = Returned(run: Run) | Rethrown(error: string)

  /** The settled call and the arguments `onFinally` received, in order. */
  datatype ServiceCall = ServiceCall(settled: Settled, finallyCalls: seq<bool>)

  /** The `catch` block: `onFinally?.(false)`, then `throw error`, unless
      the callback's own exception leaves first. */
  function CatchBlock(onFinally: Option<FinallyCallback>, error: string, calls: seq<bool>): (r: ServiceCall)
    ensures onFinally.None? ==> r == ServiceCall(Rethrown(error), calls)
    ensures onFinally.Some? ==> r.finallyCalls == calls + [false]
    ensures onFinally.Some? ==> r.settled == Rethrown(if onFinally.value.throwsOnFalse.Some? then onFinally.value.throwsOnFalse.value else error)
  {
    if onFinally.None? then ServiceCall(Rethrown(error), calls)
    else
      var second := ThrowOf(onFinally.value, false);
      ServiceCall(Rethrown(if second.Some? then second.value else error), calls + [false])
  }

  /** The `try`/`catch` both variants share. `thrown` is an exception the
      awaited call raised, and `onFinally?.(result.success)` sits inside
      the `try`, so an exception of its own is caught as well: the callback
      is then called a second time, with `false`, and the error rethrown. */
  function Guarded(onFinally: Option<FinallyCallback>, thrown: Option<string>, run: Run): (r: ServiceCall)
    ensures r.settled.Returned? <==>
              thrown.None? && (onFinally.None? || ThrowOf(onFinally.value, run.response.success).None?)
    ensures r.settled.Returned? ==> r.settled.run == run
    ensures onFinally.None? ==> r.finallyCalls == []
    ensures onFinally.None? && thrown.Some? ==> r.settled == Rethrown(thrown.value)
    ensures onFinally.Some? && thrown.Some? ==> r.finallyCalls == [false]
    ensures onFinally.Some? && thrown.None? ==>
              r.finallyCalls == if ThrowOf(onFinally.value, run.response.success).Some?
                                then [run.response.success, false] else [run.response.success]
    ensures r.settled.Rethrown? && onFinally.Some? && onFinally.value.throwsOnFalse.Some? ==>
              r.settled.error == onFinally.value.throwsOnFalse.value
  {
    if thrown.Some? then CatchBlock(onFinally, thrown.value, [])
    else if onFinally.Some? && ThrowOf(onFinally.value, run.response.success).Some? then
      CatchBlock(onFinally, ThrowOf(onFinally.value, run.response.success).value, [run.response.success])
    else ServiceCall(Returned(run), if onFinally.Some? then [run.response.success] else [])
  }

  /** With an `onFinally` that does not throw, it is called exactly once:
      with the result's `success`, or with `false` when the awaited call
      threw, and the call's own exception is rethrown unchanged. */
  lemma QuietFinallyOnce(f: FinallyCallback, thrown: Option<string>, run: Run)
    requires Quiet(f)
    ensures var r := Guarded(Some(f), thrown, run);
      && r.finallyCalls == [if thrown.Some? then false else run.response.success]
      && r.settled == if thrown.Some? then Rethrown(thrown.value) else Returned(run)
  {
  }

  /** An `onFinally` that throws on a settled result is called twice, the
      second time with `false` whatever the result was, and the call
      rethrows instead of returning the result. */
  lemma ThrowingFinallyCalledTwice(f: FinallyCallback, run: Run)
    requires ThrowOf(f, run.response.success).Some?
    ensures var r := Guarded(Some(f), None, run);
      && r.finallyCalls == [run.response.success, false]
      && r.settled == Rethrown(if f.throwsOnFalse.Some? then f.throwsOnFalse.value
                               else ThrowOf(f, run.response.success).value)
  {
  }

  /** `updateCampaignActiveStatusOptimized(params)` */
  function Optimized(params: Params, thrown: Option<string>, transport: seq<Reply>, cache: Cache): (r: ServiceCall)
    ensures r.settled.Returned? ==>
              r.settled.run.cache == if r.settled.run.response.success then InvalidateAll(cache, [CampaignListKey]) else cache
    ensures params.onFinally.None? && thrown.None? ==> r.settled.Returned? && r.finallyCalls == []
  {
    Guarded(params.onFinally, thrown,
            UpdateActiveStatus(NextStatus(params.activeStatus), InactiveDto(params.id), transport, cache))
  }

  /** The optimized service returns the API's result unchanged, calls
      `onFinally` exactly once (when given) with whether the switch
      succeeded, and that is whether one of the first three replies did. */
  lemma OptimizedSettles(params: Params, transport: seq<Reply>, cache: Cache)
    ensures var r := Optimized(params, None, transport, cache);
      var run := UpdateActiveStatus(NextStatus(params.activeStatus), InactiveDto(params.id), transport, cache);
      && (r.settled == Returned(run) <==>
            params.onFinally.None? || ThrowOf(params.onFinally.value, run.response.success).None?)
      && (params.onFinally.Some? && Quiet(params.onFinally.value) ==> r.finallyCalls == [run.response.success])
      && (run.response.success <==> exists i :: 0 <= i <= 2 && ReplyAt(transport, i).Ok?)
      && (run.response.success ==> Reports(run.log) == [SuccessLogged(StatusMessage(NextStatus(params.activeStatus)))])
  {
    UpdateActiveStatusOutcome(NextStatus(params.activeStatus), InactiveDto(params.id), transport, cache);
  }

  const AdvancedErrorMessage := "캠페인 상태 변경에 실패했습니다. 다시 시도해주세요."

  /** The advanced variant's success message, chosen from the current
      status. */
  function AdvancedSuccessMessage(current: CampaignStatus): string {
    if current == Active then Deactivated else Activated
  }

  /** What the builder chain of the advanced variant builds. */
  function AdvancedRequest(params: Params): Request {
    Request("/auto-campaign/" + StatusPath(NextStatus(params.activeStatus)),
            InactiveJson(InactiveDto(params.id)),
            RequestConfig(Some(Many([CampaignListKey, "/auto-campaign/" + params.id])),
                          Some(AdvancedSuccessMessage(params.activeStatus)),
                          Some(AdvancedErrorMessage), None, Some(3)))
  }

  /** `api.build().endpoint(…).payload(…).invalidateCache(…).successMessage(…)
      .retry(3).errorMessage(…)`. */
  method BuildAdvanced(params: Params) returns (request: Request)
    ensures request == AdvancedRequest(params)
    ensures request.config.invalidateCache == Some(Many(["/auto-campaign/all", "/auto-campaign/" + params.id]))
    ensures request.config.retries == Some(3) && request.config.errorMessage == Some(AdvancedErrorMessage)
  {
    var b := new ApiRequestBuilder();
    b := b.Endpoint("/auto-campaign/" + StatusPath(NextStatus(params.activeStatus)));
    b := b.Payload(InactiveJson(InactiveDto(params.id)));
    b := b.InvalidateCache(Many([CampaignListKey, "/auto-campaign/" + params.id]));
    b := b.SuccessMessage(AdvancedSuccessMessage(params.activeStatus));
    b := b.Retry(3);
    b := b.ErrorMessage(AdvancedErrorMessage);
    request := b.Build();
  }

  /** `updateCampaignStatusAdvanced(params)`: `api.execute(request, "POST")`. */
  function Advanced(params: Params, thrown: Option<string>, transport: seq<Reply>, cache: Cache): (r: ServiceCall)
    ensures r.settled.Returned? ==>
              r.settled.run.cache == if r.settled.run.response.success
                                     then InvalidateAll(cache, [CampaignListKey, "/auto-campaign/" + params.id]) else cache
    ensures params.onFinally.None? && thrown.None? ==> r.settled.Returned? && r.finallyCalls == []
  {
    var request := AdvancedRequest(params);
    CacheOnlyOnSuccess(AlertStrategy, Known(Verb.Post), request, request.config, transport, cache);
    Guarded(params.onFinally, thrown,
            Attempts(AlertStrategy, Known(Verb.Post), request, request.config, transport, cache, 0))
  }

  /** Choosing the message from the current status gives the same text as
      choosing it from the next one, as the optimized path does. */
  lemma SuccessMessagesAgree(current: CampaignStatus)
    ensures AdvancedSuccessMessage(current) == StatusMessage(NextStatus(current))
  {
  }

  /** The advanced variant returns the API's result; it succeeds exactly
      when one of the first four replies does, and success invalidates both
      the list and the campaign's own key and shows the status message. */
  lemma AdvancedSettles(params: Params, transport: seq<Reply>, cache: Cache)
    ensures var request := AdvancedRequest(params);
      var run := Attempts(AlertStrategy, Known(Verb.Post), request, request.config, transport, cache, 0);
      && (Advanced(params, None, transport, cache).settled == Returned(run) <==>
            params.onFinally.None? || ThrowOf(params.onFinally.value, run.response.success).None?)
      && (run.response.success <==> exists i :: 0 <= i <= 3 && ReplyAt(transport, i).Ok?)
      && (run.response.success ==>
            && run.cache == InvalidateAll(cache, [CampaignListKey, "/auto-campaign/" + params.id])
            && Reports(run.log) == [SuccessLogged(StatusMessage(NextStatus(params.activeStatus)))])
  {
    var request := AdvancedRequest(params);
    var m := Known(Verb.Post);
    assert MaxRetries(request.config) == 3;
    Outcome(AlertStrategy, m, request, request.config, transport, cache);
    assert forall i :: ReplyFor(m, transport, i) == ReplyAt(transport, i);
    Reporting(AlertStrategy, m, request, request.config, transport, cache);
  }

  /** A call that never succeeds makes four attempts, waits 1, 2 and 3 s
      between them, leaves the cache alone and alerts the fixed message
      whatever the server said. */
  lemma AdvancedFailure(params: Params, transport: seq<Reply>, cache: Cache)
    ensures var request := AdvancedRequest(params);
      var run := Attempts(AlertStrategy, Known(Verb.Post), request, request.config, transport, cache, 0);
      !run.response.success ==>
        && run.cache == cache
        && SentCount(run.log) == 4
        && Waits(run.log) == [1000, 2000, 3000]
        && Reports(run.log) == [Alerted(AdvancedErrorMessage)]
  {
    var request := AdvancedRequest(params);
    var m := Known(Verb.Post);
    assert MaxRetries(request.config) == 3;
    Outcome(AlertStrategy, m, request, request.config, transport, cache);
    Reporting(AlertStrategy, m, request, request.config, transport, cache);
    RetrySchedule(AlertStrategy, m, request, request.config, transport, cache);
    assert LinearBackoff(0, 3) == [1000, 2000, 3000];
  }
}
