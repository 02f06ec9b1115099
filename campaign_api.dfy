/** `CampaignApiClient` of week2/refactoring/apis/campaign/campaign-optimized.api.ts,
    on top of the shared `api` object, whose client reports errors with
    alerts. */
module CampaignApi {
  import opened Js
  import opened Http
  import opened Zod
  import opened Api
  import opened CampaignSchema

  /** The path segment `"activate" | "inactive"`. */
  datatype ActiveStatus = Activate | Inactivate

  function StatusPath(status: ActiveStatus): (p: string)
    ensures p == if status == Activate then "activate" else "inactive"
  {
    match status
    case Activate => "activate"
    case Inactivate => "inactive"
  }

  const TagUrl := "/auto-campaign/campaign-tag"
  const TagListKey := "/auto-campaign/campaign-tag/all"
  const TagCreated := "자동화 캠페인 태그를 생성했습니다."
  const CampaignListKey := "/auto-campaign/all"
  const Activated := "캠페인을 활성화했습니다."
  const Deactivated := "캠페인을 비활성화했습니다."

  function TagJson(dto: TagDto): Json {
    JObject(map["name" := JStr(dto.name)])
  }

  function InactiveJson(dto: InactiveDto): Json {
    JObject(map["autoCampaignId" := JStr(dto.autoCampaignId)])
  }

  /** What `createTag` comes to: the `ZodError` it throws before any
      request, or the run of the post. */
  datatype TagCall = InvalidTag(issues: seq<Issue>) | TagPosted(run: Run)

  const TagConfig := RequestConfig(Some(Many([TagListKey])), Some(TagCreated), None, None, None)

  /** The post `createTag` makes once the dto has parsed. */
  function TagRun(dto: TagDto, transport: seq<Reply>, cache: Cache): Run {
    Attempts(AlertStrategy, Known(Verb.Post), Request(TagUrl, TagJson(dto), NoConfig), TagConfig, transport, cache, 0)
  }

  /** `createTag(reqDto)`: parse, then `api.post`. */
  function CreateTag(dto: TagDto, transport: seq<Reply>, cache: Cache): (r: TagCall)
    ensures r.InvalidTag? <==> !(1 <= |dto.name| <= 100)
    ensures r.InvalidTag? ==> r.issues == TagIssues(dto) && r.issues != []
    ensures r.TagPosted? ==> r.run == TagRun(dto, transport, cache)
  {
    match ParseTag(dto)
    case ZodError(issues) => InvalidTag(issues)
    case Parsed(_) => TagPosted(TagRun(dto, transport, cache))
  }

  /** A valid tag is posted once, with no retry: the one request goes to
      `/auto-campaign/campaign-tag` with the dto; on success the tag list key
      is invalidated and the creation message shown, otherwise the cache is
      left alone and the failure alerted. */
  lemma CreateTagEffects(dto: TagDto, transport: seq<Reply>, cache: Cache)
    requires 1 <= |dto.name| <= 100
    ensures CreateTag(dto, transport, cache) == TagPosted(TagRun(dto, transport, cache))
    ensures var run := TagRun(dto, transport, cache);
      && SentCount(run.log) == 1
      && Waits(run.log) == []
      && (forall e :: e in run.log && e.Sent? ==> e == Sent(Verb.Post, TagUrl, Some(TagJson(dto))))
      && (run.response.success <==> ReplyAt(transport, 0).Ok?)
      && (run.response.success ==>
            && run.cache == InvalidateAll(cache, [TagListKey])
            && InvalidatedKeys(run.log) == [TagListKey]
            && Reports(run.log) == [SuccessLogged(TagCreated)])
      && (!run.response.success ==>
            && run.cache == cache
            && Reports(run.log) == [Alerted(ErrorText(None, ReplyAt(transport, 0).failure))])
  {
    var m := Known(Verb.Post);
    var req := Request(TagUrl, TagJson(dto), NoConfig);
    var run := TagRun(dto, transport, cache);
    RetrySchedule(AlertStrategy, m, req, TagConfig, transport, cache);
    Outcome(AlertStrategy, m, req, TagConfig, transport, cache);
    CacheOnlyOnSuccess(AlertStrategy, m, req, TagConfig, transport, cache);
    Reporting(AlertStrategy, m, req, TagConfig, transport, cache);
    forall e | e in run.log && e.Sent?
      ensures e == Sent(Verb.Post, TagUrl, Some(TagJson(dto)))
    {
      RequestsSent(AlertStrategy, Verb.Post, req, TagConfig, transport, cache, e);
    }
  }

  /** An invalid tag never reaches the transport and changes no cache key:
      the call is the `ZodError` alone. */
  lemma InvalidTagSendsNothing(name: string, transport: seq<Reply>, cache: Cache)
    requires |name| > 100
    ensures CreateTag(TagDto(name), transport, cache) == InvalidTag([Issue(["name"], NameTooLong)])
  {
  }

  /** Both messages of `updateActiveStatus`. */
  function StatusMessage(status: ActiveStatus): (m: string)
    ensures status == Activate ==> m == Activated
    ensures status == Inactivate ==> m == Deactivated
  {
    if status == Activate then Activated else Deactivated
  }

  function StatusConfig(status: ActiveStatus): RequestConfig {
    RequestConfig(Some(Many([CampaignListKey])), Some(StatusMessage(status)), None, None, Some(2))
  }

  function StatusRequest(status: ActiveStatus, dto: InactiveDto): Request {
    Request("/auto-campaign/" + StatusPath(status), InactiveJson(dto), NoConfig)
  }

  /** `updateActiveStatus(activeStatus, reqDto)`: no validation, straight to
      `api.post` with two retries. */
  function UpdateActiveStatus(status: ActiveStatus, dto: InactiveDto, transport: seq<Reply>, cache: Cache): (r: Run)
    ensures r.cache == if r.response.success then InvalidateAll(cache, [CampaignListKey]) else cache
  {
    CacheOnlyOnSuccess(AlertStrategy, Known(Verb.Post), StatusRequest(status, dto), StatusConfig(status), transport, cache);
    Attempts(AlertStrategy, Known(Verb.Post), StatusRequest(status, dto), StatusConfig(status), transport, cache, 0)
  }

  /** Every dto is posted (the empty id too) to `/auto-campaign/activate` or
      `/auto-campaign/inactive`, at most three times, with waits of 1 s and
      2 s between the attempts. */
  lemma UpdateActiveStatusSchedule(status: ActiveStatus, dto: InactiveDto, transport: seq<Reply>, cache: Cache)
    ensures var run := UpdateActiveStatus(status, dto, transport, cache);
      var made := AttemptsMade(Known(Verb.Post), StatusConfig(status), transport);
      && 1 <= made <= 3
      && SentCount(run.log) == made
      && Waits(run.log) == LinearBackoff(0, made - 1)
      && (forall e :: e in run.log && e.Sent? ==>
            e == Sent(Verb.Post, "/auto-campaign/" + StatusPath(status), Some(InactiveJson(dto))))
  {
    var m := Known(Verb.Post);
    var req := StatusRequest(status, dto);
    var config := StatusConfig(status);
    var run := UpdateActiveStatus(status, dto, transport, cache);
    assert MaxRetries(config) == 2;
    RetrySchedule(AlertStrategy, m, req, config, transport, cache);
    forall e | e in run.log && e.Sent?
      ensures e == Sent(Verb.Post, req.url, Some(req.data))
    {
      RequestsSent(AlertStrategy, Verb.Post, req, config, transport, cache, e);
    }
  }

  /** The result is a success exactly when one of the first three replies
      is; success invalidates the campaign list and shows the status
      message, and a failure comes after all three attempts and leaves the
      cache alone. */
  lemma UpdateActiveStatusOutcome(status: ActiveStatus, dto: InactiveDto, transport: seq<Reply>, cache: Cache)
    ensures var run := UpdateActiveStatus(status, dto, transport, cache);
      var made := AttemptsMade(Known(Verb.Post), StatusConfig(status), transport);
      && (run.response.success <==> exists i :: 0 <= i <= 2 && ReplyAt(transport, i).Ok?)
      && (run.response.success ==>
            && run.cache == InvalidateAll(cache, [CampaignListKey])
            && Reports(run.log) == [SuccessLogged(StatusMessage(status))])
      && (!run.response.success ==> run.cache == cache && made == 3)
  {
    var m := Known(Verb.Post);
    var req := StatusRequest(status, dto);
    var config := StatusConfig(status);
    var run := UpdateActiveStatus(status, dto, transport, cache);
    assert MaxRetries(config) == 2;
    assert forall i :: ReplyFor(m, transport, i) == ReplyAt(transport, i);
    Outcome(AlertStrategy, m, req, config, transport, cache);
    assert run.response.success ==> Reports(run.log) == [SuccessLogged(StatusMessage(status))] by {
      Reporting(AlertStrategy, m, req, config, transport, cache);
    }
  }

  /** Two failures, then a success: three requests, waits of 1000 and
      2000 ms, and the third reply's data. */
  lemma FailFailSucceed(status: ActiveStatus, dto: InactiveDto, f1: Failure, f2: Failure, d: Json, cache: Cache)
    ensures var run := UpdateActiveStatus(status, dto, [Fail(f1), Fail(f2), Ok(d)], cache);
      && run.response == Response(true, Some(d), None)
      && SentCount(run.log) == 3
      && Waits(run.log) == [1000, 2000]
  {
    var t := [Fail(f1), Fail(f2), Ok(d)];
    FirstSuccess(AlertStrategy, Verb.Post, StatusRequest(status, dto), StatusConfig(status), t, cache, 3);
    RetrySchedule(AlertStrategy, Known(Verb.Post), StatusRequest(status, dto), StatusConfig(status), t, cache);
    assert LinearBackoff(0, 2) == [1000, 2000];
  }
}
