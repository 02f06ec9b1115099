/** `ApiRequestBuilder` and `ApiClient` of
    week2/refactoring/apis/api-client/api-client.ts: a fluent request
    builder, and a client that sends a mutating request with bounded retry
    and linear backoff, invalidates cache keys on success and reports the
    final failure through its error strategy. */
module Api {
  import opened Js
  import opened Http

  /** `RequestConfig`; an absent field is `None`. */
  datatype RequestConfig = RequestConfig(
    invalidateCache: Option<KeySpec>,
    successMessage: Option<string>,
    errorMessage: Option<string>,
    silent: Option<bool>,
    retries: Option<int>)

  /** `{}` */
  const NoConfig := RequestConfig(None, None, None, None, None)

  /** What `build()` returns. */
  datatype Request = Request(url: string, data: Json, config: RequestConfig)

  class ApiRequestBuilder {
    var url: string
    var data: Json
    var config: RequestConfig

    /** `new ApiRequestBuilder()` / `ApiRequestBuilder.create()`. */
    constructor ()
      ensures url == "" && data == JNull && config == NoConfig
    {
      url, data, config := "", JNull, NoConfig;
    }

    method Endpoint(u: string) returns (b: ApiRequestBuilder)
      modifies this
      ensures b == this
      ensures url == u && data == old(data) && config == old(config)
    {
      url := u;
      b := this;
    }

    method Payload(d: Json) returns (b: ApiRequestBuilder)
      modifies this
      ensures b == this
      ensures data == d && url == old(url) && config == old(config)
    {
      data := d;
      b := this;
    }

    method InvalidateCache(keys: KeySpec) returns (b: ApiRequestBuilder)
      modifies this
      ensures b == this && url == old(url) && data == old(data)
      ensures config == old(config).(invalidateCache := Some(keys))
    {
      config := config.(invalidateCache := Some(keys));
      b := this;
    }

    method SuccessMessage(message: string) returns (b: ApiRequestBuilder)
      modifies this
      ensures b == this && url == old(url) && data == old(data)
      ensures config == old(config).(successMessage := Some(message))
    {
      config := config.(successMessage := Some(message));
      b := this;
    }

    method ErrorMessage(message: string) returns (b: ApiRequestBuilder)
      modifies this
      ensures b == this && url == old(url) && data == old(data)
      ensures config == old(config).(errorMessage := Some(message))
    {
      config := config.(errorMessage := Some(message));
      b := this;
    }

    method Silent() returns (b: ApiRequestBuilder)
      modifies this
      ensures b == this && url == old(url) && data == old(data)
      ensures config == old(config).(silent := Some(true))
    {
      config := config.(silent := Some(true));
      b := this;
    }

    method Retry(count: int) returns (b: ApiRequestBuilder)
      modifies this
      ensures b == this && url == old(url) && data == old(data)
      ensures config == old(config).(retries := Some(count))
    {
      config := config.(retries := Some(count));
      b := this;
    }

    function Build(): Request
      reads this
    {
      Request(url, data, config)
    }
  }

  /** A fresh builder builds the defaults `""`, `null` and `{}`, and every
      setter lands in its own field of the built request. */
  method BuildAll(u: string, d: Json, keys: KeySpec, ok: string, err: string, count: int)
    returns (initial: Request, full: Request)
    ensures initial == Request("", JNull, NoConfig)
    ensures full == Request(u, d, RequestConfig(Some(keys), Some(ok), Some(err), Some(true), Some(count)))
  {
    var b := new ApiRequestBuilder();
    initial := b.Build();
    b := b.Retry(count);
    b := b.Silent();
    b := b.ErrorMessage(err);
    b := b.SuccessMessage(ok);
    b := b.InvalidateCache(keys);
    b := b.Payload(d);
    b := b.Endpoint(u);
    full := b.Build();
  }

  // ----- Error strategies -----

  /** `AlertErrorStrategy`, `ToastErrorStrategy`, `SilentErrorStrategy`. */
  datatype ErrorStrategy = AlertStrategy | ToastStrategy | SilentStrategy

  /** What `strategy.handle(error, config)` reports. */
  function Handle(strategy: ErrorStrategy, config: RequestConfig, f: Failure): (r: seq<Event>)
    ensures |r| == 1 && IsReport(r[0])
    ensures strategy.AlertStrategy? ==> r == [Alerted(ErrorText(config.errorMessage, f))]
    ensures strategy.ToastStrategy? ==> r == [ToastLogged(ErrorText(config.errorMessage, f))]
    ensures strategy.SilentStrategy? ==> r == [ErrorLogged(f)]
  {
    match strategy
    case AlertStrategy => [Alerted(ErrorText(config.errorMessage, f))]
    case ToastStrategy => [ToastLogged(ErrorText(config.errorMessage, f))]
    case SilentStrategy => [ErrorLogged(f)]
  }

  /** `handleError`: the strategy runs unless the config is silent. */
  function ErrorEffects(strategy: ErrorStrategy, config: RequestConfig, f: Failure): seq<Event> {
    if Flag(config.silent) then [] else Handle(strategy, config, f)
  }

  /** `handleSuccess`: invalidate every key, then log the success message
      when there is one and the config is not silent. */
  function SuccessEffects(config: RequestConfig): seq<Event> {
    Invalidations(KeyList(config.invalidateCache))
    + if TruthyText(config.successMessage) && !Flag(config.silent)
      then [SuccessLogged(config.successMessage.value)] else []
  }

  /** `config.retries || 0` (a negative count is truthy and stays). */
  function MaxRetries(config: RequestConfig): int {
    config.retries.GetOr(0)
  }

  /** The error thrown by the `default` branch of the method switch. */
  function UnsupportedFailure(name: string): Failure {
    Failure("Unsupported method: " + name, None)
  }

  /** What attempt `a` gets: the transport's reply for a supported method;
      for any other method the switch throws before a request is made. */
  function ReplyFor(m: MethodName, transport: seq<Reply>, a: nat): Reply {
    match m
    case Known(_) => ReplyAt(transport, a)
    case Unsupported(name) => Fail(UnsupportedFailure(name))
  }

  /** The request one attempt sends. */
  function Issued(m: MethodName, req: Request): seq<Event> {
    match m
    case Known(v) => [SentEvent(v, req.url, req.data)]
    case Unsupported(_) => []
  }

  /** The run of an attempt that ends the call: a success, with its
      invalidations and message, or the last failure, with its report. */
  function Final(strategy: ErrorStrategy, m: MethodName, req: Request, config: RequestConfig,
                 cache: Cache, reply: Reply): Run
  {
    match reply
    case Ok(d) =>
      Run(Response(true, Some(d), None), InvalidateAll(cache, KeyList(config.invalidateCache)),
          Issued(m, req) + SuccessEffects(config))
    case Fail(f) =>
      Run(Response(false, None, Some(f.message)), cache, Issued(m, req) + ErrorEffects(strategy, config, f))
  }

  /** The loop of `executeRequest` from attempt `a` on, one attempt per
      step: the reference the method is proved against. */
  function Attempts(strategy: ErrorStrategy, m: MethodName, req: Request, config: RequestConfig,
                    transport: seq<Reply>, cache: Cache, a: nat): Run
    decreases MaxRetries(config) - a
  {
    if a > MaxRetries(config) then Run(Response(false, None, None), cache, [])
    else
      var reply := ReplyFor(m, transport, a);
      if reply.Ok? || a + 1 > MaxRetries(config) then Final(strategy, m, req, config, cache, reply)
      else After(Issued(m, req) + [Waited(Backoff(a + 1))],
                 Attempts(strategy, m, req, config, transport, cache, a + 1))
  }

  /** One step of `Attempts`. */
  lemma AttemptsStep(strategy: ErrorStrategy, m: MethodName, req: Request, config: RequestConfig,
                     transport: seq<Reply>, cache: Cache, a: nat)
    requires a <= MaxRetries(config)
    ensures var reply := ReplyFor(m, transport, a);
      Attempts(strategy, m, req, config, transport, cache, a)
      == if reply.Ok? || a + 1 > MaxRetries(config) then Final(strategy, m, req, config, cache, reply)
         else After(Issued(m, req) + [Waited(Backoff(a + 1))],
                    Attempts(strategy, m, req, config, transport, cache, a + 1))
  {
  }

  lemma AfterAfter(p: seq<Event>, q: seq<Event>, r: Run)
    ensures After(p, After(q, r)) == After(p + q, r)
  {
    assert p + (q + r.log) == (p + q) + r.log;
  }

  class ApiClient {
    var errorStrategy: ErrorStrategy

    /** `new ApiClient(strategy)`; the factory's `createDefault`,
        `createWithToast`, `createSilent` and `create` pick the strategy. */
    constructor (strategy: ErrorStrategy := AlertStrategy)
      ensures errorStrategy == strategy
    {
      errorStrategy := strategy;
    }

    method SetErrorStrategy(strategy: ErrorStrategy)
      modifies this
      ensures errorStrategy == strategy
    {
      errorStrategy := strategy;
    }

    /** `handleSuccess`: every key of `invalidateCache` is invalidated, in
        order, then the success message is logged unless silent. */
    method HandleSuccess(config: RequestConfig, cache: Cache) returns (c: Cache, events: seq<Event>)
      ensures c == InvalidateAll(cache, KeyList(config.invalidateCache))
      ensures events == SuccessEffects(config)
    {
      var invalidations;
      c, invalidations := InvalidateEach(cache, KeyList(config.invalidateCache));
      events := invalidations;
      if TruthyText(config.successMessage) && !Flag(config.silent) {
        events := events + [SuccessLogged(config.successMessage.value)];
      }
    }

    /** `handleError`: the strategy runs unless the config is silent. */
    method HandleError(config: RequestConfig, f: Failure) returns (events: seq<Event>)
      ensures Flag(config.silent) <==> events == []
      ensures events == ErrorEffects(errorStrategy, config, f)
    {
      events := [];
      if !Flag(config.silent) {
        events := Handle(errorStrategy, config, f);
      }
    }

    /** One attempt: the method switch, then the request it sends and the
        reply it gets. */
    method Send(m: MethodName, request: Request, transport: seq<Reply>, attempt: nat)
      returns (reply: Reply, sent: seq<Event>)
      ensures reply == ReplyFor(m, transport, attempt)
      ensures sent == Issued(m, request)
    {
      match m {
        case Known(verb) =>
          sent := [SentEvent(verb, request.url, request.data)];
          reply := ReplyAt(transport, attempt);
        case Unsupported(name) =>
          sent := [];
          reply := Fail(UnsupportedFailure(name));
      }
    }

    /** `executeRequest`: the retry loop. */
    method ExecuteRequest(m: MethodName, request: Request, config: RequestConfig,
                          transport: seq<Reply>, cache: Cache) returns (run: Run)
      ensures run == Attempts(errorStrategy, m, request, config, transport, cache, 0)
    {
      var maxRetries := config.retries.GetOr(0);
      var attempt: nat := 0;
      var log: seq<Event> := [];
      ghost var whole := Attempts(errorStrategy, m, request, config, transport, cache, 0);
      while attempt <= maxRetries
        invariant attempt == 0 || attempt <= maxRetries
        invariant whole == After(log, Attempts(errorStrategy, m, request, config, transport, cache, attempt))
        decreases maxRetries - attempt
      {
        AttemptsStep(errorStrategy, m, request, config, transport, cache, attempt);
        ghost var rest := Attempts(errorStrategy, m, request, config, transport, cache, attempt);
        var reply, sent := Send(m, request, transport, attempt);
        if reply.Ok? {
          var c, events := HandleSuccess(config, cache);
          assert rest == Run(Response(true, Some(reply.data), None), c, sent + events);
          return Run(Response(true, Some(reply.data), None), c, log + (sent + events));
        }
        attempt := attempt + 1;
        if attempt > maxRetries {
          var events := HandleError(config, reply.failure);
          assert rest == Run(Response(false, None, Some(reply.failure.message)), cache, sent + events);
          return Run(Response(false, None, Some(reply.failure.message)), cache, log + (sent + events));
        }
        AfterAfter(log, sent + [Waited(1000 * attempt)],
                   Attempts(errorStrategy, m, request, config, transport, cache, attempt));
        log := log + (sent + [Waited(1000 * attempt)]);
      }
      run := Run(Response(false, None, None), cache, log);
    }

    /** `post(url, data, config)`. */
    method Post(url: string, data: Json, config: RequestConfig, transport: seq<Reply>, cache: Cache)
      returns (run: Run)
      ensures run == Attempts(errorStrategy, Known(Verb.Post), Request(url, data, NoConfig), config, transport, cache, 0)
    {
      var b := new ApiRequestBuilder();
      b := b.Endpoint(url);
      b := b.Payload(data);
      run := ExecuteRequest(Known(Verb.Post), b.Build(), config, transport, cache);
    }

    /** `put(url, data, config)`. */
    method Put(url: string, data: Json, config: RequestConfig, transport: seq<Reply>, cache: Cache)
      returns (run: Run)
      ensures run == Attempts(errorStrategy, Known(Verb.Put), Request(url, data, NoConfig), config, transport, cache, 0)
    {
      var b := new ApiRequestBuilder();
      b := b.Endpoint(url);
      b := b.Payload(data);
      run := ExecuteRequest(Known(Verb.Put), b.Build(), config, transport, cache);
    }

    /** `delete(url, config)`: the builder keeps its default payload. */
    method Delete(url: string, config: RequestConfig, transport: seq<Reply>, cache: Cache)
      returns (run: Run)
      ensures run == Attempts(errorStrategy, Known(Verb.Delete), Request(url, JNull, NoConfig), config, transport, cache, 0)
    {
      var b := new ApiRequestBuilder();
      b := b.Endpoint(url);
      run := ExecuteRequest(Known(Verb.Delete), b.Build(), config, transport, cache);
    }

    /** `patch(url, data, config)`. */
    method Patch(url: string, data: Json, config: RequestConfig, transport: seq<Reply>, cache: Cache)
      returns (run: Run)
      ensures run == Attempts(errorStrategy, Known(Verb.Patch), Request(url, data, NoConfig), config, transport, cache, 0)
    {
      var b := new ApiRequestBuilder();
      b := b.Endpoint(url);
      b := b.Payload(data);
      run := ExecuteRequest(Known(Verb.Patch), b.Build(), config, transport, cache);
    }

    /** `execute(builder, method)`: the builder's own config drives the run. */
    method Execute(builder: ApiRequestBuilder, verb: Verb, transport: seq<Reply>, cache: Cache)
      returns (run: Run)
      ensures run == Attempts(errorStrategy, Known(verb), builder.Build(), builder.config, transport, cache, 0)
    {
      var request := builder.Build();
      run := ExecuteRequest(Known(verb), request, request.config, transport, cache);
    }
  }

  // ----- What the retry loop does, in closed form -----

  /** The first attempt in `a .. n-1` whose reply is a success, or `n`. */
  function FirstOk(m: MethodName, transport: seq<Reply>, a: nat, n: nat): (k: nat)
    requires a <= n
    ensures a <= k <= n
    ensures forall i :: a <= i < k ==> ReplyFor(m, transport, i).Fail?
    ensures k < n ==> ReplyFor(m, transport, k).Ok?
    decreases n - a
  {
    if a == n then n
    else if ReplyFor(m, transport, a).Ok? then a
    else FirstOk(m, transport, a + 1, n)
  }

  /** The attempt that ends a call started at attempt `a`: the first
      success, or the last allowed attempt. */
  function LastAttempt(m: MethodName, config: RequestConfig, transport: seq<Reply>, a: nat): (l: nat)
    requires a <= MaxRetries(config)
    ensures a <= l <= MaxRetries(config)
    ensures forall i :: a <= i < l ==> ReplyFor(m, transport, i).Fail?
    ensures l < MaxRetries(config) ==> ReplyFor(m, transport, l).Ok?
  {
    var k := FirstOk(m, transport, a, MaxRetries(config) + 1);
    if k <= MaxRetries(config) then k else MaxRetries(config)
  }

  /** How many attempts a call makes: up to the first success, at most
      `maxRetries + 1`, none when `maxRetries` is negative. */
  function AttemptsMade(m: MethodName, config: RequestConfig, transport: seq<Reply>): (r: nat)
    ensures MaxRetries(config) < 0 ==> r == 0
    ensures MaxRetries(config) >= 0 ==> 1 <= r <= MaxRetries(config) + 1
  {
    if MaxRetries(config) < 0 then 0 else LastAttempt(m, config, transport, 0) + 1
  }

  /** The attempt that ends a call is the first success or the last one. */
  lemma LastAttemptStep(m: MethodName, config: RequestConfig, transport: seq<Reply>, a: nat)
    requires a <= MaxRetries(config)
    ensures ReplyFor(m, transport, a).Ok? || a == MaxRetries(config) ==> LastAttempt(m, config, transport, a) == a
    ensures ReplyFor(m, transport, a).Fail? && a < MaxRetries(config)
            ==> LastAttempt(m, config, transport, a) == LastAttempt(m, config, transport, a + 1)
  {
  }

  /** An attempt that is retried: its request and its backoff come first. */
  lemma AttemptsRetried(strategy: ErrorStrategy, m: MethodName, req: Request, config: RequestConfig,
                        transport: seq<Reply>, cache: Cache, a: nat, l: nat, fin: Run)
    requires a < l <= MaxRetries(config) && ReplyFor(m, transport, a).Fail?
    requires Attempts(strategy, m, req, config, transport, cache, a + 1) == After(Tries(Issued(m, req), a + 1, l), fin)
    ensures Attempts(strategy, m, req, config, transport, cache, a) == After(Tries(Issued(m, req), a, l), fin)
  {
    var each := Issued(m, req);
    var w := [Waited(Backoff(a + 1))];
    AttemptsStep(strategy, m, req, config, transport, cache, a);
    AfterAfter(each + w, Tries(each, a + 1, l), fin);
    assert Tries(each, a, l) == each + w + Tries(each, a + 1, l);
  }

  /** From attempt `a` on, a call is its failed attempts up to the one that
      ends it (each followed by its backoff), then that attempt. */
  lemma {:induction false} AttemptsFrom(strategy: ErrorStrategy, m: MethodName, req: Request, config: RequestConfig,
                                        transport: seq<Reply>, cache: Cache, a: nat)
    requires a <= MaxRetries(config)
    ensures var l := LastAttempt(m, config, transport, a);
      Attempts(strategy, m, req, config, transport, cache, a)
      == After(Tries(Issued(m, req), a, l), Final(strategy, m, req, config, cache, ReplyFor(m, transport, l)))
    decreases MaxRetries(config) - a
  {
    LastAttemptStep(m, config, transport, a);
    var l := LastAttempt(m, config, transport, a);
    if ReplyFor(m, transport, a).Ok? || a == MaxRetries(config) {
      AttemptsStep(strategy, m, req, config, transport, cache, a);
      assert Tries(Issued(m, req), a, a) == [];
    } else {
      AttemptsFrom(strategy, m, req, config, transport, cache, a + 1);
      AttemptsRetried(strategy, m, req, config, transport, cache, a, l,
                      Final(strategy, m, req, config, cache, ReplyFor(m, transport, l)));
    }
  }

  /** The whole call, in closed form. */
  lemma Execution(strategy: ErrorStrategy, m: MethodName, req: Request, config: RequestConfig,
                  transport: seq<Reply>, cache: Cache)
    requires MaxRetries(config) >= 0
    ensures var l := LastAttempt(m, config, transport, 0);
      Attempts(strategy, m, req, config, transport, cache, 0)
      == After(Tries(Issued(m, req), 0, l), Final(strategy, m, req, config, cache, ReplyFor(m, transport, l)))
  {
    AttemptsFrom(strategy, m, req, config, transport, cache, 0);
  }

  lemma SuccessEffectsProjections(config: RequestConfig)
    ensures Waits(SuccessEffects(config)) == [] && SentCount(SuccessEffects(config)) == 0
    ensures InvalidatedKeys(SuccessEffects(config)) == KeyList(config.invalidateCache)
    ensures Reports(SuccessEffects(config))
         == if TruthyText(config.successMessage) && !Flag(config.silent)
            then [SuccessLogged(config.successMessage.value)] else []
  {
    var inv := Invalidations(KeyList(config.invalidateCache));
    var tail := if TruthyText(config.successMessage) && !Flag(config.silent)
                then [SuccessLogged(config.successMessage.value)] else [];
    InvalidationsProjections(KeyList(config.invalidateCache));
    ProjectionsAppend(inv, tail);
    assert Reports(tail) == tail by {
      if tail != [] { assert tail[1..] == []; }
    }
  }

  lemma ErrorEffectsProjections(strategy: ErrorStrategy, config: RequestConfig, f: Failure)
    ensures Waits(ErrorEffects(strategy, config, f)) == [] && SentCount(ErrorEffects(strategy, config, f)) == 0
    ensures InvalidatedKeys(ErrorEffects(strategy, config, f)) == []
    ensures Reports(ErrorEffects(strategy, config, f)) == ErrorEffects(strategy, config, f)
  {
    var e := ErrorEffects(strategy, config, f);
    if e != [] { assert e[1..] == []; }
  }

  lemma IssuedProjections(m: MethodName, req: Request)
    ensures Waits(Issued(m, req)) == [] && Reports(Issued(m, req)) == []
    ensures InvalidatedKeys(Issued(m, req)) == []
    ensures SentCount(Issued(m, req)) == if m.Known? then 1 else 0
  {
    var e := Issued(m, req);
    if e != [] { assert e[1..] == []; }
  }

  /** The events of the attempt that ends a call, projected. */
  lemma FinalProjections(strategy: ErrorStrategy, m: MethodName, req: Request, config: RequestConfig,
                         cache: Cache, reply: Reply)
    ensures var log := Final(strategy, m, req, config, cache, reply).log;
      && Waits(log) == []
      && SentCount(log) == (if m.Known? then 1 else 0)
      && InvalidatedKeys(log) == (if reply.Ok? then KeyList(config.invalidateCache) else [])
      && Reports(log) == match reply
                         case Ok(_) =>
                           if TruthyText(config.successMessage) && !Flag(config.silent)
                           then [SuccessLogged(config.successMessage.value)] else []
                         case Fail(f) => ErrorEffects(strategy, config, f)
  {
    IssuedProjections(m, req);
    match reply
    case Ok(_) =>
      SuccessEffectsProjections(config);
      ProjectionsAppend(Issued(m, req), SuccessEffects(config));
    case Fail(f) =>
      ErrorEffectsProjections(strategy, config, f);
      ProjectionsAppend(Issued(m, req), ErrorEffects(strategy, config, f));
  }

  /** The log of a call, split at the attempt that ends it. */
  lemma LogProjections(strategy: ErrorStrategy, m: MethodName, req: Request, config: RequestConfig,
                       transport: seq<Reply>, cache: Cache)
    requires MaxRetries(config) >= 0
    ensures var l := LastAttempt(m, config, transport, 0);
      var log := Attempts(strategy, m, req, config, transport, cache, 0).log;
      var last := Final(strategy, m, req, config, cache, ReplyFor(m, transport, l)).log;
      && Waits(log) == LinearBackoff(0, l)
      && SentCount(log) == l * SentCount(Issued(m, req)) + SentCount(last)
      && Reports(log) == Reports(last)
      && InvalidatedKeys(log) == InvalidatedKeys(last)
  {
    var l := LastAttempt(m, config, transport, 0);
    var each := Issued(m, req);
    var last := Final(strategy, m, req, config, cache, ReplyFor(m, transport, l)).log;
    Execution(strategy, m, req, config, transport, cache);
    IssuedProjections(m, req);
    FinalProjections(strategy, m, req, config, cache, ReplyFor(m, transport, l));
    TriesWaits(each, 0, l);
    TriesSentCount(each, 0, l);
    TriesQuiet(each, 0, l);
    ProjectionsAppend(Tries(each, 0, l), last);
  }

  /** Requests and delays: a supported method sends one request per
      attempt, and the delay before attempt `i + 1` is `1000 * i` ms, so
      the delays are 1000, 2000, … with none after the last attempt. */
  lemma RetrySchedule(strategy: ErrorStrategy, m: MethodName, req: Request, config: RequestConfig,
                      transport: seq<Reply>, cache: Cache)
    ensures var run := Attempts(strategy, m, req, config, transport, cache, 0);
      var made := AttemptsMade(m, config, transport);
      && SentCount(run.log) == (if m.Known? then made else 0)
      && Waits(run.log) == LinearBackoff(0, if made == 0 then 0 else made - 1)
  {
    if MaxRetries(config) >= 0 {
      var l := LastAttempt(m, config, transport, 0);
      LogProjections(strategy, m, req, config, transport, cache);
      IssuedProjections(m, req);
      FinalProjections(strategy, m, req, config, cache, ReplyFor(m, transport, l));
    }
  }

  /** A negative `retries` skips the loop: no attempt, no delay, no
      report, the cache untouched, and `{ success: false }` with no error. */
  lemma NegativeRetries(strategy: ErrorStrategy, m: MethodName, req: Request, config: RequestConfig,
                        transport: seq<Reply>, cache: Cache)
    requires MaxRetries(config) < 0
    ensures Attempts(strategy, m, req, config, transport, cache, 0) == Run(Response(false, None, None), cache, [])
  {
  }

  /** A call succeeds exactly when some attempt within `maxRetries + 1`
      gets a success; it then returns that reply's data and invalidates
      the keys, and otherwise returns the last failure's message and
      leaves the cache alone. */
  lemma Outcome(strategy: ErrorStrategy, m: MethodName, req: Request, config: RequestConfig,
                transport: seq<Reply>, cache: Cache)
    requires MaxRetries(config) >= 0
    ensures var run := Attempts(strategy, m, req, config, transport, cache, 0);
      var l := LastAttempt(m, config, transport, 0);
      && (run.response.success <==> exists i :: 0 <= i <= MaxRetries(config) && ReplyFor(m, transport, i).Ok?)
      && (run.response.success ==>
            && run.response == Response(true, Some(ReplyFor(m, transport, l).data), None)
            && run.cache == InvalidateAll(cache, KeyList(config.invalidateCache)))
      && (!run.response.success ==>
            && l == MaxRetries(config)
            && run.response == Response(false, None, Some(ReplyFor(m, transport, l).failure.message))
            && run.cache == cache)
  {
    Execution(strategy, m, req, config, transport, cache);
  }

  /** Against a transport that only fails, a call makes `maxRetries + 1`
      attempts and returns the last failure's message. */
  lemma AlwaysFailing(strategy: ErrorStrategy, m: MethodName, req: Request, config: RequestConfig,
                      transport: seq<Reply>, cache: Cache)
    requires MaxRetries(config) >= 0
    requires forall i :: 0 <= i < |transport| ==> transport[i].Fail?
    ensures var run := Attempts(strategy, m, req, config, transport, cache, 0);
      && AttemptsMade(m, config, transport) == MaxRetries(config) + 1
      && SentCount(run.log) == (if m.Known? then MaxRetries(config) + 1 else 0)
      && run.response == Response(false, None, Some(ReplyFor(m, transport, MaxRetries(config)).failure.message))
      && run.cache == cache
  {
    Outcome(strategy, m, req, config, transport, cache);
    RetrySchedule(strategy, m, req, config, transport, cache);
  }

  /** When the first success comes on attempt `k <= maxRetries + 1`, a
      call makes exactly `k` attempts and returns `{ success: true, data }`. */
  lemma FirstSuccess(strategy: ErrorStrategy, verb: Verb, req: Request, config: RequestConfig,
                     transport: seq<Reply>, cache: Cache, k: nat)
    requires 1 <= k <= MaxRetries(config) + 1 && k <= |transport|
    requires transport[k - 1].Ok?
    requires forall i :: 0 <= i < k - 1 ==> transport[i].Fail?
    ensures var run := Attempts(strategy, Known(verb), req, config, transport, cache, 0);
      && AttemptsMade(Known(verb), config, transport) == k
      && SentCount(run.log) == k
      && run.response == Response(true, Some(transport[k - 1].data), None)
      && run.cache == InvalidateAll(cache, KeyList(config.invalidateCache))
  {
    var m := Known(verb);
    var l := LastAttempt(m, config, transport, 0);
    assert ReplyFor(m, transport, k - 1).Ok?;
    assert l == k - 1;
    Outcome(strategy, m, req, config, transport, cache);
    RetrySchedule(strategy, m, req, config, transport, cache);
  }

  /** Cache keys change only on success, once per listed key, in order; a
      failed call invalidates nothing. */
  lemma CacheOnlyOnSuccess(strategy: ErrorStrategy, m: MethodName, req: Request, config: RequestConfig,
                           transport: seq<Reply>, cache: Cache)
    ensures var run := Attempts(strategy, m, req, config, transport, cache, 0);
      && run.cache == (if run.response.success then InvalidateAll(cache, KeyList(config.invalidateCache)) else cache)
      && InvalidatedKeys(run.log) == (if run.response.success then KeyList(config.invalidateCache) else [])
  {
    if MaxRetries(config) >= 0 {
      var l := LastAttempt(m, config, transport, 0);
      Outcome(strategy, m, req, config, transport, cache);
      LogProjections(strategy, m, req, config, transport, cache);
      FinalProjections(strategy, m, req, config, cache, ReplyFor(m, transport, l));
    }
  }

  /** What the user is told: on success the success message (when given and
      not silent); on the final failure the error strategy's report unless
      silent, with `errorMessage`, else the body's `message`, else the
      default; nothing for a call that never ran. */
  lemma Reporting(strategy: ErrorStrategy, m: MethodName, req: Request, config: RequestConfig,
                  transport: seq<Reply>, cache: Cache)
    ensures var run := Attempts(strategy, m, req, config, transport, cache, 0);
      && (run.response.success ==>
            Reports(run.log) == if TruthyText(config.successMessage) && !Flag(config.silent)
                                then [SuccessLogged(config.successMessage.value)] else [])
      && (!run.response.success && MaxRetries(config) >= 0 ==>
            && ReplyFor(m, transport, MaxRetries(config)).Fail?
            && Reports(run.log) == ErrorEffects(strategy, config, ReplyFor(m, transport, MaxRetries(config)).failure))
      && (MaxRetries(config) < 0 ==> Reports(run.log) == [])
      && (Flag(config.silent) ==> Reports(run.log) == [])
  {
    if MaxRetries(config) >= 0 {
      var l := LastAttempt(m, config, transport, 0);
      Outcome(strategy, m, req, config, transport, cache);
      LogProjections(strategy, m, req, config, transport, cache);
      FinalProjections(strategy, m, req, config, cache, ReplyFor(m, transport, l));
    }
  }

  /** Every request of a call is the same one; DELETE carries no payload. */
  lemma RequestsSent(strategy: ErrorStrategy, verb: Verb, req: Request, config: RequestConfig,
                     transport: seq<Reply>, cache: Cache, e: Event)
    requires e in Attempts(strategy, Known(verb), req, config, transport, cache, 0).log && e.Sent?
    ensures e == SentEvent(verb, req.url, req.data)
    ensures verb == Delete ==> e.payload == None
  {
    var m := Known(verb);
    if MaxRetries(config) >= 0 {
      Execution(strategy, m, req, config, transport, cache);
      var l := LastAttempt(m, config, transport, 0);
      var each := Issued(m, req);
      var reply := ReplyFor(m, transport, l);
      var tail := if reply.Ok? then SuccessEffects(config) else ErrorEffects(strategy, config, reply.failure);
      assert Final(strategy, m, req, config, cache, reply).log == each + tail;
      if e in Tries(each, 0, l) {
        TriesEvents(each, 0, l, e);
      }
    }
  }

  /** An unsupported method never reaches the transport, yet each attempt
      fails and is retried like a transport failure. */
  lemma UnsupportedMethod(strategy: ErrorStrategy, name: string, req: Request, config: RequestConfig,
                          transport: seq<Reply>, cache: Cache)
    requires MaxRetries(config) >= 0
    ensures var run := Attempts(strategy, Unsupported(name), req, config, transport, cache, 0);
      && SentCount(run.log) == 0
      && Waits(run.log) == LinearBackoff(0, MaxRetries(config))
      && run.response == Response(false, None, Some("Unsupported method: " + name))
      && Reports(run.log) == ErrorEffects(strategy, config, UnsupportedFailure(name))
      && run.cache == cache
  {
    var m := Unsupported(name);
    assert ReplyFor(m, transport, LastAttempt(m, config, transport, 0)).Fail?;
    Outcome(strategy, m, req, config, transport, cache);
    RetrySchedule(strategy, m, req, config, transport, cache);
    Reporting(strategy, m, req, config, transport, cache);
  }
}
