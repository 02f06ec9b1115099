/** `UnifiedDataClient` and `useDataClient` of
    week2/refactoring/apis/api-client/unified-client.ts: SWR query options
    chosen by strategy, and mutations with retry, optimistic local writes
    and rollback by revalidation. */
module Unified {
  import opened Js
  import opened Http
  import opened Swr

  // ----- useQuery -----

  datatype QueryStrategy = CacheFirst | NetworkOnly | Realtime

  /** `QueryOptions`: SWR's own options plus `strategy` and `ttl`. */
  datatype QueryOptions = QueryOptions(swr: SwrConfig, strategy: Option<QueryStrategy>, ttl: Option<int>)

  /** The configuration `useQuery` hands to `useSWR`: focus and reconnect
      revalidation on and a deduping interval of `ttl || 300000`, overridden
      by the caller's options, then forced by the strategy. */
  function QueryConfig(options: Option<QueryOptions>): (r: SwrConfig)
    ensures options.None? ==> r == Empty.(revalidateOnFocus := Some(true), revalidateOnReconnect := Some(true),
                                           dedupingInterval := Some(300000))
    // network-only always revalidates and never dedupes
    ensures options.Some? && options.value.strategy == Some(NetworkOnly) ==>
              r.dedupingInterval == Some(0) && r.revalidateIfStale == Some(true)
    // realtime always polls every 5 s and revalidates on focus
    ensures options.Some? && options.value.strategy == Some(Realtime) ==>
              r.refreshInterval == Some(5000) && r.revalidateOnFocus == Some(true)
    // with any other strategy the caller's field wins, else the default
    ensures options.Some? && options.value.strategy != Some(NetworkOnly) ==>
              r.dedupingInterval == Some(options.value.swr.dedupingInterval.GetOr(
                                          if options.value.ttl.Some? && options.value.ttl.value != 0
                                          then options.value.ttl.value else 300000))
    ensures options.Some? && options.value.strategy != Some(Realtime) ==>
              && r.revalidateOnFocus == Some(options.value.swr.revalidateOnFocus.GetOr(true))
              && r.refreshInterval == options.value.swr.refreshInterval
    ensures options.Some? && options.value.strategy != Some(NetworkOnly) ==>
              r.revalidateIfStale == options.value.swr.revalidateIfStale
    ensures r.revalidateOnReconnect == Some(if options.Some? then options.value.swr.revalidateOnReconnect.GetOr(true) else true)
    ensures r.errorRetryCount == if options.Some? then options.value.swr.errorRetryCount else None
  {
    var ttl := if options.Some? && options.value.ttl.Some? && options.value.ttl.value != 0
               then options.value.ttl.value else 300000;
    var defaults := Empty.(revalidateOnFocus := Some(true), revalidateOnReconnect := Some(true),
                           dedupingInterval := Some(ttl));
    var config := if options.Some? then Spread(defaults, options.value.swr) else defaults;
    var strategy := if options.Some? then options.value.strategy else None;
    if strategy == Some(NetworkOnly) then config.(revalidateIfStale := Some(true), dedupingInterval := Some(0))
    else if strategy == Some(Realtime) then config.(refreshInterval := Some(5000), revalidateOnFocus := Some(true))
    else config
  }

  // ----- mutate -----

  /** `MutationOptions`; an absent field is `None`. */
  datatype MutationOptions = MutationOptions(
    invalidateQueries: Option<KeySpec>,
    successMessage: Option<string>,
    errorMessage: Option<string>,
    silent: Option<bool>,
    retries: Option<int>,
    optimisticUpdate: Option<Json>)

  const NoOptions := MutationOptions(None, None, None, None, None, None)

  /** `options.retries || 0` */
  function MaxRetries(o: MutationOptions): int {
    o.retries.GetOr(0)
  }

  /** `options.optimisticUpdate && options.invalidateQueries` */
  predicate Optimistic(o: MutationOptions) {
    Truthy(OrUndefined(o.optimisticUpdate)) && KeysGiven(o.invalidateQueries)
  }

  function Keys(o: MutationOptions): seq<string> {
    KeyList(o.invalidateQueries)
  }

  /** What one attempt does before the call returns: the optimistic local
      writes, then the request. */
  function AttemptEvents(verb: Verb, url: string, data: Json, o: MutationOptions): seq<Event> {
    (if Optimistic(o) then LocalWrites(Keys(o), o.optimisticUpdate.value) else [])
    + [SentEvent(verb, url, data)]
  }

  /** The cache after one attempt's optimistic writes. */
  function Tentative(o: MutationOptions, cache: Cache): Cache {
    if Optimistic(o) then WriteAll(cache, Keys(o), o.optimisticUpdate.value) else cache
  }

  /** Writing the optimistic value again changes nothing. */
  lemma TentativeIdempotent(o: MutationOptions, cache: Cache)
    ensures Tentative(o, Tentative(o, cache)) == Tentative(o, cache)
  {
    if Optimistic(o) {
      WriteAllIdempotent(cache, Keys(o), o.optimisticUpdate.value);
    }
  }

  /** After a success: every key revalidated, then the success log. */
  function SuccessEnd(o: MutationOptions): seq<Event> {
    Invalidations(Keys(o))
    + if TruthyText(o.successMessage) && !Flag(o.silent) then [SuccessLogged(o.successMessage.value)] else []
  }

  /** After the last failure: the rollback (revalidation of every key that
      was written optimistically), then the alert unless silent. */
  function FailureEnd(o: MutationOptions, f: Failure): seq<Event> {
    (if Optimistic(o) then Invalidations(Keys(o)) else [])
    + if Flag(o.silent) then [] else [Alerted(ErrorText(o.errorMessage, f))]
  }

  /** The run of the attempt that ends the call, from the cache its
      optimistic writes left. */
  function Settle(verb: Verb, url: string, data: Json, o: MutationOptions, c: Cache, reply: Reply): Run {
    match reply
    case Ok(d) =>
      Run(Response(true, Some(d), None), InvalidateAll(c, Keys(o)), AttemptEvents(verb, url, data, o) + SuccessEnd(o))
    case Fail(f) =>
      Run(Response(false, None, Some(f.message)),
          if Optimistic(o) then InvalidateAll(c, Keys(o)) else c,
          AttemptEvents(verb, url, data, o) + FailureEnd(o, f))
  }

  /** The loop of `mutate` from attempt `a` on: the reference the method
      is proved against. */
  function MutateFrom(verb: Verb, url: string, data: Json, o: MutationOptions,
                      transport: seq<Reply>, cache: Cache, a: nat): Run
    decreases MaxRetries(o) - a
  {
    if a > MaxRetries(o) then Run(Response(false, None, None), cache, [])
    else
      var c := Tentative(o, cache);
      var reply := ReplyAt(transport, a);
      if reply.Ok? || a + 1 > MaxRetries(o) then Settle(verb, url, data, o, c, reply)
      else After(AttemptEvents(verb, url, data, o) + [Waited(Backoff(a + 1))],
                 MutateFrom(verb, url, data, o, transport, c, a + 1))
  }

  lemma MutateStep(verb: Verb, url: string, data: Json, o: MutationOptions,
                   transport: seq<Reply>, cache: Cache, a: nat)
    requires a <= MaxRetries(o)
    ensures var reply := ReplyAt(transport, a);
      MutateFrom(verb, url, data, o, transport, cache, a)
      == if reply.Ok? || a + 1 > MaxRetries(o) then Settle(verb, url, data, o, Tentative(o, cache), reply)
         else After(AttemptEvents(verb, url, data, o) + [Waited(Backoff(a + 1))],
                    MutateFrom(verb, url, data, o, transport, Tentative(o, cache), a + 1))
  {
  }

  lemma AfterAfter(p: seq<Event>, q: seq<Event>, r: Run)
    ensures After(p, After(q, r)) == After(p + q, r)
  {
    assert p + (q + r.log) == (p + q) + r.log;
  }

  /** `queries.forEach((query) => mutate(query, optimisticUpdate, false))`
      when the update is optimistic. */
  method WriteOptimistic(o: MutationOptions, cache: Cache) returns (c: Cache, events: seq<Event>)
    ensures c == Tentative(o, cache)
    ensures events == if Optimistic(o) then LocalWrites(Keys(o), o.optimisticUpdate.value) else []
  {
    c, events := cache, [];
    if Optimistic(o) {
      c, events := WriteEach(cache, Keys(o), o.optimisticUpdate.value);
    }
  }

  /** The success path: every key revalidated, then the success log
      unless silent. */
  method Revalidate(o: MutationOptions, cache: Cache) returns (c: Cache, events: seq<Event>)
    ensures c == InvalidateAll(cache, Keys(o))
    ensures events == SuccessEnd(o)
  {
    c, events := InvalidateEach(cache, Keys(o));
    if TruthyText(o.successMessage) && !Flag(o.silent) {
      events := events + [SuccessLogged(o.successMessage.value)];
    }
  }

  /** The final-failure path: the optimistic value rolled back by
      revalidating every key, then the alert unless silent. */
  method Rollback(o: MutationOptions, cache: Cache, f: Failure) returns (c: Cache, events: seq<Event>)
    ensures c == if Optimistic(o) then InvalidateAll(cache, Keys(o)) else cache
    ensures events == FailureEnd(o, f)
  {
    c, events := cache, [];
    if Optimistic(o) {
      c, events := InvalidateEach(cache, Keys(o));
    }
    if !Flag(o.silent) {
      events := events + [Alerted(ErrorText(o.errorMessage, f))];
    }
  }

  /** `mutate(method, url, data, options)`. */
  method Mutate(verb: Verb, url: string, data: Json, o: MutationOptions,
                transport: seq<Reply>, cache: Cache) returns (run: Run)
    ensures run == MutateFrom(verb, url, data, o, transport, cache, 0)
  {
    var maxRetries := o.retries.GetOr(0);
    var attempt: nat := 0;
    var log: seq<Event> := [];
    var c := cache;
    ghost var whole := MutateFrom(verb, url, data, o, transport, cache, 0);
    while attempt <= maxRetries
      invariant attempt == 0 || attempt <= maxRetries
      invariant whole == After(log, MutateFrom(verb, url, data, o, transport, c, attempt))
      decreases maxRetries - attempt
    {
      MutateStep(verb, url, data, o, transport, c, attempt);
      ghost var rest := MutateFrom(verb, url, data, o, transport, c, attempt);
      var c1, writes := WriteOptimistic(o, c);
      var sent := writes + [SentEvent(verb, url, data)];
      var reply := ReplyAt(transport, attempt);
      if reply.Ok? {
        var c2, events := Revalidate(o, c1);
        assert rest == Run(Response(true, Some(reply.data), None), c2, sent + events);
        return Run(Response(true, Some(reply.data), None), c2, log + (sent + events));
      }
      attempt := attempt + 1;
      if attempt > maxRetries {
        var c2, events := Rollback(o, c1, reply.failure);
        assert rest == Run(Response(false, None, Some(reply.failure.message)), c2, sent + events);
        return Run(Response(false, None, Some(reply.failure.message)), c2, log + (sent + events));
      }
      AfterAfter(log, sent + [Waited(1000 * attempt)],
                 MutateFrom(verb, url, data, o, transport, c1, attempt));
      log := log + (sent + [Waited(1000 * attempt)]);
      c := c1;
    }
    run := Run(Response(false, None, None), c, log);
  }

  /** `post(url, data, options)` */
  method Post(url: string, data: Json, o: MutationOptions, transport: seq<Reply>, cache: Cache) returns (run: Run)
    ensures run == MutateFrom(Verb.Post, url, data, o, transport, cache, 0)
  {
    run := Mutate(Verb.Post, url, data, o, transport, cache);
  }

  /** `put(url, data, options)` */
  method Put(url: string, data: Json, o: MutationOptions, transport: seq<Reply>, cache: Cache) returns (run: Run)
    ensures run == MutateFrom(Verb.Put, url, data, o, transport, cache, 0)
  {
    run := Mutate(Verb.Put, url, data, o, transport, cache);
  }

  /** `delete(url, options)`: the payload is `undefined`. */
  method Delete(url: string, o: MutationOptions, transport: seq<Reply>, cache: Cache) returns (run: Run)
    ensures run == MutateFrom(Verb.Delete, url, JUndefined, o, transport, cache, 0)
  {
    run := Mutate(Verb.Delete, url, JUndefined, o, transport, cache);
  }

  /** `patch(url, data, options)` */
  method Patch(url: string, data: Json, o: MutationOptions, transport: seq<Reply>, cache: Cache) returns (run: Run)
    ensures run == MutateFrom(Verb.Patch, url, data, o, transport, cache, 0)
  {
    run := Mutate(Verb.Patch, url, data, o, transport, cache);
  }

  // ----- What mutate does, in closed form -----

  /** The attempt that ends a call started at attempt `a`. */
  function LastAttempt(o: MutationOptions, transport: seq<Reply>, a: nat): (l: nat)
    requires a <= MaxRetries(o)
    ensures a <= l <= MaxRetries(o)
    ensures forall i :: a <= i < l ==> ReplyAt(transport, i).Fail?
    ensures l < MaxRetries(o) ==> ReplyAt(transport, l).Ok?
    decreases MaxRetries(o) - a
  {
    if a == MaxRetries(o) || ReplyAt(transport, a).Ok? then a else LastAttempt(o, transport, a + 1)
  }

  /** The failure that ends a call that never succeeded. */
  function LastFailure(o: MutationOptions, transport: seq<Reply>): Failure
    requires MaxRetries(o) >= 0
  {
    var r := ReplyAt(transport, LastAttempt(o, transport, 0));
    if r.Fail? then r.failure else NetworkError
  }

  /** How many attempts a call makes. */
  function AttemptsMade(o: MutationOptions, transport: seq<Reply>): (r: nat)
    ensures MaxRetries(o) < 0 ==> r == 0
    ensures MaxRetries(o) >= 0 ==> 1 <= r <= MaxRetries(o) + 1
  {
    if MaxRetries(o) < 0 then 0 else LastAttempt(o, transport, 0) + 1
  }

  lemma {:induction false} MutateFromClosed(verb: Verb, url: string, data: Json, o: MutationOptions,
                                            transport: seq<Reply>, cache: Cache, a: nat)
    requires a <= MaxRetries(o)
    ensures var l := LastAttempt(o, transport, a);
      MutateFrom(verb, url, data, o, transport, cache, a)
      == After(Tries(AttemptEvents(verb, url, data, o), a, l),
               Settle(verb, url, data, o, Tentative(o, cache), ReplyAt(transport, l)))
    decreases MaxRetries(o) - a
  {
    var each := AttemptEvents(verb, url, data, o);
    var l := LastAttempt(o, transport, a);
    var reply := ReplyAt(transport, a);
    var c := Tentative(o, cache);
    MutateStep(verb, url, data, o, transport, cache, a);
    if reply.Ok? || a + 1 > MaxRetries(o) {
      assert l == a;
      assert Tries(each, a, a) == [];
      var s := Settle(verb, url, data, o, c, reply);
      assert After([], s) == s by { assert [] + s.log == s.log; }
    } else {
      var w := [Waited(Backoff(a + 1))];
      MutateFromClosed(verb, url, data, o, transport, c, a + 1);
      TentativeIdempotent(o, cache);
      assert l == LastAttempt(o, transport, a + 1);
      var s := Settle(verb, url, data, o, Tentative(o, c), ReplyAt(transport, l));
      assert Tries(each, a, l) == each + w + Tries(each, a + 1, l);
      AfterAfter(each + w, Tries(each, a + 1, l), s);
    }
  }

  /** The whole call, in closed form: the optimistic cache is written once
      whatever the number of attempts. */
  lemma MutateClosed(verb: Verb, url: string, data: Json, o: MutationOptions, transport: seq<Reply>, cache: Cache)
    requires MaxRetries(o) >= 0
    ensures var l := LastAttempt(o, transport, 0);
      MutateFrom(verb, url, data, o, transport, cache, 0)
      == After(Tries(AttemptEvents(verb, url, data, o), 0, l),
               Settle(verb, url, data, o, Tentative(o, cache), ReplyAt(transport, l)))
  {
    MutateFromClosed(verb, url, data, o, transport, cache, 0);
  }

  lemma AttemptEventsProjections(verb: Verb, url: string, data: Json, o: MutationOptions)
    ensures var e := AttemptEvents(verb, url, data, o);
      && Waits(e) == [] && Reports(e) == [] && InvalidatedKeys(e) == [] && SentCount(e) == 1
      && WrittenKeys(e) == if Optimistic(o) then Keys(o) else []
  {
    var w := if Optimistic(o) then LocalWrites(Keys(o), o.optimisticUpdate.value) else [];
    var s := [SentEvent(verb, url, data)];
    if Optimistic(o) { LocalWritesProjections(Keys(o), o.optimisticUpdate.value); }
    assert s[1..] == [];
    ProjectionsAppend(w, s);
  }

  lemma SuccessEndProjections(o: MutationOptions)
    ensures var e := SuccessEnd(o);
      && Waits(e) == [] && SentCount(e) == 0 && WrittenKeys(e) == [] && InvalidatedKeys(e) == Keys(o)
      && Reports(e) == if TruthyText(o.successMessage) && !Flag(o.silent) then [SuccessLogged(o.successMessage.value)] else []
  {
    var tail := if TruthyText(o.successMessage) && !Flag(o.silent) then [SuccessLogged(o.successMessage.value)] else [];
    InvalidationsProjections(Keys(o));
    ProjectionsAppend(Invalidations(Keys(o)), tail);
    if tail != [] {
      assert tail[1..] == [];
      assert Reports(tail) == [tail[0]] + Reports([]);
    }
  }

  lemma FailureEndProjections(o: MutationOptions, f: Failure)
    ensures var e := FailureEnd(o, f);
      && Waits(e) == [] && SentCount(e) == 0 && WrittenKeys(e) == []
      && InvalidatedKeys(e) == (if Optimistic(o) then Keys(o) else [])
      && Reports(e) == if Flag(o.silent) then [] else [Alerted(ErrorText(o.errorMessage, f))]
  {
    var inv := if Optimistic(o) then Invalidations(Keys(o)) else [];
    var tail := if Flag(o.silent) then [] else [Alerted(ErrorText(o.errorMessage, f))];
    InvalidationsProjections(Keys(o));
    ProjectionsAppend(inv, tail);
    if tail != [] {
      assert tail[1..] == [];
      assert Reports(tail) == [tail[0]] + Reports([]);
    }
  }

  lemma SettleProjections(verb: Verb, url: string, data: Json, o: MutationOptions, cache: Cache, reply: Reply)
    ensures var e := Settle(verb, url, data, o, cache, reply).log;
      && Waits(e) == [] && SentCount(e) == 1
      && WrittenKeys(e) == (if Optimistic(o) then Keys(o) else [])
      && InvalidatedKeys(e) == (if reply.Ok? || Optimistic(o) then Keys(o) else [])
      && Reports(e) == match reply
                       case Ok(_) =>
                         if TruthyText(o.successMessage) && !Flag(o.silent) then [SuccessLogged(o.successMessage.value)] else []
                       case Fail(f) => if Flag(o.silent) then [] else [Alerted(ErrorText(o.errorMessage, f))]
  {
    var each := AttemptEvents(verb, url, data, o);
    AttemptEventsProjections(verb, url, data, o);
    match reply
    case Ok(_) =>
      SuccessEndProjections(o);
      ProjectionsAppend(each, SuccessEnd(o));
    case Fail(f) =>
      FailureEndProjections(o, f);
      ProjectionsAppend(each, FailureEnd(o, f));
  }

  /** The log of a call, split at the attempt that ends it. */
  lemma LogProjections(verb: Verb, url: string, data: Json, o: MutationOptions, transport: seq<Reply>, cache: Cache)
    requires MaxRetries(o) >= 0
    ensures var l := LastAttempt(o, transport, 0);
      var log := MutateFrom(verb, url, data, o, transport, cache, 0).log;
      var last := Settle(verb, url, data, o, Tentative(o, cache), ReplyAt(transport, l)).log;
      && Waits(log) == LinearBackoff(0, l)
      && SentCount(log) == l + 1
      && WrittenKeys(log) == Repeat(if Optimistic(o) then Keys(o) else [], l) + WrittenKeys(last)
      && Reports(log) == Reports(last)
      && InvalidatedKeys(log) == InvalidatedKeys(last)
  {
    var l := LastAttempt(o, transport, 0);
    var each := AttemptEvents(verb, url, data, o);
    var last := Settle(verb, url, data, o, Tentative(o, cache), ReplyAt(transport, l)).log;
    MutateClosed(verb, url, data, o, transport, cache);
    AttemptEventsProjections(verb, url, data, o);
    SettleProjections(verb, url, data, o, Tentative(o, cache), ReplyAt(transport, l));
    TriesWaits(each, 0, l);
    TriesSentCount(each, 0, l);
    TriesQuiet(each, 0, l);
    TriesWrittenKeys(each, 0, l);
    ProjectionsAppend(Tries(each, 0, l), last);
  }

  /** A negative `retries` skips the loop entirely. */
  lemma NegativeRetries(verb: Verb, url: string, data: Json, o: MutationOptions, transport: seq<Reply>, cache: Cache)
    requires MaxRetries(o) < 0
    ensures MutateFrom(verb, url, data, o, transport, cache, 0) == Run(Response(false, None, None), cache, [])
  {
  }

  /** Requests, delays and optimistic writes: one request per attempt, the
      delays 1000, 2000, …, and the optimistic value written to every key
      on every attempt. */
  lemma RetrySchedule(verb: Verb, url: string, data: Json, o: MutationOptions, transport: seq<Reply>, cache: Cache)
    ensures var log := MutateFrom(verb, url, data, o, transport, cache, 0).log;
      var made := AttemptsMade(o, transport);
      && SentCount(log) == made
      && Waits(log) == LinearBackoff(0, if made == 0 then 0 else made - 1)
      && WrittenKeys(log) == if Optimistic(o) then Repeat(Keys(o), made) else []
  {
    if MaxRetries(o) >= 0 {
      RanSchedule(verb, url, data, o, transport, cache);
    } else {
      NegativeRetries(verb, url, data, o, transport, cache);
    }
  }

  /** `RetrySchedule` for a call that runs, in terms of the attempt that
      ends it. */
  lemma RanSchedule(verb: Verb, url: string, data: Json, o: MutationOptions, transport: seq<Reply>, cache: Cache)
    requires MaxRetries(o) >= 0
    ensures var log := MutateFrom(verb, url, data, o, transport, cache, 0).log;
      var l := LastAttempt(o, transport, 0);
      && SentCount(log) == l + 1
      && Waits(log) == LinearBackoff(0, l)
      && WrittenKeys(log) == if Optimistic(o) then Repeat(Keys(o), l + 1) else []
  {
    var l := LastAttempt(o, transport, 0);
    var each := if Optimistic(o) then Keys(o) else [];
    var last := Settle(verb, url, data, o, Tentative(o, cache), ReplyAt(transport, l)).log;
    LogProjections(verb, url, data, o, transport, cache);
    assert WrittenKeys(last) == each by {
      SettleProjections(verb, url, data, o, Tentative(o, cache), ReplyAt(transport, l));
    }
    if Optimistic(o) {
      RepeatSnoc(Keys(o), l);
    } else {
      RepeatEmpty(l);
    }
  }

  lemma {:induction false} RepeatSnoc(keys: seq<string>, n: nat)
    ensures Repeat(keys, n) + keys == Repeat(keys, n + 1)
  {
    if n > 0 {
      RepeatSnoc(keys, n - 1);
      assert Repeat(keys, n) + keys == keys + (Repeat(keys, n - 1) + keys);
    }
  }

  lemma {:induction false} RepeatEmpty(n: nat)
    ensures Repeat([], n) == []
  {
    if n > 0 { RepeatEmpty(n - 1); }
  }

  /** A call succeeds exactly when some attempt within `maxRetries + 1`
      gets a success. On success every key is revalidated; on the final
      failure an optimistic value is rolled back by revalidation, and
      without an optimistic update the cache is left alone. */
  lemma Outcome(verb: Verb, url: string, data: Json, o: MutationOptions, transport: seq<Reply>, cache: Cache)
    requires MaxRetries(o) >= 0
    ensures var run := MutateFrom(verb, url, data, o, transport, cache, 0);
      var l := LastAttempt(o, transport, 0);
      && (run.response.success <==> exists i :: 0 <= i <= MaxRetries(o) && ReplyAt(transport, i).Ok?)
      && (run.response.success ==>
            && run.response == Response(true, Some(ReplyAt(transport, l).data), None)
            && run.cache == InvalidateAll(Tentative(o, cache), Keys(o)))
      && (!run.response.success ==>
            && l == MaxRetries(o)
            && run.response == Response(false, None, Some(ReplyAt(transport, l).failure.message))
            && run.cache == if Optimistic(o) then InvalidateAll(Tentative(o, cache), Keys(o)) else cache)
  {
    MutateClosed(verb, url, data, o, transport, cache);
  }

  /** Whatever happens, no key is left holding the optimistic value
      unrevalidated: every listed key ends stale after a call that ran,
      except the keys of a failed call without an optimistic update, which
      keep their entries. */
  lemma NoDanglingOptimism(verb: Verb, url: string, data: Json, o: MutationOptions,
                           transport: seq<Reply>, cache: Cache, k: string)
    requires MaxRetries(o) >= 0 && k in Keys(o)
    ensures var run := MutateFrom(verb, url, data, o, transport, cache, 0);
      (run.response.success || Optimistic(o)) ==> k in run.cache && run.cache[k].stale
    ensures var run := MutateFrom(verb, url, data, o, transport, cache, 0);
      !run.response.success && !Optimistic(o) ==> run.cache == cache
  {
    Outcome(verb, url, data, o, transport, cache);
    InvalidateAllEntries(Tentative(o, cache), Keys(o));
  }

  /** What the user is told: the success log, or the alert with
      `errorMessage`, else the body's `message`, else the default; nothing
      when silent. */
  lemma Reporting(verb: Verb, url: string, data: Json, o: MutationOptions, transport: seq<Reply>, cache: Cache)
    requires MaxRetries(o) >= 0
    ensures var run := MutateFrom(verb, url, data, o, transport, cache, 0);
      var l := LastAttempt(o, transport, 0);
      && (run.response.success ==>
            Reports(run.log) == if TruthyText(o.successMessage) && !Flag(o.silent)
                                then [SuccessLogged(o.successMessage.value)] else [])
      && (!run.response.success ==>
            Reports(run.log) == if Flag(o.silent) then []
                                else [Alerted(ErrorText(o.errorMessage, LastFailure(o, transport)))])
      && InvalidatedKeys(run.log) == (if run.response.success || Optimistic(o) then Keys(o) else [])
  {
    var run := MutateFrom(verb, url, data, o, transport, cache, 0);
    var l := LastAttempt(o, transport, 0);
    var reply := ReplyAt(transport, l);
    var last := Settle(verb, url, data, o, Tentative(o, cache), reply).log;
    assert run.response.success == reply.Ok? by {
      MutateClosed(verb, url, data, o, transport, cache);
    }
    assert Reports(run.log) == Reports(last) && InvalidatedKeys(run.log) == InvalidatedKeys(last) by {
      LogProjections(verb, url, data, o, transport, cache);
    }
    SettleProjections(verb, url, data, o, Tentative(o, cache), reply);
  }

  // ----- useDataClient -----

  /** `invalidateQueries(keys)`: unlike the options of `mutate`, the key is
      not tested for truthiness, so `""` is revalidated too. */
  method InvalidateQueries(keys: KeySpec, cache: Cache) returns (c: Cache, events: seq<Event>)
    ensures c == InvalidateAll(cache, if keys.One? then [keys.key] else keys.keys)
    ensures InvalidatedKeys(events) == if keys.One? then [keys.key] else keys.keys
  {
    var queries := if keys.One? then [keys.key] else keys.keys;
    c, events := InvalidateEach(cache, queries);
    InvalidationsProjections(queries);
  }

  /** `MutationResult` as `mutationFn` settles: resolved, or rejected with
      an error whose `message` the hook reads. */
  datatype Settled = Resolved(result: Response) | Rejected(message: string)

  /** A callback of `options`: not passed, or passed, and then it either
      returns or throws an `Error` with the given message. */
  datatype Handler = Absent | Present(throws: Option<string>)

  /** A handler that, when called, returns normally. */
  predicate Returns(h: Handler) {
    h.Absent? || h.throws.None?
  }

  /** What `onError` receives: the failed result's `error` text, or the
      caught error object, known by its `message`. */
  datatype ErrorArg = FailureText(text: Option<string>) | ErrorObject(message: string)

  /** A callback call: `onSuccess(data)` or `onError(x)`. */
  datatype Callback = OnSuccess(data: Option<Json>) | OnError(arg: ErrorArg)

  /** What the hook's `mutate` gives back: the result, or the rethrown error. */
  datatype HookOutcome = Returned(result: Response) | Rethrown(message: string)

  /** One run of the hook's `mutate`: its outcome, the callbacks called in
      order, and the `error` state it leaves. */
  datatype HookRun = HookRun(outcome: HookOutcome, calls: seq<Callback>, error: Option<string>)

  /** The hook's `catch (err)`: `setError(err.message)`, `onError(err)` when
      passed, then `throw err`, unless `onError` throws first. */
  function HookCatch(err: string, onError: Handler, calls: seq<Callback>): (r: HookRun)
    ensures r.error == Some(err) && r.outcome.Rethrown?
    ensures r.calls == calls + if onError.Present? then [OnError(ErrorObject(err))] else []
    ensures r.outcome.message == if onError.Present? && onError.throws.Some? then onError.throws.value else err
  {
    HookRun(Rethrown(if onError.Present? && onError.throws.Some? then onError.throws.value else err),
            calls + (if onError.Present? then [OnError(ErrorObject(err))] else []),
            Some(err))
  }

  /** The `try` of the hook's `mutate` and its `catch`: a settled
      `mutationFn` triggers at most one callback, and a rejection or an
      exception out of that callback lands in the `catch`. */
  function HookRunOf(settled: Settled, onSuccess: Handler, onError: Handler): (r: HookRun)
    ensures r.error.None? <==> r.outcome.Returned?
    ensures r.outcome.Returned? ==> settled.Resolved? && r.outcome.result == settled.result
    ensures settled.Rejected? ==>
              r.error == Some(settled.message)
              && r.calls == if onError.Present? then [OnError(ErrorObject(settled.message))] else []
    ensures |r.calls| <= 2
    ensures r.outcome.Rethrown? && onError.Present? && onError.throws.Some? ==> r.outcome.message == onError.throws.value
  {
    match settled
    case Rejected(msg) => HookCatch(msg, onError, [])
    case Resolved(res) =>
      if res.success && onSuccess.Present? then
        if onSuccess.throws.Some? then HookCatch(onSuccess.throws.value, onError, [OnSuccess(res.data)])
        else HookRun(Returned(res), [OnSuccess(res.data)], None)
      else if !res.success && onError.Present? then
        if onError.throws.Some? then HookCatch(onError.throws.value, onError, [OnError(FailureText(res.error))])
        else HookRun(Returned(res), [OnError(FailureText(res.error))], None)
      else HookRun(Returned(res), [], None)
  }

  /** With callbacks that return normally, at most one callback is called:
      `onSuccess` exactly for a successful result, `onError` exactly for a
      failed result or a rejection; `error` is set only by a rejection,
      which is rethrown. */
  lemma QuietCallbacks(settled: Settled, onSuccess: Handler, onError: Handler)
    requires Returns(onSuccess) && Returns(onError)
    ensures var r := HookRunOf(settled, onSuccess, onError);
      && |r.calls| <= 1
      && ((exists d :: OnSuccess(d) in r.calls) <==> settled.Resolved? && settled.result.success && onSuccess.Present?)
      && ((exists e :: OnError(e) in r.calls) <==> onError.Present? && (settled.Rejected? || !settled.result.success))
      && r.error == (if settled.Rejected? then Some(settled.message) else None)
      && r.outcome == if settled.Resolved? then Returned(settled.result) else Rethrown(settled.message)
  {
    var r := HookRunOf(settled, onSuccess, onError);
    if settled.Resolved? && settled.result.success && onSuccess.Present? {
      assert r.calls == [OnSuccess(settled.result.data)];
    }
  }

  /** An `onSuccess` that throws after a successful result sends the hook
      into its `catch`: the error state is set to its message, `onError`
      is called although the mutation succeeded, and the call rethrows
      instead of returning the result. */
  lemma ThrowingOnSuccess(result: Response, e: string, onError: Handler)
    requires result.success
    ensures var r := HookRunOf(Resolved(result), Present(Some(e)), onError);
      && r.calls == [OnSuccess(result.data)] + (if onError.Present? then [OnError(ErrorObject(e))] else [])
      && r.error == Some(e)
      && r.outcome == Rethrown(if onError.Present? && onError.throws.Some? then onError.throws.value else e)
  {
  }

  /** The state of `useMutation`: `isLoading` and `error`. */
  class MutationHook {
    var isLoading: bool
    var error: Option<string>

    constructor ()
      ensures !isLoading && error == None
    {
      isLoading, error := false, None;
    }

    /** The hook's `mutate()`: loading is on while `mutationFn` runs and
        off in the `finally`; the error state is cleared first and set by
        the `catch`. */
    method Mutate(settled: Settled, onSuccess: Handler, onError: Handler)
      returns (outcome: HookOutcome, calls: seq<Callback>)
      modifies this
      ensures !isLoading
      ensures error == HookRunOf(settled, onSuccess, onError).error
      ensures outcome == HookRunOf(settled, onSuccess, onError).outcome
      ensures calls == HookRunOf(settled, onSuccess, onError).calls
    {
      isLoading := true;
      error := None;
      calls := [];
      var caught: Option<string> := None;
      // try
      match settled {
        case Rejected(msg) =>
          caught := Some(msg);
        case Resolved(res) =>
          outcome := Returned(res);
          if res.success && onSuccess.Present? {
            calls := [OnSuccess(res.data)];
            caught := onSuccess.throws;
          } else if !res.success && onError.Present? {
            calls := [OnError(FailureText(res.error))];
            caught := onError.throws;
          }
      }
      // catch
      if caught.Some? {
        error := caught;
        outcome := Rethrown(caught.value);
        if onError.Present? {
          calls := calls + [OnError(ErrorObject(caught.value))];
          if onError.throws.Some? {
            outcome := Rethrown(onError.throws.value);
          }
        }
      }
      // finally
      isLoading := false;
    }
  }
}
