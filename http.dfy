/** The collaborators of the request wrappers, stated as values: the HTTP
    transport (a sequence of replies), the SWR cache (a map from keys to a
    value and a stale flag) and an event log that records what the wrappers
    send, wait, invalidate, write and report, in order. */
module Http {
  import opened Js

  datatype Verb = Post | Put | Delete | Patch

  /** `executeRequest` receives the method as a plain string. */
  datatype MethodName = Known(verb: Verb) | Unsupported(name: string)

  /** The body of an error response: `{ error, message }`. */
  datatype ErrorBody = ErrorBody(error: Option<string>, message: Option<string>)

  /** `error.response` of an axios error: the status and the body (`None`
      when the body is `undefined` or `null`). */
  datatype ErrorResponse = ErrorResponse(status: int, data: Option<ErrorBody>)

  /** An error thrown by a request: its `message` and, when the server
      answered, its `response`. */
  datatype Failure = Failure(message: string, response: Option<ErrorResponse>)

  /** What the transport does with one request. */
  datatype Reply = Ok(data: Json) | Fail(failure: Failure)

  /** An axios error raised when no response arrived. */
  const NetworkError := Failure("Network Error", None)

  /** The reply to the `i`-th request; a transport that has run out of
      replies answers every further request with a network error. */
  function ReplyAt(transport: seq<Reply>, i: nat): (r: Reply)
    ensures i < |transport| ==> r == transport[i]
    ensures i >= |transport| ==> r == Fail(NetworkError)
  {
    if i < |transport| then transport[i] else Fail(NetworkError)
  }

  /** `ApiResponse` / `MutationResult`: `{ success, data?, error? }`. */
  datatype Response = Response(success: bool, data: Option<Json>, error: Option<string>)

  // ----- The SWR cache -----

  /** A cached query: its value (if one was ever stored) and whether a
      refetch has been requested since the last local write. */
  datatype Entry = Entry(value: Option<Json>, stale: bool)

  type Cache = map<string, Entry>

  function ValueOf(c: Cache, k: string): Option<Json> {
    if k in c then c[k].value else None
  }

  /** `mutate(key)`: mark the entry stale so subscribers refetch; the value
      stays until the refetch replaces it. */
  function Invalidate(c: Cache, k: string): (r: Cache)
    ensures r == c[k := Entry(ValueOf(c, k), true)]
  {
    c[k := Entry(ValueOf(c, k), true)]
  }

  /** `mutate(key, value, false)`: overwrite locally, no revalidation. */
  function WriteLocal(c: Cache, k: string, v: Json): (r: Cache)
    ensures r == c[k := Entry(Some(v), false)]
  {
    c[k := Entry(Some(v), false)]
  }

  /** `keys.forEach((key) => mutate(key))`. */
  function InvalidateAll(c: Cache, keys: seq<string>): (r: Cache)
    decreases |keys|
  {
    if keys == [] then c
    else
      var front := keys[..|keys| - 1];
      Invalidate(InvalidateAll(c, front), keys[|keys| - 1])
  }

  /** `keys.forEach((key) => mutate(key, value, false))`. */
  function WriteAll(c: Cache, keys: seq<string>, v: Json): (r: Cache)
    decreases |keys|
  {
    if keys == [] then c
    else
      var front := keys[..|keys| - 1];
      WriteLocal(WriteAll(c, front, v), keys[|keys| - 1], v)
  }

  /** Exactly the listed keys become stale, keeping their values; every
      other entry is left as it was. */
  lemma {:induction false} InvalidateAllEntries(c: Cache, keys: seq<string>)
    ensures var r := InvalidateAll(c, keys);
      && (forall k :: k in r <==> k in c || k in keys)
      && (forall k :: k in keys ==> r[k] == Entry(ValueOf(c, k), true))
      && (forall k :: k in c && k !in keys ==> r[k] == c[k])
    decreases |keys|
  {
    if keys != [] {
      var front := keys[..|keys| - 1];
      InvalidateAllEntries(c, front);
      assert keys == front + [keys[|keys| - 1]];
      assert forall k :: k in keys <==> k in front || k == keys[|keys| - 1];
    }
  }

  /** Exactly the listed keys hold the value, fresh; every other entry is
      left as it was. */
  lemma {:induction false} WriteAllEntries(c: Cache, keys: seq<string>, v: Json)
    ensures var r := WriteAll(c, keys, v);
      && (forall k :: k in r <==> k in c || k in keys)
      && (forall k :: k in keys ==> r[k] == Entry(Some(v), false))
      && (forall k :: k in c && k !in keys ==> r[k] == c[k])
    decreases |keys|
  {
    if keys != [] {
      var front := keys[..|keys| - 1];
      WriteAllEntries(c, front, v);
      assert keys == front + [keys[|keys| - 1]];
      assert forall k :: k in keys <==> k in front || k == keys[|keys| - 1];
    }
  }

  /** Writing the same value to the same keys again changes nothing. */
  lemma WriteAllIdempotent(c: Cache, keys: seq<string>, v: Json)
    ensures WriteAll(WriteAll(c, keys, v), keys, v) == WriteAll(c, keys, v)
  {
    WriteAllEntries(c, keys, v);
    WriteAllEntries(WriteAll(c, keys, v), keys, v);
  }

  /** `string | string[]` as the wrappers accept cache keys. */
  datatype KeySpec = One(key: string) | Many(keys: seq<string>)

  /** Truthiness of the key option: absent and `""` are falsy, every array
      (even `[]`) is truthy. */
  predicate KeysGiven(spec: Option<KeySpec>) {
    match spec
    case None => false
    case Some(One(k)) => k != ""
    case Some(Many(_)) => true
  }

  /** `if (x) { Array.isArray(x) ? x : [x] }`: the keys the wrappers touch. */
  function KeyList(spec: Option<KeySpec>): (r: seq<string>)
    ensures !KeysGiven(spec) ==> r == []
    ensures spec == Some(Many(r)) || (spec.Some? && spec.value.One? && r == [spec.value.key]) || r == []
    ensures KeysGiven(spec) && spec.value.One? ==> r == [spec.value.key]
    ensures spec.Some? && spec.value.Many? ==> r == spec.value.keys
  {
    match spec
    case None => []
    case Some(One(k)) => if k != "" then [k] else []
    case Some(Many(ks)) => ks
  }

  // ----- The event log -----

  datatype Event =
    | Sent(verb: Verb, url: string, payload: Option<Json>)
    | Waited(ms: int)
    | Invalidated(key: string)
    | WroteLocal(key: string, value: Json)
    | SuccessLogged(message: string)
    | Alerted(message: string)
    | ToastLogged(message: string)
    | ErrorLogged(error: Failure)

  /** The request a verb issues: DELETE sends no payload. */
  function SentEvent(verb: Verb, url: string, data: Json): (e: Event)
    ensures e.Sent? && e.verb == verb && e.url == url
    ensures e.payload == None <==> verb == Delete
    ensures verb != Delete ==> e.payload == Some(data)
  {
    Sent(verb, url, if verb == Delete then None else Some(data))
  }

  function Invalidations(keys: seq<string>): (r: seq<Event>)
    ensures |r| == |keys|
    ensures forall i :: 0 <= i < |keys| ==> r[i] == Invalidated(keys[i])
  {
    seq(|keys|, i requires 0 <= i < |keys| => Invalidated(keys[i]))
  }

  function LocalWrites(keys: seq<string>, v: Json): (r: seq<Event>)
    ensures |r| == |keys|
    ensures forall i :: 0 <= i < |keys| ==> r[i] == WroteLocal(keys[i], v)
  {
    seq(|keys|, i requires 0 <= i < |keys| => WroteLocal(keys[i], v))
  }

  /** The delays recorded in a log, in order. */
  function Waits(log: seq<Event>): seq<int> {
    if log == [] then []
    else (if log[0].Waited? then [log[0].ms] else []) + Waits(log[1..])
  }

  /** How many requests a log records. */
  function SentCount(log: seq<Event>): nat {
    if log == [] then 0
    else (if log[0].Sent? then 1 else 0) + SentCount(log[1..])
  }

  /** What the user is told: success logs, alerts, toasts and logged errors. */
  predicate IsReport(e: Event) {
    e.SuccessLogged? || e.Alerted? || e.ToastLogged? || e.ErrorLogged?
  }

  /** The reports a log records, in order. */
  function Reports(log: seq<Event>): seq<Event> {
    if log == [] then []
    else (if IsReport(log[0]) then [log[0]] else []) + Reports(log[1..])
  }

  /** The keys a log invalidates, in order. */
  function InvalidatedKeys(log: seq<Event>): seq<string> {
    if log == [] then []
    else (if log[0].Invalidated? then [log[0].key] else []) + InvalidatedKeys(log[1..])
  }

  /** The keys a log writes locally, in order. */
  function WrittenKeys(log: seq<Event>): seq<string> {
    if log == [] then []
    else (if log[0].WroteLocal? then [log[0].key] else []) + WrittenKeys(log[1..])
  }

  /** Every projection of a log distributes over concatenation. */
  lemma ProjectionsAppend(a: seq<Event>, b: seq<Event>)
    ensures Waits(a + b) == Waits(a) + Waits(b)
    ensures SentCount(a + b) == SentCount(a) + SentCount(b)
    ensures Reports(a + b) == Reports(a) + Reports(b)
    ensures InvalidatedKeys(a + b) == InvalidatedKeys(a) + InvalidatedKeys(b)
    ensures WrittenKeys(a + b) == WrittenKeys(a) + WrittenKeys(b)
  {
    WaitsAppend(a, b);
    SentCountAppend(a, b);
    ReportsAppend(a, b);
    InvalidatedKeysAppend(a, b);
    WrittenKeysAppend(a, b);
  }

  lemma {:induction false} WaitsAppend(a: seq<Event>, b: seq<Event>)
    ensures Waits(a + b) == Waits(a) + Waits(b)
    decreases |a|
  {
    if a == [] {
      assert a + b == b;
    } else {
      var ab := a + b;
      assert ab[0] == a[0] && ab[1..] == a[1..] + b;
      WaitsAppend(a[1..], b);
    }
  }

  lemma {:induction false} SentCountAppend(a: seq<Event>, b: seq<Event>)
    ensures SentCount(a + b) == SentCount(a) + SentCount(b)
    decreases |a|
  {
    if a == [] {
      assert a + b == b;
    } else {
      var ab := a + b;
      assert ab[0] == a[0] && ab[1..] == a[1..] + b;
      SentCountAppend(a[1..], b);
    }
  }

  lemma {:induction false} ReportsAppend(a: seq<Event>, b: seq<Event>)
    ensures Reports(a + b) == Reports(a) + Reports(b)
    decreases |a|
  {
    if a == [] {
      assert a + b == b;
    } else {
      var ab := a + b;
      assert ab[0] == a[0] && ab[1..] == a[1..] + b;
      ReportsAppend(a[1..], b);
    }
  }

  lemma {:induction false} InvalidatedKeysAppend(a: seq<Event>, b: seq<Event>)
    ensures InvalidatedKeys(a + b) == InvalidatedKeys(a) + InvalidatedKeys(b)
    decreases |a|
  {
    if a == [] {
      assert a + b == b;
    } else {
      var ab := a + b;
      assert ab[0] == a[0] && ab[1..] == a[1..] + b;
      InvalidatedKeysAppend(a[1..], b);
    }
  }

  lemma {:induction false} WrittenKeysAppend(a: seq<Event>, b: seq<Event>)
    ensures WrittenKeys(a + b) == WrittenKeys(a) + WrittenKeys(b)
    decreases |a|
  {
    if a == [] {
      assert a + b == b;
    } else {
      var ab := a + b;
      assert ab[0] == a[0] && ab[1..] == a[1..] + b;
      WrittenKeysAppend(a[1..], b);
    }
  }

  lemma {:induction false} InvalidationsProjections(keys: seq<string>)
    ensures Waits(Invalidations(keys)) == [] && SentCount(Invalidations(keys)) == 0
    ensures Reports(Invalidations(keys)) == [] && WrittenKeys(Invalidations(keys)) == []
    ensures InvalidatedKeys(Invalidations(keys)) == keys
    decreases |keys|
  {
    if keys != [] {
      var r := Invalidations(keys);
      assert r[1..] == Invalidations(keys[1..]);
      InvalidationsProjections(keys[1..]);
      assert keys == [keys[0]] + keys[1..];
    }
  }

  lemma {:induction false} LocalWritesProjections(keys: seq<string>, v: Json)
    ensures Waits(LocalWrites(keys, v)) == [] && SentCount(LocalWrites(keys, v)) == 0
    ensures Reports(LocalWrites(keys, v)) == [] && InvalidatedKeys(LocalWrites(keys, v)) == []
    ensures WrittenKeys(LocalWrites(keys, v)) == keys
    decreases |keys|
  {
    if keys != [] {
      var r := LocalWrites(keys, v);
      assert r[1..] == LocalWrites(keys[1..], v);
      LocalWritesProjections(keys[1..], v);
      assert keys == [keys[0]] + keys[1..];
    }
  }

  // ----- Messages -----

  const DefaultErrorMessage := "오류가 발생했습니다."

  /** `custom || error.response?.data?.message || "오류가 발생했습니다."`. */
  function ErrorText(custom: Option<string>, f: Failure): (m: string)
    ensures TruthyText(custom) ==> m == custom.value
    ensures !TruthyText(custom) && f.response.Some? && f.response.value.data.Some?
            && TruthyText(f.response.value.data.value.message)
            ==> m == f.response.value.data.value.message.value
    ensures !TruthyText(custom)
            && (f.response.None? || f.response.value.data.None?
                || !TruthyText(f.response.value.data.value.message))
            ==> m == DefaultErrorMessage
  {
    if TruthyText(custom) then custom.value
    else if f.response.Some? && f.response.value.data.Some?
            && TruthyText(f.response.value.data.value.message)
    then f.response.value.data.value.message.value
    else DefaultErrorMessage
  }

  // ----- Retry runs -----

  /** The outcome of a wrapper call: what it returns, the cache afterwards
      and the log of what it did. */
  datatype Run = Run(response: Response, cache: Cache, log: seq<Event>)

  /** A run whose log is preceded by `pre`. */
  function After(pre: seq<Event>, r: Run): Run {
    Run(r.response, r.cache, pre + r.log)
  }

  /** The delay before attempt `attempt + 1`, after `attempt` failures. */
  function Backoff(attempt: nat): int {
    1000 * attempt
  }

  /** The failed attempts `i .. j-1` that are retried: each one's events
      followed by its backoff. */
  function Tries(each: seq<Event>, i: nat, j: nat): seq<Event>
    decreases j - i
  {
    if i >= j then [] else each + [Waited(Backoff(i + 1))] + Tries(each, i + 1, j)
  }

  /** The delays `1000 * (i+1), …, 1000 * j`. */
  function LinearBackoff(i: nat, j: nat): (r: seq<int>)
    ensures |r| == if i <= j then j - i else 0
    ensures forall m :: 0 <= m < |r| ==> r[m] == 1000 * (i + m + 1)
    decreases j - i
  {
    if i >= j then [] else [Backoff(i + 1)] + LinearBackoff(i + 1, j)
  }

  /** A retried stretch waits `1000 * (i+1), …, 1000 * j`. */
  lemma {:induction false} TriesWaits(each: seq<Event>, i: nat, j: nat)
    requires Waits(each) == []
    ensures Waits(Tries(each, i, j)) == LinearBackoff(i, j)
    decreases j - i
  {
    if i < j {
      var w := [Waited(Backoff(i + 1))];
      TriesWaits(each, i + 1, j);
      WaitsAppend(each, w);
      WaitsAppend(each + w, Tries(each, i + 1, j));
      assert Waits(w) == [Backoff(i + 1)] + Waits([]);
    }
  }

  /** A retried stretch repeats the requests of one attempt once per attempt. */
  lemma {:induction false} TriesSentCount(each: seq<Event>, i: nat, j: nat)
    requires i <= j
    ensures SentCount(Tries(each, i, j)) == (j - i) * SentCount(each)
    decreases j - i
  {
    if i < j {
      var w := [Waited(Backoff(i + 1))];
      TriesSentCount(each, i + 1, j);
      SentCountAppend(each, w);
      SentCountAppend(each + w, Tries(each, i + 1, j));
      assert SentCount(w) == 0 + SentCount([]);
      assert (j - i) * SentCount(each) == (j - (i + 1)) * SentCount(each) + SentCount(each);
    }
  }

  /** A retried stretch raises no alert and invalidates nothing when one
      attempt does neither. */
  lemma {:induction false} TriesQuiet(each: seq<Event>, i: nat, j: nat)
    requires Reports(each) == [] && InvalidatedKeys(each) == []
    ensures Reports(Tries(each, i, j)) == [] && InvalidatedKeys(Tries(each, i, j)) == []
    decreases j - i
  {
    if i < j {
      var w := [Waited(Backoff(i + 1))];
      TriesQuiet(each, i + 1, j);
      ReportsAppend(each, w);
      ReportsAppend(each + w, Tries(each, i + 1, j));
      InvalidatedKeysAppend(each, w);
      InvalidatedKeysAppend(each + w, Tries(each, i + 1, j));
      assert Reports(w) == [] + Reports([]);
      assert InvalidatedKeys(w) == [] + InvalidatedKeys([]);
    }
  }

  /** `keys` written out `n` times. */
  function Repeat(keys: seq<string>, n: nat): (r: seq<string>)
    ensures |r| == n * |keys|
  {
    if n == 0 then [] else keys + Repeat(keys, n - 1)
  }

  /** A retried stretch repeats the local writes of one attempt once per attempt. */
  lemma {:induction false} TriesWrittenKeys(each: seq<Event>, i: nat, j: nat)
    requires i <= j
    ensures WrittenKeys(Tries(each, i, j)) == Repeat(WrittenKeys(each), j - i)
    decreases j - i
  {
    if i < j {
      var w := [Waited(Backoff(i + 1))];
      TriesWrittenKeys(each, i + 1, j);
      WrittenKeysAppend(each, w);
      WrittenKeysAppend(each + w, Tries(each, i + 1, j));
      assert WrittenKeys(w) == [] + WrittenKeys([]);
    }
  }

  /** Every event of a retried stretch is one of `each` or a backoff. */
  lemma {:induction false} TriesEvents(each: seq<Event>, i: nat, j: nat, e: Event)
    requires e in Tries(each, i, j)
    ensures e in each || e.Waited?
    decreases j - i
  {
    if i < j {
      var rest := Tries(each, i + 1, j);
      assert Tries(each, i, j) == each + [Waited(Backoff(i + 1))] + rest;
      if e in rest { TriesEvents(each, i + 1, j, e); }
    }
  }

  // ----- The per-key loops of the wrappers -----

  lemma InvalidateAllSnoc(c: Cache, keys: seq<string>, k: string)
    ensures InvalidateAll(c, keys + [k]) == Invalidate(InvalidateAll(c, keys), k)
  {
    assert (keys + [k])[..|keys|] == keys;
  }

  lemma WriteAllSnoc(c: Cache, keys: seq<string>, k: string, v: Json)
    ensures WriteAll(c, keys + [k], v) == WriteLocal(WriteAll(c, keys, v), k, v)
  {
    assert (keys + [k])[..|keys|] == keys;
  }

  lemma InvalidateEachStep(cache: Cache, keys: seq<string>, i: nat)
    requires i < |keys|
    ensures InvalidateAll(cache, keys[..i + 1]) == Invalidate(InvalidateAll(cache, keys[..i]), keys[i])
    ensures Invalidations(keys[..i + 1]) == Invalidations(keys[..i]) + [Invalidated(keys[i])]
  {
    assert keys[..i + 1] == keys[..i] + [keys[i]];
    InvalidateAllSnoc(cache, keys[..i], keys[i]);
  }

  lemma WriteEachStep(cache: Cache, keys: seq<string>, i: nat, v: Json)
    requires i < |keys|
    ensures WriteAll(cache, keys[..i + 1], v) == WriteLocal(WriteAll(cache, keys[..i], v), keys[i], v)
    ensures LocalWrites(keys[..i + 1], v) == LocalWrites(keys[..i], v) + [WroteLocal(keys[i], v)]
  {
    assert keys[..i + 1] == keys[..i] + [keys[i]];
    WriteAllSnoc(cache, keys[..i], keys[i], v);
  }

  /** `keys.forEach((key) => mutate(key))`, key by key. */
  method InvalidateEach(cache: Cache, keys: seq<string>) returns (c: Cache, events: seq<Event>)
    ensures c == InvalidateAll(cache, keys)
    ensures events == Invalidations(keys)
  {
    c, events := cache, [];
    for i := 0 to |keys|
      invariant c == InvalidateAll(cache, keys[..i])
      invariant events == Invalidations(keys[..i])
    {
      InvalidateEachStep(cache, keys, i);
      c := Invalidate(c, keys[i]);
      events := events + [Invalidated(keys[i])];
    }
    assert keys[..|keys|] == keys;
  }

  /** `keys.forEach((key) => mutate(key, value, false))`, key by key. */
  method WriteEach(cache: Cache, keys: seq<string>, v: Json) returns (c: Cache, events: seq<Event>)
    ensures c == WriteAll(cache, keys, v)
    ensures events == LocalWrites(keys, v)
  {
    c, events := cache, [];
    for i := 0 to |keys|
      invariant c == WriteAll(cache, keys[..i], v)
      invariant events == LocalWrites(keys[..i], v)
    {
      WriteEachStep(cache, keys, i, v);
      c := WriteLocal(c, keys[i], v);
      events := events + [WroteLocal(keys[i], v)];
    }
    assert keys[..|keys|] == keys;
  }
}
