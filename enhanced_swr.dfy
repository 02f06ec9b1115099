/** `SimpleCacheManager`, `useEnhancedSWR`, `SWRConfigBuilder` and
    `SWRPresets` of week2/refactoring/apis/api-client/enhanced-swr.ts. */
module EnhancedSwr {
  import opened Js
  import opened Swr

  // ----- SimpleCacheManager -----

  /** `{ timestamp, cache }` */
  datatype Snapshot = Snapshot(timestamp: int, cache: Json)

  /** An entry of `getSnapshots()`: its position and timestamp. */
  datatype SnapshotInfo = SnapshotInfo(index: nat, timestamp: int)

  /** `maxSnapshots` */
  const MaxSnapshots: nat := 5

  /** The last `n` elements of `s` (all of them when there are fewer). */
  function LastN<T>(s: seq<T>, n: nat): (r: seq<T>)
    ensures |r| == if |s| <= n then |s| else n
    ensures r == s[|s| - |r|..]
  {
    if |s| <= n then s else s[|s| - n..]
  }

  /** Appending to a buffer that keeps the last `n` and then dropping the
      front when it overflows keeps the last `n` of the longer history. */
  lemma LastNSnoc<T>(h: seq<T>, x: T, n: nat)
    requires n > 0
    ensures var b := LastN(h, n) + [x];
      LastN(h + [x], n) == if |b| > n then b[1..] else b
  {
    var b := LastN(h, n) + [x];
    if |h| < n {
      assert LastN(h, n) == h;
    } else {
      assert b[1..] == (h + [x])[|h| + 1 - n..];
    }
  }

  /** `Array.prototype.at`: a negative index counts from the end. */
  function At<T>(s: seq<T>, index: int): (r: Option<T>)
    ensures r.Some? <==> -|s| <= index < |s|
    ensures 0 <= index < |s| ==> r == Some(s[index])
    ensures -|s| <= index < 0 ==> r == Some(s[|s| + index])
  {
    var i := if index < 0 then index + |s| else index;
    if 0 <= i < |s| then Some(s[i]) else None
  }

  class SimpleCacheManager {
    var snapshots: seq<Snapshot>
    /** Every snapshot ever created, oldest first. */
    ghost var history: seq<Snapshot>

    /** The buffer holds the newest snapshots, at most five, oldest first. */
    ghost predicate Valid()
      reads this
    {
      snapshots == LastN(history, MaxSnapshots)
    }

    constructor ()
      ensures Valid() && snapshots == [] && history == []
    {
      snapshots := [];
      history := [];
    }

    /** `createSnapshot()`: `now` stands for `Date.now()`; the cache copy
        is `cloneDeep({})`. */
    method CreateSnapshot(now: int)
      requires Valid()
      modifies this
      ensures Valid()
      ensures history == old(history) + [Snapshot(now, JObject(map[]))]
      ensures |snapshots| <= MaxSnapshots
      ensures snapshots[|snapshots| - 1] == Snapshot(now, JObject(map[]))
      ensures |old(snapshots)| < MaxSnapshots ==> snapshots == old(snapshots) + [Snapshot(now, JObject(map[]))]
      ensures |old(snapshots)| == MaxSnapshots ==> snapshots == old(snapshots)[1..] + [Snapshot(now, JObject(map[]))]
    {
      var snapshot := Snapshot(now, JObject(map[]));
      LastNSnoc(history, snapshot, MaxSnapshots);
      history := history + [snapshot];
      snapshots := snapshots + [snapshot];
      if |snapshots| > MaxSnapshots {
        snapshots := snapshots[1..];
      }
    }

    /** `getSnapshots()`, less the formatted date. */
    function GetSnapshots(): (r: seq<SnapshotInfo>)
      reads this
      ensures |r| == |snapshots|
      ensures forall i :: 0 <= i < |r| ==> r[i].index == i && r[i].timestamp == snapshots[i].timestamp
    {
      var s := snapshots;
      seq(|s|, i requires 0 <= i < |s| => SnapshotInfo(i, s[i].timestamp))
    }

    /** `restoreSnapshot(index = -1)`: whether `snapshots.at(index)` exists. */
    function RestoreSnapshot(index: int := -1): (ok: bool)
      reads this
      ensures ok <==> -|snapshots| <= index < |snapshots|
    {
      At(snapshots, index).Some?
    }
  }

  /** The snapshots taken at `times`, in order. */
  function Snaps(times: seq<int>): (r: seq<Snapshot>)
    ensures |r| == |times|
    ensures forall i :: 0 <= i < |r| ==> r[i] == Snapshot(times[i], JObject(map[]))
  {
    seq(|times|, i requires 0 <= i < |times| => Snapshot(times[i], JObject(map[])))
  }

  /** Keeping the newest snapshots is keeping the newest timestamps. */
  lemma LastNSnaps(times: seq<int>, n: nat)
    ensures LastN(Snaps(times), n) == Snaps(LastN(times, n))
  {
    if |times| > n {
      var s := Snaps(times);
      var t := times[|times| - n..];
      assert forall i :: 0 <= i < n ==> s[|times| - n..][i] == Snaps(t)[i];
    }
  }

  /** Taking one more snapshot appends it to the history. */
  lemma SnapsSnoc(times: seq<int>, j: nat)
    requires j < |times|
    ensures Snaps(times[..j + 1]) == Snaps(times[..j]) + [Snapshot(times[j], JObject(map[]))]
  {
  }

  /** The buffer after `k` snapshots from empty: at most five, the newest
      last, and the default restore succeeds as soon as there is one. */
  method SnapshotsAfter(times: seq<int>) returns (kept: seq<Snapshot>, restoredNewest: bool)
    ensures kept == Snaps(LastN(times, MaxSnapshots))
    ensures restoredNewest <==> |times| > 0
  {
    var m := new SimpleCacheManager();
    for j := 0 to |times|
      invariant m.Valid()
      invariant m.history == Snaps(times[..j])
    {
      m.CreateSnapshot(times[j]);
      SnapsSnoc(times, j);
    }
    assert times[..|times|] == times;
    kept := m.snapshots;
    LastNSnaps(times, MaxSnapshots);
    restoredNewest := m.RestoreSnapshot();
  }

  // ----- useEnhancedSWR -----

  /** The defaults of `useEnhancedSWR`. */
  const EnhancedDefaults := Empty.(revalidateOnFocus := Some(true), revalidateOnReconnect := Some(true),
                                   dedupingInterval := Some(300000))

  /** The configuration `useEnhancedSWR` hands to `useSWR`: the caller's
      fields over the defaults. */
  function EnhancedConfig(config: Option<SwrConfig>): (r: SwrConfig)
    ensures config.None? ==> r == EnhancedDefaults
    ensures config.Some? ==>
              && r.revalidateOnFocus == Some(config.value.revalidateOnFocus.GetOr(true))
              && r.revalidateOnReconnect == Some(config.value.revalidateOnReconnect.GetOr(true))
              && r.dedupingInterval == Some(config.value.dedupingInterval.GetOr(300000))
              && r.revalidateIfStale == config.value.revalidateIfStale
              && r.refreshInterval == config.value.refreshInterval
              && r.errorRetryCount == config.value.errorRetryCount
  {
    if config.Some? then Spread(EnhancedDefaults, config.value) else EnhancedDefaults
  }

  // ----- SWRConfigBuilder -----

  class SwrConfigBuilder {
    var config: SwrConfig

    /** `new SWRConfigBuilder()` / `SWRConfigBuilder.create()`. */
    constructor ()
      ensures config == Empty
    {
      config := Empty;
    }

    /** `cache(minutes)`: minutes to milliseconds. */
    method Cache(minutes: int) returns (b: SwrConfigBuilder)
      modifies this
      ensures b == this
      ensures config == old(config).(dedupingInterval := Some(minutes * 60 * 1000))
    {
      config := config.(dedupingInterval := Some(minutes * 60 * 1000));
      b := this;
    }

    /** `realtime(interval)`: `interval || 5000`, both revalidate flags on. */
    method Realtime(interval: Option<int>) returns (b: SwrConfigBuilder)
      modifies this
      ensures b == this
      ensures config == old(config).(refreshInterval := Some(if interval.Some? && interval.value != 0 then interval.value else 5000),
                                     revalidateOnFocus := Some(true), revalidateOnReconnect := Some(true))
    {
      var every := if interval.Some? && interval.value != 0 then interval.value else 5000;
      config := config.(refreshInterval := Some(every));
      config := config.(revalidateOnFocus := Some(true));
      config := config.(revalidateOnReconnect := Some(true));
      b := this;
    }

    method NoFocusRevalidate() returns (b: SwrConfigBuilder)
      modifies this
      ensures b == this
      ensures config == old(config).(revalidateOnFocus := Some(false))
    {
      config := config.(revalidateOnFocus := Some(false));
      b := this;
    }

    method Retry(count: int) returns (b: SwrConfigBuilder)
      modifies this
      ensures b == this
      ensures config == old(config).(errorRetryCount := Some(count))
    {
      config := config.(errorRetryCount := Some(count));
      b := this;
    }

    function Build(): SwrConfig
      reads this
    {
      config
    }
  }

  /** A later setter on the same field overwrites the earlier one, and
      setters on other fields leave it alone. */
  method LaterSetterWins(first: int, second: int, count: int) returns (c: SwrConfig)
    ensures c == Empty.(dedupingInterval := Some(second * 60000), refreshInterval := Some(5000),
                        revalidateOnFocus := Some(false), revalidateOnReconnect := Some(true),
                        errorRetryCount := Some(count))
  {
    var b := new SwrConfigBuilder();
    b := b.Cache(first);
    b := b.Realtime(None);
    b := b.Retry(count);
    b := b.NoFocusRevalidate();
    b := b.Cache(second);
    c := b.Build();
  }

  // ----- SWRPresets -----

  /** `SWRPresets.list()`: five minutes of deduping, three retries. */
  method ListPreset() returns (c: SwrConfig)
    ensures c == Empty.(dedupingInterval := Some(300000), errorRetryCount := Some(3))
  {
    var b := new SwrConfigBuilder();
    b := b.Cache(5);
    b := b.Retry(3);
    c := b.Build();
  }

  /** `SWRPresets.realtime(interval = 5000)`: an absent or zero interval
      polls every 5 s; a refresh interval of 0 never comes out. */
  method RealtimePreset(interval: Option<int>) returns (c: SwrConfig)
    ensures c == Empty.(refreshInterval := Some(if interval.Some? && interval.value != 0 then interval.value else 5000),
                        revalidateOnFocus := Some(true), revalidateOnReconnect := Some(true))
    ensures c.refreshInterval.Some? && c.refreshInterval.value != 0
  {
    var b := new SwrConfigBuilder();
    b := b.Realtime(if interval.Some? then interval else Some(5000));
    c := b.Build();
  }

  /** `SWRPresets.static()`: thirty minutes, no focus revalidation. */
  method StaticPreset() returns (c: SwrConfig)
    ensures c == Empty.(dedupingInterval := Some(1800000), revalidateOnFocus := Some(false))
  {
    var b := new SwrConfigBuilder();
    b := b.Cache(30);
    b := b.NoFocusRevalidate();
    c := b.Build();
  }

  /** `SWRPresets.responsive()`: one minute. */
  method ResponsivePreset() returns (c: SwrConfig)
    ensures c == Empty.(dedupingInterval := Some(60000))
  {
    var b := new SwrConfigBuilder();
    b := b.Cache(1);
    c := b.Build();
  }

  /** The config `useAutoCampaignAll` builds is the list preset's, and
      `useEnhancedSWR` keeps revalidation on focus and reconnect for it. */
  method AutoCampaignAllConfig() returns (c: SwrConfig, effective: SwrConfig)
    ensures c == Empty.(dedupingInterval := Some(300000), errorRetryCount := Some(3))
    ensures effective == EnhancedDefaults.(errorRetryCount := Some(3))
  {
    var b := new SwrConfigBuilder();
    b := b.Cache(5);
    b := b.Retry(3);
    c := b.Build();
    effective := EnhancedConfig(Some(c));
  }
}
