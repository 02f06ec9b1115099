/** The part of SWR's `SWRConfiguration` that the wrappers set, and the
    object spread `{ ...base, ...over }` they build it with. */
module Swr {
  import opened Js

  /** An absent field is `None`. */
  datatype SwrConfig = SwrConfig(
    revalidateOnFocus: Option<bool>,
    revalidateOnReconnect: Option<bool>,
    revalidateIfStale: Option<bool>,
    dedupingInterval: Option<int>,
    refreshInterval: Option<int>,
    errorRetryCount: Option<int>)

  /** `{}` */
  const Empty := SwrConfig(None, None, None, None, None, None)

  /** One field of a spread: a field the later object has wins. */
  function Over<T>(base: Option<T>, over: Option<T>): (r: Option<T>)
    ensures over.Some? ==> r == over
    ensures over.None? ==> r == base
  {
    if over.Some? then over else base
  }

  /** `{ ...base, ...over }` */
  function Spread(base: SwrConfig, over: SwrConfig): (r: SwrConfig)
    ensures r.revalidateOnFocus == Over(base.revalidateOnFocus, over.revalidateOnFocus)
    ensures r.revalidateOnReconnect == Over(base.revalidateOnReconnect, over.revalidateOnReconnect)
    ensures r.revalidateIfStale == Over(base.revalidateIfStale, over.revalidateIfStale)
    ensures r.dedupingInterval == Over(base.dedupingInterval, over.dedupingInterval)
    ensures r.refreshInterval == Over(base.refreshInterval, over.refreshInterval)
    ensures r.errorRetryCount == Over(base.errorRetryCount, over.errorRetryCount)
  {
    SwrConfig(
      Over(base.revalidateOnFocus, over.revalidateOnFocus),
      Over(base.revalidateOnReconnect, over.revalidateOnReconnect),
      Over(base.revalidateIfStale, over.revalidateIfStale),
      Over(base.dedupingInterval, over.dedupingInterval),
      Over(base.refreshInterval, over.refreshInterval),
      Over(base.errorRetryCount, over.errorRetryCount))
  }
}
