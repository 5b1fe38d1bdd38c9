/** The `/metro` handler of the TMB route (server/routes/tmb.js) as a pure
    step from the module-level cache, the clock, the credentials and the
    upstream reply to the HTTP response and the next cache. */
module TmbRoute {
  import opened Common

  const TTL_MS: int := 60000
  const FALLBACK_LINES: int := 5

  /** The success payload the route serves and caches. */
  datatype Payload = Payload(activeLines: nat, status: string, source: string, timestamp: string)

  datatype Cache = Cache(data: Option<Payload>, lastUpdate: int)

  const INITIAL_CACHE: Cache := Cache(None, 0)

  datatype Body =
    | Lines(payload: Payload)
    | Fallback(activeLines: int, status: string, error: string)
    | MissingCredentials(error: string)

  datatype Response = Response(status: int, body: Body)

  /** The upstream metro-lines request: a `features` array of `count` lines,
      or any failure (timeout, HTTP error, a reply without `features`). */
  datatype Upstream = Features(count: nat) | Failed(message: string)

  /** `TMB_APP_ID` and `TMB_APP_KEY`; an unset or empty variable is falsy. */
  datatype Credentials = Credentials(appId: Option<string>, appKey: Option<string>)

  predicate Present(v: Option<string>)
  {
    v.Some? && v.value != ""
  }

  /** What one request produces: the response, the next cache, and whether
      the upstream API was called. */
  datatype Outcome = Outcome(response: Response, cache: Cache, calledUpstream: bool)

  predicate CacheFresh(c: Cache, now: int)
  {
    c.data.Some? && now - c.lastUpdate < TTL_MS
  }

  /** One GET `/metro`. `isoNow` is `new Date().toISOString()`. */
  function HandleMetro(c: Cache, now: int, creds: Credentials, upstream: Upstream, isoNow: string): (o: Outcome)
    ensures o.calledUpstream <==> !CacheFresh(c, now) && Present(creds.appId) && Present(creds.appKey)
    ensures CacheFresh(c, now) ==> o.response == Response(200, Lines(c.data.value)) && o.cache == c
    ensures o.response.status == 500 <==> !CacheFresh(c, now) && !(Present(creds.appId) && Present(creds.appKey))
    ensures o.response.status == 500 ==> o.cache == c && o.response.body.MissingCredentials?
    ensures o.calledUpstream && upstream.Features? ==>
      && o.response == Response(200, Lines(Payload(upstream.count, "OK", "TMB API", isoNow)))
      && o.cache == Cache(Some(Payload(upstream.count, "OK", "TMB API", isoNow)), now)
    ensures o.calledUpstream && upstream.Failed? ==>
      && o.response == Response(200, Fallback(FALLBACK_LINES, "ERROR_FALLBACK", upstream.message))
      && o.cache == c
  {
    if CacheFresh(c, now) then
      Outcome(Response(200, Lines(c.data.value)), c, false)
    else if !Present(creds.appId) || !Present(creds.appKey) then
      Outcome(Response(500, MissingCredentials("Faltan credenciales TMB en .env")), c, false)
    else
      match upstream
      case Features(n) =>
        var payload := Payload(n, "OK", "TMB API", isoNow);
        Outcome(Response(200, Lines(payload)), Cache(Some(payload), now), true)
      case Failed(msg) =>
        Outcome(Response(200, Fallback(FALLBACK_LINES, "ERROR_FALLBACK", msg)), c, true)
  }

  /** Only genuine upstream answers are ever cached: the fallback never is. */
  ghost predicate CacheInv(c: Cache)
  {
    c.data.Some? ==> c.data.value.status == "OK" && c.data.value.source == "TMB API"
  }

  lemma InitialCacheInv()
    ensures CacheInv(INITIAL_CACHE)
  {
  }

  lemma HandlePreservesCacheInv(c: Cache, now: int, creds: Credentials, upstream: Upstream, isoNow: string)
    requires CacheInv(c)
    ensures CacheInv(HandleMetro(c, now, creds, upstream, isoNow).cache)
  {
  }

  /** Hence a response served from the cache always reports status "OK". */
  lemma CachedResponseIsOk(c: Cache, now: int, creds: Credentials, upstream: Upstream, isoNow: string)
    requires CacheInv(c)
    requires CacheFresh(c, now)
    ensures var o := HandleMetro(c, now, creds, upstream, isoNow);
            o.response.body.Lines? && o.response.body.payload.status == "OK"
  {
  }

  /** The cache is consulted before the credentials: with a fresh cache
      missing credentials do not matter. */
  lemma CacheBeforeCredentials(c: Cache, now: int, creds1: Credentials, creds2: Credentials,
                               up1: Upstream, up2: Upstream, iso1: string, iso2: string)
    requires CacheFresh(c, now)
    ensures HandleMetro(c, now, creds1, up1, iso1) == HandleMetro(c, now, creds2, up2, iso2)
  {
  }

  /** A successful request makes the cache fresh for the next 60 seconds. */
  lemma SuccessIsServedForOneMinute(c: Cache, now: int, later: int, creds: Credentials, n: nat,
                                    isoNow: string, up: Upstream, isoLater: string, creds2: Credentials)
    requires !CacheFresh(c, now) && Present(creds.appId) && Present(creds.appKey)
    requires now <= later < now + TTL_MS
    ensures var c' := HandleMetro(c, now, creds, Features(n), isoNow).cache;
            var o := HandleMetro(c', later, creds2, up, isoLater);
            !o.calledUpstream && o.response.body == Lines(Payload(n, "OK", "TMB API", isoNow))
  {
  }
}
