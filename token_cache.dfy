/** The on-disk token cache: reading it with the expiry check, overwriting it,
    removing it (build/1.7/mdm-xv.go, readCachedToken, writeCachedToken and the
    os.Remove in resetCredentials). */
module TokenCache {
  import opened Wrappers
  import opened Storage

  /** Go's `t.After(u)`: t is strictly later than u. */
  predicate After(t: int, u: int) {
    t > u
  }

  /** The decision readCachedToken takes on the file's content at time `now`. */
  function CachedToken(file: CacheFile, now: int): (r: Result<TokenRecord, Error>)
    ensures r.Ok? <==> file.Stored? && file.record.expires.Some? && now <= file.record.expires.value
    ensures r.Ok? ==> r.value == file.record
    ensures file.Missing? ==> r == Err(NoCacheFile)
    ensures file.Corrupt? ==> r == Err(CacheCorrupt)
    ensures file.Stored? && r.Err? ==> r == Err(TokenExpired)
  {
    match file
    case Missing => Err(NoCacheFile)
    case Corrupt => Err(CacheCorrupt)
    case Stored(rec) =>
      if rec.expires.None? || After(now, rec.expires.value) then Err(TokenExpired) else Ok(rec)
  }

  /** readCachedToken: reads the file and changes nothing. */
  function ReadCachedToken(w: World, now: int): (run: Run<TokenRecord>)
    ensures run.after == w && run.events == [CacheRead]
    ensures run.result.Ok? <==> w.cache.Stored? && w.cache.record.expires.Some? && now <= w.cache.record.expires.value
    ensures run.result.Ok? ==> run.result.value == w.cache.record
  {
    Run(CachedToken(w.cache, now), w, [CacheRead])
  }

  /** writeCachedToken: creates (truncating) the file and writes the whole record. */
  function WriteCachedToken(w: World, rec: TokenRecord): (run: Run<()>)
    ensures run.events == [CacheWritten]
    ensures run.result.Ok? <==> w.cacheWritable
    ensures run.result.Ok? ==> run.after == w.(cache := Stored(rec))
    ensures run.result.Err? ==> run.after == w
  {
    if w.cacheWritable then Run(Ok(()), w.(cache := Stored(rec)), [CacheWritten])
    else Run(Err(CacheNotWritable), w, [CacheWritten])
  }

  /** os.Remove on the cache file: fails when the file does not exist. */
  function RemoveTokenFile(w: World): (run: Run<()>)
    ensures run.events == [CacheRemoved]
    ensures run.result.Ok? <==> !w.cache.Missing? && w.cacheWritable
    ensures run.result.Ok? ==> run.after == w.(cache := Missing)
    ensures run.result.Err? ==> run.after == w
    ensures w.cache.Missing? ==> run.result == Err(NoCacheFile)
  {
    if w.cache.Missing? then Run(Err(NoCacheFile), w, [CacheRemoved])
    else if !w.cacheWritable then Run(Err(CacheNotWritable), w, [CacheRemoved])
    else Run(Ok(()), w.(cache := Missing), [CacheRemoved])
  }

  /** A record written to the cache is read back unchanged for as long as its
      expiry has not passed, the expiry instant itself included. */
  lemma WriteThenRead(w: World, rec: TokenRecord, now: int)
    requires w.cacheWritable
    requires rec.expires.Some? && now <= rec.expires.value
    ensures ReadCachedToken(WriteCachedToken(w, rec).after, now).result == Ok(rec)
  {
  }

  /** The validity boundary: a record whose expiry is `now` is still accepted, one
      that expired a second earlier and one whose expiry does not parse are not. */
  lemma ExpiryBoundary(token: string, now: int)
    ensures CachedToken(Stored(TokenRecord(token, Some(now))), now) == Ok(TokenRecord(token, Some(now)))
    ensures CachedToken(Stored(TokenRecord(token, Some(now - 1))), now) == Err(TokenExpired)
    ensures CachedToken(Stored(TokenRecord(token, None)), now) == Err(TokenExpired)
  {
  }

  /** Once removed, the cache reads as missing and a second removal reports an error. */
  lemma RemoveTwice(w: World, now: int)
    requires !w.cache.Missing? && w.cacheWritable
    ensures RemoveTokenFile(w).result == Ok(())
    ensures ReadCachedToken(RemoveTokenFile(w).after, now).result == Err(NoCacheFile)
    ensures RemoveTokenFile(RemoveTokenFile(w).after).result == Err(NoCacheFile)
  {
  }
}
