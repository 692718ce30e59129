/** The token lifecycle of build/1.7/mdm-xv.go: authentication (getBearerToken), the
    `token` command, the `reset` command (resetCredentials) and the cached-token
    precondition of the `lookup` and `email` commands, each as a function from the
    world before to a Run, with the properties the tool promises as lemmas. */
module Lifecycle {
  import opened Wrappers
  import opened Storage
  import opened TokenCache
  import opened SecretStore

  /** getBearerToken: refuses an empty URL before any request; otherwise posts one
      Basic-auth request and accepts only a 200 whose body decodes. */
  function GetBearerToken(w: World, c: Credentials, reply: ServerReply): (run: Run<TokenRecord>)
    ensures run.after == w
    ensures c.url == "" ==> run.result == Err(UrlEmpty) && run.events == []
    ensures c.url != "" ==> run.events == [AuthRequested(c)]
    ensures run.result.Ok? <==> c.url != "" && reply.Response? && reply.status == 200 && reply.body.Some?
    ensures run.result.Ok? ==> run.result.value == reply.body.value
    ensures c.url != "" && reply.Response? && reply.status != 200 ==> run.result == Err(AuthFailed(reply.status))
  {
    if c.url == "" then Run(Err(UrlEmpty), w, [])
    else
      var outcome :=
        match reply
        case Unreachable => Err(RequestFailed)
        case Response(status, body) =>
          if status != 200 then Err(AuthFailed(status))
          else if body.None? then Err(ResponseCorrupt)
          else Ok(body.value);
      Run(outcome, w, [AuthRequested(c)])
  }

  /** Whether the `token` command asks the operator for credentials: only when the
      keyring read failed or gave an empty URL. */
  predicate MustPrompt(stored: Result<Credentials, Error>) {
    stored.Err? || stored.value.url == ""
  }

  /** Where the `token` command takes its credentials from once the cache has
      missed: the keyring, or else the prompt, whose answer `typed` is saved to the
      keyring (ignoring any failure) before it is used. */
  function ResolveCredentials(w: World, typed: Credentials): (run: Run<Credentials>)
    ensures run.result.Ok?
    ensures run.after == w.(keyring := run.after.keyring)
    ensures var stored := GetCredentialsFromKeyring(w);
            if MustPrompt(stored.result) then
              run.result.value == typed && run.after == SaveCredentialsToKeyring(w, typed).after &&
              run.events == stored.events + [Prompted] + SaveCredentialsToKeyring(w, typed).events
            else run == stored
  {
    var stored := GetCredentialsFromKeyring(w);
    if !MustPrompt(stored.result) then stored
    else
      var saved := SaveCredentialsToKeyring(w, typed);
      Run(Ok(typed), saved.after, stored.events + [Prompted] + saved.events)
  }

  /** The cold half of the `token` command: resolve credentials, authenticate, and
      on success write the new record to the cache. `typed` is what the operator
      would type at the prompt and `reply` what the server would answer; each is used
      only if the command gets that far. */
  function RenewToken(w: World, typed: Credentials, reply: ServerReply): (run: Run<TokenRecord>)
    ensures var creds := ResolveCredentials(w, typed);
            var auth := GetBearerToken(creds.after, creds.result.value, reply);
            run.result == auth.result &&
            run.after == creds.after.(cache := if auth.result.Ok? && w.cacheWritable then Stored(auth.result.value)
                                              else w.cache)
  {
    var creds := ResolveCredentials(w, typed);
    var auth := GetBearerToken(creds.after, creds.result.value, reply);
    if auth.result.Err? then Run(Err(auth.result.error), creds.after, creds.events + auth.events)
    else
      var written := WriteCachedToken(creds.after, auth.result.value);
      Run(Ok(auth.result.value), written.after, creds.events + auth.events + written.events)
  }

  /** The `token` command: a valid cached token as it is, otherwise a renewed one. */
  function TokenAction(w: World, now: int, typed: Credentials, reply: ServerReply): (run: Run<TokenRecord>)
    ensures CachedToken(w.cache, now).Ok? ==> run == Run(Ok(w.cache.record), w, [CacheRead])
    ensures CachedToken(w.cache, now).Err? ==>
      var creds := ResolveCredentials(w, typed);
      var auth := GetBearerToken(creds.after, creds.result.value, reply);
      run.result == auth.result && |run.events| >= 1 && run.events[0] == CacheRead &&
      run.after == creds.after.(cache := if auth.result.Ok? && w.cacheWritable then Stored(auth.result.value)
                                         else w.cache)
  {
    var cached := ReadCachedToken(w, now);
    if cached.result.Ok? then cached
    else
      var renewed := RenewToken(w, typed, reply);
      Run(renewed.result, renewed.after, cached.events + renewed.events)
  }

  /** resetCredentials: deletes the three keys, ignoring every failure, then removes
      the cache file and reports exactly what that removal reports. */
  function ResetCredentials(w: World): (run: Run<()>)
    ensures run.events == [KeyDeleted(UsernameKey), KeyDeleted(PasswordKey), KeyDeleted(UrlKey), CacheRemoved]
    ensures run.after.keyring == DeleteCredentials(w).after.keyring
    ensures run.result == RemoveTokenFile(w.(keyring := run.after.keyring)).result
    ensures run.result.Ok? <==> !w.cache.Missing? && w.cacheWritable
    ensures run.after.cache == if run.result.Ok? then Missing else w.cache
    ensures run.after.refused == w.refused && run.after.cacheWritable == w.cacheWritable
  {
    var deleted := DeleteCredentials(w);
    var rm := RemoveTokenFile(deleted.after);
    Run(rm.result, rm.after, deleted.events + rm.events)
  }

  /** What the `lookup` and `email` commands send to the inventory endpoint. */
  datatype Query = Query(url: string, token: string, filter: string)

  function SerialFilter(serial: string): string {
    "hardware.serialNumber==\"" + serial + "\""
  }

  function EmailFilter(email: string): string {
    "userAndLocation.email==\"" + email + "\""
  }

  /** The shared front half of `lookup` and `email`: a valid cached token and the
      keyring URL, or the first error; neither command authenticates. */
  function DeviceQuery(w: World, now: int, filter: string): (run: Run<Query>)
    ensures run.after == w
    ensures run.result.Ok? <==> ReadCachedToken(w, now).result.Ok? && Readable(w, UrlKey)
    ensures run.result.Ok? ==> run.result.value == Query(w.keyring[UrlKey], w.cache.record.token, filter)
    ensures forall e <- run.events :: e == CacheRead || e == KeyRead(UrlKey)
  {
    var cached := ReadCachedToken(w, now);
    if cached.result.Err? then Run(Err(cached.result.error), w, cached.events)
    else
      var url := KeyringGet(w, UrlKey);
      if url.result.Err? then Run(Err(url.result.error), w, cached.events + url.events)
      else Run(Ok(Query(url.result.value, cached.result.value.token, filter)), w, cached.events + url.events)
  }

  /** The number of authentication requests among the events. */
  function Requests(events: seq<Event>): nat {
    if events == [] then 0
    else (if events[0].AuthRequested? then 1 else 0) + Requests(events[1..])
  }

  lemma {:induction false} RequestsAppend(a: seq<Event>, b: seq<Event>)
    ensures Requests(a + b) == Requests(a) + Requests(b)
  {
    if a == [] {
      assert a + b == b;
    } else {
      assert (a + b)[1..] == a[1..] + b;
      RequestsAppend(a[1..], b);
    }
  }

  lemma {:induction false} NoRequests(events: seq<Event>)
    requires forall i :: 0 <= i < |events| ==> !events[i].AuthRequested?
    ensures Requests(events) == 0
  {
    if events != [] {
      NoRequests(events[1..]);
    }
  }

  // ---------------------------------------------------------------------------
  // Properties of the `token` command

  /** A valid cached token is returned as it is: no keyring access, no prompt, no
      request and no write. */
  lemma WarmCacheShortCircuits(w: World, now: int, typed: Credentials, reply: ServerReply)
    requires w.cache.Stored? && w.cache.record.expires.Some? && now <= w.cache.record.expires.value
    ensures TokenAction(w, now, typed, reply) == Run(Ok(w.cache.record), w, [CacheRead])
  {
  }

  /** Resolving credentials touches only the keyring and the prompt. */
  lemma ResolveEvents(w: World, typed: Credentials)
    ensures forall e <- ResolveCredentials(w, typed).events :: e.KeyRead? || e.KeyWritten? || e.Prompted?
  {
  }

  /** Renewal prompts exactly when the keyring read failed or gave an empty URL. */
  lemma RenewPromptIff(w: World, typed: Credentials, reply: ServerReply)
    ensures Prompted in RenewToken(w, typed, reply).events <==> MustPrompt(GetCredentialsFromKeyring(w).result)
  {
    var stored := GetCredentialsFromKeyring(w);
    var creds := ResolveCredentials(w, typed);
    var auth := GetBearerToken(creds.after, creds.result.value, reply);
    var events := creds.events + auth.events;
    if auth.result.Ok? {
      assert RenewToken(w, typed, reply).events == events + [CacheWritten];
    } else {
      assert RenewToken(w, typed, reply).events == events;
    }
    if MustPrompt(stored.result) {
      assert events[|stored.events|] == Prompted;
    } else {
      assert forall e <- creds.events :: e.KeyRead?;
      assert Prompted !in events + [CacheWritten];
    }
  }

  /** The operator is prompted exactly when the cache is cold and the keyring read
      failed or gave an empty URL; an empty username or password alone does not. */
  lemma PromptIff(w: World, now: int, typed: Credentials, reply: ServerReply)
    ensures Prompted in TokenAction(w, now, typed, reply).events <==>
      CachedToken(w.cache, now).Err? && MustPrompt(GetCredentialsFromKeyring(w).result)
  {
    if CachedToken(w.cache, now).Err? {
      RenewPromptIff(w, typed, reply);
    }
  }

  /** Credentials typed at the prompt are in the keyring afterwards whether or not
      authentication succeeds (unless the backend refused a write). */
  lemma PromptedCredentialsPersist(w: World, now: int, typed: Credentials, reply: ServerReply)
    requires CachedToken(w.cache, now).Err?
    requires MustPrompt(GetCredentialsFromKeyring(w).result)
    requires UsernameKey !in w.refused && PasswordKey !in w.refused && UrlKey !in w.refused
    ensures GetCredentialsFromKeyring(TokenAction(w, now, typed, reply).after).result == Ok(typed)
  {
    SaveThenGet(w, typed);
  }

  /** Keyring credentials with a URL but an empty password are sent as they are. */
  lemma EmptyPasswordIsNotReprompted(w: World, now: int, typed: Credentials, reply: ServerReply)
    requires CachedToken(w.cache, now).Err?
    requires GetCredentialsFromKeyring(w).result.Ok?
    requires GetCredentialsFromKeyring(w).result.value.password == ""
    requires GetCredentialsFromKeyring(w).result.value.url != ""
    ensures Prompted !in TokenAction(w, now, typed, reply).events
    ensures AuthRequested(GetCredentialsFromKeyring(w).result.value) in TokenAction(w, now, typed, reply).events
  {
    PromptIff(w, now, typed, reply);
    var stored := GetCredentialsFromKeyring(w);
    assert TokenAction(w, now, typed, reply).events[1 + |stored.events|] == AuthRequested(stored.result.value);
  }

  /** An empty URL typed at the prompt is saved, and authentication then fails
      without any request. */
  lemma EmptyTypedUrlSendsNothing(w: World, now: int, typed: Credentials, reply: ServerReply)
    requires CachedToken(w.cache, now).Err?
    requires MustPrompt(GetCredentialsFromKeyring(w).result)
    requires typed.url == ""
    ensures TokenAction(w, now, typed, reply).result == Err(UrlEmpty)
    ensures Requests(TokenAction(w, now, typed, reply).events) == 0
    ensures TokenAction(w, now, typed, reply).after == SaveCredentialsToKeyring(w, typed).after
  {
    var creds := ResolveCredentials(w, typed);
    var events := [CacheRead] + (creds.events + []);
    assert TokenAction(w, now, typed, reply).events == events;
    ResolveEvents(w, typed);
    NoRequests(events);
  }

  /** A failed authentication leaves the cache as it was and never writes it. */
  lemma AuthFailureKeepsCache(w: World, now: int, typed: Credentials, reply: ServerReply)
    requires TokenAction(w, now, typed, reply).result.Err?
    ensures TokenAction(w, now, typed, reply).after.cache == w.cache
    ensures CacheWritten !in TokenAction(w, now, typed, reply).events
  {
    var creds := ResolveCredentials(w, typed);
    var auth := GetBearerToken(creds.after, creds.result.value, reply);
    ResolveEvents(w, typed);
    assert CacheWritten !in [CacheRead] + creds.events + auth.events;
  }

  /** A successful authentication on a cold cache replaces the cache wholesale with
      the new record (when the file can be written) and returns that record. */
  lemma SuccessReplacesCache(w: World, now: int, typed: Credentials, reply: ServerReply)
    requires CachedToken(w.cache, now).Err?
    requires TokenAction(w, now, typed, reply).result.Ok?
    requires w.cacheWritable
    ensures reply.Response? && reply.status == 200 && reply.body.Some?
    ensures TokenAction(w, now, typed, reply).result == Ok(reply.body.value)
    ensures TokenAction(w, now, typed, reply).after.cache == Stored(reply.body.value)
  {
  }

  /** Renewal sends at most one authentication request. */
  lemma RenewSendsAtMostOneRequest(w: World, typed: Credentials, reply: ServerReply)
    ensures Requests(RenewToken(w, typed, reply).events) <= 1
  {
    var creds := ResolveCredentials(w, typed);
    var auth := GetBearerToken(creds.after, creds.result.value, reply);
    ResolveEvents(w, typed);
    NoRequests(creds.events);
    RequestsAppend(creds.events, auth.events);
    if auth.result.Ok? {
      RequestsAppend(creds.events + auth.events, [CacheWritten]);
    }
  }

  /** Whatever happens, the `token` command sends at most one authentication request. */
  lemma AtMostOneRequest(w: World, now: int, typed: Credentials, reply: ServerReply)
    ensures Requests(TokenAction(w, now, typed, reply).events) <= 1
  {
    if CachedToken(w.cache, now).Err? {
      RenewSendsAtMostOneRequest(w, typed, reply);
      RequestsAppend([CacheRead], RenewToken(w, typed, reply).events);
    }
  }

  /** Resolving credentials does not look at the cache and leaves it alone. */
  lemma ResolveIgnoresCache(w: World, f: CacheFile, typed: Credentials)
    ensures var a := ResolveCredentials(w, typed);
            ResolveCredentials(w.(cache := f), typed) == Run(a.result, a.after.(cache := f), a.events)
  {
    var w' := w.(cache := f);
    assert GetCredentialsFromKeyring(w') == GetCredentialsFromKeyring(w).(after := w');
    var saved := SaveCredentialsToKeyring(w, typed);
    var saved' := SaveCredentialsToKeyring(w', typed);
    assert saved' == Run(saved.result, saved.after.(cache := f), saved.events);
  }

  /** Renewal does not look at the cache: started from two worlds that differ only in
      their cache file, it gives the same result, events and keyring, and the same
      cache too once it has written one. */
  lemma RenewIgnoresCache(w: World, f: CacheFile, typed: Credentials, reply: ServerReply)
    ensures var a := RenewToken(w, typed, reply);
            var b := RenewToken(w.(cache := f), typed, reply);
            b.result == a.result && b.events == a.events &&
            b.after == a.after.(cache := if a.result.Ok? && w.cacheWritable then a.after.cache else f)
  {
    ResolveIgnoresCache(w, f, typed);
  }

  /** A cached expired token and no cache file at all lead to the same result, the
      same keyring and the same events; only the cache file left behind after a
      failure differs, being each one's own. */
  lemma ExpiredCacheIsLikeMissing(w: World, rec: TokenRecord, now: int, typed: Credentials, reply: ServerReply)
    requires rec.expires.None? || now > rec.expires.value
    ensures var expired := TokenAction(w.(cache := Stored(rec)), now, typed, reply);
            var missing := TokenAction(w.(cache := Missing), now, typed, reply);
            expired.result == missing.result && expired.events == missing.events &&
            expired.after.keyring == missing.after.keyring &&
            (expired.result.Ok? && w.cacheWritable ==> expired.after.cache == missing.after.cache)
  {
    RenewIgnoresCache(w.(cache := Missing), Stored(rec), typed, reply);
  }

  /** A token obtained by the command is reused by the next invocation as long as
      its expiry has not passed. */
  lemma NewTokenIsReused(w: World, now: int, later: int, typed: Credentials, reply: ServerReply,
                         typed': Credentials, reply': ServerReply)
    requires TokenAction(w, now, typed, reply).result.Ok?
    requires w.cacheWritable
    requires now <= later
    requires TokenAction(w, now, typed, reply).result.value.expires.Some?
    requires later <= TokenAction(w, now, typed, reply).result.value.expires.value
    ensures var first := TokenAction(w, now, typed, reply);
            TokenAction(first.after, later, typed', reply') == Run(first.result, first.after, [CacheRead])
  {
    if CachedToken(w.cache, now).Err? {
      SuccessReplacesCache(w, now, typed, reply);
    }
  }

  // ---------------------------------------------------------------------------
  // Properties of `reset`, `lookup` and `email`

  /** Resetting when no cache file exists reports an error, so a second reset in a
      row always fails, though it still attempts every keyring deletion: with a
      removable cache file because the file is gone, otherwise because it still
      cannot be removed (or was never there). */
  lemma ResetTwiceFails(w: World)
    ensures var second := ResetCredentials(ResetCredentials(w).after);
            second.result.Err? && |second.events| == 4
    ensures w.cacheWritable ==> ResetCredentials(ResetCredentials(w).after).result == Err(NoCacheFile)
  {
  }

  /** After a reset on a backend that refuses nothing, the next `token` command
      starts from scratch: a cold cache and no stored credentials, so it prompts. */
  lemma ResetForcesPrompt(w: World, now: int, typed: Credentials, reply: ServerReply)
    requires w.refused !! CredentialKeys && w.cacheWritable
    ensures var after := ResetCredentials(w).after;
            after.cache == Missing &&
            GetCredentialsFromKeyring(after).result == Err(KeyNotFound(UsernameKey)) &&
            Prompted in TokenAction(after, now, typed, reply).events
  {
    var after := ResetCredentials(w).after;
    assert UsernameKey !in after.keyring;
    PromptIff(after, now, typed, reply);
  }

  /** `lookup` and `email` never ask for credentials and never authenticate; with
      an expired or missing token they fail instead. */
  lemma QueryNeverAuthenticates(w: World, now: int, filter: string)
    ensures Requests(DeviceQuery(w, now, filter).events) == 0
    ensures Prompted !in DeviceQuery(w, now, filter).events
    ensures CachedToken(w.cache, now).Err? ==> DeviceQuery(w, now, filter).result == Err(CachedToken(w.cache, now).error)
  {
    var events := DeviceQuery(w, now, filter).events;
    NoRequests(events);
  }
}
