/** The machine the tool runs on, as the tool changes it step by step: the keyring
    entries and the cache file are fields that the operations of
    build/1.7/mdm-xv.go update in place. Each method is proved to do exactly what
    the matching function of TokenCache, SecretStore or Lifecycle says, and a ghost
    trace records every access to the keyring, the cache file, the prompt and the
    authentication endpoint. */
module Host {
  import opened Wrappers
  import opened Storage
  import TokenCache
  import SecretStore
  import Lifecycle

  /** Appending to a trace in two steps or in one gives the same trace. */
  lemma AppendAssociative(a: seq<Event>, b: seq<Event>, c: seq<Event>)
    ensures a + b + c == a + (b + c)
  {
  }

  class Machine {
    var keyring: map<string, string>
    /** Keys the keyring backend refuses to read, write or delete. */
    const refused: set<string>
    var cache: CacheFile
    /** Whether the cache file can be created and removed. */
    const cacheWritable: bool
    ghost var trace: seq<Event>

    function State(): World
      reads this
    {
      World(keyring, refused, cache, cacheWritable)
    }

    constructor (w: World)
      ensures State() == w && trace == []
    {
      keyring, refused, cache, cacheWritable := w.keyring, w.refused, w.cache, w.cacheWritable;
      trace := [];
    }

    // -------------------------------------------------------------------------
    // The keyring backend (go-keyring) and the cache file

    method KeyringGet(key: string) returns (r: Result<string, Error>)
      modifies this`trace
      ensures var run := SecretStore.KeyringGet(old(State()), key);
              r == run.result && State() == run.after && trace == old(trace) + run.events
    {
      trace := trace + [KeyRead(key)];
      if key in refused {
        r := Err(KeyringRefused(key));
      } else if key !in keyring {
        r := Err(KeyNotFound(key));
      } else {
        r := Ok(keyring[key]);
      }
    }

    method KeyringSet(key: string, value: string) returns (r: Result<(), Error>)
      modifies this`keyring, this`trace
      ensures var run := SecretStore.KeyringSet(old(State()), key, value);
              r == run.result && State() == run.after && trace == old(trace) + run.events
    {
      trace := trace + [KeyWritten(key)];
      if key in refused {
        r := Err(KeyringRefused(key));
      } else {
        keyring := keyring[key := value];
        r := Ok(());
      }
    }

    method KeyringDelete(key: string) returns (r: Result<(), Error>)
      modifies this`keyring, this`trace
      ensures var run := SecretStore.KeyringDelete(old(State()), key);
              r == run.result && State() == run.after && trace == old(trace) + run.events
    {
      trace := trace + [KeyDeleted(key)];
      if key in refused {
        r := Err(KeyringRefused(key));
      } else if key !in keyring {
        r := Err(KeyNotFound(key));
      } else {
        keyring := keyring - {key};
        r := Ok(());
      }
    }

    /** readCachedToken */
    method ReadCachedToken(now: int) returns (r: Result<TokenRecord, Error>)
      modifies this`trace
      ensures var run := TokenCache.ReadCachedToken(old(State()), now);
              r == run.result && State() == run.after && trace == old(trace) + run.events
    {
      trace := trace + [CacheRead];
      r := TokenCache.CachedToken(cache, now);
    }

    /** writeCachedToken */
    method WriteCachedToken(rec: TokenRecord) returns (r: Result<(), Error>)
      modifies this`cache, this`trace
      ensures var run := TokenCache.WriteCachedToken(old(State()), rec);
              r == run.result && State() == run.after && trace == old(trace) + run.events
    {
      trace := trace + [CacheWritten];
      if !cacheWritable {
        r := Err(CacheNotWritable);
      } else {
        cache := Stored(rec);
        r := Ok(());
      }
    }

    /** os.Remove of the cache file */
    method RemoveTokenFile() returns (r: Result<(), Error>)
      modifies this`cache, this`trace
      ensures var run := TokenCache.RemoveTokenFile(old(State()));
              r == run.result && State() == run.after && trace == old(trace) + run.events
    {
      trace := trace + [CacheRemoved];
      if cache.Missing? {
        r := Err(NoCacheFile);
      } else if !cacheWritable {
        r := Err(CacheNotWritable);
      } else {
        cache := Missing;
        r := Ok(());
      }
    }

    // -------------------------------------------------------------------------
    // The tool's own operations

    method GetCredentialsFromKeyring() returns (r: Result<Credentials, Error>)
      modifies this`trace
      ensures var run := SecretStore.GetCredentialsFromKeyring(old(State()));
              r == run.result && State() == run.after && trace == old(trace) + run.events
    {
      var u := KeyringGet(UsernameKey);
      if u.Err? {
        return Err(u.error);
      }
      var p := KeyringGet(PasswordKey);
      if p.Err? {
        return Err(p.error);
      }
      var url := KeyringGet(UrlKey);
      if url.Err? {
        return Err(url.error);
      }
      r := Ok(Credentials(u.value, p.value, url.value));
    }

    method SaveCredentialsToKeyring(c: Credentials) returns (r: Result<(), Error>)
      modifies this`keyring, this`trace
      ensures var run := SecretStore.SaveCredentialsToKeyring(old(State()), c);
              r == run.result && State() == run.after && trace == old(trace) + run.events
    {
      r := KeyringSet(UsernameKey, c.username);
      if r.Err? {
        return;
      }
      r := KeyringSet(PasswordKey, c.password);
      if r.Err? {
        return;
      }
      r := KeyringSet(UrlKey, c.url);
    }

    /** promptCredentials: the operator's answer is the parameter. */
    method PromptCredentials(typed: Credentials) returns (c: Credentials)
      modifies this`trace
      ensures c == typed && trace == old(trace) + [Prompted]
    {
      trace := trace + [Prompted];
      c := typed;
    }

    /** getBearerToken: `reply` is what the server answers to the request, if one is sent. */
    method GetBearerToken(c: Credentials, reply: ServerReply) returns (r: Result<TokenRecord, Error>)
      modifies this`trace
      ensures var run := Lifecycle.GetBearerToken(old(State()), c, reply);
              r == run.result && State() == run.after && trace == old(trace) + run.events
    {
      if c.url == "" {
        return Err(UrlEmpty);
      }
      trace := trace + [AuthRequested(c)];
      match reply
      case Unreachable =>
        r := Err(RequestFailed);
      case Response(status, body) =>
        if status != 200 {
          r := Err(AuthFailed(status));
        } else if body.None? {
          r := Err(ResponseCorrupt);
        } else {
          r := Ok(body.value);
        }
    }

    /** resetCredentials */
    method ResetCredentials() returns (r: Result<(), Error>)
      modifies this`keyring, this`cache, this`trace
      ensures var run := Lifecycle.ResetCredentials(old(State()));
              r == run.result && State() == run.after && trace == old(trace) + run.events
    {
      var ignored := KeyringDelete(UsernameKey);
      ignored := KeyringDelete(PasswordKey);
      ignored := KeyringDelete(UrlKey);
      r := RemoveTokenFile();
    }

    /** The keyring's credentials, or the prompt's answer saved to the keyring. */
    method ResolveCredentials(typed: Credentials) returns (c: Credentials)
      modifies this`keyring, this`trace
      ensures var run := Lifecycle.ResolveCredentials(old(State()), typed);
              Ok(c) == run.result && State() == run.after && trace == old(trace) + run.events
    {
      ghost var w := State();
      var stored := GetCredentialsFromKeyring();
      ghost var fromKeyring := SecretStore.GetCredentialsFromKeyring(w);
      if stored.Err? || stored.value.url == "" {
        c := PromptCredentials(typed);
        assert State() == w;
        ghost var prompted := fromKeyring.events + [Prompted];
        AppendAssociative(old(trace), fromKeyring.events, [Prompted]);
        var ignored := SaveCredentialsToKeyring(c);
        ghost var saved := SecretStore.SaveCredentialsToKeyring(w, typed);
        AppendAssociative(old(trace), prompted, saved.events);
      } else {
        c := stored.value;
      }
    }

    /** The `token` command once the cache has missed. */
    method RenewToken(typed: Credentials, reply: ServerReply) returns (r: Result<TokenRecord, Error>)
      modifies this`keyring, this`cache, this`trace
      ensures var run := Lifecycle.RenewToken(old(State()), typed, reply);
              r == run.result && State() == run.after && trace == old(trace) + run.events
    {
      var creds := ResolveCredentials(typed);
      var token := GetBearerToken(creds, reply);
      if token.Err? {
        return Err(token.error);
      }
      var ignored := WriteCachedToken(token.value);
      r := Ok(token.value);
    }

    /** The `token` command: a valid cached token as it is, otherwise a renewed one. */
    method Token(now: int, typed: Credentials, reply: ServerReply) returns (r: Result<TokenRecord, Error>)
      modifies this`keyring, this`cache, this`trace
      ensures var run := Lifecycle.TokenAction(old(State()), now, typed, reply);
              r == run.result && State() == run.after && trace == old(trace) + run.events
    {
      ghost var w := State();
      ghost var t := trace;
      var cached := ReadCachedToken(now);
      if cached.Ok? {
        assert Lifecycle.TokenAction(w, now, typed, reply) == TokenCache.ReadCachedToken(w, now);
        return cached;
      }
      ghost var renewed := Lifecycle.RenewToken(w, typed, reply);
      assert Lifecycle.TokenAction(w, now, typed, reply) == Run(renewed.result, renewed.after, [CacheRead] + renewed.events);
      r := RenewToken(typed, reply);
      AppendAssociative(t, [CacheRead], renewed.events);
    }

    /** The front half shared by the `lookup` and `email` commands. */
    method DeviceQuery(now: int, filter: string) returns (r: Result<Lifecycle.Query, Error>)
      modifies this`trace
      ensures var run := Lifecycle.DeviceQuery(old(State()), now, filter);
              r == run.result && State() == run.after && trace == old(trace) + run.events
    {
      var tokenData := ReadCachedToken(now);
      if tokenData.Err? {
        return Err(tokenData.error);
      }
      var url := KeyringGet(UrlKey);
      if url.Err? {
        return Err(url.error);
      }
      r := Ok(Lifecycle.Query(url.value, tokenData.value.token, filter));
    }

    /** The `lookup` command, up to the inventory query it would run. `serial` is the
        trimmed answer to the serial-number prompt, which Go reads only once the
        cache and URL checks have passed. */
    method Lookup(now: int, serial: string) returns (r: Result<Lifecycle.Query, Error>)
      modifies this`trace
      ensures var run := Lifecycle.DeviceQuery(old(State()), now, Lifecycle.SerialFilter(serial));
              r == run.result && State() == run.after && trace == old(trace) + run.events
    {
      r := DeviceQuery(now, Lifecycle.SerialFilter(serial));
    }

    /** The `email` command, up to the inventory query it would run. `email` is the
        trimmed answer to the email prompt, read only once both checks have passed. */
    method Email(now: int, email: string) returns (r: Result<Lifecycle.Query, Error>)
      modifies this`trace
      ensures var run := Lifecycle.DeviceQuery(old(State()), now, Lifecycle.EmailFilter(email));
              r == run.result && State() == run.after && trace == old(trace) + run.events
    {
      r := DeviceQuery(now, Lifecycle.EmailFilter(email));
    }
  }
}
