# mdm-xv token lifecycle, modelled in Dafny

mdm-xv is a command-line tool for an MDM (mobile device management) REST backend.
It keeps the operator's username, password and server URL in the OS keyring, under
the service `mdm_xv_token_tool`. It caches a bearer token with its expiry in a JSON
file. The `lookup` and `email` commands query the device inventory with that token.

This project models the tool's token lifecycle from `build/1.7/mdm-xv.go`:

- reading the cache, with its expiry check;
- overwriting the cache and removing it;
- reading and writing the three keyring keys;
- authentication (`getBearerToken`);
- the `token` command (reuse the cached token, or fetch credentials, prompt if needed, authenticate and write the cache);
- the `reset` command;
- the part of `lookup` and `email` that needs a cached token;
- the dotted-path JSON lookup `getNested`.

Layout:

- `storage.dfy` (module `Storage`) is the data model. A `World` value is the outside state the tool sees:
  - `keyring`: the keyring entries;
  - `refused`: the keys the keyring backend refuses to read, write or delete;
  - `cache`: the cache file, which is `Missing`, `Corrupt` (not a JSON token record) or `Stored(record)`;
  - `cacheWritable`: whether the cache file can be created and removed.

  Every operation is specified as a function from the world before to a `Run`. A `Run` holds the result, the world after, and the events in order. Events are keyring reads, writes and deletes; cache reads, writes and removals; the prompt; and authentication requests. Events let the contracts say what an operation did NOT touch.
- `token_cache.dfy` (`TokenCache`) and `secret_store.dfy` (`SecretStore`) specify the two stores.
- `lifecycle.dfy` (`Lifecycle`) specifies authentication and the commands, with the lemmas about the `token` and `reset` commands.
- `host.dfy` (`Host`) gives the same operations in imperative form. Class `Machine` holds the keyring map and the cache file as fields. Its methods update those fields step by step, as the Go code does, and a ghost `trace` records the events. Each method is proved to match its specifying function.
- `nested.dfy` (`Nested`) models `getNested`, with `strings.Split` on `.`. The lookup is a loop (`GetNested`) proved equal to a recursive function. Lemmas on that function cover each outcome.

Time is an integer (seconds). An `expires` string becomes the instant it denotes, or `None` when it does not parse as RFC 3339. Three inputs are parameters of the operations:

- `now`: the current time;
- `typed`: what the operator would type at the prompt;
- `reply`: what the server would answer to an authentication request.

Four behaviours of the code worth noting, all of which the model keeps:

- A cached token is still valid at its exact expiry instant. The check is `now.After(expires)`, so it is valid whenever `now <= expires`.
- Besides a failed keyring read, only an empty stored URL forces the prompt; an empty username or password is sent as it is.
- `reset` reports an error when no cache file exists, because it returns the error of `os.Remove`. So a second `reset` in a row always fails: with a removable cache file because the file is gone, otherwise because it still cannot be removed.
- The keyring read stops at the first key that cannot be read.

## Model

| member | source | states |
|---|---|---|
| `TokenCache.CachedToken` | build/1.7/mdm-xv.go:44-56 | a cache file is accepted iff it exists, decodes, its expiry parses and `now` is not after it; the record is returned unchanged; a missing file, a corrupt file and an expired or unparsable record give three distinct errors |
| `TokenCache.ReadCachedToken` | build/1.7/mdm-xv.go:42-57 | reading the cache changes nothing and accepts exactly the records `CachedToken` accepts |
| `TokenCache.WriteCachedToken` | build/1.7/mdm-xv.go:59-68 | the cache is replaced wholesale by the new record when the file can be created; otherwise an error and nothing changes |
| `TokenCache.RemoveTokenFile` | build/1.7/mdm-xv.go:174 | removal succeeds iff a file exists and may be removed, and leaves no file; removing a missing file is an error |
| `TokenCache.WriteThenRead` | build/1.7/mdm-xv.go:52-67 | a written record is read back unchanged up to and including its expiry instant |
| `TokenCache.ExpiryBoundary` | build/1.7/mdm-xv.go:52-55 | expiry equal to `now` is valid; one second earlier is expired; an unparsable expiry is expired |
| `TokenCache.RemoveTwice` | build/1.7/mdm-xv.go:174 | after a removal the cache reads as missing and a second removal fails |
| `SecretStore.KeyringGet` | build/1.7/mdm-xv.go:71-74 | a keyring read succeeds iff the key exists and is not refused, returns the stored value and changes nothing; an absent key reports not-found and a refused key the refusal |
| `SecretStore.KeyringSet` | build/1.7/mdm-xv.go:87-89 | a keyring write succeeds iff the key is not refused and then stores exactly that value |
| `SecretStore.KeyringDelete` | build/1.7/mdm-xv.go:171 | a keyring delete removes the key unless it is refused; deleting an absent key reports not-found and a refused key reports the refusal |
| `SecretStore.GetCredentialsFromKeyring` | build/1.7/mdm-xv.go:70-84 | credentials are returned iff all three keys are readable, with the stored values; reads happen in the order username, password, url and stop at the first unreadable key, so a success reads all three; nothing changes |
| `SecretStore.SaveCredentialsToKeyring` | build/1.7/mdm-xv.go:86-94 | writes happen in the order username, password, url; the first refused write stops the sequence, so no later write is attempted and the later keys are as they were; success iff none is refused; only the keyring changes |
| `SecretStore.DeleteCredentials` | build/1.7/mdm-xv.go:170-173 | all three deletions are attempted whatever their outcome; afterwards every non-refused credential key is gone and every other entry is unchanged |
| `SecretStore.SaveThenGet` | build/1.7/mdm-xv.go:70-94 | a complete save followed by a read returns exactly the saved credentials |
| `SecretStore.PartialKeyringIsAbsent` | build/1.7/mdm-xv.go:70-84 | a keyring missing any one of the three keys yields no credentials |
| `Lifecycle.GetBearerToken` | build/1.7/mdm-xv.go:114-137 | an empty URL fails with no request sent; otherwise exactly one request is sent; success iff the reply is 200 with a decodable body, whose record is returned; any other status is an error |
| `Lifecycle.ResolveCredentials` | build/1.7/mdm-xv.go:242-246 | the keyring credentials are used as they are unless the read failed or the URL is empty; then the typed credentials are saved (errors ignored) and used |
| `Lifecycle.ResetCredentials` | build/1.7/mdm-xv.go:170-175 | deletes the three keys, then removes the cache file; the result is exactly the removal's result, so it fails iff there is no cache file or it cannot be removed |
| `Lifecycle.DeviceQuery` | build/1.7/mdm-xv.go:262-269 | `lookup`/`email` proceed iff the cached token is valid and the URL key is readable, use that token and URL, touch only the cache file and the URL key, and change nothing |
| `Lifecycle.RenewToken` | build/1.7/mdm-xv.go:242-255 | once the cache has missed, the result is exactly `getBearerToken`'s for the resolved credentials; the keyring is as credential resolution left it; the cache holds the new record only when authentication succeeded and the file could be written, and is untouched otherwise, the write's error being discarded |
| `Lifecycle.TokenAction` | build/1.7/mdm-xv.go:235-256 | a valid cached token is returned as read with nothing changed and only a cache read; otherwise the command returns exactly `getBearerToken`'s result (an authentication error is returned as it is; a success is returned even when the cache write fails), after one cache read, the keyring is as credential resolution left it, the cache holds the new record only when authentication succeeded and the file could be written, and nothing else changes |
| `Lifecycle.WarmCacheShortCircuits` | build/1.7/mdm-xv.go:236-241 | with a valid cached token the command returns it, changes nothing and does nothing but read the cache: no keyring access, no prompt, no request, no write |
| `Lifecycle.ResolveEvents` | build/1.7/mdm-xv.go:242-246 | resolving credentials only touches the keyring and the prompt |
| `Lifecycle.RenewPromptIff` | build/1.7/mdm-xv.go:242-246 | the renewal prompts iff the keyring read failed or gave an empty URL |
| `Lifecycle.PromptIff` | build/1.7/mdm-xv.go:236-246 | the command prompts iff the cache is not valid and the keyring read failed or gave an empty URL |
| `Lifecycle.PromptedCredentialsPersist` | build/1.7/mdm-xv.go:243-249 | when the cache misses, the keyring read calls for the prompt and the backend refuses none of the three keys, the typed credentials are in the keyring afterwards whether or not authentication succeeds |
| `Lifecycle.EmptyPasswordIsNotReprompted` | build/1.7/mdm-xv.go:242-247 | stored credentials with a URL but an empty password cause no prompt and are sent as they are |
| `Lifecycle.EmptyTypedUrlSendsNothing` | build/1.7/mdm-xv.go:243-249 | an empty typed URL is saved, then the command fails with "URL is empty" without sending any request, and nothing else changes |
| `Lifecycle.AuthFailureKeepsCache` | build/1.7/mdm-xv.go:247-250 | when the command fails the cache file is as before and was never written |
| `Lifecycle.SuccessReplacesCache` | build/1.7/mdm-xv.go:247-251 | when the cache misses and the cache file can be written, a command that succeeds had a 200 reply, returns the server's record, and that record is the whole cache content |
| `Lifecycle.RenewSendsAtMostOneRequest` | build/1.7/mdm-xv.go:242-251 | the renewal sends at most one authentication request |
| `Lifecycle.AtMostOneRequest` | build/1.7/mdm-xv.go:235-256 | the command sends at most one authentication request, whatever the state |
| `Lifecycle.ResolveIgnoresCache` | build/1.7/mdm-xv.go:242-246 | resolving credentials neither reads nor changes the cache file |
| `Lifecycle.RenewIgnoresCache` | build/1.7/mdm-xv.go:242-251 | the renewal never reads the cache: from worlds that differ only in their cache it gives the same result, events and keyring |
| `Lifecycle.ExpiredCacheIsLikeMissing` | build/1.7/mdm-xv.go:236-251 | an expired or unparsable cached record and no cache file give the same result, events and keyring |
| `Lifecycle.NewTokenIsReused` | build/1.7/mdm-xv.go:236-251 | when the cache file can be written, a token the command obtained is returned by a later run until its expiry, with nothing but a cache read |
| `Lifecycle.ResetTwiceFails` | build/1.7/mdm-xv.go:170-175 | a reset right after a reset always fails, still after attempting all three deletions; when the cache file can be removed the error is the missing file |
| `Lifecycle.ResetForcesPrompt` | build/1.7/mdm-xv.go:170-175 | when the backend refuses none of the three keys and the cache file can be removed, a reset leaves no cache and no credentials, so the next `token` command prompts |
| `Lifecycle.QueryNeverAuthenticates` | build/1.7/mdm-xv.go:262-265 | `lookup`/`email` never ask for credentials or authenticate; with no valid cached token they fail with the cache's error |
| `Host.Machine.KeyringGet` | build/1.7/mdm-xv.go:71-74 | matches `SecretStore.KeyringGet` on the fields and the trace |
| `Host.Machine.KeyringSet` | build/1.7/mdm-xv.go:87-89 | updates the keyring field as `SecretStore.KeyringSet` says |
| `Host.Machine.KeyringDelete` | build/1.7/mdm-xv.go:171 | updates the keyring field as `SecretStore.KeyringDelete` says |
| `Host.Machine.ReadCachedToken` | build/1.7/mdm-xv.go:42-57 | matches `TokenCache.ReadCachedToken` and changes no field |
| `Host.Machine.WriteCachedToken` | build/1.7/mdm-xv.go:59-68 | overwrites the cache field as `TokenCache.WriteCachedToken` says |
| `Host.Machine.RemoveTokenFile` | build/1.7/mdm-xv.go:174 | clears the cache field as `TokenCache.RemoveTokenFile` says |
| `Host.Machine.GetCredentialsFromKeyring` | build/1.7/mdm-xv.go:70-84 | three keyring reads with early exit, matching `SecretStore.GetCredentialsFromKeyring` |
| `Host.Machine.SaveCredentialsToKeyring` | build/1.7/mdm-xv.go:86-94 | three keyring writes with early exit, matching `SecretStore.SaveCredentialsToKeyring` |
| `Host.Machine.PromptCredentials` | build/1.7/mdm-xv.go:96-112 | returns the operator's answer and records the prompt |
| `Host.Machine.GetBearerToken` | build/1.7/mdm-xv.go:114-137 | matches `Lifecycle.GetBearerToken`, recording a request only for a non-empty URL |
| `Host.Machine.ResetCredentials` | build/1.7/mdm-xv.go:170-175 | three deletions with errors ignored, then the removal whose result it returns, matching `Lifecycle.ResetCredentials` |
| `Host.Machine.ResolveCredentials` | build/1.7/mdm-xv.go:242-246 | keyring read, then prompt and save when needed, matching `Lifecycle.ResolveCredentials` |
| `Host.Machine.RenewToken` | build/1.7/mdm-xv.go:242-255 | resolve, authenticate, then write the cache on success only, matching `Lifecycle.RenewToken` |
| `Host.Machine.Token` | build/1.7/mdm-xv.go:235-256 | matches `Lifecycle.TokenAction` on result, fields and trace: a valid cached token with only a cache read, otherwise one cache read followed by the renewal |
| `Host.Machine.DeviceQuery` | build/1.7/mdm-xv.go:262-269 | matches `Lifecycle.DeviceQuery` and changes no field |
| `Host.Machine.Lookup` | build/1.7/mdm-xv.go:261-274 | the query for `hardware.serialNumber=="<serial>"` under the `DeviceQuery` conditions |
| `Host.Machine.Email` | build/1.7/mdm-xv.go:293-306 | the query for `userAndLocation.email=="<email>"` under the `DeviceQuery` conditions |
| `Nested.Split` | build/1.7/mdm-xv.go:140 | splitting yields at least one piece, and no piece contains the separator |
| `Nested.SplitPrefix` | build/1.7/mdm-xv.go:140 | a separator-free prefix only extends the first piece of a split |
| `Nested.JoinSplit` | build/1.7/mdm-xv.go:140 | joining the pieces of a split gives back the path |
| `Nested.SplitJoin` | build/1.7/mdm-xv.go:140 | splitting the join of separator-free pieces gives back the pieces |
| `Nested.GetNested` | build/1.7/mdm-xv.go:139-154 | the loop that walks the path returns exactly the segment-by-segment lookup over the split path |
| `Nested.LookupStopsAtScalar` | build/1.7/mdm-xv.go:143-147 | reaching a non-object value returns its rendering, whatever segments remain |
| `Nested.LookupMissingKey` | build/1.7/mdm-xv.go:143-151 | a missing segment makes the result `""` |
| `Nested.Lookup` | build/1.7/mdm-xv.go:142-153 | the walk over the segments: a path whose every segment leads to an object gives `""`, and a non-empty result needs the first segment to be present |
| `Nested.LookupFindsScalar` | build/1.7/mdm-xv.go:139-154 | a non-empty result is the rendering of a value reached through objects along the path |

## Left out

- HTTP: the transport, the `POST` to `{url}/api/v1/auth/token` and the Basic-auth header (RFC 7617). `ServerReply` stands for the server's answer: no answer, or a status with a body that does or does not decode. A malformed URL that `http.NewRequest` rejects is folded into "no answer", and it is recorded as one authentication request even though Go sends none.
- RFC 3339 parsing (section 5.6 of RFC 3339), time zones and sub-second precision. `expires` is an integer instant, or `None` when it does not parse. `now` is a parameter.
- File-system details are not modelled: the path under the home directory, `os.UserHomeDir`, the ignored `MkdirAll` error, and JSON encoding of the cache file. A write either stores the whole record or fails before touching the file. The model never produces a file truncated by a failed encode. A cache file that exists but cannot be read is not modelled.
- The three empty strings Go returns alongside a keyring read error. The model returns only the error; the `token` command replaces the strings with the prompt's answer in that case.
- The keyring service name `mdm_xv_token_tool`. All three keys live under it, so the model's keyring map is that one service's entries.
- The go-keyring OS backend. It is a map. Failures come from a fixed set of refused keys; a backend whose failures change during one command is not modelled.
- `promptCredentials`: the terminal reads, the password echo suppression and `TrimSpace`. The operator's trimmed answer is the `typed` parameter.
- Printing of the token and its formatted expiry, the error message, `os.Exit`, and the `urfave/cli` wiring.
- The serial-number and email prompts of `lookup` and `email` and the `TrimSpace` of the answer. The trimmed answer is the `serial` or `email` parameter of `Host.Machine.Lookup` and `Host.Machine.Email`. Go reads it only after both the cache check and the URL read have passed, so a failing check never reaches the prompt. The model's trace does not record this prompt.
- `queryDevicesByFilter` (the `curl` subprocess), decoding its JSON output, the "no device found" messages and `printDeviceTable` (table layout and FileVault colouring). The `lookup` and `email` commands are modelled up to the query they would send.
- `fmt.Sprintf("%v", ...)` in `getNested`. A non-object JSON value is kept as the text `%v` prints for it (`Json.Scalar`).
- `getNested` never modifying `data` is not stated as a lemma. In the model `data` is an immutable value, so this holds by construction. Go map aliasing is not modelled.
- Concurrent runs racing on the cache file.
