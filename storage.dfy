/** The data model of mdm-xv's token lifecycle: the token record, the cache file,
    the credential triple, the authentication server's reply, the errors, and the
    outside world the tool reads and writes (the OS keyring and the cache file). */
module Storage {
  import opened Wrappers

  /** The three keyring keys. Every one lives under the tool's single keyring
      service, so the service name is left implicit. */
  const UsernameKey: string := "username"
  const PasswordKey: string := "password"
  const UrlKey: string := "url"

  /** The three keyring keys in the order the tool reads, writes and deletes them. */
  const CredentialOrder: seq<string> := [UsernameKey, PasswordKey, UrlKey]
  const CredentialKeys: set<string> := {UsernameKey, PasswordKey, UrlKey}

  /** A token response `{token, expires}`. The RFC 3339 `expires` string is kept as
      the instant it denotes (in seconds); None stands for a string that does not parse. */
  datatype TokenRecord = TokenRecord(token: string, expires: Option<int>)

  /** The cache file `mdm_token.json`: absent, present but not decodable JSON, or a record. */
  datatype CacheFile = Missing | Corrupt | Stored(record: TokenRecord)

  datatype Credentials = Credentials(username: string, password: string, url: string)

  /** What the authentication endpoint does with one request: no answer at all (the
      request could not be built or sent), or an HTTP status with a body that decodes
      to a token record (Some) or does not (None). */
  datatype ServerReply = Unreachable | Response(status: int, body: Option<TokenRecord>)

  datatype Error =
    | NoCacheFile            // the cache file does not exist
    | CacheCorrupt           // the cache file is not a JSON token record
    | TokenExpired           // expiry unparsable or in the past ("token expired")
    | CacheNotWritable       // the cache file cannot be created or removed
    | KeyNotFound(key: string)
    | KeyringRefused(key: string)
    | UrlEmpty               // "URL is empty"
    | RequestFailed          // the request could not be built or sent
    | AuthFailed(status: int)
    | ResponseCorrupt        // the 200 body is not a token record

  /** Every interaction with the outside world, in the order it happens. */
  datatype Event =
    | CacheRead
    | CacheWritten
    | CacheRemoved
    | KeyRead(key: string)
    | KeyWritten(key: string)
    | KeyDeleted(key: string)
    | Prompted
    | AuthRequested(creds: Credentials)

  /** The outside world. `refused` holds the keys the OS keyring backend refuses to
      read, write or delete (a locked or access-denied item); `cacheWritable` says
      whether the cache directory lets the tool create and remove the file. Neither
      is changed by the tool. */
  datatype World = World(keyring: map<string, string>, refused: set<string>,
                         cache: CacheFile, cacheWritable: bool)

  /** One operation's outcome: its result, the world afterwards and what it did. */
  datatype Run<+T> = Run(result: Result<T, Error>, after: World, events: seq<Event>)
}
