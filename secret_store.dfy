/** The OS keyring as the tool uses it: three keys under one service, read by
    getCredentialsFromKeyring and written by saveCredentialsToKeyring
    (build/1.7/mdm-xv.go:70-94). The go-keyring backend is an in-memory map whose
    refused keys fail every access. */
module SecretStore {
  import opened Wrappers
  import opened Storage

  /** keyring.Get succeeds on this key. */
  predicate Readable(w: World, key: string) {
    key in w.keyring && key !in w.refused
  }

  /** keyring.Get: the stored secret, or ErrNotFound when the key is absent. */
  function KeyringGet(w: World, key: string): (run: Run<string>)
    ensures run.after == w && run.events == [KeyRead(key)]
    ensures run.result.Ok? <==> Readable(w, key)
    ensures run.result.Ok? ==> run.result.value == w.keyring[key]
    ensures key in w.refused ==> run.result == Err(KeyringRefused(key))
    ensures key !in w.refused && key !in w.keyring ==> run.result == Err(KeyNotFound(key))
  {
    if key in w.refused then Run(Err(KeyringRefused(key)), w, [KeyRead(key)])
    else if key !in w.keyring then Run(Err(KeyNotFound(key)), w, [KeyRead(key)])
    else Run(Ok(w.keyring[key]), w, [KeyRead(key)])
  }

  /** keyring.Set: stores (or replaces) one secret. */
  function KeyringSet(w: World, key: string, value: string): (run: Run<()>)
    ensures run.events == [KeyWritten(key)]
    ensures run.result.Ok? <==> key !in w.refused
    ensures run.after == if run.result.Ok? then w.(keyring := w.keyring[key := value]) else w
  {
    if key in w.refused then Run(Err(KeyringRefused(key)), w, [KeyWritten(key)])
    else Run(Ok(()), w.(keyring := w.keyring[key := value]), [KeyWritten(key)])
  }

  /** keyring.Delete: removes one secret, ErrNotFound when it is absent. */
  function KeyringDelete(w: World, key: string): (run: Run<()>)
    ensures run.events == [KeyDeleted(key)]
    ensures run.result.Ok? <==> Readable(w, key)
    ensures run.after == if key in w.refused then w else w.(keyring := w.keyring - {key})
    ensures key in w.refused ==> run.result == Err(KeyringRefused(key))
    ensures key !in w.refused && key !in w.keyring ==> run.result == Err(KeyNotFound(key))
  {
    if key in w.refused then Run(Err(KeyringRefused(key)), w, [KeyDeleted(key)])
    else if key !in w.keyring then Run(Err(KeyNotFound(key)), w, [KeyDeleted(key)])
    else Run(Ok(()), w.(keyring := w.keyring - {key}), [KeyDeleted(key)])
  }

  /** getCredentialsFromKeyring: reads username, password and url in that order and
      stops at the first key that cannot be read. */
  function GetCredentialsFromKeyring(w: World): (run: Run<Credentials>)
    ensures run.after == w
    ensures run.result.Ok? <==> Readable(w, UsernameKey) && Readable(w, PasswordKey) && Readable(w, UrlKey)
    ensures run.result.Ok? ==>
      run.result.value == Credentials(w.keyring[UsernameKey], w.keyring[PasswordKey], w.keyring[UrlKey])
    ensures 1 <= |run.events| <= 3
    ensures forall i :: 0 <= i < |run.events| ==> run.events[i] == KeyRead(CredentialOrder[i])
    ensures forall i :: 0 <= i < |run.events| - 1 ==> Readable(w, CredentialOrder[i])
    ensures run.result.Err? ==> !Readable(w, CredentialOrder[|run.events| - 1])
    ensures run.result.Ok? ==> |run.events| == 3
  {
    var u := KeyringGet(w, UsernameKey);
    if u.result.Err? then Run(Err(u.result.error), w, u.events)
    else
      var p := KeyringGet(w, PasswordKey);
      if p.result.Err? then Run(Err(p.result.error), w, u.events + p.events)
      else
        var url := KeyringGet(w, UrlKey);
        if url.result.Err? then Run(Err(url.result.error), w, u.events + p.events + url.events)
        else Run(Ok(Credentials(u.result.value, p.result.value, url.result.value)), w,
                 u.events + p.events + url.events)
  }

  /** saveCredentialsToKeyring: writes username, password and url in that order and
      stops at the first write that fails, leaving the later keys as they were. */
  function SaveCredentialsToKeyring(w: World, c: Credentials): (run: Run<()>)
    ensures run.after == w.(keyring := run.after.keyring)
    ensures run.result.Ok? <==> UsernameKey !in w.refused && PasswordKey !in w.refused && UrlKey !in w.refused
    ensures UsernameKey in w.refused ==> run.after.keyring == w.keyring
    ensures UsernameKey !in w.refused && PasswordKey in w.refused ==>
      run.after.keyring == w.keyring[UsernameKey := c.username]
    ensures UsernameKey !in w.refused && PasswordKey !in w.refused && UrlKey in w.refused ==>
      run.after.keyring == w.keyring[UsernameKey := c.username][PasswordKey := c.password]
    ensures run.result.Ok? ==>
      run.after.keyring == w.keyring[UsernameKey := c.username][PasswordKey := c.password][UrlKey := c.url]
    ensures |run.events| == if UsernameKey in w.refused then 1 else if PasswordKey in w.refused then 2 else 3
    ensures forall i :: 0 <= i < |run.events| ==> run.events[i] == KeyWritten(CredentialOrder[i])
  {
    var u := KeyringSet(w, UsernameKey, c.username);
    if u.result.Err? then u
    else
      var p := KeyringSet(u.after, PasswordKey, c.password);
      if p.result.Err? then Run(p.result, p.after, u.events + p.events)
      else
        var url := KeyringSet(p.after, UrlKey, c.url);
        Run(url.result, url.after, u.events + p.events + url.events)
  }

  /** The keyring half of resetCredentials: deletes username, password and url in
      that order, each attempted whatever became of the previous one. Every key the
      backend does not refuse is gone afterwards; nothing else changes. */
  function DeleteCredentials(w: World): (run: Run<()>)
    ensures run.result.Ok?
    ensures run.events == [KeyDeleted(UsernameKey), KeyDeleted(PasswordKey), KeyDeleted(UrlKey)]
    ensures run.after == w.(keyring := run.after.keyring)
    ensures forall k :: k in run.after.keyring <==> k in w.keyring && (k !in CredentialKeys || k in w.refused)
    ensures forall k :: k in run.after.keyring ==> run.after.keyring[k] == w.keyring[k]
  {
    var u := KeyringDelete(w, UsernameKey);
    var p := KeyringDelete(u.after, PasswordKey);
    var url := KeyringDelete(p.after, UrlKey);
    Run(Ok(()), url.after, u.events + p.events + url.events)
  }

  /** A complete save followed by a read gives back exactly the saved triple. */
  lemma SaveThenGet(w: World, c: Credentials)
    requires UsernameKey !in w.refused && PasswordKey !in w.refused && UrlKey !in w.refused
    ensures GetCredentialsFromKeyring(SaveCredentialsToKeyring(w, c).after).result == Ok(c)
  {
  }

  /** A keyring missing any one of the three keys yields no credentials at all. */
  lemma PartialKeyringIsAbsent(w: World, key: string)
    requires key in CredentialKeys && key !in w.keyring
    ensures GetCredentialsFromKeyring(w).result.Err?
  {
  }
}
