/** The optional refresh-token vault: a sealed copy of the refresh token
    kept as a file in the user's Drive `appDataFolder`. */
module Vault {
  import opened JsValues
  import opened Tokens

  /** `options.drive.refreshTokenStash`; None when `options.drive` or the
      stash itself is missing. */
  datatype Stash = Stash(location: Option<Value>, file: string, key: string)

  /** `Iron.seal` and `Iron.unseal` under `Iron.defaults`, taking the stash
      key as second argument. Their internals are not modelled: None stands
      for a rejected promise. */
  datatype Iron = Iron(
    seal: (Value, string) -> Option<string>,
    unseal: (string, string) -> Option<Value>)

  /** The vault is used only for `location === 'appDataFolder'`. */
  predicate Configured(stash: Option<Stash>)
    ensures Configured(stash) ==> stash.Some? && stash.value.location.Some? && stash.value.location.value.Str?
    // strict equality: no other value, and no missing stash, turns the vault on
    ensures stash.Some? && stash.value.location != Some(Str("appDataFolder")) ==> !Configured(stash)
  {
    stash.Some? && stash.value.location == Some(Str("appDataFolder"))
  }

  /** The hidden application-data area of the user's Drive, file name to
      content. Whether a remote call gets through is an input (`reachable`). */
  class AppDataFolder {
    var files: map<string, string>

    constructor (files: map<string, string>)
      ensures this.files == files
    {
      this.files := files;
    }

    /** `upload2({folderPath: '', name, stream, clobber: true})`: an existing
        file of that name is overwritten. */
    method Upload2(name: string, content: string, reachable: bool) returns (ok: bool)
      modifies this
      ensures ok == reachable
      ensures files == if ok then old(files)[name := content] else old(files)
    {
      ok := reachable;
      if ok {
        files := files[name := content];
      }
    }

    /** `download(name)`: fails when the call does not get through or the file is missing. */
    method Download(name: string, reachable: bool) returns (blob: Option<string>)
      ensures blob.Some? <==> reachable && name in files
      ensures blob.Some? ==> blob.value == files[name]
    {
      if reachable && name in files {
        blob := Some(files[name]);
      } else {
        blob := None;
      }
    }
  }

  /** How the vault promise of hapiDriveConductor settles. */
  datatype VaultResult =
    | Proceed(tokens: Option<Bundle>, files: map<string, string>)  // resolved: go on to commit
    | Rejected                                                     // rejected: redirect to retry
    | Crash                                                        // TypeError: `tokens` is undefined

  /** The vault branch of hapiDriveConductor over the folder's files:
      persist the refresh token when there is one, recover it when there is not. */
  function VaultStep(stash: Option<Stash>, iron: Iron, tokens: Option<Bundle>,
                     files: map<string, string>, reachable: bool): (v: VaultResult)
    // not configured: the do-nothing placeholder
    ensures !Configured(stash) ==> v == Proceed(tokens, files)
    ensures Configured(stash) ==> (v.Crash? <==> tokens.None?)
    // a remote call that does not get through rejects
    ensures Configured(stash) && tokens.Some? && !reachable ==> v.Rejected?
    // persist: the sealed refresh token overwrites the stash file, the bundle is unchanged
    ensures Configured(stash) && tokens.Some? && HasRefresh(tokens.value) ==>
              (v.Proceed? <==> reachable && iron.seal(tokens.value.refresh_token.value, stash.value.key).Some?)
    ensures v.Proceed? && Configured(stash) && HasRefresh(tokens.value) ==>
              v.tokens == tokens &&
              v.files == files[stash.value.file := iron.seal(tokens.value.refresh_token.value, stash.value.key).value]
    // recover: the unsealed stored token becomes the bundle's refresh_token, the files are unchanged
    ensures Configured(stash) && tokens.Some? && !HasRefresh(tokens.value) ==>
              (v.Proceed? <==> reachable && stash.value.file in files &&
                               iron.unseal(files[stash.value.file], stash.value.key).Some?)
    ensures v.Proceed? && Configured(stash) && !HasRefresh(tokens.value) ==>
              v.files == files &&
              v.tokens == Some(tokens.value.(refresh_token := iron.unseal(files[stash.value.file], stash.value.key)))
  {
    if !Configured(stash) then Proceed(tokens, files)
    else if tokens.None? then Crash
    else
      var t, file, key := tokens.value, stash.value.file, stash.value.key;
      if HasRefresh(t) then
        match iron.seal(t.refresh_token.value, key)
        case None => Rejected
        case Some(sealed) => if reachable then Proceed(tokens, files[file := sealed]) else Rejected
      else if !reachable || file !in files then Rejected
      else
        match iron.unseal(files[file], key)
        case None => Rejected
        case Some(refresh) => Proceed(Some(t.(refresh_token := Some(refresh))), files)
  }

  /** What persisting stores, recovering gets back: given that Iron's unseal
      undoes its seal, a bundle without a refresh token recovers the one a
      previous persist stored. */
  lemma PersistThenRecover(stash: Option<Stash>, iron: Iron, t: Bundle, later: Bundle, files: map<string, string>)
    requires Configured(stash) && HasRefresh(t) && !HasRefresh(later)
    requires iron.seal(t.refresh_token.value, stash.value.key).Some?
    requires iron.unseal(iron.seal(t.refresh_token.value, stash.value.key).value, stash.value.key) == Some(t.refresh_token.value)
    ensures VaultStep(stash, iron, Some(t), files, true).Proceed?
    ensures var stored := VaultStep(stash, iron, Some(t), files, true).files;
            VaultStep(stash, iron, Some(later), stored, true) ==
              Proceed(Some(later.(refresh_token := t.refresh_token)), stored)
  {
  }
}
