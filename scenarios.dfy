/** Concrete callback runs: what the conductor replies and commits for
    particular stores and vault settings. */
module Scenarios {
  import opened JsValues
  import opened Tokens
  import opened Vault
  import opened Plugin
  import opened Lifecycle

  function Issued(access: string, refresh: Option<string>): Bundle
  {
    Bundle(Some(Str(access)), if refresh.Some? then Some(Str(refresh.value)) else None, None, None, map[])
  }

  /** What the conductor itself does on the callback, its reply included,
      once onPreAuth has run: a client is attached when the resolved bundle
      has an access token. `Step` keeps the store and the files but drops
      the reply, so each scenario also states that the whole request, with
      onPostHandler, ends with the store the conductor left. */
  function Callback(s: Snap, cfg: Config, iron: Iron, files: map<string, string>, reachable: bool): Conducted
  {
    ConductSpec(Some(AfterResolve(s)), Attached(Some(s)).Some?, cfg, iron, files, reachable)
  }

  /** A fresh grant with both tokens and no vault: both are committed to
      bugle, the grant slot is cleared, and the user lands on `/a/me`. */
  lemma ScenarioFreshLogin(iron: Iron, files: map<string, string>, reachable: bool)
    ensures var b := Issued("a1", Some("r1"));
            Callback(Snap(Some(GrantCookie(Some(b))), None), Config(None, None), iron, files, reachable)
              == Conducted(Redirect("/a/me"), Some(Snap(None, Some(b))), files)
    ensures var b := Issued("a1", Some("r1"));
            var cfg := Config(None, None);
            Step(World(Snap(Some(GrantCookie(Some(b))), None), files), CallbackVisit(cfg, iron, reachable))
              == World(Snap(None, Some(b)), files)
  {
  }

  /** A fresh grant with only an access token, the vault configured but
      holding no file: the download fails, so the user is sent to retry and
      the grant stays where it was. */
  lemma ScenarioEmptyVault(iron: Iron, reachable: bool)
    ensures var b := Issued("a2", None);
            var cfg := Config(Some(Stash(Some(Str("appDataFolder")), "refresh.txt", "secret")), None);
            var s := Snap(Some(GrantCookie(Some(b))), None);
            Callback(s, cfg, iron, map[], reachable) == Conducted(Redirect(RetryPath), Some(s), map[])
    ensures var b := Issued("a2", None);
            var cfg := Config(Some(Stash(Some(Str("appDataFolder")), "refresh.txt", "secret")), None);
            var s := Snap(Some(GrantCookie(Some(b))), None);
            Step(World(s, map[]), CallbackVisit(cfg, iron, reachable)) == World(s, map[])
  {
  }

  /** An empty store: no client is attached and the user is sent to retry. */
  lemma ScenarioNothingStored(cfg: Config, iron: Iron, files: map<string, string>, reachable: bool)
    ensures Attached(Some(Empty)).None?
    ensures Callback(Empty, cfg, iron, files, reachable) == Conducted(Redirect(RetryPath), Some(Empty), files)
    ensures Step(World(Empty, files), CallbackVisit(cfg, iron, reachable)) == World(Empty, files)
  {
  }

  /** A signed-in user logs out and then revisits the callback: no client
      is attached any more, so the conductor sends them to retry and the
      store stays empty. */
  lemma ScenarioLogout(w: World, cfg: Config, iron: Iron, reachable: bool)
    requires w.store.bugle.Some? && HasAccess(w.store.bugle.value) && HasRefresh(w.store.bugle.value)
    ensures var out := Step(w, LogoutVisit);
            Attached(Some(out.store)).None? &&
            Callback(out.store, cfg, iron, out.files, reachable) == Conducted(Redirect(RetryPath), Some(Empty), w.files) &&
            Step(out, CallbackVisit(cfg, iron, reachable)) == World(Empty, w.files)
  {
  }

  /** A vault recovery on the callback: neither slot holds a refresh token,
      the vault file unseals to R, and the committed bundle is the grant's
      access token with R merged in. */
  lemma ScenarioRecovery(cfg: Config, iron: Iron, files: map<string, string>, issued: Bundle, confirmed: Option<Bundle>)
    requires Configured(cfg.stash) && cfg.stash.value.file in files
    requires iron.unseal(files[cfg.stash.value.file], cfg.stash.value.key).Some?
    requires HasAccess(issued) && !HasRefresh(issued)
    requires confirmed.Some? ==> !HasRefresh(confirmed.value)
    ensures var c := Callback(Snap(Some(GrantCookie(Some(issued))), confirmed), cfg, iron, files, true);
            c.reply == Redirect(Landing(cfg)) && c.files == files &&
            c.store == Some(Snap(None, Some(Strip(issued).(refresh_token :=
                                 iron.unseal(files[cfg.stash.value.file], cfg.stash.value.key))))) &&
            Step(World(Snap(Some(GrantCookie(Some(issued))), confirmed), files), CallbackVisit(cfg, iron, true))
              == World(c.store.value, files)
  {
  }
}
