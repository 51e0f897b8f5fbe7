/** One client's token lifecycle across requests. Every request runs the
    onPreAuth hook (spinupGoogleDrive), then its route handler, then the
    onPostHandler hook (driveUpdateTokens). The upstream grant module fills
    the `grant` slot while handling its own route, so the two hooks run
    around that request too. */
module Lifecycle {
  import opened JsValues
  import opened Tokens
  import opened Store
  import opened Vault
  import opened Plugin

  /** What persists between requests: the client's session store and the
      files of the user's Drive appDataFolder. */
  datatype World = World(store: Snap, files: map<string, string>)

  datatype Event =
    | GrantIssued(grant: GrantCookie)                          // grant's own route stores the provider's response
    | CallbackVisit(cfg: Config, iron: Iron, reachable: bool)  // the OAuth2 callback route (hapiDriveConductor)
    | PageVisit(rotated: Option<Value>)                        // another route; the API client may rotate the access token
    | LogoutVisit                                              // the logout route

  /** One request, with the hooks around it. */
  function Step(w: World, e: Event): (r: World)
    // only the callback route touches the vault
    ensures r.files != w.files ==> e.CallbackVisit?
    // logout empties the store, and nothing runs after it that could refill it
    ensures e.LogoutVisit? ==> r.store == Empty
    // the grant route leaves its response in the grant slot
    ensures e.GrantIssued? ==> r.store.grant == Some(e.grant)
    // the grant slot is otherwise only stripped by the resolver or cleared by a commit
    ensures !e.GrantIssued? && !e.LogoutVisit? ==>
              r.store.grant == AfterResolve(w.store).grant || r.store.grant.None?
  {
    var s := AfterResolve(w.store);
    var creds := Attached(Some(w.store));
    match e
    case GrantIssued(g) => w.(store := PostHandlerSpec(creds, Some(s.(grant := Some(g)))).value)
    case CallbackVisit(cfg, iron, reachable) =>
      var c := ConductSpec(Some(s), creds.Some?, cfg, iron, w.files, reachable);
      World(PostHandlerSpec(creds, c.store).value, c.files)
    case PageVisit(rotated) =>
      var now := if creds.Some? && rotated.Some? then Some(creds.value.(access_token := rotated)) else creds;
      w.(store := PostHandlerSpec(now, Some(s)).value)
    case LogoutVisit =>
      w.(store := PostHandlerSpec(creds, Some(Empty)).value)
  }

  function Run(w: World, evs: seq<Event>): World
    decreases |evs|
  {
    if |evs| == 0 then w else Run(Step(w, evs[0]), evs[1..])
  }

  /** What the plugin keeps in bugle: a bundle that can build a Drive client
      and that carries no raw provider response. */
  predicate BugleClean(s: Snap)
  {
    s.bugle.Some? ==> Stripped(s.bugle.value) && HasAccess(s.bugle.value)
  }

  /** One request, or one grant, keeps bugle clean. */
  lemma StepKeepsClean(w: World, e: Event)
    requires BugleClean(w.store)
    ensures BugleClean(Step(w, e).store)
  {
  }

  /** No sequence of requests ever stores a raw provider response, or a
      bundle without an access token, in bugle. */
  lemma {:induction false} RunKeepsClean(w: World, evs: seq<Event>)
    requires BugleClean(w.store)
    ensures BugleClean(Run(w, evs).store)
    decreases |evs|
  {
    if |evs| != 0 {
      StepKeepsClean(w, evs[0]);
      RunKeepsClean(Step(w, evs[0]), evs[1..]);
    }
  }

  /** After logout, and until the provider issues new tokens, requests
      change nothing, neither the session nor the vault. */
  lemma {:induction false} SignedOutStaysOut(w: World, evs: seq<Event>)
    requires w.store == Empty
    requires forall i :: 0 <= i < |evs| ==> !evs[i].GrantIssued?
    ensures Run(w, evs) == w
    decreases |evs|
  {
    if |evs| != 0 {
      assert Step(w, evs[0]) == w;
      SignedOutStaysOut(w, evs[1..]);
    }
  }

  /** The vault survives logout: a login that persisted refresh token R,
      then a logout, then a new grant carrying only an access token A,
      ends with bugle holding A together with the recovered R. */
  lemma VaultRecoversAfterLogout(cfg: Config, iron: Iron, first: Bundle, second: Bundle, files: map<string, string>)
    requires Configured(cfg.stash)
    requires HasAccess(first) && HasRefresh(first)
    requires HasAccess(second) && !HasRefresh(second)
    requires iron.seal(first.refresh_token.value, cfg.stash.value.key).Some?
    requires iron.unseal(iron.seal(first.refresh_token.value, cfg.stash.value.key).value, cfg.stash.value.key)
               == Some(first.refresh_token.value)
    ensures var evs := [GrantIssued(GrantCookie(Some(first))), CallbackVisit(cfg, iron, true), LogoutVisit,
                        GrantIssued(GrantCookie(Some(second))), CallbackVisit(cfg, iron, true)];
            Run(World(Empty, files), evs).store ==
              Snap(None, Some(Strip(second).(refresh_token := first.refresh_token)))
  {
    var login, logout := CallbackVisit(cfg, iron, true), LogoutVisit;
    var g1, g2 := GrantIssued(GrantCookie(Some(first))), GrantIssued(GrantCookie(Some(second)));
    var w0 := World(Empty, files);
    var w1 := Step(w0, g1);
    var w2 := Step(w1, login);
    assert w2.store == Snap(None, Some(Strip(first)));
    var w3 := Step(w2, logout);
    assert w3.store == Empty;
    var w4 := Step(w3, g2);
    var w5 := Step(w4, login);
    assert w5.store == Snap(None, Some(Strip(second).(refresh_token := first.refresh_token)));
    var evs := [g1, login, logout, g2, login];
    assert Run(w0, evs) == Run(w1, evs[1..]);
    assert Run(w1, evs[1..]) == Run(w2, evs[2..]);
    assert Run(w2, evs[2..]) == Run(w3, evs[3..]);
    assert Run(w3, evs[3..]) == Run(w4, evs[4..]);
    assert Run(w4, evs[4..]) == Run(w5, []);
  }

  /** Right after a commit the post-handler writes nothing: the committed
      bundle carries the access token the client was built with. This holds
      for the credentials as onPreAuth built them and for the bundle with the
      recovered refresh token merged in (in the source the two are one object). */
  lemma CommitThenPostHandlerIdle(s: Snap, cfg: Config, iron: Iron, files: map<string, string>, reachable: bool)
    requires Attached(Some(s)).Some?
    requires VaultStep(cfg.stash, iron, Resolve(Some(s)), files, reachable).Proceed?
    ensures var c := ConductSpec(Some(s), true, cfg, iron, files, reachable);
            PostHandlerSpec(Attached(Some(s)), c.store) == c.store &&
            PostHandlerSpec(c.store.value.bugle, c.store) == c.store
  {
  }

  /** Idempotence of the commit: once a callback has cleared the grant
      slot, a further callback, under any vault setting and whether or not
      Drive is reachable, leaves the store as it is. */
  lemma CallbackTwice(w: World, cfg: Config, iron: Iron, reachable: bool,
                      cfg2: Config, iron2: Iron, reachable2: bool)
    requires BugleClean(w.store)
    requires Step(w, CallbackVisit(cfg, iron, reachable)).store.grant.None?
    ensures var w1 := Step(w, CallbackVisit(cfg, iron, reachable));
            Step(w1, CallbackVisit(cfg2, iron2, reachable2)).store == w1.store
  {
    StepKeepsClean(w, CallbackVisit(cfg, iron, reachable));
  }

  /** The callback route run the way hapi runs it on a fresh request:
      onPreAuth, hapiDriveConductor, onPostHandler. The store and the vault
      end as the trace step says. */
  method CallbackRequest(req: Request, account: AppDataFolder, cfg: Config, iron: Iron, reachable: bool)
      returns (reply: Reply)
    requires req.cookies != null && req.drive == null
    modifies req, req.cookies, account
    ensures var w := Step(World(old(req.cookies.Snapshot()), old(account.files)), CallbackVisit(cfg, iron, reachable));
            req.cookies.Snapshot() == w.store && account.files == w.files
    ensures reply != Fault
  {
    var _ := PreAuth(req, account);
    assert req.drive != null ==> req.drive.appDataFolder == account;
    reply := Conduct(req, cfg, iron, reachable);
    var _ := UpdateTokens(req);
  }
}
