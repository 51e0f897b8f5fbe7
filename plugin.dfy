/** The request-time token logic of the plugin: the pre-auth hook that
    attaches a Drive client, the OAuth2 callback handler (the conductor),
    the post-handler hook that saves a rotated access token, and logout. */
module Plugin {
  import opened JsValues
  import opened Tokens
  import opened Store
  import opened Vault

  /** The plugin options the token logic reads: `options.drive.refreshTokenStash`
      and `options.myRedirect`. */
  datatype Config = Config(stash: Option<Stash>, myRedirect: Option<string>)

  /** How a handler or hook answers. `Fault` is an uncaught TypeError: no
      redirect is sent. */
  datatype Reply = Continue | Redirect(location: string) | Text(body: string) | Fault

  const RetryPath := "/a/googledriveretry"

  /** `reply.retryDriveLogin()` */
  function RetryDriveLogin(): (r: Reply)
    ensures r == Redirect("/a/googledriveretry")
  {
    Redirect(RetryPath)
  }

  /** `options.myRedirect || '/a/me'` */
  function Landing(cfg: Config): (r: string)
    ensures r != ""
    ensures cfg.myRedirect.Some? && cfg.myRedirect.value != "" ==> r == cfg.myRedirect.value
    ensures cfg.myRedirect.None? || cfg.myRedirect.value == "" ==> r == "/a/me"
  {
    if cfg.myRedirect.Some? && cfg.myRedirect.value != "" then cfg.myRedirect.value else "/a/me"
  }

  /** A Drive client built by `driveX` from a token bundle. `credentials` is
      `_options.auth.credentials`, which the API client replaces when it
      refreshes the access token. */
  class Drive {
    var credentials: Bundle
    const appDataFolder: AppDataFolder

    constructor (tokens: Bundle, folder: AppDataFolder)
      ensures credentials == tokens && appDataFolder == folder
    {
      credentials := tokens;
      appDataFolder := folder;
    }
  }

  /** A request: its cookie manager (`req.session || req.yar`, possibly
      missing) and `req.drive`. */
  class Request {
    const cookies: SessionStore?
    var drive: Drive?

    constructor (cookies: SessionStore?)
      ensures this.cookies == cookies && drive == null
    {
      this.cookies := cookies;
      drive := null;
    }
  }

  /** The request's session store as a value; None when there is no cookie manager. */
  function Cookies(req: Request): Option<Snap>
    reads req.cookies
  {
    if req.cookies == null then None else Some(req.cookies.Snapshot())
  }

  /** The credentials of the attached Drive client, if any. */
  function Credentials(req: Request): Option<Bundle>
    reads req, req.drive
  {
    if req.drive == null then None else Some(req.drive.credentials)
  }

  function FolderOf(req: Request): set<object>
    reads req, req.drive
  {
    if req.drive == null then {} else {req.drive.appDataFolder}
  }

  /** The files of the attached client's appDataFolder (none without a client). */
  function FilesOf(req: Request): map<string, string>
    reads req, req.drive, FolderOf(req)
  {
    if req.drive == null then map[] else req.drive.appDataFolder.files
  }

  /** getTokensFromCookie(req) */
  method GetTokensFromCookie(req: Request) returns (tokens: Option<Bundle>)
    modifies req.cookies
    ensures tokens == Resolve(old(Cookies(req)))
    ensures Cookies(req) == Untouched(old(Cookies(req)))
  {
    var cookieManager := req.cookies;
    if cookieManager == null {
      tokens := None;
    } else {
      tokens := cookieManager.GetTokens();
    }
  }

  /** The bundle spinupGoogleDrive builds a Drive client from, if it builds one. */
  function Attached(m: Option<Snap>): (c: Option<Bundle>)
    // a client exactly when the resolved bundle holds an access token
    ensures c.Some? <==> Resolve(m).Some? && HasAccess(Resolve(m).value)
    ensures c.Some? ==> c == Resolve(m) && Stripped(c.value)
    // a fresh grant holding only a refresh token gives no client
    ensures m.Some? && GrantWithRefresh(m.value) && !GrantWithAccess(m.value) ==> c.None?
    // without a cookie manager, or after logout, no client
    ensures m.None? || m == Some(Empty) ==> c.None?
  {
    var t := Resolve(m);
    if t.Some? && HasAccess(t.value) then t else None
  }

  /** spinupGoogleDrive, the onPreAuth hook. `account` is the Drive
      storage the client reaches. */
  method PreAuth(req: Request, account: AppDataFolder) returns (reply: Reply)
    modifies req, req.cookies
    ensures reply == Continue
    ensures Cookies(req) == Untouched(old(Cookies(req)))
    ensures Attached(old(Cookies(req))).Some? ==>
              fresh(req.drive) && Credentials(req) == Attached(old(Cookies(req))) &&
              req.drive.appDataFolder == account
    ensures Attached(old(Cookies(req))).None? ==> req.drive == old(req.drive)
  {
    var tokens := GetTokensFromCookie(req);
    if tokens.Some? && Truthy(tokens.value.access_token) {
      req.drive := new Drive(tokens.value, account);
    }
    reply := Continue;
  }

  /** The outcome of hapiDriveConductor: its reply, the session store and
      the Drive appDataFolder afterwards. */
  datatype Conducted = Conducted(reply: Reply, store: Option<Snap>, files: map<string, string>)

  /** hapiDriveConductor over values: `m` is the store, `hasDrive` whether
      onPreAuth attached a client, `files` that client's appDataFolder. */
  function ConductSpec(m: Option<Snap>, hasDrive: bool, cfg: Config, iron: Iron,
                       files: map<string, string>, reachable: bool): (r: Conducted)
    // the store never disappears
    ensures m.Some? ==> r.store.Some?
    // not logged in: retry, and nothing is written
    ensures !hasDrive ==> r == Conducted(RetryDriveLogin(), Untouched(m), files)
    // commit: grant cleared, bugle holds exactly the bundle the vault step settled on, landing page
    ensures var v := VaultStep(cfg.stash, iron, Resolve(m), files, reachable);
            hasDrive && m.Some? && v.Proceed? ==>
              r.reply == Redirect(Landing(cfg)) && r.files == v.files &&
              r.store.Some? && r.store.value.grant.None? && r.store.value.bugle == v.tokens
    // with the vault off that is the resolved bundle itself
    ensures hasDrive && m.Some? && !Configured(cfg.stash) ==>
              r == Conducted(Redirect(Landing(cfg)), Some(AfterResolve(m.value).(grant := None, bugle := Resolve(m))), files)
    // any vault rejection: retry, with no session write and no vault write
    ensures hasDrive && VaultStep(cfg.stash, iron, Resolve(m), files, reachable).Rejected? ==>
              r == Conducted(RetryDriveLogin(), Untouched(m), files)
    // a TypeError (the vault on with no tokens, or no cookie manager at commit): no reply, no write
    ensures hasDrive && (VaultStep(cfg.stash, iron, Resolve(m), files, reachable).Crash? || m.None?) ==>
              r == Conducted(Fault, Untouched(m), files)
    // the session is either left alone or committed
    ensures r.store == Untouched(m) || (r.reply == Redirect(Landing(cfg)) && r.store.Some? && r.store.value.grant.None?)
    // the vault is written only by persisting the sealed refresh token of the resolved bundle
    ensures r.files != files ==>
              hasDrive && Configured(cfg.stash) && Resolve(m).Some? && HasRefresh(Resolve(m).value) &&
              iron.seal(Resolve(m).value.refresh_token.value, cfg.stash.value.key).Some? &&
              r.files == files[cfg.stash.value.file := iron.seal(Resolve(m).value.refresh_token.value, cfg.stash.value.key).value]
  {
    var tokens := Resolve(m);
    var after := Untouched(m);
    if !hasDrive then Conducted(RetryDriveLogin(), after, files)
    else
      match VaultStep(cfg.stash, iron, tokens, files, reachable)
      case Crash => Conducted(Fault, after, files)
      case Rejected => Conducted(RetryDriveLogin(), after, files)
      case Proceed(committed, stored) =>
        if after.None? then Conducted(Fault, after, stored)
        else Conducted(Redirect(Landing(cfg)), Some(after.value.(grant := None, bugle := committed)), stored)
  }

  /** hapiDriveConductor, the handler of the OAuth2 callback route. Whether
      the one remote Drive call it makes gets through is `reachable`. */
  method Conduct(req: Request, cfg: Config, iron: Iron, reachable: bool) returns (reply: Reply)
    modifies req.cookies, FolderOf(req)
    ensures var c := ConductSpec(old(Cookies(req)), req.drive != null, cfg, iron, old(FilesOf(req)), reachable);
            reply == c.reply && Cookies(req) == c.store && FilesOf(req) == c.files
  {
    var tokens := GetTokensFromCookie(req);
    var drive := req.drive;
    if drive == null {
      return RetryDriveLogin();
    }
    if Configured(cfg.stash) {
      var refreshFile, refreshIronKey := cfg.stash.value.file, cfg.stash.value.key;
      if tokens.None? {
        return Fault;
      }
      if Truthy(tokens.value.refresh_token) {
        var sealed := iron.seal(tokens.value.refresh_token.value, refreshIronKey);
        if sealed.None? {
          return RetryDriveLogin();
        }
        var ok := drive.appDataFolder.Upload2(refreshFile, sealed.value, reachable);
        if !ok {
          return RetryDriveLogin();
        }
      } else {
        var blob := drive.appDataFolder.Download(refreshFile, reachable);
        if blob.None? {
          return RetryDriveLogin();
        }
        var refresh := iron.unseal(blob.value, refreshIronKey);
        if refresh.None? {
          return RetryDriveLogin();
        }
        tokens := Some(tokens.value.(refresh_token := refresh));
      }
    }
    var cookieManager := req.cookies;
    if cookieManager == null {
      return Fault;
    }
    cookieManager.ClearGrant();
    cookieManager.SetBugle(tokens);
    reply := Redirect(Landing(cfg));
  }

  /** driveUpdateTokens over values: `creds` are the Drive client's current
      credentials (None without a client), `m` the store. */
  function PostHandlerSpec(creds: Option<Bundle>, m: Option<Snap>): (r: Option<Snap>)
    // bugle is rewritten exactly when the access token rotated
    ensures r != m <==>
              creds.Some? && HasAccess(creds.value) && HasRefresh(creds.value) &&
              m.Some? && m.value.bugle.Some? && m.value.bugle.value.access_token != creds.value.access_token
    // and then it takes the client's credentials; the grant slot is never touched
    ensures r != m ==> r == Some(m.value.(bugle := creds))
  {
    if creds.Some? && HasAccess(creds.value) && HasRefresh(creds.value) &&
       m.Some? && m.value.bugle.Some? && m.value.bugle.value.access_token != creds.value.access_token
    then Some(m.value.(bugle := creds))
    else m
  }

  /** driveUpdateTokens, the onPostHandler hook; the errors it catches
      (no client, no cookie manager, no bugle bundle) leave the store alone. */
  method UpdateTokens(req: Request) returns (reply: Reply)
    modifies req.cookies
    ensures reply == Continue
    ensures Cookies(req) == PostHandlerSpec(old(Credentials(req)), old(Cookies(req)))
  {
    reply := Continue;
    var drive := req.drive;
    if drive == null {
      return;
    }
    var tokens := drive.credentials;
    if Truthy(tokens.access_token) && Truthy(tokens.refresh_token) {
      var cookieManager := req.cookies;
      if cookieManager == null || cookieManager.bugle.None? {
        return;
      }
      var oldAccessToken := cookieManager.bugle.value.access_token;
      if oldAccessToken != tokens.access_token {
        cookieManager.SetBugle(Some(tokens));
      }
    }
  }

  /** logout: reset the whole store and say goodbye. */
  method Logout(req: Request) returns (reply: Reply)
    modifies req.cookies
    ensures req.cookies == null ==> reply == Fault
    ensures req.cookies != null ==>
              reply == Text("Goodbye") && Cookies(req) == Some(Empty) && Resolve(Cookies(req)).None?
  {
    var cookieManager := req.cookies;
    if cookieManager == null {
      return Fault;
    }
    cookieManager.Reset();
    reply := Text("Goodbye");
  }
}
