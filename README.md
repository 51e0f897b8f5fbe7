# bugle token lifecycle, in Dafny

bugle is a hapi plugin that logs users in with Google Drive. The upstream
`grant` module runs the OAuth2 dance and leaves the provider's response in
the `grant` slot of the session store. bugle then does five things:

- It picks one token bundle out of the two slots (`getTokensFromCookie`).
- It attaches a Drive client to each request (`spinupGoogleDrive`, the onPreAuth hook).
- It confirms a login on the OAuth2 callback (`hapiDriveConductor`). An optional vault keeps a sealed
  copy of the refresh token in the user's Drive `appDataFolder`.
- It saves a rotated access token after each handler (`driveUpdateTokens`, the onPostHandler hook).
- It resets the session on logout.

This project models that core and proves what it promises.

Modules, one per concern:

- `JsValues` (js_values.dfy): JavaScript values that may be `undefined`, and their truthiness.
- `Tokens` (tokens.dfy): token bundles, the two slots, and the resolver's priority policy as pure
  functions. This includes the deletion of truthy `raw`/`_raw` properties on the chosen bundle.
- `Store` (store.dfy): the cookie manager as a class with the `grant` and `bugle` slots. Its methods
  are proved against the `Tokens` functions.
- `Vault` (vault.dfy): the `appDataFolder` as a class over a map from file name to content, Iron as
  abstract seal/unseal functions, and the vault branch of the conductor as `VaultStep`.
- `Plugin` (plugin.dfy): the request, the Drive client, the two hooks, the conductor and logout.
  Each is an imperative method on the classes, proved against a function over values
  (`Attached`, `ConductSpec`, `PostHandlerSpec`).
- `Lifecycle` (lifecycle.dfy): one client's requests in sequence, each wrapped by the two hooks, and
  the invariants that hold over any such sequence.
- `Scenarios` (scenarios.dfy): concrete callback runs.

Inputs the code cannot see are parameters:

- Whether a remote Drive call gets through is `reachable`.
- Iron's seal and unseal are the function fields of an `Iron` value; None is a rejected promise.
- The Drive storage a new client reaches is `account`.
- An uncaught TypeError is the reply `Fault`. This covers `tokens` undefined when the vault is
  configured, and a missing cookie manager at commit or at logout.

Behaviours of the code worth knowing:

- A failed vault persist or recover redirects to `/a/googledriveretry`, and the conductor writes
  nothing to the session. The onPostHandler hook still runs after it and may save a rotated access
  token. `ScenarioEmptyVault` shows this: a fresh grant with only an access token and an empty
  vault ends at retry, not at the landing page.
- `reset()` clears every slot, the upstream `grant` slot included.
- A `bugle` bundle holding only an access token is never chosen (`Tokens.BugleAccessOnlyIgnored`).
- Only truthy `raw`/`_raw` properties are deleted, because the code tests them before `delete`.
  "Stripped" therefore means "no truthy raw property".

## Model

| member | source | states |
|---|---|---|
| Tokens.Strip | index.js:105-106 | no truthy `raw`/`_raw` is left; a falsy one is kept, whatever happens to the other; tokens and all other properties are kept; an already clean bundle is unchanged |
| Tokens.Pick | index.js:89-104 | the chosen slot is the one of highest rank under an independent ranking: grant with refresh token > bugle with refresh token > grant with access token only; a slot of rank 0 is never chosen |
| Tokens.Resolve | index.js:83-109 | absent without a cookie manager; grant's refresh-capable response wins whatever bugle holds; otherwise bugle's refresh-capable bundle; otherwise grant's access-only response; an access-only result always comes from grant; absent exactly when no slot offers a usable token; the result is always stripped |
| Tokens.AfterResolve | index.js:105-107 | the in-place delete changes only the chosen slot, keeps the choice and the resolved bundle, and leaves the chosen bundle stripped |
| Tokens.AfterResolveIdempotent | index.js:105-106 | resolving a second time deletes nothing more |
| Tokens.BugleAccessOnlyIgnored | index.js:98-104 | a bugle bundle holding only an access token is never chosen; with no grant response the result is then absent |
| Store.SessionStore.GetTokens | index.js:85-108 | returns the resolved bundle of the store's old contents and leaves the store as the in-place delete leaves it |
| Store.SessionStore.ClearGrant | index.js:166 | only the grant slot changes, to empty |
| Store.SessionStore.SetBugle | index.js:167 | only the bugle slot changes, to the given bundle |
| Store.SessionStore.Reset | index.js:204 | both slots are empty and the resolver then finds nothing |
| Vault.AppDataFolder.Upload2 | index.js:142-148 | with `clobber: true` the file is created or overwritten when the call gets through, and nothing changes otherwise |
| Vault.AppDataFolder.Download | index.js:152 | returns the file's content exactly when the call gets through and the file exists |
| Vault.Configured | index.js:135-136 | the vault is on only when the stash exists and its location is strictly the string `'appDataFolder'` |
| Vault.VaultStep | index.js:134-161 | a pass-through unless `location === 'appDataFolder'`; a TypeError exactly when tokens are undefined; with a refresh token, success exactly when seal and upload succeed, and then the stash file holds the sealed token and the bundle is unchanged; without one, success exactly when download and unseal succeed, and then the unsealed value becomes `refresh_token` and the files are unchanged; an unreachable Drive always rejects |
| Vault.PersistThenRecover | index.js:139-157 | if Iron's unseal undoes its seal, a later recover gets back exactly the refresh token a persist stored |
| Plugin.RetryDriveLogin | index.js:121-123 | the retry reply is a redirect to `/a/googledriveretry`, the target also used at index.js:132 and 171 |
| Plugin.Landing | index.js:168 | the landing page is a non-empty `myRedirect`, and `/a/me` when it is missing or empty |
| Plugin.GetTokensFromCookie | index.js:83-109 | the resolved bundle, None without a cookie manager; the store ends as the in-place delete leaves it |
| Plugin.Attached | index.js:112-118 | a Drive client is built exactly when the resolved bundle has a truthy access token, and from that stripped bundle; none for a refresh-only grant, none without a cookie manager or after logout |
| Plugin.PreAuth | index.js:112-118 | always continues; attaches a fresh client holding exactly the `Attached` bundle, and otherwise leaves `req.drive` alone |
| Plugin.ConductSpec | index.js:127-174 | without a client, retry and nothing written; when the vault resolves, grant is cleared, bugle holds exactly the bundle the vault step settled on (with the vault off, the resolved bundle itself) and the reply is `myRedirect` or `/a/me`; any vault rejection, retry with no session or vault write; a TypeError (the vault on with no resolved bundle, or no cookie manager at commit) gives `Fault` with no session or vault write; the session is either left alone or committed; the vault changes only by the sealed refresh token of the resolved bundle |
| Plugin.Conduct | index.js:127-174 | the handler's reply, session and vault files are those of `ConductSpec` for the request's store, client and files |
| Plugin.PostHandlerSpec | index.js:185-200 | bugle is rewritten, to the client's credentials, exactly when they hold truthy access and refresh tokens, a bugle bundle exists, and its access token differs; nothing else changes |
| Plugin.UpdateTokens | index.js:185-200 | always continues; the store ends as `PostHandlerSpec` says, the caught errors leaving it alone |
| Plugin.Logout | index.js:202-206 | both slots are empty, the reply is "Goodbye", and the resolver then returns absent; a TypeError without a cookie manager |
| Lifecycle.Step | index.js:208-216 | each request runs onPreAuth, its handler and onPostHandler, the grant route included; only the callback route touches the vault; logout empties the store; the grant route leaves its response in the grant slot; otherwise the grant slot is only stripped or cleared |
| Lifecycle.StepKeepsClean | index.js:162-200 | one request of any kind keeps bugle free of raw provider responses and of bundles without an access token |
| Lifecycle.RunKeepsClean | index.js:162-200 | the same holds over any sequence of requests and grants |
| Lifecycle.SignedOutStaysOut | index.js:202-205 | after logout and until a new grant arrives, requests change neither the session nor the vault |
| Lifecycle.VaultRecoversAfterLogout | index.js:135-168 | login persisting refresh token R, logout, then a grant with only access token A ends with bugle holding A with R merged in |
| Lifecycle.CommitThenPostHandlerIdle | index.js:185-193 | right after a commit the post-handler writes nothing, with or without the recovered refresh token in the client's credentials |
| Lifecycle.CallbackTwice | index.js:127-174 | once a callback has cleared the grant slot, a further callback under any vault setting and any Drive reachability leaves the store as it is |
| Lifecycle.CallbackRequest | index.js:208-230 | onPreAuth, the conductor and onPostHandler run in order on a fresh request end as the trace step says, and never in a TypeError |
| Scenarios.ScenarioFreshLogin | index.js:93-97 | a grant with both tokens and no vault commits both tokens to bugle, clears grant and lands on `/a/me`; the whole request, post-handler included, ends with that store |
| Scenarios.ScenarioEmptyVault | index.js:150-172 | a grant with only an access token and an empty vault gives retry, with the store untouched by the conductor and by the whole request |
| Scenarios.ScenarioNothingStored | index.js:129-133 | an empty store attaches no client, the callback redirects to retry, and the request leaves store and vault as they were |
| Scenarios.ScenarioLogout | index.js:202-205 | a signed-in user who logs out gets no client on the next callback, is sent to retry, and the store stays empty |
| Scenarios.ScenarioRecovery | index.js:150-168 | with no refresh token in either slot and a vault file that unseals to R, the committed bundle is the grant's with R as refresh token, and the whole request ends with that commit |

## Left out

- Plugin registration and routing (`server.route`, `server.ext`, `server.decorate`, `server.method`) are
  framework plumbing. The hook order they set up is modelled by `Lifecycle.Step` and `CallbackRequest`.
  `retryDriveLogin` is modelled only as its target, `RetryDriveLogin()`.
- HTML page caching with `fs.readFile` and `getCachedPage` is file I/O.
- Iron's seal and unseal internals are an authenticated-encryption library. The seal/unseal round trip
  is a hypothesis of the lemmas that need it, not a proved fact.
- `decorated-google-drive`, `googleapis` and `request` are network clients. Only the success of
  `upload2`/`download` and their content are modelled. A failed upload is assumed to leave the folder
  as it was. `hexidSalt` and the Google credentials passed to `driveX` are not modelled.
- `handleopen` and `open-from-google-drive` wrap a foreign library. Their only local logic is the
  defaults `'*'` and `100*1024`.
- The `/a/me` page (`driveUserProfile`, the `useMeLevel` output) and `Boom` errors are UI rendering.
- Promise scheduling is not modelled. The conductor is one sequential step whose remote outcome is
  the input `reachable`.
- The credential check at start-up calls `next(err)` and goes on registering. It is a configuration
  side effect, not token logic.
- Aliasing is not modelled: the model works on values. In the source, the resolved bundle, the object
  in the chosen slot and the client's credentials are one object, and the recovered refresh token is
  written into it in place. On values, the client keeps the bundle as it was before the merge.
  `Lifecycle.CommitThenPostHandlerIdle` shows that the post-handler writes nothing after a commit in
  either case.
- How the cookie manager persists the store between requests is not modelled. `Lifecycle` assumes
  the next request sees the store as this one left it, the in-place deletes included.
- Other properties of the grant cookie are not modelled; only `response` is.
- Logging is not modelled: the `console.log` of the error that `driveUpdateTokens` catches, and the
  `console.dir` in `handleopen`. They are output only.
- `NaN` truthiness is not modelled.
- The stash `file` and `key` are modelled as strings; an undefined or non-string value for them is not
  modelled. `myRedirect` may be undefined (then the landing page is `/a/me`); only a non-string
  `myRedirect` is not modelled.
- How the API client rotates credentials is out of reach. `Plugin.UpdateTokens` takes whatever the
  client holds. `Lifecycle` models a rotation as a new access token in the credentials built by onPreAuth.
  The conductor's own Drive calls (`upload2`, `download`) are assumed not to refresh the access token,
  so after a callback the post-handler sees the credentials onPreAuth built. `Lifecycle.CallbackTwice`
  rests on that assumption.
