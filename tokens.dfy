/** Token bundles, the two session slots, and the priority policy of
    `getTokensFromCookie` that picks one bundle out of them. */
module Tokens {
  import opened JsValues

  /** A token bundle as the OAuth2 provider hands it over. `underRaw` is the
      `_raw` property; `others` holds every remaining property (expiry_date,
      token_type, id_token, ...) by name and is passed through untouched. */
  datatype Bundle = Bundle(
    access_token: Option<Value>,
    refresh_token: Option<Value>,
    raw: Option<Value>,
    underRaw: Option<Value>,
    others: map<string, Value>)

  /** What the upstream grant module keeps in its slot: the provider's response, if any. */
  datatype GrantCookie = GrantCookie(response: Option<Bundle>)

  /** A snapshot of the session store: the `grant` slot (fresh from the
      provider) and the `bugle` slot (the bundle this plugin confirmed). */
  datatype Snap = Snap(grant: Option<GrantCookie>, bugle: Option<Bundle>)

  const Empty := Snap(None, None)

  predicate HasRefresh(b: Bundle) { Truthy(b.refresh_token) }

  predicate HasAccess(b: Bundle) { Truthy(b.access_token) }

  /** `grantCookie.response`, or undefined when either is missing. */
  function GrantResponse(s: Snap): Option<Bundle>
  {
    if s.grant.Some? then s.grant.value.response else None
  }

  predicate GrantWithRefresh(s: Snap) { GrantResponse(s).Some? && HasRefresh(GrantResponse(s).value) }

  predicate GrantWithAccess(s: Snap) { GrantResponse(s).Some? && HasAccess(GrantResponse(s).value) }

  predicate BugleWithRefresh(s: Snap) { s.bugle.Some? && HasRefresh(s.bugle.value) }

  /** No truthy `raw` or `_raw` property is left. */
  predicate Stripped(b: Bundle) { !Truthy(b.raw) && !Truthy(b.underRaw) }

  /** The two `delete` statements: each raw property goes when it is truthy. */
  function Strip(b: Bundle): (r: Bundle)
    ensures Stripped(r)
    ensures r.access_token == b.access_token && r.refresh_token == b.refresh_token && r.others == b.others
    ensures r.raw == b.raw || r.raw.None?
    ensures r.underRaw == b.underRaw || r.underRaw.None?
    // a falsy raw property is left in place, whatever happens to the other one
    ensures !Truthy(b.raw) ==> r.raw == b.raw
    ensures !Truthy(b.underRaw) ==> r.underRaw == b.underRaw
    ensures Stripped(b) ==> r == b
  {
    b.(raw := if Truthy(b.raw) then None else b.raw,
       underRaw := if Truthy(b.underRaw) then None else b.underRaw)
  }

  datatype Slot = GrantSlot | BugleSlot | NoSlot

  /** An independent statement of the policy: how strongly each slot's
      content is preferred. A refresh-capable bundle beats an access-only
      one whatever its age; 0 means the slot is never taken. */
  function RankIn(s: Snap, slot: Slot): nat
  {
    match slot
    case GrantSlot => if GrantWithRefresh(s) then 3 else if GrantWithAccess(s) then 1 else 0
    case BugleSlot => if BugleWithRefresh(s) then 2 else 0
    case NoSlot => 0
  }

  /** The slot the resolver takes its bundle from: the one of highest rank. */
  function Pick(s: Snap): (r: Slot)
    ensures r != NoSlot ==> RankIn(s, r) > 0
    ensures forall slot :: RankIn(s, slot) <= RankIn(s, r)
  {
    if GrantWithRefresh(s) then GrantSlot
    else if BugleWithRefresh(s) then BugleSlot
    else if GrantWithAccess(s) then GrantSlot
    else NoSlot
  }

  /** The bundle held in the picked slot, before stripping. */
  function Chosen(s: Snap): Option<Bundle>
  {
    match Pick(s)
    case GrantSlot => GrantResponse(s)
    case BugleSlot => s.bugle
    case NoSlot => None
  }

  /** getTokensFromCookie: `m` is None when the request has no cookie manager. */
  function Resolve(m: Option<Snap>): (r: Option<Bundle>)
    ensures m.None? ==> r.None?
    ensures r.Some? ==> Stripped(r.value)
    // grant wins: a fresh refresh token beats whatever bugle holds
    ensures m.Some? && GrantWithRefresh(m.value) ==> r == Some(Strip(GrantResponse(m.value).value))
    // otherwise an older refresh token from bugle
    ensures m.Some? && !GrantWithRefresh(m.value) && BugleWithRefresh(m.value) ==>
              r == Some(Strip(m.value.bugle.value))
    // otherwise a grant response holding only an access token
    ensures m.Some? && !GrantWithRefresh(m.value) && !BugleWithRefresh(m.value) && GrantWithAccess(m.value) ==>
              r == Some(Strip(GrantResponse(m.value).value))
    // an access-only result always comes from the grant slot, never from bugle
    ensures r.Some? && !HasRefresh(r.value) ==>
              HasAccess(r.value) && m.Some? && GrantResponse(m.value).Some? &&
              r == Some(Strip(GrantResponse(m.value).value))
    // absent exactly when no slot offers a usable token
    ensures m.Some? ==> (r.None? <==> !GrantWithRefresh(m.value) && !BugleWithRefresh(m.value) && !GrantWithAccess(m.value))
  {
    match m
    case None => None
    case Some(s) => if Chosen(s).Some? then Some(Strip(Chosen(s).value)) else None
  }

  /** The store after getTokensFromCookie: it deletes the raw properties in
      place on the object it returns, which is the object held in the picked slot. */
  function AfterResolve(s: Snap): (r: Snap)
    ensures Pick(r) == Pick(s) && Resolve(Some(r)) == Resolve(Some(s))
    ensures Pick(s) != GrantSlot ==> r.grant == s.grant
    ensures Pick(s) != BugleSlot ==> r.bugle == s.bugle
    ensures Chosen(r).Some? ==> Chosen(r) == Some(Strip(Chosen(s).value))
  {
    match Pick(s)
    case GrantSlot => s.(grant := Some(GrantCookie(Some(Strip(GrantResponse(s).value)))))
    case BugleSlot => s.(bugle := Some(Strip(s.bugle.value)))
    case NoSlot => s
  }

  /** AfterResolve lifted to a store that may be missing. */
  function Untouched(m: Option<Snap>): Option<Snap>
  {
    if m.Some? then Some(AfterResolve(m.value)) else None
  }

  /** Resolving twice deletes nothing more. */
  lemma AfterResolveIdempotent(s: Snap)
    ensures AfterResolve(AfterResolve(s)) == AfterResolve(s)
  {
  }

  /** A bundle in bugle that holds an access token but no refresh token is
      never chosen, whatever the grant slot holds. */
  lemma BugleAccessOnlyIgnored(s: Snap)
    requires s.bugle.Some? && HasAccess(s.bugle.value) && !HasRefresh(s.bugle.value)
    ensures Pick(s) != BugleSlot
    ensures GrantResponse(s).None? ==> Resolve(Some(s)).None?
  {
  }
}
