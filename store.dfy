/** The cookie manager (`req.session` or `req.yar`): a per-client store with
    the `grant` and `bugle` slots and the get/set/clear/reset operations the
    plugin uses. */
module Store {
  import opened JsValues
  import opened Tokens

  class SessionStore {
    var grant: Option<GrantCookie>
    var bugle: Option<Bundle>

    /** The store's contents as a value. */
    function Snapshot(): Snap
      reads this
    {
      Snap(grant, bugle)
    }

    constructor (grant: Option<GrantCookie>, bugle: Option<Bundle>)
      ensures Snapshot() == Snap(grant, bugle)
    {
      this.grant := grant;
      this.bugle := bugle;
    }

    /** getTokensFromCookie once the cookie manager is known to exist: read
        both slots, pick one bundle by priority, and delete its truthy raw
        properties on the stored object itself. */
    method GetTokens() returns (tokens: Option<Bundle>)
      modifies this
      ensures tokens == Resolve(Some(old(Snapshot())))
      ensures Snapshot() == AfterResolve(old(Snapshot()))
    {
      var s := Snap(grant, bugle);
      var g := GrantResponse(s);
      if g.Some? && Truthy(g.value.refresh_token) {
        tokens := Some(Strip(g.value));
        grant := Some(GrantCookie(tokens));
      } else if bugle.Some? && Truthy(bugle.value.refresh_token) {
        tokens := Some(Strip(bugle.value));
        bugle := tokens;
      } else if g.Some? && Truthy(g.value.access_token) {
        tokens := Some(Strip(g.value));
        grant := Some(GrantCookie(tokens));
      } else {
        tokens := None;
      }
    }

    /** `clear('grant')` */
    method ClearGrant()
      modifies this
      ensures Snapshot() == old(Snapshot()).(grant := None)
    {
      grant := None;
    }

    /** `set('bugle', tokens)`; `tokens` may be undefined. */
    method SetBugle(tokens: Option<Bundle>)
      modifies this
      ensures Snapshot() == old(Snapshot()).(bugle := tokens)
    {
      bugle := tokens;
    }

    /** `reset()`: every slot is emptied, the upstream one included. */
    method Reset()
      modifies this
      ensures Snapshot() == Empty
      ensures Resolve(Some(Snapshot())).None?
    {
      grant, bugle := None, None;
    }
  }
}
