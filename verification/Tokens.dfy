// Access tokens and their revocation (server/internal/middleware/jwt.go).  Times are
// milliseconds.  A token is the string that is presented; the decoder may read several strings
// as the same signed claims, and the blacklist knows strings only.
module Tokens {
  import opened Wire

  const SECOND := 1000

  datatype Claims = Claims(user: int, issuedAt: int, expiresAt: int)

  /** `spelling` tells apart the strings that carry one signature; the issued one is canonical. */
  datatype Token = Signed(claims: Claims, spelling: string) | Unsigned(text: string)

  const CANONICAL := ""

  /** Numeric dates are cut to whole seconds (section 2 of RFC 7519 allows fractions; the
      library's default precision does not keep them). */
  function WholeSeconds(t: int): (r: int)
    ensures r <= t < r + SECOND
  {
    t - t % SECOND
  }

  /** Names its user and lasts for the ttl, to the second below. */
  function Issue(user: int, ttl: int, now: int): (token: Token)
    ensures token.Signed? && token.spelling == CANONICAL && token.claims.user == user
    ensures token.claims.issuedAt <= now < token.claims.issuedAt + SECOND
    ensures token.claims.expiresAt <= now + ttl < token.claims.expiresAt + SECOND
  {
    Signed(Claims(user, WholeSeconds(now), WholeSeconds(now + ttl)), CANONICAL)
  }

  /** The blacklist: when each entry disappears, None for never. */
  type Blacklist = map<Token, Option<int>>

  datatype Store = Absent | Unreachable | Up

  predicate Listed(list: Blacklist, token: Token, now: int) {
    token in list && (list[token].None? || now < list[token].value)
  }

  /** SET key 1 with an expiry: a later SET replaces the earlier expiry, and a ttl that is
      not positive sets none. */
  function Revoke(list: Blacklist, token: Token, ttl: int, now: int): Blacklist {
    list[token := if ttl > 0 then Some(now + ttl) else None]
  }

  class JwtMiddleware {
    const hasStore: bool
    var blacklist: Blacklist

    constructor (hasStore: bool)
      ensures this.hasStore == hasStore && blacklist == map[]
    {
      this.hasStore := hasStore;
      blacklist := map[];
    }

    function StoreNow(reachable: bool): Store {
      if !hasStore then Absent else if reachable then Up else Unreachable
    }

    /** Without a store this succeeds and does nothing. */
    method RevokeToken(token: Token, ttl: int, now: int, reachable: bool) returns (ok: bool)
      modifies this
      ensures ok <==> StoreNow(reachable) != Unreachable
      ensures blacklist == if StoreNow(reachable) == Up then Revoke(old(blacklist), token, ttl, now) else old(blacklist)
    {
      if !hasStore {
        return true;
      }
      if !reachable {
        return false;
      }
      blacklist := blacklist[token := if ttl > 0 then Some(now + ttl) else None];
      ok := true;
    }

    /** An unreachable store counts as "not listed". */
    method ParseToken(token: Token, now: int, reachable: bool) returns (user: Option<int>)
      ensures user == if Accepts(blacklist, StoreNow(reachable), token, now) then Some(token.claims.user) else None
    {
      if token.Unsigned? || now >= token.claims.expiresAt {
        return None;
      }
      if hasStore {
        var revoked := reachable && token in blacklist && (blacklist[token].None? || now < blacklist[token].value);
        if revoked {
          return None;
        }
      }
      user := Some(token.claims.user);
    }
  }

  predicate Accepts(list: Blacklist, store: Store, token: Token, now: int) {
    token.Signed? && now < token.claims.expiresAt && !(store.Up? && Listed(list, token, now))
  }

  /** What a logout leaves in the blacklist. */
  function AfterLogout(list: Blacklist, store: Store, token: Token, ttl: int, now: int): Blacklist {
    if store.Up? then Revoke(list, token, ttl, now) else list
  }

  /** The entry is there for ever, or for as long as the token could be used. */
  predicate Outlives(list: Blacklist, token: Token)
    requires token.Signed?
  {
    token in list && (list[token].None? || token.claims.expiresAt <= list[token].value)
  }

  lemma LogoutOutlives(list: Blacklist, store: Store, token: Token, ttl: int, now: int)
    requires token.Signed?
    ensures Outlives(AfterLogout(list, store, token, ttl, now), token) <==>
      if store.Up? then ttl <= 0 || token.claims.expiresAt <= now + ttl else Outlives(list, token)
  {
  }

  /** One logout, with any ttl and any state of the store, followed by checks that find the store
      in any state at any time: the string is rejected at every later time exactly when the token
      has expired already, or the store is up at every check before it expires and the entry that
      the logout left, or found, outlives the token. */
  lemma RevocationHoldsIff(
    list: Blacklist, atLogout: Store, atCheck: int -> Store, token: Token, ttl: int, now: int)
    requires token.Signed?
    ensures var after := AfterLogout(list, atLogout, token, ttl, now);
      (forall later | later >= now :: !Accepts(after, atCheck(later), token, later)) <==>
        || token.claims.expiresAt <= now
        || ((forall t | now <= t < token.claims.expiresAt :: atCheck(t).Up?) && Outlives(after, token))
  {
    var after := AfterLogout(list, atLogout, token, ttl, now);
    var end := token.claims.expiresAt;
    if end > now {
      if t :| now <= t < end && !atCheck(t).Up? {
        assert Accepts(after, atCheck(t), token, t);
      } else if !Outlives(after, token) {
        assert Accepts(after, atCheck(end - 1), token, end - 1);
      }
    }
  }

  // ---- runs: a clock that never goes back, logins and logouts in any order ----

  datatype State = State(now: int, issued: set<Claims>, list: Blacklist)

  datatype Step =
    | Tick(elapsed: nat)
    | Login(user: int)
    | Logout(token: Token)

  /** Both handlers read the same configured ttl. */
  function Apply(s: State, step: Step, ttl: int): State {
    match step
    case Tick(elapsed) => s.(now := s.now + elapsed)
    case Login(user) => s.(issued := s.issued + {Issue(user, ttl, s.now).claims})
    case Logout(token) => s.(list := Revoke(s.list, token, ttl, s.now))
  }

  ghost predicate IsRun(states: seq<State>, steps: seq<Step>, ttl: int) {
    && |states| == |steps| + 1
    && states[0].issued == {} && states[0].list == map[]
    && forall i | 0 <= i < |steps| :: states[i + 1] == Apply(states[i], steps[i], ttl)
  }

  /** The claims of the logged-out token belong to a login of this run, or there are none. */
  predicate Known(s: State, token: Token) {
    token.Signed? ==> token.claims in s.issued
  }

  predicate Stays(s: State, token: Token) {
    token.Signed? && token in s.list && token.claims in s.issued
  }

  /** Issued tokens expire within the ttl, and every entry of one outlives it. */
  ghost predicate Covered(s: State, ttl: int) {
    && (forall claims | claims in s.issued :: claims.expiresAt <= s.now + ttl)
    && (forall token | token in s.list && token.Signed? ::
          && token.claims in s.issued
          && (s.list[token].None? || token.claims.expiresAt <= s.list[token].value))
  }

  lemma CoveredStep(s: State, step: Step, ttl: int)
    requires Covered(s, ttl)
    requires step.Logout? ==> Known(s, step.token)
    ensures Covered(Apply(s, step, ttl), ttl)
    ensures forall token | Stays(s, token) :: Stays(Apply(s, step, ttl), token)
  {
  }

  ghost predicate LogoutsKnown(states: seq<State>, steps: seq<Step>)
    requires |states| == |steps| + 1
  {
    forall i | 0 <= i < |steps| && steps[i].Logout? :: Known(states[i], steps[i].token)
  }

  lemma {:induction false} CoveredRun(states: seq<State>, steps: seq<Step>, ttl: int, k: nat)
    requires IsRun(states, steps, ttl) && LogoutsKnown(states, steps) && k < |states|
    ensures Covered(states[k], ttl)
  {
    if k > 0 {
      CoveredRun(states, steps, ttl, k - 1);
      assert states[k] == Apply(states[k - 1], steps[k - 1], ttl);
      CoveredStep(states[k - 1], steps[k - 1], ttl);
    }
  }

  lemma {:induction false} StaysListed(states: seq<State>, steps: seq<Step>, ttl: int, i: nat, k: nat, token: Token)
    requires IsRun(states, steps, ttl) && i <= k < |states| && Stays(states[i], token)
    ensures Stays(states[k], token)
    decreases k
  {
    if i < k {
      StaysListed(states, steps, ttl, i, k - 1, token);
      assert states[k] == Apply(states[k - 1], steps[k - 1], ttl);
    }
  }

  /** With the store up and one ttl, a string logged out at step i is rejected in every later
      state, whatever logins, logouts (also of the same string) and waiting come between. */
  lemma RevokedForEver(states: seq<State>, steps: seq<Step>, ttl: int, i: nat, k: nat)
    requires IsRun(states, steps, ttl) && LogoutsKnown(states, steps)
    requires i < k < |states| && steps[i].Logout?
    ensures !Accepts(states[k].list, Up, steps[i].token, states[k].now)
  {
    var token := steps[i].token;
    if token.Signed? {
      CoveredRun(states, steps, ttl, k);
      assert states[i + 1] == Apply(states[i], steps[i], ttl);
      assert Stays(states[i + 1], token);
      StaysListed(states, steps, ttl, i + 1, k, token);
    }
  }

  /** The other way round: only a logout of this very string rejects it before it expires. */
  lemma {:induction false} OnlyLogoutRejects(states: seq<State>, steps: seq<Step>, ttl: int, k: nat, token: Token)
    requires IsRun(states, steps, ttl) && k < |states| && token.Signed?
    requires forall i | 0 <= i < k :: steps[i] != Logout(token)
    ensures Accepts(states[k].list, Up, token, states[k].now) <==> states[k].now < token.claims.expiresAt
    ensures token !in states[k].list
  {
    if k > 0 {
      OnlyLogoutRejects(states, steps, ttl, k - 1, token);
      assert states[k] == Apply(states[k - 1], steps[k - 1], ttl);
    }
  }

  /** So a string is rejected in a state exactly when it has expired or was logged out before. */
  lemma RejectedIff(states: seq<State>, steps: seq<Step>, ttl: int, k: nat, token: Token)
    requires IsRun(states, steps, ttl) && LogoutsKnown(states, steps) && k < |states| && token.Signed?
    ensures !Accepts(states[k].list, Up, token, states[k].now) <==>
      states[k].now >= token.claims.expiresAt || exists i :: 0 <= i < k && steps[i] == Logout(token)
  {
    if i :| 0 <= i < k && steps[i] == Logout(token) {
      RevokedForEver(states, steps, ttl, i, k);
    } else {
      OnlyLogoutRejects(states, steps, ttl, k, token);
    }
  }

  /** A login right after a logout, in the same second, yields the revoked token again. */
  lemma SameSecondLoginIsRejected(s: State, user: int, ttl: int, wait: nat)
    requires ttl % SECOND == 0 && WholeSeconds(s.now) == WholeSeconds(s.now + wait)
    ensures var token := Issue(user, ttl, s.now);
      var later := Apply(Apply(Apply(s, Login(user), ttl), Logout(token), ttl), Tick(wait), ttl);
      Issue(user, ttl, later.now) == token && !Accepts(later.list, Up, token, later.now)
  {
    var token := Issue(user, ttl, s.now);
    assert WholeSeconds(s.now + ttl) == WholeSeconds(s.now) + ttl;
    assert WholeSeconds(s.now + wait + ttl) == WholeSeconds(s.now + wait) + ttl;
  }
}
