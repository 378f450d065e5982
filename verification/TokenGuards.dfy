/**
 * One-use tokens and revoked cookies of the sandbox proxy and debugger
 * (sandbox/supervisor/src/proxy.rs, port_auth.rs, debugger.rs). The MAC and the signature check
 * are abstract: a presented token is malformed, forged, or carries a genuine payload. Verifying
 * and consulting the guard is one step; the clock never runs backwards.
 */
module TokenGuards {
  import opened Prelude

  const COOKIE_TTL_SECS: nat := 8 * 3600
  const BOOTSTRAP_MAX_AGE_SECS: nat := 3600
  const DEBUG_MAX_AGE_SECS: nat := 120
  const MAX_USED: nat := 128

  datatype PortSession = PortSession(ws: string, port: nat, sub: string, iat: nat, exp: nat, jti: string)

  datatype Token = Malformed | Forged | Undecodable | Genuine(session: PortSession)

  datatype AuthError = MalformedToken | BadSignature | Expired | WrongWorkspace | BadPort

  /** This sandbox: its workspace and the ports it reserves. */
  datatype Site = Site(ws: string, infraPorts: set<nat>)

  /** The checks of `PortTokenCodec::verify`, in their order. */
  function Verify(token: Token, site: Site, now: nat, maxAge: nat): Result<PortSession, AuthError> {
    match token
    case Malformed => Err(MalformedToken)
    case Forged => Err(BadSignature)
    case Undecodable => Err(MalformedToken)
    case Genuine(s) =>
      if s.exp <= now || s.exp < s.iat || s.exp - s.iat > maxAge then Err(Expired)
      else if s.ws != site.ws then Err(WrongWorkspace)
      else if s.port == 0 || s.port in site.infraPorts then Err(BadPort)
      else Ok(s)
  }

  /** `jti` to expiry. */
  type Seen = map<string, nat>

  function Pruned(m: Seen, now: nat): Seen { map j | j in m && m[j] > now :: m[j] }

  class SessionGuard {
    var redeemed: Seen
    var revoked: Seen

    constructor ()
      ensures redeemed == map[] && revoked == map[]
    {
      redeemed, revoked := map[], map[];
    }

    method Redeem(jti: string, exp: nat, now: nat) returns (fresh': bool)
      modifies this`redeemed
      ensures fresh' <==> jti !in Pruned(old(redeemed), now)
      ensures redeemed == if fresh' then Pruned(old(redeemed), now)[jti := exp] else Pruned(old(redeemed), now)
    {
      redeemed := Pruned(redeemed, now);
      if jti in redeemed {
        return false;
      }
      redeemed := redeemed[jti := exp];
      fresh' := true;
    }

    method Revoke(jti: string, exp: nat, now: nat)
      modifies this`revoked
      ensures revoked == Pruned(old(revoked), now)[jti := exp]
    {
      revoked := Pruned(revoked, now);
      revoked := revoked[jti := exp];
    }

    method IsRevoked(jti: string, now: nat) returns (r: bool)
      ensures r <==> jti in Pruned(revoked, now)
    {
      r := jti in revoked && revoked[jti] > now;
    }

    ghost function Value(): Guards
      reads this
    {
      Guards(redeemed, revoked, map[])
    }

    /** `bootstrap_route` up to the point where the token is spent. */
    method BootstrapRoute(token: Token, site: Site, now: nat) returns (spent: bool)
      modifies this
      ensures spent == Accepts(old(Value()), site, Bootstrap(token, now))
      ensures Value() == After(old(Value()), site, Bootstrap(token, now))
    {
      var v := Verify(token, site, now, BOOTSTRAP_MAX_AGE_SECS);
      if v.Err? {
        return false;
      }
      spent := Redeem(v.value.jti, v.value.exp, now);
    }

    /** `logout_route`. */
    method LogoutRoute(cookie: Token, site: Site, now: nat)
      modifies this
      ensures Value() == After(old(Value()), site, Logout(cookie, now))
    {
      var v := Verify(cookie, site, now, COOKIE_TTL_SECS);
      if v.Ok? {
        Revoke(v.value.jti, v.value.exp, now);
      }
    }

    /** The cookie part of `authorize`. */
    method AuthorizeCookie(cookie: Token, site: Site, now: nat) returns (ok: bool)
      ensures ok == Accepts(Value(), site, Present(cookie, now))
    {
      var v := Verify(cookie, site, now, COOKIE_TTL_SECS);
      if v.Err? {
        return false;
      }
      var gone := IsRevoked(v.value.jti, now);
      ok := !gone;
    }
  }

  // ---------------------------------------------------------------- the debugger

  /** A debug token after the JWT library accepted its signature, issuer and audience. */
  datatype Claims = Claims(ws: string, sub: string, exp: nat, iat: nat, jti: string, launch: string)

  predicate ClaimsInOrder(c: Claims, site: Site, now: nat) {
    && c.ws == site.ws && c.sub != ""
    && c.exp > now && c.iat <= now + 5 && c.exp >= c.iat && c.exp - c.iat <= DEBUG_MAX_AGE_SECS
    && |c.jti| <= 128 && c.jti != "" && |c.launch| == 64
  }

  class DebugService {
    var used: Seen

    constructor ()
      ensures used == map[]
    {
      used := map[];
    }

    method Authorize(claims: Option<Claims>, site: Site, now: nat) returns (ok: bool)
      modifies this
      ensures ok <==> DebugAccepts(old(used), claims, site, now)
      ensures used == UsedAfter(old(used), claims, site, now)
    {
      if claims.None? || !ClaimsInOrder(claims.value, site, now) {
        return false;
      }
      used := Pruned(used, now);
      if |used| >= MAX_USED || claims.value.jti in used {
        return false;
      }
      used := used[claims.value.jti := claims.value.exp];
      ok := true;
    }
  }

  predicate DebugAccepts(used: Seen, claims: Option<Claims>, site: Site, now: nat) {
    && claims.Some? && ClaimsInOrder(claims.value, site, now)
    && |Pruned(used, now)| < MAX_USED && claims.value.jti !in Pruned(used, now)
  }

  function UsedAfter(used: Seen, claims: Option<Claims>, site: Site, now: nat): Seen {
    if claims.None? || !ClaimsInOrder(claims.value, site, now) then used
    else if DebugAccepts(used, claims, site, now) then Pruned(used, now)[claims.value.jti := claims.value.exp]
    else Pruned(used, now)
  }

  // ---------------------------------------------------------------- runs

  datatype Guards = Guards(redeemed: Seen, revoked: Seen, used: Seen)

  datatype Event =
    | Bootstrap(token: Token, at: nat)
    | Logout(cookie: Token, at: nat)
    | Present(cookie: Token, at: nat)
    | Debug(claims: Option<Claims>, at: nat)

  /** `bootstrap_route` redeems the token; `authorize` lets the cookie through; the debugger admits. */
  predicate Accepts(g: Guards, site: Site, ev: Event) {
    match ev
    case Bootstrap(token, now) =>
      var v := Verify(token, site, now, BOOTSTRAP_MAX_AGE_SECS);
      v.Ok? && v.value.jti !in Pruned(g.redeemed, now)
    case Present(cookie, now) =>
      var v := Verify(cookie, site, now, COOKIE_TTL_SECS);
      v.Ok? && !(v.value.jti in g.revoked && g.revoked[v.value.jti] > now)
    case Logout(cookie, now) => Verify(cookie, site, now, COOKIE_TTL_SECS).Ok?
    case Debug(claims, now) => DebugAccepts(g.used, claims, site, now)
  }

  function After(g: Guards, site: Site, ev: Event): Guards {
    match ev
    case Bootstrap(token, now) =>
      var v := Verify(token, site, now, BOOTSTRAP_MAX_AGE_SECS);
      if v.Err? then g
      else if v.value.jti in Pruned(g.redeemed, now) then g.(redeemed := Pruned(g.redeemed, now))
      else g.(redeemed := Pruned(g.redeemed, now)[v.value.jti := v.value.exp])
    case Logout(cookie, now) =>
      var v := Verify(cookie, site, now, COOKIE_TTL_SECS);
      if v.Err? then g else g.(revoked := Pruned(g.revoked, now)[v.value.jti := v.value.exp])
    case Present(_, _) => g
    case Debug(claims, now) => g.(used := UsedAfter(g.used, claims, site, now))
  }

  predicate Clocked(evs: seq<Event>, from: nat)
    decreases |evs|
  {
    evs == [] || (from <= evs[0].at && Clocked(evs[1..], evs[0].at))
  }

  predicate SameCredential(a: Event, b: Event) {
    match a
    case Bootstrap(t, _) => b.Bootstrap? && b.token == t
    case Present(c, _) => b.Present? && b.cookie == c
    case Debug(c, _) => b.Debug? && b.claims == c
    case Logout(c, _) => b.Logout? && b.cookie == c
  }

  /** How often the credential of `what` is accepted along a run. */
  function Acceptances(g: Guards, site: Site, evs: seq<Event>, what: Event): nat
    decreases |evs|
  {
    if evs == [] then 0 else
    (if SameCredential(what, evs[0]) && Accepts(g, site, evs[0]) then 1 else 0)
    + Acceptances(After(g, site, evs[0]), site, evs[1..], what)
  }

  /** An entry stays in its map until its own expiry; pruning and other entries never remove it. */
  predicate Holds(m: Seen, jti: string, exp: nat, clock: nat) {
    clock < exp ==> jti in m && m[jti] >= exp
  }

  // ---------------------------------------------------------------- bootstrap tokens

  lemma RedeemedStays(g: Guards, site: Site, ev: Event, jti: string, exp: nat, clock: nat)
    requires Holds(g.redeemed, jti, exp, clock) && clock <= ev.at
    ensures Holds(After(g, site, ev).redeemed, jti, exp, ev.at)
  {
  }

  lemma {:induction false} SpentBootstrap(g: Guards, site: Site, evs: seq<Event>, what: Event, clock: nat)
    requires what.Bootstrap? && what.token.Genuine? && Clocked(evs, clock)
    requires Holds(g.redeemed, what.token.session.jti, what.token.session.exp, clock)
    ensures Acceptances(g, site, evs, what) == 0
    decreases |evs|
  {
    if evs != [] {
      RedeemedStays(g, site, evs[0], what.token.session.jti, what.token.session.exp, clock);
      SpentBootstrap(After(g, site, evs[0]), site, evs[1..], what, evs[0].at);
    }
  }

  /** A bootstrap token is accepted at most once in any run, however often the map is pruned. */
  lemma {:induction false} BootstrapAtMostOnce(g: Guards, site: Site, evs: seq<Event>, what: Event, clock: nat)
    requires what.Bootstrap? && Clocked(evs, clock)
    ensures Acceptances(g, site, evs, what) <= 1
    decreases |evs|
  {
    if evs != [] {
      var g' := After(g, site, evs[0]);
      if SameCredential(what, evs[0]) && Accepts(g, site, evs[0]) {
        SpentBootstrap(g', site, evs[1..], what, evs[0].at);
      } else {
        BootstrapAtMostOnce(g', site, evs[1..], what, evs[0].at);
      }
    }
  }

  // ---------------------------------------------------------------- debug tokens

  lemma {:induction false} SpentDebug(g: Guards, site: Site, evs: seq<Event>, what: Event, clock: nat)
    requires what.Debug? && what.claims.Some? && Clocked(evs, clock)
    requires Holds(g.used, what.claims.value.jti, what.claims.value.exp, clock)
    ensures Acceptances(g, site, evs, what) == 0
    decreases |evs|
  {
    if evs != [] {
      var g' := After(g, site, evs[0]);
      assert Holds(g'.used, what.claims.value.jti, what.claims.value.exp, evs[0].at);
      SpentDebug(g', site, evs[1..], what, evs[0].at);
    }
  }

  /** A debug token is accepted at most once in any run. */
  lemma {:induction false} DebugAtMostOnce(g: Guards, site: Site, evs: seq<Event>, what: Event, clock: nat)
    requires what.Debug? && Clocked(evs, clock)
    ensures Acceptances(g, site, evs, what) <= 1
    decreases |evs|
  {
    if evs != [] {
      var g' := After(g, site, evs[0]);
      if SameCredential(what, evs[0]) && Accepts(g, site, evs[0]) {
        SpentDebug(g', site, evs[1..], what, evs[0].at);
      } else {
        DebugAtMostOnce(g', site, evs[1..], what, evs[0].at);
      }
    }
  }

  // ---------------------------------------------------------------- cookies

  /** The run accepts no logout of a cookie that shares the id (ids are random) but expires sooner. */
  predicate NoShorterNamesake(site: Site, evs: seq<Event>, jti: string, exp: nat) {
    forall i :: 0 <= i < |evs| && evs[i].Logout? ==>
      var v := Verify(evs[i].cookie, site, evs[i].at, COOKIE_TTL_SECS);
      v.Ok? && v.value.jti == jti ==> v.value.exp >= exp
  }

  lemma {:induction false} RevokedStaysOut(g: Guards, site: Site, evs: seq<Event>, cookie: PortSession, clock: nat)
    requires Clocked(evs, clock) && NoShorterNamesake(site, evs, cookie.jti, cookie.exp)
    requires Holds(g.revoked, cookie.jti, cookie.exp, clock)
    ensures Acceptances(g, site, evs, Present(Genuine(cookie), 0)) == 0
    decreases |evs|
  {
    if evs != [] {
      var g' := After(g, site, evs[0]);
      assert Holds(g'.revoked, cookie.jti, cookie.exp, evs[0].at);
      RevokedStaysOut(g', site, evs[1..], cookie, evs[0].at);
    }
  }

  /** Once logged out, a cookie is never let through again. */
  lemma LoggedOutStaysOut(g: Guards, site: Site, logout: Event, evs: seq<Event>)
    requires logout.Logout? && Accepts(g, site, logout) && Clocked(evs, logout.at)
    requires NoShorterNamesake(site, evs, logout.cookie.session.jti, logout.cookie.session.exp)
    ensures Acceptances(After(g, site, logout), site, evs, Present(logout.cookie, 0)) == 0
  {
    RevokedStaysOut(After(g, site, logout), site, evs, logout.cookie.session, logout.at);
  }

  /** Exactly while the revocation outlasts the cookie is it refused at every later time. */
  lemma RefusedExactly(g: Guards, site: Site, cookie: PortSession, clock: nat)
    requires clock < cookie.exp && Verify(Genuine(cookie), site, clock, COOKIE_TTL_SECS).Ok?
    ensures Holds(g.revoked, cookie.jti, cookie.exp, clock) <==>
      forall now: nat :: clock <= now ==> !Accepts(g, site, Present(Genuine(cookie), now))
  {
    if !Holds(g.revoked, cookie.jti, cookie.exp, clock) {
      var now := if cookie.jti in g.revoked && g.revoked[cookie.jti] > clock then g.revoked[cookie.jti] else clock;
      assert Accepts(g, site, Present(Genuine(cookie), now));
    }
  }

  /** The condition is needed: logging out a namesake that expires sooner revives the cookie. */
  lemma NamesakeRevives(site: Site) returns (logout: Event, evs: seq<Event>)
    requires 3000 !in site.infraPorts
    ensures logout.Logout? && Accepts(Guards(map[], map[], map[]), site, logout) && Clocked(evs, logout.at)
    ensures Acceptances(After(Guards(map[], map[], map[]), site, logout), site, evs, Present(logout.cookie, 0)) == 1
  {
    var long := Genuine(PortSession(site.ws, 3000, "u", 0, 100, "a"));
    var short := Genuine(PortSession(site.ws, 3000, "u", 0, 10, "a"));
    logout, evs := Logout(long, 0), [Logout(short, 1), Present(long, 20)];
    assert evs[1..] == [Present(long, 20)] && evs[1..][1..] == [];
    var g1 := After(Guards(map[], map[], map[]), site, logout);
    var g2 := After(g1, site, evs[0]);
    assert g2.revoked == map["a" := 10];
    assert Acceptances(g2, site, evs[1..], Present(long, 0)) == 1;
  }

  // ---------------------------------------------------------------- nothing else is refused

  /** The guards as they would be if nothing were ever pruned. */
  function Unpruned(g: Guards, site: Site, ev: Event): Guards {
    match ev
    case Bootstrap(token, now) => if Accepts(g, site, ev) then g.(redeemed := g.redeemed[token.session.jti := token.session.exp]) else g
    case Logout(cookie, now) => if Accepts(g, site, ev) then g.(revoked := g.revoked[cookie.session.jti := cookie.session.exp]) else g
    case Present(_, _) => g
    case Debug(claims, now) => if Accepts(g, site, ev) then g.(used := g.used[claims.value.jti := claims.value.exp]) else g
  }

  /** Both keep the same unexpired entries. */
  predicate SameLive(g: Guards, h: Guards, clock: nat) {
    && Pruned(g.redeemed, clock) == Pruned(h.redeemed, clock)
    && Pruned(g.revoked, clock) == Pruned(h.revoked, clock)
    && Pruned(g.used, clock) == Pruned(h.used, clock)
  }

  lemma PrunedLater(m: Seen, n: Seen, clock: nat, now: nat)
    requires Pruned(m, clock) == Pruned(n, clock) && clock <= now
    ensures Pruned(m, now) == Pruned(n, now)
  {
    assert Pruned(m, now) == Pruned(Pruned(m, clock), now);
    assert Pruned(n, now) == Pruned(Pruned(n, clock), now);
  }

  lemma PrunedInsert(m: Seen, n: Seen, now: nat, jti: string, exp: nat)
    requires Pruned(m, now) == Pruned(n, now)
    ensures Pruned(Pruned(m, now)[jti := exp], now) == Pruned(n[jti := exp], now)
  {
    forall j
      ensures j in Pruned(Pruned(m, now)[jti := exp], now) <==> j in Pruned(n[jti := exp], now)
      ensures j in Pruned(n[jti := exp], now) && j != jti ==> j in Pruned(m, now) && n[j] == Pruned(m, now)[j]
    {
      assert j in Pruned(m, now) <==> j in Pruned(n, now);
    }
  }

  lemma PrunedAgain(m: Seen, now: nat)
    ensures Pruned(Pruned(m, now), now) == Pruned(m, now)
  {
  }

  lemma SameDecision(g: Guards, h: Guards, site: Site, ev: Event)
    requires SameLive(g, h, ev.at)
    ensures Accepts(g, site, ev) == Accepts(h, site, ev)
  {
    if ev.Present? && ev.cookie.Genuine? {
      assert ev.cookie.session.jti in Pruned(g.revoked, ev.at) <==> ev.cookie.session.jti in Pruned(h.revoked, ev.at);
    }
  }

  lemma SameLiveDebug(g: Guards, h: Guards, site: Site, ev: Event)
    requires SameLive(g, h, ev.at) && ev.Debug?
    ensures SameLive(After(g, site, ev), Unpruned(h, site, ev), ev.at)
  {
    SameDecision(g, h, site, ev);
    PrunedAgain(g.used, ev.at);
    if Accepts(g, site, ev) {
      PrunedInsert(g.used, h.used, ev.at, ev.claims.value.jti, ev.claims.value.exp);
    }
  }

  lemma SameLiveStep(g: Guards, h: Guards, site: Site, ev: Event)
    requires SameLive(g, h, ev.at)
    ensures SameLive(After(g, site, ev), Unpruned(h, site, ev), ev.at)
  {
    SameDecision(g, h, site, ev);
    PrunedAgain(g.redeemed, ev.at);
    if ev.Debug? {
      SameLiveDebug(g, h, site, ev);
    } else if ev.Bootstrap? && Accepts(g, site, ev) {
      PrunedInsert(g.redeemed, h.redeemed, ev.at, ev.token.session.jti, ev.token.session.exp);
    } else if ev.Logout? && Accepts(g, site, ev) {
      PrunedInsert(g.revoked, h.revoked, ev.at, ev.cookie.session.jti, ev.cookie.session.exp);
    }
  }

  function Decisions(g: Guards, site: Site, evs: seq<Event>): seq<bool>
    decreases |evs|
  {
    if evs == [] then [] else [Accepts(g, site, evs[0])] + Decisions(After(g, site, evs[0]), site, evs[1..])
  }

  function UnprunedDecisions(g: Guards, site: Site, evs: seq<Event>): seq<bool>
    decreases |evs|
  {
    if evs == [] then [] else [Accepts(g, site, evs[0])] + UnprunedDecisions(Unpruned(g, site, evs[0]), site, evs[1..])
  }

  /** Pruning is invisible: every run is decided as by guards that forget nothing. */
  lemma {:induction false} PruningIsInvisible(g: Guards, h: Guards, site: Site, evs: seq<Event>, clock: nat)
    requires SameLive(g, h, clock) && Clocked(evs, clock)
    ensures Decisions(g, site, evs) == UnprunedDecisions(h, site, evs)
    decreases |evs|
  {
    if evs != [] {
      PrunedLater(g.redeemed, h.redeemed, clock, evs[0].at);
      PrunedLater(g.revoked, h.revoked, clock, evs[0].at);
      PrunedLater(g.used, h.used, clock, evs[0].at);
      SameDecision(g, h, site, evs[0]);
      SameLiveStep(g, h, site, evs[0]);
      PruningIsInvisible(After(g, site, evs[0]), Unpruned(h, site, evs[0]), site, evs[1..], evs[0].at);
    }
  }

  function Final(g: Guards, site: Site, evs: seq<Event>): Guards
    decreases |evs|
  {
    if evs == [] then g else Final(After(g, site, evs[0]), site, evs[1..])
  }

  /** Nobody spends a bootstrap token, or logs out a cookie, with this id. */
  predicate Untouched(evs: seq<Event>, jti: string) {
    forall i :: 0 <= i < |evs| ==>
      && (evs[i].Bootstrap? && evs[i].token.Genuine? ==> evs[i].token.session.jti != jti)
      && (evs[i].Logout? && evs[i].cookie.Genuine? ==> evs[i].cookie.session.jti != jti)
  }

  lemma {:induction false} UntouchedStaysOut(g: Guards, site: Site, evs: seq<Event>, jti: string)
    requires Untouched(evs, jti) && jti !in g.redeemed && jti !in g.revoked
    ensures jti !in Final(g, site, evs).redeemed && jti !in Final(g, site, evs).revoked
    decreases |evs|
  {
    if evs != [] {
      UntouchedStaysOut(After(g, site, evs[0]), site, evs[1..], jti);
    }
  }

  /** After any run that left its id alone, a bootstrap token or cookie is accepted exactly when it is fit. */
  lemma UnspentIsAccepted(site: Site, evs: seq<Event>, session: PortSession, now: nat)
    requires Untouched(evs, session.jti)
    ensures var g := Final(Guards(map[], map[], map[]), site, evs);
      && (Accepts(g, site, Bootstrap(Genuine(session), now)) <==> FitFor(session, site, now, 3600))
      && (Accepts(g, site, Present(Genuine(session), now)) <==> FitFor(session, site, now, 28800))
  {
    UntouchedStaysOut(Guards(map[], map[], map[]), site, evs, session.jti);
  }

  // ---------------------------------------------------------------- what an accepted token is

  /** Issued for this workspace and a port of its user, for no longer than `maxAge`, and not expired. */
  predicate FitFor(s: PortSession, site: Site, now: nat, maxAge: nat) {
    && s.ws == site.ws && s.port != 0 && s.port !in site.infraPorts
    && now < s.exp && s.iat <= s.exp && s.exp - s.iat <= maxAge
  }

  /** A bootstrap token is accepted exactly when it is genuine, fit for an hour at most and unspent. */
  lemma BootstrapAcceptedExactly(g: Guards, site: Site, token: Token, now: nat)
    ensures Accepts(g, site, Bootstrap(token, now)) <==>
      && token.Genuine? && FitFor(token.session, site, now, 3600)
      && !(token.session.jti in g.redeemed && g.redeemed[token.session.jti] > now)
  {
  }

  /** A cookie is let through exactly when it is genuine, fit for eight hours at most and not revoked. */
  lemma CookieAcceptedExactly(g: Guards, site: Site, cookie: Token, now: nat)
    ensures Accepts(g, site, Present(cookie, now)) <==>
      && cookie.Genuine? && FitFor(cookie.session, site, now, 28800)
      && !(cookie.session.jti in g.revoked && g.revoked[cookie.session.jti] > now)
    ensures Accepts(g, site, Logout(cookie, now)) <==> cookie.Genuine? && FitFor(cookie.session, site, now, 28800)
  {
  }

  /** Signed for this workspace and a named user, with an id and a launch, unexpired, issued at most 5 s ahead, for two minutes at most. */
  predicate DebugFit(c: Claims, site: Site, now: nat) {
    && c.ws == site.ws && c.sub != "" && 0 < |c.jti| <= 128 && |c.launch| == 64
    && now < c.exp && c.iat <= now + 5 && c.iat <= c.exp && c.exp - c.iat <= 120
  }

  /** A debug token is accepted exactly when its signature held, it is fit and unused, and fewer than 128 are live. */
  lemma DebugAcceptedExactly(g: Guards, site: Site, claims: Option<Claims>, now: nat)
    ensures Accepts(g, site, Debug(claims, now)) <==>
      && claims.Some? && DebugFit(claims.value, site, now)
      && !(claims.value.jti in g.used && g.used[claims.value.jti] > now)
      && |set j | j in g.used && g.used[j] > now| < 128
  {
    assert (set j | j in g.used && g.used[j] > now) == Pruned(g.used, now).Keys;
  }
}
