/** When codes and tokens are honoured, how long, and exactly which grants and clients each
    request ends (internal/auth/oauth.go). */
module OAuthEffects {
  import opened Sequences
  import opened OAuth
  import opened OAuthRuns

  // ----- the answer to a request -----

  /** A stored code that is unused and in time, for the client, redirect and challenge it was
      issued for, of an active user. */
  predicate Redeemable(a: Auth, client: int, code: Secret, redirect: string, verifier: int, now: int) {
    && code in a.codes
    && var row := a.codes[code];
       && !row.used && now < row.expires && row.client == client && row.challenge == verifier
       && (redirect == "" || redirect == row.redirect)
       && row.user in a.users && a.users[row.user]
  }

  /** A stored refresh token that is unused and in time, of the client's own grant and an active user. */
  predicate Rotatable(a: Auth, client: int, s: Secret, now: int) {
    && s.prefix == RefreshPrefix && s in a.tokens
    && var row := a.tokens[s];
       && row.refresh && !row.used && now < row.expires && row.grant in a.grants
       && var g := a.grants[row.grant];
          g.client == client && g.user in a.users && a.users[g.user]
  }

  lemma ExchangeAnswered(
    a: Auth, client: int, code: Secret, redirect: string, verifier: int, now: int, g: int, access: Secret, refresh: Secret)
    ensures var r := Exchange(a, client, code, redirect, verifier, now, g, access, refresh);
            r.answer == (if client !in a.clients then InvalidClient
                         else if Redeemable(a, client, code, redirect, verifier, now) then Granted(access, refresh)
                         else InvalidGrant)
  {
  }

  lemma RefreshAnswered(a: Auth, client: int, s: Secret, now: int, access: Secret, refresh: Secret)
    ensures var r := Refresh(a, client, s, now, access, refresh);
            r.answer == (if client !in a.clients then InvalidClient
                         else if Rotatable(a, client, s, now) then Granted(access, refresh)
                         else InvalidGrant)
  {
  }

  // ----- how long a new pair works -----

  /** The access token speaks for the user for an hour; the refresh token rotates, for its
      client only, for sixty days. */
  ghost predicate LastsAsIssued(b: Auth, access: Secret, refresh: Secret, client: int, user: int, now: int) {
    && (forall t :: Authenticate(b, access, t) == if t < now + 3600 then Some(user) else None)
    && (forall c, t, x, y :: Refresh(b, c, refresh, t, x, y).answer.Granted? <==> c == client && t < now + 60 * 24 * 3600)
    && (forall t :: Authenticate(b, refresh, t) == None)
    && (forall c, t, x, y :: !Refresh(b, c, access, t, x, y).answer.Granted?)
  }

  lemma PairLasts(b: Auth, g: int, access: Secret, refresh: Secret, now: int)
    requires access.prefix == AccessPrefix && refresh.prefix == RefreshPrefix
    requires access in b.tokens && b.tokens[access] == Token(g, false, now + 3600, false)
    requires refresh in b.tokens && b.tokens[refresh] == Token(g, true, now + 60 * 24 * 3600, false)
    requires g in b.grants && b.grants[g].client in b.clients && UserActive(b, b.grants[g].user)
    ensures LastsAsIssued(b, access, refresh, b.grants[g].client, b.grants[g].user, now)
  {
  }

  /** After an exchange at `now` the pair works exactly as long as it should. */
  lemma ExchangedPairLasts(
    a: Auth, client: int, code: Secret, redirect: string, verifier: int, now: int, g: int, access: Secret, refresh: Secret)
    requires access.prefix == AccessPrefix && refresh.prefix == RefreshPrefix
    requires Exchange(a, client, code, redirect, verifier, now, g, access, refresh).answer.Granted?
    ensures LastsAsIssued(Exchange(a, client, code, redirect, verifier, now, g, access, refresh).auth,
                          access, refresh, client, a.codes[code].user, now)
  {
    PairLasts(Exchange(a, client, code, redirect, verifier, now, g, access, refresh).auth, g, access, refresh, now);
  }

  /** Tables whose rows point to rows, and two secrets of the right kinds that are in none of them. */
  ghost predicate FreshSecrets(a: Auth, access: Secret, refresh: Secret) {
    && TablesOk(a) && access.prefix == AccessPrefix && refresh.prefix == RefreshPrefix
    && access !in a.tokens && refresh !in a.tokens
  }

  /** So does the one a rotation hands out. */
  lemma RotatedPairLasts(a: Auth, client: int, s: Secret, now: int, access: Secret, refresh: Secret)
    requires FreshSecrets(a, access, refresh) && Refresh(a, client, s, now, access, refresh).answer.Granted?
    ensures LastsAsIssued(Refresh(a, client, s, now, access, refresh).auth,
                          access, refresh, client, a.grants[a.tokens[s].grant].user, now)
  {
    var g := a.tokens[s].grant;
    var c := IssueTokens(Rotated(a, client, s, now), g, now, access, refresh);
    RefreshIssues(a, client, s, now, access, refresh);
    RotationTables(a, client, s, now, access, refresh);
    PrunedTokens(c, now);
    PairLasts(Prune(c, now), g, access, refresh, now);
  }

  // ----- which grants a request ends -----

  /** The request ends the grant: its code or a token of its was presented again, its tokens have
      all expired when something is issued, it was revoked, or its user lost every app. */
  ghost predicate Ends(a: Auth, op: Op, g: int)
    requires g in a.grants
  {
    match op
    case Redeem(c, code, r, v, at, _, _, _) =>
      || (c in a.clients && code in a.codes && a.codes[code].used && a.codes[code].grant == Some(g))
      || (c in a.clients && Redeemable(a, c, code, r, v, at) && !HasLiveToken(a, g, at))
    case Rotate(c, s, at, _, _) =>
      || (c == a.grants[g].client && s.prefix == RefreshPrefix && s in a.tokens &&
          a.tokens[s].grant == g && a.tokens[s].refresh && a.tokens[s].used)
      || (c in a.clients && Rotatable(a, c, s, at) && !HasLiveToken(a, g, at))
    case Disconnect(u, h) => h == g && a.grants[g].user == u
    case Revoke(s) => s in a.tokens && a.tokens[s].grant == g
    case ResetPassword(u) => a.grants[g].user == u
    case Activate(u, on) => a.grants[g].user == u && !on
    case _ => false
  }

  /** The grant is as it was. */
  ghost predicate Stays(a: Auth, b: Auth, g: int)
    requires g in a.grants
  {
    g in b.grants && b.grants[g] == a.grants[g] && SerialOf(b, g) == SerialOf(a, g)
  }

  /** Over every request: a grant is ended if and only if `Ends` says so, and else stays as it was. */
  lemma GrantsEndExactly(a: Auth, op: Op, g: int)
    requires Inv(a) && Enabled(a, op) && g in a.grants
    ensures var b := Answered(a, op).auth;
            && (Over(b, SerialOf(a, g)) <==> Ends(a, op, g))
            && (!Ends(a, op, g) ==> Stays(a, b, g))
  {
    match op {
      case Redeem(_, _, _, _, _, _, _, _) => RedeemEnds(a, op, g);
      case Rotate(_, _, _, _, _) => RotateEnds(a, op, g);
      case _ => RevocationEnds(a, op, g);
    }
  }

  lemma RevocationEnds(a: Auth, op: Op, g: int)
    requires Inv(a) && Enabled(a, op) && g in a.grants && !op.Redeem? && !op.Rotate?
    ensures var b := Answered(a, op).auth;
            (Over(b, SerialOf(a, g)) <==> Ends(a, op, g)) && (!Ends(a, op, g) ==> Stays(a, b, g))
  {
    match op {
      case Disconnect(u, h) => WithoutSerials(a, {h}, g);
      case Revoke(s) => if s in a.tokens { WithoutSerials(a, {a.tokens[s].grant}, g); }
      case ResetPassword(u) => WithoutSerials(a, UserGrants(a, u), g);
      case Activate(u, on) => ActivateEnds(a, u, on, g);
      case _ =>
    }
  }

  lemma ActivateEnds(a: Auth, u: int, on: bool, g: int)
    requires Inv(a) && g in a.grants
    ensures var b, ends := Answered(a, Activate(u, on)).auth, a.grants[g].user == u && !on;
            (Over(b, SerialOf(a, g)) <==> ends) && (!ends ==> Stays(a, b, g))
  {
    if u in a.users {
      WithoutSerials(a.(users := a.users[u := on]), UserGrants(a, u), g);
    }
  }

  lemma WithoutSerials(a: Auth, gone: set<int>, g: int)
    requires IssuedOk(a) && g in a.grants
    ensures var b := WithoutGrants(a, gone);
            (Over(b, SerialOf(a, g)) <==> g in gone) && (g !in gone ==> Stays(a, b, g))
  {
    SameSerials(a, WithoutGrants(a, gone), g);
  }

  lemma PruneSerials(a: Auth, now: int, g: int)
    requires TablesOk(a) && IssuedOk(a) && g in a.grants
    ensures var b := Prune(a, now);
            (Over(b, SerialOf(a, g)) <==> !HasLiveToken(a, g, now)) && (HasLiveToken(a, g, now) ==> Stays(a, b, g))
  {
    PrunedGrant(a, now, g);
    PrunedTokens(a, now);
    SameSerials(a, Prune(a, now), g);
  }

  /** Where grants only go and keep their numbers, a grant's number goes with it. */
  lemma SameSerials(a: Auth, b: Auth, g: int)
    requires IssuedOk(a) && g in a.grants && b.serials == a.serials && b.approvals == a.approvals
    requires forall h | h in b.grants :: h in a.grants && b.grants[h] == a.grants[h]
    ensures (Over(b, SerialOf(a, g)) <==> g !in b.grants) && (g in b.grants ==> Stays(a, b, g))
  {
  }

  lemma RedeemEnds(a: Auth, op: Op, g: int)
    requires Inv(a) && Enabled(a, op) && g in a.grants && op.Redeem?
    ensures var b := Answered(a, op).auth;
            (Over(b, SerialOf(a, g)) <==> Ends(a, op, g)) && (!Ends(a, op, g) ==> Stays(a, b, g))
  {
    var b := Answered(a, op).auth;
    ExchangeAnswered(a, op.client, op.code, op.redirect, op.verifier, op.at, op.grant, op.access, op.refresh);
    if Answered(a, op).answer.Granted? {
      var p := Prune(a, op.at);
      PruneSerials(a, op.at, g);
      PrunedTokens(a, op.at);
      assert b.grants == p.grants[op.grant := Grant(a.codes[op.code].user, op.client)];
      assert b.serials == p.serials[op.grant := a.approvals];
      ConnectedSerials(p, b, op.grant, SerialOf(a, g), a.approvals);
    } else if op.client in a.clients && op.code in a.codes && a.codes[op.code].used && a.codes[op.code].grant.Some? {
      WithoutSerials(a, {a.codes[op.code].grant.value}, g);
    }
  }

  /** One more grant, with a number of its own. */
  lemma ConnectedSerials(p: Auth, b: Auth, added: int, serial: nat, next: nat)
    requires serial < next == p.approvals && b.approvals == next + 1 && added !in p.grants
    requires b.grants.Keys == p.grants.Keys + {added} && b.serials == p.serials[added := next]
    ensures Over(b, serial) <==> Over(p, serial)
  {
    forall h | h in p.grants ensures SerialOf(b, h) == SerialOf(p, h) {
    }
  }

  lemma RotateEnds(a: Auth, op: Op, g: int)
    requires Inv(a) && Enabled(a, op) && g in a.grants && op.Rotate?
    ensures var b := Answered(a, op).auth;
            (Over(b, SerialOf(a, g)) <==> Ends(a, op, g)) && (!Ends(a, op, g) ==> Stays(a, b, g))
  {
    RefreshAnswered(a, op.client, op.presented, op.at, op.access, op.refresh);
    if Answered(a, op).answer.Granted? {
      var h := a.tokens[op.presented].grant;
      var c := IssueTokens(Rotated(a, op.client, op.presented, op.at), h, op.at, op.access, op.refresh);
      RotatedKeeps(a, op.client, op.presented, op.at);
      IssueKeeps(Rotated(a, op.client, op.presented, op.at), h, op.at, op.access, op.refresh);
      PruneSerials(c, op.at, g);
      RotationLives(a, op.client, op.presented, op.at, op.access, op.refresh, g);
    } else if op.presented in a.tokens {
      WithoutSerials(a, {a.tokens[op.presented].grant}, g);
    }
  }

  /** The token just presented was live, so its grant had a live token before and after. */
  lemma RotationLives(a: Auth, client: int, s: Secret, now: int, access: Secret, refresh: Secret, g: int)
    requires Rotatable(a, client, s, now) && access !in a.tokens && refresh !in a.tokens && access != refresh
    ensures HasLiveToken(IssueTokens(Rotated(a, client, s, now), a.tokens[s].grant, now, access, refresh), g, now) <==>
            HasLiveToken(a, g, now)
  {
    var c := IssueTokens(Rotated(a, client, s, now), a.tokens[s].grant, now, access, refresh);
    forall t | t in a.tokens ensures t in c.tokens && c.tokens[t].grant == a.tokens[t].grant && c.tokens[t].expires == a.tokens[t].expires {
    }
    forall t | t in c.tokens ensures t in a.tokens || c.tokens[t].grant == a.tokens[s].grant {
    }
  }

  // ----- which clients a registration removes -----

  /** When the client was last heard of. */
  function LastSeen(c: Client): int { if c.lastUsed.Some? then c.lastUsed.value else c.created }

  /** A registration removes exactly the clients no user has connected that were not heard of
      for thirty days, and with them their codes. */
  lemma RegistrationRemoves(a: Auth, id: int, now: int, c: int, code: Secret)
    ensures var b := RegisterClient(a, id, now);
            var idle := c in a.clients && (forall g | g in a.grants :: a.grants[g].client != c) && LastSeen(a.clients[c]) + 30 * 24 * 3600 <= now;
            && (c != id ==> (c in b.clients <==> c in a.clients && !idle))
            && (c != id && c in b.clients ==> b.clients[c] == a.clients[c])
            && id in b.clients && b.clients[id] == Client(now, None)
            && (code in a.codes && a.codes[code].client == c ==> (code in b.codes <==> !idle) && (!idle ==> b.codes[code] == a.codes[code]))
            && (code in b.codes ==> code in a.codes)
            && b.grants == a.grants && b.tokens == a.tokens && b.users == a.users
  {
  }

  /** Getting tokens counts as being heard of. */
  lemma TokensTouch(a: Auth, op: Op, c: int)
    requires (op.Redeem? || op.Rotate?) && Answered(a, op).answer.Granted? && c in a.clients
    ensures var b := Answered(a, op).auth;
            && c in b.clients && op.client in b.clients && LastSeen(b.clients[op.client]) == op.at
            && (c != op.client ==> b.clients[c] == a.clients[c])
  {
  }
}
