/**
  Grants, authorization codes and rotating tokens (internal/auth/oauth.go), as
  one function per transaction. Secrets are compared by their hashes, which are
  taken to be injective, so the tables are keyed by the secret itself.
 */
module OAuth {
  import opened Sequences

  datatype Prefix = Plain | AccessPrefix | RefreshPrefix

  datatype Secret = Secret(prefix: Prefix, nonce: int)

  const ACCESS_TTL: int := 3600
  const REFRESH_TTL: int := 60 * 24 * 3600
  const CODE_TTL: int := 60
  const IDLE_CLIENT_TTL: int := 30 * 24 * 3600

  datatype Client = Client(created: int, lastUsed: Option<int>)

  datatype Code = Code(
    user: int, client: int, redirect: string, challenge: int, expires: int, used: bool, grant: Option<int>)

  datatype Grant = Grant(user: int, client: int)

  datatype Token = Token(grant: int, refresh: bool, expires: int, used: bool)

  /** What a secret was handed out as. */
  datatype Issue = AsCode | AsToken(serial: nat, refresh: bool)

  /** The tables, and for the proofs, as row ids may be reused: the approvals counted,
      the number of the approval behind each grant row, and every secret ever issued. */
  datatype Auth = Auth(
    users: map<int, bool>, // active or not
    clients: map<int, Client>,
    codes: map<Secret, Code>,
    grants: map<int, Grant>,
    tokens: map<Secret, Token>,
    approvals: nat,
    serials: map<int, nat>,
    issued: map<Secret, Issue>)

  const NOTHING := Auth(map[], map[], map[], map[], map[], 0, map[], map[])

  datatype Answer = Granted(access: Secret, refresh: Secret) | InvalidGrant | InvalidClient

  datatype Reply = Reply(auth: Auth, answer: Answer)

  // ----- deletions and their cascades -----

  function LiveCodes(codes: map<Secret, Code>, now: int): map<Secret, Code> {
    map s | s in codes && codes[s].expires > now :: codes[s]
  }

  function LiveTokens(tokens: map<Secret, Token>, now: int): map<Secret, Token> {
    map s | s in tokens && tokens[s].expires > now :: tokens[s]
  }

  /** Deleting grants deletes their tokens and unlinks their codes. */
  function WithoutGrants(a: Auth, gone: set<int>): Auth {
    a.(grants := a.grants - gone,
       tokens := map s | s in a.tokens && a.tokens[s].grant !in gone :: a.tokens[s],
       codes := map s | s in a.codes ::
         if a.codes[s].grant.Some? && a.codes[s].grant.value in gone then a.codes[s].(grant := None) else a.codes[s])
  }

  function EmptyGrants(a: Auth): set<int> {
    set g | g in a.grants && forall s | s in a.tokens :: a.tokens[s].grant != g
  }

  function UserGrants(a: Auth, user: int): set<int> {
    set g | g in a.grants && a.grants[g].user == user
  }

  /** First the codes and tokens past their time, then every grant without any token. */
  function Prune(a: Auth, now: int): Auth {
    var b := a.(codes := LiveCodes(a.codes, now), tokens := LiveTokens(a.tokens, now));
    WithoutGrants(b, EmptyGrants(b))
  }

  // ----- requests -----

  function Idle(a: Auth, now: int): set<int> {
    set c | c in a.clients &&
            (if a.clients[c].lastUsed.Some? then a.clients[c].lastUsed.value else a.clients[c].created) <= now - IDLE_CLIENT_TTL &&
            forall g | g in a.grants :: a.grants[g].client != c
  }

  function RegisterClient(a: Auth, id: int, now: int): Auth {
    var idle := Idle(a, now);
    a.(clients := (a.clients - idle)[id := Client(now, None)],
       codes := map s | s in a.codes && a.codes[s].client !in idle :: a.codes[s])
  }

  function IssueCode(a: Auth, user: int, client: int, redirect: string, challenge: int, code: Secret, now: int): Auth {
    a.(codes := LiveCodes(a.codes, now)[code := Code(user, client, redirect, challenge, now + CODE_TTL, false, None)],
       issued := a.issued[code := AsCode])
  }

  function Touched(clients: map<int, Client>, c: int, now: int): map<int, Client> {
    if c in clients then clients[c := clients[c].(lastUsed := Some(now))] else clients
  }

  /** The number of the approval behind a grant row. */
  function SerialOf(a: Auth, g: int): nat { if g in a.serials then a.serials[g] else 0 }

  /** A new access and a new refresh token for a grant. */
  function IssueTokens(a: Auth, g: int, now: int, access: Secret, refresh: Secret): Auth {
    var serial := SerialOf(a, g);
    a.(tokens := a.tokens[access := Token(g, false, now + ACCESS_TTL, false)][refresh := Token(g, true, now + REFRESH_TTL, false)],
       issued := a.issued[access := AsToken(serial, false)][refresh := AsToken(serial, true)])
  }

  predicate UserActive(a: Auth, user: int) { user in a.users && a.users[user] }

  /** Why an unused, stored code does not redeem. */
  predicate CodeRefused(a: Auth, row: Code, client: int, redirect: string, verifier: int, now: int) {
    row.expires <= now || row.client != client || (redirect != "" && redirect != row.redirect) ||
    row.challenge != verifier || !UserActive(a, row.user)
  }

  /** The grant a redeemed code turns into, before its tokens. */
  function Connected(a: Auth, row: Code, client: int, code: Secret, now: int, g: int): Auth {
    a.(grants := a.grants[g := Grant(row.user, client)], approvals := a.approvals + 1, serials := a.serials[g := a.approvals],
       codes := a.codes[code := row.(used := true, grant := Some(g))],
       clients := Touched(a.clients, client, now))
  }

  /** An authorization code for tokens. `g` is the key the table gives the grant. */
  function Exchange(
    a: Auth, client: int, code: Secret, redirect: string, verifier: int, now: int, g: int, access: Secret, refresh: Secret): Reply
  {
    if client !in a.clients then Reply(a, InvalidClient)
    else if code !in a.codes then Reply(a, InvalidGrant)
    else
      var row := a.codes[code];
      if row.used then
        Reply(if row.grant.Some? then WithoutGrants(a, {row.grant.value}) else a, InvalidGrant)
      else if CodeRefused(a, row, client, redirect, verifier, now) then Reply(a, InvalidGrant)
      else
        Reply(IssueTokens(Connected(Prune(a, now), row, client, code, now, g), g, now, access, refresh), Granted(access, refresh))
  }

  /** Why a stored, unused refresh token does not rotate. */
  predicate RotationRefused(a: Auth, row: Token, now: int) {
    row.expires <= now || row.grant !in a.grants || !UserActive(a, a.grants[row.grant].user)
  }

  /** The presented token marked as used, before the new pair. */
  function Rotated(a: Auth, client: int, secret: Secret, now: int): Auth
    requires secret in a.tokens
  {
    a.(tokens := a.tokens[secret := a.tokens[secret].(used := true)], clients := Touched(a.clients, client, now))
  }

  /** A refresh token for a new pair. */
  function Refresh(a: Auth, client: int, secret: Secret, now: int, access: Secret, refresh: Secret): Reply {
    if client !in a.clients then Reply(a, InvalidClient)
    else if secret.prefix != RefreshPrefix || secret !in a.tokens then Reply(a, InvalidGrant)
    else
      var row := a.tokens[secret];
      if row.grant !in a.grants || !row.refresh || a.grants[row.grant].client != client then Reply(a, InvalidGrant)
      else if row.used then Reply(WithoutGrants(a, {row.grant}), InvalidGrant)
      else if RotationRefused(a, row, now) then Reply(a, InvalidGrant)
      else
        var b := Rotated(a, client, secret, now);
        Reply(Prune(IssueTokens(b, row.grant, now, access, refresh), now), Granted(access, refresh))
  }

  /** The user an access token speaks for. */
  function Authenticate(a: Auth, secret: Secret, now: int): Option<int> {
    if secret.prefix != AccessPrefix || secret !in a.tokens then None
    else
      var row := a.tokens[secret];
      if row.refresh || row.expires <= now || row.grant !in a.grants || !UserActive(a, a.grants[row.grant].user) then None
      else Some(a.grants[row.grant].user)
  }

  function RevokeGrant(a: Auth, user: int, g: int): Result<Auth> {
    if g in a.grants && a.grants[g].user == user then Ok(WithoutGrants(a, {g})) else Err(NotFound)
  }

  function RevokeToken(a: Auth, secret: Secret): Auth {
    if secret in a.tokens && a.tokens[secret].grant in a.grants then WithoutGrants(a, {a.tokens[secret].grant}) else a
  }

  function SetPassword(a: Auth, user: int): Result<Auth> {
    if user in a.users then Ok(WithoutGrants(a, UserGrants(a, user))) else Err(NotFound)
  }

  /** An administrator's change: deactivation disconnects every app. */
  function SetActive(a: Auth, user: int, active: bool): Result<Auth> {
    if user !in a.users then Err(NotFound)
    else
      var b := a.(users := a.users[user := active]);
      Ok(if active then b else WithoutGrants(b, UserGrants(b, user)))
  }

  // ----- pruning is transparent -----

  /** For any next call, now or later, the prune makes no difference to the answer. */
  lemma PruneIsTransparent(
    a: Auth, now: int, later: int, s: Secret, client: int, redirect: string, verifier: int, g: int, access: Secret, refresh: Secret)
    requires TablesOk(a) && now <= later
    ensures Authenticate(Prune(a, now), s, later) == Authenticate(a, s, later)
    ensures Exchange(Prune(a, now), client, s, redirect, verifier, later, g, access, refresh).answer ==
            Exchange(a, client, s, redirect, verifier, later, g, access, refresh).answer
    ensures Refresh(Prune(a, now), client, s, later, access, refresh).answer == Refresh(a, client, s, later, access, refresh).answer
  {
    PrunedTokens(a, now);
    PruneKeepsRefresh(a, now, later, client, s, access, refresh);
    PruneKeepsExchange(a, now, later, client, s, redirect, verifier, g, access, refresh);
  }

  lemma PruneKeepsRefresh(a: Auth, now: int, later: int, client: int, s: Secret, access: Secret, refresh: Secret)
    requires TablesOk(a) && now <= later
    ensures Refresh(Prune(a, now), client, s, later, access, refresh).answer == Refresh(a, client, s, later, access, refresh).answer
  {
    PrunedTokens(a, now);
  }

  lemma PruneKeepsExchange(
    a: Auth, now: int, later: int, client: int, code: Secret, redirect: string, verifier: int, g: int, access: Secret, refresh: Secret)
    requires TablesOk(a) && now <= later
    ensures Exchange(Prune(a, now), client, code, redirect, verifier, later, g, access, refresh).answer ==
            Exchange(a, client, code, redirect, verifier, later, g, access, refresh).answer
  {
    PrunedTokens(a, now);
    PrunedCodes(a, now, code);
  }

  /** Foreign keys: what a row points to exists. */
  ghost predicate TablesOk(a: Auth) {
    && (forall s | s in a.tokens :: a.tokens[s].grant in a.grants)
    && (forall g | g in a.grants :: a.grants[g].client in a.clients && a.grants[g].user in a.users)
    && (forall s | s in a.codes :: a.codes[s].client in a.clients)
    && (forall s | s in a.codes && a.codes[s].grant.Some? :: a.codes[s].grant.value in a.grants)
  }

  /** A prune removes exactly the expired tokens, and no grant that still has one. */
  lemma PrunedTokens(a: Auth, now: int)
    requires TablesOk(a)
    ensures Prune(a, now).tokens == LiveTokens(a.tokens, now)
    ensures forall s | s in Prune(a, now).tokens :: Prune(a, now).tokens[s].grant in Prune(a, now).grants
    ensures forall g | g in Prune(a, now).grants :: g in a.grants && Prune(a, now).grants[g] == a.grants[g]
    ensures Prune(a, now).users == a.users && Prune(a, now).clients == a.clients
    ensures Prune(a, now).approvals == a.approvals && Prune(a, now).serials == a.serials && Prune(a, now).issued == a.issued
  {
    var b := a.(codes := LiveCodes(a.codes, now), tokens := LiveTokens(a.tokens, now));
    var gone := EmptyGrants(b);
    forall s | s in b.tokens ensures b.tokens[s].grant !in gone {
    }
    assert Prune(a, now).tokens == b.tokens;
  }

  lemma PrunedCodes(a: Auth, now: int, s: Secret)
    ensures s in Prune(a, now).codes <==> s in a.codes && a.codes[s].expires > now
    ensures s in Prune(a, now).codes ==>
              Prune(a, now).codes[s] == a.codes[s].(grant := Prune(a, now).codes[s].grant)
  {
  }

  // ----- what presenting a spent secret ends -----

  /** A rotated, stored refresh token presented by any client is refused, and ends its
      grant if and only if the grant is that client's; otherwise nothing changes. */
  lemma ReplayedTokenEnds(a: Auth, client: int, s: Secret, now: int, access: Secret, refresh: Secret)
    requires TablesOk(a) && s in a.tokens && s.prefix == RefreshPrefix && a.tokens[s].refresh && a.tokens[s].used
    ensures var r, g := Refresh(a, client, s, now, access, refresh), a.tokens[s].grant;
            && r.answer == (if client in a.clients then InvalidGrant else InvalidClient)
            && (g !in r.auth.grants <==> client == a.grants[g].client)
            && (client != a.grants[g].client ==> r.auth == a)
  {
  }

  /** A redeemed, stored code presented by any client is refused, and ends the grant it
      leads to if and only if the client is registered; otherwise nothing changes. */
  lemma ReplayedCodeEnds(
    a: Auth, client: int, code: Secret, redirect: string, verifier: int, now: int, g: int, access: Secret, refresh: Secret)
    requires TablesOk(a) && code in a.codes && a.codes[code].used && a.codes[code].grant.Some?
    ensures var r, h := Exchange(a, client, code, redirect, verifier, now, g, access, refresh), a.codes[code].grant.value;
            && r.answer == (if client in a.clients then InvalidGrant else InvalidClient)
            && (h !in r.auth.grants <==> client in a.clients)
            && (client !in a.clients ==> r.auth == a)
  {
  }

  /** What a prune does change: after one the grant of a replayed token survives if and
      only if it has a live token and either the client is not its own, as without the
      prune, or the replayed token had expired and was forgotten. */
  lemma PruneForgetsExpiredLeaks(a: Auth, now: int, s: Secret, client: int, access: Secret, refresh: Secret)
    requires TablesOk(a) && s in a.tokens && s.prefix == RefreshPrefix && a.tokens[s].refresh && a.tokens[s].used
    ensures var g := a.tokens[s].grant;
            g in Refresh(Prune(a, now), client, s, now, access, refresh).auth.grants <==>
              HasLiveToken(a, g, now) && (client != a.grants[g].client || a.tokens[s].expires <= now)
  {
    var g, p := a.tokens[s].grant, Prune(a, now);
    PrunedTokens(a, now);
    PrunedGrant(a, now, g);
    if s in p.tokens {
      assert p.tokens[s] == a.tokens[s] && g in p.grants;
    }
  }

  ghost predicate HasLiveToken(a: Auth, g: int, now: int) {
    exists t | t in a.tokens :: a.tokens[t].grant == g && a.tokens[t].expires > now
  }

  /** The same for codes: the grant of a replayed code survives a prune if and only if it
      has a live token and either the client is unknown, as without the prune, or the
      code had expired and was forgotten. */
  lemma PruneForgetsUsedCodes(
    a: Auth, now: int, client: int, code: Secret, redirect: string, verifier: int, g: int, access: Secret, refresh: Secret)
    requires TablesOk(a) && code in a.codes && a.codes[code].used && a.codes[code].grant.Some?
    ensures var h := a.codes[code].grant.value;
            h in Exchange(Prune(a, now), client, code, redirect, verifier, now, g, access, refresh).auth.grants <==>
              HasLiveToken(a, h, now) && (client !in a.clients || a.codes[code].expires <= now)
  {
    PrunedTokens(a, now);
    PrunedCodes(a, now, code);
    PrunedGrant(a, now, a.codes[code].grant.value);
    if code in Prune(a, now).codes {
      PrunedLink(a, now, code);
    }
  }

  /** A code that survives a prune keeps its link exactly if its grant survives too. */
  lemma PrunedLink(a: Auth, now: int, code: Secret)
    requires TablesOk(a) && code in a.codes && a.codes[code].grant.Some? && code in Prune(a, now).codes
    ensures Prune(a, now).codes[code].grant == if a.codes[code].grant.value in Prune(a, now).grants then a.codes[code].grant else None
  {
  }

  lemma PrunedGrant(a: Auth, now: int, g: int)
    requires TablesOk(a) && g in a.grants
    ensures g in Prune(a, now).grants <==> HasLiveToken(a, g, now)
  {
    var b := a.(codes := LiveCodes(a.codes, now), tokens := LiveTokens(a.tokens, now));
    if exists t | t in a.tokens :: a.tokens[t].grant == g && a.tokens[t].expires > now {
      var t :| t in a.tokens && a.tokens[t].grant == g && a.tokens[t].expires > now;
      assert t in b.tokens && b.tokens[t].grant == g;
    }
  }

  // ----- issuing -----

  /** A successful exchange leaves its grant in place with a working pair: the
      prune before it cannot take the new grant away. */
  lemma ExchangeIssues(
    a: Auth, client: int, code: Secret, redirect: string, verifier: int, now: int, g: int, access: Secret, refresh: Secret)
    requires access.prefix == AccessPrefix && refresh.prefix == RefreshPrefix
    requires Exchange(a, client, code, redirect, verifier, now, g, access, refresh).answer.Granted?
    ensures var b := Exchange(a, client, code, redirect, verifier, now, g, access, refresh).auth;
            && g in b.grants && b.grants[g].client == client && b.grants[g].user == a.codes[code].user
            && Authenticate(b, access, now) == Some(a.codes[code].user)
            && refresh in b.tokens && b.tokens[refresh] == Token(g, true, now + REFRESH_TTL, false)
            && code in b.codes && b.codes[code] == a.codes[code].(used := true, grant := Some(g))
  {
  }

  lemma RotationTables(a: Auth, client: int, s: Secret, now: int, access: Secret, refresh: Secret)
    requires TablesOk(a) && s in a.tokens
    ensures TablesOk(IssueTokens(Rotated(a, client, s, now), a.tokens[s].grant, now, access, refresh))
  {
  }

  /** A successful rotation leaves its grant in place with a working new pair: by
      then the new tokens keep the prune away from it. */
  lemma RefreshIssues(a: Auth, client: int, s: Secret, now: int, access: Secret, refresh: Secret)
    requires TablesOk(a) && access.prefix == AccessPrefix && refresh.prefix == RefreshPrefix
    requires access !in a.tokens && refresh !in a.tokens
    requires Refresh(a, client, s, now, access, refresh).answer.Granted?
    ensures var b, g := Refresh(a, client, s, now, access, refresh).auth, a.tokens[s].grant;
            && g in b.grants && b.grants[g] == a.grants[g]
            && Authenticate(b, access, now) == Some(a.grants[g].user)
            && refresh in b.tokens && b.tokens[refresh] == Token(g, true, now + REFRESH_TTL, false)
            && s in b.tokens && b.tokens[s] == a.tokens[s].(used := true)
  {
    var g := a.tokens[s].grant;
    var c := IssueTokens(Rotated(a, client, s, now), g, now, access, refresh);
    RotationTables(a, client, s, now, access, refresh);
    PrunedTokens(c, now);
    assert access in c.tokens && c.tokens[access].grant == g;
    PrunedGrant(c, now, g);
  }

  /** Pruning between creating a grant and issuing its tokens would drop it. */
  lemma PruneDropsUntokenedGrant(a: Auth, now: int, g: int, grant: Grant)
    requires TablesOk(a) && g !in a.grants
    ensures g !in Prune(a.(grants := a.grants[g := grant]), now).grants
  {
    var b := a.(grants := a.grants[g := grant]);
    forall s | s in b.tokens ensures b.tokens[s].grant != g {
    }
  }
}
