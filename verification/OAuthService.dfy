/**
  The grant and token service as the source runs it: each method issues its
  statements in order against the tables, and its contract is the transaction
  function of `OAuth`.
 */
module OAuthService {
  import opened Sequences
  import opened OAuth
  import opened OAuthEffects

  datatype NewToken = NewToken(secret: Secret, refresh: bool, ttl: int)

  class Service {
    var users: map<int, bool>
    var clients: map<int, Client>
    var codes: map<Secret, Code>
    var grants: map<int, Grant>
    var tokens: map<Secret, Token>
    ghost var issued: map<Secret, Issue>
    ghost var approvals: nat
    ghost var serials: map<int, nat>

    ghost function State(): Auth
      reads this
    {
      Auth(users, clients, codes, grants, tokens, approvals, serials, issued)
    }

    constructor ()
      ensures State() == NOTHING
    {
      users, clients, codes, grants, tokens := map[], map[], map[], map[], map[];
      approvals, serials, issued := 0, map[], map[];
    }

    // ----- statements -----

    method DeleteExpiredCodes(now: int)
      modifies this`codes
      ensures codes == LiveCodes(old(codes), now)
    {
      codes := map s | s in codes && codes[s].expires > now :: codes[s];
    }

    method DeleteExpiredTokens(now: int)
      modifies this`tokens
      ensures tokens == LiveTokens(old(tokens), now)
    {
      tokens := map s | s in tokens && tokens[s].expires > now :: tokens[s];
    }

    /** The foreign keys cascade to tokens and clear the grant of a redeemed code. */
    method DeleteGrants(gone: set<int>)
      modifies this`grants, this`tokens, this`codes
      ensures State() == WithoutGrants(old(State()), gone)
    {
      grants := grants - gone;
      tokens := map s | s in tokens && tokens[s].grant !in gone :: tokens[s];
      codes := map s | s in codes ::
        if codes[s].grant.Some? && codes[s].grant.value in gone then codes[s].(grant := None) else codes[s];
    }

    method DeleteUserGrants(user: int)
      modifies this`grants, this`tokens, this`codes
      ensures State() == WithoutGrants(old(State()), UserGrants(old(State()), user))
    {
      var gone := set g | g in grants && grants[g].user == user;
      assert gone == UserGrants(State(), user);
      DeleteGrants(gone);
    }

    method TouchClient(client: int, now: int)
      modifies this`clients
      ensures clients == Touched(old(clients), client, now)
    {
      if client in clients {
        clients := clients[client := clients[client].(lastUsed := Some(now))];
      }
    }

    /** Marks an unused code; the number of rows it changed. */
    method UseCode(code: Secret, g: int) returns (n: nat)
      modifies this`codes
      ensures n == if code in old(codes) && !old(codes)[code].used then 1 else 0
      ensures codes == if n == 1 then old(codes)[code := old(codes)[code].(used := true, grant := Some(g))] else old(codes)
    {
      n := 0;
      if code in codes && !codes[code].used {
        codes := codes[code := codes[code].(used := true, grant := Some(g))];
        n := 1;
      }
    }

    method UseToken(secret: Secret) returns (n: nat)
      modifies this`tokens
      ensures n == if secret in old(tokens) && !old(tokens)[secret].used then 1 else 0
      ensures tokens == if n == 1 then old(tokens)[secret := old(tokens)[secret].(used := true)] else old(tokens)
    {
      n := 0;
      if secret in tokens && !tokens[secret].used {
        tokens := tokens[secret := tokens[secret].(used := true)];
        n := 1;
      }
    }

    // ----- steps shared by the transactions -----

    method PruneTables(now: int)
      modifies this`grants, this`tokens, this`codes
      ensures State() == Prune(old(State()), now)
    {
      DeleteExpiredCodes(now);
      DeleteExpiredTokens(now);
      var empty := set g | g in grants && forall s | s in tokens :: tokens[s].grant != g;
      assert empty == EmptyGrants(State());
      DeleteGrants(empty);
    }

    method IssuePair(g: int, now: int, access: Secret, refresh: Secret)
      modifies this`tokens, this`issued
      ensures State() == IssueTokens(old(State()), g, now, access, refresh)
    {
      var pair := [NewToken(access, false, ACCESS_TTL), NewToken(refresh, true, REFRESH_TTL)];
      ghost var serial := SerialOf(State(), g);
      var i := 0;
      while i < |pair|
        invariant 0 <= i <= 2
        invariant tokens == match i
                            case 0 => old(tokens)
                            case 1 => old(tokens)[access := Token(g, false, now + ACCESS_TTL, false)]
                            case _ => IssueTokens(old(State()), g, now, access, refresh).tokens
        invariant issued == match i
                            case 0 => old(issued)
                            case 1 => old(issued)[access := AsToken(serial, false)]
                            case _ => IssueTokens(old(State()), g, now, access, refresh).issued
      {
        var t := pair[i];
        tokens := tokens[t.secret := Token(g, t.refresh, now + t.ttl, false)];
        issued := issued[t.secret := AsToken(serial, t.refresh)];
        i := i + 1;
      }
    }

    // ----- requests -----

    method Register(id: int, now: int)
      modifies this
      ensures State() == RegisterClient(old(State()), id, now)
    {
      var before := now - IDLE_CLIENT_TTL;
      var idle := set c | c in clients &&
                          (if clients[c].lastUsed.Some? then clients[c].lastUsed.value else clients[c].created) <= before &&
                          forall g | g in grants :: grants[g].client != c;
      assert idle == Idle(State(), now);
      codes := map s | s in codes && codes[s].client !in idle :: codes[s];
      clients := (clients - idle)[id := Client(now, None)];
    }

    method Approve(user: int, client: int, redirect: string, challenge: int, code: Secret, now: int)
      modifies this
      ensures State() == IssueCode(old(State()), user, client, redirect, challenge, code, now)
    {
      DeleteExpiredCodes(now);
      codes := codes[code := Code(user, client, redirect, challenge, now + CODE_TTL, false, None)];
      issued := issued[code := AsCode];
    }

    /** The new grant, the code marked as used by it. */
    method Connect(row: Code, client: int, code: Secret, now: int, g: int)
      requires code in codes && !row.used && codes[code] == row.(grant := codes[code].grant)
      modifies this
      ensures State() == Connected(old(State()), row, client, code, now, g)
    {
      grants := grants[g := Grant(row.user, client)];
      approvals, serials := approvals + 1, serials[g := approvals];
      var n := UseCode(code, g);
      if n != 1 {
        assert false; // an unexpired, unused code survives the prune
      }
      TouchClient(client, now);
    }

    /** One pass through the transaction of ExchangeCode for a stored code. */
    method RedeemStored(
        client: int, code: Secret, redirect: string, verifier: int, now: int, g: int, access: Secret, refresh: Secret)
      returns (failed: bool, reused: bool)
      requires client in clients && code in codes
      modifies this
      ensures var r := Exchange(old(State()), client, code, redirect, verifier, now, g, access, refresh);
              State() == r.auth && r.answer == if failed || reused then InvalidGrant else Granted(access, refresh)
    {
      failed, reused := true, false;
      var row := codes[code];
      PrunedCodes(State(), now, code);
      if row.used {
        failed, reused := false, true;
        if row.grant.Some? {
          DeleteGrants({row.grant.value});
        }
        return;
      }
      if row.expires <= now || row.client != client {
        return;
      }
      if redirect != "" && redirect != row.redirect {
        return;
      }
      if row.challenge != verifier {
        return;
      }
      if row.user !in users || !users[row.user] {
        return;
      }
      PruneTables(now);
      Connect(row, client, code, now, g);
      IssuePair(g, now, access, refresh);
      failed := false;
    }

    method ExchangeCode(
        client: int, code: Secret, redirect: string, verifier: int, now: int, g: int, access: Secret, refresh: Secret)
      returns (answer: Answer)
      modifies this
      ensures Reply(State(), answer) == Exchange(old(State()), client, code, redirect, verifier, now, g, access, refresh)
      ensures answer.Granted? <==> client in old(clients) && Redeemable(old(State()), client, code, redirect, verifier, now)
      ensures answer.Granted? && access.prefix == AccessPrefix && refresh.prefix == RefreshPrefix ==>
                LastsAsIssued(State(), access, refresh, client, old(codes)[code].user, now)
    {
      ExchangeAnswered(State(), client, code, redirect, verifier, now, g, access, refresh);
      if access.prefix == AccessPrefix && refresh.prefix == RefreshPrefix &&
         Exchange(State(), client, code, redirect, verifier, now, g, access, refresh).answer.Granted? {
        ExchangedPairLasts(State(), client, code, redirect, verifier, now, g, access, refresh);
      }
      if client !in clients {
        return InvalidClient;
      }
      if code !in codes {
        return InvalidGrant;
      }
      var failed, reused := RedeemStored(client, code, redirect, verifier, now, g, access, refresh);
      if failed || reused {
        return InvalidGrant;
      }
      return Granted(access, refresh);
    }

    /** One pass through the transaction of Refresh for a stored token. */
    method RotateStored(client: int, secret: Secret, now: int, access: Secret, refresh: Secret)
      returns (failed: bool, reused: bool)
      requires client in clients && secret in tokens && secret.prefix == RefreshPrefix
      modifies this
      ensures var r := OAuth.Refresh(old(State()), client, secret, now, access, refresh);
              State() == r.auth && r.answer == if failed || reused then InvalidGrant else Granted(access, refresh)
    {
      failed, reused := true, false;
      var row := tokens[secret];
      if row.grant !in grants || !row.refresh || grants[row.grant].client != client {
        return;
      }
      if row.used {
        failed, reused := false, true;
        DeleteGrants({row.grant});
        return;
      }
      if row.expires <= now {
        return;
      }
      var user := grants[row.grant].user;
      if user !in users || !users[user] {
        return;
      }
      var n := UseToken(secret);
      if n != 1 {
        assert false; // the row was read unused in this transaction
      }
      TouchClient(client, now);
      IssuePair(row.grant, now, access, refresh);
      PruneTables(now);
      failed := false;
    }

    method Refresh(client: int, secret: Secret, now: int, access: Secret, refresh: Secret) returns (answer: Answer)
      modifies this
      ensures Reply(State(), answer) == OAuth.Refresh(old(State()), client, secret, now, access, refresh)
      ensures answer.Granted? <==> client in old(clients) && Rotatable(old(State()), client, secret, now)
      ensures answer.Granted? && old(FreshSecrets(State(), access, refresh)) ==>
                LastsAsIssued(State(), access, refresh, client, old(grants[tokens[secret].grant].user), now)
    {
      RefreshAnswered(State(), client, secret, now, access, refresh);
      if FreshSecrets(State(), access, refresh) && OAuth.Refresh(State(), client, secret, now, access, refresh).answer.Granted? {
        RotatedPairLasts(State(), client, secret, now, access, refresh);
      }
      if client !in clients {
        return InvalidClient;
      }
      if secret.prefix != RefreshPrefix || secret !in tokens {
        return InvalidGrant;
      }
      var failed, reused := RotateStored(client, secret, now, access, refresh);
      if failed || reused {
        return InvalidGrant;
      }
      return Granted(access, refresh);
    }

    method AuthenticateAccessToken(secret: Secret, now: int) returns (user: Option<int>)
      ensures user == Authenticate(State(), secret, now)
    {
      if secret.prefix != AccessPrefix || secret !in tokens {
        return None;
      }
      var row := tokens[secret];
      if row.refresh || row.expires <= now || row.grant !in grants {
        return None;
      }
      var owner := grants[row.grant].user;
      if owner !in users || !users[owner] {
        return None;
      }
      return Some(owner);
    }

    method Disconnect(user: int, g: int) returns (r: Result<()>)
      modifies this
      ensures match OAuth.RevokeGrant(old(State()), user, g)
              case Ok(a) => r.Ok? && State() == a
              case Err(e) => r == Err(e) && State() == old(State())
    {
      var found := g in grants && grants[g].user == user;
      if found {
        DeleteGrants({g});
        return Ok(());
      }
      return Err(NotFound);
    }

    method Revoke(secret: Secret)
      modifies this
      ensures State() == RevokeToken(old(State()), secret)
    {
      if secret in tokens && tokens[secret].grant in grants {
        DeleteGrants({tokens[secret].grant});
      }
    }

    method ResetPassword(user: int) returns (r: Result<()>)
      modifies this
      ensures match SetPassword(old(State()), user)
              case Ok(a) => r.Ok? && State() == a
              case Err(e) => r == Err(e) && State() == old(State())
    {
      if user !in users {
        return Err(NotFound);
      }
      DeleteUserGrants(user);
      return Ok(());
    }

    method UpdateUser(user: int, active: Option<bool>) returns (r: Result<()>)
      modifies this
      ensures var wanted := if active.Some? then active.value else user in old(users) && old(users)[user];
              match SetActive(old(State()), user, wanted)
              case Ok(a) => r.Ok? && State() == a
              case Err(e) => r == Err(e) && State() == old(State())
    {
      if user !in users {
        return Err(NotFound);
      }
      var isActive := users[user];
      if active.Some? {
        isActive := active.value;
      }
      users := users[user := isActive];
      if !isActive {
        DeleteUserGrants(user);
      }
      return Ok(());
    }
  }
}
