/** Over whole runs: exactly until when every secret handed out is accepted. */
module OAuthLifetimes {
  import opened Sequences
  import opened OAuth
  import opened OAuthRuns
  import opened OAuthConsent
  import opened OAuthEffects

  /** No request of the steps from `i` up to `j` saw a later clock than `t`. */
  ghost predicate NoLaterThan(ops: seq<Op>, i: nat, j: nat, t: int)
    requires j <= |ops|
  {
    forall k | i <= k < j :: Reads(ops[k]) <= t || Timeless(ops[k])
  }

  predicate Timeless(op: Op) { !op.Register? && !op.Approve? && !op.Redeem? && !op.Rotate? }

  function Reads(op: Op): int {
    match op
    case Register(_, at) => at
    case Approve(_, _, _, _, _, at) => at
    case Redeem(_, _, _, _, at, _, _, _) => at
    case Rotate(_, _, at, _, _) => at
    case _ => 0
  }

  /** One of the steps from `i` up to `j` redeems the secret. */
  ghost predicate RedeemedIn(states: seq<Auth>, ops: seq<Op>, i: nat, j: nat, s: Secret)
    requires j <= |ops| <= |states|
  {
    exists k | i <= k < j :: Redeems(states[k], ops[k], s)
  }

  lemma RedeemedInOne(states: seq<Auth>, ops: seq<Op>, i: nat, j: nat, s: Secret)
    requires i <= j < |ops| <= |states|
    ensures RedeemedIn(states, ops, i, j + 1, s) <==> RedeemedIn(states, ops, i, j, s) || Redeems(states[j], ops[j], s)
  {
    if RedeemedIn(states, ops, i, j + 1, s) {
      var k :| i <= k < j + 1 && Redeems(states[k], ops[k], s);
      assert k < j || k == j;
    }
  }

  // ----- users behind grants are active -----

  ghost predicate OwnersActive(a: Auth) { forall g | g in a.grants :: UserActive(a, a.grants[g].user) }

  lemma OwnersStayActive(a: Auth, op: Op)
    requires Inv(a) && Enabled(a, op) && OwnersActive(a)
    ensures OwnersActive(Answered(a, op).auth)
  {
    var b := Answered(a, op).auth;
    forall g | g in b.grants ensures UserActive(b, b.grants[g].user) {
      GrantStep(a, op, g);
      UsersStep(a, op, b.grants[g].user);
      if op.Activate? && op.user == b.grants[g].user {
        assert op.active;
      }
    }
  }

  lemma UsersStep(a: Auth, op: Op, u: int)
    requires Enabled(a, op) && UserActive(a, u)
    ensures UserActive(Answered(a, op).auth, u) || op == Activate(u, false)
  {
  }

  lemma {:induction false} OwnersAreActive(states: seq<Auth>, ops: seq<Op>, j: nat)
    requires Run(states, ops) && j < |states|
    ensures OwnersActive(states[j])
  {
    if j > 0 {
      OwnersAreActive(states, ops, j - 1);
      RunKeepsInvariants(states, ops, j - 1);
      assert Takes(states, ops, j - 1);
      OwnersStayActive(states[j - 1], ops[j - 1]);
    }
  }

  // ----- tokens -----

  /** What a token was issued as: under which approval, for whom, until when. */
  datatype Card = Card(serial: nat, refresh: bool, expires: int, grant: Grant)

  ghost predicate Filed(a: Auth, s: Secret, card: Card, used: bool)
    requires s in a.tokens
  {
    var row := a.tokens[s];
    && row.expires == card.expires && row.refresh == card.refresh && row.used == used
    && row.grant in a.grants && a.grants[row.grant] == card.grant && SerialOf(a, row.grant) == card.serial
  }

  /** The token is stored as issued, or its approval is over, or it has expired by `t`. */
  ghost predicate Kept(a: Auth, s: Secret, card: Card, used: bool, t: int) {
    && s in a.issued && a.issued[s] == AsToken(card.serial, card.refresh) && card.serial < a.approvals
    && (s in a.tokens ==> Filed(a, s, card, used))
    && (s in a.tokens || Over(a, card.serial) || card.expires <= t)
  }

  lemma WithoutKept(a: Auth, gone: set<int>, s: Secret, card: Card, used: bool, t: int)
    requires Inv(a) && Kept(a, s, card, used, t)
    ensures Kept(WithoutGrants(a, gone), s, card, used, t)
  {
    if s in a.tokens {
      WithoutSerials(a, gone, a.tokens[s].grant);
    }
  }

  lemma PruneKept(a: Auth, now: int, s: Secret, card: Card, used: bool, t: int)
    requires Inv(a) && Kept(a, s, card, used, t) && now <= t
    ensures Kept(Prune(a, now), s, card, used, t)
  {
    PrunedTokens(a, now);
  }

  lemma RedeemKept(a: Auth, op: Op, s: Secret, card: Card, used: bool, t: int)
    requires Inv(a) && Enabled(a, op) && op.Redeem? && op.at <= t && Kept(a, s, card, used, t)
    ensures Kept(Answered(a, op).auth, s, card, used, t)
  {
    if Answered(a, op).answer.Granted? {
      PruneKept(a, op.at, s, card, used, t);
      PrunedTokens(a, op.at);
      var p := Prune(a, op.at);
      assert Answered(a, op).auth ==
        IssueTokens(Connected(p, a.codes[op.code], op.client, op.code, op.at, op.grant), op.grant, op.at, op.access, op.refresh);
      ConnectedKept(p, a.codes[op.code], op, s, card, used, t);
    } else if op.client in a.clients && op.code in a.codes && a.codes[op.code].used && a.codes[op.code].grant.Some? {
      WithoutKept(a, {a.codes[op.code].grant.value}, s, card, used, t);
    }
  }

  lemma ConnectedKept(p: Auth, row: Code, op: Op, s: Secret, card: Card, used: bool, t: int)
    requires op.Redeem? && Kept(p, s, card, used, t) && op.grant !in p.grants && op.access !in p.issued && op.refresh !in p.issued
    ensures Kept(IssueTokens(Connected(p, row, op.client, op.code, op.at, op.grant), op.grant, op.at, op.access, op.refresh),
                 s, card, used, t)
  {
  }

  lemma RotateKept(a: Auth, op: Op, s: Secret, card: Card, used: bool, t: int)
    requires Inv(a) && Enabled(a, op) && op.Rotate? && op.at <= t && Kept(a, s, card, used, t)
    ensures Kept(Answered(a, op).auth, s, card, used || Redeems(a, op, s), t)
  {
    if Answered(a, op).answer.Granted? {
      var b, g := Rotated(a, op.client, op.presented, op.at), a.tokens[op.presented].grant;
      var c := IssueTokens(b, g, op.at, op.access, op.refresh);
      RotatedKeeps(a, op.client, op.presented, op.at);
      IssueKeeps(b, g, op.at, op.access, op.refresh);
      assert Kept(c, s, card, used || Redeems(a, op, s), t) by { RotatedKept(a, op, s, card, used, t); }
      PruneKept(c, op.at, s, card, used || Redeems(a, op, s), t);
    } else if op.presented in a.tokens {
      WithoutKept(a, {a.tokens[op.presented].grant}, s, card, used, t);
    }
  }

  lemma RotatedKept(a: Auth, op: Op, s: Secret, card: Card, used: bool, t: int)
    requires Inv(a) && Enabled(a, op) && op.Rotate? && Answered(a, op).answer.Granted? && Kept(a, s, card, used, t)
    ensures Kept(IssueTokens(Rotated(a, op.client, op.presented, op.at), a.tokens[op.presented].grant, op.at, op.access, op.refresh),
                 s, card, used || Redeems(a, op, s), t)
  {
  }

  lemma KeptStep(a: Auth, op: Op, s: Secret, card: Card, used: bool, t: int)
    requires Inv(a) && Enabled(a, op) && Kept(a, s, card, used, t) && (Reads(op) <= t || Timeless(op))
    ensures Kept(Answered(a, op).auth, s, card, used || Redeems(a, op, s), t)
  {
    match op {
      case Redeem(_, _, _, _, _, _, _, _) => RedeemKept(a, op, s, card, used, t);
      case Rotate(_, _, _, _, _) => RotateKept(a, op, s, card, used, t);
      case _ => RevocationKept(a, op, s, card, used, t);
    }
  }

  lemma RevocationKept(a: Auth, op: Op, s: Secret, card: Card, used: bool, t: int)
    requires Inv(a) && Enabled(a, op) && Kept(a, s, card, used, t) && !op.Redeem? && !op.Rotate?
    ensures Kept(Answered(a, op).auth, s, card, used, t)
  {
    match op {
      case Disconnect(u, g) => WithoutKept(a, {g}, s, card, used, t);
      case Revoke(p) => if p in a.tokens { WithoutKept(a, {a.tokens[p].grant}, s, card, used, t); }
      case ResetPassword(u) => WithoutKept(a, UserGrants(a, u), s, card, used, t);
      case Activate(u, on) => if u in a.users { ActivateKept(a, u, on, s, card, used, t); }
      case _ =>
    }
  }

  lemma ActivateKept(a: Auth, u: int, on: bool, s: Secret, card: Card, used: bool, t: int)
    requires Inv(a) && u in a.users && Kept(a, s, card, used, t)
    ensures var b := a.(users := a.users[u := on]);
            Kept(b, s, card, used, t) && Kept(WithoutGrants(b, UserGrants(b, u)), s, card, used, t)
  {
    var b := a.(users := a.users[u := on]);
    assert Inv(b) && Kept(b, s, card, used, t);
    WithoutKept(b, UserGrants(b, u), s, card, used, t);
  }

  /** The operation hands out a pair. */
  ghost predicate Issues(a: Auth, op: Op) {
    (op.Redeem? || op.Rotate?) && Answered(a, op).answer.Granted?
  }

  /** Whom the pair speaks for: the user of the code, or of the grant rotated. */
  ghost function For(a: Auth, op: Op): Grant
    requires Inv(a) && Issues(a, op)
  {
    match op
    case Redeem(c, code, _, _, _, _, _, _) => Grant(a.codes[code].user, c)
    case Rotate(_, s, _, _, _) => a.grants[a.tokens[s].grant]
    case _ => Grant(0, 0)
  }

  /** The approval the pair belongs to: a new one, or that of the grant rotated. */
  ghost function Under(a: Auth, op: Op): nat
    requires Inv(a) && Issues(a, op)
  {
    match op
    case Redeem(_, _, _, _, _, _, _, _) => a.approvals
    case Rotate(_, s, _, _, _) => SerialOf(a, a.tokens[s].grant)
    case _ => 0
  }

  ghost function AccessCard(a: Auth, op: Op): Card
    requires Inv(a) && Issues(a, op)
  {
    Card(Under(a, op), false, Reads(op) + 3600, For(a, op))
  }

  ghost function RefreshCard(a: Auth, op: Op): Card
    requires Inv(a) && Issues(a, op)
  {
    Card(Under(a, op), true, Reads(op) + 60 * 24 * 3600, For(a, op))
  }

  lemma RedeemedPairKept(a: Auth, op: Op, t: int)
    requires Inv(a) && Enabled(a, op) && Issues(a, op) && op.Redeem?
    ensures var b := Answered(a, op).auth;
            Kept(b, op.access, AccessCard(a, op), false, t) && Kept(b, op.refresh, RefreshCard(a, op), false, t)
  {
  }

  lemma RotatedPairKept(a: Auth, op: Op, t: int)
    requires Inv(a) && Enabled(a, op) && Issues(a, op) && op.Rotate?
    ensures var b := Answered(a, op).auth;
            Kept(b, op.access, AccessCard(a, op), false, t) && Kept(b, op.refresh, RefreshCard(a, op), false, t)
  {
    RotationIssued(a, op);
    PairIsKept(Rotated(a, op.client, op.presented, op.at), a.tokens[op.presented].grant, op.at, op.access, op.refresh, t);
  }

  /** A rotation is: mark the token, issue a pair, prune. */
  lemma RotationIssued(a: Auth, op: Op)
    requires Inv(a) && Enabled(a, op) && op.Rotate? && Answered(a, op).answer.Granted?
    ensures var b, g := Rotated(a, op.client, op.presented, op.at), a.tokens[op.presented].grant;
            && g in b.grants && b.grants[g] == a.grants[g] && SerialOf(b, g) == SerialOf(a, g)
            && TablesOk(IssueTokens(b, g, op.at, op.access, op.refresh)) && SerialOf(b, g) < b.approvals
            && Answered(a, op).auth == Prune(IssueTokens(b, g, op.at, op.access, op.refresh), op.at)
  {
    RotationTables(a, op.client, op.presented, op.at, op.access, op.refresh);
  }

  lemma PairIsKept(b: Auth, g: int, now: int, access: Secret, refresh: Secret, t: int)
    requires g in b.grants && access != refresh && TablesOk(IssueTokens(b, g, now, access, refresh)) && SerialOf(b, g) < b.approvals
    ensures var after := Prune(IssueTokens(b, g, now, access, refresh), now);
            && Kept(after, access, Card(SerialOf(b, g), false, now + 3600, b.grants[g]), false, t)
            && Kept(after, refresh, Card(SerialOf(b, g), true, now + 60 * 24 * 3600, b.grants[g]), false, t)
  {
    var c := IssueTokens(b, g, now, access, refresh);
    LiveStays(c, now, access, Card(SerialOf(b, g), false, now + 3600, b.grants[g]), t);
    LiveStays(c, now, refresh, Card(SerialOf(b, g), true, now + 60 * 24 * 3600, b.grants[g]), t);
  }

  /** A token still in time survives a prune. */
  lemma LiveStays(c: Auth, now: int, s: Secret, card: Card, t: int)
    requires TablesOk(c) && card.serial < c.approvals && s in c.tokens && Filed(c, s, card, false) && now < card.expires
    requires s in c.issued && c.issued[s] == AsToken(card.serial, card.refresh)
    ensures Kept(Prune(c, now), s, card, false, t)
  {
    PrunedTokens(c, now);
  }

  /** A secret of the pair of step `i`, followed to step `j`. */
  lemma {:induction false} KeptAlong(states: seq<Auth>, ops: seq<Op>, i: nat, j: nat, s: Secret, card: Card, t: int)
    requires Run(states, ops) && i <= j <= |ops| && NoLaterThan(ops, i, j, t)
    requires Kept(states[i], s, card, false, t)
    ensures Kept(states[j], s, card, RedeemedIn(states, ops, i, j, s), t)
    decreases j
  {
    if i < j {
      assert NoLaterThan(ops, i, j - 1, t);
      KeptAlong(states, ops, i, j - 1, s, card, t);
      RedeemedInOne(states, ops, i, j - 1, s);
      KeptAt(states, ops, j - 1, s, card, RedeemedIn(states, ops, i, j - 1, s), t);
    }
  }

  lemma KeptAt(states: seq<Auth>, ops: seq<Op>, j: nat, s: Secret, card: Card, used: bool, t: int)
    requires Run(states, ops) && j < |ops| && Kept(states[j], s, card, used, t) && (Reads(ops[j]) <= t || Timeless(ops[j]))
    ensures Kept(states[j + 1], s, card, used || Redeems(states[j], ops[j], s), t)
  {
    RunKeepsInvariants(states, ops, j);
    assert Takes(states, ops, j);
    KeptStep(states[j], ops[j], s, card, used, t);
  }

  /** Some instant no request was later than. */
  lemma {:induction false} SomeLatest(ops: seq<Op>, j: nat, t: int) returns (late: int)
    requires j <= |ops|
    ensures late >= t && NoLaterThan(ops, 0, j, late)
  {
    if j == 0 {
      late := t;
    } else {
      late := SomeLatest(ops, j - 1, t);
      if Reads(ops[j - 1]) > late {
        late := Reads(ops[j - 1]);
      }
    }
  }

  lemma PairFollowed(states: seq<Auth>, ops: seq<Op>, i: nat, j: nat, t: int)
    requires Run(states, ops) && i < j <= |ops| && Inv(states[i]) && Issues(states[i], ops[i]) && NoLaterThan(ops, i + 1, j, t)
    ensures Kept(states[j], ops[i].access, AccessCard(states[i], ops[i]), RedeemedIn(states, ops, i + 1, j, ops[i].access), t)
    ensures Kept(states[j], ops[i].refresh, RefreshCard(states[i], ops[i]), RedeemedIn(states, ops, i + 1, j, ops[i].refresh), t)
  {
    assert Takes(states, ops, i);
    if ops[i].Redeem? {
      RedeemedPairKept(states[i], ops[i], t);
    } else {
      RotatedPairKept(states[i], ops[i], t);
    }
    KeptAlong(states, ops, i + 1, j, ops[i].access, AccessCard(states[i], ops[i]), t);
    KeptAlong(states, ops, i + 1, j, ops[i].refresh, RefreshCard(states[i], ops[i]), t);
  }

  /** Over every run: the access token handed out at step `i` is accepted later, at any `t`
      that no request was later than, if and only if less than an hour has passed and its
      approval is not over; and then it speaks for the user it was issued for. */
  lemma AccessTokenWorks(states: seq<Auth>, ops: seq<Op>, i: nat, j: nat, t: int)
    requires Run(states, ops) && i < j <= |ops| && Issues(states[i], ops[i]) && NoLaterThan(ops, i + 1, j, t)
    ensures Inv(states[i])
    ensures Authenticate(states[j], ops[i].access, t) ==
              if t < Reads(ops[i]) + 3600 && !Over(states[j], Under(states[i], ops[i])) then Some(For(states[i], ops[i]).user) else None
  {
    RunKeepsInvariants(states, ops, i);
    RunKeepsInvariants(states, ops, j);
    assert Takes(states, ops, i);
    OwnersAreActive(states, ops, j);
    PairFollowed(states, ops, i, j, t);
  }

  /** Whatever the clocks of the requests read: an hour after it was issued it is not accepted. */
  lemma AccessTokenStops(states: seq<Auth>, ops: seq<Op>, i: nat, j: nat, t: int)
    requires Run(states, ops) && i < j <= |ops| && Issues(states[i], ops[i]) && t >= Reads(ops[i]) + 3600
    ensures Authenticate(states[j], ops[i].access, t) == None
  {
    RunKeepsInvariants(states, ops, i);
    var late := SomeLatest(ops, j, t);
    PairFollowed(states, ops, i, j, late);
  }

  /** Over every run: the refresh token handed out at step `i` rotates later, at any `t` that no
      request was later than, if and only if its own client presents it for the first time, within
      sixty days, and its approval is not over. */
  lemma RefreshTokenRotates(states: seq<Auth>, ops: seq<Op>, i: nat, j: nat, t: int, client: int, access: Secret, refresh: Secret)
    requires Run(states, ops) && i < j <= |ops| && Issues(states[i], ops[i]) && NoLaterThan(ops, i + 1, j, t)
    ensures Inv(states[i])
    ensures Refresh(states[j], client, ops[i].refresh, t, access, refresh).answer.Granted? <==>
              && client == For(states[i], ops[i]).client && t < Reads(ops[i]) + 60 * 24 * 3600
              && !RedeemedIn(states, ops, i + 1, j, ops[i].refresh) && !Over(states[j], Under(states[i], ops[i]))
  {
    RunKeepsInvariants(states, ops, i);
    RunKeepsInvariants(states, ops, j);
    assert Takes(states, ops, i);
    OwnersAreActive(states, ops, j);
    PairFollowed(states, ops, i, j, t);
    RefreshAnswered(states[j], client, ops[i].refresh, t, access, refresh);
  }

  // ----- codes -----

  /** One of the steps from `i` up to `j` removes the client as idle, and its codes with it. */
  ghost predicate RemovedIn(states: seq<Auth>, ops: seq<Op>, i: nat, j: nat, client: int)
    requires j <= |ops| <= |states|
  {
    exists k | i <= k < j :: Removes(states[k], ops[k], client)
  }

  ghost predicate Removes(a: Auth, op: Op, client: int) {
    && op.Register? && client in a.clients && (forall g | g in a.grants :: a.grants[g].client != client)
    && LastSeen(a.clients[client]) + 30 * 24 * 3600 <= op.at
  }

  lemma RemovedInOne(states: seq<Auth>, ops: seq<Op>, i: nat, j: nat, client: int)
    requires i <= j < |ops| <= |states|
    ensures RemovedIn(states, ops, i, j + 1, client) <==> RemovedIn(states, ops, i, j, client) || Removes(states[j], ops[j], client)
  {
    if RemovedIn(states, ops, i, j + 1, client) {
      var k :| i <= k < j + 1 && Removes(states[k], ops[k], client);
      assert k < j || k == j;
    }
  }

  /** The code is stored as issued, unless it has expired by `t` or went with its client. */
  ghost predicate CodeKept(a: Auth, code: Secret, row: Code, used: bool, gone: bool, t: int) {
    && code in a.issued && a.issued[code] == AsCode
    && (code in a.codes ==> Terms(a.codes[code]) == row && a.codes[code].used == used && !gone)
    && (code in a.codes || row.expires <= t || gone)
  }

  lemma CodeKeptStep(a: Auth, op: Op, code: Secret, row: Code, used: bool, gone: bool, t: int)
    requires Inv(a) && Enabled(a, op) && CodeKept(a, code, row, used, gone, t) && (Reads(op) <= t || Timeless(op))
    ensures CodeKept(Answered(a, op).auth, code, row, used || Redeems(a, op, code), gone || Removes(a, op, row.client), t)
  {
    match op {
      case Register(_, _) => RegisterCodeKept(a, op, code, row, used, gone, t);
      case Redeem(_, _, _, _, _, _, _, _) => RedeemCodeKept(a, op, code, row, used, gone, t);
      case Rotate(_, _, _, _, _) => RotateCodeKept(a, op, code, row, used, gone, t);
      case Disconnect(_, g) => WithoutCodeKept(a, {g}, code, row, used, gone, t);
      case Revoke(s) => if s in a.tokens { WithoutCodeKept(a, {a.tokens[s].grant}, code, row, used, gone, t); }
      case ResetPassword(u) => WithoutCodeKept(a, UserGrants(a, u), code, row, used, gone, t);
      case Activate(u, on) =>
        if u in a.users { WithoutCodeKept(a.(users := a.users[u := on]), UserGrants(a, u), code, row, used, gone, t); }
      case _ =>
    }
  }

  lemma RegisterCodeKept(a: Auth, op: Op, code: Secret, row: Code, used: bool, gone: bool, t: int)
    requires Inv(a) && op.Register? && CodeKept(a, code, row, used, gone, t)
    ensures CodeKept(Answered(a, op).auth, code, row, used, gone || Removes(a, op, row.client), t)
  {
    RegistrationRemoves(a, op.client, op.at, row.client, code);
  }

  lemma RedeemCodeKept(a: Auth, op: Op, code: Secret, row: Code, used: bool, gone: bool, t: int)
    requires Inv(a) && Enabled(a, op) && op.Redeem? && op.at <= t && CodeKept(a, code, row, used, gone, t)
    ensures CodeKept(Answered(a, op).auth, code, row, used || Redeems(a, op, code), gone, t)
  {
    if Answered(a, op).answer.Granted? {
      PrunedCodes(a, op.at, code);
      PrunedTokens(a, op.at);
    } else if op.client in a.clients && op.code in a.codes && a.codes[op.code].used && a.codes[op.code].grant.Some? {
      WithoutCodeKept(a, {a.codes[op.code].grant.value}, code, row, used, gone, t);
    }
  }

  lemma WithoutCodeKept(a: Auth, ends: set<int>, code: Secret, row: Code, used: bool, gone: bool, t: int)
    requires CodeKept(a, code, row, used, gone, t)
    ensures CodeKept(WithoutGrants(a, ends), code, row, used, gone, t)
  {
  }

  lemma RotateCodeKept(a: Auth, op: Op, code: Secret, row: Code, used: bool, gone: bool, t: int)
    requires Inv(a) && Enabled(a, op) && op.Rotate? && op.at <= t && CodeKept(a, code, row, used, gone, t)
    ensures CodeKept(Answered(a, op).auth, code, row, used || Redeems(a, op, code), gone, t)
  {
    if Answered(a, op).answer.Granted? {
      var c := IssueTokens(Rotated(a, op.client, op.presented, op.at), a.tokens[op.presented].grant, op.at, op.access, op.refresh);
      PrunedCodes(c, op.at, code);
      RotationTables(a, op.client, op.presented, op.at, op.access, op.refresh);
      PrunedTokens(c, op.at);
    }
  }

  lemma CodeKeptAt(states: seq<Auth>, ops: seq<Op>, j: nat, code: Secret, row: Code, used: bool, gone: bool, t: int)
    requires Run(states, ops) && j < |ops| && CodeKept(states[j], code, row, used, gone, t) && (Reads(ops[j]) <= t || Timeless(ops[j]))
    ensures CodeKept(states[j + 1], code, row, used || Redeems(states[j], ops[j], code), gone || Removes(states[j], ops[j], row.client), t)
  {
    RunKeepsInvariants(states, ops, j);
    assert Takes(states, ops, j);
    CodeKeptStep(states[j], ops[j], code, row, used, gone, t);
  }

  lemma {:induction false} CodeKeptAlong(states: seq<Auth>, ops: seq<Op>, i: nat, j: nat, code: Secret, row: Code, t: int)
    requires Run(states, ops) && i <= j <= |ops| && NoLaterThan(ops, i, j, t)
    requires CodeKept(states[i], code, row, false, false, t)
    ensures CodeKept(states[j], code, row, RedeemedIn(states, ops, i, j, code), RemovedIn(states, ops, i, j, row.client), t)
    decreases j
  {
    if i < j {
      assert NoLaterThan(ops, i, j - 1, t);
      CodeKeptAlong(states, ops, i, j - 1, code, row, t);
      RedeemedInOne(states, ops, i, j - 1, code);
      RemovedInOne(states, ops, i, j - 1, row.client);
      CodeKeptAt(states, ops, j - 1, code, row, RedeemedIn(states, ops, i, j - 1, code), RemovedIn(states, ops, i, j - 1, row.client), t);
    }
  }

  /** Over every run: the code approved at step `i` redeems later, at any `t` that no request was
      later than, if and only if the client it was approved for presents it for the first time,
      with its verifier and redirect, within sixty seconds, the user is active, and the client was
      not removed as idle meanwhile. */
  lemma CodeRedeems(
    states: seq<Auth>, ops: seq<Op>, i: nat, j: nat, t: int, client: int, redirect: string, verifier: int, g: int, access: Secret, refresh: Secret)
    requires Run(states, ops) && i < j <= |ops| && ops[i].Approve? && NoLaterThan(ops, i + 1, j, t)
    ensures var approval := ops[i];
            Exchange(states[j], client, approval.code, redirect, verifier, t, g, access, refresh).answer.Granted? <==>
              && client == approval.client && verifier == approval.challenge && (redirect == "" || redirect == approval.redirect)
              && t < approval.at + 60 && UserActive(states[j], approval.user)
              && !RedeemedIn(states, ops, i + 1, j, approval.code) && !RemovedIn(states, ops, i + 1, j, approval.client)
  {
    var o := ops[i];
    var row := Code(o.user, o.client, o.redirect, o.challenge, o.at + 60, false, None);
    RunKeepsInvariants(states, ops, j);
    assert Takes(states, ops, i);
    assert CodeKept(states[i + 1], o.code, row, false, false, t);
    CodeKeptAlong(states, ops, i + 1, j, o.code, row, t);
    ExchangeAnswered(states[j], client, o.code, redirect, verifier, t, g, access, refresh);
  }
}
