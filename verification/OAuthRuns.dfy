/** Safety of the grant protocol over whole runs. */
module OAuthRuns {
  import opened Sequences
  import opened OAuth

  datatype Op =
    | AddUser(user: int)
    | Register(client: int, at: int)
    | Approve(user: int, client: int, redirect: string, challenge: int, code: Secret, at: int)
    | Redeem(client: int, code: Secret, redirect: string, verifier: int, at: int, grant: int, access: Secret, refresh: Secret)
    | Rotate(client: int, presented: Secret, at: int, access: Secret, refresh: Secret)
    | Disconnect(user: int, grant: int)
    | Revoke(token: Secret)
    | ResetPassword(user: int)
    | Activate(user: int, active: bool)

  ghost predicate FreshPair(a: Auth, access: Secret, refresh: Secret) {
    access.prefix == AccessPrefix && refresh.prefix == RefreshPrefix && access !in a.issued && refresh !in a.issued
  }

  /** New secrets are random, so never handed out before; new rows get unused keys. */
  ghost predicate Enabled(a: Auth, op: Op) {
    match op
    case AddUser(u) => u !in a.users
    case Register(c, at) => c !in a.clients - Idle(a, at)
    case Approve(u, c, _, _, code, _) => u in a.users && c in a.clients && code.prefix == Plain && code !in a.issued
    case Redeem(_, _, _, _, at, g, access, refresh) => FreshPair(a, access, refresh) && g !in Prune(a, at).grants
    case Rotate(_, _, _, access, refresh) => FreshPair(a, access, refresh)
    case _ => true
  }

  function Answered(a: Auth, op: Op): Reply {
    match op
    case AddUser(u) => Reply(a.(users := a.users[u := true]), InvalidGrant)
    case Register(c, at) => Reply(RegisterClient(a, c, at), InvalidGrant)
    case Approve(u, c, r, challenge, code, at) => Reply(IssueCode(a, u, c, r, challenge, code, at), InvalidGrant)
    case Redeem(c, code, r, v, at, g, access, refresh) => Exchange(a, c, code, r, v, at, g, access, refresh)
    case Rotate(c, s, at, access, refresh) => Refresh(a, c, s, at, access, refresh)
    case Disconnect(u, g) => Reply(Committed(a, RevokeGrant(a, u, g)), InvalidGrant)
    case Revoke(s) => Reply(RevokeToken(a, s), InvalidGrant)
    case ResetPassword(u) => Reply(Committed(a, SetPassword(a, u)), InvalidGrant)
    case Activate(u, on) => Reply(Committed(a, SetActive(a, u, on)), InvalidGrant)
  }

  function Committed(a: Auth, r: Result<Auth>): Auth { if r.Ok? then r.value else a }

  ghost predicate Run(states: seq<Auth>, ops: seq<Op>) {
    && |states| == |ops| + 1 && states[0] == NOTHING
    && forall i | 0 <= i < |ops| :: Takes(states, ops, i)
  }

  /** Step `i` is possible and leads to the next state. */
  ghost predicate Takes(states: seq<Auth>, ops: seq<Op>, i: nat)
    requires i < |ops| < |states|
  {
    Enabled(states[i], ops[i]) && states[i + 1] == Answered(states[i], ops[i]).auth
  }

  // ----- the invariant -----

  /** Rows know what they were issued as; a grant's number is its own. */
  ghost predicate IssuedOk(a: Auth) {
    && (forall s | s in a.codes :: s in a.issued && a.issued[s] == AsCode)
    && (forall s | s in a.tokens && a.tokens[s].grant in a.grants ::
          s in a.issued && a.issued[s] == AsToken(SerialOf(a, a.tokens[s].grant), a.tokens[s].refresh))
    && (forall g | g in a.grants :: SerialOf(a, g) < a.approvals)
    && (forall g, h | g in a.grants && h in a.grants && g != h :: SerialOf(a, g) != SerialOf(a, h))
    && (forall s | s in a.issued && a.issued[s].AsToken? :: a.issued[s].serial < a.approvals)
  }

  /** A grant never has two refresh tokens that would both still rotate. */
  ghost predicate OneUnused(a: Auth) {
    forall s, t | s in a.tokens && t in a.tokens && a.tokens[s].refresh && a.tokens[t].refresh &&
                  !a.tokens[s].used && !a.tokens[t].used && a.tokens[s].grant == a.tokens[t].grant :: s == t
  }

  ghost predicate Inv(a: Auth) { TablesOk(a) && IssuedOk(a) && OneUnused(a) }

  lemma {:induction false} RunKeepsInvariants(states: seq<Auth>, ops: seq<Op>, i: nat)
    requires Run(states, ops) && i < |states|
    ensures Inv(states[i])
  {
    if i > 0 {
      RunKeepsInvariants(states, ops, i - 1);
      assert Takes(states, ops, i - 1);
      StepKeeps(states[i - 1], ops[i - 1]);
    }
  }

  lemma StepKeeps(a: Auth, op: Op)
    requires Inv(a) && Enabled(a, op)
    ensures Inv(Answered(a, op).auth)
  {
    match op {
      case AddUser(_) =>
      case Register(c, at) => RegisterKeeps(a, c, at);
      case Approve(u, c, r, challenge, code, at) => ApproveKeeps(a, u, c, r, challenge, code, at);
      case Redeem(c, code, r, v, at, g, access, refresh) => ExchangeKeeps(a, c, code, r, v, at, g, access, refresh);
      case Rotate(c, s, at, access, refresh) => RefreshKeeps(a, c, s, at, access, refresh);
      case Disconnect(u, g) => WithoutKeeps(a, {g});
      case Revoke(s) => if s in a.tokens { WithoutKeeps(a, {a.tokens[s].grant}); }
      case ResetPassword(u) => WithoutKeeps(a, UserGrants(a, u));
      case Activate(u, on) => ActivateKeeps(a, u, on);
    }
  }

  lemma WithoutKeeps(a: Auth, gone: set<int>)
    requires Inv(a)
    ensures Inv(WithoutGrants(a, gone))
  {
  }

  lemma PruneKeeps(a: Auth, now: int)
    requires Inv(a)
    ensures Inv(Prune(a, now))
  {
    var b := a.(codes := LiveCodes(a.codes, now), tokens := LiveTokens(a.tokens, now));
    assert Inv(b);
    WithoutKeeps(b, EmptyGrants(b));
  }

  lemma RegisterKeeps(a: Auth, c: int, at: int)
    requires Inv(a)
    ensures Inv(RegisterClient(a, c, at))
  {
  }

  lemma ApproveKeeps(a: Auth, u: int, c: int, r: string, challenge: int, code: Secret, at: int)
    requires Inv(a) && Enabled(a, Approve(u, c, r, challenge, code, at))
    ensures Inv(IssueCode(a, u, c, r, challenge, code, at))
  {
  }

  lemma ActivateKeeps(a: Auth, u: int, on: bool)
    requires Inv(a)
    ensures Inv(Committed(a, SetActive(a, u, on)))
  {
    if u in a.users {
      WithoutKeeps(a.(users := a.users[u := on]), UserGrants(a, u));
    }
  }

  /** Issuing a pair to a grant that has no unused refresh token. */
  lemma IssueKeeps(a: Auth, g: int, now: int, access: Secret, refresh: Secret)
    requires Inv(a) && g in a.grants && FreshPair(a, access, refresh)
    requires forall s | s in a.tokens && a.tokens[s].grant == g && a.tokens[s].refresh :: a.tokens[s].used
    ensures Inv(IssueTokens(a, g, now, access, refresh))
  {
    assert IssuedOk(IssueTokens(a, g, now, access, refresh)) by { IssueKeepsIssued(a, g, now, access, refresh); }
    assert OneUnused(IssueTokens(a, g, now, access, refresh)) by { IssueKeepsUnused(a, g, now, access, refresh); }
  }

  lemma IssueKeepsIssued(a: Auth, g: int, now: int, access: Secret, refresh: Secret)
    requires IssuedOk(a) && g in a.grants && FreshPair(a, access, refresh)
    ensures IssuedOk(IssueTokens(a, g, now, access, refresh))
  {
  }

  lemma IssueKeepsUnused(a: Auth, g: int, now: int, access: Secret, refresh: Secret)
    requires OneUnused(a) && access != refresh
    requires forall s | s in a.tokens && a.tokens[s].grant == g && a.tokens[s].refresh :: a.tokens[s].used
    ensures OneUnused(IssueTokens(a, g, now, access, refresh))
  {
  }

  /** A new approval, before its tokens. */
  lemma ApprovalKeeps(b: Auth, g: int, client: int, code: Secret, row: Code, now: int)
    requires Inv(b) && g !in b.grants && client in b.clients && row.user in b.users && row.client in b.clients
    requires code in b.issued && b.issued[code] == AsCode
    ensures Inv(Connected(b, row, client, code, now, g))
  {
  }

  lemma ExchangeKeeps(
    a: Auth, client: int, code: Secret, redirect: string, verifier: int, now: int, g: int, access: Secret, refresh: Secret)
    requires Inv(a) && FreshPair(a, access, refresh) && g !in Prune(a, now).grants
    ensures Inv(Exchange(a, client, code, redirect, verifier, now, g, access, refresh).auth)
  {
    var r := Exchange(a, client, code, redirect, verifier, now, g, access, refresh);
    if r.answer.Granted? {
      var row, b := a.codes[code], Prune(a, now);
      PruneKeeps(a, now);
      PrunedTokens(a, now);
      var c := Connected(b, row, client, code, now, g);
      PrunedCodes(a, now, code);
      ApprovalKeeps(b, g, client, code, row, now);
      IssueKeeps(c, g, now, access, refresh);
    } else if client in a.clients && code in a.codes && a.codes[code].used && a.codes[code].grant.Some? {
      WithoutKeeps(a, {a.codes[code].grant.value});
    }
  }

  lemma RefreshKeeps(a: Auth, client: int, s: Secret, now: int, access: Secret, refresh: Secret)
    requires Inv(a) && FreshPair(a, access, refresh)
    ensures Inv(Refresh(a, client, s, now, access, refresh).auth)
  {
    var r := Refresh(a, client, s, now, access, refresh);
    if r.answer.Granted? {
      var g, b := a.tokens[s].grant, Rotated(a, client, s, now);
      assert FreshPair(b, access, refresh);
      RotatedKeeps(a, client, s, now);
      IssueKeeps(b, g, now, access, refresh);
      PruneKeeps(IssueTokens(b, g, now, access, refresh), now);
    } else if s in a.tokens {
      WithoutKeeps(a, {a.tokens[s].grant});
    }
  }

  /** The rotated token was the only one of its grant still unused. */
  lemma RotatedKeeps(a: Auth, client: int, s: Secret, now: int)
    requires Inv(a) && s in a.tokens && a.tokens[s].refresh && !a.tokens[s].used
    ensures var b, g := Rotated(a, client, s, now), a.tokens[s].grant;
            Inv(b) && forall t | t in b.tokens && b.tokens[t].grant == g && b.tokens[t].refresh :: b.tokens[t].used
  {
  }

  // ----- single use -----

  /** A code or refresh secret that can never be redeemed again. */
  ghost predicate Spent(a: Auth, s: Secret) {
    && s in a.issued
    && (s in a.codes ==> a.codes[s].used)
    && (s in a.tokens && a.tokens[s].refresh ==> a.tokens[s].used)
  }

  /** The operation redeems `s` and is answered with tokens. */
  ghost predicate Redeems(a: Auth, op: Op, s: Secret) {
    && Answered(a, op).answer.Granted?
    && ((op.Redeem? && op.code == s) || (op.Rotate? && op.presented == s))
  }

  lemma SpentStays(a: Auth, op: Op, s: Secret)
    requires Inv(a) && Enabled(a, op) && Spent(a, s)
    ensures Spent(Answered(a, op).auth, s)
  {
    match op {
      case Redeem(c, code, r, v, at, g, access, refresh) => RedeemSpent(a, c, code, r, v, at, g, access, refresh, s);
      case Rotate(c, p, at, access, refresh) => RotateSpent(a, c, p, at, access, refresh, s);
      case Activate(u, on) =>
        if u in a.users { WithoutSpent(a.(users := a.users[u := on]), UserGrants(a, u), s); }
      case Disconnect(_, g) => WithoutSpent(a, {g}, s);
      case Revoke(t) => if t in a.tokens { WithoutSpent(a, {a.tokens[t].grant}, s); }
      case ResetPassword(u) => WithoutSpent(a, UserGrants(a, u), s);
      case _ =>
    }
  }

  lemma WithoutSpent(a: Auth, gone: set<int>, s: Secret)
    requires Spent(a, s)
    ensures Spent(WithoutGrants(a, gone), s)
  {
  }

  lemma RedeemSpent(
    a: Auth, client: int, code: Secret, redirect: string, verifier: int, now: int, g: int, access: Secret, refresh: Secret, s: Secret)
    requires Inv(a) && FreshPair(a, access, refresh) && Spent(a, s)
    ensures Spent(Exchange(a, client, code, redirect, verifier, now, g, access, refresh).auth, s)
  {
    var r := Exchange(a, client, code, redirect, verifier, now, g, access, refresh);
    if r.answer.Granted? {
      var c := Connected(Prune(a, now), a.codes[code], client, code, now, g);
      PrunedCodes(a, now, s);
      PrunedTokens(a, now);
      assert Spent(c, s);
      assert access !in a.issued && refresh !in a.issued && r.auth == IssueTokens(c, g, now, access, refresh);
    }
  }

  lemma RotateSpent(a: Auth, client: int, p: Secret, now: int, access: Secret, refresh: Secret, s: Secret)
    requires Inv(a) && FreshPair(a, access, refresh) && Spent(a, s)
    ensures Spent(Refresh(a, client, p, now, access, refresh).auth, s)
  {
    if Refresh(a, client, p, now, access, refresh).answer.Granted? {
      var c := IssueTokens(Rotated(a, client, p, now), a.tokens[p].grant, now, access, refresh);
      RotationTables(a, client, p, now, access, refresh);
      PrunedTokens(c, now);
      PrunedCodes(c, now, s);
    }
  }

  lemma RedeemedIsSpent(a: Auth, op: Op, s: Secret)
    requires Inv(a) && Enabled(a, op) && Redeems(a, op, s)
    ensures Spent(Answered(a, op).auth, s)
  {
    match op {
      case Redeem(c, code, r, v, at, g, access, refresh) =>
        ExchangeIssues(a, c, code, r, v, at, g, access, refresh);
        PrunedTokens(a, at);
      case Rotate(c, p, at, access, refresh) =>
        RefreshIssues(a, c, p, at, access, refresh);
        RotateCodes(a, c, p, at, access, refresh);
      case _ =>
    }
  }

  lemma RotateCodes(a: Auth, client: int, p: Secret, now: int, access: Secret, refresh: Secret)
    requires Inv(a) && FreshPair(a, access, refresh)
    ensures var b := Refresh(a, client, p, now, access, refresh).auth;
            (forall s | s in b.codes :: s in a.codes && b.codes[s].used == a.codes[s].used) && (forall s | s in a.issued :: s in b.issued)
  {
  }

  lemma SpentDoesNotRedeem(a: Auth, op: Op, s: Secret)
    requires Inv(a) && Spent(a, s)
    ensures !Redeems(a, op, s)
  {
  }

  lemma {:induction false} SpentForever(states: seq<Auth>, ops: seq<Op>, i: nat, j: nat, s: Secret)
    requires Run(states, ops) && i <= j < |states| && Spent(states[i], s)
    ensures Spent(states[j], s)
  {
    if i < j {
      SpentForever(states, ops, i, j - 1, s);
      SpentStep(states, ops, j - 1, s);
    }
  }

  lemma SpentStep(states: seq<Auth>, ops: seq<Op>, j: nat, s: Secret)
    requires Run(states, ops) && j < |ops| && Spent(states[j], s)
    ensures Spent(states[j + 1], s)
  {
    RunKeepsInvariants(states, ops, j);
    assert Takes(states, ops, j);
    SpentStays(states[j], ops[j], s);
  }

  /** Over every run each authorization code and each refresh token redeems at most once. */
  lemma SingleUse(states: seq<Auth>, ops: seq<Op>, i: nat, j: nat, s: Secret)
    requires Run(states, ops) && i < |ops| && j < |ops|
    requires Redeems(states[i], ops[i], s) && Redeems(states[j], ops[j], s)
    ensures i == j
  {
    if i < j {
      NotTwice(states, ops, i, j, s);
    } else if j < i {
      NotTwice(states, ops, j, i, s);
    }
  }

  lemma NotTwice(states: seq<Auth>, ops: seq<Op>, i: nat, j: nat, s: Secret)
    requires Run(states, ops) && i < j < |ops| && Redeems(states[i], ops[i], s)
    ensures !Redeems(states[j], ops[j], s)
  {
    RunKeepsInvariants(states, ops, i);
    RunKeepsInvariants(states, ops, j);
    assert Takes(states, ops, i);
    RedeemedIsSpent(states[i], ops[i], s);
    SpentForever(states, ops, i + 1, j, s);
    SpentDoesNotRedeem(states[j], ops[j], s);
  }

  // ----- a removed grant stays removed -----

  /** The approval numbered `serial` was made and its grant is gone. */
  ghost predicate Over(a: Auth, serial: nat) {
    serial < a.approvals && forall g | g in a.grants :: SerialOf(a, g) != serial
  }

  /** No secret of that approval is accepted: not as an access token, not for a rotation. */
  ghost predicate Rejected(a: Auth, s: Secret) {
    && (forall now :: Authenticate(a, s, now) == None)
    && (forall client, now, access, refresh :: !Refresh(a, client, s, now, access, refresh).answer.Granted?)
  }

  lemma OverRejects(a: Auth, s: Secret)
    requires Inv(a) && s in a.issued && a.issued[s].AsToken? && Over(a, a.issued[s].serial)
    ensures s !in a.tokens && Rejected(a, s)
  {
  }

  lemma OverStays(a: Auth, op: Op, serial: nat)
    requires Inv(a) && Enabled(a, op) && Over(a, serial)
    ensures Over(Answered(a, op).auth, serial)
  {
    match op {
      case Redeem(c, code, r, v, at, g, access, refresh) => ExchangeSerials(a, c, code, r, v, at, g, access, refresh);
      case Rotate(c, s, at, access, refresh) => RefreshSerials(a, c, s, at, access, refresh);
      case _ =>
    }
  }

  /** The grants after an exchange are old ones, and possibly one with the next number. */
  lemma ExchangeSerials(
    a: Auth, client: int, code: Secret, redirect: string, verifier: int, now: int, g: int, access: Secret, refresh: Secret)
    ensures var b := Exchange(a, client, code, redirect, verifier, now, g, access, refresh).auth;
            && b.approvals >= a.approvals
            && forall h | h in b.grants :: (h in a.grants && SerialOf(b, h) == SerialOf(a, h)) || SerialOf(b, h) == a.approvals
  {
  }

  lemma RefreshSerials(a: Auth, client: int, s: Secret, now: int, access: Secret, refresh: Secret)
    ensures var b := Refresh(a, client, s, now, access, refresh).auth;
            b.approvals == a.approvals && forall h | h in b.grants :: h in a.grants && SerialOf(b, h) == SerialOf(a, h)
  {
  }

  lemma IssuedStays(a: Auth, op: Op, s: Secret)
    requires Enabled(a, op) && s in a.issued
    ensures s in Answered(a, op).auth.issued && Answered(a, op).auth.issued[s] == a.issued[s]
  {
  }

  lemma {:induction false} OverForever(states: seq<Auth>, ops: seq<Op>, i: nat, j: nat, serial: nat)
    requires Run(states, ops) && i <= j < |states| && Over(states[i], serial)
    ensures Over(states[j], serial)
    decreases j
  {
    if i < j {
      OverForever(states, ops, i, j - 1, serial);
      OverStep(states, ops, j - 1, serial);
    }
  }

  lemma OverStep(states: seq<Auth>, ops: seq<Op>, j: nat, serial: nat)
    requires Run(states, ops) && j < |ops| && Over(states[j], serial)
    ensures Over(states[j + 1], serial)
  {
    RunKeepsInvariants(states, ops, j);
    assert Takes(states, ops, j);
    OverStays(states[j], ops[j], serial);
  }

  lemma {:induction false} IssuedForever(states: seq<Auth>, ops: seq<Op>, i: nat, j: nat, s: Secret)
    requires Run(states, ops) && i <= j < |states| && s in states[i].issued
    ensures s in states[j].issued && states[j].issued[s] == states[i].issued[s]
    decreases j
  {
    if i < j {
      IssuedForever(states, ops, i, j - 1, s);
      assert Takes(states, ops, j - 1);
      IssuedStays(states[j - 1], ops[j - 1], s);
    }
  }

  /** Once an approval's grant is gone, by reuse, revocation, a password reset or
      a deactivation that is later undone, no secret it ever issued works again. */
  lemma RemovedForGood(states: seq<Auth>, ops: seq<Op>, i: nat, j: nat, s: Secret)
    requires Run(states, ops) && i <= j < |states|
    requires s in states[i].issued && states[i].issued[s].AsToken? && Over(states[i], states[i].issued[s].serial)
    ensures Rejected(states[j], s)
  {
    OverForever(states, ops, i, j, states[i].issued[s].serial);
    IssuedForever(states, ops, i, j, s);
    RunKeepsInvariants(states, ops, j);
    OverRejects(states[j], s);
  }

  // ----- what a redeemed code leads to -----

  /** The account of a code redeemed for approval `serial`: if it is still stored it
      is used, and unless the approval is over it points to that approval's grant. */
  ghost predicate Linked(a: Auth, code: Secret, serial: nat) {
    && code in a.issued && serial < a.approvals
    && (code in a.codes ==> a.codes[code].used && (Over(a, serial) || LeadsTo(a, a.codes[code].grant, serial)))
  }

  predicate LeadsTo(a: Auth, g: Option<int>, serial: nat) {
    g.Some? && g.value in a.grants && SerialOf(a, g.value) == serial
  }

  lemma RedeemedLinks(a: Auth, op: Op)
    requires Inv(a) && Enabled(a, op) && op.Redeem? && Answered(a, op).answer.Granted?
    ensures Linked(Answered(a, op).auth, op.code, a.approvals)
  {
    ExchangeIssues(a, op.client, op.code, op.redirect, op.verifier, op.at, op.grant, op.access, op.refresh);
  }

  lemma WithoutLinks(a: Auth, gone: set<int>, code: Secret, serial: nat)
    requires Inv(a) && Linked(a, code, serial)
    ensures Linked(WithoutGrants(a, gone), code, serial)
  {
    if code in a.codes && !Over(a, serial) && a.codes[code].grant.value in gone {
      WithoutEnds(a, gone, a.codes[code].grant.value);
    }
  }

  lemma PruneLinks(a: Auth, now: int, code: Secret, serial: nat)
    requires Inv(a) && Linked(a, code, serial)
    ensures Linked(Prune(a, now), code, serial)
  {
    var b := a.(codes := LiveCodes(a.codes, now), tokens := LiveTokens(a.tokens, now));
    assert Inv(b);
    WithoutLinks(b, EmptyGrants(b), code, serial);
  }

  lemma RedeemLinks(
    a: Auth, client: int, other: Secret, redirect: string, verifier: int, now: int, g: int, access: Secret, refresh: Secret,
    code: Secret, serial: nat)
    requires Inv(a) && Linked(a, code, serial) && FreshPair(a, access, refresh) && g !in Prune(a, now).grants
    ensures Linked(Exchange(a, client, other, redirect, verifier, now, g, access, refresh).auth, code, serial)
  {
    var r := Exchange(a, client, other, redirect, verifier, now, g, access, refresh);
    if r.answer.Granted? {
      PruneLinks(a, now, code, serial);
      PrunedTokens(a, now);
      ConnectLinks(Prune(a, now), a.codes[other], client, other, now, g, code, serial);
    } else if client in a.clients && other in a.codes && a.codes[other].used && a.codes[other].grant.Some? {
      WithoutLinks(a, {a.codes[other].grant.value}, code, serial);
    }
  }

  lemma ConnectLinks(b: Auth, row: Code, client: int, other: Secret, now: int, g: int, code: Secret, serial: nat)
    requires Linked(b, code, serial) && g !in b.grants && other != code
    ensures Linked(Connected(b, row, client, other, now, g), code, serial)
  {
  }

  lemma RotateLinks(
    a: Auth, client: int, s: Secret, now: int, access: Secret, refresh: Secret, code: Secret, serial: nat)
    requires Inv(a) && Linked(a, code, serial) && FreshPair(a, access, refresh)
    ensures Linked(Refresh(a, client, s, now, access, refresh).auth, code, serial)
  {
    var r := Refresh(a, client, s, now, access, refresh);
    if r.answer.Granted? {
      var g, b := a.tokens[s].grant, Rotated(a, client, s, now);
      RotatedKeeps(a, client, s, now);
      assert FreshPair(b, access, refresh);
      IssueKeeps(b, g, now, access, refresh);
      PruneLinks(IssueTokens(b, g, now, access, refresh), now, code, serial);
    } else if s in a.tokens {
      WithoutLinks(a, {a.tokens[s].grant}, code, serial);
    }
  }

  lemma LinkedStays(a: Auth, op: Op, code: Secret, serial: nat)
    requires Inv(a) && Enabled(a, op) && Linked(a, code, serial)
    ensures Linked(Answered(a, op).auth, code, serial)
  {
    match op {
      case Redeem(c, other, r, v, at, g, access, refresh) => RedeemLinks(a, c, other, r, v, at, g, access, refresh, code, serial);
      case Rotate(c, s, at, access, refresh) => RotateLinks(a, c, s, at, access, refresh, code, serial);
      case Activate(u, on) => ActivateLinks(a, u, on, code, serial);
      case Disconnect(u, g) => WithoutLinks(a, {g}, code, serial);
      case Revoke(s) => if s in a.tokens { WithoutLinks(a, {a.tokens[s].grant}, code, serial); }
      case ResetPassword(u) => WithoutLinks(a, UserGrants(a, u), code, serial);
      case _ =>
    }
  }

  lemma ActivateLinks(a: Auth, u: int, on: bool, code: Secret, serial: nat)
    requires Inv(a) && Linked(a, code, serial)
    ensures Linked(Committed(a, SetActive(a, u, on)), code, serial)
  {
    if u in a.users {
      var b := a.(users := a.users[u := on]);
      assert Inv(b) && Linked(b, code, serial);
      WithoutLinks(b, UserGrants(b, u), code, serial);
    }
  }

  lemma {:induction false} LinkedForever(states: seq<Auth>, ops: seq<Op>, i: nat, j: nat, code: Secret, serial: nat)
    requires Run(states, ops) && i <= j < |states| && Linked(states[i], code, serial)
    ensures Linked(states[j], code, serial)
    decreases j
  {
    if i < j {
      LinkedForever(states, ops, i, j - 1, code, serial);
      LinkedStep(states, ops, j - 1, code, serial);
    }
  }

  lemma LinkedStep(states: seq<Auth>, ops: seq<Op>, j: nat, code: Secret, serial: nat)
    requires Run(states, ops) && j < |ops| && Linked(states[j], code, serial)
    ensures Linked(states[j + 1], code, serial)
  {
    RunKeepsInvariants(states, ops, j);
    assert Takes(states, ops, j);
    LinkedStays(states[j], ops[j], code, serial);
  }

  /** Over every run: presenting a code again after it was redeemed is refused, and ends
      the approval that its redemption made if and only if the code is still stored and
      the client registered. Else, and unless the approval was over already, all stays. */
  lemma ReplayedCodeEndsApproval(states: seq<Auth>, ops: seq<Op>, i: nat, j: nat)
    requires Run(states, ops) && i < j < |ops| && ops[i].Redeem? && Answered(states[i], ops[i]).answer.Granted?
    requires ops[j].Redeem? && ops[j].code == ops[i].code
    ensures var a, serial := states[j], states[i].approvals;
            var heard := ops[j].code in a.codes && ops[j].client in a.clients;
            && Answered(a, ops[j]).answer == (if ops[j].client in a.clients then InvalidGrant else InvalidClient)
            && (Over(states[j + 1], serial) <==> heard || Over(a, serial))
            && (!heard ==> states[j + 1] == a)
  {
    var code, serial := ops[i].code, states[i].approvals;
    RunKeepsInvariants(states, ops, i);
    assert Takes(states, ops, i) && Takes(states, ops, j);
    RedeemedLinks(states[i], ops[i]);
    LinkedForever(states, ops, i + 1, j, code, serial);
    RunKeepsInvariants(states, ops, j);
    CodeReplay(states[j], ops[j], serial);
  }

  lemma CodeReplay(a: Auth, op: Op, serial: nat)
    requires Inv(a) && Enabled(a, op) && op.Redeem? && Linked(a, op.code, serial)
    ensures var r, heard := Answered(a, op), op.code in a.codes && op.client in a.clients;
            && r.answer == (if op.client in a.clients then InvalidGrant else InvalidClient)
            && (Over(r.auth, serial) <==> heard || Over(a, serial))
            && (!heard ==> r.auth == a)
  {
    if Over(a, serial) {
      OverStays(a, op, serial);
    } else if op.code in a.codes && op.client in a.clients {
      WithoutEnds(a, {a.codes[op.code].grant.value}, a.codes[op.code].grant.value);
    }
  }

  /** And from then on none of its secrets works: neither those of the redemption nor
      any a rotation issued. */
  lemma ReplayedCodeKillsSecrets(states: seq<Auth>, ops: seq<Op>, i: nat, j: nat, k: nat, s: Secret)
    requires Run(states, ops) && i < j < k < |states| && ops[i].Redeem? && Answered(states[i], ops[i]).answer.Granted?
    requires ops[j].Redeem? && ops[j].code == ops[i].code
    requires ops[j].code in states[j].codes && ops[j].client in states[j].clients
    requires s in states[j + 1].issued && states[j + 1].issued[s].AsToken? && states[j + 1].issued[s].serial == states[i].approvals
    ensures Rejected(states[k], s)
  {
    ReplayedCodeEndsApproval(states, ops, i, j);
    RemovedForGood(states, ops, j + 1, k, s);
  }

  /** The secrets a redemption hands out belong to the approval it makes. */
  lemma RedemptionIssues(a: Auth, op: Op, s: Secret)
    requires Enabled(a, op) && op.Redeem? && Answered(a, op).answer.Granted? && (s == op.access || s == op.refresh)
    ensures var b := Answered(a, op).auth; s in b.issued && b.issued[s] == AsToken(a.approvals, s == op.refresh)
  {
  }

  /** The secrets a rotation hands out belong to the approval of the one presented. */
  lemma RotationIssues(a: Auth, op: Op, s: Secret)
    requires Inv(a) && Enabled(a, op) && op.Rotate? && Answered(a, op).answer.Granted? && (s == op.access || s == op.refresh)
    ensures var b := Answered(a, op).auth;
            && op.presented in a.issued && a.issued[op.presented].AsToken?
            && s in b.issued && b.issued[s] == AsToken(a.issued[op.presented].serial, s == op.refresh)
  {
  }

  /** A rotated refresh token ends the approval it was issued under, when it is still
      stored and presented by the client of its grant, and not otherwise. */
  lemma TokenReplay(a: Auth, op: Op)
    requires Inv(a) && op.Rotate? && op.presented.prefix == RefreshPrefix && Spent(a, op.presented)
    requires a.issued[op.presented].AsToken? && a.issued[op.presented].refresh
    ensures var r, s := Answered(a, op), op.presented;
            && r.answer == (if op.client in a.clients then InvalidGrant else InvalidClient)
            && (Over(r.auth, a.issued[s].serial) <==> Heard(a, op) || Over(a, a.issued[s].serial))
            && (!Heard(a, op) ==> r.auth == a)
  {
    var s := op.presented;
    if s in a.tokens {
      ReplayedTokenEnds(a, op.client, s, op.at, op.access, op.refresh);
      if Heard(a, op) {
        WithoutEnds(a, {a.tokens[s].grant}, a.tokens[s].grant);
      }
    }
  }

  /** The presented token is stored and the client is its grant's. */
  ghost predicate Heard(a: Auth, op: Op)
    requires op.Rotate?
  {
    var s := op.presented;
    s in a.tokens && a.tokens[s].grant in a.grants && op.client == a.grants[a.tokens[s].grant].client
  }

  lemma WithoutEnds(a: Auth, gone: set<int>, g: int)
    requires Inv(a) && g in gone && g in a.grants
    ensures Over(WithoutGrants(a, gone), SerialOf(a, g))
  {
  }

  /** Over every run: presenting a refresh token again after it was rotated is refused,
      and ends the approval it was issued under if and only if the token is still stored
      and the client is its grant's. Else, and unless the approval was over already, all stays. */
  lemma ReplayedTokenEndsApproval(states: seq<Auth>, ops: seq<Op>, i: nat, j: nat)
    requires Run(states, ops) && i < j < |ops| && ops[i].Rotate? && Answered(states[i], ops[i]).answer.Granted?
    requires ops[j].Rotate? && ops[j].presented == ops[i].presented
    ensures ops[i].presented in states[i].issued && states[i].issued[ops[i].presented].AsToken?
    ensures var a, serial := states[j], states[i].issued[ops[i].presented].serial;
            && Answered(a, ops[j]).answer == (if ops[j].client in a.clients then InvalidGrant else InvalidClient)
            && (Over(states[j + 1], serial) <==> Heard(a, ops[j]) || Over(a, serial))
            && (!Heard(a, ops[j]) ==> states[j + 1] == a)
  {
    var s := ops[i].presented;
    RunKeepsInvariants(states, ops, i);
    assert Takes(states, ops, i) && Takes(states, ops, j);
    RunKeepsInvariants(states, ops, j);
    IssuedForever(states, ops, i, j, s);
    RedeemedIsSpent(states[i], ops[i], s);
    SpentForever(states, ops, i + 1, j, s);
    TokenReplay(states[j], ops[j]);
  }

  /** Disconnecting, revoking either token, a password reset and a deactivation
      end every approval they are about. */
  lemma RevocationEndsGrants(a: Auth, op: Op, g: int)
    requires Inv(a) && Enabled(a, op) && g in a.grants
    requires match op
             case Disconnect(u, h) => h == g && a.grants[g].user == u
             case Revoke(s) => s in a.tokens && a.tokens[s].grant == g
             case ResetPassword(u) => a.grants[g].user == u
             case Activate(u, on) => a.grants[g].user == u && !on
             case _ => false
    ensures Over(Answered(a, op).auth, SerialOf(a, g))
  {
  }
}
