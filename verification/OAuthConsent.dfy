/** Access needs consent, over whole runs: behind every secret that works there is a user
    who approved the client, and that client redeemed what the user approved. */
module OAuthConsent {
  import opened Sequences
  import opened OAuth
  import opened OAuthRuns

  /** The code was issued by this approval, under these terms. */
  predicate IsApproval(op: Op, code: Secret, row: Code) {
    op.Approve? && op.code == code && Terms(row) == Code(op.user, op.client, op.redirect, op.challenge, op.at + 60, false, None)
  }

  /** What stays the same of a code while it is stored. */
  function Terms(row: Code): Code { row.(used := false, grant := None) }

  lemma CodeStep(a: Auth, op: Op, code: Secret)
    requires Inv(a) && Enabled(a, op) && code in Answered(a, op).auth.codes
    ensures var row := Answered(a, op).auth.codes[code];
            IsApproval(op, code, row) || (code in a.codes && Terms(a.codes[code]) == Terms(row))
  {
    match op {
      case Redeem(c, other, r, v, at, g, access, refresh) => RedeemTerms(a, c, other, r, v, at, g, access, refresh, code);
      case Rotate(c, s, at, access, refresh) => RefreshTerms(a, c, s, at, access, refresh, code);
      case _ =>
    }
  }

  lemma RedeemTerms(
    a: Auth, client: int, other: Secret, redirect: string, verifier: int, now: int, g: int, access: Secret, refresh: Secret,
    code: Secret)
    requires code in Exchange(a, client, other, redirect, verifier, now, g, access, refresh).auth.codes
    ensures var b := Exchange(a, client, other, redirect, verifier, now, g, access, refresh).auth;
            code in a.codes && Terms(a.codes[code]) == Terms(b.codes[code])
  {
    PrunedCodes(a, now, code);
  }

  lemma RefreshTerms(a: Auth, client: int, s: Secret, now: int, access: Secret, refresh: Secret, code: Secret)
    requires code in Refresh(a, client, s, now, access, refresh).auth.codes
    ensures var b := Refresh(a, client, s, now, access, refresh).auth;
            code in a.codes && Terms(a.codes[code]) == Terms(b.codes[code])
  {
  }

  ghost predicate Approved(ops: seq<Op>, j: nat, code: Secret, row: Code)
    requires j <= |ops|
  {
    exists i | 0 <= i < j :: IsApproval(ops[i], code, row)
  }

  /** One step's codes: issued by it, or there before under the same terms. */
  ghost predicate Follow(before: map<Secret, Code>, op: Op, after: map<Secret, Code>) {
    forall code | code in after ::
      IsApproval(op, code, after[code]) || (code in before && Terms(before[code]) == Terms(after[code]))
  }

  lemma CodesFollow(states: seq<Auth>, ops: seq<Op>, k: nat)
    requires Run(states, ops) && k < |ops|
    ensures Follow(states[k].codes, ops[k], states[k + 1].codes)
  {
    RunKeepsInvariants(states, ops, k);
    assert Takes(states, ops, k);
    forall code | code in states[k + 1].codes
      ensures IsApproval(ops[k], code, states[k + 1].codes[code]) ||
              (code in states[k].codes && Terms(states[k].codes[code]) == Terms(states[k + 1].codes[code]))
    {
      CodeStep(states[k], ops[k], code);
    }
  }

  lemma {:induction false} ApprovedAlong(tables: seq<map<Secret, Code>>, ops: seq<Op>, j: nat, code: Secret)
    requires |tables| == |ops| + 1 && tables[0] == map[]
    requires forall k | 0 <= k < |ops| :: Follow(tables[k], ops[k], tables[k + 1])
    requires j <= |ops| && code in tables[j]
    ensures Approved(ops, j, code, tables[j][code])
  {
    assert Follow(tables[j - 1], ops[j - 1], tables[j]);
    if !IsApproval(ops[j - 1], code, tables[j][code]) {
      ApprovedAlong(tables, ops, j - 1, code);
      var i :| 0 <= i < j - 1 && IsApproval(ops[i], code, tables[j - 1][code]);
      assert IsApproval(ops[i], code, tables[j][code]);
    }
  }

  /** Every stored code was issued by an earlier approval. */
  lemma CodeApproved(states: seq<Auth>, ops: seq<Op>, j: nat, code: Secret)
    requires Run(states, ops) && j < |states| && code in states[j].codes
    ensures Approved(ops, j, code, states[j].codes[code])
  {
    var tables := seq(|states|, k requires 0 <= k < |states| => states[k].codes);
    forall k | 0 <= k < |ops| ensures Follow(tables[k], ops[k], tables[k + 1]) {
      CodesFollow(states, ops, k);
    }
    ApprovedAlong(tables, ops, j, code);
  }

  /** A redemption for tokens, of a code in time and under the terms it was approved with. */
  ghost predicate Answers(a: Auth, op: Op, approval: Op) {
    && op.Redeem? && approval.Approve? && Answered(a, op).answer.Granted?
    && op.code == approval.code && op.client == approval.client && op.verifier == approval.challenge
    && (op.redirect == "" || op.redirect == approval.redirect) && op.at < approval.at + 60
  }

  /** Step `i` approves the client for the user; step `k` redeems it as approval `serial`. */
  ghost predicate Consent(states: seq<Auth>, ops: seq<Op>, i: nat, k: nat, grant: Grant, serial: nat)
    requires i < k < |ops| <= |states|
  {
    && Answers(states[k], ops[k], ops[i]) && states[k].approvals == serial
    && ops[i].user == grant.user && ops[i].client == grant.client
  }

  ghost predicate Consented(states: seq<Auth>, ops: seq<Op>, j: nat, grant: Grant, serial: nat)
    requires j <= |ops| <= |states|
  {
    exists i, k | 0 <= i < k < j :: Consent(states, ops, i, k, grant, serial)
  }

  /** The grant was made by this redemption. */
  ghost predicate Makes(a: Auth, op: Op, grant: Grant) {
    && op.Redeem? && Answered(a, op).answer.Granted? && op.code in a.codes
    && !CodeRefused(a, a.codes[op.code], op.client, op.redirect, op.verifier, op.at)
    && grant == Grant(a.codes[op.code].user, op.client)
  }

  lemma GrantStep(a: Auth, op: Op, g: int)
    requires Inv(a) && Enabled(a, op) && g in Answered(a, op).auth.grants
    ensures var b := Answered(a, op).auth;
            || (g in a.grants && b.grants[g] == a.grants[g] && SerialOf(b, g) == SerialOf(a, g))
            || (Makes(a, op, b.grants[g]) && SerialOf(b, g) == a.approvals)
  {
    if op.Redeem? {
      RedeemGrants(a, op, g);
    } else if op.Rotate? {
      RefreshGrants(a, op.client, op.presented, op.at, op.access, op.refresh);
    }
  }

  lemma RedeemGrants(a: Auth, op: Op, g: int)
    requires Inv(a) && Enabled(a, op) && op.Redeem? && g in Answered(a, op).auth.grants
    ensures var b := Answered(a, op).auth;
            || (g in a.grants && b.grants[g] == a.grants[g] && SerialOf(b, g) == SerialOf(a, g))
            || (Makes(a, op, b.grants[g]) && SerialOf(b, g) == a.approvals)
  {
    if Answered(a, op).answer.Granted? {
      PrunedTokens(a, op.at);
    }
  }

  lemma RefreshGrants(a: Auth, client: int, s: Secret, now: int, access: Secret, refresh: Secret)
    ensures var b := Refresh(a, client, s, now, access, refresh).auth;
            b.serials == a.serials && forall h | h in b.grants :: h in a.grants && b.grants[h] == a.grants[h]
  {
  }

  /** Every stored grant was consented to. */
  lemma {:induction false} GrantConsented(states: seq<Auth>, ops: seq<Op>, j: nat, g: int)
    requires Run(states, ops) && j < |states| && g in states[j].grants
    ensures Consented(states, ops, j, states[j].grants[g], SerialOf(states[j], g))
  {
    assert j > 0;
    var a, op := states[j - 1], ops[j - 1];
    RunKeepsInvariants(states, ops, j - 1);
    assert Takes(states, ops, j - 1);
    GrantStep(a, op, g);
    if Makes(a, op, states[j].grants[g]) && SerialOf(states[j], g) == a.approvals {
      CodeApproved(states, ops, j - 1, op.code);
      var i :| 0 <= i < j - 1 && IsApproval(ops[i], op.code, a.codes[op.code]);
      assert Consent(states, ops, i, j - 1, states[j].grants[g], SerialOf(states[j], g));
    } else {
      GrantConsented(states, ops, j - 1, g);
      var i, k :| 0 <= i < k < j - 1 && Consent(states, ops, i, k, a.grants[g], SerialOf(a, g));
      assert Consent(states, ops, i, k, states[j].grants[g], SerialOf(states[j], g));
    }
  }

  /** Over every run: a token speaks for a user only if that user approved a client and
      the client redeemed the code of that approval, in time and with its verifier; the
      token belongs to the approval this made. */
  lemma AccessNeedsConsent(states: seq<Auth>, ops: seq<Op>, j: nat, s: Secret, now: int, user: int)
    requires Run(states, ops) && j < |states| && Authenticate(states[j], s, now) == Some(user)
    ensures s in states[j].issued && states[j].issued[s].AsToken?
    ensures exists client :: Consented(states, ops, j, Grant(user, client), states[j].issued[s].serial)
  {
    var a := states[j];
    RunKeepsInvariants(states, ops, j);
    var g := a.tokens[s].grant;
    GrantConsented(states, ops, j, g);
    assert a.grants[g] == Grant(user, a.grants[g].client);
  }

  /** And a token rotates only for the client that redeemed that approval. */
  lemma RotationNeedsConsent(states: seq<Auth>, ops: seq<Op>, j: nat)
    requires Run(states, ops) && j < |ops| && ops[j].Rotate? && Answered(states[j], ops[j]).answer.Granted?
    ensures ops[j].presented in states[j].issued && states[j].issued[ops[j].presented].AsToken?
    ensures exists user :: UserActive(states[j], user) &&
              Consented(states, ops, j, Grant(user, ops[j].client), states[j].issued[ops[j].presented].serial)
  {
    var a := states[j];
    RunKeepsInvariants(states, ops, j);
    var g := a.tokens[ops[j].presented].grant;
    GrantConsented(states, ops, j, g);
    assert UserActive(a, a.grants[g].user) && a.grants[g] == Grant(a.grants[g].user, ops[j].client);
  }
}
