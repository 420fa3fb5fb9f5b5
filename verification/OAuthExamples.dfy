/** Runs after which a replay goes unpunished: under another client's name, or after a prune. */
module OAuthExamples {
  import opened Sequences
  import opened OAuth
  import opened OAuthRuns

  const CODE := Secret(Plain, 0)
  const ACCESS1 := Secret(AccessPrefix, 1)
  const REFRESH1 := Secret(RefreshPrefix, 2)
  const ACCESS2 := Secret(AccessPrefix, 3)
  const REFRESH2 := Secret(RefreshPrefix, 4)

  lemma Next(states: seq<Auth>, ops: seq<Op>, op: Op) returns (states': seq<Auth>, ops': seq<Op>)
    requires Run(states, ops) && Enabled(states[|ops|], op)
    ensures Run(states', ops') && states' == states + [Answered(states[|ops|], op).auth] && ops' == ops + [op]
  {
    states', ops' := states + [Answered(states[|ops|], op).auth], ops + [op];
    forall i | 0 <= i < |ops'| ensures Takes(states', ops', i) {
      if i < |ops| {
        assert Takes(states, ops, i);
      }
    }
  }

  lemma Approved() returns (states: seq<Auth>, ops: seq<Op>)
    ensures Run(states, ops) && |ops| == 3
    ensures var a := states[3];
            && UserActive(a, 1) && a.clients.Keys == {1} && a.grants == map[] && a.issued == map[CODE := AsCode]
            && a.codes == map[CODE := Code(1, 1, "", 7, CODE_TTL, false, None)]
  {
    states, ops := [NOTHING], [];
    states, ops := Next(states, ops, AddUser(1));
    states, ops := Next(states, ops, Register(1, 0));
    states, ops := Next(states, ops, Approve(1, 1, "", 7, CODE, 0));
  }

  ghost predicate Connected1(a: Auth) {
    && UserActive(a, 1) && a.clients.Keys == {1} && 1 in a.grants && a.grants[1] == Grant(1, 1)
    && a.issued.Keys == {CODE, ACCESS1, REFRESH1}
    && REFRESH1 in a.tokens && a.tokens[REFRESH1] == Token(1, true, REFRESH_TTL, false)
    && CODE in a.codes && a.codes[CODE] == Code(1, 1, "", 7, CODE_TTL, true, Some(1))
  }

  lemma Redeemed() returns (states: seq<Auth>, ops: seq<Op>)
    ensures Run(states, ops) && |ops| == 4 && Connected1(states[4])
  {
    states, ops := Approved();
    var a := states[3];
    assert 1 !in Prune(a, 0).grants;
    states, ops := Next(states, ops, Redeem(1, CODE, "", 7, 0, 1, ACCESS1, REFRESH1));
    ExchangeIssues(a, 1, CODE, "", 7, 0, 1, ACCESS1, REFRESH1);
  }

  /** A code is redeemed; a minute later it has expired, its grant lives on. Presented
      again it ends the grant, unless a prune came first. */
  lemma UsedCodeForgotten() returns (states: seq<Auth>, ops: seq<Op>)
    ensures Run(states, ops) && |ops| == 4
    ensures var a := states[4];
            && 1 !in Exchange(a, 1, CODE, "", 7, CODE_TTL, 2, ACCESS2, REFRESH2).auth.grants
            && 1 in Exchange(Prune(a, CODE_TTL), 1, CODE, "", 7, CODE_TTL, 2, ACCESS2, REFRESH2).auth.grants
  {
    states, ops := Redeemed();
    RunKeepsInvariants(states, ops, 4);
    CodeForgotten(states[4]);
  }

  lemma CodeForgotten(a: Auth)
    requires TablesOk(a) && Connected1(a)
    ensures 1 !in Exchange(a, 1, CODE, "", 7, CODE_TTL, 2, ACCESS2, REFRESH2).auth.grants
    ensures 1 in Exchange(Prune(a, CODE_TTL), 1, CODE, "", 7, CODE_TTL, 2, ACCESS2, REFRESH2).auth.grants
  {
    ReplayedCodeEnds(a, 1, CODE, "", 7, CODE_TTL, 2, ACCESS2, REFRESH2);
    PruneForgetsUsedCodes(a, CODE_TTL, 1, CODE, "", 7, 2, ACCESS2, REFRESH2);
    assert a.tokens[REFRESH1].grant == 1 && a.tokens[REFRESH1].expires > CODE_TTL;
  }

  /** A refresh token is rotated in its last second; a second later it has expired, its
      grant lives on. Presented again it ends the grant, unless a prune came first. */
  lemma LeakForgotten() returns (states: seq<Auth>, ops: seq<Op>)
    ensures Run(states, ops) && |ops| == 5
    ensures var a := states[5];
            && 1 !in Refresh(a, 1, REFRESH1, REFRESH_TTL, ACCESS2, REFRESH2).auth.grants
            && 1 in Refresh(Prune(a, REFRESH_TTL), 1, REFRESH1, REFRESH_TTL, ACCESS2, REFRESH2).auth.grants
  {
    states, ops := Redeemed();
    var a, late := states[4], Rotate(1, REFRESH1, REFRESH_TTL - 1, ACCESS2, REFRESH2);
    RunKeepsInvariants(states, ops, 4);
    RotatedLate(a);
    states, ops := Next(states, ops, late);
    RunKeepsInvariants(states, ops, 5);
    TokenForgotten(states[5]);
  }

  ghost predicate Rotated1(a: Auth) {
    && REFRESH1 in a.tokens && a.tokens[REFRESH1] == Token(1, true, REFRESH_TTL, true)
    && REFRESH2 in a.tokens && a.tokens[REFRESH2] == Token(1, true, 2 * REFRESH_TTL - 1, false)
    && 1 in a.grants && a.grants[1] == Grant(1, 1) && a.clients.Keys == {1}
  }

  lemma RotatedLate(a: Auth)
    requires Inv(a) && Connected1(a)
    ensures var late := Rotate(1, REFRESH1, REFRESH_TTL - 1, ACCESS2, REFRESH2);
            Enabled(a, late) && Rotated1(Answered(a, late).auth)
  {
    assert ACCESS2 !in a.issued.Keys && REFRESH2 !in a.issued.Keys;
    assert ACCESS2 !in a.tokens && REFRESH2 !in a.tokens;
    RefreshIssues(a, 1, REFRESH1, REFRESH_TTL - 1, ACCESS2, REFRESH2);
  }

  lemma TokenForgotten(a: Auth)
    requires TablesOk(a) && Rotated1(a)
    ensures 1 !in Refresh(a, 1, REFRESH1, REFRESH_TTL, ACCESS2, REFRESH2).auth.grants
    ensures 1 in Refresh(Prune(a, REFRESH_TTL), 1, REFRESH1, REFRESH_TTL, ACCESS2, REFRESH2).auth.grants
  {
    ReplayedTokenEnds(a, 1, REFRESH1, REFRESH_TTL, ACCESS2, REFRESH2);
    PruneForgetsExpiredLeaks(a, REFRESH_TTL, REFRESH1, 1, ACCESS2, REFRESH2);
    assert a.tokens[REFRESH2].grant == 1 && a.tokens[REFRESH2].expires > REFRESH_TTL;
  }

  /** The same run, then a second client registers. Under its name the rotated token is
      refused and the grant lives on; under the grant's own it ends it. */
  lemma OtherClientKeepsGrant() returns (states: seq<Auth>, ops: seq<Op>)
    ensures Run(states, ops) && |ops| == 6
    ensures var a := states[6];
            && 2 in a.clients && 1 in a.grants
            && Refresh(a, 2, REFRESH1, REFRESH_TTL - 1, ACCESS2, REFRESH2) == Reply(a, InvalidGrant)
            && 1 !in Refresh(a, 1, REFRESH1, REFRESH_TTL - 1, ACCESS2, REFRESH2).auth.grants
  {
    states, ops := Redeemed();
    RunKeepsInvariants(states, ops, 4);
    RotatedLate(states[4]);
    states, ops := Next(states, ops, Rotate(1, REFRESH1, REFRESH_TTL - 1, ACCESS2, REFRESH2));
    var a := states[5];
    assert 2 !in a.clients.Keys;
    states, ops := Next(states, ops, Register(2, REFRESH_TTL - 1));
    RunKeepsInvariants(states, ops, 6);
    var b := states[6];
    assert b.tokens == a.tokens && b.grants == a.grants;
    ReplayedTokenEnds(b, 1, REFRESH1, REFRESH_TTL - 1, ACCESS2, REFRESH2);
    ReplayedTokenEnds(b, 2, REFRESH1, REFRESH_TTL - 1, ACCESS2, REFRESH2);
  }

  /** A redeemed code presented under a name that is not registered leaves its grant alone. */
  lemma UnknownClientKeepsGrant() returns (states: seq<Auth>, ops: seq<Op>)
    ensures Run(states, ops) && |ops| == 4
    ensures var a := states[4];
            && 1 in a.grants && Exchange(a, 2, CODE, "", 7, 0, 2, ACCESS2, REFRESH2) == Reply(a, InvalidClient)
            && 1 !in Exchange(a, 1, CODE, "", 7, 0, 2, ACCESS2, REFRESH2).auth.grants
  {
    states, ops := Redeemed();
    RunKeepsInvariants(states, ops, 4);
    assert 2 !in states[4].clients.Keys;
    ReplayedCodeEnds(states[4], 1, CODE, "", 7, 0, 2, ACCESS2, REFRESH2);
    ReplayedCodeEnds(states[4], 2, CODE, "", 7, 0, 2, ACCESS2, REFRESH2);
  }
}
