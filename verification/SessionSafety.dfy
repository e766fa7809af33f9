/** What every interleaving of the session transactions keeps: one unused token per family, one
    claim per token, and revocation that nothing undoes. */
module SessionSafety {
  import opened Wrappers
  import opened Sessions

  // ---------------------------------------------------------------- families

  ghost predicate Unused(s: State, t: TokenId) {
    t in s.tokens && !s.tokens[t].used
  }

  ghost predicate OneOwner(s: State) {
    forall a, b :: a in s.tokens && b in s.tokens && s.tokens[a].family == s.tokens[b].family
      ==> s.tokens[a].user == s.tokens[b].user
  }

  ghost predicate AtMostOneUnused(s: State) {
    forall a, b :: Unused(s, a) && Unused(s, b) && s.tokens[a].family == s.tokens[b].family ==> a == b
  }

  ghost predicate HasUnused(s: State, f: FamilyId) {
    exists t :: Unused(s, t) && s.tokens[t].family == f
  }

  /** A family belongs to one user and has exactly one unused token. */
  ghost predicate Families(s: State) {
    OneOwner(s) && AtMostOneUnused(s) && forall a :: a in s.tokens ==> HasUnused(s, s.tokens[a].family)
  }

  ghost predicate Requests(s: State) {
    forall r :: r in s.refreshes ==> s.refreshes[r] in s.tokens
  }

  ghost function Claims(s: State, t: TokenId): nat {
    multiset(s.log)[Claimed(t)]
  }

  /** A token is used exactly when it was claimed, and then it was claimed once. */
  ghost predicate ClaimedOnce(s: State) {
    forall t :: Claims(s, t) == if t in s.tokens && s.tokens[t].used then 1 else 0
  }

  ghost predicate Safe(s: State) {
    Families(s) && Requests(s) && ClaimedOnce(s)
  }

  /** Tokens that keep everything but their revocation. */
  ghost predicate OnlyRevokes(s: State, t: State) {
    t.tokens.Keys == s.tokens.Keys && t.log == s.log &&
    forall k :: k in s.tokens ==> t.tokens[k] == s.tokens[k].(revoked := t.tokens[k].revoked) &&
                                  (s.tokens[k].revoked ==> t.tokens[k].revoked)
  }

  lemma RevokingKeepsFamilies(s: State, t: State)
    requires Families(s) && OnlyRevokes(s, t)
    ensures Families(t)
  {
    forall a | a in t.tokens
      ensures HasUnused(t, t.tokens[a].family)
    {
      assert HasUnused(s, s.tokens[a].family);
      var b :| Unused(s, b) && s.tokens[b].family == s.tokens[a].family;
      assert Unused(t, b);
    }
    assert forall a :: Unused(t, a) ==> Unused(s, a);
  }

  ghost predicate Founds(s: State, t: State, token: TokenId) {
    token !in s.tokens && token in t.tokens && t.tokens == s.tokens[token := t.tokens[token]] &&
    FreshFamily(s.tokens, t.tokens[token].family) && !t.tokens[token].used && t.log == s.log
  }

  ghost predicate Rotates(s: State, t: State, token: TokenId, successor: TokenId) {
    token in s.tokens && successor !in s.tokens && successor in t.tokens &&
    t.tokens == s.tokens[token := s.tokens[token].(used := true)][successor := t.tokens[successor]] &&
    !s.tokens[token].used && !s.tokens[token].revoked && !t.tokens[successor].used && !t.tokens[successor].revoked &&
    t.tokens[successor].family == s.tokens[token].family && t.tokens[successor].user == s.tokens[token].user &&
    Usable(s.users, s.tokens[token].user) && t.log == s.log + [Claimed(token)]
  }

  /** What a step does to the tokens. */
  lemma NextEffect(s: State, e: Event)
    requires Enabled(s, e)
    ensures var t := Next(s, e);
      || OnlyRevokes(s, t)
      || (e.LoginIssued? && Founds(s, t, e.token))
      || (e.ClaimTried? && Rotates(s, t, s.refreshes[e.req], e.successor))
  {
  }

  lemma FoundingKeepsFamilies(s: State, t: State, token: TokenId)
    requires Families(s) && Founds(s, t, token)
    ensures Families(t)
  {
    forall a | a in t.tokens
      ensures HasUnused(t, t.tokens[a].family)
    {
      if a == token {
        assert Unused(t, token);
      } else {
        assert HasUnused(s, s.tokens[a].family);
        var b :| Unused(s, b) && s.tokens[b].family == s.tokens[a].family;
        assert Unused(t, b);
      }
    }
    assert forall a :: Unused(t, a) ==> a == token || Unused(s, a);
  }

  lemma RotatingKeepsOneUnused(s: State, t: State, token: TokenId, successor: TokenId)
    requires AtMostOneUnused(s) && Rotates(s, t, token, successor)
    ensures AtMostOneUnused(t)
  {
    forall a, b | Unused(t, a) && Unused(t, b) && t.tokens[a].family == t.tokens[b].family
      ensures a == b
    {
      assert Unused(s, token);
      assert a != successor ==> Unused(s, a) && a != token;
      assert b != successor ==> Unused(s, b) && b != token;
    }
  }

  lemma RotatingKeepsOwner(s: State, t: State, token: TokenId, successor: TokenId)
    requires OneOwner(s) && Rotates(s, t, token, successor)
    ensures OneOwner(t)
  {
    forall a, b | a in t.tokens && b in t.tokens && t.tokens[a].family == t.tokens[b].family
      ensures t.tokens[a].user == t.tokens[b].user
    {
      var a', b' := if a == successor then token else a, if b == successor then token else b;
      assert s.tokens[a'].family == s.tokens[b'].family;
    }
  }

  lemma RotatingKeepsFamilies(s: State, t: State, token: TokenId, successor: TokenId)
    requires Families(s) && Rotates(s, t, token, successor)
    ensures Families(t)
  {
    RotatingKeepsOwner(s, t, token, successor);
    RotatingKeepsOneUnused(s, t, token, successor);
    forall a | a in t.tokens
      ensures HasUnused(t, t.tokens[a].family)
    {
      if t.tokens[a].family == s.tokens[token].family {
        assert Unused(t, successor);
      } else {
        assert HasUnused(s, s.tokens[a].family);
        var b :| Unused(s, b) && s.tokens[b].family == s.tokens[a].family;
        assert Unused(t, b);
      }
    }
  }

  lemma NextKeepsClaims(s: State, e: Event)
    requires ClaimedOnce(s) && Enabled(s, e)
    ensures ClaimedOnce(Next(s, e))
  {
    var t := Next(s, e);
    NextEffect(s, e);
    if e.ClaimTried? && Rotates(s, t, s.refreshes[e.req], e.successor) {
      assert multiset(t.log) == multiset(s.log) + multiset{Claimed(s.refreshes[e.req])};
      forall k
        ensures Claims(t, k) == if k in t.tokens && t.tokens[k].used then 1 else 0
      {
        assert Claims(s, k) == if k in s.tokens && s.tokens[k].used then 1 else 0;
      }
    } else {
      forall k
        ensures Claims(t, k) == if k in t.tokens && t.tokens[k].used then 1 else 0
      {
        assert Claims(s, k) == if k in s.tokens && s.tokens[k].used then 1 else 0;
      }
    }
  }

  lemma NextKeepsFamilies(s: State, e: Event)
    requires Families(s) && Enabled(s, e)
    ensures Families(Next(s, e))
  {
    var t := Next(s, e);
    NextEffect(s, e);
    if e.LoginIssued? && Founds(s, t, e.token) {
      FoundingKeepsFamilies(s, t, e.token);
    } else if e.ClaimTried? && Rotates(s, t, s.refreshes[e.req], e.successor) {
      RotatingKeepsFamilies(s, t, s.refreshes[e.req], e.successor);
    } else {
      RevokingKeepsFamilies(s, t);
    }
  }

  lemma NextKeepsRequests(s: State, e: Event)
    requires Requests(s) && Enabled(s, e)
    ensures Requests(Next(s, e))
  {
  }

  lemma NextIsSafe(s: State, e: Event)
    requires Safe(s) && Enabled(s, e)
    ensures Safe(Next(s, e))
  {
    NextKeepsFamilies(s, e);
    NextKeepsRequests(s, e);
    NextKeepsClaims(s, e);
  }

  lemma {:induction false} RunsAreSafe(s: State, es: seq<Event>)
    requires Safe(s) && After(s, es).Some?
    ensures Safe(After(s, es).value)
  {
    if es != [] {
      var n := |es| - 1;
      RunsAreSafe(s, es[..n]);
      NextIsSafe(After(s, es[..n]).value, es[n]);
    }
  }

  // ---------------------------------------------------------------- the family theorem

  ghost function Members(s: State, f: FamilyId): set<TokenId> {
    set t | t in s.tokens && s.tokens[t].family == f
  }

  ghost function UsedMembers(s: State, f: FamilyId): set<TokenId> {
    set t | t in s.tokens && s.tokens[t].family == f && s.tokens[t].used
  }

  ghost predicate Live(s: State, t: TokenId) {
    Unused(s, t) && !s.tokens[t].revoked
  }

  /** Whatever the interleaving: a family that exists has one owner and one more token than used
      tokens, so at most one of its tokens is live; and no token is ever claimed twice. */
  lemma OneUnusedTokenPerFamily(s: State, es: seq<Event>, f: FamilyId, t: TokenId)
    requires Initial(s) && After(s, es).Some?
    ensures var r := After(s, es).value;
      && (Members(r, f) != {} ==> |Members(r, f)| == |UsedMembers(r, f)| + 1)
      && (forall a, b :: a in Members(r, f) && b in Members(r, f) ==> r.tokens[a].user == r.tokens[b].user)
      && (forall a, b :: a in Members(r, f) && b in Members(r, f) && Live(r, a) && Live(r, b) ==> a == b)
      && Claims(r, t) <= 1
  {
    RunsAreSafe(s, es);
    var r := After(s, es).value;
    assert Claims(r, t) == if t in r.tokens && r.tokens[t].used then 1 else 0;
    if a :| a in Members(r, f) {
      assert HasUnused(r, r.tokens[a].family);
      var b :| Unused(r, b) && r.tokens[b].family == f;
      assert Members(r, f) == UsedMembers(r, f) + {b};
    }
  }

  // ---------------------------------------------------------------- revocation

  /** A family that exists and has only revoked tokens. */
  ghost predicate Dead(s: State, f: FamilyId) {
    Members(s, f) != {} && forall t :: t in Members(s, f) ==> s.tokens[t].revoked
  }

  /** The steps that revoke `t`'s family: a replay, a logout, an account deletion, a password reset. */
  ghost predicate Revokes(s: State, e: Event, t: TokenId)
    requires t in s.tokens && Enabled(s, e)
  {
    match e
    case ClaimTried(req, _, _) =>
      s.tokens[s.refreshes[req]].family == s.tokens[t].family &&
      (s.tokens[s.refreshes[req]].used || s.tokens[s.refreshes[req]].revoked)
    case LoggedOut(token) => token in s.tokens && s.tokens[token].family == s.tokens[t].family
    case AccountDeleted(user) => user == s.tokens[t].user && user in s.users && !s.users[user].deleted
    case PasswordReset(reset, _, now) => Redeemable(s, reset, now) && s.resets[reset].user == s.tokens[t].user
    case _ => false
  }

  lemma RevocationKillsTheFamily(s: State, e: Event, t: TokenId)
    requires Families(s) && t in s.tokens && Enabled(s, e) && Revokes(s, e, t)
    ensures Dead(Next(s, e), s.tokens[t].family)
  {
    assert t in Members(Next(s, e), s.tokens[t].family);
  }

  lemma NextKeepsDead(s: State, e: Event, f: FamilyId)
    requires Dead(s, f) && Enabled(s, e)
    ensures Dead(Next(s, e), f)
    ensures forall t :: t in Members(s, f) ==> Claims(Next(s, e), t) == Claims(s, t)
  {
    var r := Next(s, e);
    NextEffect(s, e);
    var t :| t in Members(s, f);
    assert t in Members(r, f);
    if e.ClaimTried? && Rotates(s, r, s.refreshes[e.req], e.successor) {
      assert multiset(r.log) == multiset(s.log) + multiset{Claimed(s.refreshes[e.req])};
      assert s.refreshes[e.req] !in Members(s, f);
    }
  }

  /** Revocation is permanent: no later step adds a live token to the family or claims one of it. */
  lemma {:induction false} DeadStaysDead(s: State, es: seq<Event>, f: FamilyId)
    requires Dead(s, f) && After(s, es).Some?
    ensures Dead(After(s, es).value, f)
    ensures forall t :: t in Members(s, f) ==> Claims(After(s, es).value, t) == Claims(s, t)
    ensures forall t :: Live(After(s, es).value, t) ==> After(s, es).value.tokens[t].family != f
  {
    if es != [] {
      var n := |es| - 1;
      var m := After(s, es[..n]).value;
      DeadStaysDead(s, es[..n], f);
      NextKeepsDead(m, es[n], f);
      MembersStay(s, es[..n], f);
    }
  }

  lemma {:induction false} MembersStay(s: State, es: seq<Event>, f: FamilyId)
    requires After(s, es).Some?
    ensures Members(s, f) <= Members(After(s, es).value, f)
  {
    if es != [] {
      var n := |es| - 1;
      MembersStay(s, es[..n], f);
      NextEffect(After(s, es[..n]).value, es[n]);
    }
  }

  /** From the step that revokes it on, no token of the family ever refreshes again. */
  lemma RevokedNeverRefreshes(s: State, e: Event, es: seq<Event>, t: TokenId)
    requires Families(s) && t in s.tokens && Enabled(s, e) && Revokes(s, e, t)
    requires After(Next(s, e), es).Some?
    ensures var r := After(Next(s, e), es).value;
      && Claims(r, t) == Claims(Next(s, e), t)
      && (forall k :: Live(r, k) ==> r.tokens[k].family != s.tokens[t].family)
  {
    RevocationKillsTheFamily(s, e, t);
    assert t in Members(Next(s, e), s.tokens[t].family);
    DeadStaysDead(Next(s, e), es, s.tokens[t].family);
  }

  // ---------------------------------------------------------------- deleted accounts

  ghost predicate Deleted(s: State, user: UserId) {
    user in s.users && s.users[user].deleted
  }

  /** Once an account is deleted, none of its tokens, old or issued late, ever refreshes. */
  lemma {:induction false} DeletedNeverRefreshes(s: State, es: seq<Event>, user: UserId, t: TokenId)
    requires Families(s) && Deleted(s, user) && After(s, es).Some?
    requires t in After(s, es).value.tokens && After(s, es).value.tokens[t].user == user
    ensures Claims(After(s, es).value, t) == Claims(s, t)
    ensures Deleted(After(s, es).value, user)
  {
    if es != [] {
      var n := |es| - 1;
      var m := After(s, es[..n]).value;
      var r := After(s, es).value;
      DeletionStays(s, es[..n], user);
      NextEffect(m, es[n]);
      if es[n].ClaimTried? && Rotates(m, r, m.refreshes[es[n].req], es[n].successor) {
        assert multiset(r.log) == multiset(m.log) + multiset{Claimed(m.refreshes[es[n].req])};
        assert t != es[n].successor;
      }
      if t in m.tokens {
        DeletedNeverRefreshes(s, es[..n], user, t);
      } else {
        assert es[n].LoginIssued?;
        NoClaimsYet(s, es[..n], t);
      }
    }
  }

  lemma {:induction false} DeletionStays(s: State, es: seq<Event>, user: UserId)
    requires Deleted(s, user) && After(s, es).Some?
    ensures Deleted(After(s, es).value, user)
  {
    if es != [] {
      DeletionStays(s, es[..|es| - 1], user);
    }
  }

  /** A token that does not exist yet was never claimed meanwhile. */
  lemma {:induction false} NoClaimsYet(s: State, es: seq<Event>, t: TokenId)
    requires After(s, es).Some? && t !in After(s, es).value.tokens
    ensures Claims(After(s, es).value, t) == Claims(s, t)
  {
    if es != [] {
      var n := |es| - 1;
      var m := After(s, es[..n]).value;
      var r := After(s, es).value;
      NextEffect(m, es[n]);
      NoClaimsYet(s, es[..n], t);
      if es[n].ClaimTried? && Rotates(m, r, m.refreshes[es[n].req], es[n].successor) {
        assert multiset(r.log) == multiset(m.log) + multiset{Claimed(m.refreshes[es[n].req])};
      }
    }
  }

  // ---------------------------------------------------------------- password reset and pending logins

  ghost predicate SignedOut(s: State, user: UserId) {
    forall t :: t in s.tokens && s.tokens[t].user == user ==> s.tokens[t].revoked
  }

  ghost predicate IssuesTo(s: State, e: Event, user: UserId) {
    e.LoginIssued? && e.req in s.logins && s.logins[e.req] == user
  }

  lemma NextKeepsSignedOut(s: State, e: Event, user: UserId)
    requires SignedOut(s, user) && Enabled(s, e)
    ensures SignedOut(Next(s, e), user) <==> !IssuesTo(s, e, user)
  {
    NextEffect(s, e);
    if IssuesTo(s, e, user) {
      assert e.token in Next(s, e).tokens && !Next(s, e).tokens[e.token].revoked;
    }
  }

  /** A reset signs the user out everywhere, and only a login issued after it changes that. */
  lemma {:induction false} ResetSignsOut(s: State, reset: ResetId, password: nat, now: Time, es: seq<Event>)
    requires Redeemable(s, reset, now)
    requires After(ResetPassword(s, reset, password, now).0, es).Some?
    requires var m := ResetPassword(s, reset, password, now).0;
      forall i :: 0 <= i < |es| && After(m, es[..i]).Some? ==>
        !IssuesTo(After(m, es[..i]).value, es[i], s.resets[reset].user)
    ensures SignedOut(After(ResetPassword(s, reset, password, now).0, es).value, s.resets[reset].user)
  {
    if es != [] {
      var n := |es| - 1;
      var m := ResetPassword(s, reset, password, now).0;
      assert forall i :: 0 <= i < n ==> es[..n][..i] == es[..i] && es[..n][i] == es[i];
      ResetSignsOut(s, reset, password, now, es[..n]);
      NextKeepsSignedOut(After(m, es[..n]).value, es[n], s.resets[reset].user);
    }
  }

  /** Such a login may have checked the old password: one that was pending at the reset still gets
      its session afterwards. */
  lemma PendingLoginOutlivesReset(s: State, reset: ResetId, password: nat, now: Time, req: RequestId,
                                  token: TokenId, family: FamilyId)
    requires Redeemable(s, reset, now) && req in s.logins && s.logins[req] == s.resets[reset].user
    requires token !in s.tokens && FreshFamily(s.tokens, family)
    ensures var es := [PasswordReset(reset, password, now), LoginIssued(req, token, family, now)];
      After(s, es).Some? && Live(After(s, es).value, token) &&
      After(s, es).value.tokens[token].user == s.resets[reset].user
  {
    var e1, e2 := PasswordReset(reset, password, now), LoginIssued(req, token, family, now);
    assert [e1, e2][..1] == [e1] && [e1][..0] == [];
    assert After(s, []) == Some(s);
    assert After(s, [e1]) == Some(Next(s, e1));
    var m := Next(s, e1);
    assert m.tokens == RevokeUser(s.tokens, s.resets[reset].user) && Enabled(m, e2);
    assert After(s, [e1, e2]) == Some(Next(m, e2));
  }
}
