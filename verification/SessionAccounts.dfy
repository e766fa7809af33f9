/** What logins, refreshes, revocations, deletions and password resets do to an account, field by field. */
module SessionAccounts {
  import opened Wrappers
  import opened Sessions
  import opened SessionSafety

  // ---------------------------------------------------------------- logging in and refreshing

  /** A known account that is active and not deleted. */
  predicate Open(s: State, user: UserId) {
    user in s.users && s.users[user].active && !s.users[user].deleted
  }

  /** A login passes its check exactly for an open account and its password, and then waits for its session. */
  lemma LoginPassesIff(s: State, req: RequestId, user: UserId, password: nat)
    ensures var (t, r) := CheckLogin(s, req, user, password);
      && (r.Ok? <==> Open(s, user) && s.users[user].password == password)
      && (r.Err? ==> t == s && r.error == InvalidCredentials)
      && (r.Ok? ==> t == s.(logins := s.logins[req := user]))
  {
  }

  /** A token that is neither used nor revoked and lasts thirty days from `now`. */
  predicate NewToken(token: Token, user: UserId, family: FamilyId, now: Time) {
    token.user == user && token.family == family && !token.used && !token.revoked && token.expires == now + 2592000
  }

  lemma LoginGetsItsToken(s: State, req: RequestId, token: TokenId, family: FamilyId, now: Time)
    requires Enabled(s, LoginIssued(req, token, family, now))
    ensures var t := IssueLogin(s, req, token, family, now);
      && t == s.(tokens := t.tokens, logins := s.logins - {req}) && t.tokens - {token} == s.tokens
      && token in t.tokens && NewToken(t.tokens[token], s.logins[req], family, now)
  {
    assert IssueLogin(s, req, token, family, now).tokens - {token} == s.tokens;
  }

  /** A presented token is found exactly if it is known and its lifetime is not over. */
  lemma TokenIsFoundIff(s: State, req: RequestId, token: TokenId, now: Time)
    ensures var (t, r) := LookUp(s, req, token, now);
      && (r.Ok? <==> token in s.tokens && now <= s.tokens[token].expires)
      && (r == Err(InvalidToken) <==> token !in s.tokens)
      && t == if r.Ok? then s.(refreshes := s.refreshes[req := token]) else s
  {
  }

  /** A claim succeeds exactly for an unused and unrevoked token of an open account: the token is used, its
      successor takes over the user and the family for thirty days, and every other token stays. */
  lemma ClaimRotatesIff(s: State, req: RequestId, successor: TokenId, now: Time)
    requires Enabled(s, ClaimTried(req, successor, now))
    ensures var (t, r) := Claim(s, req, successor, now); var token := s.refreshes[req]; var row := s.tokens[token];
      && (r.Ok? <==> !row.used && !row.revoked && Open(s, row.user))
      && (r == Err(Reused) <==> row.used || row.revoked)
      && (r.Ok? ==> r.value == successor && successor in t.tokens)
      && (r.Ok? ==> NewToken(t.tokens[successor], row.user, row.family, now))
      && (r.Ok? ==> t.tokens - {successor} == s.tokens[token := row.(used := true)])
      && (r.Err? && r.error != Reused ==> t.tokens == s.tokens)
      && t.users == s.users && t.logins == s.logins && t.refreshes == s.refreshes - {req}
  {
    var (t, r) := Claim(s, req, successor, now);
    if r.Ok? { assert t.tokens - {successor} == s.tokens[s.refreshes[req] := t.tokens[s.refreshes[req]]]; }
  }

  // ---------------------------------------------------------------- who gets signed out

  /** The same tokens, of which exactly those in `hit` are revoked now if they were not before. */
  ghost predicate RevokesExactly(s: State, t: State, hit: set<TokenId>) {
    t.tokens.Keys == s.tokens.Keys &&
    forall k :: k in s.tokens ==> t.tokens[k] == s.tokens[k].(revoked := s.tokens[k].revoked || k in hit)
  }

  ghost function OfUser(s: State, user: UserId): set<TokenId> {
    set k | k in s.tokens && s.tokens[k].user == user
  }

  lemma ReplayHitsTheFamily(s: State, req: RequestId, successor: TokenId, now: Time)
    requires Enabled(s, ClaimTried(req, successor, now)) && Claim(s, req, successor, now).1 == Err(Reused)
    ensures RevokesExactly(s, Claim(s, req, successor, now).0, Members(s, s.tokens[s.refreshes[req]].family))
  {
  }

  /** A logout ends the family of the token presented, and nothing else. */
  lemma LogoutHitsTheFamily(s: State, token: TokenId)
    ensures var t := Logout(s, token);
      && t == s.(tokens := t.tokens)
      && RevokesExactly(s, t, if token in s.tokens then Members(s, s.tokens[token].family) else {})
  {
  }

  /** Deleting an account marks it deleted, signs its user out, and leaves everybody else alone. */
  lemma DeletionMarksTheAccount(s: State, user: UserId)
    ensures var t := DeleteAccount(s, user); var first := user in s.users && !s.users[user].deleted;
      && t == s.(users := t.users, tokens := t.tokens)
      && (user in s.users ==> Deleted(t, user) && t.users[user] == s.users[user].(deleted := true))
      && t.users.Keys == s.users.Keys && (forall u :: u in s.users && u != user ==> t.users[u] == s.users[u])
      && RevokesExactly(s, t, if first then OfUser(s, user) else {})
  {
  }

  /** From its deletion on, along every run, an account stays deleted, its logins are refused, and none of its
      tokens, old, pending or late, is claimed. */
  lemma DeletionIsForGood(s: State, user: UserId, es: seq<Event>, t: TokenId, req: RequestId, password: nat)
    requires Safe(s) && user in s.users && After(Next(s, AccountDeleted(user)), es).Some?
    ensures var r := After(Next(s, AccountDeleted(user)), es).value;
      && Deleted(r, user)
      && CheckLogin(r, req, user, password).1 == Err(InvalidCredentials)
      && (t in r.tokens && r.tokens[t].user == user ==> Claims(r, t) == Claims(s, t))
  {
    var m := Next(s, AccountDeleted(user));
    DeletionMarksTheAccount(s, user);
    NextIsSafe(s, AccountDeleted(user));
    DeletionStays(m, es, user);
    var r := After(m, es).value;
    if t in r.tokens && r.tokens[t].user == user { DeletedNeverRefreshes(m, es, user, t); }
  }

  // ---------------------------------------------------------------- password resets

  /** A reset is made exactly for an open account; it can be redeemed for thirty minutes. */
  lemma RequestedResetIsRedeemableIff(s: State, user: UserId, reset: ResetId, now: Time, later: Time)
    requires reset !in s.resets
    ensures var t := RequestReset(s, user, reset, now);
      && t == s.(resets := t.resets)
      && (Redeemable(t, reset, later) <==> Open(s, user) && later <= now + 1800)
      && (reset in t.resets ==> t.resets[reset].user == user && t.resets - {reset} == s.resets)
      && (reset !in t.resets ==> t.resets == s.resets)
  {
    var t := RequestReset(s, user, reset, now);
    if reset in t.resets { assert t.resets - {reset} == s.resets; }
  }

  /** A reset that is known, unused and not over, of an account that is not deleted. */
  predicate CanBeRedeemed(s: State, reset: ResetId, now: Time) {
    reset in s.resets && s.resets[reset].usedAt == None && now <= s.resets[reset].expires &&
    s.resets[reset].user in s.users && !s.users[s.resets[reset].user].deleted
  }

  /** Redeeming succeeds exactly then: it writes the new password of that user alone, uses up all open resets
      of the user, and signs the user out. */
  lemma ResetIff(s: State, reset: ResetId, password: nat, now: Time)
    ensures var (t, r) := ResetPassword(s, reset, password, now);
      && (r.Ok? <==> CanBeRedeemed(s, reset, now))
      && (r.Err? ==> t == s)
      && (r.Ok? ==> var user := s.resets[reset].user;
            && t == s.(users := t.users, resets := t.resets, tokens := t.tokens)
            && t.users == s.users[user := s.users[user].(password := password)]
            && RevokesExactly(s, t, OfUser(s, user))
            && UsesUpResets(s, t, user, now))
  {
  }

  ghost predicate UsesUpResets(s: State, t: State, user: UserId, now: Time) {
    t.resets.Keys == s.resets.Keys &&
    forall k :: k in s.resets ==>
      t.resets[k].user == s.resets[k].user && t.resets[k].expires == s.resets[k].expires &&
      t.resets[k].usedAt ==
        if s.resets[k].user == user && s.resets[k].usedAt == None then Some(now) else s.resets[k].usedAt
  }

  /** Afterwards the new password alone logs in, and no earlier reset of the user can be redeemed. */
  lemma ResetTakesEffect(s: State, reset: ResetId, password: nat, now: Time, req: RequestId, other: nat, k: ResetId,
                         later: Time)
    requires CanBeRedeemed(s, reset, now)
    ensures var t, user := ResetPassword(s, reset, password, now).0, s.resets[reset].user;
      && (CheckLogin(t, req, user, other).1.Ok? <==> other == password && s.users[user].active)
      && (k in s.resets && s.resets[k].user == user ==> !CanBeRedeemed(t, k, later))
  {
    ResetIff(s, reset, password, now);
  }
}
