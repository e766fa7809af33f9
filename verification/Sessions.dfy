/** Rotating refresh tokens with reuse detection (section 4.14.2 of RFC 9700), as a state machine
    over the committed transactions of login, refresh, logout, account deletion and password reset.
    A raw token stands for its own hash: the hash is injective on the tokens in use. */
module Sessions {
  import opened Wrappers

  type UserId = nat
  type TokenId = nat
  type FamilyId = nat
  type ResetId = nat
  type RequestId = nat
  type Time = nat

  const REFRESH_LIFETIME: nat := 30 * 86400
  const RESET_LIFETIME: nat := 30 * 60

  datatype Token = Token(user: UserId, family: FamilyId, used: bool, revoked: bool, expires: Time)
  datatype User = User(password: nat, active: bool, deleted: bool)
  datatype ResetToken = ResetToken(user: UserId, expires: Time, usedAt: Option<Time>)

  /** The history: which token a rotation claimed. */
  datatype Fact = Claimed(token: TokenId)

  datatype State = State(
    tokens: map<TokenId, Token>,
    users: map<UserId, User>,
    resets: map<ResetId, ResetToken>,
    logins: map<RequestId, UserId>,
    refreshes: map<RequestId, TokenId>,
    log: seq<Fact>)

  datatype Failure = InvalidCredentials | InvalidToken | Expired | Reused | InactiveUser

  predicate Usable(users: map<UserId, User>, user: UserId) {
    user in users && users[user].active && !users[user].deleted
  }

  function RevokeFamily(tokens: map<TokenId, Token>, family: FamilyId): map<TokenId, Token> {
    map t | t in tokens :: if tokens[t].family == family then tokens[t].(revoked := true) else tokens[t]
  }

  function RevokeUser(tokens: map<TokenId, Token>, user: UserId): map<TokenId, Token> {
    map t | t in tokens :: if tokens[t].user == user then tokens[t].(revoked := true) else tokens[t]
  }

  predicate FreshFamily(tokens: map<TokenId, Token>, family: FamilyId) {
    forall t :: t in tokens ==> tokens[t].family != family
  }

  // ---------------------------------------------------------------- the transactions

  ghost function CheckLogin(s: State, req: RequestId, user: UserId, password: nat): (State, Result<(), Failure>) {
    if user !in s.users || s.users[user].password != password || !Usable(s.users, user) then
      (s, Err(InvalidCredentials))
    else (s.(logins := s.logins[req := user]), Ok(()))
  }

  /** The checked login issues a token that starts a family of its own. */
  ghost function IssueLogin(s: State, req: RequestId, token: TokenId, family: FamilyId, now: Time): State
    requires req in s.logins
  {
    s.(tokens := s.tokens[token := Token(s.logins[req], family, false, false, now + REFRESH_LIFETIME)],
       logins := s.logins - {req})
  }

  ghost function LookUp(s: State, req: RequestId, token: TokenId, now: Time): (State, Result<(), Failure>) {
    if token !in s.tokens then (s, Err(InvalidToken))
    else if s.tokens[token].expires < now then (s, Err(Expired))
    else (s.(refreshes := s.refreshes[req := token]), Ok(()))
  }

  /** The conditional claim, and either the family's revocation, a rollback, or the successor. */
  ghost function Claim(s: State, req: RequestId, successor: TokenId, now: Time): (State, Result<TokenId, Failure>)
    requires req in s.refreshes && s.refreshes[req] in s.tokens
  {
    var token := s.refreshes[req];
    var row := s.tokens[token];
    var t := s.(refreshes := s.refreshes - {req});
    if row.used || row.revoked then (t.(tokens := RevokeFamily(s.tokens, row.family)), Err(Reused))
    else if !Usable(s.users, row.user) then (t, Err(InactiveUser))
    else
      (t.(tokens := s.tokens[token := row.(used := true)]
                    [successor := Token(row.user, row.family, false, false, now + REFRESH_LIFETIME)],
          log := s.log + [Claimed(token)]), Ok(successor))
  }

  ghost function Logout(s: State, token: TokenId): State {
    if token !in s.tokens then s else s.(tokens := RevokeFamily(s.tokens, s.tokens[token].family))
  }

  ghost function DeleteAccount(s: State, user: UserId): State {
    if user !in s.users || s.users[user].deleted then s
    else s.(users := s.users[user := s.users[user].(deleted := true)], tokens := RevokeUser(s.tokens, user))
  }

  ghost function RequestReset(s: State, user: UserId, reset: ResetId, now: Time): State {
    if !Usable(s.users, user) then s
    else s.(resets := s.resets[reset := ResetToken(user, now + RESET_LIFETIME, None)])
  }

  function ConsumeResets(resets: map<ResetId, ResetToken>, user: UserId, now: Time): map<ResetId, ResetToken> {
    map r | r in resets ::
      if resets[r].user == user && resets[r].usedAt.None? then resets[r].(usedAt := Some(now)) else resets[r]
  }

  predicate Redeemable(s: State, reset: ResetId, now: Time) {
    reset in s.resets && s.resets[reset].usedAt.None? && now <= s.resets[reset].expires &&
    s.resets[reset].user in s.users && !s.users[s.resets[reset].user].deleted
  }

  ghost function ResetPassword(s: State, reset: ResetId, password: nat, now: Time): (State, Result<(), Failure>) {
    if !Redeemable(s, reset, now) then (s, Err(InvalidToken))
    else
      var user := s.resets[reset].user;
      (s.(users := s.users[user := s.users[user].(password := password)],
          resets := ConsumeResets(s.resets, user, now),
          tokens := RevokeUser(s.tokens, user)), Ok(()))
  }

  // ---------------------------------------------------------------- runs

  datatype Event =
    | LoginChecked(req: RequestId, user: UserId, password: nat)
    | LoginIssued(req: RequestId, token: TokenId, family: FamilyId, now: Time)
    | LookedUp(req: RequestId, token: TokenId, now: Time)
    | ClaimTried(req: RequestId, successor: TokenId, now: Time)
    | LoggedOut(token: TokenId)
    | AccountDeleted(user: UserId)
    | ResetRequested(user: UserId, reset: ResetId, now: Time)
    | PasswordReset(reset: ResetId, password: nat, now: Time)

  /** New tokens, families and reset tokens are random, hence new; request ids name live requests. */
  ghost predicate Enabled(s: State, e: Event) {
    match e
    case LoginChecked(req, _, _) => req !in s.logins
    case LoginIssued(req, token, family, _) => req in s.logins && token !in s.tokens && FreshFamily(s.tokens, family)
    case LookedUp(req, _, _) => req !in s.refreshes
    case ClaimTried(req, successor, _) => req in s.refreshes && s.refreshes[req] in s.tokens && successor !in s.tokens
    case LoggedOut(_) => true
    case AccountDeleted(_) => true
    case ResetRequested(_, reset, _) => reset !in s.resets
    case PasswordReset(_, _, _) => true
  }

  ghost function Next(s: State, e: Event): State
    requires Enabled(s, e)
  {
    match e
    case LoginChecked(req, user, password) => CheckLogin(s, req, user, password).0
    case LoginIssued(req, token, family, now) => IssueLogin(s, req, token, family, now)
    case LookedUp(req, token, now) => LookUp(s, req, token, now).0
    case ClaimTried(req, successor, now) => Claim(s, req, successor, now).0
    case LoggedOut(token) => Logout(s, token)
    case AccountDeleted(user) => DeleteAccount(s, user)
    case ResetRequested(user, reset, now) => RequestReset(s, user, reset, now)
    case PasswordReset(reset, password, now) => ResetPassword(s, reset, password, now).0
  }

  ghost predicate Initial(s: State) {
    s.tokens == map[] && s.resets == map[] && s.logins == map[] && s.refreshes == map[] && s.log == []
  }

  ghost function After(s: State, es: seq<Event>): Option<State> {
    if es == [] then Some(s)
    else
      var n := |es| - 1;
      var m := After(s, es[..n]);
      if m.None? || !Enabled(m.value, es[n]) then None else Some(Next(m.value, es[n]))
  }
}
