/** The session routes and the browser client as they run, each transaction and each callback proved
    equal to its step of the state machines. */
module SessionService {
  import opened Wrappers
  import opened Sessions
  import opened Browser

  class AuthServer {
    var tokens: map<TokenId, Token>
    var users: map<UserId, User>
    var resets: map<ResetId, ResetToken>
    ghost var logins: map<RequestId, UserId>
    ghost var refreshes: map<RequestId, TokenId>
    ghost var log: seq<Fact>

    ghost function Snapshot(): State
      reads this
    {
      State(tokens, users, resets, logins, refreshes, log)
    }

    constructor (users: map<UserId, User>)
      ensures Initial(Snapshot()) && this.users == users
    {
      tokens, resets := map[], map[];
      this.users := users;
      logins, refreshes, log := map[], map[], [];
    }

    method CheckCredentials(req: RequestId, user: UserId, password: nat) returns (r: Result<(), Failure>)
      modifies this`logins
      ensures (Snapshot(), r) == CheckLogin(old(Snapshot()), req, user, password)
    {
      var pwOk := user in users && users[user].password == password;
      if user !in users || !pwOk || !users[user].active || users[user].deleted {
        return Err(InvalidCredentials);
      }
      logins := logins[req := user];
      r := Ok(());
    }

    /** Mints a refresh token in `family`. */
    method IssueSession(user: UserId, token: TokenId, family: FamilyId, now: Time)
      modifies this`tokens
      ensures tokens == old(tokens)[token := Token(user, family, false, false, now + REFRESH_LIFETIME)]
    {
      tokens := tokens[token := Token(user, family, false, false, now + REFRESH_LIFETIME)];
    }

    method FinishLogin(req: RequestId, user: UserId, token: TokenId, family: FamilyId, now: Time)
      requires req in logins && logins[req] == user
      modifies this`tokens, this`logins
      ensures Snapshot() == IssueLogin(old(Snapshot()), req, token, family, now)
    {
      IssueSession(user, token, family, now);
      logins := logins - {req};
    }

    method LookUpToken(req: RequestId, raw: TokenId, now: Time) returns (r: Result<(), Failure>)
      modifies this`refreshes
      ensures (Snapshot(), r) == LookUp(old(Snapshot()), req, raw, now)
    {
      if raw !in tokens {
        return Err(InvalidToken);
      }
      if tokens[raw].expires < now {
        return Err(Expired);
      }
      refreshes := refreshes[req := raw];
      r := Ok(());
    }

    /** One conditional update claims the token; what follows commits with it or rolls it back. */
    method ClaimToken(req: RequestId, raw: TokenId, successor: TokenId, now: Time) returns (r: Result<TokenId, Failure>)
      requires req in refreshes && refreshes[req] == raw && raw in tokens
      modifies this`tokens, this`refreshes, this`log
      ensures (Snapshot(), r) == Claim(old(Snapshot()), req, successor, now)
    {
      var row, committed := tokens[raw], tokens;
      refreshes := refreshes - {req};
      var rowcount := 0;
      if !tokens[raw].used && !tokens[raw].revoked {
        tokens := tokens[raw := tokens[raw].(used := true)];
        rowcount := 1;
      }
      if rowcount == 0 {
        tokens := RevokeFamily(tokens, row.family);
        return Err(Reused);
      }
      if row.user !in users || !users[row.user].active || users[row.user].deleted {
        tokens := committed;
        return Err(InactiveUser);
      }
      IssueSession(row.user, successor, row.family, now);
      log := log + [Claimed(raw)];
      r := Ok(successor);
    }

    /** The login route with no other event in between. */
    method LoginRoute(req: RequestId, user: UserId, password: nat, token: TokenId, family: FamilyId, now: Time)
      returns (r: Result<TokenId, Failure>)
      requires req !in logins
      modifies this`tokens, this`logins
      ensures r.Ok? <==> Usable(users, user) && users[user].password == password
      ensures r.Err? ==> Snapshot() == old(Snapshot())
      ensures r.Ok? ==> r.value == token && logins == old(logins)
      ensures r.Ok? ==> tokens == old(tokens)[token := Token(user, family, false, false, now + REFRESH_LIFETIME)]
    {
      var checked := CheckCredentials(req, user, password);
      if checked.Err? {
        return Err(checked.error);
      }
      FinishLogin(req, user, token, family, now);
      assert logins == old(logins);
      r := Ok(token);
    }

    /** The refresh route with no other event in between: a presented token is good for one successor. */
    method RefreshRoute(req: RequestId, cookie: Option<TokenId>, successor: TokenId, now: Time)
      returns (r: Result<TokenId, Failure>)
      requires req !in refreshes && successor !in tokens
      modifies this`tokens, this`refreshes, this`log
      ensures refreshes == old(refreshes)
      ensures r.Ok? <==>
        cookie.Some? && cookie.value in old(tokens) && now <= old(tokens)[cookie.value].expires &&
        !old(tokens)[cookie.value].used && !old(tokens)[cookie.value].revoked &&
        Usable(users, old(tokens)[cookie.value].user)
      ensures r.Ok? ==>
        r.value == successor && successor in tokens && !tokens[successor].used && !tokens[successor].revoked &&
        tokens[successor].user == old(tokens)[cookie.value].user &&
        tokens[successor].family == old(tokens)[cookie.value].family &&
        tokens[successor].expires == now + 2592000 &&
        cookie.value in tokens && tokens[cookie.value].used &&
        tokens - {successor, cookie.value} == old(tokens) - {cookie.value}
      ensures r == Err(Reused) ==>
        cookie.Some? && cookie.value in old(tokens) &&
        tokens == RevokeFamily(old(tokens), old(tokens)[cookie.value].family)
      ensures r.Err? && r.error != Reused ==> tokens == old(tokens)
    {
      if cookie.None? {
        return Err(InvalidToken);
      }
      var found := LookUpToken(req, cookie.value, now);
      if found.Err? {
        return Err(found.error);
      }
      r := ClaimToken(req, cookie.value, successor, now);
      assert refreshes == old(refreshes);
    }

    method LogoutRoute(cookie: Option<TokenId>)
      modifies this`tokens
      ensures Snapshot() == if cookie.Some? then Logout(old(Snapshot()), cookie.value) else old(Snapshot())
    {
      if cookie.Some? {
        if cookie.value in tokens {
          tokens := RevokeFamily(tokens, tokens[cookie.value].family);
        }
      }
    }

    method DeleteAccountRoute(user: UserId)
      modifies this`tokens, this`users
      ensures Snapshot() == DeleteAccount(old(Snapshot()), user)
    {
      if user in users && !users[user].deleted {
        users := users[user := users[user].(deleted := true)];
        tokens := RevokeUser(tokens, user);
      }
    }

    method RequestPasswordReset(user: UserId, reset: ResetId, now: Time)
      modifies this`resets
      ensures Snapshot() == RequestReset(old(Snapshot()), user, reset, now)
    {
      if user !in users || users[user].deleted || !users[user].active {
        return;
      }
      resets := resets[reset := ResetToken(user, now + RESET_LIFETIME, None)];
    }

    method RedeemReset(reset: ResetId, password: nat, now: Time) returns (r: Result<(), Failure>)
      modifies this`tokens, this`users, this`resets
      ensures (Snapshot(), r) == ResetPassword(old(Snapshot()), reset, password, now)
    {
      if reset !in resets || resets[reset].usedAt.Some? {
        return Err(InvalidToken);
      }
      if resets[reset].expires < now {
        return Err(InvalidToken);
      }
      var user := resets[reset].user;
      if user !in users || users[user].deleted {
        return Err(InvalidToken);
      }
      users := users[user := users[user].(password := password)];
      resets := resets[reset := resets[reset].(usedAt := Some(now))];
      resets := ConsumeResets(resets, user, now);
      assert resets == ConsumeResets(old(resets), user, now);
      tokens := RevokeUser(tokens, user);
      r := Ok(());
    }
  }

  class ApiClient {
    var cookie: Option<TokenId>
    var flight: Flight
    var calls: map<CallId, Call>
    ghost var arriving: set<TokenId>
    ghost var mine: set<FamilyId>

    ghost function Snapshot(): Client
      reads this
    {
      Client(cookie, flight, calls, arriving, mine)
    }

    constructor ()
      ensures Snapshot() == Client(None, Idle, map[], {}, {})
    {
      cookie, flight, calls := None, Idle, map[];
      arriving, mine := {}, {};
    }

    /** Starts the one shared refresh, or joins the one in flight. */
    method RefreshAccessToken()
      modifies this`flight
      ensures Snapshot() == JoinRefresh(old(Snapshot()))
    {
      if flight.Idle? {
        flight := Requested(cookie);
      }
    }

    method OnUnauthorized(id: CallId)
      requires id in calls
      modifies this`calls, this`flight
      ensures Snapshot() == Unauthorized(old(Snapshot()), id)
    {
      if !calls[id].retried {
        calls := calls[id := calls[id].(retried := true)];
        calls := calls[id := calls[id].(phase := AwaitingToken)];
        RefreshAccessToken();
      } else {
        calls := calls[id := calls[id].(phase := Done)];
      }
    }

    /** The refresh settles: the cookie changes with the response, the promise is dropped, and every
        waiting request is resumed, one after the other. */
    method OnRefreshSettled()
      requires flight.Replied?
      modifies this
      ensures Snapshot() == Deliver(old(Snapshot()))
    {
      var reply := flight.reply;
      if reply.Ok? {
        cookie := Some(reply.value);
      }
      flight := Idle;
      var waiting := calls.Keys;
      while waiting != {}
        invariant waiting <= calls.Keys == old(calls).Keys
        invariant forall id :: id in calls ==>
          calls[id] == if id in waiting then old(calls)[id] else Resume(old(calls), reply.Ok?)[id]
        invariant cookie == Deliver(old(Snapshot())).cookie && flight == Idle
        invariant arriving == old(arriving) && mine == old(mine)
        decreases waiting
      {
        var id :| id in waiting;
        if calls[id].phase == AwaitingToken {
          if reply.Ok? {
            calls := calls[id := calls[id].(sends := calls[id].sends + 1, phase := Sent)];
          } else {
            calls := calls[id := calls[id].(phase := Done)];
          }
        }
        waiting := waiting - {id};
      }
      assert calls == Resume(old(calls), reply.Ok?);
    }
  }
}
