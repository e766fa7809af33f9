/** One browser tab against the session server: the single-flight refresh, the cookie it keeps, and
    the retry of unauthorised requests. Strangers use the same server, but never this tab's tokens. */
module Browser {
  import opened Wrappers
  import opened Sessions
  import opened SessionSafety

  type CallId = nat

  /** `refreshPromise` and how far its request has come; it is null exactly when `Idle`. */
  datatype Flight =
    | Idle
    | Requested(sent: Option<TokenId>)
    | Looked(req: RequestId)
    | Replied(reply: Result<TokenId, Failure>)

  datatype Phase = Sent | AwaitingToken | Done

  /** A request outside the auth entry points, with the interceptor's `_retried` mark. */
  datatype Call = Call(sends: nat, retried: bool, phase: Phase)

  datatype Client = Client(
    cookie: Option<TokenId>,
    flight: Flight,
    calls: map<CallId, Call>,
    arriving: set<TokenId>,
    mine: set<FamilyId>)

  datatype World = World(server: State, client: Client)

  // ---------------------------------------------------------------- the client's own moves

  /** `refreshAccessToken`: starts a refresh unless one is already in flight. */
  function JoinRefresh(c: Client): Client {
    if c.flight == Idle then c.(flight := Requested(c.cookie)) else c
  }

  /** The response interceptor on a 401. */
  function Unauthorized(c: Client, id: CallId): Client
    requires id in c.calls
  {
    var call := c.calls[id];
    if call.retried then c.(calls := c.calls[id := call.(phase := Done)])
    else JoinRefresh(c.(calls := c.calls[id := call.(retried := true, phase := AwaitingToken)]))
  }

  /** Every request waiting for the shared refresh is sent again with the new token, or given up. */
  function Resume(calls: map<CallId, Call>, ok: bool): map<CallId, Call> {
    map id | id in calls ::
      if calls[id].phase != AwaitingToken then calls[id]
      else if ok then calls[id].(sends := calls[id].sends + 1, phase := Sent)
      else calls[id].(phase := Done)
  }

  /** The refresh response arrives: a new cookie, or the same. The error response of a detected reuse does
      not carry the cleared cookie, which is set on a response that the error replaces. */
  function Deliver(c: Client): Client
    requires c.flight.Replied?
  {
    var cookie := match c.flight.reply
      case Ok(token) => Some(token)
      case Err(_) => c.cookie;
    c.(cookie := cookie, flight := Idle, calls := Resume(c.calls, c.flight.reply.Ok?))
  }

  // ---------------------------------------------------------------- the composed steps

  datatype Move =
    | OwnLogin(req: RequestId, token: TokenId, family: FamilyId, now: Time)
    | LoginArrives(token: TokenId)
    | StartRefresh
    | ServerLooks(req: RequestId, now: Time)
    | ServerClaims(successor: TokenId, now: Time)
    | ReplyArrives
    | SendCall(id: CallId)
    | CallUnauthorized(id: CallId)
    | CallAnswered(id: CallId)
    | Stranger(event: Event)

  ghost predicate Mine(w: World, t: TokenId) {
    t in w.server.tokens && w.server.tokens[t].family in w.client.mine
  }

  /** A stranger neither presents nor revokes this tab's tokens. */
  ghost predicate Strange(w: World, e: Event) {
    match e
    case LookedUp(_, token, _) => !Mine(w, token)
    case ClaimTried(req, _, _) => w.client.flight != Looked(req)
    case LoggedOut(token) => !Mine(w, token)
    case AccountDeleted(user) => forall t :: Mine(w, t) ==> w.server.tokens[t].user != user
    case PasswordReset(reset, _, _) => forall t :: Mine(w, t) && reset in w.server.resets ==>
      w.server.tokens[t].user != w.server.resets[reset].user
    case _ => true
  }

  ghost predicate CanMove(w: World, m: Move) {
    var c := w.client;
    match m
    case OwnLogin(req, token, family, now) => Enabled(w.server, LoginIssued(req, token, family, now))
    case LoginArrives(token) => token in c.arriving
    case StartRefresh => c.flight == Idle
    case ServerLooks(req, now) => c.flight.Requested? && req !in w.server.refreshes
    case ServerClaims(successor, now) => c.flight.Looked? && Enabled(w.server, ClaimTried(c.flight.req, successor, now))
    case ReplyArrives => c.flight.Replied?
    case SendCall(id) => id !in c.calls
    case CallUnauthorized(id) => id in c.calls && c.calls[id].phase == Sent
    case CallAnswered(id) => id in c.calls && c.calls[id].phase == Sent
    case Stranger(e) => Enabled(w.server, e) && Strange(w, e)
  }

  ghost function Step(w: World, m: Move): World
    requires CanMove(w, m)
  {
    var c := w.client;
    match m
    case OwnLogin(req, token, family, now) =>
      World(IssueLogin(w.server, req, token, family, now),
            c.(arriving := c.arriving + {token}, mine := c.mine + {family}))
    case LoginArrives(token) => w.(client := c.(cookie := Some(token), arriving := c.arriving - {token}))
    case StartRefresh => w.(client := JoinRefresh(c))
    case ServerLooks(req, now) =>
      (match c.flight.sent
       case None => w.(client := c.(flight := Replied(Err(InvalidToken))))
       case Some(token) =>
         var (s, r) := LookUp(w.server, req, token, now);
         World(s, c.(flight := if r.Ok? then Looked(req) else Replied(Err(r.error)))))
    case ServerClaims(successor, now) =>
      var (s, r) := Claim(w.server, c.flight.req, successor, now);
      World(s, c.(flight := Replied(r)))
    case ReplyArrives => w.(client := Deliver(c))
    case SendCall(id) => w.(client := c.(calls := c.calls[id := Call(1, false, Sent)]))
    case CallUnauthorized(id) => w.(client := Unauthorized(c, id))
    case CallAnswered(id) => w.(client := c.(calls := c.calls[id := c.calls[id].(phase := Done)]))
    case Stranger(e) => w.(server := Next(w.server, e))
  }

  /** A fresh tab on a server that may already serve others. */
  ghost predicate Opened(w: World) {
    Safe(w.server) && w.client == Client(None, Idle, map[], {}, {})
  }

  ghost function Played(w: World, ms: seq<Move>): Option<World> {
    if ms == [] then Some(w)
    else
      var n := |ms| - 1;
      var v := Played(w, ms[..n]);
      if v.None? || !CanMove(v.value, ms[n]) then None else Some(Step(v.value, ms[n]))
  }

  // ---------------------------------------------------------------- the invariant

  ghost predicate Held(w: World, t: TokenId) {
    Live(w.server, t) && w.server.tokens[t].family in w.client.mine && t !in w.client.arriving
  }

  /** The token the tab relies on, wherever it is on its way. */
  ghost predicate Cookies(w: World) {
    var c := w.client;
    (c.cookie.Some? && !(c.flight.Replied? && c.flight.reply.Ok?) ==> Held(w, c.cookie.value)) &&
    match c.flight
    case Idle => true
    case Requested(sent) => sent.Some? ==> Held(w, sent.value)
    case Looked(req) => req in w.server.refreshes && Held(w, w.server.refreshes[req])
    case Replied(reply) => (reply.Ok? ==> Held(w, reply.value)) && reply != Err(Reused)
  }

  ghost predicate Arriving(w: World) {
    forall t :: t in w.client.arriving ==> Live(w.server, t) && w.server.tokens[t].family in w.client.mine
  }

  /** No other refresh on the server presents a token of this tab. */
  ghost predicate Alone(w: World) {
    forall r :: r in w.server.refreshes && w.client.flight != Looked(r) ==> !Mine(w, w.server.refreshes[r])
  }

  ghost predicate Retries(c: Client) {
    forall id :: id in c.calls ==>
      1 <= c.calls[id].sends <= (if c.calls[id].retried then 2 else 1) &&
      (c.calls[id].phase == AwaitingToken ==> c.calls[id].sends == 1 && c.calls[id].retried && c.flight != Idle)
  }

  ghost predicate Secure(w: World) {
    Requests(w.server) && Cookies(w) && Arriving(w) && Alone(w)
  }

  ghost predicate Sound(w: World) {
    Safe(w.server) && Secure(w) && Retries(w.client)
  }

  /** What a stranger's step leaves as it was: this tab's tokens, and the refresh it has looked up. */
  ghost predicate Spares(w: World, s: State) {
    (forall t :: Mine(w, t) ==> t in s.tokens && s.tokens[t] == w.server.tokens[t]) &&
    (w.client.flight.Looked? && w.client.flight.req in w.server.refreshes ==>
      w.client.flight.req in s.refreshes &&
      s.refreshes[w.client.flight.req] == w.server.refreshes[w.client.flight.req]) &&
    (forall r :: r in s.refreshes && r !in w.server.refreshes ==>
      s.refreshes[r] in w.server.tokens && !Mine(w, s.refreshes[r])) &&
    (forall r :: r in s.refreshes && r in w.server.refreshes ==> s.refreshes[r] == w.server.refreshes[r]) &&
    (forall t :: t in w.server.tokens ==> t in s.tokens && s.tokens[t].family == w.server.tokens[t].family)
  }

  /** A claim touches only tokens of the family it presents. */
  lemma ClaimStaysInTheFamily(s: State, e: Event)
    requires e.ClaimTried? && Enabled(s, e)
    ensures var t, f := Next(s, e), s.tokens[s.refreshes[e.req]].family;
      && t.refreshes == s.refreshes - {e.req}
      && forall k :: k in s.tokens ==>
           k in t.tokens && t.tokens[k].family == s.tokens[k].family &&
           (s.tokens[k].family != f ==> t.tokens[k] == s.tokens[k])
  {
  }

  lemma StrangersClaim(w: World, e: Event)
    requires Secure(w) && CanMove(w, Stranger(e)) && e.ClaimTried?
    ensures Spares(w, Next(w.server, e))
  {
    assert !Mine(w, w.server.refreshes[e.req]);
    ClaimStaysInTheFamily(w.server, e);
  }

  lemma StrangersSpare(w: World, e: Event)
    requires Secure(w) && CanMove(w, Stranger(e))
    ensures Spares(w, Next(w.server, e))
  {
    if e.ClaimTried? { StrangersClaim(w, e); }
  }

  lemma SparedIsSecure(w: World, s: State)
    requires Secure(w) && Spares(w, s) && Requests(s)
    ensures Secure(w.(server := s))
  {
    var v := w.(server := s);
    assert forall t :: Held(w, t) ==> Mine(w, t) && Held(v, t);
    assert Arriving(v) by {
      assert forall t :: t in w.client.arriving ==> Mine(w, t);
    }
  }

  lemma LoginIsSecure(w: World, m: Move)
    requires Secure(w) && m.OwnLogin? && CanMove(w, m)
    ensures Secure(Step(w, m))
  {
    var v := Step(w, m);
    assert forall t :: Held(w, t) ==> Held(v, t);
  }

  lemma LookIsSecure(w: World, m: Move)
    requires Secure(w) && m.ServerLooks? && CanMove(w, m)
    ensures Secure(Step(w, m))
  {
    var v := Step(w, m);
    assert forall t :: Held(w, t) <==> Held(v, t);
  }

  lemma ClaimIsSecure(w: World, m: Move)
    requires Secure(w) && m.ServerClaims? && CanMove(w, m)
    ensures Secure(Step(w, m))
  {
    var v := Step(w, m);
    assert v.client.flight.reply.Ok? ==> Held(v, m.successor);
    assert v.client.flight.reply.Err? ==> forall t :: Held(w, t) <==> Held(v, t);
  }

  lemma ClientIsSecure(w: World, m: Move)
    requires Secure(w) && CanMove(w, m)
    requires m.LoginArrives? || m.StartRefresh? || m.ReplyArrives? ||
             m.SendCall? || m.CallUnauthorized? || m.CallAnswered?
    ensures Secure(Step(w, m))
  {
    var v := Step(w, m);
    assert v.server == w.server;
    assert forall t :: Held(w, t) ==> Held(v, t);
    assert m.LoginArrives? ==> Held(v, m.token);
  }

  lemma StepKeepsRetries(w: World, m: Move)
    requires Retries(w.client) && CanMove(w, m)
    ensures Retries(Step(w, m).client)
  {
  }

  lemma StepKeepsServer(w: World, m: Move)
    requires Safe(w.server) && CanMove(w, m)
    ensures Safe(Step(w, m).server)
  {
    match m
    case OwnLogin(req, token, family, now) => NextIsSafe(w.server, LoginIssued(req, token, family, now));
    case ServerLooks(req, now) =>
      if w.client.flight.sent.Some? { NextIsSafe(w.server, LookedUp(req, w.client.flight.sent.value, now)); }
    case ServerClaims(successor, now) => NextIsSafe(w.server, ClaimTried(w.client.flight.req, successor, now));
    case Stranger(e) => NextIsSafe(w.server, e);
    case _ =>
  }

  lemma StepIsSound(w: World, m: Move)
    requires Sound(w) && CanMove(w, m)
    ensures Sound(Step(w, m))
  {
    StepKeepsServer(w, m);
    StepKeepsRetries(w, m);
    match m
    case OwnLogin(_, _, _, _) => LoginIsSecure(w, m);
    case ServerLooks(_, _) => LookIsSecure(w, m);
    case ServerClaims(_, _) => ClaimIsSecure(w, m);
    case Stranger(e) =>
      StrangersSpare(w, e);
      SparedIsSecure(w, Next(w.server, e));
    case _ => ClientIsSecure(w, m);
  }

  lemma {:induction false} PlayedIsSound(w: World, ms: seq<Move>)
    requires Opened(w) && Played(w, ms).Some?
    ensures Sound(Played(w, ms).value)
  {
    if ms != [] {
      var n := |ms| - 1;
      PlayedIsSound(w, ms[..n]);
      StepIsSound(Played(w, ms[..n]).value, ms[n]);
    }
  }

  // ---------------------------------------------------------------- the theorems

  /** Whenever no refresh is in flight, the cookie is the one unused token of its family, unrevoked. */
  lemma CookieIsTheUnusedToken(w: World, ms: seq<Move>)
    requires Opened(w) && Played(w, ms).Some?
    requires var c := Played(w, ms).value.client; c.flight == Idle && c.cookie.Some?
    ensures var v := Played(w, ms).value; var t := v.client.cookie.value;
      && Live(v.server, t)
      && forall k :: Unused(v.server, k) && v.server.tokens[k].family == v.server.tokens[t].family ==> k == t
  {
    PlayedIsSound(w, ms);
  }

  /** The server never takes the reuse branch for this tab, so it never revokes the tab's family. */
  lemma NeverReused(w: World, ms: seq<Move>, successor: TokenId, now: Time)
    requires Opened(w) && Played(w, ms).Some? && CanMove(Played(w, ms).value, ServerClaims(successor, now))
    ensures var v := Played(w, ms).value; var (s, r) := Claim(v.server, v.client.flight.req, successor, now);
      r != Err(Reused) && forall t :: Mine(v, t) ==> s.tokens[t].revoked == v.server.tokens[t].revoked
  {
    PlayedIsSound(w, ms);
  }

  /** No request is ever sent more than twice, and none is left waiting without a refresh in flight. */
  lemma SentAtMostTwice(w: World, ms: seq<Move>, id: CallId)
    requires Opened(w) && Played(w, ms).Some? && id in Played(w, ms).value.client.calls
    ensures var c := Played(w, ms).value.client;
      c.calls[id].sends <= 2 && (c.flight == Idle ==> c.calls[id].phase != AwaitingToken)
  {
    PlayedIsSound(w, ms);
  }

  // ---------------------------------------------------------------- what the client does with each answer

  /** A first 401 makes the request wait, once, for a refresh that is then in flight: the one already there, or
      a new one with the cookie of now. A second 401 gives the request up. Nothing else changes. */
  lemma UnauthorizedWaitsOnce(c: Client, id: CallId)
    requires id in c.calls
    ensures var d := Unauthorized(c, id); var call := c.calls[id];
      && d == c.(calls := d.calls, flight := d.flight) && id in d.calls && d.calls - {id} == c.calls - {id}
      && (call.retried ==> d.calls[id] == call.(phase := Done) && d.flight == c.flight)
      && (!call.retried ==> d.calls[id] == Call(call.sends, true, AwaitingToken))
      && (!call.retried ==> d.flight == if c.flight == Idle then Requested(c.cookie) else c.flight)
  {
    assert Unauthorized(c, id).calls - {id} == c.calls - {id};
  }

  /** When the shared refresh settles, no request is left waiting: each one that did is sent once more after a
      success and given up after a failure, the others stay, and the cookie is the new token or the old one. */
  lemma SettlingAnswersEveryWaiter(c: Client)
    requires c.flight.Replied?
    ensures var d := Deliver(c); var reply := c.flight.reply;
      && d == c.(cookie := d.cookie, flight := Idle, calls := d.calls) && d.calls.Keys == c.calls.Keys
      && d.cookie == (if reply.Ok? then Some(reply.value) else c.cookie)
      && forall id :: id in c.calls ==>
           d.calls[id] ==
             if c.calls[id].phase != AwaitingToken then c.calls[id]
             else if reply.Ok? then Call(c.calls[id].sends + 1, c.calls[id].retried, Sent)
             else Call(c.calls[id].sends, c.calls[id].retried, Done)
  {
  }

  /** How often a request was resumed by a successful refresh. */
  ghost function Resumed(w: World, ms: seq<Move>, id: CallId): nat
    requires Played(w, ms).Some?
  {
    if ms == [] then 0
    else
      var n := |ms| - 1;
      var c := Played(w, ms[..n]).value.client;
      Resumed(w, ms[..n], id) +
      if ms[n].ReplyArrives? && c.flight.reply.Ok? && id in c.calls && c.calls[id].phase == AwaitingToken then 1 else 0
  }

  /** In every run a request has been sent once, and once more for each successful refresh it waited for. */
  lemma {:induction false} SentOncePerRefresh(w: World, ms: seq<Move>, id: CallId)
    requires Opened(w) && Played(w, ms).Some?
    ensures var c := Played(w, ms).value.client;
      if id in c.calls then c.calls[id].sends == 1 + Resumed(w, ms, id) else Resumed(w, ms, id) == 0
  {
    if ms != [] {
      var n := |ms| - 1;
      var v := Played(w, ms[..n]).value;
      SentOncePerRefresh(w, ms[..n], id);
      ClientKeepsSends(v, ms[n], id);
    }
  }

  lemma ClientKeepsSends(w: World, m: Move, id: CallId)
    requires CanMove(w, m)
    ensures var c, d := w.client, Step(w, m).client;
      && (id in c.calls ==> id in d.calls)
      && (id in d.calls && id !in c.calls ==> d.calls[id].sends == 1)
      && (id in c.calls ==>
            d.calls[id].sends == c.calls[id].sends +
              if m.ReplyArrives? && c.flight.reply.Ok? && c.calls[id].phase == AwaitingToken then 1 else 0)
  {
  }

  /** How often a request was answered with a 401. */
  function Refusals(ms: seq<Move>, id: CallId): nat {
    if ms == [] then 0
    else Refusals(ms[..|ms| - 1], id) + if ms[|ms| - 1] == CallUnauthorized(id) then 1 else 0
  }

  /** In every run exactly the requests that met a 401 are marked as retried, and none meets a third one. */
  lemma {:induction false} RetriedIffRefused(w: World, ms: seq<Move>, id: CallId)
    requires Opened(w) && Played(w, ms).Some?
    ensures var c := Played(w, ms).value.client;
      && (id !in c.calls ==> Refusals(ms, id) == 0)
      && (id in c.calls ==> (c.calls[id].retried <==> Refusals(ms, id) > 0) && Refusals(ms, id) <= 2)
      && (id in c.calls && c.calls[id].phase != Done ==> Refusals(ms, id) <= 1)
      && (id in c.calls && Refusals(ms, id) == 0 ==> c.calls[id].sends == 1)
  {
    if ms != [] {
      var n := |ms| - 1;
      RetriedIffRefused(w, ms[..n], id);
      PlayedIsSound(w, ms[..n]);
      RefusalCounts(Played(w, ms[..n]).value, ms[n], id, Refusals(ms[..n], id));
    }
  }

  lemma RefusalCounts(w: World, m: Move, id: CallId, k: nat)
    requires Retries(w.client) && CanMove(w, m)
    requires var c := w.client;
      && (id !in c.calls ==> k == 0)
      && (id in c.calls ==> (c.calls[id].retried <==> k > 0) && k <= 2)
      && (id in c.calls && c.calls[id].phase != Done ==> k <= 1)
      && (id in c.calls && k == 0 ==> c.calls[id].sends == 1)
    ensures var c := Step(w, m).client; var l := k + if m == CallUnauthorized(id) then 1 else 0;
      && (id !in c.calls ==> l == 0)
      && (id in c.calls ==> (c.calls[id].retried <==> l > 0) && l <= 2)
      && (id in c.calls && c.calls[id].phase != Done ==> l <= 1)
      && (id in c.calls && l == 0 ==> c.calls[id].sends == 1)
  {
  }

  /** The token of the last login or successful refresh that arrived. */
  ghost function LastArrived(w: World, ms: seq<Move>): Option<TokenId>
    requires Played(w, ms).Some?
  {
    if ms == [] then None
    else
      var n := |ms| - 1;
      var c := Played(w, ms[..n]).value.client;
      match ms[n]
      case LoginArrives(token) => Some(token)
      case ReplyArrives => if c.flight.reply.Ok? then Some(c.flight.reply.value) else LastArrived(w, ms[..n])
      case _ => LastArrived(w, ms[..n])
  }

  /** In every run the cookie is that token. */
  lemma {:induction false} CookieIsTheLastArrived(w: World, ms: seq<Move>)
    requires Opened(w) && Played(w, ms).Some?
    ensures Played(w, ms).value.client.cookie == LastArrived(w, ms)
  {
    if ms != [] {
      var n := |ms| - 1;
      CookieIsTheLastArrived(w, ms[..n]);
      CookieMoves(Played(w, ms[..n]).value, ms[n]);
    }
  }

  lemma CookieMoves(w: World, m: Move)
    requires CanMove(w, m)
    ensures Step(w, m).client.cookie ==
      match m
      case LoginArrives(token) => Some(token)
      case ReplyArrives => if w.client.flight.reply.Ok? then Some(w.client.flight.reply.value) else w.client.cookie
      case _ => w.client.cookie
  {
  }
}
