/**
 Refresh-token rotation as a protocol between the browser's API client and the auth service.

 Tokens are fresh numbers.  The client's code is cut at its awaits, the server's at the await between
 the check of the stored hash and its replacement, and replies travel on the wire in between.
 */
module Sessions {
  import opened Options
  import S = Text

  type Token = nat
  type CallId = nat
  type RequestId = nat

  // ---------- The API client ----------

  datatype RequestPhase =
    | Fetching                 // first attempt on its way
    | Awaiting(call: CallId)   // got 401, awaits the shared refresh
    | Refetching               // second attempt on its way
    | Returned(status: int)

  /** How often it was sent, and with which access token last. */
  datatype Request = Request(phase: RequestPhase, sent: nat, bearer: Option<Token>)

  /** `calls` counts the refresh round-trips ever started; `expirations` the auth-expired events. */
  datatype Client = Client(
    access: Option<Token>,
    refresh: Option<Token>,
    refreshInFlight: Option<CallId>,
    calls: nat,
    requests: seq<Request>,
    expirations: nat)

  datatype Reply = Session(access: Token, refresh: Token) | Status(code: int) | NetworkError

  predicate RefreshFailureIsTerminal(status: int) { status == 401 || status == 403 }

  ghost predicate CanAnswer(c: Client, r: RequestId) {
    r < |c.requests| && (c.requests[r].phase.Fetching? || c.requests[r].phase.Refetching?)
  }

  function WithPhase(requests: seq<Request>, r: RequestId, phase: RequestPhase): seq<Request>
    requires r < |requests|
  {
    requests[r := requests[r].(phase := phase)]
  }

  /** The first answer of authFetch's request, up to its await; true when it starts a refresh. */
  function Answered(c: Client, r: RequestId, status: int): (result: (Client, bool))
    requires r < |c.requests|
  {
    if c.requests[r].phase.Refetching? || status != 401 || c.refresh.None? then
      (c.(requests := WithPhase(c.requests, r, Returned(status))), false)
    else
      match c.refreshInFlight
      case Some(call) => (c.(requests := WithPhase(c.requests, r, Awaiting(call))), false)
      case None =>
        (c.(refreshInFlight := Some(c.calls), calls := c.calls + 1,
            requests := WithPhase(c.requests, r, Awaiting(c.calls))), true)
  }

  /** refreshTokens once its fetch has resolved or failed; the result is what it returns. */
  function Replied(c: Client, reply: Reply): (Client, bool) {
    match reply
    case Session(access, refresh) => (c.(access := Some(access), refresh := Some(refresh)), true)
    case Status(code) =>
      (if RefreshFailureIsTerminal(code) then c.(access := None, refresh := None) else c, false)
    case NetworkError => (c, false)
  }

  /** authFetch once the refresh it awaits has settled. */
  function Resumed(c: Client, r: RequestId, ok: bool): Client
    requires r < |c.requests|
  {
    if ok then c.(requests := c.requests[r := Request(Refetching, c.requests[r].sent + 1, c.access)])
    else c.(requests := WithPhase(c.requests, r, Returned(401)),
            expirations := c.expirations + if c.refresh.None? then 1 else 0)
  }

  class ApiClient {
    var access: Option<Token>
    var refresh: Option<Token>
    var refreshInFlight: Option<CallId>
    var calls: nat
    var requests: seq<Request>
    var expirations: nat

    ghost function Abs(): Client
      reads this
    {
      Client(access, refresh, refreshInFlight, calls, requests, expirations)
    }

    method Fetch() returns (r: RequestId)
      modifies this
      ensures r == |old(requests)|
      ensures Abs() == old(Abs()).(requests := old(requests) + [Request(Fetching, 1, access)])
    {
      r := |requests|;
      requests := requests + [Request(Fetching, 1, access)];
    }

    method OnAnswer(r: RequestId, status: int) returns (startsRefresh: bool)
      requires CanAnswer(Abs(), r)
      modifies this
      ensures (Abs(), startsRefresh) == Answered(old(Abs()), r, status)
    {
      startsRefresh := false;
      if requests[r].phase.Refetching? || status != 401 || refresh.None? {
        requests := WithPhase(requests, r, Returned(status));
        return;
      }
      if refreshInFlight.None? {
        refreshInFlight, calls, startsRefresh := Some(calls), calls + 1, true;
      }
      requests := WithPhase(requests, r, Awaiting(refreshInFlight.value));
    }

    method OnRefreshReply(reply: Reply) returns (ok: bool)
      modifies this
      ensures (Abs(), ok) == Replied(old(Abs()), reply)
    {
      ok := reply.Session?;
      match reply {
        case Session(newAccess, newRefresh) => access, refresh := Some(newAccess), Some(newRefresh);
        case Status(code) => if RefreshFailureIsTerminal(code) { access, refresh := None, None; }
        case NetworkError =>
      }
    }

    /** The finally callback of the refresh. */
    method OnRefreshSettled()
      modifies this`refreshInFlight
      ensures refreshInFlight == None
    {
      refreshInFlight := None;
    }

    method OnResume(r: RequestId, ok: bool)
      requires r < |requests|
      modifies this
      ensures Abs() == Resumed(old(Abs()), r, ok)
    {
      if ok {
        requests := requests[r := Request(Refetching, requests[r].sent + 1, access)];
      } else {
        if refresh.None? { expirations := expirations + 1; }
        requests := WithPhase(requests, r, Returned(401));
      }
    }
  }

  // ---------- The auth service ----------

  /** One user: whether the row is there and enabled, the stored hash by the token it accepts, the tokens that have
      expired, and the next unused token. */
  datatype Server = Server(
    found: bool, disabled: bool, hash: Option<Token>, expired: set<Token>, nextToken: Token)

  /** The one refresh token that gets through: the guard rejects expired ones, and `refresh` all but the stored one of
      an enabled user. */
  function Accepted(s: Server): Option<Token> {
    if s.found && !s.disabled && s.hash.Some? && s.hash.value !in s.expired then s.hash else None
  }

  class AuthService {
    var found: bool
    var disabled: bool
    var hash: Option<Token>
    var expired: set<Token>
    var nextToken: Token

    ghost function Abs(): Server
      reads this
    {
      Server(found, disabled, hash, expired, nextToken)
    }

    /** The guard of the refresh route, and the check of `refresh` before it issues a session. */
    method Verify(presented: Token) returns (ok: bool)
      ensures ok <==> Accepted(Abs()) == Some(presented)
    {
      if presented in expired {
        return false;
      }
      if !found || disabled || hash.None? || hash.value != presented {
        return false;
      }
      ok := true;
    }

    method IssueSession() returns (access: Token, refreshToken: Token)
      modifies this`hash, this`nextToken
      ensures access == old(nextToken) && refreshToken == old(nextToken) + 1
      ensures Abs() == Issued(old(Abs())) && hash == Some(refreshToken)
    {
      access, refreshToken := nextToken, nextToken + 1;
      nextToken := nextToken + 2;
      hash := Some(refreshToken);
    }

    method Logout()
      modifies this`hash
      ensures Abs() == old(Abs()).(hash := None) && Accepted(Abs()) == None
    {
      hash := None;
    }
  }

  function Issued(s: Server): Server {
    s.(hash := Some(s.nextToken + 1), nextToken := s.nextToken + 2)
  }

  // ---------- The protocol ----------

  datatype CallPhase =
    | Requested
    | Verified         // the server has checked the token and is about to rotate it
    | Replying(reply: Reply)
    | Applied(ok: bool) // the client has stored or dropped its tokens
    | Settled(ok: bool)

  datatype Call = Call(token: Token, phase: CallPhase)

  datatype State = State(client: Client, server: Server, calls: seq<Call>)

  datatype Event =
    | NewRequest
    | Answer(request: RequestId, status: int)
    | Resume(request: RequestId)
    | Verify(call: CallId)
    | Rotate(call: CallId)
    | FailBeforeRotation(call: CallId, reply: Reply)
    | Deliver(call: CallId)
    | Settle(call: CallId)
    // outside the protocol's promise:
    | LoseReply(call: CallId)
    | Revoke
    | OtherLogin
    | Expire(token: Token)
    | Disable
    | DeleteUser

  predicate Benign(e: Event) {
    !e.LoseReply? && !e.Revoke? && !e.OtherLogin? && !e.Expire? && !e.Disable? && !e.DeleteUser?
  }

  predicate Transient(reply: Reply) {
    reply.NetworkError? || (reply.Status? && (reply.code == 429 || 500 <= reply.code < 600))
  }

  ghost predicate Enabled(s: State, e: Event) {
    match e
    case NewRequest => true
    case Answer(r, _) => CanAnswer(s.client, r)
    case Resume(r) =>
      && r < |s.client.requests| && s.client.requests[r].phase.Awaiting?
      && s.client.requests[r].phase.call < |s.calls|
      && s.calls[s.client.requests[r].phase.call].phase.Settled?
    case Verify(c) => c < |s.calls| && s.calls[c].phase.Requested?
    case Rotate(c) => c < |s.calls| && s.calls[c].phase.Verified?
    case FailBeforeRotation(c, reply) =>
      c < |s.calls| && (s.calls[c].phase.Requested? || s.calls[c].phase.Verified?) && Transient(reply)
    case Deliver(c) => c < |s.calls| && s.calls[c].phase.Replying?
    case Settle(c) => c < |s.calls| && s.calls[c].phase.Applied?
    case LoseReply(c) => c < |s.calls| && s.calls[c].phase.Replying?
    case Expire(t) => t < s.server.nextToken
    case Revoke | OtherLogin | Disable | DeleteUser => true
  }

  function At(calls: seq<Call>, c: CallId, phase: CallPhase): seq<Call>
    requires c < |calls|
  {
    calls[c := calls[c].(phase := phase)]
  }

  ghost function Next(s: State, e: Event): State
    requires Enabled(s, e)
  {
    match e
    case NewRequest => s.(client := s.client.(requests := s.client.requests + [Request(Fetching, 1, s.client.access)]))
    case Answer(r, status) =>
      var (client, starts) := Answered(s.client, r, status);
      s.(client := client,
         calls := if starts && s.client.refresh.Some? then s.calls + [Call(s.client.refresh.value, Requested)]
                  else s.calls)
    case Resume(r) =>
      s.(client := Resumed(s.client, r, s.calls[s.client.requests[r].phase.call].phase.ok))
    case Verify(c) =>
      s.(calls := At(s.calls, c, if Accepted(s.server) == Some(s.calls[c].token) then Verified
                                 else Replying(Status(401))))
    case Rotate(c) =>
      s.(server := Issued(s.server),
         calls := At(s.calls, c, Replying(Session(s.server.nextToken, s.server.nextToken + 1))))
    case FailBeforeRotation(c, reply) => s.(calls := At(s.calls, c, Replying(reply)))
    case Deliver(c) =>
      var (client, ok) := Replied(s.client, s.calls[c].phase.reply);
      s.(client := client, calls := At(s.calls, c, Applied(ok)))
    case Settle(c) =>
      s.(client := s.client.(refreshInFlight := None), calls := At(s.calls, c, Settled(s.calls[c].phase.ok)))
    case LoseReply(c) => s.(calls := At(s.calls, c, Replying(NetworkError)))
    case Revoke => s.(server := s.server.(hash := None))
    case OtherLogin => s.(server := Issued(s.server))
    case Expire(t) => s.(server := s.server.(expired := s.server.expired + {t}))
    case Disable => s.(server := s.server.(disabled := true))
    case DeleteUser => s.(server := s.server.(found := false))
  }

  /** A client that has just logged in. */
  function Init(): State {
    State(Client(Some(0), Some(1), None, 0, [], 0), Server(true, false, Some(1), {}, 2), [])
  }

  ghost predicate Legal(s: State, run: seq<Event>)
    decreases |run|
  {
    run == [] || (Enabled(s, run[0]) && Legal(Next(s, run[0]), run[1..]))
  }

  ghost function Exec(s: State, run: seq<Event>): State
    requires Legal(s, run)
    decreases |run|
  {
    if run == [] then s else Exec(Next(s, run[0]), run[1..])
  }

  // ---------- What every run keeps, whoever interferes ----------

  /** At most one refresh is anywhere between its start and the finally callback. */
  ghost predicate SingleFlight(s: State) {
    && s.client.calls == |s.calls|
    && (s.client.refreshInFlight.Some? ==>
          s.client.refreshInFlight.value < |s.calls| && !s.calls[s.client.refreshInFlight.value].phase.Settled?)
    && (forall c: CallId :: c < |s.calls| && !s.calls[c].phase.Settled? ==> s.client.refreshInFlight == Some(c))
  }

  ghost predicate SentAtMostTwice(s: State) {
    forall r :: 0 <= r < |s.client.requests| ==>
      match s.client.requests[r].phase
      case Fetching => s.client.requests[r].sent == 1
      case Awaiting(c) => s.client.requests[r].sent == 1 && c < |s.calls|
      case Refetching => s.client.requests[r].sent == 2
      case Returned(_) => 1 <= s.client.requests[r].sent <= 2
  }

  lemma AnyStepKeepsFlight(s: State, e: Event)
    requires Enabled(s, e) && SingleFlight(s)
    ensures SingleFlight(Next(s, e))
  {
  }

  lemma AnyStepKeepsSent(s: State, e: Event)
    requires Enabled(s, e) && SingleFlight(s) && SentAtMostTwice(s)
    ensures SentAtMostTwice(Next(s, e))
  {
  }

  lemma AnyStepKeeps(s: State, e: Event)
    requires Enabled(s, e) && SingleFlight(s) && SentAtMostTwice(s)
    ensures SingleFlight(Next(s, e)) && SentAtMostTwice(Next(s, e))
  {
    AnyStepKeepsFlight(s, e);
    AnyStepKeepsSent(s, e);
  }

  lemma {:induction false} AnyRunKeeps(s: State, run: seq<Event>)
    requires Legal(s, run) && SingleFlight(s) && SentAtMostTwice(s)
    ensures SingleFlight(Exec(s, run)) && SentAtMostTwice(Exec(s, run))
    decreases |run|
  {
    if run != [] {
      AnyStepKeeps(s, run[0]);
      AnyRunKeeps(Next(s, run[0]), run[1..]);
    }
  }

  /** However many requests get a 401, in whatever order anything happens. */
  lemma OneRefreshAtATime(run: seq<Event>, c: CallId, d: CallId, r: RequestId)
    requires Legal(Init(), run)
    ensures var s := Exec(Init(), run);
            && (c < |s.calls| && d < |s.calls| && !s.calls[c].phase.Settled? && !s.calls[d].phase.Settled? ==> c == d)
            && (r < |s.client.requests| ==> s.client.requests[r].sent <= 2)
  {
    AnyRunKeeps(Init(), run);
  }

  /** Nothing but a rejection of the refresh token itself takes the stored tokens away. */
  lemma OnlyRejectionEndsSession(s: State, e: Event)
    requires Enabled(s, e) && s.client.refresh.Some? && Next(s, e).client.refresh.None?
    ensures e.Deliver? && s.calls[e.call].phase.reply.Status?
    ensures RefreshFailureIsTerminal(s.calls[e.call].phase.reply.code)
  {
  }

  // ---------- What becomes of a request ----------

  /** The statuses that came back for a request, in order. */
  function AnswersTo(run: seq<Event>, r: RequestId): seq<int> {
    if run == [] then [] else AnswerIn(run[0], r) + AnswersTo(run[1..], r)
  }

  function AnswerIn(e: Event, r: RequestId): seq<int> {
    if e.Answer? && e.request == r then [e.status] else []
  }

  /** Its answers are those to its sends: one, or a 401 and then the one that counts. */
  predicate TellsAnswers(q: Request, answers: seq<int>) {
    match q.phase
    case Fetching => q.sent == 1 && answers == []
    case Awaiting(_) => q.sent == 1 && answers == [401]
    case Refetching => q.sent == 2 && answers == [401]
    case Returned(status) => (q.sent == 1 && answers == [status]) || (q.sent == 2 && answers == [401, status])
  }

  /** The step by which a request gets its first 401 as its result: there is no refresh token when it comes, or the
      refresh that it waits for has failed. */
  ghost predicate GivesUp(s: State, e: Event, r: RequestId) {
    && r < |s.client.requests|
    && match s.client.requests[r].phase
       case Fetching => e == Answer(r, 401) && s.client.refresh.None?
       case Awaiting(c) => e == Resume(r) && c < |s.calls| && s.calls[c].phase == Settled(false)
       case _ => false
  }

  ghost predicate GaveUp(s: State, run: seq<Event>, r: RequestId)
    requires Legal(s, run)
    decreases |run|
  {
    run != [] && (GivesUp(s, run[0], r) || GaveUp(Next(s, run[0]), run[1..], r))
  }

  predicate Failed(q: Request) { q.phase == Returned(401) && q.sent == 1 }

  /** What one step does to a request, in full: one that waits for a refresh that succeeds is sent once more, with the
      access token then stored. */
  lemma RequestStep(s: State, e: Event, r: RequestId)
    requires Enabled(s, e) && SingleFlight(s) && SentAtMostTwice(s) && r < |s.client.requests|
    ensures r < |Next(s, e).client.requests|
    ensures var was, after, client := s.client.requests[r], Next(s, e).client.requests[r], Next(s, e).client;
            match e
            case Answer(q, status) =>
              if q != r then after == was
              else if was.phase.Fetching? && status == 401 && s.client.refresh.Some? then
                after == was.(phase := after.phase) && after.phase.Awaiting?
                && client.refreshInFlight == Some(after.phase.call)
              else after == was.(phase := Returned(status))
            case Resume(q) =>
              if q != r then after == was
              else if s.calls[was.phase.call].phase.ok then after == Request(Refetching, 2, s.client.access)
              else after == was.(phase := Returned(401))
            case _ => after == was
  {
  }

  lemma NewRequestStep(s: State)
    ensures Next(s, NewRequest).client.requests == s.client.requests + [Request(Fetching, 1, s.client.access)]
  {
  }

  ghost predicate Tells(requests: seq<Request>, r: RequestId, answers: seq<int>) {
    if r < |requests| then TellsAnswers(requests[r], answers) else answers == []
  }

  lemma AnswersStep(s: State, e: Event, r: RequestId, before: seq<int>)
    requires Enabled(s, e) && SingleFlight(s) && SentAtMostTwice(s) && Tells(s.client.requests, r, before)
    ensures Tells(Next(s, e).client.requests, r, before + AnswerIn(e, r))
  {
    assert before + [] == before;
    if r < |s.client.requests| { RequestStep(s, e, r); }
  }

  lemma {:induction false} RunTellsAnswers(s: State, run: seq<Event>, r: RequestId, before: seq<int>)
    requires Legal(s, run) && SingleFlight(s) && SentAtMostTwice(s) && Tells(s.client.requests, r, before)
    ensures Tells(Exec(s, run).client.requests, r, before + AnswersTo(run, r))
    decreases |run|
  {
    if run == [] {
      assert before + [] == before;
    } else {
      AnyStepKeeps(s, run[0]);
      AnswersStep(s, run[0], r, before);
      RunTellsAnswers(Next(s, run[0]), run[1..], r, before + AnswerIn(run[0], r));
      S.Associate(before, AnswerIn(run[0], r), AnswersTo(run[1..], r));
    }
  }

  lemma GivesUpStep(s: State, e: Event, r: RequestId)
    requires Enabled(s, e) && SingleFlight(s) && SentAtMostTwice(s) && r < |s.client.requests|
    ensures Failed(Next(s, e).client.requests[r]) <==>
            Failed(s.client.requests[r]) || GivesUp(s, e, r)
  {
    RequestStep(s, e, r);
  }

  lemma {:induction false} RunGivesUpIff(s: State, run: seq<Event>, r: RequestId)
    requires Legal(s, run) && SingleFlight(s) && SentAtMostTwice(s)
    ensures var after := Exec(s, run).client.requests;
            r < |after| ==>
              (Failed(after[r]) <==> (r < |s.client.requests| && Failed(s.client.requests[r])) || GaveUp(s, run, r))
    decreases |run|
  {
    if run != [] {
      AnyStepKeeps(s, run[0]);
      if r < |s.client.requests| {
        GivesUpStep(s, run[0], r);
      }
      RunGivesUpIff(Next(s, run[0]), run[1..], r);
    }
  }

  /** In every run, a request that is done has the status of its last answer, and was sent a second time after a 401 to
      the first; it has that 401 as its result exactly when there was no refresh token or the refresh failed. */
  lemma RequestsAreRetried(run: seq<Event>, r: RequestId)
    requires Legal(Init(), run) && r < |Exec(Init(), run).client.requests|
    ensures var q := Exec(Init(), run).client.requests[r];
            TellsAnswers(q, AnswersTo(run, r)) && (Failed(q) <==> GaveUp(Init(), run, r))
  {
    RunTellsAnswers(Init(), run, r, []);
    RunGivesUpIff(Init(), run, r);
    assert [] + AnswersTo(run, r) == AnswersTo(run, r);
  }

  // ---------- The stored tokens ----------

  /** The tokens are stored as the reply of a refresh has them, taken away when it is a rejection, and left alone
      otherwise; and expiry is announced exactly when a request then finds no refresh token. */
  lemma TokensStep(s: State, e: Event)
    requires Enabled(s, e)
    ensures var was, after := s.client, Next(s, e).client;
            && (if e.Deliver? && s.calls[e.call].phase.reply.Session? then
                  var reply := s.calls[e.call].phase.reply;
                  after.access == Some(reply.access) && after.refresh == Some(reply.refresh)
                else if e.Deliver? && s.calls[e.call].phase.reply in {Status(401), Status(403)} then
                  after.access == None && after.refresh == None
                else after.access == was.access && after.refresh == was.refresh)
            && after.expirations == was.expirations +
                 if e.Resume? && !s.calls[s.client.requests[e.request].phase.call].phase.ok && was.refresh.None? then 1
                 else 0
  {
  }

  /** What one step does to a refresh, in full: it succeeds exactly when the reply is a session, and settles as it
      went; the server lets it go on exactly when its token is the accepted one. */
  lemma CallStep(s: State, e: Event, c: CallId)
    requires Enabled(s, e) && c < |s.calls|
    ensures c < |Next(s, e).calls| && Next(s, e).calls[c].token == s.calls[c].token
    ensures var was, after := s.calls[c].phase, Next(s, e).calls[c].phase;
            if e == Verify(c) then
              after == if Accepted(s.server) == Some(s.calls[c].token) then Verified else Replying(Status(401))
            else if e == Rotate(c) then
              after.Replying? && after.reply.Session? && Next(s, e).server.hash == Some(after.reply.refresh)
              && after.reply.refresh >= s.server.nextToken
            else if e == Deliver(c) then after == Applied(was.reply.Session?)
            else if e == Settle(c) then after == Settled(was.ok) && Next(s, e).client.refreshInFlight.None?
            else if e == LoseReply(c) then after == Replying(NetworkError)
            else if e.FailBeforeRotation? && e.call == c then after == Replying(e.reply)
            else after == was
  {
  }

  /** Stored tokens, and those of a reply on its way, are those of one session. */
  ghost predicate OneSession(s: State) {
    && (match s.client.refresh
        case None => s.client.access == None
        case Some(t) => t > 0 && s.client.access == Some(t - 1))
    && forall c :: 0 <= c < |s.calls| && s.calls[c].phase.Replying? && s.calls[c].phase.reply.Session? ==>
         s.calls[c].phase.reply.refresh == s.calls[c].phase.reply.access + 1
  }

  lemma {:induction false} RunKeepsOneSession(s: State, run: seq<Event>)
    requires Legal(s, run) && OneSession(s)
    ensures OneSession(Exec(s, run))
    decreases |run|
  {
    if run != [] {
      StepKeepsOneSession(s, run[0]);
      RunKeepsOneSession(Next(s, run[0]), run[1..]);
    }
  }

  lemma StepKeepsOneSession(s: State, e: Event)
    requires Enabled(s, e) && OneSession(s)
    ensures OneSession(Next(s, e))
  {
  }

  /** In every run the client has both tokens of one session, the access token made right before the refresh token, or
      neither. */
  lemma TokensAreOfOneSession(run: seq<Event>)
    requires Legal(Init(), run)
    ensures var client := Exec(Init(), run).client;
            (client.access.Some? <==> client.refresh.Some?)
            && (client.refresh.Some? ==> client.refresh.value == client.access.value + 1)
  {
    RunKeepsOneSession(Init(), run);
  }

  // ---------- What a safe run keeps ----------

  /** Which token the server accepts, by how far the refresh in flight has come. */
  ghost predicate InStep(s: State) {
    && s.client.refresh.Some? && s.client.expirations == 0
    && forall c :: 0 <= c < |s.calls| ==>
         match s.calls[c].phase
         case Requested => s.client.refresh == Some(s.calls[c].token)
         case Verified => s.client.refresh == Some(s.calls[c].token)
         case Replying(reply) => reply.Session? || Transient(reply)
         case Applied(_) => true
         case Settled(_) => true
  }

  ghost function AcceptedByClient(s: State): Option<Token>
    requires SingleFlight(s)
  {
    if s.client.refreshInFlight.Some?
       && s.calls[s.client.refreshInFlight.value].phase.Replying?
       && s.calls[s.client.refreshInFlight.value].phase.reply.Session?
    then Some(s.calls[s.client.refreshInFlight.value].phase.reply.refresh)
    else s.client.refresh
  }

  /** Nothing carries a token that is yet to be made, and a session on the wire is not the stored one. */
  ghost predicate Fresh(s: State) {
    && (s.client.refresh.Some? ==> s.client.refresh.value < s.server.nextToken)
    && (forall t <- s.server.expired :: t < s.server.nextToken)
    && forall c :: 0 <= c < |s.calls| && s.calls[c].phase.Replying? && s.calls[c].phase.reply.Session? ==>
         && s.calls[c].phase.reply.refresh < s.server.nextToken
         && s.client.refresh != Some(s.calls[c].phase.reply.refresh)
  }

  ghost predicate Inv(s: State) {
    && SingleFlight(s)
    && SentAtMostTwice(s)
    && InStep(s)
    && Fresh(s)
    && Accepted(s.server) == AcceptedByClient(s)
  }

  /** A lost reply may only be one that carries no session, and only a token may expire that is not the one the client
      has or is about to get. */
  ghost predicate Safe(s: State, e: Event)
    requires SingleFlight(s) && Enabled(s, e)
  {
    match e
    case LoseReply(c) => !s.calls[c].phase.reply.Session?
    case Expire(t) => AcceptedByClient(s) != Some(t)
    case _ => Benign(e)
  }

  lemma ClientStepKeepsInv(s: State, e: Event)
    requires Inv(s) && Enabled(s, e) && (e.NewRequest? || e.Answer? || e.Resume? || e.Deliver? || e.Settle?)
    ensures Inv(Next(s, e))
  {
    AnyStepKeeps(s, e);
  }

  lemma ServerStepKeepsInv(s: State, e: Event)
    requires Inv(s) && Enabled(s, e) && (e.Verify? || e.Rotate? || e.FailBeforeRotation?)
    ensures Inv(Next(s, e))
  {
    AnyStepKeeps(s, e);
  }

  lemma LostReplyKeepsInvIff(s: State, c: CallId)
    requires Inv(s) && Enabled(s, LoseReply(c))
    ensures Inv(Next(s, LoseReply(c))) <==> Safe(s, LoseReply(c))
  {
    AnyStepKeeps(s, LoseReply(c));
    assert s.client.refreshInFlight == Some(c);
  }

  lemma OutsideStepKeepsInvIff(s: State, e: Event)
    requires Inv(s) && Enabled(s, e) && (e.Revoke? || e.OtherLogin? || e.Expire? || e.Disable? || e.DeleteUser?)
    ensures Inv(Next(s, e)) <==> Safe(s, e)
  {
    AnyStepKeeps(s, e);
    assert AcceptedByClient(Next(s, e)) == AcceptedByClient(s);
    assert AcceptedByClient(s).Some? && AcceptedByClient(s).value < s.server.nextToken;
  }

  /** Client and server stay in step exactly when the step is safe. */
  lemma StepKeepsInvIffSafe(s: State, e: Event)
    requires Inv(s) && Enabled(s, e)
    ensures Inv(Next(s, e)) <==> Safe(s, e)
  {
    if e.LoseReply? {
      LostReplyKeepsInvIff(s, e.call);
    } else if !Benign(e) {
      OutsideStepKeepsInvIff(s, e);
    } else if e.Verify? || e.Rotate? || e.FailBeforeRotation? {
      ServerStepKeepsInv(s, e);
    } else {
      ClientStepKeepsInv(s, e);
    }
  }

  lemma Prepend(s: State, e: Event, run: seq<Event>)
    requires Enabled(s, e) && Legal(Next(s, e), run)
    ensures Legal(s, [e] + run) && Exec(s, [e] + run) == Exec(Next(s, e), run)
  {
    assert ([e] + run)[1..] == run;
  }

  ghost predicate AllSafe(s: State, run: seq<Event>)
    requires SingleFlight(s) && SentAtMostTwice(s) && Legal(s, run)
    decreases |run|
  {
    run == [] || (Safe(s, run[0]) && (AnyStepKeeps(s, run[0]); AllSafe(Next(s, run[0]), run[1..])))
  }

  ghost predicate InvThroughout(s: State, run: seq<Event>)
    requires Legal(s, run)
    decreases |run|
  {
    Inv(s) && (run == [] || InvThroughout(Next(s, run[0]), run[1..]))
  }

  /** They stay in step throughout a run exactly when each of its steps is safe. */
  lemma {:induction false} RunKeepsInvIffSafe(s: State, run: seq<Event>)
    requires Legal(s, run) && Inv(s)
    ensures InvThroughout(s, run) <==> AllSafe(s, run)
    ensures AllSafe(s, run) ==> Inv(Exec(s, run))
    decreases |run|
  {
    if run != [] {
      AnyStepKeeps(s, run[0]);
      StepKeepsInvIffSafe(s, run[0]);
      if Safe(s, run[0]) {
        RunKeepsInvIffSafe(Next(s, run[0]), run[1..]);
      }
    }
  }

  /** Whenever no refresh is in flight the stored refresh token is the accepted one, no refresh is being rejected, and
      the session has not ended. */
  ghost predicate Promised(s: State) {
    && s.client.refresh.Some? && s.client.expirations == 0
    && (s.client.refreshInFlight.None? ==> Accepted(s.server) == s.client.refresh)
    && (forall c :: 0 <= c < |s.calls| && s.calls[c].phase.Replying? && s.calls[c].phase.reply.Status? ==>
          !RefreshFailureIsTerminal(s.calls[c].phase.reply.code))
  }

  /** So it is after any run of safe steps. */
  lemma SessionNeverEnds(run: seq<Event>)
    requires Legal(Init(), run) && AllSafe(Init(), run)
    ensures Promised(Exec(Init(), run))
  {
    RunKeepsInvIffSafe(Init(), run);
  }

  /** In particular with no lost reply, revocation, other login, expiry, and the user there and enabled. */
  lemma {:induction false} BenignIsSafe(s: State, run: seq<Event>)
    requires SingleFlight(s) && SentAtMostTwice(s) && Legal(s, run) && AllBenign(run)
    ensures AllSafe(s, run)
    decreases |run|
  {
    if run != [] {
      AnyStepKeeps(s, run[0]);
      BenignIsSafe(Next(s, run[0]), run[1..]);
    }
  }

  // ---------- What any other step leads to ----------

  /** The client keeps the token that it has, or is about to get. */
  ghost predicate KeepsToken(s: State) {
    && SingleFlight(s) && s.client.refresh.Some?
    && forall c :: 0 <= c < |s.calls| && s.calls[c].phase.Replying? ==>
         s.calls[c].phase.reply.Session? || Transient(s.calls[c].phase.reply)
  }

  predicate AllBenign(run: seq<Event>) {
    forall i :: 0 <= i < |run| ==> Benign(run[i])
  }

  /** The steps of the call in flight, when its request fails before the rotation. */
  function NextOfFlight(s: State, c: CallId): Event
    requires c < |s.calls| && !s.calls[c].phase.Settled?
  {
    match s.calls[c].phase
    case Requested => FailBeforeRotation(c, NetworkError)
    case Verified => FailBeforeRotation(c, NetworkError)
    case Replying(_) => Deliver(c)
    case _ => Settle(c)
  }

  function StepsLeft(phase: CallPhase): nat {
    match phase
    case Requested => 3
    case Verified => 3
    case Replying(_) => 2
    case Applied(_) => 1
    case Settled(_) => 0
  }

  lemma FlightAdvances(s: State, c: CallId)
    requires KeepsToken(s) && s.client.refreshInFlight == Some(c)
    ensures var e := NextOfFlight(s, c);
            && Enabled(s, e) && Benign(e)
            && var t := Next(s, e);
               && KeepsToken(t) && AcceptedByClient(t) == AcceptedByClient(s) && t.server == s.server
               && c < |t.calls| && StepsLeft(t.calls[c].phase) < StepsLeft(s.calls[c].phase)
               && (t.client.refreshInFlight == Some(c) || t.client.refreshInFlight.None?)
  {
  }

  lemma {:induction false} FlightEnds(s: State) returns (run: seq<Event>)
    requires KeepsToken(s)
    ensures AllBenign(run) && Legal(s, run)
    ensures var t := Exec(s, run);
            && SingleFlight(t) && t.client.refreshInFlight.None?
            && t.client.refresh.Some? && t.client.refresh == AcceptedByClient(s) && t.server == s.server
    decreases if s.client.refreshInFlight.Some? then StepsLeft(s.calls[s.client.refreshInFlight.value].phase) else 0
  {
    if s.client.refreshInFlight.None? {
      run := [];
    } else {
      var c := s.client.refreshInFlight.value;
      FlightAdvances(s, c);
      var e := NextOfFlight(s, c);
      var rest := FlightEnds(Next(s, e));
      Prepend(s, e, rest);
      run := [e] + rest;
    }
  }

  lemma UnsafeStepSeparates(s: State, e: Event)
    requires Inv(s) && Enabled(s, e) && !Safe(s, e)
    ensures KeepsToken(Next(s, e)) && Accepted(Next(s, e).server) != AcceptedByClient(Next(s, e))
  {
    if e.LoseReply? {
      assert s.client.refreshInFlight == Some(e.call);
    } else {
      assert AcceptedByClient(Next(s, e)) == AcceptedByClient(s);
      assert AcceptedByClient(s).Some? && AcceptedByClient(s).value < s.server.nextToken;
    }
  }

  /** After a step that is not safe, transient failures are enough to leave the client with a token that is not
      accepted. */
  lemma UnsafeStepBreaks(s: State, e: Event) returns (run: seq<Event>)
    requires Inv(s) && Enabled(s, e) && !Safe(s, e)
    ensures AllBenign(run) && Legal(Next(s, e), run)
    ensures var t := Exec(Next(s, e), run);
            && SingleFlight(t) && t.client.refreshInFlight.None?
            && t.client.refresh.Some? && Accepted(t.server) != t.client.refresh
  {
    UnsafeStepSeparates(s, e);
    run := FlightEnds(Next(s, e));
  }

  /** From any state of a safe run: the promise outlives a step, whatever requests, refreshes and transient failures
      then come, exactly when the step is safe. */
  lemma PromisedIffSafe(s: State, e: Event)
    requires Inv(s) && Enabled(s, e)
    ensures (forall run :: Legal(Next(s, e), run) && AllBenign(run) ==> Promised(Exec(Next(s, e), run))) <==> Safe(s, e)
  {
    if Safe(s, e) {
      StepKeepsInvIffSafe(s, e);
      forall run | Legal(Next(s, e), run) && AllBenign(run) ensures Promised(Exec(Next(s, e), run)) {
        BenignIsSafe(Next(s, e), run);
        RunKeepsInvIffSafe(Next(s, e), run);
      }
    } else {
      var run := UnsafeStepBreaks(s, e);
    }
  }

  /** A refresh with a token that is not accepted is rejected, and the tokens are gone. */
  lemma RejectionEnds(s: State, c: CallId)
    requires c < |s.calls| && s.calls[c].phase.Requested? && Accepted(s.server) != Some(s.calls[c].token)
    ensures Legal(s, [Verify(c), Deliver(c)]) && Exec(s, [Verify(c), Deliver(c)]).client.refresh == None
  {
    var s1 := Next(s, Verify(c));
    Prepend(s1, Deliver(c), []);
    Prepend(s, Verify(c), [Deliver(c)] + []);
    assert [Verify(c), Deliver(c)] == [Verify(c)] + ([Deliver(c)] + []);
  }

  /** From a state whose stored token is not accepted, the next 401 ends the session. */
  lemma OutOfStepEnds(s: State) returns (run: seq<Event>)
    requires SingleFlight(s) && s.client.refreshInFlight.None?
    requires s.client.refresh.Some? && Accepted(s.server) != s.client.refresh
    ensures Legal(s, run) && AllBenign(run)
    ensures Exec(s, run).client.refresh == None
  {
    var r, c := |s.client.requests|, |s.calls|;
    var s1 := Next(s, NewRequest);
    RejectionEnds(Next(s1, Answer(r, 401)), c);
    Prepend(s1, Answer(r, 401), [Verify(c), Deliver(c)]);
    Prepend(s, NewRequest, [Answer(r, 401)] + [Verify(c), Deliver(c)]);
    run := [NewRequest] + ([Answer(r, 401)] + [Verify(c), Deliver(c)]);
  }

  /** Each of the assumptions is needed: one revocation, other login, disabled or deleted user, one expiry of the
      stored token, or one reply lost after the rotation, and the stored token is no longer the accepted one with no
      refresh in flight. */
  lemma EachAssumptionIsNeeded(e: Event) returns (run: seq<Event>)
    requires e.Revoke? || e.OtherLogin? || e.Disable? || e.DeleteUser? || e == Expire(1) || e == LoseReply(0)
    ensures e in run && forall x <- run :: Benign(x) || x == e
    ensures Legal(Init(), run)
    ensures var s := Exec(Init(), run);
            SingleFlight(s) && s.client.refreshInFlight.None?
            && s.client.refresh.Some? && Accepted(s.server) != s.client.refresh
  {
    if e.LoseReply? {
      run := LostReplyRun();
    } else {
      Prepend(Init(), e, []);
      run := [e] + [];
    }
  }

  /** The second half of the run below. */
  lemma AfterRotation(s: State)
    requires s == Next(Next(Next(Next(Init(), NewRequest), Answer(0, 401)), Verify(0)), Rotate(0))
    ensures var rest := [LoseReply(0), Deliver(0), Settle(0)];
            && Legal(s, rest)
            && var t := Exec(s, rest);
               && SingleFlight(t) && t.client.refreshInFlight.None?
               && t.client.refresh == Some(1) && Accepted(t.server) == Some(3)
  {
    var s5 := Next(s, LoseReply(0));
    var s6 := Next(s5, Deliver(0));
    Prepend(s6, Settle(0), []);
    Prepend(s5, Deliver(0), [Settle(0)]);
    Prepend(s, LoseReply(0), [Deliver(0), Settle(0)]);
  }

  lemma LostReplyRun() returns (run: seq<Event>)
    ensures run == [NewRequest, Answer(0, 401), Verify(0), Rotate(0), LoseReply(0), Deliver(0), Settle(0)]
    ensures Legal(Init(), run)
    ensures var s := Exec(Init(), run);
            SingleFlight(s) && s.client.refreshInFlight.None?
            && s.client.refresh == Some(1) && Accepted(s.server) == Some(3)
  {
    var s0 := Init();
    var s1 := Next(s0, NewRequest);
    var s2 := Next(s1, Answer(0, 401));
    var s3 := Next(s2, Verify(0));
    var s4 := Next(s3, Rotate(0));
    AfterRotation(s4);
    Prepend(s3, Rotate(0), [LoseReply(0), Deliver(0), Settle(0)]);
    Prepend(s2, Verify(0), [Rotate(0), LoseReply(0), Deliver(0), Settle(0)]);
    Prepend(s1, Answer(0, 401), [Verify(0), Rotate(0), LoseReply(0), Deliver(0), Settle(0)]);
    Prepend(s0, NewRequest, [Answer(0, 401), Verify(0), Rotate(0), LoseReply(0), Deliver(0), Settle(0)]);
    run := [NewRequest, Answer(0, 401), Verify(0), Rotate(0), LoseReply(0), Deliver(0), Settle(0)];
  }

  // ---------- Logging out ----------

  /** No refresh is between the check of its token and the rotation. */
  ghost predicate NoneVerified(s: State) {
    forall c :: 0 <= c < |s.calls| ==> !s.calls[c].phase.Verified?
  }

  predicate NoLogin(run: seq<Event>) {
    forall i :: 0 <= i < |run| ==> !run[i].OtherLogin?
  }

  lemma StepKeepsLoggedOut(s: State, e: Event)
    requires Enabled(s, e) && !e.OtherLogin? && s.server.hash.None? && NoneVerified(s)
    ensures Next(s, e).server.hash.None? && NoneVerified(Next(s, e))
  {
  }

  lemma {:induction false} RunKeepsLoggedOut(s: State, run: seq<Event>)
    requires Legal(s, run) && NoLogin(run) && s.server.hash.None? && NoneVerified(s)
    ensures Exec(s, run).server.hash.None? && NoneVerified(Exec(s, run))
    decreases |run|
  {
    if run != [] {
      StepKeepsLoggedOut(s, run[0]);
      RunKeepsLoggedOut(Next(s, run[0]), run[1..]);
    }
  }

  /** Expired tokens have been made, and the user can log in. */
  ghost predicate CanLogIn(s: Server) {
    s.found && !s.disabled && forall t <- s.expired :: t < s.nextToken
  }

  lemma RotationLogsIn(s: State, c: CallId)
    requires Enabled(s, Rotate(c)) && CanLogIn(s.server)
    ensures Legal(s, [Rotate(c)]) && Accepted(Exec(s, [Rotate(c)]).server).Some?
  {
    Prepend(s, Rotate(c), []);
    assert [Rotate(c)] == [Rotate(c)] + [];
  }

  /** A logout, or another revocation, lasts until the next login exactly when no refresh is then between the check of
      its token and the rotation, which would have the new token accepted. */
  lemma LogoutLastsIff(s: State)
    requires CanLogIn(s.server)
    ensures (forall run :: Legal(Next(s, Revoke), run) && NoLogin(run) ==>
               Accepted(Exec(Next(s, Revoke), run).server) == None) <==> NoneVerified(s)
  {
    var t := Next(s, Revoke);
    if NoneVerified(s) {
      forall run | Legal(t, run) && NoLogin(run) ensures Accepted(Exec(t, run).server) == None {
        RunKeepsLoggedOut(t, run);
      }
    } else {
      var c :| 0 <= c < |s.calls| && s.calls[c].phase.Verified?;
      RotationLogsIn(t, c);
    }
  }

  /** From a fresh login: a logout that a refresh undoes. */
  lemma LogoutUndoneRun() returns (run: seq<Event>)
    ensures run == [NewRequest, Answer(0, 401), Verify(0), Revoke, Rotate(0)] && Legal(Init(), run)
    ensures Accepted(Exec(Init(), run).server) == Some(3)
  {
    var s1 := Next(Init(), NewRequest);
    var s2 := Next(s1, Answer(0, 401));
    var s3 := Next(s2, Verify(0));
    var s4 := Next(s3, Revoke);
    Prepend(s4, Rotate(0), []);
    Prepend(s3, Revoke, [Rotate(0)] + []);
    Prepend(s2, Verify(0), [Revoke] + ([Rotate(0)] + []));
    Prepend(s1, Answer(0, 401), [Verify(0)] + ([Revoke] + ([Rotate(0)] + [])));
    Prepend(Init(), NewRequest, [Answer(0, 401)] + ([Verify(0)] + ([Revoke] + ([Rotate(0)] + []))));
    run := [NewRequest] + ([Answer(0, 401)] + ([Verify(0)] + ([Revoke] + ([Rotate(0)] + []))));
  }
}
