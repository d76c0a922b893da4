/** The IG REST client's session recovery, against any server and any concurrent requests. */
module IGSession {
  import opened Domain

  /** The client's error classes; `TransportFailed` is the HTTP library's own exception. */
  datatype IGError =
    | AuthError | SessionExpired | RateLimited | OrderRejected | RequestInvalid | ConnectionError | TransportFailed

  /** A server's answer: a 2xx with its body (`None` when not JSON) and the two session headers, a failure
      with an error code and a status, or nothing at all. */
  datatype Reply =
    | Success(body: Option<string>, cst: Option<string>, token: Option<string>)
    | Failure(errorCode: string, httpStatus: int)
    | Lost

  /** What happens while the client is suspended: other requests may replace the tokens. */
  datatype Meanwhile = Untouched | Replaced(cst: Option<string>, token: Option<string>)

  /** One suspension: the server's reply (ignored when only waiting for the rate limiter), then others. */
  datatype Moment = Moment(reply: Reply, others: Meanwhile)

  /** What was put on the wire, with the tokens it carried. */
  datatype Call =
    | Send(cst: string, token: string)
    | Refresh(cst: string, token: string)
    | Login

  const AUTH_CODES := {
    "error.security.invalid-details", "error.security.api-key-revoked", "error.public-api.failure.kyc.required"}

  const EXPIRED_CODES := {"error.security.client-token-invalid", "error.public-api.client-token-invalid"}

  const RATE_LIMIT_CODES := {
    "error.public-api.exceeded-api-key-allowance", "error.public-api.exceeded-account-allowance",
    "error.public-api.exceeded-trading-allowance", "error.public-api.exceeded-historical-data-allowance"}

  const REJECTED_CODES := {"error.confirms.deal-rejected"}

  function ClassifyError(code: string, httpStatus: int): IGError {
    if code in AUTH_CODES then AuthError
    else if code in EXPIRED_CODES then SessionExpired
    else if code in RATE_LIMIT_CODES then RateLimited
    else if code in REJECTED_CODES then OrderRejected
    else if httpStatus >= 500 then ConnectionError
    else RequestInvalid
  }

  /** The body of a 2xx; otherwise the classified error, an expiry being fatal during login. */
  function HandleResponse(r: Reply, raiseOnExpired: bool): Result<string, IGError> {
    match r
    case Success(Some(body), _, _) => Ok(body)
    case Success(None, _, _) => Err(RequestInvalid)
    case Lost => Err(TransportFailed)
    case Failure(code, status) =>
      var e := ClassifyError(code, status);
      Err(if e == SessionExpired && !raiseOnExpired then AuthError else e)
  }

  // ---- What the replies mean ---------------------------------------------------

  /** The server no longer knows the session. */
  predicate SessionGone(r: Reply) {
    r.Failure? && r.errorCode in {"error.security.client-token-invalid", "error.public-api.client-token-invalid"}
  }

  predicate WrongCredentials(r: Reply) {
    r.Failure? && r.errorCode in {
      "error.security.invalid-details", "error.security.api-key-revoked", "error.public-api.failure.kyc.required"}
  }

  predicate Throttled(r: Reply) {
    r.Failure? && r.errorCode in {
      "error.public-api.exceeded-api-key-allowance", "error.public-api.exceeded-account-allowance",
      "error.public-api.exceeded-trading-allowance", "error.public-api.exceeded-historical-data-allowance"}
  }

  /** How each reply is reported, by its own words: a known code before the status. */
  lemma RepliesMean(r: Reply, raiseOnExpired: bool)
    ensures var h := HandleResponse(r, raiseOnExpired);
            && (forall body :: h == Ok(body) <==> r.Success? && r.body == Some(body))
            && (h == Err(SessionExpired) <==> raiseOnExpired && SessionGone(r))
            && (h == Err(AuthError) <==> WrongCredentials(r) || (!raiseOnExpired && SessionGone(r)))
            && (h == Err(RateLimited) <==> Throttled(r))
            && (h == Err(OrderRejected) <==> r.Failure? && r.errorCode == "error.confirms.deal-rejected")
            && (h == Err(ConnectionError) <==>
                r.Failure? && !SessionGone(r) && !WrongCredentials(r) && !Throttled(r)
                && r.errorCode != "error.confirms.deal-rejected" && r.httpStatus >= 500)
            && (h == Err(TransportFailed) <==> r.Lost?)
  {
  }

  /** A readable 2xx with both session headers. */
  predicate NewTokens(r: Reply) {
    && r.Success? && r.body.Some? && r.cst.Some? && r.cst.value != "" && r.token.Some? && r.token.value != ""
  }

  // ---- The whole recovery, reply by reply ----------------------------------------

  /** A request without tokens to send with: it ends there. */
  predicate Stopped(r: Result<string, IGError>, stopped: bool) {
    stopped && r == Err(AuthError)
  }

  /** The last send there can be, as call `i`: its reply is the result, an expired session a failed login. */
  predicate LastSend(ks: seq<CallKind>, replies: seq<Reply>, i: nat, r: Result<string, IGError>, stopped: bool)
    requires |ks| == |replies|
  {
    || (|ks| == i && Stopped(r, stopped))
    || (|ks| == i + 1 && ks[i] == S && !stopped
        && r == if SessionGone(replies[i]) then Err(AuthError) else HandleResponse(replies[i], true))
  }

  /** The full login, as call `i`: with new tokens the request is sent once more, otherwise the login's failure is
      the result. */
  predicate FromLogin(ks: seq<CallKind>, replies: seq<Reply>, i: nat, r: Result<string, IGError>, stopped: bool)
    requires |ks| == |replies|
  {
    && |ks| > i && ks[i] == L
    && if NewTokens(replies[i]) then LastSend(ks, replies, i + 1, r, stopped)
       else
         |ks| == i + 1 && !stopped
         && r == Err(if replies[i].Success? && replies[i].body.Some? then AuthError
                     else HandleResponse(replies[i], false).error)
  }

  /** After a refresh that worked: the request again, and a login if the session expired again. */
  predicate FromSecondSend(ks: seq<CallKind>, replies: seq<Reply>, r: Result<string, IGError>, stopped: bool)
    requires |ks| == |replies|
  {
    || (|ks| == 2 && Stopped(r, stopped))
    || (|ks| > 2 && ks[2] == S
        && if SessionGone(replies[2]) then FromLogin(ks, replies, 3, r, stopped)
           else |ks| == 3 && !stopped && r == HandleResponse(replies[2], true))
  }

  /** After the first expiry: a refresh; when it brings tokens the request again, when it says expired or brings no
      tokens a login, and when it fails otherwise that failure. */
  predicate FromRefresh(ks: seq<CallKind>, replies: seq<Reply>, r: Result<string, IGError>, stopped: bool)
    requires |ks| == |replies|
  {
    || (|ks| == 1 && Stopped(r, stopped))
    || (|ks| > 1 && ks[1] == R
        && if NewTokens(replies[1]) then FromSecondSend(ks, replies, r, stopped)
           else if SessionGone(replies[1]) || (replies[1].Success? && replies[1].body.Some?)
           then FromLogin(ks, replies, 2, r, stopped)
           else |ks| == 2 && !stopped && r == Err(HandleResponse(replies[1], true).error))
  }

  /** A whole request: the send, and the recovery exactly when it is answered by an expired session. */
  predicate Dispatched(ks: seq<CallKind>, replies: seq<Reply>, r: Result<string, IGError>, stopped: bool)
    requires |ks| == |replies|
  {
    || (ks == [] && Stopped(r, stopped))
    || (ks != [] && ks[0] == S
        && if SessionGone(replies[0]) then FromRefresh(ks, replies, r, stopped)
           else |ks| == 1 && !stopped && r == HandleResponse(replies[0], true))
  }

  // ---- What one request may put on the wire ---------------------------------

  datatype CallKind = S | R | L

  function KindOf(c: Call): CallKind {
    match c case Send(_, _) => S case Refresh(_, _) => R case Login => L
  }

  function CallKinds(calls: seq<Call>): seq<CallKind> {
    seq(|calls|, i requires 0 <= i < |calls| => KindOf(calls[i]))
  }

  lemma KindsSnoc(calls: seq<Call>, c: Call)
    ensures CallKinds(calls + [c]) == CallKinds(calls) + [KindOf(c)]
  {
  }

  /** Everything one request may put on the wire: a send, a refresh when it expired, a login when the
      refresh or the second send did, and a send after each that worked. */
  predicate Recovery(ks: seq<CallKind>) {
    || ks == [] || ks == [S] || ks == [S, R] || ks == [S, R, S]
    || ks == [S, R, L] || ks == [S, R, L, S] || ks == [S, R, S, L] || ks == [S, R, S, L, S]
  }

  function Count(ks: seq<CallKind>, k: CallKind): nat {
    if ks == [] then 0 else Count(ks[..|ks| - 1], k) + if ks[|ks| - 1] == k then 1 else 0
  }

  lemma CountSnoc(ks: seq<CallKind>, last: CallKind, k: CallKind)
    ensures Count(ks + [last], k) == Count(ks, k) + if last == k then 1 else 0
  {
    assert (ks + [last])[..|ks|] == ks;
  }

  /** At most three sends, one refresh and one login. */
  lemma RecoveryBounded(ks: seq<CallKind>, k: CallKind)
    requires Recovery(ks)
    ensures Count(ks, k) <= if k == S then 3 else 1
  {
    ShortCounts(k);
    CountSnoc([S, R, L], S, k);
    CountSnoc([S, R, S], L, k);
    CountSnoc([S, R, S, L], S, k);
    assert [S, R, L] + [S] == [S, R, L, S] && [S, R, S] + [L] == [S, R, S, L];
    assert [S, R, S, L] + [S] == [S, R, S, L, S];
  }

  lemma ShortCounts(k: CallKind)
    ensures Count([], k) == 0 && Count([S], k) == (if k == S then 1 else 0)
    ensures Count([S, R], k) == (if k == L then 0 else 1)
    ensures Count([S, R, S], k) == (if k == S then 2 else if k == R then 1 else 0)
    ensures Count([S, R, L], k) == 1
  {
    CountSnoc([], S, k);
    CountSnoc([S], R, k);
    CountSnoc([S, R], S, k);
    CountSnoc([S, R], L, k);
    assert [] + [S] == [S] && [S] + [R] == [S, R];
    assert [S, R] + [S] == [S, R, S] && [S, R] + [L] == [S, R, L];
  }

  /** Every send but a last one was answered by an expired session. */
  ghost predicate OnlyExpired(calls: seq<Call>, replies: seq<Reply>, n: nat)
    requires n <= |calls| == |replies|
  {
    forall i :: 0 <= i < n && calls[i].Send? ==> HandleResponse(replies[i], true) == Err(SessionExpired)
  }

  function Present(header: Option<string>): bool {
    header.Some? && header.value != ""
  }

  class IGClient {
    var cst: Option<string>
    var token: Option<string>
    const world: nat -> Moment
    var now: nat
    ghost var calls: seq<Call>
    ghost var replies: seq<Reply>

    /** Each call on the wire has its reply. */
    ghost predicate Valid()
      reads this
    {
      |calls| == |replies|
    }

    /** One more call, or none. */
    twostate predicate Called(k: CallKind)
      reads this
    {
      Valid() && |calls| == |old(calls)| + 1 && old(calls) <= calls && old(replies) <= replies &&
      KindOf(calls[|old(calls)|]) == k && CallKinds(calls) == CallKinds(old(calls)) + [k]
    }

    twostate predicate Quiet()
      reads this
    {
      Valid() && calls == old(calls) && replies == old(replies)
    }

    constructor (world: nat -> Moment)
      ensures Valid() && cst == None && token == None && calls == [] && this.world == world
    {
      cst, token, this.world, now := None, None, world, 0;
      calls, replies := [], [];
    }

    predicate IsConnected()
      reads this
    {
      cst.Some? && token.Some?
    }

    /** Suspend once: the reply that arrives, and whatever other requests did to the tokens. */
    method Suspend() returns (reply: Reply)
      modifies this`now, this`cst, this`token
      ensures reply == world(old(now)).reply
      ensures world(old(now)).others.Untouched? ==> cst == old(cst) && token == old(token)
    {
      var m := world(now);
      now := now + 1;
      reply := m.reply;
      if m.others.Replaced? {
        cst, token := m.others.cst, m.others.token;
      }
    }

    /** Put one call on the wire and wait for its reply. */
    method Exchange(ghost c: Call) returns (reply: Reply)
      requires Valid()
      modifies this
      ensures Called(KindOf(c)) && replies == old(replies) + [reply] && calls == old(calls) + [c]
      ensures world(old(now)).others.Untouched? ==> cst == old(cst) && token == old(token)
    {
      reply := Suspend();
      KindsSnoc(calls, c);
      calls, replies := calls + [c], replies + [reply];
    }

    /** Nobody else touches the tokens. */
    ghost predicate Alone()
      reads this
    {
      forall n :: world(n).others.Untouched?
    }

    /** One send of the request with the tokens held once the rate limiter lets it through. */
    method SendOnce() returns (r: Result<string, IGError>, ghost stopped: bool)
      requires Valid()
      modifies this
      ensures if stopped then Quiet() && r == Err(AuthError)
              else Called(S) && r == HandleResponse(replies[|old(calls)|], true)
      ensures Called(S) && world(old(now)).others.Untouched? ==>
                old(IsConnected()) && calls[|old(calls)|] == Send(old(cst).value, old(token).value)
      ensures Alone() ==> cst == old(cst) && token == old(token) && stopped == !old(IsConnected())
    {
      var _ := Suspend();
      if !IsConnected() {
        return Err(AuthError), true;
      }
      var reply := Exchange(Send(cst.value, token.value));
      r, stopped := HandleResponse(reply, true), false;
    }

    /** Refresh the tokens; a success without both headers counts as expired. */
    method RefreshSession() returns (r: Result<(), IGError>, ghost stopped: bool)
      requires Valid()
      modifies this
      ensures if stopped then Quiet() && r == Err(AuthError) else Called(R)
      ensures !stopped ==>
                var reply := replies[|old(calls)|];
                && (r.Ok? <==> NewTokens(reply)) && (r.Ok? ==> cst == reply.cst && token == reply.token)
                && (r == Err(SessionExpired) <==>
                    !NewTokens(reply) && (SessionGone(reply) || (reply.Success? && reply.body.Some?)))
                && (r.Err? && r.error != SessionExpired ==> HandleResponse(reply, true) == Err(r.error))
      ensures Alone() ==> stopped == !old(IsConnected())
    {
      var _ := Suspend();
      if !IsConnected() {
        return Err(AuthError), true;
      }
      stopped := false;
      var reply := Exchange(Refresh(cst.value, token.value));
      RepliesMean(reply, true);
      var handled := HandleResponse(reply, true);
      if handled.Err? {
        return Err(handled.error), stopped;
      }
      if !Present(reply.cst) || !Present(reply.token) {
        return Err(SessionExpired), stopped;
      }
      cst, token := reply.cst, reply.token;
      r := Ok(());
    }

    /** Full login; never reports an expired session. */
    method Connect() returns (r: Result<(), IGError>)
      requires Valid()
      modifies this
      ensures old(IsConnected()) ==> Quiet() && r == Ok(())
      ensures r != Err(SessionExpired)
      ensures !old(IsConnected()) ==>
                Called(L) &&
                var reply := replies[|old(calls)|];
                && (r.Ok? <==> NewTokens(reply)) && (r.Ok? ==> cst == reply.cst && token == reply.token)
                && (r.Err? ==> r == Err(if reply.Success? && reply.body.Some? then AuthError
                                        else HandleResponse(reply, false).error))
    {
      if IsConnected() {
        return Ok(());
      }
      var _ := Suspend();
      var reply := Exchange(Login);
      RepliesMean(reply, false);
      var handled := HandleResponse(reply, false);
      if handled.Err? {
        return Err(handled.error);
      }
      cst, token := reply.cst, reply.token;
      r := if Present(cst) && Present(token) then Ok(()) else Err(AuthError);
    }

    /** One request, recovery included, against any server and any concurrent requests: the calls and the result are
        those the replies ask for, step by step; it stops short only where it finds itself without tokens, which
        takes another request to remove them, or none to begin with. It always ends, within the calls of
        `Recovery`, and no expired session ever reaches the caller. */
    method DispatchWithRefresh() returns (r: Result<string, IGError>, ghost stopped: bool)
      requires Valid() && calls == []
      modifies this
      ensures Valid() && Recovery(CallKinds(calls))
      ensures Dispatched(CallKinds(calls), replies, r, stopped)
      ensures Alone() && old(IsConnected()) ==> !stopped
      ensures calls != [] ==> OnlyExpired(calls, replies, |calls| - 1)
      ensures r != Err(SessionExpired)
      ensures r.Ok? ==> calls != [] && calls[|calls| - 1].Send? && HandleResponse(replies[|calls| - 1], true) == r
    {
      r, stopped := Recover();
      DispatchedMeans(calls, replies, r, stopped);
    }

    /** The request loop. */
    method Recover() returns (r: Result<string, IGError>, ghost stopped: bool)
      requires Valid() && calls == []
      modifies this
      ensures Valid() && Dispatched(CallKinds(calls), replies, r, stopped)
      ensures Alone() && old(IsConnected()) ==> !stopped
    {
      var refreshTried, reauthTried := false, false;
      while true
        invariant Valid() && !(reauthTried && !refreshTried)
        invariant !refreshTried ==> CallKinds(calls) == []
        invariant refreshTried && !reauthTried ==> Refreshed(CallKinds(calls), replies)
        invariant reauthTried ==> LoggedIn(CallKinds(calls), replies)
        invariant Alone() && old(IsConnected()) ==> IsConnected()
        decreases !refreshTried, !reauthTried
      {
        var sent;
        sent, stopped := SendOnce();
        if !stopped {
          ExpiryMeans(replies[|replies| - 1]);
        }
        if sent != Err(SessionExpired) {
          return sent, stopped;
        }
        if !refreshTried {
          refreshTried := true;
          var refreshed;
          refreshed, stopped := RefreshSession();
          if refreshed.Ok? {
            continue;
          }
          if refreshed != Err(SessionExpired) {
            return Err(refreshed.error), stopped;
          }
        }
        if !reauthTried {
          reauthTried := true;
          cst, token := None, None;
          var connected := Connect();
          if connected.Err? {
            return Err(connected.error), stopped;
          }
          continue;
        }
        return Err(AuthError), stopped;
      }
    }
  }

  lemma ExpiryMeans(r: Reply)
    ensures HandleResponse(r, true) == Err(SessionExpired) <==> SessionGone(r)
  {
    RepliesMean(r, true);
  }

  /** What the caller may rely on: the calls are those of a recovery, only expired sessions were retried, no expiry
      is reported, and a body is that of the last send. */
  lemma DispatchedMeans(calls: seq<Call>, replies: seq<Reply>, r: Result<string, IGError>, stopped: bool)
    requires |calls| == |replies| && Dispatched(CallKinds(calls), replies, r, stopped)
    ensures Recovery(CallKinds(calls)) && r != Err(SessionExpired)
    ensures calls != [] ==> OnlyExpired(calls, replies, |calls| - 1)
    ensures r.Ok? ==> calls != [] && calls[|calls| - 1].Send? && HandleResponse(replies[|calls| - 1], true) == r
  {
    var ks := CallKinds(calls);
    forall i | 0 <= i < |calls|
      ensures HandleResponse(replies[i], true) == Err(SessionExpired) <==> SessionGone(replies[i])
      ensures calls[i].Send? <==> ks[i] == S
      ensures HandleResponse(replies[i], false) != Err(SessionExpired)
    {
      ExpiryMeans(replies[i]);
      RepliesMean(replies[i], false);
    }
    assert ks == ks[..|ks|];
  }

  /** Sent, expired, refreshed. */
  predicate Refreshed(ks: seq<CallKind>, replies: seq<Reply>)
    requires |ks| == |replies|
  {
    ks == [S, R] && SessionGone(replies[0]) && NewTokens(replies[1])
  }

  /** Sent, expired, and logged in anew: after a refresh that brought no tokens, or one whose tokens had expired. */
  predicate LoggedIn(ks: seq<CallKind>, replies: seq<Reply>)
    requires |ks| == |replies|
  {
    || (ks == [S, R, L] && SessionGone(replies[0]) && !NewTokens(replies[1])
        && (SessionGone(replies[1]) || (replies[1].Success? && replies[1].body.Some?)) && NewTokens(replies[2]))
    || (ks == [S, R, S, L] && SessionGone(replies[0]) && NewTokens(replies[1]) && SessionGone(replies[2])
        && NewTokens(replies[3]))
  }
}
