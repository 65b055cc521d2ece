/** The authenticated API client of the web front end
    (frontend/src/lib/api.js): a request interceptor that attaches the
    stored access token, and a response interceptor that answers a 401 by
    refreshing the access token once while later failures wait in a queue.
    The awaits are modelled as separate events: a refresh is started by one
    event and finished by a later success or failure event. */
module Dispatcher {
  import opened Common

  /** A request configuration: which request it is, its Authorization
      header, and the `_retry` mark the response interceptor sets. */
  datatype Request = Request(id: nat, authorization: Option<string>, retry: bool)

  /** An error from the API: the HTTP status of the response (None when no
      response arrived) and the request that failed. */
  datatype ApiError = ApiError(status: Option<int>, config: Request)

  /** Whatever the refresh call was rejected with. */
  datatype RefreshFailure = RefreshFailure(detail: string)

  /** What the response interceptor does with a failed request. */
  datatype Reaction =
    | Reject(error: ApiError)        // the caller's promise is rejected with error
    | Queued                         // the request waits for the refresh in flight
    | Refreshing(authorization: string)  // a refresh call is sent with this header

  /** The module state and the two stored tokens; `owner` is the request
      whose 401 started the refresh in flight. */
  datatype State = State(
    isRefreshing: bool,
    queue: seq<Request>,
    accessToken: Option<string>,
    refreshToken: Option<string>,
    owner: Option<Request>)

  /** The state of a fresh page, with whatever tokens storage holds. */
  function Initial(access: Option<string>, refresh: Option<string>): State {
    State(false, [], access, refresh, None)
  }

  /** A refresh is in flight exactly when it has an owner; requests wait only
      while it is; every waiting request, and the owner, is marked retried. */
  predicate Inv(s: State) {
    && (s.isRefreshing <==> s.owner.Some?)
    && (!s.isRefreshing ==> s.queue == [])
    && (forall i :: 0 <= i < |s.queue| ==> s.queue[i].retry)
    && (s.owner.Some? ==> s.owner.value.retry)
  }

  function Bearer(token: string): string {
    "Bearer " + token
  }

  function WithBearer(c: Request, token: string): Request {
    c.(authorization := Some(Bearer(token)))
  }

  /** The request interceptor: a truthy stored access token replaces the
      Authorization header with its bearer form; otherwise the request is
      left as it is. */
  function Intercept(c: Request, stored: Option<string>): (r: Request)
    ensures r.id == c.id && r.retry == c.retry
    ensures Truthy(stored) ==> r.authorization == Some(Bearer(stored.value))
    ensures !Truthy(stored) ==> r == c
  {
    if Truthy(stored) then WithBearer(c, stored.value) else c
  }

  /** processQueue(null, token) for one waiting request, then the request
      interceptor of the call that re-sends it. */
  function Resend(c: Request, token: Option<string>, stored: Option<string>): Request {
    Intercept(if Truthy(token) then WithBearer(c, token.value) else c, stored)
  }

  function ResendAll(q: seq<Request>, token: Option<string>, stored: Option<string>): (r: seq<Request>)
    ensures |r| == |q|
    ensures forall i :: 0 <= i < |q| ==> r[i] == Resend(q[i], token, stored)
  {
    if q == [] then [] else [Resend(q[0], token, stored)] + ResendAll(q[1..], token, stored)
  }

  /** The response interceptor on a failed request. */
  function OnError(s: State, e: ApiError): (r: (State, Reaction))
    ensures Inv(s) ==> Inv(r.0)
    ensures r.1.Reject? ==> r.0 == s
    ensures r.1.Queued? ==> s.isRefreshing && |r.0.queue| == |s.queue| + 1
    ensures r.1.Refreshing? ==>
              !s.isRefreshing && r.0.isRefreshing
              && Truthy(s.refreshToken) && r.1.authorization == Bearer(s.refreshToken.value)
  {
    if e.status == Some(401) && !e.config.retry then
      var original := e.config.(retry := true);
      if !Truthy(s.refreshToken) then (s, Reject(ApiError(e.status, original)))
      else if s.isRefreshing then (s.(queue := s.queue + [original]), Queued)
      else (s.(isRefreshing := true, owner := Some(original)), Refreshing(Bearer(s.refreshToken.value)))
    else (s, Reject(e))
  }

  /** The refresh call answered with newAccess: it is stored, the flag is
      cleared, the queue is re-sent and emptied, and the owner is re-sent
      with the new bearer header. The requests sent, in order. */
  function OnRefreshed(s: State, newAccess: string): (State, seq<Request>)
    requires s.owner.Some?
  {
    var stored := Some(newAccess);
    (s.(accessToken := stored, isRefreshing := false, queue := [], owner := None),
     ResendAll(s.queue, stored, stored) + [Intercept(WithBearer(s.owner.value, newAccess), stored)])
  }

  /** The refresh call failed: the flag is cleared, every waiting request is
      rejected with the failure (returned in order), both tokens are
      removed, and the owner's call fails with the same failure. */
  function OnRefreshFailed(s: State, f: RefreshFailure): (State, seq<Request>, RefreshFailure)
    requires s.owner.Some?
  {
    (s.(isRefreshing := false, queue := [], owner := None, accessToken := None, refreshToken := None),
     s.queue, f)
  }

  /** Login stores both tokens it was given. */
  function StoreTokens(s: State, access: string, refresh: string): State {
    s.(accessToken := Some(access), refreshToken := Some(refresh))
  }

  /** Logout removes both tokens. */
  function ClearTokens(s: State): State {
    s.(accessToken := None, refreshToken := None)
  }

  // ----- the state machine -----

  class Client {
    var isRefreshing: bool
    var queue: seq<Request>
    var accessToken: Option<string>
    var refreshToken: Option<string>
    var owner: Option<Request>

    function Snapshot(): State
      reads this
    {
      State(isRefreshing, queue, accessToken, refreshToken, owner)
    }

    ghost predicate Valid()
      reads this
    {
      Inv(Snapshot())
    }

    /** Module load: nothing refreshing, nothing queued; the tokens are
        whatever storage already holds. */
    constructor(access: Option<string>, refresh: Option<string>)
      ensures Snapshot() == Initial(access, refresh)
      ensures Valid()
    {
      isRefreshing := false;
      queue := [];
      accessToken := access;
      refreshToken := refresh;
      owner := None;
    }

    /** The request interceptor, reading the stored access token. */
    function Prepare(c: Request): Request
      reads this
    {
      Intercept(c, accessToken)
    }

    /** login: stores both tokens the server returned. */
    method Login(access: string, refresh: string)
      requires Valid()
      modifies this
      ensures Snapshot() == StoreTokens(old(Snapshot()), access, refresh)
      ensures Valid()
    {
      accessToken := Some(access);
      refreshToken := Some(refresh);
    }

    /** logout: removes both tokens. */
    method Logout()
      requires Valid()
      modifies this
      ensures Snapshot() == ClearTokens(old(Snapshot()))
      ensures Valid()
    {
      accessToken := None;
      refreshToken := None;
    }

    /** The error handler of the response interceptor, up to the await of
        the refresh call. */
    method HandleError(e: ApiError) returns (reaction: Reaction)
      requires Valid()
      modifies this
      ensures (Snapshot(), reaction) == OnError(old(Snapshot()), e)
      ensures Valid()
    {
      if e.status == Some(401) && !e.config.retry {
        var original := e.config.(retry := true);
        var token := refreshToken;
        if !(token.Some? && token.value != []) {
          return Reject(ApiError(e.status, original));
        }
        if isRefreshing {
          queue := queue + [original];
          return Queued;
        }
        isRefreshing := true;
        owner := Some(original);
        return Refreshing("Bearer " + token.value);
      }
      return Reject(e);
    }

    /** The rest of the handler once the refresh call answered. */
    method RefreshSucceeded(newAccess: string) returns (sent: seq<Request>)
      requires Valid() && owner.Some?
      modifies this
      ensures (Snapshot(), sent) == OnRefreshed(old(Snapshot()), newAccess)
      ensures Valid()
    {
      var original := owner.value;
      accessToken := Some(newAccess);
      isRefreshing := false;
      var resent, _ := ProcessQueue(None, Some(newAccess));
      owner := None;
      var retried := original.(authorization := Some("Bearer " + newAccess));
      sent := resent + [Prepare(retried)];
    }

    /** The rest of the handler once the refresh call failed. */
    method RefreshFailed(f: RefreshFailure) returns (rejected: seq<Request>, propagated: RefreshFailure)
      requires Valid() && owner.Some?
      modifies this
      ensures (Snapshot(), rejected, propagated) == OnRefreshFailed(old(Snapshot()), f)
      ensures Valid()
    {
      isRefreshing := false;
      var _, failed := ProcessQueue(Some(f), None);
      rejected := failed;
      owner := None;
      accessToken := None;
      refreshToken := None;
      propagated := f;
    }

    /** processQueue(error, token): settles every waiting request in order,
        rejecting it when there is an error and otherwise re-sending it
        (through the request interceptor) with the token's bearer header
        when the token is truthy; then empties the queue. */
    method ProcessQueue(error: Option<RefreshFailure>, token: Option<string>)
      returns (resent: seq<Request>, rejected: seq<Request>)
      modifies this
      ensures error.Some? ==> resent == [] && rejected == old(queue)
      ensures error.None? ==> rejected == [] && resent == ResendAll(old(queue), token, accessToken)
      ensures queue == []
      ensures isRefreshing == old(isRefreshing) && owner == old(owner)
      ensures accessToken == old(accessToken) && refreshToken == old(refreshToken)
    {
      resent, rejected := [], [];
      for i := 0 to |queue|
        invariant error.Some? ==> resent == [] && rejected == queue[..i]
        invariant error.None? ==> rejected == [] && |resent| == i
        invariant error.None? ==> forall j :: 0 <= j < i ==> resent[j] == Resend(queue[j], token, accessToken)
      {
        var config := queue[i];
        if error.Some? {
          rejected := rejected + [config];
        } else {
          if token.Some? && token.value != [] {
            config := config.(authorization := Some("Bearer " + token.value));
          }
          resent := resent + [Prepare(config)];
        }
      }
      assert queue[..|queue|] == queue;
      queue := [];
    }
  }

  // ----- properties of the event functions -----

  /** Every event keeps the invariant. */
  lemma EventsKeepInv(s: State, e: ApiError, newAccess: string, f: RefreshFailure, a: string, r: string)
    requires Inv(s)
    ensures Inv(OnError(s, e).0)
    ensures s.owner.Some? ==> Inv(OnRefreshed(s, newAccess).0) && Inv(OnRefreshFailed(s, f).0)
    ensures Inv(StoreTokens(s, a, r)) && Inv(ClearTokens(s))
  {
  }

  /** Only a 401 on a request not yet retried is handled; any other error,
      including a second 401 on a retried request, is rejected unchanged
      and leaves flag, queue and tokens alone. */
  lemma OtherErrorsPassThrough(s: State, e: ApiError)
    requires !(e.status == Some(401) && !e.config.retry)
    ensures OnError(s, e) == (s, Reject(e))
  {
  }

  /** Without a refresh token the 401 is rejected, its request now marked
      retried, and no refresh starts. */
  lemma NoRefreshTokenRejects(s: State, e: ApiError)
    requires e.status == Some(401) && !e.config.retry
    requires !Truthy(s.refreshToken)
    ensures OnError(s, e).0 == s
    ensures OnError(s, e).1 == Reject(ApiError(e.status, e.config.(retry := true)))
  {
  }

  /** Single flight: while a refresh is in flight a 401 never starts a
      second one; it either waits in the queue (appended at the end) or is
      rejected. A refresh starts only from an idle state, and only with the
      stored refresh token as bearer. */
  lemma SingleFlight(s: State, e: ApiError)
    ensures s.isRefreshing ==> !OnError(s, e).1.Refreshing? && OnError(s, e).0.isRefreshing
    ensures OnError(s, e).1.Queued? ==>
      s.isRefreshing && OnError(s, e).0.queue == s.queue + [e.config.(retry := true)]
    ensures OnError(s, e).1.Refreshing? ==>
      && !s.isRefreshing && Truthy(s.refreshToken)
      && OnError(s, e).1.authorization == Bearer(s.refreshToken.value)
      && OnError(s, e).0.owner == Some(e.config.(retry := true))
  {
  }

  /** A successful refresh settles every waiting request exactly once, in
      queue order, then the owner; each goes out with the new bearer header
      when the new token is non-empty; the access token is the new one, the
      refresh token is kept, and nothing is left waiting. */
  lemma RefreshedSettlesAll(s: State, newAccess: string)
    requires Inv(s) && s.owner.Some?
    ensures var (t, sent) := OnRefreshed(s, newAccess);
      && |sent| == |s.queue| + 1
      && (forall i :: 0 <= i < |s.queue| ==> sent[i].id == s.queue[i].id && sent[i].retry)
      && sent[|s.queue|].id == s.owner.value.id && sent[|s.queue|].retry
      && (newAccess != [] ==> forall i :: 0 <= i < |sent| ==> sent[i].authorization == Some(Bearer(newAccess)))
      && t.accessToken == Some(newAccess) && t.refreshToken == s.refreshToken
      && !t.isRefreshing && t.queue == []
  {
    var (t, sent) := OnRefreshed(s, newAccess);
    assert forall i :: 0 <= i < |s.queue| ==> sent[i] == Resend(s.queue[i], Some(newAccess), Some(newAccess));
  }

  /** A failed refresh rejects every waiting request with the failure, in
      queue order, clears the session, and propagates the refresh failure
      rather than the original 401. */
  lemma FailedClearsSession(s: State, f: RefreshFailure)
    requires Inv(s) && s.owner.Some?
    ensures var (t, rejected, propagated) := OnRefreshFailed(s, f);
      && rejected == s.queue && propagated == f
      && t.accessToken == None && t.refreshToken == None
      && !t.isRefreshing && t.queue == [] && Inv(t)
  {
  }

  /** login stores both tokens and logout removes both; the next request
      carries the new access token, or no new header at all. */
  lemma SessionTokens(s: State, a: string, r: string, c: Request)
    ensures StoreTokens(s, a, r).accessToken == Some(a) && StoreTokens(s, a, r).refreshToken == Some(r)
    ensures a != [] ==> Intercept(c, StoreTokens(s, a, r).accessToken).authorization == Some(Bearer(a))
    ensures Intercept(c, ClearTokens(s).accessToken) == c
  {
  }

  /** Two requests fail with 401 while a refresh token is stored: the first
      starts the refresh, the second waits; when the refresh succeeds both
      are re-sent, the waiting one first, each with the new token. */
  lemma TwoConcurrent401s(access: Option<string>, refresh: string, c1: Request, c2: Request, newAccess: string)
    requires refresh != [] && newAccess != []
    requires !c1.retry && !c2.retry
    ensures var s0 := Initial(access, Some(refresh));
      var (s1, r1) := OnError(s0, ApiError(Some(401), c1));
      var (s2, r2) := OnError(s1, ApiError(Some(401), c2));
      && r1 == Refreshing(Bearer(refresh))
      && r2 == Queued
      && s2.owner.Some?
      && OnRefreshed(s2, newAccess).1
         == [c2.(retry := true, authorization := Some(Bearer(newAccess))),
             c1.(retry := true, authorization := Some(Bearer(newAccess)))]
  {
    var s0 := Initial(access, Some(refresh));
    var (s1, r1) := OnError(s0, ApiError(Some(401), c1));
    var (s2, r2) := OnError(s1, ApiError(Some(401), c2));
    assert s2.queue == [c2.(retry := true)];
    assert ResendAll(s2.queue, Some(newAccess), Some(newAccess))
           == [c2.(retry := true, authorization := Some(Bearer(newAccess)))];
  }
}
