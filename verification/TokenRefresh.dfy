/**
 The 401 interceptor of the admin client: one refresh at a time, later failures wait in failedQueue.
 JavaScript runs each callback to completion, so a run is a sequence of callbacks in any order the
 network chooses.
 */
module TokenRefresh {
  import opened Wrappers
  import opened Counting

  type Token = nat

  datatype Phase =
    | InFlight               // sent, no answer yet
    | Waiting                // its resolve/reject pair is in failedQueue
    | Leading                // awaiting POST /api/auth/refresh
    | Resumed(token: Token)  // its promise was resolved, the .then callback has not run yet
    | Settled(ok: bool)      // the caller has its response or its error

  /** The Authorization header; a refresh response without a token makes it the text "Bearer undefined". */
  datatype Auth = NoAuth | Bearer(token: Token) | BearerUndefined

  function AuthOf(token: Option<Token>): Auth {
    if token.Some? then Bearer(token.value) else NoAuth
  }

  datatype Request = Request(phase: Phase, retried: bool, isPublic: bool, auth: Auth)

  /** `waits` and `settles` count, per request, promises put into failedQueue and promises settled. */
  datatype Client = Client(
    requests: seq<Request>, isRefreshing: bool, failedQueue: seq<nat>, accessToken: Option<Token>,
    refreshCalls: nat, waits: seq<nat>, settles: seq<nat>)

  datatype Answer = Success | Unauthorized | OtherFailure

  datatype RefreshResult = NewToken(token: Token) | NoToken | RefreshFailed

  datatype Event =
    | Respond(i: nat, answer: Answer)
    | RefreshDone(i: nat, result: RefreshResult)
    | Resend(i: nat)

  /** The request interceptor lets public paths go without a token. */
  function Sent(isPublic: bool, token: Option<Token>): Request {
    Request(InFlight, false, isPublic, if isPublic then NoAuth else AuthOf(token))
  }

  /** Requests already sent, none of them retried, with the token of the moment. */
  function Initial(publics: seq<bool>, token: Option<Token>): Client {
    Client(seq(|publics|, i requires 0 <= i < |publics| => Sent(publics[i], token)),
           false, [], token, 0, seq(|publics|, _ => 0), seq(|publics|, _ => 0))
  }

  predicate CanHappen(c: Client, e: Event) {
    && e.i < |c.requests| == |c.waits| == |c.settles|
    && match e
       case Respond(i, _) => c.requests[i].phase.InFlight?
       case RefreshDone(i, _) => c.requests[i].phase.Leading?
       case Resend(i) => c.requests[i].phase.Resumed?
  }

  /** What processQueue does to one waiter. */
  function Deliver(r: Request, result: RefreshResult): Request {
    r.(phase := if result.NewToken? then Resumed(result.token) else Settled(false))
  }

  function ProcessQueue(requests: seq<Request>, queue: seq<nat>, result: RefreshResult): seq<Request> {
    seq(|requests|, i requires 0 <= i < |requests| => if i in queue then Deliver(requests[i], result) else requests[i])
  }

  function CountSettled(settles: seq<nat>, queue: seq<nat>): seq<nat> {
    seq(|settles|, i requires 0 <= i < |settles| => if i in queue then settles[i] + 1 else settles[i])
  }

  function Latest(stored: Option<Token>, handed: Token): Option<Token> {
    if stored.Some? then stored else Some(handed)
  }

  /** One callback; an event that cannot happen leaves the client alone. */
  function Step(c: Client, e: Event): Client {
    if !CanHappen(c, e) then c
    else
      var i, r := e.i, c.requests[e.i];
      match e
      case Respond(_, answer) =>
        if answer.Success? then c.(requests := c.requests[i := r.(phase := Settled(true))])
        else if answer.OtherFailure? || r.retried || r.isPublic then
          c.(requests := c.requests[i := r.(phase := Settled(false))])
        else if c.isRefreshing then
          c.(requests := c.requests[i := r.(phase := Waiting)], failedQueue := c.failedQueue + [i],
             waits := c.waits[i := c.waits[i] + 1])
        else
          c.(requests := c.requests[i := r.(phase := Leading, retried := true)], isRefreshing := true,
             refreshCalls := c.refreshCalls + 1)
      case Resend(_) =>
        // the request interceptor puts the store's token, when there is one, over the one handed to the waiter
        c.(requests := c.requests[i := r.(phase := InFlight, auth := AuthOf(Latest(c.accessToken, r.phase.token)))])
      case RefreshDone(_, result) =>
        var token := if result.NewToken? then Some(result.token) else None;
        var leader :=
          if result.RefreshFailed? then r.(phase := Settled(false))
          else r.(phase := InFlight, auth := if token.Some? then Bearer(token.value) else BearerUndefined);
        c.(requests := ProcessQueue(c.requests, c.failedQueue, result)[i := leader],
           settles := CountSettled(c.settles, c.failedQueue), failedQueue := [], isRefreshing := false,
           accessToken := token)
  }

  function Run(c: Client, events: seq<Event>): Client
    decreases |events|
  {
    if events == [] then c else Step(Run(c, events[..|events| - 1]), events[|events| - 1])
  }

  // ----- the invariant

  function OneIfRetried(r: Request): nat { if r.retried then 1 else 0 }

  function Retried(requests: seq<Request>): nat { Total(requests, OneIfRetried) }

  /** failedQueue holds each waiting request once, and nothing else. */
  ghost predicate QueueIsWaiters(c: Client) {
    && (forall k :: 0 <= k < |c.failedQueue| ==>
          c.failedQueue[k] < |c.requests| && c.requests[c.failedQueue[k]].phase.Waiting?)
    && (forall j, k :: 0 <= j < k < |c.failedQueue| ==> c.failedQueue[j] != c.failedQueue[k])
    && (forall i :: 0 <= i < |c.requests| && c.requests[i].phase.Waiting? ==> i in c.failedQueue)
  }

  /** The flag is up exactly while one request leads, and nobody waits without a leader. */
  ghost predicate OneLeader(c: Client) {
    && (c.isRefreshing <==> exists i :: 0 <= i < |c.requests| && c.requests[i].phase.Leading?)
    && (forall i, j :: 0 <= i < j < |c.requests| ==> !(c.requests[i].phase.Leading? && c.requests[j].phase.Leading?))
    && (c.failedQueue != [] ==> c.isRefreshing)
  }

  ghost predicate FlagsSpent(c: Client) {
    && (forall i :: 0 <= i < |c.requests| && c.requests[i].phase.Leading? ==> c.requests[i].retried)
    && (forall i :: 0 <= i < |c.requests| && c.requests[i].phase.Waiting? ==>
          !c.requests[i].retried && !c.requests[i].isPublic)
    && c.refreshCalls == Retried(c.requests)
  }

  /** Every promise put into the queue is settled once, when it leaves it. */
  ghost predicate SettledOnce(c: Client) {
    && |c.waits| == |c.settles| == |c.requests|
    && forall i :: 0 <= i < |c.requests| ==>
      c.waits[i] == c.settles[i] + (if c.requests[i].phase.Waiting? then 1 else 0)
  }

  ghost predicate Inv(c: Client) {
    QueueIsWaiters(c) && OneLeader(c) && FlagsSpent(c) && SettledOnce(c)
  }

  lemma {:induction false} RetriedSame(a: seq<Request>, b: seq<Request>)
    requires |a| == |b| && forall i :: 0 <= i < |a| ==> a[i].retried == b[i].retried
    ensures Retried(a) == Retried(b)
  {
    if a != [] {
      RetriedSame(a[..|a| - 1], b[..|b| - 1]);
    }
  }

  lemma {:induction false} RetriedBounds(requests: seq<Request>)
    ensures Retried(requests) <= |requests|
    ensures Retried(requests) == 0 <==> forall i :: 0 <= i < |requests| ==> !requests[i].retried
  {
    if requests != [] {
      RetriedBounds(requests[..|requests| - 1]);
    }
  }

  lemma InitialInv(publics: seq<bool>, token: Option<Token>)
    ensures Inv(Initial(publics, token))
  {
    RetriedBounds(Initial(publics, token).requests);
  }

  /** A request that neither leads nor waits, before or after, changes nothing about queue and leader. */
  lemma QuietChangeKeepsInv(c: Client, d: Client, i: nat, r: Request)
    requires Inv(c) && i < |c.requests| && d == c.(requests := c.requests[i := r])
    requires !c.requests[i].phase.Leading? && !c.requests[i].phase.Waiting? && !r.phase.Leading? && !r.phase.Waiting?
    requires r.retried == c.requests[i].retried
    ensures Inv(d)
  {
    TotalUpdate(c.requests, OneIfRetried, i, r);
    LeaderSurvives(c, d, i);
  }

  lemma LeaderSurvives(c: Client, d: Client, i: nat)
    requires i < |c.requests| == |d.requests| && !c.requests[i].phase.Leading?
    requires forall j :: 0 <= j < |c.requests| && j != i ==> d.requests[j] == c.requests[j]
    ensures (exists l :: 0 <= l < |c.requests| && c.requests[l].phase.Leading?) ==>
              exists l :: 0 <= l < |d.requests| && d.requests[l].phase.Leading?
  {
    if l :| 0 <= l < |c.requests| && c.requests[l].phase.Leading? {
      assert d.requests[l].phase.Leading?;
    }
  }

  lemma JoiningKeepsInv(c: Client, d: Client, i: nat)
    requires Inv(c) && i < |c.requests| && c.isRefreshing
    requires c.requests[i].phase.InFlight? && !c.requests[i].retried && !c.requests[i].isPublic
    requires d == c.(requests := c.requests[i := c.requests[i].(phase := Waiting)], failedQueue := c.failedQueue + [i],
                     waits := c.waits[i := c.waits[i] + 1])
    ensures Inv(d)
  {
    TotalUpdate(c.requests, OneIfRetried, i, d.requests[i]);
    LeaderSurvives(c, d, i);
    JoiningKeepsQueue(c, d, i);
  }

  lemma JoiningKeepsQueue(c: Client, d: Client, i: nat)
    requires QueueIsWaiters(c) && i < |c.requests| && c.requests[i].phase.InFlight?
    requires d.requests == c.requests[i := c.requests[i].(phase := Waiting)] && d.failedQueue == c.failedQueue + [i]
    ensures QueueIsWaiters(d)
  {
    assert d.failedQueue[|c.failedQueue|] == i;
    assert forall j :: j in c.failedQueue ==> j in d.failedQueue;
  }

  lemma LeadingKeepsInv(c: Client, d: Client, i: nat)
    requires Inv(c) && i < |c.requests| && !c.isRefreshing
    requires c.requests[i].phase.InFlight? && !c.requests[i].retried
    requires d == c.(requests := c.requests[i := c.requests[i].(phase := Leading, retried := true)],
                     isRefreshing := true,
                     refreshCalls := c.refreshCalls + 1)
    ensures Inv(d)
  {
    TotalUpdate(c.requests, OneIfRetried, i, d.requests[i]);
    assert d.requests[i].phase.Leading?;
    assert c.failedQueue == [];
  }

  lemma RespondKeepsInv(c: Client, i: nat, answer: Answer)
    requires Inv(c) && CanHappen(c, Respond(i, answer))
    ensures Inv(Step(c, Respond(i, answer)))
  {
    var d := Step(c, Respond(i, answer));
    if d.requests[i].phase.Leading? {
      LeadingKeepsInv(c, d, i);
    } else if d.requests[i].phase.Waiting? {
      JoiningKeepsInv(c, d, i);
    } else {
      QuietChangeKeepsInv(c, d, i, d.requests[i]);
    }
  }

  lemma ResendKeepsInv(c: Client, i: nat)
    requires Inv(c) && CanHappen(c, Resend(i))
    ensures Inv(Step(c, Resend(i)))
  {
    var d := Step(c, Resend(i));
    QuietChangeKeepsInv(c, d, i, d.requests[i]);
  }

  /** What the end of a refresh leaves: no leader, no waiter, every other request as it was. */
  lemma RefreshDoneShape(c: Client, i: nat, result: RefreshResult)
    requires Inv(c) && CanHappen(c, RefreshDone(i, result))
    ensures var d := Step(c, RefreshDone(i, result));
            && |d.requests| == |d.settles| == |c.requests| && d.waits == c.waits
            && d.failedQueue == [] && !d.isRefreshing && d.refreshCalls == c.refreshCalls
            && (forall j :: 0 <= j < |c.requests| && j != i ==>
                  d.requests[j] == if c.requests[j].phase.Waiting? then Deliver(c.requests[j], result)
                      else c.requests[j])
            && (forall j :: 0 <= j < |c.requests| ==>
                  d.settles[j] == if c.requests[j].phase.Waiting? then c.settles[j] + 1 else c.settles[j])
            && d.requests[i].retried == c.requests[i].retried
            && d.requests[i].phase == (if result.RefreshFailed? then Settled(false) else InFlight)
  {
    assert forall j :: 0 <= j < |c.requests| ==> (j in c.failedQueue <==> c.requests[j].phase.Waiting?);
  }

  lemma RefreshDoneKeepsInv(c: Client, i: nat, result: RefreshResult)
    requires Inv(c) && CanHappen(c, RefreshDone(i, result))
    ensures Inv(Step(c, RefreshDone(i, result)))
  {
    RefreshDoneShape(c, i, result);
    var d := Step(c, RefreshDone(i, result));
    SettledQueueKeepsInv(c, d, i);
  }

  lemma SettledQueueKeepsInv(c: Client, d: Client, i: nat)
    requires Inv(c) && i < |c.requests| == |d.requests| == |d.settles| && d.waits == c.waits
    requires c.requests[i].phase.Leading?
    requires d.failedQueue == [] && !d.isRefreshing && d.refreshCalls == c.refreshCalls
    requires forall j :: 0 <= j < |c.requests| ==> d.requests[j].retried == c.requests[j].retried
    requires forall j :: 0 <= j < |c.requests| ==>
        !d.requests[j].phase.Waiting? && (d.requests[j].phase.Leading? ==> j != i && c.requests[j].phase.Leading?)
    requires forall j :: 0 <= j < |c.requests| ==>
        d.settles[j] == if c.requests[j].phase.Waiting? then c.settles[j] + 1 else c.settles[j]
    ensures Inv(d)
  {
    RetriedSame(c.requests, d.requests);
    assert forall j :: 0 <= j < |d.requests| ==> !d.requests[j].phase.Leading?;
  }

  lemma {:induction false} RunKeepsInv(c: Client, events: seq<Event>)
    requires Inv(c)
    ensures Inv(Run(c, events)) && |Run(c, events).requests| == |c.requests|
    decreases |events|
  {
    if events != [] {
      RunKeepsInv(c, events[..|events| - 1]);
      var mid, e := Run(c, events[..|events| - 1]), events[|events| - 1];
      if CanHappen(mid, e) {
        match e
        case Respond(i, answer) => RespondKeepsInv(mid, i, answer);
        case RefreshDone(i, result) => RefreshDoneKeepsInv(mid, i, result);
        case Resend(i) => ResendKeepsInv(mid, i);
      }
    }
  }

  // ----- safety of every run

  /**
   Over all interleavings of n requests: at most one refresh is in flight, a non-empty queue has a
   refresh to wait for, at most n refresh calls are made, and no promise is settled twice.
   */
  lemma RefreshIsSingleFlight(publics: seq<bool>, token: Option<Token>, events: seq<Event>)
    ensures var c := Run(Initial(publics, token), events);
            && OneLeader(c) && QueueIsWaiters(c)
            && c.refreshCalls <= |publics|
            && |c.waits| == |c.settles| == |c.requests| == |publics|
            && forall i :: 0 <= i < |publics| ==> c.settles[i] <= c.waits[i] <= c.settles[i] + 1
  {
    InitialInv(publics, token);
    RunKeepsInv(Initial(publics, token), events);
    RetriedBounds(Run(Initial(publics, token), events).requests);
  }

  /** The end of a refresh empties the queue and settles every waiter, all of them the same way. */
  lemma RefreshSettlesEveryWaiter(c: Client, i: nat, result: RefreshResult)
    requires Inv(c) && CanHappen(c, RefreshDone(i, result))
    ensures var d := Step(c, RefreshDone(i, result));
            && d.failedQueue == [] && !d.isRefreshing
            && (forall j :: 0 <= j < |c.requests| && c.requests[j].phase.Waiting? ==>
                  && d.settles[j] == d.waits[j] == c.settles[j] + 1
                  && d.requests[j].phase == (if result.NewToken? then Resumed(result.token) else Settled(false)))
            && (forall j :: 0 <= j < |c.requests| && !c.requests[j].phase.Waiting? && j != i ==>
                  d.requests[j] == c.requests[j])
            && d.requests[i].phase == (if result.RefreshFailed? then Settled(false) else InFlight)
  {
    RefreshDoneShape(c, i, result);
  }

  // ----- tokens and headers

  /** What a refresh leaves in the store, and what its leader sends next. */
  lemma RefreshDoneTokens(c: Client, i: nat, result: RefreshResult)
    requires Inv(c) && CanHappen(c, RefreshDone(i, result))
    ensures var d := Step(c, RefreshDone(i, result));
            match result
            case NewToken(k) =>
              d.accessToken == Some(k) && d.requests[i].phase.InFlight? && d.requests[i].auth == Bearer(k)
            case NoToken =>
              d.accessToken == None && d.requests[i].phase.InFlight? && d.requests[i].auth == BearerUndefined
            case RefreshFailed => d.accessToken == None && d.requests[i].phase == Settled(false)
  {
    RefreshDoneShape(c, i, result);
  }

  /** A refresh ends at this event. */
  predicate EndsRefresh(c: Client, e: Event) { e.RefreshDone? && CanHappen(c, e) }

  /** The token of the last refresh that ended, or the one there was at the start. */
  function LastToken(c: Client, events: seq<Event>): Option<Token>
    decreases |events|
  {
    if events == [] then c.accessToken
    else
      var init, last := events[..|events| - 1], events[|events| - 1];
      if !EndsRefresh(Run(c, init), last) then LastToken(c, init)
      else if last.result.NewToken? then Some(last.result.token)
      else None
  }

  /** Nothing but the end of a refresh changes the store. */
  lemma {:induction false} StoreHoldsLastToken(c: Client, events: seq<Event>)
    ensures Run(c, events).accessToken == LastToken(c, events)
    decreases |events|
  {
    if events != [] {
      StoreHoldsLastToken(c, events[..|events| - 1]);
    }
  }

  ghost predicate NoRefreshEnds(c: Client, events: seq<Event>)
    decreases |events|
  {
    events != [] ==>
      && NoRefreshEnds(c, events[..|events| - 1])
      && !EndsRefresh(Run(c, events[..|events| - 1]), events[|events| - 1])
  }

  /** A resolved waiter keeps its token until its callback runs, and the store keeps its own. */
  lemma {:induction false} ResumedWaits(c: Client, events: seq<Event>, j: nat)
    requires j < |c.requests| == |c.waits| == |c.settles| && c.requests[j].phase.Resumed?
    requires NoRefreshEnds(c, events) && forall n :: 0 <= n < |events| ==> events[n] != Resend(j)
    ensures var d := Run(c, events);
            && |d.requests| == |d.waits| == |d.settles| == |c.requests|
            && d.requests[j].phase == c.requests[j].phase && d.accessToken == c.accessToken
    decreases |events|
  {
    if events != [] {
      ResumedWaits(c, events[..|events| - 1], j);
    }
  }

  /**
   When a refresh ends with a token, every request that waited for it goes out with that token, whatever
   runs before its callback does, as long as no further refresh ends before.
   */
  lemma WaiterResendsWithNewToken(c: Client, i: nat, k: Token, events: seq<Event>, j: nat)
    requires Inv(c) && CanHappen(c, RefreshDone(i, NewToken(k))) && j < |c.requests| && c.requests[j].phase.Waiting?
    requires NoRefreshEnds(Step(c, RefreshDone(i, NewToken(k))), events)
    requires forall n :: 0 <= n < |events| ==> events[n] != Resend(j)
    ensures var d := Run(Step(c, RefreshDone(i, NewToken(k))), events);
            && CanHappen(d, Resend(j))
            && Step(d, Resend(j)).requests[j].phase.InFlight? && Step(d, Resend(j)).requests[j].auth == Bearer(k)
  {
    RefreshDoneShape(c, i, NewToken(k));
    RefreshDoneTokens(c, i, NewToken(k));
    ResumedWaits(Step(c, RefreshDone(i, NewToken(k))), events, j);
  }

  /** In general a waiter goes out with the store's token, and with the one it was handed if the store has none. */
  lemma WaiterResends(c: Client, j: nat)
    requires CanHappen(c, Resend(j))
    ensures var d := Step(c, Resend(j));
            && d.requests[j].phase.InFlight? && d.accessToken == c.accessToken
            && (c.accessToken.Some? ==> d.requests[j].auth == Bearer(c.accessToken.value))
            && (c.accessToken.None? ==> d.requests[j].auth == Bearer(c.requests[j].phase.token))
  {
  }

  /** No callback touches the header of another request than its own, and answers touch none. */
  lemma HeadersStay(c: Client, e: Event, j: nat)
    requires Inv(c) && j < |c.requests| && (e.i != j || e.Respond?)
    ensures j < |Step(c, e).requests| && Step(c, e).requests[j].auth == c.requests[j].auth
  {
    if CanHappen(c, e) && e.RefreshDone? {
      RefreshDoneShape(c, e.i, e.result);
    }
  }

  /** A public path goes out once, without a token, whatever the others do; the rest start with the store's token. */
  lemma {:induction false} PublicGoesWithoutToken(publics: seq<bool>, token: Option<Token>, events: seq<Event>, i: nat)
    requires i < |publics|
    ensures var r0 := Initial(publics, token).requests[i];
            r0.phase.InFlight? && (!publics[i] ==> r0.auth == if token.Some? then Bearer(token.value) else NoAuth)
    ensures var c := Run(Initial(publics, token), events);
            && i < |c.requests|
            && (publics[i] ==>
                  c.requests[i].auth == NoAuth && (c.requests[i].phase.InFlight? || c.requests[i].phase.Settled?))
            && (publics[i] <==> c.requests[i].isPublic)
    decreases |events|
  {
    if events != [] {
      var init := events[..|events| - 1];
      PublicGoesWithoutToken(publics, token, init, i);
      InitialInv(publics, token);
      RunKeepsInv(Initial(publics, token), init);
      PublicStep(Run(Initial(publics, token), init), events[|events| - 1], i);
    }
  }

  lemma PublicStep(c: Client, e: Event, i: nat)
    requires Inv(c) && i < |c.requests|
    ensures i < |Step(c, e).requests| && Step(c, e).requests[i].isPublic == c.requests[i].isPublic
    ensures c.requests[i].isPublic && (c.requests[i].phase.InFlight? || c.requests[i].phase.Settled?) ==>
              var r := Step(c, e).requests[i];
              r.auth == c.requests[i].auth && (r.phase.InFlight? || r.phase.Settled?)
  {
    if CanHappen(c, e) && e.RefreshDone? {
      RefreshDoneShape(c, e.i, e.result);
    }
  }

  // ----- what the callers get

  /** An answer settles its request, unless it is the first 401 of a path that needs a token. */
  lemma AnswerDecides(c: Client, i: nat, answer: Answer)
    requires CanHappen(c, Respond(i, answer))
    ensures var d, r := Step(c, Respond(i, answer)), c.requests[i];
            && (d.requests[i].phase == Settled(true) <==> answer.Success?)
            && (d.requests[i].phase == Settled(false) <==>
                  answer.OtherFailure? || (answer.Unauthorized? && (r.retried || r.isPublic)))
            && (answer.Unauthorized? && !r.retried && !r.isPublic ==>
                  if c.isRefreshing then d.requests[i].phase.Waiting? && d.refreshCalls == c.refreshCalls
                  else d.requests[i].phase.Leading? && d.requests[i].retried && d.refreshCalls == c.refreshCalls + 1)
  {
  }

  /** Request `i` got a good answer somewhere along the run. */
  ghost predicate GotSuccess(c: Client, events: seq<Event>, i: nat)
    decreases |events|
  {
    && events != []
    && var init, last := events[..|events| - 1], events[|events| - 1];
       GotSuccess(c, init, i) || (last == Respond(i, Success) && CanHappen(Run(c, init), last))
  }

  lemma SuccessStep(c: Client, e: Event, i: nat)
    requires Inv(c) && i < |c.requests|
    ensures i < |Step(c, e).requests|
    ensures Step(c, e).requests[i].phase == Settled(true) <==>
            c.requests[i].phase == Settled(true) || (e == Respond(i, Success) && CanHappen(c, e))
  {
    if CanHappen(c, e) {
      match e
      case Respond(j, answer) => AnswerDecides(c, j, answer);
      case RefreshDone(j, result) => RefreshDoneShape(c, j, result);
      case Resend(_) =>
    }
  }

  /**
   A caller gets a response, and not an error, exactly when its request got one: retries lose nothing
   and invent nothing.
   */
  lemma {:induction false} CallerSucceedsIff(publics: seq<bool>, token: Option<Token>, events: seq<Event>, i: nat)
    requires i < |publics|
    ensures i < |Run(Initial(publics, token), events).requests|
    ensures Run(Initial(publics, token), events).requests[i].phase == Settled(true) <==>
            GotSuccess(Initial(publics, token), events, i)
    decreases |events|
  {
    if events != [] {
      var init := events[..|events| - 1];
      CallerSucceedsIff(publics, token, init, i);
      InitialInv(publics, token);
      RunKeepsInv(Initial(publics, token), init);
      SuccessStep(Run(Initial(publics, token), init), events[|events| - 1], i);
    }
  }

  ghost predicate Quiescent(c: Client) {
    forall e :: !CanHappen(c, e)
  }

  /** Nobody is forgotten: when no callback is left to run, every request has its response or its error. */
  lemma QuiescentMeansAllSettled(publics: seq<bool>, token: Option<Token>, events: seq<Event>)
    requires Quiescent(Run(Initial(publics, token), events))
    ensures var c := Run(Initial(publics, token), events);
            && c.failedQueue == [] && !c.isRefreshing && |c.waits| == |c.settles| == |c.requests|
            && forall i :: 0 <= i < |c.requests| ==> c.requests[i].phase.Settled? && c.waits[i] == c.settles[i]
  {
    InitialInv(publics, token);
    RunKeepsInv(Initial(publics, token), events);
    var c := Run(Initial(publics, token), events);
    forall i | 0 <= i < |c.requests|
      ensures !c.requests[i].phase.InFlight? && !c.requests[i].phase.Leading? && !c.requests[i].phase.Resumed?
    {
      assert !CanHappen(c, Respond(i, Success)) && !CanHappen(c, RefreshDone(i, NoToken)) && !CanHappen(c, Resend(i));
    }
  }

  // ----- termination

  function Weight(r: Request): nat {
    match r.phase
    case Resumed(_) => 3
    case InFlight => 2
    case Waiting => 1
    case _ => 0
  }

  function Weights(requests: seq<Request>): nat { Total(requests, Weight) }

  /** Unspent _retry flags count two, a refresh in flight one; ties are broken by the pending work. */
  function Rounds(c: Client): int {
    2 * (|c.requests| - Retried(c.requests)) + (if c.isRefreshing then 1 else 0)
  }

  function Measure(c: Client): int {
    Rounds(c) * (3 * |c.requests| + 1) + Weights(c.requests)
  }

  lemma {:induction false} WeightsBound(requests: seq<Request>)
    ensures Weights(requests) <= 3 * |requests|
    ensures (forall i :: 0 <= i < |requests| ==> requests[i].phase.InFlight?) ==> Weights(requests) == 2 * |requests|
  {
    if requests != [] {
      WeightsBound(requests[..|requests| - 1]);
    }
  }

  /** A refresh that ends uses up its round; every other callback changes one request. */
  lemma RefreshDoneEndsRound(c: Client, i: nat, result: RefreshResult)
    requires Inv(c) && CanHappen(c, RefreshDone(i, result))
    ensures Rounds(Step(c, RefreshDone(i, result))) == Rounds(c) - 1
  {
    RefreshDoneShape(c, i, result);
    RetriedSame(c.requests, Step(c, RefreshDone(i, result)).requests);
    assert c.requests[i].phase.Leading?;
  }

  /** The answer to a request: it leads, or there is less to do for it. */
  lemma AnswerCounts(c: Client, i: nat, answer: Answer)
    requires Inv(c) && CanHappen(c, Respond(i, answer))
    ensures var d := Step(c, Respond(i, answer));
            Rounds(d) < Rounds(c) || (Rounds(d) == Rounds(c) && Weights(d.requests) < Weights(c.requests))
  {
    var d := Step(c, Respond(i, answer));
    TotalUpdate(c.requests, OneIfRetried, i, d.requests[i]);
    TotalUpdate(c.requests, Weight, i, d.requests[i]);
  }

  lemma ResendCounts(c: Client, i: nat)
    requires CanHappen(c, Resend(i))
    ensures var d := Step(c, Resend(i)); Rounds(d) == Rounds(c) && Weights(d.requests) < Weights(c.requests)
  {
    var d := Step(c, Resend(i));
    TotalUpdate(c.requests, OneIfRetried, i, d.requests[i]);
    TotalUpdate(c.requests, Weight, i, d.requests[i]);
  }

  lemma RoundsOrWork(c: Client, e: Event)
    requires Inv(c) && CanHappen(c, e) && !e.RefreshDone?
    ensures Rounds(Step(c, e)) < Rounds(c) ||
            (Rounds(Step(c, e)) == Rounds(c) && Weights(Step(c, e).requests) < Weights(c.requests))
  {
    match e
    case Respond(i, answer) => AnswerCounts(c, i, answer);
    case Resend(i) => ResendCounts(c, i);
  }

  /** Lexicographic descent as one number: a round outweighs all the work one round can hold. */
  lemma LexicographicDescent(r: int, r': int, w: nat, w': nat, n: nat)
    requires r' < r || (r' == r && w' < w)
    requires w' < n
    ensures r' * n + w' < r * n + w
  {
    if r' < r {
      assert (r - r' - 1) * n >= 0;
      assert (r - r' - 1) * n == r * n - r' * n - n;
    }
  }

  lemma CallbacksDecrease(c: Client, e: Event)
    requires Inv(c) && CanHappen(c, e)
    ensures Measure(Step(c, e)) < Measure(c)
  {
    var d := Step(c, e);
    if e.RefreshDone? {
      RefreshDoneEndsRound(c, e.i, e.result);
    } else {
      RoundsOrWork(c, e);
    }
    assert |d.requests| == |c.requests|;
    WeightsBound(d.requests);
    LexicographicDescent(Rounds(c), Rounds(d), Weights(c.requests), Weights(d.requests), 3 * |c.requests| + 1);
  }

  ghost predicate Effective(c: Client, events: seq<Event>)
    decreases |events|
  {
    events != [] ==>
      && Effective(c, events[..|events| - 1])
      && CanHappen(Run(c, events[..|events| - 1]), events[|events| - 1])
  }

  lemma {:induction false} RunsAreFinite(c: Client, events: seq<Event>)
    requires Inv(c) && Effective(c, events)
    ensures |events| + Measure(Run(c, events)) <= Measure(c)
    decreases |events|
  {
    if events != [] {
      var init := events[..|events| - 1];
      RunsAreFinite(c, init);
      RunKeepsInv(c, init);
      CallbacksDecrease(Run(c, init), events[|events| - 1]);
    }
  }

  lemma MeasureIsNatural(c: Client)
    ensures Measure(c) >= 0
  {
    RetriedBounds(c.requests);
    var rounds: nat, n: nat := Rounds(c), 3 * |c.requests| + 1;
    assert rounds * n >= 0;
  }

  lemma InitialMeasure(publics: seq<bool>, token: Option<Token>)
    ensures Measure(Initial(publics, token)) == 2 * |publics| * (3 * |publics| + 1) + 2 * |publics|
  {
    var c := Initial(publics, token);
    RetriedBounds(c.requests);
    WeightsBound(c.requests);
    assert Rounds(c) == 2 * |publics|;
  }

  /** n requests are over after at most 2n(3n + 1) + 2n callbacks: the interceptor cannot loop. */
  lemma InterceptorTerminates(publics: seq<bool>, token: Option<Token>, events: seq<Event>)
    requires Effective(Initial(publics, token), events)
    ensures |events| <= 2 * |publics| * (3 * |publics| + 1) + 2 * |publics|
  {
    InitialInv(publics, token);
    RunsAreFinite(Initial(publics, token), events);
    MeasureIsNatural(Run(Initial(publics, token), events));
    InitialMeasure(publics, token);
  }

  // ----- the interceptor

  /** One more turn of forEach. */
  lemma DrainOne(requests: seq<Request>, settles: seq<nat>, queue: seq<nat>, k: nat, result: RefreshResult)
    requires k < |queue| && queue[k] < |requests| == |settles|
    requires forall j :: 0 <= j < k ==> queue[j] != queue[k]
    ensures var some := ProcessQueue(requests, queue[..k], result);
            ProcessQueue(requests, queue[..k + 1], result) == some[queue[k] := Deliver(some[queue[k]], result)]
    ensures var some := CountSettled(settles, queue[..k]);
            CountSettled(settles, queue[..k + 1]) == some[queue[k] := some[queue[k]] + 1]
  {
    assert queue[..k + 1] == queue[..k] + [queue[k]];
  }

  class Interceptor {
    var requests: seq<Request>
    var isRefreshing: bool
    var failedQueue: seq<nat>
    var accessToken: Option<Token>
    var refreshCalls: nat
    ghost var waits: seq<nat>
    ghost var settles: seq<nat>

    ghost function State(): Client
      reads this
    {
      Client(requests, isRefreshing, failedQueue, accessToken, refreshCalls, waits, settles)
    }

    constructor (publics: seq<bool>, token: Option<Token>)
      ensures State() == Initial(publics, token)
    {
      requests := seq(|publics|, i requires 0 <= i < |publics| => Sent(publics[i], token));
      isRefreshing, failedQueue, accessToken, refreshCalls := false, [], token, 0;
      waits, settles := seq(|publics|, _ => 0), seq(|publics|, _ => 0);
    }

    /** processQueue: failedQueue.forEach(..), then failedQueue = []. */
    method Drain(result: RefreshResult)
      requires |requests| == |settles| && forall k :: 0 <= k < |failedQueue| ==> failedQueue[k] < |requests|
      requires forall j, k :: 0 <= j < k < |failedQueue| ==> failedQueue[j] != failedQueue[k]
      modifies this
      ensures requests == ProcessQueue(old(requests), old(failedQueue), result)
      ensures settles == CountSettled(old(settles), old(failedQueue)) && failedQueue == []
      ensures unchanged(`isRefreshing, `accessToken, `refreshCalls, `waits)
    {
      ghost var before, counts := requests, settles;
      for k := 0 to |failedQueue|
        invariant unchanged(`isRefreshing, `accessToken, `refreshCalls, `waits, `failedQueue)
        invariant requests == ProcessQueue(before, failedQueue[..k], result)
        invariant settles == CountSettled(counts, failedQueue[..k])
      {
        var i := failedQueue[k];
        DrainOne(before, counts, failedQueue, k, result);
        requests := requests[i := Deliver(requests[i], result)];
        settles := settles[i := settles[i] + 1];
      }
      assert failedQueue[..|failedQueue|] == failedQueue;
      failedQueue := [];
    }

    /** The response interceptor up to its first await. */
    method OnResponse(i: nat, answer: Answer)
      requires Inv(State()) && CanHappen(State(), Respond(i, answer))
      modifies this
      ensures State() == Step(old(State()), Respond(i, answer)) && Inv(State())
    {
      RespondKeepsInv(State(), i, answer);
      var r := requests[i];
      if answer.Success? {
        requests := requests[i := r.(phase := Settled(true))];
      } else if answer.OtherFailure? || r.retried || r.isPublic {
        requests := requests[i := r.(phase := Settled(false))];
      } else if isRefreshing {
        failedQueue := failedQueue + [i];
        waits := waits[i := waits[i] + 1];
        requests := requests[i := r.(phase := Waiting)];
      } else {
        isRefreshing := true;
        refreshCalls := refreshCalls + 1;
        requests := requests[i := r.(phase := Leading, retried := true)];
      }
    }

    /** The rest of the leader's callback: try body or catch block, then finally. */
    method OnRefreshDone(i: nat, result: RefreshResult)
      requires Inv(State()) && CanHappen(State(), RefreshDone(i, result))
      modifies this
      ensures State() == Step(old(State()), RefreshDone(i, result)) && Inv(State())
    {
      RefreshDoneKeepsInv(State(), i, result);
      var r := requests[i];
      assert i !in failedQueue;
      if result.RefreshFailed? {
        Drain(result);
        accessToken := None;   // clearAuth
        requests := requests[i := r.(phase := Settled(false))];
      } else {
        accessToken := if result.NewToken? then Some(result.token) else None;
        Drain(result);
        var auth := if accessToken.Some? then Bearer(accessToken.value) else BearerUndefined;
        requests := requests[i := r.(phase := InFlight, auth := auth)];
      }
      isRefreshing := false;
    }

    /** The .then callback of a waiter. */
    method OnResumed(i: nat)
      requires Inv(State()) && CanHappen(State(), Resend(i))
      modifies this
      ensures State() == Step(old(State()), Resend(i)) && Inv(State())
    {
      ResendKeepsInv(State(), i);
      var r := requests[i];
      var token := if accessToken.Some? then accessToken.value else r.phase.token;
      requests := requests[i := r.(phase := InFlight, auth := Bearer(token))];
    }
  }
}
