/** Safety of the refresh protocol over every run, of any number of tabs and requests. */
module RefreshSafety {
  import opened Wrappers
  import opened Session
  import opened RefreshProtocol
  import opened RefreshInvariant

  /** One call to `/auth/refresh-token`, by who made it. */
  datatype Call = OfRequest(id: ReqId) | OfMigration(tab: Tab) | OfTab(promise: PromiseId)

  ghost predicate CallInFlight(s: State, c: Call) {
    match c
    case OfRequest(id) => id in s.requests && s.requests[id].phase.Renewing?
    case OfMigration(t) => MigrationOf(s.tabs, t).Moving?
    case OfTab(p) => p < |s.tabs.promises| && s.tabs.promises[p].Pending?
  }

  ghost function TabOf(s: State, c: Call): Tab
    requires CallInFlight(s, c)
  {
    match c
    case OfRequest(id) => s.requests[id].tab
    case OfMigration(t) => t
    case OfTab(p) => s.tabs.promises[p].tab
  }

  /** With the lock, one refresh in the whole browser; without it, one per tab. */
  lemma OneRefreshAtATime(s0: State, ls: seq<Label>, c: Call, d: Call)
    requires Init(s0) && Legal(s0, ls)
    requires var s := Exec(s0, ls); CallInFlight(s, c) && CallInFlight(s, d)
    requires var s := Exec(s0, ls); s.locks || TabOf(s, c) == TabOf(s, d)
    ensures c == d
  {
    var s := Exec(s0, ls);
    InitInv(s0);
    RunKeepsInv(s0, ls);
    assert c.OfRequest? ==> HoldsLock(s, ByRequest(c.id));
    assert d.OfRequest? ==> HoldsLock(s, ByRequest(d.id));
    assert c.OfMigration? ==> HoldsLock(s, ByMigration(c.tab));
    assert d.OfMigration? ==> HoldsLock(s, ByMigration(d.tab));
  }

  /**
    Every renewal answers an expiry, a 401 the API gave to a good token, or the one migration of a tab.
    So with nothing left to migrate and 401s that mean "expired", tokens rotate no more often than they expire.
   */
  lemma RenewalsArePaidFor(s0: State, ls: seq<Label>)
    requires Init(s0) && s0.locks && Legal(s0, ls)
    ensures var s := Exec(s0, ls);
      s.api.renewals <= s.api.expiries + s.api.refusals + |MigratedTabs(s.tabs)|
  {
    InitInv(s0);
    RunKeepsInv(s0, ls);
    LocksStay(s0, ls);
  }

  lemma {:induction false} LocksStay(s: State, ls: seq<Label>)
    requires Legal(s, ls)
    ensures Exec(s, ls).locks == s.locks
    decreases |ls|
  {
    if ls != [] {
      Footprint(s, ls[0]);
      LocksStay(Apply(s, ls[0]), ls[1..]);
    }
  }

  /** Neither a login nor a refresh is answered with readable tokens: the API keeps them in its own cookies. */
  predicate NoTokensHandedOut(ls: seq<Label>) {
    forall l | l in ls :: (l.Login? ==> l.access.None?) && (l.RefreshReturns? ==> !l.result.RenewedInBody?)
  }

  /** Readable tokens only ever go, and one renewal takes both. */
  ghost predicate TokensGo(s: State, s': State) {
    && (s.cookies.access.None? ==> s'.cookies.access.None?)
    && (s.cookies.refresh.None? ==> s'.cookies.refresh.None?)
    && s.api.renewals <= s'.api.renewals
    && (s.api.renewals < s'.api.renewals ==> s'.cookies.access.None? && s'.cookies.refresh.None?)
  }

  lemma StepTakesTokens(s: State, l: Label)
    requires Enabled(s, l) && NoTokensHandedOut([l])
    ensures TokensGo(s, Apply(s, l))
  {
    assert l in [l];
  }

  /** The first renewal moves an old session over for good: its readable tokens never come back. */
  lemma {:induction false} LegacyTokensGoForGood(s: State, ls: seq<Label>)
    requires Legal(s, ls) && NoTokensHandedOut(ls)
    ensures TokensGo(s, Exec(s, ls))
    decreases |ls|
  {
    if ls != [] {
      assert ls[0] in ls;
      StepTakesTokens(s, ls[0]);
      LegacyTokensGoForGood(Apply(s, ls[0]), ls[1..]);
    }
  }

  lemma StepMigratesNothing(s: State, l: Label)
    requires LockInv(s) && Enabled(s, l)
    requires s.cookies.refresh.None? && s.tabs.migration == map[]
    ensures Apply(s, l).tabs.migration == map[]
  {
    assert forall t :: MigrationOf(s.tabs, t) == Unset;
    assert s.lock.holder.Some? ==> HoldsLock(s, s.lock.holder.value);
    assert |s.lock.queue| > 0 ==> WantsLock(s, s.lock.queue[0]);
  }

  lemma {:induction false} NothingToMigrate(s: State, ls: seq<Label>)
    requires Inv(s) && Legal(s, ls) && NoTokensHandedOut(ls)
    requires s.cookies.refresh.None? && s.tabs.migration == map[]
    ensures Exec(s, ls).tabs.migration == map[]
    decreases |ls|
  {
    if ls != [] {
      assert ls[0] in ls;
      StepTakesTokens(s, ls[0]);
      StepMigratesNothing(s, ls[0]);
      KeepsInv(s, ls[0]);
      NothingToMigrate(Apply(s, ls[0]), ls[1..]);
    }
  }

  /** Once moved over, and as long as a 401 means "expired", tokens rotate no more often than they expire. */
  lemma RenewalsNeverExceedExpiries(s0: State, ls: seq<Label>)
    requires Init(s0) && s0.locks && s0.cookies.refresh.None?
    requires Legal(s0, ls) && NoTokensHandedOut(ls) && Exec(s0, ls).api.refusals == 0
    ensures Exec(s0, ls).api.renewals <= Exec(s0, ls).api.expiries
  {
    InitInv(s0);
    NothingToMigrate(s0, ls);
    RenewalsArePaidFor(s0, ls);
    assert MigratedTabs(Exec(s0, ls).tabs) == {};
  }

  lemma ConsistentRequest(locks: bool, tabs: Tabs, q: Request)
    requires Consistent(locks, tabs, q)
    ensures q.sends <= 3 && q.refreshes <= 1
    ensures q.phase.InFlight? ==> !q.auth.EmptyBearer?
    ensures q.phase.Done? ==> CallerGets(locks, q.skip, q.history) == Some(q.phase.result)
  {
  }

  lemma ConsistentRefresh(locks: bool, tabs: Tabs, q: Request)
    requires Consistent(locks, tabs, q) && q.phase.Done?
    requires !q.phase.result.kind.Final? && q.phase.result != Rejected(First, Unauthorized)
    ensures q.refreshes == 0
  {
  }

  /** In the thick of it all, each caller gets what its request read on its own says it gets. */
  lemma CallerGetsItsAnswer(s0: State, ls: seq<Label>, id: ReqId)
    requires Init(s0) && Legal(s0, ls) && id in Exec(s0, ls).requests
    ensures var q := Exec(s0, ls).requests[id];
      && (q.phase.Done? ==> CallerGets(s0.locks, q.skip, q.history) == Some(q.phase.result))
      && q.sends <= 3 && q.refreshes <= 1
      && (q.phase.Done? && !q.phase.result.kind.Final? && q.phase.result != Rejected(First, Unauthorized) ==> q.refreshes == 0)
      && (q.phase.InFlight? ==> !q.auth.EmptyBearer?)
  {
    InitInv(s0);
    RunKeepsInv(s0, ls);
    LocksStay(s0, ls);
    var s := Exec(s0, ls);
    var q := s.requests[id];
    ConsistentRequest(s0.locks, s.tabs, q);
    if q.phase.Done? && !q.phase.result.kind.Final? && q.phase.result != Rejected(First, Unauthorized) {
      ConsistentRefresh(s0.locks, s.tabs, q);
    }
  }

  // ----- what a refresh call offers, and what it leaves -----

  /** The readable token a call in flight took with it, if any. */
  ghost function Offered(s: State, c: Call): Option<Token>
    requires CallInFlight(s, c)
  {
    match c
    case OfRequest(id) => s.requests[id].phase.offered
    case OfMigration(t) => MigrationOf(s.tabs, t).offered
    case OfTab(p) => s.tabs.promises[p].offered
  }

  ghost predicate OffersRight(s: State, s': State, c: Call)
    requires CallInFlight(s', c)
  {
    Offered(s', c) == if CallInFlight(s, c) then Offered(s, c) else s.cookies.refresh
  }

  lemma RequestOffers(s: State, l: Label, id: ReqId)
    requires Inv(s) && Enabled(s, l) && CallInFlight(Apply(s, l), OfRequest(id))
    ensures OffersRight(s, Apply(s, l), OfRequest(id))
  {
    Footprint(s, l);
    if Moves(s, l, id) { RenewingStarts(s, l, id); }
  }

  lemma MigrationOffers(s: State, l: Label, t: Tab)
    requires Inv(s) && Enabled(s, l) && CallInFlight(Apply(s, l), OfMigration(t))
    ensures OffersRight(s, Apply(s, l), OfMigration(t))
  {
    if l.Grant? { assert WantsLock(s, s.lock.queue[0]); }
  }

  lemma TabOffers(s: State, l: Label, p: PromiseId)
    requires Inv(s) && Enabled(s, l) && CallInFlight(Apply(s, l), OfTab(p))
    ensures OffersRight(s, Apply(s, l), OfTab(p))
  {
  }

  /** Whoever makes it, a new call offers the readable refresh token of that moment; one under way keeps what it took. */
  lemma OffersCurrentToken(s: State, l: Label, c: Call)
    requires Inv(s) && Enabled(s, l) && CallInFlight(Apply(s, l), c)
    ensures Offered(Apply(s, l), c) == if CallInFlight(s, c) then Offered(s, c) else s.cookies.refresh
  {
    match c
    case OfRequest(id) => RequestOffers(s, l, id);
    case OfMigration(t) => MigrationOffers(s, l, t);
    case OfTab(p) => TabOffers(s, l, p);
  }

  /** The readable token a refresh in flight offered, if any. */
  function OfferedBy(s: State, call: Refresher): Option<Token>
    requires RefreshInFlight(s, call)
  {
    match call
    case TabPromise(p) => s.tabs.promises[p].offered
    case LockHolder =>
      match s.lock.holder.value
      case ByRequest(id) => s.requests[id].phase.offered
      case ByMigration(t) => MigrationOf(s.tabs, t).offered
  }

  /**
    What a refresh leaves readable: the body's tokens, or none at all once the HttpOnly cookies have
    taken over; without an answer, what there was. A refused token is dropped, and nothing else.
   */
  lemma RefreshLeaves(s: State, call: Refresher, a: RefreshAnswer)
    requires Enabled(s, RefreshReturns(call, a))
    ensures var c, c' := s.cookies, Apply(s, RefreshReturns(call, a)).cookies;
      match a
      case RenewedInCookies => c' == Cookies(None, None, true)
      case RenewedInBody(access, refresh) =>
        c'.access == Some(access) && c'.loggedIn == c.loggedIn && (if refresh.Some? then c'.refresh == refresh else c'.refresh == c.refresh)
      case Refused(hadCookie) =>
        if OfferedBy(s, call).Some? then c' == Cookies(c.access, None, c.loggedIn)
        else if hadCookie then c' == Cookies(None, None, false) else c' == c
      case NoAnswer => c' == c
  {
  }

  /** A login leaves its readable tokens if it has any, and otherwise the flag alone. */
  lemma LoginLeaves(s: State, access: Option<Token>, refresh: Option<Token>)
    ensures var c := Apply(s, Login(access, refresh)).cookies;
      if access.None? then c == Cookies(None, None, true)
      else c.access == access && c.refresh == (if refresh.Some? then refresh else s.cookies.refresh) && c.loggedIn == s.cookies.loggedIn
  {
  }

  // ----- the old session of a tab -----

  /** How far a tab's migration has come. */
  function Progress(m: Migration): nat {
    match m
    case Unset => 0
    case Queued => 1
    case InTab(_) => 1
    case Moving(_) => 2
    case Moved(_) => 3
  }

  /** A tab tries to move its old session over once: a migration only goes forward, and its outcome is the refresh call's. */
  lemma MigratesOnce(s: State, l: Label, t: Tab)
    requires Inv(s) && Enabled(s, l)
    ensures var m, m' := MigrationOf(s.tabs, t), MigrationOf(Apply(s, l).tabs, t);
      && (m == m' || Progress(m) < Progress(m'))
      && (m.Unset? && !m'.Unset? ==> l.Dispatch? && s.requests[l.id].tab == t && s.cookies.refresh.Some? && !m'.Moved?)
      && (m.Moving? && !m'.Moving? ==> l.RefreshReturns? && m' == Moved(Renewed(l.result)))
  {
    if l.Grant? { assert WantsLock(s, s.lock.queue[0]); }
    if l.RefreshReturns? && l.call.LockHolder? { assert HoldsLock(s, s.lock.holder.value); }
  }

  // ----- forgetting the login -----

  /** The two endings of a request that drop the login. */
  predicate EndsSession(skip: bool, told: seq<Event>) {
    && !skip
    && |told| > 0
    && told[|told| - 1] in {Event.Refreshed(false), Answered(Final, Unauthorized)}
  }

  ghost predicate EndedSession(s: State, id: ReqId) {
    id in s.requests && s.requests[id].phase.Done? && EndsSession(s.requests[id].skip, s.requests[id].history)
  }

  /** The API refuses the HttpOnly cookie, to whichever request or migration asked. */
  predicate CookieRefused(s: State, l: Label)
    requires Enabled(s, l)
  {
    l.RefreshReturns? && l.result == RefreshAnswer.Refused(true) && OfferedBy(s, l.call).None?
  }

  /** A request ends the session: its refresh failed, or its last replay got a 401. */
  ghost predicate RequestEnds(s: State, l: Label)
    requires Enabled(s, l)
  {
    (l.Receive? || l.Resume?) && EndedSession(Apply(s, l), l.id)
  }

  lemma EndedIsForgotten(s: State, l: Label)
    requires RequestInv(s) && Enabled(s, l) && RequestEnds(s, l)
    ensures Apply(s, l).cookies == Cookies(None, None, false)
  {
    assert Consistent(s.locks, s.tabs, s.requests[l.id]);
  }

  lemma OnlyLastAnswerForgets(s: State, id: ReqId, a: Answer)
    requires RequestInv(s) && Enabled(s, Receive(id, a)) && !s.requests[id].phase.kind.Final?
    ensures Apply(s, Receive(id, a)).cookies == s.cookies
  {
    assert Consistent(s.locks, s.tabs, s.requests[id]);
  }

  lemma AnswerForgets(s: State, id: ReqId, a: Answer)
    requires RequestInv(s) && Enabled(s, Receive(id, a)) && Apply(s, Receive(id, a)).cookies != s.cookies
    ensures RequestEnds(s, Receive(id, a))
  {
    var q := s.requests[id];
    if !q.phase.kind.Final? { OnlyLastAnswerForgets(s, id, a); }
    assert Apply(s, Receive(id, a)).requests[id].history == q.history + [Answered(Final, a)];
  }

  lemma RefusalForgets(s: State, id: ReqId)
    requires RequestInv(s) && Enabled(s, Resume(id)) && Apply(s, Resume(id)).cookies != s.cookies
    ensures RequestEnds(s, Resume(id))
  {
    assert Consistent(s.locks, s.tabs, s.requests[id]);
  }

  /** The login is forgotten by exactly two kinds of step, and then all of it is. */
  lemma EndingForgetsEverything(s: State, l: Label)
    requires Inv(s) && Enabled(s, l) && s.cookies.loggedIn
    ensures !Apply(s, l).cookies.loggedIn <==> CookieRefused(s, l) || RequestEnds(s, l)
    ensures !Apply(s, l).cookies.loggedIn ==> Apply(s, l).cookies == Cookies(None, None, false)
  {
    if RequestEnds(s, l) { EndedIsForgotten(s, l); }
    if Apply(s, l).cookies != s.cookies {
      match l {
        case Receive(id, a) => AnswerForgets(s, id, a);
        case Resume(id) => RefusalForgets(s, id);
        case _ =>
      }
    }
  }

  /** Somewhere in a run, a step forgets the login. */
  ghost predicate ForgottenIn(s: State, ls: seq<Label>)
    requires Legal(s, ls)
    decreases |ls|
  {
    ls != [] && (CookieRefused(s, ls[0]) || RequestEnds(s, ls[0]) || ForgottenIn(Apply(s, ls[0]), ls[1..]))
  }

  lemma EndedStays(s: State, l: Label, id: ReqId)
    requires LockInv(s) && Enabled(s, l) && EndedSession(s, id)
    ensures EndedSession(Apply(s, l), id)
  {
    Footprint(s, l);
    if |s.lock.queue| > 0 { assert WantsLock(s, s.lock.queue[0]); }
  }

  lemma {:induction false} EndedStaysInRun(s: State, ls: seq<Label>, id: ReqId)
    requires Inv(s) && Legal(s, ls) && EndedSession(s, id)
    ensures EndedSession(Exec(s, ls), id)
    decreases |ls|
  {
    if ls != [] {
      EndedStays(s, ls[0], id);
      KeepsInv(s, ls[0]);
      EndedStaysInRun(Apply(s, ls[0]), ls[1..], id);
    }
  }

  ghost predicate SomeRequestEnded(s: State) {
    exists id :: EndedSession(s, id)
  }

  predicate RefusesCookie(l: Label) {
    l.RefreshReturns? && l.result == RefreshAnswer.Refused(true)
  }

  lemma {:induction false} ForgottenLeavesAMark(s: State, ls: seq<Label>)
    requires Inv(s) && Legal(s, ls) && ForgottenIn(s, ls)
    ensures SomeRequestEnded(Exec(s, ls)) || exists l :: l in ls && RefusesCookie(l)
    decreases |ls|
  {
    KeepsInv(s, ls[0]);
    if RequestEnds(s, ls[0]) {
      EndedStaysInRun(Apply(s, ls[0]), ls[1..], ls[0].id);
    } else if CookieRefused(s, ls[0]) {
      assert ls[0] in ls && RefusesCookie(ls[0]);
    } else {
      ForgottenLeavesAMark(Apply(s, ls[0]), ls[1..]);
      if l :| l in ls[1..] && RefusesCookie(l) { assert l in ls; }
    }
  }

  lemma {:induction false} ForgottenAtSomeStep(s: State, ls: seq<Label>)
    requires Inv(s) && Legal(s, ls) && s.cookies.loggedIn && !Exec(s, ls).cookies.loggedIn
    ensures ForgottenIn(s, ls)
    decreases |ls|
  {
    EndingForgetsEverything(s, ls[0]);
    KeepsInv(s, ls[0]);
    if Apply(s, ls[0]).cookies.loggedIn { ForgottenAtSomeStep(Apply(s, ls[0]), ls[1..]); }
  }

  /**
    A browser that was logged in and is no longer went through a step that ended the session: the API
    refused its HttpOnly cookie, or a request's refresh failed, or its last replay got a 401.
   */
  lemma LoginForgottenOnlyWhenSessionEnds(s0: State, ls: seq<Label>)
    requires Init(s0) && Legal(s0, ls) && s0.cookies.loggedIn && !Exec(s0, ls).cookies.loggedIn
    ensures ForgottenIn(s0, ls)
    ensures SomeRequestEnded(Exec(s0, ls)) || exists l :: l in ls && RefusesCookie(l)
  {
    InitInv(s0);
    ForgottenAtSomeStep(s0, ls);
    ForgottenLeavesAMark(s0, ls);
  }

  /** After a refresh the lock holder made, its last replay goes out with what the refresh left: the new token, or the cookies alone. */
  lemma ReplaysWithTheNewLogin(s: State, id: ReqId, a: RefreshAnswer)
    requires s.lock.holder == Some(ByRequest(id)) && Enabled(s, RefreshReturns(LockHolder, a)) && Renewed(a)
    ensures var s1 := Apply(s, RefreshReturns(LockHolder, a));
      && s1.lock.holder.None? && Enabled(s1, Resume(id))
      && (var q := Apply(s1, Resume(id)).requests[id];
          q.phase == Building(Final) && q.auth == if a.RenewedInBody? then Bearer(a.access) else NoAuth)
  {
  }

  /**
    When a request, or its last replay, is handed to axios: it goes out at once unless it may wait and an old
    session is still readable; then it waits, and its tab's migration has been started.
   */
  lemma WaitsForOldSession(s: State, id: ReqId)
    requires Inv(s) && Enabled(s, Dispatch(id))
    ensures var q, s' := s.requests[id], Apply(s, Dispatch(id));
      && id in s'.requests
      && (s'.requests[id].phase == Migrating(q.phase.kind) <==> !q.skip && s.cookies.refresh.Some?)
      && (s'.requests[id].phase == InFlight(q.phase.kind) <==> q.skip || s.cookies.refresh.None?)
      && (s'.requests[id].phase.Migrating? ==> !MigrationOf(s'.tabs, q.tab).Unset?)
  {
  }

  /**
    What each sending carries: the replay under the lock the current login; a request that waited for the
    migration the current login too, if it carried any; any other what it was built with, an empty Bearer dropped.
   */
  lemma SendsCurrentLogin(s: State, l: Label, id: ReqId)
    requires Inv(s) && Enabled(s, l) && Moves(s, l, id) && id in s.requests
    requires !s.requests[id].phase.InFlight? && id in Apply(s, l).requests && Apply(s, l).requests[id].phase.InFlight?
    ensures var auth := Apply(s, l).requests[id].auth;
      match l
      case Grant => auth == CurrentAuth(s.cookies)
      case Proceed(_) => auth == if s.requests[id].auth.NoAuth? then NoAuth else CurrentAuth(s.cookies)
      case _ => l.Dispatch? && auth == if s.requests[id].auth.EmptyBearer? then NoAuth else s.requests[id].auth
  {
    assert Consistent(s.locks, s.tabs, s.requests[id]);
  }
}
