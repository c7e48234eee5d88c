/**
  The session refresh protocol (Front-End/lib/Fetch.ts) as a labelled transition system.

  A state is one browser: any number of tabs, any number of requests in each, the cookies they
  share, the lock `vendly-refresh`, and what the API thinks of the access token. A label is one
  uninterrupted stretch of script in one tab, or one answer of the network; labels interleave freely.
 */
module RefreshProtocol {
  import opened Wrappers
  import opened Session

  type Tab = nat
  type ReqId = nat
  type PromiseId = nat

  /** The (at most three) times one application request is sent. */
  datatype Kind = First | Early | Final

  /** A response; a 401; or any other error, network trouble included. */
  datatype Answer = Ok | Unauthorized | Failed

  /** The Authorization header. `EmptyBearer` is "Bearer undefined" and friends. */
  datatype Auth = NoAuth | EmptyBearer | Bearer(token: Token)

  /**
    What a call to `/auth/refresh-token` comes back with. A refusal is of the readable token when the call
    offered one, and otherwise of the HttpOnly cookie, if the browser had any to send (`hadCookie`).
   */
  datatype RefreshAnswer =
    | RenewedInCookies
    | RenewedInBody(access: Token, refresh: Option<Token>)
    | Refused(hadCookie: bool)
    | NoAnswer

  datatype Result = Resolved(kind: Kind) | Rejected(kind: Kind, answer: Answer)

  datatype Event = Answered(kind: Kind, answer: Answer) | Refreshed(renewed: bool)

  datatype Phase =
    | Building(kind: Kind)               // handed to axios, request interceptor not run yet
    | Migrating(kind: Kind)              // awaits migrateLegacySession()
    | InFlight(kind: Kind)
    | WantLock                           // awaits the cross-tab lock
    | Renewing(offered: Option<Token>)   // holds the lock, its refresh call is in flight
    | Waiting(promise: PromiseId)        // no lock API: awaits this tab's refresh
    | Resumed(renewed: bool)             // refreshOnce has settled
    | Done(result: Result)

  /** `history`, `sends` and `refreshes` only record what happened; no step reads them. */
  datatype Request = Request(
    tab: Tab, auth: Auth, retried: bool, skip: bool, phase: Phase,
    history: seq<Event>, sends: nat, refreshes: nat)

  /** The module variable `migration` of one tab. */
  datatype Migration =
    | Unset
    | Queued                             // awaits the lock
    | Moving(offered: Option<Token>)     // holds the lock, its refresh call is in flight
    | InTab(promise: PromiseId)          // no lock API: shares this tab's refresh
    | Moved(renewed: bool)

  /** A refresh shared inside one tab, when the browser has no lock API. */
  datatype Promise = Pending(tab: Tab, offered: Option<Token>) | Fulfilled(renewed: bool)

  datatype Owner = ByRequest(id: ReqId) | ByMigration(tab: Tab)

  datatype Refresher = LockHolder | TabPromise(promise: PromiseId)

  /** The cross-tab lock: who has it, and who waits, first come first served. */
  datatype Lock = Lock(holder: Option<Owner>, queue: seq<Owner>)

  /** The module variables `refreshing` and `migration` of every tab, and the promises they held. */
  datatype Tabs = Tabs(promises: seq<Promise>, refreshing: map<Tab, PromiseId>, migration: map<Tab, Migration>)

  /** Whether the API would still take the access token, and a count of what happened to it. */
  datatype Api = Api(tokenGood: bool, expiries: nat, renewals: nat, migrations: nat, refusals: nat)

  datatype State = State(
    locks: bool, cookies: Cookies, lock: Lock, tabs: Tabs, requests: map<ReqId, Request>, api: Api)

  datatype Label =
    | Start(id: ReqId, tab: Tab, auth: Auth, skip: bool)
    | Login(access: Option<Token>, refresh: Option<Token>)   // readable tokens, if the API still answers with any
    | Expire
    | Dispatch(id: ReqId)                        // the request interceptor runs
    | Proceed(id: ReqId)                         // ... and goes on after the migration
    | Receive(id: ReqId, answer: Answer)          // an answer arrives: the response interceptor
    | Grant                                      // the browser hands the lock to the next in line
    | RefreshReturns(call: Refresher, result: RefreshAnswer)
    | Resume(id: ReqId)                          // the interceptor goes on after refreshOnce

  /** Steps of the protocol itself: neither a new call, a login, nor time passing on the server. */
  predicate Internal(l: Label) {
    !l.Start? && !l.Login? && !l.Expire?
  }

  ghost predicate Init(s: State) {
    && s.lock == Lock(None, [])
    && s.tabs == Tabs([], map[], map[])
    && s.requests == map[]
    && s.api == Api(s.api.tokenGood, if s.api.tokenGood then 0 else 1, 0, 0, 0)
  }

  function MigrationOf(tabs: Tabs, t: Tab): Migration {
    if t in tabs.migration then tabs.migration[t] else Unset
  }

  predicate MigrationSettled(tabs: Tabs, t: Tab) {
    match MigrationOf(tabs, t)
    case Moved(_) => true
    case InTab(p) => p < |tabs.promises| && tabs.promises[p].Fulfilled?
    case _ => false
  }

  /** The result of the refresh a request waits for, once there is one. */
  function Awaited(tabs: Tabs, q: Request): Option<bool> {
    match q.phase
    case Resumed(ok) => Some(ok)
    case Waiting(p) => if p < |tabs.promises| && tabs.promises[p].Fulfilled? then Some(tabs.promises[p].renewed) else None
    case _ => None
  }

  predicate RefreshInFlight(s: State, call: Refresher) {
    match call
    case LockHolder =>
      (match s.lock.holder
       case None => false
       case Some(ByRequest(id)) => id in s.requests && s.requests[id].phase.Renewing?
       case Some(ByMigration(t)) => MigrationOf(s.tabs, t).Moving?)
    case TabPromise(p) => p < |s.tabs.promises| && s.tabs.promises[p].Pending?
  }

  predicate GrantEnabled(s: State) {
    && s.lock.holder.None?
    && |s.lock.queue| > 0
    && (s.lock.queue[0].ByRequest? ==> s.lock.queue[0].id in s.requests)
  }

  predicate Enabled(s: State, l: Label) {
    match l
    case Start(id, _, _, _) => id !in s.requests
    case Login(_, _) => true
    case Expire => s.api.tokenGood
    case Dispatch(id) => id in s.requests && s.requests[id].phase.Building?
    case Proceed(id) => id in s.requests && s.requests[id].phase.Migrating? && MigrationSettled(s.tabs, s.requests[id].tab)
    case Receive(id, _) => id in s.requests && s.requests[id].phase.InFlight?
    case Grant => GrantEnabled(s)
    case RefreshReturns(call, _) => RefreshInFlight(s, call)
    case Resume(id) => id in s.requests && Awaited(s.tabs, s.requests[id]).Some?
  }

  // ----- the pieces of Fetch.ts -----

  /** `legacyAuthorization`, set on (or taken off) the headers. */
  function CurrentAuth(c: Cookies): Auth {
    if c.access.Some? then Bearer(c.access.value) else NoAuth
  }

  /** An empty Bearer is never sent. */
  function Sendable(a: Auth): Auth {
    if a.EmptyBearer? then NoAuth else a
  }

  function Put(s: State, id: ReqId, q: Request): State {
    s.(requests := s.requests[id := q])
  }

  function Send(s: State, id: ReqId, q: Request, kind: Kind): State {
    Put(s, id, q.(auth := Sendable(q.auth), phase := InFlight(kind), sends := q.sends + 1))
  }

  /** `refreshInTab`: the tab's refresh under way, or a new one offering the old readable token. */
  function RefreshInTab(tabs: Tabs, t: Tab, offered: Option<Token>): (Tabs, PromiseId) {
    if t in tabs.refreshing then (tabs, tabs.refreshing[t])
    else (tabs.(promises := tabs.promises + [Pending(t, offered)],
                refreshing := tabs.refreshing[t := |tabs.promises|]), |tabs.promises|)
  }

  function SetMigration(tabs: Tabs, t: Tab, m: Migration): Tabs {
    tabs.(migration := tabs.migration[t := m])
  }

  function Join(lock: Lock, o: Owner): Lock {
    lock.(queue := lock.queue + [o])
  }

  /** `migrateLegacySession`: started by the first call that finds the old cookie. */
  function MigrateLegacySession(s: State, t: Tab): State {
    if !MigrationOf(s.tabs, t).Unset? then s
    else if s.cookies.refresh.None? then s.(tabs := SetMigration(s.tabs, t, Moved(false)))
    else if s.locks then s.(tabs := SetMigration(s.tabs, t, Queued), lock := Join(s.lock, ByMigration(t)))
    else
      var (tabs, p) := RefreshInTab(s.tabs, t, s.cookies.refresh);
      s.(tabs := SetMigration(tabs, t, InTab(p)))
  }

  /** The request interceptor. `skip` is the config's `_skipAuthRefresh` at this send. */
  function RequestInterceptor(s: State, id: ReqId, q: Request, kind: Kind, skip: bool): State {
    if !skip && s.cookies.refresh.Some?
    then Put(MigrateLegacySession(s, q.tab), id, q.(phase := Migrating(kind)))
    else Send(s, id, q, kind)
  }

  /** `refreshOnce(stillExpired)`: queue for the lock, or share the tab's refresh. */
  function RefreshOnce(s: State, id: ReqId, q: Request): State {
    if s.locks then Put(s.(lock := Join(s.lock, ByRequest(id))), id, q.(phase := WantLock))
    else
      var (tabs, p) := RefreshInTab(s.tabs, q.tab, s.cookies.refresh);
      var started := if q.tab in s.tabs.refreshing then 0 else 1;
      Put(s.(tabs := tabs), id, q.(phase := Waiting(p), refreshes := q.refreshes + started))
  }

  function Outcome(kind: Kind, a: Answer): Result {
    if a.Ok? then Resolved(kind) else Rejected(kind, a)
  }

  /** An answer to the request itself (the config as the caller and the interceptors left it). */
  function ResponseInterceptor(s: State, id: ReqId, q: Request, kind: Kind, a: Answer): State {
    if !a.Unauthorized? then Put(s, id, q.(phase := Done(Outcome(kind, a))))
    else if !q.retried && !q.skip then RefreshOnce(s, id, q.(retried := true))
    else
      var s1 := if q.skip then s else s.(cookies := ClearLocalSession(s.cookies));
      Put(s1, id, q.(phase := Done(Rejected(kind, a))))
  }

  /** An answer to the replay made under the lock: `stillExpired`, then `refreshSession` if it was a 401. */
  function StillExpired(s: State, id: ReqId, q: Request, a: Answer): State {
    if a.Unauthorized? then
      var refused := if s.api.tokenGood then 1 else 0;
      Put(s.(api := s.api.(refusals := s.api.refusals + refused)), id,
          q.(phase := Renewing(s.cookies.refresh), refreshes := q.refreshes + 1))
    else Put(s.(lock := s.lock.(holder := None)), id, q.(phase := Done(Outcome(Early, a))))
  }

  function Renewed(a: RefreshAnswer): bool {
    a.RenewedInCookies? || a.RenewedInBody?
  }

  /** What a login leaves: with HttpOnly cookies the API sets the flag and clears the readable tokens itself. */
  function AfterLogin(c: Cookies, access: Option<Token>, refresh: Option<Token>): Cookies {
    if access.Some? then SaveSession(c, access, refresh) else ClearLegacySession(c).(loggedIn := true)
  }

  /**
    What a refresh call leaves in the cookies, the API's own Set-Cookie headers included: it sets the
    flag with the HttpOnly cookies, and clears all of them when it refuses the HttpOnly one.
   */
  function AfterRefresh(c: Cookies, offered: Option<Token>, a: RefreshAnswer): Cookies {
    match a
    case RenewedInCookies => ClearLegacySession(c).(loggedIn := true)
    case RenewedInBody(access, refresh) => SaveSession(c, Some(access), refresh)
    case Refused(hadCookie) =>
      if offered.Some? then c.(refresh := None) else if hadCookie then ClearLocalSession(c) else c
    case NoAnswer => c
  }

  function CountRenewal(api: Api, renewed: bool): Api {
    if renewed then api.(tokenGood := true, renewals := api.renewals + 1) else api
  }

  function Settle(s: State, offered: Option<Token>, a: RefreshAnswer): State {
    s.(cookies := AfterRefresh(s.cookies, offered, a), api := CountRenewal(s.api, Renewed(a)))
  }

  function GrantLock(s: State): State
    requires GrantEnabled(s)
  {
    var s1 := s.(lock := Lock(Some(s.lock.queue[0]), s.lock.queue[1..]));
    match s.lock.queue[0]
    case ByRequest(id) =>
      // the early replay: with the current login, and marked so that it never waits for the lock it is under
      RequestInterceptor(s1, id, s.requests[id].(auth := CurrentAuth(s.cookies)), Early, true)
    case ByMigration(t) => s1.(tabs := SetMigration(s.tabs, t, Moving(s.cookies.refresh)))
  }

  function RefreshDone(s: State, call: Refresher, a: RefreshAnswer): State
    requires RefreshInFlight(s, call)
  {
    var ok := Renewed(a);
    match call
    case LockHolder =>
      var s1 := s.(lock := s.lock.(holder := None));
      (match s.lock.holder
       case Some(ByRequest(id)) =>
         var q := s.requests[id];
         Put(Settle(s1, q.phase.offered, a), id, q.(phase := Resumed(ok), history := q.history + [Refreshed(ok)]))
       case Some(ByMigration(t)) =>
         var s2 := Settle(s1, MigrationOf(s.tabs, t).offered, a);
         s2.(tabs := SetMigration(s.tabs, t, Moved(ok)),
             api := s2.api.(migrations := s2.api.migrations + if ok then 1 else 0))
       case None => s)
    case TabPromise(p) =>
      var promise := s.tabs.promises[p];
      Settle(s, promise.offered, a)
        .(tabs := s.tabs.(promises := s.tabs.promises[p := Fulfilled(ok)],
                          refreshing := s.tabs.refreshing - {promise.tab}))
  }

  function ResumeAfterRefresh(s: State, id: ReqId, q: Request, renewed: bool): State {
    var q1 := if q.phase.Waiting? then q.(history := q.history + [Refreshed(renewed)]) else q;
    if renewed then Put(s, id, q1.(auth := CurrentAuth(s.cookies), phase := Building(Final)))
    else Put(s.(cookies := ClearLocalSession(s.cookies)), id, q1.(phase := Done(Rejected(First, Unauthorized))))
  }

  function Apply(s: State, l: Label): State
    requires Enabled(s, l)
  {
    match l
    case Start(id, tab, auth, skip) => Put(s, id, Request(tab, auth, false, skip, Building(First), [], 0, 0))
    case Login(access, refresh) =>
      s.(cookies := AfterLogin(s.cookies, access, refresh), api := s.api.(tokenGood := true))
    case Expire => s.(api := s.api.(tokenGood := false, expiries := s.api.expiries + 1))
    case Dispatch(id) =>
      var q := s.requests[id];
      RequestInterceptor(s, id, q, q.phase.kind, q.skip)
    case Proceed(id) =>
      var q := s.requests[id];
      Send(s, id, if q.auth.NoAuth? then q else q.(auth := CurrentAuth(s.cookies)), q.phase.kind)
    case Receive(id, a) =>
      var q := s.requests[id];
      var kind := q.phase.kind;
      var q1 := q.(history := q.history + [Answered(kind, a)]);
      if kind.Early? then StillExpired(s, id, q1, a) else ResponseInterceptor(s, id, q1, kind, a)
    case Grant => GrantLock(s)
    case RefreshReturns(call, a) => RefreshDone(s, call, a)
    case Resume(id) => ResumeAfterRefresh(s, id, s.requests[id], Awaited(s.tabs, s.requests[id]).value)
  }

  // ----- runs -----

  predicate Legal(s: State, ls: seq<Label>)
    decreases |ls|
  {
    ls == [] || (Enabled(s, ls[0]) && Legal(Apply(s, ls[0]), ls[1..]))
  }

  function Exec(s: State, ls: seq<Label>): State
    requires Legal(s, ls)
    decreases |ls|
  {
    if ls == [] then s else Exec(Apply(s, ls[0]), ls[1..])
  }
}
