/**
  Fetch.ts in its own form: the variables of one browser's tabs, and the methods that set and clear
  them. Each method is one uninterrupted stretch of script, and does to the state exactly what the
  transition system says.
 */
module BrowserSession {
  import opened Wrappers
  import opened Session
  import opened RefreshProtocol
  import opened RefreshInvariant

  class Browser {
    const locks: bool
    var cookies: Cookies
    var holder: Option<Owner>
    var queue: seq<Owner>
    var promises: seq<Promise>
    var refreshing: map<Tab, PromiseId>
    var migration: map<Tab, Migration>
    var requests: map<ReqId, Request>
    var api: Api

    ghost function View(): State
      reads this
    {
      State(locks, cookies, Lock(holder, queue), Tabs(promises, refreshing, migration), requests, api)
    }

    constructor (locks: bool, cookies: Cookies, tokenGood: bool)
      ensures Init(View()) && View().locks == locks && View().cookies == cookies && View().api.tokenGood == tokenGood
    {
      this.locks := locks;
      this.cookies := cookies;
      holder := None;
      queue := [];
      promises := [];
      refreshing := map[];
      migration := map[];
      requests := map[];
      api := Api(tokenGood, if tokenGood then 0 else 1, 0, 0, 0);
    }

    method RefreshInTab(tab: Tab) returns (p: PromiseId)
      modifies this`promises, this`refreshing
      ensures (View().tabs, p) == RefreshProtocol.RefreshInTab(old(View()).tabs, tab, cookies.refresh)
    {
      if tab !in refreshing {
        promises := promises + [Pending(tab, cookies.refresh)];
        refreshing := refreshing[tab := |promises| - 1];
      }
      p := refreshing[tab];
    }

    method MigrateLegacySession(tab: Tab)
      modifies this`promises, this`refreshing, this`migration, this`queue
      ensures View() == RefreshProtocol.MigrateLegacySession(old(View()), tab)
    {
      if tab in migration && !migration[tab].Unset? { return; }
      if cookies.refresh.None? {
        migration := migration[tab := Moved(false)];
      } else if locks {
        migration := migration[tab := Queued];
        queue := queue + [ByMigration(tab)];
      } else {
        var p := RefreshInTab(tab);
        migration := migration[tab := InTab(p)];
      }
    }

    method Send(id: ReqId, q: Request, kind: Kind)
      modifies this`requests
      ensures View() == RefreshProtocol.Send(old(View()), id, q, kind)
    {
      var auth := q.auth;
      if auth == EmptyBearer { auth := NoAuth; }
      requests := requests[id := q.(auth := auth, phase := InFlight(kind), sends := q.sends + 1)];
    }

    method RequestInterceptor(id: ReqId, q: Request, kind: Kind, skip: bool)
      modifies this
      ensures View() == RefreshProtocol.RequestInterceptor(old(View()), id, q, kind, skip)
    {
      if !skip && cookies.refresh.Some? {
        MigrateLegacySession(q.tab);
        requests := requests[id := q.(phase := Migrating(kind))];
      } else {
        Send(id, q, kind);
      }
    }

    method RefreshOnce(id: ReqId, q: Request)
      modifies this
      ensures View() == RefreshProtocol.RefreshOnce(old(View()), id, q)
    {
      var q1 := q;
      if locks {
        queue := queue + [ByRequest(id)];
        q1 := q1.(phase := WantLock);
      } else {
        if q.tab !in refreshing { q1 := q1.(refreshes := q1.refreshes + 1); }
        var p := RefreshInTab(q.tab);
        q1 := q1.(phase := Waiting(p));
      }
      requests := requests[id := q1];
    }

    method ResponseInterceptor(id: ReqId, q: Request, kind: Kind, a: Answer)
      modifies this
      ensures View() == RefreshProtocol.ResponseInterceptor(old(View()), id, q, kind, a)
    {
      if a == Unauthorized {
        if !q.retried && !q.skip {
          RefreshOnce(id, q.(retried := true));
          return;
        }
        if !q.skip { cookies := ClearLocalSession(cookies); }
      }
      requests := requests[id := q.(phase := Done(Outcome(kind, a)))];
    }

    method StillExpired(id: ReqId, q: Request, a: Answer)
      modifies this
      ensures View() == RefreshProtocol.StillExpired(old(View()), id, q, a)
    {
      if a == Unauthorized {
        if api.tokenGood { api := api.(refusals := api.refusals + 1); }
        requests := requests[id := q.(phase := Renewing(cookies.refresh), refreshes := q.refreshes + 1)];
      } else {
        holder := None;
        requests := requests[id := q.(phase := Done(Outcome(Early, a)))];
      }
    }

    /** The end of `refreshSession`: what its answer does to the cookies, and whether the session is good. */
    method RefreshSession(offered: Option<Token>, a: RefreshAnswer) returns (renewed: bool)
      modifies this`cookies, this`api
      ensures View() == Settle(old(View()), offered, a) && renewed == Renewed(a)
    {
      renewed := false;
      match a {
        case RenewedInCookies =>
          cookies := ClearLegacySession(cookies).(loggedIn := true);
          renewed := true;
        case RenewedInBody(access, refresh) =>
          cookies := SaveSession(cookies, Some(access), refresh);
          renewed := true;
        case Refused(hadCookie) =>
          if offered.Some? { cookies := cookies.(refresh := None); }
          else if hadCookie { cookies := ClearLocalSession(cookies); }
        case NoAnswer =>
      }
      if renewed { api := api.(tokenGood := true, renewals := api.renewals + 1); }
    }

    method GrantLock()
      requires GrantEnabled(View())
      modifies this
      ensures View() == RefreshProtocol.GrantLock(old(View()))
    {
      var next := queue[0];
      holder, queue := Some(next), queue[1..];
      match next {
        case ByRequest(id) =>
          RequestInterceptor(id, requests[id].(auth := CurrentAuth(cookies)), Early, true);
        case ByMigration(tab) =>
          migration := migration[tab := Moving(cookies.refresh)];
      }
    }

    method RefreshDone(call: Refresher, a: RefreshAnswer)
      requires RefreshInFlight(View(), call)
      modifies this
      ensures View() == RefreshProtocol.RefreshDone(old(View()), call, a)
    {
      match call {
        case TabPromise(p) =>
          var tab := promises[p].tab;
          var renewed := RefreshSession(promises[p].offered, a);
          promises := promises[p := Fulfilled(renewed)];
          refreshing := refreshing - {tab};
        case LockHolder =>
          var owner := holder.value;
          holder := None;
          match owner {
            case ByRequest(id) =>
              var q := requests[id];
              var renewed := RefreshSession(q.phase.offered, a);
              requests := requests[id := q.(phase := Resumed(renewed), history := q.history + [Refreshed(renewed)])];
            case ByMigration(tab) =>
              var renewed := RefreshSession(migration[tab].offered, a);
              migration := migration[tab := Moved(renewed)];
              if renewed { api := api.(migrations := api.migrations + 1); }
          }
      }
    }

    method ResumeAfterRefresh(id: ReqId)
      requires Enabled(View(), Resume(id))
      modifies this`requests, this`cookies
      ensures View() == Apply(old(View()), Resume(id))
    {
      var q := requests[id];
      var renewed: bool;
      match q.phase {
        case Resumed(ok) => renewed := ok;
        case Waiting(p) =>
          renewed := promises[p].renewed;
          q := q.(history := q.history + [Refreshed(renewed)]);
      }
      if renewed {
        requests := requests[id := q.(auth := CurrentAuth(cookies), phase := Building(Final))];
      } else {
        cookies := ClearLocalSession(cookies);
        requests := requests[id := q.(phase := Done(Rejected(First, Unauthorized)))];
      }
    }

    /** Any step there is, whichever tab takes it: the state moves as the transition system says, and stays sound. */
    method Step(l: Label)
      requires Inv(View()) && Enabled(View(), l)
      modifies this
      ensures View() == Apply(old(View()), l) && Inv(View())
    {
      KeepsInv(View(), l);
      match l {
        case Start(id, tab, auth, skip) =>
          requests := requests[id := Request(tab, auth, false, skip, Building(First), [], 0, 0)];
        case Login(access, refresh) =>
          cookies := AfterLogin(cookies, access, refresh);
          api := api.(tokenGood := true);
        case Expire => api := api.(tokenGood := false, expiries := api.expiries + 1);
        case Dispatch(id) => RequestInterceptor(id, requests[id], requests[id].phase.kind, requests[id].skip);
        case Proceed(id) =>
          var q := requests[id];
          if !q.auth.NoAuth? { q := q.(auth := CurrentAuth(cookies)); }
          Send(id, q, q.phase.kind);
        case Receive(id, a) =>
          var kind := requests[id].phase.kind;
          var q := requests[id].(history := requests[id].history + [Answered(kind, a)]);
          if kind == Early { StillExpired(id, q, a); } else { ResponseInterceptor(id, q, kind, a); }
        case Grant => GrantLock();
        case RefreshReturns(call, a) => RefreshDone(call, a);
        case Resume(id) => ResumeAfterRefresh(id);
      }
    }
  }
}
