/** What every step of the refresh protocol keeps, whatever the interleaving. */
module RefreshInvariant {
  import opened Wrappers
  import opened Session
  import opened RefreshProtocol

  ghost predicate WantsLock(s: State, o: Owner) {
    match o
    case ByRequest(id) => id in s.requests && s.requests[id].phase.WantLock?
    case ByMigration(t) => MigrationOf(s.tabs, t).Queued?
  }

  ghost predicate HoldsLock(s: State, o: Owner) {
    match o
    case ByRequest(id) =>
      id in s.requests && (s.requests[id].phase.Renewing? || s.requests[id].phase == InFlight(Early))
    case ByMigration(t) => MigrationOf(s.tabs, t).Moving?
  }

  /** The queue is exactly who waits for the lock, each once; the holder is exactly who acts under it. */
  ghost predicate LockInv(s: State) {
    && (forall i, j | 0 <= i < j < |s.lock.queue| :: s.lock.queue[i] != s.lock.queue[j])
    && (forall o: Owner :: WantsLock(s, o) <==> o in s.lock.queue)
    && (forall o: Owner :: HoldsLock(s, o) <==> s.lock.holder == Some(o))
    && (!s.locks ==> s.lock == Lock(None, []))
  }

  /** Promise `p` is the refresh under way in tab `t`. */
  ghost predicate Shared(tabs: Tabs, t: Tab, p: PromiseId) {
    && t in tabs.refreshing && tabs.refreshing[t] == p
    && p < |tabs.promises| && tabs.promises[p].Pending? && tabs.promises[p].tab == t
  }

  /** Without the lock API: one refresh under way per tab, the one in its `refreshing` slot. */
  ghost predicate TabInv(locks: bool, tabs: Tabs) {
    && (locks ==> tabs.promises == [] && tabs.refreshing == map[])
    && (forall t | t in tabs.refreshing :: Shared(tabs, t, tabs.refreshing[t]))
    && (forall p | 0 <= p < |tabs.promises| && tabs.promises[p].Pending? :: Shared(tabs, tabs.promises[p].tab, p))
    && (forall t | t in tabs.migration :: MigrationKnown(tabs, tabs.migration[t]))
  }

  ghost predicate MigrationKnown(tabs: Tabs, m: Migration) {
    !m.Unset? && (m.InTab? ==> m.promise < |tabs.promises|)
  }

  const FIRST_REFUSED := [Answered(First, Unauthorized)]

  /** What a request has been told when a refresh is called for on its behalf. */
  function BeforeRefresh(locks: bool): seq<Event> {
    if locks then FIRST_REFUSED + [Answered(Early, Unauthorized)] else FIRST_REFUSED
  }

  /** What was sent, answered and refreshed for a request, phase by phase. */
  ghost predicate Consistent(locks: bool, tabs: Tabs, q: Request) {
    && q.refreshes <= 1
    && (q.phase.InFlight? ==> !q.auth.EmptyBearer?)
    && (match q.phase
        case Building(kind) => ReadyToSend(locks, q, kind)
        case Migrating(kind) => ReadyToSend(locks, q, kind) && !q.skip && q.tab in tabs.migration
        case InFlight(First) => q.history == [] && !q.retried && q.sends == 1 && q.refreshes == 0
        case InFlight(Early) => locks && RefusedOnce(q) && q.sends == 2 && q.refreshes == 0
        case InFlight(Final) => Refreshed(locks, q) && q.sends == if locks then 3 else 2
        case WantLock => locks && RefusedOnce(q) && q.sends == 1 && q.refreshes == 0
        case Renewing(_) => locks && q.retried && !q.skip && q.history == BeforeRefresh(true) && q.sends == 2
        case Waiting(p) => !locks && RefusedOnce(q) && q.sends == 1 && p < |tabs.promises|
        case Resumed(ok) =>
          locks && q.retried && !q.skip && q.sends == 2 && q.history == BeforeRefresh(true) + [Event.Refreshed(ok)]
        case Done(r) =>
          && q.sends <= 3
          && CallerGets(locks, q.skip, q.history) == Some(r)
          && (q.refreshes == 0 || Event.Refreshed(true) in q.history || Event.Refreshed(false) in q.history))
  }

  ghost predicate RefusedOnce(q: Request) {
    q.retried && !q.skip && q.history == FIRST_REFUSED
  }

  ghost predicate Refreshed(locks: bool, q: Request) {
    q.retried && !q.skip && q.history == BeforeRefresh(locks) + [Event.Refreshed(true)]
  }

  ghost predicate ReadyToSend(locks: bool, q: Request, kind: Kind) {
    match kind
    case First => q.history == [] && !q.retried && q.sends == 0 && q.refreshes == 0
    case Early => false
    case Final => Refreshed(locks, q) && q.sends == if locks then 2 else 1
  }

  /**
    One request on its own, read from the top: what its caller gets, given the answers it met.
    None while there is nothing to give yet, or for a list of answers no request can meet.
   */
  function CallerGets(locks: bool, skip: bool, told: seq<Event>): Option<Result> {
    if told == [] then None
    else if told[0] == Answered(First, Unauthorized) && !skip then
      if !locks then AfterRefreshing(told[1..])
      else if |told| == 1 then None
      else if told[1] == Answered(Early, Unauthorized) then AfterRefreshing(told[2..])
      else LastAnswer(Early, told[1..])
    else LastAnswer(First, told)
  }

  /** A refused refresh gives the caller the original 401; a renewed session gives it the replay. */
  function AfterRefreshing(told: seq<Event>): Option<Result> {
    if told == [Event.Refreshed(false)] then Some(Rejected(First, Unauthorized))
    else if |told| == 2 && told[0] == Event.Refreshed(true) then LastAnswer(Final, told[1..])
    else None
  }

  function LastAnswer(kind: Kind, told: seq<Event>): Option<Result> {
    if |told| == 1 && told[0].Answered? && told[0].kind == kind then Some(Outcome(kind, told[0].answer)) else None
  }

  ghost predicate RequestInv(s: State) {
    forall id | id in s.requests :: Consistent(s.locks, s.tabs, s.requests[id])
  }

  /** A renewal somebody is entitled to: the token is spent, or its 401 is in the lock holder's hands. */
  ghost predicate RenewalDue(s: State) {
    !s.api.tokenGood || exists id :: id in s.requests && s.requests[id].phase.Renewing?
  }

  ghost function MigratedTabs(tabs: Tabs): set<Tab> {
    set t | t in tabs.migration && tabs.migration[t] == Moved(true)
  }

  /** When refreshes take turns across tabs, every renewal is paid for. */
  ghost predicate CreditInv(s: State) {
    s.locks ==>
      && s.api.renewals + (if RenewalDue(s) then 1 else 0) <= s.api.expiries + s.api.refusals + s.api.migrations
      && s.api.migrations == |MigratedTabs(s.tabs)|
  }

  ghost predicate Inv(s: State) {
    LockInv(s) && TabInv(s.locks, s.tabs) && RequestInv(s) && CreditInv(s)
  }

  // ----- every step keeps it -----

  lemma InitInv(s: State)
    requires Init(s)
    ensures Inv(s)
  {
    assert MigratedTabs(s.tabs) == {};
  }

  lemma RefreshInTabKeepsTabs(tabs: Tabs, t: Tab, offered: Option<Token>)
    requires TabInv(false, tabs)
    ensures TabInv(false, RefreshInTab(tabs, t, offered).0)
    ensures RefreshInTab(tabs, t, offered).1 < |RefreshInTab(tabs, t, offered).0.promises|
  {
  }

  lemma MigrateKeepsTabs(s: State, t: Tab)
    requires TabInv(s.locks, s.tabs)
    ensures var s' := MigrateLegacySession(s, t); TabInv(s'.locks, s'.tabs)
  {
    if !s.locks { RefreshInTabKeepsTabs(s.tabs, t, s.cookies.refresh); }
  }

  lemma KeepsTabs(s: State, l: Label)
    requires TabInv(s.locks, s.tabs) && Enabled(s, l)
    ensures var s' := Apply(s, l); TabInv(s'.locks, s'.tabs)
  {
    match l
    case Dispatch(id) => MigrateKeepsTabs(s, s.requests[id].tab);
    case Receive(id, a) => if !s.locks { RefreshInTabKeepsTabs(s.tabs, s.requests[id].tab, s.cookies.refresh); }
    case _ =>
  }

  /** The one request a step moves on, if it moves any. */
  ghost predicate Moves(s: State, l: Label, id: ReqId) {
    match l
    case Start(i, _, _, _) => i == id
    case Dispatch(i) => i == id
    case Proceed(i) => i == id
    case Receive(i, _) => i == id
    case Resume(i) => i == id
    case Grant => |s.lock.queue| > 0 && s.lock.queue[0] == ByRequest(id)
    case RefreshReturns(call, _) => call.LockHolder? && s.lock.holder == Some(ByRequest(id))
    case _ => false
  }

  /** A step leaves alone every request it does not move, and forgets no promise and no migration. */
  ghost predicate Framed(s: State, l: Label, s': State) {
    && s'.locks == s.locks
    && |s.tabs.promises| <= |s'.tabs.promises|
    && s.tabs.migration.Keys <= s'.tabs.migration.Keys
    && (forall id | id in s.requests :: id in s'.requests && (!Moves(s, l, id) ==> s'.requests[id] == s.requests[id]))
    && (forall id | id in s'.requests :: id in s.requests || Moves(s, l, id))
  }

  lemma DispatchFramed(s: State, id: ReqId)
    requires Enabled(s, Dispatch(id))
    ensures Framed(s, Dispatch(id), Apply(s, Dispatch(id)))
  {
  }

  lemma ReceiveFramed(s: State, id: ReqId, a: Answer)
    requires Enabled(s, Receive(id, a))
    ensures Framed(s, Receive(id, a), Apply(s, Receive(id, a)))
  {
  }

  lemma RefreshFramed(s: State, call: Refresher, a: RefreshAnswer)
    requires Enabled(s, RefreshReturns(call, a))
    ensures Framed(s, RefreshReturns(call, a), Apply(s, RefreshReturns(call, a)))
  {
  }

  lemma Footprint(s: State, l: Label)
    requires Enabled(s, l)
    ensures Framed(s, l, Apply(s, l))
  {
    match l
    case Dispatch(id) => DispatchFramed(s, id);
    case Receive(id, a) => ReceiveFramed(s, id, a);
    case RefreshReturns(call, a) => RefreshFramed(s, call, a);
    case _ =>
  }

  lemma MovedBySending(s: State, l: Label, id: ReqId)
    requires RequestInv(s) && LockInv(s) && Enabled(s, l) && Moves(s, l, id)
    requires l.Start? || l.Dispatch? || l.Proceed? || l.Grant?
    ensures var s' := Apply(s, l); id in s'.requests && Consistent(s'.locks, s'.tabs, s'.requests[id])
  {
    match l
    case Start(_, _, _, _) =>
    case Dispatch(_) => assert Consistent(s.locks, s.tabs, s.requests[id]);
    case Proceed(_) =>
    case Grant =>
      assert WantsLock(s, ByRequest(id));
      assert Consistent(s.locks, s.tabs, s.requests[id]);
  }

  lemma FirstAnswered(s: State, id: ReqId, a: Answer)
    requires RequestInv(s) && TabInv(s.locks, s.tabs) && id in s.requests && s.requests[id].phase == InFlight(First)
    ensures var s' := Apply(s, Receive(id, a)); id in s'.requests && Consistent(s'.locks, s'.tabs, s'.requests[id])
  {
    var q := s.requests[id];
    assert Consistent(s.locks, s.tabs, q);
    var q1 := q.(history := [Answered(First, a)]);
    assert q.history + [Answered(First, a)] == q1.history;
    if !s.locks { RefreshInTabKeepsTabs(s.tabs, q.tab, s.cookies.refresh); }
  }

  lemma EarlyAnswered(s: State, id: ReqId, a: Answer)
    requires RequestInv(s) && id in s.requests && s.requests[id].phase == InFlight(Early)
    ensures var s' := Apply(s, Receive(id, a)); id in s'.requests && Consistent(s'.locks, s'.tabs, s'.requests[id])
  {
    var q := s.requests[id];
    assert Consistent(s.locks, s.tabs, q);
    var told := [Answered(First, Unauthorized), Answered(Early, a)];
    assert q.history + [Answered(Early, a)] == told && told[1..] == [Answered(Early, a)];
  }

  lemma FinalAnswered(s: State, id: ReqId, a: Answer)
    requires RequestInv(s) && id in s.requests && s.requests[id].phase == InFlight(Final)
    ensures var s' := Apply(s, Receive(id, a)); id in s'.requests && Consistent(s'.locks, s'.tabs, s'.requests[id])
  {
    var q := s.requests[id];
    assert Consistent(s.locks, s.tabs, q);
    AfterRenewal(s.locks, a);
  }

  lemma AfterRenewal(locks: bool, a: Answer)
    ensures CallerGets(locks, false, BeforeRefresh(locks) + [Event.Refreshed(true)] + [Answered(Final, a)]) == Some(Outcome(Final, a))
  {
    var tail := [Event.Refreshed(true), Answered(Final, a)];
    var told := BeforeRefresh(locks) + [Event.Refreshed(true)] + [Answered(Final, a)];
    assert told[|BeforeRefresh(locks)|..] == tail;
    assert tail[1..] == [Answered(Final, a)];
  }

  lemma MovedByRefresh(s: State, l: Label, id: ReqId)
    requires RequestInv(s) && Enabled(s, l) && Moves(s, l, id)
    requires l.RefreshReturns? || l.Resume?
    ensures var s' := Apply(s, l); id in s'.requests && Consistent(s'.locks, s'.tabs, s'.requests[id])
  {
    assert Consistent(s.locks, s.tabs, s.requests[id]);
    match l
    case RefreshReturns(_, _) =>
    case Resume(_) =>
  }

  lemma KeepsRequests(s: State, l: Label)
    requires RequestInv(s) && LockInv(s) && TabInv(s.locks, s.tabs) && Enabled(s, l)
    ensures RequestInv(Apply(s, l))
  {
    var s' := Apply(s, l);
    Footprint(s, l);
    forall id | id in s'.requests ensures Consistent(s'.locks, s'.tabs, s'.requests[id]) {
      if Moves(s, l, id) {
        if l.Receive? {
          match s.requests[id].phase.kind
          case First => FirstAnswered(s, id, l.answer);
          case Early => EarlyAnswered(s, id, l.answer);
          case Final => FinalAnswered(s, id, l.answer);
        }
        else if l.RefreshReturns? || l.Resume? { MovedByRefresh(s, l, id); }
        else { MovedBySending(s, l, id); }
      } else {
        assert Consistent(s.locks, s.tabs, s.requests[id]);
      }
    }
  }

  lemma DispatchKeepsLock(s: State, id: ReqId)
    requires LockInv(s) && Enabled(s, Dispatch(id)) && Consistent(s.locks, s.tabs, s.requests[id])
    ensures LockInv(Apply(s, Dispatch(id)))
  {
    var s' := Apply(s, Dispatch(id));
    var m := ByMigration(s.requests[id].tab);
    forall o: Owner
      ensures WantsLock(s', o) <==> o in s'.lock.queue
      ensures HoldsLock(s', o) <==> s'.lock.holder == Some(o)
    {
      assert WantsLock(s, o) <==> o in s.lock.queue;
      assert HoldsLock(s, o) <==> s.lock.holder == Some(o);
    }
    assert !WantsLock(s, m) || s'.lock == s.lock;
  }

  lemma ReceiveKeepsLock(s: State, id: ReqId, a: Answer)
    requires LockInv(s) && Enabled(s, Receive(id, a)) && Consistent(s.locks, s.tabs, s.requests[id])
    ensures LockInv(Apply(s, Receive(id, a)))
  {
    var s' := Apply(s, Receive(id, a));
    var m := ByRequest(id);
    assert !WantsLock(s, m);
    assert HoldsLock(s, m) <==> s.lock.holder == Some(m);
    forall o: Owner
      ensures WantsLock(s', o) <==> o in s'.lock.queue
      ensures HoldsLock(s', o) <==> s'.lock.holder == Some(o)
    {
      assert WantsLock(s, o) <==> o in s.lock.queue;
      assert HoldsLock(s, o) <==> s.lock.holder == Some(o);
    }
  }

  lemma GrantKeepsLock(s: State)
    requires LockInv(s) && RequestInv(s) && Enabled(s, Grant)
    ensures LockInv(Apply(s, Grant))
  {
    var s' := Apply(s, Grant);
    var h := s.lock.queue[0];
    assert WantsLock(s, h);
    assert s.lock.queue == [h] + s'.lock.queue;
    forall o: Owner
      ensures WantsLock(s', o) <==> o in s'.lock.queue
      ensures HoldsLock(s', o) <==> s'.lock.holder == Some(o)
    {
      assert WantsLock(s, o) <==> o in s.lock.queue;
      assert HoldsLock(s, o) <==> s.lock.holder == Some(o);
    }
  }

  lemma RefreshReturnsKeepsLock(s: State, call: Refresher, a: RefreshAnswer)
    requires LockInv(s) && Enabled(s, RefreshReturns(call, a))
    ensures LockInv(Apply(s, RefreshReturns(call, a)))
  {
    var s' := Apply(s, RefreshReturns(call, a));
    forall o: Owner
      ensures WantsLock(s', o) <==> o in s'.lock.queue
      ensures HoldsLock(s', o) <==> s'.lock.holder == Some(o)
    {
      assert WantsLock(s, o) <==> o in s.lock.queue;
      assert HoldsLock(s, o) <==> s.lock.holder == Some(o);
    }
  }

  lemma GoingOnKeepsLock(s: State, l: Label)
    requires LockInv(s) && Enabled(s, l) && (l.Proceed? || l.Resume?)
    requires Consistent(s.locks, s.tabs, s.requests[l.id])
    ensures LockInv(Apply(s, l))
  {
    var s' := Apply(s, l);
    forall o: Owner
      ensures WantsLock(s', o) <==> o in s'.lock.queue
      ensures HoldsLock(s', o) <==> s'.lock.holder == Some(o)
    {
      assert WantsLock(s, o) <==> o in s.lock.queue;
      assert HoldsLock(s, o) <==> s.lock.holder == Some(o);
    }
  }

  lemma OutsideKeepsLock(s: State, l: Label)
    requires LockInv(s) && Enabled(s, l) && !Internal(l)
    ensures LockInv(Apply(s, l))
  {
    var s' := Apply(s, l);
    forall o: Owner
      ensures WantsLock(s', o) <==> o in s'.lock.queue
      ensures HoldsLock(s', o) <==> s'.lock.holder == Some(o)
    {
      assert WantsLock(s, o) <==> o in s.lock.queue;
      assert HoldsLock(s, o) <==> s.lock.holder == Some(o);
    }
  }

  lemma KeepsLock(s: State, l: Label)
    requires LockInv(s) && RequestInv(s) && Enabled(s, l)
    ensures LockInv(Apply(s, l))
  {
    match l
    case Dispatch(id) => assert Consistent(s.locks, s.tabs, s.requests[id]); DispatchKeepsLock(s, id);
    case Receive(id, a) => assert Consistent(s.locks, s.tabs, s.requests[id]); ReceiveKeepsLock(s, id, a);
    case Grant => GrantKeepsLock(s);
    case RefreshReturns(call, a) => RefreshReturnsKeepsLock(s, call, a);
    case Proceed(id) => assert Consistent(s.locks, s.tabs, s.requests[id]); GoingOnKeepsLock(s, l);
    case Resume(id) => assert Consistent(s.locks, s.tabs, s.requests[id]); GoingOnKeepsLock(s, l);
    case _ => OutsideKeepsLock(s, l);
  }

  lemma MigrationSucceeds(s: State, a: RefreshAnswer)
    requires LockInv(s) && Enabled(s, RefreshReturns(LockHolder, a)) && s.lock.holder.value.ByMigration? && Renewed(a)
    ensures var s' := Apply(s, RefreshReturns(LockHolder, a));
      |MigratedTabs(s'.tabs)| == |MigratedTabs(s.tabs)| + 1 && s'.api.migrations == s.api.migrations + 1
  {
    var t := s.lock.holder.value.tab;
    assert MigratedTabs(Apply(s, RefreshReturns(LockHolder, a)).tabs) == MigratedTabs(s.tabs) + {t};
  }

  lemma MigratedTabsAfter(s: State, l: Label)
    requires LockInv(s) && TabInv(s.locks, s.tabs) && Enabled(s, l) && s.locks
    ensures var s' := Apply(s, l);
      |MigratedTabs(s'.tabs)| - |MigratedTabs(s.tabs)| == s'.api.migrations - s.api.migrations
  {
    if l.RefreshReturns? && l.call.LockHolder? && s.lock.holder.value.ByMigration? && Renewed(l.result) {
      MigrationSucceeds(s, l.result);
    } else {
      if l.Grant? { assert WantsLock(s, s.lock.queue[0]); }
      assert MigratedTabs(Apply(s, l).tabs) == MigratedTabs(s.tabs);
    }
  }

  /** A request starts to renew only on a 401 to its replay under the lock. */
  lemma RenewingStarts(s: State, l: Label, id: ReqId)
    requires Enabled(s, l) && Moves(s, l, id) && id in Apply(s, l).requests
    requires Apply(s, l).requests[id].phase.Renewing?
    ensures l.Receive? && l.answer == Unauthorized && s.requests[id].phase == InFlight(Early)
  {
  }

  /** Only an expiry, or a 401 for a token that was still good, makes a renewal due. */
  lemma DueAfter(s: State, l: Label)
    requires Enabled(s, l) && !RenewalDue(s) && RenewalDue(Apply(s, l))
    ensures l.Expire? || Apply(s, l).api.refusals == s.api.refusals + 1
  {
    var s' := Apply(s, l);
    if s'.api.tokenGood {
      var id :| id in s'.requests && s'.requests[id].phase.Renewing?;
      Footprint(s, l);
      RenewingStarts(s, l, id);
    }
  }

  /** A renewal under the lock uses up the one that was due, unless a migration asked for it. */
  lemma RenewalPaid(s: State, a: RefreshAnswer)
    requires s.locks && LockInv(s) && Enabled(s, RefreshReturns(LockHolder, a)) && Renewed(a)
    ensures !RenewalDue(Apply(s, RefreshReturns(LockHolder, a)))
    ensures s.lock.holder.value.ByRequest? ==> RenewalDue(s)
  {
    var s' := Apply(s, RefreshReturns(LockHolder, a));
    RefreshReturnsKeepsLock(s, LockHolder, a);
    forall id | id in s'.requests ensures !s'.requests[id].phase.Renewing? {
      assert !HoldsLock(s', ByRequest(id));
    }
  }

  lemma KeepsCredit(s: State, l: Label)
    requires LockInv(s) && TabInv(s.locks, s.tabs) && CreditInv(s) && Enabled(s, l)
    ensures CreditInv(Apply(s, l))
  {
    var s' := Apply(s, l);
    if s.locks {
      MigratedTabsAfter(s, l);
      if l.RefreshReturns? && Renewed(l.result) {
        RenewalPaid(s, l.result);
      } else if RenewalDue(s') && !RenewalDue(s) {
        DueAfter(s, l);
      }
    }
  }

  lemma KeepsInv(s: State, l: Label)
    requires Inv(s) && Enabled(s, l)
    ensures Inv(Apply(s, l))
  {
    KeepsLock(s, l);
    KeepsTabs(s, l);
    KeepsRequests(s, l);
    KeepsCredit(s, l);
  }

  lemma {:induction false} RunKeepsInv(s: State, ls: seq<Label>)
    requires Inv(s) && Legal(s, ls)
    ensures Inv(Exec(s, ls))
    decreases |ls|
  {
    if ls != [] {
      KeepsInv(s, ls[0]);
      RunKeepsInv(Apply(s, ls[0]), ls[1..]);
    }
  }
}
