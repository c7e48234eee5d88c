/** No run of the refresh protocol gets stuck, and none goes on forever. */
module RefreshProgress {
  import opened Wrappers
  import opened Session
  import opened RefreshProtocol
  import opened RefreshInvariant

  // ----- progress -----

  ghost predicate AllDone(s: State) {
    forall id | id in s.requests :: s.requests[id].phase.Done?
  }

  /** Whoever is stuck behind the lock, somebody can move: the holder, or the first in line. */
  lemma LockMoves(s: State) returns (l: Label)
    requires LockInv(s) && (s.lock.holder.Some? || |s.lock.queue| > 0)
    ensures Internal(l) && Enabled(s, l)
  {
    match s.lock.holder
    case None =>
      assert WantsLock(s, s.lock.queue[0]);
      l := Grant;
    case Some(o) =>
      assert HoldsLock(s, o);
      if RefreshInFlight(s, LockHolder) {
        l := RefreshReturns(LockHolder, NoAnswer);
      } else {
        l := Receive(o.id, Ok);
      }
  }

  lemma RequestMoves(s: State, id: ReqId) returns (l: Label)
    requires Inv(s) && id in s.requests && !s.requests[id].phase.Done?
    ensures Internal(l) && Enabled(s, l)
  {
    var q := s.requests[id];
    assert Consistent(s.locks, s.tabs, q);
    match q.phase
    case Building(_) => l := Dispatch(id);
    case InFlight(_) => l := Receive(id, Ok);
    case Resumed(_) => l := Resume(id);
    case WantLock => assert WantsLock(s, ByRequest(id)); l := LockMoves(s);
    case Renewing(_) => assert HoldsLock(s, ByRequest(id)); l := LockMoves(s);
    case Waiting(p) => l := if s.tabs.promises[p].Fulfilled? then Resume(id) else RefreshReturns(TabPromise(p), NoAnswer);
    case Migrating(_) =>
      assert MigrationKnown(s.tabs, MigrationOf(s.tabs, q.tab));
      match MigrationOf(s.tabs, q.tab) {
        case Moved(_) => l := Proceed(id);
        case InTab(p) => l := if s.tabs.promises[p].Fulfilled? then Proceed(id) else RefreshReturns(TabPromise(p), NoAnswer);
        case Queued => assert WantsLock(s, ByMigration(q.tab)); l := LockMoves(s);
        case Moving(_) => assert HoldsLock(s, ByMigration(q.tab)); l := LockMoves(s);
      }
  }

  /** In no run does everything wait: until every request is done, some step of the protocol can be taken. */
  lemma NeverStuck(s0: State, ls: seq<Label>)
    requires Init(s0) && Legal(s0, ls)
    ensures AllDone(Exec(s0, ls)) || exists l :: Internal(l) && Enabled(Exec(s0, ls), l)
  {
    InitInv(s0);
    RunKeepsInv(s0, ls);
    var s := Exec(s0, ls);
    if id :| id in s.requests && !s.requests[id].phase.Done? {
      var l := RequestMoves(s, id);
    }
  }

  // ----- termination -----

  /** The sum of a table of weights. */
  ghost function Total(m: map<nat, nat>): nat
    decreases |m|
  {
    if m == map[] then 0 else var k :| k in m; m[k] + Total(m - {k})
  }

  lemma {:induction false} TotalWithout(m: map<nat, nat>, k: nat)
    requires k in m
    ensures Total(m) == m[k] + Total(m - {k})
    decreases |m|
  {
    var j :| j in m && Total(m) == m[j] + Total(m - {j});
    if j != k {
      TotalWithout(m - {j}, k);
      TotalWithout(m - {k}, j);
      assert m - {j} - {k} == m - {k} - {j};
    }
  }

  lemma TotalUpdate(m: map<nat, nat>, k: nat, v: nat)
    ensures Total(m[k := v]) == Total(m) - (if k in m then m[k] else 0) + v
  {
    TotalWithout(m[k := v], k);
    assert m[k := v] - {k} == m - {k};
    if k in m { TotalWithout(m, k); } else { assert m - {k} == m; }
  }

  const MAX_STEPS := 16

  /** At most how many steps of the protocol a request still costs, those of what it may start included. */
  function StepsLeft(phase: Phase): nat {
    match phase
    case Building(First) => MAX_STEPS
    case Migrating(First) => 12
    case InFlight(First) => 11
    case WantLock => 10
    case InFlight(Early) => 9
    case Renewing(_) => 8
    case Waiting(_) => 8
    case Resumed(_) => 7
    case Building(_) => 6
    case Migrating(_) => 2
    case InFlight(Final) => 1
    case Done(_) => 0
  }

  function MigrationStepsLeft(m: Migration): nat {
    match m
    case Queued => 2
    case Moving(_) => 1
    case _ => 0
  }

  ghost function RequestTable(requests: map<ReqId, Request>): map<nat, nat> {
    map id | id in requests :: StepsLeft(requests[id].phase)
  }

  ghost function MigrationTable(tabs: Tabs): map<nat, nat> {
    map t | t in tabs.migration :: MigrationStepsLeft(tabs.migration[t])
  }

  ghost function TabMeasure(tabs: Tabs): nat {
    Total(MigrationTable(tabs)) + |tabs.refreshing|
  }

  ghost function Measure(s: State): nat {
    Total(RequestTable(s.requests)) + TabMeasure(s.tabs)
  }

  lemma SetMigrationMeasure(tabs: Tabs, t: Tab, m: Migration)
    ensures TabMeasure(SetMigration(tabs, t, m))
         == TabMeasure(tabs) - MigrationStepsLeft(MigrationOf(tabs, t)) + MigrationStepsLeft(m)
  {
    TotalUpdate(MigrationTable(tabs), t, MigrationStepsLeft(m));
    assert MigrationTable(SetMigration(tabs, t, m)) == MigrationTable(tabs)[t := MigrationStepsLeft(m)];
  }

  lemma RefreshInTabMeasure(tabs: Tabs, t: Tab, offered: Option<Token>)
    ensures TabMeasure(RefreshInTab(tabs, t, offered).0) <= TabMeasure(tabs) + 1
  {
    assert MigrationTable(RefreshInTab(tabs, t, offered).0) == MigrationTable(tabs);
  }

  lemma MigrateMeasure(s: State, t: Tab)
    ensures TabMeasure(MigrateLegacySession(s, t).tabs) <= TabMeasure(s.tabs) + 2
  {
    if MigrationOf(s.tabs, t).Unset? {
      var (tabs, p) := RefreshInTab(s.tabs, t, s.cookies.refresh);
      RefreshInTabMeasure(s.tabs, t, s.cookies.refresh);
      SetMigrationMeasure(tabs, t, InTab(p));
      SetMigrationMeasure(s.tabs, t, Queued);
      SetMigrationMeasure(s.tabs, t, Moved(false));
    }
  }

  lemma TableUpdate(before: map<ReqId, Request>, after: map<ReqId, Request>, id: ReqId)
    requires id in after && after.Keys == before.Keys + {id}
    requires forall i | i in before && i != id :: after[i] == before[i]
    ensures Total(RequestTable(after)) == Total(RequestTable(before))
      - (if id in before then StepsLeft(before[id].phase) else 0) + StepsLeft(after[id].phase)
  {
    TotalUpdate(RequestTable(before), id, StepsLeft(after[id].phase));
    assert RequestTable(after) == RequestTable(before)[id := StepsLeft(after[id].phase)];
  }

  /** A step costs its request what the table says, and no other request anything. */
  lemma RequestMoved(s: State, l: Label, id: ReqId)
    requires Enabled(s, l) && Moves(s, l, id) && id in Apply(s, l).requests
    ensures var s' := Apply(s, l);
      Total(RequestTable(s'.requests)) == Total(RequestTable(s.requests))
        - (if id in s.requests then StepsLeft(s.requests[id].phase) else 0) + StepsLeft(s'.requests[id].phase)
  {
    Footprint(s, l);
    TableUpdate(s.requests, Apply(s, l).requests, id);
  }

  lemma DispatchCosts(s: State, id: ReqId)
    requires Enabled(s, Dispatch(id)) && Consistent(s.locks, s.tabs, s.requests[id])
    ensures Measure(Apply(s, Dispatch(id))) < Measure(s)
  {
    RequestMoved(s, Dispatch(id), id);
    MigrateMeasure(s, s.requests[id].tab);
  }

  lemma ReceiveLeaves(s: State, id: ReqId, a: Answer)
    requires Enabled(s, Receive(id, a)) && Consistent(s.locks, s.tabs, s.requests[id])
    ensures var s' := Apply(s, Receive(id, a));
      && id in s'.requests
      && (if s'.requests[id].phase.Waiting? && !s.locks
          then s'.tabs == RefreshInTab(s.tabs, s.requests[id].tab, s.cookies.refresh).0
               && StepsLeft(s.requests[id].phase) == 11
          else s'.tabs == s.tabs && StepsLeft(s'.requests[id].phase) < StepsLeft(s.requests[id].phase))
  {
  }

  lemma ReceiveCosts(s: State, id: ReqId, a: Answer)
    requires Enabled(s, Receive(id, a)) && Consistent(s.locks, s.tabs, s.requests[id])
    ensures Measure(Apply(s, Receive(id, a))) < Measure(s)
  {
    ReceiveLeaves(s, id, a);
    RequestMoved(s, Receive(id, a), id);
    RefreshInTabMeasure(s.tabs, s.requests[id].tab, s.cookies.refresh);
    var s' := Apply(s, Receive(id, a));
    assert TabMeasure(s'.tabs) + StepsLeft(s'.requests[id].phase) < TabMeasure(s.tabs) + StepsLeft(s.requests[id].phase);
  }

  lemma GrantCosts(s: State)
    requires LockInv(s) && Enabled(s, Grant)
    ensures Measure(Apply(s, Grant)) < Measure(s)
  {
    var first := s.lock.queue[0];
    assert WantsLock(s, first);
    match first
    case ByRequest(id) => RequestMoved(s, Grant, id);
    case ByMigration(t) => SetMigrationMeasure(s.tabs, t, Moving(s.cookies.refresh));
  }

  lemma SharedRefreshCosts(s: State, p: PromiseId, a: RefreshAnswer)
    requires TabInv(s.locks, s.tabs) && Enabled(s, RefreshReturns(TabPromise(p), a))
    ensures Measure(Apply(s, RefreshReturns(TabPromise(p), a))) < Measure(s)
  {
    var t := s.tabs.promises[p].tab;
    var s' := Apply(s, RefreshReturns(TabPromise(p), a));
    assert Shared(s.tabs, t, p);
    assert MigrationTable(s'.tabs) == MigrationTable(s.tabs);
    assert s.tabs.refreshing.Keys == s'.tabs.refreshing.Keys + {t};
  }

  lemma LockedRefreshCosts(s: State, a: RefreshAnswer)
    requires Enabled(s, RefreshReturns(LockHolder, a))
    ensures Measure(Apply(s, RefreshReturns(LockHolder, a))) < Measure(s)
  {
    match s.lock.holder.value
    case ByRequest(id) => RequestMoved(s, RefreshReturns(LockHolder, a), id);
    case ByMigration(t) => SetMigrationMeasure(s.tabs, t, Moved(Renewed(a)));
  }

  lemma ProceedCosts(s: State, id: ReqId)
    requires Enabled(s, Proceed(id)) && Consistent(s.locks, s.tabs, s.requests[id])
    ensures Measure(Apply(s, Proceed(id))) < Measure(s)
  {
    RequestMoved(s, Proceed(id), id);
  }

  lemma ResumeCosts(s: State, id: ReqId)
    requires Enabled(s, Resume(id))
    ensures Measure(Apply(s, Resume(id))) < Measure(s)
  {
    RequestMoved(s, Resume(id), id);
  }

  /** Each step of the protocol uses up one of the steps left. */
  lemma StepCosts(s: State, l: Label)
    requires Inv(s) && Enabled(s, l) && Internal(l)
    ensures Measure(Apply(s, l)) < Measure(s)
  {
    match l
    case Dispatch(id) =>
      assert Consistent(s.locks, s.tabs, s.requests[id]);
      DispatchCosts(s, id);
    case Receive(id, a) =>
      assert Consistent(s.locks, s.tabs, s.requests[id]);
      ReceiveCosts(s, id, a);
    case Grant => GrantCosts(s);
    case RefreshReturns(TabPromise(p), a) => SharedRefreshCosts(s, p, a);
    case RefreshReturns(LockHolder, a) => LockedRefreshCosts(s, a);
    case Proceed(id) =>
      assert Consistent(s.locks, s.tabs, s.requests[id]);
      ProceedCosts(s, id);
    case Resume(id) => ResumeCosts(s, id);
  }

  /** A new request brings `MAX_STEPS`; a login or an expiry brings none. */
  lemma OutsideCosts(s: State, l: Label)
    requires Enabled(s, l) && !Internal(l)
    ensures Measure(Apply(s, l)) == Measure(s) + if l.Start? then MAX_STEPS else 0
  {
    if l.Start? { RequestMoved(s, l, l.id); }
  }

  function Count(ls: seq<Label>, p: Label -> bool): nat {
    if ls == [] then 0 else (if p(ls[0]) then 1 else 0) + Count(ls[1..], p)
  }

  /** However the steps interleave, there are at most 16 for each request started. */
  lemma {:induction false} StepsAreBounded(s: State, ls: seq<Label>)
    requires Inv(s) && Legal(s, ls)
    ensures Count(ls, l => Internal(l)) + Measure(Exec(s, ls)) <= Measure(s) + MAX_STEPS * Count(ls, (l: Label) => l.Start?)
    decreases |ls|
  {
    if ls != [] {
      if Internal(ls[0]) { StepCosts(s, ls[0]); } else { OutsideCosts(s, ls[0]); }
      KeepsInv(s, ls[0]);
      StepsAreBounded(Apply(s, ls[0]), ls[1..]);
    }
  }

  /** ... so no run goes on without end, and each request costs it at most 16 steps. */
  lemma RunsAreShort(s0: State, ls: seq<Label>)
    requires Init(s0) && Legal(s0, ls)
    ensures Count(ls, l => Internal(l)) <= MAX_STEPS * Count(ls, (l: Label) => l.Start?)
  {
    InitInv(s0);
    StepsAreBounded(s0, ls);
    assert RequestTable(s0.requests) == map[] && MigrationTable(s0.tabs) == map[];
  }

  /** From any state a run can reach, the protocol's own steps finish every request. */
  lemma {:induction false} Drain(s: State) returns (ls: seq<Label>)
    requires Inv(s)
    ensures Legal(s, ls) && AllDone(Exec(s, ls)) && forall l | l in ls :: Internal(l)
    decreases Measure(s)
  {
    if AllDone(s) { return []; }
    var id :| id in s.requests && !s.requests[id].phase.Done?;
    var l := RequestMoves(s, id);
    StepCosts(s, l);
    KeepsInv(s, l);
    var rest := Drain(Apply(s, l));
    ls := [l] + rest;
    assert ls[1..] == rest;
  }
}
