/** Runs of the refresh protocol that show how far its promises go. */
module RefreshExamples {
  import opened Wrappers
  import opened Session
  import opened RefreshProtocol
  import opened RefreshInvariant
  import opened RefreshSafety

  lemma StepThenRun(s: State, l: Label, ls: seq<Label>)
    requires Enabled(s, l) && Legal(Apply(s, l), ls)
    ensures Legal(s, [l] + ls) && Exec(s, [l] + ls) == Exec(Apply(s, l), ls)
  {
    assert ([l] + ls)[1..] == ls;
  }

  /** Two steps, and then a run. */
  lemma TwoThenRun(s: State, k: Label, l: Label, ls: seq<Label>)
    requires Enabled(s, k) && Enabled(Apply(s, k), l) && Legal(Apply(Apply(s, k), l), ls)
    ensures Legal(s, [k, l] + ls) && Exec(s, [k, l] + ls) == Exec(Apply(Apply(s, k), l), ls)
  {
    StepThenRun(Apply(s, k), l, ls);
    StepThenRun(s, k, [l] + ls);
    assert [k, l] + ls == [k] + ([l] + ls);
  }

  // ----- without the lock API -----

  /** Two requests of one tab on an expired token; the second 401 arrives after the first one's refresh. */
  function LateRefusal(tokenGood: bool): seq<Label> {
    [Start(0, 0, NoAuth, false), Dispatch(0)] + ([Start(1, 0, NoAuth, false), Dispatch(1)]
      + (if tokenGood then [Expire] + RefusedTwice() else RefusedTwice()))
  }

  function RefusedTwice(): seq<Label> {
    [Receive(0, Unauthorized), RefreshReturns(TabPromise(0), RenewedInCookies)]
      + ([Receive(1, Unauthorized), RefreshReturns(TabPromise(1), RenewedInCookies)] + [])
  }

  lemma RefusedTwiceRotatesTwice(s: State)
    requires !s.locks && s.tabs == Tabs([], map[], map[]) && 0 in s.requests && 1 in s.requests
    requires s.requests[0] == s.requests[1] == Request(0, NoAuth, false, false, InFlight(First), [], 1, 0)
    ensures Legal(s, RefusedTwice())
    ensures var s' := Exec(s, RefusedTwice());
      s'.api == s.api.(tokenGood := true, renewals := s.api.renewals + 2) && s'.tabs.migration == map[]
  {
    var s1 := Apply(s, Receive(0, Unauthorized));
    var s2 := Apply(s1, RefreshReturns(TabPromise(0), RenewedInCookies));
    assert s2.requests[1] == s.requests[1] && s2.tabs.refreshing == map[];
    var s3 := Apply(s2, Receive(1, Unauthorized));
    var s4 := Apply(s3, RefreshReturns(TabPromise(1), RenewedInCookies));
    TwoThenRun(s2, Receive(1, Unauthorized), RefreshReturns(TabPromise(1), RenewedInCookies), []);
    TwoThenRun(s, Receive(0, Unauthorized), RefreshReturns(TabPromise(0), RenewedInCookies),
      [Receive(1, Unauthorized), RefreshReturns(TabPromise(1), RenewedInCookies)] + []);
  }

  /** Without the lock API nothing is replayed first, and one expiry rotates the token twice. */
  lemma WithoutLocksRenewalsExceed(s0: State)
    requires Init(s0) && !s0.locks && s0.cookies.refresh.None?
    ensures Legal(s0, LateRefusal(s0.api.tokenGood))
    ensures var s := Exec(s0, LateRefusal(s0.api.tokenGood));
      s.api == Api(true, 1, 2, 0, 0) && MigratedTabs(s.tabs) == {}
  {
    var sent := Request(0, NoAuth, false, false, InFlight(First), [], 1, 0);
    var s1 := s0.(requests := map[0 := sent]);
    var s2 := s0.(requests := map[0 := sent, 1 := sent]);
    var s3 := s2.(api := Api(false, 1, 0, 0, 0));
    RefusedTwiceRotatesTwice(s3);
    var rest := if s0.api.tokenGood then [Expire] + RefusedTwice() else RefusedTwice();
    if s0.api.tokenGood { StepThenRun(s2, Expire, RefusedTwice()); }
    assert Legal(s2, rest) && Exec(s2, rest) == Exec(s3, RefusedTwice());
    assert Apply(Apply(s1, Start(1, 0, NoAuth, false)), Dispatch(1)) == s2;
    TwoThenRun(s1, Start(1, 0, NoAuth, false), Dispatch(1), rest);
    assert Apply(Apply(s0, Start(0, 0, NoAuth, false)), Dispatch(0)) == s1;
    TwoThenRun(s0, Start(0, 0, NoAuth, false), Dispatch(0), [Start(1, 0, NoAuth, false), Dispatch(1)] + rest);
  }

  // ----- two tabs, one old session -----

  /** Each of two tabs finds the old session before the other has moved it; both refresh, one after the other. */
  function TwoMigrations(second: RefreshAnswer): seq<Label> {
    [Start(0, 0, NoAuth, false), Dispatch(0)] + ([Start(1, 1, NoAuth, false), Dispatch(1)] + BothRefresh(second))
  }

  function BothRefresh(second: RefreshAnswer): seq<Label> {
    [Grant, RefreshReturns(LockHolder, RenewedInCookies)] + ([Grant, RefreshReturns(LockHolder, second)] + [])
  }

  lemma BothTabsRefresh(s: State, second: RefreshAnswer) returns (s': State)
    requires s.lock == Lock(None, [ByMigration(0), ByMigration(1)])
    requires s.tabs.migration == map[0 := Queued, 1 := Queued]
    ensures Legal(s, BothRefresh(second)) && s' == Exec(s, BothRefresh(second))
    ensures s'.requests == s.requests
    ensures s'.tabs.migration == map[0 := Moved(true), 1 := Moved(Renewed(second))]
    ensures s'.cookies == AfterRefresh(Cookies(None, None, true), None, second)
    ensures s'.api.expiries == s.api.expiries && s'.api.refusals == s.api.refusals
    ensures s'.api.renewals == s.api.renewals + if Renewed(second) then 2 else 1
  {
    var s1 := Apply(s, Grant);
    assert s1.lock.queue == [ByMigration(1)];
    var s2 := Apply(s1, RefreshReturns(LockHolder, RenewedInCookies));
    assert s2.cookies == Cookies(None, None, true);
    var s3 := Apply(s2, Grant);
    s' := Apply(s3, RefreshReturns(LockHolder, second));
    TwoThenRun(s2, Grant, RefreshReturns(LockHolder, second), []);
    TwoThenRun(s, Grant, RefreshReturns(LockHolder, RenewedInCookies), [Grant, RefreshReturns(LockHolder, second)] + []);
  }

  lemma TwoTabsMigrate(s0: State, second: RefreshAnswer) returns (s: State)
    requires Init(s0) && s0.locks && s0.cookies.refresh.Some?
    ensures Legal(s0, TwoMigrations(second)) && s == Exec(s0, TwoMigrations(second))
    ensures s.requests.Keys == {0, 1} && s.requests[0].phase == s.requests[1].phase == Migrating(First)
    ensures s.tabs.migration == map[0 := Moved(true), 1 := Moved(Renewed(second))]
    ensures s.cookies == AfterRefresh(Cookies(None, None, true), None, second)
    ensures s.api.expiries == s0.api.expiries && s.api.refusals == 0
    ensures s.api.renewals == if Renewed(second) then 2 else 1
  {
    var q := (t: Tab) => Request(t, NoAuth, false, false, Migrating(First), [], 0, 0);
    var s1 := s0.(requests := map[0 := q(0)], tabs := Tabs([], map[], map[0 := Queued]), lock := Lock(None, [ByMigration(0)]));
    var s2 := s0.(requests := map[0 := q(0), 1 := q(1)], tabs := Tabs([], map[], map[0 := Queued, 1 := Queued]),
                  lock := Lock(None, [ByMigration(0), ByMigration(1)]));
    s := BothTabsRefresh(s2, second);
    assert Apply(Apply(s1, Start(1, 1, NoAuth, false)), Dispatch(1)) == s2;
    TwoThenRun(s1, Start(1, 1, NoAuth, false), Dispatch(1), BothRefresh(second));
    assert Apply(Apply(s0, Start(0, 0, NoAuth, false)), Dispatch(0)) == s1;
    TwoThenRun(s0, Start(0, 0, NoAuth, false), Dispatch(0), [Start(1, 1, NoAuth, false), Dispatch(1)] + BothRefresh(second));
  }

  /** The bound on rotations is met: two tabs that move one old session rotate twice with no expiry at all. */
  lemma MigrationsRotateOnTheirOwn(s0: State) returns (s: State)
    requires Init(s0) && s0.locks && s0.cookies.refresh.Some? && s0.api.tokenGood
    ensures Legal(s0, TwoMigrations(RenewedInCookies)) && s == Exec(s0, TwoMigrations(RenewedInCookies))
    ensures s.api.expiries == s.api.refusals == 0 && s.api.renewals == 2 == |MigratedTabs(s.tabs)|
  {
    s := TwoTabsMigrate(s0, RenewedInCookies);
    assert MigratedTabs(s.tabs) == {0, 1};
  }

  /** If the session is revoked in between, the second tab's migration forgets the login, and no request has ended it. */
  lemma MigrationCanForgetTheLogin(s0: State) returns (s: State)
    requires Init(s0) && s0.locks && s0.cookies.refresh.Some?
    ensures var ls := TwoMigrations(RefreshAnswer.Refused(true)); Legal(s0, ls) && s == Exec(s0, ls)
    ensures s.cookies == Cookies(None, None, false) && !SomeRequestEnded(s)
  {
    s := TwoTabsMigrate(s0, RefreshAnswer.Refused(true));
  }

  // ----- exactly when rotations stay within expiries -----

  /** Without locks each of two tabs refreshes for itself. */
  function BothTabsAlone(): seq<Label> {
    [Start(0, 0, NoAuth, false), Dispatch(0)] + ([Start(1, 1, NoAuth, false), Dispatch(1)] + BothReturn())
  }

  function BothReturn(): seq<Label> {
    [RefreshReturns(TabPromise(0), RenewedInCookies), RefreshReturns(TabPromise(1), RenewedInCookies)] + []
  }

  lemma BothReturnRotateTwice(s: State, offered: Option<Token>)
    requires s.tabs == Tabs([Pending(0, offered), Pending(1, offered)], map[0 := 0, 1 := 1], map[0 := InTab(0), 1 := InTab(1)])
    ensures Legal(s, BothReturn())
    ensures Exec(s, BothReturn()).api == s.api.(tokenGood := true, renewals := s.api.renewals + 2)
  {
    TwoThenRun(s, RefreshReturns(TabPromise(0), RenewedInCookies), RefreshReturns(TabPromise(1), RenewedInCookies), []);
  }

  lemma BothTabsAloneRotateTwice(s0: State)
    requires Init(s0) && !s0.locks && s0.cookies.refresh.Some?
    ensures Legal(s0, BothTabsAlone())
    ensures Exec(s0, BothTabsAlone()).api == s0.api.(tokenGood := true, renewals := 2)
  {
    var offered := s0.cookies.refresh;
    var q0, q1 := Request(0, NoAuth, false, false, Migrating(First), [], 0, 0), Request(1, NoAuth, false, false, Migrating(First), [], 0, 0);
    var s1 := s0.(requests := map[0 := q0], tabs := Tabs([Pending(0, offered)], map[0 := 0], map[0 := InTab(0)]));
    var s2 := s0.(requests := map[0 := q0, 1 := q1],
                  tabs := Tabs([Pending(0, offered), Pending(1, offered)], map[0 := 0, 1 := 1], map[0 := InTab(0), 1 := InTab(1)]));
    BothReturnRotateTwice(s2, offered);
    assert Apply(Apply(s1, Start(1, 1, NoAuth, false)), Dispatch(1)) == s2;
    TwoThenRun(s1, Start(1, 1, NoAuth, false), Dispatch(1), BothReturn());
    assert Apply(Apply(s0, Start(0, 0, NoAuth, false)), Dispatch(0)) == s1;
    TwoThenRun(s0, Start(0, 0, NoAuth, false), Dispatch(0), [Start(1, 1, NoAuth, false), Dispatch(1)] + BothReturn());
  }

  /** A fair run: every 401 means "expired", and no readable token is handed out. */
  ghost predicate Fair(s0: State, ls: seq<Label>) {
    Legal(s0, ls) && NoTokensHandedOut(ls) && Exec(s0, ls).api.refusals == 0
  }

  ghost predicate RotatesTooOften(s0: State, ls: seq<Label>) {
    Fair(s0, ls) && Exec(s0, ls).api.renewals > Exec(s0, ls).api.expiries
  }

  lemma NoTokensJoin(a: seq<Label>, b: seq<Label>)
    requires NoTokensHandedOut(a) && NoTokensHandedOut(b)
    ensures NoTokensHandedOut(a + b)
  {
  }

  lemma NoTokensInExamples(tokenGood: bool)
    ensures NoTokensHandedOut(TwoMigrations(RenewedInCookies))
    ensures NoTokensHandedOut(BothTabsAlone())
    ensures NoTokensHandedOut(LateRefusal(tokenGood))
  {
    assert NoTokensHandedOut(RefusedTwice());
    NoTokensJoin([Expire], RefusedTwice());
  }

  lemma TwoMigrationsRotateTooOften(s0: State)
    requires Init(s0) && s0.locks && s0.cookies.refresh.Some?
    ensures RotatesTooOften(s0, TwoMigrations(RenewedInCookies))
  {
    var s := TwoTabsMigrate(s0, RenewedInCookies);
    NoTokensInExamples(true);
  }

  lemma LateRefusalRotatesTooOften(s0: State)
    requires Init(s0) && !s0.locks && s0.cookies.refresh.None?
    ensures RotatesTooOften(s0, LateRefusal(s0.api.tokenGood))
  {
    WithoutLocksRenewalsExceed(s0);
    NoTokensInExamples(s0.api.tokenGood);
  }

  lemma BothTabsAloneRotateTooOften(s0: State)
    requires Init(s0) && !s0.locks && s0.cookies.refresh.Some?
    ensures RotatesTooOften(s0, BothTabsAlone())
  {
    BothTabsAloneRotateTwice(s0);
    NoTokensInExamples(true);
  }

  /** From a page load, every fair run keeps rotations within expiries exactly with locks and nothing to move over. */
  lemma WhenRenewalsStayWithinExpiries(s0: State)
    requires Init(s0)
    ensures (forall ls | Fair(s0, ls) :: !RotatesTooOften(s0, ls)) <==> s0.locks && s0.cookies.refresh.None?
  {
    if s0.locks && s0.cookies.refresh.None? {
      forall ls | Fair(s0, ls) ensures !RotatesTooOften(s0, ls) {
        RenewalsNeverExceedExpiries(s0, ls);
      }
    } else if s0.locks {
      TwoMigrationsRotateTooOften(s0);
    } else if s0.cookies.refresh.None? {
      LateRefusalRotatesTooOften(s0);
    } else {
      BothTabsAloneRotateTooOften(s0);
    }
  }
}
