/**
  Sender and viewer together, on one clock, with instant delivery. Keys, stops, other people's events
  and timers interleave freely; a timer goes off before the clock passes the moment it is due.
 */
module TypingProtocol {
  import opened Wrappers
  import opened Typing

  /** `typist` is seen by the viewer; the three times are the source's, or any others. */
  datatype Setup = Setup(typist: User, throttle: nat, idleAfter: nat, expire: nat)

  function Usual(typist: User): Setup {
    Setup(typist, TYPING_THROTTLE_MS, TYPING_IDLE_MS, TYPING_EXPIRE_MS)
  }

  /**
    `lastKey`, `stopped` (since that key, by hand or by sending) and `lost` (since that key, a
    "stopped" that never arrived) only record what happened.
   */
  datatype Chat = Chat(
    now: Time, emitter: Emitter, viewer: Viewer, lastKey: Option<Time>, stopped: bool, lost: bool)

  datatype Label =
    | Tick(ms: nat)
    | Key
    | Stop(lost: bool)
    | Send(lost: bool)                 // the message goes out: stop(), then it lands
    | IdleFires(lost: bool)
    | ExpireFires(user: User)
    | Other(event: SocketEvent)        // about somebody else, or another conversation

  predicate Shown(c: Chat, u: User) {
    u in c.viewer.typers
  }

  predicate Concerns(e: SocketEvent, v: Viewer, u: User) {
    match e
    case UserTyping(conv, user, _) => conv == v.conversation && user == Some(u)
    case UserStopped(conv, user) => conv == v.conversation && user == Some(u)
    case Message(conv, sender) => sender == Some(u) && (conv.None? || conv.value == v.conversation)
  }

  ghost predicate Enabled(x: Setup, c: Chat, l: Label) {
    match l
    case Tick(ms) =>
      && (c.emitter.idle.Some? ==> c.now + ms <= c.emitter.idle.value)
      && (forall u | u in c.viewer.pending :: c.now + ms <= c.viewer.pending[u])
    case IdleFires(_) => c.emitter.idle == Some(c.now)
    case ExpireFires(u) => u in c.viewer.pending && c.viewer.pending[u] == c.now
    case Other(e) => !Concerns(e, c.viewer, x.typist)
    case _ => true
  }

  /**
    What an event does to what the viewer shows: of the user it concerns, the name sent (until it expires)
    or nothing, once they stop or their message lands; of everybody else nothing changes.
   */
  lemma HearingIs(v: Viewer, e: SocketEvent, now: Time, expire: nat, u: User)
    requires v.me != Some(u)
    ensures var w := Receive(v, e, now, expire);
      if !Concerns(e, v, u) then
        && (u in w.typers <==> u in v.typers) && (u in v.typers ==> w.typers[u] == v.typers[u])
        && (u in w.pending <==> u in v.pending) && (u in v.pending ==> w.pending[u] == v.pending[u])
      else if e.UserTyping? then
        && u in w.typers && w.typers[u] == (if e.name.Some? then e.name.value else "Someone")
        && u in w.pending && w.pending[u] == now + expire
      else u !in w.typers && u !in w.pending
  {
  }

  /** Nobody is shown to themselves. */
  lemma OwnTypingIsIgnored(v: Viewer, name: Option<string>, now: Time, expire: nat)
    requires v.me.Some?
    ensures Receive(v, UserTyping(v.conversation, v.me, name), now, expire) == v
  {
  }

  /** What the sender says, as it reaches the viewer. */
  function Heard(x: Setup, v: Viewer, typing: bool, now: Time): Viewer {
    Receive(v, if typing then UserTyping(v.conversation, Some(x.typist), None) else UserStopped(v.conversation, Some(x.typist)),
            now, x.expire)
  }

  function SenderStops(x: Setup, c: Chat, lost: bool): Chat {
    c.(emitter := RESTING,
       viewer := if c.emitter.active && !lost then Heard(x, c.viewer, false, c.now) else c.viewer,
       lost := c.lost || (c.emitter.active && lost))
  }

  function Apply(x: Setup, c: Chat, l: Label): Chat {
    match l
    case Tick(ms) => c.(now := c.now + ms)
    case Key =>
      c.(emitter := AfterKey(c.emitter, c.now, x.throttle, x.idleAfter),
         viewer := if KeySends(c.emitter, c.now, x.throttle) then Heard(x, c.viewer, true, c.now) else c.viewer,
         lastKey := Some(c.now), stopped := false, lost := false)
    case Stop(lost) => SenderStops(x, c, lost).(stopped := true)
    case Send(lost) =>
      var c1 := SenderStops(x, c, lost).(stopped := true);
      c1.(viewer := Receive(c1.viewer, Message(Some(c.viewer.conversation), Some(x.typist)), c.now, x.expire))
    case IdleFires(lost) => SenderStops(x, c, lost)
    case ExpireFires(u) => c.(viewer := Dropped(c.viewer, u))
    case Other(e) => c.(viewer := Receive(c.viewer, e, c.now, x.expire))
  }

  ghost predicate Init(x: Setup, c: Chat) {
    && c.emitter == RESTING && c.lastKey.None? && !c.stopped && !c.lost
    && c.viewer.pending == map[] && c.viewer.typers == map[]
    && c.viewer.me != Some(x.typist)
  }

  ghost predicate ViewerInv(x: Setup, c: Chat) {
    && c.viewer.me != Some(x.typist)
    && c.viewer.pending.Keys == c.viewer.typers.Keys
    && (forall u | u in c.viewer.pending :: c.now <= c.viewer.pending[u])
  }

  /** The sender's timers follow the last key; the last "typing" is less than `throttle` older. */
  ghost predicate SenderInv(x: Setup, c: Chat) {
    var e := c.emitter;
    && (c.lastKey.Some? ==> c.lastKey.value <= c.now)
    && (e.active <==> e.idle.Some?)
    && (c.stopped ==> !e.active)
    && (e.active ==>
          && c.lastKey.Some?
          && e.idle.value == c.lastKey.value + x.idleAfter
          && c.now <= e.idle.value
          && e.lastSent <= c.lastKey.value
          && (e.lastSent == c.lastKey.value || c.lastKey.value - e.lastSent < x.throttle))
    && (c.lastKey.Some? && !c.stopped && c.now < c.lastKey.value + x.idleAfter ==> e.active)
  }

  /** What the viewer shows of the typist is the last "typing", until it expires or is taken back. */
  ghost predicate SharedInv(x: Setup, c: Chat) {
    var u := x.typist;
    && (c.emitter.active && c.now < c.emitter.lastSent + x.expire ==>
          u in c.viewer.pending && c.viewer.pending[u] == c.emitter.lastSent + x.expire)
    && (u in c.viewer.pending ==> c.lastKey.Some? && c.viewer.pending[u] <= c.lastKey.value + x.expire)
    && (u in c.viewer.pending && !c.lost ==> c.emitter.active)
  }

  ghost predicate Inv(x: Setup, c: Chat) {
    ViewerInv(x, c) && SenderInv(x, c) && SharedInv(x, c)
  }

  lemma KeepsInv(x: Setup, c: Chat, l: Label)
    requires Inv(x, c) && Enabled(x, c, l)
    ensures Inv(x, Apply(x, c, l))
  {
  }

  // ----- runs -----

  ghost predicate Legal(x: Setup, c: Chat, ls: seq<Label>)
    decreases |ls|
  {
    ls == [] || (Enabled(x, c, ls[0]) && Legal(x, Apply(x, c, ls[0]), ls[1..]))
  }

  function Exec(x: Setup, c: Chat, ls: seq<Label>): Chat
    decreases |ls|
  {
    if ls == [] then c else Exec(x, Apply(x, c, ls[0]), ls[1..])
  }

  lemma {:induction false} RunKeepsInv(x: Setup, c: Chat, ls: seq<Label>)
    requires Inv(x, c) && Legal(x, c, ls)
    ensures Inv(x, Exec(x, c, ls))
    decreases |ls|
  {
    if ls != [] {
      KeepsInv(x, c, ls[0]);
      RunKeepsInv(x, Apply(x, c, ls[0]), ls[1..]);
    }
  }

  /**
    In every run: for `expire - throttle` after each key the viewer sees "typing", unless the typist
    stopped by hand. So keys no further apart than that never let the indicator drop.
   */
  lemma ShownWhileTyping(x: Setup, c0: Chat, ls: seq<Label>)
    requires Init(x, c0) && Legal(x, c0, ls)
    requires 0 < x.throttle && x.expire - x.throttle < x.idleAfter
    ensures var c := Exec(x, c0, ls);
      c.lastKey.Some? && !c.stopped && c.now <= c.lastKey.value + (x.expire - x.throttle) ==> Shown(c, x.typist)
  {
    RunKeepsInv(x, c0, ls);
  }

  /** In every run: the indicator is gone `idleAfter` past the last key, or `expire` past it if the stop was lost. */
  lemma GoneWhenDone(x: Setup, c0: Chat, ls: seq<Label>)
    requires Init(x, c0) && Legal(x, c0, ls)
    ensures var c := Exec(x, c0, ls);
      Shown(c, x.typist) ==>
        && c.lastKey.Some?
        && c.now <= c.lastKey.value + x.expire
        && (!c.lost ==> c.now <= c.lastKey.value + x.idleAfter)
        && (c.stopped ==> c.lost)
  {
    RunKeepsInv(x, c0, ls);
  }

  /** A message that lands takes the indicator down, even if the "stopped" before it was lost. */
  lemma SendDrops(x: Setup, c: Chat, lost: bool)
    requires Inv(x, c)
    ensures !Shown(Apply(x, c, Send(lost)), x.typist) && !Apply(x, c, Send(lost)).emitter.active
  {
  }

  /** With the source's times: 3 seconds between keys, gone after 4, or 5. */
  lemma UsualTimes(typist: User, c0: Chat, ls: seq<Label>)
    requires Init(Usual(typist), c0) && Legal(Usual(typist), c0, ls)
    ensures var c := Exec(Usual(typist), c0, ls);
      c.lastKey.Some? ==>
        && (!c.stopped && c.now <= c.lastKey.value + 3000 ==> Shown(c, typist))
        && (c.now > c.lastKey.value + 4000 && !c.lost ==> !Shown(c, typist))
        && (c.now > c.lastKey.value + 5000 ==> !Shown(c, typist))
  {
    ShownWhileTyping(Usual(typist), c0, ls);
    GoneWhenDone(Usual(typist), c0, ls);
  }

  lemma StepThenRun(x: Setup, c: Chat, l: Label, ls: seq<Label>)
    requires Enabled(x, c, l) && Legal(x, Apply(x, c, l), ls)
    ensures Legal(x, c, [l] + ls) && Exec(x, c, [l] + ls) == Exec(x, Apply(x, c, l), ls)
  {
    assert ([l] + ls)[1..] == ls;
  }

  // ----- the window is exact -----

  /** A key every millisecond, `n` times over. */
  function KeepTyping(n: nat, rest: seq<Label>): seq<Label> {
    if n == 0 then rest else [Tick(1)] + ([Key] + KeepTyping(n - 1, rest))
  }

  /** `n` milliseconds into a burst, when only its first key has been told. */
  ghost predicate InBurst(x: Setup, start: Time, n: nat, c: Chat) {
    && c.now == start + n
    && c.emitter == Emitter(start, true, Some(c.now + x.idleAfter))
    && c.viewer.pending == map[x.typist := start + x.expire] && c.viewer.typers.Keys == {x.typist}
    && c.lastKey == Some(c.now) && !c.stopped
  }

  lemma BurstGoesOn(x: Setup, start: Time, n: nat, c: Chat)
    requires InBurst(x, start, n, c) && n + 1 < x.throttle <= x.expire && x.idleAfter > 0
    ensures Enabled(x, c, Tick(1)) && InBurst(x, start, n + 1, Apply(x, Apply(x, c, Tick(1)), Key))
  {
  }

  lemma {:induction false} BurstThenRun(x: Setup, start: Time, n: nat, more: nat, c: Chat, rest: seq<Label>) returns (c': Chat)
    requires InBurst(x, start, n, c) && n + more < x.throttle <= x.expire && x.idleAfter > 0
    ensures InBurst(x, start, n + more, c')
    ensures Legal(x, c', rest) ==> Legal(x, c, KeepTyping(more, rest)) && Exec(x, c, KeepTyping(more, rest)) == Exec(x, c', rest)
    decreases more
  {
    if more == 0 { return c; }
    BurstGoesOn(x, start, n, c);
    var c1 := Apply(x, c, Tick(1));
    var c2 := Apply(x, c1, Key);
    c' := BurstThenRun(x, start, n + 1, more - 1, c2, rest);
    if Legal(x, c', rest) {
      StepThenRun(x, c1, Key, KeepTyping(more - 1, rest));
      StepThenRun(x, c, Tick(1), [Key] + KeepTyping(more - 1, rest));
    }
  }

  /** Typing up to the moment before "typing" would be said again, and then a pause just past the window. */
  function JustTooLong(x: Setup): seq<Label>
    requires 0 < x.throttle <= x.expire
  {
    [Key] + KeepTyping(x.throttle - 1, [Tick(x.expire - x.throttle + 1)] + ([ExpireFires(x.typist)] + []))
  }

  /** For any three times: one millisecond past `expire - throttle`, the indicator can drop while the typist types on. */
  lemma JustTooLongDrops(x: Setup, c0: Chat) returns (c: Chat)
    requires Init(x, c0) && 0 < x.throttle <= x.expire && x.expire - x.throttle < x.idleAfter
    ensures Legal(x, c0, JustTooLong(x)) && c == Exec(x, c0, JustTooLong(x))
    ensures c.emitter.active && !c.stopped && c.lastKey == Some(c.now - (x.expire - x.throttle + 1)) && !Shown(c, x.typist)
  {
    var pause := x.expire - x.throttle + 1;
    var rest := [Tick(pause)] + ([ExpireFires(x.typist)] + []);
    var c1 := Apply(x, c0, Key);
    var c2 := BurstThenRun(x, c0.now, 0, x.throttle - 1, c1, rest);
    var c3 := Apply(x, c2, Tick(pause));
    c := Apply(x, c3, ExpireFires(x.typist));
    StepThenRun(x, c3, ExpireFires(x.typist), []);
    StepThenRun(x, c2, Tick(pause), [ExpireFires(x.typist)] + []);
    StepThenRun(x, c0, Key, KeepTyping(x.throttle - 1, rest));
  }

  /** In every run from `c0`, the typist is shown for `window` after each key, unless they stopped by hand. */
  ghost predicate ShownFor(x: Setup, c0: Chat, window: int) {
    forall ls | Legal(x, c0, ls) ::
      var c := Exec(x, c0, ls);
      c.lastKey.Some? && !c.stopped && c.now <= c.lastKey.value + window ==> Shown(c, x.typist)
  }

  /** The window is exactly `expire - throttle`. */
  lemma WindowIsExact(x: Setup, c0: Chat, window: int)
    requires Init(x, c0) && 0 < x.throttle <= x.expire && x.expire - x.throttle < x.idleAfter
    ensures ShownFor(x, c0, window) <==> window <= x.expire - x.throttle
  {
    if window <= x.expire - x.throttle {
      forall ls | Legal(x, c0, ls)
        ensures var c := Exec(x, c0, ls);
          c.lastKey.Some? && !c.stopped && c.now <= c.lastKey.value + window ==> Shown(c, x.typist)
      {
        ShownWhileTyping(x, c0, ls);
      }
    } else {
      var c := JustTooLongDrops(x, c0);
    }
  }

  /** 3 seconds is the most: one millisecond more, and the indicator can drop while the typist types on. */
  lemma OneMillisecondMoreDrops(typist: User, c0: Chat)
    requires Init(Usual(typist), c0)
    ensures var ls := [Key, Tick(1999), Key, Tick(3001), ExpireFires(typist)];
      var c := Exec(Usual(typist), c0, ls);
      && Legal(Usual(typist), c0, ls)
      && c.emitter.active && c.lastKey == Some(c.now - 3001) && !c.stopped && !Shown(c, typist)
  {
    var x := Usual(typist);
    var c1 := Apply(x, c0, Key);
    var c2 := Apply(x, c1, Tick(1999));
    var c3 := Apply(x, c2, Key);
    var c4 := Apply(x, c3, Tick(3001));
    assert c1.viewer.pending == map[typist := c0.now + 5000] == c4.viewer.pending;
    var c5 := Apply(x, c4, ExpireFires(typist));
    assert c5.emitter.active && c5.lastKey == Some(c0.now + 1999) && c5.now == c0.now + 5000;
    var l4 := [ExpireFires(typist)] + [];
    StepThenRun(x, c4, ExpireFires(typist), []);
    StepThenRun(x, c3, Tick(3001), l4);
    StepThenRun(x, c2, Key, [Tick(3001)] + l4);
    StepThenRun(x, c1, Tick(1999), [Key] + ([Tick(3001)] + l4));
    StepThenRun(x, c0, Key, [Tick(1999)] + ([Key] + ([Tick(3001)] + l4)));
    assert [Key] + ([Tick(1999)] + ([Key] + ([Tick(3001)] + l4)))
        == [Key, Tick(1999), Key, Tick(3001), ExpireFires(typist)];
  }

  /** The clock is never stuck: it can move on, or a timer is due now. */
  lemma ClockMoves(x: Setup, c: Chat) returns (l: Label)
    requires Inv(x, c)
    ensures Enabled(x, c, l) && (l == Tick(1) || l.IdleFires? || l.ExpireFires?)
  {
    if c.emitter.idle == Some(c.now) { return IdleFires(false); }
    if u :| u in c.viewer.pending && c.viewer.pending[u] == c.now { return ExpireFires(u); }
    return Tick(1);
  }
}
