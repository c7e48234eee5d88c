/**
  The typing indicator (Front-End/components/chat/presence.ts): the sender's throttle and idle timer,
  and the viewer's record of who is typing, each entry with a timer that drops it. Times are
  milliseconds on one clock; a timer is the moment it is due.
 */
module Typing {
  import opened Wrappers

  type Time = int
  type User = nat
  type Conversation = nat

  const TYPING_THROTTLE_MS := 2000
  const TYPING_IDLE_MS := 4000
  const TYPING_EXPIRE_MS := 5000

  // ----- the sender -----

  datatype Emitter = Emitter(lastSent: Time, active: bool, idle: Option<Time>)

  const RESTING := Emitter(0, false, None)

  /** A key: "typing" goes out unless one went out less than `throttle` ago. */
  predicate KeySends(e: Emitter, now: Time, throttle: nat) {
    !e.active || now - e.lastSent >= throttle
  }

  function AfterKey(e: Emitter, now: Time, throttle: nat, idleAfter: nat): Emitter {
    Emitter(if KeySends(e, now, throttle) then now else e.lastSent, true, Some(now + idleAfter))
  }

  datatype Sent = Sent(at: Time, typing: bool)

  /** "Stopped" only ever follows "typing", and two "typing" in a row are `throttle` apart. */
  ghost predicate Spaced(log: seq<Sent>, throttle: nat) {
    && (forall i | 0 <= i < |log| && !log[i].typing :: i > 0 && log[i - 1].typing)
    && (forall i | 0 < i < |log| && log[i].typing && log[i - 1].typing :: log[i].at - log[i - 1].at >= throttle)
  }

  /** The sender knows what it last said. */
  ghost predicate Remembers(e: Emitter, log: seq<Sent>) {
    && (e.active <==> e.idle.Some?)
    && (e.active <==> |log| > 0 && log[|log| - 1].typing)
    && (e.active ==> log[|log| - 1].at == e.lastSent)
  }

  class TypingEmitter {
    const throttle: nat
    const idleAfter: nat
    var lastSent: Time
    var active: bool
    var idle: Option<Time>
    /** what `send` was called with, and when */
    var log: seq<Sent>

    ghost function View(): Emitter
      reads this
    {
      Emitter(lastSent, active, idle)
    }

    ghost predicate Valid()
      reads this
    {
      Remembers(View(), log) && Spaced(log, throttle)
    }

    constructor (throttle: nat, idleAfter: nat)
      ensures Valid() && View() == RESTING && log == []
      ensures this.throttle == throttle && this.idleAfter == idleAfter
    {
      this.throttle := throttle;
      this.idleAfter := idleAfter;
      lastSent, active, idle, log := 0, false, None, [];
    }

    /** Also what the idle timer calls when it is due. */
    method Stop(now: Time)
      requires Valid()
      modifies this
      ensures Valid() && View() == RESTING
      ensures log == if old(active) then old(log) + [Sent(now, false)] else old(log)
    {
      idle := None;
      if active { log := log + [Sent(now, false)]; }
      active := false;
      lastSent := 0;
    }

    method Input(now: Time)
      requires Valid()
      modifies this
      ensures Valid() && View() == AfterKey(old(View()), now, throttle, idleAfter)
      ensures log == if KeySends(old(View()), now, throttle) then old(log) + [Sent(now, true)] else old(log)
    {
      if !active || now - lastSent >= throttle {
        log := log + [Sent(now, true)];
        active := true;
        lastSent := now;
      }
      idle := Some(now + idleAfter);
    }
  }

  // ----- the viewer -----

  datatype SocketEvent =
    | UserTyping(conversation: Conversation, user: Option<User>, name: Option<string>)
    | UserStopped(conversation: Conversation, user: Option<User>)
    | Message(inConversation: Option<Conversation>, sender: Option<User>)

  datatype Viewer = Viewer(
    conversation: Conversation, me: Option<User>, pending: map<User, Time>, typers: map<User, string>)

  function Dropped(v: Viewer, u: User): Viewer {
    v.(pending := v.pending - {u}, typers := v.typers - {u})
  }

  function Receive(v: Viewer, e: SocketEvent, now: Time, expire: nat): Viewer {
    match e
    case UserTyping(c, user, name) =>
      if c != v.conversation || user.None? || user == v.me then v
      else v.(pending := v.pending[user.value := now + expire],
              typers := v.typers[user.value := if name.Some? then name.value else "Someone"])
    case UserStopped(c, user) => if c == v.conversation && user.Some? then Dropped(v, user.value) else v
    case Message(c, sender) =>
      if sender.Some? && (c.None? || c.value == v.conversation) then Dropped(v, sender.value) else v
  }

  class TypingUsers {
    const conversation: Conversation
    const me: Option<User>
    const expire: nat
    var pending: map<User, Time>
    var typers: map<User, string>

    ghost function View(): Viewer
      reads this
    {
      Viewer(conversation, me, pending, typers)
    }

    /** Every name shown has a timer that will take it down, and nobody sees themselves. */
    ghost predicate Valid()
      reads this
    {
      pending.Keys == typers.Keys && (me.Some? ==> me.value !in typers)
    }

    constructor (conversation: Conversation, me: Option<User>, expire: nat)
      ensures Valid() && View() == Viewer(conversation, me, map[], map[]) && this.expire == expire
    {
      this.conversation := conversation;
      this.me := me;
      this.expire := expire;
      pending, typers := map[], map[];
    }

    /** Also what an entry's timer calls when it is due. */
    method Drop(u: User)
      requires Valid()
      modifies this
      ensures Valid() && View() == Dropped(old(View()), u)
    {
      pending := pending - {u};
      if u in typers { typers := typers - {u}; }
      assert typers == old(typers) - {u};
    }

    method OnTyping(c: Conversation, user: Option<User>, name: Option<string>, now: Time)
      requires Valid()
      modifies this
      ensures Valid() && View() == Receive(old(View()), UserTyping(c, user, name), now, expire)
    {
      if c != conversation || user.None? || user == me { return; }
      var shown := if name.Some? then name.value else "Someone";
      if !(user.value in typers && typers[user.value] == shown) { typers := typers[user.value := shown]; }
      assert typers == old(typers)[user.value := shown];
      pending := pending[user.value := now + expire];
    }

    method OnStopped(c: Conversation, user: Option<User>, now: Time)
      requires Valid()
      modifies this
      ensures Valid() && View() == Receive(old(View()), UserStopped(c, user), now, expire)
    {
      if c == conversation && user.Some? { Drop(user.value); }
    }

    method OnMessage(c: Option<Conversation>, sender: Option<User>, now: Time)
      requires Valid()
      modifies this
      ensures Valid() && View() == Receive(old(View()), Message(c, sender), now, expire)
    {
      if sender.Some? && (c.None? || c.value == conversation) { Drop(sender.value); }
    }
  }
}
