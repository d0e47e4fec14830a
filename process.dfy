/**
 * Everything the watcher process holds between two events, as one value: the bot's chat id,
 * update offset, state dictionary, state file and sent messages; the nag interval; the
 * monitored group and target user; and the alert. The command, nag and trigger steps are
 * functions from one such value to the next, and `Inv` is what every step keeps.
 */
module Process {
  import opened Wrappers
  import opened PyStr
  import opened Utils
  import opened Store
  import opened Alerts

  /**
   * The settings read from the environment once at startup: the default nag interval, the nag
   * cap (0 for none), the required keywords, the configured group invite (stripped) and the
   * configured target username (with leading `@`s removed).
   */
  datatype Config = Config(defaultInterval: int, maxNags: int, keywords: seq<string>, groupInvite: string, targetUsername: string)

  /**
   * The process state. `armMark` is the number of messages the bot had sent when the alert was
   * last armed; it is not part of the program, only a way to speak about "since arming".
   */
  datatype World = World(
    chat: Option<int>,
    offset: Option<int>,
    state: Object,
    file: Option<Object>,
    outbox: seq<Outgoing>,
    interval: int,
    groupTitle: string,
    groupPeerId: Option<int>,
    targetId: Option<int>,
    targetUsername: string,
    alert: AlertView,
    armMark: nat)

  /** Python's `a or b` on strings. */
  function Or(a: string, b: string): string {
    if a != [] then a else b
  }

  /** The name the watcher shows for its target: the resolved username, else the configured one. */
  function TargetName(cfg: Config, w: World): string {
    Or(w.targetUsername, cfg.targetUsername)
  }

  /** `bot.send_message(m)`. */
  function Send(w: World, m: Message): World {
    w.(outbox := w.outbox + Delivery(w.chat, m))
  }

  /** `bot._save_state()`. */
  function Save(w: World): World {
    w.(file := Some(SaveData(w.chat, w.state)))
  }

  /** `alert.start(reason)` at time `now`, remembering where in the outbox the arming happened. */
  function Arm(w: World, reason: string, now: int): World {
    w.(alert := Started(reason, now), armMark := |w.outbox|)
  }

  /** `alert.stop()`. */
  function Disarm(w: World): World {
    w.(alert := Stopped(w.alert))
  }

  /** The number of nags among sent messages. */
  function NagsIn(out: seq<Outgoing>): (n: nat)
    ensures n <= |out|
  {
    if out == [] then 0 else NagsIn(out[..|out| - 1]) + (if out[|out| - 1].message.Nag? then 1 else 0)
  }

  /** No nag is counted exactly when no message is a nag. */
  lemma {:induction false} NagsInNone(out: seq<Outgoing>)
    ensures NagsIn(out) == 0 <==> forall i :: 0 <= i < |out| ==> !out[i].message.Nag?
  {
    if out != [] {
      var init := out[..|out| - 1];
      NagsInNone(init);
      assert forall i :: 0 <= i < |init| ==> init[i] == out[i];
    }
  }

  /** Every message is counted exactly when every message is a nag. */
  lemma {:induction false} NagsInAll(out: seq<Outgoing>)
    ensures NagsIn(out) == |out| <==> forall i :: 0 <= i < |out| ==> out[i].message.Nag?
  {
    if out != [] {
      var init := out[..|out| - 1];
      NagsInAll(init);
      assert forall i :: 0 <= i < |init| ==> init[i] == out[i];
    }
  }

  lemma {:induction false} NagsInAppend(a: seq<Outgoing>, b: seq<Outgoing>)
    ensures NagsIn(a + b) == NagsIn(a) + NagsIn(b)
  {
    if b != [] {
      NagsInAppend(a, b[..|b| - 1]);
      assert (a + b)[..|a + b| - 1] == a + b[..|b| - 1];
    } else {
      assert a + b == a;
    }
  }

  /**
   * What every step keeps: the chat id is never part of the state dictionary; the interval is
   * at least 30 seconds unless it is still the configured default; the alert's count is the
   * number of nags sent since it was armed; with a positive cap the count never passes it and
   * an active alert is below it; with a negative cap (truthy, and exceeded by any count) an
   * active alert has sent nothing yet.
   */
  ghost predicate Inv(cfg: Config, w: World) {
    && ChatKey !in w.state
    && (w.interval >= 30 || w.interval == cfg.defaultInterval)
    && w.armMark <= |w.outbox|
    && NagsIn(w.outbox[w.armMark..]) == w.alert.count
    && (cfg.maxNags > 0 ==> w.alert.count <= cfg.maxNags && (w.alert.active ==> w.alert.count < cfg.maxNags))
    && (cfg.maxNags < 0 && w.alert.active ==> w.alert.count == 0)
  }

  /** With a positive cap, no arming is followed by more than the cap's number of nags. */
  lemma AtMostMaxNags(cfg: Config, w: World)
    requires Inv(cfg, w) && cfg.maxNags > 0
    ensures NagsIn(w.outbox[w.armMark..]) <= cfg.maxNags
  {
  }

  /** Sending anything but a nag keeps the invariant. */
  lemma SendKeeps(cfg: Config, w: World, m: Message)
    requires Inv(cfg, w) && !m.Nag?
    ensures Inv(cfg, Send(w, m))
  {
    var d := Delivery(w.chat, m);
    assert (w.outbox + d)[w.armMark..] == w.outbox[w.armMark..] + d;
    NagsInAppend(w.outbox[w.armMark..], d);
    if d != [] { assert NagsIn(d) == NagsIn([]) + 0; }
  }

  /** Arming keeps the invariant: the count starts again from zero where the outbox now ends. */
  lemma ArmKeeps(cfg: Config, w: World, reason: string, now: int)
    requires Inv(cfg, w)
    ensures Inv(cfg, Arm(w, reason, now))
  {
    var r := Arm(w, reason, now);
    assert r.outbox[r.armMark..] == [];
  }

  /** Stopping keeps the invariant. */
  lemma DisarmKeeps(cfg: Config, w: World)
    requires Inv(cfg, w)
    ensures Inv(cfg, Disarm(w))
  {
  }

  // ---------------------------------------------------------------------------------------------
  // Startup

  /**
   * The state right after startup: the bot created from the environment's chat id and the
   * saved file, a saved interval of at least 30 seconds adopted, no alert. The group and user
   * the startup sequence resolves are passed in.
   */
  function Startup(cfg: Config, chatEnv: string, saved: Option<Object>, title: string, peer: Option<int>, target: Option<int>, username: string): (w: World)
    ensures w.outbox == [] && !w.alert.active && w.alert.count == 0
    ensures Loaded(w.chat, w.state) == Load(EnvChat(chatEnv), map[], saved)
    ensures w.interval == RestoreInterval(w.state, cfg.defaultInterval)
    ensures w.groupTitle == title && w.groupPeerId == peer && w.targetId == target && w.targetUsername == username
  {
    var l := Load(EnvChat(chatEnv), map[], saved);
    World(l.chat, None, l.state, saved, [], RestoreInterval(l.state, cfg.defaultInterval), title, peer, target, username, Idle, 0)
  }

  /** Startup establishes the invariant. */
  lemma StartupInv(cfg: Config, chatEnv: string, saved: Option<Object>, title: string, peer: Option<int>, target: Option<int>, username: string)
    ensures Inv(cfg, Startup(cfg, chatEnv, saved, title, peer, target, username))
  {
    var w := Startup(cfg, chatEnv, saved, title, peer, target, username);
    assert w.outbox[w.armMark..] == [];
  }
}
