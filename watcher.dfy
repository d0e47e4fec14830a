/**
 * The running watcher: the bot, the alert and the variables the update loop, the nag loop and
 * the message handler share. Each method does what one pass of the program does, in place,
 * and is proved to leave the watcher in the state the corresponding step function gives.
 */
module Watch {
  import opened Wrappers
  import opened PyStr
  import opened Utils
  import opened Store
  import opened Alerts
  import opened Process
  import opened Paging
  import opened Commands
  import opened Triggers

  class Watcher {
    const cfg: Config
    const bot: SimpleBot
    const alert: AlertState
    var interval: int
    var groupTitle: string
    var groupPeerId: Option<int>
    var targetId: Option<int>
    var targetUsername: string
    /** The bot's message count when the alert was last armed. */
    ghost var armMark: nat

    /** The watcher as a value. */
    ghost function V(): World
      reads this, bot, alert
    {
      World(bot.chatId, bot.updateOffset, bot.state, bot.file, bot.outbox, interval,
            groupTitle, groupPeerId, targetId, targetUsername, alert.View(), armMark)
    }

    ghost predicate Valid()
      reads this, bot, alert
    {
      Inv(cfg, V())
    }

    /**
     * Startup: the bot from the environment's chat id and the saved file, the saved interval
     * if it is an integer of at least 30, the group and user the startup sequence resolved,
     * and an idle alert.
     */
    constructor (config: Config, chatEnv: string, saved: Option<Object>, title: string, peer: Option<int>, target: Option<int>, username: string)
      ensures V() == Startup(config, chatEnv, saved, title, peer, target, username)
      ensures Valid()
    {
      cfg := config;
      var b := new SimpleBot(chatEnv, saved);
      bot := b;
      alert := new AlertState();
      interval := RestoreInterval(b.state, config.defaultInterval);
      groupTitle, groupPeerId, targetId, targetUsername := title, peer, target, username;
      armMark := 0;
      new;
      StartupInv(config, chatEnv, saved, title, peer, target, username);
    }

    // -------------------------------------------------------------------------------------------
    // The commands

    method StartCommand(m: Msg)
      modifies bot
      ensures V() == StartCmd(old(V()), m)
    {
      bot.chatId := m.chatId;
      bot.SaveState();
      bot.SendMessage(Registered);
    }

    method StatusCommand()
      modifies bot
      ensures V() == Send(old(V()), StatusOf(cfg, old(V())))
    {
      bot.SendMessage(StatusReport(alert.active, groupTitle, groupPeerId, Or(targetUsername, cfg.targetUsername),
                                   targetId, interval, alert.count));
    }

    method IntervalCommand(args: seq<string>)
      modifies this, bot
      ensures V() == IntervalCmd(old(V()), args)
    {
      if |args| < 2 {
        bot.SendMessage(IntervalUsage);
        return;
      }
      var minutes := ParseFloat(args[1]);
      if minutes.None? {
        bot.SendMessage(IntervalUsage);
        return;
      }
      var secs := IntervalFromMinutes(minutes.value);
      interval := secs;
      bot.state := bot.state["nag_interval" := VInt(secs)];
      bot.SaveState();
      bot.SendMessage(IntervalSet(minutes.value, secs));
    }

    /** Adopting a group entity: the title, the peer id and the three keys, not yet saved. */
    method AdoptGroupEntity(g: Entity, link: string)
      requires g.GroupEnt?
      modifies this, bot
      ensures V() == AdoptGroup(old(V()), g, link)
    {
      groupTitle := GroupTitle(g);
      groupPeerId := Some(g.peerId);
      bot.state := bot.state["group_link" := VStr(link)]["group_title" := VStr(groupTitle)]["group_peer_id" := VInt(g.peerId)];
    }

    /** Adopting a user entity: its id and username, and the two keys, not yet saved. */
    method AdoptUserEntity(u: Entity, who: string)
      modifies this, bot
      ensures V() == AdoptUser(old(V()), u, who)
    {
      targetId := Some(u.id);
      targetUsername := u.username;
      bot.state := bot.state["target_id" := VInt(u.id)]["target_username" := VStr(Or(u.username, who))];
    }

    /** A resolved group adopted with its link, saved, and confirmed. */
    method ConfirmGroup(g: Entity, link: string)
      requires g.GroupEnt?
      modifies this, bot
      ensures V() == Send(Save(AdoptGroup(old(V()), g, link)), GroupSet(GroupTitle(g), g.peerId))
    {
      AdoptGroupEntity(g, link);
      ghost var w1 := V();
      bot.SaveState();
      assert V() == Save(w1);
      bot.SendMessage(GroupSet(groupTitle, g.peerId));
    }

    /** A resolved user adopted under its username or the typed name, saved, and confirmed. */
    method ConfirmUser(u: Entity, who: string)
      modifies this, bot
      ensures V() == Send(Save(AdoptUser(old(V()), u, who)), UserSet(Or(u.username, who), u.id))
    {
      AdoptUserEntity(u, who);
      ghost var w1 := V();
      bot.SaveState();
      assert V() == Save(w1);
      bot.SendMessage(UserSet(Or(u.username, who), u.id));
    }

    /** Reporting, refusing or adopting what a group identifier resolved to. */
    method ApplyGroupOutcome(res: Resolution, link: string, byId: bool)
      modifies this, bot
      ensures V() == GroupOutcome(old(V()), res, link, byId)
    {
      if res.Failed? {
        bot.SendMessage(if byId then CouldNotSetGroupById(res.error) else CouldNotSetGroup(res.error));
      } else if res.entity.UserEnt? {
        bot.SendMessage(if byId then IdNotAGroup else NotAGroup);
      } else {
        ConfirmGroup(res.entity, link);
      }
    }

    method SetGroupCommand(args: seq<string>, p: Platform)
      modifies this, bot
      ensures V() == SetGroupCmd(old(V()), args, p)
    {
      if |args| < 2 {
        bot.SendMessage(SetGroupUsage);
        return;
      }
      var raw := Join(args[1..], " ");
      var res := ResolveGroupEntity(raw, p.lookup, p.joinInvite);
      ApplyGroupOutcome(res, raw, false);
    }

    method UseGroupCommand(args: seq<string>, p: Platform)
      modifies this, bot
      ensures V() == UseGroupCmd(old(V()), args, p)
    {
      if |args| < 2 {
        bot.SendMessage(UseGroupUsage);
        return;
      }
      var res := ResolveGroupEntity(args[1], p.lookup, p.joinInvite);
      ApplyGroupOutcome(res, "", true);
    }

    method SetUserCommand(args: seq<string>, p: Platform)
      modifies this, bot
      ensures V() == SetUserCmd(old(V()), args, p)
    {
      if |args| < 2 {
        bot.SendMessage(SetUserUsage);
        return;
      }
      var who := LStripChar(args[1], '@');
      var res := p.lookup(UserQuery(who));
      ApplyUserOutcome(res, who);
    }

    /** Reporting or adopting what a user identifier resolved to. */
    method ApplyUserOutcome(res: Resolution, who: string)
      modifies this, bot
      ensures V() == UserOutcome(old(V()), res, who)
    {
      if res.Failed? {
        bot.SendMessage(CouldNotSetUser(res.error));
      } else {
        ConfirmUser(res.entity, who);
      }
    }

    /** The group step of `/reset`: the configured invite, if any, re-resolved and adopted; the error if it raised. */
    method ResetGroupStep(p: Platform) returns (err: Option<string>)
      modifies this, bot
      ensures ResetGroup(cfg, old(V()), p) == if err.None? then Done(V()) else Broke(V(), err.value)
    {
      if cfg.groupInvite == [] {
        return None;
      }
      var res := ResolveGroupEntity(cfg.groupInvite, p.lookup, p.joinInvite);
      if res.Failed? {
        return Some(res.error);
      }
      if res.entity.UserEnt? {
        return Some(InviteIsUser);
      }
      AdoptGroupEntity(res.entity, cfg.groupInvite);
      return None;
    }

    /** The user step of `/reset`: the configured username, if any, re-resolved and adopted; the error if it raised. */
    method ResetUserStep(p: Platform) returns (err: Option<string>)
      modifies this, bot
      ensures ResetUser(cfg, old(V()), p) == if err.None? then Done(V()) else Broke(V(), err.value)
    {
      if cfg.targetUsername == [] {
        return None;
      }
      var who := LStripChar(cfg.targetUsername, '@');
      var res := p.lookup(UserQuery(who));
      if res.Failed? {
        return Some(res.error);
      }
      AdoptUserEntity(res.entity, who);
      return None;
    }

    /** `/reset`: each step changes the watcher as it goes; the first failure is reported and ends the command. */
    method ResetCommand(p: Platform)
      modifies this, bot, alert
      ensures V() == ResetCmd(cfg, old(V()), p)
    {
      ghost var w0 := V();
      alert.Stop();
      interval := cfg.defaultInterval;
      bot.state := bot.state["nag_interval" := VInt(cfg.defaultInterval)];
      assert V() == ResetBase(cfg, w0);
      var err := ResetGroupStep(p);
      if err.Some? {
        assert ResetCmd(cfg, w0, p) == Send(V(), ResetFailed(err.value));
        bot.SendMessage(ResetFailed(err.value));
        return;
      }
      ghost var w1 := V();
      err := ResetUserStep(p);
      if err.Some? {
        assert ResetCmd(cfg, w0, p) == Send(V(), ResetFailed(err.value));
        bot.SendMessage(ResetFailed(err.value));
        return;
      }
      ghost var w2 := V();
      assert ResetCmd(cfg, w0, p) == Send(Save(w2), ResetDone);
      bot.SaveState();
      assert V() == Save(w2);
      bot.SendMessage(ResetDone);
    }

    method TestCommand(p: Platform)
      modifies this, bot, alert
      ensures V() == TestCmd(old(V()), p)
    {
      alert.Start("Manual test at " + p.clock, p.now);
      armMark := |bot.outbox|;
      bot.SendMessage(TestStarted);
    }

    /** The lines of the dialogs that are groups, collected one dialog at a time. */
    method CollectGroupLines(ds: seq<Dialog>) returns (lines: seq<string>)
      ensures lines == GroupLines(ds)
    {
      lines := [];
      var i := 0;
      while i < |ds|
        invariant 0 <= i <= |ds|
        invariant lines == GroupLines(ds[..i])
      {
        assert ds[..i + 1][..i] == ds[..i];
        if ds[i].entity.GroupEnt? {
          lines := lines + [GroupLine(ds[i])];
        }
        i := i + 1;
      }
      assert ds[..|ds|] == ds;
    }

    /** The buffer loop: a line at a time, the buffer goes out as soon as its text passes the limit. */
    method SendGroupPages(lines: seq<string>)
      modifies bot
      ensures V() == SendPages(old(V()), Pages(lines))
    {
      ghost var goal := SendPages(V(), Pages(lines));
      var buf: seq<string> := [];
      var j := 0;
      while j < |lines|
        invariant 0 <= j <= |lines|
        invariant SendPages(V(), PagesFrom(lines[j..], buf)) == goal
      {
        assert lines[j..][1..] == lines[j + 1..];
        buf := buf + [lines[j]];
        if PageLength(buf) > PageLimit {
          SendPagesCons(V(), buf, PagesFrom(lines[j + 1..], []));
          bot.SendMessage(GroupsPage(buf));
          buf := [];
        }
        j := j + 1;
      }
      if buf != [] {
        assert SendPages(V(), [buf]) == Send(SendPages(V(), []), GroupsPage(buf));
        bot.SendMessage(GroupsPage(buf));
      }
    }

    method ListGroupsCommand(p: Platform)
      modifies bot
      ensures V() == ListGroupsCmd(old(V()), p)
    {
      match p.dialogs
      case ListFailed(e) =>
        bot.SendMessage(CouldNotListGroups(e));
      case Listed(ds) =>
        var lines := CollectGroupLines(ds);
        if lines == [] {
          bot.SendMessage(NoGroups);
        } else {
          SendGroupPages(lines);
          bot.SendMessage(UseGroupHint);
        }
    }

    /** One message: the command its first word names, if any, is run. */
    method HandleMessage(m: Msg, p: Platform)
      modifies this, bot, alert
      ensures V() == Handle(cfg, old(V()), m, p)
    {
      var args := Tokens(m.text);
      match Recognize(CommandName(args))
      case None =>
      case Some(c) => RunCommand(c, m, args, p);
    }

    method RunCommand(c: Command, m: Msg, args: seq<string>, p: Platform)
      modifies this, bot, alert
      ensures V() == Run(cfg, old(V()), c, m, args, p)
    {
      match c
      case Start => StartCommand(m);
      case Help => bot.SendMessage(HelpMenu);
      case Stop =>
        alert.Stop();
        bot.SendMessage(AlertsStopped);
      case Status => StatusCommand();
      case Interval => IntervalCommand(args);
      case SetGroup => SetGroupCommand(args, p);
      case ListGroups => ListGroupsCommand(p);
      case UseGroup => UseGroupCommand(args, p);
      case SetUser => SetUserCommand(args, p);
      case Reset => ResetCommand(p);
      case Test => TestCommand(p);
    }

    /** One update: the offset moves past it, then its message, if any, is handled. */
    method HandleUpdate(u: Update, p: Platform)
      modifies this, bot, alert
      ensures V() == UpdateStep(cfg, old(V()), u, p)
    {
      bot.updateOffset := Some(u.updateId + 1);
      var msg := MessageOf(u);
      if msg.Some? {
        HandleMessage(msg.value, p);
      }
    }

    /** One batch of updates, in order; the invariant holds after it. */
    method HandleUpdates(ups: seq<Update>, p: Platform)
      requires Valid()
      modifies this, bot, alert
      ensures V() == BatchStep(cfg, old(V()), ups, p)
      ensures Valid()
    {
      ghost var w0 := V();
      var i := 0;
      while i < |ups|
        invariant 0 <= i <= |ups|
        invariant V() == BatchStep(cfg, w0, ups[..i], p)
      {
        assert ups[..i + 1][..i] == ups[..i];
        HandleUpdate(ups[i], p);
        i := i + 1;
      }
      assert ups[..|ups|] == ups;
      BatchKeeps(cfg, w0, ups, p);
    }

    // -------------------------------------------------------------------------------------------
    // The nag loop and the message handler

    /** One pass of the nag loop at time `now`. */
    method NagOnce(now: int)
      modifies bot, alert
      ensures V() == NagTick(cfg, old(V()), now)
    {
      if alert.active && Truthy(bot.chatId) {
        if alert.lastSentAt == 0 || now - alert.lastSentAt >= interval {
          var who := if Truthy(targetId) then "@" + Or(targetUsername, cfg.targetUsername) else "(unset user)";
          var where := Or(groupTitle, "(unset group)");
          bot.SendMessage(Nag(who, where));
          alert.Sent(now);
          if cfg.maxNags != 0 && alert.count >= cfg.maxNags {
            alert.Stop();
            bot.SendMessage(MaxNagsReached);
          }
        }
      }
    }

    /** The nag loop, ticking at the given times; the invariant holds throughout. */
    method NagLoop(times: seq<int>)
      requires Valid()
      modifies bot, alert
      ensures V() == NagRun(cfg, old(V()), times)
      ensures Valid()
    {
      ghost var w0 := V();
      var i := 0;
      while i < |times|
        invariant 0 <= i <= |times|
        invariant V() == NagRun(cfg, w0, times[..i])
      {
        assert times[..i + 1][..i] == times[..i];
        NagOnce(times[i]);
        i := i + 1;
      }
      assert times[..|times|] == times;
      NagRunKeeps(cfg, w0, times);
    }

    /** `any(k in body for k in keywords)`, one keyword at a time. */
    method AnyKeyword(keywords: seq<string>, body: string) returns (found: bool)
      ensures found == AnyIn(keywords, body)
    {
      found := false;
      var k := 0;
      while k < |keywords| && !found
        invariant 0 <= k <= |keywords|
        invariant AnyIn(keywords, body) == (found || AnyIn(keywords[k..], body))
      {
        assert keywords[k..][1..] == keywords[k + 1..];
        found := Contains(body, keywords[k]);
        k := k + 1;
      }
    }

    /** Whether a new message passes the checks of `on_new_message`. */
    method Check(e: Event) returns (pass: bool)
      ensures pass == Passes(cfg, V(), e)
    {
      if !Truthy(groupPeerId) || !Truthy(targetId) {
        return false;
      }
      if e.chatId != groupPeerId.value {
        return false;
      }
      var fromTarget := false;
      if e.sender.Some? {
        var s := e.sender.value;
        if s.id == targetId.value {
          fromTarget := true;
        } else if targetUsername != [] && s.username != [] {
          fromTarget := Lower(s.username) == Lower(targetUsername);
        }
      }
      if !fromTarget {
        return false;
      }
      if cfg.keywords != [] {
        pass := AnyKeyword(cfg.keywords, Lower(e.rawText));
      } else {
        pass := true;
      }
    }

    /** A new message seen at time `now`. */
    method OnNewMessageEvent(e: Event, now: int)
      requires Valid()
      modifies this, bot, alert
      ensures V() == OnNewMessage(cfg, old(V()), e, now)
      ensures Valid()
    {
      TriggerKeeps(cfg, V(), e, now);
      var pass := Check(e);
      if pass {
        Arm(e, now);
      }
    }

    /** Arming on a message that passed the checks, and telling the chat. */
    method Arm(e: Event, now: int)
      requires Truthy(groupPeerId)
      modifies this, bot, alert
      ensures V() == Announce(cfg, old(V()), e, now)
    {
      var who := Or(targetUsername, cfg.targetUsername);
      var when := if e.date.Some? then e.date.value else "now";
      alert.Start("Message from @" + who + " in " + groupTitle + " at " + when, now);
      armMark := |bot.outbox|;
      if Truthy(bot.chatId) {
        var text := if e.rawText != [] then e.rawText else "(no text)";
        var link := BuildMessageLink(groupPeerId.value, e.messageId);
        bot.SendMessage(Preview(who, groupTitle, when, SafeSlice(text, 3600), e.hasMedia, link));
      }
      bot.SendMessage(TriggerNotice(who, groupTitle, when));
    }
  }
}
