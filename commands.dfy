/**
 * One pass of the bot's update loop: each update advances the offset, and the message it
 * carries, if any, is read as a command and answered. The platform's answers (entity lookups,
 * invite joins, the dialog list) and the clock are inputs.
 */
module Commands {
  import opened Wrappers
  import opened PyStr
  import opened Utils
  import opened Store
  import opened Alerts
  import opened Process
  import opened Paging

  const CommandNames: seq<string> :=
    ["/start", "/help", "/stop", "/status", "/interval", "/setgroup", "/listgroups", "/usegroup", "/setuser", "/reset", "/test"]

  /** A message in an update: the id of its chat (if the chat has one) and its text (`""` if none). */
  datatype Msg = Msg(chatId: Option<int>, text: string)

  /** An update: its id and its `message` or `edited_message`. */
  datatype Update = Update(updateId: int, message: Option<Msg>, edited: Option<Msg>)

  /** A dialog of the user account: its entity and its display name. */
  datatype Dialog = Dialog(entity: Entity, name: string)

  /** The dialog listing, or the text of the exception it raised. */
  datatype Dialogs = Listed(dialogs: seq<Dialog>) | ListFailed(error: string)

  /**
   * What the platform answers during one pass: entity lookups, invite joins, the dialog list,
   * and the clock (`strftime` text and seconds).
   */
  datatype Platform = Platform(lookup: Query -> Resolution, joinInvite: string -> Option<Entity>, dialogs: Dialogs, clock: string, now: int)

  /** The words of a message's stripped text. */
  function Tokens(text: string): seq<string> {
    Words(Strip(text))
  }

  /** The command word: the first word lower-cased, `""` for a blank message. */
  function CommandName(args: seq<string>): (c: string)
    ensures args == [] ==> c == []
    ensures args != [] ==> c == Lower(args[0]) && NoUpper(c)
  {
    if args == [] then [] else Lower(args[0])
  }

  // ---------------------------------------------------------------------------------------------
  // Replies and effects shared by several commands

  const InviteIsUser := "GROUP_INVITE resolved to a USER."

  /** The group a successful `/setgroup`, `/usegroup` or `/reset` adopts, and the keys it writes. */
  function AdoptGroup(w: World, g: Entity, link: string): (r: World)
    requires g.GroupEnt?
    ensures r.groupPeerId == Some(g.peerId) && r.groupTitle == GroupTitle(g)
    ensures r.state == w.state["group_link" := VStr(link)]["group_title" := VStr(GroupTitle(g))]["group_peer_id" := VInt(g.peerId)]
    ensures r.(groupTitle := w.groupTitle, groupPeerId := w.groupPeerId, state := w.state) == w
  {
    var t := GroupTitle(g);
    w.(groupTitle := t, groupPeerId := Some(g.peerId),
       state := w.state["group_link" := VStr(link)]["group_title" := VStr(t)]["group_peer_id" := VInt(g.peerId)])
  }

  /** The user a successful `/setuser` or `/reset` adopts: its id and username, saved with the typed name as fallback. */
  function AdoptUser(w: World, u: Entity, who: string): (r: World)
    ensures r.targetId == Some(u.id) && r.targetUsername == u.username
    ensures r.state == w.state["target_id" := VInt(u.id)]["target_username" := VStr(Or(u.username, who))]
    ensures r.(targetId := w.targetId, targetUsername := w.targetUsername, state := w.state) == w
  {
    w.(targetId := Some(u.id), targetUsername := u.username,
       state := w.state["target_id" := VInt(u.id)]["target_username" := VStr(Or(u.username, who))])
  }

  /** Only replies were sent: apart from the outbox growing, nothing changed. */
  ghost predicate OnlyReplied(w: World, r: World) {
    w.outbox <= r.outbox && r.(outbox := w.outbox) == w
  }

  // ---------------------------------------------------------------------------------------------
  // The commands

  /** `/start`: the chat of the message becomes the bot's chat, is saved, and is greeted. */
  function StartCmd(w: World, m: Msg): World {
    Send(Save(w.(chat := m.chatId)), Registered)
  }

  /** The `/status` report: the alert's state, the group, the user, the interval and the count. */
  function StatusOf(cfg: Config, w: World): Message {
    StatusReport(w.alert.active, w.groupTitle, w.groupPeerId, TargetName(cfg, w), w.targetId, w.interval, w.alert.count)
  }

  /** `int(max(30, minutes * 60))`: at least 30, otherwise the whole seconds of the minutes. */
  function IntervalFromMinutes(minutes: real): (secs: int)
    ensures secs >= 30
    ensures secs == 30 || secs as real <= minutes * 60.0 < secs as real + 1.0
    ensures minutes * 60.0 >= 31.0 ==> secs as real <= minutes * 60.0 < secs as real + 1.0
  {
    if minutes * 60.0 > 30.0 then (minutes * 60.0).Floor else 30
  }

  /** `/interval <minutes>`. */
  function IntervalCmd(w: World, args: seq<string>): World {
    if |args| < 2 then Send(w, IntervalUsage)
    else match ParseFloat(args[1])
      case None => Send(w, IntervalUsage)
      case Some(m) =>
        var secs := IntervalFromMinutes(m);
        Send(Save(w.(interval := secs, state := w.state["nag_interval" := VInt(secs)])), IntervalSet(m, secs))
  }

  /**
   * What `/setgroup` and `/usegroup` do with a resolution: report the error, refuse a user, or
   * adopt the group with the given link, save and confirm. `byId` picks `/usegroup`'s wording.
   */
  function GroupOutcome(w: World, res: Resolution, link: string, byId: bool): World {
    match res
    case Failed(e) => Send(w, if byId then CouldNotSetGroupById(e) else CouldNotSetGroup(e))
    case Found(ent) =>
      if ent.UserEnt? then Send(w, if byId then IdNotAGroup else NotAGroup)
      else Send(Save(AdoptGroup(w, ent, link)), GroupSet(GroupTitle(ent), ent.peerId))
  }

  /** `/setgroup <words...>`: the words joined by spaces are resolved; only a group is adopted. */
  function SetGroupCmd(w: World, args: seq<string>, p: Platform): World {
    if |args| < 2 then Send(w, SetGroupUsage)
    else
      var raw := Join(args[1..], " ");
      GroupOutcome(w, ResolveGroupEntity(raw, p.lookup, p.joinInvite), raw, false)
  }

  /** `/usegroup <peer_id>`: like `/setgroup` with one word, recording an empty link. */
  function UseGroupCmd(w: World, args: seq<string>, p: Platform): World {
    if |args| < 2 then Send(w, UseGroupUsage)
    else GroupOutcome(w, ResolveGroupEntity(args[1], p.lookup, p.joinInvite), "", true)
  }

  /** What `/setuser` does with a lookup: report the error, or adopt the user, save and confirm. */
  function UserOutcome(w: World, res: Resolution, who: string): World {
    match res
    case Failed(e) => Send(w, CouldNotSetUser(e))
    case Found(u) => Send(Save(AdoptUser(w, u, who)), UserSet(Or(u.username, who), u.id))
  }

  /** `/setuser <@username|id>`. */
  function SetUserCmd(w: World, args: seq<string>, p: Platform): World {
    if |args| < 2 then Send(w, SetUserUsage)
    else
      var who := LStripChar(args[1], '@');
      UserOutcome(w, p.lookup(UserQuery(who)), who)
  }

  /** How far `/reset` got: every step that ran stays done, even when a later one raised. */
  datatype Partial = Done(w: World) | Broke(w: World, error: string)

  /** The group step of `/reset`: re-resolve the configured invite, if there is one. */
  function ResetGroup(cfg: Config, w: World, p: Platform): Partial {
    if cfg.groupInvite == [] then Done(w)
    else AdoptResolvedGroup(w, ResolveGroupEntity(cfg.groupInvite, p.lookup, p.joinInvite), cfg.groupInvite)
  }

  /** Adopting the configured invite's resolution: a failure or a user breaks the reset. */
  function AdoptResolvedGroup(w: World, res: Resolution, link: string): Partial {
    match res
    case Failed(e) => Broke(w, e)
    case Found(ent) => if ent.UserEnt? then Broke(w, InviteIsUser) else Done(AdoptGroup(w, ent, link))
  }

  /** The user step of `/reset`: re-resolve the configured username, if there is one. */
  function ResetUser(cfg: Config, w: World, p: Platform): Partial {
    if cfg.targetUsername == [] then Done(w)
    else
      var who := LStripChar(cfg.targetUsername, '@');
      AdoptResolvedUser(w, p.lookup(UserQuery(who)), who)
  }

  /** Adopting the configured user's resolution: a failure breaks the reset. */
  function AdoptResolvedUser(w: World, res: Resolution, who: string): Partial {
    match res
    case Failed(e) => Broke(w, e)
    case Found(u) => Done(AdoptUser(w, u, who))
  }

  /** The in-memory effect of `/reset` before any step can fail. */
  function ResetBase(cfg: Config, w: World): World {
    Disarm(w).(interval := cfg.defaultInterval, state := w.state["nag_interval" := VInt(cfg.defaultInterval)])
  }

  /** `/reset`: saved and confirmed only if every step succeeded; otherwise the error is reported and nothing is saved. */
  function ResetCmd(cfg: Config, w: World, p: Platform): World {
    var r :=
      match ResetGroup(cfg, ResetBase(cfg, w), p)
      case Broke(w1, e) => Broke(w1, e)
      case Done(w1) => ResetUser(cfg, w1, p);
    match r
    case Done(w2) => Send(Save(w2), ResetDone)
    case Broke(w2, e) => Send(w2, ResetFailed(e))
  }

  /** `/test`: arm the alert by hand. */
  function TestCmd(w: World, p: Platform): World {
    Send(Arm(w, "Manual test at " + p.clock, p.now), TestStarted)
  }

  /** A `/listgroups` line: the peer id, a tab, the dialog's name. */
  function GroupLine(d: Dialog): string {
    IntToString(PeerIdOf(d.entity)) + "\t" + d.name
  }

  /** The lines of the dialogs that are groups, in order. */
  function GroupLines(ds: seq<Dialog>): (lines: seq<string>)
    ensures |lines| <= |ds|
  {
    if ds == [] then []
    else
      var rest := GroupLines(ds[..|ds| - 1]);
      var d := ds[|ds| - 1];
      if d.entity.GroupEnt? then rest + [GroupLine(d)] else rest
  }

  /** A line is listed exactly when some group dialog gives it. */
  lemma {:induction false} GroupLinesMembers(ds: seq<Dialog>, line: string)
    ensures line in GroupLines(ds) <==> exists d :: d in ds && d.entity.GroupEnt? && line == GroupLine(d)
  {
    if ds != [] {
      var init := ds[..|ds| - 1];
      GroupLinesMembers(init, line);
      GroupLinesLast(ds, line);
      assert forall d :: d in ds <==> d in init || d == ds[|ds| - 1];
    }
  }

  lemma GroupLinesLast(ds: seq<Dialog>, line: string)
    requires ds != []
    ensures line in GroupLines(ds) <==>
      line in GroupLines(ds[..|ds| - 1]) || (ds[|ds| - 1].entity.GroupEnt? && line == GroupLine(ds[|ds| - 1]))
  {
  }

  /** Sending the pages one by one, in order. */
  function SendPages(w: World, pages: seq<seq<string>>): World
  {
    if pages == [] then w else Send(SendPages(w, pages[..|pages| - 1]), GroupsPage(pages[|pages| - 1]))
  }

  /** `/listgroups`. */
  function ListGroupsCmd(w: World, p: Platform): World {
    match p.dialogs
    case ListFailed(e) => Send(w, CouldNotListGroups(e))
    case Listed(ds) =>
      var lines := GroupLines(ds);
      if lines == [] then Send(w, NoGroups)
      else Send(SendPages(w, Pages(lines)), UseGroupHint)
  }

  /** The commands the bot answers. */
  datatype Command = Start | Help | Stop | Status | Interval | SetGroup | ListGroups | UseGroup | SetUser | Reset | Test

  /** The command a command word names, if any. */
  function Recognize(name: string): (c: Option<Command>)
    ensures c.None? <==> name !in CommandNames
  {
    if name == "/start" then Some(Start)
    else if name == "/help" then Some(Help)
    else if name == "/stop" then Some(Stop)
    else if name == "/status" then Some(Status)
    else if name == "/interval" then Some(Interval)
    else if name == "/setgroup" then Some(SetGroup)
    else if name == "/listgroups" then Some(ListGroups)
    else if name == "/usegroup" then Some(UseGroup)
    else if name == "/setuser" then Some(SetUser)
    else if name == "/reset" then Some(Reset)
    else if name == "/test" then Some(Test)
    else None
  }

  /** Running a command on the message's words. */
  function Run(cfg: Config, w: World, c: Command, m: Msg, args: seq<string>, p: Platform): World {
    match c
    case Start => StartCmd(w, m)
    case Help => Send(w, HelpMenu)
    case Stop => Send(Disarm(w), AlertsStopped)
    case Status => Send(w, StatusOf(cfg, w))
    case Interval => IntervalCmd(w, args)
    case SetGroup => SetGroupCmd(w, args, p)
    case ListGroups => ListGroupsCmd(w, p)
    case UseGroup => UseGroupCmd(w, args, p)
    case SetUser => SetUserCmd(w, args, p)
    case Reset => ResetCmd(cfg, w, p)
    case Test => TestCmd(w, p)
  }

  /** One message: its command word chooses the command; any other word, or none, is ignored. */
  function Handle(cfg: Config, w: World, m: Msg, p: Platform): World {
    var args := Tokens(m.text);
    match Recognize(CommandName(args))
    case None => w
    case Some(c) => Run(cfg, w, c, m, args, p)
  }

  /** The message an update carries: its `message`, else its `edited_message`. */
  function MessageOf(u: Update): Option<Msg> {
    if u.message.Some? then u.message else u.edited
  }

  /** One update: the offset moves past it, then its message, if any, is handled. */
  function UpdateStep(cfg: Config, w: World, u: Update, p: Platform): (r: World)
    ensures r.offset == Some(u.updateId + 1)
    ensures w.outbox <= r.outbox
  {
    var w1 := w.(offset := Some(u.updateId + 1));
    match MessageOf(u)
    case None => w1
    case Some(m) =>
      HandleFrame(cfg, w1, m, p);
      Handle(cfg, w1, m, p)
  }

  /** A batch of updates, handled in order. */
  function BatchStep(cfg: Config, w: World, ups: seq<Update>, p: Platform): World {
    if ups == [] then w else UpdateStep(cfg, BatchStep(cfg, w, ups[..|ups| - 1], p), ups[|ups| - 1], p)
  }

  // ---------------------------------------------------------------------------------------------
  // What the commands promise

  /** The keys the commands write are all distinct from the chat id's key and from each other's. */
  lemma KeysDistinct()
    ensures "nag_interval" != ChatKey && "group_link" != ChatKey && "group_title" != ChatKey
    ensures "group_peer_id" != ChatKey && "target_id" != ChatKey && "target_username" != ChatKey
  {
    assert "group_title"[0] != ChatKey[0];
  }

  /** A step that sends nothing and leaves the alert alone keeps the invariant if the state and interval stay well-formed. */
  lemma QuietKeeps(cfg: Config, w: World, r: World)
    requires Inv(cfg, w)
    requires r.outbox == w.outbox && r.alert == w.alert && r.armMark == w.armMark
    requires ChatKey !in r.state && (r.interval >= 30 || r.interval == cfg.defaultInterval)
    ensures Inv(cfg, r)
  {
  }

  /** `/start` registers the chat of the message, saves it, and greets that chat. */
  lemma StartRegisters(w: World, m: Msg)
    ensures var r := StartCmd(w, m);
      && r.chat == m.chatId && r.file == Some(SaveData(m.chatId, w.state))
      && r.outbox == w.outbox + Delivery(m.chatId, Registered)
      && r.(chat := w.chat, file := w.file, outbox := w.outbox) == w
  {
  }

  /** After `/start` from a chat with a non-zero id, a restart without a configured chat id talks to that chat again. */
  lemma RegisteredChatSurvivesRestart(w: World, m: Msg)
    requires ChatKey !in w.state && Truthy(m.chatId)
    ensures Load(None, map[], StartCmd(w, m).file).chat == m.chatId
  {
    SaveLoadRoundTrip(m.chatId, w.state);
  }

  /** `/stop` leaves the alert idle with its count; an idle alert makes it a mere reply. */
  lemma StopOutcome(w: World)
    ensures var r := Send(Disarm(w), AlertsStopped);
      && !r.alert.active && r.alert.count == w.alert.count && r.alert.reason == w.alert.reason
      && r.outbox == w.outbox + Delivery(w.chat, AlertsStopped)
      && r.(alert := w.alert, outbox := w.outbox) == w
      && (!w.alert.active ==> OnlyReplied(w, r))
  {
  }

  /** `/interval` with a number: at least 30 seconds, stored under `nag_interval` and saved, the new value reported; otherwise only the usage reply. */
  lemma IntervalOutcome(w: World, args: seq<string>)
    ensures var r := IntervalCmd(w, args);
      if |args| >= 2 && ParseFloat(args[1]).Some? then
        var secs := IntervalFromMinutes(ParseFloat(args[1]).value);
        && r.interval == secs && secs >= 30
        && r.state == w.state["nag_interval" := VInt(secs)]
        && r.file == Some(SaveData(w.chat, r.state))
        && r.outbox == w.outbox + Delivery(w.chat, IntervalSet(ParseFloat(args[1]).value, secs))
        && r.(interval := w.interval, state := w.state, file := w.file, outbox := w.outbox) == w
      else OnlyReplied(w, r) && r.outbox == w.outbox + Delivery(w.chat, IntervalUsage)
  {
  }

  /** An interval set by `/interval` is the interval the next start restores. */
  lemma IntervalSurvivesRestart(cfg: Config, w: World, args: seq<string>)
    requires ChatKey !in w.state
    requires |args| >= 2 && ParseFloat(args[1]).Some?
    ensures var r := IntervalCmd(w, args);
      RestoreInterval(Load(None, map[], r.file).state, cfg.defaultInterval) == r.interval
  {
    var r := IntervalCmd(w, args);
    KeysDistinct();
    SaveLoadRoundTrip(r.chat, r.state);
  }

  /** `/setgroup`: only a resolved group is adopted, with the joined words as its link, and saved; anything else is only a reply. */
  lemma SetGroupOutcome(w: World, args: seq<string>, p: Platform)
    ensures var r := SetGroupCmd(w, args, p);
      if |args| >= 2
         && ResolveGroupEntity(Join(args[1..], " "), p.lookup, p.joinInvite).Found?
         && ResolveGroupEntity(Join(args[1..], " "), p.lookup, p.joinInvite).entity.GroupEnt?
      then
        var raw := Join(args[1..], " ");
        var g := ResolveGroupEntity(raw, p.lookup, p.joinInvite).entity;
        && r.groupPeerId == Some(g.peerId) && r.groupTitle == GroupTitle(g)
        && r.state == w.state["group_link" := VStr(raw)]["group_title" := VStr(GroupTitle(g))]["group_peer_id" := VInt(g.peerId)]
        && r.file == Some(SaveData(w.chat, r.state))
        && r.outbox == w.outbox + Delivery(w.chat, GroupSet(GroupTitle(g), g.peerId))
        && r.(groupTitle := w.groupTitle, groupPeerId := w.groupPeerId, state := w.state, file := w.file, outbox := w.outbox) == w
      else OnlyReplied(w, r) && |r.outbox| <= |w.outbox| + 1
  {
  }

  /** `/usegroup`: the same with a single word and an empty link. */
  lemma UseGroupOutcome(w: World, args: seq<string>, p: Platform)
    ensures var r := UseGroupCmd(w, args, p);
      if |args| >= 2
         && ResolveGroupEntity(args[1], p.lookup, p.joinInvite).Found?
         && ResolveGroupEntity(args[1], p.lookup, p.joinInvite).entity.GroupEnt?
      then
        var g := ResolveGroupEntity(args[1], p.lookup, p.joinInvite).entity;
        && r.groupPeerId == Some(g.peerId) && r.groupTitle == GroupTitle(g)
        && r.state == w.state["group_link" := VStr("")]["group_title" := VStr(GroupTitle(g))]["group_peer_id" := VInt(g.peerId)]
        && r.file == Some(SaveData(w.chat, r.state))
        && r.outbox == w.outbox + Delivery(w.chat, GroupSet(GroupTitle(g), g.peerId))
        && r.(groupTitle := w.groupTitle, groupPeerId := w.groupPeerId, state := w.state, file := w.file, outbox := w.outbox) == w
      else OnlyReplied(w, r) && |r.outbox| <= |w.outbox| + 1
  {
  }

  /** `/setuser`: a resolved entity becomes the target, saved under its username or the typed name; a failure is only a reply. */
  lemma SetUserOutcome(w: World, args: seq<string>, p: Platform)
    ensures var r := SetUserCmd(w, args, p);
      if |args| >= 2 && p.lookup(UserQuery(LStripChar(args[1], '@'))).Found? then
        var who := LStripChar(args[1], '@');
        var u := p.lookup(UserQuery(who)).entity;
        && r.targetId == Some(u.id) && r.targetUsername == u.username
        && r.state == w.state["target_id" := VInt(u.id)]["target_username" := VStr(Or(u.username, who))]
        && r.file == Some(SaveData(w.chat, r.state))
        && r.outbox == w.outbox + Delivery(w.chat, UserSet(Or(u.username, who), u.id))
        && r.(targetId := w.targetId, targetUsername := w.targetUsername, state := w.state, file := w.file, outbox := w.outbox) == w
      else OnlyReplied(w, r) && |r.outbox| <= |w.outbox| + 1
  {
  }

  /** `/test` arms the alert with a reason naming the time, counting from where the outbox is now. */
  lemma TestArms(w: World, p: Platform)
    ensures var r := TestCmd(w, p);
      && r.alert == Started("Manual test at " + p.clock, p.now) && r.armMark == |w.outbox|
      && r.outbox == w.outbox + Delivery(w.chat, TestStarted)
      && r.(alert := w.alert, armMark := w.armMark, outbox := w.outbox) == w
  {
  }

  /** Sending pages sends one message per page, in order, to the bot's chat, and changes nothing else. */
  lemma {:induction false} SendPagesEffect(w: World, pages: seq<seq<string>>)
    ensures var r := SendPages(w, pages);
      && r.(outbox := w.outbox) == w && w.outbox <= r.outbox
      && (Truthy(w.chat) ==> |r.outbox| == |w.outbox| + |pages|)
      && (Truthy(w.chat) ==> forall i :: 0 <= i < |pages| ==> r.outbox[|w.outbox| + i] == Outgoing(w.chat.value, GroupsPage(pages[i])))
      && (!Truthy(w.chat) ==> r == w)
  {
    if pages != [] {
      var init := pages[..|pages| - 1];
      SendPagesEffect(w, init);
      var r' := SendPages(w, init);
      var r := SendPages(w, pages);
      assert r == Send(r', GroupsPage(pages[|pages| - 1]));
      if Truthy(w.chat) {
        forall i | 0 <= i < |pages|
          ensures r.outbox[|w.outbox| + i] == Outgoing(w.chat.value, GroupsPage(pages[i]))
        {
          if i < |init| {
            assert init[i] == pages[i];
            assert r.outbox[|w.outbox| + i] == r'.outbox[|w.outbox| + i];
          }
        }
      }
    }
  }

  /** Sending a first page, then the rest, is sending them all. */
  lemma {:induction false} SendPagesCons(w: World, page: seq<string>, pages: seq<seq<string>>)
    ensures SendPages(w, [page] + pages) == SendPages(Send(w, GroupsPage(page)), pages)
  {
    if pages != [] {
      SendPagesCons(w, page, pages[..|pages| - 1]);
      assert ([page] + pages)[..|[page] + pages| - 1] == [page] + pages[..|pages| - 1];
    } else {
      assert ([page] + pages)[..0] == [];
    }
  }

  /** Sending pages keeps the invariant: no page is a nag. */
  lemma {:induction false} SendPagesKeeps(cfg: Config, w: World, pages: seq<seq<string>>)
    requires Inv(cfg, w)
    ensures Inv(cfg, SendPages(w, pages))
  {
    if pages != [] {
      SendPagesKeeps(cfg, w, pages[..|pages| - 1]);
      SendKeeps(cfg, SendPages(w, pages[..|pages| - 1]), GroupsPage(pages[|pages| - 1]));
    }
  }

  /** `/listgroups` only replies: the pages of group lines, then the hint; or a single message. */
  lemma ListGroupsOutcome(w: World, p: Platform)
    ensures OnlyReplied(w, ListGroupsCmd(w, p))
    ensures p.dialogs.Listed? && GroupLines(p.dialogs.dialogs) != [] && Truthy(w.chat) ==>
      var r := ListGroupsCmd(w, p);
      var pages := Pages(GroupLines(p.dialogs.dialogs));
      && |r.outbox| == |w.outbox| + |pages| + 1
      && (forall i :: 0 <= i < |pages| ==> r.outbox[|w.outbox| + i] == Outgoing(w.chat.value, GroupsPage(pages[i])))
      && r.outbox[|r.outbox| - 1] == Outgoing(w.chat.value, UseGroupHint)
    ensures p.dialogs.ListFailed? ==> ListGroupsCmd(w, p).outbox == w.outbox + Delivery(w.chat, CouldNotListGroups(p.dialogs.error))
    ensures p.dialogs.Listed? && GroupLines(p.dialogs.dialogs) == [] ==> ListGroupsCmd(w, p).outbox == w.outbox + Delivery(w.chat, NoGroups)
  {
    if p.dialogs.Listed? && GroupLines(p.dialogs.dialogs) != [] {
      var pages := Pages(GroupLines(p.dialogs.dialogs));
      SendPagesEffect(w, pages);
      var r' := SendPages(w, pages);
      var r := ListGroupsCmd(w, p);
      assert r == Send(r', UseGroupHint);
      if Truthy(w.chat) {
        forall i | 0 <= i < |pages|
          ensures r.outbox[|w.outbox| + i] == Outgoing(w.chat.value, GroupsPage(pages[i]))
        {
          assert r.outbox[|w.outbox| + i] == r'.outbox[|w.outbox| + i];
        }
      }
    }
  }

  /** Every group among the dialogs is listed, on one of the pages sent. */
  lemma ListGroupsSendsEveryGroup(w: World, p: Platform, d: Dialog)
    requires Truthy(w.chat) && p.dialogs.Listed?
    requires d in p.dialogs.dialogs && d.entity.GroupEnt?
    ensures var r := ListGroupsCmd(w, p);
      && |w.outbox| <= |r.outbox|
      && exists page :: page in Pages(GroupLines(p.dialogs.dialogs)) && GroupLine(d) in page
           && Outgoing(w.chat.value, GroupsPage(page)) in r.outbox[|w.outbox|..]
  {
    var lines := GroupLines(p.dialogs.dialogs);
    var pages := Pages(lines);
    GroupLinesMembers(p.dialogs.dialogs, GroupLine(d));
    PagesSpec(lines);
    FlattenMember(pages, GroupLine(d));
    var i :| 0 <= i < |pages| && GroupLine(d) in pages[i];
    ListGroupsOutcome(w, p);
    var r := ListGroupsCmd(w, p);
    assert r.outbox[|w.outbox|..][i] == Outgoing(w.chat.value, GroupsPage(pages[i]));
  }

  /** `/listgroups` keeps the invariant. */
  lemma ListGroupsKeeps(cfg: Config, w: World, p: Platform)
    requires Inv(cfg, w)
    ensures Inv(cfg, ListGroupsCmd(w, p))
  {
    if p.dialogs.Listed? && GroupLines(p.dialogs.dialogs) != [] {
      var pages := Pages(GroupLines(p.dialogs.dialogs));
      SendPagesKeeps(cfg, w, pages);
      SendKeeps(cfg, SendPages(w, pages), UseGroupHint);
    } else {
      match p.dialogs
      case ListFailed(e) => SendKeeps(cfg, w, CouldNotListGroups(e));
      case Listed(_) => SendKeeps(cfg, w, NoGroups);
    }
  }

  /** Whether every step of `/reset` succeeds: the configured invite (if any) resolves to a group and the configured user (if any) resolves. */
  predicate ResetSucceeds(cfg: Config, p: Platform) {
    && (cfg.groupInvite == [] || (ResolveGroupEntity(cfg.groupInvite, p.lookup, p.joinInvite).Found?
                                 && ResolveGroupEntity(cfg.groupInvite, p.lookup, p.joinInvite).entity.GroupEnt?))
    && (cfg.targetUsername == [] || p.lookup(UserQuery(LStripChar(cfg.targetUsername, '@'))).Found?)
  }

  /** The group step of `/reset` changes only the group and three of its keys. */
  lemma ResetGroupFrame(w: World, res: Resolution, link: string)
    ensures var r := AdoptResolvedGroup(w, res, link).w;
      && r.(groupTitle := w.groupTitle, groupPeerId := w.groupPeerId, state := w.state) == w
      && (forall k :: k in w.state && k != "group_link" && k != "group_title" && k != "group_peer_id" ==> k in r.state && r.state[k] == w.state[k])
      && (forall k :: k in r.state ==> k in w.state || k == "group_link" || k == "group_title" || k == "group_peer_id")
  {
  }

  /** The user step of `/reset` changes only the target and two of its keys. */
  lemma ResetUserFrame(w: World, res: Resolution, who: string)
    ensures var r := AdoptResolvedUser(w, res, who).w;
      && r.(targetId := w.targetId, targetUsername := w.targetUsername, state := w.state) == w
      && (forall k :: k in w.state && k != "target_id" && k != "target_username" ==> k in r.state && r.state[k] == w.state[k])
      && (forall k :: k in r.state ==> k in w.state || k == "target_id" || k == "target_username")
  {
  }

  /**
   * `/reset` always stops the alert and puts the default interval back, in memory and under
   * `nag_interval`; it saves and confirms only when every step succeeded, and otherwise reports
   * the error and saves nothing.
   */
  lemma ResetOutcome(cfg: Config, w: World, p: Platform)
    ensures var r := ResetCmd(cfg, w, p);
      && r.alert == Stopped(w.alert) && r.interval == cfg.defaultInterval
      && "nag_interval" in r.state && r.state["nag_interval"] == VInt(cfg.defaultInterval)
      && r.chat == w.chat && r.offset == w.offset && r.armMark == w.armMark
      && (ChatKey !in w.state ==> ChatKey !in r.state)
    ensures var r := ResetCmd(cfg, w, p);
      if ResetSucceeds(cfg, p) then
        r.file == Some(SaveData(w.chat, r.state)) && r.outbox == w.outbox + Delivery(w.chat, ResetDone)
      else
        r.file == w.file && w.outbox <= r.outbox && |r.outbox| <= |w.outbox| + 1
  {
    ResetSteps(cfg, w, p);
  }

  /** The frames of the steps `/reset` ran. */
  lemma ResetSteps(cfg: Config, w: World, p: Platform)
    ensures var b := ResetBase(cfg, w);
      var g := ResetGroup(cfg, b, p);
      && g.w.(groupTitle := b.groupTitle, groupPeerId := b.groupPeerId, state := b.state) == b
      && (forall k :: k in b.state && k != "group_link" && k != "group_title" && k != "group_peer_id" ==> k in g.w.state && g.w.state[k] == b.state[k])
      && (forall k :: k in g.w.state ==> k in b.state || k == "group_link" || k == "group_title" || k == "group_peer_id")
      && (g.Done? <==> cfg.groupInvite == [] || (ResolveGroupEntity(cfg.groupInvite, p.lookup, p.joinInvite).Found?
                                               && ResolveGroupEntity(cfg.groupInvite, p.lookup, p.joinInvite).entity.GroupEnt?))
    ensures var g := ResetGroup(cfg, ResetBase(cfg, w), p);
      var u := ResetUser(cfg, g.w, p);
      && u.w.(targetId := g.w.targetId, targetUsername := g.w.targetUsername, state := g.w.state) == g.w
      && (forall k :: k in g.w.state && k != "target_id" && k != "target_username" ==> k in u.w.state && u.w.state[k] == g.w.state[k])
      && (forall k :: k in u.w.state ==> k in g.w.state || k == "target_id" || k == "target_username")
      && (u.Done? <==> cfg.targetUsername == [] || p.lookup(UserQuery(LStripChar(cfg.targetUsername, '@'))).Found?)
  {
    var b := ResetBase(cfg, w);
    ResetGroupStepFrame(cfg, b, p);
    ResetUserStepFrame(cfg, ResetGroup(cfg, b, p).w, p);
  }

  lemma ResetGroupStepFrame(cfg: Config, b: World, p: Platform)
    ensures var g := ResetGroup(cfg, b, p);
      && g.w.(groupTitle := b.groupTitle, groupPeerId := b.groupPeerId, state := b.state) == b
      && (forall k :: k in b.state && k != "group_link" && k != "group_title" && k != "group_peer_id" ==> k in g.w.state && g.w.state[k] == b.state[k])
      && (forall k :: k in g.w.state ==> k in b.state || k == "group_link" || k == "group_title" || k == "group_peer_id")
      && (g.Done? <==> cfg.groupInvite == [] || (ResolveGroupEntity(cfg.groupInvite, p.lookup, p.joinInvite).Found?
                                               && ResolveGroupEntity(cfg.groupInvite, p.lookup, p.joinInvite).entity.GroupEnt?))
  {
    if cfg.groupInvite != [] {
      ResetGroupFrame(b, ResolveGroupEntity(cfg.groupInvite, p.lookup, p.joinInvite), cfg.groupInvite);
    }
  }

  lemma ResetUserStepFrame(cfg: Config, g: World, p: Platform)
    ensures var u := ResetUser(cfg, g, p);
      && u.w.(targetId := g.targetId, targetUsername := g.targetUsername, state := g.state) == g
      && (forall k :: k in g.state && k != "target_id" && k != "target_username" ==> k in u.w.state && u.w.state[k] == g.state[k])
      && (forall k :: k in u.w.state ==> k in g.state || k == "target_id" || k == "target_username")
      && (u.Done? <==> cfg.targetUsername == [] || p.lookup(UserQuery(LStripChar(cfg.targetUsername, '@'))).Found?)
  {
    if cfg.targetUsername != [] {
      var who := LStripChar(cfg.targetUsername, '@');
      ResetUserFrame(g, p.lookup(UserQuery(who)), who);
    }
  }

  /** A group the `/reset` adopted stays adopted in memory even when the user step then fails. */
  lemma ResetKeepsEarlierSteps(cfg: Config, w: World, p: Platform)
    requires cfg.groupInvite != []
    requires ResolveGroupEntity(cfg.groupInvite, p.lookup, p.joinInvite).Found?
    requires ResolveGroupEntity(cfg.groupInvite, p.lookup, p.joinInvite).entity.GroupEnt?
    ensures var r := ResetCmd(cfg, w, p);
      var g := ResolveGroupEntity(cfg.groupInvite, p.lookup, p.joinInvite).entity;
      && r.groupPeerId == Some(g.peerId) && r.groupTitle == GroupTitle(g)
      && "group_peer_id" in r.state && r.state["group_peer_id"] == VInt(g.peerId)
  {
    var b := ResetBase(cfg, w);
    var ent := ResolveGroupEntity(cfg.groupInvite, p.lookup, p.joinInvite).entity;
    var g := ResetGroup(cfg, b, p);
    assert g == Done(AdoptGroup(b, ent, cfg.groupInvite));
    ResetSteps(cfg, w, p);
    var u := ResetUser(cfg, g.w, p);
    assert u.w.groupPeerId == Some(ent.peerId) && u.w.groupTitle == GroupTitle(ent);
    assert u.w.state["group_peer_id"] == VInt(ent.peerId);
  }

  /** A group step that fails leaves the target as it was: the user step never runs. */
  lemma ResetStopsAtFailure(cfg: Config, w: World, p: Platform)
    requires ResetGroup(cfg, ResetBase(cfg, w), p).Broke?
    ensures var r := ResetCmd(cfg, w, p);
      r.targetId == w.targetId && r.targetUsername == w.targetUsername && r.file == w.file
  {
    ResetSteps(cfg, w, p);
  }

  /** `/reset` keeps the invariant. */
  lemma ResetKeeps(cfg: Config, w: World, p: Platform)
    requires Inv(cfg, w)
    ensures Inv(cfg, ResetCmd(cfg, w, p))
  {
    var r := ResetCmd(cfg, w, p);
    ResetOutcome(cfg, w, p);
    KeysDistinct();
    var q := r.(outbox := w.outbox);
    QuietKeeps(cfg, Disarm(w), q);
    DisarmKeeps(cfg, w);
    if ResetSucceeds(cfg, p) {
      SendKeeps(cfg, q, ResetDone);
      assert r == Send(q, ResetDone);
    } else {
      var d := r.outbox[|w.outbox|..];
      assert r.outbox == w.outbox + d;
      var e :| r == Send(q, ResetFailed(e));
      SendKeeps(cfg, q, ResetFailed(e));
    }
  }

  /** A blank message or a word that is not a command changes nothing and sends nothing. */
  lemma UnknownIgnored(cfg: Config, w: World, m: Msg, p: Platform)
    requires CommandName(Tokens(m.text)) !in CommandNames
    ensures Handle(cfg, w, m, p) == w
  {
  }

  /** No command moves the offset or takes back a sent message. */
  lemma RunFrame(cfg: Config, w: World, c: Command, m: Msg, args: seq<string>, p: Platform)
    ensures Run(cfg, w, c, m, args, p).offset == w.offset
    ensures w.outbox <= Run(cfg, w, c, m, args, p).outbox
  {
    match c
    case Interval => IntervalOutcome(w, args);
    case SetGroup => SetGroupOutcome(w, args, p);
    case ListGroups => ListGroupsOutcome(w, p);
    case UseGroup => UseGroupOutcome(w, args, p);
    case SetUser => SetUserOutcome(w, args, p);
    case Reset => ResetOutcome(cfg, w, p);
    case _ =>
  }

  /** Every command keeps the invariant. */
  lemma RunKeeps(cfg: Config, w: World, c: Command, m: Msg, args: seq<string>, p: Platform)
    requires Inv(cfg, w)
    ensures Inv(cfg, Run(cfg, w, c, m, args, p))
  {
    match c
    case Start =>
      var w1 := Save(w.(chat := m.chatId));
      QuietKeeps(cfg, w, w1);
      SendKeeps(cfg, w1, Registered);
    case Help => SendKeeps(cfg, w, HelpMenu);
    case Stop =>
      DisarmKeeps(cfg, w);
      SendKeeps(cfg, Disarm(w), AlertsStopped);
    case Status => SendKeeps(cfg, w, StatusOf(cfg, w));
    case Interval => IntervalKeeps(cfg, w, args);
    case SetGroup => SetGroupKeeps(cfg, w, args, p);
    case ListGroups => ListGroupsKeeps(cfg, w, p);
    case UseGroup => UseGroupKeeps(cfg, w, args, p);
    case SetUser => SetUserKeeps(cfg, w, args, p);
    case Reset => ResetKeeps(cfg, w, p);
    case Test =>
      ArmKeeps(cfg, w, "Manual test at " + p.clock, p.now);
      SendKeeps(cfg, Arm(w, "Manual test at " + p.clock, p.now), TestStarted);
  }

  lemma IntervalKeeps(cfg: Config, w: World, args: seq<string>)
    requires Inv(cfg, w)
    ensures Inv(cfg, IntervalCmd(w, args))
  {
    KeysDistinct();
    if |args| >= 2 && ParseFloat(args[1]).Some? {
      var m := ParseFloat(args[1]).value;
      var secs := IntervalFromMinutes(m);
      var w1 := Save(w.(interval := secs, state := w.state["nag_interval" := VInt(secs)]));
      QuietKeeps(cfg, w, w1);
      SendKeeps(cfg, w1, IntervalSet(m, secs));
    } else {
      SendKeeps(cfg, w, IntervalUsage);
    }
  }

  /** Adopting a group keeps the invariant when its reply is sent. */
  lemma AdoptGroupKeeps(cfg: Config, w: World, g: Entity, link: string)
    requires Inv(cfg, w) && g.GroupEnt?
    ensures Inv(cfg, Send(Save(AdoptGroup(w, g, link)), GroupSet(GroupTitle(g), g.peerId)))
  {
    KeysDistinct();
    QuietKeeps(cfg, w, Save(AdoptGroup(w, g, link)));
    SendKeeps(cfg, Save(AdoptGroup(w, g, link)), GroupSet(GroupTitle(g), g.peerId));
  }

  lemma SetGroupKeeps(cfg: Config, w: World, args: seq<string>, p: Platform)
    requires Inv(cfg, w)
    ensures Inv(cfg, SetGroupCmd(w, args, p))
  {
    if |args| < 2 {
      SendKeeps(cfg, w, SetGroupUsage);
    } else {
      var raw := Join(args[1..], " ");
      match ResolveGroupEntity(raw, p.lookup, p.joinInvite)
      case Failed(e) => SendKeeps(cfg, w, CouldNotSetGroup(e));
      case Found(ent) =>
        if ent.UserEnt? {
          SendKeeps(cfg, w, NotAGroup);
        } else {
          AdoptGroupKeeps(cfg, w, ent, raw);
        }
    }
  }

  lemma UseGroupKeeps(cfg: Config, w: World, args: seq<string>, p: Platform)
    requires Inv(cfg, w)
    ensures Inv(cfg, UseGroupCmd(w, args, p))
  {
    if |args| < 2 {
      SendKeeps(cfg, w, UseGroupUsage);
    } else {
      match ResolveGroupEntity(args[1], p.lookup, p.joinInvite)
      case Failed(e) => SendKeeps(cfg, w, CouldNotSetGroupById(e));
      case Found(ent) =>
        if ent.UserEnt? {
          SendKeeps(cfg, w, IdNotAGroup);
        } else {
          AdoptGroupKeeps(cfg, w, ent, "");
        }
    }
  }

  lemma SetUserKeeps(cfg: Config, w: World, args: seq<string>, p: Platform)
    requires Inv(cfg, w)
    ensures Inv(cfg, SetUserCmd(w, args, p))
  {
    if |args| < 2 {
      SendKeeps(cfg, w, SetUserUsage);
    } else {
      var who := LStripChar(args[1], '@');
      match p.lookup(UserQuery(who))
      case Failed(e) => SendKeeps(cfg, w, CouldNotSetUser(e));
      case Found(u) =>
        KeysDistinct();
        var w1 := Save(AdoptUser(w, u, who));
        QuietKeeps(cfg, w, w1);
        SendKeeps(cfg, w1, UserSet(Or(u.username, who), u.id));
    }
  }

  /** No message moves the offset or takes back a sent message. */
  lemma HandleFrame(cfg: Config, w: World, m: Msg, p: Platform)
    ensures Handle(cfg, w, m, p).offset == w.offset
    ensures w.outbox <= Handle(cfg, w, m, p).outbox
  {
    var args := Tokens(m.text);
    match Recognize(CommandName(args))
    case None =>
    case Some(c) => RunFrame(cfg, w, c, m, args, p);
  }

  /** Every message keeps the invariant. */
  lemma HandleKeeps(cfg: Config, w: World, m: Msg, p: Platform)
    requires Inv(cfg, w)
    ensures Inv(cfg, Handle(cfg, w, m, p))
  {
    var args := Tokens(m.text);
    match Recognize(CommandName(args))
    case None =>
    case Some(c) => RunKeeps(cfg, w, c, m, args, p);
  }

  /** After a batch the offset is one past its last update. */
  lemma BatchOffset(cfg: Config, w: World, ups: seq<Update>, u: Update, p: Platform)
    ensures BatchStep(cfg, w, ups + [u], p).offset == Some(u.updateId + 1)
  {
    assert (ups + [u])[..|ups|] == ups;
  }

  /** A batch never takes back a sent message. */
  lemma {:induction false} BatchKeepsSent(cfg: Config, w: World, ups: seq<Update>, p: Platform)
    ensures w.outbox <= BatchStep(cfg, w, ups, p).outbox
  {
    if ups != [] {
      var w1 := BatchStep(cfg, w, ups[..|ups| - 1], p);
      BatchKeepsSent(cfg, w, ups[..|ups| - 1], p);
      PrefixTrans(w.outbox, w1.outbox, BatchStep(cfg, w, ups, p).outbox);
    }
  }

  /** Handling one update keeps the invariant. */
  lemma UpdateKeeps(cfg: Config, w: World, u: Update, p: Platform)
    requires Inv(cfg, w)
    ensures Inv(cfg, UpdateStep(cfg, w, u, p))
  {
    var w1 := w.(offset := Some(u.updateId + 1));
    QuietKeeps(cfg, w, w1);
    match MessageOf(u)
    case None =>
      assert UpdateStep(cfg, w, u, p) == w1;
    case Some(m) =>
      HandleKeeps(cfg, w1, m, p);
      assert UpdateStep(cfg, w, u, p) == Handle(cfg, w1, m, p);
  }

  lemma PrefixTrans(a: seq<Outgoing>, b: seq<Outgoing>, c: seq<Outgoing>)
    requires a <= b && b <= c
    ensures a <= c
  {
    assert b[..|a|] == c[..|a|];
  }

  /** A batch of updates keeps the invariant. */
  lemma {:induction false} BatchKeeps(cfg: Config, w: World, ups: seq<Update>, p: Platform)
    requires Inv(cfg, w)
    ensures Inv(cfg, BatchStep(cfg, w, ups, p))
  {
    if ups != [] {
      var w1 := BatchStep(cfg, w, ups[..|ups| - 1], p);
      BatchKeeps(cfg, w, ups[..|ups| - 1], p);
      UpdateKeeps(cfg, w1, ups[|ups| - 1], p);
      assert BatchStep(cfg, w, ups, p) == UpdateStep(cfg, w1, ups[|ups| - 1], p);
    }
  }
}
