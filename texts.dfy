/**
 * The exact text of every message the bot sends. Two pieces of formatting are the platform's:
 * Python's `{minutes:g}` rendering of a float, and `NAG_MESSAGE_TEMPLATE.format(who=..., where=...)`
 * with whatever template the environment configured; both are passed in as functions.
 */
module Texts {
  import opened Wrappers
  import opened PyStr
  import opened Utils
  import opened Store
  import opened Paging
  import opened Commands

  /** Lines, each ended by a newline. */
  function Lines(ls: seq<string>): string {
    if ls == [] then [] else ls[0] + "\n" + Lines(ls[1..])
  }

  /** The commands `/help` lists, each with what follows it on its line. */
  const HelpEntries: seq<(string, string)> := [
    ("/start", " \U{2013} register chat"), ("/stop", " \U{2013} stop alerts"), ("/status", " \U{2013} show status"),
    ("/interval", " <minutes>"), ("/setgroup", " <invite|@public|id>"), ("/listgroups", ""),
    ("/usegroup", " <peer_id>"), ("/setuser", " <@username|id>"), ("/reset", ""), ("/test", "")]

  function EntryLines(es: seq<(string, string)>): (ls: seq<string>)
    ensures |ls| == |es|
  {
    if es == [] then [] else [es[0].0 + es[0].1] + EntryLines(es[1..])
  }

  /** The reply to `/help`. */
  const HelpText: string := Lines(["Commands:"] + EntryLines(HelpEntries))

  const RegisteredText: string := "Registered. /help for commands."
  const StoppedText: string := "Alerts stopped."
  const IntervalUsageText: string := "Usage: /interval <minutes>"
  const NotAGroupText: string := "That resolves to a USER, not a group. Use an invite link or /listgroups + /usegroup <peer_id>."
  const IdNotAGroupText: string := "That id resolves to a USER, not a group. Use a negative peer_id."
  const SetGroupUsageText: string := "Usage: /setgroup <invite|@public|id>"
  const UseGroupUsageText: string := "Usage: /usegroup <peer_id>"
  const SetUserUsageText: string := "Usage: /setuser <@username|id>"
  /** The header of a `/listgroups` page; the `\t` in it is a backslash and a `t`, not a tab. */
  const GroupsHeader: string := "Groups (peer_id\\ttitle):\n"
  const UseGroupHintText: string := "Use /usegroup <peer_id> to switch."
  const NoGroupsText: string := "No groups found."
  const ResetDoneText: string := "Reset done."
  const TestStartedText: string := "Test alerts started. Send /stop to stop."
  const MaxNagsText: string := "\U{26D4} Max nags reached."

  /** The group line of `/status`: title and peer id once a group is set. */
  function GroupInfo(title: string, peer: Option<int>): string {
    if Truthy(peer) then title + " (peer_id=" + IntToString(peer.value) + ")" else "unset"
  }

  /** The user line of `/status`: name and id once a target id is set. */
  function UserInfo(name: string, id: Option<int>): string {
    if Truthy(id) then "@" + name + " (id=" + IntToString(id.value) + ")" else "unset"
  }

  /** The `/status` report after its first word. */
  function StatusDetails(title: string, peer: Option<int>, name: string, id: Option<int>, interval: int, count: nat): string {
    "\n\U{2022} Group: " + GroupInfo(title, peer) + "\n\U{2022} User: " + UserInfo(name, id)
    + "\n\U{2022} Interval: " + IntToString(interval) + "s\n\U{2022} Cycle count: " + IntToString(count)
  }

  /** The `/status` report. */
  function StatusText(active: bool, title: string, peer: Option<int>, name: string, id: Option<int>, interval: int, count: nat): string {
    "Status: " + (if active then "active" else "idle") + StatusDetails(title, peer, name, id, interval, count)
  }

  /** A `/listgroups` page: the header, then the page's lines one per line. */
  function PageText(page: seq<string>): string {
    GroupsHeader + Join(page, "\n")
  }

  /** The forwarded copy of a trigger message. */
  function PreviewText(who: string, title: string, when: string, text: string, media: bool, link: Option<string>): string {
    "\U{1F4E8} Forwarded message\nFrom @" + who + " in " + title + "\n\U{1F552} " + when
    + "\n\n" + text
    + (if media then "\n\U{1F4CE} (media present but not forwarded)" else "")
    + (if link.Some? && link.value != [] then "\n\U{1F517} Open: " + link.value else "")
  }

  /** The announcement of a trigger. */
  function NoticeText(who: string, title: string, when: string): string {
    "\U{1F6A8} Trigger: @" + who + " posted in " + title + " at " + when + ". I'll keep pinging you until you /stop."
  }

  /** The text of a message. */
  function Render(m: Message, minutesText: real -> string, nagTemplate: (string, string) -> string): string {
    match m
    case Registered => RegisteredText
    case HelpMenu => HelpText
    case AlertsStopped => StoppedText
    case StatusReport(a, t, g, n, u, i, c) => StatusText(a, t, g, n, u, i, c)
    case IntervalSet(minutes, secs) => "Interval set to " + minutesText(minutes) + " min (" + IntToString(secs) + "s)."
    case IntervalUsage => IntervalUsageText
    case GroupSet(title, peer) => "Group set: " + title + " (peer_id=" + IntToString(peer) + ")"
    case NotAGroup => NotAGroupText
    case IdNotAGroup => IdNotAGroupText
    case CouldNotSetGroup(e) => "Could not set group: " + e
    case CouldNotSetGroupById(e) => "Could not set group by id: " + e
    case SetGroupUsage => SetGroupUsageText
    case UseGroupUsage => UseGroupUsageText
    case UserSet(name, id) => "User set: @" + name + " (id=" + IntToString(id) + ")"
    case CouldNotSetUser(e) => "Could not set user: " + e
    case SetUserUsage => SetUserUsageText
    case GroupsPage(lines) => PageText(lines)
    case UseGroupHint => UseGroupHintText
    case NoGroups => NoGroupsText
    case CouldNotListGroups(e) => "Could not list groups: " + e
    case ResetDone => ResetDoneText
    case ResetFailed(e) => "Reset failed: " + e
    case TestStarted => TestStartedText
    case Nag(who, where) => nagTemplate(who, where)
    case MaxNagsReached => MaxNagsText
    case Preview(who, title, when, text, media, link) => PreviewText(who, title, when, text, media, link)
    case TriggerNotice(who, title, when) => NoticeText(who, title, when)
  }

  lemma PrefixOfConcat(p: string, q: string)
    ensures StartsWith(p + q, p)
  {
    assert (p + q)[..|p|] == p;
  }

  /** The first line of `/status` says "active" exactly when the alert is active. */
  lemma StatusSaysActive(active: bool, title: string, peer: Option<int>, name: string, id: Option<int>, interval: int, count: nat)
    ensures StartsWith(StatusText(active, title, peer, name, id, interval, count), "Status: active") <==> active
  {
    if active {
      ActiveStatus(StatusDetails(title, peer, name, id, interval, count));
    } else {
      IdleStatus(StatusDetails(title, peer, name, id, interval, count));
    }
  }

  lemma ActiveStatus(d: string)
    ensures StartsWith("Status: " + "active" + d, "Status: active")
  {
    assert ("Status: " + "active" + d)[..14] == "Status: active";
  }

  lemma IdleStatus(d: string)
    ensures !StartsWith("Status: " + "idle" + d, "Status: active")
  {
    assert ("Status: " + "idle" + d)[8] == 'i';
  }

  /** The status names the group's peer id exactly when a group is set, and otherwise says "unset". */
  lemma StatusGroupLine(title: string, peer: Option<int>)
    ensures Truthy(peer) ==> GroupInfo(title, peer) == title + " (peer_id=" + IntToString(peer.value) + ")"
    ensures !Truthy(peer) ==> GroupInfo(title, peer) == "unset"
  {
  }

  /** Joining drops no separator: the joined text is as long as its pieces and separators. */
  lemma {:induction false} JoinLength(ss: seq<string>, sep: string)
    requires ss != []
    ensures |Join(ss, sep)| == |Join(ss[..|ss| - 1], sep)| + (if |ss| > 1 then |sep| else 0) + |ss[|ss| - 1]|
  {
    if |ss| > 2 {
      JoinLength(ss[1..], sep);
      assert ss[..|ss| - 1][1..] == ss[1..][..|ss[1..]| - 1];
    } else if |ss| == 2 {
      assert ss[..1] == [ss[0]];
    }
  }

  /**
   * Every page `/listgroups` sends is within 3500 characters (plus its header) before its
   * last line: a page's text is at most the header, the limit, a newline and that line.
   */
  lemma PageTextBound(lines: seq<string>, page: seq<string>)
    requires page in Pages(lines)
    ensures page != []
    ensures |PageText(page)| <= |GroupsHeader| + PageLimit + 1 + |page[|page| - 1]|
  {
    PagesSpec(lines);
    JoinLength(page, "\n");
  }

  /** The help lists the command word of each command other than `/help` itself. */
  lemma HelpListsCommands()
    ensures forall c :: c in CommandNames && c != "/help" ==> Contains(HelpText, c)
  {
    forall j | 0 <= j < |CommandNames| && j != 1 ensures Contains(HelpText, CommandNames[j]) {
      NameIsEntry(j);
      EntryShown(HelpEntries, if j == 0 then 0 else j - 1);
    }
    assert CommandNames[1] == "/help";
  }

  /** Every command word but `/help` heads its entry in the help, in the same order. */
  lemma NameIsEntry(j: nat)
    requires j < |CommandNames| && j != 1
    ensures CommandNames[j] == HelpEntries[if j == 0 then 0 else j - 1].0
  {
  }

  lemma EntryShown(es: seq<(string, string)>, i: nat)
    requires i < |es|
    ensures Contains(Lines(["Commands:"] + EntryLines(es)), es[i].0)
  {
    EntryLine(es, i);
    PrefixOfConcat(es[i].0, es[i].1);
    LineShown(["Commands:"] + EntryLines(es), i + 1, es[i].0);
  }

  lemma {:induction false} EntryLine(es: seq<(string, string)>, i: nat)
    requires i < |es|
    ensures EntryLines(es)[i] == es[i].0 + es[i].1
  {
    if i > 0 {
      EntryLine(es[1..], i - 1);
    }
  }

  /** What a line starts with is in the text of all lines. */
  lemma {:induction false} LineShown(ls: seq<string>, i: nat, sub: string)
    requires i < |ls| && StartsWith(ls[i], sub)
    ensures Contains(Lines(ls), sub)
  {
    if i == 0 {
      assert Lines(ls)[..|sub|] == sub;
      assert OccursAt(Lines(ls), sub, 0);
    } else {
      LineShown(ls[1..], i - 1, sub);
      var j :| 0 <= j <= |Lines(ls[1..])| - |sub| && OccursAt(Lines(ls[1..]), sub, j);
      var k := |ls[0]| + 1 + j;
      assert Lines(ls)[k..k + |sub|] == Lines(ls[1..])[j..j + |sub|];
      assert OccursAt(Lines(ls), sub, k);
    }
  }
}
