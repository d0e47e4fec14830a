/**
 * The two things that happen outside the command loop: one tick of the nag loop, and a new
 * message seen in some chat, which may arm the alert.
 */
module Triggers {
  import opened Wrappers
  import opened PyStr
  import opened Utils
  import opened Store
  import opened Alerts
  import opened Process

  // ---------------------------------------------------------------------------------------------
  // The nag tick

  /** Whom a nag names: the target by name once a target id is set, else a placeholder. */
  function NagWho(cfg: Config, w: World): string {
    if Truthy(w.targetId) then "@" + TargetName(cfg, w) else "(unset user)"
  }

  /** Where a nag says the target posted: the group's title, else a placeholder. */
  function NagWhere(w: World): string {
    Or(w.groupTitle, "(unset group)")
  }

  /** A nag is due when none was sent since arming, or the interval has passed since the last. */
  predicate Due(a: AlertView, interval: int, now: int) {
    a.lastSentAt == 0 || now - a.lastSentAt >= interval
  }

  /** Whether a cap is set and the count has reached it (a negative cap is reached by any count). */
  predicate CapReached(cfg: Config, count: int) {
    cfg.maxNags != 0 && count >= cfg.maxNags
  }

  /**
   * One pass of the nag loop at time `now`: with an active alert and a chat to talk to, a due
   * nag is sent and counted; if that reaches the cap, the alert stops and says so.
   */
  function NagTick(cfg: Config, w: World, now: int): World {
    if !(w.alert.active && Truthy(w.chat)) || !Due(w.alert, w.interval, now) then w
    else
      var w1 := Send(w, Nag(NagWho(cfg, w), NagWhere(w))).(alert := w.alert.(lastSentAt := now, count := w.alert.count + 1));
      if CapReached(cfg, w1.alert.count) then Send(Disarm(w1), MaxNagsReached) else w1
  }

  /** Nothing happens while the alert is idle, no chat is registered, or no nag is due. */
  lemma NagQuiet(cfg: Config, w: World, now: int)
    requires !w.alert.active || !Truthy(w.chat) || !Due(w.alert, w.interval, now)
    ensures NagTick(cfg, w, now) == w
  {
  }

  /**
   * A due nag: exactly one nag naming the target and the group goes to the chat, the time and
   * the count move on, and reaching the cap stops the alert with one more message. Nothing
   * else changes.
   */
  lemma NagSent(cfg: Config, w: World, now: int)
    requires w.alert.active && Truthy(w.chat) && Due(w.alert, w.interval, now)
    ensures var r := NagTick(cfg, w, now);
      var capped := CapReached(cfg, w.alert.count + 1);
      && r.alert.lastSentAt == now && r.alert.count == w.alert.count + 1
      && r.alert.active == !capped
      && r.alert.startedAt == w.alert.startedAt && r.alert.reason == w.alert.reason
      && r.outbox == w.outbox + [Outgoing(w.chat.value, Nag(NagWho(cfg, w), NagWhere(w)))]
                   + (if capped then [Outgoing(w.chat.value, MaxNagsReached)] else [])
      && r.(outbox := w.outbox, alert := w.alert) == w
  {
  }

  /** The nag tick keeps the invariant: the count goes up with the nag that was sent, and the cap stops the alert. */
  lemma NagKeeps(cfg: Config, w: World, now: int)
    requires Inv(cfg, w)
    ensures Inv(cfg, NagTick(cfg, w, now))
  {
    if w.alert.active && Truthy(w.chat) && Due(w.alert, w.interval, now) {
      var w1 := Send(w, Nag(NagWho(cfg, w), NagWhere(w))).(alert := w.alert.(lastSentAt := now, count := w.alert.count + 1));
      NagCounted(cfg, w, now, w1);
      if CapReached(cfg, w1.alert.count) {
        assert Inv(cfg, Disarm(w1));
        SendKeeps(cfg, Disarm(w1), MaxNagsReached);
      }
    }
  }

  /** The nag just sent is the one the count adds. */
  lemma NagCounted(cfg: Config, w: World, now: int, w1: World)
    requires Inv(cfg, w) && w.alert.active && Truthy(w.chat)
    requires w1 == Send(w, Nag(NagWho(cfg, w), NagWhere(w))).(alert := w.alert.(lastSentAt := now, count := w.alert.count + 1))
    ensures w1.armMark <= |w1.outbox| && NagsIn(w1.outbox[w1.armMark..]) == w1.alert.count
  {
    var n := Outgoing(w.chat.value, Nag(NagWho(cfg, w), NagWhere(w)));
    assert w1.outbox[w1.armMark..] == w.outbox[w.armMark..] + [n];
    NagsInAppend(w.outbox[w.armMark..], [n]);
    assert NagsIn([n]) == NagsIn([]) + 1;
  }

  /** With a positive cap, the tick that sends the cap's nag is the one that stops the alert. */
  lemma NagCapStops(cfg: Config, w: World, now: int)
    requires Inv(cfg, w) && cfg.maxNags > 0
    requires w.alert.active && Truthy(w.chat) && Due(w.alert, w.interval, now)
    ensures NagTick(cfg, w, now).alert.count <= cfg.maxNags
    ensures NagTick(cfg, w, now).alert.active <==> NagTick(cfg, w, now).alert.count < cfg.maxNags
  {
    NagSent(cfg, w, now);
  }

  /** The nag loop run at the given times, one tick each. */
  function NagRun(cfg: Config, w: World, times: seq<int>): World {
    if times == [] then w else NagTick(cfg, NagRun(cfg, w, times[..|times| - 1]), times[|times| - 1])
  }

  /** However many ticks run, the invariant holds, and with a positive cap no arming is followed by more nags than the cap. */
  lemma {:induction false} NagRunKeeps(cfg: Config, w: World, times: seq<int>)
    requires Inv(cfg, w)
    ensures Inv(cfg, NagRun(cfg, w, times))
    ensures var r := NagRun(cfg, w, times);
      cfg.maxNags > 0 ==> NagsIn(r.outbox[r.armMark..]) <= cfg.maxNags
  {
    if times != [] {
      NagRunKeeps(cfg, w, times[..|times| - 1]);
      NagKeeps(cfg, NagRun(cfg, w, times[..|times| - 1]), times[|times| - 1]);
    }
    if cfg.maxNags > 0 {
      AtMostMaxNags(cfg, NagRun(cfg, w, times));
    }
  }

  // ---------------------------------------------------------------------------------------------
  // New messages

  /** The sender of a message as the platform reports it (`""` for no username). */
  datatype Sender = Sender(id: int, username: string)

  /**
   * A new message seen by the user account: its chat, its sender (`None` if it could not be
   * fetched), its text (`""` if none), its date as formatted by `strftime` (`None` if it has
   * none), its id, and whether it carries media.
   */
  datatype Event = Event(chatId: int, sender: Option<Sender>, rawText: string, date: Option<string>, messageId: int, hasMedia: bool)

  /** Whether the sender is the target: the same id, or else, when both have a username, the same username ignoring case. */
  function IsFromTarget(w: World, s: Option<Sender>): bool
    requires w.targetId.Some?
  {
    match s
    case None => false
    case Some(x) =>
      if x.id == w.targetId.value then true
      else if w.targetUsername != [] && x.username != [] then Lower(x.username) == Lower(w.targetUsername)
      else false
  }

  /** `any(k in body for k in keywords)`. */
  function AnyIn(keywords: seq<string>, body: string): (b: bool)
    ensures !b ==> forall k :: k in keywords ==> !Contains(body, k)
  {
    if keywords == [] then false else Contains(body, keywords[0]) || AnyIn(keywords[1..], body)
  }

  /** `AnyIn` finds a keyword exactly when one is contained in the body. */
  lemma {:induction false} AnyInIff(keywords: seq<string>, body: string)
    ensures AnyIn(keywords, body) <==> exists k :: k in keywords && Contains(body, k)
  {
    if keywords != [] {
      AnyInIff(keywords[1..], body);
      assert forall k :: k in keywords <==> k == keywords[0] || k in keywords[1..];
    }
  }

  /** The keyword filter: no keywords configured, or some keyword in the lower-cased text. */
  function KeywordsPass(cfg: Config, text: string): bool {
    cfg.keywords == [] || AnyIn(cfg.keywords, Lower(text))
  }

  /** When the trigger says the message was posted. */
  function When(e: Event): string {
    if e.date.Some? then e.date.value else "now"
  }

  /**
   * `on_new_message` at time `now`: a message in the monitored group from the target that
   * passes the keyword filter arms the alert; the bot then forwards a preview (if a chat is
   * registered) and announces the trigger. Any other message changes nothing.
   */
  function OnNewMessage(cfg: Config, w: World, e: Event, now: int): World {
    if Passes(cfg, w, e) then Announce(cfg, w, e, now) else w
  }

  /** The checks of `on_new_message`, in order: a group and a target are set, the chat is the group, the sender is the target, the keywords match. */
  predicate Passes(cfg: Config, w: World, e: Event) {
    && Truthy(w.groupPeerId) && Truthy(w.targetId)
    && e.chatId == w.groupPeerId.value
    && IsFromTarget(w, e.sender)
    && KeywordsPass(cfg, e.rawText)
  }

  /** What a message that passes the checks does: arm the alert, forward a preview if a chat is registered, announce the trigger. */
  function Announce(cfg: Config, w: World, e: Event, now: int): World
    requires w.groupPeerId.Some?
  {
    var who := TargetName(cfg, w);
    var when := When(e);
    var w1 := Arm(w, "Message from @" + who + " in " + w.groupTitle + " at " + when, now);
    var w2 :=
      if Truthy(w1.chat) then
        Send(w1, Preview(who, w.groupTitle, when, SafeSlice(Or(e.rawText, "(no text)"), 3600),
                         e.hasMedia, BuildMessageLink(w.groupPeerId.value, e.messageId)))
      else w1;
    Send(w2, TriggerNotice(who, w.groupTitle, when))
  }

  /** The conditions under which a message arms the alert, stated on their own. */
  ghost predicate Qualifies(cfg: Config, w: World, e: Event) {
    && Truthy(w.groupPeerId) && Truthy(w.targetId)
    && e.chatId == w.groupPeerId.value
    && e.sender.Some?
    && (|| e.sender.value.id == w.targetId.value
        || (w.targetUsername != [] && e.sender.value.username != []
            && Lower(e.sender.value.username) == Lower(w.targetUsername)))
    && (cfg.keywords == [] || exists k :: k in cfg.keywords && Contains(Lower(e.rawText), k))
  }

  /**
   * A message that qualifies arms the alert at `now` with the reason naming the target, the
   * group and the time, and sends the preview and the notice to the registered chat; one that
   * does not changes nothing at all.
   */
  lemma TriggerIff(cfg: Config, w: World, e: Event, now: int)
    ensures !Qualifies(cfg, w, e) ==> OnNewMessage(cfg, w, e, now) == w
    ensures Qualifies(cfg, w, e) ==>
      var r := OnNewMessage(cfg, w, e, now);
      var who := TargetName(cfg, w);
      && r.alert == Started("Message from @" + who + " in " + w.groupTitle + " at " + When(e), now)
      && r.armMark == |w.outbox|
      && |r.outbox| == |w.outbox| + (if Truthy(w.chat) then 2 else 0)
      && w.outbox <= r.outbox
      && (Truthy(w.chat) ==> r.outbox[|w.outbox|] == Outgoing(w.chat.value,
            Preview(who, w.groupTitle, When(e), SafeSlice(Or(e.rawText, "(no text)"), 3600),
                    e.hasMedia, BuildMessageLink(w.groupPeerId.value, e.messageId))))
      && (Truthy(w.chat) ==> r.outbox[|r.outbox| - 1] == Outgoing(w.chat.value, TriggerNotice(who, w.groupTitle, When(e))))
      && r.(alert := w.alert, armMark := w.armMark, outbox := w.outbox) == w
  {
    if Truthy(w.groupPeerId) && Truthy(w.targetId) {
      AnyInIff(cfg.keywords, Lower(e.rawText));
    }
  }

  /** The `elif`: a sender whose id differs from the target's still arms the alert when the usernames agree. */
  lemma UsernameAloneArms(cfg: Config, w: World, e: Event, now: int)
    requires Truthy(w.groupPeerId) && Truthy(w.targetId) && e.chatId == w.groupPeerId.value
    requires cfg.keywords == []
    requires e.sender.Some? && e.sender.value.id != w.targetId.value
    requires w.targetUsername != [] && e.sender.value.username != [] && Lower(e.sender.value.username) == Lower(w.targetUsername)
    ensures OnNewMessage(cfg, w, e, now).alert.active && OnNewMessage(cfg, w, e, now).alert.count == 0
  {
  }

  /**
   * The preview a qualifying message forwards carries at most 3600 characters of text, and a
   * short non-empty text whole.
   */
  lemma PreviewBounded(cfg: Config, w: World, e: Event, now: int)
    requires Qualifies(cfg, w, e) && Truthy(w.chat)
    ensures var m := OnNewMessage(cfg, w, e, now).outbox[|w.outbox|].message;
      m.Preview? && |m.text| <= 3600
      && (e.rawText != [] && |e.rawText| <= 3600 ==> m.text == e.rawText)
  {
    TriggerIff(cfg, w, e, now);
    SafeSliceBound(Or(e.rawText, "(no text)"), 3600);
  }

  /** Every comma piece of the raw keyword setting is blank. */
  predicate AllBlank(raw: string) {
    forall p :: p in Split(Strip(raw), ',') ==> Strip(p) == []
  }

  /** Some non-blank comma piece of the setting, stripped and lower-cased, occurs in `body`. */
  predicate SomePieceIn(raw: string, body: string) {
    exists p :: p in Split(Strip(raw), ',') && Strip(p) != [] && Contains(body, Lower(Strip(p)))
  }

  /**
   * With the keywords read from the raw setting, the filter passes exactly when the setting
   * has no non-blank piece, or some piece, stripped and lower-cased, occurs in the lower-cased
   * text.
   */
  lemma KeywordsFromSetting(cfg: Config, raw: string, text: string)
    requires cfg.keywords == ParseKeywords(raw)
    ensures KeywordsPass(cfg, text) <==> AllBlank(raw) || SomePieceIn(raw, Lower(text))
  {
    NoKeywords(raw);
    SomeKeywords(raw);
    KeywordFound(raw, Lower(text));
    KeywordMissed(raw, Lower(text));
  }

  /** A setting whose pieces are all blank yields no keyword. */
  lemma NoKeywords(raw: string)
    ensures AllBlank(raw) ==> ParseKeywords(raw) == []
  {
    var ks := ParseKeywords(raw);
    if ks != [] {
      assert ks[0] in ks;
    }
  }

  /** A setting with no keyword has only blank pieces. */
  lemma SomeKeywords(raw: string)
    ensures ParseKeywords(raw) == [] ==> AllBlank(raw)
  {
    if ParseKeywords(raw) == [] {
      forall p | p in Split(Strip(raw), ',') ensures Strip(p) == [] {
        if Strip(p) != [] {
          assert KeptFrom(Split(Strip(raw), ','), Lower(Strip(p)));
        }
      }
    }
  }

  /** A parsed keyword in the body is a non-blank piece, normalised, in the body. */
  lemma KeywordFound(raw: string, body: string)
    ensures AnyIn(ParseKeywords(raw), body) ==> SomePieceIn(raw, body)
  {
    if AnyIn(ParseKeywords(raw), body) {
      var p := HitPiece(raw, body);
    }
  }

  /** No parsed keyword in the body: no non-blank piece, normalised, is in it. */
  lemma KeywordMissed(raw: string, body: string)
    ensures !AnyIn(ParseKeywords(raw), body) ==> !SomePieceIn(raw, body)
  {
    if !AnyIn(ParseKeywords(raw), body) {
      forall p | p in Split(Strip(raw), ',') && Strip(p) != [] ensures !Contains(body, Lower(Strip(p))) {
        MissedPiece(raw, body, p);
      }
    }
  }

  /** A keyword found in the body comes from a non-blank piece. */
  lemma HitPiece(raw: string, body: string) returns (p: string)
    requires AnyIn(ParseKeywords(raw), body)
    ensures p in Split(Strip(raw), ',') && Strip(p) != [] && Contains(body, Lower(Strip(p)))
  {
    var ks := ParseKeywords(raw);
    AnyInIff(ks, body);
    var k :| k in ks && Contains(body, k);
    assert KeptFrom(Split(Strip(raw), ','), k);
    p :| p in Split(Strip(raw), ',') && Strip(p) != [] && k == Lower(Strip(p));
  }

  /** When no keyword is found, no non-blank piece occurs in the body. */
  lemma MissedPiece(raw: string, body: string, p: string)
    requires !AnyIn(ParseKeywords(raw), body)
    requires p in Split(Strip(raw), ',') && Strip(p) != []
    ensures !Contains(body, Lower(Strip(p)))
  {
    assert KeptFrom(Split(Strip(raw), ','), Lower(Strip(p)));
    assert Lower(Strip(p)) in ParseKeywords(raw);
  }



  /** A new message keeps the invariant: arming starts the count afresh, and neither message sent is a nag. */
  lemma TriggerKeeps(cfg: Config, w: World, e: Event, now: int)
    requires Inv(cfg, w)
    ensures Inv(cfg, OnNewMessage(cfg, w, e, now))
  {
    if Passes(cfg, w, e) {
      var who := TargetName(cfg, w);
      var when := When(e);
      var w1 := Arm(w, "Message from @" + who + " in " + w.groupTitle + " at " + when, now);
      ArmKeeps(cfg, w, "Message from @" + who + " in " + w.groupTitle + " at " + when, now);
      var pv := Preview(who, w.groupTitle, when, SafeSlice(Or(e.rawText, "(no text)"), 3600),
                        e.hasMedia, BuildMessageLink(w.groupPeerId.value, e.messageId));
      SendKeeps(cfg, w1, pv);
      var w2 := if Truthy(w1.chat) then Send(w1, pv) else w1;
      SendKeeps(cfg, w2, TriggerNotice(who, w.groupTitle, when));
    }
  }
}
