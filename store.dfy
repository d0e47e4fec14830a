/**
 * The bot side of the watcher: the JSON state file as a map of values, the merge that loads it,
 * the snapshot that saves it, and the bot object that holds the chat id, the update offset,
 * the state dictionary and the messages it has sent.
 */
module Store {
  import opened Wrappers
  import opened PyStr
  import opened Utils

  /** A JSON value as `json.load` hands it back; lists and objects only by their size. */
  datatype Value =
    | VNull
    | VBool(b: bool)
    | VInt(i: int)
    | VReal(x: real)
    | VStr(s: string)
    | VCollection(size: nat)

  /** Python truthiness of a loaded value. */
  predicate IsTruthy(v: Value) {
    match v
    case VNull => false
    case VBool(b) => b
    case VInt(i) => i != 0
    case VReal(x) => x != 0.0
    case VStr(s) => s != []
    case VCollection(n) => n > 0
  }

  /** `int(x)` truncated toward zero. */
  function Trunc(x: real): (n: int)
    ensures x >= 0.0 ==> n as real <= x < n as real + 1.0
    ensures x < 0.0 ==> n as real - 1.0 < x <= n as real
  {
    if x >= 0.0 then x.Floor else -((-x).Floor)
  }

  /** `int(v)`: `None` where Python raises. */
  function IntOf(v: Value): (r: Option<int>)
    ensures v.VInt? ==> r == Some(v.i)
    ensures v.VNull? || v.VCollection? ==> r.None?
    ensures v.VBool? ==> r.Some? && (r.value == 1 <==> v.b) && (r.value == 0 <==> !v.b)
    ensures v.VReal? ==> r == Some(Trunc(v.x))
    ensures v.VStr? ==> r == ParseInt(v.s)
  {
    match v
    case VNull => None
    case VBool(b) => Some(if b then 1 else 0)
    case VInt(i) => Some(i)
    case VReal(x) => Some(Trunc(x))
    case VStr(s) => ParseInt(s)
    case VCollection(_) => None
  }

  const ChatKey: string := "bot_chat_id"

  /** The state dictionary as the JSON object it is saved as. */
  type Object = map<string, Value>

  /** What a load leaves behind: the chat id and the state dictionary. */
  datatype Loaded = Loaded(chat: Option<int>, state: Object)

  /** The saved `bot_chat_id`, or `None` where the file has none. */
  function SavedChat(data: Object): (v: Value)
    ensures ChatKey !in data ==> v == VNull
    ensures ChatKey in data ==> v == data[ChatKey]
  {
    if ChatKey in data then data[ChatKey] else VNull
  }

  /**
   * `_load_state`: a chat id already set (from the environment) is kept, otherwise a truthy
   * saved `bot_chat_id` is read with `int()`; every other saved key is merged into the state.
   * A missing or unreadable file, or a saved chat id `int()` refuses, changes nothing at all.
   */
  function Load(chat: Option<int>, state: Object, file: Option<Object>): (r: Loaded)
    ensures file.None? ==> r == Loaded(chat, state)
    ensures chat.Some? ==> r.chat == chat
    ensures ChatKey !in state ==> ChatKey !in r.state
    ensures r == Loaded(chat, state) || forall k :: k in r.state <==> k in state || (file.Some? && k in file.value && k != ChatKey)
    // the saved chat id is read only when none is configured and it is truthy
    ensures file.Some? && !(chat.None? && IsTruthy(SavedChat(file.value))) ==>
      r == Loaded(chat, state + (file.value - {ChatKey}))
    // a truthy saved id that int() refuses aborts the whole merge
    ensures file.Some? && chat.None? && IsTruthy(SavedChat(file.value)) && IntOf(SavedChat(file.value)).None? ==>
      r == Loaded(chat, state)
    ensures file.Some? && chat.None? && IsTruthy(SavedChat(file.value)) && IntOf(SavedChat(file.value)).Some? ==>
      r == Loaded(IntOf(SavedChat(file.value)), state + (file.value - {ChatKey}))
  {
    match file
    case None => Loaded(chat, state)
    case Some(data) =>
      var saved := SavedChat(data);
      if chat.None? && IsTruthy(saved) then
        match IntOf(saved)
        case None => Loaded(chat, state)
        case Some(c) => Loaded(Some(c), state + (data - {ChatKey}))
      else Loaded(chat, state + (data - {ChatKey}))
  }

  /** The value the chat id is saved as. */
  function ChatValue(chat: Option<int>): Value {
    if chat.Some? then VInt(chat.value) else VNull
  }

  /** `_save_state`: `{"bot_chat_id": chat_id}` updated with the whole state. */
  function SaveData(chat: Option<int>, state: Object): (d: Object)
    ensures forall k :: k in state ==> k in d && d[k] == state[k]
    ensures ChatKey !in state ==> ChatKey in d && d[ChatKey] == ChatValue(chat)
    ensures forall k :: k in d ==> k == ChatKey || k in state
  {
    map[ChatKey := ChatValue(chat)] + state
  }

  /**
   * Loading what was saved, in a fresh process with no chat id in the environment, gives back
   * the state and the chat id (a chat id of 0 is falsy and is not restored).
   */
  lemma SaveLoadRoundTrip(chat: Option<int>, state: Object)
    requires ChatKey !in state
    ensures Load(None, map[], Some(SaveData(chat, state))) ==
      Loaded(if chat.Some? && chat.value != 0 then chat else None, state)
  {
    var d := SaveData(chat, state);
    assert d - {ChatKey} == state;
    assert map[] + state == state;
  }

  /** The chat id the environment supplies: `int()` of a non-empty `BOT_CHAT_ID`, if it parses. */
  function EnvChat(env: string): (r: Option<int>)
    ensures env == [] ==> r.None?
    ensures r.Some? ==> ParseInt(env) == r
    ensures env != [] ==> r == ParseInt(env)
  {
    if env == [] then None else ParseInt(env)
  }

  /** A configured chat id always wins over the saved one. */
  lemma EnvChatWins(env: string, file: Option<Object>, n: int)
    requires EnvChat(env) == Some(n)
    ensures Load(EnvChat(env), map[], file).chat == Some(n)
  {
  }

  /** The interval restored at startup: a saved integer of at least 30 seconds, else the current one. */
  function RestoreInterval(state: Object, current: int): (r: int)
    ensures r == current || r >= 30
    ensures "nag_interval" in state && state["nag_interval"].VInt? && state["nag_interval"].i >= 30 ==> r == state["nag_interval"].i
    ensures !("nag_interval" in state && state["nag_interval"].VInt? && state["nag_interval"].i >= 30) ==> r == current
  {
    if "nag_interval" in state then
      match state["nag_interval"]
      case VInt(i) => if i >= 30 then i else current
      case _ => current
    else current
  }

  // ---------------------------------------------------------------------------------------------
  // Outgoing messages

  /**
   * A message the bot sends, by what it says and the values it quotes; `Texts.Render` gives
   * the exact text of each.
   */
  datatype Message =
    | Registered
    | HelpMenu
    | AlertsStopped
    | StatusReport(active: bool, groupTitle: string, groupPeerId: Option<int>, userName: string, userId: Option<int>, interval: int, count: nat)
    | IntervalSet(minutes: real, seconds: int)
    | IntervalUsage
    | GroupSet(title: string, peerId: int)
    | NotAGroup
    | IdNotAGroup
    | CouldNotSetGroup(error: string)
    | CouldNotSetGroupById(error: string)
    | SetGroupUsage
    | UseGroupUsage
    | UserSet(name: string, id: int)
    | CouldNotSetUser(error: string)
    | SetUserUsage
    | GroupsPage(lines: seq<string>)
    | UseGroupHint
    | NoGroups
    | CouldNotListGroups(error: string)
    | ResetDone
    | ResetFailed(error: string)
    | TestStarted
    | Nag(who: string, where: string)
    | MaxNagsReached
    | Preview(who: string, title: string, when: string, text: string, media: bool, link: Option<string>)
    | TriggerNotice(who: string, title: string, when: string)

  /** A message delivered to a chat. */
  datatype Outgoing = Outgoing(chat: int, message: Message)

  /** `send_message`: nothing is sent while the chat id is unset or 0. */
  function Delivery(chat: Option<int>, m: Message): (out: seq<Outgoing>)
    ensures |out| <= 1
    ensures out != [] <==> Truthy(chat)
    ensures out != [] ==> out[0] == Outgoing(chat.value, m)
  {
    if Truthy(chat) then [Outgoing(chat.value, m)] else []
  }

  /**
   * The bot: the chat it talks to, the update offset, the state dictionary, the file it saves
   * to (`None` while there is none or it cannot be read) and the messages it has sent.
   */
  class SimpleBot {
    var chatId: Option<int>
    var updateOffset: Option<int>
    var state: Object
    var file: Option<Object>
    var outbox: seq<Outgoing>

    /** `SimpleBot(...)`: the chat id from the environment, then the saved state merged in. */
    constructor (chatEnv: string, saved: Option<Object>)
      ensures Loaded(chatId, state) == Load(EnvChat(chatEnv), map[], saved)
      ensures updateOffset.None? && file == saved && outbox == []
    {
      chatId := EnvChat(chatEnv);
      updateOffset := None;
      state := map[];
      file := saved;
      outbox := [];
      new;
      LoadState();
    }

    /** `_load_state`. */
    method LoadState()
      modifies this
      ensures Loaded(chatId, state) == Load(old(chatId), old(state), file)
      ensures updateOffset == old(updateOffset) && file == old(file) && outbox == old(outbox)
    {
      var r := Load(chatId, state, file);
      chatId, state := r.chat, r.state;
    }

    /** `_save_state`: the file now holds the chat id and the state. */
    method SaveState()
      modifies this
      ensures file == Some(SaveData(chatId, state))
      ensures chatId == old(chatId) && updateOffset == old(updateOffset) && state == old(state) && outbox == old(outbox)
    {
      file := Some(SaveData(chatId, state));
    }

    /** `send_message`. */
    method SendMessage(m: Message)
      modifies this
      ensures outbox == old(outbox) + Delivery(chatId, m)
      ensures chatId == old(chatId) && updateOffset == old(updateOffset) && state == old(state) && file == old(file)
    {
      if Truthy(chatId) {
        outbox := outbox + [Outgoing(chatId.value, m)];
      }
    }
  }
}
