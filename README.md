# Group watcher, modelled in Dafny

`watcher.py` watches one Telegram group for messages from one user. When the user posts
(optionally only with one of the required keywords), it arms an alert and the bot forwards a
preview and an announcement to the operator's chat. It then keeps sending nag messages at the
configured interval until the operator sends `/stop`, or until the nag cap is reached. The
operator drives it through the bot's commands: `/start`, `/help`, `/stop`, `/status`,
`/interval`, `/setgroup`, `/listgroups`, `/usegroup`, `/setuser`, `/reset` and `/test`. The
bot's chat id, the chosen group and user, and the interval are persisted in a JSON state file.

The project models this core, one module per concern:

- `wrappers.dfy`: `Option`.
- `pystr.dfy`: the Python string operations the program relies on (`strip`, `lstrip`,
  `split`, `split(",")`, `lower`, `startswith`, `in`, `str(int)`, `int(str)`, `float(str)`).
- `utils.dfy`: the module-level helpers (`extract_invite_hash`, `resolve_group_entity`,
  `ensure_group_entity`, `build_message_link`, `safe_slice`), the keyword list, and the way user
  identifiers are looked up.
- `store.dfy`: JSON values, the load merge and the save snapshot of the state file, the outgoing
  messages, and the `SimpleBot` class with its chat id, update offset, state dictionary, file
  and sent messages.
- `alerts.dfy`: the `AlertState` class.
- `process.dfy`: the whole process state as a value (`World`), the invariant every step keeps,
  and startup.
- `commands.dfy`: one pass of the bot's update loop, each command as a step function on
  `World`, with lemmas about each command's outcome and about the invariant.
- `paging.dfy`: the `/listgroups` buffer that goes out whenever its text passes 3500
  characters.
- `texts.dfy`: the exact text of every message.
- `triggers.dfy`: the nag tick and `on_new_message`.
- `watcher.dfy`: the `Watcher` class. It holds the bot, the alert and the variables `main()`
  shares between its loops. Its methods change them in place, and each one is proved to
  perform the step function of its command, tick or event.

The platform is passed in as a `Platform` value:

- entity lookup and invite joining are functions from the query to the answer;
- the dialog list is an explicit value;
- the wall clock is a timestamp plus its `strftime` text.

An exception a lookup raises is a `Failed(error)` answer. A message is stored with its command
and quoted values (`Message`); `Texts.Render` gives the text the program sends for each one.

The invariant `Process.Inv` says:

- the chat id is never a key of the state dictionary;
- the interval is at least 30 seconds unless it is still the configured default;
- the alert's count is the number of nags sent since the alert was last armed;
- with a positive cap, the count never passes the cap, and an active alert is below it.

Startup establishes the invariant. Every command, every update batch, every nag tick and
every new message keeps it.

Some behaviours of the code, which the model keeps:

- `/interval` truncates toward zero: the new interval is `int(max(30, minutes*60))` seconds
  (`Commands.IntervalFromMinutes`).
- The sender check is an `elif`: a sender whose id differs from the target's still counts as
  the target when the usernames agree, ignoring case (`Triggers.UsernameAloneArms`).
- `NAG_INTERVAL_SECONDS` from the environment is not held to the 30-second floor, so
  `Process.Inv` allows the configured default as it is.
- A negative `MAX_NAGS` is truthy, and every count reaches it, so the alert stops after its
  first nag.

## Model

| member | source | states |
|---|---|---|
| PyStr.Strip | watcher.py:50 | `strip()` leaves neither leading nor trailing whitespace and never lengthens the string |
| PyStr.StripBlank | watcher.py:50 | `strip()` gives the empty string iff the input is all whitespace |
| PyStr.StripShape | watcher.py:50 | what `strip()` leaves sits inside the input with only whitespace before and after it |
| PyStr.LStrip | watcher.py:50 | `lstrip()` drops exactly a leading run of whitespace; what is left does not start with whitespace |
| PyStr.RStrip | watcher.py:50 | `rstrip()` drops exactly a trailing run of whitespace; what is left does not end with whitespace |
| PyStr.LStripChar | watcher.py:23 | `lstrip(c)` drops exactly the leading run of `c`; what is left does not start with `c` |
| PyStr.Lower | watcher.py:251 | `lower()` keeps the length, maps each upper-case letter to its lower-case letter and keeps every other character |
| PyStr.LowerIdempotent | watcher.py:399 | lower-casing twice is lower-casing once |
| PyStr.CutAt | watcher.py:52 | `split("?", 1)[0]` is the longest prefix without `?`; the next character, if any, is `?` |
| PyStr.AfterFirst | watcher.py:54 | `split("+", 1)[-1]` is the suffix after the first `+`, or the whole string when there is none |
| PyStr.AfterLast | watcher.py:52 | `rsplit("/", 1)[-1]` is the suffix after the last `/`, and contains no `/` |
| PyStr.Words | watcher.py:251 | `split()` yields non-empty words without whitespace that, put together, are exactly the input's non-whitespace characters in order |
| PyStr.NonSpaceConcat | watcher.py:251 | the non-whitespace characters of a concatenation are those of each part, in order |
| PyStr.WordsOfJoin | watcher.py:281 | splitting the `" "`-join of words gives back those words |
| PyStr.Split | watcher.py:37 | `split(",")` gives at least one piece, and no piece holds a comma |
| PyStr.JoinSplit | watcher.py:37 | joining the pieces of `split(",")` with commas gives back the string |
| PyStr.SplitJoin | watcher.py:37 | splitting a comma-join of comma-free pieces gives back the pieces |
| PyStr.DigitsOf | watcher.py:84 | `str(n)` of a natural is a digit string that denotes `n`, with no leading zero: it starts with `0` only for `0`, which is `"0"` |
| PyStr.IntToString | watcher.py:84 | `str(n)` is non-empty, starts with `-` iff `n` is negative, and the rest is `str(abs(n))` |
| PyStr.ParseIntOfString | watcher.py:62 | `int(str(n)) == n` |
| PyStr.ParseInt | watcher.py:62 | `int()`: optional whitespace, an optional sign and ASCII digits. Its contract is in `PyStr.ParseIntOfString` and `Utils.ClassifyAgreesWithInt` |
| PyStr.ParseFloat | watcher.py:272 | `float()` of plain decimal notation. Its contract is in `PyStr.ParseFloatOfDigits` |
| PyStr.ParseFloatOfDigits | watcher.py:272 | `float()` of a digit string, inside optional whitespace, is the integer it denotes |
| Utils.ExtractInviteHash | watcher.py:47-55 | a hash comes back iff the stripped link contains `joinchat` or `/+`; an empty link gives none; a hash never contains `?` |
| Utils.JoinchatHashShape | watcher.py:51-52 | for a `joinchat` link, the hash is the text after the last `/` up to the first `?` |
| Utils.PlusHashShape | watcher.py:53-54 | for a `/+` link without `joinchat`, the hash is the text after the first `+` up to the first `?` |
| Utils.PlusLinkRoundTrip | watcher.py:53-54 | `https://t.me/+<hash>` followed by any query string gives back `<hash>` |
| Utils.JoinchatLinkRoundTrip | watcher.py:51-52 | `https://t.me/joinchat/<hash>` followed by any query string gives back `<hash>` |
| Utils.LinkChatPart | watcher.py:84-85 | the chat part of a link is all digits; for a `-100` id it is the digits after the prefix, otherwise `abs(id)` |
| Utils.BuildMessageLink | watcher.py:81-86 | no link iff either id is 0; otherwise `https://t.me/c/<chat part>/<message id>` |
| Utils.ChannelLinkRecoversId | watcher.py:85 | the link of a channel's peer id `-(10^12 + c)` names the channel id `c` |
| Utils.PyPrefix | watcher.py:91 | Python's `text[:k]`: a prefix of the text, of length `k` when it fits and `len + k` for negative `k` |
| Utils.SafeSlice | watcher.py:88-91 | empty text stays empty; text within the bound is kept whole; longer text is cut at `max_len - 20` and marked as truncated |
| Utils.SafeSliceBound | watcher.py:88-91 | with a bound of at least 20 the result never exceeds the bound; a cut text keeps its first `max_len - 20` characters |
| Utils.SafeSliceIdempotent | watcher.py:88-91 | slicing a slice again changes nothing |
| Utils.EnsureGroupEntity | watcher.py:78-79 | the entity comes back iff it is a Chat or Channel |
| Utils.GroupTitle | watcher.py:287 | the recorded title is the group's title, or its id when the title is empty; never empty |
| Utils.ClassifyGroupIdentifier | watcher.py:58-64 | an empty identifier is refused; the stripped value is read as a number iff it is digits after its leading `-`s (a `--` number being one `int()` refuses); otherwise it is an invite iff `extract_invite_hash` finds a non-empty hash, which the reading carries; otherwise a name; every non-numeric reading carries the stripped value |
| Utils.ClassifyAgreesWithInt | watcher.py:61-62 | an identifier read as numeric has the value `int()` gives it; one read as a bad number is one `int()` refuses |
| Utils.ClassifyPeerId | watcher.py:61-62 | a listed peer id is read back as that numeric id |
| Utils.ResolveGroupEntity | watcher.py:57-76 | an empty identifier fails with "Empty group identifier."; a bad number fails with `int()`'s message; a number is looked up by id; an invite is joined, or looked up by name when joining finds nothing; a name is looked up by name |
| Utils.ResolvePeerId | watcher.py:61-62 | resolving a listed peer id asks the platform for exactly that id |
| Utils.UserQuery | watcher.py:336 | a user is looked up by id iff the text is all digits, by that id's value; otherwise by the text itself |
| Utils.KeepKeywords | watcher.py:37 | every kept keyword is non-empty, stripped, lower-case and comma-free |
| Utils.KeepKeywordsMembers | watcher.py:37 | a keyword is kept iff some non-blank piece strips and lower-cases to it |
| Utils.ParseKeywords | watcher.py:36-37 | the keywords are exactly the stripped, lower-cased, non-blank comma pieces of the stripped setting |
| Store.Trunc | watcher.py:272 | `int()` of a float truncates toward zero |
| Store.IntOf | watcher.py:110 | `int()` of a saved value: an integer is itself, `True` is 1 and `False` 0, a float is truncated toward zero, a string is read as `int()` reads it; null or a collection is refused |
| Store.Load | watcher.py:107-113 | an unreadable file changes nothing; a chat id already set is kept; a truthy saved `bot_chat_id` is read with `int()` only when no chat id is set, and one `int()` refuses aborts the whole merge; otherwise every saved key but `bot_chat_id` is merged into the state |
| Store.SaveData | watcher.py:114-116 | the file holds every state key with its value, plus `bot_chat_id` when the state lacks it, and nothing else |
| Store.SaveLoadRoundTrip | watcher.py:107-116 | loading a saved file in a fresh process gives back the state and the non-zero chat id |
| Store.EnvChat | watcher.py:103-105 | an empty `BOT_CHAT_ID` gives no chat id; a non-empty one gives exactly what `int()` reads from it |
| Store.EnvChatWins | watcher.py:103-110 | a configured chat id is never replaced by the saved one |
| Store.RestoreInterval | watcher.py:164-165 | a saved integer interval of at least 30 is adopted; anything else keeps the current one |
| Store.Delivery | watcher.py:131-134 | a message goes out iff the chat id is set and non-zero, and then exactly once, to that chat |
| Store.SimpleBot.constructor | watcher.py:95-106 | the chat id comes from the environment, then the saved file is merged in; no offset and nothing sent |
| Store.SimpleBot.LoadState | watcher.py:107-113 | the chat id and state become the merge of the file into them; nothing else changes |
| Store.SimpleBot.SaveState | watcher.py:114-116 | the file now holds the snapshot of the chat id and the state; nothing else changes |
| Store.SimpleBot.SendMessage | watcher.py:131-134 | the message is appended to what was sent iff a chat is registered; nothing else changes |
| Alerts.Started | watcher.py:146-147 | a started alert is active, has sent nothing, and records its reason and start time |
| Alerts.Stopped | watcher.py:148 | a stopped alert is inactive and keeps its count, times and reason |
| Alerts.StopIdempotent | watcher.py:148 | stopping twice is stopping once; stopping an idle alert changes nothing |
| Alerts.AlertState.constructor | watcher.py:144-145 | a new alert is idle, with zero count, times and an empty reason |
| Alerts.AlertState.Start | watcher.py:146-147 | the alert becomes the started alert |
| Alerts.AlertState.Stop | watcher.py:148 | the alert becomes the stopped alert |
| Alerts.AlertState.Sent | watcher.py:381 | the last-sent time becomes `now` and the count goes up by one; nothing else changes |
| Process.NagsIn | watcher.py:380 | the nags counted are never more than the messages sent; `NagsInNone`, `NagsInAll` and `NagsInAppend` pin down which ones are counted |
| Process.NagsInNone | watcher.py:380 | no message is counted iff none of them is a nag |
| Process.NagsInAll | watcher.py:380 | every message is counted iff every one is a nag |
| Process.NagsInAppend | watcher.py:380 | the nags of two runs of messages add up |
| Process.AtMostMaxNags | watcher.py:382-383 | under the invariant with a positive cap, no arming is followed by more nags than the cap |
| Process.SendKeeps | watcher.py:131-134 | sending anything but a nag keeps the invariant |
| Process.ArmKeeps | watcher.py:146-147 | arming keeps the invariant: the count restarts with nothing sent |
| Process.DisarmKeeps | watcher.py:148 | stopping keeps the invariant |
| Process.Inv | watcher.py:373-384 | the invariant every step keeps (stated above). `Process.StartupInv` establishes it and the `Keeps` lemmas preserve it |
| Process.Startup | watcher.py:160-222 | after startup nothing was sent, the alert is idle, the bot holds the loaded chat id and state, and the saved interval is restored |
| Process.StartupInv | watcher.py:160-224 | startup establishes the invariant |
| Paging.PagesFromFlatten | watcher.py:304-308 | the pages, put back together, are the lines in order: none lost, none repeated |
| Paging.PagesFrom | watcher.py:304-308 | the buffer loop as a recursion. Its contract is in `Paging.PagesFromFlatten`, `Paging.PagesFromNonEmpty` and `Paging.PagesFromShape` |
| Paging.PagesFromNonEmpty | watcher.py:304-308 | no page sent is empty |
| Paging.PagesFromShape | watcher.py:305-307 | every page but the last passed the limit, and every page was within it before its last line |
| Paging.PagesSpec | watcher.py:304-308 | the pages of the lines are the lines in order, non-empty, each within 3500 characters before its last line, every one but the last over it; no lines, no pages |
| Paging.OnePage | watcher.py:304-308 | a single short line is a single page |
| Commands.CommandName | watcher.py:251 | the command word is the first word lower-cased, or empty for a blank message |
| Commands.StartCmd | watcher.py:253-256 | `/start`. Its contract is in `Commands.StartRegisters` |
| Commands.IntervalCmd | watcher.py:269-277 | `/interval`. Its contract is in `Commands.IntervalOutcome` |
| Commands.SetGroupCmd | watcher.py:278-294 | `/setgroup`. Its contract is in `Commands.SetGroupOutcome` |
| Commands.UseGroupCmd | watcher.py:313-331 | `/usegroup`. Its contract is in `Commands.UseGroupOutcome` |
| Commands.SetUserCmd | watcher.py:332-343 | `/setuser`. Its contract is in `Commands.SetUserOutcome` |
| Commands.ResetCmd | watcher.py:344-365 | `/reset`. Its contract is in `Commands.ResetOutcome` and `Commands.ResetSteps` |
| Commands.TestCmd | watcher.py:366-369 | `/test`. Its contract is in `Commands.TestArms` |
| Commands.ListGroupsCmd | watcher.py:295-312 | `/listgroups`. Its contract is in `Commands.ListGroupsOutcome` |
| Commands.Run | watcher.py:253-369 | the command dispatch. Its contract is in `Commands.RunFrame` and `Commands.RunKeeps` |
| Commands.Handle | watcher.py:248-251 | one message. Its contract is in `Commands.HandleFrame` and `Commands.HandleKeeps` |
| Commands.BatchStep | watcher.py:246-251 | one batch of updates. Its contract is in `Commands.BatchOffset`, `Commands.BatchKeepsSent` and `Commands.BatchKeeps` |
| Commands.AdoptGroup | watcher.py:287-289 | adopting a group sets its title and peer id and writes exactly `group_link`, `group_title` and `group_peer_id`; nothing else changes |
| Commands.AdoptUser | watcher.py:337-338 | adopting a user sets its id and username and writes exactly `target_id` and `target_username` (the typed name when it has none) |
| Commands.IntervalFromMinutes | watcher.py:272 | the interval is at least 30 seconds, and otherwise the whole seconds of the minutes given |
| Commands.GroupLines | watcher.py:297-301 | there are no more lines than dialogs |
| Commands.GroupLinesMembers | watcher.py:297-301 | a line is listed iff some group dialog gives it |
| Commands.Recognize | watcher.py:253-369 | a word names a command iff it is one of the eleven command words |
| Commands.StartRegisters | watcher.py:253-256 | `/start` makes the message's chat the bot's chat, saves it and greets that chat; nothing else changes |
| Commands.RegisteredChatSurvivesRestart | watcher.py:254 | a chat registered by `/start` is the chat a restart without `BOT_CHAT_ID` talks to |
| Commands.StopOutcome | watcher.py:259-260 | `/stop` leaves the alert idle with its count and reason, and replies; with an idle alert it only replies |
| Commands.IntervalOutcome | watcher.py:269-277 | a parsable number sets, stores and saves an interval of at least 30 seconds and reports it; anything else only replies with the usage |
| Commands.IntervalSurvivesRestart | watcher.py:269-277 | the interval `/interval` sets is the one the next start restores |
| Commands.SetGroupOutcome | watcher.py:278-294 | only a resolved group is adopted, with the joined words as its link, saved and confirmed; anything else is a single reply at most |
| Commands.UseGroupOutcome | watcher.py:313-331 | only a resolved group is adopted, with an empty link, saved and confirmed; anything else is a single reply at most |
| Commands.SetUserOutcome | watcher.py:332-343 | a resolved entity becomes the target, saved and confirmed under its username or the typed name; anything else is a single reply at most |
| Commands.TestArms | watcher.py:366-369 | `/test` arms the alert with a reason naming the time, from the current message count, and replies |
| Commands.SendPagesEffect | watcher.py:307-308 | sending pages sends one message per page, in order, to the chat, and changes nothing else |
| Commands.SendPagesKeeps | watcher.py:307-308 | sending pages keeps the invariant |
| Commands.ListGroupsOutcome | watcher.py:295-312 | `/listgroups` changes nothing but the messages sent: the pages then the hint, or "No groups found.", or the error |
| Commands.ListGroupsSendsEveryGroup | watcher.py:297-308 | every group among the dialogs is on one of the pages sent |
| Commands.ListGroupsKeeps | watcher.py:295-312 | `/listgroups` keeps the invariant |
| Commands.ResetGroupFrame | watcher.py:349-355 | the group step changes only the group and its three keys |
| Commands.ResetUserFrame | watcher.py:356-360 | the user step changes only the target and its two keys |
| Commands.ResetOutcome | watcher.py:344-365 | `/reset` always stops the alert and restores the default interval in memory and under `nag_interval`; it saves and confirms iff every step succeeded, else saves nothing |
| Commands.ResetGroupStepFrame | watcher.py:349-355 | the group step of `/reset` writes only the group and its three keys, and succeeds iff no invite is configured or it resolves to a group |
| Commands.ResetUserStepFrame | watcher.py:356-360 | the user step of `/reset` writes only the target and its two keys, and succeeds iff no target is configured or it resolves |
| Commands.ResetSteps | watcher.py:346-360 | each step of `/reset` writes only its own keys; each succeeds iff its setting is empty or resolves (to a group, for the invite) |
| Commands.ResetKeepsEarlierSteps | watcher.py:349-364 | a group the reset adopted stays adopted in memory even when the user step then fails |
| Commands.ResetStopsAtFailure | watcher.py:349-364 | when the group step fails, the target is untouched and nothing is saved |
| Commands.ResetKeeps | watcher.py:344-365 | `/reset` keeps the invariant |
| Commands.UnknownIgnored | watcher.py:251-369 | a blank message or a word that is not a command changes nothing |
| Commands.RunFrame | watcher.py:253-369 | no command moves the offset or takes back a sent message |
| Commands.RunKeeps | watcher.py:253-369 | every command keeps the invariant |
| Commands.IntervalKeeps | watcher.py:269-277 | `/interval` keeps the invariant |
| Commands.AdoptGroupKeeps | watcher.py:287-290 | adopting, saving and confirming a group keeps the invariant |
| Commands.SetGroupKeeps | watcher.py:278-294 | `/setgroup` keeps the invariant |
| Commands.UseGroupKeeps | watcher.py:313-331 | `/usegroup` keeps the invariant |
| Commands.SetUserKeeps | watcher.py:332-343 | `/setuser` keeps the invariant |
| Commands.HandleFrame | watcher.py:248-251 | no message moves the offset or takes back a sent message |
| Commands.HandleKeeps | watcher.py:248-369 | every message keeps the invariant |
| Commands.UpdateStep | watcher.py:246-251 | an update moves the offset just past its id and never takes back a sent message |
| Commands.BatchOffset | watcher.py:246-247 | after a batch the offset is one past its last update |
| Commands.BatchKeepsSent | watcher.py:246-251 | a batch never takes back a sent message |
| Commands.UpdateKeeps | watcher.py:246-251 | every update keeps the invariant |
| Commands.BatchKeeps | watcher.py:246-251 | every batch of updates keeps the invariant |
| Texts.StatusSaysActive | watcher.py:262-266 | the status report starts with "Status: active" iff the alert is active |
| Texts.StatusGroupLine | watcher.py:263 | the group line names the title and the peer id iff a group is set, else says "unset" |
| Texts.PageTextBound | watcher.py:307 | every page sent is non-empty and at most the header, 3500 characters, a newline and its last line long |
| Texts.HelpListsCommands | watcher.py:231-243 | the help text names every command other than `/help` |
| Texts.Render | watcher.py:253-421 | the text of each message. Its contract is in `Texts.StatusSaysActive`, `Texts.StatusGroupLine`, `Texts.PageTextBound` and `Texts.HelpListsCommands` |
| Triggers.NagQuiet | watcher.py:375-377 | a tick with an idle alert, no chat or no nag due changes nothing |
| Triggers.NagSent | watcher.py:375-383 | a due nag sends exactly one nag naming the target and the group, records the time and counts it; reaching the cap stops the alert and says so; nothing else changes |
| Triggers.NagKeeps | watcher.py:373-384 | the nag tick keeps the invariant |
| Triggers.NagCapStops | watcher.py:382-383 | with a positive cap, the count never passes the cap, and the alert stays active iff it is below it |
| Triggers.NagRunKeeps | watcher.py:373-384 | however many ticks run, the invariant holds and, with a positive cap, no arming is followed by more nags than the cap |
| Triggers.NagTick | watcher.py:375-383 | one pass of the nag loop. Its contract is in `Triggers.NagQuiet`, `Triggers.NagSent` and `Triggers.NagKeeps` |
| Triggers.AnyIn | watcher.py:406 | when no keyword is found, none is contained in the text |
| Triggers.AnyInIff | watcher.py:406 | a keyword is found iff some keyword is contained in the text |
| Triggers.KeywordsFromSetting | watcher.py:36-37 | with the keywords read from the raw setting, the filter passes iff every comma piece is blank or some non-blank piece, stripped and lower-cased, occurs in the lower-cased text |
| Triggers.NoKeywords | watcher.py:37 | a setting whose pieces are all blank yields no keyword |
| Triggers.SomeKeywords | watcher.py:37 | a setting that yields no keyword has only blank pieces |
| Triggers.KeywordFound | watcher.py:404-406 | a parsed keyword found in the text is a non-blank piece of the setting, normalised, found in the text |
| Triggers.KeywordMissed | watcher.py:404-406 | when no parsed keyword is found, no non-blank piece of the setting, normalised, is in the text |
| Triggers.IsFromTarget | watcher.py:392-399 | the sender check. Its contract is in `Triggers.TriggerIff` and `Triggers.UsernameAloneArms` |
| Triggers.Passes | watcher.py:389-406 | the checks of `on_new_message`. Its contract is in `Triggers.TriggerIff` |
| Triggers.Announce | watcher.py:408-421 | arming and the two sends. Its contract is in `Triggers.TriggerIff` |
| Triggers.OnNewMessage | watcher.py:388-421 | `on_new_message`. Its contract is in `Triggers.TriggerIff`, `Triggers.PreviewBounded` and `Triggers.TriggerKeeps` |
| Triggers.TriggerIff | watcher.py:388-421 | a message that qualifies (group and target set, the group's chat, the target by id or username ignoring case, a keyword if any are set) arms the alert; to a registered chat it sends first the preview (target, group, time, the text cut to 3600 characters or "(no text)", the media flag and the message link), then the notice; nothing else changes; any other message changes nothing |
| Triggers.UsernameAloneArms | watcher.py:396-399 | a sender with a different id but the target's username arms the alert |
| Triggers.PreviewBounded | watcher.py:412-415 | the preview a qualifying message sends carries at most 3600 characters of text, and a short non-empty text whole |
| Triggers.TriggerKeeps | watcher.py:388-421 | a new message keeps the invariant |
| Watch.Watcher.constructor | watcher.py:160-224 | the watcher starts as the startup state, with the invariant |
| Watch.Watcher.StartCommand | watcher.py:253-256 | performs `/start` |
| Watch.Watcher.StatusCommand | watcher.py:261-268 | sends the status report and changes nothing else |
| Watch.Watcher.IntervalCommand | watcher.py:269-277 | performs `/interval` |
| Watch.Watcher.AdoptGroupEntity | watcher.py:287-289 | adopts the group and its three keys, unsaved |
| Watch.Watcher.AdoptUserEntity | watcher.py:337-338 | adopts the user and its two keys, unsaved |
| Watch.Watcher.ConfirmGroup | watcher.py:287-290 | adopts the group and its three keys, saves, then confirms with the group's title and peer id |
| Watch.Watcher.ConfirmUser | watcher.py:337-339 | adopts the user and its two keys, saves, then confirms with the user's name and id |
| Watch.Watcher.ApplyGroupOutcome | watcher.py:282-292 | reports the failure, refuses a user, or adopts, saves and confirms the group, as `/setgroup` and `/usegroup` do |
| Watch.Watcher.ApplyUserOutcome | watcher.py:336-341 | reports the failure or adopts, saves and confirms the user, as `/setuser` does |
| Watch.Watcher.ResetGroupStep | watcher.py:349-355 | performs the group step of `/reset`, reporting the error that stops it |
| Watch.Watcher.ResetUserStep | watcher.py:356-360 | performs the user step of `/reset`, reporting the error that stops it |
| Watch.Watcher.SetGroupCommand | watcher.py:278-294 | performs `/setgroup` |
| Watch.Watcher.UseGroupCommand | watcher.py:313-331 | performs `/usegroup` |
| Watch.Watcher.SetUserCommand | watcher.py:332-343 | performs `/setuser` |
| Watch.Watcher.ResetCommand | watcher.py:344-365 | performs `/reset`, step by step, stopping at the first failure |
| Watch.Watcher.TestCommand | watcher.py:366-369 | performs `/test` |
| Watch.Watcher.CollectGroupLines | watcher.py:297-301 | the loop collects exactly the lines of the group dialogs, in order |
| Watch.Watcher.SendGroupPages | watcher.py:304-308 | the buffer loop sends exactly the pages of the lines, in order |
| Watch.Watcher.ListGroupsCommand | watcher.py:295-312 | performs `/listgroups` |
| Watch.Watcher.HandleMessage | watcher.py:248-251 | runs the command the message's first word names, if any |
| Watch.Watcher.RunCommand | watcher.py:253-369 | runs the named command |
| Watch.Watcher.HandleUpdate | watcher.py:246-251 | moves the offset past the update, then handles its message |
| Watch.Watcher.HandleUpdates | watcher.py:246-251 | handles a batch of updates in order, keeping the invariant |
| Watch.Watcher.NagOnce | watcher.py:375-383 | performs one nag tick |
| Watch.Watcher.NagLoop | watcher.py:373-384 | performs a tick at each given time, keeping the invariant |
| Watch.Watcher.AnyKeyword | watcher.py:406 | the loop finds a keyword iff one is in the text |
| Watch.Watcher.Check | watcher.py:389-406 | passes iff the message passes every check of `on_new_message` |
| Watch.Watcher.OnNewMessageEvent | watcher.py:388-421 | handles a new message as `on_new_message` does, keeping the invariant |
| Watch.Watcher.Arm | watcher.py:408-421 | arms the alert and sends the preview and the notice |

The `Watch.Watcher` methods state their new state as the step function of the same command
on the old state (`V() == StartCmd(old(V()), m)` and so on). The `Commands`, `Triggers` and
`Process` lemmas then state what that step does.

## Left out

- The Telegram client (Telethon) and the bot's HTTP calls (aiohttp) are not modelled. Lookups, invite joins and the dialog list are a `Platform` parameter; a send that fails is a message that was sent.
- The three loops run concurrently in the program. The model takes one step at a time (an update batch, a tick or an event), and `asyncio.sleep` is left out.
- Clocks are parameters: the tick's `now`, and the `/test` time text in `Platform.clock`.
- The event's `strftime` date is given as text.
- Floats are rationals, and `float()` accepts plain decimal notation only: no exponents, `inf` or `nan`. For `/interval`, `{minutes:g}` formatting is a function parameter of `Texts.Render`.
- `NAG_MESSAGE_TEMPLATE.format(...)` is a function parameter of `Texts.Render`, because the template is configuration.
- `isspace`, `isdigit` and `lower` are modelled on ASCII and the common whitespace characters only; Unicode digits and case mappings are not modelled.
- The JSON file is a map of values (lists and objects only by their size). A file that cannot be written is not modelled, and saving always succeeds.
- The text of an `int()` error quotes the value between single quotes as it is (`Utils.IntError`); Python's `repr` escaping of quotes and backslashes inside it is not modelled.
- Environment parsing and `SystemExit` on missing credentials are not modelled (watcher.py:16-44); the configured values are a `Config`.
- The startup resolution of the saved or configured group and user (watcher.py:167-222) is not modelled step by step: what it resolves is passed to `Process.Startup`. The state keys and the save it performs at watcher.py:188-191 are not modelled.
- The dialog limits (100 for `/listgroups`, 200 at startup) belong to the platform's list.
- The event's `chat_id` is taken as an integer. The sender's missing username is the empty string, which Python's `or` treats the same way.
- `tester.py` is not part of this model.
- Commands.SetGroupOutcome: the failure branch states that nothing but the messages changed and at most one reply went out. It does not say which error text the reply carries.
- Commands.UseGroupOutcome: the failure branch states that nothing but the messages changed and at most one reply went out. It does not say which error text the reply carries.
- Commands.SetUserOutcome: the failure branch states that nothing but the messages changed and at most one reply went out. It does not say which error text the reply carries.
- Commands.ResetOutcome: on failure it states at most one reply, not the error text.
- Commands.GroupLines: its own contract only bounds the number of lines; which lines appear is `Commands.GroupLinesMembers`.
- PyStr.ParseInt: Python's `int()` also accepts `_` between digits (`int("1_000")`); the model refuses such text.
- PyStr.ParseFloat: Python's `float()` also accepts `_` between digits, exponents, `inf` and `nan`; the model refuses them.
- PyStr.Words: the contract says which characters the words hold, in order, but not where one word ends and the next begins. `PyStr.WordsOfJoin` pins this down for text made of words joined by single spaces.
- PyStr.Strip: its own contract gives the result's ends and length; that the result is the input with its outer whitespace removed is `PyStr.StripShape` and `PyStr.StripBlank`.
