# random_chat bot: channel admission and help re-announcer

This project models the decision logic of a Discord bot that hands out seats in voice
channels to conference attendees (`bot.py`). The Discord connection is left out. Each
request is modelled on snapshots: the guild's `(category, channels)` list, each voice
channel with its current members, the requester, and the configuration flags.

- **Gate** (`Admission.AreWeAllowedToChat`). A command is accepted when no command
  channel is configured, or when it was sent in that channel. `Cog.ChatCog.InvokePlay`
  runs the gate before `$play`.
- **Category lookup** (`Cog.ChatCog.GetVoiceChannels`, specified by
  `Admission.CategoryIndex`). This is a first-match search for the configured category
  name. It records the category it finds in `voiceCat`. Entries without a category are
  skipped, which corrects the code as written (see "## Findings").
- **Admission** (`Cog.ChatCog.Play`, specified by `Admission.Admit` and
  `Admission.CacheAfter`). The channels are scanned in order.
  - The scan stops at the first channel that already holds the requester.
  - Otherwise the invite goes to the first channel with fewer members than the global
    participant limit.
  - Otherwise, if creation is enabled, a channel is created, appended to the cached list
    `voiceChs`, and the invite goes to it.
  - Otherwise the request is refused.
  - Creation goes through the parameter `provision`. It receives the found category and
    the participant limit, and answers None when the platform call raises.
- **Announcer** (`Cog.ChatCog.ResendHelpStep` and `Cog.ChatCog.ResendHelp`, specified by
  `Announcer.Step` and `Announcer.Run`). Each tick counts the channel messages newer than
  the watermark (the last help message sent). When the count reaches `helpMsgEvery`, the
  help text is sent and the sent message becomes the new watermark. The method returns
  the sleep delay, which is the same value `helpMsgEvery`.

The configuration values are read from the environment at the top of `bot.py`. In the
model they are parameters (`numParticipants`, `canCreateChannels`) or constructor
arguments. The defaults are kept as constants: 5 participants and a 600 help delay.

Behaviour of the code worth knowing:

- One global participant limit applies to every channel; a channel's own user limit is
  not consulted.
- A disabled creation and a failed creation give the same "All channels are full" reply
  (`AllChannelsFull`).
- The announcer uses one value for both the threshold and the sleep interval.
- The announcer loop catches no failures.
- `Play` caches the scanned list in `voiceChs`. That cache never influences a later
  reply: `Play`'s contract gives the reply purely from the request and the guild
  snapshot.

## Model

| member | source | states |
|---|---|---|
| Admission.GateOpenWithoutChannel | bot.py:23-25 | with no configured channel, every command context passes the gate |
| Admission.GateOnlyConfiguredChannel | bot.py:23-25 | with a configured channel id, a context passes exactly when its channel has that id |
| Admission.CategoryIndex | bot.py:55-60 | the result is the first entry whose category has the configured name (all earlier entries do not match); None exactly when no entry matches |
| Admission.CategoryIndexAsWritten | bot.py:55-57 | the loop as written, reading `cat.name` on every entry: when it finds or misses, it agrees with `CategoryIndex`; it raises only if some entry has no category |
| Admission.AsWrittenAgreesWhenAllCategorised | bot.py:55-60 | when every entry has a category, the loop as written gives the corrected lookup's answer |
| Admission.RaisesIfUncategorisedFirst | bot.py:55-56 | any entry without a category that comes before every entry with the configured name makes the loop as written raise |
| Admission.UncategorisedChannelBreaksLookup | bot.py:55-56 | a guild whose uncategorised channels are listed before the voice category makes the loop as written raise, while the category exists |
| Admission.FirstIndex | bot.py:103-107 | the first position in list order satisfying the test: all earlier ones fail it; None exactly when none satisfies it |
| Admission.ConfigErrorWithoutCategory | bot.py:94-100 | a missing category gives the configuration-error reply for any requester and flags, and leaves the cache None |
| Admission.AlreadyChattingNamesFirstChannel | bot.py:103-112 | a requester in some channel gets "already chatting" naming the first such channel, even if that or an earlier channel has a free slot; the cache is not extended |
| Admission.InviteToFirstFreeChannel | bot.py:102-126 | a requester in no channel is invited to the first channel with fewer members than the limit, never a later one; the cache is not extended |
| Admission.InviteToCreatedChannel | bot.py:114-124 | all channels full, creation enabled and successful: the invite is for the new channel and the cache is the old list with exactly it appended |
| Admission.RefusedWhenFull | bot.py:114-129 | all channels full, creation disabled or failing: the "all channels are full" reply, and the cache is the scanned list unchanged |
| Admission.InviteOnlyFirstFreeOrCreated | bot.py:102-131 | an invite goes only to a requester who is in no channel, and names the first channel with a free slot or, when none has one, the channel just created |
| Admission.CacheOnlyAppendsCreated | bot.py:94-124 | the cache after a request is the scanned list, or that list with exactly the created channel appended, and the latter only when the reply invites to that channel |
| Admission.ScenarioSecondChannelHasRoom | bot.py:102-126 | with the default limit 5, a full first channel and a second with three members, an absent requester is invited to the second even with creation disabled |
| Admission.ScenarioAlreadyInFullChannel | bot.py:103-112 | a requester already in a full channel is told so rather than refused |
| Announcer.After | bot.py:140 | the messages after the watermark are exactly the log's messages with a larger id than the watermark (the whole log when there is none), never more than the log |
| Announcer.AfterKeepsNewerEntries | bot.py:140 | the query keeps each newer message as often as the log holds it and drops every other, so the count compared against the threshold is the number of newer entries |
| Announcer.AfterIsSuffix | bot.py:140 | in a log with strictly increasing ids, the messages after the watermark form a suffix of the log |
| Announcer.StepMovesOnlyByAnnouncing | bot.py:140-142 | when at least `every` messages are new, the step moves the watermark to the help message just sent; when fewer are, the watermark is unchanged |
| Announcer.AnnouncingResetsCount | bot.py:140-142 | after an announcement no message of the log is newer than the new watermark, given the sent message's id is above the log's |
| Announcer.RunOneMore | bot.py:139-143 | running the loop over one more tick is one more step from the watermark reached so far |
| Announcer.QuietTicksKeepWatermark | bot.py:139-143 | while no tick sees `every` new messages, the watermark never moves |
| Announcer.FirstAnnouncement | bot.py:139-143 | the first announcement happens on the first tick that sees at least `every` new messages, and moves the watermark to that tick's help message |
| Announcer.AsWrittenNeverAnnouncesAboveLimit | bot.py:140-141 | as written, with `history()` capped at 100 messages, a threshold above 100 is never reached |
| Announcer.DefaultDelayNeverAnnounces | bot.py:140-141 | with the default 600 and 600 messages in the channel, the corrected step announces and the step as written does not |
| Cog.ChatCog.constructor | bot.py:29-44 | the configuration is stored; no category, an empty channel list and no watermark to start |
| Cog.ChatCog.GetVoiceChannels | bot.py:46-60 | returns the channels of the first category with the configured name and records that category; returns None and leaves the recorded category alone when none matches |
| Cog.ChatCog.Play | bot.py:81-133 | the reply is `Admit` (config error, already chatting, invite, all full), and the cache and category are those of `CacheAfter` and the lookup; creation is requested in the found category with the global limit |
| Cog.ChatCog.InvokePlay | bot.py:148 | a command is answered exactly when the gate, with its own channel id, accepts its context; a rejected one changes nothing, and an accepted one behaves as `Play` |
| Cog.ChatCog.ResendHelpStep | bot.py:140-143 | announces exactly when the count since the watermark reaches `helpMsgEvery`, and the new watermark is `Step` of the old one; sleeps for that same `helpMsgEvery` |
| Cog.ChatCog.ResendHelp | bot.py:135-143 | after a finite run of ticks, the watermark is `Run` of the old one |

## Left out

- Discord I/O is not modelled as calls: direct messages, invite creation, channel
  creation, message history and sending, `get_channel`, `change_presence` and `on_ready`.
  These are foreign network calls. Replies become `Reply` values. Creation is the
  `provision` parameter. A history query is a tick's log, and a sent message's id is the
  tick's `sentId`.
- `wait_until_ready`, `asyncio.sleep` and the unbounded `while True` are timing and
  concurrency. The model runs a single step, or a finite sequence of ticks, and returns
  the delay instead of sleeping.
- The race between two concurrent `$play` requests for the last free slot comes from the
  async runtime, not from the sequential logic.
- Environment loading and bootstrap (bot.py:9-15, 146-154) are configuration I/O.
  Line 13 raises on `int(None)` when CHAT_CHANNEL_ID is unset, so the module constant
  `CHANNEL_ID` is always an int. The bot check registered at line 148 uses that constant
  as its default `channel_id`, so the gate's "no channel configured" case is reachable
  only by calling the function with `channel_id=None` explicitly.
- The `uuid1()` channel name is an opaque fresh value, chosen inside `provision`.
- The console `print` diagnostics and the exact reply texts are left out.
- The unused fields `_waiting` and `_chatting`, and the `bot` handle, are never read by
  the modelled code.
- Members are compared by id, as discord.py compares them. The scan of `$play` reads each channel's member list from the request's snapshot, so a
  change made during the scan is not modelled.

- Cog.ChatCog.InvokePlay: the gate's channel id is a parameter of its own, standing for
  the module constant `CHANNEL_ID` that the check at bot.py:148 uses by default. It is
  not the cog's `channelId` field, although bootstrap passes the same value to the cog
  at bot.py:150.
- Cog.ChatCog.GetVoiceChannels: follows the corrected lookup of the first Findings row
  (`Admission.CategoryIndex`) and skips entries without a category. On such a guild the
  code as written raises at bot.py:56 (`Admission.CategoryIndexAsWritten`).
- Cog.ChatCog.Play: uses the corrected lookup through `GetVoiceChannels`. On a guild with
  an uncategorised channel it replies, where the code as written raises at bot.py:56
  before sending anything (`Admission.CategoryIndexAsWritten`).
- Cog.ChatCog.ResendHelpStep: follows the corrected step of the second Findings row
  (`Announcer.Step`) and counts every message since the watermark. The code as written
  sees at most 100 (`Announcer.StepAsWritten`), so with `helpMsgEvery` above 100 it never
  announces.
- Cog.ChatCog.ResendHelp: repeats the corrected step, so the same gap as for
  `ResendHelpStep` applies to it: as written (`Announcer.StepAsWritten`) no tick announces
  once `helpMsgEvery` is above 100.

## Findings

| source | as written | input that shows it | evidently intended | confidence | as-written member | corrected member |
|---|---|---|---|---|---|---|
| bot.py:55-56 | `cat.name` is read on every entry of `guild.by_category()`. discord.py yields channels without a category under `None`, sorted first, so the read raises AttributeError and `$play` fails. | a guild with an uncategorised text channel, plus the configured category | skip entries without a category and find the configured category (the docstring promises its channels when it exists) | medium; depends on discord.py's documented `by_category`; not executed | Admission.CategoryIndexAsWritten | Admission.CategoryIndex |
| bot.py:140-141 | `ch.history(after=...)` keeps discord.py's default limit of 100. So `len(messages)` is at most 100, and the threshold `help_msg_every` (default 600) is never reached. | default CHAT_HELP_DELAY 600, with 600 messages posted since the last help message | count every message since the watermark | medium; depends on discord.py's default `limit=100`; not executed | Announcer.StepAsWritten | Announcer.Step |
