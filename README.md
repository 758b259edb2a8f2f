# VEX EXTENSION bot: the per-guild configuration state machine

`bot-v2.js` is a Discord bot that relays Minecraft anti-cheat alerts. Each guild
it sits in gets a private alert channel and a setup prompt. An administrator
types the Minecraft server's address into a modal, and alerts start flowing
once a status probe finds that server online. The state behind all of this is
`serversConfig`: one record per guild with `alertChannelId`, `setupMessageId`,
`mcServerIp`, `mcServerPort` and `isSetup`.

This project models that state machine and proves what its handlers promise.

## Modules

| Module | File | Contents |
|---|---|---|
| `Wrappers` | `wrappers.dfy` | `Option`, and map lookup as an option. |
| `Discord` | `discord.dfy` | What the bot sees of Discord (see below). |
| `Probe` | `probe.dfy` | `checkMinecraftServer`'s normalisation of the two status queries. |
| `JsText` | `text.dfy` | The JavaScript `trim` and `parseInt` the handlers use, with round-trip lemmas, and `parseInt(x) \|\| 19132`. |
| `ServersConfig` | `config.dfy` | The guild record, `getServerConfig`'s get-or-create as a function on the store, and the store invariant. |
| `Provisioning` | `provisioning.dfy` | `createAlertChannel` on one record. |
| `SetupWorkflow` | `setup.dfy` | `sendSetupForm`, the `check_mc_status` button, the `mc_server_modal` submission and the console `resetsetup`, each on one record. |
| `Recovery` | `recovery.dfy` | `channelDelete` on one record, and as a fold over the stored guilds. |
| `Dispatch` | `dispatch.dfy` | The gate of `sendHackAlert` and `sendActionNotification`, the action styles, and the `alertall` fold. |
| `Console` | `console.dfy` | The console `use <n>`, as written and as intended. |
| `VexBot` | `bot.dfy` | `class Bot`, described below. |

### Discord

Discord is abstracted as a `Platform` value. It gives the guilds the client
knows, in their iteration order, and the channel and message ids that can be
fetched. It also says where a send succeeds.

Two outcomes are parameters of the operation that needs them:

- the id a channel creation returns;
- the id a setup-prompt send returns.

`None` stands for a call that throws. Every call that succeeds and changes
something on Discord is appended to the bot's `effects` log as an `Effect`.

### The Bot class

`class Bot` holds the module-level mutable state:

- `serversConfig` as a map, plus its key order;
- `activeGuildId`;
- the `effects` log.

Each handler is a method on it. Every method is proved against the pure
per-record function for the same handler. Loops appear only where the source
has them:

- `channelDelete` walks `Object.entries(serversConfig)`;
- `alertall` walks `client.guilds.cache`.

### Key order

JavaScript enumerates an object's non-index keys in insertion order. Snowflake
ids are far beyond the array-index range, so the store keeps a key order beside
the records. `ServersConfig.Valid` states that the order lists each stored guild
exactly once and that every record is `Consistent`: a guild is marked set up
only once an address is stored. Every method preserves `Valid`.

## Model

| member | source | states |
|---|---|---|
| Probe.Normalise | bot-v2.js:133-142 | A successful query gives an online result of that edition. A missing or empty version falls back to 'Unknown' and a missing or empty MOTD to 'Sin MOTD'. Missing player counts become 0 and a missing sample becomes empty. Fields that are present are kept. |
| Probe.CheckMinecraftServer | bot-v2.js:130-162 | The result is online exactly when either query answered. Bedrock takes precedence over Java. When both fail, the result is offline with the 'not found' error. It never fails. |
| JsText.Trim | bot-v2.js:533 | The result neither starts nor ends with a space. It is empty exactly when the input is all spaces. |
| JsText.TrimExact | bot-v2.js:533 | Text with spaces around it trims back to exactly that text. |
| JsText.TrimIdempotent | bot-v2.js:533 | Trimming twice is trimming once. |
| JsText.ParseInt | bot-v2.js:534 | Input that is blank after leading spaces parses to NaN. |
| JsText.ParseIntUnsigned | bot-v2.js:534 | A decimal numeral, after any spaces and before any text that ends it, is parsed back to its number. Any non-digit ends it, except that an x after a lone "0" would start a hexadecimal prefix. |
| JsText.ParseIntNegative | bot-v2.js:688 | A minus sign followed by a decimal numeral, before any text that ends it, is parsed back to the negated number. |
| JsText.PortOrDefault | bot-v2.js:534 | The port is never 0. It is the parsed number unless the parse gave NaN or 0; then it is 19132. |
| JsText.PortRoundTrip | bot-v2.js:534 | A typed non-zero port comes back as itself, whatever spaces surround it. A blank field or "0" gives 19132. |
| ServersConfig.Touch | bot-v2.js:98-110 | After getServerConfig, the guild is stored, with the record it had or the default record. |
| ServersConfig.TouchShape | bot-v2.js:99-107 | getServerConfig adds only the guild's key. The key goes at the end of the order, and only when it is new. |
| ServersConfig.TouchLookup | bot-v2.js:98-110 | getServerConfig leaves every stored record as it was. It changes no guild's looked-up record. |
| ServersConfig.TouchValid | bot-v2.js:99-107 | getServerConfig keeps the store valid. |
| ServersConfig.ListedShape | bot-v2.js:99-107 | In a valid store, the order has no repeats and lists exactly the stored guilds, and every record is consistent. |
| ServersConfig.ListedPut | bot-v2.js:194-195 | Overwriting a stored record with a consistent one keeps the store valid. |
| ServersConfig.TouchAllLookup | bot-v2.js:728-730 | The getServerConfig calls of the alertall loop change no guild's looked-up record. |
| ServersConfig.TouchAllKeys | bot-v2.js:728-730 | After the alertall loop, the stored guilds are the previous ones plus the guilds visited. |
| ServersConfig.TouchAllValid | bot-v2.js:728-730 | The alertall loop keeps the store valid. |
| Provisioning.ForgetChannel | bot-v2.js:193-196 | Forgetting a stale channel clears the channel id and the prompt id. The server part of the record is unchanged. |
| Provisioning.Provision | bot-v2.js:186-225 | A channel that can still be fetched is returned: nothing is created and nothing changes. Otherwise the creation outcome is returned and stored. A stale id is cleared with its prompt id, even when creation fails. A new channel has no prompt. The server fields are never touched. |
| Provisioning.ProvisionIdempotent | bot-v2.js:188-192 | Once a channel is provisioned and can be fetched, provisioning again creates nothing and changes nothing. |
| SetupWorkflow.Prompt | bot-v2.js:228-289 | When not forced and the stored prompt can be fetched, that prompt is returned and nothing is sent. Otherwise exactly one prompt is sent. Its check-status button is enabled exactly when an address is stored. The new id is recorded. A failed send leaves no stale id unless forced. Only the prompt id changes. |
| SetupWorkflow.PromptIdempotent | bot-v2.js:231-238 | A second unforced call, with the first prompt still fetchable, returns the same message and sends nothing. |
| SetupWorkflow.CheckStatus | bot-v2.js:491-530 | With no address: rejected, and nothing changes. Offline: nothing changes. Online: the guild is or stays set up. At most one activation notice is sent, and one is sent exactly on the transition into set up, when the alert channel takes it. |
| SetupWorkflow.ActivationOnce | bot-v2.js:500-514 | After an online check, a second check changes nothing and posts nothing. |
| SetupWorkflow.Submit | bot-v2.js:541-545 | The address and port are stored whatever the probe says. The guild is set up exactly when the server is online, even if it was set up before. The channel id and prompt id are untouched. An online submission announces itself when the channel takes it. |
| SetupWorkflow.OfflineThenRecheck | bot-v2.js:576-580 | An address saved while offline is activated by the button once the server answers, with one activation notice. |
| SetupWorkflow.Reset | bot-v2.js:788-795 | resetsetup gives back the default record, with the alert channel kept. |
| SetupWorkflow.ResetRestarts | bot-v2.js:788-795 | After a reset, the button is rejected. The next unforced prompt is sent, with its button disabled. |
| Recovery.Recover | bot-v2.js:590-605 | A guild using another channel is untouched. Otherwise the channel and prompt ids are cleared. A guild the client knows gets a new channel, and then a prompt that is sent although it is not forced. The server part of the record is never touched. |
| Recovery.SweepSameGuilds | bot-v2.js:590 | channelDelete adds and removes no guild. |
| Recovery.SweepPointwise | bot-v2.js:590-596 | Over an order without repeats, each visited guild is recovered from its original record and the others keep theirs. |
| Recovery.SweepRecoversEach | bot-v2.js:589-608 | On a valid store, channelDelete recovers every stored guild from its original record. |
| Recovery.RecoveryCreatesOnePerGuild | bot-v2.js:597-603 | The calls made are at most twice the guilds visited: a creation and a prompt each. A channel is created only for a visited guild the client knows. |
| Recovery.RecoverCreatesFirst | bot-v2.js:591-600 | One guild's recovery creates at most one channel, as its first call, for that guild and only when its record held the deleted channel. |
| Recovery.RecoveryCreatesOnlyForDeleted | bot-v2.js:591-600 | Over the key order, a channel is created only for a guild whose original record held the deleted channel. |
| Recovery.RecoveryCreationsDistinct | bot-v2.js:591-600 | Over the key order, no two channel creations are for the same guild. |
| Recovery.DeletedChannelForgotten | bot-v2.js:591-594 | Unless Discord hands out the deleted id again, no record refers to the deleted channel afterwards. |
| Discord.NoticeTarget | bot-v2.js:511-514 | A notice to the stored alert channel arrives exactly when a channel is stored, can be fetched and can be written. It goes to that channel. A failure is swallowed. |
| Discord.PostedAt | bot-v2.js:559-573 | A send that went through adds exactly one effect to the log: that message posted in the target channel. A send that failed adds nothing. |
| Dispatch.AlertTarget | bot-v2.js:292-303 | An alert is delivered exactly when the guild is set up, has an alert channel, is known to the client, and its channel can be fetched and written. Otherwise the send returns false. |
| Dispatch.ActionStyle | bot-v2.js:341-346 | A known action gets a colour other than grey and an icon other than '📋'; ActionColoursDistinct shows the five differ from each other in both. Anything else gets grey 0x808080 and '📋'. |
| Dispatch.ActionColoursDistinct | bot-v2.js:341-346 | Different known actions get different colours and different icons. |
| Dispatch.ReasonText | bot-v2.js:349 | A missing reason becomes 'Sin razón'. A given reason is kept. |
| Dispatch.DurationField | bot-v2.js:353 | A duration field is added only for a non-empty duration. |
| Dispatch.DeliveredAtMostSetup | bot-v2.js:726-734 | The alertall count equals the number of alerts delivered, and is at most the number of set-up guilds. |
| Console.UseAsWritten | bot-v2.js:686-691 | use as written: a selection is always in range, and it throws exactly when a non-empty argument parses to NaN. |
| Console.UseCommand | bot-v2.js:686-691 | use selects exactly when the argument is a number from 1 to the number of guilds, and then selects that guild. An empty argument gives the usage message. It never throws. |
| Console.UseNaNThrows | bot-v2.js:688-691 | `use abc` throws as written and is rejected as intended. |
| Console.UseAgreesOnNumbers | bot-v2.js:688-691 | On numeric arguments, the code as written and the corrected code agree. |
| Console.Join | bot-v2.js:730 | The reason from a single word is that word. |
| Console.JoinSnoc | bot-v2.js:730 | Each further word of the reason is added after a single space. |
| VexBot.Bot.constructor | bot-v2.js:51-54 | The bot starts with no records, no active guild and nothing sent. |
| VexBot.Bot.GetServerConfig | bot-v2.js:98-110 | Returns the stored record or the default one. The store becomes Touch of the old store. The store stays valid. |
| VexBot.Bot.Save | bot-v2.js:542-544 | Writing a consistent record back to a stored guild replaces exactly that guild's record. The store stays valid. |
| VexBot.Bot.CreateAlertChannel | bot-v2.js:186-225 | Returns Provision's channel and stores Provision's record. It logs a channel creation exactly when one happened. The key order is as after getServerConfig. |
| VexBot.Bot.SendSetupForm | bot-v2.js:228-289 | Returns Prompt's message and stores Prompt's record. It logs the prompt exactly when one was sent. |
| VexBot.Bot.SendHackAlert | bot-v2.js:291-325 | Returns true exactly when AlertTarget has a channel. The alert is logged exactly then, and the store changes only by getServerConfig. |
| VexBot.Bot.SendActionNotification | bot-v2.js:327-361 | The same as SendHackAlert, with the action's colour, icon, reason and duration. |
| VexBot.Bot.CheckMcStatus | bot-v2.js:491-530 | Replies, stores and posts as CheckStatus does on the probe's result for the stored record. |
| VexBot.Bot.SubmitServerModal | bot-v2.js:532-586 | Stores the trimmed address and the port-or-default. It replies and posts as Submit does on the probe's result. |
| VexBot.Bot.StoreServer | bot-v2.js:538-581 | Stores, replies and posts as Submit does. |
| VexBot.Bot.RecoverOne | bot-v2.js:591-605 | One guild of the channelDelete loop: the store and log change exactly as Recover says. The key order is kept. |
| VexBot.Bot.RecoverAt | bot-v2.js:591-605 | The i-th guild of the channelDelete loop advances the store and log from the sweep of the first i guilds to the sweep of the first i + 1. |
| VexBot.Bot.ChannelDelete | bot-v2.js:589-608 | The store and log afterwards are the SweepKeys fold over the key order, which recovers each guild in turn from its current record. Each guild's record is Recover of its original record. The keys and order are unchanged. The store stays valid. |
| VexBot.Bot.ResetSetup | bot-v2.js:788-797 | With no active guild: nothing changes. Otherwise the active guild's record becomes Reset of it. |
| VexBot.Bot.AlertGuild | bot-v2.js:729-732 | One guild of the alertall loop advances the store, count and log to the fold at the next index. |
| VexBot.Bot.Broadcast | bot-v2.js:727-733 | The count is the number of alerts delivered over the client's guilds. The store is TouchAll over them. The log gains exactly those alerts. |
| VexBot.Bot.AlertAll | bot-v2.js:726-734 | With fewer than two arguments: nothing changes. Otherwise it is Broadcast with the first word as the player and the rest, space-joined, as the reason. The count is at most the number of set-up guilds. |
| VexBot.Bot.Use | bot-v2.js:686-696 | The result is UseCommand's. A selection sets the active guild and touches its record. Anything else changes nothing. |

## Left out

- Persistence: `loadConfig`, `saveConfig`, `loadServersConfig` and `saveServersConfig` (bot-v2.js:58-96) are JSON file I/O. The model holds only the in-memory state and starts empty. Every `saveServersConfig()` call is left out with them.
- The keep-alive HTTP server, the client's construction, token checks, login and its timeout (bot-v2.js:32-38, 118-124, 829-865): network plumbing.
- The `ready` handler (bot-v2.js:367-418): slash-command registration through REST, the start-up provisioning loop, and the first choice of the active guild. These are not part of this model.
- The `guildCreate` handler (bot-v2.js:610-614) and the `/setup` slash command (bot-v2.js:423-456): they only chain `createAlertChannel` and `sendSetupForm`, which are modelled. The administrator checks (bot-v2.js:421, 425, 460) are Discord permissions and are not part of this model.
- The `setup_mc_server` button (bot-v2.js:459-489): it only opens the modal. Its one state effect is the `getServerConfig` call at bot-v2.js:464, which creates a default record for the guild pressing it. That effect is `VexBot.Bot.GetServerConfig`; the handler itself is not part of this model.
- The console's other commands (`help`, `status`, `servers`, `mc`, `mcstatus`, `alert`, `ban`…`mute`, `setup`, `exit`) and its readline mechanics. What they do to the configuration or to Discord goes through modelled operations: `alert` calls `sendHackAlert` (bot-v2.js:723) and `ban`…`mute` call `sendActionNotification`. Their own text output is not part of this model.
- The console `setup` (bot-v2.js:773-789): for the active guild it re-sends the prompt with force (`sendSetupForm` at bot-v2.js:779) when a channel is stored. Otherwise it creates one (`createAlertChannel` at bot-v2.js:783) and sends a forced prompt there (bot-v2.js:784). Unlike `createAlertChannel`, when the stored channel cannot be fetched it only logs "Canal no encontrado" (bot-v2.js:781) and clears neither id. The command chains `VexBot.Bot.CreateAlertChannel` and `VexBot.Bot.SendSetupForm`, but is not a member of its own.
- The `getServerConfig` calls in those console commands: `servers` (bot-v2.js:676) calls it for every guild the client knows; `mc` (bot-v2.js:700), `mcstatus` without an address (bot-v2.js:710), `alert` through `verifyActiveServer` (bot-v2.js:169), `ban`…`mute` (bot-v2.js:739-767) and `setup` (bot-v2.js:775) call it for the active guild. Each one creates a default record for a guild not yet stored. That effect is `VexBot.Bot.GetServerConfig` (and `ServersConfig.TouchAll` for a loop over guilds), but the commands themselves are not part of this model.
- Failed interaction acknowledgements: `interaction.deferReply` (bot-v2.js:497, 536) and `interaction.editReply` (bot-v2.js:526, 528, 557) are awaited outside any try, and the model assumes they succeed. If `deferReply` rejects (an expired interaction, for example), the handler stops before the probe: check_mc_status has done nothing but its `getServerConfig` at bot-v2.js:492, and mc_server_modal does not even reach `getServerConfig` at bot-v2.js:539. If the `editReply` at bot-v2.js:557 rejects, the address has already been saved (bot-v2.js:542-545), but the notice to the alert channel (bot-v2.js:559-573) is never sent. `VexBot.Bot.CheckMcStatus`, `VexBot.Bot.SubmitServerModal` and `VexBot.Bot.StoreServer` do not capture these paths. The editReply calls at bot-v2.js:526 and 528 come last in their handler, so their failure leaves nothing unmodelled.
- Embed texts, titles, timestamps and button builders: presentation. Messages are kept as their kind plus the data the handlers put in them. The setup prompt's button-enabled flag is kept.
- The status-query library and its timeouts (bot-v2.js:132, 146): the two answers are inputs, and `None` stands for a query that threw.
- Interleaving of concurrent async handlers: every handler runs to completion before the next starts.
- VexBot.Bot.SendHackAlert: the `extra` argument (action and details fields of the embed) is not modelled, because it only adds presentation fields.
- JsText.ParseInt: numbers are exact. JavaScript's loss of precision above 2^53 and the `Infinity` result of overly long numerals are not modelled.
- Dispatch.ActionStyle: an action named after an `Object.prototype` property (such as `constructor`) would pick up that property as its colour in JavaScript. The model treats it as unknown.
- Discord.Snowflake: ids are unsigned 64-bit numbers rather than their decimal strings. The bot only stores ids, compares them and tests whether they are present.

## Findings

| source | as written | input that shows it | evidently intended | confidence | as-written member | corrected member |
|---|---|---|---|---|---|---|
| bot-v2.js:686-691 | `use <n>` rejects with `num < 1 \|\| num > arr.length`. A NaN from `parseInt` passes, because both comparisons are false. Then `arr[NaN - 1][0]` throws a TypeError inside the async readline callback, so `prompt()` is never reached and the console stops reading commands. | `use abc` | A non-numeric argument is rejected as an invalid number. | not executed | Console.UseAsWritten (shown by Console.UseNaNThrows) | Console.UseCommand (used by VexBot.Bot.Use) |
