# Guild configuration facade: recording consumption, webhook deletion and call order

This project models the decision logic of `GuildService`, the backend service behind
the Ree6 bot's dashboard. Most public methods of the service first authorize the
caller's session against one guild, then call the persistence layer or the chat
platform (JDA). There are two exceptions. `getRecording` authorizes the session and
lists the guilds it can access. `removeRedditNotifier` does not authorize at all.
Three pieces are modelled:

- **Recording retrieve-and-consume** (`getRecording`). The caller must be able to
  access the recording's guild, compared ignoring case. The caller's user id must
  appear, ignoring case, as a string element of the recording's JSON participant
  array. When both hold, the recording is deleted and handed back. Otherwise one
  of two distinct access failures is raised. The recording table is a class
  `Recordings.RecordingTable` whose `rows` map the method updates. The participant
  scan is a loop with a `found` flag and a `break`.
- **Webhook selection for deletion** (`deleteLogChannel`, `deleteWelcomeChannel`).
  Two filters run over the platform's webhook list. The first keeps entries with a
  token. The second keeps entries whose id and token both match the stored record,
  ignoring case. With no stored record, nothing is selected. The module also holds
  the channel view that `getLogChannel`/`getWelcomeChannel` return and the webhook
  lookup of `getRedditNotifier`.
- **Call order** (`EffectOrder`). Each public operation is a trace of abstract steps:
  authorize, resolve channel, create webhook, list, request deletion, read, persist,
  remove. Lemmas state which calls each operation issues and in what order.

`equalsIgnoreCase` is modelled by `CaseFold` with ASCII case folding.

Three behaviours of the code that a caller would not expect; the model follows the code:

- A missing recording is not reported as access-denied. `getEntity` is taken to return null
  for an unknown id.
  The guild check then dereferences it on the first accessible guild it tests,
  which throws a NullPointerException (`RecordingMissing`). With no accessible
  guilds, `anyMatch` tests nothing, and the "not part of the Guild" failure is
  raised instead.
- `removeLogChannel` deletes the welcome webhook, not the log webhook.
- `removeRedditNotifier` performs no authorization at all.

## Model

| member | source | states |
|---|---|---|
| CaseFold.EqualsIgnoreCase | Backend/src/main/java/de/presti/ree6/backend/service/GuildService.java:88 | `equalsIgnoreCase`: equal strings compare equal, strings of different lengths never do |
| CaseFold.Lower | Backend/src/main/java/de/presti/ree6/backend/service/GuildService.java:216 | folding changes exactly the upper-case ASCII letters, never yields one, and maps letters to lower-case letters |
| CaseFold.Fold | Backend/src/main/java/de/presti/ree6/backend/service/GuildService.java:210 | the folded string keeps the length and holds no upper-case letter |
| CaseFold.EqualsIgnoreCaseIffSameFold | Backend/src/main/java/de/presti/ree6/backend/service/GuildService.java:216 | two ids are equal ignoring case exactly when their folded forms are equal |
| CaseFold.EqualsIgnoreCaseSymmetric | Backend/src/main/java/de/presti/ree6/backend/service/GuildService.java:210 | the ignoring-case comparison is symmetric |
| CaseFold.EqualsIgnoreCaseTransitive | Backend/src/main/java/de/presti/ree6/backend/service/GuildService.java:210 | the ignoring-case comparison is transitive |
| Recordings.GuildMatches | Backend/src/main/java/de/presti/ree6/backend/service/GuildService.java:210 | the guild check holds exactly when some accessible guild id equals the recording's guild id ignoring case |
| Recordings.Decide | Backend/src/main/java/de/presti/ree6/backend/service/GuildService.java:208-231 | a success hands back exactly the fetched row; the null-dereference outcome occurs only for a missing row with some accessible guild |
| Recordings.ScanParticipants | Backend/src/main/java/de/presti/ree6/backend/service/GuildService.java:211-221 | the loop sets `found` exactly when some string primitive of the array equals the user id ignoring case |
| Recordings.RecordingTable.GetRecording | Backend/src/main/java/de/presti/ree6/backend/service/GuildService.java:204-232 | the outcome is the decision on the fetched row; the row is deleted exactly on success and the table is unchanged on every failure |
| Recordings.OkIffGuildAndParticipantMatch | Backend/src/main/java/de/presti/ree6/backend/service/GuildService.java:210-225 | a call returns normally iff the row exists, a guild matches and a string participant matches; it returns that same recording |
| Recordings.GuildCheckedBeforeParticipants | Backend/src/main/java/de/presti/ree6/backend/service/GuildService.java:210-231 | without a matching guild the outcome is the guild failure whatever the participant array holds |
| Recordings.NotInRecordingIff | Backend/src/main/java/de/presti/ree6/backend/service/GuildService.java:223-227 | the "not part of this recording" failure happens exactly when the guild matches and no participant does |
| Recordings.StringsOnly | Backend/src/main/java/de/presti/ree6/backend/service/GuildService.java:214-215 | keeps only string primitives of the array |
| Recordings.NonStringsNeverCount | Backend/src/main/java/de/presti/ree6/backend/service/GuildService.java:213-216 | non-primitives and non-string primitives never make the user a participant |
| Recordings.NonStringsNeverChangeDecision | Backend/src/main/java/de/presti/ree6/backend/service/GuildService.java:213-221 | dropping every non-string element never changes which outcome a call gets |
| Recordings.UserIdCaseInsensitive | Backend/src/main/java/de/presti/ree6/backend/service/GuildService.java:216 | user ids that differ only in case get the same outcome |
| Recordings.MissingRecordingNeverOk | Backend/src/main/java/de/presti/ree6/backend/service/GuildService.java:208-210 | a call for an id with no row never succeeds, so the table is left unchanged; it is the guild failure exactly when no guild is accessible |
| Recordings.ConsumedRecordIsGone | Backend/src/main/java/de/presti/ree6/backend/service/GuildService.java:223-225 | for any table, once an id is removed its row is gone and no later call for the id, by any user, succeeds |
| Recordings.RetrieveTwice | Backend/src/main/java/de/presti/ree6/backend/service/GuildService.java:223-227 | two calls in a row: after a successful first call the row is deleted and the second call no longer finds it; a failed first call leaves the table as it was; the second never succeeds |
| Webhooks.WithToken | Backend/src/main/java/de/presti/ree6/backend/service/GuildService.java:87 | keeps exactly the listed webhooks that have a token |
| Webhooks.SameIdAndToken | Backend/src/main/java/de/presti/ree6/backend/service/GuildService.java:88 | on tokened entries, keeps exactly those whose id and token equal the record's ignoring case |
| Webhooks.SelectForDeletion | Backend/src/main/java/de/presti/ree6/backend/service/GuildService.java:83-91 | selects nothing without a record; otherwise selects exactly the listed webhooks with a token whose id and token equal the record's ignoring case |
| Webhooks.Keep | Backend/src/main/java/de/presti/ree6/backend/service/GuildService.java:87-88 | reference single filter: everything kept is listed and matches the record |
| Webhooks.TwoStagesAreOneFilter | Backend/src/main/java/de/presti/ree6/backend/service/GuildService.java:87-89 | the two chained filters equal one filter on the combined condition |
| Webhooks.KeepIsSubsequence | Backend/src/main/java/de/presti/ree6/backend/service/GuildService.java:87-89 | the single filter's result is a subsequence of the list |
| Webhooks.SelectionIsSubsequence | Backend/src/main/java/de/presti/ree6/backend/service/GuildService.java:127-129 | the webhooks selected for deletion are a subsequence of the retrieved list, order kept |
| Webhooks.TokenlessNeverSelected | Backend/src/main/java/de/presti/ree6/backend/service/GuildService.java:127 | a platform webhook without a token is never deleted |
| Webhooks.DeleteLogChannel | Backend/src/main/java/de/presti/ree6/backend/service/GuildService.java:83-91 | selects exactly the listed webhooks matching the log record, none without one |
| Webhooks.DeleteWelcomeChannel | Backend/src/main/java/de/presti/ree6/backend/service/GuildService.java:123-131 | selects exactly the listed webhooks matching the welcome record, none without one |
| Webhooks.RemoveWelcomeChannel | Backend/src/main/java/de/presti/ree6/backend/service/GuildService.java:119-131 | deletes exactly the listed webhooks matching the welcome record, none without one |
| Webhooks.RemoveLogChannel | Backend/src/main/java/de/presti/ree6/backend/service/GuildService.java:79-91 | as intended: deletes exactly the listed webhooks matching the log record |
| Webhooks.RemoveLogChannelAsWritten | Backend/src/main/java/de/presti/ree6/backend/service/GuildService.java:79-81 | as written: selects exactly the listed webhooks matching the welcome record |
| Webhooks.RemoveLogChannelIgnoresLogRecord | Backend/src/main/java/de/presti/ree6/backend/service/GuildService.java:79-81 | as written, the selection is the same whatever the log record is |
| Webhooks.RemoveLogChannelKeepsLogWebhook | Backend/src/main/java/de/presti/ree6/backend/service/GuildService.java:80 | a log record with no welcome record: as written nothing is deleted, as intended the log webhook is |
| Webhooks.ChannelView | Backend/src/main/java/de/presti/ree6/backend/service/GuildService.java:57-64 | the empty container exactly when no record is stored; otherwise the stored channel id's entry in the channel table, if present |
| Webhooks.GetLogChannel | Backend/src/main/java/de/presti/ree6/backend/service/GuildService.java:57-64 | empty exactly when no log record is stored; otherwise the channel-table entry under the record's channel id, when present |
| Webhooks.GetWelcomeChannel | Backend/src/main/java/de/presti/ree6/backend/service/GuildService.java:97-104 | empty exactly when no welcome record is stored; otherwise the channel-table entry under the record's channel id, when present |
| Webhooks.FirstWithId | Backend/src/main/java/de/presti/ree6/backend/service/GuildService.java:142 | the first listed webhook whose id equals the given one case-sensitively, and none exactly when no id is equal |
| Webhooks.ListNotifiersAsWritten | Backend/src/main/java/de/presti/ree6/backend/service/GuildService.java:137-143 | as written: one notifier per record with its name and message; a webhook is found exactly when one whose id equals the record's guild id is listed |
| Webhooks.ListNotifiers | Backend/src/main/java/de/presti/ree6/backend/service/GuildService.java:137-143 | as intended: one notifier per record with its name and message; a webhook is found exactly when one with the record's webhook id is listed |
| Webhooks.NotifierLookupByGuildIdMisses | Backend/src/main/java/de/presti/ree6/backend/service/GuildService.java:141-142 | a notifier whose webhook is listed: as written it shows no channel, as intended it shows that webhook |
| EffectOrder.TraceAsWritten | Backend/src/main/java/de/presti/ree6/backend/service/GuildService.java:37-232 | every operation but removeRedditNotifier authorizes first, and no operation authorizes after its first step |
| EffectOrder.Trace | Backend/src/main/java/de/presti/ree6/backend/service/GuildService.java:79-158 | as intended: every operation authorizes first; only removeLogChannel and removeRedditNotifier differ from the code |
| EffectOrder.UpdateLogCreatesBeforeDeleting | Backend/src/main/java/de/presti/ree6/backend/service/GuildService.java:66-77 | updateLogChannel issues the blocking webhook creation before it requests deletion of the old webhook, and issues the persist call last |
| EffectOrder.UpdateWelcomeDeletesBeforeCreating | Backend/src/main/java/de/presti/ree6/backend/service/GuildService.java:106-117 | updateWelcomeChannel requests deletion of the old webhook before it issues the webhook creation, and issues the persist call last |
| EffectOrder.UpdateWithoutRecordDeletesNothing | Backend/src/main/java/de/presti/ree6/backend/service/GuildService.java:66-131 | an update whose own record is absent neither lists nor deletes platform webhooks, whatever the other record is |
| EffectOrder.RemoveLogChannelNeverTouchesLogHook | Backend/src/main/java/de/presti/ree6/backend/service/GuildService.java:79-81 | removeLogChannel as written never reads or deletes the log webhook, and deletes the welcome one when stored |
| EffectOrder.IntendedRemoveLogChannelDeletesLogHook | Backend/src/main/java/de/presti/ree6/backend/service/GuildService.java:83-91 | as intended, removeLogChannel deletes the log webhook when stored and touches nothing of the welcome one |
| EffectOrder.RemoveRedditNotifierSkipsAuthorization | Backend/src/main/java/de/presti/ree6/backend/service/GuildService.java:156-158 | removeRedditNotifier removes the record with no authorization step |
| EffectOrder.OtherOperationsAuthorizeFirst | Backend/src/main/java/de/presti/ree6/backend/service/GuildService.java:37-206 | every other operation authorizes before anything else |
| EffectOrder.EveryOperationAuthorizesFirst | Backend/src/main/java/de/presti/ree6/backend/service/GuildService.java:155-158 | as intended, every operation authorizes first and only once |
| EffectOrder.RemoveRedditNotifierOrphansPlatformWebhook | Backend/src/main/java/de/presti/ree6/backend/service/GuildService.java:145-158 | removing a notifier never deletes the platform webhook that adding it created |
| EffectOrder.QueriesMutateNothing | Backend/src/main/java/de/presti/ree6/backend/service/GuildService.java:37-188 | the getters create, delete, persist and remove nothing |
| EffectOrder.RecordingRemovedOnlyOnSuccess | Backend/src/main/java/de/presti/ree6/backend/service/GuildService.java:204-225 | getRecording deletes the row exactly when it succeeds, as its last step |

## Findings

| source | as written | input that shows it | evidently intended | confidence | as-written member | corrected member |
|---|---|---|---|---|---|---|
| Backend/src/main/java/de/presti/ree6/backend/service/GuildService.java:79-81 | `removeLogChannel` hands the guild to `deleteWelcomeChannel` | log record (guild 42, webhook 900, token secret), no welcome record, platform list holding webhook 900 with token secret: nothing is deleted | delete the log webhook through `deleteLogChannel` | not executed; high | Webhooks.RemoveLogChannelKeepsLogWebhook | Webhooks.RemoveLogChannel |
| Backend/src/main/java/de/presti/ree6/backend/service/GuildService.java:156-158 | `removeRedditNotifier` ignores its session argument and never calls the session authority | any session, including one with no access to guild 42, removing a subreddit notifier of guild 42: the record is removed | authorize against the guild first, like every other operation | not executed; medium | EffectOrder.RemoveRedditNotifierSkipsAuthorization | EffectOrder.EveryOperationAuthorizesFirst |
| Backend/src/main/java/de/presti/ree6/backend/service/GuildService.java:141-142 | each notifier's platform webhook is looked up by comparing webhook ids with the record's guild id | record (guild 42, subreddit dafny, webhook 900), platform list holding webhook 900: the notifier shows no channel | compare with the id of the webhook stored in the record | not executed; medium | Webhooks.NotifierLookupByGuildIdMisses | Webhooks.ListNotifiers |

## Left out

- Session authority (`retrieveSession`, `retrieveGuild`, `retrieveGuilds`): its code is not part of this model. The accessible guild ids and the user id are inputs, and an authorization is one trace step.
- Persistence layer lookups: `getEntity`, `getLogWebhook` and `getWelcomeWebhook` are taken to return null when no row exists. The SQL worker is not part of this model.
- Persistence layer calls (`getInvites`, `updateEntity`, `add/remove*LevelReward`, `getAllRedditWebhooks`, `removeRedditWebhook`): they appear only as trace steps. Whether adding overwrites or duplicates is not visible, so it is not stated.
- Stats (`getStats`, `getCommandStats`, `getInviteCount`) and level-reward listing (`getChatAutoRoles`, `getVoiceAutoRoles`): they pass collaborator results through without logic of their own. They appear only as traces.
- JDA calls: creating, listing and deleting webhooks, and resolving channels and roles. The model covers which webhooks are selected, not the asynchronous `queue` deletion. An unresolvable channel id (a failure of `getChannelById`) is not modelled.
- Gson parsing: the participant array is taken as already parsed into string primitives, other primitives and non-primitives.
- Webhooks.ChannelView: the preloaded channel lookup `getGuildChannelById` is not part of this model. It is taken to be an exact-key lookup in a channel table.
- Webhooks.ListNotifiers: the record's webhook id is the fourth argument of the `WebhookReddit` constructor. The entity class is not part of this model.
- Null fields: stored ids and tokens, the recording's guild id and the user id are non-null strings. Only a platform webhook's token may be absent.
- CaseFold.Lower: folds ASCII only. Java's `equalsIgnoreCase` also folds non-ASCII letters.
- EffectOrder.UpdateLogCreatesBeforeDeleting: states the order in which calls are issued, not the order of their effects. The webhook listing and each `delete()` are queued, so a deletion may complete after the persist call.
- EffectOrder.UpdateWelcomeDeletesBeforeCreating: states the order in which calls are issued, not the order of their effects. The queued deletion may complete after the new webhook is created and after the persist call.
- Webhooks.ChannelView: the update methods store the new platform webhook's id in the record's channel-id field. The getters look that value up as a channel id. By that reading they would find no channel for a record the update methods wrote. The model keeps the lookup as written and claims no corrected form. The channel lookup and the entity class are not part of this model, so whether this is a fault cannot be decided.
- Concurrency between requests and collaborator failures in the middle of an operation are not modelled. The traces show where such a failure would leave things.
- Spring wiring and the `NotifierContainer` holder: `NotifierContainer` is the plain datatype `Webhooks.Notifier`.
