# bd-reminder-bot, modelled in Dafny

bd-reminder-bot is a Slack bot that keeps an eye on a team's birthdays. Every
member keeps their birthday in the Skype field of their Slack profile as a
four-character `DDMM` token. Once at start-up and then every hour inside a
configured workday window, the bot runs a pass:

- it reads the roster of the main channel and drops the blacklisted members;
- it fetches every member's profile and works out how many days are left
  until their next birthday;
- members between the low and the high threshold are reported to the manager
  by direct message; members at or below the low threshold get a private
  channel `surname-bd-year`, to which the rest of the main channel is invited
  and where an announcement is posted;
- a small bolt key/value file with a manager bucket and a channel bucket
  remembers, per member, the year-stamped token `DDMM` + year already
  announced, so that nobody is announced twice in one tier in one year.

Beside the passes, a listener answers the commands `hi`, `birthday` and
`turnoff` addressed to the bot in chat; only the manager may turn it off.
At start-up the configuration file is checked setting by setting.

The model covers that decision logic: the birthday arithmetic, the cache, the
filters, the classification into tiers, the delivery order, the channel
provisioning, the command listener, the configuration checks, and the way
the Slack Web API's replies are read. The modules follow the program:

| module | file | what it holds |
|---|---|---|
| `Wrappers`, `Structs`, `SlackStructs` | wrappers.dfy, structs.dfy, slack_structs.dfy | `Option`/`Result`/`Outcome`; the records `config`, `messages`, `bdInfo`, `UserProfile`, `Conversation`, `IM`, `Message` |
| `Strings` | strings.dfy | the parts of Go's `strings` and `strconv` the bot uses |
| `Calendar` | calendar.dfy | proleptic Gregorian day numbers, hours and years of millisecond instants |
| `Birthday` | birthday.dfy | `getUserBDInfo` and a reference definition of "the next birthday" |
| `Cache` | cache.dfy | the `DB` class over a map of buckets |
| `SlackApi` | slack_api.dfy | the platform as an oracle of decoded replies, and how each reply is read |
| `Filter` | filter.dfy | `stringInSlice` and the two in-place list filters |
| `Provision` | provision.dfy | `sendBDsToNewChannels` |
| `Notify` | notify.dfy | `announceBirthdays` and the scheduling of `bdWatcher` |
| `Commands` | commands.dfy | the command listener `msgWatcher` |
| `Settings` | settings.dfy | `parseConfig` |

Instants are UTC milliseconds since 1970-01-01 and days are numbered from
that date, so the birthday arithmetic is integer arithmetic. Every Slack call
is a field of the `Platform` datatype: a function from the request to the
decoded reply, to `Garbled` when the answer does not decode, or to `NoReply`
when the request itself failed.
Go's map iteration order and the order in which the profile goroutines
deliver are left open: the loops pick the next element with `:|`, and the
contracts hold for every order.

Behaviour of the code worth knowing:

- A `29.02` birthday is refused, as `time.Parse` refuses February 29 of
  1900. It is not moved to February 28 or March 1.
- The listener has no reconnection loop and no retry bound. A read error
  that is not a timeout ends the listener with that error.
- A member at or below the low threshold is in the channel tier. Nothing
  else bounds the days, and the days are never negative.
- `parseConfig` refuses zero thresholds and a reversed pair, but it accepts
  negative thresholds. It does not require the workday hours to lie in
  0..23.

## Model

| member | source | states |
|---|---|---|
| Strings.ReplacePrefix | bot.go:55-57 | Removing the first occurrence of the mention from a text that starts with it leaves exactly the rest of the text. |
| Strings.Trim | bot.go:58 | The result is a slice of the input, with only the cut character removed at each end, and it neither starts nor ends with that character. |
| Strings.ToLower | bot.go:60 | The result has the input's length, and every character is lower-cased. |
| Strings.RemoveAll | bot.go:286 | The character no longer occurs and every other character keeps its count, so the length drops by the number of occurrences; a text without it is unchanged. |
| Strings.RemoveAllAppend | bot.go:286 | Removing a character distributes over concatenation. |
| Strings.RemoveAllOne | bot.go:286 | One character is dropped when it is the one removed and kept otherwise; with `RemoveAllAppend` this fixes the order of what is kept. |
| Strings.Itoa | bot.go:225 | A year renders as a non-empty text with no `.`, made of decimal digits when the year is not negative, and starting with `-` exactly when it is negative. |
| Strings.NatToStringValue | bot.go:225 | The decimal digits of a non-negative number read back as that number. |
| Strings.ItoaInjective | bot.go:225 | Different years render as different texts. |
| Calendar.HourOf | bot.go:129 | The hour of an instant is the one whose hour-long slice of the day holds the instant's millisecond of the day. |
| Calendar.YearOfDay | bot.go:224 | The year of a day is the one whose first day is at or before it and whose successor's first day is after it. |
| Birthday.ParseDDMM1900 | bot.go:365 | A parsed token is a date of 1900 that recurs every year, and it renders back as the same token. |
| Birthday.ParseToken | bot.go:365 | Every valid date of 1900 parses back from its own `DDMM` token. |
| Birthday.Age | bot.go:373 | The age is the number of the last anniversary on or before today's day. |
| Birthday.NextAnniversary | bot.go:373-376 | Reference definition: the first anniversary on or after today. |
| Birthday.GetUserBDInfo | bot.go:359-381 | An error exactly when the token is not 4 characters or does not parse; then days = -1. Otherwise days is the distance in days to the next anniversary, between 0 and 365. |
| Birthday.WholeDays | bot.go:378 | Truncated hours, divided by 24, of q days plus under a day give q. |
| Birthday.BumpedAnniversary | bot.go:373-376 | The age anniversary, bumped once when `now` is past its last millisecond, is the next anniversary. |
| Birthday.NextWithinYear | bot.go:370-378 | The next birthday is 0 to 365 days away. |
| Birthday.NextBirthdayDays | bot.go:370-378 | The code's steps (age, anniversary, bump, hours / 24) count the days from today to the next birthday. |
| Birthday.ThisYearOrNext | bot.go:373-376 | The birthday counted is this calendar year's, unless `now` is past its last millisecond; then it is next year's. |
| Birthday.ZeroDaysOnBirthday | bot.go:370-378 | Zero days are left exactly when today is an anniversary. |
| Birthday.RejectedTokens | bot.go:361-368 | `2902`, `3204`, `0113` and `0115` give -1 and the parse error; a 3-character token gives -1 and the length error. |
| Birthday.JanuaryFifteenthAhead | bot.go:359-381 | `1501` at noon on 10 January 2023 gives 5 days. |
| Birthday.JanuaryFifteenthPassed | bot.go:359-381 | `1501` on 16 January 2023 gives 364 days, the next birthday being in 2024. |
| Cache.WithBucket | db.go:82-87 | Creating a bucket adds it empty when it is absent, and keeps every existing bucket as it was. |
| Cache.DB.constructor | db.go:35 | The handle holds the two bucket names and the opened store. |
| Cache.DB.NewBucket | db.go:82-87 | An empty name fails and changes nothing; otherwise the bucket is created if absent. |
| Cache.DB.Put | db.go:89-98 | A missing bucket fails with `bucket "b" not found` and an empty key fails with `key required`; both change nothing. Otherwise that one key of that bucket is written. |
| Cache.DB.Get | db.go:100-116 | A missing bucket fails; otherwise the value stored under the key, or none, with no error. |
| Cache.DB.SaveUserBDToCache | db.go:49-59 | A bucket that is neither configured name fails with `does not exist`. It succeeds exactly when the bucket is configured and present and the ID is non-empty. The store becomes `Saved`. |
| Cache.DB.CheckUserBDInCache | db.go:62-80 | True exactly when a configured bucket holds this very token for the ID. An unconfigured bucket fails. A configured one fails only when it is absent. |
| Cache.OpenDB | db.go:25-46 | A file error is passed on and an empty bucket name fails. On success both buckets exist, existing buckets are kept, and the names are the configured ones. |
| Cache.SaveThenCheck | db.go:49-80 | After a successful save the same token checks true, and any other token checks false. |
| Cache.SaveFrame | db.go:89-98 | A save changes no other key of that bucket and no other bucket. |
| Cache.OpenPreserves | db.go:38-44 | Opening creates both buckets, preserves existing contents, and opening again changes nothing. |
| Cache.SavedEachStep | db.go:89-98 | Saving one more pair extends the saved entries, whatever the order of the saves. |
| SlackApi.Interpret | slack/api.go:94-105 | A reply succeeds exactly when it was decoded with `ok`. `ok = false` gives exactly `API error: ` + its error. A failed request gives `unable to make … request: ` + its cause, and an answer that does not decode gives `unable to unmarshal response: ` + the decoder's cause. |
| SlackApi.ApiErrorText | slack/api.go:103-105 | An `API error: e` text comes only from a decoded reply with `ok = false` and error field `e`. |
| SlackApi.SendAPIMessage | slack/api.go:33-79 | Posting succeeds exactly when the reply was decoded with `ok`. |
| SlackApi.CreateNewConversation | slack/api.go:82-108 | The new channel's ID when the reply is `ok`, and otherwise the interpreted error. |
| SlackApi.GetUserProfile | slack/api.go:191-214 | On success the profile is the reply's, with the requested ID stamped over its own. |
| SlackApi.FindDMByUserID | slack/api.go:217-245 | The ID of the first direct-message channel whose user is the one asked for; `user not found` when there is none; the reply's error otherwise (`unable to unmarshal response: ` for an answer that does not decode). The loop computes `DMChannel`, the first match over the listed channels. |
| SlackApi.InviteReply | slack/api.go:285-316 | An invitation passes on `ok`; when every per-user entry is `ok` or ignorable; or, with no entries, on an ignorable top-level error. It fails in every other case, including no reply. |
| SlackApi.InviteReplyFailures | slack/api.go:276-314 | The failure text is the wrapped per-user errors with their count; otherwise the unknown or named top-level error for that user; with no reply, the failed POST for that user; and, for an answer that does not decode, `unable to unmarshal response for user ` + the user + the cause. |
| SlackApi.WrapKeepsTail | slack/api.go:287-304 | Each failing entry wraps the text built so far: the initial count stays at the end. |
| SlackApi.WrapNamesFailures | slack/api.go:287-304 | The combined error names every user whose entry failed. |
| SlackApi.InviteAllFirstFailure | slack/api.go:248-320 | The members pass exactly when each one's reply passes; a failure is the first failing member's, with every earlier member passing. |
| SlackApi.InviteMembersToConversation | slack/api.go:248-320 | One request per member in list order, stopping at the first failure, whose error is returned. Nobody after it is asked. An empty list makes no request. |
| Filter.StringInSlice | bot.go:383-390 | True exactly when the string is in the list. |
| Filter.WithoutBlacklistedMembers | bot.go:175-182 | A member survives the blacklist filter exactly when it is on the roster and not blacklisted. |
| Filter.RemoveBlacklisted | bot.go:175-182 | The in-place deletion loop leaves the roster minus the blacklist, in the original order. |
| Filter.InviteCandidatesMembers | bot.go:323-329 | Invited: every member other than the honoree who is not blacklisted or is the manager. The honoree is left out even when they are the manager. |
| Filter.RemoveNotInvited | bot.go:323-329 | The in-place deletion loop leaves exactly the invite candidates, in the original order. |
| Provision.ChannelName | bot.go:285-286 | The channel name holds no `.`. |
| Provision.ChannelNameParts | bot.go:286 | The name is the surname without dots, then `-bd-`, then the year: only the surname loses characters. |
| Provision.BirthdayDate | bot.go:339 | `DD.MM.YYYY`: dots at positions 2 and 5, and removing them gives the token back. |
| Provision.FirstNamedID | bot.go:302-307 | The ID of the first conversation whose name equals the channel name exactly, or `""` when there is none. |
| Provision.FindChannelByName | bot.go:302-307 | The lookup loop finds that first exact match. |
| Provision.ChannelID | bot.go:289-312 | A successful create yields its ID, and an empty ID is `not found`. Only a decoded `name_taken` error leads to the lookup, and a result found that way is the exact-name match. A found ID is never empty. |
| Provision.ChannelIDAfterFailedCreate | bot.go:289-312 | After `name_taken`, a failed lookup gives `unable to get conversations: ` + its error, and a successful one gives the first exact-name match or `not found` when there is none. Any other create failure gives `unable to create channel with name ` + the name + its error. |
| Provision.ResolveChannel | bot.go:289-312 | The create-or-look-up code computes `ChannelID`. |
| Provision.ChannelStepPasses | bot.go:289-344 | An iteration succeeds exactly when the channel is found or made, the roster is read, every candidate is invited and the announcement is posted. |
| Provision.ChannelStepErrors | bot.go:289-344 | A failed iteration's error names its cause: the channel, the roster, the invitation (naming the channel) or the post. |
| Provision.AnnounceInChannel | bot.go:283-354 | The honoree is saved in the channel bucket only after the announcement was posted; otherwise the store is unchanged. |
| Provision.SendBDsToNewChannels | bot.go:282-357 | Honorees are taken in any order, and the first failure ends the loop with that honoree's error. Every honoree before it was announced and saved, and nothing else was saved. Success means all were announced. |
| Notify.SkipTick | bot.go:149-152 | The hourly test skips a tick exactly when the start-up test would not run a pass: the window is inclusive at both ends. |
| Notify.ProfileOfStamps | slack/api.go:212 | Each fetched profile carries the ID it was requested for. |
| Notify.Fetched | bot.go:186-210 | No more profiles than members. |
| Notify.FetchedMembers | bot.go:186-210 | A profile is collected exactly when some member's request returns it. |
| Notify.Enrich | bot.go:186-210 | The fan-out collects exactly the fetchable profiles, in any order; failed requests are dropped. |
| Notify.TierOf | bot.go:228-252 | Manager tier exactly when low < days <= high; channel tier exactly when days <= low; neither exactly when days exceed both. |
| Notify.DaysUntilSound | bot.go:359-381 | The day count the pass uses gives no negative count, and parses only 4-character fields. |
| Notify.Token | bot.go:224-225 | The cache token starts with the Skype field and is longer than it: the year follows. |
| Notify.TokenYears | bot.go:224-225 | A member's tokens of two different years differ, so a token cached in one year never matches the next year's. |
| Notify.RouteFacts | bot.go:215-252 | A member placed in a tier has a parsed field, days in that tier's range, and a token of at least 4 characters. |
| Notify.ClassifiedEntries | bot.go:213-253 | Each map holds exactly the IDs some profile was routed to it. The value is the details of the last such profile. |
| Notify.PlanInTiers | bot.go:213-253 | Every manager entry lies in (low, high] and every channel entry in [0, low]; all carry printable tokens. |
| Notify.PlannedAreMembers | bot.go:175-253 | Only members of the filtered roster are planned, so the blacklisted never are. |
| Notify.RouteProfile | bot.go:215-252 | One profile's tier after the cache check, and its details. A cache hit of that very token skips the profile; a failed cache read does not. |
| Notify.ClassifyProfiles | bot.go:213-253 | The classification loop yields `Classified` over the profiles, reading the cache only. |
| Notify.NotifyManager | bot.go:255-269 | Each manager-tier member gets one attempt, none twice. Exactly those whose direct message was accepted are saved in the manager bucket. |
| Notify.ManagerNotRepeated | bot.go:224-269 | A member whose direct message was accepted in a pass is not placed in the manager tier again by any later pass of the same year over the store that pass left. |
| Notify.ChannelNotRepeated | bot.go:224-276 | An honoree announced in a pass is not placed in the channel tier again by any later pass of the same year over the store that pass left. |
| Notify.Deliver | bot.go:255-276 | Manager messages first, then the channel batch. The store records the accepted messages and the announced honorees. The batch's error is returned. |
| Notify.AnnounceBirthdays | bot.go:162-280 | Through `PassBehaves`: a roster error gives `unable to get channel: `, and an empty roster gives `Slack channel is empty`, each with no change. Otherwise: profiles of the filtered roster, the classified plan, the store after delivery, and success exactly when every honoree was announced; a failure is some unannounced honoree's error. |
| Notify.Scheduled | bot.go:129-159 | The passes run at in-window instants only, in order. |
| Notify.ScheduledComplete | bot.go:145-157 | Every in-window instant gets its pass. |
| Notify.ScheduledPrefix | bot.go:139-159 | The passes up to an instant are the first passes of the whole run. |
| Notify.BdWatcher | bot.go:119-160 | The passes run are a prefix of the scheduled ones, and all of them when the watcher ends well. The watcher fails before any pass exactly when the manager's DM is not found, with `unable to find manager's DM: ` + that error, and changes nothing. Each pass behaves as `announceBirthdays` with the found DM, on the store the previous pass left. Every pass but the last succeeded. A failure after a pass is `unable to print birthdays: ` + the last pass's error. |
| Commands.CommandAfterMention | bot.go:55-60 | A command is read exactly when the text starts with the mention. It is the rest of the text, trimmed and lower-cased. |
| Commands.BirthdayTemplates | bot.go:68-94 | `birthday` answers `profile_error` when the profile can't be read, `bd_parse_error` when the field does not parse, `personal_incoming` with the days when they are positive and `personal_today` on the day. The first argument is always the sender. |
| Commands.RespondCases | bot.go:60-112 | Only the three commands are answered. Only the manager's `turnoff` stops, with an announcement only when one is set. Anyone else's is refused. There is at most one reply, to the message itself. |
| Commands.HandleCases | bot.go:49-113 | Only `message` events starting with the mention and carrying a known command get a reply or stop. Only the manager's `turnoff` stops, and others get `shutdown_error`. At most one reply, to that message. |
| Commands.Listen | bot.go:28-117 | The listener ends with an error only after stopping, and that error is a non-transient read failure among the events. |
| Commands.NothingAfterStop | bot.go:95-109 | Once stopped, later events change nothing. |
| Commands.RepliesAnswerReceived | bot.go:49-113 | Every reply answers a received message, with at most one reply per message. |
| Commands.HandleEvent | bot.go:49-113 | The dispatch code computes `Handle`, with the profile read only for `birthday`. |
| Commands.MsgWatcher | bot.go:28-117 | The read loop's error and replies are those of `Listen` over the events. |
| Settings.ZoneName | main.go:126-129 | An empty location means `UTC`; any other name is kept. |
| Settings.FirstBrokenIsFirst | main.go:104-211 | Nothing is reported exactly when every check holds. Otherwise the report is a failing check, and every check before it held. |
| Settings.FirstRuleBroken | main.go:104-211 | The first failing check of a configuration is the error returned. |
| Settings.NoRuleBroken | main.go:104-211 | A configuration passing every check is accepted as read. |
| Settings.AcceptedConfig | main.go:104-211 | An accepted configuration has start < end, a known zone, non-empty buckets, tokens and IDs, and non-zero thresholds with low <= high. Its six templates are non-empty, the two shutdown texts are empty and the blacklist is as given. |
| Settings.RejectedConfig | main.go:104-211 | A rejection is for a check that fails, and every check before it held. |
| Settings.ParseConfig | main.go:104-211 | The early-return checks compute `Validated`: the first failing check's exact text, or the parsed settings. |

## Left out

- HTTP and websocket transport, with their retries, is not modelled. A failed request is a `NoReply` with its cause (`unable to make … request`), and an answer that does not decode is a `Garbled` reply with the decoder's cause (`unable to unmarshal response`, and `… for user` for an invitation). The JSON itself is not modelled.
- One `Platform` answers every call, always the same way for the same request. So within a pass, the roster read again for the invitations (bot.go:315) is the one the pass read first (bot.go:165). Every hourly pass of `bdWatcher` sees the same answers too: for example, a pass that fails on a Slack error fails again at every later tick, and the workspace never changes between ticks.
- The tokens that authenticate each call are not modelled: one workspace answers every request.
- Each invitation's reply is a fresh record. In the code the `response` struct is reused across members (slack/api.go:249-281), so a reply without an `errors` or `error` field would keep the previous member's.
- Concurrency is not modelled. The profile goroutines (bot.go:186-210) become a loop that takes the members in any order.
- The reply goroutines of the listener (bot.go:62-94) are not modelled: replies come back in event order. A failed websocket send is only logged, so it is not modelled either.
- The context, WaitGroup and signal handling of main.go are not modelled. Neither is the start-up code that sets the bot's user ID and the manager's DM after `parseConfig`.
- The hourly ticker is a sequence of tick instants, and cancellation is the end of that sequence. The event stream of the listener is a sequence too; a sequence that runs out leaves the listener still listening.
- Time zones and daylight saving are not modelled: every instant is UTC. `goage.Age` reads the clock itself; here it is evaluated at the pass's `now`. `sendBDsToNewChannels` reads the clock again for the year; here it is passed in as `year`.
- Birthday.GetUserBDInfo: Go's `len` counts the bytes of the Skype field, where the model counts characters. When a field holds non-ASCII characters the two counts differ, so one side may report the length error where the other reports the parse error. Such a field never parses as `DDMM`, so days is -1 either way.
- Birthday.GetUserBDInfo: the parse error is `unable to parse birthday` without the text `time.Parse` wraps after it, because that text is the time library's.
- The `birthday` answer takes `now` to be the instant the event carries, where the reply goroutine reads the clock itself.
- `strings.ToLower` is modelled on ASCII letters only. Other Unicode letters keep their case.
- `fmt.Sprintf` rendering is not modelled: a message text is its template and the arguments given to it. The `%q` quoting of a bucket name is plain double quotes, without escaping.
- bolt's file locking, timeouts, transactions and byte-slice copies are not modelled. The store is a map from bucket name to bucket, so equal names share one bucket, as in the code.
- Reading the configuration through viper is not modelled. The settings come as one record, and the set of known time-zone names is a parameter. A missing `slack` or `messages` section, which makes viper's `Sub` return nil in the code, is not modelled either.
- Logging is not modelled, nor the unused `DefaultDBExpTime`.
- `GetConversationInfo` is not modelled, because the bot never calls it.
- `sendBDsToNewChannels` slices the cached token to print the date (bot.go:339). A token shorter than 4 characters would panic; every token is 4 characters plus the year, so `BirthdayDate` requires at least 4 characters.
