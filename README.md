# VPN status monitor bot — a Dafny model of its core

The program is a Telegram bot that watches one VPN peer. Its core is small and stateful:

- **Status check.** A `/status` request passes a cooldown gate on the shared stamp `lastPingTime`. Within `PingInterval` seconds of the stamp the requester gets a wait notice. Otherwise the stamp moves to the request time and the host is pinged once (three echo requests). The verdict "Клиент в сети." / "Клиент не в сети." is logged and replied. A reachable verdict stamps `lastPingTime` again, at the probe's end.
- **Dispatch and subscribers.** Every incoming message registers its chat in the subscriber set, whatever its text. Then the lower-cased text selects `/status`, `/enable_autoping` or `/disable_autoping`. The last two set the auto-ping flag, save the configuration and confirm. Any other text is ignored.
- **Auto-ping.** The ticker is started only when auto-ping is enabled at start-up. While the flag is on, each tick probes without consulting the cooldown gate and sends "Автоматический статус: " plus the verdict to every subscriber.
- **Logs.** Status lines go to `<LogDir>/DD-MM-YYYY.log`. A purge deletes each entry that is not a directory, whose stat succeeded and whose age is strictly greater than `LogRetentionDays` days.

How the model represents the world:

- Time is integer nanoseconds. The unset stamp (Go's zero time) is `None`, which always admits.
- The pinger, the clock, the local calendar date and the opening of the log file are oracles, and their readings are parameters. A `ProbeRun` carries what one probe-and-log step reads: the pinger's outcome, the clock when it returned, the local date and whether the log file opened. The clock at a request is the separate `now` of `HandleStatusCommandAsync` and `HandleUpdate`, one entry of `clock` per update in `ProcessUpdates`. The clock of a purge is the `now` of `RotateLogs`.
- Sent messages are appended to an `outbox`. Each attempt to save the configuration appends a snapshot of it to `savedConfigs`. Log lines are appended to `logLines`. Probe attempts (target, count 3, timeout) are appended to `probes`, including attempts where the pinger cannot be created.
- The directory listing is a sequence of entries `(name, isDir, modTime)`. `modTime` is absent when stat failed.

Modules:

- `TextFormat`: Go's `%d` and time-layout integer fields.
- `Cooldown`: the admission gate and the wait value.
- `Probe`: the verdict.
- `Commands`: case-insensitive command matching.
- `LogRotation`: the file name and the purge.
- `Monitor`: the `StatusBot` class holding the shared state, and its operations.
- `Scenarios`: short conversations with a fresh bot, with the replies stated as postconditions.

Behaviour of the code that is easy to get wrong, and that the model keeps:

- The ticker is not always running. It is started only if auto-ping was enabled at start-up, so `/enable_autoping` after a disabled start never produces a broadcast (`Scenarios.EnableWithoutTicker`).
- The auto-ping tick does not share the cooldown gate; it probes unconditionally.
- The stamp is written at admission and again after a reachable verdict. The cooldown after a reachable probe is therefore measured from the probe's end (`Scenarios.RepeatedStatusWhileReachable`).
- The wait value is the interval minus the whole seconds elapsed, truncated. It is not the exact remaining time.
- The purge skips only directories; any other entry kind counts as a file.

## Model

| member | source | states |
|---|---|---|
| `TextFormat.DecimalString` | main.go:116 | The numeral is non-empty, all digits, and has no leading zero |
| `TextFormat.DecimalRoundTrip` | main.go:116 | Reading the numeral of n back gives n |
| `TextFormat.FormatIntRoundTrip` | main.go:116 | The `%d` rendering `TextFormat.FormatInt` of any integer, sign included, parses back to that integer |
| `TextFormat.AppendInt` | main.go:197 | A non-negative field is all digits and at least `width` long; a negative one is '-' followed by digits |
| `TextFormat.FastPathsAgree` | main.go:197 | The digit-by-digit two- and four-digit cases equal sign plus zero-padded numeral |
| `Cooldown.WholeSeconds` | main.go:115 | `int(d.Seconds())`: the whole seconds of d, truncated toward zero, bracketed for both signs |
| `Cooldown.WaitSeconds` | main.go:114-115 | For a rejected request with a past stamp, the quoted wait lies in [1, interval]; it is at least the remaining time and less than a second above it |
| `Cooldown.WaitingSuffices` | main.go:114-118 | Coming back after the quoted seconds passes the gate `Cooldown.Admitted` (main.go:114); one second earlier is still rejected |
| `Cooldown.SecondRequestInsideWindow` | main.go:114-118 | A request inside the window is rejected with interval minus the whole seconds elapsed |
| `Probe.ClientOnline` | main.go:141-162 | A creation or run error gives unreachable; a finished run is reachable iff at least one reply came back |
| `Probe.StatusText` | main.go:130-139 | The reply is "Клиент в сети." iff reachable and "Клиент не в сети." iff not |
| `Commands.ToLower` | main.go:96 | Lower-casing keeps the length, leaves no ASCII capital letter, and changes an ASCII character only in its case |
| `Commands.ToLowerIdempotent` | main.go:96 | Lower-casing a lower-cased text changes nothing |
| `Commands.CaseVariantRecognised` | main.go:96-108 | `Commands.ParseCommand` selects a command for any spelling of it with some letters upper-cased |
| `Commands.RecognisedAsciiIsCaseVariant` | main.go:96-108 | An ASCII text selects a command only if it is a case variant of its spelling; other text is ignored |
| `LogRotation.LogFileName` | main.go:197 | For a calendar date the name is 14 characters, dashes at 2 and 5, ending ".log" |
| `LogRotation.LogFileNameRoundTrip` | main.go:197 | Parsing the name of a date gives the date back |
| `LogRotation.ParsedNameIsCanonical` | main.go:197 | Every name that parses is exactly the name of its date, so names and dates correspond one to one |
| `LogRotation.JoinPath` | main.go:197 | The path is the directory, one separator, then the file name |
| `LogRotation.ExpiredNamesExactly` | main.go:218-234 | `LogRotation.ExpiredNames` holds a name iff some entry of that name meets the retention rule `LogRotation.Expired` (main.go:219-230): not a directory, stat succeeded, and age above the window |
| `LogRotation.RetentionBoundary` | main.go:230 | A file exactly as old as the window is kept; one nanosecond older is removed |
| `LogRotation.RotateLogs` | main.go:210-235 | A failed directory read removes nothing; otherwise the removed names are the expired entries in directory order |
| `Monitor.WaitNoticeRoundTrip` | main.go:115-116 | The wait notice `Monitor.WaitNotice` (main.go:116) carries exactly the computed wait, recoverable from its text |
| `Monitor.EnumerationSize` | main.go:173-178 | A broadcast that reaches each subscriber once has exactly one message per subscriber |
| `Monitor.ChatsOfExactly` | main.go:88-94 | The chats registered by a run of updates are exactly the senders of its messages |
| `Monitor.AutoPingAfterAppend` | main.go:96-108 | The flag after two runs of updates is the second run applied to the flag after the first |
| `Monitor.AutoPingAfterNoToggle` | main.go:96-109 | Status requests, unknown texts and message-less updates leave the auto-ping flag unchanged |
| `Monitor.LastToggleWins` | main.go:99-108 | The last enable or disable command decides the flag |
| `Monitor.LastSaveIsCurrent` | main.go:100-107 | After any run containing a switch, the last configuration saved is the one in memory: the loaded settings with the flag as the commands left it |
| `Monitor.StatusBot.constructor` | main.go:84-86 | Start-up: no stamp, no subscribers, nothing sent; the ticker runs iff auto-ping is enabled at start-up |
| `Monitor.StatusBot.LogStatus` | main.go:196-208 | Keeps every sent message addressed to a registered chat; one line with the status under `LogDir/DD-MM-YYYY.log` when the file opens, nothing otherwise |
| `Monitor.StatusBot.SaveConfig` | main.go:283-296 | A save attempt records the current configuration; the invariant is kept |
| `Monitor.StatusBot.HandleStatusCommand` | main.go:130-139 | Keeps the invariant; one probe with count 3 and the configured timeout; verdict message returned and logged; stamp moved to the probe's end only when reachable |
| `Monitor.StatusBot.HandleStatusCommandAsync` | main.go:113-128 | For a registered chat, every sent message still goes to a registered chat, and the new state is `Monitor.StatusCheck` of the old. Too soon: only a wait notice, nothing else changes. Otherwise: stamp at request time, exactly one probe, "checking" then the verdict, the verdict's log line, and the stamp moved again only if reachable |
| `Monitor.StatusBot.HandleUpdate` | main.go:89-109 | The new state is `Monitor.Step` of the old. A message-less update changes nothing. Otherwise the sender is registered, idempotently, before matching; `/status` has exactly the effect of the status check; a switch sets the flag, saves and confirms; unknown text only registers. The summary `Monitor.UpdateEffects` also holds: one or two replies to a command, all to the sender, at most one probe and log line, and only for `/status`, which leaves a stamp |
| `Monitor.StatusBot.ProcessUpdates` | main.go:88-110 | The new state is `Monitor.Steps` of the old: each update in turn, at its own clock reading and probe readings, has exactly its one-step effect. Hence (`Monitor.RunEffects`): the subscribers are the old ones plus every sender; the flag is as the commands left it and other settings are unchanged; one snapshot is saved per switch, carrying the flag after it; messages, probes and log lines are only appended; each command gets one or two replies, each new message goes to a chat that wrote in the run, and a run without commands sends nothing; each `/status` adds at most one probe of the configured target and one log line, so a run without `/status` leaves stamp, probes and log untouched, and a run with one leaves a stamp |
| `Monitor.StepEffects` | main.go:89-109 | Every update has the effect one step of a run accounts for: its sender registered, one or two replies to a command and all to the sender, a probe, log line and stamp only for `/status` |
| `Monitor.StepsEffects` | main.go:88-109 | Handling a run update by update has the effects `Monitor.RunEffects` states for the whole run |
| `Monitor.EffectsAccumulate` | main.go:88-109 | The effects of a run followed by one more update are the effects of the longer run |
| `Monitor.StatusBot.Broadcast` | main.go:173-178 | Every registered chat receives the text exactly once, no other chat receives it, and nothing already sent changes |
| `Monitor.StatusBot.Tick` | main.go:169-180 | Ticker stopped or flag off: nothing changes. Otherwise one probe regardless of the cooldown, and "Автоматический статус: " plus the verdict goes once to every subscriber |
| `Scenarios.RepeatedStatusWhileUnreachable` | main.go:113-139 | Fresh default bot: the first `/status` is served; a second five seconds later after an unreachable verdict is told to wait 5 seconds |
| `Scenarios.RepeatedStatusWhileReachable` | main.go:121-132 | After a 3-second reachable probe, a second `/status` five seconds after the first is told to wait 8 seconds |
| `Scenarios.DisableThenTick` | main.go:104-108 | `/DISABLE_AUTOPING` is confirmed and saves the flag off; the next tick neither probes nor sends |
| `Scenarios.EnableWithoutTicker` | main.go:84-86 | Started with auto-ping off, `/enable_autoping` is confirmed but a tick sends nothing |
| `Scenarios.TickReachesEverySubscriber` | main.go:169-179 | Two chats that wrote anything each receive the automatic status once, even one that wrote twice |
| `Scenarios.ChatterIsSilent` | main.go:88-109 | Through the loop, an unknown text gets no reply, probe, save or stamp |
| `Scenarios.SwitchesAreSaved` | main.go:99-108 | Through the loop, a disable from b and an enable from a are confirmed exactly as `[(b, disabled), (a, enabled)]`, probe nothing, and save the flag off, then on |
| `Scenarios.StatusThroughTheLoop` | main.go:96-98 | Through the loop, a fresh bot's first `/status` is always served: exactly "checking" then the verdict, both to its sender, and the stamp at the probe's end if reachable, at the request otherwise |

## Left out

- The Telegram transport (bot creation, the update channel, `bot.Send`): sends become outbox entries. Send errors are ignored by the program, so the outbox records attempted sends.
- The pinger's internals (packets, privileges, timeouts). Only the outcome the verdict reads is modelled.
- The program's diagnostic lines on the standard logger, which change no state: the pinger's creation and run errors and its summary with the average round-trip time (main.go:144, 154, 159), the log file's open error (main.go:201), the purge's directory-read and stat errors (main.go:213, 226), the removal notice (main.go:232), and the configuration messages (main.go:74, 241, 243, 286, 294). The status line itself (main.go:207) is modelled as `logLines`.
- The tray icon and menu.
- Goroutines, the ticker period, the 24-hour purge timer, and the unsynchronised sharing of `lastPingTime` and the configuration between the update loop and the ticker. Ticks, purges and updates are explicit, sequential calls.
- Loading and creating the JSON configuration file, with their fatal error paths. The default settings are kept as `Monitor.DEFAULT_CONFIG`.
- Monitor.StatusBot.SaveConfig: writing the file is not modelled. A failure to create or encode it is logged and otherwise ignored by the program, so `savedConfigs` records save attempts, not successful writes.
- Creating the log directory at start-up, and the content and timestamp format of the log line, which the standard logger owns.
- The conversion of instants to local calendar dates, which depends on the time zone database: the date of each log write is an oracle reading.
- Cooldown.WaitSeconds: the program reads the clock twice per `/status` request: at the gate (main.go:114) and then either for the wait value (main.go:115) when rejected or for the admission stamp (main.go:121) when admitted. The model uses one reading, the handler's `now`, for both. The bound `1 <= wait` rests on that: when the window closes between main.go:114 and 115 the program quotes 0 seconds, or fewer if the handler stalls, which the model does not produce.
- Cooldown.WholeSeconds: exact integer truncation; the float64 rounding of `Duration.Seconds()` for durations above 2^53 nanoseconds is not modelled.
- Cooldown.Admitted: the 64-bit wrap-around of `PingInterval × 1s`, and the saturation of `time.Since` on the zero time, are not modelled. The unset stamp always admits, which is what the saturation gives for any realistic interval.
- LogRotation.Expired: the 64-bit wrap-around of `LogRetentionDays × 24h` is not modelled.
- LogRotation.JoinPath: the path cleaning of `filepath.Join` and the Windows separator are not modelled.
- LogRotation.RotateLogs: the result is the names the purge tries to remove; failures of the removal itself are not modelled.
- Commands.ToLower: only ASCII capitals and the two non-ASCII runes that lower to ASCII (U+0130, U+212A) are lowered; any other rune, such as 'Ä', is kept as it is, where Go lowers it. Since every command is ASCII, which command matches is still exact.
