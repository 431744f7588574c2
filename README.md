# MiroTalk Admin backend core, modelled in Dafny

This project models the per-connection core of the MiroTalk admin dashboard backend.
That core is the socket.io handlers that run commands, stream logs and open local or SSH terminals.
It also covers the helpers around those handlers:

- the output filter and the stream relay;
- token checks;
- the SSH helpers;
- command resolution;
- input validation;
- the host-information and update-count parsers;
- the process-status parsers;
- the IP allow-list, the client-address rules and the rate-limiter keys;
- switching the active application;
- the dependency catalogue;
- the logger's level gate and elapsed-time units;
- the configuration defaults;
- the dashboard's `.env` line validator.

Layout, one module per source file:

- `Wrappers`, `Text`, `Seqs` and `Events` hold shared vocabulary: results, JavaScript string operations, order-keeping filtering, handles, emitted events and side effects.
- `SessionSpec` gives every socket event and every asynchronous callback of one connection as a transition function on a `ConnState` value.
- `Session.Connection` is a class whose fields are the socket's fields: `_terminalProcess`, `_sshStream`, `_logsProcess`, `_logsStream`, the listener list, and the trace of emitted events and performed effects. Each method is proved to perform exactly the corresponding transition.
- `SessionProps`, `SessionListeners` and `SessionInvariant` state what the handlers promise: the token gate, emission orders, idempotent teardown and listener replacement. They also state the at-most-one-local-terminal rule, which holds only with the guarded pty exit handler: as written the rule breaks (see the findings below).
- A listener that throws records the exception as a `ListenerThrew` effect carrying its message, and does nothing else.
- The remaining modules follow their files. Code that updates state in place is modelled as classes with `modifies` clauses: `ConfigObject`, `Logs`, `HttpExchange`, `ExecCall` and `ExecStreamCall`. Loops are modelled as methods with invariants: `CleanUpdateOutput`, `FormatUptime`, `ParseSSHSystemInfo`, `ParseDependencies` and `ValidateEnv`. Pure code is modelled as functions and lemmas.

Token verification, running a command, reading the clock and formatting dates are all parameters of the model. Where a handler waits on a callback, the callback is a separate transition.

## Model

| member | source | states |
|---|---|---|
| StreamHelpers.CleanUpdateOutput | backend/helpers/streamHelpers.js:20-130 | the loop returns the lines each rule keeps, joined by newlines: the result is the spec function `Cleaned` of the input |
| StreamHelpers.KeepsLine | backend/helpers/streamHelpers.js:21-128 | one line's fate: drop rules first, then keep rules, then the default meaningful-line rule (equals `Retained`) |
| StreamHelpers.CleanedLines | backend/helpers/streamHelpers.js:20-130 | the lines of the cleaned text are exactly the retained input lines, unchanged and in order (a subsequence of the input lines) |
| StreamHelpers.CleanIdempotent | backend/helpers/streamHelpers.js:20-130 | cleaning twice equals cleaning once |
| StreamHelpers.DropRulesComeFirst | backend/helpers/streamHelpers.js:25-49 | a line any drop rule matches is dropped, whatever keep keyword it also holds |
| StreamHelpers.KeepKeywordKeeps | backend/helpers/streamHelpers.js:51-118 | a line no drop rule matches that holds a keep keyword is kept |
| StreamHelpers.FillerLinesNeverRetained | backend/helpers/streamHelpers.js:120-126 | blank lines and lines made only of whitespace, `-`, `=`, `*`, `.` never survive |
| StreamHelpers.SampleProgressBarDropped | backend/helpers/streamHelpers.js:26-28 | a Docker `Downloading [...]` progress line is dropped although it ends in a percentage |
| StreamHelpers.SamplePm2LineKept | backend/helpers/streamHelpers.js:60-70 | a PM2 `[PM2] ... online` line is kept unchanged |
| StreamHelpers.SamplePercentageDropped | backend/helpers/streamHelpers.js:47-49 | a bare `73%` line is dropped |
| StreamHelpers.RelayedText | backend/helpers/streamHelpers.js:156-163 | a data chunk is emitted, filtered when filtering applies, exactly when it is not blank afterwards |
| StreamHelpers.RelayChunk | backend/helpers/streamHelpers.js:156-188 | one chunk gives at most one event: a close gives the done event, data only output events |
| StreamHelpers.StreamToSocket | backend/helpers/streamHelpers.js:152-189 | the relay emits at most one event per chunk, each on the output or the done event |
| StreamHelpers.StreamToSocketAppend | backend/helpers/streamHelpers.js:152-189 | the relay keeps no state between chunks: relaying a concatenated trace is relaying each part |
| StreamHelpers.DoneEventsAreCloses | backend/helpers/streamHelpers.js:165 | the done event is emitted once per close of the main stream, carrying its close code, and never otherwise |
| StreamHelpers.RelayChunkWellFormed | backend/helpers/streamHelpers.js:156-188 | each event of one chunk is on the output or done name, and every output payload is non-blank text |
| StreamHelpers.RelayedEventsWellFormed | backend/helpers/streamHelpers.js:152-189 | the same for a whole chunk trace |
| StreamHelpers.UnfilteredRelayIsExact | backend/helpers/streamHelpers.js:156-188 | without filtering, the output events carry exactly the non-blank chunks heard, unchanged and in order |
| Seqs.Filter | backend/utils/dependencyUtils.js:74 | order-keeping filter: a subsequence of the input holding exactly the accepted elements, each accepted element as many times as in the input |
| Seqs.FilterOfAccepted | backend/utils/dependencyUtils.js:74 | filtering a sequence whose every element is accepted gives it back |
| Seqs.SubsequenceMembers | backend/helpers/streamHelpers.js:129 | every element of a subsequence is an element of the sequence |
| Auth.SocketTokenCheck | backend/middleware/auth.js:59-68 | accepted iff the verifier accepts the token; the trace is unchanged when accepted, else gains the message then status 1 |
| Auth.InvalidTokenEvents | backend/middleware/auth.js:64-65 | the rejection pair: `Invalid or expired token.\n` on the output event, then 1 on the done event |
| Auth.HeaderToken | backend/middleware/auth.js:29-30 | the token is the second space-separated field of the header, absent for a missing header or an empty field |
| Auth.HeaderTokenOfScheme | backend/middleware/auth.js:30 | `<scheme> <token>[ <anything>]` yields the token, whatever the scheme |
| Auth.SingleFieldHeaderHasNoToken | backend/middleware/auth.js:30-34 | a header without a space carries no token |
| Auth.AuthDecision | backend/middleware/auth.js:27-47 | 401 without a token, 403 for a rejected token, otherwise continue with the decoded claims |
| Auth.BearerTokenProceeds | backend/middleware/auth.js:40-46 | a bearer token the verifier accepts proceeds as the user it decodes to |
| Auth.HttpExchange.AuthenticateToken | backend/middleware/auth.js:27-47 | either a status is sent and `next` is not called, or `req.user` is set and `next` runs exactly once |
| SshUtils.GetSSHConfig | backend/utils/sshUtils.js:22-36 | host, port and user copied; the password when set, else the key, else the error text |
| SshUtils.PasswordPreferred | backend/utils/sshUtils.js:28-29 | with a password configured the key is not offered, even if loaded |
| SshUtils.KeyWithoutPassword | backend/utils/sshUtils.js:30-31 | without a password a loaded key is offered |
| SshUtils.ExecOutcome | backend/utils/sshUtils.js:53-57 | resolves with all stdout exactly for exit code 0; otherwise rejects with stderr, or, when stderr is empty, with `SSH exited with code ` and the code as `${code}` prints it: the number, `null` for a signal exit, `undefined` without an exit report |
| SshUtils.SignalCloseNamesNull | backend/utils/sshUtils.js:53-56 | a command ended by a signal closes with code `null`; with empty stderr it rejects with `SSH exited with code null`, which differs from the no-exit-report rejection |
| SshUtils.SilentFailureNamesCode | backend/utils/sshUtils.js:56 | a failing command with empty stderr reports its exit code |
| SshUtils.StderrDoesNotFailSuccess | backend/utils/sshUtils.js:54-55 | stderr output never turns exit code 0 into a failure |
| SshUtils.ExecCall.OnClose | backend/utils/sshUtils.js:53-57 | closing, with a numeric, `null` or absent code, ends the connection and settles once by `ExecOutcome` of the collected output |
| SshUtils.ExecCall.Settle | backend/utils/sshUtils.js:45 | a promise settles once: later outcomes are ignored |
| SshUtils.ExecCall.OnExecError | backend/utils/sshUtils.js:49 | an exec error rejects and leaves the connection open |
| SshUtils.ExecCall.OnData | backend/utils/sshUtils.js:58-60 | a stdout chunk is appended to the collected output |
| SshUtils.ExecCall.OnStderrData | backend/utils/sshUtils.js:61-63 | a stderr chunk is appended to the collected errors |
| SshUtils.ExecCall.OnConnectionError | backend/utils/sshUtils.js:66 | a connection error rejects with its message |
| SshUtils.ExecStreamCall.OnConnectionError | backend/utils/sshUtils.js:130 | a connection error rejects with its message |
| SshUtils.ExecStreamCall.OnExecResult | backend/utils/sshUtils.js:120-127 | an exec error ends the connection and rejects; a stream resolves |
| SshUtils.ExecStreamCall.OnStreamClose | backend/utils/sshUtils.js:126 | the stream's close ends the connection |
| CommandUtils.EffectiveMode | backend/utils/commandUtils.js:65 | the override, else `SSH_MANAGE_MODE` under `ssh`, else `APP_MANAGE_MODE` |
| CommandUtils.GetCommand | backend/utils/commandUtils.js:64-70 | a server command wins in every mode; otherwise the result is an entry of the pm2 or docker table, or the empty text |
| CommandUtils.Pm2Command | backend/utils/commandUtils.js:21-27 | defined exactly for `restart`, `logs`, `realTimeLogs`, `status` and `update`; all but `update` run `pm2` |
| CommandUtils.DockerCommand | backend/utils/commandUtils.js:29-43 | defined exactly for the same five types; all but `update` run `docker` |
| CommandUtils.GenericCommand | backend/utils/commandUtils.js:45-56 | defined exactly for `checkServerUpdate`, `serverUpdate` and `serverReboot` |
| CommandUtils.GenericCommandsIgnoreMode | backend/utils/commandUtils.js:45-66 | the server commands resolve the same in every mode |
| CommandUtils.CommandFoundIffKnown | backend/utils/commandUtils.js:64-70 | a command is found iff it is a server command or the pm2/docker table of the mode has it; otherwise the empty text |
| CommandUtils.DefaultModeIsDocker | backend/config/index.template.js:129-130 | under the default modes the docker table is used |
| CommandUtils.UpdateStartsInAppDir | backend/utils/commandUtils.js:26-42 | both update commands are ` && ` chains whose first step is `cd <dir>` |
| CommandUtils.Pm2LogLineCounts | backend/utils/commandUtils.js:18-24 | buffered pm2 logs ask for 1000 lines with `--nostream`, real-time logs for 300 |
| CommandUtils.DockerLogLineCounts | backend/utils/commandUtils.js:18-32 | buffered docker logs tail 1000 lines, real-time logs follow from 300 |
| CommandUtils.GenericCommandsNonEmpty | backend/utils/commandUtils.js:45-56 | every server command is non-empty |
| CommandUtils.ModeCommandsNonEmpty | backend/utils/commandUtils.js:21-43 | every pm2 and docker command is non-empty |
| Validation.ValidateUsername | backend/utils/validationUtils.js:18-34 | accepted exactly for strings of 3 to 50 code units over `[a-zA-Z0-9._-]` |
| Validation.UsernameLengthCheckedFirst | backend/utils/validationUtils.js:23-31 | a too-short name with bad characters reports the length error |
| Validation.UsernameCharacterReported | backend/utils/validationUtils.js:27-31 | a name of allowed length with a bad character reports the character error; a good one is accepted |
| Validation.ValidatePassword | backend/utils/validationUtils.js:42-52 | accepted exactly for strings of 1 to 100 code units |
| Validation.ValidateAppName | backend/utils/validationUtils.js:61-84 | missing list: not configured; name outside the trimmed entries: error listing them joined by `, `; otherwise accepted |
| Validation.PaddedEntryAccepted | backend/utils/validationUtils.js:72-74 | an entry padded with spaces is accepted under its trimmed name |
| Validation.AppsTextRoundTrip | backend/utils/validationUtils.js:73 | a comma-joined list of unpadded names reads back as the same list |
| Validation.ValidateFileContent | backend/utils/validationUtils.js:94-114 | checks in order: presence, string type, UTF-8 size at most `maxSize` (default 100000), no NUL |
| Validation.SizeCheckedBeforeNul | backend/utils/validationUtils.js:105-111 | an oversized text with a NUL reports its size |
| Validation.EmptyContentValid | backend/utils/validationUtils.js:95-97 | the empty string is valid content |
| SystemInfo.FormatUptime | backend/utils/systemInfoUtils.js:24-36 | days, hours < 24 and minutes < 60 add up to the seconds within a minute; the text is `up ` and the non-zero parts |
| SystemInfo.UptimeParts | backend/utils/systemInfoUtils.js:31-34 | one part per non-zero component, in the order days, hours, minutes |
| SystemInfo.UnderAMinute | backend/utils/systemInfoUtils.js:31-36 | under a minute the text is exactly `up ` |
| SystemInfo.AllComponentsListed | backend/utils/systemInfoUtils.js:32-36 | with every component present the text lists days, hours, minutes in order, separated by `, ` |
| SystemInfo.PluralExactlyAboveOne | backend/utils/systemInfoUtils.js:32-34 | a count of one is singular, a larger count ends in `s` |
| SystemInfo.PluralHoursAlone | backend/utils/systemInfoUtils.js:31-36 | two hours alone read `up 2 hours` |
| SystemInfo.ParseSSHSystemInfo | backend/utils/systemInfoUtils.js:116-140 | the loop fills the flat facts and the per-interface addresses exactly as `ParseLines` with the same part reader: with `AsWritten` that is the source's parser, line 122 included; with `AfterFirstColon` it is the corrected parser |
| SystemInfo.NetworkLineAppends | backend/utils/systemInfoUtils.js:120-131 | for either part reader, a network line appends the entry of its fields to its interface and leaves the other interfaces alone |
| SystemInfo.FamilyName | backend/utils/systemInfoUtils.js:127-128 | `inet` becomes `IPv4`, `inet6` becomes `IPv6`, anything else is kept |
| SystemInfo.FlatLineSets | backend/utils/systemInfoUtils.js:133-134 | another line sets its trimmed key to the trimmed rest after the first `:`; a later line overwrites |
| SystemInfo.KeylessLineIgnored | backend/utils/systemInfoUtils.js:134 | a line with no `:` or an empty key changes nothing |
| SystemInfo.ParseLinesListsInterfaces | backend/utils/systemInfoUtils.js:120-131 | each interface is listed once, in order of appearance, and exactly the grouped ones |
| SystemInfo.PartEntry | backend/utils/systemInfoUtils.js:122 | corrected reading of one `k:v` part: the value is all text after the first `:` |
| SystemInfo.PartEntryRoundTrip | backend/utils/systemInfoUtils.js:122 | the corrected reading gives back any key and value |
| SystemInfo.AsWrittenTruncatesAddress | backend/utils/systemInfoUtils.js:122 | as written, an address containing `:` is cut at it |
| SystemInfo.Ipv6AddressExample | backend/utils/systemInfoUtils.js:122 | `address:fe80::1` reads `fe80` as written and `fe80::1` corrected |
| SystemInfo.SingleAddressLine | backend/utils/systemInfoUtils.js:120-131 | a report of one line, `network_iface:<iface>`, a bar and one part, lists that one interface, with the single entry built from the interface and the part as the reader reads it |
| SystemInfo.Ipv6ReportLine | backend/utils/systemInfoUtils.js:116-140 | on the whole report, the line `network_iface:<iface>`, a bar and `address:fe80::1` records the address `fe80` as written and `fe80::1` corrected |
| SystemInfo.ParseDependencies | backend/utils/systemInfoUtils.js:159-168 | the loop builds the map `DependencyLines` describes |
| SystemInfo.DependencyLine | backend/utils/systemInfoUtils.js:160-163 | blank lines and lines with an empty name are skipped |
| SystemInfo.NoVersionWithoutInstall | backend/utils/systemInfoUtils.js:164-167 | a dependency that is not installed never has a version |
| SystemInfo.ProbeLineRead | backend/utils/systemInfoUtils.js:159-168 | `name:status:version` reads back under its name, installed iff status is `installed`, versioned only when installed and non-blank |
| ServerService.FirstMotd | backend/services/serverService.js:30 | the leftmost `N updates can be applied immediately` match, or none |
| ServerService.SearchIff | backend/services/serverService.js:39-41 | the backtracking search finds a summary match exactly when one exists |
| ServerService.FirstSummaryIsLeftmost | backend/services/serverService.js:39-41 | the chosen summary match is the leftmost of either form |
| ServerService.CheckForServerUpdate | backend/services/serverService.js:26-47 | corrected: the MOTD count first, else the first number of the leftmost summary match, else 0; available iff the count is positive |
| ServerService.CheckForServerUpdateAsWritten | backend/services/serverService.js:26-47 | the same with the summary pattern as written (`to remove,` only) |
| ServerService.AptLineHasNoMotd | backend/services/serverService.js:30-31 | the MOTD pattern never matches an apt summary line |
| ServerService.AptSummaryMissedAsWritten | backend/services/serverService.js:39-42 | as written, the apt line `U upgraded, I newly installed, R to remove and H not upgraded.` reads as 0 updates |
| ServerService.AptSummaryRead | backend/services/serverService.js:39-46 | corrected, that line reads as U updates, available iff U > 0 |
| ProcessUtils.Pm2Lines | backend/utils/processUtils.js:32 | the output split at newlines, each line trimmed |
| ProcessUtils.FindLine | backend/utils/processUtils.js:34 | the first line containing the needle, or none |
| ProcessUtils.GetValue | backend/utils/processUtils.js:33-39 | the trimmed third `│` cell of the first line containing `│ <keyword>`; none when no line matches or it has fewer than 3 cells |
| ProcessUtils.GetValueOfRow | backend/utils/processUtils.js:33-39 | for a pm2 table row `│ keyword │ value │` the value is read back trimmed |
| ProcessUtils.Pm2StatusRow | backend/utils/processUtils.js:33-41 | a `status` row yields its value as the status |
| ProcessUtils.ParsePm2Status | backend/utils/processUtils.js:26-55 | status is the value or `unknown`; `startedAt` is the date text of the `created at` value, or `n/a` when that text is empty; `finishedAt` equals `startedAt`; uptime is the elapsed time since `startedAt` when it is a date, else `00:00:00` |
| ProcessUtils.ParseDockerStatus | backend/utils/processUtils.js:62-81 | unparsable output, or a start date whose uptime cannot be computed, fails with `Failed to parse Docker status output`; status defaults to `unknown`; a truthy `StartedAt` or `FinishedAt` becomes its date text, a missing `StartedAt` gives `n/a` and `00:00:00`, and a missing `FinishedAt` copies `startedAt` |
| ProcessUtils.ParseProcessStatus | backend/utils/processUtils.js:86-101 | `pm2` gives `ParsePm2Status` of the output and `docker` gives `ParseDockerStatus` of the parsed output; any other mode fails with `Unsupported process manager mode: <mode>` |
| NetworkUtils.FirstForwarded | backend/utils/networkUtils.js:24 | the trimmed text before the first comma; never holds a comma |
| NetworkUtils.FirstForwardedOfList | backend/utils/networkUtils.js:24 | for a comma-joined header, the first entry trimmed |
| NetworkUtils.GetIP | backend/utils/networkUtils.js:17-28 | the forwarded address when the header is non-empty, else the peer address when non-empty, else `req.ip` |
| NetworkUtils.ForwardedAddress | backend/utils/networkUtils.js:20-25 | an address from the header has no comma; a one-address header is returned trimmed |
| RateLimiter.GetClientIp | backend/middleware/rateLimiter.js:18-29 | the forwarded address when the header is non-empty, else `req.ip`, with no peer-address step |
| RateLimiter.ClientIpAgreesWithGetIP | backend/middleware/rateLimiter.js:18-29 | agrees with `getIP` whenever a header is set or the peer address is empty, otherwise iff `req.ip` is the peer address |
| RateLimiter.SameClientSameKey | backend/middleware/rateLimiter.js:50-114 | every limiter gives two requests forwarded for the same client the same key |
| RateLimiter.Settings | backend/middleware/rateLimiter.js:35-120 | every limiter allows a positive count per window of at least 15 minutes; only the API limiter has no custom handler |
| RateLimiter.Key | backend/middleware/rateLimiter.js:50-55 | the client address: a comma-free forwarded address when the header is set, else `req.ip` |
| RateLimiter.LoginSkip | backend/middleware/rateLimiter.js:66-72 | the login limiter exempts no request |
| IpRestriction.RestrictAllowedIPs | backend/middleware/ipRestriction.js:26-39 | admit iff the list is empty, or the address is non-empty and `*` or the address is listed; otherwise deny with 403 `Access denied` |
| IpRestriction.ConfiguredListNeverEmpty | backend/config/index.template.js:126 | under the loaded configuration the list is never empty, so admission needs an address |
| IpRestriction.UnsetListAdmitsAddressed | backend/middleware/ipRestriction.js:33 | with the variable unset (`['*']`) every request with an address is admitted |
| IpRestriction.UntrimmedEntryDenies | backend/config/index.template.js:126 | a space after a comma in the variable makes that address unmatched |
| AppService.AppNamesOf | backend/services/appService.js:18-20 | the configured names when truthy, else `mirotalksfu` |
| AppService.LoadedNamesReturned | backend/services/appService.js:18-20 | the loaded configuration's names are returned as they are |
| AppService.SwitchApp | backend/services/appService.js:28-38 | an unknown name fails with 400 `Invalid app name`; a known one becomes active with its catalogue entry as defaults, which is returned |
| AppService.SwitchAppConsistent | backend/services/appService.js:35-36 | after a switch the defaults are the active name's entry; catalogue and names unchanged |
| AppService.SwitchAppIdempotent | backend/services/appService.js:28-38 | switching to the same name twice equals switching once |
| AppService.SwitchToActiveNoChange | backend/services/appService.js:28-38 | switching to the active application of a consistent configuration changes nothing |
| AppService.LoadedConsistent | backend/config/index.template.js:80-81 | the loaded configuration's defaults are a catalogue entry, and the named one when the name is known |
| AppService.ConfigObject.SetAppName | backend/services/appService.js:28-38 | updates the object in place exactly as `SwitchApp`; unchanged on error |
| AppService.ConfigObject.GetAppNames | backend/services/appService.js:18-20 | returns `AppNamesOf` of the object's fields |
| DependencyUtils.Select | backend/utils/dependencyUtils.js:73-75 | a subsequence of the catalogue holding exactly the entries whose name is listed; a missing list selects none |
| DependencyUtils.AppDependencies | backend/utils/dependencyUtils.js:73-75 | the catalogue entries the active application lists, in catalogue order; none without a list |
| DependencyUtils.SfuGetsEverything | backend/utils/dependencyUtils.js:15-67 | the SFU's dependency list selects the whole catalogue in its order |
| DependencyUtils.DefaultsSkipBuildTools | backend/utils/dependencyUtils.js:74 | the default list selects none of the SFU-only build tools |
| DependencyUtils.Parse | backend/utils/dependencyUtils.js:85 | the default parser returns the first line of the output: a newline-free prefix ending at the end or at a newline; the prefix parser removes a leading prefix and leaves other texts alone |
| DependencyUtils.FirstLineUnique | backend/utils/dependencyUtils.js:85 | a text has only one first line, so the parser's contract fixes its result |
| DependencyUtils.FirstLineParsed | backend/utils/dependencyUtils.js:85 | `out.split('\n')[0]` is the text before the first newline, or the whole text without one |
| DependencyUtils.CheckDependency | backend/utils/dependencyUtils.js:85-96 | installed iff `<cmd> <arg>` (default `--version`) succeeds; version is the parsed trimmed output, none on failure |
| DependencyUtils.DefaultVersionIsFirstLine | backend/utils/dependencyUtils.js:85-92 | with the defaults, the version is the first line of the trimmed output: the text before its first newline, or all of it |
| LogsUtils.LevelIndex | backend/utils/logsUtils.js:52-53 | the position in `[debug, info, warn, error]`, or -1 exactly for other texts |
| LogsUtils.ErrorsAlwaysWritten | backend/utils/logsUtils.js:51-54 | an error is written whatever the threshold |
| LogsUtils.UnknownThresholdAdmitsAll | backend/utils/logsUtils.js:51-54 | a threshold that is not a level lets every message through |
| LogsUtils.ThresholdOrder | backend/utils/logsUtils.js:35-54 | the default threshold writes every level; a known threshold drops exactly the lower levels |
| LogsUtils.AdmitsUpward | backend/utils/logsUtils.js:51-54 | a more severe level is written whenever a less severe one is |
| LogsUtils.ElapsedOf | backend/utils/logsUtils.js:156-167 | unit `h` iff at least 3600000 ms, `m` iff 60000 to 3599999, `s` iff 1000 to 59999, `ms` below |
| LogsUtils.ShownValueInRange | backend/utils/logsUtils.js:156-167 | a duration shown in a unit reaches one of that unit; minutes and seconds stay below sixty |
| LogsUtils.Line | backend/utils/logsUtils.js:64 | the line starts with `[` and the date, ends with the message, with 6 added characters |
| LogsUtils.Logs.GetElapsed | backend/utils/logsUtils.js:152-169 | returns `ElapsedOf(now - timeStart)` and resets `timeStart` to `now`, nothing else changes |
| LogsUtils.Logs.Debug | backend/utils/logsUtils.js:61-66 | writes and reads the clock only when debugging is on and the threshold admits debug |
| LogsUtils.Logs.Write | backend/utils/logsUtils.js:73-133 | `log`, `info`, `warn`, `error`, `trace` append one entry exactly when their level passes |
| LogsUtils.DefaultLoggerWrites | backend/utils/logsUtils.js:35-133 | a default logger writes on every channel; debug only when `LOGS_DEBUG` holds |
| Config.EnvOr | backend/config/index.template.js:130-133 | `process.env[name] \|\| fallback`: an empty value falls back |
| Config.MakeConfig | backend/config/index.template.js:18-29 | `config` defaults to the empty text, `dep` to the default dependencies |
| Config.AppCatalog | backend/config/index.template.js:32-77 | the six applications; each directory comes from its variable or default, with `package.json` and `.env` inside it |
| Config.SelectDefaults | backend/config/index.template.js:81 | a catalogue entry: the named one when the name is known (the SFU's otherwise) |
| Config.Load | backend/config/index.template.js:79-137 | the exported object: the selected name, a catalogue holding the SFU with the defaults among its entries, and a private key read exactly when a key path is set |
| Config.SelectAppName | backend/config/index.template.js:80 | the first comma segment of `APP_NAME`, trimmed, default `mirotalksfu` |
| Config.CatalogShape | backend/config/index.template.js:16-78 | six applications; the SFU depends on the defaults then its extras, the others on the defaults |
| Config.AppNameDefault | backend/config/index.template.js:80 | an unset or empty `APP_NAME` selects the SFU |
| Config.AppNamePlain | backend/config/index.template.js:80 | a single unpadded name is kept as it is |
| Config.UnknownAppNameGetsSfuDefaults | backend/config/index.template.js:81 | an unknown name keeps its value and gets the SFU's defaults |
| Config.AllowedIpsUntrimmed | backend/config/index.template.js:126 | the variable is split at commas without trimming (joining gives it back); `['*']` when unset |
| Config.EmptyEnvironmentDefaults | backend/config/index.template.js:104-136 | an empty environment gives modes `ssh`/`docker`, port 22, user `root` and the other defaults |
| Config.FlagReading | backend/config/index.template.js:107-121 | `LOGS_DEBUG`/`LOGS_COLORS` hold unless `false`; `LOGS_JSON`/`ADMIN_DASHBOARD_ENABLED` only for `true` |
| EnvValidation.ValidateEnv | frontend/js/dashboard/env.js:67-79 | valid iff every trimmed line is empty, a comment or an assignment; otherwise reports the first bad line as `i + 1` with cursor `i` |
| EnvValidation.MatchesAssignmentIff | frontend/js/dashboard/env.js:72 | reading the name greedily accepts exactly the lines `^[A-Za-z_][A-Za-z0-9_]*=` matches |
| EnvValidation.AcceptedUpToIff | frontend/js/dashboard/env.js:70-77 | the scan passes the first `n` lines iff each of them is accepted |
| EnvValidation.EmptyContentAccepted | frontend/js/dashboard/env.js:69-78 | empty content is valid |
| EnvValidation.EmptyValueAccepted | frontend/js/dashboard/env.js:71-72 | `KEY=` with an empty value and leading whitespace is accepted |
| EnvValidation.DigitFirstRejected | frontend/js/dashboard/env.js:72 | a name starting with a digit is rejected |
| EnvValidation.BareNameRejected | frontend/js/dashboard/env.js:72 | a bare name without `=` is rejected |
| SessionProps.CommandStreamGate | backend/handlers/commandStreamHandler.js:33-36 | a rejected token emits the pair on the operation's events and resolves, spawns and connects nothing |
| SessionProps.CommandEventNames | backend/handlers/commandStreamHandler.js:31-32 | output and done events are `eventType + 'Output'` and `eventType + 'Done'` |
| SessionProps.LogsProcessRecordedForLogsOnly | backend/handlers/commandStreamHandler.js:45-46 | a local child becomes the logs process only for `logs` |
| SessionProps.SshCommandWithoutCredentials | backend/handlers/commandStreamHandler.js:38-43 | without a credential the error is emitted, then done 1 |
| SessionProps.SshExecFailure | backend/handlers/commandStreamHandler.js:38-43 | a failed exec ends the connection and emits `SSH error: <msg>\n`, then done 1 |
| SessionProps.SshStreamRelayed | backend/handlers/commandStreamHandler.js:39 | a successful exec relays the stream hearing its own `.stderr` |
| SessionProps.SshStreamCloseEndsConnection | backend/utils/sshUtils.js:126 | an SSH stream's close ends its connection and emits done with the code |
| SessionProps.UpdateOutputFiltered | backend/handlers/socketEventHandlers.js:29-35 | `performUpdate` output is filtered |
| SessionProps.ServerUpdateOutputFiltered | backend/helpers/streamHelpers.js:137-140 | `performServerUpdate` output is filtered |
| SessionProps.LogsOutputUnfiltered | backend/handlers/socketEventHandlers.js:36-42 | `performLogs` output is not filtered |
| SessionProps.StopPerformLogsEffect | backend/handlers/socketEventHandlers.js:56-74 | clears both logs fields, emits `logsDone` 0 once, no token check, no terminal field touched |
| SessionProps.StopPerformLogsTwice | backend/handlers/socketEventHandlers.js:56-74 | a second call only emits `logsDone` 0 again |
| SessionProps.DisconnectEffect | backend/handlers/socketEventHandlers.js:77-90 | clears both logs fields, kills a recorded logs process, emits nothing, touches no terminal field |
| SessionProps.DisconnectIdempotent | backend/handlers/socketEventHandlers.js:77-90 | a second disconnect changes nothing more |
| SessionProps.TerminalStartGate | backend/handlers/localTerminalHandler.js:23 | a rejected start emits the pair and changes nothing else |
| SessionProps.LocalStartGuard | backend/handlers/localTerminalHandler.js:24 | with a terminal recorded, an accepted start changes nothing |
| SessionProps.LocalStartSpawns | backend/handlers/localTerminalHandler.js:27-45 | a start spawns one 80x24 pty, records it and replaces the terminal listeners |
| SessionProps.PtyExitOrder | backend/handlers/localTerminalHandler.js:37-41 | exit emits `\n[Process exited]\n` then done 0; the field clears when it holds that pty |
| SessionProps.LocalInputReachesPty | backend/handlers/localTerminalHandler.js:47-55 | input and resize reach the pty only with a valid token and a recorded pty |
| SessionProps.LocalStopIdempotent | backend/handlers/localTerminalHandler.js:57-63 | a stop kills and clears the pty; a second stop changes nothing |
| SessionProps.TerminalListenerGate | backend/handlers/localTerminalHandler.js:48-58 | a rejected input, resize or stop emits the pair and leaves the session running |
| SessionProps.RemoteStartAlwaysConnects | backend/handlers/remoteTerminalHandler.js:23-27 | no already-running guard: every accepted start with a credential opens a connection |
| SessionProps.RemoteStartWithoutCredentialsThrows | backend/handlers/remoteTerminalHandler.js:72 | without a password or key, an accepted remote start throws `getSSHConfig`'s error out of the listener: no connection, nothing emitted |
| SessionProps.RemoteShellOverwrites | backend/handlers/remoteTerminalHandler.js:34 | a new shell replaces the recorded stream |
| SessionProps.ShellErrorOrder | backend/handlers/remoteTerminalHandler.js:28-32 | a shell error emits the message, then done 1, then ends the connection |
| SessionProps.ConnectionErrorOrder | backend/handlers/remoteTerminalHandler.js:68-71 | a connection error emits the message, then done 1 |
| SessionProps.ShellCloseOrder | backend/handlers/remoteTerminalHandler.js:37-42 | close emits `\n[SSH session closed]\n` then done 0, ends the connection and clears the field |
| SessionProps.RemoteInputAndResize | backend/handlers/remoteTerminalHandler.js:48-65 | input needs a valid token and a stream; resize sends rows before cols, then 0, 0 |
| SessionProps.RemoteStopEndsConnection | backend/handlers/remoteTerminalHandler.js:53-60 | stop ends and clears a recorded stream, and always ends the connection |
| SessionListeners.ConnectionRegistersHandlerMap | backend/handlers/index.js:25-33 | each map entry listens once on its own event; terminal events have no listener yet |
| SessionListeners.DataIgnoredByTeardown | backend/handlers/index.js:28-29 | `disconnect` and `stopPerformLogs` ignore the payload |
| SessionListeners.OperationMap | backend/handlers/socketEventHandlers.js:29-55 | `performUpdate`, `performLogs`, `performServerUpdate` map to their event and command types |
| SessionListeners.NullDataThrows | backend/handlers/index.js:30-31 | a null payload makes each token-reading handler throw the `TypeError` before acting: the escaping exception is its only effect |
| SessionListeners.TerminalListenerThrowsWithoutObject | backend/handlers/localTerminalHandler.js:47-58 | a terminal listener given `null` or no payload throws while destructuring it, and does nothing else |
| SessionListeners.LocalStartRebinds | backend/handlers/localTerminalHandler.js:43-57 | after a start each terminal event has exactly one, local listener |
| SessionListeners.RemoteShellRebinds | backend/handlers/remoteTerminalHandler.js:44-66 | after a shell opens each terminal event has exactly one listener, bound to it |
| SessionInvariant.StepKeeps | backend/handlers/localTerminalHandler.js:24-63 | with the guarded pty exit handler (the corrected half of the first finding), every input keeps the invariant that each live unkilled pty is the recorded one |
| SessionInvariant.AtMostOneLocalTerminal | backend/handlers/localTerminalHandler.js:24 | with the guarded pty exit handler, whatever a connection receives at most one unkilled pty runs; as written this fails (`LateExitOrphansPty`) |
| SessionInvariant.LateExitOrphansPty | backend/handlers/localTerminalHandler.js:37-41 | as written, start, stop, start and a late exit let a third start leave the second pty running unrecorded |
| SessionInvariant.LateExitKeepsRecordedPty | backend/handlers/localTerminalHandler.js:37-41 | with the guarded exit the second pty stays recorded and the third start is refused |
| Session.Connection.Receive | backend/handlers/index.js:25-33 | an event runs the listeners registered when it arrives, as `SessionSpec.Receive`; the listener invariant is kept |
| Session.Connection.RunEntry | backend/handlers/index.js:27-32 | `disconnect` gets the socket alone, the other entries get the payload |
| Session.Connection.HandleCommandStream | backend/handlers/commandStreamHandler.js:22-50 | performs exactly `SessionSpec.CommandStream` |
| Session.Connection.IsSocketValidToken | backend/middleware/auth.js:59-68 | returns whether the token is accepted and appends the rejection pair otherwise |
| Session.Connection.LaunchCommand | backend/handlers/commandStreamHandler.js:36-48 | performs exactly `SessionSpec.LaunchedCommand`: an SSH connection pending under `ssh`, else a spawned child relayed on its own stderr |
| Session.Connection.OnCommandReady | backend/utils/sshUtils.js:119-120 | a ready connection of a pending command runs its command; other connections change nothing |
| Session.Connection.OnCommandExec | backend/handlers/commandStreamHandler.js:38-43 | performs exactly `SessionSpec.OnCommandExec`: an exec error ends the connection and emits the SSH error pair, a stream is relayed |
| Session.Connection.OnCommandConnError | backend/handlers/commandStreamHandler.js:40-43 | a connection error of a pending command emits the SSH error pair once |
| Session.Connection.OnCommandChunk | backend/helpers/streamHelpers.js:152-189 | a chunk of a relayed stream is relayed as `RelayChunk`; the close of an SSH stream also ends its connection |
| Session.Connection.SpawnLocalTerminal | backend/handlers/localTerminalHandler.js:27-57 | spawns an 80x24 pty, records it and installs the local terminal listeners in place of the old ones |
| Session.Connection.OnPtyData | backend/handlers/localTerminalHandler.js:36 | pty output is emitted on `terminalOutput` unchanged |
| Session.Connection.TerminalInput | backend/handlers/localTerminalHandler.js:47-50 | performs exactly `SessionSpec.TerminalInputOp` for the local or remote owner |
| Session.Connection.TerminalResize | backend/handlers/localTerminalHandler.js:52-55 | performs exactly `SessionSpec.TerminalResizeOp` for the local or remote owner |
| Session.Connection.OnTerminalReady | backend/handlers/remoteTerminalHandler.js:26-27 | a ready connection opens an 80x24 shell |
| Session.Connection.OnTerminalStreamData | backend/handlers/remoteTerminalHandler.js:36 | shell output is emitted on `terminalOutput` |
| Session.Connection.OnTerminalConnError | backend/handlers/remoteTerminalHandler.js:68-71 | a connection error emits the connection-error pair |
| Session.Connection.RunHandler | backend/handlers/index.js:27-32 | a registered handler runs its entry, or its terminal listener when the payload carries fields; a terminal listener given no object throws |
| SessionProps.SettledCommandIgnoresConnError | backend/utils/sshUtils.js:130 | once the stream promise has settled, a connection error reports nothing |
| SessionProps.LocalCloseCarriesNoCode | backend/handlers/commandStreamHandler.js:47 | a local child's done event carries `null`, since its stdout closes without a code |
| Session.Connection.StopPerformLogs | backend/handlers/socketEventHandlers.js:56-74 | performs exactly `SessionSpec.StopPerformLogs` |
| Session.Connection.Disconnect | backend/handlers/socketEventHandlers.js:77-90 | performs exactly `SessionSpec.Disconnect` |
| Session.Connection.StartLocalTerminal | backend/handlers/localTerminalHandler.js:22-45 | performs exactly `SessionSpec.StartLocalTerminal` |
| Session.Connection.OnPtyExit | backend/handlers/localTerminalHandler.js:37-41 | the corrected exit handler, `SessionSpec.OnPtyExit` |
| Session.Connection.StopTerminal | backend/handlers/localTerminalHandler.js:57-63 | performs exactly `SessionSpec.StopTerminalOp` |
| Session.Connection.StartRemoteTerminal | backend/handlers/remoteTerminalHandler.js:22-27 | performs exactly `SessionSpec.StartRemoteTerminal` |
| Session.Connection.OnTerminalShell | backend/handlers/remoteTerminalHandler.js:28-36 | performs exactly `SessionSpec.OnTerminalShell` |
| Session.Connection.OnTerminalStreamClosed | backend/handlers/remoteTerminalHandler.js:37-42 | performs exactly `SessionSpec.OnTerminalStreamClosed` |

## Left out

- Real process, terminal and network I/O is not modelled: spawning, `execSync`, node-pty, ssh2 connections, SFTP writes, file reads and writes, and `fetch`. Handles are opaque values, callbacks are explicit transitions, and command execution is a parameter.
- `jwt.verify`, `jwt.sign` and bcrypt are not modelled. Token verification is a parameter function from token to optional claims.
- Concurrency is not modelled. socket.io delivery, promise timing and interleavings are reduced to one atomic transition per event or callback.
- Dates and clocks are parameters: `new Date(...).toLocaleString()`, `toISOString`, `Date.now()` and the log timestamp. The pm2 and docker uptime text is an `elapsed` parameter.
- `toFixed` rounding is not modelled. `LogsUtils.Elapsed` keeps the milliseconds and the unit, not the two-decimal text.
- Log colours are not modelled; every logger output is uncoloured. `util.inspect` of the extra argument is also not modelled.
- `JSON.parse` in `parseDockerStatus`, followed by the three property reads, is a parameter. It yields nothing when the text does not parse or parses to `null`. Otherwise it yields the three properties, each absent when the parsed value lacks it.
- The express-rate-limit window counting is not modelled. Only the keys, the settings and `skip` are.
- Prototype-chain keys are not modelled. A JavaScript object lookup such as `statusParsers[mode]`, `APP_CONFIG[name]` or the handler map can also hit names like `constructor`; the model treats these tables as plain maps.
- The `SSH_PRIVATE_KEY` file read is a `readFile` parameter.
- Plain HTTP wiring is not modelled: controllers, routes, the app and server setup, CORS, the dashboard guard, and the one-line services.
- The browser UI is not modelled, apart from `validateEnv`.
- `LogsUtils.Line`: states the date prefix, the message suffix and the length, not the position of the app name.
- `sshReadFile` is `sshExec` of `cat <path>`, with the path unquoted. It is not modelled beyond `ExecCall`, which covers any command text.
- `DependencyUtils.CheckEntry`: only the local checks of the catalogue are modelled. The SSH-side commands (`cmd`) are data and are not run.
- `ProcessUtils.ParsePm2Status`: `startedAt` is whatever the `dateText` parameter makes of the `created at` value. The `Invalid Date` text is therefore not distinguished.
- `SystemInfo.FormatUptime`: the seconds are taken as a whole number; fractional uptimes are not modelled.
- `Text.ToLower`: case-insensitive matching lower-cases ASCII letters only. This is exact for the keywords `error`, `warning` and `failed`.
- StepKeeps: holds for the guarded pty exit handler only. With the exit handler as written the invariant fails (`SessionInvariant.LateExitOrphansPty`), so no invariant is stated for the handlers as written.
- AtMostOneLocalTerminal: the same restriction. The rule is proved with the guarded pty exit handler, not for the source as written.
- NullDataThrows: an exception escaping a socket listener is recorded as a `ListenerThrew` effect. Its consequences are not modelled: nothing in the handlers catches it, so Node's uncaught-exception handling may end the process. The model carries on with later events as if the process survived. The same holds for `TerminalListenerThrowsWithoutObject` and `RemoteStartWithoutCredentialsThrows`.
- Payloads that are neither objects, `null` nor absent, such as a bare number, are not modelled; `EventData` has no case for them.

## Findings

| source | as written | input that shows it | evidently intended | confidence | as-written member | corrected member |
|---|---|---|---|---|---|---|
| backend/handlers/localTerminalHandler.js:37-41 | the exit handler clears `_terminalProcess` whichever pty it holds | start, stop (kill sent), start again, then the first pty's exit arrives; a third start then succeeds while the second pty still runs unrecorded | clear the field only when it still holds the exited pty, so at most one local pty runs | medium, not executed | SessionSpec.OnPtyExitAsWritten, SessionInvariant.LateExitOrphansPty | SessionSpec.OnPtyExit, SessionInvariant.LateExitKeepsRecordedPty |
| backend/utils/systemInfoUtils.js:122 | `const [k, v] = part.split(':')` keeps only the text between the first and second `:` | `address:fe80::1` gives the address `fe80` | the value is everything after the first `:` | high, not executed | SystemInfo.PartEntryAsWritten, SystemInfo.AsWrittenTruncatesAddress, SystemInfo.Ipv6ReportLine | SystemInfo.PartEntry, SystemInfo.PartEntryRoundTrip, SystemInfo.Ipv6ReportLine |
| backend/services/serverService.js:39-42 | the summary pattern requires `to remove,` | `3 upgraded, 0 newly installed, 0 to remove and 5 not upgraded.` (apt-get's own wording) reads as 0 updates | the count 3, accepting ` and` after `to remove` | high, not executed | ServerService.AptSummaryMissedAsWritten | ServerService.AptSummaryRead |

The third row has a second cause with the same effect, also not executed. The command at backend/utils/commandUtils.js:49 filters apt's output with `grep -E "^\d+ upgraded"`. ERE has no `\d`, so GNU grep reads it as a literal `d`, and apt's summary line probably never reaches the parser. The `echo` fallback then prints a line the pattern does match, with 0 upgrades. Either way a host with upgrades reads as 0.
