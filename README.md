# MetricsBridge core in Dafny

MetricsBridge is a Fabric server mod. It samples tick durations, builds a JSON
document of server metrics, and serves it over HTTP behind token or session
authentication. The web server also exposes a console backed by captured stdout/stderr lines
and the server log. This project models the mod's core:

- the credential store, `UserDatabase`: normalised user names, salted hashes,
  the default admin, and the create/authenticate/update/delete/admin-flag operations;
- the gate that admits a request, `PlayerAuthFilter`: sessions with a 24-hour idle timeout,
  falling back to the legacy `AuthFilter` token rules (a `Bearer` header, then a `?token=` query parameter);
- the tick sampler, `MetricsSampler`: a FIFO window of 200 tick durations, the average tick time
  and TPS capped at 20;
- the console of `WebServer`: per-byte line splitters, the bounded 1000-line history
  with its self-tag filter, the log watcher's filter, and the history and command replies;
- the config logic of `MetricsBridgeMod`: the migration from version 1 to 2 to 3,
  the migrate-if-needed decision, and the defaults read at server start;
- the metrics aggregation rules of `JsonUtil`: the "Data unavailable" substitutions,
  the player and server sections, world save names, per-world entity counts with
  their total and per-type summary, and the placeholder network statistics.

Stateful Java classes are Dafny classes. Their maps and lists are `map`/`seq`
fields, and their outcomes are stated against pure specification functions.
Java `null` is `Option.None`, and an exception the code would raise is a `None`
or `Failed` result. Clocks, salts, session tokens and the hash function are
parameters. So are the Minecraft server and the command dispatcher, given as
values or functions.

The model follows the code where its intended behaviour differs:

- `deleteUser` and `setAdminStatus` have no last-admin or original-admin guard.
- `isOp` does no expiry check.
- `updatePassword` rejects only a null argument or a blank new password.
- A session's `username` and `displayName` are the name as typed, not the normalised key.

## Model

| member | source | states |
|---|---|---|
| JavaStrings.LeadingTrimmable | src/main/java/com/synderis/metricsbridge/UserDatabase.java:38-39 | the count of leading chars <= U+0020; the next char is not one |
| JavaStrings.TrailingTrimmable | src/main/java/com/synderis/metricsbridge/UserDatabase.java:38-39 | the count of trailing chars <= U+0020; the char before them is not one |
| JavaStrings.Trim | src/main/java/com/synderis/metricsbridge/UserDatabase.java:43 | `trim()` gives the infix after the leading trimmable run, empty or bounded by non-trimmable chars, with only trimmable chars after it |
| JavaStrings.LowerChar | src/main/java/com/synderis/metricsbridge/UserDatabase.java:43 | A-Z map to a-z; every other char is unchanged; trimmability is preserved |
| JavaStrings.ToLower | src/main/java/com/synderis/metricsbridge/UserDatabase.java:43 | same length; each char is lowered one by one |
| JavaStrings.TrimOfTrimmed | src/main/java/com/synderis/metricsbridge/UserDatabase.java:43 | a string bounded by non-trimmable chars is its own trim |
| JavaStrings.TrimIdempotent | src/main/java/com/synderis/metricsbridge/WebServer.java:139 | trimming twice equals trimming once |
| JavaStrings.BlankIff | src/main/java/com/synderis/metricsbridge/UserDatabase.java:38-39 | `trim().isEmpty()` holds iff every char is <= U+0020 |
| JavaStrings.NormalizeIdempotent | src/main/java/com/synderis/metricsbridge/UserDatabase.java:43 | normalising a stored key again yields the key, so lookups find stored names |
| JavaStrings.ContainsIff | src/main/java/com/synderis/metricsbridge/WebServer.java:256 | `contains` holds iff the text occurs at some index |
| JavaStrings.ContainsInfix | src/main/java/com/synderis/metricsbridge/WebServer.java:235 | a string containing a text contains each infix of it |
| UserStore.NormalizeOriginalAdmin | src/main/java/com/synderis/metricsbridge/UserDatabase.java:309-318 | the default admin's name "admin" is already a normalised key |
| UserStore.IsOriginalAdmin | src/main/java/com/synderis/metricsbridge/UserDatabase.java:233-240 | false for null; otherwise true iff the trimmed name spells "admin" ignoring ASCII case, whatever the store holds |
| UserStore.OriginalAdminIsCaseAndSpaceInsensitive | src/main/java/com/synderis/metricsbridge/UserDatabase.java:233-240 | `isOriginalAdmin` gives the same answer for a name and its normalised form |
| UserStore.UserDatabase.constructor | src/main/java/com/synderis/metricsbridge/UserDatabase.java:29-32 | with no database file, the store holds only admin/admin, an administrator who authenticates |
| UserStore.UserDatabase.GetUser | src/main/java/com/synderis/metricsbridge/UserDatabase.java:91-105 | Some iff the name is non-null and its normalised form is stored; then the record under that key |
| UserStore.UserDatabase.Authenticate | src/main/java/com/synderis/metricsbridge/UserDatabase.java:67-87 | true only for a stored user and a non-null password |
| UserStore.UserDatabase.IsAdmin | src/main/java/com/synderis/metricsbridge/UserDatabase.java:109-112 | true only for a stored user |
| UserStore.UserDatabase.CreateUser | src/main/java/com/synderis/metricsbridge/UserDatabase.java:37-62 | succeeds iff name and password are non-blank and the key is new; adds only that key; afterwards exactly the passwords with the same salted hash authenticate; no change on failure |
| UserStore.UserDatabase.UpdatePassword | src/main/java/com/synderis/metricsbridge/UserDatabase.java:117-150 | succeeds iff the new password is non-blank and the old one authenticated; replaces hash, salt and lastModified; the new password then authenticates and the old one only on a hash collision |
| UserStore.UserDatabase.DeleteUser | src/main/java/com/synderis/metricsbridge/UserDatabase.java:155-173 | true iff the key was stored; exactly that key is removed, with no admin guard |
| UserStore.UserDatabase.SetAdminStatus | src/main/java/com/synderis/metricsbridge/UserDatabase.java:200-221 | true iff the user exists; only the flag and lastModified change; authentication of every name/password pair is unchanged |
| UserStore.UserDatabase.UpdateUserAdminStatus | src/main/java/com/synderis/metricsbridge/UserDatabase.java:226-228 | the same outcome and new store as SetAdminStatus |
| UserStore.UserDatabase.ListUsers | src/main/java/com/synderis/metricsbridge/UserDatabase.java:178-195 | one entry per stored key, each the record without hash and salt |
| LegacyAuth.ExpectedHeader | src/main/java/com/synderis/metricsbridge/AuthFilter.java:15 | the accepted header is "Bearer " followed by the token, or "Bearer null" for a null token |
| LegacyAuth.Handle | src/main/java/com/synderis/metricsbridge/AuthFilter.java:12-27 | admits iff the header is exactly "Bearer " + token or a non-null token equals the query parameter; the header check comes first; otherwise a 401 "Unauthorized" reply |
| LegacyAuth.MissingCredentialNeverAuthorizes | src/main/java/com/synderis/metricsbridge/AuthFilter.java:14-26 | with one credential absent, only the other decides; with both absent, the reply is 401 |
| LegacyAuth.NullTokenAdmitsOnlyBearerNull | src/main/java/com/synderis/metricsbridge/AuthFilter.java:15-22 | with a null token only the header "Bearer null" is admitted, and no query parameter is |
| LegacyAuth.BareTokenHeaderRejected | src/main/java/com/synderis/metricsbridge/AuthFilter.java:15 | a header carrying the bare token without "Bearer " is refused |
| SessionAuth.PlayerAuthFilter.constructor | src/main/java/com/synderis/metricsbridge/PlayerAuthFilter.java:17-21 | the filter starts with no sessions |
| SessionAuth.PlayerAuthFilter.Handle | src/main/java/com/synderis/metricsbridge/PlayerAuthFilter.java:24-51 | a live session is refreshed and admits; an expired one is removed, then the token rules decide; admitted iff a live session, the bearer header ("Bearer null" for a null fallback token) or a non-null query token matches |
| SessionAuth.PlayerAuthFilter.CreateSession | src/main/java/com/synderis/metricsbridge/PlayerAuthFilter.java:53-69 | a token iff the credentials authenticate; the session stores the typed name twice and the current admin flag |
| SessionAuth.PlayerAuthFilter.InvalidateSession | src/main/java/com/synderis/metricsbridge/PlayerAuthFilter.java:71-73 | removes exactly that token; a no-op when the token is absent |
| SessionAuth.PlayerAuthFilter.IsOp | src/main/java/com/synderis/metricsbridge/PlayerAuthFilter.java:75-78 | true only for a stored session |
| SessionAuth.PlayerAuthFilter.GetSession | src/main/java/com/synderis/metricsbridge/PlayerAuthFilter.java:80-82 | the stored session, expired or not, or None |
| SessionAuth.AdminFlagIsSnapshot | src/main/java/com/synderis/metricsbridge/PlayerAuthFilter.java:65 | a demoted admin's existing session still reports op |
| SessionAuth.IsOpIgnoresExpiry | src/main/java/com/synderis/metricsbridge/PlayerAuthFilter.java:75-78 | an expired session still answers `isOp` with its flag |
| TickSampling.TickDuration | src/main/java/com/synderis/metricsbridge/MetricsSampler.java:19 | the elapsed nanoseconds, clamped at 0 when the clock went back |
| TickSampling.PushIsFifo | src/main/java/com/synderis/metricsbridge/MetricsSampler.java:22-23 | after a push the window holds the newest min(n+1, 200) durations, the new one last |
| TickSampling.FeedKeepsNewest | src/main/java/com/synderis/metricsbridge/MetricsSampler.java:17-24 | after any run of ticks the window is the newest min(n+k, 200) durations, in order |
| TickSampling.WindowLengthFromEmpty | src/main/java/com/synderis/metricsbridge/MetricsSampler.java:12 | from empty, the window length is min(ticks, 200) |
| TickSampling.SumNonNegative | src/main/java/com/synderis/metricsbridge/MetricsSampler.java:28-29 | a sum of clamped durations is non-negative |
| TickSampling.SumConstant | src/main/java/com/synderis/metricsbridge/MetricsSampler.java:28-29 | a constant window sums to length times value |
| TickSampling.AverageMs | src/main/java/com/synderis/metricsbridge/MetricsSampler.java:26-32 | NaN (None) iff the window is empty |
| TickSampling.Tps | src/main/java/com/synderis/metricsbridge/MetricsSampler.java:34-39 | NaN iff the average is NaN or non-positive; otherwise min(20, 1000/ms): exactly 20 iff 20*ms <= 1000, else 1000/ms |
| TickSampling.AverageOfConstantWindow | src/main/java/com/synderis/metricsbridge/MetricsSampler.java:26-32 | a constant window of v ns averages v/1e6 ms |
| TickSampling.SteadyServerRunsAtCap | src/main/java/com/synderis/metricsbridge/MetricsSampler.java:34-39 | steady 50 ms ticks give 50 ms and exactly 20 TPS |
| TickSampling.MetricsSampler.constructor | src/main/java/com/synderis/metricsbridge/MetricsSampler.java:14-15 | an empty window; the last tick is the construction time |
| TickSampling.MetricsSampler.OnTickEnd | src/main/java/com/synderis/metricsbridge/MetricsSampler.java:17-24 | the window becomes Push of the clamped duration; the length grows to at most 200 |
| TickSampling.MetricsSampler.AvgTickMs | src/main/java/com/synderis/metricsbridge/MetricsSampler.java:26-32 | the loop's result equals AverageMs of the window and is non-negative |
| TickSampling.MetricsSampler.CurrentTps | src/main/java/com/synderis/metricsbridge/MetricsSampler.java:34-39 | equals Tps of the average and is at most 20 |
| WebConsole.CharOf | src/main/java/com/synderis/metricsbridge/WebServer.java:145 | `(char) b` keeps the low 16 bits of the byte's value |
| WebConsole.KeepNewest | src/main/java/com/synderis/metricsbridge/WebServer.java:267-269 | the last min(n, limit) elements |
| WebConsole.WithLine | src/main/java/com/synderis/metricsbridge/WebServer.java:254-271 | a line with "[MetricsBridge]" is dropped; otherwise the stamped line is last, older lines keep their order, and the length is min(n+1, 1000) |
| WebConsole.LinesOfFragment | src/main/java/com/synderis/metricsbridge/WebServer.java:135-148 | bytes without '\n' emit nothing; all but '\r' accumulate |
| WebConsole.LinesOfConcat | src/main/java/com/synderis/metricsbridge/WebServer.java:135-148 | writing two chunks in sequence equals writing their concatenation |
| WebConsole.LinesOfLine | src/main/java/com/synderis/metricsbridge/WebServer.java:138-143 | a '\n' emits the trimmed buffer unless it is blank, and clears the buffer |
| WebConsole.SelfTagMentionsName | src/main/java/com/synderis/metricsbridge/WebServer.java:235 | a line with "[MetricsBridge]" also contains "MetricsBridge" |
| WebConsole.WatchedLinesAreRecorded | src/main/java/com/synderis/metricsbridge/WebServer.java:235-237 | every line the watcher keeps passes the self-tag filter |
| WebConsole.JsonLines | src/main/java/com/synderis/metricsbridge/WebServer.java:60 | the history as JSON strings in the same order |
| WebConsole.ConsoleCapture.constructor | src/main/java/com/synderis/metricsbridge/WebServer.java:22 | empty history and empty line buffers |
| WebConsole.ConsoleCapture.AddConsoleLine | src/main/java/com/synderis/metricsbridge/WebServer.java:254-271 | the eviction loop leaves exactly WithLine of the old history; the buffers are unchanged |
| WebConsole.ConsoleCapture.WriteOut | src/main/java/com/synderis/metricsbridge/WebServer.java:135-148 | the stdout buffer takes one Step; a completed line reaches the history; stderr state is unchanged |
| WebConsole.ConsoleCapture.WriteErr | src/main/java/com/synderis/metricsbridge/WebServer.java:155-168 | like stdout, but a completed line is recorded with "[ERROR] " in front |
| WebConsole.ConsoleCapture.WatchLogLine | src/main/java/com/synderis/metricsbridge/WebServer.java:235-237 | a non-blank line without "MetricsBridge" is stamped and appended within the bound; any other line changes nothing |
| WebConsole.ConsoleCapture.History | src/main/java/com/synderis/metricsbridge/WebServer.java:58-64 | the reply holds the history in order, and a total_lines equal to its length |
| WebConsole.ConsoleReply | src/main/java/com/synderis/metricsbridge/WebServer.java:68-107 | every reply has a boolean success; an error reply (success false) iff no result code came back; a parse failure reports "Error executing command: " + message; a returned code gives output and result, success iff code > 0 |
| WebConsole.BlankCommandNeverDispatched | src/main/java/com/synderis/metricsbridge/WebServer.java:74-80 | a null or blank command gets "No command provided" whatever the dispatcher would do |
| WebConsole.SuccessIffPositiveResult | src/main/java/com/synderis/metricsbridge/WebServer.java:70-106 | success iff a non-blank command reached an available server and the dispatcher returned a code > 0 |
| ConfigMigration.Wrap32 | src/main/java/com/synderis/metricsbridge/MetricsBridgeMod.java:82 | `intValue()` of an integer is its two's-complement wrap to 32 bits |
| ConfigMigration.TruncateToInt | src/main/java/com/synderis/metricsbridge/MetricsBridgeMod.java:82 | `intValue()` of a double truncates toward zero and saturates to 32 bits |
| ConfigMigration.ConfigVersion | src/main/java/com/synderis/metricsbridge/MetricsBridgeMod.java:82 | a missing version reads as 1 |
| ConfigMigration.MigrateConfig | src/main/java/com/synderis/metricsbridge/MetricsBridgeMod.java:103-139 | before 2: adds the HTTPS port, flag and SSL paths; before 3: version 3, no sharedSecret, otherwise sharedSecret kept as it was; every other key is carried over; a no-op when neither step applies |
| ConfigMigration.MigrateConfigIfNeeded | src/main/java/com/synderis/metricsbridge/MetricsBridgeMod.java:75-101 | fails iff the version is not a number; migrates iff it is below 3; the migrated config has configVersion 3 and no sharedSecret, keeps every other user key and value, holds the four HTTPS defaults when it came from version 1 and keeps the HTTPS keys when it came from version 2 |
| ConfigMigration.ReadSettings | src/main/java/com/synderis/metricsbridge/MetricsBridgeMod.java:36-42 | each missing key takes its default (8765, 8766, false, the two SSL paths); None iff a present value has the wrong type |
| ConfigMigration.EmptyConfigDefaults | src/main/java/com/synderis/metricsbridge/MetricsBridgeMod.java:37-41 | an empty config yields exactly the default settings |
| MetricsReport.Reported | src/main/java/com/synderis/metricsbridge/JsonUtil.java:29-30 | "Data unavailable" iff the value is NaN, otherwise the number |
| MetricsReport.UptimeMs | src/main/java/com/synderis/metricsbridge/JsonUtil.java:108 | ticks times 50, a multiple of 50 that always fits in a long |
| MetricsReport.RoundHalfUp | src/main/java/com/synderis/metricsbridge/JsonUtil.java:45 | `Math.round` is within half a unit of its argument |
| MetricsReport.WorldSaveName | src/main/java/com/synderis/metricsbridge/JsonUtil.java:63-89 | with a save name, nether/end get their suffix and other dimensions get the name; without one, the vanilla fallbacks or else the dimension path |
| MetricsReport.FallbackMatchesDefaultSave | src/main/java/com/synderis/metricsbridge/JsonUtil.java:63-89 | the fallback agrees with a save named "world" iff the dimension is overworld, the_nether, the_end or "world" |
| MetricsReport.PlayerDetails | src/main/java/com/synderis/metricsbridge/JsonUtil.java:49-96 | None iff the network handler is null; otherwise exactly the player's name, its ping and its location with the save name |
| MetricsReport.NonNullCount | src/main/java/com/synderis/metricsbridge/JsonUtil.java:219-221 | at most the number of entities iterated |
| MetricsReport.ByWorld | src/main/java/com/synderis/metricsbridge/JsonUtil.java:237 | the per-world map has one key per world id |
| MetricsReport.TypeCountsSumToWorldCount | src/main/java/com/synderis/metricsbridge/JsonUtil.java:219-223 | a world's per-type counts sum to its non-null entity count |
| MetricsReport.TypeCountsAreMultiplicities | src/main/java/com/synderis/metricsbridge/JsonUtil.java:222-223 | a type's count is its number of occurrences; a type is a key iff it occurs |
| MetricsReport.ColumnCountsAllWorlds | src/main/java/com/synderis/metricsbridge/JsonUtil.java:246-255 | with distinct world ids, a type's summed column is its entity count across all worlds |
| MetricsReport.WorldsSumToTotal | src/main/java/com/synderis/metricsbridge/JsonUtil.java:214-241 | with distinct world ids, the per-world counts sum to total_entities |
| MetricsReport.CountEntities | src/main/java/com/synderis/metricsbridge/JsonUtil.java:210-239 | the nested loops produce TotalEntities and ByWorld, and no world exceeds the total |
| MetricsReport.EveryWorldWithinTotal | src/main/java/com/synderis/metricsbridge/JsonUtil.java:236-237 | no world's count exceeds the total |
| MetricsReport.AddWorldCounts | src/main/java/com/synderis/metricsbridge/JsonUtil.java:251-253 | the summary gains the world's types, each entry increased by that world's count |
| MetricsReport.Summarize | src/main/java/com/synderis/metricsbridge/JsonUtil.java:246-255 | the summary's keys are the types of any world, and each entry equals the sum over worlds of that type's count |
| MetricsReport.HandlerCount | src/main/java/com/synderis/metricsbridge/JsonUtil.java:275-281 | at most the player count, and equal to it when no handler is null |
| MetricsReport.NetworkStats | src/main/java/com/synderis/metricsbridge/JsonUtil.java:265-287 | packet totals are 1000 per player with a handler; "Active" iff a player is online |
| MetricsReport.SectionKeysDisjoint | src/main/java/com/synderis/metricsbridge/JsonUtil.java:23-149 | no two sections of the document write the same key |
| MetricsReport.SamplerSection | src/main/java/com/synderis/metricsbridge/JsonUtil.java:27-30 | tps and tick_time_ms are "Data unavailable" iff NaN, otherwise the value |
| MetricsReport.PlayerSection | src/main/java/com/synderis/metricsbridge/JsonUtil.java:41-103 | a null server or player manager gives unavailable counts and an empty list; otherwise the count, the rounded mean latency (unavailable with no players), and one detail per player; None with a null handler |
| MetricsReport.ServerInfoSection | src/main/java/com/synderis/metricsbridge/JsonUtil.java:106-134 | no server: all four unavailable; otherwise uptime, version, and world time and chunks, unavailable iff there is no overworld |
| MetricsReport.EntitySection | src/main/java/com/synderis/metricsbridge/JsonUtil.java:204-257 | no server: only entity_counts unavailable; otherwise the total, the per-world counts and the type summary |
| MetricsReport.NetworkSection | src/main/java/com/synderis/metricsbridge/JsonUtil.java:259-288 | unavailable without a server or player manager; otherwise exactly the four stats keys: the connected player count, sent and received totals of 1000 per player with a network handler, and the activity level |
| MetricsReport.UnionKeepsSections | src/main/java/com/synderis/metricsbridge/JsonUtil.java:23-149 | sections with disjoint keys each survive in the merged document |
| MetricsReport.MetricsJson | src/main/java/com/synderis/metricsbridge/JsonUtil.java:23-149 | None iff a listed player has a null handler; otherwise every section holds in the document, including the entity figures and all four network stats |

## Left out

- Persistence: `loadUsers`/`saveUsers`, `ensureConfig`, `loadConfig` and the config file reads and writes are file I/O. The store, configs and history are in-memory values.
- SHA-256 with Base64, SecureRandom salts and UUID session tokens are foreign calls. The hash is a function fixed at construction; salts and tokens are parameters.
- Locks, `ConcurrentHashMap`, `CopyOnWriteArrayList` and the log-watcher thread are modelled as sequential operations.
- `System.nanoTime`, `currentTimeMillis` and `LocalTime.now` are parameters. `handle` reads the clock twice, once to check expiry and once to refresh; the model uses one reading.
- JavaStrings.LowerChar: `toLowerCase()` is modelled for ASCII only; locale and Unicode case mapping are not.
- JavaStrings.ToLower: lowers each char through LowerChar, so it has the same ASCII-only mapping.
- `User` and `SessionInfo` are mutable objects that callers could alias. The model stores them as values, so aliasing through a returned `User` is not captured.
- Session tokens passed to `ConcurrentHashMap` are never null in the model. A null would throw there.
- SessionAuth.PlayerAuthFilter.CreateSession: the `getUser` null check after a successful authentication cannot fail sequentially, so it has no branch of its own.
- TickSampling.MetricsSampler.AvgTickMs: the model computes on exact reals, so the long sum's overflow and double rounding are not modelled.
- `cpuProcessLoad`, `memory`, disk usage, `addModStatusMetrics`, `round(...)` to two decimals and player/entity x/y/z coordinates depend on the OS, Fabric or floating point. The `entity_locations_by_world` map is not built.
- MetricsReport.MetricsJson: tps and tick time are the exact values, not rounded to two decimals. The fields listed above are absent from the modelled document.
- WebConsole.ConsoleCapture.WriteOut: the echo to the original stream is not modelled. Ints outside the signed byte range passed to `write(int)` are not covered.
- The log watcher's file polling, seeking and `readLine` loop are I/O. Only its per-line filter is modelled (`WatchLogLine`).
- Javalin routing, static files, `ctx` responses and the health endpoint are external. The `ctx.json` replies are modelled as maps.
- Startup wiring: `MetricsBridgeMod` calls a 7-argument `WebServer` constructor that the 4-argument class does not have, and `JsonUtil.parseJson` does not exist. `ensureConfig` writes `disto.json`, while `loadConfig` reads `metricsbridge.json`. None of this wiring is modelled.
