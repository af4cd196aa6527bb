# Verified model of the node agent

The repository runs an embedded proxy as a node of a subscription panel. It fetches users and configuration,
limits connections, devices and speed per user, counts every user's bytes, and reports them. This project models
that logic in Dafny and proves what it keeps over whole runs.

| part | files |
|---|---|
| Byte strings, sorting, names and numbers | `Strings`, `Sorting`, `Identity`, `Panel` |
| Traffic as objects: connections, counters, reporter and its state file | `TrafficSpec`, `Stats`, `Traffic` |
| Traffic as a step machine, one atomic operation per step, with crashes | `Ledger`, `LedgerWf`, `LedgerProofs`, `LedgerTheorems`, `ConnCalls`, `Delivery`, `OverReport` |
| The limiter as an object, its specification, its indexes | `Rates`, `LimiterSpec`, `Limiter`, `LimiterIndex` |
| The limiter over runs: concurrent admission, repeated connection IDs, devices, rates, speed buckets | `Admission`, `ReusedIDs`, `AdmissionBound`, `DeviceLimit`, `Stages`, `AdmissionTightness`, `DeviceTightness`, `LimiterRuns`, `Refusals`, `Buckets` |
| The byte streams behind the change-detection hashes | `Encoding`, `Json`, `ShortIDs`, `Config`, `ConfigHash` |
| Engine, panel client and reconciliation | `EngineSpec`, `Engine`, `Client`, `SyncSpec`, `Syncer`, `SyncTheorems` |

How to read it. Objects the program updates in place are classes whose methods are proved equal to functions on
values (`Limiter.Limiter.Check` against `LimiterSpec.Check`). The theorems are about those functions. Where the
program is concurrent, a machine takes one critical section or atomic operation per event, an event that is not
enabled changes nothing, and a run is any sequence of events: every interleaving of any number of threads is a
run. Failures of the network, the disk and the proxy library, and the clock, are parameters of the events.

Most operations are pinned from two sides: one theorem says what they never do (a byte is never lost or reported
twice, a limit is never passed by more than so much, a reload is never skipped wrongly), another that they do their work
(a report delivers every recorded byte, a Check refuses only for a limit that is used up, the last 200 stays cached,
unchanged content is not reloaded).

What holds only in part, and how the model says so:

- The device limit L is not a bound of L on a user's addresses, because reported addresses stay allowed for one
  report. With k connections between Check and Register and R < L remote addresses the exact bound is 2L + k - 2 beyond
  the remote ones (`DeviceLimit.DeviceBound`, `DeviceTightness.DeviceBoundIsTight`); with R >= L it is none beyond them
  (`DeviceLimit.RemoteFullBound`).
- The configured rate is not a bound for sliding windows. The exact bound is twice the rate
  (`Rates.SlidingWindowBound`, `Rates.SlidingWindowBoundIsTight`). In the other direction an attempt is refused only when
  the rate itself is used up within a sliding window (`Rates.RefusedOnlyWhenFull`); whether it is refused then depends on
  when the counter's window began.
- Check and Register are separate critical sections: with k connections in between, a connection limit is exceeded by up
  to k - 1, and that is reached (`AdmissionBound.AdmissionBound`, `AdmissionTightness.AdmissionBoundIsTight`).
- Connection IDs restart with every box while older connections are open. In the machine of `Admission` connections go
  by tags, and their IDs may repeat. The reference counts stay exact regardless (`Admission.LiveIPsAlwaysExact`), and so
  does the device bound. The per-user and per-address maps stay complete exactly when no connection is registered under
  an ID its map holds (`ReusedIDs.MapsCompleteIffFreshIDs`); the connection limits need that. Full agreement of the
  indexes is stated for one tracker (`Admission.IndexesAlwaysAgree`).
- A crash between an acknowledged push and the removal of the state file reports the file's entries twice
  (`LedgerTheorems.CrashInWindowOverReports`), and there are runs that end with twice as many bytes acknowledged as moved
  (`OverReport.AckedExceedsCounted`); nothing else over-reports (`LedgerTheorems.CrashSafety`).
- The comment in `hashConfig` says separators keep fields from colliding. That is true of the header only: short IDs
  and JSON values collide (`ConfigHash.ShortIDsCollide`, `Json.TextAndNumberCollide`), and so do user lists with a
  `|` in a UUID (`Encoding.BarInUuidCollides`). The theorems state what excludes it.
- Stored speed buckets do not always run at the current limit. A bucket made from a limit read before an update has the
  old rate (`Buckets.StaleBucketIsHandedOut`). A user list that repeats an ID with another limit keeps the old bucket
  beside the new limit, and every later list with the new limit goes on keeping it (`Buckets.RepeatedIDKeepsOldBucket`).
  These two events are the only ones, and `Buckets.RatesFollowIff` says exactly when neither does harm; a list is
  harmless in every reachable state exactly when its records of one ID agree on positive limits
  (`Buckets.UpdateSafeIffSettled`).
- After a failed reload whose rollback failed too, nothing runs, and reconciliation does not restart it as long as the
  panel serves what was stored (`SyncTheorems.RunningAfterSyncIff`, `SyncTheorems.DownAndSkipped`).
- `Engine.Start` does not look at a running instance (`EngineSpec.StartSoundIff`); the program calls it once.

## Model

| member | source | states |
|---|---|---|
| LedgerTheorems.Conservation | singbox/tracker.go:152-202 | In every run of any number of threads, the collector, the reporter, crashes and restarts: for each user and direction, bytes moved plus bytes restored equal the bytes in buffers, threads' hands, reachable records and the reporter plus those acknowledged, trimmed and lost; no record is orphaned by the Load/LoadOrStore race |
| Delivery.ReportDelivers | singbox/stats.go:92-118 | However connection threads run between its steps, a report that visits every name known at its start pushes at least all bytes pending and recorded then, for every user and both directions |
| Delivery.CollectionDelivers | singbox/stats.go:92-118 | With no other event between its steps a report pushes exactly the pending plus the recorded bytes, for every user and both directions, a user being in the payload exactly when it has bytes; every record with an owner is then empty and every other one unchanged |
| Delivery.ReportAcknowledges | core/traffic.go:67-117 | A report whose push succeeds adds exactly those bytes to what is acknowledged, in both directions, and leaves nothing pending and no file |
| Delivery.PersistedIsDelivered | core/traffic.go:158-215 | After a failed report that is persisted, a crash and a restart, the next report acknowledges exactly the entries the limit kept |
| Delivery.RestartRestores | core/traffic.go:50-65 | A process starts with the file's entries cut to the limit, or with nothing when there is no file or it cannot be read |
| Delivery.FileStepFails | core/traffic.go:187-227 | A write, rename or removal that fails ends the report and leaves file and pending bytes as they were |
| LedgerProofs.StepThreadConserves | singbox/stats.go:37-61 | Each atomic step of a thread in Read, Write, Close or AddTraffic moves bytes and neither creates nor loses any |
| LedgerTheorems.AckedAtMostCountedPlusDebt | core/traffic.go:85-102 | Acknowledged bytes never exceed counted bytes by more than the debt of crashes on a stale file |
| LedgerTheorems.DebtOfOneEvent | core/traffic.go:158-227 | The debt grows at a crash on a stale file only, by exactly the user's persisted entry |
| LedgerTheorems.CrashSafety | core/traffic.go:85-102 | If file removal succeeds and no crash falls between an acknowledged push and the end of its Report, acknowledged bytes never exceed counted bytes, whatever else fails |
| LedgerTheorems.CrashInWindowOverReports | core/traffic.go:94-102 | From any state inside that window, a crash makes the next report acknowledge exactly the persisted entry again, with nothing counted |
| OverReport.AckedExceedsCounted | core/traffic.go:67-117 | For every user ID, each direction and every amount n of at least 1 MB there is a run from an empty process that moves n bytes and ends with 2n acknowledged: a failed push that is persisted, an acknowledged one, and a crash before the removal |
| LedgerTheorems.FullBufferIsAboutToFlush | singbox/tracker.go:152-178 | In every run a buffer at or above 1 MB has a thread about to swap it |
| LedgerTheorems.QuietBuffers | singbox/tracker.go:188-202 | At rest every buffer is below 1 MB, and a closed connection's buffers hold only what moved after Close swapped them |
| LedgerTheorems.AddTrafficAlone | singbox/stats.go:37-61 | An AddTraffic call nobody interrupts credits its amounts to its user in both directions and changes no other total, whether or not a record existed |
| ConnCalls.MoveAlone | singbox/tracker.go:152-178 | A Read or Write nobody interrupts: below 1 MB the bytes stay in the buffer; from 1 MB on the whole buffer is credited to the user and left empty; the other direction and all other connections keep theirs |
| ConnCalls.CloseAlone | singbox/tracker.go:188-202 | A first Close nobody interrupts credits both buffers to the user and empties them; a later one does nothing |
| LedgerWf.NextWf | singbox/stats.go:37-118 | Every event keeps records reachable under their own name and threads holding the record the map leads to |
| Stats.StatsTracker.AddTraffic | singbox/stats.go:37-61 | The user's totals grow by the two amounts; an empty name and every other user are untouched |
| Stats.StatsTracker.CollectTraffic | singbox/stats.go:92-118 | Exactly the parsable names with bytes are returned, each once with its totals; parsable names are reset and unparsable ones kept |
| Stats.CreditIsReported | singbox/stats.go:37-118 | What AddTraffic counts under a user's name is reported under its ID, upload as upload and download as download, with what was there before |
| Stats.TrackedConn.Read | singbox/tracker.go:152-164 | Bytes read are held by the buffer or the user's record; the buffer ends below the threshold, and empty when it reached it; nobody else's record changes |
| Stats.TrackedConn.Write | singbox/tracker.go:166-178 | The same for bytes written |
| Stats.TrackedConn.Close | singbox/tracker.go:188-202 | The first Close empties both buffers into the user's record; later ones change nothing |
| TrafficSpec.PayloadAt | core/traffic.go:119-148 | A payload holds every pending and collected byte, user by user, keyed by its own UID |
| TrafficSpec.PayloadHolds | core/traffic.go:119-148 | A user is in the payload exactly when it has pending or collected bytes |
| TrafficSpec.TrimSize | core/traffic.go:229-247 | Trimming keeps min(size, limit) users, and everything when it fits |
| TrafficSpec.TrimKeepsLargest | core/traffic.go:229-247 | No user is dropped while one with a smaller UID is kept, and a kept user keeps its amounts |
| Traffic.TrafficReporter.constructor | core/traffic.go:50-65 | A new reporter restores the trimmed content of a readable state file; a corrupt file is moved aside; a limit of zero or less means 10000 |
| Traffic.TrafficReporter.LoadPending | core/traffic.go:158-185 | As above, for a missing, corrupt or saved file |
| Traffic.TrafficReporter.BuildPushPayload | core/traffic.go:119-148 | The merge loop lists the payload in increasing order of UID, users without bytes left out |
| Traffic.TrafficReporter.BufferPending | core/traffic.go:150-156 | Pending is replaced by the unsent data, trimmed |
| Traffic.TrafficReporter.TrimPending | core/traffic.go:229-247 | The deletion loop leaves exactly the largest UIDs |
| Traffic.TrafficReporter.PersistPending | core/traffic.go:187-215 | The file changes only if every step succeeds, and then lists the pending map |
| Traffic.TrafficReporter.ClearPersistedPending | core/traffic.go:217-227 | The file is gone when removal succeeds; a missing file is no error |
| Traffic.TrafficReporter.Report | core/traffic.go:67-117 | One report sends pending and fresh bytes merged; on success pending is empty and the file removed, on failure the trimmed data is pending and persisted; nothing is sent when there is nothing |
| Traffic.PersistRestore | core/traffic.go:158-215 | Loading what was written gives the same pending map when it fits the limit, else the largest UIDs with their amounts |
| Traffic.ReportKeepsBytes | core/traffic.go:67-156 | Over a failed report a user's bytes are all kept, or dropped together with a UID below every kept one |
| Identity.UserNameRoundTrip | singbox/stats.go:126-139 | parseUserID of limiterUserName(id) is id for every id above zero and an error otherwise |
| Identity.UserNamesDistinct | core/limiter.go:344-346 | Two IDs have the same name exactly when they are equal |
| Identity.ParseUserIDNotInjective | singbox/stats.go:126-139 | Other spellings of a number parse to the same ID |
| Identity.ConnIDsDistinct | singbox/tracker.go:127-138 | Base-36 connection IDs of one tracker are equal exactly when the sequence numbers are, up to 64-bit wrap-around |
| Rates.SlidingWindowBound | core/limiter.go:174-193 | In any run with nondecreasing times, clean-ups included, every closed interval as long as the window holds at most 2 * limit passes for a key |
| Rates.SlidingWindowBoundIsTight | core/limiter.go:174-193 | For every limit there is a run with exactly 2 * limit |
| Rates.RefusedOnlyWhenFull | core/limiter.go:174-193 | The converse, over every run with nondecreasing times: an attempt is refused only if at least limit attempts for its key passed less than a window before |
| Rates.IdleKeyPasses | core/limiter.go:174-193 | An attempt for a key none of whose attempts passed within the last window passes |
| Rates.SweepExact | core/limiter.go:92-103 | The clean-up drops exactly the counters idle for more than two windows and leaves the others as they are |
| Rates.SweepIsInvisible | core/limiter.go:92-103 | Dropping counters idle for two windows keeps the indexes equal up to counters that any later check would reset |
| Rates.SameDecision | core/limiter.go:174-193 | Indexes that differ by such counters decide alike and stay so |
| LimiterRuns.RateBound | core/limiter.go:216-230 | The same bound for allowed Checks of one user or one address, over any run of limiter operations |
| LimiterRuns.CleanUpIsInvisible | core/limiter.go:86-119 | For any run with nondecreasing times, a limiter that sweeps in UpdateUsers and one that does not return the same decision at every Check |
| Refusals.RefusedForCause | core/limiter.go:195-253 | Over every run of limiter operations with a clock that never goes back, every refusal has the cause its reason names: no or an unknown user; at least limit Checks of the user, or address, past the rate less than a window ago; limit connections in the user's, or address's, map; a new address while one of the four device counts has reached the limit |
| Refusals.AllowedIff | core/limiter.go:195-253 | Where the two rates are not used up, a Check is allowed exactly when its user is known and none of the other limits is used up |
| Refusals.FirstConnectionAllowed | core/limiter.go:195-253 | The first connection of a listed user is allowed, whatever the limits are |
| Refusals.DevicesFullIff | core/limiter.go:239-250 | The device limit refuses exactly the addresses that neither live connections, nor the last report, nor the panel knows, while any of the four counts has reached it |
| Refusals.HoldsAreLive | core/limiter.go:232-237 | With exact indexes a connection limit is used up exactly when that many connections of the user, or from the address, are live |
| Refusals.PanelListCounts | core/limiter.go:121-139 | An address the panel lists is not refused for the device limit, and the panel's own count, repeats and blanks included, refuses new ones |
| Refusals.PanelSetExact | core/limiter.go:412-425 | The addresses kept for a user are exactly the listed ones, trimmed and not blank; nothing is kept of a user no longer listed |
| Refusals.TabledIff | core/limiter.go:86-119 | A name is tabled exactly when a listed user has it, and leads to a listed user of that name |
| Limiter.Limiter.CheckCPS | core/limiter.go:174-193 | The window counter follows its specification, of which `Rates.SlidingWindowBound` and `Rates.RefusedOnlyWhenFull` say what it lets pass and what it refuses |
| Limiter.Limiter.Check | core/limiter.go:195-253 | Decision, counters and maps are those of the specification, including the empty maps Check leaves behind; `Refusals.RefusedForCause` and `Refusals.AllowedIff` say when it refuses and when it allows |
| Limiter.Limiter.Register | core/limiter.go:255-275 | The three indexes after a registration |
| Limiter.Limiter.Unregister | core/limiter.go:277-312 | The three indexes after a close; empty maps are removed |
| Limiter.Limiter.UpdateUsers | core/limiter.go:86-119 | The new tables and swept counters; a bucket is kept exactly when some listed record of its ID carries the limit recorded before; rates that were current stay so exactly when the last record of each such ID carries it too |
| Limiter.Limiter.UpdateAliveList | core/limiter.go:121-139 | The remote addresses and the panel's counts are replaced |
| Limiter.Limiter.BuildAlivePayload | core/limiter.go:314-342 | The payload lists, for each online known user, the distinct live addresses in order, and nobody else |
| Limiter.Limiter.CurrentDeviceCount | core/limiter.go:382-396 | The count is the largest of four: live addresses, remote addresses, the panel's own count, and last reported addresses |
| Limiter.Limiter.UserSpeedBucket | core/limiter.go:141-172 | An existing bucket is returned as it is, a missing one made at the current limit, none without a limit |
| Limiter.Limiter.ActiveConnections | core/limiter.go:428-438 | The snapshot's sum is the number of registered user and connection pairs |
| Limiter.UserTableAt | core/limiter.go:86-119 | A user is tabled under its own name; of a repeated ID the last one counts |
| Limiter.RateOfLimit | core/limiter.go:398-403 | A limit of m megabits is a rate of m * 2^20 / 8 bytes per second |
| LimiterIndex.RegisterAgrees | core/limiter.go:255-275 | Registering a fresh connection ID keeps all three indexes exactly those of the live connections |
| LimiterIndex.UnregisterAgrees | core/limiter.go:277-312 | So does unregistering a live connection |
| LimiterIndex.DecideAgrees | core/limiter.go:195-253 | So does Check, although it leaves empty maps |
| LimiterIndex.LiveIPsExact | core/limiter.go:357-368 | A user's live addresses are exactly those of its live connections |
| LimiterIndex.OnlineExact | core/limiter.go:314-342 | A user is reported exactly when it is known and has a live connection with an address |
| LimiterIndex.ActiveSumExact | core/limiter.go:428-438 | The snapshot's sum equals the number of live connections |
| LimiterIndex.RegisterGrowsIffFresh | core/limiter.go:255-275 | A registration adds a connection to the user's map exactly when its ID is not in it: a reused ID replaces one |
| LimiterIndex.RegisterCountsFollow | core/limiter.go:255-275 | Reference counts follow the multiset of registered user and address pairs even when IDs repeat |
| LimiterIndex.UnregisterCountsFollow | core/limiter.go:277-312 | And the multiset less one at a close |
| Admission.LiveIPsAlwaysExact | core/limiter.go:255-312 | In every reachable state of any interleaving, with connection IDs repeated or not, every reference count is the number of live connections of that user and address |
| Admission.IndexesAlwaysAgree | singbox/tracker.go:55-79 | With one tracker (IDs in use are distinct) all three indexes agree with the live connections in every reachable state |
| ReusedIDs.MapsCompleteIffFreshIDs | singbox/engine.go:149 | Over every run: the per-user (per-address) maps count all live connections in every state exactly when no connection is registered under an ID its map holds |
| AdmissionBound.AdmissionBound | singbox/tracker.go:55-79 | With at most k connections between Check and Register, and none registered under an ID its map holds, the live and admitted connections of a user, and of an address, never exceed limit + k - 1 |
| AdmissionBound.LimitHolds | core/limiter.go:232-237 | One tracker and one connection at a time: the configured limit itself holds, per user and per address |
| AdmissionTightness.AdmissionBoundIsTight | singbox/tracker.go:55-79 | For every limit and k there is a run of one tracker that ends with exactly limit + k - 1 connections of one user, and of one address, registered |
| DeviceLimit.DeviceBound | core/limiter.go:239-250 | Over connect, close, reports and updates, with connection IDs repeated or not, live, last reported and remote addresses together number at most 2L + k - 2 plus the remote ones |
| DeviceLimit.RemoteFullBound | core/limiter.go:239-250 | With L or more remote addresses, live and last reported addresses are among the remote ones |
| DeviceLimit.SequentialDeviceBound | core/limiter.go:382-396 | Check and Register taken together: at most 2L - 1 live addresses |
| DeviceTightness.DeviceBoundIsTight | core/limiter.go:314-342 | For every L, every k and every list of fewer than L remote addresses there is a run within the hypotheses of the bound that ends on exactly 2L + k - 2 addresses beyond the remote ones |
| Buckets.OneBucketPerName | core/limiter.go:141-172 | However callers interleave, all buckets handed out for one name between two updates are the same one, and other names' are others |
| Buckets.BucketAlone | core/limiter.go:141-172 | A caller nobody interrupts gets a bucket exactly when its user has a limit: the stored one, else a new one at that limit |
| Buckets.UpdateKeeps | core/limiter.go:105-118 | A user listed with the limit it has keeps its bucket; a user no longer listed loses it |
| Buckets.InstalledRate | core/limiter.go:160-172 | A bucket made by a caller has the current rate exactly when the limit it read has not changed since |
| Buckets.RatesFollowIff | core/limiter.go:105-172 | Over every run of any interleaving: all stored buckets run at the current limit in every state exactly when each new bucket is made from a limit that is still current and each update gives the limits of the buckets it keeps to the last record of their ID |
| Buckets.CalmFromStart | core/limiter.go:105-118 | The same as conditions on the events: lists whose records of one ID agree on positive limits, and no update of a limit that a caller has read and not used, keep every stored bucket at the current limit |
| Buckets.UpdateSafeIffSettled | core/limiter.go:105-118 | A user list keeps rates current from every reachable state exactly when its records of one ID agree on positive limits |
| Buckets.RepeatedIDKeepsOldBucket | core/limiter.go:111-117 | A run in which a list that repeats an ID keeps the old bucket, and later lists and callers go on with it |
| Buckets.StaleBucketIsHandedOut | core/limiter.go:141-172 | A run in which a bucket at a limit read before an update is stored and handed out |
| Encoding.HashUsersByLoop | core/sync.go:222-258 | The hashing loop writes the stream of the sorted users |
| Encoding.DecodeUser | core/sync.go:243-254 | A user record is read back off the front of any stream |
| Encoding.EqualUserHashes | core/sync.go:222-258 | Equal hashes mean equal multisets of ID, speed limit and UUID, for UUIDs without a bar, in whatever order either sort leaves records of one ID |
| Encoding.UserHashExact | core/sync.go:222-258 | For lists without repeated IDs the converse holds too: the hash changes exactly when the covered users do, whatever the order |
| Encoding.OrderDoesNotMatter | core/sync.go:234-236 | Any sorted permutation gives the same stream, however the sort breaks ties |
| Encoding.BarInUuidCollides | core/sync.go:249-253 | One user whose UUID holds a bar can hash like two users |
| Json.HashGenericValue | core/sync.go:336-385 | The recursive writer, taking keys in any order, appends the canonical stream |
| Json.MemberOrderDoesNotMatter | core/sync.go:366-382 | Object texts that list the same members in another order hash alike (section 4 of RFC 8259) |
| Json.UniquelyDecodable | core/sync.go:336-385 | Among values of one shape with NUL-free texts and keys, enc(v)+r = enc(w)+s implies v = w and r = s |
| Json.TextAndNumberCollide | core/sync.go:348-359 | A text and a number share a stream |
| ShortIDs.CleanShortIDs | panel/client.go:393-402 | The loop keeps the trimmed non-blank entries in order |
| ShortIDs.CleanStays | panel/client.go:393-402 | A clean list is unchanged |
| Strings.TrimPadded | panel/client.go:393-402 | Trimming removes the white space around a text and nothing of the text |
| Strings.CutIsBlank | panel/client.go:393-402 | What trimming removes is white space at the two ends |
| ShortIDs.CleanAppend | panel/client.go:393-402 | Lists are cleaned entry by entry, in order |
| ShortIDs.CleanOne | panel/client.go:393-402 | A padded entry loses its padding; a blank one is dropped |
| ShortIDs.SplitShortIDsExact | panel/client.go:386-391 | A text is read piece by piece between its commas, each piece cleaned |
| ShortIDs.SingleShortID | panel/client.go:84-92 | Without a list, the single short ID counts, without its padding, unless it is blank |
| ShortIDs.SplitShortIDsRoundTrip | panel/client.go:386-391 | A comma-joined list of clean short IDs is read back as that list |
| ShortIDs.DecodedListIsClean | panel/client.go:54-92 | Whatever text arrives, the list holds trimmed non-blank entries only, and is what the text lists when it lists anything; its head is then the single short ID |
| Config.BuildsIff | singbox/config.go:31-67 | A configuration is accepted exactly when it is there, protocol and network are blank or supported, server name and private key are not blank, the port text means a port, and address and routes parse |
| Config.FirstFault | singbox/config.go:31-67 | A rejected configuration is rejected for its first fault in the order of the checks, with the text or number at fault |
| Config.BuildCarries | singbox/config.go:48-145 | An accepted configuration reaches the options field by field: names and keys, ports, address, common flow or its default, short IDs, routes, and the site's settings |
| Config.LowerExact | singbox/config.go:149-157 | A text reads as a lower-case word exactly when it is that word in any case |
| Config.PortTextsExact | singbox/config.go:334-347 | The accepted port texts: a blank one means 443, and any other one is the decimal text of a port from 1 to 65535 after any zeros and an optional plus sign |
| Config.WrittenPortIsRead | singbox/config.go:334-347 | Every valid port is read back from its decimal text |
| Config.UsersTraceBack | singbox/config.go:69-77 | A build has the panel's users in order; each name leads parseUserID back to the user's ID, and names are equal exactly when IDs are |
| Config.BuildUsers | singbox/config.go:69-77 | One inbound user per panel user, in order, named by its ID, with the common flow |
| ConfigHash.HashConfigByWriter | core/sync.go:260-333 | The writer appends header, sorted short IDs, intervals and routes in the order of the stream; `ConfigHash.ConfigHashExact` says what that hash tells apart and what it does not |
| ConfigHash.FieldsDecodable | core/sync.go:267-299 | A run of NUL-terminated texts and 8-byte numbers is read back with any suffix |
| ConfigHash.ShortIDsDecodable | core/sync.go:301-314 | The short-ID bytes tell the list up to order once all IDs have one length |
| ConfigHash.EqualConfigHashes | core/sync.go:260-333 | Equal streams mean the same header, intervals, short IDs up to order and JSON value of the routes, when the routes are one text, or two texts of one value, or plain values of one shape beside equally many short IDs |
| ConfigHash.SameContentSameHash | core/sync.go:260-333 | The converse: the same header and intervals, the same short IDs in any order, and one routes text or two texts of one JSON value have one hash |
| ConfigHash.ConfigHashExact | core/sync.go:260-333 | For configurations as above the hash changes exactly when that content does |
| ConfigHash.ShortIDsCollide | core/sync.go:301-314 | Two lists of different lengths share a hash, whatever the rest |
| ConfigHash.SkipIsSound | core/sync.go:116-126 | When neither hash changed, BuildConfig gives the same error, or the same options up to the order of users and short IDs, also when the routes are written again with members in another order |
| EngineSpec.ReloadSound | singbox/engine.go:93-130 | Whatever fails: at most one box runs, it is the instance, built from the stored triple; a failed build changes nothing; the new triple is stored exactly on success |
| EngineSpec.ReloadOutcome | singbox/engine.go:93-130 | Which end a reload has, both ways: a rollback succeeds exactly when something was stored and the library plays along |
| EngineSpec.StartSoundIff | singbox/engine.go:72-91 | Start keeps at most one box running exactly when none ran before, or the options do not build, or the library does not create or start the box |
| EngineSpec.StartOutcome | singbox/engine.go:72-91 | Start succeeds exactly when the options build and the library creates and starts the box; it then runs a new box of them and stores the triple, else what runs and what is stored stay |
| EngineSpec.CloseSound | singbox/engine.go:180-193 | After Close no box runs, nothing is stored, and no later reload can roll back to what was |
| EngineSpec.AlwaysSound | singbox/engine.go:72-218 | In every sequence of calls that starts only when nothing runs, at most one box runs and it is the instance |
| Engine.Engine.CreateBox | singbox/engine.go:132-153 | A box is added only if the options build and the library accepts them |
| Engine.Engine.Start | singbox/engine.go:72-91 | The object follows the specified start |
| Engine.Engine.ReloadUsers | singbox/engine.go:93-130 | The object follows the specified reload with rollback |
| Engine.Engine.RestorePreviousInstance | singbox/engine.go:195-218 | The object follows the specified rollback |
| Engine.Engine.Close | singbox/engine.go:180-193 | The object follows the specified close |
| Client.PanelClient.GetUsers | panel/client.go:182-208 | A 200 replaces value and tag, a 304 returns the cached value, a failure or bad body changes nothing; `Client.CacheIsLastGood` says what the cache then holds over any history |
| Client.PanelClient.GetNodeConfig | panel/client.go:161-180 | The same for the configuration |
| Client.CacheIsLastGood | panel/client.go:161-208 | Over every history: the cached tag and content are those of the last 200 that was read, whatever failures, bad bodies and 304s came after it |
| Client.NotModifiedReturnsLastGood | panel/client.go:325-339 | So a panel that still serves that tag may answer 304, and the fetch then returns the content of that 200 |
| Client.FetchesAreCurrent | panel/client.go:325-339 | With a panel that answers 304 for the current tag only and whose tags identify content (sections 13.1.2 and 15.4.5 of RFC 9110), every fetch that succeeds returns what the panel serves at that moment |
| Syncer.UserSyncer.constructor | core/sync.go:56-82 | The initial hashes are those of the started users and configuration |
| Syncer.UserSyncer.Sync | core/sync.go:88-169 | The object follows the specified reconciliation step |
| SyncSpec.SyncKeepsInStep | core/sync.go:88-169 | Whatever fails, the stored hashes stay those of what the engine has stored; a reload is tried exactly when what is seen differs from it; the limiter gets the users seen even when the reload fails |
| SyncSpec.StartedInStep | core/node.go:86-109 | A node that has started is in that state |
| SyncSpec.AlwaysInStep | core/sync.go:74-169 | So is every state of every run |
| SyncSpec.SeesThePanel | core/sync.go:95-113 | In every run, a Sync whose fetches succeed sees what the panel serves now, two 304 answers included |
| SyncSpec.Reconciles | core/sync.go:116-157 | In every run, such a Sync tries a reload exactly when what the panel serves differs by hash from what the engine has stored; a failed reload is tried again |
| SyncTheorems.CaughtUpUnlessFailed | core/sync.go:116-169 | After a Sync that was not a failed reload, the engine's stored state builds what the panel's state builds, up to order |
| SyncTheorems.SameContentIsUnchanged | core/sync.go:116-126 | No reload without a change: a Sync that sees the stored users and content, in whatever order users and short IDs are listed and however the routes are written, leaves the engine alone |
| SyncTheorems.RunningAfterSyncIff | core/sync.go:119-126 | When nothing fails, a box runs after a Sync exactly when one ran before or the panel's state differs from the stored one |
| SyncTheorems.DownAndSkipped | singbox/engine.go:109-120 | Two Syncs that leave a node down and skipped |

## Left out

- Strings are one char per byte; `TrimSpace`, case folding and lower-casing cover ASCII only.
- Byte totals are unbounded: int64 overflow of counters is not modelled.
- SHA-256, cut to 8 bytes and printed, is taken as injective on streams: a digest is its stream.
- JSON texts are taken as parsed: records, lists and objects arrive as values, and so do the state file's entries. Negative totals in an edited state file are not modelled.
- The order in which `sort.Slice` leaves users of one ID is fixed in `Encoding.HashUsers`. `Encoding.EqualUserHashes` holds for every such order; `Encoding.OrderDoesNotMatter` says that lists without repeated IDs have one.
- HTTP transport, retries and back-off: a fetch ends in an error, a 304, a 200 or a bad body, and a push in an acknowledgement or an error. A panel that processes a push it does not acknowledge is not modelled.
- sing-box itself, token-bucket internals, `net.Conn`: a box is created, started and closed, and a bucket has an identity and a rate.
- A node without a limiter: the node always sets one, and so does `Syncer.UserSyncer`.
- Route and DNS tables, legacy route rules and the Google IPv6 rule: parsing routes and merging defaults is one parameter of `Config.BuildConfig`, and so is address parsing.
- `CollectTraffic` never fails in the program, so neither does it here; the registry of online connections in the tracker, last-report fields, sync snapshots, timestamps and logging are left out.
- The temporary state file is part of the step machine; the reporter object has the final file only, since nothing reads the temporary one.
- The limiter callback in `trackedConn.Close` and the limiter's own close event are one event of `Admission`; the `Stats` class has the counters only.
- `Report` and the refresh of the alive list inside `Sync` are not part of `SyncSpec.Sync`: they touch neither hashes nor the engine.
- The ledger machine has no reload event: the counters belong to the engine and survive it, and closing the old box is a Close event of its connections.
- A Close of the engine that races with a reload, several nodes in one process, and the environment variables are left out.
- Engine.Engine.RestorePreviousInstance: calls `Start` where the program repeats the same statements.
- Syncer.UserSyncer.constructor: stands for `NewUserSyncer`, `SetInitialHash` and `SetLimiter` together, as the node calls them.
- ConfigHash.ShortIDsDecodable: one direction; lists of mixed lengths may or may not collide, and the bytes alone do not tell.
- ConfigHash.SkipIsSound: for routes written in another way it takes the route parser to depend on the JSON value alone.
- Json.UniquelyDecodable: values of different shapes may or may not collide; the shape is a condition on the values, not on the stream.
