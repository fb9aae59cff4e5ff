# Verified models of the fork's stateful algorithms

This project models, in Dafny 4.11, the self-contained stateful algorithms of this openpilot fork and proves
what they are for: properties of every input, every run and every interleaving. `dafny verify dfyconfig.toml`
checks all of it. Modules that follow a class of the program have a class with the same fields whose methods
are proved equal, step by step, to functions on values; the theorems are lemmas about those functions.

| modules | what they model |
|---|---|
| `ConnectUrl`, `ConnectBackend`, `CustomCache`, `ConnectRuns`, `ConnectTheorems`, `ConnectSwitch` | the connect-backend switch: one parameter write per step, power loss after any of them, reboots, selector changes, registrations |
| `DmConfig`, `RoadVerdict`, `MonitorModel`, `DriverMonitor`, `MonitorTheorems`, `MonitorFrames`, `MonitorHistory`, `MonitorDrive` | driver monitoring: configuration, regimes, the shared `awareness` field refining three independent counters, alerts, resets, mode and lockout over whole drives, by file, selector and road |
| `GoodSize`, `PeakInterp`, `NpQueue` | the FFT size search, the sub-sample peak and the shifting queue of the localizer |
| `BlockAverage`, `RunningStat`, `MovingAverage`, `FrequencyTracker` (over `Sums`, `Positions`, `Extremes`) | streaming statistics against the whole history of their samples |
| `FileChunker`, `ChunkRoundTrip`, `OutOfBand` (over `Decimal`) | splitting files into chunks, the stream over them, and out-of-band pickle framing on top |
| `CurveLogger`, `CurveCoverage`, `CurveSessions` | the curve logger's ring with absolute row numbers, its curve automaton and its waiting list |
| `ChangeChannel`, `ChannelRecords`, `AccDropLogger`, `DropoutRuns`, `DropoutRecords` (over `Rounding`) | change-only channels, records built from them, the rate-limited event logger, and both together |
| `FlightRecorder`, `FlightTheorems`, `FlightTriggers` | the steering flight recorder: 100 Hz maxima, 5 Hz samples, episodes with failing publishes |
| `LogNames`, `LogRotation` | log rotation under a file cap and a byte cap |
| `AsyncParams` | the on-demand asynchronous parameter writer, as interleavings |

## Where the code and its words disagree

Each of these is a lemma with a concrete input, next to one saying exactly when the code does meet the words.

- `reconcile_backend` calls its short-circuit unreachable in clean runs (lines 222-226 and 250-256). It fires in
  clean runs, exactly when leaving Offline for the backend that issued the identity
  (`ConnectTheorems.ShortCircuitIsReachable`, `ConnectTheorems.ShortCircuitIff`); firing there is harmless.
- `launch_env.sh` says its URL validation is identical to Python's. They differ on a value padded right before its
  trailing slashes, such as `https://h /`, and on values with NUL bytes, which the shell drops, such as a host that is
  a NUL (`ConnectUrl.ValidatorsCanDisagree`, `ConnectUrl.ValidatorsCanDisagreeOnNul`, `ConnectUrl.ValidatorsAgreeIff`).
- The queue of the asynchronous writer can be left non-empty at rest, so the assertion in the destructor can fail
  (`AsyncParams.StrandedIsReachable`, `AsyncParams.StrandedIff`); the next put carries the item out.
- `chunk_file` rejects the targets that `get_chunk_targets` computes for an empty file (`ChunkRoundTrip.TargetsSufficeIff`).
- The curve logger argues that a waiting curve needs at most 48 s of a 51 s ring. Rows may come 45 ms apart, when
  1020 rows span less than 46 s. The conclusion holds all the same: a curve and its wait are at most 667 + 178 rows
  (`CurveLogger.CutOutIsExact`), and its pre-roll fits too (`CurveLogger.PreRollIsHeld`).
- The flight recorder tags an override that was in progress when an episode armed. There is none: a trigger is never
  within 1 s after a sample with the wheel pressed (`FlightTheorems.TriggersAreUnassisted`), so the tag says exactly
  whether the wheel was pressed on a later sample of the episode (`FlightTheorems.EventsAreEpisodes`).
- The flight recorder has a trigger threshold of 8 degrees of angle error. It never decides: an error that large is above
  the 2.5 degrees that already count as saturation, engaged or not (`FlightTriggers.EightDegreesNeverDecide`,
  `FlightTriggers.TriggersIff`).

## Model

| member | source | states |
|---|---|---|
| ConnectUrl.PnwIsTheDefault | common/connect_backend.py:108-119 | the effective backend is PNW exactly when the index is not a number in 1..3, or is 2 with an unusable URL |
| ConnectUrl.PythonImpliesShell | common/connect_backend.py:74-95 | a stored URL that Python accepts is accepted by the shell side too, exactly unless dropping its NULs leaves no host or white space at the end |
| ConnectUrl.ShellOnlyIsPadded | launch_env.sh:34-56 | a value the shell accepts is accepted by Python exactly unless it is padded right before its trailing slashes or a NUL splits its scheme |
| ConnectUrl.ValidatorsAgreeIff | launch_env.sh:34-56 | the exact values, NULs included, on which the two validators agree; without NULs, all but the padded ones |
| ConnectUrl.ValidatorsCanDisagree | launch_env.sh:34-56 | a concrete value that only the shell accepts |
| ConnectUrl.ValidatorsCanDisagreeOnNul | launch_env.sh:34-56 | a concrete value that only Python accepts |
| ConnectBackend.Params.CacheWrite | common/connect_backend.py:149-170 | the write, if any, that stashes an identity: drop, reinsert at the end, evict from the front down to 8 |
| ConnectBackend.Params.KeepOrHeal | common/connect_backend.py:235-248 | with a matching token the code makes exactly the writes of the step machine: keep the cache fresh, or finish a restore |
| ConnectBackend.Params.Switch | common/connect_backend.py:262-287 | a switch makes exactly the writes of the step machine, in order |
| ConnectBackend.Params.ReconcileBackend | common/connect_backend.py:228-287 | the code makes exactly the writes of the one-write-per-step machine, in that order, and returns the effective backend, whose token is then active; going offline leaves DongleId alone |
| ConnectBackend.BootWrites | common/connect_backend.py:181-220 | the documented write order of each branch: stash, clear, commit, restore, and the state it ends in |
| CustomCache.CapCommutes | common/connect_backend.py:160-169 | touching the capped dictionary is the capped form of touching an uncapped one, so evictions never compound |
| CustomCache.HeldIff | common/connect_backend.py:61-67 | a slot once written holds its last identity exactly while fewer than 8 other slots were written since |
| CustomCache.NeverWritten | common/connect_backend.py:136-146 | a slot never written reads as absent |
| ConnectRuns.EventKeeps | common/connect_backend.py:173-287 | the crash-safety invariant is kept by every write, reboot, selector change and registration outcome |
| ConnectRuns.RegisterKeeps | system/athena/registration.py:28-111 | registration, which issues an identity only after a completed non-offline reconcile left it unset, keeps the invariant |
| ConnectRuns.RunKeeps | common/connect_backend.py:173-287 | the invariant holds in every state of every run |
| ConnectTheorems.IdentitiesStayHome | common/connect_backend.py:181-220 | in every state of every run each slot holds only an identity its own backend issued, a registered DongleId under a real backend is that backend's, and the Custom cache has at most 8 entries |
| ConnectTheorems.ShortCircuitIff | common/connect_backend.py:250-260 | in a run the short-circuit fires exactly when leaving Offline for the issuer of DongleId |
| ConnectTheorems.ShortCircuitIsReachable | common/connect_backend.py:222-226 | a clean run in which it fires |
| ConnectTheorems.NoIdentityLost | common/connect_backend.py:173-220 | the last PNW or Konik identity is always in DongleId with its backend active, or in its own slot |
| ConnectTheorems.CustomIdentitySurvivesIff | common/connect_backend.py:61-67 | a Custom identity is current, or its slot holds it exactly while fewer than 8 other slots were written since, and is empty otherwise |
| ConnectTheorems.StashTwice | common/connect_backend.py:186-188 | stashing is idempotent and touches no other slot except to evict it |
| ConnectTheorems.ReconcileTwice | common/connect_backend.py:228-287 | a second reconcile right after the first changes nothing |
| ConnectTheorems.CrashPoints | common/connect_backend.py:212-220 | power loss after any number of writes leaves one of five states |
| ConnectTheorems.SwitchResumes | common/connect_backend.py:212-220 | from each intermediate state of a switch a resumed run ends where the uncrashed one does |
| ConnectTheorems.CrashOnce | common/connect_backend.py:181-220 | one crash after any write does not change where the resumed run ends |
| ConnectTheorems.CrashTransparency | common/connect_backend.py:181-220 | any number of crashes, each after any write, and then a full run give the state of one full run |
| ConnectSwitch.TokenIsAsked | common/connect_backend.py:108-133 | the token reconciled to is the one the stored values ask for: Konik iff the index is 1, Offline iff it is 3, the key of the URL without its trailing slashes iff it is 2 and Python accepts the URL, and PNW otherwise |
| ConnectSwitch.PythonAcceptsIff | common/connect_backend.py:74-95 | the URLs Python accepts, in characters: `https://`, then a host, and no white space before the trailing slashes |
| ConnectSwitch.ShellAcceptsIff | launch_env.sh:34-56 | the values the shell accepts, in characters of what it reads |
| ConnectSwitch.StartOf | common/connect_backend.py:228-287 | every reconcile under way has a first step, and since then only its own steps and selector changes |
| ConnectSwitch.SwitchDelivers | common/connect_backend.py:228-287 | over any run: when a reconcile has returned, the token asked for as it began is active, a registered DongleId was issued by that backend and is the last one it issued if that was PNW or Konik, and going offline left DongleId as it was |
| DmConfig.ConfigInRange | selfdrive/monitoring/dm_config.py:66-84 | for any JSON value every configured timeout is between 10 s and 4 h |
| DmConfig.RelaxedIsOptIn | selfdrive/monitoring/dm_config.py:129-185 | the relaxed tier leaves its defaults, or applies by JSON, only with an enabled flag that is true |
| DmConfig.ConfigAsWritten | selfdrive/monitoring/dm_config.py:114-185 | each timeout is the number in its field, clamped to 10 s and 4 h, or its default 30, 60, 60 or 120 s; relaxed fields and a relaxed mode count only with the enabled flag |
| DmConfig.OtherwiseStrict | selfdrive/monitoring/dm_config.py:144-185 | without a file that holds an object, or with a timeout too large to convert, everything is at its default and no tier applies |
| DmConfig.RegimeInRange | selfdrive/monitoring/helpers.py:346-382 | for any configuration, mode and road the timeout in force is 11 s or in range, and green, orange and red are apart |
| RoadVerdict.VerdictHeldIff | selfdrive/monitoring/helpers.py:384-425 | over the readings taken, the road counts as relaxed exactly if the last definite one qualified and fewer than 90 unknown ones followed |
| RoadVerdict.RoadHeldIff | selfdrive/monitoring/helpers.py:384-425 | the same over any frames, with the mode of each an input: readings are taken in every 20th frame, if the mode needs them |
| RoadVerdict.RoadKeptElsewhere | selfdrive/monitoring/helpers.py:384-425 | a verdict outlives any time spent in modes that take no reading |
| RoadVerdict.ReadingIff | selfdrive/monitoring/helpers.py:405-420 | a readable map qualifies exactly as a freeway or a one-way road of two lanes or more, and is city exactly as a city street that does not qualify |
| RoadVerdict.ModeAtRefresh | selfdrive/monitoring/helpers.py:384-398 | the selector in force is the one read in the last 20th frame, counted from the first |
| MonitorModel.FrameKeepsBounds | selfdrive/monitoring/helpers.py:505-664 | a frame keeps every counter in [-0.1, 1] and the face-loss bookkeeping consistent |
| DriverMonitor.DriverMonitoring.constructor | selfdrive/monitoring/helpers.py:176-261 | a new monitor is the start of a drive: full counters, active mode, an expired face-loss grace, the given selector and no road verdict, with the timeouts of its configuration |
| DriverMonitor.DriverMonitoring.ApplyDmTimeouts | selfdrive/monitoring/helpers.py:346-382 | the decay steps and thresholds become those of the tier in force, which MonitorDrive.TimeoutsInForce gives by file, selector and road |
| DriverMonitor.DriverMonitoring.ResetAwareness | selfdrive/monitoring/helpers.py:263-272 | every logical counter is full again |
| DriverMonitor.DriverMonitoring.SetTimers | selfdrive/monitoring/helpers.py:277-305 | the swap of the shared field changes the mode, unless locked, and no logical counter |
| DriverMonitor.DriverMonitoring.RefreshDmMode | selfdrive/monitoring/helpers.py:384-425 | mode and road are re-read once a second and the timeouts are always those of the current ones |
| DriverMonitor.DriverMonitoring.UpdateStates | selfdrive/monitoring/helpers.py:448-503 | vision, face-loss grace and mode change as in the counter model |
| DriverMonitor.DriverMonitoring.UpdateActive | selfdrive/monitoring/helpers.py:530-613 | the active half is the model's two debounced counters with their exemptions, and its alert |
| DriverMonitor.DriverMonitoring.UpdatePassive | selfdrive/monitoring/helpers.py:614-664 | the passive half is the model's wheel-touch counter, and its alert |
| DriverMonitor.DriverMonitoring.UpdateEvents | selfdrive/monitoring/helpers.py:505-664 | the frame's counters, lockout and alert are those of the model, and the shared field stays coupled to them; MonitorFrames says what these are, frame by frame |
| DriverMonitor.DriverMonitoring.RunStep | selfdrive/monitoring/helpers.py:691-737 | one frame of the object, whose always-on setting may be set anew at any time, is one step of the model of whole drives: counters, mode, selector, refresh counter and road; active mode has awareness == min(pose, phone), passive mode has it saved |
| MonitorTheorems.DriveKeepsBounds | selfdrive/monitoring/helpers.py:505-664 | every counter stays in [-0.1, 1] over any drive from a start, regime and always-on setting changing freely |
| MonitorTheorems.UnresponsiveByFrame1200 | selfdrive/monitoring/helpers.py:489-503 | after any drive, 1200 frames with no face, engaged, moving and hands off end in driverUnresponsive, whatever the mode lock was and however always-on is toggled |
| MonitorTheorems.UnresponsiveExactlyAt1200 | selfdrive/monitoring/helpers.py:614-664 | the bound is tight: an attentive driver who vanishes gets it first at frame 1200 |
| MonitorTheorems.UnseenAlerts | selfdrive/monitoring/helpers.py:633-658 | the countdown of an attentive driver who vanishes: no alert for 899 frames, green from 900, orange from 1080, red from 1200 |
| MonitorTheorems.TerminalExactlyAtTimeout | selfdrive/monitoring/helpers.py:533-606 | under continuous distraction driverDistracted is raised exactly from frame ceil(20 T) on, T being the timeout in force of what distracts |
| MonitorTheorems.NoLevelSkipped | selfdrive/monitoring/helpers.py:587-606 | from one distracted frame of a drive to the next, whatever distracts, the alert level stays or rises by one |
| MonitorTheorems.WarnedBeforeTerminal | selfdrive/monitoring/helpers.py:587-606 | on the way to red the green and then the orange alert were raised, also for pose and phone at once |
| MonitorFrames.TakesTheWheel | selfdrive/monitoring/helpers.py:516-536 | a frame with the wheel or the gas touched ends with every counter full, no clear frames and no alert, exactly unless it is engaged in passive mode with the wheel-touch counter run out; then red stays |
| MonitorFrames.Disengaged | selfdrive/monitoring/helpers.py:516-524 | a disengaged frame does so too, exactly unless always-on monitoring applies with the counter of the mode above zero; then there is no red alert either |
| MonitorFrames.ActiveFrame | selfdrive/monitoring/helpers.py:530-606 | any other frame in active mode: each counter falls by its step while distracted, unless at standstill it would reach green or disengaged reach red, and is full again after 40 clear frames; the alert is the worse of the two |
| MonitorFrames.PassiveFrame | selfdrive/monitoring/helpers.py:611-658 | any other frame in passive mode: when the wheel-touch counter rises, falls or is spared, by how much, and the alert |
| MonitorFrames.StandstillNeverWorse | selfdrive/monitoring/helpers.py:548-551 | at standstill no active counter reaches a worse level and the wheel-touch counter reaches neither orange nor red |
| MonitorHistory.ModeIsHistory | selfdrive/monitoring/helpers.py:489-503 | after any drive a complete frame leaves active mode on exactly if a face was seen in the last 601 complete frames and at most 600 doubtful ones followed the last sure one; only an orange or red alert in active mode, or a red one in passive mode, holds the mode |
| MonitorHistory.LockoutIff | selfdrive/monitoring/helpers.py:507-515 | engaging is blocked for good exactly once ten red alerts have begun or red has lasted 600 frames in all, and with always-on monitoring also while the counter of the mode is at orange |
| MonitorHistory.FullAfterTwoSeconds | selfdrive/monitoring/helpers.py:553-569 | attentive frames after a distraction leave both counters where they are for 39 frames and full from the 40th on |
| MonitorHistory.SixFramesDecide | selfdrive/monitoring/helpers.py:611-645 | six frames of the same verdict take the distraction filter past its mark, 0.63 or 0.37, whatever went before |
| MonitorDrive.TimeoutsInForce | selfdrive/monitoring/helpers.py:346-425 | over any frames and configuration: a JSON relaxed tier applies everywhere and a JSON highway tier on a highway; without a tier selector 2 means the relaxed timeouts and selector 1 the highway ones on a highway; all else is 11 s with green at 3 s and orange at 5 s. On a highway: the last definite reading taken qualified and fewer than 90 unknown ones followed |
| MonitorDrive.StockAlerts | selfdrive/monitoring/helpers.py:376-382 | under the stock timing a driver distracted without pause gets no alert for 59 frames, green from 60, orange from 100 and red from 220 |
| MonitorDrive.TieredAlerts | selfdrive/monitoring/helpers.py:371-382 | under a tier green, orange and red begin exactly at the timeout less 60, 30 and 0 s for pose and 120, 60 and 0 s for phone, the leads capped at a half and a quarter of it |
| MonitorDrive.RunAlerts | selfdrive/monitoring/helpers.py:691-737 | the same end to end: over a whole run from any configuration file, with the tier in force by file, selector and road |
| GoodSize.Search11 | selfdrive/locationd/helpers.py:25-28 | the innermost loop passes no multiple by a power of 11 that reaches n, under a bound that shrinks inside it |
| GoodSize.SearchFrom | selfdrive/locationd/helpers.py:16-33 | for n >= 1 the search alone gives the least good size |
| GoodSize.FftNextGoodSize | selfdrive/locationd/helpers.py:10-33 | for n >= 1 the least number >= n whose prime factors are among 2, 3, 5, 7, 11; below that, n itself |
| GoodSize.PowerOfTwoBetween | selfdrive/locationd/helpers.py:18-19 | a power of two lies in [n, 2n), so the initial bound is never the answer |
| GoodSize.PrimeDividesStep | selfdrive/locationd/helpers.py:12-13 | a prime dividing a base times x is that base or divides x |
| GoodSize.GoodIsProduct | selfdrive/locationd/helpers.py:12-13 | a number without other prime factors is a product of powers of the five bases, so the loops reach it |
| GoodSize.Minimal | selfdrive/locationd/helpers.py:18-33 | a candidate below everything the loops can reach is good and the least |
| PeakInterp.ParabolaFits | selfdrive/locationd/helpers.py:40-41 | the parabola in question goes through the three samples |
| PeakInterp.IsVertex | selfdrive/locationd/helpers.py:36-43 | at a peak the result is where the parabola through the three samples is highest |
| PeakInterp.WithinHalfIff | selfdrive/locationd/helpers.py:36-43 | over samples that bend down it is within half a sample exactly if the middle sample is the largest |
| PeakInterp.FlatIff | selfdrive/locationd/helpers.py:36-43 | at a maximum it divides by zero exactly on three equal samples |
| NpQueue.Queue.Append | selfdrive/locationd/helpers.py:62-67 | the array holds the newest maxlen rows ever appended; with maxlen 0 the append fails and changes nothing |
| BlockAverage.BlockAverage.constructor | selfdrive/locationd/lagd.py:137-144 | a new average stands for the given number of blocks filled with the initial value, also for more than it has slots |
| BlockAverage.BlockAverage.Update | selfdrive/locationd/lagd.py:146-151 | the sample joins the history and the ring still stands for it |
| BlockAverage.BlockAverage.Get | selfdrive/locationd/lagd.py:153-169 | the valid mean is the plain mean of the samples of the averaged blocks; means and variances are those of the block means, without and with the partial block; it raises exactly on a ring constructed overfull with no block completed since |
| BlockAverage.MeanOfMeans | selfdrive/locationd/lagd.py:153-169 | the mean of block means is the mean of the samples |
| BlockAverage.ClosedForms | selfdrive/locationd/lagd.py:146-151 | idx, block_idx and valid_blocks are closed forms of the number of samples |
| BlockAverage.WindowIsSuffix | selfdrive/locationd/lagd.py:153-169 | the averaged samples are the last completed blocks of the history, at most num_blocks - 1 of them, and the partial block holds only its own samples |
| RunningStat.RunningStat.Reset | common/stat_live.py:18-23 | the object starts again without a prior |
| RunningStat.RunningStat.PushData | common/stat_live.py:25-37 | the object's fields change as the update of mean, squared distances and count |
| RunningStat.UnlimitedIsTwoPass | common/stat_live.py:5-46 | for any prior and samples, n M == n0 M0 + sum x and S == S0 + n0 (M0 - M)^2 + sum (x - M)^2 |
| RunningStat.OrderIrrelevant | common/stat_live.py:25-37 | without a limit the state does not depend on the order of the samples |
| RunningStat.FreshIsTextbook | common/stat_live.py:25-46 | from an empty start mean and variance are the two-pass mean and sample variance |
| RunningStat.VarianceNonNegative | common/stat_live.py:25-46 | with or without a limit the variance is never negative |
| RunningStat.LimitObeyed | common/stat_live.py:25-30 | the count grows by one a sample up to the limit and never beyond; a prior past the limit stays where it is |
| RunningStat.WeightAtLimit | common/stat_live.py:25-37 | at the limit n a sample has weight 1/n in the mean |
| RunningStat.RunningStatFilter.PushAndUpdate | common/stat_live.py:63-71 | every sample reaches the raw statistics, and the filtered ones exactly if it is accepted |
| RunningStat.AcceptsIff | common/stat_live.py:63-71 | a sample is accepted exactly if its squared distance from the old mean is at most (n + 1)/n of the old variance |
| MovingAverage.SumSlides | common/utils.py:64-74 | subtracting what leaves and adding what comes gives the sum of the new window |
| MovingAverage.MovingAverage.AddValue | common/utils.py:64-74 | ring, sum, index and count stand for the newest values |
| MovingAverage.MovingAverage.GetAverage | common/utils.py:76-79 | the average is the mean of the newest values, not-a-number before any |
| FrequencyTracker.FrequencyTracker.RecordRecvTime | cereal/messaging/__init__.py:127-135 | the gap joins both averages once there is a previous time |
| FrequencyTracker.FrequencyTracker.IsValid | cereal/messaging/__init__.py:137-147 | the verdict on the recorded gaps, or the division by a zero average |
| FrequencyTracker.Telescope | cereal/messaging/__init__.py:127-135 | consecutive gaps add up to a difference of two receive times |
| FrequencyTracker.ValidIffRateInBand | cereal/messaging/__init__.py:137-147 | for strictly increasing times, valid exactly when the message rate over the long or over the short window is in the band |
| FrequencyTracker.BandIff | cereal/messaging/__init__.py:109-125 | for updates at least once a second the band is 80 to 120 percent of the slower rate, or 40 to 120 if neither rate is twice the other and the service is not polled; the windows are the messages of 10 s and of 1 s |
| FrequencyTracker.SlowBandIff | cereal/messaging/__init__.py:109-122 | the band for slower updates, which may be empty |
| FileChunker.ChunkNamesDistinct | common/file_chunker.py:10-17 | chunk names of one file are distinct, whatever their number of digits |
| FileChunker.ChunkIsNotManifest | common/file_chunker.py:10-17 | no chunk is called like the manifest or the file |
| FileChunker.Directory.ChunkFile | common/file_chunker.py:23-32 | exactly the chunks and the manifest are added and the file removed, or nothing changes and the error says why |
| Decimal.IntOfText | common/file_chunker.py:69-69 | a number's text reads back through the manifest parser, also with white space around it |
| FileChunker.Directory.OpenFileChunked | common/file_chunker.py:66-75 | the stream is over the manifest's chunks, else over the file, else an error; the manifest may have white space around its number |
| FileChunker.ChunkStream.ReadInto | common/file_chunker.py:50-64 | fills the buffer across chunks, empty ones included; short only at the end of the stream |
| ChunkRoundTrip.ManifestReadsBack | common/file_chunker.py:66-70 | the manifest written is read back to the same chunk list |
| ChunkRoundTrip.ManifestFirst | common/file_chunker.py:66-75 | a manifest with a number decides even beside the file itself; without a manifest the file does, and without either the error names it |
| ChunkRoundTrip.SplitThenJoin | common/file_chunker.py:23-75 | for every file and sufficient chunk count the opened stream carries exactly the file |
| ChunkRoundTrip.TargetsSufficeIff | common/file_chunker.py:19-26 | the computed targets suffice exactly for a non-empty file |
| ChunkRoundTrip.ChunkSizes | common/file_chunker.py:8-32 | every chunk has 47185920 bytes but the last that is not empty, and the computed count is the least that holds the file |
| ChunkRoundTrip.ChunkNameReads | common/file_chunker.py:10-11 | a chunk name is the path with number and count from one, each in two digits or more |
| ChunkRoundTrip.ReadsAreConsecutive | common/file_chunker.py:50-64 | reads of any sizes hand out the content in order, up to their total |
| ChunkRoundTrip.ReadAll | common/file_chunker.py:50-75 | a stream serves any sequence of reads like its content |
| OutOfBand.UnpackPack | selfdrive/modeld/helpers.py:27-27 | a length below 2^63 survives the eight-byte framing |
| OutOfBand.LengthLayout | selfdrive/modeld/helpers.py:27-27 | a length is eight bytes, the least significant first |
| OutOfBand.DumpOob | selfdrive/modeld/helpers.py:23-36 | the file is the framed opcodes followed by every framed buffer |
| OutOfBand.LoadOob | selfdrive/modeld/helpers.py:38-49 | what the loader makes of any stream, ends and bad lengths included |
| OutOfBand.DumpThenLoad | selfdrive/modeld/helpers.py:23-49 | loading a dump gives back the opcodes and every buffer, empty ones included |
| OutOfBand.CutDump | selfdrive/modeld/helpers.py:38-49 | of a dump cut after any number of bytes: a cut inside a length raises, one inside the opcodes leaves them short, one inside a buffer leaves its rest zero; what lies before is read whole and what lies behind is missing |
| OutOfBand.EndToEnd | selfdrive/modeld/modeld.py:81-81 | for any sufficient chunk count, the stream over the chunks of a dump loads to the same opcodes and buffers |
| OutOfBand.SaveAndLoad | selfdrive/modeld/modeld.py:81-81 | the code itself, dumping, splitting, opening and loading in any directory, gives back opcodes and buffers |
| CurveLogger.CurveLogger.Flush | scripts/angle_curve_logger.py:476-491 | waiting curves are kept or cut out of the ring, in order |
| CurveLogger.CurveLogger.CarChange | scripts/angle_curve_logger.py:528-538 | a session end flushes everything waiting and drops ring and curve |
| CurveLogger.CurveLogger.OnCarState | scripts/angle_curve_logger.py:541-652 | one update: decimation, session gap, ring append, curve automaton, flush; CurveSessions says when a row is recorded and a session ends |
| CurveLogger.CurveLogger.FollowCurve | scripts/angle_curve_logger.py:626-649 | the curve automaton's step on its variables |
| CurveLogger.CutOutIsExact | scripts/angle_curve_logger.py:117-121 | the ring still holds every row of a waiting curve, so cutting it out by absolute numbers clips nothing |
| CurveLogger.PreRollIsHeld | scripts/angle_curve_logger.py:117-121 | it also holds the curve's pre-roll as far as the session goes back |
| CurveLogger.NoneDue | scripts/angle_curve_logger.py:478-481 | curves come due in order: if the first is not due, none is |
| CurveLogger.FlushListExact | scripts/angle_curve_logger.py:476-491 | a flush cuts out exactly a front of the waiting list, each curve with exactly its rows, all of it when forced |
| CurveLogger.DecidedNow | scripts/angle_curve_logger.py:633-644 | when the automaton ends a curve, the newest row is the first at which the curvature has been low for 2 s or the curve is 30 s long, and the curve ends where that low run began, else there |
| CurveLogger.FollowKeeps | scripts/angle_curve_logger.py:626-649 | a followed curve has not been over so far, its variables follow its low run, and a curve that ends has at most 667 rows, all after those of earlier curves |
| CurveLogger.FlushKeepsWaiting | scripts/angle_curve_logger.py:651-652 | what still waits after an update has waited less than 8 s |
| CurveLogger.EventKeeps | scripts/angle_curve_logger.py:517-652 | the invariant of ring, curve, waiting list and flushed curves is kept by every update and car change |
| CurveLogger.CurvesOnlyGrow | scripts/angle_curve_logger.py:476-491 | no curve is dropped or flushed twice: an update adds at most one curve at the end of the flushed and waiting ones |
| CurveCoverage.FollowCompletes | scripts/angle_curve_logger.py:626-649 | the automaton opens a stretch on a trigger, and finishes it as a curve or a blip exactly when it is first over |
| CurveCoverage.NoTriggerMissed | scripts/angle_curve_logger.py:541-652 | for any timing every trigger row lies in a recorded curve, in the curve being followed, in a blip under 0.8 s, or in a stretch cut by a session end |
| CurveSessions.RecordedIff | scripts/angle_curve_logger.py:543-546 | an update is recorded exactly if it is the first or comes 45 ms or more after the last recorded row |
| CurveSessions.SessionEndsIff | scripts/angle_curve_logger.py:528-558 | over any events a session ends only at a car change or at a row more than 2.9995 s after the one before, and every row more than 3.0005 s after it begins a new one |
| CurveSessions.TriggersAreRecorded | scripts/angle_curve_logger.py:541-652 | without a car change and such a hole every row above 0.001 1/m at more than 2 m/s lies in a recorded curve, the curve being followed or a blip |
| CurveSessions.FlushedWhenDue | scripts/angle_curve_logger.py:476-491 | unless a session end forces it a curve is flushed only after a row 8 s past its end, and none that waits has such a row |
| CurveLogger.FlushedCurvesAreExact | scripts/angle_curve_logger.py:111-121 | for any timing every flushed curve is one of the history (it starts on a trigger, ends as soon as it is low for 2 s or 30 s long, and lasts 0.8 s), has exactly the rows recorded between its start and end, and the curves are disjoint and in order |
| ChangeChannel.Chan.Feed | selfdrive/car/accdrop_pnw.py:226-229 | the buffer is the newest 512 changes of everything fed |
| ChangeChannel.SplitEntries | selfdrive/car/accdrop_pnw.py:416-421 | the first loop finds the channel's value at the window's start and the samples inside the window |
| ChangeChannel.TakeDifferences | selfdrive/car/accdrop_pnw.py:433-439 | the second loop turns them into differences, each against the sample before it, with times rounded to hundredths |
| ChangeChannel.BuildChannel | selfdrive/car/accdrop_pnw.py:413-441 | the record has the incoming state, its reason if missing, and the differences in the window |
| ChangeChannel.DiffCompletes | selfdrive/car/accdrop_pnw.py:433-438 | a difference completes the state before it to the next one, as column names do not repeat |
| ChannelRecords.ChangesKeepValues | selfdrive/car/accdrop_pnw.py:226-229 | dropping repeated samples changes the value at no moment |
| ChannelRecords.ClockIsClose | selfdrive/car/accdrop_pnw.py:411-412 | at every hundredth the record's rounded clock has the value of a moment at most 5 ms away |
| ChannelRecords.ReadsBackIff | selfdrive/car/accdrop_pnw.py:407-441 | a record read back at a point of its clock gives the channel's value there exactly if the buffer reaches back to it or there was none |
| ChannelRecords.Lossless | selfdrive/car/accdrop_pnw.py:407-441 | with an incoming state the record reads back right everywhere in the window, and its rows are all the changes there |
| ChannelRecords.IntoIsNullIff | selfdrive/car/accdrop_pnw.py:416-432 | the incoming state is missing exactly if none of the newest 512 changes is at or before the window's start |
| ChannelRecords.ReasonsAreTrue | selfdrive/car/accdrop_pnw.py:425-432 | "first sample" is said only if nothing was ever dropped, and names the first sample of all; the other two reasons only if nothing was fed |
| ChannelRecords.FirstSampleIsComplete | selfdrive/car/accdrop_pnw.py:431-432 | a record that names its first sample reads back right everywhere |
| ChannelRecords.NeverTruncated | selfdrive/car/accdrop_pnw.py:429-430 | unless 511 samples in a row come within less than 4 s, "truncated" is never said and nothing in the window was lost |
| ChannelRecords.TruncationPossibleIff | selfdrive/car/accdrop_pnw.py:429-430 | for samples at least d apart, "truncated" can be said at all exactly if 510 d is less than 4 s |
| ChannelRecords.FalselyTruncatedIff | selfdrive/car/accdrop_pnw.py:429-430 | it is said of a record that lost nothing exactly for 512 changes in all, the first after the window's start |
| DropoutRecords.EmittedWasWaiting | selfdrive/car/accdrop_pnw.py:355-356 | an event emitted on a tick was still less than 1 s old on the tick before |
| DropoutRecords.RecordsAreComplete | selfdrive/car/accdrop_pnw.py:311-356 | over any run in which no 511 ticks in a row come within less than 4 s (at the 100 Hz of the card loop they span 5.1 s), every record of every channel reads back right everywhere in its window and never says "truncated" |
| AccDropLogger.Logger.HandleEdge | selfdrive/car/accdrop_pnw.py:358-379 | an edge is suppressed and counted, or becomes a pending event carrying the count |
| AccDropLogger.Logger.Tick | selfdrive/car/accdrop_pnw.py:330-356 | one tick: seeding, edge, and emission of what is due |
| AccDropLogger.PurgeExact | selfdrive/car/accdrop_pnw.py:359-361 | after forgetting old times ten remain exactly if ten events lie in the last 60 s |
| AccDropLogger.OnEdgeKeeps | selfdrive/car/accdrop_pnw.py:358-379 | an edge is accepted exactly if fewer than ten events were accepted in the 60 s before it |
| DropoutRuns.AtMostTenPerMinute | selfdrive/car/accdrop_pnw.py:78-78 | in any run no eleven events lie within 60 s, and they are in order |
| DropoutRuns.EveryChangeIsCounted | selfdrive/car/accdrop_pnw.py:43-43 | every change of the ACC state since the first valid CAN is a record, or counted in one or in the next |
| DropoutRuns.RecordsAreChanges | selfdrive/car/accdrop_pnw.py:100-107 | every record is of a change between two neighbouring ticks after a valid CAN, from what the tick before showed to what this one shows; a fault hides being engaged, and that hides being available |
| DropoutRuns.EmittedOnceInOrder | selfdrive/car/accdrop_pnw.py:355-356 | records are handed over once, in order, on the first tick at least 1 s after their edge |
| FlightRecorder.Recorder.Control | selfdrive/controls/controlsd.py:433-444 | one 100 Hz tick: the running maxima, and on every 20th a sample |
| FlightRecorder.Recorder.TakeSample | selfdrive/controls/controlsd.py:643-660 | the fold: override tracking, maxima into the sample, maxima restarted, trigger; FlightTriggers.TriggersIff says when a fold is one |
| FlightRecorder.Recorder.Advance | selfdrive/controls/controlsd.py:780-926 | the idle, armed, cooldown automaton with its latched values |
| FlightRecorder.Recorder.EmitIfOver | selfdrive/controls/controlsd.py:830-923 | an over episode is published once, or stays armed when publishing fails |
| Rounding.Round2Monotone | selfdrive/controls/controlsd.py:656-656 | rounding to two decimals, halves to even, keeps order |
| Rounding.NearestIff | selfdrive/controls/controlsd.py:656-656 | rounding takes the nearest integer of the scaled value, and of two as near the even one |
| Rounding.Round2Idempotent | selfdrive/controls/controlsd.py:862-862 | rounding the peak again changes nothing |
| FlightTheorems.FoldLinked | selfdrive/controls/controlsd.py:652-659 | the sample carries the maximum over every tick since the last fold |
| FlightTheorems.OverIff | selfdrive/controls/controlsd.py:830-833 | the test on the last trigger time means: no trigger in the last 0.75 s, or 5 s long |
| FlightTheorems.FollowLatches | selfdrive/controls/controlsd.py:807-828 | peak, trace, override tag and last trigger of an armed recorder are those of its episode so far |
| FlightTheorems.EventsAreEpisodes | selfdrive/controls/controlsd.py:776-926 | in any run, with any publish failures, the k-th event is that of the k-th episode, has number k, and its peak, trace, duration, cap and override tag are exactly what was observed; no episode is missed |
| FlightTheorems.EpisodesAreSeparated | selfdrive/controls/controlsd.py:776-779 | between two events lies a sample without a trigger |
| FlightTheorems.TraceIsBounded | selfdrive/controls/controlsd.py:37-41 | a trace is real samples, the arming one among them, and at most 12 + 15 |
| FlightTheorems.PeakIsMaximum | selfdrive/controls/controlsd.py:433-444 | the peak bounds every angle error in its range and is one of them, unless none was positive |
| FlightTheorems.ArmedAtMostFiveSeconds | selfdrive/controls/controlsd.py:42-43 | a recorder armed for 5 s failed to publish on every sample since |
| FlightTheorems.TriggersAreUnassisted | selfdrive/controls/controlsd.py:639-645 | a trigger is never within a second after a sample with the wheel pressed |
| FlightTriggers.FoldsAreTicks | selfdrive/controls/controlsd.py:433-444 | there is a fold for every 20 ticks, and it tells of exactly those: every angle error read in them, and whether any was above 2.5 degrees or saturated |
| FlightTriggers.TriggersIff | selfdrive/controls/controlsd.py:743-757 | a fold is a trigger exactly if its tick reports saturation, an error above 2.5 degrees or, while openpilot steers, one above 8 degrees or an undershoot, and the driver steered neither in it nor at a fold less than 1 s before |
| FlightTriggers.EightDegreesNeverDecide | selfdrive/controls/controlsd.py:754-756 | the 8 degree threshold changes nothing; with lateral control off only saturation and an error above 2.5 degrees count |
| FlightTriggers.EveryDepartureIsTold | selfdrive/controls/controlsd.py:776-926 | in any run every such tick lies in a reported episode, in the open one, or in a stretch that triggers without pause from an event on; and episodes arm on nothing else |
| LogNames.IndexOfName | common/swaglog.py:56-59 | the handler reads back the index it wrote into a name |
| LogNames.PadOrder | common/swaglog.py:59-59 | zero-padded numbers are ordered as text as they are as numbers |
| LogNames.TenDigits | common/swaglog.py:59-59 | ten digits hold ten thousand million indices |
| LogNames.NameHasTenDigits | common/swaglog.py:59-59 | the handler's names are the base, a dot and ten digits that read back as the index, below ten thousand million |
| LogRotation.Handler.constructor | common/swaglog.py:46-54 | sizes, total and last index of the existing logs |
| LogRotation.Handler.DoRollover | common/swaglog.py:90-113 | open, count the closed file, delete the oldest; or, if opening fails, only an index is used up |
| LogRotation.Handler.DeleteOldest | common/swaglog.py:100-113 | the deletion loop |
| LogRotation.MaxIndexBounds | common/swaglog.py:50-51 | the last index bounds every numbered name, so the next one is new |
| LogRotation.TrimIsLongest | common/swaglog.py:100-113 | deleting from the oldest end stops at the longest newest-first run that meets both caps, or at one file |
| LogRotation.RolloverKeeps | common/swaglog.py:90-123 | a rollover keeps files, sizes and total in step with everything the handler ever had |
| LogRotation.RetainedIsLongest | common/swaglog.py:90-123 | after every rollover of a whole run the kept logs are the longest newest-first part of all logs ever meeting both caps (at least the open file), names are distinct, and the total is the sum of the recorded sizes |
| LogRotation.RetainedMeetsCaps | common/swaglog.py:100-113 | more than one log is kept only within both caps that are on, and any longer part of the logs would break one of them |
| LogRotation.FailedRolloverKeeps | common/swaglog.py:90-95 | a rollover that cannot open a file changes only the index |
| LogRotation.NamesDescend | common/swaglog.py:48-49 | over the handler's own logs, names stay in descending order of text while ten digits suffice |
| AsyncParams.SafeQueue.Push | common/queue.h:12-18 | adds at the end |
| AsyncParams.SafeQueue.TryPop | common/queue.h:28-36 | takes the oldest element, or says that there is none |
| AsyncParams.Params.PushItem | common/params.cc:227-228 | the push of a non-blocking put |
| AsyncParams.Params.CheckFuture | common/params.cc:229-233 | a writer is started exactly if there is none whose future is not ready |
| AsyncParams.Params.WriterPop | common/params.cc:235-238 | the writer pops the oldest item or ends |
| AsyncParams.Params.WriterPut | common/params.cc:239-241 | the writer replaces the file of its item, or leaves it |
| AsyncParams.Params.WriterFinish | common/params.cc:238-242 | the writer returns and its future is ready |
| AsyncParams.EventKeeps | common/params.cc:227-242 | every atomic step of producer and writers keeps the invariant |
| AsyncParams.AtMostOneWriter | common/params.cc:229-233 | in every interleaving at most one writer is not done, and the future is its |
| AsyncParams.PutsAreAPrefix | common/params.cc:227-242 | in every interleaving puts carried out, held and queued are the pushes in order, and each key has its last stored value |
| AsyncParams.MissedIff | common/params.cc:229-233 | the note kept with every state says of a run whether the producer's last look at the future met an ending writer with an item queued |
| AsyncParams.StrandedIff | common/params.cc:99-104 | at rest the queue is empty, as the destructor asserts, exactly unless the producer's last look at the future met a writer past its last pop and not done, with an item queued |
| AsyncParams.StrandedIsReachable | common/params.cc:235-242 | an interleaving that strands an item |
| AsyncParams.WriterDrains | common/params.cc:235-242 | a writer left alone carries out everything queued and ends |
| AsyncParams.NextPutRescues | common/params.cc:227-233 | the next put starts a writer that carries out stranded items and the new one |

## Left out

- Float rounding: floats are reals; only the rounding that the flight recorder's peaks, the times of a dropout record and the curve logger's time stamps depend on is modelled.
- Wall-clock time and clocks that step backwards: times are monotonic inputs.
- Blanket exception handlers of the loggers and of `reconcile_backend`: power loss, failing publishes, failing opens and unreadable sizes are modelled, other exceptions are not.
- Malformed cache JSON and hash collisions of Custom URLs: the cache is a dictionary, and a Custom backend is identified with its 16-digit key.
- The `/persist` identity, the JWT exchange and retries of registration: registration is its outcome.
- ConnectUrl: the shell is taken in the C locale.
- Decimal.IntOfText: text is ASCII; white space and digits of other scripts are not read.
- `int()` of the backend parameter: its value, or that there is none, is an input.
- DriverMonitor: pose, blink and phone thresholds, calibration, the wheel-side and policy logic, the uncertain-camera counter that raises no alert, and the standstill-dependent offsets; each frame's verdicts are inputs.
- DriverMonitor.DriverMonitoring.UpdateActive: split into one method per counter and one for the alert, for small proofs; so are UpdatePassive, RefreshDmMode and CurveLogger's, FlightRecorder's and LogRotation's larger methods.
- GoodSize.Search11: the five nested loops are one method each, called where the source nests them.
- RunningStat.RunningStatFilter.PushAndUpdate: deviations are compared through variances, which have the same order; the square root is not modelled.
- BlockAverage.BlockAverage.Get: gives variances, not their square roots.
- FrequencyTracker: service tables and the aggregate `alive` and `valid` checks over all services.
- OutOfBand.DumpOob: the pickler is opaque, opcodes and buffers are inputs; the temporary file is a byte sequence.
- FileChunker.Directory.OpenFileChunked: the buffered reader on top only batches reads and is not modelled beyond reads of any size.
- FileChunker.ChunkStream.ReadInto: a chunk file that is missing when its turn comes raises there; the stream is modelled with all its chunks present.
- CurveLogger: summaries, traces, disk guards and markers are not modelled; a flushed curve is its rows. Rows are reduced to time, curvature and speed.
- DropoutRecords.RecordsAreComplete: a card loop so far ahead of its 100 Hz that 511 ticks come within 4 s is excluded; for it ChannelRecords.ReadsBackIff says what a record still has.
- AccDropLogger: which signals a channel samples when, the continuous trace, the button frames and the route lookup; the writer thread is the order in which it gets records.
- FlightRecorder: lane, rate and lateral-acceleration fields, which are latched like the angle error; the lateral accelerations that an undershoot compares are inputs.
- LogRotation.Handler.constructor: the directory listing and its sorting are inputs; the first rollover is the first step of a run.
- LogRotation: a file whose removal fails stays on disk and is forgotten by the handler; the warning about young files and the decision when to roll over are not modelled.
- LogRotation.NamesDescend: is stated for logs the handler named itself; an unpadded name left by someone else sorts elsewhere.
- AsyncParams: one producer, as `card` has; writing, syncing and renaming the file is one atomic step with an outcome.
- Uploader, sockets, CAN parsing, model compilation, Kalman filters, planners, controllers and UI: I/O or numerics over code that is not part of this model.
- Easy members (first-order filters, PID clamps, archive pruning, rate limiters identical to the one here): they would add nothing hard.
