# homewizard_exporter: a verified model

The exporter polls HomeWizard devices, one loop per device, and publishes what it reads into a
copy-on-write snapshot that the metrics endpoint, the health check and the dashboard read without
locks. This project models that system and its four smaller algorithms (scrubbing captured fixtures,
splitting a host out of the command line, reading timestamps and meters, naming discovered devices),
and proves what they promise over every input and every run.

| modules | what they model |
|---|---|
| `Snapshot`, `SnapshotProtocol` | the device record, the store, and `Store.Update` taken apart into the steps other goroutines can observe, with any number of writers and readers interleaved |
| `Polling`, `PollingEffects`, `PollingTiming`, `PollingRuns`, `PollingRequests`, `PollingOutcomes` | one device's loop as a method over a store and a client object, tied to a state machine, and the facts about whole runs of that machine |
| `PollingSteps`, `Fleet` | the same loop taken apart at every request and update, and all loops of a configuration over the stepwise store: with distinct names each loop runs as if it were alone |
| `Config` | the derived values and the validation rules the poller relies on |
| `Homewizard`, `Timestamps`, `Measurements` | capabilities, the two timestamp formats, the two response formats |
| `Descriptors`, `Collector`, `CollectorFacts`, `CollectorFields`, `CollectorKeys` | the translation of a snapshot into series |
| `Health`, `Dashboard`, `Consumers` | the health check, the dashboard's data, and the agreement of all three readers |
| `Capture`, `CaptureWalk`, `Telegram` | the fixture scrubber: the meaning of the JSON rewrite, the in-place rewrite itself, and the telegram rewrite |
| `Args`, `Discover` | the argument splitter beside Go's flag parser, and the names printed by `discover` |
| `Wrappers`, `Text`, `Lists` | shared definitions |

How to read it:

- Code that changes things in place is a class or a method with loops, proved equal to a specification
  function; the properties are lemmas about that function.
- A run of a polling loop is a list of passes. A pass says what the device and the clock did: the
  answer to each request (success, not found, unauthorized, API disabled, another failure), the
  moment each answer arrived, whether the exporter was being stopped, and the jitter drawn. A run is
  admissible when the clock never goes back and no pass starts before its timer.
- A run of the whole system interleaves, step by step, any number of loops, the steps each of their updates
  takes inside the store, and any number of readers. Each loop stores its configured host itself before its
  first pass, in any order among the loops; the program does so from one goroutine, which is one such order.
- Time is a whole number of nanoseconds since Go's zero time; 0 is the zero time itself, Go's "never".
- Durations are the 64-bit numbers they are in Go wherever they can overflow.

Where the code and its documentation or comments part ways, the code is modelled:

- "will not ask again" holds for the state, system and batteries endpoints. The measurement is asked
  for on every pass, also after not-found (`PollingRequests.MeasurementIsAskedAgain`);
  `PollingRequests.NothingIsAskedAgain` says exactly when nothing at all is asked again.
- The floor of 500 ms between two polls fails for a device interval so close to 2^63 ns that interval
  plus jitter overflows; `PollingTiming.SpacingNeedsRoomForJitter` gives the exact condition.
- Doubling the backoff overflows when the configured maximum is 2^62 ns or more
  (`PollingTiming.DoublingIsExact`, `PollingTiming.DoublingOverflows`).
- An empty word on the command line in the host's place is dropped without notice
  (`Args.ExactlyTheHostIsRemoved`, `Args.EmptyWordIsDropped`). Words after `--` are left over and never looked at
  (`Args.LeavesWordsAfterDashes`).
- A secret key whose value is not a string is kept (`Capture.PathByPath`).

## Model

| member | source | states |
|---|---|---|
| Snapshot.Device.LastUpdate | internal/snapshot/snapshot.go:34-43 | is one of the four stamps and none of them is later |
| Snapshot.Device.ComputeLastUpdate | internal/snapshot/snapshot.go:35-43 | the loop over the stamps finds that latest stamp |
| Snapshot.Apply | internal/snapshot/snapshot.go:99-106 | a mutator, as a sequence of assignments, never renames the record |
| Snapshot.UpdatesCommute | internal/snapshot/snapshot.go:90-108 | updates of two different names give the same view in either order |
| Snapshot.RecordDependsOnOwnUpdates | internal/snapshot/snapshot.go:90-108 | after any history, a device's record is what its own updates alone build |
| Snapshot.InterleavingIsIrrelevant | internal/snapshot/snapshot.go:90-108 | two interleavings of the same per-device histories leave the same view |
| Snapshot.FoldWellNamed | internal/snapshot/snapshot.go:99-106 | every record is stored under its own name |
| Snapshot.SortedNames | internal/snapshot/snapshot.go:62 | lists exactly the given names, strictly ascending in Go's string order |
| Snapshot.Sorted | internal/snapshot/snapshot.go:58-68 | the appending loop returns the records in that order |
| Snapshot.SortedIsOrderedPermutation | internal/snapshot/snapshot.go:56-68 | the result is strictly name-ordered and holds exactly the records of the map |
| Snapshot.DeviceCell.Mutate | internal/snapshot/snapshot.go:105 | running a mutator on the private copy gives the record the assignments describe |
| Snapshot.Store.Load | internal/snapshot/snapshot.go:78 | returns the current snapshot, or null before the first |
| Snapshot.Store.Lookup | internal/snapshot/snapshot.go:81-87 | one device's record, or none when the store does not know it |
| Snapshot.Store.Update | internal/snapshot/snapshot.go:90-108 | the new contents are the old ones with one record replaced; all other records are shared with the previous snapshot, and no published cell is written |
| SnapshotProtocol.StepKeepsPublished | internal/snapshot/snapshot.go:90-108 | no step of any writer writes to a published snapshot, to a record reachable from one, or to any reading that records share by pointer |
| SnapshotProtocol.StepKeepsInv | internal/snapshot/snapshot.go:90-108 | every step keeps the invariant: closed memory, one lock holder, the half-built snapshot private, the published one a fold |
| SnapshotProtocol.NoUpdateLostOrHalfVisible | internal/snapshot/snapshot.go:89-108 | in every interleaving the published snapshot is the fold of the published updates, a prefix of the updates in lock order that includes every one that returned |
| SnapshotProtocol.PublishedStaysFrozen | internal/snapshot/snapshot.go:89-108 | a published snapshot shows the same view for the rest of the run |
| SnapshotProtocol.LoadedSnapshotIsImmutable | internal/snapshot/snapshot.go:77-108 | a loaded snapshot shows the updates published before the load, then and for ever, through every pointer down to the readings the shallow copies share |
| SnapshotProtocol.LoadsSeeLongerAndLongerPrefixes | internal/snapshot/snapshot.go:77-108 | successive loads see prefixes of one history, never a shorter one |
| SnapshotProtocol.PublishedRecordIsItsOwnHistory | internal/snapshot/snapshot.go:90-108 | in every interleaving a published record depends on the updates of its own name alone |
| SnapshotProtocol.HolderIsNeverStuck | internal/snapshot/snapshot.go:91-108 | in every reachable state the lock holder has a step to take |
| SnapshotProtocol.HolderGetsCloser | internal/snapshot/snapshot.go:91-108 | each step of the lock holder brings it exactly one step closer to releasing the lock, and no step of another thread sets it back |
| Config.Config.Normalise | internal/config/config.go:223-246 | the in-place loop fills in exactly the derived values of every device |
| Config.Config.FillIn | internal/config/config.go:225-239 | the fallbacks of one device, in the program's order |
| Config.Config.Validate | internal/config/config.go:324-422 | reports exactly the list of problems of the devices, the poll settings, the server, the dashboard and the log, in order; an empty list accepts the devices and the polling |
| Config.DuplicateReported | internal/config/config.go:332-352 | a duplicate is reported exactly when the non-empty name was used before, against the first device with it |
| Config.AcceptedConfiguration | internal/config/config.go:223-391 | an accepted configuration has devices with a name, a host and an interval of at least 500 ms, all names different, positive poll settings and stale_after above the poll interval |
| Config.AcceptedExactly | internal/config/config.go:324-422 | Validate reports nothing if and only if every rule is met, each rule written out with its constants |
| Config.NormalisedMeans | internal/config/config.go:225-239 | the fallback of every derived value; what was given stays |
| Config.TrimSpaceMeans | internal/config/config.go:226-227 | trimming takes white space off both ends and nothing else |
| Config.DistinctNamesPass | internal/config/config.go:348-352 | distinct names are never reported |
| Homewizard.CapabilitiesByGeneration | internal/homewizard/capabilities.go:43-57 | measurement and system always; the relay state exactly on a socket that is not v2; the telegram exactly on a P1; batteries exactly on v2 with API 2.1 or later for a P1 or one of the four kWh products |
| Homewizard.AtLeastAPIIsLexicographic | internal/homewizard/capabilities.go:59-77 | on "vA.B" and "vA" the comparison is the lexicographic one |
| Homewizard.Client.Disable | internal/homewizard/client.go:71-85 | switches off the named endpoint and nothing else |
| Homewizard.WithoutOnlyShrinks | internal/homewizard/client.go:71-85 | disabling only removes capabilities, and twice is once |
| Polling.Wrap64 | internal/poller/poller.go:156-165 | the result of a 64-bit operation: in range, and exact when the true result is |
| Polling.Poller.New | internal/poller/poller.go:59-85 | establishes 0 < backoffMin <= backoffMax, keeping every usable option and defaulting the others |
| Polling.Poller.Register | internal/poller/poller.go:91-94 | publishes the configured host for the device and changes no other record |
| Polling.Poller.PublishIdentity | internal/poller/poller.go:169-176 | publishes host, info, capabilities and API version as one update |
| Polling.Poller.Due | internal/poller/poller.go:220-226 | due if and only if the device is unknown, its system was never read, or was read at least that long ago |
| Polling.Poller.NoteSecondary | internal/poller/poller.go:259-269 | only not-found has an effect: the client's endpoint goes off and the new capabilities are published |
| Polling.Poller.ReadSecondary | internal/poller/poller.go:200-211 | one secondary request is published or noted as the specification says |
| Polling.Poller.PollSlow | internal/poller/poller.go:228-257 | store, client and journal end up as the specification of the slow endpoints says |
| Polling.Poller.PollRest | internal/poller/poller.go:200-216 | the same for everything after the measurement |
| Polling.Poller.Poll | internal/poller/poller.go:185-217 | the same for a whole poll, including its error |
| Polling.Poller.Connect | internal/poller/poller.go:133-138 | a new client with fresh capabilities, its identity published |
| Polling.Poller.Try | internal/poller/poller.go:132-141 | a pass up to the end of its poll: connects only without a client, polls only without an error |
| Polling.Poller.Reschedule | internal/poller/poller.go:146-165 | after a pass: unauthorized or API disabled drop the client and nothing else does; the next backoff, and the timer from interval or backoff plus the jitter drawn |
| Polling.Poller.RunPass | internal/poller/poller.go:130-165 | one whole pass, a cancelled one leaving the timer alone |
| Polling.Poller.Loop | internal/poller/poller.go:114-167 | over any admissible run the store ends with this device's record as the state machine says, every other record untouched, and the timer is set as it says |
| Polling.CancelledIsLast | internal/poller/poller.go:147-149 | no pass follows one that ended cancelled |
| PollingEffects.PollEffect | internal/poller/poller.go:185-217 | a failed measurement leaves record and capabilities alone; a successful one is published and only answered sections change after it |
| PollingEffects.PollExactly | internal/poller/poller.go:185-269 | a successful poll asks exactly the endpoints its capabilities allow, system and batteries if and only if the system was never read or is old enough, in order, publishes exactly their answers and switches off exactly what was not found |
| PollingEffects.AttemptEffect | internal/poller/poller.go:132-141 | what one whole pass may change; on failure no reading and no stamp |
| PollingEffects.FailedPassKeepsReadings | internal/poller/poller.go:189-192 | a failed poll changes no reading and none of the four stamps |
| PollingEffects.PassKeepsCaps | internal/poller/poller.go:169-176 | after every pass the published capabilities are the client's, and a kept client's only shrank |
| PollingTiming.DoublingMatches | internal/poller/poller.go:156-158 | k doublings give min(backoffMin * 2^k, backoffMax) while backoffMax < 2^62 |
| PollingTiming.DoublingIsExact | internal/poller/poller.go:156-158 | that holds for every k if and only if backoffMax < 2^62 |
| PollingTiming.DoublingOverflows | internal/poller/poller.go:155-158 | with both bounds at 2^62 the second wait is negative and all later ones are zero |
| PollingTiming.BackoffCountsFailures | internal/poller/poller.go:146-165 | on every run the backoff is a function of the number of consecutive failures |
| PollingTiming.WaitAfterFailure | internal/poller/poller.go:150-165 | after the k-th failure in a row the wait is in [B, B + B/50], B = min(backoffMin * 2^(k-1), backoffMax) |
| PollingTiming.PollsAreSpaced | internal/poller/poller.go:114-167 | on every admissible run any two poll starts are at least 500 ms apart |
| PollingTiming.AcceptedConfigurationIsSpaced | internal/config/config.go:223-391 | the same for every device of every configuration that normalise and Validate accept, with the default backoff, whose interval leaves room for its jitter |
| PollingTiming.DefaultPoller | internal/poller/poller.go:59-85 | a poller built without backoff options runs the devices of a configuration with exactly those settings, the backoff between 5 and 120 seconds |
| PollingTiming.SpacingNeedsRoomForJitter | internal/poller/poller.go:165 | every run is spaced if and only if interval + interval/50 fits in 64 bits |
| PollingTiming.TwoAtOnce | internal/poller/poller.go:165 | otherwise, a run with two polls at one moment |
| PollingRuns.RunStamps | internal/poller/poller.go:189-257 | on every run the record's stamps lie between the start and the end of the last successful poll, and the other three are set only if MeasuredAt is |
| PollingRuns.StampsNeverGoBack | internal/poller/poller.go:194-257 | extending a run turns no stamp back |
| PollingRuns.FailuresChangeNoReading | internal/poller/poller.go:189-192 | while every poll fails, readings and stamps stay what they were |
| PollingRuns.FreshnessFollowsSuccess | internal/snapshot/snapshot.go:45-49 | stale from stale_after past the end of the last success on, whatever failed since; fresh until stale_after past its start |
| PollingRuns.SystemReadingsArePaced | internal/poller/poller.go:213-243 | successive published system readings are at least system_interval apart, across failures and reconnects |
| PollingRuns.RunOwned | internal/poller/poller.go:88-105 | a loop's record is what its own published updates build |
| PollingRequests.RequestsOnEveryRun | internal/poller/poller.go:185-269 | on every run: no secondary endpoint is asked again by a client that was told not-found; batteries are asked on v2 only, the relay state never on v2 |
| PollingRequests.NothingIsAskedAgain | internal/poller/poller.go:185-269 | on a run no endpoint at all is asked again by a client it told not-found, if and only if no pass but the last is told so about its measurement |
| PollingRequests.MeasurementIsAskedAgain | internal/poller/poller.go:189-192 | an admissible run on which the same client is told not-found twice about its measurement |
| PollingRequests.PublishedCapsAreTheClients | internal/poller/poller.go:169-269 | whenever a loop waits, the snapshot's capabilities are those of the last connected client and within what its product and version allow |
| PollingRequests.CapsOnlyShrink | internal/homewizard/client.go:71-85 | as long as a client is kept its capabilities only shrink |
| PollingOutcomes.ClientAfterPass | internal/poller/poller.go:132-153 | after every pass of a run: without a client there is none; a pass that had one drops it if and only if it was not cancelled and its measurement was answered unauthorized or API disabled; otherwise it is the same client, or the new one |
| PollingOutcomes.ReconnectsExactlyAfterRefusal | internal/poller/poller.go:132-153 | a pass connects anew if and only if it can and the pass before had no client or was refused |
| PollingOutcomes.ClientSurvives | internal/poller/poller.go:132-153 | as long as no pass is refused the client and its identity stay, whatever else fails |
| PollingOutcomes.PollAsks | internal/poller/poller.go:185-257 | in instants: a successful poll asks for the system and the batteries, where allowed, if and only if the system was never read or was read at least the interval before `due` |
| PollingOutcomes.SlowEndpointsAreReadWhenDue | internal/poller/poller.go:213-257 | on every run the same against the last system reading published: one that is due is taken, across failures and reconnects |
| PollingOutcomes.WaitAfterSuccess | internal/poller/poller.go:146-165 | after a success the wait is in [interval, interval + interval/50] and the backoff is back at its minimum |
| PollingSteps.ActKeeps | internal/poller/poller.go:114-257 | every step of a loop taken apart, reading its own record from the store when it checks `due`, keeps it on course to what its pass does alone, and hands over exactly the updates it has recorded |
| PollingSteps.EndKeeps | internal/poller/poller.go:142-165 | a finished pass extends the admissible run, and the loop stands where that run ends |
| Fleet.OwnIsMine | internal/config/config.go:346-352 | with distinct names the updates under a device's name are those of its own loop, in every prefix of every interleaving |
| Fleet.RecordsAreOwnExactlyWithDistinctNames | internal/config/config.go:346-352 | every device's record is the replay of its own loop's updates, whatever is interleaved, if and only if no two loops share a name |
| Fleet.EveryLoopRunsAlone | internal/poller/poller.go:88-105 | in every state of every interleaving, in the middle of a pass too: each loop is on an admissible run of its own, the store shows of its device what it has published, all but at most the update in progress, and what it reads is the record it has built |
| Fleet.ShownBetweenPasses | internal/poller/poller.go:88-105 | between two passes the store shows the record the loop would have alone |
| Fleet.ShownFreshness | internal/snapshot/snapshot.go:45-49 | so what a reader sees goes stale with the loop's last success and not before, in every interleaving |
| Fleet.AcceptedConfigurationRuns | internal/poller/poller.go:88-105 | all of this for the loops of every accepted configuration, whose polls are spaced as well |
| Fleet.LoadedIsDated | internal/snapshot/snapshot.go:77-108 | every snapshot ever loaded holds records under their own names, none dated before the zero time |
| Timestamps.ParseCompactTimestamp | internal/homewizard/models.go:148-160 | the padding loop and the checks compute the specified result |
| Timestamps.PaddingExact | internal/homewizard/models.go:152-158 | padding gives exactly 12 digits for exactly the numbers below 10^12 and keeps the value |
| Timestamps.CompactAccepts | internal/homewizard/models.go:148-160 | what is accepted is a real date-time from 1969 to 2068 whose number is the one given; only numbers up to zero mean "never" |
| Timestamps.CompactRoundTrip | internal/homewizard/models.go:148-160 | every date-time from 1969 to 2068, sent as its number, parses to itself |
| Timestamps.CompactInjective | internal/homewizard/models.go:148-160 | different accepted numbers never mean the same moment |
| Timestamps.CompactMonotone | internal/homewizard/models.go:148-160 | below two-digit year 69 larger means later, and conversely |
| Timestamps.ISORoundTrip | internal/homewizard/models.go:141-146 | every date-time of years 0 to 9999, written in the ISO form, parses to itself |
| Timestamps.FormatsAgree | internal/homewizard/models.go:141-160 | both formats of one date-time parse alike |
| Timestamps.ISOAccepts | internal/homewizard/models.go:141-146 | whatever is accepted is a real date-time; only the empty text means "never" |
| Timestamps.CalendarMeans | internal/homewizard/models.go:141-160 | the date-times meant are those of the Gregorian calendar, to the second |
| Timestamps.CompactNotation | internal/homewizard/models.go:157-159 | the number is YYMMDDhhmmss, two digits for each part |
| Timestamps.ISONotation | internal/homewizard/models.go:145 | the text is YYYY-MM-DDThh:mm:ss, digit by digit |
| Measurements.V1Externals | internal/homewizard/v1.go:186-199 | the loop accepts exactly the lists without a malformed timestamp on a reported meter, and names the first bad entry |
| Measurements.MeasurementV1 | internal/homewizard/v1.go:178-222 | an error exactly when a timestamp that has to be read spells no date-time, and which; otherwise the reported meters one by one, or the gas meter alone, each with its own fields and exactly the moment the local zone gives the date-time its number spells, the zero time for none; the peak likewise |
| Measurements.V2Externals | internal/homewizard/v2.go:170-179 | the same for v2 lists |
| Measurements.MeasurementV2 | internal/homewizard/v2.go:158-182 | the same for v2: measurement, peak and every reported meter carry exactly the moment their text names |
| Measurements.CompactStampMeans | internal/homewizard/v1.go:178-217 | a v1 timestamp is read exactly when it is absent, not positive, or spells a date-time of 1969 to 2068, and then stands for that moment |
| Measurements.ISOStampMeans | internal/homewizard/v2.go:158-177 | a v2 timestamp stands for the moment of the date-time it writes |
| Measurements.MetersAreTheValuedEntries | internal/homewizard/v1.go:186-199 | the list is exactly the entries that have a value, each once, in order |
| Measurements.GasPromotion | internal/homewizard/v1.go:201-220 | the flat gas meter appears only when no listed entry has a value, and then alone |
| Measurements.GenerationsAgree | internal/homewizard/v2.go:170-179 | raw v1 and v2 lists whose non-null entries match in identifier, kind, unit, value and date-time (each in its own notation, or absent in both) are accepted and give equal meters |
| Descriptors.AllDescs | internal/metrics/descriptors.go:283-310 | the appending loops announce the fixed descriptors and then the four tables |
| Descriptors.EveryDescAnnounced | internal/metrics/descriptors.go:283-310 | every descriptor a series can carry is announced |
| Descriptors.AnnouncedOnce | internal/metrics/descriptors.go:283-310 | none is announced twice |
| Collector.Emitter.Plain | internal/metrics/collector.go:236-238 | sends one series |
| Collector.Emitter.Send | internal/metrics/collector.go:232-234 | sends one gauge with the device name as first label |
| Collector.Emitter.Optional | internal/metrics/collector.go:208-219 | sends a series exactly when the value is present |
| Collector.Emitter.PerPhase | internal/metrics/collector.go:221-230 | does so for each of the three phases |
| Collector.Emitter.CollectMeasurement | internal/metrics/collector.go:99-150 | sends the specified series of the measurement, in order |
| Collector.Emitter.CollectSystem | internal/metrics/collector.go:152-167 | the same for the system section |
| Collector.Emitter.CollectState | internal/metrics/collector.go:169-182 | the same for the relay state |
| Collector.Emitter.CollectBatteries | internal/metrics/collector.go:184-202 | the same for the batteries |
| Collector.Emitter.CollectDevice | internal/metrics/collector.go:60-87 | the same for one device, sections that were never read left out |
| Collector.Emitter.Collect | internal/metrics/collector.go:44-58 | the same for a snapshot of any size; nothing before the first snapshot |
| CollectorFacts.DeviceMember | internal/metrics/collector.go:60-202 | a device's series are exactly its reported fields in the sections that have been read, with their scaled values and labels |
| CollectorFacts.CollectExactly | internal/metrics/collector.go:44-58 | a scrape holds the device count, the reported fields of every known device and nothing else |
| CollectorFields.CollectFieldByField | internal/metrics/collector.go:44-252 | metric by metric, with the record's own fields, literal labels and literal scales: a series is in the scrape if and only if its section was read and that very field holds its value |
| CollectorFields.OneDeviceOneField | internal/metrics/descriptors.go:41-223 | the same for one device: what carries its name is decided by its own fields |
| CollectorKeys.ExternalKeys | internal/metrics/collector.go:142-149 | the meters' series are distinguishable exactly when no two meters share identifier and kind together with the unit, or with both having a timestamp |
| CollectorKeys.PermissionKeys | internal/metrics/collector.go:199-201 | the permissions' series are distinguishable exactly when the permissions are |
| CollectorKeys.DeviceKeys | internal/metrics/collector.go:60-202 | a device repeats no descriptor with its labels if and only if its meters and permissions do not collide |
| CollectorKeys.SeriesAreOwned | internal/metrics/collector.go:208-234 | every series of a device carries its name as first label |
| CollectorKeys.NoDuplicateSeries | internal/metrics/collector.go:44-58 | a scrape of any size repeats none if and only if no device does |
| CollectorKeys.DistinctMetersAreEnough | internal/metrics/collector.go:142-149 | meters distinct on identifier and kind, and distinct permissions, suffice |
| Health.FreshDespiteClamping | internal/snapshot/snapshot.go:45-49 | the 64-bit clamping of an age never changes whether it is below stale_after |
| Health.Inspect | internal/poller/poller.go:279-294 | the loop finds out whether any device is fresh, and lists every device when none is |
| Health.Healthz | internal/poller/poller.go:272-301 | succeeds exactly when some device is fresh; otherwise says "no devices" or reports every device in name order with its age |
| Health.AgeMeans | internal/poller/poller.go:287-293 | the age reported is that of the last reading, in whole seconds rounded down; none without a reading |
| Dashboard.Describe | internal/web/view.go:115-172 | one device's line: status, phases that report power, all meters, network name with its fallback |
| Dashboard.StatusMeans | internal/web/view.go:162-169 | "never reported" exactly without any stamp, "ok" exactly when up, otherwise stale with the age in whole seconds |
| Dashboard.PhasesAreTheReported | internal/web/view.go:145-152 | a phase is shown exactly when it reports power, under its own name, none twice |
| Dashboard.TotalWithout | internal/web/view.go:78-97 | a total over the devices does not depend on their order |
| Dashboard.AddDevice | internal/web/view.go:78-97 | the loop body adds exactly one device's share to each total |
| Dashboard.BuildView | internal/web/view.go:72-113 | Online counts exactly the fresh devices, Watts sums the fresh P1 meters only, water the fresh devices that report it, UpdatedAt is the latest read; one line per device in name order |
| Dashboard.HouseholdTotals | internal/web/view.go:90-96 | Watts is the total power of exactly the fresh HWE-P1 devices that report it, the flow that of the fresh devices reporting one |
| Dashboard.DescribedFieldByField | internal/web/view.go:115-160 | every entry of a line is the record's own field |
| Dashboard.PhaseNamesPrinted | internal/web/view.go:145-152 | the phases are printed as L1, L2 and L3 |
| Dashboard.Settle | internal/web/view.go:99-110 | status and Up follow from UpdatedAt, Online and Devices, one status for each case |
| Consumers.UpMeansFresh | internal/metrics/collector.go:61 | a device has one homewizard_up, 1 when fresh and 0 when not |
| Consumers.OneVerdict | internal/poller/poller.go:272-301 | Healthz succeeds if and only if the dashboard is up if and only if some homewizard_up is 1 |
| Consumers.LoadedVerdict | internal/poller/poller.go:272-301 | they agree on every snapshot any reader loads, in every run of loops with distinct names |
| Consumers.Consume | internal/web/view.go:72-113 | the same for the three programs run on one snapshot |
| Capture.Scrubbed | cmd/homewizard_exporter/capture.go:186-212 | an object keeps having a string identifier, and then it is the placeholder, which is long enough to take a suffix |
| Capture.PathByPath | cmd/homewizard_exporter/capture.go:151-212 | the result has exactly the paths of the input, with the same kinds, lengths and keys; each plain value is what its own path calls for, with the five keys and their placeholders written out |
| Capture.StringsByKey | cmd/homewizard_exporter/capture.go:151-157 | wherever it stands, a string under serial, unique_id, gas_unique_id, unique_gas_id or wifi_ssid becomes its literal placeholder, numbered for an identifier in a list, and a string under any other key is kept |
| Capture.TwoDigitsPrint | cmd/homewizard_exporter/capture.go:205 | the suffix is the position in decimal, at least two digits |
| Capture.IdentifiersStayDistinct | cmd/homewizard_exporter/capture.go:200-206 | the identifiers of one list stay pairwise distinct, for lists of any length |
| Capture.KeepsAllButSecrets | cmd/homewizard_exporter/capture.go:148-212 | two documents scrub alike if and only if they differ only in strings at secret keys |
| Capture.ScrubbingIsIdempotent | cmd/homewizard_exporter/capture.go:186-212 | scrubbing again changes nothing |
| CaptureWalk.Walk | cmd/homewizard_exporter/capture.go:186-212 | rewriting in place gives that result for every tree and every order of map iteration, in the same objects, writing to no other; at every path the value has become what the path calls for |
| CaptureWalk.StringsLeft | cmd/homewizard_exporter/capture.go:151-157 | key by key, what then stands in the value where the document had a string |
| CaptureWalk.WalkObject | cmd/homewizard_exporter/capture.go:188-197 | the same for the loop over a map, keys taken in any order |
| CaptureWalk.WalkElements | cmd/homewizard_exporter/capture.go:198-210 | the same for the loop over a list |
| CaptureWalk.Number | cmd/homewizard_exporter/capture.go:204-206 | overwrites exactly a string identifier, with the position as suffix |
| CaptureWalk.Untouched | cmd/homewizard_exporter/capture.go:186-212 | what a value denotes depends on its own objects alone |
| Telegram.MatchAtExact | cmd/homewizard_exporter/capture.go:165 | the scan finds exactly the matches of the pattern, at most one per position |
| Telegram.CodesAreThose | cmd/homewizard_exporter/capture.go:159-165 | the objects looked for are exactly 96.1.0, 96.1.1 and 96.13.0 |
| Telegram.ScrubbedByteByByte | cmd/homewizard_exporter/capture.go:217-224 | in a result of the same length exactly the bytes between the parentheses of the leftmost non-overlapping matches become '0', also across lines; no other byte changes |
| Telegram.SameMatches | cmd/homewizard_exporter/capture.go:217-224 | the pattern matches the output exactly where it was selected in the input |
| Telegram.NothingIdentifyingLeft | cmd/homewizard_exporter/capture.go:159-165 | whatever in the output still looks like an identifying object holds nothing but zeros |
| Telegram.ScrubbingTwice | cmd/homewizard_exporter/capture.go:217-224 | scrubbing again changes nothing |
| Args.ExtractHost | cmd/homewizard_exporter/args.go:11-51 | succeeds exactly when only empty words precede the last positional one; returns that word and everything else in order; an error names the first word after the host |
| Args.AgreesWithParser | cmd/homewizard_exporter/args.go:11-68 | Go's flag parser on the rest gives the same error, or the same flags and leftovers, as reading the whole line with words allowed anywhere, and sets the same words aside: no flag value is taken as host |
| Args.LeavesWordsAfterDashes | cmd/homewizard_exporter/args.go:15-18 | a successful parse of the rest leaves exactly the words after the first "--" that is not a flag's value, and none if there is no such "--": every word before it is consumed |
| Args.OneCut | cmd/homewizard_exporter/args.go:15-18 | there is only one way to cut a command line there |
| Args.ExactlyTheHostIsRemoved | cmd/homewizard_exporter/args.go:20-26 | exactly the host is removed, the other words in order, if and only if no empty word stands in a host's place |
| Args.EmptyWordIsDropped | cmd/homewizard_exporter/args.go:20-26 | a command line where an empty word and the host both disappear |
| Args.HostMayMove | cmd/homewizard_exporter/args.go:9-51 | moving the host across whole flags before "--" changes nothing |
| Args.ParseWithHost | cmd/homewizard_exporter/args.go:54-68 | returns the one host and the flags of the reference reading, or the first error of the three: a second host, then the parser's own, then a missing host |
| Args.FlagForms | cmd/homewizard_exporter/args.go:28-47 | with one dash or two: a flag alone is set to "true" or takes the next word, and takes what follows "=" |
| Discover.UniqueName | cmd/homewizard_exporter/discover.go:132-138 | counts the name and numbers it from the second use on |
| Discover.BaseNames | cmd/homewizard_exporter/discover.go:114-138 | the base name of every product, bare for the first device of a kind and numbered from two on |
| Discover.Names | cmd/homewizard_exporter/discover.go:72-74 | the loop over the devices numbers each base name by how often it came before |
| Discover.NamesAreDistinct | cmd/homewizard_exporter/discover.go:72-74 | the printed names are pairwise different, for any sequence of devices |
| Discover.NumberedInjective | cmd/homewizard_exporter/discover.go:114-138 | no base name with a number is another base name, with or without one |
| Discover.PrintedNamesPass | cmd/homewizard_exporter/discover.go:70-76 | a configuration with the printed names is never refused for a duplicate |

## Left out

- HTTP, TLS and certificates, mDNS, files, YAML and JSON text, logging and signals: each request is an arbitrary outcome, each document arrives decoded.
- The order in which v1 and v2 are tried when connecting: a connection yields any version and identity, or any failure.
- Fields that v1 and v2 responses copy one to one: carried through `copied`, not listed again.
- Time zones: a civil date-time becomes a moment through an arbitrary function.
- Floating-point rounding: readings are real numbers, and a number printed by strconv.FormatFloat stays a number inside a label.
- Metric names and help texts: one constructor stands for each descriptor.
- Poll counters and the Prometheus registry: one observation per pass, no kept state of the poller's own.
- The environment variables and token files: `hasToken` stands for a token from any source.
- Allocation and garbage collection: a fresh address is any unused one.
- Pages, landing page, Grafana, packaging and the fake device: no behaviour beyond showing what is modelled.
- The choice of endpoints and file names in capture: a short list without state.
- Telegram.ScrubTelegram: does not model the fallback that chooses between JSON and telegram; each rewrite is modelled on its own.
- Args.ParseWithHost: whether a flag accepts a value is an arbitrary function of name and value, and usage output is left out.
- PollingRuns.SystemReadingsArePaced: says nothing of the batteries, which are not paced while the system endpoint is off or failing.
- PollingRuns.FreshnessFollowsSuccess: does not promise that a healthy device stays fresh, because stale_after is compared with the poll interval and not with a device's own.
- Dashboard.Describe: the age in a status stays a duration, not its text.
