# Verified model of the whoisthat core state and log pipeline

whoisthat is a VPN client: a Go daemon keeps an encrypted profile database, a
background subscription scheduler, routing rules, a kill switch and its key
files; a Rust terminal client writes and follows logs. This project models the
parts that must never be corrupted and proves what they promise over every
input, every interruption and every run.

The code changes things step by step, so the model does too: each stateful part
is a class whose methods perform the source's steps (`ProfileStore.Database`,
`Scheduler.AutoUpdater`, `LogTail.Tail`, `LogRotation.FileLogger`,
`Routing.RoutingDaemon`, `KillSwitch.Guard`, `KeyFiles.KeyStore`,
`SubscriptionFields.StoredGroup`). Every method is tied to a function of the
old state, and the laws are lemmas about those functions.

`dafny verify dfyconfig.toml` checks the whole project.

## What is proved

**Subscription refresh** (`Listings`, `IdAssignment`, `Refresh`, `RefreshRuns`,
`RefreshReplans`, `RefreshLaws`, `RetryNecessity`, `StableIds`, `Cursors`,
`ProfileStore`). A refresh is the list of file operations it performs; each one
may succeed, fail (writes end the refresh, removals are ignored) or be the point
where the process dies.

- However many attempts are stopped, and wherever, the one that runs to its end
  leaves the configuration, ids, order, counter, files and measurements of an
  uninterrupted run (`RetriesConverge`). Full equality of the disk after one stop,
  stored provider configurations included, holds *if and only if* every managed
  entry carries a configuration and no removed profile has a stored configuration:
  a stop between removing a profile file and its configuration leaves that
  configuration behind for good (`RetryIsExact`).
- For one group, every refresh can be repeated after any stop *if and only if*
  the stored order list would list ids not yet issued last and ascending
  (`RetryNeedsSafeOrder`). `ReorderProfiles` accepts any list, so a client can
  break this by naming an id above the counter; every group that operations lead
  to without such a list, failed and cut off operations included, is repeatable
  (`ReachedGroupsAreRepeatable`).
- A second identical refresh is the identity on the disk *if and only if* every
  imported managed entry carries a configuration (`RefreshTwice`); an entry
  without one is stored as unmanaged and gets another id each time.

**Ids over whole runs** (`StoreOps`, `ListingOps`, `IdRuns`, `ProfileStore`). Every
operation of the database is a list of file operations too, and may fail or be cut
off anywhere.

- Over any run, live ids stay below their counters, no id changes its meaning and
  none is issued twice, *if and only if* each operation is harmless
  (`IdsNeverChangeMeaning`). All are, but for a refresh that stops between writing a
  new id and saving the counter, a move that does the same, and an entry without its
  configuration that is written over an old profile. An operation that completes can
  only be harmful in the last way (`CompletedIsHarmless`).
- The next profile that is added or moved into a group takes over the file of
  another one exactly after such a stop (`ArrivalAfterStoppedRefresh`).
- Wherever a move stops, the profile is still in its old group or has arrived in the
  new one with its measurements and its configuration (`MoveCarriesProfile`).

**Scheduler** (`Scheduler`, `SchedulerRuns`). Retry entries count failures in a
row; the next attempt respects the pause; fetches are due or are probes; at most
one probe succeeds per start. User edits may fall between planning and trying.

**Settings** (`SubscriptionFields`). Refreshes never touch what belongs to the
user. A manual name survives titles that differ from it; a title equal to it
turns it into an automatic name, which follows from then on, and the lemma gives
the resulting name exactly.

**Routing** (`Routing`). Writes, removals and reloads may fail. The running proxy
agrees with the database after each handler, reload or not, *except* exactly when a
needed reload is refused, when an update of a group's rules fails at its last write
after having switched the group to other rules (`AgreementCanBreak` gives such a
run), when a customised group without rules file gets a copy of the global rules but
its settings cannot be written, or when a deleted profile's geo assets were in use by
another profile. The last is a fact about arbitrary files: downloads only ever fill a
profile's own directory (core/core/lib/happ/geo.go:68-72), so it does not occur.

**Kill switch** (`KillSwitch`). The safe states, the three exact ways out of
them, and truthful status frames.

**Key files** (`KeyFiles`). No number of starts, complete or cut off, loses a key
that opens the database, and all of them load the same one.

**Logs** (`LogLines`, `LogTail`, `LogRotation`, `LogFormat`, `Utf8`, `LogPipeline`).
The follower's output does not depend on how reads split the stream; the two-file
log keeps the newest records through any failures; written lines parse back; and
the writer, the files, the follower, UTF-8 and the parser together: every record of
one line that is read completely is shown once, in order, also when a read ends in
the middle of a character, and file by file when the log is rotated.

**Answers.** The laws above compare states with each other. What each operation
answers is stated separately, in the fields of its input and without the functions
that compute it: which interval decides whether a group is fetched (`PlanAnswers`,
`OverrideDecides`, `ProviderDecides`), which rules run (`ResolveAnswers`,
`ActivatedProfileRuns`, `NewRulesRun`), when a follower starts over (`PollAnswers`),
when the block is installed (`SwitchOnAnswers`), which key is loaded and which files
are left alone (`CompleteStartAnswers`, `InvalidKeysAreKept`), which entries are
imported and reported (`EveryEntryIsImported`, `ReportAnswers`), and so on for the
other operations.

Proofs use `hide` statements to keep unneeded function bodies out of scope.

## Model

| member | source | states |
|---|---|---|
| Listings.ListingIff | core/core/db/groups.go:149-185 | the built listing is the one sequence that has every stored id once, listed ids first by first occurrence, the others ascending |
| Listings.ListingNormalises | core/core/db/groups.go:274-298 | for any stored order nothing is hidden or repeated, and listing under the produced order changes nothing |
| Text.TrimSpaceAnswers | core/core/db/group_sync.go:165-167 | trimming takes away white space on both sides, and all of it |
| Text.ItoaAnswers | core/core/db/groups.go:253-258 | group numbers are written in decimal digits |
| IdAssignment.NthOccurrenceGetsNthId | core/core/db/group_sync.go:65-111 | the n-th incoming occurrence of an identity takes the n-th old id of it, later ones ids above the counter |
| IdAssignment.AssignedDistinct | core/core/db/group_sync.go:58-111 | no id is handed out twice |
| IdAssignment.Replay | core/core/db/group_sync.go:80-111 | with the fresh entries of any prefix filed behind the old ones, assignment starts over to the same ids and counter |
| Cursors.PickId | core/core/db/group_sync.go:80-106 | the per-identity cursor loops take the first remaining id of the identity and skip the kept profile |
| ProfileStore.EffectiveOrder | core/core/db/groups.go:166-185 | the two reader passes compute exactly the listing |
| ProfileStore.Database.GetGroupDataAndProfiles | core/core/db/groups.go:133-191 | a group is read as its profiles in listing order; a missing group is an error |
| ProfileStore.Database.GetAllGroupsAndProfiles | core/core/db/groups.go:66-125 | every group is listed once, by the same order rule |
| ProfileStore.Database.UpdateGroupAndProfiles | core/core/db/group_sync.go:11-163 | the refresh performs the planned operations in order under any outcome of each, reports the kept profile and those imported completely, and leaves a store on which it can be called again |
| ProfileStore.ReportAnswers | core/core/db/group_sync.go:43-56 | the report is what is on disk under the new order, as far as the refresh came |
| ProfileStore.StoredCountAnswers | core/core/db/group_sync.go:134-146 | how far a refresh came, by the outcome of its writes |
| ProfileStore.Database.RemoveStale | core/core/db/group_sync.go:154-161 | stale files go one by one, errors ignored |
| RefreshRuns.AnyInterruption | core/core/db/group_sync.go:113-162 | however it ends, the disk is either the old configuration and as many profiles as were written, or the new configuration with all its profiles present |
| RefreshRuns.SmoothRefreshCompletes | core/core/db/group_sync.go:134-162 | without failures the refresh completes |
| RefreshLaws.RetryConverges | core/core/db/group_sync.go:11-163 | a repeated stopped refresh ends with the configuration and files of an uninterrupted one; configurations differ by orphans only |
| RefreshLaws.RetriesConverge | core/core/db/group_sync.go:11-163 | any number of stopped attempts followed by a complete one ends with the configuration and files of an uninterrupted refresh; left over are only configurations of removed profiles |
| RefreshLaws.RefreshTwice | core/core/db/group_sync.go:58-162 | the second refresh is the identity iff every imported managed entry has a configuration |
| RetryNecessity.RetryIsExact | core/core/db/group_sync.go:123-161 | equality after any stop iff entries are storable and no removed profile has a stored configuration |
| RetryNecessity.RetryNeedsSafeOrder | core/core/db/group_sync.go:29-41 | all refreshes of a group are repeatable iff its order list keeps unissued ids last and ascending |
| RetryNecessity.TornRemoval | core/core/db/group_sync.go:156-161 | for each removed profile with a configuration there is a stop that orphans it |
| RefreshReplans.KnownEntriesAreSafe | core/core/db/group_sync.go:29-41 | an order list without entries above the counter is safe |
| StableIds.DuplicatesKeepTheirIds | core/core/db/group_sync.go:22-132 | position by position: n-th duplicate keeps the n-th old id with its measurements, else a new id above everything stored; each stored profile is what its entry says and has its configuration stored |
| StableIds.EveryEntryIsImported | core/core/db/group_sync.go:70-146 | every entry but the connected profile's own is imported, in the order of the subscription, and nothing else |
| StableIds.OrderMatchesFiles | core/core/db/group_sync.go:148-162 | after success the files are exactly the ids of the order, distinct, at most the counter |
| StableIds.ConnectedProfileSurvives | core/core/db/group_sync.go:43-63 | in every outcome the kept profile's file and configuration are untouched; on success it is first |
| StableIds.FailureKeepsTheGroup | core/core/db/group_sync.go:134-155 | until the new configuration is durable, order and counter are unchanged, and an old id keeps its identity exactly unless an entry without its configuration was written there |
| StableIds.ConnectedIdentityIsUnique | core/core/db/group_sync.go:70-78 | after a refresh nobody else has the kept identity, iff no entry is stored as it without being recognised as it |
| StableIds.SettingsAreCarried | core/core/db/group_sync.go:148-152 | however a profile merge ends, the group's settings are those it was started with |
| ListingOps.ListedAfterDelete | core/core/db/profiles.go:91-113 | once its file is removed the profile is out of the listing and the rest keeps its order, whatever becomes of the other steps; before, nothing changes |
| ListingOps.DeleteAnswers | core/core/db/profiles.go:91-113 | a deleted profile has neither file nor configuration nor place in the order, and nothing else changes |
| ListingOps.AddTouchesOneProfile | core/core/db/profiles.go:130-188 | whatever becomes of its steps, an addition counts the id before anything is written and touches no other profile; on success the profile is what its entry says, untested, with its configuration stored |
| ListingOps.ListedAfterArrival | core/core/db/profiles.go:136-141 | a new profile is listed behind the ordered profiles, before those the order list misses |
| ListingOps.AddThenDelete | core/core/db/profiles.go:91-188 | deleting the profile just added restores the group but for its counter, iff nothing was stored or ordered under its id |
| ListingOps.MoveCarriesProfile | core/core/db/groups.go:300-359 | wherever a move stops the profile is in its old group or has arrived with identity, measurements and configuration; on success it has moved from one listing to the other |
| ProfileStore.Database.AddGroup | core/core/db/groups.go:218-272 | whole new store of adding a group, under any outcome of each step |
| ProfileStore.Database.DeleteGroup | core/core/db/groups.go:199-216 | whole new store of deleting a group, under any outcome of each step |
| StoreOps.AddedGroupAnswers | core/core/db/groups.go:218-272 | number, place, name and settings of a new group; the rest stays |
| StoreOps.FailedGroupAnswers | core/core/db/groups.go:218-258 | a group that could not be created has used up its number |
| StoreOps.DeletedGroupAnswers | core/core/db/groups.go:199-216 | a deleted group is gone from directories and order; the rest stays |
| ProfileStore.Database.AddProfile | core/core/db/profiles.go:130-188 | whole new store of adding a profile under the next id, under any outcome of each file operation, and the profile reported |
| ProfileStore.Database.DeleteProfile | core/core/db/profiles.go:91-113 | whole new store of deleting a profile, under any outcome of each file operation |
| ProfileStore.Database.RenameProfile | core/core/db/profiles.go:41-77 | rename goes to the record's own group and id, with the nano id check, and reports the record; a failed write changes nothing |
| StoreOps.RenameAnswers | core/core/db/profiles.go:41-77 | the record has the new name and nothing else changes, or the rename is refused |
| ProfileStore.Database.MoveProfile | core/core/db/groups.go:300-359 | whole new store of a move, under any outcome of each file operation, and the profile reported |
| ProfileStore.Database.ReorderProfiles | core/core/db/groups.go:274-285 | any order list is stored, or nothing when the write fails |
| StoreOps.ReorderAnswers | core/core/db/groups.go:274-298 | the list given is the one stored, and nothing else changes |
| IdRuns.IdsNeverChangeMeaning | core/core/db/profiles.go:130-188 | over any run, failed and cut off operations included, live ids stay below their counters, keep their identity and are never issued again, iff every operation is harmless |
| IdRuns.StepKeepsMeaning | core/core/db/groups.go:199-359 | one operation keeps the meaning of all ids iff it is no refresh or move that stops uncounted, and writes no entry without its configuration over an old profile |
| IdRuns.CompletedIsHarmless | core/core/db/group_sync.go:80-132 | a completed operation is harmless, unless it is a refresh that imports an entry without its configuration over an old profile |
| IdRuns.ArrivalAfterStoppedRefresh | core/core/db/profiles.go:136-147 | wherever a refresh stopped, the next added or moved profile takes over the file of another one iff the counter was not saved and a written entry had drawn a new id |
| IdRuns.ReachedGroupsAreRepeatable | core/core/db/group_sync.go:11-163 | after any run in which clients reorder issued ids only, any refresh of any group can stop anywhere and be repeated |
| Scheduler.BackoffDuration | core/core/commands/subscription_scheduler.go:49-58 | min(30 min * 2^(f-1), 6 h), doubling never beyond twice the cap |
| Scheduler.BackoffAnswers | core/core/commands/subscription_scheduler.go:49-58 | half an hour, doubled with each failure, six hours at most |
| Scheduler.AutoUpdater.PlanAutoUpdate | core/core/commands/subscription_scheduler.go:66-103 | per-group plan for every id, targets in listing order, entries of unlisted or disabled groups dropped |
| Scheduler.TargetsAreGroups | core/core/commands/subscription_scheduler.go:66-103 | each due or probed group is a target, and at most once |
| Scheduler.PlanAnswers | core/core/commands/subscription_scheduler.go:28-47 | a group is planned iff it has a URL, is switched on, no pause runs, and the interval has passed or it is to be probed; what is remembered of it afterwards |
| Scheduler.OverrideDecides | core/core/commands/subscription_scheduler.go:28-33 | a user's interval decides whatever the provider says |
| Scheduler.ProviderDecides | core/core/commands/subscription_scheduler.go:28-33 | without a user's interval the provider's decides |
| Scheduler.TargetsAnswer | core/core/commands/subscription_scheduler.go:66-103 | the plan of a list of groups holds exactly these refreshes and probes |
| Scheduler.TargetsFollowListing | core/core/commands/subscription_scheduler.go:66-103 | targets come in listing order |
| Scheduler.TickAnswers | core/core/commands/subscription_scheduler.go:128-157 | what a whole tick with its attempt leaves of a group's entry |
| Scheduler.AutoUpdater.Tick | core/core/commands/subscription_scheduler.go:128-157 | per-group effect of a whole tick |
| SchedulerRuns.RetriesAreSpaced | core/core/commands/subscription_scheduler.go:128-157 | over any run the entry counts failures in a row, and real attempts are the pause apart, less the delay of the failed one in its tick |
| SchedulerRuns.FetchesAreDue | core/core/commands/groups.go:54-78 | every background fetch is for an enabled group and due, or a probe; at most one probe succeeds |
| SchedulerRuns.FetchedIffWanted | core/core/commands/subscription_scheduler.go:66-157 | in a tick with a user's edit between planning and trying, a group is fetched iff it is listed, no pause runs, and it is due, or unknown and to be probed, both times it is looked at |
| SchedulerRuns.AutoUpdateAnswers | core/core/commands/groups.go:54-78 | when an attempt is made at all, and what a group that cannot be loaded counts as |
| SchedulerRuns.FetchAnswers | core/core/commands/groups.go:111-155 | a fetch stores the provider's interval, and the merge time in seconds only when it succeeded |
| SubscriptionFields.StoredGroup.MergeSubscriptionFields | core/core/db/subscription_fields.go:20-62 | absent fields are kept, the name follows the title |
| SubscriptionFields.StoredGroup.UpdateGroupConfig | core/core/db/groups.go:361-399 | the user's change, or an error that stores nothing |
| SubscriptionFields.MergeAnswers | core/core/db/subscription_fields.go:20-62 | each field after a merge: present ones are stored, absent ones and all user settings stay, names follow the title |
| SubscriptionFields.ChangeAnswers | core/core/db/groups.go:361-399 | each field after a user's change, and the refusal of a negative interval |
| SubscriptionFields.RefreshesKeepEdits | core/core/db/subscription_fields.go:20-62 | in any interleaving the user's settings are those of the edits alone |
| SubscriptionFields.AutomaticNameFollows | core/core/db/subscription_fields.go:49-57 | an automatic name is the last title that is not blank |
| SubscriptionFields.ManualNameSurvives | core/core/db/subscription_fields.go:49-57 | the exact name of a manually named group after any refreshes |
| Routing.SkippedRulesDoNotMatter | core/core/commands/routing.go:125-151 | a rules change that causes no reload leaves the connected group's selection as it was |
| Routing.SkippedDeletion | core/core/commands/happ_routing.go:278-293 | a deletion without reload changes nothing iff the deleted geo assets were not in use |
| Routing.FailedUpdate | core/core/commands/routing.go:70-87 | a rules update that fails leaves the selection alone iff it did not activate other stored rules |
| Routing.FailedSwitch | core/core/db/routing.go:134-178 | a source switch that fails leaves the selection alone iff it did not put rules into a customised group that had lost its own |
| Routing.HandlerKeepsAgreement | core/core/commands/routing.go:47-151 | each handler, whatever becomes of its writes, removals and reload, keeps running and resolved routing equal, with the exact exceptions |
| Routing.ProxyStaysInAgreement | core/core/db/happ_routing.go:315-408 | over any run of the five handlers whose settings are written and whose reloads are not refused, the proxy runs what the database resolves to |
| Routing.AgreementCanBreak | core/core/commands/routing.go:64-87 | own rules, back to the global ones, then an update that fails at its last write: the proxy runs other rules than the database says |
| Routing.ResolveAnswers | core/core/db/happ_routing.go:315-408 | the selection for every group, mode, source and profile, over database fields |
| Routing.RulesAnswers | core/core/commands/routing.go:47-94 | where new rules are stored and when the proxy is reloaded for them |
| Routing.NewRulesRun | core/core/commands/routing.go:125-151 | rules stored for the connected group, or for all while it follows them, are the rules that run |
| Routing.SourceAnswers | core/core/db/routing.go:151-178 | which sources are accepted, what is stored, and when the proxy is reloaded |
| Routing.ModeAnswers | core/core/commands/happ_routing.go:126-165 | which modes are accepted, what is stored, and when the proxy is reloaded |
| Routing.ActivationAnswers | core/core/commands/happ_routing.go:167-204 | which profiles can be activated, what is stored, and when the proxy is reloaded |
| Routing.ActivatedProfileRuns | core/core/db/happ_routing.go:255-284 | a profile activated for the connected group is what runs, in every mode but the manual one |
| Routing.DeletionAnswers | core/core/db/happ_routing.go:224-248 | what a deletion removes, and when the proxy is reloaded |
| Routing.FailureAnswers | core/core/commands/routing.go:64-94 | what failing writes leave behind |
| Routing.RoutingDaemon.UpdateRouting | core/core/commands/routing.go:47-94 | state of database and proxy after the handler, whatever becomes of its writes and its reload |
| Routing.RoutingDaemon.SetManualRoutingSource | core/core/commands/routing.go:96-120 | state of database and proxy after the handler, whatever becomes of its writes and its reload |
| Routing.RoutingDaemon.SetGroupRoutingMode | core/core/commands/happ_routing.go:126-165 | state of database and proxy after the handler, whatever becomes of its writes and its reload |
| Routing.RoutingDaemon.SetActiveRoutingProfile | core/core/commands/happ_routing.go:167-204 | state of database and proxy after the handler, whatever becomes of its writes and its reload |
| Routing.RoutingDaemon.DeleteRoutingProfile | core/core/commands/happ_routing.go:258-293 | state of database and proxy after the handler, whatever becomes of its writes and its reload |
| KillSwitch.Guard.SetKillSwitch | core/core/commands/killswitch.go:26-121 | state and frames of the handler |
| KillSwitch.Guard.SetSplitTunnel | core/core/commands/split.go:15-45 | state and frames of the handler |
| KillSwitch.HandlerIsSafe | core/core/commands/killswitch.go:26-98 | from a safe state a command leads to a safe state, except in exactly three cases |
| KillSwitch.RunsAreSafe | core/core/commands/split.go:15-21 | every state of an ordinary run is safe |
| KillSwitch.FramesAreTruthful | core/core/commands/killswitch.go:100-121 | every frame carries the persisted intent and says armed only when installed |
| KillSwitch.SwitchOnAnswers | core/core/commands/killswitch.go:38-98 | when the block is set up, and state and frames of each way to switch on |
| KillSwitch.SwitchOffAnswers | core/core/commands/killswitch.go:44-67 | state and frames of each way to switch off |
| KillSwitch.TestModeAnswers | core/core/commands/killswitch.go:32-36 | test mode records the setting and leaves the firewall alone |
| KillSwitch.SplitTunnelAnswers | core/core/commands/split.go:15-45 | the stored mode and the frames for every request |
| KeyFiles.KeyMatchesDatabase | core/core/db/db.go:177-196 | the loop finds whether the key opens any encrypted file, and whether there is one |
| KeyFiles.KeyStore.LoadOrCreateKey | core/core/db/db.go:75-155 | decision and file operations of a start under any outcome of each |
| KeyFiles.KeyIsNeverLost | core/core/db/db.go:97-155 | if either key file opens the database, then after any number of starts, complete or cut off, the next complete start loads a key that opens it; all keys ever loaded are the same |
| KeyFiles.StartStaysRecoverable | core/core/db/db.go:97-155 | a start, wherever it stops, leaves a key file that opens the database, and loads no other key |
| KeyFiles.CompletedStartIsStable | core/core/db/db.go:75-155 | a completed start is repeated with the same key |
| KeyFiles.InvalidKeysAreKept | core/core/db/db.go:83-96 | if key files exist and none is valid, the start refuses and changes nothing |
| KeyFiles.NewKeyOnlyWithoutKeyFile | core/core/db/db.go:148-154 | a new key is written and loaded iff no key file exists |
| KeyFiles.UnreadableDatabaseKeepsBothKeys | core/core/db/db.go:122-130 | two keys that do not open an existing database are both kept |
| KeyFiles.CompleteStartAnswers | core/core/db/db.go:75-155 | the key a complete start loads and the files it leaves |
| KeyFiles.ReplacedKeyIsKept | core/core/db/db.go:213-222 | a valid key gives way only to one that opens the database, after a copy was tried |
| LogLines.LinesResume | src/cli/commands/logs.rs:343-355 | splitting can resume from the unfinished line |
| LogLines.SplitOfJoin | src/cli/commands/logs.rs:345-353 | splitting undoes writing texts as lines, less trailing returns and empty lines |
| LogLines.LinesOfStream | src/cli/commands/logs.rs:343-355 | a stream is texts without newlines, each ended by one, and an unfinished rest; reported are exactly those texts |
| LogLines.Drain | src/cli/commands/logs.rs:345-353 | the draining loop hands out exactly the complete lines and keeps the rest |
| LogLines.LinesAnswer | src/cli/commands/logs.rs:345-353 | no reported line is empty, contains a newline or ends with a return |
| LogTail.Tail.Poll | src/cli/commands/logs.rs:320-355 | one poll with rotation, truncation and failed opens and reads |
| LogTail.PollAnswers | src/cli/commands/logs.rs:320-355 | output and state of a poll over the file found: another or shorter file starts over, the same one is continued |
| LogTail.OpenedAnswers | src/cli/commands/logs.rs:304-318 | a follower starts at the given place or at the end of a shorter file |
| LogTail.FollowReportsCompleteLines | src/cli/commands/logs.rs:304-355 | over any polls the output is the complete lines of the bytes read, file by file |
| LogTail.ChunksDoNotMatter | src/cli/commands/logs.rs:304-355 | for a growing file the output is the complete lines after the opening offset, however reads split it |
| LogTail.AnyTwoSchedulesAgree | src/cli/commands/logs.rs:320-355 | two poll schedules over the same final file report the same |
| LogRotation.FileLogger.WriteLocked | src/logger.rs:94-117 | one record write with reopen, rotation and their failures |
| LogRotation.WriteAnswers | src/logger.rs:94-117 | both files after one write, for every failure of reopening, writing, renaming and opening |
| LogRotation.LogKeepsNewest | src/logger.rs:94-117 | backup and current are the newest part of all records, and at least a full file once anything is dropped |
| LogRotation.NewestRecordIsKept | src/logger.rs:198-226 | the newest record is never lost |
| LogRotation.CurrentStaysBelowCap | src/logger.rs:113-116 | without failures the current file is below the cap after each write |
| LogFormat.WrittenLineIsRead | src/logfmt.rs:62-124 | parsing what the logger wrote gives timestamp, level, tag and the message without leading white space |
| LogFormat.ReadLineIsStable | src/logfmt.rs:62-124 | a parsed record written again reads back as itself |
| LogFormat.FormatAnswers | src/logger.rs:107-109 | the places of timestamp, level and message in a written line |
| LogFormat.TagAnswers | src/logfmt.rs:39-48 | the tags that stand for a level |
| LogFormat.OlderLineIsRead | src/logfmt.rs:76-91 | a line with a time and its level as a word is read |
| LogFormat.CoreLineIsRead | src/logfmt.rs:76-91 | a line with a time and its level in brackets is read |
| LogFormat.PlainLineIsRead | src/logfmt.rs:93-101 | a line without time and level is all message |
| Utf8.DecodeEncode | src/cli/commands/logs.rs:346-348 | decoding gives back every text that was written as UTF-8 |
| Utf8.CharAnswers | src/logger.rs:107-110 | length and leading byte of an encoded character |
| LogPipeline.FollowerShowsEveryRecord | src/cli/commands/logs.rs:281-355 | writer, file, follower, decoding and parser together show every complete record once, in order, however polls split the bytes |
| LogPipeline.FollowerShowsWhatItReads | src/cli/commands/logs.rs:320-355 | over rotations, truncations and failed reads the follower shows exactly the records it could read completely, file by file |

## Left out

- Encryption, JSON, URI and provider-configuration parsing, network access: file contents and incoming entries are records; a profile's connection data is one `Endpoint`, its provider configuration a string.
- Profile files that exist but cannot be read, and read-only mode: every stored file of the model is readable.
- Negative ids: ids are naturals. A negative entry in an order list is ignored by the readers like any other unknown id.
- ProfileStore.Database.GetGroupDataAndProfiles: routing profile summaries are not part of the listing, and there are no unreadable profile files to pass over.
- ProfileStore.Database.GetAllGroupsAndProfiles: group directories without a loadable configuration, which the program passes over, are not groups of the model; reading the directory does not fail.
- ProfileStore.Database.AddGroup: clearing the directory of a group either happens or does not.
- ProfileStore.Database.DeleteGroup: removing the directory of a group is one step.
- IdRuns.IdsNeverChangeMeaning: requires each refreshed entry to carry the id of its group, as the parser sets it.
- RefreshLaws.RetryConverges: the kept id is one that exists or was issued before; the id of the connected profile always was.
- `SaveGroup`, `UpdateProfile`, snapshots, restore and migration, which accept or copy arbitrary records.
- SchedulerRuns.FetchesAreDue: the stored merge time is in whole seconds, so the interval is exact up to one second; durations are unbounded integers, and an interval override large enough to overflow a 64-bit duration is not modelled.
- Scheduler.AutoUpdater.Tick: recovery from panics is an attempt that failed.
- Routing.ProxyStaysInAgreement: the connected profile is a share-link profile; managed profiles take manual rules and geo assets by another path. Corrupt routing files count as missing.
- Routing.RoutingDaemon.SetActiveRoutingProfile: the geo download that may follow in the background is not modelled, nor are imports of routing profiles.
- KillSwitch.RunsAreSafe: connect, disconnect and start-up arming are not modelled.
- LogTail.Tail.Poll: the path is looked at atomically, a failed read consumes nothing, and a file that is truncated and regrown beyond the offset between two polls is not noticed by the program either.
- LogRotation.FileLogger.WriteLocked: a failed write leaves no partial record; clearing the log and the emergency write of the panic hook are not modelled.
- LogPipeline.FollowerShowsEveryRecord: a message is one line; the replacement of bytes that are not UTF-8, which the logger never writes, goes byte by byte here.
- The filters, `--since` parsing and rendering of the log command.
