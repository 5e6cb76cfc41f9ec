# Keyosk, modelled and proved in Dafny

Keyosk is a portal that issues keys for a LiteLLM gateway. Its database says
who may have which limits; the gateway enforces what each key was last given.
Nothing ties the two together but a background sync, a revision number on
every profile, and the order in which handlers act. This project models those
parts and proves what they are for.

`dafny verify dfyconfig.toml` checks everything.

## The model

- **Tables and transactions.** `Database` is the portal's tables as a value,
  with one function per transaction. `Stores.Store` is the store as a class
  that changes its tables statement by statement; each method is proved to do
  what `Database` says, and to leave the tables alone when it fails.
- **Profiles.** `Profiles` proves what every sequence of admin operations
  keeps: one default profile, no dangling assignment, and a revision that
  moves exactly when the limits do.
- **The gateway and its adapter.** `Gateway.Server` keeps keys and users and
  takes patches, in which a field can be left out, null or a value.
  `LiteLLM.Provider` is the adapter on top of it. `RoundTrip` proves that what
  is written is what is read back, and that creating a key and updating one
  agree. `Quota` and `QuotaForm` are the split between a person and a key, and
  the form the windows come from.
- **The sync as a protocol.** `Freshness` lets sync workers, key requests,
  admins, logins and the gateway act one atomic step at a time in any order,
  and proves what every step keeps. `Agreement` draws the conclusion: exactly
  when a key enforces its owner's current limits, so that the revision is a
  freshness token for keys whose pushes were all recorded. `UnrecordedPush` is a
  run that shows why an unrecorded push has to be excepted.
- **One run of the sync.** `SyncRun.Syncer` is the run itself, with its
  batches and its error paths, in surroundings (`SyncOutcomes.Outside`) that
  decide what the gateway answers, what the clock shows, which statements
  fail, when the context ends and what others write in between. It ends
  whatever they do, its log of what was said to the gateway is accounted for
  push by push and check by check, and it does its whole work when nobody
  interferes. `SyncOutcomes` and `SyncChecks` are what pushes and checks make
  of the tables, `SyncRecords` says it column by column and message by message,
  `SyncResults` is what one run and two in a row come to,
  `SyncGateway` what a run leaves in the gateway, and `SyncOverlap` and
  `CheckOverlap` why it does not matter that the pushes of a batch and the
  checks of a run overlap. `SyncProtocol` proves that the pushes and checks of a
  run are runs of the protocol above, so that what holds of the one holds after
  the other. `ForEach` and `Wakeup` are the goroutines and the channel around it, `SyncStatus` the
  counts an admin sees.
- **Missing keys.** `MissingKeys` reads the audit log as the history of every
  row and proves that a removal waited for its grace period. `StoreRuns` performs
  its operations, and those of `Profiles`, by calls of the store.
- **Key requests.** `KeyHandlers` is each request from beginning to end;
  `KeyIssue` interleaves them with admins, the expiry job and whoever notices
  a missing key, and `RequestProtocol` proves that the requests and the expiry
  job take the steps of that protocol, as `RequestFreshness` does for the other.
  `KeyedLocks` is the lock per user they take.
- **Expiry.** `ProfileExpiry` reverts assignments, and converges however often
  it fails on the way.
- **Usage.** `UsageHistory` sums the gateway's pages; `UsageBars`, over
  `Calendar`, draws them.

## What turned out otherwise than documented

- A key that is not pending need not enforce its profile: a push can land
  unrecorded, and the owner can be moved back to the profile the row still
  names (`UnrecordedPush.UnrecordedPushCanDisagree`). It does enforce it if and
  only if the push that last landed left the same on the key, which is so
  whenever every push was recorded (`Agreement.NotPendingAgrees`); and moving
  the owner back disagrees exactly if that push left something else
  (`Agreement.MovingBackDisagrees`).
- An assignment may name a destination that does not exist; no foreign key
  refuses it, and such a user stays due for ever
  (`Profiles.DanglingDestinationAccepted`, `ProfileExpiry.StillDue`).
- The comment on `usageBars` says days outside the window are ignored. By week
  and month they are not: the first and last buckets reach past the window
  (`UsageBars.OverhangShown`). The chart shows just the window if and only if
  nothing was used on those days (`UsageBars.WindowOnly`).
- A run skips a key whose last failure is stamped with the very moment the run
  started, since the query compares strictly (`SyncResults.SameMomentIsSkipped`,
  and exactly in `SyncOutcomes.PendingAfterRun`).
- An update without an owner leaves a key bound to the owner it had, which a
  creation without one does not (`RoundTrip.CreateAgreesWithUpdate`). An owner's
  id is the subject they sign in with, after the portal's prefix
  (internal/config/config.go:337-342), and OpenID Connect has no blank subject,
  so for the keys this program issues the two agree.

## Model

| member | source | states |
|---|---|---|
| Agreement.FreshnessToken | internal/limitsync/limitsync.go:250-286 | In every reachable state of any interleaving, a key whose row names a profile at its current revision carries that profile's models, rates, windows and owner if and only if the push that last landed left the same on it, and always if every push of the key was recorded |
| Agreement.NotPendingAgrees | internal/database/limitsync.go:38-60 | The same of every key that is live, not expired and not pending, for its owner's effective profile |
| Agreement.CarriesExactly | internal/litellm/provider.go:39-49 | In every reachable state a live key carries given limits if and only if they leave on it what the last landed push left |
| Agreement.LandedCurrentCarries | internal/limitsync/limitsync.go:253-264 | A push that read the profile at its current revision leaves the key current, recorded or not, though row and windows were read in two steps |
| Agreement.FreshUpToOrder | internal/limitsync/limitsync.go:250-286 | For profiles with any windows at all: a fresh key enforces limits equal to the profile's up to window order |
| Agreement.OwnersOfRuns | internal/config/config.go:337-353 | In every reachable state, what reached a key names the gateway user of the person in its row |
| Agreement.MovingBackDisagrees | internal/limitsync/limitsync.go:263-284 | From every reachable state, moving the owner to the profile the row names makes the key count as current, and it disagrees in the gateway if and only if the last landed push left something else |
| Freshness.StepKeeps | internal/limitsync/limitsync.go:250-286 | Every step of a worker, request, admin, login, expiry job or gateway keeps the invariant, though a profile's row and windows are read in two steps |
| Freshness.RunKeeps | internal/handlers/ui.go:387-438 | So does every run, with keys issued from a profile that changes meanwhile |
| Freshness.CheckKeeps | internal/limitsync/limitsync.go:357-405 | Keys that come back from a gateway backup are made out of date before anyone trusts their row |
| Freshness.RecordKeeps | internal/database/limitsync.go:120-130 | Recording the revision that was read, not the current one, is what keeps a row truthful |
| Freshness.StoreKeyKeeps | internal/handlers/ui.go:421-438 | A key stored with the revision it was created from is truthful even if the profile has moved on |
| UnrecordedPush.UnrecordedPushCanDisagree | internal/limitsync/limitsync.go:263-284 | Some run ends with a key that is not pending and enforces another profile's models, because a push landed unrecorded |
| Profiles.IntegrityKept | internal/database/db.go:363-478 | An operation, accepted or refused, keeps one default, no dangling profile and one window per period if and only if an assignment with a deadline names an existing destination |
| Profiles.IntegrityOfRuns | internal/database/db.go:284-478 | Every run of such operations keeps it |
| Profiles.DanglingDestinationAccepted | internal/database/migrations/20240009_profile_expiry.go:21 | An accepted assignment to a destination that does not exist breaks it |
| Profiles.SeedEstablishesIntegrity | internal/database/db.go:113-152 | Seeding succeeds exactly if there is a default, no profile, or one named default, and then integrity holds |
| Profiles.EveryOwnerHasAProfile | internal/database/limitsync.go:44-47 | With integrity every owner has an effective profile that exists |
| Profiles.OpEvolves | internal/database/db.go:363-426 | No operation lowers a revision, and one that leaves a revision leaves the limits |
| Profiles.RevisionTellsLimitsApart | internal/database/db.go:382-426 | Over every run, equal revisions of a profile at two times mean equal limits up to window order |
| Profiles.RevisionExact | internal/database/db.go:363-426 | A save stores the limits asked for and raises the revision exactly when they differ from those before |
| Profiles.UpdateIsLocal | internal/database/db.go:363-426 | A save touches no other profile but to demote a default, and no user or key |
| Stores.SameQuotaWindows | internal/database/db.go:247-263 | The counting loop answers whether two lists are equal as multisets |
| Stores.Store.SetProfileQuotas | internal/database/db.go:209-243 | Replaces the windows and raises the revision, unless they enforce the same; fails on a repeated period |
| Stores.Store.SeedDefaultProfile | internal/database/db.go:113-152 | Adds an unlimited default to an empty table, makes the profile named default the default if there is none, and otherwise changes nothing; fails if there is none of that name |
| Stores.Store.CreateProfile | internal/database/db.go:284-299 | Adds the profile under a new id with its windows, demotes the old default and names it, or rolls all of it back |
| Stores.Store.CreateProfileRow | internal/database/db.go:301-321 | Inserts the row under the next id at revision one, alone as default if it is the default |
| Stores.Store.UpdateProfile | internal/database/db.go:363-378 | Saves row, windows and revision together and returns what was there before and whom it demoted, or rolls all of it back with the right error |
| Profiles.DemotedAreNamed | internal/database/db.go:325-336 | The names returned are exactly those of the profiles that were default before the save and are not after it |
| Stores.Store.UpdateProfileRow | internal/database/db.go:382-426 | Stores every field asked for, with the revision raised by one exactly if models or rates change, and demotes the others exactly if it is the default; refuses a missing profile, a default that would stop being one, and a name in use |
| Stores.WindowsStored | internal/database/db.go:209-243 | The windows stored for a profile are those that limit something, each as often as it is listed; the revision goes up by one if they are not the same as before and by none if they are; only a repeated period is refused |
| Stores.ProfileCreated | internal/database/db.go:284-299 | Which row and windows a created profile has, column by column, and what becomes of the others |
| Stores.ProfileUpdated | internal/database/db.go:363-378 | The same of a saved profile, whose revision goes up once for the row and once for the windows, if they change |
| Stores.Store.DeleteProfile | internal/database/db.go:444-478 | Refuses the default and a profile in use, with the number of its users; otherwise removes it with its windows, and clears just the deadline destinations that named it |
| Stores.Store.GetOrCreateUser | internal/database/db.go:482-513 | A known subject keeps account, profile and deadline and gets the name and address of this login; an unknown one gets a new account without a profile |
| Stores.Store.SetUserProfileUntil | internal/database/db.go:569-585 | The user is on the profile until the deadline; without one neither destination nor revocation is kept; name, address and other users stay |
| Stores.Store.UsersWithPassedDeadline | internal/database/db.go:591-600 | Exactly the users whose deadline has passed, by id |
| Stores.Store.ApplyProfileExpiry | internal/database/db.go:609-618 | The user is on the given profile, without deadline, destination or revocation, and otherwise as before; refused if the profile is gone, and then nothing changes |
| Stores.Store.GetAPIKeyByUser | internal/database/db.go:630-640 | Finds a key of the user if there is one |
| Stores.Store.ReplaceAPIKey | internal/database/db.go:646-658 | The user's rows give way to the new one under a new id, and the rows of others stay; or nothing changes |
| Stores.Store.MarkKeyMissing | internal/database/db.go:699-716 | Marks a row once, with one audit entry, and says whether it did |
| Stores.Store.ClearKeyMissing | internal/database/db.go:724-742 | Unmarks a marked row and makes it out of date, with one audit entry |
| Stores.Store.RemoveMissingKey | internal/database/db.go:754-771 | Removes a row marked before the cutoff, with one audit entry, and no other |
| Stores.Store.ListMissingKeys | internal/database/db.go:798-808 | Exactly the marked keys of users that exist, each once with its marker, ref and owner, oldest marker first, then by id |
| Stores.Store.PendingLimitSyncs | internal/database/limitsync.go:100-110 | The first keys, in order, that are not marked nor expired, have not failed since, and were last pushed with another profile, revision, name or address than their owner has now; each with the ref and last label of its row and the subject, name and address of its owner; all of them if there is room |
| Stores.BatchAnswers | internal/database/limitsync.go:38-60 | The query by its columns: what is pending, what each row of the answer holds, and in which order the rows come |
| SyncStatus.StatusByColumns | internal/database/limitsync.go:126-215 | The status by the same columns |
| SyncStatus.GetLimitSyncStatus | internal/database/limitsync.go:182-215 | From any grouping of the pending keys, the totals and each profile's count are the numbers of keys whose row does not say what their owner goes by now, and the listed failures are the newest twenty, by time and id |
| MissingKeys.LifecycleKept | internal/database/db.go:699-771 | Every step of every actor keeps rows and audit log in agreement |
| MissingKeys.LifecycleOfRuns | internal/database/db.go:699-771 | So does every run |
| MissingKeys.RemovalWaitedForGrace | internal/limitsync/limitsync.go:379-398 | With a clock that does not go back between reckoning the cutoff and writing the entry, a key removed at T was marked at some t0 no later than T minus the grace period, and nothing touched the marker in between |
| MissingKeys.InconclusiveCheckChangesNothing | internal/limitsync/limitsync.go:400-404 | A check without an answer, or not found within the grace period, changes nothing at all |
| MissingKeys.MarksBalance | internal/database/db.go:699-771 | Marks outnumber unmarks and removals by one exactly while the key is marked |
| MissingKeys.OneEntryPerTransition | internal/limitsync/limitsync.go:357-405 | Each transition writes one entry; only a check that found the key unmarks it, only one that did not, past the grace period, removes it, and a timestamp never moves |
| StoreRuns.PerformAll | internal/database/db.go:630-771 | Whatever is called on the store, in whatever order, its tables are those of a run of these steps: rows and audit log agree, and every removal waited for its grace period |
| StoreRuns.Administer | internal/database/db.go:284-618 | Every administrative operation of `Profiles` is one call of the store, so integrity survives it exactly when the operation allows it |
| SyncRun.Syncer.Run | internal/limitsync/limitsync.go:134-190 | Ends in all surroundings, and with an error only if the context ended or a statement failed. Whatever others write: the log is the run's checks and pushes, each of which does to the tables it found what the gateway's answer calls for; the keys checked are those of one listing in its order, all of them without an error; every target pushed, with its ref, owner and profile, was in the answer of a query of this run; no key is pushed again once it failed; the counters count the pushes; and a run without an error ends when the query has no key it did not fail on. Undisturbed, there is no error, each key pushed is offered its owner's current limits once, and with a clock that does not go back and no key expiring those are exactly the keys that were to be pushed. By the columns of the tables and by what was said since: each marked key is unmarked and made out of date, removed or kept as its one answer says; each key that needed a push is recorded, marked missing or failed as its last answer says, and every other row stays. If the gateway accepted everything, such a key was told the models, rates and windows of its owner's profile for its owner, once; was given its owner's name as an alias, once, if that is not the name in its row, and none if it is; and its row then holds that profile, its revision and the owner's name and address |
| SyncRun.Syncer.PushAll | internal/limitsync/limitsync.go:151-189 | The loop of batches ends, with an error only if the context ended or a statement failed. Whatever others write, its pushes account for the log and the counters, each had its target from a query made after the loop began, and none follows a failure of its key; undisturbed it pushes every key there was to push, once |
| SyncRun.Syncer.PushBatch | internal/limitsync/limitsync.go:155-171 | Whatever others write, the targets pushed are what the query answers on the tables it found, in order, less the keys that failed in this run, whatever the clock shows: all of them unless the context ended. Undisturbed they are pushed one after the other from those tables |
| SyncRun.Syncer.Settle | internal/limitsync/limitsync.go:172-183 | Counts every outcome of a batch once, in whatever order the map yields them, and remembers the failures |
| SyncRun.Syncer.SyncBatch | internal/limitsync/limitsync.go:199-213 | The pushes of the batch in order, with what each said to the gateway; all of them unless the context ended, an error only if it did or a statement failed, and each undisturbed one settles its key |
| SyncRun.Syncer.SyncOne | internal/limitsync/limitsync.go:250-286 | The key is offered limits that were read during the push, row first, then a new alias if the name is new. Whatever others write, the key counts as synced or marked on the gateway's word alone, as failed only if it refused, a statement failed or there was no profile, and the last tables found get what that calls for, with the revision that was read |
| SyncRun.Syncer.PushRefused | internal/limitsync/limitsync.go:295-322 | Not found marks the key, anything else is a recorded failure; an error means a statement failed |
| SyncRun.Syncer.Fail | internal/limitsync/limitsync.go:409-421 | Records the reason, cut to 500 bytes and an ellipsis, and the time; an error exactly if that fails while the context goes on |
| SyncRun.Syncer.CheckMissing | internal/limitsync/limitsync.go:327-346 | Whatever others write, the keys asked about are those the listing found in the tables of its tick, in its order, each once, and all of them unless the context ended; each ends as its own answer calls for, and is counted; an error only if the context ended or a statement failed |
| SyncRun.Syncer.CheckOne | internal/limitsync/limitsync.go:357-405 | The gateway is asked about the key; whatever others write, found unmarks the row it is by then, not found past the grace period removes it, anything else changes nothing |
| SyncRun.Unfailed | internal/limitsync/limitsync.go:161-165 | Leaves out exactly the keys that failed in this run and keeps the order |
| SyncOutcomes.PendingAfterRun | internal/limitsync/limitsync.go:126-134 | After an undisturbed run a key is pending if and only if it was before and its push failed, or its last failure was not older than the run |
| SyncResults.NothingPending | internal/limitsync/limitsync.go:126-134 | If no push failed and no key was skipped, nothing is pending afterwards, then or later |
| SyncResults.RunTwice | internal/limitsync/limitsync.go:134-190 | After a run that failed on no key, the next pushes nothing unless a marked key is back; after one in which the gateway accepted everything, the next does not speak to it at all. When nobody writes, the context goes on and no statement fails, neither ends in an error |
| SyncRecords.RenamedOnce | internal/limitsync/limitsync.go:263-276 | A pushed key is given its owner's name as an alias, once, exactly if the row names another or none |
| SyncRecords.DecidedByColumns | internal/limitsync/limitsync.go:250-322 | A pushed key's row is as the last answer about it says: recorded, marked at a time of the run, or failed at one |
| SyncRecords.ChecksByColumns | internal/limitsync/limitsync.go:357-405 | A marked key's row is as the one answer about it says; it is removed if and only if the key was not found and the marker is as old as the grace period |
| SyncGateway.RunServes | internal/limitsync/limitsync.go:250-286 | After an undisturbed run the gateway accepted, every key that was to be pushed authorises its owner's profile's models and rates, is bound to its owner, and reads back all the profile's windows |
| SyncGateway.PushedKeysServe | internal/litellm/provider.go:39-49 | Replaying accepted pushes, no push undoes what another left, if no two keys share a ref or an owner |
| SyncGateway.OneKeyOneOwner | internal/config/config.go:337-342 | They do not share an owner if everyone has one key and a subject of their own |
| SyncOverlap.OverlapSettles | internal/limitsync/limitsync.go:199-213 | However the reads and writes of a batch's pushes interleave, and whichever of their statements fail, the keys that were written are settled as the gateway's answers call for, as by pushes one after the other, and no other row changes |
| SyncOverlap.OrderDoesNotMatter | internal/limitsync/limitsync.go:199-213 | Two interleavings in which the same statements fail and that write at the same times leave the same tables, but for the order of the audit log |
| SyncOverlap.ReadsDecide | internal/limitsync/limitsync.go:250-266 | In any interleaving in which no read fails, every push has the revision the tables had when the batch was read, though others wrote their rows meanwhile |
| CheckOverlap.OverlapLooks | internal/limitsync/limitsync.go:327-346 | However the checks of the listed keys interleave, and whichever of their statements fail, each reports what its own answer calls for, its row ends so, and no other row changes |
| CheckOverlap.OrderDoesNotMatter | internal/limitsync/limitsync.go:327-346 | Two interleavings that write at the same times report the same and leave the same tables, but for the order of the audit log |
| SyncProtocol.PushIsProtocol | internal/limitsync/limitsync.go:250-322 | Every push of a run, however it comes out and whatever other actors of the protocol do between its steps, is a run of `Freshness` in which its worker takes the steps, and leaves the tables the push left |
| SyncProtocol.BatchIsProtocol | internal/limitsync/limitsync.go:155-213 | So is a batch of pushes whose targets are one answer to the query |
| SyncProtocol.SyncedPushCarries | internal/limitsync/limitsync.go:250-286 | From every state the protocol reaches: a live key whose push was recorded as synced names the revision the push read and carries the limits it read, and the profile's own as long as its revision is that one |
| SyncProtocol.AlonePushFollows | internal/limitsync/limitsync.go:250-286 | For a push during which nobody else writes, and a gateway that has the keys it accepts limits for, such a run exists |
| SyncProtocol.CheckIsProtocol | internal/limitsync/limitsync.go:357-405 | Every check of a run is a step of the protocol, or changes nothing |
| SyncRecords.AcceptedMeansSynced | internal/limitsync/limitsync.go:250-286 | When the gateway accepts what it is told, no statement fails and every owner has a profile, every key is synced |
| SyncResults.NoneStaysMarked | internal/limitsync/limitsync.go:327-346 | If the gateway has every marked key, no row of a user that exists has a marker afterwards |
| SyncRecords.EachKeyPushedOnce | internal/limitsync/limitsync.go:250-286 | Each key with an outcome has exactly one push, whose block of the log says what the tables call for and decides the outcome |
| SyncRecords.LimitsSentOnce | internal/limitsync/limitsync.go:263-266 | Each key of the gateway is sent limits at most once in an undisturbed run, and exactly once if its push said anything |
| SyncResults.EndsCaughtUp | internal/limitsync/limitsync.go:126-134 | A run that ends without an error, whatever others wrote, leaves nothing to push but keys whose push failed in it, exactly once, with the target a query of the run had found: on a statement, at the gateway, or because that target had no profile or the profile was gone when the push read it; unless those fill a whole batch |
| SyncResults.SameMomentIsSkipped | internal/database/limitsync.go:100-110 | A key that failed at the very moment a run starts is pending and not tried |
| SyncOutcomes.BatchSettles | internal/limitsync/limitsync.go:199-213 | A batch of undisturbed pushes settles exactly its keys and tells the gateway about each |
| SyncOutcomes.BatchTallied | internal/limitsync/limitsync.go:172-183 | Whatever became of the tables, the counters stay the numbers of pushes that came out each way, and no key is pushed after it failed |
| SyncChecks.ChecksReport | internal/limitsync/limitsync.go:327-346 | Undisturbed checks change exactly the rows whose answer calls for it, and the counts are right |
| SyncOutcomes.Exhausted | internal/limitsync/limitsync.go:155-168 | When a batch brings nothing new, every key there was to push has been tried |
| SyncOutcomes.BatchShrinks | internal/limitsync/limitsync.go:157-187 | A pushed batch strictly lessens the out-of-date keys that have not failed: the measure by which a run ends |
| SyncOutcomes.StaleAfter | internal/limitsync/limitsync.go:250-322 | An attempted key is out of date afterwards exactly if its push failed |
| SyncOutcomes.CountsPartition | internal/limitsync/limitsync.go:171-183 | Synced, failed and marked add up to the keys attempted |
| ForEach.BoundedAndOnce | internal/limitsync/limitsync.go:219-245 | In every reachable state at most workers calls are in flight and no item was called twice |
| ForEach.Returns | internal/limitsync/limitsync.go:219-245 | On return nothing runs, every item was called and has returned unless the context ended, there is an error exactly if some call failed, and it is that of the call whose error was noted first |
| ForEach.NeverStuck | internal/limitsync/limitsync.go:219-245 | With a worker, some step is possible until it returns |
| ForEach.StepKeeps | internal/limitsync/limitsync.go:219-245 | The slots, the wait group, the calls, the errors in the order they were noted and the first of them stay in step |
| Wakeup.NoLostWakeup | internal/limitsync/limitsync.go:85-93 | In every reachable state a kick no run has answered has its token in the channel, and kicks only coalesce |
| Wakeup.KickIsServed | internal/limitsync/limitsync.go:425-437 | Every kick is followed by a run that begins after it, or the loop still owes that run |
| Wakeup.OwedRunCanCome | internal/limitsync/limitsync.go:425-437 | A loop that owes a run can always take a step toward it |
| Wakeup.StopsOnlyWhenCancelled | internal/limitsync/limitsync.go:425-437 | The loop stops only if the context ended |
| RoundTrip.WindowRoundTrip | internal/litellm/windows.go:105-147 | Limits pushed over any prior state read back as exactly the effective windows, tightest first, through every shape of key and the owner's window |
| RoundTrip.WindowRoundTripExact | internal/litellm/windows.go:105-147 | With distinct valid periods the answer is the effective windows sorted by period, however they were listed |
| RoundTrip.WindowRoundTripStable | internal/litellm/windows.go:139-146 | Windows of one rank keep the order they were gathered in |
| RoundTrip.KeyWindowsWritten | internal/litellm/usage.go:237-303 | A key updated to some windows decodes to those windows, whatever it held |
| RoundTrip.KeyWindowsCreated | internal/litellm/provider.go:132-168 | So does a key created with them |
| RoundTrip.CreatedRoundTrip | internal/litellm/provider.go:100-116 | A created key and its owner read back as all the effective windows |
| RoundTrip.CreateAgreesWithUpdate | internal/litellm/provider.go:39-49 | Creating with limits and updating any key to them enforce the same models, rates, windows and owner window; the owner binding agrees if and only if there is an owner or the key had none |
| RoundTrip.UpdateIsLocal | internal/litellm/provider.go:39-49 | A push touches one key and one owner |
| LiteLLM.Provider.UpdateLimits | internal/litellm/provider.go:39-49 | The key gets the models and rates and keeps its label and counters; its owner holds the widest window that limits something, or none if none does; the rest go to the key; other keys and owners stay; not found if there is no such key |
| LiteLLM.Provider.CreateKey | internal/litellm/provider.go:100-116 | The same split for a new key; a refused alias leaves the keys alone |
| LiteLLM.Provider.ToKeyParams | internal/litellm/provider.go:132-168 | Fills in exactly the fields that are set |
| LiteLLM.Provider.UpdateKeyLimits | internal/litellm/usage.go:237-303 | The key has exactly these models, rates and windows, in one of three shapes, whatever it had; its owner only if one is named; label and counters stay |
| LiteLLM.Provider.EffectiveOf | internal/litellm/usage.go:307-315 | Keeps the windows that limit something, in order |
| LiteLLM.Provider.UpsertUser | internal/litellm/user.go:44-106 | Whether create or update took effect: the owner's alias is the name and the address the address, unless blank; the budget and its period are the window's, or none; the spend and other users stay |
| LiteLLM.Provider.ReadKeyWindows | internal/litellm/windows.go:46-94 | The stacked windows, each with its own counter if there is one, or the flat pair with the key's spend, or none |
| LiteLLM.Provider.Windows | internal/litellm/windows.go:105-147 | With its figures, as a multiset: just those that limit something among the key's stacked windows, each with its own counter, known exactly if it is there; the key's flat pair with the key's spend; and the owner's window with the owner's spend. Tightest first |
| LiteLLM.WindowsReported | internal/litellm/windows.go:105-147 | The same of what `RoundTrip` reads back |
| LiteLLM.OwnerHalfIsWidest | internal/litellm/quota.go:61-80 | The owner's half is a window of the limits that binds, none that binds is wider, and there is none only if none binds |
| LiteLLM.Provider.DeleteKey | internal/litellm/client.go:97-119 | A key that is not there counts as deleted |
| Quota.IsValidQuotaPeriod | internal/litellm/quota.go:19-29 | True exactly for no period and the four known ones |
| Quota.WidestWindow | internal/litellm/quota.go:61-80 | Takes out the first of the widest windows and leaves the rest in order |
| Quota.SplitIsPartition | internal/litellm/quota.go:61-80 | The split loses, repeats and reorders nothing, and no window is wider than the chosen one |
| Quota.SplitOrderFree | internal/litellm/quota.go:61-80 | With distinct ranks the order of the list does not matter to the split |
| KeyProvider.EffectiveWindowsOrderFree | internal/litellm/usage.go:307-315 | Dropping blank windows does not depend on their order |
| QuotaForm.ParseQuotaWindows | internal/handlers/admin.go:686-727 | Accepts exactly the forms in which no amount is malformed, each positive one has a known period of its own, and a longer period never allows less; the windows are then the positive rows, amount and period, in order. Otherwise names the first error |
| QuotaForm.CheckWindowsBind | internal/handlers/admin.go:738-752 | Accepts exactly the lists in which no window allows more than a longer one |
| QuotaForm.FormToSplit | internal/handlers/admin.go:686-752 | An accepted form gives positive windows over distinct valid periods, and the widest, which the owner gets, has the largest budget |
| QuotaForm.CleanIsAccepted | internal/handlers/admin.go:686-727 | A form has no bad row if and only if no amount is malformed, and every positive one has a known period that no other positive one has |
| QuotaForm.BindsByAmounts | internal/handlers/admin.go:738-752 | Its windows all bind if and only if no positive amount is above that of a longer period |
| KeyHandlers.Handlers.GenerateKey | internal/handlers/ui.go:366-467 | The reply is decided by what fails first: loading, the profile, creating or the alias, storing. Done means: one row, under a new id, with the profile the owner goes by, its revision, and the owner's name and address; row and gateway agree on an expiry as many days from now as the profile says, or the portal if it does not; the key authorises the profile's models and rates; and the user's other keys are gone, unless revoking failed. No profile means the owner goes by none that exists. Every failure leaves the tables, and the gateway exactly as it was but for the owner's allowance and a new key whose own revocation failed |
| KeyHandlers.Handlers.DeleteKey | internal/handlers/ui.go:536-571 | Done: no row of the user is left, nor any key they held; the row goes only after the key; a failed delete upstream changes nothing, and rows and keys of others stay |
| KeyHandlers.Handlers.ExtendKey | internal/handlers/ui.go:470-532 | The reply is decided by what fails first. Done: the gateway's expiry of the user's key is as many days from now as the profile they go by says, or the portal if it does not; so is the row's if that was stored; nothing else of the row, and no other row or key, changes; and a sync is asked for. A key the gateway does not have is marked, unless it was |
| KeyHandlers.IssuedKeyIsInSync | internal/handlers/ui.go:418-438 | An issued key is its owner's only one and has nothing to be pushed |
| KeyHandlers.IssuedKeyShowsItsProfile | internal/handlers/ui.go:397-438 | Its windows read back as those of the profile it was issued under |
| KeyHandlers.RequestDone | internal/handlers/ui.go:387-455 | What storing the row and replacing the key come to, by the columns of the row and the fields of the key |
| RequestProtocol.GenerateIsProtocol | internal/handlers/ui.go:366-467 | A request to issue a key, whatever fails in it, is a run of `KeyIssue` by one handler, from the tables and live keys it found to those it leaves; it leaks nothing unless revoking fails |
| RequestProtocol.DeleteIsProtocol | internal/handlers/ui.go:536-571 | So is a request to delete it, which leaks nothing |
| RequestProtocol.ExtendIsProtocol | internal/handlers/ui.go:470-532 | So is a request to extend it |
| RequestProtocol.ExpiryIsProtocol | internal/profileexpiry/expiry.go:86-106 | So is what the expiry job does for a user whose key is to be revoked, without the lock |
| RequestFreshness.GenerateIsFresh | internal/handlers/ui.go:387-455 | A request to issue a key is a run of `Freshness` too, and the key it issues carries the limits of the profile and revision its row names |
| KeyIssue.NoOrphan | internal/handlers/ui.go:381-455 | Over every interleaving each live key is in its owner's row, in the hands of a handler, or leaked by a failed call |
| KeyIssue.LeakHasACause | internal/handlers/ui.go:438-455 | A key leaks only when revoking it failed or the answer to its creation was lost |
| KeyIssue.OneLiveKeyEach | internal/handlers/keylock.go:8-12 | When nothing leaked and nobody is busy, a user has at most one live key |
| KeyIssue.NoStaleDelete | internal/handlers/admin.go:137-158 | A step changes or removes only the row its handler read, never a newer key's, and a row goes only after its key or to the handler that revokes it |
| KeyIssue.StepKeeps | internal/handlers/ui.go:381-571 | Every step of every handler keeps the accounting of live keys |
| KeyIssue.RunKeeps | internal/handlers/ui.go:381-571 | So does every run |
| KeyedLocks.KeyedLock.Register | internal/handlers/keylock.go:29-40 | Counts the call in on the user's one entry, adding it if need be |
| KeyedLocks.KeyedLock.Acquire | internal/handlers/keylock.go:42-45 | Succeeds exactly if nobody holds the user's lock |
| KeyedLocks.KeyedLock.GiveUp | internal/handlers/keylock.go:46-48 | A call that stops waiting takes nothing |
| KeyedLocks.KeyedLock.Drain | internal/handlers/keylock.go:45 | Gives the lock back the first time and does nothing after that |
| KeyedLocks.KeyedLock.Release | internal/handlers/keylock.go:52-58 | The last call concerned removes the entry |
| KeyedLocks.KeyedLock.UnlockAgain | internal/handlers/keylock.go:45 | Unlocking again at any later moment changes nothing |
| KeyedLocks.KeyedLock.MutualExclusion | internal/handlers/keylock.go:8-18 | At most one call holds a user's lock |
| KeyedLocks.KeyedLock.EntryWhileConcerned | internal/handlers/keylock.go:14-25 | An entry is in the map exactly while a call is concerned with it, and counts those calls |
| KeyedLocks.Interleave | internal/handlers/keylock.go:29-58 | Whatever the schedule of sections, every call is where a mutex per user puts it, and a user has an entry exactly while a call is concerned with it |
| KeyedLocks.OneHolder | internal/handlers/keylock.go:8-18 | In that mutex two calls never hold the same user's lock, under any schedule |
| ProfileExpiry.Runner.Run | internal/profileexpiry/expiry.go:48-71 | Every due user whose destination exists and whose calls succeed ends on that destination, without deadline, destination or revocation; if their key was to be revoked, with no row and none of their refs live, and otherwise with both; a call that fails leaves what it and those after it would have changed; users who are not due, and their rows and keys, stay. Kicks the sync exactly if somebody was switched |
| ProfileExpiry.Runner.SwitchProfile | internal/profileexpiry/expiry.go:77-83 | Moves the user to the destination and clears the deadline, or changes nothing, exactly if that call fails or the destination is gone; rows, keys and other users stay |
| ProfileExpiry.Runner.Revoke | internal/profileexpiry/expiry.go:86-106 | Key, then row, then user: moved means no row of theirs is left; a row goes only if its key did; what failed and what came after it is left, and other users and rows stay |
| ProfileExpiry.RetriesConverge | internal/profileexpiry/expiry.go:48-106 | Any runs with any failures, then a clean one, end in the same users, keys and live keys as that clean run alone |
| ProfileExpiry.TroubleIsMadeUp | internal/profileexpiry/expiry.go:86-106 | One failing run is made up for by a later clean one |
| ProfileExpiry.OthersFailuresDoNotMatter | internal/profileexpiry/expiry.go:46-66 | A user whose own calls succeed ends as in a clean run |
| ProfileExpiry.StillDue | internal/profileexpiry/expiry.go:43-48 | After a clean run exactly the users whose destination does not exist are still due |
| UsageHistory.ReadHistory | internal/litellm/usage.go:72-135 | Over all pages up to twenty: the days with tokens in order of their names, each with the sum of its rows, and exactly the models some row mentions, each figure the sum of that figure over the rows, most tokens first, then by name; too many pages or a failed page is an error, and no owner asks for nothing |
| UsageHistory.HistoryDetermined | internal/litellm/usage.go:72-135 | The history depends only on the rows, not on their order or the pages they came on |
| UsageHistory.TotalsOrderFree | internal/litellm/usage.go:88-110 | A day's total, and each of a model's four figures as the integer sum of that figure over the rows, do not depend on the order of the rows |
| UsageHistory.ModelTotalIsSum | internal/litellm/usage.go:99-110 | A model's four figures are the sums of the same figures over the rows, and there are none exactly if no row mentions it |
| UsageHistory.SumsOfSplit | internal/litellm/usage.go:99-110 | Those sums distribute over concatenation, so it does not matter where a page ends |
| UsageHistory.BeforeIsLexical | internal/litellm/usage.go:112-135 | Names are ordered by the first character in which they differ, and a prefix comes first |
| UsageBars.Bars | internal/handlers/usagebars.go:36-87 | Contiguous buckets by day, week or month, from the first day of the one the window starts in to the last of today's, each with its exact tokens and at most 31 labels |
| UsageBars.TokensConserved | internal/handlers/usagebars.go:48-74 | The bars' tokens add up to the tokens of the days they span |
| UsageBars.DaysCovered | internal/handlers/usagebars.go:48-74 | Every day of the span is in one bar, and the bars do not overlap |
| UsageBars.WindowOnly | internal/handlers/usagebars.go:33-35 | By day the chart shows just the window; by week and month if and only if nothing was used from the Monday or first of the month before its start, and after today up to the Sunday or last of the month |
| UsageBars.OverhangShown | internal/handlers/usagebars.go:55-63 | A weekly chart that shows tokens from outside its window |
| UsageBars.SpanAroundWindow | internal/handlers/usagebars.go:48-74 | The chart begins on the Monday, or the first of the month by the usual reckoning, on or before the window's first day, and ends likewise after today |
| UsageBars.LabelBound | internal/handlers/usagebars.go:76-85 | For every number of bars at most 31 labels stay, the first among them |
| UsageBars.SumDays | internal/handlers/usagebars.go:96-102 | The sum over the map of days is the sum over the input |
| Calendar.MondayOf | internal/handlers/usagebars.go:90-93 | The Monday on or before a day |
| Calendar.MonthOf | internal/handlers/usagebars.go:66-68 | The month whose days include the day |
| Calendar.MonthStartIsFirst | internal/handlers/usagebars.go:66-68 | Counting month by month agrees with the reckoning by years: 365 days each, one more in leap years, before 1970 as after |

## Left out

- The owner's allowance while several writers push it: no lock orders those
  writes, so `Freshness` speaks of the key's half; `RoundTrip` and
  `KeyHandlers` have both halves, sequentially.
- Agreement.FreshnessToken: the portal's prefix for its people is fixed over a
  run. That the steps of the protocol are those of the code is proved of a
  worker by `SyncProtocol`, whatever others do in between, and of the requests
  of `KeyHandlers`, which nobody interrupts, by `RequestFreshness`.
  Windows are taken to be the form's, with distinct known periods; for others
  `Agreement.FreshUpToOrder` says what holds.
- Freshness.CheckKeeps: marked keys are checked while no push is in flight,
  since the one goroutine that starts runs starts one at a time. Limits changed
  behind the portal's back are modelled only for keys that were marked missing.
- SyncRun.Syncer.Run: pushes of a batch happen one after the other, in batch
  order; that the goroutines call each item once is `ForEach`, that their
  overlap does not matter is `SyncOverlap` and `CheckOverlap`. Concurrent
  writes, of anything and finitely many, happen between statements.
- SyncProtocol.PushIsProtocol: what others write between the steps of a push is
  what the protocol's other actors can write, and the gateway's keys are those
  of the protocol; `SyncRun` alone lets others write anything.
- SyncRun.Syncer.Fail: strings are strings of bytes, and a gateway's own wording
  is not part of the reason.
- MissingKeys.RemovalWaitedForGrace: marking reads the clock once, where the
  source reads it once for the row and once for the audit entry. Audit entries
  carry the key's id where the source writes its prefix.
- Stores.Store.SetProfileQuotas: rows of `profile_quotas` are grouped by
  profile, in the order they were inserted; `Freshness` lets a read return
  them in any order.
- KeyHandlers.Handlers.GenerateKey: the gateway picks a ref it has not used,
  the alias is given, and a day of key duration is 86400 seconds. An admin's
  revocation takes the steps of `DeleteKey` without the lock, as in `KeyIssue`.
- KeyIssue.NoOrphan: keys deleted in the gateway by others count as gone only
  through the portal's own calls.
- UsageBars.Bars: a day is a number, and a label is the first day of its
  bucket or blank; the texts of labels and titles are not modelled.
- UsageHistory.ReadHistory: token counts are unbounded integers, and the page
  requests are a function from page number to answer.
- QuotaForm.ParseQuotaWindows: the text of an amount is read already, as
  blank, malformed or a number; budgets are real numbers.
- SyncStatus.GetLimitSyncStatus: a listed failure carries the key's id where the
  source has its prefix and its owner's address.
- Spend resets, reset times, usage and model caches, alias
  randomness, reminder mails, sessions, OIDC, templates and HTTP transport.
