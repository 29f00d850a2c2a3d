# Build jobs, signing material and a few sharp algorithms

This project models the parts of an app release server and of its Mac build agent in which most can
go wrong, and proves what they are there to keep.

**The build-job protocol** (`job_states`, `build_jobs`, `job_progress`, `world`, and the theorem files
built on them). A job is a row that untrusted builders, a signing machine, admins and several reapers
move through queued, claimed, running, built, signing and on to succeeded, failed or canceled.

- `job_states` is the transition table and the status lists taken from it.
- `build_jobs` gives, for one row, the guard of every UPDATE, the new row, and the objects that nobody
  names afterwards, together with the invariants of a row.
- `job_progress` shows that every change of status is an edge of the table, what a change costs, and
  that what an update gives up is what the row stops naming.
- `world` is one transition system over all of it: rows, stored objects, uploads in flight, claims in
  flight, releases. A transaction is one step, except that a claim is split into snapshot, row lock
  and commit, an upload into check, storing and recording, and a deletion is a step of its own after
  the commit that caused it. Every commit may be acknowledged, or end in an error although it was
  applied, or although it was not.
- `deliveries`, `conservation`, `fencing`, `ios_completion`, `termination`, `claim_order`, `series`,
  `release_order` and `reapers` are theorems about all runs of that system.
- `claim_scenarios` and `floor_scenario` are runs in which an expectation fails, put together with
  `scenario_steps`.
- `server` has the handlers that change rows and objects step by step, as methods of a class, proved
  against the row functions.

**Signing material on the Mac** (`text`, `material_slots`, `material_sync`, `admission`): the sync
loop over the server's list with its memory of rejections, removals and one-way layout switch, and
the agreement between queue admission, the dispatch query and the agent's own re-check.

**Algorithms**: the log's line splitter (`log_lines`), redaction (`redaction`), the signature header
and its reader (`structured_headers`, RFC 8941), branding merge and difference (`branding`), keyset
pagination (`job_listing`), the floor of version and build numbers (`build_floor`), and the retention
of self-upload packages (`ipa_retention`).

## Where the code does not keep what one would expect

Each comes with its exact condition.

- The claim's two subqueries look at the claim's snapshot. A tenant's iOS packages stay in turn
  throughout a run if and only if no pick misses an unfinished job ahead of it that its snapshot lacks
  and no job is queued ahead of one that is busy (`TurnIsKeptExactly`, `TurnsAreKeptExactly`,
  `TenantsAreServedInTurn`). Two runs fail: one picks a job that was not yet there at the snapshot
  (`LatePicksBreakTheOrder`); in the other the picked job was there, and one with an earlier created_at
  came after (`OvertakenPicksBreakTheOrder`).
- Of two completions of a tenant's iOS packages the later one has the greater version and build number
  if and only if its job was queued later (`NumbersGrowExactlyInQueueingOrder`). It always does while
  the earlier release is kept (`KeptReleasesIncrease`); after a purge, jobs that tie on created_at can
  complete the other way round (`TiesAndPurgesBreakTheNumbers`).
- A Mac that has switched to the per-tenant layout goes back if and only if its record cannot be read in
  a round in which the server answers with the per-team list, something on that list is installed, and
  the record can be written (`SyncIOSMaterial`, `UnreadableRecordFallsBack`). The slots of a record that
  cannot be read are lost but for those that the round installs and writes. Over any rounds and
  restarts, the file has the layout if and only if it was there or taken up at some moment and never
  given up since (`LayoutOverTime`, `Live`).
- Queue admission trims the stored Apple identity, the dispatch query does not; they agree on trimmed
  identities, and the query never takes an untrimmed one (`AdmissionAgreesWithDispatch`). The handlers
  trim an identity when they write it and when they read it back
  (internal/api/release_identity_apple.go:86-106), so that it takes a row written past them to show.
- On its own a secret can survive redaction if and only if it begins or ends with an asterisk or has
  three in a row, so that the mark can complete it (`OneSecretIsGoneExactly`). Any other secret is gone
  from every line, whatever else is listed (`NoSecretSurvives`), and so is one that contains such a
  secret of the list (`GuardedSecretsAreGone`).
- The floor of version numbers looks at fifty rows per table, which the comment in the source calls
  enough. It is, exactly when every further row has its version reached by one of the fifty
  (`BuildFloor.LimitIsExactWhenReached`, `Series.LimitIsExactWhenReached`). That holds in every run on
  iOS (`IOSNumbersExceedEverything`), and fails in one on Android, where hot updates fill the limit
  (`TheLimitHidesAVersion`).
- A package that was marked uploaded can be kept longer than the list says: it is purged after finitely
  many passes exactly when fewer than a hundred older rows wait before it (`PurgedInTheEnd`,
  `UploadedPackagesCanWait`). And one can be purged that the list promises to keep, if it had expired
  only for having been uploaded and is marked so once more between the purge's read and its update
  (`LatePurges`).

## Model

| member | source | states |
|---|---|---|
| JobStates.BuildJobEventFrom | internal/api/build_job_states.go:107-122 | the loop over the table returns exactly the statuses from which some edge of the event (and kind, if given) leaves, each once, in flow order |
| JobStates.OrderedStatuses | internal/api/build_job_states.go:155-163 | keeps exactly the listed statuses, each once, in flow order |
| JobStates.StartsAreTheTable | internal/api/build_job_states.go:74-129 | the status lists in the SQL guards are those of the table: a status is a start of an event exactly when some edge says so |
| JobStates.TerminalStatusesAbsorb | internal/api/build_job_states.go:130-134 | a status is terminal exactly when no event of any kind of job leads out of it |
| JobProgress.EveryStatusChangeIsAnEdge | internal/api/build_job_states.go:58-100 | whatever handler updates a row, the status moves along an edge of its event; uploads and purges leave it |
| JobProgress.TerminalRowsStay | internal/api/build_job_states.go:74-134 | only the two purges touch a finished row, and they leave its status and artifact |
| JobProgress.StatusChangesDecrease | internal/api/build_job_states.go:74-100 | every change of status lowers the measure over attempts, signing failures and phase, except that a deferred signing raises it by one |
| JobProgress.DroppedIsWhatTheRowForgets | internal/api/build_job_objects.go:24-136 | the keys deleted after an update are exactly those the row stops naming: with the recorded key they make up what it named before, and it names none of them afterwards |
| BuildJobs.ReportKeepsRowInv | internal/api/build_agent.go:573-735 | every guarded update keeps the row invariants: attempts within limits, keys tagged with job, column and attempt, sizes and digests that describe the named files, nothing delivered on a queued row, a built row delivered under its claim |
| BuildJobs.ClaimKeepsRowInv | internal/api/build_agent.go:349-425 | a claim, granted or refused at dispatch, keeps the row invariants and leaves no key |
| World.StepsMoveRows | internal/api/build_job_objects.go:106-136 | every step of the system moves every row by one guarded update, by a claim of a queued row, or not at all |
| World.RowsInvAlways | internal/api/build_agent.go:80-425 | row invariants hold of every row in every run, a claim in flight holds a queued row, and no two claims hold the same one |
| Deliveries.GivenUpIsUnnamed | internal/api/build_agent.go:844-868 | what a transition, a re-upload, a late upload or a release purge gives up, no row names afterwards |
| Deliveries.NamedStaysStored | internal/api/build_job_objects.go:108-136 | across every step, whatever a row names is stored, with the size and digest the row records |
| Deliveries.NamedObjectsExist | internal/api/build_agent.go:781-868 | in every reachable world every key of every row and every released object is in storage and is what the row says, with lost commits, crashes, re-uploads, cancels, reaps, re-claims and purges interleaved |
| Deliveries.NoNamedObjectIsDeleted | internal/api/build_job_objects.go:138-155 | no step of any run deletes an object that a row, a release or an upload in flight names |
| Conservation.StorageIsExactlyWhatIsNamed | internal/api/build_job_objects.go:14-21 | in a run without storage or commit errors the stored keys not waiting for deletion (or kept by a purge told to) are exactly those that rows name and uploads in flight own |
| Conservation.RefusedClaimsLeakNothing | internal/api/build_agent.go:349-425 | ending a claim, refused or not, gives up no object and changes no name |
| Fencing.EachAttemptIsIssuedOnce | internal/api/build_agent.go:359-365 | each (job, attempt) is issued by one claim to one machine and stays that machine's |
| Fencing.ReportsAreOfTheCurrentClaim | internal/api/build_agent.go:527-553 | a builder's report moves a row only while its claim is the latest one of the job, was issued to that machine, and the job is being built |
| Fencing.BuiltMeansDeliveredUnderItsClaim | internal/api/build_agent.go:1027-1099 | a built or signing job's package and SBOM are stored, are the ones its accepted provenance names, and were named under that claim, after it was issued, to its machine |
| IOSCompletion.ExactlyOneRelease | internal/api/ios_build_release.go:189-243 | in every run a job inserts at most one release, two jobs never the same one, an iOS package has succeeded exactly when it inserted one, and no iOS job is ever built or signing |
| IOSCompletion.RepeatedReports | internal/api/ios_build_release.go:136-212 | a report on a completed job, whose row was read at any moment since: another claim is stale; a self-upload package other than the delivered one is refused as not delivered; then the same package gets the same release and another a conflict, until the release is purged and everything is stale |
| IOSCompletion.CompletionsOnlyGrow | internal/api/ios_build_release.go:189-243 | completions are only ever appended |
| Termination.TallyIsBudgeted | internal/api/build_job_states.go:74-134 | in every run the attempt number is the number of claims, and the changes of status so far plus the measure that is left stay within the job's budget plus two per deferred signing |
| Termination.RunsAreBounded | internal/api/build_reaper.go:217-284 | a package job is claimed at most three times, an OTA job once; a queued job has a claim left; status changes are bounded |
| Termination.FinishedJobsStay | internal/api/build_job_states.go:130-134 | a finished job keeps its status and artifact however the run goes on |
| ClaimOrder.OneJobPerMachine | internal/api/build_agent.go:265-298 | in every run a machine has at most one claimed or running job |
| ClaimOrder.PickIsInTurn | internal/api/build_agent.go:309-340 | the two subqueries suffice: whoever is ahead of a picked iOS package has finished, however stale the snapshot |
| ClaimOrder.TurnIsKeptExactly | internal/api/build_agent.go:300-340 | a step keeps the turn if and only if, as a pick, it leaves no unfinished job ahead that its snapshot lacks and, as a queueing, overtakes no busy job |
| ClaimOrder.TurnsAreKeptExactly | internal/api/build_agent.go:300-340 | whoever is ahead of a busy iOS package has finished, throughout a run, if and only if every step of the run is such a one |
| ClaimOrder.TenantsAreServedInTurn | internal/api/build_agent.go:300-340 | in such a run no two iOS packages of a tenant are claimed, running or held by a claim together, and whoever is ahead of such a job has finished |
| ClaimOrder.OrderlyRunsKeepTurns | internal/api/build_agent.go:322-340 | a run is such a one if claims pick what their snapshot had and jobs queue up behind those that are there, or before any claiming |
| ClaimOrder.FixedJobSetsAreOrderly | internal/api/build_agent.go:322-340 | over a fixed set of jobs every run is orderly |
| ClaimOrder.PromptRunsAreOrderly | internal/api/build_agent.go:322-365 | runs in which each claim picks right after its snapshot and jobs queue up behind each other are orderly |
| ClaimScenarios.LatePicksBreakTheOrder | internal/api/build_agent.go:283-340 | a run in which a job is queued between a claim's snapshot and its pick, and two iOS packages of a tenant end up claimed |
| ClaimScenarios.OvertakenPicksBreakTheOrder | internal/api/build_agent.go:283-340 | a run in which the picked job was in the claim's snapshot, one ahead of it was queued and claimed since, and the tenant has two |
| ClaimScenarios.TiesAndPurgesBreakTheNumbers | internal/api/build_agent.go:325-340 | a run in which two jobs tie on created_at, a release is purged, and completed numbers go down |
| Series.IncreasingIsAboveAll | internal/api/simplified_releases.go:612-645 | comparing with the latest release is comparing with every release of the series |
| Series.LimitIsExactWhenReached | internal/api/build_jobs.go:308-345 | exceeding the fifty newest rows of a table is exceeding all, for every pair of numbers, if and only if every further row has its version reached by one of them |
| Series.FloorIsTheGuard | internal/api/build_jobs.go:279-345 | exceeding the floor that the loop computes from the two limited queries is exceeding every row that they read, and those are newest rows of both tables |
| Series.IOSFloorIsExact | internal/api/build_jobs.go:308-345 | where an iOS tenant's versions rise with its build numbers, exceeding the rows read is exceeding every release and living job |
| Series.IOSNumbersExceedEverything | internal/api/build_jobs.go:308-345 | in every run, an iOS package can be queued exactly with numbers above every release and living job of its tenant, however many rows there are |
| ReleaseOrder.NumbersGrowExactlyInQueueingOrder | internal/api/build_jobs.go:279-345 | in every run, the later of two completions of a tenant has the greater version and build number if and only if its job was queued after the other's |
| ReleaseOrder.KeptReleasesIncrease | internal/api/simplified_releases.go:637-645 | in every run, as long as an earlier completion's release is kept, every later completion of the tenant has a greater version and build number |
| ReleaseOrder.CompletionsFollowTheQueue | internal/api/build_jobs.go:420-442 | in a sequential run whoever was queued before a claimed iOS package has finished, completions come in queue order and their numbers strictly increase, whatever is purged |
| ReleaseOrder.PromptRunsAreSequential | internal/api/build_agent.go:309-340 | with claims and queueing as one step each and created_at in order, every run is sequential |
| Reapers.LateReapIsAReapNow | internal/api/build_reaper.go:217-284 | whatever happens between a reaper's read and its update, the update is the one-step reaper's if the claim is still the one it read, and nothing otherwise; a refreshed row is not moved |
| Reapers.LateSigningReapIsAReapNow | internal/api/build_reaper.go:288-351 | the same for stale signings |
| Reapers.ManyReapersAreOne | internal/api/build_reaper.go:217-351 | any number of reapers that read a row and update it in any order leave it where the one with the latest cutoff alone would |
| Reapers.EachExpiryCountsOnce | internal/api/build_reaper.go:217-351 | in every run each claim and each signing is reaped at most once, the failure count is exactly the number of reaped and transiently failed signings, and built or signing means fewer than two |
| Reapers.HandBackIsARequeue | internal/api/build_agent.go:677-706 | handing back a claim that never arrived does what the reaper would do and gives no attempt back |
| Server.PickKeys | internal/api/build_job_objects.go:50-63 | the set keys of the wanted columns, in column order |
| Server.Server.DeleteDeliveryObjects | internal/api/build_job_objects.go:138-155 | deletes what storage will delete and nothing else |
| Server.Server.TransitionBuildJob | internal/api/build_job_objects.go:106-136 | exactly when the guard holds the row is assigned and cleared, and then, and only then, the objects it named in the released columns are deleted |
| Server.Server.ReportTransition | internal/api/build_agent.go:612-660 | a report as such a transition: the new row and the deleted objects are those of the row functions |
| Server.Server.StoreDelivery | internal/api/build_agent.go:816-834 | under a current claim the file is stored under a new key of this job and attempt, so that no stored object is written over |
| Server.Server.RecordDelivery | internal/api/build_agent.go:781-868 | a current claim records the key and deletes the replaced object, a stale one deletes its own; a builder's file is recorded exactly when its claim would still be accepted for an upload |
| Server.Server.CompleteIOSBuildJob | internal/api/ios_build_release.go:82-254 | for any row read beforehand, the answer comes from the checks in their order, and the state changes by the system's completion step or not at all; an insertion is always a step the system has, and if the row is still as read every such step is made |
| Server.Server.FindStaleBuilds | internal/api/build_reaper.go:218-238 | exactly the stale rows, with what was read of each |
| Server.Server.ReapBuilds | internal/api/build_reaper.go:239-283 | each read row ends where the guarded late update puts it, others stay, the two result lists are exactly the rows requeued and failed, and storage loses exactly what it can delete of the keys that these rows gave up |
| Server.Server.ReapSignings | internal/api/build_reaper.go:309-350 | the same for stale signings: rows, lists and deleted objects |
| MaterialSlots.SlotRoundTrip | cmd/build-agent/ios_material.go:69-87 | a slot reads back as the name it was made from exactly when no part of the name has a slash |
| MaterialSlots.ParsedSlot | cmd/build-agent/ios_material.go:77-87 | a slot that can be read is the slot of what was read |
| MaterialSlots.TenantSlotsParse | cmd/build-agent/ios_material.go:69-87 | a tenant's slot is never taken for a per-team one or for another name |
| MaterialSlots.SortEntries | cmd/build-agent/ios_material.go:226-231 | certificates, then profiles, then the rest, by slot, and a permutation of the items |
| MaterialSync.TryingGrows | cmd/build-agent/ios_material.go:232-263 | installing loses nothing, records only listed versions, and reports everything installed exactly when every call succeeded and nothing was left out |
| MaterialSync.SlotsLeaveOnlyWhenTheyMay | cmd/build-agent/ios_material.go:264-334 | whatever fails, a tenant slot leaves the record only if a complete manifest omits it, a per-team slot only in a complete round with everything listed installed, nothing else ever |
| MaterialSync.OneRoundConverges | cmd/build-agent/ios_material.go:210-284 | a round in which every call succeeds and nothing is left out records exactly the listed slots at their versions or above |
| MaterialSync.ConvergesUnlessRejected | cmd/build-agent/ios_material.go:210-284 | with each slot listed once and every call succeeding, the round converges if and only if no listed item is still remembered as rejected and not installed |
| MaterialSync.ConvergesExactly | cmd/build-agent/ios_material.go:210-284 | the same told before the round: it converges if and only if every listed item is current, or not remembered as rejected at its version, or a profile for which a certificate of its tenant and team is listed that is neither |
| MaterialSync.ConvergedRoundsAreSilent | cmd/build-agent/ios_material.go:238-241 | a round that starts converged makes no calls and changes nothing |
| MaterialSync.NewCertificatesRetryProfiles | cmd/build-agent/ios_material.go:255-294 | a listed profile whose certificate was installed in the round is current afterwards or was tried again, even if it had been rejected |
| MaterialSync.Agent.ForgetRejectedProfiles | cmd/build-agent/ios_material.go:285-293 | forgets exactly the problems of this tenant's and team's profiles |
| MaterialSync.Agent.InstallEntry | cmd/build-agent/ios_material.go:234-260 | skips what is current or rejected at this version, installs the rest and remembers what went wrong |
| MaterialSync.Agent.RemoveSlots | cmd/build-agent/ios_material.go:295-334 | goes through the recorded slots in order and drops the ones that are due when their removal is confirmed |
| MaterialSync.Agent.SyncTenantMaterial | cmd/build-agent/ios_material.go:209-284 | the loops do what the round is defined to do, and the record is written when something changed |
| MaterialSync.OnlyWithdrawnKeysLeave | cmd/build-agent/ios_material.go:174-207 | whatever fails, nothing leaves the per-team record but an upload key whose team a complete list no longer gives one, and what is recorded was there or is listed |
| MaterialSync.TeamRoundConverges | cmd/build-agent/ios_material.go:174-207 | a per-team round in which every call succeeds has every listed item installed and, on a complete list, no withdrawn upload key left and everything else kept |
| MaterialSync.TeamRoundsAreSilent | cmd/build-agent/ios_material.go:174-207 | a per-team round that starts there makes no calls and changes nothing |
| MaterialSync.Agent.SyncTeamMaterial | cmd/build-agent/ios_material.go:174-207 | the loops do what the round is defined to do, in some order of removals, and the old-format file is written exactly when a call succeeded and it can be |
| MaterialSync.TenantRoundFromNothing | cmd/build-agent/ios_material.go:209-284 | a tenant round that starts from an empty record ends with exactly the slots that it installed |
| MaterialSync.Agent.SyncIOSMaterial | cmd/build-agent/ios_material.go:135-172 | the round of the manifest's layout is run; the recorded tenant layout is given up exactly in the one case named above; a slot that was read leaves the file only as the safety theorems say; slots that were not read are lost except for those installed and written |
| MaterialSync.LayoutOverTime | cmd/build-agent/ios_material.go:135-172 | over any rounds and restarts, the recorded layout is per tenant if and only if it was or was taken up at some moment, and was not given up since |
| MaterialSync.Live | cmd/build-agent/agent.go:247-254 | agents one after the other on one disk, each syncing any number of times, keep to that |
| MaterialSync.SecondRoundIsSilent | cmd/build-agent/ios_material.go:135-284 | two rounds in a row: the first converges from whatever was installed, the second asks nothing of anybody |
| MaterialSync.UnreadableRecordFallsBack | cmd/build-agent/ios_material.go:503-531 | an instance: after a failed read a per-team list of any one item that can be installed writes the per-team layout back |
| Admission.SigningPairs | internal/api/build_machine_liveness.go:194-205 | the flattened keys of all teams |
| Admission.UploadablePairs | internal/api/ios_delivery.go:158-167 | the keys of the teams with a usable upload key |
| Admission.TenantSigningPairs | internal/api/build_machine_liveness.go:167-178 | the flattened keys of all ready tenants |
| Admission.TenantUploadablePairs | internal/api/build_machine_liveness.go:181-191 | those with a usable upload key |
| Admission.SigningCoverage | internal/api/build_machine_liveness.go:479-503 | each flag of the coverage says exactly that some registered active iOS builder's last report serves the target in that way |
| Admission.DispatchIsSigns | internal/api/build_agent.go:203-211 | SQL's key is in a machine's list exactly when the trimmed key is and the identity needed no trimming |
| Admission.AdmissionAgreesWithDispatch | internal/api/ios_delivery.go:196-212 | queueing reports no problem for a trimmed identity and mode exactly when some registered active iOS builder would be handed such a job |
| Admission.CoversTenant | cmd/build-agent/ios_inventory.go:115-127 | the agent's loop finds exactly the ready tenant with the team and the bundle id |
| Admission.TenantKeyIsInjective | internal/api/build_machine_liveness.go:162-164 | the joined key gives tenant, team and bundle id back |
| Admission.RecheckAgreesWithServer | cmd/build-agent/ios_inventory.go:115-127 | the agent accepts exactly the triples that the server computes from the same inventory |
| LogLines.LogBuffer.Add | cmd/build-agent/logbuffer.go:22-29 | the buffer holds exactly the last two hundred lines added, redacted |
| LogLines.LineWriter.Write | cmd/build-agent/logbuffer.go:58-77 | after any piece, the recorded lines and the pending one are those of the whole stream so far |
| LogLines.LineWriter.Close | cmd/build-agent/logbuffer.go:79-83 | the rest without a newline becomes a line if it has something in it |
| LogLines.BatchFromTheEnd | cmd/build-agent/logbuffer.go:58-95 | the lines as the writer builds them up are the stream split at its newlines |
| LogLines.RedactedLinesAreClean | cmd/build-agent/logbuffer.go:22-29 | no redacted line has a listed secret in it that the mark cannot complete, nor one that contains such a secret |
| LogLines.WriteAll | cmd/build-agent/logbuffer.go:22-95 | however the output is cut into pieces, the buffer ends with the last two hundred lines of the whole stream, each cut at 4096 bytes, the longer ones marked, then redacted; and none of them has such a secret in it |
| Redaction.SecretValues | cmd/build-agent/redact.go:22-33 | exactly the values of secret variables of at least six characters, the long ones first |
| Redaction.NoSecretSurvives | cmd/build-agent/redact.go:39-44 | a listed secret that neither begins nor ends with an asterisk and has no three in a row is nowhere in a redacted line, whatever the other secrets are |
| Redaction.GuardedSecretsAreGone | cmd/build-agent/redact.go:39-44 | no secret survives if each has such a listed secret in it, often itself |
| Redaction.OneSecretIsGoneExactly | cmd/build-agent/redact.go:16-44 | a single secret is gone from every line if and only if it neither begins nor ends with an asterisk and has no three in a row |
| Redaction.AsterisksCanSurvive | cmd/build-agent/redact.go:16-44 | two secrets and a line without the first, which is in the redacted line |
| Redaction.OthersStay | cmd/build-agent/redact.go:39-44 | a text without secrets stays as it is |
| Redaction.RedactLine | cmd/build-agent/redact.go:39-44 | the loop replaces one value after the other; no secret survives that the mark cannot complete, nor one that contains such a secret |
| StructuredHeaders.SplitMembers | internal/api/canary.go:145-162 | the loop over indices and flags is the scan |
| StructuredHeaders.UnquoteString | internal/api/canary.go:166-192 | the loop over escapes is the unquoting |
| StructuredHeaders.ReadDictionary | internal/api/canary.go:121-142 | the value of the first member of that name |
| StructuredHeaders.DictionaryRoundTrip | internal/api/canary.go:121-192 | whatever the values contain, reading a written dictionary gives the first value of that name, or nothing |
| StructuredHeaders.SignatureHeaderRoundTrip | internal/api/bootstrap_signing.go:67-79 | every signature and every key id is read back from the header |
| Branding.MergeBranding | internal/api/branding.go:57-75 | the recursive merge, whatever the order of keys |
| Branding.BrandingDiff | internal/api/branding.go:77-96 | the recursive difference, whatever the order of keys |
| Branding.DiffIsEnough | internal/api/branding.go:57-96 | merging the difference gives what merging the value gives |
| Branding.MergedIsTheValue | internal/api/branding.go:57-75 | merging gives back the value exactly when it has every key of the base at every object level |
| Branding.EmptyDiffMeansNoChange | internal/api/branding.go:77-96 | the difference is empty exactly when merging changes nothing |
| Branding.SavedReadsBack | internal/api/branding.go:211-219 | a saved configuration with every key reads back over the global one as it was saved, with its new version |
| JobListing.CursorRoundTrip | internal/api/build_jobs.go:721-739 | a cursor reads back as written, even with colons in the id; only an empty id is refused |
| JobListing.ListBuildJobs | internal/api/build_jobs.go:598-671 | refused exactly when the cursor cannot be read; the items match, are behind the cursor, newest first and at most the limit; everything else that matches there comes after the last item, and there is a next cursor, that item's, exactly when there is such a row |
| JobListing.PageBehind | internal/api/build_jobs.go:606-667 | the page behind the first k matches is the next ones, and its cursor leads behind them |
| JobListing.ListAll | internal/api/build_jobs.go:598-671 | following the cursors stops and visits every match exactly once, newest first |
| BuildFloor.BuildFloorFor | internal/api/build_jobs.go:322-344 | the running maximum is the floor of the rows |
| BuildFloor.LimitIsExactWhenReached | internal/api/build_jobs.go:308-344 | the floor of the fifty newest rows of each table is the floor of all exactly when every further row has its version reached by one of them |
| BuildFloor.FiftyAreEnough | internal/api/build_jobs.go:308-317 | on tables whose versions rise with their build numbers the two floors are the same |
| FloorScenario.TheLimitHidesAVersion | internal/api/build_jobs.go:308-317 | a run on Android: version 9.0.0 waits, release 1.0.1 is made by hand and gets fifty hot updates, and 1.0.2 may be queued |
| IPARetention.StatesStayConsistent | internal/api/ios_ipa_status.go:163-182 | through any marks and purges, installable means uploaded and not rejected, and purged stays purged |
| IPARetention.MarksSurvivePurges | internal/api/ios_ipa_status.go:239-257 | through any marks and purges in any order, what is marked in the end is what the marks alone would have left |
| IPARetention.LatePurges | internal/api/ios_ipa_status.go:204-257 | if marks come between the purge's read and its update, the list promises to keep the package at the purge exactly when it had expired only for having been uploaded and is marked so once more |
| IPARetention.PurgeExpired | internal/api/ios_ipa_status.go:204-258 | one pass purges exactly the expired rows of its batch, and none that the list still promises to keep as it was read |
| IPARetention.PurgedInTheEnd | internal/api/ios_ipa_status.go:204-258 | pass after pass, an expired package is purged sooner or later exactly when fewer unexpired rows that the query finds stand before it than fit into a batch |
| IPARetention.AgeIsNotStarved | internal/api/ios_ipa_status.go:212-214 | a package that expired by age is purged sooner or later |
| IPARetention.UploadedPackagesCanWait | internal/api/ios_ipa_status.go:208-214 | a hundred older, unmarked packages keep an expired uploaded one out of every batch |

## Left out

- HTTP, request decoding and validation, audit events and problem texts: a request is a typed step with its guard. The identity and upload-flag checks that completeIOSBuildJob makes on the report before its transaction are among them.
- The database itself: a transaction is an atomic step (or split where said above), FOR UPDATE a row lock, a subquery a snapshot. createBuildJob's floor check and its insertion are one step.
- Cryptography: a provenance statement is accepted with the fields it names; signature checks and hashing are not modelled, and random key segments and release ids are fresh numbers. Base64 around cursors and signatures is left off.
- The material and delivery conditions of the claim inside `world`: there they are an arbitrary set of jobs that a claim may take. `admission` models them on their own.
- The signer's own decisions (which job it takes, what it rejects): its reports are steps with the guards of the table. No bound is claimed on how often a signing is deferred.
- The OTA payload upload, which changes no row, and the files of OTA jobs.
- Purging a release: its preconditions on delivery status and attached OTA releases; the model lets any release be purged.
- Versions are triples. The version comparison's treatment of leading zeros, and patch numbers beyond 64 bits, are not modelled.
- sanitizeLine and character encodings: a line's bytes are made into text by a function that the writer is given. Which variable names are secret is decided by a given predicate. A part of a secret, where a line was cut or broken, is not one any more.
- The listener that the line writer may call with each line before it is redacted.
- Letter case: only ASCII letters are folded.
- scanTenants, keychain and profile parsing, subprocesses, file permissions: the inventory is what the re-check starts from, and the role programs' answers are arbitrary.
- The agent's polling loop and heartbeats: what they send is among the reports; the hand-back of a lost claim is one of them.
- What is inside an uploaded package: its inspection happens before it is stored, and only its size and digest are recorded.
- updateIOSDelivery and the readiness view: switching a tenant's delivery mode changes no job row that is modelled.
- How often the material list is fetched, and what is said once in the log.
- The list's total, latest build numbers and views: they would only add easy members.
- NoSecretSurvives: for a list of several secrets the condition is sufficient; which lists of completable secrets are still safe depends on how they overlap.
- SyncTeamMaterial: the order in which upload keys are removed is any order, because the source iterates over a map.
- PurgedInTheEnd: speaks of passes at one time and without marks in between.
- A hot update's checks on its base release other than that it exists, is of the series and has no live update, and the platform checks of releases made by hand.
