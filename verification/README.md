# SuperBoss: import, upload and connector recovery

SuperBoss takes a result package from a workstation connector through object storage and a virus
scan to an import job that is RECEIVED, REJECTED or CONFLICT. This project models that path and the
services around it, and proves what it keeps in every interleaving, crash and lost answer.

## What is modelled

* **Server** (`Rows`, `Lifecycle*`, `Services`). File and job rows, storage, scan deliveries and
  audit rows as one step system. A step is one committed transaction, one storage call outside a
  transaction, or one loss. A job stays locked from the snapshot of its files to its commit while
  the files move on. `Services` has the same transactions as methods over the tables.
  `LifecycleVerdicts` ties verdicts to the scanner's answers, `LifecycleTimes` the time stamps to commits.
* **Create** (`Keys`, `Intake*`). Concurrent creates under device and key: look up, insert files,
  insert the job, lose races, match, and when a create succeeds. The joined keys and fingerprints are injective.
* **Connector** (`Parts`, `Outbox*`, `Effects*`, `Command`). The document on disk with its
  validators, the command as a machine over its durable effects, what each outcome of an effect leads
  to, and `_resume` itself as nested loops proved to end exactly there.
* **Both together** (`Resume*`). A request that was sent may be executed late, several times or
  never, and its answer may be lost; the rest of the server moves on meanwhile.
* **Pairing** (`Pairing`, `Performance*`, `Workstation`). pair, submit, retry and status as durable
  effects on document, markers and keyring, with a crash possible between any two, and the commands
  themselves, proved to turn out as their starting point, lifetime and answers call for.
* **All of it** (`Whole*`). These commands next to the real server, with the credential in use
  following the keyring.
* **Self-contained parts.** Multipart provisioning (`Provisioning`) and its listing (`Pager`),
  device sessions (`Devices`) and what their credentials are good for (`DeviceCredentials`), the login lock (`Login`), INSTREAM framing (`Framing`), audit
  metadata (`Json`, `Sanitizer`, `Redaction`).

## Findings

* The echo check of the connector (client.py:307-310) compares attachment kinds in the connector's
  order ORIGINAL, REVISED, K3_RAW, but the server lists them by the stored name of the kind
  (imports/service.py:787-791), and every package has exactly one K3_RAW (manifest.py:202-205). So a
  create is accepted only for packages with that one attachment:
  `ResumeExchange.OnlySingleAttachmentsAreAccepted`; `OriginalAndResultAreRefused` is such a
  refusal. The safety results hold for all packages.
* A wake-up is lost only with its delivery: if the last delivery that owes a job is lost for good, the
  job waits for a reader (`LifecycleRuns.UnowedMeansLost`, `LifecycleWitness`).
* The login bound is about half-open windows: the instant at which a lock ends admits a sixth check
  (`Login.BoundIsTight`).

## Assumptions

* SHA-256, uuid5, fresh tokens and ids do not collide. A digest is modelled as the value that was
  hashed; ids are naturals. An ETag identifies the content of its part. Canonical JSON of a manifest
  is injective, so equal manifest fingerprints mean equal manifests.
* Row locks serialise the writers of a row; each query sees one committed snapshot.
* Storage calls are atomic. They may succeed with the answer lost but have no effect after the
  caller's transaction has ended.
* Renaming a file and setting a keyring entry are atomic; one process at a time holds the operation
  lock of an origin.
* Between two moments at which a file's size, modification time and mode are equal, its content was
  the same (`Parts.StatIsFaithful`), and files are finite.
* Clocks do not go backwards.
* Only the workstation's devices complete the uploads of their jobs and submit them
  (`Resume.Foreign`). A device that has just been paired has no jobs. New
  jobs bind provisioned, unattached files: this is what `IntakeRuns` and `Provisioning` show.
* Key normalisation and case folding of metadata, and the printing of floats, are parameters.

## Model

| member | source | states |
|---|---|---|
| `LifecycleRuns.NoLostWakeUp` | server/src/superboss/modules/files/tasks.py:19-28 | a job that waits although its files decide it is owed a visit by some delivery past the verdict on one of its files, as long as no step lost the last delivery that owed it |
| `LifecycleRuns.UnowedMeansLost` | server/src/superboss/modules/files/tasks.py:19-28 | nobody owes such a job exactly when some step lost the last delivery that did and nobody has owed it since |
| `LifecycleWitness.LosingTheLastDeliveryStrands` | server/src/superboss/modules/files/tasks.py:19-28 | a ten-step run whose last owing delivery is lost, and the job is stranded |
| `LifecycleRuns.VisitSettles` | server/src/superboss/modules/imports/service.py:347-364 | whoever locks a decided SCANNING job for a reconcile (a worker, or a device reading it, even when every worker died) leaves it final with that decision for ever |
| `LifecycleRuns.SubmitSettles` | server/src/superboss/modules/imports/service.py:590-635 | one accepted submit of a job whose uploads are over and whose files decide it leaves it final with that decision for ever |
| `LifecycleRuns.ReceivedIsTruthful` | server/src/superboss/modules/imports/service.py:876-910 | a RECEIVED job has only CLEAN files, each object is in storage with the declared size and digest, and a declared base is the ORIGINAL; in every interleaving with expiry and late deletes |
| `LifecycleVerdicts.ReceivedWasScannedClean` | server/src/superboss/modules/files/service.py:83-106 | every attachment of a RECEIVED job had its one scan, of its declared bytes, answered clean |
| `LifecycleVerdicts.VerdictsAreTheScanners` | server/src/superboss/modules/files/service.py:68-106 | in every run: CLEAN exactly for a clean answer on the declared bytes, INFECTED exactly with the signature answered for them, HASH_MISMATCH exactly for other bytes that were scanned, SCAN_FAILED exactly without object or answer; of the one scan of that file |
| `LifecycleVerdicts.BadObjectsAreOwed` | server/src/superboss/modules/files/service.py:108-112 | the object of an infected or failed file is still in storage only while its delete is owed, or after storage refused that delete or the worker that owed it died |
| `LifecycleVerdicts.ScanIsThreeSteps` | server/src/superboss/modules/files/service.py:53-112 | claim, scan and store in a row leave the one file with what its scan deserved, nothing else changed, and a bad object to delete before anything else |
| `LifecycleVerdicts.ReconcileFollows` | server/src/superboss/modules/files/tasks.py:19-28 | whatever storage says to the delete, the delivery then visits exactly the jobs the file is attached to |
| `Lifecycle.OutcomeIsDeserved` | server/src/superboss/modules/files/service.py:83-96 | the same for one scan, as an if-and-only-if per state and result |
| `LifecycleTimes.SubmittedAtSubmission` | server/src/superboss/modules/imports/service.py:913-949 | submitted_at is the clock of the one commit that left UPLOADING, then and ever after |
| `LifecycleTimes.SubmittedByPermission` | server/src/superboss/modules/imports/service.py:573-606 | nothing but a permitted submit takes a job out of UPLOADING |
| `LifecycleTimes.UpdatedAtLastChange` | server/src/superboss/modules/imports/service.py:913-949 | updated_at is the clock of the creation or of the last commit that changed the job, and nothing changed it since |
| `LifecycleRuns.DecisionLasts` | server/src/superboss/modules/imports/service.py:876-910 | once the files decide a job, every later state of the run decides it the same way |
| `LifecycleRuns.FinalStatusFollowsFiles` | server/src/superboss/modules/imports/service.py:742-763 | a final status is the one the present files call for, and a rejection code names a state some attachment really has |
| `LifecycleRuns.OrderDoesNotMatter` | server/src/superboss/modules/imports/service.py:607-623 | any two final jobs, in any states of any two runs, that saw the same base, kinds, states and digests have the same status, whatever scanned, submitted or read in which order |
| `LifecycleRuns.ScannedOnce` | server/src/superboss/modules/files/service.py:53-106 | however often a file is delivered, redelivered or redispatched: the scanner is asked at most once, states only move forwards, a verdict is never overwritten |
| `LifecycleRuns.HistoryIsAudited` | server/src/superboss/modules/imports/service.py:913-949 | the statuses a job really takes are UPLOADING followed by exactly its transition audit rows, in an admissible sequence with distinct event keys, and the row meets the table checks |
| `LifecycleRuns.RunGrows` | server/src/superboss/modules/imports/models.py:86-101 | rows are never lost and only move forwards; verdicts, final statuses and submitted_at are written once |
| `LifecycleRuns.ReachableInv` | server/src/superboss/modules/files/service.py:83-106 | every reachable state keeps the row, storage, scan, job, holder, wake-up and audit invariants |
| `LifecycleRuns.StepKeepsInv` | server/src/superboss/modules/imports/service.py:607-623 | every transaction, storage call and loss keeps all of them |
| `LifecycleWake.WakeStep` | server/src/superboss/modules/imports/service.py:716-763 | after any step that does not lose the last owing delivery, a decided waiting job is owed a visit |
| `LifecycleWake.ReadyComesFromVerdict` | server/src/superboss/modules/files/service.py:98-106 | only the commit of a verdict on one of its files can make a waiting job decided |
| `Rows.EvaluationMeaning` | server/src/superboss/modules/imports/service.py:876-910 | each status and result code names exactly one situation of the attachments, in both directions |
| `Rows.DecisionIsStable` | server/src/superboss/modules/imports/service.py:876-910 | a justified decision stays justified for all later file states |
| `Services.ImportTables.BeginScan` | server/src/superboss/modules/files/service.py:56-66 | claims exactly QUARANTINED files and hands out their digest |
| `Services.ImportTables.CommitScan` | server/src/superboss/modules/files/service.py:98-112 | stores the verdict only while the file is SCANNING; owes a delete exactly for stored bad verdicts |
| `Services.ImportTables.ScanFile` | server/src/superboss/modules/files/service.py:53-112 | one undisturbed scan: a QUARANTINED file has the state and result that object, digest and answer deserve, every other file stays; a delete is owed exactly for a new bad verdict |
| `Services.ImportTables.ExecuteFileScan` | server/src/superboss/modules/files/tasks.py:19-28 | the file has the state and result its scan deserved, no job of it is SCANNING although decided, and jobs without it are untouched |
| `Services.ImportTables.CompleteUpload` | server/src/superboss/modules/files/service.py:373-424 | idempotent outside UPLOADING; QUARANTINED or FAILED by the size that storage reports |
| `Services.ImportTables.ExpireOne` | server/src/superboss/modules/files/service.py:493-518 | fails exactly UPLOADING files older than the cutoff |
| `Services.ImportTables.ApplyTransition` | server/src/superboss/modules/imports/service.py:913-949 | writes the transition and one audit row; submitted_at only once |
| `Services.ImportTables.Submit` | server/src/superboss/modules/imports/service.py:565-635 | each outcome exactly under its condition; refusals change nothing; an accepted submit leaves a final job alone and any other with the status its files call for |
| `Services.ImportTables.ReconcileFile` | server/src/superboss/modules/imports/service.py:716-763 | settles every waiting decided job of the file, leaves the others, and each trail grows by its change only |
| `Services.ImportTables.Read` | server/src/superboss/modules/imports/service.py:287-373 | the view shown is never SCANNING although decided; a refused read changes nothing |
| `Services.SubmitIsLockThenCommit` | server/src/superboss/modules/imports/service.py:573-623 | the submit method is its lock step followed by its commit step when nothing interferes |
| `Services.ReadIsLockThenCommit` | server/src/superboss/modules/imports/service.py:742-763 | the same for a reconcile by a reader |
| `Keys.ChildKeyInjective` | server/src/superboss/modules/imports/service.py:1171-1177 | equal child keys mean equal device, key and kind |
| `Keys.FingerprintInjective` | server/src/superboss/modules/files/service.py:281-292 | equal upload fingerprints mean equal uploads |
| `IntakeRuns.SuccessesAgree` | server/src/superboss/modules/imports/service.py:129-200 | concurrent creates under one device and key: all successes return the same job and files |
| `IntakeRuns.ConflictIsReal` | server/src/superboss/modules/imports/service.py:1134-1159 | a conflict is answered only when the key is bound to another manifest or contended |
| `IntakeProgress.PendingOnlyUnprovisioned` | server/src/superboss/modules/imports/service.py:153-200 | a create is answered pending only after one of its own uploads could not be provisioned |
| `IntakeProgress.JobsAreProvisioned` | server/src/superboss/modules/files/service.py:232-273 | every file of every job was provisioned for the call that inserted the job |
| `IntakeProgress.CreatedWasProvisioned` | server/src/superboss/modules/imports/service.py:153-200 | a call one of whose uploads was not provisioned is answered pending, and nothing else later |
| `IntakeProgress.AloneIsCreated` | server/src/superboss/modules/imports/service.py:129-200 | from any point, a call advanced alone and provisioned each time, on a key with no other manifest, is Created within 3n + 3 steps, with one file per declaration |
| `IntakeRuns.BoundKeyAnswers` | server/src/superboss/modules/imports/service.py:1022-1037 | once a key is bound, the same manifest gets that job and any other a conflict |
| `IntakeRuns.FileBelongsToOneJob` | server/src/superboss/modules/imports/models.py:160-162 | a file is attached at most once over all jobs |
| `IntakeRuns.UploadsAreFree` | server/src/superboss/modules/files/service.py:169-230 | the uploads a call gathers are not yet attached to another job |
| `IntakeRuns.ReachableInv` | server/src/superboss/modules/imports/service.py:1039-1132 | every interleaving of the create steps keeps calls, files and jobs consistent |
| `IntakeRuns.RunExtends` | server/src/superboss/modules/imports/service.py:1039-1132 | bound keys and files are never rebound |
| `Pager.ListMultipartUploads` | server/src/superboss/infrastructure/s3.py:111-138 | ends for every provider with finitely many markers; the sorted ids of the walk, or the pagination error exactly when the walk makes no progress |
| `Pager.WalkIsExact` | server/src/superboss/infrastructure/s3.py:111-138 | on a faithful provider the pages from any marker hold exactly the remaining ids of this key |
| `Pager.ListingIsExact` | server/src/superboss/infrastructure/s3.py:111-138 | for any page size the result is exactly the uploads whose key equals the object key, not those that share its prefix |
| `Provisioning.FileSlot.ProvisionUpload` | server/src/superboss/modules/files/service.py:232-273 | one attempt, with every call refused or its answer lost at will, has the specified effect |
| `Provisioning.FileSlot.AbortLeftovers` | server/src/superboss/modules/files/service.py:256-260 | removes exactly the leftovers whose abort succeeds |
| `Provisioning.OneActiveUpload` | server/src/superboss/modules/files/service.py:232-273 | an object key never has more than one unfinished upload |
| `Provisioning.CommittedForEver` | server/src/superboss/modules/files/service.py:242-272 | a committed multipart id never changes |
| `Provisioning.CallersAgree` | server/src/superboss/modules/files/service.py:232-273 | all callers that get an id get the same one |
| `Provisioning.FirstAttemptSucceeds` | server/src/superboss/modules/files/service.py:232-273 | a first attempt with every call answered and committed returns its new id |
| `Provisioning.CommittedAnswers` | server/src/superboss/modules/files/service.py:242-250 | once an id is committed every later attempt returns it, while the file is UPLOADING and only then |
| `Provisioning.ReturnsCommitted` | server/src/superboss/modules/files/service.py:262-273 | an attempt returns an id only when that id is committed |
| `Provisioning.OverLeavesNone` | server/src/superboss/modules/files/service.py:504-512 | completing the committed upload, or expiring it with an abort that succeeds, leaves no unfinished one |
| `Provisioning.LeftoversAreCleared` | server/src/superboss/modules/files/service.py:256-262 | however many leftovers there are, an attempt whose aborts succeed leaves at most its own upload |
| `Provisioning.DanglingIsAdopted` | server/src/superboss/modules/files/service.py:252-255 | an upload whose creation was never recorded is adopted by the next attempt that lists and commits |
| `Devices.DeviceTables.Pair` | server/src/superboss/modules/devices/service.py:251-333 | consumes the code and opens one session on a new device, or changes nothing |
| `Devices.DeviceTables.IssueSession` | server/src/superboss/modules/devices/service.py:335-371 | one new row with fresh credentials and both life times |
| `Devices.DeviceTables.Refresh` | server/src/superboss/modules/devices/service.py:373-440 | rotation after re-checking the located session under the locks |
| `Devices.DeviceTables.Revoke` | server/src/superboss/modules/devices/service.py:515-562 | the device and each open session of it, one row at a time; settled rows keep their time |
| `Devices.OneAccessToken` | server/src/superboss/modules/devices/service.py:442-513 | at most one access token of a device authenticates at any moment |
| `DeviceCredentials.CredentialsWorkUntil` | server/src/superboss/modules/devices/service.py:335-371 | whatever pairing or refreshing handed out works at every later moment, exactly as long as owner, device and session stand: the access token for 7,200 seconds, the refresh token once within 1,209,600 |
| `DeviceCredentials.PairHandsCredentials` | server/src/superboss/modules/devices/service.py:251-333 | after pairing, the access token authenticates and the refresh token is found at its session and can be used |
| `DeviceCredentials.RefreshHandsCredentials` | server/src/superboss/modules/devices/service.py:373-440 | so they do after a rotation, for the same device |
| `DeviceCredentials.RefreshIsLocateThenRotate` | server/src/superboss/modules/devices/service.py:373-440 | a refresh is its unlocked lookup followed by its rotation when nothing interferes |
| `DeviceCredentials.PairsExactly` | server/src/superboss/modules/devices/service.py:251-333 | a code pairs exactly when it exists, is unused and unexpired, and its owner and projects are active; a refusal changes nothing |
| `DeviceCredentials.CodeWorksUntil` | server/src/superboss/modules/devices/service.py:190-249 | a code handed out pairs for 600 seconds, exactly while it is unused and its owner active |
| `DeviceCredentials.RevokesExactly` | server/src/superboss/modules/devices/service.py:515-562 | only the active owner revokes, only its own unrevoked device; every session of it is closed and no other row changes |
| `Devices.ConsumedOnce` | server/src/superboss/modules/devices/service.py:373-440 | each refresh token and each pairing code yields a session at most once |
| `Devices.RevocationIsFinal` | server/src/superboss/modules/devices/service.py:515-549 | after a revoke no session of the device is live again, even against a refresh that located it earlier |
| `Devices.RunAdvances` | server/src/superboss/modules/devices/service.py:251-562 | nothing used or revoked is ever undone |
| `Devices.ReachableInv` | server/src/superboss/modules/devices/service.py:335-371 | every run keeps one live session per device and distinct tokens |
| `Login.UserRow.LogIn` | server/src/superboss/modules/auth/service.py:86-111 | one attempt: counter, lock, reply and last login |
| `Login.AlwaysConsistent` | server/src/superboss/modules/auth/service.py:86-111 | a stored lock means that the counter is 5, and conversely |
| `Login.AtMostFivePerWindow` | server/src/superboss/modules/auth/service.py:86-111 | any half-open 15 minutes without a login or reset let at most 5 attempts reach the password check |
| `Login.RepliesExactly` | server/src/superboss/modules/auth/service.py:86-111 | locked exactly while a lock stands; otherwise a right password is let in and a wrong one refused |
| `Login.FifthLocks` | server/src/superboss/modules/auth/service.py:86-111 | wrong passwords one after another lock the account with the fifth and not before, for 900 seconds |
| `Login.LoginResets` | server/src/superboss/modules/auth/service.py:86-111 | after a login five more wrong passwords are needed for a lock |
| `Login.BoundIsTight` | server/src/superboss/modules/auth/service.py:26-27 | five are reached, and the closed window admits a sixth |
| `Framing.Connection.Stream` | server/src/superboss/infrastructure/clamav.py:70-83 | succeeds exactly when no chunk is empty and all fit; then the scanner decodes their concatenation in frames of 1 to max_chunk bytes; otherwise at most the limit was sent and no end is seen |
| `Framing.FramingRoundTrip` | server/src/superboss/infrastructure/clamav.py:75-83 | decoding the frames and the zero frame gives the frames back; without the zero frame nothing decodes |
| `Framing.PackOrders` | server/src/superboss/infrastructure/clamav.py:79-81 | the length is in network byte order: the first differing byte tells which of two lengths is greater |
| `Framing.ReplyMeaning` | server/src/superboss/infrastructure/clamav.py:119-133 | a verdict is read from its own reply line and from no other |
| `Parts.HashRegularFile` | integrations/kimi-superboss/connector/src/superboss_connector/manifest.py:290-314 | returns the size, digest and part digests of one content, whatever was edited meanwhile, and does so when nothing was |
| `Parts.VerifyAttachment` | integrations/kimi-superboss/connector/src/superboss_connector/manifest.py:410-418 | accepts only the content with that size and digest, and accepts it |
| `Parts.PartsReassemble` | integrations/kimi-superboss/connector/src/superboss_connector/manifest.py:290-314 | the parts put together are the file; at most 100 MiB means 1 to 13 parts |
| `Parts.PartIsOriginal` | integrations/kimi-superboss/connector/src/superboss_connector/cli.py:209-226 | what passes the length and digest check is the part hashed at preparation, whatever the file holds now; an unedited file passes |
| `Parts.Reassembly` | integrations/kimi-superboss/connector/src/superboss_connector/cli.py:209-226 | parts accepted at different moments concatenate to the bytes hashed at preparation |
| `OutboxProgress.InitialOk` | integrations/kimi-superboss/connector/src/superboss_connector/outbox.py:257-276 | a new document is valid and in shape |
| `OutboxProgress.BindOk` | integrations/kimi-superboss/connector/src/superboss_connector/cli.py:190-206 | binding a created job gives each attachment the file of its kind and keeps the document valid |
| `OutboxProgress.UpdatedOk` | integrations/kimi-superboss/connector/src/superboss_connector/cli.py:237-322 | every accepted reply leads from a valid document in shape to another |
| `OutboxRuns.EverySaveIsValid` | integrations/kimi-superboss/connector/src/superboss_connector/outbox.py:96-209 | no save ever fails validation, and every document is completed attachments, then one with parts 1 to k, then untouched ones |
| `OutboxRuns.DocumentIsAboutItsPackage` | integrations/kimi-superboss/connector/src/superboss_connector/outbox.py:257-276 | whatever the server answered, a document has the key, base and items of the package the command began with, until it is deleted |
| `OutboxRuns.CompletedUploadsAreLeftAlone` | integrations/kimi-superboss/connector/src/superboss_connector/cli.py:258-309 | no part is sent for an attachment after its complete call, even an unanswered one |
| `OutboxRuns.RepeatedPartsAreInterruptions` | integrations/kimi-superboss/connector/src/superboss_connector/cli.py:258-284 | over all commands on a document the parts sent are at most its parts plus the interrupted commands |
| `OutboxRuns.RunKeepsInv` | integrations/kimi-superboss/connector/src/superboss_connector/cli.py:229-323 | and so does every run, whatever the server answers |
| `Command.Run.Resume` | integrations/kimi-superboss/connector/src/superboss_connector/cli.py:229-323 | result, document and unused outcomes are exactly those that the effects of the document lead to one by one; all of them are steps of the connector |
| `EffectsProgress.DoneExactly` | integrations/kimi-superboss/connector/src/superboss_connector/cli.py:229-323 | a command is done exactly when the effects its document needs all go well, and uses as many outcomes; anything else met a refusal, no answer, an edited file or its end |
| `EffectsProgress.EndsWhereItStalls` | integrations/kimi-superboss/connector/src/superboss_connector/cli.py:326-332 | a command that is not done ended at its first unwanted outcome: as a changed file exactly when that was a look at the local file, with the document gone exactly then, and stopped otherwise |
| `EffectsProgress.EditedFileDiscards` | integrations/kimi-superboss/connector/src/superboss_connector/manifest.py:410-418 | at each of the three checks, content with the hashed size and digest goes on, and any other deletes the document at once |
| `EffectsProgress.EditedPartDiscards` | integrations/kimi-superboss/connector/src/superboss_connector/cli.py:209-226 | the same for the part that is read |
| `EffectsProgress.WorkStep` | integrations/kimi-superboss/connector/src/superboss_connector/cli.py:258-309 | each good outcome brings the command one effect closer: five for a missing part, three to complete, one to check |
| `EffectsProgress.WishesSuffice` | integrations/kimi-superboss/connector/src/superboss_connector/cli.py:229-323 | from every document and point there are outcomes with which the command reaches its evidence |
| `Effects.DriveOne` | integrations/kimi-superboss/connector/src/superboss_connector/cli.py:229-323 | what one outcome leads to: onward; a changed file without document after a look at it; stopped with the document otherwise |
| `Command.Run.UploadAttachment` | integrations/kimi-superboss/connector/src/superboss_connector/cli.py:241-309 | verifies, skips recorded parts, sends the missing ones, completes once; otherwise ends as the effects call for |
| `Command.Run.UploadPart` | integrations/kimi-superboss/connector/src/superboss_connector/cli.py:261-284 | URL, check, read, send and save the next part, or end as these call for |
| `Command.Run.CompleteAttachment` | integrations/kimi-superboss/connector/src/superboss_connector/cli.py:285-309 | checks, sends all recorded parts and marks the attachment, or ends as these call for |
| `Command.Run.SubmitAndRecord` | integrations/kimi-superboss/connector/src/superboss_connector/cli.py:313-323 | records the answer as evidence, or stops where the outcomes call for it |
| `Command.Run.BindCreatedJob` | integrations/kimi-superboss/connector/src/superboss_connector/cli.py:190-206 | the loop binds each attachment by its kind |
| `Command.Run.Save` | integrations/kimi-superboss/connector/src/superboss_connector/outbox.py:361-391 | replaces the document at once or not at all |
| `Command.Run.Call` | integrations/kimi-superboss/connector/src/superboss_connector/client.py:282-324 | goes on only with a reply that passes the echo checks |
| `Command.Run.Verify` | integrations/kimi-superboss/connector/src/superboss_connector/cli.py:241-246 | goes on exactly with the hashed file; any other content deletes the document and is a changed file; no answer stops and keeps it |
| `ResumeRuns.OneJobPerDocument` | server/src/superboss/modules/imports/service.py:1022-1037 | however often create is sent, executed late or repeated, a document names the only job of its device and key |
| `ResumeRuns.JobIsThePackage` | server/src/superboss/modules/imports/service.py:1039-1132 | the job that a document names has the base, kinds, sizes and digests of the package of that document |
| `ResumeRuns.CompletedHasLeftUploading` | integrations/kimi-superboss/connector/src/superboss_connector/cli.py:308-309 | completed on disk means that the server file has left UPLOADING for good |
| `ResumeRuns.SubmitIsNeverIncomplete` | server/src/superboss/modules/imports/service.py:590-606 | a submit that was sent is never refused as IMPORT_ATTACHMENTS_INCOMPLETE, whenever it is executed |
| `ResumeRuns.EvidenceIsFinal` | integrations/kimi-superboss/connector/src/superboss_connector/cli.py:313-323 | a terminal status in the evidence is the job's status and code, then and ever after |
| `ResumeRuns.UploadsReassemble` | server/src/superboss/modules/files/service.py:378-391 | while storage has the upload, a complete call that was sent finds all parts it names and they put together to the bytes hashed at preparation; 1 to 13 of them |
| `ResumeRuns.UploadsAreNeverBlamed` | server/src/superboss/modules/files/service.py:83-85 | no file of this workstation's jobs ends as SIZE_MISMATCH or HASH_MISMATCH, and its object is the original |
| `ResumeRuns.ProgressIsOrderly` | integrations/kimi-superboss/connector/src/superboss_connector/outbox.py:361-391 | next to the real server, too, saves are valid, documents in shape and completed uploads left alone |
| `ResumeRuns.ReachableInv` | integrations/kimi-superboss/connector/src/superboss_connector/cli.py:229-323 | every interleaving with the server, crashes, lost, late and repeated requests keeps the joint invariant |
| `ResumeSteps.JointStep` | integrations/kimi-superboss/connector/src/superboss_connector/cli.py:229-323 | every single move keeps it |
| `ResumeSteps.AssemblyIsOriginal` | server/src/superboss/modules/files/service.py:378-391 | intact parts that are all named assemble to the original |
| `ResumeExchange.SentOk` | integrations/kimi-superboss/connector/src/superboss_connector/cli.py:258-306 | every request sent agrees with the server: parts are original, complete calls name all parts, submitted jobs are uploaded |
| `ResumeExchange.UpdatedAgrees` | integrations/kimi-superboss/connector/src/superboss_connector/cli.py:237-322 | a document updated from a truthful answer agrees with the server |
| `ResumeExchange.OnlySingleAttachmentsAreAccepted` | integrations/kimi-superboss/connector/src/superboss_connector/client.py:307-310 | the echo check on a job of the package, whenever it is viewed, passes exactly when the package holds nothing besides its K3_RAW and neither the job nor that file has left UPLOADING |
| `ResumeExchange.OriginalAndResultAreRefused` | integrations/kimi-superboss/connector/src/superboss_connector/client.py:307-310 | an ORIGINAL with its K3_RAW, as prepared and newly created, is refused |
| `ResumeStorage.StorageHoldsStep` | integrations/kimi-superboss/connector/src/superboss_connector/client.py:425-448 | each move keeps every acknowledged part in storage until its upload is over |
| `Pairing.ResumedByItsDevice` | integrations/kimi-superboss/connector/src/superboss_connector/cli.py:497-519 | in every run with crashes anywhere, a document with remote ids is resumed only with the credential of the device that made its job |
| `Pairing.MarkersExcludeWork` | integrations/kimi-superboss/connector/src/superboss_connector/cli.py:397-423 | at most one marker; under one no credential is rotated, no document made or worked on |
| `Pairing.ReplacedMeansPaired` | integrations/kimi-superboss/connector/src/superboss_connector/cli.py:106-116 | a marker compares as replaced exactly when its pairing stored the new credential |
| `Pairing.EvidenceSurvivesPairing` | integrations/kimi-superboss/connector/src/superboss_connector/cli.py:337-395 | pairing and recovery never delete a document that holds evidence |
| `Pairing.TokenIsSpentOnce` | integrations/kimi-superboss/connector/src/superboss_connector/client.py:270-280 | a refresh token is sent again only after its answer was lost, or the process died before it saved the new one |
| `Pairing.CompletedPairingIsRecovered` | integrations/kimi-superboss/connector/src/superboss_connector/cli.py:119-155 | wherever the process died after the credential was stored, the next pair only clears up |
| `WholeRuns.RequestsAreTheOwners` | integrations/kimi-superboss/connector/src/superboss_connector/client.py:198-210 | over every run of the commands next to the real server: a request that names a job or a file of one was sent with a credential of the device that owns it |
| `WholeRuns.CredentialFollowsKeyring` | integrations/kimi-superboss/connector/src/superboss_connector/client.py:270-280 | a command at work uses the device of the keyring |
| `WholeRuns.PairingAllows` | integrations/kimi-superboss/connector/src/superboss_connector/cli.py:337-519 | whatever the commands and the server can do together is a move that pairing allows |
| `WholeRuns.WholeStep` | integrations/kimi-superboss/connector/src/superboss_connector/cli.py:337-519 | each step keeps the joint, pairing and ownership invariants together |
| `Pairing.StepKeepsInv` | integrations/kimi-superboss/connector/src/superboss_connector/cli.py:337-395 | each durable effect, refusal and crash keeps the marker, credential and binding invariants |
| `Pairing.ReachableInv` | integrations/kimi-superboss/connector/src/superboss_connector/cli.py:337-395 | so does every run |
| `Workstation.Station.PairAgain` | integrations/kimi-superboss/connector/src/superboss_connector/cli.py:337-395 | result, state, effects and answers left are exactly what the starting point calls for; success leaves no marker, no document and the new or recovered credential; a document with evidence stays |
| `Workstation.Station.RecoverReplacement` | integrations/kimi-superboss/connector/src/superboss_connector/cli.py:119-140 | what recovery deletes and what it reports |
| `Workstation.Station.RecoverInitialPair` | integrations/kimi-superboss/connector/src/superboss_connector/cli.py:143-155 | the same after a first pairing |
| `Workstation.Station.Refresh` | integrations/kimi-superboss/connector/src/superboss_connector/client.py:270-280 | rotation keeps the device; without a credential there is none |
| `Workstation.Station.SubmitPackage` | integrations/kimi-superboss/connector/src/superboss_connector/cli.py:397-423 | as the starting point calls for; only without a document or markers left, and finishing leaves neither; the device of the keyring never changes |
| `Workstation.Station.RetryPackage` | integrations/kimi-superboss/connector/src/superboss_connector/cli.py:497-519 | as the starting point calls for; a document bound to a device is finished only as that device |
| `Workstation.Station.ReadStatus` | integrations/kimi-superboss/connector/src/superboss_connector/cli.py:425-438 | as the starting point calls for; clears up, rotates, and leaves documents that are not obsolete |
| `Workstation.Station.ResumeAs` | integrations/kimi-superboss/connector/src/superboss_connector/cli.py:229-323 | carries the document to evidence as one device and deletes it; stops or discards exactly where lives and answers call for it |
| `PerformanceProgress.IdleCommandsSucceed` | integrations/kimi-superboss/connector/src/superboss_connector/cli.py:337-519 | with enough effects and answers every command of an idle workstation succeeds, or is refused for exactly what it finds |
| `PerformanceProgress.StoppedMeansHindered` | integrations/kimi-superboss/connector/src/superboss_connector/cli.py:337-519 | a command that stops or discards was killed, or heard an answer other than yes |
| `PerformanceProgress.EditsDiscard` | integrations/kimi-superboss/connector/src/superboss_connector/cli.py:326-332 | a command reports a changed file exactly when a look at the files (retry prepares them, an upload reads them) finds an edit; then only the document goes, and a stopped command leaves everything on disk |
| `PerformanceProgress.SuccessClearsUp` | integrations/kimi-superboss/connector/src/superboss_connector/cli.py:337-519 | a command that pairs, recovers or finishes leaves no marker and no document; only status keeps the document it found |
| `PerformanceProgress.FinishedHeardEachPhase` | integrations/kimi-superboss/connector/src/superboss_connector/cli.py:229-323 | a finished submit, retry or status heard yes for its rotation and once for every phase its document had left, and nothing else |
| `PerformanceProgress.CommandsSucceed` | integrations/kimi-superboss/connector/src/superboss_connector/cli.py:337-519 | the same from every point of a command |
| `Sanitizer.AcceptedExactly` | server/src/superboss/modules/audit/schemas.py:57-92 | validation accepts exactly the graphs that unfold to a finite JSON value within every limit |
| `Sanitizer.ValidatedFinite` | server/src/superboss/modules/audit/schemas.py:57-92 | a graph that unfolds is refused for its limits only, and shared values are paid for each time |
| `Redaction.SanitizedExactly` | server/src/superboss/modules/audit/schemas.py:23-38 | the result is the redacted unfolding of an object within the limits whose copy is short enough |
| `Redaction.SanitizedTwice` | server/src/superboss/modules/audit/schemas.py:23-38 | sanitising a result again accepts it and changes nothing |
| `Redaction.CleanIsKept` | server/src/superboss/modules/audit/schemas.py:95-108 | behind clean keys only, a leaf is the same leaf in the copy, and a container has the same kind, length and names |
| `Redaction.SecretIsMasked` | server/src/superboss/modules/audit/schemas.py:95-108 | at a secret key there is the text [REDACTED] and nothing below it |
| `Redaction.NothingAdded` | server/src/superboss/modules/audit/schemas.py:95-108 | the copy has no place that the original has not |
| `Redaction.RedactedTwice` | server/src/superboss/modules/audit/schemas.py:95-108 | redacting is idempotent |
| `Redaction.CopySanitized` | server/src/superboss/modules/audit/schemas.py:95-108 | the copy made from the graph is the redacted unfolding |
| `Redaction.SanitizeMetadata` | server/src/superboss/modules/audit/schemas.py:23-38 | validate, copy, measure: the result or the refusal |
| `Redaction.Validator.ValidateValue` | server/src/superboss/modules/audit/schemas.py:57-92 | agrees with the specification and visits at most 1,001 nodes on any graph; the ancestor set is restored |
| `Redaction.Validator.ValidateSlots` | server/src/superboss/modules/audit/schemas.py:80-90 | the loop over items and keys |
| `Json.PrintingBoundsText` | server/src/superboss/modules/audit/schemas.py:35-37 | the compact JSON text is at least as long as all text in it |

## Left out

- HTTP routing, cookies, CSRF, JWT, Argon2, SQLAlchemy, boto3, sockets, DNS, timeouts, Celery and the Vue pages: only their outcomes (success, refusal, no answer) matter here.
- Completing a package with several attachments end to end: the echo check refuses it (see Findings).
- Liveness of scanning after a worker dies while its file is SCANNING: only QUARANTINED rows are redispatched, so such a file is not decided, and a decided job without a delivery waits for a reader.
- Liveness of completion when storage completed and the answer was lost: the retry asks storage again and stays pending until the upload expires.
- Storage effects that arrive after the 20 second timeout, and browser users driving a device's upload.
- Browser sessions after a disabled account or a changed password; the user row is not locked by their rotation. Device sessions are modelled next to browser rows without such claims.
- The byte size of a saved outbox document against the reader's limit: it depends on path lengths.
- The updater, configuration, readiness, projects, user administration and web upload code: single-branch checks or input and output.
- Path checks and sorting in `prepare_manifest`, reading the outbox directory (more than one document is an error there), response size limits in `_request`, and fields that the echo check compares besides the attachments.
- Unicode normalisation, MIME guessing, time formatting, `_segment` and `_safe_signature`: texts pass through unchanged. Device `last_used_at`, credential length limits and audit rows of refused requests are not kept.
- OutboxRuns.EverySaveIsValid: paths, file names, content types, origin and time stamps of the document are not fields of the model; the three remote identifiers of an attachment are one value, since the database matches them one to one.
- WholeRuns.RequestsAreTheOwners: the request for a part URL has no effect on either side and is not recorded as sent; it is a point where `Command.Run.UploadPart` can fail.
- Workstation.Station.ResumeAs: the upload phase is one advance here; its loops are in `Command.Run.Resume`, and `Whole` has its single effects.
- Redaction.SanitizedTwice: is stated for any graph that represents the first result, which is what the returned dictionary is.
- Services.ImportTables.Submit: the permission check is a parameter, and the audit row of a refusal is not kept.
- Parts.HashRegularFile: the two stat calls and each read see whatever the path holds at that moment; errors other than a missing file are not distinguished.
