# Verified model of the replica operations tooling and repair scripts

The repository operates a document knowledge base on Kubernetes: it backs the installation up and
alerts an outside receiver about stale backups, rotates credentials, certificates and images under a
maintenance fence, and repairs published documents and their index in place. These programs are
written to be interrupted: every one of them keeps a journal, a lock, a manifest or a snapshot, and
promises something about what is left when a process dies at the worst moment. This project states
those promises and proves them for a model of the code.

## The parts

- **Backup alerts** (`AlertProtocol`, `AlertSender`, `AlertReceiver`, `AlertDelivery`). A sender with a
  durable journal, an idempotent inbox, and a network that may lose, repeat, delay or recombine
  anything, as one transition system. A journal write may stop before its marker, after it, after the
  replacement, or not at all (backend/app/deployment/replica_backup_health.py:81-106).
- **Attachment paths** (`WhiteSpace`, `PathScanner`, `PathRewrite`, `PathFixpoint`, `PathRepair`,
  `PathSnapshot`). Two regular expressions as explicit scanners, the text they rewrite, and evidence
  offsets that move with it.
- **Lifecycle manager** (`Lifecycle`, `LifecycleSafety`, `LifecycleMisuse`). Any number of managers and
  recoveries, each call of which may fail before or after its effect, beside controllers that start
  and end Pods when they like. The chart without an application renders neither Deployment
  (deploy/helm/ai-knowledge/templates/application.yaml:1, frontend.yaml:1).
- **Templates** (`Workload`, `Bindings`, `ImageStaging`, `CredentialStage`). Pointing a stopped
  controller at another Secret, trust bundle, configuration, identity or image.
- **Credential transition** (`Credentials`, `CredentialSafety`, `CredentialProgress`, `CredentialOverlap`,
  `CredentialSetback`, `CredentialDeadEnd`). The phase journal, with a crash around every effect, offline
  Jobs that go on by themselves, writers, foreign maintenance operations, and commands that overlap.
- **Storage certificates** (`StorageTls`). The per-controller loop on a cluster that moves by itself.
- **Source backup** (`SourceBackup`). Fence, drain, freeze, export, cold verification, release.
- **Inventories** (`Inventory`, `VectorInventory`, `JsonText`, `PolicyDigest`). What the drain check
  sees through two filters; digests of JSON values.
- **Comment concepts** (`SlugOrder`, `KeySort`, `CommentAnchor`, `CommentRepair`). Anchoring, fresh
  slugs, and a second repair, which changes nothing for the concepts the program extracts.
- **Mail scope** (`MailAncestry`, `MailScope`, `MailBackfill`, `MailAudit`). Ancestry with cycles and
  gaps, classification with counters, and nested keyset scans.
- **Table reprocessing** (`AtMostOnce`). A manifest saved before a request that must not be repeated.

`Options` holds the two datatypes everything shares. `dafny verify dfyconfig.toml` checks all of it.

## Where the code promises less than it seems to

- `recover-lock` deletes the lock by name after its checks. Two recoveries of the same dead operation
  may overlap, and the second then deletes the lock of a newer manager; so may the recovery of an
  operation that is still alive. `LifecycleMisuse.TwoRecoveriesBreakSafety` and
  `RecoveringALiveOperationBreaksSafety` take every run to a cluster without a busy Job on to an operation
  Pod beside an application Pod. `LifecycleSafety.NeverCoexist` holds when a recovery is started only for an
  operation whose process is gone and which no other recovery is at work on.
- A manager whose deletion of the lock takes effect but is reported as failed is a failed run without
  a lock: `LifecycleSafety.FailureKeepsLock` says exactly when a failed run keeps it.
- Only the fence command and the two Jobs of a credential transition keep each other out, by the lock of
  the maintenance operator (`CredentialOverlap.OperatorIsExclusive`); nothing locks the journal. A late
  stage command can write "staged" over a saved release while a role is up
  (`CredentialSetback.OverlapUndoesRelease`). `CredentialDeadEnd.FallsIff` says for each saved phase when
  overlapping commands can take it back; commands given one after another never do
  (`CredentialOverlap.OneAtATimeIsSafe`).
- Nothing locks a table manifest. One request per manifest holds for runs one after another; when runs
  may overlap two can be made exactly when the saved manifest is one that may still be sent:
  `AtMostOnce.OverlapPostsTwice`.
- The mail-scope counters do not always balance. A page that stops on a chunk, because its projection
  cannot be read (`MailBackfill.OneChunkStops`), has counted that chunk without a scope, and nothing
  makes up for it; a page that fails otherwise, before its first point, after its last or while its
  scopes are written, does no harm: `MailBackfill.Report.Backfill` says that the counters balance exactly when no page stops so.

## Model

| member | source | states |
|---|---|---|
| `PathScanner.ScannerIsRegex` | backend/scripts/fix_attachment_paths.py:49-51 | the scanner for a marker or file link accepts, at each position, exactly the prefixes the regular expression denotes |
| `PathScanner.DenotedIsMatched` | backend/scripts/fix_attachment_paths.py:49-51 | however the lazy group and the white space share a match, the match ends in one place and the stripped group is one text |
| `PathScanner.RelativePathIsRelative` | backend/scripts/fix_attachment_paths.py:54-59 | the shortened path is no longer absolute, stripped or not, has no slash after `attachments/` and brings no new parenthesis |
| `PathRewrite.NoMatchInside` | backend/scripts/fix_attachment_paths.py:49-51 | no match of either pattern starts strictly inside a match of the other or its own: edits are disjoint |
| `PathRewrite.SubstituteIsRewrite` | backend/scripts/fix_attachment_paths.py:113 | `sub` that copies unedited matches whole equals the rewrite that reads them character by character |
| `PathRewrite.RewriteSplits` | backend/scripts/fix_attachment_paths.py:113-120 | at a position no edit cuts, the text splits into two that are rewritten apart |
| `PathRewrite.RangeCommutes` | backend/scripts/fix_attachment_paths.py:114-120 | one pass takes an uncut range to a non-empty range in bounds whose text is the rewrite of the text it covered |
| `PathRewrite.CutsAreListed` | backend/scripts/fix_attachment_paths.py:116 | the code's test over its recorded edits says exactly when an edit cuts a position |
| `PathRewrite.DeltasAreShift` | backend/scripts/fix_attachment_paths.py:118-119 | the code's sum of deltas takes an uncut position to the end of the rewritten front |
| `PathFixpoint.NoAbsolutePathRemains` | backend/scripts/fix_attachment_paths.py:62-87 | after both passes no marker and no file link holds an absolute path |
| `PathFixpoint.UnchangedIffClean` | backend/scripts/fix_attachment_paths.py:62-87 | the repair changes a text exactly when some marker or file link in it holds an absolute path |
| `PathFixpoint.RepairIsProjection` | backend/scripts/fix_attachment_paths.py:99-117 | repairing twice is repairing once |
| `PathFixpoint.UncutPersists` | backend/scripts/fix_attachment_paths.py:116-120 | moving an uncut position through one pass neither cuts nor heals it for the other |
| `PathFixpoint.TwoShiftsCompose` | backend/scripts/fix_attachment_paths.py:99-120 | a position goes through both passes exactly when no edit of the original text, of either pattern, cuts it; the shifts then compose |
| `PathFixpoint.RepairCommutes` | backend/scripts/fix_attachment_paths.py:90-121 | over both passes a surviving range becomes a non-empty range in bounds, over the repair of exactly the text it covered |
| `PathRepair.SubstituteRecording` | backend/scripts/fix_attachment_paths.py:105-113 | the substitution loop gives the substituted text and lists the edits the scan makes |
| `PathRepair.OnePass` | backend/scripts/fix_attachment_paths.py:99-120 | one round of the loop gives the rewritten text and exactly the uncut ranges, moved |
| `PathRepair.PassesMoveSpans` | backend/scripts/fix_attachment_paths.py:114-121 | the two rounds of cutting and shifting compute the spans defined by survival in the original text alone |
| `PathRepair.RewriteWithSpans` | backend/scripts/fix_attachment_paths.py:90-121 | the text is the file-link rewrite of the marker rewrite; spans of another text are dropped, the rest are the surviving ones moved |
| `PathSnapshot.Snapshot.Repair` | backend/scripts/fix_attachment_paths.py:124-144 | chunks first, then concepts against the old chunk texts: every row's new state and both change lists |
| `PathSnapshot.Snapshot.RepairChunks` | backend/scripts/fix_attachment_paths.py:126-130 | every chunk's text is repaired and the indexes of the changed ones are listed in order |
| `PathSnapshot.Snapshot.RepairConcepts` | backend/scripts/fix_attachment_paths.py:131-144 | every concept's text is repaired, its spans move with its changed chunk or go with another source, and the changed slugs are listed |
| `PathSnapshot.KeptSpansReferToNewText` | backend/scripts/fix_attachment_paths.py:131-141 | a span a repaired concept keeps on a changed chunk has the new text's hash, lies in it and covers the repair of what it covered |
| `PathSnapshot.SecondRepairIsQuiet` | backend/scripts/fix_attachment_paths.py:124-144 | a second repair changes nothing and reports no chunk and no concept |
| `AlertSender.Sender.Apply` | scripts/kubernetes/replica_backup_alerts.py:133-178 | one run: what it sends, what is on disk after it, and that nothing is sent before its event is on disk, for every point at which a journal write stops |
| `AlertSender.AgeingStaysQuiet` | scripts/kubernetes/replica_backup_alerts.py:149-158 | observations that differ only in check time or age are quiet alike, and repeat no alert |
| `AlertReceiver.Inbox.Accept` | scripts/kubernetes/replica_backup_alert_receiver.py:81-98 | first acceptance appends one row; a known identifier changes nothing and is a duplicate or a conflict; for failures before and after the commit |
| `AlertReceiver.Handler.Post` | scripts/kubernetes/replica_backup_alert_receiver.py:131-155 | the answer and the rows for every way a request can end, early refusals in order |
| `AlertDelivery.StepInv` | scripts/kubernetes/replica_backup_alerts.py:133-178 | every step of sender, receiver, network or crash keeps the delivery invariant |
| `AlertDelivery.RunInv` | scripts/kubernetes/replica_backup_alerts.py:133-178 | so does every run |
| `AlertDelivery.AcceptedIsKnown` | scripts/kubernetes/replica_backup_alert_receiver.py:140-146 | the receiver only accepts an event the sender has journalled, with the journalled bytes |
| `AlertDelivery.AckMeansStored` | scripts/kubernetes/replica_backup_alerts.py:168-174 | an acknowledgement the sender takes was made by the receiver over a stored row |
| `AlertDelivery.InboxIsHistory` | scripts/kubernetes/replica_backup_alerts.py:138-178 | in every interleaving the inbox in order of first acceptance is the acknowledged events, then at most the pending one, each identifier once |
| `AlertDelivery.HistoryIsOrderly` | scripts/kubernetes/replica_backup_alerts.py:149-178 | the acknowledged events start with an alert, a recovery only follows an alert, no neighbours share a digest, and the journal describes the last one |
| `AlertDelivery.PendingStepStays` | scripts/kubernetes/replica_backup_alerts.py:143-158 | in one step a pending event stays unchanged or becomes the next acknowledged event |
| `AlertDelivery.PendingIsNext` | scripts/kubernetes/replica_backup_alerts.py:143-178 | over any run a pending event is still pending or was the very next one acknowledged |
| `AlertDelivery.PendingIsResent` | scripts/kubernetes/replica_backup_alerts.py:143-148 | a run that finds a pending event takes it up unchanged, whatever the present health |
| `AlertDelivery.NoConflictEver` | scripts/kubernetes/replica_backup_alert_receiver.py:88-91 | the receiver never answers 409, and answers 503 only when its store fails |
| `AlertDelivery.PendingCanFinish` | scripts/kubernetes/replica_backup_alerts.py:133-178 | from any reachable state without the write marker four undisturbed steps acknowledge the pending event |
| `Lifecycle.OperationsAreDisciplined` | scripts/kubernetes/lifecycle.py:590-754 | backup, deployment, artifact migration and provisioning all keep one discipline of calls under the lock |
| `Lifecycle.InvIsSafe` | scripts/kubernetes/lifecycle.py:477-585 | under the invariant no operation Pod coexists with an application or frontend Pod, and a manager past its acquisition owns the lock and is the only one |
| `LifecycleSafety.StepInv` | scripts/kubernetes/lifecycle.py:477-606 | every call, failure before or after its effect, recovery and controller move keeps the invariant, when recovery is used with care |
| `LifecycleSafety.NeverCoexist` | scripts/kubernetes/lifecycle.py:477-606 | for any number of managers and recoveries used with care, no operation Pod ever coexists with an application or frontend Pod, and only the lock's owner is at work |
| `LifecycleSafety.FailureKeepsLock` | scripts/kubernetes/lifecycle.py:477-488 | a manager that fails keeps its lock, unless it was deleting it and the deletion took effect |
| `LifecycleSafety.DeadLockStays` | scripts/kubernetes/lifecycle.py:739-754 | the lock of a dead operation stays until the last call of a recovery of that very operation |
| `LifecycleSafety.RecordIsDesired` | scripts/kubernetes/lifecycle.py:493-520 | what a stop records is what was desired, and recording changes nothing |
| `LifecycleSafety.CountsAreKept` | scripts/kubernetes/lifecycle.py:493-538 | nothing but recording changes what a manager has recorded |
| `LifecycleSafety.BackupEndsRestored` | scripts/kubernetes/lifecycle.py:726-734 | the calls of a backup up to its last leave it in the restored phase |
| `LifecycleSafety.BackupRestoresCounts` | scripts/kubernetes/lifecycle.py:522-538 | the last call of a backup leaves every Deployment at the count it recorded and gives back its own lock |
| `LifecycleSafety.BackupLeavesCounts` | scripts/kubernetes/lifecycle.py:493-538 | over the run from a backup's record to its end, whatever else happens, the counts at the end are those wanted when it recorded, and no lock is left |
| `LifecycleMisuse.TwoRecoveriesBreakSafety` | scripts/kubernetes/lifecycle.py:739-754 | every run to a locked cluster without a busy Job, whatever is up in it, can go on with two recoveries that overlap, to an operation Pod beside an application Pod, if a stop accepts the application's count |
| `LifecycleMisuse.RecoveringALiveOperationBreaksSafety` | scripts/kubernetes/lifecycle.py:739-754 | every run to an unlocked cluster without a busy Job can go on with the recovery of a live operation, to the same end, under the same condition |
| `LifecycleMisuse.MisuseIsReachable` | scripts/kubernetes/lifecycle.py:739-754 | both ends are reached from a fresh installation |
| `Bindings.RuntimeSecretBound` | scripts/kubernetes/replica_credentials.py:73-88 | binding leaves one reference, the selected one; binding again changes nothing; binding back gives the controller as it was |
| `Bindings.TrustBound` | scripts/kubernetes/replica_credentials.py:91-109 | the same for the projected trust bundle |
| `Bindings.RoleStaged` | scripts/kubernetes/replica_upgrade.py:64-85 | a staged application role has the new configuration, identity and image together from any mixture; staging again changes nothing; staging the old release from the new undoes it |
| `ImageStaging.ImageRoleStaged` | scripts/kubernetes/replica_image_upgrade.py:58-76 | from the stopped source or the staged template the result is the staged one, runs the new release with the scoped Secret, and is undone by the old release |
| `ImageStaging.ImageUpgrade.Stage` | scripts/kubernetes/replica_image_upgrade.py:325-335 | a run that ends before any effect leaves a mixture the next run accepts; a completed one leaves every role passing the staged check, and the rest untouched |
| `ImageStaging.AllStaged` | scripts/kubernetes/replica_image_upgrade.py:134-155 | roles staged from any accepted mixture pass the staged check |
| `CredentialStage.CredentialRestaged` | scripts/kubernetes/replica_credentials.py:476-495 | staging a staged role again gives the same template, stopped, with the new Secret as its only one |
| `CredentialSafety.StepInv` | scripts/kubernetes/replica_credentials.py:348-529 | every call of every phase command, crash around it, Job, writer, Pod and foreign operation keeps the invariant |
| `CredentialSafety.PhaseAdvances` | scripts/kubernetes/replica_credentials.py:348-529 | no step takes the durable phase back |
| `CredentialSafety.TransitionIsSafe` | scripts/kubernetes/replica_credentials.py:348-529 | over every run: nothing up while held, computed or staged; maintenance owned at the recorded epoch until the release commits; from staging on only staged Pods; a release receipt from then on |
| `CredentialSafety.RolesGoUpAfterReceipt` | scripts/kubernetes/replica_credentials.py:508-529 | a role goes from zero up only in the start command and only with the saved receipt of this epoch's release |
| `CredentialSafety.ReleaseFindsHeldCorpus` | scripts/kubernetes/replica_credentials.py:497-506 | the release Job always finds its fence, the computed identity and the corpus that was held |
| `CredentialSafety.OthersShutOut` | backend/app/services/work/maintenance_control.py:201-240 | while the fence is recorded and unreleased no writer commits and no other operation enters, leaves or changes anything |
| `CredentialProgress.HeldCanBeReleased` | scripts/kubernetes/replica_credentials.py:454-506 | from every held, computed or staged state a crash may leave, without a failed Job and with roles that can be staged, some run of the commands leads to the saved release, with every role still down |
| `CredentialOverlap.OperatorIsExclusive` | backend/app/services/work/maintenance_control.py:95-130 | however commands overlap, two are never between entering maintenance and the save of what is held; the one that is has maintenance at its epoch, and the corpus it saves is the one that is there |
| `CredentialOverlap.OneAtATimeIsSafe` | scripts/kubernetes/replica_credentials.py:348-529 | commands that begin only when no other is at work never take the phase back, and nothing is up while it is held, computed or staged |
| `CredentialSetback.OverlapUndoesRelease` | scripts/kubernetes/replica_credentials.py:476-495 | from every held, computed or staged state whose roles can be staged, without a failed Job, a stage command that rests before its save can write staged over a saved release while a role is up |
| `CredentialDeadEnd.FallsIff` | scripts/kubernetes/replica_credentials.py:331-619 | the saved phase can be taken back by overlapping commands exactly when, seen before any is given, the operation may still go on: the condition for each phase, and never once it is verified |
| `CredentialSafety.StageGives` | scripts/kubernetes/replica_credentials.py:476-495 | staging a role that is the stopped original or staged already gives the one target |
| `StorageTls.TlsStaged` | scripts/kubernetes/replica_ca_rotation.py:73-86 | staging puts the selected certificate in the one place, may be repeated, and is undone by staging the old one |
| `StorageTls.SourceIff` | scripts/kubernetes/replica_ca_rotation.py:89-95 | the source check accepts exactly the original at no or one replica with the previous or selected certificate |
| `StorageTls.CaRotation.Rotate` | scripts/kubernetes/replica_ca_rotation.py:298-319 | one controller's turn from any state a crash left: never refused, ends rotated, at its crash, or waiting for the cluster; touches no other controller |
| `StorageTls.CaRotation.Storage` | scripts/kubernetes/replica_ca_rotation.py:294-322 | the whole loop: rotates all three when the process lives and the cluster catches up, and leaves rotated controllers alone |
| `StorageTls.WorldIsOriginal` | scripts/kubernetes/replica_ca_rotation.py:294-322 | at any moment a controller differs from the original only in count and certificate; rotated it is the original at one replica with the selected certificate, and its Pod serves it |
| `StorageTls.CertificatesOnlyAdvance` | scripts/kubernetes/replica_ca_rotation.py:303-314 | along everything seen, a certificate reference moves only to the selected one, on a controller at zero with its Pod gone, and never back |
| `SourceBackup.FailureStaysFenced` | scripts/kubernetes/replica_backup.py:433-533 | a backup that ends leaves its maintenance held for good, at its epoch, with the source untouched and no role scaled up, exactly when it fails after entering and before leaving |
| `SourceBackup.FenceTellsState` | scripts/kubernetes/replica_backup.py:433-533 | while the fence of a backup that is gone is held no role has been scaled up, and it is given back only with a complete archive verified cold |
| `SourceBackup.LeavesWithWholeSource` | scripts/kubernetes/replica_backup.py:474-531 | when the fence is given back the archive holds exactly what the stores hold and held since they were frozen |
| `SourceBackup.SuccessRestoresCounts` | scripts/kubernetes/replica_backup.py:532-533 | a backup that completes leaves every role at its original count |
| `Inventory.ValidateDrained` | scripts/kubernetes/replica_backup.py:86-100 | accepts exactly when every object is quiet: storage Pods on ready nodes, finished Jobs, suspended schedules |
| `Inventory.FilterRetired` | scripts/kubernetes/replica_ca_rotation.py:129-153 | accepts exactly when every record is one unchanged, finally failed Job without a live process, and then hides those Jobs and their Pods only |
| `Inventory.DrainSeesEveryWriter` | scripts/kubernetes/replica_ca_rotation.py:129-153 | with both filters the drain is accepted exactly when every object of the whole inventory is quiet, of the observed Job, or a dead recorded diagnostic |
| `Inventory.LivePodsAreKnown` | scripts/kubernetes/replica_credentials.py:208-214 | a Pod that may still run is then a storage Pod on a ready node or the observed Job's |
| `VectorInventory.SameDigestIff` | scripts/kubernetes/replica_ca_rotation.py:126 | two inventories have one count and digested text exactly when they are of the same points, however ordered |
| `VectorInventory.VectorInventory` | scripts/kubernetes/replica_ca_rotation.py:106-126 | reading ends for any answers that name finitely many pages: the inventory of all pages, a bound exceeded, or a page named twice |
| `JsonText.DumpUnique` | scripts/kubernetes/replica_credentials.py:57-64 | no two JSON values are written alike by a key-sorted, ASCII-escaped dump, whatever follows them |
| `JsonText.UnitsUnique` | scripts/kubernetes/replica_credentials.py:57-64 | an escaped text ends at its closing quote and its code units can be read back |
| `PolicyDigest.NormalIff` | scripts/kubernetes/replica_credentials.py:58-63 | two normal forms are equal exactly when the values are equal but for the order of lists at every depth |
| `PolicyDigest.SameDigestIff` | scripts/kubernetes/replica_credentials.py:57-64 | two policies are digested from one text exactly when they are equal but for the order of lists at every depth |
| `SlugOrder.DecimalInjective` | backend/scripts/backfill_comment_concepts.py:141-143 | numbered slugs differ when their numbers do, so the search runs out of used ones |
| `SlugOrder.FindSlug` | backend/scripts/backfill_comment_concepts.py:140-144 | the suffix search ends with the first free slug |
| `CommentAnchor.AnchoredOnce` | backend/scripts/backfill_comment_concepts.py:123-138 | a comment is anchored exactly when its anchor stands once in all chunks of its source, and then in that chunk |
| `CommentRepair.FindChunk` | backend/scripts/backfill_comment_concepts.py:125-138 | the scan over chunks finds that chunk or refuses |
| `CommentRepair.RepairKeepsOthers` | backend/scripts/backfill_comment_concepts.py:108-162 | rows that are not comments are kept unchanged, one row is added for each comment, and slugs ascend strictly |
| `CommentRepair.RowIsStable` | backend/scripts/backfill_comment_concepts.py:149-160 | a row made again where it stands is that row, place and date included |
| `CommentRepair.RecognisedIff` | backend/scripts/backfill_comment_concepts.py:117-119 | in terms of the inputs, when a made row will be recognised as a comment |
| `CommentRepair.RepairTwice` | backend/scripts/backfill_comment_concepts.py:108-162 | repairing again changes nothing, dates included, exactly when every made row is recognised as a comment |
| `CommentRepair.ExtractedIsStable` | backend/app/services/comment_concepts.py:167-173 | the concepts the program extracts are always recognised, so repairing again changes nothing |
| `CommentRepair.Stored.Replace` | backend/scripts/backfill_comment_concepts.py:108-162 | the repair in place: the outcome for each refusal, with the rows untouched, and otherwise the repaired rows |
| `MailAncestry.ScopeFromParent` | backend/app/services/mail_scope.py:21-48 | a scope defined by the whole way up to the root obeys the one-step rule the code uses |
| `MailAncestry.StrayIsUnknown` | backend/app/services/mail_scope.py:27-38 | a walk that meets itself or leaves the rows leads nowhere |
| `MailAncestry.WalkUp` | backend/app/services/mail_scope.py:23-40 | the walk ends, and where it ends fixes the scope of its last source |
| `MailAncestry.BuildMap` | backend/app/services/mail_scope.py:21-48 | every source gets the scope its ancestry gives it |
| `MailAncestry.BuildMailScopeMap` | backend/app/services/mail_scope.py:10-48 | keys are the ids; scopes are by ancestry for well-formed rows and unknown otherwise |
| `MailScope.PageIsEven` | backend/scripts/backfill_mail_scope.py:86-146 | for each kind of point the marks of a page satisfy the balance equations |
| `MailScope.PageReasonsSum` | backend/scripts/backfill_mail_scope.py:137-139 | the reasons of a page sum to its unknown points |
| `MailBackfill.Report.PageScopes` | backend/scripts/backfill_mail_scope.py:55-146 | a page is classified to its end or stops on a chunk whose projection cannot be read: what was reached is counted in full, the chunk as scanned and active only, per kind and in total, and the scopes to change are collected |
| `MailBackfill.Report.PatchPage` | backend/scripts/backfill_mail_scope.py:206-216 | the changes are written kind by kind up to the one that fails; exactly those are counted as updates, and the balance is kept |
| `MailBackfill.Report.DoPage` | backend/scripts/backfill_mail_scope.py:203-223 | one page adds exactly its count to every counter, and takes the balance away exactly when it stops on a point |
| `MailBackfill.StoppedIsUnplaced` | backend/scripts/backfill_mail_scope.py:86-139 | the points counted as active or orphans without a scope are as many as the pages that stopped |
| `MailBackfill.OneChunkStops` | backend/scripts/backfill_mail_scope.py:113-118 | a page of one active chunk that stops on it, with one point without a scope |
| `MailBackfill.Report.Backfill` | backend/scripts/backfill_mail_scope.py:191-223 | at the end of a run the counters balance, per kind and in total, exactly when no page stopped on a point; they are those of all pages, and every page that did not fail holds the written scopes |
| `MailBackfill.WrittenIsQuiet` | backend/scripts/backfill_mail_scope.py:140-145 | classifying a written page again gives the same verdicts and proposes nothing |
| `MailAudit.AuditRows` | backend/scripts/backfill_mail_scope.py:159-187 | the row pages of a page of documents visit each of its rows once, in order |
| `MailAudit.AuditMissing` | backend/scripts/backfill_mail_scope.py:149-188 | the nested scan ends, visits each document and row once, and with distinct identities counts exactly those the index lacks |
| `AtMostOnce.Migration.ApplyBatch` | backend/scripts/reprocess_table_documents.py:68-95 | a request is made exactly when the manifest is unsent, something is planned, the route fits, no document has changed and the process lives, after the intent is saved and for all its documents; what it does is a run of the steps |
| `AtMostOnce.Migration.Resume` | backend/scripts/reprocess_table_documents.py:178-192 | an uncertain manifest changes only by an explicit job that matches it, and then nothing is sent; without `--apply` nothing changes; one run of the script is a run of the steps of one process alone |
| `AtMostOnce.ResumeAgain` | backend/scripts/reprocess_table_documents.py:160-194 | over any resumes, crashes and lost answers, one after another, at most one request |
| `AtMostOnce.AloneKeepsSingle` | backend/scripts/reprocess_table_documents.py:160-194 | as long as each run is alone from load to end, its steps make at most one request, for exactly the planned documents |
| `AtMostOnce.OverlapPostsTwice` | backend/scripts/reprocess_table_documents.py:68-95 | when runs may overlap two requests can be made exactly when the saved manifest is unsent with something planned; when they may not, never |

## Left out

- kubectl, SSH, Helm, HTTP, SQLite, PostgreSQL, Qdrant and S3: each call is an abstract step that may succeed, fail before its effect, or lose its answer, where the code handles that.
- Cryptography, certificates, pydantic parsing, file-link and permission checks: hashes and MACs are ideal, parsed values are datatypes, and checks on their shape are predicates.
- Clocks and timeouts: a wait is a call that completes when its condition holds, or never.
- Kubernetes controller lag: a controller at zero without Pods stays so until someone scales it up, and nobody edits the owned controllers by hand.
- AlertReceiver: the bounded connection slots, the health route and the database's own file and schema checks; they would add only easy members.
- AlertSender: the key binding digest covers the key, the installation, the destination and the endpoint as one value.
- PathSnapshot: a chunk or concept without content; both columns are never null in the database.
- Lifecycle: the manager is a process in a transition system, not an object, because what is proved is about several managers at once; polling loops are single calls, and the backup's files, the preflight checks, restore and the budget validation are not modelled.
- Credentials: the coordinator is a process with a next call, not an object, because a crash may come between any two of its effects; provisioning, the rights checks and the creation of Secrets are only phases; a command keeps its connection to the maintenance operator as long as it holds it; commands on one journal run one after another except in the last three modules.
- SourceBackup: a process with a next call, for the same reason; the archive's format, the destination checks, the node's process list and the database snapshot connection.
- StorageTls.CaRotation.Storage: does not model the check that the three volume claims are unchanged, which nothing in the model can change.
- ImageStaging.ImageRoleStaged: the search for the operator Secret looks through the texts of the template, not through the names of JSON fields.
- Inventory: the binding of storage processes to container ids and the node's own container list.
- JsonText.DumpUnique: a number is the literal it is written as, and a text is made of whole Unicode characters, so unpaired surrogates are not modelled.
- VectorInventory.VectorInventory: that a server names only finitely many pages is a condition, since one that names new empty pages for ever is never stopped.
- CommentRepair: making a slug of a title and resolving evidence in a chunk are given functions.
- MailAudit.AuditMissing: document ids are modelled by ascending numbers instead of texts above the empty one.
- MailBackfill.Report.Backfill: the store's own retries and read-back inside one patch are one step that succeeds or fails, and nobody else writes scopes meanwhile; a run that ends early because the index cannot be read is one over fewer pages.
- AtMostOnce: what the reconciliation reads of generations and tables is a given finding for each document.
- backend/scripts/migrate_glossary_identities.py, the configuration and application wiring, the document builders, the network probes and the lab bootstrap: their claims rest on code that is not part of this model, or on a single branch.
