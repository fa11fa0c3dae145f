# A model of certificate publication and its protocols

This project models the parts of the certificate API where order and interleaving matter, and proves what
they keep.

**Publication on a file system** (`FileSystem`, `Publication`, `Phases`, `Switching`, `CrashConsistency`,
`Snapshots`, `Immutability`, `Durability`, `History`, `Completion`, `Retention`, `Deployer`, `Leftovers`,
`Standstill`, `FirstDeployment`, `PlainDeployment`). Directories map names to files, symbolic links and
directories; bytes belong to inodes. Each name remembers which earlier entries a crash may bring back. What
`os.link` makes of a symbolic link depends on the platform: a disk says whether such a hard link is one of the
file that the link leads to or of the link itself, and every theorem is about both. A deployment is a list of
system calls that depends only on the disk it starts from and on the drawn names, so every prefix is a crash
point, a failure point and a reader's snapshot.
The class `Deployer.Target` issues these calls one by one in the loops and branches of the deployer. A call
fails when the disk does not allow it, or for a reason outside the model that a parameter supplies; a failure
ends the method like the exception it stands for. The contract of each method says how far down the list of
calls it came, and whether it reports that.

**The lifecycle of one row** (`Lifecycle`, `LifecycleService`). Any number of workers hold stale reads of
one row. A guarded update is one compare-and-set with its event; an unguarded write by primary key overwrites
what it finds. Every sequence of actions is a run. `CertificateService` is the same code without interference,
proved to be runs of this machine, with the startup recovery loop.

**Revocation at the authority** (`Revocation`, `RevocationService`). A unique-key insert, a lease taken by
compare-and-set and outcomes stored from stale reads, with arbitrary clock readings.

**Renewals** (`Scheduler`). The job table, lifetime attempts and backoff.

**Identity of requests** (`Text`, `Domains`, `DomainPattern`, `RequestIdentity`). Normalisation of domains, the scope check, and
concurrent creates that race on a unique key.

**Row and disk** (`RowAndDisk`). The lifecycle row and the deployment directory together.

Some statements hold of the code only under a condition. Each condition is proved to be exact, and the case it
excludes to arise:

- Terminal states are left only by writers in flight: `Lifecycle.TerminalAbsorbsIff`; such writers arise by
  `Lifecycle.IssuanceOverwritesRevoked` and `Lifecycle.RenewalOverwritesRevoked`.
- No call starts after an outcome unless a worker has stalled: `Revocation.NoCallAfterOutcomeIff`; one does in
  `Revocation.LateCallIsReachable`.
- A crash is recoverable if a migration saves synchronised files: `Durability.CrashSafeIffDurable` and
  `History.NextDeploymentIff`; others arise by `PlainDeployment.MixedIsReachable` and `Leftovers.CopiedIsAtRisk`.
- A deployment succeeds if nothing is in its way: `Completion.PublishSucceedsIff`; obstacles arise by
  `Leftovers.KilledBeforeRename` and `Leftovers.KilledBetweenLinks`, and stay (`Standstill.PendingForever`,
  `Standstill.StuckForever`).
- A selection is safe if the generation is synchronised and whole: `History.SelectionSafeIff`; others arise by
  `History.UnsyncedPublication` and `Leftovers.HalfRemoved`.
- Row and disk agree after a selection if the metadata can be read: `RowAndDisk.SelectAgreesIff`; unreadable
  metadata arises by `RowAndDisk.MigratedMetadataDecides`.

The number of calls at one time is bounded for workers that call soon after their claim (`Revocation.CallBound`),
and not bounded for others (`Revocation.StalledWorkersCallTogether`). The deployment that makes `generations` has
one moment at which a crash can lose that directory and keep the link into it
(`FirstDeployment.FirstDeploymentWindow`). A renewal that a process stop interrupts is never resumed
(`Lifecycle.InterruptedRenewalStays`).

Times are integers. The backend, the clock and drawn identifiers are parameters. Names, white space and letter
case are those of ASCII. Bytes are opaque values; metadata is a value that holds the expiry.

`dafny verify dfyconfig.toml` checks the whole project.

## Model

| member | source | states |
|---|---|---|
| `CrashConsistency.CrashConsistency` | acme_api/deployer.py:236-284 | Stop a generation deployment after any system call, let any part of the `finally` clean-up run, then crash: each name keeps its last synchronised entry or any later one, and unsynchronised bytes are arbitrary. `current` is absent or leads to five complete artifacts of one publication (earlier, saved by the migration, or new). Migration, cleanup and every mixture of plain files, links and missing names at the start are included, whether a hard link of a symbolic link follows it or takes the link itself, provided that a migration which can link all five names links five synchronised files. |
| `CrashConsistency.CrashResolves` | acme_api/deployer.py:236-284 | In the same situation, before and after the crash, every entry of `current` that a further crash may keep resolves too. |
| `Durability.CrashSafeIffDurable` | acme_api/deployer.py:322-347 | That condition is exact, for every layout and for both kinds of hard link: every crash at every stop of a deployment is recoverable if and only if the names need no migration, or cannot all be linked, or are all linked from synchronised files. |
| `Durability.DurableIffNotMixed` | acme_api/deployer.py:322-347 | On disks whose files below the target are synchronised and whose `current` resolves, it is a test of the layout: hard links follow symbolic links, or the five names are not part links and part files. |
| `Durability.OperationSynced` | acme_api/deployer.py:468-485 | No prefix of a deployment, plain deployment, selection, pin or tidy-up leaves a file below the target unsynchronised if there was none before. |
| `History.HistoryIsRecoverable` | acme_api/deployer.py:130-392 | From a directory whose `generations` is there and on disk, through any number of deployments, plain deployments, selections, pins and removals, each stopped after any call, and of crashes between them: after one more crash `current` is absent or leads to all five artifacts of one publication. Where a hard link takes a symbolic link itself, this excludes deployments over five names that are part links and part files; where it follows the link, no layout is excluded. |
| `History.NextDeploymentIff` | acme_api/deployer.py:236-284 | After any such history the next deployment, with newly drawn names, is safe at every stop and crash if and only if hard links follow symbolic links or the five names are not part links and part files. |
| `History.PublishedSurvivesCrashes` | acme_api/deployer.py:236-304 | A generation whose publication went through, the saved files included, and that no cleanup names stays synchronised with its bytes through every such history, so it can be selected at any time. |
| `FirstDeployment.FirstDeploymentWindow` | acme_api/deployer.py:247-268 | For the deployment that makes `generations`, before which there was no `current`, and over a layout that meets the durability condition, crashes that lose that directory as long as the target has not been synchronised are added: a stop is safe if and only if it is not the one between the first rename of `current` and the synchronisation of the target after it. |
| `Leftovers.CopiedIsAtRisk` | acme_api/deployer.py:338-343 | Disks on which the durability condition fails exist for both kinds of hard link: five files that somebody copied there without synchronising one of them. |
| `History.SelectionSafeIff` | acme_api/deployer.py:287-319 | A generation that is there under a name not used before, each artifact synchronised or missing, can be selected safely if and only if its name has been synchronised and no artifact is missing: the selection synchronises the target only, and the directory test asks for no artifact. |
| `History.UnsyncedPublication` | acme_api/deployer.py:265-266 | A name that has not been synchronised arises when a publication stops between its rename and the synchronisation that follows; all artifacts are there. |
| `History.SelectionNeedsContents` | acme_api/deployer.py:287-293 | Whatever else is known of it, a generation is selected safely only if all five artifacts are there. |
| `Leftovers.HalfRemoved` | acme_api/deployer.py:388-391 | The other case arises: a cleanup stopped after its first call leaves a directory that passes the test of the selection, its name synchronised, without its certificate; selecting it is not safe. |
| `Publication.CrashOfResolving` | acme_api/deployer.py:468-485 | If every entry of `current` that a crash may keep is absent or names a generation whose directory entry, names and bytes are synchronised, then every crash image is recoverable, and resolves again. |
| `Phases.StagePhase` | acme_api/deployer.py:255-266 | Staging goes through from unused names, writes nothing outside its own directory, and ends with the generation and its five files synchronised. |
| `Switching.SaveLegacyPhase` | acme_api/deployer.py:333-342 | Five names that are linked from synchronised files, hard-linked and renamed, become a synchronised generation with exactly their bytes; no other name and no byte changes at any point. |
| `Switching.SelectResolves` | acme_api/deployer.py:313-319 | At every step of a switch to a synchronised generation all crash entries of `current` resolve; after it only the new one is left. |
| `Snapshots.SetAtomicity` | acme_api/deployer.py:263-271 | From five plain files or five links through `current`, all showing one publication, the five names show that publication at every moment up to one system call, the rename of the last selection, and the new one from it on; at the end all lead to the new generation. |
| `Snapshots.MigrateShows` | acme_api/deployer.py:322-347 | Hard links, the selection of the saved files and the installation of links never change what any of the five names shows, and end with five links. |
| `Snapshots.EnsureLinking` | acme_api/deployer.py:350-359 | While `current` names a complete generation, each link that is installed shows that generation's file, no name disappears, and at the end all five names are links. |
| `Snapshots.CleanupSettled` | acme_api/deployer.py:388-391 | No removal step of a cleanup that spares the current generation changes what readers see. |
| `Immutability.PublishedIsNeverWritten` | acme_api/deployer.py:167-178 | No system call of a deployment, plain deployment, selection, pin or tidy-up writes a file that a published generation names at that moment, its own new one included. |
| `Immutability.PublishedIsImmutable` | acme_api/deployer.py:236-304 | Over every history of operations, each stopped anywhere, a complete generation that no cleanup removes keeps exactly its bytes. |
| `Immutability.SelectShowsPublished` | acme_api/deployer.py:287-293 | Whatever history follows short of its removal, selecting a complete generation while the five names are links shows readers exactly the bytes it was published with. |
| `Immutability.DeployPublishes` | acme_api/deployer.py:263-266 | From the end of staging on, whatever prefix of the rest runs, the new generation is complete and on disk for good. |
| `Completion.PublishSucceeds` | acme_api/deployer.py:255-269 | With nothing pending, and five names that are all missing, all links or all linkable, every system call of staging, migration, selection and linking is enabled; `current` ends at the complete new generation and all five names are links, and if all links were the deployer's own, all five names show the new files. All of this is on disk for good. |
| `Completion.PublishSucceedsIff` | acme_api/deployer.py:322-359 | This is exact for every layout: the calls are all enabled if and only if no name that is not a link yet has a pending link left over, and the five names are all missing, all links, or can all be linked. |
| `Leftovers.KilledBeforeRename` | acme_api/deployer.py:350-359 | Pending links arise: a first deployment killed between making and renaming its first pending link leaves it there, with no name installed. |
| `Leftovers.KilledBetweenLinks` | acme_api/deployer.py:350-359 | So does the other obstacle: killed between two links it leaves names of which some are links and the rest missing, with nothing pending. |
| `Standstill.StuckForever` | acme_api/deployer.py:322-347 | From a layout in which some of the five names are missing and others not, whatever deployments, selections, pins and tidy-ups follow, each stopped anywhere, the layout stays and no generation deployment reports success. |
| `Standstill.PendingForever` | acme_api/deployer.py:350-359 | A pending link left over under a name that is not a link stays for good too, through plain deployments as well, and no generation deployment reports success. |
| `Completion.CleanupSucceeds` | acme_api/deployer.py:383-391 | Removal of generations that hold artifacts only goes through, exactly the victims are gone from `generations`, and no crash brings them back. |
| `Deployer.Target.WriteTempArtifacts` | acme_api/deployer.py:189-210 | The loop over a new directory creates, writes and synchronises each artifact in turn: the write block of the staging theorems, up to the first call that fails. |
| `Deployer.Target.WriteFsync` | acme_api/deployer.py:468-476 | Open, write and synchronise, in this order, up to the first failure. |
| `Deployer.Target.ReplaceArtifacts` | acme_api/deployer.py:213-221 | The loop is the list of five renames, in order, up to the first that fails. |
| `Deployer.Target.SelectGenerationDirectory` | acme_api/deployer.py:313-319 | Unlink, link, rename and directory synchronisation, in this order and up to the first failure: the switch that the crash and reader theorems are about. |
| `Deployer.Target.EnsureCompatibilityLinks` | acme_api/deployer.py:350-359 | The loop over the five names skips links and replaces the rest: the link block of the theorems for the disk it started from. A leftover pending link stops it with a failure. |
| `Deployer.Target.MigrateLegacyCompatibilityLinks` | acme_api/deployer.py:322-347 | Nothing for no names or five links; otherwise save, select, link, with hard links that follow symbolic links or not, as the disk has it. A call that fails, such as a hard link of a missing name, is reported after the removal of the staging directory, all of it if none of its calls fails. |
| `Deployer.Target.RemoveTree` | acme_api/deployer.py:388-388 | One listing, then the removal of every listed entry and of the directory, up to the first failure. |
| `Deployer.Target.TidyTree` | acme_api/deployer.py:281-283 | The removal that ignores errors tries every call of the removal once, and makes all of them when none fails. |
| `Deployer.Target.RemoveObsolete` | acme_api/deployer.py:383-389 | The loop removes the generations that the rules name, in sorted order, up to the first removal that fails. |
| `Deployer.Target.CleanupGenerations` | acme_api/deployer.py:362-392 | The generations removed are exactly those that are neither current nor pinned and exceed every configured limit, newest first, where rank counts the visible generations newer by time and name. On the disk it leaves, the rules name nothing more, so a second cleanup returns nothing, and with a count limit alone at most that many plus the pinned ones plus one remain. |
| `Deployer.CleanedUp` | acme_api/deployer.py:362-392 | The last two facts for every disk and every removal list that goes through. |
| `Deployer.Target.DeployGeneration` | acme_api/deployer.py:236-284 | Success: all calls up to the cleanup succeeded, and the cleanup came as far as it could, with the victims of the retention rules and never the new generation. Failure: a prefix of these calls, and after it the removal of both staging directories as far as that succeeds; the last calls are the removal of its own one, all of it if none of them fails. |
| `Deployer.DeployedStops` | acme_api/deployer.py:270-284 | Whatever a deployment reports is a stop of its list of calls, before the cleanup exactly when it reports failure, followed by removals in that case only. |
| `Deployer.DeployedIsCrashSafe` | acme_api/deployer.py:270-284 | So a crash after a deployment that reported success or failure is recoverable. |
| `Deployer.CalmDeploymentIff` | acme_api/deployer.py:255-284 | When nothing outside fails, a deployment over any layout reports success if and only if no pending link is left over and the five names are all missing, all links or all linkable; then `current` leads to the complete new generation, and readers see it unless a name was a link of another kind. |
| `Deployer.Target.DeployPlain` | acme_api/deployer.py:167-183 | With generations off the five files are replaced one by one from a temporary directory, up to the first failure; in every case the last calls are the removal of the directory, all of it if none of them fails. |
| `PlainDeployment.PlainSucceeds` | acme_api/deployer.py:167-178 | Over any layout every call up to the removal goes through, and all five names are synchronised files with the new bytes, which no crash undoes. |
| `PlainDeployment.CalmPlainSucceeds` | acme_api/deployer.py:167-183 | So when nothing outside fails a plain deployment succeeds, and readers see the five new files after the removal, however far that came. |
| `PlainDeployment.MixedIsReachable` | acme_api/deployer.py:322-359 | From a new directory, a plain deployment and a deployment of a generation that is killed after its first link reach five names that are part links and part files; the next deployment is then safe at every stop and crash if and only if hard links follow symbolic links. |
| `Deployer.Target.SelectGeneration` | acme_api/deployer.py:287-293 | Refused exactly unless the name is a single path component other than the two dots and names a generation directory, and then nothing has changed; otherwise the switch, with an error when a call fails. |
| `Deployer.Target.PinGeneration` | acme_api/deployer.py:296-304 | Same test; a pin that succeeds is one that cleanup reads, whether or not it was there before; it is on disk for good, and nothing else has changed. |
| `Deployer.Target.DeployCertificateArtifacts` | acme_api/deployer.py:130-185 | Refused with nothing changed exactly for a count below one, negative days, no domain or an unsafe primary domain, each with its own error; any other error reports a call that failed, after the removals. A generation deployment that succeeds removes exactly the visible generations that are not the new one, not pinned, have at least the configured count of newer ones and are older than the configured days; without a limit it removes none. |
| `Retention.PositionIsRank` | acme_api/deployer.py:376-384 | In the sorted list the index of a generation is the number of generations newer than it. |
| `Text.LessMeans` | acme_api/deployer.py:376-380 | The order of names is that of dictionaries: the first difference decides, and a proper prefix comes first. |
| `Domains.NormalizedIsCanonical` | acme_api/schemas/certificate.py:51-64 | An accepted payload comes out canonical: the rest after the primary sorted, no repetition, every name accepted and clean. |
| `Domains.NormalizedNames` | acme_api/schemas/certificate.py:63-64 | An accepted payload keeps its primary domain first and exactly the names that went in. |
| `Domains.NormalizeAccepts` | acme_api/schemas/certificate.py:55-62 | A payload is accepted exactly when every cleaned name matches the pattern and its length limit. |
| `DomainPattern.AcceptsThePattern` | acme_api/schemas/certificate.py:56-62 | The label by label test accepts exactly the texts that match the regular expression of the source, written out as a pattern with a matching relation of its own, and have at most 253 characters without the wildcard. |
| `Domains.NormalizeBlames` | acme_api/schemas/certificate.py:57-62 | A refusal names the first cleaned name that does not match, or matches and is too long. |
| `Domains.CleanForgets` | acme_api/schemas/certificate.py:55-55 | Blanks around a name and the case of its letters make no difference to the cleaned name. |
| `Domains.CleanMeans` | acme_api/schemas/certificate.py:55-55 | Cleaning cuts the ASCII blanks at both ends and nothing else, and turns exactly the capital letters into small ones. |
| `Domains.NormalizeIdempotent` | acme_api/schemas/certificate.py:51-64 | Normalising a normalised list changes nothing. |
| `Domains.SameListIffSameNames` | acme_api/schemas/certificate.py:51-64 | Two payloads get one list exactly when primary domain and set of names agree up to order, case, space and repetition. |
| `Domains.AcceptedChars` | acme_api/schemas/certificate.py:56-62 | An accepted name consists of letters, digits, hyphens, dots and `*`, so it holds no `@`, slash or white space. |
| `Domains.ScopeMeansLabelSuffix` | acme_api/services/certificate_utilities.py:10-19 | The `endswith` test accepts exactly when the scope's label list is a suffix of every name's. |
| `Domains.WildcardPolicyMeansOtherName` | acme_api/services/certificate_utilities.py:20-20 | Over a canonical list the wildcard policy is set exactly when some name differs from the scope. |
| `Domains.DirectoryCollision` | acme_api/deployer.py:425-431 | Two primary domains share a directory only as a wildcard and the literal spelling of its directory. |
| `Domains.DirectoriesAreDistinct` | acme_api/deployer.py:425-431 | Every accepted primary domain has a directory, named like it except for the prefix that stands for a wildcard, and two share one only if they are equal. |
| `Text.SuffixByLabels` | acme_api/services/certificate_utilities.py:12-15 | A name is the scope or ends in a dot and the scope exactly when the scope's labels end the name's. |
| `RequestIdentity.OneRowPerIdentity` | acme_api/services/certificates.py:61-157 | For any concurrent, repeated or interrupted creates and any status changes in between: one row per name, account and method; it keeps its domains and TXT record, which fits its scope; every create that gets a row gets that row and that record. |
| `RequestIdentity.ConflictHasCause` | acme_api/services/certificates.py:147-157 | A DNS Persist create is rejected only over a cancelled or revoked row or other domains. |
| `RequestIdentity.SpellingDoesNotMatter` | acme_api/services/certificates.py:69-157 | Two spellings of one request get the same row and TXT record; if one got it, the other is rejected only because that row is cancelled or revoked. |
| `RequestIdentity.RecordsAreAnswered` | acme_api/services/certificates.py:74-105 | In every run each row has name, account, method and domains of a create that was called; a dns-01 row has no record, and a DNS Persist row has the name of its scope and a value that the backend answered to that create. |
| `RequestIdentity.Requests.CreateCertificate` | acme_api/services/certificates.py:61-157 | A create without interference, case by case over the table: invalid, resumed, in conflict, backend failure, or one new row with the payload's identity and domains, its first status, and for DNS Persist the record name of the primary domain and exactly the backend's value; nothing else changes. It is the run of the protocol. |
| `Lifecycle.TerminalAbsorbsIff` | acme_api/services/certificates.py:159-307 | No interleaving leaves CANCELLED or REVOKED exactly when no renewal past its VALID check and no dns-01 issuance past its PENDING check is in flight; otherwise one does. |
| `Lifecycle.IssuanceOverwritesRevoked` | acme_api/services/certificates.py:159-167 | The exception is reachable: a dns-01 issuance reads PENDING, a delete revokes, and the issuance goes on. |
| `Lifecycle.RenewalOverwritesRevoked` | acme_api/scheduler.py:131-137 | So it is for every VALID row that nobody works on, and issuance leads to one: a renewal reads it, a delete revokes it, and the renewal goes on. |
| `Lifecycle.RenewalOverwritesCancelled` | acme_api/services/certificate_lifecycle_operations.py:16-38 | A delete that reads a released row while it is issued, and writes after the next renewal has read VALID, leaves CANCELLED with that renewal in flight; releases and their claims lead to such rows. |
| `Lifecycle.LifecycleRefinesGraph` | acme_api/services/certificates.py:169-290 | Without a renewal in flight, every step of every interleaving on a DNS Persist row keeps the status or follows an edge of the lifecycle graph. |
| `Lifecycle.HeldUntilReleased` | acme_api/services/certificates.py:223-265 | In all runs a held-created row without a release key is HELD, AUTHORIZATION_READY or CANCELLED and the two held states have no key; other rows never get a key and are never cancelled. |
| `Lifecycle.ReleaseAgreement` | acme_api/services/certificates.py:223-265 | All releases that succeed carry one key, the stored one, which no continuation changes; revision = 1 + ready events + released events; the key is set exactly when there is one released event. |
| `Lifecycle.ReleaseSucceedsIff` | acme_api/services/certificates.py:223-265 | In every reachable state a release that is not disturbed succeeds if and only if it repeats the stored key, or the row is HELD or AUTHORIZATION_READY and it names the present revision; only the latter changes the row, to RELEASED with the next revision, the key and one event. |
| `Lifecycle.ReleasingStep` | acme_api/services/certificates.py:239-261 | The update of a release, whatever came between: it goes through exactly on a held or ready row without a key and with the given revision. |
| `Lifecycle.AuthorizingStep` | acme_api/services/certificates.py:178-221 | The two updates of an authorization, whatever came between: ready exactly on a HELD row of the revision that was read, issuing exactly on a PENDING_DNS or FAILED row. |
| `Lifecycle.IssuingStep` | acme_api/services/certificates.py:164-166 | The claim of a dns-01 row overwrites any status; an outcome reaches an ISSUING row only, with expiry, generation and event. |
| `Lifecycle.DeletingStep` | acme_api/services/certificate_lifecycle_operations.py:16-38 | A delete writes the status chosen from what it read over any other, and one event. |
| `Lifecycle.RenewingStep` | acme_api/scheduler.py:175-203 | A renewal writes VALID or FAILED over any status; expiry and generation only where they differ from what it read, so a selection in between survives a renewal that does not change them. |
| `Lifecycle.SelectingStep` | acme_api/services/certificates.py:390-423 | A selection leaves status, release key, revision and events of the row as they have become, and stores its own key. |
| `Lifecycle.CreatedFirst` | acme_api/services/certificates.py:118-123 | In every run the events of a row begin with its creation, which is reported once. |
| `Lifecycle.NoReleaseIsLost` | acme_api/services/certificates.py:292-307 | After a process stop at any step a row with a release key is found by the startup query or has already moved on. |
| `Lifecycle.OutcomesAreConserved` | acme_api/services/certificates.py:359-384 | Issued plus failed events plus one if ISSUING plus overwrites equal the entries into ISSUING, for every interleaving of workers, retries, recoveries, deletes and renewals. |
| `Lifecycle.InterruptedRenewalStays` | acme_api/scheduler.py:129-137 | A renewal cut short by a process stop is never resumed: without a delete the row stays RENEWING. |
| `LifecycleService.SoloKeeps` | acme_api/services/certificates.py:159-307 | Every call without interference is a run of the concurrent machine, so the service keeps what every run keeps: status and key fit the origin of the row, and the revision counts the events. |
| `LifecycleService.RecoveredHasOutcome` | acme_api/services/certificates.py:302-307 | Recovery of a row from the startup query ends in VALID or FAILED with exactly one more outcome event. |
| `LifecycleService.RenewalHasOutcome` | acme_api/scheduler.py:129-205 | An undisturbed renewal ends VALID unless it fails for good, keeps expiry and generation when it fails at all, and adds exactly one event. |
| `LifecycleService.CertificateService.IssueCertificate` | acme_api/services/certificates.py:159-167 | A PENDING row ends VALID with expiry, generation and event, or FAILED with its event; any other row is left alone. |
| `LifecycleService.CertificateService.IssueAndDeploy` | acme_api/services/certificates.py:309-388 | The guarded final update: VALID with expiry, generation and event, or FAILED with its event, only on ISSUING. |
| `LifecycleService.CertificateService.MarkFailed` | acme_api/services/certificates.py:433-458 | FAILED and its event, only on ISSUING. |
| `LifecycleService.CertificateService.AuthorizeDnsPersist` | acme_api/services/certificates.py:169-221 | Errors for a missing row and another method; HELD becomes AUTHORIZATION_READY with the next revision, PENDING_DNS and FAILED become ISSUING and are flagged, any other row is left alone; each change with its event. |
| `LifecycleService.CertificateService.ReleaseHeld` | acme_api/services/certificates.py:223-265 | Errors for a missing row and another method; the stored key is answered without a change; a HELD or AUTHORIZATION_READY row without a key and with the given revision becomes RELEASED with the next revision, the key and one event; anything else is an error without a change. |
| `LifecycleService.CertificateService.IssueReleasedDnsPersist` | acme_api/services/certificates.py:267-282 | A RELEASED row ends VALID or FAILED with its event; any other row is left alone. |
| `LifecycleService.CertificateService.IssueAuthorizedDnsPersist` | acme_api/services/certificates.py:284-290 | An ISSUING row ends VALID or FAILED with its event; any other row is left alone. |
| `LifecycleService.CertificateService.RevokeCertificate` | acme_api/services/certificate_lifecycle_operations.py:16-38 | HELD, AUTHORIZATION_READY, CANCELLED, a RELEASED row with a revision and an ISSUING row with a release key end CANCELLED, all others REVOKED, with the event of that name. |
| `LifecycleService.CertificateService.RequestManualRenewal` | acme_api/services/certificate_lifecycle_operations.py:41-52 | Accepted exactly on VALID rows; the request event is added and nothing else changes. |
| `LifecycleService.CertificateService.ReleasedRows` | acme_api/services/certificates.py:295-302 | The query finds each keyed DNS Persist row that is RELEASED or ISSUING once, and no other. |
| `LifecycleService.CertificateService.ResumeReleased` | acme_api/services/certificates.py:292-307 | A full recovery ends every DNS Persist row that has a release key and is RELEASED or ISSUING in VALID or FAILED with its event, changes no other row and leaves nothing to recover. |
| `Revocation.OneRowPerRequest` | acme_api/services/certificate_revocations.py:57-89 | Concurrent requests with one certificate and key share one row for ever; it keeps its reason; answered requests name it; a refusal names another reason. |
| `Revocation.CallsAreAsked` | acme_api/services/certificate_revocations.py:57-99 | In every run each row has certificate, key, reason and domain of one request that was started, and each call asks the authority to revoke that domain for that reason. |
| `Revocation.LeaseIsRecovered` | acme_api/services/certificate_revocations.py:76-90 | In every reachable state, who asks again for a pending row takes its lease if and only if it was never taken or was taken more than ten minutes ago; otherwise the row is reported as it is. |
| `Revocation.AnswerIsStored` | acme_api/services/certificate_revocations.py:100-127 | What the authority answered is stored in a row that was pending when the caller looked: succeeded, or failed with the category of the error, and the time. |
| `Revocation.LeaseBound` | acme_api/services/certificate_revocations.py:130-151 | Whatever the clocks show, a closed window holds at most one claim of a row plus one per full gap of more than a lease. |
| `Revocation.OneCallPerLease` | acme_api/services/certificate_revocations.py:88-99 | Every authority call uses a lease that was claimed, and no lease serves two calls. |
| `Revocation.CallBound` | acme_api/services/certificate_revocations.py:88-99 | If every worker calls within some slack of its claim by its own clock, a window holds at most one call that starts in it, plus one per full gap of window and slack together. |
| `Revocation.StalledWorkersCallTogether` | acme_api/services/certificate_revocations.py:91-99 | Without that no bound on calls holds: for every n some run starts n calls for one row at one moment. |
| `Revocation.ClaimsAreSpaced` | acme_api/services/certificate_revocations.py:133-145 | Two claims of a row in the order they were taken differ by more than the lease, without monotone clocks. |
| `Revocation.NoClaimAfterOutcome` | acme_api/services/certificate_revocations.py:137-139 | Once a row has an outcome its lease is never taken again and the outcome stays an outcome. |
| `Revocation.NoCallAfterOutcomeIff` | acme_api/services/certificate_revocations.py:91-99 | After an outcome no further call starts, exactly when no worker stands between its lease and its call. |
| `Revocation.LateCallIsReachable` | acme_api/services/certificate_revocations.py:91-99 | The exception is reachable: a worker that stalls past its lease calls after another one has succeeded. |
| `Revocation.LeaseGivesExclusion` | acme_api/services/certificate_revocations.py:88-127 | If every stored outcome is stored within its lease, at most one live worker holds a row between claim and outcome, and no outcome is ever overwritten. |
| `RevocationService.AttemptResult` | acme_api/services/certificate_revocations.py:88-127 | A claimable row is claimed once and gets the outcome; any other row is only reported. |
| `RevocationService.RepeatIsIdempotent` | acme_api/services/certificate_revocations.py:69-89 | Asking again returns the first answer without a claim or a call; another reason is refused and changes nothing. |
| `RevocationService.Service.ClaimPending` | acme_api/services/certificate_revocations.py:130-151 | Wins exactly on a pending row whose lease was never taken or was taken more than ten minutes ago, and then only stamps it. |
| `RevocationService.Service.RequestRevocation` | acme_api/services/certificate_revocations.py:41-127 | Errors for unknown and unissued certificates. Without a row for certificate and key exactly one is added, for the reason and the certificate's primary domain, and attempted; another reason is a conflict; a row with an outcome or a running lease is reported; any other is attempted. An attempt stores start, end, outcome and error category in that row alone. It is the run of the protocol. |
| `Scheduler.RenewalsRunInWindow` | acme_api/scheduler.py:314-325 | In every run of operations the primary job of a certificate is queued for the start of the window of the expiry that is stored now, or for a time that has come, and never before the window. |
| `Scheduler.NoLostRenewal` | acme_api/scheduler.py:94-137 | After any sequence of whole operations every VALID certificate with an expiry has a primary or retry job. |
| `Scheduler.RestartCovers` | acme_api/scheduler.py:94-104 | A restart with a rebuild covers every VALID certificate, whatever was left undone. |
| `Scheduler.AtMostTwoJobs` | acme_api/scheduler.py:339-346 | Over any run the table holds entries of a certificate under its two prefixed ids only, hence at most two. |
| `Scheduler.JobIdsAreDistinct` | acme_api/scheduler.py:339-346 | The two prefixes never give one id for two purposes, and each id determines its certificate. |
| `Scheduler.DeleteEndsRenewals` | acme_api/scheduler.py:122-127 | After a delete no operation, restarts included, queues a renewal of the certificate again, unless one of its generations is selected. |
| `Scheduler.FiringOnInvalidIsHarmless` | acme_api/scheduler.py:131-134 | A job that fires leaves an attempt exactly on a VALID row; otherwise only its entry goes. |
| `Scheduler.RetryBound` | acme_api/scheduler.py:257-279 | Over any run the retries of a certificate number at most the limit, with strictly increasing power-of-two delays that sum to less than two to the limit. |
| `Scheduler.TransientRunEnds` | acme_api/scheduler.py:266-279 | Under unbroken transient failures the row is VALID exactly while lifetime failures do not exceed the limit, hence FAILED within limit + 1 runs. |
| `Scheduler.RenewalScheduler.RenewCertificate` | acme_api/scheduler.py:129-205 | A row that is not VALID changes nothing. A terminal error gives FAILED, a failed attempt without a retry and no job; a transient error below the limit gives VALID, a retry job after the delay and an attempt with that delay, and at the limit the same as a terminal one; a success gives VALID with exactly the new expiry, an attempt and the primary job. |
| `Scheduler.RenewalScheduler.RecordRenewalFailure` | acme_api/scheduler.py:257-298 | Below the limit of lifetime failures a transient error gives VALID with a retry job so many minutes from now, anything else FAILED without a job; always one more failed attempt. |
| `Scheduler.RenewalScheduler.ScheduleCertificate` | acme_api/scheduler.py:106-120 | Replaces the primary job of the certificate, due when the window before its expiry opens or now if it has opened, or does nothing without an expiry. |
| `Scheduler.RenewalScheduler.RemoveCertificate` | acme_api/scheduler.py:122-127 | Removes both entries of the certificate and no other. |
| `Scheduler.RenewalScheduler.AttemptCount` | acme_api/scheduler.py:355-363 | The loop counts the failed attempts of the certificate among all attempts ever stored. |
| `Scheduler.RenewalScheduler.RetryDelay` | acme_api/scheduler.py:349-352 | Two to the number of earlier failures. |
| `Scheduler.PowersMultiply` | acme_api/scheduler.py:349-352 | These delays are powers: one after no failure, two after one, and the delay after a + b failures is the product of the two. |
| `Scheduler.RenewalScheduler.ValidCertificates` | acme_api/scheduler.py:96-98 | The query returns each VALID certificate once and no other. |
| `Scheduler.RenewalScheduler.RebuildJobs` | acme_api/scheduler.py:94-104 | Every VALID certificate with an expiry has its primary job, due when the window opens or now; every other entry stays; the count is that of the VALID certificates. |
| `RowAndDisk.RowNamesCurrent` | acme_api/services/certificates.py:338-368 | After any history of whole issue, renew, select, pin and row-only operations, a row with a generation names the one `current` leads to and carries the expiry in its metadata; and every generation that can be selected has readable metadata, because the deployments keep it so. |
| `RowAndDisk.SelectAgreesIff` | acme_api/services/certificates.py:390-423 | A selection that moves the link keeps this agreement exactly when the selected generation's metadata holds an expiry: the link moves before the metadata is read. |
| `RowAndDisk.SelectionTakesEffect` | acme_api/services/certificates.py:390-423 | A selection with a new key of a generation that is there moves `current` to it, and with readable metadata the row gets its id, that expiry and the key; any other selection changes nothing, so repeating one does not either. |
| `RowAndDisk.PinTakesEffect` | acme_api/deployer.py:296-304 | A pin of a generation that is there is one that cleanup reads; any other changes nothing, and the row stays as it is. |
| `RowAndDisk.MigratedMetadataDecides` | acme_api/deployer.py:338-344 | The failing input arises: after a deployment over five plain files, selecting what the migration saved keeps the agreement if and only if the metadata of the plain files held an expiry. |
| `RowAndDisk.DeployLegible` | acme_api/deployer.py:236-271 | A deployment that goes through leaves every generation and the plain metadata with an expiry if all had one before. |
| `RowAndDisk.DeployFinal` | acme_api/deployer.py:267-271 | A deployment that goes through leaves `current` at the new, complete generation. |

## Left out

- CrashConsistency.CrashConsistency: symbolic links lead to a generation or through `current` to an artifact; links to anything else are not modelled.
- History.HistoryIsRecoverable: `generations` is taken to be on disk from the start; what a crash before the first synchronisation of the target can do is characterised for the first deployment alone (FirstDeployment.FirstDeploymentWindow). Selections are those of generations whose publication went through and that no cleanup has named; the lemmas on selections say why others are not safe. Staging directories of dead processes are dropped at a crash, since no later call names them. Whether hard links follow symbolic links does not change in a history.
- History.NextDeploymentIff: starts with `generations` on disk too.
- Snapshots.SetAtomicity: speaks of five plain files and of five links that show one publication; during a first deployment, and one over names that are part links and part files, no claim is made about what the five names show together.
- Deployer.Target.WriteFsync: a call that fails changes nothing, so a write that fails halfway is not modelled; its bytes would be in a staging directory. Calls that only read, such as the listing, do not fail.
- Deployer.Target.CleanupGenerations: modification times are integers given from outside, so the rounding of the age test through floating-point seconds is not modelled, nor is the order in which one directory tree is emptied.
- Deployer.Target.PinGeneration: the directory of pins exists from the start, like the target and `generations`; their creation is not modelled. The name of a hidden staging directory that a failed removal left over passes the test of the code; here it is refused, because generations and staging directories have different kinds of names.
- Deployer.Target.SelectGeneration: refuses such a hidden name too, which the code would select.
- Standstill.StuckForever: plain deployments, which replace all five names, are left out of the history; so are crashes, which can bring missing or earlier entries back.
- Standstill.PendingForever: crashes are left out, because one can lose a pending link that was not synchronised.
- DomainPattern.AcceptsThePattern: `$` also matches before a final line break, which no cleaned name has; here it is the end of the text.
- Domains.NormalizedIsCanonical: characters outside ASCII are not modelled; the code trims and lowers them by Unicode rules before the pattern refuses them.
- RowAndDisk.RowNamesCurrent: operations do not overlap, and deployments go through with their cleanup; a deployment that fails after its switch leaves the row FAILED while `current` has moved, and a cleanup that fails halfway can leave a generation without metadata. Where hard links take symbolic links themselves, it starts from names that are not part links and part files.
- Scheduler.NoLostRenewal: operations run to their end one after the other; misfire grace, threads and the expiring event are not modelled.
- Revocation.CallBound: counts the calls of one row by the clocks of the workers; the authority's own view of a call is outside the model.
- Lifecycle.OutcomesAreConserved: overwrites of ISSUING by deletes and stale renewals are counted, not excluded.
- File modes, group ownership, checks of source files, the fingerprint and the JSON text of metadata.
- Webhooks, HTTP routing, authentication, logging and configuration.
- The certificate tool behind the backend, its output and its error texts: a call returns a result, a transient error or a terminal error.
- Errors that the code does not catch, such as a missing executable during issuance.
- Columns that no modelled decision reads: `updated_at`, generation details, the actor of a revocation.
- Plain deployments replace the five files one by one; no claim is made about what readers see during one.
