# Verified model of the MCP Trust refresh and release gates

This project models the decision logic that stands between a refreshed catalog and its publication, and proves
what that logic promises. It has four parts.

* **Image qualification** (`ReceiptSet`, `Protocol`, `ProtocolInvariant`, `ProtocolSteps`, `Recovery`,
  `Discipline`, `CleanupOutcome`, `Progress`, `Misfiling`, `Histories`, `Witnesses`, `Trace`, `QualifyScript`,
  `OpenedSet`, `HostCapacity`). The script keeps a directory of create-once records around Docker tag changes and may stop
  between any two effects. `Protocol` is the state machine of those effects. `Qualifier` is the script itself, an
  object whose methods change the files, tags and outputs. Its ghost trace logs every command it starts and every
  effect: each state it passes through is a state of the machine, each Docker effect follows its own admitted
  command, and a successful run has started a fixed sequence of commands. Lemmas over all histories say which
  directories open again, who owns what, and which attempts can be resolved.
* **The npm lock validator** (`NpmPaths`, `NpmVersions`, `NpmLock`, `NpmFields`): path strings, versions and their
  grammar, nearest-ancestor lookup, tarball addresses, the override worklist against a specification by walks, and
  what an accepted lock guarantees in the package fields.
* **Dispositions and the catalog contract** (`Disposition`, `Triage`, `Acceptance`, `BoundaryWitness`, `Catalog`,
  `JsonNesting`): triage of a candidate's rows, proposed policy, review, operator acceptance
  and re-review linked by digests; the counts a READY preflight must show; the bracket counter over JSON text.
* **Exact algorithms** (`BoundedJson`, `Discovery`, `Readback`, `NpmCache`, `GradeBinding`, `Sanitize`).

## Conventions

A digest is modelled by the content it digests, so SHA-256 counts as injective. A file of the qualification set
is one atomic create. Times are integer microseconds; percentages are millionths; scores are exact reals. Whatever Docker,
the clock, the network or the filesystem answers is left open; the script reads its answers from an arbitrary
`Environment`, one answer a question. A raised error is `Raised`.

## Where the code does less than one might expect

Each of these has a lemma with the exact condition, given first, and a lemma at a real input, given second.

* Besides the four windows (directory to manifest, capacity to attempt, completion to receipt, cleanup capacity
  to cleanup record) a set is refused for two more reasons. Two scoped capacity receipts may wrap one host
  observation: `_capacity_snapshot` compares only the scoped digest, and the reader then refuses the set. And a
  set with a completed cohort is refused once its receipt is older than a day
  (`Recovery.ReopensExactlyWhenUndamaged`; `Histories.ReusedObservationDamages`, `Witnesses.ReceiptExpires`).
* A second build that equals neither the first nor the baseline leaves a final tag no cleanup accepts. The
  cleanup run raises after recording its capacity, which makes the set refused, and the cohort is never
  resolved (`CleanupOutcome.UnaccountedMeansDiverged`, `CleanupOutcome.CleanupDefeated`;
  `Histories.UnrepeatableBuildBlocksItsCohort`).
* Build output of another cohort stops a cleanup run before it records anything
  (`CleanupOutcome.CleanupAdmitted`; `Witnesses.OtherOutputBlocksCleanup`).
* A cleanup record filed under another cohort than its attempt's has its identity collected and its capacity
  reference ignored: the set then opens only if the attempt has its own cleanup record as well
  (`Misfiling.MisfiledCleanup`; `Witnesses.MisfiledShuts`, `Witnesses.MisfiledIgnored`).
* The acceptance builder takes its proposal's own file name for the artifact, or a name no file can have, and
  the accepted policy is then refused (`Acceptance.AcceptanceRoundTrip`;
  `BoundaryWitness.OwnNameIsAcceptedAndFails`).
* `load_policy` accepts slugs outside the grammar the READY contract asks for
  (`Catalog.ProducerMeetsChecker`; `Catalog.OddSlugRefused`).
* An issuer whose path is the OpenID well-known path has one address among its candidates twice
  (`Discovery.ServerCandidatesDiffer`; `Discovery.OneAddressTwice`).

## Model

| member | source | states |
|---|---|---|
| `Recovery.ReopensExactlyWhenUndamaged` | scripts/qualify_refresh_images.py:1058-1092 | after any sequence of qualification and cleanup runs stopped anywhere, the directory opens if and only if no run stopped in an unbinding window or reused a host observation, the repository inputs are the recorded ones, and every receipt is at most a day old and at most five minutes ahead |
| `Recovery.StopOutsideWindows` | scripts/qualify_refresh_images.py:1506-1566 | after a stop anywhere else the directory, unchanged, opens exactly when no earlier event had damaged it, the inputs match and its receipts are current |
| `Recovery.StopInsideWindows` | scripts/qualify_refresh_images.py:1058-1092 | after a stop inside a window nothing opens the directory, under any inputs, at any time |
| `Recovery.RuinedIsDamaged` | scripts/qualify_refresh_images.py:1236-1303 | damage by history is the same as a flaw in the present store: a missing manifest, a repeated host observation, an unreferenced capacity record, or a completion without its receipt |
| `Recovery.InvAlways` | scripts/qualify_refresh_images.py:1636-1879 | the inductive invariant over records, tags, build output and the run holds in every reachable state |
| `ProtocolSteps.Kept` | scripts/qualify_refresh_images.py:1636-1879 | every single durable effect, stops included, keeps the invariant |
| `Recovery.SoundWhenWhole` | scripts/qualify_refresh_images.py:1236-1303 | an idle store without a flaw passes the set graph check |
| `Recovery.WholeWhenSound` | scripts/qualify_refresh_images.py:1236-1303 | a store that passes the set graph check has no flaw |
| `Discipline.CohortDiscipline` | scripts/qualify_refresh_images.py:1407-1503 | in every reachable store a cohort has at most one unresolved and one completed attempt, no attempt is both completed and cleaned up, and a cohort with a receipt has nothing unresolved |
| `Discipline.CapacityHasOneOwner` | scripts/qualify_refresh_images.py:1296-1303 | no capacity record ever has two owners, and in a set that opens each has exactly one |
| `Discipline.WritesAreFresh` | scripts/qualify_refresh_images.py:339-348 | the file each of the seven writing effects creates does not exist before it, and nothing else in the directory changes |
| `Discipline.Appended` | scripts/qualify_refresh_images.py:339-348 | across any further history every record stays as it was written |
| `Discipline.ResolvedForever` | scripts/qualify_refresh_images.py:1407-1484 | a resolved attempt stays resolved whatever is appended |
| `Discipline.IntentBeforeTag` | scripts/qualify_refresh_images.py:1755-1775 | a temporary tag exists only while an attempt record naming it is unresolved |
| `Discipline.OwnershipBeforeFinalTag` | scripts/qualify_refresh_images.py:1776-1785 | a final tag that left an unresolved attempt's baseline has its ownership record on disk |
| `Discipline.ReceiptsAreProven` | scripts/qualify_refresh_images.py:1828-1870 | every receipt names one image for both builds, the one its completed attempt owned, and the final tag carries it |
| `Discipline.CleanupWitnessed` | scripts/qualify_refresh_images.py:1978-2038 | every cleanup record of every reachable store was written at a step where the temporary tag was absent and the final tag was the baseline or the owned image, as the record says |
| `CleanupOutcome.UnaccountedMeansDiverged` | scripts/qualify_refresh_images.py:1360-1373 | an unresolved attempt's final tag is unaccounted for exactly when its second build differed from both the first build and the baseline |
| `CleanupOutcome.CleanupAdmitted` | scripts/qualify_refresh_images.py:2097-2126 | any unresolved attempt in a set that opens admits a cleanup run; as far as build output goes it acts if and only if no other cohort left any (a leftover validation receipt or tool snapshot of another cohort would block it too), and it can write its record if and only if the second build had not diverged |
| `CleanupOutcome.CleanupResolves` | scripts/qualify_refresh_images.py:1946-2038 | after an undiverged attempt the cleanup run leaves nothing unresolved and does no damage |
| `CleanupOutcome.CleanupDefeated` | scripts/qualify_refresh_images.py:1978-1992 | after a diverged build a cleanup run can only stop, and that stop makes the set refused |
| `CleanupOutcome.DivergedForever` | scripts/qualify_refresh_images.py:1360-1373 | no later events of any kind resolve a diverged attempt or give its cohort a receipt |
| `Progress.QualificationCompletes` | scripts/qualify_refresh_images.py:1636-1870 | from every set that opens, a free cohort with a new host observation and agreeing builds reaches its receipt, and the set then opens at every time within a day of that receipt at which the other receipts are current |
| `Progress.ReopensAfterRun` | scripts/qualify_refresh_images.py:1058-1092 | whatever came before a qualification that reached its receipt, the set it leaves opens exactly at the times within its day at which the other receipts are current, provided its host observation was new, and never otherwise |
| `Histories.UnrepeatableBuildBlocksItsCohort` | scripts/qualify_refresh_images.py:1784-1796 | a history without a stop, for every pair of differing images, after which the cohort is never resolved though the set opens |
| `Histories.ReusedObservationDamages` | scripts/qualify_refresh_images.py:1376-1390 | a history without a stop in which a second scoped receipt around one host observation passes the snapshot check and breaks the set |
| `ProtocolInvariant.ResolvedIsSettled` | scripts/qualify_refresh_images.py:1407-1484 | in a well-kept store the resolution check decides exactly whether a cleanup, or a completion with its receipt, exists |
| `ProtocolInvariant.UnresolvedAre` | scripts/qualify_refresh_images.py:1487-1503 | the unresolved attempts of a cohort are exactly its unsettled attempt records |
| `ReceiptSet.ValidatedSetAttempts` | scripts/qualify_refresh_images.py:1116-1233 | one pass over the directory, in any order, accepts exactly the readable sets and returns the four identity sets |
| `ReceiptSet.ValidateSetGraph` | scripts/qualify_refresh_images.py:1236-1303 | the imperative graph check accepts exactly the declaratively sound graphs |
| `ReceiptSet.UnresolvedAttempts` | scripts/qualify_refresh_images.py:1487-1503 | returns exactly the cohort's attempts that do not resolve, or raises when one cannot be decided |
| `ReceiptSet.AttemptById` | scripts/qualify_refresh_images.py:1166-1190 | two attempt records of a readable set never share an identity |
| `ReceiptSet.CapacityReferenced` | scripts/qualify_refresh_images.py:1289-1303 | the capacity files are exactly those referenced by attempts and cleanups |
| `ReceiptSet.ReceiptsMatchCompletions` | scripts/qualify_refresh_images.py:1277-1289 | a cohort has its receipt if and only if exactly one of its attempts completed |
| `OpenedSet.OpenedAttempt` | scripts/qualify_refresh_images.py:1166-1219 | in a set that opens an attempt record stands under its own identity, bound to the manifest and to a recorded capacity |
| `OpenedSet.OpenedCapacity` | scripts/qualify_refresh_images.py:1145-1165 | a capacity record names what it holds, is of this set, rests on an admissible observation no other record rests on, and is cited by an attempt or a cleanup |
| `OpenedSet.OpenedOwnership` | scripts/qualify_refresh_images.py:1258-1264 | an ownership record belongs to an attempt, and under that attempt's cohort is about that very attempt |
| `OpenedSet.OpenedCompletion` | scripts/qualify_refresh_images.py:1254-1275 | a completed attempt was never cleaned up, has an ownership record and a receipt, and its completion repeats both attempt and receipt |
| `OpenedSet.OpenedCleanup` | scripts/qualify_refresh_images.py:1256-1275 | a cleaned-up attempt was never completed; its record is about that attempt, found the temporary tag absent, and rests on a recorded cleanup capacity of its cohort |
| `OpenedSet.OpenedReceipts` | scripts/qualify_refresh_images.py:1277-1289 | a cohort has its receipt exactly when one of its attempts is completed, and no second one ever is |
| `OpenedSet.OpenedReceipt` | scripts/qualify_refresh_images.py:1058-1092 | a receipt names one image for both builds, is of its cohort, at most 86 400 s old and at most 300 s ahead, under the recorded inputs |
| `Witnesses.OtherOutputBlocksCleanup` | scripts/qualify_refresh_images.py:2103-2116 | a history after which a cleanup run is let in and can do nothing because another cohort left build output |
| `Witnesses.ReceiptExpires` | scripts/qualify_refresh_images.py:1074-1090 | one untroubled qualification whose set opens at once and is refused a day later |
| `Misfiling.MisfiledCleanup` | scripts/qualify_refresh_images.py:1236-1303 | a cleanup record filed under another cohort keeps a set openable if and only if the set was openable and the attempt has its own cleanup record |
| `Witnesses.MisfiledShuts` | scripts/qualify_refresh_images.py:1407-1424 | a store that such a record shuts |
| `Witnesses.MisfiledIgnored` | scripts/qualify_refresh_images.py:1407-1424 | a reachable store on which such a record changes nothing |
| `QualifyScript.Qualifier.Record` | scripts/qualify_refresh_images.py:339-348 | each durable effect of the script is an enabled step of the protocol machine, and each Docker effect and each ownership record directly follows the start of its command |
| `QualifyScript.Qualifier.RequireCurrent` | scripts/qualify_refresh_images.py:235-246 | admission holds if and only if the stored receipt admits the clock and the counters of that moment |
| `QualifyScript.Qualifier.RunCommand` | scripts/qualify_refresh_images.py:280-336 | a command is started exactly when admitted, is then logged with the clock and counters it met, and succeeds exactly when it was admitted and ran well |
| `QualifyScript.Qualifier.InspectTemporary` | scripts/qualify_refresh_images.py:1306-1341 | an inspection answers exactly through one admitted command, and answers what the tag is |
| `QualifyScript.Qualifier.InspectBoundary` | scripts/qualify_refresh_images.py:616-722 | success means that six further commands, in order, were each admitted and ran well |
| `QualifyScript.Qualifier.BuildFirstImage` | scripts/qualify_refresh_images.py:1773-1773 | the first output appears exactly by one admitted build command |
| `QualifyScript.Qualifier.LoadFirstImage` | scripts/qualify_refresh_images.py:1774-1774 | the temporary tag appears exactly by one admitted load command |
| `QualifyScript.Qualifier.LoadSecondImage` | scripts/qualify_refresh_images.py:1784-1784 | the final tag moves exactly by one admitted load command |
| `QualifyScript.Qualifier.RemoveTemporary` | scripts/qualify_refresh_images.py:1344-1357 | the tag goes by one admitted inspection, and by one admitted removal if it was there; otherwise nothing changes |
| `QualifyScript.Qualifier.OpenReceiptSet` | scripts/qualify_refresh_images.py:1058-1092 | creates the set on first use and accepts exactly the sets that open |
| `QualifyScript.Qualifier.CapacitySnapshot` | scripts/qualify_refresh_images.py:1376-1390 | records one scoped receipt at most once and changes nothing when it refuses |
| `QualifyScript.Qualifier.BuildTwice` | scripts/qualify_refresh_images.py:1768-1796 | whatever fails, the run's build output is removed and then the temporary tag if its commands run; an image comes out exactly when both builds agreed and the tag is gone, and then each build was run, loaded and inspected |
| `QualifyScript.Qualifier.Qualify` | scripts/qualify_refresh_images.py:1636-1879 | success means the exact event sequence up to the receipt, under the exact command sequence, with a time read after the last command; it succeeds whenever nothing fails, the builds agree and the cohort is free |
| `QualifyScript.Qualifier.FinalTagState` | scripts/qualify_refresh_images.py:1360-1373 | returns exactly when the inspection works and the tag is accounted for, and says which case holds |
| `QualifyScript.Qualifier.CleanupInterrupted` | scripts/qualify_refresh_images.py:1946-2038 | success means capacity record, tag removal and cleanup record in that order on an accounted tag and an unused receipt, under the exact command sequence; with these it succeeds whenever nothing fails |
| `QualifyScript.Qualifier.RunQualification` | scripts/qualify_refresh_images.py:2041-2131 | every command of the run was admitted by its one receipt within 120 s, on one device and total with at least 5 GiB; success means the exact command sequence, both boundary checks included, creates the one receipt of the cohort, stamped with a reading of the clock after the last command, and the final tag names its image; the set then opens exactly from 300 s before that reading to 86 400 s after it while the other receipts are current, if the host observation was new; it succeeds whenever nothing fails on a new set, or on one that opens with the cohort free |
| `QualifyScript.Qualifier.RunCleanup` | scripts/qualify_refresh_images.py:2041-2131 | the same admission for every command; success means the exact command sequence, turns the one unresolved attempt into none, leaves a cleanup record that says which final tag it saw, and leaves the final tags alone; it comes whenever nothing fails exactly on a cleanable attempt |
| `HostCapacity.RoundsToNearest` | src/mcp_trust/host_capacity.py:168-179 | the stored percentage is the nearest one, ties to even |
| `HostCapacity.PercentReaches100` | src/mcp_trust/host_capacity.py:182-188 | the rounded percentage reaches 100 if and only if the total is at least 2*10^8 times what is available |
| `HostCapacity.PercentFiresOnlyOnHugeFilesystems` | src/mcp_trust/host_capacity.py:182-188 | with the 5 GiB floor met the percentage test fires only from 2*10^8 times that floor on, and does at that point |
| `HostCapacity.NoReasonsMeansPolicy` | src/mcp_trust/host_capacity.py:182-188 | a reading has no blocking reason exactly when its raw counters meet policy |
| `HostCapacity.ValidateHostCapacityReceipt` | src/mcp_trust/host_capacity.py:329-399 | accepts exactly READY receipts of two consistent readings on one filesystem, at least 30 s apart, both meeting policy |
| `HostCapacity.StandsExactly` | src/mcp_trust/host_capacity.py:329-399 | the admissible receipts are exactly those with two readings at least 30 s apart whose counters are possible, leave 5 GiB and round below 100 %, with every derived field what the counters give |
| `HostCapacity.BuildHostCapacityReceipt` | src/mcp_trust/host_capacity.py:191-253 | is READY exactly for two readings of one filesystem at least 30 s apart whose counters meet policy, and then the validator accepts it |
| `HostCapacity.RequireCurrentHostCapacity` | src/mcp_trust/host_capacity.py:402-436 | admits exactly from 0 to 120 s after the second reading, on the same device and total, with 5 GiB free and usage below 100 % now |
| `NpmPaths.ParseRendered` | src/mcp_trust/dependency_boundary.py:33-39 | every list of lock names is what its rendered path parses to |
| `NpmPaths.RenderParsed` | src/mcp_trust/dependency_boundary.py:33-39 | every path in the grammar is the rendering of its names |
| `NpmPaths.Cut` | src/mcp_trust/dependency_boundary.py:350-358 | cutting at the last marker undoes exactly one append, also below packages called node_modules or with a scope |
| `NpmPaths.CutOnce` | src/mcp_trust/dependency_boundary.py:350-358 | each cut removes the innermost name and shortens the path |
| `NpmPaths.NearestIsDeepest` | src/mcp_trust/dependency_boundary.py:350-358 | the lookup returns the entry beside the longest enclosing prefix that has one, or none when none has |
| `NpmPaths.ResolvedEncloses` | src/mcp_trust/dependency_boundary.py:350-358 | for a well-formed name the entry found is that package inside an enclosing directory |
| `NpmPaths.ResolveNpmDependency` | src/mcp_trust/dependency_boundary.py:350-358 | the loop over cut path strings computes the nearest-ancestor lookup |
| `NpmPaths.CopiesByName` | src/mcp_trust/dependency_boundary.py:309-315 | the suffix test finds exactly the installed copies of a package |
| `NpmPaths.TarballInjective` | src/mcp_trust/dependency_boundary.py:297-306 | one accepted address determines the package name and the version |
| `NpmPaths.TarballIsPlain` | src/mcp_trust/dependency_boundary.py:285-306 | for an exact version and a grammatical name the address has no escape, query or fragment character and the version adds no segment |
| `NpmLock.CheckEntry` | src/mcp_trust/dependency_boundary.py:275-306 | accepts exactly the sound entries; the marker characters check adds nothing |
| `NpmLock.SameTarballSamePackage` | src/mcp_trust/dependency_boundary.py:297-306 | two entries share a tarball exactly when they are one package at one version |
| `NpmLock.ClosedHolds` | src/mcp_trust/dependency_boundary.py:321-347 | a set with the copies that is closed under edges holds everything reachable |
| `NpmLock.Expand` | src/mcp_trust/dependency_boundary.py:328-346 | resolves every name of the three dependency tables and refuses exactly when the child is not pinned there; what any of the three names and finds is followed |
| `NpmLock.CheckOverride` | src/mcp_trust/dependency_boundary.py:317-347 | the worklist accepts if and only if every package reachable from any copy that names the child gets the pinned version, and one such package exists |
| `NpmLock.CheckParent` | src/mcp_trust/dependency_boundary.py:309-347 | all children of one override parent hold, and a missing parent is refused |
| `NpmLock.ValidateNpmLock` | src/mcp_trust/dependency_boundary.py:237-347 | accepts exactly the sound locks; what soundness means in the package fields is stated below |
| `NpmFields.AcceptedBindsBelow` | src/mcp_trust/dependency_boundary.py:309-347 | in an accepted lock, along any trail of dependencies, optional and peer dependencies from a copy of an override's parent, the tables can be read and a package that names the child in any one of them finds it at the pinned version |
| `NpmFields.AcceptedNamesBelow` | src/mcp_trust/dependency_boundary.py:309-347 | and some package on such a trail names the child in one of the three tables |
| `NpmFields.NamedIsEdge` | src/mcp_trust/dependency_boundary.py:328-346 | a name in any one of the three tables that resolves to an entry is an edge |
| `NpmFields.OverrideInFields` | src/mcp_trust/dependency_boundary.py:309-347 | the override specification by edges holds exactly when every trail is bound and some trail ends at the child's name |
| `NpmFields.FindsInWords` | src/mcp_trust/dependency_boundary.py:350-358 | the lookup finds an entry exactly when it stands beside one of the enclosing directories, or at the root, and nothing nearer does |
| `NpmFields.AcceptedEntry` | src/mcp_trust/dependency_boundary.py:275-306 | every entry of an accepted lock is neither link nor alias, has an exact version and a SHA-512 digest, and resolves to the registry address of its own name and version |
| `NpmFields.AcceptedAddress` | src/mcp_trust/dependency_boundary.py:297-306 | and that address holds no escape, query or fragment character |
| `NpmFields.AcceptedDependencies` | src/mcp_trust/dependency_boundary.py:266-308 | the root's dependencies are the manifest's, each pinned exactly and installed |
| `NpmFields.AcceptedManifest` | src/mcp_trust/dependency_boundary.py:249-265 | the manifest's dependencies and overrides are the expected ones, and overrides sit on its own dependencies |
| `NpmVersions.VersionAccepted` | src/mcp_trust/dependency_boundary.py:35-39 | three numbers without leading zeros, then perhaps a pre-release and a build, are an exact version |
| `NpmVersions.VersionParts` | src/mcp_trust/dependency_boundary.py:35-39 | and every exact version is made of such parts |
| `JsonNesting.CheckJsonNesting` | src/mcp_trust/grade_refresh.py:527-546 | on every printed JSON value it raises if and only if the nesting exceeds the limit |
| `JsonNesting.ScanPrinted` | src/mcp_trust/grade_refresh.py:527-546 | the scan of any JSON text, white space and escapes included, ends outside strings at its starting depth or raises on nesting |
| `JsonNesting.ScanChars` | src/mcp_trust/grade_refresh.py:527-546 | no string content leaves the in-string state |
| `Disposition.LoadDispositionPolicy` | src/mcp_trust/grade_refresh.py:3083-3386 | accepts exactly policies with one prescribed entry, to the letter, for each blocked row, and returns the same entries in ascending slug order |
| `Disposition.SortKeepsSound` | src/mcp_trust/grade_refresh.py:3378-3386 | a loaded policy is sound and loading it again changes nothing |
| `Triage.TriageCandidate` | src/mcp_trust/grade_refresh.py:2804-3008 | adds exactly the findings of the checks, the repeat comparison and each row |
| `Triage.ControlledResultProjection` | src/mcp_trust/grade_refresh.py:2699-2768 | projects the rows by slug, or raises on a shapeless, unreadable or repeated row |
| `Triage.ProjectedRows` | src/mcp_trust/grade_refresh.py:2699-2768 | a projection holds exactly the rows, each under its slug, and every fresh or masked one of them was readable |
| `Triage.ProjectionSucceeds` | src/mcp_trust/grade_refresh.py:2699-2768 | rows that can be read, under slugs that differ, are always projected |
| `Triage.GradesReported` | src/mcp_trust/grade_refresh.py:2971-2982 | an upgrade, a move of two grades or missing provenance is reported for exactly the rows whose previous and current grade show it |
| `Triage.ChecksReported` | src/mcp_trust/grade_refresh.py:2843-2918 | a failed check is reported with its severity, High for five of them and Critical for the others |
| `Triage.RepeatsReported` | src/mcp_trust/grade_refresh.py:2919-2931 | a slug is inconsistent exactly when the two scans do not both show it alike, and unreadable evidence is reported instead of a comparison |
| `Triage.BaselessTriage` | src/mcp_trust/grade_refresh.py:2943-2946 | a triage has one Medium finding more than rows that ran exactly when no such row has a record of drift |
| `Triage.CleanTriage` | src/mcp_trust/grade_refresh.py:2895-2939 | no High finding and no more Critical ones than blocked rows means that every check passed, no row is in another state, and the repeat shows the same rows |
| `Triage.TriageNames` | src/mcp_trust/grade_refresh.py:2928-2939 | the blocked-policy findings name exactly the blocked rows of the projection |
| `Acceptance.EntriesAreTheBlocked` | src/mcp_trust/grade_refresh.py:3851-3880 | every review has exactly the blocked rows of its candidate as entries, as many as its release prescribes |
| `Acceptance.BuildPublicationReviewDecision` | src/mcp_trust/grade_refresh.py:3797-4193 | builds exactly the reviews of sound policies over runs with the exact finding set, and for accepted policies only beside the accepted review they continue; its decision, gates, quarantine, counts and entries are stated from the policy, the run and the rows, and each entry's evidence is what a blocked row of both scans says |
| `Acceptance.ReviewedCandidate` | src/mcp_trust/grade_refresh.py:3815-3880 | a reviewed candidate passed every check, shows the same rows twice, and each row is one of the catalog's prohibited ones, blocked, or a fresh one without a baseline to drift from |
| `Acceptance.RereviewedFiles` | src/mcp_trust/grade_refresh.py:3389-3588 | a re-review succeeds only on the very review and artifact files the acceptance names, the artifact repeating the review's receipt, its policy and the operator's authorization |
| `Acceptance.RereviewedEntries` | src/mcp_trust/grade_refresh.py:4161-4191 | and only when every accepted entry, its evidence, its classification, the counts and the bindings are there again |
| `Acceptance.ArtifactLists` | src/mcp_trust/grade_refresh.py:3540-3588 | the artifact lists every entry of the review with the projection the operator saw |
| `Acceptance.BuildV132BoundaryAcceptance` | src/mcp_trust/grade_refresh.py:4196-4364 | produces the artifact and the accepted policy exactly for a bare artifact name and a reproducible proposed V132 review; the count checks of the source add nothing |
| `Acceptance.AcceptanceRoundTrip` | src/mcp_trust/grade_refresh.py:4196-4364 | reviewing the produced policy again succeeds if and only if the artifact could be saved under its name beside the proposal; then nine pending entries are nine accepted ones, the state card accepts, and no authority is granted |
| `Acceptance.OwnNameFails` | src/mcp_trust/grade_refresh.py:4218-4219 | with the proposal's own file name, which the builder accepts, the re-review is refused |
| `BoundaryWitness.OwnNameIsAcceptedAndFails` | src/mcp_trust/grade_refresh.py:4218-4219 | a concrete candidate of 22 fresh and nine blocked rows for which that happens |
| `BoundaryWitness.OtherNameSucceeds` | src/mcp_trust/grade_refresh.py:4196-4364 | the same candidate under another name completes the round trip |
| `Acceptance.ArtifactReadsBack` | src/mcp_trust/grade_refresh.py:3389-3588 | the produced policy accepts a directory holding the proposal exactly when the produced artifact stands there under its name |
| `Acceptance.AcceptedPolicyLoads` | src/mcp_trust/grade_refresh.py:3083-3386 | the produced policy passes the policy loader unchanged |
| `Acceptance.EveryReviewHasCard` | src/mcp_trust/grade_refresh.py:4367-4553 | every review built, of any boundary release, gets a state card of its own release with the prescribed counts, and withholds all authority |
| `Acceptance.RereviewRepeats` | src/mcp_trust/grade_refresh.py:4161-4191 | a re-review passes only on runs that repeat the accepted entries, projections, counts and bindings |
| `Catalog.SizeTellsRepeats` | src/mcp_trust/grade_refresh.py:580-586 | comparing a list's length with its set's size finds exactly the lists with repeats |
| `Catalog.LoadPolicy` | src/mcp_trust/grade_refresh.py:620-707 | reading the lists and comparing the written boundary with the one the categories give accepts exactly the policies with sound lists and that boundary, whose masked list is the registry's and whose sources are exactly the images local processes use |
| `Catalog.CatalogInventory` | src/mcp_trust/grade_refresh.py:710-775 | each row repeats its seed row and what the lists say of it; local processes and those without a VERIFIED source are counted exactly, and none lacks a source |
| `Catalog.OddSlugRefused` | src/mcp_trust/grade_refresh.py:4963-5030 | a policy that loads and whose catalog section the checker refuses |
| `Catalog.CountsMatchLists` | src/mcp_trust/grade_refresh.py:737-775 | each derived count is the size of the policy list behind it |
| `Catalog.BoundaryPartitions` | src/mcp_trust/grade_refresh.py:669-694 | scannable and blocked partition the catalog |
| `Catalog.BoundaryOfRow` | src/mcp_trust/grade_refresh.py:669-694 | a server is scannable exactly when it is in none of the four excluded categories, and blocked otherwise |
| `Catalog.ProducerMeetsChecker` | src/mcp_trust/grade_refresh.py:4963-5030 | the derived catalog section meets the checker if and only if all slugs are in the checker's grammar, which the loader does not require |
| `Catalog.SourcesPresent` | src/mcp_trust/grade_refresh.py:655-668 | an accepted policy leaves no local process without a build source |
| `BoundedJson.CheckBounded` | src/mcp_trust/auth_posture.py:637-651 | returns the exact node count if and only if depth, node and key bounds hold |
| `BoundedJson.BoundedMeans` | src/mcp_trust/auth_posture.py:637-651 | the bounds hold exactly when no node is more than 16 levels below the root, there are at most 2048 places, and no key of any object has more than 256 characters |
| `BoundedJson.NodesArePlaces` | src/mcp_trust/auth_posture.py:637-651 | the count is the number of paths that lead to a node |
| `Discovery.AcceptedIsFirst` | src/mcp_trust/auth_posture.py:903-930 | the accepted candidate is the first in order that fetches and validates |
| `Discovery.Discover` | src/mcp_trust/auth_posture.py:903-930 | fetches exactly the candidates up to the accepted one, in order |
| `Discovery.ServerCandidatesDiffer` | src/mcp_trust/auth_posture.py:530-556 | the issuer candidates differ if and only if its path is not the OpenID well-known path, once or repeated |
| `Discovery.OneAddressTwice` | src/mcp_trust/auth_posture.py:545-556 | an issuer whose second and third candidates are one address, for every origin |
| `Discovery.Commutes` | src/mcp_trust/auth_posture.py:545-556 | a string commutes with the OpenID well-known segment exactly when it repeats it |
| `Discovery.CandidateNamesResource` | src/mcp_trust/auth_posture.py:506-527 | a first candidate determines the resource path up to trailing slashes |
| `Discovery.Probe` | src/mcp_trust/auth_posture.py:897-1006 | reports what the first valid resource document leads to: a document that names the probed resource and lists the reported issuers in order, and for each metadata address an answer with that very issuer string and S256; a challenge of another origin is never followed; it is ready exactly when a listed issuer was found, and fetches at most 26 documents |
| `Discovery.FoundServersMatch` | src/mcp_trust/auth_posture.py:942-995 | a listed issuer is found exactly through one of its own candidates that answered validly, and otherwise all its candidates were asked in vain |
| `Discovery.FoundIffAnswered` | src/mcp_trust/auth_posture.py:942-995 | on a steady network an issuer is found if and only if some candidate of it has valid metadata |
| `Discovery.PathIssuerAddresses` | src/mcp_trust/auth_posture.py:530-556 | on a steady network an issuer with a path is found at the first of its three addresses, written out in order, whose answer has the identical issuer and S256, and nowhere else |
| `Discovery.RootIssuerAddresses` | src/mcp_trust/auth_posture.py:530-556 | the same for an issuer without a path and its two addresses |
| `Discovery.ResourceAddresses` | src/mcp_trust/auth_posture.py:506-527 | without a challenge a resource is looked up at its well-known address before its path, then at its host's |
| `Discovery.FirstDescribed` | src/mcp_trust/auth_posture.py:897-930 | on a steady network the first address whose answer describes the resource is the one reported, with its issuers |
| `Readback.ValidateManifest` | scripts/web_release_readback.py:181-351 | accepts exactly the valid manifests and returns their normal form, in which each route keeps its own limits, or has the defaults where it had none, and is within every bound |
| `Readback.NormalIsStable` | scripts/web_release_readback.py:495-502 | validating what validation returned changes nothing |
| `Readback.PublicRouteInjective` | scripts/validate_deploy_authorization.py:153-171 | no two files share a public route |
| `Readback.PublicReadbackManifest` | scripts/validate_deploy_authorization.py:174-212 | builds a manifest exactly for mappable files within the bounds: a route a published file in order, 404 for the missing page and 200 for every other, the body limit the largest file |
| `Readback.PublishedFiles` | scripts/validate_deploy_authorization.py:174-176 | every file but the deployment configuration is published |
| `Readback.PublicManifestIsValid` | scripts/validate_deploy_authorization.py:174-212 | from distinct files with well-formed digests that manifest is always accepted and its routes are distinct |
| `NpmCache.NormalizeIndex` | scripts/prepare_refresh_dependencies.py:214-262 | writes, for every line whose key no later line holds, that line's key, integrity, size and address with a fixed time, and nothing else, in key order; it raises exactly on an unreadable line or a file without entries |
| `NpmCache.LastLineWins` | scripts/prepare_refresh_dependencies.py:219-250 | the map holds each key with what its last line says |
| `NpmCache.HeldByLine` | scripts/prepare_refresh_dependencies.py:219-250 | and every key it holds is some line's |
| `NpmCache.BeforeMeans` | scripts/prepare_refresh_dependencies.py:256-256 | the key order is decided by the first differing character, a proper prefix coming first |
| `NpmCache.DependsOnContentOnly` | scripts/prepare_refresh_dependencies.py:213-262 | two index files that say the same come out the same |
| `NpmCache.ReorderingKeeps` | scripts/prepare_refresh_dependencies.py:219-250 | reordering lines with distinct keys changes nothing |
| `NpmCache.NormalFormIsFixed` | scripts/prepare_refresh_dependencies.py:251-262 | normalising the written file writes it again |
| `GradeBinding.ValidateGradeBinding` | src/mcp_trust/catalog/runtime_snapshot.py:355-392 | reports a mismatch exactly when no true score or coverage that rounds to the published one explains the letter |
| `GradeBinding.CandidatesAreExact` | src/mcp_trust/catalog/runtime_snapshot.py:365-381 | the two candidate letters are exactly those of the scores within half a cent, after the critical cap |
| `GradeBinding.LevelsAreExact` | src/mcp_trust/catalog/runtime_snapshot.py:383-392 | the same for transparency levels |
| `GradeBinding.LetterScores` | src/mcp_trust/catalog/runtime_snapshot.py:365-381 | the published scores each letter is admitted at, as numbers |
| `GradeBinding.CriticalScores` | src/mcp_trust/catalog/runtime_snapshot.py:365-381 | with a critical finding only D, up to 7.505, and F, above 7.495, are admitted |
| `GradeBinding.LevelScores` | src/mcp_trust/catalog/runtime_snapshot.py:383-392 | the published coverages each level is admitted at |
| `Sanitize.Database.LatestScanRows` | scripts/validate_launch_state.py:47-60 | returns exactly the rows no newer row of their server exists for, ties included |
| `Sanitize.Database.Sanitize` | scripts/build_deploy_bundle.py:191-218 | the two deletions leave exactly the latest rows of unmasked servers, in order |
| `Sanitize.SanitizedIsStable` | scripts/build_deploy_bundle.py:213-218 | in what is left every row is latest, sanitising again changes nothing, and exactly the unmasked servers remain |
| `Sanitize.LaunchAfterSanitizing` | scripts/validate_launch_state.py:102-113 | the launch check then sees no masked server and reports exactly the missing and unseeded ones of the source table |
| `Sanitize.LaunchOnAnyTable` | scripts/validate_launch_state.py:102-113 | on any table: leaked are the masked servers with a scan, missing the unmasked seeded ones without, extra all others with one |

## Left out

- Docker, Buildx, git and subprocess behaviour beyond the effect on tags, outputs and admission; the execution boundary, tool version and tool digest comparisons can fail at any point but are not computed.
- The tool snapshot under `tmp/qualification/tools` and the validation receipt beside it: scratch files that no later run reads as evidence.
- The git readback of the recorded origin revision (`_origin_source_binding_matches`) is part of the manifest binding, a parameter here.
- File ownership, modes, symbolic links, short writes and fsync; the lock is taken to exclude other runs of the same set.
- Other receipt sets that qualify the same cohorts and so move the same final tags.
- Clock monotonicity: every clock reading is arbitrary, so no property rests on it.
- The scope, authority and claim text of a qualification capacity receipt beyond operation, set and cohort.
- CleanupOutcome.CleanupAdmitted: of what another cohort may leave under `tmp/qualification` only build output is modelled; a leftover validation receipt or tool snapshot blocks a cleanup run in the same way.
- QualifyScript.Qualifier.RunCommand: a command that fails has no effect on tags; a removal or load that took effect and then reported failure is not modelled.
- HostCapacity.PercentReaches100: exact arithmetic, where the source divides and multiplies floats.
- GradeBinding.ValidateGradeBinding: exact reals, where the source subtracts half a cent in floats.
- The V20 sanitised and V38 source-review branches of the disposition machine, which repeat the boundary argument with fixed digests.
- Acceptance.BuildPublicationReviewDecision: which of the fourteen candidate-wide checks fail, and whether the preflight is READY and bound, are inputs, because they compare large derived documents field by field; claim texts and tool versions are not modelled.
- Triage.TriageCandidate: findings stay in the order they are added, where the source sorts them at the end.
- Disposition.Slug: a slug is its rank in string order, so sorting by slug is sorting by number.
- Catalog.CatalogInventory: the seed is taken in slug order and image descriptors are reduced to whether they are VERIFIED.
- Sanitize.Database.LatestScanRows: rows come back as a set; the order of ties inside one server is the database's own.
- NpmCache.NormalizeIndex: starts from lines whose JSON is parsed; the SHA-1 in front of a line is never read back by the source.
- Discovery.Probe: header parsing, freshness, redirects and endpoint checks are inside the arbitrary network answer and `restValid`.
- Readback.ValidateManifest: JSON shapes and the bool-or-int distinctions are datatypes; HTTP checks of one route are not modelled.
- The Python lock validator, console-script bindings, base-image and Dockerfile checks: smaller validators of the same kind as the npm one.
- FastAPI routes, markdown and HTML, command lines, launch shell output, the Dockerfile RUN heuristics and the privacy walk.
