# Thimble: a verified model of the store, its codecs and its recipient quorum

Thimble keeps secrets as age-encrypted dotenv bundles, one per namespace (application and
environment), beside a manifest and one origins file per namespace. This project models how those
files are read, edited and committed, by one caller and by many at once, and proves what the
design promises about them. It has three parts.

**The namespace store.** `Files`, `Edits` and `Transactions` give the files, the edits and the
transaction as functions over a map from path to content; `Store` is the store object, whose methods
update that map file by file and are proved against those functions. `StoreLaws` proves what one
operation keeps, whatever writes fail, `StoreEffects` what each operation does, told by what a caller can
observe before and after it, and `StoreOutcomes` what is found after one that succeeded or failed. `Protocol` is the same transaction as a step machine: any number of processes, each file
access its own step, a shared and an exclusive lock, failure possible at every access. `ProtocolBasic`
(all runs), `ProtocolHashes` (bundle hashes over time), `ProtocolSound` (runs whose failures are
repaired), `ProtocolSerial` and `ProtocolReads` (runs in which nobody reads what is then rolled back),
`ProtocolRace` (why that hypothesis is needed), `ProtocolStuck` and `ProtocolBroken` (states that runs do
not recover from) prove properties of every interleaving; `ProtocolSolo` ties the machine to the
transaction run alone, refusals included.

**The dotenv codec.** `Dotenv` is the parser and the printer, with their loops; `DotenvLaws` proves
how far they undo each other.

**The recipient quorum and the peers file.** `Canonical`, `Quorum` and `Gate` are the prepare, sign
and verify calls over the pending directory and the gate in front of the store, one call at a time;
`QuorumLaws` proves what one verification decides, `GateLaws` what one call of the gate does on each of
its paths, `QuorumFlow` and `GateFlow` that the way from prepare over the signatures to the second call is
complete. `GateRuns`
is the gate as a step machine on top of `Protocol`: any number of additions and signatures at once, each
lookup, each file of the pending directory and each step of the store its own step. `GateAlone` and
`GateRefines` show that a call with nobody in between ends, for every request and every state, as `Gate`
says; `GateFlowRuns` is the complete flow in the step machine. `QuorumRecords` and `GateSound` prove what
stands behind an approval in every run, `GateLanding` on which bundle an approved addition lands,
`GateOvertaken` what can come between approval and addition, and `GateStale` how pending metadata comes,
goes and gets stuck. `Peers` and `PeersLaws` are the peers file and its list manager.

`dafny verify dfyconfig.toml` checks everything.

## How the world is modelled

- A Go string is a Dafny `string` in which each `char` is one byte. Nothing bounds a char from above,
  so the laws hold for all byte values.
- age is symbolic: a ciphertext is a fresh id, the recipients it is addressed to and its plaintext;
  it decrypts exactly for those recipients. The SHA-256 of a file is the file's content, so equal
  hashes mean equal files; an empty stored hash lets any file pass, as in the source. JSON files are
  typed values. In the quorum, thumbprints and the hex text of a hash are functions that are not
  looked into; laws that need thumbprints to be distinct on the listed operators say so.
- The policy file is what a call finds when it reads it, once. The pending directory is read and written
  without a lock, file by file.
- A write is one atomic step that may fail without effect, except a challenge or signature file, which
  is written in place and may be left torn. Which accesses fail, the time stamps, the generated values
  and the nonces are arguments of the operations.
- A process that gives up at any point is a failing step.

## What came out differently from the documentation or from expectation

- docs/recipient-quorum.md:158-159 says that refusing a changed bundle hash catches a concurrent
  re-encryption. It catches only one that is over before the call looks up the entry. The lookup, the
  verification and the re-encryption are separate (quorum_gate.go:196-217), and the re-encryption loads the
  entry again. An addition lands on the bundle that was approved if and only if nothing commits to the
  namespace between the call's lookup and its own commit (`GateLanding.LandsOnApproved`). From every store
  with M signatures in place another operation can come in between, and the new recipient then reads values
  that nobody signed for (`GateOvertaken.SignedThenOvertaken`).
- The bootstrap count (quorum_gate.go:107-129) has the same gap: it is right about the entry that is replaced
  under the same condition (`GateLanding.LandsOnCounted`), and two bootstrap additions can both count one
  recipient and leave three (`GateOvertaken.BootstrapOvertaken`).
- Preparations are not serialised. Two calls that found nothing pending both report that signatures are
  awaited, and the second one's metadata has replaced the first one's (`GateStale.OverlapReplaces`).
- Serialisability needs the hypothesis that nobody decrypts a bundle, or loads the origins, between a
  commit's bundle write and the end of its rollback. A mutator that does so passes the version check
  afterwards and publishes the aborted change (`ProtocolRace.DirtyRead`, for every sound store with a
  readable namespace).
- In such runs a recipient operation can re-encrypt an aborted text while the origins file is rolled
  back, so the origins file then names a key its bundle does not hold (`ProtocolRace.OriginOutlivesKey`).
  The hash, the recipients and the printed form of the plaintext stay right in every run in which rollback
  writes and the manifest writes of recipient operations succeed (`ProtocolSound.FilesStaySound`).
- `commitEnv`, used when recipients are added or removed, has no rollback. When its manifest write fails the
  files have changed (`StoreOutcomes.FailedRecipientExact`), and if the entry had a hash every read of the
  namespace fails on it (`StoreOutcomes.AfterFailedManifest`) and so does every further operation run alone
  (`StoreLaws.UnreadableStops`). Only a process that had loaded its entry before can repair it
  (`ProtocolBroken.OnlyLoadedRepairs`), and one that had prepared its commit does (`ProtocolBroken.ReadyRepairs`).
- The length limit of the dotenv scanner applies to the whole encoded line and nothing checks it on
  write. A map over the limit is stored without an error (`StoreOutcomes.OversizeIsStored`) and can never be
  read again (`ProtocolStuck.OversizeNeverRecovers`).
- Names are not checked against the store's own files. `thimble.json` is a valid application name; its
  first bundle makes a directory where the manifest should be, and no other name does
  (`Validate.DirectoryClash`).
- docs/recipient-quorum.md:224-231 asks the maintainer to re-prepare a pending recipient addition whose
  bundle has changed. The code has no such step: once the hash has moved and no call is on its way with what
  it had found before, the pending metadata blocks every later non-bootstrap addition until it is deleted by
  hand (`GateStale.StalePending`).
- A policy operator whose recipient has a space around it passes every check of the policy and can never sign,
  because the caller's recipient is trimmed before it is looked up and the listed one is not
  (`GateFlow.UntrimmedCannotSign`).
- docs/recipient-quorum.md:208 puts the signers of the audit entry in policy order. The code lists them in
  the order of the signature files' names. A verification compares only the policy's M with the snapshot, not
  its operators: the operators counted are those of the snapshot.
- A peer name or target may hold a control byte; the peers file written for it does not load
  (`PeersLaws.RoundTrip`, `PeersLaws.ControlByteAccepted`).

## Model

| member | source | states |
|---|---|---|
| Dotenv.ParseQuotedValue | internal/dotenv/dotenv.go:90-113 | the loop with the backslash flag computes the meaning of a quoted value defined by pairs of characters, with both refusals |
| Dotenv.Parse | internal/dotenv/dotenv.go:40-75 | the scan loop gives the meaning of the text, or the first line's error, the length limit included |
| Dotenv.Encode | internal/dotenv/dotenv.go:130-144 | the printed text: one quoted line per key, in increasing key order |
| DotenvLaws.UnquoteEscape | internal/dotenv/dotenv.go:90-126 | reading an escaped value gives it back, for every byte string |
| DotenvLaws.ParseValueQuote | internal/dotenv/dotenv.go:77-88 | a quoted or bare printed value is read back as the value |
| DotenvLaws.LineRoundTrip | internal/dotenv/dotenv.go:149-164 | a printed line survives trimming and splitting and is read as its key and value |
| DotenvLaws.RoundTrip | internal/dotenv/dotenv.go:130-144 | parsing the printed map gives it back if and only if every encoded line is below the scanner's limit; otherwise it is the too-long error, never another map |
| DotenvLaws.EncodedInjective | internal/dotenv/dotenv.go:130-144 | two maps with the same text are equal once one of them is below the limit |
| DotenvLaws.ParsedKeysValid | internal/dotenv/dotenv.go:28-33 | every key the parser accepts is a valid key |
| DotenvLaws.Normalising | internal/dotenv/dotenv.go:40-75 | printing what was parsed and parsing again changes nothing, as long as the printed lines fit |
| DotenvLaws.Compositional | internal/dotenv/dotenv.go:40-75 | a newline-terminated text followed by another parses exactly when both do, to the first map overridden by the second |
| DotenvLaws.QuoteLength | internal/dotenv/dotenv.go:149-164 | a printed value has between the value's length and twice that plus two bytes |
| DotenvLaws.SmallMapsFit | internal/dotenv/dotenv.go:24 | a size bound on keys and values that makes a write safe |
| DotenvLaws.LargeValuesDoNotFit | internal/dotenv/dotenv.go:24 | a key and value that reach the limit together cannot be read back |
| Validate.PathsDistinct | internal/store/origins.go:61-63 | bundle paths, origins paths and the manifest's path are different strings, and equal bundle or origins paths mean equal namespaces |
| Validate.DirectoryClash | internal/store/validate.go:25-36 | no bundle or origins path is a directory of another file; the manifest's path is one exactly for an application of that name, which is a valid name |
| Validate.CleanedIsCleaned | internal/store/validate.go:77-97 | cleaning a recipient twice is cleaning it once |
| Validate.CleanRecipients | internal/store/validate.go:47-60 | the list is accepted exactly when it is not empty and each entry is valid; the result holds the cleaned entries in order |
| Validate.SortedUnique | internal/store/validate.go:136-148 | the loop with its seen map gives the distinct non-empty values in increasing order |
| Validate.FilterInPlace | internal/store/rotate.go:94-101 | filtering into the array being read keeps exactly the other entries in order, and the tail is what it was |
| Validate.AddKeepsList | internal/store/store.go:145-148 | adding a valid recipient gives the old set and it, sorted, valid, without duplicates |
| Validate.DropIsExact | internal/store/store.go:164-179 | removing succeeds exactly when the recipient is listed and is not the only one, and leaves exactly the others |
| Validate.AddThenDrop | internal/store/store.go:140-185 | adding an absent recipient and removing it again restores the list |
| Files.MergeIntoFrame | internal/store/store.go:439-453 | the merged manifest is the one on disk with one entry replaced, whatever had been loaded before |
| Files.PruneOrigins | internal/store/origins_rewrite.go:76-82 | exactly the origins of present keys remain, unchanged |
| Files.RestoreUndoes | internal/store/origins.go:176-186 | restoring a snapshot undoes a write, and an absent file is absent again |
| Edits.EditKeeps | internal/store/origins_secrets.go:19-152 | every edit keeps keys valid and the recipient list well formed |
| Edits.Workspace.DropRecipient | internal/store/rotate.go:94-109 | the new list is the old set minus the recipient or one of the two refusals; what the shared backing array then holds is stated exactly |
| Edits.Workspace.RotateProvisionedKeys | internal/store/rotate.go:115-145 | provisioned values are regenerated, nothing else changes, and the report is correct |
| Edits.Workspace.Apply | internal/store/origins_secrets.go:19-152 | each operation's closure leaves its edit of recipients, values and origins, or the refusal; what those edits are for a caller is stated by the StoreEffects rows |
| Edits.PutBatch | internal/store/origins_secrets.go:95-126 | the batch loop overrides exactly the batch's keys in values and origins |
| Edits.RotateLoop | internal/store/rotate.go:115-145 | the loop over the sorted keys is the pass that the next row characterises |
| Edits.VisitAllExact | internal/store/rotate.go:115-145 | the pass fails exactly when the generator fails on a provisioned key, and otherwise gives the rotated values, the same origins and both sorted lists |
| Edits.ReportsPartition | internal/store/rotate.go:55-88 | without randoms-only the rotated and needs-attention lists are disjoint and together are the namespace's keys |
| Edits.RotationEffect | internal/store/rotate.go:115-145 | only provisioned values change, no origin changes, and the edit does not depend on the randoms-only flag |
| StoreLaws.RandomsOnlyIsReportOnly | internal/store/rotate.go:55-88 | the randoms-only flag has no effect on disk, whatever writes fail |
| StoreLaws.GeneratorFailureKeepsDisk | internal/store/rotate.go:115-145 | a generator failure on any provisioned key leaves disk unchanged |
| Store.Store.Find | internal/store/store.go:280-305 | the manifest entry or the right error |
| Store.Store.Decrypt | internal/store/crypt.go:36-54 | the hash check on one read, then the decryption of a second read |
| Store.Store.ReadEnv | internal/store/store.go:310-324 | the values and the entry, or the first error on the way |
| Store.Store.EncryptAndWrite | internal/store/crypt.go:14-28 | the bundle is written for the listed recipients and the hash is set only after the write |
| Store.Store.Undo | internal/store/origins_rewrite.go:171-201 | the prior file is rewritten, or removed if there was none |
| Store.Store.CommitEnvWithOrigins | internal/store/origins_rewrite.go:101-145 | the three writes with version check and rollback, for every combination of failing writes |
| Store.Store.CommitEnv | internal/store/store.go:396-424 | the two writes with version check and no rollback, for every combination of failing writes |
| Store.Store.Init | internal/store/store.go:91-135 | the first version of a namespace, or the right refusal |
| Store.Store.CommitInit | internal/store/store.go:103-131 | an existing namespace is refused, otherwise version 1 is committed |
| Store.Store.LoadEnvForEdit | internal/store/store.go:369-388 | the manifest and the entry to edit, or the right error |
| Store.Store.Prepare | internal/store/store.go:332-361 | decrypting, parsing, loading origins and editing give the commit to make and, for a rotation, a correct report |
| Store.Store.Rewrite | internal/store/origins_rewrite.go:33-71 | the whole operation, of rewriteEnv and rewriteEnvWithOrigins alike |
| StoreLaws.AllOrNothing | internal/store/origins_rewrite.go:101-201 | if a write of a value operation fails and the rollback succeeds, every file is what it was and absent files are absent |
| StoreLaws.CommitSucceeds | internal/store/store.go:410-412 | without faults a commit is refused exactly when the version has moved on, and a refusal changes no file |
| StoreLaws.RunJobQuiescent | internal/store/store.go:332-424 | every operation, with any repairable faults, keeps the invariant: hash, recipients, printed plaintext, origins within values |
| StoreLaws.OrphanBundle | internal/store/store.go:124-131 | the bundle left by a failed Init belongs to no entry and changes no view |
| StoreLaws.CommitFrame | internal/store/store.go:439-453 | a commit, from however stale a manifest and with any faults, leaves every other namespace's entry, bundle and origins |
| StoreLaws.FailedRecipientCommit | internal/store/store.go:413-423 | right after a failed manifest write of a recipient operation every read of the namespace fails on the hash, if the entry had one |
| StoreOutcomes.ManifestFailureOccurs | internal/store/store.go:413-423 | that failure happens to every recipient operation that gets as far as its commit |
| StoreOutcomes.FailedRecipientExact | internal/store/store.go:396-424 | a recipient operation that fails leaves the files unchanged if and only if it was not the manifest write that failed |
| StoreOutcomes.AfterFailedManifest | internal/store/store.go:413-423 | what anybody reads then: the hash error if the entry had a hash, otherwise the old text for exactly the new list of recipients |
| StoreOutcomes.ReadsBackExactly | internal/store/store.go:310-324 | after a successful operation a listed recipient reads back exactly the committed values if and only if they are below the limit, otherwise the parser's error; nobody else can decrypt |
| StoreOutcomes.OversizeIsStored | internal/store/origins_rewrite.go:48-70 | on every sound store and readable namespace, setting a value over the limit succeeds, and every listed recipient then gets the parser's error |
| StoreEffects.CreateEffect | internal/store/origins_secrets.go:19-43 | refused for a bad key or a key that is there, with no file changed; otherwise only a failing write stops it, and then everybody listed reads the old map with the key added, the origins have its label, and the version is one up |
| StoreEffects.UpdateEffect | internal/store/origins_secrets.go:47-71 | the same for a key that must be there: everybody listed reads the new value |
| StoreEffects.SetEffect | internal/store/origins_secrets.go:75-93 | the same whether the key is there or not |
| StoreEffects.SetBatchEffect | internal/store/origins_secrets.go:97-126 | the whole batch overrides values and origins, or an empty batch or any bad key refuses it |
| StoreEffects.DeleteEffect | internal/store/origins_secrets.go:132-152 | the key and its origin are gone, or the refusal |
| StoreEffects.AddRecipientEffect | internal/store/store.go:140-157 | exactly the old recipients and the new one read the same map afterwards |
| StoreEffects.RemoveRecipientEffect | internal/store/store.go:162-190 | exactly the others read the same map afterwards and the removed one cannot decrypt; refused exactly for an absent or the last recipient |
| StoreEffects.RemoveAndRotateEffect | internal/store/rotate.go:59-145 | the removed recipient cannot decrypt, the others read the map with every provisioned value replaced, or the old map without rotation, and origins stay; refused exactly for an absent recipient, the last one, or a failing generator |
| StoreEffects.InitEffect | internal/store/store.go:91-135 | a new entry at version 1 that exactly the listed recipients read as empty; refused exactly for a bad name, a bad or empty list, or an existing entry; a failing write leaves no entry |
| StoreEffects.UnreadableEffect | internal/store/store.go:332-361 | an operation whose caller cannot read the namespace ends with the reader's error and no file changed |
| StoreEffects.BadNameEffect | internal/store/validate.go:25-36 | a bad name refuses every operation |
| StoreLaws.RunJobFreshIds | internal/store/crypt.go:14-28 | no operation, whatever fails, stores a ciphertext that is not new |
| StoreLaws.UnreadableStops | internal/store/store.go:332-361 | an operation on a namespace that cannot be read fails and changes no file |
| StoreLaws.OversizeIsStuck | internal/store/store.go:348-355 | once a bundle holds a map over the limit every read and every operation on it fails and changes no file |
| StoreLaws.PreparedByView | internal/store/store.go:369-388 | the commit depends only on what the namespace holds, up to the hash it replaces |
| ProtocolBasic.BasicStep | internal/store/lock_unix.go:24-61 | every step of every process, whatever fails, keeps the lock discipline, the manifest's shape and each process's relation to the current version |
| ProtocolBasic.MutualExclusion | internal/store/lock_unix.go:33-48 | while one process is in its critical section no other is, and nobody is loading the manifest |
| ProtocolBasic.VersionConservation | internal/store/store.go:346-362 | in every run a version number is the initial one plus the number of successful commits, and no two commits create the same version |
| ProtocolBasic.LosersLeaveNoTrace | internal/store/store.go:404-412 | the version check is passed exactly when the loaded version is still current; a loser changes no file and releases the lock |
| ProtocolSound.OutsideEffect | internal/store/crypt.go:36-54 | a step outside the critical section writes nothing |
| ProtocolSound.OtherNamespacesUntouched | internal/store/store.go:439-453 | in every run no step touches another namespace's entry, bundle or origins file |
| ProtocolSound.FilesStaySound | internal/store/origins_rewrite.go:101-201 | in every run in which rollback writes and the manifest writes of recipient operations succeed, whenever the exclusive lock is free every entry agrees with its bundle |
| ProtocolSound.RollbackIsExact | internal/store/origins_rewrite.go:150-201 | the end of a rollback leaves every file as it was at the step that took the lock |
| ProtocolSerial.FilesOfIdleNamespace | internal/store/crypt.go:36-54 | outside a commit on its namespace, what an unlocked reader finds is the committed state |
| ProtocolSerial.Serialisable | internal/store/origins_rewrite.go:33-145 | in every quiet run (no process decrypts the bundle or loads the origins of a namespace between a bundle write and the end of its rollback) replaying the successful operations alone in commit order succeeds and gives the same store |
| ProtocolSerial.CleanIsQuiet | internal/store/origins_rewrite.go:101-145 | runs in which no commit fails after its bundle write are quiet, whoever reads when |
| ProtocolSerial.QuietRunsStayQuiescent | internal/store/origins_rewrite.go:76-145 | in quiet runs the full invariant holds whenever the exclusive lock is free |
| ProtocolReads.SnapshotReads | internal/store/store.go:310-324 | in quiet runs a successful read returns the complete map of one version, at least as new as the entry it returns: one of the serial history or the one being committed |
| ProtocolRace.AbortedIsPublished | internal/store/origins_rewrite.go:48-70 | for any two operations there is a run with one failed and exactly rolled back commit after which the other has committed what it computed from the aborted text |
| ProtocolRace.DirtyRead | internal/store/origins_rewrite.go:101-145 | from every sound store with a readable namespace such a run exists that is not quiet and not serialisable: the store holds a value that only the failed operation tried to set |
| ProtocolRace.OriginOutlivesKey | internal/store/store.go:396-424 | such a run leaves an origins file that names a key its bundle does not hold |
| ProtocolStuck.OversizeNeverRecovers | internal/store/origins_rewrite.go:48-55 | after a commit of a map over the limit, in every continuation, entry and bundle stay and no later process completes a read or a commit on the namespace |
| ProtocolBroken.OnlyLoadedRepairs | internal/store/store.go:413-423 | after a failed manifest write of a recipient operation, in every continuation: a process that had loaded its entry before commits, or no process that had not completes a read or a commit on the namespace |
| ProtocolBroken.ReadyRepairs | internal/store/store.go:404-412 | a process that is ready with a commit for the current version commits it, and its recipients can read again |
| ProtocolHashes.RunHashed | internal/store/crypt.go:14-28 | in every run no commit under way or to come can give an entry a hash that an entry has now |
| ProtocolHashes.MovedForGood | internal/store/store.go:396-424 | a hash the manifest has moved past never comes back, whoever runs and whatever fails |
| ProtocolSolo.SoloEnds | internal/store/store.go:332-364 | an operation whose steps run alone ends, commits or is refused exactly as the whole operation in one call |
| Canonical.Injective | internal/quorum/canonical.go:29-38 | on valid names and colon-free hash and nonce, equal messages have all five fields equal, though the recipient may hold colons |
| Canonical.NonceOf | internal/quorum/canonical.go:29-38 | equal messages have equal nonces, whatever the other fields hold |
| Canonical.NotInjectiveOnRawNames | internal/quorum/canonical.go:29-38 | with names that are not validated two different additions share a message |
| Canonical.AcceptsExactly | internal/quorum/canonical.go:55-61 | the check accepts exactly the message followed by CR and LF bytes, and nothing when the nonce itself ends in one |
| Quorum.ValidatePolicy | internal/quorum/policy.go:213-247 | accepted exactly when M is between 1 and N, names and recipients are non-empty and unique |
| Quorum.FindByRecipient | internal/quorum/policy.go:252-260 | the operator whose recipient is the trimmed argument, or none exactly when there is none |
| Quorum.OperatorByThumb | internal/quorum/sign.go:143-150 | a listed operator with that thumbprint, or none exactly when there is none |
| Quorum.Pending.PrepareAdd | internal/quorum/prepare.go:35-76 | the challenges of all operators and then the metadata, or what a failure at any write leaves |
| Quorum.Pending.SignAdd | internal/quorum/sign.go:39-100 | one signature file is written or nothing changes but a torn file, with every refusal in order |
| Quorum.CollectValidSignatures | internal/quorum/verify.go:116-159 | the walk over the sorted directory with its seen map |
| Quorum.DescribeMissing | internal/quorum/verify.go:163-178 | the text naming, in policy order, the operators not present |
| Quorum.Pending.Verify | internal/quorum/verify.go:42-75 | the signers' thumbprints and names, or why verification refuses |
| QuorumLaws.CollectedIsSigners | internal/quorum/verify.go:116-159 | the walk counts each operator with a valid signature file exactly once and nobody else |
| QuorumLaws.SomebodyMissing | internal/quorum/verify.go:163-178 | with unique names and fewer signers than operators the missing list is not empty |
| QuorumLaws.VerifyDecides | internal/quorum/verify.go:61-67 | Verify succeeds if and only if at least M distinct operators have a valid signature file, reports exactly them, and otherwise names exactly the operators not counted |
| QuorumFlow.PrepareOpens | internal/quorum/prepare.go:35-113 | refused exactly for empty fields or a recipient who is an operator; otherwise the metadata names the addition, bundle, policy and the caller as verifier, every operator has a challenge only they can open, and no signature file is touched |
| QuorumFlow.SignReaches | internal/quorum/sign.go:39-100 | every listed operator can sign what is pending, into a file that the verifier named in the metadata can read |
| QuorumFlow.SignsOnlyPending | internal/quorum/sign.go:39-138 | whatever fails, a signature is only for the addition that is pending, by somebody who decrypted their challenge, and changes one file |
| QuorumFlow.SignerCounts | internal/quorum/verify.go:116-159 | a signature adds exactly that operator to those counted for the verifier |
| QuorumFlow.JoinSplits | internal/quorum/verify.go:163-178 | the joined text of a refusal falls apart at each separator into the joined halves, so no name is lost, added or moved |
| QuorumLaws.ClearedForgets | internal/quorum/meta.go:102-104 | once a removal has reached meta.json nothing can be verified or signed, whatever else it left, and no file it leaves is changed |
| QuorumLaws.PrepareWrites | internal/quorum/prepare.go:48-75 | whatever fails, PrepareAdd writes only challenges of its own message, each addressed to one operator, possibly torn, and at last its own metadata |
| QuorumRecords.DecryptedSigner | internal/quorum/sign.go:57-86 | whoever decrypts a challenge that matches the metadata is the listed operator it was addressed to, and the challenge is of that very preparation |
| QuorumRecords.CountedSigned | internal/quorum/verify.go:116-159 | whoever is counted decrypted their own challenge and signed exactly this metadata |
| Gate.Gate.AddRecipientV2 | internal/store/quorum_gate.go:64-85 | one gated addition: legacy, bootstrap, prepare or verify, with every refusal in order and every failing write |
| Gate.Gate.Prepare | internal/store/quorum_gate.go:157-191 | the prepare phase |
| Gate.Gate.Verify | internal/store/quorum_gate.go:196-235 | the verify phase: verification, then the commit, then the clearing, whose failure is only reported |
| Gate.Gate.Bootstrap | internal/store/quorum_gate.go:107-129 | refused from two recipients on |
| Gate.Gate.ApplyTo | internal/store/quorum_gate.go:240-245 | the ordinary recipient operation on the store |
| Gate.CheckOperators | internal/store/quorum_gate.go:270-279 | accepted exactly when every listed recipient is valid |
| GateLaws.AddDir | internal/store/quorum_gate.go:136-150 | a call run alone changes the pending directory only by preparing when nothing is pending or by clearing |
| GateLaws.RejectedAtOnce | internal/store/quorum_gate.go:64-85 | a bad recipient, a rejected policy file and a policy with an unusable operator are errors that change nothing |
| GateLaws.WithoutPolicy | internal/store/quorum_gate.go:90-101 | without a policy file the answer and the store are those of the store's own operation, bootstrap or not |
| GateLaws.BootstrapDecides | internal/store/quorum_gate.go:107-129 | under a policy a bootstrap call is refused, with nothing changed, exactly for a missing entry or from two recipients on; below that it is the store's own operation |
| GateLaws.OtherPending | internal/store/quorum_gate.go:136-150 | metadata for another recipient or namespace, or unreadable metadata, refuses the addition and changes nothing |
| GateLaws.AddedByOperation | internal/store/quorum_gate.go:240-245 | on every path an addition that succeeds is the store's own operation for that namespace and recipient |
| GateLaws.AddBehindVerify | internal/store/quorum_gate.go:196-235 | under a policy a non-bootstrap call run alone reaches the store only behind a successful verification against the current entry |
| GateLaws.GateDecides | internal/store/quorum_gate.go:196-235 | with matching fresh metadata the gate opens if and only if at least M operators have signed and the store commits; short of signatures nothing changes |
| GateLaws.AddedExactly | internal/store/quorum_gate.go:240-245 | an addition, gated, bootstrap or without a policy, adds exactly that recipient to that namespace, moves its version by one and touches no other namespace |
| GateFlow.FirstCall | internal/store/quorum_gate.go:157-191 | with nothing pending the first call prepares for the entry's hash and changes no store file, or refuses exactly for an entry without a hash or a recipient who is an operator |
| GateFlow.SignsOnlyListed | internal/store/quorum_sign.go:30-98 | a signing call does something only under a valid policy that lists the caller, for the pending addition, and only to the caller's own file |
| GateFlow.UntrimmedCannotSign | internal/quorum/policy.go:252-260 | an operator listed with a space around the recipient can never sign |
| GateFlow.FlowCompletes | internal/store/quorum_gate.go:136-235 | from a directory without metadata and signatures: the first call awaits signatures, after any of the policy's operators have signed exactly they are counted, and the second call adds the recipient if and only if at least M have signed and the store's operation succeeds |
| GateRuns.StoreProjection | internal/store/quorum_gate.go:240-245 | underneath any run of the gate runs the store protocol, so all that is proved of its runs holds there |
| GateAlone.CountsAlone | internal/store/quorum_gate.go:107-129 | a bootstrap call that is alone is allowed exactly when the entry has fewer than two recipients |
| GateAlone.PreparationReplaces | internal/quorum/prepare.go:35-76 | a preparation that has begun writes file by file what PrepareAdd writes, over whatever is pending by then |
| GateAlone.VerifiesAlone | internal/quorum/verify.go:42-75 | a verification that is alone counts step by step what Verify counts, and is allowed exactly with at least M distinct signers |
| GateAlone.SignsAlone | internal/store/quorum_sign.go:30-68 | a signing call that is alone does step by step what one call does, refusals included |
| GateRefines.AddAlone | internal/store/quorum_gate.go:64-245 | for every request, policy file, directory and store: the steps of an addition with nobody in between and no failing access end with the store, the directory and the answer of one call |
| GateFlowRuns.FlowRuns | internal/store/quorum_gate.go:136-235 | the complete flow in the step machine: exactly the signers are counted, and the second call is granted if and only if at least M have signed and the store's operation succeeds, with the store as that operation leaves it and nothing pending |
| GateSound.RecordedStep | internal/store/quorum_sign.go:30-68 | every step of every call keeps every pending file explained by a recorded preparation or signature, and what every call knows true |
| GateSound.QuorumSound | internal/quorum/verify.go:42-75 | at every moment of every interleaving in which signature files come from SignAdd and nonces do not repeat: behind a verification that has succeeded stand at least M distinct operators of the prepared snapshot who each decrypted their own challenge and signed exactly the metadata it checked, for this addition and the entry it found |
| GateSound.GateNeedsQuorum | internal/store/quorum_gate.go:196-235 | under a policy a non-bootstrap call changes the store only by starting the recipient operation for its own namespace and recipient, and only behind that quorum |
| GateLanding.LandsOnApproved | internal/store/quorum_gate.go:196-217 | in every run, when a gated addition is about to commit, the bundle it replaces is the approved one if and only if nothing was committed to the namespace since the call looked up the entry |
| GateLanding.LandsOnCounted | internal/store/quorum_gate.go:107-129 | the same for a bootstrap addition and the entry it counted |
| GateLanding.ApprovedText | internal/store/quorum_gate.go:240-245 | in a quiet run, with nothing committed in between, the new recipient gets exactly the text of the approved bundle |
| GateOvertaken.ApprovalOvertaken | internal/store/quorum_gate.go:207-217 | from every state in which a call is allowed to add, any operation on the namespace can run to its end first; the hash is then another one and the addition still succeeds on top of it |
| GateOvertaken.SignedThenOvertaken | internal/store/quorum_gate.go:196-217 | the whole run from M signatures: verified against the hash, replaced, and the new recipient reads the values nobody signed for |
| GateOvertaken.BootstrapOvertaken | internal/store/quorum_gate.go:107-129 | from every store with fewer than two recipients two bootstrap additions can both count and both add |
| GateStale.MetaStep | internal/quorum/meta.go:79-104 | which steps write or remove pending metadata, and that no other step touches it |
| GateStale.PendingEnds | internal/store/quorum_gate.go:217-227 | in every run pending metadata goes away exactly by hand, by the clearing of an addition with its quorum, or under a preparation that overlapped |
| GateStale.RunPendingSettled | internal/store/quorum_gate.go:157-174 | in every run no commit still to come can give an entry the hash that is pending, or being prepared |
| GateStale.StalePending | internal/store/quorum_gate.go:136-150 | in every reachable state whose pending hash is not the entry's and with no call still on its way, in every continuation without deletion by hand: it stays pending, and every non-bootstrap call under a policy changes nothing and ends refused |
| GateStale.OverlapReplaces | internal/store/quorum_gate.go:136-191 | from every state with nothing pending two calls can both prepare and both report success, and only the second one's metadata is pending |
| Peers.ParsePeers | internal/peer/peers_toml.go:14-42 | the line loop gives the meaning of the file or the first error |
| Peers.FinalizePeers | internal/peer/peers_toml.go:48-66 | the first unacceptable entry in file order |
| Peers.FinalError | internal/peer/peers_toml.go:48-66 | no error exactly when all entries are valid and names are unique |
| Peers.EncodePeers | internal/peer/peers_toml.go:131-143 | the header and one section per peer |
| Peers.FindPeer | internal/peer/peer.go:82-89 | a peer of that name, or none exactly when there is none |
| Peers.Manager.Load | internal/peer/peer.go:52-68 | the parsed list, an empty one for an absent file, or the parse error |
| Peers.Manager.Find | internal/peer/peer.go:82-89 | the first peer of that name |
| Peers.Manager.Add | internal/peer/peer.go:94-103 | the peer at the end of the list, or the refusal and no change |
| Peers.Manager.Remove | internal/peer/peer.go:108-116 | the list without that peer, or the refusal and no change |
| Peers.Manager.Save | internal/peer/peer.go:120-126 | the printed list replaces the file, or nothing changes |
| PeersLaws.QuotedHasNoComment | internal/peer/peers_toml.go:71-85 | a '#' inside the quoted string is not a comment |
| PeersLaws.UnquoteQuoted | internal/peer/peers_toml.go:117-126 | a quoted name or target is read back exactly when it is printable, and refused otherwise |
| PeersLaws.RoundTrip | internal/peer/peers_toml.go:14-143 | saving a valid ASCII list and loading it gives it back if and only if every byte is printable; otherwise loading fails |
| PeersLaws.ControlByteAccepted | internal/peer/peer.go:131-165 | next to every acceptable peer there is one that is accepted and cannot be loaded back |
| PeersLaws.ParsedIsValid | internal/peer/peers_toml.go:48-66 | whatever loads is a valid list with unique names |
| PeersLaws.AddExact | internal/peer/peer.go:94-103 | a peer is added, at the end, exactly when it is valid and its name is new |
| PeersLaws.AddThenRemove | internal/peer/peer.go:94-116 | adding keeps the list valid and removing the peer again restores it |
| PeersLaws.RemoveExact | internal/peer/peer.go:108-116 | removal succeeds exactly for a listed name, keeps the list valid and takes out nothing else |

## Left out

- The age subprocess, its timeouts, identity file modes and the pinning of its binary: foreign calls, replaced by symbolic encryption.
- SHA-256, JSON encoding, clocks and random sources: library code, replaced by an injective hash, typed values and arguments.
- Directories: a path is a string, and a write makes no directory in its way. `Validate.DirectoryClash` says for which names that matters.
- Crashes in the middle of a write, fsync, permissions and the case folding of file systems: a write is one step.
- The version number of an entry is a Go uint64; here it is unbounded, so its wrap-around after 2^64 commits is not modelled.
- `parsePolicy`, the text parser of the policy file: the gate takes a policy file as absent, unusable or parsed. Its line syntax is that of the peers file, which is modelled.
- Signature files that do not come from `SignAdd`, and a replaced `meta.json`: the soundness of the quorum is stated for pending files written by the program, any of which may be lost at any time.
- A change of the policy file between two reads of one call: a call reads it once. Calls with different policy files are covered.
- PeersLaws.RoundTrip: stated for ASCII names and targets; which non-ASCII characters count as printable is decided by tables of the Go library, and the model copies their bytes.
- `Store.AddRecipient` without a gate is an ordinary recipient operation of the store; the quorum properties are about `AddRecipientV2`.
- `SetSecrets` checks its arguments key by key; the model refuses a batch with any invalid key with one error, whichever key is met first.
- Rendering, listing and catalogues of stores, passphrase generation, the shell guard, doctor and audit output: one branch settles each of their properties.
- Push, ping and heartbeat between peers, and the web interface: network and user interface.
- The audit log: best effort, it never changes the committed state.
- Windows locking and the fault hooks of the tests: covered by the failing steps.
