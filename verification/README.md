# SortingHat: a model of the crash-safe, journalled file move

SortingHat watches chosen folders, proposes a destination for each finished file and moves it only when a
person approves. This project models the service, its journal, its file primitives and its rules in Dafny
and proves what they promise about files, the journal and recovery.

## How it is built

- `Model.dfy` holds the entities. What the program is given by its surroundings (mount layout, case
  folding, streaming hash, glob library) is an uninterpreted `Env`; that two contents do not collide
  is asked only where a statement says so, and only of the two contents compared.
- `Machine.dfy` is the protocol as a state machine. A `World` is everything that survives a crash (the file
  map, the journal rows, the saved state) and the process; an `Action` is one atomic change: one file
  system call, one look that recovery takes at a path, one journal commit, one save, a crash, a load, or
  any write by another process. A `Run`
  is a finite history of worlds, `Legal` if it starts from a fresh installation and every action was enabled.
- `Invariants.dfy`, `QueueProofs.dfy` and `FlightProofs.dfy` hold the invariant and its preservation.
- `FileTheorems.dfy`, `UndoTheorems.dfy`, `JournalTheorems.dfy`, `RecoveryTheorems.dfy` and
  `EvidenceTheorems.dfy` state the results about all legal runs. `Counterexamples.dfy` and
  `CopyCounterexample.dfy` hold runs that break promises the code does not keep without exception; the
  exact conditions under which it keeps them are in `Exposure.dfy`, `UndoTheorems.dfy`, `CopyUndo.dfy` and
  `JournalTheorems.dfy`.
- `FileSystem.dfy`, `Journal.dfy`, `Service.dfy`, `Rules.dfy`, `Walk.dfy` and `Paths.dfy` are the program's
  objects and algorithms; `Scanning.dfy` says what a scan finds due and keeps account of it. A ghost `History` is shared by file system and service: every durable step is
  recorded as an action that must be enabled, so each method's `Grows` clause says that whatever it
  does, on every path and at every failing call, continues a legal run. All results about runs therefore
  hold of the methods, at every point at which they may stop.
- A parameter `alone` says that no other process writes during the call; without it files change
  arbitrarily between any two calls. `faults` is the set of system calls that fail this time; in a loop a
  call may fail in any round. With `alone` the contracts say exactly when an operation succeeds and what
  the files are afterwards.

- The contracts name states, fields and limits one by one rather than by the program's own predicates: what the
  program computes is proved equal to what they say.

## Where code and documentation differ

- The written product contract (line 28 of its file at the repository root) asks for samples of inode, size,
  mtime and ctime; the identity in the code (crates/sortinghat-fs/src/lib.rs:39-44) has no ctime, and neither
  has the model.
- Its line 34 lists `failed_safely`; the service never enters it. The journal still allows it, as in the code.
- Its line 23 and the statuses in memory suggest that a decision is durable; it is in the journal, but the
  queue item waits again if the process dies before the save (`Counterexamples.UnsavedDecisionReturns`;
  `JournalTheorems.DecisionLastsIffSaved` is the exact condition). Its entry is no longer Proposed, so it
  can never be approved.
- A target named `.sortinghat-<id>.stage` on another file system shows an unfinished copy while the entry
  says Copying (`Counterexamples.StagingNameIsExposed`; `Exposure.UntruthfulIff` is the exact condition,
  known when the approve begins). The publication then fails and nothing is lost.
- A choice that was journalled but not saved can make an undo look in the wrong place: after a crash at
  SourceRemoved, recovery completes the entry at its own destination but marks completed the stale item
  (crates/sortinghat-service/src/lib.rs:959-973), and the undo takes its path from the item
  (`Counterexamples.StaleUndoMissesItsFile`, `Counterexamples.StaleUndoMovesFromElsewhere`). An undo always
  runs back to the source its entry names; it leaves from the destination its entry names exactly unless
  that has happened (`UndoTheorems.UndoGoesByTheEntry`). No file is lost or overwritten in either case.
- For the same reason the refusal to undo a move between file systems has an exception: the devices compared
  (crates/sortinghat-service/src/lib.rs:672-676) are those of the item's paths, so a stale item on the file
  system of the source lets the undo of a copy be journalled (`CopyCounterexample.UndoOfACopyIsJournalled`).
  `CopyUndo.JournalledIff` is the exact condition, known when the undo begins; without a stale item only
  renames are undone (`UndoTheorems.OnlyRenamesAreUndone`).
- An entry settled by an attempt to open that dies before it saves the queue is not settled again, so its item
  keeps waiting at a revision that can never be approved (`Counterexamples.FlagIsLost`;
  `RecoveryTheorems.OutcomeReachesTheItemIff` is the exact condition, known when the attempt begins).
- MAX_ACTIVE bounds insertions only: Completed to Undoing adds an active entry, and recovery reads at
  most 1000. The recovery results therefore ask for at most 1000 unfinished entries at the start.

## Model

| member | source | states |
|---|---|---|
| FileTheorems.Conservation | crates/sortinghat-service/src/lib.rs:509-697 | over any legal run without outside writers (any mix of commands, failing calls, crashes and restarts), the number of paths holding given bytes never falls below what it was at any earlier moment at which no move was under way |
| FileTheorems.NoOverwrite | crates/sortinghat-fs/src/lib.rs:190-218 | whatever other processes do, a step of the service leaves every occupied path as it is, or takes its file to the target of the move (the source, or the recorded staging file), or unlinks the source of a verified copy, or writes the very staging file it has open |
| UndoTheorems.MovesFollowTheJournal | crates/sortinghat-service/src/lib.rs:573-607 | a watched file changes only while the durable entry of a move is Approved, Copying, Published or Undoing; an approve runs between exactly the two paths its entry names, an undo runs back to the source its entry names, and it leaves from the destination its entry names if and only if recovery never completed the entry for a stale item |
| FileTheorems.ApproveStopsTruthfully | crates/sortinghat-service/src/lib.rs:573-613 | wherever an approve stops (after any step, at an error or a crash) the journal state is true of the files: Approved, the file is at exactly one of the two paths; Copying, the source is intact and the target absent or a full copy; Published, the target holds all the bytes; SourceRemoved and Completed, only the target does; and no third path but the staging file has changed. Excepted is a copy to another file system onto a target that bears the staging name |
| Exposure.UntruthfulIff | crates/sortinghat-service/src/lib.rs:589-601 | the exception is exact: an approve that has just begun can, without outside writers, leave an untrue journal state if and only if it will pass its checks, the target is on another file system and bears the staging name, and the source is not empty |
| Counterexamples.StagingNameIsExposed | crates/sortinghat-service/src/lib.rs:593-601 | a legal run in which an item renamed to its own staging name shows an unfinished copy at the target while its entry says Copying |
| FileTheorems.UndoStopsSafely | crates/sortinghat-service/src/lib.rs:677-691 | wherever an undo stops without outside writers, the file is at exactly one of its two paths if and only if it was at the first when the undo began; no other path has changed; and Undone is committed only with the approved identity back at the original path |
| UndoTheorems.UndoHoldsItsFileIff | crates/sortinghat-service/src/lib.rs:677-691 | without outside writers since an undo began, no third path changes wherever it stops, and the file is at exactly one of the two paths its entry names if and only if a file was at the destination the entry names when the undo began; this also holds of an undo that starts elsewhere, unless the approved identity is found where it starts |
| UndoTheorems.StrayUndoSparesItsFile | crates/sortinghat-service/src/lib.rs:628-686 | even then, an undo that starts elsewhere leaves the file at the destination its entry names as it is |
| UndoTheorems.UndoKeepsItsFile | crates/sortinghat-service/src/lib.rs:677-691 | without outside writers since its entry was completed (by an approve or by recovery, on evidence still true) the approved file is still at the destination the entry names when an undo begins, and wherever the undo stops the file is at exactly one of the two paths the entry names; this includes an undo that starts elsewhere, unless the approved identity is found where it starts |
| UndoTheorems.UndoFindsItsFile | crates/sortinghat-service/src/lib.rs:677-691 | an undo whose entry did not go astray starts, under the same conditions, where the approved file is |
| UndoTheorems.StraightUndoRests | crates/sortinghat-service/src/lib.rs:677-691 | an undo whose entry did not go astray meets both conditions of UndoKeepsItsFile, with the very identity that was approved |
| UndoTheorems.OnlyRenamesAreUndone | crates/sortinghat-service/src/lib.rs:672-679 | under any interference, over all runs, an undo that is journalled undoes an entry whose two paths are on one file system, or one that has gone astray |
| CopyUndo.JournalledIff | crates/sortinghat-service/src/lib.rs:633-679 | an undo that has just begun can, without outside writers, come to be journalled if and only if the item resolves to a path on the file system of the source, the original name is free and the entry is Completed at the revision of the item; for an entry between two file systems this happens only if the entry went astray |
| CopyCounterexample.UndoOfACopyIsJournalled | crates/sortinghat-service/src/lib.rs:363-378 | a legal run without outside writers in which a copy to another file system was completed by recovery for a stale item: its undo passes the device check, is journalled, and finds no file where it looks, the copy being the only file there is |
| UndoTheorems.UndoGoesByTheEntry | crates/sortinghat-service/src/lib.rs:628-629 | under any interference an undo runs back to its entry's source, and leaves from its entry's destination if and only if recovery never completed the entry for an item that resolved elsewhere |
| UndoTheorems.CompletedItemNamesItsEntry | crates/sortinghat-service/src/lib.rs:959-973 | the same before the call: a completed item resolves to its entry's destination if and only if its entry did not go astray |
| Counterexamples.StaleUndoMissesItsFile | crates/sortinghat-service/src/lib.rs:959-976 | a legal run without outside writers in which a choice was journalled but not saved, recovery completed the entry for the stale item, and the undo looks for the file at a path its entry does not name, where there is none |
| Counterexamples.StaleUndoMovesFromElsewhere | crates/sortinghat-service/src/lib.rs:628-686 | the same run with one rename by another process: the undo moves the file from a path its entry does not name |
| FileTheorems.RetirementIsSafe | crates/sortinghat-fs/src/lib.rs:345-367 | under any interference, whichever paths were touched and when, the source is unlinked only while it has the approved identity and the digest that the target was seen to hold, earlier in the same move, when it was verified; unless the two contents collide, the bytes removed are the bytes then at the target |
| FileTheorems.CopyOutlivesSource | crates/sortinghat-fs/src/lib.rs:345-367 | if nobody replaced the target during the move, the verified copy is still there when the source is unlinked |
| FileTheorems.FoldUniquenessSurvives | crates/sortinghat-fs/src/lib.rs:518-531 | a completed approve or undo without outside writers keeps directories free of names that are equal after case folding, staging name included |
| FlightProofs.RunKeepsInv | crates/sortinghat-service/src/lib.rs:509-697 | the invariant of queue, journal, saved state and move under way holds at the end of every legal run, whatever other processes wrote |
| JournalTheorems.EntryHistory | crates/sortinghat-journal/src/lib.rs:327-344 | over all runs and restarts the states of an entry are the first few of proposed, approved, (copying,) published, source removed, completed, undoing, undone, in this order, or such a beginning that stops in the middle of an operation followed by needs attention, or a proposal followed by ignored; so they start at Proposed, never repeat (at most one Approved), number at most eight, and end in the entry's present state |
| JournalTheorems.StepMovesRow | crates/sortinghat-journal/src/lib.rs:183-254 | one step of the machine leaves an entry alone, records its digest while Copying, redirects it while Proposed, or moves it by an allowed transition of higher rank; the last two raise the revision by exactly one |
| JournalTheorems.RowsComeAndGo | crates/sortinghat-journal/src/lib.rs:279-300 | entries appear only under identifiers never used before, as Proposed at revision 1; a step removes an entry if and only if it is completed, undone, failed safely or ignored, and the step is the age pass and finds it older than thirty days, or the count pass and 10,000 finished entries were changed later |
| JournalTheorems.RevisionUsedOnce | crates/sortinghat-journal/src/lib.rs:183-213 | over all runs and restarts at most one step ever takes an entry away from a given revision |
| JournalTheorems.RevisionBinding | crates/sortinghat-service/src/lib.rs:557-576 | in memory and on disk a proposal's revision is at most its entry's, its source path is the entry's, and while the revisions are equal and the entry is Proposed the destination it resolves to is the entry's |
| JournalTheorems.QueueIsSound | crates/sortinghat-service/src/lib.rs:699-729 | in every reachable state, in memory and on disk, proposals have distinct identifiers and identities, at most one waits per root and relative path, at most 1000 wait, roots have distinct identifiers and paths and are at most 16, and the stored rules are valid |
| JournalTheorems.SavedDecisionIsFinal | crates/sortinghat-service/src/lib.rs:135-156 | once the saved queue shows a decision the item never waits again, on disk or in memory, in any continuation |
| JournalTheorems.DecisionLastsIffSaved | crates/sortinghat-service/src/lib.rs:1041-1058 | a decision taken in memory survives every continuation if and only if the saved queue no longer shows the item waiting |
| Counterexamples.UnsavedDecisionReturns | crates/sortinghat-service/src/lib.rs:459-471 | a legal run in which an ignored item waits again after a crash between the journal commit and the save, its entry being Ignored |
| JournalTheorems.PruneIsExact | crates/sortinghat-service/src/lib.rs:1010-1030 | pruning keeps every item that waits or needs attention, and of those completed, ignored or undone exactly the last 10,000, in order |
| EvidenceTheorems.CompletedOnlyForTheApprovedFile | crates/sortinghat-service/src/lib.rs:945-981 | whatever other processes do before or after the crash, and between the looks of recovery and its commit, recovery completes an entry only from SourceRemoved, and only if earlier in the same recovery, while this very entry was next, it saw the source gone and after that the destination holding a file of the approved size and recorded digest: the file with the approved identity if it was only renamed, and one with the digest of the original source (with its bytes, unless the two contents collide) if the digest was recorded by a move whose source nobody had touched |
| RecoveryTheorems.RecoveryConverges | crates/sortinghat-service/src/lib.rs:943-1008 | however often opening is interrupted and repeated on unchanged files, the attempt that finishes (at most 1000 unfinished entries) has changed no file; no entry is approved, copying, published, source removed or undoing; one that was approved, copying, published or undoing needs attention, one that was source removed is completed if and only if the source is gone and the destination shows the size and digest (or the very identity) of the item, and needs attention otherwise, each at one revision more and with nothing else changed; all others are as they were (if an attempt was already under way, provided that what it had seen was still so) |
| RecoveryTheorems.SettledItemsFollow | crates/sortinghat-service/src/lib.rs:963-1004 | the items of the entries that the finishing attempt found in the middle of an operation are marked completed or needing attention, as their entry, at its revision |
| RecoveryTheorems.OutcomeReachesTheItemIff | crates/sortinghat-service/src/lib.rs:943-1008 | after an attempt that finishes, the item of a completed or flagged entry says so if and only if this attempt found the entry in the middle of an operation or the saved queue said so already |
| Counterexamples.FlagIsLost | crates/sortinghat-service/src/lib.rs:983-1008 | a legal run in which an attempt to open flags an entry and dies before it saves, and the next one leaves the item waiting, saved so, at a revision that can never be approved |
| RecoveryTheorems.RetiredMoveSettlesCompleted | crates/sortinghat-service/src/lib.rs:945-981 | the evidence an undisturbed approve leaves after SourceRemoved settles the entry as Completed, for both kinds of move, if the proposal was ever saved |
| RecoveryTheorems.CrashAfterRetirementCompletes | crates/sortinghat-service/src/lib.rs:608-613 | a crash there followed by any number of interrupted openings and one that finishes ends in Completed, one revision later |
| Journals.Journal.Create | crates/sortinghat-journal/src/lib.rs:128-144 | inserts exactly the new row at revision 1 as Proposed, if and only if fewer than 1000 entries are active and the size fits |
| Journals.Journal.Transition | crates/sortinghat-journal/src/lib.rs:183-213 | changes state and time and adds one to the revision of this row alone, if and only if the revision is current, below the largest 64-bit number, and the change allowed; otherwise nothing changes |
| Journals.AllowedIsTheNextStep | crates/sortinghat-journal/src/lib.rs:327-344 | a change is allowed if and only if it is the next step of a rename or a copy and its undo, dismisses a proposal, gives up an approved, copying, published or undoing entry as failed safely, or asks for attention before the entry is finished |
| Journals.Journal.ReviseProposal | crates/sortinghat-journal/src/lib.rs:215-240 | redirects this row alone and adds one to its revision, if and only if the revision is current and the row is Proposed; otherwise nothing changes |
| Journals.Journal.SetSha256 | crates/sortinghat-journal/src/lib.rs:242-254 | records a digest of 64 hexadecimal digits in this row alone, or changes nothing |
| Journals.Journal.Nonterminal | crates/sortinghat-journal/src/lib.rs:256-271 | unfinished entries only, each once, strictly from the least recently changed on, a thousand of them or all; every unfinished entry left out was changed later than every one listed |
| Journals.Journal.EnforceRetention | crates/sortinghat-journal/src/lib.rs:288-325 | if both passes succeed, every entry that is proposed, approved, copying, published, source removed, undoing or needs attention stays, and a finished one exactly if it is young enough and fewer than the limit of finished ones were changed later; if a pass fails, what the passes before it leave; and reports a failing pass or a database still too large |
| Journals.DropExcessIsRank | crates/sortinghat-journal/src/lib.rs:279-286 | the count pass keeps every entry that is proposed, approved, copying, published, source removed, undoing or needs attention, and exactly the finished ones with fewer than the limit of finished ones changed later (or in the same second and inserted later) |
| Journals.RetentionIsExact | crates/sortinghat-journal/src/lib.rs:288-300 | the two passes keep, unchanged, every entry in one of those seven states and exactly those finished ones that are young enough and among the latest of the whole table |
| Journals.PassesCommute | crates/sortinghat-journal/src/lib.rs:294-300 | counting before ageing keeps the same rows |
| Journals.RetentionIsIdempotent | crates/sortinghat-journal/src/lib.rs:288-300 | enforcing retention again at the same clock removes nothing |
| Model.ShownIdentity | crates/sortinghat-fs/src/lib.rs:44-62 | an identity is read if and only if the path shows a regular file with no other name, of at most 4 GiB, and then it is its device, inode, length and modification time |
| Model.DigestIsStreamed | crates/sortinghat-fs/src/lib.rs:369-381 | the digest is what the hasher gives after every byte of the file has been fed to it once and in order |
| FileSystems.FileSystem.SameFilesystemMoveAt | crates/sortinghat-fs/src/lib.rs:171-219 | undisturbed, succeeds if and only if no call fails, the source shows the expected device, inode, length and modification time and no other name, and the target is free, and then the file map is exactly the renamed one; if source or target is otherwise, nothing changes; success under interference means the file found at the target had the expected identity |
| FileSystems.FileSystem.VerifiedStageCopyAt | crates/sortinghat-fs/src/lib.rs:221-302 | success means the digest fed chunk by chunk is that of the whole copy, whose length is the expected size; undisturbed, the one new file is at the staging name, with the bytes and the modification time of the source, and it succeeds exactly when no call fails, the source shows the expected identity and the staging name is free; if source or staging name is otherwise, nothing changes |
| FlightProofs.StagesAreApart | crates/sortinghat-service/src/lib.rs:592-598 | two entries share a staging file if and only if they are the same entry and the same folder |
| FileSystems.FileSystem.CopyBytes | crates/sortinghat-fs/src/lib.rs:245-264 | for every sequence of short reads, and whichever read or write fails, never more than 4 GiB is written; on success the count is the length of what was written and the hasher has absorbed exactly that; undisturbed it succeeds if and only if no read or write fails, and the count is the expected size |
| FileSystems.FileSystem.PublishStageAt | crates/sortinghat-fs/src/lib.rs:304-323 | gives the staging file its final name without replacing anything; undisturbed it fails only on a failing call or a target that is the staging name, and leaves exactly the renamed files |
| FileSystems.FileSystem.VerifyAt | crates/sortinghat-fs/src/lib.rs:325-343 | accepts the published file only with the recorded digest |
| FileSystems.FileSystem.RetireSourceAt | crates/sortinghat-fs/src/lib.rs:345-367 | unlinks the source, and undisturbed nothing else, only with the expected identity and digest; undisturbed it fails only on a failing call |
| FileSystems.FileSystem.Sha256File | crates/sortinghat-fs/src/lib.rs:369-381 | for every sequence of short reads the digest is that of the whole file |
| FileSystems.FileSystem.DestinationExistsCaseFolded | crates/sortinghat-fs/src/lib.rs:518-531 | true if and only if some entry of the directory equals the name after folding, and an error if and only if the directory cannot be listed |
| FileSystems.FileSystem.Save | crates/sortinghat-service/src/lib.rs:1041-1058 | replaces the saved state as a whole or not at all, and may report failure after the fact |
| Paths.DirectoryIsBeneath | crates/sortinghat-core/src/lib.rs:145-158 | a stored directory other than "." passes the relative-path check of the file crate, reads back as one plain component a piece, and stays lexically beneath its root |
| Paths.DirectoryRoundTrip | crates/sortinghat-service/src/lib.rs:406-416 | turning plain components into a stored directory and back is the identity, and the text is valid if and only if it is within the length limit |
| Paths.DeepestRootIsDeepest | crates/sortinghat-service/src/lib.rs:393-402 | the longest registered destination path containing the folder is found if there is one, and no other such root lies deeper |
| Rules.EvaluateRules | crates/sortinghat-core/src/lib.rs:78-119 | an error if and only if there are more than 1000 rules or one is invalid; otherwise Destination, Tie or Abstain as the destinations of the matching rules of maximum priority number one, several or none, crediting exactly those rules in order; a rule matches if everything it asks for holds: the extension but for the case of ASCII letters, content type, glob, root and directory |
| Rules.ExtensionsAreToldApart | crates/sortinghat-core/src/lib.rs:163-166 | a rule that asks for an extension does not match two files whose extensions differ in more than the case of ASCII letters |
| Rules.FactsDescribe | crates/sortinghat-service/src/lib.rs:1126-1145 | the facts gathered for a file are its name, root and directory, and what follows the last dot of its name in lower case, if that dot is not its first character |
| Rules.ValidateRule | crates/sortinghat-core/src/lib.rs:121-143 | accepts a rule if and only if it has predicates and a safe directory, and its extensions and content types have 1 to 255 characters, its globs are valid and its directories safe |
| Rules.OrderIsIrrelevant | crates/sortinghat-core/src/lib.rs:78-119 | a permutation of the list has the same outcome |
| Rules.OutrankedIsIrrelevant | crates/sortinghat-core/src/lib.rs:89-105 | valid rules outranked by some match may be added anywhere within the limit without changing the outcome |
| Rules.LearnedRuleDecides | crates/sortinghat-service/src/lib.rs:473-507 | a stored learned rule that outranks every other match decides its own destination for the file it came from |
| Walk.BoundedFiles | crates/sortinghat-service/src/lib.rs:1097-1124 | the walk ends on any tree, succeeds if and only if there are at most 25,000 directories, none deeper than 32, and at most 100,000 regular files, and then returns each regular file reachable through real directories exactly once |
| Services.Service.Approve | crates/sortinghat-service/src/lib.rs:509-621 | undisturbed, succeeds if and only if the item is there at this revision with a destination, its roots are registered as watched and as destination, the file at its path below the watched root shows its device, inode, length and modification time, its directory below the destination root exists without a name that equals its own after folding, the journal row is Proposed at this revision, and no call fails; then exactly this file has moved to that name in that directory, a copy with its bytes and modification time, the row is Completed four or five revisions later, memory and state file agree, and nothing else has changed but what pruning and retention remove; a taken name is reported with journal and files unchanged, a file that shows anything else stays where it is, and each way in which there is nothing to approve has its error |
| Services.Service.MoveAcross | crates/sortinghat-service/src/lib.rs:589-607 | Copying, stage, record, publish, verify, Published, retire, with the exact condition under which all succeed undisturbed |
| Services.Service.Undo | crates/sortinghat-service/src/lib.rs:623-697 | undisturbed, succeeds if and only if the completed revision is current, the original name is free in an existing directory of the same file system, the file at the item's name in its directory shows the approved device, inode, length and modification time, and no call fails; then the file map is exactly renamed back, two revisions later; a file that shows anything else stays where it is; with journal and files unchanged it is refused if the paths the item resolves to lie on different file systems, or if those in its entry do and recovery did not complete the entry for a stale item, and it is blocked by an occupied name (or a case variant) |
| Services.PlansToApprove | crates/sortinghat-service/src/lib.rs:509-569 | what the program works out to move, from where to where, or the error, is what the fields of the item and of its roots say |
| Services.PlansToUndo | crates/sortinghat-service/src/lib.rs:623-650 | the same for an undo, whose source root need not be watched any more |
| Services.Service.ApproveThenUndo | crates/sortinghat-service/src/lib.rs:509-697 | approve followed by undo restores the file map exactly, and item and entry end six revisions later, the entry as Undone unless retention dropped it; both succeed, and the entry is still there, whenever the approve is possible on one file system, the original directory exists, no two names of a directory are equal after folding, fewer than 10,000 items and entries are finished, and no call fails |
| Services.WayBackIsOpen | crates/sortinghat-service/src/lib.rs:630-676 | after a move within one file system the original name is free and the approved file is at the destination, if no two names of a directory were equal after folding |
| Services.Service.PruneTerminalProposals | crates/sortinghat-service/src/lib.rs:1010-1030 | the counter loop computes the pruned queue of PruneIsExact and changes nothing else |
| Services.Service.VerifyRecoveryDestination | crates/sortinghat-service/src/lib.rs:1065-1080 | true if and only if size and recorded digest match, or the whole identity where no digest was recorded |
| Services.Service.RecoverWithoutGuessing | crates/sortinghat-service/src/lib.rs:943-1008 | looks for the source, then at the destination, then commits, open to other writers at each point, and succeeds if no call fails and no revision is at its limit; with at most 1000 unfinished entries none is then approved, copying, published, source removed or undoing, and the item of each that was says so, with the queue saved; undisturbed, every entry is as RecoveryConverges says |
| Services.Service.Open | crates/sortinghat-service/src/lib.rs:135-172 | after a successful start (at most 1000 unfinished entries) none is approved, copying, published, source removed or undoing and the item of each that was says what became of it; undisturbed, the entries left are exactly those that retention keeps, each as recovery makes it on the evidence at the crash; the state file is the queue in memory; after a failed start the service is down and may start again |
| Services.Service.AddRoot | crates/sortinghat-service/src/lib.rs:235-266 | registers a directory under a new identifier if and only if there are fewer than 16, it has a role, it exists and it is not registered |
| Services.Service.RemoveRoot | crates/sortinghat-service/src/lib.rs:268-283 | removes a registered root if and only if no waiting item comes from it |
| Services.Service.ChooseDestination | crates/sortinghat-service/src/lib.rs:334-380 | redirects the item and its row, alone and one revision on, to its own name in this directory below this root, if and only if the directory is safe and exists below a registered destination root, the item's own root is registered, and the row is Proposed at this revision |
| Services.Service.ChooseDestinationPath | crates/sortinghat-service/src/lib.rs:382-418 | on success root path and stored directory name exactly the requested folder, no deeper registered destination root contains it, a root was registered if and only if none did, and the row names the file in that folder; undisturbed it succeeds if and only if the folder exists, its path from the deepest such root is within 4096 characters or else it can be registered, the item and its root are there, the row is Proposed at this revision, and no call fails |
| Services.Service.RenameItem | crates/sortinghat-service/src/lib.rs:420-457 | renames the target of an item, alone and one revision on, and has the row name this file in the chosen directory, if and only if the name has no separator, is not empty, . or .., and has at most 255 characters, the destination root is registered, and the row is Proposed at this revision |
| Services.Service.IgnoreItem | crates/sortinghat-service/src/lib.rs:459-471 | dismisses an item if and only if its row is Proposed at this revision and no call fails |
| Services.Service.CreateRuleFromProposal | crates/sortinghat-service/src/lib.rs:473-507 | stores a rule for the extension of the file, in lower case, with the item's destination and the priority asked for, if and only if there are fewer than 1000, the name has an extension of 1 to 255 characters, and the directory is safe; the stored list stays valid |
| Services.Service.Sample | crates/sortinghat-fs/src/lib.rs:71-79 | a file is stable if and only if it shows the device, inode, length and modification time of the previous sample, taken at least a second earlier; the new sample, and no other, replaces it |
| Services.Service.Suggest | crates/sortinghat-service/src/lib.rs:730-754 | the one destination the rules agree on for the name, root, directory, extension and content type of the file, or else a registered destination root the agent names, or none; stored rules never make it fail |
| Services.Service.Consider | crates/sortinghat-service/src/lib.rs:699-801 | undisturbed, queues the file if and only if its name is not an unfinished download's, it shows the identity sampled at least a second ago, no item waits on its path or has its identity, and fewer than 1000 entries are unfinished; passes over it if and only if that is not so and its identity can be read if needed; then exactly one item and its row are new, the row naming the two paths of the move |
| Services.Service.ScanOnce | crates/sortinghat-service/src/lib.rs:285-332 | undisturbed and successful, queues exactly one item for each identity that was due below the watched roots, samples every regular file it does not pass over and no other, and returns their number; no finished file seen unchanged for a second is without an item; it fails if the queue cannot hold the new items, and if they do not fill it, it succeeds if and only if every watched tree is within the limits, every identity needed can be read, and the journal takes the new entries; a full queue pauses the service; only waiting items are appended, and saved |
| Scanning.ScannedMissesNothing | crates/sortinghat-service/src/lib.rs:309-331 | after a scan an item stands for, or waits on the path of, every regular file of a watched root that is not an unfinished download and shows the identity sampled at least a second before |
| Scanning.NewOnesAreDue | crates/sortinghat-service/src/lib.rs:699-729 | a scan queues as many items as different identities were due |
| Scanning.Impossible | crates/sortinghat-service/src/lib.rs:309-331 | if a due file finds the journal full, or an identity cannot be read, then the scan was impossible from the start |
| Scanning.PartialIsMeant | crates/sortinghat-service/src/lib.rs:1164-1172 | a name is passed over if and only if it ends in .part, .partial, .crdownload, .download or .tmp in letters of any case |

## Left out

- UndoTheorems.UndoKeepsItsFile: asks that no other queued item stands for the same file between the completion and the undo, which holds as long as the item itself is queued (`UndoTheorems.QueuedHasNoRival`); an item pruned from memory, but not yet from the saved queue, could come back after a crash with its file already proposed and moved again. `UndoTheorems.UndoHoldsItsFileIff` does not ask this.
- Services.Service.RenameItem: rejects every name that holds "/", where the code also accepts a single component with a trailing separator (crates/sortinghat-service/src/lib.rs:426-433); names are opaque UTF-8 components, and lengths in bytes are counted in characters.
- Journals.Journal.Transition: a failure to read the row back after the update was committed (crates/sortinghat-journal/src/lib.rs:212) is taken as a failure before it; likewise for ReviseProposal.
- Services.Service.RecoverWithoutGuessing: identity and digest of the destination are one look, and a path that cannot be looked at for another reason than absence is not modelled (the code then flags the entry instead of completing it).
- FileSystems.FileSystem.RetireSourceAt: check and unlink are one step; a writer between them is not modelled, as the code has no call that could exclude it.
- FileSystems.FileSystem.Sha256File: a file does not change while it is being hashed outside the copy loop; the copy loop itself is open to writers at every read.
- FileSystems.FileSystem.CopyBytes: the open source is read through its path; a path that another process replaces counts as touched, and nothing is then claimed of the bytes read.
- Services.Service.ScanOnce: other processes do not write while one tree is being listed (they may between files), and an unreadable subdirectory is not modelled; when the new items fill the queue exactly, success depends on whether the walk lists another file after the last of them, and is not characterised.
- Services.Service.Suggest: the agent subprocess is an arbitrary answer, and the content type sniffed from a file is a parameter.
- Services.Service.AddRoot: paths are canonical already; symbolic links along the way are not modelled.
- Walk.BoundedFiles: depth is the number of components below the root, which is what the code's counter holds.
- Symbolic links, permissions, openat2 resolution flags, descriptors and fsync: an open, list, sync or stat that these make fail is one of the faults; the descriptor form of an identity is taken as the path form, which also asks for a regular file.
- Non-UTF-8 names, and with them the lossy destination_name of the code.
- The base64 and JSON encodings: tokens are component lists, and a save is an atomic snapshot of the queue; a queue over the size limit is a failing save.
- SQL: a table is a map with SQLite's row numbers, and ORDER BY updated_at, rowid is OldestFirst. A database over its byte limit after retention is a fault.
- Identifiers: a counter that never repeats stands for random UUIDs.
- Rules on SourceDirectory for files at the top of a root: the code's facts give "" there, which no valid rule can name, so no matching is claimed.
- Warning and reason texts, display escaping, size buckets, agent settings, the command line, daemon socket, QML and packaging: plumbing and user interface.
- The path-based duplicates of the file primitives, which the service does not call.
