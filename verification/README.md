# What this project proves about trebol's extensions

Trebol's extensions keep promises about things that cannot be undone: an issue filed on a server, a comment posted to
it, a report published once for many agents that met the same problem. This project models the code that makes those
promises and proves them over every run, every crash point and every interleaving, and it gives the exact condition
wherever the code falls short of its own description.

`dafny verify dfyconfig.toml` checks everything.

## The parts

**Publishing TaskManage work to Hoja** (`extensions/hoja-mode`). A chat files one issue per major task, keeps the issue
truthful, posts one comment when the task is accepted as completed and then closes the issue. The server is unreliable:
a request may succeed, be refused, or lose its answer, and then it may have committed, commit later, or never. Other
people edit the same issues all the time.

- `JsText`, `ManagedBlock`, `Markers`, `AnswerRevision`: the text algebra. The managed block in a description, the
  marker lines that prove ownership, and the FNV-1a revision of the answers. `WrittenOut` says in literal text what all of
  them look like.
- `HojaRecords`, `HojaServer`, `HojaWorld`: the records and their journal, the server with its late writes, and the
  world of one session. A *script* says what happens at each await: what others do, how the request ends, whether the
  session goes away. A theorem about every script is a theorem about every run.
- `LifecycleSync`, `Publish`: one lifecycle pass and one batch as functions of that world. `HojaSession`,
  `HojaPublisher`: the same two as classes whose methods update `record`, `writes`, `applied`, `changed`, `blocked`,
  `records` and `enabled` step by step, each proved equal to its function.
- `HojaSafety`, `HojaLifecycleSafety`, `HojaPublishSafety`: the invariants of one task, and why every await, journal
  write and request keeps them, whatever the operations say.
- `HojaJustified`, `HojaBatchJustified`: why each request left. This part asks nothing of the associations in memory.
- `HojaRuns`: the theorems about whole chats. Where a theorem has a condition, it is about the task itself: `FateOf`
  reads from the journal whether a link or an unconfirmed create of it was thrown away (`unlinked`, `forgotten`) or
  given up for somebody else's issue (`overridden`), whether the task was ever linked to such an issue (`shared`), and
  whether its record left an issue while it carried a comment marker (`moved`); `CurrentRun` says that no batch started
  from memory the journal had left behind on this task.
- `HojaOperations`: what a caller can check before each batch to keep these conditions. Without invalid flags and named
  issues nothing at all is lost; and `HomeBatch` is the weaker guard under which no commented issue is left.
- `HojaScenarios`, `HojaCounterexamples`: for every condition, the continuation that breaks the theorem from any chat in
  the situation the condition excludes. `HojaLinks`: a pass journals nothing but links of its own task, and from which
  records it cannot leave a commented issue.
- `HojaReports`: what the result of a pass says is true. No error means that issue and record were seen to agree with the
  task; an error names what happened at the latest await.
- `HojaOutcomes`, `HojaReconciling`, `HojaUntouched`: what an operation leads to, whatever happens meanwhile. When a create
  leaves and when its task ends linked; when naming an issue links it; when a lost create is found again; and what is never
  touched, because its task was deleted or kept from Hoja.
- `HojaConvergence`, `HojaFiling`, `HojaAdopting`: what a pass, a batch of new tasks, and naming somebody else's issue
  achieve when nothing fails.

A crash is a session that ends inside a batch followed by a restart: after the end nothing is journaled, and the restart
replays the journal. Retrying queued tasks is one more batch, so the theorems about runs cover it.

**The annoyed tool** (`extensions/annoyed`). Any number of invocations share one row per report fingerprint.
`AnnoyedStore` is the store, `AnnoyedTool` the tool's steps on it, and `AnnoyedProtocol` the interleavings of all
invocations at every store transaction and await, with aborts and crashes.

**Four smaller algorithms.** `HistorySearch` (paging through a log; the best hits of a stream), `Footer` (clamping and
wrapping styled text), `HookReplay` (swapping completed prompt and hook pairs in place), `SemVer` (version precedence).

## Where the code and its description differ

- `extensions/hoja-mode/publish.ts:12-18` says an unconfirmed create is never repeated. At most one issue is committed
  unless the journal shows that a link or an unconfirmed create was thrown away, or a batch started from stale memory
  (`AtMostOneIssue`). There are three ways to get there, and each leads to a second issue. With an issue committed or
  under way, an invalid `metadata.hoja` overwrites any record (`InvalidFlagDuplicates`), and naming an issue that cannot
  be had overwrites an unconfirmed create (`FailedNameDuplicates`). Switching the mode off and on during a create keeps
  memory without the association that the journal already holds (`AbandonedDuplicates`). Naming an issue that is found
  is safe for the root issue, but an unconfirmed create may then exist beside a sub-issue (`OverrideDuplicates`). Without
  invalid flags, named issues and stale memory none of this happens (`CarefulRunsLoseNothing`).
- The same two conditions guard sub-issues and comments: `InvalidFlagSubissues`, `AbandonedSubissues`,
  `InvalidFlagComments`, `AbandonedComments`. Stale memory also journals changes of an association that are otherwise
  impossible (`StaleMemoryBreaksTheJournal`).
- At most one completion comment per task and answer revision is committed, over all issues, unless a record that already
  carries a comment marker takes over a sub-issue (`AtMostOneComment`). That happens: an adopted issue carries the marker
  line and gets the comment, somebody removes the line, the next pass files a sub-issue and posts there too
  (`MovingDuplicates`). Whether it can happen shows in the record before the call. A plain update of a commented task may
  post a second time if and only if its issue is somebody else's, no sub-issue was asked for, and there is a project to
  file one in (`SecondCommentIff`). When every batch meets the guard of `HojaOperations` it never happens
  (`HomeRunsCommentOnce`). After the fact it shows in the requests (`AtMostOneCommentUnlessLeft`, `LeftBehindDuplicates`).
- `extensions/hoja-mode/lifecycle.ts:114-115` says a merge replaces only the managed block. With an orphan marker in the
  description the second merge eats human text or appends again (`OrphanBreaksTheMerge`); the merge is idempotent
  exactly on well-formed descriptions (`MergeIdempotentIffWellFormed`).
- `extensions/hoja-mode/lifecycle.ts:139-140` says a changed answer set has a different marker. That holds for any change of
  one code point (`OneCodePointChangesTheRevision`); fields that contain the separator characters can collide
  (`SeparatorsCollide`).
- `extensions/swarm-update/extension.ts:32` calls the accepted versions strict, but accepts numeric prerelease identifiers
  with leading zeros. `1.0.0-01` and `1.0.0-1` each compare as less than the other
  (`LeadingZeroIsNotAntisymmetric`); `ComparesBySection11Iff` says exactly when that happens.
- `wrapFooterText` counts UTF-16 units and not terminal cells, so a wrapped line may still be too wide
  (`WrappedLineMayBeTooWide`); the clamp is what guarantees the width.
- A publication URL survives every later merge because `setMetadata` reads and writes without letting go. If another
  process could act in between, the URL could be lost (`SplitMergeLosesUrl`), and it can be lost exactly while some
  invocation holds a row it read before the URL was there (`UrlIsPermanentIff`).

## Model

| member | source | states |
|---|---|---|
| `HojaRuns.AtMostOneIssue` | `extensions/hoja-mode/publish.ts:243-480` | over every run of batches, crashes, restarts and mode switches in which no batch starts from stale memory of the task, at most one issue is committed for it, also after every lost write has landed, unless the journal shows a link or an unconfirmed create thrown away |
| `HojaRuns.AtMostOneOwnIssue` | `extensions/hoja-mode/publish.ts:313-480` | over the same runs, if no unconfirmed create was given up for somebody else's issue either, the root issues and the sub-issues of a task together are at most one |
| `HojaRuns.AtMostOneComment` | `extensions/hoja-mode/lifecycle.ts:363-425` | over the same runs, at most one completion comment per task and answer revision is committed, on whatever issues, also after every lost write has landed, unless the link was thrown away or a record that carried a comment marker took over a sub-issue |
| `HojaRuns.AtMostOneCommentUnshared` | `extensions/hoja-mode/publish.ts:353-363` | so it is when the link was not thrown away and the task was never linked to somebody else's issue |
| `HojaRuns.AtMostOneCommentUnlessLeft` | `extensions/hoja-mode/lifecycle.ts:363-425` | by the requests made: at most one is committed, whatever moves there were, unless the record has left an issue that this revision was sent to |
| `HojaRuns.AtMostOneCommentPerIssue` | `extensions/hoja-mode/lifecycle.ts:363-425` | on one issue there is at most one even then, unless the link was thrown away |
| `HojaRuns.AtMostOneSubissueRequest` | `extensions/hoja-mode/lifecycle.ts:243-297` | over the same runs, at most one sub-issue is ever requested for a task, even after a definite failure, unless its link was thrown away |
| `HojaRuns.EveryRequestIsJustified` | `extensions/hoja-mode/lifecycle.ts:209-435` | over every run, stale memory included: each request left while the session was active and behind its own journaled intent; a new issue has the task's subject, opening state and marker line and closes with its managed section; every description, comment and state write went to the issue read last in the same pass and there seen with the exact marker line; Done was written only for a completed task with every question answered whose comment was visible, in the issue's own team and project; none of them is about a deleted task; and nothing of the chat is on the server, or may still land there, that was not asked for |
| `HojaRuns.AssociationsChangeAsAllowed` | `extensions/hoja-mode/publish.ts:303-480` | a linked record leaves its state only by an invalid flag, and an unconfirmed one only by a link, an invalid flag, a failed named issue or the definite failure of the create just intended, unless a batch starts from stale memory |
| `HojaRuns.MemoryIsTheJournal` | `extensions/hoja-mode/extension.ts:384-404` | while no batch has been abandoned the associations in memory are exactly what the journal replays to, so a restart changes nothing |
| `HojaRuns.RestartTakesTheNewest` | `extensions/hoja-mode/extension.ts:384-392` | a session start takes each association from the last record journaled for its task, whatever memory held, and changes nothing durable |
| `HojaRuns.RunKeeps` | `extensions/hoja-mode/extension.ts:411-541` | a run without stale memory of a task keeps that task's invariants from any chat that has them |
| `HojaRuns.RunAudited` | `extensions/hoja-mode/extension.ts:411-541` | every run keeps the record of justified requests |
| `HojaBatchJustified.PublishBatchAudited` | `extensions/hoja-mode/publish.ts:243-480` | one batch over any associations asks only for what is justified, and nothing appears on the server that was not asked for |
| `HojaJustified.SyncAudited` | `extensions/hoja-mode/lifecycle.ts:209-435` | so does one lifecycle pass over any linked record |
| `HojaOperations.CarefulRunsLoseNothing` | `extensions/hoja-mode/publish.ts:303-371` | over the same runs, when no operation about a task carries an invalid flag or names an issue, nothing of it is thrown away, given up, shared or left; root issues and sub-issues of it together are at most one, and so are its completion comments of one answer revision |
| `HojaOperations.HomeRunsCommentOnce` | `extensions/hoja-mode/lifecycle.ts:239-298` | over the same runs, when every batch has no invalid flag for the task and either no pass can take it to another issue and none is newly named for it, or one operation on it whose record carries no comment marker yet, at most one completion comment per answer revision is committed, on whatever issues |
| `HojaOperations.BatchSpares` | `extensions/hoja-mode/publish.ts:243-480` | one batch that meets this guard throws no link away and leaves no commented issue, and without names it loses nothing at all |
| `HojaLinks.SyncStaysHome` | `extensions/hoja-mode/lifecycle.ts:239-298` | a pass over a record that cannot be taken to another issue, or that carries no comment marker yet, leaves no commented issue |
| `HojaOperations.SparedFate` | `extensions/hoja-mode/publish.ts:303-352` | among allowed changes only the records of an invalid flag or of a failed named issue throw an association away |
| `HojaLinks.SyncLinks` | `extensions/hoja-mode/lifecycle.ts:214-221` | a pass over a linked record journals and returns only links of its own task |
| `HojaReports.PassTellsTheTruth` | `extensions/hoja-mode/lifecycle.ts:209-435` | for every script: a pass that ends without an error has seen the issue of its record with the marker line, the managed section, the comment of an accepted completion and, last, the state the task asks for, and the record says the same; an error is recorded, and it names what happened at the latest await: the request that was refused or lost its answer, the look that failed, or what a read-back failed to prove; a pass stops only when the session is gone |
| `HojaReconciling.LostCreateIsLinkedIff` | `extensions/hoja-mode/publish.ts:267-301` | in a batch whose operations neither flag nor name the task, an unconfirmed create ends linked if and only if the search answers with an issue and the read-back proves it: exact marker line, recorded project, expected parent; then the task has that issue's id and identifier and the earlier project and marker, one link is journaled for it at its turn, and it is not blocked; otherwise the association stays as it was and is blocked |
| `HojaReconciling.ReconcilesIff` | `extensions/hoja-mode/publish.ts:267-301` | the same for one unconfirmed create, with the whole batch before and after |
| `HojaOutcomes.FiledIff` | `extensions/hoja-mode/publish.ts:373-479` | a task without an association ends linked if and only if a declared name led to a project with its opening state, its parent has an issue, the create was accepted and the read-back proved it; and a request leaves if and only if everything before the create was so |
| `HojaOutcomes.FilingEnds` | `extensions/hoja-mode/publish.ts:407-479` | what the operation leaves in every case: the reason why nothing was sent; the request as it was sent; after a refusal a failure; after a lost answer, a lost session or an unproven read-back everything it takes to find the issue again; else the link |
| `HojaOutcomes.NothingFiled` | `extensions/hoja-mode/publish.ts:373-405` | when no declared name leads to a project nothing is sent, and the record says whether there was no name or none that resolved |
| `HojaOutcomes.ResolvesIff` | `extensions/hoja-mode/publish.ts:391-401` | the declared names are tried in order, and only an unknown project falls through to the next |
| `HojaOutcomes.NamesAre` | `extensions/hoja-mode/publish.ts:376-383` | the task's own project, then the chat's, then the repository's, trimmed, without blanks and repetitions |
| `HojaOutcomes.AdoptedIff` | `extensions/hoja-mode/publish.ts:331-364` | naming an issue links it if and only if the name is an identifier and the lookup answers with an issue of exactly that identifier; it is recorded as somebody else's before anything else happens, and otherwise nothing is sent and the record says why |
| `HojaOutcomes.IdentifierIs` | `extensions/hoja-mode/publish.ts:333` | an identifier is letters or digits, a dash, and digits |
| `HojaOutcomes.LinkedIsSynced` | `extensions/hoja-mode/publish.ts:308-330` | an operation on a linked task is one pass over its issue, whatever else it says; the association follows what the pass saved, and the change is reported exactly then |
| `HojaOutcomes.UnconfirmedIsBlocked` | `extensions/hoja-mode/publish.ts:365-371` | an operation on an unconfirmed create that names no issue changes and sends nothing, and the task is reported as blocked once |
| `HojaOutcomes.GoesOnWithSession` | `extensions/hoja-mode/publish.ts:305-308` | a batch goes on to its end only if the session was there at the beginning of every operation; without it an operation does nothing |
| `HojaUntouched.DeletedIsLeftAlone` | `extensions/hoja-mode/lifecycle.ts:228-229` | for every script, a pass over a deleted task leaves server, journal, requests and record as they were, and neither stops nor reports an error |
| `HojaUntouched.NotForHojaIsLeftAlone` | `extensions/hoja-mode/publish.ts:143-190` | a task all of whose operations are kept from Hoja is left alone by the whole batch: nothing of it is journaled, requested, changed or reported |
| `HojaUntouched.NotForHojaIsIgnored` | `extensions/hoja-mode/publish.ts:143-190` | which operations these are: marked local, a plain update of a task that is not linked, or a step that was not promoted |
| `HojaPublishSafety.PublishBatchKeeps` | `extensions/hoja-mode/publish.ts:243-480` | one batch, whatever its operations say, keeps a task's invariants whatever happens at its awaits, and its association of the task agrees with the extended journal |
| `HojaPublishSafety.ReconcileAllKeeps` | `extensions/hoja-mode/publish.ts:267-301` | resolving every unconfirmed write keeps the invariants |
| `HojaPublishSafety.AdoptNamedKeeps` | `extensions/hoja-mode/publish.ts:331-364` | naming an issue, found or not, over any record that is not linked, keeps the invariants |
| `HojaPublishSafety.CreateRootKeeps` | `extensions/hoja-mode/publish.ts:428-479` | a create that succeeds, is refused or loses its answer keeps the invariants |
| `HojaLifecycleSafety.SyncKeeps` | `extensions/hoja-mode/lifecycle.ts:209-435` | one lifecycle pass keeps the invariants whatever happens at its awaits, and ends with the record the journal holds |
| `HojaLifecycleSafety.LocateKeeps` | `extensions/hoja-mode/lifecycle.ts:231-298` | proving ownership, or moving to a sub-issue, keeps the invariants and ends at a proven target |
| `HojaLifecycleSafety.PostKeeps` | `extensions/hoja-mode/lifecycle.ts:391-424` | intent, request and read-back of a comment keep the invariants in every outcome |
| `HojaLifecycleSafety.ApplyStateKeeps` | `extensions/hoja-mode/lifecycle.ts:329-361` | a state transition keeps the invariants and leaves only when justified |
| `HojaSafety.SendKeeps` | `extensions/hoja-mode/lifecycle.ts:396-413` | any justified write keeps the invariants for each of its outcomes: committed, refused, committed with the answer lost, or still to commit |
| `HojaServer.EvolveIsLater` | `extensions/hoja-mode/publish.ts:438-446` | whatever others do and whichever lost writes land, this session's writes are conserved: committed plus possible never grows |
| `HojaServer.CommitCounts` | `extensions/hoja-mode/publish.ts:438-446` | committing a write moves exactly that write from possible to committed |
| `HojaCounterexamples.InvalidFlagDuplicates` | `extensions/hoja-mode/publish.ts:305` | from any chat with an issue committed or under way an invalid flag, followed by one operation, ends with two; nothing but the given-up association speaks against it |
| `HojaCounterexamples.FailedNameDuplicates` | `extensions/hoja-mode/publish.ts:332-352` | so does any name whose lookup fails, over an unconfirmed create |
| `HojaCounterexamples.AbandonedDuplicates` | `extensions/hoja-mode/extension.ts:310-314` | from any chat without an association, switching the mode off and on during a create ends with two issues, while the journal shows nothing thrown away |
| `HojaCounterexamples.ReconcilingIsReachable` | `extensions/hoja-mode/publish.ts:438-447` | from any chat without an association a create whose answer is lost leaves an unconfirmed create |
| `HojaCounterexamples.OverrideDuplicates` | `extensions/hoja-mode/publish.ts:354-363` | from any chat with an unconfirmed create, naming another issue ends with a root issue and a sub-issue |
| `HojaCounterexamples.StaleMemoryBreaksTheJournal` | `extensions/hoja-mode/extension.ts:454-455` | from any chat without an association, a batch from stale memory journals a change that is not allowed |
| `HojaCounterexamples.InvalidFlagSubissues` | `extensions/hoja-mode/publish.ts:305` | from any chat that asked for a sub-issue, an invalid flag leads to a second request |
| `HojaCounterexamples.AbandonedSubissues` | `extensions/hoja-mode/extension.ts:310-314` | so does switching the mode off and on during the first request |
| `HojaCounterexamples.InvalidFlagComments` | `extensions/hoja-mode/publish.ts:305` | from any chat whose comment may still land, an invalid flag and the same issue named again end with two comments of one revision on it |
| `HojaCounterexamples.AbandonedComments` | `extensions/hoja-mode/extension.ts:310-314` | so does switching the mode off and on while the comment is under way |
| `HojaCounterexamples.LeftBehindDuplicates` | `extensions/hoja-mode/lifecycle.ts:391-413` | from any chat whose comment is on another issue than the one its task is linked to, one pass posts the same revision again |
| `HojaCounterexamples.MovingDuplicates` | `extensions/hoja-mode/lifecycle.ts:243-297` | from any new chat there is a run to that: an adopted issue is commented on, loses its marker line, and the sub-issue taken over gets the same revision; every other condition holds |
| `HojaCounterexamples.SecondCommentIff` | `extensions/hoja-mode/lifecycle.ts:239-298` | for a task in good order whose comment is on its issue, one more plain update can post the same revision on another issue if and only if the issue is somebody else's, no sub-issue was asked for, and there is a project to file one in |
| `HojaConvergence.QuietPassConverges` | `extensions/hoja-mode/lifecycle.ts:300-434` | without failures one pass puts the managed section into the description and changes nothing else of it, brings the state in line, closes an accepted completion behind its comment, adds at most that one comment and keeps the earlier ones, touches no other issue, and leaves the issue ready for the next pass |
| `HojaConvergence.QuietPassIsIdle` | `extensions/hoja-mode/lifecycle.ts:305-434` | over an issue and a record that already agree with the task a pass writes nothing and changes nothing |
| `HojaConvergence.QuietUpdateConverges` | `extensions/hoja-mode/publish.ts:308-330` | so it is for an operation of a batch on a linked task, whatever its kind, and every other association stays |
| `HojaConvergence.SecondPassIsIdle` | `extensions/hoja-mode/lifecycle.ts:300-434` | a second pass with the same facts makes no write and returns the same record |
| `HojaFiling.QuietBatchConverges` | `extensions/hoja-mode/publish.ts:243-480` | without failures a batch of any number of new tasks, beside whatever operations it ignores and whatever unconfirmed creates it resolves first, files each of them as exactly one new issue, linked, owned and agreeing with its task down to the comment and the state of a task already done; each unconfirmed create of another task is linked exactly when its issue can be found and proved; every issue and comment that was there stays, and so does every other association |
| `HojaFiling.QuietFilingConverges` | `extensions/hoja-mode/publish.ts:373-479` | the same for one operation of a batch |
| `HojaAdopting.QuietAdoptionConverges` | `extensions/hoja-mode/publish.ts:331-364` | without failures, naming an issue that somebody else works on leaves it as it is and files one sub-issue beneath it, in its team: linked, owned and truthful about the task |
| `HojaAdopting.QuietSharedPassConverges` | `extensions/hoja-mode/lifecycle.ts:243-297` | the same for a pass over such a record |
| `HojaFiling.FiledIssueIsReady` | `extensions/hoja-mode/publish.ts:419-479` | an issue as this session files it meets every condition of convergence |
| `HojaConvergence.MergeStaysOwned` | `extensions/hoja-mode/lifecycle.ts:300-325` | a managed write never removes the ownership marker, contains the section it was given and is its own fixed point |
| `HojaConvergence.FiledIssueIsOwned` | `extensions/hoja-mode/publish.ts:422-434` | an issue as this session files it satisfies the ownership that convergence needs |
| `HojaConvergence.CommentFits` | `extensions/hoja-mode/lifecycle.ts:169-180` | a comment cut at the client's limit keeps its marker line whenever the text above that line fits |
| `HojaSession.SyncTask` | `extensions/hoja-mode/lifecycle.ts:209-435` | the step-by-step pass computes exactly `LifecycleSync.Sync`, of which `PassTellsTheTruth`, `SyncAudited`, `SyncKeeps`, `DeletedIsLeftAlone` and `QuietPassConverges` speak |
| `HojaPublisher.PublishBatch` | `extensions/hoja-mode/publish.ts:243-480` | the step-by-step batch computes exactly `Publish.PublishBatch`, of which `LostCreateIsLinkedIff`, `PublishBatchAudited`, `PublishBatchKeeps`, `NotForHojaIsLeftAlone` and `QuietBatchConverges` speak, and operation by operation `FiledIff` and `AdoptedIff` |
| `HojaPublisher.HojaMode.ToolResult` | `extensions/hoja-mode/extension.ts:411-455` | what a batch did is durable; the associations move on only if the session is still the one that began |
| `HojaRecords.ReplayHojaRecords` | `extensions/hoja-mode/publish.ts:126-136` | the loop computes the replay of the journal |
| `HojaRecords.ReplayIsNewest` | `extensions/hoja-mode/publish.ts:125-136` | a replay yields, for each task, the last record journaled for it, and none for a task without one |
| `ManagedBlock.MergeReplacesOnlyTheBlock` | `extensions/hoja-mode/lifecycle.ts:114-124` | a merge into a well-formed description puts exactly the new section between the texts that were around the old block, and the result is well formed |
| `ManagedBlock.LastMergeWins` | `extensions/hoja-mode/lifecycle.ts:116-124` | merging twice is merging the last section |
| `ManagedBlock.UpdateKeepsTheOutside` | `extensions/hoja-mode/lifecycle.ts:114-124` | updating a description that has a block leaves everything outside it as it was and only the latest update counts, whenever no text of the task holds the end marker |
| `ManagedBlock.MergeIdempotentIffWellFormed` | `extensions/hoja-mode/lifecycle.ts:116-124` | merging a section a second time changes nothing if and only if the description was well formed |
| `ManagedBlock.OrphanBreaksTheMerge` | `extensions/hoja-mode/lifecycle.ts:116-124` | what two merges do to a description with an orphan marker |
| `ManagedBlock.SectionIsProperIff` | `extensions/hoja-mode/lifecycle.ts:100-112` | a rendered section closes only at its end if and only if no text of the task holds the end marker |
| `ManagedBlock.RenderManagedSection` | `extensions/hoja-mode/lifecycle.ts:100-112` | the loop renders the section of the specification |
| `ManagedBlock.SeparatorSetsOff` | `extensions/hoja-mode/lifecycle.ts:123` | an appended section is set off by a blank line, with no more newlines than that takes |
| `WrittenOut.SectionWrittenOut` | `extensions/hoja-mode/lifecycle.ts:100-112` | the managed section of any task, line by line |
| `WrittenOut.CommentWrittenOut` | `extensions/hoja-mode/lifecycle.ts:169-180` | the completion comment of any task, line by line |
| `WrittenOut.DescriptionWrittenOut` | `extensions/hoja-mode/publish.ts:115-123` | the description of a new issue, paragraph by paragraph |
| `WrittenOut.SubissueWrittenOut` | `extensions/hoja-mode/lifecycle.ts:185-187` | the description of a sub-issue |
| `WrittenOut.MarkersWrittenOut` | `extensions/hoja-mode/publish.ts:109-113` | both markers, from the safe characters of session and task and their length limits |
| `WrittenOut.TrimIs` | `extensions/hoja-mode/lifecycle.ts:131` | trimming takes the white space from both ends and nothing else |
| `JsText.HasLineIsSome` | `extensions/hoja-mode/lifecycle.ts:128-132` | the recursive test for a marker line agrees with splitting into lines and trimming each |
| `Markers.MergeKeepsMarkerLines` | `extensions/hoja-mode/lifecycle.ts:116-137` | the lines of a merged description are the human lines and the section's: a marker line outside the block survives, and none is invented |
| `Markers.TaskMarkersAgreeIff` | `extensions/hoja-mode/publish.ts:109-113` | two tasks share a link marker if and only if both sanitized names agree |
| `Markers.AnswerMarkersAgreeIff` | `extensions/hoja-mode/lifecycle.ts:154-158` | a comment marker is new if and only if the revision is |
| `Markers.OwnDescriptionIsRecognized` | `extensions/hoja-mode/publish.ts:115-123` | an issue written for a task is recognized as that task's |
| `Markers.OwnSubissueIsRecognized` | `extensions/hoja-mode/lifecycle.ts:185-187` | so is a sub-issue |
| `Markers.OwnCommentIsRecognized` | `extensions/hoja-mode/lifecycle.ts:169-180` | a comment carries the marker it was written with |
| `Markers.CutCommentIsRecognized` | `extensions/hoja-mode/lifecycle.ts:169-180` | so does one cut anywhere below its marker line |
| `Markers.CreationIsAMerge` | `extensions/hoja-mode/publish.ts:115-123` | the description of a new issue is the merge of its section into its head, with the link marker outside the block |
| `Markers.RenderCompletionComment` | `extensions/hoja-mode/lifecycle.ts:169-180` | the loop renders the comment of the specification |
| `AnswerRevision.AnswerRevision` | `extensions/hoja-mode/lifecycle.ts:141-151` | the loop computes FNV-1a of the canonical text as eight hex digits |
| `WrittenOut.CanonicalWrittenOut` | `extensions/hoja-mode/lifecycle.ts:141-144` | the canonical text of any answers, separators included |
| `WrittenOut.KnownHashes` | `extensions/hoja-mode/lifecycle.ts:145-150` | the hash agrees with the published values of 32-bit FNV-1a for the empty text and for `a` |
| `AnswerRevision.MixDetermines` | `extensions/hoja-mode/lifecycle.ts:147-148` | one step of the hash is a bijection in the word and in the code point |
| `AnswerRevision.OneCodePointChangesTheRevision` | `extensions/hoja-mode/lifecycle.ts:141-151` | canonical texts of equal length that differ in exactly one code point have different revisions |
| `AnswerRevision.CanonicalDetermines` | `extensions/hoja-mode/lifecycle.ts:142-144` | without separator characters in the fields the canonical text determines the answers |
| `AnswerRevision.SeparatorsCollide` | `extensions/hoja-mode/lifecycle.ts:142-144` | with them two different questions can share a revision |
| `AnswerRevision.Hex8Determines` | `extensions/hoja-mode/lifecycle.ts:150` | the eight digits determine the word |
| `AnnoyedProtocol.AtMostOnePublication` | `extensions/annoyed/extension.ts:49-85` | in every interleaving publish is called at most once, at most one invocation holds the reservation, and a row that says `ready` has no live owner that could still post |
| `AnnoyedProtocol.UrlIsPermanent` | `extensions/annoyed/extension.ts:50-58` | once the row has a URL and no invocation holds an older row, the URL stays through every continuation, split merges included, and an invocation that begins later neither judges nor posts |
| `AnnoyedProtocol.UrlIsPermanentIff` | `extensions/annoyed/store.ts:201-207` | the URL survives every continuation if and only if no invocation holds a row it read before the URL was there |
| `AnnoyedProtocol.WholeIsNeverStale` | `extensions/annoyed/store.ts:201-207` | when merges read and write without letting go, none ever does |
| `AnnoyedProtocol.SplitMergeLosesUrl` | `extensions/annoyed/store.ts:201-207` | with the read and the write of a merge separated there is a run that loses the URL |
| `AnnoyedProtocol.RunKeeps` | `extensions/annoyed/extension.ts:49-85` | every step of every invocation keeps the invariant |
| `AnnoyedTool.Execute` | `extensions/annoyed/extension.ts:49-87` | the tool's steps are a path of one invocation through the protocol from beginning to end, on its own row only. It returns a URL if and only if the row ends with that URL. What it answers, what it leaves in the row and whether it published follow from the row it found: a published report returns its URL; one that somebody was posting is looked for, and confirmed when it is found; a new one, or one given back with its verdict, is judged and posted, with the status of each failure and cancellation; any other belongs to somebody else |
| `AnnoyedTool.Post` | `extensions/annoyed/extension.ts:73-85` | from the reservation on, the steps are the protocol's, and publish is called exactly when the path says so |
| `AnnoyedTool.Reconcile` | `extensions/annoyed/extension.ts:52-58` | looking for an earlier publication is the protocol's and never publishes |
| `AnnoyedTool.SoloIsARun` | `extensions/annoyed/extension.ts:49-87` | an invocation that runs alone is one of the protocol's interleavings |
| `AnnoyedStore.Store.Upsert` | `extensions/annoyed/store.ts:142-177` | a known fingerprint is counted and keeps its metadata, a new one is inserted |
| `AnnoyedStore.Store.Reserve` | `extensions/annoyed/store.ts:179-199` | the creator of a row, or whoever finds it ready with a verdict, gets the reservation; nobody else does |
| `AnnoyedStore.Store.SetMetadata` | `extensions/annoyed/store.ts:201-207` | a patch changes the fields it names on one row |
| `AnnoyedStore.BoundTranscript` | `extensions/annoyed/store.ts:67-80` | the longest run of most recent entries that fits the budget is kept |
| `HistorySearch.ReadPage` | `extensions/history-search/extension.ts:105-117` | a page shows as many whole records as fit from its offset: its transcript can be cut into exactly these records, in order; a record too large for any page is alone on its page and cut |
| `HistorySearch.RowsAreTheRecords` | `extensions/history-search/extension.ts:105-117` | the rows are those records of the file that are not skipped, in file order |
| `HistorySearch.PageIsUnique` | `extensions/history-search/extension.ts:105-117` | no other page meets that promise |
| `HistorySearch.ReadAll` | `extensions/history-search/extension.ts:105-117` | following `nextOffset` from 0 terminates |
| `HistorySearch.PagesPartition` | `extensions/history-search/extension.ts:105-117` | the transcripts of the pages, one after another, can be cut into all records of the log in order, each whole unless it is larger than any page |
| `HistorySearch.PageShowsWholeRecordsIff` | `extensions/history-search/extension.ts:105-117` | no transcript exceeds its limit, and a page shows its records whole unless it is a single record larger than the limit |
| `HistorySearch.TruncateUtf8` | `extensions/history-search/extension.ts:35` | the cut is made at the last byte within the limit that does not continue a character |
| `HistorySearch.Search` | `extensions/history-search/extension.ts:89-90` | the streamed hits are the first `limit` of any stable sort of the whole stream, most recent first |
| `HistorySearch.KeepInsert` | `extensions/history-search/extension.ts:90` | a hit that was dropped could never have come back |
| `HistorySearch.SortAllIsStable` | `extensions/history-search/extension.ts:90` | the sort is sorted and keeps the order of equal timestamps |
| `HistorySearch.StableSortIsUnique` | `extensions/history-search/extension.ts:90` | there is only one stable sort |
| `Footer.FooterVisibleWidth` | `extensions/conversation-metrics/extension.ts:71-81` | the loop measures the cells of all tokens |
| `Footer.AnsiLen` | `extensions/conversation-metrics/extension.ts:69` | a text starts with an escape if and only if one of its prefixes has the shape of the pattern, and then this is its length |
| `Footer.CellsAreTabled` | `extensions/conversation-metrics/extension.ts:84-96` | the width of every code point, as a table of blocks |
| `Footer.PairsAreCounted` | `extensions/conversation-metrics/extension.ts:77` | surrogate pairs in order are the code points from 0x10000 on |
| `Footer.ClampFooterRow` | `extensions/conversation-metrics/extension.ts:104-123` | the row itself if it fits, and else its longest run of whole tokens that fits, with a reset if an escape is among them |
| `Footer.ClampFits` | `extensions/conversation-metrics/extension.ts:98-123` | a clamped row, measured again, never exceeds the width |
| `Footer.ClampAgain` | `extensions/conversation-metrics/extension.ts:104-123` | clamping again changes nothing |
| `Footer.EscapesStayWhole` | `extensions/conversation-metrics/extension.ts:98-123` | an escape is kept whole or dropped whole |
| `Footer.WrapFooterText` | `extensions/conversation-metrics/extension.ts:51-67` | the loop fills lines greedily with whole words and cuts a word too long for any line |
| `Footer.WrappedLinesFit` | `extensions/conversation-metrics/extension.ts:51-67` | no line is longer than the width |
| `Footer.WrappingLosesOnlySpace` | `extensions/conversation-metrics/extension.ts:51-67` | the text is the lines in order with nothing but white space between and behind them |
| `Footer.WrapsOnlyWhenFull` | `extensions/conversation-metrics/extension.ts:51-67` | a line breaks only where the next word would not fit, and only a word longer than any line is cut |
| `Footer.SplitConcat` | `extensions/conversation-metrics/extension.ts:55` | cutting the text into words loses nothing |
| `Footer.SplitAlternates` | `extensions/conversation-metrics/extension.ts:55` | words and runs of white space alternate |
| `HookReplay.SwapPairs` | `extensions/swarm-transport-parity/extension.ts:198-203` | the in-place loop swaps exactly the completed pairs and tells whether there was one |
| `HookReplay.ReplayHookOrder` | `extensions/swarm-transport-parity/extension.ts:191-205` | the replay when some prompt before the latest one has its hook directly behind it, and nothing otherwise |
| `HookReplay.ReplaySwapsExactlyThePairs` | `extensions/swarm-transport-parity/extension.ts:198-203` | exactly the halves of these pairs change places, each with the other |
| `HookReplay.ReplayIsPermutation` | `extensions/swarm-transport-parity/extension.ts:191-205` | a replay is a product of disjoint swaps of completed pairs: no message is lost or invented, prompts keep their order and so do hook messages, and everything from the latest prompt on is unchanged |
| `SemVer.ParsesWhatItDenotes` | `extensions/swarm-update/extension.ts:24-28` | parsing a text yields a version if and only if the text is that version written out: three numbers in decimal and its identifiers, made of letters, digits and dashes, joined by dots |
| `SemVer.ValuesPrecede` | `extensions/swarm-update/extension.ts:40` | numerals compare as the numbers they spell: without leading zeros, the longer is larger, and of equal length the first differing digit decides |
| `SemVer.SplitDotsJoins` | `extensions/swarm-update/extension.ts:27` | splitting a prerelease loses nothing and leaves no dot in an identifier |
| `SemVer.CompareVersions` | `extensions/swarm-update/extension.ts:30-45` | the loops compute the comparison of the parsed versions, or reject a text that does not parse |
| `SemVer.ComparesBySection11Iff` | `extensions/swarm-update/extension.ts:30-45` | the comparison is the precedence of section 11 of Semantic Versioning 2.0.0, and antisymmetric, if and only if the first differing identifiers do not spell one number in two ways |
| `SemVer.StrictVersionsAreTotallyOrdered` | `extensions/swarm-update/extension.ts:30-45` | without leading zeros it is a total order: antisymmetric, transitive, and zero only on equal versions |
| `SemVer.LeadingZeroIsNotAntisymmetric` | `extensions/swarm-update/extension.ts:40` | two accepted versions that each compare as less than the other |

## Left out

- `HojaConvergence.QuietPassConverges`: asks that neither fence occurs out of place and that the link marker stands outside the block, because a merge into any other description is not stable (`ManagedBlock.OrphanBreaksTheMerge`).
- `HojaReports.PassTellsTheTruth`: names the cause of an error for scripts that do not run out during the pass; a shorter script means the same as one continued by quiet ticks.
- `SemVer.CompareVersions`: numbers are exact, where the source's are exact up to 2^53.
- `HistorySearch.Search`: hits carry the rank of their timestamp; the locale's order of timestamp texts is not modelled.
- `HistorySearch.ReadPage`: works on rows already rendered and redacted; the files, the scan budget and the redaction patterns are outside the model.
- `HojaPublisher.HojaMode.ToolResult`: the recovery queue and the retry of queued tasks after a project was discovered are left out; a retry is one more batch.
- `AnnoyedStore.Store.Upsert`: covers the metadata and the count of a row; its other columns are left out.
- `AnnoyedStore.BoundTranscript`: works on the serialized sizes of the entries.
- `AnnoyedTool.Execute`: input validation, redaction and the wording of reports and results are left out; destination, receipt and marker are one label.
- Issue ids are positions on the server, so a record with an empty id does not arise; the server returns all comments of an issue, where the client asks for the first hundred; nobody deletes an issue or a comment, and nobody edits a comment: editing the marker line out of a completion comment whose outcome is settled makes a second one possible.
- Assignees, issue titles and their length limit, timestamps, and metadata values that are not strings.
- Joining results to operations by key, and the normalisation of a TaskManage payload into its facts.
- Letters outside ASCII keep their case when names of projects and states are compared.
- The recovery queue's own bookkeeping: `refreshPending`, `mergePending`, the discovery of projects and its notes.
- Creating projects, the read tools and their filters, and every text shown to a user or a model.
- `expandHookSlots`, `jsonSearch`, the update check and its timers, the small session toggles.
- The clients behind Hoja, GitHub, SQLite and the file system: each is an outcome of a request.
