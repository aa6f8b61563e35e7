# NetRollout: the hard parts, proved

NetRollout pushes commands to network devices over SSH and says, device by device, what they did. This project
models the parts of it whose correctness spans many steps, and proves what they keep.

- **The evidence judge** (`Words`, `Config`, `Snapshots`, `Typing`, `Verdicts`, `Judges`, `Pushes`). A device's
  configuration is parsed into lines with section paths, two snapshots are compared as multisets, a third teaches the
  device's own churn, and the commands are walked with a section context. `Judges.Judge` does the passes in place;
  `Verdicts` says what they compute. `JudgeLaws` and `JudgeFacts` prove what a verdict is worth: replies prove nothing,
  evidence is never shared, sections are real, every verdict is a fact about the two snapshots. `ConfigLaws`, `NoiseLaws`,
  `TypingLaws`, `JudgePlaces`, `JudgeMakers` and `JudgeFinals` say each part's result exactly, from the rows, lines and words
  alone; `ForestPushes` takes a whole push from printed rows to its verdicts.
- **The rollout orchestrator** (`Orchestrators`, `Rollouts`, `RolloutLaws`, `RolloutQueue`). The regions under its lock as methods of a
  class; then every interleaving of submits, withdrawals, dispatches, cancels, drains, ends and saves - with the store
  failing - as a transition system over them.
- **The discovery scan** (`Scans`, `ScanLaws`). Its books under one lock; then every interleaving of port checks, four
  sign-in workers, Continue and Cancel.
- **The HTTPS port trial** (`PortTrials`, `PortLaws`). The app and the port helper over the files they share, the
  helper's passes interleaved write by write and dying anywhere.
- **Discovery targets** (`DiscoveryTargets`, `TargetLaws`), **the live log** (`LiveLogs`, `LiveLogRuns`), **host keys**
  (`HostKeyStore`, `HostKeyChecks`) and **scheduled backups** (`BackupSchedules`).

Code that updates state in place is modelled as classes, loops and methods, each proved against a specification function
or against the property itself; the laws are lemmas about those functions and about every run of the transition systems.

Where the code and its own words disagree, the model follows the code:

- A helper that dies in a trial is said to be rolled back by the next pass. That is so exactly while the trial's status is
  recorded (`PortLaws.RecordedTrialEnds`, `PortLaws.TakenUpIsTakenDown`). Before that, the next look takes the trial up only if
  the request is still open and can be tried; otherwise what is set up - entry, file or both - stays until another request
  (`PortLaws.NextLookAbandonsIff`, `PortLaws.AbandonedForGood`): the request may have been undone, or a newer one may ask for the
  port in use (`PortLaws.UndoneRequestAbandons`, `PortLaws.NewerRequestAbandons`).
- A trial rolled back is said to leave the port as it was. A keep that died may have set it already: exactly then it does not
  (`PortLaws.RollbackRestoresIff`, `PortLaws.KeptPortCanBeRolledBack`).
- A live log's reader is said to lose nothing. It does so exactly if its history holds every line whose publish failed and the
  messages beyond the history came in the order of the lines (`LiveLogRuns.CompleteIffInOrder`). Lines added one at a time, none
  failing, are enough (`LiveLogRuns.SerialIsComplete`); two writers, or one failure, can lose a line
  (`LiveLogRuns.TwoWritersCanLoseALine`, `LiveLogRuns.FailedPublishLosesALine`).
- A rollout's devices are said to be held until it ends. A queue entry stored by an enqueue that then raises breaks that
  (`RolloutLaws.OnlyWithdrawFreesEngine` says exactly when, `RolloutLaws.LostEnqueueSharesDevice` gives a run).
- A failed submit is said to leave nothing behind. If its job was ended as cancelled, or started, before it was withdrawn, the
  counters stay off by it: exactly then (`RolloutLaws.CountersReturnToZero`, `RolloutLaws.WithdrawnAfterItsEnd`).
- A failed backup is said to be retried after an hour. The hour counts from the whole second it ran in
  (`BackupSchedules.RunsAgainIff`), so it can be less, exactly as `BackupSchedules.EarlyRetryIff` says.

## Model

| member | source | states |
|---|---|---|
| Words.SameWordIsPartialOrder | src/rollout/evidence.py:69-85 | abbreviation is a partial order on words: reflexive, antisymmetric, transitive |
| Words.OnlyLettersAreAbbreviated | src/rollout/evidence.py:69-85 | an abbreviation leaves out letters only, right after its own leading letters; a word with fewer than two leading letters stands for itself alone |
| Words.AbbreviationIff | src/rollout/evidence.py:69-85 | letters left out between a word's own letters and what follows them: the same word exactly from two letters on |
| Words.NamesIff | src/rollout/evidence.py:88-93 | a removal's word names a word it abbreviates, or one that goes on with a hyphen right after it, and no other |
| Words.ContainsWords | src/rollout/evidence.py:96-107 | the cursor loop answers the greedy `Contains`, for any relation between words |
| Words.ContainsIffEmbeds | src/rollout/evidence.py:96-107 | greedy containment holds exactly when some order-preserving embedding of the command's words into the line exists, for any relation |
| Words.ContainsIsTransitive | src/rollout/evidence.py:96-107 | containment by a transitive relation is transitive |
| Words.SameWordIsTransitive | src/rollout/evidence.py:69-79 | so containment by abbreviation is transitive |
| Words.MatchesThenContains | src/rollout/evidence.py:96-113 | a line that is exactly the command also contains it |
| Config.Parse | src/rollout/evidence.py:138-169 | the row loop with its stack of open levels yields `Lines`, and every non-empty path in it is opened by an earlier line |
| Config.LinesAreOpened | src/rollout/evidence.py:138-169 | whatever a device prints, each section path parsed is the `Inside` of a line printed before |
| Config.RoundTrip | src/rollout/evidence.py:138-169 | any forest of sections, printed indented by depth with or without block-closing rows, parses to exactly its pre-order lines with their ancestors as path |
| ConfigLaws.CommentEndsSections | src/rollout/evidence.py:154-157 | rows, a comment at column 0, more rows: the lines of the first, then those of the others read from the top |
| ConfigLaws.BlankIsNothing | src/rollout/evidence.py:152-153 | a blank row can be left out anywhere |
| ConfigLaws.IndentedCommentIsNothing | src/rollout/evidence.py:154-157 | so can an indented comment |
| ConfigLaws.FlatRowIsLine | src/rollout/evidence.py:158-160 | in a flat configuration any other row is exactly one line, with no path, in its place |
| ConfigLaws.PathIsHeadersAbove | src/rollout/evidence.py:138-169 | whatever the indentation: a row that is a line has the headers of the nearest row further out, and that row, as its path - looked up from below, without a stack |
| ConfigLaws.EveryRowConsists | src/rollout/evidence.py:150-162 | every row is blank, or white space, a stripped text and white space: these laws are about all of them |
| ConfigLaws.WordsAreSpaced | src/rollout/evidence.py:50-66 | a text's words are what stands between white space and commas; its first word is what stands before white space |
| Snapshots.Split | src/rollout/evidence.py:181-199 | one Counter pass splits the lines of a snapshot into those a stock of keys covers and those it does not |
| Snapshots.Compare | src/rollout/evidence.py:172-199 | the two Counter passes compute `Difference` |
| Snapshots.DifferenceIsExact | src/rollout/evidence.py:181-199 | added + unchanged = after and removed + unchanged = before as multisets of keys, and no key is both added and removed |
| Snapshots.DifferenceIsWithin | src/rollout/evidence.py:181-199 | every changed line is a line of its own snapshot |
| Snapshots.LastOnesAreSurplus | src/rollout/evidence.py:181-199 | of a line that is there more than once, the first ones are unchanged and the last ones added, in their order |
| Snapshots.LearnNoise | src/rollout/evidence.py:209-248 | the loops over gone and new lines compute `Noise`, and every line changed between the two snapshots is covered by it |
| Snapshots.NoiseCoversEveryChange | src/rollout/evidence.py:209-248 | no line changed between after and again escapes the learned churn |
| NoiseLaws.NoiseIs | src/rollout/evidence.py:209-248 | what is learned, exactly: per line that went, the longest start a new line of its section begins with, or all of it; and each new line, whole, that begins with neither such a lead nor an earlier new line |
| NoiseLaws.QuietSectionIsNoNoise | src/rollout/evidence.py:209-248 | a line of a section nothing changed in between the two snapshots is never noise |
| Snapshots.RevertedIsAllNoise | src/rollout/evidence.py:209-248 | learned against a third snapshot equal to the first, the churn covers every change of the push |
| Typing.TypeCommands | src/rollout/evidence.py:319-362 | the loop with its "edit" path types the commands as `TypedCommands`: one per command sent, in order, each judged one with words |
| Typing.RelativeIsAbsolute | src/rollout/evidence.py:319-362 | however deep its "edit" sections, a flat script is judged by the very words of its settings written in full |
| TypingLaws.TopStartsAgain | src/rollout/evidence.py:348-350 | after a bare "top" or an "end", whatever came before: judged as if nothing had |
| TypingLaws.OwnWordsAfterUp | src/rollout/evidence.py:351-353 | after an "up", each set or delete is judged by its own words until the next top or end |
| TypingLaws.RestRunsElsewhere | src/rollout/evidence.py:339-343 | "top" and "up N" with more on the line: judged by exactly that rest, and nothing changes for the commands after it |
| TypingLaws.OthersMoveNothing | src/rollout/evidence.py:335-362 | any other command is judged by its own words, unless empty or for the exec mode, and moves nothing |
| TypingLaws.LeavingAtTopMovesNothing | src/rollout/evidence.py:354-356 | a word that leaves a section, with none open, moves nothing |
| TypingLaws.SectionsLeaveNoTrace | src/rollout/evidence.py:319-362 | sections left again, typed anywhere, change nothing for the commands after them |
| TypingLaws.FlatKinds | src/rollout/evidence.py:335-362 | which commands of a flat configuration only move, are for the exec mode, or are judged |
| TypingLaws.EachByItself | src/rollout/evidence.py:335-338 | where there are sections, each command is typed by itself |
| Judges.Judge.constructor | src/rollout/evidence.py:373-405 | the judge starts at the top with no claim, over the two snapshots' difference without the churn |
| Judges.Judge.Navigate | src/rollout/evidence.py:434-443 | one section left or all of them, never one entered: the new context is a start of the old one, the same only at the top, where it is unknown, or for no word |
| Judges.Judge.Setting | src/rollout/evidence.py:463-491 | a setting's ruling, its claim and the context after it, first answer first |
| Judges.Judge.Removal | src/rollout/evidence.py:493-518 | a removal's ruling, its claim and the context after it |
| Judges.Judge.WalkCommands | src/rollout/evidence.py:407-432 | the walk: every command's first judgment, claim and section, with the books it leaves |
| Judges.Judge.Conflicts | src/rollout/evidence.py:594-604 | commands of different text resting on one line are all demoted, the others untouched |
| Judges.Judge.Defaults | src/rollout/evidence.py:606-622 | an unproven command whose line the defaults view has in its section is in place, and no longer in review |
| Judges.Judge.ReviewEvidence | src/rollout/evidence.py:533-554 | each command still in review gets its section's changes no command accounts for - the first ten added, the first ten removed - or is told there are none |
| Judges.Judge.Replies | src/rollout/evidence.py:624-645 | a command in review is rejected exactly when the device replied to it or to the navigation that closes its block |
| Judges.Judge.Changes | src/rollout/evidence.py:647-676 | every changed line, with the commands resting on it, else those of the block around it, else those that replaced it |
| Judges.Judge.Run | src/rollout/evidence.py:407-432 | the passes in place, on the mutable books, compute `OutcomeOf` |
| JudgeLaws.RepliesProveNothing | src/rollout/evidence.py:407-531 | two runs that differ only in replies: same changes and makers; a proven verdict is the same; others differ only between review and rejected - or, for a removal that found nothing, "already absent" |
| JudgeLaws.EvidenceIsNeverShared | src/rollout/evidence.py:463-518 | every proven command is a maker of a change with its evidence's sign and line, all makers of that change have the same normalized text, and so the distinct proven texts are at most the changed lines |
| JudgeFacts.CaseIsGrounded | src/rollout/evidence.py:373-405 | an added line the judge sees is in the after snapshot more often than before, in its own section; a removed one less often |
| JudgeFacts.SectionIsReal | src/rollout/evidence.py:568-592 | at every step the context is known: the top, or the `Inside` of a line of the after snapshot |
| JudgeFacts.SectionsArePrinted | src/rollout/evidence.py:524-531 | a judgment's section is made of headers the device printed, in order: the fallback to the normalized text is never taken |
| JudgeFacts.RulingsHold | src/rollout/evidence.py:463-518 | each ruling is a fact: the line it rests on is in reach and says the words; the answers before it in the order do not exist |
| JudgeFacts.VerdictsAreFacts | src/rollout/evidence.py:407-432 | so is every final verdict, after conflicts, defaults, evidence and replies |
| JudgeFacts.UnprovenHasNoEvidence | src/rollout/evidence.py:463-491 | a setting left unproven without a claim: no added or removed line in reach says it, no unchanged one is it, nor is one of the defaults |
| JudgeFacts.RevertedPushProvesNothing | src/rollout/evidence.py:377-405 | judged with a third snapshot equal to the first, nothing took effect or was removed and every change is the device's own |
| JudgePlaces.CommandsArePlaced | src/rollout/evidence.py:407-592 | every push, every command: in a known section, resting on the deepest and first line that answers - added before unchanged -, and leading exactly inside it if a line of either snapshot or the view is there, else to its own section; a removal stays; an exit is one section out |
| JudgePlaces.TestsMean | src/rollout/evidence.py:96-113 | what each of the four tests asks of a line, word by word |
| JudgeMakers.ChangesAreMade | src/rollout/evidence.py:556-676 | who made each change, exactly: whoever claims it, else whoever claims a line that opens a section around it, else whoever claims an added line with its first two words or all of them; and the other changes are, in order, those nobody made |
| JudgeMakers.NoChangeIsLost | src/rollout/evidence.py:373-396 | every line the snapshots differ in is a change once: noise as the device's own, any other as somebody's |
| JudgeFinals.JudgmentsAreFinal | src/rollout/evidence.py:407-432 | every final judgment, exactly: by its ruling, the other claims of its line, the first line of the defaults view, the section's free changes and the replies |
| JudgeFinals.ReviewsAreShown | src/rollout/evidence.py:533-554 | a changed line names exactly the commands in review it is one of the first ten free lines for |
| JudgeFinals.ReviewNamesItsSection | src/rollout/evidence.py:524-531 | a command in review names its own section, header by header as printed, whatever came of it |
| JudgeFinals.ClaimedLinesAreKept | src/rollout/evidence.py:429-432 | what the outcome keeps are exactly the lines some command claims |
| Pushes.JudgePush | src/rollout/evidence.py:679-728 | from printed configurations to the outcome: parse, learn churn, type, walk; one judgment per command sent, in order |
| Pushes.PushVerdictsAreFacts | src/rollout/evidence.py:679-728 | whatever a device prints, the case is grounded, every judged command's verdict a fact about the two configurations, and every section known and made of printed headers |
| Pushes.PushRepliesProveNothing | src/rollout/evidence.py:679-728 | the same push with other replies has the same proofs |
| Pushes.UndonePushProvesNothing | src/rollout/evidence.py:724-728 | a push undone before the third snapshot proves nothing and leaves no unexplained change |
| ForestPushes.FirstPushTakesEffect | src/rollout/evidence.py:679-728 | end to end: a configuration printed where there was none, typed line by line with each section left again: every command is judged at the path of its own line, took effect by it and made that change alone, whatever the device replied |
| Orchestrators.RolloutJob.Claim | src/jobs.py:382-392 | a job is claimed exactly once, while it waits |
| Orchestrators.Orchestrator.FindConflicts | src/jobs.py:674-676 | the devices asked for that are held, each with its holder - which is always in the table |
| Orchestrators.Orchestrator.Submit | src/jobs.py:622-632 | refused, busy with the exact conflicts, or in the table with its devices held - and the table stays exclusive |
| Orchestrators.Orchestrator.Remove | src/jobs.py:665-672 | a job out of the table and exactly its devices free |
| Orchestrators.Orchestrator.Cancel | src/jobs.py:709-722 | a waiting job is claimed, a claimed one asked to stop - that one alone -, an unknown one nothing |
| Orchestrators.Orchestrator.Dispatch | src/jobs.py:776-785 | an entry's job is claimed exactly when it is in the table, waits, and nothing drains |
| Orchestrators.Orchestrator.StartDrain | src/jobs.py:814-818 | the drain's first step claims exactly the waiting jobs |
| Orchestrators.Orchestrator.StartFinalize | src/jobs.py:883-888 | out of the table and announced as being saved in one step; a job not there changes nothing |
| Orchestrators.Orchestrator.IsIdle | src/jobs.py:574-578 | nothing in the table and nothing being saved |
| Orchestrators.NoSharedDevice | src/jobs.py:614-632 | an exclusive table: no two jobs share a device, and the devices held are exactly the jobs' targets |
| RolloutLaws.TableIsExclusive | src/jobs.py:614-676 | every interleaving, whatever fails: no two jobs in the table share a device; held is exactly the table's devices, each mapped to its job |
| RolloutLaws.OnlyWithdrawFreesEngine | src/jobs.py:645-672 | exactly one kind of step takes a running rollout's devices away: withdrawing a submit whose job the dispatcher has claimed |
| RolloutLaws.DevicesAreExclusive | src/jobs.py:614-676 | if no submit fails after its entry is stored, a running rollout's devices stay held by it and no two engines share a device |
| RolloutLaws.LostEnqueueSharesDevice | src/jobs.py:639-663 | the fault left out does break it: a run in which two engines are on one device, for any device |
| RolloutLaws.OnceEach | src/jobs.py:382-392 | a job is claimed once at most, so started or recorded as cancelled and never both, and saved once at most |
| RolloutLaws.SlotsAreConserved | src/jobs.py:769-799 | free slots + live engine threads + the dispatcher's own slot is always the maximum |
| RolloutLaws.CountersReturnToZero | src/jobs.py:166-215 | whatever submits fail, if every best-effort step works: once the table is empty and nothing is under way, the counters are off by exactly the withdrawn jobs that were started or ended all the same - zero exactly if there are none |
| RolloutLaws.WithdrawnAfterItsEnd | src/jobs.py:639-663 | the failing side is reached: a submit that fails after its job was cancelled and ended takes the pending count to -1 |
| RolloutLaws.PausedStaysAtRest | src/jobs.py:567-584 | paused and idle: no later step begins or ends a save, and no job's saves change, until a resume |
| RolloutLaws.DrainStarts | src/jobs.py:814-818 | the drain's first step leaves no waiting job: none of them has an engine |
| RolloutLaws.DrainedOnlyShrinks | src/jobs.py:801-818 | after it no job that waited ever starts, the table only shrinks, no submit enters, and no resume reopens |
| RolloutQueue.EntriesMove | src/jobs.py:176-188 | every queue entry comes from its enqueue, and goes by a dispatch, a cancel, a withdrawal or a loss, each of its own job |
| RolloutQueue.NothingIsForgotten | src/jobs.py:606-799 | while the store loses no entry: every rollout submitted whole and claimed by nobody is in the table with exactly one entry, whatever else fails |
| RolloutQueue.FlagsAre | src/jobs.py:567-584 | only a pause and a resume change the one flag; a drain sets the other for good |
| Scans.DiscoveryScan.Proceed | src/discovery/scan.py:208-218 | Continue works on a paused scan alone: a new count, no failures |
| Scans.DiscoveryScan.Cancel | src/discovery/scan.py:220-231 | a running or paused scan turns to cancelling, any other stays |
| Scans.DiscoveryScan.Status | src/discovery/scan.py:233-238 | the phase, the counts with each reason's lines, the last event's number, and the events after `since`: shown after those before, they give exactly the phase, lines and findings held |
| Scans.PageFollows | src/discovery/scan.py:233-238 | a page that asks only for the events after those it has shows the scan |
| Scans.DiscoveryScan.RecordCheck | src/discovery/scan.py:308-312 | a port check counted, and told on a small scan |
| Scans.DiscoveryScan.TakeTurn | src/discovery/scan.py:364-378 | blocked while paused, refused unless running, else a start no sooner than the gap - under the Continue count of now |
| Scans.DiscoveryScan.Fail | src/discovery/scan.py:381-391 | a line; the failure counts, and pauses, only under the Continue count it was begun under |
| Scans.DiscoveryScan.Detect | src/discovery/scan.py:393-408 | a finding with the next id, or a line when the platform is a neighbour's |
| Scans.DiscoveryScan.AddLine | src/discovery/scan.py:410-419 | a line and its event, with what ended |
| Scans.DiscoveryScan.End | src/discovery/scan.py:287-290 | the login dropped, and done or cancelled |
| ScanLaws.AtMostSixWrong | src/discovery/scan.py:358-391 | under one Continue count at most 6 sign-ins end in wrong credentials, those still under way counted in |
| ScanLaws.SixCanBeWrong | src/discovery/scan.py:358-391 | the bound is exact: a run reaches 6 |
| ScanLaws.PausesAtTheThird | src/discovery/scan.py:381-391 | a running scan pauses exactly at the third wrong password begun since the last Continue; an older one never counts |
| ScanLaws.EveryAnswerSettles | src/discovery/scan.py:272-419 | at the end every address that answered is exactly one finding or one line, no other is either, none is being signed in to; at most SIGN_INS ever were |
| ScanLaws.NoStartUnlessRunning | src/discovery/scan.py:358-379 | once not running, no sign-in starts until a Continue |
| ScanLaws.CancelledBeginsNothing | src/discovery/scan.py:220-231 | once cancelled, neither a check begins nor a sign-in starts, whatever Continue does |
| ScanLaws.StartsAreApart | src/discovery/scan.py:373-378 | any two starts are at least SIGN_IN_GAP per start between them apart |
| PortTrials.Install.Next | src/setup/port.py:126-162 | what the helper does next, branch by branch; once it is nothing, it stays nothing whatever is busy and however late, and nothing is written again |
| PortTrials.Install.Open | src/setup/port.py:171-182 | the trial's entry listed once, after the install's own files; opened again, nothing changes |
| PortTrials.Install.StartTrial | src/setup/port.py:185-189 | from now on a confirm is accepted exactly for this request, from this port, within its time |
| PortTrials.Install.Close | src/setup/port.py:192-212 | nothing of the trial is left and the compose list is the install's own; the port changes only for keep, to the one tried |
| PortTrials.Install.RequestPort | src/access/port.py:161-177 | exactly a valid port is asked for; the undo handed out gives the site back as it was, and no earlier confirm makes the helper keep a port |
| PortTrials.Install.Undo | src/access/port.py:175-177 | right after its request it restores the site; the port in use is never put back |
| PortTrials.Install.Confirm | src/access/port.py:180-196 | accepted if and only if this request is on trial, reached through the trial's own port, in time; then the helper's next step keeps that port, whatever else - else nothing is written |
| PortTrials.ClosedUndoesOpened | src/setup/port.py:171-212 | opening a trial and closing it other than by keep leaves the settings as they were |
| PortLaws.EndIsClosed | src/setup/port.py:192-212 | a trial's end taken write by write, undisturbed, is `Closed` |
| PortLaws.PortChangesOnlyIfConfirmed | src/setup/port.py:126-212 | every interleaving of requests, undos, confirms and helper passes, wherever the helper dies: the port changes only to one confirmed from itself while on trial for the request being kept |
| PortLaws.OtherEndsChangeNothing | src/setup/port.py:192-212 | while the helper lives: between trials the compose list is as it was and no trial file is left; all settings are, if no trial was kept |
| PortLaws.ComposeIsNeverLost | src/setup/port.py:171-212 | wherever the helper dies, the install's own compose files stay listed, in order |
| PortLaws.AbandonedIff | src/setup/port.py:126-162 | a trial left set up - its entry, its file or both - is never looked at again exactly when no trial is recorded and the request is none or answered |
| PortLaws.NextLookAbandonsIff | src/setup/port.py:126-162 | what a death left set up - entry, file or both - is abandoned by the next look exactly when no trial is recorded and the request is none, answered, or can not be tried; otherwise that look takes it up |
| PortLaws.TakenUpIsTakenDown | src/setup/port.py:126-212 | whatever died before: a trial recorded or taken up is gone - entry and file - whenever the helper is between trials again, however app and helper interleave |
| PortLaws.RecordedTrialEnds | src/setup/port.py:134-144 | a recorded trial's next pass ends it, by the look once past the deadline, else by a confirm or the stopwatch, and leaves nothing set up |
| PortLaws.AbandonedForGood | src/setup/port.py:126-162 | an abandoned trial stays so in every run without another request or an undo |
| PortLaws.UndoneRequestAbandons | src/setup/port.py:126-182 | the helper dies opening a trial - the file written, or the entry listed too - and the request is undone: abandoned |
| PortLaws.NewerRequestAbandons | src/setup/port.py:126-182 | the helper dies opening a trial - the file written, or the entry listed too - and a newer request can not be tried: abandoned |
| PortLaws.PortIsLastKept | src/setup/port.py:192-212 | every run, deaths included: the port is the last one kept, or the first while none was, and every port kept was confirmed from itself |
| PortLaws.RollbackRestoresIff | src/setup/port.py:192-212 | every run: a trial ended now other than by keep leaves the port it began with exactly if the port tried is not in use already |
| PortLaws.KeptPortCanBeRolledBack | src/setup/port.py:192-212 | the failing side is reached: a keep dies after setting the port, a newer request rolls the trial back |
| PortLaws.PeopleAreSentRight | src/access/port.py:140-152 | while the helper lives and between its steps, people are sent to the port in use - or to the trial's, exactly once it is confirmed |
| DiscoveryTargets.SubnetIsItsPrefix | src/discovery/targets.py:86-105 | a subnet is the addresses sharing its first bits, without network and broadcast address (IPv4 to /30) or router anycast (IPv6 to /126) |
| DiscoveryTargets.BlockIsItsPrefix | src/discovery/targets.py:23-31 | a refused block is the addresses with its first bits |
| DiscoveryTargets.EntryIsSafe | src/discovery/targets.py:129-144 | an entry read holds an address, and none of a refused block |
| TargetLaws.EntryHolds | src/discovery/targets.py:75-144 | an entry read holds exactly the addresses it means: the subnet's, the range's, the same first three octets, or the one |
| TargetLaws.EntryIsReadIff | src/discovery/targets.py:75-144 | read exactly if it is well formed and every address it means may be scanned |
| TargetLaws.BlocksAre | src/discovery/targets.py:22-31 | the refused blocks, number by number |
| TargetLaws.ProblemIs | src/discovery/targets.py:75-144 | otherwise the problem is the first of mapped, prefix, families, octet, order, and the first block it touches |
| TargetLaws.NotedIff | src/discovery/targets.py:97-99 | noted exactly if a lower address is in the same subnet |
| DiscoveryTargets.Merge | src/discovery/targets.py:147-159 | the merge loop: same addresses, spans in order with a gap between two of a family, and the flag exactly when two spans share an address |
| DiscoveryTargets.ListAddresses | src/discovery/targets.py:59-64 | exactly the spans' addresses, each once, IPv4 first and ascending |
| DiscoveryTargets.TotalIsUnion | src/discovery/targets.py:45-47 | the sizes of spans apart add up to the size of their union |
| DiscoveryTargets.ReadEntries | src/discovery/targets.py:129-144 | entries in order, up to the first that cannot be read, with their notes |
| DiscoveryTargets.ParseTargets | src/discovery/targets.py:166-185 | nothing to scan, the first bad entry's problem, too many - or spans of exactly the entries' addresses, their number within the limit, none refused, and the overlap note exactly when two entries share one |
| LiveLogs.NumberedRoundTrip | src/rollout/log.py:259-267 | a published line reads back as its number and itself, whatever it holds, and is never the end's message |
| LiveLogs.UnnumberedIff | src/rollout/log.py:259-267 | a message is read as numbered exactly if it is digits, a tab and a line |
| LiveLogs.PlainIsShown | src/rollout/log.py:356-368 | any other is shown as it is and counts for nothing |
| LiveLogs.Follow | src/rollout/log.py:342-373 | the reader's loop: the history, then what `Heard` makes of each arrival |
| LiveLogs.HeardIsFresh | src/rollout/log.py:356-368 | of the lines that arrive - with heartbeats anywhere between, and either end - exactly those numbered above all shown before are yielded |
| LiveLogs.NoneSkippedIffRising | src/rollout/log.py:362-367 | no new line is skipped exactly when they arrive in rising order |
| LiveLogRuns.NeverTwice | src/rollout/log.py:312-373 | every interleaving, with several writers, lost messages, heartbeats and the end, and wherever the reader is: lines of the log, each once at most, in order |
| LiveLogRuns.CompleteIffInOrder | src/rollout/log.py:312-373 | with no publish under way and the history read before the end: every line is shown exactly if the history holds every line whose publish failed and the messages beyond it came in order |
| LiveLogRuns.SerialIsComplete | src/rollout/log.py:312-373 | one writer at a time, no failure, heartbeats anywhere: once every message has arrived, every line once and in order |
| LiveLogRuns.TwoWritersCanLoseALine | src/rollout/log.py:312-319 | two threads appending at once can lose a reader a line |
| LiveLogRuns.FailedPublishLosesALine | src/rollout/log.py:312-319 | a publish that fails loses its line to a reader already there |
| HostKeyStore.HostKeyTable.Learn | src/host_keys.py:44-59 | a refused row accepted, else a new accepted row, else nothing; and whether it was stored |
| HostKeyStore.HostKeyTable.RecordSeen | src/host_keys.py:192-204 | learned only when writing is allowed, nothing was known at the start and nothing is accepted now |
| HostKeyStore.HostKeyTable.RecordRefused | src/host_keys.py:66-81 | kept as refused unless stored already or writing is blocked |
| HostKeyStore.HostKeyTable.Accept | src/host_keys.py:96-113 | no such key, accepted already, or accepted |
| HostKeyStore.HostKeyTable.Remove | src/host_keys.py:115-123 | one row gone, or no such key |
| HostKeyStore.HostKeyTable.Reset | src/host_keys.py:125-129 | exactly the rows of a target gone, and how many |
| HostKeyStore.AcceptIsExact | src/host_keys.py:96-113 | an admin's accept adds its key and drops exactly the target's other accepted keys of that type, unless kept |
| HostKeyStore.RowsLeft | src/host_keys.py:44-204 | row by row, exactly what each operation leaves of any table |
| HostKeyStore.ApplyKeepsAge | src/host_keys.py:44-204 | the rows stay oldest first |
| HostKeyStore.OnlyFirstUseIsTrusted | src/host_keys.py:192-215 | without an admin a key is accepted only for a target that had none, by a first connection, and alone |
| HostKeyStore.FirstKeyStays | src/host_keys.py:161-215 | over any run of connections, accepted keys once there never change without an admin |
| HostKeyStore.SerialRaceIsSaw | src/host_keys.py:192-201 | a first connection's check and store, one right after the other, are its record as serialised |
| HostKeyStore.AcceptedAreStored | src/host_keys.py:192-201 | however the checks and stores of first connections interleave: what a target accepts is what it did and what was stored for it since |
| HostKeyStore.SecondIsTrustedIff | src/host_keys.py:192-201 | a first connection's key is accepted beside another exactly if another key of its target was stored between its check and its store |
| HostKeyChecks.HostKeyCheck.constructor | src/rollout/host_keys.py:107-122 | one known key per type loaded, the first of each |
| HostKeyChecks.HostKeyCheck.Alternative | src/rollout/host_keys.py:139-151 | another known key is loaded once, for its type |
| HostKeyChecks.Connect | src/rollout/session.py:150-190 | the retry loop ends; a password goes to a known key alone; each known key is loaded at most once; the result is `OutcomeOf` |
| HostKeyChecks.OnlyKnownComeUp | src/rollout/session.py:165-182 | a connection that comes up showed a known key; one refused did not |
| HostKeyChecks.SteadyDeviceSettles | src/rollout/session.py:165-182 | a device that always shows one known key comes up, whichever was loaded first |
| HostKeyChecks.FirstIsLoaded | src/rollout/host_keys.py:107-122 | of the known keys of one type the first is loaded |
| HostKeyChecks.TimeoutIsRetriedOnce | src/rollout/session.py:150-190 | a connection that times out is made once more and only once; one not answered is not |
| HostKeyChecks.OffAdmitsAny | src/host_keys.py:161-190 | with checking off any key is let through and none is learned |
| HostKeyChecks.PinnedStays | src/rollout/host_keys.py:38-41 | under the policy pinned after learning, a connection comes up with that key alone |
| HostKeyChecks.ConnectionTrusts | src/host_keys.py:161-204 | from the table to the connection and back: it comes up with an accepted key, or learns the one key of a target that had none |
| BackupSchedules.LastSlotIsSlot | src/backup/schedule.py:38-51 | the last slot is a scheduled time at or before now, less than a step ago |
| BackupSchedules.NothingBetween | src/backup/schedule.py:38-59 | last slot <= now < next slot, both scheduled times, and no scheduled time strictly between |
| BackupSchedules.BackupFolder.RunScheduled | src/backup/schedule.py:91-120 | the stamps stay newest first; a stored backup is among the kept - at most as many as asked - and reaches its second, a failed one changes none |
| BackupSchedules.BackupFolder.Tick | src/backup/schedule.py:123-136 | a stored backup reaches its slot, which is never due again; without a recorded failure a slot not reached is never passed over |
| BackupSchedules.OneBackupPerSlot | src/backup/schedule.py:123-136 | whatever the clock does, two stored backups are for different slots |
| BackupSchedules.TickCatchesUp | src/backup/schedule.py:62-78 | while backups succeed a tick backs up exactly when a slot has come since the newest backup, once, and nothing is due after it |
| BackupSchedules.RetriesAreApart | src/backup/schedule.py:72-78 | on a clock that does not go back, two attempts for one slot are more than RETRY_SECONDS less a second apart, and all but the last failed |
| BackupSchedules.RunsAgainIff | src/backup/schedule.py:62-78 | a backup that ran at t runs again at u exactly with the next slot, or, not stored, once RETRY_SECONDS have passed since the whole second of t |
| BackupSchedules.EarlyRetryIff | src/backup/schedule.py:72-78 | a failed backup runs again within RETRY_SECONDS at some time exactly if it ran between two seconds and its slot is still the last one RETRY_SECONDS after the earlier of them |

## Left out

The evidence judge:

- `normalize`, its case folding and quoting rules, and the regular expressions around it: a parameter of the grammar, any
  function from text to text; the characters that count as space are a parameter too.
- Splitting a configuration into rows: a configuration is given as its rows.
- Platform tables (navigation, negation and exec words, which platform is flat or has closing blocks): parameters.
- The wording of notes: an enumeration with the lines and headers they name.
- The order of the makers of a change: a set, where the program sorts them into a tuple.
- ForestPushes.FirstPushTakesEffect: a device without configuration before, no line whose words are all in another of its section,
  and each section left by one command; what holds for any push is in `JudgePlaces`, `JudgeMakers` and `JudgeFinals`.

The rollout orchestrator:

- RolloutLaws.DevicesAreExclusive: excludes the fault of an enqueue that raises though the entry was stored, because there it is
  false; the exact step is `RolloutLaws.OnlyWithdrawFreesEngine`.
- RolloutLaws.CountersReturnToZero: excludes failures of the steps that are only tried, because each leaves a counter as it was.
- The engine, the results' contents, the retries and the file of last resort of a save: a save is written, or not yet. A thread that
  cannot be started, and a save that fails even into its file, are not modelled.
- The job's metadata row in the database: one step of a submit; `idle` does not cover it, in the program either.
- The drain's waits, reports and deadlines after its first step; the per-user job lists and their expiry.

The discovery scan:

- What sockets, SSH and the skip rule answer: any outcome at any time.
- The turn lock (one worker waits for its start at a time): left out of the interleavings, which only adds more of them.
- Marking a finding as created, and its release: each true on reading one function.
- A worker thread that cannot be started.

The port trial:

- Reading and writing the files' text: records with the fields the protocol uses; a port that is not a number is None.
- The wording of refusals; what nginx and Docker do, beyond opening the port or not.
- `netrollout port N`, the change by hand: another way to change the port, kept apart from a trial by the helper's lock.
- A lost update of the port nginx redirects to, when the app writes the file between the helper's read and write: the helper's own
  read and write are two steps of the model, the app's are one.

The others:

- Discovery targets: the text of entries and of addresses (zones, malformed text), and Python's `sorted`, modelled as an insertion sort.
- The live log: Redis itself; the end comes after the last line is published, its message and the removal of the history one step;
  `redact` and `dress`.
- Host keys: audit rows and times last seen; SSH's choice of a key type.
- HostKeyStore.HostKeyTable.RecordRefused: does not answer whether it is the first refusal of the day, which only decides an audit row.
- HostKeyStore.OnlyFirstUseIsTrusted: connections' records one after the other; for records at once, `HostKeyStore.SecondIsTrustedIff`.
- Scheduled backups: the archive itself, time zones and the clock's changes of hour, a status file that cannot be written.
- BackupSchedules.RetriesAreApart: an hour less a second, because the status keeps whole seconds; `BackupSchedules.RunsAgainIff` is exact.
- The web app's routes and pages, sign-in, certificates, database moves, the setup scripts and the Windows Manager.
