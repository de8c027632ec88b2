# Grus, modelled and proved in Dafny

Grus keeps one replicated log of commands per SQLite file: one for `site.db` and one per group.
Commands are applied on every node; what one log has to tell another goes through an outbox that a
relay empties; a worker on any node does the AI work and hands in results that count only if the
content has not changed. This project models that machinery and proves what its documentation
promises of it, for every log, every run and every interleaving. Where the code does not keep a
promise, a lemma says exactly when it does.

Each log is a sequence of committed commands, each SQLite table a map or a sequence, each
transaction all or nothing. Crashes, changes of leader, late and repeated deliveries, commands that
are committed twice, lagging replicas and the order of Go's maps are free choices: nothing is assumed
of them.

| file | what it holds |
|---|---|
| `Replay.dfy` | a file follows its log: the applied index, crashes, replays, snapshots |
| `Outbox.dfy`, `Mirror.dfy`, `Settings.dfy`, `Direct.dfy` | follow-up commands between logs, and the settings mirrored in `site.db` |
| `Jobs.dfy` | the AI job queue: leases, debouncing, retries |
| `Tables.dfy`, `Commands.dfy` | a group's tables, and what each command on its log does to them |
| `GroupTx.dfy`, `PostTx.dfy`, `ThreadTx.dfy`, `GroupFile.dfy` | the same commands statement by statement, as transactions on a file |
| `Effects.dfy`, `Outcomes.dfy`, `Imported.dfy`, `Purged.dfy` | what each command stores, table by table, and when it is refused, in terms of the tables only |
| `Content.dfy`, `Archive.dfy`, `Index.dfy`, `Purge.dfy`, `Undo.dfy` | the content invariant: counters, search index, purge dates, cleared items, updates, references |
| `Imports.dfy`, `ImportRuns.dfy`, `OldVersions.dfy` | what imports and partial purges do to it, exactly |
| `IndexFree.dfy`, `GroupLog.dfy` | all the commands together: the invariant in every reachable state |
| `Versions.dfy`, `Telling.dfy`, `Digests.dfy` | thread versions, and what an accepted digest was written from |
| `Citing.dfy`, `Notes.dfy`, `NoteWork.dfy`, `Links.dfy` | link notes: which a change reaches, that none is forgotten, and that a removed link stays removed |
| `Clusters.dfy`, `Outline.dfy` | the FAQ: clusters of linked threads, and the outline of topics |
| `Membership.dfy` | bringing Raft's membership in line with the node map |
| `Robots.dfy`, `Gate.dfy`, `Arrange.dfy`, `PageCache.dfy` | robots.txt rules, the model's gate, thread layout, the page cache |

`dafny verify dfyconfig.toml` checks everything.

## How to read it

The commands of a group's log are modelled twice. `Commands.dfy` gives each as a function on the
tables (`None` is an error, which rolls the transaction back). The `...Tx` modules give each as a
method that updates a transaction step by step, in the order of the code, proved to come to the same.
All that is proved about runs is proved of the functions, and so holds of the methods
(`GroupFile.File.Run`). The table lists of these methods only those whose loops or order of
statements differ from their functions.

The main results, in the order of their weight:

- `Digests.EveryThreadHasItsJob` and `Digests.ClosedWasEnded`: over every run of a group's log, each
  thread has its digest job for the version it has, and a closed one was ended for that version, by
  an accepted digest or by giving up.
- `Digests.AcceptedDigestReadThisText` and `Digests.EveryThreadIsServed`: an accepted digest was
  written from the text the thread has at that moment, and so every thread waits for its digest, was
  given up on, or has one written from its current text. `Notes.AcceptedNoteReadThisText` is the same
  for link notes.
- `GroupLog.EveryStateIsSound`, `GroupLog.EveryStateIsGoodIff` and `GroupFile.EveryReplicaIsGood`: the
  content invariant in every reachable state, on every replica.
- `Imports.ImportTellsThreadIff` and `Imports.ImportKeepsIndexIff`: exactly which imports keep a
  thread's version, and the index, right. The results about texts ask the first of one thread, since
  its text was read; those about the index ask the second.
- `Replay.EveryFileIsTheFold`: crashes, replays and snapshots ahead of their label leave every file
  the plain fold of its log.
- `Outbox.NothingIsLost` and `Outbox.DeliveriesArePrefixOfSends`: at-least-once relay by whoever
  leads loses nothing and keeps order; `Outbox.CanAlwaysDrain`: and it can always finish.
  `Outbox.FailureStays`: a row that fails stays, with all behind it.
- `Clusters.UncoveredClusters` with `Clusters.AnswerIsUnique`: union-find over randomly ordered maps
  finds the same clusters on every node.
- `Purge.LaterPurgeAbsorbs`, `OldVersions.EditsThatFit`, `Membership.PassesReachTheMap`,
  `Outline.StepTidiedIff`, `Outline.EveryChainEnds`, `Mirror.AlwaysCoherentIff`, `Robots.RobotsMatch`,
  `PageCache.HitsAreFresh`, `Gate.AlwaysSafe`, `Arrange.LayoutConserves`.

## Where the code and its comments disagree

The model follows the code. Each of these is a lemma with the exact condition, or a whole family of
inputs that shows the failure.

- A late or repeated MirrorGroup does not "write the same thing": it can leave `site.db` with old
  settings for good (`Mirror.LateDeliveryLeavesSiteStale`, `Mirror.LandingKeepsCoherenceIff`). So
  can an OutboxDone that commits late (`Mirror.LateClearLeavesSiteStale`,
  `Mirror.ClearingKeepsCoherenceIff`).
- "At most once an hour" is kept only when a finished job reopens; a second change while it waits
  brings it forward (`Jobs.SecondCommentBeatsTheHour`, `Jobs.ScheduleKeepsHourlyGapIff`).
- Restore does not undo a SoftDelete of an item that was flagged, hidden or held: it comes back
  visible; and a visible comment that a removal request took out of the index comes back into it
  (`Undo.RestoreUndoesDeleteIff`).
- Versions of an item are numbered after how many are stored, so after a purge of some of them an
  edit can run into a number still taken, and fail (`OldVersions.EditBlockedIff`,
  `OldVersions.EditsThatFit`, `OldVersions.EditsAfterFirstPurge`).
- The purge drops the search rows of every FAQ entry and outside page, whose post id is 0
  (`Purge.PurgeEmptiesTheFaqIndex`), and leaves replies to a purged comment pointing at nothing
  (`Purge.RepliesMayDangle`).
- A removal request takes the thread's comments out of the index but leaves them shown
  (`Index.RemovalKeepsIndexFullIff`).
- A re-import that only turns a comment into a reply, or back, changes the text without moving the
  thread's version; and one that finds a shown comment stored under another thread changes it there
  untold, and files its search row under the wrong thread, where it outlives the comment
  (`Imports.ImportTellsThreadIff`, `Imports.ImportKeepsIndexIff`, `ImportRuns`). Only what is said of
  a thread's text while its version stands, and of the index, depends on imports not doing so.
- The weekly outline pass files children and entries under the topic it was told to keep even if that
  topic is itself merged (`Outline.MergeKeepsTwoLevelsIff`, `Outline.MergeKeepsEntriesLiveIff`), and
  its check against cycles sees only ten merges ahead (`Outline.CircleFromScratch`,
  `Outline.MergeStaysGroundedIff`).
- "A page can never be served stale" leaves out what a request reads of site.db before it reads the
  indexes, the group's row and the primary domain, which its page prints: a page can be kept under an
  index that is newer than they are, and served until something else is written
  (`PageCache.HitMayPrintOldGroup`, `PageCache.HitsAreExactIff`).

## Model

| member | source | states |
|---|---|---|
| Replay.DeliverKeepsExact | internal/cmd/applier.go:75-96 | handing a file an entry it has seen, or the next one, keeps it the exact fold of the log, although failing entries never move its index |
| Replay.QuietTail | internal/cmd/applier.go:84-95 | after the last entry that changed a file, nothing the log says changes it |
| Replay.IndexDeterminesFile | internal/cmd/applier.go:34-43 | the stored index alone determines a file, however far each copy was fed |
| Replay.EveryFileIsTheFold | internal/cluster/fsm.go:46-66 | in every run with crashes, replays and snapshots ahead of their label, every file and snapshot is the plain fold of the log |
| Replay.ReplicasAgree | internal/cluster/fsm.go:51-74 | in every run, replicas recording the same index hold identical files |
| Replay.CaughtUpIsCurrent | internal/cluster/fsm.go:30-44 | a replica that was handed the whole log holds the fold of the whole log |
| Replay.LogIs | internal/cluster/fsm.go:30-44 | the log is the commands that were appended, in order |
| Replay.FeedingCatchesUp | internal/cluster/fsm.go:30-44 | from any state a run reaches, a node handed as many entries as it lacks holds the fold of the whole log |
| Replay.NodesDoAsTold | internal/cluster/fsm.go:46-110 | joining, asking for a snapshot, writing and installing it do what they say to a node's file |
| Replay.CrashesLoseOnlyThePlace | internal/cmd/applier.go:35-43 | a node that crashes keeps its file, with the entry it was being handed, and only its place in the log goes back |
| Replay.Store.InTx | internal/cmd/applier.go:75-96 | one transaction: skip by index, run, commit with the new index, or leave the file alone |
| Replay.Store.Run | internal/cmd/applier.go:55-108 | a command changes only the file of the log it belongs to; anything else is an error that changes nothing |
| Replay.Store.Replay | internal/cmd/applier.go:35-43 | replaying from any entry a file has seen brings it to the fold of the whole log |
| Outbox.AlwaysSafe | internal/cluster/upkeep.go:209-221 | the invariant of the relay protocol, over every run with overlapping relays, lagging copies, crashes and repeats |
| Outbox.DeliveriesArePrefixOfSends | internal/cluster/upkeep.go:209-250 | without repeats, what was delivered is a prefix of what was sent |
| Outbox.NothingIsLost | internal/cmd/logs.go:80-105 | everything sent is still waiting or was delivered; the outbox is a tail of what was sent; no OutboxDone deletes an undelivered row |
| Outbox.EachTargetSeesSendOrder | internal/cmd/logs.go:80-92 | each target log gets its share in the order it was sent |
| Outbox.SentIs | internal/cmd/logs.go:80-92 | the history of an outbox is the follow-ups of its commands, in order, numbered without gaps |
| Outbox.CanAlwaysDrain | internal/cluster/upkeep.go:222-250 | from any state a run reaches, what waits can still be delivered and the outbox emptied with nothing new sent |
| Outbox.Shard.Relay | internal/cluster/upkeep.go:222-250 | one pass of relay: each row is asked about in order; those before the first failure are applied or dropped as they were answered; only batches delivered whole, while leading, and cleared leave the outbox; and it stops only when it must |
| Outbox.FailureStays | internal/cluster/upkeep.go:237-240 | a row that fails, and everything behind it, is neither applied nor dropped and stays in the outbox |
| Outbox.AllWellDrains | internal/cluster/upkeep.go:225-249 | when nothing fails, a pass leaves nothing waiting and every row applied or dropped by its answer |
| Outbox.ClearOldest | internal/cmd/logs.go:96-105 | OutboxDone up to the last row of a batch removes exactly that batch |
| Mirror.MirrorStaysCoherent | internal/cmd/crosslog.go:36-58 | with one relay at a time, its OutboxDone part of it, and crashes and repeats allowed: with no MirrorGroup waiting site.db equals the settings, otherwise the last one waiting does |
| Mirror.LandingKeepsCoherenceIff | internal/cmd/crosslog.go:39-42 | exactly when a single delivery keeps the copy right |
| Mirror.LateDeliveryLeavesSiteStale | internal/cmd/crosslog.go:39-42 | a late delivery of an older MirrorGroup leaves site.db wrong with nothing left to repair it |
| Mirror.LaggingCopyLeavesSiteStale | internal/cluster/upkeep.go:222-243 | so does a new leader that reads a lagging copy of the outbox |
| Mirror.ClearingKeepsCoherenceIff | internal/cmd/logs.go:96-105 | exactly when a single OutboxDone keeps the copy right |
| Mirror.LateClearLeavesSiteStale | internal/cluster/upkeep.go:236-249 | an OutboxDone that commits after the next relay began can leave site.db wrong, although relays never overlapped |
| Mirror.AlwaysCoherentIff | internal/cmd/crosslog.go:36-58 | over any run whatever, site.db and the settings are coherent in every state exactly when each delivery and each clear meets its condition |
| Mirror.CoherentMeans | internal/cmd/crosslog.go:43-58 | coherence in terms of the two cases |
| Settings.GroupSettings.UpdateSettings | internal/cmd/settings.go:100-159 | accepts exactly the allowed changes and otherwise names the first bad column in order; each column in the change then holds what was sent, each other is as it was, but a group that leaves "public" takes public_faq with it; the mirrored values are sent as they then are |
| Settings.GroupSettings.InitGroup | internal/cmd/crosslog.go:23-34 | the first settings row; a second delivery changes nothing |
| Settings.CheckAll | internal/cmd/settings.go:105-124 | all columns are checked, and the error is that of the first bad one in dictionary order |
| Settings.NewRowColumns | internal/cmd/settings.go:127-141 | the same column by column: what was sent, as it is stored, and nothing else |
| Settings.CheckIs | internal/cmd/settings.go:24-92 | a value is accepted exactly when it can be stored, and is stored without the white space around it |
| Settings.BeforeIff | internal/cmd/settings.go:103-107 | the order of columns is dictionary order: by the first difference, the shorter first |
| Settings.SiteFollowsSettings | internal/cmd/settings.go:145-157 | once no MirrorGroup waits, site.db holds the group's settings |
| Settings.UnmirroredChangeKeepsMirror | internal/cmd/settings.go:145-151 | a change of other columns changes no mirrored value |
| Direct.FollowUpsSendNothing | internal/cmd/direct.go:32-46 | a command that was put in an outbox sends nothing itself |
| Direct.SendsIff | internal/cmd/crosslog.go:23-130 | for each follow-up, exactly which commands send it, and to which log it goes |
| Direct.LogOfIs | internal/cmd/logs.go:60-76 | which log a command belongs to |
| Direct.Engine.Run | internal/cmd/direct.go:27-30 | running one command, on the outbox of its own log |
| Direct.Engine.RelayBatch | internal/cmd/direct.go:56-77 | one batch: rows leave only after they were applied or refused |
| Direct.Engine.RunAll | internal/cmd/direct.go:61-72 | the rows of a batch, in order, up to the first that fails |
| Direct.Engine.Drain | internal/cmd/direct.go:47-78 | the drain ends; on success the starting outbox and that of every log reached are empty; no row is dropped that was not applied or refused |
| Direct.Engine.Apply | internal/cmd/direct.go:19-25 | after any command is applied, everything it sends was applied or refused and the outboxes involved are empty |
| Jobs.ClaimsAreALeaseApart | internal/cmd/jobs.go:156-187 | two successful claims with no release between them are more than a lease apart |
| Jobs.OnlyTheClaimerCloses | internal/cmd/jobs.go:190-236 | a job is closed only by its claimer: with a result for the current version, or after the last attempt |
| Jobs.NoJobStarves | internal/cmd/jobs.go:45-74 | an open job that has not failed is due within MaxWait of when it began to wait, under any reschedules |
| Jobs.ScheduleKeepsHourlyGapIff | internal/cmd/jobs.go:53-74 | exactly when scheduling keeps a job from running twice within MinRerun |
| Jobs.SecondCommentBeatsTheHour | internal/cmd/jobs.go:68-70 | two comments a second apart have a digest written again within the hour |
| Jobs.ScheduleIs | internal/cmd/jobs.go:45-74 | asking for a job reopens it for the version named, with all its tries, due when it is asked for but for the two bounds |
| Jobs.FailIs | internal/cmd/jobs.go:190-211 | a failure releases the job and puts it off by the square of its tries in minutes, or closes it after the fifth |
| Jobs.FifthFailureIsLast | internal/cmd/jobs.go:190-211 | a job that keeps failing is open, each time later, until its fifth try, which is the last |
| Jobs.JobQueue.ClaimJob | internal/cmd/jobs.go:163-187 | claims a waiting, due, unleased job, and says so |
| Jobs.JobQueue.FailJob | internal/cmd/jobs.go:190-211 | gives up after MaxAttempts, otherwise retries later |
| Jobs.JobQueue.FinishJob | internal/cmd/jobs.go:217-236 | accepts a result only from the claimer and for the current version; releases a stale one |
| Jobs.JobQueue.Schedule | internal/cmd/jobs.go:59-74 | inserts a job, or brings a waiting or finished one forward |
| GroupTx.RequeueEach | internal/cmd/jobs.go:113-136 | each citing note marked stale and queued for the version it then has; which they are is ThreadChangedTellsNotes |
| PostTx.InsertImages | internal/cmd/posts.go:71-85 | placements inserted one by one; fails exactly when an id is taken or repeated |
| ThreadTx.AddLinks | internal/cmd/links.go:390-396 | the links of a check, one by one: one that cannot be linked any more is skipped, any other error fails the command |
| ThreadTx.MoveUnder | internal/cmd/links.go:517-556 | an update goes under an earlier post that stands on its own |
| ThreadTx.ImportComment | internal/cmd/archive.go:84-123 | one archive comment: inserted, updated, or left down |
| ThreadTx.ImportPost | internal/cmd/archive.go:42-145 | the whole upsert by origin reference, with the recounted counter and only the work that is due |
| ThreadTx.DeleteExpired | internal/cmd/purge.go:63-71 | comments first, then posts without comments: no expired post is kept back |
| ThreadTx.PurgeGroup | internal/cmd/purge.go:60-133 | the deletions in order leave exactly what the closed form says |
| GroupFile.File.Run | internal/cmd/applier.go:75-96 | a command on a group's log commits what it did or leaves the file alone |
| GroupFile.File.RunAll | internal/cmd/applier.go:99-108 | a group's file after its whole log |
| Content.ThreadChangedOk | internal/cmd/jobs.go:81-140 | telling a thread never fails on sound tables, and changes no content |
| Citing.ThreadChangedTellsNotes | internal/cmd/jobs.go:113-136 | a change of a thread reaches exactly the active notes on other posts written from it, or from the thread it continues: each is stale and queued for the version it then has; all other notes and their jobs stay |
| Outcomes.ThreadChangedSummaries | internal/cmd/jobs.go:105-112 | the summaries of the threads that are told are queued if they have ten comments, and no others |
| Content.SoftDeleteOk | internal/cmd/posts.go:347-411 | succeeds on every existing item, keeps the invariant, leaves it deleted or removed |
| Content.RestoreOk | internal/cmd/posts.go:422-468 | the same for Restore, which leaves it visible |
| Content.ChangeStatusOk | internal/cmd/moderation.go:92-135 | keeps the invariant between statuses that are not deletions |
| Content.VoteOk | internal/cmd/moderation.go:367-420 | keeps the invariant |
| Content.ApproveOk | internal/cmd/moderation.go:250-298 | keeps the invariant |
| Content.CreateCommentOk | internal/cmd/posts.go:223-287 | keeps counters, index and links in step |
| Effects.CreatePostIs | internal/cmd/posts.go:94-160 | a new post is as it was sent, held exactly when it is a first one where those are, with its photos, follower, check and digest |
| Effects.CreatePostRefusedIff | internal/cmd/posts.go:94-130 | exactly when a post is refused |
| Effects.CreateCommentIs | internal/cmd/posts.go:223-287 | a new comment is as it was sent, under the top comment of the one it replies to, counted, indexed and to be checked |
| Effects.CreateCommentRefusedIff | internal/cmd/posts.go:223-262 | exactly when a comment is refused |
| Effects.EditPostDoes | internal/cmd/posts.go:168-220 | an edit stores the new text, one more version, the old one under the next number for 90 days, and queues its check |
| Effects.EditPostRefused | internal/cmd/posts.go:168-190 | an edit without a title, too long, or of a post that is not there or deleted is refused; what else is, EditBlockedIff says |
| Effects.EditCommentDoes | internal/cmd/posts.go:298-335 | so does an edit of a comment |
| Effects.EditCommentRefused | internal/cmd/posts.go:298-320 | so for a comment |
| Effects.SoftDeleteDoes | internal/cmd/posts.go:347-411 | what is deleted is kept 30 days, what a mod removes 90, and nothing else is touched |
| Effects.RestoreDoes | internal/cmd/posts.go:422-468 | what is restored is visible with no date, and nothing else is touched |
| Effects.VoteDecided | internal/cmd/moderation.go:387-414 | the vote cast is stored; enough votes to hide, and more than to keep, hide the item; otherwise enough to keep show it and clear it for good; otherwise it stays |
| Effects.VoteRefusedIff | internal/cmd/moderation.go:367-382 | exactly who may vote on what |
| Effects.ReportDoes | internal/cmd/moderation.go:309-350 | a member's report of another's item is stored, flags it if it was visible and not cleared, and has it checked |
| Effects.ApproveDoes | internal/cmd/moderation.go:250-298 | approving shows an item and clears it for good, and a held post gets its check |
| Effects.SetCommentCheckDoes | internal/cmd/moderation.go:223-243 | a verdict counts only from the holder of the check, for the version it is, and decides as it says |
| Effects.ApplyVerdictDoes | internal/cmd/moderation.go:172-215 | what each verdict makes of an item that is shown and not cleared |
| Outcomes.SetLockedDoes | internal/cmd/moderation.go:461-470 | locking changes the mark on the thread, and nothing else |
| Content.EditPostOk | internal/cmd/posts.go:168-196 | keeps the invariant |
| Archive.ImportCommentsOk | internal/cmd/archive.go:79-123 | mid-import, everything but the one counter that is recounted at the end is right |
| Archive.ImportPostOk | internal/cmd/archive.go:42-145 | an import keeps the invariant, whatever it brings |
| Archive.RequestArchiveRemovalOk | internal/cmd/sources.go:509-533 | keeps the invariant |
| Outcomes.RequestArchiveRemovalDoes | internal/cmd/sources.go:509-533 | a removal request removes an imported post for 90 days with all its thread's index rows, and no other |
| Imported.ImportedRow | internal/cmd/archive.go:42-145 | an import stores the archive's text, with a check if it differs, and the rest of a known post stays; a new one is shown and locked |
| Imported.ImportPlacesPhotos | internal/cmd/archive.go:66-123 | an import replaces the post's photos, puts each comment's photo on it if it is shown, and leaves all others |
| Index.FullIndexIsExact | internal/cmd/posts.go:53-69 | the search index lists exactly the shown items, each under its own thread |
| Index.RemovalKeepsIndexFullIff | internal/cmd/sources.go:525 | after a removal request the index still lists everything shown exactly when the thread had no shown comments |
| Undo.RestoreUndoesDeleteIff | internal/cmd/posts.go:413-422 | in any sound state, Restore brings back the posts, comments, counters and index exactly when the item was visible and listed in the index |
| Purge.PurgeTakesOnlyTheGone | internal/cmd/purge.go:63-71 | only soft-deleted items and comments of soft-deleted posts go |
| Purged.PurgeLeavesItems | internal/cmd/purge.go:62-71 | a post stays exactly until its time is up, a comment exactly until its own or its post's is |
| Purged.PurgeLeavesSide | internal/cmd/purge.go:72-129 | table by table, exactly which versions, photos, reports, votes, ballots, follows, nudges, tags, FAQ sources, links, notices, FAQ comments and feedback stay, as they were |
| Purged.PurgeLeavesNotes | internal/cmd/purge.go:94-101 | a source stays exactly while its post and its note's host do, a note while its host and a source do |
| Purged.PurgeLeavesPointers | internal/cmd/purge.go:87-104 | links, index rows, references and jobs stay exactly while what they point at does |
| Purge.PurgeGroupOk | internal/cmd/purge.go:60-133 | keeps the invariant and the index |
| Purge.PurgeCloses | internal/cmd/purge.go:72-129 | afterwards nothing refers to a missing post, comment or note |
| Purge.LaterPurgeAbsorbs | internal/cmd/purge.go:9-15 | a purge makes every earlier one unnecessary |
| Purge.PurgeIsIdempotent | internal/cmd/purge.go:60-133 | a second run changes nothing |
| Purge.PurgeEmptiesTheFaqIndex | internal/cmd/purge.go:87 | any purge drops the index rows of FAQ entries and outside pages |
| Purge.RepliesMayDangle | internal/cmd/purge.go:66-67 | a reply that is left points at nothing exactly when it did before, or the comment it replies to is taken |
| OldVersions.EditBlockedIff | internal/cmd/posts.go:168-208 | whatever versions are stored, an edit of a post that is otherwise in order fails exactly when the number after their count is taken |
| OldVersions.CommentEditBlockedIff | internal/cmd/posts.go:298-335 | so does an edit of a comment |
| OldVersions.EditsThatFit | internal/cmd/posts.go:198-208 | with a taken number above the count, exactly the edits that fit below it go through, and all later ones fail until something expires |
| OldVersions.AllEditsFit | internal/cmd/posts.go:198-208 | with none above the count, every edit goes through |
| OldVersions.WholeIff | internal/cmd/posts.go:198-208 | none is in the way exactly when the stored numbers are 1 up to their count |
| OldVersions.EditsAfterFirstPurge | internal/cmd/purge.go:74-79 | from n edits in order and a purge of the oldest k: all further edits go through if k is 0 or n, otherwise exactly the first 2k - n |
| OldVersions.OnlyPartPurgesBlock | internal/cmd/purge.go:74-79 | in a history whose purges take all of an item's versions or none, no edit fails |
| OldVersions.PurgeIs | internal/cmd/purge.go:74-79 | a purge takes exactly the versions of an item whose time is up |
| OldVersions.GapsComeBack | internal/cmd/posts.go:198-208 | numbers do not expire in order: a gap can open again behind an edit |
| GroupLog.StepGood | internal/cmd/moderation.go:85-92 | every command keeps content and index right, except exactly an import that finds a shown comment stored under another thread |
| GroupLog.StepAlike | internal/cmd/posts.go:53-69 | whatever the index holds, every command does the same to all other tables |
| GroupLog.CommittedAgain | internal/cluster/shard.go:160-175 | a post or comment whose creation is committed twice is left as it is, and such a log is as good as before |
| GroupLog.EveryStateIsSound | internal/cmd/moderation.go:85-92 | the content invariant, but for the index, in every state any run reaches, whatever imports bring |
| GroupLog.EveryStateIsGood | internal/cmd/posts.go:53-69 | and the index too if imports stay home; complete if there are no removal requests |
| GroupLog.EveryStateIsGoodIff | internal/cmd/posts.go:53-69 | the index is right in every state of a run exactly when its imports stay home |
| GroupFile.EveryReplicaIsGood | internal/cluster/fsm.go:51-74 | the same on every replica, through crashes, replays and snapshots |
| Versions.TouchTells | internal/cmd/jobs.go:99-108 | telling a post moves its version and queues its digest for it, and no other post's |
| Versions.ThreadChangedTells | internal/cmd/jobs.go:82-95 | exactly the threads a post is part of are told |
| Versions.SameView | internal/store/ai.go:230-262 | a thread that a post is no part of reads the same whatever happens to that post |
| Telling.EditPostTells | internal/cmd/posts.go:168-196 | an edit tells every thread whose text it changes |
| Telling.CreateCommentTells | internal/cmd/posts.go:223-287 | so does a comment |
| Telling.EditCommentTells | internal/cmd/posts.go:298-335 | so does an edit of one |
| Telling.ChangeStatusTells | internal/cmd/moderation.go:92-135 | so does a change of status |
| Telling.MoveOutSteady | internal/cmd/links.go:566-588 | both threads, when an update leaves |
| Outcomes.MoveUnderRefusedIff | internal/cmd/links.go:517-540 | exactly when a post cannot become an update of another |
| Outcomes.MoveUnderDoes | internal/cmd/links.go:541-556 | a moved post continues the other, and both threads are told |
| Outcomes.MoveOutDoes | internal/cmd/links.go:566-588 | an update that moves out stands on its own, and both threads are told |
| Telling.PurgeSteady | internal/cmd/purge.go:60-133 | what a purge leaves of a thread reads as before |
| Imports.ChangedIff | internal/cmd/archive.go:84-107 | whether an import brings any new text can be seen beforehand |
| Imports.ImportTellsThreadIff | internal/cmd/archive.go:125-143 | an import leaves one thread's version standing for its text exactly when it tells the thread or the archive has what is read there as it is stored |
| Imports.ImportTellsReadersIff | internal/cmd/archive.go:125-143 | so for all threads together, and a new one has its digest queued |
| Imports.ImportKeepsIndexIff | internal/cmd/archive.go:75-123 | an import leaves the index right exactly when the shown comments it finds stored are stored under its own post |
| Imports.MisfiledRowOutlivesComment | internal/cmd/purge.go:83-88 | a row under the wrong thread stays when its comment is purged |
| ImportRuns.RehungReplyTellsNobody | internal/cmd/archive.go:105-114 | from the first day: a re-import that turns a comment into a reply changes the text and not the version |
| ImportRuns.OneCommentInTwoArchives | internal/cmd/archive.go:86-123 | from the first day: a comment in two archives is changed untold, and in the end the index lists it though it is gone |
| Digests.StepVersionSteady | internal/cmd/jobs.go:76-140 | any command, whatever imports bring: no version goes back, a new one has its digest queued, and while one stands its digest and job are as they were or as the worker ended them |
| Digests.StepTextStandsIff | internal/cmd/jobs.go:76-95 | a command leaves a thread's version standing for its text exactly when, if it is an import, it tells the thread or changes nothing read there |
| Digests.VersionsNeverGoBack | internal/cmd/jobs.go:88-97 | over any stretch of any run a thread's version does not go back |
| Digests.VersionStandsForText | internal/cmd/jobs.go:76-81 | over any stretch in which no import changes this thread untold, the same version means the same text |
| Digests.AcceptedDigestReadThisText | internal/ai/worker.go:113-142 | if the version a worker read is accepted, whatever text it read since is the text at that moment, unless an import changed this thread untold in between |
| Digests.EveryThreadHasItsJob | internal/cmd/jobs.go:99-104 | in every state of every run every thread has its digest job, for its current version |
| Digests.ClosedWasEnded | internal/cmd/jobs.go:213-236 | in every run, a closed job was ended by an accepted result or given up, for the version that still stands |
| Digests.EveryThreadIsServed | internal/cmd/jobs.go:190-236 | every thread waits for its digest, or was given up on at this version, or has a digest written from the text it has now, unless an import changed it untold after that text was read |
| GroupFile.TextReadOnAnyReplica | internal/ai/worker.go:126-142 | the version and the text may be read on different replicas |
| Citing.OneTerm | internal/cmd/links.go:280-296 | a link note's version is its one source's |
| Notes.AlwaysOneSource | internal/cmd/links.go:245-278 | in every state every note has one source |
| Notes.NoteLasts | internal/cmd/links.go:251-278 | a note that is there at two points is written from the same post at both, and the version it carries did not go back |
| Notes.AcceptedNoteReadThisText | internal/ai/worker.go:203-247 | an accepted link note was written from the source's current text, unless an import changed the source untold since it was read |
| NoteWork.EveryNoteHasItsJob | internal/cmd/jobs.go:113-136 | in every state of every run each active note written from another post has its job, for its current version |
| NoteWork.NoteClosedWasEnded | internal/cmd/jobs.go:190-236 | in every run a note's closed job was ended by an accepted text, or given up, for the version that still stands, and the note is as that left it |
| NoteWork.EveryNoteIsServed | internal/cmd/jobs.go:76-136 | every such note is stale and waits, or was given up on at this version and is stale, or has a text written from what its source says now, unless an import changed that untold |
| Outcomes.SetNoteDoes | internal/cmd/links.go:435-465 | a note's text is stored if its worker holds the job and read its current version; "no change" leaves it |
| Outcomes.SetDigestDoes | internal/cmd/links.go:480-505 | so is a digest, cut to 1200 characters |
| Outcomes.MarkSisterStaleDoes | internal/cmd/sisters.go:346-370 | news of a sister thread reaches an active note that carries an older version |
| Links.LinkNoteIs | internal/cmd/links.go:251-278 | linking finds the note there is, or makes one, active, stale, and queued for its version; all others stay |
| Links.AddLinkIs | internal/cmd/links.go:41-130 | linking two shown posts leaves an active note on each written from the other, unless they are linked, or a machine would link what somebody unlinked |
| Links.RemoveLinkIs | internal/cmd/links.go:306-334 | unlinking marks the pair and takes exactly the notes between them off |
| Links.AddLinksAre | internal/cmd/links.go:390-396 | a check links every match that can be linked and was not decided before |
| Links.SetCheckDoes | internal/cmd/links.go:363-420 | a check counts only from its holder for the version the post is; then its verdict decides the status, and unless it is a violation every match that can be linked is |
| Links.SetCheckRefusedIff | internal/cmd/links.go:363-420 | a check that brings new ids for its notes is refused only if its post is not there |
| Links.RejectedStaysRejected | internal/cmd/links.go:295-297 | in every run a pair that was unlinked is not linked again, by checks or otherwise, until a person links it |
| Clusters.HalvingKeepsRoots | internal/cmd/faq.go:893-899 | path halving changes nobody's root |
| Clusters.SameRootIff | internal/cmd/faq.go:891-919 | two threads have the same root exactly when they are connected |
| Clusters.UnionFind.Find | internal/cmd/faq.go:892-899 | ends, and finds the root |
| Clusters.UnionFind.Link | internal/cmd/faq.go:904-919 | one link joins two components |
| Clusters.UncoveredClusters | internal/cmd/faq.go:866-942 | finds exactly the components that qualify, each oldest first, in order of their oldest thread |
| Clusters.AnswerIsUnique | internal/cmd/faq.go:858-865 | so the answer does not depend on the order of links or maps |
| Clusters.Worth | internal/cmd/faq.go:926-936 | the filter of one component |
| Clusters.Cluster | internal/store/faq.go:333-359 | a capped search finds only connected threads, nearest first, and all of them if it did not reach the cap |
| Membership.MajoritiesMeet | internal/cluster/shard.go:187-197 | configurations one server apart have no disjoint majorities |
| Membership.TwoSuccessesReachTheMap | internal/cluster/shard.go:216-241 | two successful passes bring a server to its wanted address and vote, whatever fails in between |
| Membership.PassesReachTheMap | internal/cluster/shard.go:187-242 | once every server has had two successful passes, the configuration is the map's for every id but the leader's |
| Membership.PassApproaches | internal/cluster/shard.go:216-235 | a pass never moves a server away from what is wanted |
| Membership.NoVoteBeforeCatchingUp | internal/cluster/shard.go:192-196 | a node gets a vote only once it has caught up |
| Membership.WantMembers | internal/cluster/shard.go:249-281 | the wanted members, or none without a voter |
| Membership.Raft.Reconcile | internal/cluster/shard.go:197-242 | one pass as PassesReachTheMap assumes it, in any order, one server at a time, the leader untouched |
| Membership.LeaderKeepsItsVote | internal/cluster/shard.go:217-219 | the log is never without a voter |
| Membership.MajoritiesMeetAllAlong | internal/cluster/shard.go:197-242 | through every step of a pass majorities meet |
| Outline.InsertKeepsOutline | internal/cmd/faq.go:84-98 | a new topic keeps two levels and ending chains |
| Outline.EditKeepsOutline | internal/cmd/faq.go:127-152 | so does a move |
| Outline.InsertIff | internal/cmd/faq.go:84-98 | exactly when a topic is added, and as what |
| Outline.EditIff | internal/cmd/faq.go:127-152 | exactly when a topic is renamed or moved, and that it is then locked |
| Outline.MergeIs | internal/cmd/faq.go:698-719 | a merge moves exactly the live children and the entries of the topic dropped |
| Outline.RenameIff | internal/cmd/faq.go:725-744 | the weekly pass renames exactly the live topics no mod named |
| Outline.ModsChoiceStands | internal/cmd/faq.go:685-744 | however many weekly passes follow, what a mod named is neither merged nor renamed |
| Outline.LookupFindsIff | internal/cmd/faq.go:100-114 | ten lookups find the live topic exactly when it is at most ten merges away |
| Outline.MergeKeepsTwoLevelsIff | internal/cmd/faq.go:707-719 | exactly when a merge leaves two levels of live topics |
| Outline.MergeKeepsEntriesLiveIff | internal/cmd/faq.go:714-715 | exactly when a merge leaves every entry under a live topic |
| Outline.MergeStaysGroundedIff | internal/cmd/faq.go:701-719 | exactly when a merge makes no cycle |
| Outline.LongChainsBecomeCycles | internal/cmd/faq.go:701-703 | a longer chain gets past it and becomes a cycle |
| Outline.CircleFromScratch | internal/cmd/faq.go:698-719 | from an empty outline, harmless commands build such a chain, and the next merge closes it |
| Outline.StepTidiedIff | internal/cmd/faq.go:84-154 | any command on the outline keeps it exactly when it is harmless |
| Outline.EveryOutlineIsTidied | internal/cmd/faq.go:81-98 | every run of harmless commands leaves two levels of live topics, entries under live topics, and chains that end |
| Outline.EveryChainEnds | internal/cmd/faq.go:100-114 | merges never go round in a circle as long as each keeps a topic at most ten merges from its live one |
| Outline.TidyKeepsOutline | internal/cmd/faq.go:698-724 | a pass of harmless merges keeps the outline |
| Outline.LiveTopic | internal/cmd/faq.go:102-114 | follows merges, looking at most ten times |
| Outline.TopicFile.Insert | internal/cmd/faq.go:84-98 | adds a topic, or refuses |
| Outline.TopicFile.Edit | internal/cmd/faq.go:127-152 | renames or moves a topic, or refuses |
| Outline.TopicFile.FileEntry | internal/cmd/faq.go:234-240 | an entry goes under the topic its topic was merged into |
| Outline.TopicFile.Tidy | internal/cmd/faq.go:685-744 | the merges of a pass, each checked against what the ones before it left, then its renamings |
| Robots.SplitMeansTheSame | internal/fetch/fetch.go:360 | cutting a pattern at its stars loses nothing |
| Robots.LeftmostIsEnough | internal/fetch/fetch.go:368-376 | taking the leftmost place for each piece is enough |
| Robots.RobotsMatch | internal/fetch/fetch.go:355-379 | accepts exactly the paths some filling of the gaps produces |
| Robots.Allows | internal/fetch/fetch.go:338-353 | the longest matching rule decides, and of two equally long ones the one that allows |
| Gate.AlwaysSafe | internal/ai/gate.go:32-80 | in every run at most one call is in the model, and no sleeper is forgotten |
| Gate.SleepersAreWokenLater | internal/ai/gate.go:32-65 | while a caller sleeps, somebody's leaving or done will wake it |
| Gate.StartsOnlyWhenFree | internal/ai/gate.go:12-16 | a background call never starts while a search is open |
| Gate.StartsWhenFreeIff | internal/ai/gate.go:46-56 | a caller goes in at its next look exactly when the model is free and, for a background call, no search is open |
| Gate.CallersAndSearches | internal/ai/gate.go:32-80 | callers stay what they came as, the open searches are those started and not done, and alarms are armed and go off as they should |
| Gate.EveryoneGetsIn | internal/ai/gate.go:32-65 | from any state a run reaches, a waiting caller goes in once those inside leave and the searches are done |
| Gate.GivingUpChangesNothing | internal/ai/gate.go:46-54 | a cancelled waiter changes nothing |
| Gate.Mutexed.Attempt | internal/ai/gate.go:46-56 | one turn of the loop in enter |
| Gate.Mutexed.Load | internal/ai/gate.go:81-92 | the load is 0 exactly when nothing is in progress |
| Arrange.Blocks | internal/web/arrange.go:141-172 | the blocks hold exactly the threads, in order; every run of two or more threads in the first tangent that fits is one stretch |
| Arrange.BlocksAreUnique | internal/web/arrange.go:138-140 | there is only one way to block the threads like that |
| Arrange.BestIsLeast | internal/web/arrange.go:94-103 | a thread's rank is the least of its comments' ranks |
| Arrange.SortAnswers | internal/web/arrange.go:117-121 | the insertion sort, in place |
| Arrange.RankedIsStable | internal/web/arrange.go:116-121 | the answers are a stable sort by best rank |
| Arrange.LaterNudgesOverride | internal/web/arrange.go:61-79 | a nudge counts unless it was reversed, and a later one overrides an earlier one of its kind |
| Arrange.OneNudge | internal/web/arrange.go:66-78 | what one nudge says: a rank, a newer comment, or a tangent with both its ends |
| Arrange.PlaceIs | internal/web/arrange.go:89-124 | which threads are answers, folded, and the rest |
| Arrange.CountsAll | internal/web/arrange.go:104-124 | the count of what is folded is all its comments and replies |
| Arrange.LayoutConserves | internal/web/arrange.go:104-124 | answers, folded threads and the rest are together the threads of the post |
| Arrange.Layout | internal/web/arrange.go:61-132 | the whole layout |
| PageCache.HitsAreFresh | internal/web/cache.go:11-22 | of a page served from the cache, no read after its label saw anything older than its request did, all of them saw just that if it was kept before the request began, and the reads that found its group saw nothing newer |
| PageCache.HitsAreExactIff | internal/web/cache.go:65-98 | a page kept before the request began is exactly what rendering it now gives if and only if site.db had not moved between finding its group and its label |
| PageCache.HitMayPrintOldGroup | internal/web/hosts.go:45-86 | a run in which a page with the group as it was before a write is served after it, with nothing written since |
| PageCache.AlwaysGood | internal/web/cache.go:65-98 | the invariant behind it, over every interleaving, from finding the group on |
| PageCache.CacheIsBounded | internal/web/cache.go:24-27 | the cache never holds more than its limit |
| PageCache.Cache.Keep | internal/web/cache.go:92-98 | a full cache is emptied before a page is kept |
| PageCache.Cache.Lookup | internal/web/cache.go:71-76 | a hit needs both indexes to be the same |

## Left out

- Raft's elections and replication, SQLite, files, TLS, HTTP and blob transfer: each log is taken to
  be one committed sequence, each transaction atomic, and failing to reach a leader is a step that
  simply stops.
- The JSON form of commands, the text of notifications and the mod log, mod examples, stored flag
  reasons, last-activity times, topic tags, feed weights and the anonymity flag: they feed no result
  here.
- Legal holds: no command sets one.
- Combined notes and outside pages as note sources: a combined note's sources change under it, so its
  version claims nothing.
- The sending of sister-group follow-ups from content commands: the outbox they go through is
  modelled by itself, in Outbox and Direct.
- Job row ids: a job is found by its kind and the item it is about, which the table keeps unique.
- Lengths are counted in characters, where the code counts bytes; and texts are taken as already
  trimmed in SetDigest and SetNote.
- Memberships and settings of a group change freely between commands (Settle); the commands that
  change them are not modelled, apart from InitGroup and UpdateSettings.
- Nodes joining and leaving the node map (PlaceGroup can take a group's last voter): Membership
  starts from whatever the map says.
- Raft's refusals of a configuration change, such as two servers with one address: they are among
  the answers a pass may get.
- The model's calls, prompts and answers, and the worker's loop: a worker is what the log shows of
  it, and may read any replica at any time.
- FTS5's ranking: the index is a set of rows, each item with the post it is filed under.
- Creation times of posts and comments, which never change, are not part of what a reader sees.
- The choice of a group in a robots.txt file, and percent-encoding.
- The clock of the page cache's pages, and its headers.
- Commands that are not in GroupLog: the pinning of posts, SetSummary, the sister-group commands
  ShowSisterNotes, DropSisterLinks and RemoveSisterLink, those of the FAQ, and the taking of FAQ
  entries and outside pages out of the index. None of them touches a text, a status, a counter or a
  digest.
- The marking of FAQ entries as stale when a thread they are written from changes.
- The resolving of reports when an item is deleted, restored or approved, and the reopening of one.
- The title of the other post that a MarkSisterStale carries, and its refusal if that is empty or too
  long.
- The refusal of anonymous posts and comments where a group does not allow them.
- Digests.EveryThreadIsServed: asks that the id of a post that is added was never another's; and what
  it says of a reading of a thread's text holds if no import since then changed that thread without
  telling it, for otherwise it is false (ImportRuns.RehungReplyTellsNobody).
- Digests.AcceptedDigestReadThisText: asks the same, of this thread since its text was read.
- GroupFile.TextReadOnAnyReplica: asks the same.
- NoteWork.EveryNoteIsServed: asks the same, and what Notes.AcceptedNoteReadThisText asks of ids; notes
  on their own source, and notes whose source is in a sister group, are not live in its sense.
- Notes.AcceptedNoteReadThisText: asks the same of the source's thread, and that no command that goes
  through brings the id of a note that is gone.
- GroupLog.EveryStateIsGood: asks that ids are new when a command brings them and goes through, and
  that imports find their shown comments under the thread they import; without the latter it is false
  (ImportRuns.OneCommentInTwoArchives), and GroupLog.EveryStateIsSound is what remains.
- Mirror.MirrorStaysCoherent: one relay at a time, whose OutboxDone commits before the next one
  delivers anything, or never; without either it is false (Mirror.LaggingCopyLeavesSiteStale,
  Mirror.LateClearLeavesSiteStale).
- Settings.GroupSettings.InitGroup: the owner's row among the members is left out.
- ThreadTx.AddLinks: combined notes, FAQ sources, feed weights and notices of a new link are left out.
- ThreadTx.PurgeGroup: legal holds, faq_new jobs and notes that are not link notes are left out.
- Clusters.Cluster: at the limit, which of the threads equally far away are found is not stated (it
  is those whose neighbours were found first, then the oldest).
- Outline.TopicFile.Tidy: the tags of posts that move with a merge are left out, and titles are taken
  as already trimmed.
- Membership.PassesReachTheMap: is about an unchanged map; the leader's own entry is never changed by
  a pass.
- Gate.SleepersAreWokenLater: says who will wake a sleeper, not that it gets in before others.
