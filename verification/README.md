# Verified model of a Raft key-value store

This project models the replicated key-value store whose consensus node lives in `internal/raft`, whose apply path
lives in `internal/kv/server`, and whose in-memory log lives in `internal/logger/zlog.go`, and proves what the three
promise.

**How the consensus node is modelled.** `RaftServer.dfy` holds `class Raft`, whose methods update the node's fields in
place, one method for each region of code run under the mutex. Every method is proved equal to a function of
`NodeSteps.dfy` on the node's abstract state, and `NodeMeanings.dfy` says of every such step, field by field and branch
by branch, what its reply and the node after it are. `Cluster.dfy` turns those functions into a step system: any number of
nodes; timeouts, vote requests, votes, vote replies and failed calls, submits, heartbeats, append requests and replies,
deliveries, kills, and crashes followed by a start from storage. Messages are never taken out of their sets, so they may
be lost, delayed, reordered and repeated. A theorem about "every run" quantifies over every sequence of steps
(`Cluster.Exec`), where a step that is not enabled changes nothing. The state also carries history that no step reads:
the votes given, the leaderships with their logs, the acknowledged entries, the deliveries.

**How the proof goes.** Every entry of every log is rooted in the log of the leader of its term (`LogHistory.dfy`),
which gives log matching. Votes bind the voter and its storage (`Votes.dfy`). A majority that acknowledged an entry meets
every later majority of voters, so every later leader carries the entry (`Commitment.dfy`). The invariant
(`Invariants.dfy`) is preserved by every step (`Preservation.dfy`, `Steps.dfy`, `ElectionSteps.dfy`, `AppendSteps.dfy`,
`ReceiveStep.dfy`), and the theorems are in `Leaders.dfy`, `Safety.dfy`, `CommitScan.dfy`, `Replication.dfy`,
`FastBackOff.dfy` and `Replicas.dfy`.

**Where the code departs from the Raft paper.** The strongest properties do not hold of the text as written.
`RaftTypes.Repairs` has one flag for each departure; with all flags off the functions are the code as it is.

| flag | the code as written | the repair |
|---|---|---|
| sameElection | `internal/raft/chunab.go:120-133`, `147-149` look at the state and not at the term | a vote reply counts only in the term of its election |
| mergeAtStart | `internal/raft/heartbeat.go:53-59` answers for PrevLogIndex -1 without storing anything | -1 matches every log and is merged |
| hintOnMismatch | `internal/raft/heartbeat.go:86-103` gives hints to stale requests only | a mismatch in the current term gets the hints |
| freshSnapshot | `internal/raft/heartbeat.go:116-138` saves the term and reads the log under two locks | a request is built only while still leader of that term |
| sameTermReply | `internal/raft/heartbeat.go:150` compares the reply with the saved term only | the node must still be in that term |
| persistAlways | `internal/raft/chunab.go:70-74`, `internal/raft/raft.go:180-193` change term and vote without writing them | they write to storage |

Every theorem names the flags it uses: `Leaders.Electing` asks for sameElection alone, `Safety.Covered` for the four that
safety rests on, and both for persistAlways only when the run has crashes. `LiteralCode.dfy` says exactly on which inputs
single calls of the unrepaired code go wrong. `BrokenRuns.dfy`, `LateMessages.dfy` and `LostTerm.dfy` build runs of three
and five nodes (from the pieces in `Runs.dfy` and `Scenes.dfy`) in which a missing repair breaks a guarantee, and
`ExactRepairs.dfy` concludes, for every choice of flags, which of them each guarantee needs. `UnrepairedStart.dfy` proves
that with the start of the log as written, and vote replies counted in the right term, nothing is ever replicated.
`StepDownRuns.dfy` shows what happens under every choice of repairs: a node may vote twice in a term, and a replaced leader
steps down when a reply tells it.

**The service and the log ring.** `KvServer.dfy` holds the service class and `StateMachine.dfy` the store;
`Subscriptions.dfy` is their state machine under any interleaving of updater and request handlers; `Replicas.dfy` connects
it to the cluster. `LogRing.dfy` holds the ring of cells, proved to be a bounded FIFO, and the conservation law over all
sequences of calls.

Verify with `dafny verify dfyconfig.toml`.

## Model

| member | source | states |
|---|---|---|
| ExactRepairs.StateMachineSafetyExactly | internal/raft/heartbeat.go:29-231 | For every choice of repairs: no two nodes ever apply different commands at an index, over all crash-free runs, if and only if the four repairs to votes, start of the log, snapshots and replies are in place; over all runs if and only if term and vote are also always written to storage |
| ExactRepairs.ElectionSafetyExactly | internal/raft/chunab.go:120-149 | Over crash-free runs a term has at most one winner if and only if vote replies count only in their election's term; over all runs if and only if elections are also written to storage |
| ExactRepairs.OneVoteExactly | internal/raft/chunab.go:120-133 | Over all runs, crashes included, no node grants two candidates in one term if and only if vote replies count only in their election's term |
| ExactRepairs.LogMatchingExactly | internal/raft/chunab.go:120-149 | Over crash-free runs logs with equal terms at an index agree up to it if and only if vote replies count only in their election's term |
| ExactRepairs.NothingSharedExactly | internal/raft/heartbeat.go:53-60 | Over crash-free runs no two nodes have entries of one term if and only if vote replies count only in their election's term and the start of the log is as written |
| LateMessages.StaleSnapshot | internal/raft/heartbeat.go:116-138 | Without fresh snapshots: a run in which a deposed leader ships a later log, and its commit, as a request of its old term, an older request then replaces the entry, and two nodes apply different commands |
| LateMessages.LateReply | internal/raft/heartbeat.go:150-153 | Without the term check on append replies: a run in which a leader counts an acknowledgement of an earlier term, commits an entry that two nodes of five hold, and a later leader commits another |
| LostTerm.LosesTerm | internal/raft/chunab.go:70-74 | Without the write on every term change: a run in which a leader crashes back into the term before, acknowledges an entry that it had begun to erase, and two nodes apply different commands |
| BrokenRuns.LostEntry | internal/raft/heartbeat.go:53-59 | Without the start repair: a run in which two leaders in turn commit different entries at index 0, each acknowledged by a follower that stored nothing |
| BrokenRuns.TwoLeaders | internal/raft/chunab.go:120-149 | Without the term check on vote replies: a run with two winners of term 2, one of them by a vote it was given in term 1 |
| BrokenRuns.TwoCommits | internal/raft/heartbeat.go:66-75 | Those two leaders both commit at index 0 where the start is merged, because the follower compares terms only |
| BrokenRuns.TwoLogs | internal/raft/raft.go:100-114 | Those two leaders append different entries of one term at one index |
| BrokenRuns.SecondVote | internal/raft/chunab.go:120-130 | Without the term check on vote replies: a run in which a late refusal lowers a node to a term it has voted in, and it votes there again |
| BrokenRuns.ForgottenVote | internal/raft/chunab.go:69-74 | Without the write on every term change: a run in which a candidate wins a term, crashes, and votes for the next winner of the same term |
| Runs.Elect | internal/raft/chunab.go:69-170 | In any state, a node whose askable peers would grant it a majority can win the next term; only it and the peers asked change |
| Scenes.Rebuffed | internal/raft/heartbeat.go:174-191 | A leader that probes behind its first entry a follower without a common term goes back to index 0 in one exchange, with or without hints |
| Scenes.ScanTop | internal/raft/heartbeat.go:157-169 | A majority that holds a log ending in the leader's term commits all of it |
| UnrepairedStart.NothingReplicates | internal/raft/heartbeat.go:53-60 | With the start of the log as written, over every run that counts vote replies in their election's term only, no entry of one node's log has the term of an entry of another's: nothing is ever replicated |
| UnrepairedStart.LogStays | internal/raft/heartbeat.go:53-80 | In the states of those runs (start as written, vote replies checked against the term) only Submit changes a log |
| StepDownRuns.VotesTwice | internal/raft/heartbeat.go:46-49 | Under every choice of repairs: a crash-free run in which a candidate hears the leader of its term, loses its own vote, and votes for another candidate of that term |
| StepDownRuns.IsTold | internal/raft/heartbeat.go:145-148 | Under every choice of repairs: a run in which the heartbeat of a replaced leader comes back with a later term and it becomes a follower there without a vote |
| NodeMeanings.SubmitMeaning | internal/raft/raft.go:100-114 | For a leader the index returned is where its log, now one longer, holds the command in its term; any other node answers -1 and stays as it is |
| NodeMeanings.StepDownMeaning | internal/raft/raft.go:180-193 | A step-down forgets the vote, also when the term stays the same, and keeps log, commits and books |
| NodeMeanings.CandidacyMeaning | internal/raft/chunab.go:69-74 | A candidate is in the next term with its own vote and the log it had |
| NodeMeanings.LeadershipMeaning | internal/raft/raft.go:195-200 | Every peer will be tried behind the end of the log and has matched nothing; no other key of the books changes |
| NodeMeanings.RestartMeaning | internal/raft/raft.go:149-167 | Term, vote and log are those last written, everything else is as new |
| NodeMeanings.WriteThenRestart | internal/raft/persist.go:15-61 | Writing and starting again brings back term, vote and log |
| NodeMeanings.KillMeaning | internal/raft/raft.go:116-136 | The node stops and forgets nothing |
| NodeMeanings.VoteMeaning | internal/raft/request_vote.go:30-50 | A vote is granted if and only if the term is not older, the candidate's log is no older and no other candidate has the vote of that term; term, role, vote, storage and reply afterwards |
| NodeMeanings.DeadMeaning | internal/raft/heartbeat.go:33-35 | A killed node gives the zero reply to both calls and does not change |
| NodeMeanings.TallyMeaning | internal/raft/chunab.go:109-145 | The votes counted are the grants in time, and with the last reply the node's own; a failed or late reply only lowers the replies missing |
| NodeMeanings.VoteReplyMeaning | internal/raft/chunab.go:120-165 | The reply elects if and only if it is the last, the node still stands and the votes are a majority; it deposes if and only if a standing candidate hears a later term |
| NodeMeanings.FollowMeaning | internal/raft/heartbeat.go:37-49 | Who hears the leader of its term or a later one follows it there, and keeps its vote only if it followed in that term already |
| NodeMeanings.VotesAgain | internal/raft/heartbeat.go:46-47 | A candidate that has heard its term's leader grants the next candidate of that term whose log is no older |
| NodeMeanings.AcceptMeaning | internal/raft/heartbeat.go:53-84 | A request that fits is accepted; the log is kept up to the first missing entry and is the request's from there, and the commit index follows the leader's as far as the log goes |
| NodeMeanings.RefuseMeaning | internal/raft/heartbeat.go:54-60 | A request that does not fit is refused, log and commits stay, and the hints name the run of equal terms, the start of the log, or nothing |
| NodeMeanings.StaleMeaning | internal/raft/heartbeat.go:86-106 | A request of an older term is refused with the node's term and hints that delimit the run of equal terms; only storage may change |
| NodeMeanings.StaleHintsUnused | internal/raft/heartbeat.go:145-150 | Those hints never reach a leader's books |
| NodeMeanings.SnapshotMeaning | internal/raft/heartbeat.go:121-138 | The request ships every entry from nextIndex on, with the term before it and the commit index |
| NodeMeanings.DeposedMeaning | internal/raft/heartbeat.go:145-148 | A reply of a later term makes a follower of that term without a vote; log, commits and books stay |
| NodeMeanings.IrrelevantMeaning | internal/raft/heartbeat.go:150 | Any other reply that is not to a leader's request of its term changes nothing |
| NodeMeanings.SuccessMeaning | internal/raft/heartbeat.go:151-173 | A success moves both books behind the request and the commit index to the greatest index ahead that is of the leader's term and held by a majority, with one notification if there is one |
| NodeMeanings.FailureMeaning | internal/raft/heartbeat.go:174-192 | A failure moves nextIndex behind the last entry of the conflict term, or to the conflict index if there is none, and nothing else |
| NodeMeanings.DeliverMeaning | internal/raft/heartbeat.go:204-230 | A notification sends the committed entries not yet sent, each with its own index and the node's term |
| Leaders.ElectionSafety | internal/raft/chunab.go:69-170 | At most one node is ever elected in a term, in spite of the vote reset on hearing that term's leader; needs the first repair alone, and survives crashes when elections are persisted |
| Leaders.OneLeaderPerTerm | internal/raft/heartbeat.go:46-49 | Nodes that lead the same term at two moments of a run are the same node |
| Leaders.LeaderAppendOnly | internal/raft/raft.go:100-114 | While it leads its term a leader's log only gains entries at its end |
| Leaders.LogMatching | internal/raft/heartbeat.go:60-80 | In every reachable state, logs with equal terms at an index are the same up to that index; also for requests built after the sender stepped down |
| Leaders.NextCore | internal/raft/heartbeat.go:29-197 | Every step keeps the invariant behind these four, and leaderships only gain entries |
| Votes.OneVotePerTerm | internal/raft/request_vote.go:22-53 | Where vote replies count only in the term of their election, a node never grants two candidates in one term, over any run, crashes included |
| Votes.HandleVoteKeeps | internal/raft/request_vote.go:36-50 | Answering a request breaks no vote given before, and a vote granted is already bound in storage when the reply leaves |
| Votes.HandleAppendKeeps | internal/raft/heartbeat.go:37-49 | The vote reset of a candidate that hears its term's leader frees no vote given to a peer |
| Votes.VotesKept | internal/raft/persist.go:15-61 | Every step of the cluster keeps votes bound in node and storage |
| ElectionSteps.NotLedYet | internal/raft/chunab.go:144-149 | A standing candidate with a majority of its term's votes is the first to have one: no voter of a winner was ever a candidate that reset its vote |
| ElectionSteps.WinnersQuorum | internal/raft/chunab.go:131-148 | When the shared counters win, the replies counted and the node itself are a majority that voted for it in its present term |
| ElectionSteps.UpToDateBeats | internal/raft/request_vote.go:37-42 | A candidate that passes the up-to-date check beats every entry that the voter holds and acknowledged |
| ElectionSteps.VoteReturnInv | internal/raft/chunab.go:104-166 | Every vote reply or failed call keeps the cluster invariant, and a win adds a leadership of a new term |
| ElectionSteps.ReceiveVoteInv | internal/raft/request_vote.go:22-53 | Every vote keeps the cluster invariant |
| ElectionSteps.TimeoutInv | internal/raft/chunab.go:69-82 | Every timeout keeps the cluster invariant |
| Safety.StateMachineSafety | internal/raft/heartbeat.go:203-231 | Entries ever sent on commit channels at one index, by any nodes and any incarnations of them, carry the same command after the same log prefix |
| Safety.LeaderCompleteness | internal/raft/heartbeat.go:157-169 | What a node has committed is from then on in the log of every leader of that node's term or a later one |
| Safety.CommittedForever | internal/raft/heartbeat.go:77-84 | What a node has committed stays in its log for ever, crashes included, and the commit index lies inside the log |
| Safety.CommitNeverFalls | internal/raft/heartbeat.go:81-84 | No step but the node's own restart lowers its commit index |
| Safety.DeliveredInOrder | internal/raft/heartbeat.go:203-231 | A process has sent exactly entries 0, 1, ..., lastApplied of its log with those indices; with no notification left, nothing committed is unsent |
| Safety.SameStream | internal/raft/heartbeat.go:217-224 | Two processes, at two moments of a run and possibly one the restart of the other, have sent the same commands as far as both have sent any |
| Safety.RealTimeOrder | internal/raft/raft.go:100-114 | Once a node has sent entry k, whatever any leader appends from then on is applied behind k or nowhere |
| Safety.MatchIndexSound | internal/raft/heartbeat.go:150-153 | A leader with matchIndex k for a peer is right under any order of replies: the peer has reached the leader's term, and while it is in that term the logs agree through k |
| Safety.NextIndexInRange | internal/raft/heartbeat.go:122-128 | A leader's slices are in range: nextIndex of every peer is at most the length of its log |
| Safety.FollowerCommitMatched | internal/raft/heartbeat.go:60-84 | After a success the follower's log agrees with the request through its last entry, and the commit index it takes lies there: the clamp to the end of the log never reaches an unmatched tail |
| Safety.Reached | internal/raft/heartbeat.go:29-231 | Every state of every covered run satisfies the invariant |
| Safety.SettledForever | internal/raft/heartbeat.go:77-84 | A settled prefix of a node's log survives every continuation of the run |
| Commitment.Completeness | internal/raft/heartbeat.go:158-167 | An entry of a leader's own term held by a majority was in the log of every later leader at its election |
| Commitment.SettledSame | internal/raft/heartbeat.go:211-214 | Two settled logs of the same length are the same log |
| Commitment.BeatsCarries | internal/raft/request_vote.go:37-42 | A log that beats a committed entry, where the leaders in between had it, has it too |
| LogHistory.MergeAgrees | internal/raft/heartbeat.go:60-80 | The merge agrees with the sender through the request's end and keeps every prefix that the two logs shared |
| LogHistory.MatchLenAgrees | internal/raft/heartbeat.go:65-75 | The offset found by comparing terms is where the logs stop being the same |
| LogHistory.MatchLenMeaning | internal/raft/heartbeat.go:66-75 | Entries before the offset have equal terms, and at the offset the terms differ or one side ends |
| LogHistory.EqualTermsAgree | internal/raft/heartbeat.go:60 | Equal terms at PrevLogIndex mean equal logs up to it |
| ReceiveStep.HandleAppendOk | internal/raft/heartbeat.go:29-108 | Any request that the network may hold keeps the receiver's part of the invariant, and success means the log agrees with the leader's through the request |
| ReceiveStep.ReceiveAppendInv | internal/raft/heartbeat.go:29-108 | Every delivery of a request, late or repeated, keeps the cluster invariant |
| AppendSteps.SnapshotOk | internal/raft/heartbeat.go:121-138 | A request built while still leader of its term is an excerpt of that term's log through its end, and claims no commit beyond it |
| AppendSteps.SendAppendInv | internal/raft/heartbeat.go:116-138 | Every request sent keeps the cluster invariant |
| AppendSteps.SubmitInv | internal/raft/raft.go:100-114 | Every submit keeps the cluster invariant |
| Steps.AppendReturnInv | internal/raft/heartbeat.go:141-195 | Every append reply, however late, keeps the cluster invariant |
| Steps.CommittableCommits | internal/raft/heartbeat.go:157-167 | Match indices of a majority at an entry of the leader's own term mean that a majority really holds it |
| Steps.RestartKeeps | internal/raft/raft.go:140-178 | A restart from storage keeps the cluster invariant when every change was persisted |
| Steps.DeliverKeeps | internal/raft/heartbeat.go:203-231 | Every round of commitChanSender keeps the cluster invariant |
| CommitScan.ScanIsOrderStatistic | internal/raft/heartbeat.go:156-169 | With sorted terms the scan ends at the greatest index held by a majority when it lies ahead and is of the current term, and otherwise moves nothing |
| CommitScan.GreatestHeldExists | internal/raft/heartbeat.go:159-165 | The indices held by a majority are exactly those up to one greatest index |
| CommitScan.LeaderScan | internal/raft/heartbeat.go:156-169 | This is what the scan of a leader in any reachable state computes |
| Replication.EveryOrder | internal/raft/heartbeat.go:60-80 | Whatever order, loss and repetition one leader's requests arrive with, the follower's log agrees with the leader's through every request it accepted, and keeps every prefix they shared |
| Replication.HeldEntriesStay | internal/raft/heartbeat.go:77-79 | A request whose entries are already there erases nothing behind them |
| Replication.TermsDecide | internal/raft/heartbeat.go:70 | Under log matching, comparing terms is comparing entries |
| LogHistory.RunStartMeaning | internal/raft/heartbeat.go:96-102 | The conflict index is where the run of equal terms begins: all terms from there are equal, and the one before differs |
| FastBackOff.TryLowers | internal/raft/heartbeat.go:174-191 | Every rejection with hints strictly lowers nextIndex |
| FastBackOff.RejectionsBound | internal/raft/heartbeat.go:86-103 | There is at most one rejection more than the follower's log has distinct terms |
| FastBackOff.ExchangeTries | internal/raft/heartbeat.go:119-192 | An exchange between leader and follower is accepted exactly when the logs match at the request, and a rejection changes nothing but nextIndex |
| FastBackOff.BackOffEnds | internal/raft/heartbeat.go:174-191 | With both logs standing still, the first exchange to succeed is the one after exactly that many rejections |
| FastBackOff.BackOffInRun | internal/raft/heartbeat.go:174-191 | The bound holds between a leader and a follower of its term in every reachable state |
| LiteralCode.AcceptedIsStored | internal/raft/heartbeat.go:53-80 | An accepted request is in the follower's log if and only if the start is repaired, or the request does not begin there, or it carries nothing |
| LiteralCode.TermFalls | internal/raft/chunab.go:120-130 | A vote reply lowers the node's term if and only if the check is missing and a candidate takes a reply whose term lies between the election's and its own |
| LiteralCode.WrongTermWon | internal/raft/chunab.go:144-149 | A last reply makes a leader of a term not voted on if and only if the check is missing and the node has moved on |
| LiteralCode.LiteralBackOff | internal/raft/heartbeat.go:53-60 | Without hints and start repair the follower ever accepts if and only if the first request matches, its log is empty, or the one other request that the leader alternates with matches |
| LiteralCode.HintlessBackOff | internal/raft/heartbeat.go:86-103 | With the start repaired and no hints the first request succeeds exactly on a match, and otherwise the second succeeds |
| LiteralCode.HintedBackOff | internal/raft/heartbeat.go:53-60 | With hints and the start as written, under log matching, the follower ever accepts if and only if its log is empty or begins with the leader's first entry |
| LiteralCode.GuardedNext | internal/raft/heartbeat.go:45-59 | A step of the code as written that stays off the departing branches is a step of the repaired code |
| LiteralCode.GuardedSafety | internal/raft/heartbeat.go:203-231 | State machine safety of the code as written, over the runs whose steps all stay off those branches |
| RaftServer.Raft.Make | internal/raft/raft.go:140-178 | A new node is the restart of whatever wrote its storage; incomplete storage is fatal |
| RaftServer.Raft.RestoreFromStorage | internal/raft/persist.go:15-40 | Term, vote and log are read back as they were written; fatal exactly when a key is missing |
| RaftServer.Raft.PersistToStorage | internal/raft/persist.go:43-61 | Storage then holds exactly the node's term, vote and log |
| RaftServer.Raft.BecomeFollower | internal/raft/raft.go:180-193 | Follower in the given term with votedFor -1, also when the term stays the same; log, commits and books stay |
| RaftServer.Raft.StartLeader | internal/raft/raft.go:195-200 | The loop sets every peer's books and no other key |
| RaftServer.Raft.Kill | internal/raft/raft.go:116-136 | Only the role changes and both notification channels are closed; it panics exactly when a revived node's channels were closed before |
| RaftServer.Raft.LastLogIndexAndTerm | internal/raft/raft.go:85-92 | Index and term of the last entry, or -1 for both |
| RaftServer.Raft.StartElection | internal/raft/chunab.go:69-82 | The next term, a vote for itself, and counters at the start of an election |
| RaftServer.Raft.RequestVote | internal/raft/request_vote.go:22-53 | Grants if and only if term, vote and log allow it; node and reply are those of the vote step, including the write before the reply |
| RaftServer.Raft.OnVoteReply | internal/raft/chunab.go:104-166 | Node and shared counters are those of the vote-reply step, in every branch |
| RaftServer.Raft.Submit | internal/raft/raft.go:100-114 | A leader's log ends with the command, at the returned index; any other node returns -1 and nothing changes |
| RaftServer.Raft.FindOffset | internal/raft/heartbeat.go:62-75 | The loop stops at the first entry whose term differs or is missing |
| RaftServer.Raft.FindRunStart | internal/raft/heartbeat.go:96-102 | The loop stops at the first entry of the run of equal terms |
| RaftServer.Raft.AppendEntries | internal/raft/heartbeat.go:29-108 | A request of the node's term or a later one makes it follow there, without its vote unless it followed already, and succeeds if and only if it fits the log; node and reply are those of the append step in every branch |
| RaftServer.Raft.AppendCurrent | internal/raft/heartbeat.go:45-85 | The branch for a request of the node's term |
| RaftServer.Raft.AppendStale | internal/raft/heartbeat.go:86-106 | The branch for an older request, with the one return that writes nothing |
| RaftServer.Raft.MergeAndCommit | internal/raft/heartbeat.go:61-84 | The log becomes the merge and the commit index is raised, with one notification |
| RaftServer.Raft.MergeEntries | internal/raft/heartbeat.go:62-79 | The log becomes the merge, and loses nothing before the request |
| RaftServer.Raft.BuildAppend | internal/raft/heartbeat.go:121-138 | The request is the snapshot of the specification |
| RaftServer.Raft.OnAppendReply | internal/raft/heartbeat.go:141-195 | A reply of a later term deposes the node without a vote; otherwise books, commit index and notifications are those of the reply step |
| RaftServer.Raft.CountHolders | internal/raft/heartbeat.go:159-164 | The loop counts the leader and the peers whose match index reaches i, each once |
| RaftServer.Raft.ScanCommit | internal/raft/heartbeat.go:156-173 | The nested loop ends at the greatest committable index |
| RaftServer.Raft.FindLastOfTerm | internal/raft/heartbeat.go:177-183 | The greatest index whose entry has the term, or -1 |
| RaftServer.Raft.DeliverReady | internal/raft/heartbeat.go:204-231 | One notification sends the unsent committed entries, in order, once |
| RaftServer.Raft.SendEntries | internal/raft/heartbeat.go:218-224 | The loop sends each entry with its own log index |
| NodeSteps.MatchLen | internal/raft/heartbeat.go:66-75 | The matched stretch stays inside both logs |
| NodeSteps.Scan | internal/raft/heartbeat.go:157-169 | The result is committable or the old commit index, and nothing above it is committable |
| NodeSteps.LastOfTerm | internal/raft/heartbeat.go:177-183 | The result has the term and nothing above it has |
| NodeSteps.Coalesced | internal/raft/heartbeat.go:204-231 | Two notifications with a further commit in between send together exactly what one sends after both commits, and leave the same node |
| Storage.MapStorage.Get | internal/raft/storage.go:29-34 | The value last set, or none |
| Storage.MapStorage.Set | internal/raft/storage.go:36-40 | One key changes |
| Storage.MapStorage.HasData | internal/raft/storage.go:42-46 | True exactly when something was ever set |
| StateMachine.AnswerIsLastPut | internal/kv/server/store.go:19-34 | The result attached to position i is the value of the last Put of its key before i, found exactly when there is one |
| StateMachine.FoldIsLastPut | internal/kv/server/store.go:27-34 | A key of the folded store holds the value of its last Put |
| StateMachine.AnswerOfPrefix | internal/kv/server/server.go:208-215 | Answers depend only on the commands up to their position |
| StateMachine.DataStore.Get | internal/kv/server/store.go:19-25 | Value and presence of the key, nothing changed |
| StateMachine.DataStore.Put | internal/kv/server/store.go:27-34 | Previous value and presence, and one key changed |
| Subscriptions.Routing | internal/kv/server/server.go:219-228 | Over any interleaving, a subscription receives the answer of the entry at its own index, once, if and only if it was made before that entry was routed |
| Subscriptions.NewSubscription | internal/kv/server/server.go:236-247 | A subscription is a new, empty channel of its own, registered at its index, and no other channel or registration changes; a refused one changes nothing |
| Subscriptions.CallerAnswered | internal/kv/server/server.go:139-157 | The channel a caller is handed is, however the run goes on, the one at its index; the response comes exactly when that entry is routed afterwards, and is the right one for that index |
| Subscriptions.OneLiveSubscription | internal/kv/server/server.go:236-247 | At most one subscription per index is waiting, and a new one is refused exactly when one is |
| Subscriptions.LateSubscriptionStarves | internal/kv/server/server.go:134-145 | A subscription made after its entry was routed never receives anything |
| Subscriptions.ChannelKeeps | internal/kv/server/server.go:225-228 | What was sent on a channel is never taken back and its index never changes |
| Subscriptions.ResponseMeaning | internal/kv/server/server.go:140-157 | A handler answers OK exactly when the committed entry at its index came from its server, with the value of the last Put before that entry |
| Subscriptions.StoreIsFold | internal/kv/server/server.go:206-217 | The store is the fold of exactly the entries taken, whatever the handlers do |
| KvServer.KVService.CreateCommitSubscription | internal/kv/server/server.go:236-247 | The caller gets the channel just made, which is empty and registered at its index, the others stay; or the index is taken and nothing changes |
| KvServer.KVService.PopCommitSubscription | internal/kv/server/server.go:251-258 | The index is unregistered and its channel returned, if there was one |
| KvServer.KVService.TakeEntry | internal/kv/server/server.go:206-223 | Store and answer are those of the step; an unknown kind panics before anything changes |
| KvServer.KVService.RouteEntry | internal/kv/server/server.go:225-228 | The answer goes to the subscription at its index, which is closed |
| KvServer.KVService.RunUpdater | internal/kv/server/server.go:204-231 | The loop is the repeated step, and stops at a panic |
| KvServer.KVService.HandlePut | internal/kv/server/server.go:123-139 | A node that does not lead answers StatusNotLeader; a waiting handler's fresh channel has the index at which the Raft log holds its own Put; a panic means that a handler waits there already |
| KvServer.KVService.HandleGet | internal/kv/server/server.go:171-182 | The same for a Get, with its key and no value |
| KvServer.KVService.Respond | internal/kv/server/server.go:140-157 | The response is the decision on the entry received |
| KvServer.UpdaterRuns | internal/kv/server/server.go:204-231 | The updater's loop is one of the interleavings, so everything proved of them holds of it |
| KvServer.UpdaterFolds | internal/kv/server/server.go:206-217 | A node that replays its stream from index 0 runs every command up to the first of an unknown kind and holds their fold |
| Replicas.StoresAgree | internal/kv/server/server.go:206-217 | Replicas that have run equally many entries hold the same store, at any two moments, also across a restart |
| Replicas.AnswersAgree | internal/kv/server/server.go:219-228 | Subscriptions for one index on any replicas and incarnations, once answered, carry the same command and result |
| LogRing.MemoryLogger.constructor | internal/logger/zlog.go:23-32 | An empty log of the given capacity, or of 150 |
| LogRing.MemoryLogger.Write | internal/logger/zlog.go:34-52 | The copied entry becomes the newest; only a full log loses its oldest |
| LogRing.MemoryLogger.GetAndFlushLogs | internal/logger/zlog.go:54-86 | What is returned, followed by what is kept, is what was retained; nothing for a limit of 0 or less, else `limit` entries, or fewer if none are left |
| LogRing.MemoryLogger.TakeOldest | internal/logger/zlog.go:67-83 | The loop empties exactly the oldest cells, leaves the rest in order and returns what they held |
| LogRing.MemoryLogger.HasLogs | internal/logger/zlog.go:88-92 | True exactly when something is retained |
| LogRing.WriteCell | internal/logger/zlog.go:42-47 | Writing at the head and moving it is a push on the FIFO, across the wrap-around |
| LogRing.ClearOldest | internal/logger/zlog.go:69-81 | Clearing the oldest cell is a pop, and the next cell is the next oldest |
| LogRing.FlushMeaning | internal/logger/zlog.go:54-86 | After any calls a flush hands out the oldest retained entries, as many as the limit or all, and keeps the rest |
| LogRing.WriteMeaning | internal/logger/zlog.go:34-52 | After any calls a write retains its entry as the newest, and only a full log gives up its oldest |
| LogRing.FifoConservation | internal/logger/zlog.go:34-86 | Over any calls: retained is the newest stretch of what was written, flushed is in write order what was neither retained nor overwritten, and written = flushed + overwritten + retained |
| LogRing.LostByFullWrite | internal/logger/zlog.go:42-47 | An entry is overwritten by a write to a full log and by nothing else |

## Left out

- Real time: ticker and heartbeat intervals, random timeouts and elections that end for lack of time; a timeout may happen at any follower or candidate at any moment.
- Liveness: that some leader is elected or some command is committed in the end; only the back-off is proved to end.
- Channel capacities and blocking: `newCommitReadyChan` is a count of waiting notifications, `commitChan` a growing sequence, `triggerAEChan` is left out because a heartbeat may happen at any moment; sends on channels closed by `Kill` are not modelled.
- Slice aliasing and data races on the log: logs are values, and each locked region is one step.
- The text of `internal/raft/rpc_server.go`, TCP and connection management; only the set of messages is kept. A message may also arrive twice, which the Go code's calls do not do; the runs built here deliver each message once.
- Gob encoding: decoding returns what was encoded. The three writes of one persist count as one.
- Slices out of range and the panics they cause: `Snapshot` then builds no request and `Deliver` sends nothing. `NextIndexInRange` and `DeliveredInOrder` show that a covered run has none.
- HTTP parsing, JSON rendering, request contexts and the retry loop of the client; a handler whose context ends simply never reads its subscription.
- `CompareValue` of a command, which nothing reads, and `internal/harness`, `internal/ws`, `internal/client`, `frontend`.
- Membership change and snapshots, which the repository does not have.
- Identity of commands: an OK response names the server of the committed entry and not the request, as the code compares only `Id`.
- KvServer.KVService.Respond: leaves the entry in the channel where the Go code takes it out; each handler reads once.
- KvServer.KVService.CreateCommitSubscription: channels are numbered cells of the service and not separate objects, so handing a channel to other code is not captured.
- LiteralCode.GuardedSafety: goes one way only, as a single run may leave the guards without doing harm; for all runs together the exact condition is `ExactRepairs.StateMachineSafetyExactly`.
- KvServer.KVService.RunUpdater: runs a finite batch of entries with no handler in between; every interleaving is covered by `Subscriptions.Run`.
- ExactRepairs.LogMatchingExactly: says nothing exact of runs with crashes; `Leaders.LogMatching` covers those where term and vote are always written to storage.
- ExactRepairs.NothingSharedExactly: the same.
- Replication.EveryOrder: requests of one leader's term only; requests of several terms are covered by the invariant over runs.
