# Foskv: consensus, apply and RPC, modelled and proved

Foskv is a replicated key-value store. Each node keeps a Raft log in one RocksDB store and user data in
another, exchanges votes and log entries with its peers over a small pipelined RPC protocol, and answers
clients once their command has been applied. This project models that core and proves what it keeps over
every run, every restart and every interleaving.

## How the model is laid out

| file | what it holds |
|---|---|
| `Messages`, `Wrappers` | the values that travel and the error codes |
| `Persister`, `RaftLog`, `StateMachine`, `RaftNode` | the source's objects as classes whose methods update their fields; each method is proved against a specification function |
| `Nodes` | those specification functions: one node's state as a value and each handler as a function of it |
| `CommitRule` | sorting the match indices and picking the middle one, against an order statistic that does not sort |
| `Clusters` | the transition system: n nodes, every call ever made, and the steps timeout, heartbeat tick, client request, handle, return |
| `Elections`, `Replication`, `Matching`, `Commits`, `Redirects` | invariants and theorems over all crash-free runs of a cluster |
| `DoubleVotes`, `Scenes`, `Shortfalls`, `Failovers` | runs that show where the hypotheses below fail and where properties end, built from a few moves, and the exact conditions under which they hold |
| `Projections` | each member of a cluster run follows a history of its node, and what that says of leaders' stores in the cluster |
| `HandlerLaws` | what each handler does to the node, for every node and message, said in its fields |
| `NodeRuns` | histories of one node under arbitrary messages, crashes and restarts included |
| `ApplyPaths`, `Reigns` | the two apply paths, restart replay, and the leader's reign as its handlers run it, leftovers included |
| `Frames`, `Sessions`, `NodeSessions` | the wire format with the loops that read and write it, the matching of replies to calls, and both on a node that leads, steps down and leads again |

Every handler of a node holds one mutex, so a handler is one atomic step. The network may delay, reorder or
lose calls; each call is handled at most once and its response reaches its own callback at most once.
Members are named 0, ..., n - 1, and n counts the node itself, as `peer_count()` does. A call without
entries is a heartbeat, and its response goes to the heartbeat callback. Two history variables that no
handler reads, `backers` and `won`, record who backed which candidacy and which candidacies led to leadership.

## Hypotheses that theorems name

The handlers are modelled as they are written. Where they depart from the Raft paper that
include/foskv/raft/raft_node.hpp:101 refers to ("In Search of an Understandable Consensus Algorithm",
extended version), a theorem names what it needs of the run:

- **OneVotePerTerm**: no member supports two candidates in a term. The vote handler reads `voted_for_` but
  never stores the candidate it grants (src/foskv/raft/raft_node.cpp:422-433).
  `DoubleVotes.TwoLeaders` is a run with two leaders in one term, and `DoubleVotes.OneVoteKeptIff` says
  exactly which steps keep the hypothesis.
- **InSyncAppend**: an accepted non-empty append request starts at the end of the receiver's log, with the
  matching term there (any term at index 0). The handler truncates at `prev_log_index` rather than after it,
  and appends at the end whatever `prev_log_index` is (src/foskv/raft/raft_node.cpp:490-507).
  `Shortfalls.LateWriteRepeats` is a run with one candidate in which a late message breaks log matching, and
  `Shortfalls.InOrderRepeats` one in which messages do not even overtake each other.
  `Logs.IndexedIffInSync`, `NodeRuns.EntriesDurableIff` and, for the cluster, `Shortfalls.IndexedKeptIff` and
  `Shortfalls.MatchKeptIff` show that this guard is the exact condition under which an entry's index stays its
  position, disk and memory agree, and logs keep matching.
- **TracksAll**: the leader's `match_index_` has every member. The map starts empty and the commit rule
  counts only the keys it has (src/foskv/raft/raft_node.cpp:371-377). `Shortfalls.MinorityCommit` is a run in
  which the leader alone holds what it commits; `Commits.MajorityForcedIff` shows that tracking everybody, with
  n odd, is the exact condition under which a commit is a majority's.
- **A clean start**: a reign begins with everything applied and an empty queue. A leader drains only its own
  `tasks_` and then counts everything up to the commit index as applied (src/foskv/raft/raft_node.cpp:380-382),
  and it keeps `tasks_` when it steps down (src/foskv/raft/raft_node.cpp:220-225). `Reigns.FailoverLoses` is a
  history in which an entry taken as a follower is never applied, `Reigns.RerunsOldCommand` one in which an old
  command runs again, and `Failovers.LeaderDiffers` a run that leaves a leader and a follower with the same
  applied log and different stores. No theorem assumes a clean start: `ApplyPaths.QueueRefinesLog`,
  `Reigns.LeaderStore`, `Projections.FirstReignAgreesIff` and the session theorems hold of any start and say
  exactly when it makes no difference.
- **NeverWon**, in `Commits.ReplicasAgree`: the two nodes have not led, for the same reason.
- Cluster runs are crash-free; the histories of `NodeRuns` are not.

What the code does and the paper does not: a vote is never on disk when the node restarts
(`NodeRuns.VoteNeverDurable`, against the comment at include/foskv/raft/raft_node.hpp:102-104, which lists
`voted_for_` as persistent); votes compare log lengths before terms; a truncation never reaches the disk,
because the deletion range is computed after the entries have gone (src/foskv/raft/raft_log.cpp:117-118).

## Model

| member | source | states |
|---|---|---|
| `Elections.ElectionSafety` | src/foskv/raft/raft_node.cpp:213-287 | Under OneVotePerTerm no two nodes lead in the same term, at the same time or at different times of a run (section 5.2 of the Raft paper) |
| `Elections.VoteInvHolds` | src/foskv/raft/raft_node.cpp:243-287 | In every run, without hypotheses: a candidate's vote count is the number of distinct members that backed it, each backer granted that candidacy, a grant carries the request's term, and every winner had a strict majority of `peer_count()` |
| `Elections.OneVoteOneWinner` | src/foskv/raft/raft_node.cpp:281-285 | Single votes give at most one winner per term, through the member that two majorities share |
| `Elections.MajoritiesMeet` | src/foskv/raft/raft_node.cpp:282 | Two strict majorities of n members have a member in common |
| `Elections.HistoryGrows` | src/foskv/raft/raft_node.cpp:422-433 | Votes cast and terms won stay on record through every later step |
| `Elections.LeaderCatchesUp` | src/foskv/raft/raft_node.cpp:312-321 | A caller that leads before or after a callback is in the response's term by then or in a later one; it leads on if and only if the response is of no later term than its own, and otherwise follows in exactly that term |
| `DoubleVotes.TwoLeaders` | src/foskv/raft/raft_node.cpp:422-433 | A concrete six-step run of three nodes ends with two leaders in term 1: election safety fails without the hypothesis |
| `DoubleVotes.OneVoteKeptIff` | src/foskv/raft/raft_node.cpp:422-433 | From any state that satisfies the vote invariant and has single votes, a step keeps them if and only if it is not the failing guard: a vote request in the voter's own term, from an up-to-date candidate, to a voter that has not stood but already supports another |
| `DoubleVotes.NewSupport` | src/foskv/raft/raft_node.cpp:213-218 | Only standing for election and granting a request add to the record of votes |
| `Replication.TermDiscipline` | src/foskv/raft/raft_node.cpp:213-241 | A node's term never decreases over a run and is constant while the node leads |
| `Replication.TermInvHolds` | src/foskv/raft/raft_node.cpp:459-468 | No entry on a node or in a request, at any time, is of a later term than its holder's or the request's |
| `HandlerLaws.LaterResponse` | src/foskv/raft/raft_node.cpp:266-275 | A response of any kind with a later term leaves the node (a leader, for heartbeat and append responses) a follower in exactly that term, without a vote, its log, store, commit and progress as they were |
| `HandlerLaws.LaterVoteRequest` | src/foskv/raft/raft_node.cpp:411-420 | So does a vote request with a later term |
| `HandlerLaws.AppendRequestFrom` | src/foskv/raft/raft_node.cpp:459-470 | An append request that is not stale names the leader and leaves the node in exactly its term, following without a vote if the term is later and standing as it stood otherwise |
| `HandlerLaws.Ignored` | src/foskv/raft/raft_node.cpp:253-287 | Messages of an earlier term, refused votes, votes for a leader, and heartbeat and append responses to a node that does not lead change nothing at all |
| `Replication.LogInvHolds` | src/foskv/raft/raft_node.cpp:586-617 | Under InSyncAppend: every request ever sent is a slice of its sender's present log, every success reports a length both logs still have, entries sit at their indices, and progress indices stay inside the logs |
| `Replication.LogsOnlyGrow` | src/foskv/raft/raft_node.cpp:490-507 | Under InSyncAppend every node's log at a point of a run is a prefix of its log at any later point |
| `Replication.HandledInSync` | src/foskv/raft/raft_node.cpp:470-517 | An in-sync request that succeeds extends the log by exactly its entries and reports the new end; anything else leaves the log as it was |
| `HandlerLaws.AcceptedLog` | src/foskv/raft/raft_node.cpp:485-517 | Every accepted request, in sync or not: where its term agrees at `prev_log_index` (or that is 0) its entries go to the end of the log, otherwise the log keeps exactly the entries before `prev_log_index` and gains them; and what the reply says |
| `HandlerLaws.RefusedLog` | src/foskv/raft/raft_node.cpp:485-507 | Every refused request: a stale one changes nothing, one beyond the log changes no log, one whose write fails has truncated memory only and never the disk; and what the reply asks for |
| `Replication.ReturnedProgress` | src/foskv/raft/raft_node.cpp:362-383 | A callback changes no log, and any commit index it sets is the match index of some tracked member |
| `Replication.KvLogged` | src/foskv/raft/raft_node.cpp:581-617 | A client's command goes out as a slice of the log it ends, naming the position and term before it; a refused one changes nothing |
| `HandlerLaws.WriteLogged` | src/foskv/raft/raft_node.cpp:581-617 | A leader's write adds one entry to the log and the disk, one task to the end of the queue, its own progress and nothing else, and what it sends out |
| `HandlerLaws.HeartbeatSays` | src/foskv/raft/raft_node.cpp:800-811 | A heartbeat carries no entries, what the leader has committed, and the position and term before its last entry |
| `HandlerLaws.ResendContinues` | src/foskv/raft/raft_node.cpp:156-168 | For any leader, any member and any writes between two ticks: the first sends a lagging member everything from its next index, the second starts exactly where the first ended, and together they are the log from there on; a member that does not lag keeps its next index |
| `HandlerLaws.ElectedContinues` | src/foskv/raft/raft_node.cpp:227-235 | A new leader sends every member it knows of exactly what it logs itself, from the end of the log it was elected with |
| `HandlerLaws.OwnTermResponse` | src/foskv/raft/raft_node.cpp:362-383 | A response of the leader's own term touches only the sender's progress, the commit and the queue: a refusal sets the next index to what it asks for and nothing else, a success no next index |
| `Matching.LogMatching` | src/foskv/raft/raft_node.cpp:436-518 | Log matching (section 5.3 of the Raft paper) under OneVotePerTerm and InSyncAppend: equal terms at an index mean equal logs up to it |
| `Matching.MatchInvHolds` | src/foskv/raft/raft_node.cpp:586-617 | The inductive form: logs match pairwise, each term's entries are all in its winner's log, and every reported or stored match index names a prefix that leader and member share |
| `Matching.AppendMakesPrefix` | src/foskv/raft/raft_node.cpp:485-507 | Where logs match, an in-sync append makes the receiver's log a prefix of the sender's |
| `Shortfalls.LateWriteRepeats` | src/foskv/raft/raft_node.cpp:485-507 | A concrete ten-step run with a single candidate: a refused write is resent before an earlier write is handled, the last append is the only one out of sync, and the two logs no longer match |
| `Shortfalls.InOrderRepeats` | src/foskv/raft/raft_node.cpp:362-366 | A concrete fourteen-step run in which messages to a member never overtake each other: two refusals are on their way back at once, each triggers a resend, the follower takes both, and its log is the leader's twice |
| `Shortfalls.IndexedKeptIff` | src/foskv/raft/raft_node.cpp:490-507 | In any state of a cluster with the log invariant, an accepted append keeps the receiver's entries at the positions their indices name if and only if it is in sync |
| `Shortfalls.MatchKeptIff` | src/foskv/raft/raft_node.cpp:490-507 | In any state of a cluster with the invariants, an accepted append keeps all logs matching and indexed if and only if it is in sync |
| `Commits.CommitBound` | src/foskv/raft/raft_node.cpp:368-383 | Under InSyncAppend alone: no node ever commits or applies beyond its own log, and every stored match index is at most the member's present log length and at most the node's own, across leaderships and with responses in flight |
| `Commits.CommitIsReplicated` | src/foskv/raft/raft_node.cpp:368-377 | Whenever a leader that tracks k members moves its commit index, at least k - k/2 members hold its whole committed prefix, entry for entry; the rule forces a strict majority if and only if it tracks all n and n is odd, and then a strict majority holds the prefix |
| `Commits.MajorityForcedIff` | src/foskv/raft/raft_node.cpp:371-377 | The exact condition: for tracked members ks, every possible state of their match indices puts a strict majority of n at the commit point if and only if ks is everybody and n is odd |
| `Shortfalls.MinorityCommit` | src/foskv/raft/raft_node.cpp:371-382 | A concrete seven-step run of three members, in sync and with single votes, in which the leader tracks two members, commits its second write and releases the reply while it alone holds that write |
| `Shortfalls.CommitGoesBack` | src/foskv/raft/raft_node.cpp:368-377 | That run, two steps on: the leader hears from its third member and its commit index drops below a write that it has already answered |
| `Commits.LengthCompleteness` | src/foskv/raft/raft_node.cpp:427-433 | Without OneVotePerTerm: once a strict majority has c entries, any leader whose votes were all granted later has at least c |
| `Commits.CommitOutlivesReign` | src/foskv/raft/raft_node.cpp:281-285 | A later leader's log is at least as long as a majority commit, and starts with the committed entries if and only if it has the committed term at the commit index |
| `Failovers.LeaderLacksCommit` | src/foskv/raft/raft_node.cpp:427-431 | A concrete run that fits the lemma before it: a leader that tracks everybody commits an entry with a majority, and a leader elected wholly after that, with a longer log of an earlier term, lacks it |
| `Commits.LogMatchingOverTime` | src/foskv/raft/raft_node.cpp:436-518 | A log at one point and another node's log at a later point share their first c entries if and only if their terms at c agree |
| `Commits.GrantComparesLogs` | src/foskv/raft/raft_node.cpp:427-433 | A vote goes only to a candidate whose log was longer than the voter's when it asked, or now extends it |
| `Commits.ReplicasAgree` | src/foskv/raft/state_machine.cpp:77-115 | Two nodes that have not led hold equal stores whenever they have applied to the same index with the same term there, at whatever points of a run and however entries were batched; a node that has led is covered by the next four rows |
| `Failovers.LeaderDiffers` | src/foskv/raft/raft_node.cpp:380-382 | A concrete run that ends with a leader and a follower that have the same log, all of it applied by both, and different stores |
| `Projections.FirstReignAgreesIff` | src/foskv/raft/raft_node.cpp:380-382 | A member that leads for the first time and one that has not led, drained and applied to the same index with the same term there, hold equal stores if and only if what the leader had not applied when it won makes no difference outside the keys that its reign has written since |
| `Projections.LeaderStoreInCluster` | src/foskv/raft/raft_node.cpp:380-382 | Whatever a member of a cluster has been through, from the moment it leads its store is what its log, queue and store at that moment and its drained entries make it |
| `Projections.MemberHistory` | src/foskv/raft/raft_node.cpp:436-518 | Every stretch of an in-sync run with single votes is, for each member, an in-sync history of that node, and a reign where it leads throughout |
| `Redirects.RedirectsToLeader` | src/foskv/raft/raft_node.cpp:563-579 | A redirect names a member that did lead, at or before that point of the run, in a term no later than the redirecting node's |
| `HandlerLaws.RedirectsIff` | src/foskv/raft/raft_node.cpp:563-579 | A redirect is given exactly by nodes that do not lead, and names a member if and only if the node knows it as the leader |
| `HandlerLaws.RedirectsToSender` | src/foskv/raft/raft_node.cpp:470 | Whoever has taken a leader's heartbeat or entries redirects to that leader |
| `Redirects.LeadersKnownHolds` | src/foskv/raft/raft_node.cpp:470 | Every append request in flight comes from the winner of its term, by name, and every known leader is such a winner |
| `CommitRule.PickCommit` | src/foskv/raft/raft_node.cpp:371-377 | The sorted middle element is the largest value that at least n - n/2 of the n tracked members have reached, and one of them has exactly that value |
| `CommitRule.CommitPoint` | src/foskv/raft/raft_node.cpp:371-377 | The same order statistic found without sorting: the reference that `PickCommit` is equated with |
| `CommitRule.CommitPointMonotone` | src/foskv/raft/raft_node.cpp:368-377 | Raising match indices over the same members never lowers the commit index |
| `CommitRule.BelowIff` | src/foskv/raft/raft_node.cpp:377 | The rule falls short of an index exactly when fewer than n - n/2 tracked members have reached it |
| `CommitRule.OneOfTwoSuffices` | src/foskv/raft/raft_node.cpp:371-377 | With two tracked members one of them alone decides the commit index |
| `NodeRuns.DurableTerm` | src/foskv/raft/persister.cpp:27-41 | Through any history, crashes and restarts included, the persisted term never decreases and never exceeds the one in memory, although src/foskv/raft/raft_node.cpp:270 persists the old term |
| `NodeRuns.LeaderTermDurable` | src/foskv/raft/raft_node.cpp:227-241 | A leader that crashes comes back in the term it led |
| `NodeRuns.VoteNeverDurable` | src/foskv/raft/raft_node.cpp:227-241 | No vote ever reaches the disk, so every restart forgets the vote in memory |
| `HandlerLaws.RaisedTermLostIff` | src/foskv/raft/raft_node.cpp:270 | Whatever a node has been through: when a step raises its term, a crash right after it loses that term if and only if the step was a timeout or a vote response; a later term that came in a request, or in a response to a leader, is on the disk |
| `HandlerLaws.RestartKeeps` | src/foskv/raft/raft_node.cpp:72-90 | A restart keeps the log, term and vote of the disk and the user data, and nothing else |
| `HandlerLaws.GrantsIff` | src/foskv/raft/raft_node.cpp:422-433 | In any history from a disk without a vote, a member grants if and only if the request is of a later term, or of its own and it is not standing itself, and the candidate's log is longer, or as long with the same last term; earlier grants make no difference |
| `HandlerLaws.VoteIsRoleHolds` | src/foskv/raft/raft_node.cpp:213-218 | In any such history the only vote a node remembers is its own while it is a candidate |
| `NodeRuns.ElectedIff` | src/foskv/raft/raft_node.cpp:281-285 | A candidate whose term is new to the voters it hears from becomes leader if and only if one of them votes for it and its own vote and the voters whose logs it is ahead of make a strict majority; until then its count is exactly that; with no voter to hear from, as in a cluster of one, it never leads |
| `NodeRuns.DurableLog` | src/foskv/raft/raft_log.cpp:84-123 | In any history with in-sync appends, however often the node restarts, the disk gives back exactly the log in memory at every point |
| `NodeRuns.EntriesDurableIff` | src/foskv/raft/raft_node.cpp:490-507 | An accepted batch with true indices leaves disk and memory with the same log if and only if the request was in sync |
| `NodeRuns.RecoveryAtEveryPoint` | src/foskv/raft/persister.cpp:108-192 | After any history of truncations and of batches that continue the log in memory, recovery returns the log as of the last append: memory right after an append, the log before the truncation in between, never a mixture |
| `NodeRuns.FollowerAppliesOnce` | src/foskv/raft/raft_node.cpp:473-483 | While a node does not lead and nothing applied is truncated: applied = commit <= last index, never going back, and the store is the fold of the log up to it, however commits were split |
| `NodeRuns.RestartsConverge` | src/foskv/raft/raft_node.cpp:473-515 | With in-sync appends and any number of restarts over the surviving store: the log keeps everything ever applied; once the node has caught up with the furthest index it ever applied its store is the fold of its log; and a replay to any index from there on reaches what a fresh replay would |
| `NodeRuns.AppliedWithinLog` | src/foskv/raft/raft_log.cpp:69-74 | No span that such a follower applies wraps, and each apply folds in exactly the entries in between |
| `NodeRuns.FollowerReaches` | src/foskv/raft/raft_node.cpp:473-515 | One successful request takes the applied index to the leader's commit clipped to the log, and never back; an unsuccessful one leaves it |
| `HandlerLaws.HeartbeatApplied` | src/foskv/raft/raft_node.cpp:472-483 | For any node, a heartbeat that is not stale raises the commit index to the leader's, but not beyond the log, and applies exactly the entries from the applied index to it, whether or not it has moved |
| `HandlerLaws.EntriesApplied` | src/foskv/raft/raft_node.cpp:509-515 | For any node, accepted entries do so if the leader has committed more than the node knew of, and otherwise apply nothing |
| `NodeRuns.CommitNeverDrops` | src/foskv/raft/raft_node.cpp:368-383 | Over the same tracked members, whatever writes and responses come in, the commit index stays what it was or is at least what those members had reached then; so it never drops once it is no higher than that, as after any recorded response. A response in the leader's own name, which nobody sends, is taken to report no more than its log |
| `NodeRuns.ResponseLowersIff` | src/foskv/raft/raft_node.cpp:368-377 | A recorded response lowers the commit index if and only if fewer than n - n/2 tracked members have reached the old one; `Shortfalls.CommitGoesBack` is a run in which that happens |
| `NodeRuns.OneRoundCatchUp` | src/foskv/raft/raft_node.cpp:156-174 | For any leader and any shorter-prefix follower, the empty one included, one rejection, which asks for the entry just past the follower's log, and one heartbeat resend make the logs equal; the leader then has nothing at all to resend and knows the follower has everything |
| `NodeRuns.HeartbeatDelivers` | src/foskv/raft/raft_node.cpp:473-483 | A heartbeat to a follower with the leader's log leaves it with everything applied that either had committed, and knowing the leader |
| `Durable.BatchRecoversMemory` | src/foskv/raft/persister.cpp:55-72 | After a contiguous batch over a store that still holds truncated entries, recovery returns the log in memory if and only if the batch continues memory without gap or overlap |
| `Durable.RecoveredIsIndexed` | src/foskv/raft/persister.cpp:180-191 | A recovered log starts at index 1 and carries its positions as indices |
| `Durable.RecoveredIsWhole` | src/foskv/raft/persister.cpp:172-191 | Whatever reads or writes fail during recovery, a log that is recovered is the whole one on the disk |
| `Durable.RecordsContiguous` | src/foskv/raft/persister.cpp:60-68 | A batch of consecutive entries writes exactly their keys, each with its own entry |
| `Durable.PutEntryIsBatch` | src/foskv/raft/persister.cpp:43-53 | Persisting one entry and persisting a batch of one leave the same store |
| `Durable.StateReadsBack` | src/foskv/raft/persister.cpp:27-41 | A term and vote, once written, read back as themselves, and nothing else changes |
| `Durable.BatchWrites` | src/foskv/raft/persister.cpp:55-72 | A batch of consecutive entries replaces their records and the last index, and nothing else |
| `Durable.RecoversIff` | src/foskv/raft/persister.cpp:108-192 | A log is recovered if and only if it lies on the disk: under all keys from the first index to the last, each there and an entry, or empty on a new disk or with last index 0 |
| `Durable.RecoversUnderIff` | src/foskv/raft/persister.cpp:108-192 | With reads and writes that fail, a recoverable disk is recovered if and only if its index keys are read, written where they are new, and every entry of the range is read; and which error comes otherwise |
| `Durable.RecoveryErrors` | src/foskv/raft/persister.cpp:113-189 | Which error a failed recovery gives, and what is wrong with the disk then |
| `Durable.OpenedAgain` | src/foskv/raft/persister.cpp:115-160 | Opening a store that recovers changes neither log nor state, opening it twice is opening it once, and an empty log starts from index 1 |
| `Durable.Persister.PersistState` | src/foskv/raft/persister.cpp:27-41 | Replaces the term and vote record and nothing else, or fails and changes nothing |
| `Durable.Persister.PersistEntry` | src/foskv/raft/persister.cpp:43-53 | Writes the entry and the last index at once, or fails and writes nothing |
| `Durable.Persister.PersistBatch` | src/foskv/raft/persister.cpp:55-72 | Writes all records and the last index at once; an empty batch or a failed write changes nothing |
| `Durable.Persister.TruncateBatch` | src/foskv/raft/persister.cpp:74-84 | Deletes exactly the keys of the range when it is empty or starts at 0 and the write succeeds, and nothing otherwise; reports that it reads past its vector for any other range |
| `Durable.Persister.RecoverState` | src/foskv/raft/persister.cpp:86-106 | Returns the persisted term and vote, 0 without a vote on a first start, or the error of a failed read or an unreadable record |
| `Durable.Persister.RecoverEntries` | src/foskv/raft/persister.cpp:108-192 | The recovery loops return the specified log or the error that applies first, failed reads of index keys and entries included, and repair the two index keys; a repair that fails is an error on a new store and of no consequence on an empty log |
| `Logs.IndexedIffInSync` | src/foskv/raft/raft_node.cpp:490-507 | A slice with true indices leaves every entry at the position its index names if and only if the request was in sync |
| `Logs.ViewLength` | src/foskv/raft/raft_log.cpp:69-74 | The 64-bit span length is the number of entries asked for, or has wrapped and reaches past the log |
| `Logs.EntriesView` | src/foskv/raft/raft_log.cpp:69-74 | A view overruns the log exactly when its start is inside the log and beyond its end plus one |
| `Logs.RaftLog.Create` | src/foskv/raft/raft_log.cpp:11-25 | Opening any store gives the recovered log with the first entry's index, or fails when recovery does; on a store that is new or was written by a Persister the first index is 1 and entries carry their positions |
| `Logs.RaftLog.LastLogIndex` | src/foskv/raft/raft_log.cpp:27-30 | The last index is the number of entries |
| `Logs.RaftLog.LastLogTerm` | src/foskv/raft/raft_log.cpp:32-42 | The last entry's term, 0 for the empty log |
| `Logs.RaftLog.PrevLogIndex` | src/foskv/raft/raft_log.cpp:44-47 | The index before the last, 0 for the empty log |
| `Logs.RaftLog.PrevLogTerm` | src/foskv/raft/raft_log.cpp:49-59 | The term before the last entry, 0 when there is none |
| `Logs.RaftLog.EntryAt` | src/foskv/raft/raft_log.cpp:61-67 | The entry at a log index, or an error outside the log |
| `Logs.RaftLog.ViewOf` | src/foskv/raft/raft_log.cpp:69-74 | The view of the entries between two log indices |
| `Logs.RaftLog.TermOf` | src/foskv/raft/raft_log.cpp:76-82 | The term at a log index, 0 outside the log and at index 0 |
| `Logs.RaftLog.AppendEntry` | src/foskv/raft/raft_log.cpp:84-90 | Memory and store gain the entry together or stay as they were |
| `Logs.RaftLog.AppendEntries` | src/foskv/raft/raft_log.cpp:92-111 | Memory and store gain the batch together or stay as they were |
| `Logs.RaftLog.TruncateEntries` | src/foskv/raft/raft_log.cpp:113-123 | Memory keeps exactly the entries before the index, for every index inside the log; the store keeps everything |
| `ApplyPaths.QueueRefinesLog` | src/foskv/raft/state_machine.cpp:32-75 | Queue apply against log apply, however requests and commits interleave, from any store and with any tasks left over from an earlier reign: until the leftovers are gone the store is what the released ones made of it; from then on it is the fold of the drained prefix if and only if the leftovers' effect agrees with the fold of the starting log outside the keys that the reign's own drained entries write |
| `ApplyPaths.CleanReign` | src/foskv/raft/state_machine.cpp:32-75 | When everything is applied and nothing is queued at the start, draining leaves exactly the fold of the drained prefix |
| `ApplyPaths.DrainedIs` | src/foskv/raft/state_machine.cpp:33 | The queue is drained exactly as far as the largest commit index, clipped to the log of its moment, says; leftovers no newer than the starting log neither hold an entry back nor let one through |
| `ApplyPaths.QueueAnswers` | src/foskv/raft/state_machine.cpp:43-73 | Each of the reign's own answers is what its command answers after the leftovers and all earlier own entries, and on the fold of all earlier entries whenever the leftovers make no difference to that |
| `ApplyPaths.ReignStaysOk` | src/foskv/raft/state_machine.cpp:32-75 | At every point the queue is what the commits have not released of all tasks ever queued, the store is what the released ones made of it, and each has been answered, to its own session and request, after all earlier ones |
| `ApplyPaths.ReplayConverges` | src/foskv/raft/state_machine.cpp:77-115 | After any history of applies and crashes, replaying 1..m over the surviving store reaches the store of a fresh replay, for every m no smaller than anything applied before |
| `ApplyPaths.ReplayIff` | src/foskv/raft/state_machine.cpp:77-115 | The same entries bring two stores together if and only if the stores agree on every key the entries never write |
| `ApplyPaths.LastWriter` | src/foskv/raft/state_machine.cpp:77-115 | The last writer wins: a key holds what the last entry that puts or deletes it gives it, nothing after a delete, and what it held before if there is none |
| `ApplyPaths.LastTask` | src/foskv/raft/state_machine.cpp:117-151 | The same of the tasks that the queue runs |
| `ApplyPaths.AnswersSay` | src/foskv/raft/state_machine.cpp:117-161 | What each command answers; a get answers with what the key holds, or fails when it holds nothing |
| `Reigns.RunIsReign` | src/foskv/raft/raft_node.cpp:581-621 | Any history in which a node leads throughout drives log, queue and store exactly as a sequence of requests and commits does, from whatever log, queue and store it starts with |
| `Reigns.LeaderStore` | src/foskv/raft/raft_node.cpp:380-382 | Whatever such a leader is sent, and whatever earlier reigns left in its queue, its store is known and is the fold of the drained log under the exact condition of `ApplyPaths.QueueRefinesLog` |
| `Reigns.RerunsOldCommand` | src/foskv/raft/raft_node.cpp:220-225 | A concrete history of in-sync appends in which the condition fails: a leader that steps down keeps its queue, and when it leads again runs a command it has since applied as a follower, so that with everything applied its store is not the fold of its log |
| `Reigns.FailoverLoses` | src/foskv/raft/raft_node.cpp:380-382 | The other half: a concrete history of in-sync appends in which a node leads once, with nothing queued before, and never applies what it took as a follower and had not applied; with everything counted as applied, the first write is lost to every later get |
| `NodeSessions.TracedThroughout` | src/foskv/raft/raft_node.cpp:608-612 | Over any joint run of a session and its node, which may lead, step down and lead again, the node's side of the session has the node's own queue, and its log and store while it leads; each reign of the session is one of the node, from its log, queue and store at the start; and what was released is a commit index that the node has had |
| `NodeSessions.NodeReplies` | src/foskv/raft/raft_node.cpp:380-382 | Reply safety on the node itself, over any number of reigns and whatever they begin with: each successful reply is given in a reign of the node, at an entry of its log with that request's command or by a task it found in its queue, up to a commit index it has had; in a reign that begins with everything applied and nothing queued it is the answer on the fold of the log before that entry |
| `Machine.Ready` | src/foskv/raft/state_machine.cpp:33 | A commit index releases exactly the queue's prefix up to it |
| `Machine.StateMachine.ApplyQueue` | src/foskv/raft/state_machine.cpp:32-75 | Draining runs the released tasks in order, keeps the others, and answers the connected sessions; a task that the user data store refuses changes nothing and is answered with its error |
| `Machine.StateMachine.ApplyEntries` | src/foskv/raft/state_machine.cpp:77-115 | Applying a span is the fold of its commands; commands that do not parse, and those that the store refuses, change nothing |
| `Machine.FailedAreSkipped` | src/foskv/raft/state_machine.cpp:89-107 | Entries that the user data store refuses are skipped for good: the result is the fold of the others |
| `Machine.FailedTasks` | src/foskv/raft/state_machine.cpp:119-159 | Queued tasks that the store refuses are skipped for good as well, and each is answered with its error, the others on what the tasks that did not fail have left |
| `Machine.StateMachine.ProduceApplyTask` | src/foskv/raft/state_machine.cpp:28-30 | Puts the apply task at the end of the queue |
| `Machine.StateMachine.ApplyKvPut` | src/foskv/raft/state_machine.cpp:117-129 | Writes the pair and confirms, or reports the store's failure and changes nothing |
| `Machine.StateMachine.ApplyKvGet` | src/foskv/raft/state_machine.cpp:131-147 | Answers with the value at the time of applying, or fails when there is none or the read fails |
| `Machine.StateMachine.ApplyKvDelete` | src/foskv/raft/state_machine.cpp:149-161 | Takes the key out of the store and confirms, present or not; a failure changes nothing and is answered as a failed put is |
| `Handlers.RaftNode.Create` | src/foskv/raft/raft_node.cpp:72-90 | A start on any disk reads back log, term and vote from what survived and applies nothing yet; it fails exactly when the log or the state cannot be read, or a new store cannot be initialised |
| `Handlers.RaftNode.StartElection` | src/foskv/raft/raft_node.cpp:213-218 | The node stands in the next term with its own vote counted |
| `Handlers.RaftNode.ElectionTimeout` | src/foskv/raft/raft_node.cpp:116-134 | Everybody but a leader stands and asks with its last index and term |
| `Handlers.RaftNode.HeartbeatTimeout` | src/foskv/raft/raft_node.cpp:143-179 | A leader resends to every lagging member what it lacks, then sends everybody a heartbeat; others do nothing |
| `Handlers.RaftNode.ResendAll` | src/foskv/raft/raft_node.cpp:155-174 | The loop, in whatever order, makes one request per lagging member and moves its next index just past the log |
| `Handlers.RaftNode.Resend` | src/foskv/raft/raft_node.cpp:157-168 | The inner loop terminates and collects the contiguous rest of the log |
| `Handlers.RaftNode.IncreaseTermTo` | src/foskv/raft/raft_node.cpp:220-225 | Takes the term and forgets votes |
| `Handlers.RaftNode.BecomeLeader` | src/foskv/raft/raft_node.cpp:227-241 | Leads, resets every known next index, persists the term |
| `Handlers.RaftNode.HandleRequestVoteRequest` | src/foskv/raft/raft_node.cpp:390-434 | Steps the node and answers as the vote function of module Nodes, about which the election theorems are proved |
| `Handlers.RaftNode.HandleRequestVoteResponse` | src/foskv/raft/raft_node.cpp:243-287 | The same for a vote's response, the persisting of the old term included |
| `Handlers.RaftNode.HandleAppendEntriesRequest` | src/foskv/raft/raft_node.cpp:436-518 | The same for heartbeats and entries, with a failing store write as a case |
| `Handlers.RaftNode.HandleHeartbeatResponse` | src/foskv/raft/raft_node.cpp:289-322 | The same for a heartbeat's response |
| `Handlers.RaftNode.HandleAppendEntriesResponse` | src/foskv/raft/raft_node.cpp:324-384 | The same for an append's response, with the answers pushed to connected sessions |
| `Handlers.RaftNode.CommitAndApply` | src/foskv/raft/raft_node.cpp:371-382 | Sorting and picking commits what `CommitPoint` says and drains the queue up to it |
| `Handlers.RaftNode.HandleKvRequest` | src/foskv/raft/raft_node.cpp:552-765 | Redirect, failed append, or log, queue and defer the reply, for put, get and delete alike |
| `Frames.StreamRoundTrip` | src/foskv/rpc/consumer.cpp:27-41 | Any sequence of frames with payloads up to 4 MiB, written one after the other, decodes to itself in order, whatever follows, for requests and responses |
| `Frames.CalledArrives` | include/foskv/rpc/config.hpp:5 | What a call writes is a frame that the provider reads, up to a payload of exactly 4 MiB and not beyond |
| `Frames.BrokenStream` | src/foskv/rpc/provider.cpp:73-97 | A connection that breaks at any byte delivers exactly the frames written in full before it |
| `Frames.NothingFromPart` | src/foskv/rpc/provider.cpp:87-97 | A frame cut short, or with a size over the limit, yields nothing |
| `Frames.FirstOfEncoded` | include/foskv/rpc/util.hpp:14-26 | Header fields of a written frame read back as themselves |
| `Frames.NumberOfBigEndian` | src/foskv/rpc/consumer.cpp:28-31 | Big-endian numbers that fit their field read back as themselves |
| `Frames.ReadFrame` | src/foskv/rpc/provider.cpp:74-97 | One read gives the next whole frame of acceptable size, or none exactly when there is none |
| `Frames.WriteResponse` | src/foskv/rpc/provider.cpp:152-160 | Header and payload of a response are one frame without tag bytes |
| `Frames.RpcProvider.RegisterInvoke` | src/foskv/rpc/provider.cpp:53-58 | Adds one method to the known ones |
| `Frames.RpcProvider.ProduceInvokeTasks` | src/foskv/rpc/provider.cpp:68-122 | The read loop queues, in order, one task per decoded request of a known method, and nothing else |
| `Frames.RpcProvider.ConsumeInvokeTasks` | src/foskv/rpc/provider.cpp:124-169 | The write loop sends, in order, one response frame per non-empty result of acceptable size, up to the first write that fails; that task is lost and the later ones stay queued; size 0 means that the reply comes later |
| `Frames.RpcConsumer.Call` | src/foskv/rpc/consumer.cpp:27-49 | Takes the next request id, enters the callback under it and writes one request frame; a write that fails is reported and leaves the callback in the table |
| `Frames.RpcConsumer.Dispatch` | src/foskv/rpc/consumer.cpp:172-178 | Fires and forgets the callback under the response's id, if there is one |
| `Frames.RpcConsumer.ConsumeCallbacks` | src/foskv/rpc/consumer.cpp:144-180 | The response loop fires what the decoded responses call for, once each, and forgets exactly those callbacks and that of a response that is too large or cut off |
| `Frames.FiredOnce` | src/foskv/rpc/consumer.cpp:172-177 | Whatever responses arrive, however often, no callback fires twice and each fires under its own id |
| `Frames.FiredFrom` | src/foskv/rpc/consumer.cpp:172-177 | A callback fires with the payload of the first response that carries its id |
| `Frames.CallRoundTrip` | src/foskv/rpc/provider.cpp:124-169 | From call to callback: any calls of known methods with different ids, written and read, invoked, answered, written and read back, fire each call's own callback once with its own result |
| `Frames.UnknownSkipped` | src/foskv/rpc/provider.cpp:100-110 | A request of an unknown service or method leaves no trace among the tasks, wherever it stands |
| `Frames.DeferredSkipped` | src/foskv/rpc/provider.cpp:140-150 | A result that is empty, too large or an error leaves no trace among the replies, wherever it stands |
| `Sessions.ReplySafety` | src/foskv/rpc/provider.cpp:129-166 | Over all interleavings on one connection, from any store and any queue, with leadership lost and regained any number of times: no callback fires twice, each fires with the reply to its own request, and a successful reply is what that request's own task gives, released by a commit index passed to apply, after all earlier tasks of its reign |
| `Sessions.ReplyPlace` | src/foskv/raft/state_machine.cpp:33-74 | Such a reply comes from an entry that the reign logged, and says what the command answers on the fold of the reign's earlier entries over what the leftovers made of its starting store, which is the fold of the whole log before it when the start makes no difference; or from a task that the reign found in its queue |
| `Sessions.IdsHold` | src/foskv/rpc/consumer.cpp:27-50 | At every moment a request id is in at most one place on its way there and back, and its callback waits exactly until it fires |
| `Sessions.SessionHolds` | src/foskv/raft/state_machine.cpp:32-75 | Every queued, travelling or delivered answer is the right one for its id |
| `Sessions.PushedRight` | src/foskv/raft/state_machine.cpp:70-73 | An answer pushed by a commit is right, given by a task that this commit released |
| `Sessions.DeliveredWaiting` | src/foskv/rpc/consumer.cpp:172-177 | Every response that arrives finds its callback waiting |
| `Sessions.CommitConserves` | src/foskv/raft/state_machine.cpp:33-74 | A commit moves request ids from the apply queue to the session's queue, losing none while the session is connected |
| `Sessions.NothingLost` | src/foskv/rpc/consumer.cpp:27-50 | While the session is connected, every call made is at every moment in exactly one place on its way there and back, or has fired |

## Left out

- Leader Completeness and State Machine Safety (section 5.4 of the Raft paper): the vote test compares lengths before terms and the commit rule does not look at the entry's term (src/foskv/raft/raft_node.cpp:371-377, 427-431), so the program does not have them. `Failovers.LeaderLacksCommit` and `Failovers.LeaderDiffers` are runs that show it; `Commits.LengthCompleteness`, `Commits.CommitOutlivesReign`, `Commits.ReplicasAgree` and `Projections.FirstReignAgreesIff` are what it has instead.
- Crashes across a cluster: an election does not persist the term, so terms and votes are stated for crash-free runs; restarts are modelled for one node.
- Snapshots: the handlers, `Snapshotter` and the metadata they would need are stubs, so the first index is 1 throughout.
- Timers, random timeouts, coroutines, io_uring, atomics and lock-free early exits: a timeout is a step that may happen at any moment, and a handler under the mutex is one step that makes the same checks again.
- Configuration files, adding and removing peers, hashed member ids, TCP connect, close and reconnect (where request ids restart at 0), the client's redirect and retry, command-line parsing, logging, QPS counters and the unused `Proposer`.
- RocksDB and protobuf: a map with atomic batch writes and injective encodings. A message that does not parse is not modelled, except for a log entry's command. Failing reads and writes are modelled in the methods of `Persister` and `StateMachine`, in `RaftLog.Create` and `RaftNode.Create`, and log writes may fail in every handler. The handlers' writes of the state record, whose failure is only logged, and the user data reads and writes that handlers cause are taken to succeed.
- 64-bit overflow of terms, indices and request ids: unbounded here, except for the span length of `entries_view` and the fields of a frame.
- A span that has wrapped reads past the vector: the result is undefined in the program, and the model leaves the store alone; `NodeRuns.AppliedWithinLog` and `Commits.CommitBound` say when this cannot happen.
- `backup/`, examples and tests.
- Durable.Persister.TruncateBatch: a range that is not empty and does not start at 0 makes the source read past its vector; the result is undefined there, and the model reports it and leaves the store alone. The only caller passes an empty range.
- Handlers.RaftNode.HandleKvRequest: put, get and delete differ only in the command they log, so one method stands for the three handlers. Long handlers are split into helper methods (`AppendAfter`, `Heartbeat`, `ApplyView`, `CommitAndApply`, `ResendAll`, `Resend`).
- Handlers.RaftNode.ResendAll: requests to members that have no entry in `next_index_` do not arise; a request is returned to the caller, which stands for spawning the send.
- Frames.RpcProvider.ProduceInvokeTasks: a connection is given as all bytes that arrive before it closes, and what a handler returns as a list of results, so reading and writing are not interleaved here; module Sessions interleaves them.
- Frames.RpcProvider.ConsumeInvokeTasks: a write that fails is taken to leave nothing of its frame on the connection; `Frames.BrokenStream` says that part of one would not matter to the reader.
- Sessions.ReplySafety: one connection, without a restart of the node, after which no task and no connection is left; requests and replies are whole here. Module Frames has the bytes, and `Frames.StreamRoundTrip` is what the two have in common.
- Frames.RpcConsumer.Call: connecting, and closing the stream after a failed write.
- CommitRule.PickCommit: the library sort appears as an insertion sort, and the map's iteration order is arbitrary.
