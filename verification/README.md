# IceRaft consensus core: model and proofs

A Dafny model of the consensus core of IceRaft in three layers, each tied to the next.

1. **Storage.** `Storage.MemStorage` keeps the shifted entry vector, the optional snapshot and the hard state, and is
   updated in place. `View()` maps it to `LogSpec.Log`, a compacted base plus a sequence, and every method is proved
   against that log.
2. **One node.** `NodeSpec` gives every handler as a pure step on the value `Node`. `StateMachine.RaftStateMachine` and
   `NodeImpl.RaftNodeInner` are the classes of the implementation, with its loops and its order of assignments; the
   contract of each method equates its whole effect (new state, messages sent, entries applied, replies given) with
   the pure step.
3. **The cluster.** `Cluster` runs those steps over a set of nodes and a bag of messages. Every handler runs under one
   lock (iceraft-node/src/node.rs:161-183), so each is one atomic step: timeout, heartbeat, proposal, delivery of any
   message ever sent, crash with restart. Delivering a message does not remove it, so messages may be lost, duplicated,
   delayed and reordered.

`State.history` is what an outside observer has written down (votes cast, the log of each candidate when it began its
campaign, who led each term with which log and voters, how long a prefix each node confirmed). No handler reads it. The
same holds for `Node.boot` and for the term and data in `Pending` and `Reply.Granted`.

Membership is fixed and shared, node ids are positive, storage calls succeed, and the hard state is restored before any
message is handled. The cluster starts from empty logs without snapshots; the node never creates one
(iceraft-node/src/node.rs:251-253).

## Run hypotheses

The code needs two conditions on delivery for its strongest guarantees. Both are predicates on a state and a step, the
code itself is left as it is, and runs that break only one of them show that H1 is needed for votes
(`Witness.StaleVoteElectsTwoLeaders`), H1 for acknowledgements (`LateAck.LateAckUndoesCommit`) and H2
(`Witness.ShortBatchUndoesCommit`).

- **H1** (`Cluster.MeetsH1`): a reply from a term its receiver has left is not delivered. `handle_vote_response` and
  `handle_append_response` test only for a higher term.
- **H2** (`Cluster.MeetsH2`): an accepted non-empty append does not end short of the prefix on which the follower's log
  agrees with that leader's log. The storage trait promises to truncate "any conflicting suffix"
  (iceraft-storage/src/lib.rs:60-62); the code truncates at the first incoming index whether or not anything conflicts
  (iceraft-storage/src/mem.rs:121-127), although its comment speaks of conflicting entries. The model follows the code.

Durable terms and votes, log shape and "no reply channel is answered twice" need neither. Election safety, log matching
and leader append-only hold under H1 alone. State machine safety, leader completeness, the truth of match indexes and
the meaning of `Ok` need both. What a node itself could check in place of H1 and H2 is exact, too:
`NodeProperties.VoteMayBeCountedIff`, `AckMayBeCountedIff` and `AppendIsHarmlessIff`. References to sections are to the
Raft paper, "In Search of an Understandable Consensus Algorithm (Extended Version)".

## Map of the files

`Core`, `Log`, `NodeSpec` and `Cluster` are the model. `EveryRun` proves what no delivery can break. `Invariants` and
`Handlers` prove the H1 invariant step by step; `Safety`, `SafeSteps` and `SafetyProof` the H1-and-H2 invariant.
`Theorems` lifts both to whole runs, and `Proposals` says what the answer to a proposal means. `NodeProperties`,
`HandlerEffects` and `Rollback` hold what is true of single handlers and of one exchange, what they owe as well as
what they must not do; `Outcomes` lifts that to runs. `Storage`, `StateMachine` and `Node` are the classes. `Runs`
builds runs step by step; `Witness` and `LateAck` hold the counterexample runs.

The argument for leader completeness: a prefix is `Chosen` when a majority confirmed it in its leader's term, and
`Blocked` when some later leader's voters had not confirmed it. Since majorities meet, a chosen prefix is never
blocked. The invariant says that every leader, voter and voted-for log keeps each confirmed prefix that is not blocked,
and that is what each handler is shown to keep.

## Model

| member | source | states |
|---|---|---|
| Theorems.StateMachineSafety | iceraft-node/src/node.rs:749-801 | Section 5.4.3. In every run meeting H1 and H2, two nodes that have both committed index n, at any two moments, hold the same entries up to n, across elections, crashes and message loss |
| Theorems.CommittedInEveryLaterLeader | iceraft-node/src/node.rs:393-406 | Section 5.4. Under H1 and H2, whatever any node committed while in term t is in the log of every leader of a later term, whenever it led |
| Safety.LeaderCompleteness | iceraft-node/src/node.rs:762-779 | A prefix confirmed by a majority in its leader's term is in the log of every later leader on record |
| Theorems.LogMatching | iceraft-node/src/node.rs:327-352 | Section 5.3. Under H1 alone, two logs at any two moments that have the same term at an index are identical up to it |
| Theorems.ElectionSafety | iceraft-node/src/node.rs:673-695 | Section 5.2. Under H1, over a whole run with crashes, at most one node ever leads a term |
| Theorems.LeaderAppendOnly | iceraft-node/src/node.rs:481-490 | While a node leads a term its log only grows at the end, by entries of that term |
| EveryRun.LogShape | iceraft-node/src/node.rs:481-490 | In every run, H1 or not, each log is contiguous from 1 with nondecreasing terms within 1..currentTerm |
| Theorems.ProgressIsWithinLog | iceraft-node/src/node.rs:580 | Under H1 a leader's next indexes are in 1..lastIndex+1 and its match indexes within its log, so `next_index - 1` never underflows |
| Theorems.RequestsAreSegments | iceraft-node/src/node.rs:587-624 | Any append request still in flight is a segment of the log of the one node leading its term, with the right previous term |
| EveryRun.RequestsAreContiguous | iceraft-node/src/node.rs:587-624 | In every run, each append request in flight carries contiguous indexes from right after prevLogIndex and nondecreasing terms from prevLogTerm up to its own term, so storage stays contiguous |
| EveryRun.TermsAndVotesAreDurable | iceraft-node/src/node.rs:822-832 | In every run, with crashes and whatever replies are counted, the disk always encodes term, vote and commit; a node's term never falls and its vote within a term never changes |
| Outcomes.DeliveryTakesTerm | iceraft-node/src/node.rs:703-707 | In every run a delivery leaves its receiver in the newer of its own term and the message's, and on disk with it; if that term is new, the receiver is a follower without votes or progress, so a deposed leader steps down on whichever of the four messages brings the news |
| HandlerEffects.StaleSenderStepsDown | iceraft-node/src/node.rs:319-321 | Whoever sends a request of an older term gets one refusal that carries the receiver's term, and that refusal alone makes it a follower of that term |
| HandlerEffects.StrayReplyIsIgnored | iceraft-node/src/node.rs:679-710 | A denial, a vote for a node that is no candidate and an acknowledgement to one that is no leader change nothing, if of no newer term |
| HandlerEffects.StaleRequestIsRefused | iceraft-node/src/node.rs:384-386 | A request of an older term changes nothing and is answered by exactly one refusal with the node's own term |
| Theorems.RestartLosesNothing | iceraft-node/src/node.rs:195-207 | Restoring from disk gives back the term, vote, commit index and log a handler left behind: decoding undoes encoding, vote 0 included |
| Theorems.MatchIndexIsTrue | iceraft-node/src/node.rs:711-715 | Under H1 and H2 a follower's log agrees with the leader's up to its match index, then and at any later moment at which the follower is still in that term |
| Theorems.MatchIndexWasConfirmed | iceraft-node/src/node.rs:616 | A positive match index names a past moment at which the follower was in the leader's term and held that prefix |
| Theorems.CommitNeverFalls | iceraft-node/src/node.rs:355-358 | Under H1 and H2 a node's commit index never falls, crashes included, and its committed prefix never changes |
| Theorems.AppliedIsTheLog | iceraft-node/src/node.rs:803-818 | lastApplied <= commitIndex <= lastIndex, and the entries sent to the application are exactly log entries 1..lastApplied in order and once each when the node has not crashed (since its last start otherwise) |
| Theorems.CrashSkipsUnapplied | iceraft-node/src/node.rs:202-203 | A crash makes the next life apply from the commit index on: what the two lives send joins up to an unbroken stretch of the log if and only if everything committed had been applied, and otherwise the entries between are never sent |
| Outcomes.BeatAppliesCommitted | iceraft-node/src/node.rs:803-818 | Under H1 and H2, right after a leader's heartbeat everything it has committed has been applied: lastApplied = commitIndex and the stream since its start is the log up to there |
| Outcomes.WithoutBeatNothingIsApplied | iceraft-node/src/node.rs:278-285 | In every run a node that has had no heartbeat of its own, such as one that never led, has sent nothing to the application since its start, whatever it has committed |
| HandlerEffects.CrashForgets | iceraft-node/src/node.rs:195-207 | A crash keeps the log, the answers given and the disk, and forgets role, votes, progress, the leader's name and the waiting clients |
| Proposals.OkIsOwnIff | iceraft-node/src/node.rs:471-503 | For every `Ok(idx)` ever answered: whoever commits idx, then or later, holds the client's own entry there if and only if the answering node's entry at idx is of the term of the proposal; an answer given in the term of the proposal always meets that |
| Outcomes.OkIsForProposedData | iceraft-node/src/node.rs:484-499 | Every `Ok` goes to the channel of an earlier proposal; whoever commits the index it names holds the very data proposed there if and only if the answering node's entry is of the term in which it took that proposal |
| Outcomes.AnswerHasSource | iceraft-node/src/node.rs:481-499 | In every run an `Ok` stands for the data, term and index with which a leader took the proposal whose channel it answers |
| Outcomes.RefusalNamesLeader | iceraft-node/src/node.rs:472-478 | In every run a refusal answers a proposal made to a node that was not leader, and a leader it names did lead the term that node was in |
| Outcomes.HintedLeaderLed | iceraft-node/src/node.rs:323-325 | In every run the leader that a node knows of did lead the node's current term |
| Proposals.AnsweredIsCommitted | iceraft-node/src/node.rs:791-800 | Every index ever answered `Ok` is within the answering node's commit index, and stays so through crashes |
| Proposals.PendingIsOwnIff | iceraft-node/src/node.rs:497-499 | Before any answer and under H1 alone: in any node's log, then or later, an entry at a waiting proposal's index is the client's own if and only if it is of the term of the proposal; the proposing node holds it whenever it leads that term |
| Proposals.AnswerIsOwnWhileLeading | iceraft-node/src/node.rs:795-796 | Under H1 alone, a node that answered `Ok(idx)` and leads the term of the proposal holds the client's own entry at idx |
| Proposals.AnsweredOnce | iceraft-node/src/node.rs:791-800 | In every run whose proposals use distinct reply channels no channel is answered twice, by one node or by two, through crashes, re-elections and any loss or repetition of messages |
| Theorems.RunInv2 | iceraft-node/src/node.rs:300-818 | Both invariants hold in every state of every run meeting H1 and H2 |
| Handlers.NextPreservesInv1 | iceraft-node/src/node.rs:300-818 | Every step meeting H1 keeps the invariant behind election safety, log matching, log shape and durability, and only adds to the record |
| Handlers.SameWinner | iceraft-core/src/lib.rs:90-93 | Two quorums of votes in one term elect the same node |
| Handlers.SpliceFollowsLeader | iceraft-node/src/node.rs:327-352 | After an accepted append the follower's log is its leader's log up to the end of the batch, whatever was cut |
| SafetyProof.NextPreservesInv2 | iceraft-node/src/node.rs:300-818 | Every step meeting H1 and H2 keeps the invariant behind leader completeness and state machine safety |
| HandlerEffects.VoteGrantedIff | iceraft-node/src/node.rs:370-416 | A vote is granted if and only if the request is of no older term, the voter has not voted for another in that term and the candidate's last term and length are not smaller; the vote is on disk, and the answer carries the voter's term either way |
| HandlerEffects.OneWouldVote | iceraft-node/src/node.rs:401-402 | Of any two nodes one would vote for the other, so two logs never keep each other out; both would if and only if their logs end alike |
| HandlerEffects.RepeatedRequest | iceraft-node/src/node.rs:388-391 | A repeated request gets the same answer and changes nothing more |
| HandlerEffects.OneVotePerTerm | iceraft-node/src/node.rs:388-391 | After a granted request no request of that term for another candidate is granted |
| HandlerEffects.VoteDecidesIff | iceraft-node/src/node.rs:679-693 | A granted vote makes a candidate leader if and only if its voters are now a strict majority of the members; short of that nothing is sent |
| HandlerEffects.WinOffersAll | iceraft-node/src/node.rs:692 | A new leader at once offers its log's end to every peer |
| HandlerEffects.TimeoutWinsIff | iceraft-node/src/node.rs:550-557 | A timeout wins at once if and only if there are no peers; term and own vote are on disk either way |
| HandlerEffects.TimeoutAsksAll | iceraft-node/src/node.rs:526-548 | A timeout asks every peer for its vote with the true end of the log |
| HandlerEffects.SingleNodeCommits | iceraft-node/src/node.rs:278-285 | A cluster of one commits, answers and applies its whole log at its next heartbeat |
| SafeSteps.UpToDateKeepsConfirmed | iceraft-node/src/node.rs:393-406 | The up-to-date check passes on every prefix its voter confirmed: the candidate's log holds it too, unless a later leader's voters rule it out |
| SafeSteps.WinIsSafe | iceraft-node/src/node.rs:679-693 | A new leader holds every earlier leader's own prefix, unless none of its voters confirmed it |
| SafeSteps.ScanChooses | iceraft-node/src/node.rs:762-779 | What the scan counts as replicated by a quorum, in the current term, was confirmed by a majority |
| SafeSteps.AcceptKeepsAgreement | iceraft-storage/src/mem.rs:121-129 | Under H2 an accepted request loses nothing that the follower shares with the leader |
| NodeProperties.CommitScanIsOrderStatistic | iceraft-node/src/node.rs:753-782 | The downward scan yields the smaller of lastIndex and the (quorum-1)-th largest match index (lastIndex for quorum 1) if that is above the old commit index and of the current term, else the old commit index |
| NodeProperties.RankingExists | iceraft-node/src/node.rs:765-771 | The tracked peers can always be ranked by match index, each once, so the order statistic above is defined for every progress map |
| NodeProperties.CommitLoopsAgree | iceraft-node/src/state.rs:108-138 | The loop of `maybe_commit` gives the same answer as the scan of `maybe_advance_commit` whenever the term is positive |
| Outcomes.LeaderCommitsWhenDue | iceraft-node/src/node.rs:762-800 | In every run, after a heartbeat or an acknowledgement, a leader's commit index is that order statistic over what its peers then hold, if it is new and of its term, else the old one; that is on disk, every client up to there has its answer and every other one still waits |
| HandlerEffects.LeaderCommitsWhatIsDue | iceraft-node/src/node.rs:749-801 | The scan's result is what the leader commits and saves; it answers exactly the clients up to there, with nothing else sent |
| HandlerEffects.AckMovesProgress | iceraft-node/src/node.rs:711-723 | A success raises the sender's match index to the acknowledged one, a hint sets its next index, a rejection without one lowers it by one but never below 1, and nobody else's progress moves |
| LogSpec.FirstIndexOfTermIsLeast | iceraft-node/src/node.rs:835-847 | On a term-sorted log, compacted or not, the binary search from the first available index returns the least available index that holds the term found at its upper bound |
| NodeProperties.FollowersCommitVerified | iceraft-node/src/node.rs:354-359 | For a request built by a leader whose commit index is within its log, whatever follower handles it either keeps its commit index or ends at or below prevLogIndex plus the batch length |
| HandlerEffects.AcceptedCommit | iceraft-node/src/node.rs:354-359 | An accepted request takes the follower's commit index to the leader's, or to the end of its log if that is nearer, on disk; one whose commit index is not ahead leaves it alone |
| HandlerEffects.RefusalPointsBack | iceraft-node/src/node.rs:327-342 | A request of no older term is refused if and only if its previous entry is missing or of another term; the refusal names that index, or the first index of the term found there and that term, and changes no entry |
| HandlerEffects.AppendNamesLeader | iceraft-node/src/node.rs:323-325 | A request of no older term tells the follower who leads, accepted or not |
| NodeProperties.AcceptKeepsAgreementIff | iceraft-storage/src/mem.rs:122-127 | H2 is exact: an accepted request keeps everything shared with the leader if and only if it does not end short of it |
| NodeProperties.AppendIsHarmlessIff | iceraft-storage/src/mem.rs:122-127 | What a follower can tell: for every leader log that fits an accepted request, all they share survives if and only if the batch is not already in the follower's log with more behind it |
| NodeProperties.LostEntriesAreForeign | iceraft-storage/src/mem.rs:121-129 | Under H2 every entry an append cuts off is one the leader does not have |
| NodeProperties.VoteMayBeCountedIff | iceraft-node/src/node.rs:679-680 | What a candidate can tell: on every record that fits its state, counting a granted reply leaves only real votes of its term if and only if the reply is of that term, its sender is counted already, or its sender is the candidate |
| NodeProperties.AckMayBeCountedIff | iceraft-node/src/node.rs:711-715 | What a leader can tell: on every record that fits its state, counting a success leaves a match index confirmed in its term if and only if the reply is of that term or reaches no further than the match index it has |
| NodeProperties.PendingSplitIsExact | iceraft-node/src/node.rs:791-800 | Splitting `pending` at a commit index loses, repeats and reorders nothing; what stays is above it and each settled proposal gets exactly one reply, in order |
| Rollback.FastRollbackConverges | iceraft-node/src/node.rs:574-637 | From a fresh leader, on matching logs: rejections are at most the length gap plus the number of distinct terms in the follower's log, and the exchange ends with the leader's log a prefix of the follower's and matchIndex = lastIndex |
| Rollback.ExchangeConverges | iceraft-node/src/node.rs:697-725 | From any quiet state the exchange ends caught up, within as many rounds as rejections left plus entries left, and then stays so |
| Rollback.ExchangeCommits | iceraft-node/src/node.rs:749-784 | From any quiet state of a cluster of two or three whose leader's log ends in its own term, enough rounds make the leader commit its whole log and one more makes the follower commit it, on disk |
| Rollback.CaughtUpFollowerCommits | iceraft-node/src/node.rs:354-359 | Once caught up, one more round takes the follower to the leader's commit index, if it is not beyond it, on disk |
| Rollback.RoundRejected | iceraft-node/src/node.rs:717-721 | A rejection strictly lowers nextIndex (never below 1), leaves matchIndex alone and strictly lowers the number of rejections left |
| Rollback.RoundAccepted | iceraft-node/src/node.rs:712-715 | An accepted round strictly raises matchIndex or leaves the follower complete |
| Rollback.ProbeIsSegment | iceraft-storage/src/mem.rs:96-107 | Every capped batch is a segment of the leader's log and holds at least one entry when there is one to send |
| HandlerEffects.BeatOffersAll | iceraft-node/src/node.rs:562-624 | A heartbeat sends every peer its due and nothing else: the log from its next index on, the longest piece within 4096 bytes per allowed entry but at least one entry if there is any, with the true previous term and the commit index |
| HandlerEffects.ProposalOffersAll | iceraft-node/src/node.rs:501-502 | A proposal is offered to every peer at once, in the same sense |
| HandlerEffects.ProposalIsTaken | iceraft-node/src/node.rs:471-499 | A leader puts exactly the client's data at its new last index, in its own term, and remembers the client if it waits; anyone else answers with the leader it knows of and changes nothing |
| LogSpec.CappedReadIsMaximal | iceraft-storage/src/mem.rs:88-110 | A capped read is the longest prefix of the range within the byte cap, but at least one entry of a non-empty range |
| LogSpec.AppendMeetsContractIff | iceraft-storage/src/mem.rs:113-131 | On matching logs the append equals "find the first conflict, truncate there, append the rest" exactly unless the old log agrees on the whole overlap and runs past the batch |
| LogSpec.AppendAnswers | iceraft-storage/src/mem.rs:113-131 | After an append: the old answers below the batch, the batch's own in its range and back in one read, nothing beyond it |
| LogSpec.OutOfRangeBatch | iceraft-storage/src/mem.rs:122-129 | A batch that starts out of range truncates nothing, ends up behind everything else and breaks contiguity |
| LogSpec.TermClassifies | iceraft-storage/src/mem.rs:40-68 | `term` tells zero, compacted, boundary, present and unavailable indexes apart, each exactly |
| LogSpec.ReadClassifies | iceraft-storage/src/mem.rs:79-110 | A read is compacted, out of reach, or returns the entries asked for, in order, cut short only by the cap and then to the longest affordable piece; each case exactly |
| LogSpec.CompactionPreservesAnswers | iceraft-storage/src/mem.rs:198-213 | A snapshot no older than the current one keeps contiguity and every `term` answer above it, and changes a read above it exactly when that read is an empty range ending between the old log end and a snapshot beyond it |
| LogSpec.CompactionCovers | iceraft-storage/src/mem.rs:198-213 | At and below the snapshot only its own index still has a term, every read is compacted, and the last index never falls |
| Storage.MemStorage.FirstIndex | iceraft-storage/src/mem.rs:23-28 | The index after the base of the abstract log |
| Storage.MemStorage.LastIndex | iceraft-storage/src/mem.rs:30-38 | The last index of the abstract log, although it is read off the last entry or the snapshot |
| Storage.MemStorage.TermAt | iceraft-storage/src/mem.rs:40-68 | Answers as the abstract log does, errors included |
| Storage.MemStorage.Entries | iceraft-storage/src/mem.rs:70-111 | The accumulating loop returns the capped prefix of the abstract log, errors included |
| Storage.MemStorage.AppendEntries | iceraft-storage/src/mem.rs:113-131 | Refines truncate-and-extend for every batch, gaps and out-of-range starts included; the log stays contiguous exactly when the batch is contiguous, starts in range and leaves no gap |
| Storage.MemStorage.ApplySnapshot | iceraft-storage/src/mem.rs:198-213 | Refines compaction; the log stays contiguous exactly when the snapshot is not older than the current one or no entries are held |
| StateMachine.RaftStateMachine.BecomeLeader | iceraft-node/src/state.rs:96-104 | The filling loop gives every peer, and nobody else, fresh progress after the last index |
| StateMachine.RaftStateMachine.MaybeCommit | iceraft-node/src/state.rs:108-138 | Commits the largest new index of the term that a quorum holds, if there is one, and nothing otherwise |
| NodeImpl.RaftNodeInner.constructor | iceraft-node/src/node.rs:195-207 | A node started on a disk is the restored node, and starting leaves the disk alone |
| NodeImpl.RaftNodeInner.SaveHardState | iceraft-node/src/node.rs:822-832 | After it the disk encodes the term, vote and commit index in memory, and nothing else has changed |
| NodeImpl.RaftNodeInner.FirstIndexOfTerm | iceraft-node/src/node.rs:835-847 | The loop over storage, compacted or not, finds what `LogSpec.FirstIndexOfTermIsLeast` speaks of |
| NodeImpl.RaftNodeInner.OnAppendEntries | iceraft-node/src/node.rs:302-368 | The whole new state and the answer are those of the pure step `NodeSpec.OnAppendEntries`, on which log matching and state machine safety are proved: stale terms refused, missing or conflicting previous entries answered with their hint, accepted entries spliced in, commit bounded by the last index and persisted. This for any batch, contiguous or not; the log stays contiguous exactly when the request is rejected or its batch is contiguous and leaves no gap |
| NodeImpl.RaftNodeInner.OnRequestVote | iceraft-node/src/node.rs:370-416 | The whole new state and the answer are those of the pure step, on which election safety is proved: at most one candidate per term, only up-to-date logs, vote on disk before the answer |
| NodeImpl.RaftNodeInner.OnProposal | iceraft-node/src/node.rs:471-503 | A leader appends exactly one entry of its own term after its last, remembers the reply channel under that index and offers it to every peer; anyone else only answers `NotLeader` |
| NodeImpl.RaftNodeInner.StartElection | iceraft-node/src/node.rs:507-558 | The new term and own vote are on disk, every peer is asked with the true last index and term, and a single-node cluster wins at once and replicates |
| NodeImpl.RaftNodeInner.ReplicateAll | iceraft-node/src/node.rs:563-572 | On a leader every peer is sent, in order, its segment of the log; on anyone else nothing is sent |
| NodeImpl.RaftNodeInner.ReplicateTo | iceraft-node/src/node.rs:574-637 | The request built from storage reads is the segment from the peer's next index on, under the byte cap, with the true previous term; no state changes |
| NodeImpl.RaftNodeInner.HandleVoteResponse | iceraft-node/src/node.rs:673-695 | A newer term makes the node a persisted follower; a granted vote counts only on a candidate, and exactly the vote that completes a quorum makes it leader and starts replication |
| NodeImpl.RaftNodeInner.HandleAppendResponse | iceraft-node/src/node.rs:697-725 | On a leader a success raises the sender's match index and a rejection moves its next index to the hint (without one, one down but never below 1), then the commit scan runs; a newer term makes the node a persisted follower; nothing else changes |
| NodeImpl.RaftNodeInner.MaybeAdvanceCommit | iceraft-node/src/node.rs:749-801 | The downward loop and the split of `pending` refine the pure scan and split |
| NodeImpl.RaftNodeInner.ApplyCommitted | iceraft-node/src/node.rs:803-818 | The apply loop sends the committed entries not yet applied, in order |
| NodeImpl.RaftNodeInner.Heartbeat | iceraft-node/src/node.rs:278-285 | Replication, commit scan and apply compose to the pure step on which apply order is proved |
| Core.QuorumIsLeastMajority | iceraft-core/src/lib.rs:84-93 | `quorum` is the least size that is a strict majority of `members` |
| Core.QuorumsMeet | iceraft-core/src/lib.rs:84-93 | Any two sets of members of quorum size share a member |
| Witness.StaleVoteElectsTwoLeaders | iceraft-node/src/node.rs:673-680 | A run of three nodes that breaks only H1 and ends with two leaders of one term |
| LateAck.LateAckUndoesCommit | iceraft-node/src/node.rs:711-715 | A run of five nodes that meets H2, and H1 but for an acknowledgement, and ends with different entries committed at index 2 |
| Witness.ShortBatchUndoesCommit | iceraft-storage/src/mem.rs:122-127 | A run of three nodes that breaks only H2 and ends with different entries committed at index 2 |
| Witness.OkForLostProposal | iceraft-node/src/state.rs:76-83 | A run meeting H1 and H2 in which a node that stepped down and was elected again answers `Ok` for a proposal that was overwritten |

## Left out

- ExchangeConverges: the exchange is quiet (one leader, one follower, no stale replies, no new proposals or elections)
  and its match index is 0 or was confirmed by the previous answer; liveness of a whole cluster depends on timers.
- Storage.MemStorage.AppendEntries: a batch that starts before the first available index makes the subtraction at
  iceraft-storage/src/mem.rs:123 underflow. The contract says what the wrapped offset leads to; a build with overflow
  checks panics instead, which is not modelled.
- InstallSnapshot in the node and the cluster (`on_install_snapshot`, `send_snapshot_to`,
  `handle_snapshot_response`): nodes never create snapshots, so only storage compacts here.
- A crash in the middle of a handler, between two storage writes: a crash here falls between handlers.
- Timers, election jitter and deadlines: a timeout is always possible on a node that is not leader, a heartbeat always
  on a leader.
- The gRPC client and server, tokio tasks and channels, tracing and metrics: only message shapes and asynchronous
  delivery remain. A `oneshot` reply channel is a number, and what is sent on it is recorded.
- `ReadIndex`, `TransferLeader`, `TriggerSnapshot`, `pre_vote` and configuration-change entries: stubs or without effect
  on the protocol.
- `RocksDbStorage`, `RaftClusterClient`, `NoopTransport`, the examples, configuration validation and the protobuf entry
  conversions.
- 64-bit overflow of terms, indexes and the read limit, and failing storage calls (logged and ignored by the code).
- Sharing of a storage handle between nodes: each node owns its storage.
