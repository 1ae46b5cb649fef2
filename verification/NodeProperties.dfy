/** What single handlers guarantee, independently of the rest of the cluster. */
module NodeProperties {
  import opened Core
  import opened LogSpec
  import opened NodeSpec
  import opened Cluster
  import opened Invariants
  import opened Handlers

  // ----- the commit scan

  /** `ids` lists the tracked peers once each, best match first. */
  ghost predicate Ranking(progress: map<NodeId, Progress>, ids: seq<NodeId>) {
    && NoDuplicates(ids)
    && (set p | p in ids) == progress.Keys
    && forall j, k | 0 <= j < k < |ids| :: progress[ids[j]].matchIndex >= progress[ids[k]].matchIndex
  }

  lemma {:induction false} BestOf(progress: map<NodeId, Progress>, ids: set<NodeId>) returns (best: NodeId)
    requires ids != {} && ids <= progress.Keys
    ensures best in ids && forall p | p in ids :: progress[best].matchIndex >= progress[p].matchIndex
  {
    var some :| some in ids;
    if ids == {some} {
      best := some;
    } else {
      assert ids - {some} != {};
      best := BestOf(progress, ids - {some});
      assert forall p | p in ids :: p == some || p in ids - {some};
      if progress[some].matchIndex > progress[best].matchIndex {
        best := some;
      }
    }
  }

  lemma {:induction false} RankedFrom(progress: map<NodeId, Progress>, ids: set<NodeId>) returns (ranked: seq<NodeId>)
    requires ids <= progress.Keys
    ensures NoDuplicates(ranked) && |ranked| == |ids| && (forall p :: p in ranked <==> p in ids)
    ensures forall j, k | 0 <= j < k < |ranked| :: progress[ranked[j]].matchIndex >= progress[ranked[k]].matchIndex
  {
    if ids == {} {
      ranked := [];
    } else {
      var best := BestOf(progress, ids);
      var rest := RankedFrom(progress, ids - {best});
      ranked := [best] + rest;
      assert forall p | p in rest :: p in ids - {best};
      assert forall k | 0 < k < |ranked| :: ranked[k] == rest[k - 1] && rest[k - 1] in rest;
    }
  }

  /** The tracked peers can always be ranked, so there is always a quorum match to speak of. */
  lemma RankingExists(progress: map<NodeId, Progress>) returns (ids: seq<NodeId>)
    ensures Ranking(progress, ids) && |ids| == |progress|
  {
    ids := RankedFrom(progress, progress.Keys);
    assert |progress.Keys| == |progress|;
  }

  lemma TopRanksReplicated(progress: map<NodeId, Progress>, ids: seq<NodeId>, n: LogIndex, k: nat)
    requires Ranking(progress, ids) && 1 <= k <= |ids| && ids[k - 1] in progress
    requires progress[ids[k - 1]].matchIndex >= n
    ensures |Replicated(progress, n)| >= k
  {
    var top := ids[..k];
    SetOfDistinct(top);
    forall p | p in top ensures p in Replicated(progress, n) {
      var j :| 0 <= j < k && ids[j] == p;
      assert p in (set q | q in ids);
      assert j < k - 1 ==> progress[ids[j]].matchIndex >= progress[ids[k - 1]].matchIndex;
    }
    SubsetCardinality((set p | p in top), Replicated(progress, n));
  }

  lemma OnlyTopRanksReplicated(progress: map<NodeId, Progress>, ids: seq<NodeId>, n: LogIndex, k: nat)
    requires Ranking(progress, ids) && 1 <= k <= |ids| && ids[k - 1] in progress
    requires progress[ids[k - 1]].matchIndex < n
    ensures |Replicated(progress, n)| < k
  {
    var ahead := ids[..k - 1];
    SetOfDistinct(ahead);
    forall p | p in Replicated(progress, n) ensures p in ahead {
      assert p in (set q | q in ids);
      var j :| 0 <= j < |ids| && ids[j] == p;
      assert j < k - 1;
      assert ahead[j] == p;
    }
    SubsetCardinality(Replicated(progress, n), (set p | p in ahead));
  }

  lemma RankDecidesCount(progress: map<NodeId, Progress>, ids: seq<NodeId>, n: LogIndex, k: nat)
    requires Ranking(progress, ids) && 1 <= k <= |ids|
    ensures ids[k - 1] in progress
    ensures |Replicated(progress, n)| >= k <==> progress[ids[k - 1]].matchIndex >= n
  {
    assert ids[k - 1] in (set p | p in ids);
    hide Replicated;
    if progress[ids[k - 1]].matchIndex >= n {
      TopRanksReplicated(progress, ids, n, k);
    } else {
      OnlyTopRanksReplicated(progress, ids, n, k);
    }
  }

  /** The last index held by a quorum that includes the leader. */
  ghost function QuorumMatch(progress: map<NodeId, Progress>, ids: seq<NodeId>, quorum: nat, last: LogIndex): LogIndex
    requires Ranking(progress, ids) && 1 <= quorum <= |ids| + 1
  {
    if quorum == 1 then last
    else
      assert ids[quorum - 2] in (set p | p in ids);
      Min(last, progress[ids[quorum - 2]].matchIndex)
  }

  function Min(a: nat, b: nat): nat { if a <= b then a else b }

  lemma {:induction false} ScanFindsQuorumMatch(log: seq<LogEntry>, term: Term, progress: map<NodeId, Progress>,
                                                quorum: nat, commit: LogIndex, ids: seq<NodeId>, n: LogIndex)
    requires Shaped(log, term) && Ranking(progress, ids) && 1 <= quorum <= |ids| + 1 && n <= |log|
    ensures var m := Min(n, QuorumMatch(progress, ids, quorum, |log|));
            CommitScan(log, term, progress, quorum, commit, n)
            == if m > commit && TermOf(log, m) == term then m else commit
  {
    if n > commit {
      if quorum > 1 {
        RankDecidesCount(progress, ids, n, quorum - 1);
      }
      ScanFindsQuorumMatch(log, term, progress, quorum, commit, ids, n - 1);
    }
  }

  /** The downward scan computes an order statistic: the leader's last index or the (quorum-1)-th largest match
      index, whichever is smaller, if that is new and of the current term. */
  lemma CommitScanIsOrderStatistic(log: seq<LogEntry>, term: Term, progress: map<NodeId, Progress>, quorum: nat,
                                   commit: LogIndex, ids: seq<NodeId>)
    requires Shaped(log, term) && Ranking(progress, ids) && 1 <= quorum <= |ids| + 1
    ensures var m := QuorumMatch(progress, ids, quorum, |log|);
            CommitScan(log, term, progress, quorum, commit, |log|)
            == if m > commit && TermOf(log, m) == term then m else commit
  {
    ScanFindsQuorumMatch(log, term, progress, quorum, commit, ids, |log|);
  }

  /** Both commit loops agree, for any log view, once the current term is positive. */
  lemma {:induction false} CommitLoopsAgree(log: seq<LogEntry>, term: Term, progress: map<NodeId, Progress>, quorum: nat,
                                            commit: LogIndex, n: LogIndex, termOf: LogIndex -> Option<Term>)
    requires term >= 1
    requires forall i: LogIndex :: termOf(i) == if i <= |log| then Some(TermOf(log, i)) else None
    ensures var r := CommitScan(log, term, progress, quorum, commit, n);
            ScanWith(progress, quorum, commit, n, term, termOf) == if r > commit then Some(r) else None
  {
    if n > commit {
      CommitLoopsAgree(log, term, progress, quorum, commit, n - 1, termOf);
    }
  }

  // ----- append entries

  lemma AcceptCommitsVerified(n: Node, req: AppendEntriesRequest)
    requires req.prevLogIndex <= |n.log|
    requires if req.entries == [] then req.leaderCommit <= req.prevLogIndex
             else ContiguousFrom(req.entries, req.prevLogIndex + 1)
    ensures var commit := Accept(n, req).sm.commitIndex;
            commit == n.sm.commitIndex || commit <= req.LastIndex()
  {
  }

  lemma AcceptedReaches(n: Node, req: AppendEntriesRequest)
    requires Accepts(n, req)
    ensures req.prevLogIndex <= |n.log|
  {
  }

  lemma OfferIsContiguous(cfg: RaftConfig, n: Node, next: NextIndex)
    requires forall k | 0 <= k < |n.log| :: n.log[k].index == k + 1
    ensures var req := BuildAppend(cfg, n, next);
            && req.leaderCommit == n.sm.commitIndex && req.prevLogIndex == next - 1
            && ContiguousFrom(req.entries, next)
            && (req.entries == [] ==> |n.log| < next)
  {
    if |n.log| >= next {
      CappedReadIsMaximal(n.log[next - 1..], ReadLimit(cfg));
    }
    hide TakeCapped;
  }

  /** Followers commit only entries the request verified, although the code bounds the commit index by their own
      last index. */
  lemma FollowersCommitVerified(leaderCfg: RaftConfig, leader: Node, peer: NodeId, cfg: RaftConfig, follower: Node)
    requires leader.sm.commitIndex <= |leader.log|
    requires forall k | 0 <= k < |leader.log| :: leader.log[k].index == k + 1
    requires peer in leader.sm.progress
    ensures var req := ReplicateTo(leaderCfg, leader, peer)[0].appendReq;
            var n' := Handle(cfg, follower, AppendReq(cfg.id, req)).node;
            n'.sm.commitIndex == follower.sm.commitIndex || n'.sm.commitIndex <= req.prevLogIndex + |req.entries|
  {
    var req := BuildAppend(leaderCfg, leader, leader.sm.progress[peer].nextIndex);
    assert ReplicateTo(leaderCfg, leader, peer)[0].appendReq == req;
    OfferIsContiguous(leaderCfg, leader, leader.sm.progress[peer].nextIndex);
    hide BuildAppend, OnAppendEntries, Handle, Accept, Accepts, ReplicateTo;
    var n2 := Adopt(follower, req.term, Some(req.leaderId));
    n2 := n2.(sm := n2.sm.(leaderId := Some(req.leaderId)));
    AppendOutcome(cfg, follower, req);
    if Accepts(n2, req) {
      assert req.prevLogIndex <= |n2.log| by {
        AcceptedReaches(n2, req);
      }
      AcceptCommitsVerified(n2, req);
    }
  }

  /** Two logs with the same term at an index are identical up to it. */
  ghost predicate LogsMatch(a: seq<LogEntry>, b: seq<LogEntry>) {
    forall k | 0 <= k < |a| && k < |b| && a[k].term == b[k].term :: Agree(a, b, k + 1)
  }

  ghost predicate IsSegment(req: AppendEntriesRequest, leaderLog: seq<LogEntry>) {
    && req.LastIndex() <= |leaderLog|
    && (forall j | 0 <= j < |req.entries| :: req.entries[j] == leaderLog[req.prevLogIndex + j])
    && (forall k | 0 <= k < |leaderLog| :: leaderLog[k].index == k + 1)
  }

  /** H2 is exact: an accepted request keeps everything the follower shares with the leader if and only if it does
      not end short of it. */
  lemma AcceptKeepsAgreementIff(n: Node, req: AppendEntriesRequest, leaderLog: seq<LogEntry>)
    requires Accepts(n, req) && IsSegment(req, leaderLog) && Agree(n.log, leaderLog, req.prevLogIndex)
    ensures (forall k: nat :: Agree(n.log, leaderLog, k) ==> Agree(Splice(n.log, req.entries), leaderLog, k))
            <==> KeepsAgreement(n, req, leaderLog)
  {
    var log, last := Splice(n.log, req.entries), req.LastIndex();
    hide Accepts, Splice;
    SpliceNothing(n.log);
    SpliceExtendsPrefix(n.log, leaderLog, req.prevLogIndex, req.entries);
    if KeepsAgreement(n, req, leaderLog) {
      forall k: nat | Agree(n.log, leaderLog, k) ensures Agree(log, leaderLog, k) {
        if req.entries != [] && k > last {
          assert false;
        }
      }
    } else {
      assert Agree(n.log, leaderLog, last + 1);
    }
  }

  /** Under H2, whatever an accepted batch cuts off is not in the leader's log. */
  lemma LostEntriesAreForeign(n: Node, req: AppendEntriesRequest, leaderLog: seq<LogEntry>, k: nat)
    requires Accepts(n, req) && IsSegment(req, leaderLog) && LogsMatch(n.log, leaderLog)
    requires req.entries != [] && KeepsAgreement(n, req, leaderLog)
    requires req.LastIndex() <= k < |n.log|
    ensures k >= |leaderLog| || n.log[k].term != leaderLog[k].term
  {
    if k < |leaderLog| && n.log[k].term == leaderLog[k].term {
      assert false;
    }
  }

  lemma MatchesItself(log: seq<LogEntry>)
    ensures LogsMatch(log, log) && forall k | 0 <= k <= |log| :: Agree(log, log, k)
  {
    forall k: nat | k <= |log| ensures Agree(log, log, k) {
    }
    forall k | 0 <= k < |log| && log[k].term == log[k].term ensures Agree(log, log, k + 1) {
    }
  }

  /** A batch that ends short of what is shared is already there. */
  lemma BatchIsThere(log: seq<LogEntry>, req: AppendEntriesRequest, l: seq<LogEntry>, k: nat)
    requires IsSegment(req, l) && Agree(log, l, k) && k > req.LastIndex()
    ensures req.LastIndex() < |log| && log[req.prevLogIndex..req.LastIndex()] == req.entries
  {
  }

  /** Whether an append can lose anything, as far as the follower can tell: whatever the leader's log may be, an
      accepted request keeps all they share if and only if its batch is not already in the follower's log, with more
      behind it. */
  lemma AppendIsHarmlessIff(n: Node, req: AppendEntriesRequest)
    requires Accepts(n, req) && ContiguousFrom(n.log, 1) && ContiguousFrom(req.entries, req.prevLogIndex + 1)
    ensures (forall l: seq<LogEntry> | MayLead(n, req, l) :: KeepsSharedPrefix(n, req, l)) <==>
            !(req.entries != [] && req.LastIndex() < |n.log|
              && n.log[req.prevLogIndex..req.LastIndex()] == req.entries)
  {
    if req.entries != [] && req.LastIndex() < |n.log| && n.log[req.prevLogIndex..req.LastIndex()] == req.entries {
      RepeatedBatchLoses(n, req);
    } else {
      forall l: seq<LogEntry> | MayLead(n, req, l) ensures KeepsSharedPrefix(n, req, l) {
        OtherBatchesKeep(n, req, l);
      }
    }
  }

  lemma RepeatedBatchLoses(n: Node, req: AppendEntriesRequest)
    requires ContiguousFrom(n.log, 1) && ContiguousFrom(req.entries, req.prevLogIndex + 1)
    requires req.entries != [] && req.LastIndex() < |n.log|
    requires n.log[req.prevLogIndex..req.LastIndex()] == req.entries
    ensures MayLead(n, req, n.log) && !KeepsSharedPrefix(n, req, n.log)
  {
    forall j | 0 <= j < |req.entries| ensures req.entries[j] == n.log[req.prevLogIndex + j] {
      assert n.log[req.prevLogIndex..req.LastIndex()][j] == n.log[req.prevLogIndex + j];
    }
    assert IsSegment(req, n.log);
    MatchesItself(n.log);
    SpliceAt(n.log, req.entries, req.prevLogIndex);
    hide LogsMatch, IsSegment, Splice;
    assert Agree(n.log, n.log, |n.log|);
    assert !Agree(Splice(n.log, req.entries), n.log, |n.log|);
  }

  lemma OtherBatchesKeep(n: Node, req: AppendEntriesRequest, l: seq<LogEntry>)
    requires MayLead(n, req, l)
    requires req.entries == [] || req.LastIndex() >= |n.log|
             || n.log[req.prevLogIndex..req.LastIndex()] != req.entries
    ensures KeepsSharedPrefix(n, req, l)
  {
    hide Splice, LogsMatch;
    SpliceNothing(n.log);
    SpliceExtendsPrefix(n.log, l, req.prevLogIndex, req.entries);
    forall k: nat | Agree(n.log, l, k) ensures Agree(Splice(n.log, req.entries), l, k) {
      if k > req.LastIndex() {
        BatchIsThere(n.log, req, l, k);
      }
    }
  }

  /** `l` could be the log of the leader that sent `req`, for all the follower knows. */
  ghost predicate MayLead(n: Node, req: AppendEntriesRequest, l: seq<LogEntry>) {
    IsSegment(req, l) && LogsMatch(n.log, l) && Agree(n.log, l, req.prevLogIndex)
  }

  ghost predicate KeepsSharedPrefix(n: Node, req: AppendEntriesRequest, l: seq<LogEntry>) {
    forall k: nat :: Agree(n.log, l, k) ==> Agree(Splice(n.log, req.entries), l, k)
  }

  // ----- counting votes and acknowledgements

  /** `h` could be the record, for all a node in state `n` that got a granted reply of term `term` knows. */
  ghost predicate MayHaveVoted(c: Topology, h: History, i: NodeId, n: Node, src: NodeId, term: Term)
    requires i in c
  {
    NodeOK(c, h, i, n) && VotedFor(h, term, src, i)
  }

  ghost predicate VotesAreReal(h: History, i: NodeId, n: Node) {
    forall v | v in n.sm.votesReceived :: VotedFor(h, n.sm.currentTerm, v, i)
  }

  lemma VoteIsCounted(cfg: RaftConfig, n: Node, src: NodeId, resp: RequestVoteResponse)
    requires n.sm.role == Candidate && resp.voteGranted && resp.term <= n.sm.currentTerm
    ensures var n' := HandleVoteResponse(cfg, n, src, resp).0;
            n'.sm.currentTerm == n.sm.currentTerm && n'.sm.votesReceived == n.sm.votesReceived + {src}
  {
    hide ReplicateAll;
  }

  /** A record without the vote of `src` looks the same to a candidate that has not counted it. */
  lemma VoteIsUnknown(c: Topology, h: History, i: NodeId, n: Node, src: NodeId)
    requires i in c && NodeOK(c, h, i, n) && n.sm.role == Candidate && src != i && src !in n.sm.votesReceived
    ensures NodeOK(c, h.(votes := h.votes - {Slot(n.sm.currentTerm, src)}), i, n)
  {
    var h' := h.(votes := h.votes - {Slot(n.sm.currentTerm, src)});
    NodeParts(c, h, i, n);
    hide NodeOK, Shaped;
    forall k | 0 <= k < |n.log| ensures FromReign(h', n.log, k) {
      assert FromReign(h, n.log, k);
    }
    assert RoleOK(c, h', i, n);
    assert Recorded(h', i, n) && Past(h', i, n);
    assert ClientsOK(h', i, n) by {
      forall index, t, data | ProposedAt(h, i, index, t, data) ensures ProposedAt(h', i, index, t, data) {
      }
    }
    hide Recorded, Past, RoleOK, ClientsOK, FromReign, Persisted;
    IsNodeOK(c, h', i, n);
  }

  lemma IsNodeOK(c: Topology, h: History, i: NodeId, n: Node)
    requires i in c && Recorded(h, i, n) && Past(h, i, n) && RoleOK(c, h, i, n) && ClientsOK(h, i, n)
    requires Persisted(n) && Shaped(n.log, n.sm.currentTerm) && Sourced(h, n.log)
    ensures NodeOK(c, h, i, n)
  {
  }

  /** When a granted reply may be counted, as far as the candidate can tell: whatever the record, all its votes are
      then real if and only if the reply is of the current term, as H1 demands, or adds no voter. */
  lemma VoteMayBeCountedIff(c: Topology, h: History, i: NodeId, n: Node, src: NodeId, resp: RequestVoteResponse)
    requires i in c && MayHaveVoted(c, h, i, n, src, resp.term) && n.sm.role == Candidate
    requires resp.voteGranted && resp.term <= n.sm.currentTerm
    ensures (forall h' | MayHaveVoted(c, h', i, n, src, resp.term) ::
               VotesAreReal(h', i, HandleVoteResponse(c[i], n, src, resp).0))
            <==> (resp.term == n.sm.currentTerm || src in n.sm.votesReceived || src == i)
  {
    hide HandleVoteResponse;
    VoteIsCounted(c[i], n, src, resp);
    if resp.term == n.sm.currentTerm || src in n.sm.votesReceived || src == i {
      forall h' | MayHaveVoted(c, h', i, n, src, resp.term)
        ensures VotesAreReal(h', i, HandleVoteResponse(c[i], n, src, resp).0)
      {
        NodeParts(c, h', i, n);
        hide NodeOK, Past, Sourced, Shaped, ClientsOK;
      }
    } else {
      var h' := h.(votes := h.votes - {Slot(n.sm.currentTerm, src)});
      VoteIsUnknown(c, h, i, n, src);
      hide NodeOK;
      assert MayHaveVoted(c, h', i, n, src, resp.term);
      assert !VotesAreReal(h', i, HandleVoteResponse(c[i], n, src, resp).0);
    }
  }

  /** `h` could be the record, for all a leader in state `n` that got a success of term `term` up to `reqLast` knows. */
  ghost predicate MayHaveConfirmed(c: Topology, h: History, i: NodeId, n: Node, src: NodeId, term: Term, reqLast: LogIndex)
    requires i in c
  {
    NodeOK(c, h, i, n) && reqLast <= AckOf(h, term, src)
  }

  ghost predicate MatchIsBacked(h: History, n: Node, src: NodeId) {
    src in n.sm.progress && n.sm.progress[src].matchIndex <= AckOf(h, n.sm.currentTerm, src)
  }

  lemma AckIsCounted(cfg: RaftConfig, n: Node, src: NodeId, reqLast: LogIndex, resp: AppendEntriesResponse)
    requires n.sm.role == Leader && src in n.sm.progress && resp.success && resp.term <= n.sm.currentTerm
    ensures var n' := HandleAppendResponse(cfg, n, src, reqLast, resp); var m := n.sm.progress[src].matchIndex;
            && n'.sm.currentTerm == n.sm.currentTerm && src in n'.sm.progress
            && n'.sm.progress[src].matchIndex == if m >= reqLast then m else reqLast
  {
    MaybeAdvanceFacts(cfg,
      n.(sm := n.sm.(progress := n.sm.progress[src := UpdateProgress(n.sm.progress[src], reqLast, resp)])));
    hide MaybeAdvanceCommit;
  }

  /** A record in which `src` has confirmed no more than the leader knows looks the same to the leader. */
  lemma AckIsUnknown(c: Topology, h: History, i: NodeId, n: Node, src: NodeId)
    requires i in c && NodeOK(c, h, i, n) && n.sm.role == Leader && src != i && src in n.sm.progress
    ensures NodeOK(c, h.(acks := h.acks[Slot(n.sm.currentTerm, src) := n.sm.progress[src].matchIndex]), i, n)
  {
    var h' := h.(acks := h.acks[Slot(n.sm.currentTerm, src) := n.sm.progress[src].matchIndex]);
    NodeParts(c, h, i, n);
    hide NodeOK, Shaped;
    forall k | 0 <= k < |n.log| ensures FromReign(h', n.log, k) {
      assert FromReign(h, n.log, k);
    }
    assert RoleOK(c, h', i, n);
    assert Recorded(h', i, n) && Past(h', i, n);
    assert ClientsOK(h', i, n) by {
      forall index, t, data | ProposedAt(h, i, index, t, data) ensures ProposedAt(h', i, index, t, data) {
      }
    }
    hide Recorded, Past, RoleOK, ClientsOK, FromReign, Persisted;
    IsNodeOK(c, h', i, n);
  }

  /** When a success may be counted, as far as the leader can tell: whatever the record, its match index is then backed
      by a confirmation of the current term if and only if the reply is of that term, as H1 demands, or tells the
      leader nothing new. */
  lemma AckMayBeCountedIff(c: Topology, h: History, i: NodeId, n: Node, src: NodeId, reqLast: LogIndex,
                           resp: AppendEntriesResponse)
    requires WellFormed(c) && i in c && MayHaveConfirmed(c, h, i, n, src, resp.term, reqLast)
    requires n.sm.role == Leader && src in n.sm.progress && resp.success && resp.term <= n.sm.currentTerm
    ensures (forall h' | MayHaveConfirmed(c, h', i, n, src, resp.term, reqLast) ::
               MatchIsBacked(h', HandleAppendResponse(c[i], n, src, reqLast, resp), src))
            <==> (resp.term == n.sm.currentTerm || reqLast <= n.sm.progress[src].matchIndex)
  {
    hide HandleAppendResponse;
    AckIsCounted(c[i], n, src, reqLast, resp);
    if resp.term == n.sm.currentTerm || reqLast <= n.sm.progress[src].matchIndex {
      forall h' | MayHaveConfirmed(c, h', i, n, src, resp.term, reqLast)
        ensures MatchIsBacked(h', HandleAppendResponse(c[i], n, src, reqLast, resp), src)
      {
        NodeParts(c, h', i, n);
        hide NodeOK, Past, Sourced, Shaped, ClientsOK, AckOf, WellFormed;
      }
    } else {
      NodeParts(c, h, i, n);
      assert src != i;
      var h' := h.(acks := h.acks[Slot(n.sm.currentTerm, src) := n.sm.progress[src].matchIndex]);
      AckIsUnknown(c, h, i, n, src);
      hide NodeOK, WellFormed, RoleOK, Recorded, Past, ClientsOK, Sourced, Shaped;
      assert MayHaveConfirmed(c, h', i, n, src, resp.term, reqLast);
      assert !MatchIsBacked(h', HandleAppendResponse(c[i], n, src, reqLast, resp), src);
    }
  }

  // ----- pending proposals

  ghost predicate Subsequence<T(!new)>(a: seq<T>, b: seq<T>)
    decreases |b|
  {
    a == [] || (b != [] && (Subsequence(a, b[..|b| - 1])
                            || (a[|a| - 1] == b[|b| - 1] && Subsequence(a[..|a| - 1], b[..|b| - 1]))))
  }

  /** The pending proposals that a commit index settles. */
  function Settled(pending: seq<Pending>, commit: LogIndex): seq<Pending> {
    if pending == [] then []
    else
      var rest := Settled(pending[..|pending| - 1], commit);
      var p := pending[|pending| - 1];
      if p.index <= commit then rest + [p] else rest
  }

  lemma {:induction false} PendingSplitLosesNothing(pending: seq<Pending>, commit: LogIndex)
    ensures multiset(StillPending(pending, commit)) + multiset(Settled(pending, commit)) == multiset(pending)
    ensures forall p | p in StillPending(pending, commit) :: p.index > commit
  {
    if pending != [] {
      PendingSplitLosesNothing(pending[..|pending| - 1], commit);
      assert pending == pending[..|pending| - 1] + [pending[|pending| - 1]];
    }
  }

  lemma {:induction false} PendingSplitKeepsOrder(pending: seq<Pending>, commit: LogIndex)
    ensures Subsequence(StillPending(pending, commit), pending) && Subsequence(Settled(pending, commit), pending)
  {
    if pending != [] {
      var front, last := pending[..|pending| - 1], pending[|pending| - 1];
      PendingSplitKeepsOrder(front, commit);
      var kept, settled := StillPending(front, commit), Settled(front, commit);
      assert (kept + [last])[..|kept|] == kept;
      assert (settled + [last])[..|settled|] == settled;
    }
  }

  lemma {:induction false} SettledAreAnswered(pending: seq<Pending>, commit: LogIndex, term: Term)
    ensures var settled, replies := Settled(pending, commit), CommitReplies(pending, commit, term);
            && |replies| == |settled|
            && forall k | 0 <= k < |settled| ::
              replies[k] == Granted(settled[k].tx, settled[k].index, settled[k].term, settled[k].data, term)
              && settled[k].index <= commit
  {
    if pending != [] {
      SettledAreAnswered(pending[..|pending| - 1], commit, term);
    }
  }

  /** Splitting `pending` at a commit index loses, repeats and reorders nothing; each settled proposal gets exactly
      one reply, in order. */
  lemma PendingSplitIsExact(pending: seq<Pending>, commit: LogIndex, term: Term)
    ensures var kept, settled, replies :=
              StillPending(pending, commit), Settled(pending, commit), CommitReplies(pending, commit, term);
            && multiset(kept) + multiset(settled) == multiset(pending)
            && Subsequence(kept, pending) && Subsequence(settled, pending)
            && (forall p | p in kept :: p.index > commit)
            && |replies| == |settled|
            && forall k | 0 <= k < |settled| ::
              replies[k] == Granted(settled[k].tx, settled[k].index, settled[k].term, settled[k].data, term)
              && settled[k].index <= commit
  {
    PendingSplitLosesNothing(pending, commit);
    PendingSplitKeepsOrder(pending, commit);
    SettledAreAnswered(pending, commit, term);
  }
}
