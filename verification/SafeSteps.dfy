/** Every handler is a safe step when H1 and H2 hold. */
module SafeSteps {
  import opened Core
  import opened LogSpec
  import opened NodeSpec
  import opened Cluster
  import opened Invariants
  import opened Handlers
  import opened Safety

  // ----- what a safe step must show, in terms of the record before it

  ghost predicate SafeVote(h: History, i: NodeId, n': Node) {
    var t := n'.sm.currentTerm;
    n'.sm.votedFor.Some? && Slot(t, i) !in h.votes ==>
      var slot := Slot(t, n'.sm.votedFor.value);
      KeepsConfirmed(h, i, t, if slot in h.campaigns then h.campaigns[slot] else n'.log)
  }

  ghost predicate SafeWin(h: History, n': Node) {
    var term := n'.sm.currentTerm;
    n'.sm.role == Leader && term !in h.leaders ==>
      && term >= 1 && Shaped(n'.log, term - 1)
      && forall t: Term, k: nat | t < term && OwnAt(h, t, k) ::
        Kept(h, t, k, n'.log) || NoneConfirmed(h, t, k, n'.sm.votesReceived)
  }

  ghost predicate SafeConfirm(h: History, i: NodeId, e: Effect) {
    var t := e.node.sm.currentTerm;
    e.node.sm.role != Leader && t in h.leaders ==>
      && Agree(h.leaders[t].log, e.node.log, AckOf(h, t, i))
      && (e.ack.Some? ==> Agree(h.leaders[t].log, e.node.log, e.ack.value))
  }

  ghost predicate SafeEffect(c: Topology, h: History, i: NodeId, e: Effect) {
    && SafeVote(h, i, e.node)
    && SafeWin(h, e.node)
    && SafeConfirm(h, i, e)
    && KeepsConfirmed(h, i, e.node.sm.currentTerm, e.node.log)
    && Committed(c, h, e.node.log, e.node.sm.commitIndex, e.node.sm.currentTerm)
    && ApplySafe(e.node)
    && (forall r | r in e.node.replies :: ReplySafe(c, h, r))
  }

  ghost predicate Safely(c: Topology, h: History, i: NodeId, e: Effect) {
    SafeEffect(c, h, i, e) && forall m | m in e.sent :: MessageSafe(c, Observe(h, i, e), m)
  }

  // ----- a safe effect keeps the invariant

  lemma NewReignIsSafe(c: Topology, h: History, h': History, i: NodeId, n': Node, t: Term, k: nat)
    requires HistoryOK(c, h) && Extends(h, h', i, n'.sm.currentTerm) && VotesUpTo(h, i, n'.sm.currentTerm)
    requires SafeWin(h, n') && n'.sm.role == Leader && n'.sm.currentTerm !in h.leaders
    requires n'.sm.currentTerm in h'.leaders
             && h'.leaders[n'.sm.currentTerm] == Reign(i, n'.log, n'.sm.votesReceived)
    requires t < n'.sm.currentTerm && OwnAt(h, t, k)
    ensures OwnAt(h', t, k) && Kept(h', t, k, n'.log)
  {
    var term := n'.sm.currentTerm;
    assert ReignGrows(t, h.leaders[t], h'.leaders[t]);
    if Kept(h, t, k, n'.log) {
      KeptStable(c, h, h', i, term, t, k, n'.log);
    } else {
      forall v | v in n'.sm.votesReceived ensures AckOf(h', t, v) < k {
        assert AckOf(h, t, v) < k;
        FrozenAck(h, h', i, term, t, v);
      }
      assert BlockedBy(h', t, k, term);
    }
  }

  /** An entry appended by a leader already superseded can never be chosen. */
  lemma LateEntryIsBlocked(c: Topology, h: History, h': History, i: NodeId, t: Term, t2: Term, k: nat)
    requires HistoryOK(c, h) && Extends(h, h', i, t) && VotesUpTo(h, i, t)
    requires t in h.leaders && t2 in h.leaders && t < t2 && k > |h.leaders[t].log|
    ensures Blocked(h', t, k)
  {
    assert ReignOK(c, h, t2) && ReignGrows(t2, h.leaders[t2], h'.leaders[t2]);
    forall v | v in h.leaders[t2].voters ensures AckOf(h', t, v) < k {
      assert VotedFor(h, t2, v, h.leaders[t2].leader);
      FrozenAck(h, h', i, t, t, v);
    }
    assert BlockedBy(h', t, k, t2);
  }

  /** Of the prefixes on record after the step, the old ones were there before it and a new one is a late entry. */
  lemma LeaderStaysSafe(c: Topology, h: History, i: NodeId, e: Effect, t: Term, t2: Term, k: nat)
    requires HistoryOK(c, h) && Extends(h, Observe(h, i, e), i, e.node.sm.currentTerm)
    requires VotesUpTo(h, i, e.node.sm.currentTerm) && SafeWin(h, e.node) && LeadersSafe(h)
    requires t2 in Observe(h, i, e).leaders && t < t2 && OwnAt(Observe(h, i, e), t, k)
    ensures Kept(Observe(h, i, e), t, k, Observe(h, i, e).leaders[t2].log)
  {
    var h', term := Observe(h, i, e), e.node.sm.currentTerm;
    hide VotesGrow, CampaignsGrow, AcksGrow, HistoryOK, VotesUpTo, Blocked, AckOf;
    if t in h.leaders && k <= |h.leaders[t].log| {
      assert ReignGrows(t, h.leaders[t], h'.leaders[t]);
      assert OwnAt(h, t, k);
      if t2 in h.leaders {
        assert ReignGrows(t2, h.leaders[t2], h'.leaders[t2]);
        KeptStable(c, h, h', i, term, t, k, h.leaders[t2].log);
      } else {
        NewReignIsSafe(c, h, h', i, e.node, t, k);
      }
    } else if t in h.leaders {
      LateEntryIsBlocked(c, h, h', i, t, t2, k);
    } else {
      assert false;
    }
  }

  lemma LeadersStaySafe(c: Topology, h: History, i: NodeId, e: Effect)
    requires HistoryOK(c, h) && Extends(h, Observe(h, i, e), i, e.node.sm.currentTerm)
    requires VotesUpTo(h, i, e.node.sm.currentTerm) && SafeWin(h, e.node) && LeadersSafe(h)
    ensures LeadersSafe(Observe(h, i, e))
  {
    hide HistoryOK, Extends, VotesUpTo, SafeWin, Kept, Observe;
    forall t: Term, t2: Term, k: nat | t2 in Observe(h, i, e).leaders && t < t2 && OwnAt(Observe(h, i, e), t, k)
      ensures Kept(Observe(h, i, e), t, k, Observe(h, i, e).leaders[t2].log)
    {
      LeaderStaysSafe(c, h, i, e, t, t2, k);
    }
  }

  lemma VotesStaySafe(c: Topology, h: History, i: NodeId, e: Effect)
    requires HistoryOK(c, h) && Extends(h, Observe(h, i, e), i, e.node.sm.currentTerm)
    requires VotesUpTo(h, i, e.node.sm.currentTerm) && SafeVote(h, i, e.node) && VotesSafe(h)
    ensures VotesSafe(Observe(h, i, e))
  {
    var h', term := Observe(h, i, e), e.node.sm.currentTerm;
    forall slot | slot in h'.votes && Slot(slot.term, h'.votes[slot]) in h'.campaigns
      ensures KeepsConfirmed(h', slot.node, slot.term, h'.campaigns[Slot(slot.term, h'.votes[slot])])
    {
      var log := h'.campaigns[Slot(slot.term, h'.votes[slot])];
      assert KeepsConfirmed(h, slot.node, slot.term, log);
      KeepsConfirmedStable(c, h, h', i, term, slot.node, slot.term, log);
    }
  }

  lemma NodeStaysSafe(c: Topology, h: History, i: NodeId, e: Effect)
    requires HistoryOK(c, h) && Extends(h, Observe(h, i, e), i, e.node.sm.currentTerm)
    requires VotesUpTo(h, i, e.node.sm.currentTerm) && SafeEffect(c, h, i, e)
    ensures NodeSafe(c, Observe(h, i, e), i, e.node)
  {
    var n, h', t := e.node, Observe(h, i, e), e.node.sm.currentTerm;
    hide HistoryOK, VotesUpTo, SafeVote, SafeWin, VotesGrow, CampaignsGrow, KeepsConfirmed, Committed, ReplySafe;
    KeepsConfirmedStable(c, h, h', i, t, i, t, n.log);
    ExtendsIsLater(h, h', i, t);
    CommittedInLaterRecord(c, h, h', n.log, n.sm.commitIndex, t);
    forall r | r in n.replies ensures ReplySafe(c, h', r) {
      ReplyStaysSafe(c, h, h', r);
    }
    assert t in h'.leaders ==> Agree(h'.leaders[t].log, n.log, AckOf(h', t, i));
  }

  // ----- steps that leave no trace on the record

  /** Stepping down to a newer term, if there is one, keeps a node safe. */
  lemma AdoptIsSafe(c: Topology, h: History, i: NodeId, n: Node, term: Term, leader: Option<NodeId>)
    requires i in c && HistoryOK(c, h) && NodeOK(c, h, i, n) && NodeSafe(c, h, i, n)
    ensures NodeSafe(c, h, i, Adopt(n, term, leader))
  {
    var n1 := Adopt(n, term, leader);
    NewTermKeepsConfirmed(c, h, i, n, n1.sm.currentTerm);
    CommittedLater(c, h, n.log, n.sm.commitIndex, n.sm.currentTerm, n1.sm.currentTerm);
    NothingConfirmedYet(c, h, i, n, n1.sm.currentTerm);
  }

  lemma NewTermKeepsConfirmed(c: Topology, h: History, i: NodeId, n: Node, term: Term)
    requires NodeSafe(c, h, i, n) && term >= n.sm.currentTerm
    requires i in c && HistoryOK(c, h) && NodeOK(c, h, i, n)
    ensures KeepsConfirmed(h, i, term, n.log)
  {
    forall t: Term, k: nat | t < term && OwnAt(h, t, k) && AckOf(h, t, i) >= k
      ensures Kept(h, t, k, n.log)
    {
      if t > n.sm.currentTerm {
        NothingConfirmedYet(c, h, i, n, t);
      }
    }
  }

  lemma NothingConfirmedYet(c: Topology, h: History, i: NodeId, n: Node, term: Term)
    requires i in c && NodeOK(c, h, i, n)
    ensures term > n.sm.currentTerm ==> AckOf(h, term, i) == 0 && Slot(term, i) !in h.votes
  {
  }

  /** When the record does not change, a safe node is a safe effect. */
  lemma QuietIsSafe(c: Topology, h: History, i: NodeId, e: Effect)
    requires i in c && NodeOK(c, h, i, e.node) && NodeSafe(c, h, i, e.node) && e.ack == None
    ensures SafeEffect(c, h, i, e)
  {
  }

  lemma FrameIsSafe(c: Topology, h: History, i: NodeId, n: Node, n': Node)
    requires NodeSafe(c, h, i, n)
    requires n'.log == n.log && n'.boot == n.boot && n'.applied == n.applied
    requires n'.sm.currentTerm == n.sm.currentTerm
    requires n'.sm.commitIndex == n.sm.commitIndex && n'.sm.lastApplied == n.sm.lastApplied
    requires forall r | r in n'.replies && r.Granted? :: r in n.replies
    ensures NodeSafe(c, h, i, n')
  {
  }

  lemma CrashIsSafe(c: Topology, h: History, i: NodeId, n: Node)
    requires i in c && NodeOK(c, h, i, n) && NodeSafe(c, h, i, n)
    ensures NodeSafe(c, h, i, Restart(n))
  {
  }

  // ----- elections

  /** A log whose last entry is late enough, or of term `t` and far enough, keeps what term `t` confirmed. */
  lemma LateLogKeeps(c: Topology, h: History, t: Term, k: nat, log: seq<LogEntry>)
    requires HistoryOK(c, h) && LeadersSafe(h) && OwnAt(h, t, k)
    requires log != [] && FromReign(h, log, |log| - 1)
    requires log[|log| - 1].term > t || (log[|log| - 1].term == t && |log| >= k)
    ensures Kept(h, t, k, log)
  {
    var tc := log[|log| - 1].term;
    if tc > t {
      ReignParts(c, h, tc);
      assert Kept(h, t, k, h.leaders[tc].log);
    }
  }

  lemma OwnEntryBoundsLog(log: seq<LogEntry>, term: Term, k: nat, t: Term)
    requires Shaped(log, term) && 1 <= k <= |log| && log[k - 1].term == t
    ensures TermOf(log, |log|) >= t >= 1
  {
  }

  /** Voting only for up-to-date logs passes every confirmed prefix on to the candidate. */
  lemma UpToDateKeepsConfirmed(c: Topology, h: History, i: NodeId, n: Node, req: RequestVoteRequest, t: Term, k: nat)
    requires i in c && HistoryOK(c, h) && LeadersSafe(h) && NodeOK(c, h, i, n) && NodeSafe(c, h, i, n)
    requires VoteReqOK(c, h, req) && req.term == n.sm.currentTerm && UpToDate(req, n.log)
    requires t < req.term && OwnAt(h, t, k) && AckOf(h, t, i) >= k
    ensures Kept(h, t, k, h.campaigns[Slot(req.term, req.candidateId)])
  {
    var log := h.campaigns[Slot(req.term, req.candidateId)];
    CampaignParts(c, h, Slot(req.term, req.candidateId));
    NodeParts(c, h, i, n);
    hide NodeOK, HistoryOK, Past, RoleOK, ClientsOK, Recorded, Committed, ReplySafe, Blocked, ApplySafe;
    assert Kept(h, t, k, n.log);
    if Agree(h.leaders[t].log, n.log, k) {
      OwnEntryBoundsLog(n.log, n.sm.currentTerm, k, t);
      hide Kept, Shaped, Agree;
      assert FromReign(h, log, |log| - 1);
      LateLogKeeps(c, h, t, k, log);
    }
  }

  lemma GrantIsSafe(c: Topology, h: History, i: NodeId, n: Node, req: RequestVoteRequest, sent: seq<Message>)
    requires i in c && HistoryOK(c, h) && LeadersSafe(h) && NodeOK(c, h, i, n) && NodeSafe(c, h, i, n)
    requires VoteReqOK(c, h, req) && req.term == n.sm.currentTerm && UpToDate(req, n.log)
    requires n.sm.votedFor.Some? ==> n.sm.votedFor.value == req.candidateId
    ensures SafeEffect(c, h, i, Effect(Save(n.(sm := n.sm.(votedFor := Some(req.candidateId)))), sent, None))
  {
    var n' := Save(n.(sm := n.sm.(votedFor := Some(req.candidateId))));
    NodeParts(c, h, i, n);
    hide NodeOK, HistoryOK, LeadersSafe, UpToDate, Past, Shaped, FromReign, RoleOK;
    forall t: Term, k: nat | t < req.term && OwnAt(h, t, k) && AckOf(h, t, i) >= k
      ensures Kept(h, t, k, h.campaigns[Slot(req.term, req.candidateId)])
    {
      UpToDateKeepsConfirmed(c, h, i, n, req, t, k);
    }
    FrameIsSafe(c, h, i, n, n');
  }

  lemma CampaignIsSafe(c: Topology, h: History, i: NodeId, n: Node, sent: seq<Message>)
    requires i in c && HistoryOK(c, h) && NodeOK(c, h, i, n) && NodeSafe(c, h, i, n)
    ensures SafeEffect(c, h, i, Effect(Save(n.(sm := n.sm.BecomeCandidate(i))), sent, None))
  {
    hide HistoryOK, RoleOK, Recorded, Sourced, Shaped, ClientsOK, KeepsConfirmed, ReplySafe;
    var term := n.sm.currentTerm + 1;
    NodeParts(c, h, i, n);
    hide NodeOK;
    NewTermKeepsConfirmed(c, h, i, n, term);
    NothingConfirmedYet(c, h, i, n, term);
    CommittedLater(c, h, n.log, n.sm.commitIndex, n.sm.currentTerm, term);
    hide Committed;
  }

  /** Every confirmed prefix reached the winner through some voter, or none of its voters confirmed it. */
  lemma WinIsSafe(c: Topology, h: History, i: NodeId, n: Node, sent: seq<Message>)
    requires WellFormed(c) && i in c && HistoryOK(c, h) && VotesSafe(h) && NodeOK(c, h, i, n) && NodeSafe(c, h, i, n)
    requires n.sm.role == Candidate && n.sm.currentTerm !in h.leaders
    ensures SafeEffect(c, h, i, Effect(WinElection(c[i], n), sent, None))
  {
    hide NodeOK, HistoryOK, WellFormed, Past, FromReign, ClientsOK, Shaped;
    var term := n.sm.currentTerm;
    NodeParts(c, h, i, n);
    CampaignParts(c, h, Slot(term, i));
    assert SafeWin(h, WinElection(c[i], n)) by {
      hide NodeSafe, ApplySafe, Agree, Blocked;
      forall t: Term, k: nat | t < term && OwnAt(h, t, k)
        ensures Kept(h, t, k, n.log) || NoneConfirmed(h, t, k, n.sm.votesReceived)
      {
        if v :| v in n.sm.votesReceived && AckOf(h, t, v) >= k {
          assert VotedFor(h, term, v, i);
          assert KeepsConfirmed(h, v, term, n.log);
        }
      }
    }
    hide RoleOK, CampaignOK, VotesSafe, SafeWin, KeepsConfirmed, Agree;
    FrameIsSafe(c, h, i, n, WinElection(c[i], n));
  }

  // ----- commit, apply and proposals

  lemma {:induction false} CommitScanFacts(log: seq<LogEntry>, term: Term, progress: map<NodeId, Progress>, quorum: nat,
                                           commit: LogIndex, n: LogIndex)
    ensures var r := CommitScan(log, term, progress, quorum, commit, n);
            r == commit || (commit < r <= n && TermOf(log, r) == term && |Replicated(progress, r)| + 1 >= quorum)
  {
    if n > commit {
      CommitScanFacts(log, term, progress, quorum, commit, n - 1);
    }
  }

  lemma ReplicatedIsQuorum(c: Topology, i: NodeId, progress: map<NodeId, Progress>, r: LogIndex)
    requires WellFormed(c) && i in c && progress.Keys == (set p | p in c[i].peers)
    requires |Replicated(progress, r)| + 1 >= c[i].Quorum()
    ensures IsQuorum(c, Replicated(progress, r) + {i})
  {
    assert c[i].Members() == c.Keys && i !in c[i].peers;
    assert Replicated(progress, r) <= progress.Keys;
    assert |Replicated(progress, r) + {i}| == |Replicated(progress, r)| + 1;
    BigEnough(c, i, Replicated(progress, r) + {i});
  }

  /** What the leader counts as replicated is chosen. */
  lemma ScanChooses(c: Topology, h: History, i: NodeId, n: Node, r: LogIndex)
    requires WellFormed(c) && i in c && RoleOK(c, h, i, n) && Recorded(h, i, n) && n.sm.role == Leader
    requires 0 < r <= |n.log| && TermOf(n.log, r) == n.sm.currentTerm
    requires |Replicated(n.sm.progress, r)| + 1 >= c[i].Quorum()
    ensures CommitWitness(c, h, n.log, r, n.sm.currentTerm, n.sm.currentTerm, r)
  {
    hide WellFormed, IsQuorum;
    ReplicatedIsQuorum(c, i, n.sm.progress, r);
    assert AllConfirmed(h, n.sm.currentTerm, r, Replicated(n.sm.progress, r) + {i});
  }

  lemma LaterCommitIsSafe(c: Topology, h: History, i: NodeId, n: Node, r: LogIndex)
    requires NodeSafe(c, h, i, n) && n.sm.commitIndex <= r <= |n.log|
    requires Committed(c, h, n.log, r, n.sm.currentTerm)
    ensures NodeSafe(c, h, i, AdvanceTo(n, r))
  {
    hide KeepsConfirmed, Committed, ReplySafe, Agree;
  }

  lemma AdvanceIsSafe(c: Topology, h: History, i: NodeId, n: Node)
    requires WellFormed(c) && i in c && HistoryOK(c, h) && NodeOK(c, h, i, n) && NodeSafe(c, h, i, n)
    requires n.sm.role == Leader
    ensures var r := CommitScan(n.log, n.sm.currentTerm, n.sm.progress, c[i].Quorum(), n.sm.commitIndex, |n.log|);
            NodeSafe(c, h, i, AdvanceTo(n, r))
  {
    hide HistoryOK, NodeOK, WellFormed, CommitScan, RoleOK, Recorded, CommitWitness, TermOf;
    var t := n.sm.currentTerm;
    var r := CommitScan(n.log, t, n.sm.progress, c[i].Quorum(), n.sm.commitIndex, |n.log|);
    CommitScanFacts(n.log, t, n.sm.progress, c[i].Quorum(), n.sm.commitIndex, |n.log|);
    if r > n.sm.commitIndex {
      NodeParts(c, h, i, n);
      ScanChooses(c, h, i, n, r);
    }
    hide NodeSafe, AdvanceTo;
    LaterCommitIsSafe(c, h, i, n, r);
  }

  lemma RepliesAreSafe(c: Topology, h: History, i: NodeId, n: Node)
    requires i in c && NodeOK(c, h, i, n) && NodeSafe(c, h, i, n) && n.sm.role == Leader
    ensures forall r | r in CommitReplies(n.pending, n.sm.commitIndex, n.sm.currentTerm) :: ReplySafe(c, h, r)
  {
    var t := n.sm.currentTerm;
    PendingSplitSources(n.pending, n.sm.commitIndex, t);
    NodeParts(c, h, i, n);
    hide NodeOK, Past, RoleOK, Shaped, FromReign, KeepsConfirmed;
    forall r | r in CommitReplies(n.pending, n.sm.commitIndex, t) && r.proposedIn == r.repliedIn
      ensures EntryChosen(c, h, r.index, LogEntry(r.proposedIn, r.index, r.data, Normal))
    {
      assert Pending(r.index, r.tx, r.proposedIn, r.data) in n.pending;
      assert ProposedAt(h, i, r.index, t, r.data);
      var t0, k :| CommitWitness(c, h, n.log, n.sm.commitIndex, t, t0, k);
      assert ChosenAt(c, h, r.index, LogEntry(t, r.index, r.data, Normal), t0, k);
    }
  }

  lemma MaybeAdvanceCommitIsSafe(c: Topology, h: History, i: NodeId, n: Node)
    requires WellFormed(c) && i in c && HistoryOK(c, h) && NodeOK(c, h, i, n) && NodeSafe(c, h, i, n)
    ensures NodeSafe(c, h, i, MaybeAdvanceCommit(c[i], n))
  {
    hide NodeOK, HistoryOK, WellFormed, CommitScan, KeepsConfirmed, Committed, ReplySafe, Agree, NodeSafe;
    if n.sm.role == Leader {
      var n1 := AdvanceTo(n, CommitScan(n.log, n.sm.currentTerm, n.sm.progress, c[i].Quorum(), n.sm.commitIndex, |n.log|));
      AdvanceIsSafe(c, h, i, n);
      AdvanceToOK(c, h, i, n, n1);
      RepliesAreSafe(c, h, i, n1);
      RepliedIsSafe(c, h, i, n1);
    }
  }

  lemma RepliedIsSafe(c: Topology, h: History, i: NodeId, n: Node)
    requires NodeSafe(c, h, i, n)
    requires forall r | r in CommitReplies(n.pending, n.sm.commitIndex, n.sm.currentTerm) :: ReplySafe(c, h, r)
    ensures NodeSafe(c, h, i, ReplyCommitted(n))
  {
    hide KeepsConfirmed, Committed, ReplySafe, Agree;
  }

  lemma AdvanceToOK(c: Topology, h: History, i: NodeId, n: Node, n1: Node)
    requires i in c && NodeOK(c, h, i, n)
    requires n1 == n || n1 == Save(n.(sm := n.sm.(commitIndex := n1.sm.commitIndex)))
    ensures NodeOK(c, h, i, n1)
  {
    hide Shaped, FromReign, ProposedAt, VotedFor;
  }

  lemma ApplyIsSafe(c: Topology, h: History, i: NodeId, n: Node)
    requires i in c && NodeOK(c, h, i, n) && NodeSafe(c, h, i, n)
    ensures NodeSafe(c, h, i, ApplyCommitted(n))
  {
    NodeParts(c, h, i, n);
    hide NodeOK, Past, RoleOK, FromReign, KeepsConfirmed, Committed, ReplySafe, Recorded, ClientsOK;
    var n' := ApplyCommitted(n);
    assert n'.applied == n.log[n.boot..n'.sm.lastApplied];
  }

  lemma ProposalIsSafe(c: Topology, h: History, i: NodeId, n: Node, p: Proposal, sent: seq<Message>)
    requires i in c && HistoryOK(c, h) && NodeOK(c, h, i, n) && NodeSafe(c, h, i, n) && n.sm.role == Leader
    ensures SafeEffect(c, h, i, Effect(OnProposal(c[i], n, p).0, sent, None))
  {
    hide NodeOK, HistoryOK, Past, RoleOK, Shaped, FromReign, ClientsOK, ReplicateAll, ReplySafe, Blocked;
    var n', t := OnProposal(c[i], n, p).0, n.sm.currentTerm;
    NodeParts(c, h, i, n);
    assert Slot(t, i) in h.votes || n'.sm.votedFor == None;
    CommittedPrefix(c, h, n.log, n.sm.commitIndex, n'.log, n.sm.commitIndex, t);
    forall t0: Term, k: nat | t0 < t && OwnAt(h, t0, k) && AckOf(h, t0, i) >= k
      ensures Kept(h, t0, k, n'.log)
    {
      assert Kept(h, t0, k, n.log);
    }
  }

  // ----- replication

  /** Under H2 an accepted request loses nothing the follower shares with the leader. */
  lemma AcceptKeepsAgreement(c: Topology, h: History, i: NodeId, n: Node, req: AppendEntriesRequest, k: nat)
    requires i in c && HistoryOK(c, h) && NodeOK(c, h, i, n)
    requires AppendReqOK(h, i, req) && Accepts(n, req)
    requires KeepsAgreement(n, req, h.leaders[req.term].log)
    requires Agree(n.log, h.leaders[req.term].log, k)
    ensures Agree(Splice(n.log, req.entries), h.leaders[req.term].log, k)
  {
    NodeParts(c, h, i, n);
    SpliceFollowsLeader(c, h, n, req, i);
    hide NodeOK, HistoryOK, Shaped, FromReign, Past, RoleOK, Recorded, ClientsOK;
    if k > req.LastIndex() && req.entries != [] {
      assert false;
    }
  }

  lemma AcceptKeepsConfirmed(c: Topology, h: History, i: NodeId, n: Node, req: AppendEntriesRequest)
    requires i in c && HistoryOK(c, h) && LeadersSafe(h) && NodeOK(c, h, i, n) && NodeSafe(c, h, i, n)
    requires AppendReqOK(h, i, req) && Accepts(n, req) && req.term == n.sm.currentTerm
    requires KeepsAgreement(n, req, h.leaders[req.term].log)
    ensures KeepsConfirmed(h, i, req.term, Splice(n.log, req.entries))
  {
    var log, leaderLog := Splice(n.log, req.entries), h.leaders[req.term].log;
    hide NodeOK, HistoryOK, Accepts, Splice;
    forall t: Term, k: nat | t < req.term && OwnAt(h, t, k) && AckOf(h, t, i) >= k
      ensures Kept(h, t, k, log)
    {
      assert Kept(h, t, k, n.log) && Kept(h, t, k, leaderLog);
      if !Blocked(h, t, k) {
        assert Agree(n.log, leaderLog, k);
        AcceptKeepsAgreement(c, h, i, n, req, k);
      }
    }
  }

  lemma AcceptCommit(c: Topology, h: History, i: NodeId, n: Node, req: AppendEntriesRequest)
    requires i in c && HistoryOK(c, h) && LeadersSafe(h) && NodeOK(c, h, i, n) && NodeSafe(c, h, i, n)
    requires AppendReqOK(h, i, req) && Accepts(n, req) && req.term == n.sm.currentTerm
    requires KeepsAgreement(n, req, h.leaders[req.term].log) && MessageSafe(c, h, AppendReq(i, req))
    ensures var n' := Accept(n, req);
            && n'.sm.commitIndex >= n.sm.commitIndex
            && Committed(c, h, n'.log, n'.sm.commitIndex, req.term)
            && Agree(n.log, n'.log, n.sm.commitIndex)
            && n'.sm.commitIndex <= |n'.log|
            && (n'.sm.commitIndex == n.sm.commitIndex || n'.sm.commitIndex <= req.LastIndex())
  {
    hide NodeOK, HistoryOK, Accepts, Shaped, FromReign, Past, RoleOK, Recorded, ClientsOK, KeepsConfirmed, LeadersSafe,
      Committed, Splice, ReplySafe, KeepsAgreement, LastIndexOf;
    SplicedLastIndex(c, h, i, n, req);
    var n', leaderLog := Accept(n, req), h.leaders[req.term].log;
    NodeParts(c, h, i, n);
    CommittedAgreesWithLeader(c, h, n.log, n.sm.commitIndex, req.term);
    AcceptKeepsAgreement(c, h, i, n, req, n.sm.commitIndex);
    SpliceFollowsLeader(c, h, n, req, i);
    CommittedPrefix(c, h, n.log, n.sm.commitIndex, n'.log, n.sm.commitIndex, req.term);
    if n'.sm.commitIndex != n.sm.commitIndex {
      assert req.entries == [] ==> Splice(n.log, req.entries) == n.log by {
        SpliceNothing(n.log);
      }
      CommittedPrefix(c, h, leaderLog, req.leaderCommit, n'.log, n'.sm.commitIndex, req.term);
    }
  }

  lemma AcceptApplySafe(n: Node, req: AppendEntriesRequest)
    requires ApplySafe(n) && Agree(n.log, Accept(n, req).log, n.sm.commitIndex)
    requires n.sm.commitIndex <= Accept(n, req).sm.commitIndex <= |Accept(n, req).log|
    ensures ApplySafe(Accept(n, req))
  {
    var n' := Accept(n, req);
    assert n'.log[..n.sm.commitIndex] == n.log[..n.sm.commitIndex];
    assert n'.log[n.boot..n.sm.lastApplied] == n'.log[..n.sm.commitIndex][n.boot..n.sm.lastApplied];
    assert n.log[n.boot..n.sm.lastApplied] == n.log[..n.sm.commitIndex][n.boot..n.sm.lastApplied];
  }

  lemma AcceptConfirms(c: Topology, h: History, i: NodeId, n: Node, req: AppendEntriesRequest, sent: seq<Message>)
    requires i in c && HistoryOK(c, h) && NodeOK(c, h, i, n) && NodeSafe(c, h, i, n)
    requires AppendReqOK(h, i, req) && Accepts(n, req) && req.term == n.sm.currentTerm
    requires KeepsAgreement(n, req, h.leaders[req.term].log)
    ensures SafeConfirm(h, i, Effect(Accept(n, req), sent, Some(req.LastIndex())))
  {
    assert Agree(n.log, h.leaders[req.term].log, AckOf(h, req.term, i));
    hide NodeOK, HistoryOK, Accepts, NodeSafe, Splice, KeepsAgreement, AppendReqOK, Sourced, Shaped;
    NodeParts(c, h, i, n);
    AcceptKeepsAgreement(c, h, i, n, req, AckOf(h, req.term, i));
    SpliceFollowsLeader(c, h, n, req, i);
  }

  lemma AcceptIsSafe(c: Topology, h: History, i: NodeId, n: Node, req: AppendEntriesRequest, sent: seq<Message>)
    requires i in c && HistoryOK(c, h) && LeadersSafe(h) && NodeOK(c, h, i, n) && NodeSafe(c, h, i, n)
    requires AppendReqOK(h, i, req) && Accepts(n, req) && req.term == n.sm.currentTerm
    requires KeepsAgreement(n, req, h.leaders[req.term].log) && MessageSafe(c, h, AppendReq(i, req))
    ensures SafeEffect(c, h, i, Effect(Accept(n, req), sent, Some(req.LastIndex())))
  {
    AcceptKeepsConfirmed(c, h, i, n, req);
    AcceptCommit(c, h, i, n, req);
    hide NodeOK, HistoryOK, Accepts, KeepsConfirmed, LeadersSafe, Committed, Splice, ReplySafe, KeepsAgreement,
      AppendReqOK, MessageSafe, ApplySafe, Agree, SafeConfirm;
    NotThatLeader(c, h, i, n, req);
    AcceptConfirms(c, h, i, n, req, sent);
    AcceptApplySafe(n, req);
    assert SafeVote(h, i, Accept(n, req)) by {
      NodeParts(c, h, i, n);
    }
  }

  // ----- messages

  lemma {:induction false} ReplicateIsSafe(c: Topology, h: History, i: NodeId, n: Node, count: nat)
    requires i in c && NodeOK(c, h, i, n) && NodeSafe(c, h, i, n) && n.sm.role == Leader
    requires count <= |c[i].peers|
    ensures forall m | m in ReplicateToFirst(c[i], n, count) :: MessageSafe(c, h, m)
  {
    if count > 0 {
      ReplicateIsSafe(c, h, i, n, count - 1);
      var peer := c[i].peers[count - 1];
      if peer in n.sm.progress {
        var next := n.sm.progress[peer].nextIndex;
        NodeParts(c, h, i, n);
        hide NodeOK, Past, RoleOK, Shaped, FromReign, KeepsConfirmed, ClientsOK;
        if |n.log| >= next {
          CappedReadIsMaximal(n.log[next - 1..], ReadLimit(c[i]));
        }
      }
    }
  }

  lemma ReplicateAllIsSafe(c: Topology, h: History, i: NodeId, n: Node)
    requires i in c && NodeOK(c, h, i, n) && NodeSafe(c, h, i, n)
    ensures forall m | m in ReplicateAll(c[i], n) :: MessageSafe(c, h, m)
  {
    if n.sm.role == Leader {
      ReplicateIsSafe(c, h, i, n, |c[i].peers|);
    }
  }
}
