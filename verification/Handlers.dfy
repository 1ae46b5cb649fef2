/** Every handler takes a lawful step, so the H1 invariant holds in every reachable state. */
module Handlers {
  import opened Core
  import opened LogSpec
  import opened NodeSpec
  import opened Cluster
  import opened Invariants

  ghost predicate Preserves(c: Topology, h: History, i: NodeId, n: Node, e: Effect)
    requires i in c
  {
    Lawful(c, h, i, n, e) && forall m | m in e.sent :: MessageOK(c, Observe(h, i, e), m)
  }

  lemma NothingToRecord(h: History, i: NodeId, e: Effect)
    requires Recorded(h, i, e.node) && e.ack == None
    ensures Observe(h, i, e) == h
  {
    var slot := Slot(e.node.sm.currentTerm, i);
    if e.node.sm.votedFor.Some? {
      assert h.votes[slot := h.votes[slot]] == h.votes;
    }
    if e.node.sm.role == Leader {
      var t := e.node.sm.currentTerm;
      assert h.leaders[t := h.leaders[t]] == h.leaders;
      assert h.acks[slot := h.acks[slot]] == h.acks;
    }
  }

  lemma RecordedRoleIsLawful(c: Topology, h: History, i: NodeId, n: Node)
    requires i in c && RoleOK(c, h, i, n) && Recorded(h, i, n) && (n.sm.role == Leader ==> n.sm.currentTerm >= 1)
    ensures LawfulRole(c, h, i, n)
  {
  }

  /** The new node is already right by the old record, which therefore does not change. */
  lemma QuietStep(c: Topology, h: History, i: NodeId, n: Node, e: Effect)
    requires i in c && NodeOK(c, h, i, e.node) && e.ack == None
    requires e.node.sm.currentTerm >= n.sm.currentTerm
    requires e.node.sm.currentTerm == n.sm.currentTerm && n.sm.votedFor.Some? ==> e.node.sm.votedFor == n.sm.votedFor
    requires HistoryOK(c, h)
    ensures Observe(h, i, e) == h
    ensures Lawful(c, h, i, n, e)
  {
    hide NodeOK, HistoryOK, Observe, RoleOK, LawfulRole, Shaped, FromReign, ProposedAt, Past, Persisted;
    NodeParts(c, h, i, e.node);
    NothingToRecord(h, i, e);
    KnownVote(c, h, i, e.node);
    RecordedRoleIsLawful(c, h, i, e.node);
  }

  lemma AdoptOK(c: Topology, h: History, i: NodeId, n: Node, term: Term, leader: Option<NodeId>)
    requires i in c && NodeOK(c, h, i, n)
    ensures NodeOK(c, h, i, Adopt(n, term, leader))
  {
    var n1 := Adopt(n, term, leader);
    if term > n.sm.currentTerm {
      assert Past(h, i, n1);
      assert Recorded(h, i, n1);
    }
  }

  /** The leader hint, the apply cursor and refusals are of no concern to the record. */
  lemma NodeOKFrame(c: Topology, h: History, i: NodeId, n: Node, n': Node)
    requires i in c && NodeOK(c, h, i, n)
    requires n'.log == n.log && n'.hard == n.hard && n'.pending == n.pending
    requires n'.sm == n.sm.(leaderId := n'.sm.leaderId, lastApplied := n'.sm.lastApplied)
    requires forall r | r in n'.replies && r.Granted? :: r in n.replies
    ensures NodeOK(c, h, i, n')
  {
    hide Shaped, FromReign, ProposedAt, VotedFor;
  }

  /** A step that is lawful after adopting a newer term is lawful from the start. */
  lemma AfterAdopt(c: Topology, h: History, i: NodeId, n: Node, term: Term, leader: Option<NodeId>, e: Effect)
    requires i in c && Preserves(c, h, i, Adopt(n, term, leader), e)
    ensures Preserves(c, h, i, n, e)
  {
  }

  lemma RestartOK(c: Topology, h: History, i: NodeId, n: Node)
    requires i in c && NodeOK(c, h, i, n)
    ensures NodeOK(c, h, i, Restart(n))
    ensures Restart(n).sm.votedFor == n.sm.votedFor
  {
  }

  lemma CrashPreserves(c: Topology, h: History, i: NodeId, n: Node)
    requires i in c && HistoryOK(c, h) && NodeOK(c, h, i, n)
    ensures Preserves(c, h, i, n, Effect(Restart(n), [], None))
  {
    RestartOK(c, h, i, n);
    hide NodeOK, HistoryOK, Lawful;
    QuietStep(c, h, i, n, Effect(Restart(n), [], None));
  }

  // ----- elections

  /** A node that keeps its log may take any role it had, or a new one in a new term. */
  lemma SameLogIsLawful(c: Topology, h: History, i: NodeId, n: Node, n': Node)
    requires i in c && HistoryOK(c, h) && NodeOK(c, h, i, n)
    requires n'.log == n.log && n'.pending == n.pending && n'.replies == n.replies
    requires n'.sm.currentTerm >= n.sm.currentTerm
    requires n'.sm.role != Follower ==> n'.sm.currentTerm > n.sm.currentTerm || n.sm.role != Follower
    ensures LawfulLog(h, i, n') && LawfulClients(h, i, n')
  {
    hide HistoryOK, Past;
    assert Sourced(h, n.log);
    assert Recorded(h, i, n);
  }

  lemma KnownVote(c: Topology, h: History, i: NodeId, n: Node)
    requires i in c && HistoryOK(c, h) && NodeOK(c, h, i, n)
    ensures LawfulVote(h, i, n, n)
    ensures n.sm.role != Follower ==> n.sm.currentTerm >= 1
  {
    assert Recorded(h, i, n);
    if n.sm.role != Follower {
      assert CampaignOK(c, h, Slot(n.sm.currentTerm, i));
    }
  }

  lemma GrantIsLawful(c: Topology, h: History, i: NodeId, n: Node, req: RequestVoteRequest, sent: seq<Message>)
    requires WellFormed(c) && i in c && HistoryOK(c, h) && NodeOK(c, h, i, n)
    requires VoteReqOK(c, h, req) && req.term == n.sm.currentTerm
    requires n.sm.votedFor.Some? ==> n.sm.votedFor.value == req.candidateId
    ensures Lawful(c, h, i, n, Effect(Save(n.(sm := n.sm.(votedFor := Some(req.candidateId)))), sent, None))
  {
    var n' := Save(n.(sm := n.sm.(votedFor := Some(req.candidateId))));
    hide HistoryOK, NodeOK, Past, LawfulLog, LawfulClients, ClientsOK, Sourced, Shaped;
    SameLogIsLawful(c, h, i, n, n');
    KnownVote(c, h, i, n);
    NodeParts(c, h, i, n);
    CampaignParts(c, h, Slot(req.term, req.candidateId));
  }

  lemma RequestVotePreserves(c: Topology, h: History, i: NodeId, n: Node, req: RequestVoteRequest)
    requires WellFormed(c) && i in c && HistoryOK(c, h) && NodeOK(c, h, i, n)
    requires VoteReqOK(c, h, req)
    ensures Preserves(c, h, i, n, Handle(c[i], n, VoteReq(i, req)))
  {
    hide NodeOK, HistoryOK, Lawful;
    var e := Handle(c[i], n, VoteReq(i, req));
    var n1 := Adopt(n, req.term, None);
    AdoptOK(c, h, i, n, req.term, None);
    if e.sent[0].voteResp.voteGranted {
      GrantIsLawful(c, h, i, n1, req, e.sent);
    } else {
      QuietStep(c, h, i, n1, e);
    }
    assert req.candidateId in c by {
      CandidateIsMember(c, h, req);
    }
    AfterAdopt(c, h, i, n, req.term, None, e);
  }

  lemma CandidateIsMember(c: Topology, h: History, req: RequestVoteRequest)
    requires HistoryOK(c, h) && VoteReqOK(c, h, req)
    ensures req.candidateId in c
  {
    assert CampaignOK(c, h, Slot(req.term, req.candidateId));
  }

  lemma BigEnough(c: Topology, i: NodeId, q: set<NodeId>)
    requires WellFormed(c) && i in c && q <= c.Keys
    ensures |q| >= c[i].Quorum() <==> IsQuorum(c, q)
  {
    QuorumIsLeastMajority(c[i]);
    assert |c| == |c.Keys|;
  }

  /** Two quorums of votes in one term elect the same candidate. */
  lemma SameWinner(c: Topology, h: History, t: Term, i: NodeId, q: set<NodeId>)
    requires HistoryOK(c, h) && t in h.leaders && IsQuorum(c, q)
    requires forall v | v in q :: VotedFor(h, t, v, i)
    ensures h.leaders[t].leader == i
  {
    assert ReignOK(c, h, t);
    var v := MajoritiesMeet(c.Keys, q, h.leaders[t].voters);
    assert VotedFor(h, t, v, i) && VotedFor(h, t, v, h.leaders[t].leader);
  }

  lemma ReplicateToFirstOK(c: Topology, h: History, i: NodeId, n: Node, count: nat)
    requires WellFormed(c) && i in c && NodeOK(c, h, i, n) && n.sm.role == Leader
    requires count <= |c[i].peers|
    ensures forall m | m in ReplicateToFirst(c[i], n, count) :: MessageOK(c, h, m)
  {
    if count > 0 {
      ReplicateToFirstOK(c, h, i, n, count - 1);
      var peer := c[i].peers[count - 1];
      assert peer in c[i].Members();
      NodeParts(c, h, i, n);
      hide NodeOK, Past, ClientsOK, FromReign, Shaped;
      var next := n.sm.progress[peer].nextIndex;
      var req := BuildAppend(c[i], n, next);
      if |n.log| >= next {
        CappedReadIsMaximal(n.log[next - 1..], ReadLimit(c[i]));
      }
      hide TakeCapped;
      assert AppendReqOK(h, peer, req);
    }
  }

  lemma ReplicateAllOK(c: Topology, h: History, i: NodeId, n: Node)
    requires WellFormed(c) && i in c && NodeOK(c, h, i, n)
    ensures forall m | m in ReplicateAll(c[i], n) :: MessageOK(c, h, m)
  {
    if n.sm.role == Leader {
      ReplicateToFirstOK(c, h, i, n, |c[i].peers|);
    }
  }

  lemma VoteRequestsOK(c: Topology, h: History, i: NodeId, req: RequestVoteRequest)
    requires WellFormed(c) && i in c && VoteReqOK(c, h, req)
    ensures forall m | m in VoteRequests(c[i], req) :: MessageOK(c, h, m)
  {
    forall p | p in c[i].peers ensures p in c {
      assert p in c[i].Members();
    }
  }

  /** A candidate with a quorum of votes is the first leader of its term. */
  lemma WinnerIsFirst(c: Topology, h: History, i: NodeId, n: Node, n1: Node)
    requires WellFormed(c) && i in c && HistoryOK(c, h) && NodeOK(c, h, i, n)
    requires Lawful(c, h, i, n, Effect(n1, [], None)) && n1.sm.role == Candidate
    requires |n1.sm.votesReceived| >= c[i].Quorum()
    ensures n1.sm.currentTerm >= 1 && n1.sm.currentTerm !in h.leaders && IsQuorum(c, n1.sm.votesReceived)
  {
    hide *;
    var e1 := Effect(n1, [], None);
    var t, h1 := n1.sm.currentTerm, Observe(h, i, e1);
    LawfulHistory(c, h, i, n, e1);
    LawfulNode(c, h, i, n, e1);
    CandidateFacts(c, h1, i, n1);
    assert t in h.leaders ==> t in h1.leaders by {
      LawfulExtends(c, h, i, n, e1);
      ExtendsKeepsLeaders(h, h1, i, t);
    }
    BigEnough(c, i, n1.sm.votesReceived);
    if t in h1.leaders {
      SameWinner(c, h1, t, i, n1.sm.votesReceived);
      assert false;
    }
  }

  lemma ExtendsKeepsLeaders(h: History, h': History, i: NodeId, t: Term)
    requires Extends(h, h', i, t)
    ensures h.leaders.Keys <= h'.leaders.Keys
  {
  }

  lemma CandidateFacts(c: Topology, h: History, i: NodeId, n: Node)
    requires i in c && HistoryOK(c, h) && NodeOK(c, h, i, n) && n.sm.role == Candidate
    ensures n.sm.currentTerm >= 1
    ensures n.sm.currentTerm in h.leaders ==> h.leaders[n.sm.currentTerm].leader != i
    ensures n.sm.votesReceived <= c.Keys
    ensures forall v | v in n.sm.votesReceived :: VotedFor(h, n.sm.currentTerm, v, i)
  {
    assert CampaignOK(c, h, Slot(n.sm.currentTerm, i));
  }

  lemma WinRoleIsLawful(c: Topology, h: History, i: NodeId, n1: Node)
    requires i in c && LawfulRole(c, h, i, n1) && n1.sm.role == Candidate
    requires n1.sm.currentTerm >= 1 && n1.sm.currentTerm !in h.leaders && IsQuorum(c, n1.sm.votesReceived)
    ensures LawfulRole(c, h, i, WinElection(c[i], n1))
  {
    hide IsQuorum, Agree;
    var n2 := WinElection(c[i], n1);
    forall v | v in n1.sm.votesReceived ensures Supports(h, n2, i, v) {
      assert Supports(h, n1, i, v);
    }
  }

  lemma WinIsLawful(c: Topology, h: History, i: NodeId, n: Node, n1: Node, sent: seq<Message>)
    requires WellFormed(c) && i in c && HistoryOK(c, h) && NodeOK(c, h, i, n)
    requires Lawful(c, h, i, n, Effect(n1, [], None)) && n1.sm.role == Candidate
    requires |n1.sm.votesReceived| >= c[i].Quorum()
    ensures Lawful(c, h, i, n, Effect(WinElection(c[i], n1), sent, None))
  {
    hide HistoryOK, NodeOK, WellFormed, LawfulRole, IsQuorum, FromReign, ProposedAt;
    WinnerIsFirst(c, h, i, n, n1);
    WinRoleIsLawful(c, h, i, n1);
  }

  lemma CampaignIsLawful(c: Topology, h: History, i: NodeId, n: Node)
    requires WellFormed(c) && i in c && HistoryOK(c, h) && NodeOK(c, h, i, n)
    ensures Lawful(c, h, i, n, Effect(Save(n.(sm := n.sm.BecomeCandidate(i))), [], None))
    ensures Slot(n.sm.currentTerm + 1, i) !in h.campaigns
  {
    var n1 := Save(n.(sm := n.sm.BecomeCandidate(i)));
    SameLogIsLawful(c, h, i, n, n1);
    assert LawfulRole(c, h, i, n1) by {
      assert Past(h, i, n);
      assert Supports(h, n1, i, i);
    }
  }

  lemma StartElectionPreserves(c: Topology, h: History, i: NodeId, n: Node)
    requires WellFormed(c) && i in c && HistoryOK(c, h) && NodeOK(c, h, i, n)
    ensures Preserves(c, h, i, n, Act(c[i], n, Timeout(i)))
  {
    assert c[i].id == i;
    hide HistoryOK, NodeOK, Lawful, WellFormed, VoteReqOK, MessageOK, Observe, ReplicateAll, TermOf;
    var e := Act(c[i], n, Timeout(i));
    var n1 := Save(n.(sm := n.sm.BecomeCandidate(i)));
    CampaignIsLawful(c, h, i, n);
    if |n1.sm.votesReceived| >= c[i].Quorum() {
      WinIsLawful(c, h, i, n, n1, e.sent);
    } else {
      LawfulSentIrrelevant(c, h, i, n, n1, e.sent);
    }
    var h' := Observe(h, i, e);
    LawfulNode(c, h, i, n, e);
    ReplicateAllOK(c, h', i, e.node);
    var req := RequestVoteRequest(n1.sm.currentTerm, i, |n.log|, TermOf(n.log, |n.log|));
    assert VoteReqOK(c, h', req) by {
      CampaignIsRecorded(c, h, i, n, e);
    }
    VoteRequestsOK(c, h', i, req);
  }

  lemma CampaignIsRecorded(c: Topology, h: History, i: NodeId, n: Node, e: Effect)
    requires e.node.log == n.log && e.node.sm.role != Follower
    requires Slot(e.node.sm.currentTerm, i) !in h.campaigns
    ensures VoteReqOK(c, Observe(h, i, e), RequestVoteRequest(e.node.sm.currentTerm, i, |n.log|, TermOf(n.log, |n.log|)))
  {
  }

  lemma LawfulSentIrrelevant(c: Topology, h: History, i: NodeId, n: Node, n1: Node, sent: seq<Message>)
    requires i in c && Lawful(c, h, i, n, Effect(n1, [], None))
    ensures Lawful(c, h, i, n, Effect(n1, sent, None))
  {
  }

  lemma NewVoteOK(c: Topology, h: History, i: NodeId, n: Node, src: NodeId, resp: RequestVoteResponse)
    requires i in c && NodeOK(c, h, i, n) && n.sm.role == Candidate
    requires MessageOK(c, h, VoteRep(src, i, resp)) && resp.voteGranted && resp.term == n.sm.currentTerm
    ensures NodeOK(c, h, i, n.(sm := n.sm.(votesReceived := n.sm.votesReceived + {src})))
  {
    hide Shaped, FromReign, ProposedAt;
  }

  lemma VoteResponsePreserves(c: Topology, h: History, i: NodeId, n: Node, src: NodeId, resp: RequestVoteResponse)
    requires WellFormed(c) && i in c && HistoryOK(c, h) && NodeOK(c, h, i, n)
    requires MessageOK(c, h, VoteRep(src, i, resp))
    requires resp.term >= n.sm.currentTerm
    ensures Preserves(c, h, i, n, Handle(c[i], n, VoteRep(src, i, resp)))
  {
    hide HistoryOK, NodeOK, Lawful, WellFormed, MessageOK, Observe, ReplicateAll;
    var e := Handle(c[i], n, VoteRep(src, i, resp));
    if resp.term > n.sm.currentTerm {
      AdoptOK(c, h, i, n, resp.term, None);
      QuietStep(c, h, i, n, e);
    } else if resp.voteGranted && n.sm.role == Candidate {
      var n1 := n.(sm := n.sm.(votesReceived := n.sm.votesReceived + {src}));
      NewVoteOK(c, h, i, n, src, resp);
      QuietStep(c, h, i, n, Effect(n1, [], None));
      if |n1.sm.votesReceived| >= c[i].Quorum() {
        WinIsLawful(c, h, i, n, n1, e.sent);
        LawfulNode(c, h, i, n, e);
        ReplicateAllOK(c, Observe(h, i, e), i, e.node);
      }
    } else {
      QuietStep(c, h, i, n, e);
    }
  }

  // ----- proposals, commit and apply

  lemma {:induction false} PendingSplitSources(pending: seq<Pending>, commit: LogIndex, term: Term)
    ensures forall p | p in StillPending(pending, commit) :: p in pending
    ensures forall r | r in CommitReplies(pending, commit, term) ::
              r.Granted? && Pending(r.index, r.tx, r.proposedIn, r.data) in pending
              && r.index <= commit && r.repliedIn == term
  {
    if pending != [] {
      PendingSplitSources(pending[..|pending| - 1], commit, term);
    }
  }

  lemma MaybeAdvanceCommitOK(c: Topology, h: History, i: NodeId, n: Node)
    requires i in c && NodeOK(c, h, i, n)
    ensures NodeOK(c, h, i, MaybeAdvanceCommit(c[i], n))
  {
    if n.sm.role == Leader {
      var commit := CommitScan(n.log, n.sm.currentTerm, n.sm.progress, c[i].Quorum(), n.sm.commitIndex, |n.log|);
      var n1 := AdvanceTo(n, commit);
      PendingSplitSources(n.pending, n1.sm.commitIndex, n.sm.currentTerm);
      assert ClientsOK(h, i, ReplyCommitted(n1)) by {
        forall r | r in ReplyCommitted(n1).replies && r.Granted?
          ensures ProposedAt(h, i, r.index, r.proposedIn, r.data)
        {
          if r !in n.replies {
            assert Pending(r.index, r.tx, r.proposedIn, r.data) in n.pending;
          }
        }
      }
    }
  }

  lemma ApplyFacts(n: Node)
    ensures var n' := ApplyCommitted(n);
            && n'.log == n.log && n'.hard == n.hard && n'.pending == n.pending && n'.replies == n.replies
            && n'.sm == n.sm.(lastApplied := n'.sm.lastApplied)
  {
  }

  lemma HeartbeatPreserves(c: Topology, h: History, i: NodeId, n: Node)
    requires WellFormed(c) && i in c && HistoryOK(c, h) && NodeOK(c, h, i, n)
    ensures Preserves(c, h, i, n, Act(c[i], n, Beat(i)))
  {
    var e := Act(c[i], n, Beat(i));
    hide HistoryOK, NodeOK, WellFormed, Lawful, Observe, MaybeAdvanceCommit, ApplyCommitted, ReplicateAll, MessageOK,
      StartElection, OnProposal, Handle, Restart;
    MaybeAdvanceCommitOK(c, h, i, n);
    ApplyFacts(MaybeAdvanceCommit(c[i], n));
    NodeOKFrame(c, h, i, MaybeAdvanceCommit(c[i], n), e.node);
    MaybeAdvanceFacts(c[i], n);
    QuietStep(c, h, i, n, e);
    ReplicateAllOK(c, h, i, n);
  }

  lemma ProposalIsLawful(c: Topology, h: History, i: NodeId, n: Node, p: Proposal, sent: seq<Message>)
    requires WellFormed(c) && i in c && HistoryOK(c, h) && NodeOK(c, h, i, n) && n.sm.role == Leader
    ensures Lawful(c, h, i, n, Effect(OnProposal(c[i], n, p).0, sent, None))
  {
    hide HistoryOK, NodeOK, Past, WellFormed, ReplicateAll, ReignOK;
    var n' := OnProposal(c[i], n, p).0;
    NodeParts(c, h, i, n);
    KnownVote(c, h, i, n);
    assert LawfulLog(h, i, n') by {
      forall k | 0 <= k < |n.log| ensures FromReign(h, n'.log, k) {
        assert FromReign(h, n.log, k);
      }
    }
    assert LawfulClients(h, i, n') by {
      hide FromReign, Shaped, LawfulLog;
    }
    hide FromReign, Shaped, LawfulLog, LawfulClients, ClientsOK;
  }

  lemma RefusalPreserves(c: Topology, h: History, i: NodeId, n: Node, p: Proposal)
    requires WellFormed(c) && i in c && HistoryOK(c, h) && NodeOK(c, h, i, n) && n.sm.role != Leader
    ensures Preserves(c, h, i, n, Act(c[i], n, Propose(i, p)))
  {
    hide NodeOK, HistoryOK, Lawful;
    var e := Act(c[i], n, Propose(i, p));
    NodeOKFrame(c, h, i, n, e.node);
    QuietStep(c, h, i, n, e);
  }

  lemma ProposalPreserves(c: Topology, h: History, i: NodeId, n: Node, p: Proposal)
    requires WellFormed(c) && i in c && HistoryOK(c, h) && NodeOK(c, h, i, n)
    ensures Preserves(c, h, i, n, Act(c[i], n, Propose(i, p)))
  {
    hide HistoryOK, NodeOK, Lawful, WellFormed, MessageOK, Observe, ReplicateAll;
    if n.sm.role != Leader {
      RefusalPreserves(c, h, i, n, p);
    } else {
      var e := Act(c[i], n, Propose(i, p));
      ProposalIsLawful(c, h, i, n, p, e.sent);
      LawfulNode(c, h, i, n, e);
      ReplicateAllOK(c, Observe(h, i, e), i, e.node);
    }
  }

  // ----- replication

  /** The consistency check implies agreement on everything up to it. */
  lemma AcceptedPrefixAgrees(c: Topology, h: History, n: Node, req: AppendEntriesRequest, i: NodeId)
    requires HistoryOK(c, h) && Sourced(h, n.log) && Shaped(n.log, n.sm.currentTerm)
    requires AppendReqOK(h, i, req) && Accepts(n, req)
    ensures Agree(n.log, h.leaders[req.term].log, req.prevLogIndex)
  {
    var prev, leaderLog := req.prevLogIndex, h.leaders[req.term].log;
    if prev > 0 {
      assert ReignOK(c, h, req.term);
      assert FromReign(h, n.log, prev - 1);
      assert FromReign(h, leaderLog, prev - 1);
    }
  }

  lemma SpliceNothing(log: seq<LogEntry>)
    ensures Splice(log, []) == log
  {
  }

  lemma SpliceAt(log: seq<LogEntry>, batch: seq<LogEntry>, prev: nat)
    requires batch != [] && batch[0].index == prev + 1 && prev <= |log|
    ensures Splice(log, batch) == log[..prev] + batch
  {
    assert log[..|log|] == log;
  }

  lemma SpliceExtendsPrefix(log: seq<LogEntry>, leaderLog: seq<LogEntry>, prev: nat, batch: seq<LogEntry>)
    requires Agree(log, leaderLog, prev) && prev + |batch| <= |leaderLog|
    requires forall j | 0 <= j < |batch| :: batch[j] == leaderLog[prev + j]
    requires forall j | 0 <= j < |leaderLog| :: leaderLog[j].index == j + 1
    ensures Agree(Splice(log, batch), leaderLog, prev + |batch|)
    ensures batch != [] ==> Splice(log, batch) == leaderLog[..prev + |batch|]
  {
    assert log[..prev] == leaderLog[..prev];
    assert batch == leaderLog[prev..prev + |batch|];
    assert log[..prev] + batch == leaderLog[..prev + |batch|];
    if batch != [] {
      SpliceAt(log, batch, prev);
    }
  }

  lemma LeaderLogIsContiguous(c: Topology, h: History, t: Term)
    requires HistoryOK(c, h) && t in h.leaders
    ensures forall j | 0 <= j < |h.leaders[t].log| :: h.leaders[t].log[j].index == j + 1
  {
    ReignParts(c, h, t);
    hide HistoryOK, Sourced, IsQuorum;
  }

  /** An accepted request leaves the follower with the leader's prefix. */
  lemma SpliceFollowsLeader(c: Topology, h: History, n: Node, req: AppendEntriesRequest, i: NodeId)
    requires HistoryOK(c, h) && Sourced(h, n.log) && Shaped(n.log, n.sm.currentTerm)
    requires AppendReqOK(h, i, req) && Accepts(n, req)
    ensures var log, leaderLog := Splice(n.log, req.entries), h.leaders[req.term].log;
            && Agree(log, leaderLog, req.LastIndex())
            && (req.entries != [] ==> log == leaderLog[..req.LastIndex()])
  {
    hide HistoryOK, Sourced, Shaped, Splice, Accepts, Agree, TermOf;
    LeaderLogIsContiguous(c, h, req.term);
    AcceptedPrefixAgrees(c, h, n, req, i);
    SpliceExtendsPrefix(n.log, h.leaders[req.term].log, req.prevLogIndex, req.entries);
  }

  lemma PrefixSourced(h: History, log: seq<LogEntry>, k: nat, term: Term)
    requires k <= |log| && Sourced(h, log) && Shaped(log, term)
    ensures Sourced(h, log[..k]) && Shaped(log[..k], term)
  {
    forall j | 0 <= j < k ensures FromReign(h, log[..k], j) {
      assert FromReign(h, log, j);
    }
  }

  lemma LastIndexOfShaped(log: seq<LogEntry>, term: Term)
    requires Shaped(log, term)
    ensures LastIndexOf(log) == |log|
  {
  }

  /** The last index that the commit advance reads is the length of the log. */
  lemma SplicedLastIndex(c: Topology, h: History, i: NodeId, n: Node, req: AppendEntriesRequest)
    requires i in c && HistoryOK(c, h) && NodeOK(c, h, i, n) && AppendReqOK(h, i, req) && Accepts(n, req)
    ensures LastIndexOf(Splice(n.log, req.entries)) == |Splice(n.log, req.entries)|
  {
    hide HistoryOK, NodeOK, Shaped, Splice, LastIndexOf, Accepts;
    NodeParts(c, h, i, n);
    ReignParts(c, h, req.term);
    SpliceFollowsLeader(c, h, n, req, i);
    SpliceNothing(n.log);
    if req.entries != [] {
      PrefixSourced(h, h.leaders[req.term].log, req.LastIndex(), req.term);
      LastIndexOfShaped(h.leaders[req.term].log[..req.LastIndex()], req.term);
    } else {
      LastIndexOfShaped(n.log, n.sm.currentTerm);
    }
  }

  lemma AcceptedLogIsLawful(c: Topology, h: History, i: NodeId, n: Node, req: AppendEntriesRequest)
    requires WellFormed(c) && i in c && HistoryOK(c, h) && NodeOK(c, h, i, n)
    requires AppendReqOK(h, i, req) && Accepts(n, req) && req.term == n.sm.currentTerm
    ensures LawfulLog(h, i, Accept(n, req))
  {
    hide HistoryOK, NodeOK, Past, WellFormed, RoleOK, ClientsOK, Shaped, FromReign, Splice, TermOf, Agree, IsQuorum;
    NodeParts(c, h, i, n);
    ReignParts(c, h, req.term);
    SpliceFollowsLeader(c, h, n, req, i);
    SpliceNothing(n.log);
    if req.entries != [] {
      PrefixSourced(h, h.leaders[req.term].log, req.LastIndex(), req.term);
    }
  }

  lemma AcceptIsLawful(c: Topology, h: History, i: NodeId, n: Node, req: AppendEntriesRequest, sent: seq<Message>)
    requires WellFormed(c) && i in c && HistoryOK(c, h) && NodeOK(c, h, i, n)
    requires AppendReqOK(h, i, req) && Accepts(n, req) && req.term == n.sm.currentTerm
    ensures Lawful(c, h, i, n, Effect(Accept(n, req), sent, Some(req.LastIndex())))
  {
    hide HistoryOK, NodeOK, Past, WellFormed, Splice, Sourced, Shaped, LawfulLog, Accepts, FromReign;
    NodeParts(c, h, i, n);
    KnownVote(c, h, i, n);
    AcceptedLogIsLawful(c, h, i, n, req);
  }

  ghost predicate FromAppend(e: Effect, i: NodeId, req: AppendEntriesRequest) {
    && |e.sent| == 1 && e.sent[0].AppendRep? && e.sent[0].src == i && e.sent[0].dst == req.leaderId
    && e.sent[0].reqLastIndex == req.LastIndex()
    && e.sent[0].appendResp.success == e.ack.Some?
  }

  /** Either the request is rejected, with a hint no larger than its `prevLogIndex` if its term is current,
      or it is accepted in the node's new term. */
  lemma AppendOutcome(cfg: RaftConfig, n: Node, req: AppendEntriesRequest)
    ensures var e := Handle(cfg, n, AppendReq(cfg.id, req));
            var n1 := Adopt(n, req.term, Some(req.leaderId));
            var n2 := n1.(sm := n1.sm.(leaderId := Some(req.leaderId)));
            var resp := e.sent[0].appendResp;
            && FromAppend(e, cfg.id, req)
            && (e.ack == None ==>
                  && (e.node == n1 || e.node == n2)
                  && (resp.conflictIndex > 0 ==> resp.conflictIndex <= req.prevLogIndex && resp.term == req.term))
            && (e.ack != None ==>
                  && e.node == Accept(n2, req) && e.ack == Some(req.LastIndex())
                  && Accepts(n2, req) && req.term == n2.sm.currentTerm == resp.term)
  {
    hide Accept;
  }

  lemma AcknowledgementOK(h: History, i: NodeId, e: Effect, req: AppendEntriesRequest)
    requires AppendReqOK(h, i, req) && FromAppend(e, i, req) && e.ack == Some(req.LastIndex())
    requires e.node.sm.currentTerm == req.term == e.sent[0].appendResp.term && e.node.sm.role != Leader
    ensures AppendRepOK(Observe(h, i, e), i, req.leaderId, req.LastIndex(), e.sent[0].appendResp)
  {
  }

  lemma AppendReplySuffices(c: Topology, h: History, i: NodeId, n: Node, req: AppendEntriesRequest, e: Effect)
    requires i in c && Lawful(c, h, i, n, e) && req.leaderId in c && FromAppend(e, i, req)
    requires AppendRepOK(Observe(h, i, e), i, req.leaderId, req.LastIndex(), e.sent[0].appendResp)
    ensures Preserves(c, h, i, n, e)
  {
    hide Lawful, AppendRepOK, Observe;
  }

  lemma RejectPreserves(c: Topology, h: History, i: NodeId, n: Node, req: AppendEntriesRequest, e: Effect)
    requires WellFormed(c) && i in c && HistoryOK(c, h) && NodeOK(c, h, i, n)
    requires AppendReqOK(h, i, req) && req.leaderId in c && FromAppend(e, i, req) && e.ack == None
    requires e.node == n || e.node == n.(sm := n.sm.(leaderId := Some(req.leaderId)))
    requires var resp := e.sent[0].appendResp;
             resp.conflictIndex > 0 ==> resp.conflictIndex <= req.prevLogIndex && resp.term == req.term
    ensures Preserves(c, h, i, n, e)
  {
    assert AppendRepOK(h, i, req.leaderId, req.LastIndex(), e.sent[0].appendResp);
    hide HistoryOK, NodeOK, Lawful, WellFormed, AppendReqOK, AppendRepOK, Observe;
    NodeOKFrame(c, h, i, n, e.node);
    QuietStep(c, h, i, n, e);
    AppendReplySuffices(c, h, i, n, req, e);
  }

  lemma AcceptPreserves(c: Topology, h: History, i: NodeId, n: Node, req: AppendEntriesRequest, e: Effect)
    requires WellFormed(c) && i in c && HistoryOK(c, h) && NodeOK(c, h, i, n)
    requires AppendReqOK(h, i, req) && req.leaderId in c && Accepts(n, req) && req.term == n.sm.currentTerm
    requires FromAppend(e, i, req) && e.node == Accept(n, req) && e.ack == Some(req.LastIndex())
    requires e.sent[0].appendResp.term == req.term
    ensures Preserves(c, h, i, n, e)
  {
    hide HistoryOK, NodeOK, Lawful, Accept, WellFormed, AppendReqOK, AppendRepOK, Observe, Accepts;
    AcceptIsLawful(c, h, i, n, req, e.sent);
    AcceptFacts(n, req);
    NotThatLeader(c, h, i, n, req);
    AcknowledgementOK(h, i, e, req);
    AppendReplySuffices(c, h, i, n, req, e);
  }

  lemma AppendEntriesPreserves(c: Topology, h: History, i: NodeId, n: Node, req: AppendEntriesRequest)
    requires WellFormed(c) && i in c && HistoryOK(c, h) && NodeOK(c, h, i, n)
    requires AppendReqOK(h, i, req)
    ensures Preserves(c, h, i, n, Handle(c[i], n, AppendReq(i, req)))
  {
    assert c[i].id == i;
    assert req.leaderId in c by {
      ReignParts(c, h, req.term);
    }
    hide HistoryOK, NodeOK, Accept, WellFormed, Adopt, AppendReqOK, Preserves, Accepts, OnAppendEntries, Handle;
    AppendOutcome(c[i], n, req);
    var e := Handle(c[i], n, AppendReq(i, req));
    var n1 := Adopt(n, req.term, Some(req.leaderId));
    AdoptOK(c, h, i, n, req.term, Some(req.leaderId));
    if e.ack == None {
      RejectPreserves(c, h, i, n1, req, e);
    } else {
      var n2 := n1.(sm := n1.sm.(leaderId := Some(req.leaderId)));
      NodeOKFrame(c, h, i, n1, n2);
      AcceptPreserves(c, h, i, n2, req, e);
      AfterLeaderId(c, h, i, n1, req.leaderId, e);
    }
    AfterAdopt(c, h, i, n, req.term, Some(req.leaderId), e);
  }

  lemma NotThatLeader(c: Topology, h: History, i: NodeId, n: Node, req: AppendEntriesRequest)
    requires i in c && NodeOK(c, h, i, n) && AppendReqOK(h, i, req) && req.term == n.sm.currentTerm
    ensures n.sm.role != Leader
  {
  }

  lemma AcceptFacts(n: Node, req: AppendEntriesRequest)
    ensures Accept(n, req).sm.currentTerm == n.sm.currentTerm
    ensures Accept(n, req).sm.role == n.sm.role
  {
  }

  lemma AfterLeaderId(c: Topology, h: History, i: NodeId, n: Node, leader: NodeId, e: Effect)
    requires i in c && Preserves(c, h, i, n.(sm := n.sm.(leaderId := Some(leader))), e)
    ensures Preserves(c, h, i, n, e)
  {
  }

  lemma UpdateProgressInBounds(p: Progress, reqLast: LogIndex, resp: AppendEntriesResponse, ack: nat, len: nat)
    requires p.nextIndex <= len + 1 && p.matchIndex <= ack <= len
    requires if resp.success then reqLast <= ack else resp.conflictIndex <= len
    ensures var p' := UpdateProgress(p, reqLast, resp); p'.nextIndex <= len + 1 && p'.matchIndex <= ack
  {
  }

  lemma NewProgressOK(c: Topology, h: History, i: NodeId, n: Node, n': Node)
    requires i in c && NodeOK(c, h, i, n) && RoleOK(c, h, i, n')
    requires n' == n.(sm := n.sm.(progress := n'.sm.progress))
    ensures NodeOK(c, h, i, n')
  {
    hide RoleOK, Shaped, FromReign;
  }

  lemma UpdateProgressOK(c: Topology, h: History, i: NodeId, n: Node, src: NodeId, reqLast: LogIndex,
                         resp: AppendEntriesResponse)
    requires i in c && HistoryOK(c, h) && NodeOK(c, h, i, n) && n.sm.role == Leader
    requires AppendRepOK(h, src, i, reqLast, resp) && resp.term == n.sm.currentTerm
    requires src in n.sm.progress
    ensures NodeOK(c, h, i, n.(sm := n.sm.(progress :=
                                       n.sm.progress[src := UpdateProgress(n.sm.progress[src], reqLast, resp)])))
  {
    NodeParts(c, h, i, n);
    var n1 := n.(sm := n.sm.(progress := n.sm.progress[src := UpdateProgress(n.sm.progress[src], reqLast, resp)]));
    assert AckOf(h, n.sm.currentTerm, src) <= |n.log|;
    UpdateProgressInBounds(n.sm.progress[src], reqLast, resp, AckOf(h, n.sm.currentTerm, src), |n.log|);
    hide HistoryOK, Past, Sourced, Shaped, ClientsOK, UpdateProgress, AckOf, NodeOK;
    assert RoleOK(c, h, i, n1);
    NewProgressOK(c, h, i, n, n1);
  }

  lemma AppendResponsePreserves(c: Topology, h: History, i: NodeId, n: Node, src: NodeId, reqLast: LogIndex,
                                resp: AppendEntriesResponse)
    requires WellFormed(c) && i in c && HistoryOK(c, h) && NodeOK(c, h, i, n)
    requires AppendRepOK(h, src, i, reqLast, resp)
    requires resp.term >= n.sm.currentTerm
    ensures Preserves(c, h, i, n, Handle(c[i], n, AppendRep(src, i, reqLast, resp)))
  {
    hide HistoryOK, NodeOK, Lawful, WellFormed, AppendRepOK, MaybeAdvanceCommit, UpdateProgress;
    var e := Handle(c[i], n, AppendRep(src, i, reqLast, resp));
    if resp.term > n.sm.currentTerm {
      AdoptOK(c, h, i, n, resp.term, None);
    } else if n.sm.role == Leader {
      var n1 := if src in n.sm.progress then
                  n.(sm := n.sm.(progress :=
                  n.sm.progress[src := UpdateProgress(n.sm.progress[src], reqLast, resp)]))
                else n;
      if src in n.sm.progress {
        UpdateProgressOK(c, h, i, n, src, reqLast, resp);
      }
      MaybeAdvanceCommitOK(c, h, i, n1);
      MaybeAdvanceFacts(c[i], n1);
    }
    QuietStep(c, h, i, n, e);
  }

  lemma MaybeAdvanceFacts(cfg: RaftConfig, n: Node)
    ensures var n' := MaybeAdvanceCommit(cfg, n);
            && n'.log == n.log
            && n'.sm == n.sm.(commitIndex := n'.sm.commitIndex)
  {
  }

  // ----- every step, every run

  lemma ActPreserves(c: Topology, s: State, step: Step)
    requires WellFormed(c) && Inv1(c, s) && Enabled(c, s, step) && MeetsH1(s, step)
    ensures var i := Actor(step); Preserves(c, s.history, i, s.nodes[i], Act(c[i], s.nodes[i], step))
  {
    var i, h := Actor(step), s.history;
    var n := s.nodes[i];
    match step
    case Timeout(_) => StartElectionPreserves(c, h, i, n);
    case Beat(_) => HeartbeatPreserves(c, h, i, n);
    case Propose(_, p) => ProposalPreserves(c, h, i, n, p);
    case Crash(_) => CrashPreserves(c, h, i, n);
    case Deliver(m) =>
      assert MessageOK(c, h, m);
      match m
      case VoteReq(_, req) => RequestVotePreserves(c, h, i, n, req);
      case VoteRep(src, _, resp) => VoteResponsePreserves(c, h, i, n, src, resp);
      case AppendReq(_, req) => AppendEntriesPreserves(c, h, i, n, req);
      case AppendRep(src, _, reqLast, resp) => AppendResponsePreserves(c, h, i, n, src, reqLast, resp);
  }

  lemma NodesStable(c: Topology, s: State, i: NodeId, e: Effect)
    requires Inv1(c, s) && i in c && Lawful(c, s.history, i, s.nodes[i], e)
    ensures forall j | j in c :: NodeOK(c, Observe(s.history, i, e), j, if j == i then e.node else s.nodes[j])
  {
    hide NodeOK, MessageOK, HistoryOK, Observe, Lawful, Extends;
    var h := s.history;
    var h', t := Observe(h, i, e), e.node.sm.currentTerm;
    LawfulExtends(c, h, i, s.nodes[i], e);
    LawfulNode(c, h, i, s.nodes[i], e);
    forall j | j in c && j != i
      ensures NodeOK(c, h', j, s.nodes[j])
    {
      OtherNodeStable(c, h, h', i, t, j, s.nodes[j]);
    }
  }

  lemma NetStable(c: Topology, s: State, i: NodeId, e: Effect)
    requires Inv1(c, s) && i in c && Preserves(c, s.history, i, s.nodes[i], e)
    ensures forall m | m in s.net || m in e.sent :: MessageOK(c, Observe(s.history, i, e), m)
  {
    hide NodeOK, MessageOK, HistoryOK, Observe, Lawful, Extends;
    var h := s.history;
    LawfulExtends(c, h, i, s.nodes[i], e);
    forall m | m in s.net
      ensures MessageOK(c, Observe(h, i, e), m)
    {
      MessageStable(c, h, Observe(h, i, e), i, e.node.sm.currentTerm, m);
    }
  }

  lemma StepKeepsInv1(c: Topology, s: State, i: NodeId, e: Effect)
    requires Inv1(c, s) && i in c && Preserves(c, s.history, i, s.nodes[i], e)
    ensures Inv1(c, State(s.nodes[i := e.node], s.net + (set m | m in e.sent), Observe(s.history, i, e)))
    ensures Extends(s.history, Observe(s.history, i, e), i, e.node.sm.currentTerm)
  {
    hide NodeOK, MessageOK, HistoryOK, Observe, Lawful, Extends;
    NodesStable(c, s, i, e);
    NetStable(c, s, i, e);
    LawfulHistory(c, s.history, i, s.nodes[i], e);
    LawfulExtends(c, s.history, i, s.nodes[i], e);
  }

  lemma NextPreservesInv1(c: Topology, s: State, step: Step)
    requires WellFormed(c) && Inv1(c, s) && Enabled(c, s, step) && MeetsH1(s, step)
    ensures Inv1(c, Next(c, s, step))
    ensures Extends(s.history, Next(c, s, step).history, Actor(step),
                    Next(c, s, step).nodes[Actor(step)].sm.currentTerm)
  {
    hide Inv1, Extends, Preserves, Observe, Act, MeetsH1;
    ActPreserves(c, s, step);
    StepKeepsInv1(c, s, Actor(step), Act(c[Actor(step)], s.nodes[Actor(step)], step));
  }

  lemma InitSatisfiesInv1(c: Topology)
    ensures Inv1(c, Init(c))
  {
  }
}
