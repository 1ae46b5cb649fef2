/** Every reachable state of a run under H1 and H2 satisfies the safety invariant. */
module SafetyProof {
  import opened Core
  import opened NodeSpec
  import opened Cluster
  import opened Invariants
  import opened Handlers
  import opened Safety
  import opened SafeSteps

  lemma VotesBounded(c: Topology, h: History, i: NodeId, n: Node, t: Term)
    requires i in c && NodeOK(c, h, i, n) && t >= n.sm.currentTerm
    ensures VotesUpTo(h, i, t)
  {
  }

  lemma SafeNodeAfter(c: Topology, h: History, i: NodeId, n: Node, e: Effect)
    requires i in c && HistoryOK(c, h) && NodeOK(c, h, i, n) && Lawful(c, h, i, n, e)
    requires SafeEffect(c, h, i, e)
    ensures NodeOK(c, Observe(h, i, e), i, e.node) && NodeSafe(c, Observe(h, i, e), i, e.node)
  {
    assert e.node.sm.currentTerm >= n.sm.currentTerm;
    hide NodeOK, HistoryOK, Lawful, Observe, SafeEffect, NodeSafe, Extends, VotesUpTo;
    LawfulNode(c, h, i, n, e);
    LawfulExtends(c, h, i, n, e);
    VotesBounded(c, h, i, n, e.node.sm.currentTerm);
    NodeStaysSafe(c, h, i, e);
  }

  lemma CampaignWinIsSafe(c: Topology, h: History, i: NodeId, n: Node, sent: seq<Message>)
    requires WellFormed(c) && i in c && HistoryOK(c, h) && NodeOK(c, h, i, n) && NodeSafe(c, h, i, n)
    ensures SafeEffect(c, h, i, Effect(WinElection(c[i], Save(n.(sm := n.sm.BecomeCandidate(i)))), sent, None))
  {
    hide NodeOK, HistoryOK, WellFormed, NodeSafe, Kept, RoleOK, Past, FromReign;
    var n2 := WinElection(c[i], Save(n.(sm := n.sm.BecomeCandidate(i))));
    var term := n2.sm.currentTerm;
    NodeParts(c, h, i, n);
    CampaignIsSafe(c, h, i, n, sent);
    NewTermKeepsConfirmed(c, h, i, n, term);
    assert SafeWin(h, n2) by {
      forall t: Term, k: nat | t < term && OwnAt(h, t, k)
        ensures Kept(h, t, k, n2.log) || NoneConfirmed(h, t, k, n2.sm.votesReceived)
      {
        assert KeepsConfirmed(h, i, term, n.log);
      }
    }
    hide SafeWin, SafeVote, KeepsConfirmed, Committed, ReplySafe, ApplySafe;
    assert SafeConfirm(h, i, Effect(n2, sent, None));
  }

  lemma VoteRequestsAreSafe(c: Topology, h: History, cfg: RaftConfig, req: RequestVoteRequest)
    ensures forall m | m in VoteRequests(cfg, req) :: MessageSafe(c, h, m)
  {
  }

  lemma TimeoutSafely(c: Topology, h: History, i: NodeId, n: Node)
    requires WellFormed(c) && i in c && HistoryOK(c, h) && NodeOK(c, h, i, n) && NodeSafe(c, h, i, n)
    requires Preserves(c, h, i, n, Act(c[i], n, Timeout(i)))
    ensures Safely(c, h, i, Act(c[i], n, Timeout(i)))
  {
    assert c[i].id == i;
    hide NodeOK, HistoryOK, WellFormed, NodeSafe, SafeEffect, Lawful, Observe, TermOf, ReplicateAll, MessageOK,
      MessageSafe, VoteRequests, Heartbeat, OnProposal, Handle, Restart;
    var e := Act(c[i], n, Timeout(i));
    VoteRequestsAreSafe(c, Observe(h, i, e), c[i],
      RequestVoteRequest(n.sm.currentTerm + 1, i, |n.log|, TermOf(n.log, |n.log|)));
    var n1 := Save(n.(sm := n.sm.BecomeCandidate(i)));
    if |n1.sm.votesReceived| >= c[i].Quorum() {
      CampaignWinIsSafe(c, h, i, n, e.sent);
      SafeNodeAfter(c, h, i, n, e);
      ReplicateAllIsSafe(c, Observe(h, i, e), i, e.node);
    } else {
      CampaignIsSafe(c, h, i, n, e.sent);
    }
  }

  lemma BeatSafely(c: Topology, h: History, i: NodeId, n: Node)
    requires WellFormed(c) && i in c && HistoryOK(c, h) && NodeOK(c, h, i, n) && NodeSafe(c, h, i, n)
    requires Preserves(c, h, i, n, Act(c[i], n, Beat(i)))
    ensures Safely(c, h, i, Act(c[i], n, Beat(i)))
  {
    hide NodeOK, HistoryOK, WellFormed, NodeSafe, SafeEffect, Lawful, Observe, MaybeAdvanceCommit, ReplicateAll, MessageOK;
    var e := Act(c[i], n, Beat(i));
    MaybeAdvanceCommitOK(c, h, i, n);
    MaybeAdvanceFacts(c[i], n);
    MaybeAdvanceCommitIsSafe(c, h, i, n);
    ApplyIsSafe(c, h, i, MaybeAdvanceCommit(c[i], n));
    NodeOKFrame(c, h, i, MaybeAdvanceCommit(c[i], n), e.node);
    QuietIsSafe(c, h, i, e);
    QuietStep(c, h, i, n, e);
    ReplicateAllIsSafe(c, h, i, n);
  }

  lemma ProposeSafely(c: Topology, h: History, i: NodeId, n: Node, p: Proposal)
    requires WellFormed(c) && i in c && HistoryOK(c, h) && NodeOK(c, h, i, n) && NodeSafe(c, h, i, n)
    requires Preserves(c, h, i, n, Act(c[i], n, Propose(i, p)))
    ensures Safely(c, h, i, Act(c[i], n, Propose(i, p)))
  {
    hide NodeOK, HistoryOK, WellFormed, NodeSafe, SafeEffect, Lawful, Observe, ReplicateAll, MessageOK;
    var e := Act(c[i], n, Propose(i, p));
    if n.sm.role == Leader {
      ProposalIsSafe(c, h, i, n, p, e.sent);
      SafeNodeAfter(c, h, i, n, e);
      ReplicateAllIsSafe(c, Observe(h, i, e), i, e.node);
    } else {
      NodeOKFrame(c, h, i, n, e.node);
      FrameIsSafe(c, h, i, n, e.node);
      QuietIsSafe(c, h, i, e);
    }
  }

  lemma CrashSafely(c: Topology, h: History, i: NodeId, n: Node)
    requires WellFormed(c) && i in c && HistoryOK(c, h) && NodeOK(c, h, i, n) && NodeSafe(c, h, i, n)
    ensures Safely(c, h, i, Effect(Restart(n), [], None))
  {
    CrashIsSafe(c, h, i, n);
    RestartOK(c, h, i, n);
    hide NodeOK, NodeSafe, SafeEffect;
    QuietIsSafe(c, h, i, Effect(Restart(n), [], None));
  }

  lemma RequestVoteSafely(c: Topology, h: History, i: NodeId, n: Node, req: RequestVoteRequest)
    requires WellFormed(c) && i in c && HistoryOK(c, h) && LeadersSafe(h) && NodeOK(c, h, i, n) && NodeSafe(c, h, i, n)
    requires VoteReqOK(c, h, req)
    ensures Safely(c, h, i, Handle(c[i], n, VoteReq(i, req)))
  {
    hide NodeOK, HistoryOK, WellFormed, NodeSafe, SafeEffect, LeadersSafe, VoteReqOK, UpToDate, Observe;
    var e := Handle(c[i], n, VoteReq(i, req));
    var n1 := Adopt(n, req.term, None);
    AdoptOK(c, h, i, n, req.term, None);
    AdoptIsSafe(c, h, i, n, req.term, None);
    if e.sent[0].voteResp.voteGranted {
      GrantIsSafe(c, h, i, n1, req, e.sent);
    } else {
      QuietIsSafe(c, h, i, e);
    }
  }

  lemma VoteResponseSafely(c: Topology, h: History, i: NodeId, n: Node, src: NodeId, resp: RequestVoteResponse)
    requires WellFormed(c) && i in c && HistoryOK(c, h) && VotesSafe(h) && NodeOK(c, h, i, n) && NodeSafe(c, h, i, n)
    requires MessageOK(c, h, VoteRep(src, i, resp)) && resp.term >= n.sm.currentTerm
    requires Preserves(c, h, i, n, Handle(c[i], n, VoteRep(src, i, resp)))
    ensures Safely(c, h, i, Handle(c[i], n, VoteRep(src, i, resp)))
  {
    hide NodeOK, HistoryOK, WellFormed, NodeSafe, SafeEffect, VotesSafe, Lawful, Observe, ReplicateAll, MessageOK;
    var e := Handle(c[i], n, VoteRep(src, i, resp));
    if resp.term > n.sm.currentTerm {
      AdoptOK(c, h, i, n, resp.term, None);
      AdoptIsSafe(c, h, i, n, resp.term, None);
      QuietIsSafe(c, h, i, e);
    } else if resp.voteGranted && n.sm.role == Candidate {
      var n1 := n.(sm := n.sm.(votesReceived := n.sm.votesReceived + {src}));
      NewVoteOK(c, h, i, n, src, resp);
      FrameIsSafe(c, h, i, n, n1);
      if |n1.sm.votesReceived| >= c[i].Quorum() {
        QuietStep(c, h, i, n, Effect(n1, [], None));
        WinnerIsFirst(c, h, i, n, n1);
        WinIsSafe(c, h, i, n1, e.sent);
        SafeNodeAfter(c, h, i, n, e);
        ReplicateAllIsSafe(c, Observe(h, i, e), i, e.node);
      } else {
        QuietIsSafe(c, h, i, e);
      }
    } else {
      QuietIsSafe(c, h, i, e);
    }
  }

  lemma AppendEntriesSafely(c: Topology, h: History, i: NodeId, n: Node, req: AppendEntriesRequest)
    requires WellFormed(c) && i in c && HistoryOK(c, h) && LeadersSafe(h) && NodeOK(c, h, i, n) && NodeSafe(c, h, i, n)
    requires AppendReqOK(h, i, req) && MessageSafe(c, h, AppendReq(i, req))
    requires KeepsAgreement(n, req, h.leaders[req.term].log)
    ensures Safely(c, h, i, Handle(c[i], n, AppendReq(i, req)))
  {
    assert c[i].id == i;
    var n1 := Adopt(n, req.term, Some(req.leaderId));
    var n2 := n1.(sm := n1.sm.(leaderId := Some(req.leaderId)));
    assert n2.log == n.log;
    assert Accepts(n2, req) ==> KeepsAgreement(n2, req, h.leaders[req.term].log);
    hide NodeOK, HistoryOK, WellFormed, NodeSafe, SafeEffect, LeadersSafe, AppendReqOK, MessageSafe, KeepsAgreement,
      Accept, Accepts, Adopt, OnAppendEntries, Handle, Observe;
    AppendOutcome(c[i], n, req);
    var e := Handle(c[i], n, AppendReq(i, req));
    AdoptOK(c, h, i, n, req.term, Some(req.leaderId));
    AdoptIsSafe(c, h, i, n, req.term, Some(req.leaderId));
    NodeOKFrame(c, h, i, n1, n2);
    FrameIsSafe(c, h, i, n1, n2);
    if e.ack == None {
      QuietIsSafe(c, h, i, e);
    } else {
      AcceptIsSafe(c, h, i, n2, req, e.sent);
    }
    RepliesAreNotRequests(c, h, i, e, req);
  }

  lemma RepliesAreNotRequests(c: Topology, h: History, i: NodeId, e: Effect, req: AppendEntriesRequest)
    requires SafeEffect(c, h, i, e) && FromAppend(e, i, req)
    ensures Safely(c, h, i, e)
  {
    hide SafeEffect, Observe;
  }

  lemma AppendResponseSafely(c: Topology, h: History, i: NodeId, n: Node, src: NodeId, reqLast: LogIndex,
                             resp: AppendEntriesResponse)
    requires WellFormed(c) && i in c && HistoryOK(c, h) && NodeOK(c, h, i, n) && NodeSafe(c, h, i, n)
    requires AppendRepOK(h, src, i, reqLast, resp) && resp.term >= n.sm.currentTerm
    ensures Safely(c, h, i, Handle(c[i], n, AppendRep(src, i, reqLast, resp)))
  {
    hide NodeOK, HistoryOK, WellFormed, NodeSafe, SafeEffect, AppendRepOK, MaybeAdvanceCommit, UpdateProgress, Observe;
    var e := Handle(c[i], n, AppendRep(src, i, reqLast, resp));
    if resp.term > n.sm.currentTerm {
      AdoptOK(c, h, i, n, resp.term, None);
      AdoptIsSafe(c, h, i, n, resp.term, None);
    } else if n.sm.role == Leader {
      var n1 := if src in n.sm.progress then
                  n.(sm := n.sm.(progress :=
                  n.sm.progress[src := UpdateProgress(n.sm.progress[src], reqLast, resp)]))
                else n;
      if src in n.sm.progress {
        UpdateProgressOK(c, h, i, n, src, reqLast, resp);
      }
      FrameIsSafe(c, h, i, n, n1);
      MaybeAdvanceCommitOK(c, h, i, n1);
      MaybeAdvanceCommitIsSafe(c, h, i, n1);
    }
    QuietIsSafe(c, h, i, e);
  }

  // ----- every step

  lemma DeliverSafely(c: Topology, h: History, i: NodeId, n: Node, m: Message)
    requires WellFormed(c) && i in c && HistoryOK(c, h) && LeadersSafe(h) && VotesSafe(h)
    requires NodeOK(c, h, i, n) && NodeSafe(c, h, i, n)
    requires m.dst == i && MessageOK(c, h, m) && MessageSafe(c, h, m)
    requires m.VoteRep? ==> m.voteResp.term >= n.sm.currentTerm
    requires m.AppendRep? ==> m.appendResp.term >= n.sm.currentTerm
    requires m.AppendReq? && m.appendReq.term in h.leaders ==>
               KeepsAgreement(n, m.appendReq, h.leaders[m.appendReq.term].log)
    requires Preserves(c, h, i, n, Handle(c[i], n, m))
    ensures Safely(c, h, i, Handle(c[i], n, m))
  {
    hide NodeOK, HistoryOK, WellFormed, NodeSafe, Preserves, Safely, LeadersSafe, VotesSafe, KeepsAgreement, Handle,
      MessageSafe;
    match m
    case VoteReq(_, req) => RequestVoteSafely(c, h, i, n, req);
    case VoteRep(src, _, resp) => VoteResponseSafely(c, h, i, n, src, resp);
    case AppendReq(_, req) => AppendEntriesSafely(c, h, i, n, req);
    case AppendRep(src, _, reqLast, resp) => AppendResponseSafely(c, h, i, n, src, reqLast, resp);
  }

  lemma StateParts(c: Topology, s: State, step: Step)
    requires Inv1(c, s) && Inv2(c, s) && Enabled(c, s, step)
    ensures var i := Actor(step);
            && i in c && i in s.nodes && HistoryOK(c, s.history) && LeadersSafe(s.history) && VotesSafe(s.history)
            && NodeOK(c, s.history, i, s.nodes[i]) && NodeSafe(c, s.history, i, s.nodes[i])
            && (step.Deliver? ==> MessageOK(c, s.history, step.message) && MessageSafe(c, s.history, step.message))
  {
    hide NodeOK, HistoryOK, NodeSafe, MessageOK, MessageSafe, LeadersSafe, VotesSafe;
  }

  lemma ActSafely(c: Topology, s: State, step: Step)
    requires WellFormed(c) && Inv1(c, s) && Inv2(c, s) && Enabled(c, s, step) && MeetsH1(s, step) && MeetsH2(s, step)
    requires var i := Actor(step); Preserves(c, s.history, i, s.nodes[i], Act(c[i], s.nodes[i], step))
    ensures var i := Actor(step); Safely(c, s.history, i, Act(c[i], s.nodes[i], step))
  {
    hide Inv1, Inv2, NodeOK, HistoryOK, WellFormed, NodeSafe, Preserves, Safely, LeadersSafe, VotesSafe, KeepsAgreement,
      Handle, MessageOK, MessageSafe, Heartbeat, StartElection, OnProposal, Restart;
    StateParts(c, s, step);
    var i, h := Actor(step), s.history;
    var n := s.nodes[i];
    match step
    case Timeout(_) => TimeoutSafely(c, h, i, n);
    case Beat(_) => BeatSafely(c, h, i, n);
    case Propose(_, p) => ProposeSafely(c, h, i, n, p);
    case Crash(_) => CrashSafely(c, h, i, n);
    case Deliver(m) => DeliverSafely(c, h, i, n, m);
  }

  lemma StepParts(c: Topology, h: History, i: NodeId, n: Node, e: Effect)
    requires i in c && Lawful(c, h, i, n, e) && SafeEffect(c, h, i, e)
    ensures e.node.sm.currentTerm >= n.sm.currentTerm && SafeWin(h, e.node) && SafeVote(h, i, e.node)
  {
  }

  lemma StepKeepsInv2(c: Topology, s: State, i: NodeId, e: Effect)
    requires Inv1(c, s) && Inv2(c, s) && i in c
    requires Preserves(c, s.history, i, s.nodes[i], e) && Safely(c, s.history, i, e)
    ensures Inv2(c, State(s.nodes[i := e.node], s.net + (set m | m in e.sent), Observe(s.history, i, e)))
  {
    hide NodeOK, HistoryOK, Lawful, Observe, Extends, NodeSafe, MessageOK, MessageSafe, LeadersSafe, VotesSafe,
      SafeWin, SafeVote, SafeEffect, VotesUpTo;
    var h, h', t := s.history, Observe(s.history, i, e), e.node.sm.currentTerm;
    StepParts(c, h, i, s.nodes[i], e);
    LawfulExtends(c, h, i, s.nodes[i], e);
    VotesBounded(c, h, i, s.nodes[i], t);
    LeadersStaySafe(c, h, i, e);
    VotesStaySafe(c, h, i, e);
    NodeStaysSafe(c, h, i, e);
    forall j | j in c && j != i ensures NodeSafe(c, h', j, s.nodes[j]) {
      OtherNodeStaysSafe(c, h, h', i, t, j, s.nodes[j]);
    }
    forall m | m in s.net ensures MessageSafe(c, h', m) {
      MessageStaysSafe(c, h, h', i, t, m);
    }
  }

  lemma NextPreservesInv2(c: Topology, s: State, step: Step)
    requires WellFormed(c) && Inv1(c, s) && Inv2(c, s) && Enabled(c, s, step) && MeetsH1(s, step) && MeetsH2(s, step)
    ensures Inv2(c, Next(c, s, step))
  {
    hide Inv2, Preserves, Safely, Observe, Act, MeetsH1, MeetsH2, WellFormed;
    ActPreserves(c, s, step);
    ActSafely(c, s, step);
    assert Actor(step) in c;
    StepKeepsInv2(c, s, Actor(step), Act(c[Actor(step)], s.nodes[Actor(step)], step));
  }

  lemma InitSatisfiesInv2(c: Topology)
    ensures Inv2(c, Init(c))
  {
  }
}
