/** Short runs of three nodes: two break exactly one hypothesis and show that it is needed; the last breaks neither and
    shows what an `Ok` may still get wrong. */
module Witness {
  import opened Core
  import opened NodeSpec
  import opened Cluster
  import opened Theorems
  import opened Runs

  function ThreeNodes(): Topology {
    map[1 := RaftConfig(1, [2, 3], 1), 2 := RaftConfig(2, [1, 3], 1), 3 := RaftConfig(3, [1, 2], 1)]
  }

  lemma TwoPeers(cfg: RaftConfig, a: NodeId, b: NodeId)
    requires cfg.peers == [a, b]
    ensures cfg.Members() == {cfg.id, a, b}
  {
    assert forall p | p in cfg.peers :: p == a || p == b;
    assert cfg.peers[0] == a && cfg.peers[1] == b;
  }

  lemma ThreeNodesAreWellFormed()
    ensures WellFormed(ThreeNodes())
  {
    var c := ThreeNodes();
    assert c.Keys == {1, 2, 3};
    TwoPeers(c[1], 2, 3);
    TwoPeers(c[2], 1, 3);
    TwoPeers(c[3], 1, 2);
  }

  lemma Start() returns (t: Trace)
    ensures t.Valid(ThreeNodes()) && RunMeetsH1(t.ss, t.steps) && RunMeetsH2(t.ss, t.steps)
    ensures var nodes := t.Last().nodes; nodes[1] == FRESH_NODE && nodes[2] == FRESH_NODE && nodes[3] == FRESH_NODE
  {
    ThreeNodesAreWellFormed();
    t := Begin(ThreeNodes());
  }

  /** In a cluster of three one granted vote beside its own makes a candidate leader. */
  lemma WinsOfThree(i: NodeId, n: Node, src: NodeId, term: Term)
    requires i in {1, 2, 3} && src != i && term <= n.sm.currentTerm
    requires n.sm.role == Candidate && n.sm.votesReceived == {i}
    ensures var e := Act(ThreeNodes()[i], n, Deliver(VoteRep(src, i, RequestVoteResponse(term, true))));
            && e.node.sm.role == Leader && e.node.sm.currentTerm == n.sm.currentTerm
            && e.node.sm.commitIndex == n.sm.commitIndex
            && e.node.sm.progress.Keys == {1, 2, 3} - {i}
            && (forall p | p in e.node.sm.progress :: e.node.sm.progress[p] == Progress(|n.log| + 1, 0, false))
            && e.node.log == n.log && e.node.pending == n.pending && e.node.replies == n.replies
  {
    hide Act;
    assert |{i} + {src}| == 2;
    Wins(ThreeNodes()[i], n, src, term);
  }

  /** And one acknowledgement of the leader's whole log commits it. */
  lemma CommitsOfThree(i: NodeId, n: Node, src: NodeId)
    requires i in {1, 2, 3} && n.sm.role == Leader && src in n.sm.progress
    requires |n.log| > n.sm.commitIndex && TermOf(n.log, |n.log|) == n.sm.currentTerm
    ensures var resp := AppendEntriesResponse(n.sm.currentTerm, true, 0, 0);
            var e := Act(ThreeNodes()[i], n, Deliver(AppendRep(src, i, |n.log|, resp)));
            && e.node.sm.commitIndex == |n.log| && e.node.log == n.log
            && e.node.replies == n.replies + CommitReplies(n.pending, |n.log|, n.sm.currentTerm)
  {
    hide Act;
    assert src in Replicated(Acked(n, src), |n.log|);
    assert |Replicated(Acked(n, src), |n.log|)| >= 1;
    Commits(ThreeNodes()[i], n, src, n.sm.currentTerm);
  }

  // ----- H1

  /** Node 1 abandons an election that node 2 voted for; then node 2 elects node 3 for term 2. */
  lemma ElectRival() returns (t: Trace)
    ensures t.Valid(ThreeNodes()) && RunMeetsH2(t.ss, t.steps)
    ensures var n := t.Last().nodes;
            && n[1].sm.role == Candidate && n[1].sm.currentTerm == 2 && n[1].sm.votesReceived == {1}
            && n[3].sm.role == Leader && n[3].sm.currentTerm == 2
    ensures VoteRep(2, 1, RequestVoteResponse(1, true)) in t.Last().net
  {
    hide Act, IsRun, RunMeetsH1, RunMeetsH2;
    t := AbandonElection();
    TimesOut(ThreeNodes()[3], FRESH_NODE, 2);
    t := Take(ThreeNodes(), t, Timeout(3));
    TimesOut(ThreeNodes()[3], t.Last().nodes[3], 2);
    t := Take(ThreeNodes(), t, Timeout(3));
    var ask3 := RequestVoteRequest(2, 3, 0, 0);
    Grants(ThreeNodes()[2], t.Last().nodes[2], ask3);
    t := Take(ThreeNodes(), t, Deliver(VoteReq(2, ask3)));
    WinsOfThree(3, t.Last().nodes[3], 2, 2);
    t := Take(ThreeNodes(), t, Deliver(VoteRep(2, 3, RequestVoteResponse(2, true))));
  }

  lemma AbandonElection() returns (t: Trace)
    ensures t.Valid(ThreeNodes()) && RunMeetsH2(t.ss, t.steps)
    ensures var n := t.Last().nodes;
            && n[1].sm.role == Candidate && n[1].sm.currentTerm == 2 && n[1].sm.votesReceived == {1}
            && n[2].sm.currentTerm == 1 && n[2].log == [] && n[3] == FRESH_NODE
    ensures VoteRep(2, 1, RequestVoteResponse(1, true)) in t.Last().net
  {
    hide Act, IsRun, RunMeetsH1, RunMeetsH2;
    t := Start();
    TimesOut(ThreeNodes()[1], FRESH_NODE, 2);
    t := Take(ThreeNodes(), t, Timeout(1));
    var ask1 := RequestVoteRequest(1, 1, 0, 0);
    Grants(ThreeNodes()[2], FRESH_NODE, ask1);
    t := Take(ThreeNodes(), t, Deliver(VoteReq(2, ask1)));
    TimesOut(ThreeNodes()[1], t.Last().nodes[1], 2);
    t := Take(ThreeNodes(), t, Timeout(1));
  }

  /** Without H1 a late vote from an abandoned election elects a second leader of the same term. */
  lemma StaleVoteElectsTwoLeaders() returns (t: Trace)
    ensures IsRun(ThreeNodes(), t.ss, t.steps) && RunMeetsH2(t.ss, t.steps) && !RunMeetsH1(t.ss, t.steps)
    ensures |t.ss| > 0 && 1 in t.Last().nodes && 3 in t.Last().nodes
    ensures var s := t.Last();
            && s.nodes[1].sm.role == Leader && s.nodes[3].sm.role == Leader
            && s.nodes[1].sm.currentTerm == s.nodes[3].sm.currentTerm
  {
    hide Act, IsRun, RunMeetsH1, RunMeetsH2;
    t := ElectRival();
    WinsOfThree(1, t.Last().nodes[1], 2, 1);
    t := Take(ThreeNodes(), t, Deliver(VoteRep(2, 1, RequestVoteResponse(1, true))));
  }

  // ----- H2

  /** Node 1 is elected for term 1 by node 2, and nothing else has happened. */
  lemma ElectFirst() returns (t: Trace)
    ensures t.Valid(ThreeNodes()) && RunMeetsH1(t.ss, t.steps) && RunMeetsH2(t.ss, t.steps)
    ensures var n := t.Last().nodes;
            && n[1].sm.role == Leader && n[1].sm.currentTerm == 1 && n[1].log == [] && n[1].sm.commitIndex == 0
            && n[1].sm.progress == map[2 := Progress(1, 0, false), 3 := Progress(1, 0, false)]
            && n[1].pending == [] && n[1].replies == []
            && n[2].sm.currentTerm == 1 && n[2].sm.role == Follower && n[2].log == [] && n[2].sm.commitIndex == 0
            && n[3] == FRESH_NODE
  {
    hide Act, IsRun, RunMeetsH1, RunMeetsH2;
    t := Start();
    TimesOut(ThreeNodes()[1], FRESH_NODE, 2);
    t := Take(ThreeNodes(), t, Timeout(1));
    var ask := RequestVoteRequest(1, 1, 0, 0);
    Grants(ThreeNodes()[2], FRESH_NODE, ask);
    t := Take(ThreeNodes(), t, Deliver(VoteReq(2, ask)));
    WinsOfThree(1, t.Last().nodes[1], 2, 1);
    t := Take(ThreeNodes(), t, Deliver(VoteRep(2, 1, RequestVoteResponse(1, true))));
  }

  function ShortBatch(): AppendEntriesRequest {
    AppendEntriesRequest(1, 1, 0, 0, [Entry(1, 1)], 0)
  }

  function LongBatch(): AppendEntriesRequest {
    AppendEntriesRequest(1, 1, 0, 0, [Entry(1, 1), Entry(1, 2)], 0)
  }

  /** The first proposal of node 1, newly elected for term 1. */
  lemma FirstProposal(n: Node, tx: Option<nat>)
    requires n.sm.role == Leader && n.sm.currentTerm == 1 && n.log == [] && n.sm.commitIndex == 0
    requires n.sm.progress == map[2 := Progress(1, 0, false), 3 := Progress(1, 0, false)]
    ensures var e := Act(ThreeNodes()[1], n, Propose(1, Proposal([], tx)));
            && e.node.sm == n.sm && e.node.log == [Entry(1, 1)] && e.node.replies == n.replies
            && e.node.pending == n.pending + (if tx.Some? then [Pending(1, tx.value, 1, [])] else [])
            && AppendReq(2, ShortBatch()) in e.sent && AppendReq(3, ShortBatch()) in e.sent
  {
    hide Act;
    Proposes(ThreeNodes()[1], n, 2, tx);
    Proposes(ThreeNodes()[1], n, 3, tx);
    assert [] + [Entry(1, 1)] == [Entry(1, 1)];
  }

  /** Node 1 proposes once, offering the short batch to both peers. */
  lemma TakeFirstProposal(t0: Trace, tx: Option<nat>) returns (t: Trace)
    requires t0.Valid(ThreeNodes())
    requires var n := t0.Last().nodes[1];
             n.sm.role == Leader && n.sm.currentTerm == 1 && n.log == [] && n.sm.commitIndex == 0
             && n.sm.progress == map[2 := Progress(1, 0, false), 3 := Progress(1, 0, false)]
    ensures t.Valid(ThreeNodes())
    ensures RunMeetsH1(t0.ss, t0.steps) ==> RunMeetsH1(t.ss, t.steps)
    ensures RunMeetsH2(t0.ss, t0.steps) ==> RunMeetsH2(t.ss, t.steps)
    ensures var n, n' := t0.Last().nodes[1], t.Last().nodes[1];
            && n'.sm == n.sm && n'.log == [Entry(1, 1)] && n'.replies == n.replies
            && n'.pending == n.pending + (if tx.Some? then [Pending(1, tx.value, 1, [])] else [])
    ensures t.Last().nodes[2] == t0.Last().nodes[2] && t.Last().nodes[3] == t0.Last().nodes[3]
    ensures AppendReq(2, ShortBatch()) in t.Last().net && AppendReq(3, ShortBatch()) in t.Last().net
  {
    hide Act, IsRun, RunMeetsH1, RunMeetsH2, MeetsH2, ShortBatch;
    FirstProposal(t0.Last().nodes[1], tx);
    t := Take(ThreeNodes(), t0, Propose(1, Proposal([], tx)));
  }

  lemma ProposeFirst() returns (t: Trace)
    ensures t.Valid(ThreeNodes()) && RunMeetsH1(t.ss, t.steps) && RunMeetsH2(t.ss, t.steps)
    ensures var n := t.Last().nodes;
            && n[1].sm.role == Leader && n[1].sm.currentTerm == 1 && n[1].log == [Entry(1, 1)]
            && n[1].sm.commitIndex == 0
            && n[1].sm.progress == map[2 := Progress(1, 0, false), 3 := Progress(1, 0, false)]
            && n[2].sm.currentTerm == 1 && n[2].sm.role == Follower && n[2].log == [] && n[2].sm.commitIndex == 0
            && n[3] == FRESH_NODE
    ensures AppendReq(2, ShortBatch()) in t.Last().net && AppendReq(3, ShortBatch()) in t.Last().net
  {
    hide IsRun, RunMeetsH1, RunMeetsH2, ShortBatch;
    t := ElectFirst();
    t := TakeFirstProposal(t, None);
  }

  /** Node 1's second proposal. */
  lemma SecondProposal(n: Node)
    requires n.sm.role == Leader && n.sm.currentTerm == 1 && n.log == [Entry(1, 1)] && n.sm.commitIndex == 0
    requires n.sm.progress == map[2 := Progress(1, 0, false), 3 := Progress(1, 0, false)]
    ensures var e := Act(ThreeNodes()[1], n, Propose(1, Proposal([], None)));
            && e.node.sm == n.sm && e.node.log == [Entry(1, 1), Entry(1, 2)]
            && AppendReq(2, LongBatch()) in e.sent
  {
    hide Act;
    Proposes(ThreeNodes()[1], n, 2, None);
  }

  /** Node 1 proposes again, offering the long batch to node 2. */
  lemma ProposeSecond() returns (t: Trace)
    ensures t.Valid(ThreeNodes()) && RunMeetsH1(t.ss, t.steps) && RunMeetsH2(t.ss, t.steps)
    ensures var n := t.Last().nodes;
            && n[1].sm.role == Leader && n[1].sm.currentTerm == 1 && n[1].log == [Entry(1, 1), Entry(1, 2)]
            && n[1].sm.commitIndex == 0 && n[1].sm.progress.Keys == {2, 3}
            && n[2].sm.currentTerm == 1 && n[2].sm.role == Follower && n[2].log == [] && n[2].sm.commitIndex == 0
            && n[3] == FRESH_NODE
    ensures AppendReq(2, ShortBatch()) in t.Last().net && AppendReq(3, ShortBatch()) in t.Last().net
    ensures AppendReq(2, LongBatch()) in t.Last().net
  {
    hide Act, IsRun, RunMeetsH1, RunMeetsH2, MeetsH2, ShortBatch, LongBatch;
    t := ProposeFirst();
    SecondProposal(t.Last().nodes[1]);
    t := Take(ThreeNodes(), t, Propose(1, Proposal([], None)));
  }

  /** Node 1 commits two entries on node 2's acknowledgement; the short batch is still in flight. */
  lemma CommitTwo() returns (t: Trace)
    ensures t.Valid(ThreeNodes()) && RunMeetsH1(t.ss, t.steps) && RunMeetsH2(t.ss, t.steps)
    ensures var n := t.Last().nodes;
            && n[1].sm.commitIndex == 2 && n[1].log == [Entry(1, 1), Entry(1, 2)]
            && n[2].sm.currentTerm == 1 && n[2].log == [Entry(1, 1), Entry(1, 2)] && n[2].sm.commitIndex == 0
            && n[2].sm.role == Follower && n[3] == FRESH_NODE
    ensures AppendReq(2, ShortBatch()) in t.Last().net && AppendReq(3, ShortBatch()) in t.Last().net
  {
    hide Act, IsRun, RunMeetsH1, RunMeetsH2, MeetsH2, ShortBatch;
    t := ProposeSecond();
    Appends(ThreeNodes()[2], t.Last().nodes[2], LongBatch());
    LongEnough(t.Last(), 2, LongBatch());
    t := Take(ThreeNodes(), t, Deliver(AppendReq(2, LongBatch())));
    CommitsOfThree(1, t.Last().nodes[1], 2);
    t := Take(ThreeNodes(), t, Deliver(AppendRep(2, 1, 2, AppendEntriesResponse(1, true, 0, 0))));
  }

  /** Delivering the short batch late cuts node 2's log. */
  lemma LoseCommitted() returns (t: Trace)
    ensures t.Valid(ThreeNodes()) && RunMeetsH1(t.ss, t.steps)
    ensures var n := t.Last().nodes;
            && n[1].sm.commitIndex == 2 && n[1].log == [Entry(1, 1), Entry(1, 2)]
            && n[2].sm.currentTerm == 1 && n[2].log == [Entry(1, 1)] && n[2].sm.commitIndex == 0
            && n[2].sm.role == Follower
            && n[3].sm.currentTerm == 1 && n[3].log == [Entry(1, 1)] && n[3].sm.commitIndex == 0
  {
    hide Act, IsRun, RunMeetsH1, RunMeetsH2, MeetsH2;
    t := CommitTwo();
    Appends(ThreeNodes()[3], FRESH_NODE, ShortBatch());
    LongEnough(t.Last(), 3, ShortBatch());
    t := Take(ThreeNodes(), t, Deliver(AppendReq(3, ShortBatch())));
    Appends(ThreeNodes()[2], t.Last().nodes[2], ShortBatch());
    t := Take(ThreeNodes(), t, Deliver(AppendReq(2, ShortBatch())));
    assert t.Last().nodes[2].log == [Entry(1, 1)];
  }

  /** Node 3 elects node 2, which lost the second entry. */
  lemma ElectForgetful() returns (t: Trace)
    ensures t.Valid(ThreeNodes()) && RunMeetsH1(t.ss, t.steps)
    ensures var n := t.Last().nodes;
            && n[1].sm.commitIndex == 2 && n[1].log == [Entry(1, 1), Entry(1, 2)]
            && n[2].sm.role == Leader && n[2].sm.currentTerm == 2 && n[2].log == [Entry(1, 1)]
            && n[2].sm.commitIndex == 0
            && 3 in n[2].sm.progress && n[2].sm.progress[3] == Progress(2, 0, false)
            && n[3].sm.currentTerm == 2 && n[3].sm.role == Follower && n[3].log == [Entry(1, 1)]
            && n[3].sm.commitIndex == 0
  {
    hide Act, IsRun, RunMeetsH1, RunMeetsH2, MeetsH2;
    t := LoseCommitted();
    TimesOut(ThreeNodes()[2], t.Last().nodes[2], 3);
    t := Take(ThreeNodes(), t, Timeout(2));
    var ask := RequestVoteRequest(2, 2, 1, 1);
    Grants(ThreeNodes()[3], t.Last().nodes[3], ask);
    t := Take(ThreeNodes(), t, Deliver(VoteReq(3, ask)));
    WinsOfThree(2, t.Last().nodes[2], 3, 2);
    t := Take(ThreeNodes(), t, Deliver(VoteRep(3, 2, RequestVoteResponse(2, true))));
  }

  /** Node 2 proposes in place of the lost entry and reaches node 3. */
  lemma ProposeOverCommitted() returns (t: Trace)
    ensures t.Valid(ThreeNodes()) && RunMeetsH1(t.ss, t.steps)
    ensures var n := t.Last().nodes;
            && n[1].sm.commitIndex == 2 && n[1].log == [Entry(1, 1), Entry(1, 2)]
            && n[2].sm.role == Leader && n[2].sm.currentTerm == 2 && n[2].log == [Entry(1, 1), Entry(2, 2)]
            && n[2].sm.commitIndex == 0 && 3 in n[2].sm.progress
    ensures AppendRep(3, 2, 2, AppendEntriesResponse(2, true, 0, 0)) in t.Last().net
  {
    hide Act, IsRun, RunMeetsH1, RunMeetsH2;
    t := ElectForgetful();
    Proposes(ThreeNodes()[2], t.Last().nodes[2], 3, None);
    t := Take(ThreeNodes(), t, Propose(2, Proposal([], None)));
    var batch := AppendEntriesRequest(2, 2, 1, 1, [Entry(2, 2)], 0);
    assert t.Last().nodes[2].log == [Entry(1, 1), Entry(2, 2)];
    assert AppendReq(3, batch) in t.Last().net;
    Appends(ThreeNodes()[3], t.Last().nodes[3], batch);
    t := Take(ThreeNodes(), t, Deliver(AppendReq(3, batch)));
  }

  /** Without H2 a reordered batch undoes a commit: two nodes commit different entries at index 2. */
  lemma ShortBatchUndoesCommit() returns (t: Trace)
    ensures IsRun(ThreeNodes(), t.ss, t.steps) && RunMeetsH1(t.ss, t.steps) && !RunMeetsH2(t.ss, t.steps)
    ensures |t.ss| > 0 && 1 in t.Last().nodes && 2 in t.Last().nodes
    ensures var n := t.Last().nodes;
            && n[1].sm.commitIndex >= 2 && n[2].sm.commitIndex >= 2
            && |n[1].log| >= 2 && |n[2].log| >= 2 && n[1].log[1] != n[2].log[1]
  {
    hide Act, IsRun, RunMeetsH1, RunMeetsH2;
    t := ProposeOverCommitted();
    CommitsOfThree(2, t.Last().nodes[2], 3);
    t := Take(ThreeNodes(), t, Deliver(AppendRep(3, 2, 2, AppendEntriesResponse(2, true, 0, 0))));
    if RunMeetsH2(t.ss, t.steps) {
      StateMachineSafety(ThreeNodes(), t.ss, t.steps, |t.ss| - 1, |t.ss| - 1, 1, 2, 2);
      assert false;
    }
  }

  // ----- replies to proposals

  /** Node 2, elected by node 3, proposes in place of node 1's only entry. */
  lemma ProposeInstead(t0: Trace) returns (t: Trace)
    requires t0.Valid(ThreeNodes()) && RunMeetsH1(t0.ss, t0.steps) && RunMeetsH2(t0.ss, t0.steps)
    requires var n := t0.Last().nodes;
             && n[2].sm.currentTerm == 1 && n[2].sm.role == Follower && n[2].log == [] && n[2].sm.commitIndex == 0
             && n[3] == FRESH_NODE
    ensures t.Valid(ThreeNodes()) && RunMeetsH1(t.ss, t.steps) && RunMeetsH2(t.ss, t.steps)
    ensures var n := t.Last().nodes;
            && n[1] == t0.Last().nodes[1]
            && n[2].sm.currentTerm == 2 && n[2].log == [Entry(2, 1)] && n[2].sm.commitIndex == 0
    ensures AppendReq(1, AppendEntriesRequest(2, 2, 0, 0, [Entry(2, 1)], 0)) in t.Last().net
  {
    hide Act, IsRun, RunMeetsH1, RunMeetsH2, MeetsH2;
    TimesOut(ThreeNodes()[2], t0.Last().nodes[2], 3);
    t := Take(ThreeNodes(), t0, Timeout(2));
    var ask := RequestVoteRequest(2, 2, 0, 0);
    Grants(ThreeNodes()[3], FRESH_NODE, ask);
    t := Take(ThreeNodes(), t, Deliver(VoteReq(3, ask)));
    WinsOfThree(2, t.Last().nodes[2], 3, 2);
    t := Take(ThreeNodes(), t, Deliver(VoteRep(3, 2, RequestVoteResponse(2, true))));
    Proposes(ThreeNodes()[2], t.Last().nodes[2], 1, None);
    t := Take(ThreeNodes(), t, Propose(2, Proposal([], None)));
    assert t.Last().nodes[2].log == [Entry(2, 1)];
  }

  /** Node 1's only entry is replaced. */
  lemma OverwriteProposal(t0: Trace) returns (t: Trace)
    requires t0.Valid(ThreeNodes()) && RunMeetsH1(t0.ss, t0.steps) && RunMeetsH2(t0.ss, t0.steps)
    requires var n := t0.Last().nodes;
             && n[1].sm.currentTerm == 1 && n[1].log == [Entry(1, 1)]
             && n[2].sm.currentTerm == 1 && n[2].sm.role == Follower && n[2].log == [] && n[2].sm.commitIndex == 0
             && n[3] == FRESH_NODE && n[1].sm.commitIndex == 0
    ensures t.Valid(ThreeNodes()) && RunMeetsH1(t.ss, t.steps) && RunMeetsH2(t.ss, t.steps)
    ensures var n := t.Last().nodes;
            && n[1].sm.currentTerm == 2 && n[1].sm.role == Follower && n[1].log == [Entry(2, 1)]
            && n[1].sm.commitIndex == 0
            && n[1].pending == t0.Last().nodes[1].pending && n[1].replies == t0.Last().nodes[1].replies
            && n[2].sm.currentTerm == 2 && n[2].log == [Entry(2, 1)] && n[2].sm.commitIndex == 0
  {
    hide Act, IsRun, RunMeetsH1, RunMeetsH2, MeetsH2;
    t := ProposeInstead(t0);
    var batch := AppendEntriesRequest(2, 2, 0, 0, [Entry(2, 1)], 0);
    Appends(ThreeNodes()[1], t.Last().nodes[1], batch);
    LongEnough(t.Last(), 1, batch);
    t := Take(ThreeNodes(), t, Deliver(AppendReq(1, batch)));
  }

  lemma ProposeThenLose() returns (t: Trace)
    ensures t.Valid(ThreeNodes()) && RunMeetsH1(t.ss, t.steps) && RunMeetsH2(t.ss, t.steps)
    ensures var n := t.Last().nodes;
            && n[1].sm.currentTerm == 2 && n[1].sm.role == Follower && n[1].log == [Entry(2, 1)]
            && n[1].sm.commitIndex == 0 && n[1].pending == [Pending(1, 7, 1, [])] && n[1].replies == []
            && n[2].sm.currentTerm == 2 && n[2].log == [Entry(2, 1)] && n[2].sm.commitIndex == 0
  {
    hide IsRun, RunMeetsH1, RunMeetsH2, ShortBatch;
    t := ElectFirst();
    t := TakeFirstProposal(t, Some(7));
    t := OverwriteProposal(t);
  }

  /** Node 1, elected again by node 2, holds a pending proposal that is no longer in its log. */
  lemma ReelectedWithStalePending() returns (t: Trace)
    ensures t.Valid(ThreeNodes()) && RunMeetsH1(t.ss, t.steps) && RunMeetsH2(t.ss, t.steps)
    ensures var n := t.Last().nodes;
            && n[1].sm.role == Leader && n[1].sm.currentTerm == 3 && n[1].log == [Entry(2, 1)]
            && n[1].sm.progress.Keys == {2, 3} && n[1].sm.progress[2] == Progress(2, 0, false)
            && n[1].sm.commitIndex == 0 && n[1].pending == [Pending(1, 7, 1, [])] && n[1].replies == []
            && n[2].sm.currentTerm == 3 && n[2].log == [Entry(2, 1)] && n[2].sm.commitIndex == 0
  {
    hide Act, IsRun, RunMeetsH1, RunMeetsH2, MeetsH2;
    t := ProposeThenLose();
    TimesOut(ThreeNodes()[1], t.Last().nodes[1], 2);
    t := Take(ThreeNodes(), t, Timeout(1));
    var ask := RequestVoteRequest(3, 1, 1, 2);
    Grants(ThreeNodes()[2], t.Last().nodes[2], ask);
    t := Take(ThreeNodes(), t, Deliver(VoteReq(2, ask)));
    WinsOfThree(1, t.Last().nodes[1], 2, 3);
    t := Take(ThreeNodes(), t, Deliver(VoteRep(2, 1, RequestVoteResponse(3, true))));
  }

  /** Even under H1 and H2, stepping down keeps pending proposals, so a node re-elected in a later term answers
      `Ok` for a proposal that was overwritten. */
  lemma OkForLostProposal() returns (t: Trace, r: Reply)
    ensures IsRun(ThreeNodes(), t.ss, t.steps) && RunMeetsH1(t.ss, t.steps) && RunMeetsH2(t.ss, t.steps)
    ensures |t.ss| > 0 && 1 in t.Last().nodes
    ensures var n := t.Last().nodes[1];
            && r in n.replies && r.Granted? && r.proposedIn < r.repliedIn
            && 1 <= r.index <= n.sm.commitIndex && r.index <= |n.log|
            && n.log[r.index - 1] != LogEntry(r.proposedIn, r.index, r.data, Normal)
  {
    hide Act, IsRun, RunMeetsH1, RunMeetsH2, MeetsH2;
    t := ReelectedWithStalePending();
    var n1 := t.Last().nodes[1];
    Proposes(ThreeNodes()[1], n1, 2, None);
    t := Take(ThreeNodes(), t, Propose(1, Proposal([], None)));
    var batch := AppendEntriesRequest(3, 1, 1, 2, [Entry(3, 2)], 0);
    assert t.Last().nodes[1].log == [Entry(2, 1), Entry(3, 2)];
    assert AppendReq(2, batch) in t.Last().net;
    Appends(ThreeNodes()[2], t.Last().nodes[2], batch);
    LongEnough(t.Last(), 2, batch);
    t := Take(ThreeNodes(), t, Deliver(AppendReq(2, batch)));
    CommitsOfThree(1, t.Last().nodes[1], 2);
    t := Take(ThreeNodes(), t, Deliver(AppendRep(2, 1, 2, AppendEntriesResponse(3, true, 0, 0))));
    r := Granted(7, 1, 1, [], 3);
    assert n1.pending[..0] == [];
    assert CommitReplies(n1.pending, 2, 3) == [r];
  }
}
