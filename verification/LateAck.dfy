/** A run of five nodes showing that H1 is needed for acknowledgements, too. */
module LateAck {
  import opened Core
  import opened NodeSpec
  import opened Cluster
  import opened Theorems
  import opened Runs

  function FiveNodes(): Topology {
    map[1 := RaftConfig(1, [2, 3, 4, 5], 1), 2 := RaftConfig(2, [1, 3, 4, 5], 1), 3 := RaftConfig(3, [1, 2, 4, 5], 1),
    4 := RaftConfig(4, [1, 2, 3, 5], 1), 5 := RaftConfig(5, [1, 2, 3, 4], 1)]
  }

  lemma FourPeers(cfg: RaftConfig, a: NodeId, b: NodeId, d: NodeId, e: NodeId)
    requires cfg.peers == [a, b, d, e] && cfg.id > 0
    requires a != b && a != d && a != e && b != d && b != e && d != e
    requires cfg.id != a && cfg.id != b && cfg.id != d && cfg.id != e
    ensures ValidConfig(cfg) && cfg.Members() == {cfg.id, a, b, d, e}
  {
    assert forall p | p in cfg.peers :: p == a || p == b || p == d || p == e;
    assert cfg.peers[0] == a && cfg.peers[1] == b && cfg.peers[2] == d && cfg.peers[3] == e;
  }

  lemma FiveNodesAreWellFormed()
    ensures WellFormed(FiveNodes())
  {
    var c := FiveNodes();
    hide ValidConfig, RaftConfig.Members;
    FourPeers(c[1], 2, 3, 4, 5);
    FourPeers(c[2], 1, 3, 4, 5);
    FourPeers(c[3], 1, 2, 4, 5);
    FourPeers(c[4], 1, 2, 3, 5);
    FourPeers(c[5], 1, 2, 3, 4);
    assert c.Keys == {1, 2, 3, 4, 5};
  }

  /** What every part of the run keeps. */
  ghost predicate Fine(t: Trace) {
    t.Valid(FiveNodes()) && RunMeetsH2(t.ss, t.steps) && VotesMeetH1(t.ss, t.steps)
  }

  const E11 := Entry(1, 1)
  const E12 := Entry(1, 2)
  const E21 := Entry(2, 1)
  const E32 := Entry(3, 2)
  const E42 := Entry(4, 2)

  function BothOfTerm1(): AppendEntriesRequest { AppendEntriesRequest(1, 1, 0, 0, [E11, E12], 0) }
  function OneOfTerm2(): AppendEntriesRequest { AppendEntriesRequest(2, 3, 0, 0, [E21], 0) }
  function OneOfTerm3(): AppendEntriesRequest { AppendEntriesRequest(3, 1, 1, 2, [E32], 0) }
  function OneOfTerm4(): AppendEntriesRequest { AppendEntriesRequest(4, 5, 1, 2, [E42], 0) }

  /** Node 2's acknowledgement of both entries of term 1. */
  function Stale(): Message { AppendRep(2, 1, 2, AppendEntriesResponse(1, true, 0, 0)) }

  lemma FirstElection() returns (t: Trace)
    ensures Fine(t) && RunMeetsH1(t.ss, t.steps)
    ensures var n := t.Last().nodes;
            && Leads(FiveNodes()[1], n[1], 1, [], 1)
            && Follows(n[2], 1, []) && Follows(n[3], 1, []) && n[4] == FRESH_NODE && n[5] == FRESH_NODE
  {
    hide IsRun, RunMeetsH1, RunMeetsH2, VotesMeetH1;
    FiveNodesAreWellFormed();
    hide WellFormed;
    t := Begin(FiveNodes());
    t := Elect(FiveNodes(), t, 1, 2, 3);
  }

  /** Term 1: node 1 leads and proposes twice. */
  lemma FirstReign() returns (t: Trace)
    ensures Fine(t) && RunMeetsH1(t.ss, t.steps)
    ensures var n := t.Last().nodes;
            && Leads(FiveNodes()[1], n[1], 1, [E11, E12], 1)
            && Follows(n[2], 1, []) && Follows(n[3], 1, []) && n[4] == FRESH_NODE && n[5] == FRESH_NODE
    ensures AppendReq(2, BothOfTerm1()) in t.Last().net
  {
    hide IsRun, RunMeetsH1, RunMeetsH2, VotesMeetH1, Follows;
    t := FirstElection();
    assert [] + [Entry(1, 1)] == [E11] && [E11] + [Entry(1, 2)] == [E11, E12];
    assert FiveNodes()[1].peers[0] == 2 && Offer(1, 1, [E11, E12], 1) == BothOfTerm1();
    hide Offer;
    t := TakeProposal(FiveNodes(), t, 1, 1, [], 1);
    t := TakeProposal(FiveNodes(), t, 1, 1, [E11], 1);
  }

  /** Node 2 takes both entries; its acknowledgement is delayed. */
  lemma Acknowledged() returns (t: Trace)
    ensures Fine(t) && RunMeetsH1(t.ss, t.steps)
    ensures var n := t.Last().nodes;
            && Leads(FiveNodes()[1], n[1], 1, [E11, E12], 1)
            && Follows(n[2], 1, [E11, E12]) && Follows(n[3], 1, []) && n[4] == FRESH_NODE && n[5] == FRESH_NODE
    ensures Stale() in t.Last().net
  {
    hide IsRun, RunMeetsH1, RunMeetsH2, VotesMeetH1, MeetsH2;
    t := FirstReign();
    LongEnough(t.Last(), 2, BothOfTerm1());
    t := TakeAppend(FiveNodes(), t, 2, BothOfTerm1());
  }

  /** Term 2: node 3 leads with the votes of nodes 4 and 5 and proposes once. */
  lemma SecondReign() returns (t: Trace)
    ensures Fine(t) && RunMeetsH1(t.ss, t.steps)
    ensures var n := t.Last().nodes;
            && Leads(FiveNodes()[1], n[1], 1, [E11, E12], 1) && Follows(n[2], 1, [E11, E12])
            && Leads(FiveNodes()[3], n[3], 2, [E21], 1) && Follows(n[4], 2, []) && Follows(n[5], 2, [])
    ensures Stale() in t.Last().net && forall p | p in {1, 2, 4, 5} :: AppendReq(p, OneOfTerm2()) in t.Last().net
  {
    hide IsRun, RunMeetsH1, RunMeetsH2, VotesMeetH1;
    t := Acknowledged();
    t := Elect(FiveNodes(), t, 3, 4, 5);
    t := TakeProposal(FiveNodes(), t, 3, 2, [], 1);
  }

  /** Replacing two entries of term 1 by the only entry of the leader of term 2 is within H2. */
  lemma ReplacingMeetsH2(t: Trace, p: NodeId)
    requires Fine(t) && RunMeetsH1(t.ss, t.steps) && p in FiveNodes() && t.Last().nodes[p].log == [E11, E12]
    requires Leads(FiveNodes()[3], t.Last().nodes[3], 2, [E21], 1)
    ensures MeetsH2(t.Last(), Deliver(AppendReq(p, OneOfTerm2())))
  {
    hide IsRun, RunMeetsH1;
    RunInv1(FiveNodes(), t.ss, t.steps, |t.ss| - 1);
    LeaderOnRecord(FiveNodes(), t.Last(), 3);
  }

  /** Everybody takes over the entry of term 2. */
  lemma Replaced() returns (t: Trace)
    ensures Fine(t) && RunMeetsH1(t.ss, t.steps)
    ensures var n := t.Last().nodes;
            && Follows(n[1], 2, [E21]) && Follows(n[2], 2, [E21])
            && Leads(FiveNodes()[3], n[3], 2, [E21], 1) && Follows(n[4], 2, [E21]) && Follows(n[5], 2, [E21])
    ensures Stale() in t.Last().net
  {
    hide IsRun, RunMeetsH1, RunMeetsH2, VotesMeetH1, MeetsH2;
    t := SecondReign();
    var c, req := FiveNodes(), OneOfTerm2();
    ReplacingMeetsH2(t, 1);
    t := TakeAppend(c, t, 1, req);
    ReplacingMeetsH2(t, 2);
    t := TakeAppend(c, t, 2, req);
    LongEnough(t.Last(), 4, req);
    t := TakeAppend(c, t, 4, req);
    LongEnough(t.Last(), 5, req);
    t := TakeAppend(c, t, 5, req);
  }

  /** Term 3: node 1 leads with the votes of nodes 4 and 5, proposes once and reaches node 4. */
  lemma ThirdReign() returns (t: Trace)
    ensures Fine(t) && RunMeetsH1(t.ss, t.steps)
    ensures var n := t.Last().nodes;
            && Leads(FiveNodes()[1], n[1], 3, [E21, E32], 2) && Follows(n[2], 2, [E21])
            && Leads(FiveNodes()[3], n[3], 2, [E21], 1) && Follows(n[5], 3, [E21])
    ensures Stale() in t.Last().net && AppendRep(4, 1, 2, AppendEntriesResponse(3, true, 0, 0)) in t.Last().net
  {
    hide IsRun, RunMeetsH1, RunMeetsH2, VotesMeetH1, MeetsH2;
    var c := FiveNodes();
    t := Replaced();
    t := Elect(c, t, 1, 4, 5);
    t := TakeProposal(c, t, 1, 3, [E21], 2);
    LongEnough(t.Last(), 4, OneOfTerm3());
    t := TakeAppend(c, t, 4, OneOfTerm3());
  }

  /** What one acknowledgement and then another amount to in a cluster of five. */
  lemma TwoAcks(cfg: RaftConfig, n: Node, term: Term, log: seq<LogEntry>, p: NodeId, q: NodeId, n': Node)
    requires |cfg.peers| == 4 && p in cfg.peers && q in cfg.peers && p != q
    requires Leads(cfg, n, term, log, 2) && |log| == 2
    requires n'.log == n.log && n'.sm == n.sm.(progress := Acked(n, p))
    ensures p in n.sm.progress && q in n'.sm.progress
    ensures |Replicated(Acked(n, p), 2)| + 1 < cfg.Quorum() <= |Replicated(Acked(n', q), 2)| + 1
  {
    assert Replicated(Acked(n, p), 2) == {p};
    assert Replicated(Acked(n', q), 2) == {p, q};
  }

  /** Node `i` of five, leading with one entry of its own after one of an older term, commits both on two
      acknowledgements, the second of which may be late. */
  lemma TakeAcks(t: Trace, i: NodeId, term: Term, log: seq<LogEntry>, p: NodeId, q: NodeId, late: Term) returns (t': Trace)
    requires t.Valid(FiveNodes()) && i in FiveNodes() && p in FiveNodes()[i].peers && q in FiveNodes()[i].peers && p != q
    requires Leads(FiveNodes()[i], t.Last().nodes[i], term, log, 2)
    requires |log| == 2 && log[0].term != term && log[1].term == term && late <= term
    requires AppendRep(p, i, 2, AppendEntriesResponse(term, true, 0, 0)) in t.Last().net
    requires AppendRep(q, i, 2, AppendEntriesResponse(late, true, 0, 0)) in t.Last().net
    ensures t'.Valid(FiveNodes()) && Untouched(t.Last(), t'.Last(), {i})
    ensures RunMeetsH2(t.ss, t.steps) ==> RunMeetsH2(t'.ss, t'.steps)
    ensures VotesMeetH1(t.ss, t.steps) ==> VotesMeetH1(t'.ss, t'.steps)
    ensures t'.Last().nodes[i].sm.commitIndex == 2 && t'.Last().nodes[i].log == log
  {
    hide Act, IsRun, RunMeetsH1, RunMeetsH2, MeetsH1, MeetsH2, VotesMeetH1, Acked, Replicated;
    var c, n := FiveNodes(), t.Last().nodes[i];
    TwoAcks(c[i], n, term, log, p, q, n.(sm := n.sm.(progress := Acked(n, p))));
    NotesAck(c[i], n, p);
    t' := Take(c, t, Deliver(AppendRep(p, i, 2, AppendEntriesResponse(term, true, 0, 0))));
    TwoAcks(c[i], n, term, log, p, q, t'.Last().nodes[i]);
    Commits(c[i], t'.Last().nodes[i], q, late);
    t' := Take(c, t', Deliver(AppendRep(q, i, 2, AppendEntriesResponse(late, true, 0, 0))));
  }

  /** Counting the late acknowledgement, node 1 commits an entry that only nodes 1 and 4 hold. */
  lemma WronglyCommitted() returns (t: Trace)
    ensures Fine(t)
    ensures var n := t.Last().nodes;
            && n[1].sm.commitIndex == 2 && n[1].log == [E21, E32] && Follows(n[2], 2, [E21])
            && Leads(FiveNodes()[3], n[3], 2, [E21], 1) && Follows(n[5], 3, [E21])
  {
    hide IsRun, RunMeetsH1, RunMeetsH2, VotesMeetH1;
    t := ThirdReign();
    t := TakeAcks(t, 1, 3, [E21, E32], 4, 2, 1);
  }

  /** Term 4: node 5 leads with the votes of nodes 2 and 3 and proposes once. */
  lemma FourthElection() returns (t: Trace)
    ensures Fine(t)
    ensures var n := t.Last().nodes;
            && n[1].sm.commitIndex == 2 && n[1].log == [E21, E32]
            && Follows(n[2], 4, [E21]) && Follows(n[3], 4, [E21]) && Leads(FiveNodes()[5], n[5], 4, [E21, E42], 2)
    ensures forall p | p in {2, 3} :: AppendReq(p, OneOfTerm4()) in t.Last().net
  {
    hide IsRun, RunMeetsH1, RunMeetsH2, VotesMeetH1;
    t := WronglyCommitted();
    t := Elect(FiveNodes(), t, 5, 2, 3);
    t := TakeProposal(FiveNodes(), t, 5, 4, [E21], 2);
  }

  /** Node 5 reaches both its voters. */
  lemma FourthReign() returns (t: Trace)
    ensures Fine(t)
    ensures var n := t.Last().nodes;
            && n[1].sm.commitIndex == 2 && n[1].log == [E21, E32]
            && Leads(FiveNodes()[5], n[5], 4, [E21, E42], 2)
    ensures forall p | p in {2, 3} :: AppendRep(p, 5, 2, AppendEntriesResponse(4, true, 0, 0)) in t.Last().net
  {
    hide IsRun, RunMeetsH1, RunMeetsH2, VotesMeetH1, MeetsH2;
    var c, req := FiveNodes(), OneOfTerm4();
    t := FourthElection();
    LongEnough(t.Last(), 2, req);
    t := TakeAppend(c, t, 2, req);
    LongEnough(t.Last(), 3, req);
    t := TakeAppend(c, t, 3, req);
  }

  /** Without H1 for acknowledgements a commit is undone: two nodes commit different entries at index 2, though all
      votes are counted in their own term and H2 holds. */
  lemma LateAckUndoesCommit() returns (t: Trace)
    ensures IsRun(FiveNodes(), t.ss, t.steps) && RunMeetsH2(t.ss, t.steps)
    ensures VotesMeetH1(t.ss, t.steps) && !RunMeetsH1(t.ss, t.steps)
    ensures |t.ss| > 0 && 1 in t.Last().nodes && 5 in t.Last().nodes
    ensures var n := t.Last().nodes;
            && n[1].sm.commitIndex >= 2 && n[5].sm.commitIndex >= 2
            && |n[1].log| >= 2 && |n[5].log| >= 2 && n[1].log[1] != n[5].log[1]
  {
    hide IsRun, RunMeetsH1, RunMeetsH2, VotesMeetH1;
    t := FourthReign();
    t := TakeAcks(t, 5, 4, [E21, E42], 2, 3, 4);
    if RunMeetsH1(t.ss, t.steps) {
      StateMachineSafety(FiveNodes(), t.ss, t.steps, |t.ss| - 1, |t.ss| - 1, 1, 5, 2);
      assert false;
    }
  }
}
