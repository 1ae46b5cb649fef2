/** Building runs step by step, and what each handler does along the way to data-free logs of at most two entries. */
module Runs {
  import opened Core
  import opened LogSpec
  import opened NodeSpec
  import opened Cluster

  /** A run so far, and its last state. */
  datatype Trace = Trace(ss: seq<State>, steps: seq<Step>) {
    ghost predicate Valid(c: Topology) {
      IsRun(c, ss, steps) && |ss| == |steps| + 1 && Last().nodes.Keys == c.Keys
    }

    function Last(): State
      requires |ss| > 0
    {
      ss[|ss| - 1]
    }
  }

  function Performed(c: Topology, s: State, step: Step): Effect
    requires Actor(step) in s.nodes && Actor(step) in c
  {
    Act(c[Actor(step)], s.nodes[Actor(step)], step)
  }

  lemma Begin(c: Topology) returns (t: Trace)
    requires WellFormed(c)
    ensures t.Valid(c) && RunMeetsH1(t.ss, t.steps) && RunMeetsH2(t.ss, t.steps) && VotesMeetH1(t.ss, t.steps)
    ensures forall i | i in c :: t.Last().nodes[i] == FRESH_NODE
  {
    hide WellFormed;
    t := Trace([Init(c)], []);
    assert t.Last().nodes.Keys == c.Keys;
  }

  predicate DeliversAck(step: Step) {
    step.Deliver? && step.message.AppendRep?
  }

  /** H1 for every delivery but those of acknowledgements. */
  ghost predicate VotesMeetH1(ss: seq<State>, steps: seq<Step>) {
    forall k | 0 <= k < |steps| && k < |ss| && !DeliversAck(steps[k]) :: MeetsH1(ss[k], steps[k])
  }

  /** Takes one more step. */
  lemma Take(c: Topology, t: Trace, step: Step) returns (t': Trace)
    requires t.Valid(c) && Enabled(c, t.Last(), step)
    ensures t'.Valid(c)
    ensures RunMeetsH1(t'.ss, t'.steps) <==> RunMeetsH1(t.ss, t.steps) && MeetsH1(t.Last(), step)
    ensures RunMeetsH2(t'.ss, t'.steps) <==> RunMeetsH2(t.ss, t.steps) && MeetsH2(t.Last(), step)
    ensures VotesMeetH1(t'.ss, t'.steps) <==>
            VotesMeetH1(t.ss, t.steps) && (DeliversAck(step) || MeetsH1(t.Last(), step))
    ensures !(step.Deliver? && step.message.AppendReq?) ==> MeetsH2(t.Last(), step)
    ensures var e := Performed(c, t.Last(), step);
            && t'.Last().nodes == t.Last().nodes[Actor(step) := e.node]
            && (forall m | m in e.sent :: m in t'.Last().net)
            && t.Last().net <= t'.Last().net
  {
    hide Act, Observe, WellFormed, Init, MeetsH1, MeetsH2, IsRun, RunMeetsH1, RunMeetsH2, VotesMeetH1;
    var s := t.Last();
    var s' := Next(c, s, step);
    t' := Trace(t.ss + [s'], t.steps + [step]);
    AddsToRun(c, t.ss, t.steps, step);
    assert !(step.Deliver? && step.message.AppendReq?) ==> MeetsH2(s, step) by {
      OnlyAppendsMatter(s, step);
    }
    AddsToH1(t.ss, t.steps, s', step);
    AddsToH2(t.ss, t.steps, s', step);
    AddsToVotes(t.ss, t.steps, s', step);
  }

  lemma AddsToRun(c: Topology, ss: seq<State>, steps: seq<Step>, step: Step)
    requires IsRun(c, ss, steps) && |ss| == |steps| + 1 && Enabled(c, ss[|ss| - 1], step)
    ensures IsRun(c, ss + [Next(c, ss[|ss| - 1], step)], steps + [step])
  {
    hide Next, WellFormed, Init, Enabled;
    var s' := Next(c, ss[|ss| - 1], step);
    PrefixUnchanged(ss, steps, s', step);
    var ss', steps' := ss + [s'], steps + [step];
    forall k | 0 <= k < |steps'|
      ensures Enabled(c, ss'[k], steps'[k]) && ss'[k + 1] == Next(c, ss'[k], steps'[k])
    {
      if k < |steps| {
        assert ss'[k] == ss[k] && ss'[k + 1] == ss[k + 1];
      }
    }
  }

  lemma AddsToH1(ss: seq<State>, steps: seq<Step>, s': State, step: Step)
    requires |ss| == |steps| + 1
    ensures RunMeetsH1(ss + [s'], steps + [step]) <==> RunMeetsH1(ss, steps) && MeetsH1(ss[|ss| - 1], step)
  {
    hide MeetsH1;
    PrefixUnchanged(ss, steps, s', step);
  }

  lemma AddsToH2(ss: seq<State>, steps: seq<Step>, s': State, step: Step)
    requires |ss| == |steps| + 1
    ensures RunMeetsH2(ss + [s'], steps + [step]) <==> RunMeetsH2(ss, steps) && MeetsH2(ss[|ss| - 1], step)
  {
    hide MeetsH2;
    PrefixUnchanged(ss, steps, s', step);
  }

  lemma AddsToVotes(ss: seq<State>, steps: seq<Step>, s': State, step: Step)
    requires |ss| == |steps| + 1
    ensures VotesMeetH1(ss + [s'], steps + [step]) <==>
            VotesMeetH1(ss, steps) && (DeliversAck(step) || MeetsH1(ss[|ss| - 1], step))
  {
    hide MeetsH1, DeliversAck;
    PrefixUnchanged(ss, steps, s', step);
  }

  lemma PrefixUnchanged(ss: seq<State>, steps: seq<Step>, s': State, step: Step)
    requires |ss| == |steps| + 1
    ensures forall k | 0 <= k < |steps| :: (ss + [s'])[k] == ss[k] && (steps + [step])[k] == steps[k]
    ensures (ss + [s'])[|steps|] == ss[|ss| - 1] && (steps + [step])[|steps|] == step
  {
  }

  lemma OnlyAppendsMatter(s: State, step: Step)
    ensures !(step.Deliver? && step.message.AppendReq?) ==> MeetsH2(s, step)
  {
  }

  /** A batch that reaches past the follower's log meets H2. */
  lemma LongEnough(s: State, dst: NodeId, req: AppendEntriesRequest)
    requires dst in s.nodes && |s.nodes[dst].log| <= req.LastIndex()
    ensures MeetsH2(s, Deliver(AppendReq(dst, req)))
  {
  }

  function Entry(term: Term, index: LogIndex): LogEntry {
    LogEntry(term, index, [], Normal)
  }

  // ----- elections

  /** Timing out makes a candidate that asks every peer. */
  lemma TimesOut(cfg: RaftConfig, n: Node, p: NodeId)
    requires p in cfg.peers
    ensures var e := Act(cfg, n, Timeout(cfg.id));
            && e.node.sm == n.sm.(currentTerm := n.sm.currentTerm + 1, role := Candidate, votedFor := Some(cfg.id),
            leaderId := None, votesReceived := {cfg.id})
            && e.node.log == n.log && e.node.pending == n.pending && e.node.replies == n.replies
            && VoteReq(p, RequestVoteRequest(n.sm.currentTerm + 1, cfg.id, |n.log|, TermOf(n.log, |n.log|))) in e.sent
  {
    hide Heartbeat, OnProposal, Handle, Restart, TermOf;
    var e := Act(cfg, n, Timeout(cfg.id));
    assert |{cfg.id}| == 1;
    var k :| 0 <= k < |cfg.peers| && cfg.peers[k] == p;
    assert e.sent[k].dst == p;
  }

  /** A request from a newer term and with an up-to-date log gets the vote. */
  lemma Grants(cfg: RaftConfig, n: Node, req: RequestVoteRequest)
    requires req.term > n.sm.currentTerm && UpToDate(req, n.log)
    ensures var e := Act(cfg, n, Deliver(VoteReq(cfg.id, req)));
            && e.node.sm.currentTerm == req.term && e.node.sm.role == Follower && e.node.log == n.log
            && e.node.sm.commitIndex == n.sm.commitIndex
            && VoteRep(cfg.id, req.candidateId, RequestVoteResponse(req.term, true)) in e.sent
  {
    var e := Act(cfg, n, Deliver(VoteReq(cfg.id, req)));
    assert e.sent[0] == VoteRep(cfg.id, req.candidateId, RequestVoteResponse(req.term, true));
  }

  /** A granted vote is counted by a candidate; its term is not compared. */
  lemma VoteCounts(cfg: RaftConfig, n: Node, src: NodeId, term: Term)
    requires n.sm.role == Candidate && term <= n.sm.currentTerm
    requires |n.sm.votesReceived + {src}| < cfg.Quorum()
    ensures Act(cfg, n, Deliver(VoteRep(src, cfg.id, RequestVoteResponse(term, true)))).node
         == n.(sm := n.sm.(votesReceived := n.sm.votesReceived + {src}))
  {
  }

  /** The vote that completes a quorum makes a leader; its term is not compared. */
  lemma Wins(cfg: RaftConfig, n: Node, src: NodeId, term: Term)
    requires n.sm.role == Candidate && term <= n.sm.currentTerm
    requires |n.sm.votesReceived + {src}| >= cfg.Quorum()
    ensures var e := Act(cfg, n, Deliver(VoteRep(src, cfg.id, RequestVoteResponse(term, true))));
            && e.node.sm.role == Leader && e.node.sm.currentTerm == n.sm.currentTerm
            && e.node.sm.commitIndex == n.sm.commitIndex
            && e.node.sm.progress == (map p | p in cfg.peers :: Progress(|n.log| + 1, 0, false))
            && e.node.log == n.log && e.node.pending == n.pending && e.node.replies == n.replies
  {
    hide ReplicateAll;
  }

  // ----- replication

  /** Data-free entries are never cut by the byte cap. */
  lemma ReadsAll(s: seq<LogEntry>, max: nat)
    requires |s| <= 2 && forall k | 0 <= k < |s| :: s[k].data == []
    ensures TakeCapped(s, max) == s
  {
    CappedReadIsMaximal(s, max);
    if |s| >= 1 {
      assert s[..1][..0] == [];
      assert Bytes(s[..1]) == 0;
    }
    if |s| == 2 {
      assert s[..2][..1] == s[..1];
      assert Bytes(s[..2]) == 0;
    }
  }

  lemma Appended(cfg: RaftConfig, n: Node, tx: Option<nat>)
    requires n.sm.role == Leader
    ensures var e := OnProposal(cfg, n, Proposal([], tx));
            && e.0.sm == n.sm && e.0.replies == n.replies
            && e.0.log == n.log + [LogEntry(n.sm.currentTerm, |n.log| + 1, [], Normal)]
            && e.0.pending == n.pending
               + (if tx.Some? then [Pending(|n.log| + 1, tx.value, n.sm.currentTerm, [])] else [])
            && e.1 == ReplicateAll(cfg, e.0)
  {
    hide ReplicateAll;
  }

  /** The new entry is offered to every peer, from its next index on. */
  lemma ProposalOffered(cfg: RaftConfig, n: Node, p: NodeId, tx: Option<nat>)
    requires p in cfg.peers && n.sm.role == Leader && p in n.sm.progress
    requires |n.log| <= 1 && n.sm.progress[p].nextIndex <= |n.log| + 1
    requires forall k | 0 <= k < |n.log| :: n.log[k].data == []
    ensures var next := n.sm.progress[p].nextIndex; var e := OnProposal(cfg, n, Proposal([], tx));
            AppendReq(p, AppendEntriesRequest(n.sm.currentTerm, cfg.id, next - 1, TermOf(n.log, next - 1),
                                              e.0.log[next - 1..], n.sm.commitIndex)) in e.1
  {
    hide OnProposal, ReplicateAll, BuildAppend, TermOf;
    Appended(cfg, n, tx);
    var n' := OnProposal(cfg, n, Proposal([], tx)).0;
    OfferedToAll(cfg, n', p);
    OfferedFrom(cfg, n, n', n.sm.progress[p].nextIndex);
  }

  /** A data-free proposal went into the log, and the log from `p`'s next index on went to `p`. */
  ghost predicate Proposed(id: NodeId, n: Node, p: NodeId, tx: Option<nat>, e: Effect)
    requires p in n.sm.progress && n.sm.progress[p].nextIndex <= |n.log| + 1
  {
    var next := n.sm.progress[p].nextIndex;
    && e.node.sm == n.sm && e.node.replies == n.replies
    && e.node.log == n.log + [LogEntry(n.sm.currentTerm, |n.log| + 1, [], Normal)]
    && e.node.pending == n.pending
       + (if tx.Some? then [Pending(|n.log| + 1, tx.value, n.sm.currentTerm, [])] else [])
    && AppendReq(p, AppendEntriesRequest(n.sm.currentTerm, id, next - 1, TermOf(n.log, next - 1),
                                         e.node.log[next - 1..], n.sm.commitIndex)) in e.sent
  }

  /** The whole effect of a proposal, seen by one peer. */
  lemma Proposes(cfg: RaftConfig, n: Node, p: NodeId, tx: Option<nat>)
    requires p in cfg.peers && n.sm.role == Leader && p in n.sm.progress
    requires |n.log| <= 1 && n.sm.progress[p].nextIndex <= |n.log| + 1
    requires forall k | 0 <= k < |n.log| :: n.log[k].data == []
    ensures Proposed(cfg.id, n, p, tx, Act(cfg, n, Propose(cfg.id, Proposal([], tx))))
  {
    hide OnProposal, StartElection, Heartbeat, Handle, Restart, TermOf;
    Appended(cfg, n, tx);
    ProposalOffered(cfg, n, p, tx);
  }

  /** What a leader offers from `next` on, having just added a data-free entry. */
  lemma OfferedFrom(cfg: RaftConfig, n: Node, n': Node, next: NextIndex)
    requires n'.sm == n.sm && n.log <= n'.log && |n'.log| <= 2 && next <= |n.log| + 1 == |n'.log|
    requires forall k | 0 <= k < |n'.log| :: n'.log[k].data == []
    ensures BuildAppend(cfg, n', next)
         == AppendEntriesRequest(n.sm.currentTerm, cfg.id, next - 1, TermOf(n.log, next - 1), n'.log[next - 1..],
                                 n.sm.commitIndex)
  {
    hide TakeCapped;
    ReadsAll(n'.log[next - 1..], ReadLimit(cfg));
    TermOfPrefix(n.log, n'.log, next - 1);
  }

  lemma TermOfPrefix(log: seq<LogEntry>, longer: seq<LogEntry>, i: LogIndex)
    requires log <= longer && i <= |log|
    ensures TermOf(longer, i) == TermOf(log, i)
  {
  }

  lemma OfferedToAll(cfg: RaftConfig, n: Node, p: NodeId)
    requires p in cfg.peers && n.sm.role == Leader && p in n.sm.progress
    ensures AppendReq(p, BuildAppend(cfg, n, n.sm.progress[p].nextIndex)) in ReplicateAll(cfg, n)
  {
    var k :| 0 <= k < |cfg.peers| && cfg.peers[k] == p;
    OfferedInTurn(cfg, n, k, |cfg.peers|);
  }

  lemma {:induction false} OfferedInTurn(cfg: RaftConfig, n: Node, k: nat, count: nat)
    requires k < count <= |cfg.peers| && cfg.peers[k] in n.sm.progress
    ensures AppendReq(cfg.peers[k], BuildAppend(cfg, n, n.sm.progress[cfg.peers[k]].nextIndex))
         in ReplicateToFirst(cfg, n, count)
  {
    hide BuildAppend;
    if k < count - 1 {
      OfferedInTurn(cfg, n, k, count - 1);
    }
  }

  /** A non-empty batch that passes the consistency check replaces everything from its first index on. */
  lemma Appends(cfg: RaftConfig, n: Node, req: AppendEntriesRequest)
    requires Accepts(n, req) && req.leaderCommit == 0
    requires req.entries != [] && req.entries[0].index == req.prevLogIndex + 1
    ensures var e := Act(cfg, n, Deliver(AppendReq(cfg.id, req)));
            && e.node.sm.currentTerm == req.term
            && e.node.sm.commitIndex == n.sm.commitIndex
            && e.node.sm.role == (if req.term > n.sm.currentTerm then Follower else n.sm.role)
            && e.node.log == n.log[..req.prevLogIndex] + req.entries
            && e.node.pending == n.pending && e.node.replies == n.replies
            && AppendRep(cfg.id, req.leaderId, req.LastIndex(), AppendEntriesResponse(req.term, true, 0, 0)) in e.sent
  {
    assert n.log[..|n.log|] == n.log;
    var e := Act(cfg, n, Deliver(AppendReq(cfg.id, req)));
    assert e.sent[0]
        == AppendRep(cfg.id, req.leaderId, req.LastIndex(), AppendEntriesResponse(req.term, true, 0, 0));
  }

  // ----- acknowledgements

  /** What a leader has on `src` after a success that covers its whole log. */
  function Acked(n: Node, src: NodeId): map<NodeId, Progress>
    requires src in n.sm.progress
  {
    n.sm.progress[src := UpdateProgress(n.sm.progress[src], |n.log|, AppendEntriesResponse(0, true, 0, 0))]
  }

  /** An acknowledgement of the leader's whole log, which ends in its own term, commits it once a quorum holds it;
      the term of the acknowledgement is not compared. */
  lemma Commits(cfg: RaftConfig, n: Node, src: NodeId, term: Term)
    requires n.sm.role == Leader && src in n.sm.progress && term <= n.sm.currentTerm
    requires |n.log| > n.sm.commitIndex && TermOf(n.log, |n.log|) == n.sm.currentTerm
    requires |Replicated(Acked(n, src), |n.log|)| + 1 >= cfg.Quorum()
    ensures var resp := AppendEntriesResponse(term, true, 0, 0);
            var e := Act(cfg, n, Deliver(AppendRep(src, cfg.id, |n.log|, resp)));
            && e.node.sm.commitIndex == |n.log| && e.node.log == n.log
            && e.node.replies == n.replies + CommitReplies(n.pending, |n.log|, n.sm.currentTerm)
  {
    hide Replicated;
    assert CommitScan(n.log, n.sm.currentTerm, Acked(n, src), cfg.Quorum(), n.sm.commitIndex, |n.log|) == |n.log|;
  }

  /** Short of a quorum, and with only its last entry of its own term, the leader just takes note. */
  lemma NotesAck(cfg: RaftConfig, n: Node, src: NodeId)
    requires n.sm.role == Leader && src in n.sm.progress && n.sm.commitIndex == 0
    requires |n.log| == 2 && TermOf(n.log, 1) != n.sm.currentTerm
    requires |Replicated(Acked(n, src), 2)| + 1 < cfg.Quorum()
    ensures var resp := AppendEntriesResponse(n.sm.currentTerm, true, 0, 0);
            var e := Act(cfg, n, Deliver(AppendRep(src, cfg.id, 2, resp)));
            e.node.log == n.log && e.node.sm == n.sm.(progress := Acked(n, src))
  {
    hide Replicated;
    var commit := CommitScan(n.log, n.sm.currentTerm, Acked(n, src), cfg.Quorum(), 0, 2);
    assert commit == CommitScan(n.log, n.sm.currentTerm, Acked(n, src), cfg.Quorum(), 0, 1);
    assert CommitScan(n.log, n.sm.currentTerm, Acked(n, src), cfg.Quorum(), 0, 1)
        == CommitScan(n.log, n.sm.currentTerm, Acked(n, src), cfg.Quorum(), 0, 0) == 0;
  }

  // ----- whole exchanges

  /** Nothing has happened to nodes outside `ids`, and no message is gone. */
  ghost predicate Untouched(s: State, s': State, ids: set<NodeId>) {
    && s'.nodes.Keys == s.nodes.Keys && s.net <= s'.net
    && forall j | j in s.nodes && j !in ids :: s'.nodes[j] == s.nodes[j]
  }

  /** Whatever `t` meets of H2 and of H1 on votes, and of H1 if no acknowledgement came late, `t'` meets too. */
  ghost predicate Lawfully(c: Topology, t: Trace, t': Trace) {
    && t'.Valid(c)
    && (RunMeetsH1(t.ss, t.steps) ==> RunMeetsH1(t'.ss, t'.steps))
    && (RunMeetsH2(t.ss, t.steps) ==> RunMeetsH2(t'.ss, t'.steps))
    && (VotesMeetH1(t.ss, t.steps) ==> VotesMeetH1(t'.ss, t'.steps))
  }

  /** A follower of term `term` with log `log` that has committed nothing. */
  ghost predicate Follows(n: Node, term: Term, log: seq<LogEntry>) {
    n.sm.role == Follower && n.sm.currentTerm == term && n.log == log && n.sm.commitIndex == 0
  }

  /** A leader of term `term` with log `log` that has committed nothing and knows of no follower's log. */
  ghost predicate Leads(cfg: RaftConfig, n: Node, term: Term, log: seq<LogEntry>, next: NextIndex) {
    && n.sm.role == Leader && n.sm.currentTerm == term && n.log == log && n.sm.commitIndex == 0
    && n.sm.progress == map p | p in cfg.peers :: Progress(next, 0, false)
  }

  function AskOf(cfg: RaftConfig, n: Node): RequestVoteRequest {
    RequestVoteRequest(n.sm.currentTerm + 1, cfg.id, |n.log|, TermOf(n.log, |n.log|))
  }

  /** `v` can be won over by a campaign of a node in state `n`. */
  ghost predicate WillVote(cfg: RaftConfig, n: Node, v: Node) {
    v.sm.currentTerm <= n.sm.currentTerm && UpToDate(AskOf(cfg, n), v.log)
  }

  lemma TakeTimeout(c: Topology, t: Trace, i: NodeId, v: NodeId, w: NodeId) returns (t': Trace)
    requires t.Valid(c) && i in c && c[i].id == i && v in c[i].peers && w in c[i].peers
    requires t.Last().nodes[i].sm.role != Leader
    ensures Lawfully(c, t, t') && Untouched(t.Last(), t'.Last(), {i})
    ensures var n, n' := t.Last().nodes[i], t'.Last().nodes[i];
            && n'.sm.currentTerm == n.sm.currentTerm + 1 && n'.sm.role == Candidate && n'.sm.votesReceived == {i}
            && n'.log == n.log && n'.sm.commitIndex == n.sm.commitIndex
            && VoteReq(v, AskOf(c[i], n)) in t'.Last().net && VoteReq(w, AskOf(c[i], n)) in t'.Last().net
  {
    hide Act, IsRun, RunMeetsH1, RunMeetsH2, MeetsH2, VotesMeetH1, TermOf;
    TimesOut(c[i], t.Last().nodes[i], v);
    TimesOut(c[i], t.Last().nodes[i], w);
    t' := Take(c, t, Timeout(i));
  }

  lemma TakeVote(c: Topology, t: Trace, v: NodeId, ask: RequestVoteRequest) returns (t': Trace)
    requires t.Valid(c) && v in c && c[v].id == v && VoteReq(v, ask) in t.Last().net
    requires ask.term > t.Last().nodes[v].sm.currentTerm && UpToDate(ask, t.Last().nodes[v].log)
    ensures Lawfully(c, t, t') && Untouched(t.Last(), t'.Last(), {v})
    ensures VoteRep(v, ask.candidateId, RequestVoteResponse(ask.term, true)) in t'.Last().net
    ensures var n, n' := t.Last().nodes[v], t'.Last().nodes[v];
            && n'.sm.currentTerm == ask.term && n'.sm.role == Follower
            && n'.log == n.log && n'.sm.commitIndex == n.sm.commitIndex
  {
    hide Act, IsRun, RunMeetsH1, RunMeetsH2, MeetsH2, VotesMeetH1, UpToDate;
    Grants(c[v], t.Last().nodes[v], ask);
    t' := Take(c, t, Deliver(VoteReq(v, ask)));
  }

  lemma TakeVictory(c: Topology, t: Trace, i: NodeId, v: NodeId, w: NodeId) returns (t': Trace)
    requires t.Valid(c) && i in c && c[i].id == i && |c[i].peers| == 4 && v != i && w != i && v != w
    requires var n := t.Last().nodes[i]; n.sm.role == Candidate && n.sm.votesReceived == {i} && n.sm.commitIndex == 0
    requires VoteRep(v, i, RequestVoteResponse(t.Last().nodes[i].sm.currentTerm, true)) in t.Last().net
    requires VoteRep(w, i, RequestVoteResponse(t.Last().nodes[i].sm.currentTerm, true)) in t.Last().net
    ensures Lawfully(c, t, t') && Untouched(t.Last(), t'.Last(), {i})
    ensures var n := t.Last().nodes[i];
            Leads(c[i], t'.Last().nodes[i], n.sm.currentTerm, n.log, |n.log| + 1)
  {
    hide Act, IsRun, RunMeetsH1, RunMeetsH2, MeetsH2, VotesMeetH1;
    var n := t.Last().nodes[i];
    assert |{i} + {v}| == 2 && |{i} + {v} + {w}| == 3;
    VoteCounts(c[i], n, v, n.sm.currentTerm);
    t' := Take(c, t, Deliver(VoteRep(v, i, RequestVoteResponse(n.sm.currentTerm, true))));
    Wins(c[i], t'.Last().nodes[i], w, n.sm.currentTerm);
    t' := Take(c, t', Deliver(VoteRep(w, i, RequestVoteResponse(n.sm.currentTerm, true))));
  }

  /** Node `i` of five becomes leader with the votes of `v` and `w`. */
  lemma Elect(c: Topology, t: Trace, i: NodeId, v: NodeId, w: NodeId) returns (t': Trace)
    requires t.Valid(c) && i in c && v in c && w in c && c[i].id == i && c[v].id == v && c[w].id == w
    requires |c[i].peers| == 4 && v in c[i].peers && w in c[i].peers && v != i && w != i && v != w
    requires t.Last().nodes[i].sm.role != Leader && t.Last().nodes[i].sm.commitIndex == 0
    requires WillVote(c[i], t.Last().nodes[i], t.Last().nodes[v]) && t.Last().nodes[v].sm.commitIndex == 0
    requires WillVote(c[i], t.Last().nodes[i], t.Last().nodes[w]) && t.Last().nodes[w].sm.commitIndex == 0
    ensures Lawfully(c, t, t') && Untouched(t.Last(), t'.Last(), {i, v, w})
    ensures var n, n' := t.Last().nodes, t'.Last().nodes; var term := n[i].sm.currentTerm + 1;
            && Leads(c[i], n'[i], term, n[i].log, |n[i].log| + 1)
            && Follows(n'[v], term, n[v].log) && Follows(n'[w], term, n[w].log)
  {
    hide IsRun, RunMeetsH1, RunMeetsH2, VotesMeetH1, UpToDate, TermOf;
    var ask := AskOf(c[i], t.Last().nodes[i]);
    t' := TakeTimeout(c, t, i, v, w);
    t' := TakeVote(c, t', v, ask);
    t' := TakeVote(c, t', w, ask);
    t' := TakeVictory(c, t', i, v, w);
  }

  /** The request that offers the log `log` to a peer from `next` on, before anything is committed. */
  function Offer(i: NodeId, term: Term, log: seq<LogEntry>, next: NextIndex): AppendEntriesRequest
    requires next <= |log|
  {
    AppendEntriesRequest(term, i, next - 1, TermOf(log, next - 1), log[next - 1..], 0)
  }

  lemma ProposalOfLeader(cfg: RaftConfig, n: Node, term: Term, log: seq<LogEntry>, next: NextIndex, p: NodeId)
    requires Leads(cfg, n, term, log, next) && |log| <= 1 && next <= |log| + 1 && p in cfg.peers
    requires forall k | 0 <= k < |log| :: log[k].data == []
    ensures var log' := log + [Entry(term, |log| + 1)]; var e := Act(cfg, n, Propose(cfg.id, Proposal([], None)));
            && e.node.sm == n.sm && e.node.log == log'
            && AppendReq(p, Offer(cfg.id, term, log', next)) in e.sent
  {
    hide Act, TermOf;
    Proposes(cfg, n, p, None);
    TermOfPrefix(log, log + [Entry(term, |log| + 1)], next - 1);
  }

  /** A leader proposes a data-free entry and offers it to every peer. */
  lemma TakeProposal(c: Topology, t: Trace, i: NodeId, term: Term, log: seq<LogEntry>, next: NextIndex) returns (t': Trace)
    requires t.Valid(c) && i in c && c[i].id == i && |c[i].peers| > 0
    requires Leads(c[i], t.Last().nodes[i], term, log, next) && |log| <= 1 && next <= |log| + 1
    requires forall k | 0 <= k < |log| :: log[k].data == []
    ensures Lawfully(c, t, t') && Untouched(t.Last(), t'.Last(), {i})
    ensures var log' := log + [Entry(term, |log| + 1)];
            && Leads(c[i], t'.Last().nodes[i], term, log', next)
            && forall p | p in c[i].peers :: AppendReq(p, Offer(i, term, log', next)) in t'.Last().net
  {
    hide Act, IsRun, RunMeetsH1, RunMeetsH2, MeetsH2, VotesMeetH1, TermOf, Offer;
    t' := Take(c, t, Propose(i, Proposal([], None)));
    ProposalOfLeader(c[i], t.Last().nodes[i], term, log, next, c[i].peers[0]);
    forall p | p in c[i].peers ensures AppendReq(p, Offer(i, term, log + [Entry(term, |log| + 1)], next)) in t'.Last().net {
      ProposalOfLeader(c[i], t.Last().nodes[i], term, log, next, p);
    }
  }

  /** A node takes over a batch whose delivery meets H2 and acknowledges it. */
  lemma TakeAppend(c: Topology, t: Trace, p: NodeId, req: AppendEntriesRequest) returns (t': Trace)
    requires t.Valid(c) && p in c && c[p].id == p && AppendReq(p, req) in t.Last().net
    requires Accepts(t.Last().nodes[p], req) && t.Last().nodes[p].sm.commitIndex == 0
    requires t.Last().nodes[p].sm.role == Follower || t.Last().nodes[p].sm.currentTerm < req.term
    requires req.leaderCommit == 0 && req.entries != [] && req.entries[0].index == req.prevLogIndex + 1
    requires MeetsH2(t.Last(), Deliver(AppendReq(p, req)))
    ensures Lawfully(c, t, t') && Untouched(t.Last(), t'.Last(), {p})
    ensures Follows(t'.Last().nodes[p], req.term, t.Last().nodes[p].log[..req.prevLogIndex] + req.entries)
    ensures AppendRep(p, req.leaderId, req.LastIndex(), AppendEntriesResponse(req.term, true, 0, 0)) in t'.Last().net
  {
    hide Act, IsRun, RunMeetsH1, RunMeetsH2, MeetsH2, VotesMeetH1;
    assert req.prevLogIndex <= |t.Last().nodes[p].log|;
    Appends(c[p], t.Last().nodes[p], req);
    hide Accepts;
    t' := Take(c, t, Deliver(AppendReq(p, req)));
  }
}
