/** What holds in every run, whatever is delivered and however late: durable terms and votes, well-shaped logs. */
module EveryRun {
  import opened Core
  import opened LogSpec
  import opened NodeSpec
  import opened Cluster
  import opened Invariants
  import opened Handlers

  /** What is in memory is on disk, and the log is in order. */
  ghost predicate Sound(n: Node) {
    && Persisted(n)
    && Shaped(n.log, n.sm.currentTerm)
    && (n.sm.role != Follower ==> n.sm.currentTerm >= 1)
  }

  /** The batch continues a log that ends at `prevLogIndex` in term `prevLogTerm`. */
  ghost predicate SoundRequest(req: AppendEntriesRequest) {
    && ContiguousFrom(req.entries, req.prevLogIndex + 1)
    && TermsSorted(req.entries)
    && forall j | 0 <= j < |req.entries| ::
      1 <= req.entries[j].term <= req.term && req.prevLogTerm <= req.entries[j].term
  }

  ghost predicate SoundMessage(m: Message) {
    match m
    case VoteReq(_, req) => req.candidateId > 0
    case AppendReq(_, req) => SoundRequest(req)
    case _ => true
  }

  /** The term never falls, and a vote cast in it stands. */
  ghost predicate Holds(n: Node, n': Node) {
    && n.sm.currentTerm <= n'.sm.currentTerm
    && (n.sm.currentTerm == n'.sm.currentTerm && n.sm.votedFor.Some? ==> n'.sm.votedFor == n.sm.votedFor)
  }

  ghost predicate Soundly(n: Node, e: Effect) {
    Sound(e.node) && Holds(n, e.node) && forall m | m in e.sent :: SoundMessage(m)
  }

  // ----- one step

  lemma SuffixIsSound(cfg: RaftConfig, n: Node, next: NextIndex)
    requires Shaped(n.log, n.sm.currentTerm)
    ensures SoundRequest(BuildAppend(cfg, n, next))
  {
    if |n.log| >= next {
      CappedReadIsMaximal(n.log[next - 1..], ReadLimit(cfg));
    }
    hide TakeCapped, Shaped, SoundRequest;
    SegmentIsSound(BuildAppend(cfg, n, next), n.log);
  }

  lemma SegmentIsSound(req: AppendEntriesRequest, log: seq<LogEntry>)
    requires Shaped(log, req.term) && req.prevLogTerm == TermOf(log, req.prevLogIndex)
    requires req.entries != [] ==> req.LastIndex() <= |log|
    requires forall j | 0 <= j < |req.entries| :: req.entries[j] == log[req.prevLogIndex + j]
    ensures SoundRequest(req)
  {
  }

  lemma {:induction false} OffersAreSound(cfg: RaftConfig, n: Node, count: nat)
    requires Shaped(n.log, n.sm.currentTerm) && count <= |cfg.peers|
    ensures forall m | m in ReplicateToFirst(cfg, n, count) :: SoundMessage(m)
  {
    if count > 0 {
      OffersAreSound(cfg, n, count - 1);
      var peer := cfg.peers[count - 1];
      if peer in n.sm.progress {
        SuffixIsSound(cfg, n, n.sm.progress[peer].nextIndex);
      }
      hide BuildAppend, Shaped, SoundRequest;
    }
  }

  lemma ReplicationIsSound(cfg: RaftConfig, n: Node)
    requires Shaped(n.log, n.sm.currentTerm)
    ensures forall m | m in ReplicateAll(cfg, n) :: SoundMessage(m)
  {
    OffersAreSound(cfg, n, |cfg.peers|);
  }

  lemma AdoptIsSound(n: Node, term: Term, leader: Option<NodeId>)
    requires Sound(n)
    ensures Sound(Adopt(n, term, leader)) && Holds(n, Adopt(n, term, leader))
    ensures Adopt(n, term, leader).sm.currentTerm >= term && Adopt(n, term, leader).log == n.log
  {
    if term > n.sm.currentTerm {
      ShapedLater(n.log, n.sm.currentTerm, term);
    }
    hide Shaped;
  }

  lemma TimeoutIsSound(cfg: RaftConfig, n: Node)
    requires Sound(n) && cfg.id > 0
    ensures Soundly(n, Act(cfg, n, Timeout(cfg.id)))
  {
    hide Heartbeat, OnProposal, Handle, Restart, ReplicateAll, Shaped, TermOf;
    ShapedLater(n.log, n.sm.currentTerm, n.sm.currentTerm + 1);
    ReplicationIsSound(cfg, Act(cfg, n, Timeout(cfg.id)).node);
  }

  lemma AdvanceIsSound(cfg: RaftConfig, n: Node)
    requires Sound(n)
    ensures Sound(MaybeAdvanceCommit(cfg, n)) && Holds(n, MaybeAdvanceCommit(cfg, n))
  {
    hide CommitScan, Shaped;
  }

  lemma BeatIsSound(cfg: RaftConfig, n: Node)
    requires Sound(n)
    ensures Soundly(n, Act(cfg, n, Beat(cfg.id)))
  {
    hide StartElection, OnProposal, Handle, Restart, ReplicateAll, MaybeAdvanceCommit, ApplyCommitted, Shaped;
    AdvanceIsSound(cfg, n);
    ApplyFacts(MaybeAdvanceCommit(cfg, n));
    ReplicationIsSound(cfg, n);
  }

  lemma ProposalIsSound(cfg: RaftConfig, n: Node, p: Proposal)
    requires Sound(n)
    ensures Soundly(n, Act(cfg, n, Propose(cfg.id, p)))
  {
    hide StartElection, Heartbeat, Handle, Restart, ReplicateAll;
    if n.sm.role == Leader {
      ReplicationIsSound(cfg, Act(cfg, n, Propose(cfg.id, p)).node);
    }
  }

  lemma CrashIsSound(cfg: RaftConfig, n: Node)
    requires Sound(n)
    ensures Soundly(n, Act(cfg, n, Crash(cfg.id)))
  {
    hide StartElection, Heartbeat, Handle, OnProposal, Shaped;
  }

  lemma VoteRequestIsSound(cfg: RaftConfig, n: Node, req: RequestVoteRequest)
    requires Sound(n) && req.candidateId > 0
    ensures Soundly(n, Handle(cfg, n, VoteReq(cfg.id, req)))
  {
    AdoptIsSound(n, req.term, None);
    hide Shaped, UpToDate, Adopt;
  }

  lemma VoteReplyIsSound(cfg: RaftConfig, n: Node, src: NodeId, resp: RequestVoteResponse)
    requires Sound(n)
    ensures Soundly(n, Handle(cfg, n, VoteRep(src, cfg.id, resp)))
  {
    AdoptIsSound(n, resp.term, None);
    hide Shaped, ReplicateAll, Adopt;
    ReplicationIsSound(cfg, Handle(cfg, n, VoteRep(src, cfg.id, resp)).node);
  }

  /** An accepted batch continues what is kept of the log. */
  lemma SplicedIsShaped(n: Node, req: AppendEntriesRequest)
    requires Shaped(n.log, req.term) && SoundRequest(req) && Accepts(n, req)
    ensures Shaped(Splice(n.log, req.entries), req.term)
  {
    SpliceNothing(n.log);
    if req.entries != [] {
      var kept, entries, log := n.log[..req.prevLogIndex], req.entries, Splice(n.log, req.entries);
      SpliceAt(n.log, entries, req.prevLogIndex);
      assert log == kept + entries;
      hide Splice;
      forall j, k | 0 <= j < k < |log| ensures log[j].term <= log[k].term {
        if j < |kept| <= k {
          assert log[j].term <= n.log[|kept| - 1].term == req.prevLogTerm <= log[k].term;
        }
      }
    }
  }

  lemma AcceptIsSound(n: Node, req: AppendEntriesRequest)
    requires Sound(n) && SoundRequest(req) && Accepts(n, req) && n.sm.currentTerm == req.term
    ensures Sound(Accept(n, req)) && Holds(n, Accept(n, req))
  {
    SplicedIsShaped(n, req);
    hide Shaped, SoundRequest, Splice, LastIndexOf, Accepts;
  }

  lemma AppendIsSound(cfg: RaftConfig, n: Node, req: AppendEntriesRequest)
    requires Sound(n) && SoundRequest(req)
    ensures Soundly(n, Handle(cfg, n, AppendReq(cfg.id, req)))
  {
    var n1 := Adopt(n, req.term, Some(req.leaderId));
    var n2 := n1.(sm := n1.sm.(leaderId := Some(req.leaderId)));
    AppendOutcome(cfg, n, req);
    AdoptIsSound(n, req.term, Some(req.leaderId));
    hide Handle, OnAppendEntries, Shaped, SoundRequest, Accept, Accepts, Adopt;
    assert Sound(n2) && Holds(n, n2);
    if Handle(cfg, n, AppendReq(cfg.id, req)).ack != None {
      AcceptIsSound(n2, req);
    }
  }

  lemma AckIsSound(cfg: RaftConfig, n: Node, src: NodeId, reqLast: LogIndex, resp: AppendEntriesResponse)
    requires Sound(n)
    ensures Soundly(n, Handle(cfg, n, AppendRep(src, cfg.id, reqLast, resp)))
  {
    AdoptIsSound(n, resp.term, None);
    hide Shaped, Adopt, MaybeAdvanceCommit, UpdateProgress;
    if src in n.sm.progress {
      AdvanceIsSound(cfg,
        n.(sm := n.sm.(progress := n.sm.progress[src := UpdateProgress(n.sm.progress[src], reqLast, resp)])));
    }
    AdvanceIsSound(cfg, n);
  }

  lemma ActIsSound(cfg: RaftConfig, n: Node, step: Step)
    requires Sound(n) && cfg.id == Actor(step) && cfg.id > 0
    requires step.Deliver? ==> SoundMessage(step.message)
    ensures Soundly(n, Act(cfg, n, step))
  {
    match step
    case Timeout(_) => TimeoutIsSound(cfg, n);
    case Beat(_) => BeatIsSound(cfg, n);
    case Propose(_, p) => ProposalIsSound(cfg, n, p);
    case Crash(_) => CrashIsSound(cfg, n);
    case Deliver(m) =>
      hide Handle, Sound, Soundly;
      match m
      case VoteReq(_, req) => VoteRequestIsSound(cfg, n, req);
      case VoteRep(src, _, resp) => VoteReplyIsSound(cfg, n, src, resp);
      case AppendReq(_, req) => AppendIsSound(cfg, n, req);
      case AppendRep(src, _, reqLast, resp) => AckIsSound(cfg, n, src, reqLast, resp);
  }

  // ----- every run

  ghost predicate AllSound(c: Topology, s: State) {
    && s.nodes.Keys == c.Keys
    && (forall i | i in c :: Sound(s.nodes[i]))
    && (forall m | m in s.net :: SoundMessage(m))
  }

  lemma NextIsSound(c: Topology, s: State, step: Step)
    requires WellFormed(c) && AllSound(c, s) && Enabled(c, s, step)
    ensures AllSound(c, Next(c, s, step))
    ensures forall i | i in c :: Holds(s.nodes[i], Next(c, s, step).nodes[i])
  {
    var i := Actor(step);
    assert c[i].id == i > 0;
    hide Act, Observe, Sound, SoundMessage, WellFormed, Holds, Soundly;
    ActIsSound(c[i], s.nodes[i], step);
    StaysSound(c, s, i, Act(c[i], s.nodes[i], step));
  }

  lemma StaysSound(c: Topology, s: State, i: NodeId, e: Effect)
    requires AllSound(c, s) && i in c && Soundly(s.nodes[i], e)
    ensures AllSound(c, State(s.nodes[i := e.node], s.net + (set m | m in e.sent), Observe(s.history, i, e)))
    ensures forall j | j in c :: Holds(s.nodes[j], s.nodes[i := e.node][j])
  {
    hide Observe, Sound, SoundMessage, Holds;
    forall j | j in c ensures Holds(s.nodes[j], s.nodes[i := e.node][j]) {
      HoldsIsReflexive(s.nodes[j]);
    }
  }

  lemma {:induction false} RunIsSound(c: Topology, ss: seq<State>, steps: seq<Step>, a: nat)
    requires IsRun(c, ss, steps) && a < |ss|
    ensures AllSound(c, ss[a])
  {
    hide Next;
    if a == 0 {
      assert ss[0] == Init(c);
    } else {
      hide AllSound;
      RunIsSound(c, ss, steps, a - 1);
      NextIsSound(c, ss[a - 1], steps[a - 1]);
    }
  }

  lemma HoldsIsTransitive(n: Node, n1: Node, n2: Node)
    requires Holds(n, n1) && Holds(n1, n2)
    ensures Holds(n, n2)
  {
  }

  lemma {:induction false} RunHolds(c: Topology, ss: seq<State>, steps: seq<Step>, a: nat, b: nat, i: NodeId)
    requires IsRun(c, ss, steps) && a <= b < |ss| && i in c
    ensures i in ss[a].nodes && i in ss[b].nodes && Holds(ss[a].nodes[i], ss[b].nodes[i])
  {
    hide Next, Holds, Sound, SoundMessage, WellFormed;
    RunIsSound(c, ss, steps, a);
    RunIsSound(c, ss, steps, b);
    if a == b {
      assert Holds(ss[a].nodes[i], ss[b].nodes[i]) by {
        HoldsIsReflexive(ss[a].nodes[i]);
      }
    } else {
      RunHolds(c, ss, steps, a, b - 1, i);
      RunIsSound(c, ss, steps, b - 1);
      NextIsSound(c, ss[b - 1], steps[b - 1]);
      HoldsIsTransitive(ss[a].nodes[i], ss[b - 1].nodes[i], ss[b].nodes[i]);
    }
  }

  lemma HoldsIsReflexive(n: Node)
    ensures Holds(n, n)
  {
  }

  /** Terms and votes survive everything: the term never falls, a vote in a term is never changed, and the disk always
      holds both, whatever replies a node counts. */
  lemma TermsAndVotesAreDurable(c: Topology, ss: seq<State>, steps: seq<Step>, a: nat, b: nat, i: NodeId)
    requires IsRun(c, ss, steps) && a <= b < |ss| && i in c
    ensures i in ss[a].nodes && i in ss[b].nodes
    ensures var n, n' := ss[a].nodes[i], ss[b].nodes[i];
            && Persisted(n)
            && n.sm.currentTerm <= n'.sm.currentTerm
            && (n.sm.currentTerm == n'.sm.currentTerm && n.sm.votedFor.Some? ==> n'.sm.votedFor == n.sm.votedFor)
  {
    RunIsSound(c, ss, steps, a);
    RunHolds(c, ss, steps, a, b, i);
    hide IsRun;
  }

  /** Log shape: contiguous from 1, with nondecreasing terms within 1..currentTerm. */
  lemma LogShape(c: Topology, ss: seq<State>, steps: seq<Step>, a: nat, i: NodeId)
    requires IsRun(c, ss, steps) && a < |ss| && i in c
    ensures i in ss[a].nodes && Shaped(ss[a].nodes[i].log, ss[a].nodes[i].sm.currentTerm)
  {
    RunIsSound(c, ss, steps, a);
  }

  /** Every append request in flight continues a log: its batch is contiguous from right after `prevLogIndex`, with
      nondecreasing terms from `prevLogTerm` up to the term of the request. So storage stays contiguous. */
  lemma RequestsAreContiguous(c: Topology, ss: seq<State>, steps: seq<Step>, a: nat, m: Message)
    requires IsRun(c, ss, steps) && a < |ss| && m in ss[a].net && m.AppendReq?
    ensures ContiguousFrom(m.appendReq.entries, m.appendReq.prevLogIndex + 1)
    ensures TermsSorted(m.appendReq.entries)
    ensures forall j | 0 <= j < |m.appendReq.entries| ::
              m.appendReq.prevLogTerm <= m.appendReq.entries[j].term <= m.appendReq.term
  {
    RunIsSound(c, ss, steps, a);
    assert SoundMessage(m);
  }
}
