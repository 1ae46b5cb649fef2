/** A cluster of nodes exchanging messages that may be lost, duplicated, delayed and reordered.
    Every handler runs under one lock, so each is one atomic step. */
module Cluster {
  import opened Core
  import opened NodeSpec

  type Topology = map<NodeId, RaftConfig>

  /** Fixed, shared membership: every node's config lists exactly the others. */
  ghost predicate WellFormed(c: Topology) {
    forall i | i in c :: ValidConfig(c[i]) && c[i].id == i && c[i].Members() == c.Keys
  }

  /** A strict majority of the cluster. */
  ghost predicate IsQuorum(c: Topology, q: set<NodeId>) {
    q <= c.Keys && 2 * |q| > |c|
  }

  datatype Slot = Slot(term: Term, node: NodeId)

  /** One leadership: who led, who voted for it, and its log when last seen leading. */
  datatype Reign = Reign(leader: NodeId, log: seq<LogEntry>, voters: set<NodeId>)

  /** What an outside observer has written down. No handler reads it.
      `acks[Slot(t, v)]`: v, in term t, confirmed that its log starts with that many entries of t's leader. */
  datatype History = History(
    votes: map<Slot, NodeId>,
    campaigns: map<Slot, seq<LogEntry>>,
    leaders: map<Term, Reign>,
    acks: map<Slot, nat>)

  const NO_HISTORY := History(map[], map[], map[], map[])

  /** `net` is every message ever sent; delivering one does not remove it. */
  datatype State = State(nodes: map<NodeId, Node>, net: set<Message>, history: History)

  datatype Step =
    | Timeout(node: NodeId)
    | Beat(node: NodeId)
    | Propose(node: NodeId, proposal: Proposal)
    | Deliver(message: Message)
    | Crash(node: NodeId)

  /** The outcome of one handler: the node afterwards, what it sent, and the length it confirmed. */
  datatype Effect = Effect(node: Node, sent: seq<Message>, ack: Option<nat>)

  function AckOf(h: History, term: Term, node: NodeId): nat {
    if Slot(term, node) in h.acks then h.acks[Slot(term, node)] else 0
  }

  /** The observer looks at node `i` right after a step. */
  function Observe(h: History, i: NodeId, e: Effect): History {
    var n := e.node;
    var t := n.sm.currentTerm;
    var slot := Slot(t, i);
    History(
      if n.sm.votedFor.Some? then h.votes[slot := n.sm.votedFor.value] else h.votes,
      if n.sm.role != Follower && slot !in h.campaigns then h.campaigns[slot := n.log] else h.campaigns,
      if n.sm.role == Leader then
        h.leaders[t := Reign(i, n.log, if t in h.leaders then h.leaders[t].voters else n.sm.votesReceived)]
      else h.leaders,
      if n.sm.role == Leader then h.acks[slot := |n.log|]
      else if e.ack.Some? && e.ack.value > AckOf(h, t, i) then h.acks[slot := e.ack.value]
      else h.acks)
  }

  function Handle(cfg: RaftConfig, n: Node, m: Message): Effect {
    match m
    case VoteReq(_, req) =>
      var (n', resp) := OnRequestVote(n, req);
      Effect(n', [VoteRep(cfg.id, req.candidateId, resp)], None)
    case VoteRep(src, _, resp) =>
      var (n', out) := HandleVoteResponse(cfg, n, src, resp);
      Effect(n', out, None)
    case AppendReq(_, req) =>
      var (n', resp) := OnAppendEntries(n, req);
      Effect(n', [AppendRep(cfg.id, req.leaderId, req.LastIndex(), resp)],
             if resp.success then Some(req.LastIndex()) else None)
    case AppendRep(src, _, reqLast, resp) =>
      Effect(HandleAppendResponse(cfg, n, src, reqLast, resp), [], None)
  }

  function Actor(step: Step): NodeId {
    match step
    case Timeout(i) => i
    case Beat(i) => i
    case Propose(i, _) => i
    case Deliver(m) => m.dst
    case Crash(i) => i
  }

  function Act(cfg: RaftConfig, n: Node, step: Step): Effect {
    match step
    case Timeout(_) => var (n', out) := StartElection(cfg, n); Effect(n', out, None)
    case Beat(_) => var (n', out) := Heartbeat(cfg, n); Effect(n', out, None)
    case Propose(_, p) => var (n', out) := OnProposal(cfg, n, p); Effect(n', out, None)
    case Deliver(m) => Handle(cfg, n, m)
    case Crash(_) => Effect(Restart(n), [], None)
  }

  /** Election timeouts fire on any node that is not leader, heartbeats on leaders. */
  predicate Enabled(c: Topology, s: State, step: Step) {
    && Actor(step) in c && Actor(step) in s.nodes
    && match step
       case Timeout(i) => s.nodes[i].sm.role != Leader
       case Beat(i) => s.nodes[i].sm.role == Leader
       case Propose(_, _) => true
       case Deliver(m) => m in s.net
       case Crash(_) => true
  }

  function Next(c: Topology, s: State, step: Step): State
    requires Enabled(c, s, step)
  {
    var i := Actor(step);
    var e := Act(c[i], s.nodes[i], step);
    State(s.nodes[i := e.node], s.net + (set m | m in e.sent), Observe(s.history, i, e))
  }

  function Init(c: Topology): State {
    State(map i | i in c :: FRESH_NODE, {}, NO_HISTORY)
  }

  // ----- run hypotheses

  /** H1: a reply from a term the receiver has left is not delivered. */
  predicate MeetsH1(s: State, step: Step) {
    step.Deliver? && step.message.dst in s.nodes ==>
      var t := s.nodes[step.message.dst].sm.currentTerm;
      match step.message
      case VoteRep(_, _, resp) => resp.term >= t
      case AppendRep(_, _, _, resp) => resp.term >= t
      case _ => true
  }

  /** The two logs have the same first `k` entries. */
  ghost predicate Agree(a: seq<LogEntry>, b: seq<LogEntry>, k: nat) {
    k <= |a| && k <= |b| && forall j | 0 <= j < k :: a[j] == b[j]
  }

  /** An accepted non-empty append does not end short of the prefix on which the follower's log
      agrees with the leader's. */
  ghost predicate KeepsAgreement(n: Node, req: AppendEntriesRequest, leaderLog: seq<LogEntry>) {
    Accepts(n, req) && req.entries != [] ==> !Agree(n.log, leaderLog, req.LastIndex() + 1)
  }

  /** H2: every delivered append keeps the agreement with its leader's log. */
  ghost predicate MeetsH2(s: State, step: Step) {
    step.Deliver? && step.message.AppendReq? && step.message.dst in s.nodes
    && step.message.appendReq.term in s.history.leaders ==>
      KeepsAgreement(s.nodes[step.message.dst], step.message.appendReq,
                     s.history.leaders[step.message.appendReq.term].log)
  }

  /** `ss` is a run from the initial state that takes `steps` in order. */
  ghost predicate IsRun(c: Topology, ss: seq<State>, steps: seq<Step>) {
    && WellFormed(c)
    && |ss| == |steps| + 1
    && ss[0] == Init(c)
    && forall k | 0 <= k < |steps| :: Enabled(c, ss[k], steps[k]) && ss[k + 1] == Next(c, ss[k], steps[k])
  }

  ghost predicate RunMeetsH1(ss: seq<State>, steps: seq<Step>) {
    forall k | 0 <= k < |steps| && k < |ss| :: MeetsH1(ss[k], steps[k])
  }

  ghost predicate RunMeetsH2(ss: seq<State>, steps: seq<Step>) {
    forall k | 0 <= k < |steps| && k < |ss| :: MeetsH2(ss[k], steps[k])
  }
}
