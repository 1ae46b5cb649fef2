/** What every step keeps under H1 alone: terms, votes, log shape, log matching, election safety. */
module Invariants {
  import opened Core
  import opened NodeSpec
  import opened Cluster

  // ----- logs

  /** Contiguous from 1, terms nondecreasing and within 1..term. */
  ghost predicate Shaped(log: seq<LogEntry>, term: Term) {
    && (forall k | 0 <= k < |log| :: log[k].index == k + 1 && 1 <= log[k].term <= term)
    && (forall j, k | 0 <= j < k < |log| :: log[j].term <= log[k].term)
  }

  lemma ShapedLater(log: seq<LogEntry>, t: Term, t': Term)
    requires Shaped(log, t) && t <= t'
    ensures Shaped(log, t')
  {
  }

  /** Entry `k` and everything before it is a copy of the log of the leader that created it. */
  ghost predicate FromReign(h: History, log: seq<LogEntry>, k: nat)
    requires k < |log|
  {
    log[k].term in h.leaders && Agree(log, h.leaders[log[k].term].log, k + 1)
  }

  ghost predicate Sourced(h: History, log: seq<LogEntry>) {
    forall k | 0 <= k < |log| :: FromReign(h, log, k)
  }

  // ----- the observer's record

  ghost predicate VotedFor(h: History, term: Term, voter: NodeId, candidate: NodeId) {
    Slot(term, voter) in h.votes && h.votes[Slot(term, voter)] == candidate
  }

  ghost predicate ReignOK(c: Topology, h: History, t: Term)
    requires t in h.leaders
  {
    var r := h.leaders[t];
    && t >= 1
    && r.leader in c
    && IsQuorum(c, r.voters)
    && (forall v | v in r.voters :: VotedFor(h, t, v, r.leader))
    && Shaped(r.log, t)
    && Sourced(h, r.log)
  }

  ghost predicate CampaignOK(c: Topology, h: History, slot: Slot)
    requires slot in h.campaigns
  {
    slot.node in c && slot.term >= 1 && Shaped(h.campaigns[slot], slot.term - 1) && Sourced(h, h.campaigns[slot])
  }

  ghost predicate HistoryOK(c: Topology, h: History) {
    && (forall slot | slot in h.votes :: slot.node in c && Slot(slot.term, h.votes[slot]) in h.campaigns)
    && (forall slot | slot in h.campaigns :: CampaignOK(c, h, slot))
    && (forall t | t in h.leaders :: ReignOK(c, h, t))
    && (forall slot | slot in h.acks ::
          slot.node in c && slot.term in h.leaders && h.acks[slot] <= |h.leaders[slot.term].log|)
  }

  // ----- one node against the record

  /** Node `i`, leading term `t`, created this entry for a client. */
  ghost predicate ProposedAt(h: History, i: NodeId, index: LogIndex, t: Term, data: Data) {
    && t in h.leaders && h.leaders[t].leader == i
    && 1 <= index <= |h.leaders[t].log|
    && h.leaders[t].log[index - 1] == LogEntry(t, index, data, Normal)
  }

  ghost predicate Recorded(h: History, i: NodeId, n: Node) {
    var t := n.sm.currentTerm;
    && (n.sm.votedFor.Some? ==> VotedFor(h, t, i, n.sm.votedFor.value))
    && (n.sm.role != Follower ==> Slot(t, i) in h.campaigns)
    && (n.sm.role == Leader ==>
          && t in h.leaders && h.leaders[t].leader == i && h.leaders[t].log == n.log
          && Slot(t, i) in h.acks && h.acks[Slot(t, i)] == |n.log|)
  }

  /** Nothing is on record for node `i` in a term it has not reached. */
  ghost predicate Past(h: History, i: NodeId, n: Node) {
    var t := n.sm.currentTerm;
    && (forall slot | slot in h.votes && slot.node == i ::
          slot.term <= t && (slot.term == t ==> n.sm.votedFor == Some(h.votes[slot])))
    && (forall slot | slot in h.campaigns && slot.node == i :: slot.term <= t)
    && (forall slot | slot in h.acks && slot.node == i :: slot.term <= t)
    && (forall t0 | t0 in h.leaders && h.leaders[t0].leader == i :: t0 <= t)
  }

  ghost predicate RoleOK(c: Topology, h: History, i: NodeId, n: Node)
    requires i in c
  {
    var t := n.sm.currentTerm;
    && (n.sm.role == Candidate ==>
          && n.sm.votedFor == Some(i)
          && (t in h.leaders ==> h.leaders[t].leader != i)
          && (t !in h.leaders ==> Slot(t, i) in h.campaigns && h.campaigns[Slot(t, i)] == n.log)
          && (forall v | v in n.sm.votesReceived :: VotedFor(h, t, v, i)))
    && (n.sm.role == Leader ==>
          && n.sm.progress.Keys == (set p | p in c[i].peers)
          && forall p | p in n.sm.progress ::
            && n.sm.progress[p].nextIndex <= |n.log| + 1
            && n.sm.progress[p].matchIndex <= AckOf(h, t, p))
  }

  ghost predicate ClientsOK(h: History, i: NodeId, n: Node) {
    && (forall p | p in n.pending :: ProposedAt(h, i, p.index, p.term, p.data))
    && (forall r | r in n.replies && r.Granted? :: ProposedAt(h, i, r.index, r.proposedIn, r.data))
  }

  ghost predicate Persisted(n: Node) {
    n.hard == Encode(n.sm) && n.sm.votedFor != Some(0)
  }

  ghost predicate NodeOK(c: Topology, h: History, i: NodeId, n: Node)
    requires i in c
  {
    && Recorded(h, i, n)
    && Past(h, i, n)
    && RoleOK(c, h, i, n)
    && ClientsOK(h, i, n)
    && Persisted(n)
    && Shaped(n.log, n.sm.currentTerm)
    && Sourced(h, n.log)
  }

  // ----- one message against the record

  ghost predicate VoteReqOK(c: Topology, h: History, req: RequestVoteRequest) {
    var slot := Slot(req.term, req.candidateId);
    && slot in h.campaigns
    && req.lastLogIndex == |h.campaigns[slot]|
    && req.lastLogTerm == TermOf(h.campaigns[slot], req.lastLogIndex)
  }

  /** The request is a segment of the log of its term's leader. */
  ghost predicate AppendReqOK(h: History, dst: NodeId, req: AppendEntriesRequest) {
    && req.term in h.leaders
    && h.leaders[req.term].leader == req.leaderId != dst
    && var log := h.leaders[req.term].log;
       && req.LastIndex() <= |log|
       && req.prevLogTerm == TermOf(log, req.prevLogIndex)
       && forall j | 0 <= j < |req.entries| :: req.entries[j] == log[req.prevLogIndex + j]
  }

  ghost predicate AppendRepOK(h: History, src: NodeId, dst: NodeId, reqLast: LogIndex, resp: AppendEntriesResponse) {
    (resp.success || resp.conflictIndex > 0) ==>
      && resp.term in h.leaders
      && h.leaders[resp.term].leader == dst
      && (if resp.success then reqLast <= AckOf(h, resp.term, src)
          else resp.conflictIndex <= |h.leaders[resp.term].log|)
  }

  ghost predicate MessageOK(c: Topology, h: History, m: Message) {
    && m.dst in c
    && match m
       case VoteReq(_, req) => VoteReqOK(c, h, req)
       case VoteRep(src, dst, resp) => resp.voteGranted ==> VotedFor(h, resp.term, src, dst)
       case AppendReq(dst, req) => AppendReqOK(h, dst, req)
       case AppendRep(src, dst, reqLast, resp) => AppendRepOK(h, src, dst, reqLast, resp)
  }

  // ----- the cluster

  ghost predicate Inv1(c: Topology, s: State) {
    && s.nodes.Keys == c.Keys
    && HistoryOK(c, s.history)
    && (forall i | i in c :: NodeOK(c, s.history, i, s.nodes[i]))
    && (forall m | m in s.net :: MessageOK(c, s.history, m))
  }

  lemma NodeParts(c: Topology, h: History, i: NodeId, n: Node)
    requires i in c && NodeOK(c, h, i, n)
    ensures Recorded(h, i, n) && Past(h, i, n) && RoleOK(c, h, i, n) && ClientsOK(h, i, n)
    ensures Persisted(n) && Shaped(n.log, n.sm.currentTerm) && Sourced(h, n.log)
  {
  }

  lemma CampaignParts(c: Topology, h: History, slot: Slot)
    requires HistoryOK(c, h) && slot in h.campaigns
    ensures CampaignOK(c, h, slot)
  {
  }

  lemma ReignParts(c: Topology, h: History, t: Term)
    requires HistoryOK(c, h) && t in h.leaders
    ensures ReignOK(c, h, t)
  {
  }

  // ----- how the record may grow

  /** A leader's log grows at the end only, by entries of its own term. */
  ghost predicate ReignGrows(t: Term, r: Reign, r': Reign) {
    && r'.leader == r.leader && r'.voters == r.voters
    && GrowsBy(t, r.log, r'.log)
  }

  ghost predicate GrowsBy(t: Term, log: seq<LogEntry>, log': seq<LogEntry>) {
    Agree(log, log', |log|) && forall k | |log| <= k < |log'| :: log'[k].term == t
  }

  ghost predicate VotesGrow(h: History, h': History, i: NodeId, t: Term) {
    && (forall slot | slot in h.votes :: slot in h'.votes && h'.votes[slot] == h.votes[slot])
    && (forall slot | slot in h'.votes && slot !in h.votes :: slot == Slot(t, i))
  }

  ghost predicate CampaignsGrow(h: History, h': History, i: NodeId, t: Term) {
    && (forall slot | slot in h.campaigns :: slot in h'.campaigns && h'.campaigns[slot] == h.campaigns[slot])
    && (forall slot | slot in h'.campaigns && slot !in h.campaigns :: slot == Slot(t, i))
  }

  ghost predicate LeadersGrow(h: History, h': History, i: NodeId, t: Term) {
    && (forall t0 | t0 in h.leaders :: t0 in h'.leaders && ReignGrows(t0, h.leaders[t0], h'.leaders[t0]))
    && (forall t0 | t0 in h'.leaders :: (t0 in h.leaders && h'.leaders[t0] == h.leaders[t0])
                                        || (t0 == t && h'.leaders[t0].leader == i))
  }

  ghost predicate AcksGrow(h: History, h': History, i: NodeId, t: Term) {
    && (forall slot | slot in h.acks :: slot in h'.acks && h.acks[slot] <= h'.acks[slot])
    && (forall slot | slot in h'.acks && slot != Slot(t, i) :: slot in h.acks && h.acks[slot] == h'.acks[slot])
  }

  /** `h'` extends `h` by what node `i` did in term `t`. */
  ghost predicate Extends(h: History, h': History, i: NodeId, t: Term) {
    VotesGrow(h, h', i, t) && CampaignsGrow(h, h', i, t) && LeadersGrow(h, h', i, t) && AcksGrow(h, h', i, t)
  }

  /** `h'` was written down no earlier than `h`. */
  ghost predicate Later(h: History, h': History) {
    && (forall slot | slot in h.votes :: slot in h'.votes && h'.votes[slot] == h.votes[slot])
    && (forall t | t in h.leaders :: t in h'.leaders && ReignGrows(t, h.leaders[t], h'.leaders[t]))
    && (forall slot | slot in h.acks :: slot in h'.acks && h.acks[slot] <= h'.acks[slot])
  }

  lemma ExtendsIsLater(h: History, h': History, i: NodeId, t: Term)
    requires Extends(h, h', i, t)
    ensures Later(h, h')
  {
  }

  lemma SourcedLater(h: History, h': History, log: seq<LogEntry>)
    requires Later(h, h') && Sourced(h, log)
    ensures Sourced(h', log)
  {
    forall k | 0 <= k < |log| ensures FromReign(h', log, k) {
      assert FromReign(h, log, k);
      assert ReignGrows(log[k].term, h.leaders[log[k].term], h'.leaders[log[k].term]);
    }
  }

  lemma ReignStable(c: Topology, h: History, h': History, i: NodeId, t: Term, t0: Term)
    requires Extends(h, h', i, t) && t0 in h.leaders && h'.leaders[t0] == h.leaders[t0]
    requires ReignOK(c, h, t0)
    ensures ReignOK(c, h', t0)
  {
    ExtendsIsLater(h, h', i, t);
    SourcedLater(h, h', h.leaders[t0].log);
    forall v | v in h.leaders[t0].voters
      ensures VotedFor(h', t0, v, h.leaders[t0].leader)
    {
      assert VotedFor(h, t0, v, h.leaders[t0].leader);
    }
  }

  lemma OtherNodeStable(c: Topology, h: History, h': History, i: NodeId, t: Term, j: NodeId, n: Node)
    requires Extends(h, h', i, t) && i != j && j in c && NodeOK(c, h, j, n)
    ensures NodeOK(c, h', j, n)
  {
    ExtendsIsLater(h, h', i, t);
    SourcedLater(h, h', n.log);
    assert RoleOK(c, h', j, n) by {
      assert RoleOK(c, h, j, n);
      assert Recorded(h, j, n);
    }
  }

  lemma MessageStable(c: Topology, h: History, h': History, i: NodeId, t: Term, m: Message)
    requires Extends(h, h', i, t) && MessageOK(c, h, m)
    ensures MessageOK(c, h', m)
  {
    match m
    case VoteReq(_, req) =>
    case VoteRep(src, dst, resp) =>
    case AppendReq(_, req) =>
      assert ReignGrows(req.term, h.leaders[req.term], h'.leaders[req.term]);
    case AppendRep(src, dst, reqLast, resp) =>
      if resp.term in h.leaders {
        assert ReignGrows(resp.term, h.leaders[resp.term], h'.leaders[resp.term]);
      }
  }

  // ----- lawful transitions of one node

  /** `i` has vote `v` on record, or is casting it for itself right now. */
  ghost predicate Supports(h: History, n: Node, i: NodeId, v: NodeId) {
    VotedFor(h, n.sm.currentTerm, v, i) || (v == i && n.sm.votedFor == Some(i))
  }

  ghost predicate LawfulVote(h: History, i: NodeId, n: Node, n': Node) {
    && n'.sm.currentTerm >= n.sm.currentTerm
    && (n'.sm.currentTerm == n.sm.currentTerm && n.sm.votedFor.Some? ==> n'.sm.votedFor == n.sm.votedFor)
    && (n'.sm.votedFor.Some? ==>
          || Slot(n'.sm.currentTerm, n'.sm.votedFor.value) in h.campaigns
          || (n'.sm.votedFor.value == i && n'.sm.role != Follower))
  }

  ghost predicate LawfulLog(h: History, i: NodeId, n': Node) {
    && Shaped(n'.log, n'.sm.currentTerm)
    && (forall k | 0 <= k < |n'.log| ::
          FromReign(h, n'.log, k) || (n'.sm.role == Leader && n'.log[k].term == n'.sm.currentTerm))
    && (n'.sm.role != Follower && Slot(n'.sm.currentTerm, i) !in h.campaigns ==>
          n'.sm.currentTerm >= 1 && Shaped(n'.log, n'.sm.currentTerm - 1))
  }

  ghost predicate LawfulRole(c: Topology, h: History, i: NodeId, n': Node)
    requires i in c
  {
    var t := n'.sm.currentTerm;
    && (n'.sm.role == Candidate ==>
          && n'.sm.votedFor == Some(i)
          && (t in h.leaders ==> h.leaders[t].leader != i)
          && (t !in h.leaders && Slot(t, i) in h.campaigns ==> h.campaigns[Slot(t, i)] == n'.log)
          && (forall v | v in n'.sm.votesReceived :: Supports(h, n', i, v)))
    && (n'.sm.role == Leader ==>
          && t >= 1
          && (t in h.leaders ==> h.leaders[t].leader == i && GrowsBy(t, h.leaders[t].log, n'.log))
          && (t !in h.leaders ==>
                && IsQuorum(c, n'.sm.votesReceived)
                && forall v | v in n'.sm.votesReceived :: Supports(h, n', i, v))
          && n'.sm.progress.Keys == (set p | p in c[i].peers)
          && (forall p | p in n'.sm.progress ::
                && n'.sm.progress[p].nextIndex <= |n'.log| + 1
                && n'.sm.progress[p].matchIndex <= AckOf(h, t, p)))
  }

  ghost predicate LawfulAck(h: History, e: Effect) {
    e.ack.Some? ==>
      && e.node.sm.role != Leader
      && e.node.sm.currentTerm in h.leaders
      && e.ack.value <= |h.leaders[e.node.sm.currentTerm].log|
  }

  ghost predicate LawfulClients(h: History, i: NodeId, n': Node) {
    && (forall p | p in n'.pending ::
          || ProposedAt(h, i, p.index, p.term, p.data)
          || (n'.sm.role == Leader && p.term == n'.sm.currentTerm && 1 <= p.index <= |n'.log|
              && n'.log[p.index - 1] == LogEntry(p.term, p.index, p.data, Normal)))
    && (forall r | r in n'.replies && r.Granted? :: ProposedAt(h, i, r.index, r.proposedIn, r.data))
  }

  /** Node `i`'s new state is justified by the record before the step. */
  ghost predicate Lawful(c: Topology, h: History, i: NodeId, n: Node, e: Effect)
    requires i in c
  {
    && LawfulVote(h, i, n, e.node)
    && LawfulLog(h, i, e.node)
    && LawfulRole(c, h, i, e.node)
    && LawfulAck(h, e)
    && Persisted(e.node)
    && LawfulClients(h, i, e.node)
  }

  lemma LawfulVotesGrow(c: Topology, h: History, i: NodeId, n: Node, e: Effect)
    requires Past(h, i, n) && Recorded(h, i, n) && LawfulVote(h, i, n, e.node)
    ensures VotesGrow(h, Observe(h, i, e), i, e.node.sm.currentTerm)
    ensures CampaignsGrow(h, Observe(h, i, e), i, e.node.sm.currentTerm)
  {
  }

  lemma LawfulLeadersGrow(c: Topology, h: History, i: NodeId, n: Node, e: Effect)
    requires i in c && LawfulRole(c, h, i, e.node)
    ensures LeadersGrow(h, Observe(h, i, e), i, e.node.sm.currentTerm)
  {
    var t, h' := e.node.sm.currentTerm, Observe(h, i, e);
    forall t0 | t0 in h.leaders
      ensures t0 in h'.leaders && ReignGrows(t0, h.leaders[t0], h'.leaders[t0])
    {
      if h'.leaders[t0] != h.leaders[t0] {
        assert t0 == t;
      }
    }
  }

  lemma LawfulAcksGrow(c: Topology, h: History, i: NodeId, n: Node, e: Effect)
    requires i in c && HistoryOK(c, h) && LawfulRole(c, h, i, e.node) && LawfulAck(h, e)
    ensures AcksGrow(h, Observe(h, i, e), i, e.node.sm.currentTerm)
  {
  }

  lemma LawfulExtends(c: Topology, h: History, i: NodeId, n: Node, e: Effect)
    requires i in c && HistoryOK(c, h) && NodeOK(c, h, i, n) && Lawful(c, h, i, n, e)
    ensures Extends(h, Observe(h, i, e), i, e.node.sm.currentTerm)
  {
    LawfulVotesGrow(c, h, i, n, e);
    LawfulLeadersGrow(c, h, i, n, e);
    LawfulAcksGrow(c, h, i, n, e);
  }

  lemma LawfulCampaigns(c: Topology, h: History, i: NodeId, e: Effect)
    requires i in c && HistoryOK(c, h) && LawfulLog(h, i, e.node)
    requires Later(h, Observe(h, i, e)) && Sourced(Observe(h, i, e), e.node.log)
    ensures var h' := Observe(h, i, e); forall slot | slot in h'.campaigns :: CampaignOK(c, h', slot)
  {
    var h' := Observe(h, i, e);
    hide HistoryOK, FromReign, Shaped, Later;
    forall slot | slot in h'.campaigns
      ensures CampaignOK(c, h', slot)
    {
      if slot in h.campaigns {
        CampaignParts(c, h, slot);
        SourcedLater(h, h', h.campaigns[slot]);
      }
    }
  }

  lemma LawfulReigns(c: Topology, h: History, i: NodeId, e: Effect)
    requires i in c && HistoryOK(c, h) && LawfulLog(h, i, e.node) && LawfulRole(c, h, i, e.node)
    requires Extends(h, Observe(h, i, e), i, e.node.sm.currentTerm) && Sourced(Observe(h, i, e), e.node.log)
    ensures var h' := Observe(h, i, e); forall t | t in h'.leaders :: ReignOK(c, h', t)
  {
    var h', t := Observe(h, i, e), e.node.sm.currentTerm;
    forall t0 | t0 in h'.leaders
      ensures ReignOK(c, h', t0)
    {
      hide ReignOK, CampaignOK, LawfulRole, Sourced, Shaped, FromReign, VotesGrow, CampaignsGrow, AcksGrow;
      if t0 in h.leaders && h'.leaders[t0] == h.leaders[t0] {
        ReignStable(c, h, h', i, t, t0);
      } else {
        NewReign(c, h, h', i, e.node);
      }
    }
  }

  lemma NewReign(c: Topology, h: History, h': History, i: NodeId, n': Node)
    requires i in c && HistoryOK(c, h) && LawfulRole(c, h, i, n') && n'.sm.role == Leader
    requires Extends(h, h', i, n'.sm.currentTerm) && Sourced(h', n'.log) && Shaped(n'.log, n'.sm.currentTerm)
    requires n'.sm.currentTerm in h'.leaders
    requires h'.leaders[n'.sm.currentTerm] == Reign(i, n'.log,
               if n'.sm.currentTerm in h.leaders then h.leaders[n'.sm.currentTerm].voters else n'.sm.votesReceived)
    requires n'.sm.votedFor.Some? ==> VotedFor(h', n'.sm.currentTerm, i, n'.sm.votedFor.value)
    ensures ReignOK(c, h', n'.sm.currentTerm)
  {
    var t := n'.sm.currentTerm;
    var r := h'.leaders[t];
    if t in h.leaders {
      assert ReignOK(c, h, t);
      forall v | v in r.voters ensures VotedFor(h', t, v, i) {
        assert VotedFor(h, t, v, i);
      }
    } else {
      forall v | v in r.voters ensures VotedFor(h', t, v, i) {
        assert Supports(h, n', i, v);
      }
    }
  }

  lemma LawfulAcks(c: Topology, h: History, i: NodeId, e: Effect)
    requires i in c && HistoryOK(c, h) && LawfulAck(h, e)
    requires LeadersGrow(h, Observe(h, i, e), i, e.node.sm.currentTerm)
    ensures var h' := Observe(h, i, e); forall slot | slot in h'.acks ::
              slot.node in c && slot.term in h'.leaders && h'.acks[slot] <= |h'.leaders[slot.term].log|
  {
    var h' := Observe(h, i, e);
    hide ReignOK, CampaignOK;
    forall slot | slot in h'.acks
      ensures slot.node in c && slot.term in h'.leaders && h'.acks[slot] <= |h'.leaders[slot.term].log|
    {
      if slot in h.acks {
        assert ReignGrows(slot.term, h.leaders[slot.term], h'.leaders[slot.term]);
      }
    }
  }

  lemma LawfulVotes(c: Topology, h: History, i: NodeId, n: Node, e: Effect)
    requires i in c && HistoryOK(c, h) && NodeOK(c, h, i, n) && Lawful(c, h, i, n, e)
    ensures var h' := Observe(h, i, e); forall slot | slot in h'.votes ::
              slot.node in c && Slot(slot.term, h'.votes[slot]) in h'.campaigns
  {
    LawfulVotesGrow(c, h, i, n, e);
  }

  lemma LawfulHistory(c: Topology, h: History, i: NodeId, n: Node, e: Effect)
    requires i in c && HistoryOK(c, h) && NodeOK(c, h, i, n) && Lawful(c, h, i, n, e)
    ensures HistoryOK(c, Observe(h, i, e))
  {
    LawfulExtends(c, h, i, n, e);
    ExtendsIsLater(h, Observe(h, i, e), i, e.node.sm.currentTerm);
    LawfulSourced(c, h, i, n, e);
    LawfulVotes(c, h, i, n, e);
    hide Observe, NodeOK, Extends, Later, Sourced, LawfulLog, LawfulRole, LawfulAck, LawfulVote, LawfulClients, LeadersGrow;
    LawfulCampaigns(c, h, i, e);
    LawfulReigns(c, h, i, e);
    LawfulLeadersGrow(c, h, i, n, e);
    LawfulAcks(c, h, i, e);
  }

  lemma LawfulSourced(c: Topology, h: History, i: NodeId, n: Node, e: Effect)
    requires i in c && HistoryOK(c, h) && NodeOK(c, h, i, n) && Lawful(c, h, i, n, e)
    ensures Sourced(Observe(h, i, e), e.node.log)
  {
    var h' := Observe(h, i, e);
    LawfulExtends(c, h, i, n, e);
    forall k | 0 <= k < |e.node.log|
      ensures FromReign(h', e.node.log, k)
    {
      var t := e.node.log[k].term;
      if FromReign(h, e.node.log, k) {
        assert ReignGrows(t, h.leaders[t], h'.leaders[t]);
      }
    }
  }

  lemma LawfulClientsOK(c: Topology, h: History, i: NodeId, n: Node, e: Effect)
    requires i in c && LawfulRole(c, h, i, e.node) && LawfulClients(h, i, e.node)
    ensures ClientsOK(Observe(h, i, e), i, e.node)
  {
    var h' := Observe(h, i, e);
    LawfulLeadersGrow(c, h, i, n, e);
    forall index, t, data | ProposedAt(h, i, index, t, data)
      ensures ProposedAt(h', i, index, t, data)
    {
      assert ReignGrows(t, h.leaders[t], h'.leaders[t]);
    }
  }

  lemma LawfulRecorded(c: Topology, h: History, i: NodeId, n: Node, e: Effect)
    requires Past(h, i, n) && Recorded(h, i, n) && LawfulVote(h, i, n, e.node)
    ensures Recorded(Observe(h, i, e), i, e.node) && Past(Observe(h, i, e), i, e.node)
  {
  }

  lemma LawfulRoleOK(c: Topology, h: History, i: NodeId, n: Node, e: Effect)
    requires i in c && LawfulRole(c, h, i, e.node) && AcksGrow(h, Observe(h, i, e), i, e.node.sm.currentTerm)
    requires VotesGrow(h, Observe(h, i, e), i, e.node.sm.currentTerm)
    ensures RoleOK(c, Observe(h, i, e), i, e.node)
  {
  }

  lemma LawfulNode(c: Topology, h: History, i: NodeId, n: Node, e: Effect)
    requires i in c && HistoryOK(c, h) && NodeOK(c, h, i, n) && Lawful(c, h, i, n, e)
    ensures NodeOK(c, Observe(h, i, e), i, e.node)
  {
    LawfulExtends(c, h, i, n, e);
    LawfulSourced(c, h, i, n, e);
    NodeParts(c, h, i, n);
    hide HistoryOK, Observe, Past, Recorded, RoleOK, LawfulVote, LawfulRole, LawfulClients, ClientsOK, VotesGrow,
      AcksGrow, LeadersGrow, CampaignsGrow, Shaped, Sourced, FromReign, Persisted;
    LawfulClientsOK(c, h, i, n, e);
    LawfulRecorded(c, h, i, n, e);
    LawfulRoleOK(c, h, i, n, e);
  }
}
