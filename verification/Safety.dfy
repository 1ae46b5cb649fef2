/** What every step keeps under H1 and H2: what a quorum confirmed is never lost. */
module Safety {
  import opened Core
  import opened NodeSpec
  import opened Cluster
  import opened Invariants

  /** Index `k` of term `t`'s leader holds an entry of term `t` itself. */
  ghost predicate OwnAt(h: History, t: Term, k: nat) {
    t in h.leaders && 1 <= k <= |h.leaders[t].log| && h.leaders[t].log[k - 1].term == t
  }

  ghost predicate NoneConfirmed(h: History, t: Term, k: nat, q: set<NodeId>) {
    forall v | v in q :: AckOf(h, t, v) < k
  }

  ghost predicate AllConfirmed(h: History, t: Term, k: nat, q: set<NodeId>) {
    forall v | v in q :: AckOf(h, t, v) >= k
  }

  ghost predicate BlockedBy(h: History, t: Term, k: nat, t2: Term) {
    t2 in h.leaders && t2 > t && NoneConfirmed(h, t, k, h.leaders[t2].voters)
  }

  /** The voters of a later leader left term `t` without confirming `k`: it can never be chosen in `t`. */
  ghost predicate Blocked(h: History, t: Term, k: nat) {
    exists t2 :: BlockedBy(h, t, k, t2)
  }

  /** A quorum confirmed the prefix of length `k` of term `t`'s leader, which ends in an entry of `t`. */
  ghost predicate Chosen(c: Topology, h: History, t: Term, k: nat) {
    OwnAt(h, t, k) && exists q :: IsQuorum(c, q) && AllConfirmed(h, t, k, q)
  }

  /** `log` starts with that prefix, or the prefix can never be chosen. */
  ghost predicate Kept(h: History, t: Term, k: nat, log: seq<LogEntry>)
    requires t in h.leaders
  {
    Agree(h.leaders[t].log, log, k) || Blocked(h, t, k)
  }

  ghost predicate LeadersSafe(h: History) {
    forall t: Term, t2: Term, k: nat | t2 in h.leaders && t < t2 && OwnAt(h, t, k) :: Kept(h, t, k, h.leaders[t2].log)
  }

  /** What voter `v` confirmed before term `term` is kept by `log`. */
  ghost predicate KeepsConfirmed(h: History, v: NodeId, term: Term, log: seq<LogEntry>) {
    forall t: Term, k: nat | t < term && OwnAt(h, t, k) && AckOf(h, t, v) >= k :: Kept(h, t, k, log)
  }

  ghost predicate VotesSafe(h: History) {
    forall slot | slot in h.votes && Slot(slot.term, h.votes[slot]) in h.campaigns ::
      KeepsConfirmed(h, slot.node, slot.term, h.campaigns[Slot(slot.term, h.votes[slot])])
  }

  ghost predicate CommitWitness(c: Topology, h: History, log: seq<LogEntry>, commit: nat, term: Term, t: Term, k: nat) {
    t <= term && Chosen(c, h, t, k) && commit <= k && Agree(h.leaders[t].log, log, commit)
  }

  /** The first `commit` entries of `log` were chosen by some leader up to `term`. */
  ghost predicate Committed(c: Topology, h: History, log: seq<LogEntry>, commit: nat, term: Term) {
    commit == 0 || exists t, k :: CommitWitness(c, h, log, commit, term, t, k)
  }

  ghost predicate ChosenAt(c: Topology, h: History, index: LogIndex, entry: LogEntry, t: Term, k: nat) {
    Chosen(c, h, t, k) && 1 <= index <= k && h.leaders[t].log[index - 1] == entry
  }

  ghost predicate EntryChosen(c: Topology, h: History, index: LogIndex, entry: LogEntry) {
    exists t, k :: ChosenAt(c, h, index, entry, t, k)
  }

  /** A positive reply given in the term of the proposal is about the client's own, chosen entry. */
  ghost predicate ReplySafe(c: Topology, h: History, r: Reply) {
    r.Granted? && r.proposedIn == r.repliedIn ==>
      EntryChosen(c, h, r.index, LogEntry(r.proposedIn, r.index, r.data, Normal))
  }

  ghost predicate ApplySafe(n: Node) {
    && n.boot <= n.sm.lastApplied <= n.sm.commitIndex <= |n.log|
    && n.applied == n.log[n.boot..n.sm.lastApplied]
  }

  ghost predicate NodeSafe(c: Topology, h: History, i: NodeId, n: Node) {
    var t := n.sm.currentTerm;
    && (t in h.leaders ==> Agree(h.leaders[t].log, n.log, AckOf(h, t, i)))
    && KeepsConfirmed(h, i, t, n.log)
    && Committed(c, h, n.log, n.sm.commitIndex, t)
    && ApplySafe(n)
    && (forall r | r in n.replies :: ReplySafe(c, h, r))
  }

  ghost predicate MessageSafe(c: Topology, h: History, m: Message) {
    m.AppendReq? ==>
      var req := m.appendReq;
      && req.term in h.leaders
      && Committed(c, h, h.leaders[req.term].log, req.leaderCommit, req.term)
      && (req.entries == [] ==> req.leaderCommit <= req.prevLogIndex)
  }

  ghost predicate Inv2(c: Topology, s: State) {
    && LeadersSafe(s.history)
    && VotesSafe(s.history)
    && s.nodes.Keys == c.Keys
    && (forall i | i in c :: NodeSafe(c, s.history, i, s.nodes[i]))
    && (forall m | m in s.net :: MessageSafe(c, s.history, m))
  }

  // ----- a chosen prefix is never blocked

  lemma ChosenIsNotBlocked(c: Topology, h: History, t: Term, k: nat)
    requires HistoryOK(c, h) && Chosen(c, h, t, k)
    ensures !Blocked(h, t, k)
  {
    if Blocked(h, t, k) {
      var q :| IsQuorum(c, q) && AllConfirmed(h, t, k, q);
      var t2 :| BlockedBy(h, t, k, t2);
      assert ReignOK(c, h, t2);
      var v := MajoritiesMeet(c.Keys, q, h.leaders[t2].voters);
      assert false;
    }
  }

  /** Leader completeness: every later leader's log starts with whatever was chosen. */
  lemma LeaderCompleteness(c: Topology, h: History, t: Term, k: nat, t2: Term)
    requires HistoryOK(c, h) && LeadersSafe(h) && Chosen(c, h, t, k) && t2 in h.leaders && t <= t2
    ensures Agree(h.leaders[t].log, h.leaders[t2].log, k)
  {
    if t < t2 {
      ChosenIsNotBlocked(c, h, t, k);
      assert Kept(h, t, k, h.leaders[t2].log);
    }
  }

  /** A committed prefix agrees with the log of any leader that is not older. */
  lemma CommittedAgreesWithLeader(c: Topology, h: History, log: seq<LogEntry>, commit: nat, term: Term)
    requires HistoryOK(c, h) && LeadersSafe(h) && term in h.leaders && Committed(c, h, log, commit, term)
    ensures Agree(log, h.leaders[term].log, commit)
  {
    if commit > 0 {
      var t, k :| CommitWitness(c, h, log, commit, term, t, k);
      LeaderCompleteness(c, h, t, k, term);
    }
  }

  /** Two committed prefixes agree as far as both reach. */
  lemma CommittedPrefixesAgree(c: Topology, h: History, a: seq<LogEntry>, m: nat, ta: Term, b: seq<LogEntry>, n: nat, tb: Term)
    requires HistoryOK(c, h) && LeadersSafe(h)
    requires Committed(c, h, a, m, ta) && Committed(c, h, b, n, tb)
    ensures Agree(a, b, if m <= n then m else n)
  {
    hide HistoryOK, LeadersSafe;
    if m > 0 && n > 0 {
      var t, k :| CommitWitness(c, h, a, m, ta, t, k);
      var t', k' :| CommitWitness(c, h, b, n, tb, t', k');
      assert t in h.leaders && t' in h.leaders;
      hide Chosen;
      if t <= t' {
        LeaderCompleteness(c, h, t, k, t');
      } else {
        LeaderCompleteness(c, h, t', k', t);
      }
    }
  }

  // ----- growth of the record keeps all of this

  /** Node `i`'s votes on record are of term `t` or older. */
  ghost predicate VotesUpTo(h: History, i: NodeId, t: Term) {
    forall slot | slot in h.votes && slot.node == i :: slot.term <= t
  }

  lemma FrozenAck(h: History, h': History, i: NodeId, t: Term, t0: Term, v: NodeId)
    requires Extends(h, h', i, t) && (v != i || t0 != t)
    ensures AckOf(h', t0, v) == AckOf(h, t0, v)
  {
  }

  lemma BlockedStable(c: Topology, h: History, h': History, i: NodeId, t: Term, t0: Term, k: nat)
    requires HistoryOK(c, h) && Extends(h, h', i, t) && VotesUpTo(h, i, t) && Blocked(h, t0, k)
    ensures Blocked(h', t0, k)
  {
    var t2 :| BlockedBy(h, t0, k, t2);
    assert ReignOK(c, h, t2) && ReignGrows(t2, h.leaders[t2], h'.leaders[t2]);
    forall v | v in h.leaders[t2].voters ensures AckOf(h', t0, v) < k {
      assert VotedFor(h, t2, v, h.leaders[t2].leader);
      assert AckOf(h, t0, v) < k;
      FrozenAck(h, h', i, t, t0, v);
    }
    assert BlockedBy(h', t0, k, t2);
  }

  lemma KeptStable(c: Topology, h: History, h': History, i: NodeId, t: Term, t0: Term, k: nat, log: seq<LogEntry>)
    requires HistoryOK(c, h) && Extends(h, h', i, t) && VotesUpTo(h, i, t)
    requires OwnAt(h, t0, k) && Kept(h, t0, k, log)
    ensures OwnAt(h', t0, k) && Kept(h', t0, k, log)
  {
    assert ReignGrows(t0, h.leaders[t0], h'.leaders[t0]);
    if Blocked(h, t0, k) {
      BlockedStable(c, h, h', i, t, t0, k);
    }
  }

  lemma ChosenLater(c: Topology, h: History, h': History, t: Term, k: nat)
    requires Later(h, h') && Chosen(c, h, t, k)
    ensures Chosen(c, h', t, k) && Agree(h.leaders[t].log, h'.leaders[t].log, k)
  {
    var q :| IsQuorum(c, q) && AllConfirmed(h, t, k, q);
    assert ReignGrows(t, h.leaders[t], h'.leaders[t]);
    forall v | v in q ensures AckOf(h', t, v) >= k {
      assert AckOf(h, t, v) >= k;
    }
    assert AllConfirmed(h', t, k, q);
  }

  lemma CommittedInLaterRecord(c: Topology, h: History, h': History, log: seq<LogEntry>, commit: nat, term: Term)
    requires Later(h, h') && Committed(c, h, log, commit, term)
    ensures Committed(c, h', log, commit, term)
  {
    if commit > 0 {
      var t, k :| CommitWitness(c, h, log, commit, term, t, k);
      ChosenLater(c, h, h', t, k);
      assert CommitWitness(c, h', log, commit, term, t, k);
    }
  }

  lemma EntryChosenLater(c: Topology, h: History, h': History, index: LogIndex, entry: LogEntry)
    requires Later(h, h') && EntryChosen(c, h, index, entry)
    ensures EntryChosen(c, h', index, entry)
  {
    var t, k :| ChosenAt(c, h, index, entry, t, k);
    ChosenLater(c, h, h', t, k);
    assert ChosenAt(c, h', index, entry, t, k);
  }

  lemma ReplyStaysSafe(c: Topology, h: History, h': History, r: Reply)
    requires Later(h, h') && ReplySafe(c, h, r)
    ensures ReplySafe(c, h', r)
  {
    if r.Granted? && r.proposedIn == r.repliedIn {
      EntryChosenLater(c, h, h', r.index, LogEntry(r.proposedIn, r.index, r.data, Normal));
    }
  }

  /** Confirmations of `v` before `term` concern prefixes already on record, unless they are being made. */
  lemma KeepsConfirmedStable(c: Topology, h: History, h': History, i: NodeId, t: Term,
                             v: NodeId, term: Term, log: seq<LogEntry>)
    requires HistoryOK(c, h) && Extends(h, h', i, t) && VotesUpTo(h, i, t)
    requires v != i || term <= t
    requires KeepsConfirmed(h, v, term, log)
    ensures KeepsConfirmed(h', v, term, log)
  {
    forall t0: Term, k: nat | t0 < term && OwnAt(h', t0, k) && AckOf(h', t0, v) >= k
      ensures Kept(h', t0, k, log)
    {
      FrozenAck(h, h', i, t, t0, v);
      assert ReignGrows(t0, h.leaders[t0], h'.leaders[t0]);
      assert OwnAt(h, t0, k);
      KeptStable(c, h, h', i, t, t0, k, log);
    }
  }

  lemma OtherNodeStaysSafe(c: Topology, h: History, h': History, i: NodeId, t: Term, j: NodeId, n: Node)
    requires HistoryOK(c, h) && Extends(h, h', i, t) && VotesUpTo(h, i, t)
    requires j != i && NodeSafe(c, h, j, n)
    ensures NodeSafe(c, h', j, n)
  {
    var tj := n.sm.currentTerm;
    ExtendsIsLater(h, h', i, t);
    KeepsConfirmedStable(c, h, h', i, t, j, tj, n.log);
    CommittedInLaterRecord(c, h, h', n.log, n.sm.commitIndex, tj);
    FrozenAck(h, h', i, t, tj, j);
    if tj in h.leaders {
      assert ReignGrows(tj, h.leaders[tj], h'.leaders[tj]);
    }
    forall r | r in n.replies ensures ReplySafe(c, h', r) {
      ReplyStaysSafe(c, h, h', r);
    }
  }

  lemma MessageStaysSafe(c: Topology, h: History, h': History, i: NodeId, t: Term, m: Message)
    requires Extends(h, h', i, t) && MessageSafe(c, h, m)
    ensures MessageSafe(c, h', m)
  {
    if m.AppendReq? {
      var req := m.appendReq;
      ExtendsIsLater(h, h', i, t);
      assert ReignGrows(req.term, h.leaders[req.term], h'.leaders[req.term]);
      CommittedInLaterRecord(c, h, h', h.leaders[req.term].log, req.leaderCommit, req.term);
      CommittedPrefix(c, h', h.leaders[req.term].log, req.leaderCommit, h'.leaders[req.term].log, req.leaderCommit, req.term);
    }
  }

  /** A committed prefix stays committed in any log that shares it, and so does any shorter one. */
  lemma CommittedPrefix(c: Topology, h: History, a: seq<LogEntry>, m: nat, b: seq<LogEntry>, n: nat, term: Term)
    requires Committed(c, h, a, m, term) && n <= m && Agree(a, b, n)
    ensures Committed(c, h, b, n, term)
  {
    if n > 0 {
      var t, k :| CommitWitness(c, h, a, m, term, t, k);
      assert CommitWitness(c, h, b, n, term, t, k);
    }
  }

  lemma CommittedLater(c: Topology, h: History, log: seq<LogEntry>, commit: nat, term: Term, term': Term)
    requires Committed(c, h, log, commit, term) && term <= term'
    ensures Committed(c, h, log, commit, term')
  {
    if commit > 0 {
      var t, k :| CommitWitness(c, h, log, commit, term, t, k);
      assert CommitWitness(c, h, log, commit, term', t, k);
    }
  }
}
