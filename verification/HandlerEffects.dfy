/** What each handler owes its caller: votes given, terms adopted, commits made, entries applied and offered. */
module HandlerEffects {
  import opened Core
  import opened LogSpec
  import opened NodeSpec
  import opened Cluster
  import opened Invariants
  import opened Handlers
  import opened NodeProperties

  ghost predicate OnDisk(n: Node) {
    n.hard == Encode(n.sm)
  }

  function Max(a: nat, b: nat): nat { if a >= b then a else b }

  // ----- votes

  /** A log whose last entry is of `t1` at `i1` is older than one whose last entry is of `t2` at `i2`. */
  ghost predicate Older(t1: Term, i1: LogIndex, t2: Term, i2: LogIndex) {
    t1 < t2 || (t1 == t2 && i1 < i2)
  }

  /** A vote is granted if and only if the request is not of an older term, the voter has not voted for another in that
      term, and the candidate's log is not older. It is on disk before the answer, and the answer carries the voter's
      term. */
  lemma VoteGrantedIff(n: Node, req: RequestVoteRequest)
    requires OnDisk(n)
    ensures var (n', resp) := OnRequestVote(n, req);
            && (resp.voteGranted <==>
                && (req.term > n.sm.currentTerm
                    || (req.term == n.sm.currentTerm && n.sm.votedFor in {None, Some(req.candidateId)}))
                && !Older(req.lastLogTerm, req.lastLogIndex, TermOf(n.log, |n.log|), |n.log|))
            && resp.term == n'.sm.currentTerm == Max(n.sm.currentTerm, req.term)
            && n'.log == n.log && OnDisk(n')
            && n'.sm.votedFor == (if resp.voteGranted then Some(req.candidateId)
                                  else if req.term > n.sm.currentTerm then None else n.sm.votedFor)
  {
    hide TermOf;
  }

  ghost predicate Describes(req: RequestVoteRequest, log: seq<LogEntry>) {
    req.lastLogIndex == |log| && req.lastLogTerm == TermOf(log, |log|)
  }

  /** Of any two nodes one would vote for the other, so two logs never keep each other out. Both would if and only if
      their logs end alike. */
  lemma OneWouldVote(a: Node, b: Node, ofA: RequestVoteRequest, ofB: RequestVoteRequest)
    requires Describes(ofA, a.log) && Describes(ofB, b.log)
    requires ofA.term > b.sm.currentTerm && ofB.term > a.sm.currentTerm
    ensures OnRequestVote(b, ofA).1.voteGranted || OnRequestVote(a, ofB).1.voteGranted
    ensures OnRequestVote(b, ofA).1.voteGranted && OnRequestVote(a, ofB).1.voteGranted <==>
            |a.log| == |b.log| && TermOf(a.log, |a.log|) == TermOf(b.log, |b.log|)
  {
    hide TermOf;
  }

  /** A repeated request gets the same answer and changes nothing more. */
  lemma RepeatedRequest(n: Node, req: RequestVoteRequest)
    requires OnDisk(n)
    ensures var (n', resp) := OnRequestVote(n, req); OnRequestVote(n', req) == (n', resp)
  {
    hide TermOf;
  }

  /** Two requests of one term for different candidates are never both granted. */
  lemma OneVotePerTerm(n: Node, first: RequestVoteRequest, second: RequestVoteRequest)
    requires first.term == second.term && first.candidateId != second.candidateId
    requires OnRequestVote(n, first).1.voteGranted
    ensures !OnRequestVote(OnRequestVote(n, first).0, second).1.voteGranted
  {
    hide TermOf;
  }

  // ----- terms

  function TermOfMessage(m: Message): Term {
    match m
    case VoteReq(_, req) => req.term
    case VoteRep(_, _, resp) => resp.term
    case AppendReq(_, req) => req.term
    case AppendRep(_, _, _, resp) => resp.term
  }

  /** Whatever arrives, a node ends in the newer of the two terms; if that is new to it, it is a follower without votes
      or progress. All of it is on disk. */
  ghost predicate TakesTermOf(n: Node, m: Message, n': Node) {
    var t := TermOfMessage(m);
    && n'.sm.currentTerm == Max(n.sm.currentTerm, t)
    && OnDisk(n')
    && (t > n.sm.currentTerm ==>
          && n'.sm.role == Follower && n'.sm.votesReceived == {} && n'.sm.progress == map[]
          && (!m.VoteReq? ==> n'.sm.votedFor == None))
  }

  lemma AdvanceKeepsDisk(cfg: RaftConfig, n: Node)
    requires OnDisk(n)
    ensures OnDisk(MaybeAdvanceCommit(cfg, n))
  {
    hide CommitScan;
  }

  lemma AppendTakesTerm(cfg: RaftConfig, n: Node, req: AppendEntriesRequest)
    requires OnDisk(n)
    ensures TakesTermOf(n, AppendReq(cfg.id, req), Handle(cfg, n, AppendReq(cfg.id, req)).node)
  {
    hide Splice, FirstIndexOfTerm, TermOf, LastIndexOf;
  }

  lemma AckTakesTerm(cfg: RaftConfig, n: Node, src: NodeId, reqLast: LogIndex, resp: AppendEntriesResponse)
    requires OnDisk(n)
    ensures TakesTermOf(n, AppendRep(src, cfg.id, reqLast, resp), HandleAppendResponse(cfg, n, src, reqLast, resp))
  {
    hide MaybeAdvanceCommit, UpdateProgress;
    var n1 := if src in n.sm.progress then
                n.(sm := n.sm.(progress := n.sm.progress[src := UpdateProgress(n.sm.progress[src], reqLast, resp)]))
              else n;
    AdvanceKeepsDisk(cfg, n1);
    MaybeAdvanceFacts(cfg, n1);
  }

  lemma MessageTermIsTaken(cfg: RaftConfig, n: Node, m: Message)
    requires OnDisk(n)
    ensures TakesTermOf(n, m, Act(cfg, n, Deliver(m)).node)
  {
    match m
    case VoteReq(_, req) => hide UpToDate;
    case VoteRep(_, _, _) => hide ReplicateAll;
    case AppendReq(_, req) =>
      AppendTakesTerm(cfg, n, req);
      hide OnAppendEntries;
    case AppendRep(src, _, reqLast, resp) =>
      AckTakesTerm(cfg, n, src, reqLast, resp);
      hide HandleAppendResponse;
  }

  /** A request of an older term changes nothing, and its only answer is a refusal with the node's own term. */
  lemma StaleRequestIsRefused(cfg: RaftConfig, n: Node, m: Message)
    requires (m.VoteReq? || m.AppendReq?) && TermOfMessage(m) < n.sm.currentTerm
    ensures var e := Act(cfg, n, Deliver(m));
            && e.node == n && e.ack == None
            && (m.VoteReq? ==>
                  e.sent == [VoteRep(cfg.id, m.voteReq.candidateId, RequestVoteResponse(n.sm.currentTerm, false))])
            && (m.AppendReq? ==>
                  e.sent == [AppendRep(cfg.id, m.appendReq.leaderId, m.appendReq.LastIndex(),
                                       AppendEntriesResponse(n.sm.currentTerm, false, 0, 0))])
  {
    hide UpToDate, FirstIndexOfTerm, Accept;
  }

  /** So a sender left behind steps down as soon as the answer to its request arrives. */
  lemma StaleSenderStepsDown(mine: RaftConfig, sender: Node, theirs: RaftConfig, receiver: Node, m: Message)
    requires OnDisk(sender) && (m.VoteReq? || m.AppendReq?)
    requires TermOfMessage(m) == sender.sm.currentTerm < receiver.sm.currentTerm
    ensures var answers := Act(theirs, receiver, Deliver(m)).sent;
            && |answers| == 1
            && var sender' := Act(mine, sender, Deliver(answers[0])).node;
               && sender'.sm.currentTerm == receiver.sm.currentTerm && sender'.sm.role == Follower
               && sender'.sm.votedFor == None && OnDisk(sender')
  {
    StaleRequestIsRefused(theirs, receiver, m);
    MessageTermIsTaken(mine, sender, Act(theirs, receiver, Deliver(m)).sent[0]);
    hide Act;
  }

  // ----- elections

  /** Timing out wins at once in a cluster of one, and only there. */
  lemma TimeoutWinsIff(cfg: RaftConfig, n: Node)
    requires OnDisk(n)
    ensures var n' := Act(cfg, n, Timeout(cfg.id)).node;
            && (n'.sm.role == Leader <==> cfg.peers == [])
            && n'.sm.role != Follower
            && n'.sm.currentTerm == n.sm.currentTerm + 1 && n'.sm.votedFor == Some(cfg.id) && OnDisk(n')
            && (n'.sm.role == Leader ==> n'.sm.leaderId == Some(cfg.id) && n'.sm.progress == map[])
            && n'.log == n.log
  {
    assert |{cfg.id}| == 1;
    hide ReplicateAll, VoteRequests, TermOf;
  }

  /** A timeout asks every peer for its vote, once for each place in the list, with the true end of the log. */
  lemma TimeoutAsksAll(cfg: RaftConfig, n: Node, p: NodeId)
    requires p in cfg.peers
    ensures exists req :: VoteReq(p, req) in Act(cfg, n, Timeout(cfg.id)).sent
                          && Describes(req, n.log) && req.term == n.sm.currentTerm + 1 && req.candidateId == cfg.id
  {
    var req := RequestVoteRequest(n.sm.currentTerm + 1, cfg.id, |n.log|, TermOf(n.log, |n.log|));
    hide ReplicateAll, TermOf;
    var k :| 0 <= k < |cfg.peers| && cfg.peers[k] == p;
    assert VoteRequests(cfg, req)[k] == VoteReq(p, req);
  }

  /** A granted vote makes a candidate leader if and only if its voters are now a majority of the members; it then tells
      every peer, and names itself. */
  lemma VoteDecidesIff(cfg: RaftConfig, n: Node, src: NodeId, resp: RequestVoteResponse)
    requires ValidConfig(cfg) && n.sm.role == Candidate && resp.voteGranted && resp.term <= n.sm.currentTerm
    ensures var e := Act(cfg, n, Deliver(VoteRep(src, cfg.id, resp)));
            && (e.node.sm.role == Leader <==> 2 * |n.sm.votesReceived + {src}| > |cfg.Members()|)
            && e.node.sm.votesReceived == n.sm.votesReceived + {src} && e.node.log == n.log
            && (e.node.sm.role != Leader ==> e.node.sm.role == Candidate && e.sent == [])
            && (e.node.sm.role == Leader ==>
                  && e.node.sm.leaderId == Some(cfg.id)
                  && e.node.sm.progress == (map p | p in cfg.peers :: Progress(|n.log| + 1, 0, false))
                  && e.sent == ReplicateAll(cfg, e.node))
  {
    QuorumIsLeastMajority(cfg);
    hide ReplicateAll, ValidConfig;
  }

  /** A reply of no newer term changes nothing and sends nothing when it does not concern the node: a denial, a vote for
      one who is no candidate, an acknowledgement to one who is no leader. */
  lemma StrayReplyIsIgnored(cfg: RaftConfig, n: Node, m: Message)
    requires m.VoteRep? || m.AppendRep?
    requires TermOfMessage(m) <= n.sm.currentTerm
    requires m.VoteRep? ==> !m.voteResp.voteGranted || n.sm.role != Candidate
    requires m.AppendRep? ==> n.sm.role != Leader
    ensures Act(cfg, n, Deliver(m)) == Effect(n, [], None)
  {
  }

  // ----- replication

  /** `req` is what leader `n` owes `p`: the end of its log from `p`'s next index on, as long a piece as the limit of
      4096 bytes per allowed entry admits, but never nothing when there is something to send. */
  ghost predicate IsOffer(cfg: RaftConfig, n: Node, p: NodeId, req: AppendEntriesRequest)
    requires p in n.sm.progress
  {
    var prev := n.sm.progress[p].nextIndex - 1;
    && req.term == n.sm.currentTerm && req.leaderId == cfg.id && req.leaderCommit == n.sm.commitIndex
    && req.prevLogIndex == prev
    && (prev == 0 ==> req.prevLogTerm == 0)
    && (1 <= prev <= |n.log| ==> req.prevLogTerm == n.log[prev - 1].term)
    && (prev >= |n.log| ==> req.entries == [])
    && (prev < |n.log| ==>
          && req.entries != [] && req.entries <= n.log[prev..]
          && (|req.entries| == 1 || Bytes(req.entries) <= 4096 * cfg.maxAppendEntries)
          && forall k | |req.entries| < k <= |n.log| - prev :: Bytes(n.log[prev..][..k]) > 4096 * cfg.maxAppendEntries)
  }

  lemma BuildsOffer(cfg: RaftConfig, n: Node, p: NodeId)
    requires p in n.sm.progress
    ensures IsOffer(cfg, n, p, BuildAppend(cfg, n, n.sm.progress[p].nextIndex))
  {
    var next := n.sm.progress[p].nextIndex;
    if |n.log| >= next {
      CappedReadIsMaximal(n.log[next - 1..], ReadLimit(cfg));
    }
    hide TakeCapped, Bytes;
  }

  /** Every peer gets its offer and nothing else is sent. */
  ghost predicate OffersAll(cfg: RaftConfig, n: Node, sent: seq<Message>) {
    && (forall p | p in cfg.peers && p in n.sm.progress ::
          exists req :: AppendReq(p, req) in sent && IsOffer(cfg, n, p, req))
    && (forall m | m in sent ::
          m.AppendReq? && m.dst in cfg.peers && m.dst in n.sm.progress && IsOffer(cfg, n, m.dst, m.appendReq))
  }

  lemma {:induction false} OffersInTurn(cfg: RaftConfig, n: Node, count: nat)
    requires count <= |cfg.peers|
    ensures forall j | 0 <= j < count && cfg.peers[j] in n.sm.progress ::
              AppendReq(cfg.peers[j], BuildAppend(cfg, n, n.sm.progress[cfg.peers[j]].nextIndex))
              in ReplicateToFirst(cfg, n, count)
    ensures forall m | m in ReplicateToFirst(cfg, n, count) ::
              && m.AppendReq? && m.dst in cfg.peers && m.dst in n.sm.progress
              && m.appendReq == BuildAppend(cfg, n, n.sm.progress[m.dst].nextIndex)
  {
    hide BuildAppend;
    if count > 0 {
      OffersInTurn(cfg, n, count - 1);
    }
  }

  lemma ReplicationOffersAll(cfg: RaftConfig, n: Node)
    requires n.sm.role == Leader
    ensures OffersAll(cfg, n, ReplicateAll(cfg, n))
  {
    OffersInTurn(cfg, n, |cfg.peers|);
    hide BuildAppend, IsOffer, ReplicateToFirst;
    forall p | p in cfg.peers && p in n.sm.progress
      ensures exists req :: AppendReq(p, req) in ReplicateAll(cfg, n) && IsOffer(cfg, n, p, req)
    {
      var j :| 0 <= j < |cfg.peers| && cfg.peers[j] == p;
      BuildsOffer(cfg, n, p);
      assert AppendReq(p, BuildAppend(cfg, n, n.sm.progress[p].nextIndex)) in ReplicateAll(cfg, n);
    }
    forall m | m in ReplicateAll(cfg, n) ensures m.dst in n.sm.progress && IsOffer(cfg, n, m.dst, m.appendReq) {
      BuildsOffer(cfg, n, m.dst);
    }
  }

  /** A heartbeat offers to every peer before anything else. */
  lemma BeatOffersAll(cfg: RaftConfig, n: Node)
    requires n.sm.role == Leader
    ensures OffersAll(cfg, n, Act(cfg, n, Beat(cfg.id)).sent)
  {
    ReplicationOffersAll(cfg, n);
    hide OffersAll, ReplicateAll, MaybeAdvanceCommit, ApplyCommitted;
  }

  /** A new leader offers to every peer at once. */
  lemma WinOffersAll(cfg: RaftConfig, n: Node, src: NodeId, resp: RequestVoteResponse)
    requires ValidConfig(cfg) && n.sm.role == Candidate && resp.voteGranted && resp.term <= n.sm.currentTerm
    ensures var e := Act(cfg, n, Deliver(VoteRep(src, cfg.id, resp)));
            e.node.sm.role == Leader ==> OffersAll(cfg, e.node, e.sent)
  {
    var e := Act(cfg, n, Deliver(VoteRep(src, cfg.id, resp)));
    VoteDecidesIff(cfg, n, src, resp);
    hide Act, OffersAll, ReplicateAll;
    if e.node.sm.role == Leader {
      ReplicationOffersAll(cfg, e.node);
    }
  }

  /** What a reply moves: a success raises the match index, a hint sends the next index there, and a rejection without
      a hint moves it one down but never below 1. Nobody else's progress changes. */
  lemma AckMovesProgress(cfg: RaftConfig, n: Node, src: NodeId, reqLast: LogIndex, resp: AppendEntriesResponse)
    requires n.sm.role == Leader && src in n.sm.progress && resp.term <= n.sm.currentTerm
    ensures var n' := HandleAppendResponse(cfg, n, src, reqLast, resp);
            && n'.sm.role == Leader && n'.sm.progress.Keys == n.sm.progress.Keys
            && (forall p | p in n.sm.progress && p != src :: n'.sm.progress[p] == n.sm.progress[p])
            && var p, p' := n.sm.progress[src], n'.sm.progress[src];
               && p'.matchIndex == (if resp.success then Max(p.matchIndex, reqLast) else p.matchIndex)
               && (resp.success ==> p'.nextIndex == p'.matchIndex + 1 && !p'.inFlight)
               && (!resp.success ==> p'.inFlight == p.inFlight)
               && (!resp.success && resp.conflictIndex > 0 ==> p'.nextIndex == resp.conflictIndex)
               && (!resp.success && resp.conflictIndex == 0 ==> p'.nextIndex == Max(p.nextIndex - 1, 1))
  {
    MaybeAdvanceFacts(cfg,
      n.(sm := n.sm.(progress := n.sm.progress[src := UpdateProgress(n.sm.progress[src], reqLast, resp)])));
    hide MaybeAdvanceCommit;
  }

  /** A request of no older term is refused if and only if the follower's log lacks its previous entry. The refusal says
      where to look next: right there if the log is too short, else at the first index of the term that stands there
      instead, which it names. */
  lemma RefusalPointsBack(n: Node, req: AppendEntriesRequest)
    requires req.term >= n.sm.currentTerm && TermsSorted(n.log)
    ensures var (n', resp) := OnAppendEntries(n, req); var prev := req.prevLogIndex;
            && resp.term == n'.sm.currentTerm == req.term
            && (!resp.success <==> prev > 0 && (prev > |n.log| || n.log[prev - 1].term != req.prevLogTerm))
            && (resp.success ==> resp.conflictIndex == 0 && resp.conflictTerm == 0)
            && (!resp.success ==> n'.log == n.log && n'.sm.commitIndex == n.sm.commitIndex)
            && (!resp.success && prev > |n.log| ==> resp.conflictIndex == prev && resp.conflictTerm == 0)
            && (!resp.success && prev <= |n.log| ==>
                  && resp.conflictTerm == n.log[prev - 1].term
                  && 1 <= resp.conflictIndex <= prev
                  && forall j | 0 <= j < prev :: j < resp.conflictIndex - 1 <==> n.log[j].term != resp.conflictTerm)
  {
    if 0 < req.prevLogIndex <= |n.log| {
      HintIsLeast(n.log, req.prevLogIndex);
    }
    hide Splice, FirstIndexOfTerm, LastIndexOf;
  }

  lemma HintIsLeast(log: seq<LogEntry>, prev: nat)
    requires 1 <= prev <= |log| && TermsSorted(log)
    ensures var t := TermOf(log, prev); var next := FirstIndexOfTerm(log, t, prev);
            1 <= next <= prev && forall j | 0 <= j < prev :: j < next - 1 <==> log[j].term != t
  {
    FirstIndexOfTermIsLeast(AsLog(log), prev);
    forall j | 0 <= j < prev ensures AsLog(log).At(j + 1) == log[j] {
    }
  }

  /** A request that is not of an older term, accepted or not, tells the follower who leads. */
  lemma AppendNamesLeader(n: Node, req: AppendEntriesRequest)
    requires req.term >= n.sm.currentTerm
    ensures OnAppendEntries(n, req).0.sm.leaderId == Some(req.leaderId)
  {
    hide Splice, FirstIndexOfTerm, TermOf, LastIndexOf;
  }

  // ----- commits

  /** An accepted request takes the follower to the leader's commit index, or as far towards it as its log reaches; that
      is on disk. A request whose commit index is not ahead leaves it alone. */
  lemma AcceptedCommit(n: Node, req: AppendEntriesRequest)
    requires OnDisk(n) && ContiguousFrom(n.log, 1) && ContiguousFrom(req.entries, req.prevLogIndex + 1)
    requires Accepts(n, req)
    ensures var (n', resp) := OnAppendEntries(n, req); var commit := n'.sm.commitIndex;
            && resp.success && OnDisk(n') && ContiguousFrom(n'.log, 1)
            && (req.leaderCommit > n.sm.commitIndex ==>
                  commit == req.leaderCommit || commit == |n'.log| < req.leaderCommit)
            && (req.leaderCommit <= n.sm.commitIndex ==> commit == n.sm.commitIndex)
  {
    hide TermOf, FirstIndexOfTerm;
    if req.entries != [] {
      assert req.prevLogIndex <= |n.log|;
      SpliceAt(n.log, req.entries, req.prevLogIndex);
    } else {
      SpliceNothing(n.log);
    }
    hide Splice;
    assert LastIndexOf(Splice(n.log, req.entries)) == |Splice(n.log, req.entries)|;
  }

  /** `n'` is leader `n` with everything committed up to `commit`, on disk, and every client up to there answered, none
      beyond. */
  ghost predicate CommittedUpTo(n: Node, commit: LogIndex, n': Node) {
    && n'.sm == n.sm.(commitIndex := commit) && n'.log == n.log && OnDisk(n')
    && (forall p | p in n.pending ::
          if p.index <= commit
          then Granted(p.tx, p.index, p.term, p.data, n.sm.currentTerm) in n'.replies && p !in n'.pending
          else p in n'.pending)
    && (forall p | p in n'.pending :: p in n.pending)
    && n.replies <= n'.replies
    && (forall r | r in n'.replies[|n.replies|..] ::
          exists p :: p in n.pending && p.index <= commit
                      && r == Granted(p.tx, p.index, p.term, p.data, n.sm.currentTerm))
  }

  lemma {:induction false} SplitSorts(pending: seq<Pending>, commit: LogIndex, term: Term)
    ensures forall p | p in pending ::
              if p.index <= commit
              then Granted(p.tx, p.index, p.term, p.data, term) in CommitReplies(pending, commit, term)
              else p in StillPending(pending, commit)
    ensures forall p | p in StillPending(pending, commit) :: p in pending && p.index > commit
    ensures forall r | r in CommitReplies(pending, commit, term) ::
              exists p :: p in pending && p.index <= commit && r == Granted(p.tx, p.index, p.term, p.data, term)
  {
    if pending != [] {
      var front, last := pending[..|pending| - 1], pending[|pending| - 1];
      SplitSorts(front, commit, term);
      assert pending == front + [last];
      forall r | r in CommitReplies(pending, commit, term)
        ensures exists p :: p in pending && p.index <= commit && r == Granted(p.tx, p.index, p.term, p.data, term)
      {
        if r in CommitReplies(front, commit, term) {
          var p :| p in front && p.index <= commit && r == Granted(p.tx, p.index, p.term, p.data, term);
          assert p in pending;
        } else {
          assert last in pending;
        }
      }
    }
  }

  lemma AnswersUpTo(n: Node)
    requires OnDisk(n)
    ensures CommittedUpTo(n, n.sm.commitIndex, ReplyCommitted(n))
  {
    SplitSorts(n.pending, n.sm.commitIndex, n.sm.currentTerm);
    hide StillPending, CommitReplies;
    var n' := ReplyCommitted(n);
    assert n'.replies[|n.replies|..] == CommitReplies(n.pending, n.sm.commitIndex, n.sm.currentTerm);
  }

  /** The index a leader should have committed up to: what a quorum holds, if it is new and of the current term. */
  ghost function DueCommit(cfg: RaftConfig, n: Node, ids: seq<NodeId>): LogIndex
    requires Ranking(n.sm.progress, ids) && 1 <= cfg.Quorum() <= |ids| + 1
  {
    var m := QuorumMatch(n.sm.progress, ids, cfg.Quorum(), |n.log|);
    if m > n.sm.commitIndex && TermOf(n.log, m) == n.sm.currentTerm then m else n.sm.commitIndex
  }

  lemma QuorumIsInRange(cfg: RaftConfig, progress: map<NodeId, Progress>, ids: seq<NodeId>)
    requires ValidConfig(cfg) && progress.Keys == (set p | p in cfg.peers) && Ranking(progress, ids)
    ensures 1 <= cfg.Quorum() <= |ids| + 1
  {
    forall p: NodeId ensures p in ids <==> p in cfg.peers {
      assert p in ids <==> p in progress.Keys by {
        assert p in ids <==> p in (set q | q in ids);
      }
      assert p in cfg.peers <==> p in progress.Keys by {
        assert p in cfg.peers <==> p in (set q | q in cfg.peers);
      }
    }
    SameElements<NodeId>(cfg.peers, ids);
  }

  /** After the scan a leader has committed exactly what is due, on disk, with every client up to there answered. */
  lemma LeaderCommitsWhatIsDue(cfg: RaftConfig, n: Node, ids: seq<NodeId>)
    requires OnDisk(n) && n.sm.role == Leader && Shaped(n.log, n.sm.currentTerm)
    requires Ranking(n.sm.progress, ids) && 1 <= cfg.Quorum() <= |ids| + 1
    ensures CommittedUpTo(n, DueCommit(cfg, n, ids), MaybeAdvanceCommit(cfg, n))
  {
    CommitScanIsOrderStatistic(n.log, n.sm.currentTerm, n.sm.progress, cfg.Quorum(), n.sm.commitIndex, ids);
    hide CommitScan, QuorumMatch, Ranking, Shaped, TermOf;
    var n1 := AdvanceTo(n, DueCommit(cfg, n, ids));
    AnswersUpTo(n1);
  }

  // ----- apply

  /** Everything committed is applied, in order, after what was applied before. */
  lemma CommittedIsApplied(n: Node)
    requires ContiguousFrom(n.log, 1) && n.sm.lastApplied <= n.sm.commitIndex <= |n.log|
    ensures var n' := ApplyCommitted(n);
            && n'.sm == n.sm.(lastApplied := n.sm.commitIndex)
            && n'.applied == n.applied + n.log[n.sm.lastApplied..n.sm.commitIndex]
            && n'.log == n.log && n'.pending == n.pending && n'.replies == n.replies
  {
  }

  /** Only heartbeats apply anything. */
  lemma OnlyBeatsApply(cfg: RaftConfig, n: Node, step: Step)
    requires !step.Beat? && !step.Crash?
    ensures var n' := Act(cfg, n, step).node; n'.applied == n.applied && n'.sm.lastApplied == n.sm.lastApplied
  {
    hide Splice, ReplicateAll, CommitScan, FirstIndexOfTerm, UpToDate, TermOf, LastIndexOf;
  }

  /** A cluster of one commits and applies its whole log at the next heartbeat. */
  lemma SingleNodeCommits(cfg: RaftConfig, n: Node)
    requires cfg.peers == [] && OnDisk(n) && n.sm.role == Leader && n.sm.progress == map[]
    requires Shaped(n.log, n.sm.currentTerm) && n.sm.lastApplied <= n.sm.commitIndex <= |n.log|
    requires n.log != [] && n.log[|n.log| - 1].term == n.sm.currentTerm
    ensures var n' := Act(cfg, n, Beat(cfg.id)).node;
            && n'.sm.commitIndex == n'.sm.lastApplied == |n.log|
            && n'.applied == n.applied + n.log[n.sm.lastApplied..]
            && forall p | p in n.pending && p.index <= |n.log| ::
                 Granted(p.tx, p.index, p.term, p.data, n.sm.currentTerm) in n'.replies
  {
    var ids: seq<NodeId> := [];
    assert (set p | p in ids) == n.sm.progress.Keys;
    LeaderCommitsWhatIsDue(cfg, n, ids);
    assert DueCommit(cfg, n, ids) == |n.log|;
    hide Ranking, DueCommit, MaybeAdvanceCommit, ReplicateAll;
    CommittedIsApplied(MaybeAdvanceCommit(cfg, n));
    hide ApplyCommitted;
  }

  // ----- crashes

  /** What a crash does not bring back: the role, the votes and progress, the leader's name and whoever was waiting. The
      log and what was answered stay, and the commit index on disk is where the next life starts to apply. */
  lemma CrashForgets(cfg: RaftConfig, n: Node)
    requires OnDisk(n)
    ensures var n' := Act(cfg, n, Crash(cfg.id)).node;
            && n'.sm.role == Follower && n'.sm.votesReceived == {} && n'.sm.progress == map[] && n'.sm.leaderId == None
            && n'.pending == [] && n'.applied == []
            && n'.log == n.log && n'.replies == n.replies && n'.hard == n.hard
            && n'.sm.lastApplied == n'.sm.commitIndex == n.sm.commitIndex
            && n'.sm.currentTerm == n.sm.currentTerm
  {
    hide StartElection, Heartbeat, OnProposal, Handle;
  }

  // ----- proposals

  /** A leader puts exactly the client's data at its new last index, in its own term, and the client on its list; anyone
      else answers at once with the leader it knows of. */
  lemma ProposalIsTaken(cfg: RaftConfig, n: Node, p: Proposal)
    ensures var n' := OnProposal(cfg, n, p).0;
            && n'.sm == n.sm
            && (n.sm.role == Leader ==>
                  && n'.log == n.log + [LogEntry(n.sm.currentTerm, |n.log| + 1, p.data, Normal)]
                  && n'.replies == n.replies
                  && n'.pending == (if p.tx.None? then n.pending else
                                    n.pending + [Pending(|n.log| + 1, p.tx.value, n.sm.currentTerm, p.data)]))
            && (n.sm.role != Leader ==>
                  && n'.log == n.log && n'.pending == n.pending
                  && n'.replies == (if p.tx.None? then n.replies else
                                    n.replies + [NotLeader(p.tx.value, n.sm.leaderId)]))
  {
    hide ReplicateAll;
  }

  /** The new entry is on its way to every peer that was waiting for it. */
  lemma ProposalOffersAll(cfg: RaftConfig, n: Node, p: Proposal)
    requires n.sm.role == Leader
    ensures var e := Act(cfg, n, Propose(cfg.id, p)); OffersAll(cfg, e.node, e.sent)
  {
    var e := Act(cfg, n, Propose(cfg.id, p));
    assert e.node.sm == n.sm && e.sent == ReplicateAll(cfg, e.node) by {
      hide ReplicateAll;
    }
    ReplicationOffersAll(cfg, e.node);
    hide OnProposal, OffersAll, ReplicateAll;
  }
}
