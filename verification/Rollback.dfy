/** The fast rollback converges: a quiet exchange between one leader and one follower, round by round. */
module Rollback {
  import opened Core
  import opened LogSpec
  import opened NodeSpec
  import opened Cluster
  import opened Invariants
  import opened Handlers
  import opened NodeProperties
  import opened HandlerEffects

  /** `rejected` tells how the follower answered. */
  datatype Exchange = Exchange(leader: Node, follower: Node, rejected: nat)

  /** The leader sends to `peer`, the follower answers, the leader takes the answer into account. */
  function Round(cfg: RaftConfig, peer: NodeId, x: Exchange): Exchange
    requires peer in x.leader.sm.progress
  {
    var req := BuildAppend(cfg, x.leader, x.leader.sm.progress[peer].nextIndex);
    var (f, resp) := OnAppendEntries(x.follower, req);
    Exchange(HandleAppendResponse(cfg, x.leader, peer, req.LastIndex(), resp), f,
             if resp.success then x.rejected else x.rejected + 1)
  }

  function Rounds(cfg: RaftConfig, peer: NodeId, x: Exchange, n: nat): Exchange
    decreases n
  {
    if n == 0 || peer !in x.leader.sm.progress then x else Rounds(cfg, peer, Round(cfg, peer, x), n - 1)
  }

  /** A leader and a follower of no later term whose logs match, as log matching guarantees, with the leader's
      bookkeeping either fresh or confirmed by an earlier answer. */
  ghost predicate Quiet(peer: NodeId, x: Exchange) {
    var l, f := x.leader, x.follower;
    && l.sm.role == Leader && peer in l.sm.progress
    && f.sm.currentTerm <= l.sm.currentTerm
    && Shaped(l.log, l.sm.currentTerm) && Shaped(f.log, f.sm.currentTerm) && LogsMatch(f.log, l.log)
    && var p := l.sm.progress[peer];
       && p.matchIndex < p.nextIndex <= |l.log| + 1
       && Agree(f.log, l.log, p.matchIndex)
       && (p.matchIndex > 0 ==> p.nextIndex == p.matchIndex + 1)
  }

  ghost predicate CaughtUp(peer: NodeId, x: Exchange)
    requires peer in x.leader.sm.progress
  {
    x.leader.sm.progress[peer].matchIndex == |x.leader.log| && Agree(x.follower.log, x.leader.log, |x.leader.log|)
  }

  ghost function Terms(log: seq<LogEntry>, k: nat): set<Term> {
    set j | 0 <= j < k && j < |log| :: log[j].term
  }

  /** At most this many rejections can still follow a probe at `prev`. */
  ghost function ProbesLeft(log: seq<LogEntry>, prev: nat): nat {
    (if prev > |log| then prev - |log| else 0) + |Terms(log, prev)|
  }

  ghost function RejectionsLeft(peer: NodeId, x: Exchange): nat
    requires peer in x.leader.sm.progress
  {
    var p := x.leader.sm.progress[peer];
    if p.nextIndex == p.matchIndex + 1 then 0 else ProbesLeft(x.follower.log, p.nextIndex - 1)
  }

  /** The leader's half of a round keeps its term, role and log. */
  lemma LeaderHalf(cfg: RaftConfig, l: Node, peer: NodeId, reqLast: LogIndex, resp: AppendEntriesResponse)
    requires l.sm.role == Leader && peer in l.sm.progress && resp.term == l.sm.currentTerm
    ensures var l' := HandleAppendResponse(cfg, l, peer, reqLast, resp);
            && l'.log == l.log && l'.sm.role == Leader && l'.sm.currentTerm == l.sm.currentTerm
            && l'.sm.progress == l.sm.progress[peer := UpdateProgress(l.sm.progress[peer], reqLast, resp)]
  {
    var l1 := l.(sm := l.sm.(progress := l.sm.progress[peer := UpdateProgress(l.sm.progress[peer], reqLast, resp)]));
    MaybeAdvanceFacts(cfg, l1);
    hide MaybeAdvanceCommit;
  }

  lemma ProbeIsSegment(cfg: RaftConfig, peer: NodeId, x: Exchange)
    requires Quiet(peer, x)
    ensures var next := x.leader.sm.progress[peer].nextIndex; var req := BuildAppend(cfg, x.leader, next);
            && IsSegment(req, x.leader.log)
            && (next <= |x.leader.log| <==> req.entries != [])
  {
    hide Shaped, LogsMatch, Agree, BuildAppend;
    OfferIsSegment(cfg, x.leader, x.leader.sm.progress[peer].nextIndex);
  }

  lemma OfferIsSegment(cfg: RaftConfig, n: Node, next: NextIndex)
    requires Shaped(n.log, n.sm.currentTerm) && next <= |n.log| + 1
    ensures var req := BuildAppend(cfg, n, next);
            IsSegment(req, n.log) && (next <= |n.log| <==> req.entries != [])
  {
    if |n.log| >= next {
      CappedReadIsMaximal(n.log[next - 1..], ReadLimit(cfg));
    }
    hide TakeCapped, TermOf;
  }

  lemma TermDropped(log: seq<LogEntry>, prev: nat, next: nat)
    requires 1 <= next <= prev <= |log| && forall j | 0 <= j < next - 1 :: log[j].term != log[prev - 1].term
    ensures |Terms(log, next - 1)| < |Terms(log, prev)|
  {
    var t := log[prev - 1].term;
    assert t in Terms(log, prev) && t !in Terms(log, next - 1);
    SubsetCardinality(Terms(log, next - 1), Terms(log, prev) - {t});
  }

  /** A rejection sends the next probe strictly further down, past a whole term or one missing index. */
  lemma HintLowersProbes(log: seq<LogEntry>, prev: nat, next: nat)
    requires prev >= 1 && TermsSorted(log)
    requires if prev > |log| then next == prev else next == FirstIndexOfTerm(log, TermOf(log, prev), prev)
    ensures 1 <= next <= prev && ProbesLeft(log, next - 1) < ProbesLeft(log, prev)
  {
    if prev > |log| {
      assert Terms(log, prev) == Terms(log, prev - 1);
    } else {
      HintIsLeast(log, prev);
      hide TermsSorted, FirstIndexOfTerm;
      TermDropped(log, prev, next);
    }
  }

  /** The follower's half of a round. */
  lemma FollowerHalf(f: Node, req: AppendEntriesRequest)
    requires f.sm.currentTerm <= req.term
    ensures var (f', resp) := OnAppendEntries(f, req);
            && f'.sm.currentTerm == req.term == resp.term
            && (Accepts(f, req) ==> resp.success && f'.log == Splice(f.log, req.entries))
            && (!Accepts(f, req) ==>
                  && !resp.success && f'.log == f.log && req.prevLogIndex > 0
                  && resp.conflictIndex == (if req.prevLogIndex > |f.log| then req.prevLogIndex
                                            else FirstIndexOfTerm(f.log, TermOf(f.log, req.prevLogIndex), req.prevLogIndex)))
  {
    hide Splice, FirstIndexOfTerm;
  }

  lemma ConfirmedIsAccepted(cfg: RaftConfig, peer: NodeId, x: Exchange)
    requires Quiet(peer, x)
    ensures var p := x.leader.sm.progress[peer];
            p.nextIndex == p.matchIndex + 1 ==> Accepts(x.follower, BuildAppend(cfg, x.leader, p.nextIndex))
  {
    hide Shaped, LogsMatch, TakeCapped;
  }

  lemma RoundRejected(cfg: RaftConfig, peer: NodeId, x: Exchange)
    requires Quiet(peer, x) && Round(cfg, peer, x).rejected > x.rejected
    ensures var x' := Round(cfg, peer, x);
            && Quiet(peer, x') && x'.rejected == x.rejected + 1
            && x'.leader.log == x.leader.log
            && x'.leader.sm.progress[peer].nextIndex < x.leader.sm.progress[peer].nextIndex
            && x'.leader.sm.progress[peer].matchIndex == x.leader.sm.progress[peer].matchIndex
            && RejectionsLeft(peer, x') < RejectionsLeft(peer, x)
  {
    hide Shaped, LogsMatch, FirstIndexOfTerm, OnAppendEntries, ProbesLeft, HandleAppendResponse, Agree, TermOf, Splice,
      Accepts;
    var l, f := x.leader, x.follower;
    var p := l.sm.progress[peer];
    var req := BuildAppend(cfg, l, p.nextIndex);
    ConfirmedIsAccepted(cfg, peer, x);
    FollowerHalf(f, req);
    ShapedIsSorted(f.log, f.sm.currentTerm);
    HintLowersProbes(f.log, p.nextIndex - 1, OnAppendEntries(f, req).1.conflictIndex);
    LeaderHalf(cfg, l, peer, req.LastIndex(), OnAppendEntries(f, req).1);
    ShapedLater(f.log, f.sm.currentTerm, l.sm.currentTerm);
  }

  lemma ShapedIsSorted(log: seq<LogEntry>, t: Term)
    requires Shaped(log, t)
    ensures TermsSorted(log)
  {
  }

  /** What an accepted probe leaves on the follower. */
  lemma AcceptedProbe(f: Node, req: AppendEntriesRequest, leaderLog: seq<LogEntry>)
    requires IsSegment(req, leaderLog) && LogsMatch(f.log, leaderLog) && Accepts(f, req)
    requires req.prevLogTerm == TermOf(leaderLog, req.prevLogIndex)
    ensures var log := Splice(f.log, req.entries);
            && Agree(log, leaderLog, req.LastIndex())
            && (if req.entries == [] then log == f.log else log == leaderLog[..req.LastIndex()])
  {
    assert Agree(f.log, leaderLog, req.prevLogIndex) by {
      if req.prevLogIndex > 0 {
        assert f.log[req.prevLogIndex - 1].term == leaderLog[req.prevLogIndex - 1].term;
      }
    }
    hide LogsMatch, Splice;
    SpliceNothing(f.log);
    SpliceExtendsPrefix(f.log, leaderLog, req.prevLogIndex, req.entries);
  }

  lemma PrefixOfLeader(leaderLog: seq<LogEntry>, k: nat, t: Term)
    requires k <= |leaderLog| && Shaped(leaderLog, t)
    ensures Shaped(leaderLog[..k], t) && LogsMatch(leaderLog[..k], leaderLog)
  {
  }

  lemma RoundAccepted(cfg: RaftConfig, peer: NodeId, x: Exchange)
    requires Quiet(peer, x) && Round(cfg, peer, x).rejected == x.rejected
    ensures var x' := Round(cfg, peer, x);
            var m, m' := x.leader.sm.progress[peer].matchIndex, x'.leader.sm.progress[peer].matchIndex;
            && Quiet(peer, x') && x'.leader.log == x.leader.log
            && x'.leader.sm.progress[peer].nextIndex == m' + 1
            && (m' > m || m' == |x.leader.log|)
  {
    hide Shaped, LogsMatch, OnAppendEntries, HandleAppendResponse, Splice, Accepts, IsSegment, TakeCapped;
    var l, f := x.leader, x.follower;
    var p := l.sm.progress[peer];
    var req := BuildAppend(cfg, l, p.nextIndex);
    ProbeIsSegment(cfg, peer, x);
    FollowerHalf(f, req);
    hide BuildAppend;
    AcceptedProbe(f, req, l.log);
    LeaderHalf(cfg, l, peer, req.LastIndex(), OnAppendEntries(f, req).1);
    ShapedLater(f.log, f.sm.currentTerm, l.sm.currentTerm);
    PrefixOfLeader(l.log, req.LastIndex(), l.sm.currentTerm);
  }

  lemma CaughtUpStays(cfg: RaftConfig, peer: NodeId, x: Exchange)
    requires Quiet(peer, x) && CaughtUp(peer, x)
    ensures var x' := Round(cfg, peer, x);
            Quiet(peer, x') && CaughtUp(peer, x') && x'.rejected == x.rejected && x'.leader.log == x.leader.log
  {
    hide Shaped, LogsMatch, OnAppendEntries, HandleAppendResponse, Splice, Accepts, TakeCapped;
    ConfirmedIsAccepted(cfg, peer, x);
    FollowerHalf(x.follower, BuildAppend(cfg, x.leader, x.leader.sm.progress[peer].nextIndex));
    hide Round, BuildAppend;
    RoundAccepted(cfg, peer, x);
  }

  /** The exchange ends with the leader's log a prefix of the follower's, after no more rejections than predicted
      and no more rounds than rejections plus entries to ship. */
  lemma {:induction false} ExchangeConverges(cfg: RaftConfig, peer: NodeId, x: Exchange, n: nat)
    requires Quiet(peer, x)
    requires n >= RejectionsLeft(peer, x) + |x.leader.log| - x.leader.sm.progress[peer].matchIndex
    ensures var x' := Rounds(cfg, peer, x, n);
            && Quiet(peer, x') && CaughtUp(peer, x') && x'.leader.log == x.leader.log
            && x'.rejected <= x.rejected + RejectionsLeft(peer, x)
    decreases n
  {
    if n > 0 {
      var x' := Round(cfg, peer, x);
      hide Round, Shaped, LogsMatch, ProbesLeft, Agree;
      if CaughtUp(peer, x) {
        CaughtUpStays(cfg, peer, x);
      } else if x'.rejected > x.rejected {
        RoundRejected(cfg, peer, x);
      } else {
        NeverUnrejected(cfg, peer, x);
        RoundAccepted(cfg, peer, x);
      }
      ExchangeConverges(cfg, peer, x', n - 1);
    }
  }

  lemma NeverUnrejected(cfg: RaftConfig, peer: NodeId, x: Exchange)
    requires peer in x.leader.sm.progress
    ensures Round(cfg, peer, x).rejected >= x.rejected
  {
  }

  /** From a fresh leader: rejections are bounded by the length gap plus the number of terms in the follower's
      log, and the follower ends with the leader's log as a prefix. */
  lemma FastRollbackConverges(cfg: RaftConfig, peer: NodeId, leader: Node, follower: Node, n: nat)
    requires Quiet(peer, Exchange(leader, follower, 0))
    requires leader.sm.progress[peer].nextIndex == |leader.log| + 1
    requires leader.sm.progress[peer].matchIndex == 0
    requires n >= ProbesLeft(follower.log, |leader.log|) + |leader.log|
    ensures ProbesLeft(follower.log, |leader.log|)
         <= (if |leader.log| > |follower.log| then |leader.log| - |follower.log| else 0)
            + |set e | e in follower.log :: e.term|
    ensures var x := Rounds(cfg, peer, Exchange(leader, follower, 0), n);
            && x.rejected <= ProbesLeft(follower.log, |leader.log|)
            && x.leader.log == leader.log
            && peer in x.leader.sm.progress && x.leader.sm.progress[peer].matchIndex == |leader.log|
            && leader.log <= x.follower.log
  {
    var terms := set e | e in follower.log :: e.term;
    assert Terms(follower.log, |leader.log|) <= terms by {
      forall t | t in Terms(follower.log, |leader.log|) ensures t in terms {
        var j :| 0 <= j < |leader.log| && j < |follower.log| && follower.log[j].term == t;
        assert follower.log[j] in follower.log;
      }
    }
    SubsetCardinality(Terms(follower.log, |leader.log|), terms);
    ExchangeConverges(cfg, peer, Exchange(leader, follower, 0), n);
  }

  // ----- and commits

  /** In a quiet exchange the leader's commit index is within its log and the follower's state is on disk. */
  ghost predicate Committable(x: Exchange) {
    x.leader.sm.commitIndex <= |x.leader.log| && OnDisk(x.leader) && OnDisk(x.follower)
  }

  lemma ShapedIsContiguous(log: seq<LogEntry>, t: Term)
    requires Shaped(log, t)
    ensures ContiguousFrom(log, 1)
  {
  }

  /** Once caught up, one more round takes the follower to the leader's commit index, on disk. */
  lemma CaughtUpFollowerCommits(cfg: RaftConfig, peer: NodeId, x: Exchange)
    requires Quiet(peer, x) && CaughtUp(peer, x) && Committable(x)
    ensures var f := Round(cfg, peer, x).follower;
            && f.sm.commitIndex == Max(x.follower.sm.commitIndex, x.leader.sm.commitIndex)
            && OnDisk(f)
  {
    var l, f := x.leader, x.follower;
    var req := BuildAppend(cfg, l, l.sm.progress[peer].nextIndex);
    hide Shaped, LogsMatch, HandleAppendResponse, TakeCapped, TermOf;
    ShapedIsContiguous(f.log, f.sm.currentTerm);
    CaughtUpIsAccepted(cfg, peer, x);
    hide Accepts, BuildAppend;
    AcceptedCommit(f, req);
    FollowerHalf(f, req);
    hide OnAppendEntries;
    SpliceNothing(f.log);
  }

  /** The request that a caught-up follower gets is empty, accepted, and carries the leader's commit index. */
  lemma CaughtUpIsAccepted(cfg: RaftConfig, peer: NodeId, x: Exchange)
    requires Quiet(peer, x) && CaughtUp(peer, x)
    ensures var req := BuildAppend(cfg, x.leader, x.leader.sm.progress[peer].nextIndex);
            && Accepts(x.follower, req) && req.entries == [] && req.leaderCommit == x.leader.sm.commitIndex
            && req.term == x.leader.sm.currentTerm
            && |x.leader.log| <= |x.follower.log|
  {
    ProbeIsSegment(cfg, peer, x);
    ConfirmedOrEmptyIsAccepted(cfg, peer, x);
  }

  lemma ConfirmedOrEmptyIsAccepted(cfg: RaftConfig, peer: NodeId, x: Exchange)
    requires Quiet(peer, x) && CaughtUp(peer, x)
    ensures Accepts(x.follower, BuildAppend(cfg, x.leader, x.leader.sm.progress[peer].nextIndex))
  {
    ConfirmedIsAccepted(cfg, peer, x);
    hide Shaped, LogsMatch, TakeCapped;
  }

  /** Where one acknowledgement beside the leader is a quorum, a round with a caught-up follower commits the leader's
      whole log, if it ends in the leader's term. */
  lemma CaughtUpLeaderCommits(cfg: RaftConfig, peer: NodeId, x: Exchange)
    requires Quiet(peer, x) && CaughtUp(peer, x) && Committable(x) && cfg.Quorum() <= 2
    requires x.leader.log != [] && x.leader.log[|x.leader.log| - 1].term == x.leader.sm.currentTerm
    ensures var l := Round(cfg, peer, x).leader;
            && l.sm.commitIndex == |l.log| && OnDisk(l)
            && forall p | p in x.leader.pending && p.index <= |l.log| ::
                 Granted(p.tx, p.index, p.term, p.data, l.sm.currentTerm) in l.replies
  {
    var l := x.leader;
    var req := BuildAppend(cfg, l, l.sm.progress[peer].nextIndex);
    CaughtUpIsAccepted(cfg, peer, x);
    hide Shaped, LogsMatch, Accepts, BuildAppend;
    FollowerHalf(x.follower, req);
    var resp := OnAppendEntries(x.follower, req).1;
    hide OnAppendEntries;
    var n1 := l.(sm := l.sm.(progress := l.sm.progress[peer := UpdateProgress(l.sm.progress[peer], req.LastIndex(), resp)]));
    assert HandleAppendResponse(cfg, l, peer, req.LastIndex(), resp) == MaybeAdvanceCommit(cfg, n1);
    assert n1.sm.progress[peer].matchIndex == |l.log|;
    WholeLogCommits(cfg, n1, peer);
  }

  lemma WholeLogCommits(cfg: RaftConfig, n: Node, peer: NodeId)
    requires n.sm.role == Leader && peer in n.sm.progress && n.sm.progress[peer].matchIndex == |n.log|
    requires OnDisk(n) && n.sm.commitIndex <= |n.log| && cfg.Quorum() <= 2
    requires n.log != [] && n.log[|n.log| - 1].term == n.sm.currentTerm
    ensures CommittedUpTo(n, |n.log|, MaybeAdvanceCommit(cfg, n))
  {
    assert peer in Replicated(n.sm.progress, |n.log|);
    assert |Replicated(n.sm.progress, |n.log|)| >= 1;
    hide Replicated;
    assert CommitScan(n.log, n.sm.currentTerm, n.sm.progress, cfg.Quorum(), n.sm.commitIndex, |n.log|) == |n.log|;
    hide CommitScan;
    AnswersUpTo(AdvanceTo(n, |n.log|));
  }

  lemma RoundKeepsCommittable(cfg: RaftConfig, peer: NodeId, x: Exchange)
    requires Quiet(peer, x) && Committable(x)
    ensures Committable(Round(cfg, peer, x)) && Round(cfg, peer, x).leader.sm.currentTerm == x.leader.sm.currentTerm
  {
    var l := x.leader;
    var req := BuildAppend(cfg, l, l.sm.progress[peer].nextIndex);
    FollowerHalf(x.follower, req);
    AppendTakesTerm(cfg, x.follower, req);
    var resp := OnAppendEntries(x.follower, req).1;
    LeaderHalf(cfg, l, peer, req.LastIndex(), resp);
    AckTakesTerm(cfg, l, peer, req.LastIndex(), resp);
    hide Shaped, LogsMatch, Accepts, BuildAppend, OnAppendEntries, Agree;
    var n1 := l.(sm := l.sm.(progress := l.sm.progress[peer := UpdateProgress(l.sm.progress[peer], req.LastIndex(), resp)]));
    assert HandleAppendResponse(cfg, l, peer, req.LastIndex(), resp) == MaybeAdvanceCommit(cfg, n1);
    CommitStaysInLog(cfg, n1);
  }

  lemma CommitStaysInLog(cfg: RaftConfig, n: Node)
    requires n.sm.commitIndex <= |n.log|
    ensures MaybeAdvanceCommit(cfg, n).sm.commitIndex <= |n.log|
  {
    ScanIsBounded(n.log, n.sm.currentTerm, n.sm.progress, cfg.Quorum(), n.sm.commitIndex, |n.log|);
    hide CommitScan;
  }

  lemma {:induction false} ScanIsBounded(log: seq<LogEntry>, term: Term, progress: map<NodeId, Progress>, quorum: nat,
                                         commit: LogIndex, n: LogIndex)
    requires commit <= |log| && n <= |log|
    ensures CommitScan(log, term, progress, quorum, commit, n) <= |log|
  {
    hide Replicated;
    if n > commit {
      ScanIsBounded(log, term, progress, quorum, commit, n - 1);
    }
  }

  /** From any quiet state of a cluster of two or three, with a log that ends in the leader's term: after enough rounds
      both the leader and the follower have committed the leader's whole log. */
  lemma ExchangeCommits(cfg: RaftConfig, peer: NodeId, x: Exchange, n: nat)
    requires Quiet(peer, x) && Committable(x) && cfg.Quorum() <= 2
    requires x.leader.log != [] && x.leader.log[|x.leader.log| - 1].term == x.leader.sm.currentTerm
    requires n >= RejectionsLeft(peer, x) + |x.leader.log| - x.leader.sm.progress[peer].matchIndex
    ensures var x1 := Rounds(cfg, peer, x, n);
            && peer in x1.leader.sm.progress
            && var x2 := Round(cfg, peer, x1);
               && x2.leader.sm.commitIndex == |x.leader.log| && peer in x2.leader.sm.progress
               && var x3 := Round(cfg, peer, x2);
                  && x3.follower.sm.commitIndex >= |x.leader.log|
                  && x.leader.log <= x3.follower.log
                  && OnDisk(x2.leader) && OnDisk(x3.follower)
  {
    hide Round, Rounds, Quiet, CaughtUp, RejectionsLeft, Committable, OnDisk;
    ExchangeConverges(cfg, peer, x, n);
    RoundsKeepCommittable(cfg, peer, x, n);
    QuietTracks(peer, Rounds(cfg, peer, x, n));
    CaughtUpCommits(cfg, peer, Rounds(cfg, peer, x, n));
  }

  lemma QuietTracks(peer: NodeId, x: Exchange)
    requires Quiet(peer, x)
    ensures peer in x.leader.sm.progress
  {
  }

  lemma CaughtUpCommits(cfg: RaftConfig, peer: NodeId, x: Exchange)
    requires Quiet(peer, x) && CaughtUp(peer, x) && Committable(x) && cfg.Quorum() <= 2
    requires x.leader.log != [] && x.leader.log[|x.leader.log| - 1].term == x.leader.sm.currentTerm
    ensures var x2 := Round(cfg, peer, x);
            && x2.leader.sm.commitIndex == |x.leader.log| && peer in x2.leader.sm.progress
            && var x3 := Round(cfg, peer, x2);
               && x3.follower.sm.commitIndex >= |x.leader.log|
               && x.leader.log <= x3.follower.log
               && OnDisk(x2.leader) && OnDisk(x3.follower)
  {
    hide Round, Shaped, LogsMatch, ProbesLeft, Committable, OnDisk, Agree;
    CaughtUpLeaderCommits(cfg, peer, x);
    CaughtUpStays(cfg, peer, x);
    RoundKeepsCommittable(cfg, peer, x);
    var x2 := Round(cfg, peer, x);
    CaughtUpFollowerCommits(cfg, peer, x2);
    CaughtUpStays(cfg, peer, x2);
    CaughtUpIsPrefix(peer, Round(cfg, peer, x2));
  }

  lemma CaughtUpIsPrefix(peer: NodeId, x: Exchange)
    requires peer in x.leader.sm.progress && CaughtUp(peer, x)
    ensures x.leader.log <= x.follower.log
  {
  }

  lemma {:induction false} RoundsKeepCommittable(cfg: RaftConfig, peer: NodeId, x: Exchange, n: nat)
    requires Quiet(peer, x) && Committable(x)
    ensures Committable(Rounds(cfg, peer, x, n)) && Rounds(cfg, peer, x, n).leader.sm.currentTerm == x.leader.sm.currentTerm
    decreases n
  {
    hide Rounds, Round, Quiet, Committable;
    QuietTracks(peer, x);
    RoundsUnfold(cfg, peer, x, n);
    if n > 0 {
      RoundKeepsCommittable(cfg, peer, x);
      RoundKeepsQuiet(cfg, peer, x);
      RoundsKeepCommittable(cfg, peer, Round(cfg, peer, x), n - 1);
    }
  }

  lemma RoundsUnfold(cfg: RaftConfig, peer: NodeId, x: Exchange, n: nat)
    requires peer in x.leader.sm.progress
    ensures Rounds(cfg, peer, x, n) == if n == 0 then x else Rounds(cfg, peer, Round(cfg, peer, x), n - 1)
  {
    hide Round;
  }

  lemma RoundKeepsQuiet(cfg: RaftConfig, peer: NodeId, x: Exchange)
    requires Quiet(peer, x)
    ensures Quiet(peer, Round(cfg, peer, x))
  {
    hide Round, Quiet, RejectionsLeft;
    QuietTracks(peer, x);
    if Round(cfg, peer, x).rejected > x.rejected {
      RoundRejected(cfg, peer, x);
    } else {
      NeverUnrejected(cfg, peer, x);
      RoundAccepted(cfg, peer, x);
    }
  }
}
