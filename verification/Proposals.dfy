/** What a client may conclude from the answer to a proposal, over whole runs. */
module Proposals {
  import opened Core
  import opened NodeSpec
  import opened Cluster
  import opened Invariants
  import opened Handlers
  import opened Safety
  import opened Theorems

  // ----- what an answer means

  ghost predicate RepliesCovered(n: Node) {
    forall r | r in n.replies && r.Granted? :: r.index <= n.sm.commitIndex
  }

  lemma AdvanceCovers(cfg: RaftConfig, n: Node)
    requires RepliesCovered(n)
    ensures RepliesCovered(MaybeAdvanceCommit(cfg, n))
  {
    if n.sm.role == Leader {
      var n1 := AdvanceTo(n, CommitScan(n.log, n.sm.currentTerm, n.sm.progress, cfg.Quorum(), n.sm.commitIndex, |n.log|));
      hide CommitScan;
      PendingSplitSources(n.pending, n1.sm.commitIndex, n.sm.currentTerm);
    }
  }

  lemma ActCovers(cfg: RaftConfig, n: Node, step: Step)
    requires RepliesCovered(n) && n.sm.commitIndex <= Act(cfg, n, step).node.sm.commitIndex
    ensures RepliesCovered(Act(cfg, n, step).node)
  {
    match step
    case Beat(_) =>
      AdvanceCovers(cfg, n);
      hide MaybeAdvanceCommit, ReplicateAll;
    case Deliver(AppendRep(src, _, reqLast, resp)) =>
      if src in n.sm.progress {
        AdvanceCovers(cfg,
          n.(sm := n.sm.(progress := n.sm.progress[src := UpdateProgress(n.sm.progress[src], reqLast, resp)])));
      } else {
        AdvanceCovers(cfg, n);
      }
      hide MaybeAdvanceCommit;
    case Propose(_, _) =>
      hide ReplicateAll;
    case _ =>
      hide ReplicateAll, Splice, FirstIndexOfTerm, UpToDate;
  }

  /** Every index a node has ever answered `Ok` for is within its own commit index, and stays there. */
  lemma {:induction false} AnsweredIsCommitted(c: Topology, ss: seq<State>, steps: seq<Step>, a: nat, i: NodeId)
    requires IsRun(c, ss, steps) && RunMeetsH1(ss, steps) && RunMeetsH2(ss, steps) && a < |ss| && i in c
    ensures i in ss[a].nodes && RepliesCovered(ss[a].nodes[i])
  {
    hide Act, Observe, MeetsH1, MeetsH2;
    if a == 0 {
      assert ss[0] == Init(c);
    } else {
      AnsweredIsCommitted(c, ss, steps, a - 1, i);
      RunCommitRises(c, ss, steps, a - 1, a, i);
      if Actor(steps[a - 1]) == i {
        ActCovers(c[i], ss[a - 1].nodes[i], steps[a - 1]);
      }
    }
  }

  /** A client told `Ok(index)` by the leader it proposed to, in the term of its proposal, finds its own data
      at `index` of every node that has committed so far, then and ever after. */
  lemma OkMeansCommitted(c: Topology, ss: seq<State>, steps: seq<Step>, a: nat, b: nat, i: NodeId, j: NodeId, r: Reply)
    requires IsRun(c, ss, steps) && RunMeetsH1(ss, steps) && RunMeetsH2(ss, steps)
    requires a <= b < |ss| && i in c && j in c && i in ss[a].nodes && j in ss[b].nodes
    requires r in ss[a].nodes[i].replies && r.Granted? && r.proposedIn == r.repliedIn
    requires r.index <= ss[b].nodes[j].sm.commitIndex
    ensures 1 <= r.index <= |ss[b].nodes[j].log|
    ensures ss[b].nodes[j].log[r.index - 1] == LogEntry(r.proposedIn, r.index, r.data, Normal)
  {
    hide IsRun, RunMeetsH1, RunMeetsH2, Inv1, Inv2, HistoryOK, NodeOK, Later, LeadersSafe, KeepsConfirmed, Committed,
      EntryChosen;
    RunInv2(c, ss, steps, a);
    RunInv2(c, ss, steps, b);
    RunLater(c, ss, steps, a, b);
    NodeFacts(c, ss[b], j);
    SafeFacts(c, ss[a], i);
    SafeFacts(c, ss[b], j);
    var y, entry := ss[b].nodes[j], LogEntry(r.proposedIn, r.index, r.data, Normal);
    assert ReplySafe(c, ss[a].history, r);
    EntryChosenLater(c, ss[a].history, ss[b].history, r.index, entry);
    ChosenEntryIsCommitted(c, ss[b].history, r.index, entry, y.log, y.sm.commitIndex, y.sm.currentTerm);
  }

  /** A committed log holds the chosen entry at every index it has committed. */
  lemma ChosenEntryIsCommitted(c: Topology, h: History, index: LogIndex, entry: LogEntry,
                               log: seq<LogEntry>, commit: nat, term: Term)
    requires HistoryOK(c, h) && LeadersSafe(h) && EntryChosen(c, h, index, entry)
    requires Committed(c, h, log, commit, term) && index <= commit
    ensures 1 <= index <= |log| && log[index - 1] == entry
  {
    hide HistoryOK, LeadersSafe;
    var t, k :| ChosenAt(c, h, index, entry, t, k);
    var t', k' :| CommitWitness(c, h, log, commit, term, t', k');
    assert t in h.leaders && t' in h.leaders;
    hide Chosen;
    if t <= t' {
      LeaderCompleteness(c, h, t, k, t');
    } else {
      LeaderCompleteness(c, h, t', k', t);
    }
  }

  /** Exactly when an `Ok` is right: under H1 and H2, whoever commits the index it names holds the client's own entry
      there if and only if the answering node's entry at that index is of the term of the proposal. It is, whenever
      the answer came in that term. */
  lemma OkIsOwnIff(c: Topology, ss: seq<State>, steps: seq<Step>, a: nat, b: nat, i: NodeId, j: NodeId, r: Reply)
    requires IsRun(c, ss, steps) && RunMeetsH1(ss, steps) && RunMeetsH2(ss, steps)
    requires a <= b < |ss| && i in c && j in c && i in ss[a].nodes && j in ss[b].nodes
    requires r in ss[a].nodes[i].replies && r.Granted? && r.index <= ss[b].nodes[j].sm.commitIndex
    ensures 1 <= r.index <= ss[a].nodes[i].sm.commitIndex <= |ss[a].nodes[i].log| && r.index <= |ss[b].nodes[j].log|
    ensures ss[b].nodes[j].log[r.index - 1] == LogEntry(r.proposedIn, r.index, r.data, Normal) <==>
            ss[a].nodes[i].log[r.index - 1].term == r.proposedIn
    ensures r.proposedIn == r.repliedIn ==> ss[a].nodes[i].log[r.index - 1].term == r.proposedIn
  {
    hide IsRun, RunMeetsH1, RunMeetsH2, Inv1, HistoryOK, NodeOK;
    AnsweredIsCommitted(c, ss, steps, a, i);
    AppliedIsTheLog(c, ss, steps, a, i);
    AppliedIsTheLog(c, ss, steps, b, j);
    StateMachineSafety(c, ss, steps, a, b, i, j, r.index);
    RunInv1(c, ss, steps, a);
    NodeFacts(c, ss[a], i);
    var h, n := ss[a].history, ss[a].nodes[i];
    NodeParts(c, h, i, n);
    assert ProposedAt(h, i, r.index, r.proposedIn, r.data);
    assert FromReign(h, n.log, r.index - 1);
    if r.proposedIn == r.repliedIn {
      OkMeansCommitted(c, ss, steps, a, a, i, i, r);
    }
  }

  /** Node `i` created this entry while leading term `term`. */
  lemma ProposedEntry(c: Topology, h: History, h': History, i: NodeId, j: NodeId, n: Node,
                      index: LogIndex, term: Term, data: Data)
    requires Later(h, h') && ProposedAt(h, i, index, term, data) && j in c && NodeOK(c, h', j, n)
    ensures 1 <= index
    ensures index <= |n.log| ==>
              (n.log[index - 1] == LogEntry(term, index, data, Normal) <==> n.log[index - 1].term == term)
    ensures i == j && n.sm.role == Leader && n.sm.currentTerm == term ==>
              index <= |n.log| && n.log[index - 1].term == term
  {
    NodeParts(c, h', j, n);
    hide NodeOK, Past, RoleOK, ClientsOK, Shaped, Persisted;
    assert ReignGrows(term, h.leaders[term], h'.leaders[term]);
    assert ProposedAt(h', i, index, term, data);
    if index <= |n.log| {
      assert FromReign(h', n.log, index - 1);
    }
  }

  /** The same before the answer, under H1 alone and in any log: at the index of a proposal still waiting stands the
      client's own entry if and only if the entry there is of the term of the proposal. A node that still leads that
      term holds it. */
  lemma PendingIsOwnIff(c: Topology, ss: seq<State>, steps: seq<Step>, a: nat, b: nat, i: NodeId, j: NodeId, p: Pending)
    requires IsRun(c, ss, steps) && RunMeetsH1(ss, steps) && a <= b < |ss|
    requires i in c && j in c && i in ss[a].nodes && j in ss[b].nodes && p in ss[a].nodes[i].pending
    ensures 1 <= p.index
    ensures var n := ss[b].nodes[j];
            && (p.index <= |n.log| ==>
                  (n.log[p.index - 1] == LogEntry(p.term, p.index, p.data, Normal) <==>
                   n.log[p.index - 1].term == p.term))
            && (i == j && n.sm.role == Leader && n.sm.currentTerm == p.term ==>
                  p.index <= |n.log| && n.log[p.index - 1].term == p.term)
  {
    hide IsRun, RunMeetsH1, Inv1, HistoryOK, NodeOK, Later;
    RunInv1(c, ss, steps, a);
    RunInv1(c, ss, steps, b);
    RunLater(c, ss, steps, a, b);
    NodeFacts(c, ss[a], i);
    NodeFacts(c, ss[b], j);
    NodeParts(c, ss[a].history, i, ss[a].nodes[i]);
    ProposedEntry(c, ss[a].history, ss[b].history, i, j, ss[b].nodes[j], p.index, p.term, p.data);
  }

  /** And after it, without H2: a node that gave an answer and leads the term of the proposal, then or later, holds the
      client's own entry at the index it named. */
  lemma AnswerIsOwnWhileLeading(c: Topology, ss: seq<State>, steps: seq<Step>, a: nat, b: nat, i: NodeId, r: Reply)
    requires IsRun(c, ss, steps) && RunMeetsH1(ss, steps) && a <= b < |ss|
    requires i in c && i in ss[a].nodes && i in ss[b].nodes && r in ss[a].nodes[i].replies && r.Granted?
    requires ss[b].nodes[i].sm.role == Leader && ss[b].nodes[i].sm.currentTerm == r.proposedIn
    ensures 1 <= r.index <= |ss[b].nodes[i].log|
    ensures ss[b].nodes[i].log[r.index - 1] == LogEntry(r.proposedIn, r.index, r.data, Normal)
  {
    hide IsRun, RunMeetsH1, Inv1, HistoryOK, NodeOK, Later;
    RunInv1(c, ss, steps, a);
    RunInv1(c, ss, steps, b);
    RunLater(c, ss, steps, a, b);
    NodeFacts(c, ss[a], i);
    NodeFacts(c, ss[b], i);
    NodeParts(c, ss[a].history, i, ss[a].nodes[i]);
    ProposedEntry(c, ss[a].history, ss[b].history, i, i, ss[b].nodes[i], r.index, r.proposedIn, r.data);
  }

  // ----- every reply channel is used at most once

  /** How often channel `tx` occurs among the waiting proposals. */
  function Waiting(pending: seq<Pending>, tx: nat): nat {
    if pending == [] then 0
    else Waiting(pending[..|pending| - 1], tx) + if pending[|pending| - 1].tx == tx then 1 else 0
  }

  /** How often channel `tx` has been answered. */
  function Answered(replies: seq<Reply>, tx: nat): nat {
    if replies == [] then 0
    else Answered(replies[..|replies| - 1], tx) + if replies[|replies| - 1].tx == tx then 1 else 0
  }

  function Uses(n: Node, tx: nat): nat {
    Waiting(n.pending, tx) + Answered(n.replies, tx)
  }

  function ChannelOf(step: Step): Option<nat> {
    if step.Propose? then step.proposal.tx else None
  }

  predicate Hands(step: Step, i: NodeId, tx: nat) {
    ChannelOf(step) == Some(tx) && Actor(step) == i
  }

  /** How often the steps of a run hand channel `tx` to node `i`. */
  function Handed(steps: seq<Step>, i: NodeId, tx: nat): nat {
    if steps == [] then 0
    else Handed(steps[..|steps| - 1], i, tx) + if Hands(steps[|steps| - 1], i, tx) then 1 else 0
  }

  lemma {:induction false} AnsweredConcat(a: seq<Reply>, b: seq<Reply>, tx: nat)
    ensures Answered(a + b, tx) == Answered(a, tx) + Answered(b, tx)
  {
    if b == [] {
      assert a + b == a;
    } else {
      assert (a + b)[..|a + b| - 1] == a + b[..|b| - 1];
      AnsweredConcat(a, b[..|b| - 1], tx);
    }
  }

  lemma WaitingSnoc(pending: seq<Pending>, p: Pending, tx: nat)
    ensures Waiting(pending + [p], tx) == Waiting(pending, tx) + if p.tx == tx then 1 else 0
  {
    assert (pending + [p])[..|pending|] == pending;
  }

  lemma AnsweredSnoc(replies: seq<Reply>, r: Reply, tx: nat)
    ensures Answered(replies + [r], tx) == Answered(replies, tx) + if r.tx == tx then 1 else 0
  {
    assert (replies + [r])[..|replies|] == replies;
  }

  /** Splitting the waiting proposals at a commit index moves each channel to one side. */
  lemma {:induction false} SplitKeepsUses(pending: seq<Pending>, commit: LogIndex, term: Term, tx: nat)
    ensures Waiting(StillPending(pending, commit), tx) + Answered(CommitReplies(pending, commit, term), tx)
         == Waiting(pending, tx)
  {
    if pending != [] {
      var front, last := pending[..|pending| - 1], pending[|pending| - 1];
      SplitKeepsUses(front, commit, term, tx);
      if last.index <= commit {
        AnsweredSnoc(CommitReplies(front, commit, term), Granted(last.tx, last.index, last.term, last.data, term), tx);
      } else {
        WaitingSnoc(StillPending(front, commit), last, tx);
      }
    }
  }

  lemma AdvanceKeepsUses(cfg: RaftConfig, n: Node, tx: nat)
    ensures Uses(MaybeAdvanceCommit(cfg, n), tx) == Uses(n, tx)
  {
    if n.sm.role == Leader {
      var n1 := AdvanceTo(n, CommitScan(n.log, n.sm.currentTerm, n.sm.progress, cfg.Quorum(), n.sm.commitIndex, |n.log|));
      hide CommitScan, Waiting, Answered, StillPending, CommitReplies;
      SplitKeepsUses(n1.pending, n1.sm.commitIndex, n1.sm.currentTerm, tx);
      AnsweredConcat(n1.replies, CommitReplies(n1.pending, n1.sm.commitIndex, n1.sm.currentTerm), tx);
    }
  }

  lemma ProposalUsesOnce(cfg: RaftConfig, n: Node, p: Proposal, tx: nat)
    ensures Uses(OnProposal(cfg, n, p).0, tx) == Uses(n, tx) + if p.tx == Some(tx) then 1 else 0
  {
    hide ReplicateAll, Waiting, Answered;
    if p.tx.Some? {
      if n.sm.role == Leader {
        WaitingSnoc(n.pending, Pending(|n.log| + 1, p.tx.value, n.sm.currentTerm, p.data), tx);
      } else {
        AnsweredSnoc(n.replies, NotLeader(p.tx.value, n.sm.leaderId), tx);
      }
    }
  }

  lemma OthersKeepClients(cfg: RaftConfig, n: Node, step: Step)
    requires step.Timeout? || (step.Deliver? && !step.message.AppendRep?)
    ensures var n' := Act(cfg, n, step).node; n'.pending == n.pending && n'.replies == n.replies
  {
    hide ReplicateAll, Splice, FirstIndexOfTerm, UpToDate, TermOf;
  }

  lemma AppendRepKeepsUses(cfg: RaftConfig, n: Node, src: NodeId, reqLast: LogIndex, resp: AppendEntriesResponse, tx: nat)
    ensures Uses(HandleAppendResponse(cfg, n, src, reqLast, resp), tx) == Uses(n, tx)
  {
    hide MaybeAdvanceCommit, UpdateProgress, Waiting, Answered;
    if src in n.sm.progress {
      AdvanceKeepsUses(cfg,
        n.(sm := n.sm.(progress := n.sm.progress[src := UpdateProgress(n.sm.progress[src], reqLast, resp)])), tx);
    } else {
      AdvanceKeepsUses(cfg, n, tx);
    }
  }

  lemma BeatKeepsUses(cfg: RaftConfig, n: Node, tx: nat)
    ensures Uses(Heartbeat(cfg, n).0, tx) == Uses(n, tx)
  {
    hide MaybeAdvanceCommit, ReplicateAll, Waiting, Answered;
    AdvanceKeepsUses(cfg, n, tx);
  }

  lemma CrashDropsUses(n: Node, tx: nat)
    ensures Uses(Restart(n), tx) <= Uses(n, tx)
  {
  }

  /** No step makes up a use of a channel; a crash may drop some. */
  lemma ActKeepsUses(cfg: RaftConfig, n: Node, step: Step, tx: nat)
    ensures Uses(Act(cfg, n, step).node, tx) <= Uses(n, tx) + if ChannelOf(step) == Some(tx) then 1 else 0
  {
    hide Heartbeat, OnProposal, StartElection, HandleAppendResponse, HandleVoteResponse, OnAppendEntries, OnRequestVote,
      Restart, Waiting, Answered;
    match step
    case Beat(_) => BeatKeepsUses(cfg, n, tx);
    case Deliver(AppendRep(src, _, reqLast, resp)) => AppendRepKeepsUses(cfg, n, src, reqLast, resp, tx);
    case Propose(_, p) => ProposalUsesOnce(cfg, n, p, tx);
    case Crash(_) => CrashDropsUses(n, tx);
    case _ => OthersKeepClients(cfg, n, step);
  }

  /** A node uses a channel at most as often as it was handed it. */
  lemma {:induction false} UsesWereHanded(c: Topology, ss: seq<State>, steps: seq<Step>, a: nat, i: NodeId, tx: nat)
    requires IsRun(c, ss, steps) && a < |ss| && i in c
    ensures i in ss[a].nodes && Uses(ss[a].nodes[i], tx) <= Handed(steps[..a], i, tx)
  {
    hide Act, Observe, WellFormed;
    if a == 0 {
      assert ss[0] == Init(c);
    } else {
      UsesWereHanded(c, ss, steps, a - 1, i, tx);
      assert steps[..a][..a - 1] == steps[..a - 1];
      if Actor(steps[a - 1]) == i {
        ActKeepsUses(c[i], ss[a - 1].nodes[i], steps[a - 1], tx);
      }
    }
  }

  /** No two proposals of the run use the same reply channel. */
  ghost predicate ChannelsDistinct(steps: seq<Step>) {
    forall k, l | 0 <= k < l < |steps| && ChannelOf(steps[k]).Some? :: ChannelOf(steps[k]) != ChannelOf(steps[l])
  }

  lemma {:induction false} HandedSomewhere(steps: seq<Step>, i: NodeId, tx: nat) returns (k: nat)
    requires Handed(steps, i, tx) > 0
    ensures k < |steps| && Hands(steps[k], i, tx)
  {
    k := |steps| - 1;
    if !Hands(steps[k], i, tx) {
      k := HandedSomewhere(steps[..k], i, tx);
    }
  }

  lemma {:induction false} HandedOnce(steps: seq<Step>, i: NodeId, tx: nat)
    requires ChannelsDistinct(steps)
    ensures Handed(steps, i, tx) <= 1
  {
    if steps != [] {
      var last := |steps| - 1;
      HandedOnce(steps[..last], i, tx);
      if Hands(steps[last], i, tx) && Handed(steps[..last], i, tx) > 0 {
        var k := HandedSomewhere(steps[..last], i, tx);
        assert false;
      }
    }
  }

  lemma {:induction false} AnsweredAt(replies: seq<Reply>, k: nat)
    requires k < |replies|
    ensures Answered(replies, replies[k].tx) > 0
  {
    if k < |replies| - 1 {
      AnsweredAt(replies[..|replies| - 1], k);
    }
  }

  lemma {:induction false} AnsweredTwice(replies: seq<Reply>, k: nat, l: nat)
    requires k < l < |replies| && replies[k].tx == replies[l].tx
    ensures Answered(replies, replies[k].tx) >= 2
  {
    var front := replies[..|replies| - 1];
    if l < |replies| - 1 {
      AnsweredTwice(front, k, l);
    } else {
      AnsweredAt(front, k);
    }
  }

  lemma PrefixDistinct(steps: seq<Step>, a: nat)
    requires ChannelsDistinct(steps) && a <= |steps|
    ensures ChannelsDistinct(steps[..a])
  {
  }

  /** A channel handed out once is handed to one node only. */
  lemma HandedToOne(steps: seq<Step>, i: NodeId, j: NodeId, tx: nat)
    requires ChannelsDistinct(steps) && Handed(steps, i, tx) > 0 && Handed(steps, j, tx) > 0
    ensures i == j
  {
    var x := HandedSomewhere(steps, i, tx);
    var y := HandedSomewhere(steps, j, tx);
    assert x == y;
  }

  /** In any run whose proposals use distinct reply channels, no channel is answered twice, whatever is lost,
      repeated or restarted, and by whichever nodes. */
  lemma AnsweredOnce(c: Topology, ss: seq<State>, steps: seq<Step>, a: nat, i: NodeId, j: NodeId, k: nat, l: nat)
    requires IsRun(c, ss, steps) && ChannelsDistinct(steps) && a < |ss| && i in c && j in c
    requires i in ss[a].nodes && j in ss[a].nodes
    requires k < |ss[a].nodes[i].replies| && l < |ss[a].nodes[j].replies|
    requires ss[a].nodes[i].replies[k].tx == ss[a].nodes[j].replies[l].tx
    ensures i == j && k == l
  {
    RunLength(c, ss, steps);
    hide IsRun, ChannelsDistinct, Waiting, Answered, Handed;
    PrefixDistinct(steps, a);
    var replies, tx := ss[a].nodes[i].replies, ss[a].nodes[i].replies[k].tx;
    UsesWereHanded(c, ss, steps, a, i, tx);
    UsesWereHanded(c, ss, steps, a, j, tx);
    AnsweredAt(replies, k);
    AnsweredAt(ss[a].nodes[j].replies, l);
    HandedToOne(steps[..a], i, j, tx);
    HandedOnce(steps[..a], i, tx);
    if k < l {
      AnsweredTwice(replies, k, l);
    } else if l < k {
      AnsweredTwice(replies, l, k);
    }
  }

  lemma RunLength(c: Topology, ss: seq<State>, steps: seq<Step>)
    requires IsRun(c, ss, steps)
    ensures |ss| == |steps| + 1
  {
  }
}
