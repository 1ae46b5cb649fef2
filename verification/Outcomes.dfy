/** What runs bring about: terms taken up, commits made when due, entries applied, answers and hints with a source. */
module Outcomes {
  import opened Core
  import opened LogSpec
  import opened NodeSpec
  import opened Cluster
  import opened Invariants
  import opened Handlers
  import opened NodeProperties
  import opened HandlerEffects
  import EveryRun
  import opened Safety
  import opened Theorems
  import opened Proposals

  // ----- one step of a run

  /** What step `a` does to its node. */
  function Done(c: Topology, ss: seq<State>, steps: seq<Step>, a: nat): Effect
    requires a < |steps| && a < |ss| && Actor(steps[a]) in c && Actor(steps[a]) in ss[a].nodes
  {
    Act(c[Actor(steps[a])], ss[a].nodes[Actor(steps[a])], steps[a])
  }

  lemma StepFacts(c: Topology, ss: seq<State>, steps: seq<Step>, a: nat)
    requires IsRun(c, ss, steps) && a < |steps|
    ensures |ss| == |steps| + 1
    ensures var i := Actor(steps[a]);
            && i in c && i in ss[a].nodes && ValidConfig(c[i]) && c[i].id == i
            && Enabled(c, ss[a], steps[a])
            && ss[a + 1].nodes == ss[a].nodes[i := Done(c, ss, steps, a).node]
            && ss[a + 1].net == ss[a].net + set m | m in Done(c, ss, steps, a).sent
  {
    hide Act, Observe;
  }

  lemma ActorIsMember(c: Topology, ss: seq<State>, steps: seq<Step>, a: nat)
    requires IsRun(c, ss, steps) && a < |steps|
    ensures |ss| == |steps| + 1 && Actor(steps[a]) in c
  {
  }

  lemma RunOnDisk(c: Topology, ss: seq<State>, steps: seq<Step>, a: nat, i: NodeId)
    requires IsRun(c, ss, steps) && a < |ss| && i in c
    ensures i in ss[a].nodes && OnDisk(ss[a].nodes[i]) && Shaped(ss[a].nodes[i].log, ss[a].nodes[i].sm.currentTerm)
  {
    hide IsRun;
    EveryRun.TermsAndVotesAreDurable(c, ss, steps, a, a, i);
    EveryRun.LogShape(c, ss, steps, a, i);
  }

  lemma StartsFresh(c: Topology, ss: seq<State>, steps: seq<Step>)
    requires IsRun(c, ss, steps)
    ensures |ss| > 0 && ss[0].net == {} && forall i | i in ss[0].nodes :: ss[0].nodes[i] == FRESH_NODE
  {
  }

  /** What the last step did to node `i`. */
  lemma Before(c: Topology, ss: seq<State>, steps: seq<Step>, a: nat, i: NodeId)
    requires IsRun(c, ss, steps) && 0 < a < |ss| && i in c
    ensures a - 1 < |steps| && i in ss[a - 1].nodes && i in ss[a].nodes && c[i].id == i
    ensures Actor(steps[a - 1]) == i ==> ss[a].nodes[i] == Act(c[i], ss[a - 1].nodes[i], steps[a - 1]).node
    ensures Actor(steps[a - 1]) != i ==> ss[a].nodes[i] == ss[a - 1].nodes[i]
    ensures steps[a - 1].Deliver? ==> steps[a - 1].message in ss[a - 1].net
  {
    hide Next, Act, ValidConfig, Enabled;
    EveryRun.RunIsSound(c, ss, steps, a - 1);
    AfterStep(c, ss[a - 1], steps[a - 1], i);
  }

  lemma AfterStep(c: Topology, s: State, step: Step, i: NodeId)
    requires WellFormed(c) && Enabled(c, s, step) && EveryRun.AllSound(c, s) && i in c
    ensures i in s.nodes && i in Next(c, s, step).nodes && c[i].id == i
    ensures Actor(step) == i ==> Next(c, s, step).nodes[i] == Act(c[i], s.nodes[i], step).node
    ensures Actor(step) != i ==> Next(c, s, step).nodes[i] == s.nodes[i]
    ensures step.Deliver? ==> step.message in s.net
  {
    hide Act, Observe, EveryRun.Sound, EveryRun.SoundMessage, ValidConfig;
  }

  // ----- terms

  /** In every run a delivery leaves its receiver in the newer of its own term and the message's; a node that hears of a
      newer term is a follower from then on, and so is a leader that was deposed. */
  lemma DeliveryTakesTerm(c: Topology, ss: seq<State>, steps: seq<Step>, a: nat)
    requires IsRun(c, ss, steps) && a < |steps| && steps[a].Deliver?
    ensures var i, m := Actor(steps[a]), steps[a].message;
            && a + 1 < |ss| && i in ss[a].nodes && i in ss[a + 1].nodes
            && TakesTermOf(ss[a].nodes[i], m, ss[a + 1].nodes[i])
  {
    StepFacts(c, ss, steps, a);
    var i := Actor(steps[a]);
    RunOnDisk(c, ss, steps, a, i);
    hide IsRun, Act;
    MessageTermIsTaken(c[i], ss[a].nodes[i], steps[a].message);
  }

  // ----- apply

  /** Right after its heartbeat a leader has applied everything it has committed. */
  lemma BeatAppliesCommitted(c: Topology, ss: seq<State>, steps: seq<Step>, a: nat, i: NodeId)
    requires IsRun(c, ss, steps) && RunMeetsH1(ss, steps) && RunMeetsH2(ss, steps)
    requires a < |steps| && steps[a] == Beat(i)
    ensures a + 1 < |ss| && i in ss[a + 1].nodes
    ensures var n := ss[a + 1].nodes[i];
            && n.boot <= n.sm.lastApplied == n.sm.commitIndex <= |n.log|
            && n.applied == n.log[n.boot..n.sm.commitIndex]
  {
    hide IsRun, RunMeetsH1, RunMeetsH2, Act, Shaped, ApplySafe;
    ActorIsMember(c, ss, steps, a);
    Before(c, ss, steps, a + 1, i);
    RunApplySafe(c, ss, steps, a + 1, i);
    RunOnDisk(c, ss, steps, a, i);
    BeatApplies(c[i], ss[a].nodes[i]);
  }

  lemma BeatApplies(cfg: RaftConfig, n: Node)
    requires Shaped(n.log, n.sm.currentTerm) && ApplySafe(Act(cfg, n, Beat(cfg.id)).node)
    ensures var n' := Act(cfg, n, Beat(cfg.id)).node;
            && n'.boot <= n'.sm.lastApplied == n'.sm.commitIndex <= |n'.log|
            && n'.applied == n'.log[n'.boot..n'.sm.commitIndex]
  {
    MaybeAdvanceFacts(cfg, n);
    hide MaybeAdvanceCommit, ReplicateAll;
  }

  /** And only then: a node that has had no heartbeat of its own, as every follower, has sent nothing to the application
      since its start, whatever it has committed. */
  lemma {:induction false} WithoutBeatNothingIsApplied(c: Topology, ss: seq<State>, steps: seq<Step>, a: nat, i: NodeId)
    requires IsRun(c, ss, steps) && a < |ss| && i in c
    requires forall k | 0 <= k < a && k < |steps| :: steps[k] != Beat(i)
    ensures i in ss[a].nodes && ss[a].nodes[i].applied == [] && ss[a].nodes[i].sm.lastApplied == ss[a].nodes[i].boot
  {
    if a == 0 {
      assert ss[0] == Init(c);
    } else {
      WithoutBeatNothingIsApplied(c, ss, steps, a - 1, i);
      Before(c, ss, steps, a, i);
      hide IsRun;
      if Actor(steps[a - 1]) == i {
        var n := ss[a - 1].nodes[i];
        if steps[a - 1].Crash? {
          CrashAppliesNothing(c[i], n, i);
        } else {
          OnlyBeatsApply(c[i], n, steps[a - 1]);
          BootOnlyAtCrash(c[i], n, steps[a - 1]);
        }
      }
      hide Act;
    }
  }

  lemma CrashAppliesNothing(cfg: RaftConfig, n: Node, i: NodeId)
    ensures var n' := Act(cfg, n, Crash(i)).node; n'.applied == [] && n'.sm.lastApplied == n'.boot
  {
  }

  // ----- commits

  /** A leader keeps track of exactly its peers. */
  ghost predicate Tracks(cfg: RaftConfig, n: Node) {
    n.sm.role == Leader ==> n.sm.progress.Keys == set p | p in cfg.peers
  }

  lemma WinTracks(cfg: RaftConfig, n: Node)
    ensures Tracks(cfg, WinElection(cfg, n))
  {
  }

  lemma ActTracks(cfg: RaftConfig, n: Node, step: Step)
    requires Tracks(cfg, n)
    ensures Tracks(cfg, Act(cfg, n, step).node)
  {
    match step
    case Timeout(_) =>
      WinTracks(cfg, Save(n.(sm := n.sm.BecomeCandidate(cfg.id))));
      hide WinElection, ReplicateAll, VoteRequests, TermOf;
    case Beat(_) =>
      MaybeAdvanceFacts(cfg, n);
      hide MaybeAdvanceCommit, ReplicateAll;
    case Propose(_, p) =>
      ProposalIsTaken(cfg, n, p);
      hide OnProposal;
    case Crash(_) =>
    case Deliver(VoteReq(_, _)) => hide UpToDate;
    case Deliver(VoteRep(src, _, _)) =>
      WinTracks(cfg, n.(sm := n.sm.(votesReceived := n.sm.votesReceived + {src})));
      hide WinElection, ReplicateAll;
    case Deliver(AppendReq(_, _)) => hide Splice, FirstIndexOfTerm, TermOf, LastIndexOf;
    case Deliver(AppendRep(src, _, reqLast, resp)) =>
      var n1 := if src in n.sm.progress then
                  n.(sm := n.sm.(progress := n.sm.progress[src := UpdateProgress(n.sm.progress[src], reqLast, resp)]))
                else n;
      MaybeAdvanceFacts(cfg, n1);
      hide MaybeAdvanceCommit, UpdateProgress;
  }

  lemma {:induction false} LeadersTrackPeers(c: Topology, ss: seq<State>, steps: seq<Step>, a: nat, i: NodeId)
    requires IsRun(c, ss, steps) && a < |ss| && i in c
    ensures i in ss[a].nodes && Tracks(c[i], ss[a].nodes[i])
  {
    if a == 0 {
      assert ss[0] == Init(c);
    } else {
      LeadersTrackPeers(c, ss, steps, a - 1, i);
      Before(c, ss, steps, a, i);
      hide IsRun, Act, Tracks;
      if Actor(steps[a - 1]) == i {
        ActTracks(c[i], ss[a - 1].nodes[i], steps[a - 1]);
      }
    }
  }

  /** The step makes a leader count what its peers hold. */
  predicate Counts(step: Step, i: NodeId, term: Term) {
    step == Beat(i) || (step.Deliver? && step.message.AppendRep? && step.message.dst == i
                        && step.message.appendResp.term <= term)
  }

  lemma CountingCommits(cfg: RaftConfig, n: Node, step: Step, ids: seq<NodeId>)
    requires OnDisk(n) && Shaped(n.log, n.sm.currentTerm) && n.sm.role == Leader && Counts(step, cfg.id, n.sm.currentTerm)
    requires Ranking(Act(cfg, n, step).node.sm.progress, ids) && 1 <= cfg.Quorum() <= |ids| + 1
    ensures var n' := Act(cfg, n, step).node;
            var m := QuorumMatch(n'.sm.progress, ids, cfg.Quorum(), |n.log|);
            && n'.sm.role == Leader && n'.sm.currentTerm == n.sm.currentTerm && n'.log == n.log && OnDisk(n')
            && n'.sm.commitIndex
               == (if m > n.sm.commitIndex && TermOf(n.log, m) == n.sm.currentTerm then m else n.sm.commitIndex)
            && forall p | p in n.pending ::
                 if p.index <= n'.sm.commitIndex
                 then Granted(p.tx, p.index, p.term, p.data, n.sm.currentTerm) in n'.replies && p !in n'.pending
                 else p in n'.pending
  {
    hide Ranking, QuorumMatch, Shaped, TermOf;
    match step
    case Beat(_) =>
      MaybeAdvanceFacts(cfg, n);
      hide MaybeAdvanceCommit, ReplicateAll;
      ApplyFacts(MaybeAdvanceCommit(cfg, n));
      hide ApplyCommitted;
      LeaderCommitsWhatIsDue(cfg, n, ids);
    case Deliver(AppendRep(src, _, reqLast, resp)) =>
      var n1 := if src in n.sm.progress then
                  n.(sm := n.sm.(progress := n.sm.progress[src := UpdateProgress(n.sm.progress[src], reqLast, resp)]))
                else n;
      MaybeAdvanceFacts(cfg, n1);
      hide MaybeAdvanceCommit, UpdateProgress;
      LeaderCommitsWhatIsDue(cfg, n1, ids);
  }

  /** In every run, whenever a leader counts, it has then committed exactly up to the last index that a quorum holds as
      far as it knows, if that is new and of its term, and answered exactly the clients up to there. */
  lemma LeaderCommitsWhenDue(c: Topology, ss: seq<State>, steps: seq<Step>, a: nat, i: NodeId, ids: seq<NodeId>)
    requires IsRun(c, ss, steps) && a < |steps| && a + 1 < |ss| && i in c && i in ss[a].nodes && i in ss[a + 1].nodes
    requires ss[a].nodes[i].sm.role == Leader && Counts(steps[a], i, ss[a].nodes[i].sm.currentTerm)
    requires Ranking(ss[a + 1].nodes[i].sm.progress, ids)
    ensures 1 <= c[i].Quorum() <= |ids| + 1
    ensures var n, n' := ss[a].nodes[i], ss[a + 1].nodes[i];
            var m := QuorumMatch(n'.sm.progress, ids, c[i].Quorum(), |n.log|);
            && n'.sm.role == Leader && n'.log == n.log && OnDisk(n')
            && n'.sm.commitIndex
               == (if m > n.sm.commitIndex && TermOf(n.log, m) == n.sm.currentTerm then m else n.sm.commitIndex)
            && forall p | p in n.pending ::
                 if p.index <= n'.sm.commitIndex
                 then Granted(p.tx, p.index, p.term, p.data, n.sm.currentTerm) in n'.replies && p !in n'.pending
                 else p in n'.pending
  {
    StepFacts(c, ss, steps, a);
    RunOnDisk(c, ss, steps, a, i);
    LeadersTrackPeers(c, ss, steps, a + 1, i);
    CountingKeepsLeader(c[i], ss[a].nodes[i], steps[a]);
    hide IsRun, Act, Ranking, QuorumMatch, Shaped, ValidConfig, TermOf;
    QuorumIsInRange(c[i], ss[a + 1].nodes[i].sm.progress, ids);
    CountingCommits(c[i], ss[a].nodes[i], steps[a], ids);
  }

  lemma CountingKeepsLeader(cfg: RaftConfig, n: Node, step: Step)
    requires n.sm.role == Leader && Counts(step, cfg.id, n.sm.currentTerm)
    ensures Act(cfg, n, step).node.sm.role == Leader
  {
    match step
    case Beat(_) =>
      MaybeAdvanceFacts(cfg, n);
      hide MaybeAdvanceCommit, ReplicateAll;
    case Deliver(AppendRep(src, _, reqLast, resp)) =>
      var n1 := if src in n.sm.progress then
                  n.(sm := n.sm.(progress := n.sm.progress[src := UpdateProgress(n.sm.progress[src], reqLast, resp)]))
                else n;
      MaybeAdvanceFacts(cfg, n1);
      hide MaybeAdvanceCommit, UpdateProgress;
  }

  // ----- where answers come from

  /** What a step adds to a node's lists. */
  ghost predicate Adds(n: Node, step: Step, n': Node) {
    && (forall p | p in n'.pending && p !in n.pending ::
          && step.Propose? && step.proposal == Proposal(p.data, Some(p.tx)) && n.sm.role == Leader
          && p.term == n.sm.currentTerm && p.index == |n.log| + 1)
    && (forall r | r in n'.replies && r !in n.replies ::
          if r.Granted? then Pending(r.index, r.tx, r.proposedIn, r.data) in n.pending
          else step.Propose? && step.proposal.tx == Some(r.tx) && n.sm.role != Leader && r.leaderId == n.sm.leaderId)
  }

  lemma AdvanceAdds(cfg: RaftConfig, n: Node, step: Step)
    ensures Adds(n, step, MaybeAdvanceCommit(cfg, n))
  {
    if n.sm.role == Leader {
      var n1 := AdvanceTo(n, CommitScan(n.log, n.sm.currentTerm, n.sm.progress, cfg.Quorum(), n.sm.commitIndex, |n.log|));
      hide CommitScan;
      PendingSplitSources(n.pending, n1.sm.commitIndex, n.sm.currentTerm);
    }
  }

  lemma ActAdds(cfg: RaftConfig, n: Node, step: Step)
    ensures Adds(n, step, Act(cfg, n, step).node)
  {
    hide StartElection, OnRequestVote, OnAppendEntries, HandleVoteResponse, Splice;
    match step
    case Beat(_) =>
      AdvanceAdds(cfg, n, step);
      hide MaybeAdvanceCommit, ReplicateAll;
    case Deliver(AppendRep(src, _, reqLast, resp)) =>
      var n1 := if src in n.sm.progress then
                  n.(sm := n.sm.(progress := n.sm.progress[src := UpdateProgress(n.sm.progress[src], reqLast, resp)]))
                else n;
      AdvanceAdds(cfg, n1, step);
      hide MaybeAdvanceCommit, UpdateProgress;
    case Propose(_, p) =>
      ProposalIsTaken(cfg, n, p);
      hide OnProposal;
    case Crash(_) =>
    case _ =>
      OthersKeepClients(cfg, n, step);
      hide Act;
  }

  /** Step `k` proposed `data` through channel `tx` to node `i`, which led `term` and put it at `index`. */
  ghost predicate ProposedBy(ss: seq<State>, steps: seq<Step>, k: nat, i: NodeId, tx: nat, index: LogIndex, term: Term,
                             data: Data)
  {
    && k < |steps| && k < |ss| && steps[k] == Propose(i, Proposal(data, Some(tx))) && i in ss[k].nodes
    && ss[k].nodes[i].sm.role == Leader && ss[k].nodes[i].sm.currentTerm == term
    && index == |ss[k].nodes[i].log| + 1
  }

  lemma {:induction false} WaitingHasSource(c: Topology, ss: seq<State>, steps: seq<Step>, a: nat, i: NodeId, p: Pending)
    returns (k: nat)
    requires IsRun(c, ss, steps) && a < |ss| && i in c && i in ss[a].nodes && p in ss[a].nodes[i].pending
    ensures k < a && ProposedBy(ss, steps, k, i, p.tx, p.index, p.term, p.data)
  {
    hide IsRun, Act;
    if a == 0 {
      StartsFresh(c, ss, steps);
      assert false;
    }
    Before(c, ss, steps, a, i);
    if p in ss[a - 1].nodes[i].pending {
      k := WaitingHasSource(c, ss, steps, a - 1, i, p);
    } else {
      ActAdds(c[i], ss[a - 1].nodes[i], steps[a - 1]);
      k := a - 1;
    }
  }

  /** Every `Ok` was asked for: it goes to the channel of an earlier proposal, and the index, term and data it stands for
      are those at which the leader took that proposal. */
  lemma {:induction false} AnswerHasSource(c: Topology, ss: seq<State>, steps: seq<Step>, a: nat, i: NodeId, r: Reply)
    returns (k: nat)
    requires IsRun(c, ss, steps) && a < |ss| && i in c && i in ss[a].nodes
    requires r in ss[a].nodes[i].replies && r.Granted?
    ensures k < a && ProposedBy(ss, steps, k, i, r.tx, r.index, r.proposedIn, r.data)
  {
    hide IsRun, Act;
    if a == 0 {
      StartsFresh(c, ss, steps);
      assert false;
    }
    Before(c, ss, steps, a, i);
    if r in ss[a - 1].nodes[i].replies {
      k := AnswerHasSource(c, ss, steps, a - 1, i, r);
    } else {
      ActAdds(c[i], ss[a - 1].nodes[i], steps[a - 1]);
      k := WaitingHasSource(c, ss, steps, a - 1, i, Pending(r.index, r.tx, r.proposedIn, r.data));
    }
  }

  /** Every refusal was asked for, too, and names the leader the node then knew of. */
  lemma {:induction false} RefusalHasSource(c: Topology, ss: seq<State>, steps: seq<Step>, a: nat, i: NodeId, r: Reply)
    returns (k: nat)
    requires IsRun(c, ss, steps) && a < |ss| && i in c && i in ss[a].nodes
    requires r in ss[a].nodes[i].replies && r.NotLeader?
    ensures k < a && k < |steps| && i in ss[k].nodes && ss[k].nodes[i].sm.role != Leader
    ensures steps[k].Propose? && steps[k].node == i && steps[k].proposal.tx == Some(r.tx)
    ensures r.leaderId == ss[k].nodes[i].sm.leaderId
  {
    hide IsRun, Act;
    if a == 0 {
      StartsFresh(c, ss, steps);
      assert false;
    }
    Before(c, ss, steps, a, i);
    if r in ss[a - 1].nodes[i].replies {
      k := RefusalHasSource(c, ss, steps, a - 1, i, r);
    } else {
      ActAdds(c[i], ss[a - 1].nodes[i], steps[a - 1]);
      k := a - 1;
    }
  }

  /** What an `Ok` says about the data that was proposed: whoever commits the index it names holds that very data there,
      as the entry of that proposal, if and only if the answering node's entry is of the term in which it took the
      proposal. */
  lemma OkIsForProposedData(c: Topology, ss: seq<State>, steps: seq<Step>, a: nat, b: nat, i: NodeId, j: NodeId, r: Reply)
    returns (k: nat)
    requires IsRun(c, ss, steps) && RunMeetsH1(ss, steps) && RunMeetsH2(ss, steps)
    requires a <= b < |ss| && i in c && j in c && i in ss[a].nodes && j in ss[b].nodes
    requires r in ss[a].nodes[i].replies && r.Granted? && r.index <= ss[b].nodes[j].sm.commitIndex
    ensures k < a && k < |steps| && i in ss[k].nodes && steps[k].Propose? && steps[k].proposal.tx == Some(r.tx)
    ensures 1 <= r.index <= |ss[a].nodes[i].log| && r.index <= |ss[b].nodes[j].log|
    ensures var taken := LogEntry(ss[k].nodes[i].sm.currentTerm, r.index, steps[k].proposal.data, Normal);
            ss[b].nodes[j].log[r.index - 1] == taken <==> ss[a].nodes[i].log[r.index - 1].term == taken.term
  {
    hide IsRun, RunMeetsH1, RunMeetsH2;
    k := AnswerHasSource(c, ss, steps, a, i, r);
    OkIsOwnIff(c, ss, steps, a, b, i, j, r);
  }

  // ----- who leads

  lemma ReplicationIsFromLeader(cfg: RaftConfig, n: Node)
    ensures forall m | m in ReplicateAll(cfg, n) ::
              m.AppendReq? && n.sm.role == Leader
              && m.appendReq.term == n.sm.currentTerm && m.appendReq.leaderId == cfg.id
  {
    if n.sm.role == Leader {
      OffersInTurn(cfg, n, |cfg.peers|);
    }
    hide TakeCapped, TermOf;
  }

  ghost predicate FromLeader(cfg: RaftConfig, e: Effect) {
    forall m | m in e.sent && m.AppendReq? ::
      e.node.sm.role == Leader && m.appendReq.term == e.node.sm.currentTerm && m.appendReq.leaderId == cfg.id
  }

  lemma ActSendsAsLeader(cfg: RaftConfig, n: Node, step: Step)
    ensures FromLeader(cfg, Act(cfg, n, step))
  {
    var e := Act(cfg, n, step);
    ReplicationIsFromLeader(cfg, e.node);
    match step
    case Beat(_) =>
      ReplicationIsFromLeader(cfg, n);
      MaybeAdvanceFacts(cfg, n);
      hide MaybeAdvanceCommit, ReplicateAll;
    case Deliver(VoteReq(_, _)) => hide UpToDate;
    case Deliver(AppendReq(_, _)) => hide OnAppendEntries;
    case _ => hide ReplicateAll, TermOf, HandleAppendResponse;
  }

  /** Every append request in flight was sent by a node that led its term. */
  lemma {:induction false} RequestHasSender(c: Topology, ss: seq<State>, steps: seq<Step>, a: nat, m: Message)
    returns (b: nat)
    requires IsRun(c, ss, steps) && a < |ss| && m in ss[a].net && m.AppendReq?
    ensures b <= a && m.appendReq.leaderId in ss[b].nodes
    ensures var l := ss[b].nodes[m.appendReq.leaderId]; l.sm.role == Leader && l.sm.currentTerm == m.appendReq.term
  {
    hide IsRun, Act;
    if a == 0 {
      StartsFresh(c, ss, steps);
      assert false;
    }
    RunLength(c, ss, steps);
    StepFacts(c, ss, steps, a - 1);
    if m in ss[a - 1].net {
      b := RequestHasSender(c, ss, steps, a - 1, m);
    } else {
      ActSendsAsLeader(c[Actor(steps[a - 1])], ss[a - 1].nodes[Actor(steps[a - 1])], steps[a - 1]);
      b := a;
    }
  }

  /** Where a node's idea of the leader can come from. */
  ghost predicate Hints(cfg: RaftConfig, n: Node, step: Step, n': Node) {
    n'.sm.leaderId.Some? ==>
      || (n.sm.leaderId == n'.sm.leaderId && n.sm.currentTerm == n'.sm.currentTerm)
      || (step.Deliver? && step.message.AppendReq? && step.message.appendReq.term == n'.sm.currentTerm
          && step.message.appendReq.leaderId == n'.sm.leaderId.value)
      || (n'.sm.role == Leader && n'.sm.leaderId == Some(cfg.id))
  }

  lemma ActHints(cfg: RaftConfig, n: Node, step: Step)
    ensures Hints(cfg, n, step, Act(cfg, n, step).node)
  {
    match step
    case Timeout(_) => hide ReplicateAll, VoteRequests, TermOf;
    case Beat(_) =>
      MaybeAdvanceFacts(cfg, n);
      hide MaybeAdvanceCommit, ReplicateAll;
    case Propose(_, p) =>
      ProposalIsTaken(cfg, n, p);
      hide OnProposal;
    case Crash(_) =>
    case Deliver(VoteReq(_, _)) => hide UpToDate;
    case Deliver(VoteRep(_, _, _)) => hide ReplicateAll;
    case Deliver(AppendReq(_, _)) => hide Splice, FirstIndexOfTerm, TermOf, LastIndexOf;
    case Deliver(AppendRep(src, _, reqLast, resp)) =>
      var n1 := if src in n.sm.progress then
                  n.(sm := n.sm.(progress := n.sm.progress[src := UpdateProgress(n.sm.progress[src], reqLast, resp)]))
                else n;
      MaybeAdvanceFacts(cfg, n1);
      hide MaybeAdvanceCommit, UpdateProgress;
  }

  /** The leader a node knows of did lead the node's current term. */
  lemma {:induction false} HintedLeaderLed(c: Topology, ss: seq<State>, steps: seq<Step>, a: nat, i: NodeId) returns (b: nat)
    requires IsRun(c, ss, steps) && a < |ss| && i in c && i in ss[a].nodes && ss[a].nodes[i].sm.leaderId.Some?
    ensures b <= a && ss[a].nodes[i].sm.leaderId.value in ss[b].nodes
    ensures var l := ss[b].nodes[ss[a].nodes[i].sm.leaderId.value];
            l.sm.role == Leader && l.sm.currentTerm == ss[a].nodes[i].sm.currentTerm
  {
    hide IsRun, Act;
    if a == 0 {
      StartsFresh(c, ss, steps);
      assert false;
    }
    Before(c, ss, steps, a, i);
    var n, n' := ss[a - 1].nodes[i], ss[a].nodes[i];
    if Actor(steps[a - 1]) == i {
      ActHints(c[i], n, steps[a - 1]);
    }
    if n.sm.leaderId == n'.sm.leaderId && n.sm.currentTerm == n'.sm.currentTerm {
      b := HintedLeaderLed(c, ss, steps, a - 1, i);
    } else if n'.sm.role == Leader && n'.sm.leaderId == Some(i) {
      b := a;
    } else {
      b := RequestHasSender(c, ss, steps, a - 1, steps[a - 1].message);
    }
  }

  /** So a client that is refused with a hint is sent to a node that led the term the refusing node was in. */
  lemma RefusalNamesLeader(c: Topology, ss: seq<State>, steps: seq<Step>, a: nat, i: NodeId, r: Reply) returns (k: nat, b: nat)
    requires IsRun(c, ss, steps) && a < |ss| && i in c && i in ss[a].nodes
    requires r in ss[a].nodes[i].replies && r.NotLeader? && r.leaderId.Some?
    ensures k < a && k < |steps| && steps[k].Propose? && steps[k].node == i && steps[k].proposal.tx == Some(r.tx)
    ensures b <= k && i in ss[k].nodes && r.leaderId.value in ss[b].nodes
    ensures var l := ss[b].nodes[r.leaderId.value];
            l.sm.role == Leader && l.sm.currentTerm == ss[k].nodes[i].sm.currentTerm
  {
    hide IsRun;
    k := RefusalHasSource(c, ss, steps, a, i, r);
    b := HintedLeaderLed(c, ss, steps, k, i);
  }
}
