/** The guarantees of the protocol over whole runs, with crashes, loss, duplication and reordering. */
module Theorems {
  import opened Core
  import opened NodeSpec
  import opened Cluster
  import opened Invariants
  import opened Handlers
  import opened Safety
  import opened SafeSteps
  import opened SafetyProof

  // ----- induction over runs

  lemma {:induction false} RunInv1(c: Topology, ss: seq<State>, steps: seq<Step>, a: nat)
    requires IsRun(c, ss, steps) && RunMeetsH1(ss, steps) && a < |ss|
    ensures Inv1(c, ss[a])
  {
    hide Inv1, MeetsH1, Next;
    if a == 0 {
      InitSatisfiesInv1(c);
    } else {
      RunInv1(c, ss, steps, a - 1);
      NextPreservesInv1(c, ss[a - 1], steps[a - 1]);
    }
  }

  lemma {:induction false} RunInv2(c: Topology, ss: seq<State>, steps: seq<Step>, a: nat)
    requires IsRun(c, ss, steps) && RunMeetsH1(ss, steps) && RunMeetsH2(ss, steps) && a < |ss|
    ensures Inv1(c, ss[a]) && Inv2(c, ss[a])
  {
    hide Inv1, Inv2, MeetsH1, MeetsH2, Next;
    RunInv1(c, ss, steps, a);
    if a == 0 {
      InitSatisfiesInv2(c);
    } else {
      RunInv2(c, ss, steps, a - 1);
      NextPreservesInv2(c, ss[a - 1], steps[a - 1]);
    }
  }

  lemma LaterIsTransitive(h: History, h1: History, h2: History)
    requires Later(h, h1) && Later(h1, h2)
    ensures Later(h, h2)
  {
    forall t | t in h.leaders
      ensures t in h2.leaders && ReignGrows(t, h.leaders[t], h2.leaders[t])
    {
      assert ReignGrows(t, h.leaders[t], h1.leaders[t]) && ReignGrows(t, h1.leaders[t], h2.leaders[t]);
    }
  }

  lemma StepIsLater(c: Topology, s: State, step: Step)
    requires WellFormed(c) && Inv1(c, s) && Enabled(c, s, step) && MeetsH1(s, step)
    ensures Later(s.history, Next(c, s, step).history)
  {
    hide Inv1, MeetsH1, Extends, Later, Observe, Act, WellFormed;
    NextPreservesInv1(c, s, step);
    ExtendsIsLater(s.history, Next(c, s, step).history, Actor(step), Next(c, s, step).nodes[Actor(step)].sm.currentTerm);
  }

  lemma {:induction false} RunLater(c: Topology, ss: seq<State>, steps: seq<Step>, a: nat, b: nat)
    requires IsRun(c, ss, steps) && RunMeetsH1(ss, steps) && a <= b < |ss|
    ensures Later(ss[a].history, ss[b].history)
  {
    hide Inv1, MeetsH1, Next, Later, WellFormed, Init, Enabled;
    if a == b {
      LaterIsReflexive(ss[a].history);
    } else {
      RunLater(c, ss, steps, a, b - 1);
      RunInv1(c, ss, steps, b - 1);
      StepIsLater(c, ss[b - 1], steps[b - 1]);
      LaterIsTransitive(ss[a].history, ss[b - 1].history, ss[b].history);
    }
  }

  lemma LaterIsReflexive(h: History)
    ensures Later(h, h)
  {
  }

  /** Facts about one node in a state satisfying the H1 invariant. */
  lemma NodeFacts(c: Topology, s: State, i: NodeId)
    requires Inv1(c, s) && i in c
    ensures i in s.nodes && HistoryOK(c, s.history) && NodeOK(c, s.history, i, s.nodes[i])
  {
  }

  lemma LeaderOnRecord(c: Topology, s: State, i: NodeId)
    requires Inv1(c, s) && i in c && s.nodes[i].sm.role == Leader
    ensures var t := s.nodes[i].sm.currentTerm;
            t in s.history.leaders && s.history.leaders[t].leader == i && s.history.leaders[t].log == s.nodes[i].log
  {
    assert NodeOK(c, s.history, i, s.nodes[i]);
  }

  // ----- under H1 alone

  /** Election safety: over a whole run at most one node ever leads a term. */
  lemma ElectionSafety(c: Topology, ss: seq<State>, steps: seq<Step>, a: nat, b: nat, i: NodeId, j: NodeId)
    requires IsRun(c, ss, steps) && RunMeetsH1(ss, steps) && a < |ss| && b < |ss| && i in c && j in c
    requires i in ss[a].nodes && ss[a].nodes[i].sm.role == Leader
    requires j in ss[b].nodes && ss[b].nodes[j].sm.role == Leader
    requires ss[a].nodes[i].sm.currentTerm == ss[b].nodes[j].sm.currentTerm
    ensures i == j
  {
    if a <= b {
      SoleLeader(c, ss, steps, a, b, i, j);
    } else {
      SoleLeader(c, ss, steps, b, a, j, i);
    }
  }

  lemma SoleLeader(c: Topology, ss: seq<State>, steps: seq<Step>, a: nat, b: nat, i: NodeId, j: NodeId)
    requires IsRun(c, ss, steps) && RunMeetsH1(ss, steps) && a <= b < |ss| && i in c && j in c
    requires i in ss[a].nodes && ss[a].nodes[i].sm.role == Leader
    requires j in ss[b].nodes && ss[b].nodes[j].sm.role == Leader
    requires ss[a].nodes[i].sm.currentTerm == ss[b].nodes[j].sm.currentTerm
    ensures i == j && GrowsBy(ss[a].nodes[i].sm.currentTerm, ss[a].nodes[i].log, ss[b].nodes[j].log)
  {
    hide IsRun, RunMeetsH1, Inv1;
    RunInv1(c, ss, steps, a);
    RunInv1(c, ss, steps, b);
    RunLater(c, ss, steps, a, b);
    LeaderOnRecord(c, ss[a], i);
    LeaderOnRecord(c, ss[b], j);
    var t := ss[a].nodes[i].sm.currentTerm;
    assert ReignGrows(t, ss[a].history.leaders[t], ss[b].history.leaders[t]);
  }

  /** While a node leads a term its log only grows, by entries of that term. */
  lemma LeaderAppendOnly(c: Topology, ss: seq<State>, steps: seq<Step>, a: nat, b: nat, i: NodeId)
    requires IsRun(c, ss, steps) && RunMeetsH1(ss, steps) && a <= b < |ss| && i in c
    requires i in ss[a].nodes && ss[a].nodes[i].sm.role == Leader
    requires i in ss[b].nodes && ss[b].nodes[i].sm.role == Leader
    requires ss[a].nodes[i].sm.currentTerm == ss[b].nodes[i].sm.currentTerm
    ensures GrowsBy(ss[a].nodes[i].sm.currentTerm, ss[a].nodes[i].log, ss[b].nodes[i].log)
  {
    SoleLeader(c, ss, steps, a, b, i, i);
  }

  lemma SourcedLogsMatch(h: History, a: seq<LogEntry>, b: seq<LogEntry>, n: nat)
    requires Sourced(h, a) && Sourced(h, b)
    requires 1 <= n <= |a| && n <= |b| && a[n - 1].term == b[n - 1].term
    ensures Agree(a, b, n)
  {
    assert FromReign(h, a, n - 1) && FromReign(h, b, n - 1);
  }

  /** Log matching: two logs, at any two moments, with the same term at an index are identical up to it. */
  lemma LogMatching(c: Topology, ss: seq<State>, steps: seq<Step>, a: nat, b: nat, i: NodeId, j: NodeId, n: nat)
    requires IsRun(c, ss, steps) && RunMeetsH1(ss, steps) && a <= b < |ss| && i in c && j in c
    requires i in ss[a].nodes && j in ss[b].nodes
    requires 1 <= n <= |ss[a].nodes[i].log| && n <= |ss[b].nodes[j].log|
    requires ss[a].nodes[i].log[n - 1].term == ss[b].nodes[j].log[n - 1].term
    ensures Agree(ss[a].nodes[i].log, ss[b].nodes[j].log, n)
  {
    hide IsRun, RunMeetsH1, Inv1, HistoryOK, NodeOK, Later;
    RunInv1(c, ss, steps, a);
    RunInv1(c, ss, steps, b);
    RunLater(c, ss, steps, a, b);
    NodeFacts(c, ss[a], i);
    NodeFacts(c, ss[b], j);
    NodeParts(c, ss[a].history, i, ss[a].nodes[i]);
    NodeParts(c, ss[b].history, j, ss[b].nodes[j]);
    SourcedLater(ss[a].history, ss[b].history, ss[a].nodes[i].log);
    SourcedLogsMatch(ss[b].history, ss[a].nodes[i].log, ss[b].nodes[j].log, n);
  }

  /** A leader's progress points into its log. */
  lemma ProgressIsWithinLog(c: Topology, ss: seq<State>, steps: seq<Step>, a: nat, i: NodeId)
    requires IsRun(c, ss, steps) && RunMeetsH1(ss, steps) && a < |ss| && i in c
    ensures i in ss[a].nodes
    ensures var n := ss[a].nodes[i];
            n.sm.role == Leader ==> forall p | p in n.sm.progress ::
              && 1 <= n.sm.progress[p].nextIndex <= |n.log| + 1
              && n.sm.progress[p].matchIndex <= |n.log|
  {
    hide IsRun, RunMeetsH1, HistoryOK, NodeOK, Inv1;
    RunInv1(c, ss, steps, a);
    NodeFacts(c, ss[a], i);
    var n := ss[a].nodes[i];
    NodeParts(c, ss[a].history, i, n);
    forall p | p in n.sm.progress && n.sm.role == Leader
      ensures n.sm.progress[p].matchIndex <= |n.log|
    {
      AckWithinLog(c, ss[a].history, n.sm.currentTerm, p);
    }
  }

  lemma AckWithinLog(c: Topology, h: History, t: Term, p: NodeId)
    requires HistoryOK(c, h) && t in h.leaders
    ensures AckOf(h, t, p) <= |h.leaders[t].log|
  {
  }

  /** Every append request in flight is a segment of the log of the one leader of its term. */
  lemma RequestsAreSegments(c: Topology, ss: seq<State>, steps: seq<Step>, a: nat, b: nat, m: Message, i: NodeId)
    requires IsRun(c, ss, steps) && RunMeetsH1(ss, steps) && a <= b < |ss| && m in ss[a].net && m.AppendReq?
    requires i in c && i in ss[b].nodes && ss[b].nodes[i].sm.role == Leader
    requires ss[b].nodes[i].sm.currentTerm == m.appendReq.term
    ensures var req, log := m.appendReq, ss[b].nodes[i].log;
            && req.leaderId == i
            && req.LastIndex() <= |log|
            && req.entries == log[req.prevLogIndex..req.LastIndex()]
            && req.prevLogTerm == TermOf(log, req.prevLogIndex)
  {
    hide IsRun, RunMeetsH1, HistoryOK, NodeOK;
    RunInv1(c, ss, steps, a);
    RunInv1(c, ss, steps, b);
    RunLater(c, ss, steps, a, b);
    NodeFacts(c, ss[b], i);
    NodeParts(c, ss[b].history, i, ss[b].nodes[i]);
    LeaderOnRecord(c, ss[b], i);
    hide Inv1, Later, AppendReqOK;
    RequestOnRecord(c, ss[a], m);
    SegmentLater(ss[a].history, ss[b].history, m.dst, m.appendReq);
  }

  lemma SegmentLater(h: History, h': History, dst: NodeId, req: AppendEntriesRequest)
    requires AppendReqOK(h, dst, req) && Later(h, h')
    ensures req.term in h'.leaders && h'.leaders[req.term].leader == req.leaderId
    ensures var log := h'.leaders[req.term].log;
            && req.LastIndex() <= |log|
            && req.entries == log[req.prevLogIndex..req.LastIndex()]
            && req.prevLogTerm == TermOf(log, req.prevLogIndex)
  {
    assert ReignGrows(req.term, h.leaders[req.term], h'.leaders[req.term]);
  }

  lemma RequestOnRecord(c: Topology, s: State, m: Message)
    requires Inv1(c, s) && m in s.net && m.AppendReq?
    ensures AppendReqOK(s.history, m.dst, m.appendReq)
  {
    assert MessageOK(c, s.history, m);
  }

  // ----- terms and votes on disk

  /** What a handler leaves in memory is what a crash brings back. */
  lemma RestartLosesNothing(n: Node)
    requires Persisted(n)
    ensures var r := Restart(n).sm;
            && r.currentTerm == n.sm.currentTerm && r.votedFor == n.sm.votedFor && r.commitIndex == n.sm.commitIndex
            && Restart(n).log == n.log && Persisted(Restart(n))
  {
  }

  // ----- under H1 and H2

  lemma SafeFacts(c: Topology, s: State, i: NodeId)
    requires Inv2(c, s) && i in c
    ensures i in s.nodes && LeadersSafe(s.history) && NodeSafe(c, s.history, i, s.nodes[i])
  {
  }

  /** State machine safety: two nodes, at any two moments, that both committed index `n` hold the same prefix
      up to `n`. */
  lemma StateMachineSafety(c: Topology, ss: seq<State>, steps: seq<Step>, a: nat, b: nat, i: NodeId, j: NodeId, n: nat)
    requires IsRun(c, ss, steps) && RunMeetsH1(ss, steps) && RunMeetsH2(ss, steps)
    requires a <= b < |ss| && i in c && j in c && i in ss[a].nodes && j in ss[b].nodes
    requires n <= ss[a].nodes[i].sm.commitIndex && n <= ss[b].nodes[j].sm.commitIndex
    ensures Agree(ss[a].nodes[i].log, ss[b].nodes[j].log, n)
  {
    hide IsRun, RunMeetsH1, RunMeetsH2, Inv1, Inv2, HistoryOK, NodeOK, Later, LeadersSafe, Committed, KeepsConfirmed;
    RunInv2(c, ss, steps, a);
    RunInv2(c, ss, steps, b);
    RunLater(c, ss, steps, a, b);
    NodeFacts(c, ss[b], j);
    SafeFacts(c, ss[a], i);
    SafeFacts(c, ss[b], j);
    var x, y := ss[a].nodes[i], ss[b].nodes[j];
    CommittedInLaterRecord(c, ss[a].history, ss[b].history, x.log, x.sm.commitIndex, x.sm.currentTerm);
    CommittedPrefixesAgree(c, ss[b].history, x.log, x.sm.commitIndex, x.sm.currentTerm,
      y.log, y.sm.commitIndex, y.sm.currentTerm);
  }

  /** Leader completeness: what a node has committed while in some term is in the log of every leader of a later
      term, whenever it led. */
  lemma CommittedInEveryLaterLeader(c: Topology, ss: seq<State>, steps: seq<Step>, a: nat, b: nat, i: NodeId, j: NodeId)
    requires IsRun(c, ss, steps) && RunMeetsH1(ss, steps) && RunMeetsH2(ss, steps)
    requires a < |ss| && b < |ss| && i in c && j in c && i in ss[a].nodes && j in ss[b].nodes
    requires ss[b].nodes[j].sm.role == Leader
    requires ss[b].nodes[j].sm.currentTerm > ss[a].nodes[i].sm.currentTerm
    ensures Agree(ss[a].nodes[i].log, ss[b].nodes[j].log, ss[a].nodes[i].sm.commitIndex)
  {
    hide IsRun, RunMeetsH1, RunMeetsH2, Inv1, Inv2, HistoryOK, NodeOK, Later, LeadersSafe, Committed, KeepsConfirmed;
    var e := if a <= b then b else a;
    RunInv2(c, ss, steps, a);
    RunInv2(c, ss, steps, b);
    RunInv2(c, ss, steps, e);
    RunLater(c, ss, steps, a, e);
    RunLater(c, ss, steps, b, e);
    NodeFacts(c, ss[a], i);
    NodeFacts(c, ss[e], i);
    SafeFacts(c, ss[a], i);
    SafeFacts(c, ss[e], i);
    LeaderOnRecord(c, ss[b], j);
    NodeParts(c, ss[a].history, i, ss[a].nodes[i]);
    var x, t := ss[a].nodes[i], ss[b].nodes[j].sm.currentTerm;
    CommittedInLaterRecord(c, ss[a].history, ss[e].history, x.log, x.sm.commitIndex, x.sm.currentTerm);
    CommittedLater(c, ss[e].history, x.log, x.sm.commitIndex, x.sm.currentTerm, t);
    LeaderLater(ss[b].history, ss[e].history, t);
    CommittedAgreesWithLeader(c, ss[e].history, x.log, x.sm.commitIndex, t);
    OlderEntriesCameFirst(x.log, ss[b].history.leaders[t].log, ss[e].history.leaders[t].log, x.sm.commitIndex,
      x.sm.currentTerm, t);
  }

  lemma LeaderLater(h: History, h': History, t: Term)
    requires Later(h, h') && t in h.leaders
    ensures t in h'.leaders && GrowsBy(t, h.leaders[t].log, h'.leaders[t].log)
  {
    assert ReignGrows(t, h.leaders[t], h'.leaders[t]);
  }

  /** Entries older than the leader's term were in its log from the start. */
  lemma OlderEntriesCameFirst(log: seq<LogEntry>, early: seq<LogEntry>, late: seq<LogEntry>, n: nat, t0: Term, t: Term)
    requires GrowsBy(t, early, late) && Agree(log, late, n) && Shaped(log, t0) && t0 < t
    ensures Agree(log, early, n)
  {
    if n > 0 {
      assert late[n - 1] == log[n - 1] && log[n - 1].term <= t0;
    }
  }

  /** Whatever a leader counts as replicated on a follower is there, then and as long as the follower stays in the
      leader's term. */
  lemma MatchIndexIsTrue(c: Topology, ss: seq<State>, steps: seq<Step>, a: nat, b: nat, i: NodeId, p: NodeId)
    requires IsRun(c, ss, steps) && RunMeetsH1(ss, steps) && RunMeetsH2(ss, steps)
    requires a <= b < |ss| && i in c && p in c && i in ss[a].nodes && p in ss[b].nodes
    requires ss[a].nodes[i].sm.role == Leader && p in ss[a].nodes[i].sm.progress
    requires ss[b].nodes[p].sm.currentTerm == ss[a].nodes[i].sm.currentTerm
    ensures Agree(ss[a].nodes[i].log, ss[b].nodes[p].log, ss[a].nodes[i].sm.progress[p].matchIndex)
  {
    hide IsRun, RunMeetsH1, RunMeetsH2, Inv1, Inv2, HistoryOK, NodeOK, LeadersSafe, Committed, KeepsConfirmed, Later;
    var n, t := ss[a].nodes[i], ss[a].nodes[i].sm.currentTerm;
    RunInv1(c, ss, steps, a);
    RunInv2(c, ss, steps, b);
    RunLater(c, ss, steps, a, b);
    NodeFacts(c, ss[a], i);
    NodeFacts(c, ss[b], p);
    SafeFacts(c, ss[b], p);
    LeaderOnRecord(c, ss[a], i);
    LeaderLater(ss[a].history, ss[b].history, t);
    MatchIsAcked(c, ss[a].history, i, n, p);
    AckWithinLog(c, ss[a].history, t, p);
    StillConfirmed(ss[a].history, ss[b].history, p, t, ss[b].nodes[p].log);
  }

  lemma MatchIsAcked(c: Topology, h: History, i: NodeId, n: Node, p: NodeId)
    requires i in c && NodeOK(c, h, i, n) && n.sm.role == Leader && p in n.sm.progress
    ensures n.sm.progress[p].matchIndex <= AckOf(h, n.sm.currentTerm, p)
  {
  }

  lemma StillConfirmed(h: History, h': History, p: NodeId, t: Term, log: seq<LogEntry>)
    requires Later(h, h') && t in h.leaders && t in h'.leaders && Agree(h'.leaders[t].log, log, AckOf(h', t, p))
    requires AckOf(h, t, p) <= |h.leaders[t].log|
    ensures Agree(h.leaders[t].log, log, AckOf(h, t, p))
  {
    assert ReignGrows(t, h.leaders[t], h'.leaders[t]);
    assert AckOf(h, t, p) <= AckOf(h', t, p);
  }

  /** A positive match index was really confirmed: the follower was in the leader's term, with that prefix. */
  lemma MatchIndexWasConfirmed(c: Topology, ss: seq<State>, steps: seq<Step>, a: nat, i: NodeId, p: NodeId) returns (b: nat)
    requires IsRun(c, ss, steps) && RunMeetsH1(ss, steps) && RunMeetsH2(ss, steps)
    requires a < |ss| && i in c && i in ss[a].nodes
    requires ss[a].nodes[i].sm.role == Leader && p in ss[a].nodes[i].sm.progress
    requires ss[a].nodes[i].sm.progress[p].matchIndex > 0
    ensures b <= a && p in ss[b].nodes
    ensures ss[b].nodes[p].sm.currentTerm == ss[a].nodes[i].sm.currentTerm
    ensures Agree(ss[a].nodes[i].log, ss[b].nodes[p].log, ss[a].nodes[i].sm.progress[p].matchIndex)
  {
    hide IsRun, RunMeetsH1, RunMeetsH2, Inv1, Inv2, HistoryOK, NodeOK, LeadersSafe, Committed, KeepsConfirmed, Later;
    var t, m := ss[a].nodes[i].sm.currentTerm, ss[a].nodes[i].sm.progress[p].matchIndex;
    RunInv2(c, ss, steps, a);
    NodeFacts(c, ss[a], i);
    NodeParts(c, ss[a].history, i, ss[a].nodes[i]);
    LeaderOnRecord(c, ss[a], i);
    b := ConfirmationHappened(c, ss, steps, a, t, p, m);
    RunInv2(c, ss, steps, b);
    RunLater(c, ss, steps, b, a);
    NodeFacts(c, ss[b], p);
    SafeFacts(c, ss[b], p);
    AckOnRecord(c, ss[b].history, t, p);
    LeaderLater(ss[b].history, ss[a].history, t);
  }

  lemma AckOnRecord(c: Topology, h: History, t: Term, p: NodeId)
    requires HistoryOK(c, h) && AckOf(h, t, p) > 0
    ensures t in h.leaders
  {
  }

  lemma {:induction false} ConfirmationHappened(c: Topology, ss: seq<State>, steps: seq<Step>, a: nat,
                                                t: Term, p: NodeId, m: nat) returns (b: nat)
    requires IsRun(c, ss, steps) && RunMeetsH1(ss, steps) && a < |ss|
    requires AckOf(ss[a].history, t, p) >= m > 0
    ensures b <= a && p in c && p in ss[b].nodes
    ensures ss[b].nodes[p].sm.currentTerm == t && AckOf(ss[b].history, t, p) >= m
  {
    hide Inv1, MeetsH1, Next, AckOf, WellFormed;
    if a > 0 && AckOf(ss[a - 1].history, t, p) >= m {
      b := ConfirmationHappened(c, ss, steps, a - 1, t, p, m);
    } else if a > 0 {
      RunInv1(c, ss, steps, a - 1);
      OnlyActorConfirms(c, ss[a - 1], steps[a - 1], t, p);
      b := a;
    } else {
      assert AckOf(ss[0].history, t, p) == 0 by {
        NothingConfirmedAtStart(c, t, p);
      }
      assert false;
    }
  }

  lemma NothingConfirmedAtStart(c: Topology, t: Term, p: NodeId)
    ensures AckOf(Init(c).history, t, p) == 0
  {
  }

  /** A confirmation grows only by a step of the node that gives it, in the term it is about. */
  lemma OnlyActorConfirms(c: Topology, s: State, step: Step, t: Term, p: NodeId)
    requires WellFormed(c) && Inv1(c, s) && Enabled(c, s, step) && MeetsH1(s, step)
    requires AckOf(Next(c, s, step).history, t, p) > AckOf(s.history, t, p)
    ensures p == Actor(step) && p in c && p in Next(c, s, step).nodes
    ensures Next(c, s, step).nodes[p].sm.currentTerm == t
  {
    hide Inv1, MeetsH1, WellFormed, Act, Observe, VotesGrow, CampaignsGrow, LeadersGrow;
    NextPreservesInv1(c, s, step);
  }

  // ----- commit and apply

  /** `lastApplied <= commitIndex <= lastIndex`, and what was sent to the application since the node's last start
      is exactly the log from there to `lastApplied`, in order and once each. */
  lemma AppliedIsTheLog(c: Topology, ss: seq<State>, steps: seq<Step>, a: nat, i: NodeId)
    requires IsRun(c, ss, steps) && RunMeetsH1(ss, steps) && RunMeetsH2(ss, steps) && a < |ss| && i in c
    ensures i in ss[a].nodes
    ensures var n := ss[a].nodes[i];
            && n.boot <= n.sm.lastApplied <= n.sm.commitIndex <= |n.log|
            && n.applied == n.log[n.boot..n.sm.lastApplied]
            && ((forall k | 0 <= k < a :: steps[k] != Crash(i)) ==>
                  n.boot == 0 && n.applied == n.log[..n.sm.lastApplied])
  {
    hide Inv1, Inv2, Next, MeetsH1, MeetsH2, Committed, KeepsConfirmed;
    RunInv2(c, ss, steps, a);
    SafeFacts(c, ss[a], i);
    if forall k | 0 <= k < a :: steps[k] != Crash(i) {
      NoCrashNoBoot(c, ss, steps, a, i);
    }
  }

  /** What a crash skips: the next life applies from the commit index on, so the two streams join up if and only if
      everything committed had been applied; otherwise the entries between are never sent. */
  lemma CrashSkipsUnapplied(c: Topology, ss: seq<State>, steps: seq<Step>, a: nat, b: nat, i: NodeId)
    requires IsRun(c, ss, steps) && RunMeetsH1(ss, steps) && RunMeetsH2(ss, steps) && a < b < |ss| && i in c
    requires steps[a] == Crash(i) && forall k | a < k < b :: steps[k] != Crash(i)
    ensures i in ss[a].nodes && i in ss[b].nodes
    ensures var n, n' := ss[a].nodes[i], ss[b].nodes[i];
            && n.boot <= n.sm.lastApplied <= n.sm.commitIndex <= n'.sm.lastApplied <= |n'.log|
            && n.applied == n'.log[n.boot..n.sm.lastApplied]
            && n'.applied == n'.log[n.sm.commitIndex..n'.sm.lastApplied]
            && (n.applied + n'.applied == n'.log[n.boot..n'.sm.lastApplied] <==> n.sm.lastApplied == n.sm.commitIndex)
  {
    hide IsRun, RunMeetsH1, RunMeetsH2, Agree, ApplySafe;
    RunApplySafe(c, ss, steps, a, i);
    RunApplySafe(c, ss, steps, b, i);
    NextLifeBootsAtCommit(c, ss, steps, a, b, i);
    CommitNeverFalls(c, ss, steps, a, b, i);
    StreamsJoin(ss[a].nodes[i], ss[b].nodes[i]);
  }

  lemma RunApplySafe(c: Topology, ss: seq<State>, steps: seq<Step>, a: nat, i: NodeId)
    requires IsRun(c, ss, steps) && RunMeetsH1(ss, steps) && RunMeetsH2(ss, steps) && a < |ss| && i in c
    ensures i in ss[a].nodes && ApplySafe(ss[a].nodes[i])
  {
    hide IsRun, RunMeetsH1, RunMeetsH2, Inv1, Inv2;
    RunInv2(c, ss, steps, a);
    SafeFacts(c, ss[a], i);
  }

  lemma NextLifeBootsAtCommit(c: Topology, ss: seq<State>, steps: seq<Step>, a: nat, b: nat, i: NodeId)
    requires IsRun(c, ss, steps) && RunMeetsH1(ss, steps) && a < b < |ss| && i in c
    requires steps[a] == Crash(i) && forall k | a < k < b :: steps[k] != Crash(i)
    ensures i in ss[a].nodes && i in ss[b].nodes && ss[b].nodes[i].boot == ss[a].nodes[i].sm.commitIndex
  {
    hide Next, RunMeetsH1, Inv1, HistoryOK, NodeOK;
    RunInv1(c, ss, steps, a);
    NodeFacts(c, ss[a], i);
    NodeParts(c, ss[a].history, i, ss[a].nodes[i]);
    CrashBootsAtCommit(c, ss[a], i);
    BootStays(c, ss, steps, a + 1, b, i);
  }

  lemma StreamsJoin(n: Node, n': Node)
    requires ApplySafe(n) && ApplySafe(n') && Agree(n.log, n'.log, n.sm.commitIndex) && n'.boot == n.sm.commitIndex
    ensures n.boot <= n.sm.lastApplied <= n.sm.commitIndex <= n'.sm.lastApplied <= |n'.log|
    ensures n'.applied == n'.log[n.sm.commitIndex..n'.sm.lastApplied]
    ensures n.applied == n'.log[n.boot..n.sm.lastApplied]
    ensures n.applied + n'.applied == n'.log[n.boot..n'.sm.lastApplied] <==> n.sm.lastApplied == n.sm.commitIndex
  {
    assert n.log[..n.sm.commitIndex] == n'.log[..n.sm.commitIndex];
    assert n.log[n.boot..n.sm.lastApplied] == n.log[..n.sm.commitIndex][n.boot..n.sm.lastApplied];
    assert n'.log[n.boot..n.sm.lastApplied] == n'.log[..n.sm.commitIndex][n.boot..n.sm.lastApplied];
    assert |n.applied + n'.applied| == n.sm.lastApplied - n.boot + n'.sm.lastApplied - n.sm.commitIndex;
    if n.sm.lastApplied == n.sm.commitIndex {
      assert n'.log[n.boot..n'.sm.lastApplied]
          == n'.log[n.boot..n.sm.lastApplied] + n'.log[n.sm.lastApplied..n'.sm.lastApplied];
    }
  }

  lemma CrashBootsAtCommit(c: Topology, s: State, i: NodeId)
    requires Enabled(c, s, Crash(i)) && Persisted(s.nodes[i])
    ensures i in Next(c, s, Crash(i)).nodes && Next(c, s, Crash(i)).nodes[i].boot == s.nodes[i].sm.commitIndex
  {
    hide Observe;
  }

  lemma {:induction false} BootStays(c: Topology, ss: seq<State>, steps: seq<Step>, a: nat, b: nat, i: NodeId)
    requires IsRun(c, ss, steps) && a <= b < |ss| && i in c && i in ss[a].nodes
    requires forall k | a <= k < b :: steps[k] != Crash(i)
    ensures i in ss[b].nodes && ss[b].nodes[i].boot == ss[a].nodes[i].boot
  {
    hide Next;
    if a < b {
      BootStays(c, ss, steps, a, b - 1, i);
      StepKeepsBoot(c, ss[b - 1], steps[b - 1], i);
    }
  }

  lemma NoCrashNoBoot(c: Topology, ss: seq<State>, steps: seq<Step>, a: nat, i: NodeId)
    requires IsRun(c, ss, steps) && a < |ss| && i in c
    requires forall k | 0 <= k < a :: steps[k] != Crash(i)
    ensures i in ss[a].nodes && ss[a].nodes[i].boot == 0
  {
    assert ss[0] == Init(c);
    BootStays(c, ss, steps, 0, a, i);
  }

  lemma StepKeepsBoot(c: Topology, s: State, step: Step, i: NodeId)
    requires Enabled(c, s, step) && i in s.nodes && step != Crash(i)
    ensures i in Next(c, s, step).nodes && Next(c, s, step).nodes[i].boot == s.nodes[i].boot
  {
    if Actor(step) == i && i in c {
      BootOnlyAtCrash(c[i], s.nodes[i], step);
    }
    hide Act, Observe;
  }

  lemma BootOnlyAtCrash(cfg: RaftConfig, n: Node, step: Step)
    requires !step.Crash?
    ensures Act(cfg, n, step).node.boot == n.boot
  {
    hide Splice, ReplicateAll, CommitScan, FirstIndexOfTerm, UpToDate;
  }

  /** The commit index never falls, and the committed prefix never changes. */
  lemma {:induction false} CommitNeverFalls(c: Topology, ss: seq<State>, steps: seq<Step>, a: nat, b: nat, i: NodeId)
    requires IsRun(c, ss, steps) && RunMeetsH1(ss, steps) && RunMeetsH2(ss, steps) && a <= b < |ss| && i in c
    ensures i in ss[a].nodes && i in ss[b].nodes
    ensures ss[a].nodes[i].sm.commitIndex <= ss[b].nodes[i].sm.commitIndex
    ensures Agree(ss[a].nodes[i].log, ss[b].nodes[i].log, ss[a].nodes[i].sm.commitIndex)
  {
    RunCommitRises(c, ss, steps, a, b, i);
    StateMachineSafety(c, ss, steps, a, b, i, i, ss[a].nodes[i].sm.commitIndex);
  }

  lemma {:induction false} RunCommitRises(c: Topology, ss: seq<State>, steps: seq<Step>, a: nat, b: nat, i: NodeId)
    requires IsRun(c, ss, steps) && RunMeetsH1(ss, steps) && RunMeetsH2(ss, steps) && a <= b < |ss| && i in c
    ensures i in ss[a].nodes && i in ss[b].nodes
    ensures ss[a].nodes[i].sm.commitIndex <= ss[b].nodes[i].sm.commitIndex
  {
    hide Inv1, Inv2, MeetsH1, MeetsH2, Next, HistoryOK, NodeOK;
    RunInv1(c, ss, steps, b);
    NodeFacts(c, ss[b], i);
    if a < b {
      RunCommitRises(c, ss, steps, a, b - 1, i);
      RunInv2(c, ss, steps, b - 1);
      StepKeepsCommit(c, ss[b - 1], steps[b - 1], i);
    }
  }

  lemma StepKeepsCommit(c: Topology, s: State, step: Step, i: NodeId)
    requires WellFormed(c) && Inv1(c, s) && Inv2(c, s) && Enabled(c, s, step) && MeetsH1(s, step) && MeetsH2(s, step)
    requires i in c
    ensures Next(c, s, step).nodes[i].sm.commitIndex >= s.nodes[i].sm.commitIndex
  {
    hide Act, WellFormed, Inv1, Inv2, MeetsH1, MeetsH2, Observe, HistoryOK, NodeOK, LeadersSafe, NodeSafe;
    if i == Actor(step) {
      NodeFacts(c, s, i);
      SafeFacts(c, s, i);
      if step.Deliver? && step.message.AppendReq? {
        DeliveryFacts(c, s, step.message);
        AppendKeepsCommit(c, s.history, i, s.nodes[i], step.message.appendReq);
      } else {
        CommitRisesOtherwise(c, s.history, i, s.nodes[i], step);
      }
    }
  }

  lemma DeliveryFacts(c: Topology, s: State, m: Message)
    requires Inv1(c, s) && Inv2(c, s) && m in s.net && m.AppendReq? && m.dst in c && MeetsH2(s, Deliver(m))
    ensures var req := m.appendReq;
            && AppendReqOK(s.history, m.dst, req) && MessageSafe(c, s.history, m)
            && req.term in s.history.leaders
            && KeepsAgreement(s.nodes[m.dst], req, s.history.leaders[req.term].log)
    ensures Act(c[m.dst], s.nodes[m.dst], Deliver(m)) == Handle(c[m.dst], s.nodes[m.dst], m)
  {
    hide HistoryOK, NodeOK, LeadersSafe, NodeSafe, KeepsAgreement, Handle;
    assert MessageOK(c, s.history, m) && MessageSafe(c, s.history, m);
  }

  lemma AppendKeepsCommit(c: Topology, h: History, i: NodeId, n: Node, req: AppendEntriesRequest)
    requires WellFormed(c) && i in c && HistoryOK(c, h) && LeadersSafe(h) && NodeOK(c, h, i, n) && NodeSafe(c, h, i, n)
    requires AppendReqOK(h, i, req) && MessageSafe(c, h, AppendReq(i, req))
    requires KeepsAgreement(n, req, h.leaders[req.term].log)
    ensures Handle(c[i], n, AppendReq(i, req)).node.sm.commitIndex >= n.sm.commitIndex
  {
    var n1 := Adopt(n, req.term, Some(req.leaderId));
    var n2 := n1.(sm := n1.sm.(leaderId := Some(req.leaderId)));
    assert c[i].id == i;
    hide NodeOK, HistoryOK, WellFormed, NodeSafe, LeadersSafe, AppendReqOK, MessageSafe, KeepsAgreement,
      Accept, Accepts, OnAppendEntries, Handle;
    assert n2.log == n.log && n1.sm.commitIndex == n.sm.commitIndex && n1.log == n.log;
    SameLogSameAgreement(n, n2, req, h.leaders[req.term].log);
    hide Adopt;
    AppendOutcome(c[i], n, req);
    AdoptOK(c, h, i, n, req.term, Some(req.leaderId));
    AdoptIsSafe(c, h, i, n, req.term, Some(req.leaderId));
    NodeOKFrame(c, h, i, n1, n2);
    FrameIsSafe(c, h, i, n1, n2);
    if Handle(c[i], n, AppendReq(i, req)).ack != None {
      AcceptCommit(c, h, i, n2, req);
    }
  }

  lemma SameLogSameAgreement(n: Node, n': Node, req: AppendEntriesRequest, leaderLog: seq<LogEntry>)
    requires n'.log == n.log && KeepsAgreement(n, req, leaderLog)
    ensures n'.sm.currentTerm >= n.sm.currentTerm ==> KeepsAgreement(n', req, leaderLog)
  {
  }

  lemma CommitRisesOtherwise(c: Topology, h: History, i: NodeId, n: Node, step: Step)
    requires i in c && NodeOK(c, h, i, n) && !(step.Deliver? && step.message.AppendReq?)
    ensures Act(c[i], n, step).node.sm.commitIndex >= n.sm.commitIndex
  {
    NodeParts(c, h, i, n);
    hide NodeOK, ReplicateAll, UpToDate, CommitScan, Recorded, Past, RoleOK, ClientsOK, Sourced, Shaped;
  }
}
