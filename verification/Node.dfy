/** A running node (iceraft-node/src/node.rs): every handler updates the state in place and refines its pure step
    in `NodeSpec`. */
module NodeImpl {
  import opened Core
  import opened LogSpec
  import opened NodeSpec
  import opened Storage
  import opened StateMachine

  lemma SuffixIsRead(log: Log, next: LogIndex, max: nat)
    requires log.base == 0 && 1 <= next <= |log.entries|
    ensures log.Read(next, |log.entries| + 1, Some(max)) == Ok(TakeCapped(log.entries[next - 1..], max))
  {
    hide TakeCapped;
    assert log.entries[next - 1..] == log.entries[next - 1..|log.entries|];
  }

  lemma TermsOfNode(log: seq<LogEntry>, i: LogIndex)
    requires i > 0
    ensures AsLog(log).TermAt(i) == if i <= |log| then Ok(TermOf(log, i)) else Err(LogUnavailable(i))
  {
  }

  lemma OfferTo(cfg: RaftConfig, n: Node, peer: NodeId, next: LogIndex)
    requires peer in n.sm.progress && next == n.sm.progress[peer].nextIndex
    ensures ReplicateTo(cfg, n, peer) == [AppendReq(peer, AppendEntriesRequest(
              n.sm.currentTerm, cfg.id, next - 1, TermOf(n.log, next - 1),
              if |n.log| >= next then TakeCapped(n.log[next - 1..], ReadLimit(cfg)) else [],
              n.sm.commitIndex))]
  {
    hide TakeCapped, TermOf, ReadLimit;
  }

  /** A leader with one more entry, and its client waiting. */
  ghost function WithProposal(n: Node, p: Proposal): Node {
    n.(log := n.log + [LogEntry(n.sm.currentTerm, |n.log| + 1, p.data, Normal)],
    pending := if p.tx.Some? then n.pending + [Pending(|n.log| + 1, p.tx.value, n.sm.currentTerm, p.data)]
      else n.pending)
  }

  lemma LeaderProposal(cfg: RaftConfig, n: Node, p: Proposal)
    requires n.sm.role == Leader
    ensures OnProposal(cfg, n, p) == (WithProposal(n, p), ReplicateAll(cfg, WithProposal(n, p)))
  {
    hide ReplicateAll;
  }

  lemma SpliceIsAppend(log: seq<LogEntry>, batch: seq<LogEntry>)
    ensures AsLog(log).Append(batch) == AsLog(Splice(log, batch))
  {
    assert log[..|log|] == log;
  }

  lemma ContiguousKeeps(log: seq<LogEntry>, batch: seq<LogEntry>, prev: LogIndex)
    requires prev <= |log| && ContiguousFrom(batch, prev + 1)
    ensures KeepsContiguous(log, batch)
  {
  }

  lemma SearchDone(log: Log, term: Term, lo: LogIndex, hi: LogIndex)
    requires lo >= hi
    ensures log.SearchTerm(term, lo, hi) == lo
  {
  }

  lemma SearchHalves(log: Log, term: Term, lo: LogIndex, hi: LogIndex, mid: LogIndex)
    requires lo < hi && mid == lo + (hi - lo) / 2
    ensures lo <= mid < hi
    ensures log.SearchTerm(term, lo, hi)
            == if log.TermBelow(mid, term) then log.SearchTerm(term, mid + 1, hi) else log.SearchTerm(term, lo, mid)
  {
  }

  /** The batch is contiguous and leaves no gap behind `log`. */
  ghost predicate KeepsContiguous(log: seq<LogEntry>, batch: seq<LogEntry>) {
    batch == [] || (1 <= batch[0].index <= |log| + 1 && ContiguousFrom(batch, batch[0].index))
  }

  class RaftNodeInner {
    const config: RaftConfig
    const sm: RaftStateMachine
    const storage: MemStorage
    /** Proposals waiting for their entry to commit. */
    var pending: seq<Pending>
    /** Everything handed to the transport, `apply_tx` and the reply channels, in order. */
    var outbox: seq<Message>
    var applyTx: seq<LogEntry>
    var replies: seq<Reply>
    ghost var boot: LogIndex

    ghost function View(): Node
      reads this, sm, storage
    {
      Node(sm.View(), storage.entries, storage.hardState, pending, applyTx, replies, boot)
    }

    /** The node itself never takes a snapshot. */
    ghost predicate Valid()
      reads this, sm, storage
    {
      storage.Valid() && storage.snapshot == None
    }

    /** Starts on what a previous life left on disk. */
    constructor (cfg: RaftConfig, disk: MemStorage)
      requires disk.Valid() && disk.snapshot == None
      ensures Valid() && config == cfg && storage == disk && fresh(sm) && outbox == []
      ensures disk.entries == old(disk.entries) && disk.hardState == old(disk.hardState)
      ensures View() == Node(RestoreSM(disk.hardState), disk.entries, disk.hardState, [], [], [], disk.hardState.commit)
    {
      config := cfg;
      sm := new RaftStateMachine();
      storage := disk;
      pending := [];
      outbox := [];
      applyTx := [];
      replies := [];
      boot := disk.hardState.commit;
      new;
      var hs := storage.LoadHardState();
      sm.currentTerm := hs.term;
      sm.votedFor := if hs.vote == 0 then None else Some(hs.vote);
      sm.commitIndex := hs.commit;
      sm.lastApplied := hs.commit;
    }

    // ----- helpers

    method SaveHardState()
      modifies storage`hardState
      ensures View() == Save(old(View())) && Valid() == old(Valid())
    {
      storage.SaveHardState(HardState(
        sm.currentTerm, if sm.votedFor.Some? then sm.votedFor.value else 0, sm.commitIndex));
    }

    /** Where the run of entries that ends at `upper` and has term `term` begins. */
    method FirstIndexOfTerm(term: Term, upper: LogIndex) returns (r: LogIndex)
      ensures r == storage.View().FirstIndexOfTerm(term, upper)
    {
      var lo: LogIndex := storage.FirstIndex();
      var hi: LogIndex := upper;
      ghost var log := storage.View();
      hide Log.SearchTerm;
      ghost var found := log.SearchTerm(term, lo, hi);
      while lo < hi
        invariant log.SearchTerm(term, lo, hi) == found
      {
        var mid := lo + (hi - lo) / 2;
        SearchHalves(log, term, lo, hi, mid);
        var t := storage.TermAt(mid);
        hide Log.TermAt;
        assert t.Ok? && t.value < term <==> log.TermBelow(mid, term);
        if t.Ok? && t.value < term {
          lo := mid + 1;
        } else {
          hi := mid;
        }
      }
      SearchDone(log, term, lo, hi);
      r := lo;
    }

    method TermOrZero(i: LogIndex) returns (t: Term)
      requires Valid()
      ensures t == TermOf(View().log, i)
    {
      var r := storage.TermAt(i);
      TermOfIsTermAt(View().log, i);
      t := r.UnwrapOr(0);
    }

    method AdoptTerm(term: Term, leader: Option<NodeId>)
      requires Valid()
      modifies sm, storage`hardState
      ensures Valid() && View() == Adopt(old(View()), term, leader)
    {
      if term > sm.currentTerm {
        sm.BecomeFollower(term, leader);
        SaveHardState();
      }
    }

    // ----- RPC handlers

    method OnAppendEntries(req: AppendEntriesRequest) returns (resp: AppendEntriesResponse)
      requires Valid()
      modifies sm, storage
      ensures (View(), resp) == NodeSpec.OnAppendEntries(old(View()), req)
      ensures Valid() <==> !resp.success || KeepsContiguous(old(View()).log, req.entries)
      ensures ContiguousFrom(req.entries, req.prevLogIndex + 1) ==> Valid()
    {
      AdoptTerm(req.term, Some(req.leaderId));
      assert View().log == old(View().log);
      hide Adopt, Log.TermAt;
      if req.term < sm.currentTerm {
        return AppendEntriesResponse(sm.currentTerm, false, 0, 0);
      }
      sm.leaderId := Some(req.leaderId);
      if req.prevLogIndex > 0 {
        var ourTerm := storage.TermAt(req.prevLogIndex);
        TermsOfNode(View().log, req.prevLogIndex);
        if ourTerm.Err? && !ourTerm.error.LogCompacted? {
          return AppendEntriesResponse(sm.currentTerm, false, req.prevLogIndex, 0);
        }
        if ourTerm.Ok? && ourTerm.value != req.prevLogTerm {
          var conflictIndex := FirstIndexOfTerm(ourTerm.value, req.prevLogIndex);
          return AppendEntriesResponse(sm.currentTerm, false, conflictIndex, ourTerm.value);
        }
      }
      if ContiguousFrom(req.entries, req.prevLogIndex + 1) {
        ContiguousKeeps(View().log, req.entries, req.prevLogIndex);
      }
      hide Accept, KeepsContiguous, ContiguousFrom;
      AcceptEntries(req);
      resp := AppendEntriesResponse(sm.currentTerm, true, 0, 0);
    }

    /** The tail of `on_append_entries`, after the consistency check. */
    method AcceptEntries(req: AppendEntriesRequest)
      requires Valid() && req.prevLogIndex <= |View().log|
      modifies sm`commitIndex, storage
      ensures View() == Accept(old(View()), req)
      ensures Valid() <==> KeepsContiguous(old(View()).log, req.entries)
    {
      ghost var n := View();
      SpliceIsAppend(n.log, req.entries);
      assert req.entries == [] ==> Splice(n.log, req.entries) == n.log;
      hide Log.Append, Splice;
      if req.entries != [] {
        storage.AppendEntries(req.entries);
      }
      assert View() == n.(log := Splice(n.log, req.entries));
      if req.leaderCommit > sm.commitIndex {
        var last := storage.LastIndex();
        sm.commitIndex := if req.leaderCommit <= last then req.leaderCommit else last;
        SaveHardState();
      }
    }

    method OnRequestVote(req: RequestVoteRequest) returns (resp: RequestVoteResponse)
      requires Valid()
      modifies sm, storage`hardState
      ensures Valid() && (View(), resp) == NodeSpec.OnRequestVote(old(View()), req)
    {
      AdoptTerm(req.term, None);
      if req.term < sm.currentTerm {
        return RequestVoteResponse(sm.currentTerm, false);
      }
      if sm.votedFor.Some? && sm.votedFor.value != req.candidateId {
        return RequestVoteResponse(sm.currentTerm, false);
      }
      var ourLastIndex := storage.LastIndex();
      var ourLastTerm := TermOrZero(ourLastIndex);
      var candidateLogOk := req.lastLogTerm > ourLastTerm
                            || (req.lastLogTerm == ourLastTerm && req.lastLogIndex >= ourLastIndex);
      if !candidateLogOk {
        return RequestVoteResponse(sm.currentTerm, false);
      }
      sm.votedFor := Some(req.candidateId);
      SaveHardState();
      resp := RequestVoteResponse(sm.currentTerm, true);
    }

    // ----- replication

    method ReplicateTo(peer: NodeId)
      requires Valid()
      modifies this`outbox
      ensures Valid() && outbox == old(outbox) + NodeSpec.ReplicateTo(config, old(View()), peer)
    {
      if peer !in sm.progress {
        return;
      }
      var next: LogIndex := sm.progress[peer].nextIndex;
      OfferTo(config, View(), peer, next);
      hide NodeSpec.ReplicateTo, TakeCapped, TermOf, ReadLimit;
      var prevLogIndex: LogIndex := next - 1;
      var prevLogTerm := TermOrZero(prevLogIndex);
      var lastIndex := storage.LastIndex();
      var entries: seq<LogEntry> := [];
      if lastIndex >= next {
        var r := ReadFrom(next, lastIndex);
        if r.Err? {
          return;
        }
        entries := r.value;
      }
      outbox := outbox + [AppendReq(peer, AppendEntriesRequest(
        sm.currentTerm, config.id, prevLogIndex, prevLogTerm, entries, sm.commitIndex))];
    }

    /** The capped read of the log's end. */
    method ReadFrom(next: LogIndex, lastIndex: LogIndex) returns (r: Result<seq<LogEntry>>)
      requires Valid() && 1 <= next <= lastIndex == |View().log|
      ensures r == Ok(TakeCapped(View().log[next - 1..], ReadLimit(config)))
    {
      SuffixIsRead(storage.View(), next, ReadLimit(config));
      hide TakeCapped, Log.Read;
      r := storage.Entries(next, lastIndex + 1, Some(config.maxAppendEntries * 4096));
    }

    method ReplicateAll()
      requires Valid()
      modifies this`outbox
      ensures Valid() && outbox == old(outbox) + NodeSpec.ReplicateAll(config, old(View()))
    {
      if sm.role != Leader {
        return;
      }
      for i := 0 to |config.peers|
        invariant Valid() && View() == old(View())
        invariant outbox == old(outbox) + ReplicateToFirst(config, old(View()), i)
      {
        ReplicateTo(config.peers[i]);
      }
    }

    // ----- elections

    method StartElection()
      requires Valid()
      modifies this`outbox, sm, storage`hardState
      ensures Valid() && View() == NodeSpec.StartElection(config, old(View())).0
      ensures outbox == old(outbox) + NodeSpec.StartElection(config, old(View())).1
    {
      sm.BecomeCandidate(config.id);
      SaveHardState();
      var lastIndex := storage.LastIndex();
      var lastTerm := TermOrZero(lastIndex);
      var req := RequestVoteRequest(sm.currentTerm, config.id, lastIndex, lastTerm);
      var quorum := config.Quorum();
      ghost var n1, all := View(), VoteRequests(config, req);
      for i := 0 to |config.peers|
        invariant Valid() && View() == n1
        invariant outbox == old(outbox) + all[..i]
      {
        outbox := outbox + [VoteReq(config.peers[i], req)];
      }
      assert all[..|config.peers|] == all;
      if |sm.votesReceived| >= quorum && sm.role == Candidate {
        sm.BecomeLeader(config.id, lastIndex, config.peers);
        assert View() == WinElection(config, n1);
        ReplicateAll();
      }
    }

    method HandleVoteResponse(peer: NodeId, resp: RequestVoteResponse)
      requires Valid()
      modifies this`outbox, sm, storage`hardState
      ensures Valid() && View() == NodeSpec.HandleVoteResponse(config, old(View()), peer, resp).0
      ensures outbox == old(outbox) + NodeSpec.HandleVoteResponse(config, old(View()), peer, resp).1
    {
      if resp.term > sm.currentTerm {
        AdoptTerm(resp.term, None);
        return;
      }
      if resp.voteGranted && sm.role == Candidate {
        sm.votesReceived := sm.votesReceived + {peer};
        if |sm.votesReceived| >= config.Quorum() {
          var lastIndex := storage.LastIndex();
          sm.BecomeLeader(config.id, lastIndex, config.peers);
          ReplicateAll();
        }
      }
    }

    // ----- commit and apply

    method MaybeAdvanceCommit()
      requires Valid()
      modifies this`pending, this`replies, sm`commitIndex, storage`hardState
      ensures Valid() && View() == NodeSpec.MaybeAdvanceCommit(config, old(View()))
    {
      if sm.role != Leader {
        return;
      }
      var lastIndex := storage.LastIndex();
      var quorum := config.Quorum();
      var term := sm.currentTerm;
      ghost var log := View().log;
      ghost var target := CommitScan(log, term, sm.progress, quorum, sm.commitIndex, lastIndex);
      var newCommit := sm.commitIndex;
      var n: LogIndex := lastIndex;
      while n > sm.commitIndex
        invariant Valid() && View() == old(View())
        invariant newCommit == sm.commitIndex
        invariant CommitScan(log, term, sm.progress, quorum, sm.commitIndex, n) == target
      {
        var entryTerm := TermOrZero(n);
        if entryTerm == term {
          var replicated := |Replicated(sm.progress, n)| + 1;
          if replicated >= quorum {
            newCommit := n;
            break;
          }
        }
        n := n - 1;
      }
      assert newCommit == target;
      if newCommit > sm.commitIndex {
        sm.commitIndex := newCommit;
        SaveHardState();
      }
      assert View() == AdvanceTo(old(View()), target);
      NotifyCommitted();
    }

    /** Answers the pending proposals that have committed and keeps the others. */
    method NotifyCommitted()
      requires Valid()
      modifies this`pending, this`replies
      ensures Valid() && View() == ReplyCommitted(old(View()))
    {
      var commit := sm.commitIndex;
      var oldPending := pending;
      pending := [];
      for i := 0 to |oldPending|
        invariant pending == StillPending(oldPending[..i], commit)
        invariant replies == old(replies) + CommitReplies(oldPending[..i], commit, sm.currentTerm)
      {
        var p := oldPending[i];
        assert oldPending[..i + 1][..i] == oldPending[..i];
        if p.index <= commit {
          replies := replies + [Granted(p.tx, p.index, p.term, p.data, sm.currentTerm)];
        } else {
          pending := pending + [p];
        }
      }
      assert oldPending[..|oldPending|] == oldPending;
    }

    method ApplyCommitted()
      requires Valid()
      modifies this`applyTx, sm`lastApplied
      ensures Valid() && View() == NodeSpec.ApplyCommitted(old(View()))
    {
      var from := sm.lastApplied + 1;
      var to := sm.commitIndex;
      if from > to {
        return;
      }
      var r := storage.Entries(from, to + 1, None);
      if r.Ok? {
        assert r.value == storage.entries[from - 1..to];
        SendToApply(r.value);
      }
    }

    /** Hands the entries over one by one, moving the apply cursor along. */
    method SendToApply(entries: seq<LogEntry>)
      modifies this`applyTx, sm`lastApplied
      ensures applyTx == old(applyTx) + entries
      ensures sm.lastApplied == if entries == [] then old(sm.lastApplied) else entries[|entries| - 1].index
    {
      for i := 0 to |entries|
        invariant applyTx == old(applyTx) + entries[..i]
        invariant sm.lastApplied == if i == 0 then old(sm.lastApplied) else entries[i - 1].index
      {
        applyTx := applyTx + [entries[i]];
        sm.lastApplied := entries[i].index;
      }
      assert entries[..|entries|] == entries;
    }

    /** The heartbeat branch of the event loop. */
    method Heartbeat()
      requires Valid()
      modifies this`outbox, this`applyTx, this`pending, this`replies, sm, storage`hardState
      ensures Valid() && View() == NodeSpec.Heartbeat(config, old(View())).0
      ensures outbox == old(outbox) + NodeSpec.Heartbeat(config, old(View())).1
    {
      ReplicateAll();
      MaybeAdvanceCommit();
      ApplyCommitted();
    }

    method HandleAppendResponse(peer: NodeId, reqLastIndex: LogIndex, resp: AppendEntriesResponse)
      requires Valid()
      modifies this`pending, this`replies, sm, storage`hardState
      ensures Valid() && View() == NodeSpec.HandleAppendResponse(config, old(View()), peer, reqLastIndex, resp)
    {
      if resp.term > sm.currentTerm {
        AdoptTerm(resp.term, None);
        return;
      }
      if sm.role != Leader {
        return;
      }
      hide NodeSpec.MaybeAdvanceCommit;
      if peer in sm.progress {
        var p := sm.progress[peer];
        if resp.success {
          var m := if p.matchIndex >= reqLastIndex then p.matchIndex else reqLastIndex;
          p := p.(matchIndex := m);
          p := p.(nextIndex := p.matchIndex + 1);
          p := p.(inFlight := false);
        } else if resp.conflictIndex > 0 {
          p := p.(nextIndex := resp.conflictIndex);
        } else {
          var lowered := if p.nextIndex >= 1 then p.nextIndex - 1 else 0;
          p := p.(nextIndex := if lowered >= 1 then lowered else 1);
        }
        sm.progress := sm.progress[peer := p];
        assert p == UpdateProgress(old(sm.progress)[peer], reqLastIndex, resp);
        hide UpdateProgress;
      }
      MaybeAdvanceCommit();
    }

    // ----- proposals

    method OnProposal(proposal: Proposal)
      requires Valid()
      modifies this`outbox, this`pending, this`replies, storage`entries
      ensures Valid() && View() == NodeSpec.OnProposal(config, old(View()), proposal).0
      ensures outbox == old(outbox) + NodeSpec.OnProposal(config, old(View()), proposal).1
    {
      if sm.role != Leader {
        if proposal.tx.Some? {
          replies := replies + [NotLeader(proposal.tx.value, sm.leaderId)];
        }
        return;
      }
      LeaderProposal(config, View(), proposal);
      hide NodeSpec.OnProposal, NodeSpec.ReplicateAll, WithProposal;
      AppendProposal(proposal);
      ReplicateAll();
    }

    /** Appends the entry and remembers who waits for it. */
    method AppendProposal(proposal: Proposal)
      requires Valid()
      modifies this`pending, storage`entries
      ensures Valid() && View() == WithProposal(old(View()), proposal)
    {
      var lastIndex := storage.LastIndex();
      var newIndex := lastIndex + 1;
      var entry := LogEntry(sm.currentTerm, newIndex, proposal.data, Normal);
      assert AsLog(storage.entries).Append([entry]) == AsLog(storage.entries + [entry]) by {
        SpliceIsAppend(storage.entries, [entry]);
      }
      hide Log.Append;
      storage.AppendEntries([entry]);
      if proposal.tx.Some? {
        pending := pending + [Pending(newIndex, proposal.tx.value, sm.currentTerm, proposal.data)];
      }
    }
  }
}
