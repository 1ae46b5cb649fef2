/** The in-memory Raft state (iceraft-node/src/state.rs), updated in place. */
module StateMachine {
  import opened Core
  import opened NodeSpec

  class RaftStateMachine {
    var currentTerm: Term
    var votedFor: Option<NodeId>
    var role: Role
    var commitIndex: LogIndex
    var lastApplied: LogIndex
    var leaderId: Option<NodeId>
    var progress: map<NodeId, Progress>
    var votesReceived: set<NodeId>

    ghost function View(): SM
      reads this
    {
      SM(currentTerm, votedFor, role, commitIndex, lastApplied, leaderId, progress, votesReceived)
    }

    constructor ()
      ensures View() == FRESH_SM
    {
      currentTerm := 0;
      votedFor := None;
      role := Follower;
      commitIndex := 0;
      lastApplied := 0;
      leaderId := None;
      progress := map[];
      votesReceived := {};
    }

    method BecomeFollower(term: Term, leader: Option<NodeId>)
      modifies this
      ensures View() == old(View()).BecomeFollower(term, leader)
    {
      role := Follower;
      currentTerm := term;
      votedFor := None;
      leaderId := leader;
      votesReceived := {};
      progress := map[];
    }

    method BecomeCandidate(self: NodeId)
      modifies this
      ensures View() == old(View()).BecomeCandidate(self)
    {
      currentTerm := currentTerm + 1;
      role := Candidate;
      votedFor := Some(self);
      leaderId := None;
      votesReceived := {};
      votesReceived := votesReceived + {self};
    }

    method BecomeLeader(self: NodeId, lastLogIndex: LogIndex, peers: seq<NodeId>)
      modifies this
      ensures View() == old(View()).BecomeLeader(self, lastLogIndex, peers)
    {
      role := Leader;
      leaderId := Some(self);
      progress := map[];
      for i := 0 to |peers|
        invariant role == Leader && leaderId == Some(self)
        invariant currentTerm == old(currentTerm) && votedFor == old(votedFor) && commitIndex == old(commitIndex)
        invariant lastApplied == old(lastApplied) && votesReceived == old(votesReceived)
        invariant progress == map p | p in peers[..i] :: Progress(lastLogIndex + 1, 0, false)
      {
        assert peers[..i + 1] == peers[..i] + [peers[i]];
        progress := progress[peers[i] := Progress(lastLogIndex + 1, 0, false)];
      }
      assert peers[..|peers|] == peers;
    }

    /** Commits the largest index of the current term that a quorum holds, if it is new. */
    method MaybeCommit(quorum: nat, lastLogIndex: LogIndex, term: Term, termOf: LogIndex -> Option<Term>)
      returns (r: Option<LogIndex>)
      modifies this`commitIndex
      ensures r == ScanWith(progress, quorum, old(commitIndex), lastLogIndex, term, termOf)
      ensures commitIndex == if r.Some? then r.value else old(commitIndex)
      ensures r.Some? ==>
                && old(commitIndex) < r.value <= lastLogIndex
                && termOf(r.value) == Some(term) && |Replicated(progress, r.value)| + 1 >= quorum
      ensures forall n | old(commitIndex) < n <= lastLogIndex && (r.Some? ==> r.value < n) ::
                termOf(n) != Some(term) || |Replicated(progress, n)| + 1 < quorum
    {
      var n: LogIndex := lastLogIndex;
      while n > commitIndex
        invariant commitIndex == old(commitIndex)
        invariant n <= lastLogIndex
        invariant forall k | n < k <= lastLogIndex && k > commitIndex ::
            termOf(k) != Some(term) || |Replicated(progress, k)| + 1 < quorum
        invariant ScanWith(progress, quorum, commitIndex, lastLogIndex, term, termOf)
               == ScanWith(progress, quorum, commitIndex, n, term, termOf)
      {
        if termOf(n) != Some(term) {
          n := n - 1;
          continue;
        }
        var replicated := |Replicated(progress, n)| + 1;
        if replicated >= quorum {
          commitIndex := n;
          return Some(n);
        }
        n := n - 1;
      }
      r := None;
    }
  }
}
