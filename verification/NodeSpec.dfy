/** One node as a value, and each handler as a pure step on it (iceraft-node).
    `RaftNodeInner` in Node.dfy refines these steps; the cluster model runs them. */
module NodeSpec {
  import opened Core
  import opened LogSpec

  datatype Role = Follower | Candidate | Leader

  /** `next_index - 1` is taken by `replicate_to`, so `nextIndex` is positive by type. */
  type NextIndex = i: nat | i >= 1 witness 1

  datatype Progress = Progress(nextIndex: NextIndex, matchIndex: LogIndex, inFlight: bool)

  /** The fields of `RaftStateMachine`. */
  datatype SM = SM(
    currentTerm: Term,
    votedFor: Option<NodeId>,
    role: Role,
    commitIndex: LogIndex,
    lastApplied: LogIndex,
    leaderId: Option<NodeId>,
    progress: map<NodeId, Progress>,
    votesReceived: set<NodeId>)
  {
    function BecomeFollower(term: Term, leader: Option<NodeId>): SM {
      this.(role := Follower, currentTerm := term, votedFor := None, leaderId := leader,
      votesReceived := {}, progress := map[])
    }

    function BecomeCandidate(self: NodeId): SM {
      this.(currentTerm := currentTerm + 1, role := Candidate, votedFor := Some(self), leaderId := None,
      votesReceived := {self})
    }

    function BecomeLeader(self: NodeId, lastLogIndex: LogIndex, peers: seq<NodeId>): SM {
      this.(role := Leader, leaderId := Some(self),
      progress := map p | p in peers :: Progress(lastLogIndex + 1, 0, false))
    }
  }

  const FRESH_SM := SM(0, None, Follower, 0, 0, None, map[], {})

  /** A proposal awaiting commitment. `tx` names the reply channel; `term` and `data` are history:
      no handler reads them. */
  datatype Pending = Pending(index: LogIndex, tx: nat, term: Term, data: Data)

  /** What was sent on a reply channel. In `Granted` all but `tx` and `index` is history. */
  datatype Reply =
    | Granted(tx: nat, index: LogIndex, proposedIn: Term, data: Data, repliedIn: Term)
    | NotLeader(tx: nat, leaderId: Option<NodeId>)

  datatype Proposal = Proposal(data: Data, tx: Option<nat>)

  /** `log` and `hard` are on disk; `applied` is the stream sent to `apply_tx` since the last start and
      `replies` everything ever answered. `boot` is history: the commit index at the last start. */
  datatype Node = Node(
    sm: SM,
    log: seq<LogEntry>,
    hard: HardState,
    pending: seq<Pending>,
    applied: seq<LogEntry>,
    replies: seq<Reply>,
    boot: LogIndex)

  const FRESH_NODE := Node(FRESH_SM, [], HardState(0, 0, 0), [], [], [], 0)

  datatype RequestVoteRequest = RequestVoteRequest(
    term: Term, candidateId: NodeId, lastLogIndex: LogIndex, lastLogTerm: Term)

  datatype RequestVoteResponse = RequestVoteResponse(term: Term, voteGranted: bool)

  datatype AppendEntriesRequest = AppendEntriesRequest(
    term: Term, leaderId: NodeId, prevLogIndex: LogIndex, prevLogTerm: Term,
    entries: seq<LogEntry>, leaderCommit: LogIndex)
  {
    function LastIndex(): LogIndex { prevLogIndex + |entries| }
  }

  datatype AppendEntriesResponse = AppendEntriesResponse(
    term: Term, success: bool, conflictIndex: LogIndex, conflictTerm: Term)

  /** Messages in flight. A reply to an append carries the `req_last_index` its sender remembered. */
  datatype Message =
    | VoteReq(dst: NodeId, voteReq: RequestVoteRequest)
    | VoteRep(src: NodeId, dst: NodeId, voteResp: RequestVoteResponse)
    | AppendReq(dst: NodeId, appendReq: AppendEntriesRequest)
    | AppendRep(src: NodeId, dst: NodeId, reqLastIndex: LogIndex, appendResp: AppendEntriesResponse)

  // ----- the log of a node that never compacts

  function AsLog(log: seq<LogEntry>): Log { Log(0, 0, log) }

  /** `storage.term(i).unwrap_or(0)`. */
  function TermOf(log: seq<LogEntry>, i: LogIndex): Term {
    if 1 <= i <= |log| then log[i - 1].term else 0
  }

  lemma TermOfIsTermAt(log: seq<LogEntry>, i: LogIndex)
    ensures TermOf(log, i) == AsLog(log).TermAt(i).UnwrapOr(0)
    ensures AsLog(log).TermAt(i).Ok? <==> i <= |log|
  {}

  /** `append_entries` without a snapshot; an out-of-range first index truncates nothing. */
  function Splice(log: seq<LogEntry>, batch: seq<LogEntry>): seq<LogEntry> {
    if batch == [] then log
    else if 1 <= batch[0].index <= |log| then log[..batch[0].index - 1] + batch
    else log + batch
  }

  function FirstIndexOfTerm(log: seq<LogEntry>, term: Term, upper: LogIndex): LogIndex {
    AsLog(log).FirstIndexOfTerm(term, upper)
  }

  // ----- persistence

  function Encode(sm: SM): HardState {
    HardState(sm.currentTerm, if sm.votedFor.Some? then sm.votedFor.value else 0, sm.commitIndex)
  }

  function Save(n: Node): Node { n.(hard := Encode(n.sm)) }

  function RestoreSM(hs: HardState): SM {
    FRESH_SM.(currentTerm := hs.term, votedFor := if hs.vote == 0 then None else Some(hs.vote),
    commitIndex := hs.commit, lastApplied := hs.commit)
  }

  /** A crash loses everything but the log and the hard state; the next start restores from them. */
  function Restart(n: Node): Node {
    Node(RestoreSM(n.hard), n.log, n.hard, [], [], n.replies, n.hard.commit)
  }

  /** Steps down to `term` when it is newer than the node's own. */
  function Adopt(n: Node, term: Term, leader: Option<NodeId>): Node {
    if term > n.sm.currentTerm then Save(n.(sm := n.sm.BecomeFollower(term, leader))) else n
  }

  // ----- RPC handlers

  function Reject(n: Node, conflictIndex: LogIndex, conflictTerm: Term): AppendEntriesResponse {
    AppendEntriesResponse(n.sm.currentTerm, false, conflictIndex, conflictTerm)
  }

  /** The request passes the term test and the consistency check. */
  predicate Accepts(n: Node, req: AppendEntriesRequest) {
    && req.term >= n.sm.currentTerm
    && (req.prevLogIndex > 0 ==> req.prevLogIndex <= |n.log| && TermOf(n.log, req.prevLogIndex) == req.prevLogTerm)
  }

  /** `storage.last_index()` reads the last entry, whatever the request has just put there. */
  function LastIndexOf(log: seq<LogEntry>): LogIndex {
    if log == [] then 0 else log[|log| - 1].index
  }

  function Accept(n: Node, req: AppendEntriesRequest): Node {
    var log := Splice(n.log, req.entries);
    var n1 := n.(log := log);
    if req.leaderCommit > n.sm.commitIndex then
      var last := LastIndexOf(log);
      Save(n1.(sm := n.sm.(commitIndex := if req.leaderCommit <= last then req.leaderCommit else last)))
    else n1
  }

  function OnAppendEntries(n: Node, req: AppendEntriesRequest): (Node, AppendEntriesResponse) {
    var n1 := Adopt(n, req.term, Some(req.leaderId));
    if req.term < n1.sm.currentTerm then (n1, Reject(n1, 0, 0))
    else
      var n2 := n1.(sm := n1.sm.(leaderId := Some(req.leaderId)));
      if req.prevLogIndex > |n.log| then (n2, Reject(n2, req.prevLogIndex, 0))
      else if req.prevLogIndex > 0 && TermOf(n.log, req.prevLogIndex) != req.prevLogTerm then
        var t := TermOf(n.log, req.prevLogIndex);
        (n2, Reject(n2, FirstIndexOfTerm(n.log, t, req.prevLogIndex), t))
      else
        (Accept(n2, req), AppendEntriesResponse(n2.sm.currentTerm, true, 0, 0))
  }

  /** The candidate's log is at least as up-to-date as `log`. */
  predicate UpToDate(req: RequestVoteRequest, log: seq<LogEntry>) {
    var lastTerm := TermOf(log, |log|);
    req.lastLogTerm > lastTerm || (req.lastLogTerm == lastTerm && req.lastLogIndex >= |log|)
  }

  function OnRequestVote(n: Node, req: RequestVoteRequest): (Node, RequestVoteResponse) {
    var n1 := Adopt(n, req.term, None);
    if req.term < n1.sm.currentTerm then (n1, RequestVoteResponse(n1.sm.currentTerm, false))
    else if n1.sm.votedFor.Some? && n1.sm.votedFor.value != req.candidateId then
      (n1, RequestVoteResponse(n1.sm.currentTerm, false))
    else if !UpToDate(req, n1.log) then (n1, RequestVoteResponse(n1.sm.currentTerm, false))
    else
      (Save(n1.(sm := n1.sm.(votedFor := Some(req.candidateId)))), RequestVoteResponse(n1.sm.currentTerm, true))
  }

  // ----- replication

  function ReadLimit(cfg: RaftConfig): nat { cfg.maxAppendEntries * 4096 }

  function BuildAppend(cfg: RaftConfig, n: Node, next: NextIndex): AppendEntriesRequest {
    AppendEntriesRequest(
      n.sm.currentTerm, cfg.id, next - 1, TermOf(n.log, next - 1),
      if |n.log| >= next then TakeCapped(n.log[next - 1..], ReadLimit(cfg)) else [],
      n.sm.commitIndex)
  }

  function ReplicateTo(cfg: RaftConfig, n: Node, peer: NodeId): seq<Message> {
    if peer in n.sm.progress then [AppendReq(peer, BuildAppend(cfg, n, n.sm.progress[peer].nextIndex))]
    else []
  }

  function ReplicateToFirst(cfg: RaftConfig, n: Node, count: nat): seq<Message>
    requires count <= |cfg.peers|
  {
    if count == 0 then []
    else ReplicateToFirst(cfg, n, count - 1) + ReplicateTo(cfg, n, cfg.peers[count - 1])
  }

  function ReplicateAll(cfg: RaftConfig, n: Node): seq<Message> {
    if n.sm.role != Leader then [] else ReplicateToFirst(cfg, n, |cfg.peers|)
  }

  // ----- elections

  function WinElection(cfg: RaftConfig, n: Node): Node {
    n.(sm := n.sm.BecomeLeader(cfg.id, |n.log|, cfg.peers))
  }

  function VoteRequests(cfg: RaftConfig, req: RequestVoteRequest): seq<Message> {
    seq(|cfg.peers|, i requires 0 <= i < |cfg.peers| => VoteReq(cfg.peers[i], req))
  }

  function StartElection(cfg: RaftConfig, n: Node): (Node, seq<Message>) {
    var n1 := Save(n.(sm := n.sm.BecomeCandidate(cfg.id)));
    var req := RequestVoteRequest(n1.sm.currentTerm, cfg.id, |n.log|, TermOf(n.log, |n.log|));
    if |n1.sm.votesReceived| >= cfg.Quorum() then
      var n2 := WinElection(cfg, n1);
      (n2, VoteRequests(cfg, req) + ReplicateAll(cfg, n2))
    else (n1, VoteRequests(cfg, req))
  }

  function HandleVoteResponse(cfg: RaftConfig, n: Node, peer: NodeId, resp: RequestVoteResponse): (Node, seq<Message>) {
    if resp.term > n.sm.currentTerm then (Adopt(n, resp.term, None), [])
    else if resp.voteGranted && n.sm.role == Candidate then
      var n1 := n.(sm := n.sm.(votesReceived := n.sm.votesReceived + {peer}));
      if |n1.sm.votesReceived| >= cfg.Quorum() then
        var n2 := WinElection(cfg, n1);
        (n2, ReplicateAll(cfg, n2))
      else (n1, [])
    else (n, [])
  }

  // ----- commit and apply

  function Replicated(progress: map<NodeId, Progress>, n: LogIndex): set<NodeId> {
    set p | p in progress && progress[p].matchIndex >= n
  }

  /** The downward scan from `n`: the commit index it leaves behind. */
  function CommitScan(log: seq<LogEntry>, term: Term, progress: map<NodeId, Progress>, quorum: nat,
                      commit: LogIndex, n: LogIndex): LogIndex
  {
    if n <= commit then commit
    else if TermOf(log, n) == term && |Replicated(progress, n)| + 1 >= quorum then n
    else CommitScan(log, term, progress, quorum, commit, n - 1)
  }

  /** The loop of `RaftStateMachine::maybe_commit`, which reads terms through a closure. */
  function ScanWith(progress: map<NodeId, Progress>, quorum: nat, commit: LogIndex, n: LogIndex, term: Term,
                    termOf: LogIndex -> Option<Term>): Option<LogIndex>
  {
    if n <= commit then None
    else if termOf(n) == Some(term) && |Replicated(progress, n)| + 1 >= quorum then Some(n)
    else ScanWith(progress, quorum, commit, n - 1, term, termOf)
  }

  function StillPending(pending: seq<Pending>, commit: LogIndex): seq<Pending> {
    if pending == [] then []
    else
      var rest := StillPending(pending[..|pending| - 1], commit);
      var last := pending[|pending| - 1];
      if last.index <= commit then rest else rest + [last]
  }

  function CommitReplies(pending: seq<Pending>, commit: LogIndex, term: Term): seq<Reply> {
    if pending == [] then []
    else
      var rest := CommitReplies(pending[..|pending| - 1], commit, term);
      var p := pending[|pending| - 1];
      if p.index <= commit then rest + [Granted(p.tx, p.index, p.term, p.data, term)] else rest
  }

  function AdvanceTo(n: Node, commit: LogIndex): Node {
    if commit > n.sm.commitIndex then Save(n.(sm := n.sm.(commitIndex := commit))) else n
  }

  function ReplyCommitted(n: Node): Node {
    n.(pending := StillPending(n.pending, n.sm.commitIndex),
    replies := n.replies + CommitReplies(n.pending, n.sm.commitIndex, n.sm.currentTerm))
  }

  function MaybeAdvanceCommit(cfg: RaftConfig, n: Node): Node {
    if n.sm.role != Leader then n
    else
      ReplyCommitted(AdvanceTo(n,
        CommitScan(n.log, n.sm.currentTerm, n.sm.progress, cfg.Quorum(), n.sm.commitIndex, |n.log|)))
  }

  /** Nothing is sent when the range is empty or reaches past the log (the read fails). */
  function ApplyCommitted(n: Node): Node {
    if n.sm.lastApplied >= n.sm.commitIndex || n.sm.commitIndex > |n.log| then n
    else
      n.(applied := n.applied + n.log[n.sm.lastApplied..n.sm.commitIndex],
      sm := n.sm.(lastApplied := n.log[n.sm.commitIndex - 1].index))
  }

  /** The heartbeat of a leader. */
  function Heartbeat(cfg: RaftConfig, n: Node): (Node, seq<Message>) {
    (ApplyCommitted(MaybeAdvanceCommit(cfg, n)), ReplicateAll(cfg, n))
  }

  function UpdateProgress(p: Progress, reqLastIndex: LogIndex, resp: AppendEntriesResponse): Progress {
    if resp.success then
      var m := if p.matchIndex >= reqLastIndex then p.matchIndex else reqLastIndex;
      Progress(m + 1, m, false)
    else if resp.conflictIndex > 0 then p.(nextIndex := resp.conflictIndex)
    else p.(nextIndex := if p.nextIndex >= 2 then p.nextIndex - 1 else 1)
  }

  function HandleAppendResponse(cfg: RaftConfig, n: Node, peer: NodeId, reqLastIndex: LogIndex,
                                resp: AppendEntriesResponse): Node
  {
    if resp.term > n.sm.currentTerm then Adopt(n, resp.term, None)
    else if n.sm.role != Leader then n
    else
      var n1 := if peer in n.sm.progress then
                  n.(sm := n.sm.(progress :=
                  n.sm.progress[peer := UpdateProgress(n.sm.progress[peer], reqLastIndex, resp)]))
                else n;
      MaybeAdvanceCommit(cfg, n1)
  }

  // ----- proposals

  function OnProposal(cfg: RaftConfig, n: Node, proposal: Proposal): (Node, seq<Message>) {
    if n.sm.role != Leader then
      (if proposal.tx.Some? then n.(replies := n.replies + [NotLeader(proposal.tx.value, n.sm.leaderId)]) else n, [])
    else
      var entry := LogEntry(n.sm.currentTerm, |n.log| + 1, proposal.data, Normal);
      var n1 := n.(log := n.log + [entry],
      pending := if proposal.tx.Some?
        then n.pending + [Pending(|n.log| + 1, proposal.tx.value, n.sm.currentTerm, proposal.data)]
        else n.pending);
      (n1, ReplicateAll(cfg, n1))
  }
}
