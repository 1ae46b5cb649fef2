/** Primitive types, configuration and errors shared by every layer (iceraft-core). */
module Core {

  type NodeId = nat
  type Term = nat

  /** Absolute log index, counted from 1; 0 means "no entry". */
  type LogIndex = nat

  type Data = seq<bv8>

  datatype Option<+T> = None | Some(value: T)

  datatype Result<+T> = Ok(value: T) | Err(error: RaftError) {
    function UnwrapOr(default: T): T {
      match this
      case Ok(v) => v
      case Err(_) => default
    }
  }

  datatype RaftError =
    | LogCompacted(requested: LogIndex, firstAvailable: LogIndex)
    | LogUnavailable(index: LogIndex)

  datatype EntryType = Normal | ConfChange

  datatype LogEntry = LogEntry(term: Term, index: LogIndex, data: Data, entryType: EntryType)

  /** What a node persists before it answers an RPC; `vote == 0` means "no vote". */
  datatype HardState = HardState(term: Term, vote: NodeId, commit: LogIndex)

  datatype SnapshotMeta = SnapshotMeta(lastIncludedIndex: LogIndex, lastIncludedTerm: Term, confNodes: seq<NodeId>)

  datatype Snapshot = Snapshot(data: Data, metadata: SnapshotMeta)

  datatype RaftConfig = RaftConfig(id: NodeId, peers: seq<NodeId>, maxAppendEntries: nat) {
    function Members(): set<NodeId> {
      (set p | p in peers) + {id}
    }

    function Quorum(): nat {
      (|peers| + 1) / 2 + 1
    }
  }

  ghost predicate NoDuplicates<T>(s: seq<T>) {
    forall i, j | 0 <= i < j < |s| :: s[i] != s[j]
  }

  /** Every node id is positive, because 0 encodes "no vote" on disk. */
  ghost predicate ValidConfig(cfg: RaftConfig) {
    cfg.id > 0 && NoDuplicates(cfg.peers) && cfg.id !in cfg.peers
  }

  lemma {:induction false} SetOfDistinct<T>(s: seq<T>)
    requires NoDuplicates(s)
    ensures |set x | x in s| == |s|
  {
    if s == [] {
      assert (set x | x in s) == {};
    } else {
      SetOfDistinct(s[1..]);
      assert (set x | x in s) == {s[0]} + set x | x in s[1..];
    }
  }

  lemma SameElements<T>(a: seq<T>, b: seq<T>)
    requires NoDuplicates(a) && NoDuplicates(b) && forall x :: x in a <==> x in b
    ensures |a| == |b|
  {
    SetOfDistinct(a);
    SetOfDistinct(b);
    assert (set x | x in a) == set x | x in b;
  }

  /** `Quorum` is the least size that is a strict majority of `Members`. */
  lemma QuorumIsLeastMajority(cfg: RaftConfig)
    requires ValidConfig(cfg)
    ensures |cfg.Members()| == |cfg.peers| + 1
    ensures forall k: nat :: 2 * k > |cfg.Members()| <==> k >= cfg.Quorum()
  {
    SetOfDistinct(cfg.peers);
    assert cfg.Members() == (set p | p in cfg.peers) + {cfg.id};
  }

  lemma SubsetCardinality<T>(a: set<T>, b: set<T>)
    requires a <= b
    ensures |a| <= |b|
  {
    assert b == a + (b - a);
  }

  /** Any two majorities of the same set share a member. */
  lemma MajoritiesMeet<T>(all: set<T>, a: set<T>, b: set<T>) returns (x: T)
    requires a <= all && b <= all
    requires 2 * |a| > |all| && 2 * |b| > |all|
    ensures x in a && x in b
  {
    if a * b == {} {
      assert |a + b| == |a| + |b|;
      SubsetCardinality(a + b, all);
      assert false;
    }
    x :| x in a * b;
  }

  /** Two sets of voters, each of size at least `Quorum`, share a voter. */
  lemma QuorumsMeet(cfg: RaftConfig, a: set<NodeId>, b: set<NodeId>) returns (x: NodeId)
    requires ValidConfig(cfg)
    requires a <= cfg.Members() && b <= cfg.Members()
    requires |a| >= cfg.Quorum() && |b| >= cfg.Quorum()
    ensures x in a && x in b
  {
    QuorumIsLeastMajority(cfg);
    x := MajoritiesMeet(cfg.Members(), a, b);
  }
}
