/** The in-memory storage backend (iceraft-storage/src/mem.rs), refining `LogSpec.Log`. */
module Storage {
  import opened Core
  import opened LogSpec

  lemma ConcatContiguous(kept: seq<LogEntry>, batch: seq<LogEntry>, first: LogIndex)
    requires ContiguousFrom(kept, first) && batch != []
    ensures ContiguousFrom(kept + batch, first) <==>
            batch[0].index == first + |kept| && ContiguousFrom(batch, batch[0].index)
  {
    var all := kept + batch;
    if ContiguousFrom(all, first) {
      forall k | 0 <= k < |batch| ensures batch[k].index == first + |kept| + k {
        assert all[|kept| + k] == batch[k];
      }
    }
  }

  lemma CappedLengthStep(s: seq<LogEntry>, max: nat, k: nat)
    requires k < |s|
    ensures CappedLength(s, max, k)
         == if k > 0 && Bytes(s[..k]) + |s[k].data| > max then k else CappedLength(s, max, k + 1)
  {
  }

  class MemStorage {
    var hardState: HardState
    /** Shifted so that `entries[0].index` is the first index after the snapshot. */
    var entries: seq<LogEntry>
    var snapshot: Option<Snapshot>

    ghost function View(): Log
      reads this
    {
      if snapshot.Some?
      then Log(snapshot.value.metadata.lastIncludedIndex, snapshot.value.metadata.lastIncludedTerm, entries)
      else Log(0, 0, entries)
    }

    ghost predicate Valid()
      reads this
    {
      View().Contiguous()
    }

    constructor ()
      ensures Valid() && View() == Log(0, 0, []) && snapshot == None && hardState == HardState(0, 0, 0)
    {
      hardState := HardState(0, 0, 0);
      entries := [];
      snapshot := None;
    }

    constructor WithSnapshot(s: Snapshot)
      ensures Valid() && snapshot == Some(s) && hardState == HardState(0, 0, 0)
      ensures View() == Log(s.metadata.lastIncludedIndex, s.metadata.lastIncludedTerm, [])
    {
      hardState := HardState(0, 0, 0);
      entries := [];
      snapshot := Some(s);
    }

    method FirstIndex() returns (r: LogIndex)
      ensures r == View().FirstIndex()
    {
      r := if snapshot.Some? then snapshot.value.metadata.lastIncludedIndex + 1 else 1;
    }

    method LastIndex() returns (r: LogIndex)
      ensures r == if entries == [] then View().base else entries[|entries| - 1].index
      ensures Valid() ==> r == View().LastIndex()
    {
      if entries != [] {
        r := entries[|entries| - 1].index;
      } else if snapshot.Some? {
        r := snapshot.value.metadata.lastIncludedIndex;
      } else {
        r := 0;
      }
    }

    method TermAt(index: LogIndex) returns (r: Result<Term>)
      ensures r == View().TermAt(index)
    {
      if index == 0 {
        return Ok(0);
      }
      if snapshot.Some? {
        var meta := snapshot.value.metadata;
        if index <= meta.lastIncludedIndex {
          if index == meta.lastIncludedIndex {
            return Ok(meta.lastIncludedTerm);
          }
          return Err(LogCompacted(index, meta.lastIncludedIndex + 1));
        }
      }
      var first := FirstIndex();
      if index < first {
        return Err(LogCompacted(index, first));
      }
      var offset := index - first;
      r := if offset < |entries| then Ok(entries[offset].term) else Err(LogUnavailable(index));
    }

    method Entries(lo: LogIndex, hi: LogIndex, maxSize: Option<nat>) returns (r: Result<seq<LogEntry>>)
      requires Valid()
      ensures r == View().Read(lo, hi, maxSize)
    {
      var first := FirstIndex();
      var last := LastIndex();
      if lo < first {
        return Err(LogCompacted(lo, first));
      }
      if hi > last + 1 {
        return Err(LogUnavailable(hi));
      }
      if lo >= hi {
        return Ok([]);
      }
      var slice := entries[lo - first..hi - first];
      if maxSize.None? {
        return Ok(slice);
      }
      var capped := TakeWithin(slice, maxSize.value);
      r := Ok(capped);
    }

    /** The accumulating loop of a capped read. */
    method TakeWithin(slice: seq<LogEntry>, max: nat) returns (result: seq<LogEntry>)
      ensures result == TakeCapped(slice, max)
    {
      result := [];
      var totalBytes := 0;
      var k := 0;
      while k < |slice|
        invariant 0 <= k <= |slice| && result == slice[..k] && totalBytes == Bytes(slice[..k])
        invariant CappedLength(slice, max, 0) == CappedLength(slice, max, k)
      {
        CappedLengthStep(slice, max, k);
        hide CappedLength, Bytes;
        var size := |slice[k].data|;
        if result != [] && totalBytes + size > max {
          break;
        }
        BytesStep(slice, k);
        totalBytes := totalBytes + size;
        result := result + [slice[k]];
        k := k + 1;
      }
    }

    /** A batch that starts before the first available index makes the offset wrap around to more than any length, so
        that nothing is truncated (where overflow checks are on, the call does not return). The log stays contiguous
        exactly when the batch is contiguous, is not such a one and leaves no gap. */
    method AppendEntries(batch: seq<LogEntry>)
      requires Valid()
      modifies this`entries
      ensures Valid() <==>
              batch == [] || (old(View()).AppendInRange(batch) && ContiguousFrom(batch, batch[0].index))
      ensures View() == old(View()).Append(batch)
    {
      if batch == [] {
        return;
      }
      var first := FirstIndex();
      var last := LastIndex();
      var incomingFirst := batch[0].index;
      if incomingFirst <= last {
        var truncateAt: int := incomingFirst as int - first as int;
        if 0 <= truncateAt < |entries| {
          entries := entries[..truncateAt];
        }
      }
      ConcatContiguous(entries, batch, first);
      entries := entries + batch;
    }

    /** A snapshot older than the one held breaks contiguity unless no entries are held. */
    method ApplySnapshot(s: Snapshot)
      requires Valid()
      modifies this`entries, this`snapshot
      ensures snapshot == Some(s)
      ensures Valid() <==> s.metadata.lastIncludedIndex >= old(View()).base || old(entries) == []
      ensures s.metadata.lastIncludedIndex >= old(View()).base ==> View() == old(View()).Compact(s.metadata)
    {
      var lastIncluded := s.metadata.lastIncludedIndex;
      assert entries != [] ==> entries[0].index == View().base + 1;
      ghost var held := entries;
      var first := FirstIndex();
      if lastIncluded >= first {
        var dropCount := lastIncluded - first + 1;
        if dropCount >= |entries| {
          entries := [];
        } else {
          entries := entries[dropCount..];
        }
      }
      snapshot := Some(s);
      assert lastIncluded < old(View()).base && held != [] ==> entries[0].index != lastIncluded + 1;
    }

    method SaveHardState(hs: HardState)
      modifies this`hardState
      ensures hardState == hs
    {
      hardState := hs;
    }

    method LoadHardState() returns (hs: HardState)
      ensures hs == hardState
    {
      hs := hardState;
    }
  }
}
