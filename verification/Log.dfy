/** The log that a storage backend stands for: a compacted base plus a sequence of entries. */
module LogSpec {
  import opened Core

  /** `base` is the last index covered by a snapshot (0 without one), `baseTerm` its term. */
  datatype Log = Log(base: LogIndex, baseTerm: Term, entries: seq<LogEntry>) {

    ghost predicate Contiguous() {
      ContiguousFrom(entries, base + 1)
    }

    function FirstIndex(): LogIndex { base + 1 }

    function LastIndex(): LogIndex { base + |entries| }

    predicate Has(i: LogIndex) { base < i <= LastIndex() }

    function At(i: LogIndex): LogEntry
      requires Has(i)
    {
      entries[i - base - 1]
    }

    function TermAt(i: LogIndex): Result<Term> {
      if i == 0 then Ok(0)
      else if i < base then Err(LogCompacted(i, base + 1))
      else if i == base then Ok(baseTerm)
      else if Has(i) then Ok(At(i).term)
      else Err(LogUnavailable(i))
    }

    function Read(lo: LogIndex, hi: LogIndex, maxSize: Option<nat>): Result<seq<LogEntry>> {
      if lo < FirstIndex() then Err(LogCompacted(lo, FirstIndex()))
      else if hi > LastIndex() + 1 then Err(LogUnavailable(hi))
      else if lo >= hi then Ok([])
      else
        var slice := entries[lo - FirstIndex()..hi - FirstIndex()];
        Ok(if maxSize.Some? then TakeCapped(slice, maxSize.value) else slice)
    }

    predicate TermBelow(i: LogIndex, term: Term) {
      var t := TermAt(i);
      t.Ok? && t.value < term
    }

    /** The loop of `first_index_of_term`. */
    function SearchTerm(term: Term, lo: LogIndex, hi: LogIndex): (r: LogIndex)
      ensures lo <= hi ==> lo <= r <= hi
      decreases hi - lo
    {
      if lo < hi then
        var mid := lo + (hi - lo) / 2;
        if TermBelow(mid, term) then SearchTerm(term, mid + 1, hi) else SearchTerm(term, lo, mid)
      else lo
    }

    function FirstIndexOfTerm(term: Term, upper: LogIndex): LogIndex {
      SearchTerm(term, FirstIndex(), upper)
    }

    /** Unconditional truncation at the first incoming index, then extension; a batch that starts out of range
        truncates nothing. */
    function Append(batch: seq<LogEntry>): Log {
      if batch == [] then this
      else
        var keep := batch[0].index - FirstIndex();
        this.(entries := (if 0 <= keep < |entries| then entries[..keep] else entries) + batch)
    }

    predicate AppendInRange(batch: seq<LogEntry>) {
      batch != [] ==> FirstIndex() <= batch[0].index <= LastIndex() + 1
    }

    /** Replaces everything up to `meta.lastIncludedIndex` by a snapshot. */
    function Compact(meta: SnapshotMeta): Log
      requires meta.lastIncludedIndex >= base
    {
      var drop := meta.lastIncludedIndex - base;
      Log(meta.lastIncludedIndex, meta.lastIncludedTerm, if drop <= |entries| then entries[drop..] else [])
    }

    /** The first position of the overlap with `batch` whose terms differ, or the end of the overlap. */
    function FirstConflict(batch: seq<LogEntry>, from: nat): (k: nat)
      requires batch != [] && AppendInRange(batch)
      requires from <= |batch| && batch[0].index + from <= LastIndex() + 1
      requires (forall j | 0 <= j < from :: Overlaps(batch, j) && !ConflictsAt(batch, j))
      ensures from <= k <= |batch| && batch[0].index + k <= LastIndex() + 1
      ensures forall j | 0 <= j < k :: Overlaps(batch, j) && !ConflictsAt(batch, j)
      ensures k < |batch| && Overlaps(batch, k) ==> ConflictsAt(batch, k)
      decreases |batch| - from
    {
      if from < |batch| && Overlaps(batch, from) && !ConflictsAt(batch, from)
      then FirstConflict(batch, from + 1)
      else from
    }

    predicate Overlaps(batch: seq<LogEntry>, j: nat)
      requires batch != []
    {
      batch[0].index + j <= LastIndex()
    }

    predicate ConflictsAt(batch: seq<LogEntry>, j: nat)
      requires batch != [] && AppendInRange(batch) && j < |batch| && Overlaps(batch, j)
    {
      At(batch[0].index + j).term != batch[j].term
    }

    /** The append that the storage trait promises: find the first conflict, truncate there, append the rest. */
    function AppendByContract(batch: seq<LogEntry>): Log
      requires AppendInRange(batch)
    {
      if batch == [] then this
      else
        var k := FirstConflict(batch, 0);
        if k == |batch| then this
        else this.(entries := entries[..batch[0].index + k - FirstIndex()] + batch[k..])
    }

    /** Every overlapping entry has the batch's term. */
    ghost predicate AgreesOnOverlap(batch: seq<LogEntry>)
      requires batch != [] && AppendInRange(batch)
    {
      forall j | 0 <= j < |batch| && Overlaps(batch, j) :: !ConflictsAt(batch, j)
    }

    /** Entries with the same index and term are equal, as log matching guarantees. */
    ghost predicate Matches(batch: seq<LogEntry>)
      requires batch != [] && AppendInRange(batch)
    {
      forall j | 0 <= j < |batch| && Overlaps(batch, j) ::
        !ConflictsAt(batch, j) ==> At(batch[0].index + j) == batch[j]
    }
  }

  ghost predicate ContiguousFrom(s: seq<LogEntry>, first: LogIndex) {
    forall k | 0 <= k < |s| :: s[k].index == first + k
  }

  function Bytes(s: seq<LogEntry>): nat {
    if s == [] then 0 else Bytes(s[..|s| - 1]) + |s[|s| - 1].data|
  }

  /** How many entries of `s` a capped read returns, once `k` of them are taken. */
  function CappedLength(s: seq<LogEntry>, max: nat, k: nat): (n: nat)
    requires k <= |s|
    ensures k <= n <= |s|
    decreases |s| - k
  {
    if k == |s| then k
    else if k > 0 && Bytes(s[..k]) + |s[k].data| > max then k
    else CappedLength(s, max, k + 1)
  }

  function TakeCapped(s: seq<LogEntry>, max: nat): seq<LogEntry> {
    s[..CappedLength(s, max, 0)]
  }

  lemma BytesStep(s: seq<LogEntry>, k: nat)
    requires k < |s|
    ensures Bytes(s[..k + 1]) == Bytes(s[..k]) + |s[k].data|
  {
    assert s[..k + 1][..k] == s[..k];
  }

  lemma {:induction false} BytesMonotone(s: seq<LogEntry>, j: nat, k: nat)
    requires j <= k <= |s|
    ensures Bytes(s[..j]) <= Bytes(s[..k])
    decreases k - j
  {
    if j < k {
      BytesStep(s, j);
      BytesMonotone(s, j + 1, k);
    }
  }

  lemma {:induction false} CappedLengthIsMaximal(s: seq<LogEntry>, max: nat, k: nat)
    requires k <= |s|
    requires k <= 1 || Bytes(s[..k]) <= max
    ensures var n := CappedLength(s, max, k);
            && (s != [] ==> n >= 1)
            && (n <= 1 || Bytes(s[..n]) <= max)
            && (n < |s| ==> Bytes(s[..n + 1]) > max)
    decreases |s| - k
  {
    if k < |s| {
      BytesStep(s, k);
      if !(k > 0 && Bytes(s[..k]) + |s[k].data| > max) {
        CappedLengthIsMaximal(s, max, k + 1);
      }
    }
  }

  /** A capped read is the longest affordable prefix, but never empty on a non-empty range. */
  lemma CappedReadIsMaximal(s: seq<LogEntry>, max: nat)
    ensures var r := TakeCapped(s, max);
            && r <= s
            && (s != [] ==> r != [])
            && (|r| <= 1 || Bytes(r) <= max)
            && forall j | |r| < j <= |s| :: Bytes(s[..j]) > max
  {
    CappedLengthIsMaximal(s, max, 0);
    var n := CappedLength(s, max, 0);
    forall j | n < j <= |s|
      ensures Bytes(s[..j]) > max
    {
      BytesMonotone(s, n + 1, j);
    }
  }

  /** `TermAt` answers every index: zero, compacted, boundary, present or unavailable. */
  lemma TermClassifies(log: Log, i: LogIndex)
    requires log.Contiguous()
    ensures i == 0 ==> log.TermAt(i) == Ok(0)
    ensures 0 < i < log.base <==> log.TermAt(i) == Err(LogCompacted(i, log.base + 1))
    ensures i > log.LastIndex() <==> log.TermAt(i) == Err(LogUnavailable(i))
    ensures i == log.base > 0 ==> log.TermAt(i) == Ok(log.baseTerm)
    ensures log.base < i <= log.LastIndex() <==>
            exists e :: e in log.entries && e.index == i && log.TermAt(i) == Ok(e.term)
  {
    if log.base < i <= log.LastIndex() {
      assert log.At(i) in log.entries && log.At(i).index == i;
    }
  }

  /** The entries from `lo` up to, not including, `hi`. */
  ghost function Asked(log: Log, lo: LogIndex, hi: LogIndex): seq<LogEntry>
    requires log.base < lo <= hi <= log.LastIndex() + 1
  {
    log.entries[lo - log.FirstIndex()..hi - log.FirstIndex()]
  }

  /** A read answers every range: compacted, out of reach, or the entries asked for, in order, cut short at the end only
      by the cap. */
  lemma ReadClassifies(log: Log, lo: LogIndex, hi: LogIndex, maxSize: Option<nat>)
    ensures var r := log.Read(lo, hi, maxSize);
            && (lo <= log.base <==> r == Err(LogCompacted(lo, log.base + 1)))
            && (lo > log.base && hi > log.LastIndex() + 1 <==> r == Err(LogUnavailable(hi)))
            && (lo > log.base && hi <= log.LastIndex() + 1 <==> r.Ok?)
            && (r.Ok? ==>
                  && (r.value == [] <==> lo >= hi)
                  && |r.value| <= (if lo < hi then hi - lo else 0)
                  && (maxSize.None? && lo < hi ==> |r.value| == hi - lo)
                  && forall k | 0 <= k < |r.value| :: r.value[k] == log.At(lo + k))
            && (r.Ok? && lo < hi && maxSize.Some? ==>
                  && (|r.value| == 1 || Bytes(r.value) <= maxSize.value)
                  && forall k | |r.value| < k <= hi - lo ::
                    Bytes(Asked(log, lo, hi)[..k]) > maxSize.value)
  {
    if lo > log.base && lo < hi <= log.LastIndex() + 1 && maxSize.Some? {
      CappedReadIsMaximal(log.entries[lo - log.FirstIndex()..hi - log.FirstIndex()], maxSize.value);
    }
    hide TakeCapped, Bytes;
  }

  /** Compaction changes no answer above the snapshot, except that an empty range ending between the old end of the
      log and a snapshot beyond it becomes readable. */
  lemma CompactionPreservesAnswers(log: Log, meta: SnapshotMeta, i: LogIndex, hi: LogIndex, maxSize: Option<nat>)
    requires log.Contiguous() && meta.lastIncludedIndex >= log.base
    requires i > meta.lastIncludedIndex
    ensures log.Compact(meta).Contiguous()
    ensures log.Compact(meta).TermAt(i) == log.TermAt(i)
    ensures log.Compact(meta).Read(i, hi, maxSize) == log.Read(i, hi, maxSize) <==>
            !(log.LastIndex() + 1 < hi <= meta.lastIncludedIndex + 1)
  {
    CompactionKeepsReads(log, meta, i, hi, maxSize);
    hide Log.Read;
  }

  /** And it covers everything up to there: the snapshot's own term at its index, nothing readable below. */
  lemma CompactionCovers(log: Log, meta: SnapshotMeta, i: LogIndex, hi: LogIndex, maxSize: Option<nat>)
    requires meta.lastIncludedIndex >= log.base && 0 < i <= meta.lastIncludedIndex
    ensures var after := log.Compact(meta);
            && after.TermAt(i) == (if i == meta.lastIncludedIndex then Ok(meta.lastIncludedTerm)
                                   else Err(LogCompacted(i, meta.lastIncludedIndex + 1)))
            && after.Read(i, hi, maxSize) == Err(LogCompacted(i, meta.lastIncludedIndex + 1))
            && after.LastIndex() == (if meta.lastIncludedIndex > log.LastIndex() then meta.lastIncludedIndex
                                     else log.LastIndex())
  {
  }

  lemma CompactionKeepsReads(log: Log, meta: SnapshotMeta, i: LogIndex, hi: LogIndex, maxSize: Option<nat>)
    requires meta.lastIncludedIndex >= log.base && i > meta.lastIncludedIndex
    ensures log.Compact(meta).Read(i, hi, maxSize) == log.Read(i, hi, maxSize) <==>
            !(log.LastIndex() + 1 < hi <= meta.lastIncludedIndex + 1)
  {
    hide TakeCapped;
    var after := log.Compact(meta);
    if i < hi <= log.LastIndex() + 1 {
      assert after.entries[i - after.FirstIndex()..hi - after.FirstIndex()]
          == log.entries[i - log.FirstIndex()..hi - log.FirstIndex()];
    }
  }

  /** After an append: the old answers below the batch, the batch's own in its range, nothing beyond it. */
  lemma AppendAnswers(log: Log, batch: seq<LogEntry>, i: LogIndex)
    requires log.Contiguous() && batch != [] && log.AppendInRange(batch) && ContiguousFrom(batch, batch[0].index)
    ensures var after, start := log.Append(batch), batch[0].index;
            && after.Contiguous() && after.LastIndex() == batch[|batch| - 1].index
            && after.TermAt(i) == (if i < start then log.TermAt(i)
                                   else if i < start + |batch| then Ok(batch[i - start].term)
                                   else Err(LogUnavailable(i)))
            && after.Read(start, start + |batch|, None) == Ok(batch)
  {
    var kept := log.entries[..batch[0].index - log.FirstIndex()];
    AppendInPlace(log, batch);
    MiddleOf(kept, batch);
    hide Log.Append;
    var after := log.Append(batch);
    assert after.Has(i) ==> after.At(i) == if i < batch[0].index then log.At(i) else batch[i - batch[0].index];
  }

  /** A batch that starts out of range ends up behind everything else, and the log is no longer contiguous. */
  lemma OutOfRangeBatch(log: Log, batch: seq<LogEntry>)
    requires log.Contiguous() && !log.AppendInRange(batch)
    ensures log.Append(batch).entries == log.entries + batch && !log.Append(batch).Contiguous()
  {
    assert (log.entries + batch)[|log.entries|] == batch[0];
  }

  lemma AppendInPlace(log: Log, batch: seq<LogEntry>)
    requires batch != [] && log.AppendInRange(batch)
    ensures log.Append(batch) == log.(entries := log.entries[..batch[0].index - log.FirstIndex()] + batch)
  {
    assert log.entries[..|log.entries|] == log.entries;
  }

  lemma MiddleOf(kept: seq<LogEntry>, batch: seq<LogEntry>)
    ensures (kept + batch)[|kept|..|kept| + |batch|] == batch
  {
  }

  ghost predicate TermsSorted(s: seq<LogEntry>) {
    forall j, k | 0 <= j < k < |s| :: s[j].term <= s[k].term
  }

  lemma SortedAt(log: Log, i: LogIndex, j: LogIndex)
    requires TermsSorted(log.entries) && log.Has(i) && log.Has(j) && i <= j
    ensures log.At(i).term <= log.At(j).term
  {
  }

  lemma TermsBelowUpTo(log: Log, term: Term, mid: LogIndex)
    requires TermsSorted(log.entries) && log.Has(mid) && log.TermBelow(mid, term)
    ensures forall j | log.base < j <= mid :: log.TermBelow(j, term)
  {
    forall j | log.base < j <= mid ensures log.TermBelow(j, term) {
      SortedAt(log, j, mid);
    }
  }

  lemma {:induction false} SearchIsLeast(log: Log, term: Term, lo: LogIndex, hi: LogIndex)
    requires TermsSorted(log.entries) && log.base < lo <= hi <= log.LastIndex() && !log.TermBelow(hi, term)
    requires forall j | log.base < j < lo :: log.TermBelow(j, term)
    ensures var r := log.SearchTerm(term, lo, hi);
            !log.TermBelow(r, term) && forall j | log.base < j < r :: log.TermBelow(j, term)
    decreases hi - lo
  {
    hide TermsSorted, Log.TermBelow;
    if lo < hi {
      var mid := lo + (hi - lo) / 2;
      if log.TermBelow(mid, term) {
        TermsBelowUpTo(log, term, mid);
        SearchIsLeast(log, term, mid + 1, hi);
      } else {
        SearchIsLeast(log, term, lo, mid);
      }
    }
  }

  /** On a term-sorted log, compacted or not, the binary search returns the least available index with the term
      found at `upper`. */
  lemma FirstIndexOfTermIsLeast(log: Log, upper: LogIndex)
    requires TermsSorted(log.entries) && log.Has(upper)
    ensures var t := log.At(upper).term; var r := log.FirstIndexOfTerm(t, upper);
            && log.FirstIndex() <= r <= upper
            && forall j | log.FirstIndex() <= j <= upper :: j < r <==> log.At(j).term != t
  {
    var t := log.At(upper).term;
    var r := log.FirstIndexOfTerm(t, upper);
    SearchIsLeast(log, t, log.FirstIndex(), upper);
    forall j | log.FirstIndex() <= j <= upper ensures j < r <==> log.At(j).term != t {
      hide Log.SearchTerm;
      SortedAt(log, j, upper);
      if j < r {
        assert log.TermBelow(j, t);
      } else {
        assert !log.TermBelow(r, t);
        SortedAt(log, r, j);
      }
    }
  }

  /** On matching logs the code's append meets the trait's contract, except exactly when
      it drops a tail the batch does not contradict. */
  lemma AppendMeetsContractIff(log: Log, batch: seq<LogEntry>)
    requires batch != [] && log.AppendInRange(batch) && log.Matches(batch)
    ensures log.Append(batch) == log.AppendByContract(batch) <==>
            !(log.AgreesOnOverlap(batch) && batch[0].index + |batch| <= log.LastIndex())
  {
    var start := batch[0].index - log.FirstIndex();
    var k := log.FirstConflict(batch, 0);
    forall j | 0 <= j < k
      ensures log.entries[start + j] == batch[j]
    {
      assert log.Overlaps(batch, j) && !log.ConflictsAt(batch, j);
      assert log.At(batch[0].index + j) == batch[j];
    }
    if k == |batch| {
      assert log.AppendByContract(batch) == log;
      assert |log.Append(batch).entries| == start + |batch|;
      if |log.entries| == start + |batch| {
        assert log.Append(batch).entries == log.entries;
      }
    } else {
      assert log.entries[..start + k] == log.entries[..start] + batch[..k];
      assert log.entries[..start] + batch == log.entries[..start] + batch[..k] + batch[k..];
    }
  }
}
