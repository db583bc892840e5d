/**
 * The server-side analysis history: a JSON file holding at most 100 records, newest
 * first, every one with a task id. Every write filters, sorts by completion time (a
 * stable sort) and caps the list before replacing the file's content.
 *
 * The file is a field of the store: missing, or holding a record array, some other JSON
 * value, or text that does not parse. Record timestamps are milliseconds since the epoch.
 */
module HistoryStore {
  import opened Wrappers
  import opened Seqs

  const MAX_HISTORY_ITEMS: nat := 100

  datatype HistoryStatus = HistorySuccess | HistoryFailed
  datatype Persister = Server | Client

  /** A JSON value the history carries without inspecting it (a result, metadata). */
  datatype Blob = Blob(id: nat)

  datatype ProgressSnapshot = ProgressSnapshot(
    timestamp: string, status: string, currentStatus: Option<string>, progress: Option<int>)

  /** One history record. A missing `taskId` is represented by "", which is just as falsy. */
  datatype Record = Record(
    taskId: string,
    fileName: Option<string>,
    status: HistoryStatus,
    startedAt: string,
    completedAt: int,
    result: Option<Blob>,
    error: Option<string>,
    metadata: Option<Blob>,
    progressHistory: Option<seq<ProgressSnapshot>>,
    persistedBy: Option<Persister>)

  predicate HasTaskId(r: Record) {
    r.taskId != ""
  }

  predicate NewestFirst(s: seq<Record>) {
    forall i, j | 0 <= i < j < |s| :: s[j].completedAt <= s[i].completedAt
  }

  /** Insert `x` before the first record that is not newer than it. */
  function Insert(x: Record, s: seq<Record>): (r: seq<Record>)
    ensures multiset(r) == multiset(s) + multiset{x}
  {
    if s == [] || s[0].completedAt <= x.completedAt then [x] + s
    else
      assert s == [s[0]] + s[1..];
      [s[0]] + Insert(x, s[1..])
  }

  lemma {:induction false} InsertSorted(x: Record, s: seq<Record>)
    requires NewestFirst(s)
    ensures NewestFirst(Insert(x, s))
  {
    if !(s == [] || s[0].completedAt <= x.completedAt) {
      InsertSorted(x, s[1..]);
      var rest := Insert(x, s[1..]);
      forall j | 0 <= j < |rest|
        ensures rest[j].completedAt <= s[0].completedAt
      {
        assert rest[j] in multiset(rest);
        if rest[j] != x {
          assert rest[j] in multiset(s[1..]);
        }
      }
    }
  }

  /** The stable sort by `completedAt`, newest first, that `writeHistory` applies. */
  function SortNewestFirst(s: seq<Record>): (r: seq<Record>)
    ensures multiset(r) == multiset(s)
    ensures NewestFirst(r)
  {
    if s == [] then []
    else
      assert s == [s[0]] + s[1..];
      InsertSorted(s[0], SortNewestFirst(s[1..]));
      Insert(s[0], SortNewestFirst(s[1..]))
  }

  /** Sorting a list that is already newest first leaves it as it is: the sort is stable. */
  lemma {:induction false} SortKeepsSorted(s: seq<Record>)
    requires NewestFirst(s)
    ensures SortNewestFirst(s) == s
  {
    if s != [] {
      SortKeepsSorted(s[1..]);
    }
  }

  function NewerThan(t: int): Record -> bool {
    (r: Record) => r.completedAt > t
  }

  lemma {:induction false} InsertCount(x: Record, s: seq<Record>, p: Record -> bool)
    ensures CountWhere(Insert(x, s), p) == CountWhere([x] + s, p)
  {
    if !(s == [] || s[0].completedAt <= x.completedAt) {
      InsertCount(x, s[1..], p);
      assert ([x] + s)[1..] == s;
      assert ([s[0]] + Insert(x, s[1..]))[1..] == Insert(x, s[1..]);
      assert ([x] + s[1..])[1..] == s[1..];
    }
  }

  lemma {:induction false} SortCount(s: seq<Record>, p: Record -> bool)
    ensures CountWhere(SortNewestFirst(s), p) == CountWhere(s, p)
  {
    if s != [] {
      SortCount(s[1..], p);
      InsertCount(s[0], SortNewestFirst(s[1..]), p);
      assert ([s[0]] + SortNewestFirst(s[1..]))[1..] == SortNewestFirst(s[1..]);
    }
  }

  /** JavaScript `slice(0, n)` for n >= 0. */
  function Take(s: seq<Record>, n: nat): (r: seq<Record>)
    ensures |r| == if |s| <= n then |s| else n
    ensures r == s[..|r|]
  {
    if |s| <= n then s else s[..n]
  }

  /** What `writeHistory` stores for `records`. */
  function Sanitize(records: seq<Record>): (r: seq<Record>)
    ensures |r| <= MAX_HISTORY_ITEMS
    ensures forall x | x in r :: HasTaskId(x)
    ensures NewestFirst(r)
    ensures multiset(r) <= multiset(records)
  {
    var filtered := Filter(records, HasTaskId);
    var sorted := SortNewestFirst(filtered);
    var r := Take(sorted, MAX_HISTORY_ITEMS);
    PrefixSubMultiset(sorted, MAX_HISTORY_ITEMS);
    PrefixNewestFirst(sorted, MAX_HISTORY_ITEMS);
    DrawnFrom(r, filtered);
    r
  }

  lemma PrefixNewestFirst(s: seq<Record>, n: nat)
    requires NewestFirst(s)
    ensures NewestFirst(Take(s, n))
  {
  }

  /** Every record of a sub-multiset of `s` is in `s`. */
  lemma DrawnFrom(r: seq<Record>, s: seq<Record>)
    requires multiset(r) <= multiset(s)
    ensures forall x | x in r :: x in s
  {
    forall x | x in r ensures x in s {
      assert x in multiset(r);
    }
  }

  lemma PrefixSubMultiset(s: seq<Record>, n: nat)
    ensures multiset(Take(s, n)) <= multiset(s)
  {
    var r := Take(s, n);
    assert s == r + s[|r|..];
    assert multiset(s) == multiset(r) + multiset(s[|r|..]);
  }

  /** A record with a task id that is not stored is no newer than every stored record, and the store is full. */
  lemma NoDroppedRecordIsNewer(records: seq<Record>, x: Record)
    requires x in records && HasTaskId(x) && x !in Sanitize(records)
    ensures |Sanitize(records)| == MAX_HISTORY_ITEMS
    ensures forall y | y in Sanitize(records) :: x.completedAt <= y.completedAt
  {
    var sorted := SortNewestFirst(Filter(records, HasTaskId));
    assert x in Filter(records, HasTaskId);
    assert x in multiset(sorted);
    DroppedIsOlder(sorted, MAX_HISTORY_ITEMS, x);
  }

  /** A record cut off a newest-first list is no newer than any kept one, and the cut was made. */
  lemma DroppedIsOlder(sorted: seq<Record>, n: nat, x: Record)
    requires NewestFirst(sorted) && x in sorted && x !in Take(sorted, n)
    ensures |Take(sorted, n)| == n
    ensures forall y | y in Take(sorted, n) :: x.completedAt <= y.completedAt
  {
    var r := Take(sorted, n);
    var k :| 0 <= k < |sorted| && sorted[k] == x;
    assert k >= |r|;
  }

  /** With at most 100 records carrying a task id, only the ones without an id are dropped. */
  lemma SanitizeKeepsAllWhenFew(records: seq<Record>)
    requires CountWhere(records, HasTaskId) <= MAX_HISTORY_ITEMS
    ensures multiset(Sanitize(records)) == multiset(Filter(records, HasTaskId))
  {
  }

  /** Writing back exactly what is stored stores the same list again. */
  lemma {:induction false} SanitizeIdempotent(records: seq<Record>)
    ensures Sanitize(Sanitize(records)) == Sanitize(records)
  {
    var r := Sanitize(records);
    FilterKeepsAll(r, HasTaskId);
    SortKeepsSorted(r);
  }

  /** In a newest-first list, fewer records than `x`'s position are newer than `x`. */
  lemma NewerCountBelowPosition(s: seq<Record>, i: nat)
    requires NewestFirst(s) && i < |s|
    ensures CountWhere(s, NewerThan(s[i].completedAt)) <= i
  {
    var p := NewerThan(s[i].completedAt);
    assert s == s[..i] + s[i..];
    CountWhereAppend(s[..i], s[i..], p);
    assert forall j | 0 <= j < |s[i..]| :: !p(s[i..][j]);
  }

  /**
   * Once 100 records with a task id are newer than `t`, nothing completed at `t` or
   * earlier is kept.
   */
  lemma EvictsWhenHundredNewer(records: seq<Record>, t: int)
    requires CountWhere(Filter(records, HasTaskId), NewerThan(t)) >= MAX_HISTORY_ITEMS
    ensures forall y | y in Sanitize(records) :: y.completedAt > t
  {
    var sorted := SortNewestFirst(Filter(records, HasTaskId));
    SortCount(Filter(records, HasTaskId), NewerThan(t));
    var r := Sanitize(records);
    forall y | y in r
      ensures y.completedAt > t
    {
      var i :| 0 <= i < |r| && r[i] == y;
      assert sorted[i] == y;
      if y.completedAt <= t {
        NewerCountBelowPosition(sorted, i);
        var q := NewerThan(y.completedAt);
        CountMonotone(sorted, NewerThan(t), q);
      }
    }
  }

  lemma {:induction false} CountMonotone(s: seq<Record>, p: Record -> bool, q: Record -> bool)
    requires forall x :: p(x) ==> q(x)
    ensures CountWhere(s, p) <= CountWhere(s, q)
  {
    if s != [] {
      CountMonotone(s[1..], p, q);
    }
  }

  // ---------------------------------------------------------------------------
  // The history file

  datatype FileContent = RecordArray(records: seq<Record>) | OtherJson | Unparsable

  /** What `readHistory` makes of the file's content. */
  function Parsed(content: FileContent): (records: seq<Record>)
    ensures !content.RecordArray? ==> records == []
  {
    if content.RecordArray? then content.records else []
  }

  /** The file after `ensureHistoryFile`: a missing file now holds `[]`. */
  function Ensured(file: Option<FileContent>): (content: FileContent)
    ensures file.Some? ==> content == file.value
    ensures file.None? ==> Parsed(content) == []
  {
    if file.Some? then file.value else RecordArray([])
  }

  /**
   * How the file system answers one request. `createFails`: creating the missing file
   * (`mkdir` or the first `writeFile`) throws; `readFails`: `readFile` throws;
   * `writeFails`: the final `writeFile` throws. A failed creation or write leaves the file
   * in the state `leftover`, since `writeFile` truncates before it writes. `fs.access`
   * only tests that the file exists.
   */
  datatype IoFaults = IoFaults(createFails: bool, readFails: bool, writeFails: bool, leftover: Option<FileContent>)

  const NO_FAULTS: IoFaults := IoFaults(false, false, false, None)

  /** `ensureHistoryFile` throws: the file is missing and cannot be created. */
  predicate CreateFails(file: Option<FileContent>, faults: IoFaults) {
    file.None? && faults.createFails
  }

  /** What a `readHistory` that does not throw returns: [] when `readFile` throws. */
  function HistoryRead(file: Option<FileContent>, faults: IoFaults): (records: seq<Record>)
    ensures faults.readFails ==> records == []
    ensures !faults.readFails && file.Some? ==> records == Parsed(file.value)
    ensures file.None? ==> records == []
  {
    if faults.readFails then [] else Parsed(Ensured(file))
  }

  class Store {
    /** The history file; `None` while it does not exist. */
    var file: Option<FileContent>

    constructor(file: Option<FileContent>)
      ensures this.file == file
    {
      this.file := file;
    }

    /**
     * `ensureHistoryFile`: create a missing file holding `[]`. `ok` is false when it
     * throws, and the file is then what the failed creation left.
     */
    method EnsureHistoryFile(faults: IoFaults) returns (ok: bool)
      modifies this
      ensures ok == !CreateFails(old(file), faults)
      ensures ok ==> file == Some(Ensured(old(file)))
      ensures !ok ==> file == faults.leftover
    {
      if file.None? {
        if faults.createFails {
          file := faults.leftover;
          return false;
        }
        file := Some(RecordArray([]));
      }
      return true;
    }

    /**
     * `readHistory`: `None` when ensuring the file throws; otherwise the stored records,
     * or [] when the content is not a record array or reading it throws.
     */
    method ReadHistory(faults: IoFaults) returns (records: Option<seq<Record>>)
      modifies this
      ensures CreateFails(old(file), faults) ==> records.None? && file == faults.leftover
      ensures !CreateFails(old(file), faults) ==>
        file == Some(Ensured(old(file))) && records == Some(HistoryRead(old(file), faults))
    {
      var ok := EnsureHistoryFile(faults);
      if !ok {
        return None;
      }
      if faults.readFails {
        return Some([]);
      }
      match file.value {
        case RecordArray(rs) => records := Some(rs);
        case _ => records := Some([]);
      }
    }

    /**
     * `writeHistory`: replace the file's content by the sanitized records. `ok` is false
     * when ensuring the file or the write throws, and the file is then what the failed
     * call left.
     */
    method WriteHistory(records: seq<Record>, faults: IoFaults) returns (ok: bool)
      modifies this
      ensures ok == (!CreateFails(old(file), faults) && !faults.writeFails)
      ensures ok ==> file == Some(RecordArray(Sanitize(records)))
      ensures !ok ==> file == faults.leftover
    {
      var sanitized := Sanitize(records);
      ok := EnsureHistoryFile(faults);
      if !ok {
        return;
      }
      if faults.writeFails {
        file := faults.leftover;
        return false;
      }
      file := Some(RecordArray(sanitized));
    }
  }
}
