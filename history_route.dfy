/**
 * The analysis-history endpoint: GET lists the stored history, POST upserts one record by
 * its task id through a read-modify-write of the store. Requests are handled one at a
 * time.
 */
module HistoryRoute {
  import opened Wrappers
  import opened Seqs
  import opened HistoryStore

  datatype GetReply = HistoryListed(history: seq<Record>) | GetFailed(code: int, error: string)

  /**
   * GET: the history as `readHistory` returns it. The handler answers 500 only when
   * `readHistory` throws, which happens when the file is missing and cannot be created; a
   * failing `readFile` is swallowed and lists [].
   */
  method Get(store: Store, faults: IoFaults) returns (reply: GetReply)
    modifies store
    ensures CreateFails(old(store.file), faults) ==>
      reply == GetFailed(500, "Unable to load analysis history.") && store.file == faults.leftover
    ensures !CreateFails(old(store.file), faults) ==>
      store.file == Some(Ensured(old(store.file))) && reply == HistoryListed(HistoryRead(old(store.file), faults))
  {
    var history := store.ReadHistory(faults);
    if history.None? {
      return GetFailed(500, "Unable to load analysis history.");
    }
    return HistoryListed(history.value);
  }

  /** A POST body: not JSON, JSON `null`, or a record. */
  datatype PostBody = Malformed | NullBody | Payload(record: Record)

  datatype PostReply = Persisted(record: Record) | PostFailed(code: int, error: string)

  /** The record as the server stores it. */
  function Tagged(payload: Record): (r: Record)
    ensures r.persistedBy == Some(Server)
    ensures r.(persistedBy := payload.persistedBy) == payload
  {
    payload.(persistedBy := Some(Server))
  }

  function WithoutTask(history: seq<Record>, taskId: string): (r: seq<Record>)
    ensures forall x | x in r :: x.taskId != taskId
    ensures forall x | x in history && x.taskId != taskId :: x in r
  {
    Filter(history, (x: Record) => x.taskId != taskId)
  }

  /** The list POST hands to `writeHistory`. */
  function UpsertInput(history: seq<Record>, payload: Record): seq<Record> {
    [Tagged(payload)] + WithoutTask(history, payload.taskId)
  }

  /** What the store holds after POSTing `payload` onto `history`. */
  function Upserted(history: seq<Record>, payload: Record): seq<Record> {
    Sanitize(UpsertInput(history, payload))
  }

  const PERSIST_FAILED: string := "Unable to persist analysis history."

  /**
   * POST: reject a body without a task id; otherwise drop the stored records with the
   * payload's task id, put the tagged payload in front and write the list back. The reply
   * echoes the payload as received. A throwing `readHistory` or `writeHistory` gives 500
   * and leaves the file as the failed call left it; a swallowed read error posts onto [].
   */
  method Post(store: Store, body: PostBody, faults: IoFaults) returns (reply: PostReply)
    modifies store
    ensures body.Malformed? ==> reply == PostFailed(500, PERSIST_FAILED) && store.file == old(store.file)
    ensures body.NullBody? || (body.Payload? && !HasTaskId(body.record)) ==>
      reply == PostFailed(400, "taskId is required.") && store.file == old(store.file)
    ensures body.Payload? && HasTaskId(body.record) && (CreateFails(old(store.file), faults) || faults.writeFails) ==>
      reply == PostFailed(500, PERSIST_FAILED) && store.file == faults.leftover
    ensures body.Payload? && HasTaskId(body.record) && !CreateFails(old(store.file), faults) && !faults.writeFails ==>
      reply == Persisted(body.record)
      && store.file == Some(RecordArray(Upserted(HistoryRead(old(store.file), faults), body.record)))
  {
    if body.Malformed? {
      return PostFailed(500, PERSIST_FAILED);
    }
    if body.NullBody? || body.record.taskId == "" {
      return PostFailed(400, "taskId is required.");
    }
    var payload := body.record;
    var history := store.ReadHistory(faults);
    if history.None? {
      return PostFailed(500, PERSIST_FAILED);
    }
    var withoutCurrent := WithoutTask(history.value, payload.taskId);
    var updatedHistory := [Tagged(payload)] + withoutCurrent;
    var written := store.WriteHistory(updatedHistory, faults);
    if !written {
      return PostFailed(500, PERSIST_FAILED);
    }
    return Persisted(payload);
  }

  /**
   * A `readFile` error is swallowed as an empty history, so the POST then stores the
   * tagged payload alone: every other stored record is lost.
   */
  lemma ReadErrorWipesHistory(file: Option<FileContent>, faults: IoFaults, payload: Record)
    requires faults.readFails && HasTaskId(payload)
    ensures Upserted(HistoryRead(file, faults), payload) == [Tagged(payload)]
  {
    var input := UpsertInput([], payload);
    assert WithoutTask([], payload.taskId) == [];
    assert input == [Tagged(payload)];
    assert Filter(input, HasTaskId) == [Tagged(payload)];
    SanitizeKeepsAllWhenFew(input);
    var r := Sanitize(input);
    assert multiset(r) == multiset{Tagged(payload)};
    assert |r| == 1;
    assert r[0] in multiset(r);
  }

  /**
   * After a POST at most one stored record has the payload's task id, and it is the
   * tagged payload itself: older records with that id are replaced wholesale, not merged.
   */
  lemma UpsertOneRecordPerTask(history: seq<Record>, payload: Record)
    requires HasTaskId(payload)
    ensures forall y | y in Upserted(history, payload) && y.taskId == payload.taskId :: y == Tagged(payload)
    ensures forall i, j | 0 <= i < j < |Upserted(history, payload)| ::
      Upserted(history, payload)[i].taskId != payload.taskId || Upserted(history, payload)[j].taskId != payload.taskId
  {
    var input := UpsertInput(history, payload);
    var w := WithoutTask(history, payload.taskId);
    assert Tagged(payload) !in w;
    assert multiset(input) == multiset{Tagged(payload)} + multiset(w);
    OnlyCopyOfTask(Upserted(history, payload), input, Tagged(payload));
  }

  /**
   * A list drawn from `input`, which holds `t` once and no other record with its task id,
   * holds at most one record with that task id, and that record is `t`.
   */
  lemma OnlyCopyOfTask(r: seq<Record>, input: seq<Record>, t: Record)
    requires multiset(r) <= multiset(input)
    requires multiset(input)[t] == 1
    requires forall y | y in input && y.taskId == t.taskId :: y == t
    ensures forall y | y in r && y.taskId == t.taskId :: y == t
    ensures forall i, j | 0 <= i < j < |r| :: r[i].taskId != t.taskId || r[j].taskId != t.taskId
  {
    forall y | y in r && y.taskId == t.taskId
      ensures y == t
    {
      assert y in multiset(input);
    }
    forall i, j | 0 <= i < j < |r|
      ensures r[i].taskId != t.taskId || r[j].taskId != t.taskId
    {
      if r[i].taskId == t.taskId && r[j].taskId == t.taskId {
        assert r[i] in r && r[j] in r;
        TwoOccurrences(r, i, j);
      }
    }
  }

  /**
   * When the cap is not reached, a POST keeps every stored record that has a task id
   * other than the payload's, and stores the tagged payload.
   */
  lemma UpsertKeepsOthers(history: seq<Record>, payload: Record)
    requires HasTaskId(payload)
    requires CountWhere(UpsertInput(history, payload), HasTaskId) <= MAX_HISTORY_ITEMS
    ensures Tagged(payload) in Upserted(history, payload)
    ensures forall x | x in history && HasTaskId(x) && x.taskId != payload.taskId :: x in Upserted(history, payload)
  {
    var input := UpsertInput(history, payload);
    SanitizeKeepsAllWhenFew(input);
    assert Tagged(payload) == input[0];
    assert Tagged(payload) in Filter(input, HasTaskId);
    assert Tagged(payload) in multiset(Sanitize(input));
    forall x | x in history && HasTaskId(x) && x.taskId != payload.taskId
      ensures x in Upserted(history, payload)
    {
      assert x in input;
      assert x in Filter(input, HasTaskId);
      assert x in multiset(Sanitize(input));
    }
  }

  /** Records in `history` with a task id other than `taskId` completed after `t`. */
  function OthersNewerThan(taskId: string, t: int): Record -> bool {
    (x: Record) => HasTaskId(x) && x.taskId != taskId && x.completedAt > t
  }

  /**
   * Prepending does not protect the posted record: if 100 stored records with other task
   * ids completed after it, no record with its task id is stored.
   */
  lemma UpsertEvictsOldPayload(history: seq<Record>, payload: Record)
    requires HasTaskId(payload)
    requires CountWhere(history, OthersNewerThan(payload.taskId, payload.completedAt)) >= MAX_HISTORY_ITEMS
    ensures forall y | y in Upserted(history, payload) :: y.taskId != payload.taskId
  {
    var t := payload.completedAt;
    var notId := (x: Record) => x.taskId != payload.taskId;
    var w := WithoutTask(history, payload.taskId);
    var input := UpsertInput(history, payload);
    FilterAppend([Tagged(payload)], w, HasTaskId);
    assert input == [Tagged(payload)] + w;
    assert Filter([Tagged(payload)], HasTaskId) == [Tagged(payload)];
    CountWhereAppend([Tagged(payload)], Filter(w, HasTaskId), NewerThan(t));
    var idAndNewer := (x: Record) => HasTaskId(x) && x.completedAt > t;
    CountAfterFilter(w, HasTaskId, NewerThan(t), idAndNewer);
    CountAfterFilter(history, notId, idAndNewer, OthersNewerThan(payload.taskId, t));
    assert CountWhere(Filter(input, HasTaskId), NewerThan(t)) >= MAX_HISTORY_ITEMS;
    EvictsWhenHundredNewer(input, t);
    UpsertOneRecordPerTask(history, payload);
  }
}
