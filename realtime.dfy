/**
  The realtime hook: a snapshot of the rows of one table that concern one
  viewer, loaded once and then kept current by the table's change events.
  The backend query, the change channel and the toasts are outside the model;
  what the query selects is `LoadFilter`, what it returns is a parameter.
 */
module Realtime {
  import opened Values
  import opened Seqs

  /** A change event as the channel delivers it (`eventType`, `new`, `old`). */
  datatype ChangeEvent = ChangeEvent(eventType: string, newRecord: Record, oldRecord: Record)

  function Id(r: Record): Value
  {
    Get(r, "id")
  }

  predicate HasId(data: seq<Record>, id: Value)
  {
    exists i :: 0 <= i < |data| && Id(data[i]) == id
  }

  /** No two records of the snapshot share an `id`. */
  predicate IdsDistinct(data: seq<Record>)
  {
    forall i, j :: 0 <= i < j < |data| ==> Id(data[i]) != Id(data[j])
  }

  /** A column missing from a row reads as SQL NULL. */
  predicate IsSqlNull(v: Value)
  {
    v.Null? || v.Undefined?
  }

  /** What the initial load's query selects, per table and role. */
  predicate LoadFilter(table: string, userId: string, userType: string, r: Record)
  {
    if table == "cleaning_requests" then
      if userType == "landlord" then Get(r, "landlord_id") == Str(userId)
      else IsSqlNull(Get(r, "cleaner_id")) || Get(r, "cleaner_id") == Str(userId)
    else if table == "properties" then Get(r, "landlord_id") == Str(userId)
    else if table == "messages" then Get(r, "sender_id") == Str(userId) || Get(r, "recipient_id") == Str(userId)
    else true
  }

  /** Whether a change event concerns the viewer; it reads only the event's new record. */
  predicate Relevant(table: string, userId: string, newRecord: Record)
  {
    if table == "properties" then Get(newRecord, "landlord_id") == Str(userId)
    else if table == "cleaning_requests" then
      Get(newRecord, "landlord_id") == Str(userId) || Get(newRecord, "cleaner_id") == Str(userId)
    else if table == "messages" then
      Get(newRecord, "sender_id") == Str(userId) || Get(newRecord, "recipient_id") == Str(userId)
    else true
  }

  /** The snapshot after a load: the rows, or nothing when the query failed or returned no data. */
  function Loaded(result: QueryResult): (r: seq<Record>)
    ensures result.error ==> r == []
    ensures !result.error && result.data.Some? ==> r == result.data.value
    ensures !result.error && result.data.None? ==> r == []
  {
    if result.error then []
    else match result.data
      case Some(rows) => rows
      case None => []
  }

  /** INSERT: prepend unless a record with the same `id` is already there. */
  function Inserted(data: seq<Record>, rec: Record): (r: seq<Record>)
    ensures HasId(data, Id(rec)) ==> r == data
    ensures !HasId(data, Id(rec)) ==> |r| == |data| + 1 && r[0] == rec && r[1..] == data
    ensures HasId(r, Id(rec))
    ensures IdsDistinct(data) ==> IdsDistinct(r)
  {
    if HasId(data, Id(rec)) then data
    else
      var r := [rec] + data;
      assert Id(r[0]) == Id(rec);
      r
  }

  /** UPDATE of one record: `{ ...item, ...rec }` when the ids match. */
  function Merged(item: Record, rec: Record): Record
  {
    if Id(item) == Id(rec) then Spread(item, rec) else item
  }

  /** UPDATE: merge the payload into every record with its `id`; never adds a record. */
  function Updated(data: seq<Record>, rec: Record): (r: seq<Record>)
    ensures |r| == |data|
    ensures forall i :: 0 <= i < |data| ==> Id(r[i]) == Id(data[i])
    ensures forall i, k :: 0 <= i < |data| ==>
      Get(r[i], k) == if Id(data[i]) == Id(rec) && k in rec then rec[k] else Get(data[i], k)
    ensures !HasId(data, Id(rec)) ==> r == data
    ensures forall i :: 0 <= i < |data| && Id(data[i]) != Id(rec) ==> r[i] == data[i]
    ensures forall i :: 0 <= i < |data| && Id(data[i]) == Id(rec) ==> r[i].Keys == data[i].Keys + rec.Keys
    ensures IdsDistinct(data) ==> IdsDistinct(r)
  {
    seq(|data|, i requires 0 <= i < |data| => Merged(data[i], rec))
  }

  /** The test `item.id !== id` of the DELETE filter. */
  function OtherId(id: Value): Record -> bool
  {
    (x: Record) => Id(x) != id
  }

  /** DELETE: drop every record whose `id` is the old record's. */
  function Deleted(data: seq<Record>, oldRec: Record): (r: seq<Record>)
    ensures !HasId(r, Id(oldRec))
    ensures forall i :: 0 <= i < |r| ==> r[i] in data
    ensures forall i :: 0 <= i < |data| && Id(data[i]) != Id(oldRec) ==> data[i] in r
    ensures IdsDistinct(data) ==> IdsDistinct(r)
    ensures IdsDistinct(data) && HasId(data, Id(oldRec)) ==> |r| == |data| - 1
    ensures !HasId(data, Id(oldRec)) ==> r == data
  {
    DeletedFacts(data, Id(oldRec));
    Filter(data, OtherId(Id(oldRec)))
  }

  /** DELETE keeps the order of what it keeps: deleting from a concatenation deletes from
      each part, and a single record stays exactly when its id is not the old record's.
      The two facts together determine the result. */
  lemma DeletedKeepsOrder(p: seq<Record>, q: seq<Record>, oldRec: Record, x: Record)
    ensures Deleted(p + q, oldRec) == Deleted(p, oldRec) + Deleted(q, oldRec)
    ensures Deleted([x], oldRec) == if Id(x) == Id(oldRec) then [] else [x]
  {
    FilterAppend(p, q, OtherId(Id(oldRec)));
    FilterSingle(x, OtherId(Id(oldRec)));
  }

  lemma DeletedFacts(data: seq<Record>, id: Value)
    ensures var r := Filter(data, OtherId(id));
      && !HasId(r, id)
      && (IdsDistinct(data) ==> IdsDistinct(r))
      && (IdsDistinct(data) && HasId(data, id) ==> |r| == |data| - 1)
      && (!HasId(data, id) ==> r == data)
  {
    if IdsDistinct(data) {
      DeletedKeepsDistinct(data, id);
      if HasId(data, id) {
        DeletedRemovesOne(data, id);
      }
    }
    if !HasId(data, id) {
      FilterAll(data, OtherId(id));
    }
  }

  lemma {:induction false} DeletedKeepsDistinct(data: seq<Record>, id: Value)
    requires IdsDistinct(data)
    ensures IdsDistinct(Filter(data, OtherId(id)))
    decreases |data|
  {
    if data != [] {
      var d := data[..|data| - 1];
      var x := data[|data| - 1];
      var rd := Filter(d, OtherId(id));
      DeletedKeepsDistinct(d, id);
      forall i | 0 <= i < |rd| ensures Id(rd[i]) != Id(x) {
        var j :| 0 <= j < |d| && d[j] == rd[i];
        assert data[j] == d[j];
      }
    }
  }

  lemma {:induction false} DeletedRemovesOne(data: seq<Record>, id: Value)
    requires IdsDistinct(data) && HasId(data, id)
    ensures |Filter(data, OtherId(id))| == |data| - 1
    decreases |data|
  {
    var d := data[..|data| - 1];
    var x := data[|data| - 1];
    if Id(x) == id {
      forall i | 0 <= i < |d| ensures OtherId(id)(d[i]) {
        assert data[i] == d[i];
      }
      FilterAll(d, OtherId(id));
    } else {
      var j :| 0 <= j < |data| && Id(data[j]) == id;
      assert d[j] == data[j];
      DeletedRemovesOne(d, id);
    }
  }

  /** The whole event handler: irrelevant events and unknown event types change nothing. */
  function Reconciled(table: string, userId: string, data: seq<Record>, ev: ChangeEvent): (r: seq<Record>)
    ensures !Relevant(table, userId, ev.newRecord) ==> r == data
    ensures IdsDistinct(data) ==> IdsDistinct(r)
    ensures |r| <= |data| + 1
  {
    if !Relevant(table, userId, ev.newRecord) then data
    else if ev.eventType == "INSERT" then Inserted(data, ev.newRecord)
    else if ev.eventType == "UPDATE" then Updated(data, ev.newRecord)
    else if ev.eventType == "DELETE" then Deleted(data, ev.oldRecord)
    else data
  }

  /** The snapshot after a sequence of change events, in delivery order. */
  function Replayed(table: string, userId: string, data: seq<Record>, events: seq<ChangeEvent>): seq<Record>
    decreases |events|
  {
    if events == [] then data
    else Replayed(table, userId, Reconciled(table, userId, data, events[0]), events[1..])
  }

  /** However the events interleave, a snapshot with distinct ids keeps them distinct,
      and it grows by at most one record per event. */
  lemma {:induction false} ReplayKeepsIdsDistinct(table: string, userId: string, data: seq<Record>, events: seq<ChangeEvent>)
    requires IdsDistinct(data)
    ensures IdsDistinct(Replayed(table, userId, data, events))
    ensures |Replayed(table, userId, data, events)| <= |data| + |events|
    decreases |events|
  {
    if events != [] {
      ReplayKeepsIdsDistinct(table, userId, Reconciled(table, userId, data, events[0]), events[1..]);
    }
  }

  /** An insert of a record already loaded adds nothing, so a load and a replayed insert never duplicate. */
  lemma LoadThenInsertNoDuplicate(table: string, userId: string, rows: seq<Record>, rec: Record)
    requires rec in rows
    ensures Reconciled(table, userId, rows, ChangeEvent("INSERT", rec, map[])) == rows
  {
    var i :| 0 <= i < |rows| && rows[i] == rec;
    assert HasId(rows, Id(rec));
  }

  /** A DELETE payload's new record carries none of the owner columns, so for the three
      filtered tables the handler drops the event and the deleted row stays. */
  lemma DeleteWithoutNewRecordIgnored(table: string, userId: string, data: seq<Record>, ev: ChangeEvent)
    requires table == "properties" || table == "cleaning_requests" || table == "messages"
    requires ev.eventType == "DELETE"
    requires ev.newRecord == map[]
    ensures Reconciled(table, userId, data, ev) == data
  {
  }

  /** The two filters agree on properties, messages and other tables, and for landlords'
      requests the load filter implies relevance. */
  lemma LoadFilterAndRelevance(table: string, userId: string, userType: string, r: Record)
    ensures table == "properties" || table == "messages" ==>
      (LoadFilter(table, userId, userType, r) <==> Relevant(table, userId, r))
    ensures table != "properties" && table != "messages" && table != "cleaning_requests" ==>
      LoadFilter(table, userId, userType, r) && Relevant(table, userId, r)
    ensures table == "cleaning_requests" && userType == "landlord" && LoadFilter(table, userId, userType, r) ==>
      Relevant(table, userId, r)
    ensures table == "cleaning_requests" && Get(r, "cleaner_id") == Str(userId) ==>
      (LoadFilter(table, userId, userType, r) <== userType != "landlord") && Relevant(table, userId, r)
  {
  }

  /** An unassigned request of another landlord is loaded for a cleaner, but its change
      events are not relevant to that cleaner. */
  lemma UnassignedRequestLoadedButNotRelevant(userId: string, r: Record)
    requires Get(r, "cleaner_id") == Null
    requires Get(r, "landlord_id") != Str(userId)
    ensures LoadFilter("cleaning_requests", userId, "cleaner", r)
    ensures !Relevant("cleaning_requests", userId, r)
  {
  }

  /** A cleaner who sees an unassigned request inserted and then assigned to them ends
      with an empty snapshot: the insert is not relevant and the update adds nothing. */
  lemma AssignedAfterIrrelevantInsert()
    ensures
      var r1 := map["id" := Str("R1"), "landlord_id" := Str("L1"), "status" := Str("pending"), "cleaner_id" := Null];
      var r2 := map["id" := Str("R2"), "landlord_id" := Str("L1"), "status" := Str("pending"), "cleaner_id" := Str("C2")];
      var u1 := map["id" := Str("R1"), "landlord_id" := Str("L1"), "status" := Str("approved"), "cleaner_id" := Str("C1")];
      Replayed("cleaning_requests", "C1", [],
        [ChangeEvent("INSERT", r1, map[]), ChangeEvent("INSERT", r2, map[]), ChangeEvent("UPDATE", u1, map[])]) == []
  {
    var r1 := map["id" := Str("R1"), "landlord_id" := Str("L1"), "status" := Str("pending"), "cleaner_id" := Null];
    var r2 := map["id" := Str("R2"), "landlord_id" := Str("L1"), "status" := Str("pending"), "cleaner_id" := Str("C2")];
    var u1 := map["id" := Str("R1"), "landlord_id" := Str("L1"), "status" := Str("approved"), "cleaner_id" := Str("C1")];
    var e1, e2, e3 := ChangeEvent("INSERT", r1, map[]), ChangeEvent("INSERT", r2, map[]), ChangeEvent("UPDATE", u1, map[]);
    var events := [e1, e2, e3];
    assert Get(r1, "landlord_id") == Str("L1") && Get(r1, "cleaner_id") == Null;
    assert Reconciled("cleaning_requests", "C1", [], e1) == [];
    assert Get(r2, "landlord_id") == Str("L1") && Get(r2, "cleaner_id") == Str("C2");
    assert Reconciled("cleaning_requests", "C1", [], e2) == [];
    assert Reconciled("cleaning_requests", "C1", [], e3) == [];
    assert events[1..] == [e2, e3] && [e2, e3][1..] == [e3] && [e3][1..] == [];
    calc {
      Replayed("cleaning_requests", "C1", [], events);
      Replayed("cleaning_requests", "C1", [], [e2, e3]);
      Replayed("cleaning_requests", "C1", [], [e3]);
      Replayed("cleaning_requests", "C1", [], []);
    }
  }

  /** One instance of the hook for a table, a viewer and the viewer's role. */
  class RealtimeSnapshot {
    const table: string
    const userId: string
    const userType: string
    var data: seq<Record>
    var loading: bool
    var subscribed: bool

    constructor (table: string, userId: string, userType: string)
      ensures this.table == table && this.userId == userId && this.userType == userType
      ensures data == [] && loading && !subscribed
    {
      this.table := table;
      this.userId := userId;
      this.userType := userType;
      data := [];
      loading := true;
      subscribed := false;
    }

    /** The mount effect: without a viewer nothing is loaded or subscribed; otherwise a
        load starts and the change channel opens. */
    method Start()
      modifies this`loading, this`subscribed
      ensures userId == "" ==> loading == old(loading) && subscribed == old(subscribed)
      ensures userId != "" ==> loading && subscribed
    {
      if userId == "" {
        return;
      }
      BeginLoad();
      subscribed := true;
    }

    /** The effect's cleanup: the channel is removed. */
    method Stop()
      modifies this`subscribed
      ensures !subscribed
    {
      subscribed := false;
    }

    /** `loadData` up to its query: the loading flag goes up. */
    method BeginLoad()
      modifies this`loading
      ensures loading
    {
      loading := true;
    }

    /** `loadData` after its query resolves: the snapshot is replaced wholesale, which
        discards whatever events changed in the meantime, and loading ends. */
    method FinishLoad(result: QueryResult)
      modifies this`data, this`loading
      ensures data == Loaded(result)
      ensures !loading
    {
      if result.error {
        data := [];
      } else {
        data := match result.data case Some(rows) => rows case None => [];
      }
      loading := false;
    }

    method ApplyInsert(rec: Record)
      modifies this`data
      ensures data == Inserted(old(data), rec)
    {
      data := Inserted(data, rec);
    }

    method ApplyUpdate(rec: Record)
      modifies this`data
      ensures data == Updated(old(data), rec)
    {
      data := Updated(data, rec);
    }

    method ApplyDelete(oldRec: Record)
      modifies this`data
      ensures data == Deleted(old(data), oldRec)
    {
      data := Deleted(data, oldRec);
    }

    /** `handleRealtimeUpdate` */
    method HandleRealtimeUpdate(ev: ChangeEvent)
      modifies this`data
      ensures data == Reconciled(table, userId, old(data), ev)
      ensures IdsDistinct(old(data)) ==> IdsDistinct(data)
    {
      if !Relevant(table, userId, ev.newRecord) {
        return;
      }
      if ev.eventType == "INSERT" {
        ApplyInsert(ev.newRecord);
      } else if ev.eventType == "UPDATE" {
        ApplyUpdate(ev.newRecord);
      } else if ev.eventType == "DELETE" {
        ApplyDelete(ev.oldRecord);
      }
    }
  }
}
