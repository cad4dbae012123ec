// Reconciling the child rows of one owner against a request: updateOrderCars,
// updateQuoteCars and updateInspectionDetails are this algorithm over the cars
// of an order, the cars of a quote and the details of an inspection.
module ChildRows {
  import opened Prelude

  datatype Row = Row(owner: Option<int>, fields: map<string, string>, updatedAt: int)

  // An entry of the request; one that has an id stands for an existing row.
  datatype Entry = Entry(id: Option<int>, fields: map<string, string>)

  type Rows = map<int, Row>

  // entries.filter(hasOwnProperty('id')).map(id)
  function RequestedIds(entries: seq<Entry>): set<int> {
    set i | 0 <= i < |entries| && entries[i].id.Some? :: entries[i].id.value
  }

  function ToAdd(entries: seq<Entry>): seq<Entry> {
    if entries == [] then []
    else ToAdd(entries[..|entries| - 1]) + if entries[|entries| - 1].id.None? then [entries[|entries| - 1]] else []
  }

  function ToUpdate(entries: seq<Entry>): (updates: seq<Entry>)
    ensures forall i :: 0 <= i < |updates| ==> updates[i].id.Some?
  {
    if entries == [] then []
    else ToUpdate(entries[..|entries| - 1]) + if entries[|entries| - 1].id.Some? then [entries[|entries| - 1]] else []
  }

  function ToDelete(rows: Rows, owner: int, entries: seq<Entry>): set<int> {
    set id | id in rows && rows[id].owner == Some(owner) && id !in RequestedIds(entries)
  }

  // save of an entry with an id: a row is merged with the entry's fields, and an
  // unknown id is inserted.
  function SaveOne(rows: Rows, entry: Entry, now: int): Rows
    requires entry.id.Some?
  {
    var id := entry.id.value;
    if id in rows then rows[id := rows[id].(fields := rows[id].fields + entry.fields, updatedAt := now)]
    else rows[id := Row(None, entry.fields, now)]
  }

  function Insert(rows: Rows, owner: int, adds: seq<Entry>, newIds: seq<int>, now: int): Rows
    requires |newIds| == |adds|
  {
    if adds == [] then rows
    else
      var n := |adds| - 1;
      Insert(rows, owner, adds[..n], newIds[..n], now)[newIds[n] := Row(Some(owner), adds[n].fields, now)]
  }

  function Update(rows: Rows, updates: seq<Entry>, now: int): Rows
    requires forall i :: 0 <= i < |updates| ==> updates[i].id.Some?
  {
    if updates == [] then rows
    else SaveOne(Update(rows, updates[..|updates| - 1], now), updates[|updates| - 1], now)
  }

  function Reconciled(rows: Rows, owner: int, entries: seq<Entry>, newIds: seq<int>, now: int): Rows
    requires |newIds| == |ToAdd(entries)|
  {
    Update(Insert(rows - ToDelete(rows, owner, entries), owner, ToAdd(entries), newIds, now), ToUpdate(entries), now)
  }

  // The rows that save returns: the inserted ones first, now with their ids.
  function Returned(entries: seq<Entry>, newIds: seq<int>): (saved: seq<Entry>)
    requires |newIds| == |ToAdd(entries)|
  {
    Inserted(ToAdd(entries), newIds) + ToUpdate(entries)
  }

  function Inserted(adds: seq<Entry>, newIds: seq<int>): (saved: seq<Entry>)
    requires |newIds| == |adds|
    ensures |saved| == |adds| && forall i :: 0 <= i < |adds| ==> saved[i] == Entry(Some(newIds[i]), adds[i].fields)
  {
    seq(|newIds|, i requires 0 <= i < |newIds| => Entry(Some(newIds[i]), adds[i].fields))
  }

  class ChildTable {
    var rows: Rows

    constructor ()
      ensures rows == map[]
    {
      rows := map[];
    }

    // repository.remove of the loaded rows that are not requested.
    method Remove(owner: int, mine: seq<int>, entries: seq<Entry>)
      requires forall id :: id in mine <==> id in rows && rows[id].owner == Some(owner)
      modifies this
      ensures rows == old(rows) - ToDelete(old(rows), owner, entries)
    {
      ghost var before := rows;
      for i := 0 to |mine|
        invariant rows == before - set id | id in mine[..i] && id !in RequestedIds(entries)
      {
        if mine[i] !in RequestedIds(entries) {
          rows := rows - {mine[i]};
        }
        assert mine[..i + 1] == mine[..i] + [mine[i]];
      }
      assert mine[..|mine|] == mine;
      var gone := set id | id in mine && id !in RequestedIds(entries);
      forall id
        ensures id in gone <==> id in ToDelete(before, owner, entries)
      {
        assert id in mine <==> id in before && before[id].owner == Some(owner);
      }
    }

    // repository.save of the new entries and then of the changed ones.
    method Save(owner: int, adds: seq<Entry>, updates: seq<Entry>, newIds: seq<int>, now: int)
      requires |newIds| == |adds| && forall i :: 0 <= i < |updates| ==> updates[i].id.Some?
      modifies this
      ensures rows == Update(Insert(old(rows), owner, adds, newIds, now), updates, now)
    {
      ghost var kept := rows;
      for i := 0 to |adds|
        invariant rows == Insert(kept, owner, adds[..i], newIds[..i], now)
      {
        assert adds[..i + 1][..i] == adds[..i] && newIds[..i + 1][..i] == newIds[..i];
        rows := rows[newIds[i] := Row(Some(owner), adds[i].fields, now)];
      }
      assert adds[..|adds|] == adds && newIds[..|newIds|] == newIds;
      ghost var inserted := rows;
      for i := 0 to |updates|
        invariant rows == Update(inserted, updates[..i], now)
      {
        assert updates[..i + 1][..i] == updates[..i];
        rows := SaveOne(rows, updates[i], now);
      }
      assert updates[..|updates|] == updates;
    }

    // `mine` are the owner's rows as they were loaded; `newIds` are the ids the
    // database generates.
    method Reconcile(owner: int, mine: seq<int>, entries: seq<Entry>, newIds: seq<int>, now: int)
      returns (saved: seq<Entry>)
      requires forall id :: id in mine <==> id in rows && rows[id].owner == Some(owner)
      requires |newIds| == |ToAdd(entries)|
      modifies this
      ensures rows == Reconciled(old(rows), owner, entries, newIds, now)
      ensures saved == Returned(entries, newIds)
    {
      var adds, updates := ToAdd(entries), ToUpdate(entries);
      Remove(owner, mine, entries);
      Save(owner, adds, updates, newIds, now);
      saved := Returned(entries, newIds);
    }
  }

  // ------------------------------------------------------------------------
  // What the table holds afterwards, row by row.

  function At(rows: Rows, id: int): Option<Row> {
    if id in rows then Some(rows[id]) else None
  }

  ghost predicate DistinctIds(entries: seq<Entry>) {
    forall i, j :: 0 <= i < j < |entries| && entries[i].id.Some? ==> entries[i].id != entries[j].id
  }

  ghost predicate Owns(rows: Rows, owner: int, entries: seq<Entry>) {
    forall i :: 0 <= i < |entries| && entries[i].id.Some? ==>
      entries[i].id.value in rows && rows[entries[i].id.value].owner == Some(owner)
  }

  ghost predicate Fresh(rows: Rows, newIds: seq<int>) {
    NoDuplicates(newIds) && forall id :: id in newIds ==> id !in rows
  }

  lemma {:induction false} InsertedAt(rows: Rows, owner: int, adds: seq<Entry>, newIds: seq<int>, now: int, id: int)
    requires |newIds| == |adds| && NoDuplicates(newIds)
    ensures id !in newIds ==> At(Insert(rows, owner, adds, newIds, now), id) == At(rows, id)
    ensures forall k :: 0 <= k < |newIds| && newIds[k] == id ==>
      At(Insert(rows, owner, adds, newIds, now), id) == Some(Row(Some(owner), adds[k].fields, now))
  {
    if adds != [] {
      var n := |adds| - 1;
      InsertedAt(rows, owner, adds[..n], newIds[..n], now, id);
      assert newIds == newIds[..n] + [newIds[n]];
    }
  }

  lemma {:induction false} UpdatedAt(rows: Rows, updates: seq<Entry>, now: int, id: int)
    requires forall i :: 0 <= i < |updates| ==> updates[i].id.Some?
    requires DistinctIds(updates)
    ensures (forall k :: 0 <= k < |updates| ==> updates[k].id != Some(id)) ==>
      At(Update(rows, updates, now), id) == At(rows, id)
    ensures forall k :: 0 <= k < |updates| && updates[k].id == Some(id) && id in rows ==>
      At(Update(rows, updates, now), id)
        == Some(rows[id].(fields := rows[id].fields + updates[k].fields, updatedAt := now))
  {
    if updates != [] {
      UpdatedAt(rows, updates[..|updates| - 1], now, id);
    }
  }

  lemma {:induction false} UpdatesOf(entries: seq<Entry>, id: int)
    requires DistinctIds(entries)
    ensures DistinctIds(ToUpdate(entries))
    ensures forall e :: e in ToUpdate(entries) <==> e in entries && e.id.Some?
  {
    if entries != [] {
      var front, last := entries[..|entries| - 1], entries[|entries| - 1];
      UpdatesOf(front, id);
      assert entries == front + [last];
      forall i | 0 <= i < |ToUpdate(front)|
        ensures last.id.Some? ==> ToUpdate(front)[i].id != last.id
      {
        assert ToUpdate(front)[i] in front;
      }
    }
  }

  // The reference: for distinct requested ids that are the owner's, a requested
  // row has the requested fields merged over its own, the k-th entry without an
  // id is the k-th fresh row, every other row of the owner is gone and every row
  // of another owner is as it was.
  ghost predicate Expected(rows: Rows, owner: int, entries: seq<Entry>, newIds: seq<int>, now: int, id: int,
    row: Option<Row>)
    requires |newIds| == |ToAdd(entries)|
  {
    && (forall k :: 0 <= k < |newIds| && newIds[k] == id ==>
      row == Some(Row(Some(owner), ToAdd(entries)[k].fields, now)))
    && (forall e :: e in entries && e.id == Some(id) && id in rows ==>
      row == Some(rows[id].(fields := rows[id].fields + e.fields, updatedAt := now)))
    && (id !in newIds && id !in RequestedIds(entries) ==>
      row == if id in rows && rows[id].owner != Some(owner) then Some(rows[id]) else None)
  }

  lemma RequestedIn(entries: seq<Entry>, id: int)
    ensures id in RequestedIds(entries) <==> exists e :: e in entries && e.id == Some(id)
  {
    if id in RequestedIds(entries) {
      var i :| 0 <= i < |entries| && entries[i].id == Some(id);
      assert entries[i] in entries;
    }
  }

  lemma ReconciledRow(rows: Rows, owner: int, entries: seq<Entry>, newIds: seq<int>, now: int, id: int)
    requires |newIds| == |ToAdd(entries)|
    requires DistinctIds(entries) && Owns(rows, owner, entries) && Fresh(rows, newIds)
    ensures Expected(rows, owner, entries, newIds, now, id, At(Reconciled(rows, owner, entries, newIds, now), id))
  {
    var kept, adds, updates := rows - ToDelete(rows, owner, entries), ToAdd(entries), ToUpdate(entries);
    var inserted := Insert(kept, owner, adds, newIds, now);
    InsertedAt(kept, owner, adds, newIds, now, id);
    UpdatesOf(entries, id);
    UpdatedAt(inserted, updates, now, id);
    RequestedIn(entries, id);
  }

  // ------------------------------------------------------------------------
  // Applying the returned list again.

  lemma {:induction false} NothingToAdd(entries: seq<Entry>)
    requires forall i :: 0 <= i < |entries| ==> entries[i].id.Some?
    ensures ToAdd(entries) == [] && ToUpdate(entries) == entries
  {
    if entries != [] {
      NothingToAdd(entries[..|entries| - 1]);
    }
  }

  // A requested or inserted entry, by its position in the returned list.
  lemma ReturnedAt(entries: seq<Entry>, newIds: seq<int>, i: nat)
    requires |newIds| == |ToAdd(entries)| && i < |Returned(entries, newIds)| && DistinctIds(entries)
    ensures var e := Returned(entries, newIds)[i];
      if i < |newIds| then e == Entry(Some(newIds[i]), ToAdd(entries)[i].fields)
      else i - |newIds| < |ToUpdate(entries)| && e == ToUpdate(entries)[i - |newIds|] && e in entries && e.id.Some?
  {
    UpdatesOf(entries, 0);
  }

  lemma ReturnedDistinct(rows: Rows, owner: int, entries: seq<Entry>, newIds: seq<int>)
    requires |newIds| == |ToAdd(entries)|
    requires DistinctIds(entries) && Owns(rows, owner, entries) && Fresh(rows, newIds)
    ensures DistinctIds(Returned(entries, newIds))
  {
    var again := Returned(entries, newIds);
    UpdatesOf(entries, 0);
    forall i, j | 0 <= i < j < |again|
      ensures again[i].id != again[j].id
    {
      ReturnedAt(entries, newIds, i);
      ReturnedAt(entries, newIds, j);
      var a, b := again[i].id.value, again[j].id.value;
      if i < |newIds| <= j {
        assert a in newIds;
        var k :| 0 <= k < |entries| && entries[k] == again[j];
        assert b in rows;
      } else if j < |newIds| {
        assert a == newIds[i] && b == newIds[j];
      } else {
        var updates := ToUpdate(entries);
        assert updates[i - |newIds|].id != updates[j - |newIds|].id;
      }
      assert a != b;
    }
  }

  // A returned entry names a row of the owner that already holds its fields.
  lemma ReturnedEntry(rows: Rows, owner: int, entries: seq<Entry>, newIds: seq<int>, now: int, i: nat)
    requires |newIds| == |ToAdd(entries)|
    requires DistinctIds(entries) && Owns(rows, owner, entries) && Fresh(rows, newIds)
    requires i < |Returned(entries, newIds)|
    ensures var after, e := Reconciled(rows, owner, entries, newIds, now), Returned(entries, newIds)[i];
      && e.id.Some? && e.id.value in after && after[e.id.value].owner == Some(owner)
      && after[e.id.value].fields + e.fields == after[e.id.value].fields
  {
    ReturnedAt(entries, newIds, i);
    ReconciledRow(rows, owner, entries, newIds, now, Returned(entries, newIds)[i].id.value);
  }

  // The returned entries are distinct rows of the owner, and all of them.
  lemma ReturnedAreTheRows(rows: Rows, owner: int, entries: seq<Entry>, newIds: seq<int>, now: int)
    requires |newIds| == |ToAdd(entries)|
    requires DistinctIds(entries) && Owns(rows, owner, entries) && Fresh(rows, newIds)
    ensures var after, again := Reconciled(rows, owner, entries, newIds, now), Returned(entries, newIds);
      DistinctIds(again) && Owns(after, owner, again) && ToDelete(after, owner, again) == {}
  {
    var after, again := Reconciled(rows, owner, entries, newIds, now), Returned(entries, newIds);
    ReturnedDistinct(rows, owner, entries, newIds);
    forall i | 0 <= i < |again|
      ensures again[i].id.Some? && again[i].id.value in after && after[again[i].id.value].owner == Some(owner)
    {
      ReturnedEntry(rows, owner, entries, newIds, now, i);
    }
    forall id | id in after && after[id].owner == Some(owner)
      ensures id in RequestedIds(again)
    {
      ReconciledRow(rows, owner, entries, newIds, now, id);
      ReturnedIds(entries, newIds, id);
    }
  }

  lemma ReturnedIds(entries: seq<Entry>, newIds: seq<int>, id: int)
    requires |newIds| == |ToAdd(entries)| && DistinctIds(entries)
    requires id in newIds || id in RequestedIds(entries)
    ensures id in RequestedIds(Returned(entries, newIds))
  {
    var again, adds := Returned(entries, newIds), Inserted(ToAdd(entries), newIds);
    UpdatesOf(entries, id);
    if id in newIds {
      var k :| 0 <= k < |newIds| && newIds[k] == id;
      assert again[k] == adds[k];
    } else {
      RequestedIn(entries, id);
      var e :| e in entries && e.id == Some(id);
      var k :| 0 <= k < |ToUpdate(entries)| && ToUpdate(entries)[k] == e;
      assert again[|adds| + k] == e;
    }
  }

  // The same row but for the time of its last change.
  predicate SameRow(a: Option<Row>, b: Option<Row>) {
    match (a, b)
    case (None, None) => true
    case (Some(x), Some(y)) => x.owner == y.owner && x.fields == y.fields
    case _ => false
  }

  // Reconciling with the returned list deletes nothing, adds nothing and leaves
  // every row as it is but for the time stamp of the owner's rows.
  lemma ReapplyingChangesNothing(rows: Rows, owner: int, entries: seq<Entry>, newIds: seq<int>, now: int, later: int,
    id: int)
    requires |newIds| == |ToAdd(entries)|
    requires DistinctIds(entries) && Owns(rows, owner, entries) && Fresh(rows, newIds)
    ensures var after, again := Reconciled(rows, owner, entries, newIds, now), Returned(entries, newIds);
      && ToDelete(after, owner, again) == {} && ToAdd(again) == []
      && SameRow(At(Reconciled(after, owner, again, [], later), id), At(after, id))
  {
    var after, again := Reconciled(rows, owner, entries, newIds, now), Returned(entries, newIds);
    NothingToAdd(again);
    ReturnedAreTheRows(rows, owner, entries, newIds, now);
    ReconciledRow(after, owner, again, [], later, id);
    ReconciledRow(rows, owner, entries, newIds, now, id);
    if id in RequestedIds(again) {
      var i :| 0 <= i < |again| && again[i].id == Some(id);
      assert again[i] in again;
      ReturnedEntry(rows, owner, entries, newIds, now, i);
    }
  }
}
