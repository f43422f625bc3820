/**
 * The Core Data side of `CloudSyncManager`: the stored test-record objects,
 * the fetch that turns them into `CloudSyncTestRecord` values newest first,
 * and `migrateCurrentRecords`, the last-writer-wins copy of one store into
 * another.
 */
module CloudRecords {
  import opened Wrappers
  import opened Sorting

  /** `Date.distantPast` in seconds since the reference date. */
  const DistantPast: int := -63114076800

  /** A managed object of the `CloudSyncTestRecord` entity: every attribute is optional, as CloudKit requires. Image bytes are an opaque handle. */
  datatype StoredObject = StoredObject(id: Option<nat>, text: Option<string>, updatedAt: Option<int>, imageData: Option<nat>)

  /** `CloudSyncTestRecord`. */
  datatype Record = Record(id: nat, text: string, updatedAt: int, imageData: Option<nat>)

  /** The object a record is written as (an insert sets all four attributes). */
  function Encode(r: Record): StoredObject {
    StoredObject(Some(r.id), Some(r.text), Some(r.updatedAt), r.imageData)
  }

  /** The fetch's `compactMap`: an object without an id, a text or a date is skipped. */
  function Decode(o: StoredObject): Option<Record> {
    if o.id.Some? && o.text.Some? && o.updatedAt.Some? then Some(Record(o.id.value, o.text.value, o.updatedAt.value, o.imageData))
    else None
  }

  /** Decoding undoes encoding, and a decodable object is the encoding of its record. */
  lemma DecodeEncode(r: Record, o: StoredObject)
    ensures Decode(Encode(r)) == Some(r)
    ensures Decode(o) == Some(r) ==> Encode(r) == o
    ensures Decode(o).None? <==> o.id.None? || o.text.None? || o.updatedAt.None?
  {
  }

  /** The records of the objects that decode, in store order. */
  function DecodeAll(objects: seq<StoredObject>): (r: seq<Record>)
    ensures |r| <= |objects|
    ensures forall rec :: rec in r <==> exists o :: o in objects && Decode(o) == Some(rec)
  {
    if objects == [] then []
    else
      var rest := DecodeAll(objects[1..]);
      assert objects == [objects[0]] + objects[1..];
      match Decode(objects[0])
      case Some(rec) => [rec] + rest
      case None => rest
  }

  /** The fetch's sort descriptor: `updatedAt`, descending. */
  function Newer(a: Record, b: Record): bool {
    a.updatedAt > b.updatedAt
  }

  /** `fetchRecords(in:)`. Core Data leaves the order of equal dates open; the model keeps store order for them. */
  function Fetch(objects: seq<StoredObject>): seq<Record> {
    SortBy(DecodeAll(objects), Newer)
  }

  /** The fetch returns exactly the decodable objects' records, newest first. */
  lemma FetchNewestFirst(objects: seq<StoredObject>)
    ensures var r := Fetch(objects);
      && (forall i, j :: 0 <= i < j < |r| ==> r[i].updatedAt >= r[j].updatedAt)
      && multiset(r) == multiset(DecodeAll(objects))
      && (forall rec :: rec in r <==> exists o :: o in objects && Decode(o) == Some(rec))
  {
    assert StrictWeakOrder(Newer);
    SortBySorted(DecodeAll(objects), Newer);
    var r := Fetch(objects);
    forall rec ensures rec in r <==> rec in DecodeAll(objects) {
      assert rec in r <==> rec in multiset(r);
    }
  }

  /** An `NSPersistentContainer`'s view context, reduced to the objects it holds. */
  class Store {
    var objects: seq<StoredObject>

    constructor(objects: seq<StoredObject>)
      ensures this.objects == objects
    {
      this.objects := objects;
    }
  }

  /** `existingByID` after the loop over the target's objects: each id maps to the position of its last object. */
  function IndexById(objects: seq<StoredObject>): (r: map<nat, nat>)
    ensures forall id :: id in r ==> r[id] < |objects| && objects[r[id]].id == Some(id)
    ensures forall i :: 0 <= i < |objects| && objects[i].id.Some? ==> objects[i].id.value in r
    ensures forall id, i :: id in r && r[id] < i < |objects| ==> objects[i].id != Some(id)
  {
    if objects == [] then map[]
    else
      var prefix := IndexById(objects[..|objects| - 1]);
      var last := objects[|objects| - 1];
      if last.id.Some? then prefix[last.id.value := |objects| - 1] else prefix
  }

  /** Every position the index names holds an object with that id. */
  ghost predicate IndexValid(index: map<nat, nat>, objects: seq<StoredObject>) {
    forall id :: id in index ==> index[id] < |objects| && objects[index[id]].id == Some(id)
  }

  /** The source's record wins when its date is not older than the target's; a target without a date counts as `distantPast`. */
  function Resolve(target: StoredObject, record: Record): StoredObject {
    if record.updatedAt >= target.updatedAt.GetOr(DistantPast) then
      target.(text := Some(record.text), updatedAt := Some(record.updatedAt), imageData := record.imageData)
    else target
  }

  /** One source record: resolved against the indexed target object, or inserted. */
  function MergeOne(objects: seq<StoredObject>, index: map<nat, nat>, record: Record): (r: seq<StoredObject>)
    requires IndexValid(index, objects)
    ensures |r| >= |objects| && IndexValid(index, r)
    ensures forall p :: 0 <= p < |objects| ==> r[p].id == objects[p].id
  {
    if record.id in index then objects[index[record.id] := Resolve(objects[index[record.id]], record)]
    else objects + [Encode(record)]
  }

  /** The migration loop over the source records, in order. */
  function MergeAll(objects: seq<StoredObject>, index: map<nat, nat>, records: seq<Record>): (r: seq<StoredObject>)
    requires IndexValid(index, objects)
    ensures |r| >= |objects| && IndexValid(index, r)
    ensures forall p :: 0 <= p < |objects| ==> r[p].id == objects[p].id
  {
    if records == [] then objects
    else MergeOne(MergeAll(objects, index, records[..|records| - 1]), index, records[|records| - 1])
  }

  /** Source ids are unique (they are UUIDs). */
  ghost predicate UniqueIds(records: seq<Record>) {
    forall i, j :: 0 <= i < j < |records| ==> records[i].id != records[j].id
  }

  /** Some object in `objects` has the id. */
  ghost predicate HasId(objects: seq<StoredObject>, id: nat) {
    exists p :: 0 <= p < |objects| && objects[p].id == Some(id)
  }

  /** After the migration every source record's id is present in the target. */
  lemma {:induction false} MigrationCoversSource(objects: seq<StoredObject>, index: map<nat, nat>, records: seq<Record>)
    requires IndexValid(index, objects)
    ensures forall j :: 0 <= j < |records| ==> HasId(MergeAll(objects, index, records), records[j].id)
  {
    if records != [] {
      var front := records[..|records| - 1];
      var last := records[|records| - 1];
      var before := MergeAll(objects, index, front);
      var r := MergeAll(objects, index, records);
      MigrationCoversSource(objects, index, front);
      forall j | 0 <= j < |records| ensures HasId(r, records[j].id) {
        if j < |records| - 1 {
          assert records[j] == front[j];
          assert HasId(before, front[j].id);
          var p :| 0 <= p < |before| && before[p].id == Some(front[j].id);
          assert r[p].id == before[p].id;
          assert 0 <= p < |r| && r[p].id == Some(records[j].id);
        } else if last.id in index {
          assert r[index[last.id]].id == Some(last.id);
          assert 0 <= index[last.id] < |r|;
        } else {
          assert r[|r| - 1] == Encode(last);
          assert r[|r| - 1].id == Some(records[j].id);
        }
      }
    }
  }

  /** A target object whose id no source record has is left as it was. */
  lemma {:induction false} MigrationKeepsTargetOnly(objects: seq<StoredObject>, index: map<nat, nat>, records: seq<Record>, p: nat)
    requires IndexValid(index, objects) && p < |objects|
    requires forall j :: 0 <= j < |records| ==> objects[p].id != Some(records[j].id)
    ensures MergeAll(objects, index, records)[p] == objects[p]
  {
    if records != [] {
      var front := records[..|records| - 1];
      var last := records[|records| - 1];
      MigrationKeepsTargetOnly(objects, index, front, p);
      var before := MergeAll(objects, index, front);
      if last.id in index {
        assert before[index[last.id]].id == Some(last.id);
        assert index[last.id] != p;
      }
    }
  }

  /**
   * For an id present in both stores, the indexed target object takes the
   * source's text, date and image exactly when the source is not older; ties
   * go to the source.
   */
  lemma {:induction false} MigrationResolvesShared(objects: seq<StoredObject>, index: map<nat, nat>, records: seq<Record>, j: nat)
    requires IndexValid(index, objects) && UniqueIds(records)
    requires j < |records| && records[j].id in index
    ensures var k := index[records[j].id];
      var target := objects[k];
      var source := records[j];
      MergeAll(objects, index, records)[k] ==
        if source.updatedAt >= target.updatedAt.GetOr(DistantPast) then
          target.(text := Some(source.text), updatedAt := Some(source.updatedAt), imageData := source.imageData)
        else target
  {
    var front := records[..|records| - 1];
    var last := records[|records| - 1];
    var k := index[records[j].id];
    var before := MergeAll(objects, index, front);
    if j == |records| - 1 {
      forall i | 0 <= i < |front| ensures objects[k].id != Some(front[i].id) {
        assert front[i] == records[i];
      }
      MigrationKeepsTargetOnly(objects, index, front, k);
    } else {
      assert UniqueIds(front);
      assert front[j] == records[j];
      MigrationResolvesShared(objects, index, front, j);
      if last.id in index {
        assert before[index[last.id]].id == Some(last.id);
        assert before[k].id == Some(records[j].id);
      }
    }
  }

  /** The loop that builds `existingByID` over the target's objects. */
  method IndexExisting(existing: seq<StoredObject>) returns (existingByID: map<nat, nat>)
    ensures existingByID == IndexById(existing)
  {
    existingByID := map[];
    var i := 0;
    while i < |existing|
      invariant 0 <= i <= |existing|
      invariant existingByID == IndexById(existing[..i])
    {
      IndexByIdStep(existing, i);
      if existing[i].id.Some? {
        existingByID := existingByID[existing[i].id.value := i];
      }
      i := i + 1;
    }
    assert existing[..|existing|] == existing;
  }

  lemma IndexByIdStep(objects: seq<StoredObject>, i: nat)
    requires i < |objects|
    ensures IndexById(objects[..i + 1]) ==
      if objects[i].id.Some? then IndexById(objects[..i])[objects[i].id.value := i] else IndexById(objects[..i])
  {
    assert objects[..i + 1][..i] == objects[..i];
  }

  lemma MergeStep(objects: seq<StoredObject>, index: map<nat, nat>, records: seq<Record>, j: nat)
    requires IndexValid(index, objects) && j < |records|
    ensures MergeAll(objects, index, records[..j + 1]) == MergeOne(MergeAll(objects, index, records[..j]), index, records[j])
  {
    assert records[..j + 1][..j] == records[..j];
  }

  /**
   * `migrateCurrentRecords(to:)`: nothing happens without a source or when
   * the source is the target; otherwise the source's fetched records are
   * merged into the target through the index of its existing objects.
   */
  method MigrateRecords(source: Store?, target: Store)
    modifies target`objects
    ensures source == null || source == target ==> target.objects == old(target.objects)
    ensures source != null && source != target ==>
      target.objects == MergeAll(old(target.objects), IndexById(old(target.objects)), Fetch(old(source.objects)))
  {
    if source == null || source == target {
      return;
    }
    var sourceRecords := Fetch(source.objects);
    var existing := target.objects;
    var existingByID := IndexExisting(existing);
    var j := 0;
    while j < |sourceRecords|
      invariant 0 <= j <= |sourceRecords|
      invariant target.objects == MergeAll(existing, existingByID, sourceRecords[..j])
    {
      MergeStep(existing, existingByID, sourceRecords, j);
      MergeRecord(target, existingByID, sourceRecords[j]);
      j := j + 1;
    }
    assert sourceRecords[..|sourceRecords|] == sourceRecords;
  }

  /** One pass of the migration loop: an indexed object takes a record that is not older, any other record is inserted. */
  method MergeRecord(target: Store, existingByID: map<nat, nat>, record: Record)
    requires IndexValid(existingByID, target.objects)
    modifies target`objects
    ensures target.objects == MergeOne(old(target.objects), existingByID, record)
  {
    var objects := target.objects;
    if record.id in existingByID {
      var k := existingByID[record.id];
      var targetUpdatedAt := objects[k].updatedAt.GetOr(DistantPast);
      if record.updatedAt >= targetUpdatedAt {
        target.objects := objects[k := objects[k].(text := Some(record.text), updatedAt := Some(record.updatedAt), imageData := record.imageData)];
      }
    } else {
      target.objects := objects + [StoredObject(Some(record.id), Some(record.text), Some(record.updatedAt), record.imageData)];
    }
  }

  /** The fetch with `fetchLimit = 1` and the predicate `id == %@`: the first object with the id, or -1. */
  function FirstWithId(objects: seq<StoredObject>, id: nat): (r: int)
    ensures -1 <= r < |objects|
    ensures r == -1 <==> forall p :: 0 <= p < |objects| ==> objects[p].id != Some(id)
    ensures r >= 0 ==> objects[r].id == Some(id) && forall p :: 0 <= p < r ==> objects[p].id != Some(id)
  {
    if objects == [] then -1
    else if objects[0].id == Some(id) then 0
    else
      var k := FirstWithId(objects[1..], id);
      assert forall p :: 1 <= p < |objects| ==> objects[p] == objects[1..][p - 1];
      if k == -1 then -1 else k + 1
  }

  /** Sets the attributes of the first object with the id; without one, nothing changes. */
  function UpdateFirst(objects: seq<StoredObject>, id: nat, update: StoredObject -> StoredObject): (r: seq<StoredObject>)
    ensures |r| == |objects|
    ensures var k := FirstWithId(objects, id);
      forall p :: 0 <= p < |objects| ==> r[p] == if p == k then update(objects[p]) else objects[p]
  {
    var k := FirstWithId(objects, id);
    if k == -1 then objects else objects[k := update(objects[k])]
  }

  /** Deletes the first object with the id; without one, nothing changes. */
  function RemoveFirst(objects: seq<StoredObject>, id: nat): (r: seq<StoredObject>)
    ensures var k := FirstWithId(objects, id);
      && (k == -1 ==> r == objects)
      && (k >= 0 ==> multiset(r) + multiset{objects[k]} == multiset(objects) && |r| == |objects| - 1)
  {
    var k := FirstWithId(objects, id);
    if k == -1 then objects
    else
      assert objects == objects[..k] + [objects[k]] + objects[k + 1..];
      objects[..k] + objects[k + 1..]
  }

  /** No two objects share an id. */
  ghost predicate UniqueObjectIds(objects: seq<StoredObject>) {
    forall p, q :: 0 <= p < q < |objects| && objects[p].id.Some? ==> objects[p].id != objects[q].id
  }

  /** With unique ids, deleting by id leaves exactly the objects with other ids. */
  lemma RemovedObjects(objects: seq<StoredObject>, id: nat)
    requires UniqueObjectIds(objects)
    ensures forall o :: o in RemoveFirst(objects, id) <==> o in objects && o.id != Some(id)
  {
    var k := FirstWithId(objects, id);
    if k >= 0 {
      assert RemoveFirst(objects, id) == objects[..k] + objects[k + 1..];
      forall o ensures o in objects[..k] + objects[k + 1..] <==> o in objects && o.id != Some(id) {
        RemovedAround(objects, k, id, o);
      }
    }
  }

  /** Cutting out the only object with the id at `k` leaves exactly the objects without it. */
  lemma RemovedAround(objects: seq<StoredObject>, k: nat, id: nat, o: StoredObject)
    requires UniqueObjectIds(objects) && k < |objects| && objects[k].id == Some(id)
    ensures o in objects[..k] + objects[k + 1..] <==> o in objects && o.id != Some(id)
  {
    var r := objects[..k] + objects[k + 1..];
    if o in r {
      var q :| 0 <= q < |r| && r[q] == o;
      if q < k {
        assert o == objects[q];
      } else {
        assert o == objects[q + 1];
      }
    }
    if o in objects && o.id != Some(id) {
      var q :| 0 <= q < |objects| && objects[q] == o;
      if q < k { assert r[q] == o; } else { assert r[q - 1] == o; }
    }
  }

  /** With unique ids, deleting a record's object removes it from the fetched records and keeps every other record. */
  lemma DeletedRecordGone(objects: seq<StoredObject>, id: nat)
    requires UniqueObjectIds(objects)
    ensures forall rec :: rec in Fetch(RemoveFirst(objects, id)) <==> rec in Fetch(objects) && rec.id != id
  {
    RemovedObjects(objects, id);
    FetchNewestFirst(objects);
    FetchNewestFirst(RemoveFirst(objects, id));
  }
}
