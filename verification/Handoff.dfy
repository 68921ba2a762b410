/** Publishing findings: handoff rows are written to immutable objects page by page until none that
    matches is pending. Nobody else writes handoffs or their objects meanwhile. */
module Handoff {
  import opened Base

  /** Payloads stand for their own hash; `stored` is the hash recorded with the row. */
  datatype Row = Row(
    key: Id,
    payload: Id,
    stored: Id,
    objectKey: Id,
    published: bool,
    attempts: nat,
    error: Option<Id>)

  const CHECKSUM_MISMATCH: Id := 1
  const COLLISION: Id := 2
  const HEAD_FAILED: Id := 3
  const MAX_PAGE_SIZE := 1000

  predicate Selects(keys: Option<seq<Id>>, row: Row) { keys.None? || row.key in keys.value }

  predicate PendingRow(keys: Option<seq<Id>>, row: Row) { !row.published && Selects(keys, row) }

  function PendingCount(rows: seq<Row>, keys: Option<seq<Id>>): nat {
    if rows == [] then 0
    else PendingCount(rows[..|rows| - 1], keys) + if PendingRow(keys, rows[|rows| - 1]) then 1 else 0
  }

  /** Positions of the first pending rows, in the order of creation. */
  function FirstPending(rows: seq<Row>, keys: Option<seq<Id>>, limit: nat): (page: seq<nat>)
    ensures |page| <= limit && |page| <= PendingCount(rows, keys)
    ensures |page| < limit ==> |page| == PendingCount(rows, keys)
    ensures forall i :: 0 <= i < |page| ==> page[i] < |rows| && PendingRow(keys, rows[page[i]])
    ensures forall i, j :: 0 <= i < j < |page| ==> page[i] != page[j]
  {
    if rows == [] then []
    else
      var page := FirstPending(rows[..|rows| - 1], keys, limit);
      if |page| < limit && PendingRow(keys, rows[|rows| - 1]) then page + [|rows| - 1] else page
  }

  lemma {:induction false} OneLess(rows: seq<Row>, keys: Option<seq<Id>>, i: nat, row: Row)
    requires i < |rows| && row.key == rows[i].key
    ensures PendingCount(rows[i := row], keys) + (if PendingRow(keys, rows[i]) then 1 else 0)
         == PendingCount(rows, keys) + if PendingRow(keys, row) then 1 else 0
  {
    var n := |rows| - 1;
    if i == n {
      assert rows[i := row][..n] == rows[..n];
    } else {
      OneLess(rows[..n], keys, i, row);
      assert rows[i := row][..n] == rows[..n][i := row];
    }
  }

  lemma {:induction false} NonePending(rows: seq<Row>, keys: Option<seq<Id>>)
    requires PendingCount(rows, keys) == 0
    ensures forall i :: 0 <= i < |rows| ==> !PendingRow(keys, rows[i])
  {
    if rows != [] {
      NonePending(rows[..|rows| - 1], keys);
      forall i | 0 <= i < |rows| ensures !PendingRow(keys, rows[i]) {
        assert i < |rows| - 1 ==> rows[i] == rows[..|rows| - 1][i];
      }
    }
  }

  /** The stored hash is not the payload's, or another object has taken the key. */
  predicate Unpublishable(objects: map<Id, Id>, row: Row) {
    row.payload != row.stored || (row.objectKey in objects && objects[row.objectKey] != row.stored)
  }

  predicate SomeUnpublishable(objects: map<Id, Id>, rows: seq<Row>, keys: Option<seq<Id>>) {
    exists i :: 0 <= i < |rows| && PendingRow(keys, rows[i]) && Unpublishable(objects, rows[i])
  }

  /** A published row has an object that records its payload's hash. */
  predicate Backed(objects: map<Id, Id>, row: Row) {
    row.published ==> row.objectKey in objects && objects[row.objectKey] == row.stored == row.payload
  }

  class HandoffPublisher {
    var rows: seq<Row>
    var objects: map<Id, Id>      // the payload hash in each object's metadata
    ghost var faults: nat         // calls that failed

    constructor (rows: seq<Row>, objects: map<Id, Id>)
      requires forall i :: 0 <= i < |rows| ==> Backed(objects, rows[i])
      ensures this.rows == rows && this.objects == objects && faults == 0
    {
      this.rows, this.objects, faults := rows, objects, 0;
    }

    predicate Valid() reads this {
      forall i :: 0 <= i < |rows| ==> Backed(objects, rows[i])
    }

    /** Objects are never overwritten, rows only progress. */
    twostate predicate Onward() reads this {
      && (forall k :: k in old(objects) ==> k in objects && objects[k] == old(objects)[k])
      && |rows| == |old(rows)|
      && forall i :: 0 <= i < |rows| ==>
           && rows[i].key == old(rows)[i].key && rows[i].payload == old(rows)[i].payload
           && rows[i].stored == old(rows)[i].stored && rows[i].objectKey == old(rows)[i].objectKey
           && (old(rows)[i].published ==> rows[i] == old(rows)[i])
           && rows[i].attempts >= old(rows)[i].attempts
    }

    /** The object is there with the right hash afterwards, or the answer is an error code: of a call that
        failed, or of another object under the key. */
    method PutObject(row: Row) returns (error: Option<Id>)
      modifies this`objects, this`faults
      ensures faults >= old(faults) && (error.None? ==> faults == old(faults))
      ensures error.Some? ==>
                || faults > old(faults)
                || (error == Some(COLLISION) && row.objectKey in objects && objects[row.objectKey] != row.stored)
      ensures error.None? ==> row.objectKey in objects && objects[row.objectKey] == row.stored
      ensures forall k :: k in old(objects) ==> k in objects && objects[k] == old(objects)[k]
    {
      var reachable: bool, code: Id := *, *;
      if row.objectKey !in objects {
        var applied: bool := *;
        if reachable || applied { objects := objects[row.objectKey := row.stored]; }
        if reachable { return None; }
        faults := faults + 1;
        return Some(code);
      }
      if !reachable {
        faults := faults + 1;
        return Some(code);
      }
      var readable: bool := *;
      if !readable {
        faults := faults + 1;
        return Some(HEAD_FAILED);
      }
      return if objects[row.objectKey] == row.stored then None else Some(COLLISION);
    }

    /** Publishes one row; a failure is recorded with the row. */
    method PublishRow(i: nat) returns (ok: bool)
      requires Valid() && i < |rows| && !rows[i].published
      modifies this
      ensures Valid() && Onward()
      ensures rows == old(rows)[i := rows[i]]
      ensures ok <==> rows[i].published
      ensures !ok ==> rows[i].error.Some?
      ensures ok ==> rows[i].error.None? && rows[i].attempts == old(rows[i].attempts) + 1
      ensures faults >= old(faults) && (ok ==> faults == old(faults))
      ensures !ok ==> faults > old(faults) || Unpublishable(objects, rows[i])
      ensures rows[i].payload != rows[i].stored ==> rows[i].error == Some(CHECKSUM_MISMATCH)
      ensures !ok && rows[i].payload == rows[i].stored ==> rows[i].attempts == old(rows[i].attempts) + 1
      ensures old(rows[i].payload != rows[i].stored) ==>
                !ok && objects == old(objects) && rows[i].attempts == old(rows[i].attempts)
    {
      var row := rows[i];
      if row.payload != row.stored {
        rows := rows[i := row.(error := Some(CHECKSUM_MISMATCH))];
        return false;
      }
      rows := rows[i := row.(attempts := row.attempts + 1)];
      var error := PutObject(row);
      if error.Some? {
        rows := rows[i := rows[i].(error := error)];
        return false;
      }
      rows := rows[i := rows[i].(published := true, error := None)];
      return true;
    }

    /** One page; None where the source raises. */
    method PublishPending(keys: Option<seq<Id>>, limit: nat) returns (published: Option<nat>)
      requires Valid()
      modifies this
      ensures Valid() && Onward()
      ensures published.Some? ==>
                && PendingCount(rows, keys) == PendingCount(old(rows), keys) - published.value
                && published.value == |FirstPending(old(rows), keys, limit)|
      ensures faults >= old(faults) && (published.Some? ==> faults == old(faults))
      ensures published.None? ==> faults > old(faults) || SomeUnpublishable(objects, rows, keys)
    {
      ghost var before := rows;
      var page := FirstPending(rows, keys, limit);
      for i := 0 to |page|
        invariant Valid() && Onward() && faults == old(faults)
        invariant forall k :: i <= k < |page| ==> rows[page[k]] == before[page[k]]
        invariant PendingCount(rows, keys) == PendingCount(before, keys) - i
      {
        ghost var was := rows;
        var ok := PublishRow(page[i]);
        OneLess(was, keys, page[i], rows[page[i]]);
        if !ok { return None; }
      }
      return Some(|page|);
    }

    /** Drains all matching handoffs: on normal return none is pending, and the number of rows published
        is reported. Every full page makes progress, whatever its size. */
    method PublishAll(keys: Option<seq<Id>>, pageSize: int) returns (published: Option<nat>)
      requires Valid()
      modifies this
      ensures Valid() && Onward()
      ensures !(1 <= pageSize <= MAX_PAGE_SIZE) ==> published.None? && rows == old(rows)
      ensures published.Some? ==>
                && published.value == PendingCount(old(rows), keys)
                && forall i :: 0 <= i < |rows| && Selects(keys, rows[i]) ==>
                     rows[i].published && rows[i].objectKey in objects && objects[rows[i].objectKey] == rows[i].payload
      ensures published.Some? ==> faults == old(faults)
      ensures published.None? && 1 <= pageSize <= MAX_PAGE_SIZE ==>
                faults > old(faults) || SomeUnpublishable(objects, rows, keys)
    {
      if !(1 <= pageSize <= MAX_PAGE_SIZE) { return None; }
      ghost var total := PendingCount(rows, keys);
      var sum := 0;
      while true
        invariant Valid() && Onward() && faults == old(faults)
        invariant 0 <= sum && sum + PendingCount(rows, keys) == total
        decreases PendingCount(rows, keys)
      {
        var count := PublishPending(keys, pageSize);
        if count.None? { return None; }
        sum := sum + count.value;
        if count.value < pageSize {
          NonePending(rows, keys);
          return Some(sum);
        }
      }
    }
  }
}
