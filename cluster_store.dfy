/**
 * The `earthquake_clusters` table: rows keyed by an IDENTITY id that the
 * database draws from a sequence.  The sequence only moves forward, so an id
 * is never handed out twice, not even after its row has been deleted.  Both
 * the backend's repository and the clustering script write this table.
 */
module ClusterStore {
  import opened Results

  /** One stored cluster: centroid and member count. */
  datatype ClusterRow = ClusterRow(id: int, latitude: real, longitude: real, clusterSize: int)

  /** The values of an INSERT, before the database assigns the id. */
  datatype ClusterValues = ClusterValues(latitude: real, longitude: real, clusterSize: int)

  type Rows = map<int, ClusterRow>

  /** Every row is stored under its own primary key. */
  predicate KeyedById(rows: Rows)
  {
    forall k :: k in rows ==> rows[k].id == k
  }

  /** The row `id` after a successful update with a body's latitude, longitude and size. */
  function Replaced(rows: Rows, id: int, latitude: real, longitude: real, clusterSize: int): (r: Rows)
    requires id in rows
    ensures r.Keys == rows.Keys
    ensures r[id].id == rows[id].id
    ensures r[id].latitude == latitude && r[id].longitude == longitude && r[id].clusterSize == clusterSize
    ensures forall k :: k in rows && k != id ==> r[k] == rows[k]
  {
    rows[id := rows[id].(latitude := latitude, longitude := longitude, clusterSize := clusterSize)]
  }

  /** The table after a successful delete of `id`. */
  function Removed(rows: Rows, id: int): (r: Rows)
    requires id in rows
    ensures r.Keys == rows.Keys - {id}
    ensures |r| == |rows| - 1
    ensures forall k :: k in r ==> r[k] == rows[k]
  {
    rows - {id}
  }

  /** Updating is a full replacement: every field but the key comes from the new values. */
  lemma ReplacedIsFullReplacement(rows: Rows, id: int, latitude: real, longitude: real, clusterSize: int)
    requires KeyedById(rows) && id in rows
    ensures KeyedById(Replaced(rows, id, latitude, longitude, clusterSize))
    ensures Replaced(rows, id, latitude, longitude, clusterSize)[id] == ClusterRow(id, latitude, longitude, clusterSize)
  {
  }

  /** Updating twice is the same as updating once with the second values. */
  lemma ReplacedTwice(rows: Rows, id: int, lat1: real, lon1: real, size1: int, lat2: real, lon2: real, size2: int)
    requires id in rows
    ensures Replaced(Replaced(rows, id, lat1, lon1, size1), id, lat2, lon2, size2) == Replaced(rows, id, lat2, lon2, size2)
  {
  }

  /** A database table with an identity sequence. */
  class ClusterTable {
    var rows: Rows
    var nextId: int    // the next value the identity sequence hands out

    ghost predicate Valid()
      reads this
    {
      && KeyedById(rows)
      && 1 <= nextId
      && (forall k :: k in rows ==> 1 <= k < nextId)
    }

    /** An empty table whose identity sequence starts at 1. */
    constructor ()
      ensures Valid() && rows == map[] && nextId == 1
    {
      rows := map[];
      nextId := 1;
    }

    method FindById(id: int) returns (r: Option<ClusterRow>)
      ensures id in rows ==> r == Some(rows[id])
      ensures id !in rows ==> r == None
    {
      r := if id in rows then Some(rows[id]) else None;
    }

    method ExistsById(id: int) returns (b: bool)
      ensures b <==> id in rows
    {
      b := id in rows;
    }

    /** A scan of the table: every row exactly once, and nothing else. */
    method FindAll() returns (all: seq<ClusterRow>)
      requires Valid()
      ensures forall i :: 0 <= i < |all| ==> all[i].id in rows && rows[all[i].id] == all[i]
      ensures forall k :: k in rows ==> rows[k] in all
      ensures forall i, j :: 0 <= i < j < |all| ==> all[i].id != all[j].id
    {
      all := [];
      var k := 1;
      while k < nextId
        invariant 1 <= k <= nextId
        invariant forall i :: 0 <= i < |all| ==> all[i].id in rows && rows[all[i].id] == all[i] && all[i].id < k
        invariant forall j :: 1 <= j < k && j in rows ==> rows[j] in all
        invariant forall i, j :: 0 <= i < j < |all| ==> all[i].id < all[j].id
      {
        if k in rows {
          all := all + [rows[k]];
        }
        k := k + 1;
      }
    }

    /** INSERT of one row: the id is the next value of the sequence. */
    method Insert(values: ClusterValues) returns (id: int)
      requires Valid()
      modifies this
      ensures Valid()
      ensures id == old(nextId) && id !in old(rows) && nextId == id + 1
      ensures rows == old(rows)[id := ClusterRow(id, values.latitude, values.longitude, values.clusterSize)]
    {
      id := nextId;
      rows := rows[id := ClusterRow(id, values.latitude, values.longitude, values.clusterSize)];
      nextId := nextId + 1;
    }

    /** A multi-row `INSERT ... RETURNING id`: one fresh id per row, in input order. */
    method InsertAll(batch: seq<ClusterValues>) returns (ids: seq<int>)
      requires Valid()
      modifies this
      ensures Valid()
      ensures nextId == old(nextId) + |batch|
      ensures |ids| == |batch|
      ensures forall i :: 0 <= i < |ids| ==> ids[i] == old(nextId) + i && ids[i] !in old(rows)
      ensures forall i :: 0 <= i < |ids| ==>
        ids[i] in rows && rows[ids[i]] == ClusterRow(ids[i], batch[i].latitude, batch[i].longitude, batch[i].clusterSize)
      ensures forall k :: k in rows <==> k in old(rows) || k in ids
      ensures forall k :: k in old(rows) ==> rows[k] == old(rows)[k]
    {
      ids := [];
      var i := 0;
      while i < |batch|
        invariant 0 <= i <= |batch|
        invariant Valid()
        invariant nextId == old(nextId) + i
        invariant |ids| == i
        invariant forall j :: 0 <= j < i ==> ids[j] == old(nextId) + j && ids[j] !in old(rows)
        invariant forall j :: 0 <= j < i ==>
          ids[j] in rows && rows[ids[j]] == ClusterRow(ids[j], batch[j].latitude, batch[j].longitude, batch[j].clusterSize)
        invariant forall k :: k in rows <==> k in old(rows) || k in ids
        invariant forall k :: k in old(rows) ==> rows[k] == old(rows)[k]
      {
        var id := Insert(batch[i]);
        ids := ids + [id];
        i := i + 1;
      }
    }

    /** Writes back an entity that is already persisted (a JPA merge of an existing row). */
    method Save(row: ClusterRow)
      requires Valid() && row.id in rows
      modifies this
      ensures Valid()
      ensures rows == old(rows)[row.id := row] && nextId == old(nextId)
    {
      rows := rows[row.id := row];
    }

    method DeleteById(id: int)
      requires Valid()
      modifies this
      ensures Valid()
      ensures rows == old(rows) - {id} && nextId == old(nextId)
    {
      rows := rows - {id};
    }

    /** `DELETE FROM earthquake_clusters`: the sequence is not reset. */
    method DeleteAll()
      requires Valid()
      modifies this
      ensures Valid()
      ensures rows == map[] && nextId == old(nextId)
    {
      rows := map[];
    }
  }
}
