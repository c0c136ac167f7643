/**
 * The `earthquakes` table as the two ETL scripts write it: the seven columns
 * loaded from the USGS feed, plus `cluster_id`, which only the clustering
 * script sets.
 */
module EarthquakeStore {
  import opened Results

  /** The seven columns of one earthquake; `time` is epoch milliseconds. */
  datatype EarthquakeRecord = EarthquakeRecord(
    id: string, time: int, latitude: real, longitude: real, depth: real, magnitude: real, place: string)

  /** A stored row: the seven columns and the nullable `cluster_id`. */
  datatype EarthquakeRow = EarthquakeRow(record: EarthquakeRecord, clusterId: Option<int>)

  type Rows = map<string, EarthquakeRow>

  predicate KeyedById(rows: Rows)
  {
    forall k :: k in rows ==> rows[k].record.id == k
  }

  /** The primary keys a batch mentions. */
  function Ids(batch: seq<EarthquakeRecord>): set<string>
  {
    set i | 0 <= i < |batch| :: batch[i].id
  }

  predicate DistinctIds(batch: seq<EarthquakeRecord>)
  {
    forall i, j :: 0 <= i < j < |batch| ==> batch[i].id != batch[j].id
  }

  /**
   * One row of `INSERT ... ON CONFLICT (id) DO UPDATE`: a new id is inserted
   * with a null `cluster_id`; an existing id gets the six other columns
   * overwritten and keeps its `cluster_id`.
   */
  function UpsertOne(rows: Rows, rec: EarthquakeRecord): (r: Rows)
    ensures r.Keys == rows.Keys + {rec.id}
    ensures r[rec.id].record == rec
    ensures rec.id !in rows ==> r[rec.id].clusterId == None
    ensures rec.id in rows ==> r[rec.id].clusterId == rows[rec.id].clusterId
    ensures forall k :: k in rows && k != rec.id ==> r[k] == rows[k]
  {
    var clusterId := if rec.id in rows then rows[rec.id].clusterId else None;
    rows[rec.id := EarthquakeRow(rec, clusterId)]
  }

  /** The whole batch, row after row. */
  function Upserted(rows: Rows, batch: seq<EarthquakeRecord>): (r: Rows)
    ensures r.Keys == rows.Keys + Ids(batch)
    ensures forall k :: k in rows ==> r[k].clusterId == rows[k].clusterId
    ensures forall k :: k in r && k !in rows ==> r[k].clusterId == None
    ensures forall k :: k in rows && k !in Ids(batch) ==> r[k] == rows[k]
    decreases |batch|
  {
    if |batch| == 0 then rows
    else
      var r := Upserted(UpsertOne(rows, batch[0]), batch[1..]);
      assert Ids(batch) == {batch[0].id} + Ids(batch[1..]) by {
        forall k | k in Ids(batch) ensures k in {batch[0].id} + Ids(batch[1..]) {
          var i :| 0 <= i < |batch| && batch[i].id == k;
          if i > 0 { assert batch[1..][i - 1].id == k; }
        }
      }
      r
  }

  /** In a batch without repeated ids, each record's row holds that record. */
  lemma {:induction false} UpsertedRow(rows: Rows, batch: seq<EarthquakeRecord>, i: nat)
    requires DistinctIds(batch) && i < |batch|
    ensures Upserted(rows, batch)[batch[i].id].record == batch[i]
    decreases |batch|
  {
    var rest := batch[1..];
    var next := UpsertOne(rows, batch[0]);
    if i == 0 {
      assert batch[0].id !in Ids(rest);
    } else {
      assert rest[i - 1] == batch[i];
      UpsertedRow(next, rest, i - 1);
    }
  }

  /** Upserting keeps every row under its own key. */
  lemma {:induction false} UpsertedKeyedById(rows: Rows, batch: seq<EarthquakeRecord>)
    requires KeyedById(rows)
    ensures KeyedById(Upserted(rows, batch))
    decreases |batch|
  {
    if |batch| > 0 {
      UpsertedKeyedById(UpsertOne(rows, batch[0]), batch[1..]);
    }
  }

  /**
   * `UPDATE earthquakes SET cluster_id = data.cluster_id FROM (VALUES ...) AS
   * data(cluster_id, id) WHERE earthquakes.id = data.id`, one pair at a time.
   * A pair whose id is not in the table matches nothing.
   */
  function WithClusterIds(rows: Rows, pairs: seq<(int, string)>): (r: Rows)
    ensures r.Keys == rows.Keys
    ensures forall k :: k in rows ==> r[k].record == rows[k].record
    ensures forall k :: k in rows && (forall i :: 0 <= i < |pairs| ==> pairs[i].1 != k) ==> r[k] == rows[k]
    decreases |pairs|
  {
    if |pairs| == 0 then rows
    else
      var (clusterId, id) := pairs[0];
      var next := if id in rows then rows[id := rows[id].(clusterId := Some(clusterId))] else rows;
      var r := WithClusterIds(next, pairs[1..]);
      assert forall k :: k in rows && (forall i :: 0 <= i < |pairs| ==> pairs[i].1 != k) ==>
        (forall i :: 0 <= i < |pairs[1..]| ==> pairs[1..][i].1 != k) by {
        forall k | k in rows && (forall i :: 0 <= i < |pairs| ==> pairs[i].1 != k)
          ensures forall i :: 0 <= i < |pairs[1..]| ==> pairs[1..][i].1 != k
        {
          forall i | 0 <= i < |pairs[1..]| ensures pairs[1..][i].1 != k {
            assert pairs[1..][i] == pairs[i + 1];
          }
        }
      }
      r
  }

  /** When no earthquake id repeats, each pair's earthquake ends up in its cluster. */
  lemma {:induction false} WithClusterIdsAssigns(rows: Rows, pairs: seq<(int, string)>, i: nat)
    requires forall a, b :: 0 <= a < b < |pairs| ==> pairs[a].1 != pairs[b].1
    requires i < |pairs| && pairs[i].1 in rows
    ensures WithClusterIds(rows, pairs)[pairs[i].1].clusterId == Some(pairs[i].0)
    decreases |pairs|
  {
    var (clusterId, id) := pairs[0];
    var next := if id in rows then rows[id := rows[id].(clusterId := Some(clusterId))] else rows;
    var rest := pairs[1..];
    if i == 0 {
      forall j | 0 <= j < |rest| ensures rest[j].1 != id {
        assert rest[j] == pairs[j + 1];
      }
    } else {
      assert rest[i - 1] == pairs[i];
      WithClusterIdsAssigns(next, rest, i - 1);
    }
  }

  datatype UpsertError = RowAffectedTwice   // PostgreSQL's cardinality violation

  class EarthquakeTable {
    var rows: Rows

    ghost predicate Valid()
      reads this
    {
      KeyedById(rows)
    }

    constructor ()
      ensures Valid() && rows == map[]
    {
      rows := map[];
    }

    /**
     * The batch upsert of `insert_earthquakes`.  PostgreSQL refuses a single
     * `ON CONFLICT DO UPDATE` statement that touches one row twice, so a batch
     * with a repeated id fails and nothing is committed.
     */
    method InsertEarthquakes(batch: seq<EarthquakeRecord>) returns (r: Result<(), UpsertError>)
      requires Valid()
      modifies this
      ensures Valid()
      ensures !DistinctIds(batch) ==> r == Err(RowAffectedTwice) && rows == old(rows)
      ensures DistinctIds(batch) ==> r == Ok(()) && rows == Upserted(old(rows), batch)
      ensures DistinctIds(batch) ==>
        forall i :: 0 <= i < |batch| ==> batch[i].id in rows && rows[batch[i].id].record == batch[i]
    {
      if !DistinctIds(batch) {
        return Err(RowAffectedTwice);
      }
      UpsertedKeyedById(rows, batch);
      forall i | 0 <= i < |batch| ensures Upserted(rows, batch)[batch[i].id].record == batch[i] {
        UpsertedRow(rows, batch, i);
      }
      rows := Upserted(rows, batch);
      r := Ok(());
    }

    /** The `UPDATE ... FROM (VALUES ...)` of `update_earthquake_cluster_ids`. */
    method SetClusterIds(pairs: seq<(int, string)>)
      requires Valid()
      modifies this
      ensures Valid()
      ensures rows == WithClusterIds(old(rows), pairs)
    {
      rows := WithClusterIds(rows, pairs);
    }
  }
}
