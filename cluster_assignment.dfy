/**
 * The bookkeeping of the clustering script around KMeans: the per-cluster
 * counts, the rows written to `earthquake_clusters`, and the pairing of each
 * earthquake with the id of its cluster.  KMeans itself is not modelled: its
 * labels (one cluster index per earthquake) and centroids (latitude,
 * longitude) are inputs.
 */
module ClusterAssignment {
  import opened Results
  import opened ClusterStore
  import opened EarthquakeStore

  function Min(a: nat, b: nat): nat { if a <= b then a else b }

  /** The number of positions of `labels` that hold `k`. */
  function Count(labels: seq<nat>, k: nat): nat
  {
    if |labels| == 0 then 0
    else Count(labels[..|labels| - 1], k) + (if labels[|labels| - 1] == k then 1 else 0)
  }

  /** The largest label (0 for no labels). */
  function MaxLabel(labels: seq<nat>): (m: nat)
    ensures forall i :: 0 <= i < |labels| ==> labels[i] <= m
    ensures |labels| > 0 ==> exists i :: 0 <= i < |labels| && labels[i] == m
  {
    if |labels| == 0 then 0
    else
      var init := labels[..|labels| - 1];
      var m := MaxLabel(init);
      assert forall i :: 0 <= i < |init| ==> init[i] == labels[i];
      if |init| == 0 || labels[|labels| - 1] > m then labels[|labels| - 1] else m
  }

  function Sum(s: seq<nat>): nat
  {
    if |s| == 0 then 0 else s[0] + Sum(s[1..])
  }

  /** `sizes` with one more member in cluster `l`, grown with zeros when `l` is new. */
  function Bump(sizes: seq<nat>, l: nat): (r: seq<nat>)
    ensures |r| == if l < |sizes| then |sizes| else l + 1
    ensures forall k :: 0 <= k < |r| ==> r[k] == (if k < |sizes| then sizes[k] else 0) + (if k == l then 1 else 0)
  {
    var padded := if l < |sizes| then sizes else sizes + seq(l + 1 - |sizes|, _ => 0);
    padded[l := padded[l] + 1]
  }

  /**
   * `np.bincount(labels)`: one count per cluster index from 0 to the largest
   * label, each the number of earthquakes with that label.
   */
  function BinCount(labels: seq<nat>): (sizes: seq<nat>)
    ensures |sizes| == if |labels| == 0 then 0 else MaxLabel(labels) + 1
    ensures forall k :: 0 <= k < |sizes| ==> sizes[k] == Count(labels, k)
  {
    if |labels| == 0 then []
    else
      var init := labels[..|labels| - 1];
      var sizes := Bump(BinCount(init), labels[|labels| - 1]);
      assert forall k :: 0 <= k < |sizes| ==> sizes[k] == Count(labels, k) by {
        forall k | 0 <= k < |sizes| ensures sizes[k] == Count(labels, k) {
          if k >= |BinCount(init)| {
            CountBeyondMax(init, k);
          }
        }
      }
      sizes
  }

  lemma {:induction false} SumAppend(s: seq<nat>, t: seq<nat>)
    ensures Sum(s + t) == Sum(s) + Sum(t)
    decreases |s|
  {
    if |s| == 0 {
      assert s + t == t;
    } else {
      assert (s + t)[1..] == s[1..] + t;
      SumAppend(s[1..], t);
    }
  }

  lemma {:induction false} SumZeros(n: nat)
    ensures Sum(seq(n, _ => 0)) == 0
  {
    if n > 0 {
      assert seq(n, _ => 0)[1..] == seq(n - 1, _ => 0);
      SumZeros(n - 1);
    }
  }

  lemma {:induction false} SumIncrement(s: seq<nat>, l: nat)
    requires l < |s|
    ensures Sum(s[l := s[l] + 1]) == Sum(s) + 1
    decreases |s|
  {
    if l > 0 {
      assert s[l := s[l] + 1][1..] == s[1..][l - 1 := s[l] + 1];
      SumIncrement(s[1..], l - 1);
    }
  }

  lemma BumpAddsOne(sizes: seq<nat>, l: nat)
    ensures Sum(Bump(sizes, l)) == Sum(sizes) + 1
  {
    var padded := if l < |sizes| then sizes else sizes + seq(l + 1 - |sizes|, _ => 0);
    if l >= |sizes| {
      SumAppend(sizes, seq(l + 1 - |sizes|, _ => 0));
      SumZeros(l + 1 - |sizes|);
    }
    SumIncrement(padded, l);
    assert Bump(sizes, l) == padded[l := padded[l] + 1];
  }

  /** The cluster sizes add up to the number of clustered earthquakes. */
  lemma {:induction false} BinCountSum(labels: seq<nat>)
    ensures Sum(BinCount(labels)) == |labels|
    decreases |labels|
  {
    if |labels| > 0 {
      BinCountSum(labels[..|labels| - 1]);
      BumpAddsOne(BinCount(labels[..|labels| - 1]), labels[|labels| - 1]);
    }
  }

  /** No earthquake has a label above the largest one. */
  lemma {:induction false} CountBeyondMax(labels: seq<nat>, k: nat)
    requires |labels| == 0 || k > MaxLabel(labels)
    ensures Count(labels, k) == 0
    decreases |labels|
  {
    if |labels| > 0 {
      var init := labels[..|labels| - 1];
      if |init| > 0 {
        var j :| 0 <= j < |init| && init[j] == MaxLabel(init);
        assert init[j] == labels[j];
      }
      CountBeyondMax(init, k);
    }
  }

  /** `list(zip(a, b))`: pairs up to the shorter input. */
  function Zip<A, B>(a: seq<A>, b: seq<B>): (r: seq<(A, B)>)
    ensures |r| == Min(|a|, |b|)
    ensures forall i :: 0 <= i < |r| ==> r[i] == (a[i], b[i])
  {
    if |a| == 0 || |b| == 0 then [] else [(a[0], b[0])] + Zip(a[1..], b[1..])
  }

  /** The INSERT values of `store_clusters`: one (latitude, longitude, size) row per cluster, in order. */
  function InsertValues(clusters: seq<((real, real), nat)>): (values: seq<ClusterValues>)
    ensures |values| == |clusters|
    ensures forall i :: 0 <= i < |values| ==>
      values[i] == ClusterValues(clusters[i].0.0, clusters[i].0.1, clusters[i].1)
  {
    if |clusters| == 0 then []
    else
      var ((latitude, longitude), size) := clusters[0];
      [ClusterValues(latitude, longitude, size)] + InsertValues(clusters[1..])
  }

  /** The ids an identity sequence hands out for `n` rows, starting at `start`. */
  function Consecutive(start: int, n: nat): (ids: seq<int>)
    ensures |ids| == n
    ensures forall i :: 0 <= i < n ==> ids[i] == start + i
  {
    seq(n, i => start + i)
  }

  /** The cluster table holds exactly `clusters`, stored under the ids from `start` on. */
  ghost predicate HoldsExactly(rows: ClusterStore.Rows, start: int, clusters: seq<((real, real), nat)>)
  {
    && (forall k :: k in rows <==> start <= k < start + |clusters|)
    && (forall i :: 0 <= i < |clusters| ==>
          rows[start + i] == ClusterRow(start + i, clusters[i].0.0, clusters[i].0.1, clusters[i].1))
  }

  /** How the script fails: psycopg2's `ProgrammingError` from `cur.fetchall()`, or Python's `IndexError`. */
  datatype ClusteringError =
    | NoResultsToFetch   // `cur.fetchall()` after a statement that returned no rows
    | IndexOutOfRange    // `cluster_ids[label]` with a label past the stored clusters

  /**
   * `store_clusters`: empty the table, insert the new rows, return their ids
   * in order.  With no clusters `execute_values` runs no INSERT, so
   * `cur.fetchall()` has nothing to fetch and raises before the commit; the
   * uncommitted DELETE is then rolled back and the table is as before.
   */
  method StoreClusters(table: ClusterTable, clusters: seq<((real, real), nat)>)
    returns (r: Result<seq<int>, ClusteringError>)
    requires table.Valid()
    modifies table
    ensures table.Valid()
    ensures |clusters| == 0 ==>
      r == Err(NoResultsToFetch) && table.rows == old(table.rows) && table.nextId == old(table.nextId)
    ensures |clusters| > 0 ==>
      r == Ok(Consecutive(old(table.nextId), |clusters|)) &&
      table.nextId == old(table.nextId) + |clusters| &&
      HoldsExactly(table.rows, old(table.nextId), clusters)
  {
    if |clusters| == 0 {
      return Err(NoResultsToFetch);
    }
    ghost var start := table.nextId;
    table.DeleteAll();
    var clusterIds := table.InsertAll(InsertValues(clusters));
    forall k | start <= k < start + |clusters| ensures k in clusterIds {
      assert clusterIds[k - start] == k;
    }
    assert clusterIds == Consecutive(start, |clusters|);
    r := Ok(clusterIds);
  }

  /**
   * `[(cluster_ids[label], eq_id) for eq_id, label in zip(earthquake_ids, cluster_labels)]`.
   */
  function UpdatePairs(earthquakeIds: seq<string>, labels: seq<nat>, clusterIds: seq<int>)
    : (r: Result<seq<(int, string)>, ClusteringError>)
    ensures r.Ok? <==> forall i :: 0 <= i < Min(|earthquakeIds|, |labels|) ==> labels[i] < |clusterIds|
    ensures r.Ok? ==> |r.value| == Min(|earthquakeIds|, |labels|)
    ensures r.Ok? ==> forall i :: 0 <= i < |r.value| ==> r.value[i] == (clusterIds[labels[i]], earthquakeIds[i])
    ensures r.Err? ==> r.error == IndexOutOfRange
  {
    if |earthquakeIds| == 0 || |labels| == 0 then Ok([])
    else if labels[0] >= |clusterIds| then Err(IndexOutOfRange)
    else
      match UpdatePairs(earthquakeIds[1..], labels[1..], clusterIds)
      case Err(e) => Err(e)
      case Ok(rest) => Ok([(clusterIds[labels[0]], earthquakeIds[0])] + rest)
  }

  /** `update_earthquake_cluster_ids`: nothing is written when a label has no cluster id. */
  method UpdateEarthquakeClusterIds(table: EarthquakeTable, earthquakeIds: seq<string>, labels: seq<nat>, clusterIds: seq<int>)
    returns (r: Result<(), ClusteringError>)
    requires table.Valid()
    modifies table
    ensures table.Valid()
    ensures UpdatePairs(earthquakeIds, labels, clusterIds).Err? ==>
      r == Err(IndexOutOfRange) && table.rows == old(table.rows)
    ensures UpdatePairs(earthquakeIds, labels, clusterIds).Ok? ==>
      r == Ok(()) && table.rows == WithClusterIds(old(table.rows), UpdatePairs(earthquakeIds, labels, clusterIds).value)
  {
    var pairs := UpdatePairs(earthquakeIds, labels, clusterIds);
    if pairs.Err? {
      return Err(pairs.error);
    }
    table.SetClusterIds(pairs.value);
    r := Ok(());
  }

  /**
   * The script's main block, from the KMeans results on.  Without earthquakes
   * nothing is written.  With earthquakes but nothing to zip (no labels or no
   * centroids) `store_clusters` raises and both tables stay as they were.
   * Otherwise the cluster table is replaced (and committed) before the
   * earthquakes are updated, so a failing update leaves the new clusters in
   * place.
   */
  method RunClustering(earthquakes: EarthquakeTable, clusters: ClusterTable,
                       earthquakeIds: seq<string>, labels: seq<nat>, centroids: seq<(real, real)>)
    returns (r: Result<seq<int>, ClusteringError>)
    requires earthquakes.Valid() && clusters.Valid()
    modifies earthquakes, clusters
    ensures earthquakes.Valid() && clusters.Valid()
    ensures |earthquakeIds| == 0 ==>
      r == Ok([]) && earthquakes.rows == old(earthquakes.rows) &&
      clusters.rows == old(clusters.rows) && clusters.nextId == old(clusters.nextId)
    ensures |earthquakeIds| > 0 && |Zip(centroids, BinCount(labels))| == 0 ==>
      r == Err(NoResultsToFetch) && earthquakes.rows == old(earthquakes.rows) &&
      clusters.rows == old(clusters.rows) && clusters.nextId == old(clusters.nextId)
    ensures |earthquakeIds| > 0 && |Zip(centroids, BinCount(labels))| > 0 ==>
      HoldsExactly(clusters.rows, old(clusters.nextId), Zip(centroids, BinCount(labels))) &&
      clusters.nextId == old(clusters.nextId) + |Zip(centroids, BinCount(labels))|
    ensures |earthquakeIds| > 0 && |Zip(centroids, BinCount(labels))| > 0 ==>
      UpdatePairs(earthquakeIds, labels, Consecutive(old(clusters.nextId), |Zip(centroids, BinCount(labels))|)).Err? ==>
        r == Err(IndexOutOfRange) && earthquakes.rows == old(earthquakes.rows)
    ensures |earthquakeIds| > 0 && |Zip(centroids, BinCount(labels))| > 0 ==>
      var pairs := UpdatePairs(earthquakeIds, labels, Consecutive(old(clusters.nextId), |Zip(centroids, BinCount(labels))|));
      pairs.Ok? ==>
        r == Ok(Consecutive(old(clusters.nextId), |Zip(centroids, BinCount(labels))|)) &&
        earthquakes.rows == WithClusterIds(old(earthquakes.rows), pairs.value)
  {
    if |earthquakeIds| == 0 {
      return Ok([]);
    }
    var clusterSizes := BinCount(labels);
    var clustersData := Zip(centroids, clusterSizes);
    var stored := StoreClusters(clusters, clustersData);
    if stored.Err? {
      return Err(stored.error);
    }
    var clusterIds := stored.value;
    var updated := UpdateEarthquakeClusterIds(earthquakes, earthquakeIds, labels, clusterIds);
    if updated.Err? {
      return Err(updated.error);
    }
    r := Ok(clusterIds);
  }

  /**
   * With labels that KMeans could produce (each below the number of
   * centroids), every label indexes a stored cluster, so the update step
   * cannot fail.
   */
  lemma LabelsIndexStoredClusters(earthquakeIds: seq<string>, labels: seq<nat>, centroids: seq<(real, real)>, clusterIds: seq<int>)
    requires forall i :: 0 <= i < |labels| ==> labels[i] < |centroids|
    requires |clusterIds| == |Zip(centroids, BinCount(labels))|
    ensures UpdatePairs(earthquakeIds, labels, clusterIds).Ok?
  {
  }
}
