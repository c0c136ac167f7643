/**
 * `EarthquakeClusterService`: create, read, update and delete of clusters
 * over the repository.  Every lookup by id fails with "Cluster not found"
 * when the id is absent; the exception is an `Err` here.
 */
module ClusterService {
  import opened Results
  import opened ClusterStore
  import opened Entities

  datatype ServiceError =
    | ClusterNotFound(id: int)   // the RuntimeException "Cluster not found with id <id>"
    | StaleEntity(id: int)       // merge of a detached entity whose row does not exist

  class EarthquakeClusterService {
    const repository: ClusterTable

    ghost predicate Valid()
      reads this, repository
    {
      repository.Valid()
    }

    constructor (repository: ClusterTable)
      requires repository.Valid()
      ensures this.repository == repository && Valid()
    {
      this.repository := repository;
    }

    /** Every stored cluster once, and nothing else. */
    method GetAllClusters() returns (all: seq<ClusterRow>)
      requires Valid()
      ensures forall i :: 0 <= i < |all| ==> all[i].id in repository.rows && repository.rows[all[i].id] == all[i]
      ensures forall k :: k in repository.rows ==> repository.rows[k] in all
      ensures forall i, j :: 0 <= i < j < |all| ==> all[i].id != all[j].id
    {
      all := repository.FindAll();
    }

    method GetClusterById(id: int) returns (r: Result<ClusterRow, ServiceError>)
      ensures id in repository.rows ==> r == Ok(repository.rows[id])
      ensures id !in repository.rows ==> r == Err(ClusterNotFound(id))
    {
      var found := repository.FindById(id);
      if found.None? {
        return Err(ClusterNotFound(id));
      }
      r := Ok(found.value);
    }

    /**
     * `repository.save(cluster)`.  An entity without an id is new: it is
     * inserted under the next identity value, which is written back into the
     * entity.  An entity with an id is merged: its row is overwritten, and if
     * there is no such row the merge fails.
     */
    method CreateCluster(cluster: EarthquakeCluster) returns (r: Result<ClusterRow, ServiceError>)
      requires Valid()
      modifies repository, cluster
      ensures Valid()
      ensures old(cluster.id).None? ==>
        && r.Ok?
        && r.value == ClusterRow(old(repository.nextId), old(cluster.latitude), old(cluster.longitude), old(cluster.clusterSize))
        && r.value.id !in old(repository.rows)
        && repository.rows == old(repository.rows)[r.value.id := r.value]
        && repository.nextId == old(repository.nextId) + 1
        && cluster.id == Some(r.value.id)
      ensures old(cluster.id).Some? && old(cluster.id).value in old(repository.rows) ==>
        && r == Ok(ClusterRow(old(cluster.id).value, old(cluster.latitude), old(cluster.longitude), old(cluster.clusterSize)))
        && repository.rows == old(repository.rows)[r.value.id := r.value]
        && repository.nextId == old(repository.nextId)
        && cluster.id == old(cluster.id)
      ensures old(cluster.id).Some? && old(cluster.id).value !in old(repository.rows) ==>
        && r == Err(StaleEntity(old(cluster.id).value))
        && repository.rows == old(repository.rows)
        && repository.nextId == old(repository.nextId)
        && cluster.id == old(cluster.id)
      ensures cluster.latitude == old(cluster.latitude) && cluster.longitude == old(cluster.longitude)
      ensures cluster.clusterSize == old(cluster.clusterSize)
    {
      var values := ClusterValues(cluster.GetLatitude(), cluster.GetLongitude(), cluster.GetClusterSize());
      match cluster.GetId() {
        case None =>
          var id := repository.Insert(values);
          cluster.SetId(Some(id));
          r := Ok(ClusterRow(id, values.latitude, values.longitude, values.clusterSize));
        case Some(id) =>
          var present := repository.ExistsById(id);
          if !present {
            return Err(StaleEntity(id));
          }
          var row := ClusterRow(id, values.latitude, values.longitude, values.clusterSize);
          repository.Save(row);
          r := Ok(row);
      }
    }

    /** Loads the managed entity for a stored row, as `findById` does. */
    method Load(row: ClusterRow) returns (e: EarthquakeCluster)
      ensures fresh(e)
      ensures e.id == Some(row.id) && e.latitude == row.latitude
      ensures e.longitude == row.longitude && e.clusterSize == row.clusterSize
    {
      e := new EarthquakeCluster();
      e.SetId(Some(row.id));
      e.SetLatitude(row.latitude);
      e.SetLongitude(row.longitude);
      e.SetClusterSize(row.clusterSize);
    }

    /**
     * Copies latitude, longitude and size from `updatedCluster` into the
     * stored cluster; the id stays the one from the path.
     */
    method UpdateCluster(id: int, updatedCluster: EarthquakeCluster) returns (r: Result<ClusterRow, ServiceError>)
      requires Valid()
      modifies repository
      ensures Valid()
      ensures repository.nextId == old(repository.nextId)
      ensures id !in old(repository.rows) ==>
        r == Err(ClusterNotFound(id)) && repository.rows == old(repository.rows)
      ensures id in old(repository.rows) ==>
        && repository.rows == Replaced(old(repository.rows), id,
             updatedCluster.latitude, updatedCluster.longitude, updatedCluster.clusterSize)
        && r == Ok(repository.rows[id])
        && r.value == ClusterRow(id, updatedCluster.latitude, updatedCluster.longitude, updatedCluster.clusterSize)
    {
      var found := repository.FindById(id);
      if found.None? {
        return Err(ClusterNotFound(id));
      }
      var existing := Load(found.value);
      existing.SetLatitude(updatedCluster.GetLatitude());
      existing.SetLongitude(updatedCluster.GetLongitude());
      existing.SetClusterSize(updatedCluster.GetClusterSize());
      var saved := ClusterRow(existing.id.value, existing.latitude, existing.longitude, existing.clusterSize);
      repository.Save(saved);
      r := Ok(saved);
    }

    method DeleteCluster(id: int) returns (r: Result<(), ServiceError>)
      requires Valid()
      modifies repository
      ensures Valid()
      ensures repository.nextId == old(repository.nextId)
      ensures id !in old(repository.rows) ==>
        r == Err(ClusterNotFound(id)) && repository.rows == old(repository.rows)
      ensures id in old(repository.rows) ==>
        r == Ok(()) && repository.rows == Removed(old(repository.rows), id)
    {
      var present := repository.ExistsById(id);
      if !present {
        return Err(ClusterNotFound(id));
      }
      repository.DeleteById(id);
      r := Ok(());
    }
  }
}
