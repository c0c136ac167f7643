# GeoSight: a Dafny model of its data bookkeeping

GeoSight shows USGS earthquakes and earthquake clusters on a map. It has three parts:

- a Python ETL. It loads the USGS GeoJSON feed into an `earthquakes` table. A second script groups the earthquakes with KMeans and stores the clusters in `earthquake_clusters`.
- a Spring backend. It serves and edits both tables.
- a React front end. It draws one diamond marker per earthquake and one round marker per cluster.

This project models what those parts do to records. It does not model the numerics, the networking or the rendering.

| module (file) | models |
|---|---|
| `Results` (results.dfy) | null references (`Option`) and raised exceptions (`Result`) |
| `Entities` (entities.dfy) | the JPA entities `EarthquakeCluster` and `Earthquake` as classes whose setters change one field each |
| `ClusterStore` (cluster_store.dfy) | the `earthquake_clusters` table: rows keyed by an IDENTITY id taken from a sequence that only moves forward; the pure update and delete it undergoes |
| `ClusterService` (cluster_service.dfy) | `EarthquakeClusterService`: get all, get by id, create, update and delete, with "Cluster not found" as an `Err` |
| `EarthquakeStore` (earthquake_store.dfy) | the `earthquakes` table with its `cluster_id` column; the `ON CONFLICT (id) DO UPDATE` upsert; the `UPDATE ... FROM (VALUES ...)` that sets cluster ids |
| `ClusterAssignment` (cluster_assignment.dfy) | `cluster.py` around KMeans: `np.bincount`, the rows that replace the cluster table, and the pairing of each earthquake with `cluster_ids[label]` |
| `UsgsEtl` (usgs_etl.dfy) | `etl.py`: GeoJSON feature to record, then the batch upsert |
| `UsgsEtlVenv` (usgs_etl_venv.dfy) | the earlier copy `venv/etl.py`, which only builds the records |
| `EarthquakeMarkers` (earthquake_markers.dfy) | the magnitude classifier, the diamond icon and the popup fetch-once guard |
| `ClusterHotspots` (cluster_hotspots.dfy) | the cluster marker's size and anchors |

Modelling choices:

- Ids are `int` for clusters and `string` for earthquakes.
- Coordinates, depths and magnitudes are `real`. The code only copies and compares them.
- Times are opaque integers in epoch milliseconds.
- A class holds a table as a `map` that its methods reassign. The properties that matter are proved about pure functions: `Replaced`, `Removed`, `Upserted`, `WithClusterIds`, `Open`/`Settled`/`Close`. `UpdateCluster`, `DeleteCluster`, `InsertEarthquakes`, `SetClusterIds` and the popup handlers tie the new state to one of these functions. `Insert`, `InsertAll`, `Save`, `DeleteById`, `DeleteAll` and `CreateCluster` state the new map directly, and `StoreClusters` states it through the predicate `HoldsExactly`.
- A GeoJSON position is `[longitude, latitude, depth]` (section 3.1.1 of RFC 7946). `UsgsEtl.RecordOf` reads it in that order. `UsgsEtl.FeatureOf` writes it back in that order. Reading back a published feature gives the record again. Publishing the record of a feature gives the feature again when its position has exactly three numbers; a longer position loses its extra numbers.
- The clustering script takes the KMeans labels and centroids as inputs.
- `list(zip(centroids, cluster_sizes))` stops at the shorter list. `np.bincount` gives `max(label) + 1` counts. So a centroid whose index is above every label is not stored. `RunClustering` states this as written.
- `LabelsIndexStoredClusters` proves that, with labels KMeans can produce, indexing `cluster_ids[label]` never fails.

Facts about the code that shape the model:

- The `Earthquake` entity has seven fields and no cluster reference. The `cluster_id` column appears only in the SQL of `cluster.py`, so it lives in `EarthquakeStore.EarthquakeRow` and not in the entity.
- The controllers call `getFilteredClusters`, `getEarthquakesByClusterId`, `getEarthquakeById`, `saveEarthquake`, `updateEarthquake` and `deleteEarthquake`. No service defines them, so search, pagination and earthquake editing are not modelled.
- `EarthquakeService` defines only `getAllEarthquakes`, a plain `findAll`.
- After an earthquake detail fetch settles, `onPopupOpen` sets `loadingId` to null. It does this even when a later popup has meanwhile started its own fetch. `Settled` keeps that behaviour.

## Model

| member | source | states |
|---|---|---|
| `Entities.EarthquakeCluster.constructor` | backend/src/main/java/com/geosight/backend/model/EarthquakeCluster.java:7-17 | a new entity has a null id, zero coordinates and size 0 |
| `Entities.EarthquakeCluster.GetId` | backend/src/main/java/com/geosight/backend/model/EarthquakeCluster.java:21-23 | returns the entity's stored field, unchanged |
| `Entities.EarthquakeCluster.GetLatitude` | backend/src/main/java/com/geosight/backend/model/EarthquakeCluster.java:29-31 | returns the entity's stored field, unchanged |
| `Entities.EarthquakeCluster.GetLongitude` | backend/src/main/java/com/geosight/backend/model/EarthquakeCluster.java:37-39 | returns the entity's stored field, unchanged |
| `Entities.EarthquakeCluster.GetClusterSize` | backend/src/main/java/com/geosight/backend/model/EarthquakeCluster.java:45-47 | returns the entity's stored field, unchanged |
| `Entities.EarthquakeCluster.SetId` | backend/src/main/java/com/geosight/backend/model/EarthquakeCluster.java:21-27 | `GetId()` then returns the new id; latitude, longitude and size are unchanged |
| `Entities.EarthquakeCluster.SetLatitude` | backend/src/main/java/com/geosight/backend/model/EarthquakeCluster.java:29-35 | `GetLatitude()` then returns the new value; the other three fields are unchanged |
| `Entities.EarthquakeCluster.SetLongitude` | backend/src/main/java/com/geosight/backend/model/EarthquakeCluster.java:37-43 | `GetLongitude()` then returns the new value; the other three fields are unchanged |
| `Entities.EarthquakeCluster.SetClusterSize` | backend/src/main/java/com/geosight/backend/model/EarthquakeCluster.java:45-51 | `GetClusterSize()` then returns the new integer count; the other three fields are unchanged |
| `Entities.Earthquake.constructor` | backend/src/main/java/com/geosight/backend/model/Earthquake.java:12-23 | the seven persisted fields start null or zero; there is no id generation and no cluster field |
| `Entities.Earthquake.GetId` | backend/src/main/java/com/geosight/backend/model/Earthquake.java:27-29 | returns the entity's stored field, unchanged |
| `Entities.Earthquake.GetTime` | backend/src/main/java/com/geosight/backend/model/Earthquake.java:35-37 | returns the entity's stored field, unchanged |
| `Entities.Earthquake.GetLatitude` | backend/src/main/java/com/geosight/backend/model/Earthquake.java:43-45 | returns the entity's stored field, unchanged |
| `Entities.Earthquake.GetLongitude` | backend/src/main/java/com/geosight/backend/model/Earthquake.java:51-53 | returns the entity's stored field, unchanged |
| `Entities.Earthquake.GetDepth` | backend/src/main/java/com/geosight/backend/model/Earthquake.java:59-61 | returns the entity's stored field, unchanged |
| `Entities.Earthquake.GetMagnitude` | backend/src/main/java/com/geosight/backend/model/Earthquake.java:67-69 | returns the entity's stored field, unchanged |
| `Entities.Earthquake.GetPlace` | backend/src/main/java/com/geosight/backend/model/Earthquake.java:75-77 | returns the entity's stored field, unchanged |
| `Entities.Earthquake.SetId` | backend/src/main/java/com/geosight/backend/model/Earthquake.java:27-33 | `GetId()` then returns the caller-supplied key; the other six fields are unchanged |
| `Entities.Earthquake.SetTime` | backend/src/main/java/com/geosight/backend/model/Earthquake.java:35-41 | `GetTime()` then returns the new time; the other six fields are unchanged |
| `Entities.Earthquake.SetLatitude` | backend/src/main/java/com/geosight/backend/model/Earthquake.java:43-49 | `GetLatitude()` then returns the new value; the other six fields are unchanged |
| `Entities.Earthquake.SetLongitude` | backend/src/main/java/com/geosight/backend/model/Earthquake.java:51-57 | `GetLongitude()` then returns the new value; the other six fields are unchanged |
| `Entities.Earthquake.SetDepth` | backend/src/main/java/com/geosight/backend/model/Earthquake.java:59-65 | `GetDepth()` then returns the new value; the other six fields are unchanged |
| `Entities.Earthquake.SetMagnitude` | backend/src/main/java/com/geosight/backend/model/Earthquake.java:67-73 | `GetMagnitude()` then returns the new value; the other six fields are unchanged |
| `Entities.Earthquake.SetPlace` | backend/src/main/java/com/geosight/backend/model/Earthquake.java:75-81 | `GetPlace()` then returns the new value; the other six fields are unchanged |
| `ClusterStore.Replaced` | backend/src/main/java/com/geosight/backend/service/EarthquakeClusterService.java:37-41 | after an update, the row keeps its stored id and takes the new latitude, longitude and size; the key set and every other row are unchanged |
| `ClusterStore.Removed` | backend/src/main/java/com/geosight/backend/service/EarthquakeClusterService.java:48 | a delete removes exactly that key, so there is one row fewer and every remaining row is unchanged |
| `ClusterStore.ReplacedIsFullReplacement` | backend/src/main/java/com/geosight/backend/service/EarthquakeClusterService.java:33-42 | reading the id after an update gives exactly the new values under the path id, with no partial merge; rows stay keyed by their id |
| `ClusterStore.ReplacedTwice` | backend/src/main/java/com/geosight/backend/service/EarthquakeClusterService.java:37-41 | two updates in a row are the same as the second update alone |
| `ClusterStore.ClusterTable.constructor` | backend/src/main/java/com/geosight/backend/model/EarthquakeCluster.java:9-11 | the table starts empty, with its identity sequence at 1 |
| `ClusterStore.ClusterTable.FindById` | backend/src/main/java/com/geosight/backend/service/EarthquakeClusterService.java:25 | gives the stored row when the id is present, and null when it is absent |
| `ClusterStore.ClusterTable.ExistsById` | backend/src/main/java/com/geosight/backend/service/EarthquakeClusterService.java:45 | true exactly when the id is stored |
| `ClusterStore.ClusterTable.FindAll` | backend/src/main/java/com/geosight/backend/service/EarthquakeClusterService.java:21 | lists every stored row exactly once, and nothing else |
| `ClusterStore.ClusterTable.Insert` | backend/src/main/java/com/geosight/backend/model/EarthquakeCluster.java:9-11 | an insert gets the next sequence value, which no current row has; the sequence moves forward |
| `ClusterStore.ClusterTable.InsertAll` | etl-scripts/cluster.py:49-56 | a multi-row insert returns one fresh id per row, consecutive and in input order; old rows are untouched |
| `ClusterStore.ClusterTable.Save` | backend/src/main/java/com/geosight/backend/service/EarthquakeClusterService.java:41 | writing back a persisted entity overwrites its row only |
| `ClusterStore.ClusterTable.DeleteById` | backend/src/main/java/com/geosight/backend/service/EarthquakeClusterService.java:48 | removes that key only; the sequence is not rewound |
| `ClusterStore.ClusterTable.DeleteAll` | etl-scripts/cluster.py:48 | empties the table without resetting the sequence |
| `ClusterService.EarthquakeClusterService.constructor` | backend/src/main/java/com/geosight/backend/service/EarthquakeClusterService.java:13-18 | the service wraps the given repository |
| `ClusterService.EarthquakeClusterService.GetAllClusters` | backend/src/main/java/com/geosight/backend/service/EarthquakeClusterService.java:20-22 | returns every stored cluster once, and nothing else |
| `ClusterService.EarthquakeClusterService.GetClusterById` | backend/src/main/java/com/geosight/backend/service/EarthquakeClusterService.java:24-27 | returns the stored cluster when the id is present; fails with ClusterNotFound(id) when it is absent |
| `ClusterService.EarthquakeClusterService.CreateCluster` | backend/src/main/java/com/geosight/backend/service/EarthquakeClusterService.java:29-31 | an entity without an id is inserted under the next sequence value, the sequence moves on by one, and that id is written back into the entity; an entity with a stored id overwrites its row; an entity with an unknown id fails, and neither the table, the sequence nor the entity's id changes |
| `ClusterService.EarthquakeClusterService.Load` | backend/src/main/java/com/geosight/backend/service/EarthquakeClusterService.java:34 | `findById` hands back a new managed entity whose id, latitude, longitude and size are the stored row's |
| `ClusterService.EarthquakeClusterService.UpdateCluster` | backend/src/main/java/com/geosight/backend/service/EarthquakeClusterService.java:33-42 | an absent id fails with ClusterNotFound and leaves the store unchanged; a present id gets the body's latitude, longitude and size and keeps the path id; every other row is unchanged |
| `ClusterService.EarthquakeClusterService.DeleteCluster` | backend/src/main/java/com/geosight/backend/service/EarthquakeClusterService.java:44-49 | an absent id fails with ClusterNotFound and leaves the store unchanged; a present id is the only key removed |
| `EarthquakeStore.UpsertOne` | etl-scripts/etl.py:52-61 | a new id is inserted with all seven columns and a null cluster_id; an existing id gets its six other columns overwritten and keeps its cluster_id; other rows are untouched |
| `EarthquakeStore.Upserted` | etl-scripts/etl.py:52-69 | the key set grows by the batch's ids; no existing row's cluster_id changes; new rows have a null cluster_id; rows whose ids are not in the batch are untouched |
| `EarthquakeStore.UpsertedRow` | etl-scripts/etl.py:53-61 | in a batch without repeated ids, each record's row holds exactly that record's seven columns |
| `EarthquakeStore.UpsertedKeyedById` | etl-scripts/etl.py:55 | the upsert keeps every row under its own primary key |
| `EarthquakeStore.WithClusterIds` | etl-scripts/cluster.py:70-75 | setting cluster ids changes no key set and no column but cluster_id; earthquakes named by no pair are untouched |
| `EarthquakeStore.WithClusterIdsAssigns` | etl-scripts/cluster.py:69-75 | when no earthquake id repeats, each listed earthquake that exists gets the cluster id paired with it |
| `EarthquakeStore.EarthquakeTable.constructor` | etl-scripts/etl.py:53-55 | the table starts empty, and so every row is filed under its own `id`, the conflict key |
| `EarthquakeStore.EarthquakeTable.InsertEarthquakes` | etl-scripts/etl.py:46-70 | a batch with a repeated id fails and changes nothing; otherwise the table becomes the upsert of the batch, and each record of the batch is stored under its id with exactly its columns |
| `EarthquakeStore.EarthquakeTable.SetClusterIds` | etl-scripts/cluster.py:70-76 | the table becomes the result of the cluster-id update |
| `ClusterAssignment.MaxLabel` | etl-scripts/cluster.py:41 | gives a bound on every label that some label reaches, which fixes the number of counts |
| `ClusterAssignment.Bump` | etl-scripts/cluster.py:41 | adding one label grows the counts with zeros up to that label and adds one to its count |
| `ClusterAssignment.BinCount` | etl-scripts/cluster.py:41 | count k is the number of positions holding label k, for every k from 0 to the largest label |
| `ClusterAssignment.BinCountSum` | etl-scripts/cluster.py:41 | the counts add up to the number of clustered earthquakes |
| `ClusterAssignment.CountBeyondMax` | etl-scripts/cluster.py:41 | no earthquake has a label above the last count |
| `ClusterAssignment.Zip` | etl-scripts/cluster.py:89 | pairs the i-th centroid with the i-th size, stopping at the shorter list |
| `ClusterAssignment.InsertValues` | etl-scripts/cluster.py:54 | builds one (latitude, longitude, size) row per cluster, in input order |
| `ClusterAssignment.StoreClusters` | etl-scripts/cluster.py:45-58 | with no clusters the `fetchall` raises, the DELETE is rolled back and the table and its sequence are unchanged; otherwise the table holds exactly the new rows, and the returned ids are the next sequence values, one per cluster in cluster order |
| `ClusterAssignment.UpdatePairs` | etl-scripts/cluster.py:69 | succeeds exactly when every zipped label indexes `cluster_ids`; gives min(len(ids), len(labels)) pairs, the i-th being (cluster_ids[labels[i]], earthquake_ids[i]) |
| `ClusterAssignment.UpdateEarthquakeClusterIds` | etl-scripts/cluster.py:60-76 | an out-of-range label raises before anything is written; otherwise every pair's cluster id is written |
| `ClusterAssignment.RunClustering` | etl-scripts/cluster.py:78-97 | with no earthquakes nothing is written; with earthquakes but nothing to zip, storing the clusters raises and neither table changes; otherwise the cluster table holds exactly the zipped centroids and counts and the sequence has moved on by their number, then the earthquakes get their cluster ids, or nothing if a label is out of range |
| `ClusterAssignment.LabelsIndexStoredClusters` | etl-scripts/cluster.py:87-95 | when every label is below the number of centroids, every label indexes a stored cluster id, so the update cannot fail |
| `UsgsEtl.RecordOf` | etl-scripts/etl.py:27-38 | latitude is coordinates[1], longitude is coordinates[0] and depth is coordinates[2]; id, time, magnitude and place are copied; a position shorter than three raises |
| `UsgsEtl.FeatureOf` | etl-scripts/etl.py:33-35 | a record is published as a three-number position [longitude, latitude, depth] |
| `UsgsEtl.RecordOfFeatureOf` | etl-scripts/etl.py:30-38 | reading the feature published for a record gives that record back |
| `UsgsEtl.FeatureOfRecordOf` | etl-scripts/etl.py:33-35 | a feature with a three-number position is exactly the feature published for its record |
| `UsgsEtl.FetchEarthquakeData` | etl-scripts/etl.py:23-39 | exactly one record per feature, in feature order; fails exactly when some position is short |
| `UsgsEtl.RunEtl` | etl-scripts/etl.py:73-88 | a failed fetch or a repeated id writes nothing; otherwise the table becomes the upsert of the feed's records |
| `UsgsEtlVenv.RecordOf` | etl-scripts/venv/etl.py:19-29 | the same coordinate order and copied fields as in etl.py |
| `UsgsEtlVenv.SameRecordAsEtl` | etl-scripts/venv/etl.py:21-29 | this copy builds the same record from a feature as etl.py does |
| `UsgsEtlVenv.FetchEarthquakeData` | etl-scripts/venv/etl.py:14-30 | exactly one record per feature, in feature order, equal to what etl.py builds |
| `EarthquakeMarkers.CssName` | frontend/src/components/EarthquakeMarkers.tsx:25-27 | every class name the marker uses starts with `magnitude-` |
| `EarthquakeMarkers.CssNameDistinct` | frontend/src/components/EarthquakeMarkers.tsx:25-27 | the three classes get three different CSS names |
| `EarthquakeMarkers.Classify` | frontend/src/components/EarthquakeMarkers.tsx:23-27 | high exactly when magnitude ≥ 5; medium exactly when 2 ≤ magnitude < 5; low exactly when magnitude < 2 |
| `EarthquakeMarkers.ClassifyMonotone` | frontend/src/components/EarthquakeMarkers.tsx:24-27 | a larger magnitude never gets a lower class |
| `EarthquakeMarkers.DiamondMarker` | frontend/src/components/EarthquakeMarkers.tsx:23-35 | the div carries the magnitude's class; the icon is 24×24, anchored at its centre, with the popup at its top edge |
| `EarthquakeMarkers.Open` | frontend/src/components/EarthquakeMarkers.tsx:38-41 | the id always becomes open; a fetch starts exactly when the id is neither cached nor loading, and it then becomes the loading id |
| `EarthquakeMarkers.Settled` | frontend/src/components/EarthquakeMarkers.tsx:42-49 | a success adds the detail to the cache without dropping or changing other entries; a failure leaves the cache as it was; the loading id is cleared whether the fetch succeeded or failed |
| `EarthquakeMarkers.Close` | frontend/src/components/EarthquakeMarkers.tsx:53 | the id is no longer open; the cache and loading id are unchanged |
| `EarthquakeMarkers.NoRefetchAfterSuccess` | frontend/src/components/EarthquakeMarkers.tsx:38-50 | after a successful fetch, opening the same popup again starts no fetch |
| `EarthquakeMarkers.RetryAfterFailure` | frontend/src/components/EarthquakeMarkers.tsx:40-49 | after a failed fetch of an uncached id, the next open fetches again |
| `EarthquakeMarkers.NoDoubleFetchWhileLoading` | frontend/src/components/EarthquakeMarkers.tsx:40-41 | while an id is loading, opening it again starts no second fetch |
| `EarthquakeMarkers.MarkerPopups.constructor` | frontend/src/components/EarthquakeMarkers.tsx:11-15 | nothing open, nothing cached, nothing loading |
| `EarthquakeMarkers.MarkerPopups.OnPopupOpen` | frontend/src/components/EarthquakeMarkers.tsx:38-41 | the state changes as `Open` says, and the method reports whether a fetch started |
| `EarthquakeMarkers.MarkerPopups.OnFetchSettled` | frontend/src/components/EarthquakeMarkers.tsx:42-49 | the state changes as `Settled` says |
| `EarthquakeMarkers.MarkerPopups.OnPopupClose` | frontend/src/components/EarthquakeMarkers.tsx:53 | the state changes as `Close` says |
| `ClusterHotspots.Diameter` | frontend/src/components/ClusterHotspots.tsx:30 | a marker for a non-negative size is never below 20 pixels, the size of an empty cluster's marker |
| `ClusterHotspots.ClusterMarker` | frontend/src/components/ClusterHotspots.tsx:24-43 | the caption is the size; width, height and icon size are all 20 + 3·size; the anchor is the centre and the popup anchor is the top edge |
| `ClusterHotspots.DiameterStrictlyIncreasing` | frontend/src/components/ClusterHotspots.tsx:30 | a bigger cluster gets a strictly bigger marker |

## Left out

- HTTP controllers, `EarthquakeService`, the repository interfaces and `DatabaseConfig`: these only route and wire. The filtered search and pagination that the controller asks for have no implementation in the service, so none is modelled.
- KMeans fitting (scikit-learn) is floating-point numerics in a foreign library. Its labels and centroids are inputs. Its error on fewer samples than clusters is not modelled.
- Database and network I/O are left out: connections, commits, `pd.read_sql`, `requests.get`, `raise_for_status` and JSON decoding. Decoded features and the fetched earthquake ids are inputs. A feature missing a key (`KeyError`) is not modelled, because every `Feature` has all its members.
- A null `mag` or `place` in the USGS feed is not modelled. The feed can publish such nulls.
- `pd.to_datetime`, `LocalDateTime` and Jackson date formatting: a time is an opaque count of milliseconds.
- `float()` and `int()` casts, IEEE doubles (rounding, NaN) and `toFixed(4)`: every number is an exact `real` or `int`.
- Entities.EarthquakeCluster.SetClusterSize: does not model Java's 32-bit `int` wrap-around. Sizes are counts of earthquakes, far below 2^31.
- ClusterHotspots.ClusterMarker: uses exact integers and reals, not JavaScript doubles. The two agree for any realistic size.
- ClusterAssignment.StoreClusters: does not model psycopg2's `execute_values` paging of 100 rows per statement. With more than 100 clusters, `cur.fetchall()` would return only the last page's ids. The script always asks for 5 clusters.
- EarthquakeStore.EarthquakeTable.InsertEarthquakes: treats the batch as one statement. With psycopg2's 100-row pages, a repeated id in two different pages would be applied twice, last one winning, and would not fail.
- EarthquakeStore.WithClusterIds: when one earthquake id appears in several pairs, the last pair wins. PostgreSQL's `UPDATE ... FROM` picks an unpredictable one. The script's ids are primary keys read from the table, so they never repeat.
- ClusterService.EarthquakeClusterService.CreateCluster: does not pin down the case of a body whose id is not stored. It is modelled as a failed merge, which is what Hibernate 6.6 and later does. Earlier Hibernate versions insert the row under a fresh id instead.
- React and Leaflet rendering: `DivIcon` construction, JSX, the other pages and the API modules.
- EarthquakeMarkers.Open: models the truthiness test `!detailedEarthquakes[id]` as key membership. In JavaScript an id equal to an inherited property name such as `constructor` would read as cached, and a cached falsy value would be fetched again. USGS ids are network code plus digits, never such names, and every cached detail is a JSON object, which is truthy.
- EarthquakeMarkers.MarkerPopups.OnPopupOpen: splits the asynchronous handler at its `await`. Overlapping promises are the caller's interleaving of `OnPopupOpen` and `OnFetchSettled`. React's batching of state updates and stale closures are not modelled.
