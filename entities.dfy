/**
 * The two JPA entities of the backend: plain field holders whose setters
 * assign exactly one field.  Java's reference types (`Long`, `String`,
 * `LocalDateTime`) may hold null, so they are `Option`s here; the primitive
 * `double` and `int` fields start at zero as in Java.
 */
module Entities {
  import opened Results

  /** Row `earthquake_clusters`: a centroid and the number of earthquakes in it. */
  class EarthquakeCluster {
    var id: Option<int>        // store-generated (IDENTITY); null until persisted
    var latitude: real
    var longitude: real
    var clusterSize: int       // column `cluster_size`

    constructor ()
      ensures id == None && latitude == 0.0 && longitude == 0.0 && clusterSize == 0
    {
      id := None;
      latitude := 0.0;
      longitude := 0.0;
      clusterSize := 0;
    }

    /** The getters return the stored field; each setter's postcondition reads its value back through them. */
    function GetId(): (r: Option<int>)
      reads this
      ensures r == id
    {
      id
    }

    function GetLatitude(): (r: real)
      reads this
      ensures r == latitude
    {
      latitude
    }

    function GetLongitude(): (r: real)
      reads this
      ensures r == longitude
    {
      longitude
    }

    function GetClusterSize(): (r: int)
      reads this
      ensures r == clusterSize
    {
      clusterSize
    }

    method SetId(id: Option<int>)
      modifies this
      ensures GetId() == id
      ensures latitude == old(latitude) && longitude == old(longitude) && clusterSize == old(clusterSize)
    {
      this.id := id;
    }

    method SetLatitude(latitude: real)
      modifies this
      ensures GetLatitude() == latitude
      ensures id == old(id) && longitude == old(longitude) && clusterSize == old(clusterSize)
    {
      this.latitude := latitude;
    }

    method SetLongitude(longitude: real)
      modifies this
      ensures GetLongitude() == longitude
      ensures id == old(id) && latitude == old(latitude) && clusterSize == old(clusterSize)
    {
      this.longitude := longitude;
    }

    method SetClusterSize(clusterSize: int)
      modifies this
      ensures GetClusterSize() == clusterSize
      ensures id == old(id) && latitude == old(latitude) && longitude == old(longitude)
    {
      this.clusterSize := clusterSize;
    }
  }

  /**
   * Row `earthquakes` as the backend maps it: seven persisted fields, a
   * caller-supplied string key with no generation strategy, and no cluster
   * reference.  `time` is kept as an opaque instant in epoch milliseconds.
   */
  class Earthquake {
    var id: Option<string>
    var time: Option<int>
    var latitude: real
    var longitude: real
    var depth: real
    var magnitude: real
    var place: Option<string>

    constructor ()
      ensures id == None && time == None && place == None
      ensures latitude == 0.0 && longitude == 0.0 && depth == 0.0 && magnitude == 0.0
    {
      id := None;
      time := None;
      latitude := 0.0;
      longitude := 0.0;
      depth := 0.0;
      magnitude := 0.0;
      place := None;
    }

    /** The getters return the stored field. */
    function GetId(): (r: Option<string>)
      reads this
      ensures r == id
    {
      id
    }

    function GetTime(): (r: Option<int>)
      reads this
      ensures r == time
    {
      time
    }

    function GetLatitude(): (r: real)
      reads this
      ensures r == latitude
    {
      latitude
    }

    function GetLongitude(): (r: real)
      reads this
      ensures r == longitude
    {
      longitude
    }

    function GetDepth(): (r: real)
      reads this
      ensures r == depth
    {
      depth
    }

    function GetMagnitude(): (r: real)
      reads this
      ensures r == magnitude
    {
      magnitude
    }

    function GetPlace(): (r: Option<string>)
      reads this
      ensures r == place
    {
      place
    }

    method SetId(id: Option<string>)
      modifies this
      ensures GetId() == id
      ensures time == old(time) && latitude == old(latitude) && longitude == old(longitude)
      ensures depth == old(depth) && magnitude == old(magnitude) && place == old(place)
    {
      this.id := id;
    }

    method SetTime(time: Option<int>)
      modifies this
      ensures GetTime() == time
      ensures id == old(id) && latitude == old(latitude) && longitude == old(longitude)
      ensures depth == old(depth) && magnitude == old(magnitude) && place == old(place)
    {
      this.time := time;
    }

    method SetLatitude(latitude: real)
      modifies this
      ensures GetLatitude() == latitude
      ensures id == old(id) && time == old(time) && longitude == old(longitude)
      ensures depth == old(depth) && magnitude == old(magnitude) && place == old(place)
    {
      this.latitude := latitude;
    }

    method SetLongitude(longitude: real)
      modifies this
      ensures GetLongitude() == longitude
      ensures id == old(id) && time == old(time) && latitude == old(latitude)
      ensures depth == old(depth) && magnitude == old(magnitude) && place == old(place)
    {
      this.longitude := longitude;
    }

    method SetDepth(depth: real)
      modifies this
      ensures GetDepth() == depth
      ensures id == old(id) && time == old(time) && latitude == old(latitude)
      ensures longitude == old(longitude) && magnitude == old(magnitude) && place == old(place)
    {
      this.depth := depth;
    }

    method SetMagnitude(magnitude: real)
      modifies this
      ensures GetMagnitude() == magnitude
      ensures id == old(id) && time == old(time) && latitude == old(latitude)
      ensures longitude == old(longitude) && depth == old(depth) && place == old(place)
    {
      this.magnitude := magnitude;
    }

    method SetPlace(place: Option<string>)
      modifies this
      ensures GetPlace() == place
      ensures id == old(id) && time == old(time) && latitude == old(latitude)
      ensures longitude == old(longitude) && depth == old(depth) && magnitude == old(magnitude)
    {
      this.place := place;
    }
  }
}
