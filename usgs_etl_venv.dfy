/**
 * The earlier copy of the USGS fetch kept beside the virtual environment: the
 * same feature-to-record loop, with no database write.
 */
module UsgsEtlVenv {
  import opened Results
  import opened EarthquakeStore
  import UsgsEtl

  /** This copy's dictionary literal, key by key. */
  function RecordOf(feature: UsgsEtl.Feature): (r: Result<EarthquakeRecord, UsgsEtl.FetchError>)
    ensures r.Ok? <==> |feature.geometry.coordinates| >= 3
    ensures r.Ok? ==>
      && r.value.latitude == feature.geometry.coordinates[1]
      && r.value.longitude == feature.geometry.coordinates[0]
      && r.value.depth == feature.geometry.coordinates[2]
    ensures r.Ok? ==>
      && r.value.id == feature.id
      && r.value.time == feature.properties.time
      && r.value.magnitude == feature.properties.mag
      && r.value.place == feature.properties.place
  {
    var props := feature.properties;
    var geom := feature.geometry;
    if |geom.coordinates| < 3 then Err(UsgsEtl.CoordinateMissing)
    else Ok(EarthquakeRecord(
      id := feature.id,
      time := props.time,
      latitude := geom.coordinates[1],
      longitude := geom.coordinates[0],
      depth := geom.coordinates[2],
      magnitude := props.mag,
      place := props.place))
  }

  /** Both copies build the same record from the same feature. */
  lemma SameRecordAsEtl(feature: UsgsEtl.Feature)
    ensures RecordOf(feature) == UsgsEtl.RecordOf(feature)
  {
  }

  /** `fetch_earthquake_data`: one record per feature, in feature order. */
  method FetchEarthquakeData(features: seq<UsgsEtl.Feature>) returns (r: Result<seq<EarthquakeRecord>, UsgsEtl.FetchError>)
    ensures r.Ok? <==> UsgsEtl.Complete(features)
    ensures r.Ok? ==> |r.value| == |features|
    ensures r.Ok? ==> forall i :: 0 <= i < |features| ==> RecordOf(features[i]) == Ok(r.value[i])
    ensures r.Ok? ==> r.value == UsgsEtl.Records(features)
  {
    var records := [];
    for i := 0 to |features|
      invariant |records| == i
      invariant forall j :: 0 <= j < i ==> RecordOf(features[j]) == Ok(records[j])
    {
      var record := RecordOf(features[i]);
      if record.Err? {
        return Err(record.error);
      }
      records := records + [record.value];
    }
    r := Ok(records);
  }
}
