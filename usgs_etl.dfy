/**
 * The ETL script that loads the USGS "all earthquakes, past month" GeoJSON
 * feed into the `earthquakes` table.  The HTTP request and JSON decoding are
 * not modelled: the decoded features are the input.  A GeoJSON position is
 * [longitude, latitude, depth], in that order (section 3.1.1 of RFC 7946).
 */
module UsgsEtl {
  import opened Results
  import opened EarthquakeStore

  /** The members of a feature's `properties` that the script reads; `time` is epoch milliseconds. */
  datatype Properties = Properties(time: int, mag: real, place: string)
  datatype Geometry = Geometry(coordinates: seq<real>)
  datatype Feature = Feature(id: string, properties: Properties, geometry: Geometry)

  datatype FetchError = CoordinateMissing   // Python's IndexError on `geom['coordinates'][k]`

  /** The dictionary built for one feature; a position with fewer than three numbers raises. */
  function RecordOf(feature: Feature): (r: Result<EarthquakeRecord, FetchError>)
    ensures r.Ok? <==> |feature.geometry.coordinates| >= 3
    ensures r.Ok? ==>
      && r.value.latitude == feature.geometry.coordinates[1]
      && r.value.longitude == feature.geometry.coordinates[0]
      && r.value.depth == feature.geometry.coordinates[2]
    ensures r.Ok? ==>
      && r.value.id == feature.id
      && r.value.time == feature.properties.time
      && r.value.magnitude == feature.properties.mag
      && r.value.place == feature.properties.place
  {
    var props := feature.properties;
    var coordinates := feature.geometry.coordinates;
    if |coordinates| < 3 then Err(CoordinateMissing)
    else Ok(EarthquakeRecord(feature.id, props.time, coordinates[1], coordinates[0], coordinates[2], props.mag, props.place))
  }

  /** The feature the USGS feed publishes for a record: position [longitude, latitude, depth]. */
  function FeatureOf(rec: EarthquakeRecord): (f: Feature)
    ensures |f.geometry.coordinates| == 3
  {
    Feature(rec.id, Properties(rec.time, rec.magnitude, rec.place),
            Geometry([rec.longitude, rec.latitude, rec.depth]))
  }

  /** Reading a published feature gives back the record it was made from. */
  lemma RecordOfFeatureOf(rec: EarthquakeRecord)
    ensures RecordOf(FeatureOf(rec)) == Ok(rec)
  {
  }

  /** A feature with a three-number position is exactly the feature of its record. */
  lemma FeatureOfRecordOf(feature: Feature)
    requires |feature.geometry.coordinates| == 3
    ensures RecordOf(feature).Ok? && FeatureOf(RecordOf(feature).value) == feature
  {
  }

  /** `fetch_earthquake_data`: one record per feature, in feature order. */
  method FetchEarthquakeData(features: seq<Feature>) returns (r: Result<seq<EarthquakeRecord>, FetchError>)
    ensures r.Ok? <==> Complete(features)
    ensures r.Ok? ==> |r.value| == |features|
    ensures r.Ok? ==> forall i :: 0 <= i < |features| ==> RecordOf(features[i]) == Ok(r.value[i])
    ensures r.Err? ==> r.error == CoordinateMissing
  {
    var records := [];
    for i := 0 to |features|
      invariant |records| == i
      invariant forall j :: 0 <= j < i ==> RecordOf(features[j]) == Ok(records[j])
    {
      var record := RecordOf(features[i]);
      if record.Err? {
        return Err(record.error);
      }
      records := records + [record.value];
    }
    r := Ok(records);
  }

  /** Every feature has a full position, so every record can be built. */
  predicate Complete(features: seq<Feature>)
  {
    forall i :: 0 <= i < |features| ==> |features[i].geometry.coordinates| >= 3
  }

  /** The records of a complete feed, in feature order. */
  function Records(features: seq<Feature>): seq<EarthquakeRecord>
    requires Complete(features)
  {
    seq(|features|, i requires 0 <= i < |features| => RecordOf(features[i]).value)
  }

  datatype EtlError = FetchFailed(fetch: FetchError) | InsertFailed(insert: UpsertError)

  /** The script's main block: fetch, then upsert into the table; a failure writes nothing. */
  method RunEtl(table: EarthquakeTable, features: seq<Feature>) returns (r: Result<(), EtlError>)
    requires table.Valid()
    modifies table
    ensures table.Valid()
    ensures !Complete(features) ==>
      r == Err(FetchFailed(CoordinateMissing)) && table.rows == old(table.rows)
    ensures Complete(features) && !DistinctIds(Records(features)) ==>
      r == Err(InsertFailed(RowAffectedTwice)) && table.rows == old(table.rows)
    ensures Complete(features) && DistinctIds(Records(features)) ==>
      r == Ok(()) && table.rows == Upserted(old(table.rows), Records(features))
  {
    var fetched := FetchEarthquakeData(features);
    if fetched.Err? {
      return Err(FetchFailed(fetched.error));
    }
    assert fetched.value == Records(features);
    var inserted := table.InsertEarthquakes(fetched.value);
    if inserted.Err? {
      return Err(InsertFailed(inserted.error));
    }
    r := Ok(());
  }
}
