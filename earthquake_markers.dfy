/**
 * The earthquake layer of the map: the magnitude classifier behind the
 * diamond marker, and the bookkeeping of popups whose details are fetched
 * once and cached.
 */
module EarthquakeMarkers {
  import opened Results

  datatype MagnitudeClass = Low | Medium | High

  /** The CSS class the marker's `div` carries. */
  function CssName(c: MagnitudeClass): (name: string)
    ensures |name| > 10 && name[..10] == "magnitude-"
  {
    match c
    case High => "magnitude-high"
    case Medium => "magnitude-medium"
    case Low => "magnitude-low"
  }

  /** The three classes style three different CSS classes. */
  lemma CssNameDistinct(a: MagnitudeClass, b: MagnitudeClass)
    requires a != b
    ensures CssName(a) != CssName(b)
  {
  }

  /** The threshold chain of `createDiamondMarker`: 5 and above is high, 2 and above medium. */
  function Classify(magnitude: real): (c: MagnitudeClass)
    ensures c == High <==> magnitude >= 5.0
    ensures c == Medium <==> 2.0 <= magnitude < 5.0
    ensures c == Low <==> magnitude < 2.0
  {
    if magnitude >= 5.0 then High
    else if magnitude >= 2.0 then Medium
    else Low
  }

  function Rank(c: MagnitudeClass): nat
  {
    match c
    case Low => 0
    case Medium => 1
    case High => 2
  }

  /** A stronger earthquake never gets a lower class. */
  lemma ClassifyMonotone(a: real, b: real)
    requires a <= b
    ensures Rank(Classify(a)) <= Rank(Classify(b))
  {
  }

  /** The options of the `DivIcon` for one earthquake. */
  datatype DiamondIcon = DiamondIcon(
    className: string, html: string,
    iconSize: (int, int), iconAnchor: (int, int), popupAnchor: (int, int))

  /** `createDiamondMarker`: a 24 by 24 icon anchored at its centre, popup opening at its top edge. */
  function DiamondMarker(magnitude: real): (icon: DiamondIcon)
    ensures icon.className == "custom-earthquake-marker"
    ensures icon.html == "<div class=\"diamond-marker " + CssName(Classify(magnitude)) + "\"></div>"
    ensures icon.iconSize == (24, 24)
    ensures 2 * icon.iconAnchor.0 == icon.iconSize.0 && 2 * icon.iconAnchor.1 == icon.iconSize.1
    ensures icon.popupAnchor == (0, -icon.iconAnchor.1)
  {
    var magnitudeClass := CssName(Classify(magnitude));
    DiamondIcon("custom-earthquake-marker", "<div class=\"diamond-marker " + magnitudeClass + "\"></div>",
                (24, 24), (12, 12), (0, -12))
  }

  /** The front end's `Earthquake` type, as the detail endpoint returns it. */
  datatype QuakeDetail = QuakeDetail(
    id: string, time: string, latitude: real, longitude: real, depth: real, magnitude: real, place: string)

  /** The component's popup state: the open popups, the detail cache and the id being loaded. */
  datatype PopupView = PopupView(openPopups: set<string>, detailed: map<string, QuakeDetail>, loadingId: Option<string>)

  /**
   * The synchronous part of `onPopupOpen`, up to the `await`: mark the popup
   * open, and start a fetch only when the id is neither cached nor loading.
   * The second component says whether a fetch started.
   */
  function Open(s: PopupView, id: string): (r: (PopupView, bool))
    ensures r.1 <==> id !in s.detailed && s.loadingId != Some(id)
    ensures r.0.openPopups == s.openPopups + {id}
    ensures r.0.detailed == s.detailed
    ensures r.0.loadingId == if r.1 then Some(id) else s.loadingId
  {
    var fetching := id !in s.detailed && s.loadingId != Some(id);
    (s.(openPopups := s.openPopups + {id}, loadingId := if fetching then Some(id) else s.loadingId), fetching)
  }

  /**
   * The rest of `onPopupOpen`, after the fetch settles: a success adds the
   * detail to the cache, and `finally` clears the loading id either way.
   */
  function Settled(s: PopupView, id: string, fetched: Option<QuakeDetail>): (r: PopupView)
    ensures r.openPopups == s.openPopups
    ensures r.loadingId == None
    ensures r.detailed.Keys == s.detailed.Keys + (if fetched.Some? then {id} else {})
    ensures forall k :: k in s.detailed && k != id ==> r.detailed[k] == s.detailed[k]
    ensures fetched.Some? ==> r.detailed[id] == fetched.value
    ensures fetched.None? ==> r.detailed == s.detailed
  {
    var detailed := if fetched.Some? then s.detailed[id := fetched.value] else s.detailed;
    s.(detailed := detailed, loadingId := None)
  }

  /** `onPopupClose`: the popup is no longer open; nothing else changes. */
  function Close(s: PopupView, id: string): (r: PopupView)
    ensures r.openPopups == s.openPopups - {id}
    ensures r.detailed == s.detailed && r.loadingId == s.loadingId
  {
    s.(openPopups := s.openPopups - {id})
  }

  /** Once a detail is cached, opening its popup again fetches nothing. */
  lemma NoRefetchAfterSuccess(s: PopupView, id: string, detail: QuakeDetail)
    ensures !Open(Settled(Open(s, id).0, id, Some(detail)), id).1
  {
  }

  /** After a failed fetch the id is neither cached nor loading, so the next open retries. */
  lemma RetryAfterFailure(s: PopupView, id: string)
    requires id !in s.detailed
    ensures Open(Settled(Open(s, id).0, id, None), id).1
  {
  }

  /** While a fetch for an id is in flight, opening it again starts no second fetch. */
  lemma NoDoubleFetchWhileLoading(s: PopupView, id: string)
    ensures !Open(Open(s, id).0, id).1
  {
  }

  class MarkerPopups {
    var openPopups: set<string>
    var detailed: map<string, QuakeDetail>
    var loadingId: Option<string>

    function View(): PopupView
      reads this
    {
      PopupView(openPopups, detailed, loadingId)
    }

    /** The initial state of the component: nothing open, nothing cached, nothing loading. */
    constructor ()
      ensures View() == PopupView({}, map[], None)
    {
      openPopups := {};
      detailed := map[];
      loadingId := None;
    }

    method OnPopupOpen(id: string) returns (fetching: bool)
      modifies this
      ensures (View(), fetching) == Open(old(View()), id)
    {
      openPopups := openPopups + {id};
      fetching := id !in detailed && loadingId != Some(id);
      if fetching {
        loadingId := Some(id);
      }
    }

    method OnFetchSettled(id: string, fetched: Option<QuakeDetail>)
      modifies this
      ensures View() == Settled(old(View()), id, fetched)
    {
      if fetched.Some? {
        detailed := detailed[id := fetched.value];
      }
      loadingId := None;
    }

    method OnPopupClose(id: string)
      modifies this
      ensures View() == Close(old(View()), id)
    {
      openPopups := openPopups - {id};
    }
  }
}
