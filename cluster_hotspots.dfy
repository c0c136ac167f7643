/** The hotspot map: one round marker per stored cluster, scaled by its size. */
module ClusterHotspots {

  /** The options of the `DivIcon` for one cluster (the `div`'s caption and CSS size, and the Leaflet geometry). */
  datatype ClusterIcon = ClusterIcon(
    caption: int, width: int, height: int,
    iconSize: (int, int), iconAnchor: (real, real), popupAnchor: (real, real))

  /** The marker's diameter in pixels: 20 for an empty cluster, never less for a real one. */
  function Diameter(size: int): (d: int)
    ensures size >= 0 ==> d >= 20
  {
    20 + size * 3
  }

  /**
   * `createClusterMarker`: a square box of side `Diameter(size)` labelled with
   * the size, anchored at its centre, with the popup at its top edge.
   */
  function ClusterMarker(size: int): (icon: ClusterIcon)
    ensures icon.caption == size
    ensures icon.width == Diameter(size) && icon.height == icon.width
    ensures icon.iconSize == (icon.width, icon.height)
    ensures icon.iconAnchor.0 * 2.0 == icon.width as real && icon.iconAnchor.1 * 2.0 == icon.height as real
    ensures icon.popupAnchor == (0.0, -icon.iconAnchor.1)
  {
    var d := Diameter(size);
    ClusterIcon(size, d, d, (d, d), (d as real / 2.0, d as real / 2.0), (0.0, -(d as real / 2.0)))
  }

  /** A bigger cluster always gets a strictly bigger marker. */
  lemma DiameterStrictlyIncreasing(a: int, b: int)
    requires a < b
    ensures Diameter(a) < Diameter(b)
  {
  }
}
