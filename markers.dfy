/**
 * The marker builder of the earthquake map (`createFeatures`).
 *
 * Each feed feature becomes one circle marker: centred at the feature's point
 * with the GeoJSON longitude-first order swapped to latitude-first, filled with
 * the depth's colour, sized by magnitude times 10000 and carrying a popup. All
 * markers go into one layer group, which is added to the map once.
 */
module Markers {
  import opened ColorScale

  /**
   * A GeoJSON point position in the order of section 3.1.1 of RFC 7946:
   * longitude, latitude, then the third element, which the feed uses for depth in km.
   */
  datatype Position = Position(longitude: real, latitude: real, depth: real)
  {
    /** The position as the array `geometry.coordinates`. */
    function Coordinates(): (cs: seq<real>)
      ensures |cs| == 3
    {
      [longitude, latitude, depth]
    }
  }

  /** One earthquake: `geometry.coordinates` and `properties.mag`. */
  datatype Feature = Feature(coordinates: Position, mag: real)

  /** A map point in Leaflet's latitude-first order. */
  datatype LatLng = LatLng(lat: real, lng: real)

  /** A piece of the popup's template string: fixed text or an interpolated number. */
  datatype Fragment = Lit(text: string) | Num(value: real)

  /** The options of one `L.circle` and the popup bound to it. */
  datatype Marker = Marker(
    center: LatLng,
    stroke: bool,
    color: string,
    weight: real,
    fillOpacity: real,
    fillColor: Swatch,
    radius: real,
    popup: seq<Fragment>)

  /** A layer group: the markers it holds, in the order they were pushed. */
  datatype LayerGroup = LayerGroup(markers: seq<Marker>)

  const RadiusScale: real := 10000.0
  const StrokeColor: string := "black"
  const StrokeWeight: real := 0.2
  const FillOpacity: real := 1.0

  /** The numbers interpolated into a popup, in the order they appear. */
  function PopupNumbers(p: seq<Fragment>): seq<real> {
    if p == [] then []
    else match p[0]
      case Num(x) => [x] + PopupNumbers(p[1..])
      case Lit(_) => PopupNumbers(p[1..])
  }

  /** The popup numbers of a concatenation are those of its parts, in order. */
  lemma {:induction false} PopupNumbersAppend(p: seq<Fragment>, q: seq<Fragment>)
    ensures PopupNumbers(p + q) == PopupNumbers(p) + PopupNumbers(q)
  {
    if p == [] {
      assert p + q == q;
    } else {
      assert (p + q)[0] == p[0];
      assert (p + q)[1..] == p[1..] + q;
      PopupNumbersAppend(p[1..], q);
    }
  }

  /** A fixed text followed by one interpolated number contributes just that number. */
  lemma PopupNumbersPair(t: string, x: real)
    ensures PopupNumbers([Lit(t), Num(x)]) == [x]
  {
    assert [Lit(t), Num(x)][1..] == [Num(x)];
    assert [Num(x)][1..] == [];
    assert PopupNumbers([Num(x)]) == [x] + PopupNumbers([]);
  }

  /** The popup text: magnitude, depth in km, then longitude and latitude. */
  function Popup(magnitude: real, depth: real, longitude: real, latitude: real): (p: seq<Fragment>)
    ensures PopupNumbers(p) == [magnitude, depth, longitude, latitude]
    ensures exists i :: 0 <= i < |p| - 1 && p[i] == Num(depth) && p[i + 1] == Lit(" km</p><hr><p>Longitute, Latitude: ")
  {
    var magPart := [Lit("<h3>Magnitude: "), Num(magnitude)];
    var depthPart := [Lit("</h3><hr><p>Depth: "), Num(depth)];
    var lonPart := [Lit(" km</p><hr><p>Longitute, Latitude: "), Num(longitude)];
    var latPart := [Lit(", "), Num(latitude)];
    var close := [Lit("</p>")];
    PopupNumbersPair("<h3>Magnitude: ", magnitude);
    PopupNumbersPair("</h3><hr><p>Depth: ", depth);
    PopupNumbersPair(" km</p><hr><p>Longitute, Latitude: ", longitude);
    PopupNumbersPair(", ", latitude);
    assert PopupNumbers(close) == [] by { assert close[1..] == []; }
    PopupNumbersAppend(magPart, depthPart);
    PopupNumbersAppend(magPart + depthPart, lonPart);
    PopupNumbersAppend(magPart + depthPart + lonPart, latPart);
    PopupNumbersAppend(magPart + depthPart + lonPart + latPart, close);
    var p := magPart + depthPart + lonPart + latPart + close;
    assert p[3] == Num(depth) && p[4] == Lit(" km</p><hr><p>Longitute, Latitude: ");
    p
  }

  /**
   * What a marker says about the feature it was drawn for: the centre swapped
   * back to longitude-first, the depth shown in the popup, and the radius
   * divided by the scale.
   */
  function FeatureOf(m: Marker): Feature {
    var nums := PopupNumbers(m.popup);
    Feature(Position(m.center.lng, m.center.lat, if |nums| >= 2 then nums[1] else 0.0),
            m.radius / RadiusScale)
  }

  /** The marker `createFeatures` builds for one feature. */
  function MarkerFor(f: Feature): (m: Marker)
    ensures FeatureOf(m) == f
    ensures InBin(f.coordinates.depth, m.fillColor.Index())
    ensures m.fillColor.Hex() in Palette
    ensures m.stroke && m.color == StrokeColor && m.weight == StrokeWeight && m.fillOpacity == FillOpacity
    ensures PopupNumbers(m.popup) == [f.mag, f.coordinates.depth, f.coordinates.longitude, f.coordinates.latitude]
  {
    var longitude := f.coordinates.Coordinates()[0];
    var latitude := f.coordinates.Coordinates()[1];
    var depth := f.coordinates.Coordinates()[2];
    var magnitude := f.mag;
    GetColorInPalette(depth);
    Marker(LatLng(latitude, longitude), true, StrokeColor, StrokeWeight, FillOpacity,
           GetColor(depth), magnitude * RadiusScale, Popup(magnitude, depth, longitude, latitude))
  }

  /** Two features drawn as the same marker are the same feature. */
  lemma MarkerForInjective(f: Feature, g: Feature)
    requires MarkerFor(f) == MarkerFor(g)
    ensures f == g
  {
  }

  /** A larger magnitude gives a larger circle. */
  lemma RadiusMonotone(f: Feature, g: Feature)
    requires f.mag < g.mag
    ensures MarkerFor(f).radius < MarkerFor(g).radius
  {
  }

  /** Markers are exactly one per feature, in feature order. */
  ghost predicate MarkersMatch(markers: seq<Marker>, features: seq<Feature>) {
    && |markers| == |features|
    && forall i :: 0 <= i < |features| ==> markers[i] == MarkerFor(features[i])
  }

  /** The `forEach` loop: pushes one marker per feature onto `earthquakeMarkers`. */
  method BuildMarkers(earthquakeData: seq<Feature>) returns (earthquakeMarkers: seq<Marker>)
    ensures |earthquakeMarkers| == |earthquakeData|
    ensures forall i :: 0 <= i < |earthquakeData| ==>
              && earthquakeMarkers[i] == MarkerFor(earthquakeData[i])
              && FeatureOf(earthquakeMarkers[i]) == earthquakeData[i]
  {
    earthquakeMarkers := [];
    for i := 0 to |earthquakeData|
      invariant |earthquakeMarkers| == i
      invariant forall j :: 0 <= j < i ==> earthquakeMarkers[j] == MarkerFor(earthquakeData[j])
    {
      earthquakeMarkers := earthquakeMarkers + [MarkerFor(earthquakeData[i])];
    }
  }

  /** The map: the overlay layers added to it, in the order they were added. */
  class MapCanvas {
    var overlays: seq<LayerGroup>

    constructor ()
      ensures overlays == []
    {
      overlays := [];
    }
  }

  /** `createFeatures`: builds the markers and adds their layer group to the map, exactly once. */
  method CreateFeatures(myMap: MapCanvas, earthquakeData: seq<Feature>)
    modifies myMap
    ensures |myMap.overlays| == |old(myMap.overlays)| + 1
    ensures myMap.overlays[..|old(myMap.overlays)|] == old(myMap.overlays)
    ensures MarkersMatch(myMap.overlays[|old(myMap.overlays)|].markers, earthquakeData)
  {
    var earthquakeMarkers := BuildMarkers(earthquakeData);
    var earthquakeLayer := LayerGroup(earthquakeMarkers);
    myMap.overlays := myMap.overlays + [earthquakeLayer];
  }

  /** An empty feed still adds one layer to a fresh map, and that layer is empty. */
  method RenderEmptyFeed() returns (overlays: seq<LayerGroup>)
    ensures overlays == [LayerGroup([])]
  {
    var myMap := new MapCanvas();
    CreateFeatures(myMap, []);
    overlays := myMap.overlays;
  }

  /** The example event at (-120.5, 38.2), 15 km deep, magnitude 4.2. */
  lemma ExampleMarker()
    ensures var m := MarkerFor(Feature(Position(-120.5, 38.2, 15.0), 4.2));
            && m.center == LatLng(38.2, -120.5)
            && m.radius == 42000.0
            && m.fillColor.Hex() == "#dcf400"
            && PopupNumbers(m.popup) == [4.2, 15.0, -120.5, 38.2]
  {
  }
}
