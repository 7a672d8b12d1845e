# Earthquake map: depth colours, markers and legend

A Dafny model of the logic in `static/js/logic.js` of a small Leaflet page.
The page plots the past week's earthquakes from the USGS feed. The model covers three parts:

- **Colour scale** (`color_scale.dfy`, module `ColorScale`): `getColor` maps a depth in km to one of six swatches.
  It uses strict `>` comparisons against 90, 70, 50, 30 and 10, tried from the deepest threshold down.
  The model proves that the scale is total and exact: depth `d` gets bin `k` if and only if `d` lies in bin `k`'s half-open interval.
  It also proves that the scale is monotone and strict at every threshold, and that it agrees with a reference count of the thresholds below the depth.
- **Marker builder** (`markers.dfy`, module `Markers`): `createFeatures` turns each feed feature into one circle marker.
  The marker is centred at `[latitude, longitude]`: the GeoJSON longitude-first order of section 3.1.1 of RFC 7946, swapped for Leaflet.
  It is filled with the depth's swatch and has radius `mag * 10000`.
  Its popup shows the magnitude, the depth with " km", then longitude and latitude.
  The loop pushes one marker per feature, in order. The resulting layer group is added to the map exactly once, also when the feed is empty.
  The map is a class whose `overlays` field records the added layers.
- **Legend** (`legend.dfy`, module `Legend`): the loop inside `legend.onAdd` writes one line per grade of `[-10, 10, 30, 50, 70, 90]`.
  Each line has a square coloured `getColor(from + 1)`, then `from&ndash;to`, or `from+` when `grades[i + 1]` is `undefined`.
  The lines are joined with `<br>`. The model splits the loop (`BuildLabels`) from the join (`OnAdd`).
  The legend's grades are written out separately from `getColor`'s thresholds.
  The model proves that they agree: line `i`'s colour is the colour `getColor` gives every depth in `(grades[i], grades[i+1]]`, or every depth above 90 for the last line.

A depth exactly on a threshold gets the **lower** bin's colour, because the comparisons are strict.
For example, `getColor(10)` is `#a3f600` and `getColor(90)` is `#fca35d`.

## Model

| member | source | states |
|---|---|---|
| `ColorScale.GetColor` | static/js/logic.js:42-49 | every depth is classified into a swatch whose bin contains it: above the previous threshold and at or below the next |
| `ColorScale.GetColorExact` | static/js/logic.js:42-49 | getColor picks bin k if and only if the depth lies in bin k (both directions) |
| `ColorScale.BinUnique` | static/js/logic.js:42-49 | the six bins do not overlap: a depth is in at most one bin |
| `ColorScale.GetColorInPalette` | static/js/logic.js:42-49 | every depth yields one of the six colour strings, the one at its bin's index |
| `ColorScale.HexInjective` | static/js/logic.js:43-48 | the six swatches have six distinct colour strings |
| `ColorScale.GetColorMonotone` | static/js/logic.js:42-49 | a deeper event never gets a shallower bin than a shallower event |
| `ColorScale.ShallowIsLime` | static/js/logic.js:47-48 | every depth of 10 km or less, negative depths included, gets `#a3f600` |
| `ColorScale.StrictAtThreshold` | static/js/logic.js:43-47 | a depth equal to a threshold gets the lower bin; every depth above it, up to the next threshold, gets the next bin |
| `ColorScale.BoundaryColours` | static/js/logic.js:43-48 | concrete colours: 10 and -10 give `#a3f600`, 11 and 15 give `#dcf400`, 90 gives `#fca35d`, 91 gives `#FF5f65` |
| `ColorScale.CountBelowSorted` | static/js/logic.js:43-47 | in an ascending threshold table, a depth between thresholds k-1 and k strictly exceeds exactly k of them |
| `ColorScale.GetColorCountsThresholds` | static/js/logic.js:42-49 | getColor's bin equals the number of thresholds the depth strictly exceeds |
| `Markers.Popup` | static/js/logic.js:72 | the popup interpolates magnitude, depth, longitude and latitude in that order, and the depth is followed by " km" |
| `Markers.MarkerFor` | static/js/logic.js:58-72 | a marker gives back its feature: the centre swapped back to longitude-first, the depth from the popup, the radius divided by 10000; its fill colour is the depth's bin; stroke "black", weight 0.2, fill opacity 1; the popup's numbers are magnitude, depth, longitude and latitude of the feature, in that order |
| `Markers.MarkerForInjective` | static/js/logic.js:58-72 | two features drawn as the same marker are the same feature |
| `Markers.RadiusMonotone` | static/js/logic.js:71 | a larger magnitude gives a strictly larger radius |
| `Markers.BuildMarkers` | static/js/logic.js:54-74 | exactly one marker per feature, in input order, each the marker of its feature and giving that feature back |
| `Markers.MapCanvas.constructor` | static/js/logic.js:24-28 | a new map has no overlay layers |
| `Markers.CreateFeatures` | static/js/logic.js:52-79 | exactly one layer is added to the map, after the existing ones, holding one marker per feature in order |
| `Markers.RenderEmptyFeed` | static/js/logic.js:52-79 | an empty feed still adds one layer to the map, and that layer is empty |
| `Markers.ExampleMarker` | static/js/logic.js:58-72 | the event at (-120.5, 38.2), 15 km deep, magnitude 4.2 is drawn at (38.2, -120.5) with radius 42000, colour `#dcf400` and popup numbers 4.2, 15, -120.5, 38.2 |
| `ColorScale.SwatchAtIndex` | static/js/logic.js:42-49 | every swatch is the swatch of its own bin index, so bins and swatches correspond one to one |
| `Legend.NatStringValue` | static/js/logic.js:103 | a natural number's numeral is digits only, starts with `0` only for 0, and reads back as that number |
| `Legend.DecimalString` | static/js/logic.js:103 | an integer written into the label begins with a minus sign exactly when it is negative |
| `Legend.DecimalStringValue` | static/js/logic.js:103 | the string written for an integer reads back as that integer, and after the sign it is a numeral without leading zeros |
| `Legend.NextGradeTruthy` | static/js/logic.js:99-103 | `grades[i + 1]` is truthy exactly for lines 0 to 4, where it is the next grade; past the end it is `undefined` |
| `Legend.BinEntry` | static/js/logic.js:92-105 | line i names bin i's swatch and starts at grade i; it is a from–to range ending at grade i + 1 for lines 0 to 4, and open-ended for line 5 only |
| `Legend.GradesAreThresholds` | static/js/logic.js:92 | the legend has six grades, and its grades after the first are exactly getColor's five thresholds, in order |
| `Legend.LegendSwatchCoversBin` | static/js/logic.js:102 | every depth in the range that legend line i names gets line i's colour from getColor |
| `Legend.LegendSwatchIsBinColour` | static/js/logic.js:102 | the square painted `getColor(from + 1)` is bin i's colour |
| `Legend.BelowLegendIsFirstColour` | static/js/logic.js:92 | depths at or below -10, which no legend line names, still get the first line's colour |
| `Legend.LabelHtmlIsEntry` | static/js/logic.js:101-104 | the label the loop builds from `grades[i]`, `grades[i + 1]` and JavaScript truthiness is line i as it should read |
| `Legend.BuildLabels` | static/js/logic.js:92-105 | the loop pushes exactly six labels, and label i is line i of the legend: bin i's colour and bin i's range |
| `Legend.OnAdd` | static/js/logic.js:92-106 | the legend's HTML is its six lines, in order, joined with `<br>` |
| `Legend.LegendEndLines` | static/js/logic.js:102-103 | the first line reads `-10&ndash;10` in `#a3f600` and the last reads `90+` in `#FF5f65` |

## Left out

- Map construction, its centre and zoom, and the OpenStreetMap tile layer (static/js/logic.js:24-33): these are Leaflet configuration with no logic. The map is reduced to the list of overlay layers added to it.
- The `d3.json` fetch of the feed and its unhandled rejection (static/js/logic.js:37-40): network I/O and asynchrony. `CreateFeatures` takes the feature list as a parameter.
- Leaflet and DOM objects (`L.circle`, `bindPopup`, `L.layerGroup`, `addTo` of the legend control, `L.DomUtil.create`, the legend `div`'s background, padding and shadow): replaced by plain records and sequences. The legend's result is its `innerHTML` string.
- Features with missing or non-numeric fields: a feature is a record of four numbers, so the degenerate markers that `undefined` or `NaN` values give are not modelled. A missing depth would compare false against every threshold and get `#a3f600`. A feature whose `geometry` is `null` or that has no `properties` makes line 58 or 61 throw a `TypeError`; that ends the `forEach`, so line 78 never runs and no layer is added. The model does not have this failure path.
- Floating point: depths, coordinates, magnitudes and radii are exact reals, so `mag * 10000` is exact multiplication with no IEEE-754 rounding.
- `Markers.Popup`: the popup's numbers are kept as numbers. How JavaScript prints a non-integer number inside the HTML is not modelled.
- `Legend.DecimalString`: only integer grades are written into legend labels, so JavaScript's printing of non-integer numbers (fractions, exponents) is not modelled.
