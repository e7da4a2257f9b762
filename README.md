# Earthquake map: marker styling, popup text and depth legend

A model of the rules the earthquake web map applies once the weekly
earthquake feed has loaded (`static/js/logic.js`):

- **Depth colour** (`getColor`): a cascade of strict `>` tests against 90, 70,
  50, 30 and 10 km that picks one of six marker colours, anything at or below
  10 km (negative depths included) falling to the default colour.
- **Magnitude radius** (`getRadius`): 1 for a magnitude at or below zero,
  otherwise five times the magnitude.
- **Marker style** (`styleInfo`): the two rules above plus a fixed stroke
  colour `#000000`, opacity 0.3 and fill opacity 0.8.
- **Popup text**: `"Magnitude: " + mag + "<br>Depth in KM: " + depth +
  "<br>Location Details: " + place`.
- **Depth legend** (`legend.onAdd`): a freshly created `div` of class
  `legend` whose inner HTML receives the heading `<h3>Depth in KM<h3>` (the
  closing tag really is written `<h3>`), then one swatch row per entry of the
  parallel tables `depths = [-10, 10, 30, 50, 70, 90]` and
  `colors = ["#F0FF00", …, "#FF2A00"]`. A row gets the form `lo&ndash;hi<br>`
  when `depths[x + 1]` is truthy, otherwise it ends in `+`. In JavaScript that
  test fails past the end of the array and also for an entry equal to 0.

The legend palette differs from the marker palette. Both are kept as written,
in separate tables.

Files and modules:

- `wrappers.dfy` (module `Wrappers`): the `Option` type.
- `js_values.dfy` (module `JsValues`): the JavaScript behaviour the legend
  depends on. This covers the decimal text of an integer (with `ParseInt` as
  its inverse), `undefined` for a read past the end of an array, and
  truthiness.
- `markers.dfy` (module `Markers`): the feature record, `GetColor`,
  `GetRadius` and `StyleInfo`. It also holds a table-scan definition of the
  depth band (`Band`, counting the thresholds a depth exceeds), which is used
  as an independent reference for the cascade.
- `popup.dfy` (module `Popups`): the popup text and a reader that splits a
  popup text back into its three fields.
- `legend.dfy` (module `Legend`): the legend tables, the pure row and legend
  text functions, a `Div` class whose `innerHTML` field the builder updates
  in place, and the builder methods `OnAdd` and `WriteLegend`. `WriteLegend`
  holds the loop.

`WriteLegend` is the body of `legend.onAdd` with the two tables passed in as
parameters. `OnAdd` creates the `div` and calls it with the script's own
tables. This way the truthiness rule can be stated for other integer tables
too, not only for the fixed one, as long as their entries print as plain
decimal digits (see `IntToString` under "Left out").

## Model

| member | source | states |
|---|---|---|
| `Markers.GetColor` | static/js/logic.js:33-48 | The result is one of the six marker colours. Each colour is returned exactly on its band, in both directions: `#ea2c2c` iff depth > 90, `#ea822c` iff 70 < depth <= 90, and so on down to `#98ee00` iff depth <= 10. So a boundary value falls to the lower band. |
| `Markers.GetColorIsBandColor` | static/js/logic.js:34-47 | The cascade picks the palette entry whose index is the number of thresholds the depth strictly exceeds. That count comes from a scan of the ordered threshold table. |
| `Markers.Band` | static/js/logic.js:34-47 | The table-scan band index is always one of the six palette positions. |
| `Markers.PaletteDistinct` | static/js/logic.js:35-46 | The six marker colours are pairwise different, so a colour determines its band. |
| `Markers.BandMonotone` | static/js/logic.js:34-47 | The colour cascade is monotone: if d1 <= d2, the band of d1 is at most the band of d2. |
| `Markers.GetRadius` | static/js/logic.js:51-53 | The radius is always strictly positive. It is 1 for every magnitude <= 0 and 5·m for every m > 0. |
| `Markers.RadiusMonotoneOnPositives` | static/js/logic.js:52 | On positive magnitudes, a larger magnitude never gives a smaller radius. |
| `Markers.RadiusNotMonotoneAtZero` | static/js/logic.js:52 | The rule is not monotone around 0: magnitude 0 gives 1, but 0.1 gives 0.5. |
| `Markers.RadiusBelowOne` | static/js/logic.js:52 | A radius below 1 occurs exactly for magnitudes strictly between 0 and 0.2. |
| `Markers.StyleInfo` | static/js/logic.js:22-30 | The fill colour is the depth colour of `coordinates[2]`, which is also the palette entry of its band. The radius is the radius rule applied to `properties.mag`, and is positive. Opacity is 0.3, fill opacity 0.8 and stroke colour `#000000`. |
| `Markers.StyleDependsOnlyOnDepthAndMagnitude` | static/js/logic.js:22-29 | Two features with the same depth and magnitude get identical styles, whatever their position or place. |
| `Markers.StyleInfoExample` | static/js/logic.js:22-29 | A feature at depth 12 with magnitude 3.2 gets fill `#d4ee00` and radius 16. |
| `JsValues.NatToString` | static/js/logic.js:85 | The decimal text of a natural number is non-empty, all digits, and has no leading zero. |
| `JsValues.IntToString` | static/js/logic.js:85 | The text of an integer (what `ToJsString` gives for a number) is non-empty and starts with '-' exactly for negatives. The rest is digits. |
| `JsValues.NatToStringRoundTrip` | static/js/logic.js:85 | The digits of a natural number read back to that number. |
| `JsValues.IntToStringRoundTrip` | static/js/logic.js:85 | `ParseInt` undoes `IntToString` for every integer, including the negative legend bound -10. |
| `JsValues.IntToStringInjective` | static/js/logic.js:85 | Distinct integers print differently, so a row label determines its depth bound. |
| `JsValues.TruthyIndex` | static/js/logic.js:85 | The test `depths[x + 1] ? … : …`, modelled as `Truthy` of the array read, succeeds exactly when x + 1 is in range and the entry is not 0. |
| `Popups.PopupRoundTrip` | static/js/logic.js:66-68 | Splitting `PopupText` of any feature (the popup) at its labels gives back exactly the magnitude text, the depth text and the place. This holds whenever the two number texts contain no '<'. |
| `Popups.ParsePopupSound` | static/js/logic.js:65-69 | Conversely, any text that splits into fields is exactly `"Magnitude: " + mag + "<br>Depth in KM: " + depth + "<br>Location Details: " + place`, with nothing before, between or after. |
| `Legend.Div.constructor` | static/js/logic.js:78 | A new element has the given class name and empty inner HTML. |
| `Legend.WriteLegend` | static/js/logic.js:81-86 | The loop appends to the element's existing inner HTML exactly `LegendHtml(depths, colors)`: the heading followed by the `Row` text for every entry of `depths`, in order. |
| `Legend.OnAdd` | static/js/logic.js:77-89 | The builder returns a new element of class `legend` whose inner HTML is the full legend text for the script's two tables. |
| `Legend.RowShape` | static/js/logic.js:84-85 | `Row(depths, colors, i)`, the loop body's text for index i, is its swatch and depth label, followed by `&ndash;` + depths[i+1] + `<br>` exactly when a next entry i+1 exists and is not 0. Otherwise it is followed by "+". Equivalently, the row ends in '+' exactly when that condition fails. |
| `Legend.RowShowsEntry` | static/js/logic.js:84-85 | `Row(depths, colors, i)` opens with the swatch markup, shows `colors[i]` right after it, and shows the text of `depths[i]` right after the swatch. |
| `Legend.RowAt` | static/js/logic.js:81-86 | For every table and every index i, `Row(depths, colors, i)` (the loop body's text for index i) occurs in `LegendHtml(depths, colors)` starting right after the heading and rows 0 to i - 1 joined. So the rows appear one after another, in table order, after the heading. |
| `Legend.FixedLegendRows` | static/js/logic.js:79-86 | With the script's tables there are exactly 6 rows. Rows 0 to 4 end with `&ndash;` + the next depth + `<br>`, and row 5 ends with "+". |
| `Legend.LegendBoundTexts` | static/js/logic.js:79 | The six depth bounds print as "-10", "10", "30", "50", "70" and "90". |
| `Legend.FixedLegendText` | static/js/logic.js:79-86 | The complete legend text for the script's tables, row by row: `-10&ndash;10<br>` in `#F0FF00` through `90+` in `#FF2A00`. |
| `Legend.ZeroEntryEndsRange` | static/js/logic.js:85 | The truthiness test treats a 0 entry as the end of the table. A row followed by a 0 is printed open-ended (`-10+`) even though it is not the last row. |
| `Legend.LegendBoundsAreMarkerThresholds` | static/js/logic.js:79 | The legend's upper bounds 10 to 90 are the marker cascade's thresholds. |
| `Legend.LegendPaletteDiffersFromMarkers` | static/js/logic.js:80 | No legend swatch colour is one of the six marker colours. The legend palette is a separate table. |

## Left out

- Map and tile layer setup, the GeoJSON layer, circle markers, popup binding, the control object and its bottom-right position (static/js/logic.js:2-16, 56-62, 64-65, 71, 74, 92). These are calls into the mapping library, whose code is not part of this model.
- The one-shot network fetch (static/js/logic.js:19) is asynchronous I/O. The model starts from an already-loaded feature. Because the legend is built inside the fetch continuation, it only appears after the data has loaded; the model does not capture this ordering.
- GeoJSON parsing: a feature is a record with three named coordinates and the two properties the script reads. A missing coordinate, a `null` magnitude or a `null` place, which JavaScript would coerce (a `null` place prints as "null" in the popup at static/js/logic.js:68), is not modelled: `Properties.place` is always a string.
- Floating point: depths, magnitudes and radii are exact `real`s, and `5 * m` is exact.
- PopupRoundTrip: how JavaScript writes a non-integral number is not modelled. The popup takes the number-to-text conversion as a function parameter, and the round trip assumes that text contains no '<'.
- DOM semantics of `innerHTML +=`: the browser re-parses and re-serialises the markup after every append. The malformed heading then reads back as `<h3>Depth in KM</h3><h3></h3>`, and the swatch markup is normalised too. The model treats `innerHTML` as a plain string buffer holding exactly the text the script appends.
- IntToString: it writes every integer as plain decimal digits. JavaScript numbers are doubles, so integers above 2^53 are not held exactly and magnitudes of 10^21 and above print in exponent form (`1e+21`); neither is modelled. The script's own legend bounds (-10 to 90) are far inside the range where the two agree.
- WriteLegend: it requires at least as many colours as depths. With a shorter colour table the script would print `undefined` for the missing colour; that case is not modelled.
