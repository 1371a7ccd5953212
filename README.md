# Air-quality map pipeline — a Dafny model

This project models the pollution-data-to-map pipeline of a small Flask
application (`app.py`). The application forwards a user's text to a webhook.
The webhook's JSON reply carries five parallel arrays: `location`, `AQI`, `CO`,
`SO2` and `PM25`. From them the handler builds a dict from region (province)
name to a reading. It joins that dict by exact name with the province
boundaries of a GeoJSON file. It then colours each province by its AQI band
and gives each a tooltip.

The model has these modules:

- `Normalizer` (`normalizer.dfy`): the shape check on the five arrays and the
  per-index loop. The loop keeps non-empty string names and converts each
  pollutant field on its own. A bad field becomes `None`. A later duplicate
  name replaces the earlier entry. The loop is a method proved against the
  specification function `Readings`. The lemmas about `Readings` give the
  properties: which keys exist, at most one entry per index, the last write
  wins, one field is isolated from the others, and a skipped index is
  irrelevant.
- `Severity` (`severity.dfy`): `get_color` as a total function from a nullable
  AQI to one of six colours, with bands closed above at 50, 100, 150 and 200. It
  has lemmas for the partition and for monotonicity. It also models the
  legend's six rows, and a lemma checks the legend against the classifier.
- `Composer` (`composer.dfy`): the tooltip loop (a method over an array of
  features that sets `tooltip_info` in place), `style_function`,
  `highlight_function`, and `create_pollution_map`. The last one has two
  error-text returns and a KeyError for a feature without `NAME_1`.
- `Pipeline` (`pipeline.dfy`): the part of the handler after the reply is
  parsed. It builds the map only when the arrays are well shaped and at least
  one reading was kept. An error text from the map builder becomes the page's
  error, and the map then stays empty.
- `Wrappers` and `Strings`: `Option`, and Python's substring test `t in s`.

Raw JSON values are the datatype `Normalizer.Json`. A JSON string carries
`asFloat`, which is what Python's `float()` makes of its text. Python's
conversion of a float to text is a parameter `fmt`.

Four behaviours of the code are easy to miss. The model follows the code in
each:

- An empty reading dict produces no map at all (app.py:236), not a map with
  every region in the no-data state.
- Malformed arrays produce no map and no error message (app.py:193-199, 246).
- An absent field prints as `None` in the tooltip. The placeholder
  `Không có dữ liệu` can never appear, because every entry has all four keys.
- A boundary feature without `NAME_1` raises KeyError inside the tooltip loop.
  The handler's generic exception message reports it.

## Model

| member | source | states |
|---|---|---|
| Normalizer.ParseOrAbsent | app.py:208-226 | A field is present exactly when the raw value is a number, a boolean, or a non-empty string that float() accepts. None and '' are absent. A number keeps its value. |
| Normalizer.NameOf | app.py:204-206 | Only a non-empty string is a region name, and the name is that string. |
| Normalizer.MakeEntry | app.py:228-233 | Every stored reading has exactly the four keys AQI, CO, SO2 and PM2.5, each holding its own converted field. |
| Normalizer.EntryAt | app.py:208-233 | The entry for an index holds, under each pollutant's key, the conversion of that pollutant's raw value at that same index. |
| Normalizer.Latest | app.py:203-206 | Gives the index of the last accepted occurrence of a name below a bound: that index carries the name and no later index does. Gives -1 when no index names it. |
| Normalizer.ReadingsUpTo | app.py:202-233 | After any number of iterations, every entry of the dict is the whole reading of some index already visited that carries the entry's name. |
| Normalizer.Readings | app.py:202-233 | The reference definition of the finished dict: each accepted name maps to the reading of its last index. Every stored reading has exactly the four keys AQI, CO, SO2 and PM2.5. |
| Normalizer.BuildReadings | app.py:202-233 | The loop's dict equals `Readings` of the five arrays. The loop invariant is that after i steps the dict equals the readings of the first i indices. |
| Normalizer.ShapeCheckExamples | app.py:193-199 | The shape check `WellShaped` rejects a missing key, an empty `location` and a length mismatch. |
| Normalizer.Normalize | app.py:193-233 | Gives no dict exactly when the shape check `WellShaped` fails: a value is not a list, `location` is empty, or the lengths differ. Otherwise it gives the readings of the five arrays. |
| Normalizer.StepAccepted | app.py:206-233 | An iteration whose index carries a name stores that index's entry under the name and changes no other key. |
| Normalizer.StepSkipped | app.py:206 | An iteration whose index carries no name leaves the dict unchanged. |
| Normalizer.ReadingsKeys | app.py:203-206 | A name is a key of the dict exactly when it is non-empty and is the text of some string in `location`. |
| Normalizer.ReadingsSize | app.py:203-228 | The dict has at most as many entries as `location` has elements. |
| Normalizer.ReadingsEmpty | app.py:203-206 | The dict is empty exactly when no index carries a non-empty string name. |
| Normalizer.LastWriteWins | app.py:203-233 | Take a name and the highest index that carries it. The name's entry is that index's reading, whole, with no field merged from earlier indices. |
| Normalizer.FieldIsolation | app.py:208-226 | Changing one pollutant's raw value at one index changes only that one field of the entry whose last index it is. The set of keys and every other field and entry stay the same. |
| Normalizer.SkippedIndexIrrelevant | app.py:204-206 | An index without a valid name does not affect the dict: the dict is the same as without that index. |
| Normalizer.PartialReadingExample | app.py:208-233 | Input `["A"], [""], ["x"], [None], [12.5]` gives `{A: {AQI: None, CO: None, SO2: None, PM2.5: 12.5}}`. |
| Severity.GetColor | app.py:55-68 | Total: a missing AQI and only a missing AQI is light gray. Every number gets one of the five coloured bands. |
| Severity.Bands | app.py:56-66 | Green exactly for AQI ≤ 50. Yellow for 50 < AQI ≤ 100, orange for 100 < AQI ≤ 150, red for 150 < AQI ≤ 200, purple above 200. |
| Severity.Monotone | app.py:56-66 | A higher AQI never gets a milder band. |
| Severity.BoundaryExamples | app.py:55-68 | 50 is green, 50.01 is yellow, 200 is red, 200.01 is purple, and a missing value is light gray. |
| Severity.Legend | app.py:103-131 | The legend has six rows: the five bands from mildest to most severe, then the row for a missing value. |
| Severity.LegendListsEveryColorOnce | app.py:108-131 | Every colour has exactly one legend row. |
| Severity.LegendAgreesOnWholeValues | app.py:108-127 | For a whole AQI of zero or more, exactly one row's printed range contains it. That row's swatch is the colour `get_color` gives. |
| Severity.LegendNoDataRow | app.py:128-131 | The row without numbers has the colour of a missing AQI. |
| Composer.Lookup | app.py:37 | The lookup finds a reading exactly when the region's name is a key, with exact, case-sensitive matching. |
| Composer.Slot | app.py:43-46 | What a slot prints for a key that is there: the field's number exactly when the field is present, otherwise `None`, and never the placeholder. |
| Composer.ShowField | app.py:43-46 | A tooltip slot shows the placeholder exactly when the key is missing. For a present key it shows `Slot` of the field: a number exactly when the field is present, and that number is the field's value. |
| Composer.TooltipFor | app.py:36-52 | A tooltip names its province. It shows pollutant values exactly when the lookup finds a non-empty reading: `Found` is the truth value of the looked-up dict. |
| Composer.Html | app.py:40-52 | A tooltip's HTML starts with the header and the province in bold. What follows is only the closing tags exactly when the tooltip has no values. |
| Composer.DetailTail | app.py:41-46 | The values part closes the bold name and breaks the line. It then prints each slot's text (`ShownText`: the number's text, `None` or the placeholder) after its label and before its unit: AQI in bold, CO in ppm, SO₂ and PM2.5 in µg/m³. |
| Composer.HtmlContainsProvince | app.py:40-52 | The tooltip's HTML contains the province name, with or without a reading. |
| Composer.AttachTooltips | app.py:35-53 | Succeeds exactly when every feature has `NAME_1`. Then every feature has its `tooltip_info` set and nothing else changed. On a missing `NAME_1` it stops at the first such feature: the features before it are annotated and the rest are untouched. |
| Composer.AqiOf | app.py:78-79 | When the region has a reading with an AQI key, the style's AQI is that key's value. Otherwise it is absent. |
| Composer.StyleFor | app.py:75-84 | The fill is `get_color` of the AQI of the region's reading. It is light gray exactly when there is no reading, no AQI key, or an absent AQI. The stroke is black, weight 1, and fill opacity 0.7. |
| Composer.HighlightFor | app.py:94-98 | Every feature gets the same highlight: weight 3, blue, fill opacity 0.9, shadow pane. |
| Composer.Annotated | app.py:35-53 | The loop keeps the number of features, and every annotated feature still has `NAME_1`. |
| Composer.CreatePollutionMap | app.py:21-100 | A missing file and invalid JSON give their two error texts. A feature without `NAME_1` raises KeyError. Otherwise the result is the composed map of the loaded features. |
| Composer.ComposedPerRegion | app.py:35-98 | One feature, style and highlight per region, in the file's order. Each feature keeps every property and gains only `tooltip_info`. That is the HTML of the region's tooltip, and it contains the region's name. Each style is `style_function` of the region and each highlight is `highlight_function` of it. |
| Composer.NormalizedTooltip | app.py:39-47 | With the normalizer's dict, a tooltip has values exactly when the name is a key. Each slot then shows the field's number or None, never the placeholder. |
| Composer.NormalizedStyle | app.py:75-84 | With the normalizer's dict, the fill is `get_color` of the region's AQI, or of None when there is no reading. It is light gray exactly when there is no reading or no AQI. The stroke is black, weight 1, and fill opacity 0.7. |
| Composer.NoReadingsNoData | app.py:35-84 | With an empty dict every region is light gray and its tooltip shows only its name. |
| Composer.TwoRegionExample | app.py:35-84 | For regions A and B with one reading of AQI 40 for A: A is green with its values, and B is light gray with its name only. |
| Strings.ContainsPiece | app.py:239 | `Contains` is Python's substring test `t in s`. A text made of a prefix, a piece and a suffix contains the piece. |
| Strings.ContainsEachPiece | app.py:41-46 | A text written as a head and four pieces contains each of the four pieces. |
| Pipeline.KeyErrorNamesKey | app.py:252-254 | The page's error for a KeyError is the handler's prefix followed by `str()` of the error (`KeyErrorText`), and it contains the missing key in single quotes. |
| Pipeline.MessagesCarryMarker | app.py:26-29 | Both error texts of the map builder contain `Lỗi:`, the marker the handler tests for. |
| Pipeline.HandleReply | app.py:193-241 | Malformed arrays or an empty dict give no map and no error. A map appears exactly when the arrays are well shaped, a reading was kept, the file loaded, and every feature is named. Then it is the composed map and there is no error. Any error leaves the map empty. An error text never ends up as the map. |

## Left out

- The Flask app, routing, form handling, `render_template` and the
  conversation history are left out. They are web plumbing and UI state.
- The webhook POST is left out: `raise_for_status`, JSON decoding of the
  reply, its `reply` key, and the handlers for those failures. It is network
  I/O. The model starts from the values of the five keys. A missing key reads
  as `Null`, as `dict.get` gives it. A reply that is not a JSON object is not
  modelled.
- Opening and parsing the GeoJSON file and creating the `Data` folder are left
  out as filesystem I/O. The file is the datatype `Composer.Boundary`: missing,
  not JSON, or loaded features. The `features` and `properties` keys are taken
  to exist. Other decoding errors are not modelled.
- Feature geometry is left out. It passes through untouched. Property values
  are strings, as in the GADM level-1 file, so non-string `NAME_1` values are
  not modelled.
- The folium map is left out: the base layer (centre 16.0, 108.0, zoom 6,
  `cartodbpositron`), the `GeoJson`/`GeoJsonTooltip` options, the legend's
  markup and resize script, and the save/read/remove of the temporary HTML file.
  They are a foreign rendering library and file I/O.
- Composer.CreatePollutionMap: it returns the composed artifact (annotated
  features, styles, highlights) instead of folium's HTML. So the handler's
  `"Lỗi:" in map_html` test is not applied to a rendered map. The model treats
  a rendered map as never containing the marker.
- Python's float parsing and float-to-text formatting are left out. They are
  the `asFloat` field of a JSON string and the `fmt` parameter.
- IEEE edge cases are left out: NaN, infinities, rounding, and the
  OverflowError of a huge integer. AQI is a `real`. NaN would fall through to
  purple in `get_color`.
- The insertion order of the reading dict is left out. Only lookups by name
  read the dict.
- The legend's captions give whole-number ranges (0-50, 51-100, …).
  `Severity.LegendAgreesOnWholeValues` relates them to the classifier only for
  whole, non-negative AQI values. A fractional AQI such as 50.5 is yellow, and
  no caption's range contains it.
