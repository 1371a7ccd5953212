/** The composition half of `create_pollution_map` (app.py): every region of
    the boundary file gets a tooltip, a style chosen by its AQI, and the fixed
    highlight style; the boundary file may be missing or not be JSON. */
module Composer {

  import opened Wrappers
  import opened Strings
  import opened Normalizer
  import opened Severity

  /** A region of the loaded boundary file: its `properties` dict (GADM level-1
      properties are all strings). */
  datatype Feature = Feature(properties: map<string, string>)

  const NameKey: string := "NAME_1"
  const TooltipKey: string := "tooltip_info"
  /** The default of the tooltip's `.get(key, ...)` slots. */
  const Placeholder: string := "Không có dữ liệu"

  predicate HasName(f: Feature) {
    NameKey in f.properties
  }

  predicate AllNamed(fs: seq<Feature>) {
    forall i :: 0 <= i < |fs| ==> HasName(fs[i])
  }

  /** `pollution_data.get(province)` */
  function Lookup(data: map<string, Entry>, province: string): (r: Option<Entry>)
    ensures r.Some? <==> province in data
    ensures r.Some? ==> r.value == data[province]
  {
    if province in data then Some(data[province]) else None
  }

  /** `if pollution_info:` -- a dict is true when it is there and not empty. */
  predicate Found(info: Option<Entry>) {
    info.Some? && info.value != map[]
  }

  // ---------------------------------------------------------------------------
  // Tooltips

  /** What one `{pollution_info.get(key, placeholder)}` slot prints: a number,
      Python's `None`, or the placeholder for a missing key. */
  datatype Shown = Number(x: real) | NoneText | PlaceholderText

  /** What a slot prints for a field that is there. */
  function Slot(v: Option<real>): (s: Shown)
    ensures !s.PlaceholderText?
    ensures s.Number? <==> v.Some?
  {
    if v.Some? then Number(v.value) else NoneText
  }

  function ShowField(e: Entry, key: string): (s: Shown)
    ensures s.PlaceholderText? <==> key !in e
    ensures key in e ==> s == Slot(e[key])
    ensures key in e ==> (s.Number? <==> e[key].Some?)
    ensures s.Number? ==> e[key] == Some(s.x)
  {
    if key !in e then PlaceholderText
    else if e[key].Some? then Number(e[key].value)
    else NoneText
  }

  /** The content of a region's tooltip before it is written out as HTML. */
  datatype Tooltip =
    | NameOnly(province: string)
    | Detail(province: string, aqi: Shown, co: Shown, so2: Shown, pm25: Shown)

  /** The tooltip of a region: the values appear only when the exact,
      case-sensitive lookup finds a non-empty reading. */
  function TooltipFor(province: string, data: map<string, Entry>): (t: Tooltip)
    ensures t.province == province
    ensures t.Detail? <==> province in data && data[province] != map[]
  {
    var info := Lookup(data, province);
    if Found(info) then
      Detail(province, ShowField(info.value, AqiKey), ShowField(info.value, CoKey),
             ShowField(info.value, So2Key), ShowField(info.value, Pm25Key))
    else
      NameOnly(province)
  }

  /** Python's text for a slot; `fmt` is Python's conversion of a float to text. */
  function ShownText(s: Shown, fmt: real -> string): string {
    match s
    case Number(x) => fmt(x)
    case NoneText => "None"
    case PlaceholderText => Placeholder
  }

  const TooltipHead: string :=
    "<div style='text-align:left; font-size:14px; padding-left:5px;'>" +
    "<b style='text-align:center; display:block; font-size:16px;'>"

  /** The tooltip as the f-strings of the loop write it: the header, the
      province in bold, and then either the closing tags alone or the values. */
  function Html(t: Tooltip, fmt: real -> string): (r: string)
    ensures |TooltipHead + t.province| <= |r| && r[..|TooltipHead + t.province|] == TooltipHead + t.province
    ensures t.NameOnly? <==> r[|TooltipHead + t.province|..] == "</b></div>"
  {
    match t
    case NameOnly(p) => TooltipHead + p + "</b></div>"
    case Detail(p, aqi, co, so2, pm25) => TooltipHead + p + DetailTail(aqi, co, so2, pm25, fmt)
  }

  /** The values part of a detailed tooltip: it closes the bold name, breaks the
      line, and prints each slot after its label and before its unit. */
  function DetailTail(aqi: Shown, co: Shown, so2: Shown, pm25: Shown, fmt: real -> string): (r: string)
    ensures |r| >= 8 && r[..8] == "</b><br>"
    ensures Contains(r, "AQI: <b>" + ShownText(aqi, fmt) + "</b><br>")
    ensures Contains(r, "CO: " + ShownText(co, fmt) + " ppm<br>")
    ensures Contains(r, "SO₂: " + ShownText(so2, fmt) + " µg/m³<br>")
    ensures Contains(r, "PM2.5: " + ShownText(pm25, fmt) + " µg/m³</div>")
  {
    var open := "</b><br>";
    var a := "AQI: <b>" + ShownText(aqi, fmt) + "</b><br>";
    var c := "CO: " + ShownText(co, fmt) + " ppm<br>";
    var s := "SO₂: " + ShownText(so2, fmt) + " µg/m³<br>";
    var p := "PM2.5: " + ShownText(pm25, fmt) + " µg/m³</div>";
    ContainsEachPiece(open, a, c, s, p);
    open + a + c + s + p
  }

  /** Every tooltip shows its province name. */
  lemma HtmlContainsProvince(t: Tooltip, fmt: real -> string)
    ensures Contains(Html(t, fmt), t.province)
  {
    match t
    case NameOnly(p) =>
      ContainsPiece(TooltipHead, p, "</b></div>");
    case Detail(p, aqi, co, so2, pm25) =>
      ContainsPiece(TooltipHead, p, DetailTail(aqi, co, so2, pm25, fmt));
  }

  /** One iteration of the loop: the feature with its `tooltip_info` property set. */
  function Annotate(f: Feature, data: map<string, Entry>, fmt: real -> string): Feature
    requires HasName(f)
  {
    f.(properties := f.properties[TooltipKey := Html(TooltipFor(f.properties[NameKey], data), fmt)])
  }

  /** The tooltip loop: each feature in turn gets its `tooltip_info`; a feature
      without `NAME_1` raises KeyError, which stops the loop there. */
  method AttachTooltips(features: array<Feature>, data: map<string, Entry>, fmt: real -> string) returns (ok: bool)
    modifies features
    ensures ok <==> AllNamed(old(features[..]))
    ensures ok ==> forall j :: 0 <= j < features.Length ==> features[j] == Annotate(old(features[j]), data, fmt)
    ensures !ok ==> exists k :: (0 <= k < features.Length && !HasName(old(features[k])) &&
              (forall j :: 0 <= j < k ==> HasName(old(features[j])) && features[j] == Annotate(old(features[j]), data, fmt)) &&
              (forall j :: k <= j < features.Length ==> features[j] == old(features[j])))
  {
    var i := 0;
    while i < features.Length
      invariant 0 <= i <= features.Length
      invariant forall j :: 0 <= j < i ==> HasName(old(features[j])) && features[j] == Annotate(old(features[j]), data, fmt)
      invariant forall j :: i <= j < features.Length ==> features[j] == old(features[j])
    {
      var f := features[i];
      if NameKey !in f.properties {
        return false;
      }
      var province := f.properties[NameKey];
      var tooltip := Html(TooltipFor(province, data), fmt);
      features[i] := f.(properties := f.properties[TooltipKey := tooltip]);
      i := i + 1;
    }
    return true;
  }

  // ---------------------------------------------------------------------------
  // Styles

  /** The base style of `style_function`. */
  datatype Style = Style(fillColor: Color, color: string, weight: int, fillOpacity: real)

  /** The style of `highlight_function`, used while the mouse is over a region. */
  datatype HighlightStyle = HighlightStyle(weight: int, color: string, fillOpacity: real, pane: string)

  /** `pollution_data.get(name, {}).get("AQI")`, as a float when it is not None. */
  function AqiOf(data: map<string, Entry>, province: string): (a: Option<real>)
    ensures a.Some? ==> province in data && AqiKey in data[province] && data[province][AqiKey] == a
    ensures province in data && AqiKey in data[province] ==> a == data[province][AqiKey]
  {
    if province in data && AqiKey in data[province] then data[province][AqiKey] else None
  }

  /** `style_function`: the fill is the classifier's colour for the region's
      AQI, light gray unless a reading with a present AQI is found. */
  function StyleFor(f: Feature, data: map<string, Entry>): (s: Style)
    requires HasName(f)
    ensures var name := f.properties[NameKey];
      name in data && AqiKey in data[name] ==> s.fillColor == GetColor(data[name][AqiKey])
    ensures var name := f.properties[NameKey];
      s.fillColor == LightGray <==> !(name in data && AqiKey in data[name] && data[name][AqiKey].Some?)
    ensures s.color == "black" && s.weight == 1 && s.fillOpacity == 0.7
  {
    Style(GetColor(AqiOf(data, f.properties[NameKey])), "black", 1, 0.7)
  }

  /** `highlight_function`: the same style whatever the feature. */
  function HighlightFor(f: Feature): (h: HighlightStyle)
    ensures h.weight == 3 && h.color == "blue" && h.fillOpacity == 0.9 && h.pane == "shadowPane"
  {
    HighlightStyle(3, "blue", 0.9, "shadowPane")
  }

  // ---------------------------------------------------------------------------
  // The map

  /** What the map layer is built from: the annotated features with, index by
      index, their style and highlight. */
  datatype MapArtifact = MapArtifact(features: seq<Feature>, styles: seq<Style>, highlights: seq<HighlightStyle>)

  function Composed(fs: seq<Feature>, data: map<string, Entry>, fmt: real -> string): MapArtifact
    requires AllNamed(fs)
  {
    var annotated := Annotated(fs, data, fmt);
    MapArtifact(annotated, Styles(annotated, data), Highlights(annotated))
  }

  /** The features after the tooltip loop. */
  function Annotated(fs: seq<Feature>, data: map<string, Entry>, fmt: real -> string): (gs: seq<Feature>)
    requires AllNamed(fs)
    ensures |gs| == |fs| && AllNamed(gs)
  {
    seq(|fs|, i requires 0 <= i < |fs| => Annotate(fs[i], data, fmt))
  }

  /** `style_function` applied by the map layer to each feature. */
  function Styles(fs: seq<Feature>, data: map<string, Entry>): seq<Style>
    requires AllNamed(fs)
  {
    seq(|fs|, i requires 0 <= i < |fs| => StyleFor(fs[i], data))
  }

  /** `highlight_function` applied by the map layer to each feature. */
  function Highlights(fs: seq<Feature>): seq<HighlightStyle> {
    seq(|fs|, i requires 0 <= i < |fs| => HighlightFor(fs[i]))
  }

  /** The boundary file as `json.load` leaves it. */
  datatype Boundary = FileMissing | NotJson | Loaded(features: seq<Feature>)

  /** What `create_pollution_map` gives back: the map, an error text, or the
      KeyError it raises for a missing key. */
  datatype MapResult = Rendered(artifact: MapArtifact) | Message(text: string) | Raised(missingKey: string)

  const ErrorMarker: string := "Lỗi:"
  const MissingFileMessage: string :=
    ErrorMarker + " Không tìm thấy file GeoJSON. Vui lòng tải file `gadm41_VNM_1.json` và đặt vào thư mục `Data`."
  const InvalidFileMessage: string := ErrorMarker + " File GeoJSON không hợp lệ."

  method CreatePollutionMap(boundary: Boundary, data: map<string, Entry>, fmt: real -> string) returns (r: MapResult)
    ensures boundary.FileMissing? ==> r == Message(MissingFileMessage)
    ensures boundary.NotJson? ==> r == Message(InvalidFileMessage)
    ensures boundary.Loaded? && AllNamed(boundary.features) ==> r == Rendered(Composed(boundary.features, data, fmt))
    ensures boundary.Loaded? && !AllNamed(boundary.features) ==> r == Raised(NameKey)
  {
    match boundary
    case FileMissing =>
      return Message(MissingFileMessage);
    case NotJson =>
      return Message(InvalidFileMessage);
    case Loaded(fs) =>
      var features := new Feature[|fs|](i requires 0 <= i < |fs| => fs[i]);
      assert features[..] == fs;
      var ok := AttachTooltips(features, data, fmt);
      if !ok {
        return Raised(NameKey);
      }
      var annotated := features[..];
      assert annotated == Annotated(fs, data, fmt);
      r := Rendered(MapArtifact(annotated, Styles(annotated, data), Highlights(annotated)));
  }

  // ---------------------------------------------------------------------------
  // What the composed map promises

  /** One feature per region, in the boundary file's order; each keeps every
      property except that `tooltip_info` is set, and its tooltip shows its name;
      every highlight is the fixed one. */
  lemma ComposedPerRegion(fs: seq<Feature>, data: map<string, Entry>, fmt: real -> string)
    requires AllNamed(fs)
    ensures var a := Composed(fs, data, fmt);
      && |a.features| == |fs| && |a.styles| == |fs| && |a.highlights| == |fs|
      && (forall i :: 0 <= i < |fs| ==> a.features[i].properties.Keys == fs[i].properties.Keys + {TooltipKey})
      && (forall i, key :: 0 <= i < |fs| && key in fs[i].properties && key != TooltipKey ==>
            a.features[i].properties[key] == fs[i].properties[key])
      && (forall i :: 0 <= i < |fs| ==>
            a.features[i].properties[TooltipKey] == Html(TooltipFor(fs[i].properties[NameKey], data), fmt))
      && (forall i :: 0 <= i < |fs| ==> Contains(a.features[i].properties[TooltipKey], fs[i].properties[NameKey]))
      && (forall i :: 0 <= i < |fs| ==> a.styles[i] == StyleFor(fs[i], data))
      && (forall i :: 0 <= i < |fs| ==> a.highlights[i] == HighlightFor(fs[i]))
  {
    var a := Composed(fs, data, fmt);
    forall i | 0 <= i < |fs|
      ensures Contains(a.features[i].properties[TooltipKey], fs[i].properties[NameKey])
    {
      HtmlContainsProvince(TooltipFor(fs[i].properties[NameKey], data), fmt);
    }
  }

  /** With the normalizer's dict, a region's tooltip has values exactly when its
      name is a key, and then every slot shows the field's number or `None`:
      the placeholder never appears, because every entry has all four keys. */
  lemma NormalizedTooltip(c: Columns, province: string)
    requires c.Aligned()
    ensures var data := Readings(c);
      && (TooltipFor(province, data).Detail? <==> province in data)
      && (province in data ==>
            TooltipFor(province, data) ==
              Detail(province, Slot(data[province][AqiKey]), Slot(data[province][CoKey]),
                     Slot(data[province][So2Key]), Slot(data[province][Pm25Key])))
  {
    var data := Readings(c);
    if province in data {
      var e := EntryAt(c, Latest(c.locs, province, |c.locs|));
      assert data[province] == e;
      assert AqiKey in e;
    }
  }

  /** With the normalizer's dict, a region is filled by the classifier's colour
      for its AQI, and light gray exactly when it has no reading or no AQI. */
  lemma NormalizedStyle(c: Columns, f: Feature)
    requires c.Aligned() && HasName(f)
    ensures var data, name := Readings(c), f.properties[NameKey];
      && StyleFor(f, data).fillColor == GetColor(if name in data then data[name][AqiKey] else None)
      && (StyleFor(f, data).fillColor == LightGray <==> name !in data || data[name][AqiKey].None?)
      && StyleFor(f, data).color == "black" && StyleFor(f, data).weight == 1 && StyleFor(f, data).fillOpacity == 0.7
  {
    var data, name := Readings(c), f.properties[NameKey];
    if name in data {
      assert data[name] == EntryAt(c, Latest(c.locs, name, |c.locs|));
    }
  }

  /** With no readings every region is light gray and its tooltip shows only
      its name. */
  lemma NoReadingsNoData(fs: seq<Feature>, fmt: real -> string)
    requires AllNamed(fs)
    ensures forall i :: 0 <= i < |fs| ==>
      && Composed(fs, map[], fmt).styles[i].fillColor == LightGray
      && Composed(fs, map[], fmt).features[i].properties[TooltipKey] == Html(NameOnly(fs[i].properties[NameKey]), fmt)
  {
  }

  /** Regions A and B, a reading with AQI 40 for A only: A is green with the
      values in its tooltip, B is light gray with its name alone. */
  lemma TwoRegionExample(fmt: real -> string)
    ensures var a := Composed([Feature(map[NameKey := "A"]), Feature(map[NameKey := "B"])],
                              map["A" := MakeEntry(Some(40.0), None, None, None)], fmt);
      && |a.features| == 2
      && a.styles[0].fillColor == Green && a.styles[1].fillColor == LightGray
      && a.features[0].properties[TooltipKey] == Html(Detail("A", Number(40.0), NoneText, NoneText, NoneText), fmt)
      && a.features[1].properties[TooltipKey] == Html(NameOnly("B"), fmt)
  {
    var e := MakeEntry(Some(40.0), None, None, None);
    assert e != map[] by { assert AqiKey in e; }
    assert "B" != "A";
  }
}
