/** The severity classifier `get_color` of app.py and the legend that explains
    its colours on the map. */
module Severity {

  import opened Wrappers

  /** The six fill colours, which stand for the six severity bands. */
  datatype Color = Green | Yellow | Orange | Red | Purple | LightGray {

    /** The CSS colour name written into the style and the legend. */
    function CssName(): string {
      match this
      case Green => "green"
      case Yellow => "yellow"
      case Orange => "orange"
      case Red => "red"
      case Purple => "purple"
      case LightGray => "lightgray"
    }

    /** The order of the five bands a number can fall into, mildest first. */
    function Rank(): nat
      requires this != LightGray
    {
      match this
      case Green => 0
      case Yellow => 1
      case Orange => 2
      case Red => 3
      case Purple => 4
    }
  }

  /** `get_color`: a number falls into the first band whose inclusive upper
      bound it does not exceed; no number is light gray. */
  function GetColor(aqi: Option<real>): (c: Color)
    ensures c == LightGray <==> aqi.None?
  {
    match aqi
    case None => LightGray
    case Some(x) =>
      if x <= 50.0 then Green
      else if x <= 100.0 then Yellow
      else if x <= 150.0 then Orange
      else if x <= 200.0 then Red
      else Purple
  }

  /** The bands partition the real line with inclusive upper bounds 50, 100,
      150 and 200. */
  lemma Bands(x: real)
    ensures GetColor(Some(x)) == Green <==> x <= 50.0
    ensures GetColor(Some(x)) == Yellow <==> 50.0 < x <= 100.0
    ensures GetColor(Some(x)) == Orange <==> 100.0 < x <= 150.0
    ensures GetColor(Some(x)) == Red <==> 150.0 < x <= 200.0
    ensures GetColor(Some(x)) == Purple <==> 200.0 < x
  {
  }

  /** A higher AQI never gets a milder band. */
  lemma Monotone(x: real, y: real)
    requires x <= y
    ensures GetColor(Some(x)).Rank() <= GetColor(Some(y)).Rank()
  {
  }

  lemma BoundaryExamples()
    ensures GetColor(Some(50.0)) == Green && GetColor(Some(50.01)) == Yellow
    ensures GetColor(Some(200.0)) == Red && GetColor(Some(200.01)) == Purple
    ensures GetColor(None) == LightGray
  {
  }

  // ---------------------------------------------------------------------------
  // The legend

  /** The AQI values a legend row's caption names. */
  datatype LabelRange = Between(lo: int, hi: int) | Above(bound: int) | NoData

  datatype LegendRow = LegendRow(swatch: Color, caption: string, range: LabelRange)

  predicate Covers(r: LabelRange, n: int) {
    match r
    case Between(lo, hi) => lo <= n <= hi
    case Above(bound) => bound < n
    case NoData => false
  }

  /** The six rows of the legend, top to bottom: the five bands mildest first,
      then the row for a missing value. */
  function Legend(): (rows: seq<LegendRow>)
    ensures |rows| == 6
    ensures forall k :: 0 <= k < 5 ==> rows[k].swatch != LightGray && rows[k].swatch.Rank() == k
    ensures rows[5].swatch == LightGray && rows[5].range == NoData
  {
    [ LegendRow(Green, "Tốt (0-50)", Between(0, 50)),
      LegendRow(Yellow, "Trung bình (51-100)", Between(51, 100)),
      LegendRow(Orange, "Kém (101-150)", Between(101, 150)),
      LegendRow(Red, "Xấu (151-200)", Between(151, 200)),
      LegendRow(Purple, "Nguy hại (>200)", Above(200)),
      LegendRow(LightGray, "Không có dữ liệu", NoData) ]
  }

  /** Every colour the classifier can give has exactly one legend row. */
  lemma LegendListsEveryColorOnce(c: Color)
    ensures exists k :: 0 <= k < |Legend()| && Legend()[k].swatch == c
    ensures forall k, l :: 0 <= k < l < |Legend()| ==> Legend()[k].swatch != Legend()[l].swatch
  {
    var k := match c
      case Green => 0 case Yellow => 1 case Orange => 2
      case Red => 3 case Purple => 4 case LightGray => 5;
    assert Legend()[k].swatch == c;
  }

  /** For a whole, non-negative AQI exactly one legend row names it, and its
      swatch is the colour the classifier gives. */
  lemma LegendAgreesOnWholeValues(n: int)
    requires n >= 0
    ensures exists k :: 0 <= k < |Legend()| && Covers(Legend()[k].range, n) && Legend()[k].swatch == GetColor(Some(n as real))
    ensures forall k, l :: 0 <= k < l < |Legend()| ==> !(Covers(Legend()[k].range, n) && Covers(Legend()[l].range, n))
  {
    var k := if n <= 50 then 0 else if n <= 100 then 1 else if n <= 150 then 2 else if n <= 200 then 3 else 4;
    assert Covers(Legend()[k].range, n) && Legend()[k].swatch == GetColor(Some(n as real));
  }

  /** The row without numbers is the colour of a missing AQI. */
  lemma LegendNoDataRow()
    ensures Legend()[5].range == NoData && Legend()[5].swatch == GetColor(None)
  {
  }
}
