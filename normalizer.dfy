/** The reading normalizer of the request handler (app.py, `index`): the webhook's
    reply carries five parallel arrays (`location`, `AQI`, `CO`, `SO2`, `PM25`);
    when their shape is right they are turned into a dict from region name to a
    reading with the four keys `AQI`, `CO`, `SO2` and `PM2.5`. */
module Normalizer {

  import opened Wrappers

  /** A JSON value of the webhook's parsed reply. */
  datatype Json =
    | Num(value: real)                          // a JSON number (a Python int or float)
    | Str(text: string, asFloat: Option<real>)  // asFloat: what Python's float() makes of text, None when it raises ValueError
    | Bool(b: bool)
    | Null
    | Array(items: seq<Json>)
    | Object

  /** What `reply.get(key)` gives for the five keys; a missing key reads as Null. */
  datatype Payload = Payload(location: Json, aqi: Json, co: Json, so2: Json, pm25: Json)

  /** One reading, the dict the handler stores per region. */
  type Entry = map<string, Option<real>>

  const AqiKey: string := "AQI"
  const CoKey: string := "CO"
  const So2Key: string := "SO2"
  const Pm25Key: string := "PM2.5"

  /** The four pollutants, one per array of the payload. */
  datatype Pollutant = Aqi | Co | So2 | Pm25 {
    function Key(): string {
      match this
      case Aqi => AqiKey
      case Co => CoKey
      case So2 => So2Key
      case Pm25 => Pm25Key
    }
  }

  /** The five arrays of a well-shaped payload, index by index. */
  datatype Columns = Columns(locs: seq<Json>, aqi: seq<Json>, co: seq<Json>, so2: seq<Json>, pm25: seq<Json>) {

    predicate Aligned() {
      |aqi| == |locs| && |co| == |locs| && |so2| == |locs| && |pm25| == |locs|
    }

    function Column(p: Pollutant): seq<Json> {
      match p
      case Aqi => aqi
      case Co => co
      case So2 => so2
      case Pm25 => pm25
    }

    /** The same arrays with the raw value of pollutant `p` at index `i` replaced by `v`. */
    function WithValue(p: Pollutant, i: nat, v: Json): (c: Columns)
      requires Aligned() && i < |locs|
      ensures c.Aligned() && c.locs == locs
    {
      match p
      case Aqi => this.(aqi := aqi[i := v])
      case Co => this.(co := co[i := v])
      case So2 => this.(so2 := so2[i := v])
      case Pm25 => this.(pm25 := pm25[i := v])
    }

    /** The same arrays with index `i` taken out of all five. */
    function Without(i: nat): (c: Columns)
      requires Aligned() && i < |locs|
      ensures c.Aligned() && |c.locs| == |locs| - 1
    {
      Columns(locs[..i] + locs[i + 1..], aqi[..i] + aqi[i + 1..], co[..i] + co[i + 1..],
              so2[..i] + so2[i + 1..], pm25[..i] + pm25[i + 1..])
    }
  }

  /** The shape check: all five are lists, `location` is not empty, and the lengths agree. */
  predicate WellShaped(p: Payload) {
    && p.location.Array? && p.aqi.Array? && p.co.Array? && p.so2.Array? && p.pm25.Array?
    && |p.location.items| > 0
    && |p.aqi.items| == |p.location.items|
    && |p.co.items| == |p.location.items|
    && |p.so2.items| == |p.location.items|
    && |p.pm25.items| == |p.location.items|
  }

  function ColumnsOf(p: Payload): (c: Columns)
    requires WellShaped(p)
    ensures c.Aligned() && |c.locs| > 0
  {
    Columns(p.location.items, p.aqi.items, p.co.items, p.so2.items, p.pm25.items)
  }

  /** Python's float() on a JSON value; None where it raises ValueError or TypeError. */
  function Float(v: Json): Option<real> {
    match v
    case Num(x) => Some(x)
    case Str(_, f) => f
    case Bool(b) => Some(if b then 1.0 else 0.0)
    case _ => None
  }

  /** One field's conversion: None and '' are absent, anything else is float() of it,
      and a failed conversion is absent too. */
  function ParseOrAbsent(v: Json): (r: Option<real>)
    ensures r.Some? <==> (v.Num? || v.Bool? || (v.Str? && v.text != "" && v.asFloat.Some?))
    ensures v.Num? ==> r == Some(v.value)
    ensures v.Str? && v.text != "" ==> r == v.asFloat
  {
    if v.Null? || (v.Str? && v.text == "") then None else Float(v)
  }

  /** The region name at an index: only a non-empty string is one. */
  function NameOf(v: Json): (r: Option<string>)
    ensures r.Some? <==> v.Str? && v.text != ""
    ensures r.Some? ==> r.value == v.text
  {
    if v.Str? && v.text != "" then Some(v.text) else None
  }

  /** The dict stored for one accepted index. */
  function MakeEntry(aqi: Option<real>, co: Option<real>, so2: Option<real>, pm25: Option<real>): (e: Entry)
    ensures e.Keys == {AqiKey, CoKey, So2Key, Pm25Key}
    ensures e[AqiKey] == aqi && e[CoKey] == co && e[So2Key] == so2 && e[Pm25Key] == pm25
  {
    map[AqiKey := aqi, CoKey := co, So2Key := so2, Pm25Key := pm25]
  }

  function EntryAt(c: Columns, i: nat): (e: Entry)
    requires c.Aligned() && i < |c.locs|
    ensures forall p: Pollutant :: p.Key() in e && e[p.Key()] == ParseOrAbsent(c.Column(p)[i])
  {
    MakeEntry(ParseOrAbsent(c.aqi[i]), ParseOrAbsent(c.co[i]), ParseOrAbsent(c.so2[i]), ParseOrAbsent(c.pm25[i]))
  }

  /** The names accepted among the first `k` indices. */
  function Names(locs: seq<Json>, k: nat): set<string>
    requires k <= |locs|
  {
    set i | 0 <= i < k && NameOf(locs[i]).Some? :: NameOf(locs[i]).value
  }

  /** The last index below `k` that names `name`, or -1 when there is none. */
  function Latest(locs: seq<Json>, name: string, k: nat): (j: int)
    requires k <= |locs|
    ensures -1 <= j < k
    ensures j >= 0 ==> NameOf(locs[j]) == Some(name)
    ensures forall i :: j < i < k ==> NameOf(locs[i]) != Some(name)
    decreases k
  {
    if k == 0 then -1
    else if NameOf(locs[k - 1]) == Some(name) then k - 1
    else Latest(locs, name, k - 1)
  }

  /** The dict after the first `k` iterations: each accepted name maps to the
      reading of the last index that named it. */
  function ReadingsUpTo(c: Columns, k: nat): (r: map<string, Entry>)
    requires c.Aligned() && k <= |c.locs|
    ensures forall name :: name in r ==>
      exists i :: 0 <= i < k && NameOf(c.locs[i]) == Some(name) && r[name] == EntryAt(c, i)
  {
    map name | name in Names(c.locs, k) :: EntryAt(c, Latest(c.locs, name, k))
  }

  /** The dict the handler builds from well-aligned arrays. */
  function Readings(c: Columns): (r: map<string, Entry>)
    requires c.Aligned()
    ensures forall name :: name in r ==> r[name].Keys == {AqiKey, CoKey, So2Key, Pm25Key}
  {
    ReadingsUpTo(c, |c.locs|)
  }

  /** The loop of the handler: walk the indices, skip those without a name and
      store the four converted fields under the name, replacing an earlier entry. */
  method BuildReadings(c: Columns) returns (data: map<string, Entry>)
    requires c.Aligned()
    ensures data == Readings(c)
  {
    data := map[];
    for i := 0 to |c.locs|
      invariant data == ReadingsUpTo(c, i)
    {
      var name := NameOf(c.locs[i]);
      if name.Some? {
        var aqi := ParseOrAbsent(c.aqi[i]);
        var co := ParseOrAbsent(c.co[i]);
        var so2 := ParseOrAbsent(c.so2[i]);
        var pm25 := ParseOrAbsent(c.pm25[i]);
        StepAccepted(c, i);
        data := data[name.value := MakeEntry(aqi, co, so2, pm25)];
      } else {
        StepSkipped(c, i);
      }
    }
  }

  /** The normalizer lifted out of the handler: None when the shape check fails,
      the dict of readings otherwise. */
  method Normalize(p: Payload) returns (r: Option<map<string, Entry>>)
    ensures r.None? <==> !WellShaped(p)
    ensures r.Some? ==> r.value == Readings(ColumnsOf(p))
  {
    if !WellShaped(p) {
      return None;
    }
    var data := BuildReadings(ColumnsOf(p));
    return Some(data);
  }

  // ---------------------------------------------------------------------------
  // One iteration of the loop

  lemma StepAccepted(c: Columns, i: nat)
    requires c.Aligned() && i < |c.locs| && NameOf(c.locs[i]).Some?
    ensures ReadingsUpTo(c, i + 1) == ReadingsUpTo(c, i)[NameOf(c.locs[i]).value := EntryAt(c, i)]
  {
    var name := NameOf(c.locs[i]).value;
    assert Names(c.locs, i + 1) == Names(c.locs, i) + {name} by {
      forall x | x in Names(c.locs, i + 1) ensures x in Names(c.locs, i) + {name} {
        var j :| 0 <= j < i + 1 && NameOf(c.locs[j]).Some? && NameOf(c.locs[j]).value == x;
        if j < i {
          assert x in Names(c.locs, i);
        }
      }
    }
  }

  lemma StepSkipped(c: Columns, i: nat)
    requires c.Aligned() && i < |c.locs| && NameOf(c.locs[i]).None?
    ensures ReadingsUpTo(c, i + 1) == ReadingsUpTo(c, i)
  {
    assert Names(c.locs, i + 1) == Names(c.locs, i) by {
      forall x | x in Names(c.locs, i + 1) ensures x in Names(c.locs, i) {
        var j :| 0 <= j < i + 1 && NameOf(c.locs[j]).Some? && NameOf(c.locs[j]).value == x;
        assert j < i;
      }
    }
  }

  // ---------------------------------------------------------------------------
  // What the dict holds

  /** The keys are exactly the non-empty strings of the `location` array. */
  lemma ReadingsKeys(c: Columns, name: string)
    requires c.Aligned()
    ensures name in Readings(c) <==>
              name != "" && exists i :: 0 <= i < |c.locs| && c.locs[i].Str? && c.locs[i].text == name
  {
    if name != "" && exists i :: 0 <= i < |c.locs| && c.locs[i].Str? && c.locs[i].text == name {
      var i :| 0 <= i < |c.locs| && c.locs[i].Str? && c.locs[i].text == name;
      assert NameOf(c.locs[i]) == Some(name);
    }
  }

  lemma {:induction false} NamesBound(locs: seq<Json>, k: nat)
    requires k <= |locs|
    ensures |Names(locs, k)| <= k
  {
    if k > 0 {
      NamesBound(locs, k - 1);
      var prev := Names(locs, k - 1);
      match NameOf(locs[k - 1])
      case Some(n) =>
        assert Names(locs, k) <= prev + {n} by {
          forall x | x in Names(locs, k) ensures x in prev + {n} {
            var j :| 0 <= j < k && NameOf(locs[j]).Some? && NameOf(locs[j]).value == x;
            if j < k - 1 {
              assert x in prev;
            }
          }
        }
        assert |prev + {n}| <= |prev| + 1;
        SubsetSize(Names(locs, k), prev + {n});
      case None =>
        assert Names(locs, k) <= prev by {
          forall x | x in Names(locs, k) ensures x in prev {
            var j :| 0 <= j < k && NameOf(locs[j]).Some? && NameOf(locs[j]).value == x;
            assert j < k - 1;
          }
        }
        SubsetSize(Names(locs, k), prev);
    }
  }

  lemma SubsetSize<T>(a: set<T>, b: set<T>)
    requires a <= b
    ensures |a| <= |b|
  {
    assert b == a + (b - a);
  }

  /** At most one entry per index. */
  lemma ReadingsSize(c: Columns)
    requires c.Aligned()
    ensures |Readings(c)| <= |c.locs|
  {
    NamesBound(c.locs, |c.locs|);
    assert Readings(c).Keys == Names(c.locs, |c.locs|);
  }

  /** The dict is empty exactly when no index carries a name. */
  lemma ReadingsEmpty(c: Columns)
    requires c.Aligned()
    ensures Readings(c) == map[] <==> forall i :: 0 <= i < |c.locs| ==> NameOf(c.locs[i]).None?
  {
    if forall i :: 0 <= i < |c.locs| ==> NameOf(c.locs[i]).None? {
      assert Names(c.locs, |c.locs|) == {};
    } else {
      var i :| 0 <= i < |c.locs| && NameOf(c.locs[i]).Some?;
      assert NameOf(c.locs[i]).value in Readings(c);
    }
  }

  /** Only one index can be the last to name a region below `k`. */
  lemma LatestUnique(locs: seq<Json>, name: string, k: nat, j: int)
    requires k <= |locs| && -1 <= j < k
    requires j >= 0 ==> NameOf(locs[j]) == Some(name)
    requires forall i :: j < i < k ==> NameOf(locs[i]) != Some(name)
    ensures Latest(locs, name, k) == j
  {
  }

  /** Duplicate names: the entry is the reading of the highest index with that
      name, whole, with no field taken from an earlier index. */
  lemma LastWriteWins(c: Columns, i: nat)
    requires c.Aligned() && i < |c.locs| && NameOf(c.locs[i]).Some?
    requires forall j :: i < j < |c.locs| ==> NameOf(c.locs[j]) != NameOf(c.locs[i])
    ensures NameOf(c.locs[i]).value in Readings(c)
    ensures Readings(c)[NameOf(c.locs[i]).value] == EntryAt(c, i)
  {
    var name := NameOf(c.locs[i]).value;
    LatestUnique(c.locs, name, |c.locs|, i);
    assert name in Names(c.locs, |c.locs|);
  }

  /** Field isolation: a different raw value for one pollutant at one index
      changes that one field of the entry whose last index it is, and nothing
      else: no key appears or disappears, no other field or entry moves. */
  lemma FieldIsolation(c: Columns, p: Pollutant, i: nat, v: Json)
    requires c.Aligned() && i < |c.locs|
    ensures Readings(c.WithValue(p, i, v)).Keys == Readings(c).Keys
    ensures forall name :: name in Readings(c) ==>
              Readings(c.WithValue(p, i, v))[name] ==
                if Latest(c.locs, name, |c.locs|) == i then Readings(c)[name][p.Key() := ParseOrAbsent(v)]
                else Readings(c)[name]
  {
    var d := c.WithValue(p, i, v);
    forall name | name in Readings(c)
      ensures Readings(d)[name] ==
                if Latest(c.locs, name, |c.locs|) == i then Readings(c)[name][p.Key() := ParseOrAbsent(v)]
                else Readings(c)[name]
    {
      EntryWithValue(c, p, i, v, Latest(c.locs, name, |c.locs|));
    }
  }

  lemma EntryWithValue(c: Columns, p: Pollutant, i: nat, v: Json, j: nat)
    requires c.Aligned() && i < |c.locs| && j < |c.locs|
    ensures EntryAt(c.WithValue(p, i, v), j) ==
              if j == i then EntryAt(c, j)[p.Key() := ParseOrAbsent(v)] else EntryAt(c, j)
  {
  }

  /** An index without a name is skipped: the dict is the same as if that index
      were not in the five arrays at all. */
  lemma SkippedIndexIrrelevant(c: Columns, i: nat)
    requires c.Aligned() && i < |c.locs| && NameOf(c.locs[i]).None?
    ensures Readings(c.Without(i)) == Readings(c)
  {
    var d, n := c.Without(i), |c.locs|;
    NamesWithout(c, i);
    forall name | name in Names(c.locs, n)
      ensures EntryAt(d, Latest(d.locs, name, n - 1)) == EntryAt(c, Latest(c.locs, name, n))
    {
      LastEntryWithout(c, i, name);
    }
    SameReadings(d, c);
  }

  lemma LastEntryWithout(c: Columns, i: nat, name: string)
    requires c.Aligned() && i < |c.locs| && NameOf(c.locs[i]).None?
    requires name in Names(c.locs, |c.locs|)
    ensures Latest(c.Without(i).locs, name, |c.locs| - 1) >= 0
    ensures EntryAt(c.Without(i), Latest(c.Without(i).locs, name, |c.locs| - 1)) == EntryAt(c, Latest(c.locs, name, |c.locs|))
  {
    var j := Latest(c.locs, name, |c.locs|);
    LatestWithout(c, i, name);
    EntryWithout(c, i, if j < i then j else j - 1);
  }

  /** Two sets of arrays with the same names, whose last entries per name agree,
      give the same dict. */
  lemma SameReadings(c: Columns, d: Columns)
    requires c.Aligned() && d.Aligned()
    requires Names(c.locs, |c.locs|) == Names(d.locs, |d.locs|)
    requires forall name :: name in Names(c.locs, |c.locs|) ==>
               EntryAt(c, Latest(c.locs, name, |c.locs|)) == EntryAt(d, Latest(d.locs, name, |d.locs|))
    ensures Readings(c) == Readings(d)
  {
  }

  lemma NamesWithout(c: Columns, i: nat)
    requires c.Aligned() && i < |c.locs| && NameOf(c.locs[i]).None?
    ensures Names(c.Without(i).locs, |c.locs| - 1) == Names(c.locs, |c.locs|)
  {
    var d, n := c.Without(i).locs, |c.locs|;
    forall x | x in Names(c.locs, n) ensures x in Names(d, n - 1) {
      var j :| 0 <= j < n && NameOf(c.locs[j]).Some? && NameOf(c.locs[j]).value == x;
      var j' := if j < i then j else j - 1;
      assert d[j'] == c.locs[j];
    }
    forall x | x in Names(d, n - 1) ensures x in Names(c.locs, n) {
      var j' :| 0 <= j' < n - 1 && NameOf(d[j']).Some? && NameOf(d[j']).value == x;
      var j := if j' < i then j' else j' + 1;
      assert d[j'] == c.locs[j];
    }
  }

  lemma LatestWithout(c: Columns, i: nat, name: string)
    requires c.Aligned() && i < |c.locs| && NameOf(c.locs[i]).None?
    ensures var j := Latest(c.locs, name, |c.locs|);
            Latest(c.Without(i).locs, name, |c.locs| - 1) == if j < i then j else j - 1
  {
    var d, n := c.Without(i).locs, |c.locs|;
    var j := Latest(c.locs, name, n);
    var j' := if j < i then j else j - 1;
    assert j != i;
    if j' >= 0 {
      assert d[j'] == c.locs[j];
    }
    forall k | j' < k < n - 1 ensures NameOf(d[k]) != Some(name) {
      if k < i {
        assert d[k] == c.locs[k];
      } else {
        assert d[k] == c.locs[k + 1];
      }
    }
    LatestUnique(d, name, n - 1, j');
  }

  lemma EntryWithout(c: Columns, i: nat, j: nat)
    requires c.Aligned() && i < |c.locs| && j < |c.locs| - 1
    ensures EntryAt(c.Without(i), j) == EntryAt(c, if j < i then j else j + 1)
  {
    var d := c.Without(i);
    var k := if j < i then j else j + 1;
    assert d.aqi[j] == c.aqi[k] && d.co[j] == c.co[k] && d.so2[j] == c.so2[k] && d.pm25[j] == c.pm25[k];
  }

  /** Three malformed fields out of four do not stop the fourth. */
  /** A missing key, an empty `location` and a length mismatch each fail the
      shape check. */
  lemma ShapeCheckExamples(items: seq<Json>)
    ensures !WellShaped(Payload(Array(items), Null, Array(items), Array(items), Array(items)))
    ensures !WellShaped(Payload(Array([]), Array([]), Array([]), Array([]), Array([])))
    ensures |items| > 0 ==> !WellShaped(Payload(Array(items), Array(items[1..]), Array(items), Array(items), Array(items)))
  {
  }

  lemma PartialReadingExample()
    ensures Readings(Columns([Str("A", None)], [Str("", None)], [Str("x", None)], [Null], [Num(12.5)]))
         == map["A" := MakeEntry(None, None, None, Some(12.5))]
  {
    var c := Columns([Str("A", None)], [Str("", None)], [Str("x", None)], [Null], [Num(12.5)]);
    assert NameOf(c.locs[0]) == Some("A");
    assert Names(c.locs, 1) == {"A"};
    assert Latest(c.locs, "A", 1) == 0;
  }
}
