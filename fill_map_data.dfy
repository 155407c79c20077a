/** Data binding of the fill (choropleth) map: the values and pure functions
    behind FillMapMap._createMap and its event handlers.  Joining the chart
    series to the region features, the colour range, the legend labels, the
    draw-tool gate, the bounds of a drawn shape, the initial view and the
    choice of tile source. */
module FillMapData {

  datatype Option<+T> = None | Some(value: T)

  // ---------------------------------------------------------------------
  // Chart data and region features
  // ---------------------------------------------------------------------

  /** One `{x, y}` point of a chart series; `y` is None when the point has
      no `y` key at all. */
  datatype ChartValue = ChartValue(x: string, y: Option<real>)

  datatype Series = Series(values: seq<ChartValue>)

  /** The query result handed to the widget: `chartData.series`. */
  datatype ChartData = ChartData(series: seq<Series>)

  /** A region of the boundary dataset (`feature.properties`); `count` is
      None until the join has set it.  The polygon geometry is not carried. */
  datatype Feature = Feature(id: string, name: string, count: Option<real>)

  /** The regions of the fixed boundary dataset, in dataset order. */
  const Regions: seq<Feature> := [
    Feature("N", "Nortern Province", None),
    Feature("S", "Southern Province", None),
    Feature("E", "Eastern Province", None),
    Feature("W", "western Area", None)
  ]

  // ---------------------------------------------------------------------
  // Join
  // ---------------------------------------------------------------------

  /** The index `_.find(values, {x: id})` lands on: the first value whose `x`
      is `id`, or None when there is none. */
  function FirstMatch(values: seq<ChartValue>, id: string): (r: Option<nat>)
    ensures r.Some? ==> r.value < |values| && values[r.value].x == id
    ensures r.Some? ==> forall k :: 0 <= k < r.value ==> values[k].x != id
    ensures r.None? ==> forall k :: 0 <= k < |values| ==> values[k].x != id
  {
    if |values| == 0 then None
    else if values[0].x == id then Some(0)
    else match FirstMatch(values[1..], id)
      case None => None
      case Some(j) => Some(j + 1)
  }

  /** `_.has(chartItem, 'y') ? chartItem.y : 0` for the item found for `id`. */
  function JoinedCount(values: seq<ChartValue>, id: string): real
  {
    match FirstMatch(values, id)
    case None => 0.0
    case Some(j) => if values[j].y.Some? then values[j].y.value else 0.0
  }

  /** Every feature keeps its place, id and name and has its count set; what
      the count is, JoinFirstMatchWins and JoinNoMatch say. */
  function Join(features: seq<Feature>, values: seq<ChartValue>): (r: seq<Feature>)
    ensures |r| == |features|
    ensures forall i :: 0 <= i < |r| ==>
      r[i].id == features[i].id && r[i].name == features[i].name && r[i].count.Some?
  {
    seq(|features|, i requires 0 <= i < |features| =>
      features[i].(count := Some(JoinedCount(values, features[i].id))))
  }

  /** A feature takes the `y` of the first chart value keyed by its id, or 0
      when that value has no `y`; values keyed the same further on are
      ignored. */
  lemma JoinFirstMatchWins(features: seq<Feature>, values: seq<ChartValue>, i: nat, j: nat)
    requires i < |features| && j < |values| && values[j].x == features[i].id
    requires forall k :: 0 <= k < j ==> values[k].x != features[i].id
    ensures Join(features, values)[i].count == Some(if values[j].y.Some? then values[j].y.value else 0.0)
  {
  }

  /** A feature no chart value is keyed by gets 0. */
  lemma JoinNoMatch(features: seq<Feature>, values: seq<ChartValue>, i: nat)
    requires i < |features|
    requires forall k :: 0 <= k < |values| ==> values[k].x != features[i].id
    ensures Join(features, values)[i].count == Some(0.0)
  {
  }

  /** All counts are set, as they are after a join. */
  ghost predicate Joined(fs: seq<Feature>)
  {
    forall i :: 0 <= i < |fs| ==> fs[i].count.Some?
  }

  // ---------------------------------------------------------------------
  // Colour range
  // ---------------------------------------------------------------------

  /** The feature `_.min(features, count)` returns: scanning left to right,
      a later feature replaces the current one only when strictly smaller,
      so the first feature of least count wins. */
  function MinIndex(fs: seq<Feature>): (k: nat)
    requires |fs| > 0 && Joined(fs)
    ensures k < |fs|
    ensures forall i :: 0 <= i < |fs| ==> fs[k].count.value <= fs[i].count.value
    ensures forall i :: 0 <= i < k ==> fs[k].count.value < fs[i].count.value
    decreases |fs|
  {
    if |fs| == 1 then 0
    else
      var k := MinIndex(fs[..|fs| - 1]);
      if fs[|fs| - 1].count.value < fs[k].count.value then |fs| - 1 else k
  }

  /** The feature `_.max(features, count)` returns: the first one of
      greatest count. */
  function MaxIndex(fs: seq<Feature>): (k: nat)
    requires |fs| > 0 && Joined(fs)
    ensures k < |fs|
    ensures forall i :: 0 <= i < |fs| ==> fs[i].count.value <= fs[k].count.value
    ensures forall i :: 0 <= i < k ==> fs[i].count.value < fs[k].count.value
    decreases |fs|
  {
    if |fs| == 1 then 0
    else
      var k := MaxIndex(fs[..|fs| - 1]);
      if fs[|fs| - 1].count.value > fs[k].count.value then |fs| - 1 else k
  }

  /** A configured rainbowvis.js gradient: its number range and spectrum. */
  datatype Rainbow = Rainbow(lo: real, hi: real, spectrum: seq<string>)

  /** The spectrum the map is given. */
  const Spectrum: seq<string> := ["red", "yellow"]

  /** The gradient built from the joined features: the range runs from the
      least to the greatest count, and every feature's count lies inside it. */
  function RangeOf(fs: seq<Feature>): (rb: Rainbow)
    requires |fs| > 0 && Joined(fs)
    ensures rb.lo <= rb.hi && rb.spectrum == Spectrum
    ensures forall i :: 0 <= i < |fs| ==> rb.lo <= fs[i].count.value <= rb.hi
  {
    var lo := MinIndex(fs);
    var hi := MaxIndex(fs);
    Rainbow(fs[lo].count.value, fs[hi].count.value, Spectrum)
  }

  /** Both ends of the range are the count of some feature: the first of
      least count and the first of greatest count. */
  lemma RangeAttained(fs: seq<Feature>)
    requires |fs| > 0 && Joined(fs)
    ensures exists i :: 0 <= i < |fs| && fs[i].count.value == RangeOf(fs).lo
    ensures exists i :: 0 <= i < |fs| && fs[i].count.value == RangeOf(fs).hi
  {
    var lo, hi := MinIndex(fs), MaxIndex(fs);
    assert fs[lo].count.value == RangeOf(fs).lo;
    assert fs[hi].count.value == RangeOf(fs).hi;
  }

  /** A series that keys no region (an empty one, say) gives every region 0,
      so the range handed to the gradient degenerates to 0..0.  (rainbowvis.js
      refuses a range whose max does not exceed its min; the library is not
      part of this model.) */
  lemma UnmatchedSeriesRange(values: seq<ChartValue>)
    requires forall k :: 0 <= k < |values| ==> values[k].x !in {"N", "S", "E", "W"}
    ensures RangeOf(Join(Regions, values)) == Rainbow(0.0, 0.0, Spectrum)
  {
    var fs := Join(Regions, values);
    forall i | 0 <= i < |fs| ensures fs[i].count == Some(0.0) {
      JoinNoMatch(Regions, values, i);
    }
    RangeAttained(fs);
  }

  /** One value per region, 10, 20, 30 and 40: the range is 10..40. */
  lemma OneValuePerRegionRange()
    ensures var values := [ChartValue("N", Some(10.0)), ChartValue("S", Some(20.0)),
                           ChartValue("E", Some(30.0)), ChartValue("W", Some(40.0))];
      RangeOf(Join(Regions, values)) == Rainbow(10.0, 40.0, Spectrum)
  {
    var values := [ChartValue("N", Some(10.0)), ChartValue("S", Some(20.0)),
                   ChartValue("E", Some(30.0)), ChartValue("W", Some(40.0))];
    var fs := Join(Regions, values);
    forall i | 0 <= i < 4 ensures 10.0 <= fs[i].count.value <= 40.0 {
      JoinFirstMatchWins(Regions, values, i, i);
    }
    JoinFirstMatchWins(Regions, values, 0, 0);
    JoinFirstMatchWins(Regions, values, 3, 3);
    RangeAttained(fs);
  }

  /** The colour `colourAt(at)` returns for a gradient, kept abstract: the
      model records only which gradient was asked about which value.  `at`
      is None when the value handed over is undefined. */
  datatype Colour = Sample(rainbow: Rainbow, at: Option<real>)

  /** The fill colour of each feature (`style` → `getColor(count)`). */
  function Fills(rb: Rainbow, fs: seq<Feature>): (r: seq<Colour>)
    ensures |r| == |fs|
    ensures forall i :: 0 <= i < |r| ==> r[i].rainbow == rb && r[i].at == fs[i].count
  {
    seq(|fs|, i requires 0 <= i < |fs| => Sample(rb, fs[i].count))
  }

  /** The fills of a joined layer styled with its own gradient sample that
      gradient inside its range, at a defined count: the least count at the
      gradient's start, the greatest at its end. */
  lemma FillsWithinRange(fs: seq<Feature>)
    requires |fs| > 0 && Joined(fs)
    ensures var rb := RangeOf(fs); var r := Fills(rb, fs);
      forall i :: 0 <= i < |r| ==> r[i].at.Some? && rb.lo <= r[i].at.value <= rb.hi
    ensures var rb := RangeOf(fs); var r := Fills(rb, fs);
      (exists i :: 0 <= i < |r| && r[i].at == Some(rb.lo)) &&
      (exists i :: 0 <= i < |r| && r[i].at == Some(rb.hi))
  {
    var rb, r := RangeOf(fs), Fills(RangeOf(fs), fs);
    var lo, hi := MinIndex(fs), MaxIndex(fs);
    assert r[lo].at == Some(rb.lo);
    assert r[hi].at == Some(rb.hi);
  }

  // ---------------------------------------------------------------------
  // Legend
  // ---------------------------------------------------------------------

  /** The legend's fixed breakpoints. */
  const Grades: seq<int> := [100, 3000, 6500, 12500, 25000, 50000, 75000, 100000]

  /** One legend row: a swatch, the lower bound, and the upper bound when the
      bucket is closed (`from–to`) or None when it is open (`from+`). */
  datatype LegendLabel = LegendLabel(swatch: Colour, from: int, to: Option<int>)

  /** `grades[i + 1]` as a truthy value: absent past the end, and 0 counts as
      absent too. */
  function UpperOf(grades: seq<int>, i: nat): Option<int>
  {
    if i + 1 < |grades| && grades[i + 1] != 0 then Some(grades[i + 1]) else None
  }

  /** The legend rows for `grades`: one per grade in grade order, each swatch
      sampled at `grade + 1`, each closed bucket ending where the next one
      starts, and the last bucket open. */
  function LegendLabels(grades: seq<int>, rb: Rainbow): (r: seq<LegendLabel>)
    ensures |r| == |grades|
    ensures forall i :: 0 <= i < |r| ==>
      r[i].from == grades[i] && r[i].swatch == Sample(rb, Some((grades[i] + 1) as real))
    ensures forall i, j :: 0 <= i < j < |r| && j == i + 1 ==>
      r[i].to == if r[j].from != 0 then Some(r[j].from) else None
    ensures |r| > 0 ==> r[|r| - 1].to.None?
  {
    seq(|grades|, i requires 0 <= i < |grades| =>
      LegendLabel(Sample(rb, Some((grades[i] + 1) as real)), grades[i], UpperOf(grades, i)))
  }

  /** The fixed legend has eight rows: seven closed buckets that tile
      100..100000 and the open bucket `100000+`. */
  lemma FixedLegendShape(rb: Rainbow)
    ensures var r := LegendLabels(Grades, rb);
      |r| == 8 && r[7] == LegendLabel(Sample(rb, Some(100001.0)), 100000, None) &&
      forall i :: 0 <= i < 7 ==> r[i].to == Some(Grades[i + 1]) && r[i].from < Grades[i + 1]
  {
    var r := LegendLabels(Grades, rb);
    forall i | 0 <= i < 7
      ensures r[i].to == Some(Grades[i + 1]) && r[i].from < Grades[i + 1]
    {
      assert Grades[i + 1] != 0;
    }
  }

  // ---------------------------------------------------------------------
  // Event interest and the draw-tool gate
  // ---------------------------------------------------------------------

  /** The host's event sink as the gates see it: None when there is no sink,
      otherwise its listener count per event name. */
  type Interest = Option<map<string, nat>>

  function ListenerCount(listeners: map<string, nat>, name: string): nat
  {
    if name in listeners then listeners[name] else 0
  }

  /** The shape kinds of the drawing toolbar, in toolbar order. */
  const DrawShapes: seq<string> := ["polyline", "polygon", "circle", "marker", "rectangle", "geometry"]

  /** One entry of `drawOptions.draw`: `false`, or the shape options. */
  datatype ShapeOption = Disabled | Enabled(stroke: bool, color: string)

  /** A tool is switched off exactly when a sink exists that has no listener
      for the shape; with no sink every tool is on, drawn without stroke in
      black. */
  function DrawOption(interest: Interest, shape: string): (o: ShapeOption)
    ensures o.Disabled? <==> interest.Some? && ListenerCount(interest.value, shape) == 0
    ensures o.Enabled? ==> o == Enabled(false, "#000")
  {
    if interest.Some? && ListenerCount(interest.value, shape) == 0 then Disabled
    else Enabled(false, "#000")
  }

  /** Whether a completed drawing of `kind` is passed on to the host. */
  predicate EmitsDraw(interest: Interest, kind: string)
  {
    interest.Some? && ListenerCount(interest.value, kind) > 0
  }

  /** Whether a move or zoom is passed on to the host: whenever a sink exists. */
  predicate EmitsView(interest: Interest)
  {
    interest.Some?
  }

  /** With a sink, a toolbar shape is offered exactly when its drawings reach
      the host; with no sink every shape is offered and none is reported. */
  lemma DrawGateMatchesEmission(interest: Interest, shape: string)
    ensures interest.Some? ==> (DrawOption(interest, shape).Enabled? <==> EmitsDraw(interest, shape))
    ensures interest.None? ==> DrawOption(interest, shape).Enabled? && !EmitsDraw(interest, shape)
  {
  }

  // ---------------------------------------------------------------------
  // Draw bounds
  // ---------------------------------------------------------------------

  datatype LatLng = LatLng(lat: real, lng: real)

  /** A Leaflet bounds, stored by its south-west and north-east corners. */
  datatype LatLngBounds = LatLngBounds(southWest: LatLng, northEast: LatLng)

  function NorthWest(b: LatLngBounds): LatLng
  {
    LatLng(b.northEast.lat, b.southWest.lng)
  }

  function SouthEast(b: LatLngBounds): LatLng
  {
    LatLng(b.southWest.lat, b.northEast.lng)
  }

  ghost predicate WellFormed(b: LatLngBounds)
  {
    b.southWest.lat <= b.northEast.lat && b.southWest.lng <= b.northEast.lng
  }

  datatype GeoPoint = GeoPoint(lat: real, lon: real)

  /** The bounds payload of a draw event. */
  datatype BoxBounds = BoxBounds(topLeft: GeoPoint, bottomRight: GeoPoint)

  /** The Leaflet bounds a box describes. */
  function BoundsOfBox(box: BoxBounds): LatLngBounds
  {
    LatLngBounds(LatLng(box.bottomRight.lat, box.topLeft.lon), LatLng(box.topLeft.lat, box.bottomRight.lon))
  }

  /** `{top_left, bottom_right}` from the north-west and south-east corners:
      no information is lost, and a well-formed bounds gives a box whose top
      left lies north and west of its bottom right. */
  function DrawBounds(b: LatLngBounds): (box: BoxBounds)
    ensures box.topLeft == GeoPoint(NorthWest(b).lat, NorthWest(b).lng)
    ensures box.bottomRight == GeoPoint(SouthEast(b).lat, SouthEast(b).lng)
    ensures BoundsOfBox(box) == b
    ensures WellFormed(b) ==> box.bottomRight.lat <= box.topLeft.lat && box.topLeft.lon <= box.bottomRight.lon
  {
    BoxBounds(GeoPoint(NorthWest(b).lat, NorthWest(b).lng), GeoPoint(SouthEast(b).lat, SouthEast(b).lng))
  }

  // ---------------------------------------------------------------------
  // Initial view and tile source
  // ---------------------------------------------------------------------

  const DefaultCenter: LatLng := LatLng(15.0, 5.0)
  const DefaultZoom: int := 2

  /** `found.center || defaultMapCenter` and `found.zoom || defaultMapZoom`:
      a stored centre is always kept, a stored zoom only when it is not 0
      (0 is falsy), so the initial zoom is never 0. */
  function InitialView(center: Option<LatLng>, zoom: Option<int>): (v: (LatLng, int))
    ensures v.0 == (if center.Some? then center.value else DefaultCenter)
    ensures v.1 != 0
    ensures zoom.Some? && zoom.value != 0 ==> v.1 == zoom.value
    ensures zoom.None? || zoom.value == 0 ==> v.1 == DefaultZoom
  {
    (if center.Some? then center.value else DefaultCenter,
     if zoom.Some? && zoom.value != 0 then zoom.value else DefaultZoom)
  }

  /** The `attr.wms` settings (the WMS layer options are not modelled). */
  datatype Wms = Wms(enabled: bool, url: string)

  /** The `attr` parameters the map reads. */
  datatype Attr = Attr(wms: Option<Wms>)

  datatype TileSource = StandardTiles(url: string) | WmsTiles(url: string)

  const MapTilesUrl: string := "https://otile{s}-s.mqcdn.com/tiles/1.0.0/map/{z}/{x}/{y}.jpeg"

  /** WMS tiles exactly when `attr.wms.enabled` is set, from its url;
      otherwise the standard MapQuest tiles. */
  function TileSourceFor(attr: Attr): (t: TileSource)
    ensures t.WmsTiles? <==> attr.wms.Some? && attr.wms.value.enabled
    ensures t.WmsTiles? ==> t.url == attr.wms.value.url
    ensures t.StandardTiles? ==> t.url == MapTilesUrl
  {
    if attr.wms.Some? && attr.wms.value.enabled then WmsTiles(attr.wms.value.url)
    else StandardTiles(MapTilesUrl)
  }
}
