/** The FillMapMap widget as an object: its control slots, its Leaflet map,
    the cached view, the events it forwards to the host, and its lifecycle
    (create, add controls, destroy, rebuild). */
module FillMap {
  import opened FillMapData

  // ---------------------------------------------------------------------
  // What the map carries and what the host receives
  // ---------------------------------------------------------------------

  /** An overlay control attached to the map. */
  datatype Control =
    | Title(text: string)
    | Fit
    | Draw(options: map<string, ShapeOption>)
    | Info
    | Legend(labels: seq<LegendLabel>)

  /** A layer on the map: the tile layer, one name marker per region, and
      the styled region layer. */
  datatype Layer =
    | Tiles(source: TileSource)
    | NameMarker(name: string)
    | FeatureLayer(features: seq<Feature>, fills: seq<Colour>)

  /** A completed drawing, as Leaflet.draw reports it: the layer type and the
      bounds of the drawn layer, or None when the layer has no `getBounds`
      (the single point a marker tool draws). */
  datatype DrawEvent = DrawEvent(layerType: string, bounds: Option<LatLngBounds>)

  /** An event sent to the host's sink. */
  datatype Emission =
    | MapMoveEnd(chart: Option<ChartData>, surface: MapSurface, center: LatLng, zoom: int)
    | MapZoomEnd(chart: Option<ChartData>, surface: MapSurface, zoom: int)
    | Drawn(kind: string, e: DrawEvent, chart: Option<ChartData>, bounds: BoxBounds)
  {
    /** The event name it is emitted under. */
    function Name(): string
    {
      match this
      case MapMoveEnd(_, _, _, _) => "mapMoveEnd"
      case MapZoomEnd(_, _, _) => "mapZoomEnd"
      case Drawn(kind, _, _, _) => kind
    }
  }

  /** The control kinds FillMapMap keeps a slot for. */
  datatype Slot = TitleSlot | FitSlot | DrawSlot

  function SlotOf(c: Control): Option<Slot>
  {
    match c
    case Title(_) => Some(TitleSlot)
    case Fit => Some(FitSlot)
    case Draw(_) => Some(DrawSlot)
    case _ => None
  }

  /** How many controls of kind `s` are in `cs`. */
  function Occurrences(cs: seq<Control>, s: Slot): nat
  {
    if |cs| == 0 then 0
    else (if SlotOf(cs[0]) == Some(s) then 1 else 0) + Occurrences(cs[1..], s)
  }

  /** Adding one control raises the count of its own kind by one and leaves
      the other kinds' counts alone. */
  lemma {:induction false} OccurrencesAppend(cs: seq<Control>, c: Control, s: Slot)
    ensures Occurrences(cs + [c], s) == Occurrences(cs, s) + (if SlotOf(c) == Some(s) then 1 else 0)
  {
    if |cs| == 0 {
      assert cs + [c] == [c];
      assert [c][1..] == [];
    } else {
      assert (cs + [c])[1..] == cs[1..] + [c];
      OccurrencesAppend(cs[1..], c, s);
    }
  }

  /** A list holding no control of kind `s` counts none of them. */
  lemma {:induction false} NoneOfKind(cs: seq<Control>, s: Slot)
    requires forall x :: x in cs ==> SlotOf(x) != Some(s)
    ensures Occurrences(cs, s) == 0
  {
    if |cs| > 0 {
      NoneOfKind(cs[1..], s);
    }
  }

  /** `cs` with every copy of `c` taken out and every other control kept,
      as many times as it occurs in `cs`. */
  function Without(cs: seq<Control>, c: Control): (r: seq<Control>)
    ensures forall x :: x in r <==> x in cs && x != c
    ensures multiset(r) == multiset(cs)[c := 0]
    ensures |r| <= |cs|
    ensures c in cs ==> |r| < |cs|
  {
    if |cs| == 0 then []
    else
      assert cs == [cs[0]] + cs[1..];
      if cs[0] == c then Without(cs[1..], c)
      else [cs[0]] + Without(cs[1..], c)
  }

  /** `if (slot) slot.removeFrom(map)` on a list of controls. */
  function RemoveSlot(cs: seq<Control>, slot: Option<Control>): seq<Control>
  {
    if slot.Some? then Without(cs, slot.value) else cs
  }

  /** One name marker per feature, in feature order. */
  function NameMarkers(fs: seq<Feature>): (r: seq<Layer>)
    ensures |r| == |fs|
    ensures forall i :: 0 <= i < |r| ==> r[i] == NameMarker(fs[i].name)
  {
    seq(|fs|, i requires 0 <= i < |fs| => NameMarker(fs[i].name))
  }

  /** The features the region layer shows: joined to the first series when
      there is chart data, the bare boundary dataset otherwise. */
  function FeaturesFor(chartData: Option<ChartData>): (fs: seq<Feature>)
    requires chartData.Some? ==> |chartData.value.series| > 0
    ensures |fs| == |Regions|
    ensures forall i :: 0 <= i < |fs| ==> fs[i].id == Regions[i].id && fs[i].name == Regions[i].name
    ensures chartData.Some? ==> fs == Join(Regions, chartData.value.series[0].values) && Joined(fs)
    ensures chartData.None? ==> fs == Regions
  {
    if chartData.Some? then Join(Regions, chartData.value.series[0].values) else Regions
  }

  // ---------------------------------------------------------------------
  // The loops of addBoundingControl and of the legend's onAdd
  // ---------------------------------------------------------------------

  /** `drawOptions.draw`, filled shape by shape: one entry per toolbar shape,
      each as the draw gate decides. */
  method BuildDrawOptions(interest: Interest) returns (draw: map<string, ShapeOption>)
    ensures forall s :: s in draw <==> s in DrawShapes
    ensures forall s :: s in draw ==> draw[s] == DrawOption(interest, s)
  {
    draw := map[];
    var i := 0;
    while i < |DrawShapes|
      invariant 0 <= i <= |DrawShapes|
      invariant forall s :: s in draw <==> s in DrawShapes[..i]
      invariant forall s :: s in draw ==> draw[s] == DrawOption(interest, s)
    {
      var shape := DrawShapes[i];
      if interest.Some? && ListenerCount(interest.value, shape) == 0 {
        draw := draw[shape := Disabled];
      } else {
        draw := draw[shape := Enabled(false, "#000")];
      }
      assert DrawShapes[..i + 1] == DrawShapes[..i] + [shape];
      i := i + 1;
    }
    assert DrawShapes[..i] == DrawShapes;
  }

  /** The legend's `labels` array, pushed one grade at a time. */
  method BuildLegend(grades: seq<int>, rb: Rainbow) returns (labels: seq<LegendLabel>)
    ensures labels == LegendLabels(grades, rb)
  {
    labels := [];
    var i := 0;
    while i < |grades|
      invariant 0 <= i <= |grades|
      invariant labels == LegendLabels(grades, rb)[..i]
    {
      var from := grades[i];
      var to := if i + 1 < |grades| && grades[i + 1] != 0 then Some(grades[i + 1]) else None;
      labels := labels + [LegendLabel(Sample(rb, Some((from + 1) as real)), from, to)];
      i := i + 1;
    }
  }

  // ---------------------------------------------------------------------
  // Collaborators: the host's event sink and the Leaflet map
  // ---------------------------------------------------------------------

  /** The host's event emitter: its listener counts and what it was sent. */
  class EventSink {
    var listeners: map<string, nat>
    var received: seq<Emission>

    constructor (listeners: map<string, nat>)
      ensures this.listeners == listeners && received == []
    {
      this.listeners := listeners;
      received := [];
    }

    method Emit(e: Emission)
      modifies this`received
      ensures received == old(received) + [e]
    {
      received := received + [e];
    }
  }

  /** The Leaflet map as the widget uses it: a view (centre and zoom), the
      layers and controls added to it, and whether it has been removed. */
  class MapSurface {
    var center: LatLng
    var zoom: int
    var layers: seq<Layer>
    var controls: seq<Control>
    var removed: bool

    /** `L.map(container, {layers: tiles, center, zoom})`. */
    constructor (center: LatLng, zoom: int, tiles: TileSource)
      ensures this.center == center && this.zoom == zoom
      ensures layers == [Tiles(tiles)] && controls == [] && !removed
    {
      this.center := center;
      this.zoom := zoom;
      layers := [Tiles(tiles)];
      controls := [];
      removed := false;
    }

    method AddControl(c: Control)
      modifies this`controls
      ensures controls == old(controls) + [c]
    {
      controls := controls + [c];
    }

    /** `control.removeFrom(map)`. */
    method RemoveControl(c: Control)
      modifies this`controls
      ensures controls == Without(old(controls), c)
    {
      controls := Without(controls, c);
    }

    method AddLayer(l: Layer)
      modifies this`layers
      ensures layers == old(layers) + [l]
    {
      layers := layers + [l];
    }

    /** `map.remove()`. */
    method Remove()
      modifies this`removed
      ensures removed
    {
      removed := true;
    }
  }

  // ---------------------------------------------------------------------
  // FillMapMap
  // ---------------------------------------------------------------------

  class FillMapMap {
    var chartData: Option<ChartData>
    var events: EventSink?
    var attr: Attr

    /** `this.map`: the live Leaflet map, null once destroyed. */
    var surface: MapSurface?
    var tileLayer: Option<TileSource>
    var geoJson: Option<Layer>
    var rainbow: Option<Rainbow>
    var mapCenter: LatLng
    var mapZoom: int

    var titleLabel: Option<Control>
    var fitControl: Option<Control>
    var boundingControl: Option<Control>

    /** Each slot holds a control of its own kind, and while a map is live
        it carries at most one control of each slot kind, and only the one
        its slot holds. */
    ghost predicate Valid()
      reads this, surface
    {
      && (titleLabel.Some? ==> titleLabel.value.Title?)
      && (fitControl.Some? ==> fitControl.value.Fit?)
      && (boundingControl.Some? ==> boundingControl.value.Draw?)
      && (surface != null ==>
            && !surface.removed
            && Occurrences(surface.controls, TitleSlot) <= (if titleLabel.Some? then 1 else 0)
            && Occurrences(surface.controls, FitSlot) <= (if fitControl.Some? then 1 else 0)
            && Occurrences(surface.controls, DrawSlot) <= (if boundingControl.Some? then 1 else 0)
            && (forall c :: c in surface.controls && c.Title? ==> titleLabel == Some(c))
            && (forall c :: c in surface.controls && c.Fit? ==> fitControl == Some(c))
            && (forall c :: c in surface.controls && c.Draw? ==> boundingControl == Some(c)))
    }

    /** The host's sink as the gates see it. */
    function Interest(): Interest
      reads this, events
    {
      if events == null then None else Some(events.listeners)
    }

    /** `new FillMapMap(container, chartData, params)`: keeps the parameters
        and builds the map.  With no earlier gradient, the map can only be
        styled when chart data is given. */
    constructor (chartData: Option<ChartData>, events: EventSink?, attr: Attr)
      requires chartData.Some? && |chartData.value.series| > 0
      ensures Valid()
      ensures this.chartData == chartData && this.events == events && this.attr == attr
      ensures surface != null && fresh(surface)
      ensures titleLabel.None? && fitControl.None? && boundingControl.None?
      ensures mapCenter == DefaultCenter && mapZoom == DefaultZoom
      ensures rainbow == Some(RangeOf(FeaturesFor(chartData)))
      ensures surface.center == DefaultCenter && surface.zoom == DefaultZoom && !surface.removed
      ensures tileLayer == Some(TileSourceFor(attr))
      ensures geoJson == Some(FeatureLayer(FeaturesFor(chartData), Fills(rainbow.value, FeaturesFor(chartData))))
      ensures surface.layers == [Tiles(TileSourceFor(attr))] + NameMarkers(FeaturesFor(chartData)) + [geoJson.value]
      ensures surface.controls == [Info, Legend(LegendLabels(Grades, rainbow.value))]
    {
      this.chartData := chartData;
      this.events := events;
      this.attr := attr;
      surface := null;
      tileLayer := None;
      geoJson := None;
      rainbow := None;
      mapCenter := DefaultCenter;
      mapZoom := DefaultZoom;
      titleLabel := None;
      fitControl := None;
      boundingControl := None;
      new;
      CreateMap(chartData);
    }

    /** `_createMap`: tears the live map down first, then builds a new one at
        the default view with the configured tiles, joins the chart data to
        the regions, derives the gradient from the joined counts, and adds
        the info control, one name marker per region, the styled region layer
        and the legend.  The control slots survive a rebuild. */
    method CreateMap(chartData: Option<ChartData>)
      requires Valid()
      requires chartData.Some? ==> |chartData.value.series| > 0
      requires chartData.Some? || rainbow.Some?
      modifies this`surface, this`tileLayer, this`geoJson, this`rainbow, this`mapCenter, this`mapZoom, surface
      ensures Valid()
      ensures old(surface) != null ==> old(surface).removed
      ensures old(surface) != null ==>
        old(surface).controls ==
          RemoveSlot(RemoveSlot(RemoveSlot(old(surface.controls), titleLabel), fitControl), boundingControl)
      ensures old(surface) != null ==> forall s: Slot :: Occurrences(old(surface).controls, s) == 0
      ensures surface != null && fresh(surface)
      ensures mapCenter == DefaultCenter && mapZoom == DefaultZoom
      ensures surface.center == DefaultCenter && surface.zoom == DefaultZoom && !surface.removed
      ensures tileLayer == Some(TileSourceFor(attr))
      ensures rainbow == if chartData.Some? then Some(RangeOf(FeaturesFor(chartData))) else old(rainbow)
      ensures rainbow.Some?
      ensures geoJson == Some(FeatureLayer(FeaturesFor(chartData), Fills(rainbow.value, FeaturesFor(chartData))))
      ensures surface.layers == [Tiles(TileSourceFor(attr))] + NameMarkers(FeaturesFor(chartData)) + [geoJson.value]
      ensures surface.controls == [Info, Legend(LegendLabels(Grades, rainbow.value))]
      ensures titleLabel == old(titleLabel) && fitControl == old(fitControl) && boundingControl == old(boundingControl)
      ensures this.chartData == old(this.chartData) && events == old(events) && attr == old(attr)
    {
      if surface != null {
        Destroy();
      }
      Build(chartData);
    }

    /** The part of `_createMap` after the teardown: builds the new map. */
    method Build(chartData: Option<ChartData>)
      requires Valid() && surface == null
      requires chartData.Some? ==> |chartData.value.series| > 0
      requires chartData.Some? || rainbow.Some?
      modifies this`surface, this`tileLayer, this`geoJson, this`rainbow, this`mapCenter, this`mapZoom
      ensures Valid()
      ensures surface != null && fresh(surface)
      ensures mapCenter == DefaultCenter && mapZoom == DefaultZoom
      ensures surface.center == DefaultCenter && surface.zoom == DefaultZoom && !surface.removed
      ensures tileLayer == Some(TileSourceFor(attr))
      ensures rainbow == if chartData.Some? then Some(RangeOf(FeaturesFor(chartData))) else old(rainbow)
      ensures rainbow.Some?
      ensures geoJson == Some(FeatureLayer(FeaturesFor(chartData), Fills(rainbow.value, FeaturesFor(chartData))))
      ensures surface.layers == [Tiles(TileSourceFor(attr))] + NameMarkers(FeaturesFor(chartData)) + [geoJson.value]
      ensures surface.controls == [Info, Legend(LegendLabels(Grades, rainbow.value))]
    {
      SetInitialView();
      BindChart(chartData);
      AttachSurface();
    }

    /** The initial view and the tile source of a new map. */
    method SetInitialView()
      modifies this`mapCenter, this`mapZoom, this`tileLayer
      ensures mapCenter == DefaultCenter && mapZoom == DefaultZoom
      ensures tileLayer == Some(TileSourceFor(attr))
    {
      // The view is looked up on `this._geoJson.properties`; `_geoJson` is a
      // Leaflet layer, which has no `properties`, so both lookups miss.
      var view := InitialView(None, None);
      mapCenter := view.0;
      mapZoom := view.1;
      tileLayer := Some(TileSourceFor(attr));
    }

    /** The join, the gradient (only when there is chart data) and the
        styled region layer. */
    method BindChart(chartData: Option<ChartData>)
      requires chartData.Some? ==> |chartData.value.series| > 0
      requires chartData.Some? || rainbow.Some?
      modifies this`rainbow, this`geoJson
      ensures rainbow == if chartData.Some? then Some(RangeOf(FeaturesFor(chartData))) else old(rainbow)
      ensures rainbow.Some?
      ensures geoJson == Some(FeatureLayer(FeaturesFor(chartData), Fills(rainbow.value, FeaturesFor(chartData))))
    {
      var features := FeaturesFor(chartData);
      if chartData.Some? {
        rainbow := Some(RangeOf(features));
      }
      geoJson := Some(FeatureLayer(features, Fills(rainbow.value, features)));
    }

    /** A new map carrying the tiles, the region layer and the legend. */
    method AttachSurface()
      requires Valid() && surface == null
      requires tileLayer.Some? && rainbow.Some? && geoJson.Some? && geoJson.value.FeatureLayer?
      modifies this`surface
      ensures Valid()
      ensures surface != null && fresh(surface)
      ensures surface.center == mapCenter && surface.zoom == mapZoom && !surface.removed
      ensures surface.layers == [Tiles(tileLayer.value)] + NameMarkers(geoJson.value.features) + [geoJson.value]
      ensures surface.controls == [Info, Legend(LegendLabels(Grades, rainbow.value))]
    {
      surface := NewSurface(mapCenter, mapZoom, tileLayer.value, geoJson.value.features, geoJson.value, rainbow.value);
    }

    /** `L.map(...)` at the given view with the tile layer, then the info
        control, the name markers, the region layer and the legend. */
    static method NewSurface(center: LatLng, zoom: int, tiles: TileSource,
                             features: seq<Feature>, regionLayer: Layer, rb: Rainbow)
      returns (m: MapSurface)
      ensures fresh(m) && !m.removed && m.center == center && m.zoom == zoom
      ensures m.layers == [Tiles(tiles)] + NameMarkers(features) + [regionLayer]
      ensures m.controls == [Info, Legend(LegendLabels(Grades, rb))]
      ensures Occurrences(m.controls, TitleSlot) == 0
      ensures Occurrences(m.controls, FitSlot) == 0
      ensures Occurrences(m.controls, DrawSlot) == 0
    {
      m := new MapSurface(center, zoom, tiles);
      m.AddControl(Info);
      AddNameMarkers(m, features);
      m.AddLayer(regionLayer);
      var labels := BuildLegend(Grades, rb);
      m.AddControl(Legend(labels));
      assert m.controls == [] + [Info] + [Legend(labels)];
      forall s: Slot ensures Occurrences(m.controls, s) == 0 {
        OccurrencesAppend([], Info, s);
        OccurrencesAppend([] + [Info], Legend(labels), s);
      }
    }

    /** `onEachFeature`: a name marker per feature, added as the region layer
        is built. */
    static method AddNameMarkers(m: MapSurface, fs: seq<Feature>)
      modifies m`layers
      ensures m.layers == old(m.layers) + NameMarkers(fs)
    {
      var i := 0;
      while i < |fs|
        invariant 0 <= i <= |fs|
        invariant m.layers == old(m.layers) + NameMarkers(fs[..i])
      {
        m.AddLayer(NameMarker(fs[i].name));
        assert NameMarkers(fs[..i + 1]) == NameMarkers(fs[..i]) + [NameMarker(fs[i].name)];
        i := i + 1;
      }
      assert fs[..i] == fs;
    }

    /** `destroy`: removes the title, fit and drawing controls that are set,
        removes the map and drops the reference.  The slots keep their
        controls. */
    method Destroy()
      requires Valid() && surface != null
      modifies this`surface, surface
      ensures Valid() && surface == null
      ensures old(surface).removed
      ensures old(surface).controls ==
        RemoveSlot(RemoveSlot(RemoveSlot(old(surface.controls), titleLabel), fitControl), boundingControl)
      ensures old(surface).layers == old(surface.layers)
      ensures old(surface).center == old(surface.center) && old(surface).zoom == old(surface.zoom)
      ensures forall s: Slot :: Occurrences(old(surface).controls, s) == 0
    {
      if titleLabel.Some? { surface.RemoveControl(titleLabel.value); }
      if fitControl.Some? { surface.RemoveControl(fitControl.value); }
      if boundingControl.Some? { surface.RemoveControl(boundingControl.value); }
      forall s: Slot ensures Occurrences(surface.controls, s) == 0 {
        NoneOfKind(surface.controls, s);
      }
      surface.Remove();
      surface := null;
    }

    /** `addBoundingControl`: nothing when the drawing control exists;
        otherwise builds the toolbar options from the draw gate, fills the
        slot and adds exactly that control to the map. */
    method AddBoundingControl()
      requires Valid()
      requires boundingControl.None? ==> surface != null
      modifies this`boundingControl, surface
      ensures Valid()
      ensures old(boundingControl).Some? ==>
        boundingControl == old(boundingControl) && (surface != null ==> unchanged(surface))
      ensures old(boundingControl).None? ==>
        && boundingControl.Some?
        && boundingControl.value.Draw?
        && (forall s :: s in boundingControl.value.options <==> s in DrawShapes)
        && (forall s :: s in boundingControl.value.options ==>
              boundingControl.value.options[s] == DrawOption(Interest(), s))
        && surface.controls == old(surface.controls) + [boundingControl.value]
        && surface.layers == old(surface.layers) && surface.center == old(surface.center) && surface.zoom == old(surface.zoom)
    {
      if boundingControl.Some? { return; }
      var draw := BuildDrawOptions(Interest());
      boundingControl := Some(Draw(draw));
      forall s: Slot { OccurrencesAppend(surface.controls, Draw(draw), s); }
      surface.AddControl(Draw(draw));
    }

    /** `addFitControl`: nothing when the fit control exists; otherwise
        fills the slot and adds exactly that control to the map. */
    method AddFitControl()
      requires Valid()
      requires fitControl.None? ==> surface != null
      modifies this`fitControl, surface
      ensures Valid()
      ensures old(fitControl).Some? ==>
        fitControl == old(fitControl) && (surface != null ==> unchanged(surface))
      ensures old(fitControl).None? ==>
        && fitControl == Some(Fit)
        && surface.controls == old(surface.controls) + [Fit]
        && surface.layers == old(surface.layers) && surface.center == old(surface.center) && surface.zoom == old(surface.zoom)
    {
      if fitControl.Some? { return; }
      fitControl := Some(Fit);
      forall s: Slot { OccurrencesAppend(surface.controls, Fit, s); }
      surface.AddControl(Fit);
    }

    /** `addTitle`: nothing when a title exists (whatever its text);
        otherwise fills the slot and adds exactly that title to the map. */
    method AddTitle(text: string)
      requires Valid()
      requires titleLabel.None? ==> surface != null
      modifies this`titleLabel, surface
      ensures Valid()
      ensures old(titleLabel).Some? ==>
        titleLabel == old(titleLabel) && (surface != null ==> unchanged(surface))
      ensures old(titleLabel).None? ==>
        && titleLabel == Some(Title(text))
        && surface.controls == old(surface.controls) + [Title(text)]
        && surface.layers == old(surface.layers) && surface.center == old(surface.center) && surface.zoom == old(surface.zoom)
    {
      if titleLabel.Some? { return; }
      titleLabel := Some(Title(text));
      forall s: Slot { OccurrencesAppend(surface.controls, Title(text), s); }
      surface.AddControl(Title(text));
    }

    /** The `moveend` handler: always caches the map's centre and zoom, and
        reports `mapMoveEnd` when the host has a sink. */
    method OnMoveEnd()
      requires Valid() && surface != null
      modifies this`mapCenter, this`mapZoom, events
      ensures Valid()
      ensures mapCenter == surface.center && mapZoom == surface.zoom
      ensures events != null ==> events.listeners == old(events.listeners)
      ensures EmitsView(Interest()) ==>
        events.received == old(events.received) + [MapMoveEnd(chartData, surface, surface.center, surface.zoom)]
      ensures EmitsView(Interest()) ==> events.received[|events.received| - 1].Name() == "mapMoveEnd"
    {
      mapCenter := surface.center;
      mapZoom := surface.zoom;
      if events == null { return; }
      events.Emit(MapMoveEnd(chartData, surface, mapCenter, mapZoom));
    }

    /** The `zoomend` handler: always caches the map's zoom, and reports
        `mapZoomEnd` when the host has a sink. */
    method OnZoomEnd()
      requires Valid() && surface != null
      modifies this`mapZoom, events
      ensures Valid()
      ensures mapZoom == surface.zoom && mapCenter == old(mapCenter)
      ensures events != null ==> events.listeners == old(events.listeners)
      ensures EmitsView(Interest()) ==>
        events.received == old(events.received) + [MapZoomEnd(chartData, surface, surface.zoom)]
      ensures EmitsView(Interest()) ==> events.received[|events.received| - 1].Name() == "mapZoomEnd"
    {
      mapZoom := surface.zoom;
      if events == null { return; }
      events.Emit(MapZoomEnd(chartData, surface, mapZoom));
    }

    /** The `draw:created` handler: reports the drawing under its layer type,
        with its bounds as `{top_left, bottom_right}`, only when the host's
        sink listens for that type.  Past that gate the handler asks the
        layer for its bounds; a layer without them makes the handler throw,
        and nothing is reported. */
    method OnDrawCreated(e: DrawEvent)
      requires Valid() && surface != null
      modifies events
      ensures Valid()
      ensures events != null ==> events.listeners == old(events.listeners)
      ensures events != null ==>
        events.received == old(events.received) +
          if EmitsDraw(Interest(), e.layerType) && e.bounds.Some?
          then [Drawn(e.layerType, e, chartData, DrawBounds(e.bounds.value))]
          else []
      ensures events != null && |events.received| > |old(events.received)| ==>
        var name := events.received[|events.received| - 1].Name();
        name == e.layerType && ListenerCount(events.listeners, name) > 0
    {
      if events == null || ListenerCount(events.listeners, e.layerType) == 0 { return; }
      if e.bounds.None? { return; }
      events.Emit(Drawn(e.layerType, e, chartData, DrawBounds(e.bounds.value)));
    }
  }

  /** Asking for a title twice adds one title control, with the first text. */
  method AddTitleTwice(w: FillMapMap, first: string, second: string)
    requires w.Valid() && w.surface != null && w.titleLabel.None?
    modifies w, w.surface
    ensures w.Valid() && w.surface != null
    ensures w.titleLabel == Some(Title(first))
    ensures w.surface.controls == old(w.surface.controls) + [Title(first)]
    ensures Occurrences(w.surface.controls, TitleSlot) == 1
  {
    w.AddTitle(first);
    w.AddTitle(second);
    assert Occurrences(w.surface.controls, TitleSlot) <= 1;
    OccurrencesAppend(old(w.surface.controls), Title(first), TitleSlot);
  }
}
