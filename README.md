# Fill map: data binding and widget lifecycle

This project models the core of `FillMapMap`, the choropleth ("fill") map visualization of the Kibana vislib in `src/ui/public/vislib/visualizations/_fill_map.js`. The widget joins a chart series of `{x, y}` points to a fixed set of regions. It colours the regions along a gradient between the least and the greatest joined count. It draws a legend from a fixed list of breakpoints and offers drawing tools gated by the host's listeners. It forwards map moves, zooms and completed drawings to the host's event sink, and owns the life of its Leaflet map and controls.

There are two modules:

- `FillMapData` (`fill_map_data.dfy`) holds the pure data binding. It covers the chart join, the `_.min`/`_.max` range, the legend rows, the draw-tool gate, the bounds of a drawn shape, the initial view and the choice of tile source. Each is a function with lemmas.
- `FillMap` (`fill_map.dfy`) holds the stateful widget. `FillMapMap` is a class whose fields are the ones the source updates in place: the control slots `_label`, `_fitControl` and `_boundingControl` (here `titleLabel`, `fitControl`, `boundingControl`), the map (`surface`, since `map` is a Dafny keyword), the cached `_mapCenter`/`_mapZoom`, `_rainbow`, `_geoJson` and `_tileLayer`. The Leaflet map is the class `MapSurface`, which has a view, its layers, its controls and a removed flag. The host's emitter is `EventSink`, which has listener counts per event name and the list of events it received. The two index loops of the source are methods with loop invariants, proved against the specification functions: filling `drawOptions.draw` is `BuildDrawOptions`, and pushing legend labels is `BuildLegend`.

Colours stay abstract. `Sample(rainbow, at)` stands for whatever rainbowvis.js's `colourAt(at)` returns for that gradient. Counts, latitudes and longitudes are `real`, and zoom levels and legend breakpoints are `int`.

## Model

| member | source | states |
|---|---|---|
| `FillMapData.FirstMatch` | src/ui/public/vislib/visualizations/_fill_map.js:265-267 | `_.find` by `x`: the index found has the region's id as `x` and no earlier value has it; None only when no value has it |
| `FillMapData.Join` | src/ui/public/vislib/visualizations/_fill_map.js:263-270 | the join keeps the feature count, order, ids and names, and sets every feature's count |
| `FillMapData.JoinFirstMatchWins` | src/ui/public/vislib/visualizations/_fill_map.js:265-268 | a feature takes the `y` of the FIRST value keyed by its id, or 0 if that value has no `y`; later duplicates are ignored |
| `FillMapData.JoinNoMatch` | src/ui/public/vislib/visualizations/_fill_map.js:268 | a feature that no value is keyed by gets 0 |
| `FillMapData.MinIndex` | src/ui/public/vislib/visualizations/_fill_map.js:274-276 | `_.min` by count: the chosen feature's count is at most every count, and it is the first feature with the least count |
| `FillMapData.MaxIndex` | src/ui/public/vislib/visualizations/_fill_map.js:277-279 | `_.max` by count: the chosen feature's count is at least every count, and it is the first feature with the greatest count |
| `FillMapData.RangeOf` | src/ui/public/vislib/visualizations/_fill_map.js:272-282 | the gradient's range has min ≤ max and every feature's count in [min, max], with the red-to-yellow spectrum |
| `FillMapData.RangeAttained` | src/ui/public/vislib/visualizations/_fill_map.js:274-281 | both ends of the range are the count of some feature |
| `FillMapData.UnmatchedSeriesRange` | src/ui/public/vislib/visualizations/_fill_map.js:261-281 | a series that keys no region (an empty one included) gives every region 0, so the range handed to the gradient library is the degenerate 0..0 |
| `FillMapData.OneValuePerRegionRange` | src/ui/public/vislib/visualizations/_fill_map.js:261-281 | one value per region (10, 20, 30, 40) gives the range 10..40 |
| `FillMapData.Fills` | src/ui/public/vislib/visualizations/_fill_map.js:304-326 | each feature's fill is the gradient sampled at that feature's own count, in feature order |
| `FillMapData.FillsWithinRange` | src/ui/public/vislib/visualizations/_fill_map.js:304-326 | the region layer styled with the gradient of its own joined counts samples every fill at a defined count inside the gradient's range, and some fill sits at each end of the range |
| `FillMapData.LegendLabels` | src/ui/public/vislib/visualizations/_fill_map.js:383-396 | one row per grade, in grade order; the swatch is sampled at grade + 1; a row is closed up to the next grade when that grade is non-zero (truthy), and the last row is open |
| `FillMapData.FixedLegendShape` | src/ui/public/vislib/visualizations/_fill_map.js:385-394 | the fixed breakpoints give 8 rows: 7 closed buckets that tile 100..100000, then `100000+` |
| `FillMapData.DrawOption` | src/ui/public/vislib/visualizations/_fill_map.js:59-70 | a tool is `false` exactly when a sink exists with no listener for that shape; otherwise it is on, without stroke, in `#000` |
| `FillMapData.DrawGateMatchesEmission` | src/ui/public/vislib/visualizations/_fill_map.js:183-185 | with a sink, a tool is offered exactly when its drawings would be emitted; with no sink every tool is offered and no drawing is emitted |
| `FillMapData.DrawBounds` | src/ui/public/vislib/visualizations/_fill_map.js:188-202 | `top_left` is the north-west corner and `bottom_right` the south-east corner; the bounds can be recovered from them, and for well-formed bounds top_left lies north-west of bottom_right |
| `FillMapData.InitialView` | src/ui/public/vislib/visualizations/_fill_map.js:231-232 | a stored centre is kept, else `[15, 5]`; a stored zoom is kept unless absent or 0 (falsy), else 2; the zoom is never 0 |
| `FillMapData.TileSourceFor` | src/ui/public/vislib/visualizations/_fill_map.js:235-239 | WMS tiles from `attr.wms.url` exactly when `attr.wms.enabled`, otherwise the MapQuest tile URL |
| `FillMap.FeaturesFor` | src/ui/public/vislib/visualizations/_fill_map.js:261-270 | the region layer shows the four regions with their ids and names in dataset order; with chart data they are the regions joined to the first series' values (every count set), without it the bare regions |
| `FillMap.NameMarkers` | src/ui/public/vislib/visualizations/_fill_map.js:358-366 | one name marker per feature, in feature order |
| `FillMap.Without` | src/ui/public/vislib/visualizations/_fill_map.js:150-152 | removing a control from the map drops every copy of it and keeps every other control as often as it occurred (as multisets), so the list shrinks when the control was present |
| `FillMap.NoneOfKind` | src/ui/public/vislib/visualizations/_fill_map.js:150-152 | a control list holding no control of a kind counts none of that kind, which is how the removed map is shown to keep no slot control |
| `FillMap.OccurrencesAppend` | src/ui/public/vislib/visualizations/_fill_map.js:73 | adding a control raises the count of its own kind by one and leaves the other kinds alone |
| `FillMap.BuildDrawOptions` | src/ui/public/vislib/visualizations/_fill_map.js:57-70 | the filled `drawOptions.draw` has exactly the six shapes as keys, each set as the draw gate decides |
| `FillMap.BuildLegend` | src/ui/public/vislib/visualizations/_fill_map.js:384-394 | the label loop yields exactly the legend rows of `LegendLabels` |
| `FillMap.FillMapMap.constructor` | src/ui/public/vislib/visualizations/_fill_map.js:31-51 | keeps the chart data, sink and attrs, leaves the slots empty, and builds a live map whose own view and cached view are both the default, with the configured tiles and the gradient of the joined chart data, carrying the tiles, one name marker per region and the styled region layer, and the info and legend controls |
| `FillMap.FillMapMap.CreateMap` | src/ui/public/vislib/visualizations/_fill_map.js:226-400 | a live map is destroyed first, leaving it with no title, fit or drawing control; the new map is at the default view, with the chosen tiles, then one name marker per region and the styled region layer, with the info control and the legend; the gradient is rebuilt only when chart data is given; the control slots are unchanged |
| `FillMap.FillMapMap.SetInitialView` | src/ui/public/vislib/visualizations/_fill_map.js:230-239 | the cached view is the default `[15, 5]`/2 (the lookup on the Leaflet layer always misses), and the tile source is the configured one |
| `FillMap.FillMapMap.BindChart` | src/ui/public/vislib/visualizations/_fill_map.js:261-375 | with chart data, the gradient is the range of the joined counts; without it, the previous gradient is kept; the region layer is the features with their fills |
| `FillMap.FillMapMap.NewSurface` | src/ui/public/vislib/visualizations/_fill_map.js:246-398 | the new map carries the tiles, the name markers and the region layer in that order, and the info and legend controls, and no title, fit or drawing control |
| `FillMap.FillMapMap.AddNameMarkers` | src/ui/public/vislib/visualizations/_fill_map.js:348-367 | one name marker is added per feature, in feature order, after the layers already there |
| `FillMap.FillMapMap.Destroy` | src/ui/public/vislib/visualizations/_fill_map.js:148-155 | removes exactly the title, fit and drawing controls whose slots are set, removes the map and drops the reference; the removed map is left with no title, fit or drawing control at all; the slots keep their controls and the map's layers and view are untouched |
| `FillMap.FillMapMap.AddBoundingControl` | src/ui/public/vislib/visualizations/_fill_map.js:53-74 | nothing changes when the slot is set; otherwise the slot gets a drawing control built from the draw gate and exactly that control is added to the map |
| `FillMap.FillMapMap.AddFitControl` | src/ui/public/vislib/visualizations/_fill_map.js:76-103 | nothing changes when the slot is set; otherwise exactly one fit control is added and kept in the slot |
| `FillMap.FillMapMap.AddTitle` | src/ui/public/vislib/visualizations/_fill_map.js:112-128 | nothing changes when a title exists, whatever the new text; otherwise exactly one title with that text is added and kept in the slot |
| `FillMap.AddTitleTwice` | src/ui/public/vislib/visualizations/_fill_map.js:112-113 | asking twice for a title leaves one title control on the map, with the first text |
| `FillMap.FillMapMap.OnMoveEnd` | src/ui/public/vislib/visualizations/_fill_map.js:168-181 | always caches the map's centre and zoom; emits an event named `mapMoveEnd` (chart, map, centre, zoom) whenever a sink exists (`EmitsView`) |
| `FillMap.FillMapMap.OnZoomEnd` | src/ui/public/vislib/visualizations/_fill_map.js:206-215 | always caches the map's zoom and leaves the centre alone; emits an event named `mapZoomEnd` (chart, map, zoom) whenever a sink exists (`EmitsView`) |
| `FillMap.FillMapMap.OnDrawCreated` | src/ui/public/vislib/visualizations/_fill_map.js:183-204 | emits the drawing under its layer type, with the original event, the chart and the `{top_left, bottom_right}` bounds, exactly when a sink listens for that type and the drawn layer has bounds; otherwise nothing. An emitted drawing is named by its layer type, which the sink listens for |

`FillMapMap.Valid()` is kept by every method. Each slot holds a control of its own kind. While a map is live, it carries at most one title, fit and drawing control each, and a control of one of those kinds only when it is the one its slot holds.

## Behaviour as written

The model follows the code in each of these points:

- `destroy` is not idempotent. It dereferences `this.map`, so `Destroy` requires a live map, and a second call would fail.
- `addBoundingControl`, `addFitControl` and `addTitle` add their control to `this.map` when their slot is empty (lines 73, 102 and 127). So `AddBoundingControl`, `AddFitControl` and `AddTitle` require a live map in that case. With the slot set they return before touching the map.
- The `draw:created` handler asks the drawn layer for its bounds only after the listener gate (line 188). A layer without `getBounds`, such as the point a marker tool draws, makes the handler throw, so nothing is reported for it. `DrawEvent.bounds` is None for such a layer, and `OnDrawCreated` then emits nothing.
- `destroy` does not clear the control slots. After a rebuild the slots are still set, so `addTitle`, `addFitControl` and `addBoundingControl` do nothing on the new map.
- The initial view never comes from an earlier view. `_createMap` looks it up on `this._geoJson.properties`, and `_geoJson` is a Leaflet layer without `properties`, so the view is always `[15, 5]` at zoom 2.
- The legend has exactly one row per grade (8 rows).
- With no event sink, every drawing tool is offered, but no drawing is reported.
- Without chart data there is no join and no new gradient, and nothing falls back to a default fill. Styling the regions and the legend needs a gradient from an earlier build (`getColor` dereferences `_rainbow`). So `CreateMap` requires chart data or an earlier gradient, and the constructor requires chart data.
- `chartData.series[0]` is read unchecked, so chart data must have at least one series.
- No region is skipped: there is no handling of malformed geometry.

## Left out

- Leaflet and jQuery DOM work is a stand-in. `MapSurface` only records layers, controls, its view and removal. Not modelled: the HTML of the controls, the map options (`minZoom` 1, `maxZoom` 18, `noWrap`, `maxBounds`, `scrollWheelZoom`, `fadeAnimation`), the attribution text, popups, and the `filters-off` CSS class that `saturateTiles` sets from `attr.isDesaturated`. `Attr` therefore carries only `wms`.
- rainbowvis.js is not part of this model. `colourAt` is the abstract `Sample`. The model does not capture two failures of that library as published. First, `setNumberRange` throws a RangeError unless max exceeds min, so the source stops at line 281 whenever all four counts are equal. That includes the 0..0 range of `UnmatchedSeriesRange`, which states only the range handed to the library. Second, `colourAt` throws a TypeError for a value that is not a number, so styling bare regions (a `Sample` at None) on a rebuild without chart data fails at line 305.
- The `console.log("destroy")` at line 149 is not modelled. It is console output.
- The implicit globals `chartValues`, `chartItem`, `from` and `to` (lines 262, 265 and 389-390) are not modelled. They are locals in the model, and leaking them into the page's global scope has no effect on the map.
- The `tileload` hook, its removal on `unload`, and `updateSize` are not modelled. They are event-loop and Leaflet concerns.
- `highlightFeature`, `resetHighlight`, `zoomToFeature`, `_fitBounds` and `info.update` are not modelled. They are styling and viewport calls into Leaflet.
- `addLegend` and `addInfo` are empty in the source and are not modelled.
- `valueFormatter` and `tooltipFormatter` are stored but never read by this code, so they are not modelled.
- The polygon coordinates of the four regions are not carried. Features are (id, name, count).
- The legend's HTML label text (`from–to`, `from+`) is not built. A row carries its bounds, with an open upper bound for `+`.
- `attr.wms.options` is not carried. A WMS source is modelled only by its URL.
- Numbers are `real` or `int`: NaN, infinities and non-numeric `y` values are not modelled.
- The handlers `OnMoveEnd`, `OnZoomEnd` and `OnDrawCreated` require a live map. They are registered on the map by `_attachEvents`, so they fire only while it exists.
- FillMap.FillMapMap.Destroy: the removal of a control that was added to an earlier map is modelled as a no-op, because Leaflet's own behaviour in that case is not part of this model.
