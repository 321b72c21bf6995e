# mapux `Map` — a Dafny model

This project models the configuration aggregator of mapux, the PHP class
`Map` (Model/Map.php). A `Map` collects what a page needs to draw a web map:
a centre and a zoom level, a list of layers whose index 0 is the background
tile layer, a list of markers, free-form rendering options, named UI events, legend
flags and items, and a flag that lifts the 5000-marker ceiling. Its getters
turn that state into the data the browser-side `MapBuilder` reads.

The model is functional. `MapModel.MapState` holds the object's
properties, with `None` standing for PHP's `null`. Every mutator is a
function from a state to the next state. The four that can throw
(`addMarker`, `setMarkers`, `addLegendItems`, `addLegendItem`) return
`Result<MapState, Error>` instead; a failure carries no state, so the
caller keeps the object as it was. Getters that call `json_encode` return
an abstract `Json` value instead of text. An empty PHP array is `JArray([])`;
a PHP array with keys other than 0, 1, … is a `JObject`.

Files:

- `wrappers.dfy`: `Option` and `Result`.
- `ordered_map.dfy`: PHP's ordered arrays (`OMap`, a sequence of pairs with
  distinct keys). `$a[$k] = $v` is `Put`: an existing key keeps its place,
  a new key is appended. The copy loop of `getLayersInfos` is `PutAll`.
- `json.dfy`: the `Json` value, and the decimal text of integer keys.
- `layers.dfy`: the layer classes as a tagged union (`LayerKind`). Also the
  record `getLayersInfos` emits per overlay, and the whole layer output.
- `markers.dfy`: markers and the record `getMarkers` emits per marker.
- `map_model.dfy`: `MapState`, the constructor, every mutator and getter.
- `map_properties.dfy`: lemmas that relate several calls.
- `map_trace.dfy`: arbitrary call sequences (`Run`) and the invariant that
  holds for every object after its constructor has run.

Two details of the code are modelled as written.

- **Off-by-one marker ceiling.** `addMarker` tests the count *before*
  appending (Model/Map.php:277). Without the flag, a map therefore takes a
  5001st marker and refuses only the 5002nd. `setMarkers` tests the new
  list (Model/Map.php:285), so it refuses a list of 5001 markers.
  `MapProperties.CeilingGuardsDisagree` proves both sides: 5001 markers
  added one by one succeed, and the same list given to `setMarkers` fails.
  Everywhere else the model follows the guards as written.
- **Layer output keys.** `getLayersInfos` keys each record by the layer's
  index in the list, starting at 1 (Model/Map.php:140). `json_encode`
  therefore produces `[]` when there are no overlays. When there are, it
  produces an object keyed "1", "2", … (`Layers.LayersJson`).

A `scale` flag sits next to the options. Only the constructor and
`removeScale` copy it into the `scale` option (Model/Map.php:95, 445).
`setOptions` replaces the options without looking at the flag, so after it
the option may be missing or disagree with the flag.

The setters accept any value of their parameter type. In particular,
`setZoomLevel` does not reject a negative zoom, and `setCenterLatitude` and
`setCenterLongitude` do not check the range of the coordinates.

## Model

| member | source | states |
|---|---|---|
| OrderedMap.Put | Model/Map.php:326 | `$a[$k] = $v`: afterwards `k` maps to `v`; every other key keeps its value; an existing key keeps its place and a new key goes last |
| OrderedMap.PutAll | Model/Map.php:159-161 | copying one array into another key by key: keys of the source take its values (last write wins), other keys keep theirs, and the target's keys stay in front in their order |
| OrderedMap.PutAllKeys | Model/Map.php:159-161 | after the copy, the key list is the target's keys followed by the source's new keys in the source's order |
| Json.NatToStringInjective | Model/Map.php:140 | two different integer array keys never encode to the same object key |
| Json.FromOMap | Model/Map.php:321 | a string-keyed array encodes as `[]` exactly when it is empty, and otherwise as the object holding exactly its entries in order |
| Json.IndexKeysDistinct | Model/Map.php:214 | the keys "1" … "n" of the encoded layer object are pairwise distinct |
| Layers.GeoJsonDefaults | Model/Map.php:150-156 | the GeoJSON style record has exactly the keys fillColor, color, weight, opacity, fillOpacity, in that order, each holding its getter's value |
| Layers.CircleDefaults | Model/Map.php:169-176 | the circle style record has exactly the keys radius, color, weight, opacity, fillColor, fillOpacity, in that order, each holding its getter's value |
| Layers.RectangleDefaults | Model/Map.php:186-192 | the rectangle style record has exactly the keys color, weight, opacity, fillColor, fillOpacity, in that order, each holding its getter's value |
| Layers.StyleDefaults | Model/Map.php:150-192 | for each styled class, the defaults have exactly that class's key list and hold the five style values, and the radius for circles |
| Layers.MergedOptions | Model/Map.php:178-180 | a styled layer's emitted options: every key of the layer's own options overrides the default, every other key keeps the style default; the default keys come first in their order, then the layer's new keys in the layer's order |
| Layers.LayerInfoKeys | Model/Map.php:140-210 | every layer record has distinct keys: background, options, isGeoJson, events, then the class-specific keys; a reassigned key keeps its first place |
| Layers.LayerInfoCommon | Model/Map.php:140-203 | every record carries the background, events and isGeoJson (true only for GeoJSON); options are the merged style options, the grid parameters, or the layer's own options, by class |
| Layers.LayerInfoVariant | Model/Map.php:147-210 | the class-specific entries: json for GeoJSON; isCircle and center for circles; isRectangle and the two points for rectangles; isGrid for grids; isAdjustableGrid, color and width (the weight) for adjustable grids |
| Layers.ExtraKeysFresh | Model/Map.php:147-210 | no class-specific key is one of the four common keys |
| Layers.Overlays | Model/Map.php:136-213 | the counted `foreach` emits one entry per element after index 0, paired with its index, and none for index 0 |
| Layers.LayersInfos | Model/Map.php:134-213 | exactly one record per layer at index n >= 1, keyed n, and none for the background |
| Layers.OverlaysAppend | Model/Map.php:136-213 | an element appended to the list adds exactly one entry, keyed by its index, after the existing ones |
| Layers.LayersInfosAppend | Model/Map.php:134-213 | an overlay appended to the layer list adds exactly one record, keyed by its index, after the existing records |
| Layers.LayersJson | Model/Map.php:214 | the encoded layer output is `[]` exactly when there is no overlay, and an object when there is one; the object has distinct keys "1", "2", …, each holding its layer's record |
| Markers.MarkerRecordFields | Model/Map.php:296-303 | a marker record has the keys lat, lon, icon, options, popup, events, each holding the matching getter's value |
| MapModel.SetCenterLatitude | Model/Map.php:228-231 | sets the latitude and nothing else |
| MapModel.SetCenterLongitude | Model/Map.php:244-247 | sets the longitude and nothing else |
| MapModel.SetZoomLevel | Model/Map.php:260-263 | sets the zoom level and nothing else |
| MapModel.SetTitle | Model/Map.php:421-424 | sets the title and nothing else |
| MapModel.IsReady | Model/Map.php:109-116 | the centre latitude, the centre longitude and the zoom level are all set |
| MapModel.New | Model/Map.php:84-96 | after construction the map is ready; centre and zoom equal the arguments; there is exactly one layer, the background (no URL when the argument is null, "" or "0"); options are exactly {scale: true}; no markers, events or legend items |
| MapModel.NewDefault | Model/Map.php:11-13 | the default centre is (44.8485138261124, -0.563934445381165) at zoom 10, with no background; the map is ready and its options are exactly {scale: true} |
| MapModel.AddLayer | Model/Map.php:121-124 | the layer is appended; earlier layers and all other properties are unchanged |
| MapModel.SetBackground | Model/Map.php:98-101 | index 0 becomes a new tile layer with the given URL, or with none for `null`, with no truthiness test; the layer count and every layer at index >= 1 are unchanged |
| MapModel.RemoveBackground | Model/Map.php:103-106 | equals setting the empty background |
| MapModel.AllowLargeSetOfMarkers | Model/Map.php:268-271 | sets the large-set flag and nothing else |
| MapModel.AddMarker | Model/Map.php:275-281 | fails exactly when the current count exceeds 5000 and the flag is off; otherwise appends the marker and changes nothing else |
| MapModel.SetMarkers | Model/Map.php:283-289 | fails exactly when the new list exceeds 5000 and the flag is off; otherwise the marker list becomes exactly the argument |
| MapModel.MarkersJson | Model/Map.php:291-307 | one record per marker in insertion order; `[]` when there is none |
| MapModel.PointsFromMarkers | Model/Map.php:356-363 | one (latitude, longitude) pair per marker in insertion order |
| MapModel.SetOptions | Model/Map.php:314-317 | replaces the options wholesale |
| MapModel.OptionsJson | Model/Map.php:319-322 | the options encode as `[]` exactly when there is none; otherwise as the object holding exactly the options, in their order |
| MapModel.RemoveScale | Model/Map.php:442-446 | clears the scale flag; the scale option becomes false; every other option key keeps its value, and the key order is kept when scale was present, while a missing scale key goes last |
| MapModel.AddEvent | Model/Map.php:324-327 | the name maps to the new action and params; other names are unchanged; a known name adds no entry, a new name goes last |
| MapModel.SetEvents | Model/Map.php:351-354 | replaces the events wholesale: afterwards the stored events are exactly the argument, and `getEvents` gives null exactly when the argument is empty |
| MapModel.EventsJson | Model/Map.php:332-346 | null exactly when the events are absent or empty; otherwise one {name, action, params} record per stored name, in storage order |
| MapModel.AddLegend | Model/Map.php:365-369 | shows the legend at the given position |
| MapModel.AddLegendItems | Model/Map.php:376-383 | fails exactly on an empty list; otherwise the items follow the existing ones |
| MapModel.AddLegendItem | Model/Map.php:385-392 | fails exactly on an empty item; otherwise appends it |
| MapProperties.NewMapOutputs | Model/Map.php:84-96 | a new map emits no layer records (`[]`), no events (null), no markers (`[]`) and options {scale: true} |
| MapProperties.NewThenRemoveScale | Model/Map.php:442-446 | after construction, `removeScale` leaves exactly the single option scale = false |
| MapProperties.SetBackgroundKeepsLayerOutput | Model/Map.php:98-101 | replacing the background never changes the layer output |
| MapProperties.RemoveBackgroundKeepsLayerOutput | Model/Map.php:103-106 | removing the background leaves a tile layer with the empty URL at index 0 and does not change the layer output |
| MapProperties.AddLayerAppendsRecord | Model/Map.php:121-124 | adding an overlay adds exactly one record, keyed by its index, after the existing records |
| MapProperties.AddMarkersCeiling | Model/Map.php:275-281 | without the flag, repeated `addMarker` calls all succeed exactly when they end with at most 5001 markers, and then the list is the old one followed by the new markers |
| MapProperties.AddMarkersNeverPast5001 | Model/Map.php:277 | without the flag, `addMarker` alone never takes a map past 5001 markers |
| MapProperties.CeilingGuardsDisagree | Model/Map.php:275-289 | 5001 markers added one by one to a new map are accepted; the same 5001 given to `setMarkers` are refused |
| MapProperties.LargeSetNeverFails | Model/Map.php:268-289 | with the flag set, neither marker mutator fails, and repeated `addMarker` appends everything |
| MapProperties.AddMarkerAppendsOutput | Model/Map.php:291-307 | a successful `addMarker` adds one record and one point at the end of the outputs |
| MapProperties.PointsAgreeWithMarkersJson | Model/Map.php:356-363 | point i and marker record i carry the same latitude and longitude |
| MapProperties.AddEventsFirstInsertionOrder | Model/Map.php:324-346 | after any series of `addEvent` calls, the names are in first-insertion order and a repeated name adds nothing; after at least one call the output is not null |
| MapProperties.AddEventOverwritesInPlace | Model/Map.php:326 | `addEvent` with a known name keeps the output length, rewrites that name's record in place and leaves every other record alone |
| MapProperties.LegendItemsOneByOne | Model/Map.php:376-392 | adding non-empty items one at a time gives the same map as adding them all at once |
| MapTrace.StepKeepsInvariant | Model/Map.php:98-446 | no public mutator breaks the object invariant |
| MapTrace.RunKeepsInvariant | Model/Map.php:98-446 | no sequence of calls breaks it, throwing calls included |
| MapTrace.ReachableInvariant | Model/Map.php:109-116 | every constructed map stays ready, keeps its background slot, holds at most 5001 markers unless the flag is on, and never holds an empty legend item list |
| MapTrace.LargeSetStaysAllowed | Model/Map.php:268-271 | no call clears the large-set flag |
| MapTrace.NoCeilingAfterAllow | Model/Map.php:268-289 | after `allowLargeSetOfMarkers`, no later `addMarker` or `setMarkers` throws, whatever happened in between |

## Left out

- Resources/assets/js/MapBuilder.js: a browser adapter that only passes the JSON to Leaflet calls. It has no logic of its own to model.
- `getLegend`: it builds HTML through `HtmlBuilder` and `Legend`, which are not part of this model.
- The text `json_encode` produces. The model stops at the abstract `Json` value and its list/object distinction.
- Floating point: coordinates are `real`. The constants are their decimal literals, not the nearest doubles.
- PHP's runtime type checks. The typed setters make `is_float` and `is_integer` hold, so `IsReady` only checks that the values are set.
- The classes Layer, GeojsonLayer, Circle, Rectangle, Grid, AdjustableGrid, Marker, Icon and Popup are not part of this model. Each is seen only through the getters `Map` calls. Icon, popup, event, GeoJSON, centre, point and style values are opaque `Json`. Marker coordinates are `real`, a layer's background is a string or null, and a layer's options are a string-keyed array; a marker with a null coordinate, which PHP would emit as `"lat": null`, cannot be represented.
- Object aliasing. `addLayer`, `addMarker` and `setMarkers` store PHP object handles (Model/Map.php:123, 280, 288). The getters of those objects are called only when `getLayersInfos`, `getMarkers` or `getPointsFromMarkers` serialise them (Model/Map.php:141-209, 297-302, 360). A layer or marker changed after it was added therefore changes the PHP output. In the model, `Layer` and `Marker` are values, so every getter is fixed when the object is added.
- Layer classes are taken to be mutually exclusive. If AdjustableGrid extended Grid, the source would also add `isGrid` and replace `options` for it. The model emits only the AdjustableGrid entries.
- `new Layer()` and `new Layer($url)` are assumed to start with no options and no events. The constructor's default background is modelled as "no URL" (`None`).
- Array keys are strings throughout. PHP turns numeric-string keys such as "1" into integers, and `setOptions`/`setEvents` may be given integer-keyed arrays. Neither is modelled.
- `addLegendItems` treats the item lists as lists. The key-merging that `array_merge` does for string keys is not modelled.
- `setEvents` takes an array of (action, params) pairs. Arrays of any other shape are not modelled.
- Plain getters (`getLayers`, `getAllMarkers`, `getCenterLatitude`, `getCenterLongitude`, `getZoomLevel`, `hasLegend`, `getLegendItems`, `getTitle`, `getLegendPosition`, `hasScale`) are field reads of `MapState`. They have no members of their own.
- The exception messages. Errors are the constructors of `MapModel.Error`, and the ceiling error carries the 5000 it names.
