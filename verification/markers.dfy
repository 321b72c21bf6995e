/** Markers, seen through the getters `getMarkers` and
    `getPointsFromMarkers` call on them. */
module Markers {
  import opened Wrappers
  import opened OrderedMap
  import opened Json

  /** A marker: its position, and the icon, options, popup and events
      descriptors, already in the form `json_encode` gives them (JNull when
      absent). */
  datatype Marker = Marker(latitude: real, longitude: real, icon: Json, options: Json, popup: Json, events: Json)

  /** The record `getMarkers` emits for one marker. */
  function MarkerRecord(mk: Marker): Json {
    JObject([("lat", JNum(mk.latitude)), ("lon", JNum(mk.longitude)), ("icon", mk.icon),
             ("options", mk.options), ("popup", mk.popup), ("events", mk.events)])
  }

  /** The record carries each getter's value under its own key, and nothing else. */
  lemma MarkerRecordFields(mk: Marker)
    ensures MarkerRecord(mk).JObject? && DistinctKeys(MarkerRecord(mk).fields)
    ensures Keys(MarkerRecord(mk).fields) == ["lat", "lon", "icon", "options", "popup", "events"]
    ensures Lookup(MarkerRecord(mk).fields, "lat") == Some(JNum(mk.latitude))
    ensures Lookup(MarkerRecord(mk).fields, "lon") == Some(JNum(mk.longitude))
    ensures Lookup(MarkerRecord(mk).fields, "icon") == Some(mk.icon)
    ensures Lookup(MarkerRecord(mk).fields, "options") == Some(mk.options)
    ensures Lookup(MarkerRecord(mk).fields, "popup") == Some(mk.popup)
    ensures Lookup(MarkerRecord(mk).fields, "events") == Some(mk.events)
  {
    var f: OMap<string, Json> := MarkerRecord(mk).fields;
    LookupAt(f, 0); LookupAt(f, 1); LookupAt(f, 2);
    LookupAt(f, 3); LookupAt(f, 4); LookupAt(f, 5);
  }

  /** `[$marker->getLatitude(), $marker->getLongitude()]` */
  function Point(mk: Marker): (real, real) {
    (mk.latitude, mk.longitude)
  }
}
