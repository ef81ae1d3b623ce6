/** The list and map converters of internal/provider/conversions.go: between
    Go slices and maps that the remote service returns and the framework's
    list and map values, and back from a framework list to a Go slice. */
module Conversions {
  import opened Values

  /** A Go `interface{}` value held in a map: a string, or anything else. */
  datatype Dynamic = DString(s: string) | DOther

  /** The string a map entry becomes: itself when it is a string, "" otherwise. */
  function StringOrEmpty(d: Dynamic): string {
    match d
    case DString(s) => s
    case DOther => ""
  }

  /** `ConvertListValue`: a known list of the input strings, in their order.
      An empty (or nil) slice gives an empty list, never a null one. */
  method ConvertListValue(list: seq<string>) returns (l: Value<seq<string>>)
    ensures l.Known?
    ensures |l.v| == |list|
    ensures forall i :: 0 <= i < |list| ==> l.v[i] == list[i]
  {
    var valueList: seq<string> := [];
    for i := 0 to |list|
      invariant valueList == list[..i]
    {
      valueList := valueList + [list[i]];
    }
    l := Known(valueList);
  }

  /** `ConvertMapValue`: a known map with exactly the input's keys; string
      values are kept, every other value becomes "". Go visits the keys in an
      unspecified order, so the loop picks any key not yet visited. */
  method ConvertMapValue(m: map<string, Dynamic>) returns (r: Value<map<string, string>>)
    ensures r.Known?
    ensures r.v.Keys == m.Keys
    ensures forall k :: k in m && m[k].DString? ==> r.v[k] == m[k].s
    ensures forall k :: k in m && !m[k].DString? ==> r.v[k] == ""
  {
    var valueMap: map<string, string> := map[];
    var unvisited := m.Keys;
    while unvisited != {}
      invariant unvisited <= m.Keys
      invariant valueMap.Keys == m.Keys - unvisited
      invariant forall k :: k in valueMap ==> valueMap[k] == StringOrEmpty(m[k])
      decreases unvisited
    {
      var key :| key in unvisited;
      match m[key] {
        case DString(v) =>
          valueMap := valueMap[key := v];
        case DOther =>
          valueMap := valueMap[key := ""];
      }
      unvisited := unvisited - {key};
    }
    r := Known(valueMap);
  }

  /** `ConvertSliceStrings` (and the `ToListValue` / `ElementsAs(..., true)`
      pair the resources use inline): the elements of a known list; a null
      or unknown list reads as an empty slice. */
  function ConvertSliceStrings(list: Value<seq<string>>): (slice: seq<string>)
    ensures list.Known? ==> |slice| == |list.v| && forall i :: 0 <= i < |slice| ==> slice[i] == list.v[i]
    ensures !list.Known? ==> slice == []
  {
    if list.Known? then list.v else []
  }

  /** The same for a framework map (`ToMapValue` / `ElementsAs(..., true)`). */
  function MapElements(m: Value<map<string, string>>): (r: map<string, string>)
    ensures m.Known? ==> r == m.v
    ensures !m.Known? ==> r == map[]
  {
    if m.Known? then m.v else map[]
  }

  /** The string values of a map as the remote service returns them, each
      entry turned into a string by `StringOrEmpty`. */
  function StringValues(m: map<string, Dynamic>): (r: map<string, string>)
    ensures r.Keys == m.Keys
  {
    map k | k in m :: StringOrEmpty(m[k])
  }

  /** Round trip: a slice turned into a list and back is the same slice. */
  lemma ListRoundTrip(xs: seq<string>, l: Value<seq<string>>)
    requires l.Known? && |l.v| == |xs| && forall i :: 0 <= i < |xs| ==> l.v[i] == xs[i]
    ensures ConvertSliceStrings(l) == xs
  {
  }
}
