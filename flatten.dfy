/** The conversion of one page's records before they are written: every
    record whose `gtmEvents` is an array gets it replaced, in place, by the
    elements joined with commas. */
module Flatten {
  import opened Strings

  /** A field value of a JSON record, as far as the conversion tells them apart. */
  datatype Value =
    | Str(s: string)             // a string
    | Arr(items: seq<string>)    // an array (of strings)
    | Other                      // a number, a boolean, null, an object, ...

  /** A record: its field names and their values; an absent field is a missing key. */
  type Record = map<string, Value>

  const GtmEvents := "gtmEvents"
  const Comma := ","

  /** `Array.isArray(record.gtmEvents)` */
  predicate HasArrayEvents(r: Record)
  {
    GtmEvents in r && r[GtmEvents].Arr?
  }

  /** What one iteration of the conversion does to a record. */
  function FlattenRecord(r: Record): (f: Record)
    ensures f.Keys == r.Keys
    ensures forall k :: k in r && k != GtmEvents ==> f[k] == r[k]
    ensures HasArrayEvents(r) ==> f[GtmEvents] == Str(Join(r[GtmEvents].items, Comma))
    ensures !HasArrayEvents(r) ==> f == r
    ensures !HasArrayEvents(f)
  {
    if HasArrayEvents(r) then r[GtmEvents := Str(Join(r[GtmEvents].items, Comma))] else r
  }

  /** The whole page converted: the same records, in the same order, each flattened. */
  function FlattenAll(rs: seq<Record>): (fs: seq<Record>)
    ensures |fs| == |rs|
    ensures forall i :: 0 <= i < |rs| ==> fs[i] == FlattenRecord(rs[i])
  {
    if |rs| == 0 then [] else [FlattenRecord(rs[0])] + FlattenAll(rs[1..])
  }

  /** The conversion as the script runs it: a pass over the records that changes
      each array-valued `gtmEvents` where it stands, and hands back the records. */
  method FlattenRecords(data: array<Record>) returns (records: seq<Record>)
    modifies data
    ensures data[..] == FlattenAll(old(data[..]))
    ensures records == data[..]
  {
    for i := 0 to data.Length
      invariant forall j :: 0 <= j < i ==> data[j] == FlattenRecord(old(data[j]))
      invariant forall j :: i <= j < data.Length ==> data[j] == old(data[j])
    {
      var record := data[i];
      if GtmEvents in record && record[GtmEvents].Arr? {
        data[i] := record[GtmEvents := Str(Join(record[GtmEvents].items, Comma))];
      }
    }
    records := data[..];
  }

  /** A second pass changes nothing. */
  lemma FlattenAllIdempotent(rs: seq<Record>)
    ensures FlattenAll(FlattenAll(rs)) == FlattenAll(rs)
  {
  }

  /** The conversion leaves a page as it is exactly when no record has an array `gtmEvents`. */
  lemma FlattenAllFixedPoint(rs: seq<Record>)
    ensures FlattenAll(rs) == rs <==> forall i :: 0 <= i < |rs| ==> !HasArrayEvents(rs[i])
  {
  }

  /** The joined string keeps the events in their original order: splitting it at
      the commas gives them back, when there is at least one and none has a comma. */
  lemma EventsRecoverable(r: Record)
    requires HasArrayEvents(r)
    requires |r[GtmEvents].items| >= 1
    requires forall i :: 0 <= i < |r[GtmEvents].items| ==> ',' !in r[GtmEvents].items[i]
    ensures FlattenRecord(r)[GtmEvents].Str?
    ensures Split(FlattenRecord(r)[GtmEvents].s, ',') == r[GtmEvents].items
  {
    SplitJoin(r[GtmEvents].items, ',');
  }

  /** A sample record: `["view", "click"]` becomes `"view,click"`,
      and the other fields are untouched. */
  lemma SampleRecord()
    ensures FlattenRecord(map["timestamp" := Str("t"), "ip" := Str("1.2.3.4"), GtmEvents := Arr(["view", "click"])])
         == map["timestamp" := Str("t"), "ip" := Str("1.2.3.4"), GtmEvents := Str("view,click")]
    ensures FlattenRecord(map[GtmEvents := Str("a,b,c")]) == map[GtmEvents := Str("a,b,c")]
    ensures FlattenRecord(map[GtmEvents := Arr(["a", "b", "c"])]) == map[GtmEvents := Str("a,b,c")]
  {
    var vc: seq<string> := ["view", "click"];
    assert vc[1..] == ["click"];
    assert Join(vc, Comma) == "view,click";
    var abc: seq<string> := ["a", "b", "c"];
    assert abc[1..] == ["b", "c"] && abc[1..][1..] == ["c"];
    assert Join(abc, Comma) == "a,b,c";
  }
}
