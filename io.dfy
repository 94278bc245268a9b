/**
  jaql/io.py, `normalize_to_records`: the document normaliser applied to each input document of a
  multi-stage run.  Unlike the utils version, it wraps the non-dict items of a mixed list one by
  one instead of wrapping the whole list.
*/
module Io {
  import opened Values
  import Utils

  /** One list item as a record: a dict as it is, anything else as `{"value": item}`. */
  function WrapItem(item: Value): Record {
    if item.Dict? then item.fields else [("value", item)]
  }

  /** `normalize_to_records(doc)` of io.py. */
  function NormalizeDocument(doc: Value): (r: seq<Record>)
    ensures doc.List? ==> |r| == |doc.items|
    ensures !doc.List? ==> |r| == 1
  {
    match doc
    case List(items) =>
      if Utils.IsListOfDicts(doc) then Utils.DictFields(items)
      else seq(|items|, i requires 0 <= i < |items| => WrapItem(items[i]))
    case Dict(fs) => [fs]
    case _ => [[("value", doc)]]
  }

  /** The four shapes of input and what each becomes. */
  lemma {:induction false} NormalizeDocumentShapes(doc: Value)
    ensures doc.Dict? ==> NormalizeDocument(doc) == [doc.fields]
    ensures Utils.IsListOfDicts(doc) ==> RecordsValue(NormalizeDocument(doc)) == doc
    ensures doc.List? ==>
      && |NormalizeDocument(doc)| == |doc.items|
      && forall i :: 0 <= i < |doc.items| ==>
           NormalizeDocument(doc)[i] == if doc.items[i].Dict? then doc.items[i].fields else [("value", doc.items[i])]
    ensures !doc.List? && !doc.Dict? ==> NormalizeDocument(doc) == [[("value", doc)]]
  {
  }

  /** A list of records normalises to itself. */
  lemma {:induction false} NormalizeDocumentOfRecords(rs: seq<Record>)
    ensures NormalizeDocument(RecordsValue(rs)) == rs
  {
    var v := RecordsValue(rs);
    assert Utils.IsListOfDicts(v);
    assert Utils.DictFields(v.items) == rs;
  }

  /** Normalising twice is normalising once. */
  lemma {:induction false} NormalizeDocumentIdempotent(doc: Value)
    ensures NormalizeDocument(RecordsValue(NormalizeDocument(doc))) == NormalizeDocument(doc)
  {
    NormalizeDocumentOfRecords(NormalizeDocument(doc));
  }

  /** The utils normaliser, applied again by the pipeline, changes nothing on this one's output. */
  lemma {:induction false} UtilsNormalizeAfterDocument(doc: Value)
    ensures Utils.NormalizeToRecords(RecordsValue(NormalizeDocument(doc))) == NormalizeDocument(doc)
  {
    Utils.NormalizeRecords(NormalizeDocument(doc));
  }

  /** The two normalisers part ways on a mixed list. */
  lemma {:induction false} MixedListNormalisersDiffer()
    ensures NormalizeDocument(List([Int(1), Dict([])])) == [[("value", Int(1))], []]
    ensures Utils.NormalizeToRecords(List([Int(1), Dict([])])) == [[("value", List([Int(1), Dict([])]))]]
  {
    var doc := List([Int(1), Dict([])]);
    assert !doc.items[0].Dict?;
    assert !Utils.IsListOfDicts(doc);
  }
}
