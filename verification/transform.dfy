/**
 * `to_qdrant_format` (transformers.py): one raw document becomes a record
 * of its cleaned text and its metadata, or is rejected (None) when it has
 * no text, no external id or no url.
 */
module Transform {
  import opened Wrappers
  import opened Strings
  import opened Json
  import opened TextClean
  import opened MetadataExtract

  /** The simplified document: `{"text": ..., "metadata": ...}`. */
  datatype Record = Record(text: string, metadata: Metadata)

  /** `raw.get("content_elements") or []`, which the extraction iterates over. */
  function ContentElements(raw: map<string, Json>): (r: Result<seq<Json>, Failure>)
    ensures !Truthy(Field(raw, "content_elements")) ==> r == Ok([])
    ensures Field(raw, "content_elements").JArr? ==> r == Ok(Field(raw, "content_elements").items)
    ensures r.Err? <==> Truthy(Field(raw, "content_elements")) && !Field(raw, "content_elements").JArr?
  {
    var ce := Or(Field(raw, "content_elements"), JArr([]));
    if ce.JArr? then Ok(ce.items) else Err(Malformed)
  }

  /** The text of a document, with the errors of iterating its elements. */
  function TextOf(raw: map<string, Json>): (r: Result<string, Failure>)
    ensures r.Ok? ==> Stripped(r.value)
  {
    var elements :- ContentElements(raw);
    ExtractedText(elements)
  }

  /** A usable external id: present and non-empty. */
  predicate HasId(m: Metadata) {
    m.externalId.Some? && m.externalId.value != []
  }

  /** `to_qdrant_format` */
  function ToQdrantFormat(raw: map<string, Json>): (r: Result<Option<Record>, Failure>)
    ensures TextOf(raw) == Ok("") ==> r == Ok(None)
    ensures TextOf(raw).Err? ==> r.Err?
    ensures r.Ok? && r.value.Some? ==>
      var rec := r.value.value;
      rec.text != [] && Stripped(rec.text) && NoTripleNewline(rec.text) &&
      HasId(rec.metadata) && rec.metadata.url.Some? && rec.metadata.WellFormed()
  {
    var text :- TextOf(raw);
    if text == [] then Ok(None)
    else
      var metadata :- MetadataOf(raw);
      if !HasId(metadata) then Ok(None)
      else if metadata.url.None? then Ok(None)
      else Ok(Some(Record(text, metadata)))
  }

  /**
   * A document is kept exactly when its text is non-empty, its metadata can be
   * extracted and it has a non-empty external id and a url; the record then
   * holds that text and that metadata.
   */
  lemma AcceptedIff(raw: map<string, Json>)
    ensures (ToQdrantFormat(raw).Ok? && ToQdrantFormat(raw).value.Some?) <==>
      (TextOf(raw).Ok? && TextOf(raw).value != [] && MetadataOf(raw).Ok? &&
       HasId(MetadataOf(raw).value) && MetadataOf(raw).value.url.Some?)
    ensures ToQdrantFormat(raw).Ok? && ToQdrantFormat(raw).value.Some? ==>
      ToQdrantFormat(raw).value.value == Record(TextOf(raw).value, MetadataOf(raw).value)
  {
  }
}
