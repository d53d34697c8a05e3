/**
 * What `validate_point` makes of the points the pipeline writes: the file
 * `json.dump` produces is read back by the validator, so a point becomes
 * the dict `{"id": ..., "vector": [...], "payload": {...}}`.
 */
module PointChecks {
  import opened Wrappers
  import opened Strings
  import opened Json
  import opened MetadataExtract
  import opened Transform
  import opened Embeddings
  import opened Lists
  import opened PipelinePoints
  import opened PipelineSteps
  import opened BuildProps
  import opened Validate

  /** The vector as a JSON list of floats. */
  function Floats(v: Vector): (items: seq<Json>)
    ensures |items| == |v| && forall i :: 0 <= i < |v| ==> items[i] == JFloat(v[i])
  {
    seq(|v|, i requires 0 <= i < |v| => JFloat(v[i]))
  }

  /** A point as the validator reads it back. */
  function PointJson(p: Point): (d: map<string, Json>)
    ensures Field(d, "id") == p.id && Field(d, "payload") == JObj(p.payload)
    ensures Field(d, "vector") == JArr(Floats(p.vector))
  {
    map["id" := p.id, "vector" := JArr(Floats(p.vector)), "payload" := JObj(p.payload)]
  }

  /** What the validator finds in a point: the checks of its three parts. */
  lemma ValidationOfPoint(p: Point, expectedDim: Option<int>)
    ensures Validation(PointJson(p), expectedDim) ==
      Report(IdIssues(p.id) + VectorIssues(JArr(Floats(p.vector)), expectedDim) + PayloadIssues(JObj(p.payload)),
             PayloadWarnings(JObj(p.payload)))
  {
  }

  /** Every component is a finite float. */
  predicate Finite(v: Vector) {
    forall i :: 0 <= i < |v| ==> v[i].finite
  }

  lemma MetadataIsNoMetadataKey(m: Metadata)
    ensures "metadata" !in m.ToJson()
  {
    assert "metadata" !in RequiredKeys + OptionalKeys;
  }

  /** A payload whose metadata has neither a `text` nor a `metadata` key: the metadata is looked at whole. */
  lemma PayloadView(doc: Doc)
    requires "text" !in doc.metadata && "metadata" !in doc.metadata
    ensures var payload := Payload(doc);
      "metadata" !in payload && Field(payload, "text") == JStr(doc.text) &&
      MetadataView(payload) == Some(doc.metadata)
  {
    var payload := Payload(doc);
    var view := payload - {"text", "metadata"};
    assert view.Keys == doc.metadata.Keys;
    assert forall k :: k in view ==> view[k] == doc.metadata[k];
    assert view == doc.metadata;
    assert "metadata" !in payload;
    assert MetadataView(payload) == Some(view);
  }

  /** The payload of a record's point: its text, then its metadata dict at the top level. */
  lemma PayloadOfRecord(rec: Record)
    ensures var payload := Payload(DocOf(rec));
      "metadata" !in payload && Field(payload, "text") == JStr(rec.text) &&
      MetadataView(payload) == Some(rec.metadata.ToJson())
  {
    TextIsNoMetadataKey(rec.metadata);
    MetadataIsNoMetadataKey(rec.metadata);
    PayloadView(DocOf(rec));
  }

  /** The metadata of a record with a url: only a missing title is warned about. */
  lemma MetaWarningsOfRecord(m: Metadata)
    requires HasId(m) && m.url.Some?
    ensures MetaWarnings(m.ToJson()) == if m.title.Some? then [] else [MissingMetaField("title")]
  {
    var md := m.ToJson();
    MissingExpected(md);
    assert "title" in md <==> m.title.Some? by {
      assert m.Optional("title") == m.title;
    }
  }

  /** A record the transform keeps gives a payload without error, warned about only for a missing title. */
  lemma RecordPayloadChecks(rec: Record)
    requires Usable(rec)
    ensures PayloadIssues(JObj(Payload(DocOf(rec)))) == []
    ensures PayloadWarnings(JObj(Payload(DocOf(rec)))) ==
      if rec.metadata.title.Some? then [] else [MissingMetaField("title")]
  {
    PayloadOfRecord(rec);
    MetaWarningsOfRecord(rec.metadata);
    assert !Blank(rec.text) by {
      assert !IsSpace(rec.text[0]);
    }
  }

  /** The vector checks of a list of the expected length: an error exactly when an element is not finite. */
  lemma VectorOfPoint(v: Vector)
    ensures VectorIssues(JArr(Floats(v)), Some(|v|)) == [] <==> Finite(v)
  {
    var items := Floats(v);
    assert Finite(v) <==> forall k :: 0 <= k < |items| ==> IsFiniteNumber(items[k]);
  }

  /**
   * The point built from a record the transform keeps, with a vector of
   * the expected length, has no error exactly when every component is
   * finite; its only possible warning is the missing title.
   */
  lemma UsablePointValidates(rec: Record, v: Vector)
    requires Usable(rec)
    ensures HasExternalId(DocOf(rec))
    ensures var r := Validation(PointJson(PointOf((DocOf(rec), v))), Some(|v|));
      (r.errors == [] <==> Finite(v)) &&
      r.warnings == if rec.metadata.title.Some? then [] else [MissingMetaField("title")]
  {
    var doc := DocOf(rec);
    assert IdOf(doc) == JStr(rec.metadata.externalId.value);
    ValidationOfPoint(PointOf((doc, v)), Some(|v|));
    RecordPayloadChecks(rec);
    VectorOfPoint(v);
  }

  /**
   * In fake mode, the points of records the transform keeps all pass the
   * validator with `expected_dim` 8 and no error.
   */
  lemma FakePointsValidate(recs: seq<Record>, k: int, script: seq<Reply>, n: nat)
    requires recs != [] && 0 < k
    requires forall i :: 0 <= i < |recs| ==> Usable(recs[i])
    ensures var b := BuildPoints(MapAll(recs, DocOf), k, true, script, n);
      b.result.Ok? && |b.result.value| == |recs| &&
      forall i :: 0 <= i < |recs| ==> Validation(PointJson(b.result.value[i]), Some(FakeDim)).errors == []
  {
    var docs := MapAll(recs, DocOf);
    forall i | 0 <= i < |docs| ensures HasExternalId(docs[i]) {
      UsablePointValidates(recs[i], FakeVector);
    }
    BuildFakeWithIds(docs, k, script, n);
    forall i | 0 <= i < |recs|
      ensures Validation(PointJson(BuildPoints(docs, k, true, script, n).result.value[i]), Some(FakeDim)).errors == []
    {
      UsablePointValidates(recs[i], FakeVector);
    }
  }

  /**
   * What the validator reports on a point, given the point's own length:
   * an error exactly when a component is not finite, at most a warning
   * about a missing title.
   */
  predicate ChecksPass(p: Point) {
    var r := Validation(PointJson(p), Some(|p.vector|));
    (r.errors == [] <==> Finite(p.vector)) &&
    (r.warnings == [] || r.warnings == [MissingMetaField("title")])
  }

  /** A point carrying the id and payload of a kept record's document passes. */
  lemma PointOfUsableDoc(recs: seq<Record>, d: Doc, p: Point)
    requires forall i :: 0 <= i < |recs| ==> Usable(recs[i])
    requires d in MapAll(recs, DocOf) && p.id == IdOf(d) && p.payload == Payload(d)
    ensures ChecksPass(p)
  {
    var i :| 0 <= i < |recs| && MapAll(recs, DocOf)[i] == d;
    UsablePointValidates(recs[i], p.vector);
    assert p == PointOf((DocOf(recs[i]), p.vector));
  }

  /**
   * Whatever the provider answers, every point built from records the
   * transform keeps passes the id and payload checks.
   */
  lemma BuiltPointsValidate(recs: seq<Record>, k: int, fake: bool, script: seq<Reply>, n: nat)
    requires forall i :: 0 <= i < |recs| ==> Usable(recs[i])
    ensures var b := BuildPoints(MapAll(recs, DocOf), k, fake, script, n);
      b.result.Ok? ==> forall p :: p in b.result.value ==> ChecksPass(p)
  {
    var docs := MapAll(recs, DocOf);
    BuildPointsFromDocs(docs, k, fake, script, n);
    var b := BuildPoints(docs, k, fake, script, n);
    if b.result.Ok? {
      forall p | p in b.result.value ensures ChecksPass(p) {
        var d :| d in docs && HasExternalId(d) && p.id == IdOf(d) && p.payload == Payload(d);
        PointOfUsableDoc(recs, d, p);
      }
    }
  }
}
