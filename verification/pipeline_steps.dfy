/**
 * The transform and deduplication steps of `run_pipeline` (pipeline.py):
 * the raw documents, cut to `limit`, become records (those
 * `to_qdrant_format` rejects are counted as skipped, an exception aborts
 * the run), then every record whose external id was already seen is
 * dropped, the first one being kept.
 */
module PipelineSteps {
  import opened Wrappers
  import opened Strings
  import opened Json
  import opened MetadataExtract
  import opened Transform

  /** `raw_docs[:limit]` when a limit is given: a prefix, of `limit` documents when there are that many. */
  function Limited(raws: seq<Json>, limit: Option<int>): (r: seq<Json>)
    ensures r <= raws
    ensures limit.None? ==> r == raws
    ensures limit.Some? && 0 <= limit.value ==> |r| == if limit.value < |raws| then limit.value else |raws|
    ensures limit.Some? && limit.value < 0 ==> |r| == if -limit.value < |raws| then |raws| + limit.value else 0
  {
    if limit.None? then raws else Head(raws, limit.value)
  }

  // ---------------------------------------------------------------------
  // The transform loop
  // ---------------------------------------------------------------------

  /**
   * The loop body for one raw document: `raw.get("external_id")` (for the
   * log) needs a dict, then `to_qdrant_format(raw)`.
   */
  function TransformOne(raw: Json): (r: Result<Option<Record>, Failure>)
    ensures !raw.JObj? ==> r == Err(Malformed)
    ensures raw.JObj? ==> r == ToQdrantFormat(raw.fields)
  {
    if raw.JObj? then ToQdrantFormat(raw.fields) else Err(Malformed)
  }

  /** The records kept and the number of documents skipped. */
  datatype Transformed = Transformed(kept: seq<Record>, skipped: nat)

  /**
   * The transform loop over `raws`, each document going through
   * `transform`; the first exception ends it.
   */
  function TransformLoop(raws: seq<Json>, transform: Json -> Result<Option<Record>, Failure>): Result<Transformed, Failure>
    decreases |raws|
  {
    if raws == [] then Ok(Transformed([], 0))
    else
      var t :- TransformLoop(raws[..|raws| - 1], transform);
      var one :- transform(raws[|raws| - 1]);
      Ok(if one.Some? then Transformed(t.kept + [one.value], t.skipped) else Transformed(t.kept, t.skipped + 1))
  }

  /** The transform loop of `run_pipeline`, as a function of the raw documents. */
  function TransformAll(raws: seq<Json>): Result<Transformed, Failure> {
    TransformLoop(raws, TransformOne)
  }

  /** Once a prefix has raised, so has the whole loop, with the same exception. */
  lemma {:induction false} TransformErrSticks(raws: seq<Json>, transform: Json -> Result<Option<Record>, Failure>, i: nat)
    requires i <= |raws| && TransformLoop(raws[..i], transform).Err?
    ensures TransformLoop(raws, transform) == TransformLoop(raws[..i], transform)
    decreases |raws|
  {
    if i < |raws| {
      var prefix := raws[..|raws| - 1];
      assert prefix[..i] == raws[..i];
      TransformErrSticks(prefix, transform, i);
    } else {
      assert raws[..i] == raws;
    }
  }

  /** One more document: the outcome so far, then this document's. */
  lemma LoopSnoc(raws: seq<Json>, transform: Json -> Result<Option<Record>, Failure>, i: nat)
    requires i < |raws| && TransformLoop(raws[..i], transform).Ok? && transform(raws[i]).Ok?
    ensures var t := TransformLoop(raws[..i], transform).value; var one := transform(raws[i]).value;
      TransformLoop(raws[..i + 1], transform) ==
        Ok(if one.Some? then Transformed(t.kept + [one.value], t.skipped) else Transformed(t.kept, t.skipped + 1))
  {
    assert raws[..i + 1][..i] == raws[..i];
  }

  /** The first document that raises ends the whole loop with its exception. */
  lemma LoopErrAt(raws: seq<Json>, transform: Json -> Result<Option<Record>, Failure>, i: nat)
    requires i < |raws| && TransformLoop(raws[..i], transform).Ok? && transform(raws[i]).Err?
    ensures TransformLoop(raws, transform) == Err(transform(raws[i]).error)
  {
    assert raws[..i + 1][..i] == raws[..i];
    TransformErrSticks(raws, transform, i + 1);
  }

  /** The transform loop with `transform` for its body: keep, skip, or re-raise and stop. */
  method RunTransformLoop(raws: seq<Json>, transform: Json -> Result<Option<Record>, Failure>) returns (r: Result<Transformed, Failure>)
    ensures r == TransformLoop(raws, transform)
  {
    var kept: seq<Record> := [];
    var skipped: nat := 0;
    for i := 0 to |raws|
      invariant TransformLoop(raws[..i], transform) == Ok(Transformed(kept, skipped))
    {
      var doc := transform(raws[i]);
      if doc.Err? {
        LoopErrAt(raws, transform, i);
        return Err(doc.error);
      }
      LoopSnoc(raws, transform, i);
      if doc.value.None? {
        skipped := skipped + 1;
      } else {
        kept := kept + [doc.value.value];
      }
    }
    assert raws[..|raws|] == raws;
    r := Ok(Transformed(kept, skipped));
  }

  /** A record `to_qdrant_format` can return: non-empty stripped text, an external id and a url. */
  predicate Usable(rec: Record) {
    rec.text != [] && Stripped(rec.text) && HasId(rec.metadata) && rec.metadata.url.Some?
  }

  /**
   * The body of the transform loop for one document: `raw.get(...)` raises
   * on a non-dict, otherwise the outcome of `to_qdrant_format(raw)`.
   */
  method TransformDoc(raw: Json) returns (r: Result<Option<Record>, Failure>)
    ensures r == TransformOne(raw)
    ensures r.Ok? && r.value.Some? ==> Usable(r.value.value)
  {
    if !raw.JObj? {
      return Err(Malformed);
    }
    r := ToQdrantFormat(raw.fields);
  }

  /** The transform loop of `run_pipeline`, its body being `to_qdrant_format` on each document. */
  method TransformDocs(raws: seq<Json>) returns (r: Result<Transformed, Failure>)
    ensures r == TransformAll(raws)
  {
    r := RunTransformLoop(raws, TransformOne);
  }

  /** Every record `transform` returns is usable. */
  ghost predicate YieldsUsable(transform: Json -> Result<Option<Record>, Failure>) {
    forall raw :: transform(raw).Ok? && transform(raw).value.Some? ==> Usable(transform(raw).value.value)
  }

  lemma {:induction false} TransformLoopOk(raws: seq<Json>, transform: Json -> Result<Option<Record>, Failure>)
    requires YieldsUsable(transform)
    ensures TransformLoop(raws, transform).Ok? <==> forall i :: 0 <= i < |raws| ==> transform(raws[i]).Ok?
    ensures TransformLoop(raws, transform).Ok? ==>
      var t := TransformLoop(raws, transform).value;
      |t.kept| + t.skipped == |raws| && forall k :: 0 <= k < |t.kept| ==> Usable(t.kept[k])
    decreases |raws|
  {
    if raws != [] {
      var prefix := raws[..|raws| - 1];
      TransformLoopOk(prefix, transform);
      assert forall i :: 0 <= i < |prefix| ==> prefix[i] == raws[i];
    }
  }

  lemma {:induction false} TransformLoopFirstError(raws: seq<Json>, transform: Json -> Result<Option<Record>, Failure>)
    requires YieldsUsable(transform) && TransformLoop(raws, transform).Err?
    ensures exists i ::
      0 <= i < |raws| && transform(raws[i]) == Err(TransformLoop(raws, transform).error) &&
      (forall j :: 0 <= j < i ==> transform(raws[j]).Ok?)
    decreases |raws|
  {
    var prefix := raws[..|raws| - 1];
    assert forall i :: 0 <= i < |prefix| ==> prefix[i] == raws[i];
    if TransformLoop(prefix, transform).Err? {
      TransformLoopFirstError(prefix, transform);
    } else {
      TransformLoopOk(prefix, transform);
    }
  }

  lemma TransformOneUsable()
    ensures YieldsUsable(TransformOne)
  {
  }

  /**
   * The loop completes exactly when no document raises; it then keeps or
   * skips every document, and each record kept is usable.
   */
  lemma TransformAllOk(raws: seq<Json>)
    ensures TransformAll(raws).Ok? <==> forall i :: 0 <= i < |raws| ==> TransformOne(raws[i]).Ok?
    ensures TransformAll(raws).Ok? ==>
      var t := TransformAll(raws).value;
      |t.kept| + t.skipped == |raws| && forall k :: 0 <= k < |t.kept| ==> Usable(t.kept[k])
  {
    TransformOneUsable();
    TransformLoopOk(raws, TransformOne);
  }

  /** A run that raises re-raises the exception of the first document that failed. */
  lemma TransformAllFirstError(raws: seq<Json>)
    requires TransformAll(raws).Err?
    ensures exists i ::
      0 <= i < |raws| && TransformOne(raws[i]) == Err(TransformAll(raws).error) &&
      (forall j :: 0 <= j < i ==> TransformOne(raws[j]).Ok?)
  {
    TransformOneUsable();
    TransformLoopFirstError(raws, TransformOne);
  }

  // ---------------------------------------------------------------------
  // The deduplication loop
  // ---------------------------------------------------------------------

  /** Both records have a truthy `external_id`, and it is the same. */
  predicate SameId(a: Record, b: Record) {
    HasId(a.metadata) && HasId(b.metadata) && a.metadata.externalId.value == b.metadata.externalId.value
  }

  /** The truthy external ids of `docs`. */
  ghost function Ids(docs: seq<Record>): set<string> {
    set i | 0 <= i < |docs| && HasId(docs[i].metadata) :: docs[i].metadata.externalId.value
  }

  /** The records kept, the ids seen and the number of duplicates dropped. */
  datatype Deduped = Deduped(kept: seq<Record>, seen: set<string>, duplicates: nat)

  /**
   * The deduplication loop over `docs`: a record without an id is kept, one
   * whose id was seen is counted as a duplicate, any other is kept and its
   * id remembered.
   */
  function DedupAll(docs: seq<Record>): Deduped
    decreases |docs|
  {
    if docs == [] then Deduped([], {}, 0)
    else
      var d := DedupAll(docs[..|docs| - 1]);
      var doc := docs[|docs| - 1];
      if !HasId(doc.metadata) then Deduped(d.kept + [doc], d.seen, d.duplicates)
      else if doc.metadata.externalId.value in d.seen then Deduped(d.kept, d.seen, d.duplicates + 1)
      else Deduped(d.kept + [doc], d.seen + {doc.metadata.externalId.value}, d.duplicates)
  }

  /** The deduplication loop of `run_pipeline`: the records kept and `duplicate_count`. */
  method DedupDocs(docs: seq<Record>) returns (kept: seq<Record>, duplicates: nat)
    ensures kept == DedupAll(docs).kept && duplicates == DedupAll(docs).duplicates
  {
    var seen: set<string> := {};
    kept, duplicates := [], 0;
    for i := 0 to |docs|
      invariant DedupAll(docs[..i]) == Deduped(kept, seen, duplicates)
    {
      assert docs[..i + 1][..i] == docs[..i];
      var doc := docs[i];
      if !HasId(doc.metadata) {
        kept := kept + [doc];
        continue;
      }
      var id := doc.metadata.externalId.value;
      if id in seen {
        duplicates := duplicates + 1;
        continue;
      }
      seen := seen + {id};
      kept := kept + [doc];
    }
    assert docs[..|docs|] == docs;
  }

  lemma IdsSnoc(docs: seq<Record>, doc: Record)
    ensures Ids(docs + [doc]) == Ids(docs) + (if HasId(doc.metadata) then {doc.metadata.externalId.value} else {})
  {
    var xs := docs + [doc];
    assert forall i :: 0 <= i < |docs| ==> xs[i] == docs[i];
    assert xs[|docs|] == doc;
  }

  /** Every record is either kept or counted as a duplicate, and the ids seen are all the ids. */
  lemma {:induction false} DedupCounts(docs: seq<Record>)
    ensures |DedupAll(docs).kept| + DedupAll(docs).duplicates == |docs|
    ensures DedupAll(docs).seen == Ids(docs)
    decreases |docs|
  {
    if docs != [] {
      var prefix := docs[..|docs| - 1];
      DedupCounts(prefix);
      assert docs == prefix + [docs[|docs| - 1]];
      IdsSnoc(prefix, docs[|docs| - 1]);
    }
  }

  /** Record `i` is kept: it has no id, or no earlier record has its id. */
  predicate IsFirst(docs: seq<Record>, i: nat)
    requires i < |docs|
  {
    !HasId(docs[i].metadata) || forall j :: 0 <= j < i ==> !SameId(docs[j], docs[i])
  }

  /** The records of `docs[..n]` that are first with their id, in order. */
  function Firsts(docs: seq<Record>, n: nat): seq<Record>
    requires n <= |docs|
  {
    if n == 0 then [] else Firsts(docs, n - 1) + (if IsFirst(docs, n - 1) then [docs[n - 1]] else [])
  }

  lemma IsFirstIffUnseen(docs: seq<Record>, i: nat)
    requires i < |docs| && HasId(docs[i].metadata)
    ensures IsFirst(docs, i) <==> docs[i].metadata.externalId.value !in Ids(docs[..i])
  {
    var id := docs[i].metadata.externalId.value;
    if id in Ids(docs[..i]) {
      var j :| 0 <= j < i && HasId(docs[..i][j].metadata) && docs[..i][j].metadata.externalId.value == id;
      assert SameId(docs[j], docs[i]);
    } else {
      forall j | 0 <= j < i ensures !SameId(docs[j], docs[i]) {
        assert docs[..i][j] == docs[j];
      }
    }
  }

  /** The loop keeps exactly the records that are first with their id, in their order. */
  lemma {:induction false} DedupKeepsFirsts(docs: seq<Record>, n: nat)
    requires n <= |docs|
    ensures DedupAll(docs[..n]).kept == Firsts(docs, n)
  {
    if n > 0 {
      DedupKeepsFirsts(docs, n - 1);
      var prefix := docs[..n][..n - 1];
      assert prefix == docs[..n - 1];
      DedupCounts(prefix);
      if HasId(docs[n - 1].metadata) {
        IsFirstIffUnseen(docs, n - 1);
      }
    }
  }

  /** No two records share an external id. */
  predicate DistinctIds(docs: seq<Record>) {
    forall i, j :: 0 <= i < j < |docs| ==> !SameId(docs[i], docs[j])
  }

  /**
   * The records kept have distinct ids, keep every id of the input, and
   * every record without an id is among them.
   */
  lemma {:induction false} DedupDistinct(docs: seq<Record>)
    ensures DistinctIds(DedupAll(docs).kept)
    ensures Ids(DedupAll(docs).kept) == Ids(docs)
    ensures forall i :: 0 <= i < |docs| && !HasId(docs[i].metadata) ==> docs[i] in DedupAll(docs).kept
    decreases |docs|
  {
    if docs != [] {
      var prefix := docs[..|docs| - 1];
      var doc := docs[|docs| - 1];
      var d := DedupAll(prefix);
      DedupDistinct(prefix);
      DedupCounts(prefix);
      assert docs == prefix + [doc];
      IdsSnoc(prefix, doc);
      assert forall i :: 0 <= i < |prefix| ==> prefix[i] == docs[i];
      if !HasId(doc.metadata) || doc.metadata.externalId.value !in d.seen {
        IdsSnoc(d.kept, doc);
      }
    }
  }

  /** Records with distinct ids are all kept: deduplicating twice changes nothing. */
  lemma {:induction false} DedupDistinctKeepsAll(docs: seq<Record>)
    requires DistinctIds(docs)
    ensures DedupAll(docs) == Deduped(docs, Ids(docs), 0)
    decreases |docs|
  {
    if docs != [] {
      var prefix := docs[..|docs| - 1];
      var doc := docs[|docs| - 1];
      DedupDistinctKeepsAll(prefix);
      assert docs == prefix + [doc];
      IdsSnoc(prefix, doc);
    }
  }

  lemma DedupIdempotent(docs: seq<Record>)
    ensures DedupAll(DedupAll(docs).kept).kept == DedupAll(docs).kept
    ensures DedupAll(DedupAll(docs).kept).duplicates == 0
  {
    DedupDistinct(docs);
    DedupDistinctKeepsAll(DedupAll(docs).kept);
  }
}
