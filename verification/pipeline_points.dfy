/**
 * `truncate_for_embedding` and `build_qdrant_points` (pipeline.py): the
 * simplified documents are embedded batch by batch and every document with
 * an external id becomes a Qdrant point of its id, its vector and a payload
 * of its text and flattened metadata.
 */
module PipelinePoints {
  import opened Wrappers
  import opened Strings
  import opened Json
  import opened MetadataExtract
  import opened Transform
  import opened Embeddings
  import opened Lists

  const TextCharLimit: int := 8000

  /** `run_pipeline` builds its points with this batch size, whatever its own `batch_size` argument. */
  const PointsBatchSize: int := 100

  // ---------------------------------------------------------------------
  // truncate_for_embedding
  // ---------------------------------------------------------------------

  /**
   * `truncate_for_embedding`: an empty or short enough text is returned
   * as is, a longer one cut to its first `maxChars` characters (a Python
   * head slice, so a negative `maxChars` counts from the end).
   */
  function TruncateHead(text: string, maxChars: int): (r: string)
    ensures text == [] || |text| <= maxChars ==> r == text
    ensures 0 <= maxChars < |text| ==> r == text[..maxChars] && |r| == maxChars
    ensures maxChars < 0 && text != [] ==> r == text[..if -maxChars < |text| then |text| + maxChars else 0]
    ensures r <= text
  {
    if text == [] then text
    else if |text| <= maxChars then text
    else Head(text, maxChars)
  }

  // ---------------------------------------------------------------------
  // Points
  // ---------------------------------------------------------------------

  /**
   * A document as `build_qdrant_points` reads it: a dict with a `text`
   * string and a `metadata` dict.
   */
  datatype Doc = Doc(text: string, metadata: map<string, Json>)

  /** The document `to_qdrant_format` returns for a record. */
  function DocOf(r: Record): Doc {
    Doc(r.text, r.metadata.ToJson())
  }

  /** `meta.get("external_id")` */
  function IdOf(doc: Doc): Json {
    Field(doc.metadata, "external_id")
  }

  /** The document gets a point: its external id is truthy. */
  predicate HasExternalId(doc: Doc) {
    Truthy(IdOf(doc))
  }

  /** A Qdrant point: `{"id": ..., "vector": ..., "payload": ...}`. */
  datatype Point = Point(id: Json, vector: Vector, payload: map<string, Json>)

  /**
   * `{"text": doc["text"], **meta}`: the text and every metadata key, the
   * metadata winning on a clash.
   */
  function Payload(doc: Doc): (payload: map<string, Json>)
    ensures payload.Keys == doc.metadata.Keys + {"text"}
    ensures forall k :: k in doc.metadata ==> payload[k] == doc.metadata[k]
    ensures "text" !in doc.metadata ==> payload["text"] == JStr(doc.text)
  {
    map["text" := JStr(doc.text)] + doc.metadata
  }

  lemma TextIsNoMetadataKey(m: Metadata)
    ensures "text" !in m.ToJson()
  {
    assert "text" !in RequiredKeys + OptionalKeys;
  }

  /**
   * For the documents the transform step produces, the point's id is the
   * record's external id, and its payload holds the record's text and
   * exactly the metadata dict besides.
   */
  lemma RecordPoint(r: Record)
    ensures HasExternalId(DocOf(r)) <==> HasId(r.metadata)
    ensures HasId(r.metadata) ==> IdOf(DocOf(r)) == JStr(r.metadata.externalId.value)
    ensures Payload(DocOf(r))["text"] == JStr(r.text)
    ensures Payload(DocOf(r)) - {"text"} == r.metadata.ToJson()
  {
    TextIsNoMetadataKey(r.metadata);
    var d := r.metadata.ToJson();
    assert Payload(DocOf(r)) - {"text"} == d;
  }

  /** The point of a document with an external id and its vector. */
  function PointOf(pair: (Doc, Vector)): Point
    requires HasExternalId(pair.0)
  {
    Point(IdOf(pair.0), pair.1, Payload(pair.0))
  }

  /**
   * The pairs the inner loop of `build_qdrant_points` turns into points:
   * `zip(batch_docs, embeddings)` (as long as the shorter of the two),
   * without the documents that have no external id.
   */
  function Paired(docs: seq<Doc>, vectors: seq<Vector>): (pairs: seq<(Doc, Vector)>)
    ensures |pairs| <= |docs| && |pairs| <= |vectors|
    ensures forall i :: 0 <= i < |pairs| ==> HasExternalId(pairs[i].0)
    decreases |docs|
  {
    if docs == [] || vectors == [] then []
    else
      (if HasExternalId(docs[0]) then [(docs[0], vectors[0])] else []) +
      Paired(docs[1..], vectors[1..])
  }

  /** When every document has an id, pair `i` is document `i` with vector `i`. */
  lemma {:induction false} PairedWithIds(docs: seq<Doc>, vectors: seq<Vector>)
    requires forall i :: 0 <= i < |docs| ==> HasExternalId(docs[i])
    ensures var m := if |docs| < |vectors| then |docs| else |vectors|;
      Paired(docs, vectors) == seq(m, i requires 0 <= i < m => (docs[i], vectors[i]))
    decreases |docs|
  {
    var m := if |docs| < |vectors| then |docs| else |vectors|;
    if docs != [] && vectors != [] {
      PairedWithIds(docs[1..], vectors[1..]);
      var rest := Paired(docs[1..], vectors[1..]);
      var expected := seq(m, i requires 0 <= i < m => (docs[i], vectors[i]));
      assert Paired(docs, vectors) == [(docs[0], vectors[0])] + rest;
      forall i | 0 <= i < m
        ensures ([(docs[0], vectors[0])] + rest)[i] == expected[i]
      {
        if i > 0 {
          assert rest[i - 1] == (docs[1..][i - 1], vectors[1..][i - 1]);
        }
      }
    }
  }

  /** A document without an external id, and its vector, drop out: the other pairs are unaffected. */
  lemma {:induction false} PairedSkipsMissingId(docs: seq<Doc>, vectors: seq<Vector>, i: nat)
    requires i < |docs| && i < |vectors| && !HasExternalId(docs[i])
    ensures Paired(docs, vectors) == Paired(docs[..i] + docs[i + 1..], vectors[..i] + vectors[i + 1..])
    decreases i
  {
    var ds := docs[..i] + docs[i + 1..];
    var vs := vectors[..i] + vectors[i + 1..];
    if i == 0 {
      assert ds == docs[1..] && vs == vectors[1..];
    } else {
      PairedSkipsMissingId(docs[1..], vectors[1..], i - 1);
      assert ds[0] == docs[0] && vs[0] == vectors[0];
      assert ds[1..] == docs[1..][..i - 1] + docs[1..][i..];
      assert vs[1..] == vectors[1..][..i - 1] + vectors[1..][i..];
      PairedCons(docs, vectors);
      PairedCons(ds, vs);
    }
  }

  /** One more position of the zip: its pair, if its document has an id, comes after the earlier ones. */
  lemma {:induction false} PairedSnoc(docs: seq<Doc>, vectors: seq<Vector>, i: nat)
    requires i < |docs| && i < |vectors|
    ensures Paired(docs[..i + 1], vectors[..i + 1]) ==
      Paired(docs[..i], vectors[..i]) + (if HasExternalId(docs[i]) then [(docs[i], vectors[i])] else [])
    decreases i
  {
    var tail := if HasExternalId(docs[i]) then [(docs[i], vectors[i])] else [];
    var ds, vs := docs[..i + 1], vectors[..i + 1];
    PairedCons(ds, vs);
    if i == 0 {
      assert ds[1..] == [] && docs[..0] == [];
    } else {
      PairedSnoc(docs[1..], vectors[1..], i - 1);
      PairedCons(docs[..i], vectors[..i]);
      assert ds[1..] == docs[1..][..i] && vs[1..] == vectors[1..][..i];
      assert docs[..i][1..] == docs[1..][..i - 1] && vectors[..i][1..] == vectors[1..][..i - 1];
      assert ds[0] == docs[..i][0] && vs[0] == vectors[..i][0];
      var head := if HasExternalId(docs[0]) then [(docs[0], vectors[0])] else [];
      ConcatAssoc(head, Paired(docs[1..][..i - 1], vectors[1..][..i - 1]), tail);
    }
  }

  lemma PairedCons(docs: seq<Doc>, vectors: seq<Vector>)
    requires docs != [] && vectors != []
    ensures Paired(docs, vectors) ==
      (if HasExternalId(docs[0]) then [(docs[0], vectors[0])] else []) + Paired(docs[1..], vectors[1..])
  {
  }

  /** Only the first `min(len(docs), len(vectors))` positions are zipped. */
  lemma {:induction false} PairedShortest(docs: seq<Doc>, vectors: seq<Vector>, m: nat)
    requires m <= |docs| && m <= |vectors| && (m == |docs| || m == |vectors|)
    ensures Paired(docs, vectors) == Paired(docs[..m], vectors[..m])
    decreases m
  {
    if m == 0 {
    } else {
      PairedShortest(docs[1..], vectors[1..], m - 1);
      assert docs[..m][1..] == docs[1..][..m - 1] && vectors[..m][1..] == vectors[1..][..m - 1];
      assert docs[..m][0] == docs[0] && vectors[..m][0] == vectors[0];
      PairedCons(docs, vectors);
      PairedCons(docs[..m], vectors[..m]);
    }
  }

  /** The points one batch contributes. */
  function BatchPoints(docs: seq<Doc>, vectors: seq<Vector>): (pts: seq<Point>) {
    MapAll(Paired(docs, vectors), PointOf)
  }

  /** The per-batch loop: appends to `points` one point per document with an id, paired by position. */
  method AppendBatchPoints(points: seq<Point>, docs: seq<Doc>, vectors: seq<Vector>)
    returns (r: seq<Point>)
    ensures r == points + BatchPoints(docs, vectors)
  {
    r := points;
    ghost var pairs: seq<(Doc, Vector)> := [];
    var i := 0;
    while i < |docs| && i < |vectors|
      invariant i <= |docs| && i <= |vectors|
      invariant pairs == Paired(docs[..i], vectors[..i])
      invariant r == points + MapAll(pairs, PointOf)
      decreases |docs| - i
    {
      var doc := docs[i];
      var vector := vectors[i];
      PairedSnoc(docs, vectors, i);
      if HasExternalId(doc) {
        var point := Point(IdOf(doc), vector, Payload(doc));
        assert point == PointOf((doc, vector));
        MapAllSnoc(pairs, (doc, vector), PointOf);
        ConcatAssoc(points, MapAll(pairs, PointOf), [point]);
        r := r + [point];
        pairs := pairs + [(doc, vector)];
      } else {
        assert pairs + [] == pairs;
      }
      i := i + 1;
    }
    PairedShortest(docs, vectors, i);
  }

  // ---------------------------------------------------------------------
  // build_qdrant_points, as a function of the provider's script
  // ---------------------------------------------------------------------

  /** `[d["text"] for d in batch_docs]` */
  function Texts(docs: seq<Doc>): (texts: seq<string>)
    ensures |texts| == |docs|
    ensures forall i :: 0 <= i < |docs| ==> texts[i] == docs[i].text
  {
    seq(|docs|, i requires 0 <= i < |docs| => docs[i].text)
  }

  /**
   * `embed_texts(texts)` as pipeline.py calls it: the name is bound to
   * `embed_texts_with_retry`, so this is the retry loop around
   * `embed_texts` with the default model, batch size, length limit and
   * number of retries; the next provider call is number `n`.
   */
  function RetryEmbed(texts: seq<string>, fake: bool, script: seq<Reply>, n: nat): RetryRun {
    Retry(EmbedAttempt(texts, DefaultBatchSize, MaxEmbeddingChars, fake, script), DefaultMaxRetries, n, 0)
  }

  /** The embedder of pipeline.py, as a function of the texts and of the number of the next provider call. */
  function Embedder(fake: bool, script: seq<Reply>): (seq<string>, nat) -> RetryRun {
    (texts, n: nat) => RetryEmbed(texts, fake, script, n)
  }

  /**
   * What `build_qdrant_points` does: its outcome, the inputs of every
   * provider call, the waits slept while retrying and the texts of every
   * embedder call.
   */
  datatype Build = Build(result: Result<seq<Point>, Failure>, sent: seq<seq<string>>,
                         waits: seq<nat>, embedded: seq<seq<string>>)

  /** `points`, `sent`, `waits` and `embedded` happened first, then `rest`. */
  function Prefix(points: seq<Point>, sent: seq<seq<string>>, waits: seq<nat>, embedded: seq<seq<string>>,
                  rest: Build): Build
  {
    Build(if rest.result.Ok? then Ok(points + rest.result.value) else rest.result,
          sent + rest.sent, waits + rest.waits, embedded + rest.embedded)
  }

  /**
   * The batches from number `j` on, each embedded by `embed`, the next
   * provider call being number `n`; an embedder error ends the loop and
   * is re-raised.
   */
  function BuildFrom(bs: seq<seq<Doc>>, embed: (seq<string>, nat) -> RetryRun, n: nat, j: nat): Build
    requires j <= |bs|
    decreases |bs| - j
  {
    if j == |bs| then Build(Ok([]), [], [], [])
    else
      var run := embed(Texts(bs[j]), n);
      if run.result.Err? then Build(Err(run.result.error), run.sent, run.waits, [Texts(bs[j])])
      else Prefix(BatchPoints(bs[j], run.result.value), run.sent, run.waits, [Texts(bs[j])],
                  BuildFrom(bs, embed, n + |run.sent|, j + 1))
  }

  /**
   * `build_qdrant_points(docs, batch_size)`, the first provider call being
   * number `n`. No documents: no call. A zero batch size: the batch count
   * `(len(docs) + batch_size - 1) // batch_size` divides by zero. A
   * negative one: `range` is empty and there are no points.
   */
  function BuildPoints(docs: seq<Doc>, batchSize: int, fake: bool, script: seq<Reply>, n: nat): Build {
    if docs == [] then Build(Ok([]), [], [], [])
    else if batchSize == 0 then Build(Err(ZeroBatchSize), [], [], [])
    else if batchSize < 0 then Build(Ok([]), [], [], [])
    else BuildFrom(Batches(docs, batchSize), Embedder(fake, script), n, 0)
  }

  /**
   * The `build_qdrant_points` call of `run_pipeline`, given `run_pipeline`'s
   * own `batch_size` argument: the call passes 100 instead, so that
   * argument has no effect.
   */
  function PipelineBuild(docs: seq<Doc>, batchSize: int, fake: bool, script: seq<Reply>, n: nat): Build {
    BuildPoints(docs, PointsBatchSize, fake, script, n)
  }

  // ---------------------------------------------------------------------
  // build_qdrant_points, talking to the provider
  // ---------------------------------------------------------------------

  /** `build(n, j)` is `BuildFrom(bs, embed, n, j)`, used only where a `BuildFrom` term is present. */
  ghost predicate IsBuild(build: (nat, nat) -> Build, bs: seq<seq<Doc>>, embed: (seq<string>, nat) -> RetryRun) {
    forall n: nat, j: nat {:trigger BuildFrom(bs, embed, n, j)} ::
      j <= |bs| ==> build(n, j) == BuildFrom(bs, embed, n, j)
  }

  lemma BuildFunction(bs: seq<seq<Doc>>, embed: (seq<string>, nat) -> RetryRun) returns (build: (nat, nat) -> Build)
    ensures IsBuild(build, bs, embed)
  {
    build := (n: nat, j: nat) => if j <= |bs| then BuildFrom(bs, embed, n, j) else Build(Ok([]), [], [], []);
  }

  /** `embed(texts, n)` is `RetryEmbed(texts, fake, script, n)`, used only where a `RetryEmbed` term is present. */
  ghost predicate IsEmbed(embed: (seq<string>, nat) -> RetryRun, fake: bool, script: seq<Reply>) {
    forall texts, n: nat {:trigger RetryEmbed(texts, fake, script, n)} :: embed(texts, n) == RetryEmbed(texts, fake, script, n)
  }

  lemma EmbedderIsEmbed(fake: bool, script: seq<Reply>)
    ensures IsEmbed(Embedder(fake, script), fake, script)
  {
  }

  /** `embed_texts(texts)` as pipeline.py calls it, its outcome given by `embed`. */
  method PipelineEmbed(p: Provider, texts: seq<string>, fake: bool, ghost embed: (seq<string>, nat) -> RetryRun)
    returns (r: Result<seq<Vector>, Failure>, waits: seq<nat>)
    requires IsEmbed(embed, fake, p.script)
    modifies p
    ensures r == embed(texts, |old(p.calls)|).result && waits == embed(texts, |old(p.calls)|).waits
    ensures p.calls == old(p.calls) + embed(texts, |old(p.calls)|).sent
    ensures p.models == old(p.models) + Repeat(EmbeddingModel, |p.calls| - |old(p.calls)|)
  {
    r, waits := EmbedTextsWithRetry(p, texts, EmbeddingModel, DefaultBatchSize, MaxEmbeddingChars,
                                    fake, DefaultMaxRetries);
    assert embed(texts, |old(p.calls)|) == RetryEmbed(texts, fake, p.script, |old(p.calls)|);
  }

  /** `p`, then `q`, then `rest`. */
  lemma PrefixTwice(points: seq<Point>, sent: seq<seq<string>>, waits: seq<nat>, embedded: seq<seq<string>>,
                    points': seq<Point>, sent': seq<seq<string>>, waits': seq<nat>, embedded': seq<seq<string>>,
                    rest: Build)
    ensures Prefix(points, sent, waits, embedded, Prefix(points', sent', waits', embedded', rest)) ==
      Prefix(points + points', sent + sent', waits + waits', embedded + embedded', rest)
  {
    ConcatAssoc(sent, sent', rest.sent);
    ConcatAssoc(waits, waits', rest.waits);
    ConcatAssoc(embedded, embedded', rest.embedded);
    if rest.result.Ok? {
      ConcatAssoc(points, points', rest.result.value);
    }
  }

  lemma PrefixNothing(b: Build)
    ensures Prefix([], [], [], [], b) == b
  {
    assert [] + b.sent == b.sent && [] + b.waits == b.waits && [] + b.embedded == b.embedded;
    if b.result.Ok? {
      assert [] + b.result.value == b.result.value;
    }
  }

  lemma PrefixDone(points: seq<Point>, sent: seq<seq<string>>, waits: seq<nat>, embedded: seq<seq<string>>)
    ensures Prefix(points, sent, waits, embedded, Build(Ok([]), [], [], [])) == Build(Ok(points), sent, waits, embedded)
  {
    assert points + [] == points && sent + [] == sent && waits + [] == waits && embedded + [] == embedded;
  }

  /**
   * One turn of the batch loop of `build_qdrant_points`: the slice taken
   * is the next batch; the outcome of the whole loop is this batch's
   * embedder error, or what happened so far and this batch's points
   * followed by the outcome of the turns after it.
   */
  lemma PointsLoopStep(docs: seq<Doc>, k: nat, start: nat, bs: seq<seq<Doc>>, j: nat, n: nat,
                       batchesOf: seq<Doc> -> seq<seq<Doc>>, embed: (seq<string>, nat) -> RetryRun,
                       build: (nat, nat) -> Build, target: Build,
                       points: seq<Point>, sent: seq<seq<string>>, waits: seq<nat>, embedded: seq<seq<string>>)
    requires 0 < k && start < |docs| && j <= |bs|
    requires IsBatches(batchesOf, k) && IsBuild(build, bs, embed)
    requires bs[j..] == batchesOf(docs[Min(start, |docs|)..])
    requires target == Prefix(points, sent, waits, embedded, build(n, j))
    ensures j < |bs| && bs[j] == docs[start .. Min(start + k, |docs|)]
    ensures bs[j + 1..] == batchesOf(docs[Min(start + k, |docs|)..])
    ensures var run := embed(Texts(bs[j]), n);
      run.result.Err? ==>
        target.result == Err(run.result.error) && target.waits == waits + run.waits &&
        target.sent == sent + run.sent
    ensures var run := embed(Texts(bs[j]), n);
      run.result.Ok? ==>
        target == Prefix(points + BatchPoints(bs[j], run.result.value), sent + run.sent, waits + run.waits,
                         embedded + [Texts(bs[j])], build(n + |run.sent|, j + 1))
  {
    assert Min(start, |docs|) == start;
    assert batchesOf(docs[start..]) == Batches(docs[start..], k);
    assert batchesOf(docs[Min(start + k, |docs|)..]) == Batches(docs[Min(start + k, |docs|)..], k);
    NextBatch(docs, k, start);
    assert bs[j..][0] == bs[j] && bs[j..][1..] == bs[j + 1..];
    assert build(n, j) == BuildFrom(bs, embed, n, j);
    var run := embed(Texts(bs[j]), n);
    assert build(n + |run.sent|, j + 1) == BuildFrom(bs, embed, n + |run.sent|, j + 1);
    if run.result.Ok? {
      PrefixTwice(points, sent, waits, embedded, BatchPoints(bs[j], run.result.value), run.sent, run.waits,
                  [Texts(bs[j])], build(n + |run.sent|, j + 1));
    }
  }

  /** When the slices reach the end, every batch has been processed. */
  lemma PointsLoopDone(docs: seq<Doc>, k: nat, start: nat, bs: seq<seq<Doc>>, j: nat, n: nat,
                       batchesOf: seq<Doc> -> seq<seq<Doc>>, embed: (seq<string>, nat) -> RetryRun,
                       build: (nat, nat) -> Build)
    requires 0 < k && start >= |docs| && j <= |bs|
    requires IsBatches(batchesOf, k) && IsBuild(build, bs, embed)
    requires bs[j..] == batchesOf(docs[Min(start, |docs|)..])
    ensures build(n, j) == Build(Ok([]), [], [], [])
  {
    assert docs[Min(start, |docs|)..] == [];
    assert batchesOf([]) == Batches([], k);
    assert build(n, j) == BuildFrom(bs, embed, n, j);
  }

  /**
   * `build_qdrant_points(docs, batch_size)`, the embedder being
   * `embed_texts_with_retry` on provider `p`; `waits` are the pauses slept
   * between retries.
   */
  method BuildQdrantPoints(p: Provider, docs: seq<Doc>, batchSize: int, fake: bool)
    returns (r: Result<seq<Point>, Failure>, waits: seq<nat>)
    modifies p
    ensures var b := BuildPoints(docs, batchSize, fake, p.script, |old(p.calls)|);
      r == b.result && waits == b.waits && p.calls == old(p.calls) + b.sent
    ensures p.models == old(p.models) + Repeat(EmbeddingModel, |p.calls| - |old(p.calls)|)
  {
    RepeatNone(p.models, EmbeddingModel);
    if docs == [] {
      return Ok([]), [];
    }
    if batchSize == 0 {
      // `(len(docs) + batch_size - 1) // batch_size`
      return Err(ZeroBatchSize), [];
    }
    if batchSize < 0 {
      // `range(0, len(docs), batch_size)` is empty.
      return Ok([]), [];
    }
    ghost var batchesOf := BatchesFunction<Doc>(batchSize);
    ghost var embed := Embedder(fake, p.script);
    EmbedderIsEmbed(fake, p.script);
    ghost var build := BuildFunction(Batches(docs, batchSize), embed);
    r, waits := PointsLoop(p, docs, batchSize, fake, batchesOf, embed, build);
  }

  /**
   * One turn of the batch loop of `build_qdrant_points`: embeds the texts
   * of the batch and, unless that raises, appends the batch's points.
   */
  method EmbedBatch(p: Provider, points: seq<Point>, batchDocs: seq<Doc>, fake: bool,
                    ghost embed: (seq<string>, nat) -> RetryRun)
    returns (failed: Option<Failure>, points': seq<Point>, waits: seq<nat>)
    requires IsEmbed(embed, fake, p.script)
    modifies p
    ensures var run := embed(Texts(batchDocs), |old(p.calls)|);
      p.calls == old(p.calls) + run.sent && waits == run.waits &&
      (run.result.Err? ==> failed == Some(run.result.error)) &&
      (run.result.Ok? ==> failed == None && points' == points + BatchPoints(batchDocs, run.result.value))
    ensures p.models == old(p.models) + Repeat(EmbeddingModel, |p.calls| - |old(p.calls)|)
  {
    var texts := Texts(batchDocs);
    var embeddings;
    embeddings, waits := PipelineEmbed(p, texts, fake, embed);
    if embeddings.Err? {
      return Some(embeddings.error), points, waits;
    }
    points' := AppendBatchPoints(points, batchDocs, embeddings.value);
    failed := None;
  }

  /**
   * The batch loop of `build_qdrant_points`, with the batches, the
   * embedder and the outcome of each suffix of turns given as ghost
   * functions.
   */
  method PointsLoop(p: Provider, docs: seq<Doc>, batchSize: int, fake: bool,
                    ghost batchesOf: seq<Doc> -> seq<seq<Doc>>, ghost embed: (seq<string>, nat) -> RetryRun,
                    ghost build: (nat, nat) -> Build)
    returns (r: Result<seq<Point>, Failure>, waits: seq<nat>)
    requires 0 < batchSize && IsBatches(batchesOf, batchSize)
    requires IsEmbed(embed, fake, p.script) && IsBuild(build, batchesOf(docs), embed)
    modifies p
    ensures r == build(|old(p.calls)|, 0).result && waits == build(|old(p.calls)|, 0).waits
    ensures p.calls == old(p.calls) + build(|old(p.calls)|, 0).sent
    ensures p.models == old(p.models) + Repeat(EmbeddingModel, |p.calls| - |old(p.calls)|)
  {
    ghost var n0 := |p.calls|;
    ghost var bs := batchesOf(docs);
    ghost var j := 0;
    ghost var sent: seq<seq<string>> := [];
    ghost var embedded: seq<seq<string>> := [];
    ghost var target := build(n0, 0);
    var points: seq<Point> := [];
    waits := [];
    var start := 0;
    PrefixNothing(target);
    RepeatNone(p.models, EmbeddingModel);
    assert bs[0..] == bs && docs[0..] == docs;
    while start < |docs|
      invariant j <= |bs| && bs[j..] == batchesOf(docs[Min(start, |docs|)..])
      invariant p.calls == old(p.calls) + sent
      invariant p.models == old(p.models) + Repeat(EmbeddingModel, |sent|)
      invariant target == Prefix(points, sent, waits, embedded, build(|p.calls|, j))
      decreases |docs| - start
    {
      var batchDocs := docs[start .. Min(start + batchSize, |docs|)];
      PointsLoopStep(docs, batchSize, start, bs, j, |p.calls|, batchesOf, embed, build, target,
                     points, sent, waits, embedded);
      // Computed for every document and never used: the untruncated texts of the batch are embedded.
      var textsForEmbedding := seq(|docs|, i requires 0 <= i < |docs| => TruncateHead(docs[i].text, TextCharLimit));
      ghost var run := embed(Texts(batchDocs), |p.calls|);
      var failed, w;
      failed, points, w := EmbedBatch(p, points, batchDocs, fake, embed);
      ConcatAssoc(old(p.calls), sent, run.sent);
      RepeatAppend(EmbeddingModel, |sent|, |run.sent|);
      if failed.Some? {
        return Err(failed.value), waits + w;
      }
      waits := waits + w;
      sent := sent + run.sent;
      embedded := embedded + [Texts(batchDocs)];
      start := start + batchSize;
      j := j + 1;
    }
    PointsLoopDone(docs, batchSize, start, bs, j, |p.calls|, batchesOf, embed, build);
    PrefixDone(points, sent, waits, embedded);
    return Ok(points), waits;
  }
}
