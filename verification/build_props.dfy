/**
 * What `build_qdrant_points` promises about the batches it embeds and the
 * points it returns.
 */
module BuildProps {
  import opened Wrappers
  import opened Json
  import opened Lists
  import opened Embeddings
  import opened Transform
  import opened PipelinePoints

  // ---------------------------------------------------------------------
  // The texts embedded
  // ---------------------------------------------------------------------

  /**
   * The embedder is called on the texts of the batches in order, one call
   * per batch, until one raises: on success every batch has been embedded,
   * on an error the batches after the failing one have not.
   */
  lemma {:induction false} BuildFromEmbedded(bs: seq<seq<Doc>>, embed: (seq<string>, nat) -> RetryRun, n: nat, j: nat)
    requires j <= |bs|
    ensures var b := BuildFrom(bs, embed, n, j);
      |b.embedded| <= |bs| - j && forall i :: 0 <= i < |b.embedded| ==> b.embedded[i] == Texts(bs[j + i])
    ensures var b := BuildFrom(bs, embed, n, j);
      b.result.Ok? ==> |b.embedded| == |bs| - j
    ensures var b := BuildFrom(bs, embed, n, j);
      b.result.Err? ==> b.embedded != []
    decreases |bs| - j
  {
    if j < |bs| {
      var run := embed(Texts(bs[j]), n);
      if run.result.Ok? {
        BuildFromEmbedded(bs, embed, n + |run.sent|, j + 1);
      }
    }
  }

  lemma TextsAppend(a: seq<Doc>, b: seq<Doc>)
    ensures Texts(a + b) == Texts(a) + Texts(b)
  {
  }

  /** The texts of the batches, one after the other, are the texts of the documents. */
  lemma {:induction false} FlattenTexts(bs: seq<seq<Doc>>)
    ensures Flatten(MapAll(bs, Texts)) == Texts(Flatten(bs))
  {
    if bs != [] {
      FlattenTexts(bs[1..]);
      assert MapAll(bs, Texts)[1..] == MapAll(bs[1..], Texts);
      TextsAppend(bs[0], Flatten(bs[1..]));
    }
  }

  /**
   * A successful `build_qdrant_points` with a positive batch size embedded
   * `ceil(len(docs) / batch_size)` batches of at most `batch_size` texts,
   * which together are the documents' texts, whole and in order.
   */
  lemma BuildEmbedsEveryBatch(docs: seq<Doc>, k: int, fake: bool, script: seq<Reply>, n: nat)
    requires docs != [] && 0 < k
    ensures var b := BuildPoints(docs, k, fake, script, n);
      b.result.Ok? ==> b.embedded == MapAll(Batches(docs, k), Texts) && Flatten(b.embedded) == Texts(docs)
    ensures var b := BuildPoints(docs, k, fake, script, n);
      b.result.Ok? ==>
        (|b.embedded| - 1) * k < |docs| <= |b.embedded| * k &&
        forall i :: 0 <= i < |b.embedded| ==> 0 < |b.embedded[i]| <= k
  {
    var bs := Batches(docs, k);
    var b := BuildPoints(docs, k, fake, script, n);
    BuildFromEmbedded(bs, Embedder(fake, script), n, 0);
    if b.result.Ok? {
      assert b.embedded == MapAll(bs, Texts);
      BatchesPartition(docs, k);
      FlattenTexts(bs);
    }
  }

  /** The points `run_pipeline` builds do not depend on its `batch_size` argument. */
  lemma PipelineBuildIgnoresBatchSize(docs: seq<Doc>, batchSize: int, batchSize': int, fake: bool,
                                      script: seq<Reply>, n: nat)
    ensures PipelineBuild(docs, batchSize, fake, script, n) == PipelineBuild(docs, batchSize', fake, script, n)
  {
  }

  /**
   * Whatever its `batch_size` argument, a successful `run_pipeline`
   * embeds its documents in batches of at most 100 texts, as few as that
   * allows, together the documents' texts in order.
   */
  lemma PipelineBatchesOfHundred(docs: seq<Doc>, batchSize: int, fake: bool, script: seq<Reply>, n: nat)
    requires docs != []
    ensures var b := PipelineBuild(docs, batchSize, fake, script, n);
      b.result.Ok? ==>
        Flatten(b.embedded) == Texts(docs) &&
        (|b.embedded| - 1) * 100 < |docs| <= |b.embedded| * 100 &&
        forall i :: 0 <= i < |b.embedded| ==> 0 < |b.embedded[i]| <= 100
  {
    BuildEmbedsEveryBatch(docs, PointsBatchSize, fake, script, n);
  }

  // ---------------------------------------------------------------------
  // Fake mode
  // ---------------------------------------------------------------------

  /** `m` zero vectors of length 8. */
  function FakeVectors(m: nat): (vs: seq<Vector>)
    ensures |vs| == m && forall i :: 0 <= i < m ==> vs[i] == FakeVector
  {
    seq(m, _ => FakeVector)
  }

  lemma FakeVectorsAppend(a: nat, b: nat)
    ensures FakeVectors(a + b) == FakeVectors(a) + FakeVectors(b)
  {
  }

  /** In fake mode the embedder answers any non-empty texts with one zero vector each, at once. */
  ghost predicate IsFakeEmbed(embed: (seq<string>, nat) -> RetryRun) {
    forall texts: seq<string>, m: nat {:trigger embed(texts, m)} ::
      texts != [] ==> embed(texts, m) == RetryRun(Ok(FakeVectors(|texts|)), [], [], 1)
  }

  /** With fake embeddings `embed_texts_with_retry` makes one attempt, which needs no provider call. */
  lemma FakeEmbedder(script: seq<Reply>)
    ensures IsFakeEmbed(Embedder(true, script))
  {
    forall texts: seq<string>, m: nat | texts != []
      ensures Embedder(true, script)(texts, m) == RetryRun(Ok(FakeVectors(|texts|)), [], [], 1)
    {
      var attempt := EmbedAttempt(texts, DefaultBatchSize, MaxEmbeddingChars, true, script);
      EmbedAttemptApplied(texts, DefaultBatchSize, MaxEmbeddingChars, true, script, m);
      assert attempt(m) == Attempt(Ok(FakeVectors(|texts|)), []);
      RetryStops(attempt, DefaultMaxRetries, m, 0);
    }
  }

  /** Zipping two concatenations whose first parts have the same length zips the parts separately. */
  lemma {:induction false} PairedAppend(d1: seq<Doc>, v1: seq<Vector>, d2: seq<Doc>, v2: seq<Vector>)
    requires |d1| == |v1|
    ensures Paired(d1 + d2, v1 + v2) == Paired(d1, v1) + Paired(d2, v2)
    decreases |d1|
  {
    if d1 == [] {
      assert d1 + d2 == d2 && v1 + v2 == v2;
    } else {
      PairedCons(d1 + d2, v1 + v2);
      PairedCons(d1, v1);
      assert (d1 + d2)[1..] == d1[1..] + d2 && (v1 + v2)[1..] == v1[1..] + v2;
      PairedAppend(d1[1..], v1[1..], d2, v2);
      var head := if HasExternalId(d1[0]) then [(d1[0], v1[0])] else [];
      ConcatAssoc(head, Paired(d1[1..], v1[1..]), Paired(d2, v2));
    }
  }

  /** One batch embedded by a fake embedder: its points with zero vectors, then the later batches. */
  lemma FakeStep(bs: seq<seq<Doc>>, embed: (seq<string>, nat) -> RetryRun, n: nat, j: nat)
    requires j < |bs| && IsFakeEmbed(embed) && bs[j] != []
    ensures BuildFrom(bs, embed, n, j) ==
      Prefix(BatchPoints(bs[j], FakeVectors(|bs[j]|)), [], [], [Texts(bs[j])], BuildFrom(bs, embed, n, j + 1))
  {
    assert embed(Texts(bs[j]), n) == RetryRun(Ok(FakeVectors(|bs[j]|)), [], [], 1);
  }

  /** The points of two runs of documents with their vectors, the first run fully paired, are the points of the runs joined. */
  lemma BatchPointsAppend(d1: seq<Doc>, v1: seq<Vector>, d2: seq<Doc>, v2: seq<Vector>)
    requires |d1| == |v1|
    ensures BatchPoints(d1 + d2, v1 + v2) == BatchPoints(d1, v1) + BatchPoints(d2, v2)
  {
    PairedAppend(d1, v1, d2, v2);
    MapAllAppend(Paired(d1, v1), Paired(d2, v2), PointOf);
  }

  /** The zero-vector points of a batch and of the batches after it are those of their concatenation. */
  lemma FakeJoin(x: seq<Doc>, tail: seq<seq<Doc>>)
    ensures var ds := Flatten([x] + tail); var rest := Flatten(tail);
      BatchPoints(ds, FakeVectors(|ds|)) == BatchPoints(x, FakeVectors(|x|)) + BatchPoints(rest, FakeVectors(|rest|))
  {
    var rest := Flatten(tail);
    FlattenAppend([x], tail);
    assert Flatten([x]) == x;
    FakeVectorsAppend(|x|, |rest|);
    BatchPointsAppend(x, FakeVectors(|x|), rest, FakeVectors(|rest|));
  }

  /** Batch `j` ahead of the batches after it, for the points and for the texts. */
  lemma FakeTurnJoin(bs: seq<seq<Doc>>, j: nat)
    requires j < |bs|
    ensures var ds := Flatten(bs[j..]); var rest := Flatten(bs[j + 1..]);
      BatchPoints(ds, FakeVectors(|ds|)) == BatchPoints(bs[j], FakeVectors(|bs[j]|)) + BatchPoints(rest, FakeVectors(|rest|))
    ensures MapAll(bs[j..], Texts) == [Texts(bs[j])] + MapAll(bs[j + 1..], Texts)
  {
    assert bs[j..] == [bs[j]] + bs[j + 1..];
    FakeJoin(bs[j], bs[j + 1..]);
    MapAllAppend([bs[j]], bs[j + 1..], Texts);
  }

  /** The batches from number `j` on, each non-empty, embedded by a fake embedder. */
  lemma {:induction false} BuildFromFake(bs: seq<seq<Doc>>, embed: (seq<string>, nat) -> RetryRun, n: nat, j: nat)
    requires j <= |bs| && IsFakeEmbed(embed)
    requires forall i :: j <= i < |bs| ==> bs[i] != []
    ensures var ds := Flatten(bs[j..]);
      BuildFrom(bs, embed, n, j) == Build(Ok(BatchPoints(ds, FakeVectors(|ds|))), [], [], MapAll(bs[j..], Texts))
    decreases |bs| - j
  {
    if j == |bs| {
      assert bs[j..] == [];
    } else {
      FakeStep(bs, embed, n, j);
      BuildFromFake(bs, embed, n, j + 1);
      FakeTurnJoin(bs, j);
      PrefixNothingSent(BatchPoints(bs[j], FakeVectors(|bs[j]|)), [Texts(bs[j])], BuildFrom(bs, embed, n, j + 1));
    }
  }

  lemma PrefixNothingSent(points: seq<Point>, embedded: seq<seq<string>>, rest: Build)
    requires rest.sent == [] && rest.waits == []
    ensures Prefix(points, [], [], embedded, rest) ==
      Build(if rest.result.Ok? then Ok(points + rest.result.value) else rest.result, [], [], embedded + rest.embedded)
  {
  }

  /**
   * With fake embeddings `build_qdrant_points` makes no provider call and
   * never waits; it embeds every batch and returns the points of the
   * documents with an id, each with a zero vector, in document order.
   */
  lemma BuildFake(docs: seq<Doc>, k: int, script: seq<Reply>, n: nat)
    requires docs != [] && 0 < k
    ensures BuildPoints(docs, k, true, script, n) ==
      Build(Ok(BatchPoints(docs, FakeVectors(|docs|))), [], [], MapAll(Batches(docs, k), Texts))
  {
    var bs := Batches(docs, k);
    BatchesPartition(docs, k);
    FakeEmbedder(script);
    BuildFromFake(bs, Embedder(true, script), n, 0);
    assert bs[0..] == bs;
  }

  /** ... and when every document has an id, point `i` is document `i`'s. */
  lemma BuildFakeWithIds(docs: seq<Doc>, k: int, script: seq<Reply>, n: nat)
    requires docs != [] && 0 < k
    requires forall i :: 0 <= i < |docs| ==> HasExternalId(docs[i])
    ensures var b := BuildPoints(docs, k, true, script, n);
      b.result.Ok? && |b.result.value| == |docs| &&
      forall i :: 0 <= i < |docs| ==> b.result.value[i] == Point(IdOf(docs[i]), FakeVector, Payload(docs[i]))
  {
    BuildFake(docs, k, script, n);
    PairedWithIds(docs, FakeVectors(|docs|));
  }

  // ---------------------------------------------------------------------
  // The points returned
  // ---------------------------------------------------------------------

  /** Every point is the point of one of `docs` that has an external id: its id and its payload. */
  ghost predicate FromDocs(points: seq<Point>, docs: seq<Doc>) {
    forall p :: p in points ==>
      exists d :: d in docs && HasExternalId(d) && p.id == IdOf(d) && p.payload == Payload(d)
  }

  /** Each pair is a document and a vector from the two lists. */
  lemma {:induction false} PairedFrom(docs: seq<Doc>, vectors: seq<Vector>)
    ensures forall pair :: pair in Paired(docs, vectors) ==> pair.0 in docs && pair.1 in vectors
    decreases |docs|
  {
    if docs != [] && vectors != [] {
      PairedFrom(docs[1..], vectors[1..]);
      PairedCons(docs, vectors);
    }
  }

  /** A batch gives at most one point per document, each a document's own. */
  lemma BatchPointsFrom(docs: seq<Doc>, vectors: seq<Vector>)
    ensures |BatchPoints(docs, vectors)| <= |docs|
    ensures FromDocs(BatchPoints(docs, vectors), docs)
  {
    var pairs := Paired(docs, vectors);
    PairedFrom(docs, vectors);
    forall p | p in BatchPoints(docs, vectors)
      ensures exists d :: d in docs && HasExternalId(d) && p.id == IdOf(d) && p.payload == Payload(d)
    {
      var i :| 0 <= i < |pairs| && BatchPoints(docs, vectors)[i] == p;
      assert pairs[i] in pairs;
      assert p == PointOf(pairs[i]);
    }
  }

  lemma FromDocsAppend(points: seq<Point>, docs: seq<Doc>, points': seq<Point>, docs': seq<Doc>)
    requires FromDocs(points, docs) && FromDocs(points', docs')
    ensures FromDocs(points + points', docs + docs')
  {
    forall p | p in points + points'
      ensures exists d :: d in docs + docs' && HasExternalId(d) && p.id == IdOf(d) && p.payload == Payload(d)
    {
      if p in points {
        var d :| d in docs && HasExternalId(d) && p.id == IdOf(d) && p.payload == Payload(d);
        assert d in docs + docs';
      } else {
        var d :| d in docs' && HasExternalId(d) && p.id == IdOf(d) && p.payload == Payload(d);
        assert d in docs + docs';
      }
    }
  }

  /**
   * The batches from number `j` on yield at most one point per document,
   * each carrying a document's truthy external id and its payload.
   */
  lemma {:induction false} BuildFromPoints(bs: seq<seq<Doc>>, embed: (seq<string>, nat) -> RetryRun, n: nat, j: nat)
    requires j <= |bs|
    ensures var b := BuildFrom(bs, embed, n, j);
      b.result.Ok? ==> |b.result.value| <= |Flatten(bs[j..])| && FromDocs(b.result.value, Flatten(bs[j..]))
    decreases |bs| - j
  {
    var b := BuildFrom(bs, embed, n, j);
    if j == |bs| {
      assert bs[j..] == [];
    } else {
      var run := embed(Texts(bs[j]), n);
      if run.result.Ok? {
        var rest := BuildFrom(bs, embed, n + |run.sent|, j + 1);
        BuildFromPoints(bs, embed, n + |run.sent|, j + 1);
        if rest.result.Ok? {
          BatchPointsFrom(bs[j], run.result.value);
          assert bs[j..] == [bs[j]] + bs[j + 1..];
          PointsJoin(bs[j], bs[j + 1..], BatchPoints(bs[j], run.result.value), rest.result.value);
        }
      }
    }
  }

  lemma PointsJoin(x: seq<Doc>, tail: seq<seq<Doc>>, points: seq<Point>, points': seq<Point>)
    requires |points| <= |x| && FromDocs(points, x)
    requires |points'| <= |Flatten(tail)| && FromDocs(points', Flatten(tail))
    ensures |points + points'| <= |Flatten([x] + tail)| && FromDocs(points + points', Flatten([x] + tail))
  {
    FlattenAppend([x], tail);
    assert Flatten([x]) == x;
    FromDocsAppend(points, x, points', Flatten(tail));
  }

  /** A successful `build_qdrant_points` returns at most one point per document, each a document's own. */
  lemma BuildPointsFromDocs(docs: seq<Doc>, k: int, fake: bool, script: seq<Reply>, n: nat)
    ensures var b := BuildPoints(docs, k, fake, script, n);
      b.result.Ok? ==> |b.result.value| <= |docs| && FromDocs(b.result.value, docs)
  {
    if docs != [] && 0 < k {
      var bs := Batches(docs, k);
      BuildFromPoints(bs, Embedder(fake, script), n, 0);
      BatchesPartition(docs, k);
      assert bs[0..] == bs;
    }
  }
}
