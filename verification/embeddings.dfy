/**
 * Embedding generation (src/capitol_pipeline/embeddings.py): word-boundary
 * truncation of each text, batching of the texts into provider calls, the
 * check that every returned vector has the same dimension, and the retry
 * loop around rate-limit errors.
 *
 * The provider is a scripted sequence of replies: call number `n` gets
 * reply `n`, and every call is recorded. Sleeping is recorded as the list
 * of waits the loop would sleep for.
 */
module Embeddings {
  import opened Wrappers
  import opened Strings
  import opened Json

  const EmbeddingModel: string := "text-embedding-3-small"
  const MaxEmbeddingChars: int := 8000
  const DefaultBatchSize: int := 50
  const DefaultMaxRetries: int := 5
  /** The dimension of the vectors returned in fake mode. */
  const FakeDim: nat := 8
  /** The error code (or message fragment) of an exhausted quota. */
  const QuotaCode: string := "insufficient_quota"

  /** A vector's values are opaque; only its length is looked at. */
  type Vector = seq<Float>

  const ZeroFloat: Float := Float("0.0", true, true)
  /** `[0.0] * n` */
  function Zeros(n: nat): (v: Vector)
    ensures |v| == n && forall i :: 0 <= i < n ==> v[i] == ZeroFloat
  {
    if n == 0 then [] else Zeros(n - 1) + [ZeroFloat]
  }

  /** The vector returned for every text in fake mode. */
  const FakeVector: Vector := Zeros(FakeDim)

  function Min(a: int, b: int): int {
    if a <= b then a else b
  }

  // ---------------------------------------------------------------------
  // Truncation
  // ---------------------------------------------------------------------

  /** `int(m * 0.8)`: four fifths of `m`, truncated toward zero. */
  function FourFifths(m: int): (r: int)
    ensures 0 <= m ==> 0 <= r <= m
  {
    if m >= 0 then 4 * m / 5 else -((-4 * m) / 5)
  }

  /**
   * `_truncate_for_embedding`: a text longer than `maxChars` is cut at
   * `maxChars`, then cut back to its last space when that space lies in
   * the last fifth of the kept part.
   */
  function TruncateForEmbedding(text: string, maxChars: int): (r: string)
    ensures r <= text
    ensures |text| <= maxChars ==> r == text
    ensures 0 <= maxChars ==> |r| <= maxChars
  {
    if text == [] then []
    else if |text| <= maxChars then text
    else
      var cut := Head(text, maxChars);
      var lastSpace := RFind(cut, ' ');
      if lastSpace > FourFifths(maxChars) then Head(cut, lastSpace) else cut
  }

  /**
   * When a text is cut, either no space lies in the last fifth of its
   * first `m` characters and the cut is exactly at `m`, or the result ends
   * just before the last such space (so no word is split there).
   */
  lemma TruncateAtWordBoundary(text: string, m: nat)
    requires m < |text|
    ensures var r := TruncateForEmbedding(text, m);
      (r == text[..m] && forall i :: FourFifths(m) < i < m ==> text[i] != ' ') ||
      (FourFifths(m) < |r| < m && text[|r|] == ' ' &&
       forall i :: |r| < i < m ==> text[i] != ' ')
  {
    var cut := text[..m];
    assert Head(text, m) == cut;
    var lastSpace := RFind(cut, ' ');
    assert forall i :: 0 <= i < m ==> cut[i] == text[i];
    if lastSpace > FourFifths(m) {
      assert Head(cut, lastSpace) == text[..lastSpace];
    }
  }

  // ---------------------------------------------------------------------
  // Batching
  // ---------------------------------------------------------------------

  /** The slices `xs[start:start + k]` for `start` in `range(0, len(xs), k)`. */
  function Batches<T>(xs: seq<T>, k: nat): seq<seq<T>>
    requires 0 < k
    decreases |xs|
  {
    if xs == [] then []
    else if |xs| <= k then [xs]
    else [xs[..k]] + Batches(xs[k..], k)
  }

  function Flatten<T>(xss: seq<seq<T>>): seq<T> {
    if xss == [] then [] else xss[0] + Flatten(xss[1..])
  }

  lemma FlattenAppend<T>(a: seq<seq<T>>, b: seq<seq<T>>)
    ensures Flatten(a + b) == Flatten(a) + Flatten(b)
  {
    if a != [] {
      assert (a + b)[0] == a[0];
      assert (a + b)[1..] == a[1..] + b;
      FlattenAppend(a[1..], b);
    } else {
      assert a + b == b;
    }
  }

  /**
   * The batches cover the input exactly, in order: there are
   * `ceil(|xs| / k)` of them (the least count whose `k`-sized batches hold
   * the input), none empty, all of size `k` except possibly the last.
   */
  lemma {:induction false} BatchesPartition<T>(xs: seq<T>, k: nat)
    requires 0 < k
    ensures Flatten(Batches(xs, k)) == xs
    ensures (|Batches(xs, k)| - 1) * k < |xs| <= |Batches(xs, k)| * k
    ensures forall i :: 0 <= i < |Batches(xs, k)| ==> 0 < |Batches(xs, k)[i]| <= k
    ensures forall i :: 0 <= i < |Batches(xs, k)| - 1 ==> |Batches(xs, k)[i]| == k
    decreases |xs|
  {
    if xs == [] {
    } else if |xs| <= k {
      assert Flatten([xs]) == xs + Flatten([]);
    } else {
      var rest := Batches(xs[k..], k);
      var bs := Batches(xs, k);
      BatchesPartition(xs[k..], k);
      assert bs == [xs[..k]] + rest;
      assert bs[1..] == rest && Flatten(bs) == xs[..k] + Flatten(rest);
      assert xs[..k] + xs[k..] == xs;
      CountStep(|xs|, k, |rest|);
      forall i | 0 <= i < |bs| ensures 0 < |bs[i]| <= k && (i < |bs| - 1 ==> |bs[i]| == k) {
        if i > 0 {
          assert bs[i] == rest[i - 1];
        }
      }
    }
  }

  /** One more batch of `k` in front: from `c` batches for `len - k` items to `c + 1` for `len`. */
  lemma CountStep(len: int, k: int, c: int)
    requires 0 < k && (c - 1) * k < len - k <= c * k
    ensures c * k < len <= (c + 1) * k
  {
    assert (c + 1) * k == c * k + k;
    assert (c - 1) * k == c * k - k;
  }

  /**
   * Batch number `j` exists exactly when `j * k` is a valid start, and it
   * is the slice starting there.
   */
  lemma {:induction false} BatchAt<T>(xs: seq<T>, k: nat, j: nat)
    requires 0 < k
    ensures j < |Batches(xs, k)| <==> j * k < |xs|
    ensures j < |Batches(xs, k)| ==> Batches(xs, k)[j] == xs[j * k .. Min(j * k + k, |xs|)]
    decreases j
  {
    if j == 0 {
      if |xs| > k {
        assert Batches(xs, k)[0] == xs[..k];
      } else if xs != [] {
        assert xs[0 .. |xs|] == xs;
      }
    } else {
      var m := (j - 1) * k;
      MulStep(j, k);
      if |xs| > k {
        var rest := xs[k..];
        BatchAt(rest, k, j - 1);
        assert Batches(xs, k)[1..] == Batches(rest, k);
        if j - 1 < |Batches(rest, k)| {
          assert m + k == j * k && Min(m + k, |rest|) + k == Min(j * k + k, |xs|);
          SliceOfDrop(xs, k, m, Min(m + k, |rest|));
        }
      }
    }
  }

  lemma SliceOfDrop<T>(xs: seq<T>, k: nat, a: nat, b: nat)
    requires k <= |xs| && a <= b <= |xs| - k
    ensures xs[k..][a..b] == xs[k + a .. k + b]
  {
  }

  lemma MulStep(j: nat, k: nat)
    requires 0 < j
    ensures (j - 1) * k + k == j * k && k <= j * k
  {
  }

  /** The batch starting at `start`, and the batches after it. */
  lemma NextBatch<T>(xs: seq<T>, k: nat, start: nat)
    requires 0 < k && start < |xs|
    ensures Batches(xs[start..], k) != []
    ensures Batches(xs[start..], k)[0] == xs[start .. Min(start + k, |xs|)]
    ensures Batches(xs[start..], k)[1..] == Batches(xs[Min(start + k, |xs|)..], k)
  {
    if |xs| - start > k {
      assert xs[start..][..k] == xs[start .. start + k];
      assert xs[start..][k..] == xs[start + k..];
    } else {
      assert xs[start..] == xs[start .. |xs|];
    }
  }

  /** Five texts in batches of two give three calls of sizes 2, 2 and 1. */
  lemma FiveTextsInThreeBatches<T>(t1: T, t2: T, t3: T, t4: T, t5: T)
    ensures Batches([t1, t2, t3, t4, t5], 2) == [[t1, t2], [t3, t4], [t5]]
  {
    var xs := [t1, t2, t3, t4, t5];
    assert xs[..2] == [t1, t2] && xs[2..] == [t3, t4, t5];
    assert xs[2..][..2] == [t3, t4] && xs[2..][2..] == [t5];
    assert Batches(xs[2..][2..], 2) == [[t5]];
    assert Batches(xs[2..], 2) == [[t3, t4]] + Batches(xs[2..][2..], 2);
    assert Batches(xs, 2) == [[t1, t2]] + Batches(xs[2..], 2);
  }

  // ---------------------------------------------------------------------
  // The provider
  // ---------------------------------------------------------------------

  /** What one `embeddings.create` call does: return vectors or raise. */
  datatype Reply = Vectors(data: seq<Vector>) | Raises(error: ProviderError)

  /** The reply to call number `n`; a script that has run out raises. */
  function ReplyAt(script: seq<Reply>, n: nat): Reply {
    if n < |script| then script[n] else Raises(OtherError("No more responses configured"))
  }

  function Data(r: Reply): seq<Vector> {
    if r.Vectors? then r.data else []
  }

  /** The vectors returned by `count` calls starting at call number `n`, in order. */
  function RepliedData(script: seq<Reply>, n: nat, count: nat): seq<Vector>
    decreases count
  {
    if count == 0 then [] else Data(ReplyAt(script, n)) + RepliedData(script, n + 1, count - 1)
  }

  /**
   * The embedding provider: a fixed script of replies and the log of the
   * calls made so far, the `input` of each in `calls` and its `model` at
   * the same position in `models`.
   */
  class Provider {
    const script: seq<Reply>
    var calls: seq<seq<string>>
    var models: seq<string>

    constructor (script: seq<Reply>)
      ensures this.script == script && calls == [] && models == []
    {
      this.script := script;
      calls := [];
      models := [];
    }

    /** `client.embeddings.create`: records the call and answers with the next reply. */
    method Create(model: string, input: seq<string>) returns (reply: Reply)
      modifies this
      ensures calls == old(calls) + [input] && models == old(models) + [model]
      ensures reply == ReplyAt(script, |old(calls)|)
    {
      reply := ReplyAt(script, |calls|);
      calls := calls + [input];
      models := models + [model];
    }
  }

  /** The models named by `k` calls that all pass `model`. */
  function Repeat(model: string, k: nat): (ms: seq<string>)
    ensures |ms| == k && forall i :: 0 <= i < k ==> ms[i] == model
  {
    seq(k, _ => model)
  }

  lemma RepeatAppend(model: string, a: nat, b: nat)
    ensures Repeat(model, a) + Repeat(model, b) == Repeat(model, a + b)
  {
  }

  lemma RepeatNone(ms: seq<string>, model: string)
    ensures ms + Repeat(model, 0) == ms
  {
  }

  // ---------------------------------------------------------------------
  // One `embed_texts` call, as a function of the script
  // ---------------------------------------------------------------------

  /** The outcome of one call and the batches it sent to the provider. */
  datatype Attempt = Attempt(result: Result<seq<Vector>, Failure>, sent: seq<seq<string>>)

  /** `vs` and `sent` happened first, then `rest`. */
  function Extend(vs: seq<Vector>, sent: seq<seq<string>>, rest: Attempt): Attempt {
    Attempt(if rest.result.Ok? then Ok(vs + rest.result.value) else rest.result, sent + rest.sent)
  }

  lemma ExtendNothing(a: Attempt)
    ensures Extend([], [], a) == a
  {
    assert [] + a.sent == a.sent;
    if a.result.Ok? {
      assert [] + a.result.value == a.result.value;
    }
  }

  /**
   * Sends `batches[i..]` one call each, the first being call number
   * `n + i`, and stops at the first call that raises.
   */
  function SendFrom(batches: seq<seq<string>>, script: seq<Reply>, n: nat, i: nat): Attempt
    requires i <= |batches|
    decreases |batches| - i
  {
    if i == |batches| then Attempt(Ok([]), [])
    else match ReplyAt(script, n + i)
      case Raises(e) => Attempt(Err(ProviderFailed(e)), [batches[i]])
      case Vectors(d) => Extend(d, [batches[i]], SendFrom(batches, script, n, i + 1))
  }

  /** One call of the batch loop, followed by the rest of the loop. */
  lemma SendStep(batches: seq<seq<string>>, script: seq<Reply>, n: nat, j: nat,
                 vs: seq<Vector>, sent: seq<seq<string>>)
    requires j < |batches|
    ensures ReplyAt(script, n + j).Raises? ==>
      Extend(vs, sent, SendFrom(batches, script, n, j)) ==
      Attempt(Err(ProviderFailed(ReplyAt(script, n + j).error)), sent + [batches[j]])
    ensures ReplyAt(script, n + j).Vectors? ==>
      Extend(vs, sent, SendFrom(batches, script, n, j)) ==
      Extend(vs + ReplyAt(script, n + j).data, sent + [batches[j]], SendFrom(batches, script, n, j + 1))
  {
    var rest := SendFrom(batches, script, n, j + 1);
    assert sent + ([batches[j]] + rest.sent) == sent + [batches[j]] + rest.sent;
    if rest.result.Ok? {
      assert vs + (Data(ReplyAt(script, n + j)) + rest.result.value) == vs + Data(ReplyAt(script, n + j)) + rest.result.value;
    }
  }

  /** When every call succeeds, every batch is sent in order and the vectors are concatenated. */
  lemma {:induction false} SendFromOk(batches: seq<seq<string>>, script: seq<Reply>, n: nat, i: nat)
    requires i <= |batches|
    ensures var a := SendFrom(batches, script, n, i);
      a.result.Ok? <==> forall c :: n + i <= c < n + |batches| ==> ReplyAt(script, c).Vectors?
    ensures var a := SendFrom(batches, script, n, i);
      a.result.Ok? ==> a.sent == batches[i..] && a.result.value == RepliedData(script, n + i, |batches| - i)
    decreases |batches| - i
  {
    if i < |batches| {
      SendFromOk(batches, script, n, i + 1);
      assert batches[i..] == [batches[i]] + batches[i + 1..];
    }
  }

  /**
   * When a call raises, that call's error is the result and the batches
   * sent are those up to and including the failing one.
   */
  lemma {:induction false} SendFromErr(batches: seq<seq<string>>, script: seq<Reply>, n: nat, i: nat)
    requires i <= |batches|
    requires SendFrom(batches, script, n, i).result.Err?
    ensures var a := SendFrom(batches, script, n, i);
      exists c :: n + i <= c < n + |batches| && ReplyAt(script, c).Raises? &&
        (forall l :: n + i <= l < c ==> ReplyAt(script, l).Vectors?) &&
        a.sent == batches[i..c - n + 1] && a.result == Err(ProviderFailed(ReplyAt(script, c).error))
    decreases |batches| - i
  {
    if ReplyAt(script, n + i).Raises? {
      assert batches[i..i + 1] == [batches[i]];
    } else {
      SendFromErr(batches, script, n, i + 1);
      var a := SendFrom(batches, script, n, i + 1);
      var c :| n + i + 1 <= c < n + |batches| && ReplyAt(script, c).Raises? &&
        (forall l :: n + i + 1 <= l < c ==> ReplyAt(script, l).Vectors?) &&
        a.sent == batches[i + 1..c - n + 1] && a.result == Err(ProviderFailed(ReplyAt(script, c).error));
      assert [batches[i]] + batches[i + 1..c - n + 1] == batches[i..c - n + 1];
    }
  }

  /** The first index at or after `from` whose vector length is not `dim`, or `|vs|`. */
  function FirstOtherLength(vs: seq<Vector>, dim: nat, from: nat): (k: nat)
    requires from <= |vs|
    ensures from <= k <= |vs|
    ensures forall j :: from <= j < k ==> |vs[j]| == dim
    ensures k < |vs| ==> |vs[k]| != dim
    decreases |vs| - from
  {
    if from == |vs| || |vs[from]| != dim then from else FirstOtherLength(vs, dim, from + 1)
  }

  /**
   * The dimension check: the vectors are returned when all have the
   * length of the first; otherwise the error names the first index that
   * differs, the expected and the actual length.
   */
  function CheckDimensions(vs: seq<Vector>): (r: Result<seq<Vector>, Failure>)
    ensures r.Ok? <==> forall i :: 0 <= i < |vs| ==> |vs[i]| == |vs[0]|
    ensures r.Ok? ==> r.value == vs
    ensures r.Err? ==>
      r.error.InconsistentDimension? && 0 < r.error.index < |vs| &&
      r.error.expected == |vs[0]| && r.error.got == |vs[r.error.index]| != |vs[0]| &&
      forall j :: 0 <= j < r.error.index ==> |vs[j]| == |vs[0]|
  {
    if vs == [] then Ok(vs)
    else
      var k := FirstOtherLength(vs, |vs[0]|, 0);
      if k == |vs| then Ok(vs) else Err(InconsistentDimension(k, |vs[0]|, |vs[k]|))
  }

  /** The error names the first index whose length differs from the first vector's. */
  lemma CheckDimensionsFirst(vs: seq<Vector>, k: nat)
    requires 0 < k < |vs| && |vs[k]| != |vs[0]|
    requires forall j :: 0 <= j < k ==> |vs[j]| == |vs[0]|
    ensures CheckDimensions(vs) == Err(InconsistentDimension(k, |vs[0]|, |vs[k]|))
  {
    assert CheckDimensions(vs).Err?;
  }

  /** The texts as the provider receives them. */
  function Truncated(texts: seq<string>, maxChars: int): (r: seq<string>)
    ensures |r| == |texts|
    ensures forall i :: 0 <= i < |texts| ==> r[i] == TruncateForEmbedding(texts[i], maxChars)
  {
    seq(|texts|, i requires 0 <= i < |texts| => TruncateForEmbedding(texts[i], maxChars))
  }

  /**
   * `embed_texts`, its first provider call being call number `n`. A zero
   * batch size makes `range` raise; a negative one makes it empty, so no
   * call is made and nothing is returned.
   */
  function Embed(texts: seq<string>, batchSize: int, maxChars: int, fake: bool,
                 script: seq<Reply>, n: nat): (a: Attempt)
  {
    if texts == [] then Attempt(Ok([]), [])
    else if fake then Attempt(Ok(seq(|texts|, _ => FakeVector)), [])
    else if batchSize == 0 then Attempt(Err(ZeroBatchSize), [])
    else if batchSize < 0 then Attempt(Ok([]), [])
    else
      var a := SendFrom(Batches(Truncated(texts, maxChars), batchSize), script, n, 0);
      if a.result.Ok? then Attempt(CheckDimensions(a.result.value), a.sent) else a
  }
  /**
   * No texts: no call and no vectors. Fake mode: no call and one zero
   * vector of length 8 per text. Any success: all vectors have the same
   * length.
   */
  lemma EmbedShape(texts: seq<string>, batchSize: int, maxChars: int, fake: bool, script: seq<Reply>, n: nat)
    ensures var a := Embed(texts, batchSize, maxChars, fake, script, n);
      texts == [] ==> a == Attempt(Ok([]), [])
    ensures var a := Embed(texts, batchSize, maxChars, fake, script, n);
      fake ==> a.sent == [] && a.result.Ok? && |a.result.value| == |texts| &&
               forall i :: 0 <= i < |a.result.value| ==> a.result.value[i] == FakeVector
    ensures var a := Embed(texts, batchSize, maxChars, fake, script, n);
      a.result.Ok? ==> forall i, j :: 0 <= i < j < |a.result.value| ==> |a.result.value[i]| == |a.result.value[j]|
  {
  }


  /**
   * A successful call on real texts sent the truncated texts in
   * `ceil(N / K)` consecutive batches, one call each, and returned the
   * concatenation of the replies.
   */
  lemma EmbedBatched(texts: seq<string>, batchSize: int, maxChars: int, script: seq<Reply>, n: nat)
    requires texts != [] && 0 < batchSize
    requires Embed(texts, batchSize, maxChars, false, script, n).result.Ok?
    ensures var a := Embed(texts, batchSize, maxChars, false, script, n);
      a.sent == Batches(Truncated(texts, maxChars), batchSize) &&
      Flatten(a.sent) == Truncated(texts, maxChars) &&
      (|a.sent| - 1) * batchSize < |texts| <= |a.sent| * batchSize &&
      a.result.value == RepliedData(script, n, |a.sent|)
  {
    var xs := Truncated(texts, maxChars);
    var bs := Batches(xs, batchSize);
    var s := SendFrom(bs, script, n, 0);
    assert Embed(texts, batchSize, maxChars, false, script, n) ==
      if s.result.Ok? then Attempt(CheckDimensions(s.result.value), s.sent) else s;
    SendFromOk(bs, script, n, 0);
    BatchesPartition(xs, batchSize);
  }

  /**
   * When every call succeeds but the returned vectors disagree in length,
   * the result is the dimension error for the first disagreeing index.
   */
  lemma EmbedInconsistent(texts: seq<string>, batchSize: int, maxChars: int, script: seq<Reply>, n: nat, k: nat)
    requires texts != [] && 0 < batchSize
    requires forall c :: n <= c < n + |Batches(Truncated(texts, maxChars), batchSize)| ==> ReplyAt(script, c).Vectors?
    requires var vs := RepliedData(script, n, |Batches(Truncated(texts, maxChars), batchSize)|);
      0 < k < |vs| && |vs[k]| != |vs[0]| && forall j :: 0 <= j < k ==> |vs[j]| == |vs[0]|
    ensures var vs := RepliedData(script, n, |Batches(Truncated(texts, maxChars), batchSize)|);
      Embed(texts, batchSize, maxChars, false, script, n).result == Err(InconsistentDimension(k, |vs[0]|, |vs[k]|))
  {
    var bs := Batches(Truncated(texts, maxChars), batchSize);
    SendFromOk(bs, script, n, 0);
  }

  // ---------------------------------------------------------------------
  // Retrying, as a function of the script
  // ---------------------------------------------------------------------

  function Pow2(e: nat): (r: nat)
    ensures 0 < r
  {
    if e == 0 then 1 else 2 * Pow2(e - 1)
  }

  /** A rate-limit error is the only kind that is retried. */
  predicate RateLimited(f: Failure) {
    f.ProviderFailed? && f.error.RateLimit?
  }

  /** A rate-limit error that says the quota is exhausted. */
  predicate QuotaExhausted(e: ProviderError) {
    e.RateLimit? && (e.code == QuotaCode || Contains(e.message, QuotaCode))
  }

  /**
   * The outcome of `embed_texts_with_retry`: its result, every batch sent
   * over all attempts, the waits slept between attempts and the number of
   * `embed_texts` attempts.
   */
  datatype RetryRun = RetryRun(result: Result<seq<Vector>, Failure>, sent: seq<seq<string>>,
                               waits: seq<nat>, attempts: nat)

  /** `sent` and `waits` over `attempts` attempts happened first, then `rest`. */
  function Continue(sent: seq<seq<string>>, waits: seq<nat>, attempts: nat, rest: RetryRun): RetryRun {
    RetryRun(rest.result, sent + rest.sent, waits + rest.waits, attempts + rest.attempts)
  }

  /** One `embed_texts` call for fixed arguments, as a function of the number of the next provider call. */
  function EmbedAttempt(texts: seq<string>, batchSize: int, maxChars: int, fake: bool,
                        script: seq<Reply>): nat -> Attempt
  {
    (n: nat) => Embed(texts, batchSize, maxChars, fake, script, n)
  }

  lemma EmbedAttemptApplied(texts: seq<string>, batchSize: int, maxChars: int, fake: bool,
                            script: seq<Reply>, n: nat)
    ensures EmbedAttempt(texts, batchSize, maxChars, fake, script)(n) == Embed(texts, batchSize, maxChars, fake, script, n)
  {
  }

  /**
   * The retry loop around `attempt`, entered with `retries` already
   * counted and the next provider call being number `n`.
   */
  function Retry(attempt: nat -> Attempt, maxRetries: int, n: nat, retries: nat): RetryRun
    decreases if retries < maxRetries then maxRetries - retries else 0
  {
    var a := attempt(n);
    if a.result.Ok? || !RateLimited(a.result.error) then RetryRun(a.result, a.sent, [], 1)
    else if QuotaExhausted(a.result.error.error) || retries + 1 > maxRetries then RetryRun(a.result, a.sent, [], 1)
    else
      Continue(a.sent, [Pow2(retries + 1)], 1, Retry(attempt, maxRetries, n + |a.sent|, retries + 1))
  }

  /** The loop goes round again: the attempt hit a rate limit and retries are left. */
  lemma RetryGoesOn(attempt: nat -> Attempt, maxRetries: int, n: nat, retries: nat)
    requires attempt(n).result.Err? && RateLimited(attempt(n).result.error)
    requires !QuotaExhausted(attempt(n).result.error.error) && retries + 1 <= maxRetries
    ensures Retry(attempt, maxRetries, n, retries) ==
      Continue(attempt(n).sent, [Pow2(retries + 1)], 1, Retry(attempt, maxRetries, n + |attempt(n).sent|, retries + 1))
  {
  }

  /** The loop stops with the attempt's own outcome. */
  lemma RetryStops(attempt: nat -> Attempt, maxRetries: int, n: nat, retries: nat)
    requires attempt(n).result.Ok? || !RateLimited(attempt(n).result.error) ||
             QuotaExhausted(attempt(n).result.error.error) || retries + 1 > maxRetries
    ensures Retry(attempt, maxRetries, n, retries) == RetryRun(attempt(n).result, attempt(n).sent, [], 1)
  {
  }

  lemma ContinueNothing(run: RetryRun)
    ensures Continue([], [], 0, run) == run
  {
    assert [] + run.sent == run.sent && [] + run.waits == run.waits;
  }

  lemma ContinueTwice(sent: seq<seq<string>>, waits: seq<nat>, attempts: nat,
                      sent': seq<seq<string>>, waits': seq<nat>, attempts': nat, rest: RetryRun)
    ensures Continue(sent, waits, attempts, Continue(sent', waits', attempts', rest)) ==
      Continue(sent + sent', waits + waits', attempts + attempts', rest)
  {
    assert sent + (sent' + rest.sent) == sent + sent' + rest.sent;
    assert waits + (waits' + rest.waits) == waits + waits' + rest.waits;
  }

  /** One more attempt that stops the loop, seen from the loop's running totals. */
  lemma RetryStepStops(attempt: nat -> Attempt, maxRetries: int, n: nat, retries: nat,
                       sent: seq<seq<string>>, waits: seq<nat>, attempts: nat, target: RetryRun)
    requires target == Continue(sent, waits, attempts, Retry(attempt, maxRetries, n, retries))
    requires attempt(n).result.Ok? || !RateLimited(attempt(n).result.error) ||
             QuotaExhausted(attempt(n).result.error.error) || retries + 1 > maxRetries
    ensures target == RetryRun(attempt(n).result, sent + attempt(n).sent, waits, attempts + 1)
  {
    RetryStops(attempt, maxRetries, n, retries);
    assert waits + [] == waits;
  }

  /** One more attempt after which the loop sleeps and goes round again, seen from the running totals. */
  lemma RetryStepGoesOn(attempt: nat -> Attempt, maxRetries: int, n: nat, retries: nat,
                        sent: seq<seq<string>>, waits: seq<nat>, attempts: nat, target: RetryRun)
    requires target == Continue(sent, waits, attempts, Retry(attempt, maxRetries, n, retries))
    requires attempt(n).result.Err? && RateLimited(attempt(n).result.error)
    requires !QuotaExhausted(attempt(n).result.error.error) && retries + 1 <= maxRetries
    ensures target == Continue(sent + attempt(n).sent, waits + [Pow2(retries + 1)], attempts + 1,
                               Retry(attempt, maxRetries, n + |attempt(n).sent|, retries + 1))
  {
    RetryGoesOn(attempt, maxRetries, n, retries);
    ContinueTwice(sent, waits, attempts, attempt(n).sent, [Pow2(retries + 1)], 1,
                  Retry(attempt, maxRetries, n + |attempt(n).sent|, retries + 1));
  }

  /**
   * The waits of `r` double from `2^(retries+1)`, there is one attempt
   * more than waits, and at most `maxRetries - retries + 1` attempts (one
   * when no retries are left).
   */
  predicate WaitsDouble(r: RetryRun, maxRetries: int, retries: nat) {
    r.attempts == |r.waits| + 1 &&
    (forall i :: 0 <= i < |r.waits| ==> r.waits[i] == Pow2(retries + 1 + i)) &&
    r.attempts <= (if retries < maxRetries then maxRetries - retries else 0) + 1
  }

  lemma {:induction false} RetryWaitsDouble(attempt: nat -> Attempt, maxRetries: int, n: nat, retries: nat)
    ensures WaitsDouble(Retry(attempt, maxRetries, n, retries), maxRetries, retries)
    decreases if retries < maxRetries then maxRetries - retries else 0
  {
    var a := attempt(n);
    if a.result.Ok? || !RateLimited(a.result.error) || QuotaExhausted(a.result.error.error) || retries + 1 > maxRetries {
      RetryStops(attempt, maxRetries, n, retries);
    } else {
      RetryGoesOn(attempt, maxRetries, n, retries);
      RetryWaitsDouble(attempt, maxRetries, n + |a.sent|, retries + 1);
      WaitsPrepend(a.sent, maxRetries, retries, Retry(attempt, maxRetries, n + |a.sent|, retries + 1));
    }
  }

  /** One more wait of `2^(retries+1)` in front keeps the waits doubling. */
  lemma WaitsPrepend(sent: seq<seq<string>>, maxRetries: int, retries: nat, rest: RetryRun)
    requires retries + 1 <= maxRetries && WaitsDouble(rest, maxRetries, retries + 1)
    ensures WaitsDouble(Continue(sent, [Pow2(retries + 1)], 1, rest), maxRetries, retries)
  {
    var ws := [Pow2(retries + 1)] + rest.waits;
    forall i | 0 <= i < |ws| ensures ws[i] == Pow2(retries + 1 + i) {
      if i > 0 {
        assert ws[i] == rest.waits[i - 1];
      }
    }
  }

  /** Starting from zero retries, the waits are 2, 4, 8, ... and there are at most `maxRetries + 1` attempts. */
  lemma RetryBounds(attempt: nat -> Attempt, maxRetries: int, n: nat)
    ensures var r := Retry(attempt, maxRetries, n, 0);
      (forall i :: 0 <= i < |r.waits| ==> r.waits[i] == Pow2(i + 1)) &&
      r.attempts <= (if maxRetries > 0 then maxRetries else 0) + 1
  {
    RetryWaitsDouble(attempt, maxRetries, n, 0);
    var r := Retry(attempt, maxRetries, n, 0);
    assert WaitsDouble(r, maxRetries, 0);
  }

  /**
   * An attempt that fails with anything but a retryable rate limit (a
   * quota error, another provider error, a dimension error) ends the loop
   * at once with that error.
   */
  lemma NoRetryUnlessRateLimited(attempt: nat -> Attempt, maxRetries: int, n: nat, retries: nat)
    requires attempt(n).result.Err?
    requires !RateLimited(attempt(n).result.error) || QuotaExhausted(attempt(n).result.error.error)
    ensures Retry(attempt, maxRetries, n, retries) == RetryRun(attempt(n).result, attempt(n).sent, [], 1)
  {
  }

  /**
   * A run that ends in a non-quota rate-limit error has used up all its
   * retries: it made `maxRetries - retries + 1` attempts.
   */
  lemma {:induction false} RateLimitGivesUpAfterMaxRetries(attempt: nat -> Attempt, maxRetries: int, n: nat, retries: nat)
    requires var r := Retry(attempt, maxRetries, n, retries);
      r.result.Err? && RateLimited(r.result.error) && !QuotaExhausted(r.result.error.error)
    ensures Retry(attempt, maxRetries, n, retries).attempts ==
      (if retries < maxRetries then maxRetries - retries else 0) + 1
    decreases if retries < maxRetries then maxRetries - retries else 0
  {
    var a := attempt(n);
    if a.result.Ok? || !RateLimited(a.result.error) {
    } else if QuotaExhausted(a.result.error.error) || retries + 1 > maxRetries {
    } else {
      RateLimitGivesUpAfterMaxRetries(attempt, maxRetries, n + |a.sent|, retries + 1);
    }
  }

  // ---------------------------------------------------------------------
  // The imperative code
  // ---------------------------------------------------------------------

  /**
   * `batchesOf` is `Batches(_, k)`. As with `Agrees` below, the equation is
   * only used where a `Batches` term is already present, so that the batch
   * loop does not unfold `Batches` at every step.
   */
  ghost predicate IsBatches<T(!new)>(batchesOf: seq<T> -> seq<seq<T>>, k: nat)
    requires 0 < k
  {
    forall xs {:trigger Batches(xs, k)} :: batchesOf(xs) == Batches(xs, k)
  }

  /** `send(i)` is `SendFrom(bs, script, n, i)`, used only where a `SendFrom` term is present. */
  ghost predicate IsSend(send: nat -> Attempt, bs: seq<seq<string>>, script: seq<Reply>, n: nat) {
    forall i: nat {:trigger SendFrom(bs, script, n, i)} :: i <= |bs| ==> send(i) == SendFrom(bs, script, n, i)
  }

  lemma BatchesFunction<T(!new)>(k: nat) returns (batchesOf: seq<T> -> seq<seq<T>>)
    requires 0 < k
    ensures IsBatches(batchesOf, k)
  {
    batchesOf := xs => Batches(xs, k);
  }

  lemma SendFunction(bs: seq<seq<string>>, script: seq<Reply>, n: nat) returns (send: nat -> Attempt)
    ensures IsSend(send, bs, script, n)
  {
    send := (i: nat) => if i <= |bs| then SendFrom(bs, script, n, i) else Attempt(Ok([]), []);
  }

  /**
   * One turn of the batch loop: the slice sent is the next batch, and the
   * outcome of the whole loop is either this call's error or the outcome
   * of the remaining calls, with the reply's vectors gathered.
   */
  lemma BatchLoopStep(processed: seq<string>, k: nat, start: nat, bs: seq<seq<string>>, j: nat,
                      script: seq<Reply>, n: nat, vectors: seq<Vector>, target: Attempt,
                      batchesOf: seq<string> -> seq<seq<string>>, send: nat -> Attempt)
    requires 0 < k && start < |processed| && j <= |bs|
    requires IsBatches(batchesOf, k) && IsSend(send, bs, script, n)
    requires bs[j..] == batchesOf(processed[Min(start, |processed|)..])
    requires target == Extend(vectors, bs[..j], send(j))
    ensures j < |bs| && bs[j] == processed[start .. Min(start + k, |processed|)]
    ensures bs[j + 1..] == batchesOf(processed[Min(start + k, |processed|)..])
    ensures ReplyAt(script, n + j).Raises? ==>
      target == Attempt(Err(ProviderFailed(ReplyAt(script, n + j).error)), bs[..j + 1])
    ensures ReplyAt(script, n + j).Vectors? ==>
      target == Extend(vectors + ReplyAt(script, n + j).data, bs[..j + 1], send(j + 1))
  {
    assert Min(start, |processed|) == start;
    assert batchesOf(processed[start..]) == Batches(processed[start..], k);
    assert batchesOf(processed[Min(start + k, |processed|)..]) == Batches(processed[Min(start + k, |processed|)..], k);
    NextBatch(processed, k, start);
    assert bs[j..][0] == bs[j] && bs[j..][1..] == bs[j + 1..];
    assert send(j) == SendFrom(bs, script, n, j);
    assert send(j + 1) == SendFrom(bs, script, n, j + 1);
    SendStep(bs, script, n, j, vectors, bs[..j]);
    assert bs[..j] + [bs[j]] == bs[..j + 1];
  }

  /** When the slices reach the end, every batch has been sent and the outcome is the vectors gathered. */
  lemma BatchLoopDone(processed: seq<string>, k: nat, start: nat, bs: seq<seq<string>>, j: nat,
                      script: seq<Reply>, n: nat, vectors: seq<Vector>, target: Attempt,
                      batchesOf: seq<string> -> seq<seq<string>>, send: nat -> Attempt)
    requires 0 < k && start >= |processed| && j <= |bs|
    requires IsBatches(batchesOf, k) && IsSend(send, bs, script, n)
    requires bs[j..] == batchesOf(processed[Min(start, |processed|)..])
    requires target == Extend(vectors, bs[..j], send(j))
    ensures j == |bs| && bs[..j] == bs && target == Attempt(Ok(vectors), bs)
  {
    assert processed[Min(start, |processed|)..] == [];
    assert batchesOf([]) == Batches([], k);
    assert send(j) == SendFrom(bs, script, n, j);
    assert bs[..|bs|] == bs;
    assert vectors + [] == vectors && bs + [] == bs;
  }

  lemma AppendNext<T>(prefix: seq<T>, xs: seq<T>, j: nat)
    requires j < |xs|
    ensures prefix + xs[..j] + [xs[j]] == prefix + xs[..j + 1]
  {
    assert xs[..j] + [xs[j]] == xs[..j + 1];
  }

  /**
   * The batch loop of `embed_texts`: one provider call per slice of
   * `batchSize` texts, in order, extending the vectors with each reply.
   */
  method RequestBatches(p: Provider, model: string, processed: seq<string>, batchSize: int)
    returns (r: Result<seq<Vector>, Failure>)
    requires 0 < batchSize
    modifies p
    ensures var a := SendFrom(Batches(processed, batchSize), p.script, |old(p.calls)|, 0);
      r == a.result && p.calls == old(p.calls) + a.sent
    ensures p.models == old(p.models) + Repeat(model, |p.calls| - |old(p.calls)|)
  {
    ghost var batchesOf := BatchesFunction<string>(batchSize);
    ghost var send := SendFunction(Batches(processed, batchSize), p.script, |p.calls|);
    r := BatchLoop(p, model, processed, batchSize, batchesOf, send);
  }

  /** `RequestBatches`, with the batches and the outcome of each suffix of calls given as ghost functions. */
  method BatchLoop(p: Provider, model: string, processed: seq<string>, batchSize: int,
                   ghost batchesOf: seq<string> -> seq<seq<string>>, ghost send: nat -> Attempt)
    returns (r: Result<seq<Vector>, Failure>)
    requires 0 < batchSize && IsBatches(batchesOf, batchSize)
    requires IsSend(send, batchesOf(processed), p.script, |p.calls|)
    modifies p
    ensures r == send(0).result && p.calls == old(p.calls) + send(0).sent
    ensures p.models == old(p.models) + Repeat(model, |p.calls| - |old(p.calls)|)
  {
    ghost var n0 := |p.calls|;
    ghost var bs := batchesOf(processed);
    ghost var j := 0;
    var vectors: seq<Vector> := [];
    var start := 0;
    ghost var target := send(0);
    ExtendNothing(target);
    RepeatNone(p.models, model);
    assert bs[..0] == [] && bs[0..] == bs && processed[0..] == processed;
    while start < |processed|
      invariant j <= |bs| && bs[j..] == batchesOf(processed[Min(start, |processed|)..])
      invariant p.calls == old(p.calls) + bs[..j] && |p.calls| == n0 + j
      invariant p.models == old(p.models) + Repeat(model, j)
      invariant target == Extend(vectors, bs[..j], send(j))
      decreases |processed| - start
    {
      var batch := processed[start .. Min(start + batchSize, |processed|)];
      BatchLoopStep(processed, batchSize, start, bs, j, p.script, n0, vectors, target, batchesOf, send);
      var reply := p.Create(model, batch);
      RepeatAppend(model, j, 1);
      assert reply == ReplyAt(p.script, n0 + j);
      AppendNext(old(p.calls), bs, j);
      if reply.Raises? {
        return Err(ProviderFailed(reply.error));
      }
      vectors := vectors + reply.data;
      start := start + batchSize;
      j := j + 1;
    }
    BatchLoopDone(processed, batchSize, start, bs, j, p.script, n0, vectors, target, batchesOf, send);
    return Ok(vectors);
  }

  /** The dimension check of `embed_texts`: compares every length with the first. */
  method CheckVectorDimensions(vectors: seq<Vector>) returns (r: Result<seq<Vector>, Failure>)
    ensures r == CheckDimensions(vectors)
  {
    if vectors != [] {
      var expected := |vectors[0]|;
      for idx := 0 to |vectors|
        invariant forall l :: 0 <= l < idx ==> |vectors[l]| == expected
      {
        if |vectors[idx]| != expected {
          CheckDimensionsFirst(vectors, idx);
          return Err(InconsistentDimension(idx, expected, |vectors[idx]|));
        }
      }
    }
    return Ok(vectors);
  }

  /** `embed_texts`, talking to provider `p`. */
  method EmbedTexts(p: Provider, texts: seq<string>, model: string, batchSize: int, maxChars: int, fake: bool)
    returns (r: Result<seq<Vector>, Failure>)
    modifies p
    ensures var a := Embed(texts, batchSize, maxChars, fake, p.script, |old(p.calls)|);
      r == a.result && p.calls == old(p.calls) + a.sent
    ensures p.models == old(p.models) + Repeat(model, |p.calls| - |old(p.calls)|)
  {
    RepeatNone(p.models, model);
    if texts == [] {
      return Ok([]);
    }
    if fake {
      return Ok(seq(|texts|, _ => FakeVector));
    }
    var processed := seq(|texts|, i requires 0 <= i < |texts| => TruncateForEmbedding(texts[i], maxChars));
    assert processed == Truncated(texts, maxChars);
    if batchSize == 0 {
      return Err(ZeroBatchSize);
    }
    if batchSize < 0 {
      // `range(0, n, batchSize)` is empty: no call, no vectors.
      return Ok([]);
    }
    r := RequestBatches(p, model, processed, batchSize);
    if r.Ok? {
      r := CheckVectorDimensions(r.value);
    }
  }

  lemma ConcatAssoc<T>(x: seq<T>, y: seq<T>, z: seq<T>)
    ensures x + y + z == x + (y + z)
  {
  }

  /**
   * `attempt` is `embed_texts` for these arguments. The equation is only
   * used where an `Embed` term is already present, so that a proof about
   * the retry loop does not unfold `Embed` at every attempt it mentions.
   */
  ghost predicate Agrees(attempt: nat -> Attempt, texts: seq<string>, batchSize: int, maxChars: int,
                         fake: bool, script: seq<Reply>)
  {
    forall n: nat {:trigger Embed(texts, batchSize, maxChars, fake, script, n)} ::
      attempt(n) == Embed(texts, batchSize, maxChars, fake, script, n)
  }

  lemma {:induction false} RetrySame(f: nat -> Attempt, g: nat -> Attempt, maxRetries: int, n: nat, retries: nat)
    requires forall m: nat :: f(m) == g(m)
    ensures Retry(f, maxRetries, n, retries) == Retry(g, maxRetries, n, retries)
    decreases if retries < maxRetries then maxRetries - retries else 0
  {
    var a := f(n);
    if a.result.Err? && RateLimited(a.result.error) && !QuotaExhausted(a.result.error.error) && retries + 1 <= maxRetries {
      RetrySame(f, g, maxRetries, n + |a.sent|, retries + 1);
    }
  }

  lemma AgreesWithEmbedAttempt(attempt: nat -> Attempt, texts: seq<string>, batchSize: int, maxChars: int,
                               fake: bool, script: seq<Reply>, maxRetries: int, n: nat)
    requires Agrees(attempt, texts, batchSize, maxChars, fake, script)
    ensures Retry(attempt, maxRetries, n, 0) == Retry(EmbedAttempt(texts, batchSize, maxChars, fake, script), maxRetries, n, 0)
  {
    forall m: nat
      ensures attempt(m) == EmbedAttempt(texts, batchSize, maxChars, fake, script)(m)
    {
      EmbedAttemptApplied(texts, batchSize, maxChars, fake, script, m);
    }
    RetrySame(attempt, EmbedAttempt(texts, batchSize, maxChars, fake, script), maxRetries, n, 0);
  }

  lemma EmbedAttemptAgrees(texts: seq<string>, batchSize: int, maxChars: int, fake: bool, script: seq<Reply>)
    returns (attempt: nat -> Attempt)
    ensures Agrees(attempt, texts, batchSize, maxChars, fake, script)
  {
    attempt := EmbedAttempt(texts, batchSize, maxChars, fake, script);
    forall n: nat
      ensures attempt(n) == Embed(texts, batchSize, maxChars, fake, script, n)
    {
      EmbedAttemptApplied(texts, batchSize, maxChars, fake, script, n);
    }
    assert Agrees(attempt, texts, batchSize, maxChars, fake, script);
  }

  /**
   * One pass of the body of the retry loop: call `embed_texts`, then decide
   * whether to sleep and try again (`again`, sleeping `waitTime` seconds)
   * or to return or re-raise `r`. `retries` are those counted so far.
   */
  method AttemptOnce(p: Provider, texts: seq<string>, model: string, batchSize: int, maxChars: int,
                     fake: bool, maxRetries: int, retries: nat, ghost attempt: nat -> Attempt)
    returns (r: Result<seq<Vector>, Failure>, again: bool, waitTime: nat)
    requires Agrees(attempt, texts, batchSize, maxChars, fake, p.script)
    modifies p
    ensures var a := attempt(|old(p.calls)|);
      r == a.result && p.calls == old(p.calls) + a.sent &&
      (again <==> r.Err? && RateLimited(r.error) && !QuotaExhausted(r.error.error) && retries + 1 <= maxRetries) &&
      (again ==> waitTime == Pow2(retries + 1))
    ensures p.models == old(p.models) + Repeat(model, |p.calls| - |old(p.calls)|)
  {
    r := EmbedTexts(p, texts, model, batchSize, maxChars, fake);
    if !(r.Err? && r.error.ProviderFailed? && r.error.error.RateLimit?) {
      // Success, or an error the loop does not catch.
      return r, false, 0;
    }
    var counted := retries + 1;
    if QuotaExhausted(r.error.error) {
      return r, false, 0;
    }
    if counted > maxRetries {
      return r, false, 0;
    }
    return r, true, Pow2(counted);
  }

  /** `embed_texts_with_retry`; `waits` are the seconds it sleeps between attempts. */
  method EmbedTextsWithRetry(p: Provider, texts: seq<string>, model: string, batchSize: int, maxChars: int,
                             fake: bool, maxRetries: int)
    returns (r: Result<seq<Vector>, Failure>, waits: seq<nat>)
    modifies p
    ensures var run := Retry(EmbedAttempt(texts, batchSize, maxChars, fake, p.script), maxRetries, |old(p.calls)|, 0);
      r == run.result && waits == run.waits && p.calls == old(p.calls) + run.sent
    ensures p.models == old(p.models) + Repeat(model, |p.calls| - |old(p.calls)|)
  {
    ghost var attempt := EmbedAttemptAgrees(texts, batchSize, maxChars, fake, p.script);
    AgreesWithEmbedAttempt(attempt, texts, batchSize, maxChars, fake, p.script, maxRetries, |p.calls|);
    r, waits := RetryLoop(p, texts, model, batchSize, maxChars, fake, maxRetries, attempt);
  }

  /**
   * The loop of `embed_texts_with_retry`, where `attempt` stands for one
   * `embed_texts` call with these arguments.
   */
  method RetryLoop(p: Provider, texts: seq<string>, model: string, batchSize: int, maxChars: int,
                   fake: bool, maxRetries: int, ghost attempt: nat -> Attempt)
    returns (r: Result<seq<Vector>, Failure>, waits: seq<nat>)
    requires Agrees(attempt, texts, batchSize, maxChars, fake, p.script)
    modifies p
    ensures var run := Retry(attempt, maxRetries, |old(p.calls)|, 0);
      r == run.result && waits == run.waits && p.calls == old(p.calls) + run.sent
    ensures p.models == old(p.models) + Repeat(model, |p.calls| - |old(p.calls)|)
  {
    ghost var target := Retry(attempt, maxRetries, |p.calls|, 0);
    ghost var sent: seq<seq<string>> := [];
    ghost var attempts := 0;
    var retries: nat := 0;
    waits := [];
    ContinueNothing(target);
    RepeatNone(p.models, model);
    while true
      invariant p.calls == old(p.calls) + sent
      invariant p.models == old(p.models) + Repeat(model, |sent|)
      invariant target == Continue(sent, waits, attempts, Retry(attempt, maxRetries, |p.calls|, retries))
      decreases if retries < maxRetries then maxRetries - retries else 0
    {
      ghost var n := |p.calls|;
      var again, waitTime;
      r, again, waitTime := AttemptOnce(p, texts, model, batchSize, maxChars, fake, maxRetries, retries, attempt);
      ghost var a := attempt(n);
      ConcatAssoc(old(p.calls), sent, a.sent);
      assert n + |a.sent| == |p.calls|;
      RepeatAppend(model, |sent|, |a.sent|);
      if !again {
        RetryStepStops(attempt, maxRetries, n, retries, sent, waits, attempts, target);
        return;
      }
      RetryStepGoesOn(attempt, maxRetries, n, retries, sent, waits, attempts, target);
      retries := retries + 1;
      waits := waits + [waitTime];
      sent := sent + a.sent;
      attempts := attempts + 1;
    }
  }

  /**
   * Two rate-limit errors and then a success: the loop sleeps 2 and then 4
   * seconds, makes three attempts with the same batch, and returns the
   * third attempt's vectors.
   */
  lemma TwoRateLimitsThenSuccess(t: string, e: ProviderError, v: Vector)
    requires t != [] && |t| <= MaxEmbeddingChars
    requires e.RateLimit? && !QuotaExhausted(e)
    ensures var script := [Raises(e), Raises(e), Vectors([v])];
      var r := Retry(EmbedAttempt([t], DefaultBatchSize, MaxEmbeddingChars, false, script), DefaultMaxRetries, 0, 0);
      r.result == Ok([v]) && r.waits == [2, 4] && r.attempts == 3 && r.sent == [[t], [t], [t]]
  {
    var script := [Raises(e), Raises(e), Vectors([v])];
    var attempt := EmbedAttempt([t], DefaultBatchSize, MaxEmbeddingChars, false, script);
    assert Truncated([t], MaxEmbeddingChars) == [t];
    assert Batches([t], DefaultBatchSize) == [[t]];
    var failed := Attempt(Err(ProviderFailed(e)), [[t]]);
    assert attempt(0) == failed;
    assert attempt(1) == failed;
    assert ReplyAt(script, 2) == Vectors([v]);
    assert SendFrom([[t]], script, 2, 1) == Attempt(Ok([]), []);
    assert [v] + [] == [v] && [[t]] + [] == [[t]];
    assert SendFrom([[t]], script, 2, 0) == Attempt(Ok([v]), [[t]]);
    assert attempt(2) == Attempt(Ok([v]), [[t]]);
    assert Retry(attempt, DefaultMaxRetries, 2, 2) == RetryRun(Ok([v]), [[t]], [], 1);
    assert Retry(attempt, DefaultMaxRetries, 1, 1) == RetryRun(Ok([v]), [[t], [t]], [4], 2);
  }
}
