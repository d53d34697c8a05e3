/**
 * `validate_point` (scripts/validate_output.py): the structural check of
 * one Qdrant point, gathering errors and warnings. A message is an `Issue`
 * naming what was found; the `[idx=...]` prefix every message carries is
 * not part of the model.
 */
module Validate {
  import opened Wrappers
  import opened Strings
  import opened Json
  import opened Lists

  datatype Issue =
    | MissingId
    | IdType(got: string)
    | MissingVector
    | VectorType(got: string)
    | VectorLength(length: nat, expected: int)
    | NotFinite(index: nat, value: Json)
    | MissingPayload
    | PayloadType(got: string)
    | MissingText
    | TextType(got: string)
    | BlankText
    | MetadataType(got: string)
    | NoMetadata
    | MissingMetaField(key: string)
    | UrlType(got: string)

  /** The errors and the warnings of one point. */
  datatype Report = Report(errors: seq<Issue>, warnings: seq<Issue>)

  /** The metadata keys whose absence is warned about, in the order they are checked. */
  const ExpectedMetaKeys: seq<string> := ["title", "url", "external_id"]

  /** `type(v).__name__` */
  function TypeName(v: Json): string {
    match v
    case JNull => "NoneType"
    case JBool(_) => "bool"
    case JInt(_) => "int"
    case JFloat(_) => "float"
    case JStr(_) => "str"
    case JArr(_) => "list"
    case JObj(_) => "dict"
  }

  /** `isinstance(v, (str, int))`; a bool is an int in Python. */
  predicate IsStrOrInt(v: Json) {
    v.JStr? || v.JInt? || v.JBool?
  }

  /**
   * `is_finite_number`: an int (a bool included) or a float for which
   * `math.isfinite` holds; whether a float is finite is recorded in `Float`.
   */
  predicate IsFiniteNumber(v: Json) {
    v.JInt? || v.JBool? || (v.JFloat? && v.f.finite)
  }

  // ---------------------------------------------------------------------
  // The checks, as functions of the point
  // ---------------------------------------------------------------------

  function IdIssues(pid: Json): seq<Issue> {
    if pid.JNull? then [MissingId]
    else if !IsStrOrInt(pid) then [IdType(TypeName(pid))]
    else []
  }

  /** The index of the first element that is not a finite number, if any. */
  function FirstNonFinite(vs: seq<Json>): (r: Option<nat>)
    ensures r.None? <==> forall k :: 0 <= k < |vs| ==> IsFiniteNumber(vs[k])
    ensures r.Some? ==>
      r.value < |vs| && !IsFiniteNumber(vs[r.value]) && forall k :: 0 <= k < r.value ==> IsFiniteNumber(vs[k])
  {
    if vs == [] then None
    else if !IsFiniteNumber(vs[0]) then Some(0)
    else match FirstNonFinite(vs[1..])
      case None => None
      case Some(j) => Some(j + 1)
  }

  /** At most one non-finite error: the first offending element's. */
  function FiniteIssues(vs: seq<Json>): seq<Issue> {
    match FirstNonFinite(vs)
    case None => []
    case Some(j) => [NotFinite(j, vs[j])]
  }

  function VectorIssues(vector: Json, expectedDim: Option<int>): seq<Issue> {
    if vector.JNull? then [MissingVector]
    else if !vector.JArr? then [VectorType(TypeName(vector))]
    else
      (if expectedDim.Some? && |vector.items| != expectedDim.value
       then [VectorLength(|vector.items|, expectedDim.value)] else []) +
      FiniteIssues(vector.items)
  }

  function TextIssues(text: Json): seq<Issue> {
    if text.JNull? then [MissingText]
    else if !text.JStr? then [TextType(TypeName(text))]
    else []
  }

  function TextWarnings(text: Json): seq<Issue> {
    if text.JStr? && Blank(text.s) then [BlankText] else []
  }

  /**
   * The metadata dict the checks look at: `payload["metadata"]` when it is
   * a dict, none when it is something else, and otherwise the payload
   * without `text` and `metadata`.
   */
  function MetadataView(payload: map<string, Json>): Option<map<string, Json>> {
    if "metadata" in payload then
      if payload["metadata"].JObj? then Some(payload["metadata"].fields) else None
    else Some(payload - {"text", "metadata"})
  }

  /** A non-dict `metadata` is reported, and then so is the missing metadata view. */
  function MetadataIssues(payload: map<string, Json>): seq<Issue> {
    if "metadata" in payload && !payload["metadata"].JObj?
    then [MetadataType(TypeName(payload["metadata"])), NoMetadata]
    else []
  }

  /** One warning per expected key absent from the metadata, then one for a url that is not a string. */
  function MetaWarnings(md: map<string, Json>): seq<Issue> {
    MissingKeys(md, ExpectedMetaKeys) +
    (if !Field(md, "url").JNull? && !Field(md, "url").JStr? then [UrlType(TypeName(Field(md, "url")))] else [])
  }

  /** The warnings for the `keys` absent from `md`, in order. */
  function MissingKeys(md: map<string, Json>, keys: seq<string>): seq<Issue> {
    if keys == [] then []
    else
      var key := keys[|keys| - 1];
      MissingKeys(md, keys[..|keys| - 1]) + (if key in md then [] else [MissingMetaField(key)])
  }

  /** The errors about the payload: its absence or type, or those of its text and its metadata. */
  function PayloadIssues(payload: Json): seq<Issue> {
    if payload.JNull? then [MissingPayload]
    else if !payload.JObj? then [PayloadType(TypeName(payload))]
    else TextIssues(Field(payload.fields, "text")) + MetadataIssues(payload.fields)
  }

  /** The warnings, all about a dict payload: its text, then its metadata view. */
  function PayloadWarnings(payload: Json): seq<Issue> {
    if !payload.JObj? then []
    else
      var view := MetadataView(payload.fields);
      TextWarnings(Field(payload.fields, "text")) + (if view.Some? then MetaWarnings(view.value) else [])
  }

  /** `validate_point(point, idx, expected_dim)` */
  function Validation(point: map<string, Json>, expectedDim: Option<int>): Report {
    Report(IdIssues(Field(point, "id")) + VectorIssues(Field(point, "vector"), expectedDim) +
           PayloadIssues(Field(point, "payload")),
           PayloadWarnings(Field(point, "payload")))
  }

  // ---------------------------------------------------------------------
  // The imperative code
  // ---------------------------------------------------------------------

  /** The vector checks: its length against `expected_dim`, then its elements until the first non-finite one. */
  method CheckVector(errors: seq<Issue>, vector: seq<Json>, expectedDim: Option<int>) returns (r: seq<Issue>)
    ensures r == errors + VectorIssues(JArr(vector), expectedDim)
  {
    r := errors;
    if expectedDim.Some? && |vector| != expectedDim.value {
      r := r + [VectorLength(|vector|, expectedDim.value)];
    }
    ghost var before := r;
    var j := 0;
    while j < |vector|
      invariant j <= |vector| && r == before
      invariant forall k :: 0 <= k < j ==> IsFiniteNumber(vector[k])
    {
      if !IsFiniteNumber(vector[j]) {
        r := r + [NotFinite(j, vector[j])];
        break;
      }
      j := j + 1;
    }
  }

  /** The text checks: a missing or non-string text is an error, a blank one a warning. */
  method CheckText(payload: map<string, Json>) returns (errors: seq<Issue>, warnings: seq<Issue>)
    ensures errors == TextIssues(Field(payload, "text")) && warnings == TextWarnings(Field(payload, "text"))
  {
    errors, warnings := [], [];
    var text := Field(payload, "text");
    if text.JNull? {
      errors := [MissingText];
    } else if !text.JStr? {
      errors := [TextType(TypeName(text))];
    } else {
      StripEmptyIffAllSpace(text.s);
      if Strip(text.s) == [] {
        warnings := [BlankText];
      }
    }
  }

  /** The metadata checks: the view, then the expected keys and the url's type. */
  method CheckMetadata(payload: map<string, Json>) returns (errors: seq<Issue>, warnings: seq<Issue>)
    ensures errors == MetadataIssues(payload)
    ensures warnings == if MetadataView(payload).Some? then MetaWarnings(MetadataView(payload).value) else []
  {
    errors, warnings := [], [];
    var metadata: Option<map<string, Json>> := None;
    if "metadata" in payload {
      if payload["metadata"].JObj? {
        metadata := Some(payload["metadata"].fields);
      } else {
        errors := errors + [MetadataType(TypeName(payload["metadata"]))];
      }
    } else {
      metadata := Some(payload - {"text", "metadata"});
    }
    if metadata.None? {
      errors := errors + [NoMetadata];
      return;
    }
    var md := metadata.value;
    for i := 0 to |ExpectedMetaKeys|
      invariant warnings == MissingKeys(md, ExpectedMetaKeys[..i])
    {
      var key := ExpectedMetaKeys[i];
      MissingKeysSnoc(md, ExpectedMetaKeys[..i], key);
      assert ExpectedMetaKeys[..i + 1] == ExpectedMetaKeys[..i] + [key];
      if key !in md {
        warnings := warnings + [MissingMetaField(key)];
      }
    }
    assert ExpectedMetaKeys[..|ExpectedMetaKeys|] == ExpectedMetaKeys;
    var url := Field(md, "url");
    if !url.JNull? && !url.JStr? {
      warnings := warnings + [UrlType(TypeName(url))];
    }
  }

  lemma MissingKeysSnoc(md: map<string, Json>, keys: seq<string>, key: string)
    ensures MissingKeys(md, keys + [key]) == MissingKeys(md, keys) + (if key in md then [] else [MissingMetaField(key)])
  {
    assert (keys + [key])[..|keys|] == keys;
  }

  /** `validate_point`: returns `(errors, warnings)`. */
  method ValidatePoint(point: map<string, Json>, expectedDim: Option<int>) returns (errors: seq<Issue>, warnings: seq<Issue>)
    ensures Report(errors, warnings) == Validation(point, expectedDim)
  {
    errors, warnings := [], [];
    var pid := Field(point, "id");
    if pid.JNull? {
      errors := errors + [MissingId];
    } else if !IsStrOrInt(pid) {
      errors := errors + [IdType(TypeName(pid))];
    }
    assert errors == IdIssues(pid);
    var vector := Field(point, "vector");
    if vector.JNull? {
      errors := errors + [MissingVector];
    } else if !vector.JArr? {
      errors := errors + [VectorType(TypeName(vector))];
    } else {
      errors := CheckVector(errors, vector.items, expectedDim);
    }
    assert errors == IdIssues(pid) + VectorIssues(vector, expectedDim);
    var payloadErrors;
    payloadErrors, warnings := CheckPayload(Field(point, "payload"));
    errors := errors + payloadErrors;
  }

  /**
   * The payload checks: a missing or non-dict payload ends the check with
   * no warning; otherwise its text, then its metadata.
   */
  method CheckPayload(payload: Json) returns (errors: seq<Issue>, warnings: seq<Issue>)
    ensures errors == PayloadIssues(payload) && warnings == PayloadWarnings(payload)
  {
    if payload.JNull? {
      return [MissingPayload], [];
    }
    if !payload.JObj? {
      return [PayloadType(TypeName(payload))], [];
    }
    var textErrors, textWarnings := CheckText(payload.fields);
    var metaErrors, metaWarnings := CheckMetadata(payload.fields);
    errors := textErrors + metaErrors;
    warnings := textWarnings + metaWarnings;
  }

  // ---------------------------------------------------------------------
  // What the checks promise
  // ---------------------------------------------------------------------

  /** Which check each issue comes from. */
  lemma IssueKinds(point: map<string, Json>, expectedDim: Option<int>)
    ensures forall x :: x in IdIssues(Field(point, "id")) ==> x.MissingId? || x.IdType?
    ensures forall x :: x in VectorIssues(Field(point, "vector"), expectedDim) ==>
      x.MissingVector? || x.VectorType? || x.VectorLength? || x.NotFinite?
    ensures forall x :: x in PayloadIssues(Field(point, "payload")) ==>
      x.MissingPayload? || x.PayloadType? || x.MissingText? || x.TextType? || x.MetadataType? || x.NoMetadata?
    ensures forall x :: x in PayloadWarnings(Field(point, "payload")) ==>
      x.BlankText? || x.MissingMetaField? || x.UrlType?
  {
    var vector := Field(point, "vector");
    if vector.JArr? {
      FiniteIssuesKind(vector.items);
    }
    var payload := Field(point, "payload");
    if payload.JObj? && MetadataView(payload.fields).Some? {
      MetaWarningsKind(MetadataView(payload.fields).value);
    }
  }

  /** A missing `id` is reported as missing; one that is neither a string nor an int by its type. */
  lemma IdChecked(point: map<string, Json>, expectedDim: Option<int>)
    ensures var r := Validation(point, expectedDim); var pid := Field(point, "id");
      (MissingId in r.errors <==> pid.JNull?) &&
      (IdType(TypeName(pid)) in r.errors <==> !pid.JNull? && !IsStrOrInt(pid)) &&
      forall t :: IdType(t) in r.errors ==> t == TypeName(pid)
  {
    IssueKinds(point, expectedDim);
  }

  /** The non-finite issue, if any, names the first offending element. */
  lemma FiniteIssuesKind(vs: seq<Json>)
    ensures |FiniteIssues(vs)| <= 1
    ensures forall i :: 0 <= i < |FiniteIssues(vs)| ==> FiniteIssues(vs)[i].NotFinite?
    ensures forall j: nat, v :: NotFinite(j, v) in FiniteIssues(vs) <==> FirstNonFinite(vs) == Some(j) && v == vs[j]
  {
  }

  /**
   * A missing or non-list `vector` is reported; a list of the wrong length,
   * when `expected_dim` is given, is reported with both lengths.
   */
  lemma VectorChecked(point: map<string, Json>, expectedDim: Option<int>)
    ensures var r := Validation(point, expectedDim); var vector := Field(point, "vector");
      (MissingVector in r.errors <==> vector.JNull?) &&
      (VectorType(TypeName(vector)) in r.errors <==> !vector.JNull? && !vector.JArr?) &&
      forall n: nat, d :: VectorLength(n, d) in r.errors <==>
        vector.JArr? && expectedDim == Some(d) && n == |vector.items| != d
  {
    IssueKinds(point, expectedDim);
    var vector := Field(point, "vector");
    if vector.JArr? {
      FiniteIssuesKind(vector.items);
    }
  }

  /**
   * The element check stops at the first element that is not a finite
   * number: there is at most one such error, and it names that element.
   */
  lemma NonFiniteReportedOnce(point: map<string, Json>, expectedDim: Option<int>)
    ensures var r := Validation(point, expectedDim); var vector := Field(point, "vector");
      (forall j: nat, v :: NotFinite(j, v) in r.errors <==>
        vector.JArr? && FirstNonFinite(vector.items) == Some(j) && v == vector.items[j]) &&
      forall i, k :: 0 <= i < k < |r.errors| ==> !(r.errors[i].NotFinite? && r.errors[k].NotFinite?)
  {
    IssueKinds(point, expectedDim);
    var r := Validation(point, expectedDim);
    var vector := Field(point, "vector");
    var ids := IdIssues(Field(point, "id"));
    var vs := VectorIssues(vector, expectedDim);
    var rest := PayloadIssues(Field(point, "payload"));
    assert forall i :: 0 <= i < |ids| ==> ids[i] in ids;
    assert forall i :: 0 <= i < |rest| ==> rest[i] in rest;
    if vector.JArr? {
      FiniteIssuesKind(vector.items);
      assert forall i :: 0 <= i < |vs| - 1 ==> !vs[i].NotFinite?;
    }
  }

  /** A missing or non-dict `payload` ends the check at once: its error is the last one and there are no warnings. */
  lemma PayloadRequired(point: map<string, Json>, expectedDim: Option<int>)
    ensures var r := Validation(point, expectedDim); var payload := Field(point, "payload");
      payload.JNull? ==> r.warnings == [] && r.errors[|r.errors| - 1] == MissingPayload
    ensures var r := Validation(point, expectedDim); var payload := Field(point, "payload");
      !payload.JNull? && !payload.JObj? ==>
        r.warnings == [] && r.errors[|r.errors| - 1] == PayloadType(TypeName(payload))
  {
  }

  /** The text checks of a dict payload. */
  lemma TextPart(p: map<string, Json>)
    ensures var text := Field(p, "text");
      (MissingText in PayloadIssues(JObj(p)) <==> text.JNull?) &&
      (TextType(TypeName(text)) in PayloadIssues(JObj(p)) <==> !text.JNull? && !text.JStr?) &&
      (BlankText in PayloadWarnings(JObj(p)) <==> text.JStr? && Blank(text.s))
  {
    if MetadataView(p).Some? {
      MetaWarningsKind(MetadataView(p).value);
    }
  }

  /**
   * Of a dict payload: a missing or non-string text is an error; a blank
   * text is a warning only.
   */
  lemma TextChecked(point: map<string, Json>, expectedDim: Option<int>)
    requires Field(point, "payload").JObj?
    ensures var r := Validation(point, expectedDim); var text := Field(Field(point, "payload").fields, "text");
      (MissingText in r.errors <==> text.JNull?) &&
      (TextType(TypeName(text)) in r.errors <==> !text.JNull? && !text.JStr?) &&
      (BlankText in r.warnings <==> text.JStr? && Blank(text.s)) &&
      BlankText !in r.errors
  {
    var p := Field(point, "payload").fields;
    TextPart(p);
    assert Validation(point, expectedDim).warnings == PayloadWarnings(JObj(p));
    PayloadErrorAt(point, expectedDim, MissingText);
    PayloadErrorAt(point, expectedDim, TextType(TypeName(Field(p, "text"))));
    PayloadErrorAt(point, expectedDim, BlankText);
    IssueKinds(point, expectedDim);
  }

  /** An issue of none of the id and vector kinds is an error exactly when the payload checks raise it. */
  lemma PayloadErrorsOnly(point: map<string, Json>, expectedDim: Option<int>)
    ensures forall x: Issue ::
      !(x.MissingId? || x.IdType? || x.MissingVector? || x.VectorType? || x.VectorLength? || x.NotFinite?) ==>
        (x in Validation(point, expectedDim).errors <==> x in PayloadIssues(Field(point, "payload")))
  {
    IssueKinds(point, expectedDim);
  }

  /** One issue of none of the id and vector kinds: an error exactly when the payload checks raise it. */
  lemma PayloadErrorAt(point: map<string, Json>, expectedDim: Option<int>, x: Issue)
    requires !(x.MissingId? || x.IdType? || x.MissingVector? || x.VectorType? || x.VectorLength? || x.NotFinite?)
    ensures x in Validation(point, expectedDim).errors <==> x in PayloadIssues(Field(point, "payload"))
  {
    PayloadErrorsOnly(point, expectedDim);
  }

  lemma MissingExpected(md: map<string, Json>)
    ensures MissingKeys(md, ExpectedMetaKeys) ==
      (if "title" in md then [] else [MissingMetaField("title")]) +
      (if "url" in md then [] else [MissingMetaField("url")]) +
      (if "external_id" in md then [] else [MissingMetaField("external_id")])
  {
    var keys := ExpectedMetaKeys;
    assert keys[..2] == ["title", "url"] && keys[..2][..1] == ["title"] && keys[..2][..1][..0] == [];
    assert MissingKeys(md, ["title"]) == (if "title" in md then [] else [MissingMetaField("title")]);
  }

  lemma ExpectedKeysDistinct()
    ensures NoDup(ExpectedMetaKeys)
  {
  }

  /** The warnings for absent keys: each key of `keys` absent from `md` is named once. */
  lemma {:induction false} MissingKeysDistinct(md: map<string, Json>, keys: seq<string>)
    requires NoDup(keys)
    ensures forall w :: w in MissingKeys(md, keys) ==> w.MissingMetaField?
    ensures forall key :: MissingMetaField(key) in MissingKeys(md, keys) <==> key in keys && key !in md
    ensures NoDup(MissingKeys(md, keys))
    decreases |keys|
  {
    if keys != [] {
      var init := keys[..|keys| - 1];
      var key := keys[|keys| - 1];
      assert keys == init + [key];
      assert NoDup(init) by {
        forall i, j | 0 <= i < j < |init| ensures init[i] != init[j] {
          assert init[i] == keys[i] && init[j] == keys[j];
        }
      }
      assert key !in init by {
        forall i | 0 <= i < |init| ensures init[i] != key {
          assert init[i] == keys[i];
        }
      }
      MissingKeysDistinct(md, init);
      NoDupConcat(MissingKeys(md, init), if key in md then [] else [MissingMetaField(key)]);
    }
  }

  /** The metadata warnings: one per expected key that is absent, in order, then one for a non-string url. */
  lemma MetaWarningsKind(md: map<string, Json>)
    ensures forall w :: w in MetaWarnings(md) ==> w.MissingMetaField? || w.UrlType?
    ensures forall key :: MissingMetaField(key) in MetaWarnings(md) <==> key in ExpectedMetaKeys && key !in md
    ensures NoDup(MetaWarnings(md))
  {
    ExpectedKeysDistinct();
    MissingKeysDistinct(md, ExpectedMetaKeys);
    var url := Field(md, "url");
    NoDupConcat(MissingKeys(md, ExpectedMetaKeys), if !url.JNull? && !url.JStr? then [UrlType(TypeName(url))] else []);
  }

  /** The metadata checks of a dict payload. */
  lemma MetadataPart(p: map<string, Json>)
    ensures "metadata" in p && !p["metadata"].JObj? ==>
      MetadataType(TypeName(p["metadata"])) in PayloadIssues(JObj(p)) && NoMetadata in PayloadIssues(JObj(p)) &&
      forall key :: MissingMetaField(key) !in PayloadWarnings(JObj(p))
    ensures forall key :: MissingMetaField(key) in PayloadWarnings(JObj(p)) <==>
      key in ExpectedMetaKeys && MetadataView(p).Some? && key !in MetadataView(p).value
    ensures forall key :: MissingMetaField(key) !in PayloadIssues(JObj(p))
    ensures NoDup(PayloadWarnings(JObj(p)))
  {
    var textWarnings := TextWarnings(Field(p, "text"));
    if MetadataView(p).Some? {
      MetaWarningsKind(MetadataView(p).value);
      NoDupConcat(textWarnings, MetaWarnings(MetadataView(p).value));
    } else {
      assert PayloadWarnings(JObj(p)) == textWarnings + [];
    }
  }

  /**
   * The metadata looked at is `payload["metadata"]` when that is a dict and
   * the rest of the payload when there is no such key; each expected key
   * absent from it is warned about exactly once, and never as an error. A
   * `metadata` that is not a dict is an error (twice: its type, then the
   * missing view) and no key is warned about.
   */
  lemma MetadataChecked(point: map<string, Json>, expectedDim: Option<int>)
    requires Field(point, "payload").JObj?
    ensures var r := Validation(point, expectedDim); var p := Field(point, "payload").fields;
      ("metadata" in p && p["metadata"].JObj? ==> MetadataView(p) == Some(p["metadata"].fields)) &&
      ("metadata" !in p ==> MetadataView(p) == Some(map k | k in p && k != "text" :: p[k])) &&
      ("metadata" in p && !p["metadata"].JObj? ==>
        MetadataType(TypeName(p["metadata"])) in r.errors && NoMetadata in r.errors &&
        forall key :: MissingMetaField(key) !in r.warnings)
    ensures var r := Validation(point, expectedDim); var view := MetadataView(Field(point, "payload").fields);
      forall key :: MissingMetaField(key) !in r.errors &&
        (MissingMetaField(key) in r.warnings <==> key in ExpectedMetaKeys && view.Some? && key !in view.value)
    ensures NoDup(Validation(point, expectedDim).warnings)
  {
    var p := Field(point, "payload").fields;
    var r := Validation(point, expectedDim);
    MetadataPart(p);
    assert r.warnings == PayloadWarnings(JObj(p));
    forall key ensures MissingMetaField(key) !in r.errors {
      PayloadErrorAt(point, expectedDim, MissingMetaField(key));
    }
    if "metadata" in p && !p["metadata"].JObj? {
      PayloadErrorAt(point, expectedDim, MetadataType(TypeName(p["metadata"])));
      PayloadErrorAt(point, expectedDim, NoMetadata);
    }
    if "metadata" !in p {
      assert p - {"text", "metadata"} == map k | k in p && k != "text" :: p[k];
    }
  }

  /** The id check passes: a string or an int. */
  predicate IdOk(pid: Json) {
    IsStrOrInt(pid)
  }

  /** The vector checks pass: a list of finite numbers, of the expected length when one is given. */
  predicate VectorOk(vector: Json, expectedDim: Option<int>) {
    vector.JArr? && (expectedDim.Some? ==> |vector.items| == expectedDim.value) &&
    forall k :: 0 <= k < |vector.items| ==> IsFiniteNumber(vector.items[k])
  }

  /**
   * The payload checks pass without a warning: a dict with a non-blank
   * text, whose metadata (nested or flat) has a title, an external id and
   * a url that is a string or null.
   */
  predicate PayloadOk(payload: Json) {
    payload.JObj? &&
    Field(payload.fields, "text").JStr? && !Blank(Field(payload.fields, "text").s) &&
    MetadataView(payload.fields).Some? &&
    var md := MetadataView(payload.fields).value;
    "title" in md && "external_id" in md && "url" in md && (md["url"].JStr? || md["url"].JNull?)
  }

  lemma PayloadClean(payload: Json)
    ensures PayloadIssues(payload) == [] && PayloadWarnings(payload) == [] <==> PayloadOk(payload)
  {
    if payload.JObj? && MetadataView(payload.fields).Some? {
      MetaWarningsKind(MetadataView(payload.fields).value);
      MissingExpected(MetadataView(payload.fields).value);
    }
  }

  /**
   * A point raises nothing, neither error nor warning, exactly when its id
   * is a string or an int, its vector a list of finite numbers of the
   * expected length, its payload a dict with a non-blank text, and its
   * metadata has a title, an external id and a url that is a string or null.
   */
  lemma CleanIffWellFormed(point: map<string, Json>, expectedDim: Option<int>)
    ensures Validation(point, expectedDim) == Report([], []) <==>
      IdOk(Field(point, "id")) && VectorOk(Field(point, "vector"), expectedDim) && PayloadOk(Field(point, "payload"))
  {
    PayloadClean(Field(point, "payload"));
    var vector := Field(point, "vector");
    if vector.JArr? {
      FiniteIssuesKind(vector.items);
    }
  }

  /**
   * A payload holding only a non-blank text: no error, and a warning for
   * each expected metadata key, in the order title, url, external id.
   */
  lemma TextOnlyPayloadWarnsAllKeys(t: string)
    requires !Blank(t)
    ensures PayloadIssues(JObj(map["text" := JStr(t)])) == []
    ensures PayloadWarnings(JObj(map["text" := JStr(t)])) ==
      [MissingMetaField("title"), MissingMetaField("url"), MissingMetaField("external_id")]
  {
    var p := map["text" := JStr(t)];
    var view := p - {"text", "metadata"};
    assert view == map[];
    MissingExpected(view);
  }
}
