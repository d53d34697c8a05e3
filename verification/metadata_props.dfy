/**
 * Properties of `extract_metadata` that relate several of its parts or pin
 * down its fallback rules on concrete shapes of input.
 */
module MetadataProperties {
  import opened Wrappers
  import opened Strings
  import opened Json
  import opened Lists
  import opened MetadataExtract

  /** The optional values of well-formed metadata are non-empty stripped strings. */
  lemma OptionalValuesClean(m: Metadata, k: string)
    requires m.WellFormed()
    ensures Clean(m.Optional(k))
  {
  }

  /**
   * The dict always has the five required keys, lists as arrays; an optional
   * key is present exactly when its value was found, and then holds a
   * non-empty stripped string.
   */
  lemma MetadataDictShape(doc: map<string, Json>)
    requires MetadataOf(doc).Ok?
    ensures var m := MetadataOf(doc).value; var d := m.ToJson();
      RequiredKeys <= d.Keys <= RequiredKeys + OptionalKeys &&
      d["sections"].JArr? && d["categories"].JArr? && d["tags"].JArr? &&
      (forall k :: k in OptionalKeys ==> (k in d <==> m.Optional(k).Some?)) &&
      (forall k :: k in OptionalKeys && k in d ==>
         d[k].JStr? && d[k].s != [] && Stripped(d[k].s))
  {
    var m := MetadataOf(doc).value;
    forall k | k in OptionalKeys ensures Clean(m.Optional(k)) {
      OptionalValuesClean(m, k);
    }
  }

  // ---------------------------------------------------------------------
  // Dates
  // ---------------------------------------------------------------------

  /** A clean text ending ".000Z" has every ".000Z" replaced by "Z". */
  lemma NormalizeMillis(s: string)
    requires s != [] && Stripped(s) && EndsWith(s, MillisSuffix)
    ensures NormalizeIso8601(JStr(s)) == Some(ReplaceAll(s, MillisSuffix, "Z"))
  {
    assert NormalizeOptionalStr(JStr(s)) == Some(s);
  }

  /** A stripped date followed by a suffix ending in 'Z' is stripped and ends with that suffix. */
  lemma DateWithSuffix(d: string, t: string)
    requires Stripped(d) && t != [] && t[|t| - 1] == 'Z' && t[0] == '.'
    ensures var s := d + t; s != [] && Stripped(s) && EndsWith(s, t)
  {
    var s := d + t;
    assert s[|s| - 1] == 'Z' && !IsSpace('Z') && !IsSpace('.');
    assert s[0] == (if d != [] then d[0] else '.');
    assert s[|s| - |t|..] == t;
  }

  /** A date ending ".000Z" (with no other '.') loses its milliseconds. */
  lemma MillisecondsDropped(d: string)
    requires '.' !in d && Stripped(d)
    ensures NormalizeIso8601(JStr(d + MillisSuffix)) == Some(d + "Z")
  {
    DateWithSuffix(d, MillisSuffix);
    NormalizeMillis(d + MillisSuffix);
    ReplaceAllPlainPrefix(d, MillisSuffix, MillisSuffix, "Z");
    ReplaceAllWhole(MillisSuffix, "Z");
  }

  lemma MillisecondsDroppedExample()
    ensures NormalizeIso8601(JStr("2025-07-02T00:00:00.000Z")) == Some("2025-07-02T00:00:00Z")
  {
    var d := "2025-07-02T00:00:00";
    assert '.' !in d by { assert forall i :: 0 <= i < |d| ==> d[i] != '.'; }
    assert Stripped(d);
    assert d + MillisSuffix == "2025-07-02T00:00:00.000Z";
    assert d + "Z" == "2025-07-02T00:00:00Z";
    MillisecondsDropped(d);
  }

  /** A normalised date that does not end in ".000Z" is normalised to itself. */
  lemma RenormalizeKeeps(p: Option<string>)
    requires Clean(p)
    requires p.Some? ==> !EndsWith(p.value, MillisSuffix)
    ensures NormalizeIso8601(OptJson(p)) == p
  {
  }

  /**
   * Without their own value, `datetime` and `first_publish_date` repeat the
   * publish date, unless a second pass of the ".000Z" replacement changes it.
   */
  lemma DatesDefaultToPublishDate(doc: map<string, Json>, addl: Json)
    requires DatesOf(doc, addl).Ok?
    requires var p := DatesOf(doc, addl).value.publishDate;
      p.Some? ==> !EndsWith(p.value, MillisSuffix)
    ensures var r := DatesOf(doc, addl).value;
      (!Truthy(Field(addl.fields, "datetime")) ==> r.datetime == r.publishDate) &&
      (!Truthy(Field(addl.fields, "first_publish_date")) ==> r.firstPublishDate == r.publishDate)
  {
    RenormalizeKeeps(DatesOf(doc, addl).value.publishDate);
  }

  /** ".000.000Z" is rewritten once, to ".000Z": only its final ".000Z" matches. */
  lemma InnerMillisKept()
    ensures ReplaceAll(".000" + MillisSuffix, MillisSuffix, "Z") == MillisSuffix
  {
    var t := ".000" + MillisSuffix;
    assert !StartsWith(t, MillisSuffix) by { assert t[4] == '.'; }
    assert t[1..] == "000" + MillisSuffix;
    ReplaceAllPlainPrefix("000", MillisSuffix, MillisSuffix, "Z");
    ReplaceAllWhole(MillisSuffix, "Z");
    assert "." + ("000" + "Z") == MillisSuffix;
  }

  lemma DoubleMillisEndsWithMillis()
    ensures EndsWith(".000" + MillisSuffix, MillisSuffix)
  {
    assert (".000" + MillisSuffix)[4..] == MillisSuffix;
  }

  lemma EndsWithAppend(d: string, t: string, p: string)
    requires EndsWith(t, p)
    ensures EndsWith(d + t, p)
  {
    assert (d + t)[|d + t| - |p|..] == t[|t| - |p|..];
  }

  /** "d.000.000Z" as a publish date keeps its inner ".000". */
  lemma DoubleMillisOnce(d: string)
    requires '.' !in d && Stripped(d) && d != []
    ensures NormalizeIso8601(JStr(d + (".000" + MillisSuffix))) == Some(d + MillisSuffix)
  {
    var t := ".000" + MillisSuffix;
    DateWithSuffix(d, t);
    DoubleMillisEndsWithMillis();
    EndsWithAppend(d, t, MillisSuffix);
    NormalizeMillis(d + t);
    ReplaceAllPlainPrefix(d, t, MillisSuffix, "Z");
    InnerMillisKept();
  }

  /**
   * The second pass is not idle: "a.000.000Z" becomes "a.000Z" as the publish
   * date, and "aZ" as the datetime derived from it.
   */
  lemma DatetimeRenormalized(d: string)
    requires '.' !in d && Stripped(d) && d != []
    ensures NormalizeIso8601(JStr(d + (".000" + MillisSuffix))) == Some(d + MillisSuffix)
    ensures NormalizeIso8601(OptJson(Some(d + MillisSuffix))) == Some(d + "Z")
  {
    DoubleMillisOnce(d);
    MillisecondsDropped(d);
  }

  // ---------------------------------------------------------------------
  // external_id and url
  // ---------------------------------------------------------------------

  /** The last fallback is converted even when falsy: `id: 0` gives "0". */
  lemma ZeroIdIsKept()
    ensures ExternalId(map["id" := JInt(0)]) == Some("0")
  {
    assert Field(map["id" := JInt(0)], "_id") == JNull;
    assert Field(map["id" := JInt(0)], "external_id") == JNull;
  }

  /** A truthy explicit `url` wins over every other source. */
  lemma ExplicitUrlWins(doc: map<string, Json>)
    requires MetadataOf(doc).Ok? && Truthy(Field(doc, "url"))
    ensures MetadataOf(doc).value.url == NormalizeOptionalStr(Field(doc, "url"))
  {
  }

  /**
   * Without an explicit url, a site path starting with "/" is joined to the
   * base URL of the site ("nj" here); `MetadataOf` takes its url from
   * `ResolveUrl` on this site data and base URL.
   */
  lemma NjPathGetsBaseUrl(doc: map<string, Json>, path: string)
    requires !Truthy(Field(doc, "url"))
    requires Field(doc, "websites").JObj? && "nj" in Field(doc, "websites").fields
    requires var site := Field(doc, "websites").fields["nj"];
      site.JObj? && Field(site.fields, "website_url") == JStr(path)
    requires StartsWith(path, "/") && Stripped(path)
    ensures var site := Field(doc, "websites").fields["nj"];
      WebsiteData(doc, Some("nj")) == Ok(site) &&
      ResolveUrl(doc, site, BaseUrl(Some("nj"))) == Ok(Some(NjBase + path))
  {
    var site := Field(doc, "websites").fields["nj"];
    assert Or(Field(doc, "websites"), EmptyObj) == Field(doc, "websites");
    assert BaseUrl(Some("nj")) == NjBase;
    SitePathGetsBaseUrl(doc, site, NjBase, path);
  }

  /** The url rule for any site path starting with "/" and any non-empty base URL. */
  lemma SitePathGetsBaseUrl(doc: map<string, Json>, site: Json, base: string, path: string)
    requires !Truthy(Field(doc, "url"))
    requires site.JObj? && Field(site.fields, "website_url") == JStr(path)
    requires base != "" && Stripped(base)
    requires StartsWith(path, "/") && Stripped(path)
    ensures ResolveUrl(doc, site, base) == Ok(Some(base + path))
  {
    var joined := base + path;
    assert joined[0] == base[0] && joined[|joined| - 1] == path[|path| - 1];
    assert Stripped(joined);
    assert Get(site, "website_url") == Ok(JStr(path));
  }

  // ---------------------------------------------------------------------
  // lists
  // ---------------------------------------------------------------------

  /** Taxonomy slugs are appended as found: the same slug twice is kept twice. */
  lemma TaxonomySlugsMayRepeat(s: string)
    requires s != [] && Stripped(s)
    ensures var t := JObj(map["slug" := JStr(s)]);
      Slugs([], [t, t]) == Ok([s, s])
  {
    var t := JObj(map["slug" := JStr(s)]);
    assert Get(t, "slug") == Ok(JStr(s));
    assert OptSeq(NormalizeOptionalStr(JStr(s))) == [s];
    assert [t, t][0] == t && [t, t][1..] == [t];
    assert [t][0] == t && [t][1..] == [];
    assert Slugs([s, s], []) == Ok([s, s]);
    assert [s] + [s] == [s, s] && [] + [s] == [s];
    assert Slugs([s], [t]) == Slugs([s, s], []);
    assert Slugs([], [t, t]) == Slugs([s], [t]);
  }

  /** The direct lists add, after what was found first, each new value once, in first-seen order. */
  lemma DirectValuesAppendedOnce(found: seq<string>, direct: seq<string>)
    ensures var r := AppendNew(found, direct);
      |found| <= |r| && r[..|found|] == found &&
      (forall z :: z in direct ==> z in r) &&
      (forall i :: |found| <= i < |r| ==> r[i] in direct && r[i] !in found) &&
      (forall i, j :: |found| <= i < j < |r| ==> r[i] != r[j] && IndexOf(direct, r[i]) < IndexOf(direct, r[j]))
  {
    AppendNewExtends(found, direct);
    AppendNewFirstSeenOrder(found, direct);
    var r := AppendNew(found, direct);
    forall i | |found| <= i < |r| ensures r[i] in direct && r[i] !in found {
      AppendNewAdded(found, direct, i);
    }
  }
}
