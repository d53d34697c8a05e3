/**
 * `extract_metadata` (transformers.py): resolves the fields of the vector
 * store's metadata from a raw document through chains of fallbacks, builds
 * the `sections`, `tags` and `categories` lists without repeating what they
 * already hold, and leaves out the optional keys that are empty.
 *
 * The functions below state what each part of the source computes; the
 * methods at the end run the source's loops and are proved to agree.
 */
module MetadataExtract {
  import opened Wrappers
  import opened Strings
  import opened Json
  import opened Lists

  // ---------------------------------------------------------------------
  // The result
  // ---------------------------------------------------------------------

  /** The metadata of one document; `None` is a key that is left out (or None when required). */
  datatype Metadata = Metadata(
    externalId: Option<string>,
    url: Option<string>,
    sections: seq<string>,
    categories: seq<string>,
    tags: seq<string>,
    title: Option<string>,
    website: Option<string>,
    publishDate: Option<string>,
    datetime: Option<string>,
    firstPublishDate: Option<string>,
    thumb: Option<string>)
  {
    /** The value of an optional key, as the source computed it. */
    function Optional(key: string): Option<string> {
      if key == "title" then title
      else if key == "website" then website
      else if key == "publish_date" then publishDate
      else if key == "datetime" then datetime
      else if key == "first_publish_date" then firstPublishDate
      else if key == "thumb" then thumb
      else None
    }

    /** The dict the source returns: the required keys always, an optional key only when it is set. */
    function ToJson(): (d: map<string, Json>)
      ensures RequiredKeys <= d.Keys <= RequiredKeys + OptionalKeys
      ensures d["external_id"] == OptJson(externalId) && d["url"] == OptJson(url)
      ensures d["sections"] == StrArray(sections)
      ensures d["categories"] == StrArray(categories)
      ensures d["tags"] == StrArray(tags)
      ensures forall k :: k in OptionalKeys ==> (k in d <==> Optional(k).Some?)
      ensures forall k :: k in OptionalKeys && k in d ==> d[k] == JStr(Optional(k).value)
    {
      var optional := map k | k in OptionalKeys && Optional(k).Some? :: JStr(Optional(k).value);
      var required := map[
        "external_id" := OptJson(externalId),
        "url" := OptJson(url),
        "sections" := StrArray(sections),
        "categories" := StrArray(categories),
        "tags" := StrArray(tags)];
      assert required.Keys == RequiredKeys;
      assert RequiredKeys !! OptionalKeys;
      optional + required
    }

    /** Every optional value is a non-empty stripped string; lists hold such strings; sections never repeat. */
    predicate WellFormed() {
      Clean(title) && Clean(website) && Clean(publishDate) && Clean(datetime) &&
      Clean(firstPublishDate) && Clean(thumb) && Clean(url) &&
      CleanList(sections) && CleanList(tags) && CleanList(categories) &&
      NoDup(sections)
    }
  }

  const RequiredKeys: set<string> := {"external_id", "url", "sections", "categories", "tags"}
  const OptionalKeys: set<string> :=
    {"title", "website", "publish_date", "datetime", "first_publish_date", "thumb"}

  predicate Clean(o: Option<string>) {
    o.Some? ==> o.value != [] && Stripped(o.value)
  }

  predicate CleanList(xs: seq<string>) {
    forall i :: 0 <= i < |xs| ==> xs[i] != [] && Stripped(xs[i])
  }

  // ---------------------------------------------------------------------
  // The nested helpers
  // ---------------------------------------------------------------------

  /** `normalize_optional_str`: None and "" are absent; otherwise `str(value).strip()`, absent if empty. */
  function NormalizeOptionalStr(v: Json): (r: Option<string>)
    ensures Clean(r)
    ensures v == JNull ==> r.None?
    ensures v.JStr? && Stripped(v.s) ==> r == (if v.s == [] then None else Some(v.s))
    ensures v.JStr? ==> (r.None? <==> forall i :: 0 <= i < |v.s| ==> IsSpace(v.s[i]))
  {
    if v == JNull || v == JStr("") then None
    else
      var s := Strip(PyStr(v));
      StripEmptyIffAllSpace(PyStr(v));
      assert v.JStr? && Stripped(v.s) ==> Strip(v.s) == v.s by {
        if v.JStr? && Stripped(v.s) { StripStripped(v.s); }
      }
      if s == [] then None else Some(s)
  }

  const MillisSuffix := ".000Z"

  /** `normalize_iso8601`: as `normalize_optional_str`, then every ".000Z" is replaced by "Z" when the text ends with it. */
  function NormalizeIso8601(v: Json): (r: Option<string>)
    ensures Clean(r)
    ensures NormalizeOptionalStr(v).None? <==> r.None?
    ensures r.Some? && !EndsWith(NormalizeOptionalStr(v).value, MillisSuffix) ==> r == NormalizeOptionalStr(v)
  {
    var s := NormalizeOptionalStr(v);
    if s.None? then None
    else if EndsWith(s.value, MillisSuffix) then
      var t := ReplaceAll(s.value, MillisSuffix, "Z");
      assert !IsSpace('Z');
      Some(t)
    else s
  }

  /** `[normalize_optional_str(v) for v in xs]` without the absent ones. */
  function NormalizedItems(xs: seq<Json>): (r: seq<string>)
    ensures CleanList(r)
    ensures |r| <= |xs|
  {
    if xs == [] then []
    else
      var h := NormalizeOptionalStr(xs[0]);
      var rest := NormalizedItems(xs[1..]);
      CleanPrepend(h, rest);
      (if h.Some? then [h.value] else []) + rest
  }

  lemma CleanPrepend(h: Option<string>, rest: seq<string>)
    requires Clean(h) && CleanList(rest)
    ensures CleanList((if h.Some? then [h.value] else []) + rest)
  {
    var r := (if h.Some? then [h.value] else []) + rest;
    forall i | 0 <= i < |r| ensures r[i] != [] && Stripped(r[i]) {
      if h.Some? && i == 0 {
      } else {
        assert r[i] == rest[if h.Some? then i - 1 else i];
      }
    }
  }

  /** `normalize_str_list`: [] when falsy, the normalised items of a list, or a single normalised value. */
  function NormalizeStrList(v: Json): (r: seq<string>)
    ensures CleanList(r)
    ensures !Truthy(v) ==> r == []
    ensures v.JArr? ==> r == NormalizedItems(v.items)
    ensures !v.JArr? && Truthy(v) ==> |r| <= 1
  {
    if !Truthy(v) then []
    else if v.JArr? then NormalizedItems(v.items)
    else
      var single := NormalizeOptionalStr(v);
      if single.Some? then [single.value] else []
  }

  // ---------------------------------------------------------------------
  // external_id, website and url
  // ---------------------------------------------------------------------

  /** `_id or external_id or id`, as `str()`, or None when that is None. */
  function ExternalId(doc: map<string, Json>): (r: Option<string>)
    ensures Truthy(Field(doc, "_id")) ==> r == Some(PyStr(Field(doc, "_id")))
    ensures !Truthy(Field(doc, "_id")) && Truthy(Field(doc, "external_id")) ==>
              r == Some(PyStr(Field(doc, "external_id")))
    ensures !Truthy(Field(doc, "_id")) && !Truthy(Field(doc, "external_id")) ==>
              r == (if Field(doc, "id") == JNull then None else Some(PyStr(Field(doc, "id"))))
  {
    var raw := Or(Or(Field(doc, "_id"), Field(doc, "external_id")), Field(doc, "id"));
    if raw == JNull then None else Some(PyStr(raw))
  }

  function Website(doc: map<string, Json>): (r: Option<string>)
    ensures Clean(r)
  {
    NormalizeOptionalStr(Or(Field(doc, "website"), Field(doc, "canonical_website")))
  }

  const NjBase := "https://www.nj.com"
  const LehighValleyLiveBase := "https://www.lehighvalleylive.com"

  /** The base URL of the two known sites; "" for any other site or none. */
  function BaseUrl(website: Option<string>): (r: string)
    ensures r != "" <==> website == Some("nj") || website == Some("lehighvalleylive")
    ensures r != "" ==> Stripped(r)
  {
    if website == Some("nj") then NjBase
    else if website == Some("lehighvalleylive") then LehighValleyLiveBase
    else ""
  }

  /** `(doc.get("websites") or {}).get(website, {})` when a website is known, else {}. */
  function WebsiteData(doc: map<string, Json>, website: Option<string>): (r: Result<Json, Failure>)
    ensures website.None? ==> r == Ok(EmptyObj)
    ensures r.Err? ==> website.Some? && Truthy(Field(doc, "websites")) && !Field(doc, "websites").JObj?
  {
    if website.None? then Ok(EmptyObj)
    else GetOr(Or(Field(doc, "websites"), EmptyObj), website.value, EmptyObj)
  }

  /**
   * The url: an explicit truthy `url` wins; otherwise the first truthy of
   * `website_url` (site data, then document) and `canonical_url`, with the
   * base URL put in front of a path that starts with "/" when there is one.
   */
  function ResolveUrl(doc: map<string, Json>, websiteData: Json, baseUrl: string): (r: Result<Option<string>, Failure>)
    ensures Truthy(Field(doc, "url")) ==> r == Ok(NormalizeOptionalStr(Field(doc, "url")))
    ensures r.Ok? ==> Clean(r.value)
  {
    var raw := Field(doc, "url");
    if Truthy(raw) then Ok(NormalizeOptionalStr(raw))
    else
      var fromSite :- Get(websiteData, "website_url");
      var websiteUrl := Or(Or(Or(fromSite, Field(doc, "website_url")), Field(doc, "canonical_url")), JStr(""));
      if baseUrl != "" && websiteUrl.JStr? && StartsWith(websiteUrl.s, "/") then
        Ok(NormalizeOptionalStr(JStr(baseUrl + websiteUrl.s)))
      else
        Ok(NormalizeOptionalStr(if Truthy(websiteUrl) then websiteUrl else JNull))
  }

  // ---------------------------------------------------------------------
  // title and dates
  // ---------------------------------------------------------------------

  /** `headlines.basic`, then `headline`, then `title`. */
  function Title(doc: map<string, Json>): (r: Result<Option<string>, Failure>)
    ensures r.Ok? ==> Clean(r.value)
  {
    var basic :- Get(Or(Field(doc, "headlines"), EmptyObj), "basic");
    Ok(NormalizeOptionalStr(Or(Or(basic, Field(doc, "headline")), Field(doc, "title"))))
  }

  /**
   * The title is the first truthy of `headlines.basic` (when `headlines` is
   * a dict), `headline` and `title`, normalised; a truthy `headlines` that
   * is not a dict raises.
   */
  lemma TitleChain(doc: map<string, Json>)
    ensures var h := Field(doc, "headlines");
      Truthy(h) && !h.JObj? ==> Title(doc) == Err(Malformed)
    ensures var h := Field(doc, "headlines");
      var basic := if h.JObj? then Field(h.fields, "basic") else JNull;
      h.JObj? || !Truthy(h) ==>
        Title(doc) == Ok(NormalizeOptionalStr(
          if Truthy(basic) then basic
          else if Truthy(Field(doc, "headline")) then Field(doc, "headline")
          else Field(doc, "title")))
  {
    var h := Field(doc, "headlines");
    if h.JObj? || !Truthy(h) {
      var basic := if h.JObj? then Field(h.fields, "basic") else JNull;
      assert Get(Or(h, EmptyObj), "basic") == Ok(basic);
      assert Or(Or(basic, Field(doc, "headline")), Field(doc, "title")) ==
        if Truthy(basic) then basic
        else if Truthy(Field(doc, "headline")) then Field(doc, "headline")
        else Field(doc, "title");
    }
  }

  datatype Dates = Dates(publishDate: Option<string>, datetime: Option<string>, firstPublishDate: Option<string>)

  /**
   * `publish_date` from `additional_properties` or `created_date`;
   * `datetime` and `first_publish_date` from `additional_properties`, each
   * falling back to the (already normalised) publish date, normalised again.
   */
  function DatesOf(doc: map<string, Json>, addl: Json): (r: Result<Dates, Failure>)
    ensures r.Ok? <==> addl.JObj?
    ensures r.Ok? ==> Clean(r.value.publishDate) && Clean(r.value.datetime) && Clean(r.value.firstPublishDate)
    ensures r.Ok? && !Truthy(Field(addl.fields, "datetime")) ==>
              r.value.datetime == NormalizeIso8601(OptJson(r.value.publishDate))
    ensures r.Ok? && !Truthy(Field(addl.fields, "first_publish_date")) ==>
              r.value.firstPublishDate == NormalizeIso8601(OptJson(r.value.publishDate))
  {
    if !addl.JObj? then Err(Malformed)
    else
      var a := addl.fields;
      var publish := NormalizeIso8601(Or(Field(a, "publish_date"), Field(doc, "created_date")));
      Ok(Dates(publish,
               NormalizeIso8601(Or(Field(a, "datetime"), OptJson(publish))),
               NormalizeIso8601(Or(Field(a, "first_publish_date"), OptJson(publish)))))
  }

  // ---------------------------------------------------------------------
  // sections, tags, categories
  // ---------------------------------------------------------------------

  function OptSeq(o: Option<string>): seq<string> {
    if o.Some? then [o.value] else []
  }

  /** Appending the new items of a clean list to a clean list keeps it clean. */
  lemma AppendNewClean(acc: seq<string>, xs: seq<string>)
    requires CleanList(acc) && CleanList(xs)
    ensures CleanList(AppendNew(acc, xs))
    ensures NoDup(acc) ==> NoDup(AppendNew(acc, xs))
  {
    AppendNewExtends(acc, xs);
    var r := AppendNew(acc, xs);
    forall i | 0 <= i < |r|
      ensures r[i] != [] && Stripped(r[i])
    {
      assert r[i] in r;
      if r[i] in acc {
        var j :| 0 <= j < |acc| && acc[j] == r[i];
      } else {
        var j :| 0 <= j < |xs| && xs[j] == r[i];
      }
    }
  }

  /** The section name of the site data, then its `site_section` unless it is the same. */
  function SiteSections(websiteData: Json): (r: Result<seq<string>, Failure>)
    ensures r.Ok? ==> NoDup(r.value) && CleanList(r.value) && |r.value| <= 2
  {
    var section :- Get(websiteData, "website_section");
    var ws := Or(section, EmptyObj);
    if !ws.JObj? then Err(Malformed)
    else
      var first := OptSeq(NormalizeOptionalStr(Field(ws.fields, "name")));
      var original :- Get(Or(Field(ws.fields, "additional_properties"), EmptyObj), "original");
      var site :- GetOr(Or(original, EmptyObj), "site", EmptyObj);
      var siteSection :- Get(site, "site_section");
      Ok(AddSection(first, NormalizeOptionalStr(siteSection)))
  }

  /** `first` followed by `ss` when it is present and not already there. */
  function AddSection(first: seq<string>, ss: Option<string>): (r: seq<string>)
    requires |first| <= 1 && CleanList(first) && Clean(ss)
    ensures NoDup(r) && CleanList(r) && |r| <= 2
    ensures forall z :: z in r <==> z in first || (ss.Some? && z == ss.value)
  {
    if ss.Some? && ss.value !in first then first + [ss.value] else first
  }

  /** The sections of the site data, then the direct `sections` not yet present. */
  function SectionsOf(doc: map<string, Json>, websiteData: Json): (r: Result<seq<string>, Failure>)
    ensures r.Ok? ==> NoDup(r.value) && CleanList(r.value)
  {
    var found :- SiteSections(websiteData);
    var direct := NormalizeStrList(Field(doc, "sections"));
    AppendNewClean(found, direct);
    Ok(AppendNew(found, direct))
  }

  /** The loop over `taxonomy.tags`: each item's normalised `slug`, appended as found (repeats kept). */
  function Slugs(acc: seq<string>, items: seq<Json>): (r: Result<seq<string>, Failure>)
    requires CleanList(acc)
    ensures r.Ok? ==> CleanList(r.value)
    ensures r.Err? <==> exists i :: 0 <= i < |items| && !items[i].JObj?
    decreases |items|
  {
    if items == [] then Ok(acc)
    else
      var slug :- Get(items[0], "slug");
      var r := Slugs(acc + OptSeq(NormalizeOptionalStr(slug)), items[1..]);
      assert forall i :: 1 <= i < |items| ==> items[i] == items[1..][i - 1];
      r
  }

  /** Python's iteration of `x or []` where each item must be a dict: anything but a list raises. */
  function TaxonomyTags(doc: map<string, Json>): (r: Result<seq<string>, Failure>)
    ensures r.Ok? ==> CleanList(r.value)
  {
    var taxonomy := if "taxonomy" in doc then doc["taxonomy"] else EmptyObj;
    var tags :- Get(taxonomy, "tags");
    var items := Or(tags, JArr([]));
    if !items.JArr? then Err(Malformed)
    else Slugs([], items.items)
  }

  function TagsOf(doc: map<string, Json>): (r: Result<seq<string>, Failure>)
    ensures r.Ok? ==> CleanList(r.value)
  {
    var fromTaxonomy :- TaxonomyTags(doc);
    AppendNewClean(fromTaxonomy, NormalizeStrList(Field(doc, "tags")));
    Ok(AppendNew(fromTaxonomy, NormalizeStrList(Field(doc, "tags"))))
  }

  const CategoryPrefix := "Category name:"

  /** One IAB entry: a non-empty list whose first item reads "Category name: X" gives X stripped, if non-empty. */
  function IabCategory(entry: Json): (r: Option<string>)
    ensures Clean(r)
    ensures r.Some? ==> entry.JArr? && entry.items != [] && StartsWith(PyStr(entry.items[0]), CategoryPrefix)
    ensures r.Some? ==> r.value == Strip(PyStr(entry.items[0])[|CategoryPrefix|..])
    ensures (entry.JArr? && entry.items != [] && StartsWith(PyStr(entry.items[0]), CategoryPrefix) &&
             Strip(PyStr(entry.items[0])[|CategoryPrefix|..]) != []) ==> r.Some?
  {
    if !Truthy(entry) || !entry.JArr? then None
    else
      var heading := PyStr(entry.items[0]);
      if StartsWith(heading, CategoryPrefix) then
        var c := Strip(heading[|CategoryPrefix|..]);
        if c != [] then Some(c) else None
      else None
  }

  /** The loop over the IAB entries, skipping those that give nothing. */
  function IabCategories(acc: seq<string>, entries: seq<Json>): (r: seq<string>)
    requires CleanList(acc)
    ensures CleanList(r)
    decreases |entries|
  {
    if entries == [] then acc
    else IabCategories(acc + OptSeq(IabCategory(entries[0])), entries[1..])
  }

  /**
   * Iterating `iab_taxonomy or []`: a list yields its entries; a string or a
   * dict yields strings, all skipped; a number or a bool raises.
   */
  function IabEntries(v: Json): (r: Result<seq<Json>, Failure>)
    ensures !Truthy(v) ==> r == Ok([])
    ensures r.Err? <==> Truthy(v) && (v.JInt? || v.JFloat? || v.JBool?)
  {
    if !Truthy(v) then Ok([])
    else if v.JArr? then Ok(v.items)
    else if v.JStr? || v.JObj? then Ok([])
    else Err(Malformed)
  }

  function CategoriesOf(doc: map<string, Json>, addl: Json): (r: Result<seq<string>, Failure>)
    ensures r.Ok? ==> CleanList(r.value)
  {
    var productCats :- Get(addl, "product_categories");
    var iab :- Get(Or(productCats, EmptyObj), "iab_taxonomy");
    var entries :- IabEntries(iab);
    var fromIab := IabCategories([], entries);
    AppendNewClean(fromIab, NormalizeStrList(Field(doc, "categories")));
    Ok(AppendNew(fromIab, NormalizeStrList(Field(doc, "categories"))))
  }

  // ---------------------------------------------------------------------
  // thumb
  // ---------------------------------------------------------------------

  /** A thumbnail path: the base URL goes in front of a path starting with "/" when there is one. */
  function ThumbUrl(rel: string, baseUrl: string): (r: string)
    requires rel != [] && Stripped(rel)
    requires baseUrl != "" ==> Stripped(baseUrl)
    ensures r != [] && Stripped(r)
    ensures EndsWith(r, rel)
  {
    var r := if StartsWith(rel, "/") && baseUrl != "" then baseUrl + rel else rel;
    assert r[|r| - |rel|..] == rel;
    r
  }

  /**
   * The first `image` element with a usable `thumbnailResizeUrl`; the scan
   * stops there, so elements after it are never looked at.
   */
  function FirstThumb(elements: seq<Json>, baseUrl: string): (r: Result<Option<string>, Failure>)
    requires baseUrl != "" ==> Stripped(baseUrl)
    ensures r.Ok? ==> Clean(r.value)
    decreases |elements|
  {
    if elements == [] then Ok(None)
    else
      var kind :- Get(elements[0], "type");
      if kind != JStr("image") then FirstThumb(elements[1..], baseUrl)
      else
        var extra :- Get(elements[0], "additional_properties");
        var rel :- Get(Or(extra, EmptyObj), "thumbnailResizeUrl");
        var t := NormalizeOptionalStr(rel);
        if t.Some? then Ok(Some(ThumbUrl(t.value, baseUrl)))
        else FirstThumb(elements[1..], baseUrl)
  }

  /** The first image's thumbnail, else the document's own `thumb`. */
  function ThumbOf(doc: map<string, Json>, baseUrl: string): (r: Result<Option<string>, Failure>)
    requires baseUrl != "" ==> Stripped(baseUrl)
    ensures r.Ok? ==> Clean(r.value)
  {
    var elements := Or(Field(doc, "content_elements"), JArr([]));
    if !elements.JArr? then Err(Malformed)
    else
      var found :- FirstThumb(elements.items, baseUrl);
      if found.Some? then Ok(found) else Ok(NormalizeOptionalStr(Field(doc, "thumb")))
  }

  /** `element.get("additional_properties") or {}` is a dict: the value is a dict or falsy. */
  predicate PlainExtras(extra: Json) {
    extra.JObj? || !Truthy(extra)
  }

  /** The normalised `thumbnailResizeUrl` of an image's `additional_properties`. */
  function ResizeUrl(extra: Json): (u: Option<string>)
    requires PlainExtras(extra)
    ensures Clean(u)
  {
    NormalizeOptionalStr(if extra.JObj? then Field(extra.fields, "thumbnailResizeUrl") else JNull)
  }

  /** Element `e` is an image whose `thumbnailResizeUrl` normalises to `u`. */
  predicate ImageThumb(e: Json, u: string) {
    e.JObj? && Field(e.fields, "type") == JStr("image") &&
    PlainExtras(Field(e.fields, "additional_properties")) &&
    ResizeUrl(Field(e.fields, "additional_properties")) == Some(u)
  }

  /** Element `e` is a dict the search passes over: not an image, or an image without a usable `thumbnailResizeUrl`. */
  predicate PassedOver(e: Json) {
    e.JObj? &&
    (Field(e.fields, "type") != JStr("image") ||
     (PlainExtras(Field(e.fields, "additional_properties")) &&
      ResizeUrl(Field(e.fields, "additional_properties")).None?))
  }

  /** One element of the search: one passed over leaves the rest to decide; an image with a usable URL ends it. */
  lemma FirstThumbStep(elements: seq<Json>, baseUrl: string, u: string)
    requires baseUrl != "" ==> Stripped(baseUrl)
    requires elements != []
    ensures PassedOver(elements[0]) ==> FirstThumb(elements, baseUrl) == FirstThumb(elements[1..], baseUrl)
    ensures ImageThumb(elements[0], u) ==> FirstThumb(elements, baseUrl) == Ok(Some(ThumbUrl(u, baseUrl)))
  {
    var e := elements[0];
    if e.JObj? && Field(e.fields, "type") == JStr("image") {
      var extra := Field(e.fields, "additional_properties");
      if PlainExtras(extra) {
        assert Get(Or(extra, EmptyObj), "thumbnailResizeUrl") ==
          Ok(if extra.JObj? then Field(extra.fields, "thumbnailResizeUrl") else JNull);
      }
    }
  }

  /** The first image with a usable `thumbnailResizeUrl` gives the thumbnail, joined to the base URL. */
  lemma {:induction false} FirstThumbFound(elements: seq<Json>, baseUrl: string, k: nat, u: string)
    requires baseUrl != "" ==> Stripped(baseUrl)
    requires k < |elements| && ImageThumb(elements[k], u)
    requires forall i :: 0 <= i < k ==> PassedOver(elements[i])
    ensures u != [] && Stripped(u)
    ensures FirstThumb(elements, baseUrl) == Ok(Some(ThumbUrl(u, baseUrl)))
    decreases k
  {
    FirstThumbStep(elements, baseUrl, u);
    if k > 0 {
      var tail := elements[1..];
      assert tail[k - 1] == elements[k];
      forall i | 0 <= i < k - 1 ensures PassedOver(tail[i]) {
        assert tail[i] == elements[i + 1];
      }
      FirstThumbFound(tail, baseUrl, k - 1, u);
    }
  }

  /** When every element is passed over, the search finds nothing. */
  lemma {:induction false} FirstThumbNone(elements: seq<Json>, baseUrl: string)
    requires baseUrl != "" ==> Stripped(baseUrl)
    requires forall i :: 0 <= i < |elements| ==> PassedOver(elements[i])
    ensures FirstThumb(elements, baseUrl) == Ok(None)
    decreases |elements|
  {
    if elements != [] {
      assert PassedOver(elements[0]);
      FirstThumbStep(elements, baseUrl, "");
      FirstThumbNone(elements[1..], baseUrl);
    }
  }

  /** The thumbnail of the first image with a usable `thumbnailResizeUrl` wins over the flat `thumb`. */
  lemma ThumbFromImage(doc: map<string, Json>, baseUrl: string, k: nat, u: string)
    requires baseUrl != "" ==> Stripped(baseUrl)
    requires var els := Field(doc, "content_elements");
      els.JArr? && k < |els.items| && ImageThumb(els.items[k], u) &&
      forall i :: 0 <= i < k ==> PassedOver(els.items[i])
    ensures u != [] && Stripped(u)
    ensures ThumbOf(doc, baseUrl) == Ok(Some(ThumbUrl(u, baseUrl)))
  {
    var els := Field(doc, "content_elements");
    FirstThumbFound(els.items, baseUrl, k, u);
    assert Truthy(els) && Or(els, JArr([])) == els;
  }

  /** With no such image (or no content elements at all), the flat `thumb`, normalised. */
  lemma ThumbFallback(doc: map<string, Json>, baseUrl: string)
    requires baseUrl != "" ==> Stripped(baseUrl)
    requires var els := Field(doc, "content_elements");
      !Truthy(els) || (els.JArr? && forall i :: 0 <= i < |els.items| ==> PassedOver(els.items[i]))
    ensures ThumbOf(doc, baseUrl) == Ok(NormalizeOptionalStr(Field(doc, "thumb")))
  {
    var els := Field(doc, "content_elements");
    if Truthy(els) {
      FirstThumbNone(els.items, baseUrl);
    } else {
      FirstThumbNone([], baseUrl);
    }
  }

  // ---------------------------------------------------------------------
  // extract_metadata
  // ---------------------------------------------------------------------

  /** Every field, in the order the source computes them; any AttributeError or TypeError aborts. */
  function MetadataOf(doc: map<string, Json>): (r: Result<Metadata, Failure>)
    ensures r.Ok? ==> r.value.WellFormed()
    ensures r.Ok? ==> r.value.externalId == ExternalId(doc) && r.value.website == Website(doc)
    ensures r.Ok? ==> (WebsiteData(doc, Website(doc)).Ok? &&
      ResolveUrl(doc, WebsiteData(doc, Website(doc)).value, BaseUrl(Website(doc))) == Ok(r.value.url))
  {
    var website := Website(doc);
    var baseUrl := BaseUrl(website);
    var websiteData :- WebsiteData(doc, website);
    var url :- ResolveUrl(doc, websiteData, baseUrl);
    var title :- Title(doc);
    var addl := Or(Field(doc, "additional_properties"), EmptyObj);
    var dates :- DatesOf(doc, addl);
    var sections :- SectionsOf(doc, websiteData);
    var tags :- TagsOf(doc);
    var categories :- CategoriesOf(doc, addl);
    var thumb :- ThumbOf(doc, baseUrl);
    Ok(Metadata(ExternalId(doc), url, sections, categories, tags, title, website,
                dates.publishDate, dates.datetime, dates.firstPublishDate, thumb))
  }

  /** `d` holds exactly the keys and values `m.ToJson()` holds. */
  predicate DictOf(m: Metadata, d: map<string, Json>) {
    RequiredKeys <= d.Keys <= RequiredKeys + OptionalKeys &&
    d["external_id"] == OptJson(m.externalId) && d["url"] == OptJson(m.url) &&
    d["sections"] == StrArray(m.sections) && d["categories"] == StrArray(m.categories) &&
    d["tags"] == StrArray(m.tags) &&
    (forall k :: k in OptionalKeys ==> (k in d <==> m.Optional(k).Some?)) &&
    (forall k :: k in OptionalKeys && k in d ==> d[k] == JStr(m.Optional(k).value))
  }

  /** The dict is determined by its keys and values. */
  lemma SameDict(m: Metadata, d: map<string, Json>)
    requires DictOf(m, d)
    ensures d == m.ToJson()
  {
    var t := m.ToJson();
    forall k | k in RequiredKeys ensures d[k] == t[k] {
    }
    SameMap(d, t, RequiredKeys, OptionalKeys);
  }

  /** Two maps over the same required and optional keys that agree on every key they hold are equal. */
  lemma SameMap<K, V>(d: map<K, V>, t: map<K, V>, required: set<K>, optional: set<K>)
    requires required <= d.Keys <= required + optional && required <= t.Keys <= required + optional
    requires forall k :: k in required ==> d[k] == t[k]
    requires forall k :: k in optional ==> (k in d <==> k in t)
    requires forall k :: k in optional && k in d ==> d[k] == t[k]
    ensures d == t
  {
    assert d.Keys == t.Keys;
  }

  // ---------------------------------------------------------------------
  // The loops of the source
  // ---------------------------------------------------------------------

  /** `for tag_obj in ...: if slug := normalize_optional_str(tag_obj.get("slug")): tags.append(slug)` */
  method CollectSlugs(items: seq<Json>) returns (r: Result<seq<string>, Failure>)
    ensures r == Slugs([], items)
  {
    var tags: seq<string> := [];
    for i := 0 to |items|
      invariant CleanList(tags)
      invariant Slugs(tags, items[i..]) == Slugs([], items)
    {
      assert items[i..][0] == items[i] && items[i..][1..] == items[i + 1..];
      if !items[i].JObj? {
        return Err(Malformed);
      }
      var slug := NormalizeOptionalStr(Field(items[i].fields, "slug"));
      if slug.Some? {
        tags := tags + [slug.value];
      } else {
        assert tags + OptSeq(slug) == tags;
      }
    }
    assert items[|items|..] == [];
    return Ok(tags);
  }

  /** The IAB loop: entries that are not non-empty lists, or give no category, are skipped. */
  method CollectIabCategories(entries: seq<Json>) returns (categories: seq<string>)
    ensures categories == IabCategories([], entries)
  {
    categories := [];
    for i := 0 to |entries|
      invariant CleanList(categories)
      invariant IabCategories(categories, entries[i..]) == IabCategories([], entries)
    {
      var entry := entries[i];
      assert entries[i..][0] == entry && entries[i..][1..] == entries[i + 1..];
      if !Truthy(entry) || !entry.JArr? {
        assert categories + OptSeq(IabCategory(entry)) == categories;
        continue;
      }
      var heading := PyStr(entry.items[0]);
      if StartsWith(heading, CategoryPrefix) {
        var category := Strip(heading[|CategoryPrefix|..]);
        if category != [] {
          categories := categories + [category];
          continue;
        }
      }
      assert categories + OptSeq(IabCategory(entry)) == categories;
    }
    assert entries[|entries|..] == [];
  }

  /** The thumbnail loop, leaving at the first image that has one. */
  method FindThumb(elements: seq<Json>, baseUrl: string) returns (r: Result<Option<string>, Failure>)
    requires baseUrl != "" ==> Stripped(baseUrl)
    ensures r == FirstThumb(elements, baseUrl)
  {
    var thumb: Option<string> := None;
    var i := 0;
    while i < |elements|
      invariant 0 <= i <= |elements|
      invariant FirstThumb(elements[i..], baseUrl) == FirstThumb(elements, baseUrl)
    {
      var element := elements[i];
      assert elements[i..][0] == element && elements[i..][1..] == elements[i + 1..];
      if !element.JObj? {
        return Err(Malformed);
      }
      if Field(element.fields, "type") == JStr("image") {
        var extra := Or(Field(element.fields, "additional_properties"), EmptyObj);
        if !extra.JObj? {
          return Err(Malformed);
        }
        var rel := NormalizeOptionalStr(Field(extra.fields, "thumbnailResizeUrl"));
        if rel.Some? {
          thumb := Some(ThumbUrl(rel.value, baseUrl));
          break;
        }
      }
      i := i + 1;
    }
    return Ok(thumb);
  }

  /** The optional keys, in the order the source inserts them. */
  const OptionalOrder: seq<string> := ["title", "website", "publish_date", "datetime", "first_publish_date", "thumb"]

  /** `d` is the dict after the first `n` optional insertions. */
  predicate Inserted(m: Metadata, d: map<string, Json>, n: nat) {
    RequiredKeys <= d.Keys <= RequiredKeys + OptionalKeys &&
    d["external_id"] == OptJson(m.externalId) && d["url"] == OptJson(m.url) &&
    d["sections"] == StrArray(m.sections) && d["categories"] == StrArray(m.categories) &&
    d["tags"] == StrArray(m.tags) &&
    forall i :: 0 <= i < |OptionalOrder| ==>
      (OptionalOrder[i] in d <==> i < n && m.Optional(OptionalOrder[i]).Some?) &&
      (OptionalOrder[i] in d ==> d[OptionalOrder[i]] == JStr(m.Optional(OptionalOrder[i]).value))
  }

  lemma OptionalOrderDistinct()
    ensures forall i, j :: 0 <= i < j < |OptionalOrder| ==> OptionalOrder[i] != OptionalOrder[j]
    ensures forall i :: 0 <= i < |OptionalOrder| ==> OptionalOrder[i] in OptionalKeys && OptionalOrder[i] !in RequiredKeys
    ensures forall k :: k in OptionalKeys ==> k in OptionalOrder
  {
  }

  lemma OptionalAt(m: Metadata)
    ensures OptionalOrder[0] == "title" && m.Optional("title") == m.title
    ensures OptionalOrder[1] == "website" && m.Optional("website") == m.website
    ensures OptionalOrder[2] == "publish_date" && m.Optional("publish_date") == m.publishDate
    ensures OptionalOrder[3] == "datetime" && m.Optional("datetime") == m.datetime
    ensures OptionalOrder[4] == "first_publish_date" && m.Optional("first_publish_date") == m.firstPublishDate
    ensures OptionalOrder[5] == "thumb" && m.Optional("thumb") == m.thumb
  {
  }

  /** One `if value is not None: metadata[key] = value` step. */
  lemma InsertStep(m: Metadata, d: map<string, Json>, n: nat)
    requires n < |OptionalOrder| && Inserted(m, d, n)
    ensures var k := OptionalOrder[n];
      Inserted(m, if m.Optional(k).Some? then d[k := JStr(m.Optional(k).value)] else d, n + 1)
  {
    OptionalOrderDistinct();
  }

  /** After all six insertions the dict is the one `ToJson` describes. */
  lemma InsertedAll(m: Metadata, d: map<string, Json>)
    requires Inserted(m, d, |OptionalOrder|)
    ensures d == m.ToJson()
  {
    OptionalOrderDistinct();
    assert DictOf(m, d) by {
      forall k | k in OptionalKeys ensures (k in d <==> m.Optional(k).Some?) {
        var i :| 0 <= i < |OptionalOrder| && OptionalOrder[i] == k;
      }
      forall k | k in OptionalKeys && k in d ensures d[k] == JStr(m.Optional(k).value) {
        var i :| 0 <= i < |OptionalOrder| && OptionalOrder[i] == k;
      }
    }
    SameDict(m, d);
  }

  /** The final dict: the required keys, then each optional key whose value is not None. */
  method MetadataDict(m: Metadata) returns (metadata: map<string, Json>)
    ensures metadata == m.ToJson()
  {
    metadata := map[
      "external_id" := OptJson(m.externalId),
      "url" := OptJson(m.url),
      "sections" := StrArray(m.sections),
      "categories" := StrArray(m.categories),
      "tags" := StrArray(m.tags)];
    OptionalOrderDistinct();
    OptionalAt(m);
    assert Inserted(m, metadata, 0);
    InsertStep(m, metadata, 0);
    if m.title.Some? { metadata := metadata["title" := JStr(m.title.value)]; }
    InsertStep(m, metadata, 1);
    if m.website.Some? { metadata := metadata["website" := JStr(m.website.value)]; }
    InsertStep(m, metadata, 2);
    if m.publishDate.Some? { metadata := metadata["publish_date" := JStr(m.publishDate.value)]; }
    InsertStep(m, metadata, 3);
    if m.datetime.Some? { metadata := metadata["datetime" := JStr(m.datetime.value)]; }
    InsertStep(m, metadata, 4);
    if m.firstPublishDate.Some? { metadata := metadata["first_publish_date" := JStr(m.firstPublishDate.value)]; }
    InsertStep(m, metadata, 5);
    if m.thumb.Some? { metadata := metadata["thumb" := JStr(m.thumb.value)]; }
    InsertedAll(m, metadata);
  }

  /** The tag collection of `extract_metadata`: taxonomy slugs, then the top-level tags not yet seen. */
  method ExtractTags(doc: map<string, Json>) returns (r: Result<seq<string>, Failure>)
    ensures r == TagsOf(doc)
  {
    var taxonomy := if "taxonomy" in doc then doc["taxonomy"] else EmptyObj;
    var tagList :- Get(taxonomy, "tags");
    var tagItems := Or(tagList, JArr([]));
    if !tagItems.JArr? {
      return Err(Malformed);
    }
    var tags :- CollectSlugs(tagItems.items);
    tags := AppendMissing(tags, NormalizeStrList(Field(doc, "tags")));
    return Ok(tags);
  }

  /** The category collection: IAB category names, then the top-level categories not yet seen. */
  method ExtractCategories(doc: map<string, Json>, addl: Json) returns (r: Result<seq<string>, Failure>)
    ensures r == CategoriesOf(doc, addl)
  {
    var productCats :- Get(addl, "product_categories");
    var iab :- Get(Or(productCats, EmptyObj), "iab_taxonomy");
    var entries :- IabEntries(iab);
    var categories := CollectIabCategories(entries);
    categories := AppendMissing(categories, NormalizeStrList(Field(doc, "categories")));
    return Ok(categories);
  }

  /** The thumbnail: the first image element's URL, else the top-level `thumb`. */
  method ExtractThumb(doc: map<string, Json>, baseUrl: string) returns (r: Result<Option<string>, Failure>)
    requires baseUrl != "" ==> Stripped(baseUrl)
    ensures r == ThumbOf(doc, baseUrl)
  {
    var elements := Or(Field(doc, "content_elements"), JArr([]));
    if !elements.JArr? {
      return Err(Malformed);
    }
    var thumb :- FindThumb(elements.items, baseUrl);
    if thumb.None? {
      thumb := NormalizeOptionalStr(Field(doc, "thumb"));
    }
    return Ok(thumb);
  }

  /** `extract_metadata`: the fields in source order, the lists by their loops, the dict by conditional insertion. */
  method ExtractMetadata(doc: map<string, Json>) returns (r: Result<map<string, Json>, Failure>)
    ensures r.Ok? <==> MetadataOf(doc).Ok?
    ensures r.Ok? ==> r.value == MetadataOf(doc).value.ToJson()
  {
    var externalId := ExternalId(doc);
    var website := Website(doc);
    var baseUrl := BaseUrl(website);
    var websiteData :- WebsiteData(doc, website);
    var url :- ResolveUrl(doc, websiteData, baseUrl);
    var title :- Title(doc);
    var addl := Or(Field(doc, "additional_properties"), EmptyObj);
    var dates :- DatesOf(doc, addl);

    var sections :- SiteSections(websiteData);
    sections := AppendMissing(sections, NormalizeStrList(Field(doc, "sections")));
    var tags :- ExtractTags(doc);
    var categories :- ExtractCategories(doc, addl);
    var thumb :- ExtractThumb(doc, baseUrl);

    var m := Metadata(externalId, url, sections, categories, tags, title, website,
                      dates.publishDate, dates.datetime, dates.firstPublishDate, thumb);
    assert MetadataOf(doc) == Ok(m);
    var metadata := MetadataDict(m);
    return Ok(metadata);
  }
}
