# capitol_pipeline in Dafny

A model of the core of `capitol_pipeline`. The pipeline turns raw news-article
JSON into documents with clean text and normalised metadata. It then embeds
their texts in batches through an embedding provider and writes one Qdrant
point per document. A separate script, `validate_point`, checks the points
written. This model covers:

- **Text cleaning and extraction** (`transformers.py`, files `text_clean.dfy`
  and `text_scenario.dfy`). `clean_text_fragment` runs its passes in order:
  entity decoding, tag removal, markdown-link collapsing, space collapsing,
  then a strip. `extract_text_from_content_elements` keeps only `text`
  elements and joins them with blank lines. `normalize_full_text` drops rule
  lines, caps newline runs at two and strips.
- **Metadata extraction** (`metadata.dfy`, `metadata_props.dfy`). This is
  `extract_metadata` with its three helpers, every fallback chain, and the
  url, section, tag, category and thumbnail loops. It is given as functions
  and as the loops the source runs.
- **`to_qdrant_format`** (`transform.dfy`). A document is kept exactly when
  its text is non-empty, its metadata can be extracted, and it has a
  non-empty external id and a url.
- **Embeddings** (`embeddings.dfy`). This covers the following:
  - `_truncate_for_embedding`;
  - the batch loop of `embed_texts` against a provider object that records
    its calls;
  - the dimension check and fake mode;
  - the retry loop of `embed_texts_with_retry`, with its exponential waits.
- **Points** (`pipeline_points.dfy`, `build_props.dfy`). This covers
  `truncate_for_embedding` and `build_qdrant_points`, whose embedder is the
  retry wrapper because `pipeline.py` rebinds the name. The model keeps two
  quirks of `build_qdrant_points`:
  - the truncated texts it computes are never used: they are computed over
    all documents and then dropped;
  - it sends the untruncated batch texts to the embedder, where
    `_truncate_for_embedding` truncates them.
- **`run_pipeline`'s document steps** (`pipeline_steps.dfy`). These are the
  `limit` slice, the transform-and-skip loop and the dedup-by-external-id
  loop.
- **`validate_point`** (`validate.dfy`). Each error and warning is an
  `Issue` value.
- **End to end** (`point_checks.dfy`). The points `build_qdrant_points` makes
  from documents that `to_qdrant_format` keeps pass `validate_point`, after
  `json.dump` writes them and the validator reads them back.

Python's dynamic values are a `Json` datatype, and dicts are
`map<string, Json>`. Every `AttributeError` or `TypeError` the core can raise
from duck typing is one `Malformed` failure. A float is opaque. Only its
`repr`, whether it is finite and whether it is zero are recorded. The
embedding provider is a class holding a scripted list of replies and the log
of calls made, with the input and the model of each. Sleeping is the list of waits. The loops the source runs are
methods, each proved equal to a recursive specification function. The
properties are proved about those functions.

The model follows the code as written, including:

- `extract_metadata` can raise: `.get` on a non-dict, or iterating a number.
- The last id fallback is converted with `str()` even when it is falsy, so
  `id: 0` gives `"0"`.
- Tags and categories from the taxonomy and IAB lists are not deduplicated.
- A `metadata` entry that is not a dict gives two errors in `validate_point`:
  its type, then "could not determine metadata dict".

## Model

| member | source | states |
|---|---|---|
| Strings.Strip | src/capitol_pipeline/transformers.py:87 | `str.strip()`: the result is a stripped infix of the input, and only whitespace is removed from either end |
| Strings.StripStripped | src/capitol_pipeline/transformers.py:87 | stripping a stripped string changes nothing |
| Strings.StripEmptyIffAllSpace | src/capitol_pipeline/transformers.py:464 | `not text.strip()` holds exactly when the text is all whitespace |
| Strings.Find | src/capitol_pipeline/transformers.py:23 | `find`: the first index of the character, or -1 exactly when it is absent |
| Strings.RFind | src/capitol_pipeline/embeddings.py:72 | `rfind(" ")`: the last index of the character, or -1 exactly when it is absent |
| Strings.ReplaceAll | src/capitol_pipeline/transformers.py:231 | `s.replace(pat, rep)`: empty exactly when the input is, and the ends come from the input or the replacement |
| Strings.ReplaceAllPlainPrefix | src/capitol_pipeline/transformers.py:231 | text before any first character of the pattern is copied unchanged |
| Strings.ReplaceAllWhole | src/capitol_pipeline/transformers.py:231 | the pattern alone becomes the replacement |
| Strings.Head | src/capitol_pipeline/pipeline.py:225 | Python head slice `s[:m]`, with a negative `m` counting from the end |
| Strings.IntToString | src/capitol_pipeline/transformers.py:254 | `str()` of an int is non-empty with no surrounding whitespace, starts with `-` exactly for a negative int, and otherwise is its decimal digits |
| Strings.NatToStringValue | src/capitol_pipeline/transformers.py:254 | the decimal digits `str()` writes for a natural number spell that number |
| Strings.IntToStringInjective | src/capitol_pipeline/transformers.py:254 | different ints give different strings, so distinct numeric ids stay distinct external ids |
| Strings.IntToStringZero | src/capitol_pipeline/transformers.py:254 | `str(0)` is `"0"` |
| Json.Or | src/capitol_pipeline/transformers.py:249-253 | Python `a or b`: `a` when truthy, else `b` |
| Json.Truthy | src/capitol_pipeline/transformers.py:71 | Python truthiness: None, False, zero, the empty string, list and dict are falsy, everything else truthy |
| Json.GetOr | src/capitol_pipeline/transformers.py:272 | `d.get(k, dflt)` succeeds exactly on a dict, and gives the value or the default |
| Json.Get | src/capitol_pipeline/transformers.py:299 | `d.get(k)` succeeds exactly on a dict, and gives the value or None |
| Lists.IndexOf | src/capitol_pipeline/transformers.py:343 | the first position of an item that is present |
| Lists.AppendNewExtends | src/capitol_pipeline/transformers.py:342-344 | appending the missing items keeps the prefix and adds exactly the new items once; no duplicates are introduced |
| Lists.AppendNewFirstSeenOrder | src/capitol_pipeline/transformers.py:342-344 | the items added keep the order of their first occurrence |
| Lists.AppendMissing | src/capitol_pipeline/transformers.py:342-344 | the `if s not in sections: sections.append(s)` loop computes `AppendNew` |
| Lists.MapAll | src/capitol_pipeline/pipeline.py:86 | a list comprehension: the same length, and item `i` is `f` of item `i` |
| TextClean.Unescape | src/capitol_pipeline/transformers.py:75 | `html.unescape`: never longer than its input, and the identity on text without `&` |
| TextClean.UnescapePlainPrefix | src/capitol_pipeline/transformers.py:75 | text without `&` passes through decoding unchanged |
| TextClean.UnescapeAmp | src/capitol_pipeline/transformers.py:75 | `&amp;` decodes to one `&`, which is not decoded again |
| TextClean.StripTags | src/capitol_pipeline/transformers.py:78 | `TAG_RE.sub("", s)`: only characters of the input are kept, and text without `<` is unchanged |
| TextClean.StripTagsLeavesNoTag | src/capitol_pipeline/transformers.py:23 | no match of `<[^>]+>` survives the pass |
| TextClean.StripTagsPlainPrefix | src/capitol_pipeline/transformers.py:78 | text without `<` passes through the tag pass unchanged |
| TextClean.StripTagsErasesTag | src/capitol_pipeline/transformers.py:78 | a tag with a non-empty body is erased, and scanning resumes after it |
| TextClean.CollapseLinks | src/capitol_pipeline/transformers.py:81 | `LINK_PATTERN.sub(r"\1", s)`: never longer, and text without `[` is unchanged |
| TextClean.LinkLength | src/capitol_pipeline/transformers.py:24 | a `LINK_PATTERN` match at the start of the text opens with `[`, has a non-empty label ending at the first `]`, and fits inside the text |
| TextClean.CollapseLinksKeepsLabel | src/capitol_pipeline/transformers.py:80-81 | a link `[label](target)` with a non-empty label without `]` and a non-empty target without `)` becomes its label, and the scan resumes after it |
| TextClean.CollapseSpaces | src/capitol_pipeline/transformers.py:85 | runs of spaces become one space; text without a double space is unchanged |
| TextClean.CleanString | src/capitol_pipeline/transformers.py:75-87 | the cleaned fragment is stripped and has no double space |
| TextClean.CleanFragment | src/capitol_pipeline/transformers.py:55-87 | `clean_text_fragment`: a falsy content gives "", a non-string truthy content raises, and a result is stripped without double spaces |
| TextClean.CleanKeepsCleanText | src/capitol_pipeline/transformers.py:55-87 | already clean text comes back unchanged |
| TextClean.Lines | src/capitol_pipeline/transformers.py:25 | the lines of a text: at least one, none containing a newline |
| TextClean.DropRules | src/capitol_pipeline/transformers.py:155 | `HORIZONTAL_RULE.sub("", s)` never lengthens the text |
| TextClean.DropRulesLeavesNoRule | src/capitol_pipeline/transformers.py:25 | after the pass no line is a horizontal rule |
| TextClean.LinesCons | src/capitol_pipeline/transformers.py:25 | a line, a newline, then the remaining lines |
| TextClean.CapNewlines | src/capitol_pipeline/transformers.py:159 | `\n{3,}` becomes two newlines: no run of three newlines remains |
| TextClean.CapNewlinesKeeps | src/capitol_pipeline/transformers.py:159 | text without three newlines in a row is unchanged |
| TextClean.NormalizeFullText | src/capitol_pipeline/transformers.py:136-162 | `normalize_full_text`: the result is stripped and has no run of three newlines |
| TextClean.StripKeepsNoTripleNewline | src/capitol_pipeline/transformers.py:162 | stripping keeps the newline cap |
| TextClean.ElementFragment | src/capitol_pipeline/transformers.py:108-122 | a dict element not of type "text" contributes nothing, a non-dict raises, and a fragment is clean |
| TextClean.ExtractedText | src/capitol_pipeline/transformers.py:90-133 | `extract_text_from_content_elements` succeeds exactly when every element does; no fragment gives "", and the text is stripped and newline-capped |
| TextClean.CollectPrefix | src/capitol_pipeline/transformers.py:106-122 | the fragments gathered so far only prefix what the scan adds |
| TextClean.CollectAppend | src/capitol_pipeline/transformers.py:108-122 | scanning `a + b` is scanning `a`, then `b` |
| TextClean.FragmentsAppend | src/capitol_pipeline/transformers.py:108-122 | fragments keep element order, and an error in `a` is the error of `a + b` |
| TextClean.NonTextElementIgnored | src/capitol_pipeline/transformers.py:112-113 | inserting a non-text dict element anywhere changes neither the fragments nor the text |
| TextClean.NormalizeKeepsCleanLine | src/capitol_pipeline/transformers.py:136-162 | one clean line passes `normalize_full_text` unchanged |
| TextClean.SingleFragmentText | src/capitol_pipeline/transformers.py:124-133 | one element cleaning to one line extracts to exactly that line |
| TextClean.ExtractText | src/capitol_pipeline/transformers.py:90-133 | the loop the source runs computes `ExtractedText` |
| TextScenario.UnescapeBetweenPlain | src/capitol_pipeline/transformers.py:75 | an entity between plain stretches is the only thing decoded |
| TextScenario.StripFourTags | src/capitol_pipeline/transformers.py:78 | four tags around two plain stretches are all erased |
| TextScenario.JoinedWordsClean | src/capitol_pipeline/transformers.py:81-87 | two words around " & " form one clean line |
| TextScenario.CleanAfterTags | src/capitol_pipeline/transformers.py:75-87 | once tags and entities are gone, clean text passes the remaining passes unchanged |
| TextScenario.TaggedPairCleans | src/capitol_pipeline/transformers.py:55-87 | `<p>x &amp; <b>y</b></p>` cleans to `x & y` for any two words |
| TextScenario.HelloWorldCleans | tests/test_transformers.py:56-79 | the test paragraph cleans to "Hello & world" |
| TextScenario.TextThenOther | src/capitol_pipeline/transformers.py:90-133 | a text element cleaning to one line, then a non-text element, extracts to exactly that line |
| TextScenario.HelloWorldScenario | tests/test_transformers.py:56-79 | the test's elements extract to exactly "Hello & world" |
| Transform.ContentElements | src/capitol_pipeline/transformers.py:462 | `raw.get("content_elements") or []`: falsy gives [], a list gives its items, and any other truthy value raises |
| Transform.TextOf | src/capitol_pipeline/transformers.py:462-463 | the extracted text is stripped |
| Transform.ToQdrantFormat | src/capitol_pipeline/transformers.py:453-493 | an empty text gives None and an extraction error raises; a record kept has a non-empty clean text, an external id, a url and well-formed metadata |
| Transform.AcceptedIff | src/capitol_pipeline/transformers.py:462-493 | a document is kept exactly when its text is non-empty, its metadata extracts, and it has a non-empty id and a url; the record is that text and metadata |
| MetadataExtract.Metadata.ToJson | src/capitol_pipeline/transformers.py:420-450 | the returned dict always has the five required keys, and an optional key exactly when its value is not None |
| MetadataExtract.NormalizeOptionalStr | src/capitol_pipeline/transformers.py:217-222 | None and "" are absent; a string becomes its strip, absent exactly when all whitespace; a result is non-empty and stripped |
| MetadataExtract.NormalizeIso8601 | src/capitol_pipeline/transformers.py:224-232 | absent exactly when `normalize_optional_str` is; unchanged unless it ends with ".000Z" |
| MetadataExtract.NormalizedItems | src/capitol_pipeline/transformers.py:239-240 | the normalised items of a list, without the absent ones, each clean |
| MetadataExtract.NormalizeStrList | src/capitol_pipeline/transformers.py:234-243 | falsy gives [], a list gives its normalised items, and any other value gives at most one item |
| MetadataExtract.ExternalId | src/capitol_pipeline/transformers.py:249-254 | `_id`, then `external_id`, then `id`, as `str()`; the last is used even when falsy, and None only when it is None |
| MetadataExtract.Website | src/capitol_pipeline/transformers.py:260-262 | the website is absent or a clean string |
| MetadataExtract.BaseUrl | src/capitol_pipeline/transformers.py:265-269 | non-empty exactly for the sites "nj" and "lehighvalleylive" |
| MetadataExtract.WebsiteData | src/capitol_pipeline/transformers.py:272 | {} without a website; it raises only when `websites` is truthy and not a dict |
| MetadataExtract.ResolveUrl | src/capitol_pipeline/transformers.py:274-291 | a truthy explicit `url` wins; the url is absent or clean |
| MetadataExtract.Title | src/capitol_pipeline/transformers.py:298-302 | the title is absent or clean |
| MetadataExtract.TitleChain | src/capitol_pipeline/transformers.py:298-302 | the title is the first truthy of `headlines.basic`, `headline` and `title`, normalised; a truthy non-dict `headlines` raises |
| MetadataExtract.DatesOf | src/capitol_pipeline/transformers.py:305-315 | succeeds exactly when `additional_properties or {}` is a dict; without their own value, `datetime` and `first_publish_date` are the publish date normalised again |
| MetadataExtract.AppendNewClean | src/capitol_pipeline/transformers.py:342-344 | appending the new items of a clean list keeps the list clean and free of duplicates |
| MetadataExtract.SiteSections | src/capitol_pipeline/transformers.py:321-338 | at most two clean, distinct sections from the site data |
| MetadataExtract.AddSection | src/capitol_pipeline/transformers.py:336-338 | the site section is added unless it is already present |
| MetadataExtract.SectionsOf | src/capitol_pipeline/transformers.py:321-344 | the sections are clean and distinct |
| MetadataExtract.Slugs | src/capitol_pipeline/transformers.py:353-355 | the slug loop raises exactly when an item is not a dict, and gives clean slugs |
| MetadataExtract.TaxonomyTags | src/capitol_pipeline/transformers.py:353-355 | the taxonomy tags are clean |
| MetadataExtract.TagsOf | src/capitol_pipeline/transformers.py:350-361 | the tags are clean |
| MetadataExtract.IabCategory | src/capitol_pipeline/transformers.py:372-382 | an entry gives a category exactly when it is a non-empty list whose first item reads "Category name:" followed by a non-blank name, which is returned stripped |
| MetadataExtract.IabCategories | src/capitol_pipeline/transformers.py:372-382 | the IAB categories are clean |
| MetadataExtract.IabEntries | src/capitol_pipeline/transformers.py:370-372 | iterating `iab_taxonomy or []`: falsy gives nothing, and it raises exactly on a truthy number or bool |
| MetadataExtract.CategoriesOf | src/capitol_pipeline/transformers.py:367-388 | the categories are clean |
| MetadataExtract.ThumbUrl | src/capitol_pipeline/transformers.py:406-409 | the thumbnail URL is clean and ends with the relative path |
| MetadataExtract.FirstThumb | src/capitol_pipeline/transformers.py:397-410 | the first image's thumbnail is absent or clean |
| MetadataExtract.ThumbOf | src/capitol_pipeline/transformers.py:394-414 | the thumbnail is absent or clean |
| MetadataExtract.FirstThumbStep | src/capitol_pipeline/transformers.py:397-410 | an element that is not an image, or an image without a usable URL, leaves the search to the rest; an image with one ends it with that URL joined to the base URL |
| MetadataExtract.FirstThumbFound | src/capitol_pipeline/transformers.py:397-410 | the first image with a usable `thumbnailResizeUrl` gives the thumbnail, joined to the base URL when it starts with `/` |
| MetadataExtract.FirstThumbNone | src/capitol_pipeline/transformers.py:397-410 | when no element is an image with a usable URL, the search finds nothing |
| MetadataExtract.ThumbFromImage | src/capitol_pipeline/transformers.py:394-414 | such an image's thumbnail wins over the flat `thumb` |
| MetadataExtract.ThumbFallback | src/capitol_pipeline/transformers.py:412-414 | with no such image, or no content elements, the thumbnail is the normalised flat `thumb` |
| MetadataExtract.MetadataOf | src/capitol_pipeline/transformers.py:194-450 | the metadata is well formed, and its id, website and url are those of their fallback chains |
| MetadataExtract.SameDict | src/capitol_pipeline/transformers.py:420-450 | a dict with the keys and values `ToJson` promises is `ToJson` |
| MetadataExtract.CollectSlugs | src/capitol_pipeline/transformers.py:353-355 | the slug loop computes `Slugs` |
| MetadataExtract.CollectIabCategories | src/capitol_pipeline/transformers.py:372-382 | the IAB loop computes `IabCategories` |
| MetadataExtract.FindThumb | src/capitol_pipeline/transformers.py:397-410 | the thumbnail loop, leaving at the first image with one, computes `FirstThumb` |
| MetadataExtract.InsertStep | src/capitol_pipeline/transformers.py:432-448 | one `if value is not None: metadata[key] = value` step keeps the insertion invariant |
| MetadataExtract.InsertedAll | src/capitol_pipeline/transformers.py:420-450 | after the six insertions the dict is `ToJson` |
| MetadataExtract.MetadataDict | src/capitol_pipeline/transformers.py:420-450 | the final dict building computes `ToJson` |
| MetadataExtract.ExtractTags | src/capitol_pipeline/transformers.py:350-361 | the tag loops compute `TagsOf` |
| MetadataExtract.ExtractCategories | src/capitol_pipeline/transformers.py:367-388 | the category loops compute `CategoriesOf` |
| MetadataExtract.ExtractThumb | src/capitol_pipeline/transformers.py:394-414 | the thumbnail search computes `ThumbOf` |
| MetadataExtract.ExtractMetadata | src/capitol_pipeline/transformers.py:194-450 | `extract_metadata` succeeds exactly when `MetadataOf` does, and returns its dict |
| MetadataProperties.OptionalValuesClean | src/capitol_pipeline/transformers.py:431-448 | every optional value of well-formed metadata is a clean string |
| MetadataProperties.MetadataDictShape | src/capitol_pipeline/transformers.py:420-450 | required keys always, lists as arrays, an optional key exactly when found, holding a non-empty stripped string |
| MetadataProperties.NormalizeMillis | src/capitol_pipeline/transformers.py:230-231 | a clean date ending ".000Z" has every ".000Z" replaced by "Z" |
| MetadataProperties.MillisecondsDropped | src/capitol_pipeline/transformers.py:229-231 | a date ending ".000Z", with no other '.', loses its milliseconds |
| MetadataProperties.MillisecondsDroppedExample | tests/test_transformers.py:411-428 | "2025-07-02T00:00:00.000Z" normalises to "2025-07-02T00:00:00Z" |
| MetadataProperties.RenormalizeKeeps | src/capitol_pipeline/transformers.py:311-315 | a normalised date not ending ".000Z" normalises to itself |
| MetadataProperties.DatesDefaultToPublishDate | src/capitol_pipeline/transformers.py:307-315 | without their own value, `datetime` and `first_publish_date` repeat the publish date, when it does not end in ".000Z" |
| MetadataProperties.InnerMillisKept | src/capitol_pipeline/transformers.py:231 | ".000.000Z" is rewritten once, to ".000Z" |
| MetadataProperties.DoubleMillisOnce | src/capitol_pipeline/transformers.py:224-232 | a publish date "d.000.000Z" keeps its inner ".000" |
| MetadataProperties.DatetimeRenormalized | src/capitol_pipeline/transformers.py:307-311 | the second normalisation is not idle: "d.000.000Z" gives publish date "d.000Z" and datetime "dZ" |
| MetadataProperties.ZeroIdIsKept | src/capitol_pipeline/transformers.py:249-254 | `id: 0` gives external id "0" |
| MetadataProperties.ExplicitUrlWins | src/capitol_pipeline/transformers.py:275-291 | a truthy explicit url is the url, normalised |
| MetadataProperties.NjPathGetsBaseUrl | src/capitol_pipeline/transformers.py:265-289 | without a url, an "nj" site path starting with "/" is joined to "https://www.nj.com" |
| MetadataProperties.SitePathGetsBaseUrl | src/capitol_pipeline/transformers.py:286-287 | a site path starting with "/" is joined to any non-empty base URL |
| MetadataProperties.TaxonomySlugsMayRepeat | src/capitol_pipeline/transformers.py:353-355 | the same slug twice is kept twice |
| MetadataProperties.DirectValuesAppendedOnce | src/capitol_pipeline/transformers.py:358-361 | the direct values add each new value once, after what was found, in first-seen order |
| Embeddings.Zeros | src/capitol_pipeline/embeddings.py:124-125 | `[0.0] * n`: `n` zeros |
| Embeddings.FourFifths | src/capitol_pipeline/embeddings.py:73 | `int(m * 0.8)` lies between 0 and `m` for a non-negative `m` |
| Embeddings.TruncateForEmbedding | src/capitol_pipeline/embeddings.py:40-83 | the result is a prefix of the text, no longer than `max_chars`, and the whole text when it fits |
| Embeddings.TruncateAtWordBoundary | src/capitol_pipeline/embeddings.py:64-74 | a cut text either ends at `max_chars`, with no space in the last fifth, or just before the last space, which lies in the last fifth |
| Embeddings.BatchesPartition | src/capitol_pipeline/embeddings.py:134-135 | the batches cover the texts in order; there are `ceil(N/K)`, none empty, all of size `K` but the last |
| Embeddings.BatchAt | src/capitol_pipeline/embeddings.py:134-135 | batch `j` exists exactly when `j*K < N`, and is the slice starting at `j*K` |
| Embeddings.Batches | src/capitol_pipeline/embeddings.py:134-135 | the slices `xs[start:start + K]` for `start` in `range(0, N, K)`, specified by `BatchesPartition` and `BatchAt` |
| Embeddings.FiveTextsInThreeBatches | tests/test_embeddings.py:97-117 | five texts in batches of two give batches of sizes 2, 2 and 1 |
| Embeddings.Provider.constructor | tests/test_embeddings.py:20-29 | a provider with its script of replies and no call recorded |
| Embeddings.Provider.Create | src/capitol_pipeline/embeddings.py:143-146 | `client.embeddings.create` records the call's `input` and `model` and answers the next reply |
| Embeddings.SendStep | src/capitol_pipeline/embeddings.py:134-149 | one provider call of the batch loop, then the rest of the loop |
| Embeddings.SendFrom | src/capitol_pipeline/embeddings.py:134-149 | the outcome of the batch loop from batch `i` on, and the batches it sends, specified by `SendFromOk` and `SendFromErr` |
| Embeddings.SendFromOk | src/capitol_pipeline/embeddings.py:134-149 | the loop succeeds exactly when every call does; every batch is then sent in order and the vectors concatenated |
| Embeddings.SendFromErr | src/capitol_pipeline/embeddings.py:133-177 | a failing call's error is re-raised; the batches sent are those up to the failing one |
| Embeddings.FirstOtherLength | src/capitol_pipeline/embeddings.py:159-160 | the first index whose length is not the first vector's |
| Embeddings.CheckDimensions | src/capitol_pipeline/embeddings.py:156-164 | the vectors pass exactly when all have the first one's length; the error names the first differing index and both lengths |
| Embeddings.CheckDimensionsFirst | src/capitol_pipeline/embeddings.py:159-164 | the error is for the first index whose length differs |
| Embeddings.Truncated | src/capitol_pipeline/embeddings.py:128-130 | every text goes through `_truncate_for_embedding` |
| Embeddings.Embed | src/capitol_pipeline/embeddings.py:114-177 | the outcome of one `embed_texts` call and the batches it sends, the specification `EmbedTexts` is proved against; `EmbedShape`, `EmbedBatched` and `EmbedInconsistent` state its cases |
| Embeddings.EmbedShape | src/capitol_pipeline/embeddings.py:114-164 | no texts give no call and no vectors; fake mode makes no call and gives one zero vector of length 8 per text; any success has vectors of equal length |
| Embeddings.EmbedBatched | src/capitol_pipeline/embeddings.py:127-171 | a success sent the truncated texts in `ceil(N/K)` consecutive batches, one call each, and returned the concatenated replies |
| Embeddings.EmbedInconsistent | src/capitol_pipeline/embeddings.py:156-164 | replies of differing lengths give the dimension error for the first differing index |
| Embeddings.Pow2 | src/capitol_pipeline/embeddings.py:209 | `2 ** retries` is positive |
| Embeddings.Retry | src/capitol_pipeline/embeddings.py:179-218 | the outcome, waits, attempts and calls of `embed_texts_with_retry`, the specification `RetryLoop` is proved against; `RetryGoesOn`, `RetryStops` and `RetryBounds` state its cases |
| Embeddings.RetryGoesOn | src/capitol_pipeline/embeddings.py:194-218 | a retryable rate limit with retries left sleeps `2**retries` and tries again |
| Embeddings.RetryStops | src/capitol_pipeline/embeddings.py:192-207 | success, another error, an exhausted quota or no retries left ends the loop with that outcome |
| Embeddings.RetryWaitsDouble | src/capitol_pipeline/embeddings.py:195-218 | each wait doubles the one before |
| Embeddings.RetryBounds | src/capitol_pipeline/embeddings.py:190-218 | the waits are 2, 4, 8, and so on, and there are at most `max_retries + 1` attempts |
| Embeddings.NoRetryUnlessRateLimited | src/capitol_pipeline/embeddings.py:192-199 | a non-rate-limit error or an exhausted quota ends the loop at once with that error |
| Embeddings.RateLimitGivesUpAfterMaxRetries | src/capitol_pipeline/embeddings.py:195-207 | a run ending in a retryable rate limit used up every retry: from zero retries, `max_retries + 1` attempts |
| Embeddings.BatchLoopStep | src/capitol_pipeline/embeddings.py:134-149 | one turn of the batch loop sends the next slice and either fails with its error or extends the vectors |
| Embeddings.BatchLoopDone | src/capitol_pipeline/embeddings.py:134-149 | when the slices run out every batch has been sent |
| Embeddings.RequestBatches | src/capitol_pipeline/embeddings.py:133-154 | the batch loop's result and recorded calls are those of `SendFrom` over the batches, and every call names `model` |
| Embeddings.BatchLoop | src/capitol_pipeline/embeddings.py:134-154 | the batch loop, proved with loop invariants against the outcome of each remaining suffix |
| Embeddings.CheckVectorDimensions | src/capitol_pipeline/embeddings.py:156-164 | the dimension loop computes `CheckDimensions` |
| Embeddings.EmbedTexts | src/capitol_pipeline/embeddings.py:86-177 | `embed_texts` returns the result of `Embed` and makes exactly its calls, each naming the `model` it was given |
| Embeddings.AttemptOnce | src/capitol_pipeline/embeddings.py:192-218 | one pass of the retry body: the attempt's outcome, and it retries exactly on a retryable rate limit with retries left, waiting `2**retries` |
| Embeddings.EmbedTextsWithRetry | src/capitol_pipeline/embeddings.py:179-218 | `embed_texts_with_retry` returns `Retry`'s result, sleeps its waits and makes its calls, each naming the `model` it was given |
| Embeddings.RetryLoop | src/capitol_pipeline/embeddings.py:190-218 | the retry loop, proved with loop invariants against `Retry` |
| Embeddings.TwoRateLimitsThenSuccess | src/capitol_pipeline/embeddings.py:179-218 | two rate limits then a success: the loop waits 2 and then 4 seconds, makes three attempts and returns the third reply |
| PipelinePoints.TruncateHead | src/capitol_pipeline/pipeline.py:34-47 | `truncate_for_embedding`: empty or short texts unchanged, longer ones cut to their first `max_chars` characters, and a negative limit counts from the end |
| PipelinePoints.Payload | src/capitol_pipeline/pipeline.py:124-127 | the payload keys are the metadata keys plus "text"; the metadata wins on a clash |
| PipelinePoints.PointOf | src/capitol_pipeline/pipeline.py:124-133 | the point of a document with an id: its id, the vector, and the payload |
| PipelinePoints.TextIsNoMetadataKey | src/capitol_pipeline/transformers.py:420-450 | extracted metadata never has a "text" key |
| PipelinePoints.RecordPoint | src/capitol_pipeline/pipeline.py:116-133 | a transformed record gets a point exactly when it has an id; the point's id is that id, and its payload is the text plus exactly the metadata dict |
| PipelinePoints.Paired | src/capitol_pipeline/pipeline.py:116-122 | `zip(batch_docs, embeddings)` without the documents lacking an id: no longer than either list |
| PipelinePoints.PairedWithIds | src/capitol_pipeline/pipeline.py:116 | when every document has an id, pair `i` is document `i` with vector `i` |
| PipelinePoints.PairedSkipsMissingId | src/capitol_pipeline/pipeline.py:120-122 | a document without an id drops out with its vector, and the other pairs are unaffected |
| PipelinePoints.PairedSnoc | src/capitol_pipeline/pipeline.py:116-133 | one more position of the zip adds its pair, if any, after the earlier ones |
| PipelinePoints.PairedShortest | src/capitol_pipeline/pipeline.py:116 | only the first `min(len(docs), len(vectors))` positions are zipped |
| PipelinePoints.AppendBatchPoints | src/capitol_pipeline/pipeline.py:115-133 | the inner loop appends exactly the batch's points |
| PipelinePoints.BatchPoints | src/capitol_pipeline/pipeline.py:116-133 | the points of one batch, in zip order, specified by `RecordPoint` and the `Paired` lemmas |
| PipelinePoints.Texts | src/capitol_pipeline/pipeline.py:86 | `[d["text"] for d in batch_docs]` |
| PipelinePoints.PipelineEmbed | src/capitol_pipeline/pipeline.py:27 | `embed_texts(texts)` in `pipeline.py` is the retry wrapper with its defaults, so every call names `EMBEDDING_MODEL` |
| PipelinePoints.RetryEmbed | src/capitol_pipeline/pipeline.py:27 | the embedder of `pipeline.py`: `Retry` of `embed_texts` with batch size 50, 8000 characters and 5 retries |
| PipelinePoints.PointsLoopStep | src/capitol_pipeline/pipeline.py:78-133 | one batch turn: the next slice is embedded, and the run either fails with the embedder's error or appends the batch's points and continues |
| PipelinePoints.PointsLoopDone | src/capitol_pipeline/pipeline.py:78 | when the slices run out, the loop is done |
| PipelinePoints.BuildFrom | src/capitol_pipeline/pipeline.py:78-133 | the outcome of the batch loop from batch `j` on, its calls, waits and embedded batches, specified by `BuildFromEmbedded` and `BuildFromPoints` |
| PipelinePoints.BuildQdrantPoints | src/capitol_pipeline/pipeline.py:49-136 | `build_qdrant_points` returns the result of `BuildPoints`, sleeps its waits and makes its calls, each naming `EMBEDDING_MODEL` |
| PipelinePoints.BuildPoints | src/capitol_pipeline/pipeline.py:49-136 | `build_qdrant_points` as a function: no documents give no points, a zero batch size raises, a negative one gives no points, and otherwise `BuildFrom` over the batches |
| PipelinePoints.PipelineBuild | src/capitol_pipeline/pipeline.py:392 | the points `run_pipeline` builds: `BuildPoints` at batch size 100, whatever its `batch_size` |
| PipelinePoints.EmbedBatch | src/capitol_pipeline/pipeline.py:86-133 | one batch: embeds the batch's texts; on success appends the batch's points, and on error reports it |
| PipelinePoints.PointsLoop | src/capitol_pipeline/pipeline.py:78-133 | the batch loop, with the unused truncation computed, proved with loop invariants against `BuildFrom` |
| BuildProps.BuildFromEmbedded | src/capitol_pipeline/pipeline.py:78-113 | batches are embedded in order until one raises; on success all of them are |
| BuildProps.FlattenTexts | src/capitol_pipeline/pipeline.py:79-86 | the batches' texts, one after the other, are the documents' texts |
| BuildProps.BuildEmbedsEveryBatch | src/capitol_pipeline/pipeline.py:68-101 | a success embedded `ceil(N/K)` batches of 1 to `K` texts, which together are all the texts in order |
| BuildProps.PipelineBuildIgnoresBatchSize | src/capitol_pipeline/pipeline.py:392 | the points `run_pipeline` builds are the same whatever its `batch_size` argument |
| BuildProps.PipelineBatchesOfHundred | src/capitol_pipeline/pipeline.py:392 | whatever its `batch_size` argument, a successful `run_pipeline` embeds `ceil(N/100)` batches of 1 to 100 texts, all the texts in order |
| BuildProps.FakeEmbedder | src/capitol_pipeline/embeddings.py:118-125 | in fake mode the retry wrapper makes one attempt and no provider call |
| BuildProps.PairedAppend | src/capitol_pipeline/pipeline.py:116 | zipping two concatenations with equal-length first parts zips the parts separately |
| BuildProps.BuildFromFake | src/capitol_pipeline/pipeline.py:78-133 | fake mode: every remaining batch gets zero vectors, with no call and no wait |
| BuildProps.BuildFake | src/capitol_pipeline/pipeline.py:49-136 | fake mode: no call, no wait, every batch embedded, and the points are those of the documents with an id, with zero vectors, in order |
| BuildProps.BuildFakeWithIds | src/capitol_pipeline/pipeline.py:116-133 | fake mode with all ids present: point `i` is document `i`'s id, a zero vector and document `i`'s payload |
| BuildProps.PairedFrom | src/capitol_pipeline/pipeline.py:116 | each pair is a document and a vector from the two lists |
| BuildProps.BatchPointsFrom | src/capitol_pipeline/pipeline.py:116-133 | a batch gives at most one point per document, each carrying a document's id and payload |
| BuildProps.BuildFromPoints | src/capitol_pipeline/pipeline.py:78-133 | the remaining batches give at most one point per document, each a document's own |
| BuildProps.BuildPointsFromDocs | src/capitol_pipeline/pipeline.py:49-136 | a success returns at most one point per document, each with a document's truthy id and its payload |
| PipelineSteps.Limited | src/capitol_pipeline/pipeline.py:223-225 | `raw_docs[:limit]`: a prefix, of `limit` documents when there are that many, and from the end for a negative limit |
| PipelineSteps.TransformOne | src/capitol_pipeline/pipeline.py:239-253 | a non-dict raw document raises; otherwise the outcome of `to_qdrant_format` |
| PipelineSteps.RunTransformLoop | src/capitol_pipeline/pipeline.py:231-273 | the loop, over any body, keeps or skips each document in order and stops at the first exception, computing `TransformLoop` |
| PipelineSteps.TransformErrSticks | src/capitol_pipeline/pipeline.py:271-273 | once a prefix has raised, the whole loop raises the same exception |
| PipelineSteps.TransformDoc | src/capitol_pipeline/pipeline.py:238-263 | one document's transform, and a record kept is usable |
| PipelineSteps.TransformDocs | src/capitol_pipeline/pipeline.py:231-273 | the transform loop with `to_qdrant_format` as its body computes `TransformAll`: the records kept and `skipped_count` |
| PipelineSteps.TransformAll | src/capitol_pipeline/pipeline.py:231-273 | the transform loop as a function of the raw documents, specified by `TransformAllOk` and `TransformAllFirstError` |
| PipelineSteps.TransformLoopOk | src/capitol_pipeline/pipeline.py:238-263 | the loop completes exactly when no step raises; then kept plus skipped is the input count, and each kept record is usable |
| PipelineSteps.TransformLoopFirstError | src/capitol_pipeline/pipeline.py:271-273 | a raising loop re-raises the first failing document's exception |
| PipelineSteps.TransformOneUsable | src/capitol_pipeline/transformers.py:462-493 | each record `to_qdrant_format` keeps is usable |
| PipelineSteps.TransformAllOk | src/capitol_pipeline/pipeline.py:232-263 | the transform completes exactly when no document raises; kept plus skipped is the input count, and every kept record has clean text, an id and a url |
| PipelineSteps.TransformAllFirstError | src/capitol_pipeline/pipeline.py:271-273 | a failing transform re-raises the first failing document's exception |
| PipelineSteps.DedupDocs | src/capitol_pipeline/pipeline.py:279-310 | the dedup loop computes `DedupAll`: the records kept and `duplicate_count` |
| PipelineSteps.DedupAll | src/capitol_pipeline/pipeline.py:279-310 | the dedup loop as a function of the records, specified by `DedupCounts`, `DedupKeepsFirsts` and `DedupDistinct` |
| PipelineSteps.DedupCounts | src/capitol_pipeline/pipeline.py:279-308 | kept plus duplicates is the input count, and the ids seen are all the input's ids |
| PipelineSteps.IsFirstIffUnseen | src/capitol_pipeline/pipeline.py:299 | a record is the first with its id exactly when its id was not seen before it |
| PipelineSteps.DedupKeepsFirsts | src/capitol_pipeline/pipeline.py:283-308 | the loop keeps exactly the records that come first with their id, in order |
| PipelineSteps.DedupDistinct | src/capitol_pipeline/pipeline.py:283-308 | the kept records have distinct ids and cover every input id; records without an id are kept |
| PipelineSteps.DedupDistinctKeepsAll | src/capitol_pipeline/pipeline.py:283-308 | records with distinct ids are all kept, with no duplicate counted |
| PipelineSteps.DedupIdempotent | src/capitol_pipeline/pipeline.py:283-308 | deduplicating the result again changes nothing and counts no duplicate |
| Validate.FirstNonFinite | src/capitol_pipeline/scripts/validate_output.py:117-122 | none exactly when every element is a finite number, else the first index that is not |
| Validate.CheckVector | src/capitol_pipeline/scripts/validate_output.py:112-122 | the vector checks, with the loop stopping at the first non-finite element, compute `VectorIssues` |
| Validate.CheckText | src/capitol_pipeline/scripts/validate_output.py:135-144 | the text checks compute `TextIssues` and `TextWarnings` |
| Validate.CheckMetadata | src/capitol_pipeline/scripts/validate_output.py:146-182 | the metadata checks compute `MetadataIssues` and the warnings of the metadata view |
| Validate.ValidatePoint | src/capitol_pipeline/scripts/validate_output.py:81-184 | `validate_point` returns exactly the errors and warnings of `Validation` |
| Validate.Validation | src/capitol_pipeline/scripts/validate_output.py:81-184 | the errors and warnings of `validate_point`, in the order its checks run, specified by `IdChecked`, `VectorChecked`, `PayloadClean` and `CleanIffWellFormed` |
| Validate.IsFiniteNumber | src/capitol_pipeline/scripts/validate_output.py:78 | `is_finite_number`: an int or bool, or a finite float |
| Validate.CheckPayload | src/capitol_pipeline/scripts/validate_output.py:124-184 | a missing or non-dict payload ends the checks without warnings; otherwise the text checks, then the metadata checks |
| Validate.IssueKinds | src/capitol_pipeline/scripts/validate_output.py:94-182 | which check each kind of issue comes from |
| Validate.IdChecked | src/capitol_pipeline/scripts/validate_output.py:94-101 | a missing id is reported as missing, and one that is neither a str nor an int by its type name |
| Validate.FiniteIssuesKind | src/capitol_pipeline/scripts/validate_output.py:117-122 | at most one non-finite error, naming the first offending element |
| Validate.VectorChecked | src/capitol_pipeline/scripts/validate_output.py:103-115 | a missing or non-list vector is reported; a wrong length is reported with both lengths exactly when `expected_dim` is given and differs |
| Validate.NonFiniteReportedOnce | src/capitol_pipeline/scripts/validate_output.py:116-122 | a non-finite error exists exactly for the first non-finite element, and there is never more than one |
| Validate.PayloadRequired | src/capitol_pipeline/scripts/validate_output.py:124-133 | a missing or non-dict payload is the last error, and there are no warnings |
| Validate.TextPart | src/capitol_pipeline/scripts/validate_output.py:135-144 | the text errors and the blank-text warning of a dict payload |
| Validate.TextChecked | src/capitol_pipeline/scripts/validate_output.py:135-144 | a missing or non-string text is an error; a blank text is a warning and never an error |
| Validate.PayloadErrorsOnly | src/capitol_pipeline/scripts/validate_output.py:124-166 | an issue of no id or vector kind is an error exactly when the payload checks raise it |
| Validate.MissingExpected | src/capitol_pipeline/scripts/validate_output.py:168-175 | one warning per absent expected key, in the order title, url, external id |
| Validate.MetaWarningsKind | src/capitol_pipeline/scripts/validate_output.py:168-182 | the metadata warnings name exactly the absent expected keys, each once |
| Validate.MetadataPart | src/capitol_pipeline/scripts/validate_output.py:146-182 | a non-dict `metadata` gives both errors and no key warning; a key is warned about exactly when expected and absent from the view |
| Validate.MetadataChecked | src/capitol_pipeline/scripts/validate_output.py:146-182 | the metadata viewed is the nested dict, or the payload without `text`; each absent expected key is warned about once and never as an error |
| Validate.PayloadClean | src/capitol_pipeline/scripts/validate_output.py:124-182 | the payload raises nothing exactly when it is a dict with a non-blank text, and its metadata has a title, an external id and a url that is a string or null |
| Validate.CleanIffWellFormed | src/capitol_pipeline/scripts/validate_output.py:81-184 | a point raises no error and no warning exactly when its id, vector and payload are all well formed |
| Validate.TextOnlyPayloadWarnsAllKeys | tests/test_validate_output.py:148-161 | a payload with only a text gives no error and the three missing-key warnings |
| PointChecks.Floats | src/capitol_pipeline/pipeline.py:131 | the vector written as a list of floats |
| PointChecks.PointJson | src/capitol_pipeline/pipeline.py:129-133 | the point read back has its id, its vector as floats and its payload |
| PointChecks.PayloadView | src/capitol_pipeline/scripts/validate_output.py:157-163 | a payload without `metadata` is viewed as its flattened metadata |
| PointChecks.PayloadOfRecord | src/capitol_pipeline/pipeline.py:124-127 | a record's payload has no `metadata` key, its text, and the metadata dict as its view |
| PointChecks.MetaWarningsOfRecord | src/capitol_pipeline/scripts/validate_output.py:168-182 | metadata with an id and a url is warned about only for a missing title |
| PointChecks.RecordPayloadChecks | src/capitol_pipeline/scripts/validate_output.py:124-182 | a kept record's payload raises no error, and warns at most about a missing title |
| PointChecks.VectorOfPoint | src/capitol_pipeline/scripts/validate_output.py:111-122 | a vector of the expected length raises an error exactly when a component is not finite |
| PointChecks.UsablePointValidates | tests/test_pipeline_with_validation.py:12-64 | a kept record's point has no error exactly when its vector is finite, and its only warning is a missing title |
| PointChecks.PointOfUsableDoc | src/capitol_pipeline/pipeline.py:116-133 | a point carrying a kept record's id and payload passes the checks |
| PointChecks.FakePointsValidate | src/capitol_pipeline/embeddings.py:118-125 | in fake mode, every point of the kept records passes with `expected_dim` 8 and no error |
| PointChecks.BuiltPointsValidate | tests/test_pipeline_with_validation.py:12-64 | whatever the provider returns, every point built from kept records passes the id and payload checks |

## Left out

- File and network I/O: `load_raw_documents`, `load_points`, writing the JSON
  files, `_save_metadata`, `cleanup_old_runs`, the timestamps and the dry-run
  and skip-embeddings exits of `run_pipeline`, and the `main` of
  `validate_output.py`. The model starts from parsed JSON values.
- `json.dump` and `json.load` are not modelled as text.
  `PointChecks.PointJson` stands for the point as the validator reads it
  back.
- Logging, `time.time()` and `time.sleep`. Sleeps become the list of waits
  they would take.
- The OpenAI client. It is a scripted provider whose call number `n` gets
  reply `n`. A provider exception is one of two kinds: a rate limit with its
  code and message, or any other error.
- Floating point. A float is opaque: its `repr`, `math.isfinite` and
  whether it is zero.
- `str()` of lists and dicts, and Python `repr`. These are fixed markers.
  The text of error messages and the `[idx=...]` prefix are not modelled;
  each message is an `Issue` value.
- `html.unescape` decodes only the named entities `&amp; &lt; &gt; &quot;
  &#39; &apos; &nbsp;`, in their semicolon forms. The full HTML5 entity table
  is not modelled.
- Key order of Python dicts. Dicts are maps, and no property depends on the
  order.
- `MAX_EMBEDDING_CHARS` and `USE_FAKE_EMBEDDINGS` read from the environment.
  The first is its default of 8000; fake mode is a parameter.
- `Embeddings.FourFifths`: `int(m * 0.8)` is computed exactly as `4m/5`
  truncated toward zero. This agrees with the float product for every `m`
  below 2^50.
- `PipelinePoints.TruncateHead`: its result is unused by
  `build_qdrant_points`. The embedder receives the full texts and applies
  `_truncate_for_embedding`, as `Embeddings.EmbedBatched` states.
- `PipelineSteps.DedupDocs`: the branch for a record without an external id
  is modelled. It is unreachable after the transform step, which rejects such
  records.
- `to_internal_document` and `to_qdrant_document` in `transformers.py` are
  not called by the pipeline and are not part of this model.
- `run_pipeline` as a whole is not one member. Its `limit` slice, transform
  loop, dedup loop and `build_qdrant_points` call (`PipelinePoints.PipelineBuild`)
  are modelled separately. That call passes a batch size of 100 and ignores
  `run_pipeline`'s own `batch_size` argument, as
  `BuildProps.PipelineBuildIgnoresBatchSize` states.
- `validate_point` on a point that is not a dict is not modelled.
  `load_points` checks for dicts only when it reads JSON lines; an element of
  a JSON-array file that is not a dict reaches `validate_point`, whose
  `point.get` raises `AttributeError`. `Validate.ValidatePoint` takes a dict.
- `Validate.IsFiniteNumber`: every int counts as finite. `math.isfinite`
  raises `OverflowError` on an int too large for a float (magnitude about
  2^1024 and above), so `validate_point` would raise on such a vector
  element; the model reports no error for it instead.
