/**
 * The parser entry point of src/mercury.js: `Parser.parse`, which validates the
 * URL, loads the document, registers a one-off custom extractor, resolves the
 * extractor, runs the field extraction, paginates or stamps single-page
 * counts, transforms the content and assembles the returned record; and
 * `Parser.addExtractor`.
 *
 * The document loader, the DOM library, the markdown converter, the field
 * extractor and the page collector live outside this model. They are the
 * function-valued fields of `Collaborators`, about which nothing is assumed.
 */
module Mercury {
  import opened ExtractorResolution

  /** A JavaScript value as it can appear in a result record. */
  datatype Value =
    | Undefined
    | Null
    | Str(s: string)
    | Num(n: int)
    | Flag(b: bool)
    | Def(def: Definition)

  /** A plain JavaScript object: its own properties and their values. */
  type Record = map<string, Value>

  /** JavaScript truthiness (`NaN` is not modelled). */
  predicate Truthy(v: Value) {
    match v
    case Undefined => false
    case Null => false
    case Str(s) => s != ""
    case Num(n) => n != 0
    case Flag(b) => b
    case Def(_) => true
  }

  /** `record.key`: `undefined` for a missing property. */
  function Field(r: Record, key: string): Value {
    if key in r then r[key] else Undefined
  }

  /** The value `getExtractor` hands back: a definition object or `undefined`. */
  function ExtractorValue(e: Option<Definition>): Value {
    if e.Some? then Def(e.value) else Undefined
  }

  const InvalidUrlMessage :=
    "The url parameter passed does not look like a valid URL. Please check your URL and try again."

  /** The record returned for a URL that fails validation. */
  const InvalidUrlError: Record := map["error" := Flag(true), "message" := Str(InvalidUrlMessage)]

  /**
   * A state of the loaded document (the cheerio handle `$`); opaque here.
   * The handle is shared and the collaborators that receive it may change it
   * in place, so each of those returns the state it leaves behind and the
   * next call receives that state.
   */
  datatype Document = Document(id: nat)

  /** What `Resource.create` yields: an object with `failed` set, or a document. */
  datatype Resource = Failed(failure: Record) | Loaded(doc: Document)

  type Headers = map<string, string>

  /** The `extend` option: extra field names and their selector rules. */
  type ExtendSpec = map<string, string>

  /** The options of `parse`; the caller-supplied `html` is `None` when omitted. */
  datatype Options = Options(
    html: Option<string>,
    fetchAllPages: bool,
    fallback: bool,
    contentType: string,
    headers: Headers,
    extend: Option<ExtendSpec>,
    customExtractor: Option<Definition>)

  /** The defaults `parse` applies to omitted options: `parse(url)` runs with these. */
  const DefaultOptions := Options(None, true, true, "html", map[], None, None)

  /** The context object handed to `RootExtractor.extract`. */
  datatype ExtractContext = ExtractContext(
    url: Url,
    html: string,
    doc: Document,
    metaCache: seq<string>,
    fallback: bool,
    contentType: string)

  /** The argument object handed to `collectAllPages`. */
  datatype PageRequest = PageRequest(
    extractor: Option<Definition>,
    nextPageUrl: Value,
    html: string,
    doc: Document,
    metaCache: seq<string>,
    result: Record,
    title: Value,
    url: Url)

  /** The collaborators of `parse`, as uninterpreted functions. */
  datatype Collaborators = Collaborators(
    validateUrl: Url -> bool,                                   // validateUrl(URL.parse(url))
    createResource: (Url, Option<string>, Headers) -> Resource, // Resource.create
    serialize: Document -> string,                              // $.html()
    textOf: (Document, Value) -> string,                        // $.text($(content))
    toMarkdown: Value -> string,                                // TurndownService.turndown
    metaNames: Document -> seq<string>,                         // names of every <meta>
    // each of the next three returns its result and the document as it leaves it
    selectExtendedTypes: (ExtendSpec, Document, Url, string) -> (Record, Document),
    extract: (Option<Definition>, ExtractContext) -> (Record, Document), // RootExtractor.extract
    collectAllPages: PageRequest -> (Record, Document),
    pathMatches: PathMatcher)                                   // RegExp test in getExtractor

  /** The custom registry after the optional one-off registration. */
  function RegisterCustom(custom: Table, extractor: Option<Definition>): (r: Table)
    requires WellFormed(custom)
    ensures WellFormed(r)
    ensures extractor.None? ==> r == custom
    ensures extractor.Some? ==>
      && extractor.value.domain in r.defs && r.defs[extractor.value.domain] == extractor.value
      && forall k :: k in custom.defs && k != extractor.value.domain ==> k in r.defs && r.defs[k] == custom.defs[k]
  {
    if extractor.Some? then Put(custom, extractor.value.domain, extractor.value) else custom
  }

  /** The markup `parse` works with: the caller's, unless it is missing or empty. */
  function EffectiveHtml(supplied: Option<string>, serialized: string): (h: string)
    ensures supplied.Some? && supplied.value != "" ==> h == supplied.value
    ensures supplied.None? || supplied.value == "" ==> h == serialized
  {
    if supplied.Some? && supplied.value != "" then supplied.value else serialized
  }

  /** `fetchAllPages && next_page_url`: a missing or falsy next-page URL never paginates. */
  function ShouldPaginate(opts: Options, first: Record): (r: bool)
    ensures r <==> opts.fetchAllPages && "next_page_url" in first && Truthy(first["next_page_url"])
  {
    opts.fetchAllPages && Truthy(Field(first, "next_page_url"))
  }

  /** `{...result, total_pages: 1, rendered_pages: 1}`. */
  function StampSinglePage(result: Record): (r: Record)
    ensures r.Keys == result.Keys + {"total_pages", "rendered_pages"}
    ensures r["total_pages"] == Num(1) && r["rendered_pages"] == Num(1)
    ensures forall k :: k in result && k != "total_pages" && k != "rendered_pages" ==> r[k] == result[k]
  {
    result["total_pages" := Num(1)]["rendered_pages" := Num(1)]
  }

  /**
   * The content transform: `'markdown'` converts, `'text'` extracts text and
   * every other content type leaves the record as it is.
   */
  function TransformContent(env: Collaborators, doc: Document, contentType: string, result: Record): (r: Record)
    ensures contentType == "markdown" ==> Field(r, "content") == Str(env.toMarkdown(Field(result, "content")))
    ensures contentType == "text" ==> Field(r, "content") == Str(env.textOf(doc, Field(result, "content")))
    ensures contentType != "markdown" && contentType != "text" ==> r == result
    ensures r.Keys <= result.Keys + {"content"}
    ensures forall k :: k in result && k != "content" ==> k in r && r[k] == result[k]
  {
    if contentType == "markdown" then result["content" := Str(env.toMarkdown(Field(result, "content")))]
    else if contentType == "text" then result["content" := Str(env.textOf(doc, Field(result, "content")))]
    else result
  }

  /**
   * `{ ...result, ...extendedTypes, Extractor }`: later sources win, and the
   * `Extractor` property is always present.
   */
  function Merge(result: Record, extended: Record, extractor: Option<Definition>): (r: Record)
    ensures r.Keys == result.Keys + extended.Keys + {"Extractor"}
    ensures r["Extractor"] == ExtractorValue(extractor)
    ensures forall k :: k in extended && k != "Extractor" ==> r[k] == extended[k]
    ensures forall k :: k in result && k !in extended && k != "Extractor" ==> r[k] == result[k]
  {
    (result + extended)["Extractor" := ExtractorValue(extractor)]
  }

  /** `if (!Extractor) result.content = html`. */
  function OverrideContent(result: Record, extractor: Option<Definition>, html: string): (r: Record)
    ensures extractor.Some? ==> r == result
    ensures extractor.None? ==> r.Keys == result.Keys + {"content"} && r["content"] == Str(html)
    ensures forall k :: k in result && k != "content" ==> k in r && r[k] == result[k]
  {
    if extractor.None? then result["content" := Str(html)] else result
  }

  /**
   * Lines 105-118 of `parse`: transform the content once, override it with
   * the markup when no extractor was resolved, and merge the extended fields
   * and the extractor identity.
   */
  function Finish(env: Collaborators, doc: Document, contentType: string, paged: Record,
                  extractor: Option<Definition>, html: string, extended: Record): (r: Record)
    ensures paged.Keys + extended.Keys + {"Extractor"} <= r.Keys <= paged.Keys + extended.Keys + {"content", "Extractor"}
    ensures forall k :: k in extended && k != "Extractor" ==> r[k] == extended[k]
    ensures forall k :: k in paged && k !in extended && k != "content" && k != "Extractor" ==> r[k] == paged[k]
  {
    Merge(OverrideContent(TransformContent(env, doc, contentType, paged), extractor, html), extended, extractor)
  }

  /**
   * The returned record names the resolved extractor, and, when none was
   * resolved, carries the markup as content whatever the content type
   * (unless an extended field named `content` replaces it).
   */
  lemma FinishIdentityAndFallbackContent(env: Collaborators, doc: Document, contentType: string, paged: Record,
                                         extractor: Option<Definition>, html: string, extended: Record)
    ensures var r := Finish(env, doc, contentType, paged, extractor, html, extended);
            && "Extractor" in r && r["Extractor"] == ExtractorValue(extractor)
            && (extractor.None? && "content" !in extended ==> "content" in r && r["content"] == Str(html))
  {
  }

  /**
   * A single-page result: both page counts are 1 and every other field of the
   * first page's extraction except `content` reaches the caller unchanged,
   * unless an extended field of the same name replaces it.
   */
  lemma SinglePageOutcome(env: Collaborators, doc: Document, contentType: string, first: Record,
                          extractor: Option<Definition>, html: string, extended: Record)
    ensures var r := Finish(env, doc, contentType, StampSinglePage(first), extractor, html, extended);
            && ("total_pages" !in extended ==> "total_pages" in r && r["total_pages"] == Num(1))
            && ("rendered_pages" !in extended ==> "rendered_pages" in r && r["rendered_pages"] == Num(1))
            && forall k :: k in first && k !in extended && k !in {"content", "total_pages", "rendered_pages", "Extractor"}
                 ==> k in r && r[k] == first[k]
  {
  }

  /**
   * With a content type other than `'markdown'` and `'text'` and a resolved
   * extractor, the content of the paginated record is returned untouched.
   */
  lemma OtherContentTypeKeepsContent(env: Collaborators, doc: Document, contentType: string, paged: Record,
                                     extractor: Option<Definition>, html: string, extended: Record)
    requires contentType != "markdown" && contentType != "text"
    requires extractor.Some? && "content" in paged && "content" !in extended
    ensures var r := Finish(env, doc, contentType, paged, extractor, html, extended);
            "content" in r && r["content"] == paged["content"]
  {
  }

  /**
   * `parse(url)` without options: every page is followed when a next-page URL
   * was found; with an extractor resolved the paginated record comes back as
   * it is apart from `Extractor`, and with none its content is the markup.
   */
  lemma DefaultOptionsOutcome(env: Collaborators, doc: Document, first: Record, paged: Record,
                              extractor: Option<Definition>, html: string)
    ensures ShouldPaginate(DefaultOptions, first) <==> Truthy(Field(first, "next_page_url"))
    ensures Finish(env, doc, DefaultOptions.contentType, paged, extractor, html, map[]) ==
            (if extractor.Some? then paged else paged["content" := Str(html)])["Extractor" := ExtractorValue(extractor)]
  {
  }

  /**
   * Lines 56-118 of `parse`, once the document is loaded and the extractor
   * resolved: default the markup, select the extended fields, extract the
   * first page, paginate or stamp single-page counts, transform the content,
   * fall back to the markup when no extractor was resolved, and merge. The
   * document reaches each step in the state the previous step left it.
   */
  function ArticleOutcome(url: Url, opts: Options, env: Collaborators, doc: Document, extractor: Option<Definition>): (r: Record)
    ensures "Extractor" in r && r["Extractor"] == ExtractorValue(extractor)
  {
    var html := EffectiveHtml(opts.html, env.serialize(doc));
    var meta := env.metaNames(doc);
    // the extended fields are selected first, on the document as loaded
    var (extended, afterExtend) := if opts.extend.Some?
                                   then env.selectExtendedTypes(opts.extend.value, doc, url, html)
                                   else (map[], doc);
    // the first page is extracted from the document as that selection left it
    var (first, afterExtract) := env.extract(extractor, ExtractContext(url, html, afterExtend, meta, opts.fallback, opts.contentType));
    // pagination receives the first page's title; otherwise page counts of 1
    var (paged, afterPages) := if ShouldPaginate(opts, first)
                               then env.collectAllPages(PageRequest(extractor, Field(first, "next_page_url"), html, afterExtract,
                                                                    meta, first, Field(first, "title"), url))
                               else (StampSinglePage(first), afterExtract);
    // one transform, after pagination, on the document as last left; then the markup override and the merge
    Finish(env, afterPages, opts.contentType, paged, extractor, html, extended)
  }

  /** The steps of `ArticleOutcome`, carried out one after the other. */
  method ExtractArticle(url: Url, opts: Options, env: Collaborators, doc: Document, extractor: Option<Definition>)
    returns (r: Record)
    ensures r == ArticleOutcome(url, opts, env, doc, extractor)
  {
    var html := EffectiveHtml(opts.html, env.serialize(doc));
    var metaCache := env.metaNames(doc);
    var current := doc;

    var extendedTypes: Record := map[];
    if opts.extend.Some? {
      var selected := env.selectExtendedTypes(opts.extend.value, current, url, html);
      extendedTypes, current := selected.0, selected.1;
    }

    var extracted := env.extract(extractor, ExtractContext(url, html, current, metaCache, opts.fallback, opts.contentType));
    var result := extracted.0;
    current := extracted.1;
    var title, nextPageUrl := Field(result, "title"), Field(result, "next_page_url");

    if opts.fetchAllPages && Truthy(nextPageUrl) {
      var collected := env.collectAllPages(PageRequest(extractor, nextPageUrl, html, current, metaCache, result, title, url));
      result, current := collected.0, collected.1;
    } else {
      result := StampSinglePage(result);
    }
    result := TransformContent(env, current, opts.contentType, result);

    result := OverrideContent(result, extractor, html);

    r := Merge(result, extendedTypes, extractor);
  }

  /** The registries and the entry points of the parser. */
  class Parser {
    /** `apiExtractors`: grows through registration. */
    var custom: Table
    /** `Extractors`: fixed when the process starts. */
    const builtIn: Table

    ghost predicate Valid()
      reads this
    {
      WellFormed(custom) && WellFormed(builtIn)
    }

    constructor (builtIn: Table)
      requires WellFormed(builtIn)
      ensures Valid()
      ensures this.builtIn == builtIn && custom == EmptyTable
    {
      this.builtIn := builtIn;
      custom := EmptyTable;
    }

    /** `addExtractor`: the definition becomes visible under its domain key. */
    method AddExtractor(extractor: Definition)
      requires Valid()
      modifies this
      ensures Valid()
      ensures custom == Put(old(custom), extractor.domain, extractor)
    {
      custom := Put(custom, extractor.domain, extractor);
    }

    /** `parse(url, opts)`. */
    method Parse(url: Url, opts: Options, env: Collaborators) returns (r: Record)
      requires Valid()
      modifies this
      ensures Valid()
      // an invalid URL fails fast: nothing is loaded or registered
      ensures !env.validateUrl(url) ==> r == InvalidUrlError && custom == old(custom)
      // a failed load is handed back as it is, and nothing is registered
      ensures env.validateUrl(url) && env.createResource(url, opts.html, opts.headers).Failed? ==>
                r == env.createResource(url, opts.html, opts.headers).failure && custom == old(custom)
      ensures env.validateUrl(url) && env.createResource(url, opts.html, opts.headers).Loaded? ==>
        var doc := env.createResource(url, opts.html, opts.headers).doc;
        // the one-off extractor is registered before resolution, which sees it
        && custom == RegisterCustom(old(custom), opts.customExtractor)
        && r == ArticleOutcome(url, opts, env, doc, GetExtractor(custom, builtIn, url, env.pathMatches))
    {
      if !env.validateUrl(url) {
        return InvalidUrlError;
      }

      var resource := env.createResource(url, opts.html, opts.headers);
      if resource.Failed? {
        return resource.failure;
      }
      var doc := resource.doc;

      if opts.customExtractor.Some? {
        AddExtractor(opts.customExtractor.value);
      }

      var extractor := GetExtractor(custom, builtIn, url, env.pathMatches);
      r := ExtractArticle(url, opts, env, doc, extractor);
    }
  }
}
