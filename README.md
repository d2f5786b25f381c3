# Extractor resolution and parse orchestration

This project models two pieces of a web-article parser's control logic.

- **Extractor resolution** (`getExtractor`): the URL is matched against two
  registries of per-domain extractor definitions, the custom one
  (`apiExtractors`, grown by `addExtractor`) and the built-in one
  (`Extractors`). The keys are scanned custom first, then built-in. A key is
  taken when the URL contains it as a substring and, when its definition lists
  `includedPaths`, when one of those patterns matches the URL. A key whose
  paths all fail is skipped and the scan goes on.
- **`Parser.parse`**: the steps it runs, in order. It rejects an invalid URL
  with a fixed error record and hands back a failed document load unchanged.
  It registers a one-off custom extractor, resolves the extractor and
  defaults the markup. It runs the field extraction. It either paginates (when
  `fetchAllPages` is set and a `next_page_url` was found) or stamps
  `total_pages` and `rendered_pages` as 1. It transforms the content once. It
  replaces the content with the raw markup when no extractor was resolved.
  Last, it merges the extended fields and the `Extractor` identity.

`get_extractor.dfy` (module `ExtractorResolution`) is a set of pure
functions. The recursive `Scan` plays the part of `keys.find(...)`.
`resolution_properties.dfy` (module `ResolutionProperties`) holds the lemmas
about it. `mercury.dfy` (module `Mercury`) has a class `Parser` that holds the
mutable custom registry and the fixed built-in one. `Parser.Parse` and
`Parser.AddExtractor` are methods that update the registry.
`ExtractArticle` is a method that carries out the steps after resolution.
The record operations (page stamping, content transform, spread merge) are
pure functions.

A registry is a `Table`: its own keys in enumeration order, plus a map from
key to definition. A result record is a `map<string, Value>`, where `Value`
covers the JavaScript values that occur (undefined, null, strings, numbers,
booleans, definition objects). The collaborators that lie outside this code
are function-valued fields of `Collaborators`, and nothing is assumed about
them. The cheerio handle `$` is one shared, mutable document: the
collaborators that receive it (`selectExtendedTypes`, `RootExtractor.extract`,
`collectAllPages`) each return the document state they leave behind, and
every later call receives that state. The collaborators are:

- URL validation;
- `Resource.create`;
- `$.html()`, `$.text`, the `<meta>` name cache;
- Turndown;
- `RootExtractor.extract`, `selectExtendedTypes`, `collectAllPages`;
- the regular-expression test of `includedPaths`.

Two behaviours of the resolution are easy to miss:

- A key present in both registries is gated by the custom definition's
  `includedPaths` (src/extractors/get-extractor.js:17), but the value
  returned is the built-in definition (src/extractors/get-extractor.js:31).
  `SharedKeyQuirk` and `SharedKeyExample` state this behaviour.
- An `includedPaths` that is an empty array counts as present, since an empty
  array is truthy in JavaScript, so it rejects every URL
  (`EmptyPathListRejects`).

Resolution is a function of the two tables, the URL and the path matcher, so
equal inputs give equal outputs and it changes no state.

## Model

| member | source | states |
|---|---|---|
| `ExtractorResolution.GetExtractor` | src/extractors/get-extractor.js:11-32 | Nothing is resolved exactly when no key of `keys(custom) ++ keys(builtIn)` passes the domain/path test. Otherwise the result comes from the first key that passes, with the built-in definition preferred over the custom one under that key. (Corrected total-miss behaviour, see Findings.) |
| `ExtractorResolution.GetExtractorAsWritten` | src/extractors/get-extractor.js:31 | When some key passes, it agrees with `GetExtractor`. When none passes, it returns whatever is stored under the key `"undefined"`. |
| `ExtractorResolution.Scan` | src/extractors/get-extractor.js:15-29 | `find`: returns nothing iff no key is accepted. Otherwise it returns a key at the first accepted position, and every earlier key is rejected. |
| `ExtractorResolution.Includes` | src/extractors/get-extractor.js:16 | `url.includes(domain)` holds iff the domain occurs as a contiguous block at some position of the URL. |
| `ExtractorResolution.AnyPathMatches` | src/extractors/get-extractor.js:25-28 | `some` over the path patterns holds iff at least one pattern matches the URL. |
| `ExtractorResolution.GatingDefinition` | src/extractors/get-extractor.js:17 | `apiExtractors[domain] \|\| Extractors[domain]`: the custom definition decides the gate whenever the custom registry holds the key; the built-in one only otherwise. |
| `ExtractorResolution.Accepts` | src/extractors/get-extractor.js:16-28 | The `find` predicate: a key is accepted iff the URL contains it and the gating definition either lists no `includedPaths` or lists one that matches the URL. |
| `ExtractorResolution.Lookup` | src/extractors/get-extractor.js:31 | `Extractors[key] \|\| apiExtractors[key]`: the built-in definition is preferred, the custom one is the fallback, and nothing comes back iff neither registry holds the key. |
| `ExtractorResolution.Put` | src/mercury.js:129-131 | Registering under a key keeps the table well formed and maps the key to the new definition. Existing keys keep their order. A new key is added at the end. |
| `ResolutionProperties.NoDomainMatchNoExtractor` | src/extractors/get-extractor.js:15-19 | If the URL contains no candidate key, nothing is resolved. |
| `ResolutionProperties.DomainMatchIsSubstring` | src/extractors/get-extractor.js:16 | The key `example.com` matches `https://notexample.com/x` as well as `https://www.example.com/x`. |
| `ResolutionProperties.UnpathedDefinitionIgnoresPaths` | src/extractors/get-extractor.js:21-22 | A definition without `includedPaths` is accepted iff its domain matches. Its acceptance is the same under any path matcher, so no path test is made. |
| `ResolutionProperties.PathGate` | src/extractors/get-extractor.js:24-28 | Suppose the domain matches and the definition lists paths. Then the key is accepted iff some listed pattern matches the URL. |
| `ResolutionProperties.EmptyPathListRejects` | src/extractors/get-extractor.js:22-28 | An empty `includedPaths` list rejects the key for every URL. |
| `ResolutionProperties.RejectedKeyIsSkipped` | src/extractors/get-extractor.js:15-29 | A rejected key does not stop the scan. The result equals the scan of the list with that key removed. |
| `ResolutionProperties.ScanConcat` | src/extractors/get-extractor.js:15 | Scanning `a ++ b` gives the result of `a` when `a` has an accepted key. Otherwise it gives the result of `b`. |
| `ResolutionProperties.CustomKeysFirst` | src/extractors/get-extractor.js:12-15 | If some custom key is accepted, the first accepted custom key is chosen. Built-in keys are reached only when no custom key is accepted. |
| `ResolutionProperties.SharedKeyQuirk` | src/extractors/get-extractor.js:17-31 | For a key in both registries, acceptance is decided by the custom definition's `includedPaths`. When that key is chosen, the built-in definition is returned. |
| `ResolutionProperties.SharedKeyExample` | src/extractors/get-extractor.js:17-31 | Take a built-in definition with an empty path list, which alone resolves nothing. Shadow it with an unrestricted custom definition under the same key. Resolution then returns the built-in definition. |
| `ResolutionProperties.RegisteredExtractorResolves` | src/mercury.js:49-53 | Register an unrestricted definition whose domain the URL contains, into a custom registry none of whose keys the URL contains. Resolution then picks the new key. It returns the new definition, or the built-in one under the same key. |
| `ResolutionProperties.UndefinedKeyLeak` | src/extractors/get-extractor.js:31 | Say the only key is `"undefined"` and the URL does not contain it. Then the code as written returns that key's definition, and the corrected resolution returns nothing. |
| `ResolutionProperties.AsWrittenDiffersOnlyOnUndefinedKey` | src/extractors/get-extractor.js:15-31 | The code as written and the corrected resolution differ iff no key is accepted and a registry holds the key `"undefined"`; without that key they always agree. |
| `Mercury.RegisterCustom` | src/mercury.js:48-51 | Without a `customExtractor` the registry is unchanged. With one, the definition is stored under its domain, and every other key keeps its definition. |
| `Mercury.EffectiveHtml` | src/mercury.js:56-60 | The caller's markup is used when it is present and non-empty. Otherwise the serialised document is used. |
| `Mercury.ShouldPaginate` | src/mercury.js:86 | Pagination runs iff `fetchAllPages` is set and the first page has a truthy `next_page_url`; a missing field never paginates. |
| `Mercury.StampSinglePage` | src/mercury.js:97-103 | `total_pages` and `rendered_pages` become 1. Every other field is unchanged, and no other field is added. |
| `Mercury.TransformContent` | src/mercury.js:105-110 | `'markdown'` sets the content to the markdown conversion of the old content. `'text'` sets it to the text extraction. Any other content type leaves the record unchanged. Fields other than `content` are never touched. |
| `Mercury.Merge` | src/mercury.js:117-118 | The keys are the union of both records plus `Extractor`. Extended fields override result fields. `Extractor` is the resolved definition (or undefined). |
| `Mercury.OverrideContent` | src/mercury.js:113-115 | With no resolved extractor the content becomes the markup (the field is added if absent); with one the record is unchanged. Every other field is kept. |
| `Mercury.Finish` | src/mercury.js:105-118 | The returned keys are the paginated record's, the extended fields', `Extractor`, and at most `content` besides. Extended fields win. Every other paginated field except `content` comes back unchanged. |
| `Mercury.FinishIdentityAndFallbackContent` | src/mercury.js:105-118 | The returned `Extractor` is the resolved value. When nothing was resolved, the returned content is the markup for every content type, provided no extended field is named `content`. |
| `Mercury.SinglePageOutcome` | src/mercury.js:97-118 | Without pagination, both page counts in the returned record are 1. Every first-page field other than content and the page counts comes back unchanged, provided no extended field of that name exists. |
| `Mercury.OtherContentTypeKeepsContent` | src/mercury.js:105-110 | Suppose the content type is neither `'markdown'` nor `'text'` and an extractor was resolved. Then the paginated content is returned untouched. |
| `Mercury.DefaultOptionsOutcome` | src/mercury.js:13-118 | `parse(url)` with no options paginates iff the first page has a truthy `next_page_url`. With an extractor resolved, the paginated record is returned as it is, plus `Extractor`; with none, its content is replaced by the markup. |
| `Mercury.ArticleOutcome` | src/mercury.js:56-118 | The outcome of the steps after resolution: markup defaulted, extended fields selected, first page extracted, `collectAllPages` called with the first page's title iff `fetchAllPages && next_page_url` (otherwise page counts of 1), one content transform after pagination, then the markup override and the merge. The document reaches each step in the state the previous step left it. The result always carries the resolved `Extractor`. |
| `Mercury.ExtractArticle` | src/mercury.js:56-118 | Carrying out those steps one statement at a time yields exactly `ArticleOutcome`. |
| `Mercury.Parser.Parse` | src/mercury.js:13-119 | An invalid URL returns exactly the fixed error record and leaves the registry unchanged. A failed load is returned unchanged, also with the registry unchanged. Otherwise the custom extractor is registered before resolution, and resolution runs on the updated registry. The result is then `ArticleOutcome` for that resolved extractor. |
| `Mercury.Parser.AddExtractor` | src/mercury.js:129-131 | The definition becomes visible under its domain key in the custom registry, as `Put` states. |

## Left out

- The browser branch that reads `window.location.href` and the page's markup (src/mercury.js:23-29): it depends on the environment.
- `URL.parse` and `validateUrl`: modelled together as an uninterpreted predicate on the URL. The parsed URL is not passed on separately, because it is a function of the URL.
- `Resource.create` and `fetchResource` (src/mercury.js:41, 125-127): network I/O, encoding and fetch failure. The load is an uninterpreted function returning `Failed(record)` or `Loaded(document)`. `fetchResource` is a plain delegation to it and is not modelled.
- cheerio (`$.html()`, the `<meta>` name cache at src/mercury.js:62-66, `$.text`), Turndown, `RootExtractor.extract`, `selectExtendedTypes` and `collectAllPages`: foreign or unseen code, kept as uninterpreted functions. Pagination internals (cycle detection, page caps, content concatenation) are therefore not modelled.
- Exceptions raised by collaborators: an invalid regular expression makes `new RegExp` throw, and Turndown throws on non-string input. The model treats these collaborators as total.
- src/extractors/add-extractor.js is not part of this model. `addCustomExtractor` is modelled only as storing the definition under its `domain` key. Its input validation, any merging of supported domains and its return value are left out.
- Parser.AddExtractor: returns nothing, whereas the source returns whatever `addCustomExtractor` returns, which lies in the file not modelled.
- `async`/`await`: `parse` is modelled as one sequential run. Concurrent access to the process-wide custom registry is not modelled.
- JavaScript object details: `Object.keys` lists integer-like keys before the others (domain keys are never integer-like). Property lookups reaching `Object.prototype` are ignored, as are the key order of the returned record and `NaN` truthiness.
- Parser.Parse: resolves with the corrected `GetExtractor`, not the code as written. The two differ only when a registry holds the key `"undefined"` and no key is accepted (`AsWrittenDiffersOnlyOnUndefinedKey`). The source then returns that definition as `Extractor` and keeps the extracted content; the model returns `Extractor` undefined and the markup as content (see Findings).
- What the collaborators do to the shared document is left to them. The model fixes only the order in which the document's states pass from one call to the next; how each call changes it is not modelled.
- In-place update of `result.content` is modelled as reassigning a record value. Aliasing between that record and objects held by collaborators is not captured.
- `Options` is the options record after defaulting: each field holds the value `parse` works with. In the source, a default replaces only an omitted (`undefined`) option, so an explicit `null` stays and counts as false, and `fetchAllPages` is tested for truthiness, not as a boolean. Applying the defaults and reading truthiness is left to the caller; only the all-omitted case is named, as `DefaultOptions`.
- `ExtractArticle` and `Parse` compute the content transform, the markup override and the merge by calling the pure functions `TransformContent`, `OverrideContent` and `Merge`. The branches on `contentType` and on the extractor sit inside those functions.

## Findings

| source | as written | input that shows it | evidently intended | confidence | as-written member | corrected member |
|---|---|---|---|---|---|---|
| src/extractors/get-extractor.js:31 | When no key matches, `find` yields `undefined`. `Extractors[undefined] \|\| apiExtractors[undefined]` then reads the property named `"undefined"`. | A registry holding a key `"undefined"` and a URL that does not contain `undefined`: the definition under that key is returned. | A total miss resolves to nothing. | not executed; follows from JavaScript's property-key conversion; practical impact low, since domain keys are not normally `"undefined"` | `ExtractorResolution.GetExtractorAsWritten` (`ResolutionProperties.UndefinedKeyLeak`) | `ExtractorResolution.GetExtractor` |

The rest of the model, `Parser.Parse` included, uses the corrected `GetExtractor`.
