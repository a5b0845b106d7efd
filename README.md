# diffbot-api-node, modelled in Dafny

This project models the core of a Node.js client library for the Diffbot web-extraction
service. The constructors, `product`, `new`, `crawl().new`, `get` and the control operations
check their options and throw a named error when a required one is missing or invalid;
`knowledgeGraph` and
`details` check nothing. Each operation writes a request URL of the form
`endpoint?token=…&key=value…` by guarded string appends and hands it to `fetch`.
The model covers:

- `generate` (`src/lib/request.js`): the request descriptor `{ url, method, body, headers }`
  with its Content-Type rule (module `Request`).
- class `Crawlbot` (`src/crawlbot.js`): constructor, `new`, `get`, `pause`, `resume`,
  `delete` and `details` (module `Crawlbot`).
- class `DiffBot` (`src/diffbot.js`): constructor, `product`, `knowledgeGraph`, and the
  object returned by `crawl()` with its `new` (module `Diffbot`).

The supporting modules model what these operations lean on:

- `Js`: `undefined` as `Option`, truthiness, `throw` as `Result`, `Array.prototype.join`,
  and the decimal text of an integer.
- `Uri`: `encodeURIComponent` over UTF-8, with a decoder as its partner.
- `Http`: how a query string is written field by field, and how a standard query-string
  parser reads it back.

Each method is an imperative Dafny method on a class whose `token` is fixed at
construction. The method builds its URL by the same appends as the source, in the same
order and under the same guards. Its `ensures` give the error for every failing check, in
the order the source checks them. Otherwise they give the `FetchCall` (URL and verb) it
makes, stated as `Url(endpoint, Written(entries))`. `entries` is the list of fields the
operation may write. A field without a value is skipped, which is what a guarded append
does. Beside every operation a read-back lemma proves what the API server gets: parse the
URL and look up each key. A value the operation encodes comes back, after
`decodeURIComponent`, exactly as it was given. A value it writes unencoded (the token,
`notifyWebhook`, the product fields and callback, the Knowledge Graph type) comes back as the
raw query text, which equals the option only when the option holds no `&` or `#`. A server
that decodes that text changes it at every `%` (`Uri.PercentNotPreserved`: "a%41" becomes
"aA", and "50%" does not decode at all), so the decoded form is proved only for values
without `%` (`Crawlbot.NewWebhookDecoded`, `Diffbot.ProductRawDecoded`,
`Diffbot.KnowledgeGraphTypeDecoded`).

The model follows the code. In several places the library's own tests expect something else:

- test/event.test.js:31 expects a custom header to arrive as `X-Forward-X-Evaluate`;
  `generate` copies custom headers under their own names.
- test/product.test.js:14 expects `https://`, `&discussion=false` and `&callback=callbackFn`;
  `product` uses `http://`, writes `discussion` only when it is true, and throws on a
  callback (see Findings).
- test/crawl.test.js:38 expects `https://` and every one of the 24 crawl options it passes
  in the URL; `crawl().new` uses `http://` and writes only name, seeds and apiUrl.
- test/crawl.test.js:50 expects `https://`; `crawl().new` uses `http://`.

Other facts about the code that the model keeps:

- `generate` discards custom headers whenever there is a body.
- `generate` looks only at the body's first character, so leading blanks make markup
  text/plain.
- `generate` treats an empty body as no body.
- `product`, `knowledgeGraph` and crawl-data `get` write an optional field only when it is
  truthy, so `0`, `false` and `""` are dropped.
- `new` writes useCanonical, maxHops, maxToCrawl and maxToProcess whenever they are
  defined, so `0` and `false` are sent.
- `new` writes `notifyWebhook` unencoded.

## Model

| member | source | states |
|---|---|---|
| Request.Generate | src/lib/request.js:21-36 | url and body kept as given; the method defaults to "GET" only when omitted; a truthy body makes the headers exactly one Content-Type, text/html if and only if the first character is '<', text/plain otherwise; without one the headers are the copied custom headers |
| Request.BodyDiscardsCustomHeaders | src/lib/request.js:22-28 | with a non-empty body the result does not depend on the custom headers, and none of them survives except under the Content-Type name |
| Request.ContentTypeIffBody | src/lib/request.js:23-28 | when the caller sets no Content-Type, one is set if and only if the body is truthy, and it is text/html if and only if the body starts with '<' |
| Request.LeadingWhitespaceIsPlainText | src/lib/request.js:24 | markup after leading blanks is labelled text/plain |
| Request.EmptyBodyIsNoBody | src/lib/request.js:23 | an empty body leaves the headers exactly as no body does |
| Request.GenerateExamples | src/lib/request.js:21-36 | the HTML, plain-text and default-GET descriptors in full |
| Js.JoinSnoc | src/crawlbot.js:36 | joining one more part appends the separator and the part |
| Js.JoinExcludes | src/diffbot.js:32 | a character in no part and not in the separator is not in the joined text |
| Js.SplitJoin | src/crawlbot.js:36 | splitting a joined list on the separator gives the list back when there is at least one part and no part holds the separator |
| Js.NumberTextRoundTrip | src/crawlbot.js:46-54 | the decimal text of every integer parses back to that integer |
| Js.NumberOptRoundTrip | src/crawlbot.js:46-54 | an optional number's text is written exactly when the number is defined and parses back to it |
| Js.NumericBoolReadsAsNumber | src/crawlbot.js:44 | `${+b}` reads back as the Number 1 for true and 0 for false |
| Uri.EncEncoded | src/crawlbot.js:35 | encodeURIComponent output holds only unreserved characters and '%', and is no shorter than its input |
| Uri.EncCons | src/crawlbot.js:35 | encoding works one character at a time from the front |
| Uri.EncUnreserved | src/crawlbot.js:35 | text made only of unreserved characters is left as it is |
| Uri.EncNumberText | src/crawlbot.js:111 | the decimal text of an integer passes through the encoder unchanged |
| Uri.Utf8RoundTrip | src/crawlbot.js:35 | the UTF-8 bytes of every character decode back to that character, with the length the lead byte announces |
| Uri.DecodeEnc | src/crawlbot.js:35 | decodeURIComponent(encodeURIComponent(s)) is s for every string |
| Uri.DecodePlain | src/crawlbot.js:56 | text without '%' decodes to itself |
| Uri.PercentNotPreserved | src/crawlbot.js:56 | a raw '%' is not kept by decoding: "a%41" decodes to "aA" and "50%" does not decode (a URIError) |
| Http.UrlAppend | src/crawlbot.js:38-57 | `url += "&key=value"` on a written URL adds exactly one field at the end of its query |
| Http.UrlWrittenStart | src/crawlbot.js:34 | `endpoint?token=…` is the URL whose query is that one field |
| Http.UrlWrittenSnoc | src/crawlbot.js:43-57 | a guarded append gives the URL with that entry's field added, or the same URL when the entry has no value |
| Http.WrittenLookup | src/crawlbot.js:43-57 | when keys are distinct, looking up an entry's key finds its value when written and nothing when skipped |
| Http.WrittenAbsent | src/crawlbot.js:43-57 | a key no entry has is not in the written fields |
| Http.EncSafe | src/crawlbot.js:35 | an encoded text holds no '&', '=' or '#', so it needs no further protection |
| Http.NumberTextSafe | src/crawlbot.js:47 | the decimal text of an integer holds no '&' or '#' |
| Http.ParseUrlRoundTrip | src/crawlbot.js:34-57 | a URL written from fields whose keys and values hold no separator parses back to its endpoint and exactly those fields |
| Http.WrittenRoundTrip | src/crawlbot.js:34-57 | the same for the fields a run of guarded appends writes |
| Http.DecodedPlainValue | src/crawlbot.js:56 | a value written unencoded and holding no '%' reads back unchanged after decoding |
| Crawlbot.Crawlbot.constructor | src/crawlbot.js:7-12 | token and name are stored |
| Crawlbot.Crawlbot.Create | src/crawlbot.js:7-12 | a falsy token throws "missing token" before the name is checked; a falsy name throws "missing name"; otherwise a fresh object with both stored |
| Crawlbot.Crawlbot.New | src/crawlbot.js:27-78 | "missing name" before "missing seeds" (an empty seeds array passes); otherwise a POST to the crawl endpoint with the fields of NewEntries |
| Crawlbot.NewUrlFields | src/crawlbot.js:34-57 | the text `new` writes is the crawl endpoint with exactly the fields of NewEntries |
| Crawlbot.NewFieldsReadBack | src/crawlbot.js:34-57 | every field `new` writes is read back under its own key, and each optional one is absent exactly when it has no value |
| Crawlbot.NewReadBack | src/crawlbot.js:27-57 | the server gets the name, the space-joined seeds and the API URL (the Analyze API when none is truthy) after decoding; useCanonical as 1/0 and the three limits whenever defined; notifyWebhook as raw text exactly when truthy |
| Crawlbot.NewSeedsReadBack | src/crawlbot.js:36 | splitting the decoded seeds on spaces gives the seed list back when there is a seed and none holds a space |
| Crawlbot.NewWebhookDecoded | src/crawlbot.js:55-57 | a truthy notifyWebhook without '&', '#' or '%' reaches a decoding server unchanged; a falsy one is absent |
| Crawlbot.Crawlbot.Get | src/crawlbot.js:89-127 | "missing name", then "invalid format" (truthy and not csv or json), then "invalid type" (truthy and not urls); otherwise a GET of the crawl-data endpoint with the fields of GetEntries |
| Crawlbot.GetUrlFields | src/crawlbot.js:99-112 | the text `get` writes is the crawl-data endpoint with exactly the fields of GetEntries |
| Crawlbot.GetFieldsReadBack | src/crawlbot.js:99-112 | every field `get` writes is read back under its own key |
| Crawlbot.GetReadBack | src/crawlbot.js:99-112 | the server gets the name, and format and type after decoding exactly when truthy; num as given unless it is 0 |
| Crawlbot.Crawlbot.Control | src/crawlbot.js:134-223 | the shared shape of pause, resume and delete: a falsy name throws "missing name"; otherwise a POST with token, the encoded name and the action's field |
| Crawlbot.Crawlbot.Pause | src/crawlbot.js:134-159 | "missing name", or a POST carrying `pause=1` |
| Crawlbot.Crawlbot.Resume | src/crawlbot.js:166-191 | "missing name", or a POST carrying `pause=0` |
| Crawlbot.Crawlbot.Delete | src/crawlbot.js:198-223 | "missing name", or a POST carrying `delete=1` |
| Crawlbot.ControlReadBack | src/crawlbot.js:140-142 | the server gets the name after decoding and the action's own value |
| Crawlbot.Crawlbot.Details | src/crawlbot.js:231-252 | never throws; a GET of the crawl endpoint with the encoded name only when it is truthy |
| Crawlbot.DetailsReadBack | src/crawlbot.js:233-237 | the server gets the name after decoding exactly when it was truthy, and no `name` key at all otherwise |
| Diffbot.DiffBot.constructor | src/diffbot.js:8-11 | the token is stored |
| Diffbot.DiffBot.Create | src/diffbot.js:8-11 | a falsy token throws "missing token"; otherwise a fresh object holding it |
| Diffbot.DiffBot.Product | src/diffbot.js:23-65 | "missing url" first; as written, a truthy callback then throws a ReferenceError; otherwise a GET of the product endpoint with the fields of ProductEntries |
| Diffbot.DiffBot.ProductWithCallback | src/diffbot.js:23-65 | as intended: "missing url", or a GET with the fields of ProductEntries, the callback included when truthy |
| Diffbot.ProductUrlFields | src/diffbot.js:29-45 | the text `product` writes is the product endpoint with exactly the fields of ProductEntries |
| Diffbot.ProductFieldsReadBack | src/diffbot.js:29-45 | every field `product` writes is read back under its own key |
| Diffbot.ProductReadBack | src/diffbot.js:29-45 | the server gets the page URL after decoding; the fields comma-joined whenever given; `discussion=true` exactly when true; the timeout unless 0; the fields and callback as raw text, the callback exactly when truthy |
| Diffbot.ProductRawDecoded | src/diffbot.js:31-45 | fields and callback without '&', '#' or '%' reach a decoding server as the comma-joined list and the callback, and are absent exactly when not given or falsy |
| Diffbot.JoinOptSafe | src/diffbot.js:32 | comma-joined fields hold no '&' or '#' when no field does |
| Diffbot.DiffBot.KnowledgeGraph | src/diffbot.js:78-111 | never throws; a GET of the DQL endpoint with the fields of KnowledgeGraphEntries |
| Diffbot.KnowledgeGraphUrlFields | src/diffbot.js:79-96 | the text `knowledgeGraph` writes is the DQL endpoint with exactly the fields of KnowledgeGraphEntries |
| Diffbot.KnowledgeGraphFieldsReadBack | src/diffbot.js:79-96 | every field `knowledgeGraph` writes is read back under its own key |
| Diffbot.KnowledgeGraphReadBack | src/diffbot.js:79-96 | the server gets the query after decoding ("undefined" when none was given); from and size unless 0; `nonCanonicalFacts=1` exactly when true; the type as raw text exactly when truthy |
| Diffbot.KnowledgeGraphTypeDecoded | src/diffbot.js:94-96 | a truthy type without '&', '#' or '%' reaches a decoding server unchanged; a falsy one is absent |
| Diffbot.SixFieldsUrl | src/diffbot.js:29-45 | two fields then four guarded appends give the URL with exactly those six entries' fields |
| Diffbot.DiffBot.Crawl | src/diffbot.js:114-116 | a fresh object carrying this token |
| Diffbot.CrawlHandle.constructor | src/diffbot.js:115-116 | the token is stored |
| Diffbot.CrawlHandle.New | src/diffbot.js:125-163 | "missing name" before "missing seeds"; otherwise a POST to the plain-http crawl endpoint with the fields Crawlbot `new` writes for the same name, seeds and apiUrl and no other option |
| Diffbot.JobUrlFields | src/diffbot.js:132-140 | the text `crawl().new` writes is the plain-http crawl endpoint with exactly the fields of JobEntries |
| Diffbot.JobReadBack | src/diffbot.js:132-140 | the server gets name, seeds and API URL after decoding, and none of the other crawl options |

## Left out

- `fetch`, `axios` and the promises around them (`exec` in `src/lib/request.js`, and the
  response handling and "response not ok." rejection in every method) are I/O. Each method
  ends with the `FetchCall` it would make.
- The `console.log` of the URL in `crawl().new` is output only.
- `src/diffbot.d.ts` (type declarations) is not part of this model. `src/lib/fetch-promise.js`
  and `src/lib/axios-wrapper.js` are not part of this model.
- Options are typed: text options are strings, numeric options integers, flags booleans and
  lists arrays of strings. JavaScript values of other types, `null`, and an `options`
  argument that is itself missing are not modelled.
- Numbers are integers written in plain decimal. Fractions and the exponent form JavaScript
  uses from 1e21 up are not modelled.
- Integers beyond 2^53 are not modelled. JavaScript holds them only approximately and prints
  them rounded (2**64 as 18446744073709552000), whereas `Js.NumberText` writes exact digits.
  So for maxHops, maxToCrawl, maxToProcess, num, timeout, from or size beyond 2^53, the URL
  stated by Crawlbot.Crawlbot.New, Crawlbot.Crawlbot.Get, Diffbot.DiffBot.Product and
  Diffbot.DiffBot.KnowledgeGraph is not the one the library writes.
- Strings are sequences of Unicode scalar values, so the URIError `encodeURIComponent`
  raises on a lone surrogate cannot occur in the model.
- Crawlbot.NewReadBack: stated only for a token, and a truthy notifyWebhook, that hold no '&' or '#'.
  Both are written unencoded, and a server reading a value that holds '&' or '#' stops at it.
  For these two it states the raw query text, not the decoded value; Crawlbot.NewWebhookDecoded
  adds the decoded notifyWebhook for one without '%'.
- Crawlbot.GetReadBack: stated only for a token that holds no '&' or '#', since the token is written unencoded; the token is stated as raw query text, not decoded.
- Crawlbot.ControlReadBack: stated only for a token that holds no '&' or '#', since the token is written unencoded; the token is stated as raw query text, not decoded.
- Crawlbot.DetailsReadBack: stated only for a token that holds no '&' or '#', since the token is written unencoded; the token is stated as raw query text, not decoded.
- Diffbot.ProductReadBack: stated only for a token, fields and callback that hold no '&' or '#', since they are written unencoded; for them it states the raw query text, and Diffbot.ProductRawDecoded adds the decoded fields and callback for values without '%'.
- Diffbot.KnowledgeGraphReadBack: stated only for a token and type that hold no '&' or '#', since they are written unencoded; for them it states the raw query text, and Diffbot.KnowledgeGraphTypeDecoded adds the decoded type for one without '%'.
- `URLSearchParams` also reads '+' in a value as a space; the model's decoder is `decodeURIComponent` only, so a server using `URLSearchParams` is not modelled.
- Diffbot.JobReadBack: stated only for a token that holds no '&' or '#', since the token is written unencoded; the token is stated as raw query text, not decoded.
- Crawlbot.Crawlbot.constructor: the name it stores is never read by any operation (each takes the job name from its options), so nothing is proved about it beyond storage.
- The server side (how the API treats the fields it reads) is represented only by the
  query-string parser `Http.ParseUrl`, which drops the fragment from the first '#' and splits
  on '?', '&' and the first '='.

## Findings

| source | as written | input that shows it | evidently intended | confidence | as-written member | corrected member |
|---|---|---|---|---|---|---|
| src/diffbot.js:43-45 | appends `${callback}`, an identifier declared nowhere, so reading it throws a ReferenceError | `product({ url: "https://example.com/p", callback: "cb" })` | append `options.callback` | high; not executed | Diffbot.DiffBot.Product | Diffbot.DiffBot.ProductWithCallback |
