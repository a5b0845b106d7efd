/** Class `DiffBot` (src/diffbot.js): the Product and Knowledge Graph APIs, and the older
    `crawl().new` way of creating a crawl job. Each method checks its required options,
    then grows the request URL by guarded appends; the `fetch` it ends with is represented
    by the FetchCall it would make. */
module Diffbot {
  import opened Js
  import opened Uri
  import opened Http
  import Crawlbot

  const ProductEndpoint: string := "http://api.diffbot.com/v3/product"
  const KnowledgeGraphEndpoint: string := "https://kg.diffbot.com/kg/dql_endpoint"
  /** `crawl().new` posts to the crawl endpoint over plain http. */
  const JobEndpoint: string := "http://api.diffbot.com/v3/crawl"

  /** The options of `product`. */
  datatype ProductOptions = ProductOptions(
    url: Option<string>,
    fields: Option<seq<string>>,
    discussion: Option<bool>,
    timeout: Option<int>,
    callback: Option<string>)

  /** The options of `knowledgeGraph`; `kgType` is the `type` option. */
  datatype KnowledgeGraphOptions = KnowledgeGraphOptions(
    query: Option<string>,
    from: Option<int>,
    nonCanonicalFacts: Option<bool>,
    size: Option<int>,
    kgType: Option<string>)

  /** The options `crawl().new` reads. */
  datatype JobOptions = JobOptions(
    name: Option<string>,
    seeds: Option<seq<string>>,
    apiUrl: Option<string>)

  // The query fields each operation may write, in the order it writes them.

  /** The fields of `product` from the values as written: token and url always, then fields,
      discussion, timeout and callback when they have one. */
  function ProductFields(token: string, url: string, fields: Option<string>, discussion: Option<string>,
                         timeout: Option<string>, callback: Option<string>): seq<Entry>
  {
    [Entry("token", Some(token)), Entry("url", Some(url)), Entry("fields", fields),
     Entry("discussion", discussion), Entry("timeout", timeout), Entry("callback", callback)]
  }

  /** `product`: the url percent-encoded; the fields array joined with commas whenever it is
      given (even empty); discussion only when true; timeout when non-zero; the callback when
      truthy. Everything but the url is written unencoded. */
  function ProductEntries(token: string, o: ProductOptions): seq<Entry>
    requires o.url.Some?
  {
    ProductFields(token, Enc(o.url.value), JoinOpt(o.fields, ","), BoolTextOpt(IfTrue(o.discussion)),
      NumberOpt(IfNonZero(o.timeout)), IfTruthy(o.callback))
  }

  /** The fields of `knowledgeGraph` from the values as written: token and query always, then
      from, nonCanonicalFacts, size and type when they have one. */
  function KnowledgeGraphFields(token: string, query: string, from: Option<string>, nonCanonicalFacts: Option<string>,
                                size: Option<string>, kgType: Option<string>): seq<Entry>
  {
    [Entry("token", Some(token)), Entry("query", Some(query)), Entry("from", from),
     Entry("nonCanonicalFacts", nonCanonicalFacts), Entry("size", size), Entry("type", kgType)]
  }

  /** `knowledgeGraph`: the query percent-encoded, and the text "undefined" when none is given;
      from and size when non-zero; nonCanonicalFacts as 1 when true; the type when truthy.
      Everything but the query is written unencoded. */
  function KnowledgeGraphEntries(token: string, o: KnowledgeGraphOptions): seq<Entry>
  {
    KnowledgeGraphFields(token, Enc(StringOf(o.query)), NumberOpt(IfNonZero(o.from)),
      NumericBoolOpt(IfTrue(o.nonCanonicalFacts)), NumberOpt(IfNonZero(o.size)), IfTruthy(o.kgType))
  }

  /** The options of Crawlbot `new` that `crawl().new` amounts to: the same name, seeds and
      apiUrl, and none of the others. */
  function AsNewOptions(o: JobOptions): Crawlbot.NewOptions
  {
    Crawlbot.NewOptions(o.name, o.seeds, o.apiUrl, None, None, None, None, None)
  }

  /** `crawl().new`: the fields Crawlbot `new` writes for the same name, seeds and apiUrl. */
  function JobEntries(token: string, o: JobOptions): seq<Entry>
    requires o.name.Some? && o.seeds.Some?
  {
    Crawlbot.NewEntries(token, AsNewOptions(o))
  }

  // Proof scaffolding: each method's append chain as one term (a first field after '?', then
  // `&key=value` appends), so a single lemma can equate it with `Url(endpoint, Written(entries))`.

  function ProductUrl(token: string, o: ProductOptions): string
    requires o.url.Some?
  {
    var url := Start(ProductEndpoint, "token", token);
    var url := Append(url, "url", Enc(o.url.value));
    var url := AppendOpt(url, "fields", JoinOpt(o.fields, ","));
    var url := AppendOpt(url, "discussion", BoolTextOpt(IfTrue(o.discussion)));
    var url := AppendOpt(url, "timeout", NumberOpt(IfNonZero(o.timeout)));
    AppendOpt(url, "callback", IfTruthy(o.callback))
  }

  function KnowledgeGraphUrl(token: string, o: KnowledgeGraphOptions): string
  {
    var url := Start(KnowledgeGraphEndpoint, "token", token);
    var url := Append(url, "query", Enc(StringOf(o.query)));
    var url := AppendOpt(url, "from", NumberOpt(IfNonZero(o.from)));
    var url := AppendOpt(url, "nonCanonicalFacts", NumericBoolOpt(IfTrue(o.nonCanonicalFacts)));
    var url := AppendOpt(url, "size", NumberOpt(IfNonZero(o.size)));
    AppendOpt(url, "type", IfTruthy(o.kgType))
  }

  function JobUrl(token: string, o: JobOptions): string
    requires o.name.Some? && o.seeds.Some?
  {
    var url := Start(JobEndpoint, "token", token);
    var url := Append(url, "name", Enc(o.name.value));
    var url := Append(url, "seeds", Enc(Join(o.seeds.value, " ")));
    Append(url, "apiUrl", Enc(Crawlbot.ApiUrlOf(AsNewOptions(o))))
  }

  /** The URL after the six writes of `product` or `knowledgeGraph`: two fields, then four
      guarded ones. */
  function SixFieldUrl(base: string, k0: string, v0: string, k1: string, v1: string,
                       k2: string, v2: Option<string>, k3: string, v3: Option<string>,
                       k4: string, v4: Option<string>, k5: string, v5: Option<string>): string
  {
    var url := Start(base, k0, v0);
    var url := Append(url, k1, v1);
    var url := AppendOpt(url, k2, v2);
    var url := AppendOpt(url, k3, v3);
    var url := AppendOpt(url, k4, v4);
    AppendOpt(url, k5, v5)
  }

  /** Writing six fields one guarded append at a time gives the URL with exactly those fields. */
  lemma SixFieldsUrl(base: string, k0: string, v0: string, k1: string, v1: string,
                     k2: string, v2: Option<string>, k3: string, v3: Option<string>,
                     k4: string, v4: Option<string>, k5: string, v5: Option<string>)
    ensures SixFieldUrl(base, k0, v0, k1, v1, k2, v2, k3, v3, k4, v4, k5, v5)
      == Url(base, Written([Entry(k0, Some(v0)), Entry(k1, Some(v1)), Entry(k2, v2),
                            Entry(k3, v3), Entry(k4, v4), Entry(k5, v5)]))
  {
    var es := [Entry(k0, Some(v0))];
    UrlWrittenStart(base, k0, v0);
    UrlWrittenSnoc(base, es, Entry(k1, Some(v1)));
    es := es + [Entry(k1, Some(v1))];
    UrlWrittenSnoc(base, es, Entry(k2, v2));
    es := es + [Entry(k2, v2)];
    UrlWrittenSnoc(base, es, Entry(k3, v3));
    es := es + [Entry(k3, v3)];
    UrlWrittenSnoc(base, es, Entry(k4, v4));
    es := es + [Entry(k4, v4)];
    UrlWrittenSnoc(base, es, Entry(k5, v5));
    es := es + [Entry(k5, v5)];
    assert es == [Entry(k0, Some(v0)), Entry(k1, Some(v1)), Entry(k2, v2), Entry(k3, v3), Entry(k4, v4), Entry(k5, v5)];
  }

  /** The URL `product` fetches is the product endpoint with exactly the fields of ProductEntries. */
  lemma ProductUrlFields(token: string, o: ProductOptions)
    requires o.url.Some?
    ensures ProductUrl(token, o) == Url(ProductEndpoint, Written(ProductEntries(token, o)))
  {
    SixFieldsUrl(ProductEndpoint, "token", token, "url", Enc(o.url.value), "fields", JoinOpt(o.fields, ","),
      "discussion", BoolTextOpt(IfTrue(o.discussion)), "timeout", NumberOpt(IfNonZero(o.timeout)),
      "callback", IfTruthy(o.callback));
  }

  /** The URL `knowledgeGraph` fetches is the DQL endpoint with exactly the fields of
      KnowledgeGraphEntries. */
  lemma KnowledgeGraphUrlFields(token: string, o: KnowledgeGraphOptions)
    ensures KnowledgeGraphUrl(token, o) == Url(KnowledgeGraphEndpoint, Written(KnowledgeGraphEntries(token, o)))
  {
    SixFieldsUrl(KnowledgeGraphEndpoint, "token", token, "query", Enc(StringOf(o.query)),
      "from", NumberOpt(IfNonZero(o.from)), "nonCanonicalFacts", NumericBoolOpt(IfTrue(o.nonCanonicalFacts)),
      "size", NumberOpt(IfNonZero(o.size)), "type", IfTruthy(o.kgType));
  }

  /** The URL `crawl().new` posts is the plain-http crawl endpoint with exactly the fields of
      JobEntries. */
  lemma JobUrlFields(token: string, o: JobOptions)
    requires o.name.Some? && o.seeds.Some?
    ensures JobUrl(token, o) == Url(JobEndpoint, Written(JobEntries(token, o)))
  {
    Crawlbot.NewFieldsUrl(JobEndpoint, token, Enc(o.name.value), Enc(Join(o.seeds.value, " ")),
      Enc(Crawlbot.ApiUrlOf(AsNewOptions(o))), None, None, None, None, None);
  }

  // What the API servers read back from each request URL.

  lemma ProductEndpointPlain()
    ensures '?' !in ProductEndpoint && '#' !in ProductEndpoint
  {
  }

  lemma KnowledgeGraphEndpointPlain()
    ensures '?' !in KnowledgeGraphEndpoint && '#' !in KnowledgeGraphEndpoint
  {
  }

  lemma JobEndpointPlain()
    ensures '?' !in JobEndpoint && '#' !in JobEndpoint
  {
  }

  // No key `product` or `knowledgeGraph` writes holds a separator (in small groups, which the
  // solver checks character by character).

  lemma ProductKeysPlain()
    ensures KeySafe("token") && KeySafe("url") && KeySafe("fields")
  {
  }

  lemma ProductOptionKeysPlain()
    ensures KeySafe("discussion") && KeySafe("timeout") && KeySafe("callback")
  {
  }

  lemma KnowledgeGraphKeysPlain()
    ensures KeySafe("query") && KeySafe("from") && KeySafe("nonCanonicalFacts")
  {
  }

  lemma KnowledgeGraphOptionKeysPlain()
    ensures KeySafe("size") && KeySafe("type")
  {
  }

  /** A server reads every field of `product` back under its own key. */
  lemma ProductFieldsReadBack(base: string, token: string, url: string, fields: Option<string>,
                              discussion: Option<string>, timeout: Option<string>, callback: Option<string>)
    requires '?' !in base && '#' !in base
    requires ValueSafe(token) && ValueSafe(url) && OptSafe(fields) && OptSafe(discussion)
    requires OptSafe(timeout) && OptSafe(callback)
    ensures var u := Url(base, Written(ProductFields(token, url, fields, discussion, timeout, callback)));
      && ParseUrl(u).0 == base
      && QueryValue(u, "token") == Some(token) && QueryValue(u, "url") == Some(url)
      && QueryValue(u, "fields") == fields && QueryValue(u, "discussion") == discussion
      && QueryValue(u, "timeout") == timeout && QueryValue(u, "callback") == callback
  {
    var es := ProductFields(token, url, fields, discussion, timeout, callback);
    ProductKeysPlain();
    ProductOptionKeysPlain();
    assert DistinctKeys(es) && KeysSafe(es) && ValuesSafe(es);
    WrittenRoundTrip(base, es);
    var url := Url(base, Written(es));
    assert ParseUrl(url) == (base, Written(es));
    WrittenLookup(es, 0);
    WrittenLookup(es, 1);
    WrittenLookup(es, 2);
    WrittenLookup(es, 3);
    WrittenLookup(es, 4);
    WrittenLookup(es, 5);
  }

  /** A server reads every field of `knowledgeGraph` back under its own key. */
  lemma KnowledgeGraphFieldsReadBack(base: string, token: string, query: string, from: Option<string>,
                                     nonCanonicalFacts: Option<string>, size: Option<string>, kgType: Option<string>)
    requires '?' !in base && '#' !in base
    requires ValueSafe(token) && ValueSafe(query) && OptSafe(from) && OptSafe(nonCanonicalFacts)
    requires OptSafe(size) && OptSafe(kgType)
    ensures var u := Url(base, Written(KnowledgeGraphFields(token, query, from, nonCanonicalFacts, size, kgType)));
      && ParseUrl(u).0 == base
      && QueryValue(u, "token") == Some(token) && QueryValue(u, "query") == Some(query)
      && QueryValue(u, "from") == from && QueryValue(u, "nonCanonicalFacts") == nonCanonicalFacts
      && QueryValue(u, "size") == size && QueryValue(u, "type") == kgType
  {
    var es := KnowledgeGraphFields(token, query, from, nonCanonicalFacts, size, kgType);
    ProductKeysPlain();
    KnowledgeGraphKeysPlain();
    KnowledgeGraphOptionKeysPlain();
    assert DistinctKeys(es) && KeysSafe(es) && ValuesSafe(es);
    WrittenRoundTrip(base, es);
    var url := Url(base, Written(es));
    assert ParseUrl(url) == (base, Written(es));
    WrittenLookup(es, 0);
    WrittenLookup(es, 1);
    WrittenLookup(es, 2);
    WrittenLookup(es, 3);
    WrittenLookup(es, 4);
    WrittenLookup(es, 5);
  }

  /** The fields are joined with commas; no field holding '&' or '#' makes the joined text safe. */
  lemma JoinOptSafe(parts: Option<seq<string>>)
    requires parts.Some? ==> forall i :: 0 <= i < |parts.value| ==> ValueSafe(parts.value[i])
    ensures OptSafe(JoinOpt(parts, ","))
  {
    if parts.Some? {
      JoinExcludes(parts.value, ",", '&');
      JoinExcludes(parts.value, ",", '#');
    }
  }

  /** What the Product API reads from the URL `product` fetches: the page URL after decoding,
      the fields joined with commas, `discussion=true` exactly when discussion was true, the
      timeout unless it was 0, and the callback exactly when it was truthy. The fields and the
      callback are not encoded, so they are read back whole only when they hold no '&' or '#'. */
  lemma ProductReadBack(token: string, o: ProductOptions)
    requires o.url.Some?
    requires ValueSafe(token)
    requires o.fields.Some? ==> forall i :: 0 <= i < |o.fields.value| ==> ValueSafe(o.fields.value[i])
    requires TruthyString(o.callback) ==> ValueSafe(o.callback.value)
    ensures var u := Url(ProductEndpoint, Written(ProductEntries(token, o)));
      && ParseUrl(u).0 == ProductEndpoint
      && QueryValue(u, "token") == Some(token)
      && DecodedValue(u, "url") == o.url
      && QueryValue(u, "fields") == JoinOpt(o.fields, ",")
      && QueryValue(u, "discussion") == (if TruthyBool(o.discussion) then Some("true") else None)
      && NumberValue(u, "timeout") == IfNonZero(o.timeout)
      && QueryValue(u, "callback") == IfTruthy(o.callback)
  {
    EncSafe(o.url.value);
    JoinOptSafe(o.fields);
    Crawlbot.NumberOptSafe(IfNonZero(o.timeout));
    ProductEndpointPlain();
    ProductFieldsReadBack(ProductEndpoint, token, Enc(o.url.value), JoinOpt(o.fields, ","),
      BoolTextOpt(IfTrue(o.discussion)), NumberOpt(IfNonZero(o.timeout)), IfTruthy(o.callback));
    DecodeEnc(o.url.value);
    NumberOptRoundTrip(IfNonZero(o.timeout));
  }

  /** The fields and the callback are sent unencoded, so a server that decodes them gets them
      back unchanged only when they hold no '%' (Uri.PercentNotPreserved shows what a '%' does). */
  lemma ProductRawDecoded(token: string, o: ProductOptions)
    requires o.url.Some?
    requires ValueSafe(token)
    requires o.fields.Some? ==> forall i :: 0 <= i < |o.fields.value| ==>
      ValueSafe(o.fields.value[i]) && '%' !in o.fields.value[i]
    requires TruthyString(o.callback) ==> ValueSafe(o.callback.value) && '%' !in o.callback.value
    ensures var u := Url(ProductEndpoint, Written(ProductEntries(token, o)));
      && DecodedValue(u, "fields") == JoinOpt(o.fields, ",")
      && DecodedValue(u, "callback") == IfTruthy(o.callback)
  {
    var u := Url(ProductEndpoint, Written(ProductEntries(token, o)));
    ProductReadBack(token, o);
    if o.fields.Some? {
      JoinExcludes(o.fields.value, ",", '%');
      DecodedPlainValue(u, "fields");
    }
    if TruthyString(o.callback) {
      DecodedPlainValue(u, "callback");
    }
  }

  /** What the Knowledge Graph reads from the URL `knowledgeGraph` fetches: the query after
      decoding (the text "undefined" when none was given), from and size unless they were 0,
      `nonCanonicalFacts=1` exactly when it was true, and the type exactly when it was truthy
      (unencoded, so whole only when it holds no '&' or '#'). */
  lemma KnowledgeGraphReadBack(token: string, o: KnowledgeGraphOptions)
    requires ValueSafe(token)
    requires TruthyString(o.kgType) ==> ValueSafe(o.kgType.value)
    ensures var u := Url(KnowledgeGraphEndpoint, Written(KnowledgeGraphEntries(token, o)));
      && ParseUrl(u).0 == KnowledgeGraphEndpoint
      && QueryValue(u, "token") == Some(token)
      && DecodedValue(u, "query") == Some(StringOf(o.query))
      && NumberValue(u, "from") == IfNonZero(o.from)
      && QueryValue(u, "nonCanonicalFacts") == (if TruthyBool(o.nonCanonicalFacts) then Some("1") else None)
      && NumberValue(u, "size") == IfNonZero(o.size)
      && QueryValue(u, "type") == IfTruthy(o.kgType)
  {
    EncSafe(StringOf(o.query));
    Crawlbot.NumberOptSafe(IfNonZero(o.from));
    Crawlbot.NumberOptSafe(IfNonZero(o.size));
    KnowledgeGraphEndpointPlain();
    KnowledgeGraphFieldsReadBack(KnowledgeGraphEndpoint, token, Enc(StringOf(o.query)), NumberOpt(IfNonZero(o.from)),
      NumericBoolOpt(IfTrue(o.nonCanonicalFacts)), NumberOpt(IfNonZero(o.size)), IfTruthy(o.kgType));
    DecodeEnc(StringOf(o.query));
    NumberOptRoundTrip(IfNonZero(o.from));
    NumberOptRoundTrip(IfNonZero(o.size));
  }

  /** The type is sent unencoded, so a server that decodes it gets it back unchanged only
      when it holds no '%'. */
  lemma KnowledgeGraphTypeDecoded(token: string, o: KnowledgeGraphOptions)
    requires ValueSafe(token)
    requires TruthyString(o.kgType) ==> ValueSafe(o.kgType.value) && '%' !in o.kgType.value
    ensures DecodedValue(Url(KnowledgeGraphEndpoint, Written(KnowledgeGraphEntries(token, o))), "type") == IfTruthy(o.kgType)
  {
    KnowledgeGraphReadBack(token, o);
    if TruthyString(o.kgType) {
      DecodedPlainValue(Url(KnowledgeGraphEndpoint, Written(KnowledgeGraphEntries(token, o))), "type");
    }
  }

  /** What the crawl API reads from the URL `crawl().new` posts: the job name, the seeds joined
      with spaces and the API URL, each after decoding, and no other option. */
  lemma JobReadBack(token: string, o: JobOptions)
    requires o.name.Some? && o.seeds.Some?
    requires ValueSafe(token)
    ensures var u := Url(JobEndpoint, Written(JobEntries(token, o)));
      && ParseUrl(u).0 == JobEndpoint
      && QueryValue(u, "token") == Some(token)
      && DecodedValue(u, "name") == o.name
      && DecodedValue(u, "seeds") == Some(Join(o.seeds.value, " "))
      && DecodedValue(u, "apiUrl") == Some(Crawlbot.ApiUrlOf(AsNewOptions(o)))
      && QueryValue(u, "useCanonical").None? && QueryValue(u, "maxHops").None?
      && QueryValue(u, "maxToCrawl").None? && QueryValue(u, "maxToProcess").None?
      && QueryValue(u, "notifyWebhook").None?
  {
    var apiUrl := Crawlbot.ApiUrlOf(AsNewOptions(o));
    EncSafe(o.name.value);
    EncSafe(Join(o.seeds.value, " "));
    EncSafe(apiUrl);
    JobEndpointPlain();
    Crawlbot.NewFieldsReadBack(JobEndpoint, token, Enc(o.name.value), Enc(Join(o.seeds.value, " ")), Enc(apiUrl),
      None, None, None, None, None);
    DecodeEnc(o.name.value);
    DecodeEnc(Join(o.seeds.value, " "));
    DecodeEnc(apiUrl);
  }

  class DiffBot {
    const token: string

    constructor (token: string)
      requires token != ""
      ensures this.token == token
    {
      this.token := token;
    }

    /** `new DiffBot(token)`: the token must be truthy. */
    static method Create(token: Option<string>) returns (r: Result<DiffBot>)
      ensures !TruthyString(token) ==> r == Err(Error("missing token"))
      ensures TruthyString(token) ==> r.Ok? && fresh(r.value) && r.value.token == token.value
    {
      if !TruthyString(token) {
        return Err(Error("missing token"));
      }
      var bot := new DiffBot(token.value);
      return Ok(bot);
    }

    /** `product(options)` as written: the url is required; a truthy callback makes the method
        read the undeclared identifier `callback`, which throws, so no product request with a
        callback is ever made. */
    method Product(options: ProductOptions) returns (r: Result<FetchCall>)
      ensures !TruthyString(options.url) ==> r == Err(Error("missing url"))
      ensures TruthyString(options.url) && TruthyString(options.callback) ==> r == Err(ReferenceError("callback"))
      ensures TruthyString(options.url) && !TruthyString(options.callback) ==>
        r == Ok(FetchCall(Url(ProductEndpoint, Written(ProductEntries(token, options))), GET))
    {
      if !TruthyString(options.url) {
        return Err(Error("missing url"));
      }
      var url := Start(ProductEndpoint, "token", token);
      url := Append(url, "url", Enc(options.url.value));
      if options.fields.Some? {
        url := Append(url, "fields", Join(options.fields.value, ","));
      }
      if options.discussion == Some(true) {
        url := Append(url, "discussion", BoolText(true));
      }
      if options.timeout.Some? && options.timeout.value != 0 {
        url := Append(url, "timeout", NumberText(options.timeout.value));
      }
      if options.callback.Some? && options.callback.value != "" {
        return Err(ReferenceError("callback"));
      }
      assert url == ProductUrl(token, options);
      ProductUrlFields(token, options);
      return Ok(FetchCall(url, GET));
    }

    /** `product(options)` as evidently intended: the callback option is written as given. */
    method ProductWithCallback(options: ProductOptions) returns (r: Result<FetchCall>)
      ensures !TruthyString(options.url) ==> r == Err(Error("missing url"))
      ensures TruthyString(options.url) ==>
        r == Ok(FetchCall(Url(ProductEndpoint, Written(ProductEntries(token, options))), GET))
    {
      if !TruthyString(options.url) {
        return Err(Error("missing url"));
      }
      var url := Start(ProductEndpoint, "token", token);
      url := Append(url, "url", Enc(options.url.value));
      if options.fields.Some? {
        url := Append(url, "fields", Join(options.fields.value, ","));
      }
      if options.discussion == Some(true) {
        url := Append(url, "discussion", BoolText(true));
      }
      if options.timeout.Some? && options.timeout.value != 0 {
        url := Append(url, "timeout", NumberText(options.timeout.value));
      }
      if options.callback.Some? && options.callback.value != "" {
        url := Append(url, "callback", options.callback.value);
      }
      assert url == ProductUrl(token, options);
      ProductUrlFields(token, options);
      return Ok(FetchCall(url, GET));
    }

    /** `knowledgeGraph(options)`: never throws, not even without a query. */
    method KnowledgeGraph(options: KnowledgeGraphOptions) returns (r: FetchCall)
      ensures r == FetchCall(Url(KnowledgeGraphEndpoint, Written(KnowledgeGraphEntries(token, options))), GET)
    {
      var url := Start(KnowledgeGraphEndpoint, "token", token);
      url := Append(url, "query", Enc(StringOf(options.query)));
      if options.from.Some? && options.from.value != 0 {
        url := Append(url, "from", NumberText(options.from.value));
      }
      if options.nonCanonicalFacts == Some(true) {
        url := Append(url, "nonCanonicalFacts", NumericBool(true));
      }
      if options.size.Some? && options.size.value != 0 {
        url := Append(url, "size", NumberText(options.size.value));
      }
      if options.kgType.Some? && options.kgType.value != "" {
        url := Append(url, "type", options.kgType.value);
      }
      assert url == KnowledgeGraphUrl(token, options);
      KnowledgeGraphUrlFields(token, options);
      return FetchCall(url, GET);
    }

    /** `crawl()`: a fresh object carrying this token, whose `new` creates crawl jobs. */
    method Crawl() returns (h: CrawlHandle)
      ensures fresh(h) && h.token == token
    {
      h := new CrawlHandle(token);
    }
  }

  /** The object `crawl()` returns. */
  class CrawlHandle {
    const token: string

    constructor (token: string)
      ensures this.token == token
    {
      this.token := token;
    }

    /** `new(options)`: a missing name is reported before missing seeds (an empty seeds array
        passes); the job is created with a POST of name, seeds and apiUrl only. */
    method New(options: JobOptions) returns (r: Result<FetchCall>)
      ensures !TruthyString(options.name) ==> r == Err(Error("missing name"))
      ensures TruthyString(options.name) && options.seeds.None? ==> r == Err(Error("missing seeds"))
      ensures TruthyString(options.name) && options.seeds.Some? ==>
        r == Ok(FetchCall(Url(JobEndpoint, Written(JobEntries(token, options))), POST))
    {
      if !TruthyString(options.name) {
        return Err(Error("missing name"));
      } else if options.seeds.None? {
        return Err(Error("missing seeds"));
      }
      var url := Start(JobEndpoint, "token", token);
      url := Append(url, "name", Enc(options.name.value));
      url := Append(url, "seeds", Enc(Join(options.seeds.value, " ")));
      if options.apiUrl.Some? && options.apiUrl.value != "" {
        url := Append(url, "apiUrl", Enc(options.apiUrl.value));
      } else {
        url := Append(url, "apiUrl", Enc(Crawlbot.DefaultApiUrl));
      }
      assert url == JobUrl(token, options);
      JobUrlFields(token, options);
      return Ok(FetchCall(url, POST));
    }
  }
}
