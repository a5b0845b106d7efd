/** Class `Crawlbot` (src/crawlbot.js): checks the options of each crawl-job operation in a fixed
    order, throwing a named error, then grows the request URL by guarded appends. The `fetch`
    each method ends with is represented by the FetchCall it would make. */
module Crawlbot {
  import opened Js
  import opened Uri
  import opened Http

  const CrawlEndpoint: string := "https://api.diffbot.com/v3/crawl"
  const CrawlDataEndpoint: string := "https://api.diffbot.com/v3/crawl/data"
  /** The Analyze API URL a new job processes pages through when no `apiUrl` is given. */
  const DefaultApiUrl: string := "https://api.diffbot.com/v3/analyze?mode=auto"

  /** The options of `new`. */
  datatype NewOptions = NewOptions(
    name: Option<string>,
    seeds: Option<seq<string>>,
    apiUrl: Option<string>,
    useCanonical: Option<bool>,
    maxHops: Option<int>,
    maxToCrawl: Option<int>,
    maxToProcess: Option<int>,
    notifyWebhook: Option<string>)

  /** The options of `get`; `reportType` is the `type` option (`type` is a keyword in Dafny). */
  datatype GetOptions = GetOptions(
    name: Option<string>,
    format: Option<string>,
    reportType: Option<string>,
    num: Option<int>)

  // The query fields each operation may write, in the order it writes them.

  /** The API URL a new job uses: the one given when truthy, the Analyze API otherwise. */
  function ApiUrlOf(o: NewOptions): string
  {
    if TruthyString(o.apiUrl) then o.apiUrl.value else DefaultApiUrl
  }

  /** The fields of `new` from the values as written: token, name, seeds and apiUrl always,
      then useCanonical, maxHops, maxToCrawl, maxToProcess and notifyWebhook when they have one. */
  function NewFields(token: string, name: string, seeds: string, apiUrl: string, useCanonical: Option<string>,
                     maxHops: Option<string>, maxToCrawl: Option<string>, maxToProcess: Option<string>,
                     notifyWebhook: Option<string>): seq<Entry>
  {
    [Entry("token", Some(token)), Entry("name", Some(name)), Entry("seeds", Some(seeds)),
     Entry("apiUrl", Some(apiUrl)), Entry("useCanonical", useCanonical), Entry("maxHops", maxHops),
     Entry("maxToCrawl", maxToCrawl), Entry("maxToProcess", maxToProcess), Entry("notifyWebhook", notifyWebhook)]
  }

  /** `new`: name, seeds (joined with spaces) and apiUrl, percent-encoded, always;
      useCanonical (as 1 or 0), maxHops, maxToCrawl and maxToProcess whenever defined, so 0
      and false are written; notifyWebhook, unencoded, only when truthy. */
  function NewEntries(token: string, o: NewOptions): seq<Entry>
    requires o.name.Some? && o.seeds.Some?
  {
    NewFields(token, Enc(o.name.value), Enc(Join(o.seeds.value, " ")), Enc(ApiUrlOf(o)),
      NumericBoolOpt(o.useCanonical), NumberOpt(o.maxHops), NumberOpt(o.maxToCrawl), NumberOpt(o.maxToProcess),
      IfTruthy(o.notifyWebhook))
  }

  /** The fields of `get` from the values as written: token and name, then format, type and num
      when they have one. */
  function GetFields(token: string, name: string, format: Option<string>, reportType: Option<string>,
                     num: Option<string>): seq<Entry>
  {
    [Entry("token", Some(token)), Entry("name", Some(name)), Entry("format", format),
     Entry("type", reportType), Entry("num", num)]
  }

  /** `get`: the name, and format, type and num only when truthy, all percent-encoded. */
  function GetEntries(token: string, o: GetOptions): seq<Entry>
    requires o.name.Some?
  {
    GetFields(token, Enc(o.name.value), EncOpt(IfTruthy(o.format)), EncOpt(IfTruthy(o.reportType)),
      EncOpt(NumberOpt(IfNonZero(o.num))))
  }

  /** `pause`, `resume` and `delete`: the name, percent-encoded, and the field naming the action. */
  function ControlEntries(token: string, name: string, action: Param): seq<Entry>
  {
    [Entry("token", Some(token)), Entry("name", Some(Enc(name))), Entry(action.key, Some(action.value))]
  }

  const PauseAction: Param := Param("pause", "1")
  const ResumeAction: Param := Param("pause", "0")
  const DeleteAction: Param := Param("delete", "1")

  predicate IsAction(action: Param)
  {
    action == PauseAction || action == ResumeAction || action == DeleteAction
  }

  /** `details`: the name, percent-encoded, only when truthy. */
  function DetailsEntries(token: string, name: Option<string>): seq<Entry>
  {
    [Entry("token", Some(token)), Entry("name", EncOpt(IfTruthy(name)))]
  }

  /** The formats `get` accepts: none given, or one of csv and json. */
  predicate ValidFormat(format: Option<string>)
  {
    !TruthyString(format) || format.value == "csv" || format.value == "json"
  }

  /** The report types `get` accepts: none given, or urls. */
  predicate ValidReportType(reportType: Option<string>)
  {
    !TruthyString(reportType) || reportType.value == "urls"
  }

  // Proof scaffolding: each method's append chain as one term (a first field after '?', then
  // `&key=value` appends), so a single lemma can equate it with `Url(endpoint, Written(entries))`.

  function NewUrl(token: string, o: NewOptions): string
    requires o.name.Some? && o.seeds.Some?
  {
    var url := Start(CrawlEndpoint, "token", token);
    var url := Append(url, "name", Enc(o.name.value));
    var url := Append(url, "seeds", Enc(Join(o.seeds.value, " ")));
    var url := Append(url, "apiUrl", Enc(ApiUrlOf(o)));
    var url := AppendOpt(url, "useCanonical", NumericBoolOpt(o.useCanonical));
    var url := AppendOpt(url, "maxHops", NumberOpt(o.maxHops));
    var url := AppendOpt(url, "maxToCrawl", NumberOpt(o.maxToCrawl));
    var url := AppendOpt(url, "maxToProcess", NumberOpt(o.maxToProcess));
    AppendOpt(url, "notifyWebhook", IfTruthy(o.notifyWebhook))
  }

  function GetUrl(token: string, o: GetOptions): string
    requires o.name.Some?
  {
    var url := Start(CrawlDataEndpoint, "token", token);
    var url := Append(url, "name", Enc(o.name.value));
    var url := AppendOpt(url, "format", EncOpt(IfTruthy(o.format)));
    var url := AppendOpt(url, "type", EncOpt(IfTruthy(o.reportType)));
    AppendOpt(url, "num", EncOpt(NumberOpt(IfNonZero(o.num))))
  }

  /** Writing the fields of `new` one guarded append at a time gives the URL with exactly
      those fields. */
  lemma NewFieldsUrl(base: string, token: string, name: string, seeds: string, apiUrl: string,
                     useCanonical: Option<string>, maxHops: Option<string>, maxToCrawl: Option<string>,
                     maxToProcess: Option<string>, notifyWebhook: Option<string>)
    ensures var url := Start(base, "token", token);
      var url := Append(url, "name", name);
      var url := Append(url, "seeds", seeds);
      var url := Append(url, "apiUrl", apiUrl);
      var url := AppendOpt(url, "useCanonical", useCanonical);
      var url := AppendOpt(url, "maxHops", maxHops);
      var url := AppendOpt(url, "maxToCrawl", maxToCrawl);
      var url := AppendOpt(url, "maxToProcess", maxToProcess);
      AppendOpt(url, "notifyWebhook", notifyWebhook)
        == Url(base, Written(NewFields(token, name, seeds, apiUrl, useCanonical, maxHops, maxToCrawl, maxToProcess, notifyWebhook)))
  {
    var es := [Entry("token", Some(token))];
    UrlWrittenStart(base, "token", token);
    UrlWrittenSnoc(base, es, Entry("name", Some(name)));
    es := es + [Entry("name", Some(name))];
    UrlWrittenSnoc(base, es, Entry("seeds", Some(seeds)));
    es := es + [Entry("seeds", Some(seeds))];
    UrlWrittenSnoc(base, es, Entry("apiUrl", Some(apiUrl)));
    es := es + [Entry("apiUrl", Some(apiUrl))];
    UrlWrittenSnoc(base, es, Entry("useCanonical", useCanonical));
    es := es + [Entry("useCanonical", useCanonical)];
    UrlWrittenSnoc(base, es, Entry("maxHops", maxHops));
    es := es + [Entry("maxHops", maxHops)];
    UrlWrittenSnoc(base, es, Entry("maxToCrawl", maxToCrawl));
    es := es + [Entry("maxToCrawl", maxToCrawl)];
    UrlWrittenSnoc(base, es, Entry("maxToProcess", maxToProcess));
    es := es + [Entry("maxToProcess", maxToProcess)];
    UrlWrittenSnoc(base, es, Entry("notifyWebhook", notifyWebhook));
    es := es + [Entry("notifyWebhook", notifyWebhook)];
    assert es == NewFields(token, name, seeds, apiUrl, useCanonical, maxHops, maxToCrawl, maxToProcess, notifyWebhook);
  }

  /** The URL `new` writes is the crawl endpoint with exactly the fields of NewEntries. */
  lemma NewUrlFields(token: string, o: NewOptions)
    requires o.name.Some? && o.seeds.Some?
    ensures NewUrl(token, o) == Url(CrawlEndpoint, Written(NewEntries(token, o)))
  {
    NewFieldsUrl(CrawlEndpoint, token, Enc(o.name.value), Enc(Join(o.seeds.value, " ")), Enc(ApiUrlOf(o)),
      NumericBoolOpt(o.useCanonical), NumberOpt(o.maxHops), NumberOpt(o.maxToCrawl), NumberOpt(o.maxToProcess),
      IfTruthy(o.notifyWebhook));
  }

  /** Writing the fields of `get` one guarded append at a time gives the URL with exactly
      those fields. */
  lemma GetFieldsUrl(base: string, token: string, name: string, format: Option<string>,
                     reportType: Option<string>, num: Option<string>)
    ensures var url := Start(base, "token", token);
      var url := Append(url, "name", name);
      var url := AppendOpt(url, "format", format);
      var url := AppendOpt(url, "type", reportType);
      AppendOpt(url, "num", num) == Url(base, Written(GetFields(token, name, format, reportType, num)))
  {
    var es := [Entry("token", Some(token))];
    UrlWrittenStart(base, "token", token);
    UrlWrittenSnoc(base, es, Entry("name", Some(name)));
    es := es + [Entry("name", Some(name))];
    UrlWrittenSnoc(base, es, Entry("format", format));
    es := es + [Entry("format", format)];
    UrlWrittenSnoc(base, es, Entry("type", reportType));
    es := es + [Entry("type", reportType)];
    UrlWrittenSnoc(base, es, Entry("num", num));
    es := es + [Entry("num", num)];
    assert es == GetFields(token, name, format, reportType, num);
  }

  /** The URL `get` writes is the crawl-data endpoint with exactly the fields of GetEntries. */
  lemma GetUrlFields(token: string, o: GetOptions)
    requires o.name.Some?
    ensures GetUrl(token, o) == Url(CrawlDataEndpoint, Written(GetEntries(token, o)))
  {
    GetFieldsUrl(CrawlDataEndpoint, token, Enc(o.name.value), EncOpt(IfTruthy(o.format)),
      EncOpt(IfTruthy(o.reportType)), EncOpt(NumberOpt(IfNonZero(o.num))));
  }

  // What the API server reads back from each request URL.

  /** Neither endpoint has a query or a fragment of its own. */
  lemma EndpointsPlain()
    ensures '?' !in CrawlEndpoint && '#' !in CrawlEndpoint
    ensures '?' !in CrawlDataEndpoint && '#' !in CrawlDataEndpoint
  {
  }

  // No key any operation writes holds a separator (in small groups, which the solver checks
  // character by character).

  lemma JobKeysPlain()
    ensures KeySafe("token") && KeySafe("name") && KeySafe("seeds")
  {
  }

  lemma SettingKeysPlain()
    ensures KeySafe("apiUrl") && KeySafe("useCanonical") && KeySafe("maxHops")
  {
  }

  lemma LimitKeysPlain()
    ensures KeySafe("maxToCrawl") && KeySafe("maxToProcess") && KeySafe("notifyWebhook")
  {
  }

  lemma QueryKeysPlain()
    ensures KeySafe("format") && KeySafe("type") && KeySafe("num") && KeySafe("pause") && KeySafe("delete")
  {
  }

  /** The keys of `new` are distinct, so each field is found under its own key. */
  lemma NewKeysDistinct(token: string, name: string, seeds: string, apiUrl: string, useCanonical: Option<string>,
      maxHops: Option<string>, maxToCrawl: Option<string>, maxToProcess: Option<string>, notifyWebhook: Option<string>)
    ensures DistinctKeys(NewFields(token, name, seeds, apiUrl, useCanonical, maxHops, maxToCrawl, maxToProcess, notifyWebhook))
  {
  }

  /** The keys of `new` hold no separator. */
  lemma NewKeysSafe(token: string, name: string, seeds: string, apiUrl: string, useCanonical: Option<string>,
      maxHops: Option<string>, maxToCrawl: Option<string>, maxToProcess: Option<string>, notifyWebhook: Option<string>)
    ensures KeysSafe(NewFields(token, name, seeds, apiUrl, useCanonical, maxHops, maxToCrawl, maxToProcess, notifyWebhook))
  {
    JobKeysPlain();
    SettingKeysPlain();
    LimitKeysPlain();
  }

  /** The query of `new` reads back whole when no value holds '&' or '#'. */
  lemma NewValuesSafe(token: string, name: string, seeds: string, apiUrl: string, useCanonical: Option<string>,
      maxHops: Option<string>, maxToCrawl: Option<string>, maxToProcess: Option<string>, notifyWebhook: Option<string>)
    requires ValueSafe(token) && ValueSafe(name) && ValueSafe(seeds) && ValueSafe(apiUrl)
    requires OptSafe(useCanonical) && OptSafe(maxHops) && OptSafe(maxToCrawl) && OptSafe(maxToProcess)
    requires OptSafe(notifyWebhook)
    ensures ValuesSafe(NewFields(token, name, seeds, apiUrl, useCanonical, maxHops, maxToCrawl, maxToProcess, notifyWebhook))
  {
  }

  lemma NumberOptSafe(n: Option<int>)
    ensures OptSafe(NumberOpt(n))
  {
    if n.Some? {
      NumberTextSafe(n.value);
    }
  }

  /** A server reads every field of `new` back under its own key. */
  lemma NewFieldsReadBack(base: string, token: string, name: string, seeds: string, apiUrl: string, useCanonical: Option<string>,
      maxHops: Option<string>, maxToCrawl: Option<string>, maxToProcess: Option<string>, notifyWebhook: Option<string>)
    requires '?' !in base && '#' !in base
    requires ValueSafe(token) && ValueSafe(name) && ValueSafe(seeds) && ValueSafe(apiUrl)
    requires OptSafe(useCanonical) && OptSafe(maxHops) && OptSafe(maxToCrawl) && OptSafe(maxToProcess)
    requires OptSafe(notifyWebhook)
    ensures var url := Url(base, Written(NewFields(token, name, seeds, apiUrl, useCanonical, maxHops, maxToCrawl, maxToProcess, notifyWebhook)));
      && ParseUrl(url).0 == base
      && QueryValue(url, "token") == Some(token) && QueryValue(url, "name") == Some(name)
      && QueryValue(url, "seeds") == Some(seeds) && QueryValue(url, "apiUrl") == Some(apiUrl)
      && QueryValue(url, "useCanonical") == useCanonical && QueryValue(url, "maxHops") == maxHops
      && QueryValue(url, "maxToCrawl") == maxToCrawl && QueryValue(url, "maxToProcess") == maxToProcess
      && QueryValue(url, "notifyWebhook") == notifyWebhook
  {
    var es := NewFields(token, name, seeds, apiUrl, useCanonical, maxHops, maxToCrawl, maxToProcess, notifyWebhook);
    NewKeysDistinct(token, name, seeds, apiUrl, useCanonical, maxHops, maxToCrawl, maxToProcess, notifyWebhook);
    NewKeysSafe(token, name, seeds, apiUrl, useCanonical, maxHops, maxToCrawl, maxToProcess, notifyWebhook);
    NewValuesSafe(token, name, seeds, apiUrl, useCanonical, maxHops, maxToCrawl, maxToProcess, notifyWebhook);
    WrittenRoundTrip(base, es);
    var url := Url(base, Written(es));
    assert ParseUrl(url) == (base, Written(es));
    WrittenLookup(es, 0);
    WrittenLookup(es, 1);
    WrittenLookup(es, 2);
    WrittenLookup(es, 3);
    WrittenLookup(es, 4);
    WrittenLookup(es, 5);
    WrittenLookup(es, 6);
    WrittenLookup(es, 7);
    WrittenLookup(es, 8);
  }

  /** What the crawl API reads from the URL `new` posts: the endpoint, and every option back
      as it was given (text options after decoding, numbers after parsing). */
  lemma NewReadBack(token: string, o: NewOptions)
    requires o.name.Some? && o.seeds.Some?
    requires ValueSafe(token)
    requires TruthyString(o.notifyWebhook) ==> ValueSafe(o.notifyWebhook.value)
    ensures var url := Url(CrawlEndpoint, Written(NewEntries(token, o)));
      && ParseUrl(url).0 == CrawlEndpoint
      && QueryValue(url, "token") == Some(token)
      && DecodedValue(url, "name") == o.name
      && DecodedValue(url, "seeds") == Some(Join(o.seeds.value, " "))
      && DecodedValue(url, "apiUrl") == Some(ApiUrlOf(o))
      && QueryValue(url, "useCanonical") == NumericBoolOpt(o.useCanonical)
      && NumberValue(url, "maxHops") == o.maxHops
      && NumberValue(url, "maxToCrawl") == o.maxToCrawl
      && NumberValue(url, "maxToProcess") == o.maxToProcess
      && QueryValue(url, "notifyWebhook") == IfTruthy(o.notifyWebhook)
  {
    EncSafe(o.name.value);
    EncSafe(Join(o.seeds.value, " "));
    EncSafe(ApiUrlOf(o));
    NumberOptSafe(o.maxHops);
    NumberOptSafe(o.maxToCrawl);
    NumberOptSafe(o.maxToProcess);
    EndpointsPlain();
    NewFieldsReadBack(CrawlEndpoint, token, Enc(o.name.value), Enc(Join(o.seeds.value, " ")), Enc(ApiUrlOf(o)),
      NumericBoolOpt(o.useCanonical), NumberOpt(o.maxHops), NumberOpt(o.maxToCrawl), NumberOpt(o.maxToProcess),
      IfTruthy(o.notifyWebhook));
    DecodeEnc(o.name.value);
    DecodeEnc(Join(o.seeds.value, " "));
    DecodeEnc(ApiUrlOf(o));
    NumberOptRoundTrip(o.maxHops);
    NumberOptRoundTrip(o.maxToCrawl);
    NumberOptRoundTrip(o.maxToProcess);
  }

  /** The seeds travel as one space-separated text: a server splitting it on spaces gets the
      seed list back, as long as there is a seed and none holds a space. */
  lemma NewSeedsReadBack(token: string, o: NewOptions)
    requires o.name.Some? && o.seeds.Some?
    requires ValueSafe(token)
    requires TruthyString(o.notifyWebhook) ==> ValueSafe(o.notifyWebhook.value)
    requires |o.seeds.value| >= 1 && forall i :: 0 <= i < |o.seeds.value| ==> ' ' !in o.seeds.value[i]
    ensures var seeds := DecodedValue(Url(CrawlEndpoint, Written(NewEntries(token, o))), "seeds");
      seeds.Some? && Split(seeds.value, ' ') == o.seeds.value
  {
    NewReadBack(token, o);
    SplitJoin(o.seeds.value, ' ');
  }

  /** notifyWebhook is sent unencoded, so a server that decodes it gets it back unchanged
      only when it holds no '%' (Uri.PercentNotPreserved shows what a '%' does). */
  lemma NewWebhookDecoded(token: string, o: NewOptions)
    requires o.name.Some? && o.seeds.Some?
    requires ValueSafe(token)
    requires TruthyString(o.notifyWebhook) ==> ValueSafe(o.notifyWebhook.value) && '%' !in o.notifyWebhook.value
    ensures DecodedValue(Url(CrawlEndpoint, Written(NewEntries(token, o))), "notifyWebhook") == IfTruthy(o.notifyWebhook)
  {
    NewReadBack(token, o);
    if TruthyString(o.notifyWebhook) {
      DecodedPlainValue(Url(CrawlEndpoint, Written(NewEntries(token, o))), "notifyWebhook");
    }
  }

  /** The keys of `get` are distinct and need no protecting. */
  lemma GetFieldsReadable(token: string, name: string, format: Option<string>, reportType: Option<string>,
                          num: Option<string>)
    requires ValueSafe(token) && ValueSafe(name) && OptSafe(format) && OptSafe(reportType) && OptSafe(num)
    ensures var es := GetFields(token, name, format, reportType, num);
      DistinctKeys(es) && KeysSafe(es) && ValuesSafe(es)
  {
    JobKeysPlain();
    QueryKeysPlain();
  }

  /** A server reads every field of `get` back under its own key. */
  lemma GetFieldsReadBack(base: string, token: string, name: string, format: Option<string>,
                          reportType: Option<string>, num: Option<string>)
    requires '?' !in base && '#' !in base
    requires ValueSafe(token) && ValueSafe(name) && OptSafe(format) && OptSafe(reportType) && OptSafe(num)
    ensures var url := Url(base, Written(GetFields(token, name, format, reportType, num)));
      && ParseUrl(url).0 == base
      && QueryValue(url, "token") == Some(token) && QueryValue(url, "name") == Some(name)
      && QueryValue(url, "format") == format && QueryValue(url, "type") == reportType
      && QueryValue(url, "num") == num
  {
    var es := GetFields(token, name, format, reportType, num);
    GetFieldsReadable(token, name, format, reportType, num);
    WrittenRoundTrip(base, es);
    var url := Url(base, Written(es));
    assert ParseUrl(url) == (base, Written(es));
    WrittenLookup(es, 0);
    WrittenLookup(es, 1);
    WrittenLookup(es, 2);
    WrittenLookup(es, 3);
    WrittenLookup(es, 4);
  }

  lemma EncOptSafe(s: Option<string>)
    ensures OptSafe(EncOpt(s))
  {
    if s.Some? {
      EncSafe(s.value);
    }
  }

  /** What the crawl API reads from the URL `get` fetches: the job name, and format and type
      after decoding exactly when they were truthy; num as the number given unless it was 0. */
  lemma GetReadBack(token: string, o: GetOptions)
    requires o.name.Some?
    requires ValueSafe(token)
    ensures var url := Url(CrawlDataEndpoint, Written(GetEntries(token, o)));
      && ParseUrl(url).0 == CrawlDataEndpoint
      && QueryValue(url, "token") == Some(token)
      && DecodedValue(url, "name") == o.name
      && DecodedValue(url, "format") == IfTruthy(o.format)
      && DecodedValue(url, "type") == IfTruthy(o.reportType)
      && NumberValue(url, "num") == IfNonZero(o.num)
  {
    EncSafe(o.name.value);
    EncOptSafe(IfTruthy(o.format));
    EncOptSafe(IfTruthy(o.reportType));
    EncOptSafe(NumberOpt(IfNonZero(o.num)));
    EndpointsPlain();
    GetFieldsReadBack(CrawlDataEndpoint, token, Enc(o.name.value), EncOpt(IfTruthy(o.format)),
      EncOpt(IfTruthy(o.reportType)), EncOpt(NumberOpt(IfNonZero(o.num))));
    DecodeEnc(o.name.value);
    if TruthyString(o.format) {
      DecodeEnc(o.format.value);
    }
    if TruthyString(o.reportType) {
      DecodeEnc(o.reportType.value);
    }
    if TruthyNumber(o.num) {
      EncNumberText(o.num.value);
      NumberTextRoundTrip(o.num.value);
    }
  }

  /** An action's field has a key of its own that needs no protecting. */
  lemma ActionReadable(action: Param)
    requires IsAction(action)
    ensures action.key != "token" && action.key != "name"
    ensures KeySafe(action.key) && ValueSafe(action.value)
  {
    QueryKeysPlain();
  }

  /** What the crawl API reads from the URL `pause`, `resume` or `delete` posts: the job name
      and the action's own field. */
  lemma ControlReadBack(token: string, name: string, action: Param)
    requires ValueSafe(token) && IsAction(action)
    ensures var url := Url(CrawlEndpoint, Written(ControlEntries(token, name, action)));
      && ParseUrl(url).0 == CrawlEndpoint
      && QueryValue(url, "token") == Some(token)
      && DecodedValue(url, "name") == Some(name)
      && QueryValue(url, action.key) == Some(action.value)
  {
    var es := ControlEntries(token, name, action);
    EncSafe(name);
    ActionReadable(action);
    JobKeysPlain();
    assert DistinctKeys(es) && KeysSafe(es) && ValuesSafe(es);
    EndpointsPlain();
    WrittenRoundTrip(CrawlEndpoint, es);
    var url := Url(CrawlEndpoint, Written(es));
    assert ParseUrl(url) == (CrawlEndpoint, Written(es));
    WrittenLookup(es, 0);
    WrittenLookup(es, 1);
    WrittenLookup(es, 2);
    DecodeEnc(name);
  }

  /** What the crawl API reads from the URL `details` fetches: the job name exactly when one
      was given. */
  lemma DetailsReadBack(token: string, name: Option<string>)
    requires ValueSafe(token)
    ensures var url := Url(CrawlEndpoint, Written(DetailsEntries(token, name)));
      && ParseUrl(url).0 == CrawlEndpoint
      && QueryValue(url, "token") == Some(token)
      && QueryValue(url, "name") == EncOpt(IfTruthy(name))
      && DecodedValue(url, "name") == IfTruthy(name)
  {
    var es := DetailsEntries(token, name);
    EncOptSafe(IfTruthy(name));
    JobKeysPlain();
    assert DistinctKeys(es) && KeysSafe(es) && ValuesSafe(es);
    EndpointsPlain();
    WrittenRoundTrip(CrawlEndpoint, es);
    var url := Url(CrawlEndpoint, Written(es));
    assert ParseUrl(url) == (CrawlEndpoint, Written(es));
    WrittenLookup(es, 0);
    WrittenLookup(es, 1);
    if TruthyString(name) {
      DecodeEnc(name.value);
    }
  }

  class Crawlbot {
    const token: string
    /** Stored by the constructor; no operation reads it (each takes the job name from its options). */
    const name: string

    constructor (token: string, name: string)
      requires token != "" && name != ""
      ensures this.token == token && this.name == name
    {
      this.token := token;
      this.name := name;
    }

    /** `new Crawlbot(token, name)`: the token is checked first, then the name, and both are
        stored only when both are truthy. */
    static method Create(token: Option<string>, name: Option<string>) returns (r: Result<Crawlbot>)
      ensures !TruthyString(token) ==> r == Err(Error("missing token"))
      ensures TruthyString(token) && !TruthyString(name) ==> r == Err(Error("missing name"))
      ensures TruthyString(token) && TruthyString(name) ==>
        r.Ok? && fresh(r.value) && r.value.token == token.value && r.value.name == name.value
    {
      if !TruthyString(token) {
        return Err(Error("missing token"));
      }
      if !TruthyString(name) {
        return Err(Error("missing name"));
      }
      var bot := new Crawlbot(token.value, name.value);
      return Ok(bot);
    }

    /** `new(options)`: a missing name is reported before missing seeds (an empty seeds array
        passes); the job is created with a POST. */
    method New(options: NewOptions) returns (r: Result<FetchCall>)
      ensures !TruthyString(options.name) ==> r == Err(Error("missing name"))
      ensures TruthyString(options.name) && options.seeds.None? ==> r == Err(Error("missing seeds"))
      ensures TruthyString(options.name) && options.seeds.Some? ==>
        r == Ok(FetchCall(Url(CrawlEndpoint, Written(NewEntries(token, options))), POST))
    {
      if !TruthyString(options.name) {
        return Err(Error("missing name"));
      } else if options.seeds.None? {
        return Err(Error("missing seeds"));
      }
      var url := Start(CrawlEndpoint, "token", token);
      url := Append(url, "name", Enc(options.name.value));
      url := Append(url, "seeds", Enc(Join(options.seeds.value, " ")));
      if options.apiUrl.Some? && options.apiUrl.value != "" {
        url := Append(url, "apiUrl", Enc(options.apiUrl.value));
      } else {
        url := Append(url, "apiUrl", Enc(DefaultApiUrl));
      }
      if options.useCanonical.Some? {
        url := Append(url, "useCanonical", NumericBool(options.useCanonical.value));
      }
      if options.maxHops.Some? {
        url := Append(url, "maxHops", NumberText(options.maxHops.value));
      }
      if options.maxToCrawl.Some? {
        url := Append(url, "maxToCrawl", NumberText(options.maxToCrawl.value));
      }
      if options.maxToProcess.Some? {
        url := Append(url, "maxToProcess", NumberText(options.maxToProcess.value));
      }
      if options.notifyWebhook.Some? && options.notifyWebhook.value != "" {
        url := Append(url, "notifyWebhook", options.notifyWebhook.value);
      }
      assert url == NewUrl(token, options);
      NewUrlFields(token, options);
      return Ok(FetchCall(url, POST));
    }

    /** `get(options)`: the name is checked first, then the format, then the report type; the
        results are fetched with a GET. */
    method Get(options: GetOptions) returns (r: Result<FetchCall>)
      ensures !TruthyString(options.name) ==> r == Err(Error("missing name"))
      ensures TruthyString(options.name) && !ValidFormat(options.format) ==> r == Err(Error("invalid format"))
      ensures TruthyString(options.name) && ValidFormat(options.format) && !ValidReportType(options.reportType) ==>
        r == Err(Error("invalid type"))
      ensures TruthyString(options.name) && ValidFormat(options.format) && ValidReportType(options.reportType) ==>
        r == Ok(FetchCall(Url(CrawlDataEndpoint, Written(GetEntries(token, options))), GET))
    {
      if !TruthyString(options.name) {
        return Err(Error("missing name"));
      } else if TruthyString(options.format) && !(options.format.value in ["csv", "json"]) {
        return Err(Error("invalid format"));
      } else if TruthyString(options.reportType) && options.reportType.value != "urls" {
        return Err(Error("invalid type"));
      }
      var url := Start(CrawlDataEndpoint, "token", token);
      url := Append(url, "name", Enc(options.name.value));
      if options.format.Some? && options.format.value != "" {
        url := Append(url, "format", Enc(options.format.value));
      }
      if options.reportType.Some? && options.reportType.value != "" {
        url := Append(url, "type", Enc(options.reportType.value));
      }
      if options.num.Some? && options.num.value != 0 {
        url := Append(url, "num", Enc(NumberText(options.num.value)));
      }
      assert url == GetUrl(token, options);
      GetUrlFields(token, options);
      return Ok(FetchCall(url, GET));
    }

    /** `pause`, `resume` and `delete` share one shape: the name is required, and the job is
        addressed by a POST to the crawl endpoint carrying the action's field. */
    method Control(name: Option<string>, action: Param) returns (r: Result<FetchCall>)
      ensures !TruthyString(name) ==> r == Err(Error("missing name"))
      ensures TruthyString(name) ==> r == Ok(FetchCall(Url(CrawlEndpoint, Written(ControlEntries(token, name.value, action))), POST))
    {
      if !TruthyString(name) {
        return Err(Error("missing name"));
      }
      var encoded := Enc(name.value);
      var url := Start(CrawlEndpoint, "token", token);
      url := Append(url, "name", encoded);
      url := Append(url, action.key, action.value);
      ghost var es := [Entry("token", Some(token))];
      UrlWrittenStart(CrawlEndpoint, "token", token);
      UrlWrittenSnoc(CrawlEndpoint, es, Entry("name", Some(encoded)));
      es := es + [Entry("name", Some(encoded))];
      UrlWrittenSnoc(CrawlEndpoint, es, Entry(action.key, Some(action.value)));
      es := es + [Entry(action.key, Some(action.value))];
      assert es == ControlEntries(token, name.value, action);
      return Ok(FetchCall(url, POST));
    }

    /** `pause(options)`: `pause=1`. */
    method Pause(name: Option<string>) returns (r: Result<FetchCall>)
      ensures !TruthyString(name) ==> r == Err(Error("missing name"))
      ensures TruthyString(name) ==> r == Ok(FetchCall(Url(CrawlEndpoint, Written(ControlEntries(token, name.value, PauseAction))), POST))
    {
      r := Control(name, PauseAction);
    }

    /** `resume(options)`: `pause=0`. */
    method Resume(name: Option<string>) returns (r: Result<FetchCall>)
      ensures !TruthyString(name) ==> r == Err(Error("missing name"))
      ensures TruthyString(name) ==> r == Ok(FetchCall(Url(CrawlEndpoint, Written(ControlEntries(token, name.value, ResumeAction))), POST))
    {
      r := Control(name, ResumeAction);
    }

    /** `delete(options)`: `delete=1`. */
    method Delete(name: Option<string>) returns (r: Result<FetchCall>)
      ensures !TruthyString(name) ==> r == Err(Error("missing name"))
      ensures TruthyString(name) ==> r == Ok(FetchCall(Url(CrawlEndpoint, Written(ControlEntries(token, name.value, DeleteAction))), POST))
    {
      r := Control(name, DeleteAction);
    }

    /** `details(options)`: never throws; without a name it asks for every job of the token. */
    method Details(name: Option<string>) returns (r: FetchCall)
      ensures r == FetchCall(Url(CrawlEndpoint, Written(DetailsEntries(token, name))), GET)
    {
      var url := Start(CrawlEndpoint, "token", token);
      UrlWrittenStart(CrawlEndpoint, "token", token);
      UrlWrittenSnoc(CrawlEndpoint, [Entry("token", Some(token))], Entry("name", EncOpt(IfTruthy(name))));
      assert [Entry("token", Some(token))] + [Entry("name", EncOpt(IfTruthy(name)))] == DetailsEntries(token, name);
      if name.Some? && name.value != "" {
        url := Append(url, "name", Enc(name.value));
      }
      return FetchCall(url, GET);
    }
  }
}
