/** `generate` (src/lib/request.js): the request descriptor handed to the executor.
    The executor itself (`exec`, an axios call) is I/O and is not modelled. */
module Request {
  import opened Js

  /** `{ url, method, body, headers }`; `method` is a keyword in Dafny, hence `httpMethod`. */
  datatype Descriptor = Descriptor(url: string, httpMethod: string, body: Option<string>, headers: map<string, string>)

  const ContentType: string := "Content-Type"
  const Html: string := "text/html"
  const PlainText: string := "text/plain"

  /** `{ ...customHeaders }`: a copy of the caller's headers; spreading `undefined` gives `{}`. */
  function Spread(customHeaders: Option<map<string, string>>): map<string, string>
  {
    match customHeaders
    case None => map[]
    case Some(h) => h
  }

  /** `generate(url, method = 'GET', body, customHeaders)`. The default applies only to an
      omitted method. A truthy body replaces every header by one Content-Type chosen by the
      body's first character; otherwise the headers are a copy of the custom ones. */
  function Generate(url: string, httpMethod: Option<string>, body: Option<string>,
                    customHeaders: Option<map<string, string>>): (r: Descriptor)
    ensures r.url == url && r.body == body
    ensures r.httpMethod == if httpMethod.None? then "GET" else httpMethod.value
    ensures TruthyString(body) ==> r.headers.Keys == {ContentType}
    ensures TruthyString(body) ==> (r.headers[ContentType] == Html <==> body.value[0] == '<')
    ensures TruthyString(body) ==> (r.headers[ContentType] == PlainText <==> body.value[0] != '<')
    ensures !TruthyString(body) ==> r.headers == Spread(customHeaders)
  {
    var headers :=
      if TruthyString(body) then
        if body.value[0] == '<' then map[ContentType := Html] else map[ContentType := PlainText]
      else Spread(customHeaders);
    var m := match httpMethod case None => "GET" case Some(m) => m;
    Descriptor(url, m, body, headers)
  }

  /** With a body, the custom headers are discarded: they have no influence on the result. */
  lemma BodyDiscardsCustomHeaders(url: string, httpMethod: Option<string>, body: string,
                                  h1: Option<map<string, string>>, h2: Option<map<string, string>>)
    requires body != ""
    ensures Generate(url, httpMethod, Some(body), h1) == Generate(url, httpMethod, Some(body), h2)
    ensures forall k :: k in Spread(h1) && k != ContentType ==> k !in Generate(url, httpMethod, Some(body), h1).headers
  {
  }

  /** When the caller's headers do not name a Content-Type, one is set if and only if the
      body is truthy, and it is text/html if and only if the body starts with '<'. */
  lemma ContentTypeIffBody(url: string, httpMethod: Option<string>, body: Option<string>,
                           customHeaders: Option<map<string, string>>)
    requires ContentType !in Spread(customHeaders)
    ensures var h := Generate(url, httpMethod, body, customHeaders).headers;
      && (ContentType in h <==> TruthyString(body))
      && (ContentType in h && h[ContentType] == Html <==> TruthyString(body) && body.value[0] == '<')
  {
  }

  /** Only the first character is looked at: markup after leading white space is plain text. */
  lemma LeadingWhitespaceIsPlainText(url: string, httpMethod: Option<string>, space: string, markup: string,
                                     customHeaders: Option<map<string, string>>)
    requires space != [] && forall i :: 0 <= i < |space| ==> space[i] in " \t\r\n"
    ensures Generate(url, httpMethod, Some(space + markup), customHeaders).headers == map[ContentType := PlainText]
  {
    assert (space + markup)[0] == space[0];
  }

  /** An empty body counts as no body: the custom headers are kept and no Content-Type is added. */
  lemma EmptyBodyIsNoBody(url: string, httpMethod: Option<string>, customHeaders: Option<map<string, string>>)
    ensures Generate(url, httpMethod, Some(""), customHeaders).headers == Generate(url, httpMethod, None, customHeaders).headers
    ensures Generate(url, httpMethod, Some(""), customHeaders).body == Some("")
  {
  }

  /** The three descriptors the request tests inspect. */
  lemma GenerateExamples()
    ensures var url := "https://example.com";
      var body := "<html><body><p>Test</p></body></html>";
      Generate(url, Some("POST"), Some(body), None) == Descriptor(url, "POST", Some(body), map[ContentType := Html])
    ensures var url := "https://example.com";
      Generate(url, Some("POST"), Some("This is a test"), None)
        == Descriptor(url, "POST", Some("This is a test"), map[ContentType := PlainText])
    ensures Generate("https://example.com", None, None, None) == Descriptor("https://example.com", "GET", None, map[])
  {
  }
}
