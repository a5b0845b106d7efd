/** The requests the client issues, and the query string they carry: how the client writes
    `?k1=v1&k2=v2…` onto an endpoint, and how a standard query-string parser reads it back. */
module Http {
  import opened Js
  import opened Uri

  /** The HTTP verb `fetch` is called with (GET when no `method` option is given). */
  datatype Verb = GET | POST

  /** The `fetch(url, { method })` call a client method makes once its options validate. */
  datatype FetchCall = FetchCall(url: string, verb: Verb)

  /** One `key=value` field of a query string, written as the client writes it. */
  datatype Param = Param(key: string, value: string)

  function Field(p: Param): string { p.key + "=" + p.value }

  function Fields(ps: seq<Param>): (r: seq<string>)
    ensures |r| == |ps|
    ensures forall i :: 0 <= i < |ps| ==> r[i] == Field(ps[i])
  {
    if ps == [] then [] else [Field(ps[0])] + Fields(ps[1..])
  }

  /** `base?k1=v1&k2=v2…` */
  function Url(base: string, ps: seq<Param>): string
  {
    base + "?" + Join(Fields(ps), "&")
  }

  /** `${base}?key=${value}`: the URL with its first field. */
  function Start(base: string, key: string, value: string): string
  {
    base + "?" + key + "=" + value
  }

  /** `url += `&key=${value}``: one more field after the first. */
  function Append(url: string, key: string, value: string): string
  {
    url + "&" + key + "=" + value
  }

  /** Appending to a URL written by Url adds one field at the end of its query. */
  lemma UrlAppend(base: string, ps: seq<Param>, url: string, key: string, value: string)
    requires |ps| >= 1 && url == Url(base, ps)
    ensures Append(url, key, value) == Url(base, ps + [Param(key, value)])
  {
    assert Fields(ps + [Param(key, value)]) == Fields(ps) + [Field(Param(key, value))];
    JoinSnoc(Fields(ps), "&", Field(Param(key, value)));
  }

  /** `if (…) url += `&key=${value}``: the field is written only when it has a value. */
  function AppendOpt(url: string, key: string, value: Option<string>): string
  {
    match value
    case None => url
    case Some(v) => Append(url, key, v)
  }

  /** The fields after such a guarded append. */
  function ParamsOpt(ps: seq<Param>, key: string, value: Option<string>): seq<Param>
  {
    match value
    case None => ps
    case Some(v) => ps + [Param(key, v)]
  }

  /** A field an operation may write: its key, and its value when it is written at all. */
  datatype Entry = Entry(key: string, value: Option<string>)

  /** The fields written by a run of guarded appends, in order; an entry without a value
      writes nothing. */
  function Written(es: seq<Entry>): seq<Param>
  {
    if es == [] then [] else ParamsOpt(Written(es[..|es| - 1]), es[|es| - 1].key, es[|es| - 1].value)
  }

  lemma WrittenSnoc(es: seq<Entry>, e: Entry)
    ensures Written(es + [e]) == ParamsOpt(Written(es), e.key, e.value)
  {
    assert (es + [e])[..|es|] == es;
  }

  /** An entry with a value is written, so the query is never empty. */
  lemma {:induction false} WrittenNonEmpty(es: seq<Entry>)
    requires es != [] && es[0].value.Some?
    ensures |Written(es)| >= 1
  {
    if |es| > 1 {
      WrittenNonEmpty(es[..|es| - 1]);
    }
  }

  /** The URL with its first field, as Url writes it. */
  lemma UrlWrittenStart(base: string, key: string, value: string)
    ensures Start(base, key, value) == Url(base, Written([Entry(key, Some(value))]))
    ensures |Written([Entry(key, Some(value))])| == 1
  {
    assert Written([Entry(key, Some(value))]) == [Param(key, value)];
  }

  /** The URL after one more guarded append is the one with that entry's field added. */
  lemma UrlWrittenSnoc(base: string, es: seq<Entry>, e: Entry)
    requires |Written(es)| >= 1
    ensures AppendOpt(Url(base, Written(es)), e.key, e.value) == Url(base, Written(es + [e]))
    ensures |Written(es + [e])| >= 1
  {
    WrittenSnoc(es, e);
    match e.value
    case None =>
    case Some(v) => UrlAppend(base, Written(es), Url(base, Written(es)), e.key, v);
  }

  predicate DistinctKeys(es: seq<Entry>)
  {
    forall i, j :: 0 <= i < j < |es| ==> es[i].key != es[j].key
  }

  /** A key no entry has is not found. */
  lemma {:induction false} WrittenAbsent(es: seq<Entry>, key: string)
    requires forall i :: 0 <= i < |es| ==> es[i].key != key
    ensures Lookup(Written(es), key) == None
  {
    if es != [] {
      var last := es[|es| - 1];
      WrittenAbsent(es[..|es| - 1], key);
      LookupOptOther(Written(es[..|es| - 1]), last.key, last.value);
    }
  }

  /** With distinct keys each entry's key finds that entry's value, or nothing when the
      entry was not written. */
  lemma {:induction false} WrittenLookup(es: seq<Entry>, i: nat)
    requires DistinctKeys(es) && i < |es|
    ensures Lookup(Written(es), es[i].key) == es[i].value
  {
    var init, last := es[..|es| - 1], es[|es| - 1];
    if i == |es| - 1 {
      WrittenAbsent(init, last.key);
      LookupOptNew(Written(init), last.key, last.value);
    } else {
      WrittenLookup(init, i);
      LookupOptOther(Written(init), last.key, last.value);
    }
  }

  // Reading a URL back: split at the first '?', then at every '&', then each field at its
  // first '='. Values stay raw here; DecodedValue applies `decodeURIComponent` to them.
  // (URLSearchParams would also read '+' as a space; that is not modelled.)

  function ParseField(f: string): Param
  {
    match IndexOf(f, '=')
    case None => Param(f, "")
    case Some(i) => Param(f[..i], f[i + 1..])
  }

  function ParseFields(fs: seq<string>): (r: seq<Param>)
    ensures |r| == |fs|
    ensures forall i :: 0 <= i < |fs| ==> r[i] == ParseField(fs[i])
  {
    if fs == [] then [] else [ParseField(fs[0])] + ParseFields(fs[1..])
  }

  /** The endpoint and the query fields of a URL: the fragment from the first '#' is dropped,
      the query starts after the first '?', fields are split on '&' and at their first '='. */
  function ParseUrl(url: string): (string, seq<Param>)
  {
    var u := match IndexOf(url, '#') case None => url case Some(i) => url[..i];
    match IndexOf(u, '?')
    case None => (u, [])
    case Some(i) => (u[..i], ParseFields(Split(u[i + 1..], '&')))
  }

  /** A key the parser reads back whole: no separator and no fragment mark in it. */
  predicate KeySafe(k: string) { '&' !in k && '=' !in k && '#' !in k }

  /** A value the parser reads back whole ('=' after the first one of a field is kept). */
  predicate ValueSafe(v: string) { '&' !in v && '#' !in v }

  /** An optional value that, when written, is read back whole. */
  predicate OptSafe(value: Option<string>) { value.Some? ==> ValueSafe(value.value) }

  predicate ParamsSafe(ps: seq<Param>)
  {
    forall p :: p in ps ==> KeySafe(p.key) && ValueSafe(p.value)
  }

  lemma SafeOpt(ps: seq<Param>, key: string, value: Option<string>)
    requires ParamsSafe(ps) && KeySafe(key) && OptSafe(value)
    ensures ParamsSafe(ParamsOpt(ps, key, value))
  {
  }

  /** Percent-encoded text never needs protecting. */
  lemma EncSafe(s: string)
    ensures ValueSafe(Enc(s)) && KeySafe(Enc(s))
  {
    EncEncoded(s);
  }

  /** Integers are written with digits and a sign only. */
  lemma NumberTextSafe(n: int)
    ensures ValueSafe(NumberText(n))
  {
    var r := NumberText(n);
    if n < 0 {
      assert r == [r[0]] + r[1..];
    }
  }

  predicate KeysSafe(es: seq<Entry>)
  {
    forall i :: 0 <= i < |es| ==> KeySafe(es[i].key)
  }

  predicate ValuesSafe(es: seq<Entry>)
  {
    forall i :: 0 <= i < |es| ==> OptSafe(es[i].value)
  }

  lemma {:induction false} WrittenSafe(es: seq<Entry>)
    requires KeysSafe(es) && ValuesSafe(es)
    ensures ParamsSafe(Written(es))
  {
    if es != [] {
      var last := es[|es| - 1];
      WrittenSafe(es[..|es| - 1]);
      SafeOpt(Written(es[..|es| - 1]), last.key, last.value);
    }
  }

  /** A standard parser reads back exactly the endpoint and the fields the client wrote. */
  lemma ParseUrlRoundTrip(base: string, ps: seq<Param>)
    requires '?' !in base && '#' !in base
    requires |ps| >= 1 && ParamsSafe(ps)
    ensures ParseUrl(Url(base, ps)) == (base, ps)
  {
    var fs := Fields(ps);
    var q := Join(fs, "&");
    var url := base + "?" + q;
    FieldsExclude(ps);
    JoinExcludes(fs, "&", '#');
    assert '#' !in url;
    IndexOfAfter(base, '?', q);
    assert url[..|base|] == base;
    assert url[|base| + 1..] == q;
    SplitJoin(fs, '&');
    ParseFieldsRoundTrip(ps);
  }

  /** The same for a query written by guarded appends: every written field is read back. */
  lemma WrittenRoundTrip(base: string, es: seq<Entry>)
    requires '?' !in base && '#' !in base
    requires es != [] && es[0].value.Some?
    requires KeysSafe(es) && ValuesSafe(es)
    ensures ParseUrl(Url(base, Written(es))) == (base, Written(es))
  {
    WrittenNonEmpty(es);
    WrittenSafe(es);
    ParseUrlRoundTrip(base, Written(es));
  }

  lemma FieldsExclude(ps: seq<Param>)
    requires ParamsSafe(ps)
    ensures forall i :: 0 <= i < |ps| ==> '&' !in Fields(ps)[i] && '#' !in Fields(ps)[i]
  {
    forall i | 0 <= i < |ps| ensures '&' !in Fields(ps)[i] && '#' !in Fields(ps)[i] {
      assert Fields(ps)[i] == ps[i].key + "=" + ps[i].value;
    }
  }

  lemma ParseFieldsRoundTrip(ps: seq<Param>)
    requires ParamsSafe(ps)
    ensures ParseFields(Fields(ps)) == ps
  {
    forall i | 0 <= i < |ps| ensures ParseFields(Fields(ps))[i] == ps[i] {
      ParseFieldRoundTrip(ps[i]);
    }
  }

  lemma ParseFieldRoundTrip(p: Param)
    requires KeySafe(p.key)
    ensures ParseField(Field(p)) == p
  {
    var f := Field(p);
    IndexOfAfter(p.key, '=', p.value);
    assert f[..|p.key|] == p.key;
    assert f[|p.key| + 1..] == p.value;
  }

  /** The value of the first field named `key`, as `URLSearchParams.get` finds it. */
  function Lookup(ps: seq<Param>, key: string): Option<string>
  {
    if ps == [] then None
    else if ps[0].key == key then Some(ps[0].value)
    else Lookup(ps[1..], key)
  }

  /** A field added at the end leaves the value found for every other key as it was. */
  lemma LookupSnocOther(ps: seq<Param>, p: Param)
    ensures forall k :: k != p.key ==> Lookup(ps + [p], k) == Lookup(ps, k)
  {
    forall k | k != p.key
      ensures Lookup(ps + [p], k) == Lookup(ps, k)
    {
      LookupSnoc(ps, p, k);
    }
  }

  /** A guarded append leaves the value found for every other key as it was. */
  lemma LookupOptOther(ps: seq<Param>, key: string, value: Option<string>)
    ensures forall k :: k != key ==> Lookup(ParamsOpt(ps, key, value), k) == Lookup(ps, k)
  {
    if value.Some? {
      LookupSnocOther(ps, Param(key, value.value));
    }
  }

  /** A key first written by a guarded append is found with its value, or not at all. */
  lemma LookupOptNew(ps: seq<Param>, key: string, value: Option<string>)
    requires Lookup(ps, key).None?
    ensures Lookup(ParamsOpt(ps, key, value), key) == value
  {
    if value.Some? {
      LookupSnoc(ps, Param(key, value.value), key);
    }
  }

  /** A field added at the end is found only when no earlier field has its name. */
  lemma {:induction false} LookupSnoc(ps: seq<Param>, p: Param, key: string)
    ensures Lookup(ps + [p], key) ==
      if Lookup(ps, key).Some? then Lookup(ps, key)
      else if p.key == key then Some(p.value)
      else None
  {
    if ps != [] {
      assert (ps + [p])[1..] == ps[1..] + [p];
      LookupSnoc(ps[1..], p, key);
    }
  }

  /** The raw value a server reads for `key` in the query of `url`. */
  function QueryValue(url: string, key: string): Option<string>
  {
    Lookup(ParseUrl(url).1, key)
  }

  /** That value after `decodeURIComponent`; None when the key is absent or the value
      does not decode. */
  function DecodedValue(url: string, key: string): Option<string>
  {
    match QueryValue(url, key)
    case None => None
    case Some(v) => DecodeComponent(v)
  }

  /** That value read as an integer; None when the key is absent or the value is not one. */
  function NumberValue(url: string, key: string): Option<int>
  {
    match QueryValue(url, key)
    case None => None
    case Some(v) => ParseNumber(v)
  }

  /** A value sent unencoded reads back unchanged after decoding only when it holds no '%'. */
  lemma DecodedPlainValue(url: string, key: string)
    requires QueryValue(url, key).Some? && '%' !in QueryValue(url, key).value
    ensures DecodedValue(url, key) == QueryValue(url, key)
  {
    DecodePlain(QueryValue(url, key).value);
  }
}
