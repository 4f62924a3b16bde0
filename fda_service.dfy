/** The OpenFDA drug-label lookup (fdaService.ts): the drug name is cleaned,
    a search over brand and generic names is built, and the HTTP outcome is
    classified into a label record or null. Every failure becomes null. */
module FdaService {
  import opened Types
  import opened JsString

  const BaseUrl: string := "https://api.fda.gov/drug/label.json"
  const BrandField: string := "openfda.brand_name"
  const GenericField: string := "openfda.generic_name"

  /** The characters the search keeps: ASCII letters, digits and space. */
  predicate IsSearchChar(c: char) {
    'a' <= c <= 'z' || 'A' <= c <= 'Z' || '0' <= c <= '9' || c == ' '
  }

  /** `s.replace(/[^a-zA-Z0-9 ]/g, "")`. */
  function KeepSearchChars(s: string): string {
    if s == [] then []
    else (if IsSearchChar(s[0]) then [s[0]] else []) + KeepSearchChars(s[1..])
  }

  /** Every kept character is a search character. */
  lemma {:induction false} KeptAreSearchChars(s: string)
    ensures forall i :: 0 <= i < |KeepSearchChars(s)| ==> IsSearchChar(KeepSearchChars(s)[i])
  {
    if s != [] {
      KeptAreSearchChars(s[1..]);
    }
  }

  /** Every search character is kept as often as it occurs. */
  lemma {:induction false} KeptCounts(s: string)
    ensures forall c :: IsSearchChar(c) ==> multiset(KeepSearchChars(s))[c] == multiset(s)[c]
  {
    if s != [] {
      KeptCounts(s[1..]);
      assert s == [s[0]] + s[1..];
    }
  }

  /** A string of search characters is left alone. */
  lemma {:induction false} KeepSearchCharsUnchanged(s: string)
    requires forall i :: 0 <= i < |s| ==> IsSearchChar(s[i])
    ensures KeepSearchChars(s) == s
  {
    if s != [] {
      KeepSearchCharsUnchanged(s[1..]);
    }
  }

  /** The name the search is built from: `drugName.replace(...).trim()`. */
  function SanitizeName(drugName: string): string {
    Trim(KeepSearchChars(drugName))
  }

  /** The sanitised name has only letters, digits and spaces, with no space
      at either end. */
  lemma SanitizedCharacters(drugName: string)
    ensures var r := SanitizeName(drugName);
      && (forall i :: 0 <= i < |r| ==> IsSearchChar(r[i]))
      && (r == [] || (r[0] != ' ' && r[|r| - 1] != ' '))
  {
    var kept := KeepSearchChars(drugName);
    KeptAreSearchChars(drugName);
    TrimKeepsCharacters(kept, IsSearchChar);
    assert IsTrimmed(Trim(kept)) && IsWhiteSpace(' ');
  }

  /** Sanitising a sanitised name changes nothing. */
  lemma SanitizeIdempotent(drugName: string)
    ensures SanitizeName(SanitizeName(drugName)) == SanitizeName(drugName)
  {
    SanitizedCharacters(drugName);
    KeepSearchCharsUnchanged(SanitizeName(drugName));
  }

  /** One `field:"name"` clause of the search expression. */
  function FieldClause(field: string, name: string): string {
    field + ":\"" + name + "\""
  }

  /** The search expression: the name quoted in a brand-name clause and in a
      generic-name clause, joined by `+OR+`. */
  function SearchQuery(name: string): string {
    FieldClause(BrandField, name) + "+OR+" + FieldClause(GenericField, name)
  }

  /** The request: the encoded search expression and a limit of one record. */
  function RequestUrl(query: string): string {
    BaseUrl + "?search=" + EncodeUriComponent(query) + "&limit=1"
  }

  /** A clause around a name without '"' splits at its quotes into the field,
      the name and nothing else. */
  lemma ClauseQuotesName(field: string, name: string)
    requires '"' !in field && '"' !in name
    ensures Split(FieldClause(field, name), '"') == [field + ":", name, ""]
  {
    assert FieldClause(field, name) == (field + ":") + ['"'] + (name + ['"'] + []);
    SplitInThree(field + ":", '"', name, []);
  }

  /** Whatever the drug name, the query built from its sanitised form is
      exactly a brand-name clause, `OR` and a generic-name clause, and each
      clause holds the sanitised name between its two quotes. */
  lemma QueryStructure(drugName: string)
    ensures var name := SanitizeName(drugName);
      && Split(SearchQuery(name), '+') == [FieldClause(BrandField, name), "OR", FieldClause(GenericField, name)]
      && Split(FieldClause(BrandField, name), '"') == [BrandField + ":", name, ""]
      && Split(FieldClause(GenericField, name), '"') == [GenericField + ":", name, ""]
  {
    var name := SanitizeName(drugName);
    SanitizedHasNoDelimiters(drugName);
    FieldsHaveNoQuote();
    QuerySplitsAtOr(name);
    ClauseQuotesName(BrandField, name);
    ClauseQuotesName(GenericField, name);
  }

  lemma SanitizedHasNoDelimiters(drugName: string)
    ensures '+' !in SanitizeName(drugName) && '"' !in SanitizeName(drugName)
  {
    var name := SanitizeName(drugName);
    SanitizedCharacters(drugName);
    forall i | 0 <= i < |name| ensures name[i] != '+' && name[i] != '"' {
      assert IsSearchChar(name[i]);
    }
  }

  lemma FieldsHaveNoQuote()
    ensures '"' !in BrandField && '"' !in GenericField
  {
  }

  lemma QuerySplitsAtOr(name: string)
    requires '+' !in name
    ensures Split(SearchQuery(name), '+') == [FieldClause(BrandField, name), "OR", FieldClause(GenericField, name)]
  {
    var brand := FieldClause(BrandField, name);
    var generic := FieldClause(GenericField, name);
    var or := "OR";
    assert '+' !in or;
    assert '+' !in brand && '+' !in generic;
    assert SearchQuery(name) == brand + ['+'] + (or + ['+'] + generic);
    SplitInThree(brand, '+', or, generic);
  }

  /** Different names give different queries. */
  lemma QueryDeterminesName(a: string, b: string)
    requires SearchQuery(a) == SearchQuery(b)
    ensures a == b
  {
    var prefix := BrandField + ":\"";
    assert |SearchQuery(a)| == 2 * |a| + |SearchQuery("")|;
    assert |SearchQuery(b)| == 2 * |b| + |SearchQuery("")|;
    assert SearchQuery(a)[|prefix|..|prefix| + |a|] == a;
    assert SearchQuery(b)[|prefix|..|prefix| + |b|] == b;
  }

  /** The encoded search expression holds neither '?' nor '&'. */
  lemma EncodedHasNoDelimiters(query: string)
    ensures '?' !in EncodeUriComponent(query) && '&' !in EncodeUriComponent(query)
  {
    var encoded := EncodeUriComponent(query);
    EncodedCharacters(query);
    forall i | 0 <= i < |encoded| ensures encoded[i] != '?' && encoded[i] != '&' {
      assert IsUriUnreserved(encoded[i]) || encoded[i] == '%';
    }
  }

  lemma BaseUrlHasNoQuestionMark()
    ensures '?' !in BaseUrl
  {
  }

  lemma ParametersHaveNoQuestionMark(encoded: string)
    requires '?' !in encoded
    ensures '?' !in "search=" + encoded + "&limit=1"
  {
    assert '?' !in "search=" && '?' !in "&limit=1";
  }

  lemma SearchHasNoAmpersand(encoded: string)
    requires '&' !in encoded
    ensures '&' !in "search=" + encoded
  {
    assert '&' !in "search=";
  }

  lemma UrlSplitsAtQuestionMark(parameters: string)
    requires '?' !in parameters
    ensures Split(BaseUrl + "?" + parameters, '?') == [BaseUrl, parameters]
  {
    BaseUrlHasNoQuestionMark();
    assert BaseUrl + "?" + parameters == BaseUrl + ['?'] + parameters;
    SplitInTwo(BaseUrl, '?', parameters);
  }

  lemma ParametersSplitAtAmpersand(search: string)
    requires '&' !in search
    ensures Split(search + "&limit=1", '&') == [search, "limit=1"]
  {
    LimitParameter();
    ConcatAssociates(search, ['&'], "limit=1");
    SplitInTwo(search, '&', "limit=1");
  }

  lemma ConcatAssociates(a: string, b: string, c: string)
    ensures a + (b + c) == a + b + c
  {
  }

  lemma LimitParameter()
    ensures "&limit=1" == ['&'] + "limit=1" && '&' !in "limit=1"
  {
  }

  lemma RequestUrlShape(query: string)
    ensures RequestUrl(query) == BaseUrl + "?" + ("search=" + EncodeUriComponent(query) + "&limit=1")
  {
  }

  lemma UrlSplitsAtQuestionMarkFor(query: string)
    ensures Split(RequestUrl(query), '?') == [BaseUrl, "search=" + EncodeUriComponent(query) + "&limit=1"]
  {
    var parameters := "search=" + EncodeUriComponent(query) + "&limit=1";
    EncodedHasNoDelimiters(query);
    ParametersHaveNoQuestionMark(EncodeUriComponent(query));
    RequestUrlShape(query);
    UrlSplitsAtQuestionMark(parameters);
  }

  lemma SearchSplitsAtAmpersandFor(query: string)
    ensures Split("search=" + EncodeUriComponent(query) + "&limit=1", '&') == ["search=" + EncodeUriComponent(query), "limit=1"]
  {
    EncodedHasNoDelimiters(query);
    SearchHasNoAmpersand(EncodeUriComponent(query));
    ParametersSplitAtAmpersand("search=" + EncodeUriComponent(query));
  }

  /** The URL carries exactly two query parameters, the search and
      `limit=1`: the encoded expression cannot contain '?' or '&'. */
  lemma UrlParameters(query: string)
    ensures var search := "search=" + EncodeUriComponent(query);
      && Split(RequestUrl(query), '?') == [BaseUrl, search + "&limit=1"]
      && Split(search + "&limit=1", '&') == [search, "limit=1"]
  {
    UrlSplitsAtQuestionMarkFor(query);
    SearchSplitsAtAmpersandFor(query);
  }

  /** The body of a response as `response.json()` reads it. */
  datatype JsonBody =
    | Unparseable(error: string)          // response.json() rejects
    | JsonNull                            // the body is the JSON value null
    | JsonObject(results: Option<seq<FdaData>>)

  /** What `fetch(url)` settles to. */
  datatype FetchOutcome =
    | NetworkFailure(error: string)
    | HttpResponse(status: int, statusText: string, body: JsonBody)

  /** `response.ok`. */
  predicate IsOk(status: int) {
    200 <= status <= 299
  }

  /** The try block of fetchDrugData: a 404 is null, another non-2xx status
      throws, a 2xx body with a non-empty `results` gives its first record,
      and any other body gives null. */
  function TryClassify(response: FetchOutcome): Result<Option<FdaData>> {
    match response
    case NetworkFailure(error) => Failure(error)
    case HttpResponse(status, statusText, body) =>
      if !IsOk(status) then
        if status == 404 then Success(None)
        else Failure("OpenFDA API Error: " + statusText)
      else
        match body
        case Unparseable(error) => Failure(error)
        case JsonNull => Failure("TypeError: data is null")
        case JsonObject(results) =>
          if results.Some? && |results.value| > 0 then Success(Some(results.value[0]))
          else Success(None)
  }

  /** The whole of fetchDrugData once the request is sent: the catch turns
      every thrown error into null, so a record comes back exactly when the
      status is 2xx and `results` is present and non-empty, and it is then
      `results[0]`. */
  function ClassifyResponse(response: FetchOutcome): (r: Option<FdaData>)
    ensures r.Some? <==>
      && response.HttpResponse?
      && IsOk(response.status)
      && response.body.JsonObject?
      && response.body.results.Some?
      && |response.body.results.value| > 0
    ensures r.Some? ==> r.value == response.body.results.value[0]
  {
    match TryClassify(response)
    case Failure(_) => None
    case Success(record) => record
  }

  /** fetchDrugData(drugName), with `fetch` mapping the request URL to its outcome. */
  function FetchDrugData(drugName: string, fetch: string -> FetchOutcome): Option<FdaData> {
    ClassifyResponse(fetch(RequestUrl(SearchQuery(SanitizeName(drugName)))))
  }

  /** A name and its sanitised form send the same request, so they get the
      same label record. */
  lemma SanitizedNameSameLookup(drugName: string, fetch: string -> FetchOutcome)
    ensures FetchDrugData(SanitizeName(drugName), fetch) == FetchDrugData(drugName, fetch)
  {
    SanitizeIdempotent(drugName);
  }
}
