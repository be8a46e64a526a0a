/** The service layer (src/service/api.js): the request URL each fetcher
    builds, and what its promise resolves to once the response has been
    received and decoded, or has failed. The network call itself is not
    modelled: a response is a parameter. */
module Api {
  import opened JsValues

  const BaseURL: string := "https://opendata.paris.fr/api/explore/v2.1/catalog/datasets"
  const Limit: nat := 20

  /** The three datasets, one per fetcher. */
  datatype Dataset =
    | EspacesVerts   // fetchEspaceVerts
    | Fontaines      // fetchFontaines
    | Activites      // fetchActivité

  function DatasetPath(d: Dataset): (path: string)
    ensures path != ""
  {
    match d
    case EspacesVerts => "ilots-de-fraicheur-espaces-verts-frais"
    case Fontaines => "fontaines-a-boire"
    case Activites => "ilots-de-fraicheur-equipements-activites"
  }

  /** Each fetcher has its own dataset path, so two fetchers never request
      the same URL. */
  lemma DatasetsRequestDistinctUrls(d: Dataset, e: Dataset, p: PageArg, q: PageArg)
    requires d != e
    ensures DatasetPath(d) != DatasetPath(e)
    ensures RecordsUrl(d, p) != RecordsUrl(e, q)
  {
    var k := if DatasetPath(d)[0] != DatasetPath(e)[0] then 0 else 20;
    assert DatasetPath(d)[k] != DatasetPath(e)[k];
    UrlShowsPath(d, p, k);
    UrlShowsPath(e, q, k);
  }

  /** The k-th character of the dataset path sits right after the base URL
      and its slash. */
  lemma UrlShowsPath(d: Dataset, arg: PageArg, k: nat)
    requires k < |DatasetPath(d)|
    ensures |BaseURL| + 1 + k < |RecordsUrl(d, arg)|
    ensures RecordsUrl(d, arg)[|BaseURL| + 1 + k] == DatasetPath(d)[k]
  {
    var front := BaseURL + "/" + DatasetPath(d);
    assert RecordsBase(d) == front + "/records";
    assert front[|BaseURL| + 1 + k] == DatasetPath(d)[k];
  }

  /** The argument a fetcher is called with: a page number, or nothing
      (`undefined`, as the map views pass). */
  datatype PageArg = Omitted | Page(n: int)

  /** The URL a fetcher requests. The parameter has the default value 0, so an
      omitted argument is replaced by page 0 before the `!== undefined` test,
      which therefore always succeeds. */
  function RecordsUrl(d: Dataset, arg: PageArg): string
  {
    var pageNum := if arg.Omitted? then Page(0) else arg;
    RecordsBase(d)
      + (if pageNum != Omitted
         then "?limit=" + IntText(Limit) + "&offset=" + IntText(pageNum.n * Limit)
         else "")
  }

  function RecordsBase(d: Dataset): string
  {
    BaseURL + "/" + DatasetPath(d) + "/records"
  }

  /** Everything in a paginated URL before the offset digits. */
  function OffsetPrefix(d: Dataset): string
  {
    RecordsBase(d) + "?limit=20&offset="
  }

  /** Reads the offset back from a URL: the offset prefix of the dataset
      followed by decimal digits. */
  function OffsetOf(d: Dataset, url: string): (offset: Option<nat>)
  {
    var prefix := OffsetPrefix(d);
    if |prefix| < |url| && url[..|prefix|] == prefix && IsDigits(url[|prefix|..])
    then Some(ParseNat(url[|prefix|..]))
    else None
  }

  datatype Option<T> = None | Some(value: T)

  lemma OffsetOfPrefixed(d: Dataset, n: nat)
    ensures OffsetOf(d, OffsetPrefix(d) + NatText(n)) == Some(n)
  {
    var prefix := OffsetPrefix(d);
    var url := prefix + NatText(n);
    assert url[..|prefix|] == prefix;
    assert url[|prefix|..] == NatText(n);
    ParseNatText(n);
  }

  /** For a non-negative page, the URL carries `limit=20` and
      `offset=20 * page`, and the offset can be read back from it. */
  lemma UrlCarriesOffset(d: Dataset, page: int)
    requires page >= 0
    ensures RecordsUrl(d, Page(page)) == OffsetPrefix(d) + NatText(page * Limit)
    ensures OffsetOf(d, RecordsUrl(d, Page(page))) == Some(page * Limit)
  {
    var offset: nat := page * Limit;
    var query := "?limit=" + IntText(Limit) + "&offset=" + IntText(offset);
    assert RecordsUrl(d, Page(page)) == RecordsBase(d) + query;
    QueryText(offset);
    ConcatAssoc(RecordsBase(d), "?limit=20&offset=", NatText(offset));
    OffsetOfPrefixed(d, offset);
  }

  /** The query string of a paginated request. */
  lemma QueryText(offset: nat)
    ensures "?limit=" + IntText(Limit) + "&offset=" + IntText(offset) == "?limit=20&offset=" + NatText(offset)
  {
    LimitText();
    assert "?limit=" + "20" + "&offset=" == "?limit=20&offset=";
  }

  lemma LimitText()
    ensures IntText(Limit) == "20"
  {
    assert NatText(20) == NatText(2) + [DigitChar(0)];
  }

  lemma ConcatAssoc(a: string, b: string, c: string)
    ensures a + (b + c) == (a + b) + c
  {
  }

  /** The no-query-string branch is unreachable: a call without a page number
      requests exactly what a call for page 0 requests, offset 0. */
  lemma OmittedPageIsPageZero(d: Dataset)
    ensures RecordsUrl(d, Omitted) == RecordsUrl(d, Page(0))
    ensures OffsetOf(d, RecordsUrl(d, Omitted)) == Some(0)
  {
    UrlCarriesOffset(d, 0);
  }

  /** Consecutive pages are `Limit` (20) records apart. */
  lemma ConsecutivePagesOffset(d: Dataset, p: int)
    requires p >= 0
    ensures OffsetOf(d, RecordsUrl(d, Page(p))) == Some(p * Limit)
    ensures OffsetOf(d, RecordsUrl(d, Page(p + 1))) == Some(p * Limit + Limit)
  {
    UrlCarriesOffset(d, p);
    UrlCarriesOffset(d, p + 1);
    assert (p + 1) * Limit == p * Limit + Limit;
  }

  /** Distinct pages request distinct URLs. */
  lemma DistinctPagesDistinctUrls(d: Dataset, p: int, q: int)
    requires 0 <= p && 0 <= q && p != q
    ensures RecordsUrl(d, Page(p)) != RecordsUrl(d, Page(q))
  {
    UrlCarriesOffset(d, p);
    UrlCarriesOffset(d, q);
    var prefix := OffsetPrefix(d);
    var a, b := NatText(p * Limit), NatText(q * Limit);
    assert p * Limit != q * Limit;
    NatTextInjective(p * Limit, q * Limit);
  }

  // ---------------------------------------------------------------------------
  // Decoding

  /** What `fetch(url).then(res => res.json())` produced: a decoded JSON
      payload, or a failure (network error, body that is not JSON). */
  datatype Response = Decoded(data: Val) | TransportFailure

  /** The value the fetcher's promise resolves to. `data.results || []` on a
      decoded payload; reading `results` of a `null` payload is a TypeError,
      and a failure of any kind reaches the `.catch` handler, which logs and
      returns nothing, so the promise resolves to `undefined`. */
  function Results(r: Response): (v: Val)
    ensures v == Undefined <==> r.TransportFailure? || Nullish(r.data)
    ensures v != Undefined ==> Truthy(v)
    ensures r.Decoded? && !Nullish(r.data) && Truthy(Prop(r.data, "results")) ==> v == Prop(r.data, "results")
    ensures r.Decoded? && !Nullish(r.data) && !Truthy(Prop(r.data, "results")) ==> v == Arr([])
  {
    match r
    case TransportFailure => Undefined
    case Decoded(data) =>
      if Nullish(data) then Undefined
      else Or(Prop(data, "results"), Arr([]))
  }

  /** A failed fetch does not look like an empty page: the caller receives
      `undefined`, not `[]`. */
  lemma FailureIsNotEmptyPage(data: Val)
    requires Results(Decoded(data)) == Arr([])
    ensures Results(TransportFailure) != Results(Decoded(data))
  {
  }
}
