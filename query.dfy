/**
 * The Elasticsearch request bodies the three services build: a query, an
 * optional single sort key, and from/size pagination; plus the parsing of the
 * `sort` request parameter.
 */
module Query {
  import opened Wrappers

  datatype Order = Asc | Desc

  /** One `{"<field>": {"order": "asc" | "desc"}}` entry of the body's "sort" list. */
  datatype SortKey = SortKey(field: string, order: Order)

  /** `{"term": {"<field>": "<value>"}}`: exact match on a keyword field. */
  datatype Clause = Term(field: string, value: string)

  /**
   * One entry of a multi_match "fields" list. `"title^3"` is `Weighted("title", 3)`;
   * an entry without `^` has Elasticsearch's default boost, 1.
   */
  datatype WeightedField = Weighted(path: string, boost: nat)

  datatype Query =
    | MatchAll                                             // {"match_all": {}}
    | BoolMust(must: seq<Clause>)                          // {"bool": {"must": [...]}}
    | MultiMatch(text: string, fields: seq<WeightedField>) // {"multi_match": {"query", "fields"}}
    | Match(field: string, text: string, fuzziness: string) // {"match": {field: {"query", "fuzziness"}}}

  /** A search body; `sort == None` means the body has no "sort" key at all. */
  datatype Body = Body(query: Query, sort: Option<SortKey>, from: nat, size: nat)

  const MAX_PAGE_SIZE := 100

  /** The bounds the HTTP routes put on `page_size` (1..100) and `page_number` (>= 1). */
  predicate ValidPage(pageSize: int, pageNumber: int)
    ensures ValidPage(pageSize, pageNumber) ==> pageSize <= MAX_PAGE_SIZE
    ensures pageSize < 1 || pageNumber < 1 ==> !ValidPage(pageSize, pageNumber)
  {
    1 <= pageSize <= MAX_PAGE_SIZE && 1 <= pageNumber
  }

  /** The "from" of page `pageNumber`: `(page_number - 1) * page_size`. */
  function PageFrom(pageSize: int, pageNumber: int): (from: nat)
    requires ValidPage(pageSize, pageNumber)
    ensures pageNumber == 1 ==> from == 0
    ensures from + pageSize == pageNumber * pageSize
  {
    (pageNumber - 1) * pageSize
  }

  /** Offset `i` of the full result list lies in the window of page `p` exactly when `p` is `i / size + 1`. */
  lemma {:induction false} PageOfOffset(pageSize: int, pageNumber: int, i: nat)
    requires ValidPage(pageSize, pageNumber)
    ensures PageFrom(pageSize, pageNumber) <= i < PageFrom(pageSize, pageNumber) + pageSize
            <==> pageNumber == i / pageSize + 1
  {
    var q, r := i / pageSize, i % pageSize;
    assert i == q * pageSize + r;
    var from := PageFrom(pageSize, pageNumber);
    if pageNumber == q + 1 {
      assert from == q * pageSize;
    } else if pageNumber <= q {
      MulMonotone(pageNumber, q, pageSize);
      assert from + pageSize == pageNumber * pageSize <= q * pageSize <= i;
    } else {
      MulMonotone(q + 1, pageNumber - 1, pageSize);
      assert i < (q + 1) * pageSize <= from;
    }
  }

  lemma MulMonotone(a: int, b: int, c: nat)
    requires a <= b
    ensures a * c <= b * c
  {
  }

  /** Consecutive pages adjoin: page p + 1 starts where page p ends, so no hit is skipped or repeated. */
  lemma ConsecutivePagesAdjoin(pageSize: int, pageNumber: int)
    requires ValidPage(pageSize, pageNumber)
    ensures PageFrom(pageSize, pageNumber + 1) == PageFrom(pageSize, pageNumber) + pageSize
  {
  }

  /** Python's `s.lstrip('-')`: every leading '-' removed. */
  function StripLeadingDashes(s: string): (r: string)
    ensures |r| <= |s| && r == s[|s| - |r|..]
    ensures forall i :: 0 <= i < |s| - |r| ==> s[i] == '-'
    ensures r == [] || r[0] != '-'
  {
    if s != [] && s[0] == '-' then StripLeadingDashes(s[1..]) else s
  }

  /**
   * The sort key of the film list. `None` or `""` gives no "sort" key; otherwise
   * the order is descending exactly when the parameter starts with '-', and the
   * field is the parameter with all of its leading dashes removed.
   */
  function ParseSort(sort: Option<string>): (k: Option<SortKey>)
    ensures k.None? <==> (sort.None? || sort.value == [])
    ensures k.Some? ==> (k.value.order == Desc <==> sort.value[0] == '-')
    ensures k.Some? ==> var s, f := sort.value, k.value.field;
      && |f| <= |s| && f == s[|s| - |f|..]
      && (forall i :: 0 <= i < |s| - |f| ==> s[i] == '-')
      && (f == [] || f[0] != '-')
  {
    match sort
    case None => None
    case Some(s) =>
      if s == [] then None
      else
        var order := if s[0] == '-' then Desc else Asc;
        Some(SortKey(StripLeadingDashes(s), order))
  }

  /** The `sort` parameter a client writes for a key: `-field` for descending, `field` for ascending. */
  function SortParam(k: SortKey): (p: string) {
    (if k.order == Desc then "-" else "") + k.field
  }

  /** Parsing the parameter written for a key gives the key back, when the field is a real field name. */
  lemma ParseSortParam(k: SortKey)
    requires k.field != [] && k.field[0] != '-'
    ensures ParseSort(Some(SortParam(k))) == Some(k)
  {
  }

  /** A parameter made only of dashes (`"-"`, `"--"`, ...) is not rejected: it sorts descending on the empty field name. */
  lemma DashesOnlySort(s: string)
    requires s != [] && forall i :: 0 <= i < |s| ==> s[i] == '-'
    ensures ParseSort(Some(s)) == Some(SortKey("", Desc))
  {
  }

  /** Only a parameter with at most one leading dash is reproduced by SortParam from its parsed key. */
  lemma SortParamCanonical(s: string)
    requires s != []
    ensures SortParam(ParseSort(Some(s)).value) == s <==> !(|s| >= 2 && s[0] == '-' && s[1] == '-')
  {
  }
}
