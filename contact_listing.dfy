/**
 * GET /api/contacts: the `page` and `limit` query parameters, the window
 * of contacts (newest first) the database query returns, and the
 * pagination block of the answer.
 */
module ContactListing {
  import opened Wrappers
  import opened JsParseInt

  const DefaultPage := 1
  const DefaultLimit := 10

  /** The `pagination` object of the answer. */
  datatype PageInfo = PageInfo(
    currentPage: int, totalPages: int, totalContacts: nat,
    hasNext: bool, hasPrev: bool)

  /** The answer: a page of contacts, or the 500 "Error retrieving contacts". */
  datatype Listing<T> = Listed(items: seq<T>, pagination: PageInfo) | QueryFailed

  function Abs(x: int): nat {
    if x < 0 then -x else x
  }

  function Min(a: int, b: int): int {
    if a <= b then a else b
  }

  /** `parseInt(req.query.page) || 1`. */
  function PageParam(q: Option<string>): (page: int)
    ensures page != 0
  {
    IntOr(q, DefaultPage)
  }

  /** `parseInt(req.query.limit) || 10`. */
  function LimitParam(q: Option<string>): (limit: int)
    ensures limit != 0
  {
    IntOr(q, DefaultLimit)
  }

  /** `Math.ceil(a / b)` for a count `a` and a non-zero divisor. */
  function CeilDiv(a: nat, b: int): (q: int)
    requires b != 0
    ensures b > 0 ==> q >= 0 && (q - 1) * b < a <= q * b
    ensures b < 0 ==> q <= 0 && q * b <= a < (q - 1) * b
  {
    if b > 0 then
      var q := (a + b - 1) / b;
      DivMod(a + b - 1, b);
      q
    else
      var q := a / (-b);
      DivMod(a, -b);
      -q
  }

  /**
   * What `.skip(skip).limit(limit)` returns from the sorted contacts. A
   * negative limit asks the driver for a single batch of `|limit|`
   * documents, so at most `|limit|` come back in every case.
   */
  function Window<T>(s: seq<T>, skip: nat, limit: int): (w: seq<T>)
    requires limit != 0
    ensures |w| <= Abs(limit)
    ensures |w| == if skip >= |s| then 0 else Min(Abs(limit), |s| - skip)
    ensures forall k :: 0 <= k < |w| ==> w[k] == s[skip + k]
  {
    if skip >= |s| then [] else s[skip..Min(|s|, skip + Abs(limit))]
  }

  /**
   * The listing of the contacts `newestFirst` (sorted by creation date,
   * newest first) for a parsed page and limit: `skip = (page - 1) * limit`;
   * a negative skip is refused by the database, which the route answers
   * with a 500.
   */
  function ListAt<T>(newestFirst: seq<T>, page: int, limit: int): (r: Listing<T>)
    requires limit != 0
    ensures r.QueryFailed? <==> (page - 1) * limit < 0
    ensures r.Listed? ==>
      && r.items == Window(newestFirst, (page - 1) * limit, limit)
      && r.pagination == PageInfo(page, CeilDiv(|newestFirst|, limit), |newestFirst|,
                                  page * limit < |newestFirst|, page > 1)
  {
    var skip := (page - 1) * limit;
    if skip < 0 then QueryFailed
    else
      Listed(Window(newestFirst, skip, limit),
             PageInfo(page, CeilDiv(|newestFirst|, limit), |newestFirst|,
                      page * limit < |newestFirst|, page > 1))
  }

  /** The route: parse `page` and `limit`, then list. */
  function List<T>(newestFirst: seq<T>, pageQ: Option<string>, limitQ: Option<string>): Listing<T> {
    ListAt(newestFirst, PageParam(pageQ), LimitParam(limitQ))
  }

  /** Without query parameters the first ten contacts are listed. */
  lemma DefaultListing<T>(s: seq<T>)
    ensures List(s, None, None).Listed?
    ensures List(s, None, None).items == s[..Min(|s|, 10)]
    ensures List(s, None, None).pagination.currentPage == 1
    ensures !List(s, None, None).pagination.hasPrev
  {
  }

  /** Page arithmetic for a positive page and limit over `n` contacts. */
  lemma PageArithmetic(page: int, limit: int, n: nat)
    requires page >= 1 && limit >= 1
    ensures var tp := CeilDiv(n, limit);
      && (page * limit < n <==> page < tp)
      && (page < tp ==> (page - 1) * limit + limit < n)
      && (page > tp ==> (page - 1) * limit >= n)
  {
    var tp := CeilDiv(n, limit);
    assert (tp - 1) * limit < n <= tp * limit;
    if page < tp {
      MulMonotone(page, tp - 1, limit);
    } else {
      MulMonotone(tp, page, limit);
    }
    if page > tp {
      MulMonotone(tp, page - 1, limit);
    }
  }

  lemma MulMonotone(a: int, b: int, c: nat)
    requires a <= b
    ensures a * c <= b * c
  {
  }

  /**
   * For a positive page and limit, `hasNext` holds exactly when a later
   * page exists and `hasPrev` exactly when an earlier one does; a page
   * before the last is full and a page past the last is empty.
   */
  lemma NavigationFlags<T>(s: seq<T>, page: int, limit: int)
    requires page >= 1 && limit >= 1
    ensures ListAt(s, page, limit).Listed?
    ensures var p := ListAt(s, page, limit).pagination;
      && (p.hasNext <==> p.currentPage < p.totalPages)
      && (p.hasPrev <==> p.currentPage > 1)
    ensures var l := ListAt(s, page, limit);
      l.pagination.currentPage < l.pagination.totalPages ==> |l.items| == limit
    ensures var l := ListAt(s, page, limit);
      l.pagination.currentPage > l.pagination.totalPages ==> l.items == []
  {
    PageArithmetic(page, limit, |s|);
  }

  /**
   * With a positive limit, the contact at position `k` is listed on page
   * `k / limit + 1`, at position `k % limit`, and that page lies within
   * `1 .. totalPages`.
   */
  lemma EveryContactOnItsPage<T>(s: seq<T>, limit: int, k: nat)
    requires 1 <= limit && k < |s|
    ensures var l := ListAt(s, k / limit + 1, limit);
      && l.Listed?
      && 1 <= k / limit + 1 <= l.pagination.totalPages
      && k % limit < |l.items| && l.items[k % limit] == s[k]
  {
    PageOf(k, limit, |s|);
  }

  /** The page holding position `k`, and where on it `k` sits. */
  lemma PageOf(k: nat, limit: int, n: nat)
    requires 1 <= limit && k < n
    ensures var skip := (k / limit + 1 - 1) * limit;
      && 0 <= skip && skip + k % limit == k && k % limit < limit
      && k / limit + 1 <= CeilDiv(n, limit)
  {
    var q := k / limit;
    DivMod(k, limit);
    assert (q + 1 - 1) * limit == q * limit;
    PageArithmetic(q + 1, limit, n);
  }

  /** Euclidean division of a natural number by a positive one. */
  lemma DivMod(a: int, b: int)
    requires a >= 0 && b >= 1
    ensures a / b * b + a % b == a && 0 <= a % b < b && a / b >= 0
  {
  }

  /**
   * The same through the query string: when the dashboard asks for that
   * page with `?page=${page}&limit=${limit}`, the contact is on it.
   */
  lemma EveryContactListed<T>(s: seq<T>, limit: nat, k: nat)
    requires 1 <= limit && k < |s|
    ensures var page := k / limit + 1;
      var l := List(s, Some(ToDecimal(page)), Some(ToDecimal(limit)));
      && l.Listed?
      && 1 <= page <= l.pagination.totalPages
      && k % limit < |l.items| && l.items[k % limit] == s[k]
  {
    var page := k / limit + 1;
    QueryRoundTrip(page, DefaultPage);
    QueryRoundTrip(limit, DefaultLimit);
    EveryContactOnItsPage(s, limit, k);
  }
}
