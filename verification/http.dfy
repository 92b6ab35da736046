/**
 * The boundary with the request executor. A call settles in one of three
 * ways: an answer with the backend's `{success, data, message}` envelope, a
 * rejection that carries an HTTP response, or a rejection without one (the
 * network failed). What the stores send is modelled only as far as their
 * query parameters go.
 */
module Http {
  import opened Wrappers

  /** How one request settled; `payload` is the part of the envelope the
      calling action reads. */
  datatype Response<T> =
    | Ok(success: bool, payload: T, message: Option<string>)
    | HttpError(message: Option<string>)
    | NetworkError

  /** Only an answer whose `success` flag is set counts as success. */
  predicate Succeeded<T>(resp: Response<T>) {
    resp.Ok? && resp.success
  }

  /** JavaScript truthiness of an optional string: null, undefined and "" are falsy. */
  predicate Truthy(s: Option<string>) {
    s.Some? && s.value != ""
  }

  /** `a || b` where `a` is an optional string. */
  function OrElse(a: Option<string>, b: string): string {
    if Truthy(a) then a.value else b
  }

  /** `error.response?.data?.message` of what a failed action catches. On
      `success:false` the action throws a fresh `Error`, which has no
      `response`; a network failure has none either. Only an HTTP error
      carries the backend's message. */
  function CaughtMessage<T>(resp: Response<T>): Option<string> {
    match resp
    case Ok(_, _, _) => None
    case HttpError(m) => m
    case NetworkError => None
  }

  /** The message an action records when it fails: the caught message, or
      the action's fallback string. */
  function ErrorMessage<T>(resp: Response<T>, fallback: string): (m: string)
    requires !Succeeded(resp)
    ensures !resp.HttpError? ==> m == fallback
    ensures resp.HttpError? && Truthy(resp.message) ==> m == resp.message.value
    ensures m != fallback ==> resp.HttpError? && resp.message == Some(m) && m != ""
    ensures fallback != "" ==> m != ""
  {
    OrElse(CaughtMessage(resp), fallback)
  }

  /** A query-string value: numbers are kept as numbers, their decimal
      rendering is not modelled. */
  datatype QueryValue = Number(n: int) | Text(s: string)

  /** Query parameters in the order they are appended. */
  type Query = seq<(string, QueryValue)>

  /** The first value under `key`, as `URLSearchParams.get` answers. */
  function Lookup(q: Query, key: string): Option<QueryValue> {
    if |q| == 0 then None
    else if q[0].0 == key then Some(q[0].1)
    else Lookup(q[1..], key)
  }

  /** The parameters of a paginated list request: `page`, `per_page`, and the
      search text under `searchKey` only when it is non-empty. */
  function ListQuery(page: int, perPage: int, searchKey: string, search: string): Query {
    [("page", Number(page)), ("per_page", Number(perPage))]
      + (if search != "" then [(searchKey, Text(search))] else [])
  }

  /** The parameters of a "popular" request: only `limit`, defaulted when
      the caller passes none. */
  function LimitQuery(limit: Option<int>, default: int): (q: Query)
    ensures Lookup(q, "limit") == Some(Number(limit.GetOr(default)))
    ensures forall key :: key != "limit" ==> Lookup(q, key).None?
  {
    [("limit", Number(limit.GetOr(default)))]
  }

  lemma ListQueryLookup(page: int, perPage: int, searchKey: string, search: string)
    requires searchKey != "page" && searchKey != "per_page"
    ensures Lookup(ListQuery(page, perPage, searchKey, search), "page") == Some(Number(page))
    ensures Lookup(ListQuery(page, perPage, searchKey, search), "per_page") == Some(Number(perPage))
    ensures Lookup(ListQuery(page, perPage, searchKey, search), searchKey)
            == (if search != "" then Some(Text(search)) else None)
    ensures |ListQuery(page, perPage, searchKey, search)| == (if search != "" then 3 else 2)
  {
    var q := ListQuery(page, perPage, searchKey, search);
    var rest := q[1..][1..];
    assert rest == (if search != "" then [(searchKey, Text(search))] else []);
    assert Lookup(q, searchKey) == Lookup(q[1..], searchKey) == Lookup(rest, searchKey);
    if search != "" {
      assert Lookup(rest, searchKey) == Some(Text(search));
    }
  }

  /** A request of two parameters carries no other. */
  lemma PairQueryOtherKeys(k1: string, v1: QueryValue, k2: string, v2: QueryValue)
    ensures forall key :: key != k1 && key != k2 ==> Lookup([(k1, v1), (k2, v2)], key).None?
  {
    var q: Query := [(k1, v1), (k2, v2)];
    forall key | key != k1 && key != k2
      ensures Lookup(q, key).None?
    {
      assert Lookup(q, key) == Lookup(q[1..], key) == Lookup(q[1..][1..], key);
    }
  }

  /** A list request carries no parameter besides those three. */
  lemma ListQueryOtherKeys(page: int, perPage: int, searchKey: string, search: string)
    ensures forall key :: key != "page" && key != "per_page" && key != searchKey ==>
      Lookup(ListQuery(page, perPage, searchKey, search), key).None?
  {
    var q := ListQuery(page, perPage, searchKey, search);
    var rest := q[1..][1..];
    forall key | key != "page" && key != "per_page" && key != searchKey
      ensures Lookup(q, key).None?
    {
      assert Lookup(q, key) == Lookup(q[1..], key) == Lookup(rest, key);
      if |rest| > 0 {
        assert Lookup(rest, key) == Lookup(rest[1..], key);
      }
    }
  }
}
