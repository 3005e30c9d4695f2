/**
 * What the list screens exchange with the REST service: the query string
 * (`HttpParams`), the bearer token taken from browser storage, the paginated
 * list response and the messages shown when a list request fails.
 */
module Http {
  import opened Wrappers
  import opened Decimal

  /** Server-side paging record; the client only reads it. */
  datatype Pagination = Pagination(
    page: int,
    limit: int,
    totalItems: int,
    totalPages: int,
    hasNextPage: bool,
    hasPrevPage: bool)

  /** Body of a successful `GET /{resource}`; both parts may be missing (`?? []`, `?? null`). */
  datatype ListResponse<T> = ListResponse(data: Option<seq<T>>, pagination: Option<Pagination>)

  /** Query parameters in insertion order, as `HttpParams` keeps them. */
  type Params = seq<(string, string)>

  /** `params.get(key)`: the value of the first entry with that key. */
  function Lookup(p: Params, key: string): Option<string>
  {
    if p == [] then None
    else if p[0].0 == key then Some(p[0].1)
    else Lookup(p[1..], key)
  }

  function Keys(p: Params): set<string>
  {
    if p == [] then {} else {p[0].0} + Keys(p[1..])
  }

  /** A key is present exactly when looking it up finds a value. */
  lemma {:induction false} LookupIffKey(p: Params, key: string)
    ensures Lookup(p, key).Some? <==> key in Keys(p)
  {
    if p != [] {
      LookupIffKey(p[1..], key);
    }
  }

  /** `params.set(key, value)`: replaces the value of an existing key in place, otherwise appends. */
  function SetParam(p: Params, key: string, value: string): (r: Params)
    ensures Lookup(r, key) == Some(value)
    ensures forall k :: k != key ==> Lookup(r, k) == Lookup(p, k)
    ensures Keys(r) == Keys(p) + {key}
  {
    if p == [] then [(key, value)]
    else if p[0].0 == key then [(key, value)] + p[1..]
    else [p[0]] + SetParam(p[1..], key, value)
  }

  /** Browser storage as the screens read it: `accessToken` and the legacy `access_token` key. */
  datatype TokenStore = TokenStore(accessToken: Option<string>, legacyAccessToken: Option<string>)

  /** A stored value counts only when it is a non-empty string (JavaScript truthiness). */
  predicate Present(v: Option<string>)
  {
    v.Some? && v.value != ""
  }

  /** `primary || fallback`, then `if (!token) return undefined`: the token for the `Bearer` header. */
  function BearerToken(primary: Option<string>, fallback: Option<string>): (t: Option<string>)
    ensures t.Some? <==> Present(primary) || Present(fallback)
    ensures t.Some? ==> t.value != ""
    ensures Present(primary) ==> t == primary
    ensures !Present(primary) ==> t == (if Present(fallback) then fallback else None)
  {
    if Present(primary) then primary
    else if Present(fallback) then fallback
    else None
  }

  /** A list request as issued: its query parameters and the bearer token, if any. */
  datatype Request = Request(params: Params, bearer: Option<string>)

  /** The message for HTTP 401: the token is missing or invalid. */
  const UnauthorizedMessage: string :=
    "HTTP 401: " + "Token tidak ada/invalid. Pastikan accessToken tersedia di localStorage."

  /** `err?.status || 'unknown'`; a status of 0 stands for a failure without an HTTP status. */
  function StatusText(status: nat): string
  {
    if status == 0 then "unknown" else NatToString(status)
  }

  function FetchErrorPrefix(resource: string): string
  {
    "Gagal fetch " + resource + " dari API (HTTP "
  }

  /** The message a failed list request leaves on the screen. */
  function FetchErrorMessage(resource: string, status: nat): string
  {
    if status == 401 then UnauthorizedMessage
    else FetchErrorPrefix(resource) + StatusText(status) + ")."
  }

  /** The token message appears exactly for HTTP 401; every other status gets the generic message. */
  lemma FetchErrorMessageSpec(resource: string, status: nat)
    ensures FetchErrorMessage(resource, status) == UnauthorizedMessage <==> status == 401
    ensures status != 401 ==>
              FetchErrorMessage(resource, status) == FetchErrorPrefix(resource) + StatusText(status) + ")."
  {
    if status != 401 {
      var m := FetchErrorMessage(resource, status);
      assert m[0] == 'G';
      assert UnauthorizedMessage[0] == 'H';
    }
  }

  /** The generic message carries the status: the numeral between the prefix and `).` reads back as it. */
  lemma FetchErrorCarriesStatus(resource: string, status: nat)
    requires status != 401
    ensures var msg := FetchErrorMessage(resource, status);
            var n := |FetchErrorPrefix(resource)|;
            n + 2 <= |msg| &&
            ParseNat(msg[n..|msg| - 2]) == (if status == 0 then None else Some(status))
  {
    var msg := FetchErrorMessage(resource, status);
    var n := |FetchErrorPrefix(resource)|;
    assert msg[n..|msg| - 2] == StatusText(status);
    if status != 0 {
      ParseNatToString(status);
    } else {
      assert StatusText(status)[0] == 'u';
    }
  }
}
