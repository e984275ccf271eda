# BigCommerce V2 API client: the request layer

This project models the request-shaping core of the BigCommerce V2 API
client, `bigcommerce/api.py`, and proves what that core promises about
the requests it makes.

- **Connection** (`connection.dfy`). A store's address and credentials. The
  `Authorization` and `Accept` headers, the URL of a request, the choice of
  HTTP verb from the requested method and the body's truth value, and the
  handling of the reply: 200 and 201 hand back the decoded body, and any
  other status wraps it as `{"Error": body}`. A missing store address
  (`MissingStoreAddress`) is checked before anything else, then missing
  credentials (`MissingCredentials`).
- **Resource** (`resource.dfy`). One collection of the store (products,
  orders, …), addressed by its `ext` path. It builds the query string of a
  listing (`filtering`) and turns get, get-by-id, create, update and delete
  into connection requests. It also remembers the id it last fetched in
  `selected`, which update and delete fall back to when they are given a
  falsy id. `Resource` is a class because `get_by_id` updates `selected`
  in place. The connection settings never change, so they are a datatype.
- **Supporting definitions**:
  - The base-64 encoding of section 4 of RFC 4648 (`base64.dfy`), together
    with its decoder. The decoder is needed to state that the credentials
    can be read back.
  - Python's truth value of JSON payloads and ids, and Python's `str()` of
    an id (`values.dfy`).
  - The errors (`errors.dfy`).
  - Small sequence facts (`seqs.dfy`).
  - Example uses on a store `store.example.com` (`scenarios.dfy`).

The HTTP exchange is a parameter. A request yields the `HttpRequest` it
would send (verb, URL, headers, body). The server's `Reply` (status and
decoded body) is passed in, and the result is an `Exchange` holding the
request sent and the value handed back to the caller. Errors raised before
anything is sent are `Failure`s of a `Result`.

Choices that follow the code as written:
- `filtering` of anything that is not a dict, including no argument at
  all, is the bare `?`. So every listing URL carries a `?`, and every entry
  ends in `&`.
- `.json` is appended after the query string, so a listing with filters
  goes to `…/products?limit=10&.json`, not to `…/products.json?limit=10`.
- `get`, `get_by_id` and `create` return the connection's decoded result
  as it is. They do not wrap it in resource objects, and there is no `raw`
  flag.
- A body that is truthy turns any method other than PUT into POST. Without
  a body, any method other than DELETE becomes GET, so a `create` with an
  empty payload is sent as a GET.
- `update` sends its payload as given. There is no fallback to stored
  fields.
- `get_by_id` records `selected` only once `request_json` has returned.
  When the request raises, the old value stays. A non-2xx reply does not
  raise, so it still records the id.
- Until `get_by_id` has run, `selected` does not exist. An `update` or
  `delete` with a falsy id then fails. The model calls this failure
  `MissingIdentifier`; in Python it is an `AttributeError`.
- The store-address guard at `api.py:24-25` stands in the class body and
  refers to `self`, so Python never runs it as a per-request check. The
  model treats it as the check its message describes: before each request,
  and before the credentials are checked.

## Model

| member | source | states |
|---|---|---|
| Connection.DefaultConfig | bigcommerce/api.py:11-22 | The shipped connection has no store address, an empty user and an empty key (protocol `https`, base path `/api/v2`). |
| Connection.BuildRequestHeaders | bigcommerce/api.py:34-40 | Fails with `MissingCredentials` exactly when both user and key are empty. Otherwise the headers are exactly `Authorization` and `Accept`. `Accept` is `application/json;0.9`, and `Authorization` is `Basic ` followed by the base-64 encoding of the user, a colon and the key. |
| Connection.BasicRoundTrip | bigcommerce/api.py:39-40 | Decoding the `Authorization` value gives back exactly the configured user and key, for any user without a colon. |
| Base64.Encode | bigcommerce/api.py:39 | The encoding of n bytes has 4·⌈n/3⌉ characters. |
| Base64.DecodeEncode | bigcommerce/api.py:39 | Decoding the encoding of any byte string gives the byte string back. |
| Base64.TestVectors | bigcommerce/api.py:39 | The encoder produces the test vectors of section 10 of RFC 4648. |
| Connection.Url | bigcommerce/api.py:44 | The URL is the protocol, `://`, the host and base path, then the request path, then `.json`, with each piece at a known position. |
| Connection.UrlInjective | bigcommerce/api.py:44 | On one connection, two paths give the same URL only if they are the same path. |
| Values.Truthy | bigcommerce/api.py:47 | The `if body:` test: a decoded document is false exactly when it is `null`, `false`, `0`, `""`, `[]` or `{}`. |
| Connection.Dispatch | bigcommerce/api.py:47-57 | Each verb, as an if-and-only-if: PUT iff there is a body and PUT was asked for; POST iff there is a body and anything else was asked for; DELETE iff there is no body and DELETE was asked for; GET otherwise. |
| Connection.Request | bigcommerce/api.py:42-57 | Fails exactly when the host is empty or both credentials are empty, and a missing host is reported first. Otherwise the request has the URL of `path` and the dispatched verb, and carries the body exactly when it is truthy. `Content-Type: application/json` is added exactly when there is a body, and every header built by `build_request_headers` is kept. |
| Connection.RequestJson | bigcommerce/api.py:27-32 | Fails exactly when the request fails, with the same error. Otherwise it sends that request and hands back the reply body on 200 or 201, and `{"Error": body}` on any other status. |
| Connection.ErrorWrapperIsAmbiguous | bigcommerce/api.py:29-32 | On a connection with a store address and credentials, a 200 reply whose body is `{"Error": x}` gives the same result as a failed reply carrying `x`. |
| Resources.Ext | bigcommerce/api.py:107-152 | Every collection path is `/` followed by lower-case letters. |
| Resources.ExtInjective | bigcommerce/api.py:107-152 | No two collections share a path. |
| Resources.Query | bigcommerce/api.py:72-80 | The query suffix always begins with `?`. |
| Resources.EmptyDictIsNoFilter | bigcommerce/api.py:72-80 | An empty dict and a non-dict argument both give the bare `?`. |
| Resources.EndsInAmpersand | bigcommerce/api.py:75-77 | The query of any non-empty dict ends in `&`, whatever its keys and values. |
| Resources.AmpersandPerEntry | bigcommerce/api.py:75-77 | If no key or value contains `&`, the query has exactly one `&` per entry. |
| Resources.QueryRoundTrip | bigcommerce/api.py:72-80 | If no key contains `=` or `&` and no value contains `&`, the entries can be read back from the query string, in order. |
| Resources.Resource.Filtering | bigcommerce/api.py:72-80 | The loop that appends one `key=value&` per entry builds exactly `Query(filters)`. |
| Resources.Resource.Get | bigcommerce/api.py:82-85 | A listing is the connection's GET of `ext` plus the query suffix, with no body. |
| Resources.Resource.GetById | bigcommerce/api.py:87-91 | Sends a GET of `ext/str(id)`. `selected` becomes the id exactly when the request did not raise, and is otherwise unchanged. |
| Values.IdTruthy | bigcommerce/api.py:99 | The `ID or self.selected` test: an id is false exactly when it is `0`, `""` or `None`. |
| Values.IdToString | bigcommerce/api.py:89 | `str(ID)`: a string id stays as it is, and `None` becomes `None`. An integer becomes decimal digits, with a leading `-` exactly when it is negative. |
| Resources.ItemPath | bigcommerce/api.py:89 | `self.ext + '/' + str(ID)`: the path is the collection's path, then `/`, then the id's `str()`, each at a known position. |
| Resources.ItemPathInjective | bigcommerce/api.py:89 | Distinct integer ids give distinct item paths. |
| Values.IntIdRoundTrip | bigcommerce/api.py:89 | The `str()` of an integer id parses back to that integer and contains no `/`. |
| Values.DecimalRoundTrip | bigcommerce/api.py:89 | The decimal digits of a natural number denote that number. |
| Resources.Resource.Create | bigcommerce/api.py:93-95 | Requests a POST of the payload to `ext`. It is sent as POST when the payload is truthy and as GET otherwise, to the URL of `ext`. |
| Resources.Resource.Update | bigcommerce/api.py:97-100 | Sends a PUT to the given id when that id is truthy, and otherwise to `selected`. With a falsy id and no `selected`, it fails with `MissingIdentifier`. The verb sent is PUT when the payload is truthy and GET otherwise. |
| Resources.Resource.Delete | bigcommerce/api.py:102-105 | Resolves the id as `update` does, and sends a DELETE with no body. |
| Resources.Resource.constructor | bigcommerce/api.py:64-67 | A new resource has its collection's `ext` and the given connection, and no `selected` yet. |

## Left out

- The HTTP transport (`requests.get/post/put/delete`), TLS and network failures are left out. The reply is a parameter.
- JSON serialisation of the body (`json.dumps`) and decoding of the reply (`response.json()`) are left out. Bodies are the `Json` datatype as decoded, and a reply whose body is not valid JSON is not modelled.
- JSON numbers are integers only; floating point is not modelled.
- `Config`: credentials are byte strings, as Python 2 strings are. The Unicode-to-bytes conversion of Python 3 is not modelled.
- Python's dict iteration order is not modelled. A filter dict is given as its entries in iteration order, each value already in its `%s` form.
- Resources.Resource.Update: ids are integers, strings or `None`. The `str()` of any other Python type is not modelled.
- Resources.Resource.Delete: ids are limited in the same way as for `Update`.
- The shared class-level `client = Connection()` is not modelled. Each resource is given its connection when it is built. The settings never change, so sharing them makes no difference.
- `__iter__` (returns the resource itself) is not modelled, because it has no behaviour to prove.
- `__init__`'s unused `fields` argument is not modelled.
- The `NameError` that the class-body guard at `api.py:24` raises is not modelled. The guard is modelled as the per-request check its message describes.
- The exception class hierarchy of `exceptions.py` is not modelled. Errors are one datatype, and the exceptions' messages are not modelled.
