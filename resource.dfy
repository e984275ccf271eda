/**
 * Resources: one collection of the store API each, addressed by its `ext`
 * path. A resource turns list, fetch, create, update and delete into
 * connection requests, builds the query string of a listing, and remembers
 * the id it last fetched.
 */
module Resources {
  import opened Wrappers
  import opened Values
  import opened Errors
  import opened Connection
  import Seqs

  /** The collections the package declares, each a resource with its own `ext`. */
  datatype Collection = Time | Coupons | Products | Brands | Customers | Orders | OptionSets | Categories

  function Ext(c: Collection): (r: string)
    ensures |r| >= 2 && r[0] == '/'
    ensures forall k :: 1 <= k < |r| ==> 'a' <= r[k] <= 'z'
  {
    match c
    case Time => "/time"
    case Coupons => "/coupons"
    case Products => "/products"
    case Brands => "/brands"
    case Customers => "/customers"
    case Orders => "/orders"
    case OptionSets => "/optionsets"
    case Categories => "/categories"
  }

  /** No two collections share a path. */
  lemma ExtInjective(c: Collection, d: Collection)
    requires Ext(c) == Ext(d)
    ensures c == d
  {
  }

  /**
   * The argument of a listing: `None` for anything that is not a dict
   * (including no argument at all), or the dict's entries in iteration order,
   * each value already in its `%s` form.
   */
  type Filters = Option<seq<(string, string)>>

  function Pair(key: string, value: string): string
  {
    key + "=" + value + "&"
  }

  function Params(entries: seq<(string, string)>): string
  {
    if entries == [] then ""
    else Pair(entries[0].0, entries[0].1) + Params(entries[1..])
  }

  /** The query suffix of a listing: always a leading `?`, then `key=value&` per entry. */
  function Query(filters: Filters): (r: string)
    ensures |r| >= 1 && r[0] == '?'
  {
    "?" + match filters
      case None => ""
      case Some(entries) => Params(entries)
  }

  lemma {:induction false} ParamsAppend(a: seq<(string, string)>, b: seq<(string, string)>)
    ensures Params(a + b) == Params(a) + Params(b)
  {
    if a == [] {
      assert a + b == b;
    } else {
      assert (a + b)[1..] == a[1..] + b;
      ParamsAppend(a[1..], b);
    }
  }

  /** A dict with no entries and a non-dict argument give the same bare `?`. */
  lemma EmptyDictIsNoFilter()
    ensures Query(Some([])) == Query(None) == "?"
  {
  }

  /** Keys without `=` or `&` and values without `&`: entries a reader can separate again. */
  predicate Separable(entries: seq<(string, string)>)
  {
    forall k :: 0 <= k < |entries| ==> '=' !in entries[k].0 && '&' !in entries[k].0 && '&' !in entries[k].1
  }

  /** Every query built from a non-empty dict ends in `&`, whatever its keys and values. */
  lemma {:induction false} EndsInAmpersand(entries: seq<(string, string)>)
    requires entries != []
    ensures Params(entries)[|Params(entries)| - 1] == '&'
  {
    var p := Pair(entries[0].0, entries[0].1);
    if entries[1..] == [] {
      assert Params(entries) == p + "";
    } else {
      EndsInAmpersand(entries[1..]);
    }
  }

  /** With no `&` inside keys or values, there are exactly as many `&` as entries. */
  lemma {:induction false} AmpersandPerEntry(entries: seq<(string, string)>)
    requires forall k :: 0 <= k < |entries| ==> '&' !in entries[k].0 && '&' !in entries[k].1
    ensures Seqs.Count(Params(entries), '&') == |entries|
  {
    if entries != [] {
      var (key, value) := entries[0];
      AmpersandPerEntry(entries[1..]);
      Seqs.CountConcat(key + "=" + value, "&", '&');
      Seqs.CountConcat(key, "=", '&');
      Seqs.CountConcat(key + "=", value, '&');
      Seqs.CountAbsent(key, '&');
      Seqs.CountAbsent(value, '&');
      Seqs.CountConcat(Pair(key, value), Params(entries[1..]), '&');
    }
  }

  /** Where the value that starts after the `=` at `i` ends: at the next `&`, or at the end of `s`. */
  function ValueEnd(s: string, i: nat): (j: nat)
    requires i < |s|
    ensures i < j <= |s|
  {
    i + 1 + Seqs.Find(s[i + 1..], '&')
  }

  /** The key before `i`, the value between `i` and `j`, and what follows `j`. */
  function Slices(s: string, i: nat, j: nat): (string, string, string)
    requires i < j < |s|
  {
    (s[..i], s[i + 1..j], s[j + 1..])
  }

  /** Splits off the first `key=value&` of `s`: the key, the value and what follows. */
  function ParseEntry(s: string): (r: Option<(string, string, string)>)
    ensures r.Some? ==> |r.value.2| < |s|
  {
    var i := Seqs.Find(s, '=');
    if i == |s| then None
    else
      var j := ValueEnd(s, i);
      if j == |s| then None
      else Some(Slices(s, i, j))
  }

  /** Splits `key=value&...` back into its entries. */
  function ParseParams(s: string): Option<seq<(string, string)>>
    decreases |s|
  {
    if s == [] then Some([])
    else match ParseEntry(s)
      case None => None
      case Some((key, value, t)) =>
        match ParseParams(t)
        case None => None
        case Some(rest) => Some([(key, value)] + rest)
  }

  function ParseQuery(q: string): Option<seq<(string, string)>>
  {
    if q == [] || q[0] != '?' then None else ParseParams(q[1..])
  }

  /** Where the pieces of `key=value&t` sit. */
  lemma PairLayout(key: string, value: string, t: string)
    ensures var s := Pair(key, value) + t;
      && s == key + ("=" + value + "&" + t)
      && s[|key| + 1..] == value + ("&" + t)
      && Slices(s, |key|, |key| + 1 + |value|) == (key, value, t)
  {
    var s := Pair(key, value) + t;
    assert s == key + ("=" + value + "&" + t);
    assert s[|key| + 1..] == value + ("&" + t);
    assert s[..|key|] == key;
    assert s[|key| + 1..|key| + 1 + |value|] == value;
    assert s[|key| + 2 + |value|..] == t;
  }

  lemma EntryOfPair(key: string, value: string, t: string)
    requires '=' !in key && '&' !in value
    ensures ParseEntry(Pair(key, value) + t) == Some((key, value, t))
  {
    var s := Pair(key, value) + t;
    var i, j := |key|, |key| + 1 + |value|;
    PairLayout(key, value, t);
    assert Seqs.Find(s, '=') == i by {
      var rest := "=" + value + "&" + t;
      Seqs.FindPastPrefix(key, rest, '=');
      assert rest[0] == '=';
    }
    assert ValueEnd(s, i) == j by {
      var rest := "&" + t;
      Seqs.FindPastPrefix(value, rest, '&');
      assert rest[0] == '&';
    }
  }

  lemma ParseLeadingPair(key: string, value: string, t: string)
    requires '=' !in key && '&' !in value
    ensures ParseParams(Pair(key, value) + t) == match ParseParams(t)
      case None => None
      case Some(rest) => Some([(key, value)] + rest)
  {
    EntryOfPair(key, value, t);
  }

  /** Round trip: the entries of a dict can be read back from its query string, in order. */
  lemma {:induction false} QueryRoundTrip(entries: seq<(string, string)>)
    requires Separable(entries)
    ensures ParseQuery(Query(Some(entries))) == Some(entries)
  {
    ParamsRoundTrip(entries);
    assert Query(Some(entries))[1..] == Params(entries);
  }

  lemma {:induction false} ParamsRoundTrip(entries: seq<(string, string)>)
    requires Separable(entries)
    ensures ParseParams(Params(entries)) == Some(entries)
  {
    if entries != [] {
      assert Separable(entries[1..]);
      ParamsRoundTrip(entries[1..]);
      ParseLeadingPair(entries[0].0, entries[0].1, Params(entries[1..]));
      assert entries == [entries[0]] + entries[1..];
    }
  }

  /** The path of one item of a collection: the collection's path, `/`, and the id's `str()`. */
  function ItemPath(ext: string, id: Id): (r: string)
    ensures |r| == |ext| + 1 + |IdToString(id)|
    ensures r[..|ext|] == ext && r[|ext|] == '/'
    ensures r[|ext| + 1..] == IdToString(id)
  {
    ext + "/" + IdToString(id)
  }

  /** Distinct integer ids address distinct items. */
  lemma ItemPathInjective(ext: string, m: int, n: int)
    requires ItemPath(ext, IntId(m)) == ItemPath(ext, IntId(n))
    ensures m == n
  {
    var p := ItemPath(ext, IntId(m));
    assert p[|ext| + 1..] == IdToString(IntId(m));
    assert p[|ext| + 1..] == IdToString(IntId(n));
    IntIdRoundTrip(m);
    IntIdRoundTrip(n);
  }

  /**
   * One collection of the store. `selected` is the id of the last item
   * fetched by id; `None` means no fetch by id has happened yet, so the
   * attribute does not exist.
   */
  class Resource {
    const ext: string
    const client: Config
    var selected: Option<Id>

    constructor (collection: Collection, client: Config)
      ensures ext == Ext(collection) && this.client == client
      ensures selected == None
    {
      ext := Ext(collection);
      this.client := client;
      selected := None;
    }

    /** Builds the query suffix of a listing by appending one `key=value&` per entry. */
    method Filtering(filters: Filters) returns (params: string)
      ensures params == Query(filters)
    {
      params := "?";
      if filters.Some? {
        var entries := filters.value;
        var i := 0;
        while i < |entries|
          invariant 0 <= i <= |entries|
          invariant params == "?" + Params(entries[..i])
        {
          ParamsAppend(entries[..i], [entries[i]]);
          assert entries[..i + 1] == entries[..i] + [entries[i]];
          params := params + Pair(entries[i].0, entries[i].1);
          i := i + 1;
        }
        assert entries[..i] == entries;
      }
    }

    /** Lists the collection: a GET of `ext` followed by the query suffix. */
    method Get(filters: Filters, reply: Reply) returns (r: Result<Exchange, Error>)
      ensures r == RequestJson(client, "GET", ext + Query(filters), JNull, reply)
      ensures r.Success? ==> r.value.sent.verb == GET && r.value.sent.body == None
    {
      var query := Filtering(filters);
      r := RequestJson(client, "GET", ext + query, JNull, reply);
    }

    /** Fetches one item and, once the request has been made, remembers its id. */
    method GetById(id: Id, reply: Reply) returns (r: Result<Exchange, Error>)
      modifies this
      ensures r == RequestJson(client, "GET", ItemPath(ext, id), JNull, reply)
      ensures r.Success? ==> r.value.sent.verb == GET
      ensures selected == if r.Success? then Some(id) else old(selected)
    {
      r := RequestJson(client, "GET", ItemPath(ext, id), JNull, reply);
      if r.Success? {
        selected := Some(id);
      }
    }

    /** Creates an item: a POST of the payload to `ext`, which is a GET when the payload is falsy. */
    method Create(payload: Json, reply: Reply) returns (r: Result<Exchange, Error>)
      ensures r == RequestJson(client, "POST", ext, payload, reply)
      ensures r.Success? ==> r.value.sent.verb == (if Truthy(payload) then POST else GET)
      ensures r.Success? ==> r.value.sent.url == Url(client, ext)
    {
      r := RequestJson(client, "POST", ext, payload, reply);
    }

    /**
     * Updates an item: a PUT of the payload to the given id, or, when that
     * id is falsy, to the remembered one; fails when there is none.
     */
    method Update(payload: Json, id: Id, reply: Reply) returns (r: Result<Exchange, Error>)
      ensures IdTruthy(id) ==> r == RequestJson(client, "PUT", ItemPath(ext, id), payload, reply)
      ensures !IdTruthy(id) && selected.None? ==> r == Failure(MissingIdentifier)
      ensures !IdTruthy(id) && selected.Some? ==>
        r == RequestJson(client, "PUT", ItemPath(ext, selected.value), payload, reply)
      ensures r.Success? ==> r.value.sent.verb == (if Truthy(payload) then PUT else GET)
    {
      var target := id;
      if !IdTruthy(id) {
        if selected.None? {
          return Failure(MissingIdentifier);
        }
        target := selected.value;
      }
      r := RequestJson(client, "PUT", ItemPath(ext, target), payload, reply);
    }

    /** Deletes an item, resolving its id as `Update` does; no body is ever sent. */
    method Delete(id: Id, reply: Reply) returns (r: Result<Exchange, Error>)
      ensures IdTruthy(id) ==> r == RequestJson(client, "DELETE", ItemPath(ext, id), JNull, reply)
      ensures !IdTruthy(id) && selected.None? ==> r == Failure(MissingIdentifier)
      ensures !IdTruthy(id) && selected.Some? ==>
        r == RequestJson(client, "DELETE", ItemPath(ext, selected.value), JNull, reply)
      ensures r.Success? ==> r.value.sent.verb == DELETE && r.value.sent.body == None
    {
      var target := id;
      if !IdTruthy(id) {
        if selected.None? {
          return Failure(MissingIdentifier);
        }
        target := selected.value;
      }
      r := RequestJson(client, "DELETE", ItemPath(ext, target), JNull, reply);
    }
  }
}
