/**
 * The connection: one store's address and credentials, and the single
 * request primitive every resource operation goes through. The HTTP call
 * itself is replaced by the description of the request it would make
 * (`HttpRequest`), and the server's answer is a parameter (`Reply`).
 */
module Connection {
  import opened Wrappers
  import opened Values
  import opened Errors
  import Base64
  import Seqs

  type Byte = Base64.Byte

  const API_PROTOCOL: string := "https"
  const API_HOST: string := ""
  const API_PATH: string := "/api/v2"

  const ACCEPT: string := "application/json;0.9"
  const JSON_CONTENT_TYPE: string := "application/json"

  /**
   * Where and as whom requests are made. The credentials are byte strings,
   * as the package's strings are.
   */
  datatype Config = Config(protocol: string, host: string, basePath: string, user: seq<Byte>, apiKey: seq<Byte>)

  /** The configuration the package ships: no store, no credentials. */
  function DefaultConfig(): (c: Config)
    ensures c.host == [] && c.user == [] && c.apiKey == []
    ensures c.protocol == "https" && c.basePath == "/api/v2"
  {
    Config(API_PROTOCOL, API_HOST, API_PATH, [], [])
  }

  datatype Verb = GET | POST | PUT | DELETE

  /** The HTTP request the connection would send. */
  datatype HttpRequest = HttpRequest(verb: Verb, url: string, headers: map<string, string>, body: Option<Json>)

  /** The server's answer: a status code and the decoded JSON body. */
  datatype Reply = Reply(status: int, body: Json)

  /** What one request amounts to: the request sent and the value handed back to the caller. */
  datatype Exchange = Exchange(sent: HttpRequest, result: Json)

  const COLON: Byte := 58

  /** The user-pass of section 2 of RFC 7617: user, a colon, the key. */
  function UserPass(cfg: Config): seq<Byte>
  {
    cfg.user + [COLON] + cfg.apiKey
  }

  /**
   * The headers every request carries. Fails only when both halves of the
   * credentials are empty; one empty half is accepted.
   */
  function BuildRequestHeaders(cfg: Config): (r: Result<map<string, string>, Error>)
    ensures r.Failure? <==> cfg.user == [] && cfg.apiKey == []
    ensures r.Failure? ==> r.error == MissingCredentials
    ensures r.Success? ==> r.value.Keys == {"Authorization", "Accept"}
    ensures r.Success? ==> r.value["Accept"] == ACCEPT
    ensures r.Success? ==> r.value["Authorization"] == "Basic " + Base64.Encode(UserPass(cfg))
  {
    if cfg.user == [] && cfg.apiKey == [] then Failure(MissingCredentials)
    else
      var auth := Base64.Encode(UserPass(cfg));
      Success(map["Authorization" := "Basic " + auth, "Accept" := ACCEPT])
  }

  /** Reads the credentials back from an `Authorization` value, splitting at the first colon. */
  function ParseBasic(value: string): Option<(seq<Byte>, seq<Byte>)>
  {
    if |value| < 6 || value[..6] != "Basic " then None
    else match Base64.Decode(value[6..])
      case None => None
      case Some(userPass) =>
        var i := Seqs.Find(userPass, COLON);
        if i == |userPass| then None else Some((userPass[..i], userPass[i + 1..]))
  }

  /**
   * Whenever the headers are built and the user contains no colon (which
   * section 2 of RFC 7617 forbids), the `Authorization` value carries
   * exactly the configured user and key.
   */
  lemma BasicRoundTrip(cfg: Config)
    requires BuildRequestHeaders(cfg).Success?
    requires COLON !in cfg.user
    ensures ParseBasic(BuildRequestHeaders(cfg).value["Authorization"]) == Some((cfg.user, cfg.apiKey))
  {
    var up := UserPass(cfg);
    var value := "Basic " + Base64.Encode(up);
    assert BuildRequestHeaders(cfg).value["Authorization"] == value;
    assert value[..6] == "Basic " && value[6..] == Base64.Encode(up);
    Base64.DecodeEncode(up);
    SplitUserPass(cfg.user, cfg.apiKey);
  }

  lemma SplitUserPass(user: seq<Byte>, key: seq<Byte>)
    requires COLON !in user
    ensures var up := user + [COLON] + key;
      var i := Seqs.Find(up, COLON);
      i < |up| && up[..i] == user && up[i + 1..] == key
  {
    var up := user + [COLON] + key;
    assert up == user + ([COLON] + key);
    Seqs.FindPastPrefix(user, [COLON] + key, COLON);
    assert up[..|user|] == user;
    assert up[|user| + 1..] == key;
  }

  /** Scheme, `://`, host and base path: everything before the request path. */
  function Origin(cfg: Config): string
  {
    cfg.protocol + "://" + cfg.host + cfg.basePath
  }

  /** The URL of a request for `path`; `.json` comes last, after any query string in `path`. */
  function Url(cfg: Config, path: string): (r: string)
    ensures |r| == |Origin(cfg)| + |path| + 5
    ensures r[..|cfg.protocol| + 3] == cfg.protocol + "://"
    ensures r[..|Origin(cfg)|] == Origin(cfg)
    ensures r[|Origin(cfg)|..|r| - 5] == path
    ensures r[|r| - 5..] == ".json"
  {
    Origin(cfg) + path + ".json"
  }

  /** Two requests on one connection have the same URL only if they have the same path. */
  lemma UrlInjective(cfg: Config, p: string, q: string)
    requires Url(cfg, p) == Url(cfg, q)
    ensures p == q
  {
    var u := Url(cfg, p);
    assert p == u[|Origin(cfg)|..|u| - 5];
  }

  /**
   * The verb actually used: a truthy body forces PUT or POST whatever was
   * asked for, and without one only DELETE survives; everything else is GET.
   */
  function Dispatch(verbName: string, hasBody: bool): (v: Verb)
    ensures v == PUT <==> hasBody && verbName == "PUT"
    ensures v == POST <==> hasBody && verbName != "PUT"
    ensures v == DELETE <==> !hasBody && verbName == "DELETE"
    ensures v == GET <==> !hasBody && verbName != "DELETE"
  {
    if hasBody then
      if verbName == "PUT" then PUT else POST
    else if verbName == "DELETE" then DELETE
    else GET
  }

  /**
   * The request the connection sends for `verbName`, `path` and `body`, or the
   * error raised before anything is sent: a missing host first, then missing
   * credentials.
   */
  function Request(cfg: Config, verbName: string, path: string, body: Json): (r: Result<HttpRequest, Error>)
    ensures r.Failure? <==> cfg.host == [] || (cfg.user == [] && cfg.apiKey == [])
    ensures r.Failure? ==> r.error == if cfg.host == [] then MissingStoreAddress else MissingCredentials
    ensures r.Success? ==> r.value.url == Url(cfg, path)
    ensures r.Success? ==> r.value.verb == Dispatch(verbName, Truthy(body))
    ensures r.Success? ==> r.value.body == if Truthy(body) then Some(body) else None
    ensures r.Success? ==> (r.value.headers.Keys ==
      if Truthy(body) then {"Authorization", "Accept", "Content-Type"} else {"Authorization", "Accept"})
    ensures r.Success? && Truthy(body) ==> r.value.headers["Content-Type"] == JSON_CONTENT_TYPE
    ensures r.Success? ==> forall h :: h in BuildRequestHeaders(cfg).value && h != "Content-Type" ==>
      h in r.value.headers && r.value.headers[h] == BuildRequestHeaders(cfg).value[h]
  {
    if cfg.host == [] then Failure(MissingStoreAddress)
    else match BuildRequestHeaders(cfg)
      case Failure(e) => Failure(e)
      case Success(headers) =>
        var url := Url(cfg, path);
        if Truthy(body) then
          Success(HttpRequest(Dispatch(verbName, true), url, headers["Content-Type" := JSON_CONTENT_TYPE], Some(body)))
        else
          Success(HttpRequest(Dispatch(verbName, false), url, headers, None))
  }

  predicate IsSuccessStatus(status: int)
  {
    status == 200 || status == 201
  }

  /**
   * Sends the request and hands back the decoded body on 200 or 201, or the
   * body wrapped as `{"Error": body}` on any other status. Errors raised
   * before sending are passed on unchanged.
   */
  function RequestJson(cfg: Config, verbName: string, path: string, data: Json, reply: Reply): (r: Result<Exchange, Error>)
    ensures r.Failure? <==> Request(cfg, verbName, path, data).Failure?
    ensures r.Failure? ==> r.error == Request(cfg, verbName, path, data).error
    ensures r.Success? ==> r.value.sent == Request(cfg, verbName, path, data).value
    ensures r.Success? && IsSuccessStatus(reply.status) ==> r.value.result == reply.body
    ensures r.Success? && !IsSuccessStatus(reply.status) ==> r.value.result == JObject([("Error", reply.body)])
  {
    match Request(cfg, verbName, path, data)
    case Failure(e) => Failure(e)
    case Success(sent) =>
      if IsSuccessStatus(reply.status) then Success(Exchange(sent, reply.body))
      else Success(Exchange(sent, JObject([("Error", reply.body)])))
  }

  /**
   * The wrapper is a value like any other: a successful reply whose body is
   * itself `{"Error": x}` cannot be told apart from a failed reply carrying `x`.
   */
  lemma ErrorWrapperIsAmbiguous(cfg: Config, verbName: string, path: string, data: Json, x: Json)
    requires cfg.host != [] && (cfg.user != [] || cfg.apiKey != [])
    ensures RequestJson(cfg, verbName, path, data, Reply(200, JObject([("Error", x)])))
         == RequestJson(cfg, verbName, path, data, Reply(404, x))
  {
  }
}
