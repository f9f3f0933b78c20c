/** The management HTTP API (src/mgmt/api.rs): `Mgmt::call` routes on the
    request's method and path to the index, the server listing, adding a
    server to the pool, and a placeholder for removal.

    JSON encoding, JSON decoding of a `PoolServer` and URL parsing belong to
    foreign libraries; they are the three functions of a `Codec`. The pool
    (src/pool.rs) is not part of this model; it is represented by its
    servers in order, and adding a server whose URL is already present
    leaves it unchanged. */
module Api {
  import opened Wrappers

  /** hyper's request methods. */
  datatype Method = Options | Get | Post | Put | Delete | Head | Trace | Connect | Patch | Extension(name: string)

  /** A HATEOAS link. */
  datatype Link = Link(rel: string, href: string, verb: Option<string>)

  datatype PoolServer = PoolServer(url: string, links: Option<seq<Link>>)

  datatype PoolServers = PoolServers(servers: seq<PoolServer>, links: Option<seq<Link>>)

  datatype Index = Index(about: string, links: seq<Link>)

  /** The values the API encodes as JSON. */
  datatype Document = IndexDocument(index: Index) | ServersDocument(listing: PoolServers)

  /** The foreign encoders and parsers: `encode_pretty`, `json::decode::<PoolServer>`
      (its error as `{}` shows it) and `str::parse::<Url>` (the URL as
      `as_str` shows it afterwards). */
  datatype Codec = Codec(
    encode: Document -> string,
    decode: string -> Result<PoolServer, string>,
    parseUrl: string -> Option<string>)

  /** A backend in the pool: its URL and its `map_host` flag. */
  datatype Server = Server(url: string, mapHost: bool)

  /** A request: method, path, and the chunks of its body as they arrive. */
  datatype Request = Request(verb: Method, path: string, body: seq<string>)

  datatype Response = Response(status: nat, contentLength: Option<nat>, contentType: Option<string>, body: string)

  const StatusOk: nat := 200
  const StatusBadRequest: nat := 400
  const StatusNotFound: nat := 404

  /** `application/json; charset=utf-8`. */
  const JsonUtf8: string := "application/json; charset=utf-8"

  const ServersPath: string := "/servers"
  const ServersPrefix: string := "/servers/"

  // -----------------------------------------------------------------------
  // Routing.

  datatype Route = ShowIndex | ListServers | AddServer | RemoveServer | NoRoute

  /** The `match (req.method(), req.path())` of `call`. */
  function RouteOf(m: Method, path: string): (r: Route)
    ensures r == ShowIndex <==> m == Get && path == "/"
    ensures r == ListServers <==> m == Get && path == ServersPath
    ensures r == AddServer <==> m == Post && path == ServersPath
    ensures r == RemoveServer <==> m == Delete && path == ServersPath
  {
    if m == Get && path == "/" then ShowIndex
    else if m == Get && path == ServersPath then ListServers
    else if m == Post && path == ServersPath then AddServer
    else if m == Delete && path == ServersPath then RemoveServer
    else NoRoute
  }

  // -----------------------------------------------------------------------
  // The documents and responses.

  const TheIndex: Index := Index("Weldr Management API", [Link("servers", ServersPath, None)])

  const AddLink: Link := Link("add", ServersPath, Some("POST"))

  function DeleteLink(url: string): Link
  {
    Link("delete", ServersPrefix + url, Some("DELETE"))
  }

  /** The listing's entries: one per pool server, in pool order, each with
      its URL and a single link that deletes it. */
  function Entries(servers: seq<Server>): (r: seq<PoolServer>)
    ensures |r| == |servers|
    ensures forall i :: 0 <= i < |servers| ==>
      r[i].url == servers[i].url && r[i].links == Some([DeleteLink(servers[i].url)])
  {
    if |servers| == 0 then []
    else [PoolServer(servers[0].url, Some([DeleteLink(servers[0].url)]))] + Entries(servers[1..])
  }

  /** The listing document: the entries of the pool's servers, and one
      top-level link that adds a server. */
  function Listing(servers: seq<Server>): (r: PoolServers)
    ensures |r.servers| == |servers|
    ensures forall i :: 0 <= i < |servers| ==> r.servers[i] == PoolServer(servers[i].url, Some([DeleteLink(servers[i].url)]))
    ensures r.links == Some([Link("add", "/servers", Some("POST"))])
  {
    PoolServers(Entries(servers), Some([AddLink]))
  }

  /** A JSON response: status 200, the encoded document, its length. */
  function JsonResponse(doc: Document, codec: Codec): Response
  {
    var body := codec.encode(doc);
    Response(StatusOk, Some(|body|), Some(JsonUtf8), body)
  }

  /** `index()`: status 200, JSON, the encoded index with its one
      `servers` link, and the body's length. */
  function IndexResponse(codec: Codec): (r: Response)
    ensures r.status == StatusOk && r.contentType == Some(JsonUtf8) && r.contentLength == Some(|r.body|)
    ensures r.body == codec.encode(IndexDocument(Index("Weldr Management API", [Link("servers", "/servers", None)])))
  {
    JsonResponse(IndexDocument(TheIndex), codec)
  }

  /** `all_servers_reponse(&pool)`: status 200, JSON, the encoded listing
      of the pool, and the body's length. */
  function AllServersResponse(servers: seq<Server>, codec: Codec): (r: Response)
    ensures r.status == StatusOk && r.contentType == Some(JsonUtf8) && r.contentLength == Some(|r.body|)
    ensures r.body == codec.encode(ServersDocument(Listing(servers)))
  {
    JsonResponse(ServersDocument(Listing(servers)), codec)
  }

  function InvalidJsonResponse(error: string): Response
  {
    var body := "invalid JSON: " + error;
    Response(StatusBadRequest, Some(|body|), None, body)
  }

  const RemoveServerBody: string := "Remove server"

  const RemoveServerResponse: Response := Response(StatusOk, Some(|RemoveServerBody|), None, RemoveServerBody)

  const NotFoundResponse: Response := Response(StatusNotFound, None, None, "")

  // -----------------------------------------------------------------------
  // The pool and the effect of a call.

  predicate HasUrl(servers: seq<Server>, url: string)
  {
    exists i :: 0 <= i < |servers| && servers[i].url == url
  }

  /** The pool servers after `pool.add(s)`: `s` is appended unless a server
      with its URL is already there. */
  function WithServer(servers: seq<Server>, s: Server): (r: seq<Server>)
    ensures HasUrl(r, s.url)
    ensures servers <= r && |r| <= |servers| + 1
    ensures forall url :: HasUrl(r, url) <==> HasUrl(servers, url) || url == s.url
  {
    if HasUrl(servers, s.url) then servers
    else
      var r := servers + [s];
      assert r[|servers|].url == s.url;
      assert forall i :: 0 <= i < |servers| ==> r[i] == servers[i];
      r
  }

  /** The body with all its chunks, in order. */
  function Concat(chunks: seq<string>): string
  {
    if |chunks| == 0 then "" else Concat(chunks[..|chunks| - 1]) + chunks[|chunks| - 1]
  }

  /** `server.url.parse::<Url>().expect(..)` does not panic on the decoded body. */
  predicate UrlParses(body: string, codec: Codec)
  {
    codec.decode(body).Success? ==> codec.parseUrl(codec.decode(body).value.url).Some?
  }

  /** `call` does not panic on `req`. */
  predicate CallDefined(req: Request, codec: Codec)
  {
    RouteOf(req.verb, req.path) == AddServer ==> UrlParses(Concat(req.body), codec)
  }

  /** What `add_server` answers on `body`, and the pool servers afterwards. */
  function AddServerAnswer(body: string, servers: seq<Server>, codec: Codec): (r: (Response, seq<Server>))
    requires UrlParses(body, codec)
    ensures r.0.status == StatusOk <==> codec.decode(body).Success?
    ensures r.0.status == StatusBadRequest <==> codec.decode(body).Failure?
    ensures r.0.contentLength == Some(|r.0.body|)
    ensures servers <= r.1 && |r.1| <= |servers| + 1
    ensures codec.decode(body).Failure? ==> r.1 == servers
    ensures codec.decode(body).Success? ==> HasUrl(r.1, codec.parseUrl(codec.decode(body).value.url).value)
  {
    match codec.decode(body)
    case Success(server) =>
      var added := WithServer(servers, Server(codec.parseUrl(server.url).value, true));
      (AllServersResponse(added, codec), added)
    case Failure(e) => (InvalidJsonResponse(e), servers)
  }

  /** What `call` answers on `req`, and the pool servers afterwards. */
  function Answer(req: Request, servers: seq<Server>, codec: Codec): (r: (Response, seq<Server>))
    requires CallDefined(req, codec)
    ensures r.0.status == StatusNotFound <==> RouteOf(req.verb, req.path) == NoRoute
    ensures servers <= r.1 && |r.1| <= |servers| + 1
  {
    match RouteOf(req.verb, req.path)
    case ShowIndex => (IndexResponse(codec), servers)
    case ListServers => (AllServersResponse(servers, codec), servers)
    case AddServer => AddServerAnswer(Concat(req.body), servers, codec)
    case RemoveServer => (RemoveServerResponse, servers)
    case NoRoute => (NotFoundResponse, servers)
  }

  // -----------------------------------------------------------------------
  // Properties of the API.

  /** Each route's response: the index, its one `servers` link, the listing
      of the unchanged pool, the removal placeholder, and 404 otherwise. */
  lemma AnswerPerRoute(req: Request, servers: seq<Server>, codec: Codec)
    requires CallDefined(req, codec)
    ensures var (r, after) := Answer(req, servers, codec);
      match RouteOf(req.verb, req.path)
      case ShowIndex =>
        && r.status == StatusOk && r.contentType == Some(JsonUtf8) && after == servers
        && r.body == codec.encode(IndexDocument(Index("Weldr Management API", [Link("servers", "/servers", None)])))
      case ListServers =>
        && r.status == StatusOk && r.contentType == Some(JsonUtf8) && after == servers
        && r.body == codec.encode(ServersDocument(Listing(servers)))
        && Listing(servers).links == Some([Link("add", "/servers", Some("POST"))])
      case AddServer => true
      case RemoveServer => r.status == StatusOk && r.body == "Remove server" && after == servers
      case NoRoute => r.status == StatusNotFound && r.body == "" && after == servers
  {
  }

  /** Every response `call` builds declares a `Content-Length` equal to its
      body's length, except the bare 404, which declares none. */
  lemma AnswerDeclaresLength(req: Request, servers: seq<Server>, codec: Codec)
    requires CallDefined(req, codec)
    ensures Answer(req, servers, codec).0.contentLength.Some? <==> RouteOf(req.verb, req.path) != NoRoute
    ensures Answer(req, servers, codec).0.contentLength.Some? ==>
      Answer(req, servers, codec).0.contentLength.value == |Answer(req, servers, codec).0.body|
  {
  }

  /** Only `POST /servers` can change the pool. */
  lemma OnlyAddChangesPool(req: Request, servers: seq<Server>, codec: Codec)
    requires CallDefined(req, codec)
    requires RouteOf(req.verb, req.path) != AddServer
    ensures Answer(req, servers, codec).1 == servers
  {
  }

  /** `POST /servers` with a body that does not decode: status 400, the
      decoder's message after "invalid JSON: ", and the pool unchanged. */
  lemma AddInvalidJson(body: string, servers: seq<Server>, codec: Codec)
    requires codec.decode(body).Failure?
    ensures AddServerAnswer(body, servers, codec).1 == servers
    ensures AddServerAnswer(body, servers, codec).0 ==
      Response(400, Some(|"invalid JSON: " + codec.decode(body).error|), None, "invalid JSON: " + codec.decode(body).error)
  {
  }

  /** `POST /servers` with a body that decodes: the pool afterwards holds a
      server with the parsed URL, every server it held before, and nothing
      else; the answer is the listing of that pool, in which the new URL
      appears with its delete link. */
  lemma AddValidJson(body: string, servers: seq<Server>, codec: Codec)
    requires codec.decode(body).Success? && UrlParses(body, codec)
    ensures var url := codec.parseUrl(codec.decode(body).value.url).value;
      var (r, after) := AddServerAnswer(body, servers, codec);
      && after == WithServer(servers, Server(url, true))
      && r == AllServersResponse(after, codec)
      && exists i :: 0 <= i < |Listing(after).servers| &&
           Listing(after).servers[i] == PoolServer(url, Some([DeleteLink(url)]))
  {
    var url := codec.parseUrl(codec.decode(body).value.url).value;
    var after := WithServer(servers, Server(url, true));
    var i :| 0 <= i < |after| && after[i].url == url;
    assert Listing(after).servers[i] == PoolServer(url, Some([DeleteLink(url)]));
  }

  /** The delete link of an entry names its server: stripping the
      `/servers/` prefix from the href gives back the URL. */
  function DeleteTarget(href: string): Option<string>
  {
    if |ServersPrefix| <= |href| && href[..|ServersPrefix|] == ServersPrefix
    then Some(href[|ServersPrefix|..])
    else None
  }

  lemma DeleteLinksNameTheirServer(servers: seq<Server>)
    ensures forall i :: 0 <= i < |Listing(servers).servers| ==>
      DeleteTarget(Listing(servers).servers[i].links.value[0].href) == Some(servers[i].url)
  {
    forall i | 0 <= i < |Listing(servers).servers|
      ensures DeleteTarget(Listing(servers).servers[i].links.value[0].href) == Some(servers[i].url)
    {
      var href := ServersPrefix + servers[i].url;
      assert href[..|ServersPrefix|] == ServersPrefix;
      assert href[|ServersPrefix|..] == servers[i].url;
    }
  }

  /** As written, `call` has no route for the delete links it hands out:
      a `DELETE` on any of them is answered with 404. */
  lemma DeleteLinksAreNotRouted(servers: seq<Server>, i: nat)
    requires i < |servers|
    ensures RouteOf(Delete, Listing(servers).servers[i].links.value[0].href) == NoRoute
  {
    var href := ServersPrefix + servers[i].url;
    assert |href| > |ServersPath|;
  }

  // -----------------------------------------------------------------------
  // The objects of the source.

  /** The body accumulated by `add_server`'s fold: every chunk, in order. */
  method CollectBody(chunks: seq<string>) returns (body: string)
    ensures body == Concat(chunks)
  {
    body := "";
    for i := 0 to |chunks|
      invariant body == Concat(chunks[..i])
    {
      assert chunks[..i + 1][..i] == chunks[..i];
      body := body + chunks[i];
    }
    assert chunks[..|chunks|] == chunks;
  }

  /** The shared backend pool. */
  class Pool {
    var servers: seq<Server>

    constructor ()
      ensures servers == []
    {
      servers := [];
    }

    /** `pool.add(server)`. */
    method Add(s: Server)
      modifies this
      ensures servers == WithServer(old(servers), s)
    {
      if !HasUrl(servers, s.url) {
        servers := servers + [s];
      }
    }
  }

  /** `Mgmt`: the HTTP service over the shared pool. */
  class Mgmt {
    const pool: Pool
    const codec: Codec

    constructor (pool: Pool, codec: Codec)
      ensures this.pool == pool && this.codec == codec
    {
      this.pool := pool;
      this.codec := codec;
    }

    /** `call`: answers as `Answer` says and leaves the pool as it says. */
    method Call(req: Request) returns (r: Response)
      requires CallDefined(req, codec)
      modifies pool
      ensures (r, pool.servers) == Answer(req, old(pool.servers), codec)
    {
      match RouteOf(req.verb, req.path)
      case ShowIndex =>
        r := IndexResponse(codec);
      case ListServers =>
        r := AllServersResponse(pool.servers, codec);
      case AddServer =>
        r := AddServerToPool(req.body);
      case RemoveServer =>
        r := RemoveServerResponse;
      case NoRoute =>
        r := NotFoundResponse;
    }

    /** `add_server`: collects the body, decodes it, and either adds the
        server (with `map_host` set) and lists the pool, or answers 400. */
    method AddServerToPool(chunks: seq<string>) returns (r: Response)
      requires UrlParses(Concat(chunks), codec)
      modifies pool
      ensures (r, pool.servers) == AddServerAnswer(Concat(chunks), old(pool.servers), codec)
    {
      var body := CollectBody(chunks);
      match codec.decode(body)
      case Success(server) =>
        var url := codec.parseUrl(server.url).value;
        pool.Add(Server(url, true));
        r := AllServersResponse(pool.servers, codec);
      case Failure(e) =>
        r := InvalidJsonResponse(e);
    }
  }
}
