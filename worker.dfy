/** The gateway of api/worker.js: `handleRequest` routes a request path to the welcome
    text, one of three upstream relays, or a 404, always with the same CORS and
    security headers. The upstream fetch is represented by the URL it would fetch. */
module Worker {
  import opened Wrappers
  import opened Text

  datatype Route = Welcome | PlacesRelay | PageRelay | ListenRelay | NotFound

  /** A response body: fixed text, or the body of the upstream response at a URL. */
  datatype Body = Plain(text: string) | Relayed(upstreamUrl: string)

  /** A response; `id` is the resource id taken from the path, for the two routes that have one. */
  datatype Response = Response(route: Route, status: int, headers: map<string, string>, body: Body, id: Option<string>)

  const WelcomeText: string :=
    "API RadioGuessr - Utilisez les endpoints /api/places, /api/page/:id ou /api/listen/:id/channel.mp3"

  const PlacesUpstream: string := "https://radio.garden/api/ara/content/places"
  const PageUpstream: string := "https://radio.garden/api/ara/content/page/"
  const ListenUpstream: string := "https://radio.garden/api/ara/content/listen/"

  const PlacesPrefix: string := "/api/places"
  const PagePrefix: string := "/api/page/"
  const ListenPrefix: string := "/api/listen/"

  const SecurityHeaders: map<string, string> := map[
    "Strict-Transport-Security" := "max-age=31536000; includeSubDomains",
    "X-Content-Type-Options" := "nosniff",
    "X-Frame-Options" := "DENY",
    "Referrer-Policy" := "strict-origin-when-cross-origin"]

  const CorsHeaders: map<string, string> := map[
    "Access-Control-Allow-Origin" := "*",
    "Access-Control-Allow-Methods" := "GET",
    "Access-Control-Allow-Headers" := "Content-Type, Authorization"] + SecurityHeaders

  /** `{ ...corsHeaders, 'Content-Type': contentType }`. */
  function HeadersWith(contentType: string): map<string, string> {
    CorsHeaders["Content-Type" := contentType]
  }

  /** `handleRequest`, on the request's `url.pathname`. */
  function HandleRequest(path: string): (r: Response)
    // the routes, tested in order
    ensures r.route == Welcome <==> path == "/"
    ensures r.route == PlacesRelay <==> path != "/" && PlacesPrefix <= path
    ensures r.route == PageRelay <==> path != "/" && !(PlacesPrefix <= path) && PagePrefix <= path
    ensures r.route == ListenRelay <==>
              path != "/" && !(PlacesPrefix <= path) && !(PagePrefix <= path) && ListenPrefix <= path
    // status and headers
    ensures r.status == (if r.route == NotFound then 404 else 200)
    ensures r.headers.Keys == CorsHeaders.Keys + {"Content-Type"}
    ensures forall h :: h in CorsHeaders ==> r.headers[h] == CorsHeaders[h]
    ensures r.route in {Welcome, NotFound} ==> r.headers["Content-Type"] == "text/plain"
    ensures r.route in {PlacesRelay, PageRelay} ==> r.headers["Content-Type"] == "application/json"
    ensures r.route == ListenRelay ==> r.headers["Content-Type"] == "audio/mpeg"
    // bodies, ids and upstream URLs
    ensures r.route == Welcome ==> r.body == Plain(WelcomeText)
    ensures r.route == NotFound ==> r.body == Plain("Not Found")
    ensures r.route == PlacesRelay ==> r.body == Relayed(PlacesUpstream)
    ensures r.id.Some? <==> r.route in {PageRelay, ListenRelay}
    ensures r.route == PageRelay ==>
              IsFirstSegment(r.id.value, path[|PagePrefix|..], '/')
              && r.body == Relayed(PageUpstream + r.id.value)
    ensures r.route == ListenRelay ==>
              IsFirstSegment(r.id.value, path[|ListenPrefix|..], '/')
              && r.body == Relayed(ListenUpstream + r.id.value + "/channel.mp3")
  {
    if path == "/" then
      Response(Welcome, 200, HeadersWith("text/plain"), Plain(WelcomeText), None)
    else if PlacesPrefix <= path then
      Response(PlacesRelay, 200, HeadersWith("application/json"), Relayed(PlacesUpstream), None)
    else if PagePrefix <= path then
      var id := PathId(path, PagePrefix);
      Response(PageRelay, 200, HeadersWith("application/json"), Relayed(PageUpstream + id), Some(id))
    else if ListenPrefix <= path then
      var id := PathId(path, ListenPrefix);
      Response(ListenRelay, 200, HeadersWith("audio/mpeg"), Relayed(ListenUpstream + id + "/channel.mp3"), Some(id))
    else
      Response(NotFound, 404, HeadersWith("text/plain"), Plain("Not Found"), None)
  }

  /** `path.split('/')[3]` on a path that starts with `/api/<name>/`: the segment
      right after the route name. */
  function PathId(path: string, prefix: string): (id: string)
    requires prefix == PagePrefix || prefix == ListenPrefix
    requires prefix <= path
    ensures IsFirstSegment(id, path[|prefix|..], '/')
  {
    var parts := Split(path, '/');
    SplitRoutePath(path, prefix);
    parts[3]
  }

  /** A path under `/api/<name>/` splits into "", "api", the name, and the pieces of the rest. */
  lemma SplitRoutePath(path: string, prefix: string)
    requires prefix == PagePrefix || prefix == ListenPrefix
    requires prefix <= path
    ensures |Split(path, '/')| >= 4
    ensures IsFirstSegment(Split(path, '/')[3], path[|prefix|..], '/')
  {
    if prefix == PagePrefix {
      SplitUnderName(path, "page");
    } else {
      SplitUnderName(path, "listen");
    }
  }

  lemma SplitUnderName(path: string, name: string)
    requires '/' !in name
    requires "/api/" + name + "/" <= path
    ensures |Split(path, '/')| >= 4
    ensures Split(path, '/')[3] == FirstSegment(path[|name| + 6..], '/')
  {
    var rest := path[|name| + 6..];
    var s3 := name + "/" + rest;
    var s2 := "api" + "/" + s3;
    assert path == "" + "/" + s2 by {
      assert path == path[..|name| + 6] + rest;
      assert path[..|name| + 6] == "/api/" + name + "/";
    }
    SplitAfterSegment("", '/', s2);
    SplitAfterSegment("api", '/', s3);
    SplitAfterSegment(name, '/', rest);
    assert Split(path, '/')[1..] == Split(s2, '/');
    assert Split(s2, '/')[1..] == Split(s3, '/');
    assert Split(s3, '/')[1..] == Split(rest, '/');
  }

  /** The three route prefixes exclude each other, so the order in which they are tested
      never changes the route. */
  lemma RoutePrefixesDisjoint(path: string)
    ensures !(PlacesPrefix <= path && PagePrefix <= path)
    ensures !(PlacesPrefix <= path && ListenPrefix <= path)
    ensures !(PagePrefix <= path && ListenPrefix <= path)
  {
    if PlacesPrefix <= path {
      assert path[5] == 'p' && path[6] == 'l';
    }
    if PagePrefix <= path {
      assert path[5] == 'p' && path[6] == 'a';
    }
    if ListenPrefix <= path {
      assert path[5] == 'l';
    }
  }

  /** Every response, the 404 included, carries every CORS and security header. */
  lemma EveryResponseCarriesCorsHeaders(path: string)
    ensures forall h :: h in SecurityHeaders ==>
              h in HandleRequest(path).headers && HandleRequest(path).headers[h] == SecurityHeaders[h]
    ensures HandleRequest(path).headers["Access-Control-Allow-Origin"] == "*"
    ensures HandleRequest(path).headers["Access-Control-Allow-Methods"] == "GET"
  {
    assert forall h :: h in SecurityHeaders ==> h in CorsHeaders && CorsHeaders[h] == SecurityHeaders[h];
  }
}
