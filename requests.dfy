/** The request descriptor: a compiled route plus the body to send with it.
    The body is kept only when the route's HTTP method permits one. */
module Requests {

  import opened Wrappers
  import opened Routes

  /** An okhttp request body: its media type (absent for the empty body) and
      its content. */
  datatype RequestBody = RequestBody(mediaType: Option<string>, content: string)

  const MediaTypeJson := "application/json; charset=utf-8"

  /** `EMPTY_BODY`: no media type and no bytes. */
  const EmptyBody := RequestBody(None, "")

  /** `RequestBody.create(MEDIA_TYPE_JSON, payload)`, as the entity setters build it. */
  function JsonBody(payload: string): (body: RequestBody)
    ensures body.mediaType == Some(MediaTypeJson) && body.content == payload
  {
    RequestBody(Some(MediaTypeJson), payload)
  }

  /** What is known of okhttp's `HttpMethod.permitsRequestBody`, whose answer
      for other methods (DELETE among them) depends on the okhttp version. */
  predicate KnownBodyRules(permitsRequestBody: string -> bool)
  {
    && !permitsRequestBody("GET")
    && permitsRequestBody("POST")
    && permitsRequestBody("PUT")
    && permitsRequestBody("PATCH")
  }

  /** The body the descriptor stores: the given one when the method permits a
      body, `null` otherwise. */
  function FilterBody(permitsRequestBody: string -> bool, httpMethod: Method, body: Option<RequestBody>): (kept: Option<RequestBody>)
    ensures permitsRequestBody(httpMethod.Name()) ==> kept == body
    ensures !permitsRequestBody(httpMethod.Name()) ==> kept == None
    ensures KnownBodyRules(permitsRequestBody) && httpMethod == GET ==> kept == None
    ensures KnownBodyRules(permitsRequestBody) && httpMethod in {POST, PUT, PATCH} ==> kept == body
  {
    if permitsRequestBody(httpMethod.Name()) then body else None
  }

  /** One submission. Both versions of the class hold their two fields
      unchanged after construction (final in one version, never assigned
      again in the other), hence `const`; the class keeps object identity,
      which is how the requester tells submissions apart. The getters are the
      fields themselves. */
  class Request {
    const compiledRoute: CompiledRoute
    const requestBody: Option<RequestBody>

    constructor (permitsRequestBody: string -> bool, compiledRoute: CompiledRoute, requestBody: Option<RequestBody>)
      ensures this.compiledRoute == compiledRoute
      ensures this.requestBody == FilterBody(permitsRequestBody, compiledRoute.route.httpMethod, requestBody)
    {
      this.compiledRoute := compiledRoute;
      this.requestBody := FilterBody(permitsRequestBody, compiledRoute.route.httpMethod, requestBody);
    }

    /** `toString`: the method name and the compiled URL. */
    function ToString(): (s: string)
      ensures ParseDescription(s) == Some((compiledRoute.route.httpMethod, compiledRoute.compiledUrl))
    {
      DescriptionRoundTrip(compiledRoute.route.httpMethod, compiledRoute.compiledUrl);
      Describe(compiledRoute.route.httpMethod, compiledRoute.compiledUrl)
    }
  }

  const DescriptionHead := "Request(route="

  function Describe(httpMethod: Method, url: string): string
  {
    DescriptionHead + httpMethod.Name() + " " + url + ")"
  }

  /** Reads a method and a URL back from the text `toString` produces. */
  function ParseDescription(s: string): Option<(Method, string)>
  {
    if |s| < |DescriptionHead| + 1 || s[..|DescriptionHead|] != DescriptionHead || s[|s| - 1] != ')' then None
    else ParseRoute(s[|DescriptionHead|..|s| - 1])
  }

  /** Reads `<METHOD> <url>`. */
  function ParseRoute(text: string): Option<(Method, string)>
  {
    if |text| >= 4 && text[..4] == "GET " then Some((GET, text[4..]))
    else if |text| >= 5 && text[..5] == "POST " then Some((POST, text[5..]))
    else if |text| >= 4 && text[..4] == "PUT " then Some((PUT, text[4..]))
    else if |text| >= 6 && text[..6] == "PATCH " then Some((PATCH, text[6..]))
    else if |text| >= 7 && text[..7] == "DELETE " then Some((DELETE, text[7..]))
    else None
  }

  /** The method name and the URL, separated by a blank, read back as themselves. */
  lemma RouteTextRoundTrip(httpMethod: Method, url: string)
    ensures ParseRoute(httpMethod.Name() + " " + url) == Some((httpMethod, url))
  {
    var name := httpMethod.Name();
    var text := name + " " + url;
    assert text[..|name| + 1] == name + " ";
    assert text[|name| + 1..] == url;
    // The first two letters tell the five names apart.
    assert text[0] == name[0] && text[1] == name[1];
    match httpMethod
    case GET =>
    case POST => assert text[..4] != "GET ";
    case PUT => assert text[..4] != "GET " && (|text| >= 5 ==> text[..5] != "POST ");
    case PATCH => assert text[..4] != "GET " && (|text| >= 5 ==> text[..5] != "POST ") && text[..4] != "PUT ";
    case DELETE =>
      assert text[..4] != "GET " && (|text| >= 5 ==> text[..5] != "POST ") && text[..4] != "PUT " && (|text| >= 6 ==> text[..6] != "PATCH ");
  }

  /** The description determines the method and the URL. */
  lemma DescriptionRoundTrip(httpMethod: Method, url: string)
    ensures ParseDescription(Describe(httpMethod, url)) == Some((httpMethod, url))
  {
    var text := httpMethod.Name() + " " + url;
    var s := Describe(httpMethod, url);
    assert s == DescriptionHead + text + ")";
    assert s[..|DescriptionHead|] == DescriptionHead;
    assert s[|DescriptionHead|..|s| - 1] == text;
    RouteTextRoundTrip(httpMethod, url);
  }

  /** Two requests print alike only when their methods and compiled URLs agree. */
  lemma ToStringDeterminesRoute(a: Request, b: Request)
    requires a.ToString() == b.ToString()
    ensures a.compiledRoute.route.httpMethod == b.compiledRoute.route.httpMethod
    ensures a.compiledRoute.compiledUrl == b.compiledRoute.compiledUrl
  {
  }

  /** The page-list request as the client builds it: the compiled base URL
      plus `/pages`, submitted with the empty body, which GET drops. */
  method PageListRequest(permitsRequestBody: string -> bool) returns (request: Request)
    requires KnownBodyRules(permitsRequestBody)
    ensures request.compiledRoute == CompiledRoute(GetPageList, ApiBaseUrl + "/pages")
    ensures request.requestBody == None
    ensures ParseDescription(request.ToString()) == Some((GET, ApiBaseUrl + "/pages"))
  {
    GetPageListCompiles();
    var compiled := Compile(GetPageList, []);
    request := new Request(permitsRequestBody, compiled.value, Some(EmptyBody));
  }

  /** The create-component request as a page builds it: a POST to the page's
      component list that keeps its JSON payload. */
  method CreateComponentRequest(permitsRequestBody: string -> bool, pageId: string, payload: string) returns (request: Request)
    requires KnownBodyRules(permitsRequestBody) && BraceFree(pageId)
    ensures request.compiledRoute.route == CreateComponent
    ensures request.compiledRoute.compiledUrl == ApiBaseUrl + "/pages/" + pageId + "/components"
    ensures request.requestBody == Some(JsonBody(payload))
    ensures request.requestBody.value.mediaType == Some(MediaTypeJson)
  {
    ComponentListRouteCompiles(CreateComponent, pageId);
    var compiled := Compile(CreateComponent, [pageId]);
    request := new Request(permitsRequestBody, compiled.value, Some(JsonBody(payload)));
  }
}
