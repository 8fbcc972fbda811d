/** `createSocketUrl`: choosing the string the script URL is parsed from,
    choosing the page location, and handing both to the merge. Node's
    `url.parse` is the parameter `parse`; the page's `location` and the
    current script's `src` are parameters too. */
module Resolve {
  import opened Wrappers
  import opened Strings
  import opened Url
  import opened Merge

  /** One call of `url.parse(text, parseQueryString, slashesDenoteHost)`. */
  datatype ParseRequest = ParseRequest(text: string, parseQueryString: bool, slashesDenoteHost: bool)

  /** The resource query `?<url>&<params>` turned back into `<url>?<params>`:
      the leading character is dropped and only the first `&` becomes `?`. */
  function RewriteResourceQuery(q: string): (r: string)
    ensures q == [] ==> r == []
    ensures q != [] ==> |r| == |q| - 1
    ensures q != [] && '&' !in q[1..] ==> r == q[1..]
    ensures q != [] && '&' in q[1..] ==>
      var i := FirstIndex(q[1..], '&').value;
      && '&' !in q[1..i + 1]
      && r == q[1..i + 1] + "?" + q[i + 2..]
  {
    if q == [] then []
    else
      ReplaceFirstIsSplice(q[1..], '&', '?');
      if '&' in q[1..] then
        var i := FirstIndex(q[1..], '&').value;
        assert q[1..][..i] == q[1..i + 1];
        assert q[1..][i + 1..] == q[i + 2..];
        ReplaceFirst(q[1..], '&', '?')
      else
        ReplaceFirst(q[1..], '&', '?')
  }

  /** Character by character: the rewrite keeps every character after the
      first one in order, except that the first `&` among them reads `?`;
      later `&`s are kept. */
  lemma RewriteKeepsOtherCharacters(q: string, k: nat)
    requires q != []
    requires k < |q| - 1
    ensures var r := RewriteResourceQuery(q);
      && (q[k + 1] != '&' ==> r[k] == q[k + 1])
      && (q[k + 1] == '&' && '&' in q[1..k + 1] ==> r[k] == '&')
      && (q[k + 1] == '&' && '&' !in q[1..k + 1] ==> r[k] == '?')
  {
    var tail := q[1..];
    assert tail[k] == q[k + 1];
    assert tail[..k] == q[1..k + 1];
    var i := FirstIndex(tail, '&');
    assert i.Some? ==> i.value <= k || q[k + 1] != '&';
  }

  /** Unpacking a packed resource query: `?<url>&<params>`, where `<url>`
      holds no `&`, becomes `<url>?<params>`, and `?<url>` becomes `<url>`. */
  lemma PackedQueryUnpacks(lead: char, u: string, params: string)
    requires '&' !in u
    ensures RewriteResourceQuery([lead] + u + "&" + params) == u + "?" + params
    ensures RewriteResourceQuery([lead] + u) == u
  {
    assert ([lead] + u + "&" + params)[1..] == u + ['&'] + params;
    ReplaceFirstOfConcat(u, '&', '?', params);
    assert ([lead] + u)[1..] == u;
  }

  /** The script URL of the resource query in the comment on line 13 of
      createSocketUrl.js,
      `?http://0.0.0.0:8096&sockPort=8097&sockHost=localhost`, and its
      parameters. */
  const DocumentedUrl := "http://0.0.0.0:8096"
  const DocumentedParams := "sockPort=8097&sockHost=localhost"

  /** The resource query from that comment unpacks to a URL whose query string
      carries `sockPort` and `sockHost`. */
  lemma DocumentedQueryUnpacks()
    ensures RewriteResourceQuery("?" + DocumentedUrl + "&" + DocumentedParams)
         == DocumentedUrl + "?" + DocumentedParams
  {
    assert '&' !in DocumentedUrl;
    PackedQueryUnpacks('?', DocumentedUrl, DocumentedParams);
  }

  /** The `url.parse` call for the script URL: the rewritten resource query
      when one is given, otherwise the script's `src`, or "/" when that is
      empty or missing; the query string is always decoded, and only the
      script `src` is parsed with `//` denoting a host. */
  function ScriptRequest(resourceQuery: Option<string>, scriptSource: Option<string>): (r: ParseRequest)
    ensures r.parseQueryString
    ensures r.slashesDenoteHost <==> !Truthy(resourceQuery)
    ensures r.text != [] || Truthy(resourceQuery)
    ensures Truthy(resourceQuery) ==> |r.text| == |resourceQuery.value| - 1
    ensures !Truthy(resourceQuery) ==> r.text == "/" || Some(r.text) == scriptSource
  {
    if resourceQuery.Some? && resourceQuery.value != "" then
      ParseRequest(RewriteResourceQuery(resourceQuery.value), true, false)
    else
      ParseRequest(OrElse(scriptSource, "/"), true, true)
  }

  /** Exactly one source is parsed, never a combination: a non-empty
      resource query decides the request whatever the script `src` is, and
      otherwise the request depends only on the script `src`. */
  lemma SourceSelectionIsExclusive(
    resourceQuery: Option<string>, otherQuery: Option<string>,
    scriptSource: Option<string>, otherSource: Option<string>)
    ensures Truthy(resourceQuery) ==>
      && ScriptRequest(resourceQuery, scriptSource) == ScriptRequest(resourceQuery, otherSource)
      && ScriptRequest(resourceQuery, scriptSource).text == RewriteResourceQuery(resourceQuery.value)
    ensures !Truthy(resourceQuery) && !Truthy(otherQuery) ==>
      ScriptRequest(resourceQuery, scriptSource) == ScriptRequest(otherQuery, scriptSource)
    ensures !Truthy(resourceQuery) && Truthy(scriptSource) ==>
      ScriptRequest(resourceQuery, scriptSource).text == scriptSource.value
    ensures !Truthy(resourceQuery) && !Truthy(scriptSource) ==>
      ScriptRequest(resourceQuery, scriptSource).text == "/"
  {
  }

  /** The page location: a non-empty `currentLocation` string parsed (without
      query decoding), otherwise the page's own `location`. */
  function CurrentLocation(currentLocation: Option<string>, page: UrlParts, parse: ParseRequest -> UrlParts): UrlParts {
    if currentLocation.Some? && currentLocation.value != "" then
      parse(ParseRequest(currentLocation.value, false, false))
    else
      page
  }

  /** The page location comes from exactly one place: a non-empty location
      string is parsed with neither query decoding nor slashes denoting a
      host, and otherwise the page's own `location` is used as it is. */
  lemma CurrentLocationSelection(
    currentLocation: Option<string>, page: UrlParts, parse: ParseRequest -> UrlParts)
    ensures Truthy(currentLocation) ==>
      CurrentLocation(currentLocation, page, parse) == parse(ParseRequest(currentLocation.value, false, false))
    ensures !Truthy(currentLocation) ==> CurrentLocation(currentLocation, page, parse) == page
  {
  }

  /** The socket URL record for a resource query, an optional location
      string, the current script's `src` and the page's `location`. */
  function CreateSocketUrl(
    resourceQuery: Option<string>, currentLocation: Option<string>,
    scriptSource: Option<string>, page: UrlParts,
    parse: ParseRequest -> UrlParts): (r: Result<SocketUrl, MergeError>)
    ensures r.Ok? ==> r.value.pathname != []
    ensures r.Ok? ==> r.value.auth == parse(ScriptRequest(resourceQuery, scriptSource)).auth
  {
    GetSocketUrl(parse(ScriptRequest(resourceQuery, scriptSource)),
                 CurrentLocation(currentLocation, page, parse))
  }

  /** The script `src` matters only without a resource query, and the page's
      own `location` only without a location string. */
  lemma CreateSocketUrlIgnoresUnusedInputs(
    resourceQuery: Option<string>, currentLocation: Option<string>,
    scriptSource: Option<string>, otherSource: Option<string>,
    page: UrlParts, otherPage: UrlParts, parse: ParseRequest -> UrlParts)
    ensures Truthy(resourceQuery) ==>
      CreateSocketUrl(resourceQuery, currentLocation, scriptSource, page, parse)
      == CreateSocketUrl(resourceQuery, currentLocation, otherSource, page, parse)
    ensures Truthy(currentLocation) ==>
      CreateSocketUrl(resourceQuery, currentLocation, scriptSource, page, parse)
      == CreateSocketUrl(resourceQuery, currentLocation, scriptSource, otherPage, parse)
  {
  }

  /** An all-interfaces resource query behind a secure page, end to end: the
      resource query
      `?http://0.0.0.0:8096&sockPort=8097&sockHost=localhost` on the page
      `https://example.com:443/` yields `https://localhost:8097/sockjs-node`,
      for any parser that decomposes the two URLs in the usual way. */
  lemma AnyAddressQueryOnSecurePage(parse: ParseRequest -> UrlParts, scriptSource: Option<string>, page: UrlParts)
    requires parse(ParseRequest(DocumentedUrl + "?" + DocumentedParams, true, false))
          == UrlParts(Some("http:"), None, Some("0.0.0.0"), Some("8096"),
                      map["sockPort" := "8097", "sockHost" := "localhost"])
    requires parse(ParseRequest("https://example.com:443/", false, false))
          == UrlParts(Some("https:"), None, Some("example.com"), Some("443"), map[])
    ensures CreateSocketUrl(
              Some("?" + DocumentedUrl + "&" + DocumentedParams),
              Some("https://example.com:443/"), scriptSource, page, parse)
         == Ok(SocketUrl(Some("https:"), None, Some("localhost"), Some("8097"), "/sockjs-node"))
  {
    DocumentedQueryUnpacks();
    AnyAddressBehindSecurePage();
  }

  /** Without a resource query the script's own URL decides: the script
      `http://myhost.test:8080/bundle.js` on the page
      `http://myhost.test:8080/` yields `http://myhost.test:8080/sockjs-node`. */
  lemma ScriptSourceScenario(parse: ParseRequest -> UrlParts, page: UrlParts)
    requires parse(ParseRequest("http://myhost.test:8080/bundle.js", true, true))
          == UrlParts(Some("http:"), None, Some("myhost.test"), Some("8080"), map[])
    requires parse(ParseRequest("http://myhost.test:8080/", false, false))
          == UrlParts(Some("http:"), None, Some("myhost.test"), Some("8080"), map[])
    ensures CreateSocketUrl(
              Some(""), Some("http://myhost.test:8080/"),
              Some("http://myhost.test:8080/bundle.js"), page, parse)
         == Ok(SocketUrl(Some("http:"), None, Some("myhost.test"), Some("8080"), "/sockjs-node"))
  {
  }
}
