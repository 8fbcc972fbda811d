# Socket URL resolution (webpack-dev-server client)

This project models how the webpack-dev-server browser client works out the
address of its live-reload socket (`client-src/default/utils/createSocketUrl.js`).
The work happens in two stages:

- **Source selection** (`createSocketUrl`). A non-empty resource query
  `?<url>&<params>` is unpacked into `<url>?<params>`: the leading character
  is dropped and only the first `&` becomes `?`. Without a resource query,
  the current script's `src` is used, or `"/"` when it is empty. A non-empty
  `currentLocation` string is parsed and used as the page location; otherwise
  the page's own `location` is used.
- **Field merging** (`getSocketUrl`). The parsed script URL and the page
  location are merged under fixed rules:
  - port fallback for an absent, empty or `"0"` port;
  - the all-interfaces hostnames `0.0.0.0` and `::` are replaced by the page's
    hostname, when the page has a hostname and a protocol starting with `http`;
  - the page protocol is adopted on an `https:` page, and on any page when the
    script hostname is `0.0.0.0`; an empty hostname and 127.0.0.1 are exempt;
  - the query parameters `sockHost`, `sockPort` and `sockPath` override the result;
  - the pathname defaults to `/sockjs-node`.

Modules, one file each:

- `Wrappers` (`wrappers.dfy`): `Option` and `Result`.
- `Strings` (`strings.dfy`): `replace` with a one-character pattern, which
  rewrites only the first occurrence, and the position of that occurrence.
- `Url` (`url.dfy`): the `UrlParts` record (what `url.parse` returns and what
  the page `location` offers) and the `SocketUrl` record handed to
  `url.format`. Also JavaScript truthiness on optional strings, where a value
  is truthy when it is present and non-empty.
- `Merge` (`merge.dfy`): `getSocketUrl` and its precedence properties.
- `Resolve` (`resolve.dfy`): `createSocketUrl`, the resource-query rewrite and
  source selection.

Node's `url.parse` is the parameter `parse: ParseRequest -> UrlParts`. A
`ParseRequest` records the string and the two flags of the call: decode the
query string, and let slashes denote a host. So the model states which string
is parsed with which flags, without modelling the parser. The current
script's `src` (from `getCurrentScriptSource`) and the page's `location` are
parameters too. The result is the structured record that `url.format` would
serialise.

The page's own `location` always has a protocol, but a location parsed from a
`currentLocation` string need not (e.g. `//user@example.com`). The call
`loc.protocol.startsWith('http')` on line 57 runs whenever the script hostname
is an all-interfaces address and the page has a hostname, and on such a
location it throws a TypeError. `GetSocketUrl` therefore returns
`Err(LocationProtocolMissing)` exactly in that case.

## Model

| member | source | states |
|---|---|---|
| Strings.FirstIndex | client-src/default/utils/createSocketUrl.js:19 | the index found is the first occurrence of the character; none is found exactly when the character does not occur |
| Strings.ReplaceFirst | client-src/default/utils/createSocketUrl.js:19 | `replace('&', '?')` keeps the length, changes only the first `&` to `?`, keeps every other character (later `&`s too), and returns the input unchanged when it has no `&` |
| Strings.ReplaceFirstIsSplice | client-src/default/utils/createSocketUrl.js:19 | the replacement equals the reference splice: prefix before the first occurrence, the new character, then the rest |
| Strings.ReplaceFirstOfConcat | client-src/default/utils/createSocketUrl.js:17-19 | for `u + "&" + rest` with no `&` in `u`, the result is `u + "?" + rest`, whatever `rest` contains |
| Resolve.RewriteResourceQuery | client-src/default/utils/createSocketUrl.js:15-19 | the rewrite is one character shorter than the query; without a later `&` it is the query minus its first character; otherwise it is that tail with its first `&` turned into `?` |
| Resolve.RewriteKeepsOtherCharacters | client-src/default/utils/createSocketUrl.js:15-19 | position by position: only the first `&` after the leading character becomes `?`; every other character, later `&`s included, is kept in order |
| Resolve.PackedQueryUnpacks | client-src/default/utils/createSocketUrl.js:13-19 | a packed query `?<url>&<params>` whose URL has no `&` unpacks to `<url>?<params>`, and `?<url>` unpacks to `<url>` |
| Resolve.DocumentedQueryUnpacks | client-src/default/utils/createSocketUrl.js:13-19 | the resource query in the comment on line 13 unpacks to `http://0.0.0.0:8096?sockPort=8097&sockHost=localhost` |
| Resolve.ScriptRequest | client-src/default/utils/createSocketUrl.js:11-26 | the query string is always decoded; slashes denote a host exactly when no resource query is used; the text parsed is never empty without a resource query, being the script `src` or `"/"` |
| Resolve.SourceSelectionIsExclusive | client-src/default/utils/createSocketUrl.js:11-26 | a non-empty resource query decides the parse input whatever the script `src` is; otherwise the input is the script `src` when truthy, else `"/"`; the two sources are never combined |
| Resolve.CurrentLocationSelection | client-src/default/utils/createSocketUrl.js:29-33 | a non-empty location string is parsed with both flags false, and otherwise the page's own `location` is used unchanged |
| Resolve.CreateSocketUrl | client-src/default/utils/createSocketUrl.js:8-36 | the whole resolution keeps a non-empty pathname and carries the auth of the parsed script URL |
| Resolve.CreateSocketUrlIgnoresUnusedInputs | client-src/default/utils/createSocketUrl.js:11-33 | the script `src` does not matter when a resource query is given, and the page `location` does not matter when a location string is given |
| Resolve.AnyAddressQueryOnSecurePage | client-src/default/utils/createSocketUrl.js:8-36 | resource query `?http://0.0.0.0:8096&sockPort=8097&sockHost=localhost` on page `https://example.com:443/` gives `https://localhost:8097/sockjs-node` |
| Resolve.ScriptSourceScenario | client-src/default/utils/createSocketUrl.js:22-35 | empty resource query with script `http://myhost.test:8080/bundle.js` on the same page gives `http://myhost.test:8080/sockjs-node` |
| Merge.GetSocketUrl | client-src/default/utils/createSocketUrl.js:42-91 | the merge fails exactly when an all-interfaces hostname meets a page with a hostname but no protocol; otherwise auth passes through and the pathname is non-empty, being `sockPath` or `/sockjs-node` |
| Merge.PortPrecedence | client-src/default/utils/createSocketUrl.js:46-79 | a non-empty `sockPort` is the port; otherwise it is the page port when the script port is absent, empty or `"0"`, and the script port unchanged in every other case |
| Merge.HostnamePrecedence | client-src/default/utils/createSocketUrl.js:54-77 | a non-empty `sockHost` is the hostname; otherwise it is the page hostname exactly when the script hostname is `0.0.0.0` or `::`, the page hostname is non-empty and the page protocol starts with `http`, and the script hostname unchanged otherwise |
| Merge.ProtocolPrecedence | client-src/default/utils/createSocketUrl.js:66-72 | the page protocol is taken exactly when the rewritten hostname is non-empty and not 127.0.0.1, and the page is `https:` or the original script hostname was `0.0.0.0`; otherwise the script protocol is kept |
| Merge.LoopbackKeepsProtocol | client-src/default/utils/createSocketUrl.js:66-72 | a script hostname of 127.0.0.1 never fails and always keeps the script protocol, even on a secure page |
| Merge.EmptyOrLoopbackHostKeepsProtocol | client-src/default/utils/createSocketUrl.js:62-72 | with no `sockHost` override, an output hostname that is empty, absent or 127.0.0.1 comes with the script protocol |
| Merge.Ipv6AnyAddressOnPlainPageKeepsProtocol | client-src/default/utils/createSocketUrl.js:54-72 | the script hostname `::` on a page that is not `https:` keeps the script protocol, even when its hostname is rewritten |
| Merge.PathPrecedence | client-src/default/utils/createSocketUrl.js:78 | a non-empty `sockPath` is the pathname, and otherwise it is `/sockjs-node` |
| Merge.FeedbackIsFixpoint | client-src/default/utils/createSocketUrl.js:42-91 | if the output record itself is passed back as the page location `loc`, the same output is produced whenever the script hostname is not an all-interfaces address, whatever the query overrides |
| Merge.AnyAddressFeedbackIsFixpoint | client-src/default/utils/createSocketUrl.js:42-91 | the same record-level feedback property for a `0.0.0.0` or `::` script hostname, when the script protocol starts with `http`, the page has a protocol and `sockHost` does not override the hostname |
| Merge.FeedbackNotFixpointForIpv6AnyAddress | client-src/default/utils/createSocketUrl.js:54-72 | the http restriction on the script protocol is needed: script `ws://[::]` on page `http://example.com` gives host `example.com`, and passing that record back as `loc` gives `::` |
| Merge.FeedbackNotFixpointForLoopbackOverride | client-src/default/utils/createSocketUrl.js:54-77 | the `sockHost` restriction is needed: script `http://0.0.0.0` with `sockHost=127.0.0.1` on page `https://example.com` gets `https:`, and passing that record back as `loc` gives `http:` |
| Merge.FeedbackFailsWithoutPageProtocol | client-src/default/utils/createSocketUrl.js:54-72 | the page-protocol restriction is needed: script `http://0.0.0.0:8080` on a page with neither protocol nor hostname succeeds, and the output record, passed back as `loc`, reaches the line 57 TypeError |
| Merge.AnyAddressBehindSecurePage | client-src/default/utils/createSocketUrl.js:42-91 | script `http://0.0.0.0:8096` with `sockPort=8097&sockHost=localhost` on page `https://example.com:443/` merges to protocol `https:`, host `localhost`, port `8097`, path `/sockjs-node` |

## Left out

- `url.parse` and `url.format` (lines 14, 25, 30, 81) are Node library code. Parsing is an arbitrary function parameter, so nothing about how strings decompose is proved. The output is the record given to `url.format`, not the formatted string. So default-port omission and escaping in the final string are not modelled.
- A resource query `?<url>&sockPort=P` yields port `P` only through `url.parse`, which is not modelled. Only the string half is proved: `PackedQueryUnpacks` shows the query unpacks to `<url>?sockPort=P`, and `PortPrecedence` shows a parsed `sockPort` wins.
- `getCurrentScriptSource` is not part of this model. It reads the DOM and can throw when no script element is found. Its result is the parameter `scriptSource`.
- The page `location` global is the parameter `page`.
- The socket connection that consumes the URL is not modelled.
- The `typeof ... === 'string'` tests on the resource query and the location string are reduced to an optional string: any non-string value is `None`.
- Query values are single strings. Node's query decoding turns a repeated key into an array, which is not modelled.
- Merge.FeedbackIsFixpoint: the feedback lemmas pass the output record back as the page location `loc`; they do not format and reparse it. Even at that level the merge is not idempotent in general. For an all-interfaces script hostname it can fail in three ways. A non-http script protocol is one: `ws://[::]` on an `http:` page is rewritten and keeps `ws:`, and the second pass no longer sees an http page. A page without a protocol is another: the record passed back leads to the TypeError. A `sockHost` override is the third: the second pass rewrites the hostname to the override, so an override of 127.0.0.1 loses the page protocol it was given. So `FeedbackIsFixpoint` covers every other hostname, and `AnyAddressFeedbackIsFixpoint` covers the all-interfaces hostnames without those three cases.
- Merge.AsLocation: the string round trip through `url.format` and then `url.parse` (line 30) is not modelled. It keeps protocol, hostname and port only when the output has both a hostname and a protocol. Without a hostname, `url.format` writes no port, so `/bundle.js` on `http://localhost:8080/` formats to `/sockjs-node` and the port is lost. Without a protocol it writes `//host:port/...`, which `url.parse` without slashes denoting a host reads as a path. The feedback lemmas therefore say nothing about such outputs at the string level.
- Resolve.RewriteResourceQuery: JavaScript strings are sequences of UTF-16 code units, and `substr(1)` drops one code unit. The model's strings are sequences of Unicode scalar values, and the model drops one of those. The two differ only when the first character is outside the Basic Multilingual Plane, which a resource query starting with `?` never is.
