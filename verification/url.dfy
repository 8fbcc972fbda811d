/** The structured URL records the socket-URL logic consumes and produces,
    and JavaScript truthiness on optional strings. */
module Url {
  import opened Wrappers

  /** The fields of a parsed URL that matter here: the result of Node's
      `url.parse`, or the page's `location`. An absent field is `None`; the
      decoded query string maps each key to its value. */
  datatype UrlParts = UrlParts(
    protocol: Option<string>,
    auth: Option<string>,
    hostname: Option<string>,
    port: Option<string>,
    query: map<string, string>)

  /** The record handed to `url.format`: exactly these five fields, with no
      query string and no fragment. */
  datatype SocketUrl = SocketUrl(
    protocol: Option<string>,
    auth: Option<string>,
    hostname: Option<string>,
    port: Option<string>,
    pathname: string)

  /** JavaScript truthiness of an optional string: present and non-empty. */
  predicate Truthy(v: Option<string>) {
    v.Some? && v.value != ""
  }

  /** The value of `query[key]`, absent when the key is missing. */
  function QueryParam(query: map<string, string>, key: string): Option<string> {
    if key in query then Some(query[key]) else None
  }

  /** JavaScript `a || b` on optional strings. */
  function Or(a: Option<string>, b: Option<string>): Option<string> {
    if Truthy(a) then a else b
  }

  /** JavaScript `a || fallback` where the fallback is a string literal. */
  function OrElse(a: Option<string>, fallback: string): string {
    if Truthy(a) then a.value else fallback
  }
}
