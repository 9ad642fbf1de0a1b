/** Pure specification of the connection descriptor built by `connOpts`. */
module ConnOptsSpec {
  import opened TcpTypes

  /** The query after `connOpts` has added its markers: the timestamp nonce under
      `timestampParam` when timestamp requests are on, then `b64 = 1` when binary
      frames are not supported (so `b64` wins if both keys coincide). */
  function QueryWithMarkers(q: QueryMap, timestampRequests: bool, timestampParam: string,
                            nonce: string, supportsBinary: bool): (r: QueryMap)
    ensures r.Keys == q.Keys + (if timestampRequests then {timestampParam} else {})
                             + (if supportsBinary then {} else {"b64"})
    ensures !supportsBinary ==> r["b64"] == Num(1)
    ensures timestampRequests && (supportsBinary || timestampParam != "b64") ==>
              r[timestampParam] == Str(nonce)
    ensures forall k :: (k in q && !(timestampRequests && k == timestampParam)
                          && !(!supportsBinary && k == "b64")) ==> r[k] == q[k]
  {
    var stamped := if timestampRequests then q[timestampParam := Str(nonce)] else q;
    if supportsBinary then stamped else stamped["b64" := Num(1)]
  }

  /** Repeating `connOpts` on the same (aliased) query object adds no further
      keys: the second application only replaces the nonce. */
  lemma RepeatedMarkersReplaceNonce(q: QueryMap, timestampRequests: bool, timestampParam: string,
                                    first: string, second: string, supportsBinary: bool)
    ensures QueryWithMarkers(QueryWithMarkers(q, timestampRequests, timestampParam, first, supportsBinary),
                             timestampRequests, timestampParam, second, supportsBinary)
            == QueryWithMarkers(q, timestampRequests, timestampParam, second, supportsBinary)
  {
  }

  /** The request path: the encoded query is appended after a `?` only when it
      is non-empty. */
  function RequestPath(path: string, encoded: string): (p: string)
    ensures |p| >= |path| && p[..|path|] == path
    ensures encoded == "" ==> p == path
    ensures encoded != "" ==> |p| == |path| + 1 + |encoded| && p[|path|] == '?' && p[|path| + 1..] == encoded
    // so a `?` is never followed by an empty query
    ensures p == path || (|p| >= |path| + 2 && p[|path|] == '?')
  {
    if |encoded| > 0 then path + "?" + encoded else path
  }

  /** The headers of the descriptor: every own key of `extraHeaders`, or none. */
  function Headers(extraHeaders: Option<map<string, string>>): (headers: map<string, string>)
  {
    if extraHeaders.Some? then extraHeaders.value else map[]
  }

  /** The descriptor `connOpts` returns, given the instance's options and
      capability, the query entries before the call and the nonce. */
  function Descriptor(o: Options, supportsBinary: bool, entries: QueryMap, nonce: string,
                      encodeQuery: QueryEncoder): (d: ConnOptions)
    ensures (d.protocol == "https:") == o.secure && (d.protocol == "http:") == !o.secure
    ensures d.path == RequestPath(o.path, encodeQuery(QueryWithMarkers(entries, o.timestampRequests,
                                                      o.timestampParam, nonce, supportsBinary)))
    ensures o.extraHeaders.Some? ==> d.headers == o.extraHeaders.value
    ensures o.extraHeaders.None? ==> d.headers == map[]
    ensures d.hostname == o.hostname && d.port == o.port
    ensures d.tls == o.tls && d.binaryType == o.binaryType
  {
    ConnOptions(
      if o.secure then "https:" else "http:",
      o.hostname,
      o.port,
      RequestPath(o.path, encodeQuery(QueryWithMarkers(entries, o.timestampRequests, o.timestampParam,
                                                       nonce, supportsBinary))),
      Headers(o.extraHeaders),
      o.binaryType,
      o.tls)
  }

  /** With no query entries, no timestamp and binary support, and a serialiser
      that maps the empty map to the empty string, the path is the base path. */
  lemma PlainDescriptorHasBarePath(o: Options, nonce: string, encodeQuery: QueryEncoder)
    requires !o.timestampRequests
    requires encodeQuery(map[]) == ""
    ensures Descriptor(o, true, map[], nonce, encodeQuery).path == o.path
  {
  }
}
