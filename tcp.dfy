/** The tcp transport: the instance state, the connection-option builder, the
    write pipeline with its drain flag, and the bridge from the socket's connect
    result and events to the upward hooks. */
module TcpTransport {
  import opened TcpTypes
  import opened ConnOptsSpec
  import opened Pipeline

  /** A JavaScript object used as a query map; it may be shared with whoever
      created the transport. */
  class Query {
    var entries: QueryMap

    constructor (entries: QueryMap)
      ensures this.entries == entries
    {
      this.entries := entries;
    }
  }

  /** The underlying connection handle, observed as the log of calls made on it. */
  class Handle {
    var log: seq<HandleCall>

    constructor ()
      ensures log == []
    {
      log := [];
    }

    method Write(text: string)
      modifies this
      ensures log == old(log) + [HandleCall.Write(text)]
    {
      log := log + [HandleCall.Write(text)];
    }

    method Writev(bytes: Bytes)
      modifies this
      ensures log == old(log) + [HandleCall.Writev(bytes)]
    {
      log := log + [HandleCall.Writev(bytes)];
    }

    method End()
      modifies this
      ensures log == old(log) + [HandleCall.End]
    {
      log := log + [HandleCall.End];
    }

    method On(event: string)
      modifies this
      ensures log == old(log) + [Listen(event)]
    {
      log := log + [Listen(event)];
    }
  }

  /** What the socket primitive hands to the connect callback. */
  datatype ConnectResult = ConnectFailed(err: ErrorValue) | Connected(handle: Handle)

  /** Copies the own keys of `extraHeaders` one by one into a fresh header map. */
  method CopyOwnHeaders(extraHeaders: Option<map<string, string>>) returns (headers: map<string, string>)
    ensures extraHeaders.Some? ==> headers == extraHeaders.value
    ensures extraHeaders.None? ==> headers == map[]
  {
    headers := map[];
    if extraHeaders.Some? {
      var source := extraHeaders.value;
      var remaining := source.Keys;
      while remaining != {}
        invariant remaining <= source.Keys
        invariant headers.Keys == source.Keys - remaining
        invariant forall h :: h in headers ==> headers[h] == source[h]
        decreases remaining
      {
        var h :| h in remaining;
        headers := headers[h := source[h]];
        remaining := remaining - {h};
      }
    }
  }

  class Tcp {
    const name: string
    /** The options the instance was built with (never changed by the transport). */
    const opts: Options
    /** The query object, shared with the creator of the transport, or none. */
    const query: Query?
    /** Binary capability, latched from the options: off exactly when
        `forceBase64` was given, for the whole life of the instance. */
    const supportsBinary: bool := !opts.forceBase64
    /** The packet codec and the query serialiser the transport calls. */
    const codec: Codec
    const encodeQuery: QueryEncoder

    var writable: bool
    var conn: Handle?
    /** The upward notifications fired so far, in order. */
    var events: seq<Event>

    constructor (opts: Options, query: Query?, codec: Codec, encodeQuery: QueryEncoder)
      ensures name == "tcp"
      ensures this.opts == opts && this.query == query
      ensures this.codec == codec && this.encodeQuery == encodeQuery
      ensures supportsBinary == !opts.forceBase64
      ensures !writable && conn == null && events == []
    {
      name := "tcp";
      this.opts := opts;
      this.query := query;
      this.codec := codec;
      this.encodeQuery := encodeQuery;
      writable := false;
      conn := null;
      events := [];
    }

    /** Builds the connection descriptor. The markers are written into the shared
        query object itself when there is one, into a fresh empty map otherwise. */
    method ConnOpts(nonce: string) returns (d: ConnOptions)
      modifies query
      ensures query != null ==>
                query.entries == QueryWithMarkers(old(query.entries), opts.timestampRequests,
                                                  opts.timestampParam, nonce, supportsBinary)
      ensures d == Descriptor(opts, supportsBinary, if query != null then old(query.entries) else map[],
                              nonce, encodeQuery)
    {
      var q: Query;
      if query != null {
        q := query;
      } else {
        q := new Query(map[]);
      }
      ghost var before := q.entries;
      var schema := if opts.secure then "https:" else "http:";
      if opts.timestampRequests {
        q.entries := q.entries[opts.timestampParam := Str(nonce)];
      }
      if !supportsBinary {
        q.entries := q.entries["b64" := Num(1)];
      }
      assert q.entries == QueryWithMarkers(before, opts.timestampRequests, opts.timestampParam,
                                           nonce, supportsBinary);
      var encoded := encodeQuery(q.entries);
      ghost var serialised := encoded;
      if |encoded| > 0 {
        encoded := "?" + encoded;
      }
      assert opts.path + encoded == RequestPath(opts.path, serialised);
      var headers := CopyOwnHeaders(opts.extraHeaders);
      d := ConnOptions(schema, opts.hostname, opts.port, opts.path + encoded, headers,
                       opts.binaryType, opts.tls);
    }

    /** Builds the descriptor and issues the connect request, which is returned;
        the socket primitive answers later through `OnConnect`. */
    method DoOpen(nonce: string) returns (request: ConnOptions)
      modifies query
      ensures query != null ==>
                query.entries == QueryWithMarkers(old(query.entries), opts.timestampRequests,
                                                  opts.timestampParam, nonce, supportsBinary)
      ensures request == Descriptor(opts, supportsBinary, if query != null then old(query.entries) else map[],
                                    nonce, encodeQuery)
    {
      request := ConnOpts(nonce);
    }

    /** The connect callback: on an error the error hook fires and no handle is
        stored; otherwise the handle is stored, its data, error and end listeners
        are attached, and the open hook fires once. */
    method OnConnect(result: ConnectResult)
      modifies this`conn, this`events, if result.Connected? then {result.handle} else {}
      ensures result.ConnectFailed? ==> conn == old(conn) && events == old(events) + [Errored(result.err)]
      ensures result.Connected? ==>
                conn == result.handle &&
                conn.log == old(result.handle.log) + [Listen("data"), Listen("error"), Listen("end")] &&
                events == old(events) + [Opened]
    {
      match result
      case ConnectFailed(err) =>
        events := events + [Errored(err)];
      case Connected(handle) =>
        conn := handle;
        handle.On("data");
        handle.On("error");
        handle.On("end");
        events := events + [Opened];
    }

    /** Inbound data is forwarded to the data hook unmodified. */
    method HandleData(data: Data)
      modifies this`events
      ensures events == old(events) + [Received(data)]
    {
      events := events + [Received(data)];
    }

    /** The handle's `error` event, bound to the error hook. */
    method OnSocketError(err: ErrorValue)
      modifies this`events
      ensures events == old(events) + [Errored(err)]
    {
      events := events + [Errored(err)];
    }

    /** The handle's `end` event, bound to the close hook. */
    method OnSocketEnd()
      modifies this`events
      ensures events == old(events) + [Closed]
    {
      events := events + [Closed];
    }

    /** Submits one encoded frame: a string frame with `write`, any other with
        `writev`. */
    method EncodePacket(frame: Data)
      requires conn != null
      modifies conn
      ensures frame.StringData? ==> conn.log == old(conn.log) + [HandleCall.Write(frame.s)]
      ensures frame.BinaryData? ==> conn.log == old(conn.log) + [HandleCall.Writev(frame.bytes)]
      ensures conn.log == old(conn.log) + [Submit(frame)]
    {
      match frame
      case StringData(s) => conn.Write(s);
      case BinaryData(b) => conn.Writev(b);
    }

    /** Encodes one packet with the current capability and submits the frame. */
    method WritePacket(packet: Packet)
      requires conn != null
      modifies conn
      ensures conn.log == old(conn.log) + [Submit(codec(packet, supportsBinary))]
    {
      EncodePacket(codec(packet, supportsBinary));
    }

    /** Marks the transport not writable and submits one frame per packet, in
        input order. */
    method Write(packets: seq<Packet>)
      requires conn != null
      modifies this`writable, conn
      ensures !writable
      ensures conn.log == old(conn.log) + Submissions(packets, supportsBinary, codec)
    {
      writable := false;
      var i := 0;
      while i < |packets|
        invariant 0 <= i <= |packets|
        invariant !writable
        invariant conn.log == old(conn.log) + Submissions(packets[..i], supportsBinary, codec)
      {
        assert packets[..i + 1] == packets[..i] + [packets[i]];
        SubmissionsAppend(packets[..i], [packets[i]], supportsBinary, codec);
        WritePacket(packets[i]);
        i := i + 1;
      }
      assert packets[..i] == packets;
    }

    /** One write completion: writable again, and one `drain` event. */
    method Drain()
      modifies this`writable, this`events
      ensures writable
      ensures events == old(events) + [Drained]
    {
      writable := true;
      events := events + [Drained];
    }

    /** Ends the handle if one was ever stored; otherwise does nothing. */
    method DoClose()
      modifies conn
      ensures conn != null ==> conn.log == old(conn.log) + [HandleCall.End]
    {
      if conn != null {
        conn.End();
      }
    }
  }
}
