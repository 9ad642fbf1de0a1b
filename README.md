# Tcp transport of the engine.io client, modelled in Dafny

This project models `lib/transports/tcp.js`, the raw-socket transport of the
engine.io client, and proves properties of the model. The transport does three things:

- **Connection-descriptor builder** (`connOpts`). It picks `https:` or `http:` from
  `secure`. It writes a timestamp nonce and the `b64 = 1` marker into the
  query. It serialises that query into the path after a `?`, only when the
  serialised query is non-empty. It copies the TLS material as is and the
  extra headers key by key. The query object the instance was given is
  written in place (`this.query || {}` aliases it). The model keeps this:
  `Query` is an object shared with whoever created the transport.
- **Write pipeline and drain flag** (`write`, `writePacket`, `encodePacket`, `drain`).
  A batch clears `writable`. Each packet is encoded with the capability flag,
  in order. String frames go to the handle's `write` and all other frames to
  its `writev`. Each completion sets `writable` and emits `drain`.
- **Capability latch and connection bridge** (constructor, the connect callback
  of `doOpen`, `handleData`, `doClose`). `forceBase64` turns `supportsBinary` off
  for the life of the instance. A failed connect fires the error hook and
  stores no handle. A successful connect stores the handle, attaches its
  listeners and fires the open hook. `doClose` ends the handle only if one
  was stored.

Layout:

- `types.dfy` (`TcpTypes`): options, query values, frames, handle calls, events.
- `conn_opts.dfy` (`ConnOptsSpec`): the descriptor as a pure function and its properties.
- `pipeline.dfy` (`Pipeline`): the handle calls a batch produces and the drain events.
- `tcp.dfy` (`TcpTransport`): the classes `Query`, `Handle` and `Tcp`.
  - `Handle` is the connection handle, observed as a log of the calls made on it.
  - `Tcp` keeps `writable`, `conn` (a nullable `Handle`) and `events`. `events` is
    the log of upward hooks: open, error, close, data and drain.
- `scenarios.dfy` (`Scenarios`): a batch whose frames all complete, and concrete traces.

External collaborators are parameters:
- The packet codec (`engine.io-parser`'s `encodePacket`) is a function
  `Codec = (Packet, bool) -> Data` given to the constructor.
- The query serialiser (`parseqs.encode`) is a function `QueryEncoder` given to
  the constructor. The only fact used about it is that it gives `""` for the
  empty map, and only where a lemma says so.
- The `yeast()` nonce is the `nonce` argument of `ConnOpts` and `DoOpen`.
- The socket primitive's connect answer is the `ConnectResult` passed to
  `OnConnect`. Write completions are explicit calls of `Drain`, and socket
  events are explicit calls of `HandleData`, `OnSocketError` and
  `OnSocketEnd`. Everything runs as one sequential trace.

Behaviour of the code that callers may not expect, kept as is:
- `doClose` does not forget the handle. Two `DoClose` calls on a connected
  instance therefore log `End` twice. Any guard against that would be the
  base transport's, and the base transport is not part of this model.
- `drain` does not check whether the transport was closed. `Drain` after
  `DoClose` still sets `writable` and emits `drain`.
- `write([])` clears `writable` and submits nothing, so no completion ever sets
  it again (`WriteAndCompleteBatch` states this).

## Model

| member | source | states |
|---|---|---|
| `TcpTransport.Tcp.constructor` | lib/transports/tcp.js:27-38 | `supportsBinary` is false exactly when `forceBase64` is set (true otherwise, the prototype default of line 58); the options, query object, codec and serialiser are kept; no handle, no events, not writable |
| `Scenarios.CapabilityLatched` | lib/transports/tcp.js:28-31 | for every instance, whatever was called on it, `supportsBinary` is false exactly when its options set `forceBase64`: the field is a constant initialised from the options, so nothing re-enables binary |
| `ConnOptsSpec.QueryWithMarkers` | lib/transports/tcp.js:92-103 | the keys afterwards are the old keys plus `timestampParam` (when timestamp requests are on) plus `b64` (when binary is unsupported) and no others; `b64` maps to the number 1; the timestamp key maps to the nonce unless `b64` overwrote it; every other key keeps its value |
| `ConnOptsSpec.RepeatedMarkersReplaceNonce` | lib/transports/tcp.js:92-103 | building the descriptor twice on the same shared query is the same as building it once with the second nonce: the markers do not pile up |
| `ConnOptsSpec.RequestPath` | lib/transports/tcp.js:105-116 | the path starts with the base path; it equals it when the serialised query is empty; otherwise a `?` follows, then the serialised query; a `?` is never followed by an empty query |
| `ConnOptsSpec.Descriptor` | lib/transports/tcp.js:90-140 | protocol is `https:` exactly when `secure` and `http:` exactly when not; the path is the request path of the serialised marked query; headers (the `Headers` helper, lines 131-137) are exactly the extra headers, or empty when there are none; hostname, port, binaryType and every TLS field equal the instance's unchanged |
| `ConnOptsSpec.PlainDescriptorHasBarePath` | lib/transports/tcp.js:92-116 | with no query, no timestamp and binary supported, the path is the base path when the serialiser maps the empty map to `""` |
| `TcpTransport.CopyOwnHeaders` | lib/transports/tcp.js:118-137 | the loop copies every header key with its value: the result equals `extraHeaders`, and is empty when there are none |
| `TcpTransport.Tcp.ConnOpts` | lib/transports/tcp.js:90-140 | when the instance has a query object, that object now holds the marked query; the descriptor returned is `Descriptor` of the options, the capability, the query before the call and the nonce |
| `TcpTransport.Tcp.DoOpen` | lib/transports/tcp.js:66-74 | the connect request carries exactly the descriptor of `ConnOpts`, with the same in-place update of the query object |
| `TcpTransport.Tcp.OnConnect` | lib/transports/tcp.js:74-87 | on an error, the error hook fires with that error and the stored handle is unchanged (no open); on success, the handle is stored, its `data`, `error` and `end` listeners are registered in that order, and the open hook fires exactly once |
| `TcpTransport.Tcp.HandleData` | lib/transports/tcp.js:174-176 | inbound data reaches the data hook unmodified and nothing else changes |
| `TcpTransport.Tcp.OnSocketError` | lib/transports/tcp.js:83 | an error event on the handle fires the error hook with that error |
| `TcpTransport.Tcp.OnSocketEnd` | lib/transports/tcp.js:84 | an end event on the handle fires the close hook |
| `TcpTransport.Tcp.EncodePacket` | lib/transports/tcp.js:158-167 | a string frame adds exactly one `write` of that text to the handle log, any other frame exactly one `writev` of those bytes; this is the dispatch `Pipeline.Submit` names |
| `TcpTransport.Tcp.WritePacket` | lib/transports/tcp.js:154-156 | the packet is encoded with the current `supportsBinary` and its frame submitted |
| `TcpTransport.Tcp.Write` | lib/transports/tcp.js:149-152 | `writable` becomes false and the handle log grows by exactly the submissions of the batch, in input order |
| `Pipeline.Submissions` | lib/transports/tcp.js:149-166 | a batch gives exactly one call per packet, each a `write` or a `writev` |
| `Pipeline.SubmissionsAt` | lib/transports/tcp.js:149-166 | ordering law: the k-th call is the submission of the k-th packet's frame |
| `Pipeline.SubmissionsAppend` | lib/transports/tcp.js:149-152 | two batches written in turn submit the concatenation of their calls |
| `Pipeline.SubmissionDispatch` | lib/transports/tcp.js:162-166 | the k-th call is a `write` exactly when the k-th frame is a string, with the same text; otherwise a `writev` with the same bytes |
| `TcpTransport.Tcp.Drain` | lib/transports/tcp.js:169-172 | a completion makes the transport writable and appends one `drain` event |
| `Scenarios.WriteAndCompleteBatch` | lib/transports/tcp.js:149-172 | a batch of N packets followed by its N completions yields exactly N drain events (`Drains(N)`, N copies of `drain`); writable at the end exactly when N > 0; the handle log grows by the batch's submissions, encoded with binary off when `forceBase64` was set |
| `TcpTransport.Tcp.DoClose` | lib/transports/tcp.js:184-188 | when a handle was stored, exactly one `end` is appended to its log; without one, nothing is modified |

## Left out

- The `http-tcp-packets` client, the real `connect` call and the socket's `write`/`writev`/`end`/`on`. These are network I/O in a library that is not part of this model. The handle is a log of calls.
- The wire format of `engine.io-parser`'s `encodePacket`. It is a foreign codec and stays an arbitrary function.
- The byte format of `parseqs.encode` and the value of `yeast()`. Neither is part of this model. Because the serialiser is arbitrary, nothing rules out a serialised query that itself starts with `?`.
- The order in which a JavaScript object keeps its query keys and header keys. Maps are unordered here, so key order in the serialised query is not captured.
- The `hasOwnProperty` filter on `extraHeaders`. A Dafny map has no inherited keys, so every key counts as an own key.
- The base transport: `onOpen`/`onError`/`onClose`/`onData`, `emit` and `readyState`. It is not part of this model. Its hooks appear only as entries in `events`. `writable` starts false because JavaScript's `undefined` is falsy, and the base `onOpen` setting it is not modelled.
- `debug` logging and the `agent` reference: the model's `ConnOptions` omits the `agent` field that line 117 sets, because the reference is opaque. Also left out: the `draincb`/`encodePacketcb` bindings (lines 36-37). None of them has logic to verify.
- Asynchronous delivery. Completions and socket events are explicit method calls in one sequential trace.
- `TcpTransport.Tcp.OnConnect`: states only the state after the callback. That `conn` is stored before the open hook fires (lines 80-86) is the statement order of the method body, not part of its contract.
- `TcpTransport.Tcp.Write`: requires a stored handle. Before a successful connect, the source would throw a TypeError on `this.conn.write`, and that exception is not modelled.
- `TcpTransport.Tcp.EncodePacket`: requires a stored handle, for the same reason as `Write`.
- `TcpTransport.Tcp.WritePacket`: requires a stored handle, for the same reason as `Write`.
- Port, hostname and path are modelled as strings copied verbatim. JavaScript number-versus-string ports are not distinguished.
