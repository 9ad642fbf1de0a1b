/** Values exchanged by the tcp transport of the engine.io client: configuration,
    query entries, frames, calls recorded on the socket handle and upward events. */
module TcpTypes {

  datatype Option<+T> = None | Some(value: T)

  type Bytes = seq<bv8>

  /** A query-string value. `b64` is set to the number 1; user entries and the
      timestamp nonce are strings. */
  datatype QueryValue = Str(s: string) | Num(n: int)

  type QueryMap = map<string, QueryValue>

  /** A packet payload, an encoded frame, or a chunk of inbound data: either a
      JavaScript string or anything else (a binary buffer). */
  datatype Data = StringData(s: string) | BinaryData(bytes: Bytes)

  /** An engine.io packet as handed to `write`. */
  datatype Packet = Packet(ptype: string, data: Data)

  /** The TLS material that is copied into the descriptor verbatim. */
  datatype TlsMaterial = TlsMaterial(
    pfx: Option<string>,
    key: Option<string>,
    passphrase: Option<string>,
    cert: Option<string>,
    ca: Option<string>,
    ciphers: Option<string>,
    rejectUnauthorized: Option<bool>)

  /** The options object given to the constructor; the fields the base transport
      copies onto the instance, plus `forceBase64` and `binaryType`. The query
      object is passed separately so that it can be aliased. */
  datatype Options = Options(
    forceBase64: bool,
    binaryType: Option<string>,
    hostname: string,
    port: string,
    secure: bool,
    path: string,
    timestampRequests: bool,
    timestampParam: string,
    extraHeaders: Option<map<string, string>>,
    tls: TlsMaterial)

  /** The connection descriptor handed to the socket primitive's `connect`. */
  datatype ConnOptions = ConnOptions(
    protocol: string,
    hostname: string,
    port: string,
    path: string,
    headers: map<string, string>,
    binaryType: Option<string>,
    tls: TlsMaterial)

  /** One call made on the underlying connection handle. */
  datatype HandleCall = Write(text: string) | Writev(bytes: Bytes) | End | Listen(event: string)

  datatype ErrorValue = ErrorValue(message: string)

  /** One upward notification: the base transport's hooks and the `drain` event. */
  datatype Event = Opened | Errored(err: ErrorValue) | Closed | Received(data: Data) | Drained

  /** The packet codec: a packet and the binary-capability flag give a frame. */
  type Codec = (Packet, bool) -> Data

  /** Query-string serialisation of a query map. */
  type QueryEncoder = QueryMap -> string
}
