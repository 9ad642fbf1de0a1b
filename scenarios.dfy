/** Clients of the transport: a batch written and completed frame by frame, and
    the concrete open, write and close traces the transport is expected to show. */
module Scenarios {
  import opened TcpTypes
  import opened ConnOptsSpec
  import opened Pipeline
  import opened TcpTransport

  /** A batch of N packets whose N frames all complete: exactly N drain events,
      and writable again unless the batch was empty (no frame, so no completion). */
  method WriteAndCompleteBatch(t: Tcp, packets: seq<Packet>)
    requires t.conn != null
    modifies t, t.conn
    ensures t.conn == old(t.conn)
    ensures t.writable <==> |packets| > 0
    ensures t.conn.log == old(t.conn.log) + Submissions(packets, t.supportsBinary, t.codec)
    ensures t.opts.forceBase64 ==> t.conn.log == old(t.conn.log) + Submissions(packets, false, t.codec)
    ensures t.events == old(t.events) + Drains(|packets|)
  {
    t.Write(packets);
    var completed := 0;
    while completed < |packets|
      invariant 0 <= completed <= |packets|
      invariant t.conn == old(t.conn)
      invariant t.conn.log == old(t.conn.log) + Submissions(packets, t.supportsBinary, t.codec)
      invariant t.events == old(t.events) + Drains(completed)
      invariant t.writable <==> completed > 0
    {
      t.Drain();
      assert Drains(completed + 1) == Drains(completed) + [Drained];
      completed := completed + 1;
    }
  }

  /** The latch holds of every instance, whatever was called on it: a client
      given any `Tcp` knows binary is off when `forceBase64` was set. */
  lemma CapabilityLatched(t: Tcp)
    ensures t.opts.forceBase64 ==> !t.supportsBinary
    ensures !t.opts.forceBase64 ==> t.supportsBinary
  {
  }

  const NoTls := TlsMaterial(None, None, None, None, None, None, None)

  function Config(secure: bool, timestampRequests: bool, forceBase64: bool): (o: Options)
  {
    Options(forceBase64, None, "h", "1234", secure, "/engine.io/", timestampRequests, "t", None, NoTls)
  }

  /** A serialiser that only promises the empty map gives the empty string. */
  function SomeEncoder(q: QueryMap): (encoded: string)
  {
    if q == map[] then "" else "k=v"
  }

  function TextCodec(p: Packet, supportsBinary: bool): (frame: Data)
  {
    p.data
  }

  /** Plain configuration: `http:`, the base path and no query. */
  method PlainConfiguration() {
    var t := new Tcp(Config(false, false, false), null, TextCodec, SomeEncoder);
    var d := t.ConnOpts("n0");
    PlainDescriptorHasBarePath(t.opts, "n0", SomeEncoder);
    assert d.protocol == "http:" && d.hostname == "h" && d.port == "1234";
    assert d.path == "/engine.io/";
    assert d.headers == map[];
  }

  /** Forced base64: the shared query object gains `b64 = 1`, and the path
      carries a query after `?`. */
  method ForcedBase64() {
    var q := new Query(map["EIO" := Str("3")]);
    var t := new Tcp(Config(true, true, true), q, TextCodec, SomeEncoder);
    assert !t.supportsBinary;
    var d := t.ConnOpts("n1");
    assert q.entries == map["EIO" := Str("3"), "t" := Str("n1"), "b64" := Num(1)];
    assert d.protocol == "https:";
    assert d.path == "/engine.io/?k=v";
  }

  /** A failed connect fires exactly one error hook, stores no handle and never
      fires the open hook; closing afterwards ends nothing. */
  method ConnectError() {
    var t := new Tcp(Config(false, false, false), null, TextCodec, SomeEncoder);
    var _ := t.DoOpen("n2");
    t.OnConnect(ConnectFailed(ErrorValue("ECONNREFUSED")));
    assert t.conn == null && t.events == [Errored(ErrorValue("ECONNREFUSED"))];
    t.DoClose();
    assert t.events == [Errored(ErrorValue("ECONNREFUSED"))];
  }

  /** Two text packets: two `write` calls in order A then B; writable after both
      completions, with two drain events. */
  method TwoTextPackets() {
    var t := new Tcp(Config(false, false, false), null, TextCodec, SomeEncoder);
    var h := new Handle();
    t.OnConnect(Connected(h));
    var a := Packet("message", StringData("A"));
    var b := Packet("message", StringData("B"));
    t.Write([a, b]);
    assert !t.writable;
    SubmissionsAt([a, b], true, TextCodec, 0);
    SubmissionsAt([a, b], true, TextCodec, 1);
    assert h.log == [Listen("data"), Listen("error"), Listen("end"), HandleCall.Write("A"), HandleCall.Write("B")];
    t.Drain();
    t.Drain();
    assert t.writable && t.events == [Opened, Drained, Drained];
    t.DoClose();
    assert h.log[5] == HandleCall.End;
  }

  /** Closing an instance that never connected makes no handle call and fires
      nothing. */
  method CloseBeforeOpen() {
    var t := new Tcp(Config(false, false, false), null, TextCodec, SomeEncoder);
    t.DoClose();
    assert t.conn == null && t.events == [];
  }
}
