/** Pure specification of the write pipeline: which handle calls a batch of
    packets produces, and the drain events its completions produce. */
module Pipeline {
  import opened TcpTypes

  /** The handle call for one encoded frame: a string frame is a `write`, any
      other frame a `writev`. */
  function Submit(frame: Data): (call: HandleCall)
  {
    match frame
    case StringData(s) => Write(s)
    case BinaryData(b) => Writev(b)
  }

  /** The handle calls for a batch, one per packet in input order. */
  function Submissions(packets: seq<Packet>, supportsBinary: bool, codec: Codec): (r: seq<HandleCall>)
    ensures |r| == |packets|
    ensures forall i :: 0 <= i < |r| ==> r[i].Write? || r[i].Writev?
  {
    if packets == [] then []
    else [Submit(codec(packets[0], supportsBinary))] + Submissions(packets[1..], supportsBinary, codec)
  }

  /** Ordering law: the k-th call is the submission of the k-th packet's frame. */
  lemma {:induction false} SubmissionsAt(packets: seq<Packet>, supportsBinary: bool, codec: Codec, k: nat)
    requires k < |packets|
    ensures Submissions(packets, supportsBinary, codec)[k] == Submit(codec(packets[k], supportsBinary))
  {
    if k > 0 {
      SubmissionsAt(packets[1..], supportsBinary, codec, k - 1);
    }
  }

  /** Writing two batches one after the other submits the concatenation. */
  lemma {:induction false} SubmissionsAppend(first: seq<Packet>, second: seq<Packet>, supportsBinary: bool, codec: Codec)
    ensures Submissions(first + second, supportsBinary, codec)
            == Submissions(first, supportsBinary, codec) + Submissions(second, supportsBinary, codec)
  {
    if first != [] {
      assert (first + second)[1..] == first[1..] + second;
      SubmissionsAppend(first[1..], second, supportsBinary, codec);
    } else {
      assert first + second == second;
    }
  }

  /** The string frames of a batch go to `write` with the same text and the
      others go to `writev` with the same bytes. */
  lemma SubmissionDispatch(packets: seq<Packet>, supportsBinary: bool, codec: Codec, k: nat)
    requires k < |packets|
    ensures var frame := codec(packets[k], supportsBinary);
            var call := Submissions(packets, supportsBinary, codec)[k];
            (frame.StringData? <==> call.Write?) &&
            (frame.StringData? ==> call.text == frame.s) &&
            (frame.BinaryData? ==> call == Writev(frame.bytes))
  {
    SubmissionsAt(packets, supportsBinary, codec, k);
  }

  /** `n` drain events. */
  function Drains(n: nat): (r: seq<Event>)
  {
    seq(n, _ => Drained)
  }
}
