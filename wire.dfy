/** Values that cross the server's boundary: the chat envelope, the encoded bytes of an
    outbound item, and the websocket frames the write loop puts on a transport. */
module Wire {

  newtype byte = x: int | 0 <= x < 256

  /** The `[]byte` that json.Marshal produces and the outbound channel carries. */
  type Bytes = seq<byte>

  datatype Option<T> = None | Some(value: T)

  /** The JSON envelope. An omitted `channel_id` decodes to the empty string. */
  datatype Message = Message(channelID: string, senderID: string, receiverID: string, text: string)

  /** The websocket frames the server writes: a binary data frame, a close frame with an
      empty body, and a keepalive ping. */
  datatype Frame = Binary(data: Bytes) | Close | Ping

  /** The payloads of the binary frames of `frames`, in the order they were written. */
  function Payloads(frames: seq<Frame>): seq<Bytes>
  {
    if frames == [] then []
    else (if frames[0].Binary? then [frames[0].data] else []) + Payloads(frames[1..])
  }

  /** Writing more frames extends the payload stream by the payloads of those frames. */
  lemma {:induction false} PayloadsAppend(a: seq<Frame>, b: seq<Frame>)
    ensures Payloads(a + b) == Payloads(a) + Payloads(b)
  {
    if a == [] {
      assert a + b == b;
    } else {
      assert (a + b)[0] == a[0];
      assert (a + b)[1..] == a[1..] + b;
      PayloadsAppend(a[1..], b);
    }
  }

  /** Control frames carry no payload; a binary frame carries exactly its data. */
  lemma PayloadsOfOne(f: Frame)
    ensures Payloads([f]) == if f.Binary? then [f.data] else []
  {
  }
}
