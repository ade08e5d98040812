/** The client's connection service (YewChat/src/services/websocket.rs): the
    inbound loop that republishes each frame's text to the event bus, and the
    outbound loop that writes queued strings to the socket.

    The socket, the async scheduling and the event bus are not modelled: the
    inbound loop is a function from the sequence of read results to the
    sequence of published strings, and the outbound loop a function from the
    queue, plus a transport verdict per write, to the frames written. UTF-8
    decoding (`std::str::from_utf8`) is a parameter. */
module WebSocketService {

  import opened Protocol

  newtype byte = b: int | 0 <= b < 256

  /** A websocket frame's payload. */
  datatype Frame = Text(text: string) | Bytes(payload: seq<byte>)

  /** One item of the read stream: a frame or a transport error. */
  datatype ReadItem = Received(frame: Frame) | ReadError

  /** What one read item publishes to the event bus: a text frame's payload
      unchanged; a binary frame's payload when it is valid UTF-8, nothing
      otherwise; nothing for an error. */
  function Published(item: ReadItem, utf8: seq<byte> -> Option<string>): (out: seq<string>)
    ensures |out| <= 1
    ensures item.Received? && item.frame.Text? ==> out == [item.frame.text]
    ensures item.Received? && item.frame.Bytes? ==>
      (|out| == 1 <==> utf8(item.frame.payload).Some?) &&
      (|out| == 1 ==> Some(out[0]) == utf8(item.frame.payload))
    ensures item.ReadError? ==> out == []
  {
    match item
    case Received(Text(data)) => [data]
    case Received(Bytes(b)) =>
      (match utf8(b)
       case Some(val) => [val]
       case None => [])
    case ReadError => []
  }

  /** Everything the inbound loop publishes while the stream lasts, in the
      order read. A read error does not end the loop; only the end of the
      stream does. */
  function Dispatch(items: seq<ReadItem>, utf8: seq<byte> -> Option<string>): (out: seq<string>)
    ensures |out| <= |items|
    decreases |items|
  {
    if items == [] then []
    else Published(items[0], utf8) + Dispatch(items[1..], utf8)
  }

  /** Order preservation: the publications of a stream are those of its
      prefix followed by those of its suffix. */
  lemma {:induction false} DispatchConcat(a: seq<ReadItem>, b: seq<ReadItem>, utf8: seq<byte> -> Option<string>)
    ensures Dispatch(a + b, utf8) == Dispatch(a, utf8) + Dispatch(b, utf8)
    decreases |a|
  {
    if a == [] {
      assert a + b == b;
    } else {
      assert (a + b)[0] == a[0];
      assert (a + b)[1..] == a[1..] + b;
      DispatchConcat(a[1..], b, utf8);
    }
  }

  /** An error item anywhere in the stream is invisible on the bus: the loop
      carries on with the next item. */
  lemma ErrorsAreSkipped(a: seq<ReadItem>, b: seq<ReadItem>, utf8: seq<byte> -> Option<string>)
    ensures Dispatch(a + [ReadError] + b, utf8) == Dispatch(a + b, utf8)
  {
    DispatchConcat(a + [ReadError], b, utf8);
    DispatchConcat(a, [ReadError], utf8);
    DispatchConcat(a, b, utf8);
    assert Dispatch([ReadError], utf8) == [];
  }

  /** The text payloads of a stream made only of text frames. */
  function Texts(items: seq<ReadItem>): seq<string>
    requires forall i :: 0 <= i < |items| ==> items[i].Received? && items[i].frame.Text?
  {
    seq(|items|, i requires 0 <= i < |items| => items[i].frame.text)
  }

  /** A stream of text frames is published one for one, in order, unchanged:
      no frame dropped, duplicated or reordered. */
  lemma {:induction false} TextFramesPublishedVerbatim(items: seq<ReadItem>, utf8: seq<byte> -> Option<string>)
    requires forall i :: 0 <= i < |items| ==> items[i].Received? && items[i].frame.Text?
    ensures Dispatch(items, utf8) == Texts(items)
    decreases |items|
  {
    if items != [] {
      TextFramesPublishedVerbatim(items[1..], utf8);
      assert Texts(items) == [items[0].frame.text] + Texts(items[1..]);
    }
  }

  /** The inbound loop as the source writes it: one pass over the stream,
      publishing as it goes. */
  method ReadLoop(items: seq<ReadItem>, utf8: seq<byte> -> Option<string>) returns (bus: seq<string>)
    ensures bus == Dispatch(items, utf8)
  {
    bus := [];
    var i := 0;
    while i < |items|
      invariant 0 <= i <= |items|
      invariant bus == Dispatch(items[..i], utf8)
    {
      match items[i] {
        case Received(Text(data)) =>
          bus := bus + [data];
        case Received(Bytes(b)) =>
          var decoded := utf8(b);
          if decoded.Some? {
            bus := bus + [decoded.value];
          }
        case ReadError =>
      }
      DispatchConcat(items[..i], [items[i]], utf8);
      assert items[..i + 1] == items[..i] + [items[i]];
      i := i + 1;
    }
    assert items[..i] == items;
  }

  /** The outbound loop: queued strings are written as text frames in queue
      order. `writeOk(n, s)` is the transport's verdict on the n-th write, of
      `s`. The first failed write panics on `unwrap`, so nothing after it is
      written, and the failed string itself is not. */
  method Drain(queue: seq<string>, writeOk: (nat, string) -> bool) returns (written: seq<Frame>, panicked: bool)
    ensures |written| <= |queue|
    ensures forall i :: 0 <= i < |written| ==> written[i] == Text(queue[i]) && writeOk(i, queue[i])
    ensures panicked <==> |written| < |queue|
    ensures panicked ==> !writeOk(|written|, queue[|written|])
  {
    written := [];
    panicked := false;
    var i := 0;
    while i < |queue| && !panicked
      invariant 0 <= i <= |queue|
      invariant |written| == i
      invariant forall j :: 0 <= j < i ==> written[j] == Text(queue[j]) && writeOk(j, queue[j])
      invariant panicked ==> i < |queue| && !writeOk(i, queue[i])
      decreases |queue| - i, !panicked
    {
      if writeOk(i, queue[i]) {
        written := written + [Text(queue[i])];
        i := i + 1;
      } else {
        panicked := true;
      }
    }
  }
}
