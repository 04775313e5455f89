/**
  The receive loop of an RPC (lib/src/rpc_connection.cc): a reply is ended by the byte 0x03, and the
  loop looks for it at the end of each chunk the socket hands over, and nowhere else.
*/
module Framing {
  type byte = bv8

  const EOM: byte := 0x03
  const BUFFER_SIZE := 32 * 1024

  /** What `Socket::receive` reports: an empty chunk means that the peer has closed the connection. */
  datatype Receipt = Chunk(data: seq<byte>) | Broken(error: string)

  datatype Result = Ok | Disconnected | Error(message: string)

  predicate Fits(receipt: Receipt) {
    receipt.Chunk? ==> |receipt.data| <= BUFFER_SIZE
  }

  class Socket {
    var incoming: seq<Receipt>

    predicate Valid()
      reads this
    {
      forall r <- incoming :: Fits(r)
    }

    /** When nothing is left to come the peer has closed the connection. */
    method Receive(buffer: array<byte>) returns (error: seq<string>, bytesRead: nat)
      requires Valid() && buffer.Length == BUFFER_SIZE
      modifies this, buffer
      ensures Valid() && bytesRead <= BUFFER_SIZE
      ensures incoming == old(Rest(incoming))
      ensures old(Next(incoming)) == if error == [] then Chunk(buffer[..bytesRead]) else Broken(error[0])
    {
      error, bytesRead := [], 0;
      var next := Next(incoming);
      incoming := Rest(incoming);
      match next
      case Broken(message) => error := [message];
      case Chunk(data) =>
        bytesRead := |data|;
        forall i | 0 <= i < |data| {
          buffer[i] := data[i];
        }
        assert buffer[..bytesRead] == data;
    }
  }

  function Next(incoming: seq<Receipt>): (r: Receipt)
    ensures (forall r <- incoming :: Fits(r)) ==> Fits(r)
  {
    if incoming == [] then Chunk([]) else incoming[0]
  }

  function Rest(incoming: seq<Receipt>): seq<Receipt> {
    if incoming == [] then [] else incoming[1..]
  }

  // ----- what the loop does -----

  predicate EndsMessage(data: seq<byte>) {
    data != [] && data[|data| - 1] == EOM
  }

  datatype Reply = Reply(result: Result, response: seq<byte>, unread: seq<Receipt>)

  /** The outcome of the loop that has already written `written`. */
  function Received(incoming: seq<Receipt>, written: seq<byte>): Reply {
    if incoming == [] then Reply(Disconnected, written, [])
    else
      match incoming[0]
      case Broken(error) => Reply(Error(error), written, incoming[1..])
      case Chunk(data) =>
        if data == [] then Reply(Disconnected, written, incoming[1..])
        else if EndsMessage(data) then Reply(Ok, written + data[..|data| - 1], incoming[1..])
        else Received(incoming[1..], written + data)
  }

  method ReceiveReply(socket: Socket) returns (result: Result, response: seq<byte>)
    requires socket.Valid()
    modifies socket
    ensures socket.Valid()
    ensures Reply(result, response, socket.incoming) == Received(old(socket.incoming), [])
  {
    var buffer := new byte[BUFFER_SIZE];
    response := [];
    var eom := false;
    while !eom
      invariant socket.Valid() && fresh(buffer)
      invariant Received(old(socket.incoming), [])
             == if eom then Reply(Ok, response, socket.incoming) else Received(socket.incoming, response)
      decreases !eom, |socket.incoming|
    {
      ghost var before := socket.incoming;
      var error, bytesRead := socket.Receive(buffer);
      if error != [] {
        return Error(error[0]), response;
      }
      if bytesRead == 0 {
        return Disconnected, response;
      }
      assert before != [] && before[0] == Chunk(buffer[..bytesRead]);
      var toWrite := bytesRead;
      eom := buffer[toWrite - 1] == EOM;
      if eom {
        toWrite := toWrite - 1;
        assert buffer[..bytesRead][..toWrite] == buffer[..toWrite];
      }
      response := response + buffer[..toWrite];
    }
    result := Ok;
  }

  // ----- messages cut into chunks -----

  function Joined(chunks: seq<seq<byte>>): seq<byte> {
    if chunks == [] then [] else chunks[0] + Joined(chunks[1..])
  }

  function Chunks(chunks: seq<seq<byte>>): seq<Receipt> {
    if chunks == [] then [] else [Chunk(chunks[0])] + Chunks(chunks[1..])
  }

  /** A way in which the bytes can arrive. */
  predicate Splits(chunks: seq<seq<byte>>, bytes: seq<byte>) {
    Joined(chunks) == bytes && forall c <- chunks :: 0 < |c| <= BUFFER_SIZE
  }

  predicate EndsEarly(chunks: seq<seq<byte>>) {
    exists k :: 0 <= k < |chunks| - 1 && EndsMessage(chunks[k])
  }

  lemma {:induction false} JoinedEnd(chunks: seq<seq<byte>>, message: seq<byte>)
    requires chunks != [] && Joined(chunks) == message + [EOM]
    requires forall c <- chunks :: c != []
    ensures EndsMessage(chunks[|chunks| - 1])
  {
    if |chunks| == 1 {
      assert Joined(chunks[1..]) == [];
      assert chunks[0] == message + [EOM];
    } else {
      assert chunks[1..] != [] && forall c <- chunks[1..] :: c in chunks;
      JoinedNonempty(chunks[1..]);
      var rest := Joined(chunks[1..]);
      assert rest == (message + [EOM])[|chunks[0]|..] == message[|chunks[0]|..] + [EOM];
      JoinedEnd(chunks[1..], message[|chunks[0]|..]);
    }
  }

  lemma JoinedNonempty(chunks: seq<seq<byte>>)
    requires chunks != [] && forall c <- chunks :: c != []
    ensures Joined(chunks) != []
  {
    assert chunks[0] in chunks && chunks[0] != [];
  }

  lemma GoesOn(data: seq<byte>, rest: seq<Receipt>, written: seq<byte>)
    requires data != [] && !EndsMessage(data)
    ensures Received([Chunk(data)] + rest, written) == Received(rest, written + data)
  {
    assert ([Chunk(data)] + rest)[1..] == rest;
  }

  lemma FirstChunk(chunks: seq<seq<byte>>, later: seq<Receipt>, written: seq<byte>)
    requires chunks != []
    ensures Chunks(chunks) + later == [Chunk(chunks[0])] + (Chunks(chunks[1..]) + later)
    ensures written + Joined(chunks) == written + chunks[0] + Joined(chunks[1..])
  {
  }

  /** While no chunk ends in the terminator, everything is written and the loop goes on. */
  lemma {:induction false} Unterminated(chunks: seq<seq<byte>>, later: seq<Receipt>, written: seq<byte>)
    requires forall k :: 0 <= k < |chunks| ==> chunks[k] != [] && !EndsMessage(chunks[k])
    ensures Received(Chunks(chunks) + later, written) == Received(later, written + Joined(chunks))
  {
    if chunks == [] {
      assert Chunks(chunks) + later == later && written + Joined(chunks) == written;
    } else {
      FirstChunk(chunks, later, written);
      hide Received, EndsMessage, Chunks, Joined;
      GoesOn(chunks[0], Chunks(chunks[1..]) + later, written);
      Unterminated(chunks[1..], later, written + chunks[0]);
    }
  }

  lemma {:induction false} JoinedConcat(a: seq<seq<byte>>, b: seq<seq<byte>>)
    ensures Joined(a + b) == Joined(a) + Joined(b)
  {
    if a == [] {
      assert a + b == b;
    } else {
      assert (a + b)[1..] == a[1..] + b;
      JoinedConcat(a[1..], b);
      assert Joined(a + b) == a[0] + (Joined(a[1..]) + Joined(b));
    }
  }

  lemma {:induction false} ChunksConcat(a: seq<seq<byte>>, b: seq<seq<byte>>)
    ensures Chunks(a + b) == Chunks(a) + Chunks(b)
  {
    if a == [] {
      assert a + b == b;
    } else {
      assert (a + b)[1..] == a[1..] + b;
      ChunksConcat(a[1..], b);
    }
  }

  lemma {:induction false} ChunksLength(chunks: seq<seq<byte>>)
    ensures |Chunks(chunks)| == |chunks|
  {
    if chunks != [] {
      ChunksLength(chunks[1..]);
    }
  }

  /** The loop stops at the first chunk that ends in the terminator, and has written all that came before it. */
  lemma StopsAtFirstEnd(chunks: seq<seq<byte>>, k: nat, later: seq<Receipt>)
    requires k < |chunks| && EndsMessage(chunks[k])
    requires forall j :: 0 <= j < k ==> chunks[j] != [] && !EndsMessage(chunks[j])
    ensures Received(Chunks(chunks) + later, [])
         == Reply(Ok, Joined(chunks[..k]) + chunks[k][..|chunks[k]| - 1], Chunks(chunks[k + 1..]) + later)
  {
    var tail := chunks[k..];
    assert chunks == chunks[..k] + tail && tail[1..] == chunks[k + 1..];
    ChunksConcat(chunks[..k], tail);
    assert Chunks(chunks) + later == Chunks(chunks[..k]) + (Chunks(tail) + later);
    Unterminated(chunks[..k], Chunks(tail) + later, []);
    assert [] + Joined(chunks[..k]) == Joined(chunks[..k]);
    assert (Chunks(tail) + later)[1..] == Chunks(chunks[k + 1..]) + later;
  }

  lemma TerminatorOff(front: seq<byte>, last: seq<byte>, message: seq<byte>)
    requires last != [] && front + last == message + [EOM]
    ensures front + last[..|last| - 1] == message
  {
    assert front + last[..|last| - 1] == (front + last)[..|front| + |last| - 1];
  }

  lemma DeliveredAtLast(message: seq<byte>, chunks: seq<seq<byte>>, later: seq<Receipt>)
    requires chunks != [] && Joined(chunks) == message + [EOM] && EndsMessage(chunks[|chunks| - 1])
    requires forall j :: 0 <= j < |chunks| - 1 ==> chunks[j] != [] && !EndsMessage(chunks[j])
    ensures Received(Chunks(chunks) + later, []) == Reply(Ok, message, later)
  {
    hide Received;
    var k := |chunks| - 1;
    var front, last := chunks[..k], chunks[k];
    StopsAtFirstEnd(chunks, k, later);
    JoinedConcat(front, [last]);
    assert chunks == front + [last] && Joined([last]) == last;
    TerminatorOff(Joined(front), last, message);
    assert chunks[k + 1..] == [] && Chunks([]) + later == later;
  }

  /**
    For any message and any way in which it and its terminator arrive, whatever comes afterwards: the
    reply is exactly the message, taken at its last chunk, if and only if no earlier chunk ends in 0x03.
  */
  lemma DeliveredIff(message: seq<byte>, chunks: seq<seq<byte>>, later: seq<Receipt>)
    requires Splits(chunks, message + [0x03])
    ensures Received(Chunks(chunks) + later, []) == Reply(Ok, message, later) <==> !EndsEarly(chunks)
  {
    hide Received;
    assert chunks != [] && forall k :: 0 <= k < |chunks| ==> chunks[k] in chunks;
    if EndsEarly(chunks) {
      var k := FirstEnd(chunks);
      StopsAtFirstEnd(chunks, k, later);
      ChunksLength(chunks[k + 1..]);
      assert |Chunks(chunks[k + 1..]) + later| > |later|;
    } else {
      JoinedEnd(chunks, message);
      DeliveredAtLast(message, chunks, later);
    }
  }

  lemma {:induction false} FirstEnd(chunks: seq<seq<byte>>) returns (k: nat)
    requires EndsEarly(chunks) && forall c <- chunks :: c != []
    ensures k < |chunks| - 1 && EndsMessage(chunks[k])
    ensures forall j :: 0 <= j < k ==> chunks[j] != [] && !EndsMessage(chunks[j])
  {
    k := 0;
    while !EndsMessage(chunks[k])
      invariant k < |chunks| - 1
      invariant forall j :: 0 <= j < k ==> chunks[j] in chunks && !EndsMessage(chunks[j])
      invariant exists i :: k <= i < |chunks| - 1 && EndsMessage(chunks[i])
      decreases |chunks| - k
    {
      k := k + 1;
    }
  }

  lemma {:induction false} MemberOfJoined(chunks: seq<seq<byte>>, k: nat, b: byte)
    requires k < |chunks| && b in chunks[k]
    ensures b in Joined(chunks)
  {
    if k > 0 {
      MemberOfJoined(chunks[1..], k - 1, b);
    }
  }

  lemma EarlyEndIsInMessage(message: seq<byte>, chunks: seq<seq<byte>>)
    requires Splits(chunks, message + [EOM]) && EndsEarly(chunks)
    ensures EOM in message
  {
    var k := FirstEnd(chunks);
    var front, back := chunks[..k + 1], chunks[k + 1..];
    assert chunks == front + back && front[k] == chunks[k];
    JoinedConcat(front, back);
    MemberOfJoined(front, k, EOM);
    JoinedNonempty(back);
    var p :| 0 <= p < |Joined(front)| && Joined(front)[p] == EOM;
    assert (message + [EOM])[p] == EOM && p < |message|;
  }

  /** A message that does not contain the terminator is delivered whatever way it arrives. */
  lemma EverySplitDelivers(message: seq<byte>, chunks: seq<seq<byte>>, later: seq<Receipt>)
    requires EOM !in message && Splits(chunks, message + [EOM])
    ensures Received(Chunks(chunks) + later, []) == Reply(Ok, message, later)
  {
    if EndsEarly(chunks) {
      EarlyEndIsInMessage(message, chunks);
    }
    DeliveredIff(message, chunks, later);
  }

  /** One byte at a time is a way to arrive. */
  function Single(bytes: seq<byte>): (chunks: seq<seq<byte>>)
    ensures Splits(chunks, bytes) && |chunks| == |bytes|
    ensures forall k :: 0 <= k < |bytes| ==> chunks[k] == [bytes[k]]
  {
    if bytes == [] then []
    else
      assert [bytes[0]] + bytes[1..] == bytes;
      [[bytes[0]]] + Single(bytes[1..])
  }

  /** Exactly the messages free of the terminator survive every way of arriving. */
  lemma DeliveredEveryWayIff(message: seq<byte>)
    ensures (forall chunks, later | Splits(chunks, message + [0x03]) ::
               Received(Chunks(chunks) + later, []) == Reply(Ok, message, later))
       <==> 0x03 !in message
  {
    if EOM in message {
      var k :| 0 <= k < |message| && message[k] == EOM;
      var chunks := Single(message + [EOM]);
      assert chunks[k] == [EOM] && EndsMessage(chunks[k]);
      assert EndsEarly(chunks);
      DeliveredIff(message, chunks, []);
    } else {
      forall chunks, later | Splits(chunks, message + [EOM])
        ensures Received(Chunks(chunks) + later, []) == Reply(Ok, message, later)
      {
        EverySplitDelivers(message, chunks, later);
      }
    }
  }

  /**
    A stream that ends before a chunk has ended in the terminator, wherever else that byte may be: all the
    bytes that came are written, and the loss is reported.
  */
  lemma CutShort(bytes: seq<byte>, chunks: seq<seq<byte>>, later: seq<Receipt>)
    requires Splits(chunks, bytes) && forall c <- chunks :: !EndsMessage(c)
    requires later == [] || later[0] == Chunk([]) || later[0].Broken?
    ensures Received(Chunks(chunks) + later, [])
         == Reply(if later != [] && later[0].Broken? then Error(later[0].error) else Disconnected, bytes, Rest(later))
  {
    forall k | 0 <= k < |chunks| ensures chunks[k] != [] && !EndsMessage(chunks[k]) {
      assert chunks[k] in chunks;
    }
    Unterminated(chunks, later, []);
    assert [] + Joined(chunks) == bytes;
  }
}
