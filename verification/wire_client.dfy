/** The benchmark client's own writer and reader of the binary format, and how they meet the gateway's. */
module WireClient {
  import opened Common
  import opened Bytes
  import opened WireFormat
  import opened BinaryCodec

  method PutNewOrder(p: Buffer, order: NewOrder, ghost utf8: Utf8)
    requires NewFits(order)
    modifies p
    ensures p.bytes == old(p.bytes) + CommandBytes(utf8, New(order), [])
  {
    hide U8, U16, U32, U64, I64;
    p.PutU16(1);
    p.PutU64(order.clientSeq);
    p.PutU64(order.orderId);
    p.PutU32(order.accountId);
    p.PutU32(order.symbolId);
    p.PutU8(SideByte(order.side));
    p.PutI64(order.price);
    p.PutI64(order.qty);
    p.PutU8(TifByte(order.tif));
    p.PutU8(BoolByte(order.postOnly));
    assert p.bytes + [] == p.bytes;
  }

  /** Only new orders can be written. */
  method WriteBinaryCommand(cmd: Command, ghost utf8: Utf8) returns (r: Option<seq<Byte>>)
    requires cmd.New? ==> NewFits(cmd.no)
    ensures r == if cmd.New? then Some(CommandBytes(utf8, cmd, [])) else None
  {
    if !cmd.New? {
      return None;
    }
    var p := new Buffer();
    PutNewOrder(p, cmd.no, utf8);
    ghost var wire := CommandBytes(utf8, cmd, []);
    assert [] + wire == wire;
    return Some(p.bytes);
  }

  /** Whatever new order a client writes, the gateway decodes. */
  lemma GatewayDecodesClient(utf8: Utf8, no: NewOrder)
    requires Faithful(utf8) && NewFits(no)
    ensures Decoded(utf8, CommandBytes(utf8, New(no), [])) == Got(New(no), [])
  {
    DecodedInverts(utf8, New(no), []);
  }

  /** The client slices the frame without looking at its length, so a short frame is a panic. */
  datatype ClientRead = Read(ev: Event) | Error | Panic

  /** The number in the `w` bytes at `i`. */
  function At(b: seq<Byte>, i: nat, w: nat): nat
    requires i + w <= |b|
  {
    FromLE(b[i..i + w])
  }

  /** What the client makes of every top-of-book event. */
  const NO_TOP := BookTop(0, 0, None, None, None, None)

  function ReadBinaryEvent(frame: seq<Byte>): ClientRead {
    if |frame| < 2 then Error
    else
      var mt, b := At(frame, 0, 2), frame[2..];
      if mt == 101 then
        if |b| < 24 then Panic else Read(Ack(At(b, 0, 8), At(b, 8, 8), At(b, 16, 8)))
      else if mt == 103 then
        if |b| < 52 then Panic
        else Read(Filled(Fill(At(b, 0, 8), At(b, 8, 8), At(b, 16, 4), At(b, 20, 8), At(b, 28, 8),
                              FromBits(At(b, 36, 8)), FromBits(At(b, 44, 8)))))
      else if mt == 104 then Read(NO_TOP)
      else Error
  }

  /** Slicing at an offset reads what the getter reads after skipping to it. */
  lemma AtIsNum(b: seq<Byte>, i: nat, w: nat)
    requires i <= |b|
    ensures Num(w, b[i..]).Got? <==> i + w <= |b|
    ensures i + w <= |b| ==> Num(w, b[i..]) == Got(At(b, i, w), b[i + w..])
  {
    if i + w <= |b| {
      assert b[i..][..w] == b[i..i + w] && b[i..][w..] == b[i + w..];
    }
  }

  /** On an acknowledgement the client's slices are the fields of the format. */
  lemma ClientReadsAck(frame: seq<Byte>, b: seq<Byte>)
    requires Num(2, frame) == Got(MT_ACK, b) && ReadAck(b).Got?
    ensures ReadBinaryEvent(frame) == Read(ReadAck(b).value)
  {
    AtIsNum(frame, 0, 2);
    assert frame[0..] == frame && b[0..] == b;
    AtIsNum(b, 0, 8);
    AtIsNum(b, 8, 8);
    AtIsNum(b, 16, 8);
  }

  lemma FillSlices(b: seq<Byte>)
    requires ReadFill(b).Got?
    ensures |b| >= 52
    ensures ReadFill(b).value
         == Filled(Fill(At(b, 0, 8), At(b, 8, 8), At(b, 16, 4), At(b, 20, 8), At(b, 28, 8),
                        FromBits(At(b, 36, 8)), FromBits(At(b, 44, 8))))
  {
    hide Num, At, FromBits;
    assert b[0..] == b;
    AtIsNum(b, 0, 8);
    AtIsNum(b, 8, 8);
    AtIsNum(b, 16, 4);
    AtIsNum(b, 20, 8);
    AtIsNum(b, 28, 8);
    AtIsNum(b, 36, 8);
    AtIsNum(b, 44, 8);
  }

  lemma ClientReadsFill(frame: seq<Byte>, b: seq<Byte>)
    requires Num(2, frame) == Got(MT_FILL, b) && ReadFill(b).Got?
    ensures ReadBinaryEvent(frame) == Read(ReadFill(b).value)
  {
    FillSlices(b);
    AtIsNum(frame, 0, 2);
    assert frame[0..] == frame;
  }

  lemma FrameType(utf8: Utf8, ev: Event)
    requires EventInRange(ev)
    ensures var frame := EventBytes(utf8, ev, []);
            && |frame| >= 2
            && At(frame, 0, 2) == EventType(ev)
            && Num(2, frame) == Got(EventType(ev), EventBody(utf8, ev, []))
  {
    hide Num, U16, EventBody;
    GettersInvert();
    var frame := EventBytes(utf8, ev, []);
    AtIsNum(frame, 0, 2);
    assert frame[0..] == frame;
  }

  /** The client reads back exactly the acknowledgements and the fills; of the rest only the
      top-of-book event that happens to be blank comes back as it was. */
  lemma ClientReadsIff(utf8: Utf8, ev: Event)
    requires Faithful(utf8) && EventFits(utf8, ev)
    ensures ReadBinaryEvent(EventBytes(utf8, ev, [])) == Read(ev) <==> ev.Ack? || ev.Filled? || ev == NO_TOP
  {
    hide Num, At, EventBytes, EventBody, ReadAck, ReadFill, Faithful;
    var frame := EventBytes(utf8, ev, []);
    FrameType(utf8, ev);
    BodyReadsBack(utf8, ev, []);
    if ev.Ack? {
      ClientReadsAck(frame, EventBody(utf8, ev, []));
    } else if ev.Filled? {
      ClientReadsFill(frame, EventBody(utf8, ev, []));
    }
  }
}
