/** The gateway's binary codec: events appended to a growing buffer, commands read with a cursor. */
module BinaryCodec {
  import opened Common
  import opened Bytes
  import opened WireFormat

  /** Bytes still to be read; every read takes them from the front. */
  class Cursor {
    var rest: seq<Byte>

    constructor (input: seq<Byte>)
      ensures rest == input
    {
      rest := input;
    }

    /** The next `w` bytes as a number, or None, with nothing taken, when fewer remain. */
    method GetNum(w: nat) returns (r: Option<nat>)
      modifies this
      ensures Num(w, old(rest)) == if r.Some? then Got(r.value, rest) else Failed(Underrun)
      ensures r.None? ==> rest == old(rest)
    {
      if |rest| < w {
        return None;
      }
      r := Some(FromLE(rest[..w]));
      rest := rest[w..];
    }

    method GetU8() returns (r: Option<nat>)
      modifies this
      ensures Num(1, old(rest)) == if r.Some? then Got(r.value, rest) else Failed(Underrun)
      ensures r.None? ==> rest == old(rest)
    {
      r := GetNum(1);
    }

    method GetU32() returns (r: Option<nat>)
      modifies this
      ensures Num(4, old(rest)) == if r.Some? then Got(r.value, rest) else Failed(Underrun)
      ensures r.None? ==> rest == old(rest)
    {
      r := GetNum(4);
    }

    method GetU64() returns (r: Option<nat>)
      modifies this
      ensures Num(8, old(rest)) == if r.Some? then Got(r.value, rest) else Failed(Underrun)
      ensures r.None? ==> rest == old(rest)
    {
      r := GetNum(8);
    }

    method GetI64() returns (r: Option<int>)
      modifies this
      ensures SignedNum(old(rest)) == if r.Some? then Got(r.value, rest) else Failed(Underrun)
      ensures r.None? ==> rest == old(rest)
    {
      var n := GetNum(8);
      if n.None? {
        return None;
      }
      return Some(FromBits(n.value));
    }

    method GetString(utf8: Utf8) returns (r: Decoding<string>)
      modifies this
      ensures r == String(utf8, old(rest)) && (r.Got? ==> rest == r.rest)
    {
      var len := GetU32();
      if len.None? {
        return Failed(Underrun);
      }
      if |rest| < len.value {
        return Failed(Underrun);
      }
      var bytes := rest[..len.value];
      rest := rest[len.value..];
      match utf8.decode(bytes) {
        case None => return Failed(InvalidUtf8);
        case Some(s) => return Got(s, rest);
      }
    }
  }

  method DecodeNew(b: Cursor) returns (r: Decoding<Command>)
    modifies b
    ensures r == DecodedNew(old(b.rest))
  {
    hide Num, SignedNum;
    var clientSeq := b.GetU64();
    if clientSeq.None? { return Failed(Underrun); }
    var orderId := b.GetU64();
    if orderId.None? { return Failed(Underrun); }
    var accountId := b.GetU32();
    if accountId.None? { return Failed(Underrun); }
    var symbolId := b.GetU32();
    if symbolId.None? { return Failed(Underrun); }
    var sideByte := b.GetU8();
    if sideByte.None? { return Failed(Underrun); }
    var side;
    match sideByte.value {
      case 0 => side := Buy;
      case 1 => side := Sell;
      case _ => return Failed(BadSide);
    }
    var price := b.GetI64();
    if price.None? { return Failed(Underrun); }
    var qty := b.GetI64();
    if qty.None? { return Failed(Underrun); }
    var tifByte := b.GetU8();
    if tifByte.None? { return Failed(Underrun); }
    var tif;
    match tifByte.value {
      case 0 => tif := Gtc;
      case 1 => tif := Ioc;
      case _ => return Failed(BadTif);
    }
    var postOnlyByte := b.GetU8();
    if postOnlyByte.None? { return Failed(Underrun); }
    var postOnly;
    match postOnlyByte.value {
      case 0 => postOnly := false;
      case 1 => postOnly := true;
      case _ => return Failed(BadPostOnly);
    }
    return Got(New(NewOrder(clientSeq.value, orderId.value, accountId.value, symbolId.value, side,
                            price.value, qty.value, tif, postOnly)), b.rest);
  }

  method DecodeCancel(b: Cursor) returns (r: Decoding<Command>)
    modifies b
    ensures r == DecodedCancel(old(b.rest))
  {
    hide Num;
    var clientSeq := b.GetU64();
    if clientSeq.None? { return Failed(Underrun); }
    var orderId := b.GetU64();
    if orderId.None? { return Failed(Underrun); }
    var accountId := b.GetU32();
    if accountId.None? { return Failed(Underrun); }
    var symbolId := b.GetU32();
    if symbolId.None? { return Failed(Underrun); }
    return Got(CancelOrder(Cancel(clientSeq.value, orderId.value, accountId.value, symbolId.value)), b.rest);
  }

  method DecodeReplace(b: Cursor) returns (r: Decoding<Command>)
    modifies b
    ensures r == DecodedReplace(old(b.rest))
  {
    hide Num, SignedNum;
    var clientSeq := b.GetU64();
    if clientSeq.None? { return Failed(Underrun); }
    var orderId := b.GetU64();
    if orderId.None? { return Failed(Underrun); }
    var accountId := b.GetU32();
    if accountId.None? { return Failed(Underrun); }
    var symbolId := b.GetU32();
    if symbolId.None? { return Failed(Underrun); }
    var newPrice := b.GetI64();
    if newPrice.None? { return Failed(Underrun); }
    var newQty := b.GetI64();
    if newQty.None? { return Failed(Underrun); }
    return Got(ReplaceOrder(Replace(clientSeq.value, orderId.value, accountId.value, symbolId.value,
                                    newPrice.value, newQty.value)), b.rest);
  }

  method DecodeSetLimits(b: Cursor) returns (r: Decoding<Command>)
    modifies b
    ensures r == DecodedSetLimits(old(b.rest))
  {
    hide Num, SignedNum;
    var clientSeq := b.GetU64();
    if clientSeq.None? { return Failed(Underrun); }
    var accountId := b.GetU32();
    if accountId.None? { return Failed(Underrun); }
    var symbolId := b.GetU32();
    if symbolId.None? { return Failed(Underrun); }
    var maxLong := b.GetI64();
    if maxLong.None? { return Failed(Underrun); }
    var maxShort := b.GetI64();
    if maxShort.None? { return Failed(Underrun); }
    var maxOrderSize := b.GetI64();
    if maxOrderSize.None? { return Failed(Underrun); }
    return Got(SetLimits(clientSeq.value, accountId.value, symbolId.value,
                         RiskLimits(maxLong.value, maxShort.value, maxOrderSize.value)), b.rest);
  }

  method DecodeQuery(b: Cursor) returns (r: Decoding<Command>)
    modifies b
    ensures r == DecodedQuery(old(b.rest))
  {
    hide Num;
    var clientSeq := b.GetU64();
    if clientSeq.None? { return Failed(Underrun); }
    var accountId := b.GetU32();
    if accountId.None? { return Failed(Underrun); }
    var symbolId := b.GetU32();
    if symbolId.None? { return Failed(Underrun); }
    return Got(QueryAccount(clientSeq.value, accountId.value, symbolId.value), b.rest);
  }

  /** Reads one command; what follows it in the input is ignored. */
  method DecodeCommand(utf8: Utf8, input: seq<Byte>) returns (r: Decoding<Command>)
    ensures r == Decoded(utf8, input)
  {
    hide DecodedNew, DecodedCancel, DecodedReplace, DecodedSetLimits, DecodedQuery, String;
    var b := new Cursor(input);
    if |b.rest| < 2 {
      return Failed(MissingType);
    }
    var mt := b.GetNum(2);
    if mt == Some(MT_NEW_ORDER) {
      r := DecodeNew(b);
    } else if mt == Some(MT_CANCEL) {
      r := DecodeCancel(b);
    } else if mt == Some(MT_REPLACE) {
      r := DecodeReplace(b);
    } else if mt == Some(MT_SET_RISK_LIMITS) {
      r := DecodeSetLimits(b);
    } else if mt == Some(MT_QUERY_ACCOUNT) {
      r := DecodeQuery(b);
    } else if mt == Some(MT_AUTHENTICATE) {
      var apiKey := b.GetString(utf8);
      if apiKey.Failed? {
        return Failed(apiKey.error);
      }
      r := Got(Authenticate(apiKey.value), b.rest);
    } else {
      r := Failed(UnknownType);
    }
  }

  /** Bytes written so far. The `tail` clauses let an encoding be read as its fields in order: writing
      a field in front of any tail is the same as writing the tail after it. */
  class Buffer {
    var bytes: seq<Byte>

    constructor ()
      ensures bytes == []
    {
      bytes := [];
    }

    method PutU8(x: nat)
      modifies this
      ensures forall tail {:trigger U8(x, tail)} :: bytes + tail == old(bytes) + U8(x, tail)
    {
      bytes := bytes + ToLE(1, x);
    }

    method PutU16(x: nat)
      modifies this
      ensures forall tail {:trigger U16(x, tail)} :: bytes + tail == old(bytes) + U16(x, tail)
    {
      bytes := bytes + ToLE(2, x);
    }

    method PutU32(x: nat)
      modifies this
      ensures forall tail {:trigger U32(x, tail)} :: bytes + tail == old(bytes) + U32(x, tail)
    {
      bytes := bytes + ToLE(4, x);
    }

    method PutU64(x: nat)
      modifies this
      ensures forall tail {:trigger U64(x, tail)} :: bytes + tail == old(bytes) + U64(x, tail)
    {
      bytes := bytes + ToLE(8, x);
    }

    method PutI64(x: int)
      requires IsI64(x)
      modifies this
      ensures forall tail {:trigger I64(x, tail)} :: bytes + tail == old(bytes) + I64(x, tail)
    {
      PutU64(Bits(x));
    }

    method PutOptI64(x: Option<int>)
      requires OptFits(x)
      modifies this
      ensures forall tail {:trigger OptI64(x, tail)} :: bytes + tail == old(bytes) + OptI64(x, tail)
    {
      match x {
        case Some(v) =>
          PutU8(1);
          PutI64(v);
        case None => PutU8(0);
      }
    }

    method PutString(utf8: Utf8, s: string)
      modifies this
      ensures forall tail {:trigger Text(utf8, s, tail)} :: bytes + tail == old(bytes) + Text(utf8, s, tail)
    {
      var bs := utf8.encode(s);
      PutU32(|bs|);
      bytes := bytes + bs;
    }

    method PutLimits(l: RiskLimits)
      requires LimitsFit(l)
      modifies this
      ensures forall tail {:trigger LimitsBytes(l, tail)} :: bytes + tail == old(bytes) + LimitsBytes(l, tail)
    {
      PutI64(l.maxLong);
      PutI64(l.maxShort);
      PutI64(l.maxOrderSize);
    }
  }

  /** Appends one event. */
  method EncodeEvent(utf8: Utf8, ev: Event, out: Buffer)
    requires EventInRange(ev)
    modifies out
    ensures out.bytes == old(out.bytes) + EventBytes(utf8, ev, [])
  {
    hide U8, U16, U32, U64, I64, OptI64, Text, LimitsBytes;
    match ev {
      case Ack(s, c, id) =>
        out.PutU16(MT_ACK);
        out.PutU64(s);
        out.PutU64(c);
        out.PutU64(id);
      case Reject(s, c, id, reason) =>
        out.PutU16(MT_REJECT);
        out.PutU64(s);
        out.PutU64(c);
        out.PutU8(ReasonByte(reason));
        match id {
          case Some(x) =>
            out.PutU8(1);
            out.PutU64(x);
          case None => out.PutU8(0);
        }
      case Filled(f) =>
        out.PutU16(MT_FILL);
        out.PutU64(f.serverSeq);
        out.PutU64(f.clientSeq);
        out.PutU32(f.symbolId);
        out.PutU64(f.takerOrderId);
        out.PutU64(f.makerOrderId);
        out.PutI64(f.price);
        out.PutI64(f.qty);
      case BookTop(s, symbolId, bidPx, bidQty, askPx, askQty) =>
        out.PutU16(MT_BOOK_TOP);
        out.PutU64(s);
        out.PutU32(symbolId);
        out.PutOptI64(bidPx);
        out.PutOptI64(bidQty);
        out.PutOptI64(askPx);
        out.PutOptI64(askQty);
      case AccountState(s, c, a, symbolId, p, limits) =>
        out.PutU16(MT_ACCOUNT_STATE);
        out.PutU64(s);
        out.PutU64(c);
        out.PutU32(a);
        out.PutU32(symbolId);
        out.PutI64(p.net);
        out.PutI64(p.avgPrice);
        out.PutI64(p.realizedPnl);
        out.PutLimits(limits);
      case AuthSuccess(a) =>
        out.PutU16(MT_AUTH_SUCCESS);
        out.PutU32(a);
      case AuthFailure(failure) =>
        out.PutU16(MT_AUTH_FAILURE);
        out.PutString(utf8, failure);
    }
    assert out.bytes + [] == out.bytes;
  }
}
