/** Where every field of a message lies on the wire, byte by byte. */
module WireLayout {
  import opened Common
  import opened Bytes
  import opened WireFormat
  import opened WireClient

  /** The signed number in the eight bytes at `i`. */
  function SignedAt(b: seq<Byte>, i: nat): int
    requires i + 8 <= |b|
  {
    if At(b, i, 8) >= I64_LIMIT then At(b, i, 8) - U64_LIMIT else At(b, i, 8)
  }

  /** The least significant byte comes first. */
  lemma {:induction false} ByteOrder(b: seq<Byte>, i: nat, w: nat)
    requires i + w <= |b| && w > 0
    ensures At(b, i, w) == b[i] + 256 * At(b, i + 1, w - 1)
  {
    assert b[i..i + w][1..] == b[i + 1..i + 1 + (w - 1)];
  }

  /** One field at `i`, and what is behind it. */
  lemma FieldAt(b: seq<Byte>, i: nat, w: nat, x: nat, rest: seq<Byte>)
    requires i <= |b| && b[i..] == ToLE(w, x) + rest && x < Pow256(w)
    ensures i + w <= |b| && At(b, i, w) == x && b[i + w..] == rest
  {
    FromToLE(w, x);
    assert |b[i..]| == w + |rest|;
    assert b[i..i + w] == b[i..][..w] == ToLE(w, x);
    assert b[i + w..] == b[i..][w..] == rest;
  }

  lemma SignedFieldAt(b: seq<Byte>, i: nat, x: int, rest: seq<Byte>)
    requires IsI64(x) && i <= |b| && b[i..] == I64(x, rest)
    ensures i + 8 <= |b| && SignedAt(b, i) == x && b[i + 8..] == rest
  {
    Widths();
    FieldAt(b, i, 8, Bits(x), rest);
  }

  lemma U64At(b: seq<Byte>, i: nat, x: nat, rest: seq<Byte>)
    requires IsU64(x) && i <= |b| && b[i..] == U64(x, rest)
    ensures i + 8 <= |b| && At(b, i, 8) == x && b[i + 8..] == rest
  {
    Widths();
    FieldAt(b, i, 8, x, rest);
  }

  lemma U32At(b: seq<Byte>, i: nat, x: nat, rest: seq<Byte>)
    requires IsU32(x) && i <= |b| && b[i..] == U32(x, rest)
    ensures i + 4 <= |b| && At(b, i, 4) == x && b[i + 4..] == rest
  {
    Widths();
    FieldAt(b, i, 4, x, rest);
  }

  lemma U16At(b: seq<Byte>, x: nat, rest: seq<Byte>)
    requires x < U16_LIMIT && b == U16(x, rest)
    ensures 2 <= |b| && At(b, 0, 2) == x && b[2..] == rest
  {
    Widths();
    assert b[0..] == b;
    FieldAt(b, 0, 2, x, rest);
  }

  lemma U8At(b: seq<Byte>, i: nat, x: nat, rest: seq<Byte>)
    requires x < U8_LIMIT && i <= |b| && b[i..] == U8(x, rest)
    ensures i + 1 <= |b| && At(b, i, 1) == x && b[i + 1..] == rest
  {
    Widths();
    FieldAt(b, i, 1, x, rest);
  }

  lemma LimitsAt(b: seq<Byte>, i: nat, l: RiskLimits, rest: seq<Byte>)
    requires LimitsFit(l) && i <= |b| && b[i..] == LimitsBytes(l, rest)
    ensures i + 24 <= |b| && b[i + 24..] == rest
    ensures SignedAt(b, i) == l.maxLong && SignedAt(b, i + 8) == l.maxShort && SignedAt(b, i + 16) == l.maxOrderSize
  {
    hide At, SignedAt, I64;
    SignedFieldAt(b, i, l.maxLong, I64(l.maxShort, I64(l.maxOrderSize, rest)));
    SignedFieldAt(b, i + 8, l.maxShort, I64(l.maxOrderSize, rest));
    SignedFieldAt(b, i + 16, l.maxOrderSize, rest);
  }

  // ----- commands -----

  lemma NewOrderLayout(utf8: Utf8, no: NewOrder, tail: seq<Byte>)
    requires NewFits(no)
    ensures var b := CommandBytes(utf8, New(no), tail);
            && |b| >= 45
            && b[45..] == tail
            && At(b, 0, 2) == 1
            && At(b, 2, 8) == no.clientSeq
            && At(b, 10, 8) == no.orderId
            && At(b, 18, 4) == no.accountId
            && At(b, 22, 4) == no.symbolId
            && At(b, 26, 1) == (if no.side.Buy? then 0 else 1)
            && SignedAt(b, 27) == no.price
            && SignedAt(b, 35) == no.qty
            && At(b, 43, 1) == (if no.tif.Gtc? then 0 else 1)
            && At(b, 44, 1) == (if no.postOnly then 1 else 0)
  {
    hide At, SignedAt, I64, U64, U32, U16, U8;
    var b := CommandBytes(utf8, New(no), tail);
    var b8 := U8(BoolByte(no.postOnly), tail);
    var b7 := U8(TifByte(no.tif), b8);
    var b6 := I64(no.qty, b7);
    var b5 := I64(no.price, b6);
    var b4 := U8(SideByte(no.side), b5);
    var b3 := U32(no.symbolId, b4);
    var b2 := U32(no.accountId, b3);
    var b1 := U64(no.orderId, b2);
    U16At(b, 1, U64(no.clientSeq, b1));
    U64At(b, 2, no.clientSeq, b1);
    U64At(b, 10, no.orderId, b2);
    U32At(b, 18, no.accountId, b3);
    U32At(b, 22, no.symbolId, b4);
    U8At(b, 26, SideByte(no.side), b5);
    SignedFieldAt(b, 27, no.price, b6);
    SignedFieldAt(b, 35, no.qty, b7);
    U8At(b, 43, TifByte(no.tif), b8);
    U8At(b, 44, BoolByte(no.postOnly), tail);
  }

  lemma CancelLayout(utf8: Utf8, c: Cancel, tail: seq<Byte>)
    requires CommandFits(utf8, CancelOrder(c))
    ensures var b := CommandBytes(utf8, CancelOrder(c), tail);
            && |b| >= 26
            && b[26..] == tail
            && At(b, 0, 2) == 2
            && At(b, 2, 8) == c.clientSeq
            && At(b, 10, 8) == c.orderId
            && At(b, 18, 4) == c.accountId
            && At(b, 22, 4) == c.symbolId
  {
    hide At, U64, U32, U16;
    var b := CommandBytes(utf8, CancelOrder(c), tail);
    var b3 := U32(c.symbolId, tail);
    var b2 := U32(c.accountId, b3);
    var b1 := U64(c.orderId, b2);
    U16At(b, 2, U64(c.clientSeq, b1));
    U64At(b, 2, c.clientSeq, b1);
    U64At(b, 10, c.orderId, b2);
    U32At(b, 18, c.accountId, b3);
    U32At(b, 22, c.symbolId, tail);
  }

  lemma ReplaceLayout(utf8: Utf8, r: Replace, tail: seq<Byte>)
    requires CommandFits(utf8, ReplaceOrder(r))
    ensures var b := CommandBytes(utf8, ReplaceOrder(r), tail);
            && |b| >= 42
            && b[42..] == tail
            && At(b, 0, 2) == 3
            && At(b, 2, 8) == r.clientSeq
            && At(b, 10, 8) == r.orderId
            && At(b, 18, 4) == r.accountId
            && At(b, 22, 4) == r.symbolId
            && SignedAt(b, 26) == r.newPrice
            && SignedAt(b, 34) == r.newQty
  {
    hide At, SignedAt, I64, U64, U32, U16;
    var b := CommandBytes(utf8, ReplaceOrder(r), tail);
    var b5 := I64(r.newQty, tail);
    var b4 := I64(r.newPrice, b5);
    var b3 := U32(r.symbolId, b4);
    var b2 := U32(r.accountId, b3);
    var b1 := U64(r.orderId, b2);
    U16At(b, 3, U64(r.clientSeq, b1));
    U64At(b, 2, r.clientSeq, b1);
    U64At(b, 10, r.orderId, b2);
    U32At(b, 18, r.accountId, b3);
    U32At(b, 22, r.symbolId, b4);
    SignedFieldAt(b, 26, r.newPrice, b5);
    SignedFieldAt(b, 34, r.newQty, tail);
  }

  lemma SetLimitsLayout(utf8: Utf8, cmd: Command, tail: seq<Byte>)
    requires cmd.SetLimits? && CommandFits(utf8, cmd)
    ensures var b := CommandBytes(utf8, cmd, tail);
            && |b| >= 42
            && b[42..] == tail
            && At(b, 0, 2) == 4
            && At(b, 2, 8) == cmd.clientSeq
            && At(b, 10, 4) == cmd.accountId
            && At(b, 14, 4) == cmd.symbolId
            && SignedAt(b, 18) == cmd.limits.maxLong
            && SignedAt(b, 26) == cmd.limits.maxShort
            && SignedAt(b, 34) == cmd.limits.maxOrderSize
  {
    hide At, SignedAt, LimitsBytes, U64, U32, U16;
    var b := CommandBytes(utf8, cmd, tail);
    var b3 := LimitsBytes(cmd.limits, tail);
    var b2 := U32(cmd.symbolId, b3);
    var b1 := U32(cmd.accountId, b2);
    U16At(b, 4, U64(cmd.clientSeq, b1));
    U64At(b, 2, cmd.clientSeq, b1);
    U32At(b, 10, cmd.accountId, b2);
    U32At(b, 14, cmd.symbolId, b3);
    LimitsAt(b, 18, cmd.limits, tail);
  }

  lemma QueryLayout(utf8: Utf8, cmd: Command, tail: seq<Byte>)
    requires cmd.QueryAccount? && CommandFits(utf8, cmd)
    ensures var b := CommandBytes(utf8, cmd, tail);
            && |b| >= 18
            && b[18..] == tail
            && At(b, 0, 2) == 5
            && At(b, 2, 8) == cmd.clientSeq
            && At(b, 10, 4) == cmd.accountId
            && At(b, 14, 4) == cmd.symbolId
  {
    hide At, U64, U32, U16;
    var b := CommandBytes(utf8, cmd, tail);
    var b2 := U32(cmd.symbolId, tail);
    var b1 := U32(cmd.accountId, b2);
    U16At(b, 5, U64(cmd.clientSeq, b1));
    U64At(b, 2, cmd.clientSeq, b1);
    U32At(b, 10, cmd.accountId, b2);
    U32At(b, 14, cmd.symbolId, tail);
  }

  lemma AuthenticateLayout(utf8: Utf8, apiKey: string, tail: seq<Byte>)
    requires TextFits(utf8, apiKey)
    ensures var b := CommandBytes(utf8, Authenticate(apiKey), tail);
            |b| >= 6 && At(b, 0, 2) == 6 && At(b, 2, 4) == |utf8.encode(apiKey)| && b[6..] == utf8.encode(apiKey) + tail
  {
    hide At, U32, U16;
    var b, key := CommandBytes(utf8, Authenticate(apiKey), tail), utf8.encode(apiKey) + tail;
    U16At(b, 6, U32(|utf8.encode(apiKey)|, key));
    U32At(b, 2, |utf8.encode(apiKey)|, key);
  }

  // ----- events -----

  lemma AckLayout(utf8: Utf8, ev: Event, tail: seq<Byte>)
    requires ev.Ack? && EventInRange(ev)
    ensures var b := EventBytes(utf8, ev, tail);
            && |b| >= 26
            && b[26..] == tail
            && At(b, 0, 2) == 101
            && At(b, 2, 8) == ev.serverSeq
            && At(b, 10, 8) == ev.clientSeq
            && At(b, 18, 8) == ev.orderId
  {
    hide At, U64, U16;
    var b := EventBytes(utf8, ev, tail);
    var b2 := U64(ev.orderId, tail);
    var b1 := U64(ev.clientSeq, b2);
    U16At(b, 101, U64(ev.serverSeq, b1));
    U64At(b, 2, ev.serverSeq, b1);
    U64At(b, 10, ev.clientSeq, b2);
    U64At(b, 18, ev.orderId, tail);
  }

  /** The numbers that stand for the reasons. */
  function ReasonNumber(reason: RejectReason): nat {
    if reason == Invalid then 1
    else if reason == Risk then 2
    else if reason == Overloaded then 3
    else if reason == NotFound then 4
    else if reason == PostOnlyWouldCross then 5
    else 6
  }

  lemma RejectLayout(utf8: Utf8, ev: Event, tail: seq<Byte>)
    requires ev.Reject? && EventInRange(ev)
    ensures var b := EventBytes(utf8, ev, tail);
            && |b| >= 20
            && At(b, 0, 2) == 102
            && At(b, 2, 8) == ev.serverSeq
            && At(b, 10, 8) == ev.clientSeq
            && At(b, 18, 1) == ReasonNumber(ev.reason)
            && At(b, 19, 1) == (if ev.rejected.Some? then 1 else 0)
            && (ev.rejected.Some? ==> |b| >= 28 && At(b, 20, 8) == ev.rejected.value && b[28..] == tail)
            && (ev.rejected.None? ==> b[20..] == tail)
  {
    hide At, U64, U16, U8;
    var b := EventBytes(utf8, ev, tail);
    var b4 := if ev.rejected.Some? then U64(ev.rejected.value, tail) else tail;
    var b3 := U8(if ev.rejected.Some? then 1 else 0, b4);
    var b2 := U8(ReasonByte(ev.reason), b3);
    var b1 := U64(ev.clientSeq, b2);
    U16At(b, 102, U64(ev.serverSeq, b1));
    U64At(b, 2, ev.serverSeq, b1);
    U64At(b, 10, ev.clientSeq, b2);
    U8At(b, 18, ReasonByte(ev.reason), b3);
    U8At(b, 19, if ev.rejected.Some? then 1 else 0, b4);
    if ev.rejected.Some? {
      U64At(b, 20, ev.rejected.value, tail);
    }
  }

  lemma FillLayout(utf8: Utf8, f: Fill, tail: seq<Byte>)
    requires EventInRange(Filled(f))
    ensures var b := EventBytes(utf8, Filled(f), tail);
            && |b| >= 54
            && b[54..] == tail
            && At(b, 0, 2) == 103
            && At(b, 2, 8) == f.serverSeq
            && At(b, 10, 8) == f.clientSeq
            && At(b, 18, 4) == f.symbolId
            && At(b, 22, 8) == f.takerOrderId
            && At(b, 30, 8) == f.makerOrderId
            && SignedAt(b, 38) == f.price
            && SignedAt(b, 46) == f.qty
  {
    hide At, SignedAt, I64, U64, U32, U16;
    var b := EventBytes(utf8, Filled(f), tail);
    var b6 := I64(f.qty, tail);
    var b5 := I64(f.price, b6);
    var b4 := U64(f.makerOrderId, b5);
    var b3 := U64(f.takerOrderId, b4);
    var b2 := U32(f.symbolId, b3);
    var b1 := U64(f.clientSeq, b2);
    U16At(b, 103, U64(f.serverSeq, b1));
    U64At(b, 2, f.serverSeq, b1);
    U64At(b, 10, f.clientSeq, b2);
    U32At(b, 18, f.symbolId, b3);
    U64At(b, 22, f.takerOrderId, b4);
    U64At(b, 30, f.makerOrderId, b5);
    SignedFieldAt(b, 38, f.price, b6);
    SignedFieldAt(b, 46, f.qty, tail);
  }

  /** Bytes that an optional number takes. */
  function OptWidth(x: Option<int>): nat {
    if x.Some? then 9 else 1
  }

  /** A tag, and the number if there is one. */
  predicate OptionalAt(b: seq<Byte>, i: nat, x: Option<int>) {
    && i + OptWidth(x) <= |b|
    && At(b, i, 1) == (if x.Some? then 1 else 0)
    && (x.Some? ==> SignedAt(b, i + 1) == x.value)
  }

  lemma OptionalFieldAt(b: seq<Byte>, i: nat, x: Option<int>, rest: seq<Byte>)
    requires OptFits(x) && i <= |b| && b[i..] == OptI64(x, rest)
    ensures OptionalAt(b, i, x) && b[i + OptWidth(x)..] == rest
  {
    hide At, SignedAt, I64, U8;
    if x.Some? {
      U8At(b, i, 1, I64(x.value, rest));
      SignedFieldAt(b, i + 1, x.value, rest);
    } else {
      U8At(b, i, 0, rest);
    }
  }

  lemma OptionalEnds(b: seq<Byte>, i: nat, x: Option<int>)
    requires OptionalAt(b, i, x)
    ensures i + OptWidth(x) <= |b|
  {
  }

  lemma BookTopLayout(utf8: Utf8, ev: Event, tail: seq<Byte>)
    requires ev.BookTop? && EventInRange(ev)
    ensures var b := EventBytes(utf8, ev, tail);
            var bidQtyAt := 14 + OptWidth(ev.bidPx);
            var askPxAt := bidQtyAt + OptWidth(ev.bidQty);
            var askQtyAt := askPxAt + OptWidth(ev.askPx);
            && |b| >= 14
            && At(b, 0, 2) == 104
            && At(b, 2, 8) == ev.serverSeq
            && At(b, 10, 4) == ev.symbolId
            && OptionalAt(b, 14, ev.bidPx)
            && OptionalAt(b, bidQtyAt, ev.bidQty)
            && OptionalAt(b, askPxAt, ev.askPx)
            && OptionalAt(b, askQtyAt, ev.askQty)
            && b[askQtyAt + OptWidth(ev.askQty)..] == tail
  {
    hide At, OptionalAt, OptI64, U64, U32, U16;
    var b := EventBytes(utf8, ev, tail);
    var bidQtyAt := 14 + OptWidth(ev.bidPx);
    var askPxAt := bidQtyAt + OptWidth(ev.bidQty);
    var askQtyAt := askPxAt + OptWidth(ev.askPx);
    var b4 := OptI64(ev.askQty, tail);
    var b3 := OptI64(ev.askPx, b4);
    var b2 := OptI64(ev.bidQty, b3);
    var b1 := OptI64(ev.bidPx, b2);
    U16At(b, 104, U64(ev.serverSeq, U32(ev.symbolId, b1)));
    U64At(b, 2, ev.serverSeq, U32(ev.symbolId, b1));
    U32At(b, 10, ev.symbolId, b1);
    OptionalFieldAt(b, 14, ev.bidPx, b2);
    OptionalEnds(b, 14, ev.bidPx);
    OptionalFieldAt(b, bidQtyAt, ev.bidQty, b3);
    OptionalEnds(b, bidQtyAt, ev.bidQty);
    OptionalFieldAt(b, askPxAt, ev.askPx, b4);
    OptionalEnds(b, askPxAt, ev.askPx);
    OptionalFieldAt(b, askQtyAt, ev.askQty, tail);
    OptionalEnds(b, askQtyAt, ev.askQty);
  }

  lemma AccountStateLayout(utf8: Utf8, ev: Event, tail: seq<Byte>)
    requires ev.AccountState? && EventInRange(ev)
    ensures var b := EventBytes(utf8, ev, tail);
            && |b| >= 74
            && b[74..] == tail
            && At(b, 0, 2) == 105
            && At(b, 2, 8) == ev.serverSeq
            && At(b, 10, 8) == ev.clientSeq
            && At(b, 18, 4) == ev.accountId
            && At(b, 22, 4) == ev.symbolId
            && SignedAt(b, 26) == ev.position.net
            && SignedAt(b, 34) == ev.position.avgPrice
            && SignedAt(b, 42) == ev.position.realizedPnl
            && SignedAt(b, 50) == ev.limits.maxLong
            && SignedAt(b, 58) == ev.limits.maxShort
            && SignedAt(b, 66) == ev.limits.maxOrderSize
  {
    hide At, SignedAt, I64, LimitsBytes, U64, U32, U16;
    var b := EventBytes(utf8, ev, tail);
    var b6 := LimitsBytes(ev.limits, tail);
    var b5 := I64(ev.position.realizedPnl, b6);
    var b4 := I64(ev.position.avgPrice, b5);
    var b3 := I64(ev.position.net, b4);
    var b2 := U32(ev.symbolId, b3);
    var b1 := U32(ev.accountId, b2);
    U16At(b, 105, U64(ev.serverSeq, U64(ev.clientSeq, b1)));
    U64At(b, 2, ev.serverSeq, U64(ev.clientSeq, b1));
    U64At(b, 10, ev.clientSeq, b1);
    U32At(b, 18, ev.accountId, b2);
    U32At(b, 22, ev.symbolId, b3);
    SignedFieldAt(b, 26, ev.position.net, b4);
    SignedFieldAt(b, 34, ev.position.avgPrice, b5);
    SignedFieldAt(b, 42, ev.position.realizedPnl, b6);
    LimitsAt(b, 50, ev.limits, tail);
  }

  lemma AuthLayout(utf8: Utf8, ev: Event, tail: seq<Byte>)
    requires (ev.AuthSuccess? || ev.AuthFailure?) && EventFits(utf8, ev)
    ensures var b := EventBytes(utf8, ev, tail);
            && |b| >= 6
            && (ev.AuthSuccess? ==> At(b, 0, 2) == 106 && At(b, 2, 4) == ev.accountId && b[6..] == tail)
            && (ev.AuthFailure? ==>
                  && At(b, 0, 2) == 107
                  && At(b, 2, 4) == |utf8.encode(ev.failure)|
                  && b[6..] == utf8.encode(ev.failure) + tail)
  {
    hide At, U32, U16;
    var b := EventBytes(utf8, ev, tail);
    if ev.AuthSuccess? {
      U16At(b, 106, U32(ev.accountId, tail));
      U32At(b, 2, ev.accountId, tail);
    } else {
      var reason := utf8.encode(ev.failure) + tail;
      U16At(b, 107, U32(|utf8.encode(ev.failure)|, reason));
      U32At(b, 2, |utf8.encode(ev.failure)|, reason);
    }
  }
}
