/** The binary wire format: little-endian fields behind a message type, read with a cursor that never
    runs past its input. */
module WireFormat {
  import opened Common
  import opened Bytes

  const MT_NEW_ORDER := 1
  const MT_CANCEL := 2
  const MT_REPLACE := 3
  const MT_SET_RISK_LIMITS := 4
  const MT_QUERY_ACCOUNT := 5
  const MT_AUTHENTICATE := 6

  const MT_ACK := 101
  const MT_REJECT := 102
  const MT_FILL := 103
  const MT_BOOK_TOP := 104
  const MT_ACCOUNT_STATE := 105
  const MT_AUTH_SUCCESS := 106
  const MT_AUTH_FAILURE := 107

  const I64_LIMIT := 0x8000_0000_0000_0000

  /** The text encoding, which the codec takes from elsewhere. */
  datatype Utf8 = Utf8(encode: string -> seq<Byte>, decode: seq<Byte> -> Option<string>)

  /** Bytes decode to a text exactly when the text encodes to them. */
  ghost predicate Faithful(utf8: Utf8) {
    forall s, bs :: utf8.decode(bs) == Some(s) <==> utf8.encode(s) == bs
  }

  // ----- fields -----

  predicate IsI64(x: int) {
    -I64_LIMIT <= x < I64_LIMIT
  }

  function FromBits(n: nat): (x: int)
    ensures n < U64_LIMIT ==> IsI64(x)
  {
    if n >= I64_LIMIT then n - U64_LIMIT else n
  }

  /** Two's complement. */
  function Bits(x: int): (n: nat)
    requires IsI64(x)
    ensures n < U64_LIMIT && FromBits(n) == x
  {
    if x < 0 then x + U64_LIMIT else x
  }

  function U8(x: nat, tail: seq<Byte>): seq<Byte> {
    ToLE(1, x) + tail
  }

  function U16(x: nat, tail: seq<Byte>): seq<Byte> {
    ToLE(2, x) + tail
  }

  function U32(x: nat, tail: seq<Byte>): seq<Byte> {
    ToLE(4, x) + tail
  }

  function U64(x: nat, tail: seq<Byte>): seq<Byte> {
    ToLE(8, x) + tail
  }

  function I64(x: int, tail: seq<Byte>): seq<Byte>
    requires IsI64(x)
  {
    U64(Bits(x), tail)
  }

  /** The length is written in 32 bits, whatever it is. */
  function Text(utf8: Utf8, s: string, tail: seq<Byte>): seq<Byte> {
    U32(|utf8.encode(s)|, utf8.encode(s) + tail)
  }

  function OptI64(x: Option<int>, tail: seq<Byte>): seq<Byte>
    requires x.Some? ==> IsI64(x.value)
  {
    match x
    case Some(v) => U8(1, I64(v, tail))
    case None => U8(0, tail)
  }

  datatype DecodeError = MissingType | UnknownType | Underrun | BadSide | BadTif | BadPostOnly | InvalidUtf8

  /** A value read from the front of the input, and the input behind it. */
  datatype Decoding<+T> = Got(value: T, rest: seq<Byte>) | Failed(error: DecodeError) {
    predicate IsFailure() {
      Failed?
    }

    function PropagateFailure<U>(): Decoding<U>
      requires IsFailure()
    {
      Failed(error)
    }

    function Extract(): (T, seq<Byte>)
      requires !IsFailure()
    {
      (value, rest)
    }
  }

  /** Reads `w` bytes: exactly those that writing the value would have put there. */
  function Num(w: nat, b: seq<Byte>): (r: Decoding<nat>)
    ensures r.Got? ==> r.value < Pow256(w) && b == ToLE(w, r.value) + r.rest
    ensures r.Got? <==> |b| >= w
  {
    if |b| < w then Failed(Underrun)
    else
      ToFromLE(b[..w]);
      Got(FromLE(b[..w]), b[w..])
  }

  function SignedNum(b: seq<Byte>): (r: Decoding<int>)
    ensures r.Got? ==> IsI64(r.value) && b == I64(r.value, r.rest)
  {
    var (n, b) :- Num(8, b);
    Widths();
    Got(FromBits(n), b)
  }

  function String(utf8: Utf8, b: seq<Byte>): Decoding<string> {
    var (len, b) :- Num(4, b);
    if |b| < len then Failed(Underrun)
    else
      match utf8.decode(b[..len])
      case None => Failed(InvalidUtf8)
      case Some(s) => Got(s, b[len..])
  }

  lemma NumInverts(w: nat, x: nat, tail: seq<Byte>)
    requires x < Pow256(w)
    ensures Num(w, ToLE(w, x) + tail) == Got(x, tail)
  {
    FromToLE(w, x);
  }

  /** Every getter inverts its putter. */
  lemma GettersInvert()
    ensures forall x: nat, tail :: x < U8_LIMIT ==> Num(1, U8(x, tail)) == Got(x, tail)
    ensures forall x: nat, tail :: x < U16_LIMIT ==> Num(2, U16(x, tail)) == Got(x, tail)
    ensures forall x: nat, tail :: x < U32_LIMIT ==> Num(4, U32(x, tail)) == Got(x, tail)
    ensures forall x: nat, tail :: x < U64_LIMIT ==> Num(8, U64(x, tail)) == Got(x, tail)
    ensures forall x, tail :: IsI64(x) ==> SignedNum(I64(x, tail)) == Got(x, tail)
  {
    Widths();
    forall x: nat, tail | x < U8_LIMIT ensures Num(1, U8(x, tail)) == Got(x, tail) {
      NumInverts(1, x, tail);
    }
    forall x: nat, tail | x < U16_LIMIT ensures Num(2, U16(x, tail)) == Got(x, tail) {
      NumInverts(2, x, tail);
    }
    forall x: nat, tail | x < U32_LIMIT ensures Num(4, U32(x, tail)) == Got(x, tail) {
      NumInverts(4, x, tail);
    }
    forall x: nat, tail | x < U64_LIMIT ensures Num(8, U64(x, tail)) == Got(x, tail) {
      NumInverts(8, x, tail);
    }
    forall x, tail | IsI64(x) ensures SignedNum(I64(x, tail)) == Got(x, tail) {
      NumInverts(8, Bits(x), tail);
    }
  }

  /** A text survives the wire exactly when its byte length fits 32 bits. */
  lemma TextInvertsIffFits(utf8: Utf8, s: string, tail: seq<Byte>)
    requires Faithful(utf8)
    ensures String(utf8, Text(utf8, s, tail)) == Got(s, tail) <==> |utf8.encode(s)| < U32_LIMIT
  {
    GettersInvert();
    var bs := utf8.encode(s);
    if |bs| < U32_LIMIT {
      assert (bs + tail)[..|bs|] == bs && (bs + tail)[|bs|..] == tail;
    } else {
      var r := Num(4, Text(utf8, s, tail));
      assert r.Got?;
      Widths();
      assert |r.rest| == |bs| + |tail|;
    }
  }

  // ----- messages -----

  predicate IsU32(x: nat) {
    x < U32_LIMIT
  }

  predicate IsU64(x: nat) {
    x < U64_LIMIT
  }

  predicate TextFits(utf8: Utf8, s: string) {
    |utf8.encode(s)| < U32_LIMIT
  }

  predicate LimitsFit(l: RiskLimits) {
    IsI64(l.maxLong) && IsI64(l.maxShort) && IsI64(l.maxOrderSize)
  }

  predicate OptFits(x: Option<int>) {
    x.Some? ==> IsI64(x.value)
  }

  predicate NewFits(no: NewOrder) {
    IsU64(no.clientSeq) && IsU64(no.orderId) && IsU32(no.accountId) && IsU32(no.symbolId) && IsI64(no.price)
      && IsI64(no.qty)
  }

  /** Every number is within the width of its field. */
  predicate CommandFits(utf8: Utf8, cmd: Command) {
    match cmd
    case New(no) => NewFits(no)
    case CancelOrder(c) =>
      IsU64(c.clientSeq) && IsU64(c.orderId) && IsU32(c.accountId) && IsU32(c.symbolId)
    case ReplaceOrder(r) =>
      IsU64(r.clientSeq) && IsU64(r.orderId) && IsU32(r.accountId) && IsU32(r.symbolId) && IsI64(r.newPrice)
        && IsI64(r.newQty)
    case SetLimits(clientSeq, a, symbolId, limits) =>
      IsU64(clientSeq) && IsU32(a) && IsU32(symbolId) && LimitsFit(limits)
    case QueryAccount(clientSeq, a, symbolId) =>
      IsU64(clientSeq) && IsU32(a) && IsU32(symbolId)
    case Authenticate(apiKey) => TextFits(utf8, apiKey)
  }

  /** Every number is within the width of its field; texts may have any length. */
  predicate EventInRange(ev: Event) {
    match ev
    case Ack(s, c, id) => IsU64(s) && IsU64(c) && IsU64(id)
    case Reject(s, c, id, _) => IsU64(s) && IsU64(c) && (id.Some? ==> IsU64(id.value))
    case Filled(f) =>
      IsU64(f.serverSeq) && IsU64(f.clientSeq) && IsU32(f.symbolId) && IsU64(f.takerOrderId) && IsU64(f.makerOrderId)
      && IsI64(f.price) && IsI64(f.qty)
    case BookTop(s, symbolId, bidPx, bidQty, askPx, askQty) =>
      IsU64(s) && IsU32(symbolId) && OptFits(bidPx) && OptFits(bidQty) && OptFits(askPx) && OptFits(askQty)
    case AccountState(s, c, a, symbolId, p, limits) =>
      IsU64(s) && IsU64(c) && IsU32(a) && IsU32(symbolId)
      && IsI64(p.net) && IsI64(p.avgPrice) && IsI64(p.realizedPnl) && LimitsFit(limits)
    case AuthSuccess(a) => IsU32(a)
    case AuthFailure(_) => true
  }

  predicate EventFits(utf8: Utf8, ev: Event) {
    EventInRange(ev) && (ev.AuthFailure? ==> TextFits(utf8, ev.failure))
  }

  function SideByte(side: Side): nat {
    if side.Buy? then 0 else 1
  }

  function TifByte(tif: TimeInForce): nat {
    if tif.Gtc? then 0 else 1
  }

  function BoolByte(flag: bool): nat {
    if flag then 1 else 0
  }

  function ReasonByte(reason: RejectReason): nat {
    match reason
    case Invalid => 1
    case Risk => 2
    case Overloaded => 3
    case NotFound => 4
    case PostOnlyWouldCross => 5
    case RateLimitExceeded => 6
  }

  function LimitsBytes(l: RiskLimits, tail: seq<Byte>): seq<Byte>
    requires LimitsFit(l)
  {
    I64(l.maxLong, I64(l.maxShort, I64(l.maxOrderSize, tail)))
  }

  function CommandType(cmd: Command): nat {
    match cmd
    case New(_) => MT_NEW_ORDER
    case CancelOrder(_) => MT_CANCEL
    case ReplaceOrder(_) => MT_REPLACE
    case SetLimits(_, _, _, _) => MT_SET_RISK_LIMITS
    case QueryAccount(_, _, _) => MT_QUERY_ACCOUNT
    case Authenticate(_) => MT_AUTHENTICATE
  }

  function CommandBody(utf8: Utf8, cmd: Command, tail: seq<Byte>): seq<Byte>
    requires CommandFits(utf8, cmd)
  {
    match cmd
    case New(no) =>
      U64(no.clientSeq, U64(no.orderId, U32(no.accountId, U32(no.symbolId, U8(SideByte(no.side),
      I64(no.price, I64(no.qty, U8(TifByte(no.tif), U8(BoolByte(no.postOnly), tail)))))))))
    case CancelOrder(c) =>
      U64(c.clientSeq, U64(c.orderId, U32(c.accountId, U32(c.symbolId, tail))))
    case ReplaceOrder(r) =>
      U64(r.clientSeq, U64(r.orderId, U32(r.accountId, U32(r.symbolId, I64(r.newPrice, I64(r.newQty, tail))))))
    case SetLimits(clientSeq, a, symbolId, limits) =>
      U64(clientSeq, U32(a, U32(symbolId, LimitsBytes(limits, tail))))
    case QueryAccount(clientSeq, a, symbolId) =>
      U64(clientSeq, U32(a, U32(symbolId, tail)))
    case Authenticate(apiKey) => Text(utf8, apiKey, tail)
  }

  /** A command on the wire, followed by `tail`. */
  function CommandBytes(utf8: Utf8, cmd: Command, tail: seq<Byte>): seq<Byte>
    requires CommandFits(utf8, cmd)
  {
    U16(CommandType(cmd), CommandBody(utf8, cmd, tail))
  }

  function EventType(ev: Event): nat {
    match ev
    case Ack(_, _, _) => MT_ACK
    case Reject(_, _, _, _) => MT_REJECT
    case Filled(_) => MT_FILL
    case BookTop(_, _, _, _, _, _) => MT_BOOK_TOP
    case AccountState(_, _, _, _, _, _) => MT_ACCOUNT_STATE
    case AuthSuccess(_) => MT_AUTH_SUCCESS
    case AuthFailure(_) => MT_AUTH_FAILURE
  }

  function EventBody(utf8: Utf8, ev: Event, tail: seq<Byte>): seq<Byte>
    requires EventInRange(ev)
  {
    match ev
    case Ack(s, c, id) => U64(s, U64(c, U64(id, tail)))
    case Reject(s, c, id, reason) =>
      U64(s, U64(c, U8(ReasonByte(reason), if id.Some? then U8(1, U64(id.value, tail)) else U8(0, tail))))
    case Filled(f) =>
      U64(f.serverSeq, U64(f.clientSeq, U32(f.symbolId, U64(f.takerOrderId, U64(f.makerOrderId,
      I64(f.price, I64(f.qty, tail)))))))
    case BookTop(s, symbolId, bidPx, bidQty, askPx, askQty) =>
      U64(s, U32(symbolId, OptI64(bidPx, OptI64(bidQty, OptI64(askPx, OptI64(askQty, tail))))))
    case AccountState(s, c, a, symbolId, p, limits) =>
      U64(s, U64(c, U32(a, U32(symbolId, I64(p.net, I64(p.avgPrice, I64(p.realizedPnl, LimitsBytes(limits, tail))))))))
    case AuthSuccess(a) => U32(a, tail)
    case AuthFailure(failure) => Text(utf8, failure, tail)
  }

  /** An event on the wire, followed by `tail`. */
  function EventBytes(utf8: Utf8, ev: Event, tail: seq<Byte>): seq<Byte>
    requires EventInRange(ev)
  {
    U16(EventType(ev), EventBody(utf8, ev, tail))
  }

  // ----- decoding commands -----

  function DecodedNew(b: seq<Byte>): Decoding<Command> {
    var (clientSeq, b) :- Num(8, b);
    var (orderId, b) :- Num(8, b);
    var (accountId, b) :- Num(4, b);
    var (symbolId, b) :- Num(4, b);
    var (side, b) :- Num(1, b);
    if side > 1 then Failed(BadSide)
    else
      var (price, b) :- SignedNum(b);
      var (qty, b) :- SignedNum(b);
      var (tif, b) :- Num(1, b);
      if tif > 1 then Failed(BadTif)
      else
        var (postOnly, b) :- Num(1, b);
        if postOnly > 1 then Failed(BadPostOnly)
        else Got(New(NewOrder(clientSeq, orderId, accountId, symbolId, if side == 0 then Buy else Sell, price, qty,
                              if tif == 0 then Gtc else Ioc, postOnly == 1)), b)
  }

  function DecodedCancel(b: seq<Byte>): Decoding<Command> {
    var (clientSeq, b) :- Num(8, b);
    var (orderId, b) :- Num(8, b);
    var (accountId, b) :- Num(4, b);
    var (symbolId, b) :- Num(4, b);
    Got(CancelOrder(Cancel(clientSeq, orderId, accountId, symbolId)), b)
  }

  function DecodedReplace(b: seq<Byte>): Decoding<Command> {
    var (clientSeq, b) :- Num(8, b);
    var (orderId, b) :- Num(8, b);
    var (accountId, b) :- Num(4, b);
    var (symbolId, b) :- Num(4, b);
    var (newPrice, b) :- SignedNum(b);
    var (newQty, b) :- SignedNum(b);
    Got(ReplaceOrder(Replace(clientSeq, orderId, accountId, symbolId, newPrice, newQty)), b)
  }

  function DecodedLimits(b: seq<Byte>): Decoding<RiskLimits> {
    var (maxLong, b) :- SignedNum(b);
    var (maxShort, b) :- SignedNum(b);
    var (maxOrderSize, b) :- SignedNum(b);
    Got(RiskLimits(maxLong, maxShort, maxOrderSize), b)
  }

  function DecodedSetLimits(b: seq<Byte>): Decoding<Command> {
    var (clientSeq, b) :- Num(8, b);
    var (accountId, b) :- Num(4, b);
    var (symbolId, b) :- Num(4, b);
    var (limits, b) :- DecodedLimits(b);
    Got(SetLimits(clientSeq, accountId, symbolId, limits), b)
  }

  function DecodedQuery(b: seq<Byte>): Decoding<Command> {
    var (clientSeq, b) :- Num(8, b);
    var (accountId, b) :- Num(4, b);
    var (symbolId, b) :- Num(4, b);
    Got(QueryAccount(clientSeq, accountId, symbolId), b)
  }

  function DecodedBody(utf8: Utf8, mt: nat, b: seq<Byte>): Decoding<Command> {
    if mt == MT_NEW_ORDER then DecodedNew(b)
    else if mt == MT_CANCEL then DecodedCancel(b)
    else if mt == MT_REPLACE then DecodedReplace(b)
    else if mt == MT_SET_RISK_LIMITS then DecodedSetLimits(b)
    else if mt == MT_QUERY_ACCOUNT then DecodedQuery(b)
    else if mt == MT_AUTHENTICATE then
      var (apiKey, b) :- String(utf8, b);
      Got(Authenticate(apiKey), b)
    else Failed(UnknownType)
  }

  /** The command at the front of the input; what follows it is left unread. */
  function Decoded(utf8: Utf8, b: seq<Byte>): Decoding<Command> {
    if |b| < 2 then Failed(MissingType)
    else
      var (mt, b) :- Num(2, b);
      DecodedBody(utf8, mt, b)
  }

  lemma NewInverts(utf8: Utf8, no: NewOrder, tail: seq<Byte>)
    requires CommandFits(utf8, New(no))
    ensures DecodedBody(utf8, MT_NEW_ORDER, CommandBody(utf8, New(no), tail)) == Got(New(no), tail)
  {
    hide Num, SignedNum, U8, U32, U64, I64, Text;
    GettersInvert();
  }

  lemma OthersInvert(utf8: Utf8, cmd: Command, tail: seq<Byte>)
    requires Faithful(utf8) && CommandFits(utf8, cmd) && !cmd.New?
    ensures DecodedBody(utf8, CommandType(cmd), CommandBody(utf8, cmd, tail)) == Got(cmd, tail)
  {
    hide Num, SignedNum, String, U8, U32, U64, I64, Text, DecodedNew;
    GettersInvert();
    if cmd.Authenticate? {
      TextInvertsIffFits(utf8, cmd.apiKey, tail);
    }
  }

  lemma DecodedInverts(utf8: Utf8, cmd: Command, tail: seq<Byte>)
    requires Faithful(utf8) && CommandFits(utf8, cmd)
    ensures Decoded(utf8, CommandBytes(utf8, cmd, tail)) == Got(cmd, tail)
  {
    hide CommandBody, DecodedBody, DecodedNew;
    GettersInvert();
    if cmd.New? {
      NewInverts(utf8, cmd.no, tail);
    } else {
      OthersInvert(utf8, cmd, tail);
    }
  }

  /** What a getter returns is what its putter would have written in front of the rest. */
  lemma GettersAreSound()
    ensures forall b :: Num(1, b).Got? ==> b == U8(Num(1, b).value, Num(1, b).rest)
    ensures forall b :: Num(2, b).Got? ==> b == U16(Num(2, b).value, Num(2, b).rest)
    ensures forall b :: Num(4, b).Got? ==> IsU32(Num(4, b).value) && b == U32(Num(4, b).value, Num(4, b).rest)
    ensures forall b :: Num(8, b).Got? ==> IsU64(Num(8, b).value) && b == U64(Num(8, b).value, Num(8, b).rest)
  {
    Widths();
  }

  lemma TextIsSound(utf8: Utf8, b: seq<Byte>)
    requires Faithful(utf8) && String(utf8, b).Got?
    ensures TextFits(utf8, String(utf8, b).value) && b == Text(utf8, String(utf8, b).value, String(utf8, b).rest)
  {
    Widths();
    var r := Num(4, b);
    var s := String(utf8, b).value;
    assert utf8.decode(r.rest[..r.value]) == Some(s);
    assert utf8.encode(s) == r.rest[..r.value];
  }

  lemma NewIsSound(utf8: Utf8, b: seq<Byte>)
    requires DecodedNew(b).Got?
    ensures var r := DecodedNew(b);
            r.value.New? && CommandFits(utf8, r.value) && b == CommandBody(utf8, r.value, r.rest)
  {
    hide Num, SignedNum, U8, U32, U64, I64, IsU32, IsU64, IsI64;
    GettersAreSound();
  }

  /** What a body decodes to is what stood there. */
  lemma BodyIsSound(utf8: Utf8, mt: nat, b: seq<Byte>)
    requires Faithful(utf8) && DecodedBody(utf8, mt, b).Got?
    ensures var r := DecodedBody(utf8, mt, b);
            && mt == CommandType(r.value)
            && CommandFits(utf8, r.value)
            && b == CommandBody(utf8, r.value, r.rest)
  {
    hide Num, SignedNum, String, Text, U8, U32, U64, I64, IsU32, IsU64, IsI64, DecodedNew;
    GettersAreSound();
    if mt == MT_NEW_ORDER {
      NewIsSound(utf8, b);
    } else if mt == MT_AUTHENTICATE {
      TextIsSound(utf8, b);
    }
  }

  /** Decoding accepts exactly the inputs that begin with the encoding of a command whose fields fit,
      returns that command, and ignores what follows it. */
  lemma DecodedIff(utf8: Utf8, b: seq<Byte>, cmd: Command, tail: seq<Byte>)
    requires Faithful(utf8)
    ensures Decoded(utf8, b) == Got(cmd, tail) <==> CommandFits(utf8, cmd) && b == CommandBytes(utf8, cmd, tail)
  {
    hide CommandBody, DecodedBody;
    if Decoded(utf8, b) == Got(cmd, tail) {
      var t := Num(2, b);
      BodyIsSound(utf8, t.value, t.rest);
    }
    if CommandFits(utf8, cmd) && b == CommandBytes(utf8, cmd, tail) {
      DecodedInverts(utf8, cmd, tail);
    }
  }

  // ----- reading events back -----

  function ReadOptNum(b: seq<Byte>): Decoding<Option<nat>> {
    var (tag, b) :- Num(1, b);
    if tag == 0 then Got(None, b)
    else
      var (x, b) :- Num(8, b);
      Got(Some(x), b)
  }

  function ReadOptI64(b: seq<Byte>): Decoding<Option<int>> {
    var (tag, b) :- Num(1, b);
    if tag == 0 then Got(None, b)
    else
      var (x, b) :- SignedNum(b);
      Got(Some(x), b)
  }

  function ReasonOf(n: nat): RejectReason {
    match n
    case 1 => Invalid
    case 2 => Risk
    case 3 => Overloaded
    case 4 => NotFound
    case 5 => PostOnlyWouldCross
    case _ => RateLimitExceeded
  }

  function ReadFill(b: seq<Byte>): Decoding<Event> {
    var (s, b) :- Num(8, b);
    var (c, b) :- Num(8, b);
    var (symbolId, b) :- Num(4, b);
    var (taker, b) :- Num(8, b);
    var (maker, b) :- Num(8, b);
    var (price, b) :- SignedNum(b);
    var (qty, b) :- SignedNum(b);
    Got(Filled(Fill(s, c, symbolId, taker, maker, price, qty)), b)
  }

  function ReadBookTop(b: seq<Byte>): Decoding<Event> {
    var (s, b) :- Num(8, b);
    var (symbolId, b) :- Num(4, b);
    var (bidPx, b) :- ReadOptI64(b);
    var (bidQty, b) :- ReadOptI64(b);
    var (askPx, b) :- ReadOptI64(b);
    var (askQty, b) :- ReadOptI64(b);
    Got(BookTop(s, symbolId, bidPx, bidQty, askPx, askQty), b)
  }

  function ReadAccountState(b: seq<Byte>): Decoding<Event> {
    var (s, b) :- Num(8, b);
    var (c, b) :- Num(8, b);
    var (a, b) :- Num(4, b);
    var (symbolId, b) :- Num(4, b);
    var (net, b) :- SignedNum(b);
    var (avgPrice, b) :- SignedNum(b);
    var (realizedPnl, b) :- SignedNum(b);
    var (limits, b) :- DecodedLimits(b);
    Got(AccountState(s, c, a, symbolId, Position(net, avgPrice, realizedPnl), limits), b)
  }

  function ReadAck(b: seq<Byte>): Decoding<Event> {
    var (s, b) :- Num(8, b);
    var (c, b) :- Num(8, b);
    var (id, b) :- Num(8, b);
    Got(Ack(s, c, id), b)
  }

  function ReadReject(b: seq<Byte>): Decoding<Event> {
    var (s, b) :- Num(8, b);
    var (c, b) :- Num(8, b);
    var (reason, b) :- Num(1, b);
    var (id, b) :- ReadOptNum(b);
    Got(Reject(s, c, id, ReasonOf(reason)), b)
  }

  function ReadBody(utf8: Utf8, mt: nat, b: seq<Byte>): Decoding<Event> {
    if mt == MT_ACK then ReadAck(b)
    else if mt == MT_REJECT then ReadReject(b)
    else if mt == MT_FILL then ReadFill(b)
    else if mt == MT_BOOK_TOP then ReadBookTop(b)
    else if mt == MT_ACCOUNT_STATE then ReadAccountState(b)
    else if mt == MT_AUTH_SUCCESS then
      var (a, b) :- Num(4, b);
      Got(AuthSuccess(a), b)
    else if mt == MT_AUTH_FAILURE then
      var (failure, b) :- String(utf8, b);
      Got(AuthFailure(failure), b)
    else Failed(UnknownType)
  }

  /** A reader for every event of the format: it witnesses that nothing is lost on the wire. */
  function ReadBack(utf8: Utf8, b: seq<Byte>): Decoding<Event> {
    var (mt, b) :- Num(2, b);
    ReadBody(utf8, mt, b)
  }

  lemma OptionsInvert()
    ensures forall x: Option<int>, tail :: OptFits(x) ==> ReadOptI64(OptI64(x, tail)) == Got(x, tail)
  {
    hide Num, SignedNum, U8, I64;
    GettersInvert();
  }

  lemma LongBodyReadsBack(utf8: Utf8, ev: Event, tail: seq<Byte>)
    requires EventInRange(ev) && (ev.Filled? || ev.BookTop? || ev.AccountState?)
    ensures ReadBody(utf8, EventType(ev), EventBody(utf8, ev, tail)) == Got(ev, tail)
  {
    hide Num, SignedNum, U8, U32, U64, I64, OptI64, ReadOptI64, ReadAck, ReadReject;
    GettersInvert();
    OptionsInvert();
  }

  /** Every event body can be read back. */
  lemma BodyReadsBack(utf8: Utf8, ev: Event, tail: seq<Byte>)
    requires Faithful(utf8) && EventFits(utf8, ev)
    ensures ReadBody(utf8, EventType(ev), EventBody(utf8, ev, tail)) == Got(ev, tail)
  {
    hide Num, SignedNum, U8, U32, U64, I64, OptI64, Text, String, Faithful, ReadFill, ReadBookTop, ReadAccountState;
    GettersInvert();
    if ev.Filled? || ev.BookTop? || ev.AccountState? {
      LongBodyReadsBack(utf8, ev, tail);
    } else if ev.AuthFailure? {
      TextInvertsIffFits(utf8, ev.failure, tail);
    }
  }

  lemma ReadBackInverts(utf8: Utf8, ev: Event, tail: seq<Byte>)
    requires Faithful(utf8) && EventFits(utf8, ev)
    ensures ReadBack(utf8, EventBytes(utf8, ev, tail)) == Got(ev, tail)
  {
    hide ReadBody, EventBody, Num, U16;
    GettersInvert();
    BodyReadsBack(utf8, ev, tail);
  }

  /** Two events never share an encoding, and none's is the beginning of another's: a stream of events
      can be cut up in one way only. */
  lemma EventsArePrefixFree(utf8: Utf8, a: Event, x: seq<Byte>, b: Event, y: seq<Byte>)
    requires Faithful(utf8) && EventFits(utf8, a) && EventFits(utf8, b)
    requires EventBytes(utf8, a, x) == EventBytes(utf8, b, y)
    ensures a == b && x == y
  {
    ReadBackInverts(utf8, a, x);
    ReadBackInverts(utf8, b, y);
  }
}
