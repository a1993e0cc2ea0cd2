/** The command journal: framed, checksummed, written in batches, and read back up to a torn tail. */
module Journals {
  import opened Common
  import opened Bytes

  /** Serialization and checksum, which the journal takes from elsewhere. */
  datatype Format = Format(
    encode: Command -> seq<Byte>,
    decode: seq<Byte> -> Option<Command>,
    crc: seq<Byte> -> nat)

  const MAX_FRAME := 10 * 1024 * 1024

  /** Decoding inverts encoding, and a checksum has 32 bits. */
  ghost predicate Faithful(fmt: Format) {
    && (forall c :: fmt.decode(fmt.encode(c)) == Some(c))
    && (forall bs :: fmt.crc(bs) < U32_LIMIT)
  }

  /** The payload's length can be written in 32 bits. */
  predicate Framable(fmt: Format, cmd: Command) {
    |fmt.encode(cmd)| < U32_LIMIT
  }

  predicate Fits(fmt: Format, cmd: Command) {
    |fmt.encode(cmd)| <= MAX_FRAME
  }

  predicate AllFit(fmt: Format, cmds: seq<Command>) {
    forall i :: 0 <= i < |cmds| ==> Fits(fmt, cmds[i])
  }

  /** Length, payload, checksum. */
  function Frame(fmt: Format, cmd: Command): (bs: seq<Byte>)
    ensures |bs| == |fmt.encode(cmd)| + 8
  {
    var payload := fmt.encode(cmd);
    ToLE(4, |payload|) + payload + ToLE(4, fmt.crc(payload))
  }

  function Frames(fmt: Format, cmds: seq<Command>): seq<Byte> {
    if cmds == [] then [] else Frame(fmt, cmds[0]) + Frames(fmt, cmds[1..])
  }

  datatype ReadResult = Commands(cmds: seq<Command>) | Corrupt

  /** What one look at the rest of the file finds. */
  datatype Look = Stop | Bad | Next(cmd: Command, size: nat)

  function LookAt(fmt: Format, bs: seq<Byte>): (r: Look)
    ensures r.Next? ==> 0 < r.size <= |bs|
  {
    if |bs| < 4 then Stop
    else
      var len := FromLE(bs[..4]);
      if len > MAX_FRAME || |bs| < 4 + len then Bad
      else if |bs| < 8 + len || FromLE(bs[4 + len..8 + len]) != fmt.crc(bs[4..4 + len]) then Stop
      else
        match fmt.decode(bs[4..4 + len])
        case None => Bad
        case Some(cmd) => Next(cmd, 8 + len)
  }

  /** Reading stops quietly at a missing or wrong checksum and fails on a bad length or payload. */
  function ReadFrom(fmt: Format, bs: seq<Byte>): ReadResult
    decreases |bs|
  {
    match LookAt(fmt, bs)
    case Stop => Commands([])
    case Bad => Corrupt
    case Next(cmd, size) =>
      match ReadFrom(fmt, bs[size..])
      case Corrupt => Corrupt
      case Commands(cs) => Commands([cmd] + cs)
  }

  /** How many leading frames fit into `room` bytes. */
  function Fitting(fmt: Format, cmds: seq<Command>, room: nat): (n: nat)
    ensures n <= |cmds|
  {
    if cmds == [] || |Frame(fmt, cmds[0])| > room then 0
    else 1 + Fitting(fmt, cmds[1..], room - |Frame(fmt, cmds[0])|)
  }

  /** As much of the bytes as there is room for. */
  function Written(bs: seq<Byte>, room: nat): seq<Byte> {
    if |bs| <= room then bs else bs[..room]
  }

  function Prepend(cmds: seq<Command>, r: ReadResult): ReadResult {
    match r
    case Corrupt => Corrupt
    case Commands(cs) => Commands(cmds + cs)
  }

  lemma PrependMore(out: seq<Command>, cmd: Command, r: ReadResult)
    ensures Prepend(out, Prepend([cmd], r)) == Prepend(out + [cmd], r)
  {
    if r.Commands? {
      assert out + ([cmd] + r.cmds) == out + [cmd] + r.cmds;
    }
  }

  lemma {:induction false} FramesConcat(fmt: Format, a: seq<Command>, b: seq<Command>)
    ensures Frames(fmt, a + b) == Frames(fmt, a) + Frames(fmt, b)
  {
    if a == [] {
      assert a + b == b;
    } else {
      assert (a + b)[1..] == a[1..] + b;
      FramesConcat(fmt, a[1..], b);
    }
  }

  lemma FramesOne(fmt: Format, cmd: Command)
    ensures Frames(fmt, [cmd]) == Frame(fmt, cmd)
  {
    assert Frames(fmt, [cmd][1..]) == [];
  }

  lemma FramesNone(fmt: Format)
    ensures Frames(fmt, []) == [] && forall room: nat :: Fitting(fmt, [], room) == 0
  {
  }

  /** The frames before one, that one, and the rest. */
  lemma FramesSplit(fmt: Format, cmds: seq<Command>, i: nat)
    requires i < |cmds|
    ensures Frames(fmt, cmds[..i + 1]) == Frames(fmt, cmds[..i]) + Frame(fmt, cmds[i])
    ensures Frames(fmt, cmds) == Frames(fmt, cmds[..i]) + (Frame(fmt, cmds[i]) + Frames(fmt, cmds[i + 1..]))
  {
    hide Frame;
    assert cmds[..i + 1] == cmds[..i] + [cmds[i]];
    FramesConcat(fmt, cmds[..i], [cmds[i]]);
    FramesOne(fmt, cmds[i]);
    assert cmds == cmds[..i] + cmds[i..] && cmds[i..][1..] == cmds[i + 1..];
    FramesConcat(fmt, cmds[..i], cmds[i..]);
  }

  lemma FittingNext(fmt: Format, cmds: seq<Command>, i: nat, left: nat)
    requires i < |cmds|
    ensures Fitting(fmt, cmds[i..], left)
         == if |Frame(fmt, cmds[i])| > left then 0 else 1 + Fitting(fmt, cmds[i + 1..], left - |Frame(fmt, cmds[i])|)
  {
    assert cmds[i..][1..] == cmds[i + 1..];
  }

  class Journal {
    const fmt: Format
    const batchSize: nat
    const rotationThreshold: nat
    var file: seq<Byte>
    var batch: seq<Command>
    var commandsWritten: nat
    var commandsSinceRotation: nat
    ghost var found: seq<Byte>
    ghost var written: seq<Command>

    ghost predicate Valid()
      reads this
    {
      file == found + Frames(fmt, written)
    }

    /** Every command appended since the file was opened or rotated or a write last failed, in order: those in
        the file, then those still buffered. */
    ghost function Log(): seq<Command>
      reads this
    {
      written + batch
    }

    /** Opens the file for appending behind whatever it holds. */
    constructor (fmt: Format, batchSize: nat, rotationThreshold: nat, file: seq<Byte>)
      ensures Valid() && Log() == [] && batch == []
      ensures this.fmt == fmt && this.batchSize == batchSize && this.rotationThreshold == rotationThreshold
      ensures this.file == found == file && commandsWritten == commandsSinceRotation == 0
    {
      this.fmt, this.batchSize, this.rotationThreshold := fmt, batchSize, rotationThreshold;
      this.file, batch, commandsWritten, commandsSinceRotation := file, [], 0, 0;
      found, written := file, [];
    }

    predicate FlushIsDue(expired: bool)
      reads this
    {
      |batch| + 1 >= batchSize || expired
    }

    /** How many commands will have been written since the last rotation once this one is appended. */
    function CountAfter(cmd: Command, expired: bool, room: nat): nat
      reads this
    {
      commandsSinceRotation + if FlushIsDue(expired) then Fitting(fmt, batch + [cmd], room) else 0
    }

    /** `expired` says whether the flush interval has passed, and `room` how many bytes can still be written. */
    method Append(cmd: Command, expired: bool, room: nat) returns (ok: bool)
      requires Valid()
      modifies this
      ensures Valid()
      ensures ok <==> old(FlushIsDue(expired)) ==> |Frames(fmt, old(batch) + [cmd])| <= room
      ensures batch == if old(FlushIsDue(expired)) then [] else old(batch) + [cmd]
      ensures batch == [] || |batch| < batchSize
      ensures expired ==> batch == []
      ensures !expired && |old(batch)| + 1 < batchSize ==> ok && file == old(file) && batch == old(batch) + [cmd]
      ensures ok ==> Log() == old(Log()) + [cmd] && found == old(found)
      ensures !ok ==> Log() == [] && file == found == old(file) + Frames(fmt, old(batch) + [cmd])[..room]
      ensures commandsSinceRotation == old(CountAfter(cmd, expired, room))
    {
      batch := batch + [cmd];
      assert Log() == old(Log()) + [cmd];
      ok := true;
      if |batch| >= batchSize || expired {
        ok := Flush(room);
      }
    }

    /** The buffer is emptied first. When a write fails, what did not fit is lost, and what is in the file stays
        there like the torn tail of a crash. */
    method Flush(room: nat) returns (ok: bool)
      requires Valid()
      modifies this
      ensures Valid() && batch == []
      ensures ok <==> |Frames(fmt, old(batch))| <= room
      ensures file == old(file) + Written(Frames(fmt, old(batch)), room)
      ensures ok ==> Log() == old(Log()) && found == old(found)
      ensures !ok ==> Log() == [] && found == file
      ensures commandsWritten == old(commandsWritten) + Fitting(fmt, old(batch), room)
      ensures commandsSinceRotation == old(commandsSinceRotation) + Fitting(fmt, old(batch), room)
    {
      hide Frames, Fitting, Frame;
      FramesNone(fmt);
      if batch == [] {
        return true;
      }
      var commands := batch;
      var left: nat := room;
      batch := [];
      for i := 0 to |commands|
        invariant Valid() && batch == [] && found == old(found)
        invariant written == old(written) + commands[..i]
        invariant file == old(file) + Frames(fmt, commands[..i])
        invariant room == left + |Frames(fmt, commands[..i])|
        invariant Fitting(fmt, commands, room) == i + Fitting(fmt, commands[i..], left)
        invariant commandsWritten == old(commandsWritten) + i
        invariant commandsSinceRotation == old(commandsSinceRotation) + i
      {
        FramesSplit(fmt, commands, i);
        FittingNext(fmt, commands, i, left);
        ok := WriteFrame(commands[i], left);
        if !ok {
          found, written := file, [];
          return;
        }
        FramesConcat(fmt, written, [commands[i]]);
        FramesOne(fmt, commands[i]);
        left := left - |Frame(fmt, commands[i])|;
        commandsWritten := commandsWritten + 1;
        commandsSinceRotation := commandsSinceRotation + 1;
        written := written + [commands[i]];
      }
      assert commands[..|commands|] == commands && commands[|commands|..] == [];
      return true;
    }

    /** Three writes: the length, the payload, the checksum. */
    method WriteFrame(cmd: Command, room: nat) returns (ok: bool)
      modifies this`file
      ensures ok <==> |Frame(fmt, cmd)| <= room
      ensures file == old(file) + Written(Frame(fmt, cmd), room)
    {
      var payload := fmt.encode(cmd);
      var left;
      ok, left := Write(ToLE(4, |payload|), room);
      if !ok {
        return;
      }
      ok, left := Write(payload, left);
      if !ok {
        return;
      }
      ok, left := Write(ToLE(4, fmt.crc(payload)), left);
    }

    /** Writes all of it or, when room runs out, the part that fits. */
    method Write(bs: seq<Byte>, room: nat) returns (ok: bool, left: nat)
      modifies this`file
      ensures ok <==> |bs| <= room
      ensures file == old(file) + Written(bs, room)
      ensures left == if ok then room - |bs| else 0
    {
      ok := |bs| <= room;
      if ok {
        file := file + bs;
        left := room - |bs|;
      } else {
        file := file + bs[..room];
        left := 0;
      }
    }

    /** After this many commands a rotation is due. */
    predicate RotatesAt(count: nat) {
      rotationThreshold > 0 && count >= rotationThreshold
    }

    /** The flushed file is set aside and a new one started; if the flush fails, there is no rotation. */
    method Rotate(room: nat) returns (backup: Option<seq<Byte>>)
      requires Valid()
      modifies this
      ensures Valid() && Log() == [] && batch == []
      ensures backup.Some? <==> |Frames(fmt, old(batch))| <= room
      ensures backup.Some? ==> backup.value == old(found) + Frames(fmt, old(Log())) && file == found == []
      ensures backup.None? ==> file == found == old(file) + Frames(fmt, old(batch))[..room]
      ensures commandsSinceRotation
           == if backup.Some? then 0 else old(commandsSinceRotation) + Fitting(fmt, old(batch), room)
    {
      var ok := Flush(room);
      if !ok {
        return None;
      }
      assert written == Log();
      backup := Some(file);
      file, found, written, commandsSinceRotation := [], [], [], 0;
    }

    method ReadAll() returns (r: ReadResult)
      ensures r == ReadFrom(fmt, file)
    {
      var out: seq<Command> := [];
      var offset := 0;
      while true
        invariant 0 <= offset <= |file|
        invariant ReadFrom(fmt, file) == Prepend(out, ReadFrom(fmt, file[offset..]))
        decreases |file| - offset
      {
        var rest := file[offset..];
        if |rest| < 4 {
          break;
        }
        var len := FromLE(rest[..4]);
        if len > MAX_FRAME {
          return Corrupt;
        }
        if |rest| < 4 + len {
          return Corrupt;
        }
        var buf := rest[4..4 + len];
        if |rest| < 8 + len {
          break;
        }
        var expectedCrc := FromLE(rest[4 + len..8 + len]);
        if fmt.crc(buf) != expectedCrc {
          break;
        }
        var decoded := fmt.decode(buf);
        if decoded.None? {
          return Corrupt;
        }
        assert LookAt(fmt, rest) == Next(decoded.value, 8 + len);
        PrependMore(out, decoded.value, ReadFrom(fmt, rest[8 + len..]));
        assert rest[8 + len..] == file[offset + 8 + len..];
        out := out + [decoded.value];
        offset := offset + 8 + len;
      }
      return Commands(out);
    }
  }

  // ----- reading back -----

  lemma LookAtFrame(fmt: Format, cmd: Command, rest: seq<Byte>)
    requires Faithful(fmt) && Framable(fmt, cmd)
    ensures LookAt(fmt, Frame(fmt, cmd) + rest) == if Fits(fmt, cmd) then Next(cmd, |Frame(fmt, cmd)|) else Bad
  {
    var payload := fmt.encode(cmd);
    var bs := Frame(fmt, cmd) + rest;
    var len := |payload|;
    U32RoundTrip(len);
    U32RoundTrip(fmt.crc(payload));
    assert bs[..4] == ToLE(4, len);
    assert bs[4..4 + len] == payload;
    assert bs[4 + len..8 + len] == ToLE(4, fmt.crc(payload));
  }

  /** The file reads back as the commands written exactly when each of them fits the frame limit. */
  lemma {:induction false} ReadBackIffFits(fmt: Format, cmds: seq<Command>)
    requires Faithful(fmt) && forall i :: 0 <= i < |cmds| ==> Framable(fmt, cmds[i])
    ensures ReadFrom(fmt, Frames(fmt, cmds)) == if AllFit(fmt, cmds) then Commands(cmds) else Corrupt
  {
    if cmds != [] {
      var rest := Frames(fmt, cmds[1..]);
      LookAtFrame(fmt, cmds[0], rest);
      ReadBackIffFits(fmt, cmds[1..]);
      assert (Frame(fmt, cmds[0]) + rest)[|Frame(fmt, cmds[0])|..] == rest;
      assert AllFit(fmt, cmds) <==> Fits(fmt, cmds[0]) && AllFit(fmt, cmds[1..]);
      assert cmds == [cmds[0]] + cmds[1..];
    }
  }

  /** A frame cut short is an error exactly while its length is readable and its payload is not complete. */
  lemma LookAtTornFrame(fmt: Format, cmd: Command, n: nat)
    requires Faithful(fmt) && Fits(fmt, cmd) && n < |Frame(fmt, cmd)|
    ensures LookAt(fmt, Frame(fmt, cmd)[..n]) == if 4 <= n < 4 + |fmt.encode(cmd)| then Bad else Stop
  {
    var len := |fmt.encode(cmd)|;
    var bs := Frame(fmt, cmd)[..n];
    if n >= 4 {
      U32RoundTrip(len);
      assert bs[..4] == ToLE(4, len);
    }
  }

  /** Where a cut after `n` bytes falls: `whole` frames before it and `r` bytes into the next one. */
  predicate CutAt(fmt: Format, cmds: seq<Command>, n: nat, whole: nat, r: nat) {
    && whole < |cmds|
    && n == |Frames(fmt, cmds[..whole])| + r
    && r < |Frame(fmt, cmds[whole])|
  }

  lemma {:induction false} FindCut(fmt: Format, cmds: seq<Command>, n: nat) returns (whole: nat, r: nat)
    requires n < |Frames(fmt, cmds)|
    ensures CutAt(fmt, cmds, n, whole, r)
  {
    var first := |Frame(fmt, cmds[0])|;
    if n < first {
      whole, r := 0, n;
      assert Frames(fmt, cmds[..0]) == [];
    } else {
      whole, r := FindCut(fmt, cmds[1..], n - first);
      assert cmds[..whole + 1] == [cmds[0]] + cmds[1..][..whole];
      FramesConcat(fmt, [cmds[0]], cmds[1..][..whole]);
      FramesOne(fmt, cmds[0]);
      whole := whole + 1;
    }
  }

  lemma PrependNone(r: ReadResult)
    ensures Prepend([], r) == r
  {
    if r.Commands? {
      assert [] + r.cmds == r.cmds;
    }
  }

  lemma PrependFirst(cmds: seq<Command>, r: ReadResult)
    requires cmds != []
    ensures Prepend([cmds[0]], Prepend(cmds[1..], r)) == Prepend(cmds, r)
  {
    if r.Commands? {
      assert [cmds[0]] + (cmds[1..] + r.cmds) == cmds + r.cmds;
    }
  }

  /** Whole frames at the front are read, whatever follows. */
  lemma {:induction false} WholeFrames(fmt: Format, cmds: seq<Command>, tail: seq<Byte>)
    requires Faithful(fmt) && AllFit(fmt, cmds)
    ensures ReadFrom(fmt, Frames(fmt, cmds) + tail) == Prepend(cmds, ReadFrom(fmt, tail))
  {
    if cmds == [] {
      assert Frames(fmt, cmds) + tail == tail;
      PrependNone(ReadFrom(fmt, tail));
    } else {
      var f, rest := Frame(fmt, cmds[0]), Frames(fmt, cmds[1..]) + tail;
      assert Frames(fmt, cmds) + tail == f + rest;
      LookAtFrame(fmt, cmds[0], rest);
      assert (f + rest)[|f|..] == rest;
      WholeFrames(fmt, cmds[1..], tail);
      PrependFirst(cmds, ReadFrom(fmt, tail));
    }
  }

  /** A cut file is its whole frames and then the torn one. */
  lemma CutSplits(fmt: Format, cmds: seq<Command>, n: nat, whole: nat, r: nat)
    requires CutAt(fmt, cmds, n, whole, r)
    ensures n <= |Frames(fmt, cmds)|
    ensures Frames(fmt, cmds)[..n] == Frames(fmt, cmds[..whole]) + Frame(fmt, cmds[whole])[..r]
  {
    var before, f, after := Frames(fmt, cmds[..whole]), Frame(fmt, cmds[whole]), Frames(fmt, cmds[whole..][1..]);
    assert cmds == cmds[..whole] + cmds[whole..];
    FramesConcat(fmt, cmds[..whole], cmds[whole..]);
    assert Frames(fmt, cmds) == before + (f + after);
    assert (before + (f + after))[..n] == before + f[..r];
  }

  /** A journal cut off after any number of bytes reads as the commands whose frames are whole, or as
      an error exactly when the cut lies after a length header and before the end of its payload. */
  lemma TornTail(fmt: Format, cmds: seq<Command>, n: nat, whole: nat, r: nat)
    requires Faithful(fmt) && AllFit(fmt, cmds) && CutAt(fmt, cmds, n, whole, r)
    ensures n <= |Frames(fmt, cmds)|
    ensures ReadFrom(fmt, Frames(fmt, cmds)[..n])
         == if 4 <= r < 4 + |fmt.encode(cmds[whole])| then Corrupt else Commands(cmds[..whole])
  {
    CutSplits(fmt, cmds, n, whole, r);
    WholeFrames(fmt, cmds[..whole], Frame(fmt, cmds[whole])[..r]);
    LookAtTornFrame(fmt, cmds[whole], r);
  }

  // ----- appending behind a torn file -----

  /** The reader takes the torn frame, completed by bytes of what was appended, for a frame: its length and
      checksum happen to be right and it decodes. */
  predicate Mistaken(fmt: Format, torn: seq<Byte>, appended: seq<Byte>) {
    torn != [] && LookAt(fmt, torn + appended).Next?
  }

  /** A torn journal is reopened and appended to: what is read is what was whole before the cut and then, if the
      cut fell between two frames, what was appended; otherwise whatever the torn frame, completed by bytes of
      the new ones, makes the reader do. */
  lemma ReopenedReads(fmt: Format, cmds: seq<Command>, n: nat, whole: nat, r: nat, more: seq<Command>)
    requires Faithful(fmt) && AllFit(fmt, cmds) && AllFit(fmt, more) && CutAt(fmt, cmds, n, whole, r)
    ensures n <= |Frames(fmt, cmds)|
    ensures var rest := Frame(fmt, cmds[whole])[..r] + Frames(fmt, more);
            ReadFrom(fmt, Frames(fmt, cmds)[..n] + Frames(fmt, more))
            == if r == 0 then Commands(cmds[..whole] + more)
               else match LookAt(fmt, rest)
                    case Stop => Commands(cmds[..whole])
                    case Bad => Corrupt
                    case Next(cmd, size) => Prepend(cmds[..whole] + [cmd], ReadFrom(fmt, rest[size..]))
  {
    hide LookAt, Frame, Frames, Faithful;
    var before, torn, appended := cmds[..whole], Frame(fmt, cmds[whole])[..r], Frames(fmt, more);
    CutSplits(fmt, cmds, n, whole, r);
    assert Frames(fmt, cmds)[..n] + appended == Frames(fmt, before) + (torn + appended);
    WholeFrames(fmt, before, torn + appended);
    if r == 0 {
      assert torn + appended == appended;
      ReadBackIffFits(fmt, more);
    } else {
      match LookAt(fmt, torn + appended) {
        case Next(cmd, size) => PrependMore(before, cmd, ReadFrom(fmt, (torn + appended)[size..]));
        case _ => assert before + [] == before;
      }
    }
  }

  /** A torn journal is reopened and appended to. The commands whose frames were whole are read as before;
      the new ones are read as well exactly when the cut fell between two frames. Otherwise they are
      lost, all of them. */
  lemma ReopenedReadsIffWhole(fmt: Format, cmds: seq<Command>, n: nat, whole: nat, r: nat, more: seq<Command>)
    requires Faithful(fmt) && AllFit(fmt, cmds) && AllFit(fmt, more) && more != []
    requires CutAt(fmt, cmds, n, whole, r)
    requires !Mistaken(fmt, Frame(fmt, cmds[whole])[..r], Frames(fmt, more))
    ensures n <= |Frames(fmt, cmds)|
    ensures var read := ReadFrom(fmt, Frames(fmt, cmds)[..n] + Frames(fmt, more));
            && (read == Commands(cmds[..whole] + more) <==> r == 0)
            && (r != 0 ==> read == Corrupt || read == Commands(cmds[..whole]))
  {
    hide LookAt, Frame, Frames, Faithful;
    ReopenedReads(fmt, cmds, n, whole, r, more);
    assert |cmds[..whole] + more| > |cmds[..whole]|;
  }
}
