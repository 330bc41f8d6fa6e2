/**
 The receiving half: `_read_exact` over `recv` chunks, `_recv_json` up to the JSON, and `cmd`.
 `Receive` says what a byte stream comes to; `Wire` is what a server puts on the line.
 */
module WebSocketReader {
  import opened Options
  import opened WebSocket

  const PING := 9
  const CLOSE := 8
  const PONG: Bytes := [0x8A, 0x80, 0, 0, 0, 0]

  // ----- What a server puts on the line -----

  /** One frame as it travels. `reserved` and `top` are the bits this reader never looks at. */
  datatype Frame = Frame(fin: bool, reserved: nat, opcode: nat, top: bool, form: Form, payload: Bytes)

  predicate FrameOk(f: Frame) {
    f.reserved < 8 && f.opcode < 16 && Fits(f.form, |f.payload|)
  }

  function FirstByte(f: Frame): (b: Byte)
    requires FrameOk(f)
    ensures Opcode(b) == f.opcode && IsFinal(b) == f.fin
  {
    (if f.fin then 128 else 0) + 16 * f.reserved + f.opcode
  }

  function Opcode(b: Byte): nat { b % 16 }

  predicate IsFinal(b: Byte) { b >= 128 }

  function WireOne(f: Frame): Bytes
    requires FrameOk(f)
  {
    [FirstByte(f)] + LengthBytes(f.form, |f.payload|, f.top) + f.payload
  }

  predicate FramesOk(fs: seq<Frame>) { forall i :: 0 <= i < |fs| ==> FrameOk(fs[i]) }

  function Wire(fs: seq<Frame>): Bytes
    requires FramesOk(fs)
  {
    if fs == [] then [] else WireOne(fs[0]) + Wire(fs[1..])
  }

  /** The frames of one message: fragments, the last of them final, with pings anywhere before the end. Opcode 9 is a
      ping and 8 a close (section 5.2 of RFC 6455); any other counts as data here, as it does in the code. */
  predicate OneMessage(fs: seq<Frame>) {
    && FramesOk(fs) && fs != []
    && (forall i :: 0 <= i < |fs| ==> fs[i].opcode != 0x8)
    && (forall i :: 0 <= i < |fs| - 1 ==> fs[i].opcode == 0x9 || !fs[i].fin)
    && fs[|fs| - 1].opcode != 0x9 && fs[|fs| - 1].fin
  }

  function Payloads(fs: seq<Frame>): Bytes {
    if fs == [] then [] else (if fs[0].opcode == 0x9 then [] else fs[0].payload) + Payloads(fs[1..])
  }

  function Pings(fs: seq<Frame>): nat {
    if fs == [] then 0 else (if fs[0].opcode == 0x9 then 1 else 0) + Pings(fs[1..])
  }

  // ----- What the reader makes of a stream -----

  datatype Read = Read(first: Byte, payload: Bytes, rest: Bytes)

  function ReadFrame(s: Bytes): Option<Read> {
    if s == [] then None
    else
      match ReadLength(s[1..])
      case None => None
      case Some(Length(_, length, rest)) =>
        if |rest| < length then None else Some(Read(s[0], rest[..length], rest[length..]))
  }

  datatype Answer = Message(payload: Bytes) | Eof | ClosedByServer
  datatype Received = Received(answer: Answer, pongs: nat, rest: Bytes)

  function Receive(s: Bytes, message: Bytes): (r: Received)
    ensures r.answer.Message? ==> |r.rest| < |s|
    decreases |s|
  {
    match ReadFrame(s)
    case None => Received(Eof, 0, [])
    case Some(Read(first, payload, rest)) =>
      if Opcode(first) == PING then
        var r := Receive(rest, message);
        r.(pongs := r.pongs + 1)
      else if Opcode(first) == CLOSE then Received(ClosedByServer, 0, rest)
      else if IsFinal(first) then Received(Message(message + payload), 0, rest)
      else Receive(rest, message + payload)
  }

  lemma ReadFrameOfWire(f: Frame, suffix: Bytes)
    requires FrameOk(f)
    ensures ReadFrame(WireOne(f) + suffix) == Some(Read(FirstByte(f), f.payload, suffix))
  {
    var header := LengthBytes(f.form, |f.payload|, f.top);
    FrameLayout(FirstByte(f), header, f.payload, suffix);
    LengthRoundTrip(f.form, |f.payload|, f.top, f.payload + suffix);
    ReadBehindHeader([FirstByte(f)] + header + f.payload + suffix, f.form, f.payload, suffix);
  }

  lemma FrameLayout(first: Byte, header: Bytes, payload: Bytes, suffix: Bytes)
    ensures var s := [first] + header + payload + suffix; s[0] == first && s[1..] == header + (payload + suffix)
  {
  }

  lemma ReadBehindHeader(s: Bytes, form: Form, payload: Bytes, suffix: Bytes)
    requires s != [] && ReadLength(s[1..]) == Some(Length(form, |payload|, payload + suffix))
    ensures ReadFrame(s) == Some(Read(s[0], payload, suffix))
  {
    assert (payload + suffix)[..|payload|] == payload && (payload + suffix)[|payload|..] == suffix;
  }

  /** What is kept of the message so far once `f` has arrived. */
  function Joining(message: Bytes, f: Frame): Bytes {
    if f.opcode == PING then message else message + f.payload
  }

  lemma ReceiveOne(f: Frame, suffix: Bytes, message: Bytes)
    requires FrameOk(f) && f.opcode != CLOSE
    ensures Receive(WireOne(f) + suffix, message) ==
            if f.opcode != PING && f.fin then Received(Message(message + f.payload), 0, suffix)
            else var r := Receive(suffix, Joining(message, f));
              r.(pongs := r.pongs + if f.opcode == PING then 1 else 0)
  {
    ReadFrameOfWire(f, suffix);
  }

  /** Any fragments, pings in between and length forms: the message is the fragments joined, every ping
      gets one pong, and the bytes after the final frame are left. */
  lemma {:induction false} ReceiveReadsTheMessage(fs: seq<Frame>, suffix: Bytes, message: Bytes)
    requires OneMessage(fs)
    ensures Receive(Wire(fs) + suffix, message) == Delivered(fs, suffix, message)
    decreases |fs|
  {
    WireAppend(fs, suffix);
    ReceiveOne(fs[0], Wire(fs[1..]) + suffix, message);
    if fs[1..] == [] {
      DeliveredLast(fs, suffix, message);
    } else {
      OneMessageShrinks(fs);
      ReceiveReadsTheMessage(fs[1..], suffix, Joining(message, fs[0]));
      DeliveredEarlier(fs, suffix, message);
    }
  }

  function Delivered(fs: seq<Frame>, suffix: Bytes, message: Bytes): Received {
    Received(Message(message + Payloads(fs)), Pings(fs), suffix)
  }

  lemma DeliveredLast(fs: seq<Frame>, suffix: Bytes, message: Bytes)
    requires OneMessage(fs) && fs[1..] == []
    ensures Delivered(fs, suffix, message) == Received(Message(message + fs[0].payload), 0, Wire(fs[1..]) + suffix)
    ensures fs[0].opcode != PING && fs[0].fin
  {
    assert Wire(fs[1..]) + suffix == suffix;
    assert |fs| - 1 == 0;
    assert Payloads(fs) == fs[0].payload + Payloads(fs[1..]) == fs[0].payload;
    assert Pings(fs) == Pings(fs[1..]) == 0;
  }

  lemma DeliveredEarlier(fs: seq<Frame>, suffix: Bytes, message: Bytes)
    requires fs != []
    ensures var r := Delivered(fs[1..], suffix, Joining(message, fs[0]));
            Delivered(fs, suffix, message) == r.(pongs := r.pongs + if fs[0].opcode == PING then 1 else 0)
  {
    assert Joining(message, fs[0]) + Payloads(fs[1..]) == message + Payloads(fs);
  }

  lemma WireAppend(fs: seq<Frame>, suffix: Bytes)
    requires FramesOk(fs) && fs != []
    ensures Wire(fs) + suffix == WireOne(fs[0]) + (Wire(fs[1..]) + suffix)
  {
  }

  lemma OneMessageShrinks(fs: seq<Frame>)
    requires OneMessage(fs) && fs[1..] != []
    ensures OneMessage(fs[1..]) && (fs[0].opcode == PING || !fs[0].fin)
  {
    var tail := fs[1..];
    assert forall i :: 0 <= i < |tail| ==> tail[i] == fs[i + 1];
  }

  /** The frame a read consumed, bits it ignored included. */
  function FrameOf(s: Bytes): (f: Frame)
    requires ReadFrame(s).Some?
  {
    Frame(IsFinal(s[0]), s[0] / 16 % 8, Opcode(s[0]), s[1] >= 128, ReadLength(s[1..]).value.form,
          ReadFrame(s).value.payload)
  }

  lemma FirstByteReadBack(b: Byte)
    ensures b == (if IsFinal(b) then 128 else 0) + 16 * (b / 16 % 8) + Opcode(b)
  {
  }

  lemma FrameOfIsOk(s: Bytes)
    requires ReadFrame(s).Some?
    ensures FrameOk(FrameOf(s)) && FirstByte(FrameOf(s)) == s[0]
  {
    LengthReadBack(s[1..]);
    FirstByteReadBack(s[0]);
  }

  lemma WireOfFrameOf(s: Bytes)
    requires ReadFrame(s).Some?
    ensures FrameOk(FrameOf(s)) && s == WireOne(FrameOf(s)) + ReadFrame(s).value.rest
  {
    var f, l := FrameOf(s), ReadLength(s[1..]).value;
    FrameOfIsOk(s);
    LengthReadBack(s[1..]);
    Spliced(s[0], s[1..], LengthBytes(f.form, |f.payload|, f.top), l.rest, |f.payload|);
    assert s == [s[0]] + s[1..];
  }

  lemma OneMessageGrows(f: Frame, tail: seq<Frame>)
    requires FrameOk(f) && OneMessage(tail) && f.opcode != CLOSE && (f.opcode == PING || !f.fin)
    ensures OneMessage([f] + tail) && Wire([f] + tail) == WireOne(f) + Wire(tail)
  {
    var fs := [f] + tail;
    assert fs[1..] == tail;
    assert forall i :: 1 <= i < |fs| ==> fs[i] == tail[i - 1];
  }

  lemma OneFrameMessage(f: Frame, suffix: Bytes)
    requires FrameOk(f) && f.opcode != PING && f.opcode != CLOSE && f.fin
    ensures OneMessage([f]) && Wire([f]) + suffix == WireOne(f) + suffix
  {
    assert [f][1..] == [];
  }

  /** The other direction: whatever is delivered as a message was on the line as the frames of one message. */
  lemma {:induction false} ReceivedMessagesWereSent(s: Bytes, message: Bytes) returns (fs: seq<Frame>)
    requires Receive(s, message).answer.Message?
    ensures OneMessage(fs) && s == Wire(fs) + Receive(s, message).rest
    decreases |s|
  {
    var f, rest := FrameOf(s), ReadFrame(s).value.rest;
    WireOfFrameOf(s);
    ReceiveUnfolds(s, message);
    if f.opcode == PING || !f.fin {
      var tail := ReceivedMessagesWereSent(rest, Joining(message, f));
      OneMessageGrows(f, tail);
      WireAppend([f] + tail, Receive(s, message).rest);
      fs := [f] + tail;
    } else {
      fs := [f];
      OneFrameMessage(f, rest);
    }
  }

  /** What is sent for a ping is a final, masked, empty pong to a server: opcode 10. */
  lemma PongIsAPong(suffix: Bytes)
    ensures DecodeClientFrame(PONG + suffix) == Some(Decoded(true, 10, [], suffix))
  {
    var s := PONG + suffix;
    assert s[1..][1..] == [0, 0, 0, 0] + suffix;
    assert ReadLength(s[1..]) == Some(Length(Short, 0, [0, 0, 0, 0] + suffix));
  }

  // ----- Commands and their results -----

  /** What the JSON of an incoming message says, as far as `cmd` looks. */
  datatype Reply = Reply(id: Option<int>, isResult: bool, success: bool, result: Bytes)

  datatype Outcome = Result(result: Bytes) | CommandFailed | ConnectionLost
  datatype Awaited = Awaited(outcome: Outcome, pongs: nat, rest: Bytes)

  predicate Answers(reply: Reply, id: int) { reply.id == Some(id) && reply.isResult }

  function Verdict(reply: Reply): Outcome { if reply.success then Result(reply.result) else CommandFailed }

  /** Read on until the result of command `id` comes, whatever else comes before it. */
  function Await(s: Bytes, id: int, decode: Bytes -> Reply): Awaited
    decreases |s|
  {
    var r := Receive(s, []);
    if !r.answer.Message? then Awaited(ConnectionLost, r.pongs, r.rest)
    else if Answers(decode(r.answer.payload), id) then Awaited(Verdict(decode(r.answer.payload)), r.pongs, r.rest)
    else
      var later := Await(r.rest, id, decode);
      later.(pongs := r.pongs + later.pongs)
  }

  predicate MessagesOk(ms: seq<seq<Frame>>) { forall i :: 0 <= i < |ms| ==> FramesOk(ms[i]) }

  function WireMessages(ms: seq<seq<Frame>>): Bytes
    requires MessagesOk(ms)
  {
    if ms == [] then [] else Wire(ms[0]) + WireMessages(ms[1..])
  }

  function AllPings(ms: seq<seq<Frame>>): nat { if ms == [] then 0 else Pings(ms[0]) + AllPings(ms[1..]) }

  /** The message is not this command's result: its id is another or none, or it is no result at all. */
  predicate PassedOver(reply: Reply, id: int) { reply.id != Some(id) || !reply.isResult }

  /** Events and results of other commands in front are passed over, each of their pings answered. The command then
      ends as its own result says: with what that carries if it was a success, as failed if not. */
  lemma AwaitFindsItsResult(ms: seq<seq<Frame>>, own: seq<Frame>, suffix: Bytes, id: int, decode: Bytes -> Reply)
    requires MessagesOk(ms)
    requires forall i :: 0 <= i < |ms| ==> OneMessage(ms[i]) && PassedOver(decode(Payloads(ms[i])), id)
    requires OneMessage(own) && decode(Payloads(own)).id == Some(id) && decode(Payloads(own)).isResult
    ensures var reply, a := decode(Payloads(own)), Await(WireMessages(ms) + (Wire(own) + suffix), id, decode);
            && a.pongs == AllPings(ms) + Pings(own) && a.rest == suffix
            && (forall r :: a.outcome == Result(r) <==> reply.success && reply.result == r)
            && (a.outcome == CommandFailed <==> !reply.success)
  {
    AwaitReachesItsResult(ms, own, suffix, id, decode);
  }

  lemma {:induction false} AwaitReachesItsResult(ms: seq<seq<Frame>>, own: seq<Frame>, suffix: Bytes, id: int,
                                                 decode: Bytes -> Reply)
    requires MessagesOk(ms) && forall i :: 0 <= i < |ms| ==> OneMessage(ms[i]) && !Answers(decode(Payloads(ms[i])), id)
    requires OneMessage(own) && Answers(decode(Payloads(own)), id)
    ensures Await(WireMessages(ms) + (Wire(own) + suffix), id, decode)
            == Awaited(Verdict(decode(Payloads(own))), AllPings(ms) + Pings(own), suffix)
  {
    if ms == [] {
      assert WireMessages(ms) + (Wire(own) + suffix) == Wire(own) + suffix;
      AwaitOne(own, suffix, id, decode);
    } else {
      var after := WireMessages(ms[1..]) + (Wire(own) + suffix);
      WireMessagesAppend(ms, Wire(own) + suffix);
      AwaitOne(ms[0], after, id, decode);
      AwaitReachesItsResult(ms[1..], own, suffix, id, decode);
    }
  }

  lemma WireMessagesAppend(ms: seq<seq<Frame>>, suffix: Bytes)
    requires MessagesOk(ms) && ms != []
    ensures WireMessages(ms) + suffix == Wire(ms[0]) + (WireMessages(ms[1..]) + suffix)
  {
  }

  lemma AwaitOne(m: seq<Frame>, after: Bytes, id: int, decode: Bytes -> Reply)
    requires OneMessage(m)
    ensures Await(Wire(m) + after, id, decode) ==
            if Answers(decode(Payloads(m)), id) then Awaited(Verdict(decode(Payloads(m))), Pings(m), after)
            else var later := Await(after, id, decode);
              later.(pongs := Pings(m) + later.pongs)
  {
    ReceiveReadsTheMessage(m, after, []);
    assert [] + Payloads(m) == Payloads(m);
    AwaitOnMessage(Wire(m) + after, Payloads(m), Pings(m), after, id, decode);
  }

  lemma AwaitOnMessage(s: Bytes, payload: Bytes, pings: nat, after: Bytes, id: int, decode: Bytes -> Reply)
    requires Receive(s, []) == Received(Message(payload), pings, after)
    ensures Await(s, id, decode) ==
            if Answers(decode(payload), id) then Awaited(Verdict(decode(payload)), pings, after)
            else var later := Await(after, id, decode);
              later.(pongs := pings + later.pongs)
  {
  }

  // ----- The connection -----

  function Joined(chunks: seq<Bytes>): Bytes {
    if chunks == [] then [] else chunks[0] + Joined(chunks[1..])
  }

  /** `n` empty pongs, one `sendall` each. */
  function Pongs(n: nat): (sends: seq<Bytes>)
    ensures |sends| == n
  {
    seq(n, _ => PONG)
  }

  lemma PongsAdd(m: nat, n: nat)
    ensures Pongs(m + n) == Pongs(m) + Pongs(n)
  {
  }

  /** `inbox` is what `recv` will return, call by call; the peer closes after the last chunk. */
  class Connection {
    var buf: Bytes
    var inbox: seq<Bytes>
    var sent: seq<Bytes>  // one entry a `sendall`
    var nextId: nat

    constructor (buf: Bytes, inbox: seq<Bytes>)
      requires forall i :: 0 <= i < |inbox| ==> inbox[i] != []
      ensures Valid() && Unread() == buf + Joined(inbox) && sent == [] && nextId == 1
    {
      this.buf, this.inbox, sent, nextId := buf, inbox, [], 1;
    }

    /** `recv` returns nothing only at the end of the stream. */
    ghost predicate Valid()
      reads this
    {
      forall i :: 0 <= i < |inbox| ==> inbox[i] != []
    }

    /** Every byte not yet consumed, wherever the chunk boundaries fall. */
    ghost function Unread(): Bytes
      reads this
    {
      buf + Joined(inbox)
    }

    method ReadExact(n: nat) returns (out: Option<Bytes>)
      requires Valid()
      modifies this`buf, this`inbox
      ensures Valid()
      ensures n <= |old(Unread())| ==> out == Some(old(Unread())[..n]) && Unread() == old(Unread())[n..]
      ensures n > |old(Unread())| ==> out == None && Unread() == old(Unread())
    {
      while |buf| < n
        invariant Valid() && Unread() == old(Unread())
        decreases |inbox|
      {
        if inbox == [] {
          return None;
        }
        assert Unread() == buf + inbox[0] + Joined(inbox[1..]);
        buf := buf + inbox[0];
        inbox := inbox[1..];
      }
      out := Some(buf[..n]);
      assert Unread() == buf[..n] + (buf[n..] + Joined(inbox));
      buf := buf[n..];
    }

    /** One frame off the stream: its first byte and payload. */
    method ReadOne() returns (frame: Option<(Byte, Bytes)>)
      requires Valid()
      modifies this`buf, this`inbox
      ensures Valid()
      ensures match ReadFrame(old(Unread()))
              case Some(Read(first, payload, rest)) => frame == Some((first, payload)) && Unread() == rest
              case None => frame == None
    {
      ghost var s := Unread();
      var header := ReadExact(2);
      if header.None? {
        return None;
      }
      var b1, b2 := header.value[0], header.value[1];
      assert Unread() == s[2..] == s[1..][1..];
      var length := b2 % 128;
      if length == 126 {
        var extended := ReadExact(2);
        if extended.None? {
          return None;
        }
        length := FromBigEndian(extended.value);
        assert extended.value == s[1..][1..3] && Unread() == s[1..][3..];
      } else if length == 127 {
        var extended := ReadExact(8);
        if extended.None? {
          return None;
        }
        length := FromBigEndian(extended.value);
        assert extended.value == s[1..][1..9] && Unread() == s[1..][9..];
      }
      var payload := ReadExact(length);
      if payload.None? {
        return None;
      }
      frame := Some((b1, payload.value));
    }

    method ReceiveMessage() returns (answer: Answer)
      requires Valid()
      modifies this`buf, this`inbox, this`sent
      ensures Valid()
      ensures var r := Receive(old(Unread()), []);
              && answer == r.answer
              && sent == old(sent) + Pongs(r.pongs)
              && (answer != Eof ==> Unread() == r.rest)
    {
      var message: Bytes := [];
      ghost var s, pongs := Unread(), 0;
      ghost var whole := Receive(s, []);
      while true
        invariant Valid() && s == Unread()
        invariant Ahead(Receive(s, message), pongs, whole)
        invariant sent == old(sent) + Pongs(pongs)
        decreases |s|
      {
        ReceiveUnfolds(s, message);
        var frame := ReadOne();
        if frame.None? {
          return Eof;
        }
        var b1, payload := frame.value.0, frame.value.1;
        s := Unread();
        if Opcode(b1) == PING {
          PongsAdd(pongs, 1);
          assert Pongs(1) == [PONG];
          sent := sent + [PONG];
          pongs := pongs + 1;
        } else if Opcode(b1) == CLOSE {
          return ClosedByServer;
        } else {
          message := message + payload;
          if IsFinal(b1) {
            return Message(message);
          }
        }
      }
    }

    /** `encode(id)` is the command's JSON under that id, `decode` reads a message's. */
    method Cmd(encode: nat -> Bytes, mask: Bytes, decode: Bytes -> Reply) returns (outcome: Outcome)
      requires Valid() && |mask| == 4 && |encode(nextId)| < POW63
      modifies this
      ensures Valid() && nextId == old(nextId) + 1
      ensures var a := Await(old(Unread()), old(nextId), decode);
              && outcome == a.outcome
              && sent == old(sent) + [ClientFrame(encode(old(nextId)), mask)] + Pongs(a.pongs)
              && (outcome != ConnectionLost ==> Unread() == a.rest)
    {
      var id := nextId;
      nextId := nextId + 1;
      sent := sent + [ClientFrame(encode(id), mask)];
      ghost var s, whole, sentFirst := Unread(), Await(Unread(), id, decode), sent;
      ghost var pongs: nat := 0;
      while true
        invariant Valid() && s == Unread() && nextId == id + 1
        invariant var a := Await(s, id, decode);
                  a.outcome == whole.outcome && a.rest == whole.rest && pongs + a.pongs == whole.pongs
        invariant sent == sentFirst + Pongs(pongs)
        decreases |s|
      {
        ghost var r := Receive(s, []);
        var answer := ReceiveMessage();
        PongsAdd(pongs, r.pongs);
        if !answer.Message? {
          return ConnectionLost;
        }
        s, pongs := Unread(), pongs + r.pongs;
        var reply := decode(answer.payload);
        if Answers(reply, id) {
          return Verdict(reply);
        }
      }
    }
  }

  /** What is still to come, with the pongs already sent, is the whole. */
  ghost predicate Ahead(r: Received, pongs: nat, whole: Received) {
    r.answer == whole.answer && r.rest == whole.rest && pongs + r.pongs == whole.pongs
  }

  lemma ReceiveUnfolds(s: Bytes, message: Bytes)
    ensures ReadFrame(s).None? ==> Receive(s, message) == Received(Eof, 0, [])
    ensures ReadFrame(s).Some? ==> AfterFrame(ReadFrame(s).value, message, Receive(s, message))
    ensures ReadFrame(s).Some? ==> |ReadFrame(s).value.rest| < |s|
  {
  }

  /** How `r` continues behind one frame. */
  ghost predicate AfterFrame(f: Read, message: Bytes, r: Received) {
    var op := Opcode(f.first);
    && (op == PING ==> r.answer == Receive(f.rest, message).answer && r.rest == Receive(f.rest, message).rest
                       && r.pongs == Receive(f.rest, message).pongs + 1)
    && (op == CLOSE ==> r == Received(ClosedByServer, 0, f.rest))
    && (op != PING && op != CLOSE && IsFinal(f.first) ==> r == Received(Message(message + f.payload), 0, f.rest))
    && (op != PING && op != CLOSE && !IsFinal(f.first) ==> r == Receive(f.rest, message + f.payload))
  }
}
