module RpcChannel {
  /**
   The sending side of the RPC server: one sender for counting and for writing, and the
   replies with the lengths they announce.
   */

  import opened Wrappers
  import opened ByteStrings
  import opened PackedSeq

  const CodeReturn := 4
  const CodeException := 5
  const CodeCopyAck := 8

  datatype Reply =
    | VoidReply
    | HandleReply(handle: nat)
    | SeqReply(args: seq<Arg>)
    | ExceptionReply(message: seq<byte>)
    | CopyAck(data: seq<byte>)

  /** What follows the announced length. */
  function Body(r: Reply): seq<byte> {
    match r
    case VoidReply => Bytes(CodeReturn, 4) + Bytes(1, 4) + Bytes(KNull, 4)
    case HandleReply(h) => Bytes(CodeReturn, 4) + Bytes(1, 4) + Bytes(KOpaqueHandle, 4) + Bytes(h, 8)
    case SeqReply(args) => Bytes(CodeReturn, 4) + SeqBytes(args)
    case ExceptionReply(message) => Bytes(CodeException, 4) + Bytes(1, 4) + Bytes(KStr, 4) + Bytes(|message|, 8)
        + message
    case CopyAck(data) => Bytes(CodeCopyAck, 4) + data
  }

  function Framed(body: seq<byte>): seq<byte> { Bytes(|body|, 8) + body }

  predicate ReplyFits(r: Reply) {
    && |Body(r)| < Word8
    && (r.HandleReply? ==> r.handle < Word8) && (r.SeqReply? ==> AllFit(r.args) && FirstRefusal(r.args, false) == None)
    && (r.ExceptionReply? ==> forall i | 0 <= i < |r.message| :: r.message[i] != 0)
  }

  /** What a client reads: the code and the rest of a frame, cut where the length says. */
  function ReadFrame(s: seq<byte>): Got<(nat, seq<byte>)> {
    if |s| < 8 then Short
    else
      var n := Value(s[..8]);
      if n < 4 || |s| < 8 + n then Short
      else Got((Value(s[8..12]), s[12..8 + n]), s[8 + n..])
  }

  /** Every reply announces just the number of bytes that follow, so that a reader is never out of step. */
  lemma FrameIsInStep(r: Reply, rest: seq<byte>)
    requires ReplyFits(r)
    ensures |Body(r)| >= 4
    ensures ReadFrame(Framed(Body(r)) + rest) == Got((Value(Body(r)[..4]), Body(r)[4..]), rest)
  {
    hide Bytes, SeqBytes, Value;
    PowerOf(0);
    var b := Body(r);
    var s := Framed(b) + rest;
    BytesValue(|b|, 8);
    assert |b| >= 4;
    assert s[..8] == Bytes(|b|, 8) && s[8..12] == b[..4] && s[12..8 + |b|] == b[4..] && s[8 + |b|..] == rest;
  }

  /** Void, handle, exception and list replies carry a list of arguments that reads back. */
  function ReplyArgs(r: Reply): seq<Arg> {
    match r
    case VoidReply => [Null]
    case HandleReply(h) => [Handle(KOpaqueHandle, h)]
    case SeqReply(args) => args
    case ExceptionReply(message) => [Str(message)]
    case CopyAck(_) => []
  }

  lemma OneArg(a: Arg)
    ensures SeqBytes([a]) == Bytes(1, 4) + Bytes(CodeOf(a), 4) + ArgBytes(a)
  {
    hide Bytes, ArgBytes;
    assert Codes([a]) == [CodeOf(a)];
    assert [CodeOf(a)][1..] == [] && [a][1..] == [];
    assert Words([CodeOf(a)], 4) == Bytes(CodeOf(a), 4) + Words([], 4);
    assert AllArgBytes([a]) == ArgBytes(a) + AllArgBytes([]);
  }

  lemma ReplyReadsBack(r: Reply)
    requires ReplyFits(r) && !r.CopyAck?
    ensures |Body(r)| >= 4 && TakeSeq(Body(r)[4..]) == Got(ReplyArgs(r), [])
  {
    hide Bytes, SeqBytes, TakeSeq, FirstRefusal;
    var args := ReplyArgs(r);
    if !r.SeqReply? {
      OneArg(args[0]);
      OneIsAccepted(args[0]);
    }
    assert Body(r)[4..] == SeqBytes(args);
    assert SeqBytes(args) + [] == SeqBytes(args);
    assert AllFit(args);
    SeqRoundTrip(args, false, []);
  }

  lemma OneIsAccepted(a: Arg)
    requires Refusal(a, false) == None
    ensures FirstRefusal([a], false) == None
  {
    assert [a][1..] == [];
  }

  // ---------------------------------------------------------------------------
  // A stream of replies
  // ---------------------------------------------------------------------------

  function Replies(replies: seq<Reply>): seq<byte> {
    if replies == [] then [] else Framed(Body(replies[0])) + Replies(replies[1..])
  }

  lemma {:induction false} RepliesAppend(replies: seq<Reply>, r: Reply)
    ensures Replies(replies + [r]) == Replies(replies) + Framed(Body(r))
  {
    hide Body;
    if replies == [] {
      assert (replies + [r])[1..] == [];
      assert Replies([r][1..]) == [];
    } else {
      assert (replies + [r])[1..] == replies[1..] + [r];
      RepliesAppend(replies[1..], r);
    }
  }

  /** What a client reads that takes `n` frames, one after the other. */
  function ReadFrames(s: seq<byte>, n: nat): Got<seq<(nat, seq<byte>)>> {
    if n == 0 then Got([], s)
    else
      match ReadFrame(s)
      case Short => Short
      case Refused(status) => Refused(status)
      case Got(frame, rest) =>
        match ReadFrames(rest, n - 1)
        case Short => Short
        case Refused(status) => Refused(status)
        case Got(frames, rest') => Got([frame] + frames, rest')
  }

  /** The frames of replies: each with its code and the rest of its body. */
  function FramesOf(replies: seq<Reply>): (frames: seq<(nat, seq<byte>)>)
    requires forall r <- replies :: |Body(r)| >= 4
    ensures |frames| == |replies|
  {
    if replies == [] then []
    else [(Value(Body(replies[0])[..4]), Body(replies[0])[4..])] + FramesOf(replies[1..])
  }

  lemma BodyHasCode(r: Reply)
    ensures |Body(r)| >= 4
  {
    hide Bytes, SeqBytes;
  }

  /** A client that reads reply after reply finds each of them, whatever follows. */
  lemma {:induction false} RepliesReadBack(replies: seq<Reply>, rest: seq<byte>)
    requires forall r <- replies :: ReplyFits(r)
    ensures forall r <- replies :: |Body(r)| >= 4
    ensures ReadFrames(Replies(replies) + rest, |replies|) == Got(FramesOf(replies), rest)
  {
    hide Body, ReplyFits, ReadFrame, Framed;
    forall r <- replies ensures |Body(r)| >= 4 { BodyHasCode(r); }
    if replies == [] {
      assert Replies(replies) + rest == rest;
    } else {
      var more := Replies(replies[1..]) + rest;
      FrameIsInStep(replies[0], more);
      RepliesReadBack(replies[1..], rest);
      assert Replies(replies) + rest == Framed(Body(replies[0])) + more;
    }
  }

  // ---------------------------------------------------------------------------
  // What sending does
  // ---------------------------------------------------------------------------

  /** The state of a channel. An error that was thrown has ended the program. */
  datatype Wire = Wire(output: seq<byte>, numBytes: nat, thrown: Option<Status>)

  /** All of the bytes are counted or written, unless a write fails on the way. */
  predicate Sends(counting: bool, w: Wire, b: seq<byte>, w': Wire) {
    if w.thrown.Some? then w' == w
    else if counting then w' == w.(numBytes := w.numBytes + |b|)
    else w' == w.(output := w.output + b) || CutShort(w, b, w')
  }

  /** A write has failed before all of the bytes were out. */
  predicate CutShort(w: Wire, b: seq<byte>, w': Wire) {
    exists k: nat :: k < |b| && w' == CutAt(w, b, k)
  }

  function CutAt(w: Wire, b: seq<byte>, k: nat): Wire
    requires k <= |b|
  {
    w.(output := w.output + b[..k], thrown := Some(WriteError))
  }

  /** Sending ends with an error: the one given, or that a write has failed before. */
  predicate Throws(counting: bool, w: Wire, status: Status, w': Wire) {
    if w.thrown.Some? then w' == w
    else
      && (w'.thrown == Some(status) || (!counting && w'.thrown == Some(WriteError)))
      && w.output <= w'.output && (counting ==> w'.output == w.output)
  }

  lemma SendsMore(counting: bool, w: Wire, a: seq<byte>, w1: Wire, b: seq<byte>, w2: Wire)
    requires Sends(counting, w, a, w1) && Sends(counting, w1, b, w2)
    ensures Sends(counting, w, a + b, w2)
  {
    if w.thrown.None? && !counting {
      if w1.thrown.Some? {
        var k: nat :| k < |a| && w1 == CutAt(w, a, k);
        assert (a + b)[..k] == a[..k];
        assert w2 == CutAt(w, a + b, k);
      } else if w2.thrown.Some? {
        var k: nat :| k < |b| && w2 == CutAt(w1, b, k);
        assert w.output + (a + b)[..|a| + k] == w.output + a + b[..k];
        assert w2 == CutAt(w, a + b, |a| + k);
      } else {
        assert w.output + (a + b) == w.output + a + b;
      }
    }
  }

  lemma SendsNothing(counting: bool, w: Wire)
    ensures Sends(counting, w, [], w)
  {
    assert w.output + [] == w.output;
  }

  lemma SentThenThrown(counting: bool, w: Wire, a: seq<byte>, w1: Wire, status: Status, w2: Wire)
    requires Sends(counting, w, a, w1) && Throws(counting, w1, status, w2)
    ensures Throws(counting, w, status, w2)
  {
    if w.thrown.None? && !counting { assert w.output <= w1.output <= w2.output; }
  }

  // ---------------------------------------------------------------------------
  // The channel
  // ---------------------------------------------------------------------------

  /** With `counting`, what is written is only counted. */
  class Channel {
    const counting: bool
    var numBytes: nat
    var output: seq<byte>
    var thrown: Option<Status>

    constructor (counting: bool)
      ensures this.counting == counting && Now() == Wire([], 0, None)
    {
      this.counting := counting;
      numBytes, output, thrown := 0, [], None;
    }

    ghost function Now(): Wire
      reads this
    {
      Wire(output, numBytes, thrown)
    }

    /** Everything that was sent with the bytes `b` behind it. */
    twostate predicate Sent(b: seq<byte>)
      reads this
    {
      Sends(counting, old(Now()), b, Now())
    }

    /** Sends more, behind what was `sent` since `w`. Nothing happens any more once an error was thrown. */
    method Write(b: seq<byte>, ghost w: Wire, ghost sent: seq<byte>) returns (ghost more: seq<byte>)
      requires Sends(counting, w, sent, Now())
      modifies this
      ensures more == sent + b && Sends(counting, w, more, Now())
    {
      if thrown.None? {
        if counting { numBytes := numBytes + |b|; } else { WriteRawBytes(b); }
      }
      more := sent + b;
      SendsMore(counting, w, sent, old(Now()), b, Now());
    }

    /** `PosixWrite` takes some of the bytes, or fails with a result that is not positive. */
    method PosixWrite(b: seq<byte>) returns (n: int)
      requires b != []
      modifies this`output
      ensures n <= |b| && output == old(output) + if n > 0 then b[..n] else []
    {
      n :| n <= |b|;
      output := output + if n > 0 then b[..n] else [];
    }

    /** However the bytes are taken, they are written once and in order, all of them unless a write fails. */
    method WriteRawBytes(b: seq<byte>)
      requires thrown.None? && !counting
      modifies this`output, this`thrown
      ensures Sent(b)
    {
      var done := 0;
      assert b[..0] == [];
      while done < |b|
        invariant 0 <= done <= |b| && output == old(output) + b[..done] && thrown.None?
      {
        var n := PosixWrite(b[done..]);
        if n <= 0 {
          ThrowError(WriteError);
          assert Now() == CutAt(old(Now()), b, done);
          return;
        }
        assert b[..done + n] == b[..done] + b[done..][..n];
        done := done + n;
      }
      assert b[..done] == b;
    }

    method ThrowError(status: Status)
      modifies this`thrown
      ensures thrown == if old(thrown).None? then Some(status) else old(thrown)
    {
      if thrown.None? { thrown := Some(status); }
    }

    method SendDLTensor(t: Tensor)
      modifies this
      ensures if t.strides then Throws(counting, old(Now()), InvalidDLTensorFieldStride, Now())
              else Sent(TensorBytes(t))
    {
      hide Bytes, DeviceBytes, DTypeBytes, Words, Sends;
      ghost var w, sent := Now(), [];
      SendsNothing(counting, w);
      sent := Write(Bytes(t.data, 8), w, sent);
      sent := Write(DeviceBytes(t.device), w, sent);
      sent := Write(Bytes(|t.shape|, 4), w, sent);
      sent := Write(DTypeBytes(t.dtype), w, sent);
      sent := Write(Words(t.shape, 8), w, sent);
      if t.strides {
        ThrowStatus(InvalidDLTensorFieldStride, sent, w);
        return;
      }
      sent := Write(Bytes(t.byteOffset, 8), w, sent);
      assert sent == TensorBytes(t);
    }

    /** An error after `sent` has been sent. */
    method ThrowStatus(status: Status, ghost sent: seq<byte>, ghost w: Wire)
      requires Sends(counting, w, sent, Now())
      modifies this`thrown
      ensures Throws(counting, w, status, Now())
    {
      ThrowError(status);
    }

    method SendArg(a: Arg, client: bool)
      modifies this
      ensures if Refusal(a, client).Some? then Throws(counting, old(Now()), Refusal(a, client).value, Now())
              else Sent(ArgBytes(a))
    {
      hide Bytes, DeviceBytes, DTypeBytes, TensorBytes, Sends;
      ghost var w, sent := Now(), [];
      SendsNothing(counting, w);
      match a {
        case Number(_, bits) => sent := Write(Bytes(bits, 8), w, sent);
        case TypeArg(t) =>
          sent := Write(DTypeBytes(t), w, sent);
          sent := Write(Bytes(0, 4), w, sent);
        case DeviceArg(d) => sent := Write(DeviceBytes(d), w, sent);
        case Handle(code, h) =>
          if (code == KModule || code == KPackedFunc) && !client {
            ThrowStatus(InvalidTypeCodeObject, sent, w);
            return;
          }
          sent := Write(Bytes(h, 8), w, sent);
        case Null =>
        case Str(chars) =>
          sent := Write(Bytes(|chars|, 8), w, sent);
          sent := Write(chars, w, sent);
        case ByteArray(data) =>
          sent := Write(Bytes(|data|, 8), w, sent);
          sent := Write(data, w, sent);
        case TensorArg(t) =>
          SendDLTensor(t);
          sent := TensorBytes(t);
        case NDArray => ThrowStatus(InvalidTypeCodeNDArray, sent, w);
        case Other(_) => ThrowStatus(UnknownTypeCode, sent, w);
      }
      assert Refusal(a, client).None? ==> sent == ArgBytes(a);
    }

    method SendPackedSeq(args: seq<Arg>, client: bool)
      modifies this
      ensures if FirstRefusal(args, client).Some? then Throws(counting, old(Now()), FirstRefusal(args, client).value,
              Now())
              else Sent(SeqBytes(args))
    {
      hide Bytes, ArgBytes, Words, Codes, Refusal, Sends, Throws;
      ghost var w, sent := Now(), [];
      SendsNothing(counting, w);
      sent := Write(Bytes(|args|, 4), w, sent);
      sent := Write(Words(Codes(args), 4), w, sent);
      ghost var head := sent;
      var i := 0;
      assert args[0..] == args;
      ghost var done: seq<byte> := [];
      assert head + [] == head;
      while i < |args|
        invariant 0 <= i <= |args| && Sends(counting, old(Now()), head + done, Now())
        invariant done + AllArgBytes(args[i..]) == AllArgBytes(args)
        invariant FirstRefusal(args, client) == FirstRefusal(args[i..], client)
      {
        assert args[i..][0] == args[i] && args[i..][1..] == args[i + 1..];
        ghost var w1 := Now();
        SendArg(args[i], client);
        if Refusal(args[i], client).Some? {
          SentThenThrown(counting, w, head + done, w1, Refusal(args[i], client).value, Now());
          return;
        }
        SendsMore(counting, w, head + done, w1, ArgBytes(args[i]), Now());
        assert head + (done + ArgBytes(args[i])) == head + done + ArgBytes(args[i]);
        done := done + ArgBytes(args[i]);
        i := i + 1;
      }
      assert args[i..] == [] && done + [] == done;
      assert head + done == SeqBytes(args);
    }

    /** The counting sender throws through the channel. */
    method PackedSeqGetNumBytes(args: seq<Arg>, client: bool) returns (n: nat)
      requires thrown.None?
      modifies this`thrown
      ensures thrown == FirstRefusal(args, client)
      ensures thrown.None? ==> n == |SeqBytes(args)|
    {
      hide SeqBytes;
      var getter := new Channel(true);
      getter.SendPackedSeq(args, client);
      n := getter.numBytes;
      if getter.thrown.Some? { ThrowError(getter.thrown.value); }
    }

    method ReturnVoid()
      requires !counting
      modifies this
      ensures Sent(Framed(Body(VoidReply)))
    {
      hide Bytes, Sends;
      ghost var w, sent := Now(), [];
      SendsNothing(counting, w);
      var n := 4 + 4 + 4;
      sent := Write(Bytes(n, 8), w, sent);
      sent := Write(Bytes(CodeReturn, 4), w, sent);
      sent := Write(Bytes(1, 4), w, sent);
      sent := Write(Bytes(KNull, 4), w, sent);
      assert sent == Framed(Body(VoidReply));
    }

    method ReturnHandle(h: nat)
      requires !counting
      modifies this
      ensures Sent(Framed(Body(HandleReply(h))))
    {
      hide Bytes, Sends;
      ghost var w, sent := Now(), [];
      SendsNothing(counting, w);
      var n := 4 + 4 + 4 + 8;
      sent := Write(Bytes(n, 8), w, sent);
      sent := Write(Bytes(CodeReturn, 4), w, sent);
      sent := Write(Bytes(1, 4), w, sent);
      sent := Write(Bytes(KOpaqueHandle, 4), w, sent);
      sent := Write(Bytes(h, 8), w, sent);
      assert sent == Framed(Body(HandleReply(h)));
    }

    method ReturnException(message: seq<byte>)
      requires !counting
      modifies this
      ensures Sent(Framed(Body(ExceptionReply(message))))
    {
      hide Bytes, Sends;
      ghost var w, sent := Now(), [];
      SendsNothing(counting, w);
      var n := 4 + 4 + 4 + 8 + |message|;
      sent := Write(Bytes(n, 8), w, sent);
      sent := Write(Bytes(CodeException, 4), w, sent);
      sent := Write(Bytes(1, 4), w, sent);
      sent := Write(Bytes(KStr, 4), w, sent);
      sent := Write(Bytes(|message|, 8), w, sent);
      sent := Write(message, w, sent);
      assert sent == Framed(Body(ExceptionReply(message)));
    }

    method ReturnCopyFromRemote(data: seq<byte>)
      requires !counting
      modifies this
      ensures Sent(Framed(Body(CopyAck(data))))
    {
      hide Bytes, Sends;
      ghost var w, sent := Now(), [];
      SendsNothing(counting, w);
      var n := 4 + |data|;
      sent := Write(Bytes(n, 8), w, sent);
      sent := Write(Bytes(CodeCopyAck, 4), w, sent);
      sent := Write(data, w, sent);
      assert sent == Framed(Body(CopyAck(data)));
    }

    /** A list that is refused is found out while it is counted, before any byte of the reply is written. */
    method ReturnPackedSeq(args: seq<Arg>)
      requires thrown.None? && !counting
      modifies this
      ensures if FirstRefusal(args, false).Some? then Now() == old(Now()).(thrown := FirstRefusal(args, false))
              else Sent(Framed(Body(SeqReply(args))))
    {
      hide Bytes, SeqBytes, FirstRefusal, Sends;
      ghost var w, sent := Now(), [];
      SendsNothing(counting, w);
      var count := PackedSeqGetNumBytes(args, false);
      if thrown.Some? { return; }
      var n := 4 + count;
      sent := Write(Bytes(n, 8), w, sent);
      sent := Write(Bytes(CodeReturn, 4), w, sent);
      ghost var w1 := Now();
      SendPackedSeq(args, false);
      SendsMore(counting, w, sent, w1, SeqBytes(args), Now());
      assert sent + SeqBytes(args) == Framed(Body(SeqReply(args)));
    }
  }
}
