module RpcServer {
  /** The RPC server: request frames, the checks on them, and one reply for each. */

  import opened Wrappers
  import opened ByteStrings
  import opened PackedSeq
  import opened Arena
  import opened RpcMemory
  import opened RpcReceiver
  import opened RpcChannel
  import opened RpcExecute

  const CodeShutdown := 1
  const CodeInitServer := 2
  const CodeCallFunc := 3
  const CodeCopyFrom := 6
  const CodeCopyTo := 7
  const SyscallStart := 9

  datatype Request =
    | Empty
    | Shutdown
    | InitServer(version: seq<byte>, args: seq<Arg>)
    | CallFunc(handle: nat, args: seq<Arg>)
    | CopyFrom(tensor: Tensor, size: nat)
    | CopyTo(tensor: Tensor, data: seq<byte>)
    | Syscall(code: nat, args: seq<Arg>)

  // ---------------------------------------------------------------------------
  // Frames
  // ---------------------------------------------------------------------------

  function RequestCode(r: Request): nat {
    match r
    case Empty => 0
    case Shutdown => CodeShutdown
    case InitServer(_, _) => CodeInitServer
    case CallFunc(_, _) => CodeCallFunc
    case CopyFrom(_, _) => CodeCopyFrom
    case CopyTo(_, _) => CodeCopyTo
    case Syscall(code, _) => code
  }

  function Content(r: Request): seq<byte> {
    match r
    case Empty => []
    case Shutdown => []
    case InitServer(version, args) => Bytes(|version|, 8) + version + SeqBytes(args)
    case CallFunc(handle, args) => Bytes(handle, 8) + SeqBytes(args)
    case CopyFrom(t, size) => TensorBytes(t) + Bytes(size, 8)
    case CopyTo(t, data) => TensorBytes(t) + Bytes(|data|, 8) + data
    case Syscall(_, args) => SeqBytes(args)
  }

  function Frame(r: Request): seq<byte> {
    if r.Empty? then Bytes(0, 8) else Bytes(4 + |Content(r)|, 8) + Bytes(RequestCode(r), 4) + Content(r)
  }

  predicate ArgsFit(args: seq<Arg>) { AllFit(args) && FirstRefusal(args, true) == None }

  predicate RequestFits(r: Request) {
    && |Content(r)| < Word8 - 4
    && match r
       case Empty => true
       case Shutdown => true
       case InitServer(version, args) => |version| < Word8 && ArgsFit(args)
       case CallFunc(handle, args) => handle < Word8 && ArgsFit(args)
       case CopyFrom(t, size) => TensorFits(t) && !t.strides && size < Word8
       case CopyTo(t, data) => TensorFits(t) && !t.strides && |data| < Word8
       case Syscall(code, args) => SyscallStart <= code < 0x8000_0000 && ArgsFit(args)
  }

  // ---------------------------------------------------------------------------
  // Answers
  // ---------------------------------------------------------------------------

  /**
   What an answer depends on besides the request: memory in the end, and the place of data on the way to or from
   a device.
   */
  datatype View = View(mem: Memory, temp: nat)

  /** The answer to a request, after the calls in `hist`. */
  function AnswerTo(r: Request, hist: seq<Call>, b: Behaviour, view: View): Answer {
    match r
    case Empty => Silent
    case Shutdown => Ends
    case InitServer(_, args) => if args == [] then Replied(VoidReply) else Refuses(CheckError)
    case CallFunc(handle, args) => FuncAnswer(handle, args, hist, b)
    case CopyFrom(t, size) => CopyFromAnswer(t, size, hist, b, view.mem, view.temp)
    case CopyTo(t, _) => CopyToAnswer(t, hist, b, view.temp)
    case Syscall(code, args) => SyscallAnswer(code, args, hist, b)
  }

  /** The calls into the runtime that the request makes. */
  function CallsFor(r: Request, hist: seq<Call>, b: Behaviour, view: View): seq<Call> {
    match r
    case Empty => []
    case Shutdown => []
    case InitServer(_, _) => []
    case CallFunc(handle, args) => FuncCalls(handle, args, hist, b)
    case CopyFrom(t, _) => CopyFromCalls(t, hist, b, view.temp)
    case CopyTo(t, _) => CopyToCalls(t, hist, b, view.temp)
    case Syscall(code, args) => SyscallCalls(code, args)
  }

  /** The requests that pass their checks and have their results accepted by the sender. */
  predicate Passes(r: Request, hist: seq<Call>, b: Behaviour) {
    match r
    case Empty => false
    case Shutdown => false
    case InitServer(_, args) => args == []
    case CallFunc(handle, args) =>
      var o := Ask(hist, b, FuncCall(handle, args));
      o.ok ==> FirstRefusal(ReturnedArgs(o), false) == None
    case CopyFrom(_, _) => true
    case CopyTo(_, _) => true
    case Syscall(code, args) => Unsupported(code).Some? || PassesChecks(code, args)
  }

  /** Just those are replied to. */
  lemma RepliedIffPasses(r: Request, hist: seq<Call>, b: Behaviour, view: View)
    ensures AnswerTo(r, hist, b, view).Replied? <==> Passes(r, hist, b)
  {
    hide PassesChecks, ReturnedArgs, Unsupported, FirstRefusal;
  }

  /** Where the data of a copy are on the host. */
  function DataAt(t: Tensor): nat { t.data + t.byteOffset }

  predicate OnHost(t: Tensor) { t.device.kind == CpuDevice }

  /** What copies on the host do to memory outside of what the arena has handed out. */
  ghost predicate Leaves(r: Request, m: Memory, m': Memory, given: seq<Region>) {
    match r
    case CopyTo(t, data) =>
      OnHost(t) ==> Load(m', DataAt(t), |data|) == data && Untouched(m, m', given, DataAt(t), |data|)
    case CopyFrom(t, _) => OnHost(t) ==> Untouched(m, m', given, 0, 0)
    case _ => true
  }

  // ---------------------------------------------------------------------------
  // The server
  // ---------------------------------------------------------------------------

  class MinRpcServer {
    const rx: Receiver
    const tx: Channel
    const runtime: Runtime
    const exec: MinRpcExecute

    constructor (rx: Receiver, tx: Channel, runtime: Runtime)
      ensures this.rx == rx && this.tx == tx && this.runtime == runtime && Joined()
    {
      this.rx, this.tx, this.runtime := rx, tx, runtime;
      this.exec := new MinRpcExecute(rx, tx, runtime);
    }

    predicate Joined()
      reads this
    {
      exec.rx == rx && exec.tx == tx && exec.runtime == runtime
    }

    ghost predicate Valid()
      reads this, rx, rx.arena, tx
    {
      Joined() && rx.Valid() && !tx.counting && tx.thrown.None? && rx.state.Running?
    }

    /** The failure of an allocation ends the program. */
    predicate OutOfMemory()
      reads rx
    {
      rx.state == Exited(Some(NoMemory))
    }

    /** Nothing was sent, and nothing was asked of the runtime. */
    twostate predicate Idle()
      reads this, tx, runtime
    {
      tx.Now() == old(tx.Now()) && runtime.calls == old(runtime.calls)
    }

    /** The request whose bytes are consumed has been answered, unless memory ran out before. */
    twostate predicate Done(new a: Answer, new made: seq<Call>, new rest: seq<byte>)
      reads this, rx, rx.arena, tx, runtime
    {
      || (OutOfMemory() && Idle())
      || (rx.Valid() && rx.state.Running? && rx.input == rest && !tx.counting
          && Gave(a, made, old(tx.Now()), old(runtime.calls), tx.Now(), runtime.calls))
    }

    /** A request has been served, its calls made and its answer given. */
    twostate predicate Served(new r: Request, new rest: seq<byte>, new view: View)
      reads this, rx, rx.arena, tx, runtime
    {
      && Done(AnswerTo(r, old(runtime.calls), runtime.behave, view),
              CallsFor(r, old(runtime.calls), runtime.behave, view), rest)
      && (rx.state.Running? ==> view.mem == rx.mem && Leaves(r, old(rx.mem), rx.mem, rx.arena.given))
    }

    /** A tensor's header: the tensor and its shape have their places in the arena. */
    method ReadTensor() returns (t: Option<Tensor>, ghost p: nat)
      requires Valid()
      modifies rx, rx.arena
      ensures rx.Valid() && rx.allowCleanShutdown == old(rx.allowCleanShutdown)
      ensures match TakeTensor(old(rx.input))
              case Got(v, rest) =>
                if rx.state.Running?
                then t == Some(v) && rx.input == rest && HoldsTensor(rx.mem, p, v)
                else t.None? && OutOfMemory()
              case Short => t.None? && !rx.state.Running?
              case Refused(_) => true
      ensures t.Some? ==> Untouched(old(rx.mem), rx.mem, rx.arena.given, 0, 0)
    {
      hide Value, Bytes, TakeTensor, HoldsTensor, GenericArena.Valid, Store, Untouched, Apart;
      p := 0;
      var start := rx.input;
      TensorShort(start);
      TakenOrShort(start);
      var arr := rx.ArenaAlloc(TensorSize, 8);
      if arr.None? { return None, p; }
      p := arr.value;
      var handle := rx.ReadNumber(8);
      if handle.None? { return None, p; }
      var fields := rx.input;
      var ok, ndim := rx.ReadFixedFields(arr.value, handle.value);
      if !ok { return None, p; }
      assert fields[8..12] == start[16..20];
      var shape := rx.ArenaAlloc(8 * ndim, 8);
      if shape.None? { return None, p; }
      ghost var q := shape.value;
      ok := rx.ReadShape(arr.value, shape.value, ndim);
      if !ok { return None, p; }
      TensorIsTaken(start);
      TensorRead(old(rx.mem), rx.mem, old(rx.arena.given), rx.arena.given, p, q, start, fields);
      return Some(TakeTensor(start).value), p;
    }

    method HandleNormalCallFunc() returns (ghost view: View)
      requires Valid()
      modifies rx, rx.arena, tx, runtime
      ensures match TakeNumber(old(rx.input), 8)
              case Got(handle, s) =>
                (match TakeSeq(s)
                 case Got(args, rest) => Served(CallFunc(handle, args), rest, view)
                 case _ => true)
              case _ => true
    {
      hide TakeSeq, Stored, GenericArena.Valid, FuncAnswer, FuncCalls, Gave;
      view := View(rx.mem, 0);
      var handle := rx.ReadNumber(8);
      if handle.None? { return; }
      var args, values, v, cuts := rx.RecvPackedSeq();
      if args.None? { return; }
      exec.NormalCallFunc(handle.value, args.value);
      view := View(rx.mem, 0);
    }

    method HandleInitServer() returns (ghost view: View)
      requires Valid()
      modifies rx, rx.arena, tx
      ensures match TakeNumber(old(rx.input), 8)
              case Got(len, s) =>
                if |s| < len then true
                else
                  (match TakeSeq(s[len..])
                   case Got(args, rest) => Served(InitServer(s[..len], args), rest, view)
                   case _ => true)
              case _ => true
    {
      hide TakeSeq, Stored, GenericArena.Valid, Gave;
      view := View(rx.mem, 0);
      var len := rx.ReadNumber(8);
      if len.None? { return; }
      var ver := rx.ArenaAlloc(len.value + 1, 1);
      if ver.None? { return; }
      var ok := rx.ReadInto(ver.value, len.value);
      if !ok { return; }
      var args, values, v, cuts := rx.RecvPackedSeq();
      if args.None? { return; }
      exec.InitServer(|args.value|);
      view := View(rx.mem, 0);
    }

    method HandleCopyFromRemote() returns (ghost view: View)
      requires Valid()
      modifies rx, rx.arena, tx, runtime
      ensures match TakeTensor(old(rx.input))
              case Got(t, s) =>
                (match TakeNumber(s, 8)
                 case Got(size, rest) => Served(CopyFrom(t, size), rest, view)
                 case _ => true)
              case _ => true
    {
      hide TakeTensor, HoldsTensor, GenericArena.Valid, Load, Untouched, Gave, CopyFromAnswer, CopyFromCalls;
      view := View(rx.mem, 0);
      var t, p := ReadTensor();
      if t.None? { return; }
      var size := rx.ReadNumber(8);
      if size.None? { return; }
      var at := DataAt(t.value);
      if !OnHost(t.value) {
        var temp := rx.ArenaAlloc(size.value, 1);
        if temp.None? { return; }
        at := temp.value;
      }
      exec.CopyFromRemote(t.value, size.value, at);
      view := View(rx.mem, at);
    }

    method HandleCopyToRemote() returns (ghost view: View)
      requires Valid()
      modifies rx, rx.arena, tx, runtime
      ensures match TakeTensor(old(rx.input))
              case Got(t, s) =>
                (match TakeNumber(s, 8)
                 case Got(size, s') => if |s'| < size then true else Served(CopyTo(t, s'[..size]), s'[size..], view)
                 case _ => true)
              case _ => true
    {
      hide TakeTensor, HoldsTensor, GenericArena.Valid, Store, Load, Untouched, Gave, CopyToAnswer, CopyToCalls;
      view := View(rx.mem, 0);
      var t, p := ReadTensor();
      if t.None? { return; }
      var size := rx.ReadNumber(8);
      if size.None? { return; }
      var at := DataAt(t.value);
      if !OnHost(t.value) {
        var temp := rx.ArenaAlloc(size.value, 1);
        if temp.None? { return; }
        at := temp.value;
      }
      ghost var m, data := rx.mem, rx.input;
      var ok := rx.ReadInto(at, size.value);
      if !ok { return; }
      if OnHost(t.value) { DataStored(old(rx.mem), m, rx.arena.given, at, data[..size.value]); }
      exec.CopyToRemote(t.value, at);
      view := View(rx.mem, at);
    }

    method HandleSyscallFunc(code: nat) returns (ghost view: View)
      requires Valid()
      modifies rx, rx.arena, tx, runtime
      ensures match TakeSeq(old(rx.input))
              case Got(args, rest) => Served(Syscall(code, args), rest, view)
              case _ => true
    {
      hide TakeSeq, Stored, SyscallAnswer, SyscallCalls, GenericArena.Valid, Gave;
      view := View(rx.mem, 0);
      var args, values, v, cuts := rx.RecvPackedSeq();
      if args.None? { return; }
      exec.SysCallFunc(code, args.value);
      view := View(rx.mem, 0);
    }

    /** The request's handler, behind length and code. */
    method Dispatch(code: nat, ghost r: Request, ghost rest: seq<byte>) returns (goOn: bool, ghost view: View)
      requires Valid()
      modifies rx, rx.arena, tx, runtime
      ensures RequestFits(r) && !r.Empty? && code == RequestCode(r) && old(rx.input) == Content(r) + rest ==>
                if r.Shutdown? then !goOn && rx.input == rest && rx.state == Exited(None) && Idle()
                else Served(r, rest, view) && goOn
    {
      hide Bytes, TakeSeq, TakeTensor, SeqBytes, TensorBytes, GenericArena.Valid, Served;
      goOn := true;
      view := View(rx.mem, 0);
      if RequestFits(r) && !r.Empty? && rx.input == Content(r) + rest { ContentReadsBack(r, rest); }
      if SyscallStart <= code < 0x8000_0000 {
        view := HandleSyscallFunc(code);
      } else if code == CodeCallFunc {
        view := HandleNormalCallFunc();
      } else if code == CodeInitServer {
        view := HandleInitServer();
      } else if code == CodeCopyFrom {
        view := HandleCopyFromRemote();
      } else if code == CodeCopyTo {
        view := HandleCopyToRemote();
      } else if code == CodeShutdown {
        rx.arena.FreeAll();
        rx.state := Exited(None);
        assert Content(Shutdown) + rest == rest;
        return false, view;
      } else {
        tx.ThrowError(UnknownRPCCode);
      }
    }

    /**
     A well-formed frame is consumed to its last byte, its calls are made, and it is answered by just one
     reply unless it is empty or a shutdown, fails a check, or finds no memory. Only between frames may the
     stream end cleanly.
     */
    method ProcessOnePacket(ghost r: Request, ghost rest: seq<byte>) returns (goOn: bool, ghost view: View)
      requires Valid()
      modifies rx, rx.arena, tx, runtime
      ensures RequestFits(r) && old(rx.input) == Frame(r) + rest ==>
                if r.Shutdown? then !goOn && rx.input == rest && rx.state == Exited(None) && Idle()
                else Served(r, rest, view) && goOn
      ensures old(rx.input) == [] ==> !goOn && rx.state == Exited(None) && Idle()
    {
      hide Bytes, GenericArena.Valid, RequestFits, Content, Leaves, AnswerTo, CallsFor;
      if RequestFits(r) && rx.input == Frame(r) + rest { FrameStarts(r, rest); }
      Recycle();
      rx.allowCleanShutdown := true;
      view := View(rx.mem, 0);
      var len := rx.ReadNumber(8);
      if len.None? { return false, view; }
      if len.value == 0 {
        EmptyIsServed(runtime.calls, runtime.behave, view, rx.mem, rx.arena.given);
        return true, view;
      }
      var code := rx.ReadNumber(4);
      if code.None? { return false, view; }
      rx.allowCleanShutdown := false;
      goOn, view := Dispatch(code.value, r, rest);
    }

    method Recycle()
      requires Valid()
      modifies rx.arena
      ensures Valid()
    {
      rx.arena.RecycleAll();
    }
  }

  lemma EmptyIsServed(hist: seq<Call>, b: Behaviour, view: View, m: Memory, given: seq<Region>)
    ensures AnswerTo(Empty, hist, b, view) == Silent && CallsFor(Empty, hist, b, view) == []
    ensures hist + [] == hist && Leaves(Empty, m, m, given)
  {
  }

  /** Reading a tensor changes memory only where the arena has made room for it. */
  lemma TensorRead(m: Memory, m': Memory, before: seq<Region>, given: seq<Region>, p: nat, q: nat, s: seq<byte>,
      fields: seq<byte>)
    requires |s| >= 24 && |s| >= 32 + 8 * Value(s[16..20]) && fields == s[8..] && p < Word8 && q < Word8
    requires given == before + [Region(p, TensorSize, 8)] + [Region(q, 8 * Value(s[16..20]), 8)]
    requires Apart(p, TensorSize, q, 8 * Value(s[16..20]))
    requires m' == TensorFields(m, p, q, Bytes(Value(s[..8]), 8), fields, 8 * Value(s[16..20]))
    ensures TakeTensor(s).Got? && HoldsTensor(m', p, TakeTensor(s).value)
    ensures Untouched(m, m', given, 0, 0)
  {
    hide Value, Bytes, TensorFields, TakeTensor, HoldsTensor, Apart;
    var n := 8 * Value(s[16..20]);
    TensorHeld(m, m', p, q, s, fields, 0);
    assert given[|before|] == Region(p, TensorSize, 8) && given[|before| + 1] == Region(q, n, 8);
    forall x: nat | !Covered(given, x) ensures ByteAt(m', x) == ByteAt(m, x) {
      assert !InRegion(given[|before|], x) && !InRegion(given[|before| + 1], x);
      TensorHeld(m, m', p, q, s, fields, x);
    }
  }

  lemma DataStored(m: Memory, m1: Memory, given: seq<Region>, at: nat, data: seq<byte>)
    requires Untouched(m, m1, given, 0, 0)
    ensures Load(Store(m1, at, data), at, |data|) == data && Untouched(m, Store(m1, at, data), given, at, |data|)
  {
    LoadStored(m1, at, data);
  }

  /** How a frame begins, and that nothing but the empty frame announces no bytes. */
  lemma FrameStarts(r: Request, rest: seq<byte>)
    requires RequestFits(r)
    ensures r.Empty? ==> TakeNumber(Frame(r) + rest, 8) == Got(0, rest)
    ensures !r.Empty? ==> var tail := Bytes(RequestCode(r), 4) + (Content(r) + rest);
                          && TakeNumber(Frame(r) + rest, 8) == Got(4 + |Content(r)|, tail)
                          && TakeNumber(tail, 4) == Got(RequestCode(r), Content(r) + rest)
  {
    hide Bytes, Content, TakeNumber;
    PowerOf(0);
    if r.Empty? {
      NumberRoundTrip(0, 8, rest);
    } else {
      var tail := Bytes(RequestCode(r), 4) + (Content(r) + rest);
      assert Frame(r) + rest == Bytes(4 + |Content(r)|, 8) + tail;
      NumberRoundTrip(4 + |Content(r)|, 8, tail);
      NumberRoundTrip(RequestCode(r), 4, Content(r) + rest);
    }
  }

  // ---------------------------------------------------------------------------
  // A stream of requests
  // ---------------------------------------------------------------------------

  function Frames(rs: seq<Request>): seq<byte> {
    if rs == [] then [] else Frame(rs[0]) + Frames(rs[1..])
  }

  /** All calls into the runtime, those in `hist` and those for the requests. */
  function History(rs: seq<Request>, views: seq<View>, hist: seq<Call>, b: Behaviour): seq<Call>
    requires |views| == |rs|
  {
    if rs == [] then hist
    else
      var n := |rs| - 1;
      var h := History(rs[..n], views[..n], hist, b);
      h + CallsFor(rs[n], h, b, views[n])
  }

  /** The answer to request `k`. */
  function AnswerAt(rs: seq<Request>, views: seq<View>, hist: seq<Call>, b: Behaviour, k: nat): Answer
    requires |views| == |rs| && k < |rs|
  {
    AnswerTo(rs[k], History(rs[..k], views[..k], hist, b), b, views[k])
  }

  /** The replies to the requests, in their order. */
  function Answers(rs: seq<Request>, views: seq<View>, hist: seq<Call>, b: Behaviour): seq<Reply>
    requires |views| == |rs|
  {
    if rs == [] then []
    else
      var n := |rs| - 1;
      var a := AnswerAt(rs, views, hist, b, n);
      Answers(rs[..n], views[..n], hist, b) + if a.Replied? then [a.reply] else []
  }

  /** The number of requests that are not empty. */
  function Asked(rs: seq<Request>): nat {
    if rs == [] then 0 else Asked(rs[..|rs| - 1]) + if rs[|rs| - 1].Empty? then 0 else 1
  }

  /** Every request has been answered: by nothing if it is empty, and by a reply otherwise. */
  predicate AllAnswered(rs: seq<Request>, views: seq<View>, hist: seq<Call>, b: Behaviour)
    requires |views| == |rs|
  {
    forall k | 0 <= k < |rs| ::
      var a := AnswerAt(rs, views, hist, b, k);
      if rs[k].Empty? then a.Silent? else a.Replied?
  }

  lemma EarlierAnswer(rs: seq<Request>, views: seq<View>, hist: seq<Call>, b: Behaviour, n: nat, k: nat)
    requires |views| == |rs| && k < n <= |rs|
    ensures AnswerAt(rs[..n], views[..n], hist, b, k) == AnswerAt(rs, views, hist, b, k)
  {
    assert rs[..n][..k] == rs[..k] && views[..n][..k] == views[..k];
  }

  lemma EarlierAnswered(rs: seq<Request>, views: seq<View>, hist: seq<Call>, b: Behaviour, n: nat)
    requires |views| == |rs| && n <= |rs| && AllAnswered(rs, views, hist, b)
    ensures AllAnswered(rs[..n], views[..n], hist, b)
  {
    hide AnswerAt;
    forall k | 0 <= k < n
      ensures var a := AnswerAt(rs[..n], views[..n], hist, b, k); if rs[k].Empty? then a.Silent? else a.Replied?
    {
      EarlierAnswer(rs, views, hist, b, n, k);
    }
  }

  /** There is just one reply to each request that is not empty. */
  lemma {:induction false} OneReplyEach(rs: seq<Request>, views: seq<View>, hist: seq<Call>, b: Behaviour)
    requires |views| == |rs| && AllAnswered(rs, views, hist, b)
    ensures |Answers(rs, views, hist, b)| == Asked(rs)
  {
    if rs != [] {
      hide AnswerAt;
      var n := |rs| - 1;
      var a := AnswerAt(rs, views, hist, b, n);
      assert if rs[n].Empty? then a.Silent? else a.Replied?;
      EarlierAnswered(rs, views, hist, b, n);
      hide AllAnswered;
      OneReplyEach(rs[..n], views[..n], hist, b);
    }
  }

  /** What is written for an answer. */
  function Given(a: Answer): seq<byte> { if a.Replied? then Framed(Body(a.reply)) else [] }

  /** One more request has been served. */
  lemma ServedAppended(rs: seq<Request>, views: seq<View>, hist: seq<Call>, b: Behaviour, r: Request, view: View)
    requires |views| == |rs| && AllAnswered(rs, views, hist, b)
    requires var a := AnswerTo(r, History(rs, views, hist, b), b, view); if r.Empty? then a.Silent? else a.Replied?
    ensures var h := History(rs, views, hist, b);
            && AllAnswered(rs + [r], views + [view], hist, b)
            && History(rs + [r], views + [view], hist, b) == h + CallsFor(r, h, b, view)
            && Replies(Answers(rs + [r], views + [view], hist, b))
               == Replies(Answers(rs, views, hist, b)) + Given(AnswerTo(r, h, b, view))
  {
    hide AnswerTo, CallsFor, Body, Framed, Replies;
    var rs', views', n := rs + [r], views + [view], |rs|;
    assert rs'[..n] == rs && views'[..n] == views;
    var a := AnswerAt(rs', views', hist, b, n);
    assert a == AnswerTo(r, History(rs, views, hist, b), b, view);
    forall k | 0 <= k < n + 1
      ensures var a := AnswerAt(rs', views', hist, b, k); if rs'[k].Empty? then a.Silent? else a.Replied?
    {
      if k < n { EarlierAnswer(rs', views', hist, b, n, k); }
    }
    var replies := Answers(rs, views, hist, b);
    if a.Replied? {
      RepliesAppend(replies, a.reply);
      assert Answers(rs', views', hist, b) == replies + [a.reply];
    } else {
      assert replies + [] == replies;
      assert Replies(replies) + [] == Replies(replies);
    }
  }

  /** Why the server has stopped before the end of the stream. */
  datatype Stop =
    | NotStopped
    | ByShutdown
    | NoMemoryLeft
    | ByRefusal(status: Status)
    | WriteFailed(reply: Reply, written: nat)   // after some of the bytes of the reply

  /** The stop is what request `r` leads to after the calls in `hist`. */
  predicate StopsAt(r: Request, stop: Stop, hist: seq<Call>, b: Behaviour, view: View) {
    match stop
    case NotStopped => false
    case ByShutdown => r.Shutdown?
    case NoMemoryLeft => true
    case ByRefusal(status) => AnswerTo(r, hist, b, view) == Refuses(status)
    case WriteFailed(reply, written) => AnswerTo(r, hist, b, view) == Replied(reply) && written < |Framed(Body(reply))|
  }

  /** What is written of the reply at which a write failed. */
  function Fragment(stop: Stop): seq<byte> {
    match stop
    case WriteFailed(reply, written) => if written <= |Framed(Body(reply))| then Framed(Body(reply))[..written] else []
    case _ => []
  }

  lemma NothingServed(hist: seq<Call>, b: Behaviour)
    ensures AllAnswered([], [], hist, b) && Answers([], [], hist, b) == [] && History([], [], hist, b) == hist
    ensures Replies([]) == []
  {
  }

  lemma AnswerKinds(r: Request, hist: seq<Call>, b: Behaviour, view: View)
    ensures r.Empty? ==> AnswerTo(r, hist, b, view).Silent?
    ensures !r.Empty? && !r.Shutdown? ==> AnswerTo(r, hist, b, view).Replied? || AnswerTo(r, hist, b, view).Refuses?
  {
    hide PassesChecks, ReturnedArgs, Unsupported, FirstRefusal;
  }

  /** Whether an answer was given completely, and what has been written of it. */
  lemma GivenOrStopped(a: Answer, made: seq<Call>, w: Wire, calls: seq<Call>, w': Wire, calls': seq<Call>)
    returns (stop: Stop)
    requires w.thrown.None? && Gave(a, made, w, calls, w', calls')
    ensures stop.NotStopped? || stop.ByRefusal? || stop.WriteFailed?
    ensures stop.NotStopped? ==> w'.thrown.None? && !a.Refuses? && calls' == calls + made
    ensures stop.ByRefusal? ==> a == Refuses(stop.status) && w'.thrown == Some(stop.status)
    ensures stop.WriteFailed? ==>
              a == Replied(stop.reply) && stop.written < |Framed(Body(stop.reply))| && w'.thrown == Some(WriteError)
    ensures w'.output
         == w.output + if stop.NotStopped? then Given(a) else Fragment(stop)
  {
    hide Framed, Body;
    match a
    case Silent => stop := NotStopped;
    case Ends => stop := NotStopped;
    case Refuses(status) => stop := ByRefusal(status);
    case Replied(reply) =>
      if w'.thrown.None? {
        stop := NotStopped;
      } else {
        var k: nat :| k < |Framed(Body(reply))| && w' == CutAt(w, Framed(Body(reply)), k);
        stop := WriteFailed(reply, k);
      }
  }

  /**
   A stream of well-formed requests is served frame by frame without drift. The first `n` requests have had
   their calls made, in order, and their replies written, in order. That are all of them, unless the server
   is shut down, refuses the next request, has no memory for it or cannot write its reply.
   */
  method ServeAll(server: MinRpcServer, count: nat, ghost rs: seq<Request>, ghost rest: seq<byte>)
    returns (goOn: bool, ghost n: nat, ghost views: seq<View>, ghost stop: Stop, ghost last: View)
    requires server.Valid() && |rs| == count && server.rx.input == Frames(rs) + rest
    requires forall i | 0 <= i < |rs| :: RequestFits(rs[i])
    modifies server.rx, server.rx.arena, server.tx, server.runtime
    ensures n <= |rs| && |views| == n
    ensures var hist, b := old(server.runtime.calls), server.runtime.behave;
            && AllAnswered(rs[..n], views, hist, b)
            && server.tx.output
               == old(server.tx.output) + Replies(Answers(rs[..n], views, hist, b)) + Fragment(stop)
            && (if stop.NotStopped?
                then goOn && n == |rs| && server.Valid() && server.rx.input == rest
                     && server.runtime.calls == History(rs, views, hist, b)
                else n < |rs| && StopsAt(rs[n], stop, History(rs[..n], views, hist, b), b, last))
    ensures stop.NoMemoryLeft? ==> server.OutOfMemory()
    ensures stop.ByRefusal? ==> server.tx.thrown == Some(stop.status)
    ensures stop.WriteFailed? ==> server.tx.thrown == Some(WriteError)
  {
    hide Frame, AnswerTo, CallsFor, RequestFits, Gave, GenericArena.Valid, Leaves, AnswerAt, Given;
    hide AllAnswered, Answers, Replies, History;
    ghost var hist, b := server.runtime.calls, server.runtime.behave;
    var i := 0;
    n, views, stop, last := 0, [], NotStopped, View(server.rx.mem, 0);
    assert rs[..0] == [] && rs[0..] == rs;
    NothingServed(hist, b);
    while i < count
      invariant 0 <= i <= |rs| && n == i && |views| == n && stop.NotStopped?
      invariant server.Valid() && server.rx.input == Frames(rs[i..]) + rest
      invariant AllAnswered(rs[..i], views, hist, b)
      invariant server.tx.output == old(server.tx.output) + Replies(Answers(rs[..i], views, hist, b))
      invariant server.runtime.calls == History(rs[..i], views, hist, b)
    {
      ghost var r, tail := rs[i], Frames(rs[i + 1..]) + rest;
      assert rs[i..][0] == r && rs[i..][1..] == rs[i + 1..];
      assert server.rx.input == Frame(r) + tail;
      ghost var w, h := server.tx.Now(), server.runtime.calls;
      goOn, last := server.ProcessOnePacket(r, tail);
      match server.rx.state {
        case Exited(_) =>
          stop := if r.Shutdown? then ByShutdown else NoMemoryLeft;
          return;
        case Running =>
      }
      AnswerKinds(r, h, b, last);
      stop := GivenOrStopped(AnswerTo(r, h, b, last), CallsFor(r, h, b, last), w, h, server.tx.Now(),
          server.runtime.calls);
      if server.tx.thrown.Some? { return; }
      ServedAppended(rs[..i], views, hist, b, r, last);
      assert rs[..i] + [r] == rs[..i + 1];
      views := views + [last];
      i := i + 1;
      n := i;
    }
    goOn := true;
    assert rs[i..] == [] && rs[..i] == rs;
  }

  /**
   The frame of a system call, with its arguments by name: the runtime is asked for just the call they stand for,
   and the reply is its error, its handle or nothing.
   */
  method ServeSyscall(server: MinRpcServer, ghost c: SystemCall, ghost rest: seq<byte>) returns (goOn: bool)
    requires server.Valid()
    requires RequestFits(Syscall(Wired(c).0, Wired(c).1))
    requires server.rx.input == Frame(Syscall(Wired(c).0, Wired(c).1)) + rest
    modifies server.rx, server.rx.arena, server.tx, server.runtime
    ensures goOn ==>
              && server.rx.input == rest && server.runtime.calls == old(server.runtime.calls) + [CallMeant(c)]
              && var o := server.runtime.behave(server.runtime.calls);
                 var reply := if !o.ok then ExceptionReply(o.message)
                              else if WantsHandle(c) then HandleReply(o.handle) else VoidReply;
                 server.tx.output == old(server.tx.output) + Framed(Body(reply))
    ensures !goOn ==> server.OutOfMemory() || server.tx.thrown == Some(WriteError)
  {
    hide Frame, Body, Framed, RequestFits, GenericArena.Valid, Wired, SyscallAnswer, SyscallCalls;
    ghost var view;
    MeantAsks(c, server.runtime.calls, server.runtime.behave);
    goOn, view := server.ProcessOnePacket(Syscall(Wired(c).0, Wired(c).1), rest);
    if !server.rx.state.Running? || server.tx.thrown.Some? { return false; }
  }

  /**
   Data that are copied to the host's memory and then copied back come back as they were, unless they were put
   where the arena makes room for the second request.
   */
  method CopyThereAndBack(server: MinRpcServer, ghost t: Tensor, ghost data: seq<byte>, ghost rest: seq<byte>)
    returns (goOn: bool)
    requires server.Valid() && OnHost(t)
    requires RequestFits(CopyTo(t, data)) && RequestFits(CopyFrom(t, |data|))
    requires server.rx.input == Frame(CopyTo(t, data)) + (Frame(CopyFrom(t, |data|)) + rest)
    modifies server.rx, server.rx.arena, server.tx, server.runtime
    ensures goOn && (forall x: nat | DataAt(t) <= x < DataAt(t) + |data| :: !Covered(server.rx.arena.given, x)) ==>
              && server.rx.input == rest && server.runtime.calls == old(server.runtime.calls)
              && server.tx.output == old(server.tx.output) + Framed(Body(VoidReply)) + Framed(Body(CopyAck(data)))
    ensures !goOn ==> server.OutOfMemory() || server.tx.thrown == Some(WriteError)
  {
    hide Frame, Body, Framed, RequestFits, GenericArena.Valid, Load, Covered;
    ghost var view;
    goOn, view := server.ProcessOnePacket(CopyTo(t, data), Frame(CopyFrom(t, |data|)) + rest);
    if !server.rx.state.Running? || server.tx.thrown.Some? { return false; }
    ghost var m := server.rx.mem;
    goOn, view := server.ProcessOnePacket(CopyFrom(t, |data|), rest);
    if !server.rx.state.Running? || server.tx.thrown.Some? { return false; }
    if forall x: nat | DataAt(t) <= x < DataAt(t) + |data| :: !Covered(server.rx.arena.given, x) {
      DataStays(m, server.rx.mem, server.rx.arena.given, DataAt(t), |data|);
    }
  }

  lemma DataStays(m: Memory, m': Memory, given: seq<Region>, at: nat, n: nat)
    requires Untouched(m, m', given, 0, 0) && forall x: nat | at <= x < at + n :: !Covered(given, x)
    ensures Load(m', at, n) == Load(m, at, n)
  {
    hide Covered;
    assert Same(m, m', Range(at, n));
    SameLoad(m, m', Range(at, n), at, n);
  }

  // ---------------------------------------------------------------------------
  // The client's side
  // ---------------------------------------------------------------------------

  /** Outcomes that the C types can hold, with results whose length can be announced. */
  predicate OutcomeFits(o: Outcome) {
    && o.handle < Word8 && |o.message| < Word4 && (forall i | 0 <= i < |o.message| :: o.message[i] != 0)
    && AllFit(ReturnedArgs(o)) && |SeqBytes(ReturnedArgs(o))| < Word8 - 4
  }

  predicate PlainText(text: string) { |text| < 100 && forall i | 0 <= i < |text| :: ' ' <= text[i] <= 'z' }

  lemma MessagesArePlain()
    ensures PlainText(NoSetDevice) && PlainText(NoGetAttr) && PlainText(NotRecognized)
  {
  }

  lemma TextFits(text: string)
    requires PlainText(text)
    ensures ReplyFits(ExceptionReply(Ascii(text)))
  {
    hide Bytes;
  }

  lemma MessagesFit(code: nat)
    requires Unsupported(code).Some?
    ensures ReplyFits(ExceptionReply(Ascii(Unsupported(code).value)))
  {
    hide PlainText, Ascii, ReplyFits;
    MessagesArePlain();
    TextFits(Unsupported(code).value);
  }

  lemma ResultFits(o: Outcome)
    requires OutcomeFits(o)
    ensures ReplyFits(ExceptionReply(o.message)) && ReplyFits(HandleReply(o.handle)) && ReplyFits(VoidReply)
    ensures FirstRefusal(ReturnedArgs(o), false) == None ==> ReplyFits(SeqReply(ReturnedArgs(o)))
  {
    hide Bytes, SeqBytes, ReturnedArgs, FirstRefusal, AllFit;
  }

  /** Every reply can announce its length, for outcomes that fit and unless too much is asked to be copied. */
  lemma AnswerFits(r: Request, hist: seq<Call>, b: Behaviour, view: View)
    requires (forall calls :: OutcomeFits(b(calls))) && (r.CopyFrom? ==> r.size < Word8 - 4)
    ensures var a := AnswerTo(r, hist, b, view); a.Replied? ==> ReplyFits(a.reply)
  {
    hide OutcomeFits, PassesChecks, ReturnedArgs, FirstRefusal, AllFit, SyscallCall, SeqBytes, Bytes;
    forall calls ensures var o := b(calls);
        && ReplyFits(ExceptionReply(o.message)) && ReplyFits(HandleReply(o.handle)) && ReplyFits(VoidReply)
        && (FirstRefusal(ReturnedArgs(o), false) == None ==> ReplyFits(SeqReply(ReturnedArgs(o))))
    {
      ResultFits(b(calls));
    }
    if r.Syscall? && Unsupported(r.code).Some? { MessagesFit(r.code); }
  }

  /** A client that reads as many frames as the server has replied finds each reply, in order, and nothing else. */
  lemma ClientReadsAnswers(rs: seq<Request>, views: seq<View>, hist: seq<Call>, b: Behaviour, rest: seq<byte>)
    requires |views| == |rs| && (forall calls :: OutcomeFits(b(calls)))
    requires forall k | 0 <= k < |rs| :: rs[k].CopyFrom? ==> rs[k].size < Word8 - 4
    ensures var replies := Answers(rs, views, hist, b);
            && (forall r <- replies :: |Body(r)| >= 4)
            && ReadFrames(Replies(replies) + rest, |replies|) == Got(FramesOf(replies), rest)
  {
    AnswersFit(rs, views, hist, b);
    RepliesReadBack(Answers(rs, views, hist, b), rest);
  }

  lemma {:induction false} AnswersFit(rs: seq<Request>, views: seq<View>, hist: seq<Call>, b: Behaviour)
    requires |views| == |rs| && (forall calls :: OutcomeFits(b(calls)))
    requires forall k | 0 <= k < |rs| :: rs[k].CopyFrom? ==> rs[k].size < Word8 - 4
    ensures forall r <- Answers(rs, views, hist, b) :: ReplyFits(r)
  {
    hide OutcomeFits, ReplyFits, AnswerTo;
    if rs != [] {
      var n := |rs| - 1;
      AnswersFit(rs[..n], views[..n], hist, b);
      AnswerFits(rs[n], History(rs[..n], views[..n], hist, b), b, views[n]);
    }
  }

  /** What the handlers make of the content of a request. */
  predicate ContentIsRead(r: Request, s: seq<byte>, rest: seq<byte>) {
    match r
    case Empty => true
    case Shutdown => true
    case Syscall(_, args) => TakeSeq(s) == Got(args, rest)
    case CallFunc(handle, args) =>
      && TakeNumber(s, 8).Got? && TakeNumber(s, 8).value == handle
      && TakeSeq(TakeNumber(s, 8).rest) == Got(args, rest)
    case InitServer(version, args) =>
      && TakeNumber(s, 8).Got? && TakeNumber(s, 8).value == |version|
      && var s' := TakeNumber(s, 8).rest;
      |s'| >= |version| && s'[..|version|] == version && TakeSeq(s'[|version|..]) == Got(args, rest)
    case CopyFrom(t, size) =>
      TakeTensor(s).Got? && TakeTensor(s).value == t && TakeNumber(TakeTensor(s).rest, 8) == Got(size, rest)
    case CopyTo(t, data) =>
      && TakeTensor(s).Got? && TakeTensor(s).value == t && TakeNumber(TakeTensor(s).rest, 8).Got?
      && TakeNumber(TakeTensor(s).rest, 8).value == |data|
      && var s' := TakeNumber(TakeTensor(s).rest, 8).rest;
      |s'| >= |data| && s'[..|data|] == data && s'[|data|..] == rest
  }

  lemma ContentReadsBack(r: Request, rest: seq<byte>)
    requires RequestFits(r)
    ensures ContentIsRead(r, Content(r) + rest, rest)
  {
    hide Bytes, TakeSeq, TakeTensor, SeqBytes, TensorBytes, TakeNumber, AllFit, TensorFits, FirstRefusal;
    PowerOf(0);
    var s := Content(r) + rest;
    match r
    case Empty =>
    case Shutdown =>
    case Syscall(_, args) => SeqRoundTrip(args, true, rest);
    case CallFunc(handle, args) =>
      assert s == Bytes(handle, 8) + (SeqBytes(args) + rest);
      NumberRoundTrip(handle, 8, SeqBytes(args) + rest);
      SeqRoundTrip(args, true, rest);
    case InitServer(version, args) =>
      var s' := version + (SeqBytes(args) + rest);
      assert s == Bytes(|version|, 8) + s';
      NumberRoundTrip(|version|, 8, s');
      assert s'[|version|..] == SeqBytes(args) + rest && s'[..|version|] == version;
      SeqRoundTrip(args, true, rest);
    case CopyFrom(t, size) =>
      assert s == TensorBytes(t) + (Bytes(size, 8) + rest);
      TensorRoundTrip(t, Bytes(size, 8) + rest);
      NumberRoundTrip(size, 8, rest);
    case CopyTo(t, data) =>
      assert s == TensorBytes(t) + (Bytes(|data|, 8) + (data + rest));
      TensorRoundTrip(t, Bytes(|data|, 8) + (data + rest));
      NumberRoundTrip(|data|, 8, data + rest);
      assert (data + rest)[|data|..] == rest && (data + rest)[..|data|] == data;
  }

  lemma TakenOrShort(s: seq<byte>)
    ensures TakeTensor(s).Got? || TakeTensor(s).Short?
  {
  }

  lemma TensorIsTaken(s: seq<byte>)
    requires TakeTensor(s).Got?
    ensures |s| >= 24 && |s| >= 32 + 8 * Value(s[16..20]) && TakeTensor(s).rest == s[24..][8 * Value(s[16..20]) + 8..]
  {
    TensorShort(s);
    TensorBack(s);
  }
}
