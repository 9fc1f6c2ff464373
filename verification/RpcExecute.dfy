module RpcExecute {
  /**
   `MinRPCExecute`: the calls that requests make into the C runtime, the checks before them, and the
   replies after them. What the runtime does is unknown; it may depend on all calls so far.
   */

  import opened Wrappers
  import opened ByteStrings
  import opened PackedSeq
  import opened Arena
  import opened RpcMemory
  import opened RpcReceiver
  import opened RpcChannel

  // Codes of the system calls.
  const GetGlobalFunc := 9
  const FreeHandle := 10
  const DevSetDevice := 11
  const DevGetAttr := 12
  const DevAllocData := 13
  const DevFreeData := 14
  const DevStreamSync := 15
  const CopyAmongRemote := 16
  const DevAllocDataWithScope := 17
  const DevCreateStream := 18
  const DevFreeStream := 19
  const DevSetStream := 20

  const CpuDevice := 1

  // ---------------------------------------------------------------------------
  // The runtime
  // ---------------------------------------------------------------------------

  datatype Call =
    | FuncCall(handle: nat, args: seq<Arg>)
    | ByteArrayFree(data: seq<byte>)
    | ArrayFree(handle: nat)
    | FuncFree(handle: nat)
    | ModFree(handle: nat)
    | GetGlobal(name: seq<byte>)
    | CopyFromTo(from: Tensor, to: Tensor, stream: nat)
    | AllocSpace(device: Device, nbytes: nat, alignment: nat, hint: DType)
    | AllocSpaceWithScope(tensor: Tensor, scope: Option<seq<byte>>)
    | FreeSpace(device: Device, handle: nat)
    | StreamCreate(device: Device)
    | StreamFree(device: Device, stream: nat)
    | Synchronize(device: Device, stream: nat)
    | SetStream(device: Device, stream: nat)

  /**
   A call succeeds or leaves an error message; either way it may change memory. A success may
   return a value, which is `tensor` behind `handle` for an array, or a handle.
   */
  datatype Outcome = Outcome(
    ok: bool, message: seq<byte>, value: Arg, tensor: Tensor, handle: nat, effect: Memory -> Memory)

  /** The outcome of the last of the calls. */
  type Behaviour = seq<Call> -> Outcome

  class Runtime {
    const behave: Behaviour
    var calls: seq<Call>

    constructor (behave: Behaviour)
      ensures this.behave == behave && calls == []
    {
      this.behave := behave;
      calls := [];
    }
  }

  // ---------------------------------------------------------------------------
  // What is asked of the runtime, and answered
  // ---------------------------------------------------------------------------

  datatype Answer =
    | Silent                    // nothing is replied
    | Replied(reply: Reply)
    | Refuses(status: Status)   // an error ends the program before anything is written
    | Ends                      // the server shuts down

  function Ascii(s: string): seq<byte> { seq(|s|, i requires 0 <= i < |s| => s[i] as int % 256) }

  /** A returned value is preceded by its type code, and handles become opaque. */
  function ReturnedArgs(o: Outcome): seq<Arg> {
    var code := Number(KInt, CodeOf(o.value));
    match o.value
    case NDArray => [code, TensorArg(o.tensor), Handle(KOpaqueHandle, o.handle)]
    case Handle(c, h) => if c == KPackedFunc || c == KModule then [code, Handle(KOpaqueHandle, h)] else [code, o.value]
    case _ => [code, o.value]
  }

  function SeqAnswer(args: seq<Arg>): Answer {
    if FirstRefusal(args, false).Some? then Refuses(FirstRefusal(args, false).value) else Replied(SeqReply(args))
  }

  lemma BytesAreAccepted(code: nat, data: seq<byte>)
    ensures FirstRefusal([Number(KInt, code), ByteArray(data)], false) == None
  {
    var last := [ByteArray(data)];
    assert last[1..] == [] && FirstRefusal(last, false) == FirstRefusal([], false) == None;
    assert [Number(KInt, code), ByteArray(data)][1..] == last;
  }

  /** The outcome of a call after the calls in `hist`. */
  function Ask(hist: seq<Call>, b: Behaviour, c: Call): Outcome { b(hist + [c]) }

  /** A byte array that a function returns is freed once it is sent. */
  function FuncCalls(handle: nat, args: seq<Arg>, hist: seq<Call>, b: Behaviour): seq<Call> {
    var c := FuncCall(handle, args);
    var o := Ask(hist, b, c);
    if o.ok && o.value.ByteArray? then [c, ByteArrayFree(o.value.data)] else [c]
  }

  function FuncAnswer(handle: nat, args: seq<Arg>, hist: seq<Call>, b: Behaviour): Answer {
    var o := Ask(hist, b, FuncCall(handle, args));
    if o.ok then SeqAnswer(ReturnedArgs(o)) else Replied(ExceptionReply(o.message))
  }

  /** The host's side of a copy: the tensor's elements, one after the other, at `at`. */
  function HostTensor(t: Tensor, at: nat): Tensor { Tensor(at, Device(CpuDevice, 0), t.dtype, t.shape, false, 0) }

  /** A copy between host and device, and the wait for its end unless it fails at once. */
  function CopyCalls(from: Tensor, to: Tensor, device: Device, hist: seq<Call>, b: Behaviour): seq<Call> {
    var c := CopyFromTo(from, to, 0);
    if Ask(hist, b, c).ok then [c, Synchronize(device, 0)] else [c]
  }

  function CopyOutcome(from: Tensor, to: Tensor, device: Device, hist: seq<Call>, b: Behaviour): Outcome {
    b(hist + CopyCalls(from, to, device, hist, b))
  }

  /** Data of the host are sent from where they are, those of a device from `temp`, where they were copied. */
  function CopyFromAnswer(t: Tensor, size: nat, hist: seq<Call>, b: Behaviour, m: Memory, temp: nat): Answer {
    if t.device.kind == CpuDevice then Replied(CopyAck(Load(m, t.data + t.byteOffset, size)))
    else
      var o := CopyOutcome(t, HostTensor(t, temp), t.device, hist, b);
      Replied(if o.ok then CopyAck(Load(m, temp, size)) else ExceptionReply(o.message))
  }

  function CopyFromCalls(t: Tensor, hist: seq<Call>, b: Behaviour, temp: nat): seq<Call> {
    if t.device.kind == CpuDevice then [] else CopyCalls(t, HostTensor(t, temp), t.device, hist, b)
  }

  function CopyToAnswer(t: Tensor, hist: seq<Call>, b: Behaviour, temp: nat): Answer {
    if t.device.kind == CpuDevice then Replied(VoidReply)
    else
      var o := CopyOutcome(HostTensor(t, temp), t, t.device, hist, b);
      Replied(if o.ok then VoidReply else ExceptionReply(o.message))
  }

  function CopyToCalls(t: Tensor, hist: seq<Call>, b: Behaviour, temp: nat): seq<Call> {
    if t.device.kind == CpuDevice then [] else CopyCalls(HostTensor(t, temp), t, t.device, hist, b)
  }

  // ---------------------------------------------------------------------------
  // System calls
  // ---------------------------------------------------------------------------

  /** The lists of type codes that a system call accepts. */
  function Signatures(code: nat): seq<seq<nat>> {
    if code == GetGlobalFunc then [[KStr]]
    else if code == FreeHandle then [[KOpaqueHandle, KInt]]
    else if code == DevAllocData then [[KDevice, KInt, KInt, KDataType]]
    else if code in {DevFreeData, DevStreamSync, DevFreeStream, DevSetStream} then [[KDevice, KOpaqueHandle]]
    else if code == CopyAmongRemote then [[KTensor, KTensor, KOpaqueHandle]]
    else if code == DevAllocDataWithScope then [[KTensor, KNull], [KTensor, KStr]]
    else if code == DevCreateStream then [[KDevice]]
    else []
  }

  /** A handle is freed by its kind. */
  predicate PassesChecks(code: nat, args: seq<Arg>) {
    && Codes(args) in Signatures(code)
    && (code == FreeHandle ==> WordOf(args, 1) in {KNDArray, KPackedFunc, KModule})
  }

  // What is in the slots of the arguments.

  function ArgAt(args: seq<Arg>, i: nat): Arg { if i < |args| then args[i] else Null }

  function WordOf(args: seq<Arg>, i: nat): nat {
    match ArgAt(args, i)
    case Number(_, bits) => bits
    case Handle(_, h) => h
    case _ => 0
  }

  function DeviceOf(args: seq<Arg>, i: nat): Device {
    match ArgAt(args, i)
    case DeviceArg(d) => d
    case _ => Device(0, 0)
  }

  function TypeOf(args: seq<Arg>, i: nat): DType {
    match ArgAt(args, i)
    case TypeArg(t) => t
    case _ => DType(0, 0, 0)
  }

  function TextOf(args: seq<Arg>, i: nat): seq<byte> {
    match ArgAt(args, i)
    case Str(chars) => chars
    case _ => []
  }

  function TensorOf(args: seq<Arg>, i: nat): Tensor {
    match ArgAt(args, i)
    case TensorArg(t) => t
    case _ => Tensor(0, Device(0, 0), DType(0, 0, 0), [], false, 0)
  }

  /** What a system call asks of the runtime. */
  function SyscallCall(code: nat, args: seq<Arg>): Call {
    if code == GetGlobalFunc then GetGlobal(TextOf(args, 0))
    else if code == FreeHandle then
      if WordOf(args, 1) == KNDArray then ArrayFree(WordOf(args, 0))
      else if WordOf(args, 1) == KPackedFunc then FuncFree(WordOf(args, 0))
      else ModFree(WordOf(args, 0))
    else if code == DevAllocData then AllocSpace(DeviceOf(args, 0), WordOf(args, 1), WordOf(args, 2), TypeOf(args, 3))
    else if code == DevAllocDataWithScope then
      AllocSpaceWithScope(TensorOf(args, 0), if CodeOf(ArgAt(args, 1)) == KNull then None else Some(TextOf(args, 1)))
    else if code == DevFreeData then FreeSpace(DeviceOf(args, 0), WordOf(args, 1))
    else if code == DevCreateStream then StreamCreate(DeviceOf(args, 0))
    else if code == DevFreeStream then StreamFree(DeviceOf(args, 0), WordOf(args, 1))
    else if code == DevStreamSync then Synchronize(DeviceOf(args, 0), WordOf(args, 1))
    else if code == DevSetStream then SetStream(DeviceOf(args, 0), WordOf(args, 1))
    else CopyFromTo(TensorOf(args, 0), TensorOf(args, 1), WordOf(args, 2))
  }

  /** The system calls whose success gives a handle. */
  predicate GivesHandle(code: nat) { code in {GetGlobalFunc, DevAllocData, DevAllocDataWithScope, DevCreateStream} }

  const NoSetDevice := "SetDevice not supported"
  const NoGetAttr := "GetAttr not supported"
  const NotRecognized := "Syscall not recognized"

  function Unsupported(code: nat): Option<string> {
    if code == DevSetDevice then Some(NoSetDevice)
    else if code == DevGetAttr then Some(NoGetAttr)
    else if Signatures(code) == [] then Some(NotRecognized)
    else None
  }

  function SyscallAnswer(code: nat, args: seq<Arg>, hist: seq<Call>, b: Behaviour): Answer {
    match Unsupported(code)
    case Some(text) => Replied(ExceptionReply(Ascii(text)))
    case None =>
      if !PassesChecks(code, args) then Refuses(CheckError)
      else
        var o := Ask(hist, b, SyscallCall(code, args));
        Replied(if !o.ok then ExceptionReply(o.message) else if GivesHandle(code) then HandleReply(o.handle)
            else VoidReply)
  }

  function SyscallCalls(code: nat, args: seq<Arg>): seq<Call> {
    if Unsupported(code).None? && PassesChecks(code, args) then [SyscallCall(code, args)] else []
  }

  /** A copy from a device: its elements to the host, one after the other, and then the wait for the device. */
  lemma DeviceCopies(t: Tensor, size: nat, hist: seq<Call>, b: Behaviour, m: Memory, temp: nat)
    requires t.device.kind != CpuDevice
    ensures var host := Tensor(temp, Device(CpuDevice, 0), t.dtype, t.shape, false, 0);
            var copied, awaited := b(hist + [CopyFromTo(t, host, 0)]),
                                   b(hist + [CopyFromTo(t, host, 0), Synchronize(t.device, 0)]);
            && CopyFromCalls(t, hist, b, temp)
               == (if copied.ok then [CopyFromTo(t, host, 0), Synchronize(t.device, 0)] else [CopyFromTo(t, host, 0)])
            && CopyFromAnswer(t, size, hist, b, m, temp)
               == Replied(if !copied.ok then ExceptionReply(copied.message)
                          else if !awaited.ok then ExceptionReply(awaited.message)
                          else CopyAck(Load(m, temp, size)))
    ensures var host := Tensor(temp, Device(CpuDevice, 0), t.dtype, t.shape, false, 0);
            var copied, awaited := b(hist + [CopyFromTo(host, t, 0)]),
                                   b(hist + [CopyFromTo(host, t, 0), Synchronize(t.device, 0)]);
            && CopyToCalls(t, hist, b, temp)
               == (if copied.ok then [CopyFromTo(host, t, 0), Synchronize(t.device, 0)] else [CopyFromTo(host, t, 0)])
            && CopyToAnswer(t, hist, b, temp)
               == Replied(if !copied.ok then ExceptionReply(copied.message)
                          else if !awaited.ok then ExceptionReply(awaited.message)
                          else VoidReply)
  {
  }

  /** What a client receives for the value of a function, by its kind. */
  lemma ValuesAreReturned(h: nat, args: seq<Arg>, hist: seq<Call>, b: Behaviour)
    ensures var o := b(hist + [FuncCall(h, args)]);
            var a := FuncAnswer(h, args, hist, b);
            && (!o.ok ==> a == Replied(ExceptionReply(o.message)))
            && (o.ok && o.value.Null? ==> a == Replied(SeqReply([Number(KInt, KNull), Null])))
            && (o.ok && o.value.ByteArray? ==> a == Replied(SeqReply([Number(KInt, KBytes), o.value])))
            && (o.ok && o.value.Str? ==> a == Replied(SeqReply([Number(KInt, KStr), o.value])))
            && (o.ok && o.value.Number? ==> a == Replied(SeqReply([Number(KInt, o.value.code), o.value])))
            && (o.ok && o.value.Handle? ==>
                  var code := o.value.code;
                  var sent := if code == KPackedFunc || code == KModule then KOpaqueHandle else code;
                  a == Replied(SeqReply([Number(KInt, code), Handle(sent, o.value.handle)])))
            && (o.ok && o.value.NDArray? && !o.tensor.strides ==>
                  a == Replied(SeqReply([Number(KInt, KNDArray), TensorArg(o.tensor),
                                         Handle(KOpaqueHandle, o.handle)])))
  {
    var o := b(hist + [FuncCall(h, args)]);
    PairAccepted(ReturnedArgs(o));
  }

  lemma PairAccepted(args: seq<Arg>)
    requires 2 <= |args| <= 3
    ensures (forall i | 0 <= i < |args| :: Refusal(args[i], false).None?) ==> FirstRefusal(args, false) == None
  {
    var rest := args[1..];
    var last := rest[1..];
    assert FirstRefusal([], false) == None;
    assert last != [] ==> last[1..] == [];
    assert rest[0] == args[1] && (last != [] ==> last[0] == args[2]);
  }

  // ---------------------------------------------------------------------------
  // System calls, one by one
  // ---------------------------------------------------------------------------

  /** The system call makes just the call `c`, and replies with its error, its handle if it `gives` one, or nothing. */
  predicate Asks(code: nat, args: seq<Arg>, hist: seq<Call>, b: Behaviour, c: Call, gives: bool) {
    var o := b(hist + [c]);
    && SyscallCalls(code, args) == [c]
    && SyscallAnswer(code, args, hist, b)
       == Replied(if !o.ok then ExceptionReply(o.message) else if gives then HandleReply(o.handle) else VoidReply)
  }

  lemma AsksIfPasses(code: nat, args: seq<Arg>, hist: seq<Call>, b: Behaviour)
    requires Unsupported(code).None? && PassesChecks(code, args)
    ensures Asks(code, args, hist, b, SyscallCall(code, args), GivesHandle(code))
  {
  }

  /** Freeing a handle is a call that fits its kind. */
  lemma FreeingAsks(h: nat, hist: seq<Call>, b: Behaviour)
    ensures Asks(FreeHandle, [Handle(KOpaqueHandle, h), Number(KInt, KNDArray)], hist, b, ArrayFree(h), false)
    ensures Asks(FreeHandle, [Handle(KOpaqueHandle, h), Number(KInt, KPackedFunc)], hist, b, FuncFree(h), false)
    ensures Asks(FreeHandle, [Handle(KOpaqueHandle, h), Number(KInt, KModule)], hist, b, ModFree(h), false)
  {
    hide Asks;
    forall kind | kind in {KNDArray, KPackedFunc, KModule}
      ensures PassesChecks(FreeHandle, [Handle(KOpaqueHandle, h), Number(KInt, kind)])
    {
      assert Codes([Handle(KOpaqueHandle, h), Number(KInt, kind)]) == [KOpaqueHandle, KInt];
    }
    AsksIfPasses(FreeHandle, [Handle(KOpaqueHandle, h), Number(KInt, KNDArray)], hist, b);
    AsksIfPasses(FreeHandle, [Handle(KOpaqueHandle, h), Number(KInt, KPackedFunc)], hist, b);
    AsksIfPasses(FreeHandle, [Handle(KOpaqueHandle, h), Number(KInt, KModule)], hist, b);
  }

  lemma GettingAsks(name: seq<byte>, hist: seq<Call>, b: Behaviour)
    ensures Asks(GetGlobalFunc, [Str(name)], hist, b, GetGlobal(name), true)
  {
    hide Asks;
    assert Codes([Str(name)]) == [KStr];
    AsksIfPasses(GetGlobalFunc, [Str(name)], hist, b);
  }

  lemma CopyingAsks(from: Tensor, to: Tensor, stream: nat, hist: seq<Call>, b: Behaviour)
    ensures Asks(CopyAmongRemote, [TensorArg(from), TensorArg(to), Handle(KOpaqueHandle, stream)], hist, b,
                 CopyFromTo(from, to, stream), false)
  {
    hide Asks;
    var args := [TensorArg(from), TensorArg(to), Handle(KOpaqueHandle, stream)];
    assert Codes(args) == [KTensor, KTensor, KOpaqueHandle];
    AsksIfPasses(CopyAmongRemote, args, hist, b);
  }

  lemma AllocatingAsks(d: Device, nbytes: nat, alignment: nat, hint: DType, hist: seq<Call>, b: Behaviour)
    ensures Asks(DevAllocData, [DeviceArg(d), Number(KInt, nbytes), Number(KInt, alignment), TypeArg(hint)], hist, b,
                 AllocSpace(d, nbytes, alignment, hint), true)
  {
    hide Asks;
    var args := [DeviceArg(d), Number(KInt, nbytes), Number(KInt, alignment), TypeArg(hint)];
    assert Codes(args) == [KDevice, KInt, KInt, KDataType];
    AsksIfPasses(DevAllocData, args, hist, b);
  }

  lemma AllocatingWithScopeAsks(t: Tensor, scope: seq<byte>, hist: seq<Call>, b: Behaviour)
    ensures Asks(DevAllocDataWithScope, [TensorArg(t), Null], hist, b, AllocSpaceWithScope(t, None), true)
    ensures Asks(DevAllocDataWithScope, [TensorArg(t), Str(scope)], hist, b, AllocSpaceWithScope(t, Some(scope)), true)
  {
    hide Asks;
    assert Codes([TensorArg(t), Null]) == [KTensor, KNull];
    assert Codes([TensorArg(t), Str(scope)]) == [KTensor, KStr];
    AsksIfPasses(DevAllocDataWithScope, [TensorArg(t), Null], hist, b);
    AsksIfPasses(DevAllocDataWithScope, [TensorArg(t), Str(scope)], hist, b);
  }

  lemma DeviceCallsAsk(d: Device, h: nat, hist: seq<Call>, b: Behaviour)
    ensures Asks(DevFreeData, [DeviceArg(d), Handle(KOpaqueHandle, h)], hist, b, FreeSpace(d, h), false)
    ensures Asks(DevFreeStream, [DeviceArg(d), Handle(KOpaqueHandle, h)], hist, b, StreamFree(d, h), false)
    ensures Asks(DevStreamSync, [DeviceArg(d), Handle(KOpaqueHandle, h)], hist, b, Synchronize(d, h), false)
    ensures Asks(DevSetStream, [DeviceArg(d), Handle(KOpaqueHandle, h)], hist, b, SetStream(d, h), false)
    ensures Asks(DevCreateStream, [DeviceArg(d)], hist, b, StreamCreate(d), true)
  {
    hide Asks;
    var args := [DeviceArg(d), Handle(KOpaqueHandle, h)];
    assert Codes(args) == [KDevice, KOpaqueHandle] && Codes([DeviceArg(d)]) == [KDevice];
    AsksIfPasses(DevFreeData, args, hist, b);
    AsksIfPasses(DevFreeStream, args, hist, b);
    AsksIfPasses(DevStreamSync, args, hist, b);
    AsksIfPasses(DevSetStream, args, hist, b);
    AsksIfPasses(DevCreateStream, [DeviceArg(d)], hist, b);
  }

  /** A system call with its arguments by name, as a client means it. */
  datatype SystemCall =
    | GettingGlobal(name: seq<byte>)
    | FreeingArray(handle: nat)
    | FreeingFunc(handle: nat)
    | FreeingModule(handle: nat)
    | Allocating(device: Device, nbytes: nat, alignment: nat, hint: DType)
    | AllocatingPlain(tensor: Tensor)
    | AllocatingIn(tensor: Tensor, scope: seq<byte>)
    | FreeingData(device: Device, handle: nat)
    | CreatingStream(device: Device)
    | FreeingStream(device: Device, handle: nat)
    | Synchronizing(device: Device, handle: nat)
    | SettingStream(device: Device, handle: nat)
    | CopyingAmong(from: Tensor, to: Tensor, handle: nat)

  /** Its code and arguments on the wire. */
  function Wired(c: SystemCall): (nat, seq<Arg>) {
    match c
    case GettingGlobal(name) => (GetGlobalFunc, [Str(name)])
    case FreeingArray(h) => (FreeHandle, [Handle(KOpaqueHandle, h), Number(KInt, KNDArray)])
    case FreeingFunc(h) => (FreeHandle, [Handle(KOpaqueHandle, h), Number(KInt, KPackedFunc)])
    case FreeingModule(h) => (FreeHandle, [Handle(KOpaqueHandle, h), Number(KInt, KModule)])
    case Allocating(d, n, a, hint) => (DevAllocData, [DeviceArg(d), Number(KInt, n), Number(KInt, a), TypeArg(hint)])
    case AllocatingPlain(t) => (DevAllocDataWithScope, [TensorArg(t), Null])
    case AllocatingIn(t, scope) => (DevAllocDataWithScope, [TensorArg(t), Str(scope)])
    case FreeingData(d, h) => (DevFreeData, [DeviceArg(d), Handle(KOpaqueHandle, h)])
    case CreatingStream(d) => (DevCreateStream, [DeviceArg(d)])
    case FreeingStream(d, h) => (DevFreeStream, [DeviceArg(d), Handle(KOpaqueHandle, h)])
    case Synchronizing(d, h) => (DevStreamSync, [DeviceArg(d), Handle(KOpaqueHandle, h)])
    case SettingStream(d, h) => (DevSetStream, [DeviceArg(d), Handle(KOpaqueHandle, h)])
    case CopyingAmong(from, to, h) => (CopyAmongRemote, [TensorArg(from), TensorArg(to), Handle(KOpaqueHandle, h)])
  }

  /** The call that it stands for. */
  function CallMeant(c: SystemCall): Call {
    match c
    case GettingGlobal(name) => GetGlobal(name)
    case FreeingArray(h) => ArrayFree(h)
    case FreeingFunc(h) => FuncFree(h)
    case FreeingModule(h) => ModFree(h)
    case Allocating(d, n, a, hint) => AllocSpace(d, n, a, hint)
    case AllocatingPlain(t) => AllocSpaceWithScope(t, None)
    case AllocatingIn(t, scope) => AllocSpaceWithScope(t, Some(scope))
    case FreeingData(d, h) => FreeSpace(d, h)
    case CreatingStream(d) => StreamCreate(d)
    case FreeingStream(d, h) => StreamFree(d, h)
    case Synchronizing(d, h) => Synchronize(d, h)
    case SettingStream(d, h) => SetStream(d, h)
    case CopyingAmong(from, to, h) => CopyFromTo(from, to, h)
  }

  predicate WantsHandle(c: SystemCall) {
    c.GettingGlobal? || c.Allocating? || c.AllocatingPlain? || c.AllocatingIn? || c.CreatingStream?
  }

  /** Every system call that a client can mean makes the call it stands for. */
  lemma MeantAsks(c: SystemCall, hist: seq<Call>, b: Behaviour)
    ensures Asks(Wired(c).0, Wired(c).1, hist, b, CallMeant(c), WantsHandle(c))
  {
    hide Asks;
    match c
    case GettingGlobal(name) => GettingAsks(name, hist, b);
    case FreeingArray(h) => FreeingAsks(h, hist, b);
    case FreeingFunc(h) => FreeingAsks(h, hist, b);
    case FreeingModule(h) => FreeingAsks(h, hist, b);
    case Allocating(d, n, a, hint) => AllocatingAsks(d, n, a, hint, hist, b);
    case AllocatingPlain(t) => AllocatingWithScopeAsks(t, [], hist, b);
    case AllocatingIn(t, scope) => AllocatingWithScopeAsks(t, scope, hist, b);
    case FreeingData(d, h) => DeviceCallsAsk(d, h, hist, b);
    case CreatingStream(d) => DeviceCallsAsk(d, 0, hist, b);
    case FreeingStream(d, h) => DeviceCallsAsk(d, h, hist, b);
    case Synchronizing(d, h) => DeviceCallsAsk(d, h, hist, b);
    case SettingStream(d, h) => DeviceCallsAsk(d, h, hist, b);
    case CopyingAmong(from, to, h) => CopyingAsks(from, to, h, hist, b);
  }

  /** The system calls that pass their checks are just those that a client can mean. */
  lemma PassesIffMeant(code: nat, args: seq<Arg>)
    requires forall i | 0 <= i < |args| :: Fits(args[i])
    ensures Unsupported(code).None? && PassesChecks(code, args) <==> exists c :: Wired(c) == (code, args)
  {
    hide Unsupported, PassesChecks, Wired;
    if c :| Wired(c) == (code, args) { MeantPasses(c); }
    if Unsupported(code).None? && PassesChecks(code, args) { MeaningIsWired(code, args); }
  }

  lemma MeantPasses(c: SystemCall)
    ensures Unsupported(Wired(c).0).None? && PassesChecks(Wired(c).0, Wired(c).1)
  {
    var codes := Codes(Wired(c).1);
    match c
    case GettingGlobal(_) => assert codes == [KStr];
    case FreeingArray(_) => assert codes == [KOpaqueHandle, KInt];
    case FreeingFunc(_) => assert codes == [KOpaqueHandle, KInt];
    case FreeingModule(_) => assert codes == [KOpaqueHandle, KInt];
    case Allocating(_, _, _, _) => assert codes == [KDevice, KInt, KInt, KDataType];
    case AllocatingPlain(_) => assert codes == [KTensor, KNull];
    case AllocatingIn(_, _) => assert codes == [KTensor, KStr];
    case FreeingData(_, _) => assert codes == [KDevice, KOpaqueHandle];
    case CreatingStream(_) => assert codes == [KDevice];
    case FreeingStream(_, _) => assert codes == [KDevice, KOpaqueHandle];
    case Synchronizing(_, _) => assert codes == [KDevice, KOpaqueHandle];
    case SettingStream(_, _) => assert codes == [KDevice, KOpaqueHandle];
    case CopyingAmong(_, _, _) => assert codes == [KTensor, KTensor, KOpaqueHandle];
  }

  /** What an argument is, by its type code. */
  lemma FormOf(args: seq<Arg>, i: nat, code: nat)
    requires i < |args| && Fits(args[i]) && CodeOf(args[i]) == code
    ensures code == KStr ==> args[i] == Str(TextOf(args, i))
    ensures code == KNull ==> args[i] == Null
    ensures code == KOpaqueHandle ==> args[i] == Handle(KOpaqueHandle, WordOf(args, i))
    ensures code == KInt ==> args[i] == Number(KInt, WordOf(args, i))
    ensures code == KDevice ==> args[i] == DeviceArg(DeviceOf(args, i))
    ensures code == KDataType ==> args[i] == TypeArg(TypeOf(args, i))
    ensures code == KTensor ==> args[i] == TensorArg(TensorOf(args, i))
  {
  }

  lemma MeaningIsWired(code: nat, args: seq<Arg>)
    requires forall i | 0 <= i < |args| :: Fits(args[i])
    requires Unsupported(code).None? && PassesChecks(code, args)
    ensures Wired(Meaning(code, args)) == (code, args)
  {
    hide Fits, WordOf, DeviceOf, TypeOf, TextOf, TensorOf;
    var codes := Codes(args);
    assert |args| == |codes| && 1 <= |codes| <= 4;
    forall i: nat | i < |args| ensures CodeOf(args[i]) == codes[i] { }
    FormOf(args, 0, codes[0]);
    if |args| == 1 {
      assert args == [args[0]];
    } else {
      FormOf(args, 1, codes[1]);
      if |args| == 2 {
        assert args == [args[0], args[1]];
      } else {
        FormOf(args, 2, codes[2]);
        if |args| == 3 {
          assert args == [args[0], args[1], args[2]];
        } else {
          FormOf(args, 3, codes[3]);
          assert args == [args[0], args[1], args[2], args[3]];
        }
      }
    }
  }

  function Meaning(code: nat, args: seq<Arg>): SystemCall {
    if code == GetGlobalFunc then GettingGlobal(TextOf(args, 0))
    else if code == FreeHandle then
      if WordOf(args, 1) == KNDArray then FreeingArray(WordOf(args, 0))
      else if WordOf(args, 1) == KPackedFunc then FreeingFunc(WordOf(args, 0))
      else FreeingModule(WordOf(args, 0))
    else if code == DevAllocData then Allocating(DeviceOf(args, 0), WordOf(args, 1), WordOf(args, 2), TypeOf(args, 3))
    else if code == DevAllocDataWithScope then
      if CodeOf(ArgAt(args, 1)) == KNull then AllocatingPlain(TensorOf(args, 0))
      else AllocatingIn(TensorOf(args, 0), TextOf(args, 1))
    else if code == DevFreeData then FreeingData(DeviceOf(args, 0), WordOf(args, 1))
    else if code == DevCreateStream then CreatingStream(DeviceOf(args, 0))
    else if code == DevFreeStream then FreeingStream(DeviceOf(args, 0), WordOf(args, 1))
    else if code == DevStreamSync then Synchronizing(DeviceOf(args, 0), WordOf(args, 1))
    else if code == DevSetStream then SettingStream(DeviceOf(args, 0), WordOf(args, 1))
    else CopyingAmong(TensorOf(args, 0), TensorOf(args, 1), WordOf(args, 2))
  }

  // ---------------------------------------------------------------------------
  // Executing
  // ---------------------------------------------------------------------------

  /**
   The calls were made, and the answer was given: one reply, unless a write failed on the way, or an error
   that ends the program before anything is written.
   */
  predicate Gave(a: Answer, made: seq<Call>, w: Wire, calls: seq<Call>, w': Wire, calls': seq<Call>) {
    match a
    case Silent => w' == w && calls' == calls + made
    case Ends => w' == w && calls' == calls + made
    case Refuses(status) => w' == w.(thrown := Some(status)) && calls' == calls + made
    case Replied(reply) =>
      && Sends(false, w, Framed(Body(reply)), w')
      && if w'.thrown.None? then calls' == calls + made else calls' <= calls + made
  }

  class MinRpcExecute {
    const rx: Receiver
    const tx: Channel
    const runtime: Runtime

    constructor (rx: Receiver, tx: Channel, runtime: Runtime)
      ensures this.rx == rx && this.tx == tx && this.runtime == runtime
    {
      this.rx, this.tx, this.runtime := rx, tx, runtime;
    }

    predicate Ready()
      reads this, tx
    {
      !tx.counting && tx.thrown.None?
    }

    twostate predicate Did(new a: Answer, new made: seq<Call>)
      reads this, tx, runtime
    {
      Gave(a, made, old(tx.Now()), old(runtime.calls), tx.Now(), runtime.calls)
    }

    method Call(c: Call) returns (o: Outcome)
      modifies runtime, rx`mem
      ensures o == runtime.behave(runtime.calls) && runtime.calls == old(runtime.calls) + [c]
      ensures rx.mem == o.effect(old(rx.mem))
    {
      o := runtime.behave(runtime.calls + [c]);
      runtime.calls := runtime.calls + [c];
      rx.mem := o.effect(rx.mem);
    }

    method InitServer(numArgs: nat)
      requires Ready()
      modifies tx
      ensures Did(if numArgs == 0 then Replied(VoidReply) else Refuses(CheckError), [])
    {
      hide Sends, Body, Framed;
      if numArgs != 0 { tx.ThrowError(CheckError); return; }
      tx.ReturnVoid();
    }

    method NormalCallFunc(handle: nat, args: seq<Arg>)
      requires Ready()
      modifies tx, runtime, rx`mem
      ensures Did(FuncAnswer(handle, args, old(runtime.calls), runtime.behave),
                  FuncCalls(handle, args, old(runtime.calls), runtime.behave))
    {
      hide Sends, Body, Framed, FirstRefusal;
      var o := Call(FuncCall(handle, args));
      if !o.ok {
        tx.ReturnException(o.message);
        return;
      }
      var code := Number(KInt, CodeOf(o.value));
      match o.value {
        case NDArray => tx.ReturnPackedSeq([code, TensorArg(o.tensor), Handle(KOpaqueHandle, o.handle)]);
        case ByteArray(data) =>
          BytesAreAccepted(code.bits, data);
          tx.ReturnPackedSeq([code, o.value]);
          if tx.thrown.Some? { return; }
          var ignored := Call(ByteArrayFree(data));
        case Handle(c, h) =>
          if c == KPackedFunc || c == KModule {
            tx.ReturnPackedSeq([code, Handle(KOpaqueHandle, h)]);
          } else {
            tx.ReturnPackedSeq([code, o.value]);
          }
        case _ => tx.ReturnPackedSeq([code, o.value]);
      }
    }

    /** A copy with the wait for its end. */
    method Copy(from: Tensor, to: Tensor, device: Device) returns (o: Outcome)
      modifies runtime, rx`mem
      ensures runtime.calls == old(runtime.calls) + CopyCalls(from, to, device, old(runtime.calls), runtime.behave)
      ensures o == CopyOutcome(from, to, device, old(runtime.calls), runtime.behave)
    {
      var c := CopyFromTo(from, to, 0);
      o := Call(c);
      if o.ok {
        o := Call(Synchronize(device, 0));
        assert old(runtime.calls) + [c] + [Synchronize(device, 0)] == old(runtime.calls) + [c, Synchronize(device, 0)];
      }
    }

    method CopyFromRemote(t: Tensor, size: nat, at: nat)
      requires Ready()
      requires t.device.kind == CpuDevice ==> at == t.data + t.byteOffset
      modifies tx, runtime, rx`mem
      ensures Did(CopyFromAnswer(t, size, old(runtime.calls), runtime.behave, rx.mem, at),
                  CopyFromCalls(t, old(runtime.calls), runtime.behave, at))
      ensures t.device.kind == CpuDevice ==> rx.mem == old(rx.mem)
    {
      hide Sends, Body, Framed, CopyCalls, CopyOutcome, HostTensor, Load;
      if t.device.kind != CpuDevice {
        var o := Copy(t, HostTensor(t, at), t.device);
        if !o.ok {
          tx.ReturnException(o.message);
          return;
        }
      }
      tx.ReturnCopyFromRemote(Load(rx.mem, at, size));
    }

    /** What follows the reading of the data to `at`. */
    method CopyToRemote(t: Tensor, at: nat)
      requires Ready()
      modifies tx, runtime, rx`mem
      ensures Did(CopyToAnswer(t, old(runtime.calls), runtime.behave, at),
                  CopyToCalls(t, old(runtime.calls), runtime.behave, at))
      ensures t.device.kind == CpuDevice ==> rx.mem == old(rx.mem)
    {
      hide Sends, Body, Framed, CopyCalls, CopyOutcome, HostTensor, Load;
      if t.device.kind != CpuDevice {
        var o := Copy(HostTensor(t, at), t, t.device);
        if !o.ok {
          tx.ReturnException(o.message);
          return;
        }
      }
      tx.ReturnVoid();
    }

    /** A system call was executed. */
    twostate predicate DidSyscall(code: nat, args: seq<Arg>)
      reads this, tx, runtime
    {
      Did(SyscallAnswer(code, args, old(runtime.calls), runtime.behave), SyscallCalls(code, args))
    }

    method SysCallFunc(code: nat, args: seq<Arg>)
      requires Ready()
      modifies tx, runtime, rx`mem
      ensures DidSyscall(code, args)
    {
      hide Did, SyscallAnswer, SyscallCalls;
      if code == FreeHandle {
        SyscallFreeHandle(args);
      } else if code == GetGlobalFunc {
        SyscallGetGlobalFunc(args);
      } else if code == DevSetDevice {
        SyscallUnsupported(code, args, NoSetDevice);
      } else if code == DevGetAttr {
        SyscallUnsupported(code, args, NoGetAttr);
      } else if code == DevAllocData {
        SyscallDevAllocData(args);
      } else if code == DevAllocDataWithScope {
        SyscallDevAllocDataWithScope(args);
      } else if code == DevFreeData {
        SyscallDevFreeData(args);
      } else if code == DevCreateStream {
        SyscallDevCreateStream(args);
      } else if code == DevFreeStream {
        SyscallDevFreeStream(args);
      } else if code == DevStreamSync {
        SyscallDevStreamSync(args);
      } else if code == DevSetStream {
        SyscallDevSetStream(args);
      } else if code == CopyAmongRemote {
        SyscallCopyAmongRemote(args);
      } else {
        SyscallUnsupported(code, args, NotRecognized);
      }
    }

    method SyscallUnsupported(code: nat, ghost args: seq<Arg>, text: string)
      requires Ready() && Unsupported(code) == Some(text)
      modifies tx
      ensures DidSyscall(code, args)
    {
      tx.ReturnException(Ascii(text));
      assert runtime.calls + [] == runtime.calls;
    }

    /** `MINRPC_CHECK` fails. */
    method FailCheck(ghost code: nat, ghost args: seq<Arg>)
      requires Ready() && Unsupported(code).None? && !PassesChecks(code, args)
      modifies tx
      ensures DidSyscall(code, args)
    {
      tx.ThrowError(CheckError);
      assert runtime.calls + [] == runtime.calls;
    }

    /** The call after the checks, and its reply: a handle or nothing, or the last error. */
    method CallForHandle(c: Call, ghost code: nat, ghost args: seq<Arg>)
      requires Ready() && Unsupported(code).None? && PassesChecks(code, args) && GivesHandle(code)
      requires c == SyscallCall(code, args)
      modifies tx, runtime, rx`mem
      ensures DidSyscall(code, args)
    {
      hide PassesChecks, SyscallCall, Unsupported, Body;
      var o := Call(c);
      if o.ok { tx.ReturnHandle(o.handle); } else { tx.ReturnException(o.message); }
    }

    method CallForVoid(c: Call, ghost code: nat, ghost args: seq<Arg>)
      requires Ready() && Unsupported(code).None? && PassesChecks(code, args) && !GivesHandle(code)
      requires c == SyscallCall(code, args)
      modifies tx, runtime, rx`mem
      ensures DidSyscall(code, args)
    {
      hide PassesChecks, SyscallCall, Unsupported, Body;
      var o := Call(c);
      if o.ok { tx.ReturnVoid(); } else { tx.ReturnException(o.message); }
    }

    method SyscallFreeHandle(args: seq<Arg>)
      requires Ready()
      modifies tx, runtime, rx`mem
      ensures DidSyscall(FreeHandle, args)
    {
      hide Did, SyscallAnswer, SyscallCalls;
      var tcodes := Codes(args);
      if |args| != 2 { FailCheck(FreeHandle, args); return; }
      if tcodes[0] != KOpaqueHandle { FailCheck(FreeHandle, args); return; }
      if tcodes[1] != KInt { FailCheck(FreeHandle, args); return; }
      assert tcodes == [KOpaqueHandle, KInt];
      var handle, kind := WordOf(args, 0), WordOf(args, 1);
      if kind == KNDArray {
        CallForVoid(ArrayFree(handle), FreeHandle, args);
      } else if kind == KPackedFunc {
        CallForVoid(FuncFree(handle), FreeHandle, args);
      } else {
        if kind != KModule { FailCheck(FreeHandle, args); return; }
        CallForVoid(ModFree(handle), FreeHandle, args);
      }
    }

    method SyscallGetGlobalFunc(args: seq<Arg>)
      requires Ready()
      modifies tx, runtime, rx`mem
      ensures DidSyscall(GetGlobalFunc, args)
    {
      hide Did, SyscallAnswer, SyscallCalls;
      var tcodes := Codes(args);
      if |args| != 1 { FailCheck(GetGlobalFunc, args); return; }
      if tcodes[0] != KStr { FailCheck(GetGlobalFunc, args); return; }
      assert tcodes == [KStr];
      CallForHandle(GetGlobal(TextOf(args, 0)), GetGlobalFunc, args);
    }

    method SyscallCopyAmongRemote(args: seq<Arg>)
      requires Ready()
      modifies tx, runtime, rx`mem
      ensures DidSyscall(CopyAmongRemote, args)
    {
      hide Did, SyscallAnswer, SyscallCalls;
      var tcodes := Codes(args);
      if |args| != 3 { FailCheck(CopyAmongRemote, args); return; }
      if tcodes[0] != KTensor { FailCheck(CopyAmongRemote, args); return; }
      if tcodes[1] != KTensor { FailCheck(CopyAmongRemote, args); return; }
      if tcodes[2] != KOpaqueHandle { FailCheck(CopyAmongRemote, args); return; }
      assert tcodes == [KTensor, KTensor, KOpaqueHandle];
      var from, to, stream := TensorOf(args, 0), TensorOf(args, 1), WordOf(args, 2);
      CallForVoid(CopyFromTo(from, to, stream), CopyAmongRemote, args);
    }

    method SyscallDevAllocData(args: seq<Arg>)
      requires Ready()
      modifies tx, runtime, rx`mem
      ensures DidSyscall(DevAllocData, args)
    {
      hide Did, SyscallAnswer, SyscallCalls;
      var tcodes := Codes(args);
      if |args| != 4 { FailCheck(DevAllocData, args); return; }
      if tcodes[0] != KDevice { FailCheck(DevAllocData, args); return; }
      if tcodes[1] != KInt { FailCheck(DevAllocData, args); return; }
      if tcodes[2] != KInt { FailCheck(DevAllocData, args); return; }
      if tcodes[3] != KDataType { FailCheck(DevAllocData, args); return; }
      assert tcodes == [KDevice, KInt, KInt, KDataType];
      var device, nbytes, alignment, hint := DeviceOf(args, 0), WordOf(args, 1), WordOf(args, 2), TypeOf(args, 3);
      CallForHandle(AllocSpace(device, nbytes, alignment, hint), DevAllocData, args);
    }

    method SyscallDevAllocDataWithScope(args: seq<Arg>)
      requires Ready()
      modifies tx, runtime, rx`mem
      ensures DidSyscall(DevAllocDataWithScope, args)
    {
      hide Did, SyscallAnswer, SyscallCalls;
      var tcodes := Codes(args);
      if |args| != 2 { FailCheck(DevAllocDataWithScope, args); return; }
      if tcodes[0] != KTensor { FailCheck(DevAllocDataWithScope, args); return; }
      if !(tcodes[1] == KNull || tcodes[1] == KStr) { FailCheck(DevAllocDataWithScope, args); return; }
      assert tcodes == [KTensor, KNull] || tcodes == [KTensor, KStr];
      var scope := if tcodes[1] == KNull then None else Some(TextOf(args, 1));
      CallForHandle(AllocSpaceWithScope(TensorOf(args, 0), scope), DevAllocDataWithScope, args);
    }

    method SyscallDevFreeData(args: seq<Arg>)
      requires Ready()
      modifies tx, runtime, rx`mem
      ensures DidSyscall(DevFreeData, args)
    {
      hide Did, SyscallAnswer, SyscallCalls;
      var tcodes := Codes(args);
      if |args| != 2 { FailCheck(DevFreeData, args); return; }
      if tcodes[0] != KDevice { FailCheck(DevFreeData, args); return; }
      if tcodes[1] != KOpaqueHandle { FailCheck(DevFreeData, args); return; }
      assert tcodes == [KDevice, KOpaqueHandle];
      CallForVoid(FreeSpace(DeviceOf(args, 0), WordOf(args, 1)), DevFreeData, args);
    }

    method SyscallDevCreateStream(args: seq<Arg>)
      requires Ready()
      modifies tx, runtime, rx`mem
      ensures DidSyscall(DevCreateStream, args)
    {
      hide Did, SyscallAnswer, SyscallCalls;
      var tcodes := Codes(args);
      if |args| != 1 { FailCheck(DevCreateStream, args); return; }
      if tcodes[0] != KDevice { FailCheck(DevCreateStream, args); return; }
      assert tcodes == [KDevice];
      CallForHandle(StreamCreate(DeviceOf(args, 0)), DevCreateStream, args);
    }

    method SyscallDevFreeStream(args: seq<Arg>)
      requires Ready()
      modifies tx, runtime, rx`mem
      ensures DidSyscall(DevFreeStream, args)
    {
      hide Did, SyscallAnswer, SyscallCalls;
      var tcodes := Codes(args);
      if |args| != 2 { FailCheck(DevFreeStream, args); return; }
      if tcodes[0] != KDevice { FailCheck(DevFreeStream, args); return; }
      if tcodes[1] != KOpaqueHandle { FailCheck(DevFreeStream, args); return; }
      assert tcodes == [KDevice, KOpaqueHandle];
      CallForVoid(StreamFree(DeviceOf(args, 0), WordOf(args, 1)), DevFreeStream, args);
    }

    method SyscallDevStreamSync(args: seq<Arg>)
      requires Ready()
      modifies tx, runtime, rx`mem
      ensures DidSyscall(DevStreamSync, args)
    {
      hide Did, SyscallAnswer, SyscallCalls;
      var tcodes := Codes(args);
      if |args| != 2 { FailCheck(DevStreamSync, args); return; }
      if tcodes[0] != KDevice { FailCheck(DevStreamSync, args); return; }
      if tcodes[1] != KOpaqueHandle { FailCheck(DevStreamSync, args); return; }
      assert tcodes == [KDevice, KOpaqueHandle];
      CallForVoid(Synchronize(DeviceOf(args, 0), WordOf(args, 1)), DevStreamSync, args);
    }

    method SyscallDevSetStream(args: seq<Arg>)
      requires Ready()
      modifies tx, runtime, rx`mem
      ensures DidSyscall(DevSetStream, args)
    {
      hide Did, SyscallAnswer, SyscallCalls;
      var tcodes := Codes(args);
      if |args| != 2 { FailCheck(DevSetStream, args); return; }
      if tcodes[0] != KDevice { FailCheck(DevSetStream, args); return; }
      if tcodes[1] != KOpaqueHandle { FailCheck(DevSetStream, args); return; }
      assert tcodes == [KDevice, KOpaqueHandle];
      CallForVoid(SetStream(DeviceOf(args, 0), WordOf(args, 1)), DevSetStream, args);
    }
  }
}
