module CrtHandles {
  /**
   Function and module handles of the C runtime, the table of modules, and calls through
   handles. A registry is the ordered list of entries that `FuncRegistry` packs into bytes.
   */

  import opened Wrappers
  import opened ByteStrings
  import opened FuncRegistry

  const MaxModules := 6

  const GlobalModule := 6

  const TimeEvaluatorModule := 0x7fff

  /** Indices are words of 16 bits; handles fit 32. */
  predicate IsIndex(i: nat) { i < 0x1_0000 }

  /** `i | 0x8000` and `i & ~0x8000`. */
  function Marked(i: nat): nat { if i < 0x8000 then i + 0x8000 else i }

  function Unmarked(i: nat): nat { i % 0x8000 }

  function EncodeModule(module_: nat): nat { Marked(module_) }

  function EncodeFunction(module_: nat, function_: nat): nat { Marked(module_) * 0x1_0000 + Marked(function_) }

  function ModuleOf(handle: nat): nat { Unmarked((handle / 0x1_0000) % 0x1_0000) }

  function FunctionOf(handle: nat): nat { Unmarked(handle % 0x1_0000) }

  /** Indices come back from a handle exactly when they leave the marking bit alone. */
  lemma HandleRoundTrip(module_: nat, function_: nat)
    requires IsIndex(module_) && IsIndex(function_)
    ensures var h := EncodeFunction(module_, function_);
            && 0 < h < 0x1_0000_0000
            && (ModuleOf(h) == module_ && FunctionOf(h) == function_ <==> module_ < 0x8000 && function_ < 0x8000)
  {
    var m, f := Marked(module_), Marked(function_);
    assert (m * 0x1_0000 + f) / 0x1_0000 == m && (m * 0x1_0000 + f) % 0x1_0000 == f;
  }

  /**
   The global registry has room for `max` names, which end before byte `funcs` of its buffer. `past` tells
   whether the word behind the module table, which one check lets through, is not null.
   */
  datatype State = State(
    global: seq<Entry>, max: nat, funcs: nat, modules: seq<Option<seq<Entry>>>, systemLib: Option<nat>, past: bool)

  predicate Valid(s: State) {
    && |s.modules| == MaxModules && GoodNames(s.global) && |s.global| <= s.max < 0x1_0000
    && forall m | 0 <= m < MaxModules && s.modules[m].Some? ::
         GoodNames(s.modules[m].value) && |s.modules[m].value| < 0x1_0000
  }

  function DecodeModule(s: State, handle: nat): Option<nat> {
    var m := Unmarked(handle % 0x1_0000);
    if m > MaxModules || (if m < |s.modules| then s.modules[m].None? else !s.past) then None else Some(m)
  }

  datatype Target = InGlobal | InModule(m: nat) | TimeEvaluator

  function DecodeFunction(s: State, handle: nat): Option<(Target, nat)> {
    var m := ModuleOf(handle);
    if m == TimeEvaluatorModule then Some((TimeEvaluator, FunctionOf(handle)))
    else if m > GlobalModule then None
    else if m == GlobalModule then Some((InGlobal, FunctionOf(handle)))
    else if m >= |s.modules| || s.modules[m].None? then None
    else Some((InModule(m), FunctionOf(handle)))
  }

  /** What `TVMFuncCall` runs: a function with its module as resource, or the time evaluator. */
  datatype Ran = Ran(func: nat, resource: Option<nat>) | TimeEvaluation(function_: nat)

  function FuncCall(s: State, handle: nat): Option<Ran> {
    match DecodeFunction(s, handle)
    case None => None
    case Some(pair) =>
      match pair.0
      case TimeEvaluator => Some(TimeEvaluation(pair.1))
      case InGlobal => if pair.1 < |s.global| then Some(Ran(s.global[pair.1].func, None)) else None
      case InModule(m) =>
        if m < |s.modules| && s.modules[m].Some? && pair.1 < |s.modules[m].value|
        then Some(Ran(s.modules[m].value[pair.1].func, Some(m))) else None
  }

  /** `TVMFuncGetGlobal`: zero is the null handle. */
  function GetGlobal(s: State, name: seq<byte>): nat {
    match Find(s.global, name)
    case None => 0
    case Some(i) => EncodeFunction(GlobalModule, i % 0x1_0000)
  }

  /** `TVMModGetFunction`, for a handle that does not name the word behind the table. */
  function GetFunction(s: State, mod: nat, name: seq<byte>): Option<nat> {
    match DecodeModule(s, mod)
    case None => None
    case Some(m) =>
      if m >= |s.modules| || s.modules[m].None? then None
      else match Find(s.modules[m].value, name)
           case None => None
           case Some(i) => Some(EncodeFunction(m, i % 0x1_0000))
  }

  datatype Command =
    | RegisterGlobal(name: seq<byte>, func: nat, override: bool)
    | CreateModule(entries: seq<Entry>)
    | FreeModule(mod: nat)

  /** The first free place of the module table. */
  function FreePlace(modules: seq<Option<seq<Entry>>>): Option<nat> {
    if modules == [] then None
    else if modules[0].None? then Some(0)
    else match FreePlace(modules[1..])
         case None => None
         case Some(i) => Some(i + 1)
  }

  /** No entry is left, or not enough bytes for the name and its NUL. */
  predicate Full(s: State, name: seq<byte>) { |s.global| >= s.max || End(s.global) + |name| + 1 > s.funcs }

  /** A name that is there already has to be overridden, and a new one needs room. */
  predicate Accepts(s: State, name: seq<byte>, override: bool) {
    if Find(s.global, name).Some? then override else !Full(s, name)
  }

  /** The state after a command. */
  function Execute(s: State, c: Command): State {
    match c
    case RegisterGlobal(name, func, override) =>
      if Accepts(s, name, override) then s.(global := SetIn(s.global, name, func)) else s
    case CreateModule(entries) =>
      (match FreePlace(s.modules)
       case None => s
       case Some(m) => if m < |s.modules| then s.(modules := s.modules[m := Some(entries)]) else s)
    case FreeModule(mod) =>
      if s.systemLib == Some(mod) then s
      else match DecodeModule(s, mod)
           case None => s
           case Some(m) => if m < |s.modules| then s.(modules := s.modules[m := None]) else s
  }

  /** The two cases in which a name is accepted and the registry does not stand for a list any more. */
  predicate Spoils(s: State, name: seq<byte>) {
    Find(s.global, name).None? && (name == [] || End(s.global) + |name| + 1 == s.funcs)
  }

  /** What may be executed: names that C can hold and that do not spoil the registry, and modules with good names. */
  predicate Allowed(s: State, c: Command) {
    match c
    case RegisterGlobal(name, _, override) => IsCString(name) && (Accepts(s, name, override) ==> !Spoils(s, name))
    case CreateModule(entries) => GoodNames(entries) && |entries| < 0x1_0000
    case FreeModule(_) => true
  }

  lemma {:induction false} FreePlaceIsFree(modules: seq<Option<seq<Entry>>>)
    ensures FreePlace(modules).Some? ==> FreePlace(modules).value < |modules| && modules[FreePlace(modules).value].None?
  {
    if modules != [] { FreePlaceIsFree(modules[1..]); }
  }

  /** Every command keeps the tables in order. */
  lemma ExecuteKeepsValid(s: State, c: Command)
    requires Valid(s) && Allowed(s, c)
    ensures Valid(Execute(s, c))
  {
    FreePlaceIsFree(s.modules);
    match c
    case RegisterGlobal(name, func, _) =>
      FindIsFirstMatch(s.global, name);
      if Find(s.global, name).None? && Execute(s, c) != s { GoodNamesAdded(s.global, Entry(name, func)); }
    case CreateModule(_) =>
    case FreeModule(_) =>
  }

  /** Any number of commands. */
  function ExecuteAll(s: State, cs: seq<Command>): State
    decreases |cs|
  {
    if cs == [] then s else ExecuteAll(Execute(s, cs[0]), cs[1..])
  }

  predicate AllAllowed(s: State, cs: seq<Command>)
    decreases |cs|
  {
    cs == [] || (Allowed(s, cs[0]) && AllAllowed(Execute(s, cs[0]), cs[1..]))
  }

  /** Positions of names are stable: whatever is registered later, a name stays where it was found. */
  lemma {:induction false} PositionsStay(s: State, cs: seq<Command>, name: seq<byte>)
    requires Valid(s) && AllAllowed(s, cs) && Find(s.global, name).Some?
    ensures Valid(ExecuteAll(s, cs)) && Find(ExecuteAll(s, cs).global, name) == Find(s.global, name)
    decreases |cs|
  {
    if cs != [] {
      ExecuteKeepsValid(s, cs[0]);
      if cs[0].RegisterGlobal? { SetIsMapUpdate(s.global, cs[0].name, cs[0].func, name); }
      PositionsStay(Execute(s, cs[0]), cs[1..], name);
    }
  }

  /**
   A handle that was obtained for a global name, passed to a call any number of commands
   later, runs the function that was last set under that name; exactly for positions below
   0x8000.
   */
  lemma {:induction false} GlobalHandleRunsLastSet(s: State, cs: seq<Command>, name: seq<byte>)
    requires Valid(s) && AllAllowed(s, cs) && Find(s.global, name).Some?
    ensures var s' := ExecuteAll(s, cs);
            && FuncOf(s'.global, name).Some?
            && (Find(s.global, name).value < 0x8000
                ==> FuncCall(s', GetGlobal(s, name)) == Some(Ran(FuncOf(s'.global, name).value, None)))
            && (Find(s.global, name).value >= 0x8000 ==> FunctionOf(GetGlobal(s, name)) != Find(s.global, name).value)
  {
    hide GoodNames, AllAllowed, ExecuteAll, EncodeFunction;
    PositionsStay(s, cs, name);
    FindIsFirstMatch(s.global, name);
    FindIsFirstMatch(ExecuteAll(s, cs).global, name);
    var i := Find(s.global, name).value;
    HandleRoundTrip(GlobalModule, i);
    assert ModuleOf(GetGlobal(s, name)) == GlobalModule by { GlobalHandle(i); }
  }

  lemma GlobalHandle(i: nat)
    requires IsIndex(i)
    ensures ModuleOf(EncodeFunction(GlobalModule, i)) == GlobalModule
  {
    var f := Marked(i);
    assert (0x8006 * 0x1_0000 + f) / 0x1_0000 == 0x8006;
  }

  /** The function under a global name is that of the last accepted registration of it. */
  lemma LastRegistrationWins(s: State, c: Command, name: seq<byte>)
    requires Valid(s) && Allowed(s, c)
    ensures FuncOf(Execute(s, c).global, name)
         == if c.RegisterGlobal? && c.name == name && Accepts(s, name, c.override) then Some(c.func)
            else FuncOf(s.global, name)
  {
    if c.RegisterGlobal? { SetIsMapUpdate(s.global, c.name, c.func, name); }
  }

  // ---------------------------------------------------------------------------
  // The global registry as bytes
  // ---------------------------------------------------------------------------

  /** The packed bytes are those of the state's global functions. */
  ghost predicate Packs(reg: Registry, s: State)
    reads reg, reg.buffer
  {
    reg.Represents(s.global) && reg.maxFunctions == s.max && reg.funcs == s.funcs
  }

  /** `TVMFuncRegisterGlobal` does to the bytes what the command does to the state. */
  method FuncRegisterGlobal(reg: Registry, name: seq<byte>, func: nat, override: bool, ghost s: State)
    returns (r: Result<(), Error>)
    requires Packs(reg, s) && func < Power256(reg.pointerSize) && Allowed(s, RegisterGlobal(name, func, override))
    modifies reg.buffer
    ensures Packs(reg, Execute(s, RegisterGlobal(name, func, override)))
    ensures r.Ok? <==> Accepts(s, name, override)
    ensures r.Err? ==> r.error == if Find(s.global, name).Some? then AlreadyDefined else RegistryFull
  {
    hide Holds, Power256, Written;
    r := reg.Set(name, func, override, s.global);
    assert r.Err? ==> reg.buffer[..] == old(reg.buffer[..]);
  }

  /** `TVMFuncGetGlobal`, by a search in the bytes. */
  method FuncGetGlobal(reg: Registry, name: seq<byte>, ghost s: State) returns (handle: nat)
    requires Packs(reg, s) && IsCString(name)
    ensures handle == GetGlobal(s, name)
  {
    hide Holds;
    var i := reg.Lookup(name, s.global);
    return match i case Err(_) => 0 case Ok(k) => EncodeFunction(GlobalModule, k % 0x1_0000);
  }

  /** `TVMFuncCall` with a handle of a global function: what runs is read from the bytes. */
  method FuncCallGlobal(reg: Registry, handle: nat, ghost s: State) returns (ran: Option<Ran>)
    requires Packs(reg, s) && ModuleOf(handle) == GlobalModule
    ensures ran == FuncCall(s, handle)
  {
    hide Holds, FunctionOf, ModuleOf;
    var f := reg.GetByIndex(FunctionOf(handle), s.global);
    return match f case Err(_) => None case Ok(func) => Some(Ran(func, None));
  }

  /** The handle of a module's function, and what it runs. */
  lemma FunctionHandle(s: State, m: nat, name: seq<byte>)
    requires Valid(s) && m < MaxModules && s.modules[m].Some?
    requires Find(s.modules[m].value, name).Some? && Find(s.modules[m].value, name).value < 0x8000
    ensures GetFunction(s, EncodeModule(m), name) == Some(EncodeFunction(m, Find(s.modules[m].value, name).value))
  {
    hide GoodNames, Find, EncodeFunction;
  }

  lemma CallOfHandle(s: State, m: nat, i: nat)
    requires |s.modules| == MaxModules && m < MaxModules && s.modules[m].Some? && i < |s.modules[m].value| && i < 0x8000
    ensures FuncCall(s, EncodeFunction(m, i)) == Some(Ran(s.modules[m].value[i].func, Some(m)))
  {
    HandleRoundTrip(m, i);
    hide EncodeFunction, ModuleOf, FunctionOf;
  }

  /** A function of a module is the one its handle runs, with that module as resource, as long as the module stays. */
  lemma ModuleHandleRuns(s: State, s': State, m: nat, name: seq<byte>)
    requires Valid(s) && Valid(s') && m < MaxModules && s.modules[m].Some? && s'.modules[m] == s.modules[m]
    requires Find(s.modules[m].value, name).Some? && Find(s.modules[m].value, name).value < 0x8000
    ensures var h := GetFunction(s, EncodeModule(m), name);
            && h.Some? && FuncOf(s.modules[m].value, name).Some?
            && FuncCall(s', h.value) == Some(Ran(FuncOf(s.modules[m].value, name).value, Some(m)))
  {
    hide GoodNames, Find, FuncCall, GetFunction, EncodeFunction;
    FindIsFirstMatch(s.modules[m].value, name);
    FunctionHandle(s, m, name);
    CallOfHandle(s', m, Find(s.modules[m].value, name).value);
  }

  /** A new module gets a handle of its own, which decodes to it; the others stay. */
  lemma CreateGivesFreshHandle(s: State, entries: seq<Entry>)
    requires Valid(s) && FreePlace(s.modules).Some?
    ensures var m, s' := FreePlace(s.modules).value, Execute(s, CreateModule(entries));
            && m < MaxModules && s.modules[m].None?
            && DecodeModule(s', EncodeModule(m)) == Some(m) && s'.modules[m] == Some(entries)
            && forall k | 0 <= k < MaxModules && k != m :: s'.modules[k] == s.modules[k]
  {
    FreePlaceIsFree(s.modules);
  }

  /** Freeing takes that module only, never the system library; calls through its handles then fail. */
  lemma FreeTakesOneModule(s: State, m: nat, function_: nat)
    requires Valid(s) && m < MaxModules && s.modules[m].Some? && IsIndex(function_)
    ensures var s' := Execute(s, FreeModule(EncodeModule(m)));
            if s.systemLib == Some(EncodeModule(m)) then s' == s
            else
              && s'.modules[m].None? && FuncCall(s', EncodeFunction(m, function_)) == None
              && forall k | 0 <= k < MaxModules && k != m :: s'.modules[k] == s.modules[k]
  {
    var f := Marked(function_);
    assert (Marked(m) * 0x1_0000 + f) / 0x1_0000 == Marked(m);
  }
}
