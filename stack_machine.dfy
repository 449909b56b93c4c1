/**
  A meaning for emitted code: an evaluation stack, the proxy type's static
  fields and the method's arguments. Calls into code outside the proxy are
  answered by an environment `Env`, so every statement about emitted code
  below holds whatever the called methods return.
 */
module StackMachine {
  import opened Wrappers
  import opened Il

  datatype Val =
    | Null
    | Int(i: int)
    | Str(s: string)
    | ArgRef(index: nat)               // managed address of an argument slot
    | StaticRef(field: string)         // managed address of a static field outside the proxy
    | FnPtr(methodName: string)        // result of ldftn
    | Obj(ctor: Ctor, fields: seq<Val>) // object built by newobj from its constructor arguments
    | MarshallerFor(forType: ClrType)  // the Marshaller<T> instance resolved for T
    | FieldOf(target: Val, field: string) // a field of a value the model does not take apart

  datatype Machine = Machine(stack: seq<Val>, statics: map<string, Val>)

  datatype Outcome =
    | Running(m: Machine)
    | Returned(m: Machine)
    | Threw(kind: ExceptionKind)
    | Fault                           // code that is not valid on this stack

  /** What every called method returns for the given arguments. */
  datatype Env = Env(call: (Callee, seq<Val>) -> Val)

  /** A static field not yet assigned holds null. */
  function LoadStatic(statics: map<string, Val>, field: string): Val {
    if field in statics then statics[field] else Null
  }

  /** `ldfld Value` on a `ValueTypeWrapper<T>` yields the wrapped value. */
  function LoadField(target: Val, field: string): (v: Val)
    ensures target.Obj? && target.ctor.WrapperCtor? && |target.fields| == 1 && field == "Value" ==> v == target.fields[0]
  {
    if target.Obj? && target.ctor.WrapperCtor? && |target.fields| == 1 && field == "Value" then target.fields[0]
    else FieldOf(target, field)
  }

  function Push(m: Machine, v: Val): Outcome {
    Running(m.(stack := m.stack + [v]))
  }

  /** One instruction. The top of the stack is the end of `stack`. */
  function Step(i: Instr, m: Machine, args: seq<Val>, env: Env): Outcome {
    var n := |m.stack|;
    match i
    case Ret => Returned(m)
    case Throw =>
      if n == 0 then Fault
      else if m.stack[n - 1].Obj? && m.stack[n - 1].ctor.ExceptionCtor? then Threw(m.stack[n - 1].ctor.kind)
      else Fault
    case Ldstr(s) => Push(m, Str(s))
    case Ldnull => Push(m, Null)
    case Ldsfld(f) => Push(m, LoadStatic(m.statics, f))
    case Ldsflda(f) => Push(m, StaticRef(f))
    case Ldftn(name) => Push(m, FnPtr(name))
    case Stsfld(f) =>
      if n == 0 then Fault
      else Running(Machine(m.stack[..n - 1], m.statics[f := m.stack[n - 1]]))
    case Ldfld(f) =>
      if n == 0 then Fault
      else Running(m.(stack := m.stack[..n - 1] + [LoadField(m.stack[n - 1], f)]))
    case Newobj(c) =>
      var k := CtorArity(c);
      if n < k then Fault
      else Running(m.(stack := m.stack[..n - k] + [Obj(c, m.stack[n - k..])]))
    case Call(c) =>
      var k := CallArity(c);
      if n < k then Fault
      else Running(m.(stack := m.stack[..n - k] + [env.call(c, m.stack[n - k..])]))
    case Callvirt(c) =>
      var k := CallArity(c);
      if n < k then Fault
      else Running(m.(stack := m.stack[..n - k] + [env.call(c, m.stack[n - k..])]))
    case _ => StepLoad(i, m, args)
  }

  /** The constant, argument and argument-address loads. */
  function StepLoad(i: Instr, m: Machine, args: seq<Val>): Outcome {
    if PushedConstant(i).Some? then Push(m, Int(PushedConstant(i).value))
    else if LoadedArgument(i).Some? then
      (if LoadedArgument(i).value < |args| then Push(m, args[LoadedArgument(i).value]) else Fault)
    else if LoadedArgumentAddress(i).Some? then
      (if LoadedArgumentAddress(i).value < |args| then Push(m, ArgRef(LoadedArgumentAddress(i).value)) else Fault)
    else Fault
  }

  /** Runs `code` from its first instruction until it returns, throws or ends. */
  function Run(code: seq<Instr>, m: Machine, args: seq<Val>, env: Env): Outcome
    decreases |code|
  {
    if code == [] then Running(m)
    else
      match Step(code[0], m, args, env)
      case Running(m') => Run(code[1..], m', args, env)
      case other => other
  }

  /** Running `a + b` runs `a`, then `b` from where `a` left off. */
  lemma {:induction false} RunAppend(a: seq<Instr>, b: seq<Instr>, m: Machine, args: seq<Val>, env: Env)
    ensures Run(a + b, m, args, env) ==
      match Run(a, m, args, env)
      case Running(m') => Run(b, m', args, env)
      case other => other
    decreases |a|
  {
    if a == [] {
      assert a + b == b;
    } else {
      assert (a + b)[0] == a[0];
      assert (a + b)[1..] == a[1..] + b;
      match Step(a[0], m, args, env)
      case Running(m') =>
        assert Run(a, m, args, env) == Run(a[1..], m', args, env);
        assert Run(a + b, m, args, env) == Run(a[1..] + b, m', args, env);
        RunAppend(a[1..], b, m', args, env);
      case _ =>
    }
  }

  /** A convenience form of `RunAppend` for code known to keep running. */
  lemma RunThen(a: seq<Instr>, b: seq<Instr>, m: Machine, m': Machine, args: seq<Val>, env: Env)
    requires Run(a, m, args, env) == Running(m')
    ensures Run(a + b, m, args, env) == Run(b, m', args, env)
  {
    RunAppend(a, b, m, args, env);
  }

  /** A single instruction runs as one step. */
  lemma RunSingle(i: Instr, m: Machine, args: seq<Val>, env: Env)
    ensures Run([i], m, args, env) == Step(i, m, args, env)
  {
    var o := Step(i, m, args, env);
    if o.Running? {
      assert [i][1..] == [];
    }
  }

  /** Appending one instruction to code that keeps running. */
  lemma RunSnoc(a: seq<Instr>, i: Instr, m: Machine, m': Machine, args: seq<Val>, env: Env)
    requires Run(a, m, args, env) == Running(m')
    ensures Run(a + [i], m, args, env) == Step(i, m', args, env)
  {
    RunThen(a, [i], m, m', args, env);
    RunSingle(i, m', args, env);
  }

  /** `newobj` replaces exactly its constructor's arguments by the new object. */
  lemma StepNewobj(c: Ctor, s: seq<Val>, top: seq<Val>, statics: map<string, Val>, args: seq<Val>, env: Env)
    requires |top| == CtorArity(c)
    ensures Step(Newobj(c), Machine(s + top, statics), args, env) == Running(Machine(s + [Obj(c, top)], statics))
  {
    var st := s + top;
    assert st[..|st| - |top|] == s && st[|st| - |top|..] == top;
  }

  /** `call` replaces exactly the callee's arguments by what it returns. */
  lemma StepCall(c: Callee, s: seq<Val>, top: seq<Val>, statics: map<string, Val>, args: seq<Val>, env: Env)
    requires |top| == CallArity(c)
    ensures Step(Call(c), Machine(s + top, statics), args, env) == Running(Machine(s + [env.call(c, top)], statics))
    ensures Step(Callvirt(c), Machine(s + top, statics), args, env) == Running(Machine(s + [env.call(c, top)], statics))
  {
    var st := s + top;
    assert st[..|st| - |top|] == s && st[|st| - |top|..] == top;
  }

  /** Every `ldc.i4` form pushes its constant. */
  lemma StepLdc(i: Instr, m: Machine, args: seq<Val>, env: Env)
    requires PushedConstant(i).Some?
    ensures Step(i, m, args, env) == Running(m.(stack := m.stack + [Int(PushedConstant(i).value)]))
  {
    assert Step(i, m, args, env) == StepLoad(i, m, args);
  }

  /** The `ldarg` form `Ldarg` selects pushes argument `index`. */
  lemma StepLdarg(index: int, m: Machine, args: seq<Val>, env: Env)
    requires IsUInt16(index) && index < |args|
    ensures Step(Ldarg(index), m, args, env) == Running(m.(stack := m.stack + [args[index]]))
  {
    var i := Ldarg(index);
    assert PushedConstant(i).None? && LoadedArgument(i) == Some(index);
    assert Step(i, m, args, env) == StepLoad(i, m, args);
  }

  /** The `ldarga` form `Ldarga` pushes the address of argument `index`. */
  lemma StepLdarga(index: int, m: Machine, args: seq<Val>, env: Env)
    requires IsUInt16(index) && index < |args|
    ensures Step(Ldarga(index), m, args, env) == Running(m.(stack := m.stack + [ArgRef(index)]))
  {
    var i := Ldarga(index);
    assert PushedConstant(i).None? && LoadedArgument(i).None? && LoadedArgumentAddress(i) == Some(index);
    assert Step(i, m, args, env) == StepLoad(i, m, args);
  }
}
