/**
  The decisions `CreateFactory` takes for one interface method, what code
  each decision stands for, and what that code does when the proxy method
  runs: which context, invoker, method descriptor and request it hands to the
  client helper, and how it adapts the helper's result.
 */
module ThunkPlan {
  import opened Wrappers
  import opened Il
  import opened StackMachine
  import opened TuplePacking
  import opened Contracts

  const CallContextDefault: string := "ProtoBuf.Grpc.CallContext.Default"
  const EmptyInstance: string := "ProtoBuf.Grpc.Empty.Instance"

  /** The address of the trailing context argument, or `CallContext.Default`. */
  datatype ContextSource = ArgumentAddress(index: nat) | DefaultContext

  datatype RequestShape =
    | EmptyRequest                       // Empty.Instance
    | PassArgument                       // argument 1 as it is
    | WrapArgument(valueType: ClrType)   // new ValueTypeWrapper<T>(argument 1)
    | PackArguments(types: seq<ClrType>) // all data arguments in one nested tuple

  datatype ResultShape =
    | PassResult                 // the helper's result as it is
    | ReadValue                  // .Value of the returned ValueTypeWrapper<T>
    | AdaptTask(taskType: ClrType) // through the Vtwta adapter for this Task<T> / ValueTask<T>

  /** The body of one proxy method. */
  datatype Body =
    | Throws(kind: ExceptionKind)
    | Forward(context: ContextSource, request: RequestShape, result: ResultShape, helper: string)

  /** The parameters left as data once a trailing context parameter is dropped. */
  function DataParameters(op: Operation, params: seq<ClrType>): (data: seq<ClrType>)
    ensures op.context != CallContext ==> data == params
    ensures op.context == CallContext && |params| > 0 ==> data + [params[|params| - 1]] == params
  {
    if op.context == CallContext then (if |params| > 0 then params[..|params| - 1] else []) else params
  }

  /** A `CallContext` method passes the address of its last argument (`this` is argument 0). */
  function SelectContext(op: Operation, params: seq<ClrType>): (c: ContextSource)
    ensures c.ArgumentAddress? <==> op.context == CallContext
    ensures c.ArgumentAddress? ==> c.index == |params|
  {
    if op.context == CallContext then ArgumentAddress(|params|) else DefaultContext
  }

  /** How the request is built from the data parameters. */
  function SelectRequest(op: Operation, data: seq<ClrType>): (r: RequestShape)
    ensures r.EmptyRequest? <==> op.voidRequest
    ensures r.PackArguments? <==> !op.voidRequest && op.methodType in {Unary, ServerStreaming} && |data| > 1
    ensures r.PackArguments? ==> r.types == data
    ensures r.WrapArgument? <==> !op.voidRequest && op.methodType in {Unary, ServerStreaming} && |data| == 1 && data[0].isValueType
    ensures r.WrapArgument? ==> r.valueType == data[0]
  {
    if op.voidRequest then EmptyRequest
    else if op.methodType == Unary || op.methodType == ServerStreaming then
      (if |data| > 1 then PackArguments(data)
       else if |data| == 1 && data[0].isValueType then WrapArgument(data[0])
       else PassArgument)
    else PassArgument
  }

  /** How the helper's result is turned into the interface method's result. */
  function SelectResult(op: Operation, retType: ClrType): (r: ResultShape)
    ensures r.ReadValue? <==> op.result == Sync && !op.voidResponse && retType.isValueType
    ensures r.AdaptTask? <==> op.result in {Task, ValueTask} && !op.voidResponse
                              && |retType.genericArgs| >= 1 && retType.genericArgs[0].isValueType
    ensures r.AdaptTask? ==> r.taskType == retType
  {
    if op.result == Sync && !op.voidResponse && retType.isValueType then ReadValue
    else if (op.result == Task || op.result == ValueTask) && !op.voidResponse
            && |retType.genericArgs| >= 1 && retType.genericArgs[0].isValueType then AdaptTask(retType)
    else PassResult
  }

  /**
    The body of the proxy method for `m` in an interface that is (or is not)
    a service contract. Only `NoContext` and `CallContext` with a client
    helper forward; `CallOptions` is not implemented; everything else is not
    supported.
   */
  function SelectBody(isService: bool, m: InterfaceMethod): (b: Body)
    ensures b.Forward? <==> isService && m.signature.Some? && m.signature.value.context in {NoContext, CallContext}
                            && m.signature.value.clientHelper.Some?
    ensures b == Throws(NotImplementedException) <==> isService && m.signature.Some? && m.signature.value.context == CallOptions
    ensures b.Throws? ==> b.kind in {NotSupportedException, NotImplementedException}
    ensures b.Forward? ==> var op := m.signature.value;
      b.helper == op.clientHelper.value && b.context == SelectContext(op, m.paramTypes)
      && b.request == SelectRequest(op, DataParameters(op, m.paramTypes)) && b.result == SelectResult(op, m.returnType)
  {
    if !(isService && m.signature.Some?) then Throws(NotSupportedException)
    else
      var op := m.signature.value;
      match op.context
      case CallOptions => Throws(NotImplementedException)
      case NoContext =>
        if op.clientHelper.None? then Throws(NotSupportedException)
        else Forward(SelectContext(op, m.paramTypes), SelectRequest(op, DataParameters(op, m.paramTypes)),
                     SelectResult(op, m.returnType), op.clientHelper.value)
      case CallContext =>
        if op.clientHelper.None? then Throws(NotSupportedException)
        else Forward(SelectContext(op, m.paramTypes), SelectRequest(op, DataParameters(op, m.paramTypes)),
                     SelectResult(op, m.returnType), op.clientHelper.value)
      case ServerCallContext => Throws(NotSupportedException)
      case OtherContext => Throws(NotSupportedException)
  }

  // ---------------------------------------------------------------------
  // The code each decision stands for

  /** `il.ThrowException(kind)`: construct the exception and throw it. */
  function ThrowCode(kind: ExceptionKind): seq<Instr> {
    [Newobj(ExceptionCtor(kind)), Throw]
  }

  /** Throwing code throws its exception whatever the state and arguments. */
  lemma RunThrowCode(kind: ExceptionKind, m: Machine, args: seq<Val>, env: Env)
    ensures Run(ThrowCode(kind), m, args, env) == Threw(kind)
  {
    StepNewobj(ExceptionCtor(kind), m.stack, [], m.statics, args, env);
    assert m.stack + [] == m.stack;
    var m' := Machine(m.stack + [Obj(ExceptionCtor(kind), [])], m.statics);
    RunSnoc([Newobj(ExceptionCtor(kind))], Throw, m, m', args, env);
    assert ThrowCode(kind) == [Newobj(ExceptionCtor(kind))] + [Throw];
    RunSingle(Newobj(ExceptionCtor(kind)), m, args, env);
  }

  /** The plan can be emitted and run for methods taking `argCount` arguments (with `this`). */
  predicate PlanFits(b: Body, argCount: nat) {
    b.Forward?
    && (b.context.ArgumentAddress? ==> b.context.index < argCount && IsUInt16(b.context.index))
    && (b.request.PackArguments? ==> 1 <= |b.request.types| && |b.request.types| + 1 <= argCount && |b.request.types| < 0x1_0000)
    && ((b.request.PassArgument? || b.request.WrapArgument?) ==> 2 <= argCount)
  }

  function ContextCode(c: ContextSource): seq<Instr>
    requires c.ArgumentAddress? ==> IsUInt16(c.index)
  {
    match c
    case ArgumentAddress(i) => [Ldarga(i)]
    case DefaultContext => [Ldsflda(CallContextDefault)]
  }

  function RequestCode(r: RequestShape): seq<Instr>
    requires r.PackArguments? ==> 1 <= |r.types| < 0x1_0000
  {
    match r
    case EmptyRequest => [Ldsfld(EmptyInstance)]
    case PassArgument => [Ldarg1]
    case WrapArgument(t) => [Ldarg1, Newobj(WrapperCtor(t))]
    case PackArguments(types) => LoadArgs(1, |types|) + EmitTupleConstructor(types).value.0
  }

  function ResultCode(r: ResultShape, adapterName: string): seq<Instr> {
    match r
    case PassResult => []
    case ReadValue => [Ldfld("Value")]
    case AdaptTask(_) => [Call(ProxyMethod(adapterName))]
  }

  /**
    The forwarding thunk: context, invoker, method descriptor, request, a
    null host, the client helper call, the result adaptation, return.
   */
  function ThunkCode(b: Body, opField: string, adapterName: string): seq<Instr>
    requires b.Forward? && (b.context.ArgumentAddress? ==> IsUInt16(b.context.index))
    requires b.request.PackArguments? ==> 1 <= |b.request.types| < 0x1_0000
  {
    ContextCode(b.context) + [Ldarg0, Callvirt(CallInvokerGetter), Ldsfld(opField)]
    + RequestCode(b.request) + [Ldnull, Call(ClientHelper(b.helper))]
    + ResultCode(b.result, adapterName) + [Ret]
  }

  // ---------------------------------------------------------------------
  // What the thunk hands over and returns

  function ContextValue(c: ContextSource): Val {
    match c
    case ArgumentAddress(i) => ArgRef(i)
    case DefaultContext => StaticRef(CallContextDefault)
  }

  function RequestValue(r: RequestShape, args: seq<Val>, statics: map<string, Val>): Val
    requires r.PackArguments? ==> 1 <= |r.types| && |r.types| + 1 <= |args|
    requires (r.PassArgument? || r.WrapArgument?) ==> 2 <= |args|
  {
    match r
    case EmptyRequest => LoadStatic(statics, EmptyInstance)
    case PassArgument => args[1]
    case WrapArgument(t) => Obj(WrapperCtor(t), [args[1]])
    case PackArguments(types) => PackedValue(EmitTupleConstructor(types).value.1, args[1..|types| + 1])
  }

  function ResultValue(r: ResultShape, response: Val, adapterName: string, env: Env): Val {
    match r
    case PassResult => response
    case ReadValue => LoadField(response, "Value")
    case AdaptTask(_) => env.call(ProxyMethod(adapterName), [response])
  }

  /** The arguments the client helper receives. */
  function HelperArguments(b: Body, opField: string, args: seq<Val>, statics: map<string, Val>, env: Env): seq<Val>
    requires PlanFits(b, |args|) && |args| >= 1
  {
    [ContextValue(b.context), env.call(CallInvokerGetter, [args[0]]), LoadStatic(statics, opField),
     RequestValue(b.request, args, statics), Null]
  }

  /** What the proxy method returns. */
  function ForwardedResult(b: Body, opField: string, adapterName: string,
                           args: seq<Val>, statics: map<string, Val>, env: Env): Val
    requires PlanFits(b, |args|) && |args| >= 1
  {
    ResultValue(b.result, env.call(ClientHelper(b.helper), HelperArguments(b, opField, args, statics, env)), adapterName, env)
  }

  /** A packed request holds the data arguments in declared order. */
  lemma PackedRequestInOrder(types: seq<ClrType>, args: seq<Val>, statics: map<string, Val>)
    requires 1 <= |types| && |types| + 1 <= |args|
    ensures FlattenValue(RequestValue(PackArguments(types), args, statics)) == args[1..|types| + 1]
  {
    var r := EmitTupleConstructor(types);
    FlattenPacked(r.value.1, args[1..|types| + 1]);
  }

  lemma RunContext(c: ContextSource, m: Machine, args: seq<Val>, env: Env)
    requires c.ArgumentAddress? ==> c.index < |args| && IsUInt16(c.index)
    ensures Run(ContextCode(c), m, args, env) == Running(m.(stack := m.stack + [ContextValue(c)]))
  {
    RunSingle(ContextCode(c)[0], m, args, env);
    assert ContextCode(c) == [ContextCode(c)[0]];
    if c.ArgumentAddress? {
      StepLdarga(c.index, m, args, env);
    }
  }

  lemma RunRequest(r: RequestShape, m: Machine, args: seq<Val>, env: Env)
    requires r.PackArguments? ==> 1 <= |r.types| && |r.types| + 1 <= |args| && |r.types| < 0x1_0000
    requires (r.PassArgument? || r.WrapArgument?) ==> 2 <= |args|
    ensures Run(RequestCode(r), m, args, env) == Running(m.(stack := m.stack + [RequestValue(r, args, m.statics)]))
  {
    match r
    case EmptyRequest =>
      RunSingle(Ldsfld(EmptyInstance), m, args, env);
    case PassArgument =>
      RunSingle(Ldarg1, m, args, env);
      StepLdarg(1, m, args, env);
    case WrapArgument(t) =>
      RunSingle(Ldarg1, m, args, env);
      StepLdarg(1, m, args, env);
      var m1 := m.(stack := m.stack + [args[1]]);
      RunSnoc([Ldarg1], Newobj(WrapperCtor(t)), m, m1, args, env);
      StepNewobj(WrapperCtor(t), m.stack, [args[1]], m.statics, args, env);
    case PackArguments(types) =>
      RunPackArguments(types, m, args, env);
  }

  lemma RunResult(r: ResultShape, adapterName: string, s: seq<Val>, response: Val,
                  statics: map<string, Val>, args: seq<Val>, env: Env)
    ensures Run(ResultCode(r, adapterName) + [Ret], Machine(s + [response], statics), args, env)
         == Returned(Machine(s + [ResultValue(r, response, adapterName, env)], statics))
  {
    var m := Machine(s + [response], statics);
    match r
    case PassResult =>
      assert ResultCode(r, adapterName) + [Ret] == [Ret];
      RunSingle(Ret, m, args, env);
    case ReadValue =>
      var m1 := Machine(s + [LoadField(response, "Value")], statics);
      RunSingle(Ldfld("Value"), m, args, env);
      assert m.stack[..|m.stack| - 1] == s;
      RunSnoc([Ldfld("Value")], Ret, m, m1, args, env);
    case AdaptTask(_) =>
      var callee := ProxyMethod(adapterName);
      RunSingle(Call(callee), m, args, env);
      StepCall(callee, s, [response], statics, args, env);
      var m1 := Machine(s + [env.call(callee, [response])], statics);
      RunSnoc([Call(callee)], Ret, m, m1, args, env);
  }

  /**
    Run on any arguments, static fields and callee behaviour, the thunk
    returns exactly the adapted result of one client-helper call that
    receives the planned context, the invoker read through `this`, the
    operation's `s_op` field, the planned request and a null host.
   */
  lemma RunThunk(b: Body, opField: string, adapterName: string, args: seq<Val>, statics: map<string, Val>, env: Env)
    requires PlanFits(b, |args|) && |args| >= 1
    ensures Run(ThunkCode(b, opField, adapterName), Machine([], statics), args, env)
         == Returned(Machine([ForwardedResult(b, opField, adapterName, args, statics, env)], statics))
  {
    var m0 := Machine([], statics);
    var ctx := ContextValue(b.context);
    var c1 := ContextCode(b.context);
    var rest := [Ldarg0, Callvirt(CallInvokerGetter), Ldsfld(opField)] + RequestCode(b.request)
                + ([Ldnull, Call(ClientHelper(b.helper))] + (ResultCode(b.result, adapterName) + [Ret]));
    assert ThunkCode(b, opField, adapterName) == c1 + rest;
    RunContext(b.context, m0, args, env);
    RunThen(c1, rest, m0, Machine([ctx], statics), args, env);
    RunAfterContext(b, opField, adapterName, ctx, args, statics, env);
  }

  lemma RunAfterContext(b: Body, opField: string, adapterName: string, ctx: Val,
                        args: seq<Val>, statics: map<string, Val>, env: Env)
    requires PlanFits(b, |args|) && |args| >= 1 && ctx == ContextValue(b.context)
    ensures Run([Ldarg0, Callvirt(CallInvokerGetter), Ldsfld(opField)] + RequestCode(b.request)
                + ([Ldnull, Call(ClientHelper(b.helper))] + (ResultCode(b.result, adapterName) + [Ret])),
                Machine([ctx], statics), args, env)
         == Returned(Machine([ForwardedResult(b, opField, adapterName, args, statics, env)], statics))
  {
    var c2 := [Ldarg0, Callvirt(CallInvokerGetter), Ldsfld(opField)];
    var c3 := RequestCode(b.request);
    var tail := [Ldnull, Call(ClientHelper(b.helper))] + (ResultCode(b.result, adapterName) + [Ret]);
    var m1 := Machine([ctx], statics);
    var m2 := Machine([ctx, env.call(CallInvokerGetter, [args[0]]), LoadStatic(statics, opField)], statics);
    RunPrologue(ctx, opField, statics, args, env);
    RunAppend(c2 + c3, tail, m1, args, env);
    RunThen(c2, c3, m1, m2, args, env);
    RunRequest(b.request, m2, args, env);
    var s := m2.stack + [RequestValue(b.request, args, statics)];
    assert s == HelperArguments(b, opField, args, statics, env)[..4];
    RunForwardTail(b.helper, b.result, adapterName, s, statics, args, env);
    assert s + [Null] == HelperArguments(b, opField, args, statics, env);
  }

  /** The helper call, the result adaptation and the return. */
  lemma RunForwardTail(helper: string, r: ResultShape, adapterName: string, s: seq<Val>,
                       statics: map<string, Val>, args: seq<Val>, env: Env)
    requires |s| == 4
    ensures Run([Ldnull, Call(ClientHelper(helper))] + (ResultCode(r, adapterName) + [Ret]), Machine(s, statics), args, env)
         == Returned(Machine([ResultValue(r, env.call(ClientHelper(helper), s + [Null]), adapterName, env)], statics))
  {
    var response := env.call(ClientHelper(helper), s + [Null]);
    RunHelperCall(helper, s, statics, args, env);
    RunThen([Ldnull, Call(ClientHelper(helper))], ResultCode(r, adapterName) + [Ret], Machine(s, statics),
            Machine([response], statics), args, env);
    RunResult(r, adapterName, [], response, statics, args, env);
    assert [] + [response] == [response];
  }

  lemma RunPrologue(ctx: Val, opField: string, statics: map<string, Val>, args: seq<Val>, env: Env)
    requires |args| >= 1
    ensures Run([Ldarg0, Callvirt(CallInvokerGetter), Ldsfld(opField)], Machine([ctx], statics), args, env)
         == Running(Machine([ctx, env.call(CallInvokerGetter, [args[0]]), LoadStatic(statics, opField)], statics))
  {
    var m := Machine([ctx], statics);
    RunSingle(Ldarg0, m, args, env);
    StepLdarg(0, m, args, env);
    var m1 := Machine([ctx, args[0]], statics);
    StepCall(CallInvokerGetter, [ctx], [args[0]], statics, args, env);
    RunSnoc([Ldarg0], Callvirt(CallInvokerGetter), m, m1, args, env);
    var m2 := Machine([ctx, env.call(CallInvokerGetter, [args[0]])], statics);
    RunSnoc([Ldarg0, Callvirt(CallInvokerGetter)], Ldsfld(opField), m, m2, args, env);
    assert [Ldarg0] + [Callvirt(CallInvokerGetter)] == [Ldarg0, Callvirt(CallInvokerGetter)];
    assert [Ldarg0, Callvirt(CallInvokerGetter)] + [Ldsfld(opField)] == [Ldarg0, Callvirt(CallInvokerGetter), Ldsfld(opField)];
  }

  lemma RunHelperCall(helper: string, s: seq<Val>, statics: map<string, Val>, args: seq<Val>, env: Env)
    requires |s| == 4
    ensures Run([Ldnull, Call(ClientHelper(helper))], Machine(s, statics), args, env)
         == Running(Machine([env.call(ClientHelper(helper), s + [Null])], statics))
  {
    var m := Machine(s, statics);
    RunSingle(Ldnull, m, args, env);
    var m1 := Machine(s + [Null], statics);
    StepCall(ClientHelper(helper), [], s + [Null], statics, args, env);
    assert [] + (s + [Null]) == s + [Null];
    RunSnoc([Ldnull], Call(ClientHelper(helper)), m, m1, args, env);
    assert [] + [env.call(ClientHelper(helper), s + [Null])] == [env.call(ClientHelper(helper), s + [Null])];
  }
}
