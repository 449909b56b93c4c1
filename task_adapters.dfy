/**
  The static helpers a proxy defines for value-type results delivered
  asynchronously: `Cont{k}` reads `Task<ValueTypeWrapper<T>>.Result.Value`,
  and `Vtwta{k}` attaches that continuation to the `Task` (or `ValueTask`)
  the client helper returned. What the runtime's task machinery does with the
  continuation (scheduling, completion, cancellation) is left to `Env`.
 */
module TaskAdapters {
  import opened Il
  import opened StackMachine

  /** `static T Cont{k}(Task<ValueTypeWrapper<T>> task) => task.Result.Value;` */
  function ContinuationCode(): seq<Instr> {
    [Ldarg0, Callvirt(TaskResultGetter), Ldfld("Value"), Ret]
  }

  /** What the continuation returns for a completed task: its result's `Value`. */
  function Unwrapped(task: Val, env: Env): Val {
    LoadField(env.call(TaskResultGetter, [task]), "Value")
  }

  lemma RunContinuation(args: seq<Val>, statics: map<string, Val>, env: Env)
    requires |args| == 1
    ensures Run(ContinuationCode(), Machine([], statics), args, env) == Returned(Machine([Unwrapped(args[0], env)], statics))
  {
    var m := Machine([], statics);
    RunSingle(Ldarg0, m, args, env);
    StepLdarg(0, m, args, env);
    var m1 := Machine([args[0]], statics);
    RunSnoc([Ldarg0], Callvirt(TaskResultGetter), m, m1, args, env);
    StepCall(TaskResultGetter, [], [args[0]], statics, args, env);
    assert [] + [args[0]] == [args[0]];
    var result := env.call(TaskResultGetter, [args[0]]);
    var m2 := Machine([result], statics);
    RunSnoc([Ldarg0, Callvirt(TaskResultGetter)], Ldfld("Value"), m, m2, args, env);
    var m3 := Machine([Unwrapped(args[0], env)], statics);
    RunSnoc([Ldarg0, Callvirt(TaskResultGetter), Ldfld("Value")], Ret, m, m3, args, env);
  }

  /**
    When the input's result is `new ValueTypeWrapper<T>(v)`, the continuation
    returns `v` itself: the wrapper is stripped exactly once.
   */
  lemma ContinuationUnwraps(t: ClrType, v: Val, args: seq<Val>, statics: map<string, Val>, env: Env)
    requires |args| == 1 && env.call(TaskResultGetter, [args[0]]) == Obj(WrapperCtor(t), [v])
    ensures Run(ContinuationCode(), Machine([], statics), args, env) == Returned(Machine([v], statics))
  {
    RunContinuation(args, statics, env);
  }

  predicate IsValueTask(taskType: ClrType) {
    taskType.name == ValueTaskTypeName
  }

  /**
    The adapter for `Task<T>` or `ValueTask<T>`: take the incoming task
    (through `AsTask()` on the argument's address for a `ValueTask`), attach
    a `Func<Task<ValueTypeWrapper<T>>, T>` over the continuation, and turn the
    continued task back into a `ValueTask<T>` when that is what was asked for.
   */
  function AdapterCode(taskType: ClrType, continuation: string): seq<Instr>
    requires |taskType.genericArgs| >= 1
  {
    var t := taskType.genericArgs[0];
    (if IsValueTask(taskType) then [Ldarga(0), Call(AsTask)] else [Ldarg0])
    + [Ldnull, Ldftn(continuation), Newobj(FuncCtor(TaskOf(WrapperOf(t)), t)), Callvirt(ContinueWith)]
    + (if IsValueTask(taskType) then [Newobj(ValueTaskCtor(t))] else [])
    + [Ret]
  }

  /** The delegate the adapter hands to `ContinueWith`: a static call of the continuation. */
  function ContinuationDelegate(t: ClrType, continuation: string): Val {
    Obj(FuncCtor(TaskOf(WrapperOf(t)), t), [Null, FnPtr(continuation)])
  }

  /** The `Task` that `ContinueWith` is called on. */
  function SourceTask(taskType: ClrType, args: seq<Val>, env: Env): Val
    requires |args| >= 1
  {
    if IsValueTask(taskType) then env.call(AsTask, [ArgRef(0)]) else args[0]
  }

  lemma RunAdapter(taskType: ClrType, continuation: string, args: seq<Val>, statics: map<string, Val>, env: Env)
    requires |taskType.genericArgs| >= 1 && |args| == 1
    ensures var t := taskType.genericArgs[0];
      var continued := env.call(ContinueWith, [SourceTask(taskType, args, env), ContinuationDelegate(t, continuation)]);
      Run(AdapterCode(taskType, continuation), Machine([], statics), args, env)
        == Returned(Machine([if IsValueTask(taskType) then Obj(ValueTaskCtor(t), [continued]) else continued], statics))
  {
    var t := taskType.genericArgs[0];
    var m := Machine([], statics);
    var source := SourceTask(taskType, args, env);
    var head := if IsValueTask(taskType) then [Ldarga(0), Call(AsTask)] else [Ldarg0];
    var middle := [Ldnull, Ldftn(continuation), Newobj(FuncCtor(TaskOf(WrapperOf(t)), t)), Callvirt(ContinueWith)];
    var tail := (if IsValueTask(taskType) then [Newobj(ValueTaskCtor(t))] else []) + [Ret];
    assert AdapterCode(taskType, continuation) == head + (middle + tail);
    var m1 := Machine([source], statics);
    RunAdapterHead(taskType, args, statics, env);
    RunThen(head, middle + tail, m, m1, args, env);
    var continued := env.call(ContinueWith, [source, ContinuationDelegate(t, continuation)]);
    var m2 := Machine([continued], statics);
    RunAdapterMiddle(t, continuation, source, statics, args, env);
    RunThen(middle, tail, m1, m2, args, env);
    RunAdapterTail(taskType, continued, statics, args, env);
  }

  lemma RunAdapterHead(taskType: ClrType, args: seq<Val>, statics: map<string, Val>, env: Env)
    requires |args| == 1
    ensures Run(if IsValueTask(taskType) then [Ldarga(0), Call(AsTask)] else [Ldarg0], Machine([], statics), args, env)
         == Running(Machine([SourceTask(taskType, args, env)], statics))
  {
    var m := Machine([], statics);
    if IsValueTask(taskType) {
      RunSingle(Ldarga(0), m, args, env);
      StepLdarga(0, m, args, env);
      RunSnoc([Ldarga(0)], Call(AsTask), m, Machine([ArgRef(0)], statics), args, env);
      StepCall(AsTask, [], [ArgRef(0)], statics, args, env);
      assert [] + [ArgRef(0)] == [ArgRef(0)];
      assert [] + [env.call(AsTask, [ArgRef(0)])] == [env.call(AsTask, [ArgRef(0)])];
      assert [Ldarga(0)] + [Call(AsTask)] == [Ldarga(0), Call(AsTask)];
    } else {
      RunSingle(Ldarg0, m, args, env);
      StepLdarg(0, m, args, env);
    }
  }

  lemma {:induction false} RunAdapterMiddle(t: ClrType, continuation: string, source: Val, statics: map<string, Val>,
                                            args: seq<Val>, env: Env)
    ensures Run([Ldnull, Ldftn(continuation), Newobj(FuncCtor(TaskOf(WrapperOf(t)), t)), Callvirt(ContinueWith)],
                Machine([source], statics), args, env)
         == Running(Machine([env.call(ContinueWith, [source, ContinuationDelegate(t, continuation)])], statics))
  {
    var c := FuncCtor(TaskOf(WrapperOf(t)), t);
    var f := ContinuationDelegate(t, continuation);
    RunContinuationDelegate(t, continuation, source, statics, args, env);
    StepCall(ContinueWith, [], [source, f], statics, args, env);
    assert [] + [source, f] == [source, f];
    assert [] + [env.call(ContinueWith, [source, f])] == [env.call(ContinueWith, [source, f])];
    RunSnoc([Ldnull, Ldftn(continuation), Newobj(c)], Callvirt(ContinueWith), Machine([source], statics),
            Machine([source, f], statics), args, env);
    assert [Ldnull, Ldftn(continuation), Newobj(c)] + [Callvirt(ContinueWith)]
        == [Ldnull, Ldftn(continuation), Newobj(c), Callvirt(ContinueWith)];
  }

  /** `new Func<,>(null, &Cont{k})` pushes the continuation delegate. */
  lemma {:induction false} RunContinuationDelegate(t: ClrType, continuation: string, source: Val, statics: map<string, Val>,
                                                   args: seq<Val>, env: Env)
    ensures Run([Ldnull, Ldftn(continuation), Newobj(FuncCtor(TaskOf(WrapperOf(t)), t))], Machine([source], statics), args, env)
         == Running(Machine([source, ContinuationDelegate(t, continuation)], statics))
  {
    var c := FuncCtor(TaskOf(WrapperOf(t)), t);
    var m1 := Machine([source], statics);
    RunSingle(Ldnull, m1, args, env);
    RunSnoc([Ldnull], Ldftn(continuation), m1, Machine([source, Null], statics), args, env);
    StepNewobj(c, [source], [Null, FnPtr(continuation)], statics, args, env);
    assert [source] + [Null, FnPtr(continuation)] == [source, Null, FnPtr(continuation)];
    assert [source] + [ContinuationDelegate(t, continuation)] == [source, ContinuationDelegate(t, continuation)];
    assert [Ldnull] + [Ldftn(continuation)] == [Ldnull, Ldftn(continuation)];
    RunSnoc([Ldnull, Ldftn(continuation)], Newobj(c), m1, Machine([source, Null, FnPtr(continuation)], statics), args, env);
    assert [Ldnull, Ldftn(continuation)] + [Newobj(c)] == [Ldnull, Ldftn(continuation), Newobj(c)];
  }

  lemma {:induction false} RunAdapterTail(taskType: ClrType, continued: Val, statics: map<string, Val>,
                                          args: seq<Val>, env: Env)
    requires |taskType.genericArgs| >= 1
    ensures var t := taskType.genericArgs[0];
      Run((if IsValueTask(taskType) then [Newobj(ValueTaskCtor(t))] else []) + [Ret], Machine([continued], statics), args, env)
        == Returned(Machine([if IsValueTask(taskType) then Obj(ValueTaskCtor(t), [continued]) else continued], statics))
  {
    if IsValueTask(taskType) {
      RunWrapValueTask(taskType.genericArgs[0], continued, statics, args, env);
    } else {
      assert [] + [Ret] == [Ret];
      RunSingle(Ret, Machine([continued], statics), args, env);
    }
  }

  /** `new ValueTask<T>(task); ret` returns the wrapped task. */
  lemma {:induction false} RunWrapValueTask(t: ClrType, continued: Val, statics: map<string, Val>, args: seq<Val>, env: Env)
    ensures Run([Newobj(ValueTaskCtor(t))] + [Ret], Machine([continued], statics), args, env)
         == Returned(Machine([Obj(ValueTaskCtor(t), [continued])], statics))
  {
    var m2 := Machine([continued], statics);
    RunSingle(Newobj(ValueTaskCtor(t)), m2, args, env);
    StepNewobj(ValueTaskCtor(t), [], [continued], statics, args, env);
    assert [] + [continued] == [continued];
    assert [] + [Obj(ValueTaskCtor(t), [continued])] == [Obj(ValueTaskCtor(t), [continued])];
    RunSnoc([Newobj(ValueTaskCtor(t))], Ret, m2, Machine([Obj(ValueTaskCtor(t), [continued])], statics), args, env);
  }

}
