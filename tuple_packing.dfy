/**
  Packing of several request arguments into one right-nested
  `System.Tuple`: seven values per node plus a nested "rest" tuple, as
  `ProxyEmitter.EmitTupleConstructor` builds it.
 */
module TuplePacking {
  import opened Wrappers
  import opened Il
  import opened StackMachine

  /** A tuple node of arity 1..8 whose type is `System.Tuple` of its items. */
  ghost predicate IsTupleNode(t: ClrType) {
    1 <= |t.genericArgs| <= 8 && t == TupleOf(t.genericArgs)
  }

  /** Every node has arity 1..8 and every arity-8 node ends in a nested tuple. */
  ghost predicate WellNested(t: ClrType)
    decreases t
  {
    IsTupleNode(t) && (|t.genericArgs| == 8 ==> WellNested(t.genericArgs[7]))
  }

  /** The element types of a nested tuple, left to right, with the rest slots opened. */
  function FlattenType(t: ClrType): seq<ClrType>
    decreases t
  {
    if |t.genericArgs| == 8 then t.genericArgs[..7] + FlattenType(t.genericArgs[7]) else t.genericArgs
  }

  /**
    `EmitTupleConstructor`: the `newobj` instructions that turn the values of
    `types`, pushed in order, into one tuple, innermost node first, and the
    type of that tuple. No types at all is an `ArgumentException`.
   */
  function EmitTupleConstructor(types: seq<ClrType>): (r: Result<(seq<Instr>, ClrType), ExceptionKind>)
    ensures r.Failure? <==> |types| == 0
    ensures r.Failure? ==> r.error == ArgumentException
    ensures r.Success? ==> WellNested(r.value.1) && FlattenType(r.value.1) == types
    ensures r.Success? ==> (|types| <= 7 <==> r.value.1.genericArgs == types)
    decreases |types|
  {
    if |types| > 7 then
      match EmitTupleConstructor(types[7..])
      case Success((code, rest)) =>
        var t := TupleOf(types[..7] + [rest]);
        assert t.genericArgs[..7] == types[..7] && t.genericArgs[7] == rest;
        assert types == types[..7] + types[7..];
        Success((code + [Newobj(TupleCtor(t))], t))
      case Failure(e) => Failure(e)
    else if |types| == 0 then Failure(ArgumentException)
    else
      var t := TupleOf(types);
      Success(([Newobj(TupleCtor(t))], t))
  }

  /** The tuple object of type `t` holding `vs`, nested as `t` is. */
  function PackedValue(t: ClrType, vs: seq<Val>): Val
    decreases t
  {
    if |t.genericArgs| == 8 && |vs| >= 7 then
      Obj(TupleCtor(t), vs[..7] + [PackedValue(t.genericArgs[7], vs[7..])])
    else Obj(TupleCtor(t), vs)
  }

  /** The values of a packed tuple, left to right, with the rest slots opened. */
  function FlattenValue(v: Val): seq<Val>
    decreases v
  {
    if v.Obj? && v.ctor.TupleCtor? && |v.fields| == 8 then v.fields[..7] + FlattenValue(v.fields[7])
    else if v.Obj? && v.ctor.TupleCtor? then v.fields
    else [v]
  }

  /** Opening a packed tuple gives back the values in their original order. */
  lemma {:induction false} FlattenPacked(t: ClrType, vs: seq<Val>)
    requires WellNested(t) && |vs| == |FlattenType(t)|
    ensures FlattenValue(PackedValue(t, vs)) == vs
    decreases t
  {
    if |t.genericArgs| == 8 {
      FlattenPacked(t.genericArgs[7], vs[7..]);
      assert vs == vs[..7] + vs[7..];
    }
  }

  /** The per-argument loads `Ldarg(first) .. Ldarg(first + count - 1)`. */
  function LoadArgs(first: nat, count: nat): (code: seq<Instr>)
    requires first + count <= 0x1_0000
    decreases count
  {
    if count == 0 then [] else LoadArgs(first, count - 1) + [Ldarg(first + count - 1)]
  }

  /** The loads push exactly arguments `first .. first + count - 1`, in order. */
  lemma {:induction false} RunLoadArgs(first: nat, count: nat, m: Machine, args: seq<Val>, env: Env)
    requires first + count <= 0x1_0000 && first + count <= |args|
    ensures Run(LoadArgs(first, count), m, args, env) == Running(m.(stack := m.stack + args[first..first + count]))
    decreases count
  {
    if count == 0 {
      assert args[first..first] == [];
      assert m.(stack := m.stack + []) == m;
    } else {
      RunLoadArgs(first, count - 1, m, args, env);
      RunLoadArgsStep(first, count, m, args, env);
    }
  }

  /** One more load pushes the next argument. */
  lemma {:induction false} RunLoadArgsStep(first: nat, count: nat, m: Machine, args: seq<Val>, env: Env)
    requires 0 < count && first + count <= 0x1_0000 && first + count <= |args|
    requires Run(LoadArgs(first, count - 1), m, args, env) == Running(m.(stack := m.stack + args[first..first + count - 1]))
    ensures Run(LoadArgs(first, count), m, args, env) == Running(m.(stack := m.stack + args[first..first + count]))
  {
    var last := first + count - 1;
    var m' := m.(stack := m.stack + args[first..last]);
    RunSnoc(LoadArgs(first, count - 1), Ldarg(last), m, m', args, env);
    StepLdarg(last, m', args, env);
    SliceSnoc(args, first, last);
    assert m'.stack + [args[last]] == m.stack + (args[first..last] + [args[last]]);
  }

  lemma {:induction false} SliceSnoc(s: seq<Val>, i: nat, j: nat)
    requires i <= j < |s|
    ensures s[i..j] + [s[j]] == s[i..j + 1]
  {
  }

  /**
    With the values `vs` on top of the stack, the tuple constructor code
    replaces them by the single packed tuple.
   */
  lemma {:induction false} RunTupleConstructor(types: seq<ClrType>, s: seq<Val>, vs: seq<Val>,
                                               statics: map<string, Val>, args: seq<Val>, env: Env)
    requires |types| >= 1 && |vs| == |types|
    ensures EmitTupleConstructor(types).Success?
    ensures Run(EmitTupleConstructor(types).value.0, Machine(s + vs, statics), args, env)
         == Running(Machine(s + [PackedValue(EmitTupleConstructor(types).value.1, vs)], statics))
    decreases |types|
  {
    var r := EmitTupleConstructor(types);
    var t := r.value.1;
    if |types| > 7 {
      var inner := EmitTupleConstructor(types[7..]);
      var rest := inner.value.1;
      var s' := s + vs[..7];
      assert s + vs == s' + vs[7..];
      RunTupleConstructor(types[7..], s', vs[7..], statics, args, env);
      var restValue := PackedValue(rest, vs[7..]);
      RunSnoc(inner.value.0, Newobj(TupleCtor(t)), Machine(s + vs, statics), Machine(s' + [restValue], statics), args, env);
      assert s' + [restValue] == s + (vs[..7] + [restValue]);
      StepNewobj(TupleCtor(t), s, vs[..7] + [restValue], statics, args, env);
    } else {
      RunSingle(Newobj(TupleCtor(t)), Machine(s + vs, statics), args, env);
      StepNewobj(TupleCtor(t), s, vs, statics, args, env);
    }
  }

  /**
    Pushing arguments `1..n` and then the tuple constructor leaves exactly
    one value, the tuple, and opening it gives the arguments in declared order.
   */
  lemma RunPackArguments(types: seq<ClrType>, m: Machine, args: seq<Val>, env: Env)
    requires 1 <= |types| && |types| + 1 <= |args| && |types| < 0x1_0000
    ensures EmitTupleConstructor(types).Success?
    ensures var t := EmitTupleConstructor(types).value.1;
      Run(LoadArgs(1, |types|) + EmitTupleConstructor(types).value.0, m, args, env)
        == Running(m.(stack := m.stack + [PackedValue(t, args[1..|types| + 1])]))
      && FlattenValue(PackedValue(t, args[1..|types| + 1])) == args[1..|types| + 1]
  {
    var n := |types|;
    var vs := args[1..n + 1];
    RunLoadArgs(1, n, m, args, env);
    RunThen(LoadArgs(1, n), EmitTupleConstructor(types).value.0, m, m.(stack := m.stack + vs), args, env);
    RunTupleConstructor(types, m.stack, vs, m.statics, args, env);
    FlattenPacked(EmitTupleConstructor(types).value.1, vs);
  }
}
