/**
  The proxy's `Init` method: one block per identified operation that builds
  `new Method<TRequest, TResponse>(methodType, serviceName, name,
  requestMarshaller, responseMarshaller)` and stores it in that operation's
  `s_op_{i}` field. `Init` reads the marshaller fields, so it only sees real
  marshallers when they are assigned first.
 */
module TypeInitializer {
  import opened Wrappers
  import opened Naming
  import opened Il
  import opened StackMachine
  import opened Contracts

  const OpFieldPrefix: string := "s_op_"

  /** One `s_op_{i}` field and what its initializer block is built from. */
  datatype OpField = OpField(
    field: string,
    methodType: MethodType,
    serviceName: string,
    opName: string,
    from: ClrType,
    to: ClrType,
    fromField: string,   // the `_m{k}` field of the request marshaller
    toField: string)     // the `_m{k}` field of the response marshaller

  function OpFieldName(k: nat): (name: string)
    ensures |name| > |OpFieldPrefix| && name[..|OpFieldPrefix|] == OpFieldPrefix
  {
    IndexedName(OpFieldPrefix, k)
  }

  /** The block `CreateFactory` appends to `Init` for one operation. */
  function InitBlock(e: OpField): seq<Instr> {
    [ShortestLdc_I4(MethodTypeCode(e.methodType)), Ldstr(e.serviceName), Ldstr(e.opName),
     Ldsfld(e.fromField), Ldsfld(e.toField), Newobj(MethodCtor(e.from, e.to)), Stsfld(e.field)]
  }

  /** The blocks of `es`, in order. */
  function InitCode(es: seq<OpField>): seq<Instr>
    decreases |es|
  {
    if es == [] then [] else InitCode(es[..|es| - 1]) + InitBlock(es[|es| - 1])
  }

  /** The `Method<,>` object an operation's field should hold. */
  function MethodValue(e: OpField): Val {
    Obj(MethodCtor(e.from, e.to),
        [Int(MethodTypeCode(e.methodType)), Str(e.serviceName), Str(e.opName), MarshallerFor(e.from), MarshallerFor(e.to)])
  }

  /** The statics once every block of `es` has stored its value. */
  function Initialized(es: seq<OpField>, statics: map<string, Val>): map<string, Val>
    decreases |es|
  {
    if es == [] then statics else Initialized(es[..|es| - 1], statics)[es[|es| - 1].field := MethodValue(es[|es| - 1])]
  }

  /** The marshaller fields the blocks read hold the marshallers for their types. */
  ghost predicate MarshallersAssigned(es: seq<OpField>, statics: map<string, Val>) {
    forall i :: 0 <= i < |es| ==>
      LoadStatic(statics, es[i].fromField) == MarshallerFor(es[i].from)
      && LoadStatic(statics, es[i].toField) == MarshallerFor(es[i].to)
  }

  /** No block stores into a field another block reads. */
  ghost predicate FieldsApart(es: seq<OpField>) {
    forall i, j :: 0 <= i < |es| && 0 <= j < |es| ==> es[i].field != es[j].fromField && es[i].field != es[j].toField
  }

  /** Each operation has its own field. */
  ghost predicate FieldsDistinct(es: seq<OpField>) {
    forall i, j :: 0 <= i < j < |es| ==> es[i].field != es[j].field
  }

  /** The constructor arguments of the operation's `Method<,>`, in push order. */
  function MethodArguments(e: OpField): seq<Val> {
    [Int(MethodTypeCode(e.methodType)), Str(e.serviceName), Str(e.opName), MarshallerFor(e.from), MarshallerFor(e.to)]
  }

  lemma RunInitBlock(e: OpField, statics: map<string, Val>, env: Env)
    requires LoadStatic(statics, e.fromField) == MarshallerFor(e.from)
    requires LoadStatic(statics, e.toField) == MarshallerFor(e.to)
    ensures Run(InitBlock(e), Machine([], statics), [], env) == Running(Machine([], statics[e.field := MethodValue(e)]))
  {
    var ldc := ShortestLdc_I4(MethodTypeCode(e.methodType));
    var c := MethodCtor(e.from, e.to);
    var head := [ldc, Ldstr(e.serviceName), Ldstr(e.opName)];
    var loads := [Ldsfld(e.fromField), Ldsfld(e.toField)];
    var store := [Newobj(c), Stsfld(e.field)];
    var vs := MethodArguments(e);
    assert InitBlock(e) == head + (loads + store);
    RunInitHead(e, statics, env);
    RunThen(head, loads + store, Machine([], statics), Machine(vs[..3], statics), [], env);
    RunInitLoads(e, vs[..3], statics, env);
    assert vs[..3] + [MarshallerFor(e.from), MarshallerFor(e.to)] == vs;
    RunThen(loads, store, Machine(vs[..3], statics), Machine(vs, statics), [], env);
    RunInitStore(e, statics, env);
  }

  lemma RunInitHead(e: OpField, statics: map<string, Val>, env: Env)
    ensures Run([ShortestLdc_I4(MethodTypeCode(e.methodType)), Ldstr(e.serviceName), Ldstr(e.opName)],
                Machine([], statics), [], env)
         == Running(Machine(MethodArguments(e)[..3], statics))
  {
    var ldc := ShortestLdc_I4(MethodTypeCode(e.methodType));
    var vs := MethodArguments(e);
    var m0 := Machine([], statics);
    RunSingle(ldc, m0, [], env);
    StepLdc(ldc, m0, [], env);
    assert [] + [vs[0]] == vs[..1];
    RunSnoc([ldc], Ldstr(e.serviceName), m0, Machine(vs[..1], statics), [], env);
    assert vs[..1] + [vs[1]] == vs[..2];
    assert [ldc] + [Ldstr(e.serviceName)] == [ldc, Ldstr(e.serviceName)];
    RunSnoc([ldc, Ldstr(e.serviceName)], Ldstr(e.opName), m0, Machine(vs[..2], statics), [], env);
    assert vs[..2] + [vs[2]] == vs[..3];
    assert [ldc, Ldstr(e.serviceName)] + [Ldstr(e.opName)] == [ldc, Ldstr(e.serviceName), Ldstr(e.opName)];
  }

  lemma RunInitLoads(e: OpField, s: seq<Val>, statics: map<string, Val>, env: Env)
    requires LoadStatic(statics, e.fromField) == MarshallerFor(e.from)
    requires LoadStatic(statics, e.toField) == MarshallerFor(e.to)
    ensures Run([Ldsfld(e.fromField), Ldsfld(e.toField)], Machine(s, statics), [], env)
         == Running(Machine(s + [MarshallerFor(e.from), MarshallerFor(e.to)], statics))
  {
    var m := Machine(s, statics);
    RunSingle(Ldsfld(e.fromField), m, [], env);
    RunSnoc([Ldsfld(e.fromField)], Ldsfld(e.toField), m, Machine(s + [MarshallerFor(e.from)], statics), [], env);
    assert s + [MarshallerFor(e.from)] + [MarshallerFor(e.to)] == s + [MarshallerFor(e.from), MarshallerFor(e.to)];
    assert [Ldsfld(e.fromField)] + [Ldsfld(e.toField)] == [Ldsfld(e.fromField), Ldsfld(e.toField)];
  }

  lemma RunInitStore(e: OpField, statics: map<string, Val>, env: Env)
    ensures Run([Newobj(MethodCtor(e.from, e.to)), Stsfld(e.field)], Machine(MethodArguments(e), statics), [], env)
         == Running(Machine([], statics[e.field := MethodValue(e)]))
  {
    var c := MethodCtor(e.from, e.to);
    var vs := MethodArguments(e);
    var m := Machine(vs, statics);
    RunSingle(Newobj(c), m, [], env);
    StepNewobj(c, [], vs, statics, [], env);
    assert [] + vs == vs;
    assert [] + [MethodValue(e)] == [MethodValue(e)];
    RunSnoc([Newobj(c)], Stsfld(e.field), m, Machine([MethodValue(e)], statics), [], env);
    assert [Newobj(c)] + [Stsfld(e.field)] == [Newobj(c), Stsfld(e.field)];
  }

  /** Blocks that do not store into `f` leave it as it was. */
  lemma {:induction false} InitializedKeeps(es: seq<OpField>, statics: map<string, Val>, f: string)
    requires forall i :: 0 <= i < |es| ==> es[i].field != f
    ensures LoadStatic(Initialized(es, statics), f) == LoadStatic(statics, f)
    decreases |es|
  {
    if es != [] {
      InitializedKeeps(es[..|es| - 1], statics, f);
    }
  }

  /** `Init` stores every operation's `Method<,>` object, reading the marshallers assigned before it. */
  lemma {:induction false} RunInitCode(es: seq<OpField>, statics: map<string, Val>, env: Env)
    requires MarshallersAssigned(es, statics) && FieldsApart(es)
    ensures Run(InitCode(es), Machine([], statics), [], env) == Running(Machine([], Initialized(es, statics)))
    decreases |es|
  {
    if es != [] {
      var front := es[..|es| - 1];
      var e := es[|es| - 1];
      assert MarshallersAssigned(front, statics) && FieldsApart(front) by {
        forall i | 0 <= i < |front| ensures front[i] == es[i] { }
      }
      RunInitCode(front, statics, env);
      var mid := Initialized(front, statics);
      RunThen(InitCode(front), InitBlock(e), Machine([], statics), Machine([], mid), [], env);
      forall i | 0 <= i < |front| ensures front[i].field != e.fromField && front[i].field != e.toField {
        assert front[i] == es[i];
      }
      InitializedKeeps(front, statics, e.fromField);
      InitializedKeeps(front, statics, e.toField);
      RunInitBlock(e, mid, env);
    }
  }

  /** After `Init`, the `i`-th operation's field holds its own `Method<,>` object. */
  lemma {:induction false} InitializedFields(es: seq<OpField>, statics: map<string, Val>)
    requires FieldsDistinct(es)
    ensures forall i :: 0 <= i < |es| ==>
              es[i].field in Initialized(es, statics) && Initialized(es, statics)[es[i].field] == MethodValue(es[i])
    decreases |es|
  {
    if es != [] {
      var front := es[..|es| - 1];
      assert FieldsDistinct(front) by {
        forall i, j | 0 <= i < j < |front| ensures front[i].field != front[j].field {
          assert front[i] == es[i] && front[j] == es[j];
        }
      }
      InitializedFields(front, statics);
      forall i | 0 <= i < |es|
        ensures es[i].field in Initialized(es, statics) && Initialized(es, statics)[es[i].field] == MethodValue(es[i])
      {
        if i < |front| {
          assert front[i] == es[i];
        }
      }
    }
  }

  /** The fields the blocks of `es` store into. */
  function StoredFields(es: seq<OpField>): set<string>
    decreases |es|
  {
    if es == [] then {} else StoredFields(es[..|es| - 1]) + {es[|es| - 1].field}
  }

  /** `Init` adds exactly the operation fields to the statics it starts from. */
  lemma {:induction false} InitializedKeys(es: seq<OpField>, statics: map<string, Val>)
    ensures Initialized(es, statics).Keys == statics.Keys + StoredFields(es)
    ensures forall i :: 0 <= i < |es| ==> es[i].field in StoredFields(es)
    ensures forall f :: f in StoredFields(es) ==> exists i :: 0 <= i < |es| && es[i].field == f
    decreases |es|
  {
    if es != [] {
      var front := es[..|es| - 1];
      InitializedKeys(front, statics);
      forall i | 0 <= i < |es| ensures es[i].field in StoredFields(es) {
        if i < |front| {
          assert front[i] == es[i];
        }
      }
      forall f | f in StoredFields(es) ensures exists i :: 0 <= i < |es| && es[i].field == f {
        if f in StoredFields(front) {
          var i :| 0 <= i < |front| && front[i].field == f;
          assert es[i] == front[i];
        } else {
          assert es[|es| - 1].field == f;
        }
      }
    }
  }

  /**
    The load of the method type in each block is the instruction the
    as-written selection `Ldc_I4` picks too: the two selections differ only
    at 127.
   */
  lemma InitBlockLoadAsWritten(t: MethodType)
    ensures ShortestLdc_I4(MethodTypeCode(t)) == Ldc_I4(MethodTypeCode(t))
    ensures PushedConstant(Ldc_I4(MethodTypeCode(t))) == Some(MethodTypeCode(t))
  {
  }
}
