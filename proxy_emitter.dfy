/**
  `ProxyEmitter.CreateFactory`: checks its inputs, names a new proxy type,
  writes its `ToString`, emits one implementation per method of the
  expanded contract together with the `s_op_{i}` fields and `Init`, assigns
  the marshaller fields and then runs `Init`.
 */
module ProxyEmitters {
  import opened Wrappers
  import opened Naming
  import opened Il
  import opened StackMachine
  import opened Contracts
  import opened ThunkPlan
  import opened Registries
  import opened TypeInitializer
  import opened ProxyBuilders

  const ProxyIdentity: string := "ProtoBuf.Grpc.Internal.Proxies"
  const ProxySuffix: string := "_Proxy_"

  /** `{ProxyIdentity}.{baseType.Name}.{TService.Name}_Proxy_{k}`. */
  function ProxyTypeName(baseName: string, serviceName: string, k: nat): string {
    ProxyIdentity + "." + baseName + "." + serviceName + ProxySuffix + NatToString(k)
  }

  /** Proxies created at different counter values never share a type name, whatever they are for. */
  lemma ProxyTypeNamesDistinct(base1: string, service1: string, j: nat, base2: string, service2: string, k: nat)
    requires j != k
    ensures ProxyTypeName(base1, service1, j) != ProxyTypeName(base2, service2, k)
  {
    SuffixedNamesDistinct(ProxyIdentity + "." + base1 + "." + service1, ProxyIdentity + "." + base2 + "." + service2,
                          ProxySuffix, j, k);
  }

  /** The text `ToString` returns: the service name (or the interface name) and the channel type's name. */
  function ToStringText(service: ServiceType, channelName: string): string {
    (if service.contractName.Some? then service.contractName.value else service.name) + " / " + channelName
  }

  function ToStringCode(text: string): seq<Instr> {
    [Ldstr(text), Ret]
  }

  /** `ToString` returns the contract's service name, or else the interface's own name, then " / " and the channel's name. */
  lemma RunToString(service: ServiceType, channelName: string, args: seq<Val>, statics: map<string, Val>, env: Env)
    ensures var primary := if service.contractName.Some? then service.contractName.value else service.name;
      Run(ToStringCode(ToStringText(service, channelName)), Machine([], statics), args, env)
        == Returned(Machine([Str(primary + " / " + channelName)], statics))
  {
    var text := ToStringText(service, channelName);
    RunSingle(Ldstr(text), Machine([], statics), args, env);
    RunSnoc([Ldstr(text)], Ret, Machine([], statics), Machine([Str(text)], statics), args, env);
    assert [Ldstr(text)] + [Ret] == ToStringCode(text);
  }

  /** A `CallInvoker` property whose getter returns `CallInvoker` and takes no parameters. */
  predicate SuitableGetter(b: BaseType) {
    b.callInvokerGetter.Some? && b.callInvokerGetter.value.returnType == CallInvokerType
    && b.callInvokerGetter.value.parameterCount == 0
  }

  /** Every method fits the CLR's 16-bit argument numbering. */
  predicate WithinClrLimits(ifaces: seq<ContractInterface>) {
    forall i, j :: 0 <= i < |ifaces| && 0 <= j < |ifaces[i].methods| ==> |ifaces[i].methods[j].paramTypes| < 0x1_0000
  }

  /** The proxy type as defined, after its marshaller fields are assigned and `Init` has run. */
  datatype ProxyType = ProxyType(
    name: string,
    parent: string,
    interfaces: seq<string>,
    toStringCode: seq<Instr>,
    methods: seq<EmittedMethod>,            // interface implementations, in contract order
    helpers: map<string, seq<Instr>>,       // Cont{k} and Vtwta{k}
    marshallerFields: map<ClrType, string>, // _m{k}
    continuations: map<ClrType, string>,
    adapters: map<ClrType, string>,
    opFields: seq<OpField>,                 // s_op_{i}
    init: seq<Instr>,
    statics: map<string, Val>)

  /** The methods emitted for `done`, each with its planned body. */
  ghost predicate MethodsPlanned(done: seq<Slot>, methods: seq<EmittedMethod>, adapters: map<ClrType, string>) {
    |methods| == |done|
    && forall x {:trigger methods[x]} :: 0 <= x < |done| ==>
         methods[x].name == ImplName(done[x])
         && Planned(done[x], methods[x].code, OpFieldName(ClassifiedCount(done[..x])), adapters)
  }

  /** One operation field per classified method of `done`, in order. */
  ghost predicate FieldsPlanned(done: seq<Slot>, opFields: seq<OpField>) {
    |opFields| == ClassifiedCount(done)
    && forall x {:trigger Classified(done[x])} :: 0 <= x < |done| && Classified(done[x]) ==>
         ClassifiedCount(done[..x]) < |opFields| && DescribesOperation(opFields[ClassifiedCount(done[..x])], done[x])
  }

  lemma {:induction false} ClassifiedCountPrefix(done: seq<Slot>, s: Slot, x: nat)
    requires x <= |done|
    ensures (done + [s])[..x] == done[..x]
    ensures ClassifiedCount(done + [s]) == ClassifiedCount(done) + (if Classified(s) then 1 else 0)
  {
    assert (done + [s])[..|done|] == done;
  }

  /** Emitting one more method extends both plans. */
  lemma {:induction false} PlanStep(done: seq<Slot>, s: Slot, methods: seq<EmittedMethod>, methods': seq<EmittedMethod>,
                 opFields: seq<OpField>, opFields': seq<OpField>, adapters: map<ClrType, string>, adapters': map<ClrType, string>)
    requires MethodsPlanned(done, methods, adapters) && FieldsPlanned(done, opFields) && Grows(adapters, adapters')
    requires |methods'| == |methods| + 1 && methods'[..|methods|] == methods
    requires methods'[|methods|].name == ImplName(s) && Planned(s, methods'[|methods|].code, OpFieldName(|opFields|), adapters')
    requires Classified(s) ==> |opFields'| == |opFields| + 1 && opFields'[..|opFields|] == opFields
                               && DescribesOperation(opFields'[|opFields|], s)
    requires !Classified(s) ==> opFields' == opFields
    ensures MethodsPlanned(done + [s], methods', adapters') && FieldsPlanned(done + [s], opFields')
  {
    var done' := done + [s];
    ClassifiedCountPrefix(done, s, |done|);
    forall x | 0 <= x < |done'|
      ensures methods'[x].name == ImplName(done'[x])
      ensures Planned(done'[x], methods'[x].code, OpFieldName(ClassifiedCount(done'[..x])), adapters')
    {
      ClassifiedCountPrefix(done, s, x);
      if x < |done| {
        assert methods'[x] == methods[x] && done'[x] == done[x];
        PlannedGrows(done[x], methods[x].code, OpFieldName(ClassifiedCount(done[..x])), adapters, adapters');
      }
    }
    forall x | 0 <= x < |done'| && Classified(done'[x])
      ensures ClassifiedCount(done'[..x]) < |opFields'| && DescribesOperation(opFields'[ClassifiedCount(done'[..x])], done'[x])
    {
      ClassifiedCountPrefix(done, s, x);
      if x < |done| {
        assert done'[x] == done[x];
        var c := ClassifiedCount(done[..x]);
        assert c < |opFields|;
        assert opFields'[c] == opFields[c] by {
          if Classified(s) {
            assert opFields'[..|opFields|][c] == opFields[c];
          }
        }
      }
    }
  }

  /** Operation fields and marshaller fields never coincide, and each operation has its own field. */
  lemma {:induction false} OpFieldsApart(opFields: seq<OpField>, order: seq<ClrType>, fields: map<ClrType, string>)
    requires Memo("_m", order, fields) && OpFieldsValid(opFields, |opFields|, InitCode(opFields), fields)
    ensures FieldsApart(opFields) && FieldsDistinct(opFields)
    ensures forall t, i :: t in fields && 0 <= i < |opFields| ==> opFields[i].field != fields[t]
  {
    forall i | 0 <= i < |opFields|
      ensures forall t :: t in fields ==> fields[t] != opFields[i].field
    {
      TablesApart("_m", order, fields, OpFieldPrefix, opFields[i].field);
    }
    forall i, j | 0 <= i < |opFields| && 0 <= j < |opFields|
      ensures opFields[i].field != opFields[j].fromField && opFields[i].field != opFields[j].toField
    {
      assert opFields[j].from in fields && opFields[j].to in fields;
    }
    forall i, j | 0 <= i < j < |opFields| ensures opFields[i].field != opFields[j].field {
      IndexedNamesDistinct(OpFieldPrefix, i, j);
    }
  }

  /** Statics holding every registered marshaller hold the ones each `Init` block reads. */
  lemma {:induction false} MarshallersReady(opFields: seq<OpField>, fields: map<ClrType, string>, statics: map<string, Val>)
    requires OpMarshallers(opFields, fields)
    requires forall t :: t in fields ==> fields[t] in statics && statics[fields[t]] == MarshallerFor(t)
    ensures MarshallersAssigned(opFields, statics)
  {
    forall i | 0 <= i < |opFields|
      ensures LoadStatic(statics, opFields[i].fromField) == MarshallerFor(opFields[i].from)
      ensures LoadStatic(statics, opFields[i].toField) == MarshallerFor(opFields[i].to)
    {
      assert opFields[i].from in fields && opFields[i].to in fields;
    }
  }

  /** `Init` code run over statics holding every registered marshaller returns normally. */
  lemma {:induction false} RunTypeInitializer(opFields: seq<OpField>, order: seq<ClrType>, fields: map<ClrType, string>,
                                              statics: map<string, Val>, env: Env)
    requires Memo("_m", order, fields) && OpFieldsValid(opFields, |opFields|, InitCode(opFields), fields)
    requires forall t :: t in fields ==> fields[t] in statics && statics[fields[t]] == MarshallerFor(t)
    ensures Run(InitCode(opFields) + [Ret], Machine([], statics), [], env) == Returned(Machine([], Initialized(opFields, statics)))
  {
    OpFieldsApart(opFields, order, fields);
    MarshallersReady(opFields, fields, statics);
    RunInit(opFields, statics, env);
  }

  /** `Init` with its final `ret` returns once every block has stored its value. */
  lemma {:induction false} RunInit(opFields: seq<OpField>, statics: map<string, Val>, env: Env)
    requires MarshallersAssigned(opFields, statics) && FieldsApart(opFields)
    ensures Run(InitCode(opFields) + [Ret], Machine([], statics), [], env) == Returned(Machine([], Initialized(opFields, statics)))
  {
    RunInitCode(opFields, statics, env);
    var initialized := Initialized(opFields, statics);
    RunThen(InitCode(opFields), [Ret], Machine([], statics), Machine([], initialized), [], env);
    RunSingle(Ret, Machine([], initialized), [], env);
  }

  /**
    After `Init`, each `s_op_{i}` field holds its operation's `Method<,>`
    object and the marshaller fields still hold their marshallers.
   */
  lemma {:induction false} InitializedState(opFields: seq<OpField>, order: seq<ClrType>, fields: map<ClrType, string>,
                                            statics: map<string, Val>)
    requires Memo("_m", order, fields) && OpFieldsValid(opFields, |opFields|, InitCode(opFields), fields)
    ensures forall i :: 0 <= i < |opFields| ==>
              OpFieldName(i) in Initialized(opFields, statics) && Initialized(opFields, statics)[OpFieldName(i)] == MethodValue(opFields[i])
    ensures forall t :: t in fields ==> LoadStatic(Initialized(opFields, statics), fields[t]) == LoadStatic(statics, fields[t])
  {
    OpFieldsApart(opFields, order, fields);
    InitializedFields(opFields, statics);
    forall t | t in fields ensures LoadStatic(Initialized(opFields, statics), fields[t]) == LoadStatic(statics, fields[t]) {
      InitializedKeeps(opFields, statics, fields[t]);
    }
  }

  /** After `Init`, the field of each classified method holds that method's `Method<,>` object. */
  lemma {:induction false} OperationsInitialized(slots: seq<Slot>, opFields: seq<OpField>, statics: map<string, Val>)
    requires FieldsPlanned(slots, opFields)
    requires forall i :: 0 <= i < |opFields| ==> OpFieldName(i) in statics && statics[OpFieldName(i)] == MethodValue(opFields[i])
    ensures forall x :: 0 <= x < |slots| && Classified(slots[x]) ==>
              OpFieldName(ClassifiedCount(slots[..x])) in statics
              && statics[OpFieldName(ClassifiedCount(slots[..x]))] == OperationObject(slots[x])
  {
    forall x | 0 <= x < |slots| && Classified(slots[x])
      ensures OpFieldName(ClassifiedCount(slots[..x])) in statics
      ensures statics[OpFieldName(ClassifiedCount(slots[..x]))] == OperationObject(slots[x])
    {
      var c := ClassifiedCount(slots[..x]);
      DescribedValue(opFields[c], slots[x]);
    }
  }

  /** Everything `CreateFactory` promises about the type it builds. */
  ghost predicate ProxyBuilt(p: ProxyType, base: BaseType, service: ServiceType, channelName: string, k: nat) {
    var slots := Slots(service.expanded);
    p.name == ProxyTypeName(base.name, service.name, k)
    && p.parent == base.name
    && p.interfaces == InterfaceNames(service.expanded)
    && p.toStringCode == ToStringCode(ToStringText(service, channelName))
    && MethodsPlanned(slots, p.methods, p.adapters)
    && HelpersDefined(p.helpers, p.continuations, p.adapters)
    && |p.opFields| == ClassifiedCount(slots)
    && (forall i :: 0 <= i < |p.opFields| ==> p.opFields[i].field == OpFieldName(i))
    && p.init == InitCode(p.opFields) + [Ret]
    && (forall x :: 0 <= x < |slots| && Classified(slots[x]) ==>
          OpFieldName(ClassifiedCount(slots[..x])) in p.statics
          && p.statics[OpFieldName(ClassifiedCount(slots[..x]))] == OperationObject(slots[x]))
    && (forall t :: t in p.marshallerFields ==> LoadStatic(p.statics, p.marshallerFields[t]) == MarshallerFor(t))
    && Memo("_m", Dedupe(PayloadUses(slots)), p.marshallerFields)
    && Memo("Cont", Dedupe(ContinuationUses(slots)), p.continuations)
    && Memo("Vtwta", Dedupe(AdapterUses(slots)), p.adapters)
    && HelperNamesExact(p.helpers, p.continuations, p.adapters)
    && p.statics.Keys == p.marshallerFields.Values + StoredFields(p.opFields)
  }

  /** An environment for code that calls nothing, such as `Init`. */
  const NoCalls: Env := Env((c: Callee, a: seq<Val>) => Null)

  /** The emitter's process-wide state: the counter that numbers proxy types. */
  class ProxyEmitter {
    var typeIndex: nat

    constructor ()
      ensures typeIndex == 0
    {
      typeIndex := 0;
    }

    method CreateFactory(baseType: Option<BaseType>, service: ServiceType, channelName: string)
      returns (r: Result<ProxyType, ExceptionKind>)
      requires WithinClrLimits(service.expanded)
      modifies this
      ensures baseType.None? ==> r == Failure(ArgumentNullException) && typeIndex == old(typeIndex)
      ensures baseType.Some? && !service.isInterface ==> r == Failure(InvalidOperationException) && typeIndex == old(typeIndex)
      ensures baseType.Some? && service.isInterface && !SuitableGetter(baseType.value) ==>
                r == Failure(ArgumentException) && typeIndex == old(typeIndex)
      ensures baseType.Some? && service.isInterface && SuitableGetter(baseType.value) ==>
                typeIndex == old(typeIndex) + 1
                && (r.Failure? <==> (exists s :: s in Slots(service.expanded) && ReadsMissingArgument(s))
                                    || !baseType.value.hasChannelCtor)
                && ((exists s :: s in Slots(service.expanded) && ReadsMissingArgument(s)) ==> r == Failure(IndexOutOfRangeException))
                && (!(exists s :: s in Slots(service.expanded) && ReadsMissingArgument(s)) && !baseType.value.hasChannelCtor ==>
                      r == Failure(if baseType.value.hasDefaultCtor then ArgumentNullException else NotSupportedException))
      ensures r.Success? ==> baseType.Some? && ProxyBuilt(r.value, baseType.value, service, channelName, old(typeIndex))
    {
      if baseType.None? {
        return Failure(ArgumentNullException);
      }
      if !service.isInterface {
        return Failure(InvalidOperationException);
      }
      if !SuitableGetter(baseType.value) {
        return Failure(ArgumentException);
      }
      var name := ProxyTypeName(baseType.value.name, service.name, typeIndex);
      typeIndex := typeIndex + 1;
      var toStringCode := ToStringCode(ToStringText(service, channelName));

      var builder := new ProxyBuilder();
      var ok, interfaces := EmitInterfaces(builder, service.expanded);
      if !ok {
        return Failure(IndexOutOfRangeException);
      }
      if !baseType.value.hasChannelCtor && !baseType.value.hasDefaultCtor {
        // No constructor was defined, so `CreateType` adds a default one, which needs the parent's parameterless one.
        return Failure(NotSupportedException);
      }
      var statics := AssignMarshallers(builder.marshallers.order, builder.marshallers.names);
      var init := builder.cctor + [Ret];
      var outcome := Run(init, Machine([], statics), [], NoCalls);
      RunTypeInitializer(builder.opFields, builder.marshallers.order, builder.marshallers.names, statics, NoCalls);
      InitializedState(builder.opFields, builder.marshallers.order, builder.marshallers.names, statics);
      OperationsInitialized(Slots(service.expanded), builder.opFields, outcome.m.statics);
      InitializedKeys(builder.opFields, statics);
      if !baseType.value.hasChannelCtor {
        // `GetConstructor(new[] { typeof(TChannel) })` finds nothing, and `Expression.New(null, p)` throws.
        return Failure(ArgumentNullException);
      }
      r := Success(ProxyType(name, baseType.value.name, interfaces, toStringCode, builder.methods, builder.helpers,
                             builder.marshallers.names, builder.continuations.names, builder.adapters.names,
                             builder.opFields, init, outcome.m.statics));
    }
  }

  /** The interfaces the proxy type implements, in the order the expanded contract lists them. */
  function InterfaceNames(ifaces: seq<ContractInterface>): (names: seq<string>)
    ensures |names| == |ifaces| && forall i :: 0 <= i < |ifaces| ==> names[i] == ifaces[i].name
  {
    seq(|ifaces|, i requires 0 <= i < |ifaces| => ifaces[i].name)
  }

  lemma {:induction false} InterfaceNamesSnoc(ifaces: seq<ContractInterface>, k: nat)
    requires k < |ifaces|
    ensures InterfaceNames(ifaces[..k + 1]) == InterfaceNames(ifaces[..k]) + [ifaces[k].name]
  {
    assert ifaces[..k + 1][k] == ifaces[k];
  }

  /** No slot of `slots` reads an argument its method does not have. */
  ghost predicate NoneMissing(slots: seq<Slot>) {
    forall x :: 0 <= x < |slots| ==> !ReadsMissingArgument(slots[x])
  }

  lemma {:induction false} NoneMissingSnoc(slots: seq<Slot>, s: Slot)
    requires NoneMissing(slots) && !ReadsMissingArgument(s)
    ensures NoneMissing(slots + [s])
  {
    forall x | 0 <= x < |slots| + 1 ensures !ReadsMissingArgument((slots + [s])[x]) {
      if x < |slots| {
        assert (slots + [s])[x] == slots[x];
      }
    }
  }

  /** `NoneMissing` says that no slot in the sequence reads a missing argument. */
  lemma {:induction false} NoneMissingMeans(slots: seq<Slot>)
    ensures NoneMissing(slots) <==> !exists s :: s in slots && ReadsMissingArgument(s)
  {
    if !NoneMissing(slots) {
      var x :| 0 <= x < |slots| && ReadsMissingArgument(slots[x]);
      assert slots[x] in slots;
    }
  }

  /**
    The plans of `MethodsPlanned`, `FieldsPlanned` and `NoneMissing` together, stated one slot at a
    time from the last: the form the emitting loops carry from method to method.
   */
  ghost predicate Emitted(done: seq<Slot>, methods: seq<EmittedMethod>, opFields: seq<OpField>,
                          adapters: map<ClrType, string>)
    decreases |done|
  {
    if done == [] then methods == [] && opFields == []
    else
      var n := |done| - 1;
      var c := ClassifiedCount(done[..n]);
      |methods| == |done| && |opFields| == ClassifiedCount(done)
      && !ReadsMissingArgument(done[n])
      && methods[n].name == ImplName(done[n])
      && Planned(done[n], methods[n].code, OpFieldName(c), adapters)
      && (Classified(done[n]) ==> DescribesOperation(opFields[c], done[n]))
      && Emitted(done[..n], methods[..n], opFields[..c], adapters)
  }

  lemma {:induction false} EmittedCount(done: seq<Slot>, methods: seq<EmittedMethod>, opFields: seq<OpField>,
                                        adapters: map<ClrType, string>)
    requires Emitted(done, methods, opFields, adapters)
    ensures |methods| == |done| && |opFields| == ClassifiedCount(done)
  {
  }

  /** Registering more adapters keeps every emitted body planned. */
  lemma {:induction false} EmittedGrows(done: seq<Slot>, methods: seq<EmittedMethod>, opFields: seq<OpField>,
                                        adapters: map<ClrType, string>, adapters': map<ClrType, string>)
    requires Emitted(done, methods, opFields, adapters) && Grows(adapters, adapters')
    ensures Emitted(done, methods, opFields, adapters')
    decreases |done|
  {
    if done != [] {
      var n := |done| - 1;
      var c := ClassifiedCount(done[..n]);
      PlannedGrows(done[n], methods[n].code, OpFieldName(c), adapters, adapters');
      EmittedGrows(done[..n], methods[..n], opFields[..c], adapters, adapters');
    }
  }

  /** Emitting one more method, with the body and field planned for it, extends `Emitted` by its slot. */
  lemma {:induction false} EmittedSnoc(done: seq<Slot>, s: Slot, methods: seq<EmittedMethod>, methods': seq<EmittedMethod>,
                                       opFields: seq<OpField>, opFields': seq<OpField>, adapters: map<ClrType, string>)
    requires Emitted(done, methods, opFields, adapters) && !ReadsMissingArgument(s)
    requires |methods'| == |methods| + 1 && methods'[..|methods|] == methods
    requires methods'[|methods|].name == ImplName(s) && Planned(s, methods'[|methods|].code, OpFieldName(|opFields|), adapters)
    requires Classified(s) ==> |opFields'| == |opFields| + 1 && opFields'[..|opFields|] == opFields
                               && DescribesOperation(opFields'[|opFields|], s)
    requires !Classified(s) ==> opFields' == opFields
    ensures Emitted(done + [s], methods', opFields', adapters)
  {
    EmittedCount(done, methods, opFields, adapters);
    var done' := done + [s];
    assert done'[..|done|] == done;
    assert done'[|done|] == s;
    assert opFields'[..|opFields|] == opFields;
  }

  /** `Emitted` states exactly the indexed plans and that no slot reads a missing argument. */
  lemma {:induction false} EmittedMeans(done: seq<Slot>, methods: seq<EmittedMethod>, opFields: seq<OpField>,
                                        adapters: map<ClrType, string>)
    requires Emitted(done, methods, opFields, adapters)
    ensures MethodsPlanned(done, methods, adapters) && FieldsPlanned(done, opFields) && NoneMissing(done)
    decreases |done|
  {
    if done != [] {
      var n := |done| - 1;
      var c := ClassifiedCount(done[..n]);
      EmittedMeans(done[..n], methods[..n], opFields[..c], adapters);
      assert done[..n] + [done[n]] == done;
      assert methods[..n] == methods[..|methods[..n]|];
      PlanStep(done[..n], done[n], methods[..n], methods, opFields[..c], opFields, adapters, adapters);
      NoneMissingSnoc(done[..n], done[n]);
    }
  }

  /**
    The builder after emitting the slots `done`: well formed, every method
    emitted with its planned body and field, and the three memo tables
    holding exactly what those methods asked for.
   */
  ghost predicate Progress(done: seq<Slot>, b: ProxyBuilder)
    reads b, b.marshallers, b.continuations, b.adapters
  {
    b.Valid()
    && Emitted(done, b.methods, b.opFields, b.adapters.names)
    && TablesFor(done, b.marshallers.order, b.continuations.order, b.adapters.order)
  }

  /** `foreach` interface of the expanded contract: declare it, then emit each of its methods. */
  method EmitInterfaces(builder: ProxyBuilder, ifaces: seq<ContractInterface>) returns (ok: bool, interfaces: seq<string>)
    requires builder.Valid() && builder.methods == [] && builder.opFields == [] && WithinClrLimits(ifaces)
    requires builder.marshallers.order == [] && builder.continuations.order == [] && builder.adapters.order == []
    modifies builder, builder.marshallers, builder.continuations, builder.adapters
    ensures builder.Valid()
    ensures ok ==> TablesFor(Slots(ifaces), builder.marshallers.order, builder.continuations.order, builder.adapters.order)
    ensures ok <==> !exists s :: s in Slots(ifaces) && ReadsMissingArgument(s)
    ensures ok ==> MethodsPlanned(Slots(ifaces), builder.methods, builder.adapters.names)
                   && FieldsPlanned(Slots(ifaces), builder.opFields)
    ensures ok ==> interfaces == InterfaceNames(ifaces)
  {
    interfaces := [];
    var k := 0;
    while k < |ifaces|
      invariant 0 <= k <= |ifaces|
      invariant interfaces == InterfaceNames(ifaces[..k])
      invariant Progress(Slots(ifaces[..k]), builder)
    {
      var iface := ifaces[k];
      InterfaceNamesSnoc(ifaces, k);
      interfaces := interfaces + [iface.name];
      SlotsSnoc(ifaces, k);
      var failed := EmitInterface(builder, iface, Slots(ifaces[..k]), Slots(ifaces[..k + 1]));
      if failed >= 0 {
        SlotsContain(ifaces, k, failed);
        return false, interfaces;
      }
      k := k + 1;
    }
    assert ifaces[..k] == ifaces;
    EmittedMeans(Slots(ifaces), builder.methods, builder.opFields, builder.adapters.names);
    NoneMissingMeans(Slots(ifaces));
    ok := true;
  }

  /**
    `foreach` method of one interface, emitted after the slots `done`.
    Returns the index of the method that could not be emitted, or -1.
   */
  method EmitInterface(builder: ProxyBuilder, iface: ContractInterface, ghost done: seq<Slot>, ghost after: seq<Slot>)
    returns (failed: int)
    requires after == done + SlotsOf(iface)
    requires forall j :: 0 <= j < |iface.methods| ==> |iface.methods[j].paramTypes| < 0x1_0000
    requires Progress(done, builder)
    modifies builder, builder.marshallers, builder.continuations, builder.adapters
    ensures builder.Valid()
    ensures -1 <= failed < |iface.methods|
    ensures failed >= 0 ==> ReadsMissingArgument(Slot(iface, iface.methods[failed]))
    ensures failed >= 0 ==> forall j :: 0 <= j < failed ==> !ReadsMissingArgument(Slot(iface, iface.methods[j]))
    ensures failed < 0 ==> Progress(after, builder)
  {
    var j := 0;
    assert done + MethodSlots(iface, 0) == done;
    while j < |iface.methods|
      invariant 0 <= j <= |iface.methods|
      invariant Progress(done + MethodSlots(iface, j), builder)
      invariant forall i :: 0 <= i < j ==> !ReadsMissingArgument(Slot(iface, iface.methods[i]))
    {
      MethodSlotsSnoc(done, iface, j);
      var ok := EmitNext(builder, iface, iface.methods[j], done + MethodSlots(iface, j), done + MethodSlots(iface, j + 1));
      if !ok {
        return j;
      }
      forall i | 0 <= i < j + 1 ensures !ReadsMissingArgument(Slot(iface, iface.methods[i])) {
        if i == j {
          assert !ReadsMissingArgument(Slot(iface, iface.methods[j]));
        }
      }
      j := j + 1;
    }
    failed := -1;
  }

  /** One method of the loop: emitting it extends the plans by its slot, or it reads a missing argument. */
  method EmitNext(builder: ProxyBuilder, iface: ContractInterface, m: InterfaceMethod, ghost done: seq<Slot>,
                  ghost next: seq<Slot>) returns (ok: bool)
    requires |m.paramTypes| < 0x1_0000 && next == done + [Slot(iface, m)]
    requires Progress(done, builder)
    modifies builder, builder.marshallers, builder.continuations, builder.adapters
    ensures builder.Valid()
    ensures ok <==> !ReadsMissingArgument(Slot(iface, m))
    ensures ok ==> Progress(next, builder)
    ensures !AdaptsTask(Slot(iface, m)) ==> builder.helpers == old(builder.helpers)
  {
    ghost var methods, opFields, adapters := builder.methods, builder.opFields, builder.adapters.names;
    TablesStep(done, Slot(iface, m), builder.marshallers.order, builder.continuations.order, builder.adapters.order);
    ok := builder.EmitMethod(iface, m);
    if ok {
      EmittedGrows(done, methods, opFields, adapters, builder.adapters.names);
      EmittedSnoc(done, Slot(iface, m), methods, builder.methods, opFields, builder.opFields, builder.adapters.names);
    }
  }

  /** Assigns every registered marshaller field its marshaller instance. */
  method AssignMarshallers(order: seq<ClrType>, fields: map<ClrType, string>) returns (statics: map<string, Val>)
    requires Memo("_m", order, fields)
    ensures forall t :: t in fields ==> fields[t] in statics && statics[fields[t]] == MarshallerFor(t)
    ensures statics.Keys == fields.Values
  {
    MemoNamesDistinct("_m", order, fields);
    statics := map[];
    var i := 0;
    while i < |order|
      invariant 0 <= i <= |order|
      invariant forall y :: 0 <= y < i ==> fields[order[y]] in statics && statics[fields[order[y]]] == MarshallerFor(order[y])
      invariant forall f :: f in statics ==> exists y :: 0 <= y < i && fields[order[y]] == f
    {
      statics := statics[fields[order[i]] := MarshallerFor(order[i])];
      i := i + 1;
    }
    forall t | t in fields ensures fields[t] in statics && statics[fields[t]] == MarshallerFor(t) {
      var y :| 0 <= y < |order| && order[y] == t;
    }
    forall f ensures f in statics <==> f in fields.Values {
      if f in statics {
        var y :| 0 <= y < i && fields[order[y]] == f;
      }
    }
  }

}
