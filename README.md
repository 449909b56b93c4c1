# protobuf-net.Grpc client-proxy emitter, in Dafny

This project models the code generator that protobuf-net.Grpc uses to build
client proxies (`ProxyEmitter`). It also models the marshaller factory that
lets value types travel as `ValueTypeWrapper<T>` payloads.

Given a base type and a service interface, `CreateFactory` does the following:
- checks its inputs;
- names a new proxy type with a process-wide counter;
- writes its `ToString`;
- walks every method of every interface of the expanded contract.

For each method it emits one of two bodies:
- a body that throws;
- a forwarding thunk, which does three things:
  1. It loads the call context, the `CallInvoker` and the method's `s_op_{i}` descriptor.
  2. It builds the request as the empty singleton, the argument, the argument wrapped, or all arguments packed into a right-nested tuple.
  3. It calls the client helper and adapts the result by reading `.Value`, passing a task through a `Vtwta{k}` adapter, or passing it unchanged.

Three memoised tables hand out members:
- marshaller fields `_m{k}`;
- continuations `Cont{k}`;
- task adapters `Vtwta{k}`.

Each table's keys are the types in the order of their first use, and the
helpers defined on the type are exactly the `Cont{k}` and `Vtwta{k}` the
tables name. Every classified method also gets an `s_op_{i}` field. The type initializer
`Init` stores a `Method<,>` object there. The marshaller fields are assigned
before `Init` runs.

The emitted IL is a sequence of abstract instructions (module `Il`). The
selection of `ldc.i4`, `ldarg` and `ldarga` forms follows Partition III of
ECMA-335:
- section III.3.38 for `ldarg`;
- section III.3.39 for `ldarga`;
- section III.3.40 for `ldc.i4`.

Instruction sizes are those encodings. Each `Emit` call is modelled as the
instruction its opcode names, in that instruction's ECMA encoding. Which
`ILGenerator.Emit` overload the operand selects is not modelled: `Ldarg` and
`Ldarga` pass a `ushort`, which resolves to the `int` overload.

The meaning of emitted code is given by a small evaluation-stack machine
(module `StackMachine`):
- `newobj` of a k-argument constructor pops k values and pushes one object;
- calls go to an environment oracle `Env.call`.

Every emitted body is specified by what it does when run, not by its
instruction list:
- the thunk returns the adapted result of one client-helper call with (context, invoker, descriptor, request, `null`);
- the adapter continues the incoming task with the continuation;
- `Init` stores each operation's `Method<,>` object;
- the tuple code leaves a single value whose flattening is the arguments in order.

Modules, in dependency order:
- `Wrappers` — `Option`, `Result`.
- `Naming` — decimal counters and `prefix + k` names.
- `Il` — types, instructions, opcode selection.
- `StackMachine` — `Step`, `Run`.
- `Contracts` — the contract classifier's answers, taken as input.
- `TuplePacking` — `EmitTupleConstructor`.
- `ThunkPlan` — the per-method body plan and what a thunk computes.
- `TaskAdapters` — the `Cont{k}` and `Vtwta{k}` bodies.
- `Registries` — the memo table class.
- `TypeInitializer` — `Init`.
- `ProxyBuilders` — the emitting loop's state as a class.
- `ProxyEmitters` — `CreateFactory` and its loops.
- `ValueTypeWrappers` — the marshaller factory.

## Model

| member | source | states |
|---|---|---|
| Il.Ldc_I4 | src/protobuf-net.Grpc/Internal/ProxyEmitter.cs:20-37 | the instruction is well encoded and pushes exactly `value`; it is 1 byte iff -1 <= value <= 8, 2 bytes iff -128 <= value < 127 outside that range, and 5 bytes otherwise (127 takes the long form) |
| Il.Ldc_I4NotShortestAt127 | src/protobuf-net.Grpc/Internal/ProxyEmitter.cs:34 | `Ldc_I4(127)` is 5 bytes although the 2-byte `ldc.i4.s 127` is well encoded and pushes 127 |
| Il.ShortestLdc_I4 | src/protobuf-net.Grpc/Internal/ProxyEmitter.cs:20-37 | the corrected selection pushes exactly `value` and agrees with `Ldc_I4` at every value except 127 |
| Il.ShortestLdc_I4IsShortest | src/protobuf-net.Grpc/Internal/ProxyEmitter.cs:20-37 | no well-encoded `ldc.i4` form that pushes the value is shorter than the corrected choice |
| Il.Ldarg | src/protobuf-net.Grpc/Internal/ProxyEmitter.cs:80-91 | loads exactly argument `index`; 1 byte iff index <= 3, 2 bytes iff 4 <= index <= 255, 4 bytes iff index > 255 |
| Il.LdargIsShortest | src/protobuf-net.Grpc/Internal/ProxyEmitter.cs:80-91 | no well-encoded `ldarg` form for the same argument is shorter |
| Il.Ldarga | src/protobuf-net.Grpc/Internal/ProxyEmitter.cs:69-79 | loads exactly the address of argument `index`; 2 bytes iff index <= 255, else 4 |
| Il.LdargaIsShortest | src/protobuf-net.Grpc/Internal/ProxyEmitter.cs:69-79 | no well-encoded `ldarga` form for the same argument is shorter |
| Naming.NatToStringInjective | src/protobuf-net.Grpc/Internal/ProxyEmitter.cs:145 | the decimal text of a counter determines the counter |
| Naming.IndexedNamesDistinct | src/protobuf-net.Grpc/Internal/ProxyEmitter.cs:145 | `prefix + j` and `prefix + k` differ whenever j != k |
| Registries.Registry.GetOrAdd | src/protobuf-net.Grpc/Internal/ProxyEmitter.cs:140-149 | a type seen before gets its member back and nothing changes; a new type gets `prefix + index`, is appended to the order, and the counter advances by one; either way the order becomes `AddOnce(order, t)` |
| Registries.MemoAdd | src/protobuf-net.Grpc/Internal/ProxyEmitter.cs:145-147 | adding an unseen type under the next counter value keeps the table a memo: keys once each, the k-th key named `prefix + k` |
| Registries.MemoNamesDistinct | src/protobuf-net.Grpc/Internal/ProxyEmitter.cs:140-149 | different types in a memo table have different member names |
| Registries.DedupeMeans | src/protobuf-net.Grpc/Internal/ProxyEmitter.cs:140-149 | the first-use order of a sequence of uses holds each used type exactly once and nothing else |
| Registries.MemoDetermined | src/protobuf-net.Grpc/Internal/ProxyEmitter.cs:140-149 | the order in which types were first registered determines the whole name table |
| Contracts.MethodTypeCode | src/protobuf-net.Grpc/Internal/ProxyEmitter.cs:259 | the `MethodType` value loaded by `Init` is `Unary` 0, `ClientStreaming` 1, `ServerStreaming` 2, `DuplexStreaming` 3, so different kinds load different codes |
| Contracts.SlotsContain | src/protobuf-net.Grpc/Internal/ProxyEmitter.cs:229-237 | the j-th method of the k-th interface is among the slots the nested loops visit |
| TuplePacking.EmitTupleConstructor | src/protobuf-net.Grpc/Internal/ProxyEmitter.cs:398-423 | fails with `ArgumentException` iff there are no types; otherwise the tuple type is well nested (arity 1..8, every arity-8 node ends in a nested tuple), its flattening is the given types, and it is a single tuple over the types iff there are at most 7 |
| TuplePacking.FlattenPacked | src/protobuf-net.Grpc/Internal/ProxyEmitter.cs:398-423 | packing values into a well-nested tuple type and flattening them back gives the same values |
| TuplePacking.RunLoadArgs | src/protobuf-net.Grpc/Internal/ProxyEmitter.cs:313-314 | the loads push arguments first..first+count-1, in order, onto the stack |
| TuplePacking.RunTupleConstructor | src/protobuf-net.Grpc/Internal/ProxyEmitter.cs:398-423 | with n values on top of the stack, the constructor code replaces them by one packed tuple |
| TuplePacking.RunPackArguments | src/protobuf-net.Grpc/Internal/ProxyEmitter.cs:311-316 | loading arguments 1..n and then the tuple constructors leaves one composite, whose flattening is arguments 1..n in order |
| ThunkPlan.DataParameters | src/protobuf-net.Grpc/Internal/ProxyEmitter.cs:288-294 | a `CallContext` method drops exactly its last parameter from the data parameters; any other keeps them all |
| ThunkPlan.SelectContext | src/protobuf-net.Grpc/Internal/ProxyEmitter.cs:288-298 | the context is an argument address iff the kind is `CallContext`, and then it is the last argument (index = parameter count) |
| ThunkPlan.SelectRequest | src/protobuf-net.Grpc/Internal/ProxyEmitter.cs:303-333 | the empty singleton iff void request; packed iff unary or server-streaming with more than one data parameter; wrapped iff unary or server-streaming with exactly one value-type parameter; otherwise argument 1 |
| ThunkPlan.SelectResult | src/protobuf-net.Grpc/Internal/ProxyEmitter.cs:337-348 | reads `.Value` iff a sync, non-void, value-type result; adapts iff a non-void `Task`/`ValueTask` whose generic argument is a value type; otherwise passes through |
| ThunkPlan.SelectBody | src/protobuf-net.Grpc/Internal/ProxyEmitter.cs:248-356 | a forwarding thunk iff a service method with an identified signature, context `NoContext` or `CallContext`, and a client helper; `NotImplementedException` iff `CallOptions`; every other case throws `NotSupportedException` |
| ThunkPlan.RunThrowCode | src/protobuf-net.Grpc/Internal/ProxyEmitter.cs:250 | the throwing body throws its exception whatever the state and arguments |
| ThunkPlan.PackedRequestInOrder | src/protobuf-net.Grpc/Internal/ProxyEmitter.cs:311-316 | the packed request flattens to the data arguments in order |
| ThunkPlan.RunContext | src/protobuf-net.Grpc/Internal/ProxyEmitter.cs:288-298 | the context code pushes the last argument's address or `CallContext.Default`'s address |
| ThunkPlan.RunRequest | src/protobuf-net.Grpc/Internal/ProxyEmitter.cs:303-333 | the request code pushes exactly the planned request value |
| ThunkPlan.RunResult | src/protobuf-net.Grpc/Internal/ProxyEmitter.cs:337-350 | the result code followed by `ret` returns the adapted response |
| ThunkPlan.RunThunk | src/protobuf-net.Grpc/Internal/ProxyEmitter.cs:287-351 | the thunk returns the adapted result of one client-helper call on (context, invoker of `this`, `s_op_{i}`, request, `null`) |
| TaskAdapters.RunContinuation | src/protobuf-net.Grpc/Internal/ProxyEmitter.cs:163-169 | `Cont{k}` returns `task.Result.Value` |
| TaskAdapters.ContinuationUnwraps | src/protobuf-net.Grpc/Internal/ProxyEmitter.cs:163-169 | on a task whose result is `ValueTypeWrapper<T>(v)`, `Cont{k}` returns `v` |
| TaskAdapters.RunAdapter | src/protobuf-net.Grpc/Internal/ProxyEmitter.cs:190-222 | `Vtwta{k}` calls `ContinueWith` on its input (after `AsTask` for a `ValueTask`) with a delegate to the continuation, and re-wraps the result in a `ValueTask` exactly when the input was one |
| ProxyBuilders.PlannedGrows | src/protobuf-net.Grpc/Internal/ProxyEmitter.cs:177-179 | later additions to the adapter table do not change what an emitted body means |
| ProxyBuilders.PlannedThrows | src/protobuf-net.Grpc/Internal/ProxyEmitter.cs:248-252 | a planned throwing body throws its planned exception |
| ProxyBuilders.PlannedForwards | src/protobuf-net.Grpc/Internal/ProxyEmitter.cs:287-351 | a planned forwarding body, run with `this` and the arguments, returns the forwarded result |
| ProxyBuilders.SignatureFitsPlan | src/protobuf-net.Grpc/Internal/ProxyEmitter.cs:288-333 | a method that has data whenever it sends a request fits its planned body: every argument the thunk reads exists |
| ProxyBuilders.DescribedValue | src/protobuf-net.Grpc/Internal/ProxyEmitter.cs:258-265 | the value `Init` stores for an operation's field is its `Method<,>` of (method type, service name, operation name, request and response marshallers) |
| ProxyBuilders.TablesStep | src/protobuf-net.Grpc/Internal/ProxyEmitter.cs:140-226 | one more method moves the marshaller, continuation and adapter orders on by its own uses: the orders stay the first-use order of all uses so far |
| ProxyBuilders.MarshallerTableMeans | src/protobuf-net.Grpc/Internal/ProxyEmitter.cs:140-149 | a type is in the marshaller table iff it is the request or response type of some classified method, once each |
| ProxyBuilders.AdapterTableMeans | src/protobuf-net.Grpc/Internal/ProxyEmitter.cs:177-179 | a task type is in the adapter table iff some method adapts a task of that type, once each |
| ProxyBuilders.HelpersDetermined | src/protobuf-net.Grpc/Internal/ProxyEmitter.cs:153-226 | the continuation and adapter tables determine every helper's name and body |
| ProxyBuilders.ProxyBuilder.ValueTypeWrapperTaskContinuation | src/protobuf-net.Grpc/Internal/ProxyEmitter.cs:153-173 | memoised: a known result type returns its `Cont{k}` with the tables and helpers unchanged; a new one defines `Cont{index}` with the continuation body and adds exactly that helper; the order becomes `AddOnce(order, t)` |
| ProxyBuilders.ProxyBuilder.ValueTypeWrapperTaskAdapter | src/protobuf-net.Grpc/Internal/ProxyEmitter.cs:177-226 | memoised: a known task type returns its `Vtwta{k}` with the helpers unchanged; a new one defines `Vtwta{index}` over its result type's continuation, and the helpers gain exactly that adapter and, if new, that continuation; the two orders become `AddOnce` of the result type and of `taskType` |
| ProxyBuilders.ProxyBuilder.DefineAdapter | src/protobuf-net.Grpc/Internal/ProxyEmitter.cs:181-225 | a new task type is appended to the adapter order and named `Vtwta{index}`; the helpers gain exactly that name, bound to the adapter over the given continuation |
| ProxyBuilders.ProxyBuilder.EmitRequest | src/protobuf-net.Grpc/Internal/ProxyEmitter.cs:303-333 | the loop of `ldarg`s and the tuple constructors build exactly the request code the plan selects |
| ProxyBuilders.ProxyBuilder.EmitResult | src/protobuf-net.Grpc/Internal/ProxyEmitter.cs:337-348 | fails with `IndexOutOfRangeException` iff a non-void `Task`/`ValueTask` return type has no generic argument; otherwise the planned result code, with its adapter registered; the continuation and adapter orders move on by the method's step, and a method that adapts no task changes no table and no helper |
| ProxyBuilders.ProxyBuilder.EmitThunk | src/protobuf-net.Grpc/Internal/ProxyEmitter.cs:287-351 | the emitted thunk is the planned one, or `IndexOutOfRangeException` exactly where the source indexes a missing generic argument; the tables move on exactly as `EmitResult` says |
| ProxyBuilders.ProxyBuilder.DefineOperation | src/protobuf-net.Grpc/Internal/ProxyEmitter.cs:254-266 | a classified method gets the next `s_op_{i}` field, describing its operation; the marshaller order becomes `AddOnce(AddOnce(order, from), to)`; methods and helpers are unchanged |
| ProxyBuilders.ProxyBuilder.RegisterMarshaller | src/protobuf-net.Grpc/Internal/ProxyEmitter.cs:140-149 | `Marshaller(forType)`: afterwards the type has a `_m{k}` field and the call returns it; the order becomes `AddOnce(order, t)` and the key set gains exactly `t` |
| ProxyBuilders.ProxyBuilder.AppendOperation | src/protobuf-net.Grpc/Internal/ProxyEmitter.cs:256-266 | the field is appended, the counter advances, and `Init` gains exactly that field's block |
| ProxyBuilders.ProxyBuilder.EmitBody | src/protobuf-net.Grpc/Internal/ProxyEmitter.cs:269-357 | the body the context selects, planned against the field; failure iff the method reads a missing generic argument; the continuation and adapter orders move on by the method's step, and nothing else changes for a method that adapts no task |
| ProxyBuilders.ProxyBuilder.EmitMethod | src/protobuf-net.Grpc/Internal/ProxyEmitter.cs:239-357 | appends one method named `Interface.Method` with its planned body; a classified method (even `CallOptions`) gets one `s_op_{i}` field, and no other method does; each of the three orders moves on by exactly the method's step, and the helpers change only for a method that adapts a task |
| TypeInitializer.RunInitBlock | src/protobuf-net.Grpc/Internal/ProxyEmitter.cs:259-266 | with the two marshaller fields assigned, one block stores the operation's `Method<,>` object in its field and leaves the stack empty |
| TypeInitializer.RunInitCode | src/protobuf-net.Grpc/Internal/ProxyEmitter.cs:254-266 | with every marshaller field the blocks read assigned, `Init` stores every operation's object in turn |
| TypeInitializer.InitializedFields | src/protobuf-net.Grpc/Internal/ProxyEmitter.cs:256-266 | after `Init`, the i-th operation's field holds its own object |
| TypeInitializer.InitializedKeeps | src/protobuf-net.Grpc/Internal/ProxyEmitter.cs:256-266 | `Init` leaves every field it does not store into unchanged |
| TypeInitializer.InitializedKeys | src/protobuf-net.Grpc/Internal/ProxyEmitter.cs:256-266 | `Init` adds exactly the `s_op_{i}` fields to the static fields and no others |
| TypeInitializer.InitBlockLoadAsWritten | src/protobuf-net.Grpc/Internal/ProxyEmitter.cs:259 | for every method type, the load `Init` emits is the one the as-written `Ldc_I4` selects, and it pushes the code |
| ProxyEmitters.ProxyTypeNamesDistinct | src/protobuf-net.Grpc/Internal/ProxyEmitter.cs:112 | proxies created at different counter values never share a type name |
| ProxyEmitters.RunToString | src/protobuf-net.Grpc/Internal/ProxyEmitter.cs:121-130 | `ToString` returns the contract's service name, or else the interface name, then `" / "` and the channel's name |
| ProxyEmitters.OpFieldsApart | src/protobuf-net.Grpc/Internal/ProxyEmitter.cs:256 | the `s_op_{i}` fields are pairwise distinct and never coincide with a marshaller field |
| ProxyEmitters.RunTypeInitializer | src/protobuf-net.Grpc/Internal/ProxyEmitter.cs:361-374 | with every marshaller field assigned first, `Init` followed by its final `ret` returns normally with the operation fields stored |
| ProxyEmitters.InitializedState | src/protobuf-net.Grpc/Internal/ProxyEmitter.cs:369-374 | after `Init`, each `s_op_{i}` holds its object and every marshaller field still holds its marshaller |
| ProxyEmitters.OperationsInitialized | src/protobuf-net.Grpc/Internal/ProxyEmitter.cs:254-266 | after `Init`, the field of each classified method holds that method's `Method<,>` object |
| ProxyEmitters.PlanStep | src/protobuf-net.Grpc/Internal/ProxyEmitter.cs:237-358 | emitting one more method extends the indexed method and field plans by its slot |
| ProxyEmitters.NoneMissingMeans | src/protobuf-net.Grpc/Internal/ProxyEmitter.cs:343-344 | "no slot reads a missing argument" holds iff no slot of the sequence does |
| ProxyEmitters.EmittedGrows | src/protobuf-net.Grpc/Internal/ProxyEmitter.cs:177-179 | growing the adapter table keeps every emitted method planned |
| ProxyEmitters.EmittedSnoc | src/protobuf-net.Grpc/Internal/ProxyEmitter.cs:237-358 | a method emitted with its planned body and field extends the emitted state by its slot |
| ProxyEmitters.EmittedMeans | src/protobuf-net.Grpc/Internal/ProxyEmitter.cs:229-358 | the loops' emitted state implies the indexed plans: the i-th method has its planned body over the field its position calls for, the i-th classified method has the i-th field, and no slot reads a missing argument |
| ProxyEmitters.EmitNext | src/protobuf-net.Grpc/Internal/ProxyEmitter.cs:239-357 | one method extends the emitted state by its slot, or fails iff it reads a missing argument; the three orders stay the first-use orders of all methods so far |
| ProxyEmitters.EmitInterface | src/protobuf-net.Grpc/Internal/ProxyEmitter.cs:237-358 | the inner loop emits every method of the interface in order, with the tables the first-use orders of all methods so far, or stops at the first one that reads a missing argument |
| ProxyEmitters.EmitInterfaces | src/protobuf-net.Grpc/Internal/ProxyEmitter.cs:228-359 | succeeds iff no method of the expanded contract reads a missing argument; then every method is planned, the fields follow the classified methods, the interfaces are declared in order, and the three tables are the first-use orders of the whole contract |
| ProxyEmitters.AssignMarshallers | src/protobuf-net.Grpc/Internal/ProxyEmitter.cs:369-373 | every registered marshaller field is assigned the marshaller for its type, and no other field is assigned |
| ProxyEmitters.ProxyEmitter.CreateFactory | src/protobuf-net.Grpc/Internal/ProxyEmitter.cs:96-384 | null base → `ArgumentNullException`, non-interface → `InvalidOperationException`, unsuitable `CallInvoker` getter → `ArgumentException`, all without touching the counter; otherwise the counter advances by one and the call fails with `IndexOutOfRangeException` if some method reads a missing generic argument; else, when the base type has no constructor taking the channel, with `NotSupportedException` from `CreateType` (no parameterless base constructor either) or `ArgumentNullException` from `Expression.New` after `Init`; and in no other case; on success the type is named by the old counter, every method carries its planned body, each classified method's field holds its `Method<,>` object after `Init`, the marshaller fields are one `_m{k}` per distinct payload type in first-use order and each holds its marshaller, the continuation and adapter tables are likewise the first-use orders, the helpers are exactly those the tables name, and the static fields are exactly the marshaller and `s_op_{i}` fields |
| ValueTypeWrappers.WrapperKeepsValue | src/protobuf-net.Grpc/Internal/ValueTypeWrapper.cs:13-16 | `new ValueTypeWrapper<T>(v).Value == v` |
| ValueTypeWrappers.CanSerialize | src/protobuf-net.Grpc/Internal/ValueTypeWrapper.cs:34-40 | a wrapper type gets the inner cache's answer for the wrapped type; any other type gets the cache's answer unchanged |
| ValueTypeWrappers.CanSerializeWrapper | src/protobuf-net.Grpc/Internal/ValueTypeWrapper.cs:34-40 | a wrapper type is serializable exactly when the type it wraps is |
| ValueTypeWrappers.InvokeRoundTrip | src/protobuf-net.Grpc/Internal/ValueTypeWrapper.cs:74-82 | `InvokeDeserializer(InvokeSerializer(w))` gives back the wrapper `w` whenever the inner marshaller round-trips `w.Value` |
| ValueTypeWrappers.Serialize | src/protobuf-net.Grpc/Internal/ValueTypeWrapper.cs:58-72 | a plain type goes to its own marshaller (a null one dereferenced); a wrapper goes to the wrapped type's marshaller and fails with `InvalidOperationException` iff there is none |
| ValueTypeWrappers.Deserialize | src/protobuf-net.Grpc/Internal/ValueTypeWrapper.cs:42-56 | a plain type comes from its own marshaller; a wrapper type is the wrapped type's result, wrapped again, or `InvalidOperationException` iff there is no marshaller; the result has the requested type |
| ValueTypeWrappers.SerializeRoundTrip | src/protobuf-net.Grpc/Internal/ValueTypeWrapper.cs:42-82 | when the inner marshaller round-trips the carried value, the factory round-trips the payload, wrapper and `Value` included |
| ValueTypeWrappers.MissingMarshallerFails | src/protobuf-net.Grpc/Internal/ValueTypeWrapper.cs:50-69 | without an inner marshaller, both directions for a wrapper type fail with the same `InvalidOperationException` |
| ValueTypeWrappers.WrappedInt64FortyTwo | tests/protobuf-net.Grpc.Test/CodeGenerationTest.cs:177-182 | a `ValueTypeWrapper<long>` holding 42 comes back as 42 through the factory |

## Left out

- Reflection.Emit and the runtime: these are foreign APIs. The dynamic assembly and module are not modelled, nor `DefineType`, `SetParent`, `DefineMethodOverride`, `CreateType` or `FieldInfo.SetValue`; of `CreateType` only the failure to add a default constructor is modelled. The created type is a record (`ProxyType`) of its name, parent, interfaces, methods, helpers, fields, `Init` code and static fields.
- `WritePassThruCtor` and the compiled factory lambda (`Expression.Lambda(...).Compile()`): they are runtime plumbing, and the model stops at the created type.
- The `lock (s_module)`: concurrency is out of scope, so `_typeIndex` is a plain counter field of `ProxyEmitter`.
- `ContractOperation.ExpandInterfaces`, `FindOperations`, `TryIdentifySignature` and `TryGetClientHelper`, and `Binder.IsServiceContract`: their code is not part of this model. Their answers are fields of the input records: the expanded interfaces, the optional service name, the optional signature and the optional client helper.
- `MarshallerCache.GetMarshaller` and the marshaller instances: `MarshallerFor(t)` stands for the instance registered for `t`, and the byte-level serializers of `ValueTypeWrappers` are abstract functions.
- Task semantics (`ContinueWith`, `AsTask`, `Task.Result`, scheduling and cancellation): every call the emitted code makes goes to the environment oracle `Env.call`, and the adapters are specified by the calls they make.
- The commented-out `LoadDefault`, `Ldloc` and `Ldloca` helpers: they are dead code.
- ProxyEmitters.ProxyEmitter.CreateFactory: it requires every method to have fewer than 65536 parameters. The source casts the count to `ushort`, and the CLR does not allow more arguments, so the wrap-around of that cast is not modelled.
- ProxyEmitters.ProxyEmitter.CreateFactory: a null marshaller is not a failure case. `MarshallerCache.GetMarshaller` may answer null for a type (ProxyEmitter.cs lines 144 and 371), and the `Method<,>` constructor `Init` calls would then throw. That constructor belongs to Grpc.Core and is not part of this model, so `MarshallerFor(t)` is always an instance.
- ProxyEmitters.ProxyEmitter.CreateFactory: the counters are unbounded `nat`s. In the source, `_typeIndex` and the marshaller, continuation, adapter and field counters are 32-bit `int`s that would wrap after 2^31 increments. `ProxyTypeNamesDistinct` and the memo tables' distinct names rely on the counters not wrapping.
- ProxyBuilders.SignatureFitsPlan: it assumes that a method which sends a request has a data parameter. The classifier guarantees this, and the emitter relies on it without checking.

## Findings

| source | as written | input that shows it | evidently intended | confidence | as-written member | corrected member |
|---|---|---|---|---|---|---|
| src/protobuf-net.Grpc/Internal/ProxyEmitter.cs:34 | the short form is chosen for `-128 <= i < 127` | `Ldc_I4(il, 127)` emits the 5-byte `ldc.i4 127` although `ldc.i4.s 127` (2 bytes) loads the same value | the sbyte range `-128 <= i <= 127` | not executed | Il.Ldc_I4NotShortestAt127 | Il.ShortestLdc_I4IsShortest |
