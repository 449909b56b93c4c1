/**
  What the proxy emitter is given. The contract classifier
  (`ContractOperation.FindOperations`, `TryIdentifySignature`,
  `TryGetClientHelper`) and the binder's `IsServiceContract` are not part of
  this model: their answers are fields of these records.
 */
module Contracts {
  import opened Wrappers
  import opened Il

  /** `Grpc.Core.MethodType`. */
  datatype MethodType = Unary | ClientStreaming | ServerStreaming | DuplexStreaming

  /**
    The enum's underlying value, which the type initializer loads as an
    `int`: `Unary = 0`, `ClientStreaming = 1`, `ServerStreaming = 2`,
    `DuplexStreaming = 3`. Different kinds load different codes.
   */
  function MethodTypeCode(t: MethodType): (code: int)
    ensures 0 <= code <= 3
    ensures code == 0 <==> t == Unary
    ensures code == 1 <==> t == ClientStreaming
    ensures code == 2 <==> t == ServerStreaming
    ensures code == 3 <==> t == DuplexStreaming
  {
    match t
    case Unary => 0
    case ClientStreaming => 1
    case ServerStreaming => 2
    case DuplexStreaming => 3
  }

  /** Where a method's call context comes from; `OtherContext` is any value the switch does not name. */
  datatype ContextKind = NoContext | CallContext | CallOptions | ServerCallContext | OtherContext

  /** How the interface method returns its response; `OtherResult` covers the kinds the emitter does not test for. */
  datatype ResultKind = Sync | Task | ValueTask | OtherResult

  /** The classifier's description of one operation (`ContractOperation`). */
  datatype Operation = Operation(
    name: string,
    from: ClrType,                  // request type
    to: ClrType,                    // response type
    methodType: MethodType,
    context: ContextKind,
    result: ResultKind,
    voidRequest: bool,
    voidResponse: bool,
    clientHelper: Option<string>)   // TryGetClientHelper(); None for null

  /** One interface method with the classifier's verdict on its signature. */
  datatype InterfaceMethod = InterfaceMethod(
    name: string,
    paramTypes: seq<ClrType>,
    returnType: ClrType,
    signature: Option<Operation>)   // TryIdentifySignature; None when it fails

  /** One interface of the expanded contract; `serviceName` is `IsServiceContract`'s answer. */
  datatype ContractInterface = ContractInterface(
    name: string,
    serviceName: Option<string>,
    methods: seq<InterfaceMethod>)

  /** `TService`: whether it is an interface, its own contract name, and `ExpandInterfaces(TService)`. */
  datatype ServiceType = ServiceType(
    name: string,
    isInterface: bool,
    contractName: Option<string>,
    expanded: seq<ContractInterface>)

  /** The getter of a `CallInvoker` property found on the base type. */
  datatype Getter = Getter(returnType: ClrType, parameterCount: nat)

  /**
    The proxy's base type; `callInvokerGetter` is None when the property or
    its getter is missing, `hasChannelCtor` says whether it declares a
    constructor taking the channel (`GetConstructor(new[] { typeof(TChannel) })`),
    and `hasDefaultCtor` whether it declares a parameterless one.
   */
  datatype BaseType = BaseType(name: string, callInvokerGetter: Option<Getter>, hasChannelCtor: bool, hasDefaultCtor: bool)

  const CallInvokerType: ClrType := ClrType("Grpc.Core.CallInvoker", false, [])

  /** A method of the expanded contract, in the order the emitter visits them. */
  datatype Slot = Slot(iface: ContractInterface, imethod: InterfaceMethod)

  /** Every method of every interface, interface by interface. */
  function Slots(ifaces: seq<ContractInterface>): (r: seq<Slot>)
    decreases |ifaces|
  {
    if ifaces == [] then []
    else Slots(ifaces[..|ifaces| - 1]) + SlotsOf(ifaces[|ifaces| - 1])
  }

  /** The methods of one interface, in declaration order. */
  function SlotsOf(iface: ContractInterface): (r: seq<Slot>) {
    MethodSlots(iface, |iface.methods|)
  }

  /** The slots of the first `j` methods of `iface`. */
  function MethodSlots(iface: ContractInterface, j: nat): (r: seq<Slot>)
    requires j <= |iface.methods|
    ensures |r| == j
    decreases j
  {
    if j == 0 then [] else MethodSlots(iface, j - 1) + [Slot(iface, iface.methods[j - 1])]
  }

  /** Slot `k` of an interface is the slot of its method `k`. */
  lemma {:induction false} MethodSlotsAt(iface: ContractInterface, j: nat, k: nat)
    requires k < j <= |iface.methods|
    ensures MethodSlots(iface, j)[k] == Slot(iface, iface.methods[k])
    decreases j
  {
    if k < j - 1 {
      MethodSlotsAt(iface, j - 1, k);
    }
  }

  /** The slots of the first `k + 1` interfaces are those of the first `k`, then interface `k`'s. */
  lemma {:induction false} SlotsSnoc(ifaces: seq<ContractInterface>, k: nat)
    requires k < |ifaces|
    ensures Slots(ifaces[..k + 1]) == Slots(ifaces[..k]) + SlotsOf(ifaces[k])
  {
    var front := ifaces[..k + 1];
    assert front[..|front| - 1] == ifaces[..k] && front[|front| - 1] == ifaces[k];
  }

  /** After `done`, one more method of `iface` extends the slots by that method's. */
  lemma {:induction false} MethodSlotsSnoc(done: seq<Slot>, iface: ContractInterface, j: nat)
    requires j < |iface.methods|
    ensures done + MethodSlots(iface, j + 1) == (done + MethodSlots(iface, j)) + [Slot(iface, iface.methods[j])]
  {
  }

  /** Every method of every interface is among the slots. */
  lemma {:induction false} SlotsContain(ifaces: seq<ContractInterface>, k: nat, j: nat)
    requires k < |ifaces| && j < |ifaces[k].methods|
    ensures Slot(ifaces[k], ifaces[k].methods[j]) in Slots(ifaces)
    decreases |ifaces|
  {
    var front := ifaces[..|ifaces| - 1];
    if k == |ifaces| - 1 {
      MethodSlotsAt(ifaces[k], |ifaces[k].methods|, j);
    } else {
      assert front[k] == ifaces[k];
      SlotsContain(front, k, j);
    }
  }

  /** The method gets an `s_op_{i}` field: a service interface and an identified signature. */
  predicate Classified(s: Slot) {
    s.iface.serviceName.Some? && s.imethod.signature.Some?
  }

  /** The number of classified methods in `slots`: the `fieldIndex` they advance. */
  function ClassifiedCount(slots: seq<Slot>): (n: nat)
    ensures n <= |slots|
    decreases |slots|
  {
    if slots == [] then 0
    else ClassifiedCount(slots[..|slots| - 1]) + (if Classified(slots[|slots| - 1]) then 1 else 0)
  }
}
