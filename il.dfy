/**
  The abstract CIL the proxy emitter writes: the runtime types it mentions,
  the constructors and methods it calls, and the instructions it emits with
  their encodings as given in Partition III of ECMA-335 (sections III.3.38
  ldarg, III.3.39 ldarga, III.3.40 ldc).
 */
module Il {
  import opened Wrappers
  import Naming

  /**
    A runtime type reduced to what the emitter asks of it: its (generic
    definition) name, `IsValueType`, and its generic arguments.
   */
  datatype ClrType = ClrType(name: string, isValueType: bool, genericArgs: seq<ClrType>)

  const TaskTypeName: string := "System.Threading.Tasks.Task`1"
  const ValueTaskTypeName: string := "System.Threading.Tasks.ValueTask`1"

  /** `System.Tuple<T1..Tk>` of the given items. */
  function TupleOf(items: seq<ClrType>): (t: ClrType)
    ensures t.genericArgs == items && !t.isValueType
  {
    ClrType("System.Tuple`" + Naming.NatToString(|items|), false, items)
  }

  /** `Task<T>` for a result type `T`. */
  function TaskOf(t: ClrType): (r: ClrType)
    ensures r.genericArgs == [t]
  {
    ClrType(TaskTypeName, false, [t])
  }

  /** `ValueTypeWrapper<T>`, the reference type that carries a value-type payload. */
  function WrapperOf(t: ClrType): (r: ClrType)
    ensures r.genericArgs == [t] && !r.isValueType
  {
    ClrType("ProtoBuf.Grpc.Internal.ValueTypeWrapper`1", false, [t])
  }

  /** The exception types the emitted code and `CreateFactory` throw. */
  datatype ExceptionKind =
    | NotSupportedException
    | NotImplementedException
    | ArgumentNullException
    | ArgumentException
    | InvalidOperationException
    | IndexOutOfRangeException

  /** Constructors invoked by `newobj`. */
  datatype Ctor =
    | TupleCtor(tupleType: ClrType)                   // new Tuple<...>(items)
    | WrapperCtor(valueType: ClrType)                 // new ValueTypeWrapper<T>(value)
    | MethodCtor(request: ClrType, response: ClrType) // new Method<TRequest, TResponse>(5 arguments)
    | ExceptionCtor(kind: ExceptionKind)              // parameterless exception constructor
    | FuncCtor(input: ClrType, output: ClrType)       // new Func<TIn, TOut>(target, fn)
    | ValueTaskCtor(resultType: ClrType)              // new ValueTask<T>(Task<T>)

  /** How many stack values a constructor consumes. */
  function CtorArity(c: Ctor): nat {
    match c
    case TupleCtor(t) => |t.genericArgs|
    case WrapperCtor(_) => 1
    case MethodCtor(_, _) => 5
    case ExceptionCtor(_) => 0
    case FuncCtor(_, _) => 2
    case ValueTaskCtor(_) => 1
  }

  /** Methods invoked by `call` / `callvirt`; all of them return a value. */
  datatype Callee =
    | CallInvokerGetter               // this.get_CallInvoker()
    | ClientHelper(name: string)      // the client helper of the operation's shape (context, invoker, method, request, host)
    | ProxyMethod(name: string)       // a static helper defined on the proxy type (Vtwta{k})
    | TaskResultGetter                // Task<T>.get_Result()
    | AsTask                          // ValueTask<T>.AsTask() on an address
    | ContinueWith                    // Task<T>.ContinueWith(Func<Task<T>, U>)

  function CallArity(c: Callee): nat {
    match c
    case CallInvokerGetter => 1
    case ClientHelper(_) => 5
    case ProxyMethod(_) => 1
    case TaskResultGetter => 1
    case AsTask => 1
    case ContinueWith => 2
  }

  /** The instructions the emitter writes, in their concrete encodings. */
  datatype Instr =
    | LdcI4M1 | LdcI4_0 | LdcI4_1 | LdcI4_2 | LdcI4_3 | LdcI4_4
    | LdcI4_5 | LdcI4_6 | LdcI4_7 | LdcI4_8
    | LdcI4S(sbyteOperand: int)       // ldc.i4.s <int8>
    | LdcI4(int32Operand: int)        // ldc.i4 <int32>
    | Ldarg0 | Ldarg1 | Ldarg2 | Ldarg3
    | LdargS(byteIndex: int)          // ldarg.s <uint8>
    | LdargLong(uint16Index: int)     // ldarg <uint16>
    | LdargaS(byteIndex: int)         // ldarga.s <uint8>
    | LdargaLong(uint16Index: int)    // ldarga <uint16>
    | Ldstr(text: string)
    | Ldnull
    | Ldsfld(field: string)
    | Ldsflda(field: string)
    | Stsfld(field: string)
    | Ldfld(field: string)
    | Ldftn(methodName: string)
    | Newobj(ctor: Ctor)
    | Call(callee: Callee)
    | Callvirt(callee: Callee)
    | Throw
    | Ret

  predicate IsInt32(v: int) { -0x8000_0000 <= v < 0x8000_0000 }
  predicate IsUInt16(v: int) { 0 <= v < 0x1_0000 }

  /** C#'s `(ushort)` cast of a non-negative `int`. */
  function ToUInt16(n: nat): (r: nat)
    ensures IsUInt16(r)
    ensures n < 0x1_0000 ==> r == n
  {
    n % 0x1_0000
  }

  /** Every operand fits the width its encoding gives it. */
  predicate WellEncoded(i: Instr) {
    match i
    case LdcI4S(v) => -128 <= v < 128
    case LdcI4(v) => IsInt32(v)
    case LdargS(x) => 0 <= x < 256
    case LdargLong(x) => IsUInt16(x)
    case LdargaS(x) => 0 <= x < 256
    case LdargaLong(x) => IsUInt16(x)
    case _ => true
  }

  /** Encoded length in bytes (opcode plus operand). */
  function EncodedSize(i: Instr): nat {
    match i
    case LdcI4S(_) => 2
    case LdcI4(_) => 5
    case LdargS(_) => 2
    case LdargLong(_) => 4
    case LdargaS(_) => 2
    case LdargaLong(_) => 4
    case _ => 1
  }

  /** The constant an `ldc.i4` form pushes, as ECMA-335 III.3.40 defines it. */
  function PushedConstant(i: Instr): Option<int> {
    match i
    case LdcI4M1 => Some(-1)
    case LdcI4_0 => Some(0)
    case LdcI4_1 => Some(1)
    case LdcI4_2 => Some(2)
    case LdcI4_3 => Some(3)
    case LdcI4_4 => Some(4)
    case LdcI4_5 => Some(5)
    case LdcI4_6 => Some(6)
    case LdcI4_7 => Some(7)
    case LdcI4_8 => Some(8)
    case LdcI4S(v) => Some(v)
    case LdcI4(v) => Some(v)
    case _ => None
  }

  /** The argument an `ldarg` form loads (III.3.38). */
  function LoadedArgument(i: Instr): Option<nat> {
    match i
    case Ldarg0 => Some(0)
    case Ldarg1 => Some(1)
    case Ldarg2 => Some(2)
    case Ldarg3 => Some(3)
    case LdargS(x) => if x >= 0 then Some(x) else None
    case LdargLong(x) => if x >= 0 then Some(x) else None
    case _ => None
  }

  /** The argument whose address an `ldarga` form loads (III.3.39). */
  function LoadedArgumentAddress(i: Instr): Option<nat> {
    match i
    case LdargaS(x) => if x >= 0 then Some(x) else None
    case LdargaLong(x) => if x >= 0 then Some(x) else None
    case _ => None
  }

  /**
    `ProxyEmitter.Ldc_I4`: the dedicated opcodes for -1..8, the one-byte
    operand form for -128 <= value < 127 and the four-byte form otherwise.
   */
  function Ldc_I4(value: int): (r: Instr)
    requires IsInt32(value)
    ensures WellEncoded(r) && PushedConstant(r) == Some(value)
    ensures EncodedSize(r) == 1 <==> -1 <= value <= 8
    ensures EncodedSize(r) == 2 <==> (-128 <= value < 127 && !(-1 <= value <= 8))
    ensures EncodedSize(r) == 5 <==> (value < -128 || 127 <= value)
  {
    match value
    case -1 => LdcI4M1
    case 0 => LdcI4_0
    case 1 => LdcI4_1
    case 2 => LdcI4_2
    case 3 => LdcI4_3
    case 4 => LdcI4_4
    case 5 => LdcI4_5
    case 6 => LdcI4_6
    case 7 => LdcI4_7
    case 8 => LdcI4_8
    case _ => if -128 <= value < 127 then LdcI4S(value) else LdcI4(value)
  }

  /**
    As written, `Ldc_I4(127)` takes the five-byte form although the
    one-byte-operand form holds 127 exactly.
   */
  lemma Ldc_I4NotShortestAt127()
    ensures EncodedSize(Ldc_I4(127)) == 5
    ensures WellEncoded(LdcI4S(127)) && PushedConstant(LdcI4S(127)) == Some(127)
    ensures EncodedSize(LdcI4S(127)) == 2
  {
  }

  /** The selection with the short form's full range -128..127. */
  function ShortestLdc_I4(value: int): (r: Instr)
    requires IsInt32(value)
    ensures WellEncoded(r) && PushedConstant(r) == Some(value)
    ensures value != 127 ==> r == Ldc_I4(value)
  {
    if value == 127 then LdcI4S(value) else Ldc_I4(value)
  }

  /** No well-encoded instruction pushes `value` in fewer bytes. */
  lemma ShortestLdc_I4IsShortest(value: int, other: Instr)
    requires IsInt32(value)
    requires WellEncoded(other) && PushedConstant(other) == Some(value)
    ensures EncodedSize(ShortestLdc_I4(value)) <= EncodedSize(other)
  {
    if EncodedSize(other) == 1 {
      assert -1 <= value <= 8;
    } else if EncodedSize(other) == 2 {
      assert other.LdcI4S?;
    }
  }

  /**
    `ProxyEmitter.Ldarg`: the dedicated opcodes for arguments 0..3, the
    one-byte form up to 255 and the two-byte form otherwise.
   */
  function Ldarg(index: int): (r: Instr)
    requires IsUInt16(index)
    ensures WellEncoded(r) && LoadedArgument(r) == Some(index)
    ensures EncodedSize(r) == 1 <==> index <= 3
    ensures EncodedSize(r) == 2 <==> 4 <= index <= 255
    ensures EncodedSize(r) == 4 <==> 255 < index
  {
    match index
    case 0 => Ldarg0
    case 1 => Ldarg1
    case 2 => Ldarg2
    case 3 => Ldarg3
    case _ => if index <= 255 then LdargS(index) else LdargLong(index)
  }

  /** `Ldarg` picks a shortest encoding of "load argument `index`". */
  lemma LdargIsShortest(index: int, other: Instr)
    requires IsUInt16(index)
    requires WellEncoded(other) && LoadedArgument(other) == Some(index)
    ensures EncodedSize(Ldarg(index)) <= EncodedSize(other)
  {
  }

  /** `ProxyEmitter.Ldarga`: the one-byte form up to 255, else the two-byte form. */
  function Ldarga(index: int): (r: Instr)
    requires IsUInt16(index)
    ensures WellEncoded(r) && LoadedArgumentAddress(r) == Some(index)
    ensures EncodedSize(r) == 2 <==> index <= 255
    ensures EncodedSize(r) == 4 <==> 255 < index
  {
    if index <= 255 then LdargaS(index) else LdargaLong(index)
  }

  /** `Ldarga` picks a shortest encoding of "load the address of argument `index`". */
  lemma LdargaIsShortest(index: int, other: Instr)
    requires IsUInt16(index)
    requires WellEncoded(other) && LoadedArgumentAddress(other) == Some(index)
    ensures EncodedSize(Ldarga(index)) <= EncodedSize(other)
  {
  }
}
