/**
  `ValueTypeWrapper<T>` and the marshaller factory that lets value types
  (which the inner marshaller cache serializes only as bare values) cross the
  gRPC marshaller boundary: it strips one wrapper layer, delegates to the
  inner cache's marshaller for the wrapped type, and re-wraps on the way back.
 */
module ValueTypeWrappers {
  import opened Wrappers

  type Bytes = seq<bv8>

  /** The one-field carrier; its constructor stores `value` in `Value`. */
  datatype ValueTypeWrapper<T> = ValueTypeWrapper(Value: T)

  /** Reading `Value` back from a new wrapper gives the value it was built with. */
  lemma WrapperKeepsValue<T>(v: T)
    ensures ValueTypeWrapper(v).Value == v
  {
  }

  /**
    A payload type as the factory sees it: a plain type, or
    `ValueTypeWrapper<T>` of a plain type `T` (the `struct` constraint on `T`
    rules out a wrapper inside a wrapper, since the wrapper is a class).
   */
  datatype PayloadType = Named(name: string) | WrapperOf(arg: string)

  /** A value of some payload type over the plain value domain `V`. */
  datatype Payload<V> = Plain(v: V) | Wrapped(w: ValueTypeWrapper<V>)

  /** The static type of the C# generic call: a wrapper exactly for a wrapper type. */
  predicate HasType<V>(p: Payload<V>, t: PayloadType) {
    p.Wrapped? <==> t.WrapperOf?
  }

  /** `Marshaller<T>`: a serializer and a deserializer for one type. */
  datatype Marshaller<!V> = Marshaller(Serializer: V -> Bytes, Deserializer: Bytes -> V)

  /**
    The inner `MarshallerCache`: whether it can serialize a type, and the
    marshaller its `GetMarshaller<T>` returns (`None` for null).
   */
  datatype MarshallerCache<!V> = MarshallerCache(
    canSerializeType: string -> bool,
    getMarshaller: string -> Option<Marshaller<V>>)

  /** The exceptions the factory's paths raise. */
  datatype MarshalError =
    | NoMarshallerAvailable(forType: PayloadType)   // InvalidOperationException("No marshaller available for ...")
    | NullReference                                 // dereferencing a null marshaller

  /** The type the inner cache is asked about: one wrapper layer removed. */
  function Unwrapped(t: PayloadType): (n: string)
    ensures t.Named? ==> n == t.name
    ensures t.WrapperOf? ==> n == t.arg
  {
    match t
    case Named(n) => n
    case WrapperOf(a) => a
  }

  /** `CanSerialize`: the inner cache's answer for the unwrapped type. */
  function CanSerialize<V>(cache: MarshallerCache<V>, t: PayloadType): (r: bool)
    ensures t.Named? ==> r == cache.canSerializeType(t.name)
    ensures t.WrapperOf? ==> r == cache.canSerializeType(t.arg)
  {
    cache.canSerializeType(Unwrapped(t))
  }

  /** A wrapper type is serializable exactly when the type it wraps is. */
  lemma CanSerializeWrapper<V>(cache: MarshallerCache<V>, n: string)
    ensures CanSerialize(cache, WrapperOf(n)) == CanSerialize(cache, Named(n))
  {
  }

  /** `InvokeSerializer<T>`: the inner serializer applied to the wrapped value. */
  function InvokeSerializer<V>(m: Marshaller<V>, value: ValueTypeWrapper<V>): Bytes
  {
    m.Serializer(value.Value)
  }

  /** `InvokeDeserializer<T>`: a fresh wrapper around the inner deserializer's result. */
  function InvokeDeserializer<V>(m: Marshaller<V>, payload: Bytes): ValueTypeWrapper<V>
  {
    ValueTypeWrapper(m.Deserializer(payload))
  }

  /**
    `Serialize<T>`: a plain type goes straight to the cache's marshaller for
    it; a wrapper type goes to the marshaller for the wrapped type, and fails
    with `InvalidOperationException` when there is none.
   */
  function Serialize<V>(cache: MarshallerCache<V>, t: PayloadType, value: Payload<V>): (r: Result<Bytes, MarshalError>)
    requires HasType(value, t)
    ensures r.Failure? <==> cache.getMarshaller(Unwrapped(t)).None?
    ensures r.Failure? ==> r.error == (if t.WrapperOf? then NoMarshallerAvailable(t) else NullReference)
    ensures r.Success? && t.Named? ==> r.value == cache.getMarshaller(t.name).value.Serializer(value.v)
    ensures r.Success? && t.WrapperOf? ==> r.value == cache.getMarshaller(t.arg).value.Serializer(value.w.Value)
  {
    match t
    case Named(n) =>
      (match cache.getMarshaller(n)
       case None => Failure(NullReference)
       case Some(m) => Success(m.Serializer(value.v)))
    case WrapperOf(a) =>
      (match cache.getMarshaller(a)
       case None => Failure(NoMarshallerAvailable(t))
       case Some(m) => Success(InvokeSerializer(m, value.w)))
  }

  /**
    `Deserialize<T>`: a plain type comes straight from the cache's
    marshaller; a wrapper type is the wrapped type's deserializer result,
    wrapped again, or `InvalidOperationException` when there is no marshaller.
   */
  function Deserialize<V>(cache: MarshallerCache<V>, t: PayloadType, payload: Bytes): (r: Result<Payload<V>, MarshalError>)
    ensures r.Failure? <==> cache.getMarshaller(Unwrapped(t)).None?
    ensures r.Failure? ==> r.error == (if t.WrapperOf? then NoMarshallerAvailable(t) else NullReference)
    ensures r.Success? ==> HasType(r.value, t)
    ensures r.Success? && t.Named? ==> r.value.v == cache.getMarshaller(t.name).value.Deserializer(payload)
    ensures r.Success? && t.WrapperOf? ==> r.value.w.Value == cache.getMarshaller(t.arg).value.Deserializer(payload)
  {
    match t
    case Named(n) =>
      (match cache.getMarshaller(n)
       case None => Failure(NullReference)
       case Some(m) => Success(Plain(m.Deserializer(payload))))
    case WrapperOf(a) =>
      (match cache.getMarshaller(a)
       case None => Failure(NoMarshallerAvailable(t))
       case Some(m) => Success(Wrapped(InvokeDeserializer(m, payload))))
  }

  /** The inner marshaller gives `x` back after a round trip. */
  ghost predicate RoundTrips<V>(m: Marshaller<V>, x: V) {
    m.Deserializer(m.Serializer(x)) == x
  }

  /**
    Unwrapping, serializing, deserializing and wrapping again gives back the
    wrapper whenever the inner marshaller round-trips its value.
   */
  lemma InvokeRoundTrip<V>(m: Marshaller<V>, w: ValueTypeWrapper<V>)
    requires RoundTrips(m, w.Value)
    ensures InvokeDeserializer(m, InvokeSerializer(m, w)) == w
  {
  }

  /** The plain value a payload carries, looking through one wrapper. */
  function Carried<V>(p: Payload<V>): V {
    match p
    case Plain(v) => v
    case Wrapped(w) => w.Value
  }

  /**
    When the inner marshaller for the unwrapped type round-trips the carried
    value, the factory round-trips the payload, wrapper and `Value` included.
   */
  lemma SerializeRoundTrip<V>(cache: MarshallerCache<V>, t: PayloadType, p: Payload<V>)
    requires HasType(p, t)
    requires cache.getMarshaller(Unwrapped(t)).Some?
    requires RoundTrips(cache.getMarshaller(Unwrapped(t)).value, Carried(p))
    ensures Serialize(cache, t, p).Success?
    ensures Deserialize(cache, t, Serialize(cache, t, p).value) == Success(p)
  {
    var m := cache.getMarshaller(Unwrapped(t)).value;
    match p
    case Plain(v) =>
    case Wrapped(w) =>
      InvokeRoundTrip(m, w);
  }

  /** Without an inner marshaller, both directions of a wrapper type fail alike. */
  lemma MissingMarshallerFails<V>(cache: MarshallerCache<V>, a: string, w: ValueTypeWrapper<V>, payload: Bytes)
    requires cache.getMarshaller(a).None?
    ensures Serialize(cache, WrapperOf(a), Wrapped(w)) == Failure(NoMarshallerAvailable(WrapperOf(a)))
    ensures Deserialize(cache, WrapperOf(a), payload) == Failure(NoMarshallerAvailable(WrapperOf(a)))
  {
  }

  /** An inner marshaller for `long` that writes values 0..255 as one byte. */
  function ByteInt64Marshaller(): Marshaller<int> {
    Marshaller(
      (x: int) => if 0 <= x < 256 then [x as bv8] else [],
      (b: Bytes) => if |b| == 1 then b[0] as int else 0)
  }

  /**
    The round trip of a `ValueTypeWrapper<long>` holding 42 through the
    factory gives back a wrapper whose `Value` is 42.
   */
  lemma WrappedInt64FortyTwo()
    ensures var cache := MarshallerCache((n: string) => n == "System.Int64",
                                         (n: string) => if n == "System.Int64" then Some(ByteInt64Marshaller()) else None);
      var sent := Serialize(cache, WrapperOf("System.Int64"), Wrapped(ValueTypeWrapper(42)));
      sent.Success? && Deserialize(cache, WrapperOf("System.Int64"), sent.value) == Success(Wrapped(ValueTypeWrapper(42)))
  {
    var m := ByteInt64Marshaller();
    assert RoundTrips(m, 42);
  }
}
