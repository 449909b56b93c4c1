/**
  The proxy type while `CreateFactory` builds it: the memo tables for
  marshaller fields, continuations and adapters, the static helpers already
  defined, the `s_op_{i}` fields with the `Init` code that fills them, and
  the interface implementations emitted so far.
 */
module ProxyBuilders {
  import opened Wrappers
  import opened Naming
  import opened Il
  import opened StackMachine
  import opened TuplePacking
  import opened Contracts
  import opened ThunkPlan
  import opened TaskAdapters
  import opened Registries
  import opened TypeInitializer

  /** One method defined on the proxy type. */
  datatype EmittedMethod = EmittedMethod(name: string, code: seq<Instr>)

  /** The name of the explicit implementation of an interface method. */
  function ImplName(s: Slot): string {
    s.iface.name + "." + s.imethod.name
  }

  /** The body the emitter plans for a method of the contract. */
  function BodyOf(s: Slot): Body {
    SelectBody(s.iface.serviceName.Some?, s.imethod)
  }

  /**
    A forwarding method whose non-void `Task`/`ValueTask` return type has no
    generic argument: testing `GetGenericArguments()[0]` fails there.
   */
  predicate ReadsMissingArgument(s: Slot) {
    BodyOf(s).Forward? && s.imethod.signature.value.result in {Task, ValueTask}
    && !s.imethod.signature.value.voidResponse && |s.imethod.returnType.genericArgs| == 0
  }

  /** The adapter a forwarding body calls, if it calls one. */
  function AdapterNameFor(b: Body, adapters: map<ClrType, string>): string {
    if b.Forward? && b.result.AdaptTask? && b.result.taskType in adapters then adapters[b.result.taskType] else ""
  }

  /**
    `code` is the body planned for `s`: the exception it throws, or the
    forwarding thunk over the operation's field and (when the result is
    adapted) the adapter registered for the return type.
   */
  ghost predicate Planned(s: Slot, code: seq<Instr>, opField: string, adapters: map<ClrType, string>) {
    var b := BodyOf(s);
    match b
    case Throws(kind) => code == ThrowCode(kind)
    case Forward(ctx, req, res, _) =>
      (ctx.ArgumentAddress? ==> IsUInt16(ctx.index))
      && (req.PackArguments? ==> 1 <= |req.types| < 0x1_0000)
      && (res.AdaptTask? ==> res.taskType in adapters)
      && code == ThunkCode(b, opField, AdapterNameFor(b, adapters))
  }

  /** Later additions to the adapter table do not change what a planned body means. */
  lemma PlannedGrows(s: Slot, code: seq<Instr>, opField: string, adapters: map<ClrType, string>, adapters': map<ClrType, string>)
    requires Planned(s, code, opField, adapters)
    requires forall t :: t in adapters ==> t in adapters' && adapters'[t] == adapters[t]
    ensures Planned(s, code, opField, adapters')
  {
    var b := BodyOf(s);
    if b.Forward? {
      assert AdapterNameFor(b, adapters) == AdapterNameFor(b, adapters');
    }
  }

  /** A planned throwing body throws its exception, whatever the arguments. */
  lemma PlannedThrows(s: Slot, code: seq<Instr>, opField: string, adapters: map<ClrType, string>,
                      m: Machine, args: seq<Val>, env: Env)
    requires Planned(s, code, opField, adapters) && BodyOf(s).Throws?
    ensures Run(code, m, args, env) == Threw(BodyOf(s).kind)
  {
    RunThrowCode(BodyOf(s).kind, m, args, env);
  }

  /**
    A planned forwarding body, called with `this` and the method's
    arguments, returns the adapted result of one client-helper call.
   */
  lemma PlannedForwards(s: Slot, code: seq<Instr>, opField: string, adapters: map<ClrType, string>,
                        args: seq<Val>, statics: map<string, Val>, env: Env)
    requires Planned(s, code, opField, adapters) && PlanFits(BodyOf(s), |args|) && |args| >= 1
    ensures Run(code, Machine([], statics), args, env)
         == Returned(Machine([ForwardedResult(BodyOf(s), opField, AdapterNameFor(BodyOf(s), adapters), args, statics, env)], statics))
  {
    RunThunk(BodyOf(s), opField, AdapterNameFor(BodyOf(s), adapters), args, statics, env);
  }

  /**
    For a signature with data to send whenever it sends a request, the
    planned forwarding body fits a call with `this` plus the declared
    parameters.
   */
  lemma SignatureFitsPlan(s: Slot)
    requires BodyOf(s).Forward? && |s.imethod.paramTypes| < 0x1_0000
    requires var op := s.imethod.signature.value; !op.voidRequest ==> |DataParameters(op, s.imethod.paramTypes)| >= 1
    ensures PlanFits(BodyOf(s), |s.imethod.paramTypes| + 1)
  {
    var op := s.imethod.signature.value;
    var data := DataParameters(op, s.imethod.paramTypes);
    assert |data| <= |s.imethod.paramTypes| by {
      if op.context == CallContext && |s.imethod.paramTypes| > 0 {
        assert data + [s.imethod.paramTypes[|s.imethod.paramTypes| - 1]] == s.imethod.paramTypes;
      }
    }
  }

  /** The `Method<,>` object `Init` stores for a classified method. */
  function OperationObject(s: Slot): Val
    requires Classified(s)
  {
    var op := s.imethod.signature.value;
    Obj(MethodCtor(op.from, op.to),
        [Int(MethodTypeCode(op.methodType)), Str(s.iface.serviceName.value), Str(op.name), MarshallerFor(op.from), MarshallerFor(op.to)])
  }

  /** `e` is the field entry of classified method `s`. */
  predicate DescribesOperation(e: OpField, s: Slot)
    requires Classified(s)
  {
    var op := s.imethod.signature.value;
    e.methodType == op.methodType && e.serviceName == s.iface.serviceName.value && e.opName == op.name
    && e.from == op.from && e.to == op.to
  }

  lemma DescribedValue(e: OpField, s: Slot)
    requires Classified(s) && DescribesOperation(e, s)
    ensures MethodValue(e) == OperationObject(s)
  {
  }

  /** Every continuation and adapter registered is defined with its code. */
  ghost predicate HelpersDefined(helpers: map<string, seq<Instr>>, conts: map<ClrType, string>, adapters: map<ClrType, string>) {
    (forall t :: t in conts ==> conts[t] in helpers && helpers[conts[t]] == ContinuationCode())
    && (forall t :: t in adapters ==>
          |t.genericArgs| >= 1 && t.genericArgs[0] in conts
          && adapters[t] in helpers && helpers[adapters[t]] == AdapterCode(t, conts[t.genericArgs[0]]))
  }

  /** Every operation field reads the marshaller fields registered for its types. */
  ghost predicate OpMarshallers(es: seq<OpField>, fields: map<ClrType, string>) {
    forall i :: 0 <= i < |es| ==>
      es[i].from in fields && fields[es[i].from] == es[i].fromField
      && es[i].to in fields && fields[es[i].to] == es[i].toField
  }

  /** `b` keeps every entry of `a`. */
  ghost predicate Grows(a: map<ClrType, string>, b: map<ClrType, string>) {
    forall t :: t in a ==> t in b && b[t] == a[t]
  }

  /** The names a table hands out all carry its prefix. */
  lemma MemoNamesPrefixed(prefix: string, order: seq<ClrType>, names: map<ClrType, string>)
    requires Memo(prefix, order, names)
    ensures forall t :: t in names ==> |names[t]| > |prefix| && names[t][..|prefix|] == prefix
  {
    forall t | t in names
      ensures |names[t]| > |prefix| && names[t][..|prefix|] == prefix
    {
      var k :| 0 <= k < |order| && order[k] == t;
    }
  }

  /** The name a table has just handed out is not the name of any type it held before. */
  lemma FreshNameUnused(prefix: string, order: seq<ClrType>, names: map<ClrType, string>, t: ClrType, name: string)
    requires Memo(prefix, order, names[t := name]) && t !in names
    ensures forall u :: u in names ==> names[u] != name
  {
    var names' := names[t := name];
    MemoNamesDistinct(prefix, order, names');
    forall u | u in names ensures names[u] != name {
      assert u in names' && t in names' && u != t;
      assert names'[u] == names[u] && names'[t] == name;
    }
  }

  /** Tables whose prefixes start differently never share a name. */
  lemma TablesApart(prefix: string, order: seq<ClrType>, names: map<ClrType, string>, other: string, name: string)
    requires Memo(prefix, order, names) && |prefix| > 0 && |other| > 0 && prefix[0] != other[0]
    requires |name| > |other| && name[..|other|] == other
    ensures forall u :: u in names ==> names[u] != name
  {
    MemoNamesPrefixed(prefix, order, names);
    forall u | u in names ensures names[u] != name {
      var a := names[u];
      assert a[..|prefix|] == prefix;
      assert a[0] == prefix[0];
      assert name[0] == other[0];
    }
  }

  /** Defining a new continuation keeps every registered helper defined. */
  lemma HelpersAddContinuation(helpers: map<string, seq<Instr>>, conts: map<ClrType, string>, adapters: map<ClrType, string>,
                               t: ClrType, name: string)
    requires HelpersDefined(helpers, conts, adapters) && t !in conts
    requires forall u :: u in conts ==> conts[u] != name
    requires forall u :: u in adapters ==> adapters[u] != name
    ensures HelpersDefined(helpers[name := ContinuationCode()], conts[t := name], adapters)
  {
    var helpers' := helpers[name := ContinuationCode()];
    var conts' := conts[t := name];
    forall u | u in adapters
      ensures |u.genericArgs| >= 1 && u.genericArgs[0] in conts'
      ensures adapters[u] in helpers' && helpers'[adapters[u]] == AdapterCode(u, conts'[u.genericArgs[0]])
    {
      assert conts'[u.genericArgs[0]] == conts[u.genericArgs[0]];
    }
  }

  /** Defining a new adapter over a registered continuation keeps every registered helper defined. */
  lemma HelpersAddAdapter(helpers: map<string, seq<Instr>>, conts: map<ClrType, string>, adapters: map<ClrType, string>,
                          t: ClrType, name: string)
    requires HelpersDefined(helpers, conts, adapters) && t !in adapters
    requires |t.genericArgs| >= 1 && t.genericArgs[0] in conts
    requires forall u :: u in conts ==> conts[u] != name
    requires forall u :: u in adapters ==> adapters[u] != name
    ensures HelpersDefined(helpers[name := AdapterCode(t, conts[t.genericArgs[0]])], conts, adapters[t := name])
  {
  }

  /** A new operation field whose marshaller fields are registered keeps every field reading its marshallers. */
  lemma OpMarshallersAppend(es: seq<OpField>, fields: map<ClrType, string>, fields': map<ClrType, string>, e: OpField)
    requires OpMarshallers(es, fields) && Grows(fields, fields')
    requires e.from in fields' && fields'[e.from] == e.fromField && e.to in fields' && fields'[e.to] == e.toField
    ensures OpMarshallers(es + [e], fields')
  {
    forall i | 0 <= i < |es| + 1
      ensures (es + [e])[i].from in fields' && fields'[(es + [e])[i].from] == (es + [e])[i].fromField
      ensures (es + [e])[i].to in fields' && fields'[(es + [e])[i].to] == (es + [e])[i].toField
    {
      if i < |es| {
        assert (es + [e])[i] == es[i];
      }
    }
  }

  /** Registering more marshallers keeps every operation field reading its marshallers. */
  lemma OpMarshallersGrow(es: seq<OpField>, fields: map<ClrType, string>, fields': map<ClrType, string>)
    requires OpMarshallers(es, fields) && Grows(fields, fields')
    ensures OpMarshallers(es, fields')
  {
  }

  /**
    The operation fields so far: `fieldIndex` counts them, the `i`-th is
    `s_op_{i}`, `Init` holds their blocks in order, and each reads the
    marshaller fields registered for its types.
   */
  ghost predicate OpFieldsValid(es: seq<OpField>, fieldIndex: nat, cctor: seq<Instr>, fields: map<ClrType, string>) {
    fieldIndex == |es| && cctor == InitCode(es)
    && (forall i :: 0 <= i < |es| ==> es[i].field == OpFieldName(i))
    && OpMarshallers(es, fields)
  }

  lemma OpFieldsAppend(es: seq<OpField>, fieldIndex: nat, cctor: seq<Instr>, fields: map<ClrType, string>,
                       fields': map<ClrType, string>, e: OpField)
    requires OpFieldsValid(es, fieldIndex, cctor, fields) && Grows(fields, fields')
    requires e.field == OpFieldName(fieldIndex)
    requires e.from in fields' && fields'[e.from] == e.fromField && e.to in fields' && fields'[e.to] == e.toField
    ensures OpFieldsValid(es + [e], fieldIndex + 1, cctor + InitBlock(e), fields')
  {
    OpMarshallersAppend(es, fields, fields', e);
    assert (es + [e])[..|es|] == es;
    forall i | 0 <= i < |es| + 1 ensures (es + [e])[i].field == OpFieldName(i) {
      if i < |es| {
        assert (es + [e])[i] == es[i];
      }
    }
  }

  /** The helper methods are named by the continuation and adapter tables and by nothing else. */
  ghost predicate HelperNamesExact(helpers: map<string, seq<Instr>>, conts: map<ClrType, string>, adapters: map<ClrType, string>) {
    helpers.Keys == conts.Values + adapters.Values
  }

  /** A new key adds its name to a table's names. */
  lemma ValuesAdd(m: map<ClrType, string>, k: ClrType, v: string)
    requires k !in m
    ensures m[k := v].Values == m.Values + {v}
  {
    var m' := m[k := v];
    assert k in m' && m'[k] == v;
    forall x ensures x in m'.Values <==> x in m.Values + {v} {
      if x in m.Values {
        var j :| j in m && m[j] == x;
        assert j in m' && m'[j] == x;
      }
      if x in m'.Values && x != v {
        var j :| j in m' && m'[j] == x;
        assert j in m && m[j] == x;
      }
    }
  }

  /** The tables determine the helper methods: their names and, through `HelpersDefined`, their code. */
  lemma HelpersDetermined(a: map<string, seq<Instr>>, b: map<string, seq<Instr>>,
                          conts: map<ClrType, string>, adapters: map<ClrType, string>)
    requires HelpersDefined(a, conts, adapters) && HelperNamesExact(a, conts, adapters)
    requires HelpersDefined(b, conts, adapters) && HelperNamesExact(b, conts, adapters)
    ensures a == b
  {
    forall n | n in a ensures n in b && a[n] == b[n] {
      if n in conts.Values {
        var t :| t in conts && conts[t] == n;
      } else {
        assert n in adapters.Values;
        var t :| t in adapters && adapters[t] == n;
      }
    }
    assert a.Keys == b.Keys;
  }

  /** A new continuation names one new helper. */
  lemma HelperNamesAddContinuation(helpers: map<string, seq<Instr>>, conts: map<ClrType, string>, adapters: map<ClrType, string>,
                                   t: ClrType, name: string, code: seq<Instr>)
    requires HelperNamesExact(helpers, conts, adapters) && t !in conts
    ensures HelperNamesExact(helpers[name := code], conts[t := name], adapters)
  {
    ValuesAdd(conts, t, name);
  }

  /** A new adapter names one new helper. */
  lemma HelperNamesAddAdapter(helpers: map<string, seq<Instr>>, conts: map<ClrType, string>, adapters: map<ClrType, string>,
                              t: ClrType, name: string, code: seq<Instr>)
    requires HelperNamesExact(helpers, conts, adapters) && t !in adapters
    ensures HelperNamesExact(helpers[name := code], conts, adapters[t := name])
  {
    ValuesAdd(adapters, t, name);
  }

  /** The forwarding body of `s` passes its task result through a `Vtwta{k}` adapter. */
  predicate AdaptsTask(s: Slot) {
    BodyOf(s).Forward? && BodyOf(s).result.AdaptTask?
  }

  /** The `Task`/`ValueTask` type an adapting slot returns, whose adapter it calls. */
  function AdaptedTask(s: Slot): (t: ClrType)
    requires AdaptsTask(s)
    ensures |t.genericArgs| >= 1 && t == s.imethod.returnType
  {
    BodyOf(s).result.taskType
  }

  /** The payload types whose marshallers a method asks for: request, then response (`Marshaller(op.From)`, `Marshaller(op.To)`). */
  function SlotPayloads(s: Slot): seq<ClrType> {
    if Classified(s) then [s.imethod.signature.value.from, s.imethod.signature.value.to] else []
  }

  /** Every marshaller request of `slots`, in the order the emitter makes them. */
  function PayloadUses(slots: seq<Slot>): seq<ClrType>
    decreases |slots|
  {
    if slots == [] then [] else PayloadUses(slots[..|slots| - 1]) + SlotPayloads(slots[|slots| - 1])
  }

  /** Every adapter request of `slots`: the returned `Task`/`ValueTask` type of each adapting method, in order. */
  function AdapterUses(slots: seq<Slot>): seq<ClrType>
    decreases |slots|
  {
    if slots == [] then []
    else AdapterUses(slots[..|slots| - 1]) + (if AdaptsTask(slots[|slots| - 1]) then [AdaptedTask(slots[|slots| - 1])] else [])
  }

  /** Every continuation request of `slots`: the result type of each adapting method, in order. */
  function ContinuationUses(slots: seq<Slot>): seq<ClrType>
    decreases |slots|
  {
    if slots == [] then []
    else ContinuationUses(slots[..|slots| - 1])
         + (if AdaptsTask(slots[|slots| - 1]) then [AdaptedTask(slots[|slots| - 1]).genericArgs[0]] else [])
  }

  /** The keys of the `_m{k}`, `Cont{k}` and `Vtwta{k}` tables once `done` has been emitted. */
  ghost predicate TablesFor(done: seq<Slot>, marshallers: seq<ClrType>, continuations: seq<ClrType>, adapters: seq<ClrType>) {
    marshallers == Dedupe(PayloadUses(done))
    && continuations == Dedupe(ContinuationUses(done))
    && adapters == Dedupe(AdapterUses(done))
  }

  /** What one method adds to the marshaller table. */
  function MarshallerStep(order: seq<ClrType>, s: Slot): seq<ClrType> {
    if Classified(s) then AddOnce(AddOnce(order, s.imethod.signature.value.from), s.imethod.signature.value.to) else order
  }

  /** What one method adds to the continuation table. */
  function ContinuationStep(order: seq<ClrType>, s: Slot): seq<ClrType> {
    if AdaptsTask(s) then AddOnce(order, AdaptedTask(s).genericArgs[0]) else order
  }

  /** What one method adds to the adapter table. */
  function AdapterStep(order: seq<ClrType>, s: Slot): seq<ClrType> {
    if AdaptsTask(s) then AddOnce(order, AdaptedTask(s)) else order
  }

  /** Emitting one more method moves each table on by that method's step. */
  lemma {:induction false} TablesStep(done: seq<Slot>, s: Slot, ms: seq<ClrType>, cs: seq<ClrType>, as_: seq<ClrType>)
    requires TablesFor(done, ms, cs, as_)
    ensures TablesFor(done + [s], MarshallerStep(ms, s), ContinuationStep(cs, s), AdapterStep(as_, s))
  {
    var done' := done + [s];
    assert done'[..|done|] == done && done'[|done|] == s;
    var uses := PayloadUses(done);
    if Classified(s) {
      var op := s.imethod.signature.value;
      assert PayloadUses(done') == (uses + [op.from]) + [op.to];
      DedupeSnoc(uses + [op.from], op.to);
      DedupeSnoc(uses, op.from);
    } else {
      assert PayloadUses(done') == uses;
    }
    if AdaptsTask(s) {
      DedupeSnoc(ContinuationUses(done), AdaptedTask(s).genericArgs[0]);
      DedupeSnoc(AdapterUses(done), AdaptedTask(s));
    } else {
      assert ContinuationUses(done') == ContinuationUses(done);
      assert AdapterUses(done') == AdapterUses(done);
    }
  }

  /**
    One `_m{k}` field per distinct payload type: a type is in the
    marshaller table after `done` iff some classified method of `done` has
    it as request or response type, and no type is there twice.
   */
  lemma {:induction false} MarshallerTableMeans(done: seq<Slot>)
    ensures forall t :: t in Dedupe(PayloadUses(done)) <==>
              exists x :: 0 <= x < |done| && Classified(done[x])
                          && (t == done[x].imethod.signature.value.from || t == done[x].imethod.signature.value.to)
    ensures forall i, j :: 0 <= i < j < |Dedupe(PayloadUses(done))| ==> Dedupe(PayloadUses(done))[i] != Dedupe(PayloadUses(done))[j]
  {
    DedupeMeans(PayloadUses(done));
    PayloadUsesMean(done);
  }

  lemma {:induction false} PayloadUsesMean(done: seq<Slot>)
    ensures forall x :: 0 <= x < |done| && Classified(done[x]) ==>
              done[x].imethod.signature.value.from in PayloadUses(done) && done[x].imethod.signature.value.to in PayloadUses(done)
    ensures forall t :: t in PayloadUses(done) ==>
              exists x :: 0 <= x < |done| && Classified(done[x])
                          && (t == done[x].imethod.signature.value.from || t == done[x].imethod.signature.value.to)
    decreases |done|
  {
    if done != [] {
      var n := |done| - 1;
      var front := done[..n];
      PayloadUsesMean(front);
      assert PayloadUses(done) == PayloadUses(front) + SlotPayloads(done[n]);
      forall x | 0 <= x < |done| && Classified(done[x])
        ensures done[x].imethod.signature.value.from in PayloadUses(done) && done[x].imethod.signature.value.to in PayloadUses(done)
      {
        if x < n {
          assert front[x] == done[x];
        }
      }
      forall t | t in PayloadUses(done)
        ensures exists x :: 0 <= x < |done| && Classified(done[x])
                            && (t == done[x].imethod.signature.value.from || t == done[x].imethod.signature.value.to)
      {
        if t in PayloadUses(front) {
          var x :| 0 <= x < n && Classified(front[x])
                   && (t == front[x].imethod.signature.value.from || t == front[x].imethod.signature.value.to);
          assert done[x] == front[x];
        } else {
          assert Classified(done[n]);
        }
      }
    }
  }

  /**
    One `Vtwta{k}` adapter per distinct adapted task type: a type is in the
    adapter table after `done` iff some method of `done` adapts a task of
    that type, and no type is there twice.
   */
  lemma {:induction false} AdapterTableMeans(done: seq<Slot>)
    ensures forall t :: t in Dedupe(AdapterUses(done)) <==>
              exists x :: 0 <= x < |done| && AdaptsTask(done[x]) && t == AdaptedTask(done[x])
    ensures forall i, j :: 0 <= i < j < |Dedupe(AdapterUses(done))| ==> Dedupe(AdapterUses(done))[i] != Dedupe(AdapterUses(done))[j]
  {
    DedupeMeans(AdapterUses(done));
    AdapterUsesMean(done);
  }

  lemma {:induction false} AdapterUsesMean(done: seq<Slot>)
    ensures forall x :: 0 <= x < |done| && AdaptsTask(done[x]) ==> AdaptedTask(done[x]) in AdapterUses(done)
    ensures forall t :: t in AdapterUses(done) ==> exists x :: 0 <= x < |done| && AdaptsTask(done[x]) && t == AdaptedTask(done[x])
    decreases |done|
  {
    if done != [] {
      var n := |done| - 1;
      var front := done[..n];
      AdapterUsesMean(front);
      assert AdapterUses(done) == AdapterUses(front) + (if AdaptsTask(done[n]) then [AdaptedTask(done[n])] else []);
      forall x | 0 <= x < |done| && AdaptsTask(done[x]) ensures AdaptedTask(done[x]) in AdapterUses(done) {
        if x < n {
          assert front[x] == done[x];
        }
      }
      forall t | t in AdapterUses(done)
        ensures exists x :: 0 <= x < |done| && AdaptsTask(done[x]) && t == AdaptedTask(done[x])
      {
        if t in AdapterUses(front) {
          var x :| 0 <= x < n && AdaptsTask(front[x]) && t == AdaptedTask(front[x]);
          assert done[x] == front[x];
        }
      }
    }
  }

  class ProxyBuilder {
    const marshallers: Registry      // `_m{k}` fields
    const continuations: Registry    // `Cont{k}` methods
    const adapters: Registry         // `Vtwta{k}` methods
    var helpers: map<string, seq<Instr>>
    var opFields: seq<OpField>
    var fieldIndex: nat
    var cctor: seq<Instr>            // `Init`, without its final `ret`
    var methods: seq<EmittedMethod>

    ghost predicate Valid()
      reads this, marshallers, continuations, adapters
    {
      marshallers != continuations && marshallers != adapters && continuations != adapters
      && marshallers.Valid() && continuations.Valid() && adapters.Valid()
      && marshallers.prefix == "_m" && continuations.prefix == "Cont" && adapters.prefix == "Vtwta"
      && HelpersDefined(helpers, continuations.names, adapters.names)
      && HelperNamesExact(helpers, continuations.names, adapters.names)
      && OpFieldsValid(opFields, fieldIndex, cctor, marshallers.names)
    }

    constructor ()
      ensures Valid() && fresh(marshallers) && fresh(continuations) && fresh(adapters)
      ensures marshallers.names == map[] && continuations.names == map[] && adapters.names == map[]
      ensures marshallers.order == [] && continuations.order == [] && adapters.order == []
      ensures helpers == map[] && opFields == [] && cctor == [] && methods == []
    {
      marshallers := new Registry("_m");
      continuations := new Registry("Cont");
      adapters := new Registry("Vtwta");
      helpers := map[];
      opFields := [];
      fieldIndex := 0;
      cctor := [];
      methods := [];
    }

    /** `ValueTypeWrapperTaskContinuation(t)`: the memoised `Cont{k}` reading `Result.Value`. */
    method ValueTypeWrapperTaskContinuation(t: ClrType) returns (name: string)
      requires Valid()
      modifies this, continuations
      ensures Valid()
      ensures t in continuations.names && name == continuations.names[t] && helpers[name] == ContinuationCode()
      ensures t in old(continuations.names) ==> continuations.names == old(continuations.names) && helpers == old(helpers)
      ensures t !in old(continuations.names) ==>
                name == IndexedName("Cont", old(continuations.index))
                && continuations.names == old(continuations.names)[t := name] && helpers == old(helpers)[name := ContinuationCode()]
      ensures continuations.order == AddOnce(old(continuations.order), t)
      ensures opFields == old(opFields) && cctor == old(cctor) && methods == old(methods) && fieldIndex == old(fieldIndex)
    {
      var added;
      ghost var conts := continuations.names;
      name, added := continuations.GetOrAdd(t);
      if added {
        TablesApart("Vtwta", adapters.order, adapters.names, "Cont", name);
        FreshNameUnused("Cont", continuations.order, conts, t, name);
        HelpersAddContinuation(helpers, conts, adapters.names, t, name);
        HelperNamesAddContinuation(helpers, conts, adapters.names, t, name, ContinuationCode());
        helpers := helpers[name := ContinuationCode()];
      }
    }

    /**
      `ValueTypeWrapperTaskAdapter(taskType)`: the memoised `Vtwta{k}` that
      continues the returned task with the continuation for its result type.
     */
    method ValueTypeWrapperTaskAdapter(taskType: ClrType) returns (name: string)
      requires Valid() && |taskType.genericArgs| >= 1
      modifies this, continuations, adapters
      ensures Valid()
      ensures taskType in adapters.names && name == adapters.names[taskType]
      ensures taskType.genericArgs[0] in continuations.names
      ensures helpers[name] == AdapterCode(taskType, continuations.names[taskType.genericArgs[0]])
      ensures taskType in old(adapters.names) ==>
                adapters.names == old(adapters.names) && continuations.names == old(continuations.names) && helpers == old(helpers)
      ensures taskType !in old(adapters.names) ==>
                name == IndexedName("Vtwta", old(adapters.index)) && adapters.names == old(adapters.names)[taskType := name]
                && helpers == (if taskType.genericArgs[0] in old(continuations.names) then old(helpers)
                               else old(helpers)[continuations.names[taskType.genericArgs[0]] := ContinuationCode()])
                              [name := AdapterCode(taskType, continuations.names[taskType.genericArgs[0]])]
      ensures continuations.order == AddOnce(old(continuations.order), taskType.genericArgs[0])
      ensures adapters.order == AddOnce(old(adapters.order), taskType)
      ensures Grows(old(continuations.names), continuations.names)
      ensures opFields == old(opFields) && cctor == old(cctor) && methods == old(methods) && fieldIndex == old(fieldIndex)
    {
      if taskType in adapters.names {
        assert taskType in adapters.order && taskType.genericArgs[0] in continuations.order;
        return adapters.names[taskType];
      }
      var continuation := ValueTypeWrapperTaskContinuation(taskType.genericArgs[0]);
      name := DefineAdapter(taskType, continuation);
    }

    /** Registers `Vtwta{k}` for a task type not seen before, over its result type's continuation. */
    method DefineAdapter(taskType: ClrType, continuation: string) returns (name: string)
      requires Valid() && |taskType.genericArgs| >= 1 && taskType !in adapters.names
      requires taskType.genericArgs[0] in continuations.names && continuations.names[taskType.genericArgs[0]] == continuation
      modifies this, adapters
      ensures Valid()
      ensures name == IndexedName("Vtwta", old(adapters.index)) && adapters.names == old(adapters.names)[taskType := name]
      ensures adapters.order == old(adapters.order) + [taskType]
      ensures helpers == old(helpers)[name := AdapterCode(taskType, continuation)]
      ensures opFields == old(opFields) && cctor == old(cctor) && methods == old(methods) && fieldIndex == old(fieldIndex)
    {
      var added;
      ghost var adapted := adapters.names;
      name, added := adapters.GetOrAdd(taskType);
      TablesApart("Cont", continuations.order, continuations.names, "Vtwta", name);
      FreshNameUnused("Vtwta", adapters.order, adapted, taskType, name);
      HelpersAddAdapter(helpers, continuations.names, adapted, taskType, name);
      HelperNamesAddAdapter(helpers, continuations.names, adapted, taskType, name, AdapterCode(taskType, continuation));
      helpers := helpers[name := AdapterCode(taskType, continuation)];
    }

    /** The request-building code: the empty singleton, argument 1 (wrapped or not), or all data arguments packed. */
    static method EmitRequest(op: Operation, pTypes: seq<ClrType>) returns (il: seq<Instr>)
      requires |pTypes| < 0x1_0000
      ensures il == RequestCode(SelectRequest(op, pTypes))
    {
      if op.voidRequest {
        return [Ldsfld(EmptyInstance)];
      }
      if op.methodType == Unary || op.methodType == ServerStreaming {
        if |pTypes| > 1 {
          il := [];
          var i := 0;
          while i < |pTypes|
            invariant 0 <= i <= |pTypes|
            invariant il == LoadArgs(1, i)
          {
            il := il + [Ldarg(ToUInt16(i + 1))];
            i := i + 1;
          }
          var tuple := EmitTupleConstructor(pTypes);
          il := il + tuple.value.0;
        } else if |pTypes| == 1 && pTypes[0].isValueType {
          il := [Ldarg1, Newobj(WrapperCtor(pTypes[0]))];
        } else {
          il := [Ldarg1];
        }
      } else {
        il := [Ldarg1];
      }
    }

    /**
      The forwarding thunk for a method whose context is `NoContext` or
      `CallContext` and which has a client helper.
     */
    method EmitThunk(s: Slot, opField: string) returns (r: Result<seq<Instr>, ExceptionKind>)
      requires Valid() && BodyOf(s).Forward? && |s.imethod.paramTypes| < 0x1_0000
      modifies this, continuations, adapters
      ensures Valid()
      ensures r.Failure? <==> ReadsMissingArgument(s)
      ensures r.Failure? ==> r.error == IndexOutOfRangeException
      ensures r.Success? ==> Planned(s, r.value, opField, adapters.names)
      ensures continuations.order == ContinuationStep(old(continuations.order), s)
      ensures adapters.order == AdapterStep(old(adapters.order), s)
      ensures !AdaptsTask(s) ==>
                helpers == old(helpers) && continuations.names == old(continuations.names) && adapters.names == old(adapters.names)
      ensures Grows(old(continuations.names), continuations.names) && Grows(old(adapters.names), adapters.names)
      ensures opFields == old(opFields) && cctor == old(cctor) && methods == old(methods) && fieldIndex == old(fieldIndex)
    {
      var op := s.imethod.signature.value;
      var b := BodyOf(s);
      var pTypes := s.imethod.paramTypes;
      var il: seq<Instr>;
      if op.context == CallContext {
        il := [Ldarga(ToUInt16(|pTypes|))];
        pTypes := if |pTypes| > 0 then pTypes[..|pTypes| - 1] else [];
      } else {
        il := [Ldsflda(CallContextDefault)];
      }
      assert il == ContextCode(b.context);
      assert pTypes == DataParameters(op, s.imethod.paramTypes);
      il := il + [Ldarg0, Callvirt(CallInvokerGetter), Ldsfld(opField)];
      var request := EmitRequest(op, pTypes);
      il := il + request + [Ldnull, Call(ClientHelper(op.clientHelper.value))];
      var tail := EmitResult(s);
      if tail.Failure? {
        return Failure(tail.error);
      }
      il := il + tail.value + [Ret];
      r := Success(il);
    }

    /** The adaptation of a forwarding thunk's result to the method's return type. */
    method EmitResult(s: Slot) returns (r: Result<seq<Instr>, ExceptionKind>)
      requires Valid() && BodyOf(s).Forward?
      modifies this, continuations, adapters
      ensures Valid()
      ensures r.Failure? <==> ReadsMissingArgument(s)
      ensures r.Failure? ==> r.error == IndexOutOfRangeException
      ensures r.Success? ==> (BodyOf(s).result.AdaptTask? ==> BodyOf(s).result.taskType in adapters.names)
                             && r.value == ResultCode(BodyOf(s).result, AdapterNameFor(BodyOf(s), adapters.names))
      ensures continuations.order == ContinuationStep(old(continuations.order), s)
      ensures adapters.order == AdapterStep(old(adapters.order), s)
      ensures !AdaptsTask(s) ==>
                helpers == old(helpers) && continuations.names == old(continuations.names) && adapters.names == old(adapters.names)
      ensures Grows(old(continuations.names), continuations.names) && Grows(old(adapters.names), adapters.names)
      ensures opFields == old(opFields) && cctor == old(cctor) && methods == old(methods) && fieldIndex == old(fieldIndex)
    {
      var op := s.imethod.signature.value;
      var retType := s.imethod.returnType;
      if op.result == Sync && !op.voidResponse && retType.isValueType {
        r := Success([Ldfld("Value")]);
      } else if (op.result == Task || op.result == ValueTask) && !op.voidResponse {
        if |retType.genericArgs| == 0 {
          return Failure(IndexOutOfRangeException);
        }
        if retType.genericArgs[0].isValueType {
          var adapter := ValueTypeWrapperTaskAdapter(retType);
          r := Success([Call(ProxyMethod(adapter))]);
        } else {
          r := Success([]);
        }
      } else {
        r := Success([]);
      }
    }

    /**
      The `s_op_{i}` field of an identified operation of a service, and its
      block in `Init`: `Method<from, to>` built from the method type, the
      service name, the operation name and the two marshaller fields.
     */
    method DefineOperation(s: Slot) returns (field: string)
      requires Valid() && Classified(s)
      modifies this, marshallers
      ensures Valid()
      ensures field == OpFieldName(old(fieldIndex))
      ensures |opFields| == |old(opFields)| + 1 && opFields[..|old(opFields)|] == old(opFields)
      ensures DescribesOperation(opFields[|old(opFields)|], s)
      ensures marshallers.order == MarshallerStep(old(marshallers.order), s)
      ensures Grows(old(marshallers.names), marshallers.names)
      ensures methods == old(methods) && helpers == old(helpers)
    {
      var op := s.imethod.signature.value;
      var fromField := RegisterMarshaller(op.from);
      var toField := RegisterMarshaller(op.to);
      field := OpFieldName(fieldIndex);
      AppendOperation(OpField(field, op.methodType, s.iface.serviceName.value, op.name, op.from, op.to, fromField, toField));
    }

    /** `Marshaller(forType)`: the memoised `_m{k}` field for one payload type. */
    method RegisterMarshaller(t: ClrType) returns (field: string)
      requires Valid()
      modifies marshallers
      ensures Valid()
      ensures t in marshallers.names && marshallers.names[t] == field
      ensures marshallers.order == AddOnce(old(marshallers.order), t)
      ensures marshallers.names.Keys == old(marshallers.names.Keys) + {t}
      ensures Grows(old(marshallers.names), marshallers.names)
    {
      ghost var fields := marshallers.names;
      var added;
      field, added := marshallers.GetOrAdd(t);
      assert Grows(fields, marshallers.names);
      OpMarshallersGrow(opFields, fields, marshallers.names);
    }

    /** Declares the next operation field and appends its block to `Init`. */
    method AppendOperation(e: OpField)
      requires Valid() && e.field == OpFieldName(fieldIndex)
      requires e.from in marshallers.names && marshallers.names[e.from] == e.fromField
      requires e.to in marshallers.names && marshallers.names[e.to] == e.toField
      modifies this
      ensures Valid()
      ensures opFields == old(opFields) + [e] && fieldIndex == old(fieldIndex) + 1 && cctor == old(cctor) + InitBlock(e)
      ensures methods == old(methods) && helpers == old(helpers)
    {
      OpFieldsAppend(opFields, fieldIndex, cctor, marshallers.names, marshallers.names, e);
      fieldIndex := fieldIndex + 1;
      cctor := cctor + InitBlock(e);
      opFields := opFields + [e];
    }

    /** The body of an identified operation of a service, chosen by its context. */
    method EmitBody(s: Slot, field: string) returns (r: Result<seq<Instr>, ExceptionKind>)
      requires Valid() && Classified(s) && |s.imethod.paramTypes| < 0x1_0000
      modifies this, continuations, adapters
      ensures Valid()
      ensures r.Failure? <==> ReadsMissingArgument(s)
      ensures r.Failure? ==> r.error == IndexOutOfRangeException
      ensures r.Success? ==> Planned(s, r.value, field, adapters.names)
      ensures continuations.order == ContinuationStep(old(continuations.order), s)
      ensures adapters.order == AdapterStep(old(adapters.order), s)
      ensures !AdaptsTask(s) ==>
                helpers == old(helpers) && continuations.names == old(continuations.names) && adapters.names == old(adapters.names)
      ensures Grows(old(continuations.names), continuations.names) && Grows(old(adapters.names), adapters.names)
      ensures opFields == old(opFields) && cctor == old(cctor) && methods == old(methods) && fieldIndex == old(fieldIndex)
    {
      var op := s.imethod.signature.value;
      match op.context {
        case CallOptions =>
          r := Success(ThrowCode(NotImplementedException));
        case NoContext =>
          if op.clientHelper.None? {
            r := Success(ThrowCode(NotSupportedException));
          } else {
            r := EmitThunk(s, field);
          }
        case CallContext =>
          if op.clientHelper.None? {
            r := Success(ThrowCode(NotSupportedException));
          } else {
            r := EmitThunk(s, field);
          }
        case ServerCallContext =>
          r := Success(ThrowCode(NotSupportedException));
        case OtherContext =>
          r := Success(ThrowCode(NotSupportedException));
      }
    }

    /**
      One interface method: a throwing body, or (for an identified
      operation of a service) its `s_op_{i}` field, its `Init` block and
      the body its context calls for.
     */
    method EmitMethod(iface: ContractInterface, m: InterfaceMethod) returns (ok: bool)
      requires Valid() && |m.paramTypes| < 0x1_0000
      modifies this, marshallers, continuations, adapters
      ensures Valid()
      ensures ok <==> !ReadsMissingArgument(Slot(iface, m))
      ensures ok ==> |methods| == |old(methods)| + 1 && methods[..|old(methods)|] == old(methods)
                     && methods[|old(methods)|].name == ImplName(Slot(iface, m))
                     && Planned(Slot(iface, m), methods[|old(methods)|].code, OpFieldName(old(fieldIndex)), adapters.names)
      ensures Classified(Slot(iface, m)) ==>
                |opFields| == |old(opFields)| + 1 && opFields[..|old(opFields)|] == old(opFields)
                && DescribesOperation(opFields[|old(opFields)|], Slot(iface, m))
      ensures !Classified(Slot(iface, m)) ==> opFields == old(opFields)
      ensures marshallers.order == MarshallerStep(old(marshallers.order), Slot(iface, m))
      ensures continuations.order == ContinuationStep(old(continuations.order), Slot(iface, m))
      ensures adapters.order == AdapterStep(old(adapters.order), Slot(iface, m))
      ensures !AdaptsTask(Slot(iface, m)) ==> helpers == old(helpers)
      ensures Grows(old(marshallers.names), marshallers.names)
      ensures Grows(old(continuations.names), continuations.names) && Grows(old(adapters.names), adapters.names)
    {
      var s := Slot(iface, m);
      if !(iface.serviceName.Some? && m.signature.Some?) {
        methods := methods + [EmittedMethod(ImplName(s), ThrowCode(NotSupportedException))];
        return true;
      }
      var field := DefineOperation(s);
      var r := EmitBody(s, field);
      if r.Failure? {
        return false;
      }
      methods := methods + [EmittedMethod(ImplName(s), r.value)];
      ok := true;
    }
  }
}
