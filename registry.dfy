/**
  The memo tables `CreateFactory` keeps while it builds a proxy type: a
  dictionary from a type to the member defined for it, and the counter that
  names the next member (`_m{k}` marshaller fields, `Cont{k}` continuations,
  `Vtwta{k}` adapters).
 */
module Registries {
  import opened Naming
  import opened Il

  /**
    The table's contents as values: `order` lists its keys as they were
    added, each key once, and the `k`-th key is named `prefix + k`.
   */
  ghost predicate Memo(prefix: string, order: seq<ClrType>, names: map<ClrType, string>) {
    (forall i, j :: 0 <= i < j < |order| ==> order[i] != order[j])
    && (forall t :: t in names <==> t in order)
    && (forall k :: 0 <= k < |order| ==> order[k] in names && names[order[k]] == IndexedName(prefix, k))
  }

  /** Different types get different members. */
  lemma MemoNamesDistinct(prefix: string, order: seq<ClrType>, names: map<ClrType, string>)
    requires Memo(prefix, order, names)
    ensures forall a, b :: a in names && b in names && a != b ==> names[a] != names[b]
  {
    forall a, b | a in names && b in names && a != b
      ensures names[a] != names[b]
    {
      var i :| 0 <= i < |order| && order[i] == a;
      var j :| 0 <= j < |order| && order[j] == b;
      IndexedNamesDistinct(prefix, i, j);
    }
  }

  /** Adding an unseen type under the next counter value keeps the table well formed. */
  lemma MemoAdd(prefix: string, order: seq<ClrType>, names: map<ClrType, string>, t: ClrType)
    requires Memo(prefix, order, names) && t !in names
    ensures Memo(prefix, order + [t], names[t := IndexedName(prefix, |order|)])
  {
    var order' := order + [t];
    var names' := names[t := IndexedName(prefix, |order|)];
    forall k | 0 <= k < |order'|
      ensures order'[k] in names' && names'[order'[k]] == IndexedName(prefix, k)
    {
      if k < |order| {
        assert order'[k] == order[k] && order[k] in names;
      }
    }
    forall u
      ensures u in names' <==> u in order'
    {
      assert u in order' <==> u in order || u == t;
    }
  }

  /** The keys after asking the table for `t`: `t` is appended unless it is already there. */
  function AddOnce(order: seq<ClrType>, t: ClrType): (r: seq<ClrType>)
    ensures t in r
    ensures forall u :: u in r <==> u in order || u == t
    ensures t in order ==> r == order
  {
    if t in order then order else order + [t]
  }

  /** The distinct types of `uses`, each where it first occurs: the keys of a table asked for `uses` in turn. */
  function Dedupe(uses: seq<ClrType>): seq<ClrType>
    decreases |uses|
  {
    if uses == [] then [] else AddOnce(Dedupe(uses[..|uses| - 1]), uses[|uses| - 1])
  }

  /** A table asked for `uses` holds each type asked for, once, and nothing else. */
  lemma {:induction false} DedupeMeans(uses: seq<ClrType>)
    ensures forall t :: t in Dedupe(uses) <==> t in uses
    ensures forall i, j :: 0 <= i < j < |Dedupe(uses)| ==> Dedupe(uses)[i] != Dedupe(uses)[j]
    decreases |uses|
  {
    if uses != [] {
      var front := uses[..|uses| - 1];
      var last := uses[|uses| - 1];
      DedupeMeans(front);
      assert front + [last] == uses;
      forall t ensures t in uses <==> t in front || t == last {
        if t in uses {
          var i :| 0 <= i < |uses| && uses[i] == t;
          if i < |uses| - 1 { assert front[i] == t; }
        }
      }
    }
  }

  /** Asking for the uses one more at a time extends the keys by `AddOnce`. */
  lemma {:induction false} DedupeSnoc(uses: seq<ClrType>, t: ClrType)
    ensures Dedupe(uses + [t]) == AddOnce(Dedupe(uses), t)
  {
    assert (uses + [t])[..|uses|] == uses;
  }

  /** The key order determines the whole table. */
  lemma MemoDetermined(prefix: string, order: seq<ClrType>, a: map<ClrType, string>, b: map<ClrType, string>)
    requires Memo(prefix, order, a) && Memo(prefix, order, b)
    ensures a == b
  {
    forall t | t in a ensures t in b && a[t] == b[t] {
      var k :| 0 <= k < |order| && order[k] == t;
    }
    assert a.Keys == b.Keys;
  }

  /** One memo table: `Dictionary<Type, ...>` and its index counter. */
  class Registry {
    const prefix: string
    var names: map<ClrType, string>
    var order: seq<ClrType>     // the dictionary's keys in insertion order
    var index: nat

    ghost predicate Valid()
      reads this
    {
      Memo(prefix, order, names) && index == |order|
    }

    constructor (prefix: string)
      ensures Valid() && this.prefix == prefix
      ensures names == map[] && order == [] && index == 0
    {
      this.prefix := prefix;
      names := map[];
      order := [];
      index := 0;
    }

    /**
      `TryGetValue`, or a new member `prefix + index++` added to the table.
      A type seen before gets its member back and nothing changes.
     */
    method GetOrAdd(t: ClrType) returns (name: string, added: bool)
      requires Valid()
      modifies this
      ensures Valid()
      ensures added <==> t !in old(names)
      ensures !added ==> name == old(names)[t] && names == old(names) && order == old(order) && index == old(index)
      ensures added ==> name == IndexedName(prefix, old(index)) && order == old(order) + [t]
                        && names == old(names)[t := name] && index == old(index) + 1
      ensures t in names && names[t] == name
      ensures order == AddOnce(old(order), t)
    {
      if t in names {
        return names[t], false;
      }
      MemoAdd(prefix, order, names, t);
      name := IndexedName(prefix, index);
      index := index + 1;
      names := names[t := name];
      order := order + [t];
      added := true;
    }
  }
}
