/** What the two-key index means: a set of triples in which each key of either kind names at
    most one triple. */
module MultiMapSpec {
  import opened Wrappers

  datatype Item<K1, K2, V> = Item(k1: K1, k2: K2, v: V)

  ghost predicate PartialBijection<K1, K2, V>(ts: set<Item<K1, K2, V>>) {
    forall a, b :: a in ts && b in ts && (a.k1 == b.k1 || a.k2 == b.k2) ==> a == b
  }

  ghost predicate Has1<K1, K2, V>(ts: set<Item<K1, K2, V>>, k1: K1) {
    exists t :: t in ts && t.k1 == k1
  }

  ghost predicate Has2<K1, K2, V>(ts: set<Item<K1, K2, V>>, k2: K2) {
    exists t :: t in ts && t.k2 == k2
  }

  ghost predicate Accepts<K1, K2, V>(ts: set<Item<K1, K2, V>>, k1: K1, k2: K2) {
    !Has1(ts, k1) && !Has2(ts, k2)
  }

  ghost function Insert<K1, K2, V>(ts: set<Item<K1, K2, V>>, t: Item<K1, K2, V>): set<Item<K1, K2, V>> {
    if Accepts(ts, t.k1, t.k2) then ts + {t} else ts
  }

  ghost function Lookup1<K1, K2, V>(ts: set<Item<K1, K2, V>>, k1: K1): Option<V> {
    if Has1(ts, k1) then var t :| t in ts && t.k1 == k1; Some(t.v) else None
  }

  ghost function Lookup2<K1, K2, V>(ts: set<Item<K1, K2, V>>, k2: K2): Option<V> {
    if Has2(ts, k2) then var t :| t in ts && t.k2 == k2; Some(t.v) else None
  }

  ghost function Without1<K1, K2, V>(ts: set<Item<K1, K2, V>>, k1: K1): set<Item<K1, K2, V>> {
    set t | t in ts && t.k1 != k1
  }

  ghost function Without2<K1, K2, V>(ts: set<Item<K1, K2, V>>, k2: K2): set<Item<K1, K2, V>> {
    set t | t in ts && t.k2 != k2
  }

  ghost function Put1<K1, K2, V>(ts: set<Item<K1, K2, V>>, k1: K1, v: V): set<Item<K1, K2, V>> {
    set t | t in ts :: if t.k1 == k1 then t.(v := v) else t
  }

  ghost function Put2<K1, K2, V>(ts: set<Item<K1, K2, V>>, k2: K2, v: V): set<Item<K1, K2, V>> {
    set t | t in ts :: if t.k2 == k2 then t.(v := v) else t
  }

  /** In a bijection a lookup by either key of a triple finds that triple's value. */
  lemma LookupFinds<K1, K2, V>(ts: set<Item<K1, K2, V>>, t: Item<K1, K2, V>)
    requires PartialBijection(ts) && t in ts
    ensures Lookup1(ts, t.k1) == Some(t.v) && Lookup2(ts, t.k2) == Some(t.v)
  {
    assert Has1(ts, t.k1) && Has2(ts, t.k2);
  }

  /** The operations of one call on the index. */
  datatype Op<K1, K2, V> =
    | InsertOp(k1: K1, k2: K2, v: V)
    | Get1Op(k1: K1)
    | Get2Op(k2: K2)
    | Set1Op(k1: K1, v: V)
    | Set2Op(k2: K2, v: V)
    | Remove1Op(k1: K1)
    | Remove2Op(k2: K2)

  datatype Reply<V> = Inserted(ok: bool) | Found(v: Option<V>)

  ghost function After<K1, K2, V>(ts: set<Item<K1, K2, V>>, op: Op<K1, K2, V>): set<Item<K1, K2, V>> {
    match op
    case InsertOp(k1, k2, v) => Insert(ts, Item(k1, k2, v))
    case Get1Op(_) => ts
    case Get2Op(_) => ts
    case Set1Op(k1, v) => Put1(ts, k1, v)
    case Set2Op(k2, v) => Put2(ts, k2, v)
    case Remove1Op(k1) => Without1(ts, k1)
    case Remove2Op(k2) => Without2(ts, k2)
  }

  /** An update and a removal answer with the value they found. */
  ghost function Answer<K1, K2, V>(ts: set<Item<K1, K2, V>>, op: Op<K1, K2, V>): Reply<V> {
    match op
    case InsertOp(k1, k2, _) => Inserted(Accepts(ts, k1, k2))
    case Get1Op(k1) => Found(Lookup1(ts, k1))
    case Get2Op(k2) => Found(Lookup2(ts, k2))
    case Set1Op(k1, _) => Found(Lookup1(ts, k1))
    case Set2Op(k2, _) => Found(Lookup2(ts, k2))
    case Remove1Op(k1) => Found(Lookup1(ts, k1))
    case Remove2Op(k2) => Found(Lookup2(ts, k2))
  }

  ghost function AfterAll<K1, K2, V>(ts: set<Item<K1, K2, V>>, ops: seq<Op<K1, K2, V>>): set<Item<K1, K2, V>> {
    if ops == [] then ts else After(AfterAll(ts, ops[..|ops| - 1]), ops[|ops| - 1])
  }

  ghost function Answers<K1, K2, V>(ts: set<Item<K1, K2, V>>, ops: seq<Op<K1, K2, V>>): seq<Reply<V>> {
    if ops == [] then []
    else
      var before := ops[..|ops| - 1];
      Answers(ts, before) + [Answer(AfterAll(ts, before), ops[|ops| - 1])]
  }

  lemma StepKeepsBijection<K1, K2, V>(ts: set<Item<K1, K2, V>>, op: Op<K1, K2, V>)
    requires PartialBijection(ts)
    ensures PartialBijection(After(ts, op))
  {
    if op.InsertOp? {
      assert forall t :: t in ts ==> Has1(ts, t.k1) && Has2(ts, t.k2);
    }
  }

  /** Whatever the calls, the index stays a partial bijection. */
  lemma {:induction false} RunKeepsBijection<K1, K2, V>(ts: set<Item<K1, K2, V>>, ops: seq<Op<K1, K2, V>>)
    requires PartialBijection(ts)
    ensures PartialBijection(AfterAll(ts, ops))
  {
    if ops == [] {
    } else {
      RunKeepsBijection(ts, ops[..|ops| - 1]);
      StepKeepsBijection(AfterAll(ts, ops[..|ops| - 1]), ops[|ops| - 1]);
    }
  }

  /** The two keys of a triple are interchangeable: removing or updating through either one
      gives the same index, and an update through one key is what the other key then finds. */
  lemma KeysAreInterchangeable<K1, K2, V>(ts: set<Item<K1, K2, V>>, t: Item<K1, K2, V>, v: V)
    requires PartialBijection(ts) && t in ts
    ensures Without1(ts, t.k1) == Without2(ts, t.k2) == ts - {t}
    ensures Put1(ts, t.k1, v) == Put2(ts, t.k2, v) == ts - {t} + {t.(v := v)}
    ensures Lookup2(Put1(ts, t.k1, v), t.k2) == Some(v) == Lookup1(Put2(ts, t.k2, v), t.k1)
  {
    var after := ts - {t} + {t.(v := v)};
    forall x ensures x in Put1(ts, t.k1, v) <==> x in after {
    }
    forall x ensures x in Put2(ts, t.k2, v) <==> x in after {
    }
    assert Put1(ts, t.k1, v) == after && Put2(ts, t.k2, v) == after;
    LookupFinds(after, t.(v := v));
  }

  /** An accepted insertion is undone by removing through either key. */
  lemma RemoveUndoesInsert<K1, K2, V>(ts: set<Item<K1, K2, V>>, t: Item<K1, K2, V>)
    requires Accepts(ts, t.k1, t.k2)
    ensures Without1(Insert(ts, t), t.k1) == ts == Without2(Insert(ts, t), t.k2)
  {
    assert forall x :: x in ts ==> Has1(ts, x.k1) && Has2(ts, x.k2);
  }
}
