/** src/multi_map.rs: two hash tables of raw pointers into heap boxes. The heap is explicit, so
    that a dereference of a dead box, a double free or a leak would not verify. */
module MultiMap {
  import opened Wrappers
  import opened MultiMapSpec

  /** The address of a box. The model never reuses one. */
  type Ptr = nat

  /** A table entry: `Key` points at the key field inside a box, `RawItem` at the box. */
  datatype Slot = Slot(key: Ptr, item: Ptr)

  /** HashMap::get compares keys by dereferencing the stored key pointers, so all of those
      have to be allocated. `keys` is the key field of every allocated box. */
  function Probe<K(==)>(keys: map<Ptr, K>, table: seq<Slot>, k: K): (r: Option<nat>)
    requires forall s :: s in table ==> s.key in keys
    ensures r.Some? ==> r.value < |table| && keys[table[r.value].key] == k
    ensures r.None? ==> forall s :: s in table ==> keys[s.key] != k
  {
    if table == [] then None
    else if keys[table[0].key] == k then Some(0)
    else
      match Probe(keys, table[1..], k)
      case None => None
      case Some(i) => Some(i + 1)
  }

  function RemoveAt(table: seq<Slot>, i: nat): (r: seq<Slot>)
    requires i < |table|
    ensures |r| == |table| - 1
    ensures forall j :: 0 <= j < |r| ==> r[j] == table[if j < i then j else j + 1]
  {
    table[..i] + table[i + 1..]
  }

  /** `table` reaches every allocated box exactly once, each under its own key. */
  ghost predicate Indexes<K>(keys: map<Ptr, K>, table: seq<Slot>) {
    && (forall i :: 0 <= i < |table| ==> table[i].key == table[i].item && table[i].item in keys)
    && (forall p :: p in keys ==> exists i :: 0 <= i < |table| && table[i].item == p)
    && (forall i, j :: 0 <= i < |table| && 0 <= j < |table| && keys[table[i].key] == keys[table[j].key] ==> i == j)
  }

  lemma IndexesAfterInsert<K>(keys: map<Ptr, K>, table: seq<Slot>, p: Ptr, k: K)
    requires Indexes(keys, table) && p !in keys
    requires forall s :: s in table ==> s.key in keys && keys[s.key] != k
    ensures Indexes(keys[p := k], table + [Slot(p, p)])
  {
    var keys', table' := keys[p := k], table + [Slot(p, p)];
    forall q | q in keys' ensures exists i :: 0 <= i < |table'| && table'[i].item == q {
      if q == p {
        assert table'[|table|].item == p;
      } else {
        var i :| 0 <= i < |table| && table[i].item == q;
        assert table'[i].item == q;
      }
    }
    assert forall i :: 0 <= i < |table| ==> table[i] in table;
  }

  lemma IndexesAfterRemove<K>(keys: map<Ptr, K>, table: seq<Slot>, i: nat)
    requires Indexes(keys, table) && i < |table|
    ensures Indexes(keys - {table[i].item}, RemoveAt(table, i))
  {
    var keys', table' := keys - {table[i].item}, RemoveAt(table, i);
    forall q | q in keys' ensures exists j :: 0 <= j < |table'| && table'[j].item == q {
      var j :| 0 <= j < |table| && table[j].item == q;
      assert table'[if j < i then j else j - 1].item == q;
    }
  }

  /** An entry with the key of a box is the entry of that box. */
  lemma ProbeFindsBox<K>(keys: map<Ptr, K>, table: seq<Slot>, p: Ptr)
    requires Indexes(keys, table) && p in keys
    ensures var r := Probe(keys, table, keys[p]); r.Some? && table[r.value].item == p
  {
    var i :| 0 <= i < |table| && table[i].item == p;
    assert table[i] in table;
  }

  // ---- the two tables over one heap ----

  type Heap<K1, K2, V> = map<Ptr, Item<K1, K2, V>>

  function Keys1<K1, K2, V>(heap: Heap<K1, K2, V>): map<Ptr, K1> {
    map p | p in heap :: heap[p].k1
  }

  function Keys2<K1, K2, V>(heap: Heap<K1, K2, V>): map<Ptr, K2> {
    map p | p in heap :: heap[p].k2
  }

  ghost function TriplesOf<K1, K2, V>(heap: Heap<K1, K2, V>): set<Item<K1, K2, V>> {
    set p | p in heap :: heap[p]
  }

  /** Both tables reach exactly the allocated boxes, each under its own keys. */
  ghost predicate Consistent<K1, K2, V>(heap: Heap<K1, K2, V>, map1: seq<Slot>, map2: seq<Slot>) {
    Indexes(Keys1(heap), map1) && Indexes(Keys2(heap), map2)
  }

  lemma KeysSeparateBoxes<K1, K2, V>(heap: Heap<K1, K2, V>, map1: seq<Slot>, map2: seq<Slot>)
    requires Consistent(heap, map1, map2)
    ensures forall p, q :: p in heap && q in heap && (heap[p].k1 == heap[q].k1 || heap[p].k2 == heap[q].k2) ==> p == q
    ensures PartialBijection(TriplesOf(heap))
  {
    forall p, q | p in heap && q in heap && (heap[p].k1 == heap[q].k1 || heap[p].k2 == heap[q].k2)
      ensures p == q
    {
      assert p in Keys1(heap) && q in Keys1(heap) && p in Keys2(heap) && q in Keys2(heap);
      if heap[p].k1 == heap[q].k1 {
        ProbeFindsBox(Keys1(heap), map1, p);
        ProbeFindsBox(Keys1(heap), map1, q);
      } else {
        ProbeFindsBox(Keys2(heap), map2, p);
        ProbeFindsBox(Keys2(heap), map2, q);
      }
    }
  }

  /** A probe that fails means the key is in no triple; one that succeeds has found its box. */
  lemma Probe1IsLookup<K1, K2, V>(heap: Heap<K1, K2, V>, map1: seq<Slot>, map2: seq<Slot>, k1: K1)
    requires Consistent(heap, map1, map2)
    ensures match Probe(Keys1(heap), map1, k1)
            case None => !Has1(TriplesOf(heap), k1)
            case Some(i) => heap[map1[i].item].k1 == k1 && heap[map1[i].item] in TriplesOf(heap)
  {
    if Has1(TriplesOf(heap), k1) {
      var p :| p in heap && heap[p].k1 == k1;
      ProbeFindsBox(Keys1(heap), map1, p);
    }
  }

  lemma Probe2IsLookup<K1, K2, V>(heap: Heap<K1, K2, V>, map1: seq<Slot>, map2: seq<Slot>, k2: K2)
    requires Consistent(heap, map1, map2)
    ensures match Probe(Keys2(heap), map2, k2)
            case None => !Has2(TriplesOf(heap), k2)
            case Some(i) => heap[map2[i].item].k2 == k2 && heap[map2[i].item] in TriplesOf(heap)
  {
    if Has2(TriplesOf(heap), k2) {
      var p :| p in heap && heap[p].k2 == k2;
      ProbeFindsBox(Keys2(heap), map2, p);
    }
  }

  lemma AfterInsert<K1, K2, V>(heap: Heap<K1, K2, V>, map1: seq<Slot>, map2: seq<Slot>, p: Ptr, t: Item<K1, K2, V>)
    requires Consistent(heap, map1, map2) && p !in heap && Accepts(TriplesOf(heap), t.k1, t.k2)
    ensures Consistent(heap[p := t], map1 + [Slot(p, p)], map2 + [Slot(p, p)])
    ensures TriplesOf(heap[p := t]) == TriplesOf(heap) + {t}
  {
    assert forall q :: q in heap ==> heap[q] in TriplesOf(heap);
    assert Keys1(heap[p := t]) == Keys1(heap)[p := t.k1];
    assert Keys2(heap[p := t]) == Keys2(heap)[p := t.k2];
    IndexesAfterInsert(Keys1(heap), map1, p, t.k1);
    IndexesAfterInsert(Keys2(heap), map2, p, t.k2);
    forall x ensures x in TriplesOf(heap[p := t]) <==> x in TriplesOf(heap) + {t} {
      if x in TriplesOf(heap) {
        var q :| q in heap && heap[q] == x;
        assert heap[p := t][q] == x;
      }
      assert heap[p := t][p] == t;
    }
  }

  lemma TriplesAfterFree<K1, K2, V>(heap: Heap<K1, K2, V>, p: Ptr)
    requires p in heap && forall q :: q in heap && heap[q] == heap[p] ==> q == p
    ensures TriplesOf(heap - {p}) == TriplesOf(heap) - {heap[p]}
  {
    forall x ensures x in TriplesOf(heap - {p}) <==> x in TriplesOf(heap) - {heap[p]} {
      if x in TriplesOf(heap) {
        var q :| q in heap && heap[q] == x;
        assert q != p ==> (heap - {p})[q] == x;
      }
    }
  }

  lemma TriplesAfterStore<K1, K2, V>(heap: Heap<K1, K2, V>, p: Ptr, t: Item<K1, K2, V>)
    requires p in heap && forall q :: q in heap && heap[q] == heap[p] ==> q == p
    ensures TriplesOf(heap[p := t]) == TriplesOf(heap) - {heap[p]} + {t}
  {
    forall x ensures x in TriplesOf(heap[p := t]) <==> x in TriplesOf(heap) - {heap[p]} + {t} {
      if x in TriplesOf(heap) {
        var q :| q in heap && heap[q] == x;
        assert q != p ==> heap[p := t][q] == x;
      }
      assert heap[p := t][p] == t;
    }
  }

  /** Taking the entries of one box out of both tables and freeing it removes its triple,
      which is what removing by either of its keys means. */
  lemma AfterRemove<K1, K2, V>(heap: Heap<K1, K2, V>, map1: seq<Slot>, map2: seq<Slot>, i: nat, j: nat)
    requires Consistent(heap, map1, map2)
    requires i < |map1| && j < |map2| && map1[i].item == map2[j].item
    ensures var p := map1[i].item;
            && Consistent(heap - {p}, RemoveAt(map1, i), RemoveAt(map2, j))
            && TriplesOf(heap - {p}) == Without1(TriplesOf(heap), heap[p].k1) == Without2(TriplesOf(heap), heap[p].k2)
  {
    var p := map1[i].item;
    KeysSeparateBoxes(heap, map1, map2);
    TriplesAfterFree(heap, p);
    KeysAreInterchangeable(TriplesOf(heap), heap[p], heap[p].v);
    assert Keys1(heap - {p}) == Keys1(heap) - {p};
    assert Keys2(heap - {p}) == Keys2(heap) - {p};
    IndexesAfterRemove(Keys1(heap), map1, i);
    IndexesAfterRemove(Keys2(heap), map2, j);
  }

  /** Writing a value through a box changes its triple alone, and neither table. */
  lemma AfterStore<K1, K2, V>(heap: Heap<K1, K2, V>, map1: seq<Slot>, map2: seq<Slot>, p: Ptr, v: V)
    requires Consistent(heap, map1, map2) && p in heap
    ensures var t := heap[p];
            && Consistent(heap[p := t.(v := v)], map1, map2)
            && TriplesOf(heap[p := t.(v := v)]) == Put1(TriplesOf(heap), t.k1, v) == Put2(TriplesOf(heap), t.k2, v)
  {
    var t, t' := heap[p], heap[p].(v := v);
    KeysSeparateBoxes(heap, map1, map2);
    TriplesAfterStore(heap, p, t');
    assert t in TriplesOf(heap);
    KeysAreInterchangeable(TriplesOf(heap), t, v);
    SameKeys(heap, p, t');
  }

  lemma SameKeys<K1, K2, V>(heap: Heap<K1, K2, V>, p: Ptr, t: Item<K1, K2, V>)
    requires p in heap && heap[p].k1 == t.k1 && heap[p].k2 == t.k2
    ensures Keys1(heap[p := t]) == Keys1(heap) && Keys2(heap[p := t]) == Keys2(heap)
  {
  }

  // ---- what a call does, given what its first probe found ----

  lemma InsertCorrect<K1, K2, V>(heap: Heap<K1, K2, V>, map1: seq<Slot>, map2: seq<Slot>, p: Ptr, t: Item<K1, K2, V>)
    requires Consistent(heap, map1, map2) && p !in heap
    ensures Accepts(TriplesOf(heap), t.k1, t.k2) <==>
              Probe(Keys1(heap), map1, t.k1).None? && Probe(Keys2(heap), map2, t.k2).None?
    ensures Accepts(TriplesOf(heap), t.k1, t.k2) ==>
              && Consistent(heap[p := t], map1 + [Slot(p, p)], map2 + [Slot(p, p)])
              && TriplesOf(heap[p := t]) == MultiMapSpec.Insert(TriplesOf(heap), t)
  {
    Probe1IsLookup(heap, map1, map2, t.k1);
    Probe2IsLookup(heap, map1, map2, t.k2);
    if Accepts(TriplesOf(heap), t.k1, t.k2) {
      AfterInsert(heap, map1, map2, p, t);
    }
  }

  /** `slots` holds each of these boxes exactly once, and no other. */
  ghost predicate ReachesOnce(boxes: set<Ptr>, slots: seq<Slot>) {
    && (forall i :: 0 <= i < |slots| ==> slots[i].item in boxes)
    && (forall i, j :: 0 <= i < j < |slots| ==> slots[i].item != slots[j].item)
    && (forall p :: p in boxes ==> exists i :: 0 <= i < |slots| && slots[i].item == p)
  }

  lemma DrainOne(boxes: set<Ptr>, slots: seq<Slot>)
    requires ReachesOnce(boxes, slots) && slots != []
    ensures slots[0].item in boxes && ReachesOnce(boxes - {slots[0].item}, slots[1..])
  {
    forall p | p in boxes - {slots[0].item} ensures exists i :: 0 <= i < |slots[1..]| && slots[1..][i].item == p {
      var i :| 0 <= i < |slots| && slots[i].item == p;
      assert slots[1..][i - 1].item == p;
    }
  }

  class MultiMap<K1(==), K2(==), V(==)> {
    var map1: seq<Slot>
    var map2: seq<Slot>
    // the allocator: live boxes, the next address, and every free in order
    var heap: Heap<K1, K2, V>
    var next: Ptr
    var freed: seq<Ptr>

    /** Every address below `next` is either live or was freed, and none was freed twice. */
    ghost predicate HeapOk()
      reads this
    {
      && (forall p: Ptr :: p < next <==> p in heap || p in freed)
      && (forall p: Ptr :: p in freed ==> p !in heap)
      && (forall i, j :: 0 <= i < j < |freed| ==> freed[i] != freed[j])
    }

    ghost predicate Valid()
      reads this
    {
      HeapOk() && Consistent(heap, map1, map2)
    }

    ghost function Triples(): set<Item<K1, K2, V>>
      reads this
    {
      TriplesOf(heap)
    }

    constructor ()
      ensures Valid() && Triples() == {} && next == 0 && freed == []
    {
      map1, map2, heap, next, freed := [], [], map[], 0, [];
    }

    method Alloc(item: Item<K1, K2, V>) returns (p: Ptr)
      requires HeapOk()
      modifies `heap, `next
      ensures HeapOk() && p == old(next) && next == p + 1 && p !in old(heap) && heap == old(heap)[p := item]
    {
      p := next;
      heap := heap[p := item];
      next := next + 1;
    }

    /** Dropping a box; it has to be live. */
    method Free(p: Ptr)
      requires HeapOk() && p in heap
      modifies `heap, `freed
      ensures HeapOk() && heap == old(heap) - {p} && freed == old(freed) + [p]
    {
      heap := heap - {p};
      freed := freed + [p];
    }

    /** A refusal hands the arguments back. */
    method Insert(k1: K1, k2: K2, v: V) returns (r: Result<(), Item<K1, K2, V>>)
      requires Valid()
      modifies this
      ensures Valid()
      ensures r == if Accepts(old(Triples()), k1, k2) then Ok(()) else Err(Item(k1, k2, v))
      ensures Triples() == MultiMapSpec.Insert(old(Triples()), Item(k1, k2, v))
      ensures r.Err? ==> unchanged(this)
      ensures next == old(next) + if r.Ok? then 1 else 0
    {
      InsertCorrect(heap, map1, map2, next, Item(k1, k2, v));
      if Probe(Keys1(heap), map1, k1).Some? || Probe(Keys2(heap), map2, k2).Some? {
        return Err(Item(k1, k2, v));
      }
      var item := Alloc(Item(k1, k2, v));
      map1 := map1 + [Slot(item, item)];
      map2 := map2 + [Slot(item, item)];
      r := Ok(());
    }

    method Get1(k1: K1) returns (r: Option<V>)
      requires Valid()
      ensures r == Lookup1(Triples(), k1)
    {
      Probe1IsLookup(heap, map1, map2, k1);
      KeysSeparateBoxes(heap, map1, map2);
      var at := Probe(Keys1(heap), map1, k1);
      if at.None? {
        return None;
      }
      r := Some(heap[map1[at.value].item].v);
      LookupFinds(Triples(), heap[map1[at.value].item]);
    }

    method Get2(k2: K2) returns (r: Option<V>)
      requires Valid()
      ensures r == Lookup2(Triples(), k2)
    {
      Probe2IsLookup(heap, map1, map2, k2);
      KeysSeparateBoxes(heap, map1, map2);
      var at := Probe(Keys2(heap), map2, k2);
      if at.None? {
        return None;
      }
      r := Some(heap[map2[at.value].item].v);
      LookupFinds(Triples(), heap[map2[at.value].item]);
    }

    /** The reference is the address of the box; assignments through it are calls of Store. */
    method Get1Mut(k1: K1) returns (r: Option<Ptr>)
      requires Valid()
      ensures r.Some? <==> Has1(Triples(), k1)
      ensures r.Some? ==> r.value in heap && heap[r.value].k1 == k1
    {
      Probe1IsLookup(heap, map1, map2, k1);
      var at := Probe(Keys1(heap), map1, k1);
      r := if at.Some? then Some(map1[at.value].item) else None;
    }

    method Get2Mut(k2: K2) returns (r: Option<Ptr>)
      requires Valid()
      ensures r.Some? <==> Has2(Triples(), k2)
      ensures r.Some? ==> r.value in heap && heap[r.value].k2 == k2
    {
      Probe2IsLookup(heap, map1, map2, k2);
      var at := Probe(Keys2(heap), map2, k2);
      r := if at.Some? then Some(map2[at.value].item) else None;
    }

    /** An assignment through a reference to a live value; the reference stays good. */
    method Store(p: Ptr, v: V)
      requires Valid() && p in heap
      modifies `heap
      ensures Valid()
      ensures heap == old(heap)[p := old(heap)[p].(v := v)]
      ensures Triples() == Put1(old(Triples()), heap[p].k1, v) == Put2(old(Triples()), heap[p].k2, v)
    {
      AfterStore(heap, map1, map2, p, v);
      heap := heap[p := heap[p].(v := v)];
    }

    /** `get1_mut`, a look at the value, and one assignment. */
    method Set1(k1: K1, v: V) returns (r: Option<V>)
      requires Valid()
      modifies `heap
      ensures Valid()
      ensures r == Lookup1(old(Triples()), k1)
      ensures Triples() == Put1(old(Triples()), k1, v)
    {
      var p := Get1Mut(k1);
      if p.None? {
        AbsentKey1(Triples(), k1, v);
        return None;
      }
      KeysSeparateBoxes(heap, map1, map2);
      LookupFinds(Triples(), heap[p.value]);
      r := Some(heap[p.value].v);
      Store(p.value, v);
    }

    method Set2(k2: K2, v: V) returns (r: Option<V>)
      requires Valid()
      modifies `heap
      ensures Valid()
      ensures r == Lookup2(old(Triples()), k2)
      ensures Triples() == Put2(old(Triples()), k2, v)
    {
      var p := Get2Mut(k2);
      if p.None? {
        AbsentKey2(Triples(), k2, v);
        return None;
      }
      KeysSeparateBoxes(heap, map1, map2);
      LookupFinds(Triples(), heap[p.value]);
      r := Some(heap[p.value].v);
      Store(p.value, v);
    }

    /** The second table is probed with a reference into the box itself, while it still lives. */
    method Remove1(k1: K1) returns (r: Option<V>)
      requires Valid()
      modifies this
      ensures Valid()
      ensures r == Lookup1(old(Triples()), k1)
      ensures Triples() == Without1(old(Triples()), k1)
      ensures next == old(next)
    {
      Probe1IsLookup(heap, map1, map2, k1);
      KeysSeparateBoxes(heap, map1, map2);
      var at := Probe(Keys1(heap), map1, k1);
      if at.None? {
        assert Without1(Triples(), k1) == Triples();
        return None;
      }
      var item := map1[at.value].item;
      LookupFinds(Triples(), heap[item]);
      ProbeFindsBox(Keys2(heap), map2, item);
      AfterRemove(heap, map1, map2, at.value, Probe(Keys2(heap), map2, heap[item].k2).value);

      map1 := RemoveAt(map1, at.value);
      var at2 := Probe(Keys2(heap), map2, heap[item].k2);
      map2 := RemoveAt(map2, at2.value);
      r := Some(heap[item].v);
      Free(item);
    }

    method Remove2(k2: K2) returns (r: Option<V>)
      requires Valid()
      modifies this
      ensures Valid()
      ensures r == Lookup2(old(Triples()), k2)
      ensures Triples() == Without2(old(Triples()), k2)
      ensures next == old(next)
    {
      Probe2IsLookup(heap, map1, map2, k2);
      KeysSeparateBoxes(heap, map1, map2);
      var at := Probe(Keys2(heap), map2, k2);
      if at.None? {
        assert Without2(Triples(), k2) == Triples();
        return None;
      }
      var item := map2[at.value].item;
      LookupFinds(Triples(), heap[item]);
      ProbeFindsBox(Keys1(heap), map1, item);
      AfterRemove(heap, map1, map2, Probe(Keys1(heap), map1, heap[item].k1).value, at.value);

      map2 := RemoveAt(map2, at.value);
      var at1 := Probe(Keys1(heap), map1, heap[item].k1);
      map1 := RemoveAt(map1, at1.value);
      r := Some(heap[item].v);
      Free(item);
    }

    /** `drop`: the first table is cleared without looking at its pointers, and the drain of
        the second frees each box. Nothing stays allocated and nothing is freed twice. */
    method Drop()
      requires Valid()
      modifies this
      ensures HeapOk() && heap == map[] && map1 == [] && map2 == []
      ensures next == old(next)
    {
      assert forall p :: p in heap <==> p in Keys2(heap);
      map1 := [];
      while map2 != []
        invariant HeapOk() && next == old(next) && map1 == []
        invariant ReachesOnce(heap.Keys, map2)
        decreases |map2|
      {
        var item := map2[0].item;
        DrainOne(heap.Keys, map2);
        map2 := map2[1..];
        Free(item);
      }
      assert heap.Keys == {};
    }
  }

  lemma AbsentKey1<K1, K2, V>(ts: set<Item<K1, K2, V>>, k1: K1, v: V)
    requires !Has1(ts, k1)
    ensures Put1(ts, k1, v) == ts
  {
    forall x ensures x in Put1(ts, k1, v) <==> x in ts {
    }
  }

  lemma AbsentKey2<K1, K2, V>(ts: set<Item<K1, K2, V>>, k2: K2, v: V)
    requires !Has2(ts, k2)
    ensures Put2(ts, k2, v) == ts
  {
    forall x ensures x in Put2(ts, k2, v) <==> x in ts {
    }
  }

  method Perform<K1(==), K2(==), V(==)>(m: MultiMap<K1, K2, V>, op: Op<K1, K2, V>) returns (reply: Reply<V>)
    requires m.Valid()
    modifies m
    ensures m.Valid()
    ensures reply == Answer(old(m.Triples()), op)
    ensures m.Triples() == After(old(m.Triples()), op)
    ensures m.next == old(m.next) + if reply == Inserted(true) then 1 else 0
  {
    match op {
      case InsertOp(k1, k2, v) => var r := m.Insert(k1, k2, v); reply := Inserted(r.Ok?);
      case Get1Op(k1) => var r := m.Get1(k1); reply := Found(r);
      case Get2Op(k2) => var r := m.Get2(k2); reply := Found(r);
      case Set1Op(k1, v) => var r := m.Set1(k1, v); reply := Found(r);
      case Set2Op(k2, v) => var r := m.Set2(k2, v); reply := Found(r);
      case Remove1Op(k1) => var r := m.Remove1(k1); reply := Found(r);
      case Remove2Op(k2) => var r := m.Remove2(k2); reply := Found(r);
    }
  }

  function AcceptedInserts<V(==)>(replies: seq<Reply<V>>): nat {
    multiset(replies)[Inserted(true)]
  }

  /** A whole life of an index: any calls, then `drop`. Every answer is the one the set of
      triples gives, and the boxes freed are exactly the boxes that accepted
      insertions allocated, once each. */
  method Lifetime<K1(==), K2(==), V(==)>(ops: seq<Op<K1, K2, V>>)
      returns (replies: seq<Reply<V>>, boxes: nat, freed: seq<Ptr>)
    ensures replies == Answers({}, ops)
    ensures boxes == AcceptedInserts(replies)
    ensures forall p :: p in freed <==> 0 <= p < boxes
    ensures forall i, j :: 0 <= i < j < |freed| ==> freed[i] != freed[j]
  {
    var m := new MultiMap<K1, K2, V>();
    replies := [];
    for n := 0 to |ops|
      invariant fresh(m) && m.Valid()
      invariant m.Triples() == AfterAll({}, ops[..n])
      invariant replies == Answers({}, ops[..n])
      invariant m.next == AcceptedInserts(replies)
    {
      assert ops[..n + 1][..n] == ops[..n];
      var reply := Perform(m, ops[n]);
      replies := replies + [reply];
    }
    assert ops[..|ops|] == ops;
    m.Drop();
    boxes, freed := m.next, m.freed;
  }
}
