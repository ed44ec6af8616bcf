/** An insertion-ordered dictionary (Python's `OrderedDict`): keys oldest first. */
module OrderedTable {
  datatype Table<K(==), V> = Table(order: seq<K>, entries: map<K, V>)

  ghost predicate WellFormed<K(!new), V>(t: Table<K, V>) {
    && Distinct(t.order)
    && (forall k :: k in t.order <==> k in t.entries)
  }

  ghost predicate Distinct<K>(order: seq<K>) {
    forall i, j :: 0 <= i < j < |order| ==> order[i] != order[j]
  }

  function Empty<K, V>(): Table<K, V> {
    Table([], map[])
  }

  function Without<K(==)>(order: seq<K>, k: K): seq<K> {
    if order == [] then []
    else if order[0] == k then Without(order[1..], k)
    else [order[0]] + Without(order[1..], k)
  }

  /** `pop(k, None)` */
  function Popped<K(==), V>(t: Table<K, V>, k: K): Table<K, V> {
    Table(Without(t.order, k), t.entries - {k})
  }

  /** `popitem(last=False)` */
  function Shifted<K(==), V>(t: Table<K, V>): Table<K, V>
    requires t.order != []
  {
    Table(t.order[1..], t.entries - {t.order[0]})
  }

  /** `t[k] = v` for an absent key. */
  function Appended<K(==), V>(t: Table<K, V>, k: K, v: V): Table<K, V> {
    Table(t.order + [k], t.entries[k := v])
  }

  lemma {:induction false} WithoutMeans<K>(order: seq<K>, k: K)
    requires Distinct(order)
    ensures forall x :: x in Without(order, k) <==> x in order && x != k
    ensures Distinct(Without(order, k))
    ensures |Without(order, k)| == |order| - (if k in order then 1 else 0)
  {
    if order != [] {
      assert forall i, j :: 0 <= i < j < |order[1..]| ==>
          order[1..][i] == order[i + 1] && order[1..][j] == order[j + 1];
      WithoutMeans(order[1..], k);
      assert order == [order[0]] + order[1..];
      assert order[0] !in order[1..];
      var rest := Without(order[1..], k);
      if order[0] != k {
        assert order[0] !in rest;
        assert Without(order, k) == [order[0]] + rest;
      }
    }
  }

  lemma {:induction false} WithoutAbsent<K>(order: seq<K>, k: K)
    requires k !in order
    ensures Without(order, k) == order
  {
    if order != [] {
      WithoutAbsent(order[1..], k);
    }
  }

  lemma PoppedMeans<K(!new), V>(t: Table<K, V>, k: K)
    requires WellFormed(t)
    ensures WellFormed(Popped(t, k)) && k !in Popped(t, k).entries
    ensures k !in t.entries ==> Popped(t, k) == t
    ensures |Popped(t, k).order| == |t.order| - (if k in t.entries then 1 else 0)
  {
    WithoutMeans(t.order, k);
    if k !in t.entries {
      WithoutAbsent(t.order, k);
      assert t.entries - {k} == t.entries;
    }
  }

  lemma ShiftedMeans<K(!new), V>(t: Table<K, V>)
    requires WellFormed(t) && t.order != []
    ensures WellFormed(Shifted(t)) && |Shifted(t).order| == |t.order| - 1
    ensures forall k :: k in Shifted(t).entries ==> k in t.entries && Shifted(t).entries[k] == t.entries[k]
  {
    assert t.order == [t.order[0]] + t.order[1..];
  }

  lemma AppendedMeans<K(!new), V>(t: Table<K, V>, k: K, v: V)
    requires WellFormed(t) && k !in t.entries
    ensures WellFormed(Appended(t, k, v)) && |Appended(t, k, v).order| == |t.order| + 1
  {
  }

  lemma {:induction false} OrderFits<K>(order: seq<K>, all: set<K>)
    requires Distinct(order)
    requires forall k :: k in order ==> k in all
    ensures |order| <= |all|
    decreases |order|
  {
    if order != [] {
      OrderFits(order[1..], all - {order[0]});
    }
  }
}
