/** The two intrusive heaps of internal/mqttauth/replay.go: a slice of keys that
    container/heap keeps in order, each key carrying its position in the slice.

    `Up`, `Down`, `Push`, `Remove` and `Init` are container/heap's own loops over
    the slice's Less and Swap; the position a held key carries is `pos`. */
module IndexedHeaps {
  import opened Base

  function Parent(i: int): int {
    (i - 1) / 2
  }

  /** Every position of v below n but `except` is in order with its parent, where
      that parent is at or past `lo`. */
  predicate OrderedBut(v: seq<int>, except: int, lo: int, n: int)
    requires n <= |v|
  {
    forall k | 0 < k < n && k != except && Parent(k) >= lo :: v[Parent(k)] <= v[k]
  }

  predicate Ordered(v: seq<int>) {
    OrderedBut(v, -1, 0, |v|)
  }

  /** As OrderedBut, but for the children of i as well: what sifting i down needs. */
  predicate OrderedAround(v: seq<int>, i: int, itself: bool, lo: int, n: int)
    requires n <= |v|
  {
    forall k | 0 < k < n && (k != i || itself) && Parent(k) >= lo && Parent(k) != i :: v[Parent(k)] <= v[k]
  }

  /** The children of i are in order with its parent, past i itself. */
  predicate Bridged(v: seq<int>, i: int, lo: int, n: int)
    requires 0 <= i < n <= |v|
  {
    i > 0 && Parent(i) >= lo ==> forall k | 0 < k < n && Parent(k) == i :: v[Parent(i)] <= v[k]
  }

  function Swapped<T>(s: seq<T>, i: int, j: int): seq<T>
    requires 0 <= i < |s| && 0 <= j < |s|
  {
    s[i := s[j]][j := s[i]]
  }

  /** Exchanging a position with a greater parent moves the disorder up. */
  lemma UpStep(v: seq<int>, j: int, n: int)
    requires 0 < j < n <= |v| && OrderedBut(v, j, 0, n) && Bridged(v, j, 0, n)
    requires v[j] < v[Parent(j)]
    ensures OrderedBut(Swapped(v, Parent(j), j), Parent(j), 0, n)
    ensures Bridged(Swapped(v, Parent(j), j), Parent(j), 0, n)
  {
  }

  /** Exchanging a position with its least child, when less, moves the disorder down. */
  lemma DownStep(v: seq<int>, i: int, j: int, itself: bool, lo: int, n: int)
    requires 0 <= lo <= i < j < n <= |v| && Parent(j) == i
    requires OrderedAround(v, i, itself, lo, n) && Bridged(v, i, lo, n)
    requires v[j] < v[i] && forall k | 0 < k < n && Parent(k) == i :: v[j] <= v[k]
    ensures OrderedAround(Swapped(v, i, j), j, true, lo, n)
    ensures Bridged(Swapped(v, i, j), j, lo, n)
  {
  }

  /** With no child less, sifting down is done. */
  lemma DownDone(v: seq<int>, i0: int, i: int, lo: int, n: int)
    requires 0 <= lo <= i0 <= i < n <= |v| && OrderedAround(v, i, i > i0, lo, n)
    requires forall k | 0 < k < n && Parent(k) == i :: v[i] <= v[k]
    ensures OrderedBut(v, if i > i0 then -1 else i0, lo, n)
  {
  }

  /** Exchanging position i with the last leaves disorder only around i. */
  lemma RemoveSwap(v: seq<int>, i: int)
    requires Ordered(v) && 0 <= i < |v| - 1
    ensures OrderedAround(Swapped(v, i, |v| - 1), i, false, 0, |v| - 1)
    ensures Bridged(Swapped(v, i, |v| - 1), i, 0, |v| - 1)
  {
  }

  /** The root of an ordered heap is least. */
  lemma {:induction false} RootIsLeast(v: seq<int>, i: int)
    requires Ordered(v) && 0 <= i < |v|
    ensures v[0] <= v[i]
    decreases i
  {
    if i > 0 {
      RootIsLeast(v, Parent(i));
    }
  }

  class IndexedHeap<K(==)> {
    var items: seq<K>
    var prio: map<K, int>
    var pos: map<K, nat>

    /** The position map is exactly the slice: every key once, where it says. */
    ghost predicate Indexed()
      reads this
    {
      && prio.Keys == pos.Keys
      && (forall k | k in pos :: pos[k] < |items| && items[pos[k]] == k)
      && (forall i | 0 <= i < |items| :: items[i] in pos && pos[items[i]] == i)
    }

    /** The priorities of the slice, position by position. */
    ghost function Values(): seq<int>
      requires Indexed()
      reads this
    {
      seq(|items|, i requires 0 <= i < |items| reads this requires Indexed() => prio[items[i]])
    }

    predicate Less(i: int, j: int)
      requires Indexed() && 0 <= i < |items| && 0 <= j < |items|
      reads this
    {
      prio[items[i]] < prio[items[j]]
    }

    ghost predicate Valid()
      reads this
    {
      Indexed() && Ordered(Values())
    }

    constructor ()
      ensures Valid() && items == [] && prio == map[]
    {
      items, prio, pos := [], map[], map[];
    }

    method Swap(i: int, j: int)
      requires Indexed() && 0 <= i < |items| && 0 <= j < |items|
      modifies this
      ensures Indexed() && prio == old(prio)
      ensures items == Swapped(old(items), i, j)
      ensures Values() == Swapped(old(Values()), i, j)
    {
      var x, y := items[i], items[j];
      items := items[i := y][j := x];
      pos := pos[y := i][x := j];
    }

    /** Moves position j0 towards the root until it is in order, within the first n. */
    method Up(j0: int, n: int)
      requires Indexed() && 0 <= j0 < n <= |items|
      requires OrderedBut(Values(), j0, 0, n) && Bridged(Values(), j0, 0, n)
      modifies this
      ensures Indexed() && prio == old(prio) && |items| == old(|items|)
      ensures OrderedBut(Values(), -1, 0, n)
      ensures items[n..] == old(items[n..])
    {
      var j := j0;
      while j > 0 && Less(j, Parent(j))
        invariant 0 <= j < n <= |items| == old(|items|)
        invariant Indexed() && prio == old(prio)
        invariant OrderedBut(Values(), j, 0, n) && Bridged(Values(), j, 0, n)
        invariant items[n..] == old(items[n..])
        decreases j
      {
        var i := Parent(j);
        UpStep(Values(), j, n);
        Swap(i, j);
        j := i;
      }
    }

    /** Moves position i0 away from the root until no child is less, within the
        first n, and reports whether it moved. */
    method Down(i0: int, n: int, ghost lo: int) returns (moved: bool)
      requires Indexed() && 0 <= lo <= i0 < n <= |items|
      requires OrderedAround(Values(), i0, false, lo, n) && Bridged(Values(), i0, lo, n)
      modifies this
      ensures Indexed() && prio == old(prio) && |items| == old(|items|)
      ensures OrderedBut(Values(), if moved then -1 else i0, lo, n)
      ensures !moved ==> items == old(items) && Values() == old(Values())
      ensures items[n..] == old(items[n..])
    {
      var i := i0;
      while true
        invariant i0 <= i < n <= |items| == old(|items|)
        invariant Indexed() && prio == old(prio)
        invariant OrderedAround(Values(), i, i > i0, lo, n) && Bridged(Values(), i, lo, n)
        invariant i == i0 ==> items == old(items) && Values() == old(Values())
        invariant items[n..] == old(items[n..])
        decreases n - i
      {
        var j1 := 2 * i + 1;
        if j1 >= n {
          break;
        }
        var j := LeastChild(i, n);
        if !Less(j, i) {
          break;
        }
        DownStep(Values(), i, j, i > i0, lo, n);
        Swap(i, j);
        i := j;
      }
      DownDone(Values(), i0, i, lo, n);
      moved := i > i0;
    }

    method LeastChild(i: int, n: int) returns (j: int)
      requires Indexed() && 0 <= i && 2 * i + 1 < n <= |items|
      ensures i < j < n && Parent(j) == i
      ensures forall k | 0 < k < n && Parent(k) == i :: Values()[j] <= Values()[k]
    {
      var j1 := 2 * i + 1;
      j := j1;
      if j1 + 1 < n && Less(j1 + 1, j1) {
        j := j1 + 1;
      }
    }

    method Push(k: K, p: int)
      requires Valid() && k !in prio
      modifies this
      ensures Valid() && prio == old(prio)[k := p]
    {
      ghost var v := Values();
      pos := pos[k := |items|];
      prio := prio[k := p];
      items := items + [k];
      assert Values() == v + [p];
      Up(|items| - 1, |items|);
    }

    /** Removes the key at position i. */
    method Remove(i: int)
      requires Valid() && 0 <= i < |items|
      modifies this
      ensures Valid() && prio == old(prio) - {old(items[i])}
    {
      if i != |items| - 1 {
        MoveLast(i);
      }
      DropLast();
    }

    /** Swaps the key at position i to the end, and orders what is before it. */
    method MoveLast(i: int)
      requires Valid() && 0 <= i < |items| - 1
      modifies this
      ensures Indexed() && prio == old(prio) && |items| == old(|items|) && Last(items) == old(items[i])
      ensures OrderedBut(Values(), -1, 0, |items| - 1)
    {
      var n := |items| - 1;
      RemoveSwap(Values(), i);
      Swap(i, n);
      ghost var tail := items[n..];
      var moved := Down(i, n, 0);
      if !moved {
        Up(i, n);
      }
      assert items[n] == items[n..][0] == tail[0];
    }

    method DropLast()
      requires Indexed() && items != [] && OrderedBut(Values(), -1, 0, |items| - 1)
      modifies this
      ensures Valid() && prio == old(prio) - {old(Last(items))}
    {
      var n := |items| - 1;
      var k := items[n];
      ghost var v := Values();
      items, prio, pos := items[..n], prio - {k}, pos - {k};
      assert Values() == v[..n];
    }

    /** Gives every key a new priority and restores the order from the leaves. */
    method Init(p: map<K, int>)
      requires Indexed() && p.Keys == prio.Keys
      modifies this
      ensures Valid() && prio == p
    {
      prio := p;
      var n := |items|;
      var i := n / 2 - 1;
      while i >= 0
        invariant -1 <= i && (i < n || n == 0) && n == |items|
        invariant Indexed() && prio == p
        invariant OrderedBut(Values(), -1, i + 1, n)
        decreases i
      {
        var moved := Down(i, n, i);
        i := i - 1;
      }
    }

    /** The key at the root has a least priority of all. */
    lemma HeadIsLeast(k: K)
      requires Valid() && k in prio
      ensures items != [] && prio[items[0]] <= prio[k]
    {
      RootIsLeast(Values(), pos[k]);
    }
  }
}
