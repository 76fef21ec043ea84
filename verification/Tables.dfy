/** Journal tables: sequences kept strictly sorted by a numeric key. */
module Tables {
  import opened Types

  predicate SortedBy<T>(xs: seq<T>, key: T -> nat) {
    forall i, j :: 0 <= i < j < |xs| ==> key(xs[i]) < key(xs[j])
  }

  /** The row with key `k`, as a linear search finds it. */
  function Find<T>(xs: seq<T>, key: T -> nat, k: nat): (r: Option<nat>)
    ensures r.Some? ==> r.value < |xs| && key(xs[r.value]) == k
    ensures r.None? <==> forall x :: x in xs ==> key(x) != k
  {
    if xs == [] then None
    else if key(xs[0]) == k then Some(0)
    else match Find(xs[1..], key, k)
         case None => None
         case Some(i) => Some(i + 1)
  }

  /** Appending a fresh row and sorting. */
  function Insert<T>(xs: seq<T>, key: T -> nat, x: T): seq<T> {
    if xs == [] || key(x) < key(xs[0]) then [x] + xs
    else [xs[0]] + Insert(xs[1..], key, x)
  }

  lemma {:induction false} InsertPermutes<T>(xs: seq<T>, key: T -> nat, x: T)
    ensures multiset(Insert(xs, key, x)) == multiset(xs) + multiset{x}
  {
    if xs == [] || key(x) < key(xs[0]) {
    } else {
      InsertPermutes(xs[1..], key, x);
      assert xs == [xs[0]] + xs[1..];
    }
  }

  lemma InsertMembers<T>(xs: seq<T>, key: T -> nat, x: T)
    ensures |Insert(xs, key, x)| == |xs| + 1
    ensures forall y :: y in Insert(xs, key, x) <==> y in xs || y == x
  {
    InsertPermutes(xs, key, x);
    var ys := Insert(xs, key, x);
    assert |multiset(ys)| == |ys| && |multiset(xs)| == |xs|;
    forall y ensures y in ys <==> y in xs || y == x {
      assert y in ys <==> y in multiset(ys);
    }
  }

  /** Insertion keeps the table sorted, so it is the sort of the extended table. */
  lemma {:induction false} InsertSorts<T>(xs: seq<T>, key: T -> nat, x: T)
    requires SortedBy(xs, key) && forall y :: y in xs ==> key(y) != key(x)
    ensures SortedBy(Insert(xs, key, x), key)
  {
    if xs == [] || key(x) < key(xs[0]) {
    } else {
      InsertSorts(xs[1..], key, x);
      InsertPermutes(xs[1..], key, x);
      var ys := Insert(xs[1..], key, x);
      assert xs[0] in xs;
      forall j | 0 <= j < |ys| ensures key(xs[0]) < key(ys[j]) {
        var y := ys[j];
        assert y in multiset(ys);
        if y != x {
          assert y in multiset(xs[1..]) && y in xs[1..];
          var i :| 1 <= i < |xs| && xs[i] == y;
        }
      }
    }
  }

  /** Replacing a row under its own key. */
  lemma UpdateMembers<T>(xs: seq<T>, key: T -> nat, k: nat, x: T)
    requires SortedBy(xs, key) && k < |xs| && key(xs[k]) == key(x)
    ensures SortedBy(xs[k := x], key)
    ensures forall y :: y in xs[k := x] <==> (y in xs && y != xs[k]) || y == x
  {
    var ys := xs[k := x];
    forall y | y in xs && y != xs[k] ensures y in ys {
      var i :| 0 <= i < |xs| && xs[i] == y;
      assert ys[i] == y;
    }
    forall y | y in ys && y != x ensures y in xs && y != xs[k] {
      var i :| 0 <= i < |ys| && ys[i] == y;
      assert xs[i] == y;
    }
    assert ys[k] == x;
  }

  lemma KeysAreUnique<T>(xs: seq<T>, key: T -> nat, x: T, y: T)
    requires SortedBy(xs, key) && x in xs && y in xs && key(x) == key(y)
    ensures x == y
  {
    var i :| 0 <= i < |xs| && xs[i] == x;
    var j :| 0 <= j < |xs| && xs[j] == y;
  }

  lemma FindMember<T>(xs: seq<T>, key: T -> nat, x: T)
    requires SortedBy(xs, key) && x in xs
    ensures Find(xs, key, key(x)).Some? && xs[Find(xs, key, key(x)).value] == x
  {
    KeysAreUnique(xs, key, x, xs[Find(xs, key, key(x)).value]);
  }

  lemma {:induction false} SortedAtLeast<T>(xs: seq<T>, ys: seq<T>, key: T -> nat, i: nat, j: nat)
    requires SortedBy(xs, key) && SortedBy(ys, key) && forall x :: x in xs ==> x in ys
    requires i < |xs| && j < |ys| && xs[i] == ys[j]
    ensures i <= j
  {
    if i > 0 {
      assert xs[i - 1] in ys;
      var k :| 0 <= k < |ys| && ys[k] == xs[i - 1];
      SortedAtLeast(xs, ys, key, i - 1, k);
    }
  }

  lemma {:induction false} SortedAtMost<T>(xs: seq<T>, ys: seq<T>, key: T -> nat, i: nat, j: nat)
    requires SortedBy(xs, key) && SortedBy(ys, key) && forall x :: x in xs ==> x in ys
    requires |xs| == |ys| && i < |xs| && j < |ys| && xs[i] == ys[j]
    ensures j <= i
    decreases |xs| - i
  {
    if i + 1 < |xs| {
      assert xs[i + 1] in ys;
      var k :| 0 <= k < |ys| && ys[k] == xs[i + 1];
      SortedAtMost(xs, ys, key, i + 1, k);
    }
  }

  /** Two tables of one length, one contained in the other, are the same. */
  lemma SortedSame<T>(xs: seq<T>, ys: seq<T>, key: T -> nat)
    requires SortedBy(xs, key) && SortedBy(ys, key) && |xs| == |ys| && forall x :: x in xs ==> x in ys
    ensures xs == ys
  {
    forall i | 0 <= i < |xs| ensures xs[i] == ys[i] {
      assert xs[i] in ys;
      var j :| 0 <= j < |ys| && ys[j] == xs[i];
      SortedAtLeast(xs, ys, key, i, j);
      SortedAtMost(xs, ys, key, i, j);
    }
  }
}
