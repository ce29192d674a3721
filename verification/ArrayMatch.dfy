/** The comparison of two arrays of interned strings (_e_connman_element_array_match):
    which items are to be registered and which are to be unregistered, each in the order
    of the calls. */
module ArrayMatch {
  import opened Counting

  /** a comes from b by leaving items out. */
  ghost predicate Subseq<T(!new)>(a: seq<T>, b: seq<T>) {
    a == [] ||
    (b != [] &&
     var b' := b[..|b| - 1];
     Subseq(a, b') || (a[|a| - 1] == b[|b| - 1] && Subseq(a[..|a| - 1], b')))
  }

  lemma {:induction false} SubseqSelf<T(!new)>(a: seq<T>)
    ensures Subseq(a, a)
  {
    if a != [] { SubseqSelf(a[..|a| - 1]); }
  }

  lemma SubseqSkip<T(!new)>(a: seq<T>, b: seq<T>, x: T)
    requires Subseq(a, b)
    ensures Subseq(a, b + [x])
  {
    assert (b + [x])[..|b|] == b;
  }

  lemma SubseqTake<T(!new)>(a: seq<T>, b: seq<T>, x: T)
    requires Subseq(a, b)
    ensures Subseq(a + [x], b + [x])
  {
    assert (b + [x])[..|b|] == b && (a + [x])[..|a|] == a;
  }

  lemma {:induction false} SubseqAppend<T(!new)>(a: seq<T>, b: seq<T>, c: seq<T>)
    requires Subseq(a, b)
    ensures Subseq(a + c, b + c)
  {
    if c == [] {
      assert a + c == a && b + c == b;
    } else {
      var c', x := c[..|c| - 1], c[|c| - 1];
      SubseqAppend(a, b, c');
      SubseqTake(a + c', b + c', x);
      assert a + c == a + c' + [x] && b + c == b + c' + [x];
    }
  }

  lemma {:induction false} SubseqTrans<T(!new)>(a: seq<T>, b: seq<T>, c: seq<T>)
    requires Subseq(a, b) && Subseq(b, c)
    ensures Subseq(a, c)
    decreases |b| + |c|
  {
    if a != [] {
      var c' := c[..|c| - 1];
      if Subseq(b, c') {
        SubseqTrans(a, b, c');
      } else if Subseq(a, b[..|b| - 1]) {
        SubseqTrans(a, b[..|b| - 1], c');
      } else {
        SubseqTrans(a[..|a| - 1], b[..|b| - 1], c');
      }
    }
  }

  function RemoveAt<T>(s: seq<T>, k: nat): seq<T>
    requires k < |s|
  {
    s[..k] + s[k + 1..]
  }

  lemma RemoveAtSubseq<T(!new)>(s: seq<T>, k: nat)
    requires k < |s|
    ensures Subseq(RemoveAt(s, k), s)
  {
    var a, b := s[..k], s[k + 1..];
    SubseqSelf(a);
    SubseqSkip(a, a, s[k]);
    SubseqAppend(a, a + [s[k]], b);
    SplitAt(s, k);
  }

  lemma CountRemoveAt<T>(s: seq<T>, k: nat, x: T)
    requires k < |s|
    ensures Count(s, x) == Count(RemoveAt(s, k), x) + if s[k] == x then 1 else 0
  {
    CountAppend(s[..k], s[k + 1..], x);
    CountSnoc(s[..k], s[k], x);
    CountAppend(s[..k] + [s[k]], s[k + 1..], x);
    SplitAt(s, k);
  }

  /** What was passed of old and was added balances what was passed of new and is listed
      as deleted. */
  ghost predicate Balanced<T(!new)>(o: seq<T>, added: seq<T>, n: seq<T>, deleted: seq<T>) {
    forall x :: Count(o, x) + Count(added, x) == Count(n, x) + Count(deleted, x)
  }

  lemma BalancedSkip<T(!new)>(o: seq<T>, a: seq<T>, n: seq<T>, d: seq<T>, y: T)
    requires Balanced(o, a, n, d)
    ensures Balanced(o + [y], a, n + [y], d)
  {
    forall x ensures Count(o + [y], x) + Count(a, x) == Count(n + [y], x) + Count(d, x) {
      CountSnoc(o, y, x);
      CountSnoc(n, y, x);
    }
  }

  lemma BalancedDelete<T(!new)>(o: seq<T>, a: seq<T>, n: seq<T>, d: seq<T>, y: T)
    requires Balanced(o, a, n, d)
    ensures Balanced(o + [y], a, n, d + [y])
  {
    BalancedRest(o, a, n, d, [y]);
  }

  lemma BalancedAdd<T(!new)>(o: seq<T>, a: seq<T>, n: seq<T>, d: seq<T>, y: T)
    requires Balanced(o, a, n, d)
    ensures Balanced(o, a + [y], n + [y], d)
  {
    forall x ensures Count(o, x) + Count(a + [y], x) == Count(n + [y], x) + Count(d, x) {
      CountSnoc(a, y, x);
      CountSnoc(n, y, x);
    }
  }

  lemma BalancedFound<T(!new)>(o: seq<T>, a: seq<T>, n: seq<T>, d: seq<T>, k: nat)
    requires Balanced(o, a, n, d) && k < |d|
    ensures Balanced(o, a, n + [d[k]], RemoveAt(d, k))
  {
    forall x ensures Count(o, x) + Count(a, x) == Count(n + [d[k]], x) + Count(RemoveAt(d, k), x) {
      CountSnoc(n, d[k], x);
      CountRemoveAt(d, k, x);
    }
  }

  lemma BalancedRest<T(!new)>(o: seq<T>, a: seq<T>, n: seq<T>, d: seq<T>, rest: seq<T>)
    requires Balanced(o, a, n, d)
    ensures Balanced(o + rest, a, n, d + rest)
  {
    forall x ensures Count(o + rest, x) + Count(a, x) == Count(n, x) + Count(d + rest, x) {
      CountAppend(o, rest, x);
      CountAppend(d, rest, x);
    }
  }

  ghost predicate Apart<T(!new)>(a: seq<T>, d: seq<T>) {
    forall x :: Count(a, x) == 0 || Count(d, x) == 0
  }

  lemma ApartAdd<T(!new)>(a: seq<T>, d: seq<T>, y: T)
    requires Apart(a, d) && y !in d
    ensures Apart(a + [y], d)
  {
    CountAbsent(d, y);
    forall x ensures Count(a + [y], x) == 0 || Count(d, x) == 0 {
      CountSnoc(a, y, x);
    }
  }

  lemma ApartRemove<T(!new)>(a: seq<T>, d: seq<T>, k: nat)
    requires Apart(a, d) && k < |d|
    ensures Apart(a, RemoveAt(d, k))
  {
    forall x ensures Count(a, x) == 0 || Count(RemoveAt(d, k), x) == 0 {
      CountRemoveAt(d, k, x);
    }
  }

  /** Two lists that share nothing and balance the arrays are their two differences. */
  lemma BalancedDifferences<T(!new)>(o: seq<T>, a: seq<T>, n: seq<T>, d: seq<T>)
    requires Balanced(o, a, n, d) && Apart(a, d)
    ensures multiset(a) == multiset(n) - multiset(o)
    ensures multiset(d) == multiset(o) - multiset(n)
  {
    forall x
      ensures multiset(a)[x] == (multiset(n) - multiset(o))[x] && multiset(d)[x] == (multiset(o) - multiset(n))[x]
    {
      CountIsMultiplicity(o, x);
      CountIsMultiplicity(a, x);
      CountIsMultiplicity(n, x);
      CountIsMultiplicity(d, x);
    }
  }

  // ----- the loops

  /** Merge loop: skips equal items; stops when either array is exhausted. */
  method Merge<T(==, !new)>(current: seq<T>, incoming: seq<T>) returns (deleted: seq<T>, iOld: nat, iNew: nat)
    requires incoming != []
    ensures iOld <= |current| && iNew <= |incoming| && (iOld == |current| || iNew == |incoming|)
    ensures Balanced(current[..iOld], [], incoming[..iNew], deleted)
    ensures Subseq(deleted, current[..iOld])
  {
    deleted, iOld, iNew := [], 0, 0;
    while iOld < |current|
      invariant iOld <= |current| && iNew < |incoming|
      invariant Balanced(current[..iOld], [], incoming[..iNew], deleted)
      invariant Subseq(deleted, current[..iOld])
    {
      var item := current[iOld];
      assert current[..iOld + 1] == current[..iOld] + [item];
      if item == incoming[iNew] {
        BalancedSkip(current[..iOld], [], incoming[..iNew], deleted, item);
        assert incoming[..iNew + 1] == incoming[..iNew] + [item];
        SubseqSkip(deleted, current[..iOld], item);
        iNew := iNew + 1;
        if iNew >= |incoming| {
          iOld := iOld + 1;
          break;
        }
      } else {
        BalancedDelete(current[..iOld], [], incoming[..iNew], deleted, item);
        SubseqTake(deleted, current[..iOld], item);
        deleted := deleted + [item];
      }
      iOld := iOld + 1;
    }
  }

  /** Position of an item in the list of deletions, or its length. */
  method Find<T(==)>(list: seq<T>, item: T) returns (k: nat)
    ensures k <= |list| && item !in list[..k] && (k < |list| ==> list[k] == item)
  {
    k := 0;
    while k < |list| && list[k] != item
      invariant k <= |list| && item !in list[..k]
    {
      k := k + 1;
    }
  }

  /** The state of the second loop once the items done of new are sorted out. */
  ghost predicate Sorted<T(!new)>(o: seq<T>, added: seq<T>, done: seq<T>, deleted: seq<T>) {
    Balanced(o, added, done, deleted) && Apart(added, deleted) && Subseq(added, done) && Subseq(deleted, o)
  }

  lemma TakenBack<T(!new)>(o: seq<T>, added: seq<T>, done: seq<T>, deleted: seq<T>, k: nat)
    requires Sorted(o, added, done, deleted) && k < |deleted|
    ensures Sorted(o, added, done + [deleted[k]], RemoveAt(deleted, k))
  {
    BalancedFound(o, added, done, deleted, k);
    ApartRemove(added, deleted, k);
    RemoveAtSubseq(deleted, k);
    SubseqTrans(RemoveAt(deleted, k), deleted, o);
    SubseqSkip(added, done, deleted[k]);
  }

  lemma AddedNew<T(!new)>(o: seq<T>, added: seq<T>, done: seq<T>, deleted: seq<T>, item: T)
    requires Sorted(o, added, done, deleted) && item !in deleted
    ensures Sorted(o, added + [item], done + [item], deleted)
  {
    ApartAdd(added, deleted, item);
    BalancedAdd(o, added, done, deleted, item);
    SubseqTake(added, done, item);
  }

  /** Second loop: what remains of new is either taken back from the deletions or added. */
  method Sort<T(==, !new)>(current: seq<T>, incoming: seq<T>, listed: seq<T>, start: nat)
    returns (added: seq<T>, deleted: seq<T>)
    requires start <= |incoming|
    requires Balanced(current, [], incoming[..start], listed) && Subseq(listed, current)
    ensures Sorted(current, added, incoming, deleted)
    ensures start == |incoming| ==> added == []
  {
    added, deleted := [], listed;
    for iNew := start to |incoming|
      invariant Sorted(current, added, incoming[..iNew], deleted)
      invariant iNew == start ==> added == []
    {
      var item := incoming[iNew];
      assert incoming[..iNew + 1] == incoming[..iNew] + [item];
      var k := Find(deleted, item);
      if k < |deleted| {
        TakenBack(current, added, incoming[..iNew], deleted, k);
        deleted := RemoveAt(deleted, k);
      } else {
        assert deleted[..k] == deleted;
        AddedNew(current, added, incoming[..iNew], deleted, item);
        added := added + [item];
      }
    }
    assert incoming[..|incoming|] == incoming;
  }

  /** Items of both arrays are pointers to interned strings, so they are compared by
      identity. The items added and removed are exactly the two differences of the arrays
      as bags, in the order in which they stand in their array. */
  method Match<T(==, !new)>(current: seq<T>, incoming: seq<T>) returns (added: seq<T>, removed: seq<T>)
    ensures multiset(added) == multiset(incoming) - multiset(current)
    ensures multiset(removed) == multiset(current) - multiset(incoming)
    ensures Subseq(added, incoming) && Subseq(removed, current)
  {
    if incoming == [] {
      SubseqSelf(current);
      return [], current;
    }
    var listed, iOld, iNew := Merge(current, incoming);
    var deleted;
    added, deleted := Sort(current[..iOld], incoming, listed, iNew);
    removed := deleted + current[iOld..];
    assert current[..iOld] + current[iOld..] == current;
    BalancedRest(current[..iOld], added, incoming, deleted, current[iOld..]);
    SubseqAppend(deleted, current[..iOld], current[iOld..]);
    assert iOld == |current| ==> removed == deleted;
    BalancedDifferences(current, added, incoming, removed);
  }
}
