/** Linked lists that lose some of their members: what stays, in which order. */
module Lists {
  ghost function Elements<T>(hs: seq<T>): set<T> {
    if hs == [] then {} else Elements(hs[..|hs| - 1]) + {hs[|hs| - 1]}
  }

  /** No member is linked twice. */
  ghost predicate Distinct<T>(hs: seq<T>) {
    hs == [] || (hs[|hs| - 1] !in Elements(hs[..|hs| - 1]) && Distinct(hs[..|hs| - 1]))
  }

  lemma Single<T>(x: T)
    ensures Distinct([x]) && Elements([x]) == {x}
  {
    assert [x][..0] == [];
  }

  lemma More<T>(hs: seq<T>, x: T)
    ensures Elements(hs + [x]) == Elements(hs) + {x}
    ensures Distinct(hs + [x]) <==> Distinct(hs) && x !in Elements(hs)
  {
    assert (hs + [x])[..|hs|] == hs;
  }

  /** The members outside dead, in their order. */
  function Keep<T(==)>(hs: seq<T>, dead: set<T>): seq<T> {
    if hs == [] then [] else
      var rest := Keep(hs[..|hs| - 1], dead);
      if hs[|hs| - 1] in dead then rest else rest + [hs[|hs| - 1]]
  }

  lemma {:induction false} KeepTwice<T>(hs: seq<T>, a: set<T>, b: set<T>)
    ensures Keep(Keep(hs, a), b) == Keep(hs, a + b)
  {
    if hs != [] {
      var front, last := hs[..|hs| - 1], hs[|hs| - 1];
      KeepTwice(front, a, b);
      if last !in a {
        assert Keep(hs, a)[..|Keep(hs, a)| - 1] == Keep(front, a);
      }
    }
  }

  lemma {:induction false} KeepSame<T>(hs: seq<T>, a: set<T>, b: set<T>)
    requires forall h :: h in hs ==> (h in a <==> h in b)
    ensures Keep(hs, a) == Keep(hs, b)
  {
    if hs != [] {
      KeepSame(hs[..|hs| - 1], a, b);
      assert hs[|hs| - 1] in hs;
    }
  }
}
