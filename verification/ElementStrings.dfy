/** The strings that registered objects hold in the shared pool: path and interface of every
    element, and the strings of its properties, from registration to the freeing of the element
    (src/lib/connman0_7x/e_connman_element.c, over eina_stringshare). */
module ElementStrings {
  import opened ElementCache
  import opened Lists
  import opened Prelude
  import P = Properties

  type Shares = multiset<P.Addr>
  type Texts = map<P.Addr, string>

  /** What one element holds. */
  datatype Strings = Strings(path: P.Addr, iface: P.Addr, props: seq<P.Prop>)

  /** The shares an element owns, and the object paths it stores under each name. */
  datatype Account = Account(shares: Shares, lists: map<string, seq<string>>)

  type Books = map<Element, Strings>
  type Owned = map<Element, Account>

  ghost function Owns(s: Strings): Shares {
    multiset{s.path} + multiset{s.iface} + P.HeldByProps(s.props)
  }

  // ----- sums over elements

  ghost function Part(o: Owned, e: Element): Shares {
    if e in o then o[e].shares else multiset{}
  }

  /** What the elements of born own, taken together. */
  ghost function Sum(born: seq<Element>, o: Owned): Shares {
    if born == [] then multiset{} else Sum(born[..|born| - 1], o) + Part(o, born[|born| - 1])
  }

  lemma PartOther(o: Owned, e: Element, x: Element)
    requires x != e
    ensures Part(o - {e}, x) == Part(o, x)
  {}

  lemma {:induction false} SumAbsent(born: seq<Element>, o: Owned, e: Element)
    requires e !in Elements(born)
    ensures Sum(born, o) == Sum(born, o - {e})
  {
    if born != [] {
      SumAbsent(born[..|born| - 1], o, e);
      PartOther(o, e, born[|born| - 1]);
    }
  }

  /** One element's part of the sum. */
  lemma {:induction false} SumOne(born: seq<Element>, o: Owned, e: Element)
    requires Distinct(born) && e in Elements(born)
    ensures Sum(born, o) == Sum(born, o - {e}) + Part(o, e)
  {
    var front, last := born[..|born| - 1], born[|born| - 1];
    if last == e {
      SumAbsent(front, o, e);
    } else {
      SumOne(front, o, e);
      PartOther(o, e, last);
      P.Swap(Sum(front, o - {e}), Part(o, e), Part(o, last));
    }
  }

  /** A new element joins the sum. */
  lemma SumBorn(born: seq<Element>, o: Owned, e: Element, x: Account, all: seq<Element>, o': Owned)
    requires Distinct(born) && e !in Elements(born) && e !in o && all == born + [e] && o' == o[e := x]
    ensures Distinct(all) && Elements(all) == Elements(born) + {e} && Sum(all, o') == Sum(born, o) + x.shares
  {
    assert all[..|all| - 1] == born && o' - {e} == o;
    SumAbsent(born, o', e);
  }

  lemma {:induction false} SumHolds(born: seq<Element>, o: Owned, e: Element)
    requires e in Elements(born) && e in o
    ensures o[e].shares <= Sum(born, o)
  {
    if born[|born| - 1] != e {
      SumHolds(born[..|born| - 1], o, e);
    }
  }

  lemma {:induction false} SumNone(born: seq<Element>, o: Owned)
    requires o == map[]
    ensures Sum(born, o) == multiset{}
  {
    if born != [] {
      SumNone(born[..|born| - 1], o);
    }
  }

  // ----- the arrays that are stored

  function Text(text: Texts, a: P.Addr): string {
    if a in text then text[a] else ""
  }

  function TextsOf(text: Texts, items: seq<P.Addr>): seq<string> {
    if items == [] then [] else TextsOf(text, items[..|items| - 1]) + [Text(text, items[|items| - 1])]
  }

  /** The object paths that a property lists, if it lists any. */
  function PathsIn(text: Texts, p: P.Prop): Option<seq<string>> {
    if p.dtype.TArray? && p.value.Items? && p.value.list.Some? && p.value.list.value.Paths?
    then Some(TextsOf(text, p.value.list.value.items)) else None
  }

  /** The object paths stored under a name: those of the first property of that name. */
  function Stored(text: Texts, props: seq<P.Prop>, name: string): Option<seq<string>> {
    if props == [] then None
    else if Lookup(text, props[0].name) == Some(name) then PathsIn(text, props[0])
    else Stored(text, props[1..], name)
  }

  /** What an array on the wire is compared with the stored one as. */
  function Items(w: P.WireArray): seq<string> {
    if w.WPaths? || w.WStrings? then w.texts else []
  }

  lemma {:induction false} TextsShown(text: Texts, items: seq<P.Addr>, ws: seq<string>, n: nat)
    requires n <= |items| && n <= |ws| && P.ShowsItems(text, items, ws, n)
    ensures TextsOf(text, items[..n]) == ws[..n]
  {
    if n > 0 {
      TextsShown(text, items, ws, n - 1);
      assert items[..n][..n - 1] == items[..n - 1] && ws[..n] == ws[..n - 1] + [ws[n - 1]];
    }
  }

  /** A property that shows an array of paths lists these paths; one that shows anything else lists
      none. */
  lemma PathsShown(text: Texts, p: P.Prop, name: string, m: P.Message)
    requires P.Plain(m) && P.Reported(text, p, name, m)
    ensures PathsIn(text, p) == if m.MArray? && m.w.WPaths? then Some(m.w.texts) else None
  {
    if m.MArray? && m.w.WPaths? {
      var items := p.value.list.value.items;
      TextsShown(text, items, m.w.texts, |items|);
      assert items[..|items|] == items && m.w.texts[..|items|] == m.w.texts;
    }
  }

  /** What is stored under a name is what its first property lists. */
  lemma {:induction false} StoredFirst(text: Texts, props: seq<P.Prop>, i: nat, name: string)
    requires P.FirstNamed(text, props, i, name)
    ensures Stored(text, props, name) == PathsIn(text, props[i])
  {
    if i > 0 {
      assert !P.ShowsText(text, props[0].name, name);
      StoredFirst(text, props[1..], i - 1, name);
    } else {
      assert P.ShowsText(text, props[0].name, name);
    }
  }

  lemma {:induction false} StoredNone(text: Texts, props: seq<P.Prop>, name: string)
    requires forall k :: 0 <= k < |props| ==> !P.ShowsText(text, props[k].name, name)
    ensures Stored(text, props, name) == None
  {
    if props != [] {
      assert !P.ShowsText(text, props[0].name, name);
      StoredNone(text, props[1..], name);
    }
  }

  /** The array of paths that was last reported under a name is found; nothing is found when the
      name was not reported, or something else was. */
  lemma StoredIs(text: Texts, props: seq<P.Prop>, i: nat, name: string, m: P.Message)
    requires P.Plain(m) && P.FirstNamed(text, props, i, name) && P.Reported(text, props[i], name, m)
    ensures Stored(text, props, name) == if m.MArray? && m.w.WPaths? then Some(m.w.texts) else None
  {
    StoredFirst(text, props, i, name);
    PathsShown(text, props[i], name, m);
  }

  /** Properties of other names do not matter. */
  lemma {:induction false} StoredSkip(text: Texts, props: seq<P.Prop>, i: nat, name: string)
    requires i < |props| && !P.ShowsText(text, props[i].name, name)
    ensures Stored(text, props, name) == Stored(text, P.Others(props, i), name)
  {
    var others := P.Others(props, i);
    if i > 0 {
      StoredSkip(text, props[1..], i - 1, name);
      assert others[1..] == P.Others(props[1..], i - 1);
    } else {
      assert others == props[1..];
    }
  }

  lemma {:induction false} TextsKept(before: Texts, after: Texts, items: seq<P.Addr>, held: Shares)
    requires P.Keeps(before, after, held) && forall k :: 0 <= k < |items| ==> items[k] in held
    ensures TextsOf(after, items) == TextsOf(before, items)
  {
    if items != [] {
      TextsKept(before, after, items[..|items| - 1], held);
    }
  }

  lemma PathsKept(before: Texts, after: Texts, p: P.Prop)
    requires P.Keeps(before, after, P.HeldByProp(p))
    ensures PathsIn(after, p) == PathsIn(before, p) && Lookup(after, p.name) == Lookup(before, p.name)
  {
    assert p.name in P.HeldByProp(p);
    if p.dtype.TArray? && p.value.Items? && p.value.list.Some? && p.value.list.value.Paths? {
      var items := p.value.list.value.items;
      forall k | 0 <= k < |items| ensures items[k] in P.HeldByProp(p) {
        P.HeldItem(items, k);
      }
      TextsKept(before, after, items, P.HeldByProp(p));
    }
  }

  /** What is stored stays while its strings are held. */
  lemma {:induction false} StoredKept(before: Texts, after: Texts, props: seq<P.Prop>, name: string)
    requires P.Keeps(before, after, P.HeldByProps(props))
    ensures Stored(after, props, name) == Stored(before, props, name)
  {
    if props != [] {
      assert P.HeldByProps(props) == P.HeldByProp(props[0]) + P.HeldByProps(props[1..]);
      PathsKept(before, after, props[0]);
      StoredKept(before, after, props[1..], name);
    }
  }

  /** lists says, for every name, which paths are stored under it. */
  ghost predicate Showing(text: Texts, props: seq<P.Prop>, lists: map<string, seq<string>>) {
    forall n :: Stored(text, props, n) == Lookup(lists, n)
  }

  lemma ShowingKept(before: Texts, after: Texts, props: seq<P.Prop>, lists: map<string, seq<string>>)
    requires Showing(before, props, lists) && P.Keeps(before, after, P.HeldByProps(props))
    ensures Showing(after, props, lists)
  {
    forall n ensures Stored(after, props, n) == Lookup(lists, n) {
      StoredKept(before, after, props, n);
    }
  }

  /** The arrays of paths after one more report. */
  ghost function ListsAfter(lists: map<string, seq<string>>, name: string, m: P.Message): map<string, seq<string>> {
    if m.MArray? && m.w.WPaths? then lists[name := m.w.texts] else lists - {name}
  }

  lemma StoredOther(text: Texts, ps: seq<P.Prop>, text': Texts, ps': seq<P.Prop>, i: nat, name: string, n: string)
    requires P.StoredAt(ps, ps', i) && n != name && P.ShowsText(text', ps'[i].name, name)
    requires (i < |ps| ==> P.ShowsText(text, ps[i].name, name)) && P.Keeps(text, text', P.HeldByOthers(ps', i))
    ensures Stored(text', ps', n) == Stored(text, ps, n)
  {
    StoredSkip(text', ps', i, n);
    StoredKept(text, text', P.Others(ps', i), n);
    if i < |ps| {
      StoredSkip(text, ps, i, n);
      assert P.Others(ps', i) == P.Others(ps, i);
    } else {
      assert P.Others(ps', i) == ps;
    }
  }

  /** A report changes what is stored under its own name and nothing else. */
  lemma ShowingReported(text: Texts, ps: seq<P.Prop>, lists: map<string, seq<string>>, text': Texts, ps': seq<P.Prop>,
                        i: nat, name: string, m: P.Message)
    requires Showing(text, ps, lists) && P.Plain(m)
    requires P.StoredAt(ps, ps', i) && P.Reported(text', ps'[i], name, m) && P.FirstNamed(text', ps', i, name)
    requires (i < |ps| ==> P.ShowsText(text, ps[i].name, name)) && P.Keeps(text, text', P.HeldByOthers(ps', i))
    ensures Showing(text', ps', ListsAfter(lists, name, m))
  {
    forall n ensures Stored(text', ps', n) == Lookup(ListsAfter(lists, name, m), n) {
      if n == name {
        StoredIs(text', ps', i, name, m);
      } else {
        StoredOther(text, ps, text', ps', i, name, n);
        assert Stored(text, ps, n) == Lookup(lists, n);
      }
    }
  }

  // ----- the strings of all elements

  /** The strings of an element are the texts they stand for. */
  ghost predicate Named(text: Texts, e: Element, s: Strings) {
    P.ShowsText(text, s.path, e.path) && P.ShowsText(text, s.iface, e.iface) && P.AllFit(s.props)
  }

  ghost predicate Right(text: Texts, m: Books, o: Owned, e: Element) {
    e in m && e in o && o[e].shares == Owns(m[e]) && Named(text, e, m[e]) && Showing(text, m[e].props, o[e].lists)
  }

  ghost predicate AllRight(text: Texts, m: Books, o: Owned) {
    m.Keys == o.Keys && forall e {:trigger Right(text, m, o, e)} :: e in m ==> Right(text, m, o, e)
  }

  /** All stays right while what is owned keeps its texts. */
  lemma RightKept(before: Texts, after: Texts, born: seq<Element>, m: Books, o: Owned, held: Shares)
    requires AllRight(before, m, o) && m.Keys <= Elements(born)
    requires P.Keeps(before, after, held) && Sum(born, o) <= held
    ensures AllRight(after, m, o)
  {
    forall e | e in m ensures Right(after, m, o, e) {
      SumHolds(born, o, e);
      assert Right(before, m, o, e);
      assert m[e].path in o[e].shares && m[e].iface in o[e].shares;
      ShowingKept(before, after, m[e].props, o[e].lists);
    }
  }

  lemma RightSame(text: Texts, m: Books, o: Owned, m': Books, o': Owned, e: Element)
    requires Right(text, m, o, e) && e in m' && e in o' && m'[e] == m[e] && o'[e] == o[e]
    ensures Right(text, m', o', e)
  {}

  lemma RightWithout(text: Texts, m: Books, o: Owned, e: Element)
    requires AllRight(text, m, o)
    ensures AllRight(text, m - {e}, o - {e}) && (m - {e}).Keys == m.Keys - {e}
  {
    forall x | x in m - {e} ensures Right(text, m - {e}, o - {e}, x) {
      assert Right(text, m, o, x);
      RightSame(text, m, o, m - {e}, o - {e}, x);
    }
  }

  lemma RightWith(text: Texts, m: Books, o: Owned, e: Element, m': Books, o': Owned)
    requires AllRight(text, m, o) && Right(text, m', o', e)
    requires m'.Keys == o'.Keys == m.Keys + {e} && forall x :: x in m && x != e ==> m'[x] == m[x] && o'[x] == o[x]
    ensures AllRight(text, m', o')
  {
    forall x | x in m' ensures Right(text, m', o', x) {
      if x != e {
        assert Right(text, m, o, x);
        RightSame(text, m, o, m', o', x);
      }
    }
  }

  /** Every share in the pool is one of an element that is not freed, or of somebody else, and
      the strings of every element are what they should be. */
  ghost predicate Kept(text: Texts, shares: Shares, base: Shares, born: seq<Element>, m: Books, o: Owned) {
    shares == base + Sum(born, o) && AllRight(text, m, o) && Distinct(born) && m.Keys <= Elements(born)
  }

  /** Elements made meanwhile have no properties yet. */
  ghost predicate Grown(m: Books, o: Owned, m': Books, o': Owned) {
    && m.Keys <= m'.Keys && (forall e :: e in m' ==> if e in m then m'[e] == m[e] else m'[e].props == [])
    && forall e :: e in o ==> e in o' && o'[e] == o[e]
  }

  /** A new element joins the account. */
  lemma KeptBorn(base: Shares, born: seq<Element>, m: Books, o: Owned, e: Element, s: Strings, all: seq<Element>,
                 m': Books, o': Owned, before: Texts, after: Texts, shares: Shares)
    requires Kept(before, shares, base, born, m, o) && e !in Elements(born) && all == born + [e]
    requires m' == m[e := s] && o' == o[e := Account(Owns(s), map[])] && s.props == []
    requires P.Keeps(before, after, shares) && Named(after, e, s)
    ensures Kept(after, shares + Owns(s), base, all, m', o') && Elements(all) == Elements(born) + {e}
    ensures m'.Keys == m.Keys + {e} && Grown(m, o, m', o')
  {
    var x := Account(Owns(s), map[]);
    SumBorn(born, o, e, x, all, o');
    P.Swap(base, Sum(born, o), Owns(s));
    RightKept(before, after, born, m, o, shares);
    RightBorn(after, m', o', e, s, x);
    GrownOne(m, o, e, s, x, m', o');
    RightWith(after, m, o, e, m', o');
  }

  lemma RightBorn(text: Texts, m: Books, o: Owned, e: Element, s: Strings, x: Account)
    requires e in m && e in o && m[e] == s && o[e] == x && x == Account(Owns(s), map[])
    requires s.props == [] && Named(text, e, s)
    ensures Right(text, m, o, e)
  {}

  lemma GrownOne(m: Books, o: Owned, e: Element, s: Strings, x: Account, m': Books, o': Owned)
    requires m' == m[e := s] && o' == o[e := x] && e !in m && e !in o && s.props == []
    ensures m'.Keys == m.Keys + {e} && Grown(m, o, m', o')
    ensures forall y :: y in m ==> m'[y] == m[y] && (y in o ==> o'[y] == o[y])
  {}

  lemma GrownTwice(m: Books, o: Owned, mid: Books, mo: Owned, m': Books, o': Owned, all: set<Element>,
                   front: set<Element>, e: Element, es: set<Element>)
    requires Grown(m, o, mid, mo) && Grown(mid, mo, m', o') && es == front + {e}
    requires mid.Keys == m.Keys + front && m'.Keys == mid.Keys + {e}
    ensures Grown(m, o, m', o') && m'.Keys == m.Keys + es && all + front + {e} == all + es
  {}

  /** What is held beside the properties of e. */
  ghost function Beside(base: Shares, born: seq<Element>, m: Books, o: Owned, e: Element): Shares
    requires e in m
  {
    base + Sum(born, o - {e}) + (multiset{m[e].path} + multiset{m[e].iface})
  }

  lemma BesideProps(base: Shares, born: seq<Element>, o: Owned, e: Element, s: Strings)
    requires Distinct(born) && e in Elements(born) && e in o && o[e].shares == Owns(s)
    ensures base + Sum(born, o) ==
            base + Sum(born, o - {e}) + (multiset{s.path} + multiset{s.iface}) + P.HeldByProps(s.props)
  {
    SumOne(born, o, e);
  }

  /** What one element holds, and what is held beside it. */
  lemma KeptOne(base: Shares, born: seq<Element>, m: Books, o: Owned, e: Element, text: Texts, shares: Shares)
    requires Kept(text, shares, base, born, m, o) && e in m
    ensures e in o && Showing(text, m[e].props, o[e].lists)
    ensures shares == Beside(base, born, m, o, e) + P.HeldByProps(m[e].props) && P.AllFit(m[e].props)
    ensures shares == base + Sum(born, o - {e}) + Owns(m[e])
  {
    assert Right(text, m, o, e);
    BesideProps(base, born, o, e, m[e]);
    SumOne(born, o, e);
  }

  /** The properties of e become others; everything else that is held keeps its text. */
  lemma KeptReplaced(base: Shares, born: seq<Element>, m: Books, o: Owned, e: Element, s: Strings,
                     lists: map<string, seq<string>>, m': Books, o': Owned, before: Texts, after: Texts,
                     shares: Shares, shares': Shares)
    requires Kept(before, shares, base, born, m, o) && e in m && s == m[e].(props := s.props)
    requires m' == m[e := s] && o' == o[e := Account(Owns(s), lists)] && Showing(after, s.props, lists)
    requires P.AllFit(s.props) && P.Keeps(before, after, Beside(base, born, m, o, e))
    requires shares' == Beside(base, born, m, o, e) + P.HeldByProps(s.props)
    ensures Kept(after, shares', base, born, m', o')
    ensures m'.Keys == m.Keys && m' - {e} == m - {e} && o' - {e} == o - {e}
    ensures P.Keeps(before, after, Sum(born, o' - {e}))
  {
    assert Right(before, m, o, e);
    Replaced(m, e, s, m');
    Replaced(o, e, Account(Owns(s), lists), o');
    BesideProps(base, born, o', e, s);
    RightWithout(before, m, o, e);
    RightKept(before, after, born, m - {e}, o - {e}, Beside(base, born, m, o, e));
    RightWith(after, m - {e}, o - {e}, e, m', o');
  }

  lemma Replaced<T>(m: map<Element, T>, e: Element, x: T, m': map<Element, T>)
    requires e in m && m' == m[e := x]
    ensures m' - {e} == m - {e} && m'.Keys == m.Keys == (m - {e}).Keys + {e}
    ensures forall y :: y in m - {e} ==> m'[y] == (m - {e})[y]
  {}

  /** An element is gone with its strings. */
  lemma KeptWithout(base: Shares, born: seq<Element>, m: Books, o: Owned, e: Element, before: Texts, after: Texts,
                    shares: Shares, shares': Shares)
    requires Kept(before, shares, base, born, m, o) && e in m
    requires shares' == base + Sum(born, o - {e}) && P.Keeps(before, after, shares')
    ensures Kept(after, shares', base, born, m - {e}, o - {e})
  {
    RightWithout(before, m, o, e);
    RightKept(before, after, born, m - {e}, o - {e}, shares');
  }

  // ----- the pool

  /** The strings of a new element. */
  method Share(pool: P.Pool, e: Element) returns (s: Strings)
    requires pool.Valid()
    modifies pool
    ensures pool.Valid() && Named(pool.text, e, s) && s.props == [] && P.Extends(old(pool.text), pool.text)
    ensures pool.shares == old(pool.shares) + Owns(s)
  {
    var path := pool.Add(e.path);
    var iface := pool.Add(e.iface);
    s := Strings(path, iface, []);
    assert Owns(s) == multiset{path} + multiset{iface};
  }

  /** The properties of an element as one more is reported; rest is held beside them. */
  method ReportOne(pool: P.Pool, props: seq<P.Prop>, name: string, m: P.Message, ghost rest: Shares)
    returns (props': seq<P.Prop>, i: nat)
    requires pool.Valid() && P.AllFit(props) && P.Plain(m) && pool.shares == rest + P.HeldByProps(props)
    modifies pool
    ensures pool.Valid() && P.AllFit(props') && pool.shares == rest + P.HeldByProps(props')
    ensures P.StoredAt(props, props', i) && P.Reported(pool.text, props'[i], name, m)
    ensures P.FirstNamed(pool.text, props', i, name) && P.Keeps(old(pool.text), pool.text, P.HeldByOthers(props', i))
    ensures i < |props| ==> P.ShowsText(old(pool.text), props[i].name, name)
    ensures P.Keeps(old(pool.text), pool.text, rest)
  {
    var record := new P.Record();
    record.props := props;
    var _, k := P.PropertyChanged(pool, record, name, m, rest);
    props', i := record.props, k;
  }

  /** The strings of an element that is freed: its properties', its interface and its path. */
  method Give(pool: P.Pool, s: Strings, ghost rest: Shares)
    requires pool.Valid() && pool.shares == rest + Owns(s)
    modifies pool
    ensures pool.Valid() && pool.shares == rest && P.Keeps(old(pool.text), pool.text, rest)
  {
    var record := new P.Record();
    record.props := s.props;
    ghost var both := multiset{s.path} + multiset{s.iface};
    P.Swap(rest, both, P.HeldByProps(s.props));
    P.FreeAll(pool, record, rest + both);
    P.Swap(rest, multiset{s.path}, multiset{s.iface});
    P.DelOne(pool, s.iface, rest + multiset{s.path});
    P.DelOne(pool, s.path, rest);
  }

  /** The account after an element gave back its strings. */
  method Return(pool: P.Pool, ghost base: Shares, ghost born: seq<Element>, m: Books, ghost o: Owned, e: Element)
    returns (m': Books, ghost o': Owned)
    requires pool.Valid() && Kept(pool.text, pool.shares, base, born, m, o) && e in m
    modifies pool
    ensures pool.Valid() && Kept(pool.text, pool.shares, base, born, m', o') && m' == m - {e} && o' == o - {e}
  {
    ghost var text, shares := pool.text, pool.shares;
    KeptOne(base, born, m, o, e, text, shares);
    Give(pool, m[e], base + Sum(born, o - {e}));
    m', o' := m - {e}, o - {e};
    KeptWithout(base, born, m, o, e, text, pool.text, shares, pool.shares);
  }

  /** The property at i of e, the first of its name, and no other, is new or different and shows
      what was reported; what is stored under other names, or by other elements, stays. */
  ghost predicate Exchanged(before: Texts, m: Books, o: Owned, after: Texts, m': Books, o': Owned, others: Shares,
                            e: Element, name: string, msg: P.Message, i: nat) {
    && e in m && m'.Keys == m.Keys && m' - {e} == m - {e} && P.FirstNamed(after, m'[e].props, i, name)
    && e in o && e in o' && o' - {e} == o - {e} && o'[e].lists == ListsAfter(o[e].lists, name, msg)
    && P.StoredAt(m[e].props, m'[e].props, i) && P.Reported(after, m'[e].props[i], name, msg)
    && P.Keeps(before, after, others)
  }

  /** The account after the property at i became what was reported. */
  lemma KeptReported(base: Shares, born: seq<Element>, m: Books, o: Owned, e: Element, s: Strings, m': Books, o': Owned,
                     before: Texts, after: Texts, shares: Shares, shares': Shares, name: string, msg: P.Message, i: nat)
    requires Kept(before, shares, base, born, m, o) && e in m && e in o && s == m[e].(props := s.props)
    requires m' == m[e := s] && o' == o[e := Account(Owns(s), ListsAfter(o[e].lists, name, msg))]
    requires P.AllFit(s.props) && P.Keeps(before, after, Beside(base, born, m, o, e)) && P.Plain(msg)
    requires shares' == Beside(base, born, m, o, e) + P.HeldByProps(s.props)
    requires P.StoredAt(m[e].props, s.props, i) && P.Reported(after, s.props[i], name, msg)
    requires P.FirstNamed(after, s.props, i, name) && P.Keeps(before, after, P.HeldByOthers(s.props, i))
    requires i < |m[e].props| ==> P.ShowsText(before, m[e].props[i].name, name)
    ensures Kept(after, shares', base, born, m', o')
    ensures Exchanged(before, m, o, after, m', o', Sum(born, o' - {e}), e, name, msg, i)
  {
    KeptOne(base, born, m, o, e, before, shares);
    var lists := ListsAfter(o[e].lists, name, msg);
    ShowingReported(before, m[e].props, o[e].lists, after, s.props, i, name, msg);
    KeptReplaced(base, born, m, o, e, s, lists, m', o', before, after, shares, shares');
  }

  /** The account after a report of a property of e. */
  method Exchange(pool: P.Pool, ghost base: Shares, ghost born: seq<Element>, m: Books, ghost o: Owned, e: Element,
                  name: string, msg: P.Message)
    returns (m': Books, ghost o': Owned, i: nat)
    requires pool.Valid() && Kept(pool.text, pool.shares, base, born, m, o) && e in m && P.Plain(msg)
    modifies pool
    ensures pool.Valid() && Kept(pool.text, pool.shares, base, born, m', o')
    ensures Exchanged(old(pool.text), m, o, pool.text, m', o', Sum(born, o' - {e}), e, name, msg, i)
  {
    ghost var text, shares := pool.text, pool.shares;
    KeptOne(base, born, m, o, e, text, shares);
    var props;
    props, i := ReportOne(pool, m[e].props, name, msg, Beside(base, born, m, o, e));
    var s := m[e].(props := props);
    m', o' := m[e := s], o[e := Account(Owns(s), ListsAfter(o[e].lists, name, msg))];
    KeptReported(base, born, m, o, e, s, m', o', text, pool.text, shares, pool.shares, name, msg, i);
  }

  class Ledger {
    const pool: P.Pool
    const cache: Cache
    var strings: Books               // of the elements that are not freed
    ghost var owns: Owned            // the shares they are, and the arrays of paths they show
    ghost var born: seq<Element>     // every element ever made
    ghost const base: Shares         // the shares of everybody else

    ghost predicate Balanced()
      reads this, pool
    {
      pool.Valid() && Kept(pool.text, pool.shares, base, born, strings, owns)
    }

    /** Exactly the elements that are not freed have strings. */
    ghost predicate Matched()
      reads `strings, `born, cache`known, cache.known`freed
    {
      Living(strings.Keys)
    }

    ghost predicate Living(es: set<Element>)
      reads `born, cache`known, cache.known`freed
    {
      Elements(born) == cache.known && es <= cache.known && forall e :: e in cache.known ==> (e in es <==> !e.freed)
    }

    ghost predicate Valid()
      reads this, pool, cache, cache.known
    {
      cache.Valid() && Balanced() && Matched()
    }

    /** A pool that others share already. */
    constructor (pool: P.Pool)
      requires pool.Valid()
      ensures Valid() && this.pool == pool && base == pool.shares && strings == map[] && fresh(cache)
      ensures cache.known == {} && cache.elements == map[] && cache.events == []
    {
      this.pool := pool;
      cache := new Cache();
      strings, owns, born := map[], map[], [];
      base := pool.shares;
    }

    /** e_connman_element_new, as far as strings go. */
    method TakeStrings(e: Element)
      requires Balanced() && e !in Elements(born)
      modifies `strings, `owns, `born, pool
      ensures Balanced() && Elements(born) == old(Elements(born)) + {e}
      ensures strings.Keys == old(strings.Keys) + {e} && Grown(old(strings), old(owns), strings, owns)
      ensures P.Extends(old(pool.text), pool.text)
    {
      ghost var text, shares, m, o, all := pool.text, pool.shares, strings, owns, born;
      assert forall a :: a in shares ==> a in text;
      var s := Share(pool, e);
      strings := strings[e := s];
      owns := owns[e := Account(Owns(s), map[])];
      born := born + [e];
      KeptBorn(base, all, m, o, e, s, born, strings, owns, text, pool.text, shares);
    }

    /** The strings of the elements that an array made. */
    method TakeAll(es: seq<Element>)
      requires Balanced() && Distinct(es) && Elements(born) !! Elements(es)
      modifies `strings, `owns, `born, pool
      ensures Balanced() && Elements(born) == old(Elements(born)) + Elements(es)
      ensures strings.Keys == old(strings.Keys) + Elements(es) && Grown(old(strings), old(owns), strings, owns)
      ensures P.Extends(old(pool.text), pool.text)
    {
      if es != [] {
        var front, e := es[..|es| - 1], es[|es| - 1];
        ghost var all, m, o := Elements(born), strings, owns;
        TakeAll(front);
        ghost var mid, mo := strings, owns;
        assert e !in Elements(born);
        TakeStrings(e);
        GrownTwice(m, o, mid, mo, strings, owns, all, Elements(front), e, Elements(es));
      }
    }

    /** The books after an exchange with the pool. */
    method Enter(books: Books, ghost parts: Owned)
      requires pool.Valid() && Kept(pool.text, pool.shares, base, born, books, parts)
      modifies `strings, `owns
      ensures Balanced() && strings == books && owns == parts
    {
      ghost var ok := pool.Valid();
      strings, owns := books, parts;
      assert pool.Valid() == ok;
    }

    /** What is given back when e, which nobody holds any more, is freed. */
    method GiveStrings(e: Element)
      requires Balanced() && e in strings
      modifies `strings, `owns, pool
      ensures Balanced() && strings == old(strings) - {e} && owns == old(owns) - {e}
    {
      var books;
      ghost var parts;
      books, parts := Return(pool, base, born, strings, owns, e);
      Enter(books, parts);
    }

    /** The strings of a reported property are exchanged. */
    method ReportStrings(e: Element, name: string, m: P.Message) returns (i: nat)
      requires Balanced() && e in strings && P.Plain(m)
      modifies `strings, `owns, pool
      ensures Balanced()
      ensures Exchanged(old(pool.text), old(strings), old(owns), pool.text, strings, owns, Sum(born, owns - {e}),
                        e, name, m, i)
    {
      var books;
      ghost var parts;
      books, parts, i := Exchange(pool, base, born, strings, owns, e, name, m);
      Enter(books, parts);
    }
  }
}
