/** Shared strings and the properties that hold them
    (src/lib/connman0_7x/e_connman_element.c, over eina_stringshare). */
module Properties {
  import opened Counting
  import opened Prelude

  /** Address of a shared string. An address may be used again once its string is freed. */
  type Addr = nat

  /** The string pool: one address for each live text, found by hashing, and how often it
      is shared. */
  class Pool {
    var text: map<Addr, string>
    var hash: map<string, Addr>
    var shares: multiset<Addr>

    /** Addresses and texts find each other. */
    ghost predicate Hashed()
      reads this
    {
      && (forall a :: a in text ==> text[a] in hash && hash[text[a]] == a)
      && (forall s :: s in hash ==> hash[s] in text && text[hash[s]] == s)
    }

    ghost predicate Valid()
      reads this
    {
      Hashed() && forall a :: a in shares <==> a in text
    }

    constructor ()
      ensures Valid() && shares == multiset{}
    {
      text, hash, shares := map[], map[], multiset{};
    }

    /** eina_stringshare_add. */
    method Add(s: string) returns (a: Addr)
      requires Valid()
      modifies this
      ensures Valid() && a in text && text[a] == s
      ensures shares == old(shares) + multiset{a}
      ensures forall b :: b in old(text) ==> b in text && text[b] == old(text)[b]
    {
      if s in hash {
        a := hash[s];
      } else {
        a := Intern(s);
      }
      shares := shares + multiset{a};
    }

    /** A new text gets an address of its own. */
    method Intern(s: string) returns (a: Addr)
      requires Hashed() && s !in hash
      modifies `text, `hash
      ensures Hashed() && a !in old(text) && text == old(text)[a := s]
    {
      a := Unused(text.Keys);
      text := text[a := s];
      hash := hash[s := a];
    }

    /** eina_stringshare_del of a string that is shared. */
    method Del(a: Addr)
      requires Valid() && a in shares
      modifies this
      ensures Valid() && shares == old(shares) - multiset{a}
      ensures forall b :: b in text ==> b in old(text) && text[b] == old(text)[b]
    {
      shares := shares - multiset{a};
      if a !in shares {
        hash := hash - {text[a]};
        text := text - {a};
      }
    }
  }

  method Unused(used: set<Addr>) returns (a: Addr)
    ensures a !in used
  {
    a := 0;
    var left := used;
    while left != {}
      invariant left <= used && forall b :: b in used && b !in left ==> b < a
      decreases left
    {
      var b :| b in left;
      if a <= b {
        a := b + 1;
      }
      left := left - {b};
    }
  }

  /** The strings held elsewhere keep their addresses and texts. */
  ghost predicate Keeps(before: map<Addr, string>, after: map<Addr, string>, held: multiset<Addr>) {
    forall a :: a in held ==> a in before && a in after && after[a] == before[a]
  }

  // ----- property values

  datatype DType = TNone | TBoolean | TByte | TUint16 | TUint32 | TString | TPath | TArray | TOther(code: int)

  datatype Value =
    | Nothing
    | Scalar(n: int)
    | Text(a: Addr)
    | Items(list: Option<Arr>)

  datatype Arr =
    | Bytes(bytes: seq<int>)
    | Strings(items: seq<Addr>)
    | Paths(items: seq<Addr>)
    | Dict(entries: seq<Entry>)

  /** A dictionary entry; its value is a scalar or a string. */
  datatype Entry = Entry(name: Addr, value: Value)

  datatype Prop = Prop(name: Addr, dtype: DType, value: Value)

  predicate IsScalar(t: DType) {
    t.TBoolean? || t.TByte? || t.TUint16? || t.TUint32?
  }

  predicate IsText(t: DType) {
    t.TString? || t.TPath?
  }

  predicate Fits(t: DType, v: Value) {
    if IsScalar(t) then v.Scalar? else if IsText(t) then v.Text? else if t.TArray? then v.Items? else v.Nothing?
  }

  predicate EntryOk(e: Entry) {
    e.value.Scalar? || e.value.Text?
  }

  predicate ArrOk(arr: Arr) {
    arr.Dict? ==> forall k :: 0 <= k < |arr.entries| ==> EntryOk(arr.entries[k])
  }

  predicate ValueOk(v: Value) {
    v.Items? && v.list.Some? ==> ArrOk(v.list.value)
  }

  ghost function HeldByEntry(e: Entry): multiset<Addr> {
    if e.value.Text? then multiset{e.name, e.value.a} else multiset{e.name}
  }

  ghost function HeldByEntries(es: seq<Entry>): multiset<Addr> {
    if es == [] then multiset{} else HeldByEntry(es[0]) + HeldByEntries(es[1..])
  }

  ghost function HeldByItems(items: seq<Addr>): multiset<Addr> {
    if items == [] then multiset{} else multiset{items[0]} + HeldByItems(items[1..])
  }

  ghost function HeldByArr(arr: Arr): multiset<Addr> {
    match arr
    case Bytes(_) => multiset{}
    case Strings(items) => HeldByItems(items)
    case Paths(items) => HeldByItems(items)
    case Dict(entries) => HeldByEntries(entries)
  }

  /** The shares a value owns. */
  ghost function Held(v: Value): multiset<Addr> {
    match v
    case Text(a) => multiset{a}
    case Items(Some(arr)) => HeldByArr(arr)
    case _ => multiset{}
  }

  // ----- freeing

  /** One share is given back; rest are the shares of everybody else. */
  method DelOne(pool: Pool, a: Addr, ghost rest: multiset<Addr>)
    requires pool.Valid() && pool.shares == rest + multiset{a}
    modifies pool
    ensures pool.Valid() && pool.shares == rest
    ensures Keeps(old(pool.text), pool.text, rest)
  {
    pool.Del(a);
  }

  /** _e_connman_element_dict_entry_free. */
  method EntryFree(pool: Pool, e: Entry, ghost rest: multiset<Addr>)
    requires pool.Valid() && pool.shares == rest + HeldByEntry(e)
    modifies pool
    ensures pool.Valid() && pool.shares == rest
    ensures Keeps(old(pool.text), pool.text, rest)
  {
    if e.value.Text? {
      DelOne(pool, e.value.a, rest + multiset{e.name});
    }
    DelOne(pool, e.name, rest);
  }

  method ItemsFree(pool: Pool, items: seq<Addr>, ghost rest: multiset<Addr>)
    requires pool.Valid() && pool.shares == rest + HeldByItems(items)
    modifies pool
    ensures pool.Valid() && pool.shares == rest
    ensures Keeps(old(pool.text), pool.text, rest)
  {
    for i := 0 to |items|
      invariant pool.Valid() && pool.shares == rest + HeldByItems(items[i..])
      invariant Keeps(old(pool.text), pool.text, rest)
    {
      assert items[i..][1..] == items[i + 1..];
      DelOne(pool, items[i], rest + HeldByItems(items[i + 1..]));
    }
  }

  method EntryFreeAt(pool: Pool, es: seq<Entry>, i: nat, ghost rest: multiset<Addr>)
    requires i < |es| && pool.Valid() && pool.shares == rest + HeldByEntries(es[i..])
    modifies pool
    ensures pool.Valid() && pool.shares == rest + HeldByEntries(es[i + 1..])
    ensures Keeps(old(pool.text), pool.text, rest)
  {
    assert es[i..][1..] == es[i + 1..];
    ghost var tail := HeldByEntries(es[i + 1..]);
    assert HeldByEntries(es[i..]) == HeldByEntry(es[i]) + tail;
    Swap(rest, HeldByEntry(es[i]), tail);
    EntryFree(pool, es[i], rest + tail);
  }

  lemma Swap(a: multiset<Addr>, b: multiset<Addr>, c: multiset<Addr>)
    ensures a + (b + c) == (a + b) + c && a + b == b + a && (a + b) + c == (a + c) + b
  {}

  method EntriesFree(pool: Pool, es: seq<Entry>, ghost rest: multiset<Addr>)
    requires pool.Valid() && pool.shares == rest + HeldByEntries(es)
    modifies pool
    ensures pool.Valid() && pool.shares == rest
    ensures Keeps(old(pool.text), pool.text, rest)
  {
    for i := 0 to |es|
      invariant pool.Valid() && pool.shares == rest + HeldByEntries(es[i..])
      invariant Keeps(old(pool.text), pool.text, rest)
    {
      EntryFreeAt(pool, es, i, rest);
    }
  }

  /** _e_connman_element_array_free. */
  method ArrayFree(pool: Pool, arr: Arr, ghost rest: multiset<Addr>)
    requires pool.Valid() && pool.shares == rest + HeldByArr(arr)
    modifies pool
    ensures pool.Valid() && pool.shares == rest
    ensures Keeps(old(pool.text), pool.text, rest)
  {
    match arr {
      case Bytes(_) =>
      case Strings(items) => ItemsFree(pool, items, rest);
      case Paths(items) => ItemsFree(pool, items, rest);
      case Dict(entries) => EntriesFree(pool, entries, rest);
    }
  }

  /** _e_connman_element_property_value_free. */
  method ValueFree(pool: Pool, v: Value, ghost rest: multiset<Addr>)
    requires pool.Valid() && pool.shares == rest + Held(v)
    modifies pool
    ensures pool.Valid() && pool.shares == rest
    ensures Keeps(old(pool.text), pool.text, rest)
  {
    match v {
      case Text(a) => DelOne(pool, a, rest);
      case Items(Some(arr)) => ArrayFree(pool, arr, rest);
      case Items(None) =>
      case Scalar(_) =>
      case Nothing =>
    }
  }

  // ----- what a message brings

  datatype Data =
    | DScalar(n: int)
    | DText(s: string)
    | DArray(list: Option<Arr>)
    | DOther

  predicate DataFits(t: DType, d: Data) {
    && (if IsScalar(t) then d.DScalar? else if IsText(t) then d.DText? else if t.TArray? then d.DArray? else d.DOther?)
    && !t.TNone?
    && (d.DArray? && d.list.Some? ==> ArrOk(d.list.value))
  }

  /** The shares a freshly read array owns; plain strings are shared only during the update. */
  ghost function Brought(d: Data): multiset<Addr> {
    if d.DArray? && d.list.Some? then HeldByArr(d.list.value) else multiset{}
  }

  /** The new value shows what the message said. */
  ghost predicate Shows(text: map<Addr, string>, v: Value, d: Data) {
    match d
    case DScalar(n) => v == Scalar(n)
    case DText(s) => v.Text? && v.a in text && text[v.a] == s
    case DArray(arr) => v == Items(arr)
    case DOther => v == Nothing
  }

  /** When an update counts as a change: another type, any array, another scalar, another text. */
  ghost predicate Differs(text: map<Addr, string>, p: Prop, t: DType, d: Data) {
    p.dtype != t || (match d
                     case DScalar(n) => p.value != Scalar(n)
                     case DText(s) => p.value.Text? && p.value.a in text && text[p.value.a] != s
                     case DArray(_) => true
                     case DOther => false)
  }

  /** First part of the update: a value of another type is freed. */
  method Retype(pool: Pool, p: Prop, t: DType, ghost rest: multiset<Addr>) returns (v: Value, changed: bool)
    requires pool.Valid() && pool.shares == rest + Held(p.value)
    modifies pool
    ensures pool.Valid() && pool.shares == rest + Held(v)
    ensures Keeps(old(pool.text), pool.text, rest)
    ensures changed == (p.dtype != t) && v == if changed then Nothing else p.value
  {
    v, changed := p.value, false;
    if p.dtype != t {
      ValueFree(pool, v, rest);
      v, changed := Nothing, true;
    }
  }

  /** A string replaces a string: the old share is dropped first, then the addresses are
      compared; the address of the new string is live and cannot have been the old one's
      unless the texts are the same. */
  method StoreText(pool: Pool, v: Value, a: Addr, retyped: bool, ghost rest: multiset<Addr>)
    returns (v': Value, changed: bool)
    requires pool.Valid() && a in pool.text && pool.shares == rest + multiset{a} + Held(v)
    requires if retyped then v == Nothing else v.Text?
    modifies pool
    ensures pool.Valid() && pool.shares == rest + Held(v') && v' == Text(a) && a in pool.text
    ensures Keeps(old(pool.text), pool.text, rest + multiset{a})
    ensures changed <==> retyped || v.a != a
  {
    v', changed := v, retyped;
    if retyped {
      v' := Text(a);
    } else {
      DelOne(pool, v.a, rest + multiset{a});
      if v.a != a {
        v', changed := Text(a), true;
      }
    }
  }

  method StoreArray(pool: Pool, v: Value, list: Option<Arr>, retyped: bool, ghost rest: multiset<Addr>)
    returns (v': Value)
    requires pool.Valid() && pool.shares == rest + Held(Items(list)) + Held(v)
    requires if retyped then v == Nothing else v.Items?
    modifies pool
    ensures pool.Valid() && pool.shares == rest + Held(v') && v' == Items(list)
    ensures Keeps(old(pool.text), pool.text, rest + Held(v'))
  {
    if !retyped && v.list.Some? {
      ArrayFree(pool, v.list.value, rest + Held(Items(list)));
    }
    v' := Items(list);
  }

  method UpdateText(pool: Pool, p: Prop, t: DType, s: string, ghost rest: multiset<Addr>)
    returns (v: Value, changed: bool)
    requires pool.Valid() && pool.shares == rest + Held(p.value)
    requires Fits(p.dtype, p.value) && IsText(t)
    modifies pool
    ensures pool.Valid() && pool.shares == rest + Held(v)
    ensures Shows(pool.text, v, DText(s))
    ensures Keeps(old(pool.text), pool.text, rest)
    ensures changed <==> Differs(old(pool.text), p, t, DText(s))
  {
    assert p.value.Text? ==> p.value.a in pool.shares;
    var a := pool.Add(s);
    Swap(rest, Held(p.value), multiset{a});
    v, changed := Retype(pool, p, t, rest + multiset{a});
    assert a in rest + multiset{a} && pool.text[a] == s;
    v, changed := StoreText(pool, v, a, changed, rest);
  }

  method UpdateArray(pool: Pool, p: Prop, list: Option<Arr>, ghost rest: multiset<Addr>) returns (v: Value)
    requires pool.Valid() && pool.shares == rest + Held(p.value) + Held(Items(list))
    requires Fits(p.dtype, p.value)
    modifies pool
    ensures pool.Valid() && pool.shares == rest + Held(v) && v == Items(list)
    ensures Keeps(old(pool.text), pool.text, rest + Held(v))
  {
    var changed;
    assert pool.shares == rest + Held(Items(list)) + Held(p.value);
    v, changed := Retype(pool, p, TArray, rest + Held(Items(list)));
    v := StoreArray(pool, v, list, changed, rest);
  }

  /** _e_connman_element_property_update. The string of the message is shared before the old
      one is dropped. */
  method Update(pool: Pool, p: Prop, t: DType, d: Data, ghost rest: multiset<Addr>)
    returns (p': Prop, changed: bool)
    requires pool.Valid() && pool.shares == rest + Held(p.value) + Brought(d)
    requires Fits(p.dtype, p.value) && DataFits(t, d)
    modifies pool
    ensures pool.Valid() && pool.shares == rest + Held(p'.value)
    ensures p'.name == p.name && p'.dtype == t && Fits(t, p'.value)
    ensures Shows(pool.text, p'.value, d)
    ensures Keeps(old(pool.text), pool.text, rest + Brought(d))
    ensures changed <==> Differs(old(pool.text), p, t, d)
  {
    var v;
    match d {
      case DText(s) =>
        v, changed := UpdateText(pool, p, t, s, rest);
      case DArray(list) =>
        assert Brought(d) == Held(Items(list));
        v := UpdateArray(pool, p, list, rest);
        changed := true;
      case DScalar(n) =>
        v, changed := Retype(pool, p, t, rest);
        if changed || v.n != n {
          v, changed := Scalar(n), true;
        }
      case DOther =>
        v, changed := Retype(pool, p, t, rest);
    }
    p' := Prop(p.name, t, v);
  }

  // ----- reading an array from a message

  datatype WireValue = WScalar(n: int) | WText(s: string) | WUnusable

  datatype WireEntry = WireEntry(key: string, value: WireValue)

  datatype WireArray =
    | WEmpty
    | WBytes(bytes: seq<int>)
    | WStrings(texts: seq<string>)
    | WPaths(texts: seq<string>)
    | WDict(entries: seq<WireEntry>)
    | WUnknown

  /** Entries without a key or with a value of an unsupported type are skipped. */
  predicate Usable(w: WireEntry) {
    |w.key| > 0 && !w.value.WUnusable?
  }

  ghost predicate ShowsText(text: map<Addr, string>, a: Addr, s: string) {
    a in text && text[a] == s
  }

  /** The first n items show the first n texts. */
  ghost predicate ShowsItems(text: map<Addr, string>, items: seq<Addr>, ws: seq<string>, n: nat) {
    n == 0 ||
    (n <= |items| && n <= |ws| && ShowsText(text, items[n - 1], ws[n - 1]) && ShowsItems(text, items, ws, n - 1))
  }

  ghost predicate ShowsValue(text: map<Addr, string>, v: Value, w: WireValue) {
    match w
    case WScalar(n) => v == Scalar(n)
    case WText(s) => v.Text? && ShowsText(text, v.a, s)
    case WUnusable => false
  }

  ghost predicate ShowsEntry(text: map<Addr, string>, e: Entry, w: WireEntry) {
    ShowsText(text, e.name, w.key) && ShowsValue(text, e.value, w.value)
  }

  /** The first m entries show, in order, the usable ones among the first n on the wire. */
  ghost predicate ShowsEntries(text: map<Addr, string>, es: seq<Entry>, m: nat, ws: seq<WireEntry>, n: nat) {
    if n == 0 then m == 0 else
      && n <= |ws|
      && if Usable(ws[n - 1])
         then 0 < m <= |es| && ShowsEntry(text, es[m - 1], ws[n - 1]) && ShowsEntries(text, es, m - 1, ws, n - 1)
         else ShowsEntries(text, es, m, ws, n - 1)
  }

  /** Sharing one more string keeps every live text. */
  ghost predicate Extends(before: map<Addr, string>, after: map<Addr, string>) {
    forall b :: b in before ==> b in after && after[b] == before[b]
  }

  lemma {:induction false} ShowsItemsMore(before: map<Addr, string>, after: map<Addr, string>,
          items: seq<Addr>, a: Addr, ws: seq<string>, n: nat)
    requires ShowsItems(before, items, ws, n) && Extends(before, after)
    ensures ShowsItems(after, items + [a], ws, n)
  {
    if n > 0 {
      ShowsItemsMore(before, after, items, a, ws, n - 1);
    }
  }

  lemma {:induction false} ShowsEntriesMore(before: map<Addr, string>, after: map<Addr, string>,
          es: seq<Entry>, e: Entry, m: nat, ws: seq<WireEntry>, n: nat)
    requires ShowsEntries(before, es, m, ws, n) && Extends(before, after)
    ensures ShowsEntries(after, es + [e], m, ws, n)
  {
    if n > 0 {
      ShowsEntriesMore(before, after, es, e, if Usable(ws[n - 1]) then m - 1 else m, ws, n - 1);
    }
  }

  lemma ShowsEntriesNext(before: map<Addr, string>, after: map<Addr, string>, es: seq<Entry>, e: Entry,
                         ws: seq<WireEntry>, n: nat)
    requires ShowsEntries(before, es, |es|, ws, n) && Extends(before, after)
    requires n < |ws| && Usable(ws[n]) && ShowsEntry(after, e, ws[n])
    ensures ShowsEntries(after, es + [e], |es + [e]|, ws, n + 1)
  {
    ShowsEntriesMore(before, after, es, e, |es|, ws, n);
  }

  lemma {:induction false} ShowsEntriesOk(text: map<Addr, string>, es: seq<Entry>, m: nat, ws: seq<WireEntry>, n: nat)
    requires ShowsEntries(text, es, m, ws, n)
    ensures m <= |es| || m == 0
    ensures forall k :: 0 <= k < m ==> k < |es| && EntryOk(es[k])
  {
    if n > 0 {
      ShowsEntriesOk(text, es, if Usable(ws[n - 1]) then m - 1 else m, ws, n - 1);
    }
  }

  /** What the array read from a message says; empty and unsupported arrays give none. */
  ghost predicate ShowsArray(text: map<Addr, string>, list: Option<Arr>, w: WireArray) {
    match w
    case WEmpty => list.None?
    case WUnknown => list.None?
    case WBytes(bytes) => list == Some(Bytes(bytes))
    case WStrings(texts) => list.Some? && list.value.Strings? && |list.value.items| == |texts|
            && ShowsItems(text, list.value.items, texts, |texts|)
    case WPaths(texts) => list.Some? && list.value.Paths? && |list.value.items| == |texts|
            && ShowsItems(text, list.value.items, texts, |texts|)
    case WDict(ws) =>
      list.Some? && list.value.Dict? && ShowsEntries(text, list.value.entries, |list.value.entries|, ws, |ws|)
  }

  /** An entry with a key, and a value that is a scalar or text. */
  predicate Meaningful(w: WireEntry) {
    w.key != "" && (w.value.WScalar? || w.value.WText?)
  }

  /** How many of the first n entries on the wire are. */
  ghost function MeaningfulIn(ws: seq<WireEntry>, n: nat): nat
    requires n <= |ws|
  {
    if n == 0 then 0 else MeaningfulIn(ws, n - 1) + if Meaningful(ws[n - 1]) then 1 else 0
  }

  lemma {:induction false} EntriesKept(text: map<Addr, string>, es: seq<Entry>, m: nat, ws: seq<WireEntry>, n: nat)
    requires ShowsEntries(text, es, m, ws, n) && n <= |ws|
    ensures m == MeaningfulIn(ws, n)
  {
    if n > 0 {
      EntriesKept(text, es, if Usable(ws[n - 1]) then m - 1 else m, ws, n - 1);
    }
  }

  /** Exactly these are kept, each at its place. */
  lemma {:induction false} EntryAt(text: map<Addr, string>, es: seq<Entry>, m: nat, ws: seq<WireEntry>, n: nat, k: nat)
    requires ShowsEntries(text, es, m, ws, n) && n <= |ws| && k < n
    ensures m == MeaningfulIn(ws, n)
    ensures Meaningful(ws[k]) ==> MeaningfulIn(ws, k) < |es| && ShowsEntry(text, es[MeaningfulIn(ws, k)], ws[k])
  {
    EntriesKept(text, es, m, ws, n);
    if k < n - 1 {
      EntryAt(text, es, if Usable(ws[n - 1]) then m - 1 else m, ws, n - 1, k);
    }
  }

  lemma {:induction false} HeldByItemsPush(items: seq<Addr>, a: Addr)
    ensures HeldByItems(items + [a]) == HeldByItems(items) + multiset{a}
  {
    if items == [] {
      assert HeldByItems([a]) == multiset{a} + HeldByItems([]);
    } else {
      assert (items + [a])[1..] == items[1..] + [a];
      HeldByItemsPush(items[1..], a);
    }
  }

  lemma {:induction false} HeldByEntriesPush(es: seq<Entry>, e: Entry)
    ensures HeldByEntries(es + [e]) == HeldByEntries(es) + HeldByEntry(e)
  {
    if es == [] {
      assert [e][1..] == [];
    } else {
      assert (es + [e])[1..] == es[1..] + [e];
      HeldByEntriesPush(es[1..], e);
    }
  }

  method ReadItems(pool: Pool, texts: seq<string>) returns (items: seq<Addr>)
    requires pool.Valid()
    modifies pool
    ensures pool.Valid() && pool.shares == old(pool.shares) + HeldByItems(items)
    ensures |items| == |texts| && ShowsItems(pool.text, items, texts, |texts|)
    ensures Extends(old(pool.text), pool.text)
  {
    items := [];
    for i := 0 to |texts|
      invariant |items| == i
      invariant pool.Valid() && pool.shares == old(pool.shares) + HeldByItems(items)
      invariant ShowsItems(pool.text, items, texts, i)
      invariant Extends(old(pool.text), pool.text)
    {
      ghost var before := pool.text;
      var a := pool.Add(texts[i]);
      HeldByItemsPush(items, a);
      Swap(old(pool.shares), HeldByItems(items), multiset{a});
      ShowsItemsMore(before, pool.text, items, a, texts, i);
      items := items + [a];
    }
  }

  /** The value of an entry. */
  method ValueNew(pool: Pool, w: WireValue) returns (v: Value)
    requires pool.Valid() && !w.WUnusable?
    modifies pool
    ensures pool.Valid() && pool.shares == old(pool.shares) + Held(v)
    ensures ShowsValue(pool.text, v, w)
    ensures Extends(old(pool.text), pool.text)
  {
    match w {
      case WScalar(n) =>
        v := Scalar(n);
      case WText(s) =>
        var a := pool.Add(s);
        v := Text(a);
    }
  }

  lemma HeldNamed(shares: multiset<Addr>, name: Addr, v: Value)
    requires v.Scalar? || v.Text?
    ensures (shares + Held(v)) + multiset{name} == shares + HeldByEntry(Entry(name, v))
  {}

  /** _e_connman_element_dict_entry_new, for an entry that can be used. */
  method EntryNew(pool: Pool, w: WireEntry) returns (e: Entry)
    requires pool.Valid() && Usable(w)
    modifies pool
    ensures pool.Valid() && pool.shares == old(pool.shares) + HeldByEntry(e)
    ensures ShowsEntry(pool.text, e, w) && EntryOk(e)
    ensures Extends(old(pool.text), pool.text)
  {
    var v := ValueNew(pool, w.value);
    var name := pool.Add(w.key);
    HeldNamed(old(pool.shares), name, v);
    e := Entry(name, v);
  }

  lemma Turn(a: multiset<Addr>, b: multiset<Addr>, c: multiset<Addr>)
    ensures (c + b) + a == (a + b) + c
  {}

  /** One entry of the dictionary on the wire. */
  method ReadEntry(pool: Pool, es: seq<Entry>, ws: seq<WireEntry>, n: nat) returns (es': seq<Entry>)
    requires pool.Valid() && n < |ws| && ShowsEntries(pool.text, es, |es|, ws, n)
    modifies pool
    ensures pool.Valid() && HeldByEntries(es') + old(pool.shares) == pool.shares + HeldByEntries(es)
    ensures ShowsEntries(pool.text, es', |es'|, ws, n + 1)
    ensures Extends(old(pool.text), pool.text)
  {
    es' := es;
    if Usable(ws[n]) {
      var e := EntryNew(pool, ws[n]);
      HeldByEntriesPush(es, e);
      Turn(old(pool.shares), HeldByEntry(e), HeldByEntries(es));
      ShowsEntriesNext(old(pool.text), pool.text, es, e, ws, n);
      es' := es + [e];
    }
  }

  lemma Balance(base: multiset<Addr>, before: multiset<Addr>, after: multiset<Addr>, h: multiset<Addr>,
                h': multiset<Addr>)
    requires before == base + h && h' + before == after + h
    ensures after == base + h'
  {
    forall a ensures after[a] == (base + h')[a] {
      assert (h' + before)[a] == (after + h)[a];
    }
  }

  method ReadEntries(pool: Pool, ws: seq<WireEntry>) returns (es: seq<Entry>)
    requires pool.Valid()
    modifies pool
    ensures pool.Valid() && pool.shares == old(pool.shares) + HeldByEntries(es)
    ensures ShowsEntries(pool.text, es, |es|, ws, |ws|)
    ensures Extends(old(pool.text), pool.text)
  {
    es := [];
    for i := 0 to |ws|
      invariant pool.Valid() && pool.shares == old(pool.shares) + HeldByEntries(es)
      invariant ShowsEntries(pool.text, es, |es|, ws, i)
      invariant Extends(old(pool.text), pool.text)
    {
      ghost var shares, held := pool.shares, HeldByEntries(es);
      es := ReadEntry(pool, es, ws, i);
      Balance(old(pool.shares), shares, pool.shares, held, HeldByEntries(es));
    }
  }

  method ReadTexts(pool: Pool, w: WireArray) returns (list: Option<Arr>)
    requires pool.Valid() && (w.WStrings? || w.WPaths?)
    modifies pool
    ensures pool.Valid() && pool.shares == old(pool.shares) + Held(Items(list))
    ensures ShowsArray(pool.text, list, w) && ValueOk(Items(list))
    ensures Extends(old(pool.text), pool.text)
  {
    var items := ReadItems(pool, w.texts);
    list := Some(if w.WStrings? then Strings(items) else Paths(items));
  }

  lemma DictOk(text: map<Addr, string>, es: seq<Entry>, w: WireArray, list: Option<Arr>)
    requires w.WDict? && ShowsEntries(text, es, |es|, w.entries, |w.entries|) && list == Some(Dict(es))
    ensures ShowsArray(text, list, w) && ValueOk(Items(list)) && Held(Items(list)) == HeldByEntries(es)
  {
    ShowsEntriesOk(text, es, |es|, w.entries, |w.entries|);
  }

  method ReadDict(pool: Pool, w: WireArray) returns (list: Option<Arr>)
    requires pool.Valid() && w.WDict?
    modifies pool
    ensures pool.Valid() && pool.shares == old(pool.shares) + Held(Items(list))
    ensures ShowsArray(pool.text, list, w) && ValueOk(Items(list))
    ensures Extends(old(pool.text), pool.text)
  {
    var es := ReadEntries(pool, w.entries);
    list := Some(Dict(es));
    DictOk(pool.text, es, w, list);
  }

  /** _e_connman_element_iter_get_array; registering the paths it reads is the registry's part. */
  method ReadArray(pool: Pool, w: WireArray) returns (list: Option<Arr>)
    requires pool.Valid()
    modifies pool
    ensures pool.Valid() && pool.shares == old(pool.shares) + Held(Items(list))
    ensures ShowsArray(pool.text, list, w) && ValueOk(Items(list))
    ensures Extends(old(pool.text), pool.text)
  {
    if w.WStrings? || w.WPaths? {
      list := ReadTexts(pool, w);
    } else if w.WDict? {
      list := ReadDict(pool, w);
    } else {
      list := if w.WBytes? then Some(Bytes(w.bytes)) else None;
    }
  }

  // ----- the properties of one element

  ghost function HeldByProp(p: Prop): multiset<Addr> {
    multiset{p.name} + Held(p.value)
  }

  ghost function HeldByProps(ps: seq<Prop>): multiset<Addr> {
    if ps == [] then multiset{} else HeldByProp(ps[0]) + HeldByProps(ps[1..])
  }

  /** All properties but one, and what they hold. */
  function Others(ps: seq<Prop>, i: nat): seq<Prop>
    requires i < |ps|
  {
    ps[..i] + ps[i + 1..]
  }

  ghost function HeldByOthers(ps: seq<Prop>, i: nat): multiset<Addr>
    requires i < |ps|
  {
    HeldByProps(Others(ps, i))
  }

  lemma {:induction false} HeldByParts(a: seq<Prop>, b: seq<Prop>)
    ensures HeldByProps(a + b) == HeldByProps(a) + HeldByProps(b)
  {
    if a == [] {
      assert a + b == b;
    } else {
      assert (a + b)[1..] == a[1..] + b;
      HeldByParts(a[1..], b);
    }
  }

  lemma OneOfProps(ps: seq<Prop>, i: nat)
    requires i < |ps|
    ensures HeldByProps(ps) == HeldByOthers(ps, i) + HeldByProp(ps[i])
  {
    SplitAt(ps, i);
    HeldAround(ps[..i], ps[i], ps[i + 1..]);
  }

  lemma HeldAround(a: seq<Prop>, p: Prop, b: seq<Prop>)
    ensures HeldByProps(a + ([p] + b)) == HeldByProps(a + b) + HeldByProp(p)
  {
    HeldByParts(a, [p] + b);
    HeldByFirst(p, b);
    HeldByParts(a, b);
    Swap(HeldByProps(a), HeldByProp(p), HeldByProps(b));
  }

  lemma HeldByFirst(p: Prop, rest: seq<Prop>)
    ensures HeldByProps([p] + rest) == HeldByProp(p) + HeldByProps(rest)
  {
    assert ([p] + rest)[1..] == rest;
  }

  lemma PropReplaced(ps: seq<Prop>, i: nat, p: Prop)
    requires i < |ps|
    ensures HeldByOthers(ps[i := p], i) == HeldByOthers(ps, i)
  {
    assert Others(ps[i := p], i) == Others(ps, i);
  }

  lemma PropAppended(ps: seq<Prop>, p: Prop)
    ensures HeldByOthers(ps + [p], |ps|) == HeldByProps(ps)
  {
    assert Others(ps + [p], |ps|) == ps;
  }

  /** Every property's shares, and what a message brings, are in the pool. */
  ghost predicate Owned(ps: seq<Prop>, b: multiset<Addr>, shares: multiset<Addr>) {
    b <= shares && forall k :: 0 <= k < |ps| ==> HeldByProp(ps[k]) + b <= shares
  }

  lemma OwnedByAll(ps: seq<Prop>, b: multiset<Addr>, shares: multiset<Addr>, rest: multiset<Addr>)
    requires shares == rest + HeldByProps(ps) + b
    ensures Owned(ps, b, shares)
  {
    forall k | 0 <= k < |ps| ensures HeldByProp(ps[k]) + b <= shares {
      OneOfProps(ps, k);
    }
  }

  lemma Delta(rest: multiset<Addr>, o: multiset<Addr>, h: multiset<Addr>, h': multiset<Addr>, b: multiset<Addr>,
              shares: multiset<Addr>, shares': multiset<Addr>)
    requires shares == rest + (o + h) + b && shares' + h + b == shares + h'
    ensures shares' == rest + (o + h')
  {
    forall a ensures shares'[a] == (rest + (o + h'))[a] {
      assert (shares' + h + b)[a] == (shares + h')[a];
    }
  }

  /** A property replaced with an exact exchange of shares keeps the account of the list. */
  lemma ReplacedAccount(ps: seq<Prop>, i: nat, p: Prop, b: multiset<Addr>, shares: multiset<Addr>,
          shares': multiset<Addr>, rest: multiset<Addr>)
    requires i < |ps| && shares == rest + HeldByProps(ps) + b
    requires shares' + HeldByProp(ps[i]) + b == shares + HeldByProp(p)
    ensures shares' == rest + HeldByProps(ps[i := p])
  {
    OneOfProps(ps, i);
    PropReplaced(ps, i, p);
    OneOfProps(ps[i := p], i);
    Delta(rest, HeldByOthers(ps, i), HeldByProp(ps[i]), HeldByProp(p), b, shares, shares');
  }

  lemma AppendedAccount(ps: seq<Prop>, p: Prop, b: multiset<Addr>, shares: multiset<Addr>,
          shares': multiset<Addr>, rest: multiset<Addr>)
    requires shares == rest + HeldByProps(ps) + b
    requires shares' + b == shares + HeldByProp(p)
    ensures shares' == rest + HeldByProps(ps + [p])
  {
    PropAppended(ps, p);
    OneOfProps(ps + [p], |ps|);
    assert HeldByProps(ps + [p]) == HeldByProps(ps) + HeldByProp(p);
    Delta(rest, HeldByProps(ps), multiset{}, HeldByProp(p), b, shares, shares');
  }

  predicate AllFit(ps: seq<Prop>) {
    ps == [] || (Fits(ps[0].dtype, ps[0].value) && AllFit(ps[1..]))
  }

  lemma {:induction false} FitAt(ps: seq<Prop>, i: nat, p: Prop)
    requires AllFit(ps) && i < |ps|
    ensures Fits(ps[i].dtype, ps[i].value)
    ensures Fits(p.dtype, p.value) ==> AllFit(ps[i := p])
  {
    if i > 0 {
      FitAt(ps[1..], i - 1, p);
      assert ps[i := p][1..] == ps[1..][i - 1 := p];
    } else {
      assert ps[i := p][1..] == ps[1..];
    }
  }

  lemma {:induction false} FitAppend(ps: seq<Prop>, p: Prop)
    requires AllFit(ps) && Fits(p.dtype, p.value)
    ensures AllFit(ps + [p])
  {
    if ps == [] {
      assert (ps + [p])[1..] == [];
    } else {
      FitAppend(ps[1..], p);
      assert (ps + [p])[1..] == ps[1..] + [p];
    }
  }

  /** None of the first n properties has the interned name. */
  ghost predicate Unnamed(ps: seq<Prop>, n: nat, name: Addr) {
    forall k :: 0 <= k < n && k < |ps| ==> ps[k].name != name
  }

  /** Position of the property with an interned name, or the length of the list. */
  method FindProp(ps: seq<Prop>, name: Addr) returns (i: nat)
    ensures i <= |ps| && (i < |ps| ==> ps[i].name == name)
    ensures Unnamed(ps, i, name)
  {
    for i' := 0 to |ps|
      invariant forall k :: 0 <= k < i' ==> ps[k].name != name
    {
      if ps[i'].name == name {
        return i';
      }
    }
    return |ps|;
  }

  /** The property that an update of a name leaves: it shows the message under that name. */
  ghost predicate Holds(text: map<Addr, string>, p: Prop, name: string, t: DType, d: Data) {
    ShowsText(text, p.name, name) && p.dtype == t && Fits(t, p.value) && Shows(text, p.value, d)
  }

  /** The update of one property with its name; rest includes the other properties. */
  method UpdateNamed(pool: Pool, p: Prop, t: DType, d: Data, ghost rest: multiset<Addr>)
    returns (p': Prop, changed: bool)
    requires pool.Valid() && pool.shares == rest + HeldByProp(p) + Brought(d)
    requires Fits(p.dtype, p.value) && DataFits(t, d)
    modifies pool
    ensures pool.Valid() && pool.shares == rest + HeldByProp(p')
    ensures p'.name == p.name && p'.dtype == t && Fits(t, p'.value) && Shows(pool.text, p'.value, d)
    ensures Keeps(old(pool.text), pool.text, rest + Brought(d))
    ensures ShowsText(pool.text, p.name, old(pool.text)[p.name])
    ensures changed <==> Differs(old(pool.text), p, t, d)
  {
    Swap(rest, multiset{p.name}, Held(p.value));
    p', changed := Update(pool, p, t, d, rest + multiset{p.name});
    Swap(rest, multiset{p.name}, Held(p'.value));
  }

  lemma Exchange(shares: multiset<Addr>, h: multiset<Addr>, b: multiset<Addr>, h': multiset<Addr>)
    requires h + b <= shares
    ensures shares == (shares - h - b) + h + b
    ensures (shares - h - b + h') + h + b == shares + h'
    ensures shares - h == (shares - h - b) + b
  {}

  /** The exchange of shares when property p takes the place of was. */
  ghost predicate Exchanged(before: multiset<Addr>, after: multiset<Addr>, was: Prop, p: Prop, b: multiset<Addr>) {
    after + HeldByProp(was) + b == before + HeldByProp(p)
  }

  method ExchangeNamed(pool: Pool, p: Prop, t: DType, d: Data) returns (p': Prop, changed: bool)
    requires pool.Valid() && HeldByProp(p) + Brought(d) <= pool.shares
    requires Fits(p.dtype, p.value) && DataFits(t, d)
    modifies pool
    ensures pool.Valid() && Exchanged(old(pool.shares), pool.shares, p, p', Brought(d)) && p'.name == p.name
    ensures p.name in old(pool.text) && Holds(pool.text, p', old(pool.text)[p.name], t, d)
    ensures Keeps(old(pool.text), pool.text, old(pool.shares) - HeldByProp(p))
    ensures changed <==> Differs(old(pool.text), p, t, d)
  {
    ghost var shares, h, b := pool.shares, HeldByProp(p), Brought(d);
    assert p.name in h;
    assert p.name in pool.shares;
    Exchange(shares, h, b, multiset{});
    p', changed := UpdateNamed(pool, p, t, d, shares - h - b);
    Exchange(shares, h, b, HeldByProp(p'));
  }

  class Record {
    var props: seq<Prop>

    constructor ()
      ensures props == []
    {
      props := [];
    }

    /** The name is there: its extra share is dropped and the value updated. */
    method Replace(pool: Pool, a: Addr, i: nat, t: DType, d: Data, ghost shares: multiset<Addr>)
      returns (p: Prop, changed: bool)
      requires pool.Valid() && pool.shares == shares + multiset{a} && i < |props|
      requires AllFit(props) && DataFits(t, d) && HeldByProp(props[i]) + Brought(d) <= shares
      modifies pool, `props
      ensures pool.Valid() && AllFit(props) && props == old(props)[i := p]
      ensures Exchanged(shares, pool.shares, old(props)[i], p, Brought(d)) && p.name == old(props)[i].name
      ensures old(props)[i].name in old(pool.text) && Holds(pool.text, p, old(pool.text)[old(props)[i].name], t, d)
      ensures Keeps(old(pool.text), pool.text, shares - HeldByProp(old(props)[i]))
      ensures changed <==> Differs(old(pool.text), old(props)[i], t, d)
    {
      var before := props[i];
      DelOne(pool, a, shares);
      FitAt(props, i, before);
      assert Keeps(old(pool.text), pool.text, shares) && before.name in HeldByProp(before) && before.name in pool.text;
      assert before.value.Text? ==> before.value.a in HeldByProp(before);
      p, changed := ExchangeNamed(pool, before, t, d);
      FitAt(props, i, p);
      props := props[i := p];
    }

    /** The name is new: a property is made for it and filled. */
    method Append(pool: Pool, a: Addr, t: DType, d: Data, ghost shares: multiset<Addr>) returns (p: Prop)
      requires pool.Valid() && pool.shares == shares + multiset{a}
      requires AllFit(props) && DataFits(t, d) && Brought(d) <= shares
      modifies pool, `props
      ensures pool.Valid() && AllFit(props) && props == old(props) + [p] && p.name == a
      ensures pool.shares + Brought(d) == shares + HeldByProp(p)
      ensures a in old(pool.text) && Holds(pool.text, p, old(pool.text)[a], t, d)
      ensures Keeps(old(pool.text), pool.text, shares)
    {
      var empty := Prop(a, TNone, Nothing);
      Brings(shares, Brought(d), a);
      var changed;
      p, changed := ExchangeNamed(pool, empty, t, d);
      Brought1(shares, pool.shares, a, HeldByProp(p), Brought(d));
      FitAppend(props, p);
      props := props + [p];
    }

    /** The name is shared once more and looked for. */
    method Lookup(pool: Pool, name: string, ghost b: multiset<Addr>) returns (a: Addr, i: nat)
      requires pool.Valid() && Owned(props, b, pool.shares)
      modifies pool
      ensures pool.Valid() && pool.shares == old(pool.shares) + multiset{a} && ShowsText(pool.text, a, name)
      ensures Keeps(old(pool.text), pool.text, old(pool.shares))
      ensures i <= |props| && Unnamed(props, i, a)
      ensures i < |props| ==> props[i].name == a && ShowsText(old(pool.text), a, name)
      ensures i < |props| && props[i].value.Text? ==> props[i].value.a in old(pool.shares)
    {
      a := pool.Add(name);
      i := FindProp(props, a);
      if i < |props| {
        assert HeldByProp(props[i]) + b <= old(pool.shares) && a in HeldByProp(props[i]);
        assert a in old(pool.shares);
        assert props[i].value.Text? ==> props[i].value.a in HeldByProp(props[i]);
      }
    }

    /** _e_connman_element_property_value_add. The property p now shows the message under the
        name: it takes the place i of the first one of that name, or is appended. Exactly
        the shares of the two are exchanged, and every other share keeps its text. */
    method ValueAdd(pool: Pool, name: string, t: DType, d: Data) returns (changed: bool, i: nat, p: Prop)
      requires pool.Valid() && AllFit(props) && DataFits(t, d) && Owned(props, Brought(d), pool.shares)
      modifies pool, `props
      ensures pool.Valid() && AllFit(props) && Holds(pool.text, p, name, t, d)
      ensures Unnamed(old(props), i, p.name)
      ensures i < |old(props)| ==>
                && ShowsText(old(pool.text), old(props)[i].name, name) && props == old(props)[i := p]
                && Exchanged(old(pool.shares), pool.shares, old(props)[i], p, Brought(d))
                && Keeps(old(pool.text), pool.text, old(pool.shares) - HeldByProp(old(props)[i]))
      ensures i < |old(props)| ==> (changed <==> Differs(old(pool.text), old(props)[i], t, d))
      ensures i >= |old(props)| ==>
                && i == |old(props)| && changed && props == old(props) + [p]
                && pool.shares + Brought(d) == old(pool.shares) + HeldByProp(p)
                && Keeps(old(pool.text), pool.text, old(pool.shares))
    {
      ghost var shares, text := pool.shares, pool.text;
      var a;
      a, i := Lookup(pool, name, Brought(d));
      if i < |props| {
        ghost var was, mid := props[i], pool.text;
        p, changed := Replace(pool, a, i, t, d, shares);
        KeepsThrough(text, mid, pool.text, shares, shares - HeldByProp(was));
      } else {
        p := Append(pool, a, t, d, shares);
        changed := true;
      }
    }
  }

  lemma KeepsThrough(before: map<Addr, string>, mid: map<Addr, string>, after: map<Addr, string>,
                     shares: multiset<Addr>, held: multiset<Addr>)
    requires Keeps(before, mid, shares) && Keeps(mid, after, held) && held <= shares
    ensures Keeps(before, after, held)
  {}

  lemma Brought1(shares: multiset<Addr>, after: multiset<Addr>, a: Addr, h: multiset<Addr>, b: multiset<Addr>)
    requires after + multiset{a} + b == shares + multiset{a} + h
    ensures after + b == shares + h
  {
    forall x ensures (after + b)[x] == (shares + h)[x] {
      assert (after + multiset{a} + b)[x] == (shares + multiset{a} + h)[x];
    }
  }

  lemma Brings(shares: multiset<Addr>, b: multiset<Addr>, a: Addr)
    requires b <= shares
    ensures HeldByProp(Prop(a, TNone, Nothing)) + b <= shares + multiset{a}
    ensures HeldByProp(Prop(a, TNone, Nothing)) == multiset{a}
  {}

  // ----- whole runs

  /** A property as a reply or a PropertyChanged signal reports it. */
  datatype Message =
    | MPlain(t: DType, d: Data)
    | MArray(w: WireArray)

  predicate Plain(m: Message) {
    m.MPlain? ==> DataFits(m.t, m.d) && !m.d.DArray?
  }

  /** Only the property at i is new or different. */
  ghost predicate StoredAt(before: seq<Prop>, after: seq<Prop>, i: nat) {
    && i < |after|
    && if i < |before| then after == before[i := after[i]] else i == |before| && after == before + [after[i]]
  }

  /** The property that a message leaves under a name. */
  ghost predicate Reported(text: map<Addr, string>, p: Prop, name: string, m: Message) {
    match m
    case MPlain(t, d) => Holds(text, p, name, t, d)
    case MArray(w) =>
      ShowsText(text, p.name, name) && p.dtype == TArray && p.value.Items? && ShowsArray(text, p.value.list, w)
  }

  lemma {:induction false} HeldItem(items: seq<Addr>, k: nat)
    requires k < |items|
    ensures items[k] in HeldByItems(items)
  {
    if k > 0 {
      HeldItem(items[1..], k - 1);
    }
  }

  lemma {:induction false} HeldEntry(es: seq<Entry>, k: nat)
    requires k < |es|
    ensures es[k].name in HeldByEntries(es) && (es[k].value.Text? ==> es[k].value.a in HeldByEntries(es))
  {
    if k > 0 {
      HeldEntry(es[1..], k - 1);
    } else {
      assert es[0].name in HeldByEntry(es[0]) && (es[0].value.Text? ==> es[0].value.a in HeldByEntry(es[0]));
    }
  }

  lemma {:induction false} ShowsItemsKept(before: map<Addr, string>, after: map<Addr, string>,
          items: seq<Addr>, ws: seq<string>, n: nat)
    requires ShowsItems(before, items, ws, n) && Keeps(before, after, HeldByItems(items))
    ensures ShowsItems(after, items, ws, n)
  {
    if n > 0 {
      HeldItem(items, n - 1);
      ShowsItemsKept(before, after, items, ws, n - 1);
    }
  }

  lemma ShowsEntryKept(before: map<Addr, string>, after: map<Addr, string>, es: seq<Entry>, k: nat, w: WireEntry)
    requires k < |es| && ShowsEntry(before, es[k], w) && Keeps(before, after, HeldByEntries(es))
    ensures ShowsEntry(after, es[k], w)
  {
    HeldEntry(es, k);
  }

  lemma {:induction false} ShowsEntriesKept(before: map<Addr, string>, after: map<Addr, string>,
          es: seq<Entry>, m: nat, ws: seq<WireEntry>, n: nat)
    requires ShowsEntries(before, es, m, ws, n) && Keeps(before, after, HeldByEntries(es))
    ensures ShowsEntries(after, es, m, ws, n)
  {
    if n > 0 {
      ShowsEntriesKept(before, after, es, if Usable(ws[n - 1]) then m - 1 else m, ws, n - 1);
      if Usable(ws[n - 1]) {
        ShowsEntryKept(before, after, es, m - 1, ws[n - 1]);
      }
    }
  }

  /** An array says the same as long as its strings are held. */
  lemma ShowsArrayKept(before: map<Addr, string>, after: map<Addr, string>, list: Option<Arr>, w: WireArray)
    requires ShowsArray(before, list, w) && Keeps(before, after, Held(Items(list)))
    ensures ShowsArray(after, list, w)
  {
    match w {
      case WStrings(texts) => ShowsItemsKept(before, after, list.value.items, texts, |texts|);
      case WPaths(texts) => ShowsItemsKept(before, after, list.value.items, texts, |texts|);
      case WDict(ws) => ShowsEntriesKept(before, after, list.value.entries, |list.value.entries|, ws, |ws|);
      case WEmpty =>
      case WUnknown =>
      case WBytes(_) =>
    }
  }

  /** The property at i is the first one of the name. */
  ghost predicate FirstNamed(text: map<Addr, string>, ps: seq<Prop>, i: nat, name: string) {
    && i < |ps| && ShowsText(text, ps[i].name, name)
    && forall k :: 0 <= k < i ==> !ShowsText(text, ps[k].name, name)
  }

  /** A text has one address. */
  lemma NamesDiffer(pool: Pool, ps: seq<Prop>, i: nat, name: string)
    requires pool.Valid() && i < |ps| && ShowsText(pool.text, ps[i].name, name)
    requires Unnamed(ps, i, ps[i].name)
    ensures FirstNamed(pool.text, ps, i, name)
  {
    forall k | 0 <= k < i ensures !ShowsText(pool.text, ps[k].name, name) {}
  }

  /** What is held besides the replaced property is a part of what the update keeps. */
  lemma KeptParts(before: map<Addr, string>, after: map<Addr, string>, ps: seq<Prop>, i: nat, b: multiset<Addr>,
                  shares: multiset<Addr>, rest: multiset<Addr>)
    requires i < |ps| && shares == rest + HeldByProps(ps) + b
    requires Keeps(before, after, shares - HeldByProp(ps[i]))
    ensures Keeps(before, after, b) && Keeps(before, after, rest)
  {
    OneOfProps(ps, i);
    forall a | a in b || a in rest ensures a in shares - HeldByProp(ps[i]) {}
  }

  /** The account after a property was replaced or appended, and what is kept beside it. */
  lemma StoredAccount(before: map<Addr, string>, after: map<Addr, string>, ps: seq<Prop>, i: nat, p: Prop,
                      ps': seq<Prop>, b: multiset<Addr>, shares: multiset<Addr>, shares': multiset<Addr>,
                      rest: multiset<Addr>)
    requires shares == rest + HeldByProps(ps) + b && Unnamed(ps, i, p.name)
    requires if i < |ps|
             then ps' == ps[i := p] && Exchanged(shares, shares', ps[i], p, b)
                  && Keeps(before, after, shares - HeldByProp(ps[i]))
             else i == |ps| && ps' == ps + [p] && shares' + b == shares + HeldByProp(p) && Keeps(before, after, shares)
    ensures StoredAt(ps, ps', i) && ps'[i] == p && shares' == rest + HeldByProps(ps') && Unnamed(ps', i, p.name)
    ensures Keeps(before, after, b) && Keeps(before, after, rest) && Keeps(before, after, HeldByOthers(ps', i))
  {
    if i < |ps| {
      ReplacedAccount(ps, i, p, b, shares, shares', rest);
      KeptParts(before, after, ps, i, b, shares, rest);
      OneOfProps(ps, i);
      PropReplaced(ps, i, p);
      forall a | a in HeldByOthers(ps, i) ensures a in shares - HeldByProp(ps[i]) {}
    } else {
      AppendedAccount(ps, p, b, shares, shares', rest);
      PropAppended(ps, p);
    }
  }

  method Store(pool: Pool, record: Record, name: string, t: DType, d: Data, ghost rest: multiset<Addr>)
    returns (changed: bool, i: nat)
    requires pool.Valid() && AllFit(record.props) && DataFits(t, d)
    requires pool.shares == rest + HeldByProps(record.props) + Brought(d)
    modifies pool, record`props
    ensures pool.Valid() && AllFit(record.props)
    ensures pool.shares == rest + HeldByProps(record.props)
    ensures StoredAt(old(record.props), record.props, i) && Holds(pool.text, record.props[i], name, t, d)
    ensures FirstNamed(pool.text, record.props, i, name)
    ensures Keeps(old(pool.text), pool.text, HeldByOthers(record.props, i))
    ensures i < |old(record.props)| ==> ShowsText(old(pool.text), old(record.props)[i].name, name)
    ensures Keeps(old(pool.text), pool.text, Brought(d)) && Keeps(old(pool.text), pool.text, rest)
    ensures changed <==> i == |old(record.props)| || Differs(old(pool.text), old(record.props)[i], t, d)
  {
    ghost var ps, shares := record.props, pool.shares;
    OwnedByAll(ps, Brought(d), shares, rest);
    var p;
    changed, i, p := record.ValueAdd(pool, name, t, d);
    StoredAccount(old(pool.text), pool.text, ps, i, p, record.props, Brought(d), shares, pool.shares, rest);
    NamesDiffer(pool, record.props, i, name);
  }

  /** Reading the message comes first, and keeps all texts. */
  lemma ReadKept(before: map<Addr, string>, read: map<Addr, string>, after: map<Addr, string>, ps: seq<Prop>,
                 ps': seq<Prop>, i: nat, name: string)
    requires Keeps(before, read, HeldByProps(ps)) && StoredAt(ps, ps', i)
    requires Keeps(read, after, HeldByOthers(ps', i)) && (i < |ps| ==> ShowsText(read, ps[i].name, name))
    ensures Keeps(before, after, HeldByOthers(ps', i)) && (i < |ps| ==> ShowsText(before, ps[i].name, name))
  {
    if i < |ps| {
      OneOfProps(ps, i);
      PropReplaced(ps, i, ps'[i]);
      assert ps[i].name in HeldByProp(ps[i]);
    } else {
      PropAppended(ps, ps'[i]);
    }
  }

  /** One reported property is read, interned and stored. */
  method PropertyChanged(pool: Pool, record: Record, name: string, m: Message, ghost rest: multiset<Addr>)
    returns (changed: bool, i: nat)
    requires pool.Valid() && AllFit(record.props) && Plain(m)
    requires pool.shares == rest + HeldByProps(record.props)
    modifies pool, record`props
    ensures pool.Valid() && AllFit(record.props)
    ensures pool.shares == rest + HeldByProps(record.props)
    ensures StoredAt(old(record.props), record.props, i) && Reported(pool.text, record.props[i], name, m)
    ensures FirstNamed(pool.text, record.props, i, name)
    ensures Keeps(old(pool.text), pool.text, HeldByOthers(record.props, i))
    ensures i < |old(record.props)| ==> ShowsText(old(pool.text), old(record.props)[i].name, name)
    ensures Keeps(old(pool.text), pool.text, rest)
    ensures m.MArray? ==> changed
    ensures m.MPlain? ==> (changed <==> i == |old(record.props)|
                                          || Differs(old(pool.text), old(record.props)[i], m.t, m.d))
  {
    match m {
      case MPlain(t, d) =>
        assert pool.shares == rest + HeldByProps(record.props) + Brought(d);
        changed, i := Store(pool, record, name, t, d, rest);
      case MArray(w) =>
        i := ArrayReported(pool, record, name, w, rest);
        changed := true;
    }
  }

  /** An array is read before it is stored. */
  method ArrayReported(pool: Pool, record: Record, name: string, w: WireArray, ghost rest: multiset<Addr>)
    returns (i: nat)
    requires pool.Valid() && AllFit(record.props) && pool.shares == rest + HeldByProps(record.props)
    modifies pool, record`props
    ensures pool.Valid() && AllFit(record.props) && pool.shares == rest + HeldByProps(record.props)
    ensures StoredAt(old(record.props), record.props, i) && Reported(pool.text, record.props[i], name, MArray(w))
    ensures FirstNamed(pool.text, record.props, i, name)
    ensures Keeps(old(pool.text), pool.text, HeldByOthers(record.props, i))
    ensures i < |old(record.props)| ==> ShowsText(old(pool.text), old(record.props)[i].name, name)
    ensures Keeps(old(pool.text), pool.text, rest)
  {
    ghost var before, ps := pool.text, record.props;
    assert forall a :: a in HeldByProps(ps) ==> a in pool.shares;
    var list := ReadArray(pool, w);
    ghost var read := pool.text;
    assert Brought(DArray(list)) == Held(Items(list));
    var _, k := Store(pool, record, name, TArray, DArray(list), rest);
    i := k;
    ShowsArrayKept(read, pool.text, list, w);
    ReadKept(before, read, pool.text, ps, record.props, i, name);
  }

  /** e_connman_element_extra_properties_free. */
  method FreeAll(pool: Pool, record: Record, ghost rest: multiset<Addr>)
    requires pool.Valid() && pool.shares == rest + HeldByProps(record.props)
    modifies pool, record`props
    ensures pool.Valid() && pool.shares == rest && record.props == [] && Keeps(old(pool.text), pool.text, rest)
  {
    while record.props != []
      invariant pool.Valid() && pool.shares == rest + HeldByProps(record.props)
      invariant Keeps(old(pool.text), pool.text, rest)
      decreases |record.props|
    {
      var p := record.props[0];
      ghost var tail := HeldByProps(record.props[1..]);
      record.props := record.props[1..];
      FreeOne(pool, p, rest, tail);
    }
  }

  /** _e_connman_element_property_free. */
  method FreeOne(pool: Pool, p: Prop, ghost rest: multiset<Addr>, ghost tail: multiset<Addr>)
    requires pool.Valid() && pool.shares == rest + (HeldByProp(p) + tail)
    modifies pool
    ensures pool.Valid() && pool.shares == rest + tail && Keeps(old(pool.text), pool.text, rest)
  {
    ValueFree(pool, p.value, rest + tail + multiset{p.name});
    DelOne(pool, p.name, rest + tail);
  }

  /** Any properties reported in any order. */
  method ReportAll(pool: Pool, record: Record, reports: seq<(string, Message)>, ghost rest: multiset<Addr>)
    requires pool.Valid() && AllFit(record.props) && pool.shares == rest + HeldByProps(record.props)
    requires forall k :: 0 <= k < |reports| ==> Plain(reports[k].1)
    modifies pool, record`props
    ensures pool.Valid() && AllFit(record.props) && pool.shares == rest + HeldByProps(record.props)
  {
    for k := 0 to |reports|
      invariant pool.Valid() && AllFit(record.props) && pool.shares == rest + HeldByProps(record.props)
    {
      var _, _ := PropertyChanged(pool, record, reports[k].0, reports[k].1, rest);
    }
  }

  /** The life of one element: its path and interface are shared, any properties are
      reported in any order, and it is freed. The pool ends as it began. */
  method ElementLife(pool: Pool, path: string, iface: Addr, reports: seq<(string, Message)>)
    requires pool.Valid() && iface in pool.shares
    requires forall k :: 0 <= k < |reports| ==> Plain(reports[k].1)
    modifies pool
    ensures pool.Valid() && pool.shares == old(pool.shares)
  {
    ghost var rest := pool.shares;
    var pathAddr := pool.Add(path);
    var ifaceAddr := pool.Add(pool.text[iface]);
    ghost var own := rest + multiset{pathAddr} + multiset{ifaceAddr};
    var record := new Record();
    assert pool.shares == own == own + HeldByProps(record.props);
    ReportAll(pool, record, reports, own);
    FreeAll(pool, record, own);
    DelOne(pool, ifaceAddr, rest + multiset{pathAddr});
    DelOne(pool, pathAddr, rest);
  }
}
