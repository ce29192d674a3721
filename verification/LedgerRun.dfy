/** Whole runs of the registry and the string pool together: any registrations, reports of
    properties, deliveries and user references (src/lib/connman0_7x/e_connman_element.c, over
    eina_stringshare). */
module LedgerRun {
  import opened ElementCache
  import opened ElementStrings
  import opened Lists
  import opened Prelude
  import P = Properties
  import R = RegistryRun

  datatype Step =
    | RegisterStep(path: string, iface: string)
    | UnregisterStep(path: string)
    | UpdatedStep(who: R.Who)
    | ReportStep(who: R.Who, name: string, m: P.Message)
    | ClearStep
    | RefStep(who: R.Who)
    | UnrefStep(k: nat)
    | EventStep

  /** What an array that is reported does to the registry, if the array stored so far is current:
      paths are registered as they are read, and the two arrays are compared. */
  ghost predicate ArrayNext(r: R.Run, name: string, w: P.WireArray, current: Option<seq<string>>, q: R.Run) {
    if Touches(name, w, current) then R.Next(r, R.ArrayStep(name, current, Items(w)), q) else q == r
  }

  /** An array touches the registry if it holds paths or takes the place of an array of paths. */
  predicate Touches(name: string, w: P.WireArray, current: Option<seq<string>>) {
    w.WPaths? || (current.Some? && Regular(name, w, current))
  }

  /** Where objects are registered, paths are not followed by plain strings. */
  predicate Regular(name: string, w: P.WireArray, current: Option<seq<string>>) {
    w.WStrings? && current.Some? ==> GetInterface(name).None?
  }

  ghost predicate Next(r: R.Run, step: Step, q: R.Run) {
    match step
    case RegisterStep(path, iface) => R.Next(r, R.RegisterStep(path, iface), q)
    case UnregisterStep(path) => R.Next(r, R.UnregisterStep(path), q)
    case UpdatedStep(who) => R.Next(r, R.UpdatedStep(who), q)
    case ReportStep(who, name, m) =>
      if R.Pick(r, who).None? || m.MPlain? then q == r else exists current :: ArrayNext(r, name, m.w, current, q)
    case ClearStep => R.Next(r, R.ClearStep, q)
    case RefStep(who) => R.Next(r, R.RefStep(who), q)
    case UnrefStep(k) => R.Next(r, R.UnrefStep(k), q)
    case EventStep => R.Next(r, R.EventStep, q)
  }

  ghost predicate Reach(steps: seq<Step>, r: R.Run)
    decreases |steps|, 1
  {
    if steps == [] then r == R.START else exists q :: Via(steps, q, r)
  }

  ghost predicate Via(steps: seq<Step>, q: R.Run, r: R.Run)
    requires steps != []
    decreases |steps|, 0
  {
    Reach(steps[..|steps| - 1], q) && Next(q, steps[|steps| - 1], r)
  }

  /** The registry has come to r, and the users hold held. */
  ghost predicate CacheAt(c: Cache, held: seq<Element>, r: R.Run)
    reads c, c.known
  {
    c.Valid() && R.Accounted(c, held) && R.At(c, held, r)
  }

  /** So has the ledger. */
  ghost predicate At(l: Ledger, held: seq<Element>, r: R.Run)
    reads l, l.pool, l.cache, l.cache.known
  {
    CacheAt(l.cache, held, r) && l.Balanced() && l.Matched()
  }

  /** The registry has the elements es that the ledger does not know yet. */
  ghost predicate Ahead(l: Ledger, es: seq<Element>)
    reads l, l.cache`known, l.cache.known`freed
  {
    && l.cache.Made(Elements(l.born), es) && l.strings.Keys <= Elements(l.born)
    && forall e :: e in Elements(l.born) ==> (e in l.strings <==> !e.freed)
  }

  /** The elements known before and not freed since hold what they held. */
  ghost predicate Stays(known: set<Element>, o: Owned, o': Owned) {
    forall x :: x in known && x in o' ==> x in o && o'[x] == o[x]
  }

  /** What they show under the name n. */
  ghost predicate StaysAt(known: set<Element>, o: Owned, o': Owned, n: string) {
    forall x :: x in known && x in o' ==> x in o && Lookup(o'[x].lists, n) == Lookup(o[x].lists, n)
  }

  lemma GrownStays(known: set<Element>, m: Books, o: Owned, m': Books, o': Owned, es: set<Element>)
    requires Grown(m, o, m', o') && m.Keys == o.Keys && m'.Keys == o'.Keys == m.Keys + es && known !! es
    ensures Stays(known, o, o')
  {}

  method TakeBare(l: Ledger, es: seq<Element>)
    requires l.Balanced() && Ahead(l, es)
    modifies l, l.pool
    ensures l.Balanced() && l.Matched() && Grown(old(l.strings), old(l.owns), l.strings, l.owns)
    ensures Stays(old(Elements(l.born)), old(l.owns), l.owns)
  {
    ghost var known, m, o := Elements(l.born), l.strings, l.owns;
    l.TakeAll(es);
    GrownStays(known, m, o, l.strings, l.owns, Elements(es));
  }

  /** They take their strings. */
  method TakeNew(l: Ledger, held: seq<Element>, es: seq<Element>, ghost r: R.Run)
    requires CacheAt(l.cache, held, r) && l.Balanced() && Ahead(l, es)
    modifies l, l.pool
    ensures At(l, held, r) && Grown(old(l.strings), old(l.owns), l.strings, l.owns)
    ensures Stays(old(Elements(l.born)), old(l.owns), l.owns)
  {
    ghost var ok := CacheAt(l.cache, held, r);
    TakeBare(l, es);
    assert CacheAt(l.cache, held, r) == ok;
  }

  method StepRegister(l: Ledger, held: seq<Element>, path: string, iface: string, ghost r: R.Run)
    returns (ghost q: R.Run)
    requires At(l, held, r)
    modifies l, l.pool, l.cache
    ensures At(l, held, q) && R.Next(r, R.RegisterStep(path, iface), q)
    ensures Stays(old(l.cache.known), old(l.owns), l.owns)
    ensures old(l.cache.known) <= l.cache.known && fresh(l.cache.known - old(l.cache.known))
  {
    var made;
    made, q := R.StepRegister(l.cache, held, path, iface, r);
    TakeNew(l, held, made, q);
  }

  method StepArray(l: Ledger, held: seq<Element>, key: string, current: Option<seq<string>>, incoming: seq<string>,
                   ghost r: R.Run)
    returns (ghost q: R.Run)
    requires At(l, held, r)
    modifies l, l.pool, l.cache
    ensures At(l, held, q) && R.Next(r, R.ArrayStep(key, current, incoming), q)
    ensures Grown(old(l.strings), old(l.owns), l.strings, l.owns) && Stays(old(l.cache.known), old(l.owns), l.owns)
    ensures old(l.cache.known) <= l.cache.known && fresh(l.cache.known - old(l.cache.known))
  {
    var made;
    made, q := R.StepArray(l.cache, held, key, current, incoming, r);
    TakeNew(l, held, made, q);
  }

  method StepUnregister(l: Ledger, held: seq<Element>, path: string, ghost r: R.Run) returns (ghost q: R.Run)
    requires At(l, held, r)
    modifies l.cache`elements, l.cache`events
    ensures At(l, held, q) && R.Next(r, R.UnregisterStep(path), q)
  {
    q := R.StepUnregister(l.cache, held, path, r);
  }

  method StepUpdated(l: Ledger, held: seq<Element>, who: R.Who, ghost r: R.Run) returns (ghost q: R.Run)
    requires At(l, held, r)
    modifies l.cache`events, l.cache.known`references
    ensures At(l, held, q) && R.Next(r, R.UpdatedStep(who), q)
  {
    q := R.StepUpdated(l.cache, held, who, r);
  }

  method StepClear(l: Ledger, held: seq<Element>, ghost r: R.Run) returns (ghost q: R.Run)
    requires At(l, held, r)
    modifies l.cache`elements, l.cache`events
    ensures At(l, held, q) && R.Next(r, R.ClearStep, q)
  {
    q := R.StepClear(l.cache, held, r);
  }

  method StepRef(l: Ledger, held: seq<Element>, who: R.Who, ghost r: R.Run)
    returns (held': seq<Element>, ghost q: R.Run)
    requires At(l, held, r)
    modifies l.cache.known`references, l.cache.known`userRefs
    ensures At(l, held', q) && R.Next(r, R.RefStep(who), q)
  {
    held', q := R.StepRef(l.cache, held, who, r);
  }

  /** The registry may have freed e, which the ledger does not know yet. */
  ghost predicate Behind(l: Ledger, e: Element)
    reads l, l.cache`known, l.cache.known`freed
  {
    && Elements(l.born) == l.cache.known && l.strings.Keys <= l.cache.known && e in l.strings
    && forall x :: x in l.cache.known && x != e ==> (x in l.strings <==> !x.freed)
  }

  method GiveBare(l: Ledger, e: Element)
    requires l.Balanced() && Behind(l, e) && e.freed
    modifies l, l.pool
    ensures l.Balanced() && l.Matched() && l.owns == old(l.owns) - {e}
  {
    l.GiveStrings(e);
  }

  /** With its last holder an element gives back its strings. */
  method Settle(l: Ledger, held: seq<Element>, e: Element, ghost r: R.Run)
    requires CacheAt(l.cache, held, r) && l.Balanced() && Behind(l, e)
    modifies l, l.pool
    ensures At(l, held, r) && (l.owns == old(l.owns) || l.owns == old(l.owns) - {e})
  {
    assert l.cache.Counted(e);
    if e.references == 0 {
      ghost var ok := CacheAt(l.cache, held, r);
      GiveBare(l, e);
      assert CacheAt(l.cache, held, r) == ok;
    }
  }

  method StepUnref(l: Ledger, held: seq<Element>, k: nat, ghost r: R.Run) returns (held': seq<Element>, ghost q: R.Run)
    requires At(l, held, r)
    modifies l, l.pool, l.cache.known`references, l.cache.known`userRefs, l.cache.known`freed
    ensures At(l, held', q) && R.Next(r, R.UnrefStep(k), q) && Stays(l.cache.known, old(l.owns), l.owns)
  {
    if k < |held| {
      R.HeldLives(l.cache, held, k);
    }
    held', q := R.StepUnref(l.cache, held, k, r);
    if k < |held| {
      Settle(l, held', held[k], q);
    }
  }

  method StepEvent(l: Ledger, held: seq<Element>, ghost r: R.Run) returns (ghost q: R.Run)
    requires At(l, held, r)
    modifies l, l.pool, l.cache`events, l.cache.known`references, l.cache.known`freed
    ensures At(l, held, q) && R.Next(r, R.EventStep, q) && Stays(l.cache.known, old(l.owns), l.owns)
  {
    if l.cache.events == [] {
      q := r;
    } else if l.cache.events[0].ElementEvent? {
      q := Deliver(l, held, l.cache.events[0].element, r);
    } else {
      q := R.StepEvent(l.cache, held, r);
    }
  }

  /** An event is delivered that carries e. */
  method Deliver(l: Ledger, held: seq<Element>, e: Element, ghost r: R.Run) returns (ghost q: R.Run)
    requires At(l, held, r) && l.cache.events != [] && Carries(l.cache.events[0], e)
    modifies l, l.pool, l.cache`events, l.cache.known`references, l.cache.known`freed
    ensures At(l, held, q) && R.Next(r, R.EventStep, q) && Stays(l.cache.known, old(l.owns), l.owns)
  {
    l.cache.NothingFreedIsHeld(e);
    q := DeliverBare(l, held, e, r);
    Settle(l, held, e, q);
  }

  method DeliverBare(l: Ledger, held: seq<Element>, e: Element, ghost r: R.Run) returns (ghost q: R.Run)
    requires CacheAt(l.cache, held, r) && l.Balanced() && l.Matched()
    requires l.cache.events != [] && Carries(l.cache.events[0], e) && e in l.strings
    modifies l.cache`events, l.cache.known`references, l.cache.known`freed
    ensures CacheAt(l.cache, held, q) && l.Balanced() && Behind(l, e) && R.Next(r, R.EventStep, q)
  {
    ghost var ok := l.Balanced();
    q := R.StepEvent(l.cache, held, r);
    assert l.Balanced() == ok;
  }

  /** The element that a report is for; a report for nobody changes nothing. */
  method Find(l: Ledger, held: seq<Element>, who: R.Who, name: string, m: P.Message, ghost r: R.Run)
    returns (e: Option<Element>)
    requires At(l, held, r)
    ensures if e.Some? then e.value in l.strings && R.Pick(r, who).Some? else Next(r, ReportStep(who, name, m), r)
  {
    e := R.Find(l.cache, held, who, r);
  }

  method StepReport(l: Ledger, held: seq<Element>, who: R.Who, name: string, m: P.Message, ghost r: R.Run,
                    ghost n: string)
    returns (ghost q: R.Run)
    requires At(l, held, r) && P.Plain(m)
    modifies l, l.pool, l.cache
    ensures At(l, held, q) && Next(r, ReportStep(who, name, m), q)
    ensures name != n ==> StaysAt(old(l.cache.known), old(l.owns), l.owns, n)
    ensures old(l.cache.known) <= l.cache.known && fresh(l.cache.known - old(l.cache.known))
  {
    ghost var known := l.cache.known;
    var e := Find(l, held, who, name, m, r);
    if e.None? {
      assert known - known == {};
      q := r;
    } else {
      q := ReportFound(l, held, e.value, who, name, m, r, n);
    }
  }

  method ReportFound(l: Ledger, held: seq<Element>, e: Element, who: R.Who, name: string, m: P.Message, ghost r: R.Run,
                     ghost n: string)
    returns (ghost q: R.Run)
    requires At(l, held, r) && P.Plain(m) && e in l.strings && R.Pick(r, who).Some?
    modifies l, l.pool, l.cache
    ensures At(l, held, q) && Next(r, ReportStep(who, name, m), q)
    ensures name != n ==> StaysAt(old(l.cache.known), old(l.owns), l.owns, n)
    ensures old(l.cache.known) <= l.cache.known && fresh(l.cache.known - old(l.cache.known))
  {
    ghost var current := Lookup(l.owns[e].lists, name);
    ghost var i;
    q, i := Report(l, held, e, name, m, r, n);
    ReportedNext(r, who, name, m, current, q);
  }

  lemma ReportedNext(r: R.Run, who: R.Who, name: string, m: P.Message, current: Option<seq<string>>, q: R.Run)
    requires if m.MPlain? then q == r else ArrayNext(r, name, m.w, current, q)
    requires R.Pick(r, who).Some?
    ensures Next(r, ReportStep(who, name, m), q)
  {}

  /** The property at i of e, the first of its name, is new or different and shows what was
      reported; everything else that elements hold or show is as before, apart from elements made
      meanwhile. */
  ghost predicate Written(before: Books, o: Owned, text: Texts, after: Books, o': Owned, e: Element, name: string,
                          m: P.Message, i: nat) {
    && e in before && before.Keys <= after.Keys && e in o && e in o'
    && (forall x :: x in before && x != e ==> after[x] == before[x])
    && (forall x :: x in o && x != e ==> x in o' && o'[x] == o[x])
    && P.StoredAt(before[e].props, after[e].props, i) && P.Reported(text, after[e].props[i], name, m)
    && P.FirstNamed(text, after[e].props, i, name) && o'[e].lists == ListsAfter(o[e].lists, name, m)
  }

  lemma WithoutSame<T>(m: map<Element, T>, m': map<Element, T>, e: Element)
    requires m' - {e} == m - {e}
    ensures forall x :: x != e ==> (x in m <==> x in m') && (x in m ==> m'[x] == m[x])
  {
    forall x | x != e ensures (x in m <==> x in m') && (x in m ==> m'[x] == m[x]) {
      assert x in m <==> x in m - {e};
      assert x in m' <==> x in m' - {e};
      if x in m {
        assert (m - {e})[x] == m[x] && (m' - {e})[x] == m'[x];
      }
    }
  }

  lemma ExchangedIsWritten(before: Books, o: Owned, mid: Books, mo: Owned, was: Texts, text: Texts, after: Books,
                           o': Owned, others: Shares, e: Element, name: string, m: P.Message, i: nat)
    requires e in before && e in o && Grown(before, o, mid, mo)
    requires Exchanged(was, mid, mo, text, after, o', others, e, name, m, i)
    ensures Written(before, o, text, after, o', e, name, m, i)
  {
    WithoutSame(mid, after, e);
    WithoutSame(mo, o', e);
  }

  lemma WrittenStays(known: set<Element>, o: Owned, mo: Owned, o': Owned, e: Element, name: string, m: P.Message,
                     n: string)
    requires Stays(known, o, mo) && o' - {e} == mo - {e} && e in mo && e in o' && n != name
    requires o'[e].lists == ListsAfter(mo[e].lists, name, m)
    ensures StaysAt(known, o, o', n)
  {
    WithoutSame(mo, o', e);
  }

  /** A property of e is reported, in a GetProperties reply or a PropertyChanged signal. */
  method Report(l: Ledger, held: seq<Element>, e: Element, name: string, m: P.Message, ghost r: R.Run, ghost n: string)
    returns (ghost q: R.Run, ghost i: nat)
    requires At(l, held, r) && P.Plain(m) && e in l.strings
    modifies l, l.pool, l.cache
    ensures At(l, held, q) && e in old(l.owns)
    ensures if m.MPlain? then q == r else ArrayNext(r, name, m.w, Lookup(old(l.owns)[e].lists, name), q)
    ensures Written(old(l.strings), old(l.owns), l.pool.text, l.strings, l.owns, e, name, m, i)
    ensures n != name ==> StaysAt(old(l.cache.known), old(l.owns), l.owns, n)
    ensures old(l.cache.known) <= l.cache.known && fresh(l.cache.known - old(l.cache.known))
  {
    ghost var before, o, known := l.strings, l.owns, l.cache.known;
    CurrentIs(l, e, name);
    q := r;
    if m.MArray? {
      q := ArrayRead(l, held, e, name, m.w, r);
    } else {
      assert known - known == {};
    }
    i := StringsOnly(l, held, e, name, m, q, before, o, known, n);
  }

  /** The registry's part of a reported array: it is compared with the one stored for e. */
  method ArrayRead(l: Ledger, held: seq<Element>, e: Element, name: string, w: P.WireArray, ghost r: R.Run)
    returns (ghost q: R.Run)
    requires At(l, held, r) && e in l.strings
    modifies l, l.pool, l.cache
    ensures At(l, held, q)
    ensures ArrayNext(r, name, w, Stored(old(l.pool.text), old(l.strings)[e].props, name), q)
    ensures Grown(old(l.strings), old(l.owns), l.strings, l.owns) && Stays(old(l.cache.known), old(l.owns), l.owns)
    ensures old(l.cache.known) <= l.cache.known && fresh(l.cache.known - old(l.cache.known))
  {
    ghost var known := l.cache.known;
    var current := Stored(l.pool.text, l.strings[e].props, name);
    q := r;
    if Touches(name, w, current) {
      q := StepArray(l, held, name, current, Items(w), r);
    } else {
      assert known - known == {};
    }
  }

  /** What is found among the properties is what the account says. */
  lemma CurrentIs(l: Ledger, e: Element, name: string)
    requires l.Balanced() && e in l.strings
    ensures e in l.owns && Stored(l.pool.text, l.strings[e].props, name) == Lookup(l.owns[e].lists, name)
  {
    assert Right(l.pool.text, l.strings, l.owns, e);
  }

  method ReportBare(l: Ledger, e: Element, name: string, m: P.Message, ghost before: Books, ghost o: Owned,
                    ghost known: set<Element>, ghost n: string)
    returns (ghost i: nat)
    requires l.Balanced() && l.Matched() && P.Plain(m)
    requires e in before && e in o && Grown(before, o, l.strings, l.owns) && Stays(known, o, l.owns)
    modifies l, l.pool
    ensures l.Balanced() && l.Matched() && Written(before, o, l.pool.text, l.strings, l.owns, e, name, m, i)
    ensures n != name ==> StaysAt(known, o, l.owns, n)
  {
    ghost var was, mid, mo := l.pool.text, l.strings, l.owns;
    ghost var ok := l.Living(mid.Keys);
    i := l.ReportStrings(e, name, m);
    assert l.Living(mid.Keys) == ok && l.strings.Keys == mid.Keys;
    ExchangedIsWritten(before, o, mid, mo, was, l.pool.text, l.strings, l.owns, Sum(l.born, l.owns - {e}), e, name, m,
                       i);
    if n != name {
      WrittenStays(known, o, mo, l.owns, e, name, m, n);
    }
  }

  method StringsOnly(l: Ledger, held: seq<Element>, e: Element, name: string, m: P.Message, ghost r: R.Run,
                     ghost before: Books, ghost o: Owned, ghost known: set<Element>, ghost n: string)
    returns (ghost i: nat)
    requires At(l, held, r) && P.Plain(m)
    requires e in before && e in o && Grown(before, o, l.strings, l.owns) && Stays(known, o, l.owns)
    modifies l, l.pool
    ensures At(l, held, r) && Written(before, o, l.pool.text, l.strings, l.owns, e, name, m, i)
    ensures n != name ==> StaysAt(known, o, l.owns, n)
  {
    ghost var ok := CacheAt(l.cache, held, r);
    i := ReportBare(l, e, name, m, before, o, known, n);
    assert CacheAt(l.cache, held, r) == ok;
  }

  /** One step; n is a name that it does not report. */
  method PlayStep(l: Ledger, held: seq<Element>, step: Step, ghost r: R.Run, ghost n: string)
    returns (held': seq<Element>, ghost q: R.Run)
    requires At(l, held, r) && (step.ReportStep? ==> P.Plain(step.m))
    modifies l, l.pool, l.cache, l.cache.known
    ensures At(l, held', q) && Next(r, step, q)
    ensures Reports(step, n) || StaysAt(old(l.cache.known), old(l.owns), l.owns, n)
    ensures old(l.cache.known) <= l.cache.known && fresh(l.cache.known - old(l.cache.known))
  {
    ghost var known, o := l.cache.known, l.owns;
    if step.ReportStep? {
      held' := held;
      q := StepReport(l, held, step.who, step.name, step.m, r, n);
    } else if step.RefStep? || step.UnrefStep? || step.EventStep? {
      held', q := PlayHold(l, held, step, r);
      assert l.cache.known - known == {};
      StaysAll(known, o, l.owns, n);
    } else {
      held' := held;
      q := PlayRegistry(l, held, step, r);
      StaysAll(known, o, l.owns, n);
    }
  }

  lemma StaysAll(known: set<Element>, o: Owned, o': Owned, n: string)
    requires Stays(known, o, o')
    ensures StaysAt(known, o, o', n)
  {}

  /** An element is registered, unregistered or announced as changed, or all are unregistered. */
  method PlayRegistry(l: Ledger, held: seq<Element>, step: Step, ghost r: R.Run) returns (ghost q: R.Run)
    requires At(l, held, r)
    requires step.RegisterStep? || step.UnregisterStep? || step.UpdatedStep? || step.ClearStep?
    modifies l, l.pool, l.cache, l.cache.known`references
    ensures At(l, held, q) && Next(r, step, q) && Stays(old(l.cache.known), old(l.owns), l.owns)
    ensures old(l.cache.known) <= l.cache.known && fresh(l.cache.known - old(l.cache.known))
  {
    ghost var known := l.cache.known;
    assert known - known == {};
    match step {
      case RegisterStep(path, iface) => q := StepRegister(l, held, path, iface, r);
      case UnregisterStep(path) => q := StepUnregister(l, held, path, r);
      case UpdatedStep(who) => q := StepUpdated(l, held, who, r);
      case ClearStep => q := StepClear(l, held, r);
    }
  }

  /** A user takes or gives back a reference, or an event is delivered. */
  method PlayHold(l: Ledger, held: seq<Element>, step: Step, ghost r: R.Run)
    returns (held': seq<Element>, ghost q: R.Run)
    requires At(l, held, r) && (step.RefStep? || step.UnrefStep? || step.EventStep?)
    modifies l, l.pool, l.cache`events, l.cache.known`references, l.cache.known`userRefs, l.cache.known`freed
    ensures At(l, held', q) && Next(r, step, q) && Stays(l.cache.known, old(l.owns), l.owns)
  {
    held' := held;
    match step {
      case RefStep(who) => held', q := StepRef(l, held, who, r);
      case UnrefStep(k) => held', q := StepUnref(l, held, k, r);
      case EventStep => q := StepEvent(l, held, r);
    }
  }

  /** The step reports a property of the name. */
  predicate Reports(step: Step, n: string) {
    step.ReportStep? && step.name == n
  }

  method PlayAll(l: Ledger, steps: seq<Step>) returns (held: seq<Element>, ghost r: R.Run)
    requires At(l, [], R.START) && l.cache.known == {} && AllPlain(steps)
    modifies l, l.pool, l.cache
    ensures At(l, held, r) && Reach(steps, r)
  {
    held, r := [], R.START;
    for i := 0 to |steps|
      invariant fresh(l.cache.known) && At(l, held, r) && Reach(steps[..i], r)
    {
      ghost var before := r;
      held, r := PlayStep(l, held, steps[i], r, "");
      ReachNext(steps, i, before, r);
    }
    assert steps[..|steps|] == steps;
  }

  // ----- one array after the other

  /** The steps may report anything but the name. */
  ghost predicate NoneReports(steps: seq<Step>, n: string) {
    forall k :: 0 <= k < |steps| ==> !Reports(steps[k], n)
  }

  lemma StaysAtTwice(known: set<Element>, more: set<Element>, o: Owned, mid: Owned, o': Owned, n: string)
    requires known <= more && StaysAt(known, o, mid, n) && StaysAt(more, mid, o', n)
    ensures StaysAt(known, o, o', n)
  {}

  method PlayMore(l: Ledger, held: seq<Element>, steps: seq<Step>, ghost r: R.Run, ghost n: string)
    returns (held': seq<Element>, ghost q: R.Run)
    requires At(l, held, r) && AllPlain(steps) && NoneReports(steps, n)
    modifies l, l.pool, l.cache, l.cache.known
    ensures At(l, held', q) && StaysAt(old(l.cache.known), old(l.owns), l.owns, n)
    decreases |steps|
  {
    held', q := held, r;
    if steps != [] {
      ghost var known, o := l.cache.known, l.owns;
      held', q := PlayStep(l, held, steps[0], r, n);
      ghost var more, mid := l.cache.known, l.owns;
      assert forall k :: 0 <= k < |steps[1..]| ==> steps[1..][k] == steps[k + 1];
      held', q := PlayMore(l, held', steps[1..], q, n);
      StaysAtTwice(known, more, o, mid, l.owns, n);
    }
  }

  /** An array of paths that is reported for an element stays stored for it, whatever is done and
      reported meanwhile, until that name is reported again or the element is freed. */
  method ReportAndPlay(l: Ledger, held: seq<Element>, e: Element, name: string, a: seq<string>, steps: seq<Step>,
                       ghost r: R.Run)
    returns (held': seq<Element>, ghost q: R.Run)
    requires At(l, held, r) && e in l.strings && AllPlain(steps) && NoneReports(steps, name)
    modifies l, l.pool, l.cache, l.cache.known
    ensures At(l, held', q)
    ensures e in l.strings ==> Stored(l.pool.text, l.strings[e].props, name) == Some(a)
  {
    ghost var i;
    q, i := Report(l, held, e, name, P.MArray(P.WPaths(a)), r, name);
    assert e in l.strings && e in l.cache.known && Lookup(l.owns[e].lists, name) == Some(a);
    held', q := PlayMore(l, held, steps, q, name);
    if e in l.strings {
      CurrentIs(l, e, name);
    }
  }

  /** The next report of the name registers what is listed now, if the name registers objects, and
      unregisters exactly what was listed more often in the array that is stored; an array that is
      empty or lists no strings unregisters all that was listed. */
  method ReportNext(l: Ledger, held: seq<Element>, e: Element, name: string, current: Option<seq<string>>,
                    w: P.WireArray, ghost r: R.Run)
    returns (ghost q: R.Run)
    requires At(l, held, r) && e in l.strings && Stored(l.pool.text, l.strings[e].props, name) == current
    requires Regular(name, w, current)
    modifies l, l.pool, l.cache
    ensures At(l, held, q)
    ensures l.cache.elements.Keys == old(l.cache.elements.Keys) + Registering(name, w) - Unregistering(current, w)
  {
    ghost var i;
    CurrentIs(l, e, name);
    q, i := Report(l, held, e, name, P.MArray(w), r, "");
    ArrayNextMeans(r, name, w, current, q);
  }

  /** Objects are registered for three names. */
  ghost function Registering(name: string, w: P.WireArray): set<string> {
    if name in {"Profiles", "Services", "Technologies"} && w.WPaths? then SetOf(w.texts) else {}
  }

  ghost function Unregistering(current: Option<seq<string>>, w: P.WireArray): set<string> {
    if current.None? then {}
    else if w.WPaths? || w.WStrings? then Surplus(current.value, w.texts)
    else SetOf(current.value)
  }

  lemma AllIsSurplus(a: seq<string>)
    ensures Surplus(a, []) == SetOf(a)
  {
    forall p ensures p in SetOf(a) <==> p in Surplus(a, []) {
      SetOfIsSupport(a, p);
    }
  }

  lemma ArrayNextMeans(r: R.Run, name: string, w: P.WireArray, current: Option<seq<string>>, q: R.Run)
    requires Regular(name, w, current) && ArrayNext(r, name, w, current, q)
    ensures q.paths == r.paths + Registering(name, w) - Unregistering(current, w)
  {
    if current.Some? {
      AllIsSurplus(current.value);
    }
  }

  lemma ReachNext(steps: seq<Step>, i: nat, q: R.Run, r: R.Run)
    requires i < |steps| && Reach(steps[..i], q) && Next(q, steps[i], r)
    ensures Reach(steps[..i + 1], r)
  {
    assert steps[..i + 1][..i] == steps[..i] && Via(steps[..i + 1], q, r);
  }

  ghost predicate AllPlain(steps: seq<Step>) {
    forall k :: 0 <= k < |steps| && steps[k].ReportStep? ==> P.Plain(steps[k].m)
  }

  lemma AllFreed(l: Ledger)
    requires l.Balanced() && l.Matched()
    ensures l.pool.shares == l.base + Sum(l.born, l.owns)
    ensures l.owns.Keys == l.strings.Keys && forall e :: e in l.strings ==> l.owns[e].shares == Owns(l.strings[e])
    ensures (forall e :: e in l.cache.known ==> e.freed) ==> l.pool.shares == l.base
  {
    forall e | e in l.strings ensures l.owns[e].shares == Owns(l.strings[e]) {
      assert Right(l.pool.text, l.strings, l.owns, e);
    }
    if forall e :: e in l.cache.known ==> e.freed {
      assert l.owns == map[];
      SumNone(l.born, l.owns);
    }
  }

  /** Any run of registry and pool comes to what its steps say. The shares are at all times those
      that others had before, and, for each element that is not freed, its path, its interface
      and the strings of its properties; once all elements are freed, the pool has exactly the
      shares it began with. */
  method WholeRun(pool: P.Pool, steps: seq<Step>) returns (l: Ledger, held: seq<Element>, ghost r: R.Run)
    requires pool.Valid() && AllPlain(steps)
    modifies pool
    ensures l.pool == pool && At(l, held, r) && Reach(steps, r)
    ensures pool.shares == old(pool.shares) + Sum(l.born, l.owns)
    ensures l.owns.Keys == l.strings.Keys && forall e :: e in l.strings ==> l.owns[e].shares == Owns(l.strings[e])
    ensures (forall e :: e in l.cache.known ==> e.freed) ==> pool.shares == old(pool.shares)
  {
    l := new Ledger(pool);
    held, r := PlayAll(l, steps);
    AllFreed(l);
  }
}
