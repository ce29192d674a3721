/** The registry of remote objects, the queue of element events and the reference counts
    that tie them together (src/lib/connman0_7x/e_connman_element.c). */
module ElementCache {
  import opened Counting
  import opened Prelude
  import ArrayMatch
  import L = Lists

  datatype Kind = ElementAdd | ElementUpdated | ElementDel

  datatype Event =
    | ElementEvent(kind: Kind, element: Element)
    | ManagerIn
    | ManagerOut

  class Element {
    const path: string
    const iface: string
    var references: int
    ghost var userRefs: nat
    ghost var freed: bool

    constructor (path: string, iface: string)
      ensures this.path == path && this.iface == iface && references == 1 && userRefs == 0 && !freed
    {
      this.path, this.iface, references, userRefs, freed := path, iface, 1, 0, false;
    }
  }

  predicate Carries(ev: Event, e: Element) {
    ev.ElementEvent? && ev.element == e
  }

  /** How many queued events carry e. */
  ghost function Queued(events: seq<Event>, e: Element): nat {
    if events == [] then 0 else
      Queued(events[..|events| - 1], e) + if Carries(events[|events| - 1], e) then 1 else 0
  }

  /** How many of them announce its deletion. */
  ghost function DelQueued(events: seq<Event>, e: Element): nat {
    if events == [] then 0 else
      var ev := events[|events| - 1];
      DelQueued(events[..|events| - 1], e) + if Carries(ev, e) && ev.kind.ElementDel? then 1 else 0
  }

  lemma QueuedPush(events: seq<Event>, ev: Event, e: Element)
    ensures Queued(events + [ev], e) == Queued(events, e) + if Carries(ev, e) then 1 else 0
    ensures DelQueued(events + [ev], e) == DelQueued(events, e) + if Carries(ev, e) && ev.kind.ElementDel? then 1 else 0
  {
    assert (events + [ev])[..|events|] == events;
  }

  lemma {:induction false} QueuedPop(events: seq<Event>, e: Element)
    requires events != []
    ensures Queued(events, e) == Queued(events[1..], e) + if Carries(events[0], e) then 1 else 0
    ensures DelQueued(events, e)
            == DelQueued(events[1..], e) + if Carries(events[0], e) && events[0].kind.ElementDel? then 1 else 0
  {
    if |events| > 1 {
      var front := events[..|events| - 1];
      QueuedPop(front, e);
      assert events[1..][..|events| - 2] == front[1..];
    } else {
      assert events[..0] == [] && events[1..] == [];
    }
  }

  lemma {:induction false} QueuedAt(events: seq<Event>, e: Element, k: nat)
    requires k < |events| && Carries(events[k], e)
    ensures Queued(events, e) > 0
  {
    if k < |events| - 1 {
      QueuedAt(events[..|events| - 1], e, k);
    }
  }

  lemma {:induction false} NotQueued(events: seq<Event>, e: Element)
    requires forall k :: 0 <= k < |events| ==> !Carries(events[k], e)
    ensures Queued(events, e) == 0 && DelQueued(events, e) == 0
  {
    if events != [] {
      NotQueued(events[..|events| - 1], e);
    }
  }

  const IFACE_PROFILE := "net.connman.Profile"
  const IFACE_SERVICE := "net.connman.Service"
  const IFACE_TECHNOLOGY := "net.connman.Technology"

  /** The interface of the objects listed under a property, if the property lists objects
      the registry takes. */
  function GetInterface(key: string): Option<string> {
    if key == "Profiles" then Some(IFACE_PROFILE)
    else if key == "Services" then Some(IFACE_SERVICE)
    else if key == "Technologies" then Some(IFACE_TECHNOLOGY)
    else None
  }

  /** Profiles, services and technologies are listed under a name each, with an interface each;
      nothing else is registered. */
  predicate ListedAs(key: string, iface: string) {
    || (key == "Profiles" && iface == "net.connman.Profile")
    || (key == "Services" && iface == "net.connman.Service")
    || (key == "Technologies" && iface == "net.connman.Technology")
  }

  /** The queue after one event of a kind was added for each element of es, in order. */
  ghost function Enqueued(events: seq<Event>, kind: Kind, es: seq<Element>): seq<Event> {
    if es == [] then events
    else Enqueued(events, kind, es[..|es| - 1]) + [ElementEvent(kind, es[|es| - 1])]
  }

  predicate AllListedAs(key: string, es: seq<Element>) {
    forall k :: 0 <= k < |es| ==> ListedAs(key, es[k].iface)
  }

  lemma EnqueuedPush(events: seq<Event>, kind: Kind, es: seq<Element>, e: Element)
    ensures Enqueued(events, kind, es + [e]) == Enqueued(events, kind, es) + [ElementEvent(kind, e)]
  {
    assert (es + [e])[..|es|] == es;
  }

  ghost function PathsOf(es: seq<Element>): seq<string> {
    if es == [] then [] else PathsOf(es[..|es| - 1]) + [es[|es| - 1].path]
  }

  /** Elements announced while items are gone through come in the order of the items. */
  lemma InOrder(es: seq<Element>, items: seq<string>, i: nat, one: Option<Element>)
    requires i < |items| && ArrayMatch.Subseq(PathsOf(es), items[..i])
    requires one.Some? ==> one.value.path == items[i]
    ensures ArrayMatch.Subseq(PathsOf(if one.Some? then es + [one.value] else es), items[..i + 1])
  {
    assert items[..i + 1] == items[..i] + [items[i]];
    if one.Some? {
      assert (es + [one.value])[..|es|] == es;
      ArrayMatch.SubseqTake(PathsOf(es), items[..i], items[i]);
    } else {
      ArrayMatch.SubseqSkip(PathsOf(es), items[..i], items[i]);
    }
  }

  /** es lists, once each, the elements that m holds for the paths ps. */
  ghost predicate Lists(es: seq<Element>, m: map<string, Element>, ps: set<string>) {
    if es == [] then ps !! m.Keys else
      var e := es[|es| - 1];
      e.path in ps && Lookup(m, e.path) == Some(e) && Lists(es[..|es| - 1], m, ps - {e.path})
  }

  lemma {:induction false} ListsMeans(es: seq<Element>, m: map<string, Element>, ps: set<string>)
    requires Lists(es, m, ps)
    ensures forall i, j :: 0 <= i < j < |es| ==> es[i].path != es[j].path
    ensures forall i :: 0 <= i < |es| ==> es[i].path in ps && Lookup(m, es[i].path) == Some(es[i])
    ensures forall p :: p in ps && p in m ==> m[p] in es
  {
    if es != [] {
      var front, e := es[..|es| - 1], es[|es| - 1];
      ListsMeans(front, m, ps - {e.path});
      forall p | p in ps && p in m ensures m[p] in es {
        assert p != e.path ==> m[p] in front;
      }
    }
  }

  lemma {:induction false} ListsAbsent(es: seq<Element>, m: map<string, Element>, ps: set<string>, p: string)
    requires Lists(es, m, ps) && p !in m
    ensures Lists(es, m, ps + {p})
  {
    if es != [] {
      var e := es[|es| - 1];
      ListsAbsent(es[..|es| - 1], m, ps - {e.path}, p);
      assert ps + {p} - {e.path} == ps - {e.path} + {p};
    }
  }

  /** One more path is looked up. */
  lemma ListsMore(es: seq<Element>, m: map<string, Element>, ps: set<string>, p: string)
    requires Lists(es, m, ps) && (p in m ==> m[p].path == p)
    ensures p !in m || p in ps ==> Lists(es, m, ps + {p})
    ensures p in m && p !in ps ==> Lists(es + [m[p]], m, ps + {p})
  {
    if p !in m {
      ListsAbsent(es, m, ps, p);
    } else if p in ps {
      assert ps + {p} == ps;
    } else {
      assert (es + [m[p]])[..|es|] == es && ps + {p} - {p} == ps;
    }
  }

  lemma {:induction false} ListsWider(es: seq<Element>, m: map<string, Element>, ps: set<string>, e: Element)
    requires Lists(es, m, ps) && e.path !in m && e.path !in ps
    ensures Lists(es, m[e.path := e], ps)
  {
    if es != [] {
      ListsWider(es[..|es| - 1], m, ps - {es[|es| - 1].path}, e);
    }
  }

  /** One more element is registered. */
  lemma ListsGrow(es: seq<Element>, m: map<string, Element>, ps: set<string>, e: Element)
    requires Lists(es, m, ps) && e.path !in m && e.path !in ps
    ensures Lists(es + [e], m[e.path := e], ps + {e.path})
  {
    ListsWider(es, m, ps, e);
    ListsMore(es, m[e.path := e], ps, e.path);
  }

  function SetOf(s: seq<string>): set<string> {
    if s == [] then {} else SetOf(s[..|s| - 1]) + {s[|s| - 1]}
  }

  /** The paths that the first n items add to a registry that holds the paths r. */
  ghost function NewPaths(key: string, items: seq<string>, r: set<string>, n: nat): set<string>
    requires n <= |items|
  {
    if n == 0 then {} else
      var before := NewPaths(key, items, r, n - 1);
      if GetInterface(key).Some? && items[n - 1] !in r then before + {items[n - 1]} else before
  }

  lemma {:induction false} NewPathsAre(key: string, items: seq<string>, r: set<string>, n: nat)
    requires n <= |items|
    ensures NewPaths(key, items, r, n) == if GetInterface(key).Some? then SetOf(items[..n]) - r else {}
  {
    if n > 0 {
      NewPathsAre(key, items, r, n - 1);
      SetOfNext(items, n - 1);
    }
  }

  lemma SetOfNext(s: seq<string>, i: nat)
    requires i < |s|
    ensures SetOf(s[..i + 1]) == SetOf(s[..i]) + {s[i]}
  {
    assert s[..i + 1][..i] == s[..i];
  }

  lemma {:induction false} SetOfIsSupport(s: seq<string>, p: string)
    ensures p in SetOf(s) <==> multiset(s)[p] > 0
  {
    if s != [] {
      SetOfIsSupport(s[..|s| - 1], p);
      assert s == s[..|s| - 1] + [s[|s| - 1]];
    }
  }

  /** The paths that stand more often in the old array than in the new one. */
  ghost function Surplus(o: seq<string>, n: seq<string>): set<string> {
    set p | p in SetOf(o) && multiset(o)[p] > multiset(n)[p]
  }

  lemma SurplusIsRemoved(o: seq<string>, n: seq<string>, removed: seq<string>)
    requires multiset(removed) == multiset(o) - multiset(n)
    ensures SetOf(removed) == Surplus(o, n)
  {
    forall p ensures p in SetOf(removed) <==> p in Surplus(o, n) {
      SetOfIsSupport(removed, p);
      SetOfIsSupport(o, p);
    }
  }

  lemma AddedWasRead(o: seq<string>, n: seq<string>, added: seq<string>)
    requires multiset(added) == multiset(n) - multiset(o)
    ensures SetOf(added) <= SetOf(n)
  {
    forall p | p in SetOf(added) ensures p in SetOf(n) {
      SetOfIsSupport(added, p);
      SetOfIsSupport(n, p);
    }
  }

  ghost predicate NoUsers(es: set<Element>)
    reads es
  {
    forall e :: e in es ==> e.userRefs == 0
  }

  /** The first n items were registered, as the elements made, since the registry was before and
      the queue was q. */
  ghost predicate ReadSoFar(key: string, items: seq<string>, n: nat, before: map<string, Element>, q: seq<Event>,
                            made: seq<Element>, elements: map<string, Element>, events: seq<Event>)
    requires n <= |items|
  {
    var newPaths := NewPaths(key, items, before.Keys, n);
    && elements.Keys == before.Keys + newPaths
    && (forall p :: p in before ==> elements[p] == before[p])
    && Lists(made, elements, newPaths)
    && events == Enqueued(q, ElementAdd, made) && ArrayMatch.Subseq(PathsOf(made), items[..n])
  }

  /** One more item is looked up, and registered if it is new. */
  lemma ReadNext(key: string, items: seq<string>, i: nat, before: map<string, Element>, q: seq<Event>,
                 made: seq<Element>, one: Option<Element>, now: map<string, Element>, queue: seq<Event>,
                 made': seq<Element>, elements: map<string, Element>, events: seq<Event>)
    requires i < |items| && ReadSoFar(key, items, i, before, q, made, now, queue)
    requires one.Some? <==> GetInterface(key).Some? && items[i] !in now
    requires made' == if one.Some? then made + [one.value] else made
    requires if one.None? then elements == now && events == queue
             else one.value.path == items[i] && elements == now[items[i] := one.value]
                  && events == queue + [ElementEvent(ElementAdd, one.value)]
    ensures ReadSoFar(key, items, i + 1, before, q, made', elements, events)
  {
    var newPaths := NewPaths(key, items, before.Keys, i);
    InOrder(made, items, i, one);
    NewPathsNext(key, items, before.Keys, i, newPaths, now.Keys);
    if one.Some? {
      EnqueuedPush(q, ElementAdd, made, one.value);
      ListsGrow(made, now, newPaths, one.value);
      assert elements.Keys == now.Keys + {items[i]};
    }
  }

  lemma NewPathsNext(key: string, items: seq<string>, r: set<string>, i: nat, newPaths: set<string>, now: set<string>)
    requires i < |items| && newPaths == NewPaths(key, items, r, i) && now == r + newPaths
    ensures NewPaths(key, items, r, i + 1) ==
            if GetInterface(key).Some? && items[i] !in now then newPaths + {items[i]} else newPaths
  {}

  class Cache {
    var elements: map<string, Element>
    var events: seq<Event>
    ghost var known: set<Element>

    ghost predicate Registered(e: Element)
      reads this
    {
      e.path in elements && elements[e.path] == e
    }

    ghost function Holders(e: Element): nat
      reads this, e
    {
      (if Registered(e) then 1 else 0) + Queued(events, e) + e.userRefs
    }

    /** Every reference is held by the registry, a queued event or a user; an element is
        freed exactly when nobody holds it; the registry's own reference is handed to at
        most one queued DEL. */
    ghost predicate Counted(e: Element)
      reads this, e
    {
      && e.references == Holders(e)
      && (e.freed <==> e.references == 0)
      && DelQueued(events, e) <= if Registered(e) then 0 else 1
    }

    ghost predicate Valid()
      reads this, known
    {
      && (forall p :: p in elements ==> elements[p] in known && elements[p].path == p)
      && (forall k :: 0 <= k < |events| && events[k].ElementEvent? ==> events[k].element in known)
      && (forall e :: e in known ==> Counted(e))
    }

    constructor ()
      ensures Valid() && elements == map[] && events == [] && known == {}
    {
      elements, events, known := map[], [], {};
    }

    /** Neither the registry nor a queued event holds a freed element. */
    lemma NothingFreedIsHeld(e: Element)
      requires Valid() && (Registered(e) || exists k :: 0 <= k < |events| && Carries(events[k], e))
      ensures e in known && !e.freed && e.references > 0
    {
      if !Registered(e) {
        var k :| 0 <= k < |events| && Carries(events[k], e);
        QueuedAt(events, e, k);
      }
    }

    /** e_connman_element_event_add. */
    method EventAdd(kind: Kind, e: Element)
      requires Valid() && e in known && !e.freed && !kind.ElementDel?
      modifies this`events, e`references
      ensures Valid() && events == old(events) + [ElementEvent(kind, e)]
    {
      ghost var before := events;
      e.references := e.references + 1;
      events := events + [ElementEvent(kind, e)];
      forall x | x in known ensures Counted(x) {
        QueuedPush(before, ElementEvent(kind, e), x);
      }
    }

    /** A MANAGER_IN or MANAGER_OUT event joins the queue. */
    method ManagerEvent(ev: Event)
      requires Valid() && !ev.ElementEvent?
      modifies this`events
      ensures Valid() && events == old(events) + [ev]
    {
      ghost var before := events;
      events := events + [ev];
      forall x | x in known ensures Counted(x) {
        QueuedPush(before, ev, x);
      }
    }

    /** e_connman_element_register. */
    method Register(path: string, iface: string) returns (e: Element)
      requires Valid()
      modifies this
      ensures Valid()
      ensures path in old(elements) ==>
                && e == old(elements[path]) && elements == old(elements)
                && events == old(events) && known == old(known)
      ensures path !in old(elements) ==>
                && fresh(e) && known == old(known) + {e} && e.path == path && e.iface == iface && e.userRefs == 0
                && elements == old(elements)[path := e]
                && events == old(events) + [ElementEvent(ElementAdd, e)]
    {
      if path in elements {
        return elements[path];
      }
      e := new Element(path, iface);
      NotQueued(events, e);
      known := known + {e};
      elements := elements[path := e];
      EventAdd(ElementAdd, e);
    }

    /** eina_hash_del_by_key with the hash's free callback: the registry's reference moves
        to a DEL event. */
    method Unregister(e: Element)
      requires Valid()
      modifies this`elements, this`events
      ensures Valid()
      ensures elements == old(elements) - {e.path}
      ensures events == if e.path in old(elements)
                        then old(events) + [ElementEvent(ElementDel, old(elements)[e.path])] else old(events)
    {
      if e.path in elements {
        var gone := elements[e.path];
        elements := elements - {e.path};
        ghost var before := events;
        events := events + [ElementEvent(ElementDel, gone)];
        forall x | x in known ensures Counted(x) {
          QueuedPush(before, ElementEvent(ElementDel, gone), x);
        }
      }
    }

    /** A user of the library takes a reference on an element it holds. */
    method Ref(e: Element)
      requires Valid() && e in known && !e.freed
      modifies e`references, e`userRefs
      ensures Valid() && e.userRefs == old(e.userRefs) + 1
    {
      e.references := e.references + 1;
      e.userRefs := e.userRefs + 1;
    }

    /** A user gives back a reference it took. */
    method Unref(e: Element)
      requires Valid() && e in known && e.userRefs > 0
      modifies e`references, e`userRefs, e`freed
      ensures Valid() && e.userRefs == old(e.userRefs) - 1
      ensures e.freed <==> Holders(e) == 0
    {
      e.userRefs := e.userRefs - 1;
      Drop(e);
    }

    /** e_connman_element_unref, after a holder let go. */
    method Drop(e: Element)
      requires !e.freed && e.references > 0
      modifies e`references, e`freed
      ensures e.references == old(e.references) - 1
      ensures e.freed <==> e.references == 0
    {
      e.references := e.references - 1;
      if e.references == 0 {
        Free(e);
      }
    }

    /** e_connman_element_free: never for an element already freed. */
    ghost method Free(e: Element)
      requires !e.freed
      modifies e`freed
      ensures e.freed
    {
      e.freed := true;
    }

    /** The main loop delivers the oldest event and runs its free callback. */
    method NextEvent() returns (ev: Event)
      requires Valid() && events != []
      modifies this`events, known`references, known`freed
      ensures Valid() && ev == old(events)[0] && events == old(events)[1..]
      ensures ev.ElementEvent? ==> !old(ev.element.freed) && (ev.element.freed <==> Holders(ev.element) == 0)
      ensures forall x :: x in known && !Carries(ev, x) ==> x.freed == old(x.freed)
    {
      ev := events[0];
      ghost var before := events;
      events := events[1..];
      if ev.ElementEvent? {
        QueuedAt(before, ev.element, 0);
        Drop(ev.element);
      }
      forall x | x in known ensures Counted(x) {
        QueuedPop(before, x);
      }
      assert ev.ElementEvent? ==> Counted(ev.element);
    }

    /** _e_connman_element_item_register; the GetProperties call that follows is sent to the
        bus and changes nothing here. */
    method ItemRegister(key: string, item: string) returns (made: Option<Element>)
      requires Valid()
      modifies this
      ensures Valid() && old(known) <= known && fresh(known - old(known)) && NoUsers(known - old(known))
      ensures known == if made.Some? then old(known) + {made.value} else old(known)
      ensures made.Some? <==> GetInterface(key).Some? && item !in old(elements)
      ensures made.None? ==> elements == old(elements) && events == old(events)
      ensures made.Some? ==> ListedAs(key, made.value.iface)
      ensures made.Some? ==>
                && fresh(made.value) && made.value.path == item && made.value.iface == GetInterface(key).value
                && !made.value.freed
                && elements == old(elements)[item := made.value]
                && events == old(events) + [ElementEvent(ElementAdd, made.value)]
    {
      made := None;
      var iface := GetInterface(key);
      if iface.None? {
        return;
      }
      var before := item in elements;
      var e := Register(item, iface.value);
      NothingFreedIsHeld(e);
      made := if before then None else Some(e);
    }

    /** The elements made since only those of was were known, once each. */
    ghost predicate Made(was: set<Element>, made: seq<Element>)
      reads `known, known`freed
    {
      && known == was + L.Elements(made) && was !! L.Elements(made) && L.Distinct(made)
      && forall e :: e in known ==> e in was || !e.freed
    }

    /** The first n items were registered since the registry was before and the queue was q. */
    ghost predicate Reading(key: string, items: seq<string>, n: nat, before: map<string, Element>,
            q: seq<Event>, made: seq<Element>)
      requires n <= |items|
      reads this
    {
      ReadSoFar(key, items, n, before, q, made, elements, events)
    }

    method RegisterNext(key: string, items: seq<string>, i: nat, ghost before: map<string, Element>,
            ghost q: seq<Event>, made: seq<Element>, ghost was: set<Element>)
      returns (made': seq<Element>)
      requires Valid() && i < |items| && Reading(key, items, i, before, q, made)
      requires Made(was, made)
      modifies this
      ensures Valid() && old(known) <= known && fresh(known - old(known)) && NoUsers(known - old(known))
      ensures Reading(key, items, i + 1, before, q, made')
      ensures Made(was, made') && (AllListedAs(key, made) ==> AllListedAs(key, made'))
    {
      ghost var now, queue := elements, events;
      var one := ItemRegister(key, items[i]);
      made' := if one.Some? then made + [one.value] else made;
      ReadNext(key, items, i, before, q, made, one, now, queue, made', elements, events);
      if one.Some? {
        L.More(made, one.value);
      }
    }

    /** Items registered in order while an array is read or matched. */
    method RegisterAll(key: string, items: seq<string>) returns (made: seq<Element>)
      requires Valid()
      modifies this
      ensures Valid() && old(known) <= known && fresh(known - old(known)) && NoUsers(known - old(known))
      ensures elements.Keys == old(elements.Keys) + NewPaths(key, items, old(elements.Keys), |items|)
      ensures forall p :: p in old(elements) ==> elements[p] == old(elements)[p]
      ensures Lists(made, elements, NewPaths(key, items, old(elements.Keys), |items|))
      ensures events == Enqueued(old(events), ElementAdd, made) && ArrayMatch.Subseq(PathsOf(made), items)
      ensures Made(old(known), made) && AllListedAs(key, made)
    {
      made := [];
      for i := 0 to |items|
        invariant Made(old(known), made) && AllListedAs(key, made)
        invariant Valid() && old(known) <= known && fresh(known - old(known)) && NoUsers(known - old(known))
        invariant Reading(key, items, i, old(elements), old(events), made)
      {
        made := RegisterNext(key, items, i, old(elements), old(events), made, old(known));
      }
      assert items[..|items|] == items;
    }

    /** The first n items were looked up and unregistered since the registry was before and the
        queue was q. */
    ghost predicate Unlisting(items: seq<string>, n: nat, before: map<string, Element>, q: seq<Event>,
                              gone: seq<Element>)
      requires n <= |items|
      reads this
    {
      && elements == before - SetOf(items[..n]) && Lists(gone, before, SetOf(items[..n]))
      && events == Enqueued(q, ElementDel, gone) && ArrayMatch.Subseq(PathsOf(gone), items[..n])
    }

    method UnregisterNext(items: seq<string>, i: nat, ghost before: map<string, Element>, ghost q: seq<Event>,
                          ghost gone: seq<Element>)
      returns (ghost gone': seq<Element>)
      requires Valid() && i < |items| && Unlisting(items, i, before, q, gone)
      requires items[i] in before ==> before[items[i]].path == items[i]
      modifies this`elements, this`events
      ensures Valid() && Unlisting(items, i + 1, before, q, gone')
    {
      SetOfNext(items, i);
      InOrder(gone, items, i, Lookup(elements, items[i]));
      ListsMore(gone, before, SetOf(items[..i]), items[i]);
      gone' := gone;
      if items[i] in elements {
        var e := elements[items[i]];
        EnqueuedPush(q, ElementDel, gone, e);
        Unregister(e);
        gone' := gone + [e];
      }
    }

    /** Items looked up and unregistered in order. */
    method UnregisterAll(items: seq<string>) returns (ghost gone: seq<Element>)
      requires Valid()
      modifies this`elements, this`events
      ensures Valid()
      ensures elements == old(elements) - SetOf(items)
      ensures Lists(gone, old(elements), SetOf(items))
      ensures events == Enqueued(old(events), ElementDel, gone) && ArrayMatch.Subseq(PathsOf(gone), items)
    {
      gone := [];
      for i := 0 to |items|
        invariant Valid() && Unlisting(items, i, old(elements), old(events), gone)
      {
        gone := UnregisterNext(items, i, old(elements), old(events), gone);
      }
      assert items[..|items|] == items;
    }

    /** _e_connman_element_array_match, after the new array was read: everything listed only
        in the old array, or there more often, is unregistered. */
    method MatchArrays(key: string, current: seq<string>, incoming: seq<string>) returns (ghost gone: seq<Element>)
      requires Valid() && (GetInterface(key).Some? ==> SetOf(incoming) <= elements.Keys)
      modifies this
      ensures Valid() && known == old(known)
      ensures elements == old(elements) - Surplus(current, incoming)
      ensures Lists(gone, old(elements), Surplus(current, incoming))
      ensures events == Enqueued(old(events), ElementDel, gone) && ArrayMatch.Subseq(PathsOf(gone), current)
    {
      var added, removed := ArrayMatch.Match(current, incoming);
      SurplusIsRemoved(current, incoming, removed);
      RegisterAgain(key, added, incoming, current);
      gone := UnregisterAll(removed);
      ArrayMatch.SubseqTrans(PathsOf(gone), removed, current);
    }

    /** A property that lists objects under key changes from current to incoming: the reply
        is read, which registers every item, then the arrays are matched. mid is the
        registry between the two. */
    method ArrayChanged(key: string, current: Option<seq<string>>, incoming: seq<string>)
      returns (ghost mid: map<string, Element>, made: seq<Element>, ghost gone: seq<Element>)
      requires Valid()
      modifies this
      ensures Valid() && old(known) <= known && fresh(known - old(known)) && NoUsers(known - old(known))
      ensures Made(old(known), made) && AllListedAs(key, made)
      ensures mid.Keys == old(elements.Keys) + if GetInterface(key).Some? then SetOf(incoming) else {}
      ensures forall p :: p in old(elements) ==> mid[p] == old(elements)[p]
      ensures elements == mid - if current.Some? then Surplus(current.value, incoming) else {}
      ensures Lists(made, mid, mid.Keys - old(elements.Keys))
      ensures Lists(gone, mid, if current.Some? then Surplus(current.value, incoming) else {})
      ensures events == Enqueued(Enqueued(old(events), ElementAdd, made), ElementDel, gone)
      ensures ArrayMatch.Subseq(PathsOf(made), incoming)
      ensures ArrayMatch.Subseq(PathsOf(gone), if current.Some? then current.value else [])
    {
      made := ReadItems(key, incoming);
      mid := elements;
      gone := MatchStored(key, current, incoming);
    }

    /** An array is read, which registers its items. */
    method ReadItems(key: string, items: seq<string>) returns (made: seq<Element>)
      requires Valid()
      modifies this
      ensures Valid() && old(known) <= known && fresh(known - old(known)) && NoUsers(known - old(known))
      ensures Made(old(known), made) && AllListedAs(key, made)
      ensures elements.Keys == old(elements.Keys) + if GetInterface(key).Some? then SetOf(items) else {}
      ensures forall p :: p in old(elements) ==> elements[p] == old(elements)[p]
      ensures Lists(made, elements, elements.Keys - old(elements.Keys))
      ensures events == Enqueued(old(events), ElementAdd, made) && ArrayMatch.Subseq(PathsOf(made), items)
    {
      NewPathsAre(key, items, elements.Keys, |items|);
      assert items[..|items|] == items;
      made := RegisterAll(key, items);
      assert elements.Keys - old(elements.Keys) == NewPaths(key, items, old(elements.Keys), |items|);
    }

    /** It is compared with the one that is stored, if there is one. */
    method MatchStored(key: string, current: Option<seq<string>>, incoming: seq<string>)
      returns (ghost gone: seq<Element>)
      requires Valid() && (GetInterface(key).Some? ==> SetOf(incoming) <= elements.Keys)
      modifies this
      ensures Valid() && known == old(known)
      ensures elements == old(elements) - if current.Some? then Surplus(current.value, incoming) else {}
      ensures Lists(gone, old(elements), if current.Some? then Surplus(current.value, incoming) else {})
      ensures events == Enqueued(old(events), ElementDel, gone)
      ensures ArrayMatch.Subseq(PathsOf(gone), if current.Some? then current.value else [])
    {
      gone := [];
      if current.Some? {
        gone := MatchArrays(key, current.value, incoming);
      }
    }

    /** What the match registers has been registered while the array was read. */
    method RegisterAgain(key: string, added: seq<string>, incoming: seq<string>, current: seq<string>)
      requires Valid() && multiset(added) == multiset(incoming) - multiset(current)
      requires GetInterface(key).Some? ==> SetOf(incoming) <= elements.Keys
      modifies this
      ensures Valid() && elements == old(elements) && events == old(events) && known == old(known)
    {
      AddedWasRead(current, incoming, added);
      NewPathsAre(key, added, elements.Keys, |added|);
      assert added[..|added|] == added;
      var more := RegisterAll(key, added);
      assert more == [];
    }

    /** e_connman_manager_clear_elements: the hash is freed, which queues one DEL for every
        element, and created again. */
    method ClearElements() returns (ghost gone: seq<Element>)
      requires Valid()
      modifies this`elements, this`events
      ensures Valid() && elements == map[]
      ensures Lists(gone, old(elements), old(elements.Keys))
      ensures events == Enqueued(old(events), ElementDel, gone)
    {
      gone := [];
      ghost var done := {};
      while elements != map[]
        invariant Valid()
        invariant done <= old(elements.Keys) && elements == old(elements) - done
        invariant Lists(gone, old(elements), done)
        invariant events == Enqueued(old(events), ElementDel, gone)
        decreases elements.Keys
      {
        assert elements.Keys != {};
        var p :| p in elements.Keys;
        var e := elements[p];
        EnqueuedPush(old(events), ElementDel, gone, e);
        ListsMore(gone, old(elements), done, p);
        Unregister(e);
        gone, done := gone + [e], done + {p};
      }
      assert done == old(elements.Keys) by {
        assert forall p :: p in old(elements) && p !in done ==> p in elements;
      }
    }
  }

  /** Replacing an array leaves the registry with what it had and what the new array lists,
      less what only the old array listed, exactly when no path of the new array stands more
      often in the old one. */
  lemma ReplacementIffNoSurplus(r: set<string>, o: seq<string>, n: seq<string>)
    ensures r + SetOf(n) - Surplus(o, n) == r + SetOf(n) - (SetOf(o) - SetOf(n))
            <==> forall p :: p in SetOf(n) ==> multiset(o)[p] <= multiset(n)[p]
  {
    forall p ensures p in SetOf(o) && p !in SetOf(n) ==> p in Surplus(o, n) {
      SetOfIsSupport(o, p);
      SetOfIsSupport(n, p);
    }
    forall p | p in SetOf(n) ensures p in Surplus(o, n) <==> multiset(o)[p] > multiset(n)[p] {
      SetOfIsSupport(o, p);
    }
    if r + SetOf(n) - Surplus(o, n) == r + SetOf(n) - (SetOf(o) - SetOf(n)) {
      forall p | p in SetOf(n) ensures multiset(o)[p] <= multiset(n)[p] {
        assert p in r + SetOf(n) - (SetOf(o) - SetOf(n));
      }
    }
  }

  /** So it holds for every old array without duplicates. */
  lemma ReplacementOfDistinct(r: set<string>, o: seq<string>, n: seq<string>)
    requires forall p :: multiset(o)[p] <= 1
    ensures r + SetOf(n) - Surplus(o, n) == r + SetOf(n) - (SetOf(o) - SetOf(n))
  {
    forall p | p in SetOf(n) ensures multiset(o)[p] <= multiset(n)[p] {
      SetOfIsSupport(n, p);
    }
    ReplacementIffNoSurplus(r, o, n);
  }

  /** A path listed twice and then once is dropped from the registry although it is still
      listed. */
  lemma DuplicateIsDropped(r: set<string>, p: string)
    ensures p in SetOf([p]) && p !in r + SetOf([p]) - Surplus([p, p], [p])
  {
    SetOfIsSupport([p], p);
    SetOfIsSupport([p, p], p);
  }
}
