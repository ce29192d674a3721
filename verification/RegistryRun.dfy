/** Whole runs of the element registry: what any sequence of registrations, array updates,
    deliveries and user references comes to (src/lib/connman0_7x/e_connman_element.c). */
module RegistryRun {
  import opened Counting
  import opened Prelude
  import opened ElementCache
  import ArrayMatch
  import L = Lists

  /** A queued event, as far as a client can tell. */
  datatype Notice = Notice(kind: Kind, path: string) | NoticeIn | NoticeOut

  ghost function NoticeOf(ev: Event): Notice {
    match ev
    case ElementEvent(kind, element) => Notice(kind, element.path)
    case ManagerIn => NoticeIn
    case ManagerOut => NoticeOut
  }

  ghost function Notices(events: seq<Event>): seq<Notice> {
    seq(|events|, k requires 0 <= k < |events| => NoticeOf(events[k]))
  }

  ghost function Tagged(kind: Kind, paths: seq<string>): seq<Notice> {
    if paths == [] then [] else Tagged(kind, paths[..|paths| - 1]) + [Notice(kind, paths[|paths| - 1])]
  }

  lemma NoticesPush(events: seq<Event>, ev: Event)
    ensures Notices(events + [ev]) == Notices(events) + [NoticeOf(ev)]
  {}

  lemma NoticesTail(events: seq<Event>)
    requires events != []
    ensures Notices(events[1..]) == Notices(events)[1..]
  {}

  lemma {:induction false} NoticesEnqueued(events: seq<Event>, kind: Kind, es: seq<Element>)
    ensures Notices(Enqueued(events, kind, es)) == Notices(events) + Tagged(kind, PathsOf(es))
  {
    if es == [] {
      assert Notices(events) + [] == Notices(events);
    } else {
      var front, e := es[..|es| - 1], es[|es| - 1];
      NoticesEnqueued(events, kind, front);
      NoticesPush(Enqueued(events, kind, front), ElementEvent(kind, e));
      TaggedPush(kind, PathsOf(front), e.path);
      assert Notices(events) + Tagged(kind, PathsOf(front)) + [Notice(kind, e.path)] ==
             Notices(events) + (Tagged(kind, PathsOf(front)) + [Notice(kind, e.path)]);
    }
  }

  lemma TaggedPush(kind: Kind, paths: seq<string>, p: string)
    ensures Tagged(kind, paths + [p]) == Tagged(kind, paths) + [Notice(kind, p)]
  {
    assert (paths + [p])[..|paths|] == paths;
  }

  /** ps holds each path of the set once. */
  ghost predicate Listing(ps: seq<string>, paths: set<string>) {
    if ps == [] then paths == {} else
      ps[|ps| - 1] in paths && Listing(ps[..|ps| - 1], paths - {ps[|ps| - 1]})
  }

  lemma {:induction false} ListsListing(es: seq<Element>, m: map<string, Element>, paths: set<string>)
    requires Lists(es, m, paths)
    ensures Listing(PathsOf(es), paths * m.Keys)
  {
    if es != [] {
      var front, p := es[..|es| - 1], es[|es| - 1].path;
      ListsListing(front, m, paths - {p});
      assert (paths - {p}) * m.Keys == paths * m.Keys - {p};
      assert PathsOf(es)[..|PathsOf(es)| - 1] == PathsOf(front);
    }
  }

  // ----- runs

  /** An element is named by a path in the registry, by a reference a user holds, or by a
      queued event that carries it. */
  datatype Who = ByPath(path: string) | ByHold(k: nat) | ByEvent(k: nat)

  datatype Step =
    | RegisterStep(path: string, iface: string)
    | UnregisterStep(path: string)
    | UpdatedStep(who: Who)
    | ArrayStep(key: string, current: Option<seq<string>>, incoming: seq<string>)
    | ClearStep
    | RefStep(who: Who)
    | UnrefStep(k: nat)
    | EventStep

  /** The registered paths, the paths of the elements that users hold references on, and the
      queue. */
  datatype Run = Run(paths: set<string>, held: seq<string>, queue: seq<Notice>)

  const START := Run({}, [], [])

  ghost function Pick(r: Run, who: Who): Option<string> {
    match who
    case ByPath(path) => if path in r.paths then Some(path) else None
    case ByHold(k) => if k < |r.held| then Some(r.held[k]) else None
    case ByEvent(k) => if k < |r.queue| && r.queue[k].Notice? then Some(r.queue[k].path) else None
  }

  ghost function Listed(key: string, incoming: seq<string>): set<string> {
    if GetInterface(key).Some? then SetOf(incoming) else {}
  }

  ghost function Dropped(current: Option<seq<string>>, incoming: seq<string>): set<string> {
    if current.Some? then Surplus(current.value, incoming) else {}
  }

  /** An array update announces the new paths in the order of the new array, then the deletion
      of those dropped in the order of the old one. */
  ghost predicate ArrayNext(r: Run, key: string, current: Option<seq<string>>, incoming: seq<string>, q: Run,
                            made: seq<string>, gone: seq<string>)
  {
    var all := r.paths + Listed(key, incoming);
    && Listing(made, all - r.paths) && Listing(gone, Dropped(current, incoming) * all)
    && ArrayMatch.Subseq(made, incoming) && ArrayMatch.Subseq(gone, if current.Some? then current.value else [])
    && q == Run(all - Dropped(current, incoming), r.held, r.queue + Tagged(ElementAdd, made) + Tagged(ElementDel, gone))
  }

  ghost predicate ClearNext(r: Run, q: Run, gone: seq<string>) {
    Listing(gone, r.paths) && q == Run({}, r.held, r.queue + Tagged(ElementDel, gone))
  }

  /** What one step may lead to; only the order in which a cleared registry is announced is
      left open. */
  ghost predicate Next(r: Run, step: Step, q: Run) {
    match step
    case RegisterStep(path, _) =>
      q == if path in r.paths then r else r.(paths := r.paths + {path}, queue := r.queue + [Notice(ElementAdd, path)])
    case UnregisterStep(path) =>
      q == if path in r.paths then r.(paths := r.paths - {path}, queue := r.queue + [Notice(ElementDel, path)]) else r
    case UpdatedStep(who) =>
      q == if Pick(r, who).Some? then r.(queue := r.queue + [Notice(ElementUpdated, Pick(r, who).value)]) else r
    case ArrayStep(key, current, incoming) =>
      exists made, gone :: ArrayNext(r, key, current, incoming, q, made, gone)
    case ClearStep => exists gone :: ClearNext(r, q, gone)
    case RefStep(who) => q == if Pick(r, who).Some? then r.(held := r.held + [Pick(r, who).value]) else r
    case UnrefStep(k) => q == if k < |r.held| then r.(held := ArrayMatch.RemoveAt(r.held, k)) else r
    case EventStep => q == if r.queue != [] then r.(queue := r.queue[1..]) else r
  }

  /** r can be what the steps come to. */
  ghost predicate Reach(steps: seq<Step>, r: Run)
    decreases |steps|, 1
  {
    if steps == [] then r == START else exists q :: Via(steps, q, r)
  }

  ghost predicate Via(steps: seq<Step>, q: Run, r: Run)
    requires steps != []
    decreases |steps|, 0
  {
    Reach(steps[..|steps| - 1], q) && Next(q, steps[|steps| - 1], r)
  }

  // ----- the registry in a run

  /** What the users of the library hold. */
  ghost predicate Accounted(c: Cache, held: seq<Element>)
    reads c, c.known
  {
    && (forall e :: e in c.known ==> e.userRefs == Count(held, e))
    && (forall k :: 0 <= k < |held| ==> held[k] in c.known)
  }

  /** The registry, and the references held by users, are as r says. */
  ghost predicate At(c: Cache, held: seq<Element>, r: Run)
    reads c
  {
    c.elements.Keys == r.paths && HeldPaths(held) == r.held && Notices(c.events) == r.queue
  }

  /** The paths of the elements that users hold. */
  ghost function HeldPaths(held: seq<Element>): seq<string> {
    seq(|held|, k requires 0 <= k < |held| => held[k].path)
  }

  lemma PathsWithout(es: seq<Element>, k: nat)
    requires k < |es|
    ensures HeldPaths(ArrayMatch.RemoveAt(es, k)) == ArrayMatch.RemoveAt(HeldPaths(es), k)
  {}

  /** Elements made since are held by nobody. */
  lemma StillAccounted(c: Cache, held: seq<Element>, before: set<Element>)
    requires before <= c.known && NoUsers(c.known - before)
    requires forall e :: e in before ==> e.userRefs == Count(held, e)
    requires forall k :: 0 <= k < |held| ==> held[k] in before
    ensures Accounted(c, held)
  {
    forall e | e in c.known ensures e.userRefs == Count(held, e) {
      if e !in before {
        CountAbsent(held, e);
      }
    }
  }

  method StepRegister(c: Cache, held: seq<Element>, path: string, iface: string, ghost r: Run)
    returns (made: seq<Element>, ghost q: Run)
    requires c.Valid() && Accounted(c, held) && At(c, held, r)
    modifies c
    ensures c.Valid() && Accounted(c, held) && At(c, held, q) && Next(r, RegisterStep(path, iface), q)
    ensures old(c.known) <= c.known && fresh(c.known - old(c.known)) && c.Made(old(c.known), made)
  {
    ghost var events, known := c.events, c.known;
    var isNew := path !in c.elements;
    var e := c.Register(path, iface);
    L.Single(e);
    made := if isNew then [e] else [];
    NoticesPush(events, ElementEvent(ElementAdd, e));
    c.NothingFreedIsHeld(e);
    StillAccounted(c, held, known);
    q := Run(c.elements.Keys, r.held, Notices(c.events));
  }

  method StepUnregister(c: Cache, held: seq<Element>, path: string, ghost r: Run) returns (ghost q: Run)
    requires c.Valid() && Accounted(c, held) && At(c, held, r)
    modifies c`elements, c`events
    ensures c.Valid() && Accounted(c, held) && At(c, held, q) && Next(r, UnregisterStep(path), q)
  {
    q := r;
    if path in c.elements {
      var e := c.elements[path];
      NoticesPush(c.events, ElementEvent(ElementDel, e));
      c.Unregister(e);
      q := Run(r.paths - {path}, r.held, r.queue + [Notice(ElementDel, path)]);
    }
  }

  /** The element that who names: one that is not freed. */
  method Find(c: Cache, held: seq<Element>, who: Who, ghost r: Run) returns (e: Option<Element>)
    requires c.Valid() && Accounted(c, held) && At(c, held, r)
    ensures e.Some? <==> Pick(r, who).Some?
    ensures e.Some? ==> e.value in c.known && !e.value.freed && e.value.path == Pick(r, who).value
  {
    e := None;
    match who {
      case ByPath(path) =>
        if path in c.elements {
          e := Some(c.elements[path]);
          c.NothingFreedIsHeld(e.value);
        }
      case ByHold(k) =>
        if k < |held| {
          e := Some(held[k]);
          CountAbsent(held, held[k]);
        }
      case ByEvent(k) =>
        if k < |c.events| {
          if c.events[k].ElementEvent? {
            e := Some(c.events[k].element);
            c.NothingFreedIsHeld(e.value);
          }
        }
    }
  }

  method StepUpdated(c: Cache, held: seq<Element>, who: Who, ghost r: Run) returns (ghost q: Run)
    requires c.Valid() && Accounted(c, held) && At(c, held, r)
    modifies c`events, c.known`references
    ensures c.Valid() && Accounted(c, held) && At(c, held, q) && Next(r, UpdatedStep(who), q)
  {
    q := r;
    var e := Find(c, held, who, r);
    if e.Some? {
      NoticesPush(c.events, ElementEvent(ElementUpdated, e.value));
      c.EventAdd(ElementUpdated, e.value);
      q := r.(queue := r.queue + [Notice(ElementUpdated, e.value.path)]);
    }
  }

  method StepArray(c: Cache, held: seq<Element>, key: string, current: Option<seq<string>>, incoming: seq<string>,
                   ghost r: Run)
    returns (made: seq<Element>, ghost q: Run)
    requires c.Valid() && Accounted(c, held) && At(c, held, r)
    modifies c
    ensures c.Valid() && Accounted(c, held) && At(c, held, q) && Next(r, ArrayStep(key, current, incoming), q)
    ensures c.Made(old(c.known), made)
    ensures old(c.known) <= c.known && fresh(c.known - old(c.known))
  {
    ghost var events, known := c.events, c.known;
    ghost var mid, gone;
    mid, made, gone := c.ArrayChanged(key, current, incoming);
    StillAccounted(c, held, known);
    q := Run(c.elements.Keys, r.held, Notices(c.events));
    ArrayNotices(events, made, gone);
    ArrayListing(r, key, current, incoming, mid, made, gone);
    assert ArrayNext(r, key, current, incoming, q, PathsOf(made), PathsOf(gone));
  }

  lemma ArrayNotices(events: seq<Event>, made: seq<Element>, gone: seq<Element>)
    ensures Notices(Enqueued(Enqueued(events, ElementAdd, made), ElementDel, gone)) ==
            Notices(events) + Tagged(ElementAdd, PathsOf(made)) + Tagged(ElementDel, PathsOf(gone))
  {
    NoticesEnqueued(events, ElementAdd, made);
    NoticesEnqueued(Enqueued(events, ElementAdd, made), ElementDel, gone);
  }

  lemma ArrayListing(r: Run, key: string, current: Option<seq<string>>, incoming: seq<string>,
                     mid: map<string, Element>, made: seq<Element>, gone: seq<Element>)
    requires mid.Keys == r.paths + Listed(key, incoming)
    requires Lists(made, mid, mid.Keys - r.paths) && Lists(gone, mid, Dropped(current, incoming))
    ensures Listing(PathsOf(made), mid.Keys - r.paths) && Listing(PathsOf(gone), Dropped(current, incoming) * mid.Keys)
  {
    ListsListing(made, mid, mid.Keys - r.paths);
    ListsListing(gone, mid, Dropped(current, incoming));
    assert (mid.Keys - r.paths) * mid.Keys == mid.Keys - r.paths;
  }

  method StepClear(c: Cache, held: seq<Element>, ghost r: Run) returns (ghost q: Run)
    requires c.Valid() && Accounted(c, held) && At(c, held, r)
    modifies c`elements, c`events
    ensures c.Valid() && Accounted(c, held) && At(c, held, q) && Next(r, ClearStep, q)
  {
    ghost var events, elements := c.events, c.elements;
    ghost var gone := c.ClearElements();
    NoticesEnqueued(events, ElementDel, gone);
    ListsListing(gone, elements, elements.Keys);
    assert elements.Keys * elements.Keys == r.paths;
    q := Run({}, r.held, r.queue + Tagged(ElementDel, PathsOf(gone)));
    assert ClearNext(r, q, PathsOf(gone));
  }

  lemma HeldMore(held: seq<Element>, e: Element, more: seq<Element>)
    requires more == held + [e]
    ensures HeldPaths(more) == HeldPaths(held) + [e.path]
    ensures forall x :: Count(more, x) == Count(held, x) + if x == e then 1 else 0
  {
    assert more[..|held|] == held;
    forall x ensures Count(more, x) == Count(held, x) + if x == e then 1 else 0 {
      CountSnoc(held, e, x);
    }
  }

  /** What a user holds is not freed. */
  lemma HeldLives(c: Cache, held: seq<Element>, k: nat)
    requires c.Valid() && Accounted(c, held) && k < |held|
    ensures held[k] in c.known && !held[k].freed && c.Counted(held[k])
  {
    CountAbsent(held, held[k]);
  }

  /** A user takes a reference on an element it can name. */
  method StepRef(c: Cache, held: seq<Element>, who: Who, ghost r: Run) returns (held': seq<Element>, ghost q: Run)
    requires c.Valid() && Accounted(c, held) && At(c, held, r)
    modifies c.known`references, c.known`userRefs
    ensures c.Valid() && Accounted(c, held') && At(c, held', q) && Next(r, RefStep(who), q)
  {
    held', q := held, r;
    var e := Find(c, held, who, r);
    if e.Some? {
      c.Ref(e.value);
      held', q := held + [e.value], r.(held := r.held + [e.value.path]);
      HeldMore(held, e.value, held');
    }
  }

  /** A user gives a reference back. */
  method StepUnref(c: Cache, held: seq<Element>, k: nat, ghost r: Run) returns (held': seq<Element>, ghost q: Run)
    requires c.Valid() && Accounted(c, held) && At(c, held, r)
    modifies c.known`references, c.known`userRefs, c.known`freed
    ensures c.Valid() && Accounted(c, held') && At(c, held', q) && Next(r, UnrefStep(k), q)
    ensures forall e :: e in c.known && (k >= |held| || e != held[k]) ==> e.freed == old(e.freed)
  {
    held', q := held, r;
    if k < |held| {
      var e := held[k];
      held' := ArrayMatch.RemoveAt(held, k);
      forall x ensures Count(held, x) == Count(held', x) + if x == e then 1 else 0 {
        ArrayMatch.CountRemoveAt(held, k, x);
      }
      PathsWithout(held, k);
      c.Unref(e);
      q := r.(held := ArrayMatch.RemoveAt(r.held, k));
    }
  }

  method StepEvent(c: Cache, held: seq<Element>, ghost r: Run) returns (ghost q: Run)
    requires c.Valid() && Accounted(c, held) && At(c, held, r)
    modifies c`events, c.known`references, c.known`freed
    ensures c.Valid() && Accounted(c, held) && At(c, held, q) && Next(r, EventStep, q)
    ensures forall e :: e in c.known && (old(c.events) == [] || !Carries(old(c.events)[0], e)) ==>
              e.freed == old(e.freed)
  {
    q := r;
    if c.events != [] {
      NoticesTail(c.events);
      var _ := c.NextEvent();
      q := r.(queue := r.queue[1..]);
    }
  }

  method Play(c: Cache, held: seq<Element>, step: Step, ghost r: Run) returns (held': seq<Element>, ghost q: Run)
    requires c.Valid() && Accounted(c, held) && At(c, held, r)
    modifies c, c.known
    ensures c.Valid() && Accounted(c, held') && At(c, held', q) && Next(r, step, q)
    ensures old(c.known) <= c.known && fresh(c.known - old(c.known))
  {
    held' := held;
    match step {
      case RegisterStep(path, iface) =>
        var made;
        made, q := StepRegister(c, held, path, iface, r);
      case UnregisterStep(path) => q := StepUnregister(c, held, path, r);
      case UpdatedStep(who) => q := StepUpdated(c, held, who, r);
      case ArrayStep(key, current, incoming) =>
        var made;
        made, q := StepArray(c, held, key, current, incoming, r);
      case ClearStep => q := StepClear(c, held, r);
      case RefStep(who) => held', q := StepRef(c, held, who, r);
      case UnrefStep(k) => held', q := StepUnref(c, held, k, r);
      case EventStep => q := StepEvent(c, held, r);
    }
  }

  /** Any run of a new registry comes to what its steps say: registered paths, held references
      and queue. All references are accounted for, and an element is freed exactly when
      nobody, registry, queue or user, holds it. */
  method WholeRun(steps: seq<Step>) returns (c: Cache, held: seq<Element>, ghost r: Run)
    ensures c.Valid() && Accounted(c, held) && At(c, held, r) && Reach(steps, r)
    ensures forall e :: e in c.known ==>
              (e.freed <==> !c.Registered(e) && Queued(c.events, e) == 0 && Count(held, e) == 0)
  {
    c := new Cache();
    held, r := [], START;
    for i := 0 to |steps|
      invariant fresh(c) && fresh(c.known) && c.Valid() && Accounted(c, held) && At(c, held, r)
      invariant Reach(steps[..i], r)
    {
      ghost var before := r;
      held, r := Play(c, held, steps[i], r);
      assert steps[..i + 1][..i] == steps[..i] && Via(steps[..i + 1], before, r);
    }
    assert steps[..|steps|] == steps;
  }
}
