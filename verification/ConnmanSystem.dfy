/** The life cycle of the connman client: the unique name it follows, the MANAGER_IN and
    MANAGER_OUT events, and the registry in between (src/lib/connman0_7x/e_connman.c). */
module ConnmanSystem {
  import opened Prelude
  import opened ElementCache
  import R = RegistryRun

  const BUS_NAME := "net.connman"
  const MANAGER_PATH := "/"
  const IFACE_MANAGER := "net.connman.Manager"

  /** A NameOwnerChanged for the name; an empty string stands for no owner. */
  datatype Change = Change(from: string, to: string) {
    predicate IsEnter() { from == "" && to != "" }
    predicate IsExit() { from != "" && to == "" }
    predicate IsHandover() { from != "" && to != "" }
  }

  /** The followed name, or a crash: an exit change is compared with it also when there is none. */
  datatype Name = Followed(unique: Option<string>) | Crashed

  function Entered(n: Name, uid: string): Name {
    if n.Crashed? then n else Followed(Some(uid))
  }

  function Changed(n: Name, c: Change): Name {
    if n.Crashed? then n
    else if c.IsEnter() then Entered(n, c.to)
    else if c.IsExit() then
      if n.unique.None? then Crashed
      else if n.unique.value != c.from then n
      else Followed(None)
    else n
  }

  /** The reply to GetNameOwner; a failure, for which the name is empty, is ignored. */
  function Replied(n: Name, owner: string): Name {
    if owner == "" then n else Entered(n, owner)
  }

  function ChangedAll(n: Name, cs: seq<Change>): Name {
    if cs == [] then n else Changed(ChangedAll(n, cs[..|cs| - 1]), cs[|cs| - 1])
  }

  /** The owner after the changes that the bus announces, starting from owner. */
  function Owner(owner: string, cs: seq<Change>): string {
    if cs == [] then owner else cs[|cs| - 1].to
  }

  /** What a bus announces: each change starts from the current owner and changes it. */
  ghost predicate Chain(owner: string, cs: seq<Change>) {
    cs == [] ||
    var front, c := cs[..|cs| - 1], cs[|cs| - 1];
    Chain(owner, front) && c.from == Owner(owner, front) && c.from != c.to
  }

  function ToName(owner: string): Name {
    Followed(if owner == "" then None else Some(owner))
  }

  ghost predicate HasExit(cs: seq<Change>) {
    cs != [] && (HasExit(cs[..|cs| - 1]) || cs[|cs| - 1].IsExit())
  }

  ghost predicate HasHandover(cs: seq<Change>) {
    cs != [] && (HasHandover(cs[..|cs| - 1]) || cs[|cs| - 1].IsHandover())
  }

  /** Always in step: after every change the followed name is the owner, or none when there
      is none. */
  ghost predicate InStep(n: Name, owner: string, cs: seq<Change>) {
    ChangedAll(n, cs) == ToName(Owner(owner, cs)) && (cs == [] || InStep(n, owner, cs[..|cs| - 1]))
  }

  /** Once the client follows the right name, it stays in step exactly as long as the name is
      never handed over from one owner directly to another. */
  lemma {:induction false} InStepIffNoHandover(owner: string, cs: seq<Change>)
    requires Chain(owner, cs)
    ensures InStep(ToName(owner), owner, cs) <==> !HasHandover(cs)
  {
    if cs != [] {
      InStepIffNoHandover(owner, cs[..|cs| - 1]);
    }
  }

  /** It never crashes then, handed over or not: with an owner there is a followed name. */
  lemma {:induction false} FollowedNeverCrashes(n: Name, owner: string, cs: seq<Change>)
    requires Chain(owner, cs) && n.Followed? && (owner != "" ==> n.unique.Some?)
    ensures ChangedAll(n, cs).Followed? && (Owner(owner, cs) != "" ==> ChangedAll(n, cs).unique.Some?)
  {
    if cs != [] {
      FollowedNeverCrashes(n, owner, cs[..|cs| - 1]);
    }
  }

  /** An owner that was there at the start is not followed before the reply. */
  lemma {:induction false} FirstExitCrashes(owner: string, cs: seq<Change>)
    requires Chain(owner, cs) && owner != ""
    ensures if HasExit(cs) then ChangedAll(Followed(None), cs) == Crashed
            else ChangedAll(Followed(None), cs) == Followed(None) && Owner(owner, cs) != ""
  {
    if cs != [] {
      FirstExitCrashes(owner, cs[..|cs| - 1]);
    }
  }

  lemma {:induction false} CrashStays(cs: seq<Change>)
    ensures ChangedAll(Crashed, cs) == Crashed
  {
    if cs != [] {
      CrashStays(cs[..|cs| - 1]);
    }
  }

  /** What a client sees that starts when owner holds the name: the changes before the bus
      answers, the answer with the owner of that moment, and the changes after it. */
  function Session(owner: string, before: seq<Change>, after: seq<Change>): Name {
    ChangedAll(Replied(ChangedAll(Followed(None), before), Owner(owner, before)), after)
  }

  /** A session crashes exactly when the name was owned at its start and its owner exits
      before the answer. */
  lemma SessionCrashesIff(owner: string, before: seq<Change>, after: seq<Change>)
    requires Chain(owner, before) && Chain(Owner(owner, before), after)
    ensures Session(owner, before, after) == Crashed <==> owner != "" && HasExit(before)
  {
    var n := ChangedAll(Followed(None), before);
    var now := Owner(owner, before);
    if owner == "" {
      FollowedNeverCrashes(Followed(None), owner, before);
      FollowedNeverCrashes(Replied(n, now), now, after);
    } else {
      FirstExitCrashes(owner, before);
      if HasExit(before) {
        CrashStays(after);
      } else {
        FollowedNeverCrashes(Replied(n, now), now, after);
      }
    }
  }

  /** An answer that names an owner puts the client in step, whatever it missed before. */
  lemma AnswerPutsInStep(owner: string, before: seq<Change>, after: seq<Change>)
    requires Chain(owner, before) && Chain(Owner(owner, before), after)
    requires Owner(owner, before) != "" && !(owner != "" && HasExit(before))
    ensures InStep(Replied(ChangedAll(Followed(None), before), Owner(owner, before)), Owner(owner, before), after)
            <==> !HasHandover(after)
  {
    SessionCrashesIff(owner, before, []);
    InStepIffNoHandover(Owner(owner, before), after);
  }

  /** A session with owner u ends: u itself exits, or another owner enters. */
  predicate Ends(u: string, c: Change) {
    (c.from == u && u != "" && c.to == "") || (c.from == "" && c.to != "" && c.to != u)
  }

  /** The name followed at the start is followed all the way. */
  ghost predicate Stays(n: Name, cs: seq<Change>) {
    ChangedAll(n, cs) == n && (cs == [] || Stays(n, cs[..|cs| - 1]))
  }

  /** A session with u lasts through some changes exactly if none of them is the exit of u or
      the entry of another owner; whatever else is announced is ignored. */
  lemma {:induction false} SessionLastsIff(u: string, cs: seq<Change>)
    ensures Stays(Followed(Some(u)), cs) <==> forall k :: 0 <= k < |cs| ==> !Ends(u, cs[k])
  {
    if cs != [] {
      SessionLastsIff(u, cs[..|cs| - 1]);
      assert forall k :: 0 <= k < |cs| - 1 ==> cs[..|cs| - 1][k] == cs[k];
    }
  }

  /** The change that ends it leaves no name, or that of the owner who entered. */
  lemma SessionEndsWith(u: string, cs: seq<Change>, c: Change)
    requires (forall k :: 0 <= k < |cs| ==> !Ends(u, cs[k])) && Ends(u, c)
    ensures ChangedAll(Followed(Some(u)), cs + [c]) == Followed(if c.to == "" then None else Some(c.to))
  {
    SessionLastsIff(u, cs);
    assert (cs + [c])[..|cs|] == cs;
  }

  /** On a bus, an owner that is followed ends its session exactly when it loses the name without
      another taking it over, or when another enters after it was handed over and given up. */
  lemma OwnerEndsIff(u: string, cs: seq<Change>, c: Change)
    requires u != "" && Chain(u, cs + [c]) && forall k :: 0 <= k < |cs| ==> !Ends(u, cs[k])
    ensures ChangedAll(Followed(Some(u)), cs + [c]) != Followed(Some(u)) <==>
            if Owner(u, cs) == u then c.to == "" else Owner(u, cs) == "" && c.to != u
  {
    SessionLastsIff(u, cs);
    assert (cs + [c])[..|cs|] == cs;
  }

  /** The manager events that a change of the followed name calls for. */
  ghost function Announces(n: Name, m: Name): seq<R.Notice> {
    if n.Crashed? || m.Crashed? || n == m then []
    else if n.unique.None? then [R.NoticeIn]
    else if m.unique.None? then [R.NoticeOut]
    else [R.NoticeOut, R.NoticeIn]
  }

  /** IN and OUT alternate, IN first. */
  ghost predicate Alternating(managers: seq<R.Notice>) {
    managers == [] ||
    var front := managers[..|managers| - 1];
    Alternating(front) && managers[|front|] == if |front| % 2 == 0 then R.NoticeIn else R.NoticeOut
  }

  lemma {:induction false} AlternatingAt(managers: seq<R.Notice>, k: nat)
    requires Alternating(managers) && k < |managers|
    ensures managers[k] == if k % 2 == 0 then R.NoticeIn else R.NoticeOut
  {
    if k < |managers| - 1 {
      AlternatingAt(managers[..|managers| - 1], k);
    }
  }

  class System {
    const cache: Cache
    var uniqueName: Option<string>
    var replyPending: bool
    var running: bool                // between system_init and system_shutdown
    var crashed: bool
    ghost var managers: seq<R.Notice>  // the MANAGER_IN and MANAGER_OUT events ever queued

    ghost function Tracked(): Name
      reads this
    {
      if crashed then Crashed else Followed(uniqueName)
    }

    /** The last manager event was IN exactly when a name is followed. */
    ghost predicate Valid()
      reads this, cache, cache.known
    {
      cache.Valid() && Alternating(managers) && (uniqueName.Some? <==> |managers| % 2 == 1)
    }

    /** Before the first e_connman_system_init. */
    constructor ()
      ensures Valid() && fresh(cache) && fresh(cache.known) && cache.elements == map[] && cache.events == []
      ensures uniqueName == None && !replyPending && !running && !crashed && managers == []
    {
      cache := new Cache();
      uniqueName, replyPending, running, crashed := None, false, false, false;
      managers := [];
    }

    /** e_connman_system_init, for the first user: the owner is asked for. */
    method Init()
      requires Valid() && !running
      modifies `replyPending, `running
      ensures Valid() && replyPending && running
    {
      replyPending, running := true, true;
    }

    method Manager(ev: Event)
      requires cache.Valid() && !ev.ElementEvent?
      modifies `managers, cache`events
      ensures cache.Valid() && managers == old(managers) + [R.NoticeOf(ev)] && cache.events == old(cache.events) + [ev]
    {
      cache.ManagerEvent(ev);
      managers := managers + [R.NoticeOf(ev)];
    }

    /** _e_connman_system_name_owner_exit: one DEL for every registered element, then OUT, and
        the registry is left empty. */
    method Exit() returns (ghost gone: seq<Element>)
      requires Valid() && uniqueName.Some?
      modifies `uniqueName, `managers, cache`elements, cache`events
      ensures Valid() && uniqueName == None && cache.elements == map[]
      ensures managers == old(managers) + [R.NoticeOut]
      ensures Lists(gone, old(cache.elements), old(cache.elements.Keys))
      ensures cache.events == Enqueued(old(cache.events), ElementDel, gone) + [ManagerOut]
    {
      gone := cache.ClearElements();
      Manager(ManagerOut);
      uniqueName := None;
      assert managers[..|managers| - 1] == old(managers);
    }

    /** The manager's element is registered, and announced if it was not before. */
    ghost predicate ManagerAdded(elements: map<string, Element>, events: seq<Event>)
      reads this, cache
    {
      && MANAGER_PATH in cache.elements
      && if MANAGER_PATH in elements then cache.elements == elements && cache.events == events
         else
           && cache.elements[MANAGER_PATH].iface == IFACE_MANAGER
           && cache.elements == elements[MANAGER_PATH := cache.elements[MANAGER_PATH]]
           && cache.events == events + [ElementEvent(ElementAdd, cache.elements[MANAGER_PATH])]
    }

    /** The whole effect of a step that led from name n and registry and queue elements and
        events to the present: a session that ends queues one DEL for each of gone, which are
        all registered elements, then OUT, and leaves the registry empty; one that begins
        queues IN and then announces the manager. */
    ghost predicate Moved(n: Name, elements: map<string, Element>, events: seq<Event>, gone: seq<Element>)
      reads this, cache
    {
      var announced := Announces(n, Tracked());
      && (announced == [] ==> cache.elements == elements && cache.events == events)
      && (announced == [R.NoticeIn] ==> ManagerAdded(elements, events + [ManagerIn]))
      && (announced == [R.NoticeOut] ==>
            && Lists(gone, elements, elements.Keys)
            && cache.elements == map[] && cache.events == Enqueued(events, ElementDel, gone) + [ManagerOut])
      && (announced == [R.NoticeOut, R.NoticeIn] ==>
            && Lists(gone, elements, elements.Keys)
            && ManagerAdded(map[], Enqueued(events, ElementDel, gone) + [ManagerOut] + [ManagerIn]))
    }

    /** e_connman_manager_sync_elements, as far as the registry goes. */
    method SyncElements() returns (ok: bool)
      requires Valid()
      modifies cache
      ensures Valid() && old(cache.known) <= cache.known && fresh(cache.known - old(cache.known))
      ensures ok == uniqueName.Some?
      ensures if ok then ManagerAdded(old(cache.elements), old(cache.events))
              else cache.elements == old(cache.elements) && cache.events == old(cache.events)
    {
      if uniqueName.None? {
        return false;
      }
      var manager := cache.Register(MANAGER_PATH, IFACE_MANAGER);
      ok := true;
    }

    /** The last part of _e_connman_system_name_owner_enter: the name is new. */
    method Arrive(uid: string)
      requires Valid() && uniqueName.None?
      modifies `uniqueName, `managers, cache
      ensures Valid() && old(cache.known) <= cache.known && fresh(cache.known - old(cache.known))
      ensures uniqueName == Some(uid) && managers == old(managers) + [R.NoticeIn]
      ensures ManagerAdded(old(cache.elements), old(cache.events) + [ManagerIn])
    {
      uniqueName := Some(uid);
      Manager(ManagerIn);
      assert managers[..|managers| - 1] == old(managers);
      var _ := SyncElements();
    }

    /** Nothing was announced and nothing registered or unregistered. */
    twostate predicate Untouched()
      reads this, cache
    {
      && uniqueName == old(uniqueName) && crashed == old(crashed) && managers == old(managers)
      && cache.elements == old(cache.elements) && cache.events == old(cache.events)
    }

    /** The session that was there, if any, has ended, and one with uid has begun. */
    twostate predicate Restarted(uid: string)
      reads this
    {
      && uniqueName == Some(uid) && crashed == old(crashed)
      && managers == old(managers) + if old(uniqueName).Some? then [R.NoticeOut, R.NoticeIn] else [R.NoticeIn]
    }

    /** _e_connman_system_name_owner_enter. */
    method Enter(uid: string) returns (ghost gone: seq<Element>)
      requires Valid() && !crashed
      modifies `uniqueName, `managers, cache
      ensures if old(uniqueName) == Some(uid) then Untouched() else Restarted(uid)
      ensures Valid() && old(cache.known) <= cache.known && fresh(cache.known - old(cache.known))
      ensures Tracked() == Entered(old(Tracked()), uid)
      ensures managers == old(managers) + Announces(old(Tracked()), Tracked())
      ensures Moved(old(Tracked()), old(cache.elements), old(cache.events), gone)
    {
      gone := [];
      if uniqueName == Some(uid) {
        return;
      }
      if uniqueName.Some? {
        gone := Exit();
      }
      Arrive(uid);
      assert old(uniqueName).Some? ==> managers == old(managers) + [R.NoticeOut, R.NoticeIn];
    }

    /** _e_connman_system_name_owner_changed. */
    method NameOwnerChanged(name: string, c: Change) returns (ghost gone: seq<Element>)
      requires Valid() && !crashed
      modifies `uniqueName, `crashed, `managers, cache
      ensures name != BUS_NAME || (c.from == "" <==> c.to == "") ==> Untouched()
      ensures name == BUS_NAME && c.from == "" && c.to != "" ==>
                if old(uniqueName) == Some(c.to) then Untouched() else Restarted(c.to)
      ensures name == BUS_NAME && c.from != "" && c.to == "" ==>
                if old(uniqueName).None? then crashed
                else if old(uniqueName) != Some(c.from) then Untouched()
                else
                  && uniqueName == None && !crashed && cache.elements == map[]
                  && managers == old(managers) + [R.NoticeOut]
      ensures Valid() && old(cache.known) <= cache.known && fresh(cache.known - old(cache.known))
      ensures Tracked() == if name == BUS_NAME then Changed(old(Tracked()), c) else old(Tracked())
      ensures managers == old(managers) + Announces(old(Tracked()), Tracked())
      ensures Moved(old(Tracked()), old(cache.elements), old(cache.events), gone)
    {
      gone := [];
      if name != BUS_NAME {
        return;
      }
      if c.from == "" && c.to != "" {
        gone := Enter(c.to);
      } else if c.from != "" && c.to == "" {
        if uniqueName.None? {
          crashed := true;
        } else if uniqueName.value == c.from {
          gone := Exit();
        }
      }
    }

    /** _e_connman_get_name_owner: None for an error reply. */
    method GetNameOwner(owner: string) returns (ghost gone: seq<Element>)
      requires Valid() && !crashed && replyPending
      modifies `uniqueName, `replyPending, `managers, cache
      ensures if owner == "" || old(uniqueName) == Some(owner) then Untouched() else Restarted(owner)
      ensures Valid() && !replyPending && old(cache.known) <= cache.known && fresh(cache.known - old(cache.known))
      ensures Tracked() == Replied(old(Tracked()), owner)
      ensures managers == old(managers) + Announces(old(Tracked()), Tracked())
      ensures Moved(old(Tracked()), old(cache.elements), old(cache.events), gone)
    {
      gone := [];
      replyPending := false;
      if owner != "" {
        gone := Enter(owner);
      }
    }

    /** e_connman_system_shutdown, when the last user leaves: a session ends with OUT, and what
        is registered is announced as deleted either way. */
    method Shutdown() returns (ghost gone: seq<Element>)
      requires Valid() && !crashed && running
      modifies `uniqueName, `replyPending, `running, `managers, cache`elements, cache`events
      ensures Valid() && uniqueName == None && !replyPending && !running && cache.elements == map[]
      ensures managers == old(managers) + if old(uniqueName).Some? then [R.NoticeOut] else []
      ensures managers == old(managers) + Announces(old(Tracked()), Tracked())
      ensures Lists(gone, old(cache.elements), old(cache.elements.Keys))
      ensures cache.events == Enqueued(old(cache.events), ElementDel, gone)
                              + if old(uniqueName).Some? then [ManagerOut] else []
    {
      replyPending, running := false, false;
      if uniqueName.Some? {
        gone := Exit();
        ghost var none := cache.ClearElements();
        assert none == [];
      } else {
        gone := cache.ClearElements();
        assert cache.events + [] == cache.events;
      }
    }
  }

  // ----- whole runs

  datatype Step =
    | InitStep
    | ChangeStep(name: string, change: Change)
    | ReplyStep(owner: string)
    | ArrayStep(key: string, current: Option<seq<string>>, incoming: seq<string>)
    | EventStep
    | ShutdownStep

  /** The followed name, whether a reply is awaited, whether the system is in use, the manager
      events so far, and the registry. */
  datatype Run = Run(name: Name, pending: bool, running: bool, managers: seq<R.Notice>, registry: R.Run)

  const START := Run(Followed(None), false, false, [], R.START)

  ghost function ManagerRegistered(g: R.Run): R.Run {
    if MANAGER_PATH in g.paths then g
    else g.(paths := g.paths + {MANAGER_PATH}, queue := g.queue + [R.Notice(ElementAdd, MANAGER_PATH)])
  }

  /** The registry after a session with the paths of g has ended: all are announced as deleted,
      then OUT. */
  ghost function Ended(g: R.Run, gone: seq<string>): R.Run {
    R.Run({}, g.held, g.queue + R.Tagged(ElementDel, gone) + [R.NoticeOut])
  }

  ghost function Begun(g: R.Run): R.Run {
    ManagerRegistered(g.(queue := g.queue + [R.NoticeIn]))
  }

  /** The registry after some manager events; gone are the registered paths in some order. */
  ghost function Announced(g: R.Run, managers: seq<R.Notice>, gone: seq<string>): R.Run {
    if managers == [R.NoticeIn] then Begun(g)
    else if managers == [R.NoticeOut] then Ended(g, gone)
    else if managers == [R.NoticeOut, R.NoticeIn] then Begun(Ended(g, gone))
    else g
  }

  /** The name becomes name, with the manager events this calls for. */
  ghost predicate Renamed(r: Run, name: Name, pending: bool, q: Run, gone: seq<string>) {
    var announced := Announces(r.name, name);
    && (announced != [] && announced != [R.NoticeIn] ==> R.Listing(gone, r.registry.paths))
    && q == Run(name, pending, r.running, r.managers + announced, Announced(r.registry, announced, gone))
  }

  ghost predicate Stopped(r: Run, q: Run, gone: seq<string>) {
    var announced := Announces(r.name, Followed(None));
    && R.Listing(gone, r.registry.paths)
    && q == Run(Followed(None), false, false, r.managers + announced,
                R.Run({}, r.registry.held, r.registry.queue + R.Tagged(ElementDel, gone) + announced))
  }

  /** What one step may lead to; after a crash there is nothing more. */
  ghost predicate Next(r: Run, step: Step, q: Run) {
    if r.name.Crashed? then q == r else
      match step
      case InitStep => q == if r.running then r else r.(pending := true, running := true)
      case ChangeStep(name, change) =>
        if !r.running || name != BUS_NAME then q == r
        else exists gone :: Renamed(r, Changed(r.name, change), r.pending, q, gone)
      case ReplyStep(owner) =>
        if !r.pending then q == r else exists gone :: Renamed(r, Replied(r.name, owner), false, q, gone)
      case ArrayStep(key, current, incoming) =>
        q == r.(registry := q.registry) && R.Next(r.registry, R.ArrayStep(key, current, incoming), q.registry)
      case EventStep => q == r.(registry := q.registry) && R.Next(r.registry, R.EventStep, q.registry)
      case ShutdownStep => if !r.running then q == r else exists gone :: Stopped(r, q, gone)
  }

  ghost predicate Reach(steps: seq<Step>, r: Run)
    decreases |steps|, 1
  {
    if steps == [] then r == START else exists q :: Via(steps, q, r)
  }

  ghost predicate Via(steps: seq<Step>, q: Run, r: Run)
    requires steps != []
    decreases |steps|, 0
  {
    Reach(steps[..|steps| - 1], q) && Next(q, steps[|steps| - 1], r)
  }

  /** The system has come to r. */
  ghost predicate At(s: System, r: Run)
    reads s, s.cache
  {
    && s.Tracked() == r.name && s.replyPending == r.pending && s.running == r.running && s.managers == r.managers
    && R.At(s.cache, [], r.registry)
  }

  lemma ManagerNotices(s: System, elements: map<string, Element>, events: seq<Event>, g: R.Run)
    requires s.Valid() && s.ManagerAdded(elements, events)
    requires elements.Keys == g.paths && R.Notices(events) == g.queue && g.held == []
    ensures R.At(s.cache, [], ManagerRegistered(g))
  {
    R.NoticesPush(events, ElementEvent(ElementAdd, s.cache.elements[MANAGER_PATH]));
  }

  lemma EndedNotices(elements: map<string, Element>, events: seq<Event>, gone: seq<Element>, g: R.Run)
    requires elements.Keys == g.paths && R.Notices(events) == g.queue && Lists(gone, elements, elements.Keys)
    ensures R.Listing(PathsOf(gone), g.paths)
    ensures R.Notices(Enqueued(events, ElementDel, gone)) == g.queue + R.Tagged(ElementDel, PathsOf(gone))
    ensures R.Notices(Enqueued(events, ElementDel, gone) + [ManagerOut]) == Ended(g, PathsOf(gone)).queue
  {
    R.ListsListing(gone, elements, elements.Keys);
    assert elements.Keys * elements.Keys == g.paths;
    R.NoticesEnqueued(events, ElementDel, gone);
    R.NoticesPush(Enqueued(events, ElementDel, gone), ManagerOut);
  }

  /** The effect of a change of name, in terms of paths. */
  lemma MovedRenames(s: System, r: Run, elements: map<string, Element>, events: seq<Event>, gone: seq<Element>)
    returns (q: Run)
    requires s.Valid() && r.name.Followed? && r.registry.held == []
    requires elements.Keys == r.registry.paths && R.Notices(events) == r.registry.queue
    requires s.Moved(r.name, elements, events, gone) && s.running == r.running
    requires s.managers == r.managers + Announces(r.name, s.Tracked())
    ensures Renamed(r, s.Tracked(), s.replyPending, q, PathsOf(gone)) && At(s, q)
  {
    var g, paths := r.registry, PathsOf(gone);
    var announced := Announces(r.name, s.Tracked());
    q := Run(s.Tracked(), s.replyPending, r.running, s.managers, Announced(g, announced, paths));
    if announced == [R.NoticeIn] {
      BegunAt(s, elements, events, g);
    } else if announced == [R.NoticeOut] {
      EndedNotices(elements, events, gone, g);
    } else if announced != [] {
      EndedNotices(elements, events, gone, g);
      BegunAt(s, map[], Enqueued(events, ElementDel, gone) + [ManagerOut], Ended(g, paths));
    }
  }

  /** A session begins: IN, and the manager's ADD. */
  lemma BegunAt(s: System, elements: map<string, Element>, events: seq<Event>, g: R.Run)
    requires s.Valid() && s.ManagerAdded(elements, events + [ManagerIn])
    requires elements.Keys == g.paths && R.Notices(events) == g.queue && g.held == []
    ensures R.At(s.cache, [], Begun(g))
  {
    R.NoticesPush(events, ManagerIn);
    ManagerNotices(s, elements, events + [ManagerIn], g.(queue := g.queue + [R.NoticeIn]));
  }

  method StepChange(s: System, name: string, change: Change, ghost r: Run) returns (ghost q: Run)
    requires s.Valid() && !s.crashed && At(s, r)
    modifies s, s.cache
    ensures s.Valid() && At(s, q) && Next(r, ChangeStep(name, change), q)
    ensures old(s.cache.known) <= s.cache.known && fresh(s.cache.known - old(s.cache.known))
  {
    q := r;
    if s.running {
      ghost var elements, events := s.cache.elements, s.cache.events;
      ghost var gone := s.NameOwnerChanged(name, change);
      if name == BUS_NAME {
        q := MovedRenames(s, r, elements, events, gone);
      }
    }
  }

  method StepReply(s: System, owner: string, ghost r: Run) returns (ghost q: Run)
    requires s.Valid() && !s.crashed && At(s, r)
    modifies s, s.cache
    ensures s.Valid() && At(s, q) && Next(r, ReplyStep(owner), q)
    ensures old(s.cache.known) <= s.cache.known && fresh(s.cache.known - old(s.cache.known))
  {
    q := r;
    if s.replyPending {
      ghost var elements, events := s.cache.elements, s.cache.events;
      ghost var gone := s.GetNameOwner(owner);
      q := MovedRenames(s, r, elements, events, gone);
    }
  }

  method StepArray(s: System, key: string, current: Option<seq<string>>, incoming: seq<string>, ghost r: Run)
    returns (ghost q: Run)
    requires s.Valid() && !s.crashed && At(s, r)
    modifies s.cache
    ensures s.Valid() && At(s, q) && Next(r, ArrayStep(key, current, incoming), q)
    ensures old(s.cache.known) <= s.cache.known && fresh(s.cache.known - old(s.cache.known))
  {
    ghost var events := s.cache.events;
    ghost var mid, made, gone := s.cache.ArrayChanged(key, current, incoming);
    R.ArrayNotices(events, made, gone);
    R.ArrayListing(r.registry, key, current, incoming, mid, made, gone);
    ghost var g := R.Run(s.cache.elements.Keys, [], R.Notices(s.cache.events));
    assert R.ArrayNext(r.registry, key, current, incoming, g, PathsOf(made), PathsOf(gone));
    q := r.(registry := g);
  }

  method StepEvent(s: System, ghost r: Run) returns (ghost q: Run)
    requires s.Valid() && !s.crashed && At(s, r)
    modifies s.cache, s.cache.known
    ensures s.Valid() && At(s, q) && Next(r, EventStep, q) && s.cache.known == old(s.cache.known)
  {
    q := r;
    if s.cache.events != [] {
      R.NoticesTail(s.cache.events);
      var _ := s.cache.NextEvent();
      q := r.(registry := r.registry.(queue := r.registry.queue[1..]));
    }
  }

  method StepShutdown(s: System, ghost r: Run) returns (ghost q: Run)
    requires s.Valid() && !s.crashed && At(s, r)
    modifies s, s.cache
    ensures s.Valid() && At(s, q) && Next(r, ShutdownStep, q) && s.cache.known == old(s.cache.known)
  {
    q := r;
    if s.running {
      ghost var elements, events := s.cache.elements, s.cache.events;
      ghost var announced := Announces(r.name, Followed(None));
      ghost var gone := s.Shutdown();
      EndedNotices(elements, events, gone, r.registry);
      q := Run(Followed(None), false, false, r.managers + announced, R.Run({}, [], R.Notices(s.cache.events)));
      assert Enqueued(events, ElementDel, gone) + [] == Enqueued(events, ElementDel, gone);
      ghost var more := R.Tagged(ElementDel, PathsOf(gone));
      assert r.registry.queue + more + [] == r.registry.queue + more;
      assert Stopped(r, q, PathsOf(gone));
    }
  }

  method Play(s: System, step: Step, ghost r: Run) returns (ghost q: Run)
    requires s.Valid() && !s.crashed && At(s, r)
    modifies s, s.cache, s.cache.known
    ensures s.Valid() && At(s, q) && Next(r, step, q)
    ensures old(s.cache.known) <= s.cache.known && fresh(s.cache.known - old(s.cache.known))
  {
    match step {
      case InitStep =>
        q := r;
        if !s.running {
          s.Init();
          q := r.(pending := true, running := true);
        }
      case ChangeStep(name, change) => q := StepChange(s, name, change, r);
      case ReplyStep(owner) => q := StepReply(s, owner, r);
      case ArrayStep(key, current, incoming) => q := StepArray(s, key, current, incoming, r);
      case EventStep => q := StepEvent(s, r);
      case ShutdownStep => q := StepShutdown(s, r);
    }
  }

  /** Any run, with property arrays that come and go and events that are delivered, comes to
      what its steps say: IN and OUT alternate, IN first; the client is between them exactly
      while it follows a name; and the counts of the registry hold throughout. */
  method WholeRun(steps: seq<Step>) returns (s: System, ghost r: Run)
    ensures s.Valid() && At(s, r) && Reach(steps, r)
    ensures forall k :: 0 <= k < |s.managers| ==> s.managers[k] == if k % 2 == 0 then R.NoticeIn else R.NoticeOut
    ensures s.uniqueName.Some? <==> |s.managers| % 2 == 1
  {
    s := new System();
    r := START;
    for i := 0 to |steps|
      invariant fresh(s) && fresh(s.cache) && fresh(s.cache.known) && s.Valid() && At(s, r)
      invariant Reach(steps[..i], r)
    {
      ghost var before := r;
      if !s.crashed {
        r := Play(s, steps[i], r);
      }
      assert steps[..i + 1][..i] == steps[..i] && Via(steps[..i + 1], before, r);
    }
    assert steps[..|steps|] == steps;
    forall k | 0 <= k < |s.managers| ensures s.managers[k] == if k % 2 == 0 then R.NoticeIn else R.NoticeOut {
      AlternatingAt(s.managers, k);
    }
  }
}
