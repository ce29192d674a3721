/** Signal handlers of one connection: registration, dispatch, deletion while callbacks are on
    the stack, and the clean-up after dispatch (e_dbus_signal.c, and the idler of e_dbus.c that
    drives it). Every operation does to the objects what DispatchModel says; what holds after
    every run is proved there. */
module SignalDispatch {
  import opened Prelude
  import opened OwnerTracking
  import opened Lists
  import M = DispatchModel
  import D = DispatchLaws

  class SignalHandler {
    ghost const serial: nat          // the order of addition
    const sender: Option<string>
    const path: Option<string>
    const iface: Option<string>
    const member: Option<string>
    const callback: bool
    var owner: Option<string>
    var pending: bool
    var deleteMe: bool

    function Now(): View
      reads this
    {
      View(sender, path, iface, member, callback, pending, owner, deleteMe)
    }

    constructor (ghost serial: nat, sender: Option<string>, path: Option<string>, iface: Option<string>,
                 member: Option<string>, callback: bool)
      ensures this.serial == serial && Now() == NewView(sender, path, iface, member, callback)
    {
      this.serial := serial;
      this.sender, this.path, this.iface, this.member, this.callback := sender, path, iface, member, callback;
      deleteMe := false;
      if sender.Some? && !IsUnique(sender.value) && sender.value != FDO_BUS {
        pending, owner := true, None;
      } else {
        pending, owner := false, sender;
      }
    }

    method Track(sg: Signal)
      requires IsOwnerChange(sg) && ArgsReadable(sg)
      modifies `owner
      ensures Now() == OnSignal(old(Now()), sg)
    {
      if !deleteMe && sender == Some(sg.args[0]) {
        owner := NonEmpty(sg.args[2]);
      }
    }
  }

  /** hs are the known handlers with the numbers live, in order. */
  ghost predicate Linked(hs: seq<SignalHandler>, live: seq<nat>, known: set<SignalHandler>) {
    if hs == [] then live == [] else
      && live != [] && hs[|hs| - 1] in known && hs[|hs| - 1].serial == live[|live| - 1]
      && Linked(hs[..|hs| - 1], live[..|live| - 1], known)
  }

  lemma {:induction false} LinkedAt(hs: seq<SignalHandler>, live: seq<nat>, known: set<SignalHandler>, k: nat)
    requires Linked(hs, live, known)
    ensures |hs| == |live| && (k < |hs| ==> hs[k] in known && hs[k].serial == live[k])
  {
    if hs != [] {
      LinkedAt(hs[..|hs| - 1], live[..|live| - 1], known, k);
    }
  }

  lemma LinkedAll(hs: seq<SignalHandler>, live: seq<nat>, known: set<SignalHandler>)
    requires Linked(hs, live, known)
    ensures |hs| == |live| && forall k :: 0 <= k < |hs| ==> hs[k] in known && hs[k].serial == live[k]
  {
    forall k | 0 <= k <= |hs| ensures |hs| == |live| && (k < |hs| ==> hs[k] in known && hs[k].serial == live[k]) {
      LinkedAt(hs, live, known, k);
    }
  }

  lemma {:induction false} LinkedMore(hs: seq<SignalHandler>, live: seq<nat>, known: set<SignalHandler>,
                                      more: set<SignalHandler>)
    requires Linked(hs, live, known) && known <= more
    ensures Linked(hs, live, more)
  {
    if hs != [] {
      LinkedMore(hs[..|hs| - 1], live[..|live| - 1], known, more);
    }
  }

  lemma {:induction false} LinkedWithout(hs: seq<SignalHandler>, live: seq<nat>, known: set<SignalHandler>,
                                         h: SignalHandler)
    requires Linked(hs, live, known) && forall x :: x in known && x.serial == h.serial ==> x == h
    ensures Linked(Keep(hs, {h}), Keep(live, {h.serial}), known)
  {
    if hs != [] {
      var front, kept := hs[..|hs| - 1], Keep(hs[..|hs| - 1], {h});
      LinkedWithout(front, live[..|live| - 1], known, h);
      if hs[|hs| - 1] != h {
        assert Keep(hs, {h})[..|kept|] == kept;
        var left := Keep(live[..|live| - 1], {h.serial});
        LinkedAt(kept, left, known, 0);
        assert Keep(live, {h.serial})[..|left|] == left;
      }
    }
  }

  lemma {:induction false} LinkedHas(hs: seq<SignalHandler>, live: seq<nat>, known: set<SignalHandler>,
                                     h: SignalHandler)
    requires Linked(hs, live, known) && h in known && forall x :: x in known && x.serial == h.serial ==> x == h
    ensures h in hs <==> h.serial in live
  {
    if hs != [] {
      LinkedHas(hs[..|hs| - 1], live[..|live| - 1], known, h);
    }
  }

  /** One call for each of some handlers that fires, in order. */
  ghost function CallsOf(hs: seq<SignalHandler>, sg: Signal): seq<M.Entry>
    reads set h | h in hs
  {
    if hs == [] then [] else
      var front, h := CallsOf(hs[..|hs| - 1], sg), hs[|hs| - 1];
      if Fires(h.Now(), sg) then front + [M.Called(h.serial, sg)] else front
  }

  lemma {:induction false} CallsOfLinked(hs: seq<SignalHandler>, live: seq<nat>, known: set<SignalHandler>,
                                         all: seq<View>, sg: Signal)
    requires Linked(hs, live, known) && forall h :: h in known ==> h.serial < |all| && h.Now() == all[h.serial]
    ensures D.Calling(D.Receivers(live, all, sg), sg) == CallsOf(hs, sg)
  {
    if hs != [] {
      var n := |hs| - 1;
      CallsOfLinked(hs[..n], live[..|live| - 1], known, all, sg);
      var front := D.Receivers(live[..|live| - 1], all, sg);
      assert (front + [hs[n].serial])[..|front|] == front;
    }
  }

  class Connection {
    var handlers: seq<SignalHandler>
    var deletions: bool
    var idlerActive: nat
    ghost var world: M.World
    ghost var added: seq<SignalHandler>
    ghost var known: set<SignalHandler>

    /** A handler ever added is as the model says. */
    ghost predicate Matches(h: SignalHandler)
      reads `world, `added, h
    {
      h.serial < |world.all| == |added| && added[h.serial] == h && h.Now() == world.all[h.serial]
    }

    /** The objects are those of the model. */
    ghost predicate Valid()
      reads this, known
    {
      && deletions == world.deletions && idlerActive == world.depth
      && Linked(handlers, world.live, known)
      && |added| == |world.all| && (forall h :: h in known ==> Matches(h))
    }

    constructor ()
      ensures Valid() && world == M.EMPTY && known == {}
    {
      handlers, deletions, idlerActive, world, added, known := [], false, 0, M.EMPTY, [], {};
    }

    /** e_dbus_signal_handler_add. */
    method Add(sender: Option<string>, path: Option<string>, iface: Option<string>,
               member: Option<string>, callback: bool) returns (h: SignalHandler)
      requires Valid()
      modifies this`handlers, this`world, this`added, this`known
      ensures Valid() && fresh(h) && known == old(known) + {h} && handlers == old(handlers) + [h]
      ensures world == M.Add(old(world), NewView(sender, path, iface, member, callback))
    {
      h := new SignalHandler(|world.all|, sender, path, iface, member, callback);
      LinkedMore(handlers, world.live, known, known + {h});
      assert (handlers + [h])[..|handlers|] == handlers;
      assert (world.live + [|world.all|])[..|world.live|] == world.live;
      world := M.Add(world, NewView(sender, path, iface, member, callback));
      added := added + [h];
      known := known + {h};
      handlers := handlers + [h];
    }

    /** First half of e_dbus_signal_handler_del: cancel the pending call and mark. */
    method Mark(h: SignalHandler)
      requires Valid() && h in known
      modifies this`world, h`pending, h`deleteMe
      ensures Valid() && h.Now() == OnDelete(old(h.Now())) && world == M.Mark(old(world), h.serial)
    {
      if h.pending {
        h.pending := false;
      }
      h.deleteMe := true;
      world := M.Mark(world, h.serial);
    }

    /** Second half, with no dispatch on the stack: unlink and free. */
    method Unlink(h: SignalHandler)
      requires Valid() && h in known
      modifies this`handlers, this`world
      ensures Valid() && handlers == Keep(old(handlers), {h}) && world == M.Unlink(old(world), h.serial)
    {
      LinkedWithout(handlers, world.live, known, h);
      handlers := Keep(handlers, {h});
      world := M.Unlink(world, h.serial);
    }

    /** e_dbus_signal_handler_del, for a handle that has not been freed. */
    method Del(h: SignalHandler)
      requires Valid() && h in known
      modifies this`handlers, this`deletions, this`world, h`pending, h`deleteMe
      ensures Valid() && h.deleteMe && world == M.Del(old(world), h.serial)
      ensures idlerActive > 0 ==> handlers == old(handlers) && deletions
      ensures idlerActive == 0 ==> handlers == Keep(old(handlers), {h}) && deletions == old(deletions)
    {
      Mark(h);
      if idlerActive > 0 {
        deletions := true;
        world := world.(deletions := true);
        return;
      }
      Unlink(h);
    }

    /** One node of the clean-up. */
    method CleanNode(h: SignalHandler)
      requires Valid() && h in known
      modifies this`handlers, this`deletions, this`world, h`pending, h`deleteMe
      ensures Valid() && world == M.CleanNode(old(world), h.serial)
    {
      if h.deleteMe {
        Del(h);
      }
    }

    /** The loop of the clean-up over the nodes hs of the list, which have the numbers live. */
    method CleanList(hs: seq<SignalHandler>, ghost live: seq<nat>)
      requires Valid() && |hs| == |live|
      requires forall k :: 0 <= k < |hs| ==> hs[k] in known && hs[k].serial == live[k]
      modifies this`handlers, this`deletions, this`world, known`pending, known`deleteMe
      ensures Valid() && world == M.CleanNodes(old(world), live, |live|)
    {
      ghost var w := world;
      for i := 0 to |hs|
        invariant Valid() && world == M.CleanNodes(w, live, i)
      {
        CleanNode(hs[i]);
      }
    }

    /** e_dbus_signal_handlers_clean. */
    method Clean()
      requires Valid()
      modifies this`handlers, this`deletions, this`world, known`pending, known`deleteMe
      ensures Valid() && world == M.Clean(old(world))
    {
      if !deletions {
        return;
      }
      deletions := false;
      world := world.(deletions := false);
      LinkedAll(handlers, world.live, known);
      CleanList(handlers, world.live);
    }

    /** First loop of cb_signal_dispatcher: every handler that is not deleted takes the new
        owner of its sender. */
    method TrackOwners(sg: Signal)
      requires Valid() && IsOwnerChange(sg) && ArgsReadable(sg)
      modifies this`world, known`owner
      ensures Valid() && world == M.Track(old(world), sg, |old(world).live|)
    {
      ghost var w := world;
      LinkedAt(handlers, w.live, known, 0);
      for i := 0 to |handlers|
        invariant Valid() && world == M.Track(w, sg, i)
      {
        TrackAt(i, sg, w);
      }
    }

    method TrackAt(i: nat, sg: Signal, ghost w: M.World)
      requires Valid() && IsOwnerChange(sg) && ArgsReadable(sg)
      requires i < |handlers| == |w.live| && world == M.Track(w, sg, i)
      modifies this`world, known`owner
      ensures Valid() && world == M.Track(w, sg, i + 1)
    {
      LinkedAt(handlers, w.live, known, i);
      TrackOne(handlers[i], sg);
    }

    method TrackOne(h: SignalHandler, sg: Signal)
      requires Valid() && h in known && IsOwnerChange(sg) && ArgsReadable(sg)
      modifies this`world, h`owner
      ensures Valid() && world == M.Put(old(world), h.serial, OnSignal(M.At(old(world), h.serial), sg))
    {
      h.Track(sg);
      world := M.Put(world, h.serial, OnSignal(M.At(world, h.serial), sg));
    }

    /** Second loop of cb_signal_dispatcher. A handler appended by a callback is still reached;
        a handler deleted by a callback is still linked but skipped. The callback of the
        handler called next does what the next script says. */
    method CallHandlers(sg: Signal, scripts: M.Scripts)
      requires Valid()
      modifies this, known
      ensures Valid() && world == M.Visits(old(world), sg, scripts, 0)
      ensures scripts.Quiet? ==> known == old(known) && handlers == old(handlers)
      ensures old(known) <= known && fresh(known - old(known))
      decreases scripts, 1
    {
      ghost var result := M.Visits(world, sg, scripts, 0);
      var i, left := 0, scripts;
      while i < |handlers|
        invariant Valid() && M.Visits(world, sg, left, i) == result
        invariant left == scripts || left < scripts
        invariant scripts.Quiet? ==> left.Quiet? && known == old(known) && handlers == old(handlers)
        invariant old(known) <= known && fresh(known - old(known))
        decreases left, |handlers| - i
      {
        left := Visit(i, sg, left);
        i := i + 1;
      }
      LinkedAt(handlers, world.live, known, 0);
    }

    /** One handler of the second loop. */
    method Visit(i: nat, sg: Signal, scripts: M.Scripts) returns (rest: M.Scripts)
      requires Valid() && i < |handlers|
      modifies this, known
      ensures Valid() && M.Visits(world, sg, rest, i + 1) == M.Visits(old(world), sg, scripts, i)
      ensures scripts.Quiet? ==> rest == scripts
      ensures rest < scripts || (rest == scripts && known == old(known) && handlers == old(handlers))
      ensures old(known) <= known && fresh(known - old(known))
      decreases scripts, 0
    {
      var h := handlers[i];
      LinkedAt(handlers, world.live, known, i);
      rest := scripts;
      if Fires(h.Now(), sg) {
        world := world.(log := world.log + [M.Called(h.serial, sg)]);
        if scripts.Script? {
          rest := scripts.rest;
          RunActs(scripts.acts);
        }
      }
    }

    /** What a dispatch of a signal from world w has done, if no callback acts, to the handlers hs
        of the list and to any other: those listed and not deleted have taken the owner that is
        announced for their sender, and each that fires with it was called once, in order. */
    ghost predicate Told(w: M.World, hs: seq<SignalHandler>, sg: Signal)
      requires D.Readable(sg)
      reads this, known, set h | h in hs
    {
      && handlers == hs && world.log == w.log + CallsOf(hs, sg)
      && forall h :: h in known ==>
           h.serial < |w.all| && h.Now() == if h in hs then D.Told(w.all[h.serial], sg) else w.all[h.serial]
    }

    lemma WasTold(w: M.World, sg: Signal)
      requires Valid() && D.Readable(sg) && world == M.Dispatch(w, sg, M.Quiet)
      ensures Told(w, handlers, sg)
    {
      D.DispatchMeans(w, sg);
      CallsOfLinked(handlers, world.live, known, world.all, sg);
      forall h | h in known ensures h in handlers <==> h.serial in w.live {
        LinkedHas(handlers, world.live, known, h);
      }
    }

    /** cb_signal_dispatcher. */
    method Dispatch(sg: Signal, scripts: M.Scripts)
      requires Valid()
      modifies this, known
      ensures Valid() && world == M.Dispatch(old(world), sg, scripts)
      ensures scripts.Quiet? ==> known == old(known) && handlers == old(handlers)
      ensures scripts.Quiet? && D.Readable(sg) ==>
                && Told(old(world), old(handlers), sg)
                && forall h :: h in known ==>
                     h.Now() == if h in handlers then D.Told(old(h.Now()), sg) else old(h.Now())
      ensures scripts.Quiet? && !D.Readable(sg) ==> world == old(world)
      ensures old(known) <= known && fresh(known - old(known))
      decreases scripts, 2
    {
      if IsOwnerChange(sg) {
        if !ArgsReadable(sg) {
          return;
        }
        TrackOwners(sg);
      }
      CallHandlers(sg, scripts);
      if scripts.Quiet? && D.Readable(sg) {
        WasTold(old(world), sg);
      }
    }

    /** cb_name_owner for the k-th handler, which runs only while its call is still pending. */
    method Reply(k: nat, name: Option<string>)
      requires Valid()
      modifies this`world, known`owner, known`pending
      ensures Valid() && world == M.Reply(old(world), k, name)
      ensures forall h :: h in known ==>
                h.Now() == if k < |handlers| && h == handlers[k] then D.Answered(old(h.Now()), name) else old(h.Now())
    {
      LinkedAt(handlers, world.live, known, k);
      if k < |handlers| && handlers[k].pending {
        TakeReply(handlers[k], name);
      }
    }

    method TakeReply(h: SignalHandler, name: Option<string>)
      requires Valid() && h in known && h.pending
      modifies this`world, h`owner, h`pending
      ensures Valid() && h.Now() == OnReply(old(h.Now()), name)
      ensures world == M.Put(old(world), h.serial, OnReply(M.At(old(world), h.serial), name))
    {
      h.pending := false;
      if name.Some? && name.value != "" {
        h.owner := name;
      }
      world := M.Put(world, h.serial, OnReply(M.At(world, h.serial), name));
    }

    /** What libdbus dispatches. */
    method Inside(job: M.Job)
      requires Valid()
      modifies this, known
      ensures Valid() && world == M.Inside(old(world), job)
      ensures old(known) <= known && fresh(known - old(known))
      decreases job, 2
    {
      match job {
        case SignalJob(sg, scripts) => Dispatch(sg, scripts);
        case ReplyJob(k, name) => Reply(k, name);
      }
    }

    /** One pass of e_dbus_idler: dispatch with the depth raised, then clean up. */
    method Idler(job: M.Job)
      requires Valid()
      modifies this, known
      ensures Valid() && world == M.Pass(old(world), job)
      ensures old(known) <= known && fresh(known - old(known))
      decreases job, 3
    {
      Enter();
      Inside(job);
      LeaveAndClean();
    }

    /** The end of the pass. */
    method LeaveAndClean()
      requires Valid() && world.depth > 0
      modifies this`handlers, this`deletions, this`idlerActive, this`world, known`pending, known`deleteMe
      ensures Valid() && world == M.Clean(old(world).(depth := old(world).depth - 1))
    {
      Leave();
      Clean();
    }

    method Enter()
      requires Valid()
      modifies this`idlerActive, this`world
      ensures Valid() && world == old(world).(depth := old(world).depth + 1)
    {
      idlerActive := idlerActive + 1;
      world := world.(depth := world.depth + 1);
    }

    method Leave()
      requires Valid() && world.depth > 0
      modifies this`idlerActive, this`world
      ensures Valid() && world == old(world).(depth := old(world).depth - 1)
    {
      idlerActive := idlerActive - 1;
      world := world.(depth := world.depth - 1);
    }

    /** The first of some acts; the others are left. */
    method FirstAct(acts: M.Acts) returns (next: M.Acts)
      requires Valid() && !acts.Done?
      modifies this, known
      ensures Valid() && next < acts && M.After(world, next) == M.After(old(world), acts)
      ensures old(known) <= known && fresh(known - old(known))
      decreases acts, 3
    {
      next := acts.next;
      match acts {
        case AddHandler(sender, path, iface, member, callback, _) =>
          var _ := Add(sender, path, iface, member, callback);
        case DelHandler(k, _) =>
          LinkedAt(handlers, world.live, known, k);
          if k < |handlers| {
            Del(handlers[k]);
          }
        case RunIdler(job, _) =>
          Idler(job);
      }
    }

    /** Anything an application does, in a callback or at the main loop. */
    method RunActs(acts: M.Acts)
      requires Valid()
      modifies this, known
      ensures Valid() && world == M.After(old(world), acts)
      ensures old(known) <= known && fresh(known - old(known))
      decreases acts, 4
    {
      if !acts.Done? {
        var next := FirstAct(acts);
        ghost var mid := known;
        RunActs(next);
        assert known - old(known) == (known - mid) + (mid - old(known));
      }
    }
  }

  /** Any run of an application on a new connection, with callbacks nested to any depth, comes
      to what the script says; the list then holds the handlers added and not deleted, in
      order of addition, and what was deleted was freed, once each, and not called afterwards. */
  method WholeRun(acts: M.Acts) returns (c: Connection)
    ensures c.Valid() && c.world == M.After(M.EMPTY, acts) && c.idlerActive == 0
    ensures Linked(c.handlers, Keep(M.Serials(|c.world.made|), M.DeletedIn(c.world.log)), c.known)
    ensures M.Orderly(c.world.log, c.world.made) && M.FreedIn(c.world.log) == M.DeletedIn(c.world.log)
    ensures D.Simple(acts) ==> D.Like(c.world, D.Played(D.Plain([], 0, []), acts))
  {
    c := new Connection();
    c.RunActs(acts);
    M.WholeRun(acts);
    if D.Simple(acts) {
      D.PlainRun(acts);
    }
  }
}
