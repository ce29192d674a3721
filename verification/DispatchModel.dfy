/** What an application's script of additions, deletions and nested dispatches does to the
    handlers of one connection, as a function (src/lib/dbus/e_dbus_signal.c, and the idler of
    src/lib/dbus/e_dbus.c), and what holds after every such script. A handler is known by the
    order of its addition. */
module DispatchModel {
  import opened Prelude
  import opened OwnerTracking
  import opened Lists

  /** What the application does, at the main loop or from inside a callback, one act after
      the other. A deletion names a handler by its place in the list: every handle that may
      still be used is there. */
  datatype Acts =
    | Done
    | AddHandler(sender: Option<string>, path: Option<string>, iface: Option<string>,
                 member: Option<string>, callback: bool, next: Acts)
    | DelHandler(k: nat, next: Acts)
    | RunIdler(job: Job, next: Acts)

  /** What one pass of the idler dispatches. */
  datatype Job =
    | SignalJob(sg: Signal, scripts: Scripts)
    | ReplyJob(k: nat, name: Option<string>)

  /** What the callbacks of one dispatch do, in the order they are called; callbacks beyond
      the list do nothing. */
  datatype Scripts = Quiet | Script(acts: Acts, rest: Scripts)

  datatype Entry =
    | Called(h: nat, sg: Signal)
    | Deleted(h: nat)
    | Freed(h: nat)

  /** The handlers ever added, as they were made and as they are now, the list, the deletions
      flag, the depth of dispatching, and what happened so far. */
  datatype World = World(made: seq<View>, all: seq<View>, live: seq<nat>, deletions: bool, depth: nat, log: seq<Entry>)

  const EMPTY := World([], [], [], false, 0, [])

  const NOBODY := View(None, None, None, None, false, false, None, true)

  // ----- the steps

  function At(w: World, h: nat): View {
    if h < |w.all| then w.all[h] else NOBODY
  }

  function Put(w: World, h: nat, v: View): (r: World)
    ensures r == w.(all := r.all) && |r.all| == |w.all|
  {
    if h < |w.all| then w.(all := w.all[h := v]) else w
  }

  function Add(w: World, v: View): World {
    w.(made := w.made + [v], all := w.all + [v], live := w.live + [|w.all|])
  }

  /** First half of e_dbus_signal_handler_del. */
  function Mark(w: World, h: nat): World {
    Put(w, h, OnDelete(At(w, h))).(log := w.log + [Deleted(h)])
  }

  /** Second half. */
  function Unlink(w: World, h: nat): World {
    w.(live := Keep(w.live, {h}), log := w.log + [Freed(h)])
  }

  function Del(w: World, h: nat): World {
    if w.depth > 0 then Mark(w, h).(deletions := true) else Unlink(Mark(w, h), h)
  }

  /** First loop of the dispatcher, over the first n handlers of the list. */
  function Track(w: World, sg: Signal, n: nat): (r: World)
    requires n <= |w.live|
    ensures r == w.(all := r.all) && |r.all| == |w.all|
  {
    if n == 0 then w else
      var t := Track(w, sg, n - 1);
      Put(t, w.live[n - 1], OnSignal(At(t, w.live[n - 1]), sg))
  }

  /** One node of the clean-up. */
  function CleanNode(c: World, h: nat): World {
    if At(c, h).deleteMe then Del(c, h) else c
  }

  /** The loop of the clean-up, over the first n of the nodes hs. */
  function CleanNodes(w: World, hs: seq<nat>, n: nat): (r: World)
    requires n <= |hs|
    ensures r.depth == w.depth
  {
    if n == 0 then w else
      CleanNode(CleanNodes(w, hs, n - 1), hs[n - 1])
  }

  function Clean(w: World): (r: World)
    ensures r.depth == w.depth
  {
    if w.deletions then CleanNodes(w.(deletions := false), w.live, |w.live|) else w
  }

  /** Second loop of the dispatcher, from position i on. */
  function Visits(w: World, sg: Signal, scripts: Scripts, i: nat): (r: World)
    ensures r.depth == w.depth
    decreases scripts, 1, if i <= |w.live| then |w.live| - i else 0
  {
    if i >= |w.live| then w
    else if !Fires(At(w, w.live[i]), sg) then Visits(w, sg, scripts, i + 1)
    else
      var c := w.(log := w.log + [Called(w.live[i], sg)]);
      match scripts
      case Quiet => Visits(c, sg, Quiet, i + 1)
      case Script(acts, rest) => Visits(After(c, acts), sg, rest, i + 1)
  }

  function Dispatch(w: World, sg: Signal, scripts: Scripts): (r: World)
    ensures r.depth == w.depth
    decreases scripts, 2
  {
    if !IsOwnerChange(sg) then Visits(w, sg, scripts, 0)
    else if !ArgsReadable(sg) then w
    else Visits(Track(w, sg, |w.live|), sg, scripts, 0)
  }

  /** The reply for the k-th handler of the list, if it still waits for one. */
  function Reply(w: World, k: nat, name: Option<string>): (r: World)
    ensures r == w.(all := r.all) && |r.all| == |w.all|
  {
    if k < |w.live| && At(w, w.live[k]).pending then Put(w, w.live[k], OnReply(At(w, w.live[k]), name)) else w
  }

  function Inside(w: World, job: Job): (r: World)
    ensures r.depth == w.depth
    decreases job, 2
  {
    match job
    case SignalJob(sg, scripts) => Dispatch(w, sg, scripts)
    case ReplyJob(k, name) => Reply(w, k, name)
  }

  /** One pass of the idler. */
  function Pass(w: World, job: Job): (r: World)
    ensures r.depth == w.depth
    decreases job, 3
  {
    Clean(Inside(w.(depth := w.depth + 1), job).(depth := w.depth))
  }

  function After(w: World, acts: Acts): (r: World)
    ensures r.depth == w.depth
    decreases acts, 3
  {
    match acts
    case Done => w
    case AddHandler(sender, path, iface, member, callback, next) =>
      After(Add(w, NewView(sender, path, iface, member, callback)), next)
    case DelHandler(k, next) => After(if k < |w.live| then Del(w, w.live[k]) else w, next)
    case RunIdler(job, next) => After(Pass(w, job), next)
  }

  // ----- what a log says

  ghost function DeletedIn(log: seq<Entry>): set<nat> {
    if log == [] then {} else
      var e := log[|log| - 1];
      if e.Deleted? then DeletedIn(log[..|log| - 1]) + {e.h} else DeletedIn(log[..|log| - 1])
  }

  ghost function FreedIn(log: seq<Entry>): set<nat> {
    if log == [] then {} else
      var e := log[|log| - 1];
      if e.Freed? then FreedIn(log[..|log| - 1]) + {e.h} else FreedIn(log[..|log| - 1])
  }

  /** Each entry fits what was logged before it: no call after deletion, no second free,
      no free without deletion; and a call is of a callback, for a signal that the handler's
      path, interface and member let through. */
  ghost predicate Orderly(log: seq<Entry>, made: seq<View>) {
    log == [] ||
    var before, e := log[..|log| - 1], log[|log| - 1];
    && Orderly(before, made)
    && (e.Called? ==> e.h !in DeletedIn(before) && e.h < |made| && made[e.h].callback && LocalMatch(made[e.h], e.sg))
    && (e.Freed? ==> e.h in DeletedIn(before) && e.h !in FreedIn(before))
  }

  lemma LogAppend(log: seq<Entry>, e: Entry, made: seq<View>)
    ensures DeletedIn(log + [e]) == if e.Deleted? then DeletedIn(log) + {e.h} else DeletedIn(log)
    ensures FreedIn(log + [e]) == if e.Freed? then FreedIn(log) + {e.h} else FreedIn(log)
    ensures Orderly(log + [e], made) <==>
              && Orderly(log, made)
              && (e.Called? ==>
                    e.h !in DeletedIn(log) && e.h < |made| && made[e.h].callback && LocalMatch(made[e.h], e.sg))
              && (e.Freed? ==> e.h in DeletedIn(log) && e.h !in FreedIn(log))
  {
    assert (log + [e])[..|log|] == log;
  }

  lemma {:induction false} InLog(log: seq<Entry>, made: seq<View>, i: nat)
    requires Orderly(log, made) && i < |log|
    ensures log[i].Deleted? ==> log[i].h in DeletedIn(log)
    ensures log[i].Freed? ==> log[i].h in FreedIn(log) && log[i].h in DeletedIn(log)
  {
    if i < |log| - 1 {
      InLog(log[..|log| - 1], made, i);
    }
  }

  /** What an orderly log means for any two of its entries about the same handler. */
  lemma {:induction false} OrderlyMeans(log: seq<Entry>, made: seq<View>, i: nat, j: nat)
    requires Orderly(log, made) && i < j < |log| && log[i].h == log[j].h
    ensures log[i].Deleted? ==> !log[j].Called?
    ensures log[i].Freed? ==> !log[j].Freed? && !log[j].Called?
  {
    if j < |log| - 1 {
      OrderlyMeans(log[..|log| - 1], made, i, j);
    } else {
      InLog(log[..|log| - 1], made, i);
    }
  }

  lemma {:induction false} CalledMeans(log: seq<Entry>, made: seq<View>, i: nat)
    requires Orderly(log, made) && i < |log| && log[i].Called?
    ensures log[i].h < |made| && made[log[i].h].callback && LocalMatch(made[log[i].h], log[i].sg)
  {
    if i < |log| - 1 {
      CalledMeans(log[..|log| - 1], made, i);
    }
  }

  /** The part of a handler that never changes. */
  predicate SameFilter(v: View, u: View) {
    v.path == u.path && v.iface == u.iface && v.member == u.member && v.callback == u.callback
  }

  lemma {:induction false} OrderlyMore(log: seq<Entry>, made: seq<View>, v: View)
    requires Orderly(log, made)
    ensures Orderly(log, made + [v])
  {
    if log != [] {
      OrderlyMore(log[..|log| - 1], made, v);
    }
  }

  // ----- what every step keeps

  /** All handlers added, in order. */
  ghost function Serials(n: nat): seq<nat> {
    if n == 0 then [] else Serials(n - 1) + [n - 1]
  }

  lemma {:induction false} KeptSerials(n: nat, dead: set<nat>, kept: seq<nat>, k: nat)
    requires kept == Keep(Serials(n), dead) && k < |kept|
    ensures kept[k] < n && kept[k] !in dead
    ensures forall j :: 0 <= j < k ==> kept[j] < kept[k]
  {
    assert n > 0;
    assert Serials(n)[..|Serials(n)| - 1] == Serials(n - 1);
    var rest := Keep(Serials(n - 1), dead);
    if k < |rest| {
      KeptSerials(n - 1, dead, rest, k);
    } else {
      forall j | 0 <= j < k ensures kept[j] < kept[k] {
        KeptSerials(n - 1, dead, rest, j);
      }
    }
  }

  lemma KeepSerialsNext(n: nat, dead: set<nat>)
    requires n !in dead
    ensures Keep(Serials(n + 1), dead) == Keep(Serials(n), dead) + [n]
  {
    assert Serials(n + 1)[..|Serials(n + 1)| - 1] == Serials(n);
  }

  /** Filters stay as they were made, and exactly the deleted handlers are marked. */
  ghost predicate Marked(w: World) {
    |w.made| == |w.all| &&
    forall h :: 0 <= h < |w.all| ==> SameFilter(w.made[h], w.all[h]) && (w.all[h].deleteMe <==> h in DeletedIn(w.log))
  }

  /** The list is at all times what was added, in order, less what was freed. */
  ghost predicate Ok(w: World) {
    && Orderly(w.log, w.made) && Marked(w)
    && FreedIn(w.log) <= DeletedIn(w.log) && (forall h :: h in DeletedIn(w.log) ==> h < |w.all|)
    && w.live == Keep(Serials(|w.all|), FreedIn(w.log))
  }

  /** Everything deleted has been freed. */
  ghost predicate Settled(w: World) {
    DeletedIn(w.log) == FreedIn(w.log)
  }

  /** A deleted handler that is still linked is remembered by the deletions flag. */
  ghost predicate Good(w: World) {
    Ok(w) && (!Settled(w) ==> w.deletions)
  }

  lemma LiveAt(w: World, k: nat)
    requires Ok(w) && k < |w.live|
    ensures w.live[k] < |w.all| && w.live[k] !in FreedIn(w.log)
  {
    KeptSerials(|w.all|, FreedIn(w.log), w.live, k);
  }

  lemma AddOk(w: World, v: View)
    requires Ok(w) && !v.deleteMe
    ensures Ok(Add(w, v))
  {
    OrderlyMore(w.log, w.made, v);
    KeepSerialsNext(|w.all|, FreedIn(w.log));
  }

  lemma PutOk(w: World, h: nat, v: View)
    requires Ok(w) && SameFilter(At(w, h), v) && v.deleteMe == At(w, h).deleteMe
    ensures Ok(Put(w, h, v))
  {}

  lemma MarkOk(w: World, h: nat)
    requires Ok(w) && h < |w.all|
    ensures Ok(Mark(w, h))
    ensures DeletedIn(Mark(w, h).log) == DeletedIn(w.log) + {h} && FreedIn(Mark(w, h).log) == FreedIn(w.log)
  {
    LogAppend(w.log, Deleted(h), w.made);
  }

  lemma UnlinkOk(w: World, h: nat)
    requires Ok(w) && h in DeletedIn(w.log) && h !in FreedIn(w.log)
    ensures Ok(Unlink(w, h))
    ensures DeletedIn(Unlink(w, h).log) == DeletedIn(w.log) && FreedIn(Unlink(w, h).log) == FreedIn(w.log) + {h}
  {
    LogAppend(w.log, Freed(h), w.made);
    KeepTwice(Serials(|w.all|), FreedIn(w.log), {h});
  }

  /** While a dispatch is on the stack a deletion leaves the list alone and raises the flag;
      otherwise exactly this handler leaves it and is freed. */
  lemma DelOk(w: World, h: nat)
    requires Ok(w) && h < |w.all| && h !in FreedIn(w.log)
    ensures var r := Del(w, h);
      && Ok(r) && r.made == w.made && DeletedIn(r.log) == DeletedIn(w.log) + {h}
      && (w.depth > 0 ==> r.deletions && r.live == w.live && FreedIn(r.log) == FreedIn(w.log))
      && (w.depth == 0 ==>
            r.deletions == w.deletions && r.live == Keep(w.live, {h}) && FreedIn(r.log) == FreedIn(w.log) + {h})
  {
    MarkOk(w, h);
    if w.depth == 0 {
      UnlinkOk(Mark(w, h), h);
    }
  }

  lemma {:induction false} TrackOk(w: World, sg: Signal, n: nat)
    requires Ok(w) && n <= |w.live|
    ensures Ok(Track(w, sg, n))
  {
    if n > 0 {
      TrackOk(w, sg, n - 1);
      var t := Track(w, sg, n - 1);
      PutOk(t, w.live[n - 1], OnSignal(At(t, w.live[n - 1]), sg));
    }
  }

  /** The first loop gives every handler of the list the new owner, and nobody else. */
  lemma {:induction false} TrackMeans(w: World, sg: Signal, n: nat, h: nat)
    requires n <= |w.live| && h < |w.all|
    ensures Track(w, sg, n).all[h] == if h in w.live[..n] then OnSignal(w.all[h], sg) else w.all[h]
  {
    if n > 0 {
      TrackMeans(w, sg, n - 1, h);
      assert w.live[..n] == w.live[..n - 1] + [w.live[n - 1]];
    }
  }

  lemma {:induction false} KeepNone(hs: seq<nat>)
    ensures Keep(hs, {}) == hs
  {
    if hs != [] {
      KeepNone(hs[..|hs| - 1]);
    }
  }

  /** The first n of the nodes hs that are in dead. */
  ghost function Dead(hs: seq<nat>, n: nat, dead: set<nat>): set<nat>
    requires n <= |hs|
  {
    if n == 0 then {} else
      var before := Dead(hs, n - 1, dead);
      if hs[n - 1] in dead then before + {hs[n - 1]} else before
  }

  lemma {:induction false} DeadMeans(hs: seq<nat>, n: nat, dead: set<nat>, h: nat)
    requires n <= |hs|
    ensures h in Dead(hs, n, dead) <==> h in dead && h in hs[..n]
  {
    if n > 0 {
      DeadMeans(hs, n - 1, dead, h);
      assert hs[..n] == hs[..n - 1] + [hs[n - 1]];
    }
  }

  /** What a clean-up of the nodes gone leaves of w. */
  ghost predicate Cleaned(w: World, r: World, gone: set<nat>) {
    && Ok(r) && r.made == w.made && DeletedIn(r.log) == DeletedIn(w.log)
    && FreedIn(r.log) == FreedIn(w.log) + gone && r.live == Keep(w.live, gone)
  }

  lemma CleanFreesOne(w: World, c: World, h: nat, gone: set<nat>)
    requires c.depth == 0 && Cleaned(w, c, gone)
    requires h < |w.made| && h !in FreedIn(w.log) && h !in gone
    ensures Cleaned(w, CleanNode(c, h), if h in DeletedIn(w.log) then gone + {h} else gone)
    ensures CleanNode(c, h).deletions == c.deletions
  {
    assert c.all[h].deleteMe <==> h in DeletedIn(c.log);
    if h in DeletedIn(w.log) {
      DelOk(c, h);
      KeepTwice(w.live, gone, {h});
      assert DeletedIn(w.log) + {h} == DeletedIn(w.log);
    }
  }

  lemma FreshNode(w: World, n: nat)
    requires Ok(w) && n < |w.live|
    ensures w.live[n] < |w.made| && w.live[n] !in FreedIn(w.log) && w.live[n] !in Dead(w.live, n, DeletedIn(w.log))
  {
    KeptSerials(|w.all|, FreedIn(w.log), w.live, n);
    DeadMeans(w.live, n, DeletedIn(w.log), w.live[n]);
  }

  /** At depth 0 each marked node is unlinked and freed. */
  lemma {:induction false} CleanFrees(w: World, n: nat, r: World, gone: set<nat>)
    requires Ok(w) && w.depth == 0 && n <= |w.live|
    requires r == CleanNodes(w, w.live, n) && gone == Dead(w.live, n, DeletedIn(w.log))
    ensures Cleaned(w, r, gone) && r.deletions == w.deletions
  {
    if n == 0 {
      KeepNone(w.live);
    } else {
      var c, h, before := CleanNodes(w, w.live, n - 1), w.live[n - 1], Dead(w.live, n - 1, DeletedIn(w.log));
      CleanFrees(w, n - 1, c, before);
      FreshNode(w, n - 1);
      CleanFreesOne(w, c, h, before);
      assert r == CleanNode(c, h) && gone == if h in DeletedIn(w.log) then before + {h} else before;
    }
  }

  /** What a clean-up with a dispatch on the stack leaves of w, if the nodes dead are marked. */
  ghost predicate Deferred(w: World, r: World, dead: set<nat>) {
    Cleaned(w, r, {}) && (r.deletions <==> w.deletions || dead != {})
  }

  lemma CleanDefersOne(w: World, c: World, h: nat, before: set<nat>, r: World, dead: set<nat>)
    requires c.depth > 0 && Deferred(w, c, before) && h < |w.made| && h !in FreedIn(w.log)
    requires r == CleanNode(c, h) && dead == if h in DeletedIn(w.log) then before + {h} else before
    ensures Deferred(w, r, dead)
  {
    assert c.all[h].deleteMe <==> h in DeletedIn(c.log);
    if h in DeletedIn(w.log) {
      DelOk(c, h);
      assert DeletedIn(w.log) + {h} == DeletedIn(w.log) && h in dead;
    }
  }

  /** Deeper nothing is unlinked, and a marked node raises the flag again. */
  lemma {:induction false} CleanDefers(w: World, n: nat, r: World, dead: set<nat>)
    requires Ok(w) && w.depth > 0 && n <= |w.live|
    requires r == CleanNodes(w, w.live, n) && dead == Dead(w.live, n, DeletedIn(w.log))
    ensures Deferred(w, r, dead)
  {
    if n == 0 {
      KeepNone(w.live);
    } else {
      var c, h, before := CleanNodes(w, w.live, n - 1), w.live[n - 1], Dead(w.live, n - 1, DeletedIn(w.log));
      CleanDefers(w, n - 1, c, before);
      FreshNode(w, n - 1);
      CleanDefersOne(w, c, h, before, r, dead);
    }
  }

  /** All marked nodes are those deleted and not yet freed. */
  lemma DeadLive(w: World)
    requires Ok(w)
    ensures Dead(w.live, |w.live|, DeletedIn(w.log)) == DeletedIn(w.log) - FreedIn(w.log)
    ensures Keep(w.live, Dead(w.live, |w.live|, DeletedIn(w.log))) == Keep(w.live, DeletedIn(w.log))
  {
    var dead := DeletedIn(w.log);
    assert w.live[..|w.live|] == w.live;
    forall h: nat ensures h in Dead(w.live, |w.live|, dead) <==> h in dead && h in w.live {
      DeadMeans(w.live, |w.live|, dead, h);
    }
    forall h: nat ensures h in w.live <==> h < |w.all| && h !in FreedIn(w.log) {
      InSerials(|w.all|, FreedIn(w.log), h);
    }
    KeepSame(w.live, Dead(w.live, |w.live|, dead), dead);
  }

  lemma {:induction false} InSerials(n: nat, dead: set<nat>, h: nat)
    ensures h in Keep(Serials(n), dead) <==> h < n && h !in dead
  {
    if n > 0 {
      InSerials(n - 1, dead, h);
      assert Serials(n)[..|Serials(n)| - 1] == Serials(n - 1);
    }
  }

  /** What the clean-up leaves: at depth 0 exactly the handlers that are not deleted stay, in
      their order, and everything deleted is freed; deeper the list stays and the flag survives. */
  ghost predicate Swept(w: World, r: World) {
    && Good(r) && r.made == w.made && DeletedIn(r.log) == DeletedIn(w.log)
    && (w.depth == 0 ==> Settled(r) && r.live == Keep(w.live, DeletedIn(w.log)))
    && (w.depth > 0 ==> r.live == w.live && FreedIn(r.log) == FreedIn(w.log))
  }

  lemma SweptAll(w: World, v: World, r: World, dead: set<nat>)
    requires Ok(w) && v == w.(deletions := false) && dead == Dead(w.live, |w.live|, DeletedIn(w.log))
    requires w.depth == 0 && Cleaned(v, r, dead)
    ensures Swept(w, r)
  {
    DeadLive(w);
  }

  lemma SweptNone(w: World, v: World, r: World, dead: set<nat>)
    requires Ok(w) && v == w.(deletions := false) && dead == Dead(w.live, |w.live|, DeletedIn(w.log))
    requires w.depth > 0 && Deferred(v, r, dead)
    ensures Swept(w, r)
  {
    DeadLive(w);
    KeepNone(w.live);
  }

  lemma SweptBefore(w: World)
    requires Good(w) && !w.deletions
    ensures Swept(w, w)
  {
    DeadLive(w);
    KeepNone(w.live);
    assert DeletedIn(w.log) - FreedIn(w.log) == {};
  }

  lemma CleanOk(w: World, r: World)
    requires Good(w) && r == Clean(w)
    ensures Swept(w, r)
  {
    if w.deletions {
      var v, dead := w.(deletions := false), Dead(w.live, |w.live|, DeletedIn(w.log));
      if w.depth == 0 {
        CleanFrees(v, |v.live|, r, dead);
        SweptAll(w, v, r, dead);
      } else {
        CleanDefers(v, |v.live|, r, dead);
        SweptNone(w, v, r, dead);
      }
    } else {
      SweptBefore(w);
    }
  }

  // ----- whole scripts

  /** What any stretch of a run keeps; with a dispatch on the stack nothing leaves the list. */
  ghost predicate Grows(w: World, r: World) {
    && Good(r) && w.made <= r.made
    && (w.depth > 0 ==> w.live <= r.live && FreedIn(r.log) == FreedIn(w.log))
  }

  lemma GrowsTwice(w: World, m: World, r: World)
    requires Grows(w, m) && Grows(m, r) && m.depth == w.depth
    ensures Grows(w, r)
  {}

  lemma DelGood(w: World, k: nat)
    requires Good(w) && k < |w.live|
    ensures Grows(w, Del(w, w.live[k])) && (w.depth == 0 && Settled(w) ==> Settled(Del(w, w.live[k])))
  {
    LiveAt(w, k);
    DelOk(w, w.live[k]);
  }

  lemma ReplyGood(w: World, k: nat, name: Option<string>)
    requires Good(w)
    ensures Grows(w, Reply(w, k, name))
  {
    if k < |w.live| {
      PutOk(w, w.live[k], OnReply(At(w, w.live[k]), name));
    }
  }

  lemma CallGood(w: World, i: nat, sg: Signal, c: World)
    requires Good(w) && i < |w.live| && Fires(At(w, w.live[i]), sg) && c == w.(log := w.log + [Called(w.live[i], sg)])
    ensures Grows(w, c)
  {
    LiveAt(w, i);
    LogAppend(w.log, Called(w.live[i], sg), w.made);
  }

  lemma {:induction false} VisitsGood(w: World, sg: Signal, scripts: Scripts, i: nat, r: World)
    requires Good(w) && w.depth > 0 && r == Visits(w, sg, scripts, i)
    ensures Grows(w, r)
    decreases scripts, 1, if i <= |w.live| then |w.live| - i else 0, 1
  {
    if i < |w.live| {
      if Fires(At(w, w.live[i]), sg) {
        var c := w.(log := w.log + [Called(w.live[i], sg)]);
        CallGood(w, i, sg, c);
        CalledGood(c, sg, scripts, i, r);
        GrowsTwice(w, c, r);
      } else {
        VisitsGood(w, sg, scripts, i + 1, r);
      }
    }
  }

  /** The callback does what its script says, and the loop goes on. */
  lemma {:induction false} CalledGood(c: World, sg: Signal, scripts: Scripts, i: nat, r: World)
    requires Good(c) && c.depth > 0 && i < |c.live|
    requires r == match scripts
                  case Quiet => Visits(c, sg, Quiet, i + 1)
                  case Script(acts, rest) => Visits(After(c, acts), sg, rest, i + 1)
    ensures Grows(c, r)
    decreases scripts, 1, |c.live| - i, 0
  {
    match scripts {
      case Quiet => VisitsGood(c, sg, Quiet, i + 1, r);
      case Script(acts, rest) =>
        var m := After(c, acts);
        AfterGood(c, acts, m);
        VisitsGood(m, sg, rest, i + 1, r);
        GrowsTwice(c, m, r);
    }
  }

  lemma {:induction false} InsideGood(w: World, job: Job, r: World)
    requires Good(w) && w.depth > 0 && r == Inside(w, job)
    ensures Grows(w, r)
    decreases job, 2
  {
    match job {
      case SignalJob(sg, scripts) =>
        if !IsOwnerChange(sg) {
          VisitsGood(w, sg, scripts, 0, r);
        } else if ArgsReadable(sg) {
          var t := Track(w, sg, |w.live|);
          TrackOk(w, sg, |w.live|);
          VisitsGood(t, sg, scripts, 0, r);
          GrowsTwice(w, t, r);
        }
      case ReplyJob(k, name) => ReplyGood(w, k, name);
    }
  }

  lemma CleanAfter(w: World, i: World, r: World)
    requires i.depth == w.depth + 1 && Grows(w.(depth := w.depth + 1), i) && r == Clean(i.(depth := w.depth))
    ensures Grows(w, r) && (w.depth == 0 ==> Settled(r))
  {
    CleanOk(i.(depth := w.depth), r);
  }

  lemma PassParts(w: World, job: Job, i: World, r: World)
    requires i == Inside(w.(depth := w.depth + 1), job) && r == Pass(w, job)
    ensures i.depth == w.depth + 1 && r == Clean(i.(depth := w.depth))
  {}

  /** A pass of the idler at depth 0 leaves everything deleted freed. */
  lemma {:induction false} PassGood(w: World, job: Job, r: World)
    requires Good(w) && r == Pass(w, job)
    ensures Grows(w, r) && (w.depth == 0 ==> Settled(r))
    decreases job, 3
  {
    var d := w.(depth := w.depth + 1);
    var i := Inside(d, job);
    PassParts(w, job, i, r);
    InsideGood(d, job, i);
    CleanAfter(w, i, r);
  }

  /** One act and what follows it. */
  lemma ActGood(w: World, m: World, r: World)
    requires Good(w) && Grows(w, m) && Grows(m, r) && m.depth == w.depth == r.depth
    requires w.depth == 0 && Settled(w) ==> Settled(m)
    requires m.depth == 0 && Settled(m) ==> Settled(r)
    ensures Grows(w, r) && (w.depth == 0 && Settled(w) ==> Settled(r))
  {
    GrowsTwice(w, m, r);
  }

  lemma AddGood(w: World, v: View, m: World)
    requires Good(w) && !v.deleteMe && m == Add(w, v)
    ensures Grows(w, m) && (Settled(w) ==> Settled(m))
  {
    AddOk(w, v);
  }

  /** Any script, nested to any depth, keeps the invariant, and at the main loop leaves
      everything deleted freed. */
  lemma {:induction false} AfterGood(w: World, acts: Acts, r: World)
    requires Good(w) && r == After(w, acts)
    ensures Grows(w, r) && (w.depth == 0 && Settled(w) ==> Settled(r))
    decreases acts, 3
  {
    match acts {
      case Done =>
      case AddHandler(sender, path, iface, member, callback, next) =>
        var v := NewView(sender, path, iface, member, callback);
        var m := Add(w, v);
        AddGood(w, v, m);
        AfterGood(m, next, r);
        ActGood(w, m, r);
      case DelHandler(k, next) =>
        if k < |w.live| {
          var m := Del(w, w.live[k]);
          DelGood(w, k);
          AfterGood(m, next, r);
          ActGood(w, m, r);
        } else {
          AfterGood(w, next, r);
        }
      case RunIdler(job, next) =>
        var m := Pass(w, job);
        PassGood(w, job, m);
        AfterGood(m, next, r);
        ActGood(w, m, r);
    }
  }

  /** The calls of a dispatch whose callbacks do nothing, from position i of the list on. */
  ghost function Calls(w: World, sg: Signal, i: nat): seq<Entry>
    decreases if i <= |w.live| then |w.live| - i else 0
  {
    if i >= |w.live| then []
    else (if Fires(At(w, w.live[i]), sg) then [Called(w.live[i], sg)] else []) + Calls(w, sg, i + 1)
  }

  /** A dispatch whose callbacks do nothing calls exactly those who fire, in order. */
  lemma {:induction false} QuietVisits(w: World, sg: Signal, i: nat, calls: seq<Entry>)
    ensures Visits(w.(log := w.log + calls), sg, Quiet, i) == w.(log := w.log + calls + Calls(w, sg, i))
    decreases if i <= |w.live| then |w.live| - i else 0
  {
    if i < |w.live| {
      var v := w.(log := w.log + calls);
      if Fires(At(w, w.live[i]), sg) {
        var more := calls + [Called(w.live[i], sg)];
        assert v.log + [Called(w.live[i], sg)] == w.log + more;
        QuietVisits(w, sg, i + 1, more);
        assert w.log + more + Calls(w, sg, i + 1) == w.log + calls + ([Called(w.live[i], sg)] + Calls(w, sg, i + 1));
      } else {
        QuietVisits(w, sg, i + 1, calls);
        assert [] + Calls(w, sg, i + 1) == Calls(w, sg, i + 1);
      }
    } else {
      assert w.log + calls + [] == w.log + calls;
    }
  }

  /** The outcome of any script on a new connection: the handlers added and not deleted, in
      order of addition; what was deleted was freed, once each, and not called afterwards; and
      every call was let through by the handler's filter. */
  lemma WholeRun(acts: Acts)
    ensures var r := After(EMPTY, acts);
      && Orderly(r.log, r.made) && Settled(r) && r.live == Keep(Serials(|r.made|), DeletedIn(r.log))
  {
    AfterGood(EMPTY, acts, After(EMPTY, acts));
  }
}
