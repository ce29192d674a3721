/** What the functions of DispatchModel mean, in terms of the handlers of a connection: what one
    dispatch or one reply leaves behind, what a script does to the list of handlers, and whom a
    dispatch calls while callbacks add and delete handlers (src/lib/dbus/e_dbus_signal.c). */
module DispatchLaws {
  import opened Prelude
  import opened OwnerTracking
  import opened Lists
  import opened DispatchModel

  // ----- one dispatch, one reply

  /** The bus announces a change of owner. */
  predicate OwnerNews(sg: Signal) {
    && sg.sender == "org.freedesktop.DBus" && sg.path == "/org/freedesktop/DBus"
    && sg.iface == "org.freedesktop.DBus" && sg.member == "NameOwnerChanged"
  }

  /** Its three arguments are there, if it is one. */
  predicate Readable(sg: Signal) {
    OwnerNews(sg) ==> |sg.args| >= 3
  }

  /** A handler after the signal was handled: the new owner of its sender, or none, is recorded. */
  function Told(v: View, sg: Signal): View
    requires Readable(sg)
  {
    if OwnerNews(sg) && !v.deleteMe && v.sender == Some(sg.args[0])
    then v.(owner := if sg.args[2] == "" then None else Some(sg.args[2]))
    else v
  }

  /** Those of some handlers that fire, in order. */
  ghost function Receivers(live: seq<nat>, all: seq<View>, sg: Signal): seq<nat> {
    if live == [] then [] else
      var front, h := Receivers(live[..|live| - 1], all, sg), live[|live| - 1];
      if h < |all| && Fires(all[h], sg) then front + [h] else front
  }

  /** One call for each. */
  ghost function Calling(hs: seq<nat>, sg: Signal): seq<Entry> {
    if hs == [] then [] else Calling(hs[..|hs| - 1], sg) + [Called(hs[|hs| - 1], sg)]
  }

  /** What a dispatch whose callbacks do nothing leaves of w: the handlers of the list have the
      owner that was announced, and each that fires with it was called once, in order. */
  ghost predicate Dispatched(w: World, r: World, sg: Signal)
    requires Readable(sg)
  {
    && r == w.(all := r.all, log := r.log) && |r.all| == |w.all|
    && (forall h :: 0 <= h < |w.all| ==> r.all[h] == if h in w.live then Told(w.all[h], sg) else w.all[h])
    && r.log == w.log + Calling(Receivers(w.live, r.all, sg), sg)
  }

  lemma {:induction false} ReceiversFirst(h: nat, live: seq<nat>, all: seq<View>, sg: Signal)
    ensures Receivers([h] + live, all, sg) ==
            (if h < |all| && Fires(all[h], sg) then [h] else []) + Receivers(live, all, sg)
  {
    if live == [] {
      assert [h] + live == [h] && [h][..0] == [];
    } else {
      ReceiversFirst(h, live[..|live| - 1], all, sg);
      assert ([h] + live)[..|live|] == [h] + live[..|live| - 1];
    }
  }

  lemma {:induction false} CallingFirst(h: nat, hs: seq<nat>, sg: Signal)
    ensures Calling([h] + hs, sg) == [Called(h, sg)] + Calling(hs, sg)
  {
    if hs == [] {
      assert [h] + hs == [h] && [h][..0] == [];
    } else {
      CallingFirst(h, hs[..|hs| - 1], sg);
      assert ([h] + hs)[..|hs|] == [h] + hs[..|hs| - 1];
    }
  }

  lemma CallingOne(h: nat, live: seq<nat>, all: seq<View>, sg: Signal)
    ensures Calling(Receivers([h] + live, all, sg), sg) ==
            (if h < |all| && Fires(all[h], sg) then [Called(h, sg)] else []) + Calling(Receivers(live, all, sg), sg)
  {
    var later := Receivers(live, all, sg);
    ReceiversFirst(h, live, all, sg);
    CallingFirst(h, later, sg);
    assert [] + later == later && [] + Calling(later, sg) == Calling(later, sg);
  }

  lemma {:induction false} CallsAre(w: World, sg: Signal, i: nat)
    requires i <= |w.live|
    ensures Calls(w, sg, i) == Calling(Receivers(w.live[i..], w.all, sg), sg)
    decreases |w.live| - i
  {
    if i < |w.live| {
      CallsAre(w, sg, i + 1);
      var h, rest := w.live[i], w.live[i + 1..];
      assert w.live[i..] == [h] + rest;
      CallingOne(h, rest, w.all, sg);
      assert Calls(w, sg, i) == (if Fires(At(w, h), sg) then [Called(h, sg)] else []) + Calls(w, sg, i + 1);
    }
  }

  lemma TellsOwners(v: View, sg: Signal)
    requires Readable(sg)
    ensures IsOwnerChange(sg) <==> OwnerNews(sg)
    ensures OnSignal(v, sg) == Told(v, sg)
  {}

  lemma TrackTold(w: World, sg: Signal, h: nat)
    requires Readable(sg) && h < |w.all|
    ensures Track(w, sg, |w.live|).all[h] == if h in w.live then Told(w.all[h], sg) else w.all[h]
  {
    TellsOwners(w.all[h], sg);
    TrackMeans(w, sg, |w.live|, h);
    assert w.live[..|w.live|] == w.live;
  }

  /** First the owners, then the calls. */
  lemma DispatchMeans(w: World, sg: Signal)
    ensures if Readable(sg) then Dispatched(w, Dispatch(w, sg, Quiet), sg) else Dispatch(w, sg, Quiet) == w
  {
    if Readable(sg) {
      var t := if OwnerNews(sg) then Track(w, sg, |w.live|) else w;
      TellsOwners(NOBODY, sg);
      forall h | 0 <= h < |w.all| ensures t.all[h] == if h in w.live then Told(w.all[h], sg) else w.all[h] {
        TrackTold(w, sg, h);
      }
      QuietVisits(t, sg, 0, []);
      assert t.log + [] == t.log;
      CallsAre(t, sg, 0);
      assert t.live[0..] == t.live;
    }
  }

  /** A handler after the reply came: if it waits, it does so no longer and records the owner that
      is named; an error or an empty name leaves the owner as it was. */
  function Answered(v: View, name: Option<string>): View {
    if !v.pending then v
    else v.(pending := false, owner := if name.None? || name.value == "" then v.owner else name)
  }

  /** A reply reaches the k-th handler and no other. */
  lemma ReplyMeans(w: World, k: nat, name: Option<string>)
    ensures var r := Reply(w, k, name);
            && r == w.(all := r.all) && |r.all| == |w.all|
            && forall h :: 0 <= h < |w.all| ==>
                 r.all[h] == if k < |w.live| && h == w.live[k] then Answered(w.all[h], name) else w.all[h]
  {}

  // ----- scripts at the main loop

  /** A handler, by number, and its state. */
  datatype Item = Item(h: nat, v: View)

  /** The list as it should be, how many handlers were ever added, and the calls so far. */
  datatype Plain = Plain(items: seq<Item>, added: nat, calls: seq<Entry>)

  /** Callbacks do nothing. */
  predicate Simple(acts: Acts) {
    match acts
    case Done => true
    case AddHandler(_, _, _, _, _, next) => Simple(next)
    case DelHandler(_, next) => Simple(next)
    case RunIdler(job, next) => (job.SignalJob? ==> job.scripts.Quiet?) && Simple(next)
  }

  ghost function ToldAll(items: seq<Item>, sg: Signal): seq<Item>
    requires Readable(sg)
  {
    seq(|items|, i requires 0 <= i < |items| => items[i].(v := Told(items[i].v, sg)))
  }

  ghost function CallsTo(items: seq<Item>, sg: Signal): seq<Entry> {
    if items == [] then [] else
      var front, it := CallsTo(items[..|items| - 1], sg), items[|items| - 1];
      if Fires(it.v, sg) then front + [Called(it.h, sg)] else front
  }

  ghost function PlainAdd(p: Plain, v: View): Plain {
    Plain(p.items + [Item(p.added, v)], p.added + 1, p.calls)
  }

  ghost function PlainDel(p: Plain, k: nat): Plain {
    if k < |p.items| then p.(items := p.items[..k] + p.items[k + 1..]) else p
  }

  /** A signal is told to all, and then calls those who fire. */
  ghost function PlainSignal(p: Plain, sg: Signal): Plain {
    if !Readable(sg) then p else
      var items := ToldAll(p.items, sg);
      p.(items := items, calls := p.calls + CallsTo(items, sg))
  }

  ghost function PlainReply(p: Plain, k: nat, name: Option<string>): Plain {
    if k < |p.items| then p.(items := p.items[k := p.items[k].(v := Answered(p.items[k].v, name))]) else p
  }

  /** A script on a plain list. */
  ghost function Played(p: Plain, acts: Acts): Plain
    decreases acts
  {
    match acts
    case Done => p
    case AddHandler(sender, path, iface, member, callback, next) =>
      Played(PlainAdd(p, NewView(sender, path, iface, member, callback)), next)
    case DelHandler(k, next) => Played(PlainDel(p, k), next)
    case RunIdler(SignalJob(sg, _), next) => Played(PlainSignal(p, sg), next)
    case RunIdler(ReplyJob(k, name), next) => Played(PlainReply(p, k, name), next)
  }

  /** The calls in a log. */
  ghost function CallsIn(log: seq<Entry>): seq<Entry> {
    if log == [] then [] else
      var front, e := CallsIn(log[..|log| - 1]), log[|log| - 1];
      if e.Called? then front + [e] else front
  }

  lemma CallsInPush(log: seq<Entry>, e: Entry)
    ensures CallsIn(log + [e]) == if e.Called? then CallsIn(log) + [e] else CallsIn(log)
  {
    assert (log + [e])[..|log|] == log;
  }

  lemma {:induction false} CallsInMore(log: seq<Entry>, hs: seq<nat>, sg: Signal)
    ensures CallsIn(log + Calling(hs, sg)) == CallsIn(log) + Calling(hs, sg)
  {
    if hs == [] {
      assert log + [] == log;
    } else {
      var front, e := Calling(hs[..|hs| - 1], sg), Called(hs[|hs| - 1], sg);
      CallsInMore(log, hs[..|hs| - 1], sg);
      assert log + (front + [e]) == (log + front) + [e];
      CallsInPush(log + front, e);
    }
  }

  /** The handlers of a list. */
  ghost predicate Agree(live: seq<nat>, all: seq<View>, items: seq<Item>) {
    |live| == |items| && forall i :: 0 <= i < |live| ==> items[i].h == live[i] < |all| && items[i].v == all[live[i]]
  }

  /** None of them is marked. */
  ghost predicate Shown(live: seq<nat>, all: seq<View>, items: seq<Item>) {
    Agree(live, all, items) && forall i :: 0 <= i < |items| ==> !items[i].v.deleteMe
  }

  lemma ToldAgree(live: seq<nat>, all: seq<View>, all': seq<View>, items: seq<Item>, sg: Signal)
    requires Readable(sg) && Agree(live, all, items) && |all'| == |all|
    requires forall h :: 0 <= h < |all| ==> all'[h] == if h in live then Told(all[h], sg) else all[h]
    ensures Agree(live, all', ToldAll(items, sg))
  {
    var told := ToldAll(items, sg);
    forall i | 0 <= i < |live| ensures told[i].h == live[i] && told[i].v == all'[live[i]] {
      assert live[i] in live;
    }
  }

  lemma AnsweredAgree(live: seq<nat>, all: seq<View>, all': seq<View>, items: seq<Item>, k: nat, name: Option<string>)
    requires Agree(live, all, items) && |all'| == |all| && k < |live|
    requires forall i :: 0 <= i < |live| && i != k ==> live[i] != live[k]
    requires forall h :: 0 <= h < |all| ==> all'[h] == if h == live[k] then Answered(all[h], name) else all[h]
    ensures Agree(live, all', items[k := items[k].(v := Answered(items[k].v, name))])
  {}

  /** The list of the world is the plain one. */
  ghost predicate Like(w: World, p: Plain) {
    Shown(w.live, w.all, p.items) && |w.all| == p.added && CallsIn(w.log) == p.calls
  }

  /** Nothing is marked at the main loop. */
  ghost predicate AtRest(w: World) {
    Good(w) && Settled(w) && w.depth == 0
  }

  lemma LiveRises(w: World, i: nat, j: nat)
    requires Ok(w) && i < j < |w.live|
    ensures w.live[i] < w.live[j] < |w.all|
  {
    KeptSerials(|w.all|, FreedIn(w.log), w.live, j);
  }

  lemma {:induction false} KeepAllBut(hs: seq<nat>, k: nat)
    requires k < |hs| && forall i, j :: 0 <= i < j < |hs| ==> hs[i] != hs[j]
    ensures Keep(hs, {hs[k]}) == hs[..k] + hs[k + 1..]
  {
    var n := |hs| - 1;
    var front := hs[..n];
    if k < n {
      KeepAllBut(front, k);
      assert hs[..k] + hs[k + 1..] == (front[..k] + front[k + 1..]) + [hs[n]];
    } else {
      KeepNone(front);
      KeepSame(front, {hs[k]}, {});
      assert hs[..k] + hs[k + 1..] == front;
    }
  }

  lemma AddLike(w: World, p: Plain, v: View)
    requires Like(w, p) && !v.deleteMe
    ensures Like(Add(w, v), PlainAdd(p, v))
  {}

  lemma CallsAfterDel(log: seq<Entry>, h: nat)
    ensures CallsIn(log + [Deleted(h)] + [Freed(h)]) == CallsIn(log)
  {
    CallsInPush(log, Deleted(h));
    CallsInPush(log + [Deleted(h)], Freed(h));
  }

  lemma LiveWithout(w: World, k: nat)
    requires Ok(w) && k < |w.live|
    ensures Keep(w.live, {w.live[k]}) == w.live[..k] + w.live[k + 1..]
    ensures forall i :: 0 <= i < |w.live| && i != k ==> w.live[i] != w.live[k]
  {
    forall i, j | 0 <= i < j < |w.live| ensures w.live[i] != w.live[j] {
      LiveRises(w, i, j);
    }
    KeepAllBut(w.live, k);
  }

  lemma ShownWithout(live: seq<nat>, all: seq<View>, items: seq<Item>, k: nat, v: View)
    requires Shown(live, all, items) && k < |live|
    requires forall i :: 0 <= i < |live| && i != k ==> live[i] != live[k]
    ensures Shown(live[..k] + live[k + 1..], all[live[k] := v], items[..k] + items[k + 1..])
  {
    var less, rest := live[..k] + live[k + 1..], items[..k] + items[k + 1..];
    forall i | 0 <= i < |less|
      ensures var j := if i < k then i else i + 1; less[i] == live[j] && rest[i] == items[j] && live[j] != live[k]
    {}
  }

  lemma DelLike(w: World, p: Plain, k: nat, r: World)
    requires AtRest(w) && Like(w, p) && k < |p.items| && r == Del(w, w.live[k])
    ensures Like(r, PlainDel(p, k))
  {
    var h := w.live[k];
    LiveWithout(w, k);
    ShownWithout(w.live, w.all, p.items, k, OnDelete(At(w, h)));
    CallsAfterDel(w.log, h);
  }

  lemma {:induction false} CleanNothing(w: World, n: nat)
    requires n <= |w.live| && forall i :: 0 <= i < |w.live| ==> !At(w, w.live[i]).deleteMe
    ensures CleanNodes(w, w.live, n) == w
  {
    if n > 0 {
      CleanNothing(w, n - 1);
    }
  }

  /** A pass in which nothing is deleted is what is dispatched in it. */
  lemma PassRuns(w: World, job: Job, i: World)
    requires i == Inside(w.(depth := w.depth + 1), job)
    requires forall k :: 0 <= k < |i.live| ==> !At(i, i.live[k]).deleteMe
    ensures Pass(w, job) == i.(depth := w.depth, deletions := false)
  {
    PassParts(w, job, i, Pass(w, job));
    CleanNothing(i.(depth := w.depth, deletions := false), |i.live|);
  }

  lemma {:induction false} ReceiversLike(live: seq<nat>, all: seq<View>, items: seq<Item>, sg: Signal)
    requires Agree(live, all, items)
    ensures Calling(Receivers(live, all, sg), sg) == CallsTo(items, sg)
  {
    if live != [] {
      var n := |live| - 1;
      ReceiversLike(live[..n], all, items[..n], sg);
      var front := Receivers(live[..n], all, sg);
      assert (front + [live[n]])[..|front|] == front;
    }
  }

  lemma SignalLike(w: World, p: Plain, sg: Signal, r: World)
    requires AtRest(w) && Like(w, p) && r == Pass(w, SignalJob(sg, Quiet))
    ensures Like(r, PlainSignal(p, sg))
  {
    var q := PlainSignal(p, sg);
    var d := w.(depth := w.depth + 1);
    var i := Dispatch(d, sg, Quiet);
    DispatchMeans(d, sg);
    if Readable(sg) {
      ToldAgree(w.live, w.all, i.all, p.items, sg);
      CallsInMore(w.log, Receivers(w.live, i.all, sg), sg);
      ReceiversLike(w.live, i.all, q.items, sg);
    }
    PassRuns(w, SignalJob(sg, Quiet), i);
  }

  /** A reply on the plain list. */
  lemma ReplyAgree(w: World, p: Plain, k: nat, name: Option<string>, r: World, q: Plain)
    requires Ok(w) && Agree(w.live, w.all, p.items) && r == Reply(w, k, name) && q == PlainReply(p, k, name)
    ensures Agree(r.live, r.all, q.items) && r == w.(all := r.all) && |r.all| == |w.all|
    ensures q == p.(items := q.items) && |q.items| == |p.items|
    ensures forall j :: 0 <= j < |q.items| ==>
              && q.items[j].v.deleteMe == p.items[j].v.deleteMe
              && (q.items[j].v.pending ==> p.items[j].v.pending)
  {
    ReplyMeans(w, k, name);
    if k < |w.live| {
      LiveWithout(w, k);
      AnsweredAgree(w.live, w.all, r.all, p.items, k, name);
    }
  }

  lemma ReplyLike(w: World, p: Plain, k: nat, name: Option<string>, r: World)
    requires AtRest(w) && Like(w, p) && r == Pass(w, ReplyJob(k, name))
    ensures Like(r, PlainReply(p, k, name))
  {
    var d, q := w.(depth := w.depth + 1), PlainReply(p, k, name);
    var i := Reply(d, k, name);
    ReplyAgree(d, p, k, name, i, q);
    PassRuns(w, ReplyJob(k, name), i);
  }

  /** Any script whose callbacks do nothing does to the handlers and to the calls what it does to
      a plain list: no flag, mark, depth or clean-up shows. */
  lemma {:induction false} ScriptMeans(w: World, p: Plain, acts: Acts)
    requires AtRest(w) && Like(w, p) && Simple(acts)
    ensures AtRest(After(w, acts)) && Like(After(w, acts), Played(p, acts))
    decreases acts
  {
    match acts {
      case Done =>
      case AddHandler(sender, path, iface, member, callback, next) =>
        var v := NewView(sender, path, iface, member, callback);
        AddGood(w, v, Add(w, v));
        AddLike(w, p, v);
        ScriptMeans(Add(w, v), PlainAdd(p, v), next);
      case DelHandler(k, next) =>
        if k < |p.items| {
          DelGood(w, k);
          DelLike(w, p, k, Del(w, w.live[k]));
          ScriptMeans(Del(w, w.live[k]), PlainDel(p, k), next);
        } else {
          ScriptMeans(w, p, next);
        }
      case RunIdler(job, next) =>
        var m := Pass(w, job);
        PassGood(w, job, m);
        match job {
          case SignalJob(sg, _) =>
            SignalLike(w, p, sg, m);
            ScriptMeans(m, PlainSignal(p, sg), next);
          case ReplyJob(k, name) =>
            ReplyLike(w, p, k, name, m);
            ScriptMeans(m, PlainReply(p, k, name), next);
        }
    }
  }

  /** So from a new connection on. */
  lemma PlainRun(acts: Acts)
    requires Simple(acts)
    ensures Like(After(EMPTY, acts), Played(Plain([], 0, []), acts))
  {
    ScriptMeans(EMPTY, Plain([], 0, []), acts);
  }

  // ----- scripts inside a callback

  /** A handler that is deleted stays in the list, marked, and waits for nothing. */
  ghost function PlainMark(p: Plain, k: nat): Plain {
    if k < |p.items| then p.(items := p.items[k := p.items[k].(v := p.items[k].v.(pending := false, deleteMe := true))])
    else p
  }

  ghost function PlayedInside(p: Plain, acts: Acts): Plain
    decreases acts
  {
    match acts
    case Done => p
    case AddHandler(sender, path, iface, member, callback, next) =>
      PlayedInside(PlainAdd(p, NewView(sender, path, iface, member, callback)), next)
    case DelHandler(k, next) => PlayedInside(PlainMark(p, k), next)
    case RunIdler(SignalJob(sg, _), next) => PlayedInside(PlainSignal(p, sg), next)
    case RunIdler(ReplyJob(k, name), next) => PlayedInside(PlainReply(p, k, name), next)
  }

  /** The handlers of a list, where those that are marked wait for nothing. */
  ghost predicate Listing(live: seq<nat>, all: seq<View>, items: seq<Item>) {
    && Agree(live, all, items)
    && forall i :: 0 <= i < |items| && items[i].v.deleteMe ==> !items[i].v.pending
  }

  ghost predicate LikeInside(w: World, p: Plain) {
    Listing(w.live, w.all, p.items) && |w.all| == p.added && CallsIn(w.log) == p.calls
  }

  ghost predicate Inner(w: World) {
    Good(w) && w.depth > 0
  }

  lemma MarkLike(w: World, p: Plain, k: nat, r: World)
    requires Inner(w) && LikeInside(w, p) && k < |p.items| && r == Del(w, w.live[k])
    ensures LikeInside(r, PlainMark(p, k))
  {
    LiveWithout(w, k);
    CallsInPush(w.log, Deleted(w.live[k]));
  }

  /** What a clean-up does not change while a dispatch is on the stack. */
  ghost predicate Unchanged(w: World, r: World) {
    r.live == w.live && r.all == w.all && r.depth == w.depth && CallsIn(r.log) == CallsIn(w.log)
  }

  lemma {:induction false} CleanInside(w: World, n: nat)
    requires w.depth > 0 && n <= |w.live|
    requires forall i :: 0 <= i < |w.live| ==>
               w.live[i] < |w.all| && (w.all[w.live[i]].deleteMe ==> !w.all[w.live[i]].pending)
    ensures Unchanged(w, CleanNodes(w, w.live, n))
  {
    if n > 0 {
      CleanInside(w, n - 1);
      var c, h := CleanNodes(w, w.live, n - 1), w.live[n - 1];
      if At(c, h).deleteMe {
        CallsInPush(c.log, Deleted(h));
        assert OnDelete(At(c, h)) == At(c, h);
      }
    }
  }

  lemma PassInside(w: World, job: Job, i: World, p: Plain)
    requires w.depth > 0 && i == Inside(w.(depth := w.depth + 1), job) && LikeInside(i, p)
    ensures LikeInside(Pass(w, job), p)
  {
    PassParts(w, job, i, Pass(w, job));
    CleanInside(i.(depth := w.depth, deletions := false), |i.live|);
  }

  lemma SignalInside(w: World, p: Plain, sg: Signal)
    requires Inner(w) && LikeInside(w, p)
    ensures LikeInside(Pass(w, SignalJob(sg, Quiet)), PlainSignal(p, sg))
  {
    var d, q := w.(depth := w.depth + 1), PlainSignal(p, sg);
    var i := Dispatch(d, sg, Quiet);
    DispatchMeans(d, sg);
    if Readable(sg) {
      ToldAgree(w.live, w.all, i.all, p.items, sg);
      CallsInMore(w.log, Receivers(w.live, i.all, sg), sg);
      ReceiversLike(w.live, i.all, q.items, sg);
    }
    PassInside(w, SignalJob(sg, Quiet), i, q);
  }

  lemma ReplyInside(w: World, p: Plain, k: nat, name: Option<string>)
    requires Inner(w) && LikeInside(w, p)
    ensures LikeInside(Pass(w, ReplyJob(k, name)), PlainReply(p, k, name))
  {
    var d, q := w.(depth := w.depth + 1), PlainReply(p, k, name);
    var i := Reply(d, k, name);
    ReplyAgree(d, p, k, name, i, q);
    PassInside(w, ReplyJob(k, name), i, q);
  }

  lemma InnerNext(w: World, m: World)
    requires Inner(w) && Grows(w, m) && m.depth == w.depth
    ensures Inner(m)
  {}

  /** Inside a callback the same holds, except that a deleted handler stays in the list until the
      dispatches on the stack are over; nested dispatches and replies reach all the others. */
  lemma {:induction false} ScriptInside(w: World, p: Plain, acts: Acts)
    requires Inner(w) && LikeInside(w, p) && Simple(acts)
    ensures LikeInside(After(w, acts), PlayedInside(p, acts))
    decreases acts
  {
    match acts {
      case Done =>
      case AddHandler(sender, path, iface, member, callback, next) =>
        var v := NewView(sender, path, iface, member, callback);
        AddGood(w, v, Add(w, v));
        ScriptInside(Add(w, v), PlainAdd(p, v), next);
      case DelHandler(k, next) =>
        if k < |p.items| {
          DelGood(w, k);
          MarkLike(w, p, k, Del(w, w.live[k]));
          ScriptInside(Del(w, w.live[k]), PlainMark(p, k), next);
        } else {
          ScriptInside(w, p, next);
        }
      case RunIdler(job, next) =>
        var m := Pass(w, job);
        PassGood(w, job, m);
        InnerNext(w, m);
        match job {
          case SignalJob(sg, _) =>
            SignalInside(w, p, sg);
            ScriptInside(m, PlainSignal(p, sg), next);
          case ReplyJob(k, name) =>
            ReplyInside(w, p, k, name);
            ScriptInside(m, PlainReply(p, k, name), next);
        }
    }
  }

  // ----- callbacks that add and delete handlers

  predicate Flat(acts: Acts) {
    match acts
    case Done => true
    case AddHandler(_, _, _, _, _, next) => Flat(next)
    case DelHandler(_, next) => Flat(next)
    case RunIdler(_, _) => false
  }

  predicate AllFlat(scripts: Scripts) {
    scripts.Script? ==> Flat(scripts.acts) && AllFlat(scripts.rest)
  }

  /** The handlers that acts add. */
  ghost function Adds(acts: Acts): seq<View> {
    match acts
    case Done => []
    case AddHandler(sender, path, iface, member, callback, next) =>
      [NewView(sender, path, iface, member, callback)] + Adds(next)
    case DelHandler(_, next) => Adds(next)
    case RunIdler(_, next) => Adds(next)
  }

  /** Those that the first n scripts add. */
  ghost function AddsOf(scripts: Scripts, n: nat): seq<View> {
    if n == 0 || scripts.Quiet? then [] else Adds(scripts.acts) + AddsOf(scripts.rest, n - 1)
  }

  /** A handler that is not marked is as it was. */
  ghost predicate Steady(w: World, r: World) {
    && Grows(w, r) && r.depth == w.depth && |w.all| <= |r.all|
    && forall h :: 0 <= h < |w.all| && !r.all[h].deleteMe ==> r.all[h] == w.all[h]
  }

  lemma SteadyTwice(w: World, m: World, r: World)
    requires Steady(w, m) && Steady(m, r)
    ensures Steady(w, r)
  {}

  lemma AddSteady(w: World, v: View)
    requires Good(w) && w.depth > 0 && !v.deleteMe
    ensures Steady(w, Add(w, v))
  {
    AddGood(w, v, Add(w, v));
  }

  lemma DelSteady(w: World, k: nat)
    requires Good(w) && w.depth > 0 && k < |w.live|
    ensures var r := Del(w, w.live[k]);
            Steady(w, r) && CallsIn(r.log) == CallsIn(w.log) && r.made == w.made
  {
    DelGood(w, k);
    CallsInPush(w.log, Deleted(w.live[k]));
  }

  lemma Joined(made: seq<View>, v: View, more: seq<View>)
    ensures made + [v] + more == made + ([v] + more)
  {}

  /** What additions and deletions do inside a callback. */
  lemma {:induction false} FlatSteady(w: World, acts: Acts, r: World)
    requires Good(w) && w.depth > 0 && Flat(acts) && r == After(w, acts)
    ensures Steady(w, r) && CallsIn(r.log) == CallsIn(w.log) && r.made == w.made + Adds(acts)
    decreases acts
  {
    match acts {
      case Done =>
      case AddHandler(sender, path, iface, member, callback, next) =>
        var v := NewView(sender, path, iface, member, callback);
        AddSteady(w, v);
        FlatSteady(Add(w, v), next, r);
        SteadyTwice(w, Add(w, v), r);
        Joined(w.made, v, Adds(next));
      case DelHandler(k, next) =>
        if k < |w.live| {
          DelSteady(w, k);
          FlatSteady(Del(w, w.live[k]), next, r);
          SteadyTwice(w, Del(w, w.live[k]), r);
        } else {
          FlatSteady(w, next, r);
        }
    }
  }

  ghost predicate Rises(hs: seq<nat>) {
    forall i, j :: 0 <= i < j < |hs| ==> hs[i] < hs[j]
  }

  ghost predicate ListedFrom(live: seq<nat>, i: nat, h: nat) {
    exists k :: i <= k < |live| && live[k] == h
  }

  /** The handler at position k of the list, if it is not marked, is called exactly if it fires. */
  ghost predicate ReachedAt(live: seq<nat>, all: seq<View>, sg: Signal, k: nat, called: seq<nat>)
    requires k < |live|
  {
    live[k] < |all| && (!all[live[k]].deleteMe ==> (live[k] in called <==> Fires(all[live[k]], sg)))
  }

  /** Of the handlers from position i of the list on, those called, once each and in order; among
      those that are not marked exactly the ones that fire. */
  ghost predicate Reached(live: seq<nat>, all: seq<View>, sg: Signal, i: nat, called: seq<nat>) {
    && Rises(called) && (forall h :: h in called ==> ListedFrom(live, i, h))
    && forall k :: i <= k < |live| ==> ReachedAt(live, all, sg, k, called)
  }

  lemma ListedLater(live: seq<nat>, i: nat, h: nat)
    requires Rises(live) && i < |live| && ListedFrom(live, i + 1, h)
    ensures live[i] < h && ListedFrom(live, i, h)
  {}

  lemma ReachedSkip(live: seq<nat>, all: seq<View>, sg: Signal, i: nat, called: seq<nat>)
    requires Rises(live) && i < |live| && live[i] < |all| && !Fires(all[live[i]], sg)
    requires Reached(live, all, sg, i + 1, called)
    ensures Reached(live, all, sg, i, called)
  {
    forall h | h in called ensures live[i] < h && ListedFrom(live, i, h) {
      ListedLater(live, i, h);
    }
  }

  lemma ReachedOne(live: seq<nat>, all: seq<View>, sg: Signal, i: nat, rest: seq<nat>, called: seq<nat>)
    requires Rises(live) && i < |live| && live[i] < |all| && (!all[live[i]].deleteMe ==> Fires(all[live[i]], sg))
    requires Reached(live, all, sg, i + 1, rest) && called == [live[i]] + rest
    ensures Reached(live, all, sg, i, called)
  {
    forall h | h in rest ensures live[i] < h && ListedFrom(live, i, h) {
      ListedLater(live, i, h);
    }
    forall j | 0 <= j < |rest| ensures live[i] < rest[j] == called[j + 1] {
      assert rest[j] in rest;
    }
    assert ListedFrom(live, i, live[i]);
    forall k | i < k < |live| ensures ReachedAt(live, all, sg, k, called) {
      assert ReachedAt(live, all, sg, k, rest);
      assert live[k] in called <==> live[k] in rest;
    }
  }

  /** The handler at position i while the list grows. */
  lemma StillThere(w: World, r: World, i: nat)
    requires Ok(w) && Steady(w, r) && w.depth > 0 && i < |w.live|
    ensures Rises(r.live) && i < |r.live| && r.live[i] == w.live[i] < |r.all|
    ensures !r.all[r.live[i]].deleteMe ==> r.all[r.live[i]] == At(w, w.live[i])
  {
    LiveAt(w, i);
    forall j, k | 0 <= j < k < |r.live| ensures r.live[j] < r.live[k] {
      LiveRises(r, j, k);
    }
  }

  /** The calls are logged, and each ran the next script. */
  ghost predicate Account(w: World, r: World, sg: Signal, scripts: Scripts, called: seq<nat>) {
    CallsIn(r.log) == CallsIn(w.log) + Calling(called, sg) && r.made == w.made + AddsOf(scripts, |called|)
  }

  lemma AccountOne(w: World, m: World, r: World, sg: Signal, scripts: Scripts, left: Scripts, h: nat, rest: seq<nat>,
                   called: seq<nat>)
    requires CallsIn(m.log) == CallsIn(w.log) + [Called(h, sg)] && m.made == w.made + AddsOf(scripts, 1)
    requires left == (if scripts.Quiet? then Quiet else scripts.rest) && called == [h] + rest
    requires Account(m, r, sg, left, rest)
    ensures Account(w, r, sg, scripts, called)
  {
    CallingFirst(h, rest, sg);
    var n := |rest|;
    assert AddsOf(scripts, n + 1) == AddsOf(scripts, 1) + AddsOf(left, n) by {
      if scripts.Script? {
        assert Adds(scripts.acts) + [] == Adds(scripts.acts) && AddsOf(left, 0) == [];
      }
    }
  }

  /** The second loop with callbacks that act. */
  lemma {:induction false} FlatVisits(w: World, sg: Signal, scripts: Scripts, i: nat, r: World)
    returns (called: seq<nat>)
    requires Good(w) && w.depth > 0 && AllFlat(scripts) && r == Visits(w, sg, scripts, i)
    ensures Steady(w, r) && Reached(r.live, r.all, sg, i, called)
    ensures Account(w, r, sg, scripts, called)
    decreases scripts, if i <= |w.live| then |w.live| - i else 0, 1
  {
    if i >= |w.live| {
      called := [];
    } else if !Fires(At(w, w.live[i]), sg) {
      called := FlatVisits(w, sg, scripts, i + 1, r);
      StillThere(w, r, i);
      ReachedSkip(r.live, r.all, sg, i, called);
    } else {
      called := FlatCalled(w, sg, scripts, i, r);
    }
  }

  /** The callback of the handler at position i is called, and the loop goes on. */
  lemma {:induction false} FlatCalled(w: World, sg: Signal, scripts: Scripts, i: nat, r: World)
    returns (called: seq<nat>)
    requires Good(w) && w.depth > 0 && AllFlat(scripts) && r == Visits(w, sg, scripts, i)
    requires i < |w.live| && Fires(At(w, w.live[i]), sg)
    ensures Steady(w, r) && Reached(r.live, r.all, sg, i, called)
    ensures Account(w, r, sg, scripts, called)
    decreases scripts, |w.live| - i, 0
  {
    var h := w.live[i];
    var m, left := ScriptCalled(w, sg, scripts, i);
    var rest := FlatVisits(m, sg, left, i + 1, r);
    SteadyTwice(w, m, r);
    StillThere(w, r, i);
    called := [h] + rest;
    ReachedOne(r.live, r.all, sg, i, rest, called);
    AccountOne(w, m, r, sg, scripts, left, h, rest, called);
  }

  lemma ScriptCalled(w: World, sg: Signal, scripts: Scripts, i: nat) returns (m: World, left: Scripts)
    requires Good(w) && w.depth > 0 && AllFlat(scripts) && i < |w.live| && Fires(At(w, w.live[i]), sg)
    ensures Steady(w, m) && CallsIn(m.log) == CallsIn(w.log) + [Called(w.live[i], sg)] && AllFlat(left)
    ensures Visits(w, sg, scripts, i) == Visits(m, sg, left, i + 1)
    ensures left < scripts || (left == scripts == Quiet && m.live == w.live)
    ensures m.made == w.made + AddsOf(scripts, 1) && left == if scripts.Quiet? then Quiet else scripts.rest
  {
    var c := w.(log := w.log + [Called(w.live[i], sg)]);
    CallGood(w, i, sg, c);
    CallsInPush(w.log, Called(w.live[i], sg));
    match scripts {
      case Quiet =>
        m, left := c, Quiet;
      case Script(acts, rest) =>
        m, left := After(c, acts), rest;
        FlatSteady(c, acts, m);
        SteadyTwice(w, c, m);
        assert AddsOf(rest, 0) == [] && Adds(acts) + [] == Adds(acts);
    }
  }

  /** A dispatch whose callbacks add and delete handlers: every handler that is on the list in the
      end, also one that was added by a callback, and is not deleted, has been called exactly once
      if it fires and not at all if it does not; no handler is called twice, the calls follow the
      list, and the n-th of them ran the n-th script. */
  lemma ActingCallbacks(w: World, sg: Signal, scripts: Scripts, r: World) returns (called: seq<nat>)
    requires Good(w) && w.depth > 0 && AllFlat(scripts) && Readable(sg) && r == Dispatch(w, sg, scripts)
    ensures w.live <= r.live && Reached(r.live, r.all, sg, 0, called)
    ensures Account(w, r, sg, scripts, called)
    ensures forall h :: h in w.live && !At(r, h).deleteMe ==> At(r, h) == Told(At(w, h), sg)
  {
    var t := if OwnerNews(sg) then Track(w, sg, |w.live|) else w;
    TellsOwners(NOBODY, sg);
    TrackOk(w, sg, |w.live|);
    called := FlatVisits(t, sg, scripts, 0, r);
    forall h | h in w.live && !At(r, h).deleteMe ensures At(r, h) == Told(At(w, h), sg) {
      var k :| 0 <= k < |w.live| && w.live[k] == h;
      LiveAt(w, k);
      TrackTold(w, sg, h);
    }
  }
}
