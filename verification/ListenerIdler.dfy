/** Change listeners of an element and the idler that calls them
    (src/lib/connman0_7x/e_connman_element.c). A listener is known by its number; the numbers
    follow the order of addition, and so does the list. */
module ListenerIdler {
  import opened Prelude

  /** What a listener's callback does in one call: it may add listeners, report another property
      change, add more listeners, and delete its own. */
  datatype Reaction = Reaction(early: nat, reports: bool, late: nat, leaves: bool)

  const IDLE := Reaction(0, false, 0, false)

  /** The reaction of call number k of an idler run; calls beyond the list do nothing. */
  function Nth(rs: seq<Reaction>, k: nat): Reaction {
    if k < |rs| then rs[k] else IDLE
  }

  function Rest(rs: seq<Reaction>): seq<Reaction> {
    if rs == [] then [] else rs[1..]
  }

  // ----- the list

  ghost function Members(ls: seq<nat>): set<nat> {
    if ls == [] then {} else Members(ls[..|ls| - 1]) + {ls[|ls| - 1]}
  }

  ghost predicate Ascending(ls: seq<nat>, below: nat) {
    ls == [] || (ls[|ls| - 1] < below && Ascending(ls[..|ls| - 1], ls[|ls| - 1]))
  }

  lemma {:induction false} AscendingAt(ls: seq<nat>, below: nat, k: nat)
    requires Ascending(ls, below) && k < |ls|
    ensures ls[k] < below && ls[k] in Members(ls) && forall i :: 0 <= i < k ==> ls[i] < ls[k]
  {
    var last := ls[|ls| - 1];
    if k < |ls| - 1 {
      AscendingAt(ls[..|ls| - 1], last, k);
    } else if k > 0 {
      forall i | 0 <= i < k ensures ls[i] < last {
        AscendingAt(ls[..|ls| - 1], last, i);
      }
    }
  }

  lemma {:induction false} AscendingBelow(ls: seq<nat>, below: nat)
    requires Ascending(ls, below)
    ensures forall l :: l in Members(ls) ==> l < below
  {
    if ls != [] {
      AscendingBelow(ls[..|ls| - 1], ls[|ls| - 1]);
    }
  }

  lemma {:induction false} AscendingWider(ls: seq<nat>, below: nat, above: nat)
    requires Ascending(ls, below) && below <= above
    ensures Ascending(ls, above)
  {
  }

  lemma Push(ls: seq<nat>, l: nat, below: nat)
    requires Ascending(ls, l) && l < below
    ensures Ascending(ls + [l], below) && Members(ls + [l]) == Members(ls) + {l}
  {
    assert (ls + [l])[..|ls|] == ls;
  }

  /** The list without listener l. */
  ghost function Without(ls: seq<nat>, l: nat): seq<nat> {
    if ls == [] then [] else
      var front, last := ls[..|ls| - 1], ls[|ls| - 1];
      if last == l then front else Without(front, l) + [last]
  }

  lemma {:induction false} AscendingWithout(ls: seq<nat>, below: nat, l: nat)
    requires Ascending(ls, below)
    ensures Ascending(Without(ls, l), below) && Members(Without(ls, l)) == Members(ls) - {l}
  {
    if ls != [] {
      var front, last := ls[..|ls| - 1], ls[|ls| - 1];
      if last == l {
        AscendingWider(front, last, below);
        AscendingBelow(front, last);
      } else {
        AscendingWithout(front, last, l);
        Push(Without(front, l), last, below);
        assert Without(ls, l) == Without(front, l) + [last];
      }
    }
  }

  lemma {:induction false} WithoutAt(a: seq<nat>, l: nat, b: seq<nat>, below: nat)
    requires Ascending(a + [l] + b, below)
    ensures Without(a + [l] + b, l) == a + b
  {
    var ls := a + [l] + b;
    if b == [] {
      assert ls[..|ls| - 1] == a;
    } else {
      var front, last := b[..|b| - 1], b[|b| - 1];
      assert ls[..|ls| - 1] == a + [l] + front;
      AscendingAt(ls, below, |ls| - 1);
      assert ls[|a|] == l;
      WithoutAt(a, l, front, last);
    }
  }

  lemma WithoutIndex(ls: seq<nat>, k: nat, below: nat)
    requires Ascending(ls, below) && k < |ls|
    ensures Without(ls, ls[k]) == ls[..k] + ls[k + 1..]
  {
    assert ls == ls[..k] + [ls[k]] + ls[k + 1..];
    WithoutAt(ls[..k], ls[k], ls[k + 1..], below);
  }

  lemma {:induction false} WithoutNone(ls: seq<nat>, l: nat)
    requires l !in ls
    ensures Without(ls, l) == ls
  {
    if ls != [] {
      WithoutNone(ls[..|ls| - 1], l);
    }
  }

  /** The link after that of listener l. */
  function Next(ls: seq<nat>, l: nat): Option<nat> {
    if ls == [] then None
    else if ls[0] == l then (if |ls| > 1 then Some(ls[1]) else None)
    else Next(ls[1..], l)
  }

  ghost predicate IsLeast(l: nat, s: set<nat>) {
    l in s && forall x :: x in s ==> l <= x
  }

  lemma {:induction false} LeastExists(s: set<nat>)
    requires s != {}
    ensures exists l :: IsLeast(l, s)
    decreases |s|
  {
    var x :| x in s;
    if !IsLeast(x, s) {
      var y :| y in s && y < x;
      assert y in s - {x};
      LeastExists(s - {x});
      var l :| IsLeast(l, s - {x});
      forall z | z in s ensures l <= z {
        assert z == x || z in s - {x};
      }
      assert IsLeast(l, s);
    }
  }

  /** The first of some listeners. */
  ghost function Least(s: set<nat>): (l: nat)
    requires s != {}
    ensures IsLeast(l, s)
  {
    LeastExists(s);
    var l :| IsLeast(l, s);
    l
  }

  /** The listeners of s from number l on. */
  ghost function From(s: set<nat>, l: nat): set<nat> {
    set x | x in s && l <= x
  }

  ghost function FirstOf(s: set<nat>): Option<nat> {
    if s == {} then None else Some(Least(s))
  }

  lemma {:induction false} IndexOf(ls: seq<nat>, l: nat) returns (k: nat)
    requires l in Members(ls)
    ensures k < |ls| && ls[k] == l
  {
    if ls[|ls| - 1] == l {
      k := |ls| - 1;
    } else {
      k := IndexOf(ls[..|ls| - 1], l);
    }
  }

  /** The link that follows is the next listener by number. */
  lemma NextMeans(ls: seq<nat>, below: nat, l: nat)
    requires Ascending(ls, below) && l in Members(ls)
    ensures Next(ls, l) == FirstOf(From(Members(ls), l) - {l})
  {
    var k := IndexOf(ls, l);
    AscendingAt(ls, below, k);
    NextFrom(ls, k);
    var later := From(Members(ls), l) - {l};
    forall x | x in later ensures k + 1 < |ls| && ls[k + 1] <= x {
      var j := IndexOf(ls, x);
      assert j > k;
      if k + 1 < j {
        AscendingAt(ls, below, j);
      }
    }
    if k + 1 < |ls| {
      AscendingAt(ls, below, k + 1);
      assert IsLeast(ls[k + 1], later);
    }
  }

  lemma {:induction false} NextFrom(ls: seq<nat>, k: nat)
    requires k < |ls| && forall i :: 0 <= i < k ==> ls[i] < ls[k]
    ensures Next(ls, ls[k]) == if k + 1 < |ls| then Some(ls[k + 1]) else None
  {
    if k > 0 {
      NextFrom(ls[1..], k - 1);
    }
  }

  /** The list starts with the first listener by number. */
  lemma HeadMeans(ls: seq<nat>, below: nat)
    requires Ascending(ls, below)
    ensures FirstOf(Members(ls)) == if ls == [] then None else Some(ls[0])
  {
    if ls != [] {
      AscendingAt(ls, below, 0);
      forall x | x in Members(ls) ensures ls[0] <= x {
        var j := IndexOf(ls, x);
        AscendingAt(ls, below, j);
      }
      assert IsLeast(ls[0], Members(ls));
    }
  }

  // ----- one run of the idler

  /** n listeners added, numbered from first on. */
  function Range(first: nat, n: nat): (s: set<nat>)
    ensures forall x: nat :: x in s <==> first <= x < first + n
  {
    if n == 0 then {} else Range(first, n - 1) + {first + n - 1}
  }

  function SeenBy(seen: map<nat, nat>, first: nat, n: nat, v: nat): map<nat, nat> {
    if n == 0 then seen else SeenBy(seen, first, n - 1, v)[first + n - 1 := v]
  }

  lemma {:induction false} SeenByMeans(seen: map<nat, nat>, first: nat, n: nat, v: nat)
    ensures forall x: nat :: x in Range(first, n) ==> Lookup(SeenBy(seen, first, n, v), x) == Some(v)
    ensures forall x: nat :: x < first ==> Lookup(SeenBy(seen, first, n, v), x) == Lookup(seen, x)
  {
    if n > 0 {
      SeenByMeans(seen, first, n - 1, v);
    }
  }

  /** Where the calls have got to: all listeners, those still to be called, how many were ever
      added, what each was last called for or added at, the version, and whether a listener
      that will not be called any more has missed a change. */
  datatype Pass = Pass(all: set<nat>, todo: set<nat>, added: nat, seen: map<nat, nat>, version: nat, lost: bool,
                       calls: seq<nat>)

  /** Those who will not be called any more, after the call of l. */
  ghost function Stay(p: Pass, l: nat, r: Reaction): set<nat> {
    (p.all - p.todo) + if r.leaves then {} else {l}
  }

  /** Those a call adds. */
  function New(added: nat, r: Reaction): set<nat> {
    Range(added, r.early) + Range(added + r.early, r.late)
  }

  /** What is known after a call of l for version v that leaves version v'. */
  function Told(seen: map<nat, nat>, l: nat, added: nat, r: Reaction, v: nat, v': nat): map<nat, nat> {
    SeenBy(SeenBy(seen[l := v], added, r.early, v), added + r.early, r.late, v')
  }

  /** One call. What it adds is still reached, unless the link that follows had been read as
      the end of the list. */
  ghost function CallOne(p: Pass, r: Reaction): (q: Pass)
    requires p.todo != {}
    ensures r == IDLE ==> q.todo < p.todo
    ensures |q.calls| == |p.calls| + 1
  {
    var l, v, more := Least(p.todo), if r.reports then p.version + 1 else p.version, New(p.added, r);
    var rest := p.todo - {l};
    assert r == IDLE ==> more == {};
    Pass((if r.leaves then p.all - {l} else p.all) + more, if rest == {} then {} else rest + more,
         p.added + r.early + r.late, Told(p.seen, l, p.added, r, p.version, v), v,
         p.lost || (r.reports && (Stay(p, l, r) != {} || (rest == {} && r.early > 0))), p.calls + [l])
  }

  lemma ToldIs(before: map<nat, nat>, l: nat, added: nat, r: Reaction, v: nat, v': nat, mid: map<nat, nat>,
               after: map<nat, nat>)
    requires mid == SeenBy(before[l := v], added, r.early, v) && after == SeenBy(mid, added + r.early, r.late, v')
    ensures after == Told(before, l, added, r, v, v')
  {}

  /** What is added is not what is deleted. */
  lemma NewStay(all: set<nat>, l: nat, added: nat, r: Reaction, now: set<nat>)
    requires l < added
    requires now == (all + Range(added, r.early) + Range(added + r.early, r.late)) - if r.leaves then {l} else {}
    ensures now == (if r.leaves then all - {l} else all) + New(added, r)
  {}

  /** All calls from p on. */
  ghost function Called(rs: seq<Reaction>, p: Pass): (q: Pass)
    ensures |q.calls| >= |p.calls| && q.todo == {}
    decreases |rs|, p.todo
  {
    if p.todo == {} then p else Called(Rest(rs), CallOne(p, Nth(rs, 0)))
  }

  lemma {:induction false} TailOf(ls: seq<nat>, below: nat)
    requires Ascending(ls, below) && ls != []
    ensures Ascending(ls[1..], below) && Members(ls[1..]) == Members(ls) - {ls[0]}
  {
    var front, last := ls[..|ls| - 1], ls[|ls| - 1];
    if front == [] {
      assert ls[1..] == [];
    } else {
      TailOf(front, last);
      AscendingBelow(front, last);
      AscendingAt(front, last, 0);
      assert ls[1..][..|ls| - 2] == front[1..];
    }
  }

  ghost predicate NoneAdds(rs: seq<Reaction>) {
    forall k :: 0 <= k < |rs| ==> rs[k].early == 0 && rs[k].late == 0
  }

  lemma OneLess(rs: seq<Reaction>, p: Pass)
    requires p.todo != {} && NoneAdds(rs)
    ensures CallOne(p, Nth(rs, 0)).todo == p.todo - {Least(p.todo)}
    ensures CallOne(p, Nth(rs, 0)).calls == p.calls + [Least(p.todo)] && NoneAdds(Rest(rs))
  {
    assert New(p.added, Nth(rs, 0)) == {};
  }

  /** Unless callbacks add listeners, an idler run calls exactly those of the list, once each and in
      order, also when they delete themselves. */
  lemma {:induction false} CallsInOrder(rs: seq<Reaction>, p: Pass, ls: seq<nat>, below: nat)
    requires Ascending(ls, below) && Members(ls) == p.todo && NoneAdds(rs)
    ensures Called(rs, p).calls == p.calls + ls
    decreases |ls|
  {
    if ls == [] {
      assert p.calls + ls == p.calls;
    } else {
      HeadMeans(ls, below);
      TailOf(ls, below);
      OneLess(rs, p);
      CallsInOrder(Rest(rs), CallOne(p, Nth(rs, 0)), ls[1..], below);
      HeadAndTail(p.calls, ls);
    }
  }

  lemma HeadAndTail(calls: seq<nat>, ls: seq<nat>)
    requires ls != []
    ensures calls + [ls[0]] + ls[1..] == calls + ls
  {}

  /** All of s were last called for version w or a later one. */
  ghost predicate Since(s: set<nat>, seen: map<nat, nat>, w: nat) {
    forall l :: l in s ==> l in seen && seen[l] >= w
  }

  /** All of s have seen version v. */
  ghost predicate UpTo(s: set<nat>, seen: map<nat, nat>, v: nat) {
    forall l :: l in s ==> Lookup(seen, l) == Some(v)
  }

  /** What the listeners s know of the changes up to version v: all up to w, and the last one
      exactly if nothing was lost. */
  ghost predicate Heard(s: set<nat>, seen: map<nat, nat>, v: nat, w: nat, lost: bool) {
    && Since(s, seen, w) && (forall l :: l in s ==> l in seen && seen[l] <= v) && w <= v
    && (UpTo(s, seen, v) <==> !lost)
  }

  /** Others are called or added. */
  lemma HeardOthers(s: set<nat>, seen: map<nat, nat>, seen': map<nat, nat>, v: nat, w: nat, lost: bool)
    requires Heard(s, seen, v, w, lost) && forall l :: l in s ==> Lookup(seen', l) == Lookup(seen, l)
    ensures Heard(s, seen', v, w, lost)
  {
    assert UpTo(s, seen, v) <==> UpTo(s, seen', v);
    forall l | l in s ensures l in seen' && w <= seen'[l] <= v {
      assert Lookup(seen', l) == Lookup(seen, l);
    }
  }

  /** Some who have seen the current version join s. */
  lemma HeardMore(s: set<nat>, more: set<nat>, seen: map<nat, nat>, v: nat, w: nat, lost: bool)
    requires Heard(s, seen, v, w, lost) && UpTo(more, seen, v)
    ensures Heard(s + more, seen, v, w, lost)
  {
    assert UpTo(s + more, seen, v) <==> UpTo(s, seen, v);
  }

  lemma HeardReport(s: set<nat>, seen: map<nat, nat>, v: nat, w: nat, lost: bool)
    requires Heard(s, seen, v, w, lost)
    ensures Heard(s, seen, v + 1, w, lost || s != {})
  {
    if l :| l in s {
      assert seen[l] != v + 1;
    }
  }

  /** n listeners are added, beside s or to it. */
  lemma HeardJoined(s: set<nat>, first: nat, n: nat, seen: map<nat, nat>, v: nat, w: nat, lost: bool)
    requires Heard(s, seen, v, w, lost) && forall l :: l in s ==> l < first
    ensures Heard(s, SeenBy(seen, first, n, v), v, w, lost)
    ensures Heard(s + Range(first, n), SeenBy(seen, first, n, v), v, w, lost)
  {
    SeenByMeans(seen, first, n, v);
    HeardOthers(s, seen, SeenBy(seen, first, n, v), v, w, lost);
    HeardMore(s, Range(first, n), SeenBy(seen, first, n, v), v, w, lost);
  }

  /** Listener l is called, early listeners are added, a change is perhaps reported, and late
      ones are added, all beside s. */
  lemma HeardBeside(s: set<nat>, first: nat, r: Reaction, seen: map<nat, nat>, v: nat, w: nat, lost: bool, v': nat,
                    told: map<nat, nat>, before: map<nat, nat>, l: nat)
    requires Heard(s, seen, v, w, lost) && (forall l :: l in s ==> l < first) && v' == if r.reports then v + 1 else v
    requires told == Told(before, l, first, r, v, v') && seen == before[l := v]
    ensures Heard(s, told, v', w, lost || (r.reports && s != {}))
  {
    HeardJoined(s, first, r.early, seen, v, w, lost);
    var seen' := SeenBy(seen, first, r.early, v);
    if r.reports {
      HeardReport(s, seen', v, w, lost);
    }
    HeardJoined(s, first + r.early, r.late, seen', v', w, lost || (r.reports && s != {}));
  }

  /** The same, with the new listeners joining s. */
  lemma HeardWith(s: set<nat>, first: nat, r: Reaction, seen: map<nat, nat>, v: nat, w: nat, lost: bool, v': nat,
                  told: map<nat, nat>, before: map<nat, nat>, l: nat, now: set<nat>, lost': bool)
    requires Heard(s, seen, v, w, lost) && (forall l :: l in s ==> l < first) && v' == if r.reports then v + 1 else v
    requires told == Told(before, l, first, r, v, v') && seen == before[l := v]
    requires now == s + New(first, r) && lost' == (lost || (r.reports && (s != {} || r.early > 0)))
    ensures Heard(now, told, v', w, lost')
  {
    HeardJoined(s, first, r.early, seen, v, w, lost);
    var mid, seen' := s + Range(first, r.early), SeenBy(seen, first, r.early, v);
    NotEmpty(s, first, r.early);
    if r.reports {
      HeardReport(mid, seen', v, w, lost);
    }
    assert lost' == (lost || (r.reports && mid != {})) && Heard(mid, seen', v', w, lost');
    HeardJoined(mid, first + r.early, r.late, seen', v', w, lost');
    assert now == mid + Range(first + r.early, r.late);
  }

  lemma NotEmpty(s: set<nat>, first: nat, n: nat)
    ensures s + Range(first, n) != {} <==> s != {} || n > 0
    ensures forall x :: x in s + Range(first, n) ==> x in s || x < first + n
  {
    if n > 0 {
      assert first in s + Range(first, n);
    }
  }

  /** The listeners are numbered below the number of additions, those called before those to
      come. */
  ghost predicate Ordered(p: Pass) {
    && p.todo <= p.all && (forall x :: x in p.all ==> x < p.added)
    && forall x, y :: x in p.all && x !in p.todo && y in p.todo ==> x < y
  }

  /** Those who will not be called any more have been called for every change up to w, and
      have seen the last change exactly if none was lost. */
  ghost predicate Good(p: Pass, w: nat) {
    Ordered(p) && Heard(p.all - p.todo, p.seen, p.version, w, p.lost)
  }

  lemma OrderedNext(p: Pass, r: Reaction, q: Pass)
    requires Ordered(p) && p.todo != {} && q == CallOne(p, r)
    ensures Ordered(q)
    ensures p.todo == {Least(p.todo)} ==> q.all - q.todo == Stay(p, Least(p.todo), r) + New(p.added, r)
    ensures p.todo != {Least(p.todo)} ==> q.all - q.todo == Stay(p, Least(p.todo), r)
  {
    assert p.todo == {Least(p.todo)} <==> p.todo - {Least(p.todo)} == {};
  }

  lemma GoodNext(p: Pass, r: Reaction, w: nat, q: Pass)
    requires Good(p, w) && p.todo != {} && q == CallOne(p, r)
    ensures Good(q, w)
  {
    var l, kept := Least(p.todo), p.all - p.todo;
    var seen, stay := p.seen[l := p.version], Stay(p, l, r);
    OrderedNext(p, r, q);
    HeardStay(kept, l, p.seen, p.version, w, p.lost);
    assert stay == if r.leaves then kept else kept + {l};
    assert p.todo == {l} <==> p.todo - {l} == {};
    if p.todo == {l} {
      HeardWith(stay, p.added, r, seen, p.version, w, p.lost, q.version, q.seen, p.seen, l, q.all - q.todo,
                q.lost);
    } else {
      HeardBeside(stay, p.added, r, seen, p.version, w, p.lost, q.version, q.seen, p.seen, l);
    }
  }

  /** Listener l is called. */
  lemma HeardStay(kept: set<nat>, l: nat, seen: map<nat, nat>, v: nat, w: nat, lost: bool)
    requires Heard(kept, seen, v, w, lost) && l !in kept
    ensures Heard(kept, seen[l := v], v, w, lost) && Heard(kept + {l}, seen[l := v], v, w, lost)
  {
    HeardOthers(kept, seen, seen[l := v], v, w, lost);
    HeardMore(kept, {l}, seen[l := v], v, w, lost);
  }

  lemma {:induction false} AllGood(rs: seq<Reaction>, p: Pass, w: nat)
    requires Good(p, w)
    ensures Good(Called(rs, p), w)
    decreases |rs|, p.todo
  {
    if p.todo != {} {
      GoodNext(p, Nth(rs, 0), w, CallOne(p, Nth(rs, 0)));
      AllGood(Rest(rs), CallOne(p, Nth(rs, 0)), w);
    }
  }

  /** One of the first n calls reports a change. */
  ghost predicate Reports(rs: seq<Reaction>, n: nat) {
    exists j :: 0 <= j < n && Nth(rs, j).reports
  }

  /** A call whose listener stays, and in the same or a later call a report. */
  ghost predicate StaysThenReports(rs: seq<Reaction>, n: nat) {
    exists k, j :: 0 <= k <= j < n && !Nth(rs, k).leaves && Nth(rs, j).reports
  }

  /** Of n calls one reports a change after its own listener or one called before it, that
      stays, was called; or the last one adds a listener and then reports a change. */
  ghost predicate ReportMissed(rs: seq<Reaction>, n: nat) {
    StaysThenReports(rs, n) || (n > 0 && Nth(rs, n - 1).reports && Nth(rs, n - 1).early > 0)
  }

  lemma RestAt(rs: seq<Reaction>, k: nat)
    ensures Nth(Rest(rs), k) == Nth(rs, k + 1)
  {}

  lemma ReportsFirst(rs: seq<Reaction>, n: nat)
    requires n > 0
    ensures Reports(rs, n) <==> Nth(rs, 0).reports || Reports(Rest(rs), n - 1)
  {
    if j :| 0 <= j < n && Nth(rs, j).reports {
      assert j > 0 ==> Nth(Rest(rs), j - 1).reports;
    }
    if j :| 0 <= j < n - 1 && Nth(Rest(rs), j).reports {
      RestAt(rs, j);
    }
  }

  lemma MissedFirst(rs: seq<Reaction>, n: nat)
    requires n > 0
    ensures StaysThenReports(rs, n) <==>
              (!Nth(rs, 0).leaves && Reports(rs, n)) || StaysThenReports(Rest(rs), n - 1)
  {
    if k, j :| 0 <= k <= j < n && !Nth(rs, k).leaves && Nth(rs, j).reports {
      assert k > 0 ==> !Nth(Rest(rs), k - 1).leaves && Nth(Rest(rs), j - 1).reports;
    }
    if k, j :| 0 <= k <= j < n - 1 && !Nth(Rest(rs), k).leaves && Nth(Rest(rs), j).reports {
      RestAt(rs, k);
      RestAt(rs, j);
    }
  }

  /** What the flag of lost changes says of the calls. */
  lemma {:induction false} LostMeans(rs: seq<Reaction>, p: Pass, n: nat)
    requires Ordered(p) && n == |Called(rs, p).calls| - |p.calls|
    ensures Called(rs, p).lost <==> p.lost || (p.all - p.todo != {} && Reports(rs, n)) || ReportMissed(rs, n)
    decreases |rs|, p.todo
  {
    if p.todo != {} {
      var r, l := Nth(rs, 0), Least(p.todo);
      var q := CallOne(p, r);
      OrderedNext(p, r, q);
      LostMeans(Rest(rs), q, n - 1);
      ReportsFirst(rs, n);
      MissedFirst(rs, n);
      if n > 1 {
        RestAt(rs, n - 2);
      }
      assert p.todo == {l} <==> p.todo - {l} == {};
      assert p.todo == {l} <==> n == 1;
    }
  }

  // ----- whole runs

  /** The main loop brings a change, the idler runs, or a listener is added or deleted. */
  datatype Step = ReportStep | IdlerStep(rs: seq<Reaction>) | AddStep | DelStep(l: nat)

  /** Listeners, changes and UPDATED events after some steps. */
  datatype Run = Run(listeners: set<nat>, added: nat, changed: bool, version: nat, outside: nat, announced: nat,
                     updates: nat, seen: map<nat, nat>, calls: seq<nat>)

  const START := Run({}, 0, false, 0, 0, 0, 0, map[], [])

  ghost function Before(r: Run): Pass {
    Pass(r.listeners, r.listeners, r.added, r.seen, r.version, false, r.calls)
  }

  ghost function Do(r: Run, step: Step): Run {
    match step
    case ReportStep => r.(changed := true, version := r.version + 1, outside := r.version + 1)
    case IdlerStep(rs) =>
      if !r.changed then r else
        var p := Called(rs, Before(r));
        r.(listeners := p.all, added := p.added, changed := false, version := p.version, announced := p.version,
           updates := r.updates + 1, seen := p.seen, calls := p.calls)
    case AddStep =>
      r.(listeners := r.listeners + {r.added}, added := r.added + 1, seen := r.seen[r.added := r.version])
    case DelStep(l) => r.(listeners := r.listeners - {l})
  }

  ghost function Play(steps: seq<Step>): Run {
    if steps == [] then START else Do(Play(steps[..|steps| - 1]), steps[|steps| - 1])
  }

  /** What an idler run leaves behind. */
  lemma IdlerMeans(r: Run, rs: seq<Reaction>, q: Pass)
    requires (forall x :: x in r.listeners ==> x < r.added) && r.outside <= r.version && q == Called(rs, Before(r))
    ensures Since(q.all, q.seen, r.outside) && q.version >= r.version && |q.calls| >= |r.calls|
    ensures UpTo(q.all, q.seen, q.version) <==> !ReportMissed(rs, |q.calls| - |r.calls|)
  {
    var p := Before(r);
    AllGood(rs, p, r.version);
    LostMeans(rs, p, |q.calls| - |p.calls|);
    assert q.all - q.todo == q.all;
  }

  class Element {
    var listeners: seq<nat>
    var added: nat
    var changed: bool                // _idler.changed holds an idler
    ghost var idlers: nat            // idlers of this element in the main loop
    ghost var version: nat           // property changes reported so far
    ghost var outside: nat           // the version at the last one from outside a callback
    ghost var seen: map<nat, nat>    // the version a listener was last called for, or added at
    ghost var announced: nat         // the version at the last UPDATED event
    ghost var updates: nat           // UPDATED events queued so far
    ghost var calls: seq<nat>

    /** At most one idler is outstanding; a change that no UPDATED event followed has one. */
    ghost predicate Valid()
      reads this
    {
      && Ascending(listeners, added)
      && idlers == (if changed then 1 else 0)
      && outside <= version && announced <= version && (announced < version ==> changed)
    }

    /** Every change reported from outside a callback is followed by a run of all listeners
        and an UPDATED event, or an idler is on its way that will see to it. */
    ghost predicate NothingLost()
      reads this
    {
      changed || (Since(Members(listeners), seen, outside) && announced >= outside)
    }

    ghost function Now(): Run
      reads this
    {
      Run(Members(listeners), added, changed, version, outside, announced, updates, seen, calls)
    }

    constructor ()
      ensures Valid() && NothingLost() && Now() == START
    {
      listeners, added, changed := [], 0, false;
      idlers, version, outside, seen, announced, updates, calls := 0, 0, 0, map[], 0, 0, [];
    }

    /** e_connman_element_listener_add. */
    method ListenerAdd() returns (l: nat)
      requires Valid()
      modifies `listeners, `added, `seen
      ensures Valid() && listeners == old(listeners) + [l] && l == old(added)
      ensures Members(listeners) == old(Members(listeners)) + {l}
      ensures added == old(added) + 1 && seen == old(seen)[l := version]
      ensures old(NothingLost()) ==> NothingLost()
    {
      l := added;
      Push(listeners, l, l + 1);
      listeners := listeners + [l];
      added := added + 1;
      seen := seen[l := version];
    }

    /** e_connman_element_listener_del: the match leaves the list. */
    method ListenerDel(l: nat)
      requires Valid()
      modifies `listeners
      ensures Valid() && listeners == Without(old(listeners), l)
      ensures Members(listeners) == old(Members(listeners)) - {l}
      ensures old(NothingLost()) ==> NothingLost()
    {
      for k := 0 to |listeners|
        invariant listeners == old(listeners) && l !in listeners[..k]
      {
        if listeners[k] == l {
          Unlink(k);
          return;
        }
      }
      WithoutNone(listeners, l);
      AscendingWithout(listeners, added, l);
    }

    /** The listener at position k leaves the list. */
    method Unlink(k: nat)
      requires Valid() && k < |listeners|
      modifies `listeners
      ensures Valid() && listeners == Without(old(listeners), old(listeners)[k])
      ensures Members(listeners) == old(Members(listeners)) - {old(listeners)[k]}
      ensures old(NothingLost()) ==> NothingLost()
    {
      AscendingWithout(listeners, added, listeners[k]);
      WithoutIndex(listeners, k, added);
      listeners := listeners[..k] + listeners[k + 1..];
    }

    /** _e_connman_element_listeners_call: an idler is started unless one is outstanding. */
    method Report()
      requires Valid()
      modifies `changed, `idlers, `version
      ensures Valid() && changed && version == old(version) + 1
    {
      version := version + 1;
      if !changed {
        changed := true;
        idlers := idlers + 1;
      }
    }

    /** The main loop brings a reply or a signal that changes a property. */
    method PropertyChanged()
      requires Valid()
      modifies `changed, `idlers, `version, `outside
      ensures Valid() && changed && version == outside == old(version) + 1
    {
      Report();
      outside := version;
    }

    /** n listeners are added in a row. */
    method JoinAll(n: nat)
      requires Valid()
      modifies `listeners, `added, `seen
      ensures Valid() && Members(listeners) == old(Members(listeners)) + Range(old(added), n)
      ensures added == old(added) + n && seen == SeenBy(old(seen), old(added), n, version)
    {
      ghost var s, first, was := Members(listeners), added, seen;
      for i := 0 to n
        invariant Valid() && Members(listeners) == s + Range(first, i)
        invariant added == first + i && seen == SeenBy(was, first, i, version)
      {
        var _ := ListenerAdd();
      }
    }

    /** The callback of listener l is entered. */
    ghost method Hear(l: nat)
      requires Valid()
      modifies `seen, `calls
      ensures Valid() && seen == old(seen)[l := version] && calls == old(calls) + [l]
    {
      calls := calls + [l];
      seen := seen[l := version];
    }

    /** What a callback adds and reports. */
    method React(l: nat, r: Reaction)
      requires Valid() && changed
      modifies `listeners, `added, `changed, `idlers, `version, `seen, `calls
      ensures Valid() && changed && calls == old(calls) + [l]
      ensures version == old(version) + (if r.reports then 1 else 0) && added == old(added) + r.early + r.late
      ensures seen == Told(old(seen), l, old(added), r, old(version), version)
      ensures Members(listeners) == old(Members(listeners)) + Range(old(added), r.early)
                                    + Range(old(added) + r.early, r.late)
    {
      ghost var before, first, v := seen, added, version;
      Hear(l);
      JoinAll(r.early);
      ghost var mid := seen;
      if r.reports {
        Report();
      }
      JoinAll(r.late);
      ToldIs(before, l, first, r, v, version, mid, seen);
    }

    /** One callback of the idler. */
    method Call(l: nat, r: Reaction)
      requires Valid() && changed && l < added
      modifies `listeners, `added, `changed, `idlers, `version, `seen, `calls
      ensures Valid() && changed && calls == old(calls) + [l]
      ensures version == old(version) + (if r.reports then 1 else 0) && added == old(added) + r.early + r.late
      ensures seen == Told(old(seen), l, old(added), r, old(version), version)
      ensures Members(listeners) == (if r.leaves then old(Members(listeners)) - {l} else old(Members(listeners)))
                                    + New(old(added), r)
    {
      ghost var all, first := Members(listeners), added;
      React(l, r);
      if r.leaves {
        ListenerDel(l);
      }
      NewStay(all, l, first, r, Members(listeners));
    }

    /** The calls have got to p. */
    ghost predicate At(p: Pass)
      reads this
    {
      && Members(listeners) == p.all && added == p.added && seen == p.seen && version == p.version
      && calls == p.calls
    }

    /** One round of the idler's loop: the link that follows is read before the callback. */
    method Round(l: nat, r: Reaction, ghost p: Pass) returns (next: Option<nat>)
      requires Valid() && changed && At(p) && Ordered(p) && FirstOf(p.todo) == Some(l)
      modifies `listeners, `added, `changed, `idlers, `version, `seen, `calls
      ensures Valid() && changed && At(CallOne(p, r)) && Ordered(CallOne(p, r))
      ensures next == FirstOf(CallOne(p, r).todo)
    {
      NextMeans(listeners, added, l);
      next := Next(listeners, l);
      assert From(p.all, l) == p.todo;
      OrderedNext(p, r, CallOne(p, r));
      if p.todo - {l} != {} {
        assert IsLeast(Least(p.todo - {l}), CallOne(p, r).todo);
      }
      Call(l, r);
    }

    /** The loop of _e_connman_element_listeners_call_do; rs says what the callbacks do, in the
        order of the calls. */
    method CallAll(rs: seq<Reaction>)
      requires Valid() && changed
      modifies `listeners, `added, `changed, `idlers, `version, `seen, `calls
      ensures Valid() && changed && At(Called(rs, Before(old(Now()))))
      ensures NoneAdds(rs) ==> calls == old(calls) + old(listeners)
    {
      var next, left := if listeners == [] then None else Some(listeners[0]), rs;
      ghost var p := Before(Now());
      ghost var end := Called(rs, p);
      HeadMeans(listeners, added);
      AscendingBelow(listeners, added);
      if NoneAdds(rs) {
        CallsInOrder(rs, p, listeners, added);
      }
      while next.Some?
        invariant Valid() && changed && At(p) && Ordered(p) && Called(left, p) == end && next == FirstOf(p.todo)
        decreases |left|, p.todo
      {
        var r := Nth(left, 0);
        next := Round(next.value, r, p);
        p, left := CallOne(p, r), Rest(left);
      }
    }

    /** The idler: the listeners are called in order, also when some delete themselves or add
        others; one UPDATED event follows. No change from outside is lost, and those who stay
        have seen every change exactly when no callback reported one that a listener called or
        added by then missed. */
    method RunIdler(rs: seq<Reaction>)
      requires Valid() && changed
      modifies `listeners, `added, `changed, `idlers, `version, `seen, `calls, `announced, `updates
      ensures Valid() && NothingLost() && idlers == 0 && updates == old(updates) + 1
      ensures Now() == Do(old(Now()), IdlerStep(rs)) && |calls| >= |old(calls)|
      ensures NoneAdds(rs) ==> calls == old(calls) + old(listeners)
      ensures UpTo(Members(listeners), seen, version) <==> !ReportMissed(rs, |calls| - |old(calls)|)
    {
      ghost var q := Called(rs, Before(Now()));
      AscendingBelow(listeners, added);
      IdlerMeans(Now(), rs, q);
      CallAll(rs);
      announced := version;
      updates := updates + 1;
      changed := false;
      idlers := idlers - 1;
    }

    /** e_connman_element_free, as far as the idler goes. */
    method Free()
      requires Valid()
      modifies `changed, `idlers, `listeners
      ensures idlers == 0 && listeners == []
    {
      if changed {
        changed := false;
        idlers := idlers - 1;
      }
      listeners := [];
    }
  }

  method PlayStep(e: Element, step: Step)
    requires e.Valid() && e.NothingLost()
    modifies e
    ensures e.Valid() && e.NothingLost() && e.Now() == Do(old(e.Now()), step)
  {
    match step {
      case ReportStep =>
        e.PropertyChanged();
      case IdlerStep(rs) =>
        if e.changed {
          e.RunIdler(rs);
        }
      case AddStep =>
        var _ := e.ListenerAdd();
      case DelStep(l) =>
        e.ListenerDel(l);
    }
  }

  /** Any run, whatever the callbacks do in each call: its outcome is what the steps say, and no
      change reported from outside a callback is ever lost. */
  method WholeRun(steps: seq<Step>) returns (e: Element)
    ensures e.Valid() && e.NothingLost() && e.Now() == Play(steps)
  {
    e := new Element();
    for i := 0 to |steps|
      invariant fresh(e) && e.Valid() && e.NothingLost() && e.Now() == Play(steps[..i])
    {
      assert steps[..i + 1][..i] == steps[..i];
      PlayStep(e, steps[i]);
    }
    assert steps[..|steps|] == steps;
  }

  /** A listener whose own callback reports a change once is never called for that change: the
      run ends with no idler on its way and the listener behind. */
  lemma UpdateLost(r: Reaction)
    requires r == Reaction(0, true, 0, false)
    ensures var q := Play([AddStep, ReportStep, IdlerStep([r])]);
            q.listeners == {0} && !q.changed && Lookup(q.seen, 0) == Some(1) && q.version == 2
  {
    var a := START.(listeners := {0}, added := 1, seen := map[0 := 0]);
    var b := a.(changed := true, version := 1, outside := 1);
    OneCall(b, 0, r);
    PlayNext([], AddStep, START, [AddStep], a);
    PlayNext([AddStep], ReportStep, a, [AddStep, ReportStep], b);
    PlayNext([AddStep, ReportStep], IdlerStep([r]), b, [AddStep, ReportStep, IdlerStep([r])], Do(b, IdlerStep([r])));
  }

  /** The only listener is called, and reports a change. */
  lemma OneCall(b: Run, l: nat, r: Reaction)
    requires b.listeners == {l} && b.changed && r == Reaction(0, true, 0, false)
    ensures Do(b, IdlerStep([r])) ==
            b.(changed := false, version := b.version + 1, announced := b.version + 1, updates := b.updates + 1,
               seen := b.seen[l := b.version], calls := b.calls + [l])
  {
    var p := Before(b);
    var q := CallOne(p, r);
    assert IsLeast(Least({l}), {l}) && {l} - {l} == {};
    assert l in Stay(p, l, r) && {l} + {} == {l};
    assert q.seen == p.seen[l := p.version];
    assert Called([r], p) == Called(Rest([r]), q) == q;
  }

  lemma PlayNext(steps: seq<Step>, step: Step, r: Run, all: seq<Step>, q: Run)
    requires Play(steps) == r && q == Do(r, step) && |all| == |steps| + 1 && all[|steps|] == step
    requires forall k :: 0 <= k < |steps| ==> all[k] == steps[k]
    ensures Play(all) == q
  {
    assert all[..|steps|] == steps;
  }
}
