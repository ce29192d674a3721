/** Calls sent for an element: each accepted call sits in one of the element's fourteen
    pending lists until a reply, or the destruction of the element, runs its callbacks
    (src/lib/connman0_7x/e_connman_element.c). An accepted call is known by its number. */
module PendingCalls {
  import opened Counting

  const LISTS := 14

  /** What a callback does to the reference count of the element it was called for. */
  datatype Act = Take | Drop

  /** The count after the first n acts. */
  function After(acts: seq<Act>, n: nat, r: int): int
    requires n <= |acts|
  {
    if n == 0 then r else After(acts, n - 1, r) + if acts[n - 1].Take? then 1 else -1
  }

  /** Each act counts for one. */
  lemma {:induction false} AfterCounts(acts: seq<Act>, n: nat, r: int)
    requires n <= |acts|
    ensures After(acts, n, r) == r + Count(acts[..n], Take) - Count(acts[..n], Drop)
  {
    if n > 0 {
      AfterCounts(acts, n - 1, r);
      assert acts[..n] == acts[..n - 1] + [acts[n - 1]];
      CountSnoc(acts[..n - 1], acts[n - 1], Take);
      CountSnoc(acts[..n - 1], acts[n - 1], Drop);
    }
  }

  /** None of the first n acts drops the last reference. */
  ghost predicate Safe(acts: seq<Act>, n: nat, r: int)
    requires n <= |acts|
  {
    n == 0 || (Safe(acts, n - 1, r) && (acts[n - 1].Drop? ==> After(acts, n, r) != 0))
  }

  lemma {:induction false} SafePrefix(acts: seq<Act>, k: nat, n: nat, r: int)
    requires k <= n <= |acts| && Safe(acts, n, r)
    ensures Safe(acts, k, r)
  {
    if k < n {
      SafePrefix(acts, k, n - 1, r);
    }
  }

  ghost predicate OnlyTakes(acts: seq<Act>) {
    forall k :: 0 <= k < |acts| ==> acts[k].Take?
  }

  /** A callback that only takes references never drops the last one. */
  lemma {:induction false} TakesAreSafe(acts: seq<Act>, n: nat, r: int)
    requires n <= |acts| && OnlyTakes(acts)
    ensures Safe(acts, n, r)
  {
    if n > 0 {
      TakesAreSafe(acts, n - 1, r);
    }
  }

  type Callbacks = nat -> seq<Act>

  /** The count after the callbacks of the calls ids ran one after the other. */
  function AfterAll(cbs: Callbacks, ids: seq<nat>, r: int): int {
    if ids == [] then r else
      var acts := cbs(ids[|ids| - 1]);
      After(acts, |acts|, AfterAll(cbs, ids[..|ids| - 1], r))
  }

  ghost predicate AllSafe(cbs: Callbacks, ids: seq<nat>, r: int) {
    ids == [] ||
    var front, acts := ids[..|ids| - 1], cbs(ids[|ids| - 1]);
    AllSafe(cbs, front, r) && Safe(acts, |acts|, AfterAll(cbs, front, r))
  }

  lemma AllSafeNext(cbs: Callbacks, ids: seq<nat>, k: nat, r: int)
    requires k < |ids|
    ensures AfterAll(cbs, ids[..k + 1], r) == After(cbs(ids[k]), |cbs(ids[k])|, AfterAll(cbs, ids[..k], r))
    ensures AllSafe(cbs, ids[..k + 1], r) <==>
              && AllSafe(cbs, ids[..k], r)
              && Safe(cbs(ids[k]), |cbs(ids[k])|, AfterAll(cbs, ids[..k], r))
  {
    assert ids[..k + 1][..k] == ids[..k];
  }

  lemma {:induction false} AllSafePrefix(cbs: Callbacks, ids: seq<nat>, k: nat, r: int)
    requires k <= |ids| && AllSafe(cbs, ids, r)
    ensures AllSafe(cbs, ids[..k], r)
  {
    if k < |ids| {
      AllSafePrefix(cbs, ids[..|ids| - 1], k, r);
      assert ids[..|ids| - 1][..k] == ids[..k];
    } else {
      assert ids[..k] == ids;
    }
  }

  lemma {:induction false} AllSafeConcat(cbs: Callbacks, a: seq<nat>, b: seq<nat>, r: int)
    ensures AfterAll(cbs, a + b, r) == AfterAll(cbs, b, AfterAll(cbs, a, r))
    ensures AllSafe(cbs, a + b, r) <==> AllSafe(cbs, a, r) && AllSafe(cbs, b, AfterAll(cbs, a, r))
  {
    if b == [] {
      assert a + b == a;
    } else {
      AllSafeConcat(cbs, a, b[..|b| - 1], r);
      assert (a + b)[..|a + b| - 1] == a + b[..|b| - 1];
    }
  }

  lemma {:induction false} AllTakesAreSafe(cbs: Callbacks, ids: seq<nat>, r: int)
    requires forall id :: OnlyTakes(cbs(id))
    ensures AllSafe(cbs, ids, r)
  {
    if ids != [] {
      var front, acts := ids[..|ids| - 1], cbs(ids[|ids| - 1]);
      AllTakesAreSafe(cbs, front, r);
      TakesAreSafe(acts, |acts|, AfterAll(cbs, front, r));
    }
  }

  /** The calls of the first n lists, in the order destruction takes them. */
  function Flatten(lists: seq<seq<nat>>, n: nat): seq<nat>
    requires n <= |lists|
  {
    if n == 0 then [] else Flatten(lists, n - 1) + lists[n - 1]
  }

  /** eina_inlist_remove. */
  function Remove(s: seq<nat>, id: nat): seq<nat> {
    if s == [] then [] else if s[0] == id then s[1..] else [s[0]] + Remove(s[1..], id)
  }

  /** Its first occurrence goes, everything else stays where it is. */
  lemma {:induction false} RemoveIs(a: seq<nat>, id: nat, b: seq<nat>)
    requires id !in a
    ensures Remove(a + [id] + b, id) == a + b
  {
    var s := a + [id] + b;
    if a == [] {
      assert s[1..] == b && a + b == b;
    } else {
      assert s[0] == a[0] && a[0] in a && s[1..] == a[1..] + [id] + b;
      RemoveIs(a[1..], id, b);
    }
  }

  /** The calls of a list, in the order in which they were accepted, numbered below a bound. */
  ghost predicate Rising(l: seq<nat>, below: nat) {
    (forall i, j :: 0 <= i < j < |l| ==> l[i] < l[j]) && forall i :: 0 <= i < |l| ==> l[i] < below
  }

  ghost predicate AllRising(lists: seq<seq<nat>>, below: nat) {
    forall k :: 0 <= k < |lists| ==> Rising(lists[k], below)
  }

  lemma RisingParts(a: seq<nat>, id: nat, b: seq<nat>, l: seq<nat>, rest: seq<nat>, below: nat)
    requires l == a + [id] + b && rest == a + b && Rising(l, below)
    ensures Rising(rest, below) && id !in a
  {
    assert l[|a|] == id;
    forall i | 0 <= i < |a| ensures a[i] < id {
      assert l[i] == a[i];
    }
    forall i | 0 <= i < |rest| ensures rest[i] == l[if i < |a| then i else i + 1] {}
  }

  lemma RisingWithout(l: seq<nat>, id: nat, below: nat)
    requires Rising(l, below) && id in l
    ensures Rising(Remove(l, id), below)
  {
    var k :| 0 <= k < |l| && l[k] == id;
    var a, b := l[..k], l[k + 1..];
    assert l == a + [id] + b;
    RisingParts(a, id, b, l, a + b, below);
    RemoveIs(a, id, b);
  }

  lemma {:induction false} RemoveCount(s: seq<nat>, id: nat, x: nat)
    requires id in s
    ensures Count(Remove(s, id), x) == Count(s, x) - if x == id then 1 else 0
  {
    assert s == [s[0]] + s[1..];
    CountAppend([s[0]], s[1..], x);
    if s[0] != id {
      RemoveCount(s[1..], id, x);
      CountAppend([s[0]], Remove(s[1..], id), x);
    }
  }

  lemma FlattenNext(cbs: Callbacks, ls: seq<seq<nat>>, n: nat, was: seq<nat>)
    requires n < |ls|
    ensures was + Flatten(ls, n) + ls[n] == was + Flatten(ls, n + 1)
    ensures AfterAll(cbs, Flatten(ls, n + 1), 0) == AfterAll(cbs, ls[n], AfterAll(cbs, Flatten(ls, n), 0))
    ensures AllSafe(cbs, Flatten(ls, n + 1), 0) <==>
              && AllSafe(cbs, Flatten(ls, n), 0)
              && AllSafe(cbs, ls[n], AfterAll(cbs, Flatten(ls, n), 0))
  {
    AllSafeConcat(cbs, Flatten(ls, n), ls[n], 0);
    assert was + Flatten(ls, n) + ls[n] == was + (Flatten(ls, n) + ls[n]);
  }

  lemma {:induction false} FlattenSame(a: seq<seq<nat>>, b: seq<seq<nat>>, n: nat)
    requires n <= |a| && n <= |b| && forall k :: 0 <= k < n ==> a[k] == b[k]
    ensures Flatten(a, n) == Flatten(b, n)
  {
    if n > 0 {
      FlattenSame(a, b, n - 1);
    }
  }

  lemma {:induction false} FlattenLonger(lists: seq<seq<nat>>, k: nat, n: nat)
    requires k <= n <= |lists|
    ensures |Flatten(lists, k)| <= |Flatten(lists, n)|
  {
    if k < n {
      FlattenLonger(lists, k, n - 1);
    }
  }

  /** Where call i of list k stands when the first n lists are drained. */
  lemma {:induction false} FlattenAt(lists: seq<seq<nat>>, n: nat, k: nat, i: nat, all: seq<nat>, p: nat)
    requires k < n <= |lists| && i < |lists[k]| && all == Flatten(lists, n) && p == |Flatten(lists, k)| + i
    ensures p < |all| && all[p] == lists[k][i]
  {
    var front, last := Flatten(lists, n - 1), lists[n - 1];
    assert all == front + last;
    if k < n - 1 {
      FlattenAt(lists, n - 1, k, i, front, p);
    }
  }

  ghost predicate Before(s: seq<nat>, x: nat, y: nat) {
    exists p, q :: 0 <= p < q < |s| && s[p] == x && s[q] == y
  }

  /** Destruction runs the lists one after the other, and the calls of one list in the order in
      which they were accepted. */
  lemma DrainedInOrder(lists: seq<seq<nat>>, below: nat, k: nat, x: nat, m: nat, y: nat)
    requires k <= m < |lists| && AllRising(lists, below) && x in lists[k] && y in lists[m]
    requires k < m || x < y
    ensures Before(Flatten(lists, |lists|), x, y)
  {
    var i :| 0 <= i < |lists[k]| && lists[k][i] == x;
    var j :| 0 <= j < |lists[m]| && lists[m][j] == y;
    var all, p, q := Flatten(lists, |lists|), |Flatten(lists, k)| + i, |Flatten(lists, m)| + j;
    FlattenAt(lists, |lists|, k, i, all, p);
    FlattenAt(lists, |lists|, m, j, all, q);
    if k < m {
      FlattenLonger(lists, k + 1, m);
      assert Flatten(lists, k + 1) == Flatten(lists, k) + lists[k];
    } else {
      RisingAt(lists[k], below, i, j);
    }
  }

  lemma RisingAt(l: seq<nat>, below: nat, i: nat, j: nat)
    requires Rising(l, below) && i < |l| && j < |l| && l[i] < l[j]
    ensures i < j
  {}

  lemma {:induction false} FlattenCount(lists: seq<seq<nat>>, slot: nat, l: seq<nat>, n: nat, id: nat)
    requires slot < n <= |lists|
    ensures Count(Flatten(lists[slot := l], n), id)
            == Count(Flatten(lists, n), id) - Count(lists[slot], id) + Count(l, id)
  {
    CountAppend(Flatten(lists, n - 1), lists[n - 1], id);
    CountAppend(Flatten(lists[slot := l], n - 1), lists[slot := l][n - 1], id);
    if slot < n - 1 {
      FlattenCount(lists, slot, l, n - 1, id);
    } else {
      FlattenSame(lists, lists[slot := l], n - 1);
    }
  }

  lemma {:induction false} FlattenOne(lists: seq<seq<nat>>, slot: nat, n: nat)
    requires n <= |lists| && forall k :: 0 <= k < n && k != slot ==> lists[k] == []
    ensures Flatten(lists, n) == if slot < n then lists[slot] else []
  {
    if n > 0 {
      FlattenOne(lists, slot, n - 1);
    }
  }

  /** The lists with the first n emptied. */
  ghost function Drained(lists: seq<seq<nat>>, n: nat): (ls: seq<seq<nat>>)
    requires n <= |lists|
    ensures |ls| == |lists|
  {
    if n == 0 then lists else Drained(lists, n - 1)[n - 1 := []]
  }

  lemma {:induction false} DrainedAt(lists: seq<seq<nat>>, n: nat, k: nat)
    requires n <= |lists| && k < |lists|
    ensures Drained(lists, n)[k] == if k < n then [] else lists[k]
  {
    if n > 0 {
      DrainedAt(lists, n - 1, k);
    }
  }

  lemma {:induction false} FlattenEmpty(lists: seq<seq<nat>>, n: nat)
    requires n <= |lists| && forall k :: 0 <= k < n ==> lists[k] == []
    ensures Flatten(lists, n) == []
  {
    if n > 0 {
      FlattenEmpty(lists, n - 1);
    }
  }

  /** Each of the accepted calls is either pending or had its callbacks run, and that once; no
      other call is or had. */
  ghost predicate Once(log: seq<nat>, lists: seq<seq<nat>>, accepted: nat, id: nat)
    requires |lists| == LISTS
  {
    Count(log, id) + Count(Flatten(lists, LISTS), id) == if id < accepted then 1 else 0
  }

  class Element {
    const callbacks: Callbacks
    var references: int
    var lists: seq<seq<nat>>
    var accepted: nat
    var freeing: bool
    var freed: bool
    var broken: bool           // freed memory was used, or the destruction entered twice
    ghost var log: seq<nat>          // the calls whose callbacks ran, in order

    ghost predicate Shape()
      reads this
    {
      |lists| == LISTS && !broken && !freed
    }

    ghost predicate Valid()
      reads this
    {
      && |lists| == LISTS && !broken
      && (forall id: nat :: Once(log, lists, accepted, id))
      && (if freed then Flatten(lists, LISTS) == [] else !freeing && references > 0)
    }

    /** e_connman_element_new. */
    constructor (callbacks: Callbacks)
      ensures Valid() && !freed && references == 1 && accepted == 0 && log == [] && this.callbacks == callbacks
      ensures forall k :: 0 <= k < LISTS ==> lists[k] == []
    {
      this.callbacks := callbacks;
      references, lists, accepted, freeing, freed := 1, seq(LISTS, i => []), 0, false, false;
      broken, log := false, [];
      new;
      FlattenEmpty(lists, LISTS);
    }

    /** e_connman_element_message_send: sent is whether the bus layer took the message. */
    method MessageSend(slot: nat, sent: bool) returns (ok: bool)
      requires Valid() && !freed && slot < LISTS
      modifies `lists, `accepted
      ensures Valid() && ok == sent
      ensures ok ==> accepted == old(accepted) + 1 && lists == old(lists)[slot := old(lists)[slot] + [old(accepted)]]
      ensures !ok ==> accepted == old(accepted) && lists == old(lists)
    {
      if !sent {
        return false;
      }
      ghost var before := lists;
      lists := lists[slot := lists[slot] + [accepted]];
      accepted := accepted + 1;
      forall id: nat ensures Once(log, lists, accepted, id) {
        assert Once(log, before, accepted - 1, id);
        FlattenCount(before, slot, before[slot] + [accepted - 1], LISTS, id);
        CountAppend(before[slot], [accepted - 1], id);
        assert Count([accepted - 1], id) == if id == accepted - 1 then 1 else 0 by {
          assert [accepted - 1][..0] == [];
        }
      }
      ok := true;
    }

    /** The two callbacks of a call. A drop of the last reference destroys the element, in
        the middle of the callback; the second destruction of one is not followed further. */
    method RunCallbacks(id: nat)
      requires Shape() && (freeing || references > 0)
      modifies this
      ensures |lists| == LISTS && (old(freeing) ==> freeing) && accepted == old(accepted)
      ensures var acts := callbacks(id);
        if Safe(acts, |acts|, old(references)) then
          && references == After(acts, |acts|, old(references))
          && (freeing == old(freeing)) && !freed && !broken && lists == old(lists) && log == old(log) + [id]
          && (freeing || references > 0)
        else if old(freeing) then broken
        else
          && (freed || broken)
          && (AllSafe(callbacks, Flatten(old(lists), LISTS), 0) ==>
                log == old(log) + [id] + Flatten(old(lists), LISTS))
      decreases !freeing, 1
    {
      var acts := callbacks(id);
      log := log + [id];
      for i := 0 to |acts|
        invariant Safe(acts, i, old(references)) && references == After(acts, i, old(references))
        invariant freeing == old(freeing) && !freed && !broken && lists == old(lists) && accepted == old(accepted)
        invariant log == old(log) + [id] && (freeing || references > 0)
      {
        if acts[i].Take? {
          references := references + 1;
        } else {
          references := references - 1;
          if references == 0 {
            if Safe(acts, |acts|, old(references)) {
              SafePrefix(acts, i + 1, |acts|, old(references));
            }
            if freeing {
              broken := true;
            } else {
              Free();
            }
            return;
          }
        }
      }
    }

    /** e_connman_element_call_dispatch_and_free: after the callbacks, the record is taken off
        its list, both of which a destruction in between has freed. */
    method Dispatch(slot: nat, id: nat)
      requires Shape() && (freeing || references > 0) && slot < LISTS && id in lists[slot]
      modifies this
      ensures |lists| == LISTS && (old(freeing) ==> freeing) && accepted == old(accepted)
      ensures broken <==> !Safe(callbacks(id), |callbacks(id)|, old(references))
      ensures !broken ==>
                && references == After(callbacks(id), |callbacks(id)|, old(references))
                && freeing == old(freeing) && !freed
                && lists == old(lists)[slot := Remove(old(lists)[slot], id)]
                && log == old(log) + [id] && (freeing || references > 0)
      ensures broken && !old(freeing) && AllSafe(callbacks, Flatten(old(lists), LISTS), 0)
              ==> log == old(log) + [id] + Flatten(old(lists), LISTS)
      decreases !freeing, 2
    {
      RunCallbacks(id);
      if freed {
        broken := true;
      }
      if !broken {
        lists := lists[slot := Remove(lists[slot], id)];
      }
    }

    /** e_connman_element_pending_cancel_and_free: every round takes the head off the list. */
    method Cancel(slot: nat)
      requires Shape() && freeing && slot < LISTS
      modifies this
      ensures |lists| == LISTS && freeing && accepted == old(accepted)
      ensures broken <==> !AllSafe(callbacks, old(lists)[slot], old(references))
      ensures !broken ==>
                && references == AfterAll(callbacks, old(lists)[slot], old(references)) && !freed
                && lists == old(lists)[slot := []] && log == old(log) + old(lists)[slot]
      decreases false, 3
    {
      ghost var all, k := lists[slot], 0;
      while lists[slot] != []
        invariant Shape() && freeing && accepted == old(accepted)
        invariant 0 <= k <= |all| && lists == old(lists)[slot := all[k..]]
        invariant log == old(log) + all[..k]
        invariant references == AfterAll(callbacks, all[..k], old(references))
        invariant AllSafe(callbacks, all[..k], old(references))
        decreases |lists[slot]|
      {
        AllSafeNext(callbacks, all, k, old(references));
        assert all[..k + 1] == all[..k] + [all[k]];
        Dispatch(slot, lists[slot][0]);
        if broken {
          if AllSafe(callbacks, all, old(references)) {
            AllSafePrefix(callbacks, all, k + 1, old(references));
          }
          return;
        }
        k := k + 1;
      }
      assert all[..k] == all;
    }

    /** Destruction of an element with the lists ls and the log was has drained n lists. */
    ghost predicate Draining(ls: seq<seq<nat>>, was: seq<nat>, n: nat)
      requires |ls| == LISTS && n <= LISTS
      reads this
    {
      && lists == Drained(ls, n) && log == was + Flatten(ls, n)
      && references == AfterAll(callbacks, Flatten(ls, n), 0) && AllSafe(callbacks, Flatten(ls, n), 0)
    }

    method FreeList(slot: nat, ghost ls: seq<seq<nat>>, ghost was: seq<nat>)
      requires Shape() && freeing && slot < LISTS && |ls| == LISTS && Draining(ls, was, slot)
      modifies this
      ensures |lists| == LISTS && freeing && accepted == old(accepted)
      ensures broken ==> !AllSafe(callbacks, Flatten(ls, LISTS), 0)
      ensures !broken ==> !freed && Draining(ls, was, slot + 1)
      decreases false, 4
    {
      DrainedAt(ls, slot, slot);
      FlattenNext(callbacks, ls, slot, was);
      Cancel(slot);
      if broken {
        NotAllSafe(ls, slot + 1, LISTS);
      }
    }

    /** e_connman_element_free, as far as the calls go: it drains the fourteen lists. */
    method Free()
      requires Shape() && !freeing && references == 0
      modifies this
      ensures |lists| == LISTS && freeing && accepted == old(accepted)
      ensures broken <==> !AllSafe(callbacks, Flatten(old(lists), LISTS), 0)
      ensures !broken ==>
                && freed && log == old(log) + Flatten(old(lists), LISTS)
                && forall k :: 0 <= k < LISTS ==> lists[k] == []
      decreases true, 0
    {
      freeing := true;
      for slot := 0 to LISTS
        invariant Shape() && freeing && accepted == old(accepted) && Draining(old(lists), old(log), slot)
      {
        FreeList(slot, old(lists), old(log));
        if broken {
          return;
        }
      }
      freed := true;
      forall k | 0 <= k < LISTS ensures lists[k] == [] {
        DrainedAt(old(lists), LISTS, k);
      }
    }

    lemma {:induction false} NotAllSafe(ls: seq<seq<nat>>, k: nat, n: nat)
      requires k <= n <= |ls| && !AllSafe(callbacks, Flatten(ls, k), 0)
      ensures !AllSafe(callbacks, Flatten(ls, n), 0)
    {
      if k < n {
        NotAllSafe(ls, k, n - 1);
        AllSafeConcat(callbacks, Flatten(ls, n - 1), ls[n - 1], 0);
      }
    }

    /** A reply arrives for a pending call: its callbacks run once and it leaves its list,
        exactly when the callbacks do not drop the element's last reference. When they do,
        and the callbacks take no reference back on the way, the destruction in the middle
        runs all pending callbacks, those of the same call a second time. */
    method Reply(slot: nat, id: nat)
      requires Valid() && !freed && slot < LISTS && id in lists[slot]
      modifies this
      ensures broken <==> !Safe(callbacks(id), |callbacks(id)|, old(references))
      ensures !broken ==> Valid() && !freed && log == old(log) + [id] && id !in Flatten(lists, LISTS)
      ensures !broken ==>
                && references == After(callbacks(id), |callbacks(id)|, old(references))
                && lists == old(lists)[slot := Remove(old(lists)[slot], id)]
      ensures broken && AllSafe(callbacks, Flatten(old(lists), LISTS), 0) ==> Count(log, id) == 2
      ensures accepted == old(accepted)
    {
      ghost var before := lists;
      assert Once(log, lists, accepted, id) && Count(log, id) == 0 && Count(Flatten(lists, LISTS), id) == 1 by {
        FlattenCount(lists, slot, [], LISTS, id);
        CountAbsent(lists[slot], id);
      }
      ghost var was := log;
      Dispatch(slot, id);
      forall x: nat ensures Count(was + [id], x) == Count(was, x) + if x == id then 1 else 0 {
        assert (was + [id])[..|was|] == was;
      }
      if broken {
        CountAppend(was + [id], Flatten(before, LISTS), id);
        return;
      }
      forall x: nat ensures Once(log, lists, accepted, x) {
        assert Once(old(log), old(lists), accepted, x);
        FlattenCount(before, slot, Remove(before[slot], id), LISTS, x);
        RemoveCount(before[slot], id, x);
      }
      assert Once(log, lists, accepted, id);
      CountAbsent(Flatten(lists, LISTS), id);
    }

    /** e_connman_element_ref. */
    method Ref()
      requires Valid() && !freed
      modifies `references
      ensures Valid() && references == old(references) + 1
    {
      references := references + 1;
    }

    /** e_connman_element_unref: the last reference destroys the element, which runs the
        callbacks of every call still pending, in the order of the lists. */
    method Unref()
      requires Valid() && !freed
      modifies this
      ensures accepted == old(accepted)
      ensures broken <==> old(references) == 1 && !AllSafe(callbacks, Flatten(old(lists), LISTS), 0)
      ensures !broken ==> Valid() && (freed <==> old(references) == 1)
      ensures !broken ==> log == old(log) + if freed then Flatten(old(lists), LISTS) else []
      ensures !broken && !freed ==> references == old(references) - 1 && lists == old(lists)
    {
      references := references - 1;
      if references == 0 {
        ghost var before, was := lists, log;
        Free();
        if !broken {
          FlattenEmpty(lists, LISTS);
          forall x: nat ensures Once(log, lists, accepted, x) {
            assert Once(old(log), old(lists), accepted, x);
            CountAppend(was, Flatten(before, LISTS), x);
          }
        }
      }
    }

    /** Once the element is gone, every call ever accepted had its callbacks run exactly once. */
    lemma AllRanOnce(id: nat)
      requires Valid() && freed && id < accepted
      ensures Count(log, id) == 1
    {
      assert Once(log, lists, accepted, id);
    }
  }

  datatype Step = SendStep(slot: nat, sent: bool) | ReplyStep(slot: nat, id: nat) | RefStep | UnrefStep

  /** An element in use, one that was destroyed, or a run that used freed memory. */
  datatype Run =
    | Live(references: int, lists: seq<seq<nat>>, accepted: nat, log: seq<nat>)
    | Gone(accepted: nat, log: seq<nat>)
    | Broken

  ghost function Start(): Run {
    Live(1, [[], [], [], [], [], [], [], [], [], [], [], [], [], []], 0, [])
  }

  ghost predicate Possible(r: Run, step: Step)
    requires r.Live?
  {
    match step
    case SendStep(slot, _) => slot < LISTS
    case ReplyStep(slot, id) => slot < LISTS && slot < |r.lists| && id in r.lists[slot]
    case RefStep => true
    case UnrefStep => true
  }

  ghost function Do(cbs: Callbacks, r: Run, step: Step): Run {
    if !r.Live? || |r.lists| != LISTS || !Possible(r, step) then r else
      match step
      case SendStep(slot, sent) =>
        if sent then Live(r.references, r.lists[slot := r.lists[slot] + [r.accepted]], r.accepted + 1, r.log) else r
      case ReplyStep(slot, id) =>
        var acts := cbs(id);
        if Safe(acts, |acts|, r.references)
        then Live(After(acts, |acts|, r.references), r.lists[slot := Remove(r.lists[slot], id)], r.accepted,
                  r.log + [id])
        else Broken
      case RefStep => r.(references := r.references + 1)
      case UnrefStep =>
        if r.references != 1 then r.(references := r.references - 1)
        else if AllSafe(cbs, Flatten(r.lists, LISTS), 0) then Gone(r.accepted, r.log + Flatten(r.lists, LISTS))
        else Broken
  }

  ghost function Play(cbs: Callbacks, steps: seq<Step>): Run {
    if steps == [] then Start() else Do(cbs, Play(cbs, steps[..|steps| - 1]), steps[|steps| - 1])
  }

  /** The element has come to r. */
  ghost predicate At(e: Element, r: Run)
    reads e
  {
    match r
    case Live(references, lists, accepted, log) =>
      && e.Valid() && !e.freed && e.references == references && e.lists == lists && e.accepted == accepted
      && e.log == log
    case Gone(accepted, log) => e.Valid() && e.freed && e.accepted == accepted && e.log == log
    case Broken => e.broken
  }

  method PlayStep(e: Element, step: Step, ghost r: Run)
    requires At(e, r) && r.Live?
    modifies e
    ensures At(e, Do(e.callbacks, r, step))
  {
    match step {
      case SendStep(slot, sent) =>
        if slot < LISTS {
          var _ := e.MessageSend(slot, sent);
        }
      case ReplyStep(slot, id) =>
        if slot < LISTS && id in e.lists[slot] {
          e.Reply(slot, id);
        }
      case RefStep => e.Ref();
      case UnrefStep => e.Unref();
    }
  }

  /** In every run each of the fourteen lists holds its calls in the order of acceptance. */
  lemma {:induction false} ListsRise(cbs: Callbacks, steps: seq<Step>)
    ensures var r := Play(cbs, steps);
            r.Live? ==> |r.lists| == LISTS && AllRising(r.lists, r.accepted)
  {
    if steps != [] {
      var front, step := steps[..|steps| - 1], steps[|steps| - 1];
      ListsRise(cbs, front);
      var r := Play(cbs, front);
      if r.Live? && step.ReplyStep? && Possible(r, step) {
        RisingWithout(r.lists[step.slot], step.id, r.accepted);
      }
    }
  }

  /** Any run over one element: it comes to what the steps say. */
  method WholeRun(callbacks: Callbacks, steps: seq<Step>) returns (e: Element)
    ensures At(e, Play(callbacks, steps))
    ensures !e.broken && !e.freed ==> AllRising(e.lists, e.accepted)
    ensures !e.broken ==> forall id: nat :: id < e.accepted ==> Count(e.log, id) <= 1
    ensures !e.broken && e.freed ==> forall id: nat :: id < e.accepted ==> Count(e.log, id) == 1
  {
    e := new Element(callbacks);
    for i := 0 to |steps|
      invariant fresh(e) && e.callbacks == callbacks && At(e, Play(callbacks, steps[..i]))
    {
      assert steps[..i + 1][..i] == steps[..i];
      if !e.broken && !e.freed {
        PlayStep(e, steps[i], Play(callbacks, steps[..i]));
      }
    }
    assert steps[..|steps|] == steps;
    ListsRise(callbacks, steps);
    if !e.broken {
      forall id: nat | id < e.accepted ensures Count(e.log, id) <= 1 && (e.freed ==> Count(e.log, id) == 1) {
        assert Once(e.log, e.lists, e.accepted, id);
      }
    }
  }

  /** Callbacks that drop nothing keep every run unbroken: exactly once then holds for it. */
  lemma {:induction false} OnlyTakesNeverBreak(cbs: Callbacks, steps: seq<Step>)
    requires forall id :: OnlyTakes(cbs(id))
    ensures !Play(cbs, steps).Broken?
  {
    if steps != [] {
      var r := Play(cbs, steps[..|steps| - 1]);
      OnlyTakesNeverBreak(cbs, steps[..|steps| - 1]);
      if r.Live? && |r.lists| == LISTS {
        AllTakesAreSafe(cbs, Flatten(r.lists, LISTS), 0);
        match steps[|steps| - 1] {
          case ReplyStep(_, id) => TakesAreSafe(cbs(id), |cbs(id)|, r.references);
          case _ =>
        }
      }
    }
  }

  /** A call whose callback gives back the caller's last reference has it run twice. */
  method LastReferenceDropped() returns (e: Element)
    ensures e.accepted == 1 && e.broken && Count(e.log, 0) == 2
  {
    e := new Element(id => [Drop]);
    var ok := e.MessageSend(0, true);
    FlattenOne(e.lists, 0, LISTS);
    assert Flatten(e.lists, LISTS) == [0] && [0][..0] == [];
    assert AllSafe(e.callbacks, [0], 0);
    e.Reply(0, 0);
  }
}
