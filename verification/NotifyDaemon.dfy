/** The notification daemon: open list, history window, expiry timers, and the reference
    count they share (src/bin/notification_daemon.c, the caller's side in
    src/lib/notification/daemon.c, the count in src/lib/notification/notification.c). */
module NotifyDaemon {
  import opened Prelude
  import opened Lists

  const INT_MAX := 0x7fff_ffff

  datatype Reason = Expired | Dismissed | Requested | Undefined

  /** A NotificationClosed signal. */
  datatype Closed = Closed(id: int, reason: Reason)

  class Note {
    const id: int                    // given once, before the note is shown
    var refcount: int
    var closed: bool
    ghost var freed: bool

    /** e_notification_new: the caller holds the only reference. */
    constructor (id: int)
      ensures this.id == id && refcount == 1 && !closed && !freed
    {
      this.id, refcount, closed, freed := id, 1, false, false;
    }

    method Ref()
      requires !freed
      modifies `refcount
      ensures refcount == old(refcount) + 1
    {
      refcount := refcount + 1;
    }

    /** e_notification_unref: the last reference frees, and only a note that is not freed. */
    method Unref()
      requires !freed && refcount > 0
      modifies `refcount, `freed
      ensures refcount == old(refcount) - 1 && (freed <==> refcount == 0)
    {
      refcount := refcount - 1;
      if refcount == 0 {
        freed := true;
      }
    }
  }

  ghost function SignalIds(signals: seq<Closed>): set<int> {
    if signals == [] then {} else SignalIds(signals[..|signals| - 1]) + {signals[|signals| - 1].id}
  }

  /** No id is announced twice. */
  ghost predicate Once(signals: seq<Closed>) {
    signals == [] ||
    (Once(signals[..|signals| - 1]) && signals[|signals| - 1].id !in SignalIds(signals[..|signals| - 1]))
  }

  lemma {:induction false} SignalIdsAt(signals: seq<Closed>, i: nat)
    requires i < |signals|
    ensures signals[i].id in SignalIds(signals)
  {
    if i < |signals| - 1 {
      SignalIdsAt(signals[..|signals| - 1], i);
    }
  }

  lemma {:induction false} OnceMeans(signals: seq<Closed>, i: nat, j: nat)
    requires Once(signals) && i < j < |signals|
    ensures signals[i].id != signals[j].id
  {
    var before := signals[..|signals| - 1];
    if j < |signals| - 1 {
      OnceMeans(before, i, j);
    } else {
      SignalIdsAt(before, i);
    }
  }

  lemma SignalsPush(signals: seq<Closed>, c: Closed)
    ensures SignalIds(signals + [c]) == SignalIds(signals) + {c.id}
    ensures Once(signals + [c]) <==> Once(signals) && c.id !in SignalIds(signals)
  {
    assert (signals + [c])[..|signals|] == signals;
  }

  /** Ids run from 1 without gaps in the order of showing. */
  ghost predicate Numbered(shown: seq<Note>) {
    shown == [] || (shown[|shown| - 1].id == |shown| && Numbered(shown[..|shown| - 1]))
  }

  lemma {:induction false} NumberedAt(shown: seq<Note>, k: nat)
    requires Numbered(shown) && k < |shown|
    ensures shown[k].id == k + 1 && shown[k] in Elements(shown)
  {
    if k < |shown| - 1 {
      NumberedAt(shown[..|shown| - 1], k);
    }
  }

  lemma {:induction false} ShownById(shown: seq<Note>, n: Note)
    requires Numbered(shown) && n in Elements(shown)
    ensures 1 <= n.id <= |shown| && shown[n.id - 1] == n
  {
    if shown[|shown| - 1] != n {
      ShownById(shown[..|shown| - 1], n);
    }
  }

  /** The ids of the closed notes among those shown. */
  ghost function ClosedIds(shown: seq<Note>, gone: set<Note>): set<int> {
    if shown == [] then {} else
      var before, n := ClosedIds(shown[..|shown| - 1], gone), shown[|shown| - 1];
      if n in gone then before + {n.id} else before
  }

  lemma {:induction false} ClosedIdsHas(shown: seq<Note>, gone: set<Note>, id: int)
    requires Numbered(shown)
    ensures id in ClosedIds(shown, gone) <==> 1 <= id <= |shown| && shown[id - 1] in gone
  {
    if shown != [] {
      ClosedIdsHas(shown[..|shown| - 1], gone, id);
    }
  }

  lemma ClosedIdsMore(shown: seq<Note>, gone: set<Note>, n: Note)
    requires Numbered(shown) && n in Elements(shown)
    ensures ClosedIds(shown, gone + {n}) == ClosedIds(shown, gone) + {n.id}
  {
    ShownById(shown, n);
    forall id ensures id in ClosedIds(shown, gone + {n}) <==> id in ClosedIds(shown, gone) + {n.id} {
      ClosedIdsHas(shown, gone + {n}, id);
      ClosedIdsHas(shown, gone, id);
      if 1 <= id <= |shown| {
        NumberedAt(shown, id - 1);
      }
    }
  }

  /** Exactly the closed notes were announced, each once. */
  ghost predicate Announced(shown: seq<Note>, gone: set<Note>, signals: seq<Closed>) {
    Once(signals) && SignalIds(signals) == ClosedIds(shown, gone)
  }

  lemma AnnouncedShow(shown: seq<Note>, gone: set<Note>, signals: seq<Closed>, n: Note)
    requires Announced(shown, gone, signals) && n !in gone
    ensures Announced(shown + [n], gone, signals)
  {
    assert (shown + [n])[..|shown|] == shown;
  }

  lemma AnnouncedClose(shown: seq<Note>, gone: set<Note>, signals: seq<Closed>, n: Note, reason: Reason)
    requires Announced(shown, gone, signals) && Numbered(shown) && n in Elements(shown) && n !in gone
    ensures Announced(shown, gone + {n}, signals + [Closed(n.id, reason)])
  {
    ShownById(shown, n);
    SignalsPush(signals, Closed(n.id, reason));
    ClosedIdsMore(shown, gone, n);
    ClosedIdsHas(shown, gone, n.id);
  }

  lemma {:induction false} KeepHas(hs: seq<Note>, dead: set<Note>, n: Note)
    ensures n in Keep(hs, dead) <==> n in Elements(hs) && n !in dead
  {
    if hs != [] {
      KeepHas(hs[..|hs| - 1], dead, n);
    }
  }

  /** The notes shown from number start on. */
  ghost function Since(shown: seq<Note>, start: int): seq<Note> {
    if |shown| < start || shown == [] then [] else Since(shown[..|shown| - 1], start) + [shown[|shown| - 1]]
  }

  lemma {:induction false} SinceMeans(shown: seq<Note>, start: int)
    requires 1 <= start <= |shown| + 1
    ensures Since(shown, start) == shown[start - 1..]
  {
    if start <= |shown| {
      SinceMeans(shown[..|shown| - 1], start);
    }
  }

  /** The first note of the window. */
  lemma SinceFirst(shown: seq<Note>, start: int, window: seq<Note>)
    requires window == Since(shown, start) && 1 <= start <= |shown| && Numbered(shown)
    ensures window != [] && window[0] in Elements(shown) && window[0].id == start
    ensures window[1..] == Since(shown, start + 1)
    ensures forall n :: n in Elements(shown) && n.id == start ==> n == window[0]
  {
    SinceMeans(shown, start);
    SinceMeans(shown, start + 1);
    NumberedAt(shown, start - 1);
    forall n | n in Elements(shown) && n.id == start ensures n == window[0] {
      ShownById(shown, n);
    }
  }

  lemma SinceSize(shown: seq<Note>, start: int)
    requires 1 <= start <= |shown| + 1
    ensures |Since(shown, start)| == |shown| + 1 - start
  {
    SinceMeans(shown, start);
  }

  class Daemon {
    var openNotes: seq<Note>
    var history: seq<Note>
    var timers: set<Note>            // notes whose one-shot timer has not fired
    var historyStart: int
    var nextId: int
    const maxHistory: nat
    ghost var shown: seq<Note>       // every note ever shown, in order
    ghost var known: set<Note>       // the same as a set
    ghost var gone: set<Note>        // those closed
    ghost var held: set<Note>        // those the caller of cb_notify still has a reference to
    ghost var signals: seq<Closed>

    ghost function Holders(n: Note): int
      reads `gone, `historyStart, `timers, `held
    {
      (if n in gone then 0 else 1) + (if n.id >= historyStart then 1 else 0) + (if n in timers then 1 else 0)
      + (if n in held then 1 else 0)
    }

    /** A note is counted once for the open list, the history, its timer and the caller of
        cb_notify; it is freed when all have let go, and an open note still has its timer once
        that caller is done with it. */
    ghost predicate Counted(n: Note)
      reads `gone, `historyStart, `timers, `held, n
    {
      && n.refcount == Holders(n) && (n.freed <==> n.refcount == 0)
      && (n.closed <==> n in gone)
      && (n !in gone ==> n in timers || n in held)
    }

    ghost predicate AllCounted()
      reads `gone, `historyStart, `timers, `held, `known, known
    {
      gone <= known && timers <= known && held <= known && forall n :: n in known ==> Counted(n)
    }

    /** The open list is what was shown and not closed; the history is the latest part of what
        was shown. */
    ghost predicate Listed()
      reads `shown, `known, `gone, `openNotes, `history, `historyStart, `nextId
    {
      && Numbered(shown) && known == Elements(shown) && openNotes == Keep(shown, gone)
      && nextId == |shown| + 1 && 1 <= historyStart <= nextId && history == Since(shown, historyStart)
    }

    /** Exactly what was closed was announced. */
    ghost predicate Told()
      reads `shown, `gone, `signals
    {
      Announced(shown, gone, signals)
    }

    ghost predicate Core()
      reads this, known
    {
      Listed() && AllCounted()
    }

    ghost predicate Valid()
      reads this, known
    {
      Core() && held == {} && Told()
    }

    constructor (maxHistory: nat)
      ensures Valid() && openNotes == history == shown == [] && signals == [] && nextId == 1 && known == {}
      ensures this.maxHistory == maxHistory
    {
      openNotes, history, timers, historyStart, nextId := [], [], {}, 1, 1;
      this.maxHistory := maxHistory;
      shown, known, gone, held, signals := [], {}, {}, {}, [];
      new;
      assert Keep(shown, gone) == [] && Elements(shown) == {};
      assert SignalIds(signals) == {} == ClosedIds(shown, gone);
    }

    /** The open list and the history with n at their ends. */
    method List(n: Note)
      requires Listed() && Told() && n !in known && n !in gone && n.id == nextId
      modifies `openNotes, `history, `nextId, `shown, `known
      ensures Listed() && Told() && |history| == |old(history)| + 1 && history[|old(history)|] == n
      ensures |shown| == |old(shown)| + 1 && shown[..|old(shown)|] == old(shown) && shown[|old(shown)|] == n
      ensures known == old(known) + {n}
    {
      AnnouncedShow(shown, gone, signals, n);
      openNotes := openNotes + [n];
      history := history + [n];
      nextId := nextId + 1;
      shown := shown + [n];
      known := known + {n};
      assert shown[..|shown| - 1] == old(shown);
    }

    /** daemon_note_show, up to the adjustment of the history: the note joins the open list and
        the history, one reference each. */
    method Enlist(n: Note)
      requires Core() && Told() && n !in known && n.id == nextId && n.refcount == 1 && !n.closed && !n.freed
      modifies `openNotes, `history, `nextId, `shown, `known, `held, n`refcount
      ensures Core() && Told() && timers == old(timers)
      ensures |history| == |old(history)| + 1 && history[|old(history)|] == n
      ensures |shown| == |old(shown)| + 1 && shown[..|old(shown)|] == old(shown) && shown[|old(shown)|] == n
      ensures known == old(known) + {n} && held == old(held) + {n}
    {
      List(n);
      Join(n);
    }

    /** References for the open list and the history, beside the caller's. */
    method Join(n: Note)
      requires n in known && n !in gone && n !in timers && n.id >= historyStart
      requires n.refcount == 1 && !n.closed && !n.freed
      requires gone <= known && timers <= known && held <= known && forall x :: x in known && x != n ==> Counted(x)
      modifies `held, n`refcount
      ensures AllCounted() && held == old(held) + {n}
    {
      n.Ref();
      n.Ref();
      held := held + {n};
    }

    /** The history adjustment of daemon_note_show: one note too many leaves at the front. */
    method Trim()
      requires Core()
      modifies `history, `historyStart, known`refcount, known`freed
      ensures Core() && |history| <= if |old(history)| > maxHistory then |old(history)| - 1 else |old(history)|
      ensures historyStart == if |old(history)| > maxHistory then old(historyStart) + 1 else old(historyStart)
    {
      if |history| > maxHistory {
        SinceSize(shown, historyStart);
        SinceFirst(shown, historyStart, history);
        var first := history[0];
        history := history[1..];
        historyStart := first.id + 1;
        first.Unref();
      }
    }

    /** The timer holds a reference of its own. */
    method StartTimer(n: Note)
      requires Core() && n in known && n !in timers && !n.freed
      modifies `timers, n`refcount
      ensures Core() && timers == old(timers) + {n}
    {
      n.Ref();
      timers := timers + {n};
    }

    /** daemon_note_show: the note is listed, the history adjusted, and the timer started with
        a reference of its own. */
    method NoteShow(n: Note)
      requires Valid() && n !in known && n.id == nextId && n.refcount == 1 && !n.closed && !n.freed
      modifies `openNotes, `history, `historyStart, `timers, `nextId, `shown, `known, `held,
               known`refcount, known`freed, n`refcount, n`freed
      ensures Core() && held == {n} && n !in gone && Told()
      ensures |shown| == |old(shown)| + 1 && shown[..|old(shown)|] == old(shown) && shown[|old(shown)|] == n
      ensures known == old(known) + {n} && timers == old(timers) + {n}
      ensures |old(history)| <= maxHistory ==> |history| <= maxHistory
      ensures historyStart == old(historyStart) + if |old(history)| >= maxHistory then 1 else 0
    {
      Enlist(n);
      Trim();
      StartTimer(n);
    }

    /** method_notify with cb_notify: the note gets the next id, whatever it says it replaces,
        is shown, and the reference that came with it is given back. Nothing is closed. */
    method Notify(replacesId: int) returns (id: int)
      requires Valid() && nextId < INT_MAX
      modifies `openNotes, `history, `historyStart, `timers, `nextId, `shown, `known, `held, known`refcount, known`freed
      ensures Valid() && id == old(nextId) && nextId == id + 1 && signals == old(signals) && gone == old(gone)
      ensures (id == replacesId <==> replacesId == old(nextId)) && (old(IsOpen(replacesId)) ==> IsOpen(replacesId))
      ensures |shown| == |old(shown)| + 1 && shown[..|old(shown)|] == old(shown)
      ensures known == old(known) + {shown[|old(shown)|]} && timers == old(timers) + {shown[|old(shown)|]}
      ensures fresh(known - old(known))
      ensures |old(history)| <= maxHistory ==> |history| <= maxHistory
      ensures historyStart == old(historyStart) + if |old(history)| >= maxHistory then 1 else 0
    {
      if replacesId != 0 {
        // nothing is done about the note to be replaced
      }
      id := nextId;
      var n := new Note(id);
      NoteShow(n);
      GiveBack(n);
    }

    /** The reference of the caller of cb_notify is given back. */
    method GiveBack(n: Note)
      requires Core() && n in known && held == {n} && n in timers
      modifies `held, n`refcount, n`freed
      ensures Core() && held == {}
    {
      held := {};
      n.Unref();
    }

    /** daemon_note_open_find. */
    method OpenFind(id: int) returns (r: Option<Note>)
      ensures r.Some? ==> r.value in openNotes && r.value.id == id
      ensures r.None? ==> forall k :: 0 <= k < |openNotes| ==> openNotes[k].id != id
    {
      for i := 0 to |openNotes|
        invariant forall k :: 0 <= k < i ==> openNotes[k].id != id
      {
        if openNotes[i].id == id {
          return Some(openNotes[i]);
        }
      }
      r := None;
    }

    /** The open list without n, and the signal. */
    method Unlist(n: Note, reason: Reason)
      requires Listed() && Told() && n in known && n !in gone
      modifies `openNotes, `gone, `signals
      ensures Listed() && Told()
      ensures gone == old(gone) + {n} && signals == old(signals) + [Closed(n.id, reason)]
    {
      AnnouncedClose(shown, gone, signals, n, reason);
      KeepTwice(shown, gone, {n});
      openNotes := Keep(openNotes, {n});
      signals := signals + [Closed(n.id, reason)];
      gone := gone + {n};
    }

    /** daemon_note_close for a note that is on the open list. */
    method CloseOpen(n: Note, reason: Reason)
      requires Valid() && n in known && n !in gone
      modifies `openNotes, `gone, `signals, n`refcount, n`closed, n`freed
      ensures Valid()
      ensures gone == old(gone) + {n} && signals == old(signals) + [Closed(n.id, reason)]
    {
      Unlist(n, reason);
      n.closed := true;
      n.Unref();
    }

    /** daemon_note_close. */
    method NoteClose(n: Note, reason: Reason)
      requires Valid() && n in known
      modifies `openNotes, `gone, `signals, n`refcount, n`closed, n`freed
      ensures Valid() && gone == old(gone) + {n}
      ensures signals == if n in old(gone) then old(signals) else old(signals) + [Closed(n.id, reason)]
    {
      KeepHas(shown, gone, n);
      if n in openNotes {
        CloseOpen(n, reason);
      }
    }

    /** cb_note_close_timer: the timer closes an open note, lets go of it and is gone. */
    method TimerFires(n: Note)
      requires Valid() && n in timers
      modifies `openNotes, `gone, `signals, `timers, n`refcount, n`closed, n`freed
      ensures Valid() && timers == old(timers) - {n} && gone == old(gone) + {n}
      ensures signals == if n in old(gone) then old(signals) else old(signals) + [Closed(n.id, Expired)]
    {
      if !n.closed {
        NoteClose(n, Expired);
      }
      LetGo(n);
    }

    /** A timer that has fired lets go of its note. */
    method LetGo(n: Note)
      requires Core() && n in timers && n in gone
      modifies `timers, n`refcount, n`freed
      ensures Core() && timers == old(timers) - {n}
    {
      timers := timers - {n};
      n.Unref();
    }

    ghost predicate IsOpen(id: int)
      reads this
    {
      1 <= id <= |shown| && shown[id - 1] !in gone
    }

    /** cb_close_notification, for any id. */
    method CloseNotification(id: int)
      requires Valid()
      modifies `openNotes, `gone, `signals, known`refcount, known`closed, known`freed
      ensures Valid()
      ensures old(IsOpen(id)) ==>
                gone == old(gone) + {shown[id - 1]} && signals == old(signals) + [Closed(id, Requested)]
      ensures !old(IsOpen(id)) ==> gone == old(gone) && signals == old(signals)
    {
      var r := OpenFind(id);
      if r.Some? {
        KeepHas(shown, gone, r.value);
        ShownById(shown, r.value);
        NoteClose(r.value, Requested);
      } else if IsOpen(id) {
        NumberedAt(shown, id - 1);
        KeepHas(shown, gone, shown[id - 1]);
      }
    }
  }

  /** What the invariant says of any one note: it is on the open list exactly while its closed
      flag is unset, an open note has a timer that has not fired, and it is freed exactly when
      the open list, the history window and the timer have all let go. */
  lemma NoteMeaning(d: Daemon, n: Note)
    requires d.Valid() && n in d.known
    ensures n in d.openNotes <==> !n.closed
    ensures !n.closed ==> n in d.timers
    ensures n.freed <==> n.closed && n.id < d.historyStart && n !in d.timers
    ensures n in d.history <==> n.id >= d.historyStart
  {
    KeepHas(d.shown, d.gone, n);
    ShownById(d.shown, n);
    SinceMeans(d.shown, d.historyStart);
    if n.id >= d.historyStart {
      assert d.history[n.id - d.historyStart] == n;
    }
    forall k | 0 <= k < |d.history| ensures d.history[k].id >= d.historyStart {
      NumberedAt(d.shown, d.historyStart - 1 + k);
    }
  }

  /** The history is the window of ids historyStart .. nextId - 1, in order. */
  lemma HistoryWindow(d: Daemon, k: nat)
    requires d.Valid() && k < |d.history|
    ensures d.history[k].id == d.historyStart + k && |d.history| == d.nextId - d.historyStart
  {
    SinceMeans(d.shown, d.historyStart);
    NumberedAt(d.shown, d.historyStart - 1 + k);
  }

  /** What happens to the daemon: a Notify call, a CloseNotification call for any id, or the
      firing of one of the running timers. */
  datatype Step = NotifyStep(replacesId: int) | CloseStep(id: int) | TimerStep(id: int)

  /** How many notes were shown, which ids are closed, whose timers run, and what was announced. */
  datatype Run = Run(shown: nat, closed: set<int>, timers: set<int>, signals: seq<Closed>)

  const START := Run(0, {}, {}, [])

  ghost function Do(r: Run, step: Step): Run {
    match step
    case NotifyStep(_) => r.(shown := r.shown + 1, timers := r.timers + {r.shown + 1})
    case CloseStep(id) => if 1 <= id <= r.shown then CloseId(r, id, Requested) else r
    case TimerStep(id) => if id in r.timers then CloseId(r, id, Expired).(timers := r.timers - {id}) else r
  }

  ghost function CloseId(r: Run, id: int, reason: Reason): Run {
    if id in r.closed then r else r.(closed := r.closed + {id}, signals := r.signals + [Closed(id, reason)])
  }

  ghost function Play(steps: seq<Step>): Run {
    if steps == [] then START else Do(Play(steps[..|steps| - 1]), steps[|steps| - 1])
  }

  /** The daemon has come to r. */
  ghost predicate At(d: Daemon, r: Run)
    reads d, d.known
  {
    && |d.shown| == r.shown && d.signals == r.signals
    && (forall n :: n in d.known ==> (n in d.gone <==> n.id in r.closed) && (n in d.timers <==> n.id in r.timers))
    && (forall id :: id in r.closed ==> 1 <= id <= r.shown)
    && (forall id :: id in r.timers ==> 1 <= id <= r.shown)
  }

  lemma IdsInRange(d: Daemon)
    requires d.Core()
    ensures forall n :: n in d.known ==> 1 <= n.id <= |d.shown|
  {
    forall n | n in d.known ensures 1 <= n.id <= |d.shown| {
      ShownById(d.shown, n);
    }
  }

  /** The note of a shown id, and no other, has it. */
  lemma NoteOf(d: Daemon, id: int)
    requires d.Core() && 1 <= id <= |d.shown|
    ensures d.shown[id - 1] in d.known && d.shown[id - 1].id == id
    ensures forall n :: n in d.known && n.id == id ==> n == d.shown[id - 1]
  {
    NumberedAt(d.shown, id - 1);
    forall n | n in d.known && n.id == id ensures n == d.shown[id - 1] {
      ShownById(d.shown, n);
    }
  }

  method PlayNotify(d: Daemon, replacesId: int, ghost r: Run)
    requires d.Valid() && At(d, r) && d.nextId < INT_MAX
    modifies d, d.known
    ensures d.Valid() && At(d, Do(r, NotifyStep(replacesId))) && d.nextId == old(d.nextId) + 1
    ensures old(d.known) <= d.known && fresh(d.known - old(d.known))
    ensures |old(d.history)| <= d.maxHistory ==> |d.history| <= d.maxHistory
  {
    IdsInRange(d);
    var _ := d.Notify(replacesId);
    NumberedAt(d.shown, r.shown);
  }

  method PlayClose(d: Daemon, id: int, ghost r: Run)
    requires d.Valid() && At(d, r)
    modifies d, d.known
    ensures d.Valid() && At(d, Do(r, CloseStep(id))) && d.known == old(d.known) && d.nextId == old(d.nextId)
    ensures d.history == old(d.history)
  {
    if 1 <= id <= |d.shown| {
      NoteOf(d, id);
    }
    d.CloseNotification(id);
  }

  method PlayTimer(d: Daemon, id: int, ghost r: Run)
    requires d.Valid() && At(d, r)
    modifies d, d.known
    ensures d.Valid() && At(d, Do(r, TimerStep(id))) && d.known == old(d.known) && d.nextId == old(d.nextId)
    ensures d.history == old(d.history)
  {
    if 1 <= id <= |d.shown| {
      NoteOf(d, id);
    }
    IdsInRange(d);
    if exists n :: n in d.timers && n.id == id {
      var n :| n in d.timers && n.id == id;
      d.TimerFires(n);
    }
  }

  method PlayStep(d: Daemon, step: Step, ghost r: Run)
    requires d.Valid() && At(d, r) && d.nextId < INT_MAX
    modifies d, d.known
    ensures d.Valid() && At(d, Do(r, step)) && d.nextId <= old(d.nextId) + 1
    ensures old(d.known) <= d.known && fresh(d.known - old(d.known))
    ensures |old(d.history)| <= d.maxHistory ==> |d.history| <= d.maxHistory
  {
    match step {
      case NotifyStep(replacesId) => PlayNotify(d, replacesId, r);
      case CloseStep(id) => PlayClose(d, id, r);
      case TimerStep(id) => PlayTimer(d, id, r);
    }
  }

  /** Any run: it comes to what the steps say, the invariant holds throughout, so at most one
      NotificationClosed is sent per id, the history is never longer than its bound, and a
      note is freed exactly when the open list, the history and its timer have let go of it. */
  method WholeRun(maxHistory: nat, steps: seq<Step>) returns (d: Daemon)
    requires |steps| < INT_MAX
    ensures d.Valid() && At(d, Play(steps)) && |d.history| <= maxHistory
    ensures forall i, j :: 0 <= i < j < |d.signals| ==> d.signals[i].id != d.signals[j].id
  {
    d := new Daemon(maxHistory);
    for i := 0 to |steps|
      invariant fresh(d) && fresh(d.known) && d.Valid() && d.maxHistory == maxHistory
      invariant |d.history| <= maxHistory && d.nextId <= i + 1 && At(d, Play(steps[..i]))
    {
      assert steps[..i + 1][..i] == steps[..i];
      PlayStep(d, steps[i], Play(steps[..i]));
    }
    assert steps[..|steps|] == steps;
    forall i, j | 0 <= i < j < |d.signals| ensures d.signals[i].id != d.signals[j].id {
      OnceMeans(d.signals, i, j);
    }
  }

  lemma PlayNext(steps: seq<Step>, step: Step)
    ensures Play(steps + [step]) == Do(Play(steps), step)
  {
    assert (steps + [step])[..|steps|] == steps;
  }

  /** Some call among the steps returned this id. */
  ghost predicate Returned(steps: seq<Step>, id: int) {
    steps != [] && var front := steps[..|steps| - 1];
      Returned(front, id) || (steps[|steps| - 1].NotifyStep? && id == Play(steps).shown)
  }

  /** The ids returned are those from 1 on, without a gap, and the closed ones are among them. */
  lemma {:induction false} ReturnedMeans(steps: seq<Step>)
    ensures forall id :: Returned(steps, id) <==> 1 <= id <= Play(steps).shown
    ensures forall id :: id in Play(steps).closed || id in Play(steps).timers ==> Returned(steps, id)
  {
    if steps != [] {
      ReturnedMeans(steps[..|steps| - 1]);
    }
  }

  /** A call gets the id it is to replace exactly if no call returned that id before, and every
      smaller one was returned; so never the id of a note that was shown. */
  lemma ReplacedIdIff(steps: seq<Step>, replacesId: int)
    ensures Play(steps + [NotifyStep(replacesId)]).shown == replacesId <==>
              && replacesId > 0 && !Returned(steps, replacesId)
              && forall id :: 1 <= id < replacesId ==> Returned(steps, id)
  {
    ReturnedMeans(steps);
    PlayNext(steps, NotifyStep(replacesId));
    if replacesId > Play(steps).shown + 1 {
      assert !Returned(steps, Play(steps).shown + 1);
    }
  }

  ghost predicate OpenIn(steps: seq<Step>, id: int) {
    Returned(steps, id) && id !in Play(steps).closed
  }

  /** Whatever a call is to replace: the id it returns was never returned before, every note that
      was open still is, the new one is open too, and nothing is announced. */
  lemma ReplacedStaysBeside(steps: seq<Step>, replacesId: int, id: int)
    ensures var after := steps + [NotifyStep(replacesId)];
            && !Returned(steps, Play(after).shown) && OpenIn(after, Play(after).shown)
            && (OpenIn(steps, id) ==> OpenIn(after, id))
            && Play(after).signals == Play(steps).signals && Play(after).closed == Play(steps).closed
  {
    ReturnedMeans(steps);
    ReturnedMeans(steps + [NotifyStep(replacesId)]);
    PlayNext(steps, NotifyStep(replacesId));
  }

  /** A note shown and then replaced stays open under its id, without a signal, beside the new
      one. */
  method ReplacedNoteStaysOpen() returns (d: Daemon, first: int, second: int)
    ensures d.Valid() && first == 1 && second == 2 && d.signals == [] && d.IsOpen(first) && d.IsOpen(second)
  {
    d := new Daemon(5);
    first := d.Notify(0);
    second := d.Notify(first);
    NumberedAt(d.shown, 0);
    NumberedAt(d.shown, 1);
  }
}
