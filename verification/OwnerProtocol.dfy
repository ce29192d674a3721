/** Handlers, bus and the two first-in first-out queues between them: when does a
    handler's idea of the owner agree with the bus?

    The bus serves requests in order and puts owner changes, GetNameOwner replies
    and routed signals into one queue to the client. An owner change is routed only
    while some match rule of this connection asks for it. */
module OwnerProtocol {
  import opened Prelude
  import opened OwnerTracking

  datatype Request =
    | Watch(id: nat, name: string)     // AddMatch for NameOwnerChanged of one name
    | Query(id: nat, name: string)     // GetNameOwner
    | Unwatch(id: nat)                 // RemoveMatch of the NameOwnerChanged rule
    | Unmatch(id: nat)                 // RemoveMatch of the handler's own rule

  /** stamp records who owned which name when the bus sent the signal. */
  datatype Msg =
    | Sig(sg: Signal, stamp: map<string, string>)
    | NameReply(id: nat, owner: Option<string>)

  datatype State = State(
    owners: map<string, string>,
    watches: map<nat, string>,         // NameOwnerChanged rules by handler
    wide: set<nat>,                    // handlers whose own rule admits every NameOwnerChanged
    toBus: seq<Request>,
    toClient: seq<Msg>,
    handlers: map<nat, View>,
    nextId: nat)

  datatype Event =
    | Own(name: string, owner: Option<string>)
    | Emit(sg: Signal)
    | Serve
    | Deliver
    | Add(v: View, wide: bool)
    | Mark(id: nat)
    | Remove(id: nat)

  const INIT := State(map[], map[], {}, [], [], map[], 0)

  /** Some rule of this connection makes the bus route owner changes of the name. */
  predicate Covered(s: State, name: string) {
    s.wide != {} || name in s.watches.Values
  }

  function BusOwns(s: State, name: string, owner: Option<string>): State {
    var owners := if owner.Some? then s.owners[name := owner.value] else s.owners - {name};
    var from := if name in s.owners then s.owners[name] else "";
    var to := if owner.Some? then owner.value else "";
    var news := if Covered(s, name) then [Sig(ChangeSignal(name, from, to), owners)] else [];
    s.(owners := owners, toClient := s.toClient + news)
  }

  function BusServes(s: State, r: Request): State {
    match r
    case Watch(id, name) => s.(watches := s.watches[id := name])
    case Query(id, name) => s.(toClient := s.toClient + [NameReply(id, Lookup(s.owners, name))])
    case Unwatch(id) => s.(watches := s.watches - {id})
    case Unmatch(id) => s.(wide := s.wide - {id})
  }

  /** What one message does to one handler. */
  function Receive(v: View, id: nat, m: Msg): View {
    match m
    case Sig(sg, _) => OnSignal(v, sg)
    case NameReply(id', owner) => if id == id' && v.pending then OnReply(v, owner) else v
  }

  function ClientReceives(s: State, m: Msg): State {
    s.(handlers := map id | id in s.handlers :: Receive(s.handlers[id], id, m))
  }

  /** e_dbus_signal_handler_add: the AddMatch of the handler's own rule blocks, so every
      earlier request has been served; the other two requests are only queued. */
  function ClientAdds(s: State, v: View, wide: bool): State {
    var id := s.nextId;
    s.(handlers := s.handlers[id := v],
       wide := if wide then s.wide + {id} else s.wide,
       toBus := if Tracked(v) then s.toBus + [Watch(id, v.sender.value), Query(id, v.sender.value)] else s.toBus,
       nextId := id + 1)
  }

  function ClientRemoves(s: State, id: nat): State
    requires id in s.handlers
  {
    s.(handlers := s.handlers - {id},
       toBus := s.toBus + [Unmatch(id)] + if Tracked(s.handlers[id]) then [Unwatch(id)] else [])
  }

  predicate Fresh(v: View) {
    v == NewView(v.sender, v.path, v.iface, v.member, v.callback)
  }

  /** Events that cannot happen in s leave it unchanged. */
  function Step(s: State, e: Event): State {
    match e
    case Own(name, owner) =>
      if owner != Lookup(s.owners, name) && WellKnown(name) && (owner.Some? ==> IsUnique(owner.value))
      then BusOwns(s, name, owner) else s
    case Emit(sg) =>
      if IsUnique(sg.sender) then s.(toClient := s.toClient + [Sig(sg, s.owners)]) else s
    case Serve =>
      if s.toBus != [] then BusServes(s.(toBus := s.toBus[1..]), s.toBus[0]) else s
    case Deliver =>
      if s.toClient != [] then ClientReceives(s.(toClient := s.toClient[1..]), s.toClient[0]) else s
    case Add(v, wide) =>
      if s.toBus == [] && Fresh(v) then ClientAdds(s, v, wide) else s
    case Mark(id) =>
      if id in s.handlers then s.(handlers := s.handlers[id := OnDelete(s.handlers[id])]) else s
    case Remove(id) =>
      if id in s.handlers && s.handlers[id].deleteMe then ClientRemoves(s, id) else s
  }

  function Run(s: State, es: seq<Event>): State
    decreases |es|
  {
    if es == [] then s else Run(Step(s, es[0]), es[1..])
  }

  // ----- what the undelivered messages will do to a handler

  function Replay(v: View, id: nat, ms: seq<Msg>): (r: View)
    ensures r.sender == v.sender && r.deleteMe == v.deleteMe
  {
    if ms == [] then v else Receive(Replay(v, id, ms[..|ms| - 1]), id, ms[|ms| - 1])
  }

  /** A handler that knows its owner while handling m has the owner m was stamped with. */
  predicate Timely(v: View, m: Msg) {
    m.Sig? && v.sender.Some? ==> v.pending || v.owner == Lookup(m.stamp, v.sender.value)
  }

  predicate AllTimely(v: View, id: nat, ms: seq<Msg>) {
    ms == [] || (AllTimely(v, id, ms[..|ms| - 1]) && Timely(Replay(v, id, ms), ms[|ms| - 1]))
  }

  lemma {:induction false} ReplayHead(v: View, id: nat, ms: seq<Msg>)
    requires ms != []
    ensures Replay(v, id, ms) == Replay(Receive(v, id, ms[0]), id, ms[1..])
  {
    if |ms| > 1 {
      var front := ms[..|ms| - 1];
      ReplayHead(v, id, front);
      assert front[1..] == ms[1..][..|ms| - 2];
    } else {
      assert Replay(v, id, ms) == Receive(Replay(v, id, []), id, ms[0]);
    }
  }

  lemma {:induction false} AllTimelyHead(v: View, id: nat, ms: seq<Msg>)
    requires ms != [] && AllTimely(v, id, ms)
    ensures Timely(Receive(v, id, ms[0]), ms[0])
    ensures AllTimely(Receive(v, id, ms[0]), id, ms[1..])
  {
    ReplayHead(v, id, ms);
    if |ms| > 1 {
      var front := ms[..|ms| - 1];
      AllTimelyHead(v, id, front);
      assert front[1..] == ms[1..][..|ms| - 2];
    } else {
      assert Replay(v, id, ms) == Receive(Replay(v, id, []), id, ms[0]);
    }
  }

  /** The owner announced by the last undelivered change of the name; None when there is
      no such change or it announces that nobody owns the name. */
  function LastAnnounced(ms: seq<Msg>, name: string): Option<string> {
    if ms == [] then None else
      var m := ms[|ms| - 1];
      if m.Sig? && IsOwnerChange(m.sg) && ArgsReadable(m.sg) && m.sg.args[0] == name
      then NonEmpty(m.sg.args[2])
      else LastAnnounced(ms[..|ms| - 1], name)
  }

  /** A new handler with no reply under way replays to the last announced owner. */
  lemma {:induction false} ReplayOfNew(v: View, id: nat, ms: seq<Msg>)
    requires Tracked(v) && !v.deleteMe && v.pending && v.owner.None?
    requires forall m :: m in ms && m.NameReply? ==> m.id != id
    ensures Replay(v, id, ms) == v.(owner := LastAnnounced(ms, v.sender.value))
    ensures AllTimely(v, id, ms)
  {
    if ms != [] {
      ReplayOfNew(v, id, ms[..|ms| - 1]);
      assert ms[|ms| - 1] in ms;
    }
  }

  // ----- well-formed states

  predicate Known(s: State, r: Request) {
    r.id < s.nextId
  }

  /** At most the latest handler has requests of registration under way, and they are
      ahead of everything else the client has asked for. */
  predicate Registering(q: seq<Request>, from: nat) {
    forall k :: from <= k < |q| ==> q[k].Unwatch? || q[k].Unmatch?
  }

  predicate QueueShape(q: seq<Request>) {
    || Registering(q, 0)
    || (|q| >= 1 && q[0].Query? && Registering(q, 1))
    || (|q| >= 2 && q[0].Watch? && q[1] == Query(q[0].id, q[0].name) && Registering(q, 2))
  }

  ghost predicate WellFormed(s: State) {
    && QueueShape(s.toBus)
    && (forall r :: r in s.toBus ==> Known(s, r))
    && (forall r :: r in s.toBus && (r.Unwatch? || r.Unmatch?) ==> r.id !in s.handlers)
    && (forall m :: m in s.toClient && m.NameReply? ==> m.id < s.nextId)
    && (forall id :: id in s.handlers ==> id < s.nextId)
    && (forall id :: id in s.watches ==> id < s.nextId)
    && (forall n :: n in s.owners ==> IsUnique(s.owners[n]))
  }

  lemma QueueTail(q: seq<Request>)
    requires QueueShape(q) && q != []
    ensures QueueShape(q[1..]) && forall r :: r in q[1..] ==> r in q
  {
    forall k | 0 <= k < |q[1..]| ensures q[1..][k] == q[k + 1] {}
  }

  lemma WellFormedServe(s: State)
    requires WellFormed(s)
    ensures WellFormed(Step(s, Serve))
  {
    if s.toBus != [] {
      var s', r := Step(s, Serve), s.toBus[0];
      QueueTail(s.toBus);
      assert r in s.toBus;
      forall m | m in s'.toClient && m.NameReply? ensures m.id < s.nextId {
        assert m in s.toClient || (r.Query? && m.id == r.id);
      }
    }
  }

  lemma WellFormedRemove(s: State, id: nat)
    requires WellFormed(s)
    ensures WellFormed(Step(s, Remove(id)))
  {
    var s' := Step(s, Remove(id));
    assert forall r :: r in s'.toBus && r !in s.toBus ==> (r.Unmatch? || r.Unwatch?) && r.id == id;
    assert forall k :: 0 <= k < |s.toBus| ==> s'.toBus[k] == s.toBus[k];
  }

  lemma WellFormedDeliver(s: State)
    requires WellFormed(s)
    ensures WellFormed(Step(s, Deliver))
  {
    assert forall m :: m in Step(s, Deliver).toClient ==> m in s.toClient;
  }

  lemma WellFormedOwn(s: State, n: string, o: Option<string>)
    requires WellFormed(s)
    ensures WellFormed(Step(s, Own(n, o)))
  {
    assert forall m :: m in Step(s, Own(n, o)).toClient && m.NameReply? ==> m in s.toClient;
  }

  lemma WellFormedStep(s: State, e: Event)
    requires WellFormed(s)
    ensures WellFormed(Step(s, e))
  {
    var s' := Step(s, e);
    match e {
      case Serve => WellFormedServe(s);
      case Remove(id) => WellFormedRemove(s, id);
      case Deliver => WellFormedDeliver(s);
      case Own(n, o) => WellFormedOwn(s, n, o);
      case Emit(_) => assert forall m :: m in s'.toClient && m.NameReply? ==> m in s.toClient;
      case Add(_, _) =>
      case Mark(_) =>
    }
  }

  /** The registration of the handler is still at the head of the request queue. */
  predicate Unasked(s: State, id: nat) {
    s.toBus != [] && (s.toBus[0].Query? || s.toBus[0].Watch?) && s.toBus[0].id == id
  }

  /** In other words: its GetNameOwner call has not been served yet. */
  lemma UnaskedMeansQueued(s: State, id: nat)
    requires WellFormed(s)
    ensures Unasked(s, id) <==> exists name :: Query(id, name) in s.toBus
  {
    if Unasked(s, id) {
      assert Query(id, s.toBus[0].name) in s.toBus by {
        assert s.toBus[0].Watch? ==> s.toBus[1] in s.toBus;
      }
    }
  }

  predicate Live(s: State, id: nat) {
    id in s.handlers && !s.handlers[id].deleteMe
  }

  /** The agreement a live tracked handler is meant to have with the bus: once its query is
      served, the messages under way bring it to the current owner, and every signal on the
      way is handled either before the reply or with the owner at the time it was sent. */
  predicate Agrees(s: State, id: nat) {
    Live(s, id) && Tracked(s.handlers[id]) ==>
      var v := s.handlers[id];
      var r := Replay(v, id, s.toClient);
      && AllTimely(v, id, s.toClient)
      && (!Unasked(s, id) ==> !r.pending && r.owner == Lookup(s.owners, v.sender.value))
  }

  // ----- the invariant of one handler

  /** No reply for the handler is on its way. */
  predicate NoReply(s: State, id: nat) {
    forall m :: m in s.toClient && m.NameReply? ==> m.id != id
  }

  /** Registered with the bus or not, a handler that has not been answered has no owner
      on the way unless the name is owned and further changes will be announced. */
  ghost predicate WaitingInv(s: State, id: nat, name: string, r: View)
    requires Unasked(s, id)
  {
    && r.pending && NoReply(s, id)
    && if s.toBus[0].Watch?
       then s.toBus[0] == Watch(id, name) && (r.owner.None? || (Covered(s, name) && name in s.owners))
       else s.toBus[0] == Query(id, name) && Lookup(s.watches, id) == Some(name) && (r.owner.None? || name in s.owners)
  }

  ghost predicate SettledInv(s: State, id: nat, name: string, r: View) {
    && Lookup(s.watches, id) == Some(name)
    && !r.pending && r.owner == Lookup(s.owners, name)
  }

  ghost predicate LiveInv(s: State, id: nat, name: string, v: View) {
    var r := Replay(v, id, s.toClient);
    && v.sender == Some(name) && WellKnown(name)
    && AllTimely(v, id, s.toClient)
    && if Unasked(s, id) then WaitingInv(s, id, name, r) else SettledInv(s, id, name, r)
  }

  ghost predicate Inv(s: State, id: nat, name: string) {
    id < s.nextId && (Live(s, id) ==> LiveInv(s, id, name, s.handlers[id]))
  }

  lemma InvAgrees(s: State, id: nat, name: string)
    requires Inv(s, id, name)
    ensures Agrees(s, id)
  {}

  lemma ReplayLast(v: View, id: nat, ms: seq<Msg>, m: Msg)
    ensures Replay(v, id, ms + [m]) == Receive(Replay(v, id, ms), id, m)
    ensures AllTimely(v, id, ms + [m]) <==> AllTimely(v, id, ms) && Timely(Replay(v, id, ms + [m]), m)
  {
    assert (ms + [m])[..|ms|] == ms;
  }

  lemma ReceiveChange(v: View, id: nat, name: string, from: string, to: string, stamp: map<string, string>)
    ensures Receive(v, id, Sig(ChangeSignal(name, from, to), stamp)) ==
            if !v.deleteMe && v.sender == Some(name) then v.(owner := NonEmpty(to)) else v
  {}

  lemma InvOwn(s: State, n: string, o: Option<string>, id: nat, name: string)
    requires WellFormed(s) && Inv(s, id, name)
    requires Step(s, Own(n, o)) == BusOwns(s, n, o)
    requires o.Some? ==> IsUnique(o.value)
    ensures Inv(BusOwns(s, n, o), id, name)
  {
    var s' := BusOwns(s, n, o);
    if Live(s, id) {
      var v := s.handlers[id];
      assert id in s.watches ==> s.watches[id] in s.watches.Values;
      if Covered(s, n) {
        var from := if n in s.owners then s.owners[n] else "";
        var to := if o.Some? then o.value else "";
        var m := Sig(ChangeSignal(n, from, to), s'.owners);
        assert s'.toClient == s.toClient + [m];
        ReplayLast(v, id, s.toClient, m);
        ReceiveChange(Replay(v, id, s.toClient), id, n, from, to, s'.owners);
        assert NonEmpty(to) == o == Lookup(s'.owners, n);
      } else {
        assert s'.toClient == s.toClient;
      }
    }
  }

  lemma InvEmit(s: State, sg: Signal, id: nat, name: string)
    requires WellFormed(s) && Inv(s, id, name)
    ensures Inv(Step(s, Emit(sg)), id, name)
  {
    if Live(s, id) {
      ReplayLast(s.handlers[id], id, s.toClient, Sig(sg, s.owners));
    }
  }

  lemma InvServeQuery(s: State, id: nat, name: string)
    requires WellFormed(s) && Inv(s, id, name) && Live(s, id) && s.toBus != [] && s.toBus[0].Query?
    ensures Inv(Step(s, Serve), id, name)
  {
    var s', r := Step(s, Serve), s.toBus[0];
    assert r in s.toBus;
    ReplayLast(s.handlers[id], id, s.toClient, NameReply(r.id, Lookup(s.owners, r.name)));
    if r.id == id {
      assert !Unasked(s', id);
    }
  }

  lemma InvServeRule(s: State, id: nat, name: string)
    requires WellFormed(s) && Inv(s, id, name) && Live(s, id) && s.toBus != [] && !s.toBus[0].Query?
    ensures Inv(Step(s, Serve), id, name)
  {
    var s', r := Step(s, Serve), s.toBus[0];
    assert r in s.toBus && s'.toClient == s.toClient;
    if Unasked(s, id) {
      assert r == Watch(id, name) && s'.toBus[0] == Query(id, name);
    } else {
      assert r.id != id && !Unasked(s', id);
    }
  }

  lemma InvServe(s: State, id: nat, name: string)
    requires WellFormed(s) && Inv(s, id, name)
    ensures Inv(Step(s, Serve), id, name)
  {
    if s.toBus != [] && Live(s, id) {
      if s.toBus[0].Query? {
        InvServeQuery(s, id, name);
      } else {
        InvServeRule(s, id, name);
      }
    }
  }

  lemma InvDeliver(s: State, id: nat, name: string)
    requires WellFormed(s) && Inv(s, id, name)
    ensures Inv(Step(s, Deliver), id, name)
  {
    if s.toClient != [] && Live(s, id) {
      ReplayHead(s.handlers[id], id, s.toClient);
      AllTimelyHead(s.handlers[id], id, s.toClient);
      assert s.toClient[0] in s.toClient;
      assert forall m :: m in s.toClient[1..] ==> m in s.toClient;
    }
  }

  lemma InvStep(s: State, e: Event, id: nat, name: string)
    requires WellFormed(s) && Inv(s, id, name)
    ensures Inv(Step(s, e), id, name)
  {
    match e {
      case Own(n, o) => if Step(s, e) != s { InvOwn(s, n, o, id, name); }
      case Emit(sg) => InvEmit(s, sg, id, name);
      case Serve => InvServe(s, id, name);
      case Deliver => InvDeliver(s, id, name);
      case Add(v, wide) =>
      case Mark(i) =>
      case Remove(i) =>
    }
  }

  lemma {:induction false} RunWellFormed(s: State, es: seq<Event>)
    requires WellFormed(s)
    ensures WellFormed(Run(s, es))
    decreases |es|
  {
    if es != [] {
      WellFormedStep(s, es[0]);
      RunWellFormed(Step(s, es[0]), es[1..]);
    }
  }

  lemma {:induction false} RunInv(s: State, es: seq<Event>, id: nat, name: string)
    requires WellFormed(s) && Inv(s, id, name)
    ensures Inv(Run(s, es), id, name)
    decreases |es|
  {
    if es != [] {
      WellFormedStep(s, es[0]);
      InvStep(s, es[0], id, name);
      RunInv(Step(s, es[0]), es[1..], id, name);
    }
  }

  // ----- main results

  /** The state of the whole system in which adding a handler is safe: no undelivered change
      announces an owner of its name, or the name is owned and its changes are already routed
      to this connection. An application does not see this state; KeepingAgrees gives a
      condition on what it does. */
  predicate SafeToAdd(s: State, name: string, wide: bool) {
    LastAnnounced(s.toClient, name).None? || ((wide || Covered(s, name)) && name in s.owners)
  }

  /** How an unsafe registration goes wrong: the owner leaves unannounced, then the query
      is answered with an error that does not clear the outdated owner. */
  function Escape(s: State, name: string): seq<Event> {
    if name in s.owners then [Own(name, None), Serve, Serve] else [Serve, Serve]
  }

  lemma {:induction false} RunAppend(s: State, a: seq<Event>, b: seq<Event>)
    ensures Run(s, a + b) == Run(Run(s, a), b)
    decreases |a|
  {
    if a == [] {
      assert a + b == b;
    } else {
      assert (a + b)[1..] == a[1..] + b;
      RunAppend(Step(s, a[0]), a[1..], b);
    }
  }

  lemma Run1(s: State, e: Event)
    ensures Run(s, [e]) == Step(s, e)
  {
    assert [e][1..] == [];
  }

  lemma Run2(s: State, e: Event, f: Event)
    ensures Run(s, [e, f]) == Step(Step(s, e), f)
  {
    assert [e, f][1..] == [f];
    Run1(Step(s, e), f);
  }

  /** Serving the two requests of a fresh registration for a name nobody owns. */
  lemma ServeUnowned(s: State, id: nat, name: string)
    requires s.toBus == [Watch(id, name), Query(id, name)] && name !in s.owners
    ensures Run(s, [Serve, Serve]) ==
            s.(watches := s.watches[id := name], toBus := [], toClient := s.toClient + [NameReply(id, None)])
  {
    Run2(s, Serve, Serve);
    assert s.toBus[1..] == [Query(id, name)];
    assert s.toBus[1..][1..] == [];
  }

  lemma UnownedReplyDisagrees(s: State, id: nat, name: string)
    requires s.toBus == [Watch(id, name), Query(id, name)] && name !in s.owners
    requires Live(s, id) && Tracked(s.handlers[id]) && s.handlers[id].sender == Some(name)
    requires Replay(s.handlers[id], id, s.toClient).owner.Some?
    ensures !Agrees(Run(s, [Serve, Serve]), id)
  {
    ServeUnowned(s, id, name);
    ReplayLast(s.handlers[id], id, s.toClient, NameReply(id, None));
  }

  lemma UnsafeEscape(s: State, v: View, wide: bool)
    requires WellFormed(s) && s.toBus == [] && Fresh(v) && Tracked(v)
    requires !SafeToAdd(s, v.sender.value, wide)
    ensures !Agrees(Run(Step(s, Add(v, wide)), Escape(s, v.sender.value)), s.nextId)
  {
    var id, name := s.nextId, v.sender.value;
    var s0 := Step(s, Add(v, wide));
    ReplayOfNew(v, id, s.toClient);
    if name in s.owners {
      var s1 := s0.(owners := s.owners - {name});
      assert Step(s0, Own(name, None)) == s1 by {
        assert !Covered(s0, name);
        assert s0.toClient + [] == s0.toClient;
      }
      Run1(s0, Own(name, None));
      UnownedReplyDisagrees(s1, id, name);
      RunAppend(s0, [Own(name, None)], [Serve, Serve]);
      assert [Own(name, None)] + [Serve, Serve] == Escape(s, name);
    } else {
      UnownedReplyDisagrees(s0, id, name);
    }
  }

  lemma SafeInv(s: State, v: View, wide: bool)
    requires WellFormed(s) && s.toBus == [] && Fresh(v) && Tracked(v)
    requires SafeToAdd(s, v.sender.value, wide)
    ensures Inv(Step(s, Add(v, wide)), s.nextId, v.sender.value)
  {
    ReplayOfNew(v, s.nextId, s.toClient);
  }

  /** A new handler agrees with the bus in every continuation exactly when it was safe to add it. */
  lemma AgreesForeverIffSafe(s: State, v: View, wide: bool)
    requires WellFormed(s) && s.toBus == [] && Fresh(v) && Tracked(v)
    ensures SafeToAdd(s, v.sender.value, wide) <==>
            forall es: seq<Event> :: Agrees(Run(Step(s, Add(v, wide)), es), s.nextId)
  {
    var s0 := Step(s, Add(v, wide));
    var name := v.sender.value;
    if SafeToAdd(s, name, wide) {
      SafeInv(s, v, wide);
      WellFormedStep(s, Add(v, wide));
      forall es: seq<Event> ensures Agrees(Run(s0, es), s.nextId) {
        RunInv(s0, es, s.nextId, name);
        InvAgrees(Run(s0, es), s.nextId, name);
      }
    } else {
      UnsafeEscape(s, v, wide);
    }
  }

  // ----- runs in which every handler that is removed leaves another in its place

  lemma LastAnnouncedPush(ms: seq<Msg>, m: Msg, name: string)
    ensures LastAnnounced(ms + [m], name) ==
            if m.Sig? && IsOwnerChange(m.sg) && ArgsReadable(m.sg) && m.sg.args[0] == name
            then NonEmpty(m.sg.args[2]) else LastAnnounced(ms, name)
  {
    assert (ms + [m])[..|ms|] == ms;
  }

  lemma {:induction false} LastAnnouncedTail(ms: seq<Msg>, name: string)
    requires ms != [] && LastAnnounced(ms[1..], name).Some?
    ensures LastAnnounced(ms, name) == LastAnnounced(ms[1..], name)
  {
    if |ms| > 1 {
      var front := ms[..|ms| - 1];
      assert front[1..] == ms[1..][..|ms| - 2];
      if LastAnnounced(front[1..], name).Some? {
        LastAnnouncedTail(front, name);
      }
    }
  }

  /** Every announced owner is current, or a newer change will be announced. */
  ghost predicate NewsCurrent(s: State) {
    forall n :: LastAnnounced(s.toClient, n).Some? ==> Covered(s, n) && n in s.owners
  }

  /** A handler of the name is registered. */
  ghost predicate Served(s: State, name: string) {
    exists id :: id in s.handlers && Tracked(s.handlers[id]) && s.handlers[id].sender == Some(name)
  }

  /** The bus has the owner rule of a handler, or is asked for it next. */
  predicate Asked(s: State, id: nat, name: string) {
    Lookup(s.watches, id) == Some(name) || (s.toBus != [] && s.toBus[0] == Watch(id, name))
  }

  /** No rule is the last of its kind once its handler is removed. */
  ghost predicate RulesKept(s: State) {
    && (forall r :: r in s.toBus && r.Watch? ==> r.id !in s.watches && Served(s, r.name))
    && (forall id :: id in s.watches ==> Served(s, s.watches[id]))
    && (s.wide != {} ==> exists id :: id in s.handlers && id in s.wide)
    && (forall id :: id in s.handlers && Tracked(s.handlers[id]) ==> Asked(s, id, s.handlers[id].sender.value))
  }

  /** When the handler is removed, another of its name remains, and another wide one if it is
      wide itself. */
  ghost predicate Replaceable(s: State, id: nat)
    requires id in s.handlers
  {
    && (Tracked(s.handlers[id]) ==>
          exists x :: x in s.handlers && x != id && s.handlers[x].sender == s.handlers[id].sender)
    && (id in s.wide ==> exists x :: x in s.handlers && x != id && x in s.wide)
  }

  /** An event that removes no handler, or one that is replaceable. */
  ghost predicate Keeping(s: State, e: Event) {
    e.Remove? && e.id in s.handlers && s.handlers[e.id].deleteMe ==> Replaceable(s, e.id)
  }

  ghost predicate AllKeeping(s: State, es: seq<Event>)
    decreases |es|
  {
    es == [] || (Keeping(s, es[0]) && AllKeeping(Step(s, es[0]), es[1..]))
  }

  lemma NewsOwn(s: State, n: string, o: Option<string>)
    requires NewsCurrent(s) && (o.Some? ==> IsUnique(o.value))
    ensures NewsCurrent(BusOwns(s, n, o))
  {
    var s' := BusOwns(s, n, o);
    forall x | LastAnnounced(s'.toClient, x).Some? ensures Covered(s', x) && x in s'.owners {
      if Covered(s, n) {
        var from := if n in s.owners then s.owners[n] else "";
        var to := if o.Some? then o.value else "";
        LastAnnouncedPush(s.toClient, Sig(ChangeSignal(n, from, to), s'.owners), x);
      } else {
        assert s'.toClient == s.toClient;
      }
    }
  }

  /** A name that is covered stays so while requests are served. */
  lemma CoverServe(s: State, name: string)
    requires WellFormed(s) && RulesKept(s) && s.toBus != [] && Covered(s, name)
    ensures Covered(Step(s, Serve), name)
  {
    var s', r := Step(s, Serve), s.toBus[0];
    assert r in s.toBus;
    if s.wide != {} {
      var x :| x in s.handlers && x in s.wide;
      assert x in s'.wide;
    } else {
      var id :| id in s.watches && s.watches[id] == name;
      var x :| x in s.handlers && Tracked(s.handlers[x]) && s.handlers[x].sender == Some(name);
      assert Asked(s, x, name);
      assert s'.watches[if r.Unwatch? then x else id] == name;
    }
  }

  lemma NewsServe(s: State)
    requires WellFormed(s) && NewsCurrent(s) && RulesKept(s)
    ensures NewsCurrent(Step(s, Serve))
  {
    if s.toBus != [] {
      var s', r := Step(s, Serve), s.toBus[0];
      forall x | LastAnnounced(s'.toClient, x).Some? ensures Covered(s', x) && x in s'.owners {
        if r.Query? {
          LastAnnouncedPush(s.toClient, NameReply(r.id, Lookup(s.owners, r.name)), x);
        }
        CoverServe(s, x);
      }
    }
  }

  lemma AskedServe(s: State, id: nat, name: string)
    requires WellFormed(s) && s.toBus != [] && id in s.handlers && Asked(s, id, name)
    requires s.toBus[0].Watch? ==> s.toBus[0].id !in s.watches
    ensures Asked(Step(s, Serve), id, name)
  {
    assert s.toBus[0] in s.toBus;
  }

  lemma WatchIsFirst(q: seq<Request>)
    requires QueueShape(q) && q != []
    ensures forall r :: r in q[1..] ==> !r.Watch?
  {
    forall k | 0 <= k < |q[1..]| ensures !q[1..][k].Watch? {
      assert q[1..][k] == q[k + 1];
    }
  }

  lemma WideServe(s: State)
    requires WellFormed(s) && RulesKept(s) && s.toBus != [] && Step(s, Serve).wide != {}
    ensures exists id :: id in s.handlers && id in Step(s, Serve).wide
  {
    assert s.toBus[0] in s.toBus;
    var x :| x in s.handlers && x in s.wide;
    assert x in Step(s, Serve).wide;
  }

  lemma RulesServe(s: State)
    requires WellFormed(s) && RulesKept(s)
    ensures RulesKept(Step(s, Serve))
  {
    if s.toBus != [] {
      var s', r := Step(s, Serve), s.toBus[0];
      assert r in s.toBus && s'.handlers == s.handlers && s'.toBus == s.toBus[1..];
      assert forall n :: Served(s, n) ==> Served(s', n);
      WatchIsFirst(s.toBus);
      if s'.wide != {} {
        WideServe(s);
      }
      forall id | id in s.handlers && Tracked(s.handlers[id]) ensures Asked(s', id, s.handlers[id].sender.value) {
        AskedServe(s, id, s.handlers[id].sender.value);
      }
    }
  }

  lemma RulesAdd(s: State, v: View, wide: bool)
    requires WellFormed(s) && RulesKept(s)
    ensures RulesKept(Step(s, Add(v, wide)))
  {
    var s' := Step(s, Add(v, wide));
    if s' != s {
      assert s.nextId in s'.handlers && s'.handlers[s.nextId] == v;
      forall n | Served(s, n) ensures Served(s', n) {
        var x :| x in s.handlers && Tracked(s.handlers[x]) && s.handlers[x].sender == Some(n);
        assert s'.handlers[x] == s.handlers[x];
      }
      if s.wide != {} {
        var x :| x in s.handlers && x in s.wide;
        assert x in s'.handlers && x in s'.wide;
      }
    }
  }

  lemma RulesRemove(s: State, id: nat)
    requires WellFormed(s) && RulesKept(s) && Keeping(s, Remove(id))
    ensures RulesKept(Step(s, Remove(id)))
  {
    var s' := Step(s, Remove(id));
    if s' != s {
      forall n | Served(s, n) ensures Served(s', n) {
        var x :| x in s.handlers && Tracked(s.handlers[x]) && s.handlers[x].sender == Some(n);
        if x == id {
          var y :| y in s.handlers && y != id && s.handlers[y].sender == s.handlers[id].sender;
          assert s'.handlers[y] == s.handlers[y];
        } else {
          assert s'.handlers[x] == s.handlers[x];
        }
      }
      if s.wide != {} {
        var x :| x in s.handlers && x in s.wide;
        assert exists y :: y in s'.handlers && y in s'.wide by {
          if x == id {
            var y :| y in s.handlers && y != id && y in s.wide;
            assert y in s'.handlers;
          } else {
            assert x in s'.handlers;
          }
        }
      }
      forall x | x in s'.handlers && Tracked(s'.handlers[x]) ensures Asked(s', x, s'.handlers[x].sender.value) {
        assert Asked(s, x, s.handlers[x].sender.value);
      }
    }
  }

  lemma RulesStay(s: State, s': State)
    requires RulesKept(s) && s'.toBus == s.toBus && s'.watches == s.watches && s'.wide == s.wide
    requires s'.handlers.Keys == s.handlers.Keys
    requires forall id :: id in s.handlers ==> s'.handlers[id].sender == s.handlers[id].sender
    ensures RulesKept(s')
  {
    forall n | Served(s, n) ensures Served(s', n) {
      var x :| x in s.handlers && Tracked(s.handlers[x]) && s.handlers[x].sender == Some(n);
      assert x in s'.handlers && Tracked(s'.handlers[x]);
    }
    forall id | id in s'.handlers && Tracked(s'.handlers[id]) ensures Asked(s', id, s'.handlers[id].sender.value) {
      assert Asked(s, id, s.handlers[id].sender.value);
    }
  }

  lemma SendersStay(s: State, e: Event)
    requires !e.Serve? && !e.Add? && !e.Remove?
    ensures var s' := Step(s, e);
            && s'.toBus == s.toBus && s'.watches == s.watches && s'.wide == s.wide
            && s'.handlers.Keys == s.handlers.Keys
            && forall id :: id in s.handlers ==> s'.handlers[id].sender == s.handlers[id].sender
  {}

  lemma RulesStep(s: State, e: Event)
    requires WellFormed(s) && RulesKept(s) && Keeping(s, e)
    ensures RulesKept(Step(s, e))
  {
    match e {
      case Serve => RulesServe(s);
      case Add(v, wide) => RulesAdd(s, v, wide);
      case Remove(id) => RulesRemove(s, id);
      case _ => SendersStay(s, e); RulesStay(s, Step(s, e));
    }
  }

  lemma NewsStep(s: State, e: Event)
    requires WellFormed(s) && NewsCurrent(s) && RulesKept(s)
    ensures NewsCurrent(Step(s, e))
  {
    var s' := Step(s, e);
    match e {
      case Own(n, o) => if s' != s { NewsOwn(s, n, o); }
      case Serve => NewsServe(s);
      case Emit(sg) =>
        forall x | s' != s ensures LastAnnounced(s'.toClient, x) == LastAnnounced(s.toClient, x) {
          LastAnnouncedPush(s.toClient, Sig(sg, s.owners), x);
        }
      case Deliver =>
        forall x | s.toClient != [] && LastAnnounced(s'.toClient, x).Some? ensures Covered(s', x) && x in s'.owners {
          LastAnnouncedTail(s.toClient, x);
        }
      case Add(v, wide) =>
      case Mark(_) =>
      case Remove(_) =>
    }
  }

  /** All live handlers of well-known names satisfy their invariant. */
  ghost predicate AllInv(s: State) {
    forall id :: id in s.handlers && Tracked(s.handlers[id]) ==> Inv(s, id, s.handlers[id].sender.value)
  }

  lemma AllInvStep(s: State, e: Event)
    requires WellFormed(s) && NewsCurrent(s) && AllInv(s)
    ensures AllInv(Step(s, e))
  {
    var s' := Step(s, e);
    forall id | id in s'.handlers && Tracked(s'.handlers[id]) ensures Inv(s', id, s'.handlers[id].sender.value) {
      if id in s.handlers {
        assert s'.handlers[id].sender == s.handlers[id].sender;
        InvStep(s, e, id, s.handlers[id].sender.value);
      } else {
        SafeInv(s, e.v, e.wide);
      }
    }
  }

  lemma {:induction false} KeepingInv(s: State, es: seq<Event>)
    requires WellFormed(s) && NewsCurrent(s) && RulesKept(s) && AllInv(s)
    requires AllKeeping(s, es)
    ensures AllInv(Run(s, es))
    decreases |es|
  {
    if es != [] {
      WellFormedStep(s, es[0]);
      NewsStep(s, es[0]);
      RulesStep(s, es[0]);
      AllInvStep(s, es[0]);
      KeepingInv(Step(s, es[0]), es[1..]);
    }
  }

  lemma InitInv()
    ensures WellFormed(INIT) && NewsCurrent(INIT) && RulesKept(INIT) && AllInv(INIT)
  {}

  /** In every run in which the application removes a handler only while another of the same
      name remains, and a wide one only while another wide one does, all handlers agree with
      the bus throughout. */
  lemma KeepingAgrees(es: seq<Event>, id: nat)
    requires AllKeeping(INIT, es)
    ensures Agrees(Run(INIT, es), id)
  {
    InitInv();
    KeepingInv(INIT, es);
    var s := Run(INIT, es);
    if Live(s, id) && Tracked(s.handlers[id]) {
      InvAgrees(s, id, s.handlers[id].sender.value);
    }
  }

  lemma {:induction false} NoRemovalKeeps(s: State, es: seq<Event>)
    requires forall k :: 0 <= k < |es| ==> !es[k].Remove?
    ensures AllKeeping(s, es)
    decreases |es|
  {
    if es != [] {
      NoRemovalKeeps(Step(s, es[0]), es[1..]);
    }
  }

  /** So they do in every run in which it removes none. */
  lemma NoRemovalAgrees(es: seq<Event>, id: nat)
    requires forall k :: 0 <= k < |es| ==> !es[k].Remove?
    ensures Agrees(Run(INIT, es), id)
  {
    NoRemovalKeeps(INIT, es);
    KeepingAgrees(es, id);
  }

  /** Runs from the initial state are well formed, so AgreesForeverIffSafe covers every registration. */
  lemma ReachableWellFormed(es: seq<Event>)
    ensures WellFormed(Run(INIT, es))
  {
    InitInv();
    RunWellFormed(INIT, es);
  }

  // ----- rules come and go with their handlers

  /** A handler is registered for the name, or the withdrawal of its rule is on its way. */
  predicate WatchOwned(s: State, id: nat, name: string) {
    (id in s.handlers && WellKnown(name) && s.handlers[id].sender == Some(name)) || Unwatch(id) in s.toBus
  }

  predicate WideOwned(s: State, id: nat) {
    id in s.handlers || Unmatch(id) in s.toBus
  }

  /** Every rule at the bus, or on its way there, is that of a handler, or will be withdrawn; and
      the bus has, or is asked for, the rule of every handler. */
  ghost predicate RulesOwned(s: State) {
    && (forall id :: id in s.watches ==> WatchOwned(s, id, s.watches[id]))
    && (forall r :: r in s.toBus && r.Watch? ==> r.id !in s.watches && WatchOwned(s, r.id, r.name))
    && (forall id :: id in s.wide ==> WideOwned(s, id))
    && (forall id :: id in s.handlers && Tracked(s.handlers[id]) ==> Asked(s, id, s.handlers[id].sender.value))
  }

  lemma OwnedServe(s: State)
    requires WellFormed(s) && RulesOwned(s)
    ensures RulesOwned(Step(s, Serve))
  {
    if s.toBus != [] {
      var s', r := Step(s, Serve), s.toBus[0];
      assert r in s.toBus && s.toBus == [r] + s'.toBus;
      assert s'.handlers == s.handlers;
      WatchIsFirst(s.toBus);
      forall q | q in s.toBus && q != r ensures q in s'.toBus {}
      forall id | id in s.handlers && Tracked(s.handlers[id]) ensures Asked(s', id, s.handlers[id].sender.value) {
        AskedServe(s, id, s.handlers[id].sender.value);
      }
      forall id | id in s'.watches ensures WatchOwned(s', id, s'.watches[id]) {
        assert WatchOwned(s, id, s'.watches[id]);
      }
      forall id | id in s'.wide ensures WideOwned(s', id) {
        assert WideOwned(s, id);
      }
    }
  }

  lemma OwnedRemove(s: State, id: nat)
    requires WellFormed(s) && RulesOwned(s)
    ensures RulesOwned(Step(s, Remove(id)))
  {
    var s' := Step(s, Remove(id));
    if s' != s {
      var more := [Unmatch(id)] + if Tracked(s.handlers[id]) then [Unwatch(id)] else [];
      assert s'.toBus == s.toBus + more;
      assert more[0] == Unmatch(id) && (Tracked(s.handlers[id]) ==> more[1] == Unwatch(id));
      forall q | q in s.toBus || q in more ensures q in s'.toBus {}
      assert forall q :: q in more ==> !q.Watch?;
      forall x, n | WatchOwned(s, x, n) ensures WatchOwned(s', x, n) {}
      forall x | WideOwned(s, x) ensures WideOwned(s', x) {}
      forall x | x in s'.handlers && Tracked(s'.handlers[x]) ensures Asked(s', x, s'.handlers[x].sender.value) {
        assert Asked(s, x, s.handlers[x].sender.value);
      }
    }
  }

  lemma OwnedAdd(s: State, v: View, wide: bool)
    requires WellFormed(s) && RulesOwned(s)
    ensures RulesOwned(Step(s, Add(v, wide)))
  {
    var s' := Step(s, Add(v, wide));
    if s' != s {
      forall x, n | WatchOwned(s, x, n) ensures WatchOwned(s', x, n) {}
      forall x | WideOwned(s, x) ensures WideOwned(s', x) {}
    }
  }

  lemma OwnedStay(s: State, s': State)
    requires RulesOwned(s) && s'.toBus == s.toBus && s'.watches == s.watches && s'.wide == s.wide
    requires s'.handlers.Keys == s.handlers.Keys
    requires forall id :: id in s.handlers ==> s'.handlers[id].sender == s.handlers[id].sender
    ensures RulesOwned(s')
  {
    forall x, n | WatchOwned(s, x, n) ensures WatchOwned(s', x, n) {}
    forall x | WideOwned(s, x) ensures WideOwned(s', x) {}
    forall id | id in s'.handlers && Tracked(s'.handlers[id]) ensures Asked(s', id, s'.handlers[id].sender.value) {
      assert Asked(s, id, s.handlers[id].sender.value);
    }
  }

  lemma OwnedStep(s: State, e: Event)
    requires WellFormed(s) && RulesOwned(s)
    ensures RulesOwned(Step(s, e))
  {
    match e {
      case Serve => OwnedServe(s);
      case Add(v, wide) => OwnedAdd(s, v, wide);
      case Remove(id) => OwnedRemove(s, id);
      case _ => SendersStay(s, e); OwnedStay(s, Step(s, e));
    }
  }

  lemma {:induction false} RunOwned(s: State, es: seq<Event>)
    requires WellFormed(s) && RulesOwned(s)
    ensures RulesOwned(Run(s, es))
    decreases |es|
  {
    if es != [] {
      WellFormedStep(s, es[0]);
      OwnedStep(s, es[0]);
      RunOwned(Step(s, es[0]), es[1..]);
    }
  }

  /** In every run a rule at the bus is that of a registered handler, or its withdrawal is queued.
      So once the requests are served the bus has exactly the owner rules of the handlers there
      are, one for each well-known sender, and no other rule outlives its handler. */
  lemma RulesReturned(es: seq<Event>)
    ensures var s := Run(INIT, es);
            && (forall id :: id in s.wide ==> id in s.handlers || Unmatch(id) in s.toBus)
            && (forall id :: id in s.watches ==> id in s.handlers || Unwatch(id) in s.toBus)
            && (s.toBus == [] ==>
                  && s.wide <= s.handlers.Keys && s.watches.Keys <= s.handlers.Keys
                  && forall id :: id in s.handlers ==>
                       Lookup(s.watches, id) == if Tracked(s.handlers[id]) then s.handlers[id].sender else None)
  {
    RunOwned(INIT, es);
    var s := Run(INIT, es);
    forall id | id in s.watches ensures WatchOwned(s, id, s.watches[id]) {}
    forall id | id in s.wide ensures WideOwned(s, id) {}
    forall id | s.toBus == [] && id in s.handlers && Tracked(s.handlers[id])
      ensures Lookup(s.watches, id) == s.handlers[id].sender
    {
      assert Asked(s, id, s.handlers[id].sender.value);
    }
  }

  lemma WideIsOld(s: State, id: nat)
    requires WellFormed(s) && RulesOwned(s) && id in s.wide
    ensures id < s.nextId
  {
    assert WideOwned(s, id);
    if id !in s.handlers {
      assert Known(s, Unmatch(id));
    }
  }

  /** The rule of a wide handler is at the bus from its addition to its removal, and no other
      handler gets one. */
  lemma WideWhileThere(s: State, e: Event, id: nat)
    requires WellFormed(s) && RulesOwned(s) && id in Step(s, e).handlers
    ensures id in Step(s, e).wide <==> if id in s.handlers then id in s.wide else e.Add? && e.wide
  {
    if e.Serve? && s.toBus != [] {
      assert s.toBus[0] in s.toBus;
    } else if e.Add? && id in s.wide {
      WideIsOld(s, id);
    }
  }

  // ----- from the bus to the callback

  /** A handler that agrees is called exactly for the signals its filter admits whose sender
      owned the name when the bus sent them, or that were sent while nobody owned it;
      signals handled before the reply are dropped. */
  lemma FiresExactly(s: State, id: nat)
    requires Live(s, id) && Tracked(s.handlers[id]) && Agrees(s, id)
    requires s.toClient != [] && s.toClient[0].Sig?
    ensures var m := s.toClient[0];
            var v := Step(s, Deliver).handlers[id];
            var thenOwner := Lookup(m.stamp, v.sender.value);
            Fires(v, m.sg) <==>
              v.callback && !v.pending && LocalMatch(v, m.sg) && thenOwner in {None, Some(m.sg.sender)}
  {
    AllTimelyHead(s.handlers[id], id, s.toClient);
  }

  function Delivers(n: nat): seq<Event> {
    if n == 0 then [] else [Deliver] + Delivers(n - 1)
  }

  /** What never changes while messages are handled. */
  lemma {:induction false} ReplayFilter(v: View, id: nat, ms: seq<Msg>)
    ensures var r := Replay(v, id, ms);
            r.callback == v.callback && r.path == v.path && r.iface == v.iface && r.member == v.member
  {
    if ms != [] {
      ReplayFilter(v, id, ms[..|ms| - 1]);
    }
  }

  /** Messages are delivered in the order in which the bus put them into the queue, to every
      handler. */
  lemma {:induction false} DeliverAll(s: State, id: nat, ms: seq<Msg>, tail: seq<Msg>)
    requires s.toClient == ms + tail && id in s.handlers
    ensures var t := Run(s, Delivers(|ms|));
            t.toClient == tail && id in t.handlers && t.handlers[id] == Replay(s.handlers[id], id, ms)
    decreases |ms|
  {
    if ms == [] {
      assert ms + tail == tail;
    } else {
      var s', rest := Step(s, Deliver), ms[1..];
      assert s'.toClient == rest + tail && s.toClient[0] == ms[0];
      ReplayHead(s.handlers[id], id, ms);
      DeliverAll(s', id, rest, tail);
      assert Delivers(|ms|)[1..] == Delivers(|rest|);
    }
  }

  /** From the bus to the callback: a signal emitted now reaches a handler that agrees behind
      everything queued before it, and calls it exactly if its filter lets it through and its
      sender owns the name now, or nobody does. */
  lemma EmittedIsCalled(s: State, id: nat, sg: Signal)
    requires Live(s, id) && Tracked(s.handlers[id]) && Agrees(s, id) && !Unasked(s, id) && IsUnique(sg.sender)
    ensures var v := s.handlers[id];
            var t := Run(Step(s, Emit(sg)), Delivers(|s.toClient|));
            && t.toClient == [Sig(sg, s.owners)] && id in t.handlers
            && (Fires(t.handlers[id], sg) <==>
                  && v.callback && LocalMatch(v, sg)
                  && Lookup(s.owners, v.sender.value) in {None, Some(sg.sender)})
  {
    DeliverAll(Step(s, Emit(sg)), id, s.toClient, [Sig(sg, s.owners)]);
    ReplayFilter(s.handlers[id], id, s.toClient);
  }

  /** No message is about the handler's sender. */
  predicate NoNews(name: Option<string>, ms: seq<Msg>) {
    forall k :: 0 <= k < |ms| && ms[k].Sig? && IsOwnerChange(ms[k].sg) && ArgsReadable(ms[k].sg) ==>
      name != Some(ms[k].sg.args[0])
  }

  lemma {:induction false} UntrackedStays(v: View, id: nat, ms: seq<Msg>)
    requires Fresh(v) && !Tracked(v) && NoNews(v.sender, ms)
    ensures Replay(v, id, ms) == v
  {
    if ms != [] {
      var front := ms[..|ms| - 1];
      assert forall k :: 0 <= k < |front| ==> front[k] == ms[k];
      UntrackedStays(v, id, front);
    }
  }

  /** A handler for a unique name, for the bus or for any sender waits for no answer: whatever it
      handles, it is called for exactly the signals of its sender, or of anybody if it names
      none, that its filter lets through. */
  lemma UntrackedFires(v: View, id: nat, ms: seq<Msg>, sg: Signal)
    requires Fresh(v) && !Tracked(v) && NoNews(v.sender, ms)
    ensures Fires(Replay(v, id, ms), sg) <==>
              v.callback && LocalMatch(v, sg) && (v.sender.None? || v.sender.value == sg.sender)
  {
    UntrackedStays(v, id, ms);
  }

  /** Once its unique name is gone, it takes signals of any sender. */
  lemma GoneSenderMatchesAll(v: View, id: nat, from: string, stamp: map<string, string>, sg: Signal)
    requires Fresh(v) && !Tracked(v) && v.sender.Some?
    ensures var w := Replay(v, id, [Sig(ChangeSignal(v.sender.value, from, ""), stamp)]);
            Fires(w, sg) <==> v.callback && LocalMatch(v, sg)
  {
    assert [Sig(ChangeSignal(v.sender.value, from, ""), stamp)][..0] == [];
  }

  /** Nothing left to deliver: a handler that has its answer holds the current owner. */
  lemma QuietAgreement(s: State, id: nat)
    requires Live(s, id) && Tracked(s.handlers[id]) && Agrees(s, id)
    requires s.toClient == [] && s.toBus == []
    ensures !s.handlers[id].pending && s.handlers[id].owner == Lookup(s.owners, s.handlers[id].sender.value)
  {}

  /** First half of the outdated run: the owner's arrival is still undelivered when the only
      handler of the name is deleted. */
  function ArriveAndDrop(v: View, name: string, owner: string): seq<Event> {
    [Add(v, false)] + [Serve, Serve] + [Deliver, Own(name, Some(owner))] + [Mark(0), Remove(0)] + [Serve, Serve]
  }

  lemma ArriveRun(v: View, name: string, owner: string, s: State)
    requires Fresh(v) && Tracked(v) && v.sender == Some(name) && IsUnique(owner)
    requires s == State(map[], map[0 := name], {}, [], [NameReply(0, None)], map[0 := v], 1)
    ensures Run(s, [Deliver, Own(name, Some(owner))]) ==
            s.(owners := map[name := owner], toClient := [Sig(ChangeSignal(name, "", owner), map[name := owner])],
               handlers := map[0 := v.(pending := false)])
  {
    Run2(s, Deliver, Own(name, Some(owner)));
    var s' := Step(s, Deliver);
    assert s'.handlers == map[0 := v.(pending := false)];
    assert s'.toClient == [];
    assert s'.watches[0] in s'.watches.Values;
  }

  lemma DropRun(v: View, name: string, s: State)
    requires Tracked(v) && s.handlers == map[0 := v] && s.toBus == [] && s.watches == map[0 := name] && s.wide == {}
    ensures Run(Run(s, [Mark(0), Remove(0)]), [Serve, Serve]) == s.(watches := map[], handlers := map[])
  {
    Run2(s, Mark(0), Remove(0));
    var s' := Run(s, [Mark(0), Remove(0)]);
    assert s'.toBus == [Unmatch(0), Unwatch(0)] && s'.handlers == map[];
    Run2(s', Serve, Serve);
    assert s'.toBus[1..] == [Unwatch(0)] && s'.toBus[1..][1..] == [];
    assert s'.watches - {0} == map[];
  }

  lemma ArriveAndDropRun(v: View, name: string, owner: string)
    requires Fresh(v) && Tracked(v) && v.sender == Some(name) && IsUnique(owner)
    ensures Run(INIT, ArriveAndDrop(v, name, owner)) ==
            State(map[name := owner], map[], {}, [], [Sig(ChangeSignal(name, "", owner), map[name := owner])], map[], 1)
  {
    var e1, e2, e3, e4 := [Add(v, false)], [Serve, Serve], [Deliver, Own(name, Some(owner))], [Mark(0), Remove(0)];
    Run1(INIT, Add(v, false));
    var s1 := INIT.(toBus := [Watch(0, name), Query(0, name)], handlers := map[0 := v], nextId := 1);
    assert Run(INIT, e1) == s1;
    ServeUnowned(s1, 0, name);
    var s2 := Run(s1, e2);
    ArriveRun(v, name, owner, s2);
    DropRun(v.(pending := false), name, Run(s2, e3));
    RunAppend(INIT, e1, e2);
    RunAppend(INIT, e1 + e2, e3);
    RunAppend(INIT, e1 + e2 + e3, e4);
    RunAppend(INIT, e1 + e2 + e3 + e4, e2);
  }

  /** Second half: the handler added next replays the outdated arrival, and the reply that
      nobody owns the name does not undo it. */
  lemma ReturnRun(v: View, name: string, owner: string, s: State)
    requires Fresh(v) && Tracked(v) && v.sender == Some(name)
    requires s == State(map[name := owner], map[], {}, [],
                        [Sig(ChangeSignal(name, "", owner), map[name := owner])], map[], 1)
    ensures Run(s, [Add(v, false), Own(name, None)]) ==
            s.(owners := map[], toBus := [Watch(1, name), Query(1, name)], handlers := map[1 := v], nextId := 2)
  {
    Run2(s, Add(v, false), Own(name, None));
    var s' := Step(s, Add(v, false));
    assert s'.handlers == map[1 := v] && s'.owners - {name} == map[];
    assert s'.toClient + [] == s'.toClient;
  }

  lemma DeliverBoth(v: View, name: string, owner: string, s: State)
    requires Fresh(v) && Tracked(v) && v.sender == Some(name) && IsUnique(owner)
    requires s.handlers == map[1 := v]
    requires s.toClient == [Sig(ChangeSignal(name, "", owner), map[name := owner]), NameReply(1, None)]
    ensures Run(s, [Deliver, Deliver]) ==
            s.(toClient := [], handlers := map[1 := v.(pending := false, owner := Some(owner))])
  {
    Run2(s, Deliver, Deliver);
    var s' := Step(s, Deliver);
    assert s'.toClient == [NameReply(1, None)] && s'.toClient[1..] == [];
    assert s'.handlers == map[1 := v.(owner := Some(owner))];
    assert Step(s', Deliver).handlers == map[1 := v.(pending := false, owner := Some(owner))];
  }

  /** The unsafe family is reachable: after these events both queues are empty, nobody owns
      the name, and the handler added second still records the old owner. */
  lemma OutdatedOwnerReachable(v: View, name: string, owner: string)
    requires Fresh(v) && Tracked(v) && v.sender == Some(name) && IsUnique(owner)
    ensures var es := ArriveAndDrop(v, name, owner)
                      + ([Add(v, false), Own(name, None)] + [Serve, Serve] + [Deliver, Deliver]);
            var s := Run(INIT, es);
            && s.toClient == [] && s.toBus == [] && s.owners == map[]
            && Live(s, 1) && s.handlers[1] == v.(pending := false, owner := Some(owner))
  {
    ArriveAndDropRun(v, name, owner);
    var s0 := Run(INIT, ArriveAndDrop(v, name, owner));
    var b, c, d := [Add(v, false), Own(name, None)], [Serve, Serve], [Deliver, Deliver];
    ReturnRun(v, name, owner, s0);
    var s1 := Run(s0, b);
    ServeUnowned(s1, 1, name);
    DeliverBoth(v, name, owner, Run(s1, c));
    RunAppend(s0, b, c);
    RunAppend(s0, b + c, d);
    RunAppend(INIT, ArriveAndDrop(v, name, owner), b + c + d);
  }
}
