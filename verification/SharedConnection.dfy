/** The shared connection to one bus: acquisitions, close requests that are put off while a
    dispatch is on the stack, and the teardown (src/lib/dbus/e_dbus.c). */
module SharedConnection {
  import opened Prelude

  class Connection {
    var refcount: int
    ghost var torn: bool

    /** e_dbus_connection_setup. */
    constructor ()
      ensures refcount == 0 && !torn
    {
      refcount, torn := 0, false;
    }
  }

  /** What an application does, at the main loop or from inside a callback. */
  datatype Acts =
    | Done
    | Get(connects: bool, next: Acts)
    | Ref(next: Acts)
    | Close(next: Acts)
    | Dispatch(inside: Acts, next: Acts)

  /** Acquisitions less close requests after some acts, from users of them on; inside a
      dispatch the connection is there even if nobody uses it any more. */
  function UsersAfter(acts: Acts, users: int, inside: bool): int {
    match acts
    case Done => users
    case Get(connects, next) => UsersAfter(next, if inside || users > 0 || connects then users + 1 else users, inside)
    case Ref(next) => UsersAfter(next, if users > 0 then users + 1 else users, inside)
    case Close(next) => UsersAfter(next, if users > 0 then users - 1 else users, inside)
    case Dispatch(nested, next) =>
      UsersAfter(next, if inside || users > 0 then UsersAfter(nested, users, true) else users, inside)
  }

  /** Acquisitions less closes in some acts and in all that is nested in them. */
  function Net(acts: Acts): int {
    match acts
    case Done => 0
    case Get(_, next) => 1 + Net(next)
    case Ref(next) => 1 + Net(next)
    case Close(next) => Net(next) - 1
    case Dispatch(nested, next) => Net(nested) + Net(next)
  }

  /** The bus can be reached, and nobody closes, takes a reference on or dispatches a connection that
      nobody has. */
  predicate Proper(acts: Acts, users: int) {
    match acts
    case Done => true
    case Get(connects, next) => connects && Proper(next, users + 1)
    case Ref(next) => users > 0 && Proper(next, users + 1)
    case Close(next) => users > 0 && Proper(next, users - 1)
    case Dispatch(nested, next) => users > 0 && Proper(nested, users) && Proper(next, users + Net(nested))
  }

  /** For such acts every act counts, however deep it is nested. */
  lemma {:induction false} UsersAreNet(acts: Acts, users: int, inside: bool)
    requires Proper(acts, users)
    ensures UsersAfter(acts, users, inside) == users + Net(acts)
    decreases acts
  {
    match acts {
      case Done =>
      case Get(_, next) => UsersAreNet(next, users + 1, inside);
      case Ref(next) => UsersAreNet(next, users + 1, inside);
      case Close(next) => UsersAreNet(next, users - 1, inside);
      case Dispatch(nested, next) =>
        UsersAreNet(nested, users, true);
        UsersAreNet(next, users + Net(nested), inside);
    }
  }

  class Bus {
    var shared: Option<Connection>   // the slot of shared_connections
    var idlerActive: nat
    var closeConnection: nat
    var users: int                   // the application: acquisitions less close requests

    /** What the reference count and the put-off closes add up to. Outside a dispatch nothing
        is put off, and there is a connection exactly while somebody uses it. */
    ghost predicate Valid()
      reads this, if shared.Some? then {shared.value} else {}
    {
      match shared
      case None => users == 0 && closeConnection == 0 && idlerActive == 0
      case Some(c) =>
        && !c.torn && users >= 0 && c.refcount > 0 && c.refcount - closeConnection == users
        && (idlerActive == 0 ==> closeConnection == 0 && users > 0)
    }

    constructor ()
      ensures Valid() && shared == None && idlerActive == 0
    {
      shared, idlerActive, closeConnection, users := None, 0, 0, 0;
    }

    /** e_dbus_bus_get: the connection in the slot, or else a new one if the bus can be
        reached. */
    method BusGet(connects: bool) returns (r: Option<Connection>)
      requires Valid()
      modifies this`shared, this`users, if shared.Some? then {shared.value} else {}
      ensures Valid()
      ensures old(shared).Some? ==> r == shared == old(shared)
      ensures old(shared).None? ==> r == shared && (r.Some? <==> connects) && (r.Some? ==> fresh(r.value))
      ensures users == old(users) + if r.Some? then 1 else 0
    {
      if shared.Some? {
        shared.value.refcount := shared.value.refcount + 1;
        users := users + 1;
        return shared;
      }
      if !connects {
        return None;
      }
      var c := new Connection();
      shared := Some(c);
      c.refcount := c.refcount + 1;
      users := users + 1;
      r := shared;
    }

    /** e_dbus_connection_ref, by somebody who has the connection. */
    method AddRef()
      requires Valid() && shared.Some? && users > 0
      modifies this`users, shared.value
      ensures Valid() && users == old(users) + 1
    {
      shared.value.refcount := shared.value.refcount + 1;
      users := users + 1;
    }

    /** The part of e_dbus_connection_close that runs when the count reaches zero, with
        e_dbus_connection_free: never twice for one connection, and never with a dispatch of
        it on the stack. */
    method TearDown(c: Connection)
      requires shared == Some(c) && c.refcount == 0 && !c.torn && idlerActive == 0
      modifies this`shared, c`torn
      ensures shared == None && c.torn
    {
      shared := None;
      c.torn := true;
    }

    /** e_dbus_connection_close with no dispatch on the stack. */
    method CloseNow(c: Connection)
      requires idlerActive == 0 && shared == Some(c) && !c.torn && c.refcount > 0
      modifies this`shared, c
      ensures c.refcount == old(c.refcount) - 1
      ensures c.torn == (c.refcount == 0) && shared == if c.refcount == 0 then None else old(shared)
    {
      c.refcount := c.refcount - 1;
      if c.refcount == 0 {
        TearDown(c);
      }
    }

    /** e_dbus_connection_close, on behalf of a user: the last one takes the connection down,
        unless a dispatch is on the stack. */
    method CloseRequest()
      requires Valid() && shared.Some? && users > 0
      modifies this`shared, this`closeConnection, this`users, shared.value
      ensures Valid() && users == old(users) - 1
      ensures idlerActive > 0 ==> shared == old(shared)
      ensures idlerActive == 0 ==> shared == if users == 0 then None else old(shared)
      ensures old(shared).value.torn <==> shared.None?
    {
      users := users - 1;
      if idlerActive > 0 {
        closeConnection := closeConnection + 1;
        return;
      }
      CloseNow(shared.value);
    }

    /** The end of e_dbus_idler: what was put off is done, once the last dispatch is over. */
    method Deferred(c: Connection)
      requires idlerActive == 0 && closeConnection > 0 && users >= 0
      requires shared == Some(c) && !c.torn && c.refcount - closeConnection == users
      modifies this`shared, this`closeConnection, c
      ensures Valid() && closeConnection == 0
      ensures shared == if users == 0 then None else Some(c)
      ensures c.torn <==> users == 0
    {
      CloseNow(c);
      closeConnection := closeConnection - 1;
      while closeConnection > 0
        invariant c.refcount - closeConnection == users
        invariant shared == (if c.refcount == 0 then None else Some(c)) && (c.torn <==> c.refcount == 0)
      {
        CloseNow(c);
        closeConnection := closeConnection - 1;
      }
    }

    /** One pass of e_dbus_idler over the connection in the slot, whose callbacks do what
        inside says: the connection stays until the outermost pass ends, which takes it down
        exactly when nobody uses it any more. */
    method Idler(inside: Acts)
      requires Valid() && shared.Some?
      modifies this, shared.value
      ensures Valid() && idlerActive == old(idlerActive) && users == UsersAfter(inside, old(users), true)
      ensures idlerActive > 0 ==> shared == old(shared)
      ensures idlerActive == 0 ==> shared == if users == 0 then None else old(shared)
      ensures old(shared).value.torn <==> shared.None?
      decreases inside, 2
    {
      var c := shared.value;
      idlerActive := idlerActive + 1;
      RunActs(inside);
      idlerActive := idlerActive - 1;
      if idlerActive == 0 && closeConnection > 0 {
        Deferred(c);
      }
    }

    /** Anything an application does; it closes only what it has. */
    method RunActs(acts: Acts)
      requires Valid()
      modifies this, if shared.Some? then {shared.value} else {}
      ensures Valid() && idlerActive == old(idlerActive) && users == UsersAfter(acts, old(users), idlerActive > 0)
      ensures idlerActive > 0 ==> shared == old(shared)
      ensures shared.Some? ==> shared == old(shared) || fresh(shared.value)
      decreases acts, 1
    {
      match acts {
        case Done =>
        case Get(connects, next) =>
          var _ := BusGet(connects);
          RunActs(next);
        case Ref(next) =>
          if shared.Some? && users > 0 {
            AddRef();
          }
          RunActs(next);
        case Close(next) =>
          if shared.Some? && users > 0 {
            CloseRequest();
          }
          RunActs(next);
        case Dispatch(inside, next) =>
          if shared.Some? {
            Idler(inside);
          }
          RunActs(next);
      }
    }
  }

  /** Any run, with dispatches nested to any depth: at its end there is a connection exactly if
      more was acquired than closed, and its count says by how much. */
  method WholeRun(acts: Acts) returns (b: Bus)
    ensures b.Valid() && b.idlerActive == 0
    ensures b.shared.Some? <==> UsersAfter(acts, 0, false) > 0
    ensures b.shared.Some? ==> b.shared.value.refcount == UsersAfter(acts, 0, false) && !b.shared.value.torn
    ensures Proper(acts, 0) ==> (b.shared.Some? <==> Net(acts) > 0)
  {
    b := new Bus();
    b.RunActs(acts);
    if Proper(acts, 0) {
      UsersAreNet(acts, 0, false);
    }
  }
}
