/**
 * The connection table of src/shared/start-gateway.js: open connections are tracked so that a
 * shutdown can destroy them.
 */
module Connections {
  import opened Common

  /** `key` is the remote address and port; connections are numbered as they open. */
  datatype Event = Opened(id: nat, key: string) | Closed(id: nat)

  /** `keys` holds the key under which each open connection was entered; `table` is the source's object. */
  datatype Server = Server(keys: map<nat, string>, table: map<string, nat>)

  const IDLE := Server(map[], map[])

  /** A connection opens once and closes at most once; anything else changes nothing. */
  function Step(s: Server, e: Event): Server {
    match e
    case Opened(id, key) =>
      if id in s.keys then s else Server(s.keys[id := key], s.table[key := id])
    case Closed(id) =>
      if id !in s.keys then s else Server(s.keys - {id}, s.table - {s.keys[id]})
  }

  function Run(s: Server, es: seq<Event>): Server {
    if es == [] then s else Step(Run(s, es[..|es| - 1]), es[|es| - 1])
  }

  /** The table holds exactly the open connections. */
  ghost predicate Exact(s: Server) {
    && (forall id :: id in s.keys ==> s.keys[id] in s.table && s.table[s.keys[id]] == id)
    && (forall key :: key in s.table ==> s.table[key] in s.keys && s.keys[s.table[key]] == key)
  }

  /** No two connections that are open now came from the same address and port. */
  ghost predicate KeysDiffer(s: Server) {
    forall i, j :: i in s.keys && j in s.keys && i != j ==> s.keys[i] != s.keys[j]
  }

  lemma ExactStep(s: Server, e: Event)
    requires Exact(s) && KeysDiffer(Step(s, e))
    ensures Exact(Step(s, e))
  {
    var s' := Step(s, e);
    if e.Opened? && e.id !in s.keys {
      assert s'.keys[e.id] == e.key;
      forall id | id in s.keys ensures s.keys[id] != e.key {
        assert id in s'.keys && s'.keys[id] == s.keys[id];
      }
    }
  }

  ghost predicate NeverShared(es: seq<Event>) {
    forall n :: 0 <= n <= |es| ==> KeysDiffer(Run(IDLE, es[..n]))
  }

  ghost predicate AlwaysExact(es: seq<Event>) {
    forall n :: 0 <= n <= |es| ==> Exact(Run(IDLE, es[..n]))
  }

  lemma NeverSharedPrefix(es: seq<Event>, n: nat)
    requires NeverShared(es) && n <= |es|
    ensures NeverShared(es[..n])
  {
    forall m | 0 <= m <= n ensures KeysDiffer(Run(IDLE, es[..n][..m])) {
      assert es[..n][..m] == es[..m];
    }
  }

  lemma {:induction false} ExactRun(es: seq<Event>)
    requires NeverShared(es)
    ensures Exact(Run(IDLE, es))
    decreases |es|
  {
    if es != [] {
      var m := |es| - 1;
      NeverSharedPrefix(es, m);
      ExactRun(es[..m]);
      assert es[..|es|] == es;
      ExactStep(Run(IDLE, es[..m]), es[m]);
    }
  }

  /**
   * For every run of connections opening and closing: the table is exact all the way through if and
   * only if no two connections ever share address and port while both are open.
   */
  lemma AlwaysExactIff(es: seq<Event>)
    ensures AlwaysExact(es) <==> NeverShared(es)
  {
    if NeverShared(es) {
      forall n | 0 <= n <= |es| ensures Exact(Run(IDLE, es[..n])) {
        NeverSharedPrefix(es, n);
        ExactRun(es[..n]);
      }
    }
    if AlwaysExact(es) {
      forall n | 0 <= n <= |es| ensures KeysDiffer(Run(IDLE, es[..n])) {
        assert Exact(Run(IDLE, es[..n]));
      }
    }
  }

  /** When a key is reused early, the first connection to close takes the other one out of the table. */
  lemma SharedKeyIsForgotten(key: string)
    ensures var s := Run(IDLE, [Opened(0, key), Opened(1, key), Closed(0)]);
            1 in s.keys && s.table == map[]
  {
    var es := [Opened(0, key), Opened(1, key), Closed(0)];
    assert es[..2] == [Opened(0, key), Opened(1, key)] && es[..2][..1] == [Opened(0, key)] && es[..2][..1][..0] == [];
    assert Run(IDLE, es[..2][..1]) == Server(map[0 := key], map[key := 0]);
    assert Run(IDLE, es[..2]) == Server(map[0 := key, 1 := key], map[key := 1]);
  }

  // ----- The objects -----

  class Connection {
    ghost const id: nat
    const key: string
    var destroys: nat

    constructor (ghost id: nat, key: string)
      ensures this.id == id && this.key == key && destroys == 0
    {
      this.id := id;
      this.key := key;
      destroys := 0;
    }

    method Destroy()
      modifies this
      ensures destroys == old(destroys) + 1
    {
      destroys := destroys + 1;
    }
  }

  datatype ExitCode = Running | Exit(code: int)

  class Gateway {
    var connections: map<string, Connection>
    var exit: ExitCode
    ghost var server: Server

    /** `connections` is the table of `server`, with objects for numbers. */
    ghost predicate Valid()
      reads this
    {
      && connections.Keys == server.table.Keys
      && forall key :: key in connections ==>
           connections[key].id == server.table[key] && connections[key].key == key
    }

    constructor ()
      ensures Valid() && server == IDLE && exit == Running
    {
      connections := map[];
      exit := Running;
      server := IDLE;
    }

    method OnConnection(connection: Connection)
      requires Valid() && connection.id !in server.keys
      modifies this`connections, this`server
      ensures Valid() && server == Step(old(server), Opened(connection.id, connection.key))
      ensures connections == old(connections)[connection.key := connection]
    {
      connections := connections[connection.key := connection];
      server := Step(server, Opened(connection.id, connection.key));
    }

    /** The handler that a connection's `close` event runs; it remembers the key. */
    method OnClose(connection: Connection)
      requires Valid() && connection.id in server.keys && server.keys[connection.id] == connection.key
      modifies this`connections, this`server
      ensures Valid() && server == Step(old(server), Closed(connection.id))
      ensures connections == old(connections) - {connection.key}
    {
      connections := connections - {connection.key};
      server := Step(server, Closed(connection.id));
    }

    method CloseConnections()
      requires Valid()
      modifies connections.Values
      ensures forall c :: c in connections.Values ==> c.destroys == old(c.destroys) + 1
    {
      var remaining := connections.Keys;
      while remaining != {}
        invariant remaining <= connections.Keys
        invariant forall key :: key in connections ==>
                    connections[key].destroys == old(connections[key].destroys) + if key in remaining then 0 else 1
        decreases remaining
      {
        var key :| key in remaining;
        var c := connections[key];
        assert forall other :: other in connections && connections[other] == c ==> other == key;
        c.Destroy();
        remaining := remaining - {key};
      }
    }

    /** `closing` is how `gateway.close` behaves: it may throw at once. */
    method OnSigint(closing: Outcome<(), string>)
      requires Valid()
      modifies this`exit, connections.Values
      ensures closing.Returned? ==> exit == old(exit) && forall c :: c in connections.Values ==>
          c.destroys == old(c.destroys) + 1
      ensures closing.Threw? ==> exit == Exit(1) && forall c :: c in connections.Values ==>
          c.destroys == old(c.destroys)
    {
      if closing.Threw? {
        exit := Exit(1);
        return;
      }
      CloseConnections();
    }
  }

  /** When the table is exact, a shutdown destroys each open connection once and no other. */
  method ShutDown(gateway: Gateway, all: set<Connection>)
    requires gateway.Valid() && Exact(gateway.server)
    requires forall c, d :: c in all && d in all && c.id == d.id ==> c == d
    requires gateway.connections.Values <= all
    requires forall c :: c in all && c.id in gateway.server.keys ==> gateway.server.keys[c.id] == c.key
    modifies gateway`exit, gateway.connections.Values
    ensures forall c :: c in all ==> c.destroys == old(c.destroys) + if c.id in gateway.server.keys then 1 else 0
  {
    forall c | c in all && c.id in gateway.server.keys ensures c in gateway.connections.Values {
      var d := gateway.connections[c.key];
      assert d in gateway.connections.Values && d.id == c.id;
    }
    forall c | c in gateway.connections.Values ensures c.id in gateway.server.keys {
    }
    gateway.OnSigint(Returned(()));
  }

  /** The table of a gateway holds the objects that stand for the numbers in `server`. */
  ghost predicate Holds(gateway: Gateway, cs: seq<Connection>)
    reads gateway
  {
    && (forall id :: id in gateway.server.keys ==> id < |cs| && gateway.server.keys[id] == cs[id].key)
    && (forall key :: key in gateway.server.table ==>
          && gateway.server.table[key] < |cs| && key in gateway.connections
          && gateway.connections[key] == cs[gateway.server.table[key]])
  }

  /** Events that do not apply are passed over, as in `Run`. */
  method Replay(gateway: Gateway, cs: seq<Connection>, es: seq<Event>)
    requires gateway.Valid() && gateway.server == IDLE
    requires forall i :: 0 <= i < |cs| ==> cs[i].id == i
    requires forall e :: e in es ==> e.id < |cs| && (e.Opened? ==> e.key == cs[e.id].key)
    modifies gateway`connections, gateway`server
    ensures gateway.Valid() && gateway.server == Run(IDLE, es) && Holds(gateway, cs)
  {
    var open: set<nat> := {};
    for n := 0 to |es|
      invariant gateway.Valid() && gateway.server == Run(IDLE, es[..n]) && Holds(gateway, cs)
      invariant open == gateway.server.keys.Keys
    {
      assert es[..n + 1][..n] == es[..n];
      var e := es[n];
      assert e in es;
      match e {
        case Opened(id, _) =>
          if id !in open {
            gateway.OnConnection(cs[id]);
            open := open + {id};
          }
        case Closed(id) =>
          if id in open {
            gateway.OnClose(cs[id]);
            open := open - {id};
          }
      }
    }
    assert es[..|es|] == es;
  }

  /**
   * Any connections opening and closing, and then a shutdown: the connections destroyed are those in the
   * table, once each; and when no two open ones have shared a key, those are exactly the open ones.
   */
  method RunAndShutDown(gateway: Gateway, cs: seq<Connection>, es: seq<Event>, closing: Outcome<(), string>)
    requires gateway.Valid() && gateway.server == IDLE
    requires forall i :: 0 <= i < |cs| ==> cs[i].id == i
    requires forall e :: e in es ==> e.id < |cs| && (e.Opened? ==> e.key == cs[e.id].key)
    modifies gateway, cs
    ensures gateway.server == Run(IDLE, es)
    ensures closing.Threw? ==> gateway.exit == Exit(1)
    ensures closing.Threw? ==> forall i :: 0 <= i < |cs| ==> cs[i].destroys == old(cs[i].destroys)
    ensures closing.Returned? ==>
              forall i :: 0 <= i < |cs| ==>
                cs[i].destroys == old(cs[i].destroys) + if i in Run(IDLE, es).table.Values then 1 else 0
    ensures closing.Returned? && NeverShared(es) ==>
              forall i :: 0 <= i < |cs| ==>
                cs[i].destroys == old(cs[i].destroys) + if i in Run(IDLE, es).keys then 1 else 0
  {
    Replay(gateway, cs, es);
    ghost var server := gateway.server;
    forall i | 0 <= i < |cs| ensures cs[i] in gateway.connections.Values <==> i in server.table.Values {
      if cs[i] in gateway.connections.Values {
        var key :| key in gateway.connections && gateway.connections[key] == cs[i];
        assert server.table[key] == i;
      }
      if i in server.table.Values {
        var key :| key in server.table && server.table[key] == i;
        assert gateway.connections[key] == cs[i];
      }
    }
    forall c | c in gateway.connections.Values ensures c in cs {
      var key :| key in gateway.connections && gateway.connections[key] == c;
      assert c == cs[server.table[key]];
    }
    if NeverShared(es) {
      ExactRun(es);
      assert forall i :: i in server.table.Values <==> i in server.keys;
    }
    gateway.OnSigint(closing);
  }
}
