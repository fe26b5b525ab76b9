/** The server of net/TcpServer.cc: a table of connections under increasing numbers, all on the
    server's own loop. */
module TcpServer {
  import C = Connection
  import D = Delivery
  import L = Lifecycle
  import opened T = TcpConnectionObject

  /** Every connection the server ever made, by number; `registered` in a connection is its entry
      in the table. */
  datatype Server = Server(nextConnId: nat, made: map<nat, C.Conn>)

  datatype Event =
    | Accept(config: C.Config, onUp: seq<C.Op>)
    | At(id: nat, event: C.Event)
    | Destroy(scripts: map<nat, seq<C.Op>>)   // what each connection's DOWN callback does

  function Script(scripts: map<nat, seq<C.Op>>, id: nat): seq<C.Op> { if id in scripts then scripts[id] else [] }

  function Step(s: Server, e: Event): Server {
    match e
    case Accept(config, onUp) =>
      Server(s.nextConnId + 1, s.made[s.nextConnId := C.ConnectEstablished(C.Fresh(config), onUp)])
    case At(id, ev) => if id in s.made then s.(made := s.made[id := C.Step(s.made[id], ev)]) else s
    case Destroy(scripts) =>
      s.(made := map id | id in s.made :: C.Step(s.made[id], C.DestroyServer(Script(scripts, id))))
  }

  function Run(es: seq<Event>): Server {
    if es == [] then Server(1, map[]) else Step(Run(es[..|es| - 1]), es[|es| - 1])
  }

  /** The table: TcpServer::connections_. */
  function Table(s: Server): set<nat> { set id | id in s.made && s.made[id].registered }

  ghost predicate Reached(c: C.Conn) {
    exists config, onUp, es :: c == C.Run(C.ConnectEstablished(C.Fresh(config), onUp), es)
  }

  lemma ReachedStep(c: C.Conn, e: C.Event)
    requires Reached(c)
    ensures Reached(C.Step(c, e))
  {
    var config, onUp, es :| c == C.Run(C.ConnectEstablished(C.Fresh(config), onUp), es);
    assert (es + [e])[..|es|] == es;
    assert C.Step(c, e) == C.Run(C.ConnectEstablished(C.Fresh(config), onUp), es + [e]);
  }

  lemma ReachedFresh(config: C.Config, onUp: seq<C.Op>)
    ensures Reached(C.ConnectEstablished(C.Fresh(config), onUp))
  {
    assert C.ConnectEstablished(C.Fresh(config), onUp) == C.Run(C.ConnectEstablished(C.Fresh(config), onUp), []);
  }

  lemma {:induction false} EveryConnectionReached(es: seq<Event>)
    ensures 1 <= Run(es).nextConnId
    ensures forall id :: id in Run(es).made ==> 1 <= id < Run(es).nextConnId && Reached(Run(es).made[id])
  {
    if es != [] {
      var s, e := Run(es[..|es| - 1]), es[|es| - 1];
      EveryConnectionReached(es[..|es| - 1]);
      match e
      case Accept(config, onUp) => ReachedFresh(config, onUp);
      case At(id, ev) => if id in s.made { ReachedStep(s.made[id], ev); }
      case Destroy(scripts) =>
        forall id | id in s.made ensures Reached(C.Step(s.made[id], C.DestroyServer(Script(scripts, id)))) {
          ReachedStep(s.made[id], C.DestroyServer(Script(scripts, id)));
        }
    }
  }

  // ----- a server's run is the runs of its connections -----

  datatype Arrival = Arrival(config: C.Config, onUp: seq<C.Op>)

  /** The connections accepted, in order; they get the numbers from 1 on. */
  function Arrivals(es: seq<Event>): seq<Arrival> {
    if es == [] then []
    else
      var last := es[|es| - 1];
      Arrivals(es[..|es| - 1]) + if last.Accept? then [Arrival(last.config, last.onUp)] else []
  }

  /** What of the run concerns the connection with this number. */
  function Share(es: seq<Event>, id: nat): seq<C.Event> {
    if es == [] || !(1 <= id <= |Arrivals(es[..|es| - 1])|) then []
    else
      Share(es[..|es| - 1], id) +
        match es[|es| - 1]
        case Accept(_, _) => []
        case At(i, ev) => if i == id then [ev] else []
        case Destroy(scripts) => [C.DestroyServer(Script(scripts, id))]
  }

  function OwnRun(a: Arrival, es: seq<C.Event>): C.Conn {
    C.Run(C.ConnectEstablished(C.Fresh(a.config), a.onUp), es)
  }

  lemma OwnStep(a: Arrival, es: seq<C.Event>, e: C.Event)
    ensures OwnRun(a, es + [e]) == C.Step(OwnRun(a, es), e)
  {
    assert (es + [e])[..|es|] == es;
  }

  lemma {:induction false} Numbering(es: seq<Event>)
    ensures Run(es).nextConnId == |Arrivals(es)| + 1
    ensures forall id :: id in Run(es).made <==> 1 <= id <= |Arrivals(es)|
  {
    if es != [] { Numbering(es[..|es| - 1]); }
  }

  /** The connections of a server do not disturb each other: each is what its own share of the run makes of it,
      from the arguments it was accepted with. */
  lemma {:induction false} EachIsItsOwnRun(es: seq<Event>, id: nat)
    requires 1 <= id <= |Arrivals(es)|
    ensures id in Run(es).made && Run(es).made[id] == OwnRun(Arrivals(es)[id - 1], Share(es, id))
  {
    var before, last := es[..|es| - 1], es[|es| - 1];
    Numbering(before);
    Numbering(es);
    if id <= |Arrivals(before)| {
      EachIsItsOwnRun(before, id);
      assert Share(before, id) + [] == Share(before, id);
      match last
      case Accept(_, _) =>
      case At(_, ev) => OwnStep(Arrivals(es)[id - 1], Share(before, id), ev);
      case Destroy(scripts) => OwnStep(Arrivals(es)[id - 1], Share(before, id), C.DestroyServer(Script(scripts, id)));
    }
  }

  /** So the messages each connection has accepted are those of its own account. */
  lemma EachAccountIsKept(es: seq<Event>, id: nat)
    requires 1 <= id <= |Arrivals(es)|
    ensures id in Run(es).made
    ensures var c, a := Run(es).made[id], Arrivals(es)[id - 1];
      var x := D.Expected(a.config, a.onUp, Share(es, id));
      D.Payloads(c.link.messages) == x.handed && D.SendsIn(c.queue) == x.waiting && C.BytesKept(c.link)
  {
    var a := Arrivals(es)[id - 1];
    EachIsItsOwnRun(es, id);
    D.StreamConserved(a.config, a.onUp, Share(es, id));
  }

  /** Whatever the server's connections and the environment do: each connection carries its own
      byte stream intact, and each unblamed one is in the table exactly while it is up, was told
      UP once and DOWN once at the end, and is destroyed once. */
  lemma ServerKeepsConnections(es: seq<Event>, id: nat)
    requires id in Run(es).made
    ensures var c := Run(es).made[id];
      && C.BytesKept(c.link)
      && (C.Blamed(c) ||
          (&& !C.Failed(c)
           && (id in Table(Run(es)) <==> c.link.state.Live())
           && c.log.callbacks == (if c.link.state.Live() then [C.Up] else [C.Up, C.Down])
           && c.log.destroyed + L.Waiting(c.queue) == (if c.link.state.Live() then 0 else 1)))
  {
    EveryConnectionReached(es);
    var c := Run(es).made[id];
    var config, onUp, ces :| c == C.Run(C.ConnectEstablished(C.Fresh(config), onUp), ces);
    D.StreamConserved(config, onUp, ces);
    L.ConnectionLife(config, onUp, ces);
  }

  /** Numbers are never reused, and an entry erased from the table never comes back. */
  lemma {:induction false} ErasedForGood(es: seq<Event>, k: nat, id: nat)
    requires k <= |es| && id in Run(es[..k]).made
    ensures id in Run(es).made
    ensures id in Table(Run(es)) ==> id in Table(Run(es[..k]))
    decreases |es|
  {
    if k == |es| {
      assert es[..k] == es;
    } else {
      var es' := es[..|es| - 1];
      assert es'[..k] == es[..k];
      ErasedForGood(es', k, id);
      EveryConnectionReached(es');
      var s, e := Run(es'), es[|es| - 1];
      match e
      case Accept(_, _) =>
      case At(i, ev) => if i == id { L.StepForward(s.made[id], ev); }
      case Destroy(scripts) => L.StepForward(s.made[id], C.DestroyServer(Script(scripts, id)));
    }
  }

  // ----- the server as an object -----

  function Parts(conn: TcpConnection): set<object> { {conn, conn.channel, conn.outputBuffer} }

  ghost predicate Is(conn: TcpConnection, c: C.Conn)
    reads Parts(conn)
  {
    conn.Valid() && conn.Model() == c
  }

  ghost predicate Entry(conn: TcpConnection)
    reads Parts(conn)
  {
    conn.Valid() && conn.registered
  }

  /** No two entries share an object. */
  ghost predicate Apart(table: map<nat, TcpConnection>) {
    forall i, j :: i in table && j in table && i != j ==> Parts(table[i]) !! Parts(table[j])
  }

  /** Entries stand under numbers given out before and own objects of repr. */
  ghost predicate Entries(table: map<nat, TcpConnection>, next: nat, repr: set<object>)
    reads repr
  {
    1 <= next && forall id :: id in table ==> 1 <= id < next && Parts(table[id]) <= repr && Entry(table[id])
  }

  lemma AddEntry(table: map<nat, TcpConnection>, next: nat, repr: set<object>, conn: TcpConnection)
    requires Entries(table, next, repr) && Apart(table) && Entry(conn) && Parts(conn) !! repr
    ensures Entries(table[next := conn], next + 1, repr + Parts(conn)) && Apart(table[next := conn])
  {
    assert forall id :: id in table ==> Parts(table[id]) !! Parts(conn);
  }

  /** An entry still to be taken down is as it was, any other has been taken down. */
  ghost predicate Stage(table: map<nat, TcpConnection>, was: map<nat, C.Conn>, todo: set<nat>,
                        scripts: map<nat, seq<C.Op>>, id: nat)
    requires id in table && id in was
    reads Parts(table[id])
  {
    if id in todo then was[id].registered && Is(table[id], was[id])
    else Is(table[id], C.Teardown(was[id], Script(scripts, id)))
  }

  ghost predicate Progress(table: map<nat, TcpConnection>, was: map<nat, C.Conn>, todo: set<nat>,
                           scripts: map<nat, seq<C.Op>>)
    reads set id, o | id in table && o in Parts(table[id]) :: o
  {
    && was.Keys == table.Keys
    && forall id {:trigger Stage(table, was, todo, scripts, id)} :: id in table ==> Stage(table, was, todo, scripts, id)
  }

  /** The table under connection numbers, from which the source makes the names. */
  class TcpServer {
    var nextConnId: nat
    var connections: map<nat, TcpConnection>
    ghost var repr: set<object>

    /** The entries are separate objects under numbers given out before, each marked as registered. */
    ghost predicate Valid()
      reads this, repr
    {
      this !in repr && Entries(connections, nextConnId, repr) && Apart(connections)
    }

    constructor ()
      ensures Valid() && repr == {} && nextConnId == 1 && connections == map[]
    {
      nextConnId, connections, repr := 1, map[], {};
    }

    /** The new connection gets its entry, and is established with its UP callback. */
    method NewConnection(fd: nat, config: C.Config, onUp: seq<C.Op>) returns (conn: TcpConnection)
      requires Valid()
      modifies this
      ensures Valid() && fresh(Parts(conn)) && repr == old(repr) + Parts(conn)
      ensures Is(conn, C.ConnectEstablished(C.Fresh(config), onUp))
      ensures nextConnId == old(nextConnId) + 1 && connections == old(connections)[old(nextConnId) := conn]
    {
      conn := Establish(fd, config, onUp);
      AddEntry(connections, nextConnId, repr, conn);
      connections := connections[nextConnId := conn];
      repr := repr + Parts(conn);
      nextConnId := nextConnId + 1;
    }

    /** Erases the entry and leaves the destruction to the functor queue. */
    method RemoveConnectionInLoop(id: nat)
      requires Valid() && id in connections
      modifies this`connections, connections[id]
      ensures Valid() && connections == old(connections) - {id}
      ensures old(connections[id]).Valid()
      ensures old(connections[id]).Model() == C.RemoveConnection(old(connections[id].Model()))
    {
      var conn := connections[id];
      connections := connections - {id};
      conn.RemoveConnection();
    }

    /** handleClose with the close callback bound to the server: the connection is taken down, its entry
        erased and its destruction queued; a second close is the failed assertion. */
    method HandleClose(id: nat, onDown: seq<C.Op>)
      requires Valid() && id in connections
      modifies this`connections, Parts(connections[id])
      ensures connections == if old(connections[id].state).Live() then old(connections) - {id} else old(connections)
      ensures Is(old(connections)[id], C.HandleClose(old(connections[id].Model()), onDown)) && Valid()
    {
      var conn := connections[id];
      if conn.state.Live() {
        CloseEntry(connections, id, onDown, nextConnId, repr);
        RemoveConnectionInLoop(id);
      } else {
        conn.log := conn.log.(failure := C.SecondClose);
      }
    }

    /** The destructor: every entry is taken down, in any order, and the others are not disturbed. */
    method Destroy(scripts: map<nat, seq<C.Op>>)
      requires Valid()
      modifies this, repr
      ensures connections == map[]
      ensures forall id :: id in old(connections) ==>
        Is(old(connections)[id], C.Teardown(old(connections[id].Model()), Script(scripts, id)))
    {
      ghost var was := map id | id in connections :: connections[id].Model();
      var table := connections;
      connections := map[];
      TakeDownAll(table, was, scripts, repr);
      assert forall id :: id in table ==> Stage(table, was, {}, scripts, id);
    }
  }

  method Establish(fd: nat, config: C.Config, onUp: seq<C.Op>) returns (conn: TcpConnection)
    ensures fresh(Parts(conn)) && Entry(conn) && Is(conn, C.ConnectEstablished(C.Fresh(config), onUp))
  {
    conn := new TcpConnection(fd, config);
    L.ScriptInside(C.Open(C.Fresh(config)), onUp);
    conn.ConnectEstablished(onUp);
  }

  /** The connection's part of a close, up to the close callback; the entry stands, and so do the others. */
  method CloseEntry(table: map<nat, TcpConnection>, id: nat, onDown: seq<C.Op>, ghost next: nat,
                    ghost repr: set<object>)
    requires Entries(table, next, repr) && Apart(table) && id in table
    modifies Parts(table[id])
    ensures Entries(table, next, repr)
    ensures Is(table[id], C.RunScript(C.Close(old(table[id].Model())), onDown))
  {
    L.ScriptInside(C.Close(table[id].Model()), onDown);
    table[id].TakeDown(onDown);
    forall other | other in table && other != id ensures Entry(table[other]) {
      assert Parts(table[other]) !! Parts(table[id]) && old(Entry(table[other]));
    }
  }

  method TakeDownAll(table: map<nat, TcpConnection>, ghost was: map<nat, C.Conn>, scripts: map<nat, seq<C.Op>>,
                     ghost repr: set<object>)
    requires Apart(table) && Progress(table, was, table.Keys, scripts)
    requires forall id :: id in table ==> Parts(table[id]) <= repr
    modifies repr
    ensures Progress(table, was, {}, scripts)
  {
    var todo := table.Keys;
    while todo != {}
      invariant todo <= table.Keys && Progress(table, was, todo, scripts)
      decreases |todo|
    {
      var id :| id in todo;
      TakeDownEntry(table, id, was, todo, scripts);
      todo := todo - {id};
    }
  }

  method TakeDownEntry(table: map<nat, TcpConnection>, id: nat, ghost was: map<nat, C.Conn>, ghost todo: set<nat>,
                       scripts: map<nat, seq<C.Op>>)
    requires Apart(table) && id in todo && id in table && Progress(table, was, todo, scripts)
    modifies Parts(table[id])
    ensures Progress(table, was, todo - {id}, scripts)
  {
    assert Stage(table, was, todo, scripts, id);
    TearDown(table[id], Script(scripts, id), was[id]);
    forall other | other in table && other != id ensures Stage(table, was, todo - {id}, scripts, other) {
      assert Parts(table[other]) !! Parts(table[id]) && old(Stage(table, was, todo, scripts, other));
    }
  }

  /** The destructor's work on one connection. */
  method TearDown(conn: TcpConnection, script: seq<C.Op>, ghost was: C.Conn)
    requires Is(conn, was) && was.registered
    modifies Parts(conn)
    ensures Is(conn, C.Teardown(was, script))
  {
    conn.log := conn.log.(tornDown := conn.log.tornDown || conn.state.Disconnecting?);
    conn.registered := false;
    conn.ConnectDestroyed(script);
    conn.Release();
  }
}
