/** The WebSocket hub: a nested map from users to their connections, changed by
    register and unregister requests and by failed writes during a broadcast. */
module WsHub {
  import opened Wrappers

  /** A connection, known by its identity. */
  datatype Conn = Conn(id: int)

  datatype Pair = Pair(user: string, conn: Conn)

  /** A message carries at most the part its kind names; here, that part's user. */
  datatype Message = Message(kind: string, deposit: Option<string>, withdrawal: Option<string>, balance: Option<string>)

  function Addressee(m: Message): string {
    if m.kind == "deposit" && m.deposit.Some? then m.deposit.value
    else if m.kind == "withdrawal" && m.withdrawal.Some? then m.withdrawal.value
    else if m.kind == "balance" && m.balance.Some? then m.balance.value
    else ""
  }

  // ---- The specification: a set of pairs driven by events ----

  /** `failed` are the pairs whose write failed. */
  datatype Event = Register(pair: Pair) | Unregister(pair: Pair) | Send(message: Message, failed: set<Pair>)

  function Targets(registry: set<Pair>, m: Message): set<Pair> {
    if Addressee(m) != "" then set p | p in registry && p.user == Addressee(m)
    else if m.kind == "balance" then registry
    else {}
  }

  // The messages of the hub's three broadcast methods.

  function DepositMessage(user: string): Message {
    Message("deposit", Some(user), None, None)
  }

  function WithdrawalMessage(user: string): Message {
    Message("withdrawal", None, Some(user), None)
  }

  function BalanceMessage(user: string): Message {
    Message("balance", None, None, Some(user))
  }

  /** Each of the service's messages is for the connections of the user it is
      about. Without a user, a balance message is for everyone and the other two
      are for no one. */
  lemma MessagesAreForTheirUser(registry: set<Pair>, user: string)
    ensures user != "" ==> forall m :: m in {DepositMessage(user), WithdrawalMessage(user), BalanceMessage(user)} ==>
              Targets(registry, m) == set p | p in registry && p.user == user
    ensures Targets(registry, BalanceMessage("")) == registry
    ensures Targets(registry, DepositMessage("")) == Targets(registry, WithdrawalMessage("")) == {}
  {
  }

  function Registry(history: seq<Event>): set<Pair> {
    if history == [] then {}
    else
      var before := Registry(history[..|history| - 1]);
      match history[|history| - 1]
      case Register(p) => before + {p}
      case Unregister(p) => before - {p}
      case Send(_, failed) => before - failed
  }

  /** The connections the hub has closed. An unregister closes its connection
      only if its user has some connection registered. */
  function Closed(history: seq<Event>): set<Conn> {
    if history == [] then {}
    else
      var front := history[..|history| - 1];
      Closed(front) + match history[|history| - 1]
        case Register(_) => {}
        case Unregister(p) => if exists q :: q in Registry(front) && q.user == p.user then {p.conn} else {}
        case Send(_, failed) => set p | p in failed :: p.conn
  }

  predicate Removes(e: Event, p: Pair) {
    match e
    case Register(_) => false
    case Unregister(q) => q == p
    case Send(_, failed) => p in failed
  }

  /** Register number i of p is the last word on p. */
  ghost predicate LastRegister(history: seq<Event>, p: Pair, i: nat) {
    && i < |history| && history[i] == Register(p)
    && forall j :: i < j < |history| ==> !Removes(history[j], p)
  }

  /** A pair is registered exactly when a register of it is later than every
      unregister and every failed write of it. */
  lemma {:induction false} RegisteredExactlyIfLastRegistered(history: seq<Event>, p: Pair)
    ensures p in Registry(history) <==> exists i: nat :: LastRegister(history, p, i)
  {
    if history != [] {
      var front, last := history[..|history| - 1], history[|history| - 1];
      RegisteredExactlyIfLastRegistered(front, p);
      if last == Register(p) {
        assert LastRegister(history, p, |history| - 1);
      } else if Removes(last, p) {
        forall i: nat ensures !LastRegister(history, p, i) {
          if i < |history| - 1 {
            assert Removes(history[|history| - 1], p);
          }
        }
      } else {
        forall i: nat ensures LastRegister(history, p, i) <==> LastRegister(front, p, i) {
          if LastRegister(front, p, i) {
            assert front[i] == history[i];
            forall j | i < j < |history| ensures !Removes(history[j], p) {
              assert j < |front| ==> front[j] == history[j];
            }
          }
          if LastRegister(history, p, i) {
            forall j | i < j < |front| ensures !Removes(front[j], p) {
              assert front[j] == history[j];
            }
          }
        }
      }
    }
  }

  /** A connection whose pair was registered at some point and no longer is has
      been closed. */
  lemma {:induction false} LeavingTheRegistryCloses(history: seq<Event>, once: nat, p: Pair)
    requires once <= |history| && p in Registry(history[..once]) && p !in Registry(history)
    ensures p.conn in Closed(history)
  {
    assert history[..|history|] == history;
    if once < |history| {
      var front, last := history[..|history| - 1], history[|history| - 1];
      assert front[..once] == history[..once];
      if p in Registry(front) {
        assert Removes(last, p);
      } else {
        LeavingTheRegistryCloses(front, once, p);
      }
    }
  }

  /** The hub may take an unregister before the register it answers to. After
      any history, the pair then stays registered; and the unregister has closed
      its connection if and only if the user had some connection by then. */
  lemma EarlyUnregisterIsLost(history: seq<Event>, p: Pair)
    ensures var late := history + [Unregister(p)] + [Register(p)];
            && p in Registry(late)
            && Closed(late) == Closed(history + [Unregister(p)])
            && (p.conn !in Closed(history) ==>
                  (p.conn in Closed(late) <==> exists q :: q in Registry(history) && q.user == p.user))
  {
    var early := history + [Unregister(p)];
    var late := early + [Register(p)];
    assert late[..|late| - 1] == early && early[..|early| - 1] == history;
  }

  /** What arrives on the hub's three channels. */
  datatype Request = ToRegister(client: Pair) | ToUnregister(client: Pair) | ToSend(message: Message)

  predicate Answer(e: Event, r: Request) {
    match r
    case ToRegister(p) => e == Register(p)
    case ToUnregister(p) => e == Unregister(p)
    case ToSend(m) => e.Send? && e.message == m
  }

  ghost predicate Answers(history: seq<Event>, requests: seq<Request>) {
    |history| == |requests| && forall i :: 0 <= i < |history| ==> Answer(history[i], requests[i])
  }

  // ---- The hub ----

  type Clients = map<string, set<Conn>>

  ghost function Pairs(clients: Clients): set<Pair> {
    set u, c | u in clients && c in clients[u] :: Pair(u, c)
  }

  ghost function PairsOf(user: string, conns: set<Conn>): set<Pair> {
    set c | c in conns :: Pair(user, c)
  }

  ghost function ConnsOf(pairs: set<Pair>): set<Conn> {
    set p | p in pairs :: p.conn
  }

  lemma DropPair(clients: Clients, p: Pair)
    requires p.user in clients
    ensures Pairs(clients[p.user := clients[p.user] - {p.conn}]) == Pairs(clients) - {p}
  {
    var dropped := clients[p.user := clients[p.user] - {p.conn}];
    forall q ensures q in Pairs(dropped) <==> q in Pairs(clients) - {p} {
    }
  }

  lemma DropUser(clients: Clients, user: string)
    requires user in clients && clients[user] == {}
    ensures Pairs(clients - {user}) == Pairs(clients)
  {
    forall q ensures q in Pairs(clients - {user}) <==> q in Pairs(clients) {
    }
  }

  ghost predicate NoEmptyUser(clients: Clients) {
    forall u :: u in clients ==> clients[u] != {}
  }

  /** A write the hub made, and whether it succeeded. */
  datatype Write = Write(pair: Pair, ok: bool)

  ghost predicate OncePerPair(writes: seq<Write>) {
    forall i, j :: 0 <= i < j < |writes| ==> writes[i].pair != writes[j].pair
  }

  ghost function Attempted(writes: seq<Write>): set<Pair> {
    set w | w in writes :: w.pair
  }

  ghost function Failed(writes: seq<Write>): set<Pair> {
    set w | w in writes && !w.ok :: w.pair
  }

  lemma OneMoreWrite(writes: seq<Write>, w: Write)
    ensures Attempted(writes + [w]) == Attempted(writes) + {w.pair}
    ensures Failed(writes + [w]) == Failed(writes) + if w.ok then {} else {w.pair}
    ensures OncePerPair(writes) && w.pair !in Attempted(writes) ==> OncePerPair(writes + [w])
  {
    assert forall v :: v in writes + [w] <==> v in writes || v == w;
    assert w in writes + [w];
  }

  lemma MoreWrites(writes: seq<Write>, more: seq<Write>)
    ensures Attempted(writes + more) == Attempted(writes) + Attempted(more)
    ensures Failed(writes + more) == Failed(writes) + Failed(more)
    ensures OncePerPair(writes) && OncePerPair(more) && Attempted(writes) !! Attempted(more) ==>
              OncePerPair(writes + more)
  {
    assert forall v :: v in writes + more <==> v in writes || v in more;
    if OncePerPair(writes) && OncePerPair(more) && Attempted(writes) !! Attempted(more) {
      forall i, j | 0 <= i < j < |writes + more| ensures (writes + more)[i].pair != (writes + more)[j].pair {
        if i < |writes| <= j {
          assert (writes + more)[i] in writes && (writes + more)[j] in more;
          assert (writes + more)[i].pair in Attempted(writes) && (writes + more)[j].pair in Attempted(more);
        }
      }
    }
  }

  /** A broadcast to all, with some users still to be written to. */
  ghost predicate UsersLeft(all: Clients, clients: Clients, users: set<string>, made: seq<Write>) {
    && users <= clients.Keys && (forall u :: u in users ==> u in all && clients[u] == all[u])
    && OncePerPair(made)
    && (forall p :: p in Attempted(made) <==> p in Pairs(all) && p.user !in users)
    && Pairs(clients) == Pairs(all) - Failed(made)
  }

  lemma OneMoreUser(all: Clients, before: Clients, after: Clients, users: set<string>, made: seq<Write>, user: string,
                    more: seq<Write>)
    requires UsersLeft(all, before, users, made) && user in users && OncePerPair(more)
    requires Attempted(more) == PairsOf(user, before[user])
    requires Pairs(after) == Pairs(before) - Failed(more) && after - {user} == before - {user}
    ensures UsersLeft(all, after, users - {user}, made + more)
  {
    MoreWrites(made, more);
    assert forall p :: p in Attempted(more) <==> p in Pairs(all) && p.user == user;
    assert Attempted(made) !! Attempted(more);
    forall u | u in users - {user} ensures u in after && after[u] == all[u] {
      assert u in before - {user} && (before - {user})[u] == before[u];
      assert (after - {user})[u] == after[u];
    }
  }

  lemma OneMoreSend(history: seq<Event>, m: Message, failed: set<Pair>)
    ensures Registry(history + [Send(m, failed)]) == Registry(history) - failed
    ensures Closed(history + [Send(m, failed)]) == Closed(history) + ConnsOf(failed)
  {
    assert (history + [Send(m, failed)])[..|history|] == history;
  }

  /** Whom a message is for, in terms of the nested map. */
  lemma TargetsAreClients(clients: Clients, m: Message)
    ensures Addressee(m) != "" && Addressee(m) in clients ==>
              Targets(Pairs(clients), m) == PairsOf(Addressee(m), clients[Addressee(m)])
    ensures Addressee(m) != "" && Addressee(m) !in clients ==> Targets(Pairs(clients), m) == {}
    ensures Addressee(m) == "" ==> Targets(Pairs(clients), m) == if m.kind == "balance" then Pairs(clients) else {}
  {
  }

  lemma ConnsOfMore(writes: seq<Write>, more: seq<Write>)
    ensures ConnsOf(Failed(writes + more)) == ConnsOf(Failed(writes)) + ConnsOf(Failed(more))
  {
    MoreWrites(writes, more);
  }

  class WsHub {
    var clients: Clients
    var closed: set<Conn>
    var writes: seq<Write>
    ghost var history: seq<Event>

    /** The nested map holds the pairs of the specification, and no user whose
        last connection has gone. */
    ghost predicate Valid()
      reads this
    {
      && NoEmptyUser(clients)
      && Pairs(clients) == Registry(history)
      && closed == Closed(history)
    }

    constructor ()
      ensures Valid() && history == [] && writes == []
    {
      clients, closed, writes, history := map[], {}, [], [];
    }

    method Register(client: Pair)
      requires Valid()
      modifies this`clients, this`history
      ensures Valid() && history == old(history) + [Event.Register(client)]
    {
      if client.user !in clients {
        clients := clients[client.user := {}];
      }
      clients := clients[client.user := clients[client.user] + {client.conn}];
      history := history + [Event.Register(client)];
      assert history[..|history| - 1] == old(history);
      assert Pairs(clients) == Pairs(old(clients)) + {client};
    }

    method Unregister(client: Pair)
      requires Valid()
      modifies this`clients, this`closed, this`history
      ensures Valid() && history == old(history) + [Event.Unregister(client)]
    {
      history := history + [Event.Unregister(client)];
      assert history[..|history| - 1] == old(history);
      if client.user in clients {
        assert exists q :: q in Registry(old(history)) && q.user == client.user by {
          var c :| c in clients[client.user];
          assert Pair(client.user, c) in Pairs(clients);
        }
        DropPair(clients, client);
        clients := clients[client.user := clients[client.user] - {client.conn}];
        if clients[client.user] == {} {
          DropUser(clients, client.user);
          clients := clients - {client.user};
        }
        closed := closed + {client.conn};
      } else {
        assert client !in Pairs(clients);
      }
    }

    method WriteJSON(pair: Pair) returns (ok: bool)
      modifies this`writes
      ensures writes == old(writes) + [Write(pair, ok)]
    {
      ok := *;
      writes := writes + [Write(pair, ok)];
    }

    /** Writes to each of one user's connections, in whatever order the map
        gives them, dropping those that fail as it goes. */
    method SendToUser(user: string) returns (ghost made: seq<Write>)
      requires NoEmptyUser(clients) && user in clients
      modifies this`clients, this`closed, this`writes
      ensures NoEmptyUser(clients) && writes == old(writes) + made && OncePerPair(made)
      ensures Attempted(made) == PairsOf(user, old(clients)[user])
      ensures Pairs(clients) == Pairs(old(clients)) - Failed(made)
      ensures clients - {user} == old(clients) - {user}
      ensures closed == old(closed) + ConnsOf(Failed(made))
    {
      var todo := clients[user];
      made := [];
      while todo != {}
        invariant user in clients && todo <= clients[user]
        invariant clients - {user} == old(clients) - {user}
        invariant forall u :: u in clients && u != user ==> clients[u] != {}
        invariant writes == old(writes) + made && OncePerPair(made)
        invariant todo <= old(clients)[user] && Attempted(made) == PairsOf(user, old(clients)[user] - todo)
        invariant Pairs(clients) == Pairs(old(clients)) - Failed(made)
        invariant closed == old(closed) + ConnsOf(Failed(made))
      {
        var conn :| conn in todo;
        var ok := WriteJSON(Pair(user, conn));
        OneMoreWrite(made, Write(Pair(user, conn), ok));
        made := made + [Write(Pair(user, conn), ok)];
        if !ok {
          closed := closed + {conn};
          DropPair(clients, Pair(user, conn));
          clients := clients[user := clients[user] - {conn}];
        }
        todo := todo - {conn};
      }
      if clients[user] == {} {
        DropUser(clients, user);
        clients := clients - {user};
      }
    }

    method SendToAll() returns (ghost made: seq<Write>)
      requires NoEmptyUser(clients)
      modifies this`clients, this`closed, this`writes
      ensures NoEmptyUser(clients) && writes == old(writes) + made && OncePerPair(made)
      ensures Attempted(made) == Pairs(old(clients))
      ensures Pairs(clients) == Pairs(old(clients)) - Failed(made)
      ensures closed == old(closed) + ConnsOf(Failed(made))
    {
      var users := clients.Keys;
      made := [];
      while users != {}
        invariant NoEmptyUser(clients) && UsersLeft(old(clients), clients, users, made)
        invariant writes == old(writes) + made
        invariant closed == old(closed) + ConnsOf(Failed(made))
      {
        var user :| user in users;
        ghost var before := clients;
        ghost var more := SendToUser(user);
        OneMoreUser(old(clients), before, clients, users, made, user, more);
        ConnsOfMore(made, more);
        assert writes == old(writes) + (made + more);
        made := made + more;
        users := users - {user};
      }
    }

    /** One message off the channel. */
    method Broadcast(m: Message) returns (ghost made: seq<Write>)
      requires Valid()
      modifies this
      ensures Valid() && history == old(history) + [Send(m, Failed(made))]
      // Each target is written to exactly once, and no other connection is.
      ensures writes == old(writes) + made && OncePerPair(made)
      ensures Attempted(made) == Targets(Registry(old(history)), m)
      // The survivors are exactly those whose write succeeded.
      ensures Registry(history) == Registry(old(history)) - Failed(made)
    {
      var user := "";
      match m.kind {
        case "deposit" => if m.deposit.Some? { user := m.deposit.value; }
        case "withdrawal" => if m.withdrawal.Some? { user := m.withdrawal.value; }
        case "balance" => if m.balance.Some? { user := m.balance.value; }
        case _ =>
      }
      made := [];
      TargetsAreClients(clients, m);
      if user in clients && user != "" {
        made := SendToUser(user);
      } else if user == "" && m.kind == "balance" {
        made := SendToAll();
      }
      history := history + [Send(m, Failed(made))];
      OneMoreSend(old(history), m, Failed(made));
    }

    /** The hub's loop, over the requests in the order it takes them. */
    method Run(requests: seq<Request>)
      requires Valid() && history == []
      modifies this
      ensures Valid() && Answers(history, requests)
    {
      for i := 0 to |requests|
        invariant Valid() && Answers(history, requests[..i])
      {
        match requests[i] {
          case ToRegister(client) => Register(client);
          case ToUnregister(client) => Unregister(client);
          case ToSend(message) => { ghost var made := Broadcast(message); }
        }
        assert requests[..i + 1] == requests[..i] + [requests[i]];
      }
      assert requests[..|requests|] == requests;
    }
  }
}
