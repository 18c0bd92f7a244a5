/**
  The WebSocket hub (internal/websocket/hub.go): three redundant indexes of the
  connected clients.  A client is identified by its connection; what the source
  keeps inside the client object and the hub changes, its Rooms and its send
  channel, is kept here in the hub's state.
 */
module WebSocketHub {
  import opened Prelude

  datatype Client = Client(id: nat, userId: nat)

  datatype Message = Message(room: string, userId: nat)

  datatype Metrics = Metrics(totalConnections: int, activeConnections: int, totalMessages: int,
                             totalBroadcasts: int, totalRooms: int)

  datatype HubState = HubState(
    clients: set<Client>,
    userClients: map<nat, set<Client>>,
    roomClients: map<string, set<Client>>,
    rooms: map<Client, set<string>>,   // each client's own Rooms
    closed: multiset<Client>,          // how often each send channel was closed
    metrics: Metrics)

  function Empty(): HubState {
    HubState({}, map[], map[], map[], multiset{}, Metrics(0, 0, 0, 0, 0))
  }

  function Members<K>(index: map<K, set<Client>>, k: K): set<Client> {
    if k in index then index[k] else {}
  }

  function RoomsOf(h: HubState, c: Client): set<string> {
    if c in h.rooms then h.rooms[c] else {}
  }

  /** `delete(index[k], c)`, dropping the entry when it becomes empty. */
  function Without<K>(index: map<K, set<Client>>, k: K, c: Client): map<K, set<Client>> {
    if k !in index then index
    else if index[k] - {c} == {} then index - {k}
    else index[k := index[k] - {c}]
  }

  /** The same for every key of the index. */
  function WithoutAll<K>(index: map<K, set<Client>>, c: Client): map<K, set<Client>> {
    map k | k in index && index[k] - {c} != {} :: index[k] - {c}
  }

  function Registered(h: HubState, c: Client): HubState {
    h.(clients := h.clients + {c},
       userClients := if c.userId > 0 then h.userClients[c.userId := Members(h.userClients, c.userId) + {c}]
                      else h.userClients,
       metrics := h.metrics.(totalConnections := h.metrics.totalConnections + 1,
                             activeConnections := h.metrics.activeConnections + 1))
  }

  function Unregistered(h: HubState, c: Client): HubState {
    if c !in h.clients then h
    else h.(clients := h.clients - {c},
            closed := h.closed + multiset{c},
            userClients := if c.userId > 0 then Without(h.userClients, c.userId, c) else h.userClients,
            roomClients := WithoutAll(h.roomClients, c),
            metrics := h.metrics.(activeConnections := h.metrics.activeConnections - 1))
  }

  function Joined(h: HubState, c: Client, room: string): HubState {
    var rc := h.roomClients[room := Members(h.roomClients, room) + {c}];
    h.(roomClients := rc,
       rooms := h.rooms[c := RoomsOf(h, c) + {room}],
       metrics := h.metrics.(totalRooms := |rc|))
  }

  function Left(h: HubState, c: Client, room: string): HubState {
    var rc := Without(h.roomClients, room, c);
    h.(roomClients := rc,
       rooms := h.rooms[c := RoomsOf(h, c) - {room}],
       metrics := h.metrics.(totalRooms := |rc|))
  }

  function Targets(h: HubState, m: Message): set<Client> {
    if m.room != "" then Members(h.roomClients, m.room)
    else if m.userId > 0 then Members(h.userClients, m.userId)
    else h.clients
  }

  /** `accepted` are the clients whose send buffer has room. */
  function Broadcasted(h: HubState, m: Message, accepted: set<Client>): HubState {
    h.(metrics := h.metrics.(totalBroadcasts := h.metrics.totalBroadcasts + 1,
                             totalMessages := h.metrics.totalMessages + |Targets(h, m) * accepted|))
  }

  /** The index after the handlers' two assignments. */
  lemma MemberAdded<K>(index: map<K, set<Client>>, k: K, c: Client)
    ensures (if k in index then index else index[k := {}])[k := Members(index, k) + {c}] ==
      index[k := Members(index, k) + {c}]
  {
  }

  lemma MemberRemoved<K>(index: map<K, set<Client>>, k: K, c: Client)
    ensures k in index ==> index[k := index[k] - {c}] - {k} == index - {k}
  {
  }

  // ---------- The hub object ----------

  class Hub {
    var clients: set<Client>
    var userClients: map<nat, set<Client>>
    var roomClients: map<string, set<Client>>
    var rooms: map<Client, set<string>>
    var closed: multiset<Client>
    var metrics: Metrics

    ghost function View(): HubState
      reads this
    {
      HubState(clients, userClients, roomClients, rooms, closed, metrics)
    }

    constructor ()
      ensures View() == Empty()
    {
      clients, userClients, roomClients, rooms := {}, map[], map[], map[];
      closed, metrics := multiset{}, Metrics(0, 0, 0, 0, 0);
    }

    method RegisterClient(c: Client)
      modifies this
      ensures View() == Registered(old(View()), c)
    {
      clients := clients + {c};
      if c.userId > 0 {
        if c.userId !in userClients {
          userClients := userClients[c.userId := {}];
        }
        userClients := userClients[c.userId := userClients[c.userId] + {c}];
      }
      metrics := metrics.(totalConnections := metrics.totalConnections + 1,
                          activeConnections := metrics.activeConnections + 1);
      assert userClients == Registered(old(View()), c).userClients;
    }

    method UnregisterClient(c: Client)
      modifies this
      ensures View() == Unregistered(old(View()), c)
    {
      if c in clients {
        clients := clients - {c};
        closed := closed + multiset{c};
        if c.userId > 0 && c.userId in userClients {
          var remaining := userClients[c.userId] - {c};
          userClients := userClients[c.userId := remaining];
          if remaining == {} {
            userClients := userClients - {c.userId};
          }
        }
        assert userClients == Unregistered(old(View()), c).userClients;
        RemoveFromRooms(c);
        metrics := metrics.(activeConnections := metrics.activeConnections - 1);
      }
    }

    /** The loop of unregisterClient over all rooms; the iteration order is arbitrary. */
    method RemoveFromRooms(c: Client)
      modifies this`roomClients
      ensures roomClients == WithoutAll(old(roomClients), c)
    {
      ghost var before := roomClients;
      var todo := roomClients.Keys;
      while todo != {}
        invariant todo <= before.Keys
        invariant forall r :: r in roomClients <==> r in before && (r in todo || before[r] - {c} != {})
        invariant forall r :: r in roomClients ==>
                    roomClients[r] == if r in todo then before[r] else before[r] - {c}
        decreases todo
      {
        var room :| room in todo;
        todo := todo - {room};
        roomClients := roomClients[room := roomClients[room] - {c}];
        if roomClients[room] == {} {
          roomClients := roomClients - {room};
        }
      }
    }

    method HandleJoinRoom(c: Client, room: string)
      modifies this
      ensures View() == Joined(old(View()), c, room)
    {
      MemberAdded(roomClients, room, c);
      if room !in roomClients {
        roomClients := roomClients[room := {}];
      }
      roomClients := roomClients[room := roomClients[room] + {c}];
      rooms := rooms[c := (if c in rooms then rooms[c] else {}) + {room}];
      metrics := metrics.(totalRooms := |roomClients|);
    }

    method HandleLeaveRoom(c: Client, room: string)
      modifies this
      ensures View() == Left(old(View()), c, room)
    {
      MemberRemoved(roomClients, room, c);
      if room in roomClients {
        var remaining := roomClients[room] - {c};
        roomClients := roomClients[room := remaining];
        if remaining == {} {
          roomClients := roomClients - {room};
        }
      }
      rooms := rooms[c := (if c in rooms then rooms[c] else {}) - {room}];
      metrics := metrics.(totalRooms := |roomClients|);
    }

    /** Returns the clients the message was put in the channel of. */
    method HandleBroadcast(m: Message, accepted: set<Client>) returns (sent: set<Client>)
      modifies this`metrics
      ensures View() == Broadcasted(old(View()), m, accepted)
      ensures sent == Targets(old(View()), m) * accepted
    {
      metrics := metrics.(totalBroadcasts := metrics.totalBroadcasts + 1);
      var targets: set<Client>;
      if m.room != "" {
        targets := if m.room in roomClients then roomClients[m.room] else {};
      } else if m.userId > 0 {
        targets := if m.userId in userClients then userClients[m.userId] else {};
      } else {
        targets := clients;
      }
      sent := SendTo(targets, accepted);
    }

    /** The non-blocking sends of handleBroadcast, in arbitrary order. */
    method SendTo(targets: set<Client>, accepted: set<Client>) returns (sent: set<Client>)
      modifies this`metrics
      ensures sent == targets * accepted
      ensures metrics == old(metrics).(totalMessages := old(metrics).totalMessages + |sent|)
    {
      var todo := targets;
      sent := {};
      while todo != {}
        invariant todo <= targets
        invariant sent == (targets - todo) * accepted
        invariant metrics == old(metrics).(totalMessages := old(metrics).totalMessages + |sent|)
        decreases todo
      {
        var c :| c in todo;
        todo := todo - {c};
        if c in accepted {
          sent := sent + {c};
          metrics := metrics.(totalMessages := metrics.totalMessages + 1);
        }
      }
      assert targets - todo == targets;
    }
  }

  // ---------- Runs ----------

  datatype Event =
    | Register(c: Client)
    | Unregister(c: Client)
    | Join(c: Client, room: string)
    | Leave(c: Client, room: string)
    | Broadcast(m: Message, accepted: set<Client>)

  function Apply(h: HubState, e: Event): HubState {
    match e
    case Register(c) => Registered(h, c)
    case Unregister(c) => Unregistered(h, c)
    case Join(c, room) => Joined(h, c, room)
    case Leave(c, room) => Left(h, c, room)
    case Broadcast(m, accepted) => Broadcasted(h, m, accepted)
  }

  function Run(es: seq<Event>): HubState {
    if es == [] then Empty() else Apply(Run(es[..|es| - 1]), es[|es| - 1])
  }

  /** Each client registers at most once, and only registered clients join rooms. */
  ghost predicate Disciplined(es: seq<Event>) {
    && (forall i, j :: 0 <= i < j < |es| && es[i].Register? && es[j].Register? ==> es[i].c != es[j].c)
    && (forall i :: 0 <= i < |es| && es[i].Join? ==> es[i].c in Run(es[..i]).clients)
  }

  ghost predicate EverRegistered(es: seq<Event>, c: Client) {
    exists i :: 0 <= i < |es| && es[i] == Register(c)
  }

  /** userClients is the grouping of the registered clients by non-zero user, without empty groups. */
  ghost predicate UsersAgree(clients: set<Client>, index: map<nat, set<Client>>) {
    && (forall u :: u in index ==> u > 0 && index[u] != {})
    && (forall u, c :: u in index && c in index[u] ==> c in clients && c.userId == u)
    && (forall c :: c in clients && c.userId > 0 ==> c.userId in index && c in index[c.userId])
  }

  /** roomClients is the inverse of the registered clients' Rooms, without empty rooms. */
  ghost predicate RoomsAgree(clients: set<Client>, index: map<string, set<Client>>, rooms: map<Client, set<string>>) {
    && (forall r :: r in index ==> index[r] != {})
    && (forall r, c :: r in index && c in index[r] ==> c in clients && c in rooms && r in rooms[c])
    && (forall r, c :: c in clients && c in rooms && r in rooms[c] ==> r in index && c in index[r])
  }

  /** No send channel is closed twice, and no registered client's is closed. */
  ghost predicate ChannelsAgree(clients: set<Client>, closed: multiset<Client>) {
    forall c :: closed[c] <= if c in clients then 0 else 1
  }

  ghost predicate MetricsAgree(m: Metrics, connections: nat, rooms: nat) {
    m.activeConnections == connections && m.totalRooms >= rooms
  }

  ghost predicate Agree(h: HubState) {
    && UsersAgree(h.clients, h.userClients)
    && RoomsAgree(h.clients, h.roomClients, h.rooms)
    && ChannelsAgree(h.clients, h.closed)
    && MetricsAgree(h.metrics, |h.clients|, |h.roomClients|)
  }

  type Coherent = h: HubState | Agree(h) witness Empty()

  /** A connection that never registered has no trace in the hub. */
  ghost predicate Unseen(h: HubState, c: Client) {
    c !in h.clients && h.closed[c] == 0 && RoomsOf(h, c) == {}
  }

  lemma {:induction false} SubsetSize<K>(a: set<K>, b: set<K>)
    requires a <= b
    ensures |a| <= |b|
  {
    if a != {} {
      var x :| x in a;
      SubsetSize(a - {x}, b - {x});
    }
  }

  lemma UserAdded(clients: set<Client>, index: map<nat, set<Client>>, c: Client)
    requires UsersAgree(clients, index) && c.userId > 0
    ensures UsersAgree(clients + {c}, index[c.userId := Members(index, c.userId) + {c}])
  {
  }

  lemma UserRemoved(clients: set<Client>, index: map<nat, set<Client>>, c: Client)
    requires UsersAgree(clients, index) && c.userId > 0
    ensures UsersAgree(clients - {c}, Without(index, c.userId, c))
  {
  }

  lemma MemberLeavesHub(clients: set<Client>, index: map<string, set<Client>>, rooms: map<Client, set<string>>,
      c: Client)
    requires RoomsAgree(clients, index, rooms)
    ensures RoomsAgree(clients - {c}, WithoutAll(index, c), rooms)
    ensures |WithoutAll(index, c)| <= |index|
  {
    SubsetSize(WithoutAll(index, c).Keys, index.Keys);
  }

  lemma MemberJoins(clients: set<Client>, index: map<string, set<Client>>, rooms: map<Client, set<string>>,
                    c: Client, room: string)
    requires RoomsAgree(clients, index, rooms) && c in clients
    ensures RoomsAgree(clients, index[room := Members(index, room) + {c}],
                       rooms[c := (if c in rooms then rooms[c] else {}) + {room}])
  {
  }

  lemma MemberLeaves(clients: set<Client>, index: map<string, set<Client>>, rooms: map<Client, set<string>>,
                     c: Client, room: string)
    requires RoomsAgree(clients, index, rooms)
    ensures RoomsAgree(clients, Without(index, room, c),
                       rooms[c := (if c in rooms then rooms[c] else {}) - {room}])
  {
    var after := Without(index, room, c);
    forall r, x | x in clients && x in rooms && r in rooms[x] && (x != c || r != room)
      ensures r in after && x in after[r]
    {
      assert r in index && x in index[r];
      if r == room {
        assert x in index[r] - {c};
      }
    }
  }

  lemma ChannelCloses(clients: set<Client>, closed: multiset<Client>, c: Client)
    requires ChannelsAgree(clients, closed) && c in clients
    ensures ChannelsAgree(clients - {c}, closed + multiset{c})
  {
  }

  lemma NewcomerInNoRoom(clients: set<Client>, index: map<string, set<Client>>, rooms: map<Client, set<string>>,
      c: Client)
    requires RoomsAgree(clients, index, rooms) && (c in rooms ==> rooms[c] == {})
    ensures RoomsAgree(clients + {c}, index, rooms)
  {
  }

  lemma RegisterKeepsUsers(h: HubState, c: Client)
    requires UsersAgree(h.clients, h.userClients)
    ensures UsersAgree(Registered(h, c).clients, Registered(h, c).userClients)
  {
    if c.userId > 0 {
      UserAdded(h.clients, h.userClients, c);
    }
  }

  lemma RegisterKeeps(h: Coherent, c: Client) returns (r: Coherent)
    requires Unseen(h, c)
    ensures r == Registered(h, c)
  {
    RegisterKeepsUsers(h, c);
    NewcomerInNoRoom(h.clients, h.roomClients, h.rooms, c);
    r := Registered(h, c);
  }

  lemma UnregisterKeepsUsers(h: HubState, c: Client)
    requires UsersAgree(h.clients, h.userClients)
    ensures UsersAgree(Unregistered(h, c).clients, Unregistered(h, c).userClients)
  {
    if c in h.clients && c.userId > 0 {
      UserRemoved(h.clients, h.userClients, c);
    }
  }

  lemma UnregisterKeeps(h: Coherent, c: Client) returns (r: Coherent)
    ensures r == Unregistered(h, c)
  {
    if c in h.clients {
      UnregisterKeepsUsers(h, c);
      ChannelCloses(h.clients, h.closed, c);
      MemberLeavesHub(h.clients, h.roomClients, h.rooms, c);
    }
    r := Unregistered(h, c);
  }

  lemma JoinKeeps(h: Coherent, c: Client, room: string) returns (r: Coherent)
    requires c in h.clients
    ensures r == Joined(h, c, room)
  {
    MemberJoins(h.clients, h.roomClients, h.rooms, c, room);
    r := Joined(h, c, room);
  }

  lemma LeaveKeeps(h: Coherent, c: Client, room: string) returns (r: Coherent)
    ensures r == Left(h, c, room)
  {
    MemberLeaves(h.clients, h.roomClients, h.rooms, c, room);
    r := Left(h, c, room);
  }

  lemma EventLeavesUnseen(h: HubState, e: Event, c: Client)
    requires Unseen(h, c) && e != Register(c) && (e.Join? ==> e.c in h.clients)
    ensures Unseen(Apply(h, e), c)
  {
  }

  lemma {:induction false} NeverRegisteredUnseen(es: seq<Event>, c: Client)
    requires Disciplined(es) && !EverRegistered(es, c)
    ensures Unseen(Run(es), c)
  {
    if es != [] {
      var n := |es| - 1;
      DisciplinedPrefix(es, n);
      assert es[n] != Register(c);
      assert !EverRegistered(es[..n], c) by {
        assert forall i :: 0 <= i < n ==> es[..n][i] == es[i];
      }
      NeverRegisteredUnseen(es[..n], c);
      EventLeavesUnseen(Run(es[..n]), es[n], c);
    }
  }

  lemma DisciplinedPrefix(es: seq<Event>, n: nat)
    requires Disciplined(es) && n <= |es|
    ensures Disciplined(es[..n])
  {
    forall i | 0 <= i < n && es[i].Join? ensures es[..n][i].c in Run(es[..n][..i]).clients {
      assert es[..n][..i] == es[..i];
    }
  }

  /** An event that a disciplined run may continue with from this state. */
  ghost predicate Welcome(h: HubState, e: Event) {
    (e.Register? ==> Unseen(h, e.c)) && (e.Join? ==> e.c in h.clients)
  }

  lemma EventKeeps(h: Coherent, e: Event) returns (r: Coherent)
    requires Welcome(h, e)
    ensures r == Apply(h, e)
  {
    match e
    case Register(c) => r := RegisterKeeps(h, c);
    case Unregister(c) => r := UnregisterKeeps(h, c);
    case Join(c, room) => r := JoinKeeps(h, c, room);
    case Leave(c, room) => r := LeaveKeeps(h, c, room);
    case Broadcast(m, accepted) => r := Broadcasted(h, m, accepted);
  }

  lemma NextIsWelcome(es: seq<Event>, n: nat)
    requires Disciplined(es) && n == |es| - 1
    ensures Welcome(Run(es[..n]), es[n])
  {
    if es[n].Register? {
      DisciplinedPrefix(es, n);
      NeverRegisteredUnseen(es[..n], es[n].c);
    }
  }

  lemma {:induction false} CoherentRun(es: seq<Event>) returns (h: Coherent)
    requires Disciplined(es)
    ensures h == Run(es)
  {
    h := Empty();
    if es != [] {
      var n := |es| - 1;
      DisciplinedPrefix(es, n);
      NextIsWelcome(es, n);
      h := CoherentRun(es[..n]);
      h := EventKeeps(h, es[n]);
    }
  }

  /** In every disciplined run the three indexes, the counters and the channels agree. */
  lemma {:induction false} IndexesAgree(es: seq<Event>)
    requires Disciplined(es)
    ensures Agree(Run(es))
  {
    var h := CoherentRun(es);
  }

  /** The clients a message is meant for. */
  ghost predicate Addressed(h: HubState, m: Message, c: Client) {
    && c in h.clients
    && (if m.room != "" then m.room in RoomsOf(h, c) else m.userId > 0 ==> c.userId == m.userId)
  }

  lemma CoherentTargets(h: HubState, m: Message, c: Client)
    requires UsersAgree(h.clients, h.userClients) && RoomsAgree(h.clients, h.roomClients, h.rooms)
    ensures c in Targets(h, m) <==> Addressed(h, m, c)
  {
  }

  /** A broadcast reaches exactly the clients its address describes, and none with a closed channel. */
  lemma {:induction false} BroadcastTargets(es: seq<Event>, m: Message, c: Client)
    requires Disciplined(es)
    ensures c in Targets(Run(es), m) <==> Addressed(Run(es), m, c)
    ensures c in Targets(Run(es), m) ==> Run(es).closed[c] == 0
  {
    var h := CoherentRun(es);
    CoherentTargets(h, m, c);
  }

  // ---------- The counters ----------

  datatype Totals = Totals(registrations: nat, broadcasts: nat, messages: nat)

  /** The totals after one more event, which finds these targets. */
  function Plus(sum: Totals, e: Event, targets: set<Client>): Totals {
    match e
    case Register(_) => sum.(registrations := sum.registrations + 1)
    case Broadcast(_, accepted) =>
      sum.(broadcasts := sum.broadcasts + 1, messages := sum.messages + |targets * accepted|)
    case _ => sum
  }

  function TargetsOf(h: HubState, e: Event): set<Client> {
    if e.Broadcast? then Targets(h, e.m) else {}
  }

  /** Registrations, broadcasts and messages put in a channel over the whole run. */
  function Tallied(es: seq<Event>): Totals {
    if es == [] then Totals(0, 0, 0)
    else
      var n := |es| - 1;
      Plus(Tallied(es[..n]), es[n], TargetsOf(Run(es[..n]), es[n]))
  }

  ghost predicate Shows(m: Metrics, sum: Totals) {
    && m.totalConnections == sum.registrations && m.totalBroadcasts == sum.broadcasts
    && m.totalMessages == sum.messages
  }

  lemma StepShows(h: HubState, e: Event, sum: Totals)
    requires Shows(h.metrics, sum)
    ensures Shows(Apply(h, e).metrics, Plus(sum, e, TargetsOf(h, e)))
  {
  }

  ghost predicate Counted(es: seq<Event>) {
    forall k :: Asked(k) ==> Shows(Run(es).metrics, Tallied(es))
  }

  lemma {:induction false} OneMoreCounted(es: seq<Event>, before: seq<Event>, h: HubState)
    requires es != [] && before == es[..|es| - 1] && h == Run(before) && Counted(before)
    ensures Counted(es)
  {
    assert Asked(0);
    StepShows(h, es[|es| - 1], Tallied(before));
  }

  lemma {:induction false} AllCounted(es: seq<Event>)
    ensures Counted(es)
  {
    if es != [] {
      var before := es[..|es| - 1];
      AllCounted(before);
      OneMoreCounted(es, before, Run(before));
    }
  }

  /** In every run the running totals count all registrations, broadcasts and messages sent. */
  lemma {:induction false} TotalsCount(es: seq<Event>)
    ensures Shows(Run(es).metrics, Tallied(es))
  {
    AllCounted(es);
    assert Asked(0);
  }

  // ---------- Joins of clients that are not registered ----------

  /** The indexes survive a join, at any point of a disciplined run, if and only if the client is registered. */
  lemma {:induction false} JoinAgreesIff(es: seq<Event>, c: Client, room: string)
    requires Disciplined(es)
    ensures Agree(Joined(Run(es), c, room)) <==> c in Run(es).clients
  {
    var h := CoherentRun(es);
    if c in h.clients {
      var r := JoinKeeps(h, c, room);
    } else {
      var t := Joined(h, c, room);
      assert room in t.roomClients && c in t.roomClients[room] && c !in t.clients;
    }
  }

  /** A client that joins after it has been unregistered makes its closed channel a target of broadcasts. */
  lemma {:induction false} JoinAfterCloseIsTarget(h: HubState, c: Client, room: string, m: Message)
    requires h == Unregistered(Registered(Empty(), c), c) && m.room == room != ""
    ensures h == Run([Register(c), Unregister(c)]) && Disciplined([Register(c), Unregister(c)])
    ensures var t := Joined(h, c, room); c in Targets(t, m) && t.closed[c] == 1
  {
    var es := [Register(c), Unregister(c)];
    assert es[..1] == [Register(c)] && [Register(c)][..0] == [];
    assert Run([Register(c)]) == Registered(Empty(), c);
  }

  /** Each client registers at most once. */
  ghost predicate RegistersOnce(es: seq<Event>) {
    forall i, j :: 0 <= i < j < |es| && es[i].Register? && es[j].Register? ==> es[i].c != es[j].c
  }

  ghost predicate AgreeThroughout(es: seq<Event>) {
    forall k :: 0 <= k <= |es| ==> Agree(Run(es[..k]))
  }

  /** A join that leaves the hub agreeing, at any point of a run disciplined so far, is a registered client's. */
  lemma {:induction false} JoinerIsRegistered(es: seq<Event>, i: nat)
    requires i < |es| && es[i].Join? && Disciplined(es[..i]) && Agree(Run(es[..i + 1]))
    ensures es[i].c in Run(es[..i]).clients
  {
    var upto := es[..i + 1];
    assert upto[..|upto| - 1] == es[..i] && upto[|upto| - 1] == es[i];
    JoinAgreesIff(es[..i], es[i].c, es[i].room);
  }

  lemma DisciplinedSnoc(es: seq<Event>, n: nat)
    requires n < |es| && RegistersOnce(es) && Disciplined(es[..n])
    requires es[n].Join? ==> es[n].c in Run(es[..n]).clients
    ensures Disciplined(es[..n + 1])
  {
    var (to, upto) := (es[..n], es[..n + 1]);
    forall i | 0 <= i < |upto| && upto[i].Join? ensures upto[i].c in Run(upto[..i]).clients {
      assert upto[..i] == es[..i];
      if i < n {
        assert to[..i] == es[..i] && to[i] == es[i];
      }
    }
  }

  /** The run is disciplined so far; looked into where it is asked. */
  ghost predicate DisciplinedSoFar(es: seq<Event>, n: nat)
    requires n <= |es|
  {
    forall k :: Asked(k) ==> Disciplined(es[..n])
  }

  lemma DisciplinedThen(es: seq<Event>, n: nat)
    requires n <= |es| && DisciplinedSoFar(es, n)
    ensures Disciplined(es[..n])
  {
    assert Asked(0);
  }

  lemma {:induction false} NextDisciplined(es: seq<Event>, n: nat)
    requires n < |es| && RegistersOnce(es) && AgreesAlways(es) && DisciplinedSoFar(es, n)
    ensures DisciplinedSoFar(es, n + 1)
  {
    AgreesThen(es, n + 1);
    DisciplinedThen(es, n);
    if es[n].Join? {
      JoinerIsRegistered(es, n);
    }
    DisciplinedSnoc(es, n);
  }

  /** What agreement throughout a run is used for, one state at a time. */
  ghost predicate AgreesAlways(es: seq<Event>) {
    forall k :: Asked(k) ==> AgreeThroughout(es)
  }

  lemma AgreesThen(es: seq<Event>, n: nat)
    requires AgreesAlways(es) && n <= |es|
    ensures Agree(Run(es[..n]))
  {
    assert Asked(0);
  }

  lemma {:induction false} AgreeingIsDisciplined(es: seq<Event>, n: nat)
    requires RegistersOnce(es) && AgreesAlways(es) && n <= |es|
    ensures DisciplinedSoFar(es, n)
  {
    if n > 0 {
      AgreeingIsDisciplined(es, n - 1);
      NextDisciplined(es, n - 1);
    }
  }

  /**
    For clients that register at most once: the indexes, counters and channels agree throughout a run if
    and only if only registered clients join rooms.
   */
  lemma {:induction false} AgreeThroughoutIff(es: seq<Event>)
    requires RegistersOnce(es)
    ensures AgreeThroughout(es) <==> Disciplined(es)
  {
    if Disciplined(es) {
      forall k | 0 <= k <= |es| ensures Agree(Run(es[..k])) {
        DisciplinedPrefix(es, k);
        IndexesAgree(es[..k]);
      }
    }
    if AgreeThroughout(es) {
      AgreeingIsDisciplined(es, |es|);
      DisciplinedThen(es, |es|);
      assert es[..|es|] == es;
    }
  }
}
