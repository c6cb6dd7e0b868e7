/** Which sockets edit which nodes: the gateway's `yjsRooms` against the manager's `clients`. */
module Membership {

  /**
   `docs` maps each loaded node to its clients, `rooms` each tracked socket to its nodes.
   `joins` are join requests waiting for their document, `closing` the disconnected sockets
   whose clean-up still waits behind the presence update; if that fails, as `SweepLost` has it,
   there is no clean-up.  `cleaned` is history: the nodes that
   `cleanupNode` was called for.
   */
  datatype State = State(
    docs: map<string, set<string>>,
    rooms: map<string, set<string>>,
    joins: set<(string, string)>,
    connected: set<string>,
    closing: set<string>,
    cleaned: set<string>)

  datatype Event =
    | Connect(socket: string)
    | JoinAsked(socket: string, node: string)
    | DocLoaded(node: string)
    | JoinFails(socket: string, node: string)
    | JoinCompletes(socket: string, node: string)
    | Leave(socket: string, node: string)
    | Disconnect(socket: string)
    | SweepSocket(socket: string)
    | SweepLost(socket: string)
    | Evict(node: string)
    | CleanupNode(node: string)

  const EMPTY := State(map[], map[], {}, {}, {}, {})

  /** The gateway's side of a join. */
  function AddTo(m: map<string, set<string>>, key: string, member: string): map<string, set<string>> {
    m[key := (if key in m then m[key] else {}) + {member}]
  }

  /** `addClient`: an unknown node is ignored. */
  function WithClient(docs: map<string, set<string>>, node: string, socket: string): map<string, set<string>> {
    if node in docs then docs[node := docs[node] + {socket}] else docs
  }

  /** `removeClient` on the manager's side: an unknown node is ignored, an emptied one stays loaded. */
  function WithoutClient(docs: map<string, set<string>>, node: string, socket: string): map<string, set<string>> {
    if node in docs then docs[node := docs[node] - {socket}] else docs
  }

  /** The gateway's side of a leave: a socket without nodes is forgotten. */
  function WithoutRoom(rooms: map<string, set<string>>, socket: string, node: string): map<string, set<string>> {
    if socket !in rooms then rooms
    else if rooms[socket] - {node} == {} then rooms - {socket}
    else rooms[socket := rooms[socket] - {node}]
  }

  /** The socket leaves every node it is tracked for. */
  function WithoutSocket(docs: map<string, set<string>>, nodes: set<string>, socket: string): map<string, set<string>> {
    map n | n in docs :: if n in nodes then docs[n] - {socket} else docs[n]
  }

  /** The awaited document is there, or was cleaned up between its load and the rest of the join. */
  predicate MayComplete(s: State, k: string, n: string) {
    (k, n) in s.joins && (n in s.docs || n in s.cleaned)
  }

  function Step(s: State, e: Event): State {
    match e
    case Connect(k) => s.(connected := s.connected + {k})
    case JoinAsked(k, n) => if k in s.connected then s.(joins := s.joins + {(k, n)}) else s
    case DocLoaded(n) => if n in s.docs then s else s.(docs := s.docs[n := {}])
    case JoinFails(k, n) => s.(joins := s.joins - {(k, n)})
    case JoinCompletes(k, n) =>
      if MayComplete(s, k, n) then
        s.(joins := s.joins - {(k, n)}, docs := WithClient(s.docs, n, k), rooms := AddTo(s.rooms, k, n))
      else s
    case Leave(k, n) => s.(docs := WithoutClient(s.docs, n, k), rooms := WithoutRoom(s.rooms, k, n))
    case Disconnect(k) =>
      if k in s.connected then s.(connected := s.connected - {k}, closing := s.closing + {k}) else s
    case SweepSocket(k) =>
      if k !in s.closing then s
      else if k !in s.rooms then s.(closing := s.closing - {k})
      else
        s.(closing := s.closing - {k}, docs := WithoutSocket(s.docs, s.rooms[k], k), rooms := s.rooms - {k})
    case SweepLost(k) => s.(closing := s.closing - {k})
    case Evict(n) => if n in s.docs && s.docs[n] == {} then s.(docs := s.docs - {n}) else s
    case CleanupNode(n) => s.(docs := s.docs - {n}, cleaned := s.cleaned + {n})
  }

  function Run(s: State, es: seq<Event>): State
    decreases |es|
  {
    if es == [] then s else Run(Step(s, es[0]), es[1..])
  }

  predicate Tracked(s: State, k: string, n: string) {
    k in s.rooms && n in s.rooms[k]
  }

  predicate Client(s: State, k: string, n: string) {
    n in s.docs && k in s.docs[n]
  }

  /** The two maps are each other's inverse, and no empty set is kept. */
  ghost predicate Inverse(s: State) {
    && s.cleaned == {}
    && (forall k, n :: Client(s, k, n) <==> Tracked(s, k, n))
    && (forall k :: k in s.rooms ==> s.rooms[k] != {})
  }

  /** Every client of a loaded document is tracked for it. */
  ghost predicate ClientsTracked(s: State) {
    && (forall k, n :: Client(s, k, n) ==> Tracked(s, k, n))
    && (forall k :: k in s.rooms ==> s.rooms[k] != {})
  }

  /** A sweep takes the socket out of exactly the nodes it is tracked for. */
  lemma SweepKeepsInverse(s: State, socket: string)
    requires Inverse(s)
    ensures Inverse(Step(s, SweepSocket(socket)))
  {
    var r := Step(s, SweepSocket(socket));
    forall k, n ensures Client(r, k, n) <==> Tracked(r, k, n) {
      assert Client(s, k, n) <==> Tracked(s, k, n);
    }
  }

  lemma StepKeepsInverse(s: State, e: Event)
    requires Inverse(s) && !e.CleanupNode?
    ensures Inverse(Step(s, e))
  {
    var r := Step(s, e);
    if e.SweepSocket? {
      SweepKeepsInverse(s, e.socket);
    } else {
      forall k, n ensures Client(r, k, n) <==> Tracked(r, k, n) {
        assert Client(s, k, n) <==> Tracked(s, k, n);
      }
      if e.JoinCompletes? && r != s { assert e.node in r.rooms[e.socket]; }
    }
  }

  lemma StepKeepsClientsTracked(s: State, e: Event)
    requires ClientsTracked(s)
    ensures ClientsTracked(Step(s, e))
  {
    var r := Step(s, e);
    forall k, n | Client(r, k, n) ensures Tracked(r, k, n) {
      assert Client(s, k, n) ==> Tracked(s, k, n);
      if e.Leave? && k == e.socket {
        assert n in s.rooms[k] - {e.node};
      }
    }
    forall k | k in r.rooms ensures r.rooms[k] != {} {
      if e.JoinCompletes? && k == e.socket && r != s { assert e.node in r.rooms[k]; }
    }
  }

  lemma {:induction false} RunKeepsInverse(s: State, es: seq<Event>)
    requires Inverse(s) && forall e :: e in es ==> !e.CleanupNode?
    ensures Inverse(Run(s, es))
    decreases |es|
  {
    if es != [] {
      StepKeepsInverse(s, es[0]);
      RunKeepsInverse(Step(s, es[0]), es[1..]);
    }
  }

  /**
   In every run without node clean-up a socket is a client of a loaded document exactly when the
   gateway tracks it there; so no socket is tracked for an unloaded node, and no empty set is kept.
   */
  lemma RoomsAreInverseOfClients(es: seq<Event>)
    requires forall e :: e in es ==> !e.CleanupNode?
    ensures Inverse(Run(EMPTY, es))
  {
    RunKeepsInverse(EMPTY, es);
  }

  lemma {:induction false} RunKeepsClientsTracked(s: State, es: seq<Event>)
    requires ClientsTracked(s)
    ensures ClientsTracked(Run(s, es))
    decreases |es|
  {
    if es != [] {
      StepKeepsClientsTracked(s, es[0]);
      RunKeepsClientsTracked(Step(s, es[0]), es[1..]);
    }
  }

  /** With node clean-up the clients are still among the tracked sockets. */
  lemma ClientsStayTracked(es: seq<Event>)
    ensures ClientsTracked(Run(EMPTY, es))
  {
    RunKeepsClientsTracked(EMPTY, es);
  }

  /** Every tracked socket is connected, or its clean-up is still to come. */
  ghost predicate NoGhosts(s: State) {
    forall k :: k in s.rooms ==> k in s.connected || k in s.closing
  }

  /** A join that was waiting for its document completes after its socket has been swept. */
  predicate JoinsTooLate(s: State, e: Event) {
    && e.JoinCompletes? && MayComplete(s, e.socket, e.node)
    && e.socket !in s.connected && e.socket !in s.closing
  }

  /** The presence update of a disconnected socket fails, and the nodes it is tracked for are never left. */
  predicate LosesSweep(s: State, e: Event) {
    e.SweepLost? && e.socket in s.closing && e.socket in s.rooms && e.socket !in s.connected
  }

  /** Exactly these two leave a client that no clean-up will ever remove. */
  lemma GhostsAppearIff(s: State, e: Event)
    requires NoGhosts(s)
    ensures NoGhosts(Step(s, e)) <==> !JoinsTooLate(s, e) && !LosesSweep(s, e)
  {
    if JoinsTooLate(s, e) || LosesSweep(s, e) {
      assert e.socket in Step(s, e).rooms;
    }
  }

  /** Neither happens in the run. */
  predicate AllSwept(s: State, es: seq<Event>)
    decreases |es|
  {
    es == [] || (!JoinsTooLate(s, es[0]) && !LosesSweep(s, es[0]) && AllSwept(Step(s, es[0]), es[1..]))
  }

  ghost predicate NeverGhosts(s: State, es: seq<Event>)
    decreases |es|
  {
    NoGhosts(s) && (es == [] || NeverGhosts(Step(s, es[0]), es[1..]))
  }

  lemma {:induction false} RunGhostsIff(s: State, es: seq<Event>)
    requires NoGhosts(s)
    ensures NeverGhosts(s, es) <==> AllSwept(s, es)
    decreases |es|
  {
    if es != [] {
      GhostsAppearIff(s, es[0]);
      if NoGhosts(Step(s, es[0])) {
        RunGhostsIff(Step(s, es[0]), es[1..]);
      }
    }
  }

  /** A run keeps every tracked socket connected or about to be swept at every moment exactly if neither happens in it. */
  lemma NoGhostsIffAllSwept(es: seq<Event>)
    ensures NeverGhosts(EMPTY, es) <==> AllSwept(EMPTY, es)
  {
    RunGhostsIff(EMPTY, es);
  }

  /** A run with a late join: the socket disconnects while its document is loading. */
  lemma LateJoinHappens()
    ensures var s := Run(EMPTY, [Connect("k"), JoinAsked("k", "n"), Disconnect("k"), SweepSocket("k"), DocLoaded("n")]);
            NoGhosts(s) && JoinsTooLate(s, JoinCompletes("k", "n"))
  {
  }

  /** A run with a lost sweep, and no late join: Redis fails while the socket's presence is removed. */
  lemma LostSweepHappens()
    ensures var es := [Connect("k"), JoinAsked("k", "n"), DocLoaded("n"), JoinCompletes("k", "n"), Disconnect("k")];
            var s := Run(EMPTY, es);
            NoGhosts(s) && LosesSweep(s, SweepLost("k")) && Client(Step(s, SweepLost("k")), "k", "n")
  {
    var s1 := Step(EMPTY, Connect("k"));
    var s2 := Step(s1, JoinAsked("k", "n"));
    var s3 := Step(s2, DocLoaded("n"));
    var s4 := Step(s3, JoinCompletes("k", "n"));
    var s5 := Step(s4, Disconnect("k"));
    assert Run(s4, [Disconnect("k")]) == s5;
    assert Run(s3, [JoinCompletes("k", "n"), Disconnect("k")]) == s5;
    assert Run(s2, [DocLoaded("n"), JoinCompletes("k", "n"), Disconnect("k")]) == s5;
    assert Run(s1, [JoinAsked("k", "n"), DocLoaded("n"), JoinCompletes("k", "n"), Disconnect("k")]) == s5;
  }

  // ── Who is a member ────────────────────────────────────────────────────────

  /** A leave takes the socket out of the node on both sides, and changes nothing for any other pair. */
  lemma LeaveLeaves(s: State, k: string, n: string)
    ensures var r := Step(s, Leave(k, n));
            && !Client(r, k, n) && !Tracked(r, k, n)
            && (forall j, m :: j != k || m != n ==>
                  (Client(r, j, m) <==> Client(s, j, m)) && (Tracked(r, j, m) <==> Tracked(s, j, m)))
            && (forall j :: j in r.rooms ==> j in s.rooms)
            && (s.rooms.Keys > r.rooms.Keys ==> s.rooms.Keys == r.rooms.Keys + {k})
            && r.docs.Keys == s.docs.Keys && r.joins == s.joins
  {
    var r := Step(s, Leave(k, n));
    forall j, m | j != k || m != n ensures Tracked(r, j, m) <==> Tracked(s, j, m) {
      if j == k && Tracked(s, k, m) {
        assert m in s.rooms[k] - {n};
      }
    }
  }

  /** The step completes a join of the pair. */
  predicate Joins(s: State, e: Event, k: string, n: string) {
    e == JoinCompletes(k, n) && MayComplete(s, k, n)
  }

  /** The step takes the socket out of the node. */
  predicate Parts(s: State, e: Event, k: string, n: string) {
    e == Leave(k, n) || (e == SweepSocket(k) && k in s.closing)
  }

  lemma MemberStep(s: State, e: Event, k: string, n: string)
    ensures Tracked(Step(s, e), k, n) <==> Joins(s, e, k, n) || (Tracked(s, k, n) && !Parts(s, e, k, n))
  {
    if e.Leave? {
      LeaveLeaves(s, e.socket, e.node);
    }
  }

  lemma ClientStep(s: State, e: Event, k: string, n: string)
    requires ClientsTracked(s)
    ensures Client(Step(s, e), k, n) <==>
              || (Joins(s, e, k, n) && n in s.docs)
              || (Client(s, k, n) && !Parts(s, e, k, n) && e != CleanupNode(n))
  {
    if e.Leave? {
      LeaveLeaves(s, e.socket, e.node);
    }
    assert Client(s, k, n) ==> Tracked(s, k, n);
  }

  ghost predicate JoinsAt(es: seq<Event>, j: nat, k: string, n: string)
    requires j < |es|
  {
    Joins(Run(EMPTY, es[..j]), es[j], k, n)
  }

  ghost predicate PartsAt(es: seq<Event>, j: nat, k: string, n: string)
    requires j < |es|
  {
    Parts(Run(EMPTY, es[..j]), es[j], k, n)
  }

  /** Some join of the pair completed and nothing took the socket out of the node since. */
  ghost predicate JoinedLast(es: seq<Event>, k: string, n: string) {
    exists j :: 0 <= j < |es| && JoinsAt(es, j, k, n) && forall i :: j < i < |es| ==> !PartsAt(es, i, k, n)
  }

  /** The join at the given place is the last word on the pair. */
  ghost predicate ClientSince(es: seq<Event>, j: nat, k: string, n: string)
    requires j < |es|
  {
    && JoinsAt(es, j, k, n) && n in Run(EMPTY, es[..j]).docs
    && forall i :: j < i < |es| ==> !PartsAt(es, i, k, n) && es[i] != CleanupNode(n)
  }

  /** Some join of the pair found the document, and since then it was not cleaned up either. */
  ghost predicate ClientLast(es: seq<Event>, k: string, n: string) {
    exists j :: 0 <= j < |es| && ClientSince(es, j, k, n)
  }

  lemma {:induction false} RunThenStep(s: State, es: seq<Event>, e: Event)
    ensures Run(s, es + [e]) == Step(Run(s, es), e)
    decreases |es|
  {
    if es == [] {
      assert es + [e] == [e];
    } else {
      assert (es + [e])[1..] == es[1..] + [e];
      RunThenStep(Step(s, es[0]), es[1..], e);
    }
  }

  lemma SamePlaces(es: seq<Event>, e: Event, j: nat, k: string, n: string)
    requires j < |es|
    ensures (es + [e])[..j] == es[..j] && (es + [e])[j] == es[j]
    ensures JoinsAt(es + [e], j, k, n) <==> JoinsAt(es, j, k, n)
    ensures PartsAt(es + [e], j, k, n) <==> PartsAt(es, j, k, n)
  {
    assert (es + [e])[..j] == es[..j];
  }

  lemma JoinedLastStep(es: seq<Event>, e: Event, k: string, n: string)
    ensures var s := Run(EMPTY, es);
            JoinedLast(es + [e], k, n) <==> Joins(s, e, k, n) || (JoinedLast(es, k, n) && !Parts(s, e, k, n))
  {
    var fs := es + [e];
    assert fs[..|es|] == es;
    assert JoinsAt(fs, |es|, k, n) <==> Joins(Run(EMPTY, es), e, k, n);
    assert PartsAt(fs, |es|, k, n) <==> Parts(Run(EMPTY, es), e, k, n);
    forall j | 0 <= j < |es|
      ensures (JoinsAt(fs, j, k, n) <==> JoinsAt(es, j, k, n)) && (PartsAt(fs, j, k, n) <==> PartsAt(es, j, k, n))
    {
      SamePlaces(es, e, j, k, n);
    }
    if JoinedLast(es, k, n) && !Parts(Run(EMPTY, es), e, k, n) {
      var j :| 0 <= j < |es| && JoinsAt(es, j, k, n) && forall i :: j < i < |es| ==> !PartsAt(es, i, k, n);
      assert JoinsAt(fs, j, k, n);
    }
  }

  lemma ClientSinceStep(es: seq<Event>, e: Event, j: nat, k: string, n: string)
    requires j < |es|
    ensures ClientSince(es + [e], j, k, n) <==>
              ClientSince(es, j, k, n) && !Parts(Run(EMPTY, es), e, k, n) && e != CleanupNode(n)
  {
    var fs := es + [e];
    assert fs[..|es|] == es;
    assert PartsAt(fs, |es|, k, n) <==> Parts(Run(EMPTY, es), e, k, n);
    forall i | j <= i < |es|
      ensures (PartsAt(fs, i, k, n) <==> PartsAt(es, i, k, n)) && fs[i] == es[i] && fs[..i] == es[..i]
      ensures JoinsAt(fs, i, k, n) <==> JoinsAt(es, i, k, n)
    {
      SamePlaces(es, e, i, k, n);
    }
  }

  lemma ClientLastStep(es: seq<Event>, e: Event, k: string, n: string)
    ensures var s := Run(EMPTY, es);
            ClientLast(es + [e], k, n) <==>
              || (Joins(s, e, k, n) && n in s.docs)
              || (ClientLast(es, k, n) && !Parts(s, e, k, n) && e != CleanupNode(n))
  {
    var fs := es + [e];
    assert fs[..|es|] == es;
    assert ClientSince(fs, |es|, k, n) <==> Joins(Run(EMPTY, es), e, k, n) && n in Run(EMPTY, es).docs;
    forall j | 0 <= j < |es|
      ensures ClientSince(fs, j, k, n) <==>
                ClientSince(es, j, k, n) && !Parts(Run(EMPTY, es), e, k, n) && e != CleanupNode(n)
    {
      ClientSinceStep(es, e, j, k, n);
    }
  }

  /** In every run the gateway tracks a socket for a node exactly if its last completed join came after its last leave or sweep. */
  lemma {:induction false} TrackedIffJoinedLast(es: seq<Event>, k: string, n: string)
    ensures Tracked(Run(EMPTY, es), k, n) <==> JoinedLast(es, k, n)
    decreases |es|
  {
    if es != [] {
      var front, e := es[..|es| - 1], es[|es| - 1];
      assert es == front + [e];
      TrackedIffJoinedLast(front, k, n);
      RunThenStep(EMPTY, front, e);
      MemberStep(Run(EMPTY, front), e, k, n);
      JoinedLastStep(front, e, k, n);
    }
  }

  /** And it is a client exactly if that join found the document, and no clean-up took it away since. */
  lemma {:induction false} ClientIffJoinedLast(es: seq<Event>, k: string, n: string)
    ensures Client(Run(EMPTY, es), k, n) <==> ClientLast(es, k, n)
    decreases |es|
  {
    if es != [] {
      var front, e := es[..|es| - 1], es[|es| - 1];
      assert es == front + [e];
      ClientIffJoinedLast(front, k, n);
      RunThenStep(EMPTY, front, e);
      ClientsStayTracked(front);
      ClientStep(Run(EMPTY, front), e, k, n);
      ClientLastStep(front, e, k, n);
    }
  }

  /** A connected socket that asks to join a node becomes its client once the document is loaded. */
  lemma JoinSucceeds(s: State, k: string, n: string)
    requires k in s.connected
    ensures var s1 := Step(s, JoinAsked(k, n));
            var s2 := Step(s1, DocLoaded(n));
            var s3 := Step(s2, JoinCompletes(k, n));
            Client(s3, k, n) && Tracked(s3, k, n) && (k, n) !in s3.joins
  {
  }

  /** A join that fails is over and leaves nothing; a socket that is not connected cannot ask for one. */
  lemma FailedJoinLeavesNothing(s: State, k: string, n: string)
    ensures Step(s, JoinFails(k, n)) == s.(joins := s.joins - {(k, n)})
    ensures k !in s.connected ==> Step(s, JoinAsked(k, n)) == s
    ensures !MayComplete(s, k, n) ==> Step(s, JoinCompletes(k, n)) == s
    ensures k in Step(s, Connect(k)).connected && Step(s, Connect(k)).rooms == s.rooms
  {
  }

  /** A node whose last client has gone can be dropped, one with clients only by a clean-up. */
  lemma DroppedIff(s: State, n: string)
    requires n in s.docs
    ensures n !in Step(s, Evict(n)).docs <==> forall k :: !Client(s, k, n)
    ensures n !in Step(s, CleanupNode(n)).docs
    ensures forall m :: m != n && m in s.docs ==> m in Step(s, Evict(n)).docs && m in Step(s, CleanupNode(n)).docs
  {
    if s.docs[n] != {} {
      var k :| k in s.docs[n];
      assert Client(s, k, n);
    }
  }

  /** A disconnected socket's clean-up leaves it nothing. */
  lemma DisconnectLeavesAll(s: State, k: string)
    requires ClientsTracked(s) && k in s.connected
    ensures var r := Step(Step(s, Disconnect(k)), SweepSocket(k));
            && k !in r.connected && k !in r.closing && k !in r.rooms
            && (forall n :: !Client(r, k, n))
            && (forall j, n :: j != k ==> (Client(r, j, n) <==> Client(s, j, n)) && (Tracked(r, j, n) <==> Tracked(s, j, n)))
  {
    var s1 := Step(s, Disconnect(k));
    var r := Step(s1, SweepSocket(k));
    StepKeepsClientsTracked(s, Disconnect(k));
    forall j, n
      ensures Client(r, j, n) <==> j != k && Client(s, j, n)
      ensures Tracked(r, j, n) <==> j != k && Tracked(s, j, n)
    {
      ClientStep(s1, SweepSocket(k), j, n);
      MemberStep(s1, SweepSocket(k), j, n);
    }
  }

  // ── The gateway's handlers ─────────────────────────────────────────────────

  class Gateway {
    var docs: map<string, set<string>>
    var yjsRooms: map<string, set<string>>
    var joins: set<(string, string)>
    var connected: set<string>
    var closing: set<string>
    ghost var cleaned: set<string>

    ghost function Model(): State
      reads this
    {
      State(docs, yjsRooms, joins, connected, closing, cleaned)
    }

    /** The manager's `addClient` and `removeClient`, as far as membership goes. */
    method AddClient(nodeId: string, socketId: string)
      modifies this`docs
      ensures docs == WithClient(old(docs), nodeId, socketId)
    {
      if nodeId !in docs {
        return;
      }
      docs := docs[nodeId := docs[nodeId] + {socketId}];
    }

    method RemoveClient(nodeId: string, socketId: string)
      modifies this`docs
      ensures docs == WithoutClient(old(docs), nodeId, socketId)
    {
      if nodeId !in docs {
        return;
      }
      docs := docs[nodeId := docs[nodeId] - {socketId}];
    }

    /** `handleYjsJoin` from the moment its document is there. */
    method CompleteJoin(nodeId: string, clientId: string)
      requires MayComplete(Model(), clientId, nodeId)
      modifies this`docs, this`yjsRooms, this`joins
      ensures Model() == Step(old(Model()), JoinCompletes(clientId, nodeId))
    {
      joins := joins - {(clientId, nodeId)};
      AddClient(nodeId, clientId);
      if clientId !in yjsRooms {
        yjsRooms := yjsRooms[clientId := {}];
      }
      yjsRooms := yjsRooms[clientId := yjsRooms[clientId] + {nodeId}];
    }

    method HandleYjsLeave(nodeId: string, clientId: string)
      modifies this`docs, this`yjsRooms
      ensures Model() == Step(old(Model()), Leave(clientId, nodeId))
    {
      RemoveClient(nodeId, clientId);
      if clientId in yjsRooms {
        yjsRooms := yjsRooms[clientId := yjsRooms[clientId] - {nodeId}];
        if yjsRooms[clientId] == {} {
          yjsRooms := yjsRooms - {clientId};
        }
      }
    }

    /** `handleDisconnect` when removing or announcing the presence fails: the handler ends there. */
    method LoseSweep(clientId: string)
      requires clientId in closing
      modifies this`closing
      ensures Model() == Step(old(Model()), SweepLost(clientId))
    {
      closing := closing - {clientId};
    }

    /** The Yjs part of `handleDisconnect`: the socket leaves its nodes one after the other. */
    method SweepClient(clientId: string)
      requires clientId in closing
      modifies this`docs, this`yjsRooms, this`closing
      ensures Model() == Step(old(Model()), SweepSocket(clientId))
    {
      closing := closing - {clientId};
      if clientId in yjsRooms {
        var nodeIds := yjsRooms[clientId];
        var left := nodeIds;
        while left != {}
          invariant left <= nodeIds
          invariant docs == WithoutSocket(old(docs), nodeIds - left, clientId)
          invariant yjsRooms == old(yjsRooms) && joins == old(joins) && connected == old(connected)
          invariant closing == old(closing) - {clientId}
          decreases left
        {
          var nodeId :| nodeId in left;
          RemoveClient(nodeId, clientId);
          left := left - {nodeId};
        }
        assert nodeIds - left == nodeIds;
        yjsRooms := yjsRooms - {clientId};
      }
    }
  }
}
