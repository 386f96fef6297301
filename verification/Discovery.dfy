/** The discovery listener's table of known domains and the backplane's table of sessions, which
    are changed together but not by one statement. */
module Discovery {
  import opened Values

  type Name = string

  /** CDomainInfo. */
  datatype DomainInfo = DomainInfo(wampIp: string, wampPort: nat, domainName: Name, realmName: string)

  /** What one receive brings: an error, octets that do not unpack, or a version number and what
      follows it; `body` is None when it does not unpack or does not convert. */
  datatype Packet =
    | ReceiveError
    | Unreadable
    | Versioned(version: Value, body: Option<DomainInfo>)
  {
    /** An announcement of this protocol's version, in order. */
    predicate Heard() {
      Versioned? && version == UInt(PROTOCOL_VERSION_NUMBER) && body.Some?
    }
  }

  const PROTOCOL_VERSION_NUMBER: nat := 1

  /** How far a client has come: its TCP connect is under way, failed, or made.  It raises an erasure
      of its name when the connect fails, or when its session signals a receive error, which a
      session does at most once (Link.AtMostOneSignal). */
  datatype Stage = Dialing | Failed | Connected | Erased

  /** One wamp_tcp_client; the local one is number 0 and has no disconnect handler. */
  datatype Client = Client(name: Name, stage: Stage)

  datatype Event =
    | Announced(name: Name)                              // m_onDomainDiscovery
    | Erasure(name: Name, raiser: nat, removed: Option<nat>) // by which client, and which one went

  datatype State = State(
    live: bool,                    // no exception has left the io loop
    known: map<Name, DomainInfo>,  // m_knownDomains
    sessions: map<Name, nat>,      // m_sessionMap, by client number
    clients: seq<Client>,
    receives: nat,                 // receives outstanding
    count: nat,                    // m_rxMessageCount
    log: seq<Event>)

  /** main(): the local session is in the table before anything is received. */
  function Begin(local: Name): State {
    State(true, map[], map[local := 0], [Client(local, Dialing)], 0, 0, [])
  }

  /** connectToNewDomain.  `bad` when the constructor of the client throws, for one because the
      address that was announced is none. */
  function Connect(s: State, info: DomainInfo, bad: bool): State {
    if info.domainName in s.sessions then s
    else if bad then s.(live := false)
    else s.(sessions := s.sessions[info.domainName := |s.clients|],
            clients := s.clients + [Client(info.domainName, Dialing)])
  }

  /** A name not known before enters the table and is announced. */
  function Learn(s: State, info: DomainInfo, bad: bool): State {
    Connect(s.(known := s.known[info.domainName := info], log := s.log + [Announced(info.domainName)]), info, bad)
  }

  /** onReceive, up to the next queueReceive. */
  function Receive(s: State, p: Packet, bad: bool): State {
    match p
    case ReceiveError => s.(receives := s.receives + 1)
    case Unreadable => s.(live := false)
    case Versioned(version, body) =>
      if !version.UInt? then s.(receives := s.receives + 1)
      else if version.n > 255 then s.(live := false)
      else if version.n != PROTOCOL_VERSION_NUMBER then s.(receives := s.receives + 1)
      else if body.None? then s.(live := false)
      else
        var name := body.value.domainName;
        var t := s.(count := s.count + 1);
        if name in s.known then t.(receives := s.receives + 1)
        else
          var u := Learn(t, body.value, bad);
          if u.live then u.(receives := u.receives + 1) else u
  }

  /** Both tables forget the name of client `k`. */
  function Erase(s: State, k: nat): State
    requires k < |s.clients|
  {
    var name := s.clients[k].name;
    s.(sessions := s.sessions - {name}, known := s.known - {name},
       clients := s.clients[k := Client(name, Erased)],
       log := s.log + [Erasure(name, k, if name in s.sessions then Some(s.sessions[name]) else None)])
  }

  datatype Move =
    | Listen                                // launch() of the listener
    | Arrives(packet: Packet, bad: bool)    // a receive completes
    | ConnectOutcome(k: nat, ok: bool)      // client `k` connects, or cannot
    | FailureHandled(k: nat)                // the closure that launchClient dispatches has its turn
    | Disconnect(k: nat)                    // the session of client `k` signals a receive error

  function Step(s: State, m: Move): State {
    if !s.live then s
    else match m
      case Listen => s.(receives := s.receives + 1)
      case Arrives(p, bad) => if s.receives == 0 then s else Receive(s.(receives := s.receives - 1), p, bad)
      case ConnectOutcome(k, ok) =>
        if k < |s.clients| && s.clients[k].stage.Dialing? then
          s.(clients := s.clients[k := Client(s.clients[k].name, if ok then Connected else Failed)])
        else s
      case FailureHandled(k) => if k < |s.clients| && s.clients[k].stage.Failed? then Erase(s, k) else s
      case Disconnect(k) => if 0 < k < |s.clients| && s.clients[k].stage.Connected? then Erase(s, k) else s
  }

  function Exec(local: Name, moves: seq<Move>): State {
    if moves == [] then Begin(local)
    else Step(Exec(local, moves[..|moves| - 1]), moves[|moves| - 1])
  }

  // ---------------------------------------------------------------- the objects

  /** CDomainDiscoveryListener. */
  class Listener {
    var known: map<Name, DomainInfo>
    var receives: nat
    var count: nat

    constructor ()
      ensures known == map[] && receives == 0 && count == 0
    {
      known, receives, count := map[], 0, 0;
    }

    method QueueReceive()
      modifies this`receives
      ensures receives == old(receives) + 1
    {
      receives := receives + 1;
    }

    method Forget(name: Name)
      modifies this`known
      ensures known == old(known) - {name}
    {
      known := known - {name};
    }
  }

  /** CBackplane, with the listener whose signal it is connected to. */
  class Backplane {
    const listener: Listener
    const local: Name
    var sessions: map<Name, nat>
    var clients: seq<Client>
    ghost var live: bool
    ghost var log: seq<Event>

    /** History: what has happened to the two objects. */
    ghost var moves: seq<Move>

    ghost function Now(): State
      reads this, listener
    {
      State(live, listener.known, sessions, clients, listener.receives, listener.count, log)
    }

    ghost predicate Valid()
      reads this, listener
    {
      Now() == Exec(local, moves)
    }

    /** Every known domain has a session, every session but the local one's is of a known domain, and the
        sessions are the clients not erased, one a name. */
    ghost predicate TablesInStep()
      reads this, listener
    {
      live ==> listener.known.Keys <= sessions.Keys <= listener.known.Keys + {local} && TableOk(Now())
    }

    constructor (name: Name)
      ensures Valid() && TablesInStep() && local == name && moves == [] && live && fresh(listener)
    {
      listener := new Listener();
      local := name;
      sessions, clients := map[name := 0], [Client(name, Dialing)];
      live, log, moves := true, [], [];
      new;
      TablesAgree(local, moves);
    }

    // What happens from outside, between two callbacks of the io thread.

    /** The listener's launch(). */
    method Listen()
      requires Valid() && live
      modifies this, listener
      ensures Valid() && moves == old(moves) + [Move.Listen] && TablesInStep()
    {
      listener.QueueReceive();
      Happened(Move.Listen);
    }

    /** A receive completes: see `Becomes` for what becomes of the packet.  A name that was heard has a session
        as long as the io loop lives. */
    method Arrive(p: Packet, bad: bool)
      requires Valid() && live && listener.receives > 0
      modifies this, listener
      ensures Valid() && moves == old(moves) + [Arrives(p, bad)] && TablesInStep()
      ensures Becomes(old(Now()), p, bad, Now())
      ensures live && p.Heard() ==> p.body.value.domainName in sessions
    {
      PacketTaken(Now(), p, bad);
      OnReceive(p, bad);
      Happened(Arrives(p, bad));
    }

    /** The TCP connect of a client ends. */
    method Connected(k: nat, ok: bool)
      requires Valid() && live && k < |clients| && clients[k].stage.Dialing?
      modifies this
      ensures Valid() && moves == old(moves) + [ConnectOutcome(k, ok)] && TablesInStep()
      ensures sessions == old(sessions)
      ensures clients == old(clients)[k := Client(old(clients)[k].name, if ok then Stage.Connected else Failed)]
    {
      clients := clients[k := Client(clients[k].name, if ok then Stage.Connected else Failed)];
      Happened(ConnectOutcome(k, ok));
    }

    /** The closure that launchClient dispatches when a connect has failed: what it takes out of the
        session table is the client that failed. */
    method HandleFailure(k: nat)
      requires Valid() && live && k < |clients| && clients[k].stage.Failed?
      modifies this, listener
      ensures Valid() && moves == old(moves) + [FailureHandled(k)] && TablesInStep() && live
      ensures old(clients)[k].name in old(sessions) && old(sessions)[old(clients)[k].name] == k
      ensures sessions == old(sessions) - {old(clients)[k].name}
      ensures listener.known == old(listener.known) - {old(clients)[k].name}
      ensures clients == old(clients)[k := Client(old(clients)[k].name, Erased)]
    {
      TablesAgree(local, moves);
      EraseClient(k);
      Happened(FailureHandled(k));
    }

    /** The disconnect handler of a remote client, likewise. */
    method HandleDisconnect(k: nat)
      requires Valid() && live && 0 < k < |clients| && clients[k].stage.Connected?
      modifies this, listener
      ensures Valid() && moves == old(moves) + [Disconnect(k)] && TablesInStep() && live
      ensures old(clients)[k].name in old(sessions) && old(sessions)[old(clients)[k].name] == k
      ensures sessions == old(sessions) - {old(clients)[k].name}
      ensures listener.known == old(listener.known) - {old(clients)[k].name}
      ensures clients == old(clients)[k := Client(old(clients)[k].name, Erased)]
    {
      TablesAgree(local, moves);
      EraseClient(k);
      Happened(Disconnect(k));
    }

    ghost method Happened(m: Move)
      requires Now() == Step(Exec(local, moves), m)
      modifies this`moves
      ensures Valid() && moves == old(moves) + [m] && TablesInStep()
    {
      assert (moves + [m])[..|moves|] == moves;
      moves := moves + [m];
      if live { TablesAgree(local, moves); }
    }

    // The steps inside.

    method ConnectToNewDomain(info: DomainInfo, bad: bool) returns (ok: bool)
      requires live
      modifies this`sessions, this`clients, this`live
      ensures Now() == Connect(old(Now()), info, bad) && ok == live
    {
      ok := true;
      if info.domainName !in sessions {
        if bad {
          live := false;
          return false;
        }
        sessions := sessions[info.domainName := |clients|];
        clients := clients + [Client(info.domainName, Dialing)];
      }
    }

    /** A receive completes: the listener's onReceive, and the signal into this object. */
    method OnReceive(p: Packet, bad: bool)
      requires live && listener.receives > 0
      modifies this`sessions, this`clients, this`live, this`log, listener
      ensures Now() == Step(old(Now()), Arrives(p, bad))
    {
      listener.receives := listener.receives - 1;
      match p {
        case ReceiveError =>
        case Unreadable =>
          live := false;
          return;
        case Versioned(version, body) =>
          if version.UInt? {
            if version.n > 255 {
              live := false;
              return;
            }
            if version.n == PROTOCOL_VERSION_NUMBER {
              if body.None? {
                live := false;
                return;
              }
              listener.count := listener.count + 1;
              var name := body.value.domainName;
              if name !in listener.known {
                listener.known := listener.known[name := body.value];
                log := log + [Announced(name)];
                var ok := ConnectToNewDomain(body.value, bad);
                if !ok {
                  return;
                }
              }
            }
          }
      }
      listener.QueueReceive();
    }

    /** The two erase calls of the failure closure and of the disconnect handler. */
    method EraseClient(k: nat)
      requires k < |clients|
      modifies this`sessions, this`clients, this`log, listener
      ensures Now() == Erase(old(Now()), k)
    {
      var name := clients[k].name;
      log := log + [Erasure(name, k, if name in sessions then Some(sessions[name]) else None)];
      sessions := sessions - {name};
      listener.Forget(name);
      clients := clients[k := Client(name, Erased)];
    }
  }

  /** A packet that ends the io loop: one that does not unpack, one whose version is no octet, and one of
      this version whose body does not unpack. */
  predicate Breaks(p: Packet) {
    || p.Unreadable?
    || (p.Versioned? && p.version.UInt? && p.version.n > 255)
    || (p.Versioned? && p.version == UInt(1) && p.body.None?)
  }

  /** What becomes of a packet.  An announcement for a name not known is entered as it came and announced,
      and a client is dialed for it unless the session table has one; anything else changes neither
      table.  While the io loop lives, the next receive is waiting. */
  ghost predicate Becomes(s: State, p: Packet, bad: bool, t: State) {
    var heard := p.Versioned? && p.version == UInt(1) && p.body.Some?;
    var news := heard && p.body.value.domainName !in s.known;
    var dials := news && p.body.value.domainName !in s.sessions;
    && (t.live <==> s.live && !Breaks(p) && !(dials && bad))
    && (t.live ==> t.receives == s.receives)
    && t.count == s.count + (if heard then 1 else 0)
    && t.known == (if news then s.known[p.body.value.domainName := p.body.value] else s.known)
    && t.log == s.log + (if news then [Announced(p.body.value.domainName)] else [])
    && t.clients == s.clients + (if dials && !bad then [Client(p.body.value.domainName, Dialing)] else [])
    && t.sessions == (if dials && !bad then s.sessions[p.body.value.domainName := |s.clients|] else s.sessions)
  }

  lemma PacketTaken(s: State, p: Packet, bad: bool)
    requires s.live && s.receives > 0
    ensures Becomes(s, p, bad, Step(s, Arrives(p, bad)))
  {
    assert s.log + [] == s.log && s.clients + [] == s.clients;
  }

  // ---------------------------------------------------------------- what every run keeps

  predicate Current(c: Client) {
    !c.stage.Erased?
  }

  /** The session table holds exactly the clients that have not been erased. */
  ghost predicate TableOk(s: State) {
    && (forall name :: name in s.sessions ==>
          s.sessions[name] < |s.clients| && s.clients[s.sessions[name]].name == name
          && Current(s.clients[s.sessions[name]]))
    && (forall k :: 0 <= k < |s.clients| && Current(s.clients[k]) ==>
          s.clients[k].name in s.sessions && s.sessions[s.clients[k].name] == k)
  }

  /** A name is known exactly while its last event is an announcement. */
  predicate KnownBy(log: seq<Event>, name: Name) {
    log != [] && KnownAfter(log[|log| - 1], name, KnownBy(log[..|log| - 1], name))
  }

  predicate KnownAfter(e: Event, name: Name, before: bool) {
    if e.name == name then e.Announced? else before
  }

  ghost predicate LogOk(log: seq<Event>) {
    forall i :: 0 <= i < |log| ==> EventOk(log, i)
  }

  ghost predicate EventOk(log: seq<Event>, i: nat)
    requires i < |log|
  {
    Fits(log[..i], log[i])
  }

  /** A name is announced only while unknown, and an erasure removes the client that raised it. */
  ghost predicate Fits(log: seq<Event>, e: Event) {
    if e.Announced? then !KnownBy(log, e.name) else e.removed == Some(e.raiser)
  }

  ghost predicate Ok(s: State, local: Name) {
    && LogOk(s.log)
    && (s.live ==>
          && TableOk(s)
          && (forall name :: name in s.known <==> KnownBy(s.log, name))
          && s.known.Keys <= s.sessions.Keys
          && s.sessions.Keys <= s.known.Keys + {local})
  }

  lemma LogSnoc(log: seq<Event>, e: Event)
    requires LogOk(log) && Fits(log, e)
    ensures LogOk(log + [e])
    ensures forall name :: KnownBy(log + [e], name) == KnownAfter(e, name, KnownBy(log, name))
  {
    var u := log + [e];
    assert u[..|log|] == log;
    forall i | 0 <= i < |u| ensures EventOk(u, i) {
      if i < |log| { assert EventOk(log, i) && u[..i] == log[..i]; }
    }
  }

  lemma ReceiveKeeps(s: State, p: Packet, bad: bool, local: Name)
    requires Ok(s, local) && s.live
    ensures Ok(Receive(s, p, bad), local)
  {
    if p.Heard() && p.body.value.domainName !in s.known {
      var u := Learn(s.(count := s.count + 1), p.body.value, bad);
      SameTables(s, s.(count := s.count + 1), local);
      LearnKeeps(s.(count := s.count + 1), p.body.value, bad, local);
      SameTables(u, Receive(s, p, bad), local);
    } else {
      SameTables(s, Receive(s, p, bad), local);
    }
  }

  lemma SameTables(s: State, t: State, local: Name)
    requires Ok(s, local) && (t.live ==> s.live)
    requires t.known == s.known && t.sessions == s.sessions && t.clients == s.clients && t.log == s.log
    ensures Ok(t, local)
  {
  }

  lemma LearnKeeps(s: State, info: DomainInfo, bad: bool, local: Name)
    requires Ok(s, local) && s.live && info.domainName !in s.known
    ensures Ok(Learn(s, info, bad), local)
  {
    LogSnoc(s.log, Announced(info.domainName));
    if info.domainName !in s.sessions {
      NewClientFits(s, info.domainName);
    }
  }

  lemma NewClientFits(s: State, name: Name)
    requires TableOk(s) && name !in s.sessions
    ensures TableOk(s.(sessions := s.sessions[name := |s.clients|], clients := s.clients + [Client(name, Dialing)]))
  {
  }

  lemma EraseKeeps(s: State, k: nat, local: Name)
    requires Ok(s, local) && s.live && k < |s.clients| && Current(s.clients[k])
    ensures Ok(Erase(s, k), local)
  {
    LogSnoc(s.log, Erasure(s.clients[k].name, k, Some(k)));
  }

  lemma ArrivesKeeps(s: State, p: Packet, bad: bool, local: Name)
    requires Ok(s, local) && s.live
    ensures Ok(Step(s, Arrives(p, bad)), local)
  {
    if s.receives > 0 {
      assert Ok(s.(receives := s.receives - 1), local);
      ReceiveKeeps(s.(receives := s.receives - 1), p, bad, local);
    }
  }

  lemma FailureKeeps(s: State, k: nat, local: Name)
    requires Ok(s, local) && s.live
    ensures Ok(Step(s, FailureHandled(k)), local)
  {
    if k < |s.clients| && s.clients[k].stage.Failed? { EraseKeeps(s, k, local); }
  }

  lemma DisconnectKeeps(s: State, k: nat, local: Name)
    requires Ok(s, local) && s.live
    ensures Ok(Step(s, Disconnect(k)), local)
  {
    if 0 < k < |s.clients| && s.clients[k].stage.Connected? { EraseKeeps(s, k, local); }
  }

  lemma DialedKeeps(s: State, k: nat, ok: bool, local: Name)
    requires Ok(s, local) && s.live
    ensures Ok(Step(s, ConnectOutcome(k, ok)), local)
  {
  }

  lemma StepKeeps(s: State, m: Move, local: Name)
    requires Ok(s, local)
    ensures Ok(Step(s, m), local)
  {
    if s.live {
      match m {
        case Listen =>
        case Arrives(p, bad) =>
          ArrivesKeeps(s, p, bad, local);
        case ConnectOutcome(k, ok) =>
          DialedKeeps(s, k, ok, local);
        case FailureHandled(k) =>
          FailureKeeps(s, k, local);
        case Disconnect(k) =>
          DisconnectKeeps(s, k, local);
      }
    }
  }

  lemma {:induction false} ExecOk(local: Name, moves: seq<Move>)
    ensures Ok(Exec(local, moves), local)
  {
    if moves != [] {
      ExecOk(local, moves[..|moves| - 1]);
      StepKeeps(Exec(local, moves[..|moves| - 1]), moves[|moves| - 1], local);
    }
  }

  // ---------------------------------------------------------------- theorems

  /** While the io loop runs, every known domain has a session, every session but the local domain's
      is of a known domain, and the sessions are exactly the clients not yet erased, one a name. */
  lemma {:induction false} TablesAgree(local: Name, moves: seq<Move>)
    requires Exec(local, moves).live
    ensures var s := Exec(local, moves);
            && s.known.Keys <= s.sessions.Keys <= s.known.Keys + {local}
            && TableOk(s)
  {
    ExecOk(local, moves);
  }

  /** Between two announcements of a name there is an erasure of it. */
  lemma {:induction false} AnnouncedOnce(local: Name, moves: seq<Move>, a: nat, b: nat) returns (e: nat)
    requires a < b < |Exec(local, moves).log|
    requires Exec(local, moves).log[a].Announced? && Exec(local, moves).log[b] == Exec(local, moves).log[a]
    ensures a < e < b && Exec(local, moves).log[e].Erasure?
    ensures Exec(local, moves).log[e].name == Exec(local, moves).log[a].name
  {
    ExecOk(local, moves);
    var log := Exec(local, moves).log;
    assert EventOk(log, b);
    e := ErasedBetween(log, a, b, log[a].name);
  }

  lemma {:induction false} ErasedBetween(log: seq<Event>, a: nat, b: nat, name: Name) returns (e: nat)
    requires a < b <= |log| && log[a] == Announced(name) && !KnownBy(log[..b], name)
    ensures a < e < b && log[e].Erasure? && log[e].name == name
    decreases b
  {
    assert log[..b][..b - 1] == log[..b - 1];
    if log[b - 1].Erasure? && log[b - 1].name == name {
      e := b - 1;
    } else {
      e := ErasedBetween(log, a, b - 1, name);
    }
  }

  /** Every erasure takes from the session table the very client that raised it, never a newer one
      of the same name. */
  lemma {:induction false} ErasesItself(local: Name, moves: seq<Move>, i: nat)
    requires i < |Exec(local, moves).log| && Exec(local, moves).log[i].Erasure?
    ensures Exec(local, moves).log[i].removed == Some(Exec(local, moves).log[i].raiser)
  {
    ExecOk(local, moves);
    assert EventOk(Exec(local, moves).log, i);
  }

  /** The local client has no disconnect handler: it leaves the session table only when its own connect has
      failed. */
  lemma {:induction false} LocalStays(local: Name, moves: seq<Move>)
    requires Exec(local, moves).live && forall i :: 0 <= i < |moves| ==> moves[i] != FailureHandled(0)
    ensures var s := Exec(local, moves);
            && local in s.sessions && s.sessions[local] == 0
            && s.clients != [] && s.clients[0].name == local && Current(s.clients[0])
  {
    if moves != [] {
      var front, m := moves[..|moves| - 1], moves[|moves| - 1];
      StepLive(Exec(local, front), m);
      assert forall i :: 0 <= i < |front| ==> front[i] == moves[i];
      LocalStays(local, front);
      TablesAgree(local, moves);
      LocalStep(Exec(local, front), m, local);
    }
  }

  lemma StepLive(s: State, m: Move)
    ensures Step(s, m).live ==> s.live
  {
  }

  lemma LocalStep(s: State, m: Move, local: Name)
    requires s.live && s.clients != [] && s.clients[0].name == local && Current(s.clients[0])
    requires m != FailureHandled(0) && TableOk(Step(s, m))
    ensures var t := Step(s, m);
            && local in t.sessions && t.sessions[local] == 0
            && t.clients != [] && t.clients[0].name == local && Current(t.clients[0])
  {
    if m.Arrives? && s.receives > 0 { PacketTaken(s, m.packet, m.bad); }
    var t := Step(s, m);
    assert t.clients != [] && t.clients[0].name == local && Current(t.clients[0]);
  }

  /** How often the listener was launched. */
  function Launches(moves: seq<Move>): nat {
    if moves == [] then 0
    else Launches(moves[..|moves| - 1]) + if moves[|moves| - 1].Listen? then 1 else 0
  }

  /** The listener never goes deaf: while the io loop runs there are as many receives outstanding as there
      were launches, whatever has arrived; so with the one launch() there is always exactly one. */
  lemma {:induction false} KeepsListening(local: Name, moves: seq<Move>)
    ensures Exec(local, moves).live ==> Exec(local, moves).receives == Launches(moves)
  {
    if moves != [] {
      KeepsListening(local, moves[..|moves| - 1]);
      ReceivesKept(Exec(local, moves[..|moves| - 1]), moves[|moves| - 1]);
    }
  }

  lemma ReceivesKept(s: State, m: Move)
    ensures var t := Step(s, m);
            && (t.live ==> s.live)
            && (t.live ==> t.receives == s.receives + if m.Listen? then 1 else 0)
  {
    if s.live && m.Arrives? && s.receives > 0 { PacketTaken(s, m.packet, m.bad); }
  }

  ghost predicate RaisedOk(s: State) {
    && (forall i :: 0 <= i < |s.log| && s.log[i].Erasure? ==>
          s.log[i].raiser < |s.clients| && s.clients[s.log[i].raiser].stage.Erased?)
    && (forall i, j :: 0 <= i < j < |s.log| && s.log[i].Erasure? && s.log[j].Erasure? ==>
          s.log[i].raiser != s.log[j].raiser)
  }

  lemma {:induction false} ErasesOnceInv(local: Name, moves: seq<Move>)
    ensures RaisedOk(Exec(local, moves))
  {
    if moves != [] {
      ErasesOnceInv(local, moves[..|moves| - 1]);
      RaisedStep(Exec(local, moves[..|moves| - 1]), moves[|moves| - 1]);
    }
  }

  lemma RaisedStep(s: State, m: Move)
    requires RaisedOk(s)
    ensures RaisedOk(Step(s, m))
  {
    if s.live {
      match m {
        case Listen =>
        case Arrives(p, bad) =>
          RaisedArrives(s, p, bad);
        case ConnectOutcome(k, ok) =>
          RaisedDialing(s, k, ok);
        case FailureHandled(k) =>
          if k < |s.clients| && s.clients[k].stage.Failed? { RaisedErase(s, k); }
        case Disconnect(k) =>
          if 0 < k < |s.clients| && s.clients[k].stage.Connected? { RaisedErase(s, k); }
      }
    }
  }

  lemma RaisedArrives(s: State, p: Packet, bad: bool)
    requires RaisedOk(s) && s.live
    ensures RaisedOk(Step(s, Arrives(p, bad)))
  {
    if s.receives > 0 { RaisedReceive(s.(receives := s.receives - 1), p, bad); }
  }

  lemma RaisedDialing(s: State, k: nat, ok: bool)
    requires RaisedOk(s)
    ensures k < |s.clients| && s.clients[k].stage.Dialing? ==>
              RaisedOk(s.(clients := s.clients[k := Client(s.clients[k].name, if ok then Connected else Failed)]))
  {
  }

  lemma RaisedErase(s: State, k: nat)
    requires RaisedOk(s) && k < |s.clients| && Current(s.clients[k])
    ensures RaisedOk(Erase(s, k))
  {
  }

  lemma RaisedReceive(s: State, p: Packet, bad: bool)
    requires RaisedOk(s)
    ensures RaisedOk(Receive(s, p, bad))
  {
    ReceiveGrows(s, p, bad);
  }

  lemma ReceiveGrows(s: State, p: Packet, bad: bool)
    ensures var t := Receive(s, p, bad);
            && s.clients <= t.clients
            && (t.log == s.log || (|t.log| == |s.log| + 1 && s.log <= t.log && t.log[|s.log|].Announced?))
  {
  }

  /** No client is erased twice. */
  lemma {:induction false} ErasesOnce(local: Name, moves: seq<Move>, i: nat, j: nat)
    requires i < j < |Exec(local, moves).log|
    requires Exec(local, moves).log[i].Erasure? && Exec(local, moves).log[j].Erasure?
    ensures Exec(local, moves).log[i].raiser != Exec(local, moves).log[j].raiser
  {
    ErasesOnceInv(local, moves);
  }
}
