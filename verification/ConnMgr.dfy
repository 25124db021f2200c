/**
 The connection manager of `lab_final/connmgr.c`: the client list, the array of poll descriptors and the receive
 buffer are rebuilt together, and one call of `Listen` is one polling pass.  Poll results, received data and the clock
 are parameters; the clock stands still during a pass.
 */
module ConnMgr {
  import opened Basics
  import opened ConnSweep
  import opened DPList
  import opened ListSpec

  datatype PollFd = PollFd(fd: int, readable: bool)

  datatype Status = Success | Closed

  class Client {
    const fd: int
    var lm: int

    constructor (fd: int, lm: int)
      ensures this.fd == fd && this.lm == lm
    {
      this.fd, this.lm := fd, lm;
    }
  }

  /** The list callback, as far as it matters: it is used for equality only, and open sockets are different. */
  function CompareClients(x: Client, y: Client): int {
    if x.fd == y.fd then 0 else 1
  }

  function Same(x: Client): Client { x }

  ghost function Peers(clients: seq<Client>): (r: seq<Peer>)
    reads clients
    ensures |r| == |clients| && forall i :: 0 <= i < |r| ==> r[i] == Peer(clients[i].fd, clients[i].lm)
  {
    if clients == [] then []
    else
      var last := clients[|clients| - 1];
      Peers(clients[..|clients| - 1]) + [Peer(last.fd, last.lm)]
  }

  ghost function Objects(clients: seq<Client>): set<object> {
    set c: Client | c in clients
  }

  ghost function Events(pfds: seq<PollFd>): (r: seq<bool>)
    ensures |r| == |pfds| && forall i :: 0 <= i < |r| ==> r[i] == pfds[i].readable
  {
    seq(|pfds|, i requires 0 <= i < |pfds| => pfds[i].readable)
  }

  ghost function Slots(buffer: seq<SensorData>, flags: seq<bool>): (r: seq<Slot>)
    requires |buffer| == |flags|
    ensures |r| == |buffer| && forall i :: 0 <= i < |r| ==> r[i] == Slot(buffer[i], flags[i])
  {
    seq(|buffer|, i requires 0 <= i < |buffer| => Slot(buffer[i], flags[i]))
  }

  /** The descriptors of the server and the clients, without events. */
  ghost function Descriptors(server: int, clients: seq<Client>): (r: seq<PollFd>)
    ensures |r| == |clients| + 1 && r[0] == PollFd(server, false)
    ensures forall i :: 0 <= i < |clients| ==> r[i + 1] == PollFd(clients[i].fd, false)
  {
    [PollFd(server, false)] + seq(|clients|, i requires 0 <= i < |clients| => PollFd(clients[i].fd, false))
  }

  ghost predicate DifferentSockets(clients: seq<Client>) {
    forall i, j :: 0 <= i < j < |clients| ==> clients[i].fd != clients[j].fd
  }

  class Connection {
    const server: int
    const clients: List<Client>
    var pfds: array<PollFd>
    var buffer: array<SensorData>
    var flags: array<bool>
    var buffSize: int
    var timeout: bool
    var close: bool

    /** The poll array is the server followed by the clients in list order, and every client has its receive slot. */
    ghost predicate InStep()
      reads this, clients, Nodes(clients), pfds
    {
      && clients.Valid()
      && clients.compare == CompareClients
      && DifferentSockets(clients.contents)
      && pfds.Length == |clients.contents| + 1
      && pfds[0].fd == server
      && (forall i :: 0 <= i < |clients.contents| ==> pfds[i + 1].fd == clients.contents[i].fd)
      && buffer.Length == flags.Length == buffSize == |clients.contents|
    }

    ghost function State(): (p: Pass)
      requires InStep()
      reads this, clients, Nodes(clients), pfds, buffer, flags, clients.contents
      ensures p.InStep() && |p.peers| == |clients.contents|
    {
      Pass(Peers(clients.contents), Events(pfds[1..]), Slots(buffer[..], flags[..]), timeout)
    }

    /** `myconn_init`. */
    constructor (server: int)
      ensures InStep() && this.server == server && State() == Pass([], [], [], false) && !close
      ensures fresh(clients) && fresh(pfds) && fresh(buffer) && fresh(flags)
    {
      this.server := server;
      clients := new List(Same, CompareClients);
      pfds := new PollFd[1](_ => PollFd(0, false));
      buffer := new SensorData[1](_ => SensorData(0, 0.0, 0));
      flags := new bool[1](_ => false);
      buffSize := 1;
      timeout, close := false, false;
      new;
      Rebuild();
    }

    method PfdsUpdate()
      requires clients.Valid()
      modifies this`pfds
      ensures fresh(pfds) && pfds[..] == Descriptors(server, clients.contents)
    {
      hide Descriptors;
      var size := Size(clients);
      pfds := new PollFd[size + 1](_ => PollFd(0, false));
      pfds[0] := PollFd(server, false);
      var i := 0;
      while i < size
        invariant 0 <= i <= size && fresh(pfds) && pfds.Length == size + 1
        invariant pfds[0] == PollFd(server, false)
        invariant forall k :: 0 <= k < i ==> pfds[k + 1] == PollFd(clients.contents[k].fd, false)
        modifies pfds
      {
        var dummy := GetElementAtIndex(clients, i);
        pfds[i + 1] := PollFd(dummy.value.fd, false);
        i := i + 1;
      }
      ListDescriptors(server, clients.contents, pfds[..]);
    }

    method RxbuffUpdate()
      requires clients.Valid()
      modifies this`buffer, this`flags, this`buffSize
      ensures fresh(buffer) && fresh(flags)
      ensures buffer.Length == flags.Length == buffSize == |clients.contents|
      ensures forall k :: 0 <= k < buffer.Length ==> buffer[k] == SensorData(0, 0.0, 0) && !flags[k]
      ensures Slots(buffer[..], flags[..]) == Repeat(EMPTY_SLOT, |clients.contents|)
    {
      var size := Size(clients);
      buffer := new SensorData[size](_ => SensorData(0, 0.0, 0));
      flags := new bool[size](_ => false);
      var count := 0;
      while count < size
        invariant 0 <= count <= size && fresh(buffer) && fresh(flags) && buffer.Length == flags.Length == size
        invariant forall k :: 0 <= k < count ==> buffer[k] == SensorData(0, 0.0, 0) && !flags[k]
        modifies buffer, flags
      {
        buffer[count] := SensorData(0, 0.0, 0);
        flags[count] := false;
        count := count + 1;
      }
      buffSize := count;
    }

    /** Both updates, which always come together. */
    method Rebuild()
      requires clients.Valid() && clients.compare == CompareClients && DifferentSockets(clients.contents)
      modifies this`pfds, this`buffer, this`flags, this`buffSize
      ensures InStep() && fresh(pfds) && fresh(buffer) && fresh(flags)
      ensures State() == Fresh(Peers(clients.contents), timeout)
    {
      PfdsUpdate();
      RxbuffUpdate();
      EventsOfDescriptors(server, clients.contents);
      hide Descriptors, Events, Slots, Peers;
      DescriptorsMatch(server, clients.contents, pfds[..]);
    }

    /** Puts a client in front and rebuilds the arrays. */
    method Enlist(client: Client)
      requires clients.Valid() && clients.compare == CompareClients && DifferentSockets([client] + clients.contents)
      modifies this`pfds, this`buffer, this`flags, this`buffSize, clients, Nodes(clients)
      ensures InStep() && fresh(Nodes(clients) - old(Nodes(clients))) && fresh(pfds) && fresh(buffer) && fresh(flags)
      ensures clients.contents == [client] + old(clients.contents)
      ensures State() == Fresh(Peers(clients.contents), timeout)
    {
      hide DifferentSockets, Peers, Events, Slots;
      var _ := InsertAtIndex(clients, client, -1, false);
      assert clients.contents == [client] + old(clients.contents);
      Rebuild();
    }

    /** A new client goes to the front of the list. */
    method AddClient(fd: int, now: int)
      requires InStep() && forall c :: c in clients.contents ==> c.fd != fd
      modifies this`pfds, this`buffer, this`flags, this`buffSize, clients, Nodes(clients)
      ensures InStep() && fresh(Nodes(clients) - old(Nodes(clients))) && fresh(pfds) && fresh(buffer) && fresh(flags)
      ensures |clients.contents| > 0 && fresh(clients.contents[0])
      ensures clients.contents == [clients.contents[0]] + old(clients.contents)
      ensures State() == Rebuilt(old(State()), [Peer(fd, now)] + old(State()).peers)
    {
      hide Peers, Events, Slots, DifferentSockets;
      var client := new Client(fd, now);
      ghost var before, p := clients.contents, State();
      assert p.timeout == timeout && p.peers == Peers(before);
      InsertFront(before, client);
      hide InStep, State, Rebuilt, Fresh;
      Enlist(client);
      PeersWithNew(before, client);
      FreshIsRebuilt(p, [Peer(fd, now)] + p.peers);
    }

    method RemoveClient(client: Client, ghost i: nat)
      requires InStep() && i < |clients.contents| && client == clients.contents[i]
      modifies this`pfds, this`buffer, this`flags, this`buffSize, clients, Nodes(clients)
      ensures InStep() && fresh(Nodes(clients) - old(Nodes(clients))) && fresh(pfds) && fresh(buffer) && fresh(flags)
      ensures clients.contents == RemoveAt(old(clients.contents), i)
      ensures clients.freed == old(clients.freed) + [client]
      ensures State() == Rebuilt(old(State()), RemoveAt(old(State()).peers, i))
    {
      hide DifferentSockets, Peers, Events, Slots, RemoveAt;
      ghost var before := clients.contents;
      FindClient(before, client, i);
      Members(clients.spine, i);
      var _ := RemoveElement(clients, client, true);
      StillDifferent(before, i);
      Rebuild();
      PeersWithout(before, i);
    }

    /** The three receive calls of a client with an event. */
    method Store(i: nat, got: Reception)
      requires i < buffer.Length
      modifies buffer
      ensures buffer[..] == old(buffer[..])[i := Stored(old(buffer[i]), got)]
      ensures buffer[i].id == if got.id.Some? then got.id.value else old(buffer[i].id)
      ensures buffer[i].value == if got.value.Some? then got.value.value else old(buffer[i].value)
      ensures buffer[i].ts == if got.ts.Some? then got.ts.value else old(buffer[i].ts)
    {
      if got.id.Some? { buffer[i] := buffer[i].(id := got.id.value); }
      if got.value.Some? { buffer[i] := buffer[i].(value := got.value.value); }
      if got.ts.Some? { buffer[i] := buffer[i].(ts := got.ts.value); }
    }

    /** A complete sample sets the flag of its slot and refreshes the client. */
    method Mark(client: Client, i: nat, now: int)
      requires InStep() && i < |clients.contents| && client == clients.contents[i]
      modifies flags, this`timeout, this`close, client
      ensures InStep() && !timeout && !close
      ensures flags[..] == old(flags[..])[i := true]
      ensures Peers(clients.contents) == old(Peers(clients.contents))[i := Peer(client.fd, now)]
    {
      hide Peers;
      flags[i] := true;
      client.lm := now;
      timeout, close := false, false;
    }

    /** The receive half of the loop body for client `i`. */
    method ReceiveFrom(client: Client, i: nat, inbox: int -> Reception, now: int)
      requires InStep() && i < |clients.contents| && client == clients.contents[i]
      modifies buffer, flags, this`timeout, this`close, client
      ensures InStep() && State() == Receive(old(State()), i, inbox, now)
      ensures
        var got, arrived := inbox(client.fd), old(pfds[i + 1].readable);
        && buffer[i].id == (if arrived && got.id.Some? then got.id.value else old(buffer[i].id))
        && buffer[i].value == (if arrived && got.value.Some? then got.value.value else old(buffer[i].value))
        && buffer[i].ts == (if arrived && got.ts.Some? then got.ts.value else old(buffer[i].ts))
        && (flags[i] <==> old(flags[i]) || (arrived && got.ts.Some?))
        && client.lm == (if arrived && got.ts.Some? then now else old(client.lm))
      ensures close ==> old(close)
    {
      hide Peers, Events, Slots, Stored;
      ghost var before, b, f := State(), buffer[..], flags[..];
      if pfds[i + 1].readable {
        var got := inbox(client.fd);
        Store(i, got);
        SlotsUpdate(b, f, i, Stored(b[i], got), f[i]);
        if got.ts.Some? {
          Mark(client, i, now);
          SlotsUpdate(b, f, i, Stored(b[i], got), true);
        }
      }
    }

    /** The loop body for client `i`. */
    method VisitClient(i: nat, inbox: int -> Reception, now: int)
      requires InStep() && i < |clients.contents|
      modifies this, clients, Nodes(clients), buffer, flags, Objects(clients.contents)
      ensures InStep() && State() == Visit(old(State()), i, inbox, now)
      ensures close ==> old(close)
      ensures fresh(Nodes(clients) - old(Nodes(clients)))
      ensures (buffer == old(buffer) || fresh(buffer)) && (flags == old(flags) || fresh(flags))
      ensures Objects(clients.contents) <= old(Objects(clients.contents))
    {
      hide Peers, Events, Slots, Receive, Rebuilt, RemoveAt, DifferentSockets;
      var element := GetElementAtIndex(clients, i);
      var client := element.value;
      ReceiveFrom(client, i, inbox, now);
      if now - client.lm >= TIMEOUT {
        Members(clients.contents, i);
        RemoveClient(client, i);
      }
    }

    /** `poll` on the connection's descriptors. */
    method Poll(ready: set<int>)
      requires InStep()
      modifies pfds
      ensures InStep() && pfds[0].readable == (server in ready)
      ensures State() == old(State()).(readable := Polled(old(State()).peers, ready))
    {
      hide DifferentSockets, Peers, Events, Slots, Polled;
      PollAll(pfds, ready);
      assert Events(pfds[1..]) == Polled(Peers(clients.contents), ready);
    }

    method ResetFlags()
      requires InStep()
      modifies flags
      ensures InStep() && State() == old(State()).(slots := Cleared(old(State()).slots))
    {
      hide DifferentSockets;
      var size := Size(clients);
      var i := 0;
      while i < size
        invariant 0 <= i <= size && forall k :: 0 <= k < i ==> !flags[k]
      {
        flags[i] := false;
        i := i + 1;
      }
      assert Slots(buffer[..], flags[..]) == Cleared(old(State()).slots);
    }

    /** The loop over the clients. */
    method VisitAll(inbox: int -> Reception, now: int)
      requires InStep()
      modifies this, clients, Nodes(clients), buffer, flags, Objects(clients.contents)
      ensures InStep() && State() == Sweep(old(State()), 0, inbox, now)
      ensures close ==> old(close)
    {
      hide DifferentSockets, State, Visit, Sweep, Objects;
      var i := 0;
      var size := Size(clients);
      while i < size
        invariant 0 <= i && InStep() && size == |clients.contents|
        invariant Sweep(State(), i, inbox, now) == Sweep(old(State()), 0, inbox, now)
        invariant close ==> old(close)
        invariant fresh(Nodes(clients) - old(Nodes(clients)))
        invariant (buffer == old(buffer) || fresh(buffer)) && (flags == old(flags) || fresh(flags))
        invariant Objects(clients.contents) <= old(Objects(clients.contents))
        decreases size - i
      {
        SweepOne(State(), i, inbox, now);
        VisitClient(i, inbox, now);
        i := i + 1;
        size := Size(clients);
      }
      SweepDone(State(), i, inbox, now);
    }

    /** Lets a waiting client in. */
    method Admit(incoming: int, now: int)
      requires InStep()
      requires pfds[0].readable ==> forall c :: c in clients.contents ==> c.fd != incoming
      modifies this, clients, Nodes(clients)
      ensures InStep() && fresh(Nodes(clients) - old(Nodes(clients)))
      ensures State() == Admitted(old(State()), old(pfds[0].readable), incoming, now)
      ensures close ==> old(close)
      ensures (buffer == old(buffer) || fresh(buffer)) && (flags == old(flags) || fresh(flags))
      ensures forall c :: c in clients.contents ==> c in old(clients.contents) || fresh(c)
    {
      hide DifferentSockets, Peers, Events, Slots;
      if pfds[0].readable {
        AddClient(incoming, now);
        timeout, close := false, false;
      }
    }

    /** Marks the connection for closing after an idle pass, and assumes that this one will be idle too. */
    method Prepare()
      requires InStep()
      modifies this`timeout, this`close, flags
      ensures InStep() && timeout && (close <==> old(timeout) || old(close))
      ensures State() == old(State()).(slots := Cleared(old(State()).slots), timeout := true)
    {
      hide DifferentSockets, Peers, Events, Slots, Cleared;
      if timeout { close := true; }
      ResetFlags();
      timeout := true;
    }

    /**
     One pass.  It refuses to run, and asks for the connection to be closed, exactly when the pass before it was idle;
     otherwise its effect is that of `Begin` and `Sweep`.
     */
    method Listen(ready: set<int>, incoming: int, inbox: int -> Reception, now: int) returns (status: Status)
      requires InStep()
      requires server in ready ==> forall c :: c in clients.contents ==> c.fd != incoming
      modifies this, clients, Nodes(clients), pfds, buffer, flags, Objects(clients.contents)
      ensures InStep()
      ensures status == Closed <==> old(timeout) || old(close)
      ensures status == Closed ==> State() == old(State()).(slots := Cleared(old(State()).slots), timeout := true) && close
      ensures status == Success ==>
        State() == Sweep(Begin(old(State()), server, ready, incoming, now), 0, inbox, now) && !close
    {
      hide InStep, DifferentSockets, Peers, Events, Slots, Cleared, Polled, Rebuilt, Sweep, State;
      ghost var before := State();
      Prepare();
      if !timeout || !close {
        Poll(ready);
        ghost var polled := State();
        Admit(incoming, now);
        BeginIsAdmitted(before, polled, server, ready, incoming, now);
        VisitAll(inbox, now);
        return Success;
      }
      return Closed;
    }
  }

  ghost function Admitted(p: Pass, waiting: bool, incoming: int, now: int): (r: Pass)
    requires p.InStep()
    ensures r.InStep()
  {
    if waiting then Rebuilt(p, [Peer(incoming, now)] + p.peers).(timeout := false) else p
  }

  lemma BeginIsAdmitted(p: Pass, q: Pass, server: int, ready: set<int>, incoming: int, now: int)
    requires p.InStep() && q == Pass(p.peers, Polled(p.peers, ready), Cleared(p.slots), true)
    ensures Admitted(q, server in ready, incoming, now) == Begin(p, server, ready, incoming, now)
  {
  }

  /** `poll`: the events of all descriptors. */
  method PollAll(pfds: array<PollFd>, ready: set<int>)
    modifies pfds
    ensures forall k :: 0 <= k < pfds.Length ==> pfds[k] == PollFd(old(pfds[k].fd), old(pfds[k].fd) in ready)
  {
    var i := 0;
    while i < pfds.Length
      invariant 0 <= i <= pfds.Length
      invariant forall k :: 0 <= k < i ==> pfds[k] == PollFd(old(pfds[k].fd), old(pfds[k].fd) in ready)
      invariant forall k :: i <= k < pfds.Length ==> pfds[k] == old(pfds[k])
    {
      pfds[i] := pfds[i].(readable := pfds[i].fd in ready);
      i := i + 1;
    }
  }

  lemma SlotsUpdate(buffer: seq<SensorData>, flags: seq<bool>, i: nat, data: SensorData, flag: bool)
    requires |buffer| == |flags| && i < |buffer|
    ensures Slots(buffer[i := data], flags[i := flag]) == Slots(buffer, flags)[i := Slot(data, flag)]
    ensures flags[i := flags[i]] == flags
  {
  }

  ghost function Fresh(peers: seq<Peer>, timeout: bool): Pass {
    Pass(peers, Repeat(false, |peers|), Repeat(EMPTY_SLOT, |peers|), timeout)
  }

  lemma FreshIsRebuilt(p: Pass, peers: seq<Peer>)
    ensures Fresh(peers, p.timeout) == Rebuilt(p, peers)
  {
  }

  lemma EventsOfDescriptors(server: int, clients: seq<Client>)
    ensures Events(Descriptors(server, clients)[1..]) == Repeat(false, |clients|)
  {
  }

  lemma ListDescriptors(server: int, clients: seq<Client>, pfds: seq<PollFd>)
    requires |pfds| == |clients| + 1 && pfds[0] == PollFd(server, false)
    requires forall i :: 0 <= i < |clients| ==> pfds[i + 1] == PollFd(clients[i].fd, false)
    ensures pfds == Descriptors(server, clients)
  {
    var all := Descriptors(server, clients);
    forall j | 0 <= j < |pfds| ensures pfds[j] == all[j] {
      if j > 0 { assert pfds[j - 1 + 1] == all[j - 1 + 1]; }
    }
  }

  lemma DescriptorsMatch(server: int, clients: seq<Client>, pfds: seq<PollFd>)
    requires pfds == Descriptors(server, clients)
    ensures |pfds| == |clients| + 1 && pfds[0].fd == server
    ensures forall i :: 0 <= i < |clients| ==> pfds[i + 1].fd == clients[i].fd
  {
  }

  lemma InsertFront(clients: seq<Client>, client: Client)
    ensures InsertAt(clients, 0, client) == [client] + clients
    ensures DifferentSockets(clients) && (forall c :: c in clients ==> c.fd != client.fd)
      ==> DifferentSockets([client] + clients)
  {
  }

  lemma PeersWithNew(clients: seq<Client>, client: Client)
    ensures Peers([client] + clients) == [Peer(client.fd, client.lm)] + Peers(clients)
  {
  }

  lemma FindClient(clients: seq<Client>, client: Client, i: nat)
    requires DifferentSockets(clients) && i < |clients| && clients[i] == client
    ensures FirstIndex(clients, Matches(client, CompareClients)) == i
  {
    FirstIndexAt(clients, Matches(client, CompareClients), i);
  }

  lemma Members<T>(s: seq<T>, i: nat)
    requires i < |s|
    ensures forall x :: x in RemoveAt(s, i) ==> x in s
  {
  }

  lemma StillDifferent(clients: seq<Client>, i: nat)
    requires DifferentSockets(clients) && i < |clients|
    ensures DifferentSockets(RemoveAt(clients, i))
  {
  }

  lemma {:induction false} PeersWithout(clients: seq<Client>, i: nat)
    requires i < |clients|
    ensures Peers(RemoveAt(clients, i)) == RemoveAt(Peers(clients), i)
  {
    var left, right := Peers(RemoveAt(clients, i)), RemoveAt(Peers(clients), i);
    forall j | 0 <= j < |left| ensures left[j] == right[j] {
      assert j >= i ==> right[j] == Peers(clients)[j + 1];
    }
  }
}
