/**
 One polling pass over the clients of a connection (`lab_final/connmgr.c`), on values: what the loop of
 `myconn_listen` does position by position, and what a whole pass amounts to.
 */
module ConnSweep {
  import opened Basics
  import opened ListSpec

  /** Seconds of silence after which a client is dropped (`lab_final/config.h`). */
  const TIMEOUT: int := 10

  datatype Peer = Peer(fd: int, lm: int)

  /** What the three receive calls on a socket store; None where a call stores nothing. */
  datatype Reception = Reception(id: Option<nat>, value: Option<real>, ts: Option<int>)

  /** A slot of the receive buffer with its flag. */
  datatype Slot = Slot(data: SensorData, flag: bool)

  /** The state of a pass: clients, their POLLIN events, their receive slots, and the timeout flag. */
  datatype Pass = Pass(peers: seq<Peer>, readable: seq<bool>, slots: seq<Slot>, timeout: bool) {
    predicate InStep() {
      |readable| == |peers| && |slots| == |peers|
    }
  }

  const EMPTY_SLOT: Slot := Slot(SensorData(0, 0.0, 0), false)

  function Repeat<T>(x: T, n: nat): (r: seq<T>)
    ensures |r| == n && forall i :: 0 <= i < n ==> r[i] == x
  {
    if n == 0 then [] else Repeat(x, n - 1) + [x]
  }

  predicate Stale(p: Peer, now: int) {
    now - p.lm >= TIMEOUT
  }

  /** The data of a slot after the receive calls. */
  function Stored(data: SensorData, r: Reception): SensorData {
    SensorData(
      if r.id.Some? then r.id.value else data.id,
      if r.value.Some? then r.value.value else data.value,
      if r.ts.Some? then r.ts.value else data.ts)
  }

  /** The receive half of the loop body for client `i`. */
  function Receive(p: Pass, i: nat, inbox: int -> Reception, now: int): (r: Pass)
    requires p.InStep() && i < |p.peers|
    ensures r.InStep() && |r.peers| == |p.peers|
  {
    if !p.readable[i] then p
    else
      var got := inbox(p.peers[i].fd);
      var data := Stored(p.slots[i].data, got);
      if got.ts.Some? then
        Pass(p.peers[i := p.peers[i].(lm := now)], p.readable, p.slots[i := Slot(data, true)], false)
      else
        p.(slots := p.slots[i := Slot(data, p.slots[i].flag)])
  }

  /** A change of the set of clients: events and receive slots start afresh. */
  function Rebuilt(p: Pass, peers: seq<Peer>): (r: Pass)
    ensures r.InStep()
  {
    Pass(peers, Repeat(false, |peers|), Repeat(EMPTY_SLOT, |peers|), p.timeout)
  }

  /** The loop body for client `i`. */
  function Visit(p: Pass, i: nat, inbox: int -> Reception, now: int): (r: Pass)
    requires p.InStep() && i < |p.peers|
    ensures r.InStep() && |p.peers| - 1 <= |r.peers| <= |p.peers|
  {
    var q := Receive(p, i, inbox, now);
    if Stale(q.peers[i], now) then Rebuilt(q, RemoveAt(q.peers, i)) else q
  }

  /** The loop from position `i` on.  The position moves on even when the client at it was removed. */
  function Sweep(p: Pass, i: nat, inbox: int -> Reception, now: int): (r: Pass)
    requires p.InStep()
    ensures r.InStep()
    decreases |p.peers| - i
  {
    if i >= |p.peers| then p else Sweep(Visit(p, i, inbox, now), i + 1, inbox, now)
  }

  function Cleared(slots: seq<Slot>): (r: seq<Slot>)
    ensures |r| == |slots| && forall i :: 0 <= i < |r| ==> r[i] == slots[i].(flag := false)
  {
    if slots == [] then [] else Cleared(slots[..|slots| - 1]) + [slots[|slots| - 1].(flag := false)]
  }

  function Polled(peers: seq<Peer>, ready: set<int>): (r: seq<bool>)
    ensures |r| == |peers| && forall i :: 0 <= i < |r| ==> (r[i] <==> peers[i].fd in ready)
  {
    if peers == [] then [] else Polled(peers[..|peers| - 1], ready) + [peers[|peers| - 1].fd in ready]
  }

  /** The state before the loop: flags are reset, the sockets are polled, and a waiting client is let in. */
  function Begin(p: Pass, server: int, ready: set<int>, incoming: int, now: int): (r: Pass)
    requires p.InStep()
    ensures r.InStep()
  {
    var q := Pass(p.peers, Polled(p.peers, ready), Cleared(p.slots), true);
    if server in ready then Rebuilt(q, [Peer(incoming, now)] + q.peers).(timeout := false) else q
  }

  // ----- what a pass amounts to -----

  /** The clients left of `s` once a removal has happened: whoever follows a removed client is not looked at. */
  function Survivors(s: seq<Peer>, now: int): (r: seq<Peer>)
    ensures |r| <= |s|
  {
    if s == [] then []
    else if !Stale(s[0], now) then [s[0]] + Survivors(s[1..], now)
    else if |s| == 1 then []
    else [s[1]] + Survivors(s[2..], now)
  }

  predicate Got(p: Pass, j: nat, inbox: int -> Reception)
    requires p.InStep() && j < |p.peers|
  {
    p.readable[j] && inbox(p.peers[j].fd).ts.Some?
  }

  /** The first client that the pass removes, or the number of clients. */
  function FirstDropped(p: Pass, i: nat, inbox: int -> Reception, now: int): (f: nat)
    requires p.InStep() && i <= |p.peers|
    ensures i <= f <= |p.peers|
    ensures f < |p.peers| ==> Stale(p.peers[f], now) && !Got(p, f, inbox)
    ensures forall j :: i <= j < f ==> !Stale(p.peers[j], now) || Got(p, j, inbox)
    decreases |p.peers| - i
  {
    if i == |p.peers| || (Stale(p.peers[i], now) && !Got(p, i, inbox)) then i
    else FirstDropped(p, i + 1, inbox, now)
  }

  /** Clients `i` to `f` after they were read. */
  function Refreshed(p: Pass, i: nat, f: nat, inbox: int -> Reception, now: int): (r: seq<Peer>)
    requires p.InStep() && i <= f <= |p.peers|
    ensures |r| == f - i
    ensures forall j :: 0 <= j < |r| ==>
      r[j] == if Got(p, i + j, inbox) then p.peers[i + j].(lm := now) else p.peers[i + j]
    decreases f
  {
    if i == f then []
    else
      Refreshed(p, i, f - 1, inbox, now) +
      [if Got(p, f - 1, inbox) then p.peers[f - 1].(lm := now) else p.peers[f - 1]]
  }

  /** The slots of a pass that removes nobody. */
  function Delivered(p: Pass, inbox: int -> Reception): (r: seq<Slot>)
    requires p.InStep()
    ensures |r| == |p.peers| && forall j :: 0 <= j < |r| ==> r[j] == DeliveredSlot(p, j, inbox)
  {
    seq(|p.peers|, j requires 0 <= j < |p.peers| => DeliveredSlot(p, j, inbox))
  }

  function DeliveredSlot(p: Pass, j: nat, inbox: int -> Reception): Slot
    requires p.InStep() && j < |p.peers|
  {
    if !p.readable[j] then p.slots[j]
    else Slot(Stored(p.slots[j].data, inbox(p.peers[j].fd)), p.slots[j].flag || Got(p, j, inbox))
  }

  predicate Silent(p: Pass) {
    p.InStep() && p.readable == Repeat(false, |p.peers|) && p.slots == Repeat(EMPTY_SLOT, |p.peers|)
  }

  lemma VisitSilent(p: Pass, i: nat, inbox: int -> Reception, now: int)
    requires Silent(p) && i < |p.peers|
    ensures Visit(p, i, inbox, now) == if Stale(p.peers[i], now) then Rebuilt(p, RemoveAt(p.peers, i)) else p
  {
    hide RemoveAt;
    assert Receive(p, i, inbox, now) == p;
  }

  lemma RebuiltIsSilent(p: Pass, peers: seq<Peer>)
    ensures Silent(Rebuilt(p, peers))
    ensures Silent(p) ==> Rebuilt(p, p.peers) == p
    ensures forall more :: Rebuilt(Rebuilt(p, peers), more) == Rebuilt(p, more)
  {
  }

  /** How the survivors behind position `i` come about, one position at a time. */
  lemma SurvivorsStep(s: seq<Peer>, i: nat, now: int)
    requires i < |s|
    ensures !Stale(s[i], now) ==> s[..i] + Survivors(s[i..], now) == s[..i + 1] + Survivors(s[i + 1..], now)
    ensures Stale(s[i], now) && i + 1 == |s| ==> s[..i] + Survivors(s[i..], now) == RemoveAt(s, i)
    ensures Stale(s[i], now) && i + 1 < |s| ==>
      s[..i] + Survivors(s[i..], now) == RemoveAt(s, i)[..i + 1] + Survivors(RemoveAt(s, i)[i + 1..], now)
  {
    var rest, less := s[i..], RemoveAt(s, i);
    if !Stale(s[i], now) {
      assert rest[1..] == s[i + 1..];
      assert s[..i] + ([rest[0]] + Survivors(rest[1..], now)) == s[..i] + [rest[0]] + Survivors(rest[1..], now);
      assert s[..i] + [rest[0]] == s[..i + 1];
    } else if i + 1 == |s| {
      assert s[..i] + [] == less;
    } else {
      assert rest[2..] == less[i + 1..] && less[..i + 1] == s[..i] + [rest[1]];
      assert s[..i] + ([rest[1]] + Survivors(rest[2..], now)) == s[..i] + [rest[1]] + Survivors(rest[2..], now);
    }
  }

  /** The rest of a pass once the set of clients has changed: nothing is received any more. */
  lemma {:induction false} SweepWithoutEvents(p: Pass, i: nat, inbox: int -> Reception, now: int)
    requires Silent(p) && i <= |p.peers|
    ensures Sweep(p, i, inbox, now) == Rebuilt(p, p.peers[..i] + Survivors(p.peers[i..], now))
    decreases |p.peers| - i
  {
    hide Silent, Rebuilt, RemoveAt, Visit, Stale, Survivors;
    RebuiltIsSilent(p, p.peers);
    if i < |p.peers| {
      VisitSilent(p, i, inbox, now);
      SurvivorsStep(p.peers, i, now);
      var q := Visit(p, i, inbox, now);
      RebuiltIsSilent(p, RemoveAt(p.peers, i));
      PeersOfRebuilt(p, RemoveAt(p.peers, i));
      if i + 1 <= |q.peers| {
        SweepWithoutEvents(q, i + 1, inbox, now);
      } else {
        SweepDone(q, i + 1, inbox, now);
        LengthRemoved(p.peers, i);
      }
    } else {
      NoSurvivors(p.peers, now);
    }
  }

  lemma PeersOfRebuilt(p: Pass, peers: seq<Peer>)
    ensures Rebuilt(p, peers).peers == peers
  {
  }

  lemma SweepOne(p: Pass, i: nat, inbox: int -> Reception, now: int)
    requires p.InStep() && i < |p.peers|
    ensures Sweep(p, i, inbox, now) == Sweep(Visit(p, i, inbox, now), i + 1, inbox, now)
  {
  }

  lemma SweepDone(p: Pass, i: nat, inbox: int -> Reception, now: int)
    requires p.InStep() && i >= |p.peers|
    ensures Sweep(p, i, inbox, now) == p
  {
  }

  lemma LengthRemoved<T>(s: seq<T>, i: nat)
    requires i < |s|
    ensures |RemoveAt(s, i)| == |s| - 1
  {
  }

  lemma NoSurvivors(s: seq<Peer>, now: int)
    ensures s[..|s|] + Survivors(s[|s|..], now) == s
  {
  }

  ghost predicate AnyGot(p: Pass, i: nat, f: nat, inbox: int -> Reception)
    requires p.InStep() && i <= f <= |p.peers|
  {
    exists j :: i <= j < f && Got(p, j, inbox)
  }

  /**
   A pass from position `i` on, without the loop: clients before the first one to be dropped are read; if there is
   none the slots hold what was received, and otherwise all slots are empty and the silent clients behind it are
   thinned out.
   */
  ghost function Outcome(p: Pass, i: nat, inbox: int -> Reception, now: int): Pass
    requires p.InStep() && i <= |p.peers|
  {
    var f := FirstDropped(p, i, inbox, now);
    var read := p.peers[..i] + Refreshed(p, i, f, inbox, now);
    var timeout := p.timeout && !AnyGot(p, i, f, inbox);
    if f == |p.peers| then Pass(read, p.readable, p.slots[..i] + Delivered(p, inbox)[i..], timeout)
    else Rebuilt(p.(timeout := timeout), read + Survivors(p.peers[f..], now))
  }

  /** Two states that agree from position `i` on. */
  ghost predicate Agree(p: Pass, q: Pass, i: nat) {
    && p.InStep() && q.InStep() && |p.peers| == |q.peers| && i <= |p.peers|
    && p.readable == q.readable
    && (forall j :: i <= j < |p.peers| ==> p.peers[j] == q.peers[j] && p.slots[j] == q.slots[j])
  }

  lemma {:induction false} AgreeOnFirst(p: Pass, q: Pass, i: nat, inbox: int -> Reception, now: int)
    requires Agree(p, q, i)
    ensures FirstDropped(p, i, inbox, now) == FirstDropped(q, i, inbox, now)
    decreases |p.peers| - i
  {
    if i < |p.peers| { AgreeOnFirst(p, q, i + 1, inbox, now); }
  }

  lemma VisitKept(p: Pass, i: nat, inbox: int -> Reception, now: int)
    requires p.InStep() && i < |p.peers| && (Stale(p.peers[i], now) ==> Got(p, i, inbox))
    ensures Visit(p, i, inbox, now) == Receive(p, i, inbox, now)
  {
  }

  lemma ReceiveAgrees(p: Pass, i: nat, inbox: int -> Reception, now: int)
    requires p.InStep() && i < |p.peers|
    ensures
      var q := Receive(p, i, inbox, now);
      && Agree(p, q, i + 1)
      && (q.timeout <==> p.timeout && !Got(p, i, inbox))
  {
  }

  lemma ReceivePeers(p: Pass, i: nat, inbox: int -> Reception, now: int)
    requires p.InStep() && i < |p.peers|
    ensures Receive(p, i, inbox, now).peers == p.peers[..i] + Refreshed(p, i, i + 1, inbox, now) + p.peers[i + 1..]
  {
    var q := Receive(p, i, inbox, now);
    assert q.peers[i] == Refreshed(p, i, i + 1, inbox, now)[0];
    assert forall j :: 0 <= j < |p.peers| && j != i ==> q.peers[j] == p.peers[j];
  }

  lemma ReceiveSlots(p: Pass, i: nat, inbox: int -> Reception, now: int)
    requires p.InStep() && i < |p.peers|
    ensures Receive(p, i, inbox, now).slots == p.slots[..i] + [Delivered(p, inbox)[i]] + p.slots[i + 1..]
  {
    var q := Receive(p, i, inbox, now);
    assert q.slots[i] == Delivered(p, inbox)[i];
    assert forall j :: 0 <= j < |p.slots| && j != i ==> q.slots[j] == p.slots[j];
  }

  lemma VisitDropped(p: Pass, i: nat, inbox: int -> Reception, now: int)
    requires p.InStep() && i < |p.peers| && Stale(p.peers[i], now) && !Got(p, i, inbox)
    ensures Visit(p, i, inbox, now) == Rebuilt(p, RemoveAt(p.peers, i))
  {
    hide RemoveAt;
  }

  lemma RefreshedJoins(p: Pass, q: Pass, i: nat, f: nat, inbox: int -> Reception, now: int)
    requires Agree(p, q, i + 1) && i < f <= |p.peers|
    ensures Refreshed(p, i, f, inbox, now) == Refreshed(p, i, i + 1, inbox, now) + Refreshed(q, i + 1, f, inbox, now)
  {
    var all, one, rest := Refreshed(p, i, f, inbox, now), Refreshed(p, i, i + 1, inbox, now), Refreshed(q, i + 1, f, inbox, now);
    forall j | 0 <= j < |all| ensures all[j] == (one + rest)[j] {
      if j > 0 { assert (one + rest)[j] == rest[j - 1]; }
    }
  }

  lemma DeliveredAgrees(p: Pass, q: Pass, i: nat, inbox: int -> Reception)
    requires Agree(p, q, i)
    ensures Delivered(p, inbox)[i..] == Delivered(q, inbox)[i..]
  {
    forall j | i <= j < |p.peers| ensures Delivered(p, inbox)[j] == Delivered(q, inbox)[j] {
      assert p.peers[j] == q.peers[j] && p.slots[j] == q.slots[j];
    }
  }

  lemma AnyGotJoins(p: Pass, q: Pass, i: nat, f: nat, inbox: int -> Reception)
    requires Agree(p, q, i + 1) && i < f <= |p.peers|
    ensures AnyGot(p, i, f, inbox) <==> Got(p, i, inbox) || AnyGot(q, i + 1, f, inbox)
  {
    forall j | i < j < f ensures Got(p, j, inbox) <==> Got(q, j, inbox) {
    }
  }

  lemma Splice<T>(s: seq<T>, q: seq<T>, i: nat, one: seq<T>, rest: seq<T>)
    requires i < |s| && |one| == 1 && q == s[..i] + one + s[i + 1..]
    ensures |q| == |s| && q[..i + 1] + rest == s[..i] + (one + rest)
    ensures forall f :: i < f <= |s| ==> q[f..] == s[f..]
  {
  }

  lemma JoinPeers(p: Pass, i: nat, f: nat, inbox: int -> Reception, now: int)
    requires p.InStep() && i < f <= |p.peers|
    ensures
      var q := Receive(p, i, inbox, now);
      && q.peers[..i + 1] + Refreshed(q, i + 1, f, inbox, now) == p.peers[..i] + Refreshed(p, i, f, inbox, now)
      && q.peers[f..] == p.peers[f..]
  {
    hide Receive, Refreshed, Agree, Got;
    var q := Receive(p, i, inbox, now);
    ReceiveAgrees(p, i, inbox, now);
    RefreshedJoins(p, q, i, f, inbox, now);
    ReceivePeers(p, i, inbox, now);
    Splice(p.peers, q.peers, i, Refreshed(p, i, i + 1, inbox, now), Refreshed(q, i + 1, f, inbox, now));
  }

  lemma JoinSlots(p: Pass, i: nat, inbox: int -> Reception, now: int)
    requires p.InStep() && i < |p.peers|
    ensures
      var q := Receive(p, i, inbox, now);
      q.slots[..i + 1] + Delivered(q, inbox)[i + 1..] == p.slots[..i] + Delivered(p, inbox)[i..]
  {
    hide Receive, Delivered, Agree;
    var q, slots := Receive(p, i, inbox, now), Delivered(p, inbox);
    ReceiveAgrees(p, i, inbox, now);
    DeliveredAgrees(p, q, i + 1, inbox);
    ReceiveSlots(p, i, inbox, now);
    Splice(p.slots, q.slots, i, [slots[i]], slots[i + 1..]);
    assert [slots[i]] + slots[i + 1..] == slots[i..];
  }

  lemma JoinTimeout(p: Pass, i: nat, f: nat, inbox: int -> Reception, now: int)
    requires p.InStep() && i < f <= |p.peers|
    ensures
      var q := Receive(p, i, inbox, now);
      && (q.timeout && !AnyGot(q, i + 1, f, inbox) <==> p.timeout && !AnyGot(p, i, f, inbox))
      && q.readable == p.readable
  {
    hide Receive, Got, AnyGot;
    var q := Receive(p, i, inbox, now);
    ReceiveAgrees(p, i, inbox, now);
    hide Agree;
    AnyGotJoins(p, q, i, f, inbox);
  }

  lemma OutcomeStep(p: Pass, i: nat, inbox: int -> Reception, now: int)
    requires p.InStep() && i < |p.peers| && (Stale(p.peers[i], now) ==> Got(p, i, inbox))
    ensures Outcome(Receive(p, i, inbox, now), i + 1, inbox, now) == Outcome(p, i, inbox, now)
  {
    hide Stale, Got, Receive, Refreshed, Delivered, Survivors, AnyGot, Rebuilt, Agree;
    ReceiveAgrees(p, i, inbox, now);
    var q, f := Receive(p, i, inbox, now), FirstDropped(p, i + 1, inbox, now);
    assert f == FirstDropped(p, i, inbox, now);
    AgreeOnFirst(p, q, i + 1, inbox, now);
    JoinPeers(p, i, f, inbox, now);
    JoinSlots(p, i, inbox, now);
    JoinTimeout(p, i, f, inbox, now);
    SameRebuilt(p, q, p.timeout && !AnyGot(p, i, f, inbox), p.peers[..i] + Refreshed(p, i, f, inbox, now) + Survivors(p.peers[f..], now));
  }

  lemma SameRebuilt(p: Pass, q: Pass, timeout: bool, peers: seq<Peer>)
    ensures Rebuilt(p.(timeout := timeout), peers) == Rebuilt(q.(timeout := timeout), peers)
  {
  }

  lemma OutcomeAtEnd(p: Pass, inbox: int -> Reception, now: int)
    requires p.InStep()
    ensures Outcome(p, |p.peers|, inbox, now) == p
  {
    assert p.peers[..|p.peers|] == p.peers && p.slots[..|p.peers|] == p.slots;
  }

  lemma OutcomeDropped(p: Pass, i: nat, inbox: int -> Reception, now: int)
    requires p.InStep() && i < |p.peers| && Stale(p.peers[i], now) && !Got(p, i, inbox)
    ensures Outcome(p, i, inbox, now) == Rebuilt(p, p.peers[..i] + Survivors(p.peers[i..], now))
  {
    assert p.peers[..i] + Refreshed(p, i, i, inbox, now) == p.peers[..i];
  }

  /** The loop of a pass computes its outcome. */
  lemma {:induction false} SweepOutcome(p: Pass, i: nat, inbox: int -> Reception, now: int)
    requires p.InStep() && i <= |p.peers|
    ensures Sweep(p, i, inbox, now) == Outcome(p, i, inbox, now)
    decreases |p.peers| - i
  {
    hide Stale, Got, Visit, Outcome, Survivors, Rebuilt, RemoveAt, Silent;
    if i == |p.peers| {
      OutcomeAtEnd(p, inbox, now);
    } else if Stale(p.peers[i], now) && !Got(p, i, inbox) {
      OutcomeDropped(p, i, inbox, now);
      VisitDropped(p, i, inbox, now);
      SurvivorsStep(p.peers, i, now);
      LengthRemoved(p.peers, i);
      var less := RemoveAt(p.peers, i);
      var q := Rebuilt(p, less);
      PeersOfRebuilt(p, less);
      RebuiltIsSilent(p, less);
      if i + 1 <= |less| {
        SweepWithoutEvents(q, i + 1, inbox, now);
      } else {
        SweepDone(q, i + 1, inbox, now);
      }
    } else {
      OutcomeStep(p, i, inbox, now);
      var q := Visit(p, i, inbox, now);
      VisitKept(p, i, inbox, now);
      SweepOutcome(q, i + 1, inbox, now);
    }
  }

  /** Client `j` is silent for ten seconds, and no time stamp arrives from it. */
  predicate Mute(p: Pass, j: nat, inbox: int -> Reception, now: int)
    requires p.InStep() && j < |p.peers|
  {
    p.peers[j].lm <= now - 10 && !(p.readable[j] && inbox(p.peers[j].fd).ts.Some?)
  }

  /** All events and all receive slots are blank. */
  predicate Blank(p: Pass) {
    && p.InStep()
    && forall j :: 0 <= j < |p.peers| ==> !p.readable[j] && p.slots[j] == Slot(SensorData(0, 0.0, 0), false)
  }

  lemma SilentIsBlank(p: Pass)
    ensures Silent(p) <==> Blank(p)
  {
  }

  lemma DropsIffMute(p: Pass, inbox: int -> Reception, now: int)
    requires p.InStep()
    ensures FirstDropped(p, 0, inbox, now) < |p.peers| <==> exists j :: 0 <= j < |p.peers| && Mute(p, j, inbox, now)
  {
    var f := FirstDropped(p, 0, inbox, now);
    assert forall j :: 0 <= j < |p.peers| ==> (Mute(p, j, inbox, now) <==> Stale(p.peers[j], now) && !Got(p, j, inbox));
    hide Stale, Got, Mute;
    if f < |p.peers| { assert Mute(p, f, inbox, now); }
  }

  /**
   A pass removes somebody exactly when a client has been silent for ten seconds and no time stamp arrives from it.  It
   then returns with every slot blank, whatever it had received before.
   */
  lemma DroppedWipesAll(p: Pass, inbox: int -> Reception, now: int)
    requires p.InStep()
    ensures
      var r := Sweep(p, 0, inbox, now);
      && |r.peers| <= |p.peers|
      && (|r.peers| < |p.peers| <==> exists j :: 0 <= j < |p.peers| && Mute(p, j, inbox, now))
      && (|r.peers| < |p.peers| ==> Blank(r))
  {
    hide Sweep, Outcome, Silent, Delivered, Blank, Mute;
    SweepOutcome(p, 0, inbox, now);
    OutcomeShape(p, inbox, now);
    SilentIsBlank(Sweep(p, 0, inbox, now));
    DropsIffMute(p, inbox, now);
  }

  /**
   A pass that removes nobody: each slot holds what its client sent, a field whose call stores nothing keeps its old
   content, a client is refreshed by a time stamp, and the pass stays idle only without any.
   */
  lemma DeliveredUnlessDropped(p: Pass, inbox: int -> Reception, now: int)
    requires p.InStep() && forall j :: 0 <= j < |p.peers| ==> !Mute(p, j, inbox, now)
    ensures
      var r := Sweep(p, 0, inbox, now);
      && |r.peers| == |p.peers| && r.readable == p.readable
      && (forall j :: 0 <= j < |p.peers| ==>
            var peer, got, kept := p.peers[j], inbox(p.peers[j].fd), p.slots[j].data;
            && r.slots[j].data == SensorData(
                 if p.readable[j] && got.id.Some? then got.id.value else kept.id,
                 if p.readable[j] && got.value.Some? then got.value.value else kept.value,
                 if p.readable[j] && got.ts.Some? then got.ts.value else kept.ts)
            && (r.slots[j].flag <==> p.slots[j].flag || (p.readable[j] && got.ts.Some?))
            && r.peers[j] == Peer(peer.fd, if p.readable[j] && got.ts.Some? then now else peer.lm))
      && (r.timeout <==> p.timeout && forall j :: 0 <= j < |p.peers| ==> !(p.readable[j] && inbox(p.peers[j].fd).ts.Some?))
  {
    hide Sweep, Outcome, Mute, FirstDropped;
    SweepOutcome(p, 0, inbox, now);
    DropsIffMute(p, inbox, now);
    NobodyDropped(p, inbox, now);
  }

  lemma NobodyDropped(p: Pass, inbox: int -> Reception, now: int)
    requires p.InStep() && FirstDropped(p, 0, inbox, now) == |p.peers|
    ensures
      var r := Outcome(p, 0, inbox, now);
      && |r.peers| == |p.peers| && r.readable == p.readable
      && (forall j :: 0 <= j < |p.peers| ==>
            && r.slots[j] == DeliveredSlot(p, j, inbox)
            && r.peers[j] == if Got(p, j, inbox) then p.peers[j].(lm := now) else p.peers[j])
      && (r.timeout <==> p.timeout && forall j :: 0 <= j < |p.peers| ==> !Got(p, j, inbox))
  {
    hide Stale, Got, DeliveredSlot, FirstDropped;
  }

  /**
   The same from the start of a pass without a waiting client: flags are new, and what is not received is what the slot
   held before.
   */
  lemma PassDelivers(p: Pass, server: int, ready: set<int>, incoming: int, inbox: int -> Reception, now: int)
    requires p.InStep() && server !in ready
    requires forall j :: 0 <= j < |p.peers| ==>
      now - 10 < p.peers[j].lm || (p.peers[j].fd in ready && inbox(p.peers[j].fd).ts.Some?)
    ensures
      var r := Sweep(Begin(p, server, ready, incoming, now), 0, inbox, now);
      && |r.peers| == |p.peers|
      && (forall j :: 0 <= j < |p.peers| ==>
            var peer, got, arrived := p.peers[j], inbox(p.peers[j].fd), p.peers[j].fd in ready;
            && r.slots[j].data == SensorData(
                 if arrived && got.id.Some? then got.id.value else p.slots[j].data.id,
                 if arrived && got.value.Some? then got.value.value else p.slots[j].data.value,
                 if arrived && got.ts.Some? then got.ts.value else p.slots[j].data.ts)
            && (r.slots[j].flag <==> arrived && got.ts.Some?)
            && r.peers[j] == Peer(peer.fd, if arrived && got.ts.Some? then now else peer.lm))
      && (r.timeout <==> forall j :: 0 <= j < |p.peers| ==> !(p.peers[j].fd in ready && inbox(p.peers[j].fd).ts.Some?))
  {
    hide Sweep;
    var q := Begin(p, server, ready, incoming, now);
    DeliveredUnlessDropped(q, inbox, now);
  }

  lemma OutcomeShape(p: Pass, inbox: int -> Reception, now: int)
    requires p.InStep()
    ensures
      var f, r := FirstDropped(p, 0, inbox, now), Outcome(p, 0, inbox, now);
      && (f == |p.peers| ==> |r.peers| == |p.peers| && r.slots == Delivered(p, inbox))
      && (f < |p.peers| ==> |r.peers| < |p.peers| && Silent(r))
  {
    hide Stale, Got, Delivered, Refreshed;
    var f := FirstDropped(p, 0, inbox, now);
    if f < |p.peers| {
      assert p.peers[f..][0] == p.peers[f];
    }
  }

  /** A pass that lets a client in delivers nothing: its own rebuild has wiped the events of all others. */
  lemma AcceptDeliversNothing(p: Pass, server: int, ready: set<int>, incoming: int, inbox: int -> Reception, now: int)
    requires p.InStep() && server in ready
    ensures
      var r := Sweep(Begin(p, server, ready, incoming, now), 0, inbox, now);
      && Blank(r) && !r.timeout
      && r.peers == Survivors([Peer(incoming, now)] + p.peers, now)
  {
    hide Survivors, Sweep, Blank;
    SilentIsBlank(Sweep(Begin(p, server, ready, incoming, now), 0, inbox, now));
    var q := Begin(p, server, ready, incoming, now);
    SweepWithoutEvents(q, 0, inbox, now);
    assert q.peers[0..] == q.peers;
  }

  /** After a pass without a new client, `timeout` says that no complete sample arrived before the first removal. */
  lemma TimeoutAfterPass(p: Pass, server: int, ready: set<int>, incoming: int, inbox: int -> Reception, now: int)
    requires p.InStep() && server !in ready
    ensures
      var q := Begin(p, server, ready, incoming, now);
      Sweep(q, 0, inbox, now).timeout <==> !AnyGot(q, 0, FirstDropped(q, 0, inbox, now), inbox)
  {
    hide Sweep, Stale, Got, AnyGot, Refreshed, Delivered, Survivors;
    SweepOutcome(Begin(p, server, ready, incoming, now), 0, inbox, now);
  }

  // ----- runs of silent clients -----

  /** Every second element, the first one left out. */
  function Seconds<T>(s: seq<T>): (r: seq<T>)
    ensures |r| == |s| / 2 && forall j :: 0 <= j < |r| ==> r[j] == s[2 * j + 1]
  {
    if |s| <= 1 then [] else [s[1]] + Seconds(s[2..])
  }

  lemma {:induction false} SurvivorsBeforeRun(a: seq<Peer>, b: seq<Peer>, now: int)
    requires a == [] || !Stale(a[|a| - 1], now)
    ensures Survivors(a + b, now) == Survivors(a, now) + Survivors(b, now)
  {
    if a == [] {
      assert a + b == b;
    } else if !Stale(a[0], now) {
      assert (a + b)[1..] == a[1..] + b;
      SurvivorsBeforeRun(a[1..], b, now);
    } else {
      assert (a + b)[2..] == a[2..] + b;
      SurvivorsBeforeRun(a[2..], b, now);
    }
  }

  lemma {:induction false} SurvivorsOfRun(run: seq<Peer>, b: seq<Peer>, now: int)
    requires forall j :: 0 <= j < |run| ==> Stale(run[j], now)
    requires b == [] || !Stale(b[0], now)
    ensures Survivors(run + b, now) == Seconds(run) + Survivors(b, now)
  {
    if run == [] {
      assert run + b == b;
    } else if |run| == 1 {
      if b != [] { assert (run + b)[2..] == b[1..]; }
    } else {
      assert (run + b)[2..] == run[2..] + b;
      SurvivorsOfRun(run[2..], b, now);
    }
  }

  lemma Associate<T>(x: seq<T>, y: seq<T>, z: seq<T>)
    ensures x + (y + z) == x + y + z
  {
  }

  /** Without events, each maximal run of silent clients is left with every second one. */
  lemma ThinnedRun(a: seq<Peer>, run: seq<Peer>, b: seq<Peer>, now: int)
    requires forall j :: 0 <= j < |run| ==> Stale(run[j], now)
    requires a == [] || !Stale(a[|a| - 1], now)
    requires b == [] || !Stale(b[0], now)
    ensures Survivors(a + run + b, now) == Survivors(a, now) + Seconds(run) + Survivors(b, now)
    ensures |Seconds(run)| == |run| / 2
  {
    hide Survivors, Seconds;
    var rest := run + b;
    assert a + run + b == a + rest;
    SurvivorsBeforeRun(a, rest, now);
    SurvivorsOfRun(run, b, now);
    Associate(Survivors(a, now), Seconds(run), Survivors(b, now));
  }

  /** Whether a sweep without events removes client `j` of `s`. */
  predicate Dropped(s: seq<Peer>, j: nat, now: int)
    requires j < |s|
  {
    Stale(s[j], now) && (j == 0 || !Dropped(s, j - 1, now))
  }

  function Kept(s: seq<Peer>, n: nat, now: int): seq<Peer>
    requires n <= |s|
  {
    if n == 0 then [] else Kept(s, n - 1, now) + if Dropped(s, n - 1, now) then [] else [s[n - 1]]
  }

  lemma {:induction false} KeptIsSurvivors(s: seq<Peer>, now: int)
    ensures Survivors(s, now) == Kept(s, |s|, now)
  {
    hide Stale, Dropped, Kept, Survivors;
    SurvivorsUnfold(s, now);
    if s == [] {
      NothingKept(s, now);
    } else {
      KeptStart(s, now);
      if !Stale(s[0], now) {
        KeptIsSurvivors(s[1..], now);
        KeptShift(s, 1, |s| - 1, now);
      } else if |s| >= 2 {
        KeptIsSurvivors(s[2..], now);
        KeptShift(s, 2, |s| - 2, now);
      }
    }
  }

  lemma NothingKept(s: seq<Peer>, now: int)
    ensures Kept(s, 0, now) == []
  {
  }

  lemma SurvivorsUnfold(s: seq<Peer>, now: int)
    ensures s == [] ==> Survivors(s, now) == []
    ensures s != [] && !Stale(s[0], now) ==> Survivors(s, now) == [s[0]] + Survivors(s[1..], now)
    ensures |s| == 1 && Stale(s[0], now) ==> Survivors(s, now) == []
    ensures |s| >= 2 && Stale(s[0], now) ==> Survivors(s, now) == [s[1]] + Survivors(s[2..], now)
  {
  }

  lemma KeptStart(s: seq<Peer>, now: int)
    requires s != []
    ensures !Stale(s[0], now) ==> !Dropped(s, 0, now) && Kept(s, 1, now) == [s[0]]
    ensures Stale(s[0], now) ==> Kept(s, 1, now) == []
    ensures Stale(s[0], now) && |s| >= 2 ==> !Dropped(s, 1, now) && Kept(s, 2, now) == [s[1]]
  {
    if |s| >= 2 { assert Kept(s, 2, now) == Kept(s, 1, now) + if Dropped(s, 1, now) then [] else [s[1]]; }
  }

  /** From a client on that follows one which is not removed, the pass goes on as if it started there. */
  lemma {:induction false} KeptShift(s: seq<Peer>, i: nat, n: nat, now: int)
    requires 0 < i && i + n <= |s| && !Dropped(s, i - 1, now)
    ensures Kept(s, i + n, now) == Kept(s, i, now) + Kept(s[i..], n, now)
    ensures n > 0 ==> (Dropped(s, i + n - 1, now) <==> Dropped(s[i..], n - 1, now))
  {
    if n > 0 {
      KeptShift(s, i, n - 1, now);
    }
  }

  /** Without events, all silent clients go exactly when no two of them are neighbours. */
  lemma {:induction false} ThinnedClean(s: seq<Peer>, now: int)
    ensures (forall p :: p in Survivors(s, now) ==> !Stale(p, now))
      <==> forall i :: 0 <= i < |s| - 1 ==> !(Stale(s[i], now) && Stale(s[i + 1], now))
  {
    hide Stale;
    if s != [] && !Stale(s[0], now) {
      ThinnedClean(s[1..], now);
      NeighboursFrom(s, 1, now);
    } else if |s| >= 2 {
      ThinnedClean(s[2..], now);
      NeighboursFrom(s, 2, now);
    }
  }

  lemma NeighboursFrom(s: seq<Peer>, n: nat, now: int)
    requires n <= |s|
    ensures (forall i :: 0 <= i < |s[n..]| - 1 ==> !(Stale(s[n..][i], now) && Stale(s[n..][i + 1], now)))
      <==> forall i :: n <= i < |s| - 1 ==> !(Stale(s[i], now) && Stale(s[i + 1], now))
  {
    hide Stale;
    var r := s[n..];
    if forall i :: 0 <= i < |r| - 1 ==> !(Stale(r[i], now) && Stale(r[i + 1], now)) {
      forall i | n <= i < |s| - 1 ensures !(Stale(s[i], now) && Stale(s[i + 1], now)) {
        assert r[i - n] == s[i] && r[i - n + 1] == s[i + 1];
      }
    }
  }

  // ----- silent clients in a pass -----

  /** Whether the pass removes client `j`: it is silent, at or behind the first dropped one, and its predecessor stays. */
  predicate Removed(p: Pass, j: nat, inbox: int -> Reception, now: int)
    requires p.InStep() && j < |p.peers|
  {
    var f := FirstDropped(p, 0, inbox, now);
    f <= j && Stale(p.peers[j], now) && (j == f || !Removed(p, j - 1, inbox, now))
  }

  /** Client `j` after the pass, if it stays: clients before the first dropped one have been read. */
  function PeerAfter(p: Pass, j: nat, inbox: int -> Reception, now: int): Peer
    requires p.InStep() && j < |p.peers|
  {
    if j < FirstDropped(p, 0, inbox, now) && Got(p, j, inbox) then p.peers[j].(lm := now) else p.peers[j]
  }

  /** Those of the first `n` clients that the pass keeps. */
  function Remaining(p: Pass, n: nat, inbox: int -> Reception, now: int): seq<Peer>
    requires p.InStep() && n <= |p.peers|
  {
    if n == 0 then []
    else Remaining(p, n - 1, inbox, now) + if Removed(p, n - 1, inbox, now) then [] else [PeerAfter(p, n - 1, inbox, now)]
  }

  /** The clients after a pass, split at the first dropped one. */
  lemma PassSplit(p: Pass, inbox: int -> Reception, now: int)
    requires p.InStep()
    ensures
      var f := FirstDropped(p, 0, inbox, now);
      Sweep(p, 0, inbox, now).peers == Refreshed(p, 0, f, inbox, now) + Survivors(p.peers[f..], now)
  {
    hide Sweep, Stale, Got, AnyGot, Refreshed, Delivered;
    SweepOutcome(p, 0, inbox, now);
    var f := FirstDropped(p, 0, inbox, now);
    assert p.peers[..0] + Refreshed(p, 0, f, inbox, now) == Refreshed(p, 0, f, inbox, now);
  }

  lemma {:induction false} RemainingBefore(p: Pass, n: nat, inbox: int -> Reception, now: int)
    requires p.InStep() && n <= FirstDropped(p, 0, inbox, now)
    ensures Remaining(p, n, inbox, now) == Refreshed(p, 0, n, inbox, now)
  {
    hide Stale, Got, FirstDropped;
    if n > 0 {
      RemainingBefore(p, n - 1, inbox, now);
    }
  }

  lemma {:induction false} RemovedBehind(p: Pass, f: nat, k: nat, inbox: int -> Reception, now: int)
    requires p.InStep() && f == FirstDropped(p, 0, inbox, now) && f + k < |p.peers|
    ensures Removed(p, f + k, inbox, now) <==> Dropped(p.peers[f..], k, now)
  {
    hide Stale, Got, FirstDropped;
    assert p.peers[f..][k] == p.peers[f + k];
    if k > 0 { RemovedBehind(p, f, k - 1, inbox, now); }
  }

  lemma {:induction false} RemainingBehind(p: Pass, f: nat, k: nat, inbox: int -> Reception, now: int)
    requires p.InStep() && f == FirstDropped(p, 0, inbox, now) && f + k <= |p.peers|
    ensures Remaining(p, f + k, inbox, now) == Refreshed(p, 0, f, inbox, now) + Kept(p.peers[f..], k, now)
  {
    hide Stale, Got, FirstDropped, Refreshed, Removed, Dropped;
    if k == 0 {
      RemainingBefore(p, f, inbox, now);
    } else {
      RemainingBehind(p, f, k - 1, inbox, now);
      RemovedBehind(p, f, k - 1, inbox, now);
      assert p.peers[f..][k - 1] == PeerAfter(p, f + k - 1, inbox, now);
    }
  }

  /** After a pass exactly the clients that it does not remove are left, in order: see `Removed`. */
  lemma SurvivorsAreKept(p: Pass, inbox: int -> Reception, now: int)
    requires p.InStep()
    ensures Sweep(p, 0, inbox, now).peers == Remaining(p, |p.peers|, inbox, now)
  {
    hide Sweep, Stale, Refreshed, Survivors, Kept, Remaining, Removed;
    var f := FirstDropped(p, 0, inbox, now);
    PassSplit(p, inbox, now);
    RemainingBehind(p, f, |p.peers| - f, inbox, now);
    KeptIsSurvivors(p.peers[f..], now);
  }

  /**
   In a pass, each maximal run of k silent clients at or behind the first dropped one keeps its second, fourth, ...
   client, floor(k / 2) of them, independently of what stands around it.
   */
  lemma RunsHalve(p: Pass, a: nat, b: nat, inbox: int -> Reception, now: int)
    requires p.InStep() && FirstDropped(p, 0, inbox, now) <= a <= b <= |p.peers|
    requires forall j :: a <= j < b ==> Stale(p.peers[j], now)
    requires a == FirstDropped(p, 0, inbox, now) || !Stale(p.peers[a - 1], now)
    requires b == |p.peers| || !Stale(p.peers[b], now)
    ensures
      var f, run := FirstDropped(p, 0, inbox, now), p.peers[a..b];
      && Sweep(p, 0, inbox, now).peers ==
           Refreshed(p, 0, f, inbox, now) + Survivors(p.peers[f..a], now) + Seconds(run) + Survivors(p.peers[b..], now)
      && |Seconds(run)| == (b - a) / 2
  {
    hide Sweep, FirstDropped, Refreshed, Survivors, Seconds;
    var f := FirstDropped(p, 0, inbox, now);
    var before, run, behind := p.peers[f..a], p.peers[a..b], p.peers[b..];
    PassSplit(p, inbox, now);
    assert p.peers[f..] == before + run + behind;
    ThinnedRun(before, run, behind, now);
    Associate(Refreshed(p, 0, f, inbox, now), Survivors(before, now) + Seconds(run), Survivors(behind, now));
    Associate(Refreshed(p, 0, f, inbox, now), Survivors(before, now), Seconds(run));
  }

  /** A pass leaves no silent client exactly when no two silent clients are neighbours from the first dropped one on. */
  lemma AllSilentGoneIff(p: Pass, inbox: int -> Reception, now: int)
    requires p.InStep()
    ensures (forall q :: q in Sweep(p, 0, inbox, now).peers ==> !Stale(q, now))
      <==> forall i :: FirstDropped(p, 0, inbox, now) <= i < |p.peers| - 1 ==>
             !(Stale(p.peers[i], now) && Stale(p.peers[i + 1], now))
  {
    hide Sweep, Survivors;
    var f := FirstDropped(p, 0, inbox, now);
    PassSplit(p, inbox, now);
    var read := Refreshed(p, 0, f, inbox, now);
    assert forall q :: q in read ==> !Stale(q, now);
    hide Stale, Refreshed, FirstDropped;
    ThinnedClean(p.peers[f..], now);
    NeighboursFrom(p.peers, f, now);
  }
}
