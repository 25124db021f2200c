/** What the readers of the hand-off protocol do while the writer is at work: they use up everything it has posted. */
module HandoffWork {
  import opened Basics
  import opened Heap
  import opened HandoffMachine
  import opened HandoffData
  import opened HandoffInvariant
  import opened HandoffProofs
  import opened HandoffTheorems
  import opened HandoffProgress

  /** Steps a reader still takes with the token it has, while the write lock is held. */
  function Duty(pc: PC): nat {
    match pc
    case Look(_) => 12 case LockList(_) => 11 case Copy(_) => 10 case Advance(_, _) => 9 case UnlockList(_, _, _) => 8
    case FreeNode(_, _, _) => 7 case LockCall(_, _) => 6 case Invoke(_, _, _) => 5
    case CountLoad(_) => 4 case CountStore(_, _) => 3 case UnlockCall => 2
    case Retry => 2 case TryRead => 1 case _ => 0
  }

  function Duties(s: State): (w: seq<nat>)
    ensures |w| == |s.pcs| && forall t :: 0 <= t < |w| ==> w[t] == Duty(s.pcs[t])
  {
    seq(|s.pcs|, t requires 0 <= t < |s.pcs| => Duty(s.pcs[t]))
  }

  /** Steps until all posts are used up. */
  function Work(s: State): nat { 13 * s.sem + SumOf(Duties(s)) }

  predicate Trying(pc: PC) { pc.TryRead? || pc.TryToken? || pc.Retry? }

  /** One reader's step has used up some of the work. */
  ghost predicate Relieved(s: State, s': State, t: nat)
    requires t < |s.pcs| == |s'.pcs|
  {
    && s'.pcs == s.pcs[t := s'.pcs[t]]
    && 13 * s'.sem + Duty(s'.pcs[t]) < 13 * s.sem + Duty(s.pcs[t])
    && s'.posts == s.posts && s'.started == s.started && s'.writer == s.writer
  }

  lemma WorkDown(s: State, s': State, t: nat)
    requires t < |s.pcs| == |s'.pcs| && Relieved(s, s', t)
    ensures Work(s') < Work(s)
  {
    hide Duty;
    var w, w' := Duties(s), Duties(s');
    assert w' == w[t := w'[t]];
    SumUpdate(w, t, w'[t]);
  }

  lemma TryRelieves(c: Config, s: State, t: nat)
    requires HandoffMachine.WF(c, s) && t < c.readers && Trying(s.pcs[t]) && s.writeLocked && s.sem > 0
    ensures Relieved(s, Attempt(c, s, t), t)
  {
  }

  lemma RemoveRelieves(c: Config, s: State, t: nat)
    requires HandoffMachine.WF(c, s) && t < c.readers && Removing(s.pcs[t]) && s.fault == Fine && Remove(c, s, t).fault == Fine
    ensures Relieved(s, Remove(c, s, t), t)
  {
    hide Relieved;
    if s.pcs[t].Look? || s.pcs[t].LockList? || s.pcs[t].Copy? { BeginRelieves(c, s, t); } else { EndRelieves(c, s, t); }
  }

  lemma BeginRelieves(c: Config, s: State, t: nat)
    requires HandoffMachine.WF(c, s) && t < c.readers && (s.pcs[t].Look? || s.pcs[t].LockList? || s.pcs[t].Copy?)
    requires s.fault == Fine && Remove(c, s, t).fault == Fine
    ensures Relieved(s, Remove(c, s, t), t)
  {
  }

  lemma EndRelieves(c: Config, s: State, t: nat)
    requires HandoffMachine.WF(c, s) && t < c.readers && (s.pcs[t].Advance? || s.pcs[t].UnlockList? || s.pcs[t].FreeNode?)
    requires s.fault == Fine && Remove(c, s, t).fault == Fine
    ensures Relieved(s, Remove(c, s, t), t)
  {
  }

  lemma HandleRelieves(c: Config, s: State, t: nat)
    requires HandoffMachine.WF(c, s) && t < c.readers && !Drains(s.pcs[t])
    requires s.pcs[t].LockCall? || s.pcs[t].Invoke? || s.pcs[t].CountLoad? || s.pcs[t].CountStore? || s.pcs[t].UnlockCall?
    ensures Relieved(s, Handle(c, s, t), t)
  {
  }

  /** The readers share the list, and the writer is between two inserts. */
  ghost predicate Sharers(c: Config, s: State) {
    && Inv(c, s, Sharing) && s.started && s.writer.Idle?
  }

  lemma SharersFacts(c: Config, s: State)
    requires Sharers(c, s)
    ensures HandoffMachine.WF(c, s) && s.fault == Fine && s.writeLocked
    ensures forall t :: 0 <= t < c.readers ==>
      !Drains(s.pcs[t]) && (Trying(s.pcs[t]) || Removing(s.pcs[t]) || s.pcs[t].LockCall? || s.pcs[t].Invoke?
        || s.pcs[t].CountLoad? || s.pcs[t].CountStore? || s.pcs[t].UnlockCall?)
  {
    hide DataInv, LinkInv;
  }

  lemma ReaderRelieves(c: Config, s: State, t: nat)
    requires Sharers(c, s) && Enabled(c, s, ReaderStep(t)) && (Trying(s.pcs[t]) ==> s.sem > 0)
    ensures t < |s.pcs| == |Read(c, s, t).pcs|
    ensures Relieved(s, Read(c, s, t), t) && Sharers(c, Read(c, s, t))
  {
    SharersFacts(c, s);
    ReadKeeps(c, s, Sharing, t);
    NoFaultAfter(c, s, t);
    hide Inv, Relieved, Attempt, Remove, Handle, Size;
    if Trying(s.pcs[t]) { TryRelieves(c, s, t); }
    else if Removing(s.pcs[t]) { RemoveRelieves(c, s, t); }
    else { HandleRelieves(c, s, t); }
    SharersAfter(s, Read(c, s, t), t);
  }

  lemma SharersAfter(s: State, s': State, t: nat)
    requires t < |s.pcs| == |s'.pcs| && Relieved(s, s', t)
    ensures s'.started == s.started && s'.writer == s.writer && s'.posts == s.posts
  {
  }

  lemma NoFaultAfter(c: Config, s: State, t: nat)
    requires Sharers(c, s) && Enabled(c, s, ReaderStep(t))
    ensures Read(c, s, t).fault == Fine
  {
    ReadKeeps(c, s, Sharing, t);
    hide DataInv, LinkInv, Read;
  }

  /** As long as a token is free or in use, some reader gets on with it. */
  lemma SomeoneWorks(c: Config, s: State) returns (t: nat)
    requires Sharers(c, s) && (s.sem > 0 || exists u :: 0 <= u < c.readers && !Trying(s.pcs[u]))
    ensures Enabled(c, s, ReaderStep(t)) && (Trying(s.pcs[t]) ==> s.sem > 0)
  {
    SharersFacts(c, s);
    t := 0;
    if u: nat :| u < c.readers && !Trying(s.pcs[u]) {
      t := u;
      if s.pcs[u].LockList? && s.listLock.Some? { t := Holder(c, s, s.listLock); }
      if s.pcs[u].LockCall? && s.callLock.Some? { t := Holder(c, s, s.callLock); }
    }
    hide Inv;
  }

  lemma Holder(c: Config, s: State, lock: Option<nat>) returns (t: nat)
    requires Sharers(c, s) && lock.Some? && (lock == s.listLock || lock == s.callLock)
    ensures t < c.readers && Enabled(c, s, ReaderStep(t)) && !Trying(s.pcs[t])
  {
    t := lock.value;
    hide LinkInv, CarryInv, LogInv, LiveInv, CountInv, CopyInv, PhaseInv, WriterInv;
  }

  /** With no token free or in use, everything posted has been handled. */
  lemma AllPostedHandled(c: Config, s: State)
    requires Sharers(c, s) && s.sem == 0 && forall t :: 0 <= t < c.readers ==> Trying(s.pcs[t])
    ensures |s.log| == s.posts
  {
    TallyNone(s.pcs, InFlight);
    forall k: nat | k < s.removed ensures Logged(s.log, k) {
      assert Logged(s.log, k) || CarriedBySome(s.pcs, k);
    }
    hide WriterInv, LinkInv, CountInv, LockInv;
    AsManyAsNodes(s.log, s.removed);
  }

  lemma {:induction false} PostsUsedUp(c: Config, schedule: seq<Label>) returns (more: seq<Label>)
    requires Run(c, schedule).Some? && Sharers(c, Run(c, schedule).value)
    ensures Run(c, schedule + more).Some? && Produced(more) == []
    ensures
      var s, s' := Run(c, schedule).value, Run(c, schedule + more).value;
      Sharers(c, s') && s'.posts == s.posts == |s'.log|
    decreases Work(Run(c, schedule).value)
  {
    hide Work, Sharers, Enabled, Read, Run, Relieved;
    var s := Run(c, schedule).value;
    if s.sem == 0 && forall t :: 0 <= t < c.readers ==> Trying(s.pcs[t]) {
      more := [];
      AllPostedHandled(c, s);
      assert schedule + [] == schedule;
    } else {
      var t := SomeoneWorks(c, s);
      ReaderRelieves(c, s, t);
      WorkDown(s, Read(c, s, t), t);
      SharersAfter(s, Read(c, s, t), t);
      RunOneMore(c, schedule, ReaderStep(t));
      var rest := PostsUsedUp(c, schedule + [ReaderStep(t)]);
      more := [ReaderStep(t)] + rest;
      NothingProduced(ReaderStep(t), rest);
      assert schedule + more == schedule + [ReaderStep(t)] + rest;
    }
  }

  /**
   The readers need not wait for the end of the input: whenever the writer is between two inserts, they can handle all
   data but the last `readers + 1` before it delivers another one.
   */
  lemma KeepsUp(c: Config, schedule: seq<Label>) returns (more: seq<Label>)
    requires c.readers > 0 && c.sticky && Run(c, schedule).Some?
    requires Run(c, schedule).value.started && Run(c, schedule).value.writer.Idle?
    ensures Run(c, schedule + more).Some? && Produced(schedule + more) == Produced(schedule)
    ensures
      var n := |Produced(schedule)|;
      |Run(c, schedule + more).value.log| == if n <= c.readers + 1 then 0 else n - (c.readers + 1)
  {
    var ph := RunKeeps(c, schedule);
    var s := Run(c, schedule).value;
    assert ph == Sharing;
    more := PostsUsedUp(c, schedule);
    ProducedConcat(schedule, more);
    RunData(c, schedule);
    PostsNow(c, s);
    hide Run, Sharers;
  }

  lemma PostsNow(c: Config, s: State)
    requires Sharers(c, s)
    ensures s.posts == if |s.heap| <= c.readers + 1 then 0 else |s.heap| - (c.readers + 1)
  {
    hide DataInv, LinkInv;
  }
}
