/** The hand-off protocol relies on a writer callback whose end of input is final. */
module HandoffLimits {
  import opened Basics
  import opened Heap
  import opened HandoffMachine
  import opened HandoffInvariant
  import opened HandoffTheorems

  lemma Extend(c: Config, s: State, l: Label) returns (s': State)
    requires Reached(c, s) && HandoffMachine.WF(c, s) && Enabled(c, s, l)
    ensures s' == Apply(c, s, l) && HandoffMachine.WF(c, s') && Reached(c, s')
  {
    var schedule :| Run(c, schedule) == Some(s);
    s' := Apply(c, s, l);
    assert (schedule + [l])[..|schedule|] == schedule;
    assert Run(c, schedule + [l]) == Some(s');
  }

  const BLANK: SensorData := SensorData(0, 0.0, 0)

  /** The readers have started, the writer is between two inserts, and nobody holds a mutex. */
  ghost predicate Begun(c: Config, s: State) {
    && Reached(c, s) && HandoffMachine.WF(c, s) && s.fault == Fine
    && s.started && s.writeLocked && s.writer == Idle && s.listLock == None
    && forall t :: 0 <= t < c.readers ==> s.pcs[t] == TryRead
  }

  /** The callback reports the end at once, and the readers start on an empty list. */
  lemma StartedEmpty(c: Config) returns (s: State)
    ensures Begun(c, s) && s.heap == [] && s.tail == None && s.sem == 0
  {
    var s0 := Init(c);
    assert Run(c, []) == Some(s0);
    hide Reached, Run, Read, Write;
    var s1 := Extend(c, s0, WriterReady);
    s := Extend(c, s1, Start);
  }

  /** It delivers a datum after all: one node, one post. */
  lemma PostedUnbuffered(c: Config) returns (s: State)
    requires !c.sticky
    ensures Begun(c, s) && s.heap == [Node(BLANK, 0, None, true)] && s.head == s.tail == Some(0) && s.sem == 1
  {
    var s0 := StartedEmpty(c);
    hide Reached, Run, Read;
    var s1 := Extend(c, s0, Produce(BLANK));
    var s2 := Extend(c, s1, WriterStep);
    s := Extend(c, s2, WriterStep);
  }

  lemma AttemptStep(c: Config, s: State, t: nat) returns (s': State)
    requires Reached(c, s) && HandoffMachine.WF(c, s) && s.fault == Fine && t < c.readers && Attempting(s.pcs[t])
    ensures Reached(c, s') && HandoffMachine.WF(c, s') && s' == Attempt(c, s, t)
  {
    hide Reached, Run, Write, Remove, Handle, Size, Attempt;
    s' := Extend(c, s, ReaderStep(t));
  }

  lemma RemoveStep(c: Config, s: State, t: nat) returns (s': State)
    requires Reached(c, s) && HandoffMachine.WF(c, s) && s.fault == Fine && t < c.readers && Removing(s.pcs[t])
    requires s.pcs[t].LockList? ==> s.listLock == None
    ensures Reached(c, s') && HandoffMachine.WF(c, s') && s' == Remove(c, s, t)
  {
    hide Reached, Run, Write, Remove, Handle, Size, Attempt;
    s' := Extend(c, s, ReaderStep(t));
  }

  /** A reader gets the token and the list mutex. */
  lemma TokenTaken(c: Config) returns (s: State)
    requires c.readers > 0 && !c.sticky
    ensures Reached(c, s) && HandoffMachine.WF(c, s) && s.fault == Fine && s.pcs[0] == Copy(false)
    ensures s.heap == [Node(BLANK, 0, None, true)] && s.head == s.tail == Some(0) && s.writer == Idle && s.started
  {
    var s0 := PostedUnbuffered(c);
    hide Reached, Run;
    var s1 := AttemptStep(c, s0, 0);
    var s2 := AttemptStep(c, s1, 0);
    var s3 := RemoveStep(c, s2, 0);
    s := RemoveStep(c, s3, 0);
  }

  /** It removes the only node, which `tail` points to. */
  lemma RemovedTail(c: Config) returns (s: State)
    requires c.readers > 0 && !c.sticky
    ensures Reached(c, s) && HandoffMachine.WF(c, s) && s.fault == Fine
    ensures s.heap == [Node(BLANK, 0, None, false)] && s.tail == Some(0) && s.writer == Idle && s.started
  {
    var s0 := TokenTaken(c);
    hide Reached, Run;
    var s1 := RemoveStep(c, s0, 0);
    var s2 := RemoveStep(c, s1, 0);
    var s3 := RemoveStep(c, s2, 0);
    s := RemoveStep(c, s3, 0);
  }

  /** The writer then links its next node behind the freed one. */
  lemma UnbufferedFaults(c: Config) returns (s: State)
    requires c.readers > 0 && !c.sticky
    ensures Reached(c, s) && s.fault == UseAfterFree
  {
    var s0 := RemovedTail(c);
    var s1 := Extend(c, s0, Produce(BLANK));
    s := Extend(c, s1, WriterStep);
  }

  ghost predicate MemorySafe(c: Config) {
    forall s :: Reached(c, s) ==> s.fault == Fine
  }

  /** For any number of readers, the protocol is memory safe exactly when the end of input is sticky. */
  lemma MemorySafeIffSticky(c: Config)
    requires c.readers > 0
    ensures MemorySafe(c) <==> c.sticky
  {
    if c.sticky {
      forall s | Reached(c, s) ensures s.fault == Fine {
        var ph := ReachedInv(c, s);
      }
    } else {
      var s := UnbufferedFaults(c);
    }
  }
}
