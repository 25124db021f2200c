/**
 When a round of the batch protocol covers its batch.  A reader gives its node lock back before the barrier, so a later
 reader of the same round can take it again; whether that happens is read off the schedule.
 */
module BatchCoverage {
  import opened Basics
  import opened Heap
  import opened NodeRound
  import opened BatchMachine
  import opened BatchInvariant
  import opened BatchProofs
  import opened BatchLog
  import opened BatchTheorems

  /** The next step of reader `t` is a trylock that succeeds, on the lock of `node`. */
  predicate Grabs(c: Config, s: State, t: nat, node: nat) {
    && BatchMachine.WF(c, s)
    && t < c.readers && s.pcs[t].InRound? && s.round.stages[t].Scanning?
    && s.round.stages[t].idx < c.readers && s.round.stages[t].cur == Some(node)
    && node < |s.heap| && s.heap[node].tag < c.readers && s.round.nodeLock[s.heap[node].tag] == None
  }

  /** The step that begins a round. */
  predicate Begins(s: State, l: Label) {
    l.Open? && forall t :: 0 <= t < |s.pcs| ==> s.pcs[t].AtBar1?
  }

  /** The locks given back in a round: of these nodes, after the step `l` taken in `s`. */
  function NowGivenBack(s: State, l: Label, before: set<nat>): set<nat> {
    if Begins(s, l) then {}
    else if l.ReaderStep? && l.t < |s.pcs| && l.t < |s.round.stages| && s.pcs[l.t].InRound? && s.round.stages[l.t].Executed? then
      before + {s.round.stages[l.t].node}
    else before
  }

  /** The nodes whose locks have been given back since the last round began. */
  function GivenBack(c: Config, schedule: seq<Label>): set<nat> {
    if schedule == [] then {}
    else
      var before, l := schedule[..|schedule| - 1], schedule[|schedule| - 1];
      match Run(c, before)
      case None => {}
      case Some(s) => NowGivenBack(s, l, GivenBack(c, before))
  }

  /** A trylock that takes a lock given back earlier in the round. */
  ghost predicate Retakes(c: Config, s: State, l: Label, givenBack: set<nat>) {
    l.ReaderStep? && exists node :: node in givenBack && Grabs(c, s, l.t, node)
  }

  /** Some trylock since the last round began took a lock given back in that round. */
  ghost predicate Retaken(c: Config, schedule: seq<Label>) {
    schedule != [] &&
    var before, l := schedule[..|schedule| - 1], schedule[|schedule| - 1];
    match Run(c, before)
    case None => false
    case Some(s) => !Begins(s, l) && (Retaken(c, before) || Retakes(c, s, l, GivenBack(c, before)))
  }

  // ---------------------------------------------------------------- the invariant of the history

  /** Reader `u` is done with `node` in the current round. */
  predicate DoneWith(s: State, u: nat, node: nat) {
    u < |s.pcs| && u < |s.round.chosen| && (s.pcs[u].ToBar2? || s.pcs[u].AtBar2?) && s.round.chosen[u] == Some(node)
  }

  ghost predicate DoneBySome(s: State, node: nat) {
    exists u: nat :: DoneWith(s, u, node)
  }

  /** No two readers have taken the same node in the current round. */
  ghost predicate TakenApart(chosen: seq<Option<nat>>, base: nat) {
    forall t, u :: 0 <= t < |chosen| && 0 <= u < |chosen| && t != u && chosen[t].Some? && chosen[t].value >= base ==> chosen[t] != chosen[u]
  }

  ghost predicate History(c: Config, s: State, ph: Phase, givenBack: set<nat>, retaken: bool) {
    && (ph.Processing? ==> forall node: nat :: node in givenBack <==> DoneBySome(s, node))
    && (ph.Processing? || ph.Clearing? ==> (retaken <==> !TakenApart(s.round.chosen, Base(c, s))))
  }

  /**
   The guard of the branch: a successful trylock takes a node that some reader has already taken in this round exactly
   when a reader is done with that node, that is, has given its lock back.
   */
  lemma GrabGuard(c: Config, s: State, ph: Phase, t: nat, node: nat)
    requires Inv(c, s, ph) && Grabs(c, s, t, node)
    ensures ph.Processing? && s.round.chosen[t] == None && Base(c, s) <= node < Base(c, s) + c.readers
    ensures s.heap[node].tag == node - Base(c, s) && s.heap[node].live
    ensures Some(node) in s.round.chosen <==> DoneBySome(s, node)
  {
    PhaseOf(c, s, ph, t);
    hide ListInv;
    assert StageInv(s.heap, s.round, Base(c, s), c.readers, c.callbacks, t);
    if Some(node) in s.round.chosen {
      var u: nat :| u < c.readers && s.round.chosen[u] == Some(node);
      assert ReaderInv(c, s, u) && StageInv(s.heap, s.round, Base(c, s), c.readers, c.callbacks, u);
      assert DoneWith(s, u, node);
    }
  }

  // ---------------------------------------------------------------- every step

  lemma HistoryFrame(c: Config, s: State, s': State, ph: Phase, givenBack: set<nat>, retaken: bool)
    requires BatchMachine.WF(c, s) && BatchMachine.WF(c, s') && History(c, s, ph, givenBack, retaken)
    requires s'.batches == s.batches
    requires TakenApart(s'.round.chosen, Base(c, s)) <==> TakenApart(s.round.chosen, Base(c, s))
    requires ph.Processing? ==> forall u: nat, node: nat :: DoneWith(s', u, node) <==> DoneWith(s, u, node)
    ensures History(c, s', ph, givenBack, retaken)
  {
    hide TakenApart;
    if ph.Processing? {
      forall node: nat ensures DoneBySome(s', node) <==> DoneBySome(s, node) {
        if DoneBySome(s', node) {
          var u: nat :| DoneWith(s', u, node);
          assert DoneWith(s, u, node);
        }
        if DoneBySome(s, node) {
          var u: nat :| DoneWith(s, u, node);
          assert DoneWith(s', u, node);
        }
      }
    }
  }

  lemma TakenApartUpdate(chosen: seq<Option<nat>>, t: nat, x: Option<nat>, base: nat)
    requires t < |chosen| && (chosen[t].Some? ==> chosen[t].value < base)
    ensures x == None ==> (TakenApart(chosen[t := x], base) <==> TakenApart(chosen, base))
    ensures x.Some? && x.value >= base ==> (TakenApart(chosen[t := x], base) <==> TakenApart(chosen, base) && x !in chosen)
  {
    var chosen' := chosen[t := x];
    if TakenApart(chosen', base) {
      forall i, j | 0 <= i < |chosen| && 0 <= j < |chosen| && i != j && chosen[i].Some? && chosen[i].value >= base
        ensures chosen[i] != chosen[j]
      {
        assert chosen'[i] == chosen[i];
        if j != t { assert chosen'[i] != chosen'[j]; }
      }
      if x.Some? && x.value >= base {
        forall u | 0 <= u < |chosen| ensures chosen[u] != x {
          if u != t { assert chosen'[t] != chosen'[u]; }
        }
      }
    }
    if TakenApart(chosen, base) && (x == None || x !in chosen) {
      forall i, j | 0 <= i < |chosen| && 0 <= j < |chosen| && i != j && chosen'[i].Some? && chosen'[i].value >= base
        ensures chosen'[i] != chosen'[j]
      {
        if i != t && j != t { assert chosen[i] != chosen[j]; }
        assert chosen[i] in chosen && chosen[j] in chosen;
      }
    }
  }

  /** The trylock itself. */
  lemma GrabHistory(c: Config, s: State, t: nat, node: nat, givenBack: set<nat>, retaken: bool)
    requires Inv(c, s, Processing) && Enabled(c, s, ReaderStep(t)) && Grabs(c, s, t, node)
    requires History(c, s, Processing, givenBack, retaken)
    ensures History(c, Read(c, s, t), Processing, givenBack, retaken || Retakes(c, s, ReaderStep(t), givenBack))
  {
    GrabGuard(c, s, Processing, t, node);
    var s' := Read(c, s, t);
    assert s'.round.chosen == s.round.chosen[t := Some(node)] && s'.pcs == s.pcs && s'.batches == s.batches;
    TakenApartUpdate(s.round.chosen, t, Some(node), Base(c, s));
    assert Retakes(c, s, ReaderStep(t), givenBack) <==> node in givenBack;
    hide Inv, Read, TakenApart;
    SameDone(c, s, s', t);
  }

  /** Taking a lock makes nobody done. */
  lemma SameDone(c: Config, s: State, s': State, t: nat)
    requires BatchMachine.WF(c, s) && BatchMachine.WF(c, s') && t < c.readers && s.pcs[t].InRound?
    requires s'.pcs == s.pcs && forall u :: 0 <= u < c.readers && u != t ==> s'.round.chosen[u] == s.round.chosen[u]
    ensures forall node: nat :: DoneBySome(s', node) <==> DoneBySome(s, node)
  {
    forall node: nat ensures DoneBySome(s', node) <==> DoneBySome(s, node) {
      if DoneBySome(s', node) {
        var u: nat :| DoneWith(s', u, node);
        assert DoneWith(s, u, node);
      }
      if DoneBySome(s, node) {
        var u: nat :| DoneWith(s, u, node);
        assert DoneWith(s', u, node);
      }
    }
  }

  /** Giving the lock back. */
  lemma GiveBackHistory(c: Config, s: State, t: nat, givenBack: set<nat>, retaken: bool)
    requires Inv(c, s, Processing) && Enabled(c, s, ReaderStep(t)) && s.pcs[t].InRound? && s.round.stages[t].Executed?
    requires History(c, s, Processing, givenBack, retaken)
    ensures History(c, Read(c, s, t), Processing, givenBack + {s.round.stages[t].node}, retaken)
  {
    var s', node := Read(c, s, t), s.round.stages[t].node;
    assert StageInv(s.heap, s.round, Base(c, s), c.readers, c.callbacks, t);
    assert s'.round.chosen == s.round.chosen && s'.pcs == s.pcs[t := ToBar2] && s'.batches == s.batches;
    assert s.round.chosen[t] == Some(node);
    hide Inv, Read, TakenApart;
    forall n: nat ensures n in givenBack + {node} <==> DoneBySome(s', n) {
      if DoneBySome(s', n) {
        var u: nat :| DoneWith(s', u, n);
        if u != t { assert DoneWith(s, u, n); }
      }
      if n == node { assert DoneWith(s', t, n); }
      if n in givenBack {
        var u: nat :| DoneWith(s, u, n);
        assert DoneWith(s', u, n);
      }
    }
  }

  /** A reader's step inside the round that takes no lock and gives none back. */
  lemma InsideHistory(c: Config, s: State, t: nat, givenBack: set<nat>, retaken: bool)
    requires Inv(c, s, Processing) && Enabled(c, s, ReaderStep(t)) && s.pcs[t].InRound? && !s.round.stages[t].Executed?
    requires forall node :: !Grabs(c, s, t, node)
    requires History(c, s, Processing, givenBack, retaken)
    ensures History(c, Read(c, s, t), Processing, givenBack, retaken)
  {
    var s' := Read(c, s, t);
    assert ReaderInv(c, s, t) && StageInv(s.heap, s.round, Base(c, s), c.readers, c.callbacks, t);
    assert s'.round.chosen == s.round.chosen && s'.pcs == s.pcs && s'.batches == s.batches by {
      if s.round.stages[t].Scanning? {
        assert !Grabs(c, s, t, s.round.stages[t].cur.value);
      }
    }
    hide Inv, Read, TakenApart;
    HistoryFrame(c, s, s', Processing, givenBack, retaken);
  }

  /** A reader's step outside the round. */
  lemma OutsideHistory(c: Config, s: State, ph: Phase, t: nat, givenBack: set<nat>, retaken: bool)
    requires Inv(c, s, ph) && Enabled(c, s, ReaderStep(t)) && !s.pcs[t].InRound?
    requires History(c, s, ph, givenBack, retaken)
    ensures History(c, Read(c, s, t), Next(s, ReaderStep(t), ph), givenBack, retaken)
  {
    OutsidePoint(c, s, ph, t);
    hide Inv, History, TakenApart;
    if ph.Processing? {
      BesideHistory(c, s, t, givenBack, retaken);
    } else {
      ElsewhereHistory(c, s, ph, t, givenBack, retaken);
    }
  }

  lemma OutsidePoint(c: Config, s: State, ph: Phase, t: nat)
    requires Inv(c, s, ph) && Enabled(c, s, ReaderStep(t)) && !s.pcs[t].InRound?
    ensures BatchMachine.WF(c, s)
    ensures ph.Processing? <==> MidRound(s.pcs[t])
    ensures s.pcs[t].ToRound? && s.round.chosen[t].Some? ==> s.round.chosen[t].value < Base(c, s)
  {
    hide ListInv, RoundInv;
    PhaseOf(c, s, ph, t);
    if ph.Processing? { assert ReaderInv(c, s, t); }
  }

  lemma BesideHistory(c: Config, s: State, t: nat, givenBack: set<nat>, retaken: bool)
    requires BatchMachine.WF(c, s) && Enabled(c, s, ReaderStep(t)) && History(c, s, Processing, givenBack, retaken)
    requires s.pcs[t].PostBack? || s.pcs[t].ToRound? || s.pcs[t].ToBar2?
    requires s.pcs[t].ToRound? && s.round.chosen[t].Some? ==> s.round.chosen[t].value < Base(c, s)
    ensures History(c, Read(c, s, t), Processing, givenBack, retaken)
  {
    hide History;
    if s.pcs[t].ToRound? { TakenApartUpdate(s.round.chosen, t, None, Base(c, s)); }
    hide TakenApart;
    HistoryFrame(c, s, Read(c, s, t), Processing, givenBack, retaken);
  }

  lemma ElsewhereHistory(c: Config, s: State, ph: Phase, t: nat, givenBack: set<nat>, retaken: bool)
    requires BatchMachine.WF(c, s) && Enabled(c, s, ReaderStep(t)) && History(c, s, ph, givenBack, retaken)
    requires !ph.Processing? && !MidRound(s.pcs[t])
    ensures History(c, Read(c, s, t), Next(s, ReaderStep(t), ph), givenBack, retaken)
  {
    hide TakenApart, NodeRound.WF;
  }

  lemma OpenHistory(c: Config, s: State, ph: Phase, serial: nat, givenBack: set<nat>, retaken: bool)
    requires Inv(c, s, ph) && Enabled(c, s, Open(serial)) && History(c, s, ph, givenBack, retaken)
    ensures
      var l := Open(serial);
      History(c, Apply(c, s, l), Next(s, l, ph), NowGivenBack(s, l, givenBack), !Begins(s, l) && retaken)
  {
    SameWaitPoint(c, s, ph);
    assert s.pcs[0] == s.pcs[0];
    hide ListInv;
  }

  lemma StepHistory(c: Config, s: State, ph: Phase, l: Label, givenBack: set<nat>, retaken: bool)
    requires Inv(c, s, ph) && Enabled(c, s, l) && History(c, s, ph, givenBack, retaken)
    ensures History(c, Apply(c, s, l), Next(s, l, ph), NowGivenBack(s, l, givenBack),
                    !Begins(s, l) && (retaken || Retakes(c, s, l, givenBack)))
  {
    hide ListInv, PhaseInv, Read, History, Grabs;
    match l {
      case Open(serial) => OpenHistory(c, s, ph, serial, givenBack, retaken);
      case ReaderStep(t) =>
        PhaseOf(c, s, ph, t);
        if !s.pcs[t].InRound? {
          NoGrabOutside(c, s, t);
          OutsideHistory(c, s, ph, t, givenBack, retaken);
        } else if s.round.stages[t].Executed? {
          NoGrabOutside(c, s, t);
          GiveBackHistory(c, s, t, givenBack, retaken);
        } else if node :| Grabs(c, s, t, node) {
          GrabHistory(c, s, t, node, givenBack, retaken);
        } else {
          InsideHistory(c, s, t, givenBack, retaken);
        }
      case _ => WriterHistory(c, s, ph, l, givenBack, retaken);
    }
  }

  lemma NoGrabOutside(c: Config, s: State, t: nat)
    requires BatchMachine.WF(c, s) && t < c.readers && (!s.pcs[t].InRound? || s.round.stages[t].Executed?)
    ensures forall node :: !Grabs(c, s, t, node)
  {
  }

  lemma WriterHistory(c: Config, s: State, ph: Phase, l: Label, givenBack: set<nat>, retaken: bool)
    requires Inv(c, s, ph) && Enabled(c, s, l) && !l.ReaderStep? && !l.Open? && History(c, s, ph, givenBack, retaken)
    ensures History(c, Apply(c, s, l), ph, givenBack, retaken)
  {
    if l == Start {
      PhaseOf(c, s, ph, 0);
    } else {
      hide Inv, History;
      IdleHistory(c, s, ph, l, givenBack, retaken);
    }
  }

  lemma IdleHistory(c: Config, s: State, ph: Phase, l: Label, givenBack: set<nat>, retaken: bool)
    requires BatchMachine.WF(c, s) && Enabled(c, s, l) && !l.ReaderStep? && !l.Open? && l != Start
    requires History(c, s, ph, givenBack, retaken)
    ensures History(c, Apply(c, s, l), ph, givenBack, retaken)
  {
    hide History, TakenApart, NodeRound.WF;
    HistoryFrame(c, s, Apply(c, s, l), ph, givenBack, retaken);
  }

  lemma {:induction false} RunHistory(c: Config, schedule: seq<Label>) returns (ph: Phase)
    requires c.readers >= 2 && Run(c, schedule).Some?
    ensures
      var s := Run(c, schedule).value;
      Inv(c, s, ph) && LogInv(c, s, ph) && History(c, s, ph, GivenBack(c, schedule), Retaken(c, schedule))
  {
    if schedule == [] {
      InitInv(c);
      InitLog(c);
      ph := Gathering;
    } else {
      var before, l := schedule[..|schedule| - 1], schedule[|schedule| - 1];
      var ph0 := RunHistory(c, before);
      var s := Run(c, before).value;
      hide Inv, LogInv, History, Begins, Retakes, NowGivenBack;
      ApplyKeeps(c, s, ph0, l);
      ApplyKeepsLog(c, s, ph0, l);
      StepHistory(c, s, ph0, l, GivenBack(c, before), Retaken(c, before));
      ph := Next(s, l, ph0);
    }
  }

  // ---------------------------------------------------------------- the results

  /** Some callback has been called for this node. */
  ghost predicate Processed(log: seq<Invocation>, node: nat) {
    exists i :: 0 <= i < |log| && log[i].node == node
  }

  /**
   In any run, a successful trylock takes a node that another reader has taken in the same round if and only if its
   lock was given back earlier in the round.
   */
  lemma TakenTwiceIff(c: Config, schedule: seq<Label>, t: nat, node: nat)
    requires c.readers >= 2 && Run(c, schedule).Some? && Grabs(c, Run(c, schedule).value, t, node)
    ensures
      var s := Run(c, schedule).value;
      && s.batches * c.readers <= node < s.batches * c.readers + c.readers
      && (Some(node) in s.round.chosen <==> node in GivenBack(c, schedule))
  {
    var ph := RunHistory(c, schedule);
    var s := Run(c, schedule).value;
    GrabGuard(c, s, ph, t, node);
    FirstNodeIsProduct(s.batches, c.readers);
  }

  /**
   A batch about to be freed was processed on all its nodes if and only if no trylock of its round took a lock given
   back in that round.
   */
  lemma BatchCoveredIff(c: Config, schedule: seq<Label>, t: nat)
    requires c.readers >= 2 && c.callbacks >= 1 && Run(c, schedule).Some?
    requires t < c.readers && Reclaiming(Run(c, schedule).value.pcs[t])
    ensures
      var s := Run(c, schedule).value;
      var base := s.batches * c.readers;
      (forall node: nat :: base <= node < base + c.readers ==> Processed(s.round.log, node)) <==> !Retaken(c, schedule)
  {
    var ph := RunHistory(c, schedule);
    var s := Run(c, schedule).value;
    PhaseOf(c, s, ph, t);
    FirstNodeIsProduct(s.batches, c.readers);
    var m := RoundOutcome(s.round.chosen, Base(c, s), c.readers);
    assert Distinct(s.round.chosen) <==> TakenApart(s.round.chosen, Base(c, s));
    forall node: nat | Base(c, s) <= node < Base(c, s) + c.readers
      ensures Processed(s.round.log, node) <==> Some(node) in s.round.chosen
    {
      ProcessedMeansChosen(c, s, t, node);
    }
    if m < c.readers { assert Some(Base(c, s) + m) !in s.round.chosen; }
  }

  /** A node of the batch has been processed exactly when a reader has taken it in this round. */
  lemma ProcessedMeansChosen(c: Config, s: State, t: nat, node: nat)
    requires Inv(c, s, Clearing(t)) && LogInv(c, s, Clearing(t)) && c.callbacks >= 1
    requires Base(c, s) <= node < Base(c, s) + c.readers
    ensures Processed(s.round.log, node) <==> Some(node) in s.round.chosen
  {
    var log := s.round.log;
    hide ListInv;
    if Processed(log, node) {
      var i :| 0 <= i < |log| && log[i].node == node;
      FirstNodeOf(log[i].round, s.batches, c.readers, node);
      assert s.round.chosen[log[i].reader] == Some(node);
    }
    if Some(node) in s.round.chosen {
      var u: nat :| u < c.readers && s.round.chosen[u] == Some(node);
      assert Done(c, s, Clearing(t), u, 0);
      assert Made(log, s.batches, u, 0);
      var i :| 0 <= i < |log| && log[i].round == s.batches && log[i].reader == u && log[i].cb == 0;
      assert log[i].node == node;
    }
  }

  /** A node belongs to one batch only. */
  lemma FirstNodeOf(a: nat, b: nat, readers: nat, node: nat)
    requires a <= b && node < FirstNode(a, readers) + readers && FirstNode(b, readers) <= node
    ensures a == b
  {
    if a < b { FirstNodeMono(a + 1, b, readers); }
  }
}
