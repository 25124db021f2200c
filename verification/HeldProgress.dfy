/** The round that keeps its locks can always be completed: the readers can be scheduled so that all of them leave it. */
module HeldProgress {
  import opened Basics
  import opened Heap
  import opened NodeRound
  import opened BatchMachine
  import opened BatchInvariant
  import opened BatchProofs
  import opened BatchProgress
  import opened HeldRound

  /** Steps left for a reader, if no callback lock it tries is busy. */
  function HeldWeight(c: Config, pc: HeldPC, st: Stage): nat
    requires WFStage(st, c.callbacks)
  {
    match pc
    case Before => SweepBound(c.callbacks) + 2 * c.readers + 5
    case Inside => StageWeight(c.readers, c.callbacks, st) + 3
    case AtBarrier => 2
    case Opened => 1
    case Gone => 0
  }

  function HeldWeights(c: Config, s: Held): (w: seq<nat>)
    requires WFHeld(c, s)
    ensures |w| == c.readers && forall t :: 0 <= t < c.readers ==> w[t] == HeldWeight(c, s.pcs[t], s.round.stages[t])
  {
    seq(c.readers, t requires 0 <= t < c.readers => HeldWeight(c, s.pcs[t], s.round.stages[t]))
  }

  ghost predicate AllGone(s: Held) {
    forall t :: 0 <= t < |s.pcs| ==> s.pcs[t].Gone?
  }

  /** Reader `t` holds the lock of a callback. */
  predicate HeldCalling(s: Held, t: nat) {
    t < |s.round.stages| && s.round.stages[t].Executing? && s.round.stages[t].spot != Sweep
  }

  /** A move of one reader in which its own weight falls. */
  lemma MoveCloser(c: Config, s: Held, t: nat)
    requires WFHeld(c, s) && CanMove(c, s, Reader(t))
    requires
      var s' := MoveReader(c, s, t);
      && s'.pcs == s.pcs[t := s'.pcs[t]] && s'.round.stages == s.round.stages[t := s'.round.stages[t]]
      && HeldWeight(c, s'.pcs[t], s'.round.stages[t]) < HeldWeight(c, s.pcs[t], s.round.stages[t])
    ensures SumOf(HeldWeights(c, MoveReader(c, s, t))) < SumOf(HeldWeights(c, s))
  {
    var s' := MoveReader(c, s, t);
    hide MoveReader, HeldWeight, NodeRound.WF;
    var w, w' := HeldWeights(c, s), HeldWeights(c, s');
    assert w' == w[t := w'[t]];
    SumUpdate(w, t, w'[t]);
  }

  lemma BesideMoves(c: Config, s: Held, t: nat)
    requires PlayInv(c, s) && CanMove(c, s, Reader(t))
    requires !s.pcs[t].Inside? || s.round.stages[t].Executed?
    ensures SumOf(HeldWeights(c, MoveReader(c, s, t))) < SumOf(HeldWeights(c, s))
  {
    if s.pcs[t].Opened? {
      UnlockKeeps(s.heap, s.round, 0, c.readers, c.callbacks, t);
      assert Unlock(s.heap, c.readers, c.callbacks, s.round, t).fault == Fine;
    }
    hide PlayInv, Unlock;
    MoveCloser(c, s, t);
  }

  lemma InsideMoves(c: Config, s: Held, t: nat)
    requires PlayInv(c, s) && CanMove(c, s, Reader(t)) && s.pcs[t].Inside? && !s.round.stages[t].Executed?
    requires HeldCalling(s, t) || forall u: nat :: !HeldCalling(s, u)
    ensures SumOf(HeldWeights(c, MoveReader(c, s, t))) < SumOf(HeldWeights(c, s))
  {
    if !HeldCalling(s, t) {
      forall u: nat | u < c.readers && s.round.stages[u].Executing? ensures s.round.stages[u].spot == Sweep {
        assert !HeldCalling(s, u);
      }
    }
    RoundCloser(s.heap, s.round, 0, c.readers, c.callbacks, 0, t);
    hide PlayInv, Act, StageWeight;
    MoveCloser(c, s, t);
  }

  lemma OpenMoves(c: Config, s: Held)
    requires WFHeld(c, s) && CanMove(c, s, OpenAll) && c.readers > 0
    ensures SumOf(HeldWeights(c, Do(c, s, OpenAll))) < SumOf(HeldWeights(c, s))
  {
    hide NodeRound.WF;
    SumConstant(HeldWeights(c, s), 2);
    SumConstant(HeldWeights(c, Do(c, s, OpenAll)), 1);
  }

  lemma {:induction false} SumConstant(w: seq<nat>, n: nat)
    requires forall i :: 0 <= i < |w| ==> w[i] == n
    ensures n == 1 ==> SumOf(w) == |w|
    ensures n == 2 ==> SumOf(w) == 2 * |w|
  {
    if w != [] { SumConstant(w[..|w| - 1], n); }
  }

  /** A move that brings the round closer to its end. */
  lemma CloserMove(c: Config, s: Held) returns (m: Move)
    requires PlayInv(c, s) && c.readers > 0 && !AllGone(s)
    ensures WFHeld(c, s) && CanMove(c, s, m) && !m.Append?
    ensures SumOf(HeldWeights(c, Do(c, s, m))) < SumOf(HeldWeights(c, s))
  {
    if u: nat :| u < c.readers && HeldCalling(s, u) {
      m := Reader(u);
      InsideMoves(c, s, u);
    } else if u: nat :| u < c.readers && !s.pcs[u].AtBarrier? && !s.pcs[u].Gone? {
      m := Reader(u);
      assert CanMove(c, s, m);
      if s.pcs[u].Inside? && !s.round.stages[u].Executed? { InsideMoves(c, s, u); } else { BesideMoves(c, s, u); }
    } else {
      m := OpenAll;
      assert CanMove(c, s, m);
      hide PlayInv;
      OpenMoves(c, s);
    }
  }

  function StepsLeft(c: Config, heap: seq<Node>, moves: seq<Move>): nat {
    match Play(c, heap, moves)
    case None => 0
    case Some(s) => SumOf(HeldWeights(c, s))
  }

  ghost predicate EndsBy(c: Config, heap: seq<Node>, moves: seq<Move>) {
    Play(c, heap, moves).Some? && AllGone(Play(c, heap, moves).value)
  }

  lemma OneMore(c: Config, heap: seq<Node>, moves: seq<Move>) returns (m: Move)
    requires Batch(heap, 0, c.readers) && c.readers > 0 && Play(c, heap, moves).Some? && !EndsBy(c, heap, moves)
    ensures Play(c, heap, moves + [m]).Some? && StepsLeft(c, heap, moves + [m]) < StepsLeft(c, heap, moves) && !m.Append?
  {
    PlayKeeps(c, heap, moves);
    hide PlayInv, CanMove, Do, AllGone, SumOf, HeldWeights;
    m := CloserMove(c, Play(c, heap, moves).value);
    assert (moves + [m])[..|moves|] == moves;
  }

  /** From every state of a round the readers can all leave it, whatever the writer has appended. */
  lemma {:induction false} HeldRoundCompletes(c: Config, heap: seq<Node>, moves: seq<Move>) returns (more: seq<Move>)
    requires Batch(heap, 0, c.readers) && c.readers > 0 && Play(c, heap, moves).Some?
    ensures EndsBy(c, heap, moves + more)
    decreases StepsLeft(c, heap, moves)
  {
    hide Play, EndsBy, StepsLeft;
    if EndsBy(c, heap, moves) {
      more := [];
      assert moves + [] == moves;
    } else {
      var m := OneMore(c, heap, moves);
      var rest := HeldRoundCompletes(c, heap, moves + [m]);
      more := [m] + rest;
      assert moves + more == moves + [m] + rest;
    }
  }
}
