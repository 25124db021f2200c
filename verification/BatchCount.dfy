/** Whole rounds of the batch protocol: how often each callback has run, and on what. */
module BatchCount {
  import opened Basics
  import opened Heap
  import opened NodeRound
  import opened BatchMachine
  import opened BatchData
  import opened BatchInvariant
  import opened BatchLog
  import opened BatchTheorems

  /** In `round`, reader `t` worked on `node` of the round's batch: it ran each callback exactly once, with its datum. */
  ghost predicate WorkedOn(c: Config, log: seq<Invocation>, data: seq<SensorData>, round: nat, t: nat, node: nat) {
    && round * c.readers <= node < round * c.readers + c.readers
    && forall cb: nat :: cb < c.callbacks ==> RanOnce(log, data, round, t, cb, node)
  }

  ghost predicate FinishedRound(c: Config, log: seq<Invocation>, data: seq<SensorData>, round: nat, t: nat) {
    exists node: nat :: WorkedOn(c, log, data, round, t, node)
  }

  /**
   Between rounds, every reader has run every callback exactly once per finished round, on one node of that round's
   batch and with the datum that the writer's callback delivered for it; `batches * readers * callbacks` calls in all.
   */
  lemma WholeRounds(c: Config, schedule: seq<Label>)
    requires c.readers >= 2 && Run(c, schedule).Some? && Run(c, schedule).value.commits == Run(c, schedule).value.batches
    ensures
      var s := Run(c, schedule).value;
      && |s.round.log| == s.batches * c.readers * c.callbacks
      && forall round: nat, t: nat :: round < s.batches && t < c.readers ==>
           FinishedRound(c, s.round.log, Produced(schedule), round, t)
  {
    var s := Run(c, schedule).value;
    var ph := RunKeeps(c, schedule);
    RunData(c, schedule);
    NothingCurrent(c, s, ph);
    hide Inv, Run, Produced;
    forall round: nat, t: nat | round < s.batches && t < c.readers
      ensures FinishedRound(c, s.round.log, Data(s.heap), round, t)
    {
      ReaderFinished(c, s, round, t);
    }
    LogLength(c, s.round.log, s.heap, s.batches);
    Product3(s.batches, c.readers, c.callbacks);
  }

  lemma Product3(a: nat, b: nat, n: nat)
    ensures FirstNode(FirstNode(a, b), n) == a * b * n
  {
    FirstNodeIsProduct(a, b);
    FirstNodeIsProduct(FirstNode(a, b), n);
  }

  lemma ReaderFinished(c: Config, s: State, round: nat, t: nat)
    requires EntriesInv(c, s.round.log, s.heap, s.batches) && OnceInv(s.round.log) && PastInv(c, s.round.log, s.batches)
    requires round < s.batches && t < c.readers
    ensures FinishedRound(c, s.round.log, Data(s.heap), round, t)
  {
    var log, data := s.round.log, Data(s.heap);
    var node := FirstNode(round, c.readers);
    FirstNodeIsProduct(round, c.readers);
    if c.callbacks > 0 {
      var k := EntryOf(c, log, s.batches, round, t, 0);
      node := log[k].node;
      hide PastInv, OnceInv;
      forall cb: nat | cb < c.callbacks ensures RanOnce(log, data, round, t, cb, node) {
        hide EntriesInv;
        OneEntry(c, s, round, t, cb, k);
      }
    }
    assert WorkedOn(c, log, data, round, t, node);
  }

  lemma EntryOf(c: Config, log: seq<Invocation>, batches: nat, round: nat, t: nat, cb: nat) returns (i: nat)
    requires PastInv(c, log, batches) && round < batches && t < c.readers && cb < c.callbacks
    ensures i < |log| && log[i].round == round && log[i].reader == t && log[i].cb == cb
  {
    assert Made(log, round, t, cb);
    i :| i < |log| && log[i].round == round && log[i].reader == t && log[i].cb == cb;
  }

  /** The entry of one callback, given another entry `k` of the same reader and round. */
  lemma OneEntry(c: Config, s: State, round: nat, t: nat, cb: nat, k: nat)
    requires EntriesInv(c, s.round.log, s.heap, s.batches) && OnceInv(s.round.log) && PastInv(c, s.round.log, s.batches)
    requires round < s.batches && t < c.readers && cb < c.callbacks
    requires k < |s.round.log| && s.round.log[k].round == round && s.round.log[k].reader == t
    ensures RanOnce(s.round.log, Data(s.heap), round, t, cb, s.round.log[k].node)
  {
    var log := s.round.log;
    var i := EntryOf(c, log, s.batches, round, t, cb);
    hide PastInv;
    assert RanAt(log, Data(s.heap), i, round, t, cb, log[k].node);
  }

  lemma NothingCurrent(c: Config, s: State, ph: Phase)
    requires Inv(c, s, ph) && LogInv(c, s, ph) && s.commits == s.batches
    ensures forall i :: 0 <= i < |s.round.log| ==> s.round.log[i].round < s.batches
  {
    var log := s.round.log;
    forall i | 0 <= i < |log| ensures log[i].round < s.batches {
      assert Made(log, log[i].round, log[i].reader, log[i].cb);
      assert !Done(c, s, ph, log[i].reader, log[i].cb);
    }
  }

  // ---------------------------------------------------------------- counting the entries

  /** Numbers the (round, reader, callback) triples without gaps. */
  function Code(c: Config, e: Invocation): nat {
    FirstNode(FirstNode(e.round, c.readers) + e.reader, c.callbacks) + e.cb
  }

  lemma {:induction false} FirstNodeStrict(a: nat, b: nat, r: nat)
    requires a < b
    ensures FirstNode(a, r) + r <= FirstNode(b, r)
  {
    FirstNodeMono(a + 1, b, r);
  }

  /** Quotient and remainder are unique. */
  lemma SplitUnique(a: nat, i: nat, b: nat, j: nat, r: nat)
    requires i < r && j < r && FirstNode(a, r) + i == FirstNode(b, r) + j
    ensures a == b && i == j
  {
    if a < b {
      FirstNodeStrict(a, b, r);
    } else if b < a {
      FirstNodeStrict(b, a, r);
    }
  }

  lemma {:induction false} Split(v: nat, n: nat, r: nat) returns (a: nat, i: nat)
    requires v < FirstNode(n, r)
    ensures a < n && i < r && v == FirstNode(a, r) + i
  {
    if v < FirstNode(n - 1, r) {
      a, i := Split(v, n - 1, r);
    } else {
      a, i := n - 1, v - FirstNode(n - 1, r);
    }
  }

  lemma CodeUnique(c: Config, e: Invocation, d: Invocation)
    requires e.reader < c.readers && d.reader < c.readers && e.cb < c.callbacks && d.cb < c.callbacks
    requires Code(c, e) == Code(c, d)
    ensures e.round == d.round && e.reader == d.reader && e.cb == d.cb
  {
    SplitUnique(FirstNode(e.round, c.readers) + e.reader, e.cb, FirstNode(d.round, c.readers) + d.reader, d.cb, c.callbacks);
    SplitUnique(e.round, e.reader, d.round, d.reader, c.readers);
  }

  lemma CodeBound(c: Config, e: Invocation, batches: nat)
    requires e.round < batches && e.reader < c.readers && e.cb < c.callbacks
    ensures Code(c, e) < FirstNode(FirstNode(batches, c.readers), c.callbacks)
  {
    FirstNodeStrict(e.round, batches, c.readers);
    FirstNodeStrict(FirstNode(e.round, c.readers) + e.reader, FirstNode(batches, c.readers), c.callbacks);
  }

  lemma CodeExists(c: Config, log: seq<Invocation>, batches: nat, v: nat) returns (i: nat)
    requires PastInv(c, log, batches) && v < FirstNode(FirstNode(batches, c.readers), c.callbacks)
    ensures i < |log| && Code(c, log[i]) == v
  {
    var k, cb := Split(v, FirstNode(batches, c.readers), c.callbacks);
    var round, t := Split(k, batches, c.readers);
    assert Made(log, round, t, cb);
    i :| 0 <= i < |log| && log[i].round == round && log[i].reader == t && log[i].cb == cb;
  }

  /** The entries are numbered without gaps and without repetition, so there are as many as triples. */
  lemma LogLength(c: Config, log: seq<Invocation>, heap: seq<Node>, batches: nat)
    requires EntriesInv(c, log, heap, batches) && OnceInv(log) && PastInv(c, log, batches)
    requires forall i :: 0 <= i < |log| ==> log[i].round < batches
    ensures |log| == FirstNode(FirstNode(batches, c.readers), c.callbacks)
  {
    hide FirstNode, Code;
    var total := FirstNode(FirstNode(batches, c.readers), c.callbacks);
    var codes: seq<Option<nat>> := seq(|log|, i requires 0 <= i < |log| => Some(Code(c, log[i])));
    forall i, j | 0 <= i < j < |log| ensures codes[i] != codes[j] {
      if Code(c, log[i]) == Code(c, log[j]) {
        CodeUnique(c, log[i], log[j]);
      }
    }
    forall i | 0 <= i < |log| ensures codes[i].Some? && 0 <= codes[i].value < 0 + total {
      CodeBound(c, log[i], batches);
    }
    FewValues(codes, 0, total);
    forall v: nat | v < total ensures Some(v) in codes {
      var i := CodeExists(c, log, batches, v);
      assert codes[i] == Some(v);
    }
    if |log| < total {
      Pigeonhole(codes, 0, total);
    }
  }
}
