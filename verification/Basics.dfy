/** Values and counting facts shared by every model. */
module Basics {
  datatype Option<+T> = None | Some(value: T)

  /** One measurement: `sensor_data_t` of the gateway (ids are 16 bits wide, which no proof needs). */
  datatype SensorData = SensorData(id: nat, value: real, ts: int)

  /** How many elements of `s` satisfy `p`. */
  ghost function Tally<T>(s: seq<T>, p: T -> bool): (n: nat)
    ensures n <= |s|
  {
    if s == [] then 0 else Tally(s[..|s| - 1], p) + if p(s[|s| - 1]) then 1 else 0
  }

  lemma {:induction false} TallyUpdate<T>(s: seq<T>, i: nat, x: T, p: T -> bool)
    requires i < |s|
    ensures Tally(s[i := x], p) == Tally(s, p) - (if p(s[i]) then 1 else 0) + (if p(x) then 1 else 0)
  {
    var last := |s| - 1;
    if i == last {
      assert s[i := x][..last] == s[..last];
    } else {
      assert s[i := x][..last] == s[..last][i := x];
      TallyUpdate(s[..last], i, x, p);
    }
  }

  lemma {:induction false} TallyAll<T>(s: seq<T>, p: T -> bool)
    ensures (forall i :: 0 <= i < |s| ==> p(s[i])) <==> Tally(s, p) == |s|
  {
    if s != [] {
      var init := s[..|s| - 1];
      TallyAll(init, p);
      if forall i :: 0 <= i < |s| ==> p(s[i]) {
        assert forall i :: 0 <= i < |init| ==> init[i] == s[i];
      }
    }
  }

  lemma TallyNone<T>(s: seq<T>, p: T -> bool)
    requires forall i :: 0 <= i < |s| ==> !p(s[i])
    ensures Tally(s, p) == 0
  {
    TallyZeroIff(s, p);
  }

  lemma {:induction false} TallyZeroIff<T>(s: seq<T>, p: T -> bool)
    ensures Tally(s, p) == 0 <==> forall i :: 0 <= i < |s| ==> !p(s[i])
  {
    if s != [] {
      var front := s[..|s| - 1];
      TallyZeroIff(front, p);
      assert forall i :: 0 <= i < |front| ==> front[i] == s[i];
    }
  }

  lemma {:induction false} TallyConcat<T>(a: seq<T>, b: seq<T>, p: T -> bool)
    ensures Tally(a + b, p) == Tally(a, p) + Tally(b, p)
  {
    if b == [] {
      assert a + b == a;
    } else {
      assert (a + b)[..|a + b| - 1] == a + b[..|b| - 1];
      TallyConcat(a, b[..|b| - 1], p);
    }
  }

  /** Predicates that agree on all elements count the same. */
  lemma {:induction false} TallySame<T>(s: seq<T>, p: T -> bool, q: T -> bool)
    requires forall x :: x in s ==> (p(x) <==> q(x))
    ensures Tally(s, p) == Tally(s, q)
  {
    if s != [] { TallySame(s[..|s| - 1], p, q); }
  }

  lemma {:induction false} TallyAllBut<T>(s: seq<T>, k: nat, p: T -> bool)
    requires k < |s| && !p(s[k])
    requires forall i :: 0 <= i < |s| && i != k ==> p(s[i])
    ensures Tally(s, p) == |s| - 1
  {
    var last := |s| - 1;
    if k == last {
      TallyAll(s[..last], p);
    } else {
      TallyAllBut(s[..last], k, p);
    }
  }

  /** Fewer than `n` slots cannot mention all of `base .. base + n`. */
  lemma {:induction false} Pigeonhole(slots: seq<Option<nat>>, base: nat, n: nat)
    requires |slots| < n
    ensures exists v: nat :: base <= v < base + n && Some(v) !in slots
    decreases n
  {
    var top := base + n - 1;
    if Some(top) in slots {
      var i :| 0 <= i < |slots| && slots[i] == Some(top);
      var rest := slots[..i] + slots[i + 1..];
      Pigeonhole(rest, base, n - 1);
      var v: nat :| base <= v < base + (n - 1) && Some(v) !in rest;
      assert slots == slots[..i] + [Some(top)] + slots[i + 1..];
      assert Some(v) !in slots;
    }
  }

  ghost predicate Distinct(slots: seq<Option<nat>>) {
    forall t, u :: 0 <= t < u < |slots| ==> slots[t] != slots[u]
  }

  /** Different values between `base` and `base + m` are at most `m`. */
  lemma {:induction false} FewValues(slots: seq<Option<nat>>, base: nat, m: nat)
    requires Distinct(slots)
    requires forall t :: 0 <= t < |slots| ==> slots[t].Some? && base <= slots[t].value < base + m
    ensures |slots| <= m
    decreases m
  {
    if slots != [] {
      assert base <= slots[0].value < base + m;
      var top := base + m - 1;
      if Some(top) in slots {
        var i :| 0 <= i < |slots| && slots[i] == Some(top);
        var rest := slots[..i] + slots[i + 1..];
        assert forall t :: 0 <= t < |rest| ==> rest[t] == slots[if t < i then t else t + 1] && rest[t] != slots[i];
        FewValues(rest, base, m - 1);
      } else {
        assert forall t :: 0 <= t < |slots| ==> slots[t] != Some(top);
        FewValues(slots, base, m - 1);
      }
    }
  }

  /** Replacing another slot keeps a mention. */
  lemma KeepsMention<T>(slots: seq<T>, i: nat, x: T, v: T)
    requires i < |slots| && v in slots && slots[i] != v
    ensures v in slots[i := x]
  {
    var k :| 0 <= k < |slots| && slots[k] == v;
    assert slots[i := x][k] == v;
  }

  function SumOf(s: seq<nat>): nat {
    if s == [] then 0 else SumOf(s[..|s| - 1]) + s[|s| - 1]
  }

  lemma {:induction false} SumUpdate(s: seq<nat>, i: nat, x: nat)
    requires i < |s|
    ensures SumOf(s[i := x]) + s[i] == SumOf(s) + x
  {
    var last := |s| - 1;
    if i == last {
      assert s[i := x][..last] == s[..last];
    } else {
      assert s[i := x][..last] == s[..last][i := x];
      SumUpdate(s[..last], i, x);
    }
  }

  lemma {:induction false} SumAtLeast(s: seq<nat>, i: nat)
    requires i < |s|
    ensures SumOf(s) >= s[i]
  {
    if i < |s| - 1 {
      SumAtLeast(s[..|s| - 1], i);
    }
  }

  lemma {:induction false} SumSingle(s: seq<nat>, i: nat)
    requires forall j :: 0 <= j < |s| && j != i ==> s[j] == 0
    ensures SumOf(s) == if i < |s| then s[i] else 0
  {
    if s != [] {
      SumSingle(s[..|s| - 1], i);
    }
  }
}
