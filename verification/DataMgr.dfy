/**
 The data manager of `lab_final/datamgr.c`: a list of sensors, each with a window of its last values that is shifted
 in place and a running average.
 */
module DataMgr {
  import opened Basics
  import opened DPList
  import opened ListSpec
  import opened SortedInsert

  const RUN_AVG_LENGTH: int := 5

  /** What a sensor holds, as a value. */
  datatype SensorState = SensorState(window: seq<real>, valid: int, avg: real, lm: int)

  /** A line of the sensor map. */
  datatype Line = Line(rid: int, sid: int)

  ghost function Sum(s: seq<real>): real {
    if s == [] then 0.0 else Sum(s[..|s| - 1]) + s[|s| - 1]
  }

  class Sensor {
    const rid: int
    const sid: int
    const rvalues: array<real>
    var ravg: real
    var lm: int
    var rvaluesValid: int

    /** `sensor_create`, or a copy of such a sensor; `memory` is what the window happens to hold. */
    constructor (rid: int, sid: int, memory: seq<real>)
      requires |memory| == RUN_AVG_LENGTH
      ensures this.rid == rid && this.sid == sid && rvalues.Length == RUN_AVG_LENGTH && fresh(rvalues)
      ensures State() == New(memory)
    {
      this.rid, this.sid := rid, sid;
      rvalues := new real[RUN_AVG_LENGTH](i requires 0 <= i < RUN_AVG_LENGTH => memory[i]);
      ravg, lm, rvaluesValid := 0.0, 0, 0;
      new;
      assert rvalues[..] == memory;
    }

    ghost function State(): SensorState
      reads this, rvalues
    {
      SensorState(rvalues[..], rvaluesValid, ravg, lm)
    }

    method PushValue(value: real)
      requires rvalues.Length == RUN_AVG_LENGTH
      modifies rvalues
      ensures rvalues[..] == old(rvalues[..])[1..] + [value]
    {
      var i := 0;
      while i < RUN_AVG_LENGTH - 1
        invariant 0 <= i <= RUN_AVG_LENGTH - 1
        invariant forall k :: 0 <= k < i ==> rvalues[k] == old(rvalues[k + 1])
        invariant forall k :: i <= k < RUN_AVG_LENGTH ==> rvalues[k] == old(rvalues[k])
      {
        rvalues[i] := rvalues[i + 1];
        i := i + 1;
      }
      rvalues[RUN_AVG_LENGTH - 1] := value;
      assert rvalues[..] == rvalues[..RUN_AVG_LENGTH - 1] + [value];
    }

    method UpdateRavg()
      requires rvalues.Length == RUN_AVG_LENGTH
      modifies this`ravg, this`rvaluesValid
      ensures ravg ==
        if old(rvaluesValid) == 5 then (rvalues[0] + rvalues[1] + rvalues[2] + rvalues[3] + rvalues[4]) / 5.0 else 0.0
      ensures rvaluesValid == if old(rvaluesValid) == RUN_AVG_LENGTH then old(rvaluesValid) else old(rvaluesValid) + 1
    {
      var sum, i := 0.0, 0;
      while i < RUN_AVG_LENGTH
        invariant 0 <= i <= RUN_AVG_LENGTH && sum == Sum(rvalues[..i])
      {
        assert rvalues[..i + 1][..i] == rvalues[..i];
        sum := sum + rvalues[i];
        i := i + 1;
      }
      assert rvalues[..i] == rvalues[..];
      SumOfFive(rvalues[..]);
      if rvaluesValid != RUN_AVG_LENGTH {
        rvaluesValid := rvaluesValid + 1;
        ravg := 0.0;
      } else {
        ravg := sum / RUN_AVG_LENGTH as real;
      }
    }

    method Update(value: real, ts: int)
      requires rvalues.Length == RUN_AVG_LENGTH
      modifies this, rvalues
      ensures State() == Updated(old(State()), value, ts)
    {
      PushValue(value);
      SumOfFive(rvalues[..]);
      UpdateRavg();
      lm := ts;
    }
  }

  lemma SumFront(s: seq<real>, n: nat)
    requires n < |s|
    ensures Sum(s[..n + 1]) == Sum(s[..n]) + s[n]
  {
    assert s[..n + 1][..n] == s[..n];
  }

  lemma SumOfFive(s: seq<real>)
    requires |s| == 5
    ensures Sum(s) == s[0] + s[1] + s[2] + s[3] + s[4]
  {
    assert s[..0] == [] && s[..5] == s && Sum([]) == 0.0;
    hide Sum;
    SumFront(s, 0);
    SumFront(s, 1);
    SumFront(s, 2);
    SumFront(s, 3);
    SumFront(s, 4);
  }

  ghost function New(memory: seq<real>): SensorState {
    SensorState(memory, 0, 0.0, 0)
  }

  ghost function Updated(s: SensorState, value: real, ts: int): SensorState
    requires s.window != []
  {
    var window := s.window[1..] + [value];
    if s.valid == RUN_AVG_LENGTH then SensorState(window, s.valid, Sum(window) / 5.0, ts)
    else SensorState(window, s.valid + 1, 0.0, ts)
  }

  /** The state after a whole series of samples. */
  ghost function After(s: SensorState, samples: seq<SensorData>): (r: SensorState)
    requires |s.window| == RUN_AVG_LENGTH
    ensures |r.window| == RUN_AVG_LENGTH
  {
    if samples == [] then s
    else
      var last := samples[|samples| - 1];
      Updated(After(s, samples[..|samples| - 1]), last.value, last.ts)
  }

  function Values(samples: seq<SensorData>): (r: seq<real>)
    ensures |r| == |samples| && forall i :: 0 <= i < |r| ==> r[i] == samples[i].value
  {
    if samples == [] then [] else Values(samples[..|samples| - 1]) + [samples[|samples| - 1].value]
  }

  /** The last at most five elements. */
  ghost function Recent(s: seq<real>): seq<real> {
    s[if |s| <= RUN_AVG_LENGTH then 0 else |s| - RUN_AVG_LENGTH..]
  }

  /**
   The state of a new sensor after its samples, without recursion over them: the window ends with the last five (or
   all) values in order, and the average is 0 up to and including the fifth sample and the mean of the last five from
   the sixth on.  What the window held at first is left at its head only, so it never reaches the average.
   */
  ghost function Summary(memory: seq<real>, samples: seq<SensorData>): SensorState
    requires |memory| == RUN_AVG_LENGTH
  {
    var n, recent := |samples|, Recent(Values(samples));
    SensorState(
      memory[|recent|..] + recent,
      |recent|,
      if n <= RUN_AVG_LENGTH then 0.0 else Sum(recent) / 5.0,
      if n == 0 then 0 else samples[n - 1].ts)
  }

  lemma {:induction false} AfterSamples(memory: seq<real>, samples: seq<SensorData>)
    requires |memory| == RUN_AVG_LENGTH
    ensures After(New(memory), samples) == Summary(memory, samples)
  {
    if samples != [] {
      hide Sum, Recent, Values;
      AfterSamples(memory, samples[..|samples| - 1]);
      SummaryStep(memory, samples);
    } else {
      assert memory[0..] + [] == memory;
    }
  }

  lemma SummaryStep(memory: seq<real>, samples: seq<SensorData>)
    requires |memory| == RUN_AVG_LENGTH && samples != []
    ensures
      var last := samples[|samples| - 1];
      Updated(Summary(memory, samples[..|samples| - 1]), last.value, last.ts) == Summary(memory, samples)
  {
    hide Sum, Recent;
    var front, last := samples[..|samples| - 1], samples[|samples| - 1];
    RecentStep(memory, Values(front), last.value);
    assert Values(samples) == Values(front) + [last.value];
  }

  lemma RecentStep(memory: seq<real>, s: seq<real>, x: real)
    requires |memory| == RUN_AVG_LENGTH
    ensures
      var recent, next := Recent(s), Recent(s + [x]);
      && |recent| == (if |s| <= RUN_AVG_LENGTH then |s| else RUN_AVG_LENGTH)
      && |next| == (if |s| < RUN_AVG_LENGTH then |s| + 1 else RUN_AVG_LENGTH)
      && (memory[|recent|..] + recent)[1..] + [x] == memory[|next|..] + next
      && (|s| >= RUN_AVG_LENGTH ==> memory[|next|..] + next == next)
  {
    var recent, next := Recent(s), Recent(s + [x]);
    if |s| < RUN_AVG_LENGTH {
      assert next == recent + [x];
    } else {
      assert next == recent[1..] + [x];
    }
  }

  /** Two sensors whose windows started with different memory report the same averages for ever. */
  lemma MemoryNeverShows(memory: seq<real>, other: seq<real>, samples: seq<SensorData>)
    requires |memory| == |other| == RUN_AVG_LENGTH
    ensures After(New(memory), samples).avg == After(New(other), samples).avg
    ensures |samples| >= RUN_AVG_LENGTH ==> After(New(memory), samples) == After(New(other), samples)
  {
    AfterSamples(memory, samples);
    AfterSamples(other, samples);
  }

  /** The mean of the last five values. */
  ghost function MeanOfLastFive(samples: seq<SensorData>): real
    requires |samples| >= 5
  {
    var n := |samples|;
    (samples[n - 5].value + samples[n - 4].value + samples[n - 3].value + samples[n - 2].value + samples[n - 1].value) / 5.0
  }

  /**
   What a sensor reports after n samples: the mean of the last five once there are more than five and 0 before; the time
   of the last one; and a window with the last five values in order, the newest at its end.
   */
  lemma SensorReport(memory: seq<real>, samples: seq<SensorData>)
    requires |memory| == RUN_AVG_LENGTH
    ensures
      var r, n := After(New(memory), samples), |samples|;
      && r.avg == (if n <= 5 then 0.0
                   else (samples[n - 5].value + samples[n - 4].value + samples[n - 3].value
                         + samples[n - 2].value + samples[n - 1].value) / 5.0)
      && r.lm == (if n == 0 then 0 else samples[n - 1].ts)
      && r.valid == (if n <= 5 then n else 5)
      && |r.window| == 5
      && forall i :: 0 <= i < 5 ==> r.window[i] == if i < 5 - n then memory[n + i] else samples[n - 5 + i].value
  {
    AfterSamples(memory, samples);
    RecentAverage(samples);
    RecentAt(samples);
    hide Sum, Values, Recent, After;
    var n, recent := |samples|, Recent(Values(samples));
    assert forall i :: 0 <= i < 5 ==>
      (memory[|recent|..] + recent)[i] == if i < 5 - |recent| then memory[|recent| + i] else recent[i - (5 - |recent|)];
  }

  lemma RecentAt(samples: seq<SensorData>)
    ensures
      var n, recent := |samples|, Recent(Values(samples));
      && |recent| == (if n <= 5 then n else 5)
      && forall j :: 0 <= j < |recent| ==> recent[j] == samples[n - |recent| + j].value
  {
  }

  lemma RecentAverage(samples: seq<SensorData>)
    ensures |samples| > 5 ==> Sum(Recent(Values(samples))) / 5.0 == MeanOfLastFive(samples)
  {
    if |samples| > 5 {
      RecentAt(samples);
      SumOfFive(Recent(Values(samples)));
    }
  }

  /** The average as `datamgr.h` describes it: 0 with fewer than five samples, else the mean of the last five. */
  ghost function DocumentedAverage(samples: seq<SensorData>): real {
    if |samples| < 5 then 0.0 else MeanOfLastFive(samples)
  }

  /** The average is the documented one except after exactly five samples that do not add up to 0. */
  lemma AverageAsDocumentedIff(memory: seq<real>, samples: seq<SensorData>)
    requires |memory| == RUN_AVG_LENGTH
    ensures After(New(memory), samples).avg == DocumentedAverage(samples)
      <==> |samples| != 5
           || samples[0].value + samples[1].value + samples[2].value + samples[3].value + samples[4].value == 0.0
  {
    SensorReport(memory, samples);
    hide After, Sum, Values;
    if |samples| == 5 {
      NoMean(samples[0].value + samples[1].value + samples[2].value + samples[3].value + samples[4].value);
    }
  }

  lemma NoMean(sum: real)
    ensures sum / 5.0 == 0.0 <==> sum == 0.0
  {
  }

  /** The samples of one sensor, in order. */
  ghost function Own(samples: seq<SensorData>, sid: int): seq<SensorData> {
    if samples == [] then []
    else
      var last := samples[|samples| - 1];
      Own(samples[..|samples| - 1], sid) + if last.id == sid then [last] else []
  }

  /** The samples of a sensor are those with its id, in their order, whatever stands around them. */
  lemma {:induction false} OwnIsFilter(before: seq<SensorData>, x: SensorData, behind: seq<SensorData>, sid: int)
    ensures Own(before + [x] + behind, sid) == Own(before, sid) + (if x.id == sid then [x] else []) + Own(behind, sid)
    ensures Own([], sid) == []
  {
    var all := before + [x] + behind;
    if behind == [] {
      assert all[..|all| - 1] == before;
    } else {
      var front := behind[..|behind| - 1];
      OwnIsFilter(before, x, front, sid);
      assert all[..|all| - 1] == before + [x] + front;
    }
  }

  // ----- the list of sensors -----

  function CompareSensors(x: Sensor, y: Sensor): int {
    if x.sid < y.sid then -1 else if x.sid == y.sid then 0 else 1
  }

  function Same(x: Sensor): Sensor { x }

  /** A list of different sensors with windows of their own. */
  ghost predicate Registry(list: List<Sensor>)
    reads list, Nodes(list)
  {
    && list.Valid()
    && list.compare == CompareSensors
    && Separate(list.contents)
  }

  ghost predicate Separate(sensors: seq<Sensor>) {
    && (forall i :: 0 <= i < |sensors| ==> sensors[i].rvalues.Length == RUN_AVG_LENGTH)
    && (forall i, j :: 0 <= i < j < |sensors| ==> sensors[i] != sensors[j] && sensors[i].rvalues != sensors[j].rvalues)
  }

  /** Index of the first sensor with the given id, or -1. */
  ghost function Lookup(sensors: seq<Sensor>, sid: int): (k: int)
    ensures -1 <= k < |sensors|
    ensures k >= 0 ==> sensors[k].sid == sid
    ensures forall i :: 0 <= i < (if k >= 0 then k else |sensors|) ==> sensors[i].sid != sid
  {
    FirstIndex(sensors, (s: Sensor) => s.sid == sid)
  }

  /** The callback finds the same sensor as a comparison of ids. */
  lemma LookupByCallback(sensors: seq<Sensor>, dummy: Sensor)
    ensures FirstIndex(sensors, x => CompareSensors(x, dummy) == 0) == Lookup(sensors, dummy.sid)
  {
    var p, k := x => CompareSensors(x, dummy) == 0, Lookup(sensors, dummy.sid);
    if k == -1 { FirstIndexNone(sensors, p); } else { FirstIndexAt(sensors, p, k); }
  }

  ghost function Footprint(sensors: seq<Sensor>): set<object> {
    (set s: Sensor | s in sensors :: s as object) + (set s: Sensor | s in sensors :: s.rvalues as object)
  }

  method SensorSearch(list: List?<Sensor>, sid: int, memory: seq<real>) returns (r: Sensor?)
    requires list != null ==> Registry(list)
    requires |memory| == RUN_AVG_LENGTH
    ensures r ==
      if list == null || Lookup(list.contents, sid) == -1 then null else list.contents[Lookup(list.contents, sid)]
  {
    if list == null { return null; }
    hide Separate, Lookup, FirstIndex;
    var dummy := new Sensor(0, sid, memory);
    var index := GetIndexOfElement(list, dummy);
    LookupByCallback(list.contents, dummy);
    if index == -1 { return null; }
    var sensor := GetElementAtIndex(list, index);
    match sensor
    case None => return null;
    case Some(found) => return found;
  }

  /** Sensor `k` after one sample. */
  ghost function Sampled(sensors: seq<Sensor>, k: nat, before: SensorState, x: SensorData): SensorState
    requires k < |sensors| && |before.window| == RUN_AVG_LENGTH
  {
    if k == Lookup(sensors, x.id) then Updated(before, x.value, x.ts) else before
  }

  /** One sample: the first sensor with its id is updated and no other; a sample of an unknown sensor is dropped. */
  method ProcessSensorData(list: List?<Sensor>, data: SensorData, memory: seq<real>)
    requires list != null ==> Registry(list)
    requires |memory| == RUN_AVG_LENGTH
    modifies if list == null then {} else Footprint(list.contents)
    ensures list != null ==> Registry(list) && list.contents == old(list.contents)
    ensures list != null ==> forall k :: 0 <= k < |list.contents| ==>
      list.contents[k].State() == Sampled(list.contents, k, old(list.contents[k].State()), data)
  {
    var current := SensorSearch(list, data.id, memory);
    if current == null { return; }
    current.Update(data.value, data.ts);
  }

  /** Sensor `k` after a stream: only the first sensor of an id changes, and only by its own samples. */
  ghost function Streamed(sensors: seq<Sensor>, k: nat, before: SensorState, data: seq<SensorData>): SensorState
    requires k < |sensors| && |before.window| == RUN_AVG_LENGTH
  {
    if k == Lookup(sensors, sensors[k].sid) then After(before, Own(data, sensors[k].sid)) else before
  }

  /** One more sample of the stream. */
  lemma StreamedStep(sensors: seq<Sensor>, k: nat, before: SensorState, data: seq<SensorData>, x: SensorData)
    requires k < |sensors| && |before.window| == RUN_AVG_LENGTH
    ensures Streamed(sensors, k, before, data + [x]) == Sampled(sensors, k, Streamed(sensors, k, before, data), x)
  {
    var all, sid := data + [x], sensors[k].sid;
    assert all[..|all| - 1] == data;
    if sid == x.id {
      assert Own(all, sid) == Own(data, sid) + [x];
      assert (Own(data, sid) + [x])[..|Own(data, sid)|] == Own(data, sid);
    } else {
      assert Own(all, sid) == Own(data, sid);
    }
  }

  /** The reading loop over a whole stream of samples. */
  method ProcessStream(list: List<Sensor>, data: seq<SensorData>, memory: seq<real>)
    requires Registry(list)
    requires |memory| == RUN_AVG_LENGTH
    modifies Footprint(list.contents)
    ensures Registry(list) && list.contents == old(list.contents)
    ensures forall k :: 0 <= k < |list.contents| ==>
      list.contents[k].State() == Streamed(list.contents, k, old(list.contents[k].State()), data)
  {
    var i := 0;
    while i < |data|
      invariant 0 <= i <= |data|
      invariant Registry(list) && list.contents == old(list.contents)
      invariant forall k :: 0 <= k < |list.contents| ==>
        list.contents[k].State() == Streamed(list.contents, k, old(list.contents[k].State()), data[..i])
    {
      label Before:
      ProcessSensorData(list, data[i], memory);
      assert data[..i + 1] == data[..i] + [data[i]];
      forall k | 0 <= k < |list.contents|
        ensures list.contents[k].State() == Streamed(list.contents, k, old(list.contents[k].State()), data[..i + 1])
      {
        assert old@Before(list.contents[k].State()) == Streamed(list.contents, k, old(list.contents[k].State()), data[..i]);
        StreamedStep(list.contents, k, old(list.contents[k].State()), data[..i], data[i]);
      }
      i := i + 1;
    }
    assert data[..i] == data;
  }

  // ----- loading the sensor map -----

  function CompareLines(x: Line, y: Line): int {
    if x.sid < y.sid then -1 else if x.sid == y.sid then 0 else 1
  }

  /** Lines are in order when their sids do not descend. */
  lemma SortedBySid(lines: seq<Line>)
    ensures Sorted(lines, CompareLines) <==> forall i :: 0 <= i < |lines| - 1 ==> lines[i].sid <= lines[i + 1].sid
  {
    assert forall i :: 0 <= i < |lines| - 1 ==> (CompareLines(lines[i], lines[i + 1]) <= 0 <==> lines[i].sid <= lines[i + 1].sid);
    hide CompareLines;
  }

  lemma SidsOrder(lines: seq<Line>)
    ensures Orders(CompareLines, lines)
  {
  }

  /** A map whose sids ascend is stored completely and in its own order. */
  lemma AscendingSidsLoad(lines: seq<Line>)
    requires forall i :: 0 <= i < |lines| - 1 ==> lines[i].sid < lines[i + 1].sid
    ensures Load(lines, CompareLines) == lines
  {
    SidsOrder(lines);
    hide Orders, Load;
    assert forall i :: 0 <= i < |lines| - 1 ==> CompareLines(lines[i], lines[i + 1]) < 0;
    AscendingLoads(lines, CompareLines);
  }

  /** Among the lines before line `j` exactly one has no smaller sid, and that one has a larger sid. */
  ghost predicate BehindOneLarger(lines: seq<Line>, j: nat)
    requires j < |lines|
  {
    && Tally(lines[..j], (x: Line) => x.sid >= lines[j].sid) == 1
    && Tally(lines[..j], (x: Line) => x.sid > lines[j].sid) == 1
  }

  /** Every line of a sensor map is stored if and only if no line but the last comes behind exactly one that is not smaller, and that one is larger. */
  lemma SidMapCompleteIff(lines: seq<Line>)
    ensures multiset(Load(lines, CompareLines)) == multiset(lines)
      <==> forall j :: 0 <= j < |lines| - 1 ==> !BehindOneLarger(lines, j)
  {
    SidsOrder(lines);
    hide Orders, Load, Sorted, Spoils;
    LoadCompleteIff(lines, CompareLines);
    forall j | 0 <= j < |lines| ensures Spoils(lines, j, CompareLines) <==> BehindOneLarger(lines, j) {
      SpoilsBySid(lines, j);
    }
  }

  lemma SpoilsBySid(lines: seq<Line>, j: nat)
    requires j < |lines|
    ensures Spoils(lines, j, CompareLines) <==> BehindOneLarger(lines, j)
  {
    hide Tally;
    SpoilsByCount(lines, j, CompareLines, (x: Line) => x.sid >= lines[j].sid, (x: Line) => x.sid > lines[j].sid);
  }

  ghost function Lines(sensors: seq<Sensor>): (r: seq<Line>)
    ensures |r| == |sensors| && forall i :: 0 <= i < |r| ==> r[i] == Line(sensors[i].rid, sensors[i].sid)
  {
    seq(|sensors|, i requires 0 <= i < |sensors| => Line(sensors[i].rid, sensors[i].sid))
  }

  /** Inserting a sensor and inserting its line come to the same. */
  lemma LinesOfInsert(sensors: seq<Sensor>, x: Sensor)
    ensures Sorted(Lines(sensors), CompareLines) <==> Sorted(sensors, CompareSensors)
    ensures Lines(Insert(sensors, x, CompareSensors)) == Insert(Lines(sensors), Line(x.rid, x.sid), CompareLines)
  {
    SortedLines(sensors);
    SamePosition(sensors, x);
    hide Sorted, SortedPosition, Lines;
    if Sorted(sensors, CompareSensors) {
      LinesInserted(sensors, SortedPosition(sensors, x, CompareSensors), x);
    }
  }

  lemma SortedLines(sensors: seq<Sensor>)
    ensures Sorted(Lines(sensors), CompareLines) <==> Sorted(sensors, CompareSensors)
  {
    var lines := Lines(sensors);
    assert forall i :: 0 <= i < |sensors| - 1 ==>
      CompareLines(lines[i], lines[i + 1]) == CompareSensors(sensors[i], sensors[i + 1]);
  }

  lemma LinesInserted(sensors: seq<Sensor>, k: nat, x: Sensor)
    requires k <= |sensors|
    ensures Lines(InsertAt(sensors, k, x)) == InsertAt(Lines(sensors), k, Line(x.rid, x.sid))
  {
    hide Lines;
  }

  lemma SamePosition(sensors: seq<Sensor>, x: Sensor)
    ensures SortedPosition(Lines(sensors), Line(x.rid, x.sid), CompareLines) == SortedPosition(sensors, x, CompareSensors)
  {
    if sensors != [] {
      var lines, line, n := Lines(sensors), Line(x.rid, x.sid), |sensors|;
      FirstIndexSame(sensors[..n - 1], y => CompareSensors(x, y) < 1, lines[..n - 1], y => CompareLines(line, y) < 1);
    }
  }

  /** Offers one line of the map to the list as a fresh sensor. */
  method StoreSensor(line: Line, list: List<Sensor>, memory: seq<real>)
    requires Registry(list) && |memory| == RUN_AVG_LENGTH
    modifies list, Nodes(list)
    ensures Registry(list) && fresh(Nodes(list) - old(Nodes(list)))
    ensures Lines(list.contents) == Insert(Lines(old(list.contents)), line, CompareLines)
    ensures forall s :: s in list.contents && s !in old(list.contents) ==>
      fresh(s) && fresh(s.rvalues) && s.State() == New(memory)
    ensures forall s :: s in old(list.contents) ==> s in list.contents
  {
    ghost var before := list.contents;
    var sensor := new Sensor(line.rid, line.sid, memory);
    LinesOfInsert(before, sensor);
    hide Sorted, SortedPosition;
    var _ := InsertSorted(list, sensor, false);
    if Sorted(before, CompareSensors) {
      SeparateInsert(before, SortedPosition(before, sensor, CompareSensors), sensor);
    }
  }

  lemma InsertedAt(sensors: seq<Sensor>, k: nat, x: Sensor, i: nat)
    requires k <= |sensors| && i <= |sensors|
    ensures InsertAt(sensors, k, x)[i] == if i < k then sensors[i] else if i == k then x else sensors[i - 1]
  {
  }

  lemma InInserted(sensors: seq<Sensor>, k: nat, x: Sensor, s: Sensor)
    requires k <= |sensors|
    ensures s in InsertAt(sensors, k, x) <==> s in sensors || s == x
  {
    assert sensors == sensors[..k] + sensors[k..];
  }

  lemma SeparateInsert(sensors: seq<Sensor>, k: nat, x: Sensor)
    requires Separate(sensors) && k <= |sensors| && x.rvalues.Length == RUN_AVG_LENGTH
    requires forall s :: s in sensors ==> s != x && s.rvalues != x.rvalues
    ensures Separate(InsertAt(sensors, k, x))
    ensures forall s :: s in InsertAt(sensors, k, x) <==> s in sensors || s == x
  {
    var r := InsertAt(sensors, k, x);
    forall s ensures s in r <==> s in sensors || s == x { InInserted(sensors, k, x, s); }
    forall i, j | 0 <= i < j < |r| ensures r[i] != r[j] && r[i].rvalues != r[j].rvalues {
      hide InsertAt;
      InsertedAt(sensors, k, x, i);
      InsertedAt(sensors, k, x, j);
    }
  }

  /** Every line of the map is offered to the list as a fresh sensor. */
  method ParseSensorMap(lines: seq<Line>, list: List<Sensor>, memory: seq<real>)
    requires Registry(list) && |memory| == RUN_AVG_LENGTH
    modifies list, Nodes(list)
    ensures Registry(list)
    ensures Lines(list.contents) == LoadFrom(Lines(old(list.contents)), lines, CompareLines)
    ensures forall s :: s in list.contents && s !in old(list.contents) ==>
      fresh(s) && fresh(s.rvalues) && s.State() == New(memory)
    ensures forall s :: s in old(list.contents) ==> s in list.contents
  {
    hide Sorted, SortedPosition, Insert, Separate, Lines;
    var i := 0;
    while i < |lines|
      invariant 0 <= i <= |lines|
      invariant Registry(list) && fresh(Nodes(list) - old(Nodes(list)))
      invariant Lines(list.contents) == LoadFrom(Lines(old(list.contents)), lines[..i], CompareLines)
      invariant forall s :: s in list.contents && s !in old(list.contents) ==>
        fresh(s) && fresh(s.rvalues) && s.State() == New(memory)
      invariant forall s :: s in old(list.contents) ==> s in list.contents
    {
      StoreSensor(lines[i], list, memory);
      assert lines[..i + 1][..i] == lines[..i];
      i := i + 1;
    }
    assert lines[..i] == lines;
  }

  /**
   `datamgr_parse_sensor_files`: the sensors are those the map loads, in that order, and each has the summary of its
   own samples, whatever the other sensors received in between.
   */
  method ParseSensorFiles(lines: seq<Line>, data: seq<SensorData>, memory: seq<real>) returns (list: List<Sensor>)
    requires |memory| == RUN_AVG_LENGTH
    ensures Registry(list) && fresh(list)
    ensures Lines(list.contents) == Load(lines, CompareLines)
    ensures forall k :: 0 <= k < |list.contents| ==>
      var s := list.contents[k];
      s.State() ==
        if k == Lookup(list.contents, s.sid) then Summary(memory, Own(data, s.sid)) else New(memory)
  {
    list := new List(Same, CompareSensors);
    ParseSensorMap(lines, list, memory);
    label Loaded:
    ProcessStream(list, data, memory);
    forall k | 0 <= k < |list.contents|
      ensures list.contents[k].State() ==
        if k == Lookup(list.contents, list.contents[k].sid) then Summary(memory, Own(data, list.contents[k].sid))
        else New(memory)
    {
      assert old@Loaded(list.contents[k].State()) == New(memory);
      AfterSamples(memory, Own(data, list.contents[k].sid));
    }
  }
}
