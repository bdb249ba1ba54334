/** CPU time from context switches.

    The tracepoint keeps one start time per thread and, when the thread is switched out, charges
    the time since then to the current cgroup.  The theorems are about every sequence of switches
    on any number of CPUs with a clock that does not go back, in which no update of an existing
    start is lost: no more is charged than was run (`NeverOvercharges`, `WithinCapacity`), and
    exactly when it is all that was run (`ChargesEverythingIff`).  `OverchargesIff` says what a
    lost update does. */
module CpuAccounting {

  function CountAt(m: map<nat, nat>, k: nat): nat
  {
    if k in m then m[k] else 0
  }

  function Add(m: map<nat, nat>, k: nat, n: nat): map<nat, nat>
  {
    m[k := CountAt(m, k) + n]
  }

  // ---------------------------------------------------------------- the tracepoint

  /** `add_cpu_time`: a missing entry is created unless the map refuses. */
  function AddCpuTime(metrics: map<nat, nat>, cgroup: nat, delta: nat, insertOk: bool): map<nat, nat>
  {
    if cgroup !in metrics && !insertOk then metrics else Add(metrics, cgroup, delta)
  }

  /** What switching `prev` out at `now` charges: nothing for the idle thread, for a thread
      without a start, or without elapsed time. */
  function ChargeFor(starts: map<nat, nat>, prev: nat, now: nat): nat
  {
    if prev != 0 && prev in starts && now > starts[prev] then now - starts[prev] else 0
  }

  /** The map takes the new start or refuses it. */
  function Restarted(starts: map<nat, nat>, next: nat, now: nat, ok: bool): map<nat, nat>
  {
    if ok then starts[next := now] else starts
  }

  class CpuTracer {
    var pidStart: map<nat, nat>
    var metrics: map<nat, nat>

    constructor ()
      ensures pidStart == map[] && metrics == map[]
    {
      pidStart, metrics := map[], map[];
    }

    /** `handle_sched_switch`; `chargeOk` and `startOk` say whether the maps take an entry. */
    method HandleSchedSwitch(now: nat, prev: nat, next: nat, cgroup: nat, chargeOk: bool, startOk: bool)
      modifies this
      ensures pidStart == Restarted(old(pidStart), next, now, startOk)
      ensures metrics ==
        if ChargeFor(old(pidStart), prev, now) == 0 then old(metrics)
        else AddCpuTime(old(metrics), cgroup, ChargeFor(old(pidStart), prev, now), chargeOk)
    {
      if prev != 0 {
        if prev in pidStart && now > pidStart[prev] {
          var delta := now - pidStart[prev];
          ChargeCpuTime(cgroup, delta, chargeOk);
        }
      }
      if startOk {
        pidStart := pidStart[next := now];
      }
    }

    method ChargeCpuTime(cgroup: nat, delta: nat, insertOk: bool)
      modifies this`metrics
      ensures metrics == AddCpuTime(old(metrics), cgroup, delta, insertOk)
    {
      if cgroup !in metrics {
        if !insertOk {
          return;
        }
        metrics := metrics[cgroup := 0];
      }
      metrics := metrics[cgroup := metrics[cgroup] + delta];
    }
  }

  // ---------------------------------------------------------------- the machine

  /** The CPUs, the two maps, and what an observer of the CPUs would write down: the time run by
      each cgroup in finished intervals, the part of it whose beginning the tracepoint recorded,
      the sum of all charges, and the sum of all time run other than idle. */
  datatype State = State(
    running: seq<nat>,        // the thread on each CPU, 0 when idle
    since: seq<nat>,          // when it got there
    noted: seq<bool>,         // whether that time is its start in the map
    now: nat,
    starts: map<nat, nat>,
    metrics: map<nat, nat>,
    ran: map<nat, nat>,
    covered: map<nat, nat>,
    charged: nat,
    busy: nat)

  datatype Label =
    | Switch(cpu: nat, at: nat, next: nat, cgroup: nat, chargeOk: bool, startOk: bool)
    | Evict(cgroup: nat)      // the metrics map is an LRU map
    | Zero(cgroup: nat)       // another CPU that also missed the entry writes its zero entry late

  /** The clock does not go back, and a thread other than idle runs on one CPU at a time. */
  predicate Enabled(s: State, l: Label)
  {
    l.Switch? ==>
      && l.cpu < |s.running| && s.now <= l.at
      && (l.next != 0 ==> forall c :: 0 <= c < |s.running| && c != l.cpu ==> s.running[c] != l.next)
  }

  predicate Shaped(s: State)
  {
    |s.since| == |s.running| == |s.noted|
  }

  /** What the tracepoint charges at a switch. */
  function Charge(s: State, l: Label): nat
    requires l.Switch? && l.cpu < |s.running|
  {
    ChargeFor(s.starts, s.running[l.cpu], l.at)
  }

  /** What the outgoing thread ran since it was switched in. */
  function Interval(s: State, l: Label): nat
    requires l.Switch? && Shaped(s) && l.cpu < |s.running|
  {
    if s.running[l.cpu] != 0 && l.at > s.since[l.cpu] then l.at - s.since[l.cpu] else 0
  }

  function Apply(s: State, l: Label): (t: State)
    requires Shaped(s) && Enabled(s, l)
    ensures Shaped(t) && |t.running| == |s.running|
  {
    match l
    case Evict(cgroup) => s.(metrics := s.metrics - {cgroup})
    case Zero(cgroup) => s.(metrics := s.metrics[cgroup := 0])
    case Switch(cpu, at, next, cgroup, chargeOk, startOk) =>
      var charge, interval := Charge(s, l), Interval(s, l);
      var starts := Restarted(s.starts, next, at, startOk);
      State(
        s.running[cpu := next],
        s.since[cpu := at],
        s.noted[cpu := next in starts && starts[next] == at],
        at,
        starts,
        if charge == 0 then s.metrics else AddCpuTime(s.metrics, cgroup, charge, chargeOk),
        Add(s.ran, cgroup, interval),
        Add(s.covered, cgroup, if s.noted[cpu] then interval else 0),
        s.charged + (if cgroup in s.metrics || chargeOk then charge else 0),
        s.busy + interval)
  }

  /** The tracer attached at some moment, with empty maps and threads already running. */
  predicate Start(s: State)
  {
    && Shaped(s) && OnceEach(s) && s.starts == map[] && s.metrics == map[]
    && s.ran == map[] && s.covered == map[] && s.charged == 0 && s.busy == 0
    && (forall c :: 0 <= c < |s.running| ==> s.since[c] == s.now && !s.noted[c])
  }

  predicate Run(s: State, labels: seq<Label>, t: State)
    requires Shaped(s)
    decreases |labels|
  {
    if labels == [] then s == t else Enabled(s, labels[0]) && Run(Apply(s, labels[0]), labels[1..], t)
  }

  /** A running thread with a start in the map has the start of its current interval there, and it
      has one exactly when the start was taken: stale starts belong to threads that are not running. */
  predicate FreshAt(s: State, c: nat)
    requires Shaped(s) && c < |s.running|
  {
    && s.since[c] <= s.now
    && (s.running[c] != 0 ==>
          && (s.running[c] in s.starts <==> s.noted[c])
          && (s.running[c] in s.starts ==> s.starts[s.running[c]] == s.since[c]))
  }

  predicate OnceEach(s: State)
  {
    forall c, d :: 0 <= c < d < |s.running| && s.running[c] != 0 ==> s.running[c] != s.running[d]
  }

  predicate Fresh(s: State)
    requires Shaped(s)
  {
    && OnceEach(s)
    && (forall c :: 0 <= c < |s.running| ==> FreshAt(s, c))
    && (forall p :: p in s.starts ==> s.starts[p] <= s.now)
  }

  /** The update of an existing, older start is refused. */
  predicate LosesUpdate(s: State, l: Label)
  {
    l.Switch? && l.next != 0 && !l.startOk && l.next in s.starts && s.starts[l.next] != l.at
  }

  /** No step of the run loses an update. */
  ghost predicate Steady(s: State, labels: seq<Label>)
    requires Shaped(s)
    decreases |labels|
  {
    labels == [] ||
    (Enabled(s, labels[0]) && !LosesUpdate(s, labels[0]) && Steady(Apply(s, labels[0]), labels[1..]))
  }

  /** The charge is the interval just finished, or nothing if its start was not taken. */
  lemma ChargeIsInterval(s: State, l: Label)
    requires l.Switch? && Shaped(s) && Fresh(s) && Enabled(s, l)
    ensures Charge(s, l) == if s.noted[l.cpu] then Interval(s, l) else 0
  {
    assert FreshAt(s, l.cpu);
  }

  lemma FreshElsewhere(s: State, l: Label, c: nat)
    requires l.Switch? && Shaped(s) && Fresh(s) && Enabled(s, l) && c < |s.running| && c != l.cpu
    ensures FreshAt(Apply(s, l), c)
  {
    assert FreshAt(s, c);
    assert s.running[c] != 0 ==> s.running[c] != l.next;
  }

  lemma FreshHere(s: State, l: Label)
    requires l.Switch? && Shaped(s) && Fresh(s) && Enabled(s, l)
    ensures FreshAt(Apply(s, l), l.cpu) <==> !LosesUpdate(s, l)
  {
    hide Charge, Interval, Add, AddCpuTime, OnceEach;
  }

  /** A lost update is the only thing that leaves a running thread with a stale start. */
  lemma FreshStep(s: State, l: Label)
    requires Shaped(s) && Fresh(s) && Enabled(s, l)
    ensures Fresh(Apply(s, l)) <==> !LosesUpdate(s, l)
  {
    var t := Apply(s, l);
    if l.Switch? {
      FreshHere(s, l);
      StillOnce(s, l);
      forall c | 0 <= c < |t.running| && c != l.cpu ensures FreshAt(t, c) {
        FreshElsewhere(s, l, c);
      }
      hide FreshAt, LosesUpdate, OnceEach, Charge, Interval, Add, AddCpuTime;
    } else {
      forall c | 0 <= c < |t.running| ensures FreshAt(t, c) {
        assert FreshAt(s, c);
      }
      assert OnceEach(t);
    }
  }

  lemma StillOnce(s: State, l: Label)
    requires l.Switch? && Shaped(s) && OnceEach(s) && Enabled(s, l)
    ensures OnceEach(Apply(s, l))
  {
    hide Charge, Interval, Add, AddCpuTime;
  }

  lemma {:induction false} RunFresh(s: State, labels: seq<Label>, t: State)
    requires Shaped(s) && Fresh(s) && Run(s, labels, t) && Steady(s, labels)
    ensures Shaped(t) && Fresh(t)
    decreases |labels|
  {
    hide Fresh, Apply, Enabled, LosesUpdate;
    if labels != [] {
      FreshStep(s, labels[0]);
      RunFresh(Apply(s, labels[0]), labels[1..], t);
    }
  }

  // ---------------------------------------------------------------- what is charged

  predicate Bounded(s: State, g: nat)
  {
    CountAt(s.metrics, g) <= CountAt(s.covered, g) <= CountAt(s.ran, g)
  }

  lemma BoundedStep(s: State, l: Label, g: nat)
    requires Shaped(s) && Fresh(s) && Enabled(s, l) && Bounded(s, g)
    ensures Bounded(Apply(s, l), g)
  {
    if l.Switch? {
      ChargeIsInterval(s, l);
    }
    hide Fresh, Enabled, Charge, Interval, Restarted;
  }

  lemma {:induction false} RunBounded(s: State, labels: seq<Label>, t: State, g: nat)
    requires Shaped(s) && Fresh(s) && Run(s, labels, t) && Steady(s, labels) && Bounded(s, g)
    ensures Bounded(t, g)
    decreases |labels|
  {
    hide Fresh, Apply, Enabled, Bounded, LosesUpdate;
    if labels != [] {
      FreshStep(s, labels[0]);
      BoundedStep(s, labels[0], g);
      RunBounded(Apply(s, labels[0]), labels[1..], t, g);
    }
  }

  /** However maps refuse entries and evict, no cgroup is charged more than it ran. */
  lemma NeverOvercharges(s: State, labels: seq<Label>, t: State, g: nat)
    requires Start(s) && Run(s, labels, t) && Steady(s, labels)
    ensures CountAt(t.metrics, g) <= CountAt(t.ran, g)
  {
    RunBounded(s, labels, t, g);
  }

  /** A charge is lost: the map refuses it, or drops or zeroes an entry that holds some. */
  predicate Drops(s: State, l: Label, g: nat)
    requires Shaped(s) && Enabled(s, l)
  {
    match l
    case Evict(j) => j == g && CountAt(s.metrics, g) > 0
    case Zero(j) => j == g && CountAt(s.metrics, g) > 0
    case Switch(_, _, _, cgroup, chargeOk, _) => cgroup == g && Charge(s, l) > 0 && g !in s.metrics && !chargeOk
  }

  ghost predicate NothingDropped(s: State, labels: seq<Label>, g: nat)
    requires Shaped(s)
    decreases |labels|
  {
    labels == [] ||
    (Enabled(s, labels[0]) && !Drops(s, labels[0], g) && NothingDropped(Apply(s, labels[0]), labels[1..], g))
  }

  lemma DropsStep(s: State, l: Label, g: nat)
    requires Shaped(s) && Fresh(s) && Enabled(s, l)
    ensures var t := Apply(s, l);
            var before := CountAt(s.covered, g) - CountAt(s.metrics, g);
            var after := CountAt(t.covered, g) - CountAt(t.metrics, g);
            if Drops(s, l, g) then after > before else after == before
  {
    if l.Switch? {
      ChargeIsInterval(s, l);
    }
    hide Fresh, Enabled, Charge, Interval, Restarted;
  }

  lemma {:induction false} DroppedIff(s: State, labels: seq<Label>, t: State, g: nat)
    requires Shaped(s) && Fresh(s) && Run(s, labels, t) && Steady(s, labels)
    ensures CountAt(t.covered, g) - CountAt(t.metrics, g) >= CountAt(s.covered, g) - CountAt(s.metrics, g)
    ensures CountAt(t.covered, g) - CountAt(t.metrics, g) == CountAt(s.covered, g) - CountAt(s.metrics, g)
            <==> NothingDropped(s, labels, g)
    decreases |labels|
  {
    hide Fresh, Apply, Enabled, Drops, LosesUpdate;
    if labels != [] {
      FreshStep(s, labels[0]);
      DropsStep(s, labels[0], g);
      DroppedIff(Apply(s, labels[0]), labels[1..], t, g);
    }
  }

  /** A cgroup is charged exactly what it ran in the intervals whose start was taken, if and only if
      the metrics map dropped none of its charges. */
  lemma ChargesWhatWasCovered(s: State, labels: seq<Label>, t: State, g: nat)
    requires Start(s) && Run(s, labels, t) && Steady(s, labels)
    ensures CountAt(t.metrics, g) == CountAt(t.covered, g) <==> NothingDropped(s, labels, g)
  {
    hide Run, Steady, NothingDropped, Fresh, OnceEach;
    StartIsFresh(s);
    DroppedIff(s, labels, t, g);
  }

  /** The intervals that go uncharged: non-idle, of some length, and begun without a recorded
      start. */
  predicate Missed(s: State, l: Label, g: nat)
    requires Shaped(s) && Enabled(s, l)
  {
    l.Switch? && l.cgroup == g && !s.noted[l.cpu] && Interval(s, l) > 0
  }

  ghost predicate NothingMissed(s: State, labels: seq<Label>, g: nat)
    requires Shaped(s)
    decreases |labels|
  {
    labels == [] ||
    (Enabled(s, labels[0]) && !Missed(s, labels[0], g) && NothingMissed(Apply(s, labels[0]), labels[1..], g))
  }

  lemma MissedStep(s: State, l: Label, g: nat)
    requires Shaped(s) && Enabled(s, l)
    ensures var t := Apply(s, l);
            var before := CountAt(s.ran, g) - CountAt(s.covered, g);
            var after := CountAt(t.ran, g) - CountAt(t.covered, g);
            if Missed(s, l, g) then after > before else after == before
  {
    hide Restarted, AddCpuTime, ChargeFor;
  }

  lemma {:induction false} CoveredIff(s: State, labels: seq<Label>, t: State, g: nat)
    requires Shaped(s) && Run(s, labels, t) && CountAt(s.covered, g) <= CountAt(s.ran, g)
    ensures CountAt(t.ran, g) - CountAt(t.covered, g) >= CountAt(s.ran, g) - CountAt(s.covered, g)
    ensures CountAt(t.ran, g) - CountAt(t.covered, g) == CountAt(s.ran, g) - CountAt(s.covered, g)
            <==> NothingMissed(s, labels, g)
    decreases |labels|
  {
    hide Apply, Enabled, Missed;
    if labels != [] {
      MissedStep(s, labels[0], g);
      CoveredIff(Apply(s, labels[0]), labels[1..], t, g);
    }
  }

  /** All the time a cgroup ran is charged exactly when none of its intervals began unrecorded and
      none of its charges was dropped. */
  lemma ChargesEverythingIff(s: State, labels: seq<Label>, t: State, g: nat)
    requires Start(s) && Run(s, labels, t) && Steady(s, labels)
    ensures CountAt(t.metrics, g) == CountAt(t.ran, g) <==> NothingMissed(s, labels, g) && NothingDropped(s, labels, g)
  {
    hide Run, Steady, NothingMissed, NothingDropped, Fresh, OnceEach;
    StartIsFresh(s);
    DroppedIff(s, labels, t, g);
    CoveredIff(s, labels, t, g);
  }

  // ---------------------------------------------------------------- capacity

  function SumSeq(xs: seq<nat>): nat
  {
    if xs == [] then 0 else SumSeq(xs[..|xs| - 1]) + xs[|xs| - 1]
  }

  lemma {:induction false} SumSeqUpdate(xs: seq<nat>, i: nat, x: nat)
    requires i < |xs|
    ensures SumSeq(xs[i := x]) == SumSeq(xs) - xs[i] + x
  {
    var n := |xs| - 1;
    if i < n {
      assert xs[i := x][..n] == xs[..n][i := x];
      SumSeqUpdate(xs[..n], i, x);
    } else {
      assert xs[i := x][..n] == xs[..n];
    }
  }

  lemma {:induction false} SumSeqBound(xs: seq<nat>, bound: nat)
    requires forall i :: 0 <= i < |xs| ==> xs[i] <= bound
    ensures SumSeq(xs) <= |xs| * bound
  {
    if xs != [] {
      SumSeqBound(xs[..|xs| - 1], bound);
      assert |xs| * bound == (|xs| - 1) * bound + bound;
    }
  }

  lemma CapacityStep(s: State, l: Label)
    requires Shaped(s) && Fresh(s) && Enabled(s, l)
    ensures Apply(s, l).charged - s.charged <= Apply(s, l).busy - s.busy <= SumSeq(Apply(s, l).since) - SumSeq(s.since)
  {
    if l.Switch? {
      ChargeIsInterval(s, l);
      assert FreshAt(s, l.cpu);
      SumSeqUpdate(s.since, l.cpu, l.at);
      hide SumSeq, Charge, Restarted, AddCpuTime, Add;
    }
  }

  lemma {:induction false} RunCapacity(s: State, labels: seq<Label>, t: State)
    requires Shaped(s) && Fresh(s) && Run(s, labels, t) && Steady(s, labels)
    ensures t.charged - s.charged <= t.busy - s.busy <= SumSeq(t.since) - SumSeq(s.since)
    ensures |t.running| == |s.running|
    decreases |labels|
  {
    hide Fresh, Apply, Enabled, SumSeq, LosesUpdate;
    if labels != [] {
      FreshStep(s, labels[0]);
      CapacityStep(s, labels[0]);
      RunCapacity(Apply(s, labels[0]), labels[1..], t);
    }
  }

  /** All charges together, those of evicted counters included, never exceed the time the CPUs ran
      anything but the idle thread, and that never exceeds the elapsed time on every CPU. */
  lemma WithinCapacity(s: State, labels: seq<Label>, t: State)
    requires Start(s) && Run(s, labels, t) && Steady(s, labels)
    ensures t.charged <= t.busy <= |s.running| * (t.now - s.now)
  {
    hide Run, Steady, Fresh, OnceEach, SumSeq;
    StartIsFresh(s);
    RunFresh(s, labels, t);
    RunCapacity(s, labels, t);
    SumSeqExact(s.since, s.now);
    SinceBound(t);
    assert |s.running| * (t.now - s.now) == |s.running| * t.now - |s.running| * s.now;
  }

  lemma StartIsFresh(s: State)
    requires Start(s)
    ensures Fresh(s)
  {
  }

  lemma SinceBound(t: State)
    requires Shaped(t) && Fresh(t)
    ensures SumSeq(t.since) <= |t.running| * t.now
  {
    forall c | 0 <= c < |t.since| ensures t.since[c] <= t.now {
      assert FreshAt(t, c);
    }
    SumSeqBound(t.since, t.now);
  }

  lemma {:induction false} SumSeqExact(xs: seq<nat>, x: nat)
    requires forall i :: 0 <= i < |xs| ==> xs[i] == x
    ensures SumSeq(xs) == |xs| * x
  {
    if xs != [] {
      SumSeqExact(xs[..|xs| - 1], x);
      assert |xs| * x == (|xs| - 1) * x + x;
    }
  }

  // ---------------------------------------------------------------- the assumption on updates

  /** Every thread runs once and no start lies in the future: this needs nothing about updates. */
  predicate Timely(s: State)
  {
    OnceEach(s) && forall p :: p in s.starts ==> s.starts[p] <= s.now
  }

  lemma TimelyStep(s: State, l: Label)
    requires Shaped(s) && Timely(s) && Enabled(s, l)
    ensures Timely(Apply(s, l)) && Apply(s, l).now >= s.now
  {
    if l.Switch? {
      StillOnce(s, l);
      hide OnceEach, Charge, Interval, Add, AddCpuTime;
    }
  }

  lemma {:induction false} RunTimely(s: State, labels: seq<Label>, t: State)
    requires Shaped(s) && Timely(s) && Run(s, labels, t)
    ensures Shaped(t) && |t.running| == |s.running| && Timely(t) && t.now >= s.now
    decreases |labels|
  {
    hide Timely, Apply, Enabled;
    if labels != [] {
      TimelyStep(s, labels[0]);
      RunTimely(Apply(s, labels[0]), labels[1..], t);
    }
  }

  /** None of the switches is on this CPU. */
  predicate Elsewhere(labels: seq<Label>, cpu: nat)
  {
    forall i :: 0 <= i < |labels| && labels[i].Switch? ==> labels[i].cpu != cpu
  }

  /** The thread on a CPU, when it got there, and its start in the map if there is one. */
  predicate SameThere(s: State, t: State, cpu: nat)
    requires Shaped(s) && Shaped(t) && cpu < |s.running| == |t.running|
  {
    && s.running[cpu] == t.running[cpu] && s.since[cpu] == t.since[cpu]
    && (s.running[cpu] != 0 ==>
          && (s.running[cpu] in s.starts <==> s.running[cpu] in t.starts)
          && (s.running[cpu] in s.starts ==> s.starts[s.running[cpu]] == t.starts[s.running[cpu]]))
  }

  lemma SameThereStep(s: State, l: Label, cpu: nat)
    requires Shaped(s) && Enabled(s, l) && cpu < |s.running| && (l.Switch? ==> l.cpu != cpu)
    ensures SameThere(s, Apply(s, l), cpu)
  {
    hide Charge, Interval, Add, AddCpuTime;
    assert l.Switch? && l.next != 0 ==> s.running[cpu] != l.next;
  }

  lemma {:induction false} RunSameThere(s: State, labels: seq<Label>, t: State, cpu: nat)
    requires Shaped(s) && Run(s, labels, t) && cpu < |s.running| && Elsewhere(labels, cpu)
    ensures Shaped(t) && |t.running| == |s.running| && SameThere(s, t, cpu)
    decreases |labels|
  {
    hide Apply, Enabled;
    if labels != [] {
      SameThereStep(s, labels[0], cpu);
      assert forall i :: 0 <= i < |labels| - 1 ==> labels[1..][i] == labels[i + 1];
      RunSameThere(Apply(s, labels[0]), labels[1..], t, cpu);
    }
  }

  /** By how much a thread whose start is out of date is charged too much. */
  function Staleness(s: State, l: Label): nat
    requires Shaped(s) && Timely(s) && Enabled(s, l)
  {
    if LosesUpdate(s, l) then l.at - s.starts[l.next] else 0
  }

  lemma OverchargeFrom(s: State, l: Label, t: State, m: Label)
    requires l.Switch? && Shaped(s) && Timely(s) && Enabled(s, l)
    requires Shaped(t) && |t.running| == |s.running| && SameThere(Apply(s, l), t, l.cpu) && t.now >= l.at
    requires m.Switch? && m.cpu == l.cpu && Enabled(t, m)
    ensures Charge(t, m) > Interval(t, m) <==> LosesUpdate(s, l)
    ensures Charge(t, m) <= Interval(t, m) + Staleness(s, l)
    ensures LosesUpdate(s, l) ==> Charge(t, m) == Interval(t, m) + Staleness(s, l)
  {
    hide OnceEach, Add, AddCpuTime;
  }

  /** What the other theorems rest on, in every run and with any switches of other CPUs, evictions
      and resets in between: a thread that was switched in is charged more than it ran at the next
      switch of its CPU if and only if the update of its start was lost, and then by exactly the
      age of the start it was left with. */
  lemma OverchargesIff(o: State, before: seq<Label>, s: State, l: Label, between: seq<Label>, t: State, m: Label)
    requires Start(o) && Run(o, before, s) && Shaped(s)
    requires l.Switch? && Enabled(s, l) && Run(Apply(s, l), between, t) && Elsewhere(between, l.cpu)
    requires m.Switch? && m.cpu == l.cpu && Shaped(t) && Enabled(t, m)
    ensures Timely(s)
    ensures Charge(t, m) > Interval(t, m) <==> LosesUpdate(s, l)
    ensures LosesUpdate(s, l) ==> Charge(t, m) == Interval(t, m) + Staleness(s, l)
  {
    hide Run, Elsewhere, Charge, Interval, LosesUpdate, Staleness, SameThere;
    assert Timely(o);
    RunTimely(o, before, s);
    TimelyStep(s, l);
    RunTimely(Apply(s, l), between, t);
    RunSameThere(Apply(s, l), between, t, l.cpu);
    assert Apply(s, l).now == l.at;
    hide Timely, Enabled, Apply;
    OverchargeFrom(s, l, t, m);
  }
}
