/** From cumulative kernel counters to deltas.

    The kernel side counts bytes per flow in a map that evicts; the collector remembers the last
    value it saw of each flow and reports differences.  `NeverOverReports` and `ExactIff` are about
    whole runs of packets, evictions, resets and reads in any interleaving; `CollectedUsageRefines` says that the per-pod usage the collector keeps
    alongside is what the snapshot builder would recompute from the flows. */
module Collector {
  import opened Network

  datatype FlowKey = FlowKey(src: Raw16, dst: Raw16, family: nat, proto: nat)
  datatype Stats = Stats(tx: nat, rx: nat)

  const ZERO_STATS := Stats(0, 0)
  const AF_INET := 2
  const AF_INET6 := 10

  function IpFromFlowKey(raw: Raw16, family: nat): Option<Addr>
  {
    if family == AF_INET then Some(V4(raw[0], raw[1], raw[2], raw[3]))
    else if family == AF_INET6 then Some(V6(raw))
    else None
  }

  function StatsAt(m: map<FlowKey, Stats>, k: FlowKey): Stats
  {
    if k in m then m[k] else ZERO_STATS
  }

  // ---------------------------------------------------------------- the kernel side

  /** `handle_skb` after the headers are parsed: a missing counter is created, unless the map
      refuses, and the packet length is added to one direction. */
  function Count(counters: map<FlowKey, Stats>, k: FlowKey, egress: bool, len: nat, insertOk: bool): map<FlowKey, Stats>
  {
    if k !in counters && !insertOk then counters
    else
      var s := StatsAt(counters, k);
      counters[k := if egress then Stats(s.tx + len, s.rx) else Stats(s.tx, s.rx + len)]
  }

  class FlowTable {
    var counters: map<FlowKey, Stats>

    constructor ()
      ensures counters == map[]
    {
      counters := map[];
    }

    method HandleSkb(k: FlowKey, egress: bool, len: nat, insertOk: bool)
      modifies this
      ensures counters == Count(old(counters), k, egress, len, insertOk)
    {
      if k !in counters {
        if !insertOk {
          return;
        }
        counters := counters[k := ZERO_STATS];
      }
      var s := counters[k];
      counters := counters[k := if egress then Stats(s.tx + len, s.rx) else Stats(s.tx, s.rx + len)];
    }
  }

  // ---------------------------------------------------------------- the collector

  function Diff(current: nat, previous: nat): nat
  {
    if current >= previous then current - previous else current
  }

  /** `deltaStats` */
  function Delta(last: map<FlowKey, Stats>, k: FlowKey, current: Stats): Stats
  {
    if k !in last then current
    else Stats(Diff(current.tx, last[k].tx), Diff(current.rx, last[k].rx))
  }

  type Reading = (FlowKey, Stats)

  /** The source of a reading, if it is a known pod. */
  function SourceOf(podByIP: map<Addr, PodInfo>, k: FlowKey): Option<Addr>
  {
    var src := IpFromFlowKey(k.src, k.family);
    if src.Some? && IpFromFlowKey(k.dst, k.family).Some? && src.value in podByIP then src else None
  }

  datatype Scrape = Scrape(last: map<FlowKey, Stats>, collection: Collection)

  /** `addBytesByClass`: a zero delta leaves no entry. */
  function AddBytes(m: map<string, nat>, cls: string, delta: nat): map<string, nat>
  {
    if delta == 0 then m else m[cls := CountOf(m, cls) + delta]
  }

  function AddDelta(u: Usage, cls: string, delta: Stats): Usage
  {
    Usage(u.tx + delta.tx, u.rx + delta.rx,
          AddBytes(u.txByClass, cls, delta.tx), AddBytes(u.rxByClass, cls, delta.rx))
  }

  /** One pass of the scrape loop. */
  function Visit(global: Addr -> bool, podByIP: map<Addr, PodInfo>, s: Scrape, r: Reading): Scrape
  {
    var source := SourceOf(podByIP, r.0);
    if source.None? then s
    else
      var delta := Delta(s.last, r.0, r.1);
      var last := s.last[r.0 := r.1];
      if delta == ZERO_STATS then Scrape(last, s.collection)
      else
        var src := podByIP[source.value];
        var dst := IpFromFlowKey(r.0.dst, r.0.family).value;
        var key := PodKey(src.namespace, src.pod);
        var cls := ClassifyEgress(global, src, dst, podByIP);
        Scrape(last, Collection(
          s.collection.podUsage[key := AddDelta(UsageOf(s.collection.podUsage, key), cls, delta)],
          s.collection.flows + [Flow(source.value, dst, delta.tx, delta.rx)]))
  }

  function VisitAll(global: Addr -> bool, podByIP: map<Addr, PodInfo>, s: Scrape, rs: seq<Reading>): Scrape
  {
    if rs == [] then s
    else Visit(global, podByIP, VisitAll(global, podByIP, s, rs[..|rs| - 1]), rs[|rs| - 1])
  }

  class FlowCollector {
    var last: map<FlowKey, Stats>

    constructor ()
      ensures last == map[]
    {
      last := map[];
    }

    method DeltaStats(k: FlowKey, current: Stats) returns (delta: Stats)
      modifies this
      ensures delta == Delta(old(last), k, current)
      ensures last == old(last)[k := current]
    {
      if k !in last {
        last := last[k := current];
        return current;
      }
      var previous := last[k];
      delta := Stats(Diff(current.tx, previous.tx), Diff(current.rx, previous.rx));
      last := last[k := current];
    }

    /** `CollectPodNetwork`; `readings` is what iterating the flow map yields, in its order. */
    method CollectPodNetwork(global: Addr -> bool, pods: seq<Pod>, nodes: seq<Node>, readings: seq<Reading>)
      returns (collection: Collection)
      modifies this
      ensures Scrape(last, collection) ==
        VisitAll(global, InfoByIP(Zones(nodes), pods), Scrape(old(last), Collection(map[], [])), readings)
    {
      var podByIP := InfoByIP(Zones(nodes), pods);
      var result: map<string, Usage> := map[];
      var flows: seq<Flow> := [];
      ghost var start := Scrape(last, Collection(map[], []));
      for i := 0 to |readings|
        invariant Scrape(last, Collection(result, flows)) == VisitAll(global, podByIP, start, readings[..i])
      {
        var (key, stats) := readings[i];
        assert readings[..i + 1][..i] == readings[..i];
        var src, dst := IpFromFlowKey(key.src, key.family), IpFromFlowKey(key.dst, key.family);
        if src.Some? && dst.Some? && src.value in podByIP {
          var delta := DeltaStats(key, stats);
          if delta.tx != 0 || delta.rx != 0 {
            flows := flows + [Flow(src.value, dst.value, delta.tx, delta.rx)];
            var srcPod := podByIP[src.value];
            var cls := ClassifyEgress(global, srcPod, dst.value, podByIP);
            var keyStr := PodKey(srcPod.namespace, srcPod.pod);
            var usage := UsageOf(result, keyStr);
            result := result[keyStr := AddDelta(usage, cls, delta)];
          }
        }
      }
      assert readings[..|readings|] == readings;
      collection := Collection(result, flows);
    }
  }

  // ---------------------------------------------------------------- whole runs

  /** Kernel, collector and the two totals per flow: bytes counted and bytes reported. */
  datatype State = State(
    counters: map<FlowKey, Stats>,
    last: map<FlowKey, Stats>,
    counted: map<FlowKey, Stats>,
    reported: map<FlowKey, Stats>)

  datatype Label =
    | Packet(k: FlowKey, egress: bool, len: nat, insertOk: bool)
    | Evict(k: FlowKey)
    | Zero(k: FlowKey)                   // a CPU that also missed k writes its zero counter late
    | Read(k: FlowKey, known: bool)      // the iterator reaches k; is its source a known pod?

  function AddTo(m: map<FlowKey, Stats>, k: FlowKey, s: Stats): map<FlowKey, Stats>
  {
    m[k := Stats(StatsAt(m, k).tx + s.tx, StatsAt(m, k).rx + s.rx)]
  }

  function Step(s: State, l: Label): State
  {
    match l
    case Packet(k, egress, len, insertOk) =>
      s.(counters := Count(s.counters, k, egress, len, insertOk),
         counted := if k !in s.counters && !insertOk then s.counted
                    else AddTo(s.counted, k, if egress then Stats(len, 0) else Stats(0, len)))
    case Evict(k) => s.(counters := s.counters - {k})
    case Zero(k) => s.(counters := s.counters[k := ZERO_STATS])
    case Read(k, known) =>
      if k !in s.counters || !known then s
      else s.(last := s.last[k := s.counters[k]], reported := AddTo(s.reported, k, Delta(s.last, k, s.counters[k])))
  }

  function RunOf(s: State, labels: seq<Label>): State
  {
    if labels == [] then s else Step(RunOf(s, labels[..|labels| - 1]), labels[|labels| - 1])
  }

  /** A collector that starts on a map that may already hold counters. */
  predicate Start(s: State)
  {
    s.last == map[] && s.reported == map[] && s.counted == s.counters
  }

  /** What the next read of `k` with a known source would report. */
  function Owed(s: State, k: FlowKey): Stats
  {
    if k in s.counters then Delta(s.last, k, s.counters[k]) else ZERO_STATS
  }

  predicate AtMost(a: Stats, b: Stats)
  {
    a.tx <= b.tx && a.rx <= b.rx
  }

  /** Reported so far, plus what is owed. */
  function Claim(s: State, k: FlowKey): Stats
  {
    Stats(StatsAt(s.reported, k).tx + Owed(s, k).tx, StatsAt(s.reported, k).rx + Owed(s, k).rx)
  }

  lemma PacketClaim(s: State, k: FlowKey, egress: bool, len: nat, insertOk: bool)
    requires AtMost(Claim(s, k), StatsAt(s.counted, k))
    ensures var t := Step(s, Packet(k, egress, len, insertOk));
            AtMost(Claim(t, k), StatsAt(t.counted, k))
  {
  }

  lemma OtherStep(s: State, l: Label, k: FlowKey)
    requires l.k != k
    ensures var t := Step(s, l);
            && Owed(t, k) == Owed(s, k) && (k in t.counters <==> k in s.counters) && (k in t.last <==> k in s.last)
            && StatsAt(t.reported, k) == StatsAt(s.reported, k) && StatsAt(t.counted, k) == StatsAt(s.counted, k)
  {
  }

  lemma ClaimStep(s: State, l: Label, k: FlowKey)
    requires AtMost(Claim(s, k), StatsAt(s.counted, k))
    ensures AtMost(Claim(Step(s, l), k), StatsAt(Step(s, l).counted, k))
  {
    hide Count;
    if l.k != k {
      OtherStep(s, l, k);
    } else if l.Packet? {
      PacketClaim(s, k, l.egress, l.len, l.insertOk);
    }
  }

  lemma {:induction false} RunClaims(s: State, labels: seq<Label>, k: FlowKey)
    requires Start(s)
    ensures AtMost(Claim(RunOf(s, labels), k), StatsAt(RunOf(s, labels).counted, k))
  {
    if labels != [] {
      RunClaims(s, labels[..|labels| - 1], k);
      ClaimStep(RunOf(s, labels[..|labels| - 1]), labels[|labels| - 1], k);
    }
  }

  /** Whatever is evicted whenever, and whichever pods are known when, the bytes reported for a
      flow never exceed the bytes counted for it. */
  lemma NeverOverReports(s: State, labels: seq<Label>, k: FlowKey)
    requires Start(s)
    ensures AtMost(StatsAt(RunOf(s, labels).reported, k), StatsAt(RunOf(s, labels).counted, k))
  {
    RunClaims(s, labels, k);
  }

  function Along(s: Stats, egress: bool): nat
  {
    if egress then s.tx else s.rx
  }

  /** Bytes go missing: a counter with unreported bytes is evicted or zeroed, or a counter that was
      started over catches up with the value remembered from before, so that the next read takes
      it for a continued one. */
  predicate Loses(s: State, l: Label, k: FlowKey)
  {
    match l
    case Evict(j) => j == k && Owed(s, k) != ZERO_STATS
    case Zero(j) => j == k && Owed(s, k) != ZERO_STATS
    case Read(_, _) => false
    case Packet(j, egress, len, insertOk) =>
      && j == k && k in s.last && (k in s.counters || insertOk)
      && Along(StatsAt(s.counters, k), egress) < Along(s.last[k], egress)
                                              <= Along(StatsAt(s.counters, k), egress) + len
  }

  predicate NothingLost(s: State, labels: seq<Label>, k: FlowKey)
  {
    labels == [] ||
    (NothingLost(s, labels[..|labels| - 1], k) && !Loses(RunOf(s, labels[..|labels| - 1]), labels[|labels| - 1], k))
  }

  /** Bytes counted that were not reported and that no read will report. */
  function Shortfall(s: State, k: FlowKey): int
  {
    StatsAt(s.counted, k).tx + StatsAt(s.counted, k).rx - Claim(s, k).tx - Claim(s, k).rx
  }

  function Grown(s: Stats, egress: bool, len: nat): Stats
  {
    if egress then Stats(s.tx + len, s.rx) else Stats(s.tx, s.rx + len)
  }

  lemma PacketCounts(s: State, k: FlowKey, egress: bool, len: nat, insertOk: bool)
    requires k in s.counters || insertOk
    ensures var t := Step(s, Packet(k, egress, len, insertOk));
            && t.last == s.last && t.reported == s.reported
            && k in t.counters && t.counters[k] == Grown(StatsAt(s.counters, k), egress, len)
            && StatsAt(t.counted, k) == Stats(StatsAt(s.counted, k).tx + if egress then len else 0,
                                              StatsAt(s.counted, k).rx + if egress then 0 else len)
  {
  }

  /** What the next read reports grows by the packet, less what a restarted counter hides when it
      catches up. */
  lemma DeltaGrows(last: map<FlowKey, Stats>, k: FlowKey, before: Stats, egress: bool, len: nat)
    ensures var d, e := Delta(last, k, before), Delta(last, k, Grown(before, egress, len));
            var hides := k in last && Along(before, egress) < Along(last[k], egress) <= Along(before, egress) + len;
            e.tx + e.rx == d.tx + d.rx + len - if hides then Along(last[k], egress) else 0
  {
  }

  lemma OwedAfter(s: State, k: FlowKey)
    ensures Owed(s, k) == Delta(s.last, k, StatsAt(s.counters, k))
  {
  }

  lemma PacketShortfall(s: State, k: FlowKey, egress: bool, len: nat, insertOk: bool)
    ensures var l := Packet(k, egress, len, insertOk);
            if Loses(s, l, k) then Shortfall(Step(s, l), k) > Shortfall(s, k)
            else Shortfall(Step(s, l), k) == Shortfall(s, k)
  {
    var t := Step(s, Packet(k, egress, len, insertOk));
    if k in s.counters || insertOk {
      PacketCounts(s, k, egress, len, insertOk);
      OwedAfter(s, k);
      OwedAfter(t, k);
      DeltaGrows(s.last, k, StatsAt(s.counters, k), egress, len);
      hide Step, Count, Owed, Delta, Grown;
    } else {
      assert t == s;
    }
  }

  lemma RestartShortfall(s: State, l: Label, k: FlowKey)
    requires l == Evict(k) || l == Zero(k)
    ensures if Loses(s, l, k) then Shortfall(Step(s, l), k) > Shortfall(s, k)
            else Shortfall(Step(s, l), k) == Shortfall(s, k)
  {
  }

  lemma ReadShortfall(s: State, k: FlowKey, known: bool)
    ensures Shortfall(Step(s, Read(k, known)), k) == Shortfall(s, k)
  {
  }

  lemma ShortfallStep(s: State, l: Label, k: FlowKey)
    ensures if Loses(s, l, k) then Shortfall(Step(s, l), k) > Shortfall(s, k)
            else Shortfall(Step(s, l), k) == Shortfall(s, k)
  {
    if l.k != k {
      OtherStep(s, l, k);
      hide Step, Owed;
    } else {
      hide Shortfall, Step, Owed;
      if l.Packet? {
        PacketShortfall(s, k, l.egress, l.len, l.insertOk);
      } else if l.Read? {
        ReadShortfall(s, k, l.known);
      } else {
        RestartShortfall(s, l, k);
      }
    }
  }

  lemma {:induction false} RunShortfall(s: State, labels: seq<Label>, k: FlowKey)
    requires Start(s)
    ensures Shortfall(RunOf(s, labels), k) >= 0
    ensures Shortfall(RunOf(s, labels), k) == 0 <==> NothingLost(s, labels, k)
  {
    hide Shortfall, Step, Loses;
    if labels == [] {
      StartShortfall(s, k);
    } else {
      RunShortfall(s, labels[..|labels| - 1], k);
      ShortfallStep(RunOf(s, labels[..|labels| - 1]), labels[|labels| - 1], k);
    }
  }

  lemma StartShortfall(s: State, k: FlowKey)
    requires Start(s)
    ensures Shortfall(s, k) == 0
  {
  }

  lemma ReadSettles(s: State, k: FlowKey)
    ensures var t := Step(s, Read(k, true));
            Owed(t, k) == ZERO_STATS && Shortfall(t, k) == Shortfall(s, k)
  {
  }

  /** A read that finds its source pod known brings the total reported up to the total counted if
      and only if no step of the run lost bytes: whatever was evicted or zeroed in between, and
      whether or not earlier reads knew the pod. */
  lemma ExactIff(s: State, labels: seq<Label>, k: FlowKey)
    requires Start(s)
    ensures var t := RunOf(s, labels + [Read(k, true)]);
            StatsAt(t.reported, k) == StatsAt(t.counted, k) <==> NothingLost(s, labels, k)
  {
    hide Step, Owed, Loses, Start;
    var more := labels + [Read(k, true)];
    assert more[..|labels|] == labels && more[|labels|] == Read(k, true);
    RunShortfall(s, labels, k);
    ReadSettles(RunOf(s, labels), k);
    NeverOverReports(s, more, k);
  }

  predicate NoRestart(labels: seq<Label>, k: FlowKey)
  {
    forall i :: 0 <= i < |labels| ==> labels[i] != Evict(k) && labels[i] != Zero(k)
  }

  /** A counter that is never started over does not fall behind the remembered value. */
  predicate Ahead(s: State, k: FlowKey)
  {
    k in s.last ==> k in s.counters && AtMost(s.last[k], s.counters[k])
  }

  lemma AheadStep(s: State, l: Label, k: FlowKey)
    requires Ahead(s, k) && l != Evict(k) && l != Zero(k)
    ensures Ahead(Step(s, l), k) && !Loses(s, l, k)
  {
  }

  lemma {:induction false} RunAhead(s: State, labels: seq<Label>, k: FlowKey)
    requires Start(s) && NoRestart(labels, k)
    ensures Ahead(RunOf(s, labels), k) && NothingLost(s, labels, k)
  {
    hide Step, Loses;
    if labels != [] {
      RunAhead(s, labels[..|labels| - 1], k);
      AheadStep(RunOf(s, labels[..|labels| - 1]), labels[|labels| - 1], k);
    }
  }

  /** In particular, reporting is exact as long as the flow's counter is never started over. */
  lemma ExactWithoutRestart(s: State, labels: seq<Label>, k: FlowKey)
    requires Start(s) && NoRestart(labels, k)
    ensures var t := RunOf(s, labels + [Read(k, true)]);
            StatsAt(t.reported, k) == StatsAt(t.counted, k)
  {
    hide Step, Loses, Start;
    RunAhead(s, labels, k);
    ExactIff(s, labels, k);
  }

  /** Both ways of losing bytes, on any flow that is counted for the first time: evicted before it
      was read, and evicted after a read of `first` bytes with at least as many to come. */
  lemma EvictionLoses(s: State, k: FlowKey, first: nat, more: nat)
    requires Start(s) && k !in s.counters && 0 < first <= more
    ensures !NothingLost(s, [Packet(k, true, first, true), Evict(k)], k)
    ensures !NothingLost(s, [Packet(k, true, first, true), Read(k, true), Evict(k), Packet(k, true, more, true)], k)
  {
    var p, r, e, q := Packet(k, true, first, true), Read(k, true), Evict(k), Packet(k, true, more, true);
    var s1 := Step(s, p);
    var s2 := Step(s1, r);
    assert [p, r, e, q][..3] == [p, r, e] && [p, r, e][..2] == [p, r] && [p, r][..1] == [p] && [p, e][..1] == [p] && [p][..0] == [];
    RunOne(s, p);
    hide NothingLost, Start;
    assert RunOf(s, [p, r]) == s2;
    assert RunOf(s, [p, r, e]) == Step(s2, e);
    assert s1.counters[k] == Stats(first, 0) && k !in s1.last;
    assert s2.last[k] == Stats(first, 0);
    assert Loses(s1, e, k) && Loses(Step(s2, e), q, k);
    LastLoses(s, [p, e], k);
    LastLoses(s, [p, r, e, q], k);
  }

  lemma RunOne(s: State, l: Label)
    ensures RunOf(s, [l]) == Step(s, l)
  {
    assert [l][..0] == [];
  }

  lemma LastLoses(s: State, labels: seq<Label>, k: FlowKey)
    requires labels != [] && Loses(RunOf(s, labels[..|labels| - 1]), labels[|labels| - 1], k)
    ensures !NothingLost(s, labels, k)
  {
  }

  /** The scrape loop does to `last` and to the deltas what reads do. */
  lemma VisitIsRead(global: Addr -> bool, podByIP: map<Addr, PodInfo>, c: Collection, s: State, k: FlowKey)
    requires k in s.counters
    ensures var known := SourceOf(podByIP, k).Some?;
            var t := Step(s, Read(k, known));
            var v := Visit(global, podByIP, Scrape(s.last, c), (k, s.counters[k]));
            && v.last == t.last
            && (known ==>
                  var d := Delta(s.last, k, s.counters[k]);
                  && StatsAt(t.reported, k) == Stats(StatsAt(s.reported, k).tx + d.tx, StatsAt(s.reported, k).rx + d.rx)
                  && v.collection.flows == c.flows +
                       if d == ZERO_STATS then []
                       else [Flow(SourceOf(podByIP, k).value, IpFromFlowKey(k.dst, k.family).value, d.tx, d.rx)])
            && (!known ==> t.reported == s.reported && v.collection == c)
  {
  }

  // ---------------------------------------------------------------- the usage kept alongside

  /** `sparse` is `full` without its zero entries. */
  ghost predicate Sparse(sparse: map<string, nat>, full: map<string, nat>)
  {
    && (forall c :: c in full && full[c] > 0 ==> c in sparse && sparse[c] == full[c])
    && (forall c :: c in sparse ==> c in full && sparse[c] == full[c] && full[c] > 0)
  }

  /** The collector's record of a pod against the recomputed one: the same totals, and the same
      class totals up to zero entries, where a class the recomputation lists has bytes in at
      least one direction. */
  ghost predicate UsageRefines(kept: Usage, full: Usage)
  {
    && kept.tx == full.tx && kept.rx == full.rx
    && Sparse(kept.txByClass, full.txByClass) && Sparse(kept.rxByClass, full.rxByClass)
    && full.txByClass.Keys == full.rxByClass.Keys
    && (forall c :: c in full.txByClass ==> full.txByClass[c] > 0 || full.rxByClass[c] > 0)
    && (full.tx > 0 ==> exists c :: c in kept.txByClass)
    && (full.rx > 0 ==> exists c :: c in kept.rxByClass)
    && full.txByClass.Keys != {}
  }

  ghost predicate Refines(kept: map<string, Usage>, full: map<string, Usage>)
  {
    kept.Keys == full.Keys && forall k :: k in kept ==> UsageRefines(kept[k], full[k])
  }

  lemma SparseAdd(sparse: map<string, nat>, full: map<string, nat>, cls: string, delta: nat)
    requires Sparse(sparse, full)
    ensures Sparse(AddBytes(sparse, cls, delta), full[cls := CountOf(full, cls) + delta])
    ensures delta > 0 || (exists c :: c in sparse) ==> exists c :: c in AddBytes(sparse, cls, delta)
  {
    if delta > 0 {
      assert cls in AddBytes(sparse, cls, delta);
    }
  }

  lemma AddRefines(kept: Usage, full: Usage, cls: string, delta: Stats)
    requires UsageRefines(kept, full) || (kept == NO_USAGE && full == NO_USAGE)
    requires delta != ZERO_STATS
    ensures UsageRefines(AddDelta(kept, cls, delta), AddFlow(full, cls, delta.tx, delta.rx))
  {
    hide Sparse, AddBytes;
    EmptySparse();
    SparseAdd(kept.txByClass, full.txByClass, cls, delta.tx);
    SparseAdd(kept.rxByClass, full.rxByClass, cls, delta.rx);
  }

  lemma EmptySparse()
    ensures Sparse(map[], map[])
  {
  }

  lemma {:induction false} CollectedUsageRefines(global: Addr -> bool, podByIP: map<Addr, PodInfo>,
      last: map<FlowKey, Stats>, rs: seq<Reading>)
    ensures var c := VisitAll(global, podByIP, Scrape(last, Collection(map[], [])), rs).collection;
            Refines(c.podUsage, AggregateFlows(global, c.flows, podByIP))
  {
    hide UsageRefines, ClassifyEgress, AddDelta, AddFlow;
    if rs != [] {
      var init, r := rs[..|rs| - 1], rs[|rs| - 1];
      CollectedUsageRefines(global, podByIP, last, init);
      var s := VisitAll(global, podByIP, Scrape(last, Collection(map[], [])), init);
      var source, delta := SourceOf(podByIP, r.0), Delta(s.last, r.0, r.1);
      if source.Some? && delta != ZERO_STATS {
        var src, dst := podByIP[source.value], IpFromFlowKey(r.0.dst, r.0.family).value;
        var key, cls := PodKey(src.namespace, src.pod), ClassifyEgress(global, src, dst, podByIP);
        var flows := s.collection.flows + [Flow(source.value, dst, delta.tx, delta.rx)];
        assert flows[..|flows| - 1] == s.collection.flows;
        var full := AggregateFlows(global, s.collection.flows, podByIP);
        AddRefines(UsageOf(s.collection.podUsage, key), UsageOf(full, key), cls, delta);
      }
    }
  }

  // ---------------------------------------------------------------- addresses on the wire

  /** The sixteen address bytes of a key as `fill_ipv4` and `fill_ipv6` leave them: an IPv4 address
      takes the first four, in network order. */
  function Filled(addr: Addr): Raw16
    requires addr != NoAddr
  {
    match addr
    case V4(a, b, c, d) => [a, b, c, d, 0, 0, 0, 0, 0, 0, 0, 0, 0, 0, 0, 0]
    case V6(raw) => raw
  }

  /** AF_INET and AF_INET6. */
  function FamilyOf(addr: Addr): nat
    requires addr != NoAddr
  {
    if addr.V4? then 2 else 10
  }

  /** Every address comes back from its bytes and family; no other family is read at all. */
  lemma AddressRoundTrip(addr: Addr, raw: Raw16, family: nat)
    ensures addr != NoAddr ==> IpFromFlowKey(Filled(addr), FamilyOf(addr)) == Some(addr)
    ensures family != 2 && family != 10 ==> IpFromFlowKey(raw, family) == None
    ensures IpFromFlowKey(raw, family).Some? ==>
      IpFromFlowKey(raw, family).value != NoAddr && FamilyOf(IpFromFlowKey(raw, family).value) == family
  {
  }

  /** The key the kernel counts a packet between two addresses under. */
  function KeyBetween(src: Addr, dst: Addr, proto: nat): FlowKey
    requires src != NoAddr && dst != NoAddr && FamilyOf(src) == FamilyOf(dst)
  {
    FlowKey(Filled(src), Filled(dst), FamilyOf(src), proto)
  }

  /** No counter is read twice: the readings come from iterating a map. */
  predicate ReadOnce(rs: seq<Reading>)
  {
    forall i, j :: 0 <= i < j < |rs| ==> rs[i].0 != rs[j].0
  }

  lemma {:induction false} LastIsKept(global: Addr -> bool, podByIP: map<Addr, PodInfo>, s: Scrape, rs: seq<Reading>, k: FlowKey)
    requires forall i :: 0 <= i < |rs| ==> rs[i].0 != k
    ensures var last := VisitAll(global, podByIP, s, rs).last;
            (k in last <==> k in s.last) && (k in last ==> last[k] == s.last[k])
  {
    if rs != [] {
      LastIsKept(global, podByIP, s, rs[..|rs| - 1], k);
      hide AddDelta, ClassifyEgress, IpFromFlowKey;
    }
  }

  /** A reading from a known pod with new bytes gives this flow. */
  ghost predicate Reports(podByIP: map<Addr, PodInfo>, last: map<FlowKey, Stats>, r: Reading, f: Flow)
  {
    && f.src in podByIP
    && IpFromFlowKey(r.0.src, r.0.family) == Some(f.src) && IpFromFlowKey(r.0.dst, r.0.family) == Some(f.dst)
    && Stats(f.tx, f.rx) == Delta(last, r.0, r.1) != ZERO_STATS
  }

  /** One turn of the loop adds at most one flow. */
  lemma VisitReports(global: Addr -> bool, podByIP: map<Addr, PodInfo>, s: Scrape, r: Reading, f: Flow)
    ensures f in Visit(global, podByIP, s, r).collection.flows <==>
      f in s.collection.flows || Reports(podByIP, s.last, r, f)
  {
    hide IpFromFlowKey, ClassifyEgress, AddDelta, Delta;
  }

  /** The flows of a scrape are those of the readings from known pods with new bytes, no others. */
  lemma {:induction false} FlowsReported(global: Addr -> bool, podByIP: map<Addr, PodInfo>, s: Scrape, rs: seq<Reading>, f: Flow)
    requires ReadOnce(rs)
    ensures f in VisitAll(global, podByIP, s, rs).collection.flows <==>
      f in s.collection.flows || exists i :: 0 <= i < |rs| && Reports(podByIP, s.last, rs[i], f)
  {
    hide Visit, Reports;
    if rs != [] {
      var init, r := rs[..|rs| - 1], rs[|rs| - 1];
      var m := VisitAll(global, podByIP, s, init);
      FlowsReported(global, podByIP, s, init, f);
      VisitReports(global, podByIP, m, r, f);
      LastIsKept(global, podByIP, s, init, r.0);
      ReportsSame(podByIP, m.last, s.last, r, f);
      assert forall i :: 0 <= i < |init| ==> init[i] == rs[i];
    }
  }

  lemma ReportsSame(podByIP: map<Addr, PodInfo>, m: map<FlowKey, Stats>, n: map<FlowKey, Stats>, r: Reading, f: Flow)
    requires (r.0 in m <==> r.0 in n) && (r.0 in m ==> m[r.0] == n[r.0])
    ensures Reports(podByIP, m, r, f) <==> Reports(podByIP, n, r, f)
  {
  }

  /** The bytes of the flows of one pod, of one class or of all. */
  function BytesOf(global: Addr -> bool, podByIP: map<Addr, PodInfo>, flows: seq<Flow>, key: string, cls: Option<string>): Stats
  {
    if flows == [] then ZERO_STATS
    else
      var init, flow := BytesOf(global, podByIP, flows[..|flows| - 1], key, cls), flows[|flows| - 1];
      if && flow.src in podByIP && PodKey(podByIP[flow.src].namespace, podByIP[flow.src].pod) == key
         && (cls.None? || cls.value == ClassifyEgress(global, podByIP[flow.src], flow.dst, podByIP))
      then Stats(init.tx + flow.tx, init.rx + flow.rx) else init
  }

  lemma {:induction false} AggregatedBytes(global: Addr -> bool, podByIP: map<Addr, PodInfo>, flows: seq<Flow>, key: string, cls: string)
    ensures var u := UsageOf(AggregateFlows(global, flows, podByIP), key);
            && Stats(u.tx, u.rx) == BytesOf(global, podByIP, flows, key, None)
            && Stats(CountOf(u.txByClass, cls), CountOf(u.rxByClass, cls)) == BytesOf(global, podByIP, flows, key, Some(cls))
  {
    hide ClassifyEgress, PodKey;
    if flows != [] {
      AggregatedBytes(global, podByIP, flows[..|flows| - 1], key, cls);
    }
  }

  lemma SparseCount(sparse: map<string, nat>, full: map<string, nat>, cls: string)
    requires Sparse(sparse, full)
    ensures CountOf(sparse, cls) == CountOf(full, cls)
  {
  }

  /** The usage the collector keeps for a pod is its flows added up, over all and by class, in both
      directions. */
  lemma UsageIsItsFlows(global: Addr -> bool, podByIP: map<Addr, PodInfo>, last: map<FlowKey, Stats>, rs: seq<Reading>,
      key: string, cls: string)
    ensures var c := VisitAll(global, podByIP, Scrape(last, Collection(map[], [])), rs).collection;
            var u := UsageOf(c.podUsage, key);
            && Stats(u.tx, u.rx) == BytesOf(global, podByIP, c.flows, key, None)
            && Stats(CountOf(u.txByClass, cls), CountOf(u.rxByClass, cls)) == BytesOf(global, podByIP, c.flows, key, Some(cls))
  {
    var c := VisitAll(global, podByIP, Scrape(last, Collection(map[], [])), rs).collection;
    CollectedUsageRefines(global, podByIP, last, rs);
    AggregatedBytes(global, podByIP, c.flows, key, cls);
    hide VisitAll, AggregateFlows, Sparse, BytesOf;
    if key in c.podUsage {
      var kept, full := c.podUsage[key], AggregateFlows(global, c.flows, podByIP)[key];
      SparseCount(kept.txByClass, full.txByClass, cls);
      SparseCount(kept.rxByClass, full.rxByClass, cls);
    }
  }

  /** From the wire to the report: traffic counted by the kernel between the address of a listed pod
      and any other address of its family, with bytes not reported yet, is reported as a flow between
      these two addresses and counted for the pod. */
  lemma ListedPodIsReported(global: Addr -> bool, pods: seq<Pod>, nodes: seq<Node>, last: map<FlowKey, Stats>,
      rs: seq<Reading>, i: nat, src: Addr, dst: Addr, proto: nat)
    requires ReadOnce(rs) && i < |rs|
    requires src in PodsByIP(pods) && src != NoAddr && dst != NoAddr && FamilyOf(src) == FamilyOf(dst)
    requires rs[i].0 == KeyBetween(src, dst, proto) && Delta(last, rs[i].0, rs[i].1) != ZERO_STATS
    ensures var c := VisitAll(global, InfoByIP(Zones(nodes), pods), Scrape(last, Collection(map[], [])), rs).collection;
            var p, d := PodsByIP(pods)[src], Delta(last, rs[i].0, rs[i].1);
            && p in pods && Flow(src, dst, d.tx, d.rx) in c.flows
            && KeyOf(p) in c.podUsage
            && c.podUsage[KeyOf(p)].tx >= d.tx && c.podUsage[KeyOf(p)].rx >= d.rx
  {
    var podByIP := InfoByIP(Zones(nodes), pods);
    var c, d := VisitAll(global, podByIP, Scrape(last, Collection(map[], [])), rs).collection, Delta(last, rs[i].0, rs[i].1);
    var p, f := PodsByIP(pods)[src], Flow(src, dst, d.tx, d.rx);
    PodsByIPHas(pods, src);
    AddressRoundTrip(src, rs[i].0.src, 0);
    AddressRoundTrip(dst, rs[i].0.dst, 0);
    assert PodKey(podByIP[src].namespace, podByIP[src].pod) == KeyOf(p);
    hide VisitAll, IpFromFlowKey, Filled, FamilyOf, PodsByIP, Zones, PodKey, Delta;
    assert Reports(podByIP, last, rs[i], f);
    hide Reports;
    FlowsReported(global, podByIP, Scrape(last, Collection(map[], [])), rs, f);
    UsageIsItsFlows(global, podByIP, last, rs, KeyOf(p), "");
    BytesCover(global, podByIP, c.flows, f, KeyOf(p));
  }

  lemma {:induction false} BytesCover(global: Addr -> bool, podByIP: map<Addr, PodInfo>, flows: seq<Flow>, f: Flow, key: string)
    requires f in flows && f.src in podByIP && PodKey(podByIP[f.src].namespace, podByIP[f.src].pod) == key
    ensures var b := BytesOf(global, podByIP, flows, key, None);
            b.tx >= f.tx && b.rx >= f.rx
  {
    hide PodKey;
    var init, last := flows[..|flows| - 1], flows[|flows| - 1];
    if last != f {
      assert flows == init + [last];
      BytesCover(global, podByIP, init, f, key);
    }
  }
}
