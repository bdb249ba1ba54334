/** No report is lost unaccounted for, in any interleaving of Enqueue with the flusher.

    `HeldStep` is the conservation law with every loss of the code counted; `LossExactly` says
    which steps lose a report; `Conservation` concludes, for whole runs, when nothing is lost. */
module QueueConservation {
  import opened SpoolNames
  import opened QueueModel

  /** Reports taken out of the buffer whose send is not settled. */
  function InFlight(f: Flusher): multiset<Report>
  {
    match f
    case SendingMemory(batch) => multiset(batch)
    case SpillingMemory(rest) => multiset(rest)
    case _ => multiset{}
  }

  /** How often `r` sits in the buffer, in a batch in flight, in the spool, in the failed
      directory, among the acknowledged reports. */
  ghost function Kept(s: State, r: Report): nat
  {
    multiset(s.mem)[r] + InFlight(s.flusher)[r] + Contents(s.spool)[r] + Contents(s.failed)[r] + s.past.acked[r]
  }

  /** ... or has been dropped. */
  ghost function Held(s: State, r: Report): nat
  {
    Kept(s, r) + s.past.lost[r]
  }

  /** Every accepted report is accounted for, counting multiplicities. */
  ghost predicate Accounted(s: State)
  {
    forall r :: s.past.accepted[r] == Held(s, r)
  }

  function One(r: Report, x: Report): nat
  {
    if r == x then 1 else 0
  }

  lemma HeldWrite(s: State, r: Report, w: Write, x: Report)
    ensures Held(WriteToDisk(s, r, w), x) == Held(s, x) + One(r, x)
  {
    if w.ok {
      var now := Clock(s, w.at);
      var f := File(r, now, Written, now, 0, 0, true);
      ContentsWith(s.spool, NewName(s, w), f);
      assert (Contents(s.spool[NewName(s, w) := f]) + Overwritten(s.spool, NewName(s, w)))[x]
          == Contents(s.spool)[x] + multiset{r}[x];
    }
  }

  /** A file moved into another directory, over a file of the same name if there is one. */
  lemma ContentsMoved(from: map<string, File>, to: map<string, File>, n: string, f: File, m: string, x: Report)
    requires n in from && f.report == from[n].report
    ensures Contents(from - {n})[x] + Contents(to[m := f])[x] + Overwritten(to, m)[x]
         == Contents(from)[x] + Contents(to)[x]
  {
    ContentsWithout(from, n);
    ContentsWith(to, m, f);
    assert (Contents(to[m := f]) + Overwritten(to, m))[x] == (Contents(to) + multiset{f.report})[x];
  }

  lemma HeldMove(s: State, name: string, ok: bool, x: Report)
    ensures Held(MoveToFailed(s, name, ok), x) == Held(s, x)
  {
    if ok && name in s.spool {
      ContentsMoved(s.spool, s.failed, name, s.spool[name], name, x);
    }
  }

  lemma HeldScan(c: Config, s: State, io: ScanIo, x: Report)
    requires ValidConfig(c) && s.flusher.Scanning? && s.flusher.todo != []
    ensures Held(ScanHead(c, s, io), x) == Held(s, x)
  {
    hide Held, MoveToFailed, ParseRetries, Backoff.Duration;
    var Scanning(todo, picked, bytes, started) := s.flusher;
    var skip := s.(flusher := Scanning(todo[1..], picked, bytes, started));
    HeldMove(skip, todo[0], io.moveOk, x);
    HeldQuiet(s, skip, x);
    var t := ScanHead(c, s, io);
    if |picked| < c.maxBatch && ParseRetries(todo[0]) > c.maxRetries {
      assert t == MoveToFailed(skip, todo[0], io.moveOk);
    } else {
      assert t == s.(flusher := t.flusher) && t.flusher.Scanning?;
      HeldQuiet(s, t, x);
    }
  }

  /** Dropping one file of a directory and booking its report as `gone`. */
  lemma ContentsGone(dir: map<string, File>, n: string, x: Report)
    requires n in dir
    ensures Contents(dir)[x] == Contents(dir - {n})[x] + One(dir[n].report, x)
  {
    ContentsWithout(dir, n);
    assert Contents(dir)[x] == (Contents(dir - {n}) + multiset{dir[n].report})[x];
  }

  lemma OneOf(a: multiset<Report>, b: multiset<Report>, r: Report, x: Report)
    ensures (a + multiset{r})[x] == a[x] + One(r, x) && (b + multiset{r})[x] == b[x] + One(r, x)
  {
  }

  lemma HeldRemove(s: State, ok: bool, x: Report)
    requires s.flusher.Removing? && s.flusher.removals != []
    ensures Held(RemoveHead(s, ok), x) == Held(s, x)
  {
    hide Contents;
    var Removing(names, readable) := s.flusher;
    var t := RemoveHead(s, ok);
    assert InFlight(t.flusher) == InFlight(s.flusher) == multiset{};
    if ok && names[0] in s.spool {
      ContentsGone(s.spool, names[0], x);
      assert t.spool == s.spool - {names[0]} && t.failed == s.failed && t.mem == s.mem;
      OneOf(s.past.acked, s.past.lost, s.spool[names[0]].report, x);
    }
  }

  /** A rename within the directory. */
  lemma ContentsRenamed(dir: map<string, File>, n: string, f: File, m: string, x: Report)
    requires n in dir && f.report == dir[n].report
    ensures Contents((dir - {n})[m := f])[x] + Overwritten(dir - {n}, m)[x] == Contents(dir)[x]
  {
    ContentsWithout(dir, n);
    ContentsWith(dir - {n}, m, f);
    assert (Contents((dir - {n})[m := f]) + Overwritten(dir - {n}, m))[x] == Contents(dir)[x];
  }

  lemma HeldBump(s: State, at: nat, touchOk: bool, renameOk: bool, x: Report)
    requires s.flusher.Bumping? && s.flusher.bumps != []
    ensures Held(BumpHead(s, at, touchOk, renameOk), x) == Held(s, x)
  {
    var name := s.flusher.bumps[0];
    var t := BumpHead(s, at, touchOk, renameOk);
    assert InFlight(t.flusher) == InFlight(s.flusher) == multiset{};
    if name in s.spool {
      var dst := if renameOk then Bumped(name) else name;
      ContentsRenamed(s.spool, name, BumpFile(s.spool[name], t.now, touchOk, renameOk), dst, x);
    }
  }

  lemma HeadAndTail(rs: seq<Report>, x: Report)
    requires rs != []
    ensures multiset(rs)[x] == One(rs[0], x) + multiset(rs[1..])[x]
    ensures |rs| == 1 ==> rs[1..] == []
  {
    assert rs == [rs[0]] + rs[1..];
    assert multiset(rs) == multiset{rs[0]} + multiset(rs[1..]);
  }

  lemma Split(rs: seq<Report>, n: nat, x: Report)
    requires n <= |rs|
    ensures multiset(rs)[x] == multiset(rs[..n])[x] + multiset(rs[n..])[x]
  {
    assert rs == rs[..n] + rs[n..];
    assert multiset(rs) == multiset(rs[..n]) + multiset(rs[n..]);
  }

  lemma HeldAccept(c: Config, s: State, r: Report, x: Report)
    requires ValidConfig(c) && Enabled(c, s, Accept(r))
    ensures Held(Apply(c, s, Accept(r)), x) == Held(s, x) + One(r, x)
  {
    assert multiset(s.mem + [r]) == multiset(s.mem) + multiset{r};
  }

  lemma HeldSpillOldest(c: Config, s: State, w: Write, x: Report)
    requires ValidConfig(c) && Enabled(c, s, SpillOldest(w))
    ensures Held(Apply(c, s, SpillOldest(w)), x) == Held(s, x)
  {
    if s.mem != [] {
      var popped := s.(mem := s.mem[1..], memBytes := s.memBytes - s.mem[0].size);
      assert Apply(c, s, SpillOldest(w)) == WriteToDisk(popped, s.mem[0], w);
      HeadAndTail(s.mem, x);
      assert Held(popped, x) + One(s.mem[0], x) == Held(s, x);
      HeldWrite(popped, s.mem[0], w, x);
    }
  }

  lemma HeldSpillUnsent(c: Config, s: State, w: Write, x: Report)
    requires ValidConfig(c) && Enabled(c, s, SpillUnsent(w))
    ensures Held(Apply(c, s, SpillUnsent(w)), x) == Held(s, x)
  {
    var rest := s.flusher.spills;
    var popped := s.(flusher := if |rest| == 1 then Idle else SpillingMemory(rest[1..]));
    HeadAndTail(rest, x);
    assert Held(popped, x) + One(rest[0], x) == Held(s, x);
    HeldWrite(popped, rest[0], w, x);
  }

  lemma HeldTakeBatch(c: Config, s: State, x: Report)
    requires ValidConfig(c) && Enabled(c, s, TakeBatch)
    ensures Held(Apply(c, s, TakeBatch), x) == Held(s, x)
  {
    Split(s.mem, BatchLength(c, s.mem, 0, 0), x);
  }

  lemma HeldSendMemory(c: Config, s: State, ok: bool, x: Report)
    requires ValidConfig(c) && Enabled(c, s, SendMemory(ok))
    ensures Held(Apply(c, s, SendMemory(ok)), x) == Held(s, x)
  {
    var t := Apply(c, s, SendMemory(ok));
    if ok {
      assert t.past.acked == s.past.acked + multiset(s.flusher.mems);
    } else {
      assert InFlight(t.flusher) == multiset(s.flusher.mems);
    }
  }

  function AcceptedBy(l: Label, x: Report): nat
  {
    match l
    case Accept(r) => One(r, x)
    case AcceptToDisk(r, w) => if w.ok then One(r, x) else 0
    case _ => 0
  }

  predicate InMemory(l: Label)
  {
    l.Accept? || l.SpillOldest? || l.Release? || l.AcceptToDisk? || l.TakeBatch? || l.SendMemory? || l.SpillUnsent?
  }

  lemma HeldMemoryStep(c: Config, s: State, l: Label, x: Report)
    requires ValidConfig(c) && Enabled(c, s, l) && InMemory(l)
    ensures Held(Apply(c, s, l), x) == Held(s, x) + AcceptedBy(l, x)
  {
    match l
    case Accept(r) => HeldAccept(c, s, r, x);
    case SpillOldest(w) => HeldSpillOldest(c, s, w, x);
    case AcceptToDisk(r, w) => HeldWrite(s.(past := s.past.Accept(r)), r, w, x);
    case TakeBatch => HeldTakeBatch(c, s, x);
    case SendMemory(ok) => HeldSendMemory(c, s, ok, x);
    case SpillUnsent(w) => HeldSpillUnsent(c, s, w, x);
    case Release =>
  }

  lemma HeldQuiet(s: State, t: State, x: Report)
    requires t.mem == s.mem && t.spool == s.spool && t.failed == s.failed
    requires InFlight(t.flusher) == InFlight(s.flusher)
    requires t.past.acked == s.past.acked && t.past.lost == s.past.lost
    ensures Held(t, x) == Held(s, x)
  {
  }

  lemma HeldSendDisk(c: Config, s: State, decoded: set<string>, ok: bool, x: Report)
    requires ValidConfig(c) && Enabled(c, s, SendDisk(decoded, ok))
    ensures Held(Apply(c, s, SendDisk(decoded, ok)), x) == Held(s, x)
  {
    HeldQuiet(s, Apply(c, s, SendDisk(decoded, ok)), x);
  }

  lemma HeldDiskStep(c: Config, s: State, l: Label, x: Report)
    requires ValidConfig(c) && Enabled(c, s, l) && !InMemory(l)
    ensures Held(Apply(c, s, l), x) == Held(s, x)
  {
    hide Held, ScanHead, RemoveHead, BumpHead, IsListing, DecodedReports, Over;
    match l
    case SeeEmpty => HeldQuiet(s, s.(flusher := FoundMemoryEmpty), x);
    case GiveUp => HeldQuiet(s, s.(flusher := Idle), x);
    case ReadDir(at, listing) =>
      HeldQuiet(s, s.(now := Clock(s, at), flusher := Scanning(listing, [], 0, Clock(s, at))), x);
    case ScanNext(io) => HeldScan(c, s, io, x);
    case EndScan =>
      HeldQuiet(s, s.(flusher := if s.flusher.picked == [] then Idle else SendingDisk(s.flusher.picked, s.flusher.started)), x);
    case SendDisk(decoded, ok) => HeldSendDisk(c, s, decoded, ok, x);
    case RemoveNext(ok) => HeldRemove(s, ok, x);
    case BumpNext(at, touchOk, renameOk) => HeldBump(s, at, touchOk, renameOk, x);
  }

  /** Whatever the environment does, a step changes what is held exactly by what it accepts. */
  lemma HeldStep(c: Config, s: State, l: Label, x: Report)
    requires ValidConfig(c) && Enabled(c, s, l)
    ensures Held(Apply(c, s, l), x) == Held(s, x) + AcceptedBy(l, x)
  {
    if InMemory(l) {
      HeldMemoryStep(c, s, l, x);
    } else {
      HeldDiskStep(c, s, l, x);
    }
  }

  lemma AcceptedWrite(s: State, r: Report, w: Write)
    ensures WriteToDisk(s, r, w).past.accepted == s.past.accepted
  {
  }

  lemma AcceptMemoryStep(c: Config, s: State, l: Label, x: Report)
    requires ValidConfig(c) && Enabled(c, s, l) && InMemory(l)
    ensures Apply(c, s, l).past.accepted[x] == s.past.accepted[x] + AcceptedBy(l, x)
  {
    hide WriteToDisk, Sizes, BatchLength, Over;
    match l
    case SpillOldest(w) =>
      if s.mem != [] {
        AcceptedWrite(s.(mem := s.mem[1..], memBytes := s.memBytes - s.mem[0].size), s.mem[0], w);
      }
    case AcceptToDisk(r, w) => AcceptedWrite(s.(past := s.past.Accept(r)), r, w);
    case SpillUnsent(w) =>
      var rest := s.flusher.spills;
      AcceptedWrite(s.(flusher := if |rest| == 1 then Idle else SpillingMemory(rest[1..])), rest[0], w);
    case Accept(_) =>
    case Release =>
    case TakeBatch =>
    case SendMemory(_) =>
  }

  lemma AcceptDiskStep(c: Config, s: State, l: Label)
    requires ValidConfig(c) && Enabled(c, s, l) && !InMemory(l)
    ensures Apply(c, s, l).past.accepted == s.past.accepted
  {
    hide ParseRetries, Backoff.Duration, Overwritten, Bumped, BumpFile, DecodedReports, IsListing;
  }

  lemma AcceptStep(c: Config, s: State, l: Label, x: Report)
    requires ValidConfig(c) && Enabled(c, s, l)
    ensures Apply(c, s, l).past.accepted[x] == s.past.accepted[x] + AcceptedBy(l, x)
  {
    hide Apply, Enabled;
    if InMemory(l) {
      AcceptMemoryStep(c, s, l, x);
    } else {
      AcceptDiskStep(c, s, l);
    }
  }

  /** The steps at which the code drops a report for good: a spill that fails (only logged), a
      write, rename or move onto an existing name, and the removal of a file that was in an
      acknowledged batch although it could not be read or decoded. */
  predicate Lossy(c: Config, s: State, l: Label)
  {
    match l
    case SpillOldest(w) => s.mem != [] && (!w.ok || NewName(s, w) in s.spool)
    case SpillUnsent(w) => !w.ok || NewName(s, w) in s.spool
    case AcceptToDisk(_, w) => w.ok && NewName(s, w) in s.spool
    case ScanNext(io) =>
      && s.flusher.Scanning? && s.flusher.todo != []
      && |s.flusher.picked| < c.maxBatch
      && ParseRetries(s.flusher.todo[0]) > c.maxRetries
      && io.moveOk && s.flusher.todo[0] in s.spool && s.flusher.todo[0] in s.failed
    case RemoveNext(ok) =>
      && s.flusher.Removing? && s.flusher.removals != []
      && ok && s.flusher.removals[0] in s.spool && s.flusher.removals[0] !in s.flusher.readable
    case BumpNext(_, _, renameOk) =>
      && s.flusher.Bumping? && s.flusher.bumps != []
      && renameOk && s.flusher.bumps[0] in s.spool
      && Bumped(s.flusher.bumps[0]) in s.spool - {s.flusher.bumps[0]}
    case _ => false
  }

  /** The reports a step drops, as read off the step alone. */
  ghost function Dropped(c: Config, s: State, l: Label): multiset<Report>
    requires ValidConfig(c) && Enabled(c, s, l)
  {
    match l
    case SpillOldest(w) =>
      if s.mem == [] then multiset{} else if !w.ok then multiset{s.mem[0]} else Overwritten(s.spool, NewName(s, w))
    case SpillUnsent(w) =>
      if !w.ok then multiset{s.flusher.spills[0]} else Overwritten(s.spool, NewName(s, w))
    case AcceptToDisk(_, w) => if !w.ok then multiset{} else Overwritten(s.spool, NewName(s, w))
    case ScanNext(io) =>
      var name := s.flusher.todo[0];
      if Lossy(c, s, l) then multiset{s.failed[name].report} else multiset{}
    case RemoveNext(ok) =>
      if Lossy(c, s, l) then multiset{s.spool[s.flusher.removals[0]].report} else multiset{}
    case BumpNext(_, _, _) =>
      if Lossy(c, s, l) then multiset{s.spool[Bumped(s.flusher.bumps[0])].report} else multiset{}
    case _ => multiset{}
  }

  lemma DroppedStep(c: Config, s: State, l: Label)
    requires ValidConfig(c) && Enabled(c, s, l)
    ensures Apply(c, s, l).past.lost == s.past.lost + Dropped(c, s, l)
  {
    if InMemory(l) {
      DroppedMemoryStep(c, s, l);
    } else {
      DroppedDiskStep(c, s, l);
    }
  }

  lemma DroppedWrite(s: State, r: Report, w: Write)
    ensures WriteToDisk(s, r, w).past.lost ==
      s.past.lost + if w.ok then Overwritten(s.spool, NewName(s, w)) else multiset{r}
  {
  }

  lemma DroppedSpillOldest(c: Config, s: State, w: Write)
    requires ValidConfig(c) && Enabled(c, s, SpillOldest(w))
    ensures Apply(c, s, SpillOldest(w)).past.lost == s.past.lost + Dropped(c, s, SpillOldest(w))
  {
    if s.mem != [] {
      var popped := s.(mem := s.mem[1..], memBytes := s.memBytes - s.mem[0].size);
      assert Apply(c, s, SpillOldest(w)) == WriteToDisk(popped, s.mem[0], w);
      DroppedWrite(popped, s.mem[0], w);
    }
  }

  lemma DroppedSpillUnsent(c: Config, s: State, w: Write)
    requires ValidConfig(c) && Enabled(c, s, SpillUnsent(w))
    ensures Apply(c, s, SpillUnsent(w)).past.lost == s.past.lost + Dropped(c, s, SpillUnsent(w))
  {
    var rest := s.flusher.spills;
    var popped := s.(flusher := if |rest| == 1 then Idle else SpillingMemory(rest[1..]));
    assert Apply(c, s, SpillUnsent(w)) == WriteToDisk(popped, rest[0], w);
    DroppedWrite(popped, rest[0], w);
  }

  lemma DroppedAcceptToDisk(c: Config, s: State, r: Report, w: Write)
    requires ValidConfig(c) && Enabled(c, s, AcceptToDisk(r, w))
    ensures Apply(c, s, AcceptToDisk(r, w)).past.lost == s.past.lost + Dropped(c, s, AcceptToDisk(r, w))
  {
    if w.ok {
      DroppedWrite(s.(past := s.past.Accept(r)), r, w);
    }
  }

  lemma DroppedMemoryStep(c: Config, s: State, l: Label)
    requires ValidConfig(c) && Enabled(c, s, l) && InMemory(l)
    ensures Apply(c, s, l).past.lost == s.past.lost + Dropped(c, s, l)
  {
    match l
    case SpillOldest(w) => DroppedSpillOldest(c, s, w);
    case AcceptToDisk(r, w) => DroppedAcceptToDisk(c, s, r, w);
    case SpillUnsent(w) => DroppedSpillUnsent(c, s, w);
    case Accept(_) =>
    case Release =>
    case TakeBatch =>
    case SendMemory(_) =>
  }

  lemma DroppedScan(c: Config, s: State, io: ScanIo)
    requires ValidConfig(c) && Enabled(c, s, ScanNext(io))
    ensures Apply(c, s, ScanNext(io)).past.lost == s.past.lost + Dropped(c, s, ScanNext(io))
  {
    hide ParseRetries, Backoff.Duration;
  }

  lemma DroppedRemove(c: Config, s: State, ok: bool)
    requires ValidConfig(c) && Enabled(c, s, RemoveNext(ok))
    ensures Apply(c, s, RemoveNext(ok)).past.lost == s.past.lost + Dropped(c, s, RemoveNext(ok))
  {
  }

  lemma DroppedDiskStep(c: Config, s: State, l: Label)
    requires ValidConfig(c) && Enabled(c, s, l) && !InMemory(l)
    ensures Apply(c, s, l).past.lost == s.past.lost + Dropped(c, s, l)
  {
    if l.BumpNext? {
      hide Bumped, BumpFile;
      DroppedBump(s, l.at, l.touchOk, l.renameOk);
    } else if l.ScanNext? {
      DroppedScan(c, s, l.io);
    } else if l.RemoveNext? {
      DroppedRemove(c, s, l.ok);
    } else {
      hide ScanHead, RemoveHead, BumpHead, Lossy, IsListing, DecodedReports;
    }
  }

  lemma DroppedBump(s: State, at: nat, touchOk: bool, renameOk: bool)
    requires s.flusher.Bumping? && s.flusher.bumps != []
    ensures var name := s.flusher.bumps[0];
            BumpHead(s, at, touchOk, renameOk).past.lost == s.past.lost +
              if renameOk && name in s.spool then Overwritten(s.spool - {name}, Bumped(name)) else multiset{}
  {
  }

  lemma LossExactly(c: Config, s: State, l: Label)
    requires ValidConfig(c) && Enabled(c, s, l)
    ensures |Apply(c, s, l).past.lost| >= |s.past.lost|
    ensures Lossy(c, s, l) <==> |Apply(c, s, l).past.lost| > |s.past.lost|
  {
    DroppedStep(c, s, l);
    assert Lossy(c, s, l) <==> |Dropped(c, s, l)| == 1;
    assert !Lossy(c, s, l) <==> |Dropped(c, s, l)| == 0;
  }

  /** No step of the run drops a report. */
  ghost predicate LossFree(c: Config, s: State, labels: seq<Label>)
    requires ValidConfig(c)
    decreases |labels|
  {
    labels == [] ||
    (&& Enabled(c, s, labels[0]) && !Lossy(c, s, labels[0])
     && LossFree(c, Apply(c, s, labels[0]), labels[1..]))
  }

  /** An agent that has just started: nothing buffered, and whatever an earlier process left in
      the spool and failed directories counts as accepted. */
  ghost predicate Fresh(s: State)
  {
    && s.mem == [] && s.memBytes == 0 && !s.locked && s.flusher.Idle?
    && s.past.acked == multiset{} && s.past.lost == multiset{} && s.past.delivered == {}
    && s.past.accepted == Contents(s.spool) + Contents(s.failed)
  }

  lemma AccountedStep(c: Config, s: State, l: Label)
    requires ValidConfig(c) && Enabled(c, s, l) && Accounted(s)
    ensures Accounted(Apply(c, s, l))
  {
    forall x ensures Apply(c, s, l).past.accepted[x] == Held(Apply(c, s, l), x) {
      HeldStep(c, s, l, x);
      AcceptStep(c, s, l, x);
    }
  }

  lemma {:induction false} RunAccounts(c: Config, s: State, labels: seq<Label>, t: State)
    requires ValidConfig(c) && Run(c, s, labels, t) && Accounted(s)
    ensures Accounted(t) && |s.past.lost| <= |t.past.lost|
    ensures |t.past.lost| == |s.past.lost| <==> LossFree(c, s, labels)
    decreases |labels|
  {
    if labels != [] {
      AccountedStep(c, s, labels[0]);
      LossExactly(c, s, labels[0]);
      RunAccounts(c, Apply(c, s, labels[0]), labels[1..], t);
    }
  }

  lemma FreshAccounted(s: State)
    requires Fresh(s)
    ensures Accounted(s)
  {
    forall r ensures s.past.accepted[r] == Held(s, r) {
      assert (Contents(s.spool) + Contents(s.failed))[r] == Contents(s.spool)[r] + Contents(s.failed)[r];
    }
  }

  /** Conservation: after any run from a fresh start, in any interleaving and under any disk and
      network behaviour, every accepted report is kept somewhere or was dropped by a lossy step,
      and all of them are kept if and only if no step of the run was lossy. */
  lemma Conservation(c: Config, s: State, labels: seq<Label>, t: State)
    requires ValidConfig(c) && Fresh(s) && Run(c, s, labels, t)
    ensures forall r :: t.past.accepted[r] == Kept(t, r) + t.past.lost[r]
    ensures LossFree(c, s, labels) <==> forall r :: t.past.accepted[r] == Kept(t, r)
  {
    FreshAccounted(s);
    RunAccounts(c, s, labels, t);
    assert Accounted(t);
    if t.past.lost != multiset{} {
      var r :| r in t.past.lost;
      assert t.past.accepted[r] == Held(t, r) > Kept(t, r);
    }
  }

  /** A report accepted once is in one place, once. */
  lemma ExactlyOnePlace(c: Config, s: State, labels: seq<Label>, t: State, r: Report)
    requires ValidConfig(c) && Fresh(s) && Run(c, s, labels, t) && LossFree(c, s, labels)
    requires t.past.accepted[r] == 1
    ensures multiset(t.mem)[r] + InFlight(t.flusher)[r] + Contents(t.spool)[r] + Contents(t.failed)[r] + t.past.acked[r] == 1
  {
    Conservation(c, s, labels, t);
    assert t.past.accepted[r] == Kept(t, r);
  }
}
