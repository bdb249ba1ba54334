/** The methods of the queue object as runs of the protocol, and what one disk flush does. */
module QueueRuns {
  import opened SpoolNames
  import opened QueueModel
  import opened QueueConservation
  import opened QueueSafety
  import opened QueueTheorems
  import opened QueueObject
  import Backoff

  // ---------------------------------------------------------------- method calls are runs

  lemma {:induction false} RunAppend(c: Config, s: State, xs: seq<Label>, m: State, ys: seq<Label>, t: State)
    requires ValidConfig(c) && Run(c, s, xs, m) && Run(c, m, ys, t)
    ensures Run(c, s, xs + ys, t)
    decreases |xs|
  {
    hide Apply, Enabled;
    if xs == [] {
      assert xs + ys == ys;
    } else {
      RunAppend(c, Apply(c, s, xs[0]), xs[1..], m, ys, t);
      assert (xs + ys)[1..] == xs[1..] + ys;
    }
  }

  lemma RunOne(c: Config, s: State, l: Label)
    requires ValidConfig(c) && Enabled(c, s, l)
    ensures Run(c, s, [l], Apply(c, s, l))
  {
    hide Apply, Enabled;
    assert [l][1..] == [];
  }

  /** Stepping once and going on. */
  lemma RunCons(c: Config, s: State, l: Label, labels: seq<Label>, t: State)
    requires ValidConfig(c) && Enabled(c, s, l) && Run(c, Apply(c, s, l), labels, t)
    ensures Run(c, s, [l] + labels, t)
  {
    hide Apply, Enabled;
    RunOne(c, s, l);
    RunAppend(c, s, [l], Apply(c, s, l), labels, t);
  }

  lemma {:induction false} SpillAllIsRun(c: Config, s: State, writes: nat -> Write, i: nat) returns (labels: seq<Label>)
    requires ValidConfig(c) && s.locked && Bounded(c, s)
    ensures var t := SpillAll(c, s, writes, i);
            Run(c, s, labels, t) && t.locked && !Over(c, t) && t.flusher == s.flusher
    decreases |s.mem|
  {
    hide SpillHead, Apply, Run, Sizes;
    if Over(c, s) && s.mem != [] {
      var l := SpillOldest(writes(i));
      ApplySpill(c, s, writes(i));
      BoundedStep(c, s, l);
      var rest := SpillAllIsRun(c, Apply(c, s, l), writes, i + 1);
      labels := [l] + rest;
      RunCons(c, s, l, rest, SpillAll(c, s, writes, i));
    } else {
      labels := [];
      if s.mem == [] {
        EmptyBuffer(c, s);
      }
      NoSteps(c, s);
    }
  }

  lemma NoSteps(c: Config, s: State)
    requires ValidConfig(c)
    ensures Run(c, s, [], s)
  {
  }

  lemma EmptyBuffer(c: Config, s: State)
    requires ValidConfig(c) && Bounded(c, s) && s.locked && s.mem == []
    ensures !Over(c, s)
  {
  }

  lemma ApplySpill(c: Config, s: State, w: Write)
    requires ValidConfig(c) && s.locked && Over(c, s) && s.mem != []
    ensures Enabled(c, s, SpillOldest(w)) && Apply(c, s, SpillOldest(w)) == SpillHead(s, w)
    ensures var t := SpillHead(s, w);
            t.locked && t.flusher == s.flusher && |t.mem| < |s.mem|
  {
    hide SpoolStem, Stem, SpoolName, Overwritten;
  }

  /** One call of Enqueue is a run of the protocol in which the flusher happens not to move; it
      can start whatever the flusher is in the middle of. */
  lemma EnqueueIsRun(c: Config, s: State, r: Report, writes: nat -> Write) returns (labels: seq<Label>)
    requires ValidConfig(c) && Bounded(c, s) && !s.locked
    ensures Run(c, s, labels, EnqueueSpec(c, s, r, writes))
  {
    hide Run, SpillAll, WriteToDisk, Sizes;
    if c.memoryBuffer == 0 {
      labels := [AcceptToDisk(r, writes(0))];
      RunOne(c, s, labels[0]);
    } else {
      var s1 := Apply(c, s, Accept(r));
      BoundedStep(c, s, Accept(r));
      var spills := SpillAllIsRun(c, s1, writes, 0);
      var s2 := SpillAll(c, s1, writes, 0);
      RunOne(c, s2, Release);
      RunAppend(c, s1, spills, s2, [Release], s2.(locked := false));
      RunCons(c, s, Accept(r), spills + [Release], s2.(locked := false));
      labels := [Accept(r)] + (spills + [Release]);
    }
  }

  lemma {:induction false} SpillUnsentIsRun(c: Config, s: State, writes: nat -> Write, i: nat) returns (labels: seq<Label>)
    requires ValidConfig(c)
    ensures Run(c, s, labels, SpillUnsentAll(c, s, writes, i))
    decreases if s.flusher.SpillingMemory? then |s.flusher.spills| else 0
  {
    hide Run, WriteToDisk;
    if s.flusher.SpillingMemory? && s.flusher.spills != [] {
      var l := SpillUnsent(writes(i));
      SpillUnsentShape(c, s, writes(i));
      var rest := SpillUnsentIsRun(c, Apply(c, s, l), writes, i + 1);
      labels := [l] + rest;
      RunCons(c, s, l, rest, SpillUnsentAll(c, s, writes, i));
    } else {
      labels := [];
      NoSteps(c, s);
    }
  }

  lemma SpillUnsentShape(c: Config, s: State, w: Write)
    requires ValidConfig(c) && s.flusher.SpillingMemory? && s.flusher.spills != []
    ensures Enabled(c, s, SpillUnsent(w))
    ensures var f := Apply(c, s, SpillUnsent(w)).flusher;
            f.SpillingMemory? ==> |f.spills| < |s.flusher.spills|
  {
    hide SpoolStem, Stem, SpoolName, Overwritten;
  }

  lemma FlushMemoryIsRun(c: Config, s: State, sendOk: bool, writes: nat -> Write) returns (labels: seq<Label>)
    requires ValidConfig(c) && Enabled(c, s, TakeBatch)
    ensures Run(c, s, labels, FlushMemorySpec(c, s, sendOk, writes))
  {
    hide Run, SpillUnsentAll, BatchLength, Sizes;
    var s1 := Apply(c, s, TakeBatch);
    var s2 := Apply(c, s1, SendMemory(sendOk));
    var rest := SpillUnsentIsRun(c, s2, writes, 0);
    RunCons(c, s1, SendMemory(sendOk), rest, FlushMemorySpec(c, s, sendOk, writes));
    RunCons(c, s, TakeBatch, [SendMemory(sendOk)] + rest, FlushMemorySpec(c, s, sendOk, writes));
    labels := [TakeBatch] + ([SendMemory(sendOk)] + rest);
  }

  lemma {:induction false} ScanAllIsRun(c: Config, s: State, scan: string -> ScanIo) returns (labels: seq<Label>)
    requires ValidConfig(c)
    ensures Run(c, s, labels, ScanAll(c, s, scan))
    decreases if s.flusher.Scanning? then |s.flusher.todo| else 0
  {
    hide Run, ScanHead;
    if s.flusher.Scanning? && s.flusher.todo != [] {
      var l := ScanNext(scan(s.flusher.todo[0]));
      ScanShape(c, s, l.io);
      var rest := ScanAllIsRun(c, ScanHead(c, s, l.io), scan);
      labels := [l] + rest;
      RunCons(c, s, l, rest, ScanAll(c, s, scan));
    } else {
      labels := [];
      NoSteps(c, s);
    }
  }

  lemma {:induction false} RemoveAllIsRun(c: Config, s: State, removeOk: string -> bool) returns (labels: seq<Label>)
    requires ValidConfig(c)
    ensures Run(c, s, labels, RemoveAll(s, removeOk))
    decreases if s.flusher.Removing? then |s.flusher.removals| else 0
  {
    hide Run;
    if s.flusher.Removing? && s.flusher.removals != [] {
      var l := RemoveNext(removeOk(s.flusher.removals[0]));
      var rest := RemoveAllIsRun(c, RemoveHead(s, l.ok), removeOk);
      labels := [l] + rest;
      RunCons(c, s, l, rest, RemoveAll(s, removeOk));
    } else {
      labels := [];
      NoSteps(c, s);
    }
  }

  lemma {:induction false} BumpAllIsRun(c: Config, s: State, bump: string -> BumpIo) returns (labels: seq<Label>)
    requires ValidConfig(c)
    ensures Run(c, s, labels, BumpAll(s, bump))
    decreases if s.flusher.Bumping? then |s.flusher.bumps| else 0
  {
    hide Run, Bumped, Overwritten;
    if s.flusher.Bumping? && s.flusher.bumps != [] {
      var io := bump(s.flusher.bumps[0]);
      var l := BumpNext(io.at, io.touchOk, io.renameOk);
      var rest := BumpAllIsRun(c, BumpHead(s, io.at, io.touchOk, io.renameOk), bump);
      labels := [l] + rest;
      RunCons(c, s, l, rest, BumpAll(s, bump));
    } else {
      labels := [];
      NoSteps(c, s);
    }
  }

  lemma SendIsRun(c: Config, s: State, io: FlushIo) returns (labels: seq<Label>)
    requires ValidConfig(c) && s.flusher.SendingDisk?
    ensures Run(c, s, labels, SendSpec(c, s, io))
  {
    hide Run, RemoveAll, BumpAll, Apply;
    var l := SendDisk(io.decoded, io.sendOk);
    var s1 := Apply(c, s, l);
    var removes := RemoveAllIsRun(c, s1, io.removeOk);
    var s2 := RemoveAll(s1, io.removeOk);
    var bumps := BumpAllIsRun(c, s2, io.bump);
    var t := BumpAll(s2, io.bump);
    RunAppend(c, s1, removes, s2, bumps, t);
    RunCons(c, s, l, removes + bumps, t);
    labels := [l] + (removes + bumps);
  }

  lemma ApplyEndScan(c: Config, s: State)
    requires ValidConfig(c) && Enabled(c, s, EndScan)
    ensures var t := Apply(c, s, EndScan);
            && t == s.(flusher := t.flusher)
            && t.flusher == if s.flusher.picked == [] then Idle else SendingDisk(s.flusher.picked, s.flusher.started)
  {
  }

  lemma FlushDiskIsRun(c: Config, s: State, io: FlushIo) returns (labels: seq<Label>)
    requires ValidConfig(c) && Enabled(c, s, SeeEmpty) && io.dirOk
    ensures Run(c, s, labels, FlushDiskSpec(c, s, io))
  {
    hide Run, ScanAll, SendSpec, Listing, IsListing;
    ListingIs(s.spool);
    var look, read := SeeEmpty, ReadDir(io.at, Listing(s.spool));
    var s1 := StartScan(c, s, io);
    ScanAllDone(c, s1, io.scan);
    var scans := ScanAllIsRun(c, s1, io.scan);
    var s2 := ScanAll(c, s1, io.scan);
    var s3 := Apply(c, s2, EndScan);
    RunOne(c, s2, EndScan);
    RunAppend(c, s1, scans, s2, [EndScan], s3);
    var tail := scans + [EndScan];
    if !s3.flusher.Idle? {
      var sends := SendIsRun(c, s3, io);
      RunAppend(c, s1, tail, s3, sends, SendSpec(c, s3, io));
      tail := tail + sends;
    }
    var t := FlushDiskSpec(c, s, io);
    RunCons(c, Apply(c, s, look), read, tail, t);
    RunCons(c, s, look, [read] + tail, t);
    labels := [look] + ([read] + tail);
  }

  // ---------------------------------------------------------------- which files are sent

  /** The file may go into the batch: retries left, stat succeeds, backoff over. */
  predicate Due(c: Config, spool: map<string, File>, started: int, scan: string -> ScanIo, n: string)
    requires ValidConfig(c)
  {
    && ParseRetries(n) <= c.maxRetries && scan(n).statOk && n in spool
    && started - spool[n].mtime >= Backoff.Duration(c.backoff, ParseRetries(n), scan(n).draw)
  }

  predicate Exhausted(c: Config, n: string)
  {
    ParseRetries(n) > c.maxRetries
  }

  function DueNames(c: Config, spool: map<string, File>, started: int, scan: string -> ScanIo, names: seq<string>): seq<string>
    requires ValidConfig(c)
  {
    if names == [] then []
    else
      (if Due(c, spool, started, scan, names[0]) then [names[0]] else [])
      + DueNames(c, spool, started, scan, names[1..])
  }

  function SizeOf(spool: map<string, File>, names: seq<string>): int
  {
    if names == [] then 0
    else SizeOf(spool, names[..|names| - 1]) + if names[|names| - 1] in spool then spool[names[|names| - 1]].report.size else 0
  }

  /** The loop looks at the next name and does not break. */
  predicate GoesOn(c: Config, s: State, io: ScanIo)
    requires ValidConfig(c) && s.flusher.Scanning? && s.flusher.todo != []
  {
    var Scanning(todo, picked, bytes, started) := s.flusher;
    && |picked| < c.maxBatch
    && (Due(c, s.spool, started, _ => io, todo[0]) && picked != [] ==>
          bytes + s.spool[todo[0]].report.size <= c.maxBatchBytes)
  }

  /** How many names the loop gets through before it breaks. */
  ghost function Passed(c: Config, s: State, scan: string -> ScanIo): (p: nat)
    requires ValidConfig(c) && s.flusher.Scanning?
    ensures p <= |s.flusher.todo|
    decreases |s.flusher.todo|
  {
    if s.flusher.todo == [] || !GoesOn(c, s, scan(s.flusher.todo[0])) then 0
    else
      PassOne(c, s, scan(s.flusher.todo[0]));
      1 + Passed(c, ScanHead(c, s, scan(s.flusher.todo[0])), scan)
  }

  /** One pass that does not break, and one that does. */
  lemma PassOne(c: Config, s: State, io: ScanIo)
    requires ValidConfig(c) && s.flusher.Scanning? && s.flusher.todo != []
    ensures var Scanning(todo, picked, bytes, started) := s.flusher;
            var n := todo[0];
            var due := Due(c, s.spool, started, _ => io, n);
            ScanHead(c, s, io) ==
              if !GoesOn(c, s, io) then s.(flusher := Scanning([], picked, bytes, started))
              else if Exhausted(c, n) then MoveToFailed(s.(flusher := Scanning(todo[1..], picked, bytes, started)), n, io.moveOk)
              else if !due then s.(flusher := Scanning(todo[1..], picked, bytes, started))
              else s.(flusher := Scanning(todo[1..], picked + [n], bytes + s.spool[n].report.size, started))
  {
    hide ParseRetries, Backoff.Duration, MoveToFailed;
  }

  lemma DueAt(c: Config, spool: map<string, File>, started: int, scan: string -> ScanIo, n: string)
    requires ValidConfig(c)
    ensures Due(c, spool, started, _ => scan(n), n) == Due(c, spool, started, scan, n)
  {
  }

  /** The exhausted files among the names passed are moved, and nothing else in either directory
      changes. */
  ghost predicate Moves(c: Config, s: State, t: State, scan: string -> ScanIo, names: seq<string>)
  {
    && (forall n :: n in t.spool <==> n in s.spool && !(n in names && Exhausted(c, n) && scan(n).moveOk))
    && (forall n :: n in t.spool ==> t.spool[n] == s.spool[n])
    && (forall n :: n in s.spool && n !in t.spool ==> n in t.failed && t.failed[n] == s.spool[n])
  }

  lemma MovesCons(c: Config, s: State, m: State, t: State, scan: string -> ScanIo, n: string, rest: seq<string>)
    requires n !in rest
    requires m.spool == (if Exhausted(c, n) && scan(n).moveOk then s.spool - {n} else s.spool)
    requires n in s.spool && n !in m.spool ==> n in m.failed && m.failed[n] == s.spool[n]
    requires Moves(c, m, t, scan, rest)
    requires forall x :: x in m.failed && x !in rest ==> x in t.failed && t.failed[x] == m.failed[x]
    ensures Moves(c, s, t, scan, [n] + rest)
  {
    hide Exhausted;
  }

  /** Failed files whose names are not in the listing stay put. */
  lemma {:induction false} FailedStay(c: Config, s: State, scan: string -> ScanIo)
    requires ValidConfig(c) && s.flusher.Scanning?
    ensures var t := ScanAll(c, s, scan);
            forall x :: x in s.failed && x !in s.flusher.todo[..Passed(c, s, scan)] ==> x in t.failed && t.failed[x] == s.failed[x]
    decreases |s.flusher.todo|
  {
    hide ScanHead, Due, Exhausted, GoesOn;
    var todo := s.flusher.todo;
    if todo == [] || !GoesOn(c, s, scan(todo[0])) {
      ScanAllStops(c, s, scan);
    } else {
      var m := ScanHead(c, s, scan(todo[0]));
      PassFailed(c, s, scan(todo[0]));
      FailedStay(c, m, scan);
      assert todo[..1 + Passed(c, m, scan)] == [todo[0]] + todo[1..][..Passed(c, m, scan)];
    }
  }

  lemma PassFailed(c: Config, s: State, io: ScanIo)
    requires ValidConfig(c) && s.flusher.Scanning? && s.flusher.todo != [] && GoesOn(c, s, io)
    ensures var m := ScanHead(c, s, io);
            && m.flusher.Scanning? && m.flusher.todo == s.flusher.todo[1..]
            && forall x :: x in s.failed && x != s.flusher.todo[0] ==> x in m.failed && m.failed[x] == s.failed[x]
  {
    hide ScanHead, Due, Exhausted, GoesOn;
    PassOne(c, s, io);
  }

  lemma ScanAllStops(c: Config, s: State, scan: string -> ScanIo)
    requires ValidConfig(c) && s.flusher.Scanning?
    requires s.flusher.todo == [] || !GoesOn(c, s, scan(s.flusher.todo[0]))
    ensures ScanAll(c, s, scan) == s.(flusher := s.flusher.(todo := []))
  {
    hide ScanHead, GoesOn;
    if s.flusher.todo != [] {
      PassOne(c, s, scan(s.flusher.todo[0]));
    }
  }

  /** What a pass that goes on leaves for the next one. */
  lemma PassKeeps(c: Config, s: State, scan: string -> ScanIo)
    requires ValidConfig(c) && s.flusher.Scanning? && s.flusher.todo != [] && NoDuplicates(s.flusher.todo)
    requires GoesOn(c, s, scan(s.flusher.todo[0]))
    ensures var n := s.flusher.todo[0];
            var m := ScanHead(c, s, scan(n));
            && m.flusher.Scanning? && m.flusher.todo == s.flusher.todo[1..] && m.flusher.started == s.flusher.started
            && m.flusher.picked == s.flusher.picked + (if Due(c, s.spool, s.flusher.started, scan, n) then [n] else [])
            && m.flusher.bytes == s.flusher.bytes + (if Due(c, s.spool, s.flusher.started, scan, n) then s.spool[n].report.size else 0)
            && m.spool == (if Exhausted(c, n) && scan(n).moveOk then s.spool - {n} else s.spool)
            && (n in s.spool && n !in m.spool ==> n in m.failed && m.failed[n] == s.spool[n])
  {
    hide ScanHead, Due, GoesOn;
    var n := s.flusher.todo[0];
    PassOne(c, s, scan(n));
    DueAt(c, s.spool, s.flusher.started, scan, n);
    if Exhausted(c, n) {
      ExhaustedNotDue(c, s.spool, s.flusher.started, scan, n);
    }
  }

  lemma {:induction false} SelectionMoves(c: Config, s: State, scan: string -> ScanIo)
    requires ValidConfig(c) && s.flusher.Scanning? && NoDuplicates(s.flusher.todo)
    ensures Moves(c, s, ScanAll(c, s, scan), scan, s.flusher.todo[..Passed(c, s, scan)])
    decreases |s.flusher.todo|
  {
    hide ScanHead, Due, Exhausted, GoesOn, Moves;
    var todo := s.flusher.todo;
    if todo == [] || !GoesOn(c, s, scan(todo[0])) {
      ScanAllStops(c, s, scan);
      assert todo[..0] == [];
      MovesNothing(c, s, ScanAll(c, s, scan), scan);
    } else {
      var m := ScanHead(c, s, scan(todo[0]));
      PassKeeps(c, s, scan);
      SelectionMoves(c, m, scan);
      FailedStay(c, m, scan);
      var p := Passed(c, m, scan);
      assert todo[..1 + p] == [todo[0]] + todo[1..][..p];
      MovesCons(c, s, m, ScanAll(c, s, scan), scan, todo[0], todo[1..][..p]);
    }
  }

  lemma MovesNothing(c: Config, s: State, t: State, scan: string -> ScanIo)
    requires t.spool == s.spool
    ensures Moves(c, s, t, scan, [])
  {
  }

  /** Only the files themselves decide what is due. */
  lemma {:induction false} DueNamesAgree(c: Config, spool: map<string, File>, other: map<string, File>, started: int,
                                         scan: string -> ScanIo, names: seq<string>)
    requires ValidConfig(c)
    requires forall n :: n in names ==> (n in spool <==> n in other) && (n in spool ==> spool[n] == other[n])
    ensures DueNames(c, spool, started, scan, names) == DueNames(c, other, started, scan, names)
  {
    hide ParseRetries, Backoff.Duration;
    if names != [] {
      DueNamesAgree(c, spool, other, started, scan, names[1..]);
    }
  }

  lemma DueNamesCons(c: Config, spool: map<string, File>, started: int, scan: string -> ScanIo, n: string, rest: seq<string>)
    requires ValidConfig(c)
    ensures DueNames(c, spool, started, scan, [n] + rest)
         == (if Due(c, spool, started, scan, n) then [n] else []) + DueNames(c, spool, started, scan, rest)
  {
    assert ([n] + rest)[1..] == rest;
  }

  lemma Associate(a: seq<string>, b: seq<string>, d: seq<string>)
    ensures (a + b) + d == a + (b + d)
  {
  }

  /** Picked: the due files among the names passed, in listing order. */
  lemma {:induction false} SelectionPicks(c: Config, s: State, scan: string -> ScanIo)
    requires ValidConfig(c) && s.flusher.Scanning? && NoDuplicates(s.flusher.todo)
    ensures ScanAll(c, s, scan).flusher.Scanning?
    ensures ScanAll(c, s, scan).flusher.picked == s.flusher.picked
      + DueNames(c, s.spool, s.flusher.started, scan, s.flusher.todo[..Passed(c, s, scan)])
    decreases |s.flusher.todo|
  {
    hide ScanHead, Due, GoesOn, Exhausted, DueNames;
    var todo, started := s.flusher.todo, s.flusher.started;
    if todo == [] || !GoesOn(c, s, scan(todo[0])) {
      ScanAllStops(c, s, scan);
      assert todo[..0] == [];
      DueNamesNil(c, s.spool, started, scan);
    } else {
      var n := todo[0];
      var m := ScanHead(c, s, scan(n));
      PassKeeps(c, s, scan);
      SelectionPicks(c, m, scan);
      var p := Passed(c, m, scan);
      var rest := todo[1..][..p];
      assert todo[..1 + p] == [n] + rest;
      DueNamesAgree(c, s.spool, m.spool, started, scan, rest);
      DueNamesCons(c, s.spool, started, scan, n, rest);
      Associate(s.flusher.picked, if Due(c, s.spool, started, scan, n) then [n] else [],
                DueNames(c, s.spool, started, scan, rest));
    }
  }

  lemma DueNamesNil(c: Config, spool: map<string, File>, started: int, scan: string -> ScanIo)
    requires ValidConfig(c)
    ensures DueNames(c, spool, started, scan, []) == []
  {
  }

  /** The caps: never more than maxBatch files, never more than maxBatchBytes unless it is a
      single file. */
  predicate WithinCaps(c: Config, f: Flusher)
  {
    f.Scanning? && |f.picked| <= c.maxBatch && (|f.picked| <= 1 || f.bytes <= c.maxBatchBytes)
  }

  lemma {:induction false} SelectionFits(c: Config, s: State, scan: string -> ScanIo)
    requires ValidConfig(c) && WithinCaps(c, s.flusher) && NoDuplicates(s.flusher.todo)
    ensures WithinCaps(c, ScanAll(c, s, scan).flusher)
    decreases |s.flusher.todo|
  {
    hide ScanHead, Due, Exhausted;
    var todo := s.flusher.todo;
    if todo == [] || !GoesOn(c, s, scan(todo[0])) {
      ScanAllStops(c, s, scan);
    } else {
      PassKeeps(c, s, scan);
      DueAt(c, s.spool, s.flusher.started, scan, todo[0]);
      SelectionFits(c, ScanHead(c, s, scan(todo[0])), scan);
    }
  }

  lemma SizeOfSnoc(dir: map<string, File>, names: seq<string>, n: string)
    requires n in dir
    ensures SizeOf(dir, names + [n]) == SizeOf(dir, names) + dir[n].report.size
  {
    assert (names + [n])[..|names|] == names;
  }

  /** The byte counter is the total size of the files picked. */
  lemma {:induction false} SelectionBytes(c: Config, s: State, scan: string -> ScanIo, dir: map<string, File>)
    requires ValidConfig(c) && s.flusher.Scanning? && NoDuplicates(s.flusher.todo)
    requires s.flusher.bytes == SizeOf(dir, s.flusher.picked)
    requires forall n :: n in s.flusher.todo && n in s.spool ==> n in dir && dir[n] == s.spool[n]
    ensures var f := ScanAll(c, s, scan).flusher; f.Scanning? && f.bytes == SizeOf(dir, f.picked)
    decreases |s.flusher.todo|
  {
    hide ScanHead, Exhausted, GoesOn, SizeOf, ParseRetries, Backoff.Duration;
    var todo := s.flusher.todo;
    if todo == [] || !GoesOn(c, s, scan(todo[0])) {
      ScanAllStops(c, s, scan);
    } else {
      PassKeeps(c, s, scan);
      if Due(c, s.spool, s.flusher.started, scan, todo[0]) {
        SizeOfSnoc(dir, s.flusher.picked, todo[0]);
      } else {
        assert s.flusher.picked + [] == s.flusher.picked;
      }
      SelectionBytes(c, ScanHead(c, s, scan(todo[0])), scan, dir);
    }
  }

  /** The loop breaks only when the batch is full or the next due file would burst the byte cap. */
  ghost predicate StopsFor(c: Config, spool: map<string, File>, f: Flusher, scan: string -> ScanIo, next: string)
    requires ValidConfig(c) && f.Scanning?
  {
    || |f.picked| >= c.maxBatch
    || (&& Due(c, spool, f.started, scan, next) && f.picked != []
        && f.bytes + spool[next].report.size > c.maxBatchBytes)
  }

  lemma {:induction false} SelectionStops(c: Config, s: State, scan: string -> ScanIo)
    requires ValidConfig(c) && s.flusher.Scanning? && NoDuplicates(s.flusher.todo)
    ensures ScanAll(c, s, scan).flusher.Scanning?
    ensures var p := Passed(c, s, scan);
            p < |s.flusher.todo| ==> StopsFor(c, s.spool, ScanAll(c, s, scan).flusher, scan, s.flusher.todo[p])
    decreases |s.flusher.todo|
  {
    hide ScanHead, Due, Exhausted;
    var todo := s.flusher.todo;
    if todo == [] || !GoesOn(c, s, scan(todo[0])) {
      ScanAllStops(c, s, scan);
      if todo != [] {
        DueAt(c, s.spool, s.flusher.started, scan, todo[0]);
      }
    } else {
      var m := ScanHead(c, s, scan(todo[0]));
      PassKeeps(c, s, scan);
      SelectionStops(c, m, scan);
      var p := Passed(c, m, scan);
      if p < |m.flusher.todo| {
        var next := m.flusher.todo[p];
        assert next == todo[1 + p] && next != todo[0];
        DueElsewhere(c, s.spool, m.spool, s.flusher.started, scan, next);
        StopsElsewhere(c, s.spool, m.spool, ScanAll(c, s, scan).flusher, scan, next);
      }
    }
  }

  lemma DueElsewhere(c: Config, spool: map<string, File>, other: map<string, File>, started: int, scan: string -> ScanIo, n: string)
    requires ValidConfig(c)
    requires (n in spool <==> n in other) && (n in spool ==> spool[n] == other[n])
    ensures Due(c, spool, started, scan, n) == Due(c, other, started, scan, n)
  {
  }

  lemma StopsElsewhere(c: Config, spool: map<string, File>, other: map<string, File>, f: Flusher, scan: string -> ScanIo, n: string)
    requires ValidConfig(c) && f.Scanning?
    requires (n in spool <==> n in other) && (n in spool ==> spool[n] == other[n])
    requires StopsFor(c, other, f, scan, n)
    ensures StopsFor(c, spool, f, scan, n)
  {
    DueElsewhere(c, spool, other, f.started, scan, n);
  }

  lemma ExhaustedNotDue(c: Config, spool: map<string, File>, started: int, scan: string -> ScanIo, n: string)
    requires ValidConfig(c) && Exhausted(c, n)
    ensures !Due(c, spool, started, scan, n)
  {
  }

  /** The batch of a disk flush is the greedy one.  For some number p of names passed, it is the
      due files among the first p of the sorted listing, in that order; the exhausted ones among
      those are moved to the failed directory and nothing else changes; it respects both caps;
      and if p is not the whole listing, the batch was full or the next file was due and would
      have burst the byte cap. */
  lemma GreedyBatch(c: Config, s: State, io: FlushIo) returns (p: nat)
    requires ValidConfig(c) && Enabled(c, s, SeeEmpty)
    ensures var listing := Listing(s.spool);
            var s1 := StartScan(c, s, io);
            var t := ScanAll(c, s1, io.scan);
            && p <= |listing| && t.flusher.Scanning?
            && t.flusher.picked == DueNames(c, s.spool, Clock(s, io.at), io.scan, listing[..p])
            && Moves(c, s1, t, io.scan, listing[..p])
            && WithinCaps(c, t.flusher) && t.flusher.bytes == SizeOf(s.spool, t.flusher.picked)
            && (p < |listing| ==> StopsFor(c, s.spool, t.flusher, io.scan, listing[p]))
  {
    hide ScanAll, Passed, Moves, StopsFor, DueNames, Listing, IsListing;
    ListingIs(s.spool);
    ListingDistinct(s.spool);
    var s1 := StartScan(c, s, io);
    p := Passed(c, s1, io.scan);
    SelectionPicks(c, s1, io.scan);
    SelectionMoves(c, s1, io.scan);
    SelectionFits(c, s1, io.scan);
    SelectionBytes(c, s1, io.scan, s.spool);
    SelectionStops(c, s1, io.scan);
  }

  lemma ListingDistinct(dir: map<string, File>)
    ensures NoDuplicates(Listing(dir))
  {
    hide Listing;
    ListingIs(dir);
    SortedHasNoDuplicates(Listing(dir));
  }

  // ---------------------------------------------------------------- every flush makes progress

  lemma {:induction false} ScanAllPending(c: Config, s: State, scan: string -> ScanIo)
    requires ValidConfig(c) && Safe(c, s) && s.flusher.Scanning?
    ensures var t := ScanAll(c, s, scan);
            Safe(c, t) && Pending(c, t) <= Pending(c, s) && (t.spool != s.spool ==> Pending(c, t) < Pending(c, s))
    decreases |s.flusher.todo|
  {
    hide Safe, Pending, ScanHead;
    if s.flusher.todo != [] {
      var io := scan(s.flusher.todo[0]);
      ScanShape(c, s, io);
      SafeScan(c, s, io);
      PendingScan(c, s, io);
      ScanChanges(c, s, io);
      ScanAllPending(c, ScanHead(c, s, io), scan);
    }
  }

  lemma ScanChanges(c: Config, s: State, io: ScanIo)
    requires ValidConfig(c) && s.flusher.Scanning? && s.flusher.todo != []
    ensures ScanHead(c, s, io).spool != s.spool ==> Progress(c, s, ScanNext(io))
  {
    hide ParseRetries, Backoff.Duration, Overwritten;
  }

  /** Some file of the batch satisfies `ok`. */
  predicate Some(names: seq<string>, ok: string -> bool)
  {
    exists n :: n in names && ok(n)
  }

  lemma SomeCons(names: seq<string>, ok: string -> bool)
    requires names != []
    ensures Some(names, ok) <==> ok(names[0]) || Some(names[1..], ok)
  {
    assert names == [names[0]] + names[1..];
    if ok(names[0]) {
      assert names[0] in names;
    }
  }

  lemma RemovalPresent(c: Config, s: State)
    requires ValidConfig(c) && Safe(c, s) && s.flusher.Removing? && s.flusher.removals != []
    ensures s.flusher.removals[0] in s.spool
  {
    hide TidyBy, FilesOk;
    RemovingRest(c, s.flusher, s.now, s.spool, s.past.delivered);
  }

  lemma {:induction false} RemoveAllPending(c: Config, s: State, removeOk: string -> bool)
    requires ValidConfig(c) && Safe(c, s)
    ensures var t := RemoveAll(s, removeOk);
            && Safe(c, t) && Pending(c, t) <= Pending(c, s)
            && (Pending(c, t) < Pending(c, s) <==> s.flusher.Removing? && Some(s.flusher.removals, removeOk))
    decreases if s.flusher.Removing? then |s.flusher.removals| else 0
  {
    hide Safe, Pending, Some;
    if s.flusher.Removing? && s.flusher.removals != [] {
      var names := s.flusher.removals;
      var ok := removeOk(names[0]);
      SafeRemove(c, s, ok);
      RemovalPresent(c, s);
      PendingRemove(c, s, ok);
      RemoveAllPending(c, RemoveHead(s, ok), removeOk);
      SomeCons(names, removeOk);
      NoneOf(names[1..], removeOk);
    } else if s.flusher.Removing? {
      NoneOf(s.flusher.removals, removeOk);
    }
  }

  lemma NoneOf(names: seq<string>, ok: string -> bool)
    ensures names == [] ==> !Some(names, ok)
  {
  }

  /** The files whose bump raises their retry count. */
  function Ages(bump: string -> BumpIo): string -> bool
  {
    (n: string) => bump(n).renameOk && Marked(n)
  }

  lemma {:induction false} BumpAllPending(c: Config, s: State, bump: string -> BumpIo)
    requires ValidConfig(c) && Safe(c, s)
    ensures var t := BumpAll(s, bump);
            && Safe(c, t) && Pending(c, t) <= Pending(c, s)
            && (Pending(c, t) < Pending(c, s) <==> s.flusher.Bumping? && Some(s.flusher.bumps, Ages(bump)))
    decreases if s.flusher.Bumping? then |s.flusher.bumps| else 0
  {
    hide Safe, Pending, Bumped, Marked, Overwritten, BumpFile, Some;
    if s.flusher.Bumping? && s.flusher.bumps != [] {
      var names := s.flusher.bumps;
      var io := bump(names[0]);
      SafeBump(c, s, io.at, io.touchOk, io.renameOk);
      SafeInRange(c, s);
      PendingBump(c, s, io.at, io.touchOk, io.renameOk);
      BumpAllPending(c, BumpHead(s, io.at, io.touchOk, io.renameOk), bump);
      SomeCons(names, Ages(bump));
      NoneOf(names[1..], Ages(bump));
    } else if s.flusher.Bumping? {
      NoneOf(s.flusher.bumps, Ages(bump));
    }
  }

  /** A batch clears something up: some of its files can be read, and after a successful send one
      can be removed, after a failed one a file with the `_r` mark can be renamed. */
  ghost predicate ClearsUp(spool: map<string, File>, batch: seq<string>, io: FlushIo)
  {
    && (exists n :: n in batch && n in io.decoded && n in spool)
    && if io.sendOk then Some(batch, io.removeOk) else Some(batch, Ages(io.bump))
  }

  lemma SendDiskShape(c: Config, s: State, io: FlushIo)
    requires ValidConfig(c) && s.flusher.SendingDisk?
    ensures var t := Apply(c, s, SendDisk(io.decoded, io.sendOk));
            var batch := s.flusher.batch;
            && t.spool == s.spool
            && (if !exists n :: n in batch && n in io.decoded && n in s.spool then t.flusher.Idle?
                else if io.sendOk then t.flusher.Removing? && t.flusher.removals == batch
                else t.flusher.Bumping? && t.flusher.bumps == batch)
  {
    var readable := set n | n in s.flusher.batch && n in io.decoded && n in s.spool;
    if n :| n in s.flusher.batch && n in io.decoded && n in s.spool {
      assert n in readable;
    } else {
      assert readable == {};
    }
  }

  lemma {:induction false} RemoveAllEnds(s: State, removeOk: string -> bool)
    requires s.flusher.Removing? && s.flusher.removals != []
    ensures RemoveAll(s, removeOk).flusher.Idle?
    decreases |s.flusher.removals|
  {
    var t := RemoveHead(s, removeOk(s.flusher.removals[0]));
    if t.flusher.Removing? {
      RemoveAllEnds(t, removeOk);
    }
  }

  lemma SendPending(c: Config, s: State, io: FlushIo)
    requires ValidConfig(c) && Safe(c, s) && s.flusher.SendingDisk? && s.flusher.batch != []
    ensures var t := SendSpec(c, s, io);
            && Pending(c, t) <= Pending(c, s)
            && (Pending(c, t) < Pending(c, s) <==> ClearsUp(s.spool, s.flusher.batch, io))
  {
    hide Safe, Pending, RemoveAll, BumpAll, Some, Apply;
    var l := SendDisk(io.decoded, io.sendOk);
    var s1 := Apply(c, s, l);
    SafeStep(c, s, l);
    SendDiskShape(c, s, io);
    PendingSame(c, s, s1);
    RemoveAllPending(c, s1, io.removeOk);
    var s2 := RemoveAll(s1, io.removeOk);
    if s1.flusher.Removing? {
      RemoveAllEnds(s1, io.removeOk);
    } else {
      RemoveNothing(s1, io.removeOk);
    }
    BumpAllPending(c, s2, io.bump);
  }

  lemma FlushPending(c: Config, s: State, io: FlushIo)
    requires ValidConfig(c) && Safe(c, s) && Enabled(c, s, SeeEmpty) && io.dirOk
    ensures var t := FlushDiskSpec(c, s, io);
            var s2 := ScanAll(c, StartScan(c, s, io), io.scan);
            && s2.flusher.Scanning? && Pending(c, t) <= Pending(c, s)
            && (Pending(c, t) < Pending(c, s) <==>
                  s2.spool != s.spool || ClearsUp(s2.spool, s2.flusher.picked, io))
  {
    hide Safe, Pending, ScanAll, SendSpec, Marked, Listing, IsListing, Some;
    ListingIs(s.spool);
    var s1 := StartScan(c, s, io);
    var look, read := SeeEmpty, ReadDir(io.at, Listing(s.spool));
    SafeStep(c, s, look);
    SafeStep(c, Apply(c, s, look), read);
    PendingSame(c, s, s1);
    ScanAllDone(c, s1, io.scan);
    ScanAllPending(c, s1, io.scan);
    var s2 := ScanAll(c, s1, io.scan);
    if s2.spool == s.spool {
      PendingSame(c, s, s2);
    }
    var s3 := Apply(c, s2, EndScan);
    ApplyEndScan(c, s2);
    SafeStep(c, s2, EndScan);
    PendingSame(c, s2, s3);
    if s3.flusher.SendingDisk? {
      SendPending(c, s3, io);
    }
  }

  lemma {:induction false} DueNamesAreDue(c: Config, spool: map<string, File>, started: int, scan: string -> ScanIo, names: seq<string>)
    requires ValidConfig(c)
    ensures forall n :: n in DueNames(c, spool, started, scan, names) ==> n in spool && !Exhausted(c, n)
  {
    hide ParseRetries, Backoff.Duration;
    if names != [] {
      DueNamesAreDue(c, spool, started, scan, names[1..]);
    }
  }

  /** Some exhausted file among the names passed can be moved. */
  predicate SomeMove(c: Config, scan: string -> ScanIo, names: seq<string>)
  {
    exists n :: n in names && Exhausted(c, n) && scan(n).moveOk
  }

  lemma MovesSome(c: Config, s: State, t: State, scan: string -> ScanIo, names: seq<string>)
    requires Moves(c, s, t, scan, names) && forall n :: n in names ==> n in s.spool
    ensures t.spool != s.spool <==> SomeMove(c, scan, names)
  {
    hide Exhausted;
    if SomeMove(c, scan, names) {
      var n :| n in names && Exhausted(c, n) && scan(n).moveOk;
      assert n in s.spool && n !in t.spool;
    } else {
      assert t.spool.Keys == s.spool.Keys;
    }
  }

  lemma PassedClears(c: Config, s: State, t: State, io: FlushIo, started: int, names: seq<string>, batch: seq<string>)
    requires ValidConfig(c) && Moves(c, s, t, io.scan, names)
    requires batch == DueNames(c, s.spool, started, io.scan, names)
    ensures ClearsUp(t.spool, batch, io) <==> ClearsUp(s.spool, batch, io)
  {
    DueNamesAreDue(c, s.spool, started, io.scan, names);
    hide Exhausted, Some, DueNames;
    forall n | n in batch ensures n in t.spool <==> n in s.spool {
    }
  }

  /** A disk flush strictly reduces the work left in the spool if and only if, among the p names
      the scan gets through, there is an exhausted file that can be moved, or the batch they give
      clears something up; otherwise the same amount is left. */
  lemma FlushDrains(c: Config, s: State, io: FlushIo) returns (p: nat)
    requires ValidConfig(c) && Safe(c, s) && Enabled(c, s, SeeEmpty) && io.dirOk
    ensures var t := FlushDiskSpec(c, s, io);
            var listing := Listing(s.spool);
            && p <= |listing| && Pending(c, t) <= Pending(c, s)
            && ScanAll(c, StartScan(c, s, io), io.scan).flusher.Scanning?
            && var batch := ScanAll(c, StartScan(c, s, io), io.scan).flusher.picked;
            && batch == DueNames(c, s.spool, Clock(s, io.at), io.scan, listing[..p])
            && (p < |listing| ==>
                  StopsFor(c, s.spool, ScanAll(c, StartScan(c, s, io), io.scan).flusher, io.scan, listing[p]))
            && (Pending(c, t) < Pending(c, s) <==>
                  SomeMove(c, io.scan, listing[..p]) || ClearsUp(s.spool, batch, io))
  {
    hide Safe, Pending, ScanAll, FlushDiskSpec, Listing, Moves, DueNames, ClearsUp, SomeMove, StopsFor, WithinCaps;
    p := GreedyBatch(c, s, io);
    FlushPending(c, s, io);
    ListingIs(s.spool);
    var listing, s1 := Listing(s.spool), StartScan(c, s, io);
    var s2 := ScanAll(c, s1, io.scan);
    MovesSome(c, s1, s2, io.scan, listing[..p]);
    PassedClears(c, s1, s2, io, Clock(s, io.at), listing[..p], s2.flusher.picked);
  }

  /** A memory flush always drains: its batch is acknowledged, or what of it reaches the spool
      counts for less there. */
  lemma MemoryFlushDrains(c: Config, s: State, sendOk: bool, writes: nat -> Write)
    requires ValidConfig(c) && Enabled(c, s, TakeBatch)
    ensures Load(c, FlushMemorySpec(c, s, sendOk, writes)) < Load(c, s)
  {
    hide Load, SpillUnsentAll, BatchLength, Sizes;
    var s1 := Apply(c, s, TakeBatch);
    LoadTake(c, s);
    LoadSend(c, s1, sendOk);
    TakesSome(c, s);
    SpillAllDrains(c, Apply(c, s1, SendMemory(sendOk)), writes, 0);
  }

  lemma TakesSome(c: Config, s: State)
    requires ValidConfig(c) && Enabled(c, s, TakeBatch)
    ensures var f := Apply(c, s, TakeBatch).flusher;
            f.SendingMemory? && f.mems != []
  {
  }

  lemma {:induction false} SpillAllDrains(c: Config, s: State, writes: nat -> Write, i: nat)
    requires ValidConfig(c)
    ensures var t := SpillUnsentAll(c, s, writes, i);
            && Load(c, t) <= Load(c, s)
            && (s.flusher.SpillingMemory? && s.flusher.spills != [] ==> Load(c, t) < Load(c, s))
    decreases if s.flusher.SpillingMemory? then |s.flusher.spills| else 0
  {
    hide Load, WriteToDisk;
    if s.flusher.SpillingMemory? && s.flusher.spills != [] {
      LoadSpill(c, s, writes(i));
      SpillUnsentShape(c, s, writes(i));
      SpillAllDrains(c, Apply(c, s, SpillUnsent(writes(i))), writes, i + 1);
    }
  }
}
