/** The queue object: the methods of `Queue` run from beginning to end by one goroutine.

    Every method is specified by a function made of the protocol's own steps, and
    `EnqueueIsRun`, `FlushMemoryIsRun` and `FlushDiskIsRun` say that those functions are runs of
    the protocol, so what holds of all runs holds after every method call. */
module QueueObject {
  import opened Order
  import opened SpoolNames
  import opened QueueModel
  import opened QueueConservation
  import opened QueueSafety
  import Backoff

  // ---------------------------------------------------------------- what the methods compute

  /** The spill loop: oldest reports go to disk until both caps hold. */
  ghost function SpillAll(c: Config, s: State, writes: nat -> Write, i: nat): State
    decreases |s.mem|
  {
    if Over(c, s) && s.mem != [] then SpillAll(c, SpillHead(s, writes(i)), writes, i + 1) else s
  }

  ghost function EnqueueSpec(c: Config, s: State, r: Report, writes: nat -> Write): State
    requires ValidConfig(c) && !s.locked
  {
    if c.memoryBuffer == 0 then Apply(c, s, AcceptToDisk(r, writes(0)))
    else SpillAll(c, Apply(c, s, Accept(r)), writes, 0).(locked := false)
  }

  /** The reports of an unsent batch go to disk one by one. */
  ghost function SpillUnsentAll(c: Config, s: State, writes: nat -> Write, i: nat): State
    requires ValidConfig(c)
    decreases if s.flusher.SpillingMemory? then |s.flusher.spills| else 0
  {
    if s.flusher.SpillingMemory? && s.flusher.spills != [] then
      SpillUnsentAll(c, Apply(c, s, SpillUnsent(writes(i))), writes, i + 1)
    else s
  }

  ghost function FlushMemorySpec(c: Config, s: State, sendOk: bool, writes: nat -> Write): State
    requires ValidConfig(c) && Enabled(c, s, TakeBatch)
  {
    SpillUnsentAll(c, Apply(c, Apply(c, s, TakeBatch), SendMemory(sendOk)), writes, 0)
  }

  /** The selection loop over the listing. */
  ghost function ScanAll(c: Config, s: State, scan: string -> ScanIo): State
    requires ValidConfig(c)
    decreases if s.flusher.Scanning? then |s.flusher.todo| else 0
  {
    if s.flusher.Scanning? && s.flusher.todo != [] then
      ScanAll(c, ScanHead(c, s, scan(s.flusher.todo[0])), scan)
    else s
  }

  ghost function RemoveAll(s: State, removeOk: string -> bool): State
    decreases if s.flusher.Removing? then |s.flusher.removals| else 0
  {
    if s.flusher.Removing? && s.flusher.removals != [] then
      RemoveAll(RemoveHead(s, removeOk(s.flusher.removals[0])), removeOk)
    else s
  }

  /** The outcome of bumping one file. */
  datatype BumpIo = BumpIo(at: nat, touchOk: bool, renameOk: bool)

  ghost function BumpAll(s: State, bump: string -> BumpIo): State
    decreases if s.flusher.Bumping? then |s.flusher.bumps| else 0
  {
    if s.flusher.Bumping? && s.flusher.bumps != [] then
      var io := bump(s.flusher.bumps[0]);
      BumpAll(BumpHead(s, io.at, io.touchOk, io.renameOk), bump)
    else s
  }

  /** Everything a disk flush asks its environment. */
  datatype FlushIo = FlushIo(
    dirOk: bool,                  // os.MkdirAll and os.ReadDir
    at: nat,                      // the clock when the scan starts
    scan: string -> ScanIo,
    decoded: set<string>,         // files that can be read and decoded
    sendOk: bool,
    removeOk: string -> bool,
    bump: string -> BumpIo)

  /** Sending a selected batch and clearing up after it. */
  ghost function SendSpec(c: Config, s: State, io: FlushIo): State
    requires ValidConfig(c) && s.flusher.SendingDisk?
  {
    BumpAll(RemoveAll(Apply(c, s, SendDisk(io.decoded, io.sendOk)), io.removeOk), io.bump)
  }

  ghost function StartScan(c: Config, s: State, io: FlushIo): State
    requires ValidConfig(c) && Enabled(c, s, SeeEmpty)
  {
    ListingIs(s.spool);
    Apply(c, Apply(c, s, SeeEmpty), ReadDir(io.at, Listing(s.spool)))
  }

  ghost function FlushDiskSpec(c: Config, s: State, io: FlushIo): State
    requires ValidConfig(c) && Enabled(c, s, SeeEmpty)
  {
    if !io.dirOk then Apply(c, Apply(c, s, SeeEmpty), GiveUp)
    else
      var s1 := StartScan(c, s, io);
      ScanAllDone(c, s1, io.scan);
      var t := ScanAll(c, s1, io.scan);
      if t.flusher.picked == [] then Apply(c, t, EndScan) else SendSpec(c, Apply(c, t, EndScan), io)
  }

  lemma StartScanIs(c: Config, s: State, io: FlushIo)
    requires ValidConfig(c) && Enabled(c, s, SeeEmpty)
    ensures StartScan(c, s, io) ==
      s.(now := Clock(s, io.at), flusher := Scanning(Listing(s.spool), [], 0, Clock(s, io.at)))
  {
    hide Listing, IsListing;
  }

  lemma NoDirectory(c: Config, s: State, io: FlushIo)
    requires ValidConfig(c) && Enabled(c, s, SeeEmpty) && !io.dirOk
    ensures FlushDiskSpec(c, s, io) == s.(flusher := Idle)
  {
    hide ScanAll, StartScan, SendSpec, ScanHead, IsListing;
  }

  /** The selected batch, if any, is sent. */
  lemma SendSelected(c: Config, s: State, io: FlushIo)
    requires ValidConfig(c) && Enabled(c, s, SeeEmpty) && io.dirOk
    ensures var t := ScanAll(c, StartScan(c, s, io), io.scan);
            && t.flusher.Scanning?
            && FlushDiskSpec(c, s, io) ==
                 if t.flusher.picked == [] then t.(flusher := Idle)
                 else SendSpec(c, t.(flusher := SendingDisk(t.flusher.picked, t.flusher.started)), io)
  {
    var s1 := StartScan(c, s, io);
    StartScanIs(c, s, io);
    hide ScanAll, StartScan, SendSpec, ScanHead, IsListing, Apply;
    ScanAllDone(c, s1, io.scan);
    ScanEnds(c, ScanAll(c, s1, io.scan));
  }

  lemma ScanEnds(c: Config, s: State)
    requires ValidConfig(c) && Enabled(c, s, EndScan)
    ensures Apply(c, s, EndScan) == s.(flusher :=
      if s.flusher.picked == [] then Idle else SendingDisk(s.flusher.picked, s.flusher.started))
  {
  }

  lemma {:induction false} ScanAllDone(c: Config, s: State, scan: string -> ScanIo)
    requires ValidConfig(c) && s.flusher.Scanning?
    ensures var t := ScanAll(c, s, scan);
            t.flusher.Scanning? && t.flusher.todo == [] && t.flusher.started == s.flusher.started
    decreases |s.flusher.todo|
  {
    if s.flusher.todo != [] {
      ScanShape(c, s, scan(s.flusher.todo[0]));
      ScanAllDone(c, ScanHead(c, s, scan(s.flusher.todo[0])), scan);
    }
  }

  lemma ScanShape(c: Config, s: State, io: ScanIo)
    requires ValidConfig(c) && s.flusher.Scanning? && s.flusher.todo != []
    ensures var t := ScanHead(c, s, io);
            t.flusher.Scanning? && |t.flusher.todo| < |s.flusher.todo| && t.flusher.started == s.flusher.started
  {
  }

  // ---------------------------------------------------------------- what the spill loop keeps

  /** What the buffer may hold when nobody is inside Enqueue. */
  predicate FitsBuffer(c: Config, rs: seq<Report>)
  {
    |rs| <= c.memoryBuffer && Sizes(rs) <= c.maxBatchBytes
  }

  /** `kept` is the longest suffix of `rs` that fits. */
  predicate LongestFit(c: Config, rs: seq<Report>, kept: seq<Report>)
  {
    && |kept| <= |rs| && kept == rs[|rs| - |kept|..] && FitsBuffer(c, kept)
    && forall j :: 0 <= j < |rs| - |kept| ==> !FitsBuffer(c, rs[j..])
  }

  lemma LongestFitUnique(c: Config, rs: seq<Report>, kept: seq<Report>, other: seq<Report>)
    requires LongestFit(c, rs, kept) && LongestFit(c, rs, other)
    ensures kept == other
  {
    AtLeastAsLong(c, rs, kept, other);
    AtLeastAsLong(c, rs, other, kept);
  }

  lemma AtLeastAsLong(c: Config, rs: seq<Report>, kept: seq<Report>, other: seq<Report>)
    requires LongestFit(c, rs, kept) && LongestFit(c, rs, other)
    ensures |other| <= |kept|
  {
    hide FitsBuffer;
    var j := |rs| - |other|;
    assert rs[j..] == other;
  }

  lemma LongestFitTail(c: Config, rs: seq<Report>, kept: seq<Report>)
    requires rs != [] && !FitsBuffer(c, rs) && LongestFit(c, rs[1..], kept)
    ensures LongestFit(c, rs, kept)
  {
    hide FitsBuffer;
    assert rs[0..] == rs;
    forall j | 0 <= j < |rs| - |kept| ensures !FitsBuffer(c, rs[j..]) {
      if j > 0 {
        assert rs[1..][j - 1..] == rs[j..];
      }
    }
  }

  lemma LongestFitWhole(c: Config, rs: seq<Report>)
    requires FitsBuffer(c, rs)
    ensures LongestFit(c, rs, rs)
  {
    assert rs[0..] == rs;
  }

  lemma KeepsAllThatFits(c: Config, mem: seq<Report>, r: Report, kept: seq<Report>)
    requires LongestFit(c, mem + [r], kept)
    ensures |kept| <= |mem| + 1
    ensures |mem| + 1 <= c.memoryBuffer && Sizes(mem) + r.size <= c.maxBatchBytes ==> kept == mem + [r]
  {
    if |mem| + 1 <= c.memoryBuffer && Sizes(mem) + r.size <= c.maxBatchBytes {
      SizesSnoc(mem, r);
      LongestFitWhole(c, mem + [r]);
      LongestFitUnique(c, mem + [r], mem + [r], kept);
    }
  }

  /** Reports that left the buffer are in the spool or counted as lost. */
  ghost predicate WrittenOrLost(rs: seq<Report>, spool: map<string, File>, lost: multiset<Report>,
                                after: map<string, File>, lostAfter: multiset<Report>)
  {
    && Contents(after) + lostAfter == Contents(spool) + lost + multiset(rs)
    && (rs == [] ==> after == spool && lostAfter == lost)
  }

  lemma OneWrittenOrLost(s: State, r: Report, w: Write)
    ensures var t := WriteToDisk(s, r, w);
            WrittenOrLost([r], s.spool, s.past.lost, t.spool, t.past.lost)
  {
    hide Contents, Stem, Overwritten, NewName;
    var t, name, now := WriteToDisk(s, r, w), NewName(s, w), Clock(s, w.at);
    if w.ok {
      ContentsWith(s.spool, name, File(r, now, Written, now, 0, 0, true));
      var over := Overwritten(s.spool, name);
      assert t.past.lost == s.past.lost + over;
      assert Contents(t.spool) + (s.past.lost + over) == (Contents(t.spool) + over) + s.past.lost;
    }
  }

  lemma WrittenOrLostThen(r: Report, rs: seq<Report>, s: State, m: State, t: State)
    requires WrittenOrLost([r], s.spool, s.past.lost, m.spool, m.past.lost)
    requires WrittenOrLost(rs, m.spool, m.past.lost, t.spool, t.past.lost)
    ensures WrittenOrLost([r] + rs, s.spool, s.past.lost, t.spool, t.past.lost)
  {
    hide Contents;
    assert multiset([r] + rs) == multiset([r]) + multiset(rs);
  }

  lemma SpillThen(c: Config, s: State, next: State, t: State)
    requires s.mem != [] && !FitsBuffer(c, s.mem) && next.mem == s.mem[1..]
    requires LongestFit(c, next.mem, t.mem) && |t.mem| <= |next.mem|
    requires WrittenOrLost([s.mem[0]], s.spool, s.past.lost, next.spool, next.past.lost)
    requires WrittenOrLost(next.mem[..|next.mem| - |t.mem|], next.spool, next.past.lost, t.spool, t.past.lost)
    ensures LongestFit(c, s.mem, t.mem)
    ensures WrittenOrLost(s.mem[..|s.mem| - |t.mem|], s.spool, s.past.lost, t.spool, t.past.lost)
  {
    hide FitsBuffer, LongestFit, WrittenOrLost;
    LongestFitTail(c, s.mem, t.mem);
    var rest := next.mem[..|next.mem| - |t.mem|];
    WrittenOrLostThen(s.mem[0], rest, s, next, t);
    assert s.mem[..|s.mem| - |t.mem|] == [s.mem[0]] + rest;
  }

  lemma SpillHeadMemory(s: State, w: Write)
    requires s.mem != []
    ensures var t := SpillHead(s, w);
            t.mem == s.mem[1..] && t.memBytes == s.memBytes - s.mem[0].size && t.failed == s.failed
  {
    hide NewName, Stem, Overwritten;
  }

  lemma SpillHeadDisk(s: State, w: Write)
    requires s.mem != []
    ensures var t := SpillHead(s, w);
            WrittenOrLost([s.mem[0]], s.spool, s.past.lost, t.spool, t.past.lost)
  {
    hide WriteToDisk, WrittenOrLost;
    OneWrittenOrLost(s.(mem := s.mem[1..], memBytes := s.memBytes - s.mem[0].size), s.mem[0], w);
  }

  lemma SpillAllStep(c: Config, s: State, writes: nat -> Write, i: nat)
    requires s.memBytes == Sizes(s.mem) && s.mem != [] && !FitsBuffer(c, s.mem)
    ensures SpillAll(c, s, writes, i) == SpillAll(c, SpillHead(s, writes(i)), writes, i + 1)
  {
    hide SpillHead;
  }

  /** The spill loop keeps the longest suffix that fits and writes out or loses the rest. */
  lemma {:induction false} SpillAllKeeps(c: Config, s: State, writes: nat -> Write, i: nat)
    requires ValidConfig(c) && s.memBytes == Sizes(s.mem)
    ensures var t := SpillAll(c, s, writes, i);
            && LongestFit(c, s.mem, t.mem) && |t.mem| <= |s.mem|
            && t.memBytes == Sizes(t.mem) && t.failed == s.failed
            && WrittenOrLost(s.mem[..|s.mem| - |t.mem|], s.spool, s.past.lost, t.spool, t.past.lost)
    decreases |s.mem|
  {
    hide SpillHead, Contents, LongestFit;
    if FitsBuffer(c, s.mem) {
      LongestFitWhole(c, s.mem);
      assert s.mem[..0] == [];
    } else {
      NoSizes();
      SizesTail(s.mem);
      var next, t := SpillHead(s, writes(i)), SpillAll(c, s, writes, i);
      SpillHeadMemory(s, writes(i));
      SpillHeadDisk(s, writes(i));
      SpillAllStep(c, s, writes, i);
      hide SpillAll, Sizes, FitsBuffer, WrittenOrLost;
      SpillAllKeeps(c, next, writes, i + 1);
      SpillThen(c, s, next, t);
    }
  }

  /** Enqueue through the buffer, without the loop: the longest suffix that fits stays. */
  lemma EnqueueKeeps(c: Config, s: State, r: Report, writes: nat -> Write)
    requires ValidConfig(c) && c.memoryBuffer > 0 && !s.locked && s.memBytes == Sizes(s.mem)
    ensures var t := EnqueueSpec(c, s, r, writes);
            && |t.mem| <= |s.mem| + 1 && LongestFit(c, s.mem + [r], t.mem) && t.failed == s.failed
            && WrittenOrLost((s.mem + [r])[..|s.mem| + 1 - |t.mem|], s.spool, s.past.lost, t.spool, t.past.lost)
            && (|s.mem| + 1 <= c.memoryBuffer && s.memBytes + r.size <= c.maxBatchBytes ==>
                  t.mem == s.mem + [r] && t.spool == s.spool)
  {
    hide SpillAll, LongestFit, Sizes, Contents, FitsBuffer;
    var s1 := Apply(c, s, Accept(r));
    SizesSnoc(s.mem, r);
    SpillAllKeeps(c, s1, writes, 0);
    KeepsAllThatFits(c, s.mem, r, SpillAll(c, s1, writes, 0).mem);
  }

  lemma BufferedShape(c: Config, s: State, r: Report, writes: nat -> Write)
    requires ValidConfig(c) && c.memoryBuffer > 0 && !s.locked
    ensures var accepted :=
              s.(mem := s.mem + [r], memBytes := s.memBytes + r.size, locked := true, past := s.past.Accept(r));
            && Apply(c, s, Accept(r)) == accepted
            && EnqueueSpec(c, s, r, writes) == SpillAll(c, accepted, writes, 0).(locked := false)
  {
    hide SpillAll;
  }

  lemma DirectShape(c: Config, s: State, r: Report, writes: nat -> Write)
    requires ValidConfig(c) && c.memoryBuffer == 0 && !s.locked
    ensures EnqueueSpec(c, s, r, writes) ==
      if writes(0).ok then var t := WriteToDisk(s, r, writes(0)); t.(past := t.past.Accept(r))
      else s.(now := Clock(s, writes(0).at))
    ensures Enabled(c, s, AcceptToDisk(r, writes(0)))
    ensures Apply(c, s, AcceptToDisk(r, writes(0))) == EnqueueSpec(c, s, r, writes)
    ensures var t := EnqueueSpec(c, s, r, writes);
            && t.mem == s.mem && t.failed == s.failed
            && t.spool == if !writes(0).ok then s.spool
                          else s.spool[SpoolName(t.now, writes(0).rnd) := File(r, t.now, Written, t.now, 0, 0, true)]
  {
    hide SpillAll, SpoolName, Stem, Overwritten;
  }

  // ---------------------------------------------------------------- the directory listing

  ghost function JsonNames(dir: map<string, File>): set<string>
  {
    set n | n in dir && HasJsonSuffix(n)
  }

  ghost function Enumerate(ns: set<string>): seq<string>
  {
    if ns == {} then []
    else
      var n :| n in ns;
      Enumerate(ns - {n}) + [n]
  }

  ghost function Listing(dir: map<string, File>): seq<string>
  {
    Sort(StrLess, Enumerate(JsonNames(dir)))
  }

  lemma {:induction false} EnumerateHas(ns: set<string>)
    ensures forall n :: n in Enumerate(ns) <==> n in ns
    ensures NoDuplicates(Enumerate(ns))
  {
    if ns != {} {
      var n :| n in ns && Enumerate(ns) == Enumerate(ns - {n}) + [n];
      EnumerateHas(ns - {n});
    }
  }

  /** Distinct names can be sorted strictly. */
  lemma SortNames(names: seq<string>)
    requires NoDuplicates(names)
    ensures StrictlySorted(StrLess, Sort(StrLess, names))
    ensures forall n :: n in Sort(StrLess, names) <==> n in names
  {
    StrLessIsOrder();
    forall i, j | 0 <= i < j < |names| ensures StrLess(names[i], names[j]) || StrLess(names[j], names[i]) {
      StrTrichotomy(names[i], names[j]);
    }
    SortSorts(StrLess, names);
    forall n ensures n in Sort(StrLess, names) <==> n in names {
      assert n in multiset(Sort(StrLess, names)) <==> n in multiset(names);
    }
  }

  lemma ListingIs(dir: map<string, File>)
    ensures IsListing(Listing(dir), dir)
  {
    EnumerateHas(JsonNames(dir));
    SortNames(Enumerate(JsonNames(dir)));
  }

  /** A listing has exactly the files whose name ends in `.json`, and so every file the queue writes or
      renames. */
  lemma ListedNames(dir: map<string, File>, stem: string, n: string, nanos: nat, rnd: Random6)
    ensures stem + ".json" in Listing(dir) <==> stem + ".json" in dir
    ensures n in Listing(dir) ==> n in dir && |n| >= 5 && n == n[..|n| - 5] + ".json"
    ensures SpoolName(nanos, rnd) in dir ==> SpoolName(nanos, rnd) in Listing(dir)
    ensures n in Listing(dir) && Bumped(n) in dir ==> Bumped(n) in Listing(dir)
  {
    hide Listing, SpoolStem, SpoolName, Bumped, HasJsonSuffix, IsListing;
    Listed(dir, stem + ".json");
    Listed(dir, n);
    Listed(dir, SpoolName(nanos, rnd));
    Listed(dir, Bumped(n));
    SuffixMeaning(stem);
    SpoolNameSuffix(nanos, rnd);
    SuffixCut(n);
    BumpedSuffix(n);
  }

  lemma Listed(dir: map<string, File>, n: string)
    ensures n in Listing(dir) <==> n in dir && HasJsonSuffix(n)
  {
    hide Listing, HasJsonSuffix;
    ListingIs(dir);
  }

  lemma SuffixMeaning(stem: string)
    ensures HasJsonSuffix(stem + ".json")
  {
  }

  lemma SuffixCut(n: string)
    ensures HasJsonSuffix(n) ==> |n| >= 5 && n == n[..|n| - 5] + ".json"
  {
  }

  lemma SpoolNameSuffix(nanos: nat, rnd: Random6)
    ensures HasJsonSuffix(SpoolName(nanos, rnd))
  {
    hide SpoolStem, HasJsonSuffix;
    SuffixMeaning(SpoolStem(nanos, rnd) + "0");
    assert SpoolName(nanos, rnd) == (SpoolStem(nanos, rnd) + "0") + ".json";
  }

  lemma BumpedSuffix(n: string)
    ensures HasJsonSuffix(n) ==> HasJsonSuffix(Bumped(n))
  {
    hide Itoa, ParseRetries;
    var idx := LastMark(n, |n|);
    if idx >= 0 {
      SuffixMeaning(n[..idx + 2] + Itoa(ParseRetries(n) + 1));
    }
  }

  lemma {:induction false} SameMultiset(xs: seq<string>, ys: seq<string>)
    requires NoDuplicates(xs) && NoDuplicates(ys)
    requires forall n :: n in xs <==> n in ys
    ensures multiset(xs) == multiset(ys)
  {
    forall n ensures multiset(xs)[n] == multiset(ys)[n] {
      CountOnce(xs, n);
      CountOnce(ys, n);
    }
  }

  lemma {:induction false} CountOnce(xs: seq<string>, n: string)
    requires NoDuplicates(xs)
    ensures multiset(xs)[n] == if n in xs then 1 else 0
  {
    if xs != [] {
      var init := xs[..|xs| - 1];
      assert xs == init + [xs[|xs| - 1]];
      CountOnce(init, n);
    }
  }

  lemma SortedHasNoDuplicates(xs: seq<string>)
    requires StrictlySorted(StrLess, xs)
    ensures NoDuplicates(xs)
  {
    forall i, j | 0 <= i < j < |xs| ensures xs[i] != xs[j] {
      StrTrichotomy(xs[i], xs[j]);
    }
  }

  /** There is one listing of a directory. */
  lemma ListingUnique(listing: seq<string>, dir: map<string, File>)
    requires IsListing(listing, dir)
    ensures listing == Listing(dir)
  {
    ListingIs(dir);
    SortedHasNoDuplicates(listing);
    SortedHasNoDuplicates(Listing(dir));
    SameMultiset(listing, Listing(dir));
    StrLessIsOrder();
    SortedIsUnique(StrLess, listing, Listing(dir));
  }

  // ---------------------------------------------------------------- the object

  class Queue {
    const cfg: Config
    var mem: seq<Report>
    var memBytes: int
    var spool: map<string, File>
    var failed: map<string, File>
    var now: nat
    ghost var past: History

    /** The protocol state this object stands for, given what its goroutines are doing. */
    ghost function View(locked: bool, flusher: Flusher): State
      reads this
    {
      State(mem, memBytes, locked, flusher, spool, failed, now, past)
    }

    ghost predicate Valid()
      reads this
    {
      ValidConfig(cfg) && Bounded(cfg, View(false, Idle))
    }

    /** `NewQueue`, on directories an earlier process may have left behind. */
    constructor (maxBatch: int, maxRetries: int, backoff: int, maxBatchBytes: int, memoryBuffer: int,
                 spool: map<string, File>, failed: map<string, File>, now: nat, ghost used: set<string>)
      ensures maxRetries < MAX_INT64 ==> Valid()
      ensures cfg == NewConfig(maxBatch, maxRetries, backoff, maxBatchBytes, memoryBuffer)
      ensures Fresh(View(false, Idle)) && this.spool == spool && this.failed == failed
      ensures past.used == used
    {
      cfg := NewConfig(maxBatch, maxRetries, backoff, maxBatchBytes, memoryBuffer);
      mem, memBytes := [], 0;
      this.spool, this.failed, this.now := spool, failed, now;
      past := History(Contents(spool) + Contents(failed), multiset{}, {}, multiset{}, used);
    }

    /** On failure only the clock has moved; the caller decides what that means for the report. */
    method WriteToDisk(r: Report, w: Write) returns (ok: bool)
      modifies this`spool, this`now, this`past
      ensures ok == w.ok
      ensures ok ==> forall l, f :: View(l, f) == QueueModel.WriteToDisk(old(View(l, f)), r, w)
      ensures !ok ==> now == Clock(old(View(false, Idle)), w.at) && spool == old(spool) && past == old(past)
    {
      now := if w.at > now then w.at else now;
      if !w.ok {
        return false;
      }
      var name := SpoolName(now, w.rnd);
      past := past.Lose(Overwritten(spool, name)).Use(Stem(name));
      spool := spool[name := File(r, now, Written, now, 0, 0, true)];
      return true;
    }

    /** The spill loop of Enqueue, inside the critical section. */
    method SpillWhileOver(writes: nat -> Write)
      requires ValidConfig(cfg) && cfg.memoryBuffer > 0 && Bounded(cfg, View(true, Idle))
      modifies this
      ensures View(true, Idle) == SpillAll(cfg, old(View(true, Idle)), writes, 0)
      ensures Bounded(cfg, View(true, Idle)) && !Over(cfg, View(true, Idle))
    {
      hide Contents, SpoolStem, Stem, SpoolName, Overwritten, QueueModel.WriteToDisk;
      ghost var goal := SpillAll(cfg, View(true, Idle), writes, 0);
      var i := 0;
      while |mem| > cfg.memoryBuffer || memBytes > cfg.maxBatchBytes
        invariant Bounded(cfg, View(true, Idle))
        invariant SpillAll(cfg, View(true, Idle), writes, i) == goal
        decreases |mem|
      {
        ghost var before := View(true, Idle);
        SpillOldest(writes(i));
        BoundedStep(cfg, before, QueueModel.SpillOldest(writes(i)));
        i := i + 1;
      }
    }

    /** One pass of it.  The buffer is not empty: see `Bounded`. */
    method SpillOldest(w: Write)
      requires mem != []
      modifies this
      ensures forall l, f :: View(l, f) == SpillHead(old(View(l, f)), w)
      ensures |mem| < old(|mem|)
    {
      hide SpoolStem, Stem, SpoolName, Overwritten;
      var item := mem[0];
      mem := mem[1..];
      memBytes := memBytes - item.size;
      var written := WriteToDisk(item, w);
      if !written {
        past := past.Lose(multiset{item});   // the warning in the log is all that remains
      }
    }

    /** Returns whether the report was accepted. */
    method Enqueue(r: Report, writes: nat -> Write) returns (ok: bool)
      requires Valid()
      modifies this
      ensures Valid()
      ensures View(false, Idle) == EnqueueSpec(cfg, old(View(false, Idle)), r, writes)
      ensures ok <==> cfg.memoryBuffer > 0 || writes(0).ok
      ensures failed == old(failed)
      ensures cfg.memoryBuffer == 0 ==>
        && mem == old(mem) && (!ok ==> spool == old(spool))
        && (ok ==> spool == old(spool)[SpoolName(now, writes(0).rnd) := File(r, now, Written, now, 0, 0, true)])
      ensures cfg.memoryBuffer > 0 ==>
        && LongestFit(cfg, old(mem) + [r], mem) && |old(mem)| + 1 >= |mem|
        && WrittenOrLost((old(mem) + [r])[..|old(mem)| + 1 - |mem|], old(spool), old(past).lost, spool, past.lost)
      ensures |old(mem)| + 1 <= cfg.memoryBuffer && old(memBytes) + r.size <= cfg.maxBatchBytes ==>
        mem == old(mem) + [r] && spool == old(spool)
    {
      hide Contents, SpoolStem, Stem, SpoolName, Overwritten, LongestFit, WrittenOrLost, SpillAll, Apply, EnqueueSpec,
        FitsBuffer, QueueModel.WriteToDisk, Sizes;
      ghost var s := View(false, Idle);
      if cfg.memoryBuffer == 0 {
        DirectShape(cfg, s, r, writes);
        ok := WriteToDisk(r, writes(0));
        if ok {
          past := past.Accept(r);
        }
        BoundedStep(cfg, s, AcceptToDisk(r, writes(0)));
      } else {
        BufferedShape(cfg, s, r, writes);
        EnqueueKeeps(cfg, s, r, writes);
        past := past.Accept(r);
        mem := mem + [r];
        memBytes := memBytes + r.size;
        assert View(true, Idle) == Apply(cfg, s, Accept(r));
        BoundedStep(cfg, s, Accept(r));
        SpillWhileOver(writes);
        ok := true;
      }
    }

    /** Returns whether there was anything to flush. */
    method FlushMemory(sendOk: bool, writes: nat -> Write) returns (flushed: bool)
      requires Valid()
      modifies this
      ensures Valid()
      ensures flushed <==> old(mem) != []
      ensures flushed ==> View(false, Idle) == FlushMemorySpec(cfg, old(View(false, Idle)), sendOk, writes)
      ensures !flushed ==> View(false, Idle) == old(View(false, Idle))
    {
      hide Contents, SpoolStem, Stem, SpoolName, Overwritten;
      if mem == [] {
        return false;
      }
      ghost var s := View(false, Idle);
      var batch := TakeBatch();
      BoundedStep(cfg, s, QueueModel.TakeBatch);
      if sendOk {
        past := past.Ack(multiset(batch)).Deliver(set r | r in batch);
      } else {
        SpillUnsent(batch, writes);
      }
      return true;
    }

    /** The critical section of flushMemory. */
    method TakeBatch() returns (batch: seq<Report>)
      requires Valid() && mem != []
      modifies this`mem, this`memBytes
      ensures View(false, SendingMemory(batch)) == Apply(cfg, old(View(false, Idle)), QueueModel.TakeBatch)
      ensures batch != []
    {
      hide Apply, Sizes;
      ghost var s := View(false, Idle);
      batch := [];
      var batchBytes := 0;
      var i := 0;
      assert Sizes(batch) == 0 by { NoSizes(); }
      while i < |mem|
        invariant mem == old(mem) && memBytes == old(memBytes)
        invariant i <= |mem| && batch == mem[..i] && batchBytes == Sizes(batch)
        invariant BatchLength(cfg, mem, i, batchBytes) == BatchLength(cfg, mem, 0, 0)
      {
        if i >= cfg.maxBatch {
          break;
        }
        if batchBytes + mem[i].size > cfg.maxBatchBytes && i > 0 {
          break;
        }
        SizesSnoc(batch, mem[i]);
        batch := batch + [mem[i]];
        batchBytes := batchBytes + mem[i].size;
        i := i + 1;
      }
      assert i == BatchLength(cfg, mem, 0, 0);
      hide BatchLength;
      TakenBatch(cfg, s, i);
      mem := mem[i..];
      memBytes := memBytes - batchBytes;
    }

    /** After a failed in-memory send. */
    method SpillUnsent(batch: seq<Report>, writes: nat -> Write)
      requires ValidConfig(cfg) && batch != []
      modifies this`spool, this`now, this`past
      ensures View(false, Idle) == SpillUnsentAll(cfg, old(View(false, SpillingMemory(batch))), writes, 0)
    {
      hide Contents, SpoolStem, Stem, SpoolName, Overwritten, Apply;
      ghost var goal := SpillUnsentAll(cfg, View(false, SpillingMemory(batch)), writes, 0);
      for i := 0 to |batch|
        invariant mem == old(mem) && memBytes == old(memBytes) && failed == old(failed)
        invariant SpillUnsentAll(cfg, View(false, if i < |batch| then SpillingMemory(batch[i..]) else Idle), writes, i) == goal
      {
        ghost var s := View(false, SpillingMemory(batch[i..]));
        ghost var next := if i + 1 < |batch| then SpillingMemory(batch[i + 1..]) else Idle;
        assert batch[i..][1..] == batch[i + 1..];
        SpillsFirst(cfg, s, writes(i));
        var written := WriteToDisk(batch[i], writes(i));
        if !written {
          past := past.Lose(multiset{batch[i]});
        }
        assert View(false, next) == Apply(cfg, s, QueueModel.SpillUnsent(writes(i)));
      }
    }

    /** `os.ReadDir`, the `.json` filter and `sort.Strings`. */
    method ListSpool() returns (files: seq<string>)
      ensures files == Listing(spool)
    {
      var names: seq<string> := [];
      var rest := spool.Keys;
      while rest != {}
        invariant rest <= spool.Keys
        invariant NoDuplicates(names)
        invariant forall n :: n in names <==> n in spool.Keys - rest && HasJsonSuffix(n)
        decreases rest
      {
        var n :| n in rest;
        if HasJsonSuffix(n) {
          names := names + [n];
        }
        rest := rest - {n};
      }
      files := Sort(StrLess, names);
      SortNames(names);
      ListingUnique(files, spool);
    }

    method MoveToFailed(name: string, ok: bool)
      modifies this`spool, this`failed, this`past
      ensures forall l, f :: View(l, f) == QueueModel.MoveToFailed(old(View(l, f)), name, ok)
    {
      if ok && name in spool {
        past := past.Lose(Overwritten(failed, name));
        failed := failed[name := spool[name]];
        spool := spool - {name};
      }
    }

    /** The selection loop of flushOnce. */
    method SelectBatch(files: seq<string>, started: int, scan: string -> ScanIo) returns (batchFiles: seq<string>)
      requires ValidConfig(cfg)
      modifies this`spool, this`failed, this`past
      ensures var t := ScanAll(cfg, old(View(false, Scanning(files, [], 0, started))), scan);
              && t.flusher.Scanning? && batchFiles == t.flusher.picked
              && View(false, t.flusher) == t
    {
      hide ParseRetries, Backoff.Duration, Overwritten;
      ghost var s := View(false, Scanning(files, [], 0, started));
      ScanAllDone(cfg, s, scan);
      batchFiles := [];
      var batchBytes := 0;
      var i := 0;
      while i < |files|
        invariant i <= |files|
        invariant mem == old(mem) && memBytes == old(memBytes) && now == old(now)
        invariant ScanAll(cfg, View(false, Scanning(files[i..], batchFiles, batchBytes, started)), scan) == ScanAll(cfg, s, scan)
      {
        var name := files[i];
        ghost var here := View(false, Scanning(files[i..], batchFiles, batchBytes, started));
        ghost var next := ScanHead(cfg, here, scan(name));
        assert files[i..][0] == name && files[i..][1..] == files[i + 1..];
        assert ScanAll(cfg, here, scan) == ScanAll(cfg, next, scan);
        if |batchFiles| >= cfg.maxBatch {
          assert next == View(false, Scanning([], batchFiles, batchBytes, started));
          i := |files|;
        } else if ParseRetries(name) > cfg.maxRetries {
          MoveToFailed(name, scan(name).moveOk);
          i := i + 1;
          assert next == View(false, Scanning(files[i..], batchFiles, batchBytes, started));
        } else if !scan(name).statOk || name !in spool {
          i := i + 1;
          assert next == View(false, Scanning(files[i..], batchFiles, batchBytes, started));
        } else if started - spool[name].mtime < Backoff.Duration(cfg.backoff, ParseRetries(name), scan(name).draw) {
          i := i + 1;
          assert next == View(false, Scanning(files[i..], batchFiles, batchBytes, started));
        } else if batchBytes + spool[name].report.size > cfg.maxBatchBytes && |batchFiles| > 0 {
          assert next == View(false, Scanning([], batchFiles, batchBytes, started));
          i := |files|;
        } else {
          batchFiles := batchFiles + [name];
          batchBytes := batchBytes + spool[name].report.size;
          i := i + 1;
          assert next == View(false, Scanning(files[i..], batchFiles, batchBytes, started));
        }
      }
      assert files[|files|..] == [];
    }

    method BumpOne(names: seq<string>, ghost started: int, io: BumpIo)
      requires names != []
      modifies this`spool, this`now, this`past
      ensures View(false, if |names| == 1 then Idle else Bumping(names[1..], started))
           == BumpHead(old(View(false, Bumping(names, started))), io.at, io.touchOk, io.renameOk)
    {
      hide ParseRetries, SetRetries, Overwritten;
      var name := names[0];
      now := if io.at > now then io.at else now;
      if name in spool {
        var file := spool[name];
        var dst := if io.renameOk then SetRetries(name, ParseRetries(name) + 1) else name;
        past := past.Lose(Overwritten(spool - {name}, dst));
        spool := (spool - {name})[dst := BumpFile(file, now, io.touchOk, io.renameOk)];
      }
    }

    method BumpRetries(names: seq<string>, ghost started: int, bump: string -> BumpIo)
      requires names != []
      modifies this`spool, this`now, this`past
      ensures View(false, Idle) == BumpAll(old(View(false, Bumping(names, started))), bump)
    {
      hide BumpHead;
      ghost var goal := BumpAll(View(false, Bumping(names, started)), bump);
      for i := 0 to |names|
        invariant mem == old(mem) && memBytes == old(memBytes) && failed == old(failed)
        invariant BumpAll(View(false, if i < |names| then Bumping(names[i..], started) else Idle), bump) == goal
      {
        assert names[i..][0] == names[i] && names[i..][1..] == names[i + 1..];
        BumpOne(names[i..], started, bump(names[i]));
      }
    }

    method RemoveFiles(names: seq<string>, ghost readable: set<string>, removeOk: string -> bool)
      requires names != []
      modifies this`spool, this`past
      ensures View(false, Idle) == RemoveAll(old(View(false, Removing(names, readable))), removeOk)
    {
      ghost var goal := RemoveAll(View(false, Removing(names, readable)), removeOk);
      for i := 0 to |names|
        invariant mem == old(mem) && memBytes == old(memBytes) && failed == old(failed) && now == old(now)
        invariant RemoveAll(View(false, if i < |names| then Removing(names[i..], readable) else Idle), removeOk) == goal
      {
        var name := names[i];
        ghost var here := View(false, Removing(names[i..], readable));
        ghost var next := if i + 1 < |names| then Removing(names[i + 1..], readable) else Idle;
        assert names[i..][0] == name && names[i..][1..] == names[i + 1..];
        if removeOk(name) && name in spool {
          past := if name in readable then past.Ack(multiset{spool[name].report}) else past.Lose(multiset{spool[name].report});
          spool := spool - {name};
        }
        assert View(false, next) == RemoveHead(here, removeOk(name));
      }
    }

    /** Reading, sending and clearing up. */
    method SendBatch(batch: seq<string>, started: int, io: FlushIo)
      requires ValidConfig(cfg) && batch != []
      modifies this`spool, this`now, this`past
      ensures View(false, Idle) == SendSpec(cfg, old(View(false, SendingDisk(batch, started))), io)
    {
      hide RemoveAll, BumpAll, RemoveHead, BumpHead;
      ghost var s := View(false, SendingDisk(batch, started));
      var readable := set n | n in batch && n in io.decoded && n in spool;
      if readable == {} {
        RemoveNothing(View(false, Idle), io.removeOk);
        BumpNothing(View(false, Idle), io.bump);
        return;
      }
      if io.sendOk {
        past := past.Deliver(DecodedReports(s, batch, readable));
        assert View(false, Removing(batch, readable)) == Apply(cfg, s, SendDisk(io.decoded, true));
        RemoveFiles(batch, readable, io.removeOk);
        BumpNothing(View(false, Idle), io.bump);
      } else {
        assert View(false, Bumping(batch, started)) == Apply(cfg, s, SendDisk(io.decoded, false));
        RemoveNothing(View(false, Bumping(batch, started)), io.removeOk);
        BumpRetries(batch, started, io.bump);
      }
    }

    /** The disk part of flushOnce. */
    method FlushDisk(io: FlushIo)
      requires Valid() && mem == []
      modifies this
      ensures Valid()
      ensures View(false, Idle) == FlushDiskSpec(cfg, old(View(false, Idle)), io)
    {
      hide Contents, ScanAll, Listing, IsListing, ScanHead, SendSpec, Apply, FlushDiskSpec, StartScan;
      ghost var s0 := View(false, Idle);
      if !io.dirOk {
        NoDirectory(cfg, s0, io);
      } else {
        StartScanIs(cfg, s0, io);
        SendSelected(cfg, s0, io);
        var files := ListSpool();
        now := if io.at > now then io.at else now;
        var started := now;
        ghost var s1 := View(false, Scanning(files, [], 0, started));
        assert s1 == StartScan(cfg, s0, io);
        ScanAllDone(cfg, s1, io.scan);
        var batch := SelectBatch(files, started, io.scan);
        if batch != [] {
          SendBatch(batch, started, io);
        }
      }
    }

    /** `flushOnce`: memory first, and the disk only when there was nothing in memory. */
    method FlushOnce(mkdirOk: bool, sendOk: bool, writes: nat -> Write, io: FlushIo)
      requires Valid()
      modifies this
      ensures Valid()
      ensures View(false, Idle) ==
        if !mkdirOk then old(View(false, Idle))
        else if old(mem) != [] then FlushMemorySpec(cfg, old(View(false, Idle)), sendOk, writes)
        else FlushDiskSpec(cfg, old(View(false, Idle)), io)
    {
      hide FlushMemorySpec, FlushDiskSpec;
      if mkdirOk {
        var flushed := FlushMemory(sendOk, writes);
        if !flushed {
          FlushDisk(io);
        }
      }
    }
  }

  lemma SpillsFirst(c: Config, s: State, w: Write)
    requires ValidConfig(c) && Enabled(c, s, SpillUnsent(w))
    ensures var rest := s.flusher.spills;
            Apply(c, s, SpillUnsent(w)) ==
              WriteToDisk(s.(flusher := if |rest| == 1 then Idle else SpillingMemory(rest[1..])), rest[0], w)
  {
    hide WriteToDisk;
  }

  lemma TakenBatch(c: Config, s: State, n: nat)
    requires ValidConfig(c) && Enabled(c, s, TakeBatch) && n == BatchLength(c, s.mem, 0, 0)
    ensures Apply(c, s, TakeBatch) ==
      s.(mem := s.mem[n..], memBytes := s.memBytes - Sizes(s.mem[..n]), flusher := SendingMemory(s.mem[..n]))
  {
    hide BatchLength, Sizes;
  }

  lemma NoSizes()
    ensures Sizes([]) == 0
  {
  }

  lemma SizesSnoc(rs: seq<Report>, r: Report)
    ensures Sizes(rs + [r]) == Sizes(rs) + r.size
  {
    assert (rs + [r])[..|rs|] == rs;
  }

  lemma BumpNothing(s: State, bump: string -> BumpIo)
    requires !s.flusher.Bumping?
    ensures BumpAll(s, bump) == s
  {
  }

  lemma RemoveNothing(s: State, removeOk: string -> bool)
    requires !s.flusher.Removing?
    ensures RemoveAll(s, removeOk) == s
  {
  }
}
