/** The promises of the forwarding queue, for every run from a fresh start: conservation with
    its exact conditions, at-least-once delivery, retry accounting, pacing, and progress. */
module QueueTheorems {
  import opened SpoolNames
  import opened QueueModel
  import opened QueueConservation
  import opened QueueSafety
  import Backoff

  /** A directory as an earlier process left it. */
  ghost predicate LeftBehind(dir: map<string, File>)
  {
    forall n :: n in dir ==>
      && dir[n].origin == Found(ParseRetries(n)) && dir[n].failures == 0 && dir[n].unrecorded == 0
  }

  ghost predicate Start(s: State)
  {
    && Fresh(s) && LeftBehind(s.spool) && LeftBehind(s.failed)
    && Tidy(s.spool, s.failed, s.past.used)
  }

  lemma LeftBehindOk(c: Config, n: string, f: File)
    requires ValidConfig(c)
    requires f.origin == Found(ParseRetries(n)) && f.failures == 0 && f.unrecorded == 0
    ensures FileOk(c, n, f)
  {
  }

  lemma StartSafe(c: Config, s: State)
    requires ValidConfig(c) && Start(s)
    ensures Safe(c, s)
  {
    hide FileOk, TidyBy, ContentsAt;
    forall n | n in s.spool ensures FileOk(c, n, s.spool[n]) {
      LeftBehindOk(c, n, s.spool[n]);
    }
    forall n | n in s.failed ensures FileOk(c, n, s.failed[n]) {
      LeftBehindOk(c, n, s.failed[n]);
    }
  }

  /** Every step satisfies `p`, which may look at the state the step is taken in. */
  ghost predicate Throughout(c: Config, p: (State, Label) -> bool, s: State, labels: seq<Label>)
    requires ValidConfig(c)
    decreases |labels|
  {
    labels == [] ||
    (Enabled(c, s, labels[0]) && p(s, labels[0]) && Throughout(c, p, Apply(c, s, labels[0]), labels[1..]))
  }

  /** A run from a fresh start in which no two spool writes draw the same name. */
  ghost predicate ProperRun(c: Config, s: State, labels: seq<Label>, t: State)
    requires ValidConfig(c)
  {
    Start(s) && Run(c, s, labels, t) && Throughout(c, Distinct, s, labels)
  }

  lemma {:induction false} RunSafe(c: Config, s: State, labels: seq<Label>, t: State)
    requires ValidConfig(c) && Run(c, s, labels, t) && Throughout(c, Distinct, s, labels) && Safe(c, s)
    ensures Safe(c, t)
    decreases |labels|
  {
    hide Safe, Apply, Enabled, Distinct;
    if labels != [] {
      SafeStep(c, s, labels[0]);
      RunSafe(c, Apply(c, s, labels[0]), labels[1..], t);
    }
  }

  // ---------------------------------------------------------------- conservation

  /** The two things that can go wrong for good: a failed spill, which is only logged, and an
      undecodable file in an acknowledged batch, which is removed with the others. */
  predicate Spoils(s: State, l: Label)
  {
    match l
    case SpillOldest(w) => s.mem != [] && !w.ok
    case SpillUnsent(w) => !w.ok
    case RemoveNext(ok) =>
      s.flusher.Removing? && s.flusher.removals != [] && ok && s.flusher.removals[0] !in s.flusher.readable
    case _ => false
  }

  lemma NewNameIsNew(c: Config, s: State, w: Write)
    requires ValidConfig(c) && Safe(c, s) && SpoolStem(Clock(s, w.at), w.rnd) !in s.past.used
    ensures NewName(s, w) !in s.spool
  {
    hide FilesOk, FlusherOk;
    SpoolNameShape(Clock(s, w.at), w.rnd);
  }

  /** With distinct names no write, move or rename ever meets an existing file. */
  lemma NoCollisions(c: Config, s: State, l: Label)
    requires ValidConfig(c) && Enabled(c, s, l) && Safe(c, s) && Distinct(s, l)
    ensures Lossy(c, s, l) <==> Spoils(s, l)
  {
    hide TidyBy, FilesOk, FlusherOk, SpoolStem, Bumped, NewName, ParseRetries, Over;
    match l
    case SpillOldest(w) => if w.ok { NewNameIsNew(c, s, w); }
    case SpillUnsent(w) => if w.ok { NewNameIsNew(c, s, w); }
    case AcceptToDisk(_, w) => if w.ok { NewNameIsNew(c, s, w); }
    case ScanNext(io) =>
      if s.flusher.todo[0] in s.spool {
        TidyMove(Stem, s.spool, s.failed, s.past.used, s.flusher.todo[0]);
      }
    case RemoveNext(ok) => RemovingRest(c, s.flusher, s.now, s.spool, s.past.delivered);
    case BumpNext(at, touchOk, renameOk) => SafeBump(c, s, at, touchOk, true);
    case _ =>
  }

  lemma {:induction false} LossFreeIff(c: Config, s: State, labels: seq<Label>, t: State)
    requires ValidConfig(c) && Run(c, s, labels, t) && Throughout(c, Distinct, s, labels) && Safe(c, s)
    ensures LossFree(c, s, labels) <==> Throughout(c, (s, l) => !Spoils(s, l), s, labels)
    decreases |labels|
  {
    hide Safe, Apply, Enabled, Distinct, Lossy, Spoils;
    if labels != [] {
      SafeStep(c, s, labels[0]);
      NoCollisions(c, s, labels[0]);
      LossFreeIff(c, Apply(c, s, labels[0]), labels[1..], t);
    }
  }

  /** Store and forward: in every interleaving of Enqueue with the flusher, each accepted report
      is in exactly one of buffer, batch in flight, spool, failed directory and acknowledged, if
      and only if no spill failed and no undecodable file was removed with a batch.  Sends may
      fail at will, and so may every rename, move, removal and time stamp. */
  lemma ConservedIffNothingSpoils(c: Config, s: State, labels: seq<Label>, t: State)
    requires ValidConfig(c) && ProperRun(c, s, labels, t)
    ensures (forall r :: t.past.accepted[r] == Kept(t, r))
            <==> Throughout(c, (s, l) => !Spoils(s, l), s, labels)
  {
    hide Safe, Throughout, LossFree, Run, Kept;
    StartSafe(c, s);
    LossFreeIff(c, s, labels, t);
    Conservation(c, s, labels, t);
  }

  /** At least once: what the queue has dropped as acknowledged was part of a send that
      succeeded.  (A send reported as failed may still have reached the remote end, so nothing
      is said about "at most once".) */
  lemma AcknowledgedWereDelivered(c: Config, s: State, labels: seq<Label>, t: State, r: Report)
    requires ValidConfig(c) && ProperRun(c, s, labels, t)
    ensures r in t.past.acked ==> r in t.past.delivered
  {
    hide Run, Throughout, TidyBy, FilesOk, FlusherOk, Start;
    StartSafe(c, s);
    RunSafe(c, s, labels, t);
  }

  // ---------------------------------------------------------------- retry accounting

  /** A report written by this process: the count in its name is the number of failed disk sends
      that could be recorded.  While it is spooled it has had at most maxRetries + 1 of them; when
      it is about to be sent, at most maxRetries; and it reaches the failed directory after
      exactly maxRetries + 1. */
  lemma RetryAccounting(c: Config, s: State, labels: seq<Label>, t: State, n: string)
    requires ValidConfig(c) && ProperRun(c, s, labels, t)
    ensures n in t.spool && t.spool[n].origin.Written? ==>
              var f := t.spool[n];
              ParseRetries(n) == f.failures - f.unrecorded <= c.maxRetries + 1
    ensures n in t.failed && t.failed[n].origin.Written? ==>
              var f := t.failed[n];
              f.failures - f.unrecorded == c.maxRetries + 1
    ensures t.flusher.SendingDisk? && n in t.flusher.batch ==> n in t.spool && ParseRetries(n) <= c.maxRetries
  {
    hide Run, Throughout, TidyBy, ParseRetries, Marked, Start, WaitBefore, Backoff.Shortest;
    StartSafe(c, s);
    RunSafe(c, s, labels, t);
  }

  /** Pacing: a report about to be sent for its n-th disk retry was written at least
      base + sum over k in 1..n of floor(0.8 * base * 2^min(k, 12)) nanoseconds ago, as long as
      every failed send could reset its time stamp, and however the clock advances; and in any case
      at least as long ago as the shortest delay of that retry. */
  lemma RetriesArePaced(c: Config, s: State, labels: seq<Label>, t: State, n: string)
    requires ValidConfig(c) && ProperRun(c, s, labels, t)
    requires t.flusher.SendingDisk? && n in t.flusher.batch
    requires n in t.spool && t.spool[n].origin.Written?
    ensures ParseRetries(n) >= 0
    ensures t.spool[n].touched ==> t.now >= t.spool[n].written + Backoff.ShortestWait(c.backoff, ParseRetries(n))
    ensures t.now >= t.spool[n].written + Backoff.Shortest(c.backoff, ParseRetries(n))
  {
    hide Run, Throughout, TidyBy, ParseRetries, Marked, Start, Backoff.Shortest, WaitBefore;
    StartSafe(c, s);
    RunSafe(c, s, labels, t);
    assert FileOk(c, n, t.spool[n]);
    assert Ready(c, t.flusher.started, n, t.spool[n]);
    WaitGrows(c, ParseRetries(n));
    WaitIsShortestWait(c, ParseRetries(n));
  }

  lemma WaitIsShortestWait(c: Config, n: nat)
    requires ValidConfig(c)
    ensures WaitBefore(c, n + 1) == Backoff.ShortestWait(c.backoff, n)
  {
  }

  // ---------------------------------------------------------------- progress

  /** How many more disk steps a file can take part in: sends and the final move. */
  function Weight(c: Config, n: string): (w: nat)
    requires ValidConfig(c)
    ensures w >= 1
  {
    var k := ParseRetries(n);
    if k > c.maxRetries then 1 else c.maxRetries + 2 - k
  }

  /** The sum of `weigh` over a set of names. */
  ghost function WeightAt(weigh: string -> nat, ns: set<string>): nat
  {
    if ns == {} then 0
    else
      var n :| n in ns;
      WeightAt(weigh, ns - {n}) + weigh(n)
  }

  lemma WeightUnfold(weigh: string -> nat, ns: set<string>) returns (n: string)
    requires ns != {}
    ensures n in ns && WeightAt(weigh, ns) == WeightAt(weigh, ns - {n}) + weigh(n)
  {
    n :| n in ns && WeightAt(weigh, ns) == WeightAt(weigh, ns - {n}) + weigh(n);
  }

  lemma {:induction false} WeightRemove(weigh: string -> nat, ns: set<string>, n: string)
    requires n in ns
    ensures WeightAt(weigh, ns) == WeightAt(weigh, ns - {n}) + weigh(n)
  {
    var n0 := WeightUnfold(weigh, ns);
    if n0 != n {
      WeightRemove(weigh, ns - {n0}, n);
      WeightRemove(weigh, ns - {n}, n0);
      assert (ns - {n0}) - {n} == (ns - {n}) - {n0};
    }
  }

  ghost function Weigh(c: Config): string -> nat
    requires ValidConfig(c)
  {
    n => Weight(c, n)
  }

  /** The work left in the spool. */
  ghost function Pending(c: Config, s: State): nat
    requires ValidConfig(c)
  {
    WeightAt(Weigh(c), s.spool.Keys)
  }

  /** The steps that use some of it up: a move to the failed directory, a removal, and a rename
      of a name that carries a retry count. */
  predicate Progress(c: Config, s: State, l: Label)
  {
    match l
    case ScanNext(io) =>
      && s.flusher.Scanning? && s.flusher.todo != [] && |s.flusher.picked| < c.maxBatch
      && ParseRetries(s.flusher.todo[0]) > c.maxRetries && io.moveOk && s.flusher.todo[0] in s.spool
    case RemoveNext(ok) => s.flusher.Removing? && s.flusher.removals != [] && ok && s.flusher.removals[0] in s.spool
    case BumpNext(_, _, renameOk) =>
      && s.flusher.Bumping? && s.flusher.bumps != [] && renameOk
      && s.flusher.bumps[0] in s.spool && Marked(s.flusher.bumps[0])
    case _ => false
  }

  /** The names selected for sending. */
  function Selected(f: Flusher): seq<string>
  {
    match f
    case Scanning(_, picked, _, _) => picked
    case SendingDisk(batch, _) => batch
    case Bumping(names, _) => names
    case _ => []
  }

  /** Only files with retries left are selected. */
  predicate InRange(c: Config, f: Flusher)
  {
    forall n :: n in Selected(f) ==> ParseRetries(n) <= c.maxRetries
  }

  lemma InRangeScan(c: Config, s: State, io: ScanIo)
    requires ValidConfig(c) && s.flusher.Scanning? && s.flusher.todo != [] && InRange(c, s.flusher)
    ensures InRange(c, ScanHead(c, s, io).flusher)
  {
    hide ParseRetries, Overwritten, Backoff.Duration;
  }

  lemma InRangeMemory(c: Config, s: State, l: Label)
    requires ValidConfig(c) && Enabled(c, s, l) && InMemory(l) && InRange(c, s.flusher)
    ensures InRange(c, Apply(c, s, l).flusher)
  {
    hide ParseRetries, Sizes, Over, BatchLength, NewName, Stem, Overwritten;
  }

  lemma InRangeStep(c: Config, s: State, l: Label)
    requires ValidConfig(c) && Enabled(c, s, l) && InRange(c, s.flusher)
    ensures InRange(c, Apply(c, s, l).flusher)
  {
    if InMemory(l) {
      InRangeMemory(c, s, l);
    } else if l.ScanNext? {
      InRangeScan(c, s, l.io);
    } else {
      SelectionShrinks(c, s, l);
      hide Apply, Selected, ParseRetries;
    }
  }

  /** Only the scan selects files. */
  lemma SelectionShrinks(c: Config, s: State, l: Label)
    requires ValidConfig(c) && Enabled(c, s, l) && !InMemory(l) && !l.ScanNext?
    ensures forall n :: n in Selected(Apply(c, s, l).flusher) ==> n in Selected(s.flusher)
  {
    hide ParseRetries, Over, ScanHead, IsListing, Overwritten, Bumped, BumpFile, DecodedReports, SetRetries;
  }

  lemma {:induction false} RunInRange(c: Config, s: State, labels: seq<Label>, t: State)
    requires ValidConfig(c) && Run(c, s, labels, t) && InRange(c, s.flusher)
    ensures InRange(c, t.flusher)
    decreases |labels|
  {
    hide InRange, Apply, Enabled;
    if labels != [] {
      InRangeStep(c, s, labels[0]);
      RunInRange(c, Apply(c, s, labels[0]), labels[1..], t);
    }
  }

  lemma SafeInRange(c: Config, s: State)
    requires ValidConfig(c) && Safe(c, s)
    ensures InRange(c, s.flusher)
  {
    hide TidyBy, FilesOk, ParseRetries, Backoff.Shortest;
    forall n | n in Selected(s.flusher) ensures ParseRetries(n) <= c.maxRetries {
    }
  }

  predicate Writes(l: Label)
  {
    l.SpillOldest? || l.SpillUnsent? || l.AcceptToDisk?
  }

  lemma PendingScan(c: Config, s: State, io: ScanIo)
    requires ValidConfig(c) && s.flusher.Scanning? && s.flusher.todo != []
    ensures Pending(c, ScanHead(c, s, io)) == Pending(c, s) - if Progress(c, s, ScanNext(io)) then 1 else 0
  {
    hide ParseRetries, WeightAt, Backoff.Duration;
    var f := s.flusher;
    var t := ScanHead(c, s, io);
    if Progress(c, s, ScanNext(io)) {
      assert t.spool == s.spool - {f.todo[0]};
      assert t.spool.Keys == s.spool.Keys - {f.todo[0]};
      WeightRemove(Weigh(c), s.spool.Keys, f.todo[0]);
      assert Weight(c, f.todo[0]) == 1;
    } else {
      assert t.spool == s.spool;
    }
  }

  lemma PendingRemove(c: Config, s: State, ok: bool)
    requires ValidConfig(c) && s.flusher.Removing? && s.flusher.removals != []
    ensures Progress(c, s, RemoveNext(ok)) ==> Pending(c, RemoveHead(s, ok)) < Pending(c, s)
    ensures !Progress(c, s, RemoveNext(ok)) ==> Pending(c, RemoveHead(s, ok)) == Pending(c, s)
  {
    hide ParseRetries, WeightAt;
    var name := s.flusher.removals[0];
    var t := RemoveHead(s, ok);
    if ok && name in s.spool {
      assert t.spool.Keys == s.spool.Keys - {name};
      WeightRemove(Weigh(c), s.spool.Keys, name);
    } else {
      assert t.spool == s.spool;
    }
  }

  lemma BumpedWeight(c: Config, n: string)
    requires ValidConfig(c) && ParseRetries(n) <= c.maxRetries
    ensures Weight(c, Bumped(n)) == Weight(c, n) - if Marked(n) then 1 else 0
  {
    BumpedName(n, ParseRetries(n));
  }

  lemma BumpKeys(s: State, at: nat, touchOk: bool, renameOk: bool)
    requires s.flusher.Bumping? && s.flusher.bumps != []
    ensures var name := s.flusher.bumps[0];
            BumpHead(s, at, touchOk, renameOk).spool.Keys ==
              if name !in s.spool then s.spool.Keys
              else s.spool.Keys - {name} + {if renameOk then Bumped(name) else name}
  {
    hide Bumped, BumpFile, Overwritten;
  }

  /** Replacing a name by another. */
  lemma WeightRename(weigh: string -> nat, ns: set<string>, n: string, m: string)
    requires n in ns
    ensures WeightAt(weigh, ns - {n} + {m}) == WeightAt(weigh, ns) - weigh(n) + if m in ns - {n} then 0 else weigh(m)
  {
    var rest := ns - {n};
    WeightRemove(weigh, ns, n);
    if m in rest {
      assert rest + {m} == rest;
    } else {
      assert (rest + {m}) - {m} == rest;
      WeightRemove(weigh, rest + {m}, m);
    }
  }

  lemma PendingBump(c: Config, s: State, at: nat, touchOk: bool, renameOk: bool)
    requires ValidConfig(c) && s.flusher.Bumping? && s.flusher.bumps != [] && InRange(c, s.flusher)
    ensures var t, progress := BumpHead(s, at, touchOk, renameOk), Progress(c, s, BumpNext(at, touchOk, renameOk));
            (progress ==> Pending(c, t) < Pending(c, s)) && (!progress ==> Pending(c, t) == Pending(c, s))
  {
    var name := s.flusher.bumps[0];
    assert name in Selected(s.flusher);
    assert Progress(c, s, BumpNext(at, touchOk, renameOk)) <==> renameOk && name in s.spool && Marked(name);
    hide ParseRetries, WeightAt, Bumped, BumpHead, Marked, InRange, Weight, Weigh, Progress;
    BumpKeys(s, at, touchOk, renameOk);
    if name in s.spool {
      BumpedWeight(c, name);
      UnmarkedNeverAges(c, name);
      WeightRenamed(c, s.spool.Keys, name, if renameOk then Bumped(name) else name);
    }
  }

  lemma WeightRenamed(c: Config, ns: set<string>, n: string, m: string)
    requires ValidConfig(c) && n in ns
    ensures WeightAt(Weigh(c), ns - {n} + {m}) ==
      WeightAt(Weigh(c), ns) - Weight(c, n) + if m in ns - {n} then 0 else Weight(c, m)
  {
    hide Weight, WeightAt;
    WeightRename(Weigh(c), ns, n, m);
  }

  /** Without new spool files no step adds work, and the steps that make progress are exactly the
      ones after which less is left. */
  lemma ProgressIff(c: Config, s: State, l: Label)
    requires ValidConfig(c) && Enabled(c, s, l) && InRange(c, s.flusher) && !Writes(l)
    ensures Progress(c, s, l) ==> Pending(c, Apply(c, s, l)) < Pending(c, s)
    ensures !Progress(c, s, l) ==> Pending(c, Apply(c, s, l)) == Pending(c, s)
  {
    hide InRange, Pending, ScanHead, RemoveHead, BumpHead, Over, ParseRetries, Marked;
    if l.ScanNext? {
      PendingScan(c, s, l.io);
    } else if l.RemoveNext? {
      PendingRemove(c, s, l.ok);
    } else if l.BumpNext? {
      PendingBump(c, s, l.at, l.touchOk, l.renameOk);
    } else {
      assert Apply(c, s, l).spool == s.spool;
      PendingSame(c, s, Apply(c, s, l));
    }
  }

  lemma PendingSame(c: Config, s: State, t: State)
    requires ValidConfig(c) && t.spool == s.spool
    ensures Pending(c, t) == Pending(c, s)
  {
  }

  /** Reports in the buffer or in a batch taken from it. */
  function Waiting(s: State): nat
  {
    |s.mem| + if s.flusher.SendingMemory? then |s.flusher.mems| else if s.flusher.SpillingMemory? then |s.flusher.spills| else 0
  }

  /** The work left in the whole queue: a report in memory counts for one more than the file it
      may still become. */
  ghost function Load(c: Config, s: State): nat
    requires ValidConfig(c)
  {
    Pending(c, s) + (c.maxRetries + 3) * Waiting(s)
  }

  /** The steps that use some of it up: progress in the spool, a spill whether or not it succeeds,
      and an acknowledged batch. */
  predicate Drains(c: Config, s: State, l: Label)
  {
    match l
    case SpillOldest(_) => s.mem != []
    case SpillUnsent(_) => true
    case SendMemory(ok) => s.flusher.SendingMemory? && s.flusher.mems != [] && ok
    case _ => Progress(c, s, l)
  }

  predicate Accepts(l: Label)
  {
    l.Accept? || l.AcceptToDisk?
  }

  /** A spool write adds at most the weight of a new file, whatever name it draws. */
  lemma PendingWrite(c: Config, s: State, r: Report, w: Write)
    requires ValidConfig(c)
    ensures Pending(c, WriteToDisk(s, r, w)) <= Pending(c, s) + c.maxRetries + 2
  {
    hide SpoolName, SpoolStem, Stem, WeightAt, ParseRetries;
    var t, n := WriteToDisk(s, r, w), NewName(s, w);
    if !w.ok {
      PendingSame(c, s, t);
    } else {
      SpoolNameShape(Clock(s, w.at), w.rnd);
      assert t.spool.Keys == s.spool.Keys + {n};
      WeightRemove(Weigh(c), s.spool.Keys + {n}, n);
      if n in s.spool {
        assert s.spool.Keys + {n} == s.spool.Keys;
      } else {
        assert (s.spool.Keys + {n}) - {n} == s.spool.Keys;
      }
    }
  }

  lemma LoadOf(c: Config, s: State, t: State, n: nat)
    requires ValidConfig(c) && Waiting(s) == Waiting(t) + n
    ensures Load(c, t) == Load(c, s) + Pending(c, t) - Pending(c, s) - n * (c.maxRetries + 3)
  {
    hide Pending, Waiting;
    Scaled(c.maxRetries + 3, Waiting(t), n);
  }

  lemma Scaled(k: int, x: int, n: int)
    ensures k * (x + n) == k * x + n * k
  {
  }

  lemma LoadTake(c: Config, s: State)
    requires ValidConfig(c) && Enabled(c, s, TakeBatch)
    ensures Load(c, Apply(c, s, TakeBatch)) == Load(c, s)
  {
    hide Pending, Load, BatchLength, Sizes;
    var t := Apply(c, s, TakeBatch);
    assert t.flusher.SendingMemory? && |t.flusher.mems| + |t.mem| == |s.mem|;
    PendingSame(c, s, t);
    LoadOf(c, s, t, 0);
  }

  lemma LoadSend(c: Config, s: State, ok: bool)
    requires ValidConfig(c) && Enabled(c, s, SendMemory(ok))
    ensures var t := Apply(c, s, SendMemory(ok));
            if Drains(c, s, SendMemory(ok)) then Load(c, t) < Load(c, s) else Load(c, t) == Load(c, s)
  {
    hide Pending, Load;
    var t := Apply(c, s, SendMemory(ok));
    PendingSame(c, s, t);
    LoadOf(c, s, t, if ok then |s.flusher.mems| else 0);
  }

  lemma LoadSpill(c: Config, s: State, w: Write)
    requires ValidConfig(c) && Enabled(c, s, SpillUnsent(w))
    ensures Load(c, Apply(c, s, SpillUnsent(w))) < Load(c, s)
  {
    hide Pending, Load, SpoolName, SpoolStem, Stem;
    var rest := s.flusher.spills;
    var popped := s.(flusher := if |rest| == 1 then Idle else SpillingMemory(rest[1..]));
    PendingSame(c, s, popped);
    PendingWrite(c, popped, rest[0], w);
    LoadOf(c, s, WriteToDisk(popped, rest[0], w), 1);
  }

  lemma LoadSpillOldest(c: Config, s: State, w: Write)
    requires ValidConfig(c) && Enabled(c, s, SpillOldest(w))
    ensures var t := Apply(c, s, SpillOldest(w));
            if s.mem == [] then t == s else Load(c, t) < Load(c, s)
  {
    hide Pending, Load, SpoolName, SpoolStem, Stem, Over;
    if s.mem != [] {
      var popped := s.(mem := s.mem[1..], memBytes := s.memBytes - s.mem[0].size);
      PendingSame(c, s, popped);
      PendingWrite(c, popped, s.mem[0], w);
      LoadOf(c, s, WriteToDisk(popped, s.mem[0], w), 1);
    }
  }

  lemma WaitingOnDisk(c: Config, s: State, l: Label)
    requires ValidConfig(c) && Enabled(c, s, l) && (!InMemory(l) || l.Release?)
    ensures Waiting(Apply(c, s, l)) == Waiting(s)
  {
    hide Sizes, Over, ParseRetries, Backoff.Duration, Bumped, Overwritten;
  }

  /** Unless a report is accepted no step adds work, and exactly the draining steps leave less. */
  lemma DrainsIff(c: Config, s: State, l: Label)
    requires ValidConfig(c) && Enabled(c, s, l) && InRange(c, s.flusher) && !Accepts(l)
    ensures Drains(c, s, l) ==> Load(c, Apply(c, s, l)) < Load(c, s)
    ensures !Drains(c, s, l) ==> Load(c, Apply(c, s, l)) == Load(c, s)
  {
    hide InRange, Load, Pending, Apply, Waiting, Over, ParseRetries, Marked;
    if l.TakeBatch? {
      LoadTake(c, s);
    } else if l.SendMemory? {
      LoadSend(c, s, l.ok);
    } else if l.SpillUnsent? {
      LoadSpill(c, s, l.write);
    } else if l.SpillOldest? {
      LoadSpillOldest(c, s, l.write);
    } else {
      ProgressIff(c, s, l);
      WaitingOnDisk(c, s, l);
      LoadOf(c, s, Apply(c, s, l), 0);
    }
  }

  ghost function Steps(c: Config, s: State, labels: seq<Label>): nat
    requires ValidConfig(c)
    decreases |labels|
  {
    if labels == [] || !Enabled(c, s, labels[0]) then 0
    else (if Drains(c, s, labels[0]) then 1 else 0) + Steps(c, Apply(c, s, labels[0]), labels[1..])
  }

  lemma {:induction false} DrainFrom(c: Config, s: State, labels: seq<Label>, t: State)
    requires ValidConfig(c) && InRange(c, s.flusher) && Run(c, s, labels, t)
    requires forall i :: 0 <= i < |labels| ==> !Accepts(labels[i])
    ensures Steps(c, s, labels) + Load(c, t) <= Load(c, s)
    decreases |labels|
  {
    hide InRange, Apply, Enabled, Drains, Load;
    if labels != [] {
      var l := labels[0];
      assert !Accepts(l);
      InRangeStep(c, s, l);
      DrainsIff(c, s, l);
      DrainFrom(c, Apply(c, s, l), labels[1..], t);
    }
  }

  /** Draining terminates: from any state the queue can reach, once nothing more is enqueued, a run
      makes at most as many draining steps as the work in that state, whatever is buffered or in
      flight, whatever the sends do, and whether reports are spilled on the way or not. */
  lemma DrainIsFinite(c: Config, origin: State, before: seq<Label>, s: State, labels: seq<Label>, t: State)
    requires ValidConfig(c) && Fresh(origin) && Run(c, origin, before, s) && Run(c, s, labels, t)
    requires forall i :: 0 <= i < |labels| ==> !Accepts(labels[i])
    ensures Steps(c, s, labels) + Load(c, t) <= Load(c, s)
  {
    hide Run, Load, Accepts;
    RunInRange(c, origin, before, s);
    DrainFrom(c, s, labels, t);
  }

  /** A name without the `_r` mark defeats the retry limit: a failed send leaves it as it is, so
      the file is never exhausted and never moved. */
  lemma UnmarkedNeverAges(c: Config, n: string)
    requires ValidConfig(c)
    ensures !Marked(n) ==> Bumped(n) == n && ParseRetries(Bumped(n)) <= c.maxRetries
    ensures Marked(n) && ParseRetries(n) <= c.maxRetries ==> ParseRetries(Bumped(n)) == ParseRetries(n) + 1
  {
    if Marked(n) && ParseRetries(n) <= c.maxRetries {
      BumpedName(n, ParseRetries(n));
    }
  }

  // ---------------------------------------------------------------- a concrete loss

  const LOSS_CONFIG := Config(1, 0, 1, 1000, 1)
  const LOST_REPORT := Report(0, 10)
  const LOSS_LABELS := [Accept(LOST_REPORT), Release, Accept(Report(1, 10)), SpillOldest(Write(0, 0, false))]

  function BufferState(mem: seq<Report>, memBytes: int, locked: bool, accepted: multiset<Report>, lost: multiset<Report>): State
  {
    State(mem, memBytes, locked, Idle, map[], map[], 0, History(accepted, multiset{}, {}, lost, {}))
  }

  lemma BufferAccept(mem: seq<Report>, bytes: int, accepted: multiset<Report>, r: Report)
    ensures var s := BufferState(mem, bytes, false, accepted, multiset{});
            && Enabled(LOSS_CONFIG, s, Accept(r)) && Distinct(s, Accept(r))
            && Apply(LOSS_CONFIG, s, Accept(r))
               == BufferState(mem + [r], bytes + r.size, true, accepted + multiset{r}, multiset{})
  {
  }

  lemma BufferRelease(mem: seq<Report>, bytes: int, accepted: multiset<Report>)
    requires |mem| <= 1 && bytes <= 1000
    ensures var s := BufferState(mem, bytes, true, accepted, multiset{});
            && Enabled(LOSS_CONFIG, s, Release) && Distinct(s, Release)
            && Apply(LOSS_CONFIG, s, Release) == BufferState(mem, bytes, false, accepted, multiset{})
  {
  }

  lemma BufferSpillFails(mem: seq<Report>, bytes: int, accepted: multiset<Report>, w: Write)
    requires |mem| > 1 && !w.ok && w.at == 0
    ensures var s := BufferState(mem, bytes, true, accepted, multiset{});
            && Enabled(LOSS_CONFIG, s, SpillOldest(w)) && Distinct(s, SpillOldest(w))
            && Apply(LOSS_CONFIG, s, SpillOldest(w))
               == BufferState(mem[1..], bytes - mem[0].size, true, accepted, multiset{mem[0]})
  {
    hide NewName, SpoolStem;
  }

  lemma BufferStart()
    ensures Start(BufferState([], 0, false, multiset{}, multiset{}))
  {
  }

  lemma LossRun() returns (t: State)
    ensures ProperRun(LOSS_CONFIG, BufferState([], 0, false, multiset{}, multiset{}), LOSS_LABELS, t)
    ensures t == BufferState([Report(1, 10)], 10, true, multiset{LOST_REPORT, Report(1, 10)}, multiset{LOST_REPORT})
  {
    hide Apply, Enabled, Distinct, Start;
    var a, b, w := LOST_REPORT, Report(1, 10), Write(0, 0, false);
    BufferStart();
    BufferAccept([], 0, multiset{}, a);
    assert [] + [a] == [a] && multiset{} + multiset{a} == multiset{a};
    BufferRelease([a], 10, multiset{a});
    BufferAccept([a], 10, multiset{a}, b);
    assert [a] + [b] == [a, b] && multiset{a} + multiset{b} == multiset{a, b};
    BufferSpillFails([a, b], 20, multiset{a, b}, w);
    assert [a, b][1..] == [b];
    t := BufferState([b], 10, true, multiset{a, b}, multiset{a});
    RunFour(LOSS_CONFIG, BufferState([], 0, false, multiset{}, multiset{}), Accept(a), Release, Accept(b), SpillOldest(w));
  }

  lemma NowhereKept()
    ensures Kept(BufferState([Report(1, 10)], 10, true, multiset{LOST_REPORT, Report(1, 10)}, multiset{LOST_REPORT}), LOST_REPORT) == 0
  {
  }

  /** Two reports into a buffer for one, with a disk that refuses the spill: the first is gone. */
  lemma FailedSpillLoses()
    ensures exists c, s, labels, t, r ::
              && ValidConfig(c) && ProperRun(c, s, labels, t)
              && t.past.accepted[r] == 1 && Kept(t, r) == 0
  {
    hide ProperRun, Kept;
    NowhereKept();
    var t := LossRun();
    var s := BufferState([], 0, false, multiset{}, multiset{});
    assert ProperRun(LOSS_CONFIG, s, LOSS_LABELS, t);
  }

  lemma ProperCons(c: Config, s: State, l: Label, labels: seq<Label>, t: State)
    requires ValidConfig(c) && Enabled(c, s, l) && Distinct(s, l)
    requires Run(c, Apply(c, s, l), labels, t) && Throughout(c, Distinct, Apply(c, s, l), labels)
    ensures Run(c, s, [l] + labels, t) && Throughout(c, Distinct, s, [l] + labels)
  {
    hide Apply, Enabled, Distinct;
    assert ([l] + labels)[1..] == labels;
  }

  lemma RunFour(c: Config, s: State, l0: Label, l1: Label, l2: Label, l3: Label)
    requires ValidConfig(c) && Enabled(c, s, l0)
    requires var s1 := Apply(c, s, l0);
             && Enabled(c, s1, l1)
             && var s2 := Apply(c, s1, l1);
             && Enabled(c, s2, l2)
             && var s3 := Apply(c, s2, l2);
             && Enabled(c, s3, l3) && Distinct(s, l0) && Distinct(s1, l1) && Distinct(s2, l2) && Distinct(s3, l3)
    ensures var s4 := Apply(c, Apply(c, Apply(c, Apply(c, s, l0), l1), l2), l3);
            Run(c, s, [l0, l1, l2, l3], s4) && Throughout(c, Distinct, s, [l0, l1, l2, l3])
  {
    hide Apply, Enabled, Distinct;
    var s1 := Apply(c, s, l0);
    var s2 := Apply(c, s1, l1);
    var s3 := Apply(c, s2, l2);
    var s4 := Apply(c, s3, l3);
    assert Run(c, s4, [], s4) && Throughout(c, Distinct, s4, []);
    hide Run, Throughout;
    ProperCons(c, s3, l3, [], s4);
    ProperCons(c, s2, l2, [l3], s4);
    ProperCons(c, s1, l1, [l2, l3], s4);
    ProperCons(c, s, l0, [l1, l2, l3], s4);
    assert [l3] + [] == [l3] && [l2] + [l3] == [l2, l3] && [l1] + [l2, l3] == [l1, l2, l3];
    assert [l0] + [l1, l2, l3] == [l0, l1, l2, l3];
  }
}
