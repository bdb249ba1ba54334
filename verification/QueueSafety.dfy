/** What holds in every state the queue can reach.

    `Bounded` needs no hypothesis.  `Safe` needs that no two spool writes draw the same
    (nanosecond, random part) pair (`Distinct`); it gives that no rename ever hits another
    report, how often a report is sent, when, and that only delivered reports are dropped. */
module QueueSafety {
  import opened Order
  import opened SpoolNames
  import opened QueueModel
  import opened QueueConservation
  import Backoff

  // ---------------------------------------------------------------- the memory buffer

  ghost predicate Bounded(c: Config, s: State)
  {
    && s.memBytes == Sizes(s.mem)
    && (!s.locked ==> |s.mem| <= c.memoryBuffer && s.memBytes <= c.maxBatchBytes)
    && (s.locked ==> c.memoryBuffer > 0)
  }

  lemma {:induction false} SizesTail(rs: seq<Report>)
    requires rs != []
    ensures Sizes(rs) == rs[0].size + Sizes(rs[1..])
  {
    if |rs| > 1 {
      var init := rs[..|rs| - 1];
      SizesTail(init);
      assert rs[1..][..|rs| - 2] == init[1..];
    } else {
      assert rs[..0] == [] && rs[1..] == [];
    }
  }

  lemma {:induction false} SizesSplit(rs: seq<Report>, n: nat)
    requires n <= |rs|
    ensures Sizes(rs) == Sizes(rs[..n]) + Sizes(rs[n..])
    ensures 0 <= Sizes(rs[..n]) <= Sizes(rs)
  {
    if n == |rs| {
      assert rs[..n] == rs;
      SizesNonNegative(rs);
    } else {
      var init := rs[..|rs| - 1];
      SizesSplit(init, n);
      assert init[..n] == rs[..n];
      assert rs[n..][..|rs| - n - 1] == init[n..];
    }
  }

  lemma {:induction false} SizesNonNegative(rs: seq<Report>)
    ensures Sizes(rs) >= 0
  {
    if rs != [] {
      SizesNonNegative(rs[..|rs| - 1]);
    }
  }

  /** The byte cap of the batch loop never bites: the buffer as a whole is within it. */
  lemma {:induction false} BatchIsPrefix(c: Config, mem: seq<Report>, taken: nat)
    requires ValidConfig(c) && taken <= |mem| && taken <= c.maxBatch
    requires Sizes(mem) <= c.maxBatchBytes
    ensures BatchLength(c, mem, taken, Sizes(mem[..taken])) == Min(c.maxBatch, |mem|)
    decreases |mem| - taken
  {
    if taken < |mem| && taken < c.maxBatch {
      SizesSplit(mem, taken + 1);
      assert mem[..taken + 1][..taken] == mem[..taken];
      BatchIsPrefix(c, mem, taken + 1);
    }
  }

  lemma BoundedSpill(c: Config, s: State, w: Write)
    requires ValidConfig(c) && Enabled(c, s, SpillOldest(w)) && Bounded(c, s)
    ensures Bounded(c, Apply(c, s, SpillOldest(w)))
  {
    if s.mem != [] {
      SizesTail(s.mem);
      var popped := s.(mem := s.mem[1..], memBytes := s.memBytes - s.mem[0].size);
      var t := WriteToDisk(popped, s.mem[0], w);
      assert Apply(c, s, SpillOldest(w)) == t;
      assert t.mem == popped.mem && t.memBytes == popped.memBytes && t.locked;
    }
  }

  lemma BoundedMemoryStep(c: Config, s: State, l: Label)
    requires ValidConfig(c) && Enabled(c, s, l) && Bounded(c, s) && InMemory(l)
    ensures Bounded(c, Apply(c, s, l))
  {
    match l
    case Accept(r) => assert (s.mem + [r])[..|s.mem|] == s.mem;
    case SpillOldest(w) => BoundedSpill(c, s, w);
    case TakeBatch => SizesSplit(s.mem, BatchLength(c, s.mem, 0, 0));
    case _ => assert Apply(c, s, l).mem == s.mem;
  }

  lemma DiskStepsLeaveMemory(c: Config, s: State, l: Label)
    requires ValidConfig(c) && Enabled(c, s, l) && !InMemory(l)
    ensures var t := Apply(c, s, l);
            t.mem == s.mem && t.memBytes == s.memBytes && t.locked == s.locked
  {
    hide ScanHead, RemoveHead, BumpHead, IsListing, DecodedReports, Over;
    match l
    case ScanNext(io) => ScanLeavesMemory(c, s, io);
    case RemoveNext(ok) => RemoveLeavesMemory(s, ok);
    case BumpNext(at, touchOk, renameOk) => BumpLeavesMemory(s, at, touchOk, renameOk);
    case _ =>
  }

  lemma ScanLeavesMemory(c: Config, s: State, io: ScanIo)
    requires ValidConfig(c) && s.flusher.Scanning? && s.flusher.todo != []
    ensures var t := ScanHead(c, s, io);
            t.mem == s.mem && t.memBytes == s.memBytes && t.locked == s.locked
  {
    hide ParseRetries, Overwritten, Backoff.Duration;
  }

  lemma RemoveLeavesMemory(s: State, ok: bool)
    requires s.flusher.Removing? && s.flusher.removals != []
    ensures var t := RemoveHead(s, ok);
            t.mem == s.mem && t.memBytes == s.memBytes && t.locked == s.locked
  {
  }

  lemma BumpLeavesMemory(s: State, at: nat, touchOk: bool, renameOk: bool)
    requires s.flusher.Bumping? && s.flusher.bumps != []
    ensures var t := BumpHead(s, at, touchOk, renameOk);
            t.mem == s.mem && t.memBytes == s.memBytes && t.locked == s.locked
  {
    hide Overwritten, Bumped, BumpFile;
  }

  lemma BoundedStep(c: Config, s: State, l: Label)
    requires ValidConfig(c) && Enabled(c, s, l) && Bounded(c, s)
    ensures Bounded(c, Apply(c, s, l))
  {
    if InMemory(l) {
      BoundedMemoryStep(c, s, l);
    } else {
      DiskStepsLeaveMemory(c, s, l);
    }
  }

  lemma {:induction false} RunBounded(c: Config, s: State, labels: seq<Label>, t: State)
    requires ValidConfig(c) && Run(c, s, labels, t) && Bounded(c, s)
    ensures Bounded(c, t)
    decreases |labels|
  {
    if labels != [] {
      BoundedStep(c, s, labels[0]);
      RunBounded(c, Apply(c, s, labels[0]), labels[1..], t);
    }
  }

  /** In every reachable state: the byte counter is the sum of the buffered sizes; unless
      Enqueue is inside its critical section both caps hold; the spill loop never looks into an
      empty buffer; and a memory flush takes exactly the min(maxBatch, buffered) oldest
      reports, leaving the rest in order. */
  lemma BufferLaws(c: Config, s: State, labels: seq<Label>, t: State)
    requires ValidConfig(c) && Fresh(s) && Run(c, s, labels, t)
    ensures t.memBytes == Sizes(t.mem)
    ensures !t.locked ==> |t.mem| <= c.memoryBuffer && t.memBytes <= c.maxBatchBytes
    ensures t.locked && Over(c, t) ==> t.mem != []
    ensures Enabled(c, t, TakeBatch) ==>
              var n := Min(c.maxBatch, |t.mem|);
              && Apply(c, t, TakeBatch).flusher == SendingMemory(t.mem[..n])
              && Apply(c, t, TakeBatch).mem == t.mem[n..]
              && n > 0
  {
    RunBounded(c, s, labels, t);
    if Enabled(c, t, TakeBatch) {
      assert t.mem[..0] == [];
      BatchIsPrefix(c, t.mem, 0);
    }
  }

  // ---------------------------------------------------------------- spool names stay apart

  /** No two files share a key, within or across the two directories. */
  ghost predicate TidyBy(key: string -> string, spool: map<string, File>, failed: map<string, File>, used: set<string>)
  {
    && (forall n, m :: n in spool && m in spool && key(n) == key(m) ==> n == m)
    && (forall n, m :: n in failed && m in failed && key(n) == key(m) ==> n == m)
    && (forall n, m :: n in spool && m in failed ==> key(n) != key(m))
    && (forall n :: n in spool ==> key(n) in used)
    && (forall n :: n in failed ==> key(n) in used)
  }

  ghost predicate Tidy(spool: map<string, File>, failed: map<string, File>, used: set<string>)
  {
    TidyBy(Stem, spool, failed, used)
  }

  lemma TidyAdd(key: string -> string, spool: map<string, File>, failed: map<string, File>, used: set<string>, n: string, f: File)
    requires TidyBy(key, spool, failed, used) && key(n) !in used
    ensures n !in spool && TidyBy(key, spool[n := f], failed, used + {key(n)})
  {
  }

  lemma TidyMove(key: string -> string, spool: map<string, File>, failed: map<string, File>, used: set<string>, n: string)
    requires TidyBy(key, spool, failed, used) && n in spool
    ensures n !in failed && TidyBy(key, spool - {n}, failed[n := spool[n]], used)
  {
  }

  lemma TidyDrop(key: string -> string, spool: map<string, File>, failed: map<string, File>, used: set<string>, n: string)
    requires TidyBy(key, spool, failed, used)
    ensures TidyBy(key, spool - {n}, failed, used)
  {
  }

  lemma TidyRename(key: string -> string, spool: map<string, File>, failed: map<string, File>, used: set<string>,
                   n: string, m: string, f: File)
    requires TidyBy(key, spool, failed, used) && n in spool && key(m) == key(n)
    ensures m !in spool - {n} && TidyBy(key, (spool - {n})[m := f], failed, used)
  {
  }

  // ---------------------------------------------------------------- one file's history

  function FirstRetries(o: Origin): int
  {
    match o
    case Written => 0
    case Found(r) => r
  }

  /** The least time that passes before a report may have `n` recorded failures. */
  function WaitBefore(c: Config, n: nat): int
    requires ValidConfig(c)
  {
    if n == 0 then 0 else Backoff.ShortestWait(c.backoff, n - 1)
  }

  /** The retry count in the name is the number of recorded failed sends, it stops at
      maxRetries + 1, and every recorded failure cost its backoff. */
  ghost predicate HistoryOk(c: Config, marked: bool, retries: int, f: File)
    requires ValidConfig(c)
  {
    && f.unrecorded <= f.failures
    && (f.origin.Written? ==> marked)
    && (marked ==> retries == FirstRetries(f.origin) + f.failures - f.unrecorded)
    && (FirstRetries(f.origin) <= c.maxRetries ==> retries <= c.maxRetries + 1)
    && (f.origin.Written? ==> retries >= 0 && f.mtime >= f.written)
    && (f.origin.Written? && f.touched ==> f.mtime >= f.written + WaitBefore(c, retries))
  }

  ghost predicate FileOk(c: Config, n: string, f: File)
    requires ValidConfig(c)
  {
    HistoryOk(c, Marked(n), ParseRetries(n), f)
  }

  ghost predicate FilesOk(c: Config, spool: map<string, File>, failed: map<string, File>)
    requires ValidConfig(c)
  {
    && (forall n :: n in spool ==> FileOk(c, n, spool[n]))
    && (forall n :: n in failed ==> FileOk(c, n, failed[n]) && (failed[n].origin.Written? ==> ParseRetries(n) > c.maxRetries))
  }

  lemma FilesAdd(c: Config, spool: map<string, File>, failed: map<string, File>, n: string, f: File)
    requires ValidConfig(c) && FilesOk(c, spool, failed) && FileOk(c, n, f)
    ensures FilesOk(c, spool[n := f], failed)
  {
    hide FileOk;
  }

  lemma FilesMove(c: Config, spool: map<string, File>, failed: map<string, File>, n: string)
    requires ValidConfig(c) && FilesOk(c, spool, failed) && n in spool && ParseRetries(n) > c.maxRetries
    ensures FilesOk(c, spool - {n}, failed[n := spool[n]])
  {
    hide FileOk;
  }

  lemma FilesDrop(c: Config, spool: map<string, File>, failed: map<string, File>, n: string)
    requires ValidConfig(c) && FilesOk(c, spool, failed)
    ensures FilesOk(c, spool - {n}, failed)
  {
    hide FileOk;
  }

  /** A file that may be sent now: retries left, and its backoff has passed. */
  ghost predicate ReadyAt(c: Config, started: int, retries: int, f: File)
    requires ValidConfig(c)
  {
    retries <= c.maxRetries && started - f.mtime >= Backoff.Shortest(c.backoff, retries)
  }

  ghost predicate Ready(c: Config, started: int, n: string, f: File)
    requires ValidConfig(c)
  {
    ReadyAt(c, started, ParseRetries(n), f)
  }

  function Names(f: Flusher): seq<string>
  {
    match f
    case Scanning(todo, picked, _, _) => picked + todo
    case SendingDisk(batch, _) => batch
    case Removing(names, _) => names
    case Bumping(names, _) => names
    case _ => []
  }

  predicate NoDuplicates(names: seq<string>)
  {
    forall i, j :: 0 <= i < j < |names| ==> names[i] != names[j]
  }

  ghost predicate AllReady(c: Config, started: int, now: int, names: seq<string>, spool: map<string, File>)
    requires ValidConfig(c)
  {
    && started <= now
    && forall n :: n in names ==> n in spool && Ready(c, started, n, spool[n])
  }

  ghost predicate FlusherOk(c: Config, f: Flusher, now: int, spool: map<string, File>, delivered: set<Report>)
    requires ValidConfig(c)
  {
    && NoDuplicates(Names(f))
    && (forall n :: n in Names(f) ==> n in spool)
    && match f
       case Scanning(_, picked, _, started) => AllReady(c, started, now, picked, spool)
       case SendingDisk(batch, started) => AllReady(c, started, now, batch, spool)
       case Bumping(names, started) => AllReady(c, started, now, names, spool)
       case Removing(names, readable) => forall n :: n in names && n in readable ==> spool[n].report in delivered
       case _ => true
  }

  /** What the flusher relies on survives anything that leaves its files alone. */
  lemma FlusherOkAgree(c: Config, f: Flusher, now: int, spool: map<string, File>, delivered: set<Report>,
                       later: int, other: map<string, File>, more: set<Report>)
    requires ValidConfig(c) && FlusherOk(c, f, now, spool, delivered)
    requires now <= later && delivered <= more
    requires forall n :: n in Names(f) ==> n in other && other[n] == spool[n]
    ensures FlusherOk(c, f, later, other, more)
  {
    match f
    case Scanning(todo, picked, _, _) =>
      forall n | n in picked ensures n in Names(f) {
        assert n in picked + todo;
      }
    case _ =>
  }

  ghost predicate Safe(c: Config, s: State)
    requires ValidConfig(c)
  {
    && Tidy(s.spool, s.failed, s.past.used)
    && FilesOk(c, s.spool, s.failed)
    && FlusherOk(c, s.flusher, s.now, s.spool, s.past.delivered)
    && forall r :: r in s.past.acked ==> r in s.past.delivered
  }

  /** The hypothesis on the environment: the clock and random part of a successful spool write
      have not been drawn before. */
  predicate Distinct(s: State, l: Label)
  {
    match l
    case SpillOldest(w) => w.ok ==> SpoolStem(Clock(s, w.at), w.rnd) !in s.past.used
    case SpillUnsent(w) => w.ok ==> SpoolStem(Clock(s, w.at), w.rnd) !in s.past.used
    case AcceptToDisk(_, w) => w.ok ==> SpoolStem(Clock(s, w.at), w.rnd) !in s.past.used
    case _ => true
  }

  // ---------------------------------------------------------------- the steps keep it

  lemma WrittenFileOk(c: Config, nanos: nat, rnd: Random6, r: Report)
    requires ValidConfig(c)
    ensures FileOk(c, SpoolName(nanos, rnd), File(r, nanos, Written, nanos, 0, 0, true))
    ensures Stem(SpoolName(nanos, rnd)) == SpoolStem(nanos, rnd)
  {
    SpoolNameShape(nanos, rnd);
  }

  /** A new name is none the flusher is working on. */
  lemma FlusherOkAdd(c: Config, f: Flusher, now: int, spool: map<string, File>, delivered: set<Report>, later: int, n: string, g: File)
    requires ValidConfig(c) && FlusherOk(c, f, now, spool, delivered) && now <= later && n !in spool
    ensures FlusherOk(c, f, later, spool[n := g], delivered)
  {
    FlusherOkAgree(c, f, now, spool, delivered, later, spool[n := g], delivered);
  }

  /** Nor is a name it has put aside. */
  lemma FlusherOkDrop(c: Config, f: Flusher, now: int, spool: map<string, File>, delivered: set<Report>, n: string)
    requires ValidConfig(c) && FlusherOk(c, f, now, spool, delivered) && n !in Names(f)
    ensures FlusherOk(c, f, now, spool - {n}, delivered)
  {
    FlusherOkAgree(c, f, now, spool, delivered, now, spool - {n}, delivered);
  }

  lemma SafeWrite(c: Config, s: State, r: Report, w: Write)
    requires ValidConfig(c) && Safe(c, s)
    requires w.ok ==> SpoolStem(Clock(s, w.at), w.rnd) !in s.past.used
    ensures Safe(c, WriteToDisk(s, r, w))
    ensures w.ok ==> NewName(s, w) !in s.spool
  {
    hide TidyBy, FilesOk, FlusherOk, FileOk, SpoolStem, Stem;
    var now := Clock(s, w.at);
    if w.ok {
      var name, f := SpoolName(now, w.rnd), File(r, now, Written, now, 0, 0, true);
      WrittenFileOk(c, now, w.rnd, r);
      TidyAdd(Stem, s.spool, s.failed, s.past.used, name, f);
      FilesAdd(c, s.spool, s.failed, name, f);
      FlusherOkAdd(c, s.flusher, s.now, s.spool, s.past.delivered, now, name, f);
      assert WriteToDisk(s, r, w).spool == s.spool[name := f];
    } else {
      FlusherOkLater(c, s.flusher, s.now, s.spool, s.past.delivered, now);
    }
  }

  lemma FlusherOkLater(c: Config, f: Flusher, now: int, spool: map<string, File>, delivered: set<Report>, later: int)
    requires ValidConfig(c) && FlusherOk(c, f, now, spool, delivered) && now <= later
    ensures FlusherOk(c, f, later, spool, delivered)
  {
    FlusherOkAgree(c, f, now, spool, delivered, later, spool, delivered);
  }

  lemma DropHead(names: seq<string>)
    requires names != [] && NoDuplicates(names)
    ensures NoDuplicates(names[1..]) && names[0] !in names[1..]
    ensures forall n :: n in names[1..] ==> n in names && n != names[0]
  {
  }

  lemma SafeMove(c: Config, s: State, name: string, ok: bool)
    requires ValidConfig(c) && Safe(c, s)
    requires name !in Names(s.flusher) && ParseRetries(name) > c.maxRetries
    ensures Safe(c, MoveToFailed(s, name, ok))
    ensures name in s.spool ==> name !in s.failed
  {
    hide TidyBy, FilesOk, FlusherOk, ParseRetries;
    if name in s.spool {
      TidyMove(Stem, s.spool, s.failed, s.past.used, name);
      FilesMove(c, s.spool, s.failed, name);
      FlusherOkDrop(c, s.flusher, s.now, s.spool, s.past.delivered, name);
    }
  }

  /** A loop over a listing without duplicates never comes back to a name. */
  lemma NextName(picked: seq<string>, todo: seq<string>)
    requires todo != [] && NoDuplicates(picked + todo)
    ensures NoDuplicates(picked + todo[1..]) && NoDuplicates(picked + [])
    ensures todo[0] in picked + todo && todo[0] !in picked + todo[1..]
    ensures forall n :: n in picked + todo[1..] ==> n in picked + todo
  {
    var names := picked + todo;
    assert names[|picked|] == todo[0];
    var shorter := picked + todo[1..];
    forall i | 0 <= i < |shorter| ensures shorter[i] in names && shorter[i] != todo[0] {
      assert shorter[i] == names[if i < |picked| then i else i + 1];
    }
    forall i, j | 0 <= i < j < |shorter| ensures shorter[i] != shorter[j] {
      assert shorter[i] == names[if i < |picked| then i else i + 1];
      assert shorter[j] == names[if j < |picked| then j else j + 1];
    }
    forall i, j | 0 <= i < j < |picked + []| ensures (picked + [])[i] != (picked + [])[j] {
      assert names[i] == picked[i] && names[j] == picked[j];
    }
  }

  lemma SkipOk(c: Config, f: Flusher, now: int, spool: map<string, File>, delivered: set<Report>)
    requires ValidConfig(c) && FlusherOk(c, f, now, spool, delivered) && f.Scanning? && f.todo != []
    ensures FlusherOk(c, f.(todo := f.todo[1..]), now, spool, delivered)
    ensures FlusherOk(c, f.(todo := []), now, spool, delivered)
    ensures f.todo[0] !in Names(f.(todo := f.todo[1..])) && f.todo[0] in spool
  {
    hide Ready;
    NextName(f.picked, f.todo);
  }

  lemma PickOk(c: Config, f: Flusher, now: int, spool: map<string, File>, delivered: set<Report>, bytes: int)
    requires ValidConfig(c) && FlusherOk(c, f, now, spool, delivered) && f.Scanning? && f.todo != []
    requires f.todo[0] in spool && Ready(c, f.started, f.todo[0], spool[f.todo[0]])
    ensures FlusherOk(c, Scanning(f.todo[1..], f.picked + [f.todo[0]], bytes, f.started), now, spool, delivered)
  {
    hide Ready;
    assert (f.picked + [f.todo[0]]) + f.todo[1..] == f.picked + f.todo;
  }

  lemma SafeScan(c: Config, s: State, io: ScanIo)
    requires ValidConfig(c) && Safe(c, s) && s.flusher.Scanning? && s.flusher.todo != []
    ensures Safe(c, ScanHead(c, s, io))
  {
    hide TidyBy, FilesOk, FlusherOk, ParseRetries, MoveToFailed, Backoff.Duration, Ready, Stem;
    var f := s.flusher;
    var name := f.todo[0];
    var t := ScanHead(c, s, io);
    SkipOk(c, f, s.now, s.spool, s.past.delivered);
    if |f.picked| < c.maxBatch && ParseRetries(name) > c.maxRetries {
      var skip := s.(flusher := f.(todo := f.todo[1..]));
      assert t == MoveToFailed(skip, name, io.moveOk);
      SafeMove(c, skip, name, io.moveOk);
    } else {
      if |f.picked| < c.maxBatch && io.statOk
        && f.started - s.spool[name].mtime >= Backoff.Duration(c.backoff, ParseRetries(name), io.draw) {
        DueIsReady(c, f.started, name, s.spool[name], io.draw);
        PickOk(c, f, s.now, s.spool, s.past.delivered, f.bytes + s.spool[name].report.size);
      }
      assert t == s.(flusher := t.flusher);
    }
  }

  lemma DueIsReady(c: Config, started: int, name: string, f: File, draw: Draw)
    requires ValidConfig(c) && ParseRetries(name) <= c.maxRetries
    requires started - f.mtime >= Backoff.Duration(c.backoff, ParseRetries(name), draw)
    ensures Ready(c, started, name, f)
  {
    Backoff.DurationBounds(c.backoff, ParseRetries(name), draw);
  }

  /** What the flusher still has to do after the head of its list is done with. */
  lemma RemovingRest(c: Config, f: Flusher, now: int, spool: map<string, File>, delivered: set<Report>)
    requires ValidConfig(c) && FlusherOk(c, f, now, spool, delivered) && f.Removing? && f.removals != []
    ensures var rest := Removing(f.removals[1..], f.readable);
            FlusherOk(c, rest, now, spool, delivered) && f.removals[0] !in Names(rest)
    ensures f.removals[0] in spool
    ensures f.removals[0] in f.readable ==> spool[f.removals[0]].report in delivered
  {
    DropHead(f.removals);
  }

  lemma SafeRemove(c: Config, s: State, ok: bool)
    requires ValidConfig(c) && Safe(c, s) && s.flusher.Removing? && s.flusher.removals != []
    ensures Safe(c, RemoveHead(s, ok))
  {
    hide TidyBy, FilesOk, FlusherOk;
    var f := s.flusher;
    var name := f.removals[0];
    var rest := Removing(f.removals[1..], f.readable);
    RemovingRest(c, f, s.now, s.spool, s.past.delivered);
    TidyDrop(Stem, s.spool, s.failed, s.past.used, name);
    FilesDrop(c, s.spool, s.failed, name);
    FlusherOkDrop(c, rest, s.now, s.spool, s.past.delivered, name);
    IdleOk(c, s.now, s.spool, s.past.delivered);
    IdleOk(c, s.now, s.spool - {name}, s.past.delivered);
  }

  lemma IdleOk(c: Config, now: int, spool: map<string, File>, delivered: set<Report>)
    requires ValidConfig(c)
    ensures FlusherOk(c, Idle, now, spool, delivered)
  {
  }

  lemma WaitGrows(c: Config, k: nat)
    requires ValidConfig(c)
    ensures WaitBefore(c, k + 1) == WaitBefore(c, k) + Backoff.Shortest(c.backoff, k)
  {
  }

  /** A failed send ages the file by one retry and costs the next backoff. */
  lemma HistoryGrows(c: Config, marked: bool, k: int, f: File, g: File, started: int, now: int)
    requires ValidConfig(c) && HistoryOk(c, marked, k, f) && ReadyAt(c, started, k, f) && started <= now
    requires g == f.(mtime := g.mtime, touched := g.touched, failures := f.failures + 1)
    requires (g.mtime == now || g.mtime == f.mtime) && (g.touched ==> f.touched && g.mtime == now)
    ensures HistoryOk(c, marked, if marked then k + 1 else k, g)
  {
    if f.origin.Written? {
      WaitGrows(c, k);
      ShortestPositive(c, k);
    }
  }

  lemma HistoryUnrecorded(c: Config, marked: bool, k: int, f: File, g: File, started: int, now: int)
    requires ValidConfig(c) && HistoryOk(c, marked, k, f) && ReadyAt(c, started, k, f) && started <= now
    requires g == f.(mtime := g.mtime, touched := g.touched, failures := f.failures + 1, unrecorded := f.unrecorded + 1)
    requires (g.mtime == now || g.mtime == f.mtime) && (g.touched ==> f.touched && g.mtime == now)
    ensures HistoryOk(c, marked, k, g)
  {
    if f.origin.Written? {
      ShortestPositive(c, k);
    }
  }

  lemma ShortestPositive(c: Config, k: int)
    requires ValidConfig(c)
    ensures Backoff.Shortest(c.backoff, k) >= 0
  {
    if k > 0 {
      assert Backoff.Nominal(c.backoff, k) >= 0;
    }
  }

  lemma BumpedName(n: string, k: int)
    requires k == ParseRetries(n) && k < MAX_INT64
    ensures Stem(Bumped(n)) == Stem(n) && (Marked(Bumped(n)) <==> Marked(n))
    ensures ParseRetries(Bumped(n)) == if Marked(n) then k + 1 else k
  {
    StemOfSet(n, k + 1);
    if Marked(n) {
      ParseRetriesRange(n);
      ParseSet(n, k + 1);
    }
  }

  lemma ParseRetriesRange(n: string)
    ensures MIN_INT64 <= ParseRetries(n) <= MAX_INT64
  {
  }

  lemma BumpedFileOk(c: Config, name: string, f: File, started: int, now: int, touchOk: bool, renameOk: bool)
    requires ValidConfig(c) && FileOk(c, name, f) && Ready(c, started, name, f) && started <= now
    ensures var dst := if renameOk then Bumped(name) else name;
            FileOk(c, dst, BumpFile(f, now, touchOk, renameOk)) && Stem(dst) == Stem(name)
  {
    var g := BumpFile(f, now, touchOk, renameOk);
    if renameOk {
      BumpedName(name, ParseRetries(name));
      HistoryGrows(c, Marked(name), ParseRetries(name), f, g, started, now);
    } else {
      HistoryUnrecorded(c, Marked(name), ParseRetries(name), f, g, started, now);
    }
  }

  lemma BumpingRest(c: Config, f: Flusher, now: int, spool: map<string, File>, delivered: set<Report>,
                    later: int, dst: string, g: File)
    requires ValidConfig(c) && FlusherOk(c, f, now, spool, delivered) && f.Bumping? && f.bumps != [] && now <= later
    requires dst !in spool - {f.bumps[0]}
    ensures FlusherOk(c, Bumping(f.bumps[1..], f.started), later, (spool - {f.bumps[0]})[dst := g], delivered)
    ensures f.bumps[0] in spool && Ready(c, f.started, f.bumps[0], spool[f.bumps[0]]) && f.started <= now
  {
    DropHead(f.bumps);
    var rest := Bumping(f.bumps[1..], f.started);
    assert FlusherOk(c, rest, now, spool, delivered);
    FlusherOkAgree(c, rest, now, spool, delivered, later, (spool - {f.bumps[0]})[dst := g], delivered);
  }

  lemma BumpHeadReady(c: Config, f: Flusher, now: int, spool: map<string, File>, delivered: set<Report>)
    requires ValidConfig(c) && FlusherOk(c, f, now, spool, delivered) && f.Bumping? && f.bumps != []
    ensures f.bumps[0] in spool && Ready(c, f.started, f.bumps[0], spool[f.bumps[0]]) && f.started <= now
  {
  }

  lemma FileOkOf(c: Config, spool: map<string, File>, failed: map<string, File>, n: string)
    requires ValidConfig(c) && FilesOk(c, spool, failed) && n in spool
    ensures FileOk(c, n, spool[n])
  {
  }

  lemma SafeBump(c: Config, s: State, at: nat, touchOk: bool, renameOk: bool)
    requires ValidConfig(c) && Safe(c, s) && s.flusher.Bumping? && s.flusher.bumps != []
    ensures Safe(c, BumpHead(s, at, touchOk, renameOk))
    ensures s.flusher.bumps[0] in s.spool && Bumped(s.flusher.bumps[0]) !in s.spool - {s.flusher.bumps[0]}
  {
    hide TidyBy, FilesOk, FlusherOk, FileOk, Ready, Bumped, Stem, BumpFile;
    var f := s.flusher;
    var name, now := f.bumps[0], Clock(s, at);
    BumpHeadReady(c, f, s.now, s.spool, s.past.delivered);
    FileOkOf(c, s.spool, s.failed, name);
    BumpedFileOk(c, name, s.spool[name], f.started, now, touchOk, true);
    BumpedFileOk(c, name, s.spool[name], f.started, now, touchOk, renameOk);
    var dst := if renameOk then Bumped(name) else name;
    var g := BumpFile(s.spool[name], now, touchOk, renameOk);
    TidyRename(Stem, s.spool, s.failed, s.past.used, name, Bumped(name), g);
    TidyRename(Stem, s.spool, s.failed, s.past.used, name, dst, g);
    FilesDrop(c, s.spool, s.failed, name);
    FilesAdd(c, s.spool - {name}, s.failed, dst, g);
    BumpingRest(c, f, s.now, s.spool, s.past.delivered, now, dst, g);
    IdleOk(c, now, (s.spool - {name})[dst := g], s.past.delivered);
  }

  lemma MemoryFlusherOk(c: Config, f: Flusher, now: int, spool: map<string, File>, delivered: set<Report>)
    requires ValidConfig(c) && (f.SendingMemory? || f.SpillingMemory? || f.FoundMemoryEmpty?)
    ensures FlusherOk(c, f, now, spool, delivered)
  {
  }

  lemma SafeMemoryStep(c: Config, s: State, l: Label)
    requires ValidConfig(c) && Enabled(c, s, l) && Safe(c, s) && Distinct(s, l) && InMemory(l)
    ensures Safe(c, Apply(c, s, l))
  {
    hide TidyBy, FilesOk, FlusherOk, WriteToDisk, SpoolStem, Stem, BatchLength, Sizes, Over;
    match l
    case Accept(_) =>
    case SpillOldest(w) =>
      if s.mem != [] {
        SafeWrite(c, s.(mem := s.mem[1..], memBytes := s.memBytes - s.mem[0].size), s.mem[0], w);
      }
    case Release =>
    case AcceptToDisk(r, w) =>
      SafeWrite(c, s.(past := s.past.Accept(r)), r, w);
      FlusherOkLater(c, s.flusher, s.now, s.spool, s.past.delivered, Clock(s, w.at));
    case TakeBatch => MemoryFlusherOk(c, Apply(c, s, l).flusher, s.now, s.spool, s.past.delivered);
    case SendMemory(ok) =>
      var t := Apply(c, s, l);
      IdleOk(c, s.now, s.spool, t.past.delivered);
      if t.flusher.SpillingMemory? {
        MemoryFlusherOk(c, t.flusher, s.now, s.spool, s.past.delivered);
      }
    case SpillUnsent(w) =>
      var rest := s.flusher.spills;
      IdleOk(c, s.now, s.spool, s.past.delivered);
      MemoryFlusherOk(c, SpillingMemory(rest[1..]), s.now, s.spool, s.past.delivered);
      SafeWrite(c, s.(flusher := if |rest| == 1 then Idle else SpillingMemory(rest[1..])), rest[0], w);
  }

  lemma ListingOk(c: Config, listing: seq<string>, now: int, spool: map<string, File>, delivered: set<Report>)
    requires ValidConfig(c) && IsListing(listing, spool)
    ensures FlusherOk(c, Scanning(listing, [], 0, now), now, spool, delivered)
  {
    assert [] + listing == listing;
    forall i, j | 0 <= i < j < |listing| ensures listing[i] != listing[j] {
      StrTrichotomy(listing[i], listing[j]);
    }
  }

  lemma PickedOk(c: Config, f: Flusher, now: int, spool: map<string, File>, delivered: set<Report>)
    requires ValidConfig(c) && FlusherOk(c, f, now, spool, delivered) && f.Scanning? && f.todo == []
    ensures FlusherOk(c, SendingDisk(f.picked, f.started), now, spool, delivered)
  {
    assert f.picked + [] == f.picked;
  }

  lemma SentOk(c: Config, s: State, readable: set<string>)
    requires ValidConfig(c) && Safe(c, s) && s.flusher.SendingDisk?
    ensures FlusherOk(c, Removing(s.flusher.batch, readable), s.now, s.spool,
                      s.past.delivered + DecodedReports(s, s.flusher.batch, readable))
    ensures FlusherOk(c, Bumping(s.flusher.batch, s.flusher.started), s.now, s.spool, s.past.delivered)
  {
  }

  lemma SafeDiskStep(c: Config, s: State, l: Label)
    requires ValidConfig(c) && Enabled(c, s, l) && Safe(c, s) && !InMemory(l)
    ensures Safe(c, Apply(c, s, l))
  {
    hide TidyBy, FilesOk, FlusherOk, ScanHead, RemoveHead, BumpHead, DecodedReports, IsListing;
    IdleOk(c, s.now, s.spool, s.past.delivered);
    match l
    case SeeEmpty => MemoryFlusherOk(c, FoundMemoryEmpty, s.now, s.spool, s.past.delivered);
    case GiveUp =>
    case ReadDir(at, listing) => ListingOk(c, listing, Clock(s, at), s.spool, s.past.delivered);
    case ScanNext(io) => SafeScan(c, s, io);
    case EndScan => PickedOk(c, s.flusher, s.now, s.spool, s.past.delivered);
    case SendDisk(decoded, ok) => SentOk(c, s, set n | n in s.flusher.batch && n in decoded && n in s.spool);
    case RemoveNext(ok) => SafeRemove(c, s, ok);
    case BumpNext(at, touchOk, renameOk) => SafeBump(c, s, at, touchOk, renameOk);
  }

  /** Every step keeps the invariant, in any interleaving. */
  lemma SafeStep(c: Config, s: State, l: Label)
    requires ValidConfig(c) && Enabled(c, s, l) && Safe(c, s) && Distinct(s, l)
    ensures Safe(c, Apply(c, s, l))
  {
    if InMemory(l) {
      SafeMemoryStep(c, s, l);
    } else {
      SafeDiskStep(c, s, l);
    }
  }
}
