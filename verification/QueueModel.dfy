/** The forwarding queue as a state machine.

    Two goroutines share the queue: `Enqueue` (called by the snapshot loop) and the flusher
    (`Run`).  They meet at the mutex around the memory buffer and in the spool directory.  A
    step is what one of them does between two points where the other may run: one pass of the
    spill loop, taking a batch, one send, one rename.  The outcome of every clock reading,
    random draw, send and disk operation is part of the step's label, so a statement about all
    labels is a statement about every environment. */
module QueueModel {
  import opened Order
  import opened SpoolNames
  import Backoff

  datatype Config = Config(
    maxBatch: int,
    maxRetries: int,
    backoff: int,        // nanoseconds
    maxBatchBytes: int,
    memoryBuffer: int)

  /** The defaults `NewQueue` puts in place of useless settings. */
  function NewConfig(maxBatch: int, maxRetries: int, backoff: int, maxBatchBytes: int, memoryBuffer: int): (c: Config)
    ensures maxRetries < MAX_INT64 ==> ValidConfig(c)
    ensures ValidConfig(Config(maxBatch, maxRetries, backoff, maxBatchBytes, memoryBuffer)) ==>
      c == Config(maxBatch, maxRetries, backoff, maxBatchBytes, memoryBuffer)
    ensures (maxBatch <= 0 ==> c.maxBatch == 50) && (maxBatch > 0 ==> c.maxBatch == maxBatch)
    ensures (maxRetries < 0 ==> c.maxRetries == 0) && (maxRetries >= 0 ==> c.maxRetries == maxRetries)
    ensures (backoff <= 0 ==> c.backoff == 10_000_000_000) && (backoff > 0 ==> c.backoff == backoff)
    ensures (maxBatchBytes <= 0 ==> c.maxBatchBytes == 524_288) && (maxBatchBytes > 0 ==> c.maxBatchBytes == maxBatchBytes)
    ensures (memoryBuffer < 0 ==> c.memoryBuffer == 0) && (memoryBuffer >= 0 ==> c.memoryBuffer == memoryBuffer)
  {
    Config(
      if maxBatch <= 0 then 50 else maxBatch,
      if maxRetries < 0 then 0 else maxRetries,
      if backoff <= 0 then 10_000_000_000 else backoff,
      if maxBatchBytes <= 0 then 512 * 1024 else maxBatchBytes,
      if memoryBuffer < 0 then 0 else memoryBuffer)
  }

  predicate ValidConfig(c: Config)
  {
    && c.maxBatch > 0 && 0 <= c.maxRetries < MAX_INT64 && c.backoff > 0
    && c.maxBatchBytes > 0 && c.memoryBuffer >= 0
  }

  /** A marshalled report; `size` is the length of its JSON. */
  datatype Report = Report(id: nat, size: nat)

  /** Where a spool file came from: this process, or an earlier one that left it behind. */
  datatype Origin = Written | Found(retries: int)

  /** A spool file, with the history the retry accounting is stated about: when it was written,
      the failed sends it took part in, how many of those could not be recorded because the
      rename failed, and whether every failed send reset its modification time. */
  datatype File = File(
    report: Report,
    mtime: int,
    origin: Origin,
    written: int,
    failures: nat,
    unrecorded: nat,
    touched: bool)

  /** What the flusher is in the middle of. */
  datatype Flusher =
    | Idle
    | SendingMemory(mems: seq<Report>)
    | SpillingMemory(spills: seq<Report>)
    | FoundMemoryEmpty
    | Scanning(todo: seq<string>, picked: seq<string>, bytes: int, started: int)
    | SendingDisk(batch: seq<string>, started: int)
    | Removing(removals: seq<string>, readable: set<string>)
    | Bumping(bumps: seq<string>, started: int)

  datatype State = State(
    mem: seq<Report>,
    memBytes: int,
    locked: bool,                 // the mutex is held by Enqueue
    flusher: Flusher,
    spool: map<string, File>,
    failed: map<string, File>,
    now: nat,                     // last clock reading, unix nanoseconds
    past: History)

  /** What has happened to reports so far; no step looks at it. */
  datatype History = History(
    accepted: multiset<Report>,
    acked: multiset<Report>,      // dropped after an acknowledged send
    delivered: set<Report>,       // part of some acknowledged send
    lost: multiset<Report>,       // dropped by a failed or colliding disk operation
    used: set<string>)            // stems of all names the spool has held
  {
    function Accept(r: Report): History { this.(accepted := accepted + multiset{r}) }
    function Ack(rs: multiset<Report>): History { this.(acked := acked + rs) }
    function Deliver(rs: set<Report>): History { this.(delivered := delivered + rs) }
    function Lose(rs: multiset<Report>): History { this.(lost := lost + rs) }
    function Use(stem: string): History { this.(used := used + {stem}) }
  }

  type Random6 = n: nat | n < 1_000_000
  type Draw = n: nat | n < Backoff.DRAWS

  /** One `writeToDisk`: the clock, the random part of the name, and whether it succeeds. */
  datatype Write = Write(at: nat, rnd: Random6, ok: bool)

  /** One pass of the selection loop: the outcomes it may ask for. */
  datatype ScanIo = ScanIo(statOk: bool, draw: Draw, moveOk: bool)

  datatype Label =
    | Accept(report: Report)
    | SpillOldest(write: Write)
    | Release
    | AcceptToDisk(report: Report, write: Write)
    | TakeBatch
    | SendMemory(ok: bool)
    | SpillUnsent(write: Write)
    | SeeEmpty
    | GiveUp
    | ReadDir(at: nat, listing: seq<string>)
    | ScanNext(io: ScanIo)
    | EndScan
    | SendDisk(decoded: set<string>, ok: bool)
    | RemoveNext(ok: bool)
    | BumpNext(at: nat, touchOk: bool, renameOk: bool)

  // ---------------------------------------------------------------- pieces of the steps

  function Clock(s: State, at: nat): nat
  {
    if at > s.now then at else s.now
  }

  /** The condition of the spill loop. */
  predicate Over(c: Config, s: State)
  {
    |s.mem| > c.memoryBuffer || s.memBytes > c.maxBatchBytes
  }

  function Sizes(rs: seq<Report>): int
  {
    if rs == [] then 0 else Sizes(rs[..|rs| - 1]) + rs[|rs| - 1].size
  }

  /** The report a rename or write onto an existing name destroys. */
  function Overwritten(dir: map<string, File>, name: string): multiset<Report>
  {
    if name in dir then multiset{dir[name].report} else multiset{}
  }

  function NewName(s: State, w: Write): string
  {
    SpoolName(Clock(s, w.at), w.rnd)
  }

  /** `writeToDisk` of a report the queue is responsible for. */
  function WriteToDisk(s: State, r: Report, w: Write): State
  {
    var now := Clock(s, w.at);
    if !w.ok then
      s.(now := now, past := s.past.Lose(multiset{r}))
    else
      var name := NewName(s, w);
      s.(now := now,
         spool := s.spool[name := File(r, now, Written, now, 0, 0, true)],
         past := s.past.Lose(Overwritten(s.spool, name)).Use(Stem(name)))
  }

  /** One pass of the spill loop in `Enqueue`. */
  function SpillHead(s: State, w: Write): State
    requires s.mem != []
  {
    WriteToDisk(s.(mem := s.mem[1..], memBytes := s.memBytes - s.mem[0].size), s.mem[0], w)
  }

  /** How many reports from the front of the buffer the batch loop of `flushMemory` takes. */
  function BatchLength(c: Config, mem: seq<Report>, taken: nat, bytes: int): (n: nat)
    requires taken <= |mem|
    ensures taken <= n <= |mem|
    decreases |mem| - taken
  {
    if taken == |mem| || taken >= c.maxBatch then taken
    else if bytes + mem[taken].size > c.maxBatchBytes && taken > 0 then taken
    else BatchLength(c, mem, taken + 1, bytes + mem[taken].size)
  }

  function MoveToFailed(s: State, name: string, ok: bool): State
  {
    if !ok || name !in s.spool then s
    else
      s.(spool := s.spool - {name},
         failed := s.failed[name := s.spool[name]],
         past := s.past.Lose(Overwritten(s.failed, name)))
  }

  /** One pass of the selection loop over the listing. */
  function ScanHead(c: Config, s: State, io: ScanIo): State
    requires ValidConfig(c) && s.flusher.Scanning? && s.flusher.todo != []
  {
    var Scanning(todo, picked, bytes, started) := s.flusher;
    var name := todo[0];
    var skip := s.(flusher := Scanning(todo[1..], picked, bytes, started));
    var stop := s.(flusher := Scanning([], picked, bytes, started));
    if |picked| >= c.maxBatch then stop
    else if ParseRetries(name) > c.maxRetries then MoveToFailed(skip, name, io.moveOk)
    else if !io.statOk || name !in s.spool then skip
    else
      var file := s.spool[name];
      if started - file.mtime < Backoff.Duration(c.backoff, ParseRetries(name), io.draw) then skip
      else if bytes + file.report.size > c.maxBatchBytes && picked != [] then stop
      else s.(flusher := Scanning(todo[1..], picked + [name], bytes + file.report.size, started))
  }

  /** The reports of the files in `names` that could be read and decoded. */
  function DecodedReports(s: State, names: seq<string>, decoded: set<string>): set<Report>
  {
    set n | n in names && n in decoded && n in s.spool :: s.spool[n].report
  }

  function RemoveHead(s: State, ok: bool): State
    requires s.flusher.Removing? && s.flusher.removals != []
  {
    var Removing(names, readable) := s.flusher;
    var next := s.(flusher := if |names| == 1 then Idle else Removing(names[1..], readable));
    var name := names[0];
    if !ok || name !in s.spool then next
    else
      var gone := next.(spool := s.spool - {name});
      var dropped := multiset{s.spool[name].report};
      gone.(past := if name in readable then s.past.Ack(dropped) else s.past.Lose(dropped))
  }

  function Bumped(name: string): string
  {
    SetRetries(name, ParseRetries(name) + 1)
  }

  /** A file after a failed send: `os.Chtimes` may fail silently, and so may the rename. */
  function BumpFile(f: File, now: int, touchOk: bool, renameOk: bool): File
  {
    f.(mtime := if touchOk then now else f.mtime,
       touched := f.touched && touchOk,
       failures := f.failures + 1,
       unrecorded := f.unrecorded + if renameOk then 0 else 1)
  }

  function BumpHead(s: State, at: nat, touchOk: bool, renameOk: bool): State
    requires s.flusher.Bumping? && s.flusher.bumps != []
  {
    var Bumping(names, started) := s.flusher;
    var now := Clock(s, at);
    var next := s.(now := now, flusher := if |names| == 1 then Idle else Bumping(names[1..], started));
    var name := names[0];
    if name !in s.spool then next
    else
      var rest := s.spool - {name};
      var dst := if renameOk then Bumped(name) else name;
      next.(spool := rest[dst := BumpFile(s.spool[name], now, touchOk, renameOk)],
            past := s.past.Lose(Overwritten(rest, dst)))
  }

  predicate HasJsonSuffix(name: string)
  {
    |name| >= |SUFFIX| && name[|name| - |SUFFIX|..] == SUFFIX
  }

  /** `os.ReadDir`, filtered and sorted. */
  ghost predicate IsListing(listing: seq<string>, dir: map<string, File>)
  {
    && StrictlySorted(StrLess, listing)
    && forall n :: n in listing <==> n in dir && HasJsonSuffix(n)
  }

  // ---------------------------------------------------------------- the steps

  ghost predicate Enabled(c: Config, s: State, l: Label)
  {
    match l
    case Accept(_) => c.memoryBuffer > 0 && !s.locked
    case SpillOldest(_) => s.locked && Over(c, s)
    case Release => s.locked && !Over(c, s)
    case AcceptToDisk(_, _) => c.memoryBuffer == 0
    case TakeBatch => s.flusher.Idle? && !s.locked && s.mem != []
    case SendMemory(_) => s.flusher.SendingMemory?
    case SpillUnsent(_) => s.flusher.SpillingMemory? && s.flusher.spills != []
    case SeeEmpty => s.flusher.Idle? && !s.locked && s.mem == []
    case GiveUp => s.flusher.FoundMemoryEmpty?
    case ReadDir(_, listing) => s.flusher.FoundMemoryEmpty? && IsListing(listing, s.spool)
    case ScanNext(_) => s.flusher.Scanning? && s.flusher.todo != []
    case EndScan => s.flusher.Scanning? && s.flusher.todo == []
    case SendDisk(_, _) => s.flusher.SendingDisk?
    case RemoveNext(_) => s.flusher.Removing? && s.flusher.removals != []
    case BumpNext(_, _, _) => s.flusher.Bumping? && s.flusher.bumps != []
  }

  ghost function Apply(c: Config, s: State, l: Label): State
    requires ValidConfig(c) && Enabled(c, s, l)
  {
    match l
    case Accept(r) =>
      s.(mem := s.mem + [r], memBytes := s.memBytes + r.size, locked := true,
         past := s.past.Accept(r))
    case SpillOldest(w) =>
      // with an empty buffer Go would panic here; `QueueSafety.BufferLaws` rules it out
      if s.mem == [] then s else SpillHead(s, w)
    case Release => s.(locked := false)
    case AcceptToDisk(r, w) =>
      if !w.ok then s.(now := Clock(s, w.at))     // the error is returned: not accepted
      else WriteToDisk(s.(past := s.past.Accept(r)), r, w)
    case TakeBatch =>
      var n := BatchLength(c, s.mem, 0, 0);
      s.(mem := s.mem[n..], memBytes := s.memBytes - Sizes(s.mem[..n]), flusher := SendingMemory(s.mem[..n]))
    case SendMemory(ok) =>
      var batch := s.flusher.mems;
      if ok then
        s.(flusher := Idle, past := s.past.Ack(multiset(batch)).Deliver(set r | r in batch))
      else
        s.(flusher := if batch == [] then Idle else SpillingMemory(batch))
    case SpillUnsent(w) =>
      var rest := s.flusher.spills;
      WriteToDisk(s.(flusher := if |rest| == 1 then Idle else SpillingMemory(rest[1..])), rest[0], w)
    case SeeEmpty => s.(flusher := FoundMemoryEmpty)
    case GiveUp => s.(flusher := Idle)
    case ReadDir(at, listing) =>
      s.(now := Clock(s, at), flusher := Scanning(listing, [], 0, Clock(s, at)))
    case ScanNext(io) => ScanHead(c, s, io)
    case EndScan =>
      s.(flusher := if s.flusher.picked == [] then Idle else SendingDisk(s.flusher.picked, s.flusher.started))
    case SendDisk(decoded, ok) =>
      var SendingDisk(batch, started) := s.flusher;
      var readable := set n | n in batch && n in decoded && n in s.spool;
      if readable == {} then s.(flusher := Idle)
      else if ok then
        s.(flusher := Removing(batch, readable), past := s.past.Deliver(DecodedReports(s, batch, readable)))
      else s.(flusher := Bumping(batch, started))
    case RemoveNext(ok) => RemoveHead(s, ok)
    case BumpNext(at, touchOk, renameOk) => BumpHead(s, at, touchOk, renameOk)
  }

  ghost predicate Run(c: Config, s: State, labels: seq<Label>, t: State)
    requires ValidConfig(c)
    decreases |labels|
  {
    if labels == [] then s == t
    else Enabled(c, s, labels[0]) && Run(c, Apply(c, s, labels[0]), labels[1..], t)
  }

  // ---------------------------------------------------------------- sums over a directory

  /** The reports in a directory, with multiplicity, over the names `ns`. */
  ghost function ContentsAt(dir: map<string, File>, ns: set<string>): multiset<Report>
    requires ns <= dir.Keys
  {
    if ns == {} then multiset{}
    else
      var n :| n in ns;
      ContentsAt(dir, ns - {n}) + multiset{dir[n].report}
  }

  ghost function Contents(dir: map<string, File>): multiset<Report>
  {
    ContentsAt(dir, dir.Keys)
  }

  lemma ContentsUnfold(dir: map<string, File>, ns: set<string>) returns (n: string)
    requires ns != {} && ns <= dir.Keys
    ensures n in ns && ContentsAt(dir, ns) == ContentsAt(dir, ns - {n}) + multiset{dir[n].report}
  {
    n :| n in ns && ContentsAt(dir, ns) == ContentsAt(dir, ns - {n}) + multiset{dir[n].report};
  }

  lemma {:induction false} ContentsAtRemove(dir: map<string, File>, ns: set<string>, n: string)
    requires n in ns && ns <= dir.Keys
    ensures ContentsAt(dir, ns) == ContentsAt(dir, ns - {n}) + multiset{dir[n].report}
  {
    var n0 := ContentsUnfold(dir, ns);
    if n0 != n {
      ContentsAtRemove(dir, ns - {n0}, n);
      ContentsAtRemove(dir, ns - {n}, n0);
      assert (ns - {n0}) - {n} == (ns - {n}) - {n0};
    }
  }

  lemma {:induction false} ContentsAtAgree(dir: map<string, File>, other: map<string, File>, ns: set<string>)
    requires ns <= dir.Keys && ns <= other.Keys
    requires forall n :: n in ns ==> dir[n].report == other[n].report
    ensures ContentsAt(dir, ns) == ContentsAt(other, ns)
  {
    if ns != {} {
      var n := ContentsUnfold(dir, ns);
      ContentsAtAgree(dir, other, ns - {n});
      ContentsAtRemove(other, ns, n);
    }
  }

  /** Taking a file out of a directory takes its report out of the contents. */
  lemma ContentsWithout(dir: map<string, File>, n: string)
    requires n in dir
    ensures Contents(dir) == Contents(dir - {n}) + multiset{dir[n].report}
  {
    ContentsAtRemove(dir, dir.Keys, n);
    ContentsAtAgree(dir, dir - {n}, dir.Keys - {n});
    assert (dir - {n}).Keys == dir.Keys - {n};
  }

  lemma ContentsFresh(dir: map<string, File>, n: string, f: File)
    requires n !in dir
    ensures Contents(dir[n := f]) == Contents(dir) + multiset{f.report}
  {
    ContentsWithout(dir[n := f], n);
    assert dir[n := f] - {n} == dir;
  }

  /** Putting one in adds its report, minus whatever it overwrites. */
  lemma ContentsWith(dir: map<string, File>, n: string, f: File)
    ensures Contents(dir[n := f]) + Overwritten(dir, n) == Contents(dir) + multiset{f.report}
  {
    if n in dir {
      ContentsWithout(dir, n);
      ContentsFresh(dir - {n}, n, f);
      assert (dir - {n})[n := f] == dir[n := f];
    } else {
      ContentsFresh(dir, n, f);
    }
  }
}
