/** The worker pool of the pricing generator.

    Workers take jobs from a bounded channel and put throttled jobs back into the same channel;
    a wait group counts unfinished jobs and its zero closes the channel.  The steps below are
    the channel operations, the fetches and the close, in any interleaving.  Nothing is ever
    sent on the closed channel, every job is finished once and fetched at most six times, every
    run ends; but it may end with all workers blocked, and `DeadlockIff` says exactly when. */
module PricingPool {

  const MAX_ATTEMPTS := 5

  datatype Job = Job(id: nat, region: string, instance: string, attempt: nat)

  datatype Worker = Waiting | Fetching(job: Job) | Resending(job: Job) | Exited

  datatype Outcome = Price(usd: real) | Throttled | OtherError

  datatype State = State(
    feeder: seq<Job>,               // what the feeding goroutine still has to send
    tasks: seq<Job>,                // the channel
    closed: bool,
    workers: seq<Worker>,
    pending: int,                   // jobWG
    result: map<(string, string), real>,
    // history
    finished: multiset<nat>,        // ids for which jobWG.Done has been called
    fetched: multiset<nat>,         // ids of the fetches made
    priced: set<nat>,               // ids that ended with a price
    dropped: set<nat>)              // ids that ended with a warning

  datatype Label =
    | Feed
    | Receive(w: nat)
    | SeeClosed(w: nat)
    | Fetch(w: nat, outcome: Outcome)
    | Resend(w: nat)
    | Close

  /** The number of workers started for `n` jobs. */
  function Level(concurrency: int, n: nat): (c: nat)
    ensures concurrency <= 0 ==> c == 1
    ensures concurrency > 0 ==> c == if 0 < n < concurrency then n else concurrency
  {
    var c := if concurrency <= 0 then 1 else concurrency;
    if c > n && n > 0 then n else c
  }

  function Capacity(c: nat): nat
  {
    2 * c + 1
  }

  predicate ShouldRetry(outcome: Outcome, attempt: nat)
  {
    attempt < MAX_ATTEMPTS && outcome.Throttled?
  }

  predicate HasRoom(s: State)
  {
    |s.tasks| < Capacity(|s.workers|)
  }

  predicate IsWorker(s: State, w: nat)
  {
    w < |s.workers|
  }

  predicate Enabled(s: State, l: Label)
  {
    match l
    case Feed => s.feeder != [] && HasRoom(s)
    case Receive(w) => IsWorker(s, w) && s.workers[w].Waiting? && s.tasks != []
    case SeeClosed(w) => IsWorker(s, w) && s.workers[w].Waiting? && s.tasks == [] && s.closed
    case Fetch(w, _) => IsWorker(s, w) && s.workers[w].Fetching?
    case Resend(w) => IsWorker(s, w) && s.workers[w].Resending? && HasRoom(s)
    case Close => !s.closed && s.pending == 0
  }

  /** jobWG.Done for the job worker `w` has just fetched. */
  function Done(s: State, w: nat): State
    requires IsWorker(s, w) && s.workers[w].Fetching?
  {
    var job := s.workers[w].job;
    s.(workers := s.workers[w := Waiting], pending := s.pending - 1,
       finished := s.finished + multiset{job.id}, fetched := s.fetched + multiset{job.id})
  }

  function Apply(s: State, l: Label): State
    requires Enabled(s, l)
  {
    match l
    case Feed => s.(feeder := s.feeder[1..], tasks := s.tasks + [s.feeder[0]])
    case Receive(w) => s.(tasks := s.tasks[1..], workers := s.workers[w := Fetching(s.tasks[0])])
    case SeeClosed(w) => s.(workers := s.workers[w := Exited])
    case Fetch(w, outcome) =>
      var job := s.workers[w].job;
      if outcome.Price? then
        Done(s, w).(result := s.result[(job.region, job.instance) := outcome.usd], priced := s.priced + {job.id})
      else if ShouldRetry(outcome, job.attempt) then
        s.(workers := s.workers[w := Resending(job.(attempt := job.attempt + 1))],
           fetched := s.fetched + multiset{job.id})
      else Done(s, w).(dropped := s.dropped + {job.id})
    case Resend(w) => s.(tasks := s.tasks + [s.workers[w].job], workers := s.workers[w := Waiting])
    case Close => s.(closed := true)
  }

  /** Jobs numbered from 0, none attempted yet. */
  predicate Numbered(jobs: seq<Job>)
  {
    forall i :: 0 <= i < |jobs| ==> jobs[i].id == i && jobs[i].attempt == 0
  }

  function Start(jobs: seq<Job>, c: nat): State
  {
    State(jobs, [], false, seq(c, _ => Waiting), |jobs|, map[], multiset{}, multiset{}, {}, {})
  }

  predicate Run(s: State, labels: seq<Label>, t: State)
    decreases |labels|
  {
    if labels == [] then s == t
    else Enabled(s, labels[0]) && Run(Apply(s, labels[0]), labels[1..], t)
  }

  predicate Reachable(jobs: seq<Job>, c: nat, labels: seq<Label>, t: State)
  {
    Run(Start(jobs, c), labels, t)
  }

  // ---------------------------------------------------------------- counting jobs

  function CountIn(jobs: seq<Job>, id: nat): nat
  {
    if jobs == [] then 0
    else CountIn(jobs[..|jobs| - 1], id) + if jobs[|jobs| - 1].id == id then 1 else 0
  }

  /** The job a worker is responsible for, if any. */
  function Held(w: Worker): seq<Job>
  {
    match w
    case Fetching(j) => [j]
    case Resending(j) => [j]
    case _ => []
  }

  function CountHeld(ws: seq<Worker>, id: nat): nat
  {
    if ws == [] then 0 else CountHeld(ws[..|ws| - 1], id) + CountIn(Held(ws[|ws| - 1]), id)
  }

  function HeldBy(ws: seq<Worker>): nat
  {
    if ws == [] then 0 else HeldBy(ws[..|ws| - 1]) + |Held(ws[|ws| - 1])|
  }

  /** How often a job is with the feeder, in the channel or with a worker. */
  function CountLive(s: State, id: nat): nat
  {
    CountIn(s.feeder, id) + CountIn(s.tasks, id) + CountHeld(s.workers, id)
  }

  function Unfinished(s: State): nat
  {
    |s.feeder| + |s.tasks| + HeldBy(s.workers)
  }

  lemma {:induction false} CountTail(jobs: seq<Job>, id: nat)
    requires jobs != []
    ensures CountIn(jobs, id) == (if jobs[0].id == id then 1 else 0) + CountIn(jobs[1..], id)
  {
    if |jobs| > 1 {
      CountTail(jobs[..|jobs| - 1], id);
      assert jobs[1..][..|jobs| - 2] == jobs[..|jobs| - 1][1..];
    } else {
      assert jobs[..0] == [] && jobs[1..] == [];
    }
  }

  lemma CountSnoc(jobs: seq<Job>, j: Job, id: nat)
    ensures CountIn(jobs + [j], id) == CountIn(jobs, id) + if j.id == id then 1 else 0
  {
    assert (jobs + [j])[..|jobs|] == jobs;
  }

  lemma {:induction false} CountHeldUpdate(ws: seq<Worker>, w: nat, x: Worker, id: nat)
    requires w < |ws|
    ensures CountHeld(ws[w := x], id) == CountHeld(ws, id) - CountIn(Held(ws[w]), id) + CountIn(Held(x), id)
  {
    if w < |ws| - 1 {
      CountHeldUpdate(ws[..|ws| - 1], w, x, id);
      assert ws[w := x][..|ws| - 1] == ws[..|ws| - 1][w := x];
    } else {
      assert ws[w := x][..|ws| - 1] == ws[..|ws| - 1];
    }
  }

  lemma {:induction false} HeldByUpdate(ws: seq<Worker>, w: nat, x: Worker)
    requires w < |ws|
    ensures HeldBy(ws[w := x]) == HeldBy(ws) - |Held(ws[w])| + |Held(x)|
  {
    if w < |ws| - 1 {
      HeldByUpdate(ws[..|ws| - 1], w, x);
      assert ws[w := x][..|ws| - 1] == ws[..|ws| - 1][w := x];
    } else {
      assert ws[w := x][..|ws| - 1] == ws[..|ws| - 1];
    }
  }

  lemma {:induction false} CountHeldMember(ws: seq<Worker>, w: nat)
    requires w < |ws|
    ensures HeldBy(ws) >= |Held(ws[w])|
    ensures forall id :: CountHeld(ws, id) >= CountIn(Held(ws[w]), id)
  {
    if w < |ws| - 1 {
      CountHeldMember(ws[..|ws| - 1], w);
    }
  }

  lemma {:induction false} AllWorkersHold(ws: seq<Worker>)
    requires forall w :: 0 <= w < |ws| ==> ws[w].Resending?
    ensures HeldBy(ws) == |ws|
  {
    if ws != [] {
      AllWorkersHold(ws[..|ws| - 1]);
    }
  }

  // ---------------------------------------------------------------- the invariant

  /** What is known of a job in flight. */
  predicate JobOk(s: State, n: nat, j: Job)
  {
    j.id < n && j.attempt <= MAX_ATTEMPTS && s.fetched[j.id] == j.attempt
  }

  predicate JobsOk(s: State, n: nat)
  {
    && (forall i :: 0 <= i < |s.feeder| ==> JobOk(s, n, s.feeder[i]))
    && (forall i :: 0 <= i < |s.tasks| ==> JobOk(s, n, s.tasks[i]))
    && (forall w :: 0 <= w < |s.workers| && s.workers[w].Fetching? ==> JobOk(s, n, s.workers[w].job))
    && (forall w :: 0 <= w < |s.workers| && s.workers[w].Resending? ==> JobOk(s, n, s.workers[w].job))
  }

  ghost predicate Inv(s: State, n: nat, c: nat)
  {
    && |s.workers| == c && |s.tasks| <= Capacity(c)
    && (forall id: nat :: CountLive(s, id) + s.finished[id] == if id < n then 1 else 0)
    && s.pending == n - |s.finished| == Unfinished(s)
    && (s.closed ==> s.pending == 0)
    && (forall w :: 0 <= w < c && s.workers[w].Exited? ==> s.closed)
    && JobsOk(s, n)
    && (forall id: nat :: s.fetched[id] <= MAX_ATTEMPTS + 1)
  }

  lemma {:induction false} CountMember(jobs: seq<Job>, i: nat)
    requires i < |jobs|
    ensures CountIn(jobs, jobs[i].id) >= 1
  {
    if i < |jobs| - 1 {
      CountMember(jobs[..|jobs| - 1], i);
    }
  }

  lemma {:induction false} CountHeldTwo(ws: seq<Worker>, v: nat, w: nat, id: nat)
    requires v < w < |ws|
    ensures CountHeld(ws, id) >= CountIn(Held(ws[v]), id) + CountIn(Held(ws[w]), id)
  {
    if w < |ws| - 1 {
      CountHeldTwo(ws[..|ws| - 1], v, w, id);
    } else {
      CountHeldMember(ws[..|ws| - 1], v);
    }
  }

  lemma CountHeldJob(w: Worker, id: nat)
    ensures CountIn(Held(w), id) == if (w.Fetching? || w.Resending?) && w.job.id == id then 1 else 0
  {
    if w.Fetching? || w.Resending? {
      assert Held(w)[..0] == [];
    }
  }

  /** The job a worker holds is nowhere else. */
  lemma HeldAlone(s: State, n: nat, c: nat, w: nat)
    requires Inv(s, n, c) && w < c && (s.workers[w].Fetching? || s.workers[w].Resending?)
    ensures var id := s.workers[w].job.id;
            && (forall i :: 0 <= i < |s.feeder| ==> s.feeder[i].id != id)
            && (forall i :: 0 <= i < |s.tasks| ==> s.tasks[i].id != id)
            && (forall v :: 0 <= v < c && v != w && (s.workers[v].Fetching? || s.workers[v].Resending?) ==> s.workers[v].job.id != id)
            && s.finished[id] == 0
  {
    var id := s.workers[w].job.id;
    CountHeldJob(s.workers[w], id);
    CountHeldMember(s.workers, w);
    assert CountLive(s, id) + s.finished[id] <= 1;
    forall i | 0 <= i < |s.feeder| ensures s.feeder[i].id != id {
      CountMember(s.feeder, i);
    }
    forall i | 0 <= i < |s.tasks| ensures s.tasks[i].id != id {
      CountMember(s.tasks, i);
    }
    forall v | 0 <= v < c && v != w && (s.workers[v].Fetching? || s.workers[v].Resending?) ensures s.workers[v].job.id != id {
      CountHeldJob(s.workers[v], id);
      CountHeldTwo(s.workers, if v < w then v else w, if v < w then w else v, id);
    }
  }

  lemma StartInv(jobs: seq<Job>, c: nat)
    requires Numbered(jobs)
    ensures Inv(Start(jobs, c), |jobs|, c)
  {
    var s := Start(jobs, c);
    NoneHeld(s.workers);
    forall id: nat ensures CountLive(s, id) == if id < |jobs| then 1 else 0 {
      NumberedCount(jobs, 0, id);
    }
  }

  lemma {:induction false} NoneHeld(ws: seq<Worker>)
    requires forall w :: 0 <= w < |ws| ==> ws[w].Waiting?
    ensures HeldBy(ws) == 0 && forall id :: CountHeld(ws, id) == 0
  {
    if ws != [] {
      NoneHeld(ws[..|ws| - 1]);
    }
  }

  lemma {:induction false} NumberedCount(jobs: seq<Job>, from: nat, id: nat)
    requires forall i :: 0 <= i < |jobs| ==> jobs[i].id == from + i
    ensures CountIn(jobs, id) == if from <= id < from + |jobs| then 1 else 0
  {
    if jobs != [] {
      NumberedCount(jobs[..|jobs| - 1], from, id);
    }
  }

  lemma FeedStep(s: State, n: nat, c: nat)
    requires Inv(s, n, c) && Enabled(s, Feed)
    ensures Inv(Apply(s, Feed), n, c)
  {
    hide CountIn, CountHeld, HeldBy;
    var t := Apply(s, Feed);
    forall id: nat ensures CountLive(t, id) == CountLive(s, id) {
      CountTail(s.feeder, id);
      CountSnoc(s.tasks, s.feeder[0], id);
    }
    assert Unfinished(t) == Unfinished(s);
  }

  lemma ReceiveStep(s: State, n: nat, c: nat, w: nat)
    requires Inv(s, n, c) && Enabled(s, Receive(w))
    ensures Inv(Apply(s, Receive(w)), n, c)
  {
    hide CountIn, CountHeld, HeldBy;
    var t := Apply(s, Receive(w));
    var x := Fetching(s.tasks[0]);
    forall id: nat ensures CountLive(t, id) == CountLive(s, id) {
      CountTail(s.tasks, id);
      CountHeldUpdate(s.workers, w, x, id);
      CountHeldJob(s.workers[w], id);
      CountHeldJob(x, id);
    }
    HeldByUpdate(s.workers, w, x);
    assert Unfinished(t) == Unfinished(s);
  }

  lemma SeeClosedStep(s: State, n: nat, c: nat, w: nat)
    requires Inv(s, n, c) && Enabled(s, SeeClosed(w))
    ensures Inv(Apply(s, SeeClosed(w)), n, c)
  {
    hide CountIn, CountHeld, HeldBy;
    var t := Apply(s, SeeClosed(w));
    forall id: nat ensures CountLive(t, id) == CountLive(s, id) {
      CountHeldUpdate(s.workers, w, Exited, id);
      CountHeldJob(s.workers[w], id);
      CountHeldJob(Exited, id);
    }
    HeldByUpdate(s.workers, w, Exited);
  }

  lemma ResendStep(s: State, n: nat, c: nat, w: nat)
    requires Inv(s, n, c) && Enabled(s, Resend(w))
    ensures Inv(Apply(s, Resend(w)), n, c)
  {
    hide CountIn, CountHeld, HeldBy;
    var t := Apply(s, Resend(w));
    var job := s.workers[w].job;
    forall id: nat ensures CountLive(t, id) == CountLive(s, id) {
      CountSnoc(s.tasks, job, id);
      CountHeldUpdate(s.workers, w, Waiting, id);
      CountHeldJob(s.workers[w], id);
      CountHeldJob(Waiting, id);
    }
    HeldByUpdate(s.workers, w, Waiting);
  }

  /** After a fetch by worker `w` every job still knows how often it has been fetched. */
  lemma FetchJobsOk(s: State, n: nat, c: nat, w: nat, x: Worker, t: State)
    requires Inv(s, n, c) && w < c && s.workers[w].Fetching?
    requires x.Waiting? || (s.workers[w].job.attempt < MAX_ATTEMPTS
                            && x == Resending(s.workers[w].job.(attempt := s.workers[w].job.attempt + 1)))
    requires t.feeder == s.feeder && t.tasks == s.tasks && t.workers == s.workers[w := x]
    requires t.fetched == s.fetched + multiset{s.workers[w].job.id}
    ensures JobsOk(t, n)
    ensures forall id: nat :: t.fetched[id] <= MAX_ATTEMPTS + 1
  {
    HeldAlone(s, n, c, w);
  }

  lemma RetryStep(s: State, n: nat, c: nat, w: nat, outcome: Outcome)
    requires Inv(s, n, c) && Enabled(s, Fetch(w, outcome))
    requires !outcome.Price? && ShouldRetry(outcome, s.workers[w].job.attempt)
    ensures Inv(Apply(s, Fetch(w, outcome)), n, c)
  {
    hide JobsOk, CountIn, CountHeld, HeldBy;
    var t := Apply(s, Fetch(w, outcome));
    var job := s.workers[w].job;
    var x := Resending(job.(attempt := job.attempt + 1));
    FetchJobsOk(s, n, c, w, x, t);
    forall id: nat ensures CountLive(t, id) == CountLive(s, id) {
      CountHeldUpdate(s.workers, w, x, id);
      CountHeldJob(s.workers[w], id);
      CountHeldJob(x, id);
    }
    HeldByUpdate(s.workers, w, x);
  }

  lemma DoneStep(s: State, n: nat, c: nat, w: nat)
    requires Inv(s, n, c) && IsWorker(s, w) && s.workers[w].Fetching?
    ensures Inv(Done(s, w), n, c)
    ensures s.finished[s.workers[w].job.id] == 0 && Done(s, w).pending >= 0
  {
    hide JobsOk, CountIn, CountHeld, HeldBy;
    var t := Done(s, w);
    HeldAlone(s, n, c, w);
    FetchJobsOk(s, n, c, w, Waiting, t);
    forall id: nat ensures CountLive(t, id) + t.finished[id] == CountLive(s, id) + s.finished[id] {
      CountHeldUpdate(s.workers, w, Waiting, id);
      CountHeldJob(s.workers[w], id);
      CountHeldJob(Waiting, id);
    }
    HeldByUpdate(s.workers, w, Waiting);
    CountHeldMember(s.workers, w);
  }

  lemma CloseStep(s: State, n: nat, c: nat)
    requires Inv(s, n, c) && Enabled(s, Close)
    ensures Inv(Apply(s, Close), n, c)
  {
  }

  lemma InvIgnoresResults(s: State, n: nat, c: nat, t: State)
    requires Inv(s, n, c) && t == s.(result := t.result, priced := t.priced, dropped := t.dropped)
    ensures Inv(t, n, c)
  {
    forall id: nat ensures CountLive(t, id) == CountLive(s, id) {
    }
  }

  lemma InvStep(s: State, n: nat, c: nat, l: Label)
    requires Inv(s, n, c) && Enabled(s, l)
    ensures Inv(Apply(s, l), n, c)
  {
    hide Inv, Done;
    match l
    case Feed => FeedStep(s, n, c);
    case Receive(w) => ReceiveStep(s, n, c, w);
    case SeeClosed(w) => SeeClosedStep(s, n, c, w);
    case Fetch(w, outcome) =>
      if !outcome.Price? && ShouldRetry(outcome, s.workers[w].job.attempt) {
        RetryStep(s, n, c, w, outcome);
      } else {
        DoneStep(s, n, c, w);
        InvIgnoresResults(Done(s, w), n, c, Apply(s, l));
      }
    case Resend(w) => ResendStep(s, n, c, w);
    case Close => CloseStep(s, n, c);
  }

  lemma {:induction false} RunInv(s: State, n: nat, c: nat, labels: seq<Label>, t: State)
    requires Inv(s, n, c) && Run(s, labels, t)
    ensures Inv(t, n, c)
    decreases |labels|
  {
    hide Inv, Apply, Enabled;
    if labels != [] {
      InvStep(s, n, c, labels[0]);
      RunInv(Apply(s, labels[0]), n, c, labels[1..], t);
    }
  }

  // ---------------------------------------------------------------- safety

  lemma CountsAreFew(s: State)
    requires Unfinished(s) == 0
    ensures s.feeder == [] && s.tasks == []
    ensures forall w :: 0 <= w < |s.workers| ==> !s.workers[w].Fetching? && !s.workers[w].Resending?
  {
    forall w | 0 <= w < |s.workers| ensures !s.workers[w].Fetching? && !s.workers[w].Resending? {
      CountHeldMember(s.workers, w);
    }
  }

  /** In every reachable state: once the channel is closed nobody has anything left to send to
      it; the wait group never goes below zero; no job is finished twice or fetched more than
      six times; and it is finished or in exactly one place. */
  lemma PoolIsSafe(jobs: seq<Job>, c: nat, labels: seq<Label>, t: State)
    requires Numbered(jobs) && Reachable(jobs, c, labels, t)
    ensures t.closed ==> t.feeder == [] && forall w :: 0 <= w < c ==> IsWorker(t, w) && !t.workers[w].Resending?
    ensures t.pending >= 0 && t.pending == |jobs| - |t.finished|
    ensures forall id: nat :: t.finished[id] <= 1 && t.fetched[id] <= MAX_ATTEMPTS + 1
    ensures forall id: nat :: id < |jobs| ==> CountLive(t, id) + t.finished[id] == 1
  {
    StartInv(jobs, c);
    RunInv(Start(jobs, c), |jobs|, c, labels, t);
    if t.closed {
      CountsAreFew(t);
    }
  }

  // ---------------------------------------------------------------- results

  function Key(j: Job): (string, string)
  {
    (j.region, j.instance)
  }

  /** The job is the one with that number. */
  predicate Genuine(jobs: seq<Job>, j: Job)
  {
    j.id < |jobs| && Key(j) == Key(jobs[j.id])
  }

  ghost predicate InFlightGenuine(s: State, jobs: seq<Job>)
  {
    && (forall i :: 0 <= i < |s.feeder| ==> Genuine(jobs, s.feeder[i]))
    && (forall i :: 0 <= i < |s.tasks| ==> Genuine(jobs, s.tasks[i]))
    && (forall w :: 0 <= w < |s.workers| && s.workers[w].Fetching? ==> Genuine(jobs, s.workers[w].job))
    && (forall w :: 0 <= w < |s.workers| && s.workers[w].Resending? ==> Genuine(jobs, s.workers[w].job))
  }

  ghost predicate ResultsOk(s: State, jobs: seq<Job>)
  {
    && InFlightGenuine(s, jobs)
    && (forall id: nat :: s.finished[id] > 0 <==> id in s.priced || id in s.dropped)
    && (forall id :: id in s.priced ==> id < |jobs| && Key(jobs[id]) in s.result)
    && (forall k :: k in s.result ==> exists id :: id in s.priced && id < |jobs| && Key(jobs[id]) == k)
  }

  lemma GenuineFetch(s: State, jobs: seq<Job>, l: Label)
    requires InFlightGenuine(s, jobs) && Enabled(s, l) && l.Fetch?
    ensures InFlightGenuine(Apply(s, l), jobs)
  {
    AgainGenuine(jobs, s.workers[l.w].job);
    var t := Apply(s, l);
    assert t.workers == s.workers[l.w := t.workers[l.w]];
    hide Apply, Enabled, Genuine;
    SetWorkerGenuine(s, t, jobs, l.w);
  }

  lemma SetWorkerGenuine(s: State, t: State, jobs: seq<Job>, w: nat)
    requires InFlightGenuine(s, jobs) && w < |s.workers| == |t.workers|
    requires t.feeder == s.feeder && t.tasks == s.tasks && t.workers == s.workers[w := t.workers[w]]
    requires t.workers[w].Fetching? || t.workers[w].Resending? ==> Genuine(jobs, t.workers[w].job)
    ensures InFlightGenuine(t, jobs)
  {
    hide Genuine;
  }

  lemma AgainGenuine(jobs: seq<Job>, j: Job)
    ensures Genuine(jobs, j) <==> Genuine(jobs, j.(attempt := j.attempt + 1))
  {
  }

  lemma GenuineStep(s: State, jobs: seq<Job>, l: Label)
    requires InFlightGenuine(s, jobs) && Enabled(s, l)
    ensures InFlightGenuine(Apply(s, l), jobs)
  {
    if l.Fetch? {
      GenuineFetch(s, jobs, l);
    } else {
      hide Genuine, ShouldRetry, HasRoom;
    }
  }

  lemma PricedStep(s: State, jobs: seq<Job>, w: nat, usd: real)
    requires ResultsOk(s, jobs) && Enabled(s, Fetch(w, Price(usd)))
    ensures ResultsOk(Apply(s, Fetch(w, Price(usd))), jobs)
  {
    hide InFlightGenuine;
    GenuineStep(s, jobs, Fetch(w, Price(usd)));
    var t, job := Apply(s, Fetch(w, Price(usd))), s.workers[w].job;
    assert Genuine(jobs, job) by {
      HeldGenuine(s, jobs, w);
    }
    assert job.id in t.priced;
    forall k | k in t.result ensures exists id :: id in t.priced && id < |jobs| && Key(jobs[id]) == k {
      if k != Key(job) {
        assert k in s.result;
        var id :| id in s.priced && id < |jobs| && Key(jobs[id]) == k;
        assert id in t.priced;
      }
    }
  }

  lemma HeldGenuine(s: State, jobs: seq<Job>, w: nat)
    requires InFlightGenuine(s, jobs) && w < |s.workers| && s.workers[w].Fetching?
    ensures Genuine(jobs, s.workers[w].job)
  {
  }

  lemma ResultsStep(s: State, jobs: seq<Job>, l: Label)
    requires ResultsOk(s, jobs) && Enabled(s, l)
    ensures ResultsOk(Apply(s, l), jobs)
  {
    hide InFlightGenuine, Genuine;
    GenuineStep(s, jobs, l);
    if l.Fetch? && l.outcome.Price? {
      PricedStep(s, jobs, l.w, l.outcome.usd);
    }
  }

  lemma {:induction false} RunResults(s: State, jobs: seq<Job>, labels: seq<Label>, t: State)
    requires ResultsOk(s, jobs) && Run(s, labels, t)
    ensures ResultsOk(t, jobs)
    decreases |labels|
  {
    hide ResultsOk, Apply, Enabled;
    if labels != [] {
      ResultsStep(s, jobs, labels[0]);
      RunResults(Apply(s, labels[0]), jobs, labels[1..], t);
    }
  }

  /** When the workers are gone every job has ended with a price or with a warning, and the
      result has an entry for exactly the (region, instance) pairs of the priced ones. */
  lemma ResultIsComplete(jobs: seq<Job>, c: nat, labels: seq<Label>, t: State)
    requires Numbered(jobs) && c >= 1 && Reachable(jobs, c, labels, t) && Halted(t) && t.closed
    ensures forall id: nat :: id < |jobs| ==> id in t.priced || id in t.dropped
    ensures forall id :: id in t.priced ==> id < |jobs| && Key(jobs[id]) in t.result
    ensures forall k :: k in t.result ==> exists id :: id in t.priced && id < |jobs| && Key(jobs[id]) == k
  {
    RunResults(Start(jobs, c), jobs, labels, t);
    HowRunsEnd(jobs, c, labels, t);
  }

  // ---------------------------------------------------------------- outcomes and prices

  /** The outcomes of the fetches made for job `id` along a run, in order. */
  function Outcomes(s: State, labels: seq<Label>, id: nat): seq<Outcome>
    decreases |labels|
  {
    if labels == [] || !Enabled(s, labels[0]) then []
    else
      OutcomeNow(s, labels[0], id) + Outcomes(Apply(s, labels[0]), labels[1..], id)
  }

  function OutcomeNow(s: State, l: Label, id: nat): seq<Outcome>
    requires Enabled(s, l)
  {
    if l.Fetch? && s.workers[l.w].job.id == id then [l.outcome] else []
  }

  /** What becomes of a job that has had these outcomes: one that is not finished was throttled at
      most five times; it ends with a price, with an error that is not throttling, or with the sixth
      throttling; and it is never fetched again. */
  ghost predicate Settled(s: State, id: nat, os: seq<Outcome>)
  {
    && |os| <= 6 && (forall i :: 0 <= i < |os| - 1 ==> os[i].Throttled?)
    && (id in s.priced <==> os != [] && os[|os| - 1].Price?)
    && (id in s.dropped <==> os != [] && (os[|os| - 1].OtherError? || (os[|os| - 1].Throttled? && |os| == 6)))
    && (s.finished[id] > 0 <==> id in s.priced || id in s.dropped)
  }

  lemma SettledStep(s: State, n: nat, c: nat, l: Label, id: nat, os: seq<Outcome>)
    requires Inv(s, n, c) && Enabled(s, l) && Settled(s, id, os) && |os| == s.fetched[id]
    ensures var more := os + OutcomeNow(s, l, id);
            Settled(Apply(s, l), id, more) && |more| == Apply(s, l).fetched[id]
  {
    if l.Fetch? && s.workers[l.w].job.id == id {
      FetchedJob(s, n, c, l.w);
      hide Inv, Settled;
      OneMoreOutcome(s, l.w, l.outcome, os);
    } else {
      assert os + [] == os;
      hide Inv, Settled;
      OtherOutcome(s, l, id, os);
    }
  }

  lemma OneMoreOutcome(s: State, w: nat, outcome: Outcome, os: seq<Outcome>)
    requires Enabled(s, Fetch(w, outcome))
    requires var id := s.workers[w].job.id;
             && Settled(s, id, os) && s.finished[id] == 0
             && |os| == s.fetched[id] == s.workers[w].job.attempt <= MAX_ATTEMPTS
    ensures var t, id := Apply(s, Fetch(w, outcome)), s.workers[w].job.id;
            Settled(t, id, os + [outcome]) && |os + [outcome]| == t.fetched[id]
  {
    var id := s.workers[w].job.id;
    assert id !in s.priced && id !in s.dropped;
    assert os != [] ==> os[|os| - 1].Throttled?;
    hide Enabled;
  }

  lemma OtherOutcome(s: State, l: Label, id: nat, os: seq<Outcome>)
    requires Enabled(s, l) && Settled(s, id, os) && |os| == s.fetched[id]
    requires l.Fetch? ==> s.workers[l.w].job.id != id
    ensures Settled(Apply(s, l), id, os) && |os| == Apply(s, l).fetched[id]
  {
    hide ShouldRetry, HasRoom, IsWorker;
  }

  lemma FetchedJob(s: State, n: nat, c: nat, w: nat)
    requires Inv(s, n, c) && w < |s.workers| && s.workers[w].Fetching?
    ensures var job := s.workers[w].job;
            s.finished[job.id] == 0 && s.fetched[job.id] == job.attempt <= MAX_ATTEMPTS
  {
    hide CountIn, CountHeld, HeldBy;
    HeldAlone(s, n, c, w);
  }

  lemma {:induction false} RunSettles(s: State, n: nat, c: nat, labels: seq<Label>, t: State, id: nat, os: seq<Outcome>)
    requires Inv(s, n, c) && Run(s, labels, t) && Settled(s, id, os) && |os| == s.fetched[id]
    ensures Settled(t, id, os + Outcomes(s, labels, id))
    decreases |labels|
  {
    hide Inv, Settled, Apply, Enabled, OutcomeNow;
    if labels == [] {
      assert os + [] == os;
    } else {
      var now, rest := OutcomeNow(s, labels[0], id), Outcomes(Apply(s, labels[0]), labels[1..], id);
      InvStep(s, n, c, labels[0]);
      SettledStep(s, n, c, labels[0], id, os);
      RunSettles(Apply(s, labels[0]), n, c, labels[1..], t, id, os + now);
      assert (os + now) + rest == os + (now + rest);
    }
  }

  /** The whole story of every job in every run. */
  lemma JobStory(jobs: seq<Job>, c: nat, labels: seq<Label>, t: State, id: nat)
    requires Numbered(jobs) && Reachable(jobs, c, labels, t)
    ensures Settled(t, id, Outcomes(Start(jobs, c), labels, id))
  {
    hide Inv, Numbered, Run;
    StartInv(jobs, c);
    RunSettles(Start(jobs, c), |jobs|, c, labels, t, id, []);
    assert [] + Outcomes(Start(jobs, c), labels, id) == Outcomes(Start(jobs, c), labels, id);
  }

  /** The prices fetched along a run for one (region, instance) pair, in order. */
  function Prices(s: State, labels: seq<Label>, k: (string, string)): seq<real>
    decreases |labels|
  {
    if labels == [] || !Enabled(s, labels[0]) then []
    else PriceNow(s, labels[0], k) + Prices(Apply(s, labels[0]), labels[1..], k)
  }

  function PriceNow(s: State, l: Label, k: (string, string)): seq<real>
    requires Enabled(s, l)
  {
    if l.Fetch? && l.outcome.Price? && Key(s.workers[l.w].job) == k then [l.outcome.usd] else []
  }

  /** The result holds the last of these prices. */
  ghost predicate HoldsLast(s: State, k: (string, string), prices: seq<real>)
  {
    && (k in s.result <==> prices != [])
    && (prices != [] ==> s.result[k] == prices[|prices| - 1])
  }

  lemma HoldsLastStep(s: State, l: Label, k: (string, string), prices: seq<real>)
    requires Enabled(s, l) && HoldsLast(s, k, prices)
    ensures HoldsLast(Apply(s, l), k, prices + PriceNow(s, l, k))
  {
    assert prices + [] == prices;
    if l.Fetch? {
      FetchStores(s, l.w, l.outcome);
    } else {
      OnlyFetchStores(s, l);
    }
    hide ShouldRetry, HasRoom, Apply, Key;
  }

  lemma FetchStores(s: State, w: nat, outcome: Outcome)
    requires Enabled(s, Fetch(w, outcome))
    ensures Apply(s, Fetch(w, outcome)).result ==
      if outcome.Price? then s.result[Key(s.workers[w].job) := outcome.usd] else s.result
  {
  }

  lemma OnlyFetchStores(s: State, l: Label)
    requires Enabled(s, l) && !l.Fetch?
    ensures Apply(s, l).result == s.result
  {
  }

  lemma {:induction false} RunHoldsLast(s: State, labels: seq<Label>, t: State, k: (string, string), prices: seq<real>)
    requires Run(s, labels, t) && HoldsLast(s, k, prices)
    ensures HoldsLast(t, k, prices + Prices(s, labels, k))
    decreases |labels|
  {
    hide HoldsLast, Apply, Enabled, PriceNow;
    if labels == [] {
      assert prices + [] == prices;
    } else {
      var now, rest := PriceNow(s, labels[0], k), Prices(Apply(s, labels[0]), labels[1..], k);
      HoldsLastStep(s, labels[0], k, prices);
      RunHoldsLast(Apply(s, labels[0]), labels[1..], t, k, prices + now);
      assert (prices + now) + rest == prices + (now + rest);
    }
  }

  predicate DistinctPairs(jobs: seq<Job>)
  {
    forall i, j :: 0 <= i < j < |jobs| ==> Key(jobs[i]) != Key(jobs[j])
  }

  /** With distinct pairs, the prices fetched for the pair of a job are those fetched for the job. */
  lemma OneAtATime(s: State, jobs: seq<Job>, id: nat, l: Label)
    requires InFlightGenuine(s, jobs) && DistinctPairs(jobs) && id < |jobs| && Enabled(s, l)
    ensures PriceNow(s, l, Key(jobs[id])) == PricesAmong(OutcomeNow(s, l, id))
  {
    hide DistinctPairs, Key;
    if l.Fetch? {
      HeldGenuine(s, jobs, l.w);
      var job := s.workers[l.w].job;
      if job.id != id {
        assert Key(jobs[job.id]) != Key(jobs[id]) by { DifferentPairs(jobs, job.id, id); }
      }
      assert [l.outcome][1..] == [];
    }
  }

  lemma DifferentPairs(jobs: seq<Job>, i: nat, j: nat)
    requires DistinctPairs(jobs) && i < |jobs| && j < |jobs| && i != j
    ensures Key(jobs[i]) != Key(jobs[j])
  {
    if i < j {
      assert Key(jobs[i]) != Key(jobs[j]);
    } else {
      assert Key(jobs[j]) != Key(jobs[i]);
    }
  }

  function PricesAmong(os: seq<Outcome>): seq<real>
  {
    if os == [] then []
    else (if os[0].Price? then [os[0].usd] else []) + PricesAmong(os[1..])
  }

  lemma PricesAmongCons(o: Outcome, os: seq<Outcome>)
    ensures PricesAmong([o] + os) == (if o.Price? then [o.usd] else []) + PricesAmong(os)
  {
    assert ([o] + os)[1..] == os;
  }

  lemma HeadAndRest<T>(xs: seq<T>, ys: seq<T>)
    requires xs != []
    ensures [xs[0]] + xs[1..] == xs && [xs[0]] + (xs[1..] + ys) == xs + ys
  {
  }

  lemma Associates<T>(xs: seq<T>, ys: seq<T>, zs: seq<T>)
    ensures xs + (ys + zs) == (xs + ys) + zs
  {
  }

  lemma {:induction false} PricesAmongAppend(xs: seq<Outcome>, ys: seq<Outcome>)
    ensures PricesAmong(xs + ys) == PricesAmong(xs) + PricesAmong(ys)
  {
    if xs == [] {
      assert xs + ys == ys;
    } else {
      hide PricesAmong;
      var o, rest := xs[0], xs[1..];
      PricesAmongAppend(rest, ys);
      PricesAmongCons(o, rest);
      PricesAmongCons(o, rest + ys);
      HeadAndRest(xs, ys);
      Associates(if o.Price? then [o.usd] else [], PricesAmong(rest), PricesAmong(ys));
    }
  }

  lemma {:induction false} PricesOfJob(s: State, jobs: seq<Job>, id: nat, labels: seq<Label>)
    requires InFlightGenuine(s, jobs) && DistinctPairs(jobs) && id < |jobs|
    ensures Prices(s, labels, Key(jobs[id])) == PricesAmong(Outcomes(s, labels, id))
    decreases |labels|
  {
    hide InFlightGenuine, DistinctPairs, Apply, Enabled, PriceNow, OutcomeNow, PricesAmong;
    if labels == [] || !Enabled(s, labels[0]) {
      assert PricesAmong([]) == [] by { NoOutcomes(); }
    } else {
      var t := Apply(s, labels[0]);
      OneAtATime(s, jobs, id, labels[0]);
      GenuineStep(s, jobs, labels[0]);
      PricesOfJob(t, jobs, id, labels[1..]);
      PricesAmongAppend(OutcomeNow(s, labels[0], id), Outcomes(t, labels[1..], id));
    }
  }

  lemma NoOutcomes()
    ensures PricesAmong([]) == []
  {
  }

  lemma {:induction false} LastIsThePrice(os: seq<Outcome>)
    requires os != [] && os[|os| - 1].Price? && forall i :: 0 <= i < |os| - 1 ==> os[i].Throttled?
    ensures PricesAmong(os) == [os[|os| - 1].usd]
  {
    PricesAmongCons(os[0], os[1..]);
    assert [os[0]] + os[1..] == os;
    if |os| == 1 {
      NoOutcomes();
    } else {
      LastIsThePrice(os[1..]);
    }
  }

  /** The generated table, in every run: a pair is in it if and only if some price was fetched for
      it, and it holds the last one; when no pair is asked for twice, the pair of a job is in it if
      and only if the last fetch of the job gave a price, and that price is what it holds. */
  lemma ResultIsFetched(jobs: seq<Job>, c: nat, labels: seq<Label>, t: State, k: (string, string), id: nat)
    requires Numbered(jobs) && Reachable(jobs, c, labels, t) && id < |jobs|
    ensures var prices := Prices(Start(jobs, c), labels, k);
            && (k in t.result <==> prices != [])
            && (prices != [] ==> t.result[k] == prices[|prices| - 1])
    ensures DistinctPairs(jobs) ==>
      var os := Outcomes(Start(jobs, c), labels, id);
      && (Key(jobs[id]) in t.result ==> os != [] && os[|os| - 1] == Price(t.result[Key(jobs[id])]))
      && (os != [] && os[|os| - 1].Price? ==> Key(jobs[id]) in t.result)
  {
    var s := Start(jobs, c);
    hide Run, Prices, Outcomes, DistinctPairs, Numbered, Inv;
    RunHoldsLast(s, labels, t, k, []);
    assert [] + Prices(s, labels, k) == Prices(s, labels, k);
    if DistinctPairs(jobs) {
      PairOfJob(jobs, c, labels, t, id);
    }
  }

  lemma PairOfJob(jobs: seq<Job>, c: nat, labels: seq<Label>, t: State, id: nat)
    requires Numbered(jobs) && Reachable(jobs, c, labels, t) && id < |jobs| && DistinctPairs(jobs)
    ensures var os := Outcomes(Start(jobs, c), labels, id);
            && (Key(jobs[id]) in t.result ==> os != [] && os[|os| - 1] == Price(t.result[Key(jobs[id])]))
            && (os != [] && os[|os| - 1].Price? ==> Key(jobs[id]) in t.result)
  {
    var s, k := Start(jobs, c), Key(jobs[id]);
    var os, prices := Outcomes(s, labels, id), Prices(s, labels, k);
    assert InFlightGenuine(s, jobs);
    hide Run, Prices, Outcomes, DistinctPairs, Numbered, Inv, InFlightGenuine, Key;
    RunHoldsLast(s, labels, t, k, []);
    assert [] + prices == prices;
    PricesOfJob(s, jobs, id, labels);
    JobStory(jobs, c, labels, t, id);
    assert forall i :: 0 <= i < |os| - 1 ==> os[i].Throttled?;
    hide Settled, Start, PricesAmong;
    if os != [] && os[|os| - 1].Price? {
      LastIsThePrice(os);
    } else {
      NoPriceAmong(os);
    }
  }

  lemma {:induction false} NoPriceAmong(os: seq<Outcome>)
    requires forall i :: 0 <= i < |os| ==> !os[i].Price?
    ensures PricesAmong(os) == []
  {
    if os != [] {
      NoPriceAmong(os[1..]);
    }
  }

  // ---------------------------------------------------------------- termination

  /** An upper bound on the steps a job still causes after it is received. */
  function JobWork(j: Job): nat
    requires j.attempt <= MAX_ATTEMPTS
  {
    3 * (MAX_ATTEMPTS + 1 - j.attempt) + 1
  }

  function QueueWork(jobs: seq<Job>, hops: nat): nat
    requires forall i :: 0 <= i < |jobs| ==> jobs[i].attempt <= MAX_ATTEMPTS
  {
    if jobs == [] then 0 else QueueWork(jobs[..|jobs| - 1], hops) + JobWork(jobs[|jobs| - 1]) + hops
  }

  predicate WorkerOk(w: Worker)
  {
    w.Fetching? || w.Resending? ==> w.job.attempt <= MAX_ATTEMPTS
  }

  function WorkerWork(w: Worker): nat
    requires WorkerOk(w)
  {
    match w
    case Waiting => 1
    case Fetching(j) => 1 + JobWork(j)
    case Resending(j) => 1 + JobWork(j) + 2
    case Exited => 0
  }

  function WorkersWork(ws: seq<Worker>): nat
    requires forall w :: 0 <= w < |ws| ==> WorkerOk(ws[w])
  {
    if ws == [] then 0 else WorkersWork(ws[..|ws| - 1]) + WorkerWork(ws[|ws| - 1])
  }

  predicate AttemptsOk(s: State)
  {
    && (forall i :: 0 <= i < |s.feeder| ==> s.feeder[i].attempt <= MAX_ATTEMPTS)
    && (forall i :: 0 <= i < |s.tasks| ==> s.tasks[i].attempt <= MAX_ATTEMPTS)
    && (forall w :: 0 <= w < |s.workers| ==> WorkerOk(s.workers[w]))
  }

  function Work(s: State): nat
    requires AttemptsOk(s)
  {
    QueueWork(s.feeder, 2) + QueueWork(s.tasks, 1) + WorkersWork(s.workers) + if s.closed then 0 else 1
  }

  lemma {:induction false} QueueWorkTail(jobs: seq<Job>, hops: nat)
    requires jobs != [] && forall i :: 0 <= i < |jobs| ==> jobs[i].attempt <= MAX_ATTEMPTS
    ensures QueueWork(jobs, hops) == JobWork(jobs[0]) + hops + QueueWork(jobs[1..], hops)
  {
    if |jobs| > 1 {
      QueueWorkTail(jobs[..|jobs| - 1], hops);
      assert jobs[1..][..|jobs| - 2] == jobs[..|jobs| - 1][1..];
    } else {
      assert jobs[..0] == [] && jobs[1..] == [];
    }
  }

  lemma QueueWorkSnoc(jobs: seq<Job>, j: Job, hops: nat)
    requires j.attempt <= MAX_ATTEMPTS && forall i :: 0 <= i < |jobs| ==> jobs[i].attempt <= MAX_ATTEMPTS
    ensures QueueWork(jobs + [j], hops) == QueueWork(jobs, hops) + JobWork(j) + hops
  {
    assert (jobs + [j])[..|jobs|] == jobs;
  }

  lemma {:induction false} WorkersWorkUpdate(ws: seq<Worker>, w: nat, x: Worker)
    requires w < |ws| && WorkerOk(x) && forall v :: 0 <= v < |ws| ==> WorkerOk(ws[v])
    ensures WorkersWork(ws[w := x]) == WorkersWork(ws) - WorkerWork(ws[w]) + WorkerWork(x)
  {
    if w < |ws| - 1 {
      WorkersWorkUpdate(ws[..|ws| - 1], w, x);
      assert ws[w := x][..|ws| - 1] == ws[..|ws| - 1][w := x];
    } else {
      assert ws[w := x][..|ws| - 1] == ws[..|ws| - 1];
    }
  }

  lemma InvAttempts(s: State, n: nat, c: nat)
    requires Inv(s, n, c)
    ensures AttemptsOk(s)
  {
  }

  lemma WorkFetch(s: State, w: nat, outcome: Outcome)
    requires AttemptsOk(s) && Enabled(s, Fetch(w, outcome)) && AttemptsOk(Apply(s, Fetch(w, outcome)))
    ensures Work(Apply(s, Fetch(w, outcome))) < Work(s)
  {
    hide QueueWork, WorkersWork;
    WorkersWorkUpdate(s.workers, w, Apply(s, Fetch(w, outcome)).workers[w]);
  }

  /** Every step uses up work, so no run is longer than the work it starts with. */
  lemma WorkStep(s: State, l: Label)
    requires Enabled(s, l) && AttemptsOk(s) && AttemptsOk(Apply(s, l))
    ensures Work(Apply(s, l)) < Work(s)
  {
    hide QueueWork, WorkersWork;
    match l
    case Feed =>
      QueueWorkTail(s.feeder, 2);
      QueueWorkSnoc(s.tasks, s.feeder[0], 1);
    case Receive(w) =>
      QueueWorkTail(s.tasks, 1);
      WorkersWorkUpdate(s.workers, w, Fetching(s.tasks[0]));
    case SeeClosed(w) => WorkersWorkUpdate(s.workers, w, Exited);
    case Fetch(w, outcome) => WorkFetch(s, w, outcome);
    case Resend(w) =>
      QueueWorkSnoc(s.tasks, s.workers[w].job, 1);
      WorkersWorkUpdate(s.workers, w, Waiting);
    case Close =>
  }

  lemma {:induction false} RunWork(s: State, n: nat, c: nat, labels: seq<Label>, t: State)
    requires Inv(s, n, c) && Run(s, labels, t)
    ensures AttemptsOk(s) && AttemptsOk(t) && |labels| + Work(t) <= Work(s)
    decreases |labels|
  {
    hide Inv, Apply, Enabled, Work;
    InvAttempts(s, n, c);
    if labels != [] {
      InvStep(s, n, c, labels[0]);
      InvAttempts(Apply(s, labels[0]), n, c);
      WorkStep(s, labels[0]);
      RunWork(Apply(s, labels[0]), n, c, labels[1..], t);
    }
  }

  lemma {:induction false} StartWork(jobs: seq<Job>)
    requires forall i :: 0 <= i < |jobs| ==> jobs[i].attempt == 0
    ensures QueueWork(jobs, 2) == 21 * |jobs|
  {
    if jobs != [] {
      StartWork(jobs[..|jobs| - 1]);
    }
  }

  lemma {:induction false} IdleWork(ws: seq<Worker>)
    requires forall w :: 0 <= w < |ws| ==> ws[w].Waiting?
    ensures WorkersWork(ws) == |ws|
  {
    if ws != [] {
      IdleWork(ws[..|ws| - 1]);
    }
  }

  /** Every run of the pool is finite: at most 21 steps per job, one per worker, one close. */
  lemma PoolTerminates(jobs: seq<Job>, c: nat, labels: seq<Label>, t: State)
    requires Numbered(jobs) && Reachable(jobs, c, labels, t)
    ensures |labels| <= 21 * |jobs| + c + 1
  {
    StartInv(jobs, c);
    RunWork(Start(jobs, c), |jobs|, c, labels, t);
    StartWork(jobs);
    IdleWork(Start(jobs, c).workers);
  }

  // ---------------------------------------------------------------- how runs end

  /** No goroutine can move. */
  predicate Halted(s: State)
  {
    && !Enabled(s, Feed) && !Enabled(s, Close)
    && forall w :: 0 <= w < |s.workers| ==>
         !Enabled(s, Receive(w)) && !Enabled(s, SeeClosed(w)) && !Enabled(s, Resend(w)) && !s.workers[w].Fetching?
  }

  predicate AllExited(s: State)
  {
    forall w :: 0 <= w < |s.workers| ==> s.workers[w].Exited?
  }

  /** Every worker is blocked sending into the full channel. */
  predicate Deadlocked(s: State)
  {
    && s.workers != [] && !HasRoom(s)
    && forall w :: 0 <= w < |s.workers| ==> s.workers[w].Resending?
  }

  lemma HaltedClosed(s: State, n: nat, c: nat)
    requires Inv(s, n, c) && Halted(s) && s.closed
    ensures AllExited(s)
  {
    CountsAreFew(s);
    forall w | 0 <= w < |s.workers| ensures s.workers[w].Exited? {
      assert !Enabled(s, SeeClosed(w));
    }
  }

  lemma HaltedOpen(s: State, n: nat, c: nat)
    requires Inv(s, n, c) && c >= 1 && Halted(s) && !s.closed
    ensures Deadlocked(s) && s.pending >= 3 * c + 1
  {
    assert s.pending != 0;
    if w :| 0 <= w < c && s.workers[w].Waiting? {
      assert !Enabled(s, Receive(w));
      assert s.tasks == [] && HasRoom(s) && s.feeder == [];
      forall v | 0 <= v < c ensures Held(s.workers[v]) == [] {
        assert !Enabled(s, Resend(v));
      }
      NothingHeld(s.workers);
      assert false;
    }
    forall w | 0 <= w < c ensures s.workers[w].Resending? && !HasRoom(s) {
      assert !Enabled(s, Resend(w));
    }
    AllWorkersHold(s.workers);
    assert s.workers[0].Resending?;
  }

  lemma {:induction false} NothingHeld(ws: seq<Worker>)
    requires forall w :: 0 <= w < |ws| ==> Held(ws[w]) == []
    ensures HeldBy(ws) == 0
  {
    if ws != [] {
      NothingHeld(ws[..|ws| - 1]);
    }
  }

  /** A run that cannot go on has either finished every job exactly once, with all workers gone,
      or is a deadlock that holds at least 3c + 1 unfinished jobs. */
  lemma HowRunsEnd(jobs: seq<Job>, c: nat, labels: seq<Label>, t: State)
    requires Numbered(jobs) && c >= 1 && Reachable(jobs, c, labels, t) && Halted(t)
    ensures t.closed ==> AllExited(t) && forall id: nat :: id < |jobs| ==> t.finished[id] == 1
    ensures !t.closed ==> Deadlocked(t) && 3 * c + 1 <= t.pending <= |jobs|
  {
    StartInv(jobs, c);
    RunInv(Start(jobs, c), |jobs|, c, labels, t);
    if t.closed {
      HaltedClosed(t, |jobs|, c);
      CountsAreFew(t);
      forall id: nat | id < |jobs| ensures t.finished[id] == 1 {
        NobodyHolds(t.workers, id);
        assert CountLive(t, id) + t.finished[id] == 1;
      }
    } else {
      HaltedOpen(t, |jobs|, c);
    }
  }

  lemma {:induction false} NobodyHolds(ws: seq<Worker>, id: nat)
    requires forall w :: 0 <= w < |ws| ==> !ws[w].Fetching? && !ws[w].Resending?
    ensures CountHeld(ws, id) == 0
  {
    if ws != [] {
      NobodyHolds(ws[..|ws| - 1], id);
    }
  }

  // ---------------------------------------------------------------- the deadlock is real

  lemma {:induction false} RunSnoc(s: State, labels: seq<Label>, m: State, l: Label)
    requires Run(s, labels, m) && Enabled(m, l)
    ensures Run(s, labels + [l], Apply(m, l))
    decreases |labels|
  {
    hide Apply, Enabled;
    if labels == [] {
      assert [] + [l] == [l] && [l][1..] == [];
      assert Run(Apply(m, l), [], Apply(m, l));
    } else {
      RunSnoc(Apply(s, labels[0]), labels[1..], m, l);
      assert (labels + [l])[1..] == labels[1..] + [l];
    }
  }

  function Again(j: Job): Job
  {
    j.(attempt := j.attempt + 1)
  }

  function FirstIds(i: nat): multiset<nat>
  {
    if i == 0 then multiset{} else FirstIds(i - 1) + multiset{i - 1}
  }

  /** The first `i` workers hold a job each. */
  function Filling(jobs: seq<Job>, c: nat, i: nat): State
    requires i <= c <= |jobs|
  {
    State(jobs[i..], [], false, seq(c, w requires 0 <= w < c => if w < i then Fetching(jobs[w]) else Waiting),
          |jobs|, map[], multiset{}, multiset{}, {}, {})
  }

  /** The first `i` workers have been throttled. */
  function Throttling(jobs: seq<Job>, c: nat, i: nat): State
    requires i <= c <= |jobs|
  {
    State(jobs[c..], [], false,
          seq(c, w requires 0 <= w < c => if w < i then Resending(Again(jobs[w])) else Fetching(jobs[w])),
          |jobs|, map[], multiset{}, FirstIds(i), {}, {})
  }

  /** The feeder has put `k` more jobs into the channel. */
  function Clogging(jobs: seq<Job>, c: nat, k: nat): State
    requires c + k <= |jobs|
  {
    State(jobs[c + k..], jobs[c..c + k], false, seq(c, w requires 0 <= w < c => Resending(Again(jobs[w]))),
          |jobs|, map[], multiset{}, FirstIds(c), {}, {})
  }

  lemma {:induction false} ReachFilling(jobs: seq<Job>, c: nat, i: nat) returns (labels: seq<Label>)
    requires Numbered(jobs) && i <= c <= |jobs|
    ensures Run(Start(jobs, c), labels, Filling(jobs, c, i))
  {
    if i == 0 {
      labels := [];
      assert jobs[0..] == jobs;
      assert Start(jobs, c).workers == Filling(jobs, c, 0).workers;
    } else {
      var before := ReachFilling(jobs, c, i - 1);
      var s := Filling(jobs, c, i - 1);
      var s1 := Apply(s, Feed);
      assert s.feeder[0] == jobs[i - 1] && s.feeder[1..] == jobs[i..];
      RunSnoc(Start(jobs, c), before, s, Feed);
      assert s1.tasks == [jobs[i - 1]];
      RunSnoc(Start(jobs, c), before + [Feed], s1, Receive(i - 1));
      assert s1.workers[i - 1 := Fetching(jobs[i - 1])] == Filling(jobs, c, i).workers;
      assert Apply(s1, Receive(i - 1)) == Filling(jobs, c, i);
      labels := (before + [Feed]) + [Receive(i - 1)];
    }
  }

  lemma {:induction false} ReachThrottling(jobs: seq<Job>, c: nat, i: nat) returns (labels: seq<Label>)
    requires Numbered(jobs) && i <= c <= |jobs|
    ensures Run(Start(jobs, c), labels, Throttling(jobs, c, i))
  {
    hide Run, Apply, Enabled;
    if i == 0 {
      labels := ReachFilling(jobs, c, c);
      assert Filling(jobs, c, c).workers == Throttling(jobs, c, 0).workers;
    } else {
      var before := ReachThrottling(jobs, c, i - 1);
      var s := Throttling(jobs, c, i - 1);
      var l := Fetch(i - 1, Throttled);
      ThrottleStep(jobs, c, i);
      RunSnoc(Start(jobs, c), before, s, l);
      labels := before + [l];
    }
  }

  lemma ThrottleStep(jobs: seq<Job>, c: nat, i: nat)
    requires Numbered(jobs) && 0 < i <= c <= |jobs|
    ensures var s := Throttling(jobs, c, i - 1);
            var l := Fetch(i - 1, Throttled);
            Enabled(s, l) && Apply(s, l) == Throttling(jobs, c, i)
  {
    var s := Throttling(jobs, c, i - 1);
    assert s.workers[i - 1] == Fetching(jobs[i - 1]);
    assert s.workers[i - 1 := Resending(Again(jobs[i - 1]))] == Throttling(jobs, c, i).workers;
  }

  lemma {:induction false} ReachClogging(jobs: seq<Job>, c: nat, k: nat) returns (labels: seq<Label>)
    requires Numbered(jobs) && c + k <= |jobs| && k <= Capacity(c)
    ensures Run(Start(jobs, c), labels, Clogging(jobs, c, k))
  {
    if k == 0 {
      labels := ReachThrottling(jobs, c, c);
      assert Throttling(jobs, c, c).workers == Clogging(jobs, c, 0).workers;
      assert jobs[c..c] == [];
    } else {
      var before := ReachClogging(jobs, c, k - 1);
      var s := Clogging(jobs, c, k - 1);
      RunSnoc(Start(jobs, c), before, s, Feed);
      assert s.feeder[0] == jobs[c + k - 1] && s.feeder[1..] == jobs[c + k..];
      assert jobs[c..c + k - 1] + [jobs[c + k - 1]] == jobs[c..c + k];
      assert Apply(s, Feed) == Clogging(jobs, c, k);
      labels := before + [Feed];
    }
  }

  /** With more than 3c jobs, throttling can block the whole pool for good. */
  lemma DeadlockReachable(jobs: seq<Job>, c: nat) returns (labels: seq<Label>, t: State)
    requires Numbered(jobs) && c >= 1 && |jobs| >= 3 * c + 1
    ensures Reachable(jobs, c, labels, t) && Halted(t) && Deadlocked(t)
  {
    t := Clogging(jobs, c, Capacity(c));
    labels := ReachClogging(jobs, c, Capacity(c));
    assert t.workers[0].Resending?;
  }

  ghost predicate CanDeadlock(jobs: seq<Job>, c: nat)
  {
    exists labels, t :: Reachable(jobs, c, labels, t) && Halted(t) && !AllExited(t)
  }

  /** The pool can get stuck exactly when there are more than three jobs per worker.  (The code
      promises to resolve every job; with the default of eight workers it may hang from 25 jobs
      on.) */
  lemma DeadlockIff(jobs: seq<Job>, c: nat)
    requires Numbered(jobs) && c >= 1
    ensures CanDeadlock(jobs, c) <==> |jobs| >= 3 * c + 1
  {
    hide Halted, Reachable, Numbered;
    if |jobs| >= 3 * c + 1 {
      var labels, t := DeadlockReachable(jobs, c);
      assert t.workers[0].Resending? && !AllExited(t);
    }
    if CanDeadlock(jobs, c) {
      var labels, t :| Reachable(jobs, c, labels, t) && Halted(t) && !AllExited(t);
      HowRunsEnd(jobs, c, labels, t);
    }
  }

  /** In terms of the command line: `concurrency` workers asked for, `n` jobs. */
  lemma DeadlockFreeSettings(jobs: seq<Job>, concurrency: int)
    requires Numbered(jobs)
    ensures CanDeadlock(jobs, Level(concurrency, |jobs|)) <==> |jobs| > 3 * (if concurrency <= 0 then 1 else concurrency)
  {
    DeadlockIff(jobs, Level(concurrency, |jobs|));
  }
}
