/**
 * The dashboard's job queue (runner/webrunner/webrunner.go, web/web.go): one worker running jobs one at
 * a time, a watchdog that stops stalled runs, a pause window, retry jobs for searches that came back
 * empty, and the operator's rerun of a finished job.
 *
 * One step is one locked region or one database update; the watchdog's read of the running job and its
 * mark are two, and so are a rerun's read of its job and its write. Database updates may fail. Job ids
 * are positions in `jobs`.
 */
module JobQueue {
  import opened Common

  const MAX_STALL_RETRIES := 2

  datatype Status = Pending | Working | OK | Failed

  /**
   * `stallRequeues`, `reruns` and `retries` count how often the job went back in the queue after a stall,
   * was put back by the operator, and led to a retry job.
   */
  datatype Job = Job(status: Status, isRetry: bool, retryOf: Option<nat>, stallRequeues: nat, reruns: nat, retries: nat)

  /**
   * Where the worker is: the status it holds in memory may differ from the database's, and a job it could
   * not mark as working has not run.
   */
  datatype Worker =
    | Idle
    | Running(id: nat)
    | RunEnded(id: nat, status: Status, ran: bool)
    | NotPaused(id: nat, status: Status, ran: bool)

  // ---------------------------------------------------------------------------------------------
  // The shared marks
  // ---------------------------------------------------------------------------------------------

  datatype Marks = Marks(stalled: set<nat>, paused: set<nat>, attempts: map<nat, nat>)

  function Attempts(m: Marks, id: nat): nat {
    if id in m.attempts then m.attempts[id] else 0
  }

  function TakePaused(m: Marks, id: nat): Marks {
    m.(paused := m.paused - {id})
  }

  /** A taken stall mark counts as one more attempt. */
  function TakeStalled(m: Marks, id: nat): Marks {
    if id in m.stalled
    then m.(stalled := m.stalled - {id}, attempts := m.attempts[id := Attempts(m, id) + 1])
    else m
  }

  class Webrunner {
    var currentID: Option<nat>
    var stalled: set<nat>
    var paused: set<nat>
    var attempts: map<nat, nat>

    constructor ()
      ensures View() == Marks({}, {}, map[]) && currentID == None
    {
      currentID, stalled, paused, attempts := None, {}, {}, map[];
    }

    function View(): Marks
      reads this
    {
      Marks(stalled, paused, attempts)
    }

    /** The watchdog's mark: whatever was running when it looked. */
    method MarkStalled(id: nat)
      modifies this`stalled
      ensures View() == old(View()).(stalled := old(stalled) + {id})
    {
      stalled := stalled + {id};
    }

    /** The pause window opening on the running job, once per run. */
    method MarkPaused() returns (cancelled: bool)
      modifies this`paused
      ensures cancelled <==> currentID.Some? && currentID.value !in old(paused)
      ensures View() == old(View()).(paused := if cancelled then old(paused) + {currentID.value} else old(paused))
    {
      cancelled := currentID.Some? && currentID.value !in paused;
      if cancelled {
        paused := paused + {currentID.value};
      }
    }

    /** afterJob's marks: a pause wins and leaves any stall mark where it is. */
    method AfterJob(id: nat) returns (wasPaused: bool, wasStalled: bool, tries: nat)
      modifies this`stalled, this`paused, this`attempts
      ensures wasPaused <==> id in old(paused)
      ensures wasPaused ==> View() == TakePaused(old(View()), id) && !wasStalled
      ensures !wasPaused ==> View() == TakeStalled(TakePaused(old(View()), id), id) && (wasStalled <==> id in old(stalled))
      ensures !wasPaused ==> tries == Attempts(View(), id)
    {
      wasPaused, wasStalled, tries := id in paused, false, 0;
      paused := paused - {id};
      if wasPaused {
        return;
      }
      wasStalled := id in stalled;
      stalled := stalled - {id};
      if wasStalled {
        attempts := attempts[id := (if id in attempts then attempts[id] else 0) + 1];
      }
      tries := if id in attempts then attempts[id] else 0;
    }
  }

  // ---------------------------------------------------------------------------------------------
  // Interleavings
  // ---------------------------------------------------------------------------------------------

  /**
   * `rerunning` holds the jobs whose rerun has been let through but not written yet; `runs`, `enqueued`,
   * `reruns`, `pauses` and `watchdogMarks` count what has happened so far.
   */
  datatype State = State(
    jobs: seq<Job>, marks: Marks, worker: Worker, current: Option<nat>, watching: Option<nat>, rerunning: multiset<nat>,
    runs: nat, enqueued: nat, reruns: nat, pauses: nat, watchdogMarks: nat)

  datatype Event =
    | Enqueue(isRetry: bool)
    | StartRun(id: nat)
    | StartFails(id: nat)
    | SetCurrent
    | EndRun(status: Status, saved: bool)
    | WatchdogLooks
    | WatchdogMarks
    | PauseMarks
    | AfterPaused(saved: bool)
    | AfterStalled(saved: bool, someEmpty: bool)
    | RerunReads(id: nat)
    | RerunWrites(id: nat, saved: bool)

  function SetStatus(jobs: seq<Job>, id: nat, status: Status): seq<Job>
    requires id < |jobs|
  {
    jobs[id := jobs[id].(status := status)]
  }

  /** What afterJob does to the jobs when the run was not stopped for the pause window. */
  function Settle(jobs: seq<Job>, marks: Marks, id: nat, status: Status, saved: bool, someEmpty: bool): seq<Job>
    requires id < |jobs|
  {
    if !saved then jobs
    else if id in marks.stalled then
      if Attempts(marks, id) < MAX_STALL_RETRIES
      then jobs[id := jobs[id].(status := Pending, stallRequeues := jobs[id].stallRequeues + 1)]
      else SetStatus(jobs, id, Failed)
    else if status.OK? && !jobs[id].isRetry && someEmpty then
      jobs[id := jobs[id].(retries := jobs[id].retries + 1)] + [Job(Pending, true, Some(id), 0, 0, 0)]
    else jobs
  }

  predicate Enabled(s: State, e: Event) {
    match e
    case StartRun(id) => s.worker.Idle? && id < |s.jobs| && s.jobs[id].status.Pending?
    case StartFails(id) => s.worker.Idle? && id < |s.jobs| && s.jobs[id].status.Pending?
    case SetCurrent => s.worker.Running?
    case EndRun(status, _) => s.worker.Running? && s.worker.id < |s.jobs| && !status.Pending?
    case WatchdogMarks => s.watching.Some?
    case PauseMarks => s.current.Some? && s.current.value !in s.marks.paused
    case AfterPaused(_) => s.worker.RunEnded? && s.worker.id < |s.jobs|
    case AfterStalled(_, _) => s.worker.NotPaused? && s.worker.id < |s.jobs|
    case RerunReads(id) => id < |s.jobs| && !s.jobs[id].status.Pending? && !s.jobs[id].status.Working?
    case RerunWrites(id, _) => id in s.rerunning && id < |s.jobs|
    case _ => true
  }

  function Next(s: State, e: Event): State
    requires Enabled(s, e)
  {
    match e
    case Enqueue(isRetry) =>
      s.(jobs := s.jobs + [Job(Pending, isRetry, None, 0, 0, 0)], enqueued := s.enqueued + 1)
    case StartRun(id) =>
      s.(jobs := SetStatus(s.jobs, id, Working), worker := Running(id), runs := s.runs + 1)
    case StartFails(id) =>
      s.(worker := RunEnded(id, Working, false))
    case SetCurrent =>
      s.(current := Some(s.worker.id))
    case EndRun(status, saved) =>
      s.(jobs := if saved then SetStatus(s.jobs, s.worker.id, status) else s.jobs,
         worker := RunEnded(s.worker.id, status, true), current := None)
    case WatchdogLooks =>
      s.(watching := s.current)
    case WatchdogMarks =>
      s.(marks := s.marks.(stalled := s.marks.stalled + {s.watching.value}), watching := None,
         watchdogMarks := s.watchdogMarks + 1)
    case PauseMarks =>
      s.(marks := s.marks.(paused := s.marks.paused + {s.current.value}), pauses := s.pauses + 1)
    case AfterPaused(saved) =>
      if s.worker.id in s.marks.paused
      then s.(marks := TakePaused(s.marks, s.worker.id), worker := Idle,
              jobs := if saved then SetStatus(s.jobs, s.worker.id, Pending) else s.jobs)
      else s.(worker := NotPaused(s.worker.id, s.worker.status, s.worker.ran))
    case AfterStalled(saved, someEmpty) =>
      s.(marks := TakeStalled(s.marks, s.worker.id), worker := Idle,
         jobs := Settle(s.jobs, s.marks, s.worker.id, s.worker.status, saved, someEmpty))
    case RerunReads(id) =>
      s.(rerunning := s.rerunning + multiset{id})
    case RerunWrites(id, saved) =>
      var t := s.(rerunning := s.rerunning - multiset{id});
      if saved
      then t.(jobs := s.jobs[id := s.jobs[id].(status := Pending, reruns := s.jobs[id].reruns + 1)], reruns := s.reruns + 1)
      else t
  }

  predicate Step(s: State, e: Event, t: State) {
    Enabled(s, e) && t == Next(s, e)
  }

  /** A job nothing has happened to yet in this process. */
  predicate Untouched(job: Job) {
    job.retryOf == None && job.stallRequeues == job.reruns == job.retries == 0
  }

  /** After a start: nothing is marked, and jobs may be in any state. */
  ghost predicate Init(s: State) {
    && s.marks == Marks({}, {}, map[]) && s.worker == Idle && s.current == None && s.watching == None
    && s.rerunning == multiset{}
    && s.runs == s.reruns == s.pauses == s.watchdogMarks == 0 && s.enqueued == |s.jobs|
    && (forall i :: 0 <= i < |s.jobs| ==> Untouched(s.jobs[i]))
  }

  // ---------------------------------------------------------------------------------------------
  // How many runs a queue still has in it
  // ---------------------------------------------------------------------------------------------

  /** The worker has a run of the job in hand. */
  predicate InHand(w: Worker, id: nat) {
    !w.Idle? && w.id == id && (w.Running? || w.ran)
  }

  function StallsLeft(m: Marks, id: nat): nat {
    if Attempts(m, id) >= MAX_STALL_RETRIES then 0 else MAX_STALL_RETRIES - Attempts(m, id)
  }

  /** The runs a job's retry job would take. */
  function RetryRuns(job: Job): nat {
    if job.isRetry then 0 else 1 + MAX_STALL_RETRIES
  }

  /**
   * The runs one job can still lead to, its retry job's included, if no pause opens and nobody reruns it:
   * one when it is in the queue, one for each stall it has left, and its retry job's.
   */
  function RunsLeft(s: State, id: nat): nat
    requires id < |s.jobs|
  {
    StallsLeft(s.marks, id)
    + (if s.jobs[id].status.Pending? then 1 + RetryRuns(s.jobs[id]) else 0)
    + (if InHand(s.worker, id) then RetryRuns(s.jobs[id]) else 0)
  }

  function TotalLeft(s: State, n: nat): nat
    requires n <= |s.jobs|
  {
    if n == 0 then 0 else TotalLeft(s, n - 1) + RunsLeft(s, n - 1)
  }

  /** Every job enqueued is worth six runs, every rerun four, and every pause one. */
  function Worth(s: State): nat {
    6 * s.enqueued + 4 * s.reruns + s.pauses
  }

  ghost predicate Bounded(s: State) {
    s.runs + TotalLeft(s, |s.jobs|) + |s.marks.paused| <= Worth(s)
  }

  // ---------------------------------------------------------------------------------------------
  // The invariant
  // ---------------------------------------------------------------------------------------------

  ghost predicate IdsExist(s: State) {
    && (!s.worker.Idle? ==> s.worker.id < |s.jobs|)
    && (s.current.Some? ==> s.current.value < |s.jobs|)
    && (s.watching.Some? ==> s.watching.value < |s.jobs|)
    && (forall id :: id in s.marks.stalled || id in s.marks.paused || id in s.marks.attempts ==> id < |s.jobs|)
  }

  /** A job whose start failed is still in the queue, and told as working in memory only. */
  ghost predicate NotRunIsQueued(s: State) {
    (s.worker.RunEnded? || s.worker.NotPaused?) && !s.worker.ran && s.worker.id < |s.jobs| ==>
      s.jobs[s.worker.id].status.Pending? && s.worker.status.Working?
  }

  /** Every time a job went back in the queue for a stall took an attempt, and there are two. */
  ghost predicate StallsCounted(jobs: seq<Job>, marks: Marks) {
    forall i :: 0 <= i < |jobs| ==> jobs[i].stallRequeues <= Attempts(marks, i) && jobs[i].stallRequeues <= MAX_STALL_RETRIES
  }

  /** Every attempt taken, and every mark standing, is a mark the watchdog made. */
  ghost predicate AttemptsCounted(marks: Marks, watchdogMarks: nat) {
    forall i: nat :: Attempts(marks, i) + (if i in marks.stalled then 1 else 0) <= watchdogMarks
  }

  /** Retry jobs made, and the one its queued or current run may still make: one, and one more a rerun. */
  function RetriesDue(s: State, i: nat): nat
    requires i < |s.jobs|
  {
    s.jobs[i].retries + (if s.jobs[i].status.Pending? then 1 else 0) + (if InHand(s.worker, i) then 1 else 0)
  }

  ghost predicate RetriesBounded(s: State) {
    forall i :: 0 <= i < |s.jobs| ==>
      if s.jobs[i].isRetry then s.jobs[i].retries == 0 else RetriesDue(s, i) <= 1 + s.jobs[i].reruns
  }

  ghost predicate Sane(s: State) {
    IdsExist(s) && NotRunIsQueued(s)
  }

  lemma SaneKept(s: State, e: Event, t: State)
    requires Sane(s) && Step(s, e, t)
    ensures Sane(t)
  {
  }

  lemma StallsKept(s: State, e: Event, t: State)
    requires IdsExist(s) && StallsCounted(s.jobs, s.marks) && Step(s, e, t)
    ensures StallsCounted(t.jobs, t.marks)
  {
  }

  lemma AttemptsKept(s: State, e: Event, t: State)
    requires AttemptsCounted(s.marks, s.watchdogMarks) && Step(s, e, t)
    ensures AttemptsCounted(t.marks, t.watchdogMarks)
  {
  }

  lemma RetriesKept(s: State, e: Event, t: State)
    requires Sane(s) && RetriesBounded(s) && Step(s, e, t)
    ensures RetriesBounded(t)
  {
    if e.AfterStalled? {
      SettlingKeepsRetries(s, e, t);
    } else {
      OthersKeepRetries(s, e, t);
    }
  }

  lemma SettlingKeepsRetries(s: State, e: Event, t: State)
    requires Sane(s) && RetriesBounded(s) && Step(s, e, t) && e.AfterStalled?
    ensures RetriesBounded(t)
  {
  }

  lemma OthersKeepRetries(s: State, e: Event, t: State)
    requires Sane(s) && RetriesBounded(s) && Step(s, e, t) && !e.AfterStalled?
    ensures RetriesBounded(t)
  {
  }

  /** How many of the first n jobs are retries of this one. */
  function RetriesOf(jobs: seq<Job>, n: nat, id: nat): nat
    requires n <= |jobs|
  {
    if n == 0 then 0 else RetriesOf(jobs, n - 1, id) + if jobs[n - 1].retryOf == Some(id) then 1 else 0
  }

  ghost predicate RetriesCounted(jobs: seq<Job>) {
    && (forall i :: 0 <= i < |jobs| ==> RetriesOf(jobs, |jobs|, i) == jobs[i].retries)
    && (forall k :: 0 <= k < |jobs| && jobs[k].retryOf.Some? ==> jobs[k].isRetry && jobs[k].retryOf.value < |jobs|)
  }

  lemma {:induction false} SameRetries(jobs: seq<Job>, later: seq<Job>, n: nat, id: nat)
    requires n <= |jobs| && n <= |later|
    requires forall k :: 0 <= k < n ==> later[k].retryOf == jobs[k].retryOf
    ensures RetriesOf(later, n, id) == RetriesOf(jobs, n, id)
  {
    if n > 0 {
      SameRetries(jobs, later, n - 1, id);
    }
  }

  lemma {:induction false} NoRetriesOfNew(jobs: seq<Job>, n: nat, id: nat)
    requires n <= |jobs| && forall k :: 0 <= k < n && jobs[k].retryOf.Some? ==> jobs[k].retryOf.value < id
    ensures RetriesOf(jobs, n, id) == 0
  {
    if n > 0 {
      NoRetriesOfNew(jobs, n - 1, id);
    }
  }

  /** A new job has no retries, and is one itself when it has an origin. */
  predicate Made(job: Job, n: nat) {
    job.retries == 0 && (job.retryOf.Some? ==> job.isRetry && job.retryOf.value < n)
  }

  /** What a step can do to the lists of jobs and their retries. */
  lemma RetriesMove(s: State, e: Event, t: State)
    requires IdsExist(s) && Step(s, e, t)
    ensures |s.jobs| <= |t.jobs| <= |s.jobs| + 1
    ensures forall k :: 0 <= k < |s.jobs| ==> t.jobs[k].retryOf == s.jobs[k].retryOf && t.jobs[k].isRetry == s.jobs[k].isRetry
    ensures |t.jobs| > |s.jobs| ==> Made(t.jobs[|s.jobs|], |s.jobs|)
    ensures forall k :: 0 <= k < |s.jobs| ==>
      t.jobs[k].retries == s.jobs[k].retries + if |t.jobs| > |s.jobs| && t.jobs[|s.jobs|].retryOf == Some(k) then 1 else 0
  {
  }

  lemma RetriesCountedKept(s: State, e: Event, t: State)
    requires IdsExist(s) && RetriesCounted(s.jobs) && Step(s, e, t)
    ensures RetriesCounted(t.jobs)
  {
    RetriesMove(s, e, t);
    var n := |s.jobs|;
    forall i | 0 <= i < |t.jobs| ensures RetriesOf(t.jobs, |t.jobs|, i) == t.jobs[i].retries {
      SameRetries(s.jobs, t.jobs, n, i);
      OneMoreRetry(t.jobs, n, i);
      if i == n {
        NoRetriesOfNew(s.jobs, n, n);
      }
    }
  }

  lemma OneMoreRetry(jobs: seq<Job>, n: nat, id: nat)
    requires n <= |jobs| <= n + 1
    ensures RetriesOf(jobs, |jobs|, id) == RetriesOf(jobs, n, id) + if |jobs| > n && jobs[n].retryOf == Some(id) then 1 else 0
  {
  }

  /** Only the job `id` may differ between the two states. */
  lemma {:induction false} TotalMoves(s: State, t: State, n: nat, id: nat)
    requires n <= |s.jobs| && n <= |t.jobs| && id < |s.jobs| && id < |t.jobs|
    requires forall k :: 0 <= k < n && k != id ==> RunsLeft(t, k) == RunsLeft(s, k)
    ensures TotalLeft(t, n) == TotalLeft(s, n) + if id < n then RunsLeft(t, id) - RunsLeft(s, id) else 0
  {
    if n > 0 {
      TotalMoves(s, t, n - 1, id);
    }
  }

  /** The job a step is about. */
  function Subject(s: State, e: Event): nat {
    match e
    case StartRun(id) => id
    case StartFails(id) => id
    case RerunReads(id) => id
    case RerunWrites(id, _) => id
    case _ => if s.worker.Idle? then 0 else s.worker.id
  }

  /** A step that adds no job moves only its subject's count. */
  lemma OthersStay(s: State, e: Event, t: State)
    requires IdsExist(s) && Step(s, e, t)
    ensures |s.jobs| <= |t.jobs| <= |s.jobs| + 1
    ensures forall k :: 0 <= k < |s.jobs| && k != Subject(s, e) ==> RunsLeft(t, k) == RunsLeft(s, k)
  {
  }

  /** What a step adds to the runs made and still to be made, its subject's and a new job's. */
  ghost predicate Paid(s: State, i: nat, t: State) {
    && i < |s.jobs| <= |t.jobs|
    && t.runs + RunsLeft(t, i) + |t.marks.paused| + (if |t.jobs| > |s.jobs| then RunsLeft(t, |s.jobs|) else 0)
       <= s.runs + RunsLeft(s, i) + |s.marks.paused| + (Worth(t) - Worth(s))
  }

  /** Settling a run adds nothing to the runs made and left: a stall and a retry are both paid for. */
  lemma SettlingPays(s: State, e: Event, t: State)
    requires Sane(s) && Step(s, e, t) && e.AfterStalled?
    ensures Paid(s, s.worker.id, t)
  {
  }

  lemma SubjectPays(s: State, e: Event, t: State)
    requires Sane(s) && Step(s, e, t) && !e.AfterStalled? && Subject(s, e) < |s.jobs|
    ensures Paid(s, Subject(s, e), t)
  {
  }

  lemma BoundKept(s: State, e: Event, t: State)
    requires Sane(s) && Bounded(s) && Step(s, e, t)
    ensures Bounded(t)
  {
    OthersStay(s, e, t);
    var n, i := |s.jobs|, Subject(s, e);
    if i < n {
      TotalMoves(s, t, n, i);
      if e.AfterStalled? {
        SettlingPays(s, e, t);
      } else {
        SubjectPays(s, e, t);
      }
    } else {
      assert n == 0;
    }
  }

  // ---------------------------------------------------------------------------------------------
  // Whole runs of the process
  // ---------------------------------------------------------------------------------------------

  ghost predicate Run(states: seq<State>, events: seq<Event>) {
    && |states| == |events| + 1
    && Init(states[0])
    && forall i :: 0 <= i < |events| ==> Step(states[i], events[i], states[i + 1])
  }

  lemma {:induction false} InitBounded(s: State, n: nat)
    requires Init(s) && n <= |s.jobs|
    ensures TotalLeft(s, n) <= 6 * n
  {
    if n > 0 {
      InitBounded(s, n - 1);
    }
  }

  lemma {:induction false} InitRetries(jobs: seq<Job>, n: nat, id: nat)
    requires n <= |jobs| && forall k :: 0 <= k < |jobs| ==> Untouched(jobs[k])
    ensures RetriesOf(jobs, n, id) == 0
  {
    if n > 0 {
      InitRetries(jobs, n - 1, id);
    }
  }

  lemma {:induction false} RunSane(states: seq<State>, events: seq<Event>, i: nat)
    requires Run(states, events) && i < |states|
    ensures Sane(states[i])
  {
    if i > 0 {
      RunSane(states, events, i - 1);
      SaneKept(states[i - 1], events[i - 1], states[i]);
    }
  }

  lemma {:induction false} RunStalls(states: seq<State>, events: seq<Event>, i: nat)
    requires Run(states, events) && i < |states|
    ensures StallsCounted(states[i].jobs, states[i].marks)
    ensures AttemptsCounted(states[i].marks, states[i].watchdogMarks)
  {
    if i > 0 {
      RunStalls(states, events, i - 1);
      RunSane(states, events, i - 1);
      StallsKept(states[i - 1], events[i - 1], states[i]);
      AttemptsKept(states[i - 1], events[i - 1], states[i]);
    }
  }

  lemma {:induction false} RunRetries(states: seq<State>, events: seq<Event>, i: nat)
    requires Run(states, events) && i < |states|
    ensures RetriesBounded(states[i])
  {
    if i > 0 {
      RunRetries(states, events, i - 1);
      RunSane(states, events, i - 1);
      RetriesKept(states[i - 1], events[i - 1], states[i]);
    }
  }

  lemma NoRetriesAtFirst(jobs: seq<Job>)
    requires forall k :: 0 <= k < |jobs| ==> Untouched(jobs[k])
    ensures RetriesCounted(jobs)
  {
    forall k | 0 <= k < |jobs| ensures RetriesOf(jobs, |jobs|, k) == 0 {
      InitRetries(jobs, |jobs|, k);
    }
  }

  lemma {:induction false} RunRetriesCounted(states: seq<State>, events: seq<Event>, i: nat)
    requires Run(states, events) && i < |states|
    ensures RetriesCounted(states[i].jobs)
  {
    if i == 0 {
      NoRetriesAtFirst(states[0].jobs);
    } else {
      RunRetriesCounted(states, events, i - 1);
      RunSane(states, events, i - 1);
      RetriesCountedKept(states[i - 1], events[i - 1], states[i]);
    }
  }

  lemma {:induction false} RunBound(states: seq<State>, events: seq<Event>, i: nat)
    requires Run(states, events) && i < |states|
    ensures Bounded(states[i])
  {
    if i == 0 {
      InitBounded(states[0], |states[0].jobs|);
    } else {
      RunBound(states, events, i - 1);
      RunSane(states, events, i - 1);
      BoundKept(states[i - 1], events[i - 1], states[i]);
    }
  }

  /**
   * The queue drains: whatever stalls, fails or goes unsaved, there are at most six runs for every job
   * enqueued, four more for every rerun of a finished job, and one more for every pause.
   */
  lemma RunsAreBounded(states: seq<State>, events: seq<Event>, i: nat)
    requires Run(states, events) && i < |states|
    ensures states[i].runs <= 6 * states[i].enqueued + 4 * states[i].reruns + states[i].pauses
  {
    RunBound(states, events, i);
  }

  /** A job is queued again for a stall at most twice, however often it is rerun, and never without a mark of the watchdog's. */
  lemma StallRequeuesAreBounded(states: seq<State>, events: seq<Event>, i: nat, id: nat)
    requires Run(states, events) && i < |states| && id < |states[i].jobs|
    ensures states[i].jobs[id].stallRequeues <= 2
    ensures states[i].jobs[id].stallRequeues <= states[i].watchdogMarks
  {
    RunStalls(states, events, i);
    assert Attempts(states[i].marks, id) <= states[i].watchdogMarks;
  }

  /** A job is the origin of one retry job at most, and one more for each rerun of it; a retry job of none. */
  lemma OneRetryEach(states: seq<State>, events: seq<Event>, i: nat, id: nat)
    requires Run(states, events) && i < |states| && id < |states[i].jobs|
    ensures var jobs := states[i].jobs;
      && RetriesOf(jobs, |jobs|, id) <= (if jobs[id].isRetry then 0 else 1 + jobs[id].reruns)
      && (jobs[id].retryOf.Some? ==> jobs[id].isRetry && jobs[id].retryOf.value < |jobs| && !jobs[jobs[id].retryOf.value].isRetry)
  {
    var jobs := states[i].jobs;
    RunRetries(states, events, i);
    RunRetriesCounted(states, events, i);
    if jobs[id].retryOf.Some? {
      ListedOnce(jobs, |jobs|, id);
    }
  }

  lemma {:induction false} ListedOnce(jobs: seq<Job>, n: nat, k: nat)
    requires k < n <= |jobs| && jobs[k].retryOf.Some?
    ensures RetriesOf(jobs, n, jobs[k].retryOf.value) > 0
  {
    if k < n - 1 {
      ListedOnce(jobs, n - 1, k);
    }
  }

  /** A finished job that is rerun is run again, with the stalls it has left and the attempts it has used. */
  lemma RerunRunsAgain(s: State, id: nat)
    requires s.worker.Idle? && id < |s.jobs| && (s.jobs[id].status.OK? || s.jobs[id].status.Failed?)
    ensures Enabled(s, RerunReads(id))
    ensures var read := Next(s, RerunReads(id));
      && Enabled(read, RerunWrites(id, true))
      && var written := Next(read, RerunWrites(id, true));
      && written.rerunning == s.rerunning && written.jobs[id].status.Pending?
      && Enabled(written, StartRun(id))
      && var t := Next(written, StartRun(id));
      && t.runs == s.runs + 1 && t.worker == Running(id) && t.marks == s.marks
      && t.jobs == s.jobs[id := s.jobs[id].(status := Working, reruns := s.jobs[id].reruns + 1)]
  {
    assert s.rerunning + multiset{id} - multiset{id} == s.rerunning;
  }

  /** A job that is queued or running is not. */
  lemma QueuedIsNotRerun(s: State, id: nat)
    requires id < |s.jobs|
    ensures Enabled(s, RerunReads(id)) <==> s.jobs[id].status.OK? || s.jobs[id].status.Failed?
  {
  }

  // ---------------------------------------------------------------------------------------------
  // Which runs are charged with a stall
  // ---------------------------------------------------------------------------------------------

  /** Only a stall mark taken after a run uses an attempt up: a pause never does. */
  lemma OnlyStallMarksUseAttempts(s: State, e: Event, t: State, id: nat)
    requires Step(s, e, t)
    ensures Attempts(t.marks, id) != Attempts(s.marks, id) <==>
      e.AfterStalled? && s.worker.id == id && id in s.marks.stalled
    ensures Attempts(t.marks, id) <= Attempts(s.marks, id) + 1
  {
  }

  /** The watchdog marks the job at step k. */
  ghost predicate MarkedAt(states: seq<State>, events: seq<Event>, k: nat, id: nat) {
    k < |events| && k < |states| && events[k].WatchdogMarks? && states[k].watching == Some(id)
  }

  /** From its start at step a the job's run is in hand up to step b, and is settled there, unpaused. */
  ghost predicate SettledRun(states: seq<State>, events: seq<Event>, a: nat, b: nat, id: nat) {
    && a < b < |events| && b < |states| - 1
    && events[a] == StartRun(id) && events[b].AfterStalled?
    && forall k :: a < k <= b ==> !states[k].worker.Idle?
  }

  lemma StalledMoves(s: State, e: Event, t: State, id: nat)
    requires Step(s, e, t)
    ensures id in t.marks.stalled <==>
      (id in s.marks.stalled && !(e.AfterStalled? && s.worker.id == id)) || (e.WatchdogMarks? && s.watching == Some(id))
  {
  }

  /** While a run is in hand its job stays the worker's, uses no attempt up and only gains marks. */
  lemma {:induction false} MarksDuringRun(states: seq<State>, events: seq<Event>, a: nat, b: nat, id: nat)
    requires Run(states, events) && a < b < |states| && events[a] == StartRun(id)
    requires forall k :: a < k <= b ==> !states[k].worker.Idle?
    ensures states[b].worker.id == id && Attempts(states[b].marks, id) == Attempts(states[a].marks, id)
    ensures id in states[b].marks.stalled <==>
      id in states[a].marks.stalled || exists k: nat :: a < k < b && MarkedAt(states, events, k, id)
  {
    var s, e, t := states[b - 1], events[b - 1], states[b];
    assert Step(s, e, t);
    if b > a + 1 {
      MarksDuringRun(states, events, a, b - 1, id);
      StaysInHand(s, e, t);
    }
    StalledMoves(s, e, t, id);
    OnlyStallMarksUseAttempts(s, e, t, id);
    assert MarkedAt(states, events, b - 1, id) <==> e.WatchdogMarks? && s.watching == Some(id);
  }

  lemma StaysInHand(s: State, e: Event, t: State)
    requires Step(s, e, t) && !s.worker.Idle? && !t.worker.Idle?
    ensures t.worker.id == s.worker.id && !e.AfterStalled?
  {
  }

  /**
   * A run that no pause stopped is charged with a stall exactly when a mark on its job stood at its start or
   * the watchdog made one during it. Charged, the job is queued again the first two times, else it fails;
   * not charged, it is left as it ended, and gets a retry job exactly when it ended well with searches that
   * came back empty, is no retry itself, and the retry could be saved.
   */
  lemma ChargedExactlyWhen(states: seq<State>, events: seq<Event>, a: nat, b: nat, id: nat)
    requires Run(states, events) && SettledRun(states, events, a, b, id)
    ensures var charged := id in states[a].marks.stalled || exists k: nat :: a < k < b && MarkedAt(states, events, k, id);
      var before, after, tries := states[b], states[b + 1], Attempts(states[a].marks, id);
      && Attempts(after.marks, id) == tries + (if charged then 1 else 0)
      && id !in after.marks.stalled
      && id < |before.jobs| <= |after.jobs|
      && (charged && events[b].saved ==>
            after.jobs == before.jobs[id := before.jobs[id].(
              status := if tries < MAX_STALL_RETRIES then Pending else Failed,
              stallRequeues := before.jobs[id].stallRequeues + if tries < MAX_STALL_RETRIES then 1 else 0)])
      && (!charged || !events[b].saved ==>
            after.jobs[id].(retries := 0) == before.jobs[id].(retries := 0))
      && (|after.jobs| > |before.jobs| <==>
            !charged && events[b].saved && events[b].someEmpty && before.worker.status.OK? && !before.jobs[id].isRetry)
  {
    MarksDuringRun(states, events, a, b, id);
    RunSane(states, events, b);
    assert Step(states[b], events[b], states[b + 1]);
    OnlyStallMarksUseAttempts(states[b], events[b], states[b + 1], id);
  }

  /** A step at which a mark on the job is taken up, after a run of it. */
  ghost predicate SettledAt(states: seq<State>, events: seq<Event>, k: nat, id: nat) {
    k < |events| && k < |states| && events[k].AfterStalled? && !states[k].worker.Idle? && states[k].worker.id == id
  }

  /** A mark the watchdog made and no settled run of the job has taken up since. */
  ghost predicate StandsFrom(states: seq<State>, events: seq<Event>, k: nat, i: nat, id: nat) {
    MarkedAt(states, events, k, id) && forall m: nat :: k < m < i ==> !SettledAt(states, events, m, id)
  }

  /**
   * A mark stands exactly since the watchdog made it and until a run of the job is settled without a pause:
   * a run the pause window stopped leaves it standing, and so does a run settled before the mark was made.
   */
  lemma {:induction false} MarkStandsExactlyWhen(states: seq<State>, events: seq<Event>, i: nat, id: nat)
    requires Run(states, events) && i < |states|
    ensures id in states[i].marks.stalled <==> exists k: nat :: k < i && StandsFrom(states, events, k, i, id)
  {
    if i > 0 {
      var s, e, t := states[i - 1], events[i - 1], states[i];
      assert Step(s, e, t);
      MarkStandsExactlyWhen(states, events, i - 1, id);
      StalledMoves(s, e, t, id);
      assert SettledAt(states, events, i - 1, id) <==> e.AfterStalled? && s.worker.id == id;
      assert MarkedAt(states, events, i - 1, id) <==> e.WatchdogMarks? && s.watching == Some(id);
      if id in t.marks.stalled {
        if MarkedAt(states, events, i - 1, id) {
          assert StandsFrom(states, events, i - 1, i, id);
        } else {
          var k: nat :| k < i - 1 && StandsFrom(states, events, k, i - 1, id);
          StandsOn(states, events, k, i, id);
        }
      } else {
        forall k: nat | k < i ensures !StandsFrom(states, events, k, i, id) {
          StandsOn(states, events, k, i, id);
        }
      }
    }
  }

  lemma StandsOn(states: seq<State>, events: seq<Event>, k: nat, i: nat, id: nat)
    requires k < i
    ensures StandsFrom(states, events, k, i, id) <==>
      if k == i - 1 then MarkedAt(states, events, k, id)
      else StandsFrom(states, events, k, i - 1, id) && !SettledAt(states, events, i - 1, id)
  {
  }

  // ---------------------------------------------------------------------------------------------
  // Runs that are charged for another one's stall
  // ---------------------------------------------------------------------------------------------

  /** One job, in the queue. */
  const FIRST := Job(Pending, false, None, 0, 0, 0)
  const START := State([FIRST], Marks({}, {}, map[]), Idle, None, None, multiset{}, 0, 1, 0, 0, 0)

  /** A run from its start to its settle, ending well, during which the watchdog never looks or marks. */
  const GOOD_RUN := [StartRun(0), SetCurrent, EndRun(OK, true), AfterPaused(true), AfterStalled(true, false)]

  /** Such a run of a job that stands marked goes back in the queue as stalled. */
  lemma GoodRunIsCharged(s: State) returns (states: seq<State>)
    requires |s.jobs| == 1 && s.jobs[0].status.Pending? && s.worker.Idle? && s.current.None?
    requires 0 in s.marks.stalled && 0 !in s.marks.paused && Attempts(s.marks, 0) < MAX_STALL_RETRIES
    ensures |states| == 6 && states[0] == s
    ensures forall i :: 0 <= i < 5 ==> Step(states[i], GOOD_RUN[i], states[i + 1])
    ensures states[3].jobs == [s.jobs[0].(status := OK)]
    ensures states[5].jobs == [s.jobs[0].(status := Pending, stallRequeues := s.jobs[0].stallRequeues + 1)]
    ensures states[5].pauses == s.pauses
  {
    var s1 := s.(jobs := [s.jobs[0].(status := Working)], worker := Running(0), runs := s.runs + 1);
    var s2 := s1.(current := Some(0));
    var s3 := s2.(jobs := [s.jobs[0].(status := OK)], worker := RunEnded(0, OK, true), current := None);
    var s4 := s3.(worker := NotPaused(0, OK, true));
    var s5 := Next(s4, AfterStalled(true, false));
    states := [s, s1, s2, s3, s4, s5];
    assert Step(s, GOOD_RUN[0], s1) && Step(s1, GOOD_RUN[1], s2) && Step(s2, GOOD_RUN[2], s3);
    assert Step(s3, GOOD_RUN[3], s4) && Step(s4, GOOD_RUN[4], s5);
  }

  /** From a start to a standing mark and on through a good run. */
  lemma ThenAGoodRun(states: seq<State>, events: seq<Event>, rest: seq<State>)
    requires Run(states, events) && |rest| == 6 && rest[0] == states[|events|]
    requires forall i :: 0 <= i < 5 ==> Step(rest[i], GOOD_RUN[i], rest[i + 1])
    ensures Run(states + rest[1..], events + GOOD_RUN)
  {
    var all, done := states + rest[1..], events + GOOD_RUN;
    forall i | 0 <= i < |done| ensures Step(all[i], done[i], all[i + 1]) {
      if i < |events| {
        assert Step(states[i], events[i], states[i + 1]);
      } else {
        assert all[i] == rest[i - |events|] && all[i + 1] == rest[i - |events| + 1] && done[i] == GOOD_RUN[i - |events|];
      }
    }
  }

  /** The watchdog marks a run that the pause window then stops. */
  const MARKED_THEN_PAUSED :=
    [StartRun(0), SetCurrent, WatchdogLooks, WatchdogMarks, PauseMarks, EndRun(OK, true), AfterPaused(true)]

  /** A pause leaves the mark standing: the job's next run, however well it goes, is charged for it. */
  lemma PauseChargesAGoodRun() returns (states: seq<State>)
    ensures states != [] && states[0] == START && Run(states, MARKED_THEN_PAUSED + GOOD_RUN)
    ensures |states| == 13 && states[7].jobs == [FIRST] && states[7].marks.attempts == map[]
    ensures states[12].jobs == [FIRST.(stallRequeues := 1)]
  {
    var job := FIRST.(status := Working);
    var s1 := START.(jobs := [job], worker := Running(0), runs := 1);
    var s2 := s1.(current := Some(0));
    var s3 := s2.(watching := Some(0));
    var s4 := s3.(marks := Marks({0}, {}, map[]), watching := None, watchdogMarks := 1);
    var s5 := s4.(marks := Marks({0}, {0}, map[]), pauses := 1);
    var s6 := s5.(jobs := [FIRST.(status := OK)], worker := RunEnded(0, OK, true), current := None);
    var s7 := s6.(jobs := [FIRST], marks := Marks({0}, {}, map[]), worker := Idle);
    var first := [START, s1, s2, s3, s4, s5, s6, s7];
    assert Step(START, StartRun(0), s1) && Step(s1, SetCurrent, s2) && Step(s2, WatchdogLooks, s3);
    assert Step(s3, WatchdogMarks, s4) && Step(s4, PauseMarks, s5);
    assert Step(s5, EndRun(OK, true), s6) && Step(s6, AfterPaused(true), s7);
    assert Run(first, MARKED_THEN_PAUSED);
    var rest := GoodRunIsCharged(s7);
    ThenAGoodRun(first, MARKED_THEN_PAUSED, rest);
    states := first + rest[1..];
  }

  /** The watchdog marks a run, looks again while it winds down, and marks once more when it has been settled. */
  const MARKED_LATE :=
    [StartRun(0), SetCurrent, WatchdogLooks, WatchdogMarks, WatchdogLooks, EndRun(OK, true), AfterPaused(true),
     AfterStalled(true, false), WatchdogMarks]

  /** No pause is needed for it: a mark made late stands just the same. */
  lemma LateMarkChargesAGoodRun() returns (states: seq<State>)
    ensures states != [] && states[0] == START && Run(states, MARKED_LATE + GOOD_RUN)
    ensures |states| == 15 && states[14].pauses == 0 && states[9].jobs == [FIRST.(stallRequeues := 1)]
    ensures states[14].jobs == [FIRST.(stallRequeues := 2)]
  {
    var first := MarkedLate();
    var rest := GoodRunIsCharged(first[9]);
    ThenAGoodRun(first, MARKED_LATE, rest);
    states := first + rest[1..];
  }

  lemma MarkedLate() returns (states: seq<State>)
    ensures |states| == 10 && states[0] == START && Run(states, MARKED_LATE)
    ensures states[9] == State([FIRST.(stallRequeues := 1)], Marks({0}, {}, map[0 := 1]), Idle, None, None, multiset{}, 1, 1, 0, 0, 2)
  {
    var job := FIRST.(status := Working);
    var s1 := START.(jobs := [job], worker := Running(0), runs := 1);
    var s2 := s1.(current := Some(0));
    var s3 := s2.(watching := Some(0));
    var s4 := s3.(marks := Marks({0}, {}, map[]), watching := None, watchdogMarks := 1);
    var s5 := s4.(watching := Some(0));
    var s6 := s5.(jobs := [FIRST.(status := OK)], worker := RunEnded(0, OK, true), current := None);
    var s7 := s6.(worker := NotPaused(0, OK, true));
    var s8 := s7.(jobs := [FIRST.(stallRequeues := 1)], marks := Marks({}, {}, map[0 := 1]), worker := Idle);
    var s9 := s8.(marks := Marks({0}, {}, map[0 := 1]), watching := None, watchdogMarks := 2);
    states := [START, s1, s2, s3, s4, s5, s6, s7, s8, s9];
    assert Step(START, StartRun(0), s1) && Step(s1, SetCurrent, s2) && Step(s2, WatchdogLooks, s3);
    assert Step(s3, WatchdogMarks, s4) && Step(s4, WatchdogLooks, s5);
    assert Step(s5, EndRun(OK, true), s6) && Step(s6, AfterPaused(true), s7);
    assert Step(s7, AfterStalled(true, false), s8) && Step(s8, WatchdogMarks, s9);
  }
}
