/**
 One Hermes fetch job: claimed under a lease, fetched outside any transaction, and finalized
 only by the worker whose claim is still live.  A run interleaves any number of workers, slow
 ones included, with the passing of time and with recovery of lapsed leases.
 */
module HermesJob {
  import opened Common

  type Worker = nat
  type Time = nat

  datatype Status = Queued | Running | Succeeded | Failed

  datatype Job = Job(
    status: Status,
    attempts: nat,
    maxAttempts: int,
    scheduledAt: Option<Time>,
    startedAt: Option<Time>,
    finishedAt: Option<Time>,
    lockedBy: Option<Worker>,
    lockedAt: Option<Time>,
    leaseEnd: Option<Time>)

  function NewJob(maxAttempts: int, scheduledAt: Option<Time>): Job {
    Job(Queued, 0, maxAttempts, scheduledAt, None, None, None, None, None)
  }

  const MaxRetryDelay: nat := 3600

  function Pow2(n: nat): nat {
    if n == 0 then 1 else 2 * Pow2(n - 1)
  }

  /** Bounded exponential backoff in seconds. */
  function RetryDelay(attempts: nat): nat {
    var exponent := if attempts == 0 then 0 else attempts - 1;
    var seconds := 60 * Pow2(exponent);
    if seconds < MaxRetryDelay then seconds else MaxRetryDelay
  }

  predicate Due(j: Job, now: Time) {
    j.scheduledAt.None? || j.scheduledAt.value <= now
  }

  predicate Claimable(j: Job, now: Time) {
    j.status.Queued? && Due(j, now)
  }

  function Claimed(j: Job, worker: Worker, leaseEnd: Time, now: Time): Job {
    j.(status := Running, attempts := j.attempts + 1, startedAt := Some(now), finishedAt := None,
       lockedBy := Some(worker), lockedAt := Some(now), leaseEnd := Some(leaseEnd))
  }

  function Unlocked(j: Job): Job {
    j.(lockedBy := None, lockedAt := None, leaseEnd := None)
  }

  /** The fence: this worker's attempt is the running one and its lease has not lapsed. */
  predicate Live(j: Job, worker: Worker, attempt: nat, now: Time) {
    && j.status.Running? && j.lockedBy == Some(worker) && j.attempts == attempt
    && j.leaseEnd.Some? && now <= j.leaseEnd.value
  }

  function Rejected(j: Job, now: Time): Job {
    Unlocked(j.(status := Failed, finishedAt := Some(now), scheduledAt := None))
  }

  function Success(j: Job, now: Time): Job {
    Unlocked(j.(status := Succeeded, finishedAt := Some(now), scheduledAt := None))
  }

  function Failure(j: Job, permanent: bool, now: Time): Job {
    var next := if permanent || j.attempts >= j.maxAttempts then j.(status := Failed, scheduledAt := None)
                else j.(status := Queued, scheduledAt := Some(now + RetryDelay(j.attempts)));
    Unlocked(next.(finishedAt := Some(now)))
  }

  predicate Stale(j: Job, now: Time) {
    j.status.Running? && j.leaseEnd.Some? && j.leaseEnd.value < now
  }

  function Recovered(j: Job, now: Time): Job {
    var next := if j.attempts >= j.maxAttempts then j.(status := Failed, scheduledAt := None)
                else j.(status := Queued, scheduledAt := Some(now));
    Unlocked(next.(finishedAt := Some(now)))
  }

  /** The stored row and the statements that change it. */
  class JobRow {
    var status: Status
    var attempts: nat
    var maxAttempts: int
    var scheduledAt: Option<Time>
    var startedAt: Option<Time>
    var finishedAt: Option<Time>
    var lockedBy: Option<Worker>
    var lockedAt: Option<Time>
    var leaseEnd: Option<Time>

    constructor (max: int, scheduled: Option<Time>)
      ensures Now() == NewJob(max, scheduled)
    {
      status, attempts, maxAttempts, scheduledAt := Queued, 0, max, scheduled;
      startedAt, finishedAt, lockedBy, lockedAt, leaseEnd := None, None, None, None, None;
    }

    function Now(): Job
      reads this
    {
      Job(status, attempts, maxAttempts, scheduledAt, startedAt, finishedAt, lockedBy, lockedAt, leaseEnd)
    }

    method Unlock()
      modifies this
      ensures Now() == Unlocked(old(Now()))
    {
      lockedBy, lockedAt, leaseEnd := None, None, None;
    }

    /** `claim_running`. */
    method ClaimRunning(worker: Worker, lease: Time, now: Time) returns (ok: bool)
      modifies this
      ensures ok == old(Claimable(Now(), now))
      ensures Now() == if ok then Claimed(old(Now()), worker, lease, now) else old(Now())
    {
      ok := status == Queued && (scheduledAt.None? || scheduledAt.value <= now);
      if ok {
        status, attempts, startedAt, finishedAt := Running, attempts + 1, Some(now), None;
        lockedBy, lockedAt, leaseEnd := Some(worker), Some(now), Some(lease);
      }
    }

    /**
     `execute` up to the fetch: claim, and if the target is gone or paused fail at once, inside
     the claim's own transaction.  A ticket is returned if there is something to fetch.
     */
    method Execute(worker: Worker, lease: Time, targetActive: bool, now: Time) returns (ticket: Option<Ticket>)
      modifies this
      ensures Now() == Executed(old(Now()), worker, lease, targetActive, now)
      ensures ticket ==
        if old(Claimable(Now(), now)) && targetActive then Some(Ticket(worker, attempts, now, lease)) else None
    {
      var ok := ClaimRunning(worker, lease, now);
      if !ok { return None; }
      if targetActive { return Some(Ticket(worker, attempts, now, lease)); }
      status, finishedAt, scheduledAt := Failed, Some(now), None;
      Unlock();
      return None;
    }

    /** `_finalize_success`; an inactive target makes it a failure. */
    method FinalizeSuccess(ticket: Ticket, targetActive: bool, now: Time) returns (done: bool)
      modifies this
      ensures done == old(Live(Now(), ticket.worker, ticket.attempt, now))
      ensures Now() == if !done then old(Now())
        else if targetActive then Success(old(Now()), now) else Failure(old(Now()), false, now)
    {
      done := Live(Now(), ticket.worker, ticket.attempt, now);
      if !done { return; }
      if !targetActive {
        done := FinalizeFailure(ticket, false, now);
        return;
      }
      status, finishedAt, scheduledAt := Succeeded, Some(now), None;
      Unlock();
    }

    /** `_finalize_failure`. */
    method FinalizeFailure(ticket: Ticket, permanent: bool, now: Time) returns (done: bool)
      modifies this
      ensures done == old(Live(Now(), ticket.worker, ticket.attempt, now))
      ensures Now() == if done then Failure(old(Now()), permanent, now) else old(Now())
    {
      done := Live(Now(), ticket.worker, ticket.attempt, now);
      if !done { return; }
      if permanent || attempts >= maxAttempts {
        status, scheduledAt := Failed, None;
      } else {
        status, scheduledAt := Queued, Some(now + RetryDelay(attempts));
      }
      finishedAt := Some(now);
      Unlock();
    }

    /** `recover_stale_running`, for this row. */
    method RecoverStale(now: Time) returns (recovered: bool)
      modifies this
      ensures recovered == old(Stale(Now(), now))
      ensures Now() == if recovered then Recovered(old(Now()), now) else old(Now())
    {
      recovered := status == Running && leaseEnd.Some? && leaseEnd.value < now;
      if recovered {
        if attempts >= maxAttempts {
          status, scheduledAt := Failed, None;
        } else {
          status, scheduledAt := Queued, Some(now);
        }
        finishedAt := Some(now);
        Unlock();
      }
    }
  }

  function Executed(j: Job, worker: Worker, lease: Time, targetActive: bool, now: Time): Job {
    if !Claimable(j, now) then j
    else if targetActive then Claimed(j, worker, lease, now)
    else Rejected(Claimed(j, worker, lease, now), now)
  }

  // ---------------------------------------------------------------- runs

  /** What a worker remembers of its claim. */
  datatype Ticket = Ticket(worker: Worker, attempt: nat, at: Time, until: Time)

  /** What ended an attempt; a target may be found gone before the fetch or after it. */
  datatype Cause = TargetGone | Fetched | TargetLost | Broke(permanent: bool) | Lapsed

  /** `worker` is who ended the attempt, nobody for a lapsed lease. */
  datatype End = End(attempt: nat, worker: Option<Worker>, at: Time, cause: Cause)

  /** The row, the clock, every claim ever made and every ending of an attempt. */
  datatype World = World(job: Job, now: Time, claims: seq<Ticket>, ends: seq<End>)

  datatype Act =
    | Tick(seconds: nat)
    | Start(worker: Worker, lease: nat, targetActive: bool)
    | FinishOk(ticket: Ticket, targetActive: bool)
    | FinishBad(ticket: Ticket, permanent: bool)
    | Recover

  function Ended(w: World, job: Job, e: End): World {
    w.(job := job, ends := w.ends + [e])
  }

  /** A claim that has something to fetch. */
  function Begun(w: World, worker: Worker, leaseEnd: Time): World {
    w.(job := Claimed(w.job, worker, leaseEnd, w.now),
       claims := w.claims + [Ticket(worker, w.job.attempts + 1, w.now, leaseEnd)])
  }

  /** A claim whose target is gone or paused. */
  function Turned(w: World, worker: Worker): World {
    Ended(w, Rejected(w.job, w.now), End(w.job.attempts, Some(worker), w.now, TargetGone))
  }

  /** Workers finalize with any ticket they were ever given, however late and however often. */
  function Step(w: World, a: Act): World {
    match a
    case Tick(s) => w.(now := w.now + s)
    case Start(worker, lease, active) =>
      if !Claimable(w.job, w.now) then w
      else if active then Begun(w, worker, w.now + lease)
      else Turned(Begun(w, worker, w.now + lease), worker)
    case FinishOk(t, active) =>
      if t !in w.claims || !Live(w.job, t.worker, t.attempt, w.now) then w
      else if active then Ended(w, Success(w.job, w.now), End(t.attempt, Some(t.worker), w.now, Fetched))
      else Ended(w, Failure(w.job, false, w.now), End(t.attempt, Some(t.worker), w.now, TargetLost))
    case FinishBad(t, permanent) =>
      if t !in w.claims || !Live(w.job, t.worker, t.attempt, w.now) then w
      else Ended(w, Failure(w.job, permanent, w.now), End(t.attempt, Some(t.worker), w.now, Broke(permanent)))
    case Recover =>
      if !Stale(w.job, w.now) then w
      else Ended(w, Recovered(w.job, w.now), End(w.job.attempts, None, w.now, Lapsed))
  }

  function Run(w: World, acts: seq<Act>): World
    decreases |acts|
  {
    if acts == [] then w else Step(Run(w, acts[..|acts| - 1]), acts[|acts| - 1])
  }

  function Fresh(maxAttempts: int, scheduledAt: Option<Time>): World {
    World(NewJob(maxAttempts, scheduledAt), 0, [], [])
  }

  /** The locks are there exactly while the job runs. */
  ghost predicate LocksRight(j: Job) {
    && (j.status.Running? <==> j.lockedBy.Some?)
    && (j.status.Running? <==> j.lockedAt.Some?)
    && (j.status.Running? <==> j.leaseEnd.Some?)
  }

  /** Claims are numbered 1, 2, 3 and each but perhaps the last has ended, once, in order. */
  ghost predicate Numbered(job: Job, claims: seq<Ticket>, ends: seq<End>) {
    && |claims| == job.attempts
    && |ends| == job.attempts - (if job.status.Running? then 1 else 0)
    && (forall i :: 0 <= i < |claims| ==> claims[i].attempt == i + 1)
    && (forall i :: 0 <= i < |ends| ==> ends[i].attempt == i + 1)
    && (job.status.Running? ==> Holds(job, claims[|claims| - 1]))
  }

  /** The row carries the claim. */
  ghost predicate Holds(j: Job, t: Ticket) {
    && j.lockedBy == Some(t.worker) && j.lockedAt == Some(t.at) && j.leaseEnd == Some(t.until)
    && j.startedAt == Some(t.at) && j.finishedAt.None?
  }

  /** Only the claim's own worker ends an attempt, unless its lease lapsed. */
  ghost predicate Fenced(claims: seq<Ticket>, ends: seq<End>) {
    |ends| <= |claims| && forall i :: 0 <= i < |ends| ==> EndedAt(claims, ends, i)
  }

  ghost predicate EndedAt(claims: seq<Ticket>, ends: seq<End>, i: nat)
    requires i < |ends| <= |claims|
  {
    EndedBy(ends[i], claims[i])
  }

  ghost predicate EndedBy(e: End, t: Ticket) {
    if e.cause.Lapsed? then e.worker.None? else e.worker == Some(t.worker)
  }

  /** How long a requeued attempt keeps the job from being claimed. */
  function Pause(e: End): nat {
    if e.cause.Lapsed? then 0 else RetryDelay(e.attempt)
  }

  /** What may go better next time, if there is one. */
  predicate Requeued(e: End, max: int) {
    e.attempt < max && e.cause != TargetGone && e.cause != Fetched && e.cause != Broke(true)
  }

  /** Every claim but the first follows a requeue, after its pause. */
  ghost predicate Spaced(job: Job, claims: seq<Ticket>, ends: seq<End>) {
    && |claims| <= |ends| + 1
    && (forall i :: 0 < i < |claims| ==> FollowsAt(claims, ends, i, job.maxAttempts))
    && (ends != [] && !job.status.Running? ==> Outcome(job, ends[|ends| - 1]))
    && (ends == [] ==> job.status.Queued? || job.status.Running?)
  }

  ghost predicate Follows(e: End, t: Ticket, max: int) {
    Requeued(e, max) && t.at >= e.at + Pause(e)
  }

  ghost predicate FollowsAt(claims: seq<Ticket>, ends: seq<End>, i: nat, max: int)
    requires 0 < i < |claims| <= |ends| + 1
  {
    Follows(ends[i - 1], claims[i], max)
  }

  /** What an ending makes of the job. */
  ghost predicate Outcome(job: Job, e: End) {
    && job.finishedAt == Some(e.at)
    && (job.status.Succeeded? <==> e.cause == Fetched)
    && (job.status.Queued? <==> Requeued(e, job.maxAttempts))
    && !job.status.Running?
    && job.scheduledAt == if job.status.Queued? then Some(e.at + Pause(e)) else None
  }

  ghost predicate Bounded(j: Job) {
    && (j.status.Queued? ==> j.attempts == 0 || j.attempts < j.maxAttempts)
    && (j.attempts <= 1 || j.attempts <= j.maxAttempts)
  }

  ghost predicate Inv(w: World) {
    && LocksRight(w.job) && Numbered(w.job, w.claims, w.ends) && Fenced(w.claims, w.ends)
    && Spaced(w.job, w.claims, w.ends) && Bounded(w.job)
  }

  lemma BegunFenced(claims: seq<Ticket>, ends: seq<End>, t: Ticket)
    requires Fenced(claims, ends)
    ensures Fenced(claims + [t], ends)
  {
    forall i | 0 <= i < |ends| ensures EndedAt(claims + [t], ends, i) { assert EndedAt(claims, ends, i); }
  }

  lemma BegunSpaced(w: World, worker: Worker, leaseEnd: Time)
    requires Numbered(w.job, w.claims, w.ends) && Spaced(w.job, w.claims, w.ends) && Claimable(w.job, w.now)
    ensures var w' := Begun(w, worker, leaseEnd); Spaced(w'.job, w'.claims, w'.ends)
  {
    var claims := w.claims + [Ticket(worker, w.job.attempts + 1, w.now, leaseEnd)];
    forall i | 0 < i < |claims| ensures FollowsAt(claims, w.ends, i, w.job.maxAttempts) {
      if i < |w.claims| { assert FollowsAt(w.claims, w.ends, i, w.job.maxAttempts); }
    }
  }

  /** A claim after a requeue, or the first one. */
  lemma StartInv(w: World, worker: Worker, leaseEnd: Time)
    requires Inv(w) && Claimable(w.job, w.now)
    ensures Inv(Begun(w, worker, leaseEnd))
  {
    BegunSpaced(w, worker, leaseEnd);
    BegunFenced(w.claims, w.ends, Ticket(worker, w.job.attempts + 1, w.now, leaseEnd));
  }

  lemma RejectInv(w: World, worker: Worker)
    requires Inv(w) && w.job.status.Running? && w.claims != [] && w.claims[|w.claims| - 1].worker == worker
    ensures Inv(Turned(w, worker))
  {
    EndInv(w, Rejected(w.job, w.now), End(w.job.attempts, Some(worker), w.now, TargetGone));
  }

  lemma TurnedInv(w: World, worker: Worker, leaseEnd: Time)
    requires Inv(w) && Claimable(w.job, w.now)
    ensures Inv(Turned(Begun(w, worker, leaseEnd), worker))
  {
    var begun := Begun(w, worker, leaseEnd);
    StartInv(w, worker, leaseEnd);
    assert begun.job.status.Running? && begun.claims[|begun.claims| - 1].worker == worker;
    RejectInv(begun, worker);
  }

  lemma StartIsInv(w: World, worker: Worker, lease: nat, active: bool)
    requires Claimable(w.job, w.now)
    requires Inv(if active then Begun(w, worker, w.now + lease) else Turned(Begun(w, worker, w.now + lease), worker))
    ensures Inv(Step(w, Start(worker, lease, active)))
  {
  }

  lemma StartStepInv(w: World, worker: Worker, lease: nat, active: bool)
    requires Inv(w) && Claimable(w.job, w.now)
    ensures Inv(Step(w, Start(worker, lease, active)))
  {
    if active { StartInv(w, worker, w.now + lease); } else { TurnedInv(w, worker, w.now + lease); }
    StartIsInv(w, worker, lease, active);
  }

  /** A start does to the row what the use case does. */
  lemma StartExecutes(w: World, worker: Worker, lease: nat, active: bool)
    ensures Step(w, Start(worker, lease, active)).job == Executed(w.job, worker, w.now + lease, active, w.now)
  {
  }

  lemma RecoverStepInv(w: World)
    requires Inv(w)
    ensures Inv(Step(w, Recover))
  {
    if Stale(w.job, w.now) {
      LapseEnds(w);
      EndInv(w, Recovered(w.job, w.now), End(w.job.attempts, None, w.now, Lapsed));
    }
  }

  lemma LapseEnds(w: World)
    requires Inv(w) && Stale(w.job, w.now)
    ensures Ends(w, Recovered(w.job, w.now), End(w.job.attempts, None, w.now, Lapsed))
  {
  }

  /** `e` ends the running attempt, unlocks the job and says what becomes of it. */
  ghost predicate Ends(w: World, job: Job, e: End) {
    && w.job.status.Running? && LocksRight(job) && Outcome(job, e)
    && job.attempts == w.job.attempts == e.attempt && job.maxAttempts == w.job.maxAttempts
    && w.claims != [] && EndedBy(e, w.claims[|w.claims| - 1])
  }

  lemma EndFenced(claims: seq<Ticket>, ends: seq<End>, e: End)
    requires Fenced(claims, ends) && |ends| == |claims| - 1 && EndedBy(e, claims[|claims| - 1])
    ensures Fenced(claims, ends + [e])
  {
    forall i | 0 <= i < |claims| ensures EndedAt(claims, ends + [e], i) {
      if i < |ends| { assert EndedAt(claims, ends, i); }
    }
  }

  lemma EndSpaced(w: World, job: Job, e: End)
    requires Numbered(w.job, w.claims, w.ends) && Spaced(w.job, w.claims, w.ends) && Ends(w, job, e)
    ensures Spaced(job, w.claims, w.ends + [e])
  {
    var ends := w.ends + [e];
    forall i | 0 < i < |w.claims| ensures FollowsAt(w.claims, ends, i, job.maxAttempts) {
      assert FollowsAt(w.claims, w.ends, i, w.job.maxAttempts);
    }
    assert ends[|ends| - 1] == e;
  }

  /** Any ending of the running attempt keeps the invariant. */
  lemma EndInv(w: World, job: Job, e: End)
    requires Inv(w) && Ends(w, job, e)
    ensures Inv(Ended(w, job, e))
  {
    EndFenced(w.claims, w.ends, e);
    EndSpaced(w, job, e);
  }

  lemma FinishOkInv(w: World, t: Ticket, active: bool)
    requires Inv(w)
    ensures Inv(Step(w, FinishOk(t, active)))
  {
    if t in w.claims && Live(w.job, t.worker, t.attempt, w.now) {
      if active {
        SuccessEnds(w, t);
        EndInv(w, Success(w.job, w.now), End(t.attempt, Some(t.worker), w.now, Fetched));
      } else {
        FailureEnds(w, t, false, TargetLost);
        EndInv(w, Failure(w.job, false, w.now), End(t.attempt, Some(t.worker), w.now, TargetLost));
      }
    }
  }

  lemma SuccessEnds(w: World, t: Ticket)
    requires Inv(w) && t in w.claims && Live(w.job, t.worker, t.attempt, w.now)
    ensures Ends(w, Success(w.job, w.now), End(t.attempt, Some(t.worker), w.now, Fetched))
  {
    LiveTicketIsLast(w, t);
  }

  lemma FinishBadInv(w: World, t: Ticket, permanent: bool)
    requires Inv(w)
    ensures Inv(Step(w, FinishBad(t, permanent)))
  {
    if t in w.claims && Live(w.job, t.worker, t.attempt, w.now) {
      FailureEnds(w, t, permanent, Broke(permanent));
      EndInv(w, Failure(w.job, permanent, w.now), End(t.attempt, Some(t.worker), w.now, Broke(permanent)));
    }
  }

  lemma FailureEnds(w: World, t: Ticket, permanent: bool, cause: Cause)
    requires Inv(w) && t in w.claims && Live(w.job, t.worker, t.attempt, w.now)
    requires cause == Broke(permanent) || (cause == TargetLost && !permanent)
    ensures Ends(w, Failure(w.job, permanent, w.now), End(t.attempt, Some(t.worker), w.now, cause))
  {
    LiveTicketIsLast(w, t);
  }

  lemma MaxKept(w: World, a: Act)
    ensures Step(w, a).job.maxAttempts == w.job.maxAttempts
  {
  }

  lemma StepInv(w: World, a: Act)
    requires Inv(w)
    ensures Inv(Step(w, a)) && Step(w, a).job.maxAttempts == w.job.maxAttempts
  {
    MaxKept(w, a);
    match a
    case Tick(_) =>
    case Start(worker, lease, active) =>
      if Claimable(w.job, w.now) { StartStepInv(w, worker, lease, active); }
    case FinishOk(t, active) => FinishOkInv(w, t, active);
    case FinishBad(t, permanent) => FinishBadInv(w, t, permanent);
    case Recover => RecoverStepInv(w);
  }

  lemma {:induction false} RunInv(max: int, scheduled: Option<Time>, acts: seq<Act>)
    ensures Inv(Run(Fresh(max, scheduled), acts)) && Run(Fresh(max, scheduled), acts).job.maxAttempts == max
    decreases |acts|
  {
    if acts != [] {
      RunInv(max, scheduled, acts[..|acts| - 1]);
      StepInv(Run(Fresh(max, scheduled), acts[..|acts| - 1]), acts[|acts| - 1]);
    }
  }

  /** Who may change a job: a due claim, the live holder of the running attempt, or recovery of a lapsed lease. */
  ghost predicate Entitled(w: World, a: Act) {
    match a
    case Tick(_) => false
    case Start(_, _, _) => w.job.status.Queued? && (w.job.scheduledAt.None? || w.job.scheduledAt.value <= w.now)
    case FinishOk(t, _) => HeldBy(w, t)
    case FinishBad(t, _) => HeldBy(w, t)
    case Recover => w.job.status.Running? && w.job.leaseEnd.Some? && w.now > w.job.leaseEnd.value
  }

  /** A job changes exactly by those who may change it, and always when they try. */
  lemma OnlyHolderChanges(w: World, a: Act)
    requires Inv(w)
    ensures Step(w, a).job != w.job <==> Entitled(w, a)
  {
    if a.FinishOk? || a.FinishBad? {
      HolderIsLive(w, a.ticket);
      if HeldBy(w, a.ticket) { FailureLeaves(w, a.ticket, a.FinishBad? && a.permanent); }
    }
  }

  /** The ticket is the latest claim's, the job runs, and its lease has not lapsed. */
  ghost predicate HeldBy(w: World, t: Ticket) {
    && w.job.status.Running? && w.claims != [] && t == w.claims[|w.claims| - 1]
    && w.job.leaseEnd.Some? && w.now <= w.job.leaseEnd.value
  }

  lemma LiveTicketIsLast(w: World, t: Ticket)
    requires Numbered(w.job, w.claims, w.ends) && t in w.claims && Live(w.job, t.worker, t.attempt, w.now)
    ensures HeldBy(w, t)
  {
    var i :| 0 <= i < |w.claims| && w.claims[i] == t;
  }

  /** A finished job never changes again, whatever its workers still try. */
  lemma {:induction false} FinishedIsForever(w: World, acts: seq<Act>)
    requires w.job.status.Succeeded? || w.job.status.Failed?
    ensures Run(w, acts).job == w.job && Run(w, acts).ends == w.ends
    decreases |acts|
  {
    if acts != [] { FinishedIsForever(w, acts[..|acts| - 1]); }
  }

  /**
   In every reachable state: the job was claimed at most max(1, max_attempts) times, every attempt
   ended at most once and in order, nobody but its own worker ended it while the lease lasted, and
   the job carries lock fields exactly while it runs.
   */
  lemma FetchesFenced(max: int, scheduled: Option<Time>, acts: seq<Act>)
    ensures var w := Run(Fresh(max, scheduled), acts);
      && |w.claims| <= (if max > 1 then max else 1)
      && (forall i, j :: 0 <= i < j < |w.ends| ==> w.ends[i].attempt < w.ends[j].attempt)
      && Fenced(w.claims, w.ends) && LocksRight(w.job)
  {
    RunInv(max, scheduled, acts);
  }

  /**
   Claims and endings tell the whole row, whatever happened in between: while an attempt runs, its
   claim with its lease; before any, the job as it was made; afterwards what the last ending leaves.
   */
  lemma RowTold(max: int, scheduled: Option<Time>, acts: seq<Act>)
    ensures var w := Run(Fresh(max, scheduled), acts);
      && w.job.maxAttempts == max && w.job.attempts == |w.claims|
      && (w.job.status.Running? ==> w.claims != [] && Holds(w.job, w.claims[|w.claims| - 1]))
      && (!w.job.status.Running? && w.ends != [] ==> Left(w.job, w.ends[|w.ends| - 1]))
      && (!w.job.status.Running? && w.ends == [] ==> w.job == NewJob(max, scheduled))
  {
    RunInv(max, scheduled, acts);
    UntouchedStays(max, scheduled, acts);
    LastTold(Run(Fresh(max, scheduled), acts));
  }

  lemma LastTold(w: World)
    requires Inv(w)
    ensures w.job.attempts == |w.claims|
    ensures w.job.status.Running? ==> w.claims != [] && Holds(w.job, w.claims[|w.claims| - 1])
    ensures !w.job.status.Running? && w.ends != [] ==> Left(w.job, w.ends[|w.ends| - 1])
    ensures !w.job.status.Running? && w.ends == [] ==> w.claims == []
  {
    if !w.job.status.Running? && w.ends != [] { OutcomeLeaves(w.job, w.ends[|w.ends| - 1]); }
  }

  lemma OutcomeLeaves(job: Job, e: End)
    requires Outcome(job, e) && LocksRight(job)
    ensures Left(job, e)
  {
  }

  lemma {:induction false} UntouchedStays(max: int, scheduled: Option<Time>, acts: seq<Act>)
    ensures var w := Run(Fresh(max, scheduled), acts);
      w.claims == [] && w.ends == [] ==> w.job == NewJob(max, scheduled)
    decreases |acts|
  {
    if acts != [] {
      var before := Run(Fresh(max, scheduled), acts[..|acts| - 1]);
      RunInv(max, scheduled, acts[..|acts| - 1]);
      UntouchedStays(max, scheduled, acts[..|acts| - 1]);
      var after := Run(Fresh(max, scheduled), acts);
      if after.claims == [] && after.ends == [] { UntouchedStep(before, acts[|acts| - 1]); }
    }
  }

  lemma UntouchedStep(w: World, a: Act)
    requires Step(w, a).claims == [] && Step(w, a).ends == [] && LocksRight(w.job) && Numbered(w.job, w.claims, w.ends)
    ensures w.claims == [] && w.ends == [] && Step(w, a).job == w.job
  {
  }

  /** What each ending leaves: success only a good fetch; retries unless they are hopeless or used up. */
  ghost predicate Left(job: Job, e: End) {
    && job.finishedAt == Some(e.at) && job.lockedBy.None? && job.lockedAt.None? && job.leaseEnd.None?
    && match e.cause
       case Fetched => job.status == Succeeded && job.scheduledAt == None
       case TargetGone => job.status == Failed && job.scheduledAt == None
       case Broke(true) => job.status == Failed && job.scheduledAt == None
       case Lapsed =>
         if e.attempt < job.maxAttempts then job.status == Queued && job.scheduledAt == Some(e.at)
         else job.status == Failed && job.scheduledAt == None
       case _ =>
         if e.attempt < job.maxAttempts
         then job.status == Queued && job.scheduledAt == Some(e.at + RetryDelay(e.attempt))
         else job.status == Failed && job.scheduledAt == None
  }

  /** Act `k` finalizes a good fetch of an active target, under the live lease of the running attempt. */
  ghost predicate SucceedsAt(w: World, acts: seq<Act>, k: nat)
    requires k < |acts|
  {
    acts[k].FinishOk? && acts[k].targetActive && HeldBy(Run(w, acts[..k]), acts[k].ticket)
  }

  /** A job has succeeded exactly if a good fetch was finalized in time. */
  lemma {:induction false} SucceededExactly(max: int, scheduled: Option<Time>, acts: seq<Act>)
    ensures Run(Fresh(max, scheduled), acts).job.status.Succeeded? <==>
            exists k :: 0 <= k < |acts| && SucceedsAt(Fresh(max, scheduled), acts, k)
    decreases |acts|
  {
    var w := Fresh(max, scheduled);
    if acts != [] {
      var n := |acts| - 1;
      SucceededExactly(max, scheduled, acts[..n]);
      RunInv(max, scheduled, acts[..n]);
      SucceedsStep(Run(w, acts[..n]), acts[n]);
      forall k | 0 <= k < n ensures SucceedsAt(w, acts[..n], k) <==> SucceedsAt(w, acts, k) {
        assert acts[..n][..k] == acts[..k];
      }
      assert Run(w, acts).job.status.Succeeded? <==>
        (exists k :: 0 <= k < n && SucceedsAt(w, acts, k)) || SucceedsAt(w, acts, n);
    }
  }

  lemma SucceedsStep(w: World, a: Act)
    requires Inv(w)
    ensures Step(w, a).job.status.Succeeded? <==>
            w.job.status.Succeeded? || (a.FinishOk? && a.targetActive && HeldBy(w, a.ticket))
  {
    if a.FinishOk? || a.FinishBad? { HolderIsLive(w, a.ticket); }
  }

  lemma HolderIsLive(w: World, t: Ticket)
    requires Inv(w)
    ensures t in w.claims && Live(w.job, t.worker, t.attempt, w.now) <==> HeldBy(w, t)
  {
    if t in w.claims && Live(w.job, t.worker, t.attempt, w.now) { LiveTicketIsLast(w, t); }
  }

  /**
   A failure that the holder reports in time is final if it is permanent or the attempts are used
   up; any other one puts the job back into the queue until its backoff is over.
   */
  lemma FailureLeaves(w: World, t: Ticket, permanent: bool)
    requires Inv(w) && HeldBy(w, t)
    ensures var job := Step(w, FinishBad(t, permanent)).job;
      if permanent || t.attempt >= w.job.maxAttempts then job.status == Failed && job.scheduledAt == None
      else job.status == Queued && job.scheduledAt == Some(w.now + RetryDelay(t.attempt))
    ensures var job := Step(w, FinishOk(t, false)).job;
      if t.attempt >= w.job.maxAttempts then job.status == Failed && job.scheduledAt == None
      else job.status == Queued && job.scheduledAt == Some(w.now + RetryDelay(t.attempt))
  {
    HolderIsLive(w, t);
  }

  lemma SpacedAt(w: World, i: nat)
    requires Numbered(w.job, w.claims, w.ends) && Spaced(w.job, w.claims, w.ends) && 0 < i < |w.claims|
    ensures i <= |w.ends| && SpacedBy(w.ends[i - 1], w.claims[i], i, w.job.maxAttempts)
  {
    assert FollowsAt(w.claims, w.ends, i, w.job.maxAttempts);
  }

  /** Attempt `i` failed or lapsed, and the next claim came after its backoff. */
  ghost predicate SpacedBy(e: End, next: Ticket, i: nat, max: int) {
    && e.attempt == i < max && (e.cause == TargetLost || e.cause == Broke(false) || e.cause == Lapsed)
    && next.at >= e.at && (e.cause != Lapsed ==> next.at >= e.at + RetryDelay(i))
  }

  /** Between one claim and the next lies the backoff of the failed attempt. */
  lemma ClaimsSpaced(max: int, scheduled: Option<Time>, acts: seq<Act>, i: nat)
    requires 0 < i < |Run(Fresh(max, scheduled), acts).claims|
    ensures var w := Run(Fresh(max, scheduled), acts);
      i <= |w.ends| && SpacedBy(w.ends[i - 1], w.claims[i], i, max)
  {
    RunInv(max, scheduled, acts);
    SpacedAt(Run(Fresh(max, scheduled), acts), i);
  }

  lemma {:induction false} Pow2Grows(m: nat, n: nat)
    requires m <= n
    ensures 1 <= Pow2(m) <= Pow2(n)
  {
    if m < n { Pow2Grows(m, n - 1); } else if n > 0 { Pow2Grows(m - 1, n - 1); }
  }

  /** Delays start at a minute, never shrink, and stop growing at an hour from the seventh attempt on. */
  lemma DelaysGrowToAnHour(a: nat, b: nat)
    requires a <= b
    ensures 60 <= RetryDelay(a) <= RetryDelay(b) <= MaxRetryDelay
    ensures RetryDelay(a) == MaxRetryDelay <==> a >= 7
    ensures 1 <= a < 6 ==> RetryDelay(a + 1) == 2 * RetryDelay(a)
  {
    Pow2Grows(if a == 0 then 0 else a - 1, if b == 0 then 0 else b - 1);
    assert Pow2(6) == 64 by { assert Pow2(3) == 8; }
    assert Pow2(5) == 32 by { assert Pow2(3) == 8; }
    if a >= 7 { Pow2Grows(6, a - 1); } else if a > 0 { Pow2Grows(a - 1, 5); }
  }
}
