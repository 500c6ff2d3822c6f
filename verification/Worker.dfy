/** The outbox worker: one claimed job, its loads and releases, waits under the
    lease, and its settlement. */
module Worker {
  import opened Options
  import opened Ledger
  import opened Numbers

  const RETRY_FLOOR := 30 * SECOND
  const RETRY_CAP := 3600 * SECOND
  const LEASE_TIME := 120 * SECOND
  const LEASE_MARGIN := 5 * SECOND

  // ---- Retry schedule ------------------------------------------------------------------------

  /** Thirty seconds doubled per earlier attempt, up to an hour. */
  function Backoff(attempt: int): int {
    if attempt <= 1 then RETRY_FLOOR else Min(RETRY_FLOOR * Pow2(attempt - 1), RETRY_CAP)
  }

  /** Without a jitter function the delay is drawn from the upper half. */
  method RetryDelay(attempt: int, jitter: Option<int -> int>, random: nat) returns (d: int)
    ensures jitter.Some? ==> d == jitter.value(Backoff(attempt))
    ensures jitter.None? ==> Backoff(attempt) / 2 <= d < Backoff(attempt)
  {
    var delay := RETRY_FLOOR;
    var i := 1;
    while i < attempt && delay < RETRY_CAP
      invariant 1 <= i && (i <= attempt || i == 1) && RETRY_FLOOR <= delay <= RETRY_CAP && delay % 2 == 0
      invariant delay == Min(RETRY_FLOOR * Pow2(i - 1), RETRY_CAP)
      decreases attempt - i
    {
      delay := delay * 2;
      if delay > RETRY_CAP { delay := RETRY_CAP; }
      i := i + 1;
    }
    if i < attempt { Pow2Monotone(i - 1, attempt - 1); }
    if jitter.None? { return delay / 2 + random % (delay / 2); }
    return jitter.value(delay);
  }

  /** A refusal; some name the instant from which the provider accepts again. */
  datatype Error = Error(unauthorized: bool, superseded: bool, providerAuth: bool, conflict: bool, retryAt: Option<int>)

  predicate Postponed(err: Error, now: int) { err.retryAt.Some? && err.retryAt.value > now }

  /** When a refusal at `now` is tried again: at the instant the provider named if
      that is still ahead, otherwise within the backoff's upper half. */
  predicate DueOk(err: Error, attempt: int, now: int, due: int) {
    if Postponed(err, now) then due == err.retryAt.value else now + Backoff(attempt) / 2 <= due < now + Backoff(attempt)
  }

  method RetryDue(now: int, attempt: int, jitter: Option<int -> int>, random: nat, err: Error) returns (due: int)
    ensures jitter.None? ==> DueOk(err, attempt, now, due) && now < due
    ensures jitter.Some? ==>
      due == if Postponed(err, now) then err.retryAt.value else now + jitter.value(Backoff(attempt))
  {
    if err.retryAt.Some? && err.retryAt.value > now { return err.retryAt.value; }
    var d := RetryDelay(attempt, jitter, random);
    BackoffRange(attempt);
    return now + d;
  }

  lemma BackoffRange(attempt: int)
    ensures RETRY_FLOOR <= Backoff(attempt) <= RETRY_CAP
  {
    if 1 < attempt { Pow2Monotone(0, attempt - 1); }
  }

  // ---- Completed names --------------------------------------------------------------------------

  function NameOf(c: Change): (Surface, string) { (c.surface, c.name) }

  function Names(changes: seq<Change>): set<(Surface, string)> { set c | c in changes :: NameOf(c) }

  lemma NamesSnoc(changes: seq<Change>, c: Change)
    ensures Names(changes + [c]) == Names(changes) + {NameOf(c)}
  {
    assert forall x :: x in changes + [c] <==> x in changes || x == c;
  }

  ghost predicate Unique(changes: seq<Change>) {
    forall i, j :: 0 <= i < j < |changes| ==> NameOf(changes[i]) != NameOf(changes[j])
  }

  /** Adds the changes whose names are not there yet. */
  method Absorb(completed: seq<Change>, changes: seq<Change>) returns (all: seq<Change>)
    requires Unique(completed)
    ensures completed <= all && Unique(all) && Names(all) == Names(completed) + Names(changes)
  {
    all := completed;
    for i := 0 to |changes|
      invariant completed <= all && Unique(all) && Names(all) == Names(completed) + Names(changes[..i])
    {
      assert changes[..i + 1] == changes[..i] + [changes[i]];
      var found := false;
      for j := 0 to |all|
        invariant found <==> exists x :: 0 <= x < j && NameOf(all[x]) == NameOf(changes[i])
      {
        if NameOf(all[j]) == NameOf(changes[i]) { found := true; break; }
      }
      NamesSnoc(changes[..i], changes[i]);
      NamesSnoc(all, changes[i]);
      if !found { all := all + [changes[i]]; } else { assert NameOf(changes[i]) in Names(all); }
    }
    assert changes[..|changes|] == changes;
  }

  // ---- The log of one run ---------------------------------------------------------------------------

  /** Where a job was refused. */
  datatype Stage = Gating | Syncing | Activating

  datatype Settlement =
    | Succeeded
    | Retried(stage: Stage, cause: Error, attempt: int, at: int, due: int)
    | Failed(stage: Stage, cause: Error)
    | Unsupported
    | Activated

  /** Refusals that trying again cannot cure. */
  predicate Terminal(stage: Stage, err: Error) {
    || err.unauthorized || err.superseded
    || (stage != Gating && err.providerAuth)
    || (stage == Activating && err.conflict)
  }

  datatype Event =
    | Claimed
    | Loaded(release: bool)
    | Synced(completed: seq<Change>, changes: seq<Change>, ok: bool)
    | Released
    | ActivateFailed
    | Waited(target: int)
    | Settled(how: Settlement)

  datatype Phase = Idle | Busy | Holding | Finished | Broken

  /** Plaintext is loaded only when none is held and given up before anything else;
      the job is settled once, last. */
  function Step(p: Phase, e: Event): Phase {
    match e
    case Claimed => if p == Idle then Busy else Broken
    case Loaded(release) => if p == Busy then (if release then Holding else Busy) else Broken
    case Synced(_, _, _) => if p == Busy || p == Holding then p else Broken
    case Released => if p == Holding then Busy else Broken
    case ActivateFailed => if p == Busy then Busy else Broken
    case Waited(_) => if p == Busy then Busy else Broken
    case Settled(_) => if p == Busy then Finished else Broken
  }

  function PhaseOf(log: seq<Event>): Phase {
    if log == [] then Idle else Step(PhaseOf(log[..|log| - 1]), log[|log| - 1])
  }

  /** The names every sync of the log has reported. */
  function Reported(log: seq<Event>): set<(Surface, string)> {
    if log == [] then {}
      else Reported(log[..|log| - 1]) + if log[|log| - 1].Synced? then Names(log[|log| - 1].changes) else {}
  }

  /** Whether the latest sync succeeded. */
  function LastSyncOk(log: seq<Event>): bool {
    log != [] && if log[|log| - 1].Synced? then log[|log| - 1].ok else LastSyncOk(log[..|log| - 1])
  }

  /** Waits stay under the safe deadline; every sync is told, once each, exactly
      the names reported before it; a job succeeds exactly on a successful sync,
      fails on a terminal refusal and is retried on any other, on schedule. */
  ghost predicate EventOk(before: seq<Event>, e: Event, safe: int, random: bool) {
    match e
    case Waited(target) => target <= safe
    case Synced(completed, _, _) => Unique(completed) && Names(completed) == Reported(before)
    case Settled(Succeeded) => LastSyncOk(before)
    case Settled(Failed(stage, cause)) => Terminal(stage, cause) && !LastSyncOk(before)
    case Settled(Retried(stage, cause, attempt, at, due)) =>
      !Terminal(stage, cause) && !LastSyncOk(before) && (random ==> at < due && DueOk(cause, attempt, at, due))
    case _ => true
  }

  ghost predicate LogOk(log: seq<Event>, safe: int, random: bool) {
    forall i :: 0 <= i < |log| ==> EventOk(log[..i], log[i], safe, random)
  }

  lemma LogSnoc(log: seq<Event>, e: Event, safe: int, random: bool)
    requires LogOk(log, safe, random) && EventOk(log, e, safe, random)
    ensures LogOk(log + [e], safe, random)
    ensures PhaseOf(log + [e]) == Step(PhaseOf(log), e)
    ensures Reported(log + [e]) == Reported(log) + if e.Synced? then Names(e.changes) else {}
    ensures LastSyncOk(log + [e]) == if e.Synced? then e.ok else LastSyncOk(log)
  {
    var all := log + [e];
    assert all[..|log|] == log;
    forall i | 0 <= i < |all| ensures EventOk(all[..i], all[i], safe, random) {
      if i < |log| { assert all[..i] == log[..i]; }
    }
  }

  function Settlements(log: seq<Event>): nat {
    if log == [] then 0 else Settlements(log[..|log| - 1]) + if log[|log| - 1].Settled? then 1 else 0
  }

  /** Loads that carry a release, minus releases. */
  function Outstanding(log: seq<Event>): int {
    if log == [] then 0 else
      var e := log[|log| - 1];
      Outstanding(log[..|log| - 1]) + (if e.Loaded? && e.release then 1 else 0) - if e.Released? then 1 else 0
  }

  /** What the phases count: never more than one load is outstanding, and a job is
      settled once, with nothing outstanding. */
  lemma {:induction false} PhaseCounts(log: seq<Event>)
    requires PhaseOf(log) != Broken
    ensures Settlements(log) == if PhaseOf(log) == Finished then 1 else 0
    ensures Outstanding(log) == if PhaseOf(log) == Holding then 1 else 0
  {
    if log != [] {
      assert PhaseOf(log[..|log| - 1]) != Broken;
      PhaseCounts(log[..|log| - 1]);
    }
  }

  lemma {:induction false} PrefixNotBroken(log: seq<Event>, i: nat)
    requires PhaseOf(log) != Broken && i <= |log|
    ensures PhaseOf(log[..i]) != Broken
  {
    if i < |log| {
      PrefixNotBroken(log[..|log| - 1], i);
      assert log[..|log| - 1][..i] == log[..i];
    } else {
      assert log[..i] == log;
    }
  }

  /** A finished log settles the job exactly once, at the end, and whenever it loads,
      waits or settles every earlier load has been released. */
  lemma FinishedLog(log: seq<Event>, i: nat)
    requires PhaseOf(log) == Finished && i < |log|
    ensures Settlements(log) == 1 && log[|log| - 1].Settled? && Outstanding(log) == 0
    ensures log[i].Loaded? || log[i].Waited? || log[i].Settled? ==> Outstanding(log[..i]) == 0
    ensures log[i].Settled? <==> i == |log| - 1
  {
    PhaseCounts(log);
    PrefixNotBroken(log, i);
    PhaseCounts(log[..i]);
    PrefixNotBroken(log, i + 1);
    assert log[..i + 1][..i] == log[..i];
    PrefixNotBroken(log, |log| - 1);
    if log[i].Settled? && i < |log| - 1 { NothingAfterSettled(log, i); }
  }

  lemma {:induction false} NothingAfterSettled(log: seq<Event>, i: nat)
    requires PhaseOf(log) != Broken && i < |log| && PhaseOf(log[..i + 1]) == Finished
    ensures i == |log| - 1
  {
    if i < |log| - 1 {
      PrefixNotBroken(log, |log| - 1);
      var front := log[..|log| - 1];
      assert front[..i + 1] == log[..i + 1] && front[..|front|] == front;
      NothingAfterSettled(front, i);
    }
  }

  // ---- The worker ------------------------------------------------------------------------------------

  datatype JobKind = Converge | Scrub | Activation

  datatype Job = Job(kind: JobKind, attempt: int)

  /** The environment's answer to one call: time that passes, an error or success,
      the changes a sync reports, whether a load carries a release. */
  datatype Reply = Reply(elapsed: nat, error: Option<Error>, changes: seq<Change>, release: bool)

  /** What the runtime of a worker needs: a clock that only moves forward, and the
      answers to come. */
  class Runner {
    const replies: nat -> Reply
    const activations: bool
    const jitter: Option<int -> int>
    var clock: int
    var calls: nat
    var log: seq<Event>

    constructor (replies: nat -> Reply, activations: bool, jitter: Option<int -> int>, clock: int)
      ensures this.replies == replies && this.activations == activations && this.jitter == jitter
      ensures this.clock == clock && log == []
    {
      this.replies, this.activations, this.jitter, this.clock := replies, activations, jitter, clock;
      calls, log := 0, [];
    }

    method Call() returns (r: Reply)
      modifies this`clock, this`calls
      ensures old(clock) <= clock
    {
      r := replies(calls);
      calls := calls + 1;
      clock := clock + r.elapsed;
    }

    method Now() returns (t: int)
      modifies this`clock, this`calls
      ensures old(clock) <= clock == t
    {
      var r := Call();
      t := clock;
    }

    /** Sleeps for the delay; without an error the clock has reached its end. */
    method Wait(delay: int) returns (error: Option<Error>)
      modifies this`clock, this`calls
      ensures old(clock) <= clock && (error.None? ==> old(clock) + delay <= clock)
    {
      var r := Call();
      if r.error.None? && 0 < delay { clock := clock + delay; }
      error := r.error;
    }

    ghost predicate Ok(safe: int, phase: Phase)
      reads this
    {
      LogOk(log, safe, jitter.None?) && PhaseOf(log) == phase
    }

    method Record(e: Event, ghost safe: int, ghost phase: Phase)
      requires Ok(safe, phase) && EventOk(log, e, safe, jitter.None?)
      modifies this`log
      ensures log == old(log) + [e] && Ok(safe, Step(phase, e))
      ensures Reported(log) == Reported(old(log)) + if e.Synced? then Names(e.changes) else {}
      ensures LastSyncOk(log) == if e.Synced? then e.ok else LastSyncOk(old(log))
    {
      LogSnoc(log, e, safe, jitter.None?);
      log := log + [e];
    }

    /** Fails the job for a terminal refusal, otherwise schedules a retry. */
    method Refuse(stage: Stage, job: Job, err: Error, ghost safe: int)
      requires Ok(safe, Busy) && !LastSyncOk(log)
      modifies this
      ensures Ok(safe, Finished)
    {
      var now := Now();
      if err.unauthorized || err.superseded || (stage != Gating && err.providerAuth) ||
        (stage == Activating && err.conflict) {
        Record(Settled(Failed(stage, err)), safe, Busy);
        return;
      }
      var r := Call();
      var due := RetryDue(now, job.attempt, jitter, r.elapsed, err);
      Record(Settled(Retried(stage, err, job.attempt, now, due)), safe, Busy);
    }

    /** After a refusal: whether to wait and try again inside the job, having waited. */
    method WaitOut(err: Error, safe: int) returns (again: bool, err': Error)
      requires Ok(safe, Busy)
      modifies this
      ensures Ok(safe, Busy) && old(clock) <= clock && Reported(log) == Reported(old(log))
      ensures LastSyncOk(log) == LastSyncOk(old(log))
      ensures again ==> old(clock) < clock && old(clock) < safe
    {
      err' := err;
      if err.retryAt.None? { return false, err'; }
      var retryAt := err.retryAt.value;
      var now := Now();
      if retryAt <= now || safe < retryAt { return false, err'; }
      var then' := Now();
      Record(Waited(retryAt), safe, Busy);
      var error := Wait(retryAt - then');
      if error.Some? { return false, error.value; }
      again := true;
    }

    /** Loads, tests the connection, releases and activates. */
    method TryActivation(ghost safe: int) returns (error: Option<Error>)
      requires Ok(safe, Busy)
      modifies this
      ensures old(clock) <= clock && Ok(safe, if error.None? then Finished else Busy)
      ensures LastSyncOk(log) == LastSyncOk(old(log))
    {
      var load := Call();
      if load.error.Some? { return load.error; }
      Record(Loaded(load.release), safe, Busy);
      var test := Call();
      if load.release { Record(Released, safe, Holding); }
      if test.error.Some? { return test.error; }
      error := ActivateTested(safe);
    }

    method ActivateTested(ghost safe: int) returns (error: Option<Error>)
      requires Ok(safe, Busy)
      modifies this
      ensures old(clock) <= clock && Ok(safe, if error.None? then Finished else Busy)
      ensures LastSyncOk(log) == LastSyncOk(old(log))
    {
      var now := Now();
      var activate := Call();
      if activate.error.None? { Record(Settled(Activated), safe, Busy); } else { Record(ActivateFailed, safe, Busy); }
      return activate.error;
    }

    method RunActivation(job: Job, safe: int)
      requires Ok(safe, Busy) && !LastSyncOk(log)
      modifies this
      ensures Ok(safe, Finished)
    {
      if !activations {
        Record(Settled(Unsupported), safe, Busy);
        return;
      }
      var err;
      while true
        invariant Ok(safe, Busy) && !LastSyncOk(log)
        decreases if clock <= safe then safe - clock + 1 else 0
      {
        var error := TryActivation(safe);
        if error.None? { return; }
        var again;
        again, err := WaitOut(error.value, safe);
        if !again { break; }
      }
      Refuse(Activating, job, err, safe);
    }

    /** Syncs what was loaded, telling it the names completed so far, and releases. */
    method SyncLoaded(release: bool, completed: seq<Change>, ghost safe: int) returns (sync: Reply)
      requires Ok(safe, if release then Holding else Busy) && Unique(completed) && Names(completed) == Reported(log)
      modifies this
      ensures old(clock) <= clock && Ok(safe, Busy) && Reported(log) == Reported(old(log)) + Names(sync.changes)
      ensures LastSyncOk(log) == sync.error.None?
    {
      sync := Call();
      if release {
        Record(Synced(completed, sync.changes, sync.error.None?), safe, Holding);
        Record(Released, safe, Holding);
      } else {
        Record(Synced(completed, sync.changes, sync.error.None?), safe, Busy);
      }
    }

    method RunSync(job: Job, safe: int)
      requires Ok(safe, Busy) && Reported(log) == {} && !LastSyncOk(log)
      modifies this
      ensures Ok(safe, Finished)
    {
      var completed: seq<Change> := [];
      var err;
      while true
        invariant Ok(safe, Busy) && Unique(completed) && Names(completed) == Reported(log) && !LastSyncOk(log)
        decreases if clock <= safe then safe - clock + 1 else 0
      {
        var load := Call();
        if load.error.Some? {
          err := load.error.value;
          break;
        }
        Record(Loaded(load.release), safe, Busy);
        var sync := SyncLoaded(load.release, completed, safe);
        if sync.error.None? {
          var now := Now();
          Record(Settled(Succeeded), safe, Busy);
          return;
        }
        var all := Absorb(completed, sync.changes);
        var again;
        again, err := WaitOut(sync.error.value, safe);
        if !again { break; }
        completed := all;
      }
      Refuse(Syncing, job, err, safe);
    }

    /** Claims one due job under a lease that ends LEASE_TIME after the claim, and
        settles it. */
    method RunOnce(configured: bool, due: Option<Job>) returns (worked: bool, ghost claimed: int)
      requires log == []
      modifies this
      ensures worked <==> PhaseOf(log) == Finished
      ensures worked ==> old(clock) <= claimed && LogOk(log, claimed + LEASE_TIME - LEASE_MARGIN, jitter.None?)
      ensures !worked ==> log == []
    {
      claimed := clock;
      if !configured { return false, claimed; }
      var now := Now();
      claimed := now;
      var safe := now + LEASE_TIME - LEASE_MARGIN;
      var claim := Call();
      if claim.error.Some? || due.None? { return false, claimed; }
      var job := due.value;
      Record(Claimed, safe, Idle);
      var gate := Call();
      worked := true;
      if gate.error.Some? {
        Refuse(Gating, job, gate.error.value, safe);
      } else if job.kind == Activation {
        RunActivation(job, safe);
      } else {
        RunSync(job, safe);
      }
    }
  }
}
