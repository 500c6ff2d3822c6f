/** Per-account backoff: the deadline stored in memory with bounded tracking, and
    the delay derived from the shared failure count and last failure instant. */
module Backoff {
  import opened Options
  import opened Numbers
  import opened Tracking

  const FAILURES_BEFORE_BACKOFF := 5
  const MAX_BACKOFF := 60 * SECOND

  /** The hash of a presented identifier. */
  type Subject = string

  datatype Account = Account(failures: nat, until: Option<int>)

  type Accounts = map<Subject, Account>

  function Delay(failures: nat): nat {
    if failures <= FAILURES_BEFORE_BACKOFF then 0
    else Min(Pow2(Min(failures - FAILURES_BEFORE_BACKOFF - 1, 16)) * SECOND, MAX_BACKOFF)
  }

  lemma Pow2At16()
    ensures Pow2(6) == 64 && Pow2(16) == 65536
  {
    assert Pow2(3) == 8;
    assert Pow2(6) == 64;
    assert Pow2(9) == 512;
    assert Pow2(12) == 4096;
    assert Pow2(14) == 16384;
  }

  /** From the sixth consecutive failure the delay doubles from one second to a
      minute; the shift never leaves a 64-bit nanosecond count. */
  lemma DelayCurve(failures: nat)
    requires FAILURES_BEFORE_BACKOFF < failures
    ensures Delay(failures) == Min(Pow2(failures - 6) * SECOND, 60 * SECOND)
    ensures SECOND <= Delay(failures) <= MAX_BACKOFF
    ensures Pow2(Min(failures - 6, 16)) * SECOND < 0x8000_0000_0000_0000
  {
    Pow2At16();
    Pow2Monotone(0, Min(failures - 6, 16));
    Pow2Monotone(Min(failures - 6, 16), 16);
    if 16 < failures - 6 { Pow2Monotone(16, failures - 6); }
  }

  /** The delay is the documented min(2^(n-5), 60) seconds exactly once both have
      reached the cap, which is from the twelfth failure on. */
  lemma DocumentedCurveExactly(failures: nat)
    requires FAILURES_BEFORE_BACKOFF < failures
    ensures Delay(failures) == Min(Pow2(failures - 5) * SECOND, 60 * SECOND) <==> 12 <= failures
  {
    DelayCurve(failures);
    Pow2At16();
    assert Pow2(5) == 32;
    if 12 <= failures {
      Pow2Monotone(6, failures - 6);
    } else {
      Pow2Monotone(failures - 6, 5);
      Pow2Monotone(0, failures - 6);
    }
  }

  /** The sixth failure waits one second, not the documented two. */
  lemma SixthFailureWaitsOneSecond()
    ensures Delay(6) == SECOND && Delay(6) != Min(Pow2(6 - 5) * SECOND, 60 * SECOND)
  {
    DocumentedCurveExactly(6);
    DelayCurve(6);
    assert Pow2(0) == 1;
  }

  lemma DelayMonotone(m: nat, n: nat)
    requires m <= n
    ensures Delay(m) <= Delay(n)
  {
    if FAILURES_BEFORE_BACKOFF < m {
      DelayCurve(m);
      DelayCurve(n);
      Pow2Monotone(m - 6, n - 6);
    }
  }

  // ---- In memory ----------------------------------------------------------------------

  predicate Delayed(a: Account, now: int) { a.until.Some? && now < a.until.value }

  /** The accounts whose delay is still running. */
  function DelayedOnly(accounts: Accounts, now: int): Accounts {
    map k | k in accounts && Delayed(accounts[k], now) :: accounts[k]
  }

  /** When the account's delay ends. */
  function Deadline(a: Account): int {
    if a.until.Some? then a.until.value else 0
  }

  method EvictAccounts(accounts: Accounts, now: int) returns (out: Accounts, forgot: Option<Subject>)
    ensures EvictionOk(DelayedOnly(accounts, now), Deadline, forgot)
    ensures out == DelayedOnly(accounts, now) - Forgotten(forgot)
  {
    out, forgot := accounts, None;
    var rest := accounts.Keys;
    while rest != {}
      invariant rest <= accounts.Keys
      invariant out == map k | k in accounts && (k in rest || Delayed(accounts[k], now)) :: accounts[k]
    {
      var k :| k in rest;
      rest := rest - {k};
      if !Delayed(accounts[k], now) { out := out - {k}; }
    }
    assert out == DelayedOnly(accounts, now);
    if |out| < MAX_TRACKED { return; }
    var soonest := Soonest(out);
    if soonest.Some? {
      forgot := soonest;
      out := out - {soonest.value};
    }
  }

  /** The account whose delay ends soonest. */
  method Soonest(accounts: Accounts) returns (soonest: Option<Subject>)
    requires forall k :: k in accounts ==> accounts[k].until.Some?
    ensures soonest.None? <==> accounts == map[]
    ensures soonest.Some? ==>
      soonest.value in accounts &&
      forall k :: k in accounts ==> accounts[soonest.value].until.value <= accounts[k].until.value
  {
    soonest := None;
    var until := 0;
    var rest := accounts.Keys;
    while rest != {}
      invariant rest <= accounts.Keys && (soonest.None? <==> rest == accounts.Keys)
      invariant soonest.Some? ==> soonest.value in accounts && until == accounts[soonest.value].until.value
      invariant soonest.Some? ==> forall k :: k in accounts && k !in rest ==> until <= accounts[k].until.value
    {
      var k :| k in rest;
      rest := rest - {k};
      if soonest.None? || accounts[k].until.value < until { soonest, until := Some(k), accounts[k].until.value; }
    }
    assert accounts.Keys == {} <==> accounts == map[];
  }

  function Failures(accounts: Accounts, key: Subject): nat {
    if key in accounts then accounts[key].failures else 0
  }

  /** The account after one more failure. */
  function Worse(accounts: Accounts, key: Subject, now: int): Account {
    var n := Failures(accounts, key) + 1;
    Account(n,
      if n <= FAILURES_BEFORE_BACKOFF then (if key in accounts then accounts[key].until else None)
      else Some(now + Delay(n)))
  }

  /** The effect of recording one failure. */
  ghost predicate Recorded(accounts: Accounts, key: Subject, now: int, accounts': Accounts, crossed: bool,
      forgot: Option<Subject>)
  {
    && crossed == (Failures(accounts, key) == FAILURES_BEFORE_BACKOFF)
    && if key !in accounts && |accounts| >= MAX_TRACKED
       then EvictionOk(DelayedOnly(accounts, now), Deadline, forgot) &&
         accounts' == (DelayedOnly(accounts, now) - Forgotten(forgot))[key := Worse(accounts, key, now)]
       else forgot.None? && accounts' == accounts[key := Worse(accounts, key, now)]
  }

  /** The account's next state and whether the threshold was crossed. */
  method Advance(state: Account, now: int) returns (next: Account, crossed: bool)
    ensures next.failures == state.failures + 1 && (crossed <==> next.failures == FAILURES_BEFORE_BACKOFF + 1)
    ensures next.until ==
      if next.failures <= FAILURES_BEFORE_BACKOFF then state.until else Some(now + Delay(next.failures))
  {
    var n := state.failures + 1;
    next := state.(failures := n);
    if n <= FAILURES_BEFORE_BACKOFF { return next, false; }
    var delay := Pow2(Min(n - FAILURES_BEFORE_BACKOFF - 1, 16)) * SECOND;
    delay := Min(delay, MAX_BACKOFF);
    return next.(until := Some(now + delay)), n == FAILURES_BEFORE_BACKOFF + 1;
  }

  method RecordFailure(accounts: Accounts, key: Subject, now: int)
    returns (accounts': Accounts, crossed: bool, forgot: Option<Subject>)
    ensures Recorded(accounts, key, now, accounts', crossed, forgot)
  {
    var state := if key in accounts then accounts[key] else Account(0, None);
    accounts', forgot := accounts, None;
    if key !in accounts && |accounts| >= MAX_TRACKED { accounts', forgot := EvictAccounts(accounts, now); }
    state, crossed := Advance(state, now);
    assert state == Worse(accounts, key, now);
    accounts' := accounts'[key := state];
  }

  /** Tracking stays bounded, and forgets no running delay but the one an eviction
      names, which takes a map full of running delays. */
  lemma RecordedBounded(accounts: Accounts, key: Subject, now: int, accounts': Accounts, crossed: bool,
      forgot: Option<Subject>)
    requires |accounts| <= MAX_TRACKED && Recorded(accounts, key, now, accounts', crossed, forgot)
    ensures |accounts'| <= MAX_TRACKED
    ensures forall k :: k in accounts && k != key && Delayed(accounts[k], now) && forgot != Some(k) ==>
      k in accounts' && accounts'[k] == accounts[k]
    ensures forgot.Some? ==> forgot.value != key && MAX_TRACKED <= |DelayedOnly(accounts, now)|
  {
    if key !in accounts && |accounts| >= MAX_TRACKED {
      EvictionShrinks(accounts, DelayedOnly(accounts, now), Deadline, forgot);
      Inserted(DelayedOnly(accounts, now) - Forgotten(forgot), key, Worse(accounts, key, now));
    } else {
      Inserted(accounts, key, Worse(accounts, key, now));
    }
  }

  function MemoryDelay(accounts: Accounts, key: Subject, now: int): int {
    if key !in accounts || accounts[key].until.None? then 0
    else if accounts[key].until.value - now > 0 then accounts[key].until.value - now else 0
  }

  // ---- Shared ---------------------------------------------------------------------------

  /** The shared row: consecutive failures and the latest failure instant. */
  datatype SharedRow = SharedRow(failures: nat, last: int)

  type SharedRows = map<Subject, SharedRow>

  /** Increments the count and moves the instant forward, never back. */
  function SharedFailed(rows: SharedRows, key: Subject, now: int): SharedRows {
    rows[key := if key in rows
      then SharedRow(rows[key].failures + 1, if rows[key].last < now then now else rows[key].last)
      else SharedRow(1, now)]
  }

  function SharedFailures(rows: SharedRows, key: Subject): nat {
    if key in rows then rows[key].failures else 0
  }

  function SharedDelay(rows: SharedRows, key: Subject, now: int): int {
    if key !in rows then 0 else
      var d := rows[key].last + Delay(rows[key].failures) - now;
      if d > 0 then d else 0
  }

  // ---- Agreement ---------------------------------------------------------------------------

  datatype AccountEvent = Failure(key: Subject, now: int) | Success(key: Subject)

  function MemoryRun(es: seq<AccountEvent>): Accounts {
    if es == [] then map[] else
      var accounts, e := MemoryRun(es[..|es| - 1]), es[|es| - 1];
      match e
      case Failure(key, now) => accounts[key := Worse(accounts, key, now)]
      case Success(key) => accounts - {key}
  }

  function SharedRun(es: seq<AccountEvent>): SharedRows {
    if es == [] then map[] else
      var rows, e := SharedRun(es[..|es| - 1]), es[|es| - 1];
      match e
      case Failure(key, now) => SharedFailed(rows, key, now)
      case Success(key) => rows - {key}
  }

  ghost predicate Ordered(es: seq<AccountEvent>) {
    forall i, j :: 0 <= i < j < |es| && es[i].Failure? && es[j].Failure? ==> es[i].now <= es[j].now
  }

  ghost predicate Until(es: seq<AccountEvent>, now: int) {
    forall i :: 0 <= i < |es| && es[i].Failure? ==> es[i].now <= now
  }

  /** The stored deadline is the one the shared row implies. */
  ghost predicate Agree(a: Account, row: SharedRow, now: int) {
    && a.failures == row.failures >= 1 && row.last <= now
    && a.until == if row.failures <= FAILURES_BEFORE_BACKOFF then None else Some(row.last + Delay(row.failures))
  }

  ghost predicate Corresponds(accounts: Accounts, rows: SharedRows, now: int) {
    accounts.Keys == rows.Keys && forall k :: k in accounts ==> Agree(accounts[k], rows[k], now)
  }

  lemma FailureCorresponds(accounts: Accounts, rows: SharedRows, key: Subject, now: int)
    requires Corresponds(accounts, rows, now)
    ensures Corresponds(accounts[key := Worse(accounts, key, now)], SharedFailed(rows, key, now), now)
  {
    var a, r := Worse(accounts, key, now), SharedFailed(rows, key, now)[key];
    assert Agree(a, r, now) by { if key in accounts { assert Agree(accounts[key], rows[key], now); } }
    assert accounts[key := a].Keys == SharedFailed(rows, key, now).Keys;
  }

  lemma {:induction false} RunsCorrespond(es: seq<AccountEvent>, now: int)
    requires Ordered(es) && Until(es, now)
    ensures Corresponds(MemoryRun(es), SharedRun(es), now)
  {
    if es != [] {
      var front, e := es[..|es| - 1], es[|es| - 1];
      assert Ordered(front);
      if e.Failure? {
        RunsCorrespond(front, e.now);
        FailureCorresponds(MemoryRun(front), SharedRun(front), e.key, e.now);
      } else {
        RunsCorrespond(front, now);
      }
    }
  }

  /** Over every sequence of failures and successes under one clock, both forms
      give the same delay and the same threshold report. */
  lemma BackoffAgreement(es: seq<AccountEvent>, key: Subject, now: int)
    requires Ordered(es) && Until(es, now)
    ensures MemoryDelay(MemoryRun(es), key, now) == SharedDelay(SharedRun(es), key, now)
    ensures Failures(MemoryRun(es), key) == SharedFailures(SharedRun(es), key)
  {
    RunsCorrespond(es, now);
  }

  /** Without an eviction, recording a failure is the step the agreement speaks of. */
  lemma RecordedIsRun(es: seq<AccountEvent>, key: Subject, now: int, accounts': Accounts, crossed: bool,
      forgot: Option<Subject>)
    requires Recorded(MemoryRun(es), key, now, accounts', crossed, forgot)
    requires key in MemoryRun(es) || |MemoryRun(es)| < MAX_TRACKED
    requires Ordered(es) && Until(es, now)
    ensures accounts' == MemoryRun(es + [Failure(key, now)])
    ensures crossed <==> SharedFailures(SharedRun(es + [Failure(key, now)]), key) == FAILURES_BEFORE_BACKOFF + 1
  {
    assert (es + [Failure(key, now)])[..|es|] == es;
    RunsCorrespond(es, now);
  }
}
