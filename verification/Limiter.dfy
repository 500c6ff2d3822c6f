/** One generation's admission state and its handoff to a replacement. */
module Limiter {
  import opened Options
  import opened Numbers
  import opened Tracking
  import opened Windows
  import S = SharedWindows
  import B = Backoff
  import Semaphore

  const ISSUER_REFRESH_PER_MINUTE := 5
  const RETRY_AFTER := 5 * SECOND

  /** The installation-wide counters.  Calls may fail, with or without effect. */
  class SharedStore {
    const comparable: bool
    var ipHits: S.Counters
    var metaHits: S.Counters
    var issuerHits: S.Counters
    var accounts: B.SharedRows
  }

  datatype Handoff = Inherited | NotDistinct | NotQuiescent | CountersNotEmpty | SharedBackendChanged

  /** The answer to a handoff, from what it looks at in turn. */
  function Verdict(distinct: bool, previousAtRest: bool, atRest: bool, unused: bool, backendKept: bool): Handoff {
    if !distinct then NotDistinct
    else if !previousAtRest || !atRest then NotQuiescent
    else if !unused then CountersNotEmpty
    else if !backendKept then SharedBackendChanged
    else Inherited
  }

  /** A candidate brings no backend, or the very one in use. */
  predicate BackendKept(candidate: SharedStore?, previous: SharedStore?) {
    candidate == null || (candidate.comparable && candidate == previous)
  }

  /** Copies one subject's instants into a slice of its own. */
  method CloneHits(hits: array<int>) returns (copy: array<int>)
    ensures fresh(copy) && copy[..] == hits[..]
  {
    copy := new int[hits.Length];
    for i := 0 to hits.Length
      invariant copy[..i] == hits[..i]
    {
      copy[i] := hits[i];
    }
  }

  /** Copies every subject's slice.  Writing through the copy or through the original
      afterwards never shows in the other. */
  method CloneWindows(previous: map<string, array<int>>) returns (out: map<string, array<int>>)
    ensures out.Keys == previous.Keys
    ensures forall k :: k in out ==> fresh(out[k]) && out[k][..] == previous[k][..]
    ensures forall k, l :: k in out && l in out && k != l ==> out[k] != out[l]
  {
    out := map[];
    var rest := previous.Keys;
    while rest != {}
      invariant rest <= previous.Keys && out.Keys == previous.Keys - rest
      invariant forall k :: k in out ==> fresh(out[k]) && out[k][..] == previous[k][..]
      invariant forall k, l :: k in out && l in out && k != l ==> out[k] != out[l]
    {
      var k :| k in rest;
      rest := rest - {k};
      var hits := CloneHits(previous[k]);
      out := out[k := hits];
    }
  }

  class AdmissionLimiter {
    const limits: Semaphore.Limits
    var shared: SharedStore?
    var slots: Semaphore.State
    var ipHits: Bucket
    var metaHits: Bucket
    var issuerRefreshes: Bucket
    var accounts: B.Accounts

    ghost predicate Valid()
      reads this
    {
      && 1 <= limits.perIP && 1 <= limits.discoveryPerIP
      && slots.concurrency == limits.concurrency && Semaphore.Inv(slots)
      && Bounded(ipHits) && Bounded(metaHits) && Bounded(issuerRefreshes) && |accounts| <= MAX_TRACKED
    }

    /** Nothing counted yet. */
    predicate Unused()
      reads this
    {
      ipHits == map[] && metaHits == map[] && issuerRefreshes == map[] && accounts == map[]
    }

    constructor (limits: Semaphore.Limits)
      requires 1 <= limits.perIP && 1 <= limits.discoveryPerIP
      ensures Valid() && Unused() && slots == Semaphore.Start(limits.concurrency) && shared == null
      ensures this.limits == limits
    {
      this.limits := limits;
      shared, slots := null, Semaphore.Start(limits.concurrency);
      ipHits, metaHits, issuerRefreshes, accounts := map[], map[], map[], map[];
    }

    /** Attaches the installation-wide counters; slots and memory counters stay. */
    method UseShared(store: SharedStore)
      requires Valid()
      modifies this`shared
      ensures Valid() && shared == store
    {
      shared := store;
    }

    /** One attempt that can run a verification. */
    method AllowIP(ip: string, now: int, failed: bool, landed: bool) returns (ok: bool, ghost forgot: Option<string>)
      requires Valid()
      modifies this`ipHits, if shared == null then {} else {shared}
      ensures Valid()
      ensures shared == null ==> Charged(old(ipHits), ip, limits.perIP, now, ipHits, ok, forgot)
      ensures shared != null ==>
        && ipHits == old(ipHits) && shared.ipHits == S.After(old(shared.ipHits), S.Bump(ip, now, failed, landed))
        && shared.metaHits == old(shared.metaHits) && shared.issuerHits == old(shared.issuerHits)
        && shared.accounts == old(shared.accounts)
        && (ok <==> S.Admits(old(shared.ipHits), S.Bump(ip, now, failed, landed), limits.perIP))
    {
      if shared != null {
        var c;
        c, ok := AllowShared(shared.ipHits, ip, limits.perIP, now, failed, landed);
        shared.ipHits := c;
        return ok, None;
      }
      ghost var was := ipHits;
      ipHits, ok, forgot := AllowIn(ipHits, ip, limits.perIP, now);
      ChargedBounded(was, ip, limits.perIP, now, ipHits, ok, forgot);
    }

    /** Takes the lifecycle lock and a place in the queue, if there is one; a refused
        caller has let go of the lock. */
    method Arrive(c: Semaphore.Caller) returns (queued: bool)
      requires Valid() && c !in slots.operations
      modifies this`slots
      ensures Valid() && (queued <==> old(slots.waiting) < Semaphore.QUEUE_DEPTH)
      ensures slots == if queued then Semaphore.Arrived(old(slots), c) else old(slots)
    {
      if slots.waiting >= Semaphore.QUEUE_DEPTH { return false; }
      Semaphore.ArrivedIs(slots, c);
      slots := slots.(operations := slots.operations + {c}, waiting := slots.waiting + 1, queued := slots.queued + {c});
      return true;
    }

    /** One unauthenticated discovery request. */
    method AllowDiscovery(ip: string, now: int, failed: bool, landed: bool)
      returns (ok: bool, ghost forgot: Option<string>)
      requires Valid()
      modifies this`metaHits, if shared == null then {} else {shared}
      ensures Valid()
      ensures shared == null ==> Charged(old(metaHits), ip, limits.discoveryPerIP, now, metaHits, ok, forgot)
      ensures shared != null ==>
        && metaHits == old(metaHits)
        && shared.metaHits == S.After(old(shared.metaHits), S.Bump(ip, now, failed, landed))
        && shared.ipHits == old(shared.ipHits) && shared.issuerHits == old(shared.issuerHits)
        && shared.accounts == old(shared.accounts)
        && (ok <==> S.Admits(old(shared.metaHits), S.Bump(ip, now, failed, landed), limits.discoveryPerIP))
    {
      if shared != null {
        var c;
        c, ok := AllowShared(shared.metaHits, ip, limits.discoveryPerIP, now, failed, landed);
        shared.metaHits := c;
        return ok, None;
      }
      ghost var was := metaHits;
      metaHits, ok, forgot := AllowIn(metaHits, ip, limits.discoveryPerIP, now);
      ChargedBounded(was, ip, limits.discoveryPerIP, now, metaHits, ok, forgot);
    }

    /** One outbound key refresh for an issuer. */
    method AllowIssuerRefresh(issuer: string, now: int, failed: bool, landed: bool)
      returns (ok: bool, ghost forgot: Option<string>)
      requires Valid()
      modifies this`issuerRefreshes, if shared == null then {} else {shared}
      ensures Valid()
      ensures shared == null ==>
        Charged(old(issuerRefreshes), issuer, ISSUER_REFRESH_PER_MINUTE, now, issuerRefreshes, ok, forgot)
      ensures shared != null ==>
        && issuerRefreshes == old(issuerRefreshes)
        && shared.issuerHits == S.After(old(shared.issuerHits), S.Bump(issuer, now, failed, landed))
        && shared.ipHits == old(shared.ipHits) && shared.metaHits == old(shared.metaHits)
        && shared.accounts == old(shared.accounts)
        && (ok <==> S.Admits(old(shared.issuerHits), S.Bump(issuer, now, failed, landed), ISSUER_REFRESH_PER_MINUTE))
    {
      if shared != null {
        var c;
        c, ok := AllowShared(shared.issuerHits, issuer, ISSUER_REFRESH_PER_MINUTE, now, failed, landed);
        shared.issuerHits := c;
        return ok, None;
      }
      ghost var was := issuerRefreshes;
      issuerRefreshes, ok, forgot := AllowIn(issuerRefreshes, issuer, ISSUER_REFRESH_PER_MINUTE, now);
      ChargedBounded(was, issuer, ISSUER_REFRESH_PER_MINUTE, now, issuerRefreshes, ok, forgot);
    }

    /** A failed verification; reports whether the backoff threshold was crossed. */
    method RecordFailure(key: B.Subject, now: int, failed: bool, landed: bool)
      returns (crossed: bool, ghost forgot: Option<B.Subject>)
      requires Valid()
      modifies this`accounts, if shared == null then {} else {shared}
      ensures Valid()
      ensures shared == null ==> B.Recorded(old(accounts), key, now, accounts, crossed, forgot)
      ensures shared != null ==>
        && accounts == old(accounts) && unchanged(shared`ipHits, shared`metaHits, shared`issuerHits)
        && shared.accounts ==
          (if !failed || landed then B.SharedFailed(old(shared.accounts), key, now) else old(shared.accounts))
        && (crossed <==> !failed && B.SharedFailures(old(shared.accounts), key) == B.FAILURES_BEFORE_BACKOFF)
    {
      forgot := None;
      if shared != null {
        crossed := RecordShared(shared, key, now, failed, landed);
        return;
      }
      crossed, forgot := RecordLocal(key, now);
    }

    method RecordLocal(key: B.Subject, now: int) returns (crossed: bool, ghost forgot: Option<B.Subject>)
      requires |accounts| <= MAX_TRACKED
      modifies this`accounts
      ensures |accounts| <= MAX_TRACKED && B.Recorded(old(accounts), key, now, accounts, crossed, forgot)
    {
      accounts, crossed, forgot := B.RecordFailure(accounts, key, now);
      B.RecordedBounded(old(accounts), key, now, accounts, crossed, forgot);
    }

    /** A successful verification resets the curve. */
    method RecordSuccess(key: B.Subject, failed: bool, landed: bool)
      requires Valid()
      modifies this`accounts, if shared == null then {} else {shared}
      ensures Valid()
      ensures shared == null ==> accounts == old(accounts) - {key}
      ensures shared != null ==>
        && accounts == old(accounts) && unchanged(shared`ipHits, shared`metaHits, shared`issuerHits)
        && shared.accounts == if !failed || landed then old(shared.accounts) - {key} else old(shared.accounts)
    {
      if shared != null {
        if !failed || landed { shared.accounts := shared.accounts - {key}; }
        return;
      }
      accounts := accounts - {key};
      assert accounts.Keys <= old(accounts).Keys;
      Subset(accounts.Keys, old(accounts).Keys);
    }

    /** How long an attempt on the account must wait. */
    method AccountDelay(key: B.Subject, now: int, failed: bool) returns (d: int)
      ensures shared == null ==> d == B.MemoryDelay(accounts, key, now)
      ensures shared != null ==> d == if failed then RETRY_AFTER else B.SharedDelay(shared.accounts, key, now)
    {
      if shared != null {
        if failed { return RETRY_AFTER; }
        if key !in shared.accounts { return 0; }
        var deadline := shared.accounts[key].last + B.Delay(shared.accounts[key].failures);
        return if deadline - now > 0 then deadline - now else 0;
      }
      if key !in accounts || accounts[key].until.None? { return 0; }
      var left := accounts[key].until.value - now;
      return if left > 0 then left else 0;
    }

    /** The second half: a slot or, when the caller gives up, none; either way the
        caller leaves the queue and then lets go of the lifecycle lock. */
    method Depart(c: Semaphore.Caller, cancelled: bool) returns (lease: Option<nat>)
      requires Valid() && c in slots.queued && (cancelled || 0 < slots.free)
      modifies this`slots
      ensures Valid() && slots == Semaphore.Departed(old(slots), c, cancelled)
      ensures lease == if cancelled then None else Some(old(slots.issued))
    {
      Semaphore.DepartedInv(slots, c, cancelled);
      Semaphore.DepartedIs(slots, c, cancelled);
      lease := None;
      if !cancelled {
        lease := Some(slots.issued);
        slots := slots.(free := slots.free - 1, leases := slots.leases + {slots.issued}, issued := slots.issued + 1);
      }
      slots := slots.(waiting := slots.waiting - 1, queued := slots.queued - {c}, operations := slots.operations - {c});
    }

    /** The release function of a lease, however often it is called. */
    method Release(lease: nat)
      requires Valid()
      modifies this`slots
      ensures Valid() && lease !in slots.leases
      ensures slots ==
        if lease in old(slots.leases)
        then old(slots).(free := old(slots.free) + 1, leases := old(slots.leases) - {lease}) else old(slots)
    {
      Semaphore.ApplyInv(slots, Semaphore.Release(lease));
      slots := Semaphore.Apply(slots, Semaphore.Release(lease));
    }

    /** Carries the counters of the previous generation into this unused one. */
    method InheritCounters(previous: AdmissionLimiter) returns (r: Handoff)
      requires Valid() && previous.Valid()
      modifies this`ipHits, this`metaHits, this`issuerRefreshes, this`accounts, this`shared
      ensures Valid()
      ensures r ==
        Verdict(this != previous, Semaphore.AtRest(previous.slots), Semaphore.AtRest(slots), old(Unused()),
        BackendKept(old(shared), old(previous.shared)))
      ensures r == Inherited ==>
        && ipHits == previous.ipHits && metaHits == previous.metaHits && issuerRefreshes == previous.issuerRefreshes
        && accounts == previous.accounts && shared == previous.shared
      ensures r != Inherited ==>
        && ipHits == old(ipHits) && metaHits == old(metaHits) && issuerRefreshes == old(issuerRefreshes)
        && accounts == old(accounts) && shared == old(shared)
    {
      if this == previous { return NotDistinct; }
      if previous.slots.operations != {} || slots.operations != {} { return NotQuiescent; }
      if previous.slots.waiting != 0 || slots.waiting != 0 || previous.slots.free != previous.limits.concurrency ||
        slots.free != limits.concurrency {
        return NotQuiescent;
      }
      if |ipHits| != 0 || |metaHits| != 0 || |issuerRefreshes| != 0 || |accounts| != 0 { return CountersNotEmpty; }
      if shared != null && (!shared.comparable || shared != previous.shared) { return SharedBackendChanged; }
      ipHits, metaHits, issuerRefreshes := previous.ipHits, previous.metaHits, previous.issuerRefreshes;
      accounts := previous.accounts;
      shared := previous.shared;
      return Inherited;
    }
  }

  /** Records a failure in the shared row; an error reports no crossing. */
  method RecordShared(store: SharedStore, key: B.Subject, now: int, failed: bool, landed: bool) returns (crossed: bool)
    modifies store`accounts
    ensures store.accounts ==
      if !failed || landed then B.SharedFailed(old(store.accounts), key, now) else old(store.accounts)
    ensures crossed <==> !failed && B.SharedFailures(old(store.accounts), key) == B.FAILURES_BEFORE_BACKOFF
  {
    var rows := B.SharedFailed(store.accounts, key, now);
    if !failed || landed { store.accounts := rows; }
    return !failed && rows[key].failures == B.FAILURES_BEFORE_BACKOFF + 1;
  }

  /** Charges one hit in the shared window; a failed increment refuses. */
  method AllowShared(c: S.Counters, subject: string, allowance: int, now: int, failed: bool, landed: bool)
    returns (c': S.Counters, ok: bool)
    ensures c' == S.After(c, S.Bump(subject, now, failed, landed))
    ensures ok <==> S.Admits(c, S.Bump(subject, now, failed, landed), allowance)
  {
    if subject == "" { return c, true; }
    var window := now / MINUTE;
    var count := S.Hits(c, subject, window) + 1;
    c' := if !failed || landed then c[(subject, window) := count] else c;
    ok := !failed && count <= allowance;
  }

  /** Draining the previous generation is enough: with no operation in progress and
      its leases back, an unused replacement that keeps the backend inherits. */
  lemma DrainedInherits(previous: AdmissionLimiter, candidate: AdmissionLimiter)
    requires previous.Valid() && candidate.Valid() && candidate != previous
    requires previous.slots.operations == {} && previous.slots.leases == {} && candidate.slots.operations == {}
    requires candidate.slots.leases == {}
    ensures
      var r := Verdict(true, Semaphore.AtRest(previous.slots), Semaphore.AtRest(candidate.slots), candidate.Unused(),
        BackendKept(candidate.shared, previous.shared));
      r != NotQuiescent && (candidate.Unused() && BackendKept(candidate.shared, previous.shared) ==> r == Inherited)
  {
    Semaphore.AtRestExactly(previous.slots);
    Semaphore.AtRestExactly(candidate.slots);
  }
}
