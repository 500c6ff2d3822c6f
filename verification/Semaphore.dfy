/** The verification budget: how many slots a configuration yields, and the slot
    protocol of concurrent admissions and their releases. */
module Semaphore {
  import opened Options

  const DEFAULT_BUDGET_MIB := 272
  const HEADROOM_MIB := 16
  const MAX_CONCURRENCY := 8
  const QUEUE_DEPTH := 16
  const PER_IP_PER_MINUTE := 10
  const META_PER_IP_PER_MINUTE := 60

  datatype Config = Config(budgetMiB: int, argonKiB: nat, perIP: int)

  datatype Limits = Limits(concurrency: nat, perIP: int, discoveryPerIP: int)

  function Budget(cfg: Config): int { if cfg.budgetMiB <= 0 then DEFAULT_BUDGET_MIB else cfg.budgetMiB }

  function ArgonMiB(cfg: Config): nat { (cfg.argonKiB + 1023) / 1024 }

  /** n verifications together with the headroom fit the budget. */
  ghost predicate Fits(cfg: Config, n: nat) { n * ArgonMiB(cfg) <= Budget(cfg) - HEADROOM_MIB }

  lemma QuotientFits(total: nat, each: nat)
    requires 0 < each
    ensures (total / each) * each <= total < (total / each + 1) * each
  {
    var q := total / each;
    assert total == q * each + total % each;
    assert (q + 1) * each == q * each + each;
  }

  lemma FewerFit(m: nat, n: nat, each: nat)
    requires m <= n
    ensures m * each <= n * each
  {
    assert n * each == m * each + (n - m) * each;
    assert 0 <= (n - m) * each;
  }

  /** A configuration is refused exactly when a single verification cannot fit;
      otherwise as many slots as fit, up to the cap. */
  method Derive(cfg: Config) returns (r: Option<Limits>)
    ensures r.Some? <==> 0 < cfg.argonKiB && Fits(cfg, 1)
    ensures r.Some? ==> 1 <= r.value.concurrency <= MAX_CONCURRENCY && Fits(cfg, r.value.concurrency)
    ensures r.Some? ==> r.value.concurrency == MAX_CONCURRENCY || !Fits(cfg, r.value.concurrency + 1)
    ensures r.Some? ==> 1 <= r.value.perIP <= r.value.discoveryPerIP && META_PER_IP_PER_MINUTE <= r.value.discoveryPerIP
    ensures r.Some? && 0 < cfg.perIP ==> r.value.perIP == cfg.perIP
    ensures r.Some? && cfg.perIP <= 0 ==> r.value.perIP == PER_IP_PER_MINUTE
  {
    var budget := if cfg.budgetMiB <= 0 then DEFAULT_BUDGET_MIB else cfg.budgetMiB;
    if cfg.argonKiB == 0 { return None; }
    var argon := (cfg.argonKiB + 1023) / 1024;
    if budget < argon + HEADROOM_MIB { return None; }
    var concurrency := (budget - HEADROOM_MIB) / argon;
    QuotientFits(budget - HEADROOM_MIB, argon);
    if concurrency < 1 { FewerFit(concurrency + 1, 1, argon); }
    if MAX_CONCURRENCY < concurrency {
      FewerFit(MAX_CONCURRENCY, concurrency, argon);
      concurrency := MAX_CONCURRENCY;
    }
    if concurrency < 1 { concurrency := 1; }
    var perIP := if cfg.perIP <= 0 then PER_IP_PER_MINUTE else cfg.perIP;
    var discovery := if META_PER_IP_PER_MINUTE < perIP then perIP else META_PER_IP_PER_MINUTE;
    return Some(Limits(concurrency, perIP, discovery));
  }

  // ---- The slot protocol -----------------------------------------------------------------

  /** A caller: the generation and the request it belongs to. */
  type Caller = (nat, nat)

  /** The callers that hold the lifecycle lock for reading, the free slots in the
      channel, the waiter count, the callers still waiting or about to leave the
      queue, and the leases whose release has not run yet. */
  datatype State = State(concurrency: nat, operations: set<Caller>, free: nat, waiting: int,
    queued: set<Caller>, leaving: set<Caller>, leases: set<nat>, issued: nat)

  datatype Action =
    | Begin(caller: Caller)
    | Enqueue(caller: Caller)
    | Acquire(caller: Caller)
    | GiveUp(caller: Caller)
    | Dequeue(caller: Caller)
    | End(caller: Caller)
    | Release(lease: nat)

  function Start(concurrency: nat): State { State(concurrency, {}, concurrency, 0, {}, {}, {}, 0) }

  /** Enqueue refuses a full queue.  Acquire takes a slot that is free.  A caller lets
      go of the lifecycle lock only after it has left the queue.  A lease may be
      released any number of times; only the first returns the slot. */
  function Apply(s: State, a: Action): State {
    match a
    case Begin(c) => s.(operations := s.operations + {c})
    case Enqueue(c) =>
      if c !in s.operations || c in s.queued + s.leaving || QUEUE_DEPTH <= s.waiting then s
      else s.(waiting := s.waiting + 1, queued := s.queued + {c})
    case Acquire(c) =>
      if c !in s.queued || s.free == 0 then s
      else s.(free := s.free - 1, queued := s.queued - {c}, leaving := s.leaving + {c},
              leases := s.leases + {s.issued}, issued := s.issued + 1)
    case GiveUp(c) =>
      if c !in s.queued then s else s.(queued := s.queued - {c}, leaving := s.leaving + {c})
    case Dequeue(c) =>
      if c !in s.leaving then s else s.(waiting := s.waiting - 1, leaving := s.leaving - {c})
    case End(c) => if c in s.queued + s.leaving then s else s.(operations := s.operations - {c})
    case Release(l) =>
      if l !in s.leases then s else s.(free := s.free + 1, leases := s.leases - {l})
  }

  function Run(s: State, actions: seq<Action>): State {
    if actions == [] then s else Apply(Run(s, actions[..|actions| - 1]), actions[|actions| - 1])
  }

  ghost predicate Inv(s: State) {
    && s.free + |s.leases| == s.concurrency
    && s.queued !! s.leaving && s.waiting == |s.queued| + |s.leaving| && s.waiting <= QUEUE_DEPTH
    && s.queued + s.leaving <= s.operations
    && forall l :: l in s.leases ==> l < s.issued
  }

  lemma SlotInv(s: State, a: Action)
    requires Inv(s) && (a.Acquire? || a.Release?)
    ensures Inv(Apply(s, a))
  {
    if a.Acquire? && a.caller in s.queued {
      assert |s.queued - {a.caller}| == |s.queued| - 1 && |s.leaving + {a.caller}| == |s.leaving| + 1;
      assert s.issued !in s.leases;
    }
  }

  lemma QueueInv(s: State, a: Action)
    requires Inv(s) && (a.Enqueue? || a.GiveUp? || a.Dequeue?)
    ensures Inv(Apply(s, a))
  {
    var c := a.caller;
    if a.GiveUp? && c in s.queued { assert |s.queued - {c}| == |s.queued| - 1 && |s.leaving + {c}| == |s.leaving| + 1; }
  }

  /** Only the acting caller can come to be inside. */
  lemma ApplyOperations(s: State, a: Action)
    ensures Apply(s, a).operations <= s.operations + if a.Release? then {} else {a.caller}
  {
  }

  lemma ApplyInv(s: State, a: Action)
    requires Inv(s)
    ensures Inv(Apply(s, a)) && Apply(s, a).concurrency == s.concurrency
  {
    if a.Acquire? || a.Release? { SlotInv(s, a); }
    if a.Enqueue? || a.GiveUp? || a.Dequeue? { QueueInv(s, a); }
  }

  /** The state of a caller's arrival in the queue. */
  function Arrived(s: State, c: Caller): State {
    s.(operations := s.operations + {c}, waiting := s.waiting + 1, queued := s.queued + {c})
  }

  lemma ArrivedIs(s: State, c: Caller)
    requires Inv(s) && c !in s.operations && s.waiting < QUEUE_DEPTH
    ensures Arrived(s, c) == Apply(Apply(s, Begin(c)), Enqueue(c)) && Inv(Arrived(s, c))
  {
    ApplyInv(s, Begin(c));
    ApplyInv(Apply(s, Begin(c)), Enqueue(c));
  }

  /** A caller leaves the queue with a slot or without, and ends. */
  function Departed(s: State, c: Caller, cancelled: bool): State {
    Apply(Apply(Apply(s, if cancelled then GiveUp(c) else Acquire(c)), Dequeue(c)), End(c))
  }

  lemma DepartedInv(s: State, c: Caller, cancelled: bool)
    requires Inv(s)
    ensures Inv(Departed(s, c, cancelled)) && Departed(s, c, cancelled).concurrency == s.concurrency
  {
    var first := if cancelled then GiveUp(c) else Acquire(c);
    ApplyInv(s, first);
    ApplyInv(Apply(s, first), Dequeue(c));
    ApplyInv(Apply(Apply(s, first), Dequeue(c)), End(c));
  }

  lemma DepartedIs(s: State, c: Caller, cancelled: bool)
    requires c in s.queued && c !in s.leaving && (cancelled || 0 < s.free)
    ensures Departed(s, c, cancelled) ==
      (if cancelled then s else s.(free := s.free - 1, leases := s.leases + {s.issued}, issued := s.issued + 1))
      .(waiting := s.waiting - 1, queued := s.queued - {c}, operations := s.operations - {c})
  {
    var taken := if cancelled then s
      else s.(free := s.free - 1, leases := s.leases + {s.issued}, issued := s.issued + 1);
    var first := Apply(s, if cancelled then GiveUp(c) else Acquire(c));
    assert first == taken.(queued := s.queued - {c}, leaving := s.leaving + {c});
    assert first.leaving - {c} == s.leaving;
  }

  lemma {:induction false} RunInv(concurrency: nat, actions: seq<Action>)
    ensures Inv(Run(Start(concurrency), actions)) && Run(Start(concurrency), actions).concurrency == concurrency
  {
    if actions != [] {
      RunInv(concurrency, actions[..|actions| - 1]);
      ApplyInv(Run(Start(concurrency), actions[..|actions| - 1]), actions[|actions| - 1]);
    }
  }

  /** Over every interleaving: slots are conserved however often releases run, a
      release that counts finds room in the channel, and waiters are bounded. */
  lemma SlotsConserved(concurrency: nat, actions: seq<Action>)
    ensures
      var s := Run(Start(concurrency), actions);
      && s.free + |s.leases| == concurrency && 0 <= s.waiting <= QUEUE_DEPTH
      && (s.leases != {} ==> s.free < concurrency)
  {
    RunInv(concurrency, actions);
  }

  /** The unreleased verifications of an accepted configuration fit its budget. */
  lemma MemoryBound(cfg: Config, limits: Limits, actions: seq<Action>)
    requires Fits(cfg, limits.concurrency)
    ensures
      var s := Run(Start(limits.concurrency), actions);
      Fits(cfg, |s.leases|) && |s.leases| * cfg.argonKiB <= (Budget(cfg) - HEADROOM_MIB) * 1024
  {
    RunInv(limits.concurrency, actions);
    var n := |Run(Start(limits.concurrency), actions).leases|;
    FewerFit(n, limits.concurrency, ArgonMiB(cfg));
    KibibytesFit(n, cfg.argonKiB, ArgonMiB(cfg), Budget(cfg) - HEADROOM_MIB);
  }

  lemma KibibytesFit(n: nat, kib: nat, mib: nat, total: int)
    requires kib <= mib * 1024 && n * mib <= total
    ensures n * kib <= total * 1024
  {
    FewerFit(kib, mib * 1024, n);
    calc { n * kib; == kib * n; <= (mib * 1024) * n; == (n * mib) * 1024; <= total * 1024; }
  }

  /** What a handoff inspects: the lifecycle lock, the waiters and the slots. */
  predicate AtRest(s: State) {
    s.operations == {} && s.waiting == 0 && s.free == s.concurrency
  }

  /** A limiter is at rest exactly when no operation is in progress and every lease
      has been released: a waiter always holds the lifecycle lock. */
  lemma AtRestExactly(s: State)
    requires Inv(s)
    ensures AtRest(s) <==> s.operations == {} && s.leases == {}
  {
    if s.operations == {} { assert s.queued == {} && s.leaving == {}; }
  }

  /** The same of every run. */
  lemma QuiescentExactly(concurrency: nat, actions: seq<Action>)
    ensures
      var s := Run(Start(concurrency), actions);
      AtRest(s) <==> s.operations == {} && s.leases == {}
  {
    RunInv(concurrency, actions);
    AtRestExactly(Run(Start(concurrency), actions));
  }
}
