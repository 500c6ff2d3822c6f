/** Replacing the running application graph under live traffic: requests, workers,
    concurrent activations that fence, drain, hand the admission counters over and
    swap or resume, and the final stop.

    Every action is one critical section of the source, taken by any goroutine in
    any order; an action that is not enabled changes nothing. */
module Generation {
  import opened Options
  import Semaphore
  import Limiter

  /** A prepared application graph and the configuration values it was built from. */
  datatype Graph = Graph(id: nat, values: nat)

  datatype Workers = NotStarted | Running | Stopped

  datatype Gen = Gen(graph: Graph, requests: set<nat>, workers: Workers)

  datatype Phase = Idle | Draining | Joining | Joined | Handed

  /** A prepared activation; `open` until its graph is closed unused.  `pool` says that
      it also replaces the connection pool, which may fail after the handoff. */
  datatype Activation = Activation(graph: Graph, previous: nat, phase: Phase, used: bool, open: bool, pool: bool)

  /** A shared counter backend; only comparable ones can be recognised. */
  datatype Backend = Backend(id: nat, comparable: bool)

  /** Who holds the change mutex. */
  datatype Holder = Nobody | Activating(p: nat) | Stopping

  /** Generations ever created, the served one, the served values, the fences,
      whether the shutdown has begun, the change mutex, the prepared activations,
      the admission limiter of each graph and its shared backend, and the graphs whose
      limiter may have counted or inherited something. */
  datatype State = State(
    gens: seq<Gen>, current: nat, values: nat,
    transitioning: bool, closed: bool, stopped: bool, serving: bool, ending: bool,
    holder: Holder, activations: map<nat, Activation>, nextGraph: nat,
    limiters: map<nat, Semaphore.State>, backends: map<nat, Option<Backend>>, counted: set<nat>)

  datatype Action =
    | Serve
    | StartRequest(r: nat)
    | FinishRequest(g: nat, r: nat)
    | Limit(g: nat, step: Semaphore.Action)
    | WorkersExit(g: nat)
    | Prepare(p: nat, values: nat, concurrency: nat, pool: bool, backend: Option<Backend>)
    | ClosePrepared(p: nat)
    | Activate(p: nat)
    | Abandon(p: nat)
    | Cancel(p: nat)
    | Join(p: nat)
    | Inherit(p: nat)
    | Refuse(p: nat)
    | Install(p: nat)
    | FenceForShutdown
    | Stop
    | StopJoined

  /** What the process starts with. */
  datatype Boot = Boot(values: nat, concurrency: nat, backend: Option<Backend>)

  function Initial(boot: Boot): State {
    State([Gen(Graph(0, boot.values), {}, NotStarted)], 0, boot.values, false, false, false, false, false, Nobody,
          map[], 1, map[0 := Semaphore.Start(boot.concurrency)], map[0 := boot.backend], {})
  }

  predicate Quiet(g: Gen) { g.requests == {} && g.workers != Running }

  /** The generation has a request or a worker. */
  predicate LiveGen(g: Gen) { !Quiet(g) }

  predicate AtPhase(s: State, p: nat, phase: Phase) {
    s.holder == Activating(p) && p in s.activations && s.activations[p].phase == phase && s.current < |s.gens|
  }

  function SetPhase(s: State, p: nat, phase: Phase): State
    requires p in s.activations
  {
    s.(activations := s.activations[p := s.activations[p].(phase := phase)])
  }

  /** A new generation of the graph becomes current, with workers once serving. */
  function Launch(s: State, graph: Graph): State {
    s.(gens := s.gens + [Gen(graph, {}, if s.serving then Running else NotStarted)], current := |s.gens|)
  }

  function DoActivate(s: State, p: nat): State {
    if s.holder != Nobody || p !in s.activations || s.activations[p].used || !s.activations[p].open || s.closed then s
    else if s.values == s.activations[p].graph.values
      then s.(activations := s.activations[p := s.activations[p].(used := true)])
    else if s.current != s.activations[p].previous then s
    else SetPhase(s, p, Draining).(transitioning := true, holder := Activating(p))
  }

  /** After the join anything may still fail; after the handoff only the pool. */
  predicate MayRefuse(s: State, p: nat) {
    AtPhase(s, p, Joined) || (AtPhase(s, p, Handed) && s.activations[p].pool)
  }

  function DoResume(s: State, p: nat): State
    requires p in s.activations && s.current < |s.gens|
  {
    Launch(SetPhase(s, p, Idle), s.gens[s.current].graph).(transitioning := false, holder := Nobody)
  }

  function DoInstall(s: State, p: nat): State
    requires p in s.activations
  {
    var a := s.activations[p];
    Launch(s.(activations := s.activations[p := a.(phase := Idle, used := true)]), a.graph)
      .(values := a.graph.values, transitioning := false, holder := Nobody)
  }

  function LimiterOf(s: State, graph: nat): Semaphore.State {
    if graph in s.limiters then s.limiters[graph] else Semaphore.Start(0)
  }

  /** A live request of generation g takes a step on the limiter of its graph; a
      lease may be released by anyone at any time. */
  predicate MayLimit(s: State, g: nat, step: Semaphore.Action) {
    g < |s.gens| && (step.Release? || (step.caller.0 == g && step.caller.1 in s.gens[g].requests))
  }

  function DoLimit(s: State, g: nat, step: Semaphore.Action): State {
    if !MayLimit(s, g, step) then s
    else
      var graph := s.gens[g].graph.id;
      s.(limiters := s.limiters[graph := Semaphore.Apply(LimiterOf(s, graph), step)], counted := s.counted + {graph})
  }

  function BackendOf(s: State, graph: nat): Option<Backend> {
    if graph in s.backends then s.backends[graph] else None
  }

  /** A candidate leaves the backend unset or is configured with the very same one. */
  predicate Fits(candidate: Option<Backend>, previous: Option<Backend>) {
    candidate.None? || (candidate.value.comparable && candidate == previous)
  }

  /** What the handoff to the candidate of p answers. */
  function HandoffVerdict(s: State, p: nat): Limiter.Handoff
    requires p in s.activations && s.current < |s.gens|
  {
    var from, to := s.gens[s.current].graph.id, s.activations[p].graph.id;
    Limiter.Verdict(from != to, Semaphore.AtRest(LimiterOf(s, from)), Semaphore.AtRest(LimiterOf(s, to)),
                    to !in s.counted, Fits(BackendOf(s, to), BackendOf(s, from)))
  }

  function DoRequests(s: State, a: Action): State {
    match a
    case StartRequest(r) =>
      if s.closed || s.transitioning || s.current >= |s.gens| || r in s.gens[s.current].requests then s
      else s.(gens := s.gens[s.current := s.gens[s.current].(requests := s.gens[s.current].requests + {r})])
    case FinishRequest(g, r) =>
      if g >= |s.gens| || r !in s.gens[g].requests || (g, r) in LimiterOf(s, s.gens[g].graph.id).operations then s
      else s.(gens := s.gens[g := s.gens[g].(requests := s.gens[g].requests - {r})])
    case Limit(g, step) => DoLimit(s, g, step)
    case WorkersExit(g) =>
      if g >= |s.gens| || s.gens[g].workers != Running then s
        else s.(gens := s.gens[g := s.gens[g].(workers := Stopped)])
    case _ => s
  }

  function DoOwner(s: State, a: Action): State {
    match a
    case Serve =>
      if s.holder != Nobody || s.serving || s.closed || s.current >= |s.gens| then s
      else s.(serving := true, gens := s.gens[s.current := s.gens[s.current].(workers := Running)])
    case FenceForShutdown => if s.holder != Nobody then s else s.(transitioning := true, ending := true)
    case Stop => if s.holder != Nobody || s.stopped then s else s.(closed := true, holder := Stopping)
    case StopJoined =>
      if s.holder != Stopping || s.current >= |s.gens| || LiveGen(s.gens[s.current]) then s
        else s.(stopped := true, holder := Nobody)
    case _ => s
  }

  function Apply(s: State, a: Action): State {
    match a
    case Prepare(p, values, concurrency, pool, backend) =>
      if s.holder != Nobody || s.closed || p in s.activations || values == s.values then s
      else
        var graph := s.nextGraph;
        s.(activations := s.activations[p := Activation(Graph(graph, values), s.current, Idle, false, true, pool)],
           limiters := s.limiters[graph := Semaphore.Start(concurrency)], backends := s.backends[graph := backend],
           nextGraph := graph + 1)
    case ClosePrepared(p) =>
      if p !in s.activations || s.activations[p].phase != Idle then s
      else s.(activations := s.activations[p := s.activations[p].(open := false)])
    case Activate(p) => DoActivate(s, p)
    case Abandon(p) =>
      if !AtPhase(s, p, Draining) then s else SetPhase(s, p, Idle).(transitioning := false, holder := Nobody)
    case Cancel(p) => if !AtPhase(s, p, Draining) then s else SetPhase(s, p, Joining)
    case Join(p) => if !AtPhase(s, p, Joining) || LiveGen(s.gens[s.current]) then s else SetPhase(s, p, Joined)
    case Inherit(p) =>
      if !AtPhase(s, p, Joined) || HandoffVerdict(s, p) != Limiter.Inherited then s
      else
        var from, to := s.gens[s.current].graph.id, s.activations[p].graph.id;
        SetPhase(s, p, Handed).(counted := s.counted + {to}, backends := s.backends[to := BackendOf(s, from)])
    case Refuse(p) => if !MayRefuse(s, p) then s else DoResume(s, p)
    case Install(p) => if !AtPhase(s, p, Handed) then s else DoInstall(s, p)
    case Serve | FenceForShutdown | Stop | StopJoined => DoOwner(s, a)
    case _ => DoRequests(s, a)
  }

  function Run(s: State, actions: seq<Action>): State {
    if actions == [] then s else Apply(Run(s, actions[..|actions| - 1]), actions[|actions| - 1])
  }

  // ---- Invariant -------------------------------------------------------------------------

  /** Only the served generation may be live, and the values describe it. */
  ghost predicate Served(s: State) {
    && s.current < |s.gens| && s.values == s.gens[s.current].graph.values
    && (forall g :: 0 <= g < |s.gens| && g != s.current ==> Quiet(s.gens[g]))
    && (forall g :: 0 <= g < |s.gens| ==> s.gens[g].graph.id < s.nextGraph)
    && (s.stopped ==> s.closed && Quiet(s.gens[s.current]))
  }

  /** The holder of the change mutex has fenced the served generation, and has it
      drained from the join on. */
  ghost predicate Held(s: State) {
    && (s.holder == Stopping ==> s.closed)
    && (s.transitioning ==> s.holder.Activating? || s.ending)
    && (s.holder.Activating? ==>
      && s.holder.p in s.activations && s.current < |s.gens|
      && var a := s.activations[s.holder.p];
      && a.phase != Idle && !a.used && a.open && a.previous == s.current && s.transitioning && !s.stopped && !s.closed
      && (a.phase == Joined || a.phase == Handed ==> Quiet(s.gens[s.current])))
    && (forall p :: p in s.activations && s.activations[p].phase != Idle ==> s.holder == Activating(p))
  }

  /** A candidate's graph is its own, unserved until used, and inherits only once. */
  ghost predicate Candidates(s: State) {
    && (forall p :: p in s.activations ==>
      s.activations[p].previous <= s.current && s.activations[p].graph.id < s.nextGraph)
    && (forall p, q :: p in s.activations && q in s.activations && p != q ==>
      s.activations[p].graph.id != s.activations[q].graph.id)
    && (forall p, g :: p in s.activations && !s.activations[p].used && 0 <= g < |s.gens| ==>
      s.gens[g].graph.id != s.activations[p].graph.id)
    && (forall i :: i in s.counted ==> i < s.nextGraph)
    && (forall p :: p in s.activations && s.activations[p].graph.id in s.counted ==>
      s.activations[p].used || s.activations[p].phase == Handed || s.activations[p].previous != s.current)
  }

  /** Every graph has a limiter whose operations belong to live requests of that
      graph; the limiter of an unused candidate has seen nothing. */
  ghost predicate Limiters(s: State) { Known(s) && Ordered(s) && Fresh(s) }

  ghost predicate Known(s: State) { forall i :: i in s.limiters <==> 0 <= i < s.nextGraph }

  ghost predicate Ordered(s: State) { forall i :: i in s.limiters ==> LimiterInv(s, i) }

  ghost predicate Fresh(s: State) {
    forall p :: p in s.activations && !s.activations[p].used ==> Untouched(LimiterOf(s, s.activations[p].graph.id))
  }

  ghost predicate LimiterInv(s: State, i: nat) {
    && Semaphore.Inv(LimiterOf(s, i))
    && forall c :: c in LimiterOf(s, i).operations ==> LiveCaller(s, i, c)
  }

  predicate Untouched(l: Semaphore.State) { l.operations == {} && l.leases == {} }

  ghost predicate Core(s: State) { Served(s) && Held(s) && Candidates(s) }

  ghost predicate Inv(s: State) { Core(s) && Limiters(s) }

  // ---- Each action keeps the generations in order ------------------------------------------------

  /** Changing one generation's requests or workers. */
  lemma UpdateGenCore(s: State, g: nat, gen: Gen)
    requires Core(s) && g < |s.gens| && gen.graph == s.gens[g].graph
    requires Quiet(gen) || (g == s.current && LiveGen(s.gens[g])) ||
      (g == s.current && !s.closed && !s.holder.Activating?)
    ensures Core(s.(gens := s.gens[g := gen]))
  {
    var s' := s.(gens := s.gens[g := gen]);
    assert forall x :: 0 <= x < |s.gens| ==> s'.gens[x].graph == s.gens[x].graph;
    assert Served(s') && Held(s');
  }

  lemma RequestsCore(s: State, a: Action)
    requires Core(s)
    ensures Core(DoRequests(s, a))
  {
    match a
    case StartRequest(r) =>
      if !s.closed && !s.transitioning {
        UpdateGenCore(s, s.current, s.gens[s.current].(requests := s.gens[s.current].requests + {r}));
      }
    case FinishRequest(g, r) =>
      if g < |s.gens| && r in s.gens[g].requests {
        UpdateGenCore(s, g, s.gens[g].(requests := s.gens[g].requests - {r}));
      }
    case Limit(g, step) => if MayLimit(s, g, step) { LimitCore(s, g, step); }
    case WorkersExit(g) =>
      if g < |s.gens| && s.gens[g].workers == Running { UpdateGenCore(s, g, s.gens[g].(workers := Stopped)); }
    case _ =>
  }

  lemma LimitCore(s: State, g: nat, step: Semaphore.Action)
    requires Core(s) && MayLimit(s, g, step)
    ensures Core(DoLimit(s, g, step))
  {
    var s' := DoLimit(s, g, step);
    CandidatesKept(s, s');
    assert Served(s') && Held(s');
  }

  lemma ServeCore(s: State)
    requires Core(s) && s.holder == Nobody && !s.closed
    ensures Core(s.(serving := true, gens := s.gens[s.current := s.gens[s.current].(workers := Running)]))
  {
    UpdateGenCore(s, s.current, s.gens[s.current].(workers := Running));
  }

  lemma OwnerCore(s: State, a: Action)
    requires Core(s)
    ensures Core(DoOwner(s, a))
  {
    var s' := DoOwner(s, a);
    if a.Serve? {
      if s.holder == Nobody && !s.closed { ServeCore(s); }
    } else {
      assert Candidates(s');
    }
  }

  lemma ResumeCore(s: State, p: nat)
    requires Core(s) && MayRefuse(s, p)
    ensures Core(DoResume(s, p))
  {
  }

  lemma InstallCore(s: State, p: nat)
    requires Core(s) && AtPhase(s, p, Handed)
    ensures Core(DoInstall(s, p))
  {
  }

  lemma ApplyCore(s: State, a: Action)
    requires Core(s)
    ensures Core(Apply(s, a))
  {
    match a
    case Serve | FenceForShutdown | Stop | StopJoined => OwnerCore(s, a);
    case Refuse(p) => RefuseCore(s, p);
    case Install(p) => InstalledCore(s, p);
    case Inherit(p) => InheritCore(s, p);
    case Prepare(_, _, _, _, _) => if Apply(s, a) != s { PrepareCore(s, a); }
    case ClosePrepared(_) | Activate(_) | Abandon(_) | Cancel(_) | Join(_) => ActivationCore(s, a);
    case _ => RequestsCore(s, a);
  }

  lemma RefuseCore(s: State, p: nat)
    requires Core(s)
    ensures Core(Apply(s, Refuse(p)))
  {
    if MayRefuse(s, p) { ResumeCore(s, p); }
  }

  lemma InstalledCore(s: State, p: nat)
    requires Core(s)
    ensures Core(Apply(s, Install(p)))
  {
    if AtPhase(s, p, Handed) { InstallCore(s, p); }
  }

  lemma ActivationCore(s: State, a: Action)
    requires Core(s) && (a.ClosePrepared? || a.Activate? || a.Abandon? || a.Cancel? || a.Join?)
    ensures Core(Apply(s, a))
  {
    match a
    case Activate(p) =>
      if s.holder == Nobody && p in s.activations && !s.activations[p].used && s.activations[p].open && !s.closed {
        if s.values == s.activations[p].graph.values { RetireCore(s, p, true, true); }
        else if s.current == s.activations[p].previous { BeginCore(s, p); }
      }
    case ClosePrepared(p) =>
      if p in s.activations && s.activations[p].phase == Idle {
        RetireCore(s, p, s.activations[p].used, false);
      }
    case Abandon(p) => if AtPhase(s, p, Draining) { AbandonCore(s, p); }
    case Cancel(p) => if AtPhase(s, p, Draining) { PhaseCore(s, p, Joining); }
    case Join(p) => if AtPhase(s, p, Joining) && Quiet(s.gens[s.current]) { PhaseCore(s, p, Joined); }
  }

  lemma PrepareCore(s: State, a: Action)
    requires Core(s) && a.Prepare? && Apply(s, a) != s
    ensures Core(Apply(s, a))
  {
    var s' := Apply(s, a);
    PreparedCandidate(s, s', a.p);
    assert Served(s') && Held(s');
  }

  lemma PreparedCandidate(s: State, s': State, p: nat)
    requires Served(s) && Candidates(s) && p !in s.activations && s'.gens == s.gens && s'.current == s.current
    requires s'.counted == s.counted
    requires s'.nextGraph == s.nextGraph + 1 && p in s'.activations
    requires s'.activations == s.activations[p := s'.activations[p]]
    requires s'.activations[p].graph.id == s.nextGraph && s'.activations[p].previous == s.current
    requires !s'.activations[p].used
    ensures Candidates(s')
  {
  }

  /** Changing the phase of activations over an unchanged line of generations. */
  lemma CandidatesKept(s: State, s': State)
    requires Candidates(s) && s'.gens == s.gens && s'.current == s.current && s'.nextGraph == s.nextGraph
    requires s'.activations.Keys == s.activations.Keys
    requires forall p :: p in s.activations ==>
      && s'.activations[p].graph == s.activations[p].graph && s'.activations[p].previous == s.activations[p].previous
      && (s.activations[p].used ==> s'.activations[p].used)
    requires forall i :: i in s'.counted ==> i < s.nextGraph
    requires forall p :: p in s.activations && s.activations[p].graph.id in s'.counted ==>
      s'.activations[p].used || s'.activations[p].phase == Handed || s.activations[p].previous != s.current
    ensures Candidates(s')
  {
  }

  /** Retiring an idle activation, whether closed or found to change nothing. */
  lemma RetireCore(s: State, p: nat, used: bool, open: bool)
    requires Core(s) && p in s.activations && s.activations[p].phase == Idle && (s.activations[p].used ==> used)
    ensures Core(s.(activations := s.activations[p := s.activations[p].(used := used, open := open)]))
  {
    var s' := s.(activations := s.activations[p := s.activations[p].(used := used, open := open)]);
    CandidatesKept(s, s');
    assert Served(s') && Held(s');
  }

  lemma BeginCore(s: State, p: nat)
    requires Core(s) && s.holder == Nobody && p in s.activations && !s.activations[p].used && s.activations[p].open
    requires !s.closed
    requires s.current == s.activations[p].previous
    ensures Core(SetPhase(s, p, Draining).(transitioning := true, holder := Activating(p)))
  {
    var s' := SetPhase(s, p, Draining).(transitioning := true, holder := Activating(p));
    CandidatesKept(s, s');
    assert Served(s') && Held(s');
  }

  lemma PhaseCore(s: State, p: nat, phase: Phase)
    requires Core(s) && s.holder == Activating(p) && p in s.activations && phase != Idle
    requires phase == Joined || phase == Handed ==> Quiet(s.gens[s.current])
    requires s.activations[p].graph.id !in s.counted
    ensures Core(SetPhase(s, p, phase))
  {
    var s' := SetPhase(s, p, phase);
    CandidatesKept(s, s');
    assert Served(s') && Held(s');
  }

  lemma AbandonCore(s: State, p: nat)
    requires Core(s) && AtPhase(s, p, Draining)
    ensures Core(Apply(s, Abandon(p)))
  {
    var s' := Apply(s, Abandon(p));
    CandidatesKept(s, s');
    assert Served(s') && Held(s');
  }

  lemma InheritCore(s: State, p: nat)
    requires Core(s)
    ensures Core(Apply(s, Inherit(p)))
  {
    if AtPhase(s, p, Joined) && HandoffVerdict(s, p) == Limiter.Inherited {
      PhaseCore(s, p, Handed);
      HandedCore(SetPhase(s, p, Handed), p);
      BackendsCore(SetPhase(s, p, Handed).(counted := s.counted + {s.activations[p].graph.id}), Apply(s, Inherit(p)));
    }
  }

  /** Backends play no part in it. */
  lemma BackendsCore(s: State, s': State)
    requires Core(s) && s' == s.(backends := s'.backends)
    ensures Core(s')
  {
  }

  lemma HandedCore(s: State, p: nat)
    requires Core(s) && AtPhase(s, p, Handed)
    ensures Core(s.(counted := s.counted + {s.activations[p].graph.id}))
  {
    var s' := s.(counted := s.counted + {s.activations[p].graph.id});
    CandidatesKept(s, s');
    assert Served(s') && Held(s');
  }

  // ---- ... and the limiters ------------------------------------------------------------------------

  /** The caller is a live request of a generation of the graph. */
  ghost predicate LiveCaller(s: State, graph: nat, c: Semaphore.Caller) {
    c.0 < |s.gens| && s.gens[c.0].graph.id == graph && c.1 in s.gens[c.0].requests
  }

  /** Limiters, the line of graphs and the unused candidates stay as they are. */
  ghost predicate Framed(s: State, s': State) {
    && s'.limiters == s.limiters && s'.nextGraph == s.nextGraph
    && forall p :: p in s'.activations && !s'.activations[p].used ==>
      p in s.activations && !s.activations[p].used && s'.activations[p].graph == s.activations[p].graph
  }

  /** Nothing happens to limiters while their callers stay and no candidate comes. */
  lemma LimitersKept(s: State, s': State)
    requires Limiters(s) && Framed(s, s')
    requires forall i, c :: i in s.limiters && c in s.limiters[i].operations && LiveCaller(s, i, c) ==>
      LiveCaller(s', i, c)
    ensures Limiters(s')
  {
    forall i | i in s'.limiters ensures LimiterInv(s', i) { assert LimiterInv(s, i); }
  }

  lemma LimitersKeptOn(s: State, s': State)
    requires Limiters(s) && Framed(s, s') && s.gens <= s'.gens
    ensures Limiters(s')
  {
    LimitersKept(s, s');
  }

  /** A request or worker action changes at most one generation, and ends no request
      that is at its limiter. */
  lemma RequestShape(s: State, a: Action) returns (g: nat, gen: Gen)
    requires !a.Limit? && s.current < |s.gens|
    ensures g < |s.gens| && DoRequests(s, a) == s.(gens := s.gens[g := gen]) && gen.graph == s.gens[g].graph
    ensures KeepsCallers(s, g, gen)
  {
    g, gen := s.current, s.gens[s.current];
    assert s.gens[g := gen] == s.gens;
    if DoRequests(s, a) != s {
      match a
      case StartRequest(r) => gen := gen.(requests := gen.requests + {r});
      case FinishRequest(h, r) => g, gen := h, s.gens[h].(requests := s.gens[h].requests - {r});
      case WorkersExit(h) => g, gen := h, s.gens[h].(workers := Stopped);
      case _ =>
    }
  }

  ghost predicate KeepsCallers(s: State, g: nat, gen: Gen)
    requires g < |s.gens|
  {
    forall r :: (g, r) in LimiterOf(s, s.gens[g].graph.id).operations ==> r !in s.gens[g].requests || r in gen.requests
  }

  lemma RequestsLimiters(s: State, a: Action)
    requires Core(s) && Limiters(s) && !a.Limit?
    ensures Limiters(DoRequests(s, a))
  {
    var g, gen := RequestShape(s, a);
    OneGenLimiters(s, g, gen);
  }

  /** A generation changes but keeps the requests that are at its limiter. */
  lemma OneGenLimiters(s: State, g: nat, gen: Gen)
    requires Limiters(s) && g < |s.gens| && gen.graph == s.gens[g].graph
    requires KeepsCallers(s, g, gen)
    ensures Limiters(s.(gens := s.gens[g := gen]))
  {
    var s' := s.(gens := s.gens[g := gen]);
    forall i, c | i in s.limiters && c in s.limiters[i].operations && LiveCaller(s, i, c)
      ensures LiveCaller(s', i, c)
    {
      assert c == (c.0, c.1);
    }
    LimitersKept(s, s');
  }

  lemma LimitLimiters(s: State, g: nat, step: Semaphore.Action)
    requires Served(s) && Candidates(s) && Limiters(s) && MayLimit(s, g, step)
    ensures Limiters(DoLimit(s, g, step))
  {
    var s', graph := DoLimit(s, g, step), s.gens[g].graph.id;
    LimitShape(s, g, step);
    assert graph in s.limiters;
    OneLimiterOrdered(s, s', g, step);
    OneLimiterFresh(s, s', graph);
    assert Known(s');
  }

  lemma LimitShape(s: State, g: nat, step: Semaphore.Action)
    requires MayLimit(s, g, step)
    ensures
      var s', graph := DoLimit(s, g, step), s.gens[g].graph.id;
      && s'.gens == s.gens && s'.activations == s.activations && s'.nextGraph == s.nextGraph
      && s'.limiters == s.limiters[graph := Semaphore.Apply(LimiterOf(s, graph), step)]
      && forall i :: i != graph ==> LimiterOf(s', i) == LimiterOf(s, i)
  {
  }

  lemma OneLimiterOrdered(s: State, s': State, g: nat, step: Semaphore.Action)
    requires Ordered(s) && MayLimit(s, g, step) && s'.gens == s.gens && s.gens[g].graph.id in s.limiters
    requires s'.limiters == s.limiters[s.gens[g].graph.id := Semaphore.Apply(LimiterOf(s, s.gens[g].graph.id), step)]
    ensures Ordered(s')
  {
    var graph := s.gens[g].graph.id;
    assert LimiterInv(s, graph);
    StepLimiter(s, s', g, step);
    forall i | i in s'.limiters ensures LimiterInv(s', i) { if i != graph { assert LimiterInv(s, i); } }
  }

  /** A graph that has served belongs to no unused candidate. */
  lemma OneLimiterFresh(s: State, s': State, graph: nat)
    requires Candidates(s) && Fresh(s) && (exists g :: 0 <= g < |s.gens| && s.gens[g].graph.id == graph)
    requires s'.activations == s.activations && forall i :: i != graph ==> LimiterOf(s', i) == LimiterOf(s, i)
    ensures Fresh(s')
  {
    forall p | p in s.activations && !s.activations[p].used
      ensures Untouched(LimiterOf(s', s.activations[p].graph.id))
    {
      assert s.activations[p].graph.id != graph;
    }
  }

  lemma StepLimiter(s: State, s': State, g: nat, step: Semaphore.Action)
    requires MayLimit(s, g, step) && s'.gens == s.gens && LimiterInv(s, s.gens[g].graph.id)
    requires LimiterOf(s', s.gens[g].graph.id) == Semaphore.Apply(LimiterOf(s, s.gens[g].graph.id), step)
    ensures LimiterInv(s', s.gens[g].graph.id)
  {
    var limiter := LimiterOf(s, s.gens[g].graph.id);
    Semaphore.ApplyInv(limiter, step);
    Semaphore.ApplyOperations(limiter, step);
    forall c | c in Semaphore.Apply(limiter, step).operations ensures LiveCaller(s', s.gens[g].graph.id, c) {
      if c in limiter.operations { assert LiveCaller(s, s.gens[g].graph.id, c); }
    }
  }

  lemma PrepareLimiters(s: State, s': State, p: nat, concurrency: nat)
    requires Candidates(s) && Limiters(s) && s'.gens == s.gens && s'.nextGraph == s.nextGraph + 1
    requires s'.limiters == s.limiters[s.nextGraph := Semaphore.Start(concurrency)]
    requires p in s'.activations && s'.activations == s.activations[p := s'.activations[p]]
    requires s'.activations[p].graph.id == s.nextGraph
    ensures Limiters(s')
  {
    PrepareOrdered(s, s', concurrency);
    PrepareFresh(s, s', p, concurrency);
  }

  lemma PrepareOrdered(s: State, s': State, concurrency: nat)
    requires Known(s) && Ordered(s) && s'.gens == s.gens && s'.nextGraph == s.nextGraph + 1
    requires s'.limiters == s.limiters[s.nextGraph := Semaphore.Start(concurrency)]
    ensures Known(s') && Ordered(s')
  {
    forall i | i in s'.limiters ensures LimiterInv(s', i) {
      if i == s.nextGraph { StartLimiter(s', i, concurrency); } else { SameLimiter(s, s', i); }
    }
  }

  lemma StartLimiter(s: State, i: nat, concurrency: nat)
    requires LimiterOf(s, i) == Semaphore.Start(concurrency)
    ensures LimiterInv(s, i)
  {
  }

  lemma SameLimiter(s: State, s': State, i: nat)
    requires LimiterInv(s, i) && LimiterOf(s', i) == LimiterOf(s, i) && s'.gens == s.gens
    ensures LimiterInv(s', i)
  {
  }

  lemma PrepareFresh(s: State, s': State, p: nat, concurrency: nat)
    requires Candidates(s) && Fresh(s)
    requires s'.limiters == s.limiters[s.nextGraph := Semaphore.Start(concurrency)]
    requires p in s'.activations && s'.activations == s.activations[p := s'.activations[p]]
    requires s'.activations[p].graph.id == s.nextGraph
    ensures Fresh(s')
  {
    forall q | q in s'.activations && !s'.activations[q].used
      ensures Untouched(LimiterOf(s', s'.activations[q].graph.id))
    {
      if q != p { assert Untouched(LimiterOf(s, s.activations[q].graph.id)); }
    }
  }

  lemma OneFramed(s: State, s': State, p: nat)
    requires OneActivation(s, s', p)
    ensures Framed(s, s')
  {
  }

  /** What these actions leave of the activations and what they do not touch. */
  lemma ActivationShape(s: State, a: Action)
    requires a.ClosePrepared? || a.Activate? || a.Abandon? || a.Cancel? || a.Join? || a.Inherit?
    ensures
      var s' := Apply(s, a);
      s' == s || (s'.gens == s.gens && OneActivation(s, s', a.p))
  {
  }

  lemma LaunchShape(s: State, a: Action)
    requires a.Refuse? || a.Install?
    ensures
      var s' := Apply(s, a);
      s' == s || (s.gens <= s'.gens && OneActivation(s, s', a.p))
  {
  }

  /** One activation changes over the same limiters. */
  ghost predicate OneActivation(s: State, s': State, p: nat) {
    && s'.limiters == s.limiters && s'.nextGraph == s.nextGraph && p in s.activations && p in s'.activations
    && s'.activations == s.activations[p := s'.activations[p]]
    && s'.activations[p].graph == s.activations[p].graph
    && (s.activations[p].used ==> s'.activations[p].used)
  }

  lemma ActivationLimiters(s: State, a: Action)
    requires Limiters(s) && (a.ClosePrepared? || a.Activate? || a.Abandon? || a.Cancel? || a.Join? || a.Inherit?)
    ensures Limiters(Apply(s, a))
  {
    ActivationShape(s, a);
    OneLimiters(s, Apply(s, a), a.p);
  }

  lemma OneLimiters(s: State, s': State, p: nat)
    requires Limiters(s) && (s' == s || (s.gens <= s'.gens && OneActivation(s, s', p)))
    ensures Limiters(s')
  {
    if s' != s {
      OneFramed(s, s', p);
      LimitersKeptOn(s, s');
    }
  }

  lemma LaunchLimiters(s: State, a: Action)
    requires Limiters(s) && (a.Refuse? || a.Install?)
    ensures Limiters(Apply(s, a))
  {
    LaunchShape(s, a);
    OneLimiters(s, Apply(s, a), a.p);
  }

  lemma ApplyLimiters(s: State, a: Action)
    requires Core(s) && Limiters(s)
    ensures Limiters(Apply(s, a))
  {
    match a
    case Limit(g, step) => if MayLimit(s, g, step) { LimitLimiters(s, g, step); }
    case Prepare(p, _, concurrency, _, _) => if Apply(s, a) != s { PrepareLimiters(s, Apply(s, a), p, concurrency); }
    case StartRequest(_) | FinishRequest(_, _) | WorkersExit(_) => RequestsLimiters(s, a);
    case Serve | FenceForShutdown | Stop | StopJoined => OwnerLimiters(s, a);
    case Refuse(_) | Install(_) => LaunchLimiters(s, a);
    case _ => ActivationLimiters(s, a);
  }

  lemma OwnerShape(s: State, a: Action)
    ensures
      var s' := DoOwner(s, a);
      && Framed(s, s')
      && (s'.gens == s.gens ||
        (s.current < |s.gens| && s'.gens == s.gens[s.current := s.gens[s.current].(workers := Running)]))
  {
  }

  lemma OwnerLimiters(s: State, a: Action)
    requires Limiters(s)
    ensures Limiters(DoOwner(s, a))
  {
    var s' := DoOwner(s, a);
    OwnerShape(s, a);
    var mid := s'.(gens := s.gens);
    LimitersKeptOn(s, mid);
    if s'.gens != s.gens { OneGenLimiters(mid, s.current, s.gens[s.current].(workers := Running)); }
  }

  lemma ApplyInv(s: State, a: Action)
    requires Inv(s)
    ensures Inv(Apply(s, a))
  {
    ApplyCore(s, a);
    ApplyLimiters(s, a);
  }

  lemma {:induction false} RunInv(boot: Boot, actions: seq<Action>)
    ensures Inv(Run(Initial(boot), actions))
  {
    if actions != [] {
      RunInv(boot, actions[..|actions| - 1]);
      ApplyInv(Run(Initial(boot), actions[..|actions| - 1]), actions[|actions| - 1]);
    }
  }

  // ---- Theorems ----------------------------------------------------------------------------

  /** In every interleaving at most one generation has a live request or worker. */
  lemma GenerationExclusion(boot: Boot, actions: seq<Action>, g: nat, h: nat)
    requires
      var s := Run(Initial(boot), actions);
      g < |s.gens| && h < |s.gens| && LiveGen(s.gens[g]) && LiveGen(s.gens[h])
    ensures g == h == Run(Initial(boot), actions).current
  {
    RunInv(boot, actions);
  }

  /** The served values always describe the served graph. */
  lemma ValuesDescribeServed(boot: Boot, actions: seq<Action>)
    ensures
      var s := Run(Initial(boot), actions);
      s.current < |s.gens| && s.values == s.gens[s.current].graph.values
  {
    RunInv(boot, actions);
  }

  /** A fresh generation takes over from a quiet one: of the same graph under the
      same values, or of a candidate; it works if the server serves. */
  ghost predicate Replaces(s: State, a: Action, s': State) {
    && s.current < |s.gens| && Quiet(s.gens[s.current]) && (a.Refuse? || a.Install?) && a.p in s.activations
    && s'.current == |s.gens|
    && var graph := if a.Install? then s.activations[a.p].graph else s.gens[s.current].graph;
    && s'.gens == s.gens + [Gen(graph, {}, if s.serving then Running else NotStarted)]
  }

  lemma ReplacesQuiet(s: State, a: Action)
    requires Core(s) && Apply(s, a).current != s.current
    ensures Replaces(s, a, Apply(s, a))
  {
    assert a.Refuse? || a.Install?;
    assert Held(s);
  }

  /** The served generation is replaced only when it has no request and no worker. */
  lemma ReplacedOnlyWhenQuiet(boot: Boot, actions: seq<Action>, a: Action)
    requires var s := Run(Initial(boot), actions); Apply(s, a).current != s.current
    ensures var s := Run(Initial(boot), actions); Replaces(s, a, Apply(s, a))
  {
    RunInv(boot, actions);
    ReplacesQuiet(Run(Initial(boot), actions), a);
  }

  /** Whenever no change is in progress, requests are admitted, up to the shutdown:
      every way out of an activation lifts its fence. */
  lemma RequestsAdmitted(boot: Boot, actions: seq<Action>, r: nat)
    requires
      var s := Run(Initial(boot), actions);
      s.holder == Nobody && !s.ending && !s.closed
    ensures
      var s := Run(Initial(boot), actions);
      var s' := Apply(s, StartRequest(r));
      s.current < |s.gens| && s'.current == s.current < |s'.gens| && r in s'.gens[s'.current].requests
  {
    RunInv(boot, actions);
  }

  /** Once drained, the handoff is refused as not quiescent exactly when a lease of
      the retiring graph is still out, and otherwise only for a changed backend: the
      candidate is another limiter, at rest, and has counted nothing. */
  lemma HandoffNeverRefused(boot: Boot, actions: seq<Action>, p: nat)
    requires AtPhase(Run(Initial(boot), actions), p, Joined)
    ensures
      var s := Run(Initial(boot), actions);
      HandoffVerdict(s, p) ==
        if LimiterOf(s, s.gens[s.current].graph.id).leases != {} then Limiter.NotQuiescent
        else if !Fits(BackendOf(s, s.activations[p].graph.id), boot.backend) then Limiter.SharedBackendChanged
        else Limiter.Inherited
  {
    RunInv(boot, actions);
    JoinedVerdict(Run(Initial(boot), actions), p);
    BackendNeverChanges(boot, actions);
  }

  /** The served graph's limiter, and one that has just inherited, use this backend. */
  ghost predicate CountsIn(s: State, backend: Option<Backend>) {
    && s.current < |s.gens| && BackendOf(s, s.gens[s.current].graph.id) == backend
    && forall p :: AtPhase(s, p, Handed) ==> BackendOf(s, s.activations[p].graph.id) == backend
  }

  lemma BackendStep(s: State, a: Action, backend: Option<Backend>)
    requires Core(s) && CountsIn(s, backend)
    ensures CountsIn(Apply(s, a), backend)
  {
    GraphsKept(s, a);
    if Apply(s, a).current != s.current {
      BackendReplaced(s, a, backend);
    } else if a.Inherit? {
      HandsBackend(s, a.p);
    } else {
      BackendStays(s, a, backend);
    }
  }

  lemma BackendReplaced(s: State, a: Action, backend: Option<Backend>)
    requires Core(s) && CountsIn(s, backend) && Apply(s, a).current != s.current
    ensures CountsIn(Apply(s, a), backend)
  {
    ReplacesQuiet(s, a);
    assert Apply(s, a).backends == s.backends;
  }

  lemma BackendStays(s: State, a: Action, backend: Option<Backend>)
    requires Served(s) && Held(s) && CountsIn(s, backend) && Apply(s, a).current == s.current && !a.Inherit?
    requires |s.gens| <= |Apply(s, a).gens| && Apply(s, a).gens[s.current].graph == s.gens[s.current].graph
    ensures CountsIn(Apply(s, a), backend)
  {
    var s' := Apply(s, a);
    BackendShape(s, a);
    forall p | AtPhase(s', p, Handed)
      ensures AtPhase(s, p, Handed) && s'.activations[p].graph == s.activations[p].graph && s'.backends == s.backends
    {
      HandedOnlyByHandoff(s, a, p);
    }
  }

  lemma BackendShape(s: State, a: Action)
    requires !a.Inherit?
    ensures forall i :: i != s.nextGraph ==> BackendOf(Apply(s, a), i) == BackendOf(s, i)
  {
  }

  /** Over every run and any chain of handoffs the served graph counts in the backend
      that the process started with. */
  lemma {:induction false} BackendNeverChanges(boot: Boot, actions: seq<Action>)
    ensures var s := Run(Initial(boot), actions); CountsIn(s, boot.backend)
  {
    if actions != [] {
      var front := actions[..|actions| - 1];
      BackendNeverChanges(boot, front);
      RunInv(boot, front);
      BackendStep(Run(Initial(boot), front), actions[|actions| - 1], boot.backend);
    }
  }

  lemma HandsBackend(s: State, p: nat)
    requires Core(s) && s.current < |s.gens|
    ensures
      var s' := Apply(s, Inherit(p));
      && BackendOf(s', s.gens[s.current].graph.id) == BackendOf(s, s.gens[s.current].graph.id)
      && (s' != s ==> BackendOf(s', s.activations[p].graph.id) == BackendOf(s, s.gens[s.current].graph.id))
  {
    if AtPhase(s, p, Joined) { assert s.activations[p].graph.id != s.gens[s.current].graph.id; }
  }

  lemma HandedOnlyByHandoff(s: State, a: Action, p: nat)
    requires Held(s) && s.current < |s.gens| && !a.Inherit? && AtPhase(Apply(s, a), p, Handed)
    ensures AtPhase(s, p, Handed) && Apply(s, a).activations[p].graph == s.activations[p].graph
    ensures Apply(s, a).backends == s.backends
  {
    if a.Limit? { LimitLeaves(s, a.g, a.step); } else { RequestsLeave(s, a); }
    OwnerLeaves(s, a);
  }

  lemma LimitLeaves(s: State, g: nat, step: Semaphore.Action)
    ensures
      var s' := DoLimit(s, g, step);
      && s'.activations == s.activations && s'.backends == s.backends && s'.holder == s.holder
      && s'.current == s.current && s'.gens == s.gens
  {
  }

  lemma RequestsLeave(s: State, a: Action)
    requires !a.Limit? && s.current < |s.gens|
    ensures
      var s' := DoRequests(s, a);
      && s'.activations == s.activations && s'.backends == s.backends && s'.holder == s.holder
      && s'.current == s.current && |s'.gens| == |s.gens|
  {
    var g, gen := RequestShape(s, a);
  }

  lemma OwnerLeaves(s: State, a: Action)
    ensures
      var s' := DoOwner(s, a);
      && s'.activations == s.activations && s'.backends == s.backends
      && (s'.holder == s.holder || !s'.holder.Activating?)
      && s'.current == s.current && |s'.gens| == |s.gens|
  {
  }

  lemma JoinedVerdict(s: State, p: nat)
    requires Inv(s) && AtPhase(s, p, Joined)
    ensures HandoffVerdict(s, p) ==
      if LimiterOf(s, s.gens[s.current].graph.id).leases != {} then Limiter.NotQuiescent
      else if !Fits(BackendOf(s, s.activations[p].graph.id), BackendOf(s, s.gens[s.current].graph.id))
        then Limiter.SharedBackendChanged
      else Limiter.Inherited
  {
    var from, to := s.gens[s.current].graph.id, s.activations[p].graph.id;
    assert from in s.limiters && to in s.limiters;
    assert forall g :: 0 <= g < |s.gens| ==> s.gens[g].requests == {};
    DrainedLimiter(s, from);
    DrainedLimiter(s, to);
    assert Untouched(LimiterOf(s, to));
  }

  /** With no request live, a limiter is at rest exactly when its leases are back. */
  lemma DrainedLimiter(s: State, i: nat)
    requires LimiterInv(s, i) && forall g :: 0 <= g < |s.gens| ==> s.gens[g].requests == {}
    ensures Semaphore.AtRest(LimiterOf(s, i)) <==> LimiterOf(s, i).leases == {}
  {
    assert LimiterOf(s, i).operations == {};
    Semaphore.AtRestExactly(LimiterOf(s, i));
  }

  // ---- When a handoff is final ----------------------------------------------------------------

  /** No generation of the graph has a request or a worker. */
  ghost predicate Silent(s: State, graph: nat) {
    forall g :: 0 <= g < |s.gens| && s.gens[g].graph.id == graph ==> Quiet(s.gens[g])
  }

  /** The graph has served and is superseded, or is about to be by p without fail. */
  ghost predicate Retiring(s: State, p: nat, graph: nat) {
    && s.current < |s.gens| && (exists g :: 0 <= g < |s.gens| && s.gens[g].graph.id == graph)
    && (s.gens[s.current].graph.id != graph || (AtPhase(s, p, Handed) && !s.activations[p].pool))
  }

  lemma RetiringStep(s: State, a: Action, p: nat, graph: nat)
    requires Inv(s) && Retiring(s, p, graph)
    ensures Retiring(Apply(s, a), p, graph)
  {
    var s' := Apply(s, a);
    var g :| 0 <= g < |s.gens| && s.gens[g].graph.id == graph;
    GraphsKept(s, a);
    assert s'.gens[g].graph.id == graph;
    if s'.current != s.current { RetiredReplaced(s, a, p, graph); } else { HandedKept(s, a, p); }
  }

  lemma RetiredReplaced(s: State, a: Action, p: nat, graph: nat)
    requires Core(s) && Retiring(s, p, graph) && Apply(s, a).current != s.current
    ensures var s' := Apply(s, a); s'.current < |s'.gens| && s'.gens[s'.current].graph.id != graph
  {
    ReplacesQuiet(s, a);
    RetiringReplaced(s, a, p, graph);
  }

  /** The generation that takes over is of another graph. */
  lemma RetiringReplaced(s: State, a: Action, p: nat, graph: nat)
    requires Held(s) && Candidates(s) && Retiring(s, p, graph)
    requires (a.Refuse? && MayRefuse(s, a.p)) || (a.Install? && AtPhase(s, a.p, Handed))
    ensures (if a.Install? then s.activations[a.p].graph else s.gens[s.current].graph).id != graph
  {
    assert s.holder == Activating(a.p);
  }

  /** Generations keep their graphs. */
  lemma GraphsKept(s: State, a: Action)
    requires Core(s)
    ensures |s.gens| <= |Apply(s, a).gens|
    ensures forall g :: 0 <= g < |s.gens| ==> Apply(s, a).gens[g].graph == s.gens[g].graph
    ensures Apply(s, a).current < |Apply(s, a).gens|
  {
    ApplyCore(s, a);
    GraphsShape(s, a);
  }

  lemma GraphsShape(s: State, a: Action)
    requires s.current < |s.gens|
    ensures |s.gens| <= |Apply(s, a).gens|
    ensures forall g :: 0 <= g < |s.gens| ==> Apply(s, a).gens[g].graph == s.gens[g].graph
  {
    if a.Limit? { LimitLeaves(s, a.g, a.step); } else { RequestGraphs(s, a); }
    OwnerShape(s, a);
    if a.Refuse? || a.Install? { LaunchShape(s, a); }
    if a.ClosePrepared? || a.Activate? || a.Abandon? || a.Cancel? || a.Join? || a.Inherit? { ActivationShape(s, a); }
  }

  lemma RequestGraphs(s: State, a: Action)
    requires !a.Limit? && s.current < |s.gens|
    ensures |DoRequests(s, a).gens| == |s.gens|
    ensures forall g :: 0 <= g < |s.gens| ==> DoRequests(s, a).gens[g].graph == s.gens[g].graph
  {
    var g, gen := RequestShape(s, a);
  }

  /** A handoff without a pool is left only by installing. */
  lemma HandedKept(s: State, a: Action, p: nat)
    requires Held(s) && s.current < |s.gens| && Apply(s, a).current == s.current
    ensures AtPhase(s, p, Handed) ==>
      AtPhase(Apply(s, a), p, Handed) && Apply(s, a).activations[p].pool == s.activations[p].pool
  {
    GraphsShape(s, a);
  }

  lemma {:induction false} RetiringRun(s: State, after: seq<Action>, p: nat, graph: nat)
    requires Inv(s) && Retiring(s, p, graph)
    ensures Inv(Run(s, after)) && Retiring(Run(s, after), p, graph)
  {
    if after != [] {
      var front := after[..|after| - 1];
      RetiringRun(s, front, p, graph);
      ApplyInv(Run(s, front), after[|after| - 1]);
      RetiringStep(Run(s, front), after[|after| - 1], p, graph);
    }
  }

  lemma RetiringIsSilent(s: State, p: nat, graph: nat)
    requires Inv(s) && Retiring(s, p, graph)
    ensures Silent(s, graph)
  {
  }

  /** From any handoff with a pool, one failure puts the retired graph back to work. */
  lemma PoolResumes(s: State, p: nat, r: nat)
    requires Core(s) && AtPhase(s, p, Handed) && s.activations[p].pool
    ensures !Silent(Run(s, [Refuse(p), StartRequest(r)]), s.gens[s.current].graph.id)
  {
    RunTwo(s, Refuse(p), StartRequest(r));
    ResumedIs(s, p);
    ResumedServes(DoResume(s, p), r);
  }

  lemma ResumedIs(s: State, p: nat)
    requires Core(s) && AtPhase(s, p, Handed) && s.activations[p].pool
    ensures
      var s' := DoResume(s, p);
      && Apply(s, Refuse(p)) == s' && s'.current < |s'.gens| && !s'.closed && !s'.transitioning
      && s'.gens[s'.current].requests == {} && s'.gens[s'.current].graph == s.gens[s.current].graph
  {
  }

  lemma ResumedServes(s: State, r: nat)
    requires s.current < |s.gens| && !s.closed && !s.transitioning && s.gens[s.current].requests == {}
    ensures !Silent(Apply(s, StartRequest(r)), s.gens[s.current].graph.id)
  {
    var s' := Apply(s, StartRequest(r));
    assert r in s'.gens[s.current].requests && s'.gens[s.current].graph == s.gens[s.current].graph;
  }

  lemma RunTwo(s: State, a: Action, b: Action)
    ensures Run(s, [a, b]) == Apply(Apply(s, a), b)
  {
    assert [a, b][..1] == [a] && [a][..0] == [];
    assert Run(s, [a]) == Apply(Run(s, []), a);
  }

  lemma RunSnoc(s: State, actions: seq<Action>, a: Action)
    ensures Run(s, actions + [a]) == Apply(Run(s, actions), a)
  {
    assert (actions + [a])[..|actions|] == actions;
  }

  /** The first activation, idle, draining, joining or joined. */
  function Changing(boot: Boot, values: nat, pool: bool, phase: Phase): State {
    var s := Initial(boot);
    s.(activations := map[0 := Activation(Graph(1, values), 0, phase, false, true, pool)], nextGraph := 2,
       limiters := s.limiters[1 := Semaphore.Start(boot.concurrency)], backends := s.backends[1 := None],
       transitioning := phase != Idle, holder := if phase == Idle then Nobody else Activating(0))
  }

  lemma ChangingStarts(boot: Boot, values: nat, pool: bool)
    requires values != boot.values
    ensures
      && Apply(Initial(boot), Prepare(0, values, boot.concurrency, pool, None)) == Changing(boot, values, pool, Idle)
      && Apply(Changing(boot, values, pool, Idle), Activate(0)) == Changing(boot, values, pool, Draining)
  {
  }

  lemma ChangingJoins(boot: Boot, values: nat, pool: bool)
    ensures
      && Apply(Changing(boot, values, pool, Draining), Cancel(0)) == Changing(boot, values, pool, Joining)
      && Apply(Changing(boot, values, pool, Joining), Join(0)) == Changing(boot, values, pool, Joined)
  {
  }

  lemma ChangingHands(boot: Boot, values: nat, pool: bool)
    ensures
      var s := Apply(Changing(boot, values, pool, Joined), Inherit(0));
      AtPhase(s, 0, Handed) && s.activations[0].pool == pool
  {
    assert HandoffVerdict(Changing(boot, values, pool, Joined), 0) == Limiter.Inherited;
  }

  /** Handoffs happen, with a pool and without. */
  lemma HandoffHappens(boot: Boot, values: nat, pool: bool) returns (actions: seq<Action>)
    requires values != boot.values
    ensures
      var s := Run(Initial(boot), actions);
      AtPhase(s, 0, Handed) && s.activations[0].pool == pool
  {
    var s, prepare := Initial(boot), Prepare(0, values, boot.concurrency, pool, None);
    ChangingStarts(boot, values, pool);
    ChangingJoins(boot, values, pool);
    ChangingHands(boot, values, pool);
    var first := [] + [prepare];
    RunSnoc(s, [], prepare);
    RunSnoc(s, first, Activate(0));
    RunSnoc(s, first + [Activate(0)], Cancel(0));
    RunSnoc(s, first + [Activate(0)] + [Cancel(0)], Join(0));
    var joined := first + [Activate(0)] + [Cancel(0)] + [Join(0)];
    RunSnoc(s, joined, Inherit(0));
    actions := joined + [Inherit(0)];
  }

  /** The old limiter never serves again after a successful handoff if and only if the
      activation replaces no pool. */
  lemma HandoffFinalExactly(boot: Boot, actions: seq<Action>, p: nat)
    requires AtPhase(Run(Initial(boot), actions), p, Handed)
    ensures
      var s := Run(Initial(boot), actions);
      (forall after :: Silent(Run(s, after), s.gens[s.current].graph.id)) <==> !s.activations[p].pool
  {
    RunInv(boot, actions);
    FinalExactly(Run(Initial(boot), actions), p);
  }

  lemma FinalExactly(s: State, p: nat)
    requires Inv(s) && AtPhase(s, p, Handed)
    ensures (forall after :: Silent(Run(s, after), s.gens[s.current].graph.id)) <==> !s.activations[p].pool
  {
    var graph := s.gens[s.current].graph.id;
    if s.activations[p].pool {
      PoolResumes(s, p, 0);
    } else {
      forall after ensures Silent(Run(s, after), graph) { StaysSilent(s, after, p, graph); }
    }
  }

  lemma StaysSilent(s: State, after: seq<Action>, p: nat, graph: nat)
    requires Inv(s) && Retiring(s, p, graph)
    ensures Silent(Run(s, after), graph)
  {
    RetiringRun(s, after, p, graph);
    RetiringIsSilent(Run(s, after), p, graph);
  }

  /** After stop nothing is live, and nothing becomes live again. */
  lemma StoppedForGood(boot: Boot, actions: seq<Action>, g: nat)
    requires Run(Initial(boot), actions).stopped && g < |Run(Initial(boot), actions).gens|
    ensures Quiet(Run(Initial(boot), actions).gens[g])
  {
    RunInv(boot, actions);
  }
}
