/** The fenced singleton lease and the HA scheduler loop that competes for it.

    The datastore row, its clock and the three lease statements come first,
    then the variables of one node's loop with the closures that update them,
    then the whole cluster as a state machine.  One action is one atomic step
    of one node or of the environment: a clock read, the commit of a statement,
    the processing of its reply, a term exiting, a guarded write, a crash.
    Replies may be lost, so every call is split into its commit and its reply;
    a call whose reply is an error has taken effect by then or never will.  The
    statement a crash leaves in flight is an orphan, and may land at any later time. */
module Lease {
  import opened Options

  type NodeId = nat
  type Fence = nat
  /** Datastore time; 0 is the epoch stamp that a release writes. */
  type Time = nat

  datatype Row = Row(owner: NodeId, fence: Fence, expires: Time)

  /** The row (absent until the first claim), the datastore clock, and the
      history of committed claims: claims[f - 1] is the owner issued fence f. */
  datatype Store = Store(clock: Time, row: Option<Row>, claims: seq<NodeId>)

  // ---- The lease statements ------------------------------------------------

  function TopFence(row: Option<Row>): Fence {
    if row.Some? then row.value.fence else 0
  }

  predicate Claimable(row: Option<Row>, now: Time) {
    row.None? || row.value.expires <= now
  }

  /** The row matches this owner and fence exactly and is live at `now`. */
  predicate Holds(row: Option<Row>, owner: NodeId, fence: Fence, now: Time) {
    row.Some? && row.value.owner == owner && row.value.fence == fence && now < row.value.expires
  }

  function CommitClaim(st: Store, owner: NodeId, now: Time, expires: Time): Store {
    if Claimable(st.row, now)
    then st.(row := Some(Row(owner, TopFence(st.row) + 1, expires)), claims := st.claims + [owner])
    else st
  }

  function CommitRenew(st: Store, owner: NodeId, fence: Fence, now: Time, expires: Time): Store {
    if Holds(st.row, owner, fence, now) then st.(row := Some(st.row.value.(expires := expires))) else st
  }

  /** Marks the row expired instead of deleting it, so the fence survives. */
  function CommitRelease(st: Store, owner: NodeId, fence: Fence): Store {
    if st.row.Some? && st.row.value.owner == owner && st.row.value.fence == fence
    then st.(row := Some(st.row.value.(expires := 0)))
    else st
  }

  // ---- One node ------------------------------------------------------------

  /** A leadership term: the goroutine running the job loop under a fence. */
  datatype Term = Term(fence: Fence, cancelled: bool, exited: bool)

  /** Where the loop stands.  `now` is the datastore time the heartbeat read. */
  datatype Pc =
    | Idle
    | Clock(now: Time)
    | Renewing(now: Time)
    | Renewed(now: Time, held: bool)
    | Gate(now: Time)
    | Confirming(now: Time)
    | Confirmed(now: Time, held: bool)
    | Claiming(now: Time)
    | Claimed(now: Time, got: Fence, applied: bool)
    | Joining(done: Option<nat>)
    | Releasing
    | Stopped

  /** The loop's variables.  `terms` is every term this node ever started, so
      that two live terms are expressible; `termDone` and `termCancel` name the
      term whose exit is awaited and the one a drop cancels. */
  datatype Node = Node(
    ttl: Time, leader: bool, fence: Fence, unconfirmed: bool, expiresAt: Time,
    terms: seq<Term>, termDone: Option<nat>, termCancel: Option<nat>, stopping: bool, pc: Pc)

  function Boot(ttl: Time, terms: seq<Term>): Node {
    Node(ttl, false, 0, false, 0, terms, None, None, false, Idle)
  }

  function CancelTerm(terms: seq<Term>, which: Option<nat>): seq<Term> {
    if which.Some? && which.value < |terms| then terms[which.value := terms[which.value].(cancelled := true)] else terms
  }

  function ExitTerm(terms: seq<Term>, k: nat): seq<Term>
    requires k < |terms|
  {
    terms[k := terms[k].(exited := true)]
  }

  function DropLeadership(n: Node): Node {
    n.(terms := CancelTerm(n.terms, n.termCancel), termCancel := None, leader := false)
  }

  predicate Exited(n: Node, which: Option<nat>) {
    which.Some? && which.value < |n.terms| && n.terms[which.value].exited
  }

  /** Clears the awaited term once it has exited; it drains while one is left. */
  function Drained(n: Node): Node {
    if Exited(n, n.termDone) then n.(termDone := None) else n
  }

  function StartTerm(n: Node, expires: Time): Node {
    n.(unconfirmed := false, expiresAt := expires, leader := true,
       terms := n.terms + [Term(n.fence, false, false)],
       termCancel := Some(|n.terms|), termDone := Some(|n.terms|), pc := Idle)
  }

  function ClockFailed(n: Node): Node {
    if n.leader then DropLeadership(n) else n
  }

  /** Fail closed first, then renew only while still leader. */
  function OnClock(n: Node, now: Time): Node {
    var m := if n.leader && n.expiresAt <= now then DropLeadership(n) else n;
    m.(pc := if m.leader then Renewing(now) else Gate(now))
  }

  function OnRenewReply(n: Node, now: Time, held: bool, err: bool): Node {
    if err || !held then DropLeadership(n).(pc := Gate(now))
    else n.(expiresAt := now + n.ttl, pc := Gate(now))
  }

  /** A canceled loop acquires nothing; a draining term blocks acquisition. */
  function OnGate(n: Node, now: Time): Node {
    if n.stopping || n.leader then n.(pc := Idle)
    else
      var m := Drained(n);
      if m.termDone.Some? then m.(pc := Idle)
      else m.(pc := if m.unconfirmed then Confirming(now) else Claiming(now))
  }

  function OnConfirmReply(n: Node, now: Time, held: bool, err: bool): Node {
    if err then n.(pc := Idle)
    else if !held then n.(unconfirmed := false, fence := 0, pc := if n.stopping then Idle else Claiming(now))
    else if n.stopping then n.(pc := Idle)
    else StartTerm(n, now + n.ttl)
  }

  /** `got` is the fence in the reply (0 when none), `held` its claim verdict. */
  function OnClaimReply(n: Node, now: Time, got: Fence, held: bool, err: bool): Node {
    var m := if got != 0 && (held || err) then n.(fence := got, unconfirmed := true) else n;
    if err || !held || m.stopping then m.(pc := Idle) else StartTerm(m, now + m.ttl)
  }

  function OnShutdown(n: Node): Node {
    DropLeadership(n).(pc := Joining(n.termDone))
  }

  function OnJoin(n: Node, done: Option<nat>): Node {
    if (done.None? || Exited(n, done)) && n.fence != 0 then n.(pc := Releasing) else n.(pc := Stopped)
  }

  // ---- The cluster ---------------------------------------------------------

  /** A lease statement on its way to the datastore. */
  datatype Statement =
    | Claim(now: Time, expires: Time)
    | Renew(fence: Fence, now: Time, expires: Time)
    | Release(fence: Fence)

  /** A statement in flight when its process crashed.  It was spent if the fence it
      names had been issued by then, to whomever; a claim names none. */
  datatype Orphan = Orphan(owner: NodeId, statement: Statement, spent: bool, landed: bool)

  /** `writes` records the fence of every committed singleton write, in order, and
      `orphans` every statement that a crash left in flight. */
  datatype State = State(store: Store, nodes: seq<Node>, writes: seq<Fence>, orphans: seq<Orphan>)

  datatype Action =
    | Elapse(d: nat)
    | Cancel(i: NodeId)
    | TermExits(i: NodeId, k: nat)
    | Write(i: NodeId, k: nat)
    | ReadClock(i: NodeId)
    | ClockUnreachable(i: NodeId)
    | ProcessClock(i: NodeId)
    | Commit(i: NodeId)
    | RollBack(i: NodeId)
    | Reply(i: NodeId, err: bool, fenceLost: bool)
    | PassGate(i: NodeId)
    | BeginShutdown(i: NodeId)
    | EndJoin(i: NodeId)
    | Crash(i: NodeId)
    | Land(orphan: nat, stray: bool)

  function Put(s: State, i: NodeId, n: Node): State
    requires i < |s.nodes|
  {
    s.(nodes := s.nodes[i := n])
  }

  /** The statement node i has in flight takes effect: the store after it, and
      the loop state that awaits its reply. */
  function Committed(st: Store, i: NodeId, n: Node): (Store, Node) {
    match n.pc
    case Renewing(now) =>
      (CommitRenew(st, i, n.fence, now, now + n.ttl), n.(pc := Renewed(now, Holds(st.row, i, n.fence, now))))
    case Confirming(now) =>
      (CommitRenew(st, i, n.fence, now, now + n.ttl), n.(pc := Confirmed(now, Holds(st.row, i, n.fence, now))))
    case Claiming(now) =>
      var ok := Claimable(st.row, now);
      (CommitClaim(st, i, now, now + n.ttl), n.(pc := Claimed(now, if ok then TopFence(st.row) + 1 else 0, ok)))
    case Releasing => (CommitRelease(st, i, n.fence), n.(pc := Stopped))
    case _ => (st, n)
  }

  function DoCommit(s: State, i: NodeId): State
    requires i < |s.nodes|
  {
    var (st, n) := Committed(s.store, i, s.nodes[i]);
    Put(s.(store := st), i, n)
  }

  /** The statement rolls back.  A rolled-back claim may still have returned a
      fence before its commit failed. */
  function DoRollBack(n: Node, row: Option<Row>): Node {
    match n.pc
    case Claiming(now) => n.(pc := Claimed(now, if Claimable(row, now) then TopFence(row) + 1 else 0, false))
    case Releasing => n.(pc := Stopped)
    case _ => n
  }

  /** The reply is processed; a statement that never committed replies an error. */
  function DoReply(n: Node, err: bool, fenceLost: bool): Node {
    match n.pc
    case Renewing(now) => OnRenewReply(n, now, false, true)
    case Renewed(now, held) => OnRenewReply(n, now, held, err)
    case Confirming(now) => OnConfirmReply(n, now, false, true)
    case Confirmed(now, held) => OnConfirmReply(n, now, held, err)
    case Claimed(now, got, applied) =>
      if applied && !err then OnClaimReply(n, now, got, true, false)
      else if !applied && got == 0 && !err then OnClaimReply(n, now, 0, false, false)
      else OnClaimReply(n, now, if fenceLost then 0 else got, false, true)
    case _ => n
  }

  function Crashed(n: Node): Node {
    Boot(n.ttl, seq(|n.terms|, k requires 0 <= k < |n.terms| => n.terms[k].(exited := true)))
  }

  function InFlight(n: Node): Option<Statement> {
    match n.pc
    case Renewing(now) => Some(Renew(n.fence, now, now + n.ttl))
    case Confirming(now) => Some(Renew(n.fence, now, now + n.ttl))
    case Claiming(now) => Some(Claim(now, now + n.ttl))
    case Releasing => Some(Release(n.fence))
    case _ => None
  }

  function Execute(st: Store, owner: NodeId, statement: Statement): Store {
    match statement
    case Claim(now, expires) => CommitClaim(st, owner, now, expires)
    case Renew(fence, now, expires) => CommitRenew(st, owner, fence, now, expires)
    case Release(fence) => CommitRelease(st, owner, fence)
  }

  predicate Spent(st: Store, statement: Statement) {
    statement.Claim? || statement.fence <= TopFence(st.row)
  }

  /** The process dies and starts anew; what it had in flight is left behind. */
  function DoCrash(s: State, i: NodeId): State
    requires i < |s.nodes|
  {
    var left := InFlight(s.nodes[i]);
    Put(s, i, Crashed(s.nodes[i])).(orphans := s.orphans +
      if left.Some? then [Orphan(i, left.value, Spent(s.store, left.value), false)] else [])
  }

  /** An orphan takes effect, once: with `stray` one that was not spent. */
  function DoLand(s: State, k: nat, stray: bool): State {
    if |s.orphans| <= k || s.orphans[k].landed || s.orphans[k].spent == stray then s
    else
      var o := s.orphans[k];
      s.(store := Execute(s.store, o.owner, o.statement), orphans := s.orphans[k := o.(landed := true)])
  }

  /** The actions that read the store but update only one node. */
  function NodeStep(st: Store, n: Node, a: Action): Node {
    match a
    case Cancel(_) => n.(stopping := true)
    case TermExits(_, k) =>
      if k < |n.terms| && (n.terms[k].cancelled || n.stopping) then n.(terms := ExitTerm(n.terms, k)) else n
    case ReadClock(_) => if n.pc.Idle? then n.(pc := Clock(st.clock)) else n
    case ClockUnreachable(_) => if n.pc.Idle? then ClockFailed(n) else n
    case ProcessClock(_) => if n.pc.Clock? then OnClock(n, n.pc.now) else n
    case RollBack(_) => DoRollBack(n, st.row)
    case Reply(_, err, fenceLost) => DoReply(n, err, fenceLost)
    case PassGate(_) => if n.pc.Gate? then OnGate(n, n.pc.now) else n
    case BeginShutdown(_) => if n.pc.Idle? && n.stopping then OnShutdown(n) else n
    case EndJoin(_) => if n.pc.Joining? then OnJoin(n, n.pc.done) else n
    case _ => n
  }

  /** A job of term k commits through the guard: the row must match the term. */
  function DoWrite(s: State, i: NodeId, k: nat): State
    requires i < |s.nodes|
  {
    var n := s.nodes[i];
    if k < |n.terms| && !n.terms[k].exited && Holds(s.store.row, i, n.terms[k].fence, s.store.clock)
    then s.(writes := s.writes + [n.terms[k].fence])
    else s
  }

  /** One action; an action that is not enabled changes nothing. */
  function Apply(s: State, a: Action): State {
    if a.Elapse? then s.(store := s.store.(clock := s.store.clock + a.d))
    else if a.Land? then DoLand(s, a.orphan, a.stray)
    else if |s.nodes| <= a.i then s
    else if a.Crash? then DoCrash(s, a.i)
    else if a.Write? then DoWrite(s, a.i, a.k)
    else if a.Commit? then DoCommit(s, a.i)
    else Put(s, a.i, NodeStep(s.store, s.nodes[a.i], a))
  }

  function Run(s: State, actions: seq<Action>): State
    decreases |actions|
  {
    if actions == [] then s else Apply(Run(s, actions[..|actions| - 1]), actions[|actions| - 1])
  }

  /** No row, no leaders, no terms: the cluster before the first heartbeat. */
  ghost predicate Initial(s: State) {
    && s.store.row == None && s.store.claims == [] && s.writes == [] && s.orphans == []
    && forall i :: 0 <= i < |s.nodes| ==> s.nodes[i] == Boot(s.nodes[i].ttl, [])
  }

  /** No orphan lands that was not spent. */
  ghost predicate Tame(actions: seq<Action>) {
    forall k :: 0 <= k < |actions| ==> !Stray(actions[k])
  }

  predicate Stray(a: Action) { a.Land? && a.stray }

  // ---- The invariant -------------------------------------------------------

  /** While the datastore clock is before `until`, the row is exactly this
      owner's at this fence and stays live at least until then. */
  ghost predicate Backed(st: Store, i: NodeId, fence: Fence, until: Time) {
    st.clock < until ==>
      st.row.Some? && st.row.value.owner == i && st.row.value.fence == fence && until <= st.row.value.expires
  }

  /** A committed claim issued this fence to this owner. */
  ghost predicate Issued(st: Store, i: NodeId, fence: Fence) {
    0 < fence <= |st.claims| && st.claims[fence - 1] == i
  }

  ghost predicate StoreInv(st: Store) {
    && TopFence(st.row) == |st.claims|
    && (st.row.Some? ==> Issued(st, st.row.value.owner, st.row.value.fence))
  }

  ghost predicate AboveTerms(n: Node, fence: Fence) {
    0 < fence && forall k :: 0 <= k < |n.terms| ==> n.terms[k].fence < fence
  }

  ghost predicate TermsInv(st: Store, i: NodeId, n: Node) {
    && (forall k :: 0 <= k < |n.terms| ==> Issued(st, i, n.terms[k].fence))
    && (forall k, l :: 0 <= k < l < |n.terms| ==> n.terms[k].fence < n.terms[l].fence)
    && (forall k :: 0 <= k < |n.terms| && !n.terms[k].exited ==> n.termDone == Some(k))
    && (n.termDone.Some? ==> n.termDone.value + 1 == |n.terms|)
  }

  ghost predicate LeaderInv(st: Store, i: NodeId, n: Node) {
    && n.expiresAt <= st.clock + n.ttl && n.fence <= |st.claims| + 1
    && (n.unconfirmed ==> !n.leader && AboveTerms(n, n.fence))
    && (n.leader ==>
      && Backed(st, i, n.fence, n.expiresAt)
      && 0 < |n.terms| && n.termDone == n.termCancel == Some(|n.terms| - 1)
      && n.terms[|n.terms| - 1].fence == n.fence)
  }

  ghost predicate PcInv(st: Store, i: NodeId, n: Node) {
    match n.pc
    case Idle => true
    case Clock(now) => now <= st.clock && n.expiresAt <= now + n.ttl
    case Renewing(now) => n.leader && now <= st.clock && n.expiresAt <= now + n.ttl
    case Renewed(now, held) =>
      n.leader && now <= st.clock && n.expiresAt <= now + n.ttl && (held ==> Backed(st, i, n.fence, now + n.ttl))
    case Gate(now) => now <= st.clock && n.expiresAt <= now + n.ttl
    case Confirming(now) =>
      !n.leader && n.unconfirmed && n.termDone.None? && now <= st.clock && n.expiresAt <= now + n.ttl
    case Confirmed(now, held) =>
      && !n.leader && n.unconfirmed && n.termDone.None? && now <= st.clock && n.expiresAt <= now + n.ttl
      && (held ==> Issued(st, i, n.fence) && Backed(st, i, n.fence, now + n.ttl))
    case Claiming(now) =>
      !n.leader && !n.unconfirmed && n.termDone.None? && now <= st.clock && n.expiresAt <= now + n.ttl
    case Claimed(now, got, applied) =>
      && !n.leader && !n.unconfirmed && n.termDone.None? && now <= st.clock && n.expiresAt <= now + n.ttl
      && (got != 0 ==> AboveTerms(n, got)) && got <= |st.claims| + 1
      && (applied ==> Issued(st, i, got) && Backed(st, i, got, now + n.ttl))
    case Joining(done) => !n.leader && n.stopping && done == n.termDone
    case Releasing => !n.leader && forall k :: 0 <= k < |n.terms| ==> n.terms[k].exited
    case Stopped => !n.leader
  }

  ghost predicate NodeInv(st: Store, i: NodeId, n: Node) {
    TermsInv(st, i, n) && LeaderInv(st, i, n) && PcInv(st, i, n)
  }

  ghost predicate WritesInv(st: Store, writes: seq<Fence>) {
    && (forall k :: 0 <= k < |writes| ==> writes[k] <= |st.claims|)
    && (forall k, l :: 0 <= k < l < |writes| ==> writes[k] <= writes[l])
  }

  ghost predicate Core(s: State) {
    && StoreInv(s.store)
    && WritesInv(s.store, s.writes)
    && forall i :: 0 <= i < |s.nodes| ==> NodeInv(s.store, i, s.nodes[i])
  }

  /** Whatever fence the node relies on, or is about to, was issued after this one. */
  predicate Beyond(n: Node, fence: Fence) {
    (n.fence != 0 ==> fence < n.fence) && (n.pc.Claimed? && n.pc.got != 0 ==> fence < n.pc.got)
  }

  ghost predicate OrphanInv(st: Store, n: Node, statement: Statement) {
    if statement.Claim? then statement.now <= st.clock
    else statement.fence <= |st.claims| && Beyond(n, statement.fence)
  }

  ghost predicate Orphans(s: State) {
    forall k :: 0 <= k < |s.orphans| ==>
      && s.orphans[k].owner < |s.nodes|
      && (s.orphans[k].spent ==> OrphanInv(s.store, s.nodes[s.orphans[k].owner], s.orphans[k].statement))
  }

  ghost predicate Inv(s: State) { Core(s) && Orphans(s) }

  // ---- Each action keeps the invariant --------------------------------------

  /** A store change that leaves owner j's backing and history in place. */
  ghost predicate Keeps(st: Store, st': Store, j: NodeId) {
    && st.clock <= st'.clock
    && st.claims <= st'.claims
    && forall f, until {:trigger Backed(st', j, f, until)} :: Backed(st, j, f, until) ==> Backed(st', j, f, until)
  }

  lemma NodeFrame(st: Store, st': Store, j: NodeId, n: Node)
    requires NodeInv(st, j, n) && Keeps(st, st', j)
    ensures NodeInv(st', j, n)
  {
  }

  lemma WritesFrame(st: Store, st': Store, writes: seq<Fence>)
    requires WritesInv(st, writes) && st.claims <= st'.claims
    ensures WritesInv(st', writes)
  {
  }

  /** A store change by owner i that disturbs nobody else. */
  ghost predicate KeepsOthers(st: Store, st': Store, i: NodeId) {
    StoreInv(st') && st.claims <= st'.claims && forall j :: j != i ==> Keeps(st, st', j)
  }

  /** A claim needs an expired row, so it takes nothing from a backed owner. */
  lemma ClaimKeeps(st: Store, i: NodeId, now: Time, expires: Time)
    requires StoreInv(st) && now <= st.clock
    ensures KeepsOthers(st, CommitClaim(st, i, now, expires), i) && Keeps(st, CommitClaim(st, i, now, expires), i)
  {
  }

  lemma RenewKeeps(st: Store, i: NodeId, fence: Fence, now: Time, expires: Time)
    requires StoreInv(st)
    ensures KeepsOthers(st, CommitRenew(st, i, fence, now, expires), i)
  {
  }

  lemma ReleaseKeeps(st: Store, i: NodeId, fence: Fence)
    requires StoreInv(st)
    ensures KeepsOthers(st, CommitRelease(st, i, fence), i)
  {
  }

  /** Steps that touch one node's variables and not the store. */
  lemma LocalCore(s: State, i: NodeId, n: Node)
    requires Core(s) && i < |s.nodes| && NodeInv(s.store, i, n)
    ensures Core(Put(s, i, n))
  {
  }

  /** A new term is the only live one and the highest fence. */
  lemma StartTermInv(st: Store, i: NodeId, n: Node, expires: Time)
    requires StoreInv(st) && TermsInv(st, i, n) && n.termDone.None?
    requires AboveTerms(n, n.fence) && Issued(st, i, n.fence) && Backed(st, i, n.fence, expires)
    requires expires <= st.clock + n.ttl
    ensures NodeInv(st, i, StartTerm(n, expires))
  {
  }

  lemma DropInv(st: Store, i: NodeId, n: Node)
    requires TermsInv(st, i, n) && LeaderInv(st, i, n)
    ensures TermsInv(st, i, DropLeadership(n)) && LeaderInv(st, i, DropLeadership(n))
  {
  }

  lemma RenewReplyInv(st: Store, i: NodeId, n: Node, now: Time, held: bool, err: bool)
    requires NodeInv(st, i, n) && n.leader && now <= st.clock && n.expiresAt <= now + n.ttl
    requires held ==> Backed(st, i, n.fence, now + n.ttl)
    ensures NodeInv(st, i, OnRenewReply(n, now, held, err))
  {
    DropInv(st, i, n);
  }

  lemma ConfirmReplyInv(st: Store, i: NodeId, n: Node, now: Time, held: bool, err: bool)
    requires StoreInv(st) && NodeInv(st, i, n) && now <= st.clock && n.expiresAt <= now + n.ttl
    requires !n.leader && n.unconfirmed && n.termDone.None?
    requires held ==> Issued(st, i, n.fence) && Backed(st, i, n.fence, now + n.ttl)
    ensures NodeInv(st, i, OnConfirmReply(n, now, held, err))
  {
    if held && !err && !n.stopping { StartTermInv(st, i, n, now + n.ttl); }
  }

  lemma ClaimReplyInv(st: Store, i: NodeId, n: Node, now: Time, got: Fence, held: bool, err: bool)
    requires StoreInv(st) && NodeInv(st, i, n) && now <= st.clock && n.expiresAt <= now + n.ttl
    requires !n.leader && !n.unconfirmed && n.termDone.None? && (got != 0 ==> AboveTerms(n, got))
    requires got <= |st.claims| + 1
    requires held ==> Issued(st, i, got) && Backed(st, i, got, now + n.ttl)
    ensures NodeInv(st, i, OnClaimReply(n, now, got, held, err))
  {
    var m := if got != 0 && (held || err) then n.(fence := got, unconfirmed := true) else n;
    assert TermsInv(st, i, m) && LeaderInv(st, i, m);
    if held && !err && !n.stopping { StartTermInv(st, i, m, now + n.ttl); }
  }

  lemma ReplyInv(st: Store, i: NodeId, n: Node, err: bool, fenceLost: bool)
    requires StoreInv(st) && NodeInv(st, i, n)
    ensures NodeInv(st, i, DoReply(n, err, fenceLost))
  {
    match n.pc {
      case Renewing(now) => RenewReplyInv(st, i, n, now, false, true);
      case Renewed(now, held) => RenewReplyInv(st, i, n, now, held, err);
      case Confirming(now) => ConfirmReplyInv(st, i, n, now, false, true);
      case Confirmed(now, held) => ConfirmReplyInv(st, i, n, now, held, err);
      case Claimed(now, got, applied) =>
        if applied && !err { ClaimReplyInv(st, i, n, now, got, true, false); }
        else if !applied && got == 0 && !err { ClaimReplyInv(st, i, n, now, 0, false, false); }
        else { ClaimReplyInv(st, i, n, now, if fenceLost then 0 else got, false, true); }
      case _ =>
    }
  }

  /** A committed statement of node i: its own new state is checked against the
      new store, every other node only needs its backing to survive. */
  lemma OthersKept(s: State, st': Store, i: NodeId, n': Node)
    requires Core(s) && i < |s.nodes| && KeepsOthers(s.store, st', i) && NodeInv(st', i, n')
    ensures Core(Put(s.(store := st'), i, n'))
  {
    WritesFrame(s.store, st', s.writes);
    forall j | 0 <= j < |s.nodes| && j != i ensures NodeInv(st', j, s.nodes[j]) {
      NodeFrame(s.store, st', j, s.nodes[j]);
    }
  }

  /** The renewing node's own view after its renewal commits: the new expiry is
      no earlier than the deadline it already relied on. */
  lemma RenewOwn(st: Store, i: NodeId, n: Node)
    requires StoreInv(st) && NodeInv(st, i, n) && n.pc.Renewing?
    ensures NodeInv(Committed(st, i, n).0, i, Committed(st, i, n).1)
  {
  }

  lemma ConfirmOwn(st: Store, i: NodeId, n: Node)
    requires StoreInv(st) && NodeInv(st, i, n) && n.pc.Confirming?
    ensures NodeInv(Committed(st, i, n).0, i, Committed(st, i, n).1)
  {
  }

  lemma ClaimOwn(st: Store, i: NodeId, n: Node)
    requires StoreInv(st) && NodeInv(st, i, n) && n.pc.Claiming?
    ensures NodeInv(Committed(st, i, n).0, i, Committed(st, i, n).1)
  {
    var now := n.pc.now;
    ClaimKeeps(st, i, now, now + n.ttl);
    NodeFrame(st, CommitClaim(st, i, now, now + n.ttl), i, n);
  }

  lemma ReleaseOwn(st: Store, i: NodeId, n: Node)
    requires StoreInv(st) && NodeInv(st, i, n) && n.pc.Releasing?
    ensures NodeInv(Committed(st, i, n).0, i, Committed(st, i, n).1)
  {
  }

  lemma CommitOwn(st: Store, i: NodeId, n: Node)
    requires StoreInv(st) && NodeInv(st, i, n)
    ensures NodeInv(Committed(st, i, n).0, i, Committed(st, i, n).1)
  {
    match n.pc {
      case Renewing(_) => RenewOwn(st, i, n);
      case Confirming(_) => ConfirmOwn(st, i, n);
      case Claiming(_) => ClaimOwn(st, i, n);
      case Releasing => ReleaseOwn(st, i, n);
      case _ => assert Committed(st, i, n) == (st, n);
    }
  }

  lemma CommitKeeps(st: Store, i: NodeId, n: Node)
    requires StoreInv(st) && NodeInv(st, i, n)
    ensures KeepsOthers(st, Committed(st, i, n).0, i)
  {
    match n.pc {
      case Renewing(now) => RenewKeeps(st, i, n.fence, now, now + n.ttl);
      case Confirming(now) => RenewKeeps(st, i, n.fence, now, now + n.ttl);
      case Claiming(now) => ClaimKeeps(st, i, now, now + n.ttl);
      case Releasing => ReleaseKeeps(st, i, n.fence);
      case _ =>
    }
  }

  lemma CommitCore(s: State, i: NodeId)
    requires Core(s) && i < |s.nodes|
    ensures Core(DoCommit(s, i))
  {
    CommitKeeps(s.store, i, s.nodes[i]);
    CommitOwn(s.store, i, s.nodes[i]);
    OthersKept(s, Committed(s.store, i, s.nodes[i]).0, i, Committed(s.store, i, s.nodes[i]).1);
  }

  lemma ElapseCore(s: State, d: nat)
    requires Core(s)
    ensures Core(Apply(s, Elapse(d)))
  {
    var s' := Apply(s, Elapse(d));
    forall j | 0 <= j < |s.nodes| ensures NodeInv(s'.store, j, s.nodes[j]) {
      NodeFrame(s.store, s'.store, j, s.nodes[j]);
    }
  }

  lemma StopInv(st: Store, i: NodeId, n: Node)
    requires NodeInv(st, i, n)
    ensures NodeInv(st, i, n.(stopping := true))
  {
  }

  lemma ReadClockInv(st: Store, i: NodeId, n: Node)
    requires NodeInv(st, i, n)
    ensures NodeInv(st, i, n.(pc := Clock(st.clock)))
  {
  }

  /** Joined means no term of this node is left alive. */
  lemma JoinInv(st: Store, i: NodeId, n: Node)
    requires NodeInv(st, i, n) && n.pc.Joining?
    ensures NodeInv(st, i, OnJoin(n, n.pc.done))
  {
  }

  lemma RollBackInv(st: Store, i: NodeId, n: Node)
    requires StoreInv(st) && NodeInv(st, i, n)
    ensures NodeInv(st, i, DoRollBack(n, st.row))
  {
  }

  lemma GateInv(st: Store, i: NodeId, n: Node)
    requires NodeInv(st, i, n) && n.pc.Gate?
    ensures NodeInv(st, i, OnGate(n, n.pc.now))
  {
  }

  lemma DroppingInv(st: Store, i: NodeId, n: Node)
    requires NodeInv(st, i, n)
    ensures n.pc.Idle? ==> NodeInv(st, i, ClockFailed(n))
    ensures n.pc.Clock? ==> NodeInv(st, i, OnClock(n, n.pc.now))
    ensures n.pc.Idle? && n.stopping ==> NodeInv(st, i, OnShutdown(n))
  {
    DropInv(st, i, n);
  }

  lemma TermExitTerms(st: Store, i: NodeId, n: Node, k: nat)
    requires TermsInv(st, i, n) && k < |n.terms|
    ensures TermsInv(st, i, n.(terms := ExitTerm(n.terms, k)))
  {
  }

  lemma TermExitLeader(st: Store, i: NodeId, n: Node, k: nat)
    requires LeaderInv(st, i, n) && k < |n.terms|
    ensures LeaderInv(st, i, n.(terms := ExitTerm(n.terms, k)))
  {
  }

  lemma TermExitPc(st: Store, i: NodeId, n: Node, k: nat)
    requires PcInv(st, i, n) && k < |n.terms|
    ensures PcInv(st, i, n.(terms := ExitTerm(n.terms, k)))
  {
  }

  lemma TermExitInv(st: Store, i: NodeId, n: Node, k: nat)
    requires NodeInv(st, i, n) && k < |n.terms|
    ensures NodeInv(st, i, n.(terms := ExitTerm(n.terms, k)))
  {
    TermExitTerms(st, i, n, k);
    TermExitLeader(st, i, n, k);
    TermExitPc(st, i, n, k);
  }

  lemma CrashInv(st: Store, i: NodeId, n: Node)
    requires NodeInv(st, i, n)
    ensures NodeInv(st, i, Crashed(n))
  {
  }

  lemma WriteCore(s: State, i: NodeId, k: nat)
    requires Core(s) && i < |s.nodes|
    ensures Core(Apply(s, Write(i, k)))
  {
  }

  lemma NodeStepInv(st: Store, i: NodeId, n: Node, a: Action)
    requires StoreInv(st) && NodeInv(st, i, n)
    ensures NodeInv(st, i, NodeStep(st, n, a))
  {
    match a {
      case Reply(_, err, lost) => ReplyInv(st, i, n, err, lost);
      case TermExits(_, k) => if k < |n.terms| { TermExitInv(st, i, n, k); }
      case ClockUnreachable(_) => DroppingInv(st, i, n);
      case ProcessClock(_) => DroppingInv(st, i, n);
      case BeginShutdown(_) => DroppingInv(st, i, n);
      case RollBack(_) => RollBackInv(st, i, n);
      case PassGate(_) => if n.pc.Gate? { GateInv(st, i, n); }
      case Cancel(_) => StopInv(st, i, n);
      case ReadClock(_) => ReadClockInv(st, i, n);
      case EndJoin(_) => if n.pc.Joining? { JoinInv(st, i, n); }
      case _ =>
    }
  }

  lemma CrashCore(s: State, i: NodeId)
    requires Core(s) && i < |s.nodes|
    ensures Core(DoCrash(s, i))
  {
    CrashInv(s.store, i, s.nodes[i]);
    LocalCore(s, i, Crashed(s.nodes[i]));
  }

  /** A late statement of an earlier life does not touch what its node relies on. */
  lemma LandOwn(st: Store, i: NodeId, n: Node, statement: Statement)
    requires StoreInv(st) && NodeInv(st, i, n) && OrphanInv(st, n, statement)
    ensures NodeInv(Execute(st, i, statement), i, n)
  {
    if statement.Claim? {
      ClaimKeeps(st, i, statement.now, statement.expires);
      NodeFrame(st, Execute(st, i, statement), i, n);
    } else {
      BeyondKept(st, Execute(st, i, statement), i, n, statement.fence);
    }
  }

  /** Only the backing of one fence is at stake. */
  lemma BeyondKept(st: Store, st': Store, i: NodeId, n: Node, fence: Fence)
    requires NodeInv(st, i, n) && Beyond(n, fence) && st'.clock == st.clock && st'.claims == st.claims
    requires st.row.Some? && st.row.value.fence != fence ==> st'.row == st.row
    ensures NodeInv(st', i, n)
  {
    assert forall f, until {:trigger Backed(st', i, f, until)} ::
      f != fence && Backed(st, i, f, until) ==> Backed(st', i, f, until);
  }

  lemma LandKeeps(st: Store, i: NodeId, n: Node, statement: Statement)
    requires StoreInv(st) && OrphanInv(st, n, statement)
    ensures KeepsOthers(st, Execute(st, i, statement), i)
  {
    match statement
    case Claim(now, expires) => ClaimKeeps(st, i, now, expires);
    case Renew(fence, now, expires) => RenewKeeps(st, i, fence, now, expires);
    case Release(fence) => ReleaseKeeps(st, i, fence);
  }

  lemma LandCore(s: State, k: nat)
    requires Inv(s)
    ensures Core(DoLand(s, k, false))
  {
    if DoLand(s, k, false) != s {
      var i, statement := s.orphans[k].owner, s.orphans[k].statement;
      LandKeeps(s.store, i, s.nodes[i], statement);
      LandOwn(s.store, i, s.nodes[i], statement);
      OthersKept(s, Execute(s.store, i, statement), i, s.nodes[i]);
      assert s.nodes[i := s.nodes[i]] == s.nodes;
    }
  }

  lemma ApplyCore(s: State, a: Action)
    requires Inv(s) && !Stray(a)
    ensures Core(Apply(s, a))
  {
    if a.Elapse? {
      ElapseCore(s, a.d);
    } else if a.Land? {
      LandCore(s, a.orphan);
    } else if a.i < |s.nodes| {
      if a.Write? { WriteCore(s, a.i, a.k); }
      else if a.Commit? { CommitCore(s, a.i); }
      else if a.Crash? { CrashCore(s, a.i); }
      else {
        NodeStepInv(s.store, a.i, s.nodes[a.i], a);
        LocalCore(s, a.i, NodeStep(s.store, s.nodes[a.i], a));
      }
    }
  }

  /** The fences a node comes to rely on are issued after any that exists. */
  lemma BeyondStep(st: Store, n: Node, a: Action, fence: Fence)
    requires StoreInv(st) && Beyond(n, fence) && fence <= |st.claims|
    ensures Beyond(NodeStep(st, n, a), fence) && Beyond(Crashed(n), fence)
  {
    if a.Reply? { BeyondReply(n, a.err, a.fenceLost, fence); }
  }

  lemma BeyondReply(n: Node, err: bool, fenceLost: bool, fence: Fence)
    requires Beyond(n, fence)
    ensures Beyond(DoReply(n, err, fenceLost), fence)
  {
  }

  lemma BeyondCommit(st: Store, i: NodeId, n: Node, fence: Fence)
    requires StoreInv(st) && Beyond(n, fence) && fence <= |st.claims|
    ensures Beyond(Committed(st, i, n).1, fence)
  {
  }

  /** What is left of the orphans' invariant over a step of node i. */
  lemma OrphansStep(s: State, s': State, i: NodeId)
    requires Orphans(s) && i < |s.nodes| == |s'.nodes| && s'.orphans == s.orphans
    requires forall j :: 0 <= j < |s.nodes| && j != i ==> s'.nodes[j] == s.nodes[j]
    requires s.store.clock <= s'.store.clock && |s.store.claims| <= |s'.store.claims|
    requires forall f: Fence :: f <= |s.store.claims| && Beyond(s.nodes[i], f) ==> Beyond(s'.nodes[i], f)
    ensures Orphans(s')
  {
  }

  lemma CrashOrphans(s: State, i: NodeId)
    requires Inv(s) && i < |s.nodes|
    ensures Orphans(DoCrash(s, i))
  {
    assert NodeInv(s.store, i, s.nodes[i]);
    OrphansStep(s, Put(s, i, Crashed(s.nodes[i])), i);
  }

  lemma LandOrphans(s: State, k: nat, stray: bool)
    requires Orphans(s)
    ensures Orphans(DoLand(s, k, stray))
  {
  }

  lemma ApplyOrphans(s: State, a: Action)
    requires Inv(s)
    ensures Orphans(Apply(s, a))
  {
    if a.Land? {
      LandOrphans(s, a.orphan, a.stray);
    } else if a.Elapse? || a.i >= |s.nodes| {
    } else if a.Crash? {
      CrashOrphans(s, a.i);
    } else {
      var n, s' := s.nodes[a.i], Apply(s, a);
      forall f: Fence | f <= |s.store.claims| && Beyond(n, f) ensures Beyond(s'.nodes[a.i], f) {
        BeyondStep(s.store, n, a, f);
        BeyondCommit(s.store, a.i, n, f);
      }
      if a.Commit? { CommitKeeps(s.store, a.i, n); }
      OrphansStep(s, s', a.i);
    }
  }

  lemma ApplyInv(s: State, a: Action)
    requires Inv(s) && !Stray(a)
    ensures Inv(Apply(s, a))
  {
    ApplyCore(s, a);
    ApplyOrphans(s, a);
  }

  lemma {:induction false} RunInv(s: State, actions: seq<Action>)
    requires Initial(s) && Tame(actions)
    ensures Inv(Run(s, actions))
    decreases |actions|
  {
    if actions != [] {
      RunInv(s, actions[..|actions| - 1]);
      ApplyInv(Run(s, actions[..|actions| - 1]), actions[|actions| - 1]);
    }
  }

  // ---- The theorems, over every run ------------------------------------------

  /** A leader the datastore clock has not yet passed. */
  ghost predicate LiveLeader(s: State, i: NodeId) {
    i < |s.nodes| && s.nodes[i].leader && s.store.clock < s.nodes[i].expiresAt
  }

  /** The row is exactly the live leader's, at its fence, live at least until the
      deadline it relies on; so there is at most one. */
  ghost predicate Exclusive(s: State) {
    forall i: NodeId :: LiveLeader(s, i) ==>
      && s.store.row.Some? && s.store.row.value.owner == i && s.store.row.value.fence == s.nodes[i].fence
      && s.nodes[i].expiresAt <= s.store.row.value.expires
  }

  lemma InvExclusive(s: State)
    requires Inv(s)
    ensures Exclusive(s)
  {
    forall i: NodeId | LiveLeader(s, i)
      ensures s.store.row.Some? && s.store.row.value.owner == i && s.store.row.value.fence == s.nodes[i].fence
      ensures s.nodes[i].expiresAt <= s.store.row.value.expires
    {
      assert NodeInv(s.store, i, s.nodes[i]);
    }
  }

  /** Lease exclusion, over every interleaving with lost replies, pauses, shutdowns,
      crashes and statements of earlier lives that land late. */
  lemma LeaseExclusion(s: State, actions: seq<Action>, i: NodeId, j: NodeId)
    requires Initial(s) && Tame(actions)
    ensures Exclusive(Run(s, actions))
    ensures LiveLeader(Run(s, actions), i) && LiveLeader(Run(s, actions), j) ==> i == j
  {
    RunInv(s, actions);
    InvExclusive(Run(s, actions));
  }

  /** Terms never overlap on a node, each runs under a fence the datastore issued
      to that node, and no two terms anywhere in the cluster share a fence. */
  lemma TermDiscipline(s: State, actions: seq<Action>, i: NodeId, k: nat, j: NodeId, l: nat)
    requires Initial(s) && Tame(actions)
    requires var nodes := Run(s, actions).nodes;
      i < |nodes| && j < |nodes| && k < |nodes[i].terms| && l < |nodes[j].terms|
    ensures
      var r := Run(s, actions);
      var t, u := r.nodes[i].terms[k], r.nodes[j].terms[l];
      && Issued(r.store, i, t.fence)
      && (i == j && !t.exited && !u.exited ==> k == l)
      && (t.fence == u.fence ==> i == j && k == l)
  {
    var r := Run(s, actions);
    RunInv(s, actions);
    assert Inv(r);
    TermsApart(r.store, i, r.nodes[i], k, j, r.nodes[j], l);
  }

  lemma TermsApart(st: Store, i: NodeId, n: Node, k: nat, j: NodeId, m: Node, l: nat)
    requires TermsInv(st, i, n) && TermsInv(st, j, m) && k < |n.terms| && l < |m.terms| && (i == j ==> n == m)
    ensures Issued(st, i, n.terms[k].fence)
    ensures i == j && !n.terms[k].exited && !m.terms[l].exited ==> k == l
    ensures n.terms[k].fence == m.terms[l].fence ==> i == j && k == l
  {
    assert Issued(st, i, n.terms[k].fence) && Issued(st, j, m.terms[l].fence);
  }

  /** One reply starts a term only when it confirms a fence, without error. */
  lemma ReplyStarts(st: Store, i: NodeId, n: Node, err: bool, fenceLost: bool)
    requires NodeInv(st, i, n) && DoReply(n, err, fenceLost).terms != n.terms && !n.leader
    ensures
      var n' := DoReply(n, err, fenceLost);
      && !err && !n.stopping && n'.terms == n.terms + [Term(n'.fence, false, false)] && Issued(st, i, n'.fence)
      && (n.pc.Confirmed? || n.pc.Claimed?)
      && (n.pc.Confirmed? ==> n.pc.held && n'.fence == n.fence)
      && (n.pc.Claimed? ==> n.pc.applied && n'.fence == n.pc.got)
      && forall k :: 0 <= k < |n.terms| ==> n.terms[k].exited
  {
  }

  /** No other step of the loop starts one. */
  lemma OthersStartNone(st: Store, i: NodeId, n: Node, a: Action)
    requires NodeInv(st, i, n) && (!a.Reply? || n.leader)
    ensures |NodeStep(st, n, a).terms| == |n.terms|
  {
  }

  /** A step starts a term only by an error-free reply to a committed claim or to
      an exact renewal of a provisional one, with every earlier term exited. */
  lemma TermStartsConfirmed(s: State, actions: seq<Action>, a: Action, i: NodeId)
    requires Initial(s) && Tame(actions)
    requires var r := Run(s, actions); i < |r.nodes| && |r.nodes[i].terms| < |Apply(r, a).nodes[i].terms|
    ensures
      var r := Run(s, actions);
      var n, n' := r.nodes[i], Apply(r, a).nodes[i];
      && a.Reply? && a.i == i && !a.err && !n.stopping
      && n'.terms == n.terms + [Term(n'.fence, false, false)] && Issued(r.store, i, n'.fence)
      && (n.pc.Confirmed? || n.pc.Claimed?)
      && (n.pc.Confirmed? ==> n.pc.held && n'.fence == n.fence)
      && (n.pc.Claimed? ==> n.pc.applied && n'.fence == n.pc.got)
      && forall k :: 0 <= k < |n.terms| ==> n.terms[k].exited
  {
    var r := Run(s, actions);
    RunInv(s, actions);
    var n := r.nodes[i];
    assert NodeInv(r.store, i, n);
    assert !a.Land? && a.i == i && !a.Commit? && !a.Crash?;
    if a.Reply? && !n.leader {
      ReplyStarts(r.store, i, n, a.err, a.fenceLost);
    } else {
      OthersStartNone(r.store, i, n, a);
    }
  }

  /** What one committed statement can do to the row. */
  lemma CommitEffect(st: Store, i: NodeId, n: Node)
    requires StoreInv(st) && NodeInv(st, i, n) && Committed(st, i, n).0.row != st.row
    ensures
      var row, row' := st.row, Committed(st, i, n).0.row;
      && row'.Some? && row'.value.owner == i
      && (if row.Some? && row'.value.fence == row.value.fence
          then row.value.owner == i && row.value.fence == n.fence
          else Claimable(row, st.clock) && row'.value.fence == TopFence(row) + 1)
      && (row'.value.expires == 0 && n.pc.Releasing? ==> forall k :: 0 <= k < |n.terms| ==> n.terms[k].exited)
      && (n.leader ==> row.Some? && row'.value.fence == row.value.fence && n.expiresAt <= row'.value.expires)
  {
  }

  /** What an orphan can do to the row. */
  lemma LandEffect(st: Store, i: NodeId, statement: Statement)
    requires StoreInv(st) && Execute(st, i, statement).row != st.row
    requires statement.Claim? ==> statement.now <= st.clock
    ensures
      var row, row' := st.row, Execute(st, i, statement).row;
      && row'.Some? && row'.value.owner == i
      && (if row.Some? && row'.value.fence == row.value.fence
          then row.value.owner == i && !statement.Claim? && row.value.fence == statement.fence
          else Claimable(row, st.clock) && row'.value.fence == TopFence(row) + 1)
  {
  }

  /** Whose statement takes effect, and the fence it names. */
  function Actor(s: State, a: Action): Option<(NodeId, Fence)> {
    if a.Commit? && a.i < |s.nodes| then Some((a.i, s.nodes[a.i].fence))
    else if a.Land? && a.orphan < |s.orphans| then
      var o := s.orphans[a.orphan];
      Some((o.owner, if o.statement.Claim? then 0 else o.statement.fence))
    else None
  }

  /** The row is touched only by its own owner at its own fence, or taken over
      under the next fence once expired; a release finds every term exited; and
      no statement of a leader shortens what that leader relies on. */
  lemma RowDiscipline(s: State, actions: seq<Action>, a: Action)
    requires Initial(s) && Tame(actions) && !Stray(a)
    requires Apply(Run(s, actions), a).store.row != Run(s, actions).store.row
    ensures
      var r := Run(s, actions);
      var row, row', actor := r.store.row, Apply(r, a).store.row, Actor(r, a);
      && actor.Some? && row'.Some? && row'.value.owner == actor.value.0
      && (if row.Some? && row'.value.fence == row.value.fence
          then row.value.owner == actor.value.0 && row.value.fence == actor.value.1
          else Claimable(row, r.store.clock) && row'.value.fence == TopFence(row) + 1)
    ensures
      var r := Run(s, actions);
      a.Commit? ==>
        && a.i < |r.nodes|
        && var n := r.nodes[a.i];
        && (n.pc.Releasing? ==> forall k :: 0 <= k < |n.terms| ==> n.terms[k].exited)
        && (n.leader ==> Apply(r, a).store.row.Some? && n.expiresAt <= Apply(r, a).store.row.value.expires)
  {
    var r := Run(s, actions);
    RunInv(s, actions);
    if a.Commit? {
      assert NodeInv(r.store, a.i, r.nodes[a.i]);
      CommitEffect(r.store, a.i, r.nodes[a.i]);
    } else {
      LandEffect(r.store, r.orphans[a.orphan].owner, r.orphans[a.orphan].statement);
    }
  }

  // ---- Fenced singleton writes, whatever lands when --------------------------------

  lemma {:induction false} StoreRunInv(s: State, actions: seq<Action>)
    requires Initial(s)
    ensures StoreInv(Run(s, actions).store) && WritesInv(Run(s, actions).store, Run(s, actions).writes)
    decreases |actions|
  {
    if actions != [] {
      var r, a := Run(s, actions[..|actions| - 1]), actions[|actions| - 1];
      StoreRunInv(s, actions[..|actions| - 1]);
      ApplyGrows(r, a);
      WritesFrame(r.store, Apply(r, a).store, r.writes);
    }
  }

  lemma StatementGrows(st: Store, i: NodeId, n: Node, statement: Statement)
    requires StoreInv(st)
    ensures StoreInv(Execute(st, i, statement)) && st.claims <= Execute(st, i, statement).claims
    ensures StoreInv(Committed(st, i, n).0) && st.claims <= Committed(st, i, n).0.claims
  {
  }

  /** Every step keeps the issued fences and only appends to the writes, and what
      it appends carries the current top fence. */
  lemma ApplyGrows(s: State, a: Action)
    requires StoreInv(s.store)
    ensures StoreInv(Apply(s, a).store)
    ensures s.store.claims <= Apply(s, a).store.claims && s.writes <= Apply(s, a).writes
    ensures forall k :: |s.writes| <= k < |Apply(s, a).writes| ==> Apply(s, a).writes[k] == |s.store.claims|
  {
    if a.Commit? && a.i < |s.nodes| { StatementGrows(s.store, a.i, s.nodes[a.i], Release(0)); }
    if a.Land? && a.orphan < |s.orphans| {
      var o := s.orphans[a.orphan];
      StatementGrows(s.store, o.owner, Boot(0, []), o.statement);
    }
  }

  lemma {:induction false} RunGrows(s: State, before: seq<Action>, after: seq<Action>)
    requires Initial(s)
    ensures
      var r, r' := Run(s, before), Run(s, before + after);
      && r.store.claims <= r'.store.claims && r.writes <= r'.writes
      && forall k :: |r.writes| <= k < |r'.writes| ==> |r.store.claims| <= r'.writes[k]
    decreases |after|
  {
    if after == [] {
      assert before + after == before;
    } else {
      var all := before + after;
      assert all[..|all| - 1] == before + after[..|after| - 1];
      RunGrows(s, before, after[..|after| - 1]);
      StoreRunInv(s, all[..|all| - 1]);
      ApplyGrows(Run(s, all[..|all| - 1]), all[|all| - 1]);
    }
  }

  /** Committed singleton writes carry nondecreasing fences over the whole run,
      and once a claim has issued fence f nothing below f commits any more. */
  lemma FencedWrites(s: State, before: seq<Action>, after: seq<Action>)
    requires Initial(s)
    ensures
      var r, r' := Run(s, before), Run(s, before + after);
      && (forall k, l :: 0 <= k < l < |r'.writes| ==> r'.writes[k] <= r'.writes[l])
      && r.writes <= r'.writes
      && forall k :: |r.writes| <= k < |r'.writes| ==> TopFence(r.store.row) <= r'.writes[k]
  {
    StoreRunInv(s, before);
    StoreRunInv(s, before + after);
    RunGrows(s, before, after);
  }

  /** While a leader is live, nobody else's term can commit. */
  lemma LiveLeaderWritesAlone(s: State, actions: seq<Action>, i: NodeId, j: NodeId, k: nat)
    requires Initial(s) && Tame(actions) && LiveLeader(Run(s, actions), i)
    requires Apply(Run(s, actions), Write(j, k)) != Run(s, actions)
    ensures j == i && Run(s, actions).nodes[j].terms[k].fence == Run(s, actions).nodes[i].fence
  {
    LeaseExclusion(s, actions, i, i);
  }

  // ---- Non-vacuity, and why an errored call must not land late -----------------

  lemma RunSnoc(s: State, actions: seq<Action>, a: Action)
    ensures Run(s, actions + [a]) == Apply(Run(s, actions), a)
  {
    assert (actions + [a])[..|actions|] == actions;
  }

  /** A pause of d, then a heartbeat whose one store call commits or not and
      whose reply is an error or not. */
  function Stepped(s: State, i: NodeId, d: nat, commits: bool, err: bool): State {
    var read := Apply(Apply(s, Elapse(d)), ReadClock(i));
    var passed := Apply(Apply(read, ProcessClock(i)), PassGate(i));
    Apply(Apply(passed, if commits then Commit(i) else Elapse(0)), Reply(i, err, false))
  }

  /** The same as a run of six actions. */
  function Beat(i: NodeId, d: nat, commits: bool, err: bool): seq<Action> {
    [] + [Elapse(d)] + [ReadClock(i)] + [ProcessClock(i)] + [PassGate(i)]
    + [if commits then Commit(i) else Elapse(0)] + [Reply(i, err, false)]
  }

  lemma BeatRuns(s: State, i: NodeId, d: nat, commits: bool, err: bool)
    ensures Run(s, Beat(i, d, commits, err)) == Stepped(s, i, d, commits, err)
  {
    var read := [] + [Elapse(d)] + [ReadClock(i)];
    var passed := read + [ProcessClock(i)] + [PassGate(i)];
    var call := if commits then Commit(i) else Elapse(0);
    RunSnoc(s, [], Elapse(d));
    RunSnoc(s, [] + [Elapse(d)], ReadClock(i));
    RunSnoc(s, read, ProcessClock(i));
    RunSnoc(s, read + [ProcessClock(i)], PassGate(i));
    RunSnoc(s, passed, call);
    RunSnoc(s, passed + [call], Reply(i, err, false));
  }

  /** An idle node that does not lead, is not stopping and has no term draining. */
  predicate Standby(n: Node) {
    n.pc.Idle? && !n.leader && !n.stopping && Drained(n).termDone.None?
  }

  function Waiting(n: Node, now: Time): Node {
    Drained(n).(pc := if n.unconfirmed then Confirming(now) else Claiming(now))
  }

  /** The store call of a beat: its commit, if any, and its reply. */
  function Called(s: State, i: NodeId, n: Node, commits: bool, err: bool): State
    requires i < |s.nodes|
  {
    var (st', n') := if commits then Committed(s.store, i, n) else (s.store, n);
    State(st', s.nodes[i := DoReply(n', err, false)], s.writes, s.orphans)
  }

  lemma StandbyPasses(s: State, i: NodeId, now: Time)
    requires i < |s.nodes| && s.nodes[i].pc == Clock(now) && Standby(s.nodes[i].(pc := Idle))
    ensures Apply(Apply(s, ProcessClock(i)), PassGate(i)) == Put(s, i, Waiting(s.nodes[i], now))
  {
    var s' := Apply(s, ProcessClock(i));
    assert s' == Put(s, i, s.nodes[i].(pc := Gate(now)));
  }

  lemma CallEnds(s: State, i: NodeId, n: Node, commits: bool, err: bool)
    requires i < |s.nodes|
    ensures Apply(Apply(Put(s, i, n), if commits then Commit(i) else Elapse(0)), Reply(i, err, false)) ==
      Called(s, i, n, commits, err)
  {
  }

  /** What a beat of an idle standby does: it reads the time, tries to confirm or
      claim, and processes the reply. */
  lemma SteppedIs(s: State, i: NodeId, d: nat, commits: bool, err: bool)
    requires i < |s.nodes| && Standby(s.nodes[i])
    ensures
      var now := s.store.clock + d;
      Stepped(s, i, d, commits, err) ==
        Called(s.(store := s.store.(clock := now)), i, Waiting(s.nodes[i], now), commits, err)
  {
    var now := s.store.clock + d;
    var later := s.(store := s.store.(clock := now));
    var read := Put(later, i, s.nodes[i].(pc := Clock(now)));
    assert Apply(Apply(s, Elapse(d)), ReadClock(i)) == read;
    StandbyPasses(read, i, now);
    assert Put(read, i, Waiting(read.nodes[i], now)) == Put(later, i, Waiting(s.nodes[i], now));
    CallEnds(later, i, Waiting(s.nodes[i], now), commits, err);
  }

  lemma BeatIs(s: State, i: NodeId, d: nat, commits: bool, err: bool)
    requires i < |s.nodes| && Standby(s.nodes[i])
    ensures
      var now := s.store.clock + d;
      Run(s, Beat(i, d, commits, err)) ==
        Called(s.(store := s.store.(clock := now)), i, Waiting(s.nodes[i], now), commits, err)
  {
    BeatRuns(s, i, d, commits, err);
    SteppedIs(s, i, d, commits, err);
  }

  /** A pause of d, then only steps of node i's heartbeat, none of which fails. */
  predicate CleanStep(i: NodeId, a: Action) {
    a == ReadClock(i) || a == ProcessClock(i) || a == PassGate(i) || a == Commit(i) || a == Reply(i, false, false)
  }

  ghost predicate CleanBeat(i: NodeId, d: nat, beat: seq<Action>) {
    0 < |beat| && beat[0] == Elapse(d) && forall k :: 1 <= k < |beat| ==> CleanStep(i, beat[k])
  }

  /** The run from s ends in s'. */
  ghost predicate Leads(s: State, actions: seq<Action>, s': State) { Run(s, actions) == s' }

  lemma LeadsOn(s: State, actions: seq<Action>, mid: State, a: Action)
    requires Leads(s, actions, mid)
    ensures Leads(s, actions + [a], Apply(mid, a))
  {
    RunSnoc(s, actions, a);
  }

  lemma BeatOf(s: State, i: NodeId, d: nat) returns (beat: seq<Action>)
    requires i < |s.nodes| && Standby(s.nodes[i])
    ensures CleanBeat(i, d, beat)
    ensures
      var now := s.store.clock + d;
      Leads(s, beat, Called(s.(store := s.store.(clock := now)), i, Waiting(s.nodes[i], now), true, false))
  {
    beat := Beat(i, d, true, false);
    BeatIs(s, i, d, true, false);
  }

  /** The node leads under the next fence, and the row says so. */
  ghost predicate Elected(s: State, s': State, i: NodeId, now: Time) {
    && i < |s.nodes| == |s'.nodes| && s'.store.clock == now
    && s'.nodes[i].leader && s'.nodes[i].fence == TopFence(s.store.row) + 1 && s'.nodes[i].pc.Idle?
    && s'.nodes[i].expiresAt == now + s.nodes[i].ttl && s'.nodes[i].ttl == s.nodes[i].ttl
    && s'.store.row == Some(Row(i, s'.nodes[i].fence, now + s.nodes[i].ttl))
    && s'.orphans == s.orphans && forall j :: 0 <= j < |s.nodes| && j != i ==> s'.nodes[j] == s.nodes[j]
  }

  /** From any state in which the row can be claimed, a clean heartbeat of any standby
      makes it the live leader under the next fence. */
  lemma HeartbeatElects(s: State, i: NodeId, d: nat) returns (beat: seq<Action>, s': State)
    requires i < |s.nodes| && Standby(s.nodes[i]) && Claimable(s.store.row, s.store.clock + d)
    ensures CleanBeat(i, d, beat) && Leads(s, beat, s') && Elected(s, s', i, s.store.clock + d)
    ensures 0 < s.nodes[i].ttl ==> LiveLeader(s', i)
  {
    var now, n := s.store.clock + d, s.nodes[i];
    beat, n := ClaimingBeat(s, i, d);
    var later := s.(store := s.store.(clock := now));
    ClaimElects(later, i, n, now);
    s' := Called(later, i, n, true, false);
    ElectedLater(s, later, s', i, now);
  }

  /** A clean heartbeat up to the reply of its claim. */
  lemma ClaimingBeat(s: State, i: NodeId, d: nat) returns (beat: seq<Action>, n: Node)
    requires i < |s.nodes| && Standby(s.nodes[i]) && Claimable(s.store.row, s.store.clock + d)
    ensures CleanBeat(i, d, beat) && n.pc == Claiming(s.store.clock + d) && !n.stopping && n.ttl == s.nodes[i].ttl
    ensures Leads(s, beat, Called(s.(store := s.store.(clock := s.store.clock + d)), i, n, true, false))
  {
    var now := s.store.clock + d;
    var later := s.(store := s.store.(clock := now));
    beat := BeatOf(s, i, d);
    n := Waiting(s.nodes[i], now);
    if s.nodes[i].unconfirmed {
      RefusalIs(later, i, n, now);
      n := n.(unconfirmed := false, fence := 0, pc := Claiming(now));
      beat := ClaimFollows(s, beat, later, i, n, d);
    }
  }

  lemma ElectedLater(s: State, later: State, s': State, i: NodeId, now: Time)
    requires Elected(later, s', i, now) && later == s.(store := s.store.(clock := now))
    ensures Elected(s, s', i, now) && (0 < s.nodes[i].ttl ==> LiveLeader(s', i))
  {
  }

  lemma ClaimFollows(s: State, beat: seq<Action>, later: State, i: NodeId, n: Node, d: nat)
      returns (longer: seq<Action>)
    requires i < |later.nodes| && Leads(s, beat, Put(later, i, n)) && CleanBeat(i, d, beat)
    ensures CleanBeat(i, d, longer) && Leads(s, longer, Called(later, i, n, true, false))
  {
    var mid := Put(later, i, n);
    LeadsOn(s, beat, mid, Commit(i));
    LeadsOn(s, beat + [Commit(i)], Apply(mid, Commit(i)), Reply(i, false, false));
    longer := beat + [Commit(i)] + [Reply(i, false, false)];
    CallEnds(later, i, n, true, false);
  }

  /** A provisional claim on a row that can be claimed is refused, and a claim follows. */
  lemma RefusalIs(s: State, i: NodeId, n: Node, now: Time)
    requires i < |s.nodes| && n.pc == Confirming(now) && !n.stopping && Claimable(s.store.row, now)
    ensures Called(s, i, n, true, false) == Put(s, i, n.(unconfirmed := false, fence := 0, pc := Claiming(now)))
  {
  }

  lemma ClaimElects(s: State, i: NodeId, n: Node, now: Time)
    requires i < |s.nodes| && s.store.clock == now && Claimable(s.store.row, now)
    requires n.pc == Claiming(now) && !n.stopping && n.ttl == s.nodes[i].ttl
    ensures Elected(s, Called(s, i, n, true, false), i, now)
  {
  }

  // ---- Exactly which orphans are harmless -------------------------------------------------

  /** No orphan lands that was not spent, save perhaps this one. */
  ghost predicate TameBut(actions: seq<Action>, k: nat) {
    forall x :: 0 <= x < |actions| && Stray(actions[x]) ==> actions[x].orphan == k
  }

  lemma {:induction false} SpentRun(s: State, after: seq<Action>, k: nat)
    requires Inv(s) && TameBut(after, k) && k < |s.orphans| && s.orphans[k].spent
    ensures var r := Run(s, after); Inv(r) && k < |r.orphans| && r.orphans[k].spent
    decreases |after|
  {
    if after != [] {
      var r, a := Run(s, after[..|after| - 1]), after[|after| - 1];
      SpentRun(s, after[..|after| - 1], k);
      if Stray(a) { assert Apply(r, a) == r; } else { ApplyInv(r, a); }
    }
  }

  /** An orphan that the next claim of its own node would arm. */
  ghost predicate Armed(s: State, i: NodeId, k: nat) {
    && i < |s.nodes| && 0 < s.nodes[i].ttl && k < |s.orphans|
    && s.orphans[k].owner == i && !s.orphans[k].spent && !s.orphans[k].landed
    && var q := s.orphans[k].statement;
    && !q.Claim? && q.fence == TopFence(s.store.row) + 1
    && (q.Renew? ==> q.now <= s.store.clock && q.expires == q.now + s.nodes[i].ttl)
  }

  /** The row lapses under the leader. */
  ghost predicate CutShort(s: State, i: NodeId) {
    LiveLeader(s, i) && s.store.row.Some? && s.store.row.value.expires < s.nodes[i].expiresAt
  }

  lemma LandCuts(s: State, led: State, i: NodeId, k: nat, now: Time)
    requires Armed(s, i, k) && Elected(s, led, i, now) && s.store.clock < now
    ensures CutShort(DoLand(led, k, true), i)
    ensures DoLand(led, k, true).nodes == led.nodes && DoLand(led, k, true).store.clock == now
  {
  }

  /** The run that a statement naming an unissued fence allows: the restarted node is
      issued that very fence, leads under it, and the old statement cuts it short. */
  lemma StrayCuts(s: State, i: NodeId, k: nat) returns (after: seq<Action>, s': State)
    requires Armed(s, i, k) && Standby(s.nodes[i])
    ensures Leads(s, after, s') && TameBut(after, k) && CutShort(s', i)
    ensures |s'.nodes| == |s.nodes| && forall j :: 0 <= j < |s.nodes| && j != i ==> s'.nodes[j] == s.nodes[j]
  {
    var d := if s.store.row.Some? then s.store.row.value.expires + 1 else 1;
    var beat, led := HeartbeatElects(s, i, d);
    LeadsOn(s, beat, led, Land(k, true));
    LandCuts(s, led, i, k, s.store.clock + d);
    after, s' := beat + [Land(k, true)], DoLand(led, k, true);
  }

  /** What a crash leaves behind. */
  lemma CrashLeaves(s: State, i: NodeId)
    requires Inv(s) && i < |s.nodes| && InFlight(s.nodes[i]).Some?
    ensures
      var s', q := DoCrash(s, i), InFlight(s.nodes[i]).value;
      && s'.store == s.store && |s'.orphans| == |s.orphans| + 1
      && s'.orphans[|s.orphans|] == Orphan(i, q, Spent(s.store, q), false)
      && |s'.nodes| == |s.nodes| && Standby(s'.nodes[i])
      && (forall j :: 0 <= j < |s.nodes| && j != i ==> s'.nodes[j] == s.nodes[j])
      && (!Spent(s.store, q) && 0 < s.nodes[i].ttl ==> Armed(s', i, |s.orphans|))
  {
    assert NodeInv(s.store, i, s.nodes[i]);
  }

  /** A crash with a statement in flight is harmless in every continuation, whenever
      the statement lands, if and only if the fence it names had been issued. */
  lemma OrphanSafeExactly(s: State, actions: seq<Action>, i: NodeId)
    requires Initial(s) && Tame(actions)
    requires
      var r := Run(s, actions);
      i < |r.nodes| && 0 < r.nodes[i].ttl && InFlight(r.nodes[i]).Some?
    ensures
      var r := Run(s, actions);
      (forall after :: TameBut(after, |r.orphans|) ==> Exclusive(Run(Apply(r, Crash(i)), after)))
      <==> Spent(r.store, InFlight(r.nodes[i]).value)
  {
    var r := Run(s, actions);
    RunInv(s, actions);
    ApplyInv(r, Crash(i));
    CrashLeaves(r, i);
    var r', k := Apply(r, Crash(i)), |r.orphans|;
    if Spent(r.store, InFlight(r.nodes[i]).value) {
      forall after | TameBut(after, k) ensures Exclusive(Run(r', after)) {
        SpentRun(r', after, k);
        InvExclusive(Run(r', after));
      }
    } else {
      var after, s' := StrayCuts(r', i, k);
      assert !Exclusive(s');
    }
  }

  /** With a standby at hand such an orphan gives two live leaders. */
  lemma StrayElectsTwo(s: State, actions: seq<Action>, i: NodeId, j: NodeId) returns (after: seq<Action>)
    requires Initial(s) && Tame(actions) && i != j
    requires
      var r := Run(s, actions);
      && i < |r.nodes| && 0 < r.nodes[i].ttl && InFlight(r.nodes[i]).Some?
      && !Spent(r.store, InFlight(r.nodes[i]).value)
      && j < |r.nodes| && 0 < r.nodes[j].ttl && Standby(r.nodes[j])
    ensures
      var s' := Run(Apply(Run(s, actions), Crash(i)), after);
      LiveLeader(s', i) && LiveLeader(s', j)
  {
    var r := Run(s, actions);
    RunInv(s, actions);
    CrashLeaves(r, i);
    var r', k := Apply(r, Crash(i)), |r.orphans|;
    var cut, s' := StrayCuts(r', i, k);
    var row := s'.store.row.value;
    var e := if row.expires <= s'.store.clock then 0 else row.expires - s'.store.clock;
    var beat, r'' := HeartbeatElects(s', j, e);
    RunConcat(r', cut, beat);
    after := cut + beat;
  }

  lemma {:induction false} RunConcat(s: State, before: seq<Action>, after: seq<Action>)
    ensures Run(s, before + after) == Run(Run(s, before), after)
    decreases |after|
  {
    if after == [] {
      assert before + after == before;
    } else {
      assert (before + after)[..|before + after| - 1] == before + after[..|after| - 1];
      RunConcat(s, before, after[..|after| - 1]);
    }
  }

  function TwoNodes(clock: Time, row: Option<Row>, claims: seq<NodeId>, n: Node): State {
    State(Store(clock, row, claims), [n, Boot(10, [])], [], [])
  }

  /** Node 0 holding a provisional fence, and then leading under it until 15. */
  function Provisional(): Node { Boot(10, []).(fence := 1, unconfirmed := true) }
  function Leading(): Node { Node(10, true, 1, false, 15, [Term(1, false, false)], Some(0), Some(0), false, Idle) }

  ghost predicate Beaten(s: State, i: NodeId, d: nat, commits: bool, err: bool, s': State) {
    s' == Run(s, Beat(i, d, commits, err))
  }

  lemma LateClaim()
    ensures Beaten(TwoNodes(0, None, [], Boot(10, [])), 0, 0, true, true,
      TwoNodes(0, Some(Row(0, 1, 10)), [0], Provisional()))
  {
    BeatIs(TwoNodes(0, None, [], Boot(10, [])), 0, 0, true, true);
  }

  lemma LateConfirm()
    ensures Beaten(TwoNodes(0, Some(Row(0, 1, 10)), [0], Provisional()), 0, 1, false, true,
      TwoNodes(1, Some(Row(0, 1, 10)), [0], Provisional()))
  {
    BeatIs(TwoNodes(0, Some(Row(0, 1, 10)), [0], Provisional()), 0, 1, false, true);
  }

  lemma LateLead()
    ensures Beaten(TwoNodes(1, Some(Row(0, 1, 10)), [0], Provisional()), 0, 4, true, false,
      TwoNodes(5, Some(Row(0, 1, 15)), [0], Leading()))
  {
    BeatIs(TwoNodes(1, Some(Row(0, 1, 10)), [0], Provisional()), 0, 4, true, false);
    assert [] + [Term(1, false, false)] == [Term(1, false, false)];
  }

  lemma LateTakeover() returns (s': State)
    ensures Beaten(TwoNodes(5, Some(Row(0, 1, 11)), [0], Leading()), 1, 7, true, false, s')
    ensures LiveLeader(s', 0) && LiveLeader(s', 1)
  {
    var late := TwoNodes(5, Some(Row(0, 1, 11)), [0], Leading());
    BeatIs(late, 1, 7, true, false);
    s' := Run(late, Beat(1, 7, true, false));
  }

  /** The contract on errored calls is needed.  Node 0's claim commits but its
      reply is lost; its confirmation at time 1 returns an error; its renewal at
      time 5 confirms.  If the renewal of time 1 then lands late, the row lapses
      under node 0, node 1 claims it at time 12, and two leaders are live. */
  lemma LateRenewalBreaksExclusion() returns (s0: State, s1: State, s2: State, s3: State, s4: State)
    ensures Initial(s0) && Beaten(s0, 0, 0, true, true, s1) && Beaten(s1, 0, 1, false, true, s2)
    ensures Beaten(s2, 0, 4, true, false, s3)
    ensures Beaten(s3.(store := Execute(s3.store, 0, Renew(1, 1, 11))), 1, 7, true, false, s4)
    ensures LiveLeader(s3, 0) && LiveLeader(s4, 0) && LiveLeader(s4, 1)
  {
    s0 := TwoNodes(0, None, [], Boot(10, []));
    s1 := TwoNodes(0, Some(Row(0, 1, 10)), [0], Provisional());
    LateClaim();
    s2 := TwoNodes(1, Some(Row(0, 1, 10)), [0], Provisional());
    LateConfirm();
    s3 := TwoNodes(5, Some(Row(0, 1, 15)), [0], Leading());
    LateLead();
    assert s3.(store := Execute(s3.store, 0, Renew(1, 1, 11))) == TwoNodes(5, Some(Row(0, 1, 11)), [0], Leading());
    s4 := LateTakeover();
  }

  // ---- ... and a crash can leave such a statement ------------------------------------------------

  /** A claim that rolls back after it had returned fence 1, and the confirmation of
      that fence on its way. */
  lemma RolledBackClaim() returns (s: State, actions: seq<Action>)
    ensures Initial(s) && Tame(actions)
    ensures Run(s, actions) == TwoNodes(0, None, [], Provisional().(pc := Confirming(0)))
  {
    var n, p := Boot(10, []), Provisional();
    s := TwoNodes(0, None, [], n);
    actions := [];
    var steps := [ReadClock(0), ProcessClock(0), PassGate(0), RollBack(0), Reply(0, true, false),
                  ReadClock(0), ProcessClock(0), PassGate(0)];
    var nodes := [n, n.(pc := Clock(0)), n.(pc := Gate(0)), n.(pc := Claiming(0)), n.(pc := Claimed(0, 1, false)), p,
                  p.(pc := Clock(0)), p.(pc := Gate(0)), p.(pc := Confirming(0))];
    for k := 0 to 8
      invariant |actions| == k && Tame(actions) && Run(s, actions) == TwoNodes(0, None, [], nodes[k])
    {
      RunSnoc(s, actions, steps[k]);
      OneStep(k, steps, nodes);
      actions := actions + [steps[k]];
    }
  }

  lemma OneStep(k: nat, steps: seq<Action>, nodes: seq<Node>)
    requires k < 8 && |steps| == 8 && |nodes| == 9 && nodes[0] == Boot(10, []) && nodes[5] == Provisional()
    requires steps == [ReadClock(0), ProcessClock(0), PassGate(0), RollBack(0), Reply(0, true, false),
                       ReadClock(0), ProcessClock(0), PassGate(0)]
    requires nodes[1] == nodes[0].(pc := Clock(0)) && nodes[2] == nodes[0].(pc := Gate(0))
    requires nodes[3] == nodes[0].(pc := Claiming(0)) && nodes[4] == nodes[0].(pc := Claimed(0, 1, false))
    requires nodes[6] == nodes[5].(pc := Clock(0)) && nodes[7] == nodes[5].(pc := Gate(0))
    requires nodes[8] == nodes[5].(pc := Confirming(0))
    ensures Apply(TwoNodes(0, None, [], nodes[k]), steps[k]) == TwoNodes(0, None, [], nodes[k + 1])
  {
    var s := TwoNodes(0, None, [], nodes[k]);
    assert NodeStep(s.store, nodes[k], steps[k]) == nodes[k + 1];
  }

  /** So exclusion fails if a crash leaves the confirmation of a fence that was never
      issued, and it lands once the restarted node has been issued that fence. */
  lemma OrphanBreaksExclusion() returns (s: State, before: seq<Action>, after: seq<Action>)
    ensures Initial(s) && Tame(before)
    ensures var s' := Run(Apply(Run(s, before), Crash(0)), after); LiveLeader(s', 0) && LiveLeader(s', 1)
  {
    s, before := RolledBackClaim();
    after := StrayElectsTwo(s, before, 0, 1);
  }
}
