/** The body of the HA loop as the program it is: one object whose fields the
    heartbeat and the shutdown branch update in place.  Each method is proved
    against the step functions of `Lease`, so the cluster theorems speak about
    this code. */
module SchedulerLoop {
  import opened Options
  import opened Lease

  datatype RenewReply = RenewReply(held: bool, err: bool)
  datatype ClaimReply = ClaimReply(fence: Fence, held: bool, err: bool)

  /** What the outside answers during one heartbeat: the datastore clock (absent
      when unreachable), the replies to the calls it may make, whether the context is
      found cancelled after each of them, and which terms have exited by the time the
      loop looks for a draining one and by the end. */
  datatype Answers = Answers(
    clock: Option<Time>, renew: RenewReply, stopAfterRenew: bool, goneAtGate: set<nat>,
    confirm: RenewReply, stopAfterConfirm: bool, claim: ClaimReply, stopAfterClaim: bool, goneAtEnd: set<nat>)

  /** The terms that have exited. */
  function Gone(n: Node): set<nat> { set k | 0 <= k < |n.terms| && n.terms[k].exited }

  /** These terms exit. */
  function Mark(n: Node, gone: set<nat>): Node {
    n.(terms := Marked(n.terms, gone))
  }

  function Marked(terms: seq<Term>, gone: set<nat>): seq<Term> {
    seq(|terms|, k requires 0 <= k < |terms| => terms[k].(exited := terms[k].exited || k in gone))
  }

  /** The leader's half of a heartbeat: fail closed, then renew. */
  function AfterRenewal(n: Node, now: Time, renew: RenewReply): Node {
    var m := OnClock(n, now);
    (if m.pc.Renewing? then OnRenewReply(m, now, renew.held, renew.err) else m).(pc := Idle)
  }

  /** The standby's half: confirm a provisional claim, then claim. */
  function AfterAcquisition(n: Node, now: Time, ans: Answers): Node {
    var m := OnGate(n, now);
    var m' := if m.pc.Confirming?
              then OnConfirmReply(m.(stopping := m.stopping || ans.stopAfterConfirm), now, ans.confirm.held,
                ans.confirm.err)
              else m;
    (if m'.pc.Claiming?
     then OnClaimReply(m'.(stopping := m'.stopping || ans.stopAfterClaim), now, ans.claim.fence, ans.claim.held,
       ans.claim.err)
     else m').(pc := Idle)
  }

  /** One heartbeat in terms of the cluster's step functions. */
  function Heartbeat(n: Node, ans: Answers): Node {
    if ans.clock.None? then Mark(ClockFailed(n), ans.goneAtEnd)
    else
      var m := AfterRenewal(n, ans.clock.value, ans.renew);
      var m' := Mark(m.(stopping := m.stopping || ans.stopAfterRenew), ans.goneAtGate);
      Mark(AfterAcquisition(m', ans.clock.value, ans), ans.goneAtEnd)
  }

  // ---- A heartbeat is part of a run of the cluster ----------------------------------------------

  /** What becomes of a statement: it commits, it rolls back, or it never arrives. */
  datatype Fate = Commits | RollsBack | Lost

  /** One store call of the loop: what happens before its statement takes effect and
      before its reply, whether the context is cancelled by then, and the reply. */
  datatype Call = Call(before: seq<Action>, fate: Fate, between: seq<Action>, cancelled: bool, err: bool,
    fenceLost: bool)

  /** One heartbeat: what happens around its steps, and its calls. */
  datatype Script = Script(afterRead: seq<Action>, renew: Call, cancelled: bool, beforeGate: seq<Action>, confirm: Call,
    claim: Call)

  /** What goes on beside node i's loop: the clock, every other node, orphans that land
      as the contract allows, and the exits of node i's own terms. */
  ghost predicate Foreign(i: NodeId, actions: seq<Action>) {
    forall k :: 0 <= k < |actions| ==> Beside(i, actions[k])
  }

  predicate Beside(i: NodeId, a: Action) {
    a.Elapse? || (a.Land? && !a.stray) || (!a.Land? && (a.i != i || a.TermExits?))
  }

  ghost predicate CallOk(i: NodeId, call: Call) { Foreign(i, call.before) && Foreign(i, call.between) }

  ghost predicate ScriptOk(i: NodeId, script: Script) {
    && Foreign(i, script.afterRead) && Foreign(i, script.beforeGate)
    && CallOk(i, script.renew) && CallOk(i, script.confirm) && CallOk(i, script.claim)
    && !script.renew.cancelled && !script.claim.fate.Lost?
  }

  function TakeEffect(s: State, i: NodeId, fate: Fate): State {
    match fate
    case Commits => Apply(s, Commit(i))
    case RollsBack => Apply(s, RollBack(i))
    case Lost => s
  }

  function Cancelled(s: State, i: NodeId, now: bool): State { if now then Apply(s, Cancel(i)) else s }

  /** The call in the cluster, from the statement in flight to the processed reply. */
  function Called(s: State, i: NodeId, call: Call): State {
    Apply(Cancelled(Effected(s, i, call), i, call.cancelled), Reply(i, call.err, call.fenceLost))
  }

  /** The call up to its reply. */
  function Effected(s: State, i: NodeId, call: Call): State {
    Run(TakeEffect(Run(s, call.before), i, call.fate), call.between)
  }

  /** What a renewal answers: the verdict of the row it commits on, or an error. */
  function RenewAnswer(s: State, i: NodeId, now: Time, call: Call): RenewReply
    requires i < |s.nodes|
  {
    if call.fate.Commits? then RenewReply(Holds(Run(s, call.before).store.row, i, s.nodes[i].fence, now), call.err)
    else RenewReply(false, true)
  }

  /** What a claim answers.  A claim that fails after it was granted may still have
      returned its fence. */
  function ClaimAnswer(s: State, now: Time, call: Call): ClaimReply {
    ClaimOn(Run(s, call.before).store.row, now, call)
  }

  function ClaimOn(row: Option<Row>, now: Time, call: Call): ClaimReply {
    var got := if Claimable(row, now) then TopFence(row) + 1 else 0;
    if call.fate.Commits? && got != 0 && !call.err then ClaimReply(got, true, false)
    else if got == 0 && !call.err then ClaimReply(0, false, false)
    else ClaimReply(if call.fenceLost then 0 else got, false, true)
  }

  /** The cluster after the leader's half of node i's heartbeat. */
  function PlayedRenewal(s: State, i: NodeId, script: Script): State
    requires i < |s.nodes|
  {
    var read := AtRenewal(s, i, script);
    if i < |read.nodes| && read.nodes[i].pc.Renewing? then Called(read, i, script.renew) else read
  }

  function AtRenewal(s: State, i: NodeId, script: Script): State {
    Apply(Run(Apply(s, ReadClock(i)), script.afterRead), ProcessClock(i))
  }

  /** The cluster when node i comes to its gate, and when it has passed it. */
  function AtGate(s: State, i: NodeId, script: Script): State
    requires i < |s.nodes|
  {
    Run(Cancelled(PlayedRenewal(s, i, script), i, script.cancelled), script.beforeGate)
  }

  function AtConfirm(s: State, i: NodeId, script: Script): State
    requires i < |s.nodes|
  {
    Apply(AtGate(s, i, script), PassGate(i))
  }

  function AtClaim(s: State, i: NodeId, script: Script): State
    requires i < |s.nodes|
  {
    var c := AtConfirm(s, i, script);
    if i < |c.nodes| && c.nodes[i].pc.Confirming? then Called(c, i, script.confirm) else c
  }

  /** The cluster after the whole heartbeat. */
  function Played(s: State, i: NodeId, script: Script): State
    requires i < |s.nodes|
  {
    var c := AtClaim(s, i, script);
    if i < |c.nodes| && c.nodes[i].pc.Claiming? then Called(c, i, script.claim) else c
  }

  /** The answers the loop receives, read off the rows its statements commit on. */
  ghost predicate Answer(s: State, i: NodeId, script: Script, ans: Answers)
    requires i < |s.nodes|
  {
    var now := s.store.clock;
    && ans.clock == Some(now) && ans.stopAfterRenew == script.cancelled
    && i < |AtRenewal(s, i, script).nodes| && ans.renew == RenewAnswer(AtRenewal(s, i, script), i, now, script.renew)
    && i < |AtGate(s, i, script).nodes| && ans.goneAtGate == Gone(AtGate(s, i, script).nodes[i])
    && i < |AtConfirm(s, i, script).nodes|
    && ans.confirm == RenewAnswer(AtConfirm(s, i, script), i, now, script.confirm)
    && ans.stopAfterConfirm == script.confirm.cancelled
    && ans.claim == ClaimAnswer(AtClaim(s, i, script), now, script.claim)
    && ans.stopAfterClaim == script.claim.cancelled
    && i < |Played(s, i, script).nodes| && ans.goneAtEnd == Gone(Played(s, i, script).nodes[i])
  }

  /** m is n with some more terms exited. */
  ghost predicate Later(n: Node, m: Node) { m == Mark(n, Gone(m)) }

  lemma LaterSame(n: Node)
    ensures Later(n, n)
  {
    assert Marked(n.terms, Gone(n)) == n.terms;
  }

  lemma LaterTrans(n: Node, m: Node, l: Node)
    requires Later(n, m) && Later(m, l)
    ensures Later(n, l)
  {
    assert Gone(m) <= Gone(l);
    assert Marked(n.terms, Gone(l)) == Marked(m.terms, Gone(l));
  }

  lemma LaterExit(n: Node, k: nat)
    requires k < |n.terms|
    ensures Later(n, n.(terms := ExitTerm(n.terms, k)))
  {
    var m := n.(terms := ExitTerm(n.terms, k));
    assert Marked(n.terms, Gone(m)) == m.terms;
  }

  /** Dropping leadership and starting a term do not look at what has exited. */
  lemma LaterDrop(n: Node, m: Node)
    requires Later(n, m)
    ensures Later(DropLeadership(n), DropLeadership(m))
  {
    var n', m' := DropLeadership(n), DropLeadership(m);
    assert Gone(m') == Gone(m);
    assert Marked(n'.terms, Gone(m')) == m'.terms;
  }

  lemma LaterStart(n: Node, m: Node, expires: Time)
    requires Later(n, m)
    ensures Later(StartTerm(n, expires), StartTerm(m, expires))
  {
    var n', m' := StartTerm(n, expires), StartTerm(m, expires);
    assert Gone(m') == Gone(m);
    assert Marked(n'.terms, Gone(m')) == m'.terms;
  }

  lemma LaterClock(n: Node, m: Node, now: Time)
    requires Later(n, m)
    ensures Later(OnClock(n, now), OnClock(m, now))
  {
    LaterDrop(n, m);
    var n', m' := OnClock(n, now), OnClock(m, now);
    assert Gone(m') == if m.leader && m.expiresAt <= now then Gone(DropLeadership(m)) else Gone(m);
  }

  lemma LaterRenewed(n: Node, m: Node, now: Time, held: bool, err: bool)
    requires Later(n, m)
    ensures Later(OnRenewReply(n, now, held, err), OnRenewReply(m, now, held, err))
  {
    LaterDrop(n, m);
    var m' := OnRenewReply(m, now, held, err);
    assert Gone(m') == if err || !held then Gone(DropLeadership(m)) else Gone(m);
  }

  lemma LaterConfirmed(n: Node, m: Node, now: Time, held: bool, err: bool)
    requires Later(n, m)
    ensures Later(OnConfirmReply(n, now, held, err), OnConfirmReply(m, now, held, err))
  {
    LaterStart(n, m, now + n.ttl);
    var m' := OnConfirmReply(m, now, held, err);
    if err || !held || m.stopping { assert Gone(m') == Gone(m); }
  }

  lemma LaterClaimed(n: Node, m: Node, now: Time, got: Fence, held: bool, err: bool)
    requires Later(n, m)
    ensures Later(OnClaimReply(n, now, got, held, err), OnClaimReply(m, now, got, held, err))
  {
    var set' := got != 0 && (held || err);
    var n1 := if set' then n.(fence := got, unconfirmed := true) else n;
    var m1 := if set' then m.(fence := got, unconfirmed := true) else m;
    assert Gone(m1) == Gone(m);
    LaterStart(n1, m1, now + n.ttl);
    var m' := OnClaimReply(m, now, got, held, err);
    if err || !held || m1.stopping { assert Gone(m') == Gone(m1); }
  }

  lemma LaterPlain(n: Node, m: Node, stop: bool, pc: Pc)
    requires Later(n, m)
    ensures Later(n.(stopping := n.stopping || stop, pc := pc), m.(stopping := m.stopping || stop, pc := pc))
    ensures Later(n.(stopping := n.stopping || stop), m.(stopping := m.stopping || stop))
  {
    assert Gone(m.(stopping := m.stopping || stop, pc := pc)) == Gone(m);
    assert Gone(m.(stopping := m.stopping || stop)) == Gone(m);
  }

  /** Beside the loop only exits happen to the node. */
  lemma {:induction false} ForeignKeeps(s: State, i: NodeId, actions: seq<Action>)
    requires i < |s.nodes| && Foreign(i, actions)
    ensures |Run(s, actions).nodes| == |s.nodes| && Later(s.nodes[i], Run(s, actions).nodes[i])
  {
    if actions == [] {
      LaterSame(s.nodes[i]);
    } else {
      var r, a := Run(s, actions[..|actions| - 1]), actions[|actions| - 1];
      ForeignKeeps(s, i, actions[..|actions| - 1]);
      BesideKeeps(r, i, a);
      LaterTrans(s.nodes[i], r.nodes[i], Apply(r, a).nodes[i]);
    }
  }

  lemma BesideKeeps(s: State, i: NodeId, a: Action)
    requires i < |s.nodes| && Beside(i, a)
    ensures |Apply(s, a).nodes| == |s.nodes| && Later(s.nodes[i], Apply(s, a).nodes[i])
  {
    LaterSame(s.nodes[i]);
    if a.TermExits? && a.i == i && a.k < |s.nodes[i].terms| { LaterExit(s.nodes[i], a.k); }
  }

  /** The node's own variables when the reply comes, up to its terms' exits. */
  lemma EffectedNode(s: State, i: NodeId, call: Call)
    requires i < |s.nodes| && CallOk(i, call)
    ensures |Effected(s, i, call).nodes| == |s.nodes|
    ensures
      var row, n, n' := Run(s, call.before).store.row, s.nodes[i], Effected(s, i, call).nodes[i];
      && Later(n.(pc := n'.pc), n')
      && (n.pc.Renewing? || n.pc.Confirming? || n.pc.Claiming? ==> n'.pc == Answered(row, i, n, call.fate))
  {
    var s1 := Run(s, call.before);
    ForeignKeeps(s, i, call.before);
    var s2 := TakeEffect(s1, i, call.fate);
    EffectKeeps(s1, i, call.fate);
    ForeignKeeps(s2, i, call.between);
    LaterPlain(s.nodes[i], s1.nodes[i], false, s2.nodes[i].pc);
    LaterTrans(s.nodes[i].(pc := s2.nodes[i].pc), s2.nodes[i], Effected(s, i, call).nodes[i]);
  }

  lemma RepliedNode(s: State, i: NodeId, cancelled: bool, err: bool, fenceLost: bool)
    requires i < |s.nodes|
    ensures
      var n, s' := s.nodes[i], Apply(Cancelled(s, i, cancelled), Reply(i, err, fenceLost));
      |s'.nodes| == |s.nodes| && s'.nodes[i] == DoReply(n.(stopping := n.stopping || cancelled), err, fenceLost)
  {
  }

  /** The node's own variables over one call, up to its terms' exits. */
  lemma CalledNode(s: State, i: NodeId, call: Call) returns (n': Node)
    requires i < |s.nodes| && CallOk(i, call)
    ensures |Called(s, i, call).nodes| == |s.nodes|
    ensures Called(s, i, call).nodes[i] ==
      DoReply(n'.(stopping := n'.stopping || call.cancelled), call.err, call.fenceLost)
    ensures
      var row, n := Run(s, call.before).store.row, s.nodes[i];
      && Later(n.(pc := n'.pc), n')
      && (n.pc.Renewing? || n.pc.Confirming? || n.pc.Claiming? ==> n'.pc == Answered(row, i, n, call.fate))
  {
    EffectedNode(s, i, call);
    RepliedNode(Effected(s, i, call), i, call.cancelled, call.err, call.fenceLost);
    n' := Effected(s, i, call).nodes[i];
  }

  /** What the loop waits with, once its statement has met its fate. */
  function Answered(row: Option<Row>, i: NodeId, n: Node, fate: Fate): Pc {
    match n.pc
    case Renewing(now) => if fate.Commits? then Renewed(now, Holds(row, i, n.fence, now)) else n.pc
    case Confirming(now) => if fate.Commits? then Confirmed(now, Holds(row, i, n.fence, now)) else n.pc
    case Claiming(now) =>
      if fate.Lost? then n.pc
      else Claimed(now, if Claimable(row, now) then TopFence(row) + 1 else 0, fate.Commits? && Claimable(row, now))
    case _ => n.pc
  }

  lemma EffectKeeps(s: State, i: NodeId, fate: Fate)
    requires i < |s.nodes|
    ensures
      var n, s' := s.nodes[i], TakeEffect(s, i, fate);
      && |s'.nodes| == |s.nodes| && s'.nodes[i] == n.(pc := s'.nodes[i].pc)
      && (n.pc.Renewing? || n.pc.Confirming? || n.pc.Claiming? ==>
        s'.nodes[i].pc == Answered(s.store.row, i, n, fate))
  {
  }

  lemma RenewCalled(s: State, i: NodeId, now: Time, call: Call)
    requires i < |s.nodes| && CallOk(i, call) && !call.cancelled && s.nodes[i].pc == Renewing(now)
    ensures
      var ans := RenewAnswer(s, i, now, call);
      |Called(s, i, call).nodes| == |s.nodes| &&
        Later(OnRenewReply(s.nodes[i], now, ans.held, ans.err), Called(s, i, call).nodes[i])
  {
    var n' := CalledNode(s, i, call);
    var ans := RenewAnswer(s, i, now, call);
    LaterRenewed(s.nodes[i].(pc := n'.pc), n', now, ans.held, ans.err);
  }

  lemma ConfirmCalled(s: State, i: NodeId, now: Time, call: Call)
    requires i < |s.nodes| && CallOk(i, call) && s.nodes[i].pc == Confirming(now)
    ensures
      var ans, n := RenewAnswer(s, i, now, call), s.nodes[i];
      && |Called(s, i, call).nodes| == |s.nodes|
      && Later(OnConfirmReply(n.(stopping := n.stopping || call.cancelled), now, ans.held, ans.err),
               Called(s, i, call).nodes[i])
  {
    var n' := CalledNode(s, i, call);
    var n, ans := s.nodes[i], RenewAnswer(s, i, now, call);
    LaterPlain(n.(pc := n'.pc), n', call.cancelled, n'.pc);
    LaterConfirmed(n.(stopping := n.stopping || call.cancelled, pc := n'.pc),
                   n'.(stopping := n'.stopping || call.cancelled), now, ans.held, ans.err);
  }

  /** The reply to a claim is what its row answers. */
  lemma ClaimReplied(row: Option<Row>, now: Time, call: Call, n: Node)
    requires !call.fate.Lost?
    requires
      var ok := Claimable(row, now);
      n.pc == Claimed(now, if ok then TopFence(row) + 1 else 0, call.fate.Commits? && ok)
    ensures
      var ans := ClaimOn(row, now, call);
      DoReply(n, call.err, call.fenceLost) == OnClaimReply(n, now, ans.fence, ans.held, ans.err)
  {
  }

  lemma ClaimCalled(s: State, i: NodeId, now: Time, call: Call)
    requires i < |s.nodes| && CallOk(i, call) && !call.fate.Lost? && s.nodes[i].pc == Claiming(now)
    ensures
      var ans, n := ClaimAnswer(s, now, call), s.nodes[i];
      && |Called(s, i, call).nodes| == |s.nodes|
      && Later(OnClaimReply(n.(stopping := n.stopping || call.cancelled), now, ans.fence, ans.held, ans.err),
               Called(s, i, call).nodes[i])
  {
    var n' := CalledNode(s, i, call);
    ClaimLater(s.nodes[i], n', Run(s, call.before).store.row, i, now, call);
  }

  lemma ClaimLater(n: Node, n': Node, row: Option<Row>, i: NodeId, now: Time, call: Call)
    requires !call.fate.Lost? && n.pc == Claiming(now)
    requires Later(n.(pc := n'.pc), n') && n'.pc == Answered(row, i, n, call.fate)
    ensures
      var ans, m := ClaimOn(row, now, call), n'.(stopping := n'.stopping || call.cancelled);
      Later(OnClaimReply(n.(stopping := n.stopping || call.cancelled), now, ans.fence, ans.held, ans.err),
            DoReply(m, call.err, call.fenceLost))
  {
    var ans, m := ClaimOn(row, now, call), n'.(stopping := n'.stopping || call.cancelled);
    LaterPlain(n.(pc := n'.pc), n', call.cancelled, n'.pc);
    ClaimReplied(row, now, call, m);
    var n1 := n.(stopping := n.stopping || call.cancelled);
    LaterClaimed(n1.(pc := n'.pc), m, now, ans.fence, ans.held, ans.err);
    ClaimIgnoresPc(n1, n'.pc, now, ans);
  }

  lemma ClaimIgnoresPc(n: Node, pc: Pc, now: Time, ans: ClaimReply)
    ensures OnClaimReply(n.(pc := pc), now, ans.fence, ans.held, ans.err) ==
      OnClaimReply(n, now, ans.fence, ans.held, ans.err)
  {
  }

  /** The leader's half. */
  lemma RenewalPlayed(s: State, i: NodeId, script: Script)
    requires i < |s.nodes| && s.nodes[i].pc.Idle? && ScriptOk(i, script)
    ensures |AtRenewal(s, i, script).nodes| == |s.nodes| == |PlayedRenewal(s, i, script).nodes|
    ensures
      var now := s.store.clock;
      var m := AfterRenewal(s.nodes[i], now, RenewAnswer(AtRenewal(s, i, script), i, now, script.renew));
      Later(m.(pc := Gate(now)), PlayedRenewal(s, i, script).nodes[i])
  {
    var now, n := s.store.clock, s.nodes[i];
    var s1 := Apply(s, ReadClock(i));
    ForeignKeeps(s1, i, script.afterRead);
    var s2 := AtRenewal(s, i, script);
    LaterClock(s1.nodes[i], Run(s1, script.afterRead).nodes[i], now);
    assert OnClock(s1.nodes[i], now) == OnClock(n, now);
    if s2.nodes[i].pc.Renewing? {
      var ans := RenewAnswer(s2, i, now, script.renew);
      RenewCalled(s2, i, now, script.renew);
      LaterRenewed(OnClock(n, now), s2.nodes[i], now, ans.held, ans.err);
      LaterTrans(OnRenewReply(OnClock(n, now), now, ans.held, ans.err),
                 OnRenewReply(s2.nodes[i], now, ans.held, ans.err), Called(s2, i, script.renew).nodes[i]);
    }
  }

  lemma GatePlayed(s: State, i: NodeId, script: Script)
    requires i < |s.nodes| && s.nodes[i].pc.Idle? && ScriptOk(i, script)
    ensures |AtRenewal(s, i, script).nodes| == |s.nodes| == |AtGate(s, i, script).nodes|
    ensures |AtConfirm(s, i, script).nodes| == |s.nodes|
    ensures
      var now := s.store.clock;
      var m := AfterRenewal(s.nodes[i], now, RenewAnswer(AtRenewal(s, i, script), i, now, script.renew));
      var m' := Mark(m.(stopping := m.stopping || script.cancelled), Gone(AtGate(s, i, script).nodes[i]));
      AtConfirm(s, i, script).nodes[i] == OnGate(m', now)
  {
    RenewalPlayed(s, i, script);
    var now := s.store.clock;
    var m := AfterRenewal(s.nodes[i], now, RenewAnswer(AtRenewal(s, i, script), i, now, script.renew));
    CancelledLater(PlayedRenewal(s, i, script), i, script, m, now);
    PassGateIs(AtGate(s, i, script), i, m.(stopping := m.stopping || script.cancelled), now);
  }

  lemma CancelledLater(p: State, i: NodeId, script: Script, m: Node, now: Time)
    requires i < |p.nodes| && ScriptOk(i, script) && Later(m.(pc := Gate(now)), p.nodes[i])
    ensures
      var c := Run(Cancelled(p, i, script.cancelled), script.beforeGate);
      |c.nodes| == |p.nodes| && Later(m.(stopping := m.stopping || script.cancelled, pc := Gate(now)), c.nodes[i])
  {
    var c := Cancelled(p, i, script.cancelled);
    LaterPlain(m.(pc := Gate(now)), p.nodes[i], script.cancelled, Gate(now));
    assert c.nodes[i] == p.nodes[i].(stopping := p.nodes[i].stopping || script.cancelled);
    ForeignKeeps(c, i, script.beforeGate);
    LaterTrans(m.(stopping := m.stopping || script.cancelled, pc := Gate(now)), c.nodes[i],
               Run(c, script.beforeGate).nodes[i]);
  }

  lemma PassGateIs(c: State, i: NodeId, m: Node, now: Time)
    requires i < |c.nodes| && Later(m.(pc := Gate(now)), c.nodes[i])
    ensures |Apply(c, PassGate(i)).nodes| == |c.nodes|
    ensures Apply(c, PassGate(i)).nodes[i] == OnGate(Mark(m, Gone(c.nodes[i])), now)
  {
  }

  lemma AcquisitionPlayed(s: State, i: NodeId, script: Script, ans: Answers, m: Node)
    requires i < |s.nodes| && ScriptOk(i, script) && Answer(s, i, script, ans)
    requires AtConfirm(s, i, script).nodes[i] == OnGate(m, s.store.clock) && m.pc.Idle?
    ensures i < |Played(s, i, script).nodes|
    ensures Later(AfterAcquisition(m, s.store.clock, ans), Played(s, i, script).nodes[i])
  {
    var now, c, d := s.store.clock, AtConfirm(s, i, script), AtClaim(s, i, script);
    var n := AfterConfirm(c.nodes[i], now, ans);
    LaterSame(c.nodes[i]);
    if c.nodes[i].pc.Confirming? { ConfirmCalled(c, i, now, script.confirm); }
    assert Later(n, d.nodes[i]);
    if n.pc.Claiming? {
      ClaimCalled(d, i, now, script.claim);
      AfterClaimLater(n, d.nodes[i], now, ans, Played(s, i, script).nodes[i]);
    }
  }

  function AfterConfirm(n: Node, now: Time, ans: Answers): Node {
    if !n.pc.Confirming? then n
    else OnConfirmReply(n.(stopping := n.stopping || ans.stopAfterConfirm), now, ans.confirm.held, ans.confirm.err)
  }

  function AfterClaim(n: Node, now: Time, ans: Answers): Node {
    OnClaimReply(n.(stopping := n.stopping || ans.stopAfterClaim), now, ans.claim.fence, ans.claim.held, ans.claim.err)
  }

  lemma AfterClaimLater(n: Node, m: Node, now: Time, ans: Answers, l: Node)
    requires Later(n, m) && Later(AfterClaim(m, now, ans), l)
    ensures Later(AfterClaim(n, now, ans), l)
  {
    var stop := ans.stopAfterClaim;
    LaterPlain(n, m, stop, n.pc);
    LaterClaimed(n.(stopping := n.stopping || stop), m.(stopping := m.stopping || stop), now,
                 ans.claim.fence, ans.claim.held, ans.claim.err);
    LaterTrans(AfterClaim(n, now, ans), AfterClaim(m, now, ans), l);
  }

  /** The loop's heartbeat, with the answers its statements get from the rows they
      commit on, everyone else acting in between and its own terms exiting at any time,
      is part of a run of the cluster: what holds of every run of the cluster holds of
      nodes that run this loop. */
  lemma HeartbeatIsRun(s: State, i: NodeId, script: Script, ans: Answers)
    requires i < |s.nodes| && s.nodes[i].pc.Idle? && ScriptOk(i, script) && Answer(s, i, script, ans)
    ensures Reaches(s, Played(s, i, script))
    ensures i < |Played(s, i, script).nodes| && Played(s, i, script).nodes[i] == Heartbeat(s.nodes[i], ans)
  {
    GatePlayed(s, i, script);
    var m := AfterRenewal(s.nodes[i], s.store.clock, ans.renew);
    AcquisitionPlayed(s, i, script, ans, Mark(m.(stopping := m.stopping || script.cancelled), ans.goneAtGate));
    PlayedIsRun(s, i, script);
  }

  /** The same of a heartbeat that cannot reach the datastore's clock. */
  lemma UnreachableIsRun(s: State, i: NodeId, after: seq<Action>, ans: Answers)
    requires i < |s.nodes| && s.nodes[i].pc.Idle? && Foreign(i, after) && ans.clock.None?
    requires
      var s' := Run(Apply(s, ClockUnreachable(i)), after);
      i < |s'.nodes| ==> ans.goneAtEnd == Gone(s'.nodes[i])
    ensures
      var s' := Run(Apply(s, ClockUnreachable(i)), after);
      Reaches(s, s') && i < |s'.nodes| && s'.nodes[i] == Heartbeat(s.nodes[i], ans)
  {
    assert s == Run(s, []) && Tame([]);
    ReachesStep(s, s, ClockUnreachable(i));
    ReachesRun(s, Apply(s, ClockUnreachable(i)), after);
    ForeignKeeps(Apply(s, ClockUnreachable(i)), i, after);
  }

  /** Hence the cluster's invariant holds after every heartbeat of the loop. */
  lemma HeartbeatKeepsInv(s: State, before: seq<Action>, i: NodeId, script: Script, ans: Answers)
    requires Initial(s) && Tame(before) && i < |Run(s, before).nodes| && Run(s, before).nodes[i].pc.Idle?
    requires ScriptOk(i, script) && Answer(Run(s, before), i, script, ans)
    ensures
      var s' := Played(Run(s, before), i, script);
      Inv(s') && i < |s'.nodes| && s'.nodes[i] == Heartbeat(Run(s, before).nodes[i], ans)
  {
    RunInv(s, before);
    HeartbeatIsRun(Run(s, before), i, script, ans);
    ReachesInv(Run(s, before), Played(Run(s, before), i, script));
  }

  lemma {:induction false} RunOnInv(s: State, actions: seq<Action>)
    requires Inv(s) && Tame(actions)
    ensures Inv(Run(s, actions))
  {
    if actions != [] {
      RunOnInv(s, actions[..|actions| - 1]);
      ApplyInv(Run(s, actions[..|actions| - 1]), actions[|actions| - 1]);
    }
  }

  // ---- ... of actions ---------------------------------------------------------------------------

  /** Some run of the cluster leads there. */
  ghost predicate Reaches(s: State, s': State) { exists actions :: Tame(actions) && s' == Run(s, actions) }

  lemma ReachesInv(s: State, s': State)
    requires Inv(s) && Reaches(s, s')
    ensures Inv(s')
  {
    var actions :| Tame(actions) && s' == Run(s, actions);
    RunOnInv(s, actions);
  }

  lemma ReachesStep(s: State, s': State, a: Action)
    requires Reaches(s, s') && !Stray(a)
    ensures Reaches(s, Apply(s', a))
  {
    var actions :| Tame(actions) && s' == Run(s, actions);
    assert Tame(actions + [a]);
    RunSnoc(s, actions, a);
  }

  lemma {:induction false} ReachesRun(s: State, s': State, actions: seq<Action>)
    requires Reaches(s, s') && Tame(actions)
    ensures Reaches(s, Run(s', actions))
  {
    if actions != [] {
      ReachesRun(s, s', actions[..|actions| - 1]);
      ReachesStep(s, Run(s', actions[..|actions| - 1]), actions[|actions| - 1]);
    }
  }

  lemma ReachesCalled(s: State, s': State, i: NodeId, call: Call)
    requires Reaches(s, s') && CallOk(i, call)
    ensures Reaches(s, Called(s', i, call))
  {
    var s1 := Run(s', call.before);
    ReachesRun(s, s', call.before);
    if call.fate.Commits? { ReachesStep(s, s1, Commit(i)); }
    if call.fate.RollsBack? { ReachesStep(s, s1, RollBack(i)); }
    var s2 := TakeEffect(s1, i, call.fate);
    ReachesRun(s, s2, call.between);
    var s3 := Run(s2, call.between);
    ReachesCancelled(s, s3, i, call.cancelled);
    ReachesStep(s, Cancelled(s3, i, call.cancelled), Reply(i, call.err, call.fenceLost));
  }

  lemma ReachesCancelled(s: State, s': State, i: NodeId, now: bool)
    requires Reaches(s, s')
    ensures Reaches(s, Cancelled(s', i, now))
  {
    if now { ReachesStep(s, s', Cancel(i)); }
  }

  lemma PlayedIsRun(s: State, i: NodeId, script: Script)
    requires i < |s.nodes| && ScriptOk(i, script)
    ensures Reaches(s, Played(s, i, script))
  {
    assert s == Run(s, []);
    var read := Apply(s, ReadClock(i));
    ReachesStep(s, s, ReadClock(i));
    ReachesRun(s, read, script.afterRead);
    ReachesStep(s, Run(read, script.afterRead), ProcessClock(i));
    ReachesCalled(s, AtRenewal(s, i, script), i, script.renew);
    var c := Cancelled(PlayedRenewal(s, i, script), i, script.cancelled);
    ReachesCancelled(s, PlayedRenewal(s, i, script), i, script.cancelled);
    ReachesRun(s, c, script.beforeGate);
    ReachesStep(s, Run(c, script.beforeGate), PassGate(i));
    ReachesCalled(s, AtConfirm(s, i, script), i, script.confirm);
    ReachesCalled(s, AtClaim(s, i, script), i, script.claim);
  }

  class Loop {
    const ttl: Time
    var leader: bool
    var fence: Fence
    var unconfirmedClaim: bool
    var expiresAt: Time
    var terms: seq<Term>
    var termDone: Option<nat>
    var termCancel: Option<nat>
    var stopping: bool

    /** The loop's variables, standing at the select statement. */
    ghost function Snapshot(): Node
      reads this
    {
      Node(ttl, leader, fence, unconfirmedClaim, expiresAt, terms, termDone, termCancel, stopping, Idle)
    }

    constructor (ttl: Time)
      ensures Snapshot() == Boot(ttl, [])
    {
      this.ttl := ttl;
      leader, fence, unconfirmedClaim, expiresAt := false, 0, false, 0;
      terms, termDone, termCancel, stopping := [], None, None, false;
    }

    method DropLeadership()
      modifies this
      ensures Snapshot() == Lease.DropLeadership(old(Snapshot()))
    {
      if termCancel.Some? && termCancel.value < |terms| {
        terms := terms[termCancel.value := terms[termCancel.value].(cancelled := true)];
      }
      termCancel := None;
      leader := false;
    }

    method TermDraining() returns (draining: bool)
      modifies this
      ensures Snapshot() == Drained(old(Snapshot()))
      ensures draining <==> termDone.Some?
    {
      if termDone.None? { return false; }
      if termDone.value < |terms| && terms[termDone.value].exited {
        termDone := None;
        return false;
      }
      return true;
    }

    method StartTerm(expires: Time)
      modifies this
      ensures Snapshot() == Lease.StartTerm(old(Snapshot()), expires)
    {
      unconfirmedClaim := false;
      expiresAt := expires;
      leader := true;
      termCancel := Some(|terms|);
      termDone := Some(|terms|);
      terms := terms + [Term(fence, false, false)];
    }

    /** The goroutines of these terms end; the loop takes no part in it. */
    method TermsExit(gone: set<nat>)
      modifies this`terms
      ensures Snapshot() == Mark(old(Snapshot()), gone)
    {
      terms := Marked(terms, gone);
    }

    method KeepLease(now: Time, renew: RenewReply)
      modifies this
      ensures Snapshot() == AfterRenewal(old(Snapshot()), now, renew)
    {
      // Fail closed first: a paused holder cannot revive an expired term.
      if leader && expiresAt <= now { DropLeadership(); }
      if leader {
        if renew.err || !renew.held { DropLeadership(); } else { expiresAt := now + ttl; }
      }
    }

    method Acquire(now: Time, ans: Answers)
      modifies this
      ensures Snapshot() == AfterAcquisition(old(Snapshot()), now, ans)
    {
      if stopping { return; }
      if leader { return; }
      var draining := TermDraining();
      if draining { return; }
      if unconfirmedClaim {
        stopping := stopping || ans.stopAfterConfirm;
        if ans.confirm.err {
        } else if !ans.confirm.held {
          unconfirmedClaim := false;
          fence := 0;
        } else if !stopping {
          StartTerm(now + ttl);
        }
      }
      if !leader && !unconfirmedClaim && !stopping {
        stopping := stopping || ans.stopAfterClaim;
        if ans.claim.fence != 0 && (ans.claim.held || ans.claim.err) {
          fence := ans.claim.fence;
          unconfirmedClaim := true;
        }
        if !ans.claim.err && ans.claim.held && !stopping { StartTerm(now + ttl); }
      }
    }

    method Tick(ans: Answers)
      modifies this
      ensures Snapshot() == Heartbeat(old(Snapshot()), ans)
    {
      if ans.clock.None? {
        if leader { DropLeadership(); }
        TermsExit(ans.goneAtEnd);
        return;
      }
      KeepLease(ans.clock.value, ans.renew);
      stopping := stopping || ans.stopAfterRenew;
      TermsExit(ans.goneAtGate);
      Acquire(ans.clock.value, ans);
      TermsExit(ans.goneAtEnd);
    }

    /** The shutdown branch: cancel the term, wait for it, release only if it was
        joined.  `exits` says whether the term ends within the wait. */
    method Shutdown(exits: bool) returns (release: bool)
      modifies this
      ensures
        var dropped := OnShutdown(old(Snapshot()));
        var done := dropped.pc.done;
        var waited := if exits && done.Some? && done.value < |dropped.terms|
                      then dropped.(terms := ExitTerm(dropped.terms, done.value)) else dropped;
        && Snapshot() == waited.(pc := Idle)
        && (release <==> OnJoin(waited, done).pc.Releasing?)
    {
      var done := termDone;
      DropLeadership();
      var joined := done.None?;
      if done.Some? && done.value < |terms| {
        if exits { terms := terms[done.value := terms[done.value].(exited := true)]; }
        joined := terms[done.value].exited;
      }
      release := fence != 0 && joined;
    }
  }
}
