/** The two listening endpoints across configuration changes: roles, transports,
    tracked connections and the sockets a preparation reserves. */
module Endpoints {
  import opened Options

  /** Plaintext, or TLS under the certificate of one PEM pair. */
  type Transport = Option<string>

  /** A listening socket; the transport each tracked connection was accepted on, how
      many were ever accepted, and which of them are closed. */
  datatype Endpoint = Endpoint(address: string, bound: string, operational: bool, retired: bool, tls: Transport,
    connections: map<nat, Transport>, accepted: nat, closed: set<nat>)

  /** What a preparation reserved for the configuration it will install. */
  datatype Prepared = Prepared(public: nat, operational: nat, created: set<nat>, certificate: Transport,
    resetPublic: bool, previous: nat)

  /** Endpoints by identity, the two in use, the served PEM pair, the count of
      installed generations, and the preparations neither activated nor closed. */
  datatype State = State(endpoints: map<nat, Endpoint>, public: Option<nat>, operational: Option<nat>,
    pem: Transport, generation: nat,
    pending: map<nat, Prepared>)

  // ---- Invariant ---------------------------------------------------------------------------

  /** Every tracked connection speaks the current transport; the closed ones are
      exactly those no longer tracked. */
  ghost predicate Tracked(e: Endpoint) {
    && (forall c: nat :: c in e.connections ==> c < e.accepted && e.connections[c] == e.tls)
    && (forall c: nat :: c in e.closed <==> c < e.accepted && c !in e.connections)
  }

  predicate Active(s: State, i: nat) { s.public == Some(i) || s.operational == Some(i) }

  /** Distinct endpoints in the right roles on the right transports. */
  ghost predicate RolesOk(s: State) {
    && (s.public.None? <==> s.operational.None?)
    && (s.public.Some? && s.operational.Some? ==>
      && s.public.value in s.endpoints && s.operational.value in s.endpoints && s.public != s.operational
      && var p, o := s.endpoints[s.public.value], s.endpoints[s.operational.value];
      !p.retired && !o.retired && !p.operational && o.operational && p.tls == s.pem && o.tls == None)
  }

  ghost predicate HeldBy(s: State, i: nat, k: nat) { k in s.pending && i in s.pending[k].created }

  /** Every endpoint is in use, retired, or reserved by exactly one preparation. */
  ghost predicate Accounted(s: State) {
    && (forall i :: i in s.endpoints ==>
      Tracked(s.endpoints[i]) && (Active(s, i) || s.endpoints[i].retired || exists k :: HeldBy(s, i, k)))
    && (forall i, k :: HeldBy(s, i, k) ==> i in s.endpoints && !s.endpoints[i].retired && !Active(s, i))
    && (forall i, k, l :: HeldBy(s, i, k) && HeldBy(s, i, l) ==> k == l)
  }

  /** A preparation that is not superseded fits the endpoints it will replace. */
  ghost predicate Fits(s: State, p: Prepared) {
    && p.public != p.operational && p.public in s.endpoints && p.operational in s.endpoints
    && (p.resetPublic <==> s.public.Some? && s.pem != p.certificate)
    && (if p.public in p.created then !s.endpoints[p.public].operational && s.endpoints[p.public].tls == p.certificate
      else Active(s, p.public))
    && (if p.operational in p.created
      then s.endpoints[p.operational].operational && s.endpoints[p.operational].tls == None
      else Active(s, p.operational))
    && p.created <= {p.public, p.operational}
  }

  ghost predicate PendingOk(s: State) {
    forall k :: k in s.pending ==>
      s.pending[k].previous <= s.generation && (s.pending[k].previous == s.generation ==> Fits(s, s.pending[k]))
  }

  ghost predicate Valid(s: State) { RolesOk(s) && Accounted(s) && PendingOk(s) }

  // ---- Connections -----------------------------------------------------------------------

  /** Closes the given connections one by one while others arrive. */
  method CloseAll(previous: set<nat>, connections: map<nat, Transport>, closed: set<nat>, accepted: nat, tls: Transport,
      arrivals: nat -> bool)
    returns (connections': map<nat, Transport>, closed': set<nat>, accepted': nat)
    requires previous == connections.Keys && forall c: nat :: c in closed <==> c < accepted && c !in connections
    requires forall c: nat :: c in connections ==> c < accepted
    ensures accepted <= accepted'
    ensures forall c: nat :: c in connections' ==> accepted <= c < accepted' && connections'[c] == tls
    ensures forall c: nat :: c in closed' <==> c < accepted' && c !in connections'
  {
    connections', closed', accepted' := connections, closed, accepted;
    var rest, i := previous, 0;
    while rest != {}
      invariant accepted <= accepted' && rest <= previous && rest <= connections'.Keys
      invariant forall c: nat :: c in connections' && c !in rest ==> accepted <= c < accepted' && connections'[c] == tls
      invariant forall c: nat :: c in closed' <==> c < accepted' && c !in connections'
      decreases |rest|
    {
      if arrivals(i) { connections', accepted' := connections'[accepted' := tls], accepted' + 1; }
      i := i + 1;
      var c :| c in rest;
      rest := rest - {c};
      closed' := closed' + {c};
      connections' := connections' - {c};
    }
  }

  /** The endpoint afterwards: same socket and role, new transport, and everything
      accepted before closed. */
  ghost predicate Replaced(e: Endpoint, e': Endpoint, tls: Transport) {
    && e' == e.(tls := tls, connections := e'.connections, accepted := e'.accepted, closed := e'.closed)
    && Tracked(e') && e.accepted <= e'.accepted
    && forall c: nat :: c < e.accepted ==> c in e'.closed && c !in e'.connections
  }

  /** Switches the transport and closes every connection tracked until then.  More
      connections may be accepted before each close (`arrivals`). */
  method ReplaceTransport(e: Endpoint, tls: Transport, arrivals: nat -> bool) returns (e': Endpoint)
    requires Tracked(e)
    ensures Replaced(e, e', tls)
  {
    var connections, closed, accepted :=
      CloseAll(e.connections.Keys, e.connections, e.closed, e.accepted, tls, arrivals);
    e' := e.(tls := tls, connections := connections, accepted := accepted, closed := closed);
  }

  // ---- Steps on values -----------------------------------------------------------------------

  function NewEndpoint(address: string, bound: string, operational: bool, tls: Transport): Endpoint {
    Endpoint(address, bound, operational, false, tls, map[], 0, {})
  }

  function Retire(s: State, gone: set<nat>): State {
    s.(endpoints := RetiredIn(s.endpoints, gone))
  }

  function Registered(s: State, added: map<nat, Endpoint>, k: nat, p: Prepared): State {
    s.(endpoints := s.endpoints + added, pending := s.pending[k := p])
  }

  lemma RegisteredHeld(s: State, added: map<nat, Endpoint>, k: nat, p: Prepared, i: nat, l: nat)
    requires Accounted(s) && k !in s.pending && Reservation(s, added, p)
    requires (forall x :: x in added ==> !added[x].retired) && RolesOk(s)
    ensures
      var s' := Registered(s, added, k, p);
      && (HeldBy(s', i, l) <==> if l == k then i in p.created else HeldBy(s, i, l))
      && (HeldBy(s', i, l) ==> i in s'.endpoints && !s'.endpoints[i].retired && !Active(s', i))
  {
  }

  lemma RegisteredEndpoint(s: State, added: map<nat, Endpoint>, k: nat, p: Prepared, i: nat)
    requires Accounted(s) && k !in s.pending && Reservation(s, added, p)
    requires (forall x :: x in added ==> !added[x].retired && Tracked(added[x])) && RolesOk(s)
    requires i in Registered(s, added, k, p).endpoints
    ensures
      var s' := Registered(s, added, k, p);
      Tracked(s'.endpoints[i]) && (Active(s', i) || s'.endpoints[i].retired || exists l :: HeldBy(s', i, l))
  {
    var s' := Registered(s, added, k, p);
    if i in added { assert HeldBy(s', i, k); }
    else if !Active(s, i) && !s.endpoints[i].retired {
      var l :| HeldBy(s, i, l);
      RegisteredHeld(s, added, k, p, i, l);
    }
  }

  /** Adding endpoints that a new preparation reserves. */
  lemma RegisterValid(s: State, added: map<nat, Endpoint>, k: nat, p: Prepared)
    requires Valid(s) && k !in s.pending && Reservation(s, added, p)
    requires forall i :: i in added ==> Tracked(added[i]) && !added[i].retired
    ensures Valid(Registered(s, added, k, p))
  {
    var s' := Registered(s, added, k, p);
    forall i, l
      ensures HeldBy(s', i, l) <==> if l == k then i in p.created else HeldBy(s, i, l)
      ensures HeldBy(s', i, l) ==> i in s'.endpoints && !s'.endpoints[i].retired && !Active(s', i)
    {
      RegisteredHeld(s, added, k, p, i, l);
    }
    forall i | i in s'.endpoints
      ensures Tracked(s'.endpoints[i]) && (Active(s', i) || s'.endpoints[i].retired || exists l :: HeldBy(s', i, l))
    {
      RegisteredEndpoint(s, added, k, p, i);
    }
    assert Accounted(s');
    forall l | l in s'.pending && s'.pending[l].previous == s'.generation ensures Fits(s', s'.pending[l]) {
      if l != k { assert Fits(s, s.pending[l]); }
    }
  }

  function Closed(s: State, k: nat): State
    requires k in s.pending
  {
    Retire(s, s.pending[k].created).(pending := s.pending - {k})
  }

  /** Retiring what a preparation reserved. */
  lemma CloseValid(s: State, k: nat)
    requires Valid(s) && k in s.pending
    ensures Valid(Closed(s, k))
  {
    var s' := Closed(s, k);
    forall i, l ensures HeldBy(s', i, l) <==> HeldBy(s, i, l) && l != k {}
    forall i | i in s.pending[k].created ensures HeldBy(s, i, k) {}
    forall i | i in s'.endpoints
      ensures Tracked(s'.endpoints[i]) && (Active(s', i) || s'.endpoints[i].retired || exists l :: HeldBy(s', i, l))
    {
      if !Active(s, i) && !s'.endpoints[i].retired { var l :| HeldBy(s, i, l); assert HeldBy(s', i, l); }
    }
    forall l | l in s'.pending && s'.pending[l].previous == s'.generation ensures Fits(s', s'.pending[l]) {}
    assert RolesOk(s') && Accounted(s');
  }

  /** An endpoint takes over a role, switching transport first where it must. */
  ghost predicate Becomes(e: Endpoint, e': Endpoint, operational: bool, tls: Transport, replace: bool) {
    e'.operational == operational &&
      if replace then Replaced(e, e'.(operational := e.operational), tls) else e' == e.(operational := operational)
  }

  function InUse(public: Option<nat>, operational: Option<nat>): set<nat> {
    (if public.Some? then {public.value} else {}) + if operational.Some? then {operational.value} else {}
  }

  function Installed(s: State, k: nat, public: Endpoint, operational: Endpoint): State
    requires k in s.pending
  {
    var p := s.pending[k];
    Retire(s.(endpoints := s.endpoints[p.public := public][p.operational := operational]),
      InUse(s.public, s.operational) - {p.public, p.operational})
      .(public := Some(p.public), operational := Some(p.operational), pem := p.certificate,
        generation := s.generation + 1, pending := s.pending - {k})
  }

  /** The two endpoints an activation leaves in use. */
  ghost predicate Installs(s: State, k: nat, public: Endpoint, operational: Endpoint) {
    && k in s.pending && s.pending[k].public in s.endpoints && s.pending[k].operational in s.endpoints
    && var p := s.pending[k];
    var e, f := s.endpoints[p.public], s.endpoints[p.operational];
    Becomes(e, public, false, p.certificate, e.operational || p.resetPublic) &&
      Becomes(f, operational, true, None, !f.operational)
  }

  /** Whatever was reused or created, both end on the right transport. */
  lemma InstalledRoles(s: State, k: nat, public: Endpoint, operational: Endpoint)
    requires Valid(s) && Installs(s, k, public, operational) && s.pending[k].previous == s.generation
    ensures RolesOk(Installed(s, k, public, operational)) && Tracked(public) && Tracked(operational)
    ensures !public.retired && !operational.retired
  {
    var p := s.pending[k];
    assert Fits(s, p);
    if p.public in p.created { assert HeldBy(s, p.public, k); }
    if p.operational in p.created { assert HeldBy(s, p.operational, k); }
  }

  lemma InstalledHeld(s: State, k: nat, public: Endpoint, operational: Endpoint, i: nat, l: nat)
    requires Valid(s) && Installs(s, k, public, operational) && s.pending[k].previous == s.generation
    ensures
      var s' := Installed(s, k, public, operational);
      (HeldBy(s', i, l) <==> HeldBy(s, i, l) && l != k) &&
        (HeldBy(s', i, l) ==> i in s'.endpoints && !s'.endpoints[i].retired && !Active(s', i))
  {
    var p := s.pending[k];
    assert Fits(s, p);
    if p.public in p.created { assert HeldBy(s, p.public, k); }
    if p.operational in p.created { assert HeldBy(s, p.operational, k); }
  }

  lemma InstalledEndpoint(s: State, k: nat, public: Endpoint, operational: Endpoint, i: nat)
    requires Valid(s) && Installs(s, k, public, operational) && s.pending[k].previous == s.generation
    requires i in Installed(s, k, public, operational).endpoints
    ensures
      var s' := Installed(s, k, public, operational);
      Tracked(s'.endpoints[i]) && (Active(s', i) || s'.endpoints[i].retired || exists l :: HeldBy(s', i, l))
  {
    var s' := Installed(s, k, public, operational);
    var p := s.pending[k];
    assert Fits(s, p);
    InstalledRoles(s, k, public, operational);
    if !Active(s', i) && !s'.endpoints[i].retired {
      var l :| HeldBy(s, i, l);
      InstalledHeld(s, k, public, operational, i, l);
    }
  }

  lemma InstalledValid(s: State, k: nat, public: Endpoint, operational: Endpoint)
    requires Valid(s) && Installs(s, k, public, operational) && s.pending[k].previous == s.generation
    ensures Valid(Installed(s, k, public, operational))
    ensures Installed(s, k, public, operational).endpoints.Keys == s.endpoints.Keys
  {
    var s' := Installed(s, k, public, operational);
    InstalledRoles(s, k, public, operational);
    forall i, l
      ensures HeldBy(s', i, l) <==> HeldBy(s, i, l) && l != k
      ensures (HeldBy(s', i, l) ==> i in s'.endpoints && !s'.endpoints[i].retired && !Active(s', i))
    {
      InstalledHeld(s, k, public, operational, i, l);
    }
    forall i | i in s'.endpoints
      ensures Tracked(s'.endpoints[i]) && (Active(s', i) || s'.endpoints[i].retired || exists l :: HeldBy(s', i, l))
    {
      InstalledEndpoint(s, k, public, operational, i);
    }
    assert PendingOk(s');
  }

  /** A connection accepted by an endpoint before its transport changed is closed. */
  lemma ReplacementClosesAll(s: State, k: nat, public: Endpoint, operational: Endpoint, i: nat, c: nat)
    requires Valid(s) && Installs(s, k, public, operational) && s.pending[k].previous == s.generation
    requires i in s.endpoints && c < s.endpoints[i].accepted
    ensures
      var e, e' := s.endpoints[i], Installed(s, k, public, operational).endpoints[i];
      e'.tls != e.tls || e'.operational != e.operational ==> c in e'.closed && c !in e'.connections
  {
    assert Fits(s, s.pending[k]);
  }

  method TakeOver(e: Endpoint, operational: bool, tls: Transport, replace: bool, arrivals: nat -> bool)
    returns (e': Endpoint)
    requires Tracked(e)
    ensures Becomes(e, e', operational, tls, replace)
  {
    e' := e;
    if replace { e' := ReplaceTransport(e, tls, arrivals); }
    e' := e'.(operational := operational);
  }

  function RetiredIn(endpoints: map<nat, Endpoint>, gone: set<nat>): map<nat, Endpoint> {
    map i | i in endpoints :: if i in gone then endpoints[i].(retired := true) else endpoints[i]
  }

  method RetireAll(endpoints: map<nat, Endpoint>, gone: set<nat>) returns (endpoints': map<nat, Endpoint>)
    ensures endpoints' == RetiredIn(endpoints, gone)
  {
    endpoints' := endpoints;
    var rest := gone;
    while rest != {}
      invariant rest <= gone && endpoints' == RetiredIn(endpoints, gone - rest)
    {
      var i :| i in rest;
      rest := rest - {i};
      if i in endpoints' { endpoints' := endpoints'[i := endpoints'[i].(retired := true)]; }
    }
    assert gone - rest == gone;
  }

  /** Transports, roles and retirements of one activation. */
  method SwapRoles(endpoints: map<nat, Endpoint>, p: Prepared, gone: set<nat>, arrivals: nat -> bool,
      operationalArrivals: nat -> bool)
    returns (endpoints': map<nat, Endpoint>, public: Endpoint, operational: Endpoint)
    requires p.public in endpoints && p.operational in endpoints && Tracked(endpoints[p.public])
    requires Tracked(endpoints[p.operational])
    ensures Becomes(endpoints[p.public], public, false, p.certificate, endpoints[p.public].operational || p.resetPublic)
    ensures Becomes(endpoints[p.operational], operational, true, None, !endpoints[p.operational].operational)
    ensures endpoints' == RetiredIn(endpoints[p.public := public][p.operational := operational], gone)
  {
    var replace := endpoints[p.public].operational || p.resetPublic;
    var e := TakeOver(endpoints[p.public], false, p.certificate, replace, arrivals);
    var f := TakeOver(endpoints[p.operational], true, None, !endpoints[p.operational].operational, operationalArrivals);
    public, operational := e, f;
    endpoints' := RetireAll(endpoints[p.public := e][p.operational := f], gone);
  }

  /** A preparation together with the endpoints bound for it. */
  ghost predicate Reservation(s: State, added: map<nat, Endpoint>, p: Prepared) {
    && added.Keys !! s.endpoints.Keys && added.Keys == p.created && p.previous == s.generation
    && Fits(s.(endpoints := s.endpoints + added), p)
  }

  lemma Activatable(s: State, k: nat)
    requires Valid(s) && k in s.pending && s.pending[k].previous == s.generation
    ensures Fits(s, s.pending[k]) && Tracked(s.endpoints[s.pending[k].public])
    ensures Tracked(s.endpoints[s.pending[k].operational])
  {
  }

  method Install(s: State, k: nat, arrivals: nat -> bool, operationalArrivals: nat -> bool)
    returns (s': State, public: Endpoint, operational: Endpoint)
    requires Valid(s) && k in s.pending && s.pending[k].previous == s.generation
    ensures Installs(s, k, public, operational) && s' == Installed(s, k, public, operational)
  {
    Activatable(s, k);
    var p := s.pending[k];
    var gone := InUse(s.public, s.operational) - {p.public, p.operational};
    var endpoints;
    endpoints, public, operational := SwapRoles(s.endpoints, p, gone, arrivals, operationalArrivals);
    s' := State(endpoints, Some(p.public), Some(p.operational), p.certificate, s.generation + 1, s.pending - {k});
  }

  // ---- The owner -------------------------------------------------------------------------------

  class Owner {
    var state: State
    var nextEndpoint: nat
    var nextPreparation: nat

    /** The invariant, and identities not handed out yet. */
    ghost predicate Ok()
      reads this
    {
      Valid(state) && Numbered(state, nextEndpoint, nextPreparation)
    }

    constructor ()
      ensures Ok() && state.public.None? && state.pending == map[]
    {
      state, nextEndpoint, nextPreparation := State(map[], None, None, None, 0, map[]), 0, 0;
    }

    /** Reserves what a configuration needs without touching what is served. */
    method Prepare(listen: string, operationalListen: string, certificate: Transport, bound: Option<string>,
        operationalBound: Option<string>)
      returns (k: Option<nat>, ghost added: map<nat, Endpoint>)
      requires Ok()
      modifies this
      ensures Ok() && added.Keys !! old(state).endpoints.Keys
      ensures k.None? ==> state == Discarded(old(state), added)
      ensures k.Some? ==>
        k.value in state.pending && Reservation(old(state), added, state.pending[k.value]) &&
        state.pending[k.value].certificate == certificate
      ensures k.Some? ==>
        k.value !in old(state).pending && state == Registered(old(state), added, k.value, state.pending[k.value])
    {
      var p, bindings := Reserve(state, nextEndpoint, listen, operationalListen, certificate, bound, operationalBound);
      added := bindings;
      if p.None? {
        RetiredAddition(state, added);
        state := state.(endpoints := state.endpoints + RetiredIn(bindings, bindings.Keys));
        k := None;
      } else {
        RegisterValid(state, added, nextPreparation, p.value);
        state := state.(endpoints := state.endpoints + bindings, pending := state.pending[nextPreparation := p.value]);
        k := Some(nextPreparation);
        nextPreparation := nextPreparation + 1;
      }
      nextEndpoint := nextEndpoint + 2;
    }

    /** Retires what the preparation reserved. */
    method Close(k: nat)
      requires Ok()
      modifies this`state
      ensures Ok()
      ensures state == if k in old(state).pending then Closed(old(state), k) else old(state)
    {
      if k !in state.pending { return; }
      CloseValid(state, k);
      var endpoints := RetireAll(state.endpoints, state.pending[k].created);
      state := state.(endpoints := endpoints, pending := state.pending - {k});
    }

    /** Installs a preparation unless it was superseded or is gone. */
    method Activate(k: nat, arrivals: nat -> bool, operationalArrivals: nat -> bool)
      returns (ok: bool, ghost e: Endpoint, ghost f: Endpoint)
      requires Ok()
      modifies this`state
      ensures Ok()
      ensures ok <==> k in old(state).pending && old(state).pending[k].previous == old(state).generation
      ensures !ok ==> state == old(state)
      ensures ok ==> Installs(old(state), k, e, f) && state == Installed(old(state), k, e, f)
    {
      e, f := NewEndpoint("", "", false, None), NewEndpoint("", "", false, None);
      if k !in state.pending || state.pending[k].previous != state.generation { return false, e, f; }
      var next;
      next, e, f := Install(state, k, arrivals, operationalArrivals);
      InstalledValid(state, k, e, f);
      state := next;
      ok := true;
    }

    /** A connection arrives at an endpoint. */
    method Accept(i: nat) returns (c: nat)
      requires Ok() && i in state.endpoints
      modifies this`state
      ensures Ok() && c == old(state).endpoints[i].accepted
      ensures state == old(state).(endpoints := old(state).endpoints[i := Accepted(old(state).endpoints[i])])
    {
      AcceptValid(state, i);
      c := state.endpoints[i].accepted;
      var e := state.endpoints[i];
      e := e.(connections := e.connections[c := e.tls], accepted := c + 1);
      state := state.(endpoints := state.endpoints[i := e]);
    }
  }

  ghost predicate Numbered(s: State, nextEndpoint: nat, nextPreparation: nat) {
    (forall i :: i in s.endpoints ==> i < nextEndpoint) && (forall k :: k in s.pending ==> k < nextPreparation)
  }

  predicate Matches(s: State, i: nat, address: string) {
    i in s.endpoints && !s.endpoints[i].retired &&
      (s.endpoints[i].address == address || s.endpoints[i].bound == address)
  }

  /** An endpoint in use under the address, if there is one. */
  method Reuse(s: State, address: string, except: Option<nat>) returns (i: Option<nat>)
    ensures i.Some? ==> Active(s, i.value) && i != except && Matches(s, i.value, address)
    ensures i.None? ==> forall x: nat :: Active(s, x) && Some(x) != except ==> !Matches(s, x, address)
  {
    if s.public.Some? && s.public != except && Matches(s, s.public.value, address) { return s.public; }
    if s.operational.Some? && s.operational != except && Matches(s, s.operational.value, address) {
      return s.operational;
    }
    return None;
  }

  /** The endpoints a configuration will use and the ones bound for it.  A listen
      that fails is None. */
  method Reserve(s: State, nextEndpoint: nat, listen: string, operationalListen: string, certificate: Transport,
      bound: Option<string>, operationalBound: Option<string>)
    returns (p: Option<Prepared>, added: map<nat, Endpoint>)
    requires forall i :: i in s.endpoints ==> i < nextEndpoint
    ensures forall i :: i in added ==> nextEndpoint <= i < nextEndpoint + 2 && Tracked(added[i]) && !added[i].retired
    ensures p.Some? ==> Reservation(s, added, p.value) && p.value.certificate == certificate
  {
    added := map[];
    var e := Reuse(s, listen, None);
    var i := if e.Some? then e.value else nextEndpoint;
    if e.None? {
      if bound.None? { return None, added; }
      added := map[i := NewEndpoint(listen, bound.value, false, certificate)];
    }
    var f := Reuse(s, operationalListen, Some(i));
    var j := if f.Some? then f.value else nextEndpoint + 1;
    if f.None? {
      if operationalBound.None? { return None, added; }
      added := added[j := NewEndpoint(operationalListen, operationalBound.value, true, None)];
    }
    p := Some(Prepared(i, j, added.Keys, certificate, s.public.Some? && s.pem != certificate, s.generation));
  }

  function Accepted(e: Endpoint): Endpoint {
    e.(connections := e.connections[e.accepted := e.tls], accepted := e.accepted + 1)
  }

  lemma AcceptValid(s: State, i: nat)
    requires Valid(s) && i in s.endpoints
    ensures Valid(s.(endpoints := s.endpoints[i := Accepted(s.endpoints[i])]))
  {
    var s' := s.(endpoints := s.endpoints[i := Accepted(s.endpoints[i])]);
    assert forall x, l :: HeldBy(s', x, l) <==> HeldBy(s, x, l);
    assert Tracked(Accepted(s.endpoints[i]));
    forall k | k in s'.pending && s'.pending[k].previous == s'.generation ensures Fits(s', s'.pending[k]) {
      assert Fits(s, s.pending[k]);
    }
  }

  function Discarded(s: State, added: map<nat, Endpoint>): State {
    s.(endpoints := s.endpoints + RetiredIn(added, added.Keys))
  }

  lemma RetiredAccounted(s: State, added: map<nat, Endpoint>)
    requires Accounted(s) && RolesOk(s) && added.Keys !! s.endpoints.Keys
    requires forall i :: i in added ==> Tracked(added[i])
    ensures Accounted(Discarded(s, added))
  {
    assert forall x, l :: HeldBy(Discarded(s, added), x, l) <==> HeldBy(s, x, l);
  }

  /** A socket bound for nothing is retired at once. */
  lemma RetiredAddition(s: State, added: map<nat, Endpoint>)
    requires Valid(s) && added.Keys !! s.endpoints.Keys && forall i :: i in added ==> Tracked(added[i])
    ensures Valid(Discarded(s, added))
  {
    var s' := Discarded(s, added);
    RetiredAccounted(s, added);
    forall k | k in s'.pending && s'.pending[k].previous == s'.generation ensures Fits(s', s'.pending[k]) {
      assert Fits(s, s.pending[k]);
    }
  }
}
