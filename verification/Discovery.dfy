/** Discovery of the releases an upgrade route needs: a breadth-first walk of
    authenticated references back from the target, stopped as soon as nothing
    undiscovered can matter to the route already found. */
module Discovery {
  import opened Options

  const MAX_RELEASES := 256

  type Release = nat

  /** What the bundles declare: the releases each release names as sources, the
      releases recovery bridges name, sequences and manifest digests; and the
      installed release when it is exactly known. */
  datatype Catalog = Catalog(target: Release, references: Release -> set<Release>, bridges: set<Release>,
    sequence: Release -> nat, manifest: Release -> nat, preferred: Option<Release>)

  /** Not beyond the target and not before the installed release. */
  predicate Admissible(c: Catalog, x: Release) {
    c.sequence(x) <= c.sequence(c.target) && (c.preferred.Some? ==> c.sequence(c.preferred.value) <= c.sequence(x))
  }

  /** The admissible releases a bundle entry names; bridges come with the target. */
  function Next(c: Catalog, n: Release): set<Release> {
    set m | m in c.references(n) + (if n == c.target then c.bridges else {}) && Admissible(c, m)
  }

  // ---- Distance -----------------------------------------------------------------------------

  /** The release is at most k references away from the target. */
  ghost predicate Near(c: Catalog, k: nat, x: Release) {
    if k == 0 then x == c.target else Near(c, k - 1, x) || exists n :: Near(c, k - 1, n) && x in Next(c, n)
  }

  /** Exactly d references away. */
  ghost predicate At(c: Catalog, x: Release, d: nat) {
    Near(c, d, x) && (0 < d ==> !Near(c, d - 1, x))
  }

  lemma {:induction false} NearGrows(c: Catalog, j: nat, k: nat, x: Release)
    requires j <= k && Near(c, j, x)
    ensures Near(c, k, x)
  {
    if j < k { NearGrows(c, j, k - 1, x); }
  }

  lemma AtMost(c: Catalog, x: Release, d: nat, j: nat)
    requires At(c, x, d) && Near(c, j, x)
    ensures d <= j
  {
    if j < d { NearGrows(c, j, d - 1, x); }
  }

  // ---- The walk --------------------------------------------------------------------------------

  function References(c: Catalog, present: set<Release>): set<Release> {
    set n, m | n in present && m in Next(c, n) && m !in present :: m
  }

  function Label(depths: map<Release, nat>, references: set<Release>, expanded: nat): map<Release, nat> {
    map x | x in depths.Keys + references ::
      if x !in depths || (x in references && expanded + 1 < depths[x]) then expanded + 1 else depths[x]
  }

  ghost predicate Exact(c: Catalog, depths: map<Release, nat>) {
    forall x :: x in depths ==> At(c, x, depths[x])
  }

  /** What is labelled but not present waits at the last expanded depth or one
      beyond. */
  ghost predicate Waiting(present: set<Release>, depths: map<Release, nat>, expanded: nat) {
    && present <= depths.Keys
    && (forall x :: x in present ==> depths[x] <= expanded)
    && (forall x :: x in depths && x !in present ==> expanded <= depths[x] <= expanded + 1)
  }

  /** What is labelled but not present is what the present releases name. */
  ghost predicate Frontier(c: Catalog, present: set<Release>, depths: map<Release, nat>) {
    c.target in present && depths.Keys == present + References(c, present)
  }

  ghost predicate Labelled(c: Catalog, present: set<Release>, depths: map<Release, nat>, expanded: nat) {
    Exact(c, depths) && Waiting(present, depths, expanded) && Frontier(c, present, depths)
  }

  ghost predicate NoneNearer(present: set<Release>, depths: map<Release, nat>, near: nat) {
    forall y :: y in depths && y !in present ==> near <= depths[y]
  }

  lemma Named(c: Catalog, present: set<Release>, depths: map<Release, nat>, n: Release, m: Release)
    requires Frontier(c, present, depths) && n in present && m in Next(c, n)
    ensures m in depths
  {
    if m !in present { assert m in References(c, present); }
  }

  /** Labels never exceed a distance at which the release is found. */
  ghost predicate AtMostNear(c: Catalog, depths: map<Release, nat>) {
    forall x, j: nat :: x in depths && Near(c, j, x) ==> depths[x] <= j
  }

  lemma ExactIsAtMost(c: Catalog, depths: map<Release, nat>)
    requires Exact(c, depths)
    ensures AtMostNear(c, depths)
  {
    forall x, j: nat | x in depths && Near(c, j, x) ensures depths[x] <= j { AtMost(c, x, depths[x], j); }
  }

  lemma Predecessor(c: Catalog, j: nat, x: Release) returns (n: Release)
    requires 0 < j && Near(c, j, x) && !Near(c, j - 1, x)
    ensures Near(c, j - 1, n) && x in Next(c, n)
  {
    n :| Near(c, j - 1, n) && x in Next(c, n);
  }

  /** Everything up to the nearest waiting release has been labelled. */
  lemma {:induction false} CompleteUpTo(c: Catalog, present: set<Release>, depths: map<Release, nat>,
      near: nat, j: nat, x: Release)
    requires AtMostNear(c, depths) && present <= depths.Keys && Frontier(c, present, depths)
    requires NoneNearer(present, depths, near)
    requires Near(c, j, x) && j <= near
    ensures x in depths && depths[x] <= j && (j < near ==> x in present)
  {
    if j == 0 {
      assert x == c.target;
    } else if Near(c, j - 1, x) {
      CompleteUpTo(c, present, depths, near, j - 1, x);
    } else {
      var n := Predecessor(c, j, x);
      CompleteUpTo(c, present, depths, near, j - 1, n);
      Named(c, present, depths, n, x);
    }
  }

  lemma Start(c: Catalog)
    ensures Labelled(c, {c.target}, Label(map[c.target := 0], References(c, {c.target}), 0), 0)
  {
    var depths := Label(map[c.target := 0], References(c, {c.target}), 0);
    forall x | x in depths ensures At(c, x, depths[x]) {
      if x != c.target { assert Near(c, 0, c.target) && x in Next(c, c.target); assert Near(c, 1, x); }
    }
  }

  lemma NewLabel(c: Catalog, present: set<Release>, depths: map<Release, nat>, i: Release, x: Release)
    requires Exact(c, depths) && present <= depths.Keys && Frontier(c, present, depths) && i in depths && i !in present
    requires NoneNearer(present, depths, depths[i])
    requires x in References(c, present + {i}) && x !in depths
    ensures At(c, x, depths[i] + 1)
  {
    var n :| n in present + {i} && x in Next(c, n);
    if n in present { Named(c, present, depths, n, x); }
    assert At(c, i, depths[i]);
    assert Near(c, depths[i] + 1, x);
    ExactIsAtMost(c, depths);
    if Near(c, depths[i], x) { CompleteUpTo(c, present, depths, depths[i], depths[i], x); }
  }

  /** Old labels stand, and what is new is named by the release just expanded. */
  lemma LabelKeeps(c: Catalog, present: set<Release>, depths: map<Release, nat>, expanded: nat, i: Release)
    requires Waiting(present, depths, expanded) && Frontier(c, present, depths) && i in depths && i !in present
    ensures
      var refs := References(c, present + {i});
      var depths' := Label(depths, refs, depths[i]);
      && depths'.Keys == present + {i} + refs
      && (forall x :: x in depths ==> depths'[x] == depths[x])
      && (forall x :: x in refs && x !in depths ==> depths'[x] == depths[i] + 1)
  {
    var refs := References(c, present + {i});
    forall x | x in depths ensures x in present + {i} + refs {
      if x !in present + {i} { assert x in References(c, present); }
    }
  }

  /** Expanding a nearest waiting release keeps the labels exact. */
  lemma Expand(c: Catalog, present: set<Release>, depths: map<Release, nat>, expanded: nat, i: Release)
    requires Labelled(c, present, depths, expanded) && i in depths && i !in present
    requires NoneNearer(present, depths, depths[i])
    ensures Labelled(c, present + {i}, Label(depths, References(c, present + {i}), depths[i]), depths[i])
  {
    var refs := References(c, present + {i});
    var depths' := Label(depths, refs, depths[i]);
    LabelKeeps(c, present, depths, expanded, i);
    forall x | x in depths' ensures At(c, x, depths'[x]) {
      if x !in depths { NewLabel(c, present, depths, i, x); } else { assert At(c, x, depths[x]); }
    }
  }

  // ---- Choosing the next release --------------------------------------------------------------------

  /** Nearest first, then the installed release, then the latest, then by manifest. */
  predicate Before(c: Catalog, depths: map<Release, nat>, a: Release, b: Release)
    requires a in depths && b in depths
  {
    if depths[a] != depths[b] then depths[a] < depths[b]
    else if c.preferred == Some(a) || c.preferred == Some(b) then c.preferred == Some(a)
    else if c.sequence(a) != c.sequence(b) then c.sequence(a) > c.sequence(b)
    else c.manifest(a) <= c.manifest(b)
  }

  method First(c: Catalog, depths: map<Release, nat>, references: set<Release>) returns (first: Release)
    requires references != {} && references <= depths.Keys
    ensures first in references && forall y :: y in references ==> Before(c, depths, first, y)
  {
    first :| first in references;
    var rest := references - {first};
    while rest != {}
      invariant rest <= references && first in references
      invariant forall y :: y in references && y !in rest ==> Before(c, depths, first, y)
    {
      var y :| y in rest;
      rest := rest - {y};
      if !Before(c, depths, first, y) { first := y; }
    }
  }

  /** The admissible references of the bundle that are not part of it yet. */
  method Collect(c: Catalog, present: set<Release>) returns (references: set<Release>)
    requires c.target in present
    ensures references == References(c, present)
  {
    references := {};
    var rest := present;
    while rest != {}
      invariant rest <= present
      invariant references == set n, m | n in present && n !in rest && m in Next(c, n) && m !in present :: m
    {
      var n :| n in rest;
      rest := rest - {n};
      references := references + set m | m in Next(c, n) && m !in present;
    }
  }

  method Relabel(depths: map<Release, nat>, references: set<Release>, expanded: nat)
    returns (depths': map<Release, nat>)
    ensures depths' == Label(depths, references, expanded)
  {
    depths' := depths;
    var rest := references;
    while rest != {}
      invariant rest <= references && depths' == Label(depths, references - rest, expanded)
    {
      var x :| x in rest;
      rest := rest - {x};
      if x !in depths' || expanded + 1 < depths'[x] { depths' := depths'[x := expanded + 1]; }
    }
    assert references - rest == references;
  }

  // ---- Discovery ----------------------------------------------------------------------------------------

  /** Every release nearer than the given distance is part of the bundle. */
  ghost predicate Within(c: Catalog, present: set<Release>, steps: nat) {
    forall x, j: nat :: Near(c, j, x) && j < steps ==> x in present
  }

  /** What planning over the bundle gives: nothing, the exact unfinished route or
      an installed target, or a route of some steps. */
  datatype Planning = NoRoute | Done | Route(steps: nat)

  datatype Result = Ready | Found(steps: nat) | Refused

  /** What discovery promises when it stops: a refusal has run out of references
      without a route, met one it cannot fetch, or reached the bound. */
  ghost predicate Outcome(c: Catalog, plan: set<Release> -> Planning, available: Release -> bool, r: Result,
      present: set<Release>)
  {
    match r
    case Ready => plan(present).Done?
    case Found(steps) => plan(present) == Route(steps) && Within(c, present, steps)
    case Refused =>
      && !plan(present).Done?
      && (|present| >= MAX_RELEASES
        || (References(c, present) == {} && plan(present).NoRoute?)
        || exists x :: x in References(c, present) && !available(x))
  }

  /** The search between two passes; labels of the latest references are still to
      be written. */
  ghost predicate Searching(c: Catalog, present: set<Release>, depths: map<Release, nat>, expanded: nat) {
    && Labelled(c, present, Label(depths, References(c, present), expanded), expanded)
    && Exact(c, depths) && c.target in present && present <= depths.Keys
  }

  /** One pass: stop, or add the nearest undiscovered release. */
  method Pass(c: Catalog, plan: set<Release> -> Planning, available: Release -> bool, present: set<Release>,
      depths: map<Release, nat>, expanded: nat)
    returns (r: Option<Result>, present': set<Release>, depths': map<Release, nat>, expanded': nat)
    requires Searching(c, present, depths, expanded) && |present| <= MAX_RELEASES
    ensures r.Some? ==>
      Outcome(c, plan, available, r.value, present') && present' == present && Exact(c, depths') &&
      present' <= depths'.Keys
    ensures r.None? ==> Searching(c, present', depths', expanded') && |present'| == |present| + 1 <= MAX_RELEASES
  {
    present', depths', expanded' := present, depths, expanded;
    var planned := plan(present);
    if planned.Done? { return Some(Ready), present', depths', expanded'; }
    var references := Collect(c, present);
    depths' := Relabel(depths, references, expanded);
    if references == {} {
      if planned.Route? { FoundEnough(c, plan, available, present, depths', expanded, planned.steps); }
      r := Some(if planned.Route? then Found(planned.steps) else Refused);
      return;
    }
    var first := First(c, depths', references);
    Nearest(c, present, depths', first);
    if planned.Route? && planned.steps <= depths'[first] {
      FoundEnough(c, plan, available, present, depths', expanded, planned.steps);
      r := Some(Found(planned.steps));
      return;
    }
    if |present| >= MAX_RELEASES || !available(first) {
      r := Some(Refused);
      return;
    }
    Expand(c, present, depths', expanded, first);
    OneMore(present, first);
    r, present', expanded' := None, present + {first}, depths'[first];
  }

  /** Grows the bundle until a route is found that no undiscovered release can
      affect.  `plan` is the planner on a bundle; `available` says whether a
      referenced release can be fetched as a nightly with matching evidence. */
  method Discover(c: Catalog, plan: set<Release> -> Planning, available: Release -> bool)
    returns (r: Result, present: set<Release>, depths: map<Release, nat>)
    ensures Outcome(c, plan, available, r, present)
    ensures Exact(c, depths) && c.target in present && present <= depths.Keys && |present| <= MAX_RELEASES
  {
    present, depths := {c.target}, map[c.target := 0];
    var expanded := 0;
    Start(c);
    while true
      invariant Searching(c, present, depths, expanded) && |present| <= MAX_RELEASES
      decreases MAX_RELEASES - |present|
    {
      var stop;
      stop, present, depths, expanded := Pass(c, plan, available, present, depths, expanded);
      if stop.Some? { return stop.value, present, depths; }
    }
  }

  lemma Nearest(c: Catalog, present: set<Release>, depths: map<Release, nat>, first: Release)
    requires Frontier(c, present, depths) && first in References(c, present)
    requires forall y :: y in References(c, present) ==> Before(c, depths, first, y)
    ensures first in depths && first !in present && NoneNearer(present, depths, depths[first])
  {
  }

  lemma OneMore(present: set<Release>, first: Release)
    requires first !in present
    ensures |present + {first}| == |present| + 1
  {
  }

  lemma FoundEnough(c: Catalog, plan: set<Release> -> Planning, available: Release -> bool, present: set<Release>,
      depths: map<Release, nat>, expanded: nat, steps: nat)
    requires Labelled(c, present, depths, expanded) && NoneNearer(present, depths, steps)
    requires plan(present) == Route(steps)
    ensures Outcome(c, plan, available, Found(steps), present)
  {
    Enough(c, present, depths, expanded, steps);
  }

  lemma Enough(c: Catalog, present: set<Release>, depths: map<Release, nat>, expanded: nat, steps: nat)
    requires Labelled(c, present, depths, expanded) && NoneNearer(present, depths, steps)
    ensures Within(c, present, steps)
  {
    ExactIsAtMost(c, depths);
    forall x, j: nat | Near(c, j, x) && j < steps ensures x in present {
      CompleteUpTo(c, present, depths, steps, j, x);
    }
  }

  // ---- Routes ------------------------------------------------------------------------------------------

  /** An upgrade step from a to b: b names a as a source, or a bridge joins them;
      sequences strictly increase along either. */
  ghost predicate Edge(c: Catalog, a: Release, b: Release) {
    (a in c.references(b) || (a in c.bridges && b in c.bridges + {c.target})) && c.sequence(a) < c.sequence(b)
  }

  /** What is installed: an exact release, or a database older than releases. */
  datatype Source = Installed(release: Release) | Genesis

  /** The edges a planner uses, which may be any of them: it leaves out edges across
      trust policies and from sources it cannot authenticate. */
  datatype Planner = Planner(uses: (Release, Release) -> bool, adopts: Release -> bool)

  ghost predicate Sound(c: Catalog, planner: Planner) {
    forall a, b :: planner.uses(a, b) ==> Edge(c, a, b)
  }

  /** The releases a route visits after its source, the target last.  A known
      installed release is never later than the source, and is a release. */
  ghost predicate IsRoute(c: Catalog, planner: Planner, source: Source, route: seq<Release>) {
    && route != [] && route[|route| - 1] == c.target
    && (forall i :: 0 <= i < |route| - 1 ==> planner.uses(route[i], route[i + 1]))
    && match source
       case Installed(release) => Admissible(c, release) && planner.uses(release, route[0])
       case Genesis => c.preferred.None? && planner.adopts(route[0])
  }

  lemma {:induction false} RouteSequence(c: Catalog, planner: Planner, source: Source, route: seq<Release>,
      i: nat, j: nat)
    requires Sound(c, planner) && IsRoute(c, planner, source, route) && i <= j < |route|
    ensures c.sequence(route[i]) <= c.sequence(route[j])
  {
    if i < j {
      RouteSequence(c, planner, source, route, i, j - 1);
      assert planner.uses(route[j - 1], route[j]);
    }
  }

  lemma RouteAdmissible(c: Catalog, planner: Planner, source: Source, route: seq<Release>, i: nat)
    requires Sound(c, planner) && IsRoute(c, planner, source, route) && i < |route|
    ensures Admissible(c, route[i])
  {
    RouteSequence(c, planner, source, route, i, |route| - 1);
    RouteSequence(c, planner, source, route, 0, i);
    if source.Installed? { assert Edge(c, source.release, route[0]); }
  }

  /** A release is no farther from the target by reference than along any route. */
  lemma {:induction false} RouteBoundsDistance(c: Catalog, planner: Planner, source: Source, route: seq<Release>,
      i: nat)
    requires Sound(c, planner) && IsRoute(c, planner, source, route) && i < |route|
    ensures Near(c, |route| - 1 - i, route[i])
    decreases |route| - i
  {
    if i < |route| - 1 {
      RouteBoundsDistance(c, planner, source, route, i + 1);
      RouteAdmissible(c, planner, source, route, i);
      assert planner.uses(route[i], route[i + 1]);
      var d := |route| - 2 - i;
      if route[i] in c.references(route[i + 1]) {
        assert route[i] in Next(c, route[i + 1]);
      } else {
        NearGrows(c, 0, d, c.target);
        assert route[i] in Next(c, c.target);
      }
      assert Near(c, d + 1, route[i]);
    }
  }

  /** The route runs, after its source, through the bundle. */
  ghost predicate Inside(route: seq<Release>, present: set<Release>) {
    forall i :: 0 <= i < |route| ==> route[i] in present
  }

  /** When discovery reports a route of k steps, every route of at most k steps, from
      whatever source and over whatever edges, already runs through discovered
      releases after its source. */
  lemma NoRouteOutside(c: Catalog, present: set<Release>, steps: nat, planner: Planner, source: Source,
      route: seq<Release>)
    requires Within(c, present, steps) && Sound(c, planner) && IsRoute(c, planner, source, route) && |route| <= steps
    ensures Inside(route, present)
  {
    forall i | 0 <= i < |route| ensures route[i] in present { RouteBoundsDistance(c, planner, source, route, i); }
  }

  lemma SourceNear(c: Catalog, planner: Planner, source: Source, route: seq<Release>)
    requires Sound(c, planner) && IsRoute(c, planner, source, route) && source.Installed?
    ensures Near(c, |route|, source.release)
  {
    RouteBoundsDistance(c, planner, source, route, 0);
    assert Edge(c, source.release, route[0]);
    if source.release in c.references(route[0]) {
      assert source.release in Next(c, route[0]);
    } else {
      NearGrows(c, 0, |route| - 1, c.target);
      assert source.release in Next(c, c.target);
    }
  }

  /** The bundle offers the route: it runs through the bundle, and starts from a
      release of the bundle unless a bridge vouches for the source. */
  ghost predicate Offered(c: Catalog, present: set<Release>, source: Source, route: seq<Release>) {
    && Inside(route, present)
    && (source.Installed? && route != [] ==>
      source.release in present || (source.release in c.bridges && route[0] in c.bridges + {c.target}))
  }

  /** A planner that gives the fewest steps the bundle offers over its edges gives,
      when discovery stops, the fewest steps its edges offer at all, and every route
      of that length already runs through the bundle. */
  lemma GloballyShortest(c: Catalog, present: set<Release>, steps: nat, planner: Planner, source: Source,
      route: seq<Release>)
    requires Within(c, present, steps) && Sound(c, planner) && IsRoute(c, planner, source, route)
    requires forall other :: IsRoute(c, planner, source, other) && Offered(c, present, source, other) ==>
      steps <= |other|
    ensures steps <= |route|
    ensures |route| == steps ==> Inside(route, present)
  {
    if |route| <= steps { NoRouteOutside(c, present, steps, planner, source, route); }
    if |route| < steps && source.Installed? { SourceNear(c, planner, source, route); }
  }
}
