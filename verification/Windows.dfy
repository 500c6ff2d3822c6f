/** Attempt windows: the sliding per-subject minute kept in memory with bounded
    tracking, and the fixed one-minute counters shared by an installation. */
module Windows {
  import opened Options
  import opened Numbers
  import opened Tracking

  const MINUTE := 60 * SECOND

  /** Admission instants by subject. */
  type Bucket = map<string, seq<int>>

  /** The instants still inside the minute that ends at now, in order. */
  function Live(hits: seq<int>, now: int): seq<int> {
    if hits == [] then []
    else Live(hits[..|hits| - 1], now) + if hits[|hits| - 1] > now - MINUTE then [hits[|hits| - 1]] else []
  }

  function Stored(b: Bucket, subject: string): seq<int> {
    if subject in b then b[subject] else []
  }

  lemma LiveSnoc(hits: seq<int>, t: int, now: int)
    ensures Live(hits + [t], now) == Live(hits, now) + if t > now - MINUTE then [t] else []
  {
    assert (hits + [t])[..|hits|] == hits;
  }

  /** Forgetting instants that are not live at t does not change what is live at t. */
  lemma {:induction false} LiveOfLive(hits: seq<int>, now: int, t: int)
    requires Spares(hits, now, t)
    ensures Live(Live(hits, now), t) == Live(hits, t)
  {
    if hits != [] {
      var front, last := hits[..|hits| - 1], hits[|hits| - 1];
      LiveOfLive(front, now, t);
      assert Live(front, now) + [] == Live(front, now) && Live(front, t) + [] == Live(front, t);
      assert last in hits;
      if last > now - MINUTE { LiveSnoc(Live(front, now), last, t); }
    }
  }

  lemma {:induction false} LiveStored(hits: seq<int>, now: int, x: int)
    ensures x in Live(hits, now) ==> x in hits
  {
    if hits != [] { LiveStored(hits[..|hits| - 1], now, x); }
  }

  lemma {:induction false} LiveMembers(hits: seq<int>, now: int)
    ensures Live(hits, now) != [] <==> exists i :: 0 <= i < |hits| && hits[i] > now - MINUTE
    ensures |Live(hits, now)| <= |hits|
  {
    if hits != [] {
      var front := hits[..|hits| - 1];
      LiveMembers(front, now);
      if Live(front, now) != [] {
        var i :| 0 <= i < |front| && front[i] > now - MINUTE;
        assert hits[i] > now - MINUTE;
      }
      if exists i :: 0 <= i < |hits| && hits[i] > now - MINUTE {
        var i :| 0 <= i < |hits| && hits[i] > now - MINUTE;
        assert i < |front| ==> front[i] > now - MINUTE;
      }
    }
  }

  /** Compacts the first n instants in place, keeping the live ones in order. */
  method PruneInPlace(a: array<int>, n: nat, now: int) returns (kept: nat)
    requires n <= a.Length
    modifies a
    ensures kept <= n && a[..kept] == Live(old(a[..n]), now)
  {
    kept := 0;
    for i := 0 to n
      invariant kept <= i && a[..kept] == Live(old(a[..i]), now)
      invariant forall k :: i <= k < a.Length ==> a[k] == old(a[k])
    {
      assert old(a[..i + 1]) == old(a[..i]) + [old(a[i])];
      LiveSnoc(old(a[..i]), old(a[i]), now);
      if a[i] > now - MINUTE {
        ghost var before := a[..kept];
        a[kept] := a[i];
        kept := kept + 1;
        assert a[..kept] == before + [old(a[i])];
      }
    }
  }

  // ---- Eviction -------------------------------------------------------------------

  /** The bucket without the subjects that have nothing live. */
  function Swept(b: Bucket, now: int): Bucket {
    map k | k in b && Live(b[k], now) != [] :: b[k]
  }

  /** The first stored instant. */
  function FirstHit(hits: seq<int>): int {
    if hits == [] then 0 else hits[0]
  }

  method SweepStale(b: Bucket, now: int) returns (out: Bucket)
    ensures out == Swept(b, now)
  {
    out := b;
    var rest := b.Keys;
    while rest != {}
      invariant rest <= b.Keys
      invariant out == map k | k in b && (k in rest || Live(b[k], now) != []) :: b[k]
    {
      var k :| k in rest;
      rest := rest - {k};
      var live := false;
      for i := 0 to |b[k]|
        invariant live <==> exists j :: 0 <= j < i && b[k][j] > now - MINUTE
      {
        if b[k][i] > now - MINUTE { live := true; break; }
      }
      LiveMembers(b[k], now);
      if !live { out := out - {k}; }
    }
  }

  /** The subject with the oldest first instant; the empty key stands for none. */
  method OldestSubject(b: Bucket) returns (oldest: string)
    requires "" !in b && forall k :: k in b ==> b[k] != []
    ensures oldest == "" <==> b == map[]
    ensures oldest != "" ==> oldest in b && forall k :: k in b ==> b[oldest][0] <= b[k][0]
  {
    oldest := "";
    var first := 0;
    var rest := b.Keys;
    while rest != {}
      invariant rest <= b.Keys && (oldest == "" <==> rest == b.Keys)
      invariant oldest != "" ==>
        oldest in b && first == b[oldest][0] && forall k :: k in b && k !in rest ==> b[oldest][0] <= b[k][0]
    {
      var k :| k in rest;
      rest := rest - {k};
      if oldest == "" || b[k][0] < first { oldest, first := k, b[k][0]; }
    }
    assert b.Keys == {} <==> b == map[];
  }

  method EvictStale(b: Bucket, now: int) returns (out: Bucket, forgot: Option<string>)
    requires "" !in b
    ensures EvictionOk(Swept(b, now), FirstHit, forgot) && out == Swept(b, now) - Forgotten(forgot)
  {
    out := SweepStale(b, now);
    forgot := None;
    forall k | k in out ensures out[k] != [] { LiveMembers(b[k], now); }
    if |out| >= MAX_TRACKED {
      var oldest := OldestSubject(out);
      if oldest != "" {
        forgot := Some(oldest);
        out := out - {oldest};
      }
    }
  }

  // ---- One attempt --------------------------------------------------------------------

  /** The effect of one attempt on a bucket. */
  ghost predicate Charged(b: Bucket, subject: string, allowance: int, now: int, b': Bucket, ok: bool,
      forgot: Option<string>)
  {
    var kept := Live(Stored(b, subject), now);
    if subject == "" then ok && b' == b && forgot.None?
    else if |kept| >= allowance then !ok && b' == b[subject := kept] && forgot.None?
    else if kept == [] && |b| >= MAX_TRACKED
      then ok && EvictionOk(Swept(b, now), FirstHit, forgot) &&
      b' == (Swept(b, now) - Forgotten(forgot))[subject := [now]]
    else ok && b' == b[subject := kept + [now]] && forgot.None?
  }

  method AllowIn(b: Bucket, subject: string, allowance: int, now: int)
    returns (b': Bucket, ok: bool, forgot: Option<string>)
    requires "" !in b
    ensures Charged(b, subject, allowance, now, b', ok, forgot)
  {
    forgot := None;
    if subject == "" { return b, true, None; }
    var hits := if subject in b then b[subject] else [];
    var a := new int[|hits|](i requires 0 <= i < |hits| => hits[i]);
    assert a[..|hits|] == hits;
    var n := PruneInPlace(a, |hits|, now);
    var kept := a[..n];
    if n >= allowance { return b[subject := kept], false, None; }
    b' := b;
    if n == 0 && |b| >= MAX_TRACKED { b', forgot := EvictStale(b, now); }
    assert n == 0 ==> kept + [now] == [now];
    b', ok := b'[subject := kept + [now]], true;
  }

  // ---- Bounded tracking -----------------------------------------------------------------

  ghost predicate Bounded(b: Bucket) {
    |b| <= MAX_TRACKED && "" !in b && forall k :: k in b ==> b[k] != []
  }

  /** Every attempt keeps the bucket bounded. */
  lemma ChargedBounded(b: Bucket, subject: string, allowance: int, now: int, b': Bucket, ok: bool,
      forgot: Option<string>)
    requires Bounded(b) && 1 <= allowance && Charged(b, subject, allowance, now, b', ok, forgot)
    ensures Bounded(b')
  {
    var kept := Live(Stored(b, subject), now);
    if subject != "" {
      if |kept| < allowance && kept == [] && |b| >= MAX_TRACKED {
        EvictionShrinks(b, Swept(b, now), FirstHit, forgot);
        Inserted(Swept(b, now) - Forgotten(forgot), subject, [now]);
      } else {
        Inserted(b, subject, if ok then kept + [now] else kept);
      }
    }
  }

  /** An attempt forgets no live subject but the one an eviction names, which takes
      a bucket full of other live subjects. */
  lemma ChargedKeepsLive(b: Bucket, subject: string, allowance: int, now: int, b': Bucket, ok: bool,
      forgot: Option<string>)
    requires Charged(b, subject, allowance, now, b', ok, forgot)
    ensures forall k :: k in b && k != subject && Live(b[k], now) != [] && forgot != Some(k) ==>
      k in b' && b'[k] == b[k]
    ensures forgot.Some? ==> forgot.value != subject && subject !in Swept(b, now) && MAX_TRACKED <= |Swept(b, now)|
  {
  }

  // ---- Whole runs ------------------------------------------------------------------------

  /** An attempt on the limiter then serving, or the handoff of the counters to a
      replacement with limits of its own. */
  datatype Event = Attempt(subject: string, allowance: int, now: int, ok: bool, forgot: Option<string>) | Handoff

  ghost predicate Follows(b: Bucket, e: Event, b': Bucket) {
    match e
    case Attempt(subject, allowance, now, ok, forgot) =>
      1 <= allowance && Charged(b, subject, allowance, now, b', ok, forgot)
    case Handoff => b' == b
  }

  /** A run.  The events stand in the order in which attempts took the lock; each read
      the clock before that, so their instants may come in any order. */
  ghost predicate Trace(bs: seq<Bucket>, es: seq<Event>) {
    && |bs| == |es| + 1 && bs[0] == map[]
    && forall i :: 0 <= i < |es| ==> Follows(bs[i], es[i], bs[i + 1])
  }

  /** An attempt at t comes too late for an earlier admission: one with a later clock
      has the lock in between and prunes an instant that is live at t. */
  ghost predicate Overtaken(es: seq<Event>, t: int) {
    exists j, k :: 0 <= j < k < |es| && es[j].Attempt? && es[k].Attempt? && Prunes(es[j].now, es[k].now, t)
  }

  /** A prune at `now` drops x although it is live at t. */
  predicate Prunes(x: int, now: int, t: int) { t - MINUTE < x <= now - MINUTE }

  /** A prune at `now` drops none of these that is live at t. */
  ghost predicate Spares(hits: seq<int>, now: int, t: int) {
    forall x :: x in hits ==> !Prunes(x, now, t)
  }

  /** Every admission of the subject. */
  function Admissions(es: seq<Event>, subject: string): seq<int> {
    if es == [] then [] else
      var e := es[|es| - 1];
      Admissions(es[..|es| - 1], subject) + if e.Attempt? && e.ok && e.subject == subject then [e.now] else []
  }

  /** The admissions of the subject since it was last forgotten while live. */
  function History(es: seq<Event>, subject: string): seq<int> {
    if es == [] then [] else
      var e := es[|es| - 1];
      (if e.Attempt? && e.forgot == Some(subject) then [] else History(es[..|es| - 1], subject))
      + if e.Attempt? && e.ok && e.subject == subject then [e.now] else []
  }

  lemma {:induction false} NothingForgotten(es: seq<Event>, subject: string)
    requires forall i :: 0 <= i < |es| && es[i].Attempt? ==> es[i].forgot != Some(subject)
    ensures History(es, subject) == Admissions(es, subject)
  {
    if es != [] { NothingForgotten(es[..|es| - 1], subject); }
  }

  /** Over every run all maps stay bounded. */
  lemma {:induction false} TraceBounded(bs: seq<Bucket>, es: seq<Event>)
    requires Trace(bs, es)
    ensures Bounded(bs[|es|])
  {
    if es != [] {
      var n := |es| - 1;
      TraceBounded(bs[..n + 1], es[..n]);
      assert Follows(bs[n], es[n], bs[n + 1]);
      if es[n].Attempt? {
        ChargedBounded(bs[n], es[n].subject, es[n].allowance, es[n].now, bs[n + 1], es[n].ok, es[n].forgot);
      }
    }
  }

  /** What one attempt does to one subject's live instants, seen at any time for which
      it prunes nothing that is live. */
  lemma ChargedLive(b: Bucket, e: Event, b': Bucket, subject: string, t: int)
    requires e.Attempt? && Follows(b, e, b') && subject != ""
    requires Spares(Stored(b, subject), e.now, t)
    ensures Live(Stored(b', subject), t) ==
      (if e.forgot == Some(subject) then [] else Live(Stored(b, subject), t))
      + if e.ok && e.subject == subject && e.now > t - MINUTE then [e.now] else []
  {
    var hits := Stored(b, subject);
    ChargedStored(b, e, b', subject);
    if e.subject == subject {
      LiveOfLive(hits, e.now, t);
      LiveSnoc(Live(hits, e.now), e.now, t);
    } else if Live(hits, e.now) == [] {
      LiveOfLive(hits, e.now, t);
      assert Live([], t) == [];
    }
  }

  /** What one attempt does to one subject's stored instants. */
  lemma ChargedStored(b: Bucket, e: Event, b': Bucket, subject: string)
    requires e.Attempt? && Follows(b, e, b') && subject != ""
    ensures
      var hits, hits' := Stored(b, subject), Stored(b', subject);
      && (e.forgot == Some(subject) ==> hits' == [] && e.subject != subject)
      && (e.subject == subject ==> hits' == Live(hits, e.now) + if e.ok then [e.now] else [])
      && (e.subject != subject && e.forgot != Some(subject) ==>
        hits' == hits || (hits' == [] && Live(hits, e.now) == []))
  {
    ChargedKeepsLive(b, e.subject, e.allowance, e.now, b', e.ok, e.forgot);
  }

  /** What one event does to the live part of a history. */
  lemma HistoryLive(es: seq<Event>, subject: string, t: int)
    requires es != []
    ensures
      var e := es[|es| - 1];
      Live(History(es, subject), t) ==
        (if e.Attempt? && e.forgot == Some(subject) then [] else Live(History(es[..|es| - 1], subject), t))
        + if e.Attempt? && e.ok && e.subject == subject && e.now > t - MINUTE then [e.now] else []
  {
    var e := es[|es| - 1];
    var past := if e.Attempt? && e.forgot == Some(subject) then [] else History(es[..|es| - 1], subject);
    assert past + [] == past && Live(past, t) + [] == Live(past, t);
    if e.Attempt? && e.ok && e.subject == subject { LiveSnoc(past, e.now, t); }
  }

  /** Every stored instant is the clock of an earlier attempt. */
  lemma {:induction false} StoredIsRead(bs: seq<Bucket>, es: seq<Event>, subject: string, x: int)
    requires Trace(bs, es) && subject != "" && x in Stored(bs[|es|], subject)
    ensures exists j :: 0 <= j < |es| && es[j].Attempt? && es[j].now == x
  {
    if es != [] {
      var n := |es| - 1;
      assert Follows(bs[n], es[n], bs[n + 1]);
      if es[n].Attempt? { LiveStored(Stored(bs[n], subject), es[n].now, x); }
      if x in Stored(bs[n], subject) {
        StoredIsRead(bs[..n + 1], es[..n], subject, x);
        var j :| 0 <= j < n && es[..n][j].Attempt? && es[..n][j].now == x;
        assert es[j].now == x;
      }
    }
  }

  /** The bucket remembers exactly the live part of the history. */
  lemma {:induction false} Remembered(bs: seq<Bucket>, es: seq<Event>, subject: string, t: int)
    requires Trace(bs, es) && !Overtaken(es, t) && subject != ""
    ensures Live(Stored(bs[|es|], subject), t) == Live(History(es, subject), t)
  {
    if es != [] {
      var n := |es| - 1;
      NotOvertakenBefore(es, n, t);
      Remembered(bs[..n + 1], es[..n], subject, t);
      assert Follows(bs[n], es[n], bs[n + 1]);
      HistoryLive(es, subject, t);
      if es[n].Attempt? {
        NothingPruned(bs, es, subject, t);
        ChargedLive(bs[n], es[n], bs[n + 1], subject, t);
      }
    }
  }

  lemma NothingPruned(bs: seq<Bucket>, es: seq<Event>, subject: string, t: int)
    requires Trace(bs, es) && !Overtaken(es, t) && subject != "" && es != [] && es[|es| - 1].Attempt?
    ensures Spares(Stored(bs[|es| - 1], subject), es[|es| - 1].now, t)
  {
    var n := |es| - 1;
    forall x | x in Stored(bs[n], subject) ensures !Prunes(x, es[n].now, t) {
      StoredIsRead(bs[..n + 1], es[..n], subject, x);
      var j :| 0 <= j < n && es[..n][j].Attempt? && es[..n][j].now == x;
      assert es[j].Attempt? && es[j].now == x;
    }
  }

  lemma NotOvertakenBefore(es: seq<Event>, n: nat, t: int)
    requires !Overtaken(es, t) && n <= |es|
    ensures !Overtaken(es[..n], t)
  {
  }

  lemma TracePrefix(bs: seq<Bucket>, es: seq<Event>, i: nat)
    requires Trace(bs, es) && i <= |es|
    ensures Trace(bs[..i + 1], es[..i])
  {
  }

  lemma Decided(b: Bucket, e: Event, b': Bucket)
    requires e.Attempt? && e.subject != "" && Follows(b, e, b')
    ensures e.ok <==> |Live(Stored(b, e.subject), e.now)| < e.allowance
    ensures e.forgot != Some(e.subject)
  {
    ChargedKeepsLive(b, e.subject, e.allowance, e.now, b', e.ok, e.forgot);
  }

  /** Attempt i is admitted exactly when fewer than its allowance were admitted after
      the instant a minute before its own. */
  ghost predicate Exact(es: seq<Event>, i: nat)
    requires i < |es| && es[i].Attempt?
  {
    es[i].ok <==> |Live(History(es[..i], es[i].subject), es[i].now)| < es[i].allowance
  }

  /** An attempt that is not overtaken is admitted exactly when fewer than the
      allowance were admitted in the preceding minute, and then they are at most the
      allowance with it: over every run, across handoffs, counting since the subject
      was last forgotten. */
  lemma SlidingWindowExact(bs: seq<Bucket>, es: seq<Event>, i: nat)
    requires Trace(bs, es) && i < |es| && es[i].Attempt? && es[i].subject != ""
    requires !Overtaken(es[..i], es[i].now)
    ensures Exact(es, i)
    ensures es[i].ok ==> |Live(History(es[..i + 1], es[i].subject), es[i].now)| <= es[i].allowance
  {
    var e := es[i];
    TracePrefix(bs, es, i);
    Remembered(bs[..i + 1], es[..i], e.subject, e.now);
    Decided(bs[i], e, bs[i + 1]);
    assert es[..i + 1][..i] == es[..i];
    HistoryLive(es[..i + 1], e.subject, e.now);
  }

  /** Attempts that take the lock in the order of their clocks are never overtaken. */
  lemma InOrderNotOvertaken(es: seq<Event>, t: int)
    requires forall i :: 0 <= i < |es| && es[i].Attempt? ==> es[i].now <= t
    ensures !Overtaken(es, t)
  {
  }

  // ---- No attempt is refused too early, overtaken or not -------------------------------------

  lemma {:induction false} LiveShrinks(hits: seq<int>, now: int, t: int)
    ensures |Live(Live(hits, now), t)| <= |Live(hits, t)|
  {
    if hits != [] {
      var front, last := hits[..|hits| - 1], hits[|hits| - 1];
      LiveShrinks(front, now, t);
      assert Live(front, now) + [] == Live(front, now);
      if last > now - MINUTE { LiveSnoc(Live(front, now), last, t); }
    }
  }

  lemma ChargedShrinks(b: Bucket, e: Event, b': Bucket, subject: string, t: int)
    requires e.Attempt? && Follows(b, e, b') && subject != ""
    ensures |Live(Stored(b', subject), t)| <=
      (if e.forgot == Some(subject) then 0 else |Live(Stored(b, subject), t)|)
      + if e.ok && e.subject == subject && e.now > t - MINUTE then 1 else 0
  {
    var hits := Stored(b, subject);
    ChargedStored(b, e, b', subject);
    if e.subject == subject {
      LiveShrinks(hits, e.now, t);
      LiveSnoc(Live(hits, e.now), e.now, t);
    }
  }

  lemma {:induction false} RemembersNoMore(bs: seq<Bucket>, es: seq<Event>, subject: string, t: int)
    requires Trace(bs, es) && subject != ""
    ensures |Live(Stored(bs[|es|], subject), t)| <= |Live(History(es, subject), t)|
  {
    if es != [] {
      var n := |es| - 1;
      RemembersNoMore(bs[..n + 1], es[..n], subject, t);
      assert Follows(bs[n], es[n], bs[n + 1]);
      HistoryLive(es, subject, t);
      if es[n].Attempt? { ChargedShrinks(bs[n], es[n], bs[n + 1], subject, t); }
    }
  }

  /** In every run, overtaken or not, an attempt with allowance to spare is admitted. */
  lemma NeverWronglyRefused(bs: seq<Bucket>, es: seq<Event>, i: nat)
    requires Trace(bs, es) && i < |es| && es[i].Attempt? && es[i].subject != ""
    requires |Live(History(es[..i], es[i].subject), es[i].now)| < es[i].allowance
    ensures es[i].ok
  {
    TracePrefix(bs, es, i);
    RemembersNoMore(bs[..i + 1], es[..i], es[i].subject, es[i].now);
    Decided(bs[i], es[i], bs[i + 1]);
  }

  // ---- Exactly which orders of clock readings keep the window exact --------------------------

  /** The clocks of attempts, in the order in which they take the lock. */
  ghost predicate Reads(es: seq<Event>, clocks: seq<int>) {
    |es| == |clocks| && forall i :: 0 <= i < |es| ==> es[i].Attempt? && es[i].now == clocks[i]
  }

  ghost predicate Overtakes(clocks: seq<int>, t: int) {
    exists j, k :: 0 <= j < k < |clocks| && Prunes(clocks[j], clocks[k], t)
  }

  /** Whoever makes them and under whatever allowances, the last of these attempts is
      decided exactly. */
  ghost predicate AlwaysExact(clocks: seq<int>)
    requires clocks != []
  {
    forall bs: seq<Bucket>, es: seq<Event> ::
      Trace(bs, es) && Reads(es, clocks) && es[|es| - 1].subject != "" ==> Exact(es, |es| - 1)
  }

  function Hit(now: int): Event { Attempt("a", 2, now, true, None) }

  /** Only these hits are tracked. */
  function Only(hits: seq<int>): Bucket { if hits == [] then map[] else map["a" := hits] }

  lemma Admits(hits: seq<int>, now: int, hits': seq<int>)
    requires |Live(hits, now)| < 2 && hits' == Live(hits, now) + [now]
    ensures Follows(Only(hits), Hit(now), Only(hits'))
  {
    assert Stored(Only(hits), "a") == hits;
    assert Only(hits)["a" := hits'] == Only(hits');
  }

  lemma LiveOne(x: int, now: int)
    ensures Live([], now) == [] && Live([x], now) == if x > now - MINUTE then [x] else []
  {
    LiveSnoc([], x, now);
    assert [] + [x] == [x];
  }

  lemma LiveTwo(x: int, y: int, now: int)
    ensures x > now - MINUTE && y > now - MINUTE ==> Live([x, y], now) == [x, y]
    ensures x <= now - MINUTE && y <= now - MINUTE ==> Live([x, y], now) == []
  {
    LiveOne(x, now);
    LiveSnoc([x], y, now);
    assert [x] + [y] == [x, y];
  }

  /** Only attempts j and k are someone's, everyone else's are unattributable. */
  function Two(clocks: seq<int>, j: nat, k: nat): seq<Event> {
    seq(|clocks|, i requires 0 <= i < |clocks| =>
      if i == j || i == k then Hit(clocks[i]) else Hit(clocks[i]).(subject := ""))
  }

  function TwoBuckets(clocks: seq<int>, j: nat, k: nat): seq<Bucket>
    requires j < k < |clocks|
  {
    seq(|clocks| + 1, i => Only(if i <= j then [] else if i <= k then [clocks[j]] else [clocks[k]]))
  }

  lemma TwoTrace(clocks: seq<int>, j: nat, k: nat)
    requires j < k < |clocks| && clocks[j] <= clocks[k] - MINUTE
    ensures Trace(TwoBuckets(clocks, j, k), Two(clocks, j, k))
  {
    var bs, es := TwoBuckets(clocks, j, k), Two(clocks, j, k);
    assert bs[0] == Only([]);
    forall i | 0 <= i < |es| ensures Follows(bs[i], es[i], bs[i + 1]) {
      if i == j {
        Admits([], clocks[j], [clocks[j]]);
      } else if i == k {
        LiveOne(clocks[j], clocks[k]);
        Admits([clocks[j]], clocks[k], [clocks[k]]);
      }
    }
  }

  lemma PrefixSnoc(es: seq<Event>, n: nat)
    requires n < |es|
    ensures es[..n + 1] == es[..n] + [es[n]]
  {
  }

  lemma HistorySnoc(es: seq<Event>, e: Event, subject: string)
    requires e.Attempt? && e.forgot.None?
    ensures History(es + [e], subject) == History(es, subject) + if e.ok && e.subject == subject then [e.now] else []
  {
    assert (es + [e])[..|es|] == es;
  }

  /** Attempts from lo to hi are admitted, and "a"'s exactly at i. */
  ghost predicate OnlyAt(es: seq<Event>, lo: nat, hi: nat, i: nat) {
    && lo <= i < hi <= |es|
    && forall x :: lo <= x < hi ==>
      es[x].Attempt? && es[x].ok && es[x].forgot.None? && (es[x].subject == "a" <==> x == i)
  }

  lemma OnlyHistory(es: seq<Event>, lo: nat, hi: nat, i: nat, past: seq<int>)
    requires OnlyAt(es, lo, hi, i) && History(es[..lo], "a") == past
    ensures History(es[..hi], "a") == past + [es[i].now]
  {
    HistoryStays(es, lo, i);
    HistoryNext(es, i);
    HistoryStays(es, i + 1, hi);
  }

  lemma TwoHistory(es: seq<Event>, j: nat, k: nat)
    requires j < k < |es| && OnlyAt(es, 0, j + 1, j) && OnlyAt(es, j + 1, |es|, k)
    ensures History(es[..|es|], "a") == [es[j].now, es[k].now]
  {
    assert es[..0] == [];
    OnlyHistory(es, 0, j + 1, j, []);
    OnlyHistory(es, j + 1, |es|, k, [es[j].now]);
    assert [es[j].now] + [es[k].now] == [es[j].now, es[k].now];
  }

  lemma {:induction false} HistoryStays(es: seq<Event>, lo: nat, hi: nat)
    requires lo <= hi <= |es|
    requires forall i :: lo <= i < hi ==> es[i].Attempt? && es[i].ok && es[i].forgot.None? && es[i].subject != "a"
    ensures History(es[..hi], "a") == History(es[..lo], "a")
    decreases hi
  {
    if lo < hi {
      HistoryStays(es, lo, hi - 1);
      HistoryNext(es, hi - 1);
    }
  }

  lemma HistoryNext(es: seq<Event>, n: nat)
    requires n < |es| && es[n].Attempt? && es[n].ok && es[n].forgot.None?
    ensures
      var past := History(es[..n], "a");
      History(es[..n + 1], "a") == if es[n].subject == "a" then past + [es[n].now] else past
  {
    var past := History(es[..n], "a");
    PrefixSnoc(es, n);
    HistorySnoc(es[..n], es[n], "a");
    assert past + [] == past;
  }

  /** With an attempt overtaken between j and k, the last one is admitted beyond its
      allowance. */
  lemma OvertakenOverAdmits(clocks: seq<int>, t: int, j: nat, k: nat) returns (bs: seq<Bucket>, es: seq<Event>)
    requires j < k < |clocks| && Prunes(clocks[j], clocks[k], t)
    ensures Trace(bs, es) && Reads(es, clocks + [t]) && es[|clocks|].subject != "" && es[|clocks|].ok
    ensures es[|clocks|].allowance <= |Live(History(es[..|clocks|], es[|clocks|].subject), t)|
  {
    es, bs := Two(clocks, j, k) + [Hit(t)], TwoBuckets(clocks, j, k) + [Only([clocks[k], t])];
    ThirdTrace(clocks, t, j, k);
    ThirdReads(clocks, t, j, k);
    assert es[..|clocks|] == Two(clocks, j, k)[..|clocks|];
    TwoHistory(Two(clocks, j, k), j, k);
    LiveTwo(clocks[j], clocks[k], t);
  }

  lemma ThirdTrace(clocks: seq<int>, t: int, j: nat, k: nat)
    requires j < k < |clocks| && Prunes(clocks[j], clocks[k], t)
    ensures Trace(TwoBuckets(clocks, j, k) + [Only([clocks[k], t])], Two(clocks, j, k) + [Hit(t)])
  {
    TwoTrace(clocks, j, k);
    LiveOne(clocks[k], t);
    Admits([clocks[k]], t, [clocks[k], t]);
    TraceSnoc(TwoBuckets(clocks, j, k), Two(clocks, j, k), Hit(t), Only([clocks[k], t]));
  }

  lemma ThirdReads(clocks: seq<int>, t: int, j: nat, k: nat)
    requires j < k < |clocks|
    ensures Reads(Two(clocks, j, k) + [Hit(t)], clocks + [t])
  {
  }

  lemma TraceSnoc(bs: seq<Bucket>, es: seq<Event>, e: Event, b: Bucket)
    requires Trace(bs, es) && Follows(bs[|es|], e, b)
    ensures Trace(bs + [b], es + [e])
  {
  }

  /** The window decides the attempt at t exactly, for all subjects and allowances, if
      and only if no attempt that had the lock before it prunes an instant of another
      that is live at t. */
  lemma ExactExactly(clocks: seq<int>, t: int)
    ensures AlwaysExact(clocks + [t]) <==> !Overtakes(clocks, t)
  {
    var n := |clocks|;
    if Overtakes(clocks, t) {
      var j, k :| 0 <= j < k < |clocks| && Prunes(clocks[j], clocks[k], t);
      var bs, es := OvertakenOverAdmits(clocks, t, j, k);
      assert !Exact(es, |es| - 1);
    } else {
      forall bs: seq<Bucket>, es: seq<Event> | Trace(bs, es) && Reads(es, clocks + [t]) && es[|es| - 1].subject != ""
        ensures Exact(es, |es| - 1)
      {
        assert es[n].now == t;
        SlidingWindowExact(bs, es, n);
      }
    }
  }

  /** Two admissions at the epoch, one a minute later, and then an attempt whose clock
      was read just before that one: under an allowance of two it is admitted as the
      third of the minute that ends with it. */
  lemma LateReadingIsThird() returns (bs: seq<Bucket>, es: seq<Event>)
    ensures Trace(bs, es) && Reads(es, [0, 0, MINUTE, MINUTE - 1])
    ensures forall i :: 0 <= i < 4 ==> es[i].subject == "a" && es[i].allowance == 2 && es[i].ok
    ensures History(es[..3], "a") == [0, 0, MINUTE] && Overtaken(es[..3], MINUTE - 1)
  {
    es := [Hit(0), Hit(0), Hit(MINUTE), Hit(MINUTE - 1)];
    bs := [Only([]), Only([0]), Only([0, 0]), Only([MINUTE]), Only([MINUTE, MINUTE - 1])];
    LateTrace(bs, es);
    LateHistory(es);
    assert Prunes(es[..3][0].now, es[..3][2].now, MINUTE - 1);
  }

  lemma LateTrace(bs: seq<Bucket>, es: seq<Event>)
    requires es == [Hit(0), Hit(0), Hit(MINUTE), Hit(MINUTE - 1)]
    requires bs == [Only([]), Only([0]), Only([0, 0]), Only([MINUTE]), Only([MINUTE, MINUTE - 1])]
    ensures Trace(bs, es)
  {
    LateSteps();
  }

  lemma LateSteps()
    ensures Follows(Only([]), Hit(0), Only([0])) && Follows(Only([0]), Hit(0), Only([0, 0]))
    ensures Follows(Only([0, 0]), Hit(MINUTE), Only([MINUTE]))
    ensures Follows(Only([MINUTE]), Hit(MINUTE - 1), Only([MINUTE, MINUTE - 1]))
  {
    LiveOne(0, 0);
    LiveTwo(0, 0, MINUTE);
    LiveOne(MINUTE, MINUTE - 1);
    Admits([], 0, [0]);
    Admits([0], 0, [0, 0]);
    Admits([0, 0], MINUTE, [MINUTE]);
    Admits([MINUTE], MINUTE - 1, [MINUTE, MINUTE - 1]);
  }

  lemma LateHistory(es: seq<Event>)
    requires |es| == 4 && es[0] == es[1] == Hit(0) && es[2] == Hit(MINUTE)
    ensures History(es[..3], "a") == [0, 0, MINUTE]
  {
    assert es[..3] == [es[0], es[1]] + [es[2]] && [es[0], es[1]] == [es[0]] + [es[1]] && [es[0]] == [] + [es[0]];
    HistorySnoc([], es[0], "a");
    HistorySnoc([es[0]], es[1], "a");
    HistorySnoc([es[0], es[1]], es[2], "a");
  }
}
