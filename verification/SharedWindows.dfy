/** Fixed one-minute counters shared by every node of an installation. */
module SharedWindows {
  import opened Windows

  /** Hits by subject and window. */
  type Counters = map<(string, int), nat>

  function WindowOf(now: int): int { now / MINUTE }

  function Hits(c: Counters, subject: string, window: int): nat {
    if (subject, window) in c then c[(subject, window)] else 0
  }

  /** One attempt.  The increment may fail, and may have taken effect even so. */
  datatype Bump = Bump(subject: string, now: int, failed: bool, landed: bool)

  function After(c: Counters, e: Bump): Counters {
    if e.subject != "" && (!e.failed || e.landed)
      then c[(e.subject, WindowOf(e.now)) := Hits(c, e.subject, WindowOf(e.now)) + 1] else c
  }

  /** A failed increment refuses; an attempt without a subject is not charged. */
  predicate Admits(c: Counters, e: Bump, allowance: int) {
    e.subject == "" || (!e.failed && Hits(c, e.subject, WindowOf(e.now)) + 1 <= allowance)
  }

  /** The counters after the first n attempts. */
  function Run(es: seq<Bump>, n: nat): Counters
    requires n <= |es|
  {
    if n == 0 then map[] else After(Run(es, n - 1), es[n - 1])
  }

  /** Of the first n attempts, the admissions of the subject later than `from` and
      not later than `to`. */
  function Admitted(es: seq<Bump>, n: nat, allowance: nat, subject: string, from: int, to: int): nat
    requires n <= |es|
  {
    if n == 0 then 0 else
      var e := es[n - 1];
      Admitted(es, n - 1, allowance, subject, from, to)
      + if e.subject == subject && from < e.now <= to && Admits(Run(es, n - 1), e, allowance) then 1 else 0
  }

  function AdmittedInWindow(es: seq<Bump>, n: nat, allowance: nat, subject: string, window: int): nat
    requires n <= |es|
  {
    Admitted(es, n, allowance, subject, window * MINUTE - 1, window * MINUTE + MINUTE - 1)
  }

  lemma WindowBounds(now: int, window: int)
    ensures WindowOf(now) == window <==> window * MINUTE - 1 < now <= window * MINUTE + MINUTE - 1
  {
  }

  /** One window admits no more than it counts, and no more than the allowance. */
  lemma {:induction false} WindowBound(es: seq<Bump>, n: nat, allowance: nat, subject: string, window: int)
    requires subject != "" && n <= |es|
    ensures AdmittedInWindow(es, n, allowance, subject, window) <= Hits(Run(es, n), subject, window)
    ensures AdmittedInWindow(es, n, allowance, subject, window) <= allowance
  {
    if 0 < n {
      WindowBound(es, n - 1, allowance, subject, window);
      WindowBounds(es[n - 1].now, window);
    }
  }

  /** A minute that ends at t meets at most two windows. */
  lemma {:induction false} TwoWindows(es: seq<Bump>, n: nat, allowance: nat, subject: string, t: int)
    requires n <= |es|
    ensures Admitted(es, n, allowance, subject, t - MINUTE, t) <=
      AdmittedInWindow(es, n, allowance, subject, WindowOf(t))
      + AdmittedInWindow(es, n, allowance, subject, WindowOf(t) - 1)
  {
    if 0 < n { TwoWindows(es, n - 1, allowance, subject, t); }
  }

  /** Any minute of any run admits a subject at most twice its allowance. */
  lemma FixedWindowTwice(es: seq<Bump>, allowance: nat, subject: string, t: int)
    requires subject != ""
    ensures Admitted(es, |es|, allowance, subject, t - MINUTE, t) <= 2 * allowance
  {
    TwoWindows(es, |es|, allowance, subject, t);
    WindowBound(es, |es|, allowance, subject, WindowOf(t));
    WindowBound(es, |es|, allowance, subject, WindowOf(t) - 1);
  }

  /** The allowance spent just before a window boundary and again at it. */
  function Straddling(allowance: nat, subject: string): seq<Bump> {
    seq(2 * allowance, i => Bump(subject, if i < allowance then MINUTE - 1 else MINUTE, false, true))
  }

  lemma {:induction false} StraddlingHits(allowance: nat, subject: string, n: nat)
    requires subject != "" && n <= 2 * allowance
    ensures
      var c := Run(Straddling(allowance, subject), n);
      Hits(c, subject, 0) == (if n < allowance then n else allowance) &&
        Hits(c, subject, 1) == (if n < allowance then 0 else n - allowance)
  {
    if 0 < n {
      StraddlingHits(allowance, subject, n - 1);
      assert WindowOf(Straddling(allowance, subject)[n - 1].now) == if n - 1 < allowance then 0 else 1;
    }
  }

  lemma {:induction false} StraddlingAdmitted(allowance: nat, subject: string, n: nat)
    requires subject != "" && n <= 2 * allowance
    ensures Admitted(Straddling(allowance, subject), n, allowance, subject, 0, MINUTE) == n
  {
    if 0 < n {
      StraddlingAdmitted(allowance, subject, n - 1);
      StraddlingHits(allowance, subject, n - 1);
      var e := Straddling(allowance, subject)[n - 1];
      assert WindowOf(e.now) == (if n - 1 < allowance then 0 else 1) && 0 < e.now <= MINUTE;
    }
  }

  /** The bound is reached by attempts on both sides of a window boundary. */
  lemma TwiceIsReached(allowance: nat, subject: string)
    requires subject != ""
    ensures Admitted(Straddling(allowance, subject), 2 * allowance, allowance, subject, 0, MINUTE) == 2 * allowance
  {
    StraddlingAdmitted(allowance, subject, 2 * allowance);
  }
}
