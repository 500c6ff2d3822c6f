/** One converge or teardown run of the in-process provider against the durable
    ownership journal: reserve, prepare, write, finish for every desired row, then
    release and prune what is no longer desired.

    Each journal call and provider write takes the next `Choice`: it returns, it
    fails, or the process dies there, and in the last two cases its durable effect
    may or may not have landed.  No other actor touches the names involved. */
module Sync {
  import opened Options
  import opened Faults
  import opened Ledger
  import opened Ordering

  /** The provider's names and the persisted ledger. */
  datatype World = World(provider: map<Key, string>, ledger: map<Key, LedgerEntry>)

  datatype Outcome = Proceeding | Stopped | Conflicted | Invalid

  // ---- The state a run is heading for --------------------------------------------

  /** The desired row of each key. */
  function Goal(rows: seq<DesiredRow>): map<Key, DesiredRow> {
    if rows == [] then map[] else Goal(rows[..|rows| - 1])[RowKey(rows[|rows| - 1]) := rows[|rows| - 1]]
  }

  lemma {:induction false} GoalIs(rows: seq<DesiredRow>)
    requires DistinctKeys(rows)
    ensures Goal(rows).Keys == DesiredKeys(rows) && forall r :: r in rows ==> Goal(rows)[RowKey(r)] == r
  {
    if rows != [] {
      var front, last := rows[..|rows| - 1], rows[|rows| - 1];
      GoalIs(front);
      assert rows == front + [last];
      assert DesiredKeys(rows) == DesiredKeys(front) + {RowKey(last)} by {
        assert forall r :: r in rows <==> r in front || r == last;
      }
    }
  }

  /** The identity a ledger row of key k has or will be given. */
  function Identity(w: World, goal: map<Key, DesiredRow>, k: Key): (Surface, string)
    requires k in goal
  {
    if k in w.ledger then (w.ledger[k].surface, w.ledger[k].name) else (goal[k].surface, goal[k].name)
  }

  /** Where a run from w ends: the desired values over everything we never claimed,
      every desired row owned, nothing else in the ledger.  Rows finished earlier
      in the same leased job (`done`) are left as they are. */
  ghost function Final(w: World, goal: map<Key, DesiredRow>, done: set<Key>): World {
    World(
      map k | k in w.provider.Keys + (goal.Keys - done) && (k in goal || !Claimed(w.ledger, k)) ::
        if k in goal && k !in done then goal[k].value else w.provider[k],
      map k | k in goal && (k !in done || k in w.ledger) ::
        if k in done then w.ledger[k] else LedgerEntry(Identity(w, goal, k).0, Identity(w, goal, k).1, Owned, false))
  }

  /** Nothing present under an unclaimed name has been changed or claimed. */
  ghost predicate Untouched(w0: World, w: World) {
    forall k :: k in w0.provider && !Claimed(w0.ledger, k) ==>
      k in w.provider && w.provider[k] == w0.provider[k] && !Claimed(w.ledger, k)
  }

  /** The two worlds agree on key k. */
  ghost predicate Same(w: World, w': World, k: Key) {
    && (k in w.provider <==> k in w'.provider) && (k in w.provider ==> w.provider[k] == w'.provider[k])
    && (k in w.ledger <==> k in w'.ledger) && (k in w.ledger ==> w.ledger[k] == w'.ledger[k])
  }

  ghost predicate SameExcept(w: World, w': World, k: Key) {
    forall x :: x != k ==> Same(w, w', x)
  }

  lemma SameExceptTransitive(a: World, b: World, c: World, k: Key)
    requires SameExcept(a, b, k) && SameExcept(b, c, k)
    ensures SameExcept(a, c, k)
  {
    forall x | x != k ensures Same(a, c, x) { assert Same(a, b, x) && Same(b, c, x); }
  }

  /** No desired name is present without being ours. */
  ghost predicate NoConflict(w: World, goal: map<Key, DesiredRow>, done: set<Key>) {
    forall k :: k in goal && k !in done && k in w.provider ==> Claimed(w.ledger, k)
  }

  // ---- Sentinel bracketing -----------------------------------------------------------

  function SentinelKey(prefix: string, surface: Surface): Key {
    NewKey(surface, prefix + SENTINEL_NAME)
  }

  predicate IsSentinel(prefix: string, k: Key) {
    k == SentinelKey(prefix, Secret) || k == SentinelKey(prefix, Variable)
  }

  predicate BothPresent(prefix: string, w: World) {
    SentinelKey(prefix, Secret) in w.provider && SentinelKey(prefix, Variable) in w.provider
  }

  /** An ordinary name of ours is present only between the sentinels. */
  ghost predicate Bracketed(prefix: string, w: World) {
    forall k :: k in w.provider && Claimed(w.ledger, k) && !IsSentinel(prefix, k) ==> BothPresent(prefix, w)
  }

  /** What the ledger index accepts. */
  predicate IndexOk(ledger: map<Key, LedgerEntry>) {
    forall k :: k in ledger ==> MissingOk(ledger[k].state, ledger[k].missing)
  }

  // ---- What one row and one prune may do ---------------------------------------------------

  /** Any moment of the processing of one desired row. */
  ghost predicate RowStep(w: World, w': World, row: DesiredRow) {
    var k := RowKey(row);
    && SameExcept(w, w', k) && LedgerOk(w'.ledger) && (IndexOk(w.ledger) ==> IndexOk(w'.ledger))
    && (k in w.provider ==> k in w'.provider)
    && (k in w.provider && !Claimed(w.ledger, k) ==> w'.provider[k] == w.provider[k] && !Claimed(w'.ledger, k))
    && (k in w.provider && Claimed(w.ledger, k) ==> Claimed(w'.ledger, k))
    && (k !in w.provider && k in w'.provider ==> Claimed(w'.ledger, k))
  }

  ghost predicate KeepsIdentity(w: World, w': World, row: DesiredRow) {
    var k := RowKey(row);
    var was := if k in w.ledger then (w.ledger[k].surface, w.ledger[k].name) else (row.surface, row.name);
    k in w'.ledger ==> (w'.ledger[k].surface, w'.ledger[k].name) == was
  }

  /** Any moment of releasing or pruning one undesired row. */
  ghost predicate DropStep(w: World, w': World, k: Key) {
    && SameExcept(w, w', k) && LedgerOk(w'.ledger) && (IndexOk(w.ledger) ==> IndexOk(w'.ledger)) && k in w.ledger
    && (k in w'.provider ==> k in w.provider && w'.provider[k] == w.provider[k])
    && (k in w'.ledger ==> w'.ledger[k] == w.ledger[k])
    && (!Claimed(w.ledger, k) ==> (k in w.provider ==> k in w'.provider))
    && (Claimed(w.ledger, k) && k !in w'.ledger ==> k !in w'.provider)
  }

  lemma RowStepKeepsFinal(w: World, w': World, row: DesiredRow, goal: map<Key, DesiredRow>, done: set<Key>)
    requires RowStep(w, w', row) && KeepsIdentity(w, w', row)
    requires RowKey(row) in goal && goal[RowKey(row)] == row && RowKey(row) !in done
    requires RowKey(row) in w.ledger ==> RowKey(row) in w'.ledger
    ensures Final(w', goal, done) == Final(w, goal, done)
  {
    var k := RowKey(row);
    var f, f' := Final(w, goal, done), Final(w', goal, done);
    assert f.provider.Keys == f'.provider.Keys by {
      forall x ensures x in f.provider <==> x in f'.provider { if x != k { assert Same(w, w', x); } }
    }
    forall x | x in f.provider ensures f.provider[x] == f'.provider[x] { if x != k { assert Same(w, w', x); } }
    forall x ensures x in f.ledger <==> x in f'.ledger { if x != k { assert Same(w, w', x); } }
    forall x | x in f.ledger ensures f.ledger[x] == f'.ledger[x] { if x != k { assert Same(w, w', x); } }
  }

  lemma DropStepKeepsFinal(w: World, w': World, k: Key, goal: map<Key, DesiredRow>, done: set<Key>)
    requires DropStep(w, w', k) && k !in goal
    ensures Final(w', goal, done) == Final(w, goal, done)
  {
    var f, f' := Final(w, goal, done), Final(w', goal, done);
    forall x ensures x in f.provider <==> x in f'.provider { if x != k { assert Same(w, w', x); } }
    forall x | x in f.provider ensures f.provider[x] == f'.provider[x] { if x != k { assert Same(w, w', x); } }
    forall x ensures x in f.ledger <==> x in f'.ledger { if x != k { assert Same(w, w', x); } }
    forall x | x in f.ledger ensures f.ledger[x] == f'.ledger[x] { if x != k { assert Same(w, w', x); } }
  }

  lemma RowStepUntouched(w0: World, w: World, w': World, row: DesiredRow)
    requires Untouched(w0, w) && RowStep(w, w', row)
    ensures Untouched(w0, w')
  {
    forall k | k in w0.provider && !Claimed(w0.ledger, k)
      ensures k in w'.provider && w'.provider[k] == w0.provider[k] && !Claimed(w'.ledger, k)
    {
      if k != RowKey(row) { assert Same(w, w', k); }
    }
  }

  lemma DropStepUntouched(w0: World, w: World, w': World, k: Key)
    requires Untouched(w0, w) && DropStep(w, w', k)
    ensures Untouched(w0, w')
  {
    forall x | x in w0.provider && !Claimed(w0.ledger, x)
      ensures x in w'.provider && w'.provider[x] == w0.provider[x] && !Claimed(w'.ledger, x)
    {
      if x != k { assert Same(w, w', x); }
    }
  }

  lemma RowStepBracketed(prefix: string, w: World, w': World, row: DesiredRow)
    requires Bracketed(prefix, w) && RowStep(w, w', row)
    requires IsSentinel(prefix, RowKey(row)) || BothPresent(prefix, w)
    ensures Bracketed(prefix, w') && (BothPresent(prefix, w) ==> BothPresent(prefix, w'))
  {
    forall s | s in w.provider ensures s in w'.provider { if s != RowKey(row) { assert Same(w, w', s); } }
    forall k | k in w'.provider && Claimed(w'.ledger, k) && !IsSentinel(prefix, k) ensures BothPresent(prefix, w') {
      if k != RowKey(row) { assert Same(w, w', k); }
    }
  }

  lemma DropStepBracketed(prefix: string, w: World, w': World, k: Key)
    requires Bracketed(prefix, w) && DropStep(w, w', k)
    requires IsSentinel(prefix, k) ==> forall x :: x in w.provider && Claimed(w.ledger, x) ==> IsSentinel(prefix, x)
    ensures Bracketed(prefix, w') && (!IsSentinel(prefix, k) && BothPresent(prefix, w) ==> BothPresent(prefix, w'))
  {
    if !IsSentinel(prefix, k) {
      assert Same(w, w', SentinelKey(prefix, Secret)) && Same(w, w', SentinelKey(prefix, Variable));
    }
    forall x | x in w'.provider && Claimed(w'.ledger, x) && !IsSentinel(prefix, x) ensures BothPresent(prefix, w') {
      if x != k { assert Same(w, w', x); }
    }
  }

  lemma StepNoConflict(w: World, w': World, goal: map<Key, DesiredRow>, done: set<Key>, k: Key)
    requires NoConflict(w, goal, done) && SameExcept(w, w', k)
    requires k in goal && k in w'.provider ==> Claimed(w'.ledger, k)
    ensures NoConflict(w', goal, done)
  {
    forall x | x in goal && x !in done && x in w'.provider ensures Claimed(w'.ledger, x) {
      if x != k { assert Same(w, w', x); }
    }
  }

  // ---- What a whole pass over the rows leaves -----------------------------------------------

  ghost predicate Agrees(index: map<Key, LedgerEntry>, ledger: map<Key, LedgerEntry>, k: Key) {
    (k in index <==> k in ledger) && (k in index ==> index[k] == ledger[k])
  }

  ghost predicate Delivered(w: World, row: DesiredRow) {
    var k := RowKey(row);
    && k in w.provider && w.provider[k] == row.value
    && k in w.ledger && w.ledger[k].state == Owned && !w.ledger[k].missing
  }

  /** The rows are delivered, except those done earlier; every other key is as it
      was, and so is the in-memory index of it. */
  ghost predicate Passed(w0: World, w: World, index: map<Key, LedgerEntry>, rows: seq<DesiredRow>, done: set<Key>) {
    && (forall r :: r in rows && RowKey(r) !in done ==> Delivered(w, r) && RowKey(r) in index)
    && (forall k :: k !in DesiredKeys(rows) || k in done ==> Same(w0, w, k) && Agrees(index, w0.ledger, k))
  }

  lemma FreshKey(rows: seq<DesiredRow>, i: nat)
    requires DistinctKeys(rows) && i < |rows|
    ensures RowKey(rows[i]) !in DesiredKeys(rows[..i]) && DistinctKeys(rows[..i] + [rows[i]])
  {
    forall r | r in rows[..i] ensures RowKey(r) != RowKey(rows[i]) {
      var j :| 0 <= j < i && rows[..i][j] == r;
      assert rows[j] == r;
    }
    assert rows[..i] + [rows[i]] == rows[..i + 1];
  }

  /** What the rows report. */
  function RowChanges(rows: seq<DesiredRow>, done: set<Key>, ledger: map<Key, LedgerEntry>): set<Change> {
    set r | r in rows && RowKey(r) !in done :: RowChange(r, ledger)
  }

  lemma DesiredKeysSnoc(rows: seq<DesiredRow>, row: DesiredRow)
    ensures DesiredKeys(rows + [row]) == DesiredKeys(rows) + {RowKey(row)}
  {
    assert forall r :: r in rows + [row] <==> r in rows || r == row;
  }

  lemma PassedSnoc(w0: World, w: World, w': World, index: map<Key, LedgerEntry>, index': map<Key, LedgerEntry>,
      rows: seq<DesiredRow>, row: DesiredRow, done: set<Key>)
    requires Passed(w0, w, index, rows, done) && DistinctKeys(rows + [row]) && RowKey(row) !in done
    requires SameExcept(w, w', RowKey(row)) && Delivered(w', row)
    requires index'.Keys == index.Keys + {RowKey(row)}
    requires forall k :: k in index && k != RowKey(row) ==> index'[k] == index[k]
    ensures Passed(w0, w', index', rows + [row], done)
  {
    var all := rows + [row];
    forall r | r in all && RowKey(r) !in done ensures Delivered(w', r) && RowKey(r) in index' {
      if r != row {
        var i :| 0 <= i < |rows| && rows[i] == r;
        assert all[i] == r && all[|rows|] == row;
        assert Same(w, w', RowKey(r));
      }
    }
    forall k | k !in DesiredKeys(all) || k in done ensures Same(w0, w', k) && Agrees(index', w0.ledger, k) {
      DesiredKeysSnoc(rows, row);
      assert Same(w0, w, k) && Same(w, w', k);
    }
  }

  lemma PassedSkip(w0: World, w: World, index: map<Key, LedgerEntry>, rows: seq<DesiredRow>, row: DesiredRow,
      done: set<Key>)
    requires Passed(w0, w, index, rows, done) && RowKey(row) in done
    ensures Passed(w0, w, index, rows + [row], done)
  {
    var all := rows + [row];
    forall k | k !in DesiredKeys(all) || k in done ensures Same(w0, w, k) && Agrees(index, w0.ledger, k) {
      DesiredKeysSnoc(rows, row);
    }
  }

  lemma RowChangesSnoc(rows: seq<DesiredRow>, row: DesiredRow, done: set<Key>, ledger: map<Key, LedgerEntry>)
    ensures RowChanges(rows + [row], done, ledger) ==
      RowChanges(rows, done, ledger) + if RowKey(row) in done then {} else {RowChange(row, ledger)}
  {
    assert forall r :: r in rows + [row] <==> r in rows || r == row;
  }

  /** The rows bring both sentinels, and bring them first. */
  ghost predicate BracketingRows(prefix: string, rows: seq<DesiredRow>, done: set<Key>, w: World) {
    && SentinelsFirst(rows)
    && (forall r :: r in rows ==> (r.keyID == "" <==> IsSentinel(prefix, RowKey(r))))
    && SentinelKey(prefix, Secret) in DesiredKeys(rows) && SentinelKey(prefix, Variable) in DesiredKeys(rows)
    && (forall k :: IsSentinel(prefix, k) && k in done ==> k in w.provider)
  }

  /** Before the first ordinary row, both sentinels are in place. */
  lemma SentinelsInPlace(prefix: string, rows: seq<DesiredRow>, i: nat, done: set<Key>, w0: World, w: World,
      index: map<Key, LedgerEntry>)
    requires i <= |rows| && BracketingRows(prefix, rows, done, w0) && Passed(w0, w, index, rows[..i], done)
    requires i < |rows| ==> !IsSentinel(prefix, RowKey(rows[i]))
    ensures BothPresent(prefix, w)
  {
    forall k | IsSentinel(prefix, k) ensures k in w.provider {
      if k in done { assert Same(w0, w, k); }
      else {
        var r :| r in rows && RowKey(r) == k;
        var j :| 0 <= j < |rows| && rows[j] == r;
        assert j < i by { assert rows[j].keyID == ""; assert i < |rows| ==> rows[i] in rows; }
        assert r in rows[..i];
        assert Delivered(w, r);
      }
    }
  }

  /** A desired name that is present without being ours. */
  predicate ConflictAt(w: World, k: Key) {
    k in w.provider && !Claimed(w.ledger, k)
  }

  /** What holds at every moment of a run that started in w0. */
  ghost predicate Moment(w0: World, w: World, goal: map<Key, DesiredRow>, done: set<Key>) {
    && LedgerOk(w.ledger) && (IndexOk(w0.ledger) ==> IndexOk(w.ledger)) && Untouched(w0, w)
    && (NoConflict(w0, goal, done) ==> NoConflict(w, goal, done) && Final(w, goal, done) == Final(w0, goal, done))
  }

  lemma RowMoment(w0: World, w: World, w': World, row: DesiredRow, goal: map<Key, DesiredRow>, done: set<Key>)
    requires Moment(w0, w, goal, done) && RowStep(w, w', row)
    requires RowKey(row) in goal && goal[RowKey(row)] == row && RowKey(row) !in done
    requires !ConflictAt(w, RowKey(row)) ==>
      KeepsIdentity(w, w', row) && (RowKey(row) in w.ledger ==> RowKey(row) in w'.ledger)
    ensures Moment(w0, w', goal, done)
  {
    RowStepUntouched(w0, w, w', row);
    if NoConflict(w0, goal, done) {
      RowStepKeepsFinal(w, w', row, goal, done);
      StepNoConflict(w, w', goal, done, RowKey(row));
    }
  }

  lemma DropMoment(w0: World, w: World, w': World, k: Key, goal: map<Key, DesiredRow>, done: set<Key>)
    requires Moment(w0, w, goal, done) && DropStep(w, w', k) && k !in goal
    ensures Moment(w0, w', goal, done)
  {
    DropStepUntouched(w0, w, w', k);
    if NoConflict(w0, goal, done) {
      DropStepKeepsFinal(w, w', k, goal, done);
      StepNoConflict(w, w', goal, done, k);
    }
  }

  /** The change a finished row reports. */
  function RowChange(row: DesiredRow, ledger: map<Key, LedgerEntry>): Change {
    Change(row.surface, row.name, if Held(ledger, RowKey(row)) then Update else Create)
  }

  /** Any moment of one row, and what it keeps unless the name is in conflict. */
  ghost predicate RowEffect(w: World, w': World, row: DesiredRow) {
    var k := RowKey(row);
    RowStep(w, w', row) && (!ConflictAt(w, k) ==> KeepsIdentity(w, w', row) && (k in w.ledger ==> k in w'.ledger))
  }

  ghost predicate RowResult(w: World, w': World, index: map<Key, LedgerEntry>, index': map<Key, LedgerEntry>,
      row: DesiredRow, out: Outcome, change: Change)
  {
    var k := RowKey(row);
    && RowEffect(w, w', row)
    && (out == Proceeding ==>
      && !ConflictAt(w, k) && Delivered(w', row) && change == RowChange(row, w.ledger)
      && index' == index[k := LedgerEntry(row.surface, row.name, Owned, false)])
    && (out == Conflicted ==> ConflictAt(w, k)) && out != Invalid
  }

  /** Bracketing is promised of a run that starts bracketed and brings both
      sentinels first. */
  ghost predicate Brackets(prefix: string, rows: seq<DesiredRow>, done: set<Key>, w0: World, w: World) {
    Bracketed(prefix, w0) && BracketingRows(prefix, rows, done, w0) ==> Bracketed(prefix, w)
  }

  /** What a run guarantees however it ends, and what each ending means. */
  ghost predicate RunEffect(rows: seq<DesiredRow>, done: set<Key>, w0: World, w: World, out: Outcome,
      changes: seq<Change>)
  {
    && Moment(w0, w, Goal(rows), done) && Kept(w0, w, rows, done, ChangeKeys(changes))
    && (out == Proceeding ==>
      && w == Final(w0, Goal(rows), done) && NoConflict(w0, Goal(rows), done)
      && Elements(changes) == RowChanges(rows, done, w0.ledger) + Deletions(rows, w0.ledger))
    && (out == Conflicted ==> !NoConflict(w0, Goal(rows), done))
  }

  /** The names a list of changes speaks of. */
  function ChangeKeys(changes: seq<Change>): set<Key> {
    set c | c in changes :: NewKey(c.surface, c.name)
  }

  /** Rows reported as changed, now or earlier in the job, are delivered. */
  ghost predicate Kept(w0: World, w: World, rows: seq<DesiredRow>, done: set<Key>, reported: set<Key>) {
    forall r :: r in rows && ((RowKey(r) in done && Delivered(w0, r)) || RowKey(r) in reported) ==> Delivered(w, r)
  }

  /** The state of the pass before row i. */
  ghost predicate Pass(w0: World, w: World, index: map<Key, LedgerEntry>, rows: seq<DesiredRow>, i: nat, done: set<Key>,
      changes: seq<Change>)
  {
    && i <= |rows| && Passed(w0, w, index, rows[..i], done) && LedgerOk(index)
    && (forall r :: r in rows[..i] && RowKey(r) !in done ==> !ConflictAt(w0, RowKey(r)))
    && Elements(changes) == RowChanges(rows[..i], done, w0.ledger)
  }

  /** What holds at every moment of the pass. */
  ghost predicate During(prefix: string, w0: World, w: World, rows: seq<DesiredRow>, done: set<Key>,
      reported: set<Key>)
  {
    Moment(w0, w, Goal(rows), done) && Brackets(prefix, rows, done, w0, w) && Kept(w0, w, rows, done, reported)
  }

  /** Rows before i have been handled. */
  ghost predicate Midway(prefix: string, w0: World, w: World, index: map<Key, LedgerEntry>, rows: seq<DesiredRow>,
      i: nat, done: set<Key>, changes: seq<Change>)
  {
    Pass(w0, w, index, rows, i, done, changes) && During(prefix, w0, w, rows, done, ChangeKeys(changes))
  }

  lemma MidwayStarts(prefix: string, w0: World, rows: seq<DesiredRow>, done: set<Key>)
    requires LedgerOk(w0.ledger) && DistinctKeys(rows)
    ensures Midway(prefix, w0, w0, w0.ledger, rows, 0, done, [])
  {
    GoalIs(rows);
  }

  lemma RowKeepsBrackets(prefix: string, w0: World, w: World, w': World, index: map<Key, LedgerEntry>,
      rows: seq<DesiredRow>, i: nat, done: set<Key>)
    requires i < |rows| && Passed(w0, w, index, rows[..i], done) && Brackets(prefix, rows, done, w0, w)
    requires RowStep(w, w', rows[i])
    ensures Brackets(prefix, rows, done, w0, w')
  {
    if Bracketed(prefix, w0) && BracketingRows(prefix, rows, done, w0) {
      if !IsSentinel(prefix, RowKey(rows[i])) { SentinelsInPlace(prefix, rows, i, done, w0, w, index); }
      RowStepBracketed(prefix, w, w', rows[i]);
    }
  }

  lemma ChangeKeysAre(rows: seq<DesiredRow>, done: set<Key>, ledger: map<Key, LedgerEntry>, changes: seq<Change>)
    requires Elements(changes) == RowChanges(rows, done, ledger)
    ensures ChangeKeys(changes) == DesiredKeys(rows) - done
  {
    forall k | k in DesiredKeys(rows) - done ensures k in ChangeKeys(changes) {
      var r :| r in rows && RowKey(r) == k;
      assert RowChange(r, ledger) in RowChanges(rows, done, ledger);
      assert RowChange(r, ledger) in Elements(changes);
    }
    forall c | c in changes ensures NewKey(c.surface, c.name) in DesiredKeys(rows) - done {
      assert c in Elements(changes);
      var r :| r in rows && RowKey(r) !in done && RowChange(r, ledger) == c;
    }
  }

  lemma RowKeepsKept(w0: World, w: World, w': World, rows: seq<DesiredRow>, i: nat, done: set<Key>, reported: set<Key>)
    requires DistinctKeys(rows) && i < |rows| && Kept(w0, w, rows, done, reported)
    requires SameExcept(w, w', RowKey(rows[i])) && RowKey(rows[i]) !in done + reported
    ensures Kept(w0, w', rows, done, reported)
  {
    forall r | r in rows && ((RowKey(r) in done && Delivered(w0, r)) || RowKey(r) in reported)
      ensures Delivered(w', r)
    {
      assert Same(w, w', RowKey(r));
    }
  }

  /** Whatever happens inside row i, the guarantees hold. */
  lemma RowKeepsDuring(prefix: string, w0: World, w: World, w': World, index: map<Key, LedgerEntry>,
      rows: seq<DesiredRow>, i: nat, done: set<Key>, changes: seq<Change>)
    requires DistinctKeys(rows) && i < |rows| && Pass(w0, w, index, rows, i, done, changes) && RowKey(rows[i]) !in done
    requires During(prefix, w0, w, rows, done, ChangeKeys(changes)) && RowEffect(w, w', rows[i])
    ensures During(prefix, w0, w', rows, done, ChangeKeys(changes))
  {
    GoalIs(rows);
    RowMoment(w0, w, w', rows[i], Goal(rows), done);
    RowKeepsBrackets(prefix, w0, w, w', index, rows, i, done);
    ChangeKeysAre(rows[..i], done, w0.ledger, changes);
    FreshKey(rows, i);
    RowKeepsKept(w0, w, w', rows, i, done, ChangeKeys(changes));
  }

  lemma PassRow(w0: World, w: World, w': World, index: map<Key, LedgerEntry>, index': map<Key, LedgerEntry>,
      rows: seq<DesiredRow>, i: nat, done: set<Key>, changes: seq<Change>, change: Change)
    requires DistinctKeys(rows) && i < |rows| && Pass(w0, w, index, rows, i, done, changes) && RowKey(rows[i]) !in done
    requires RowResult(w, w', index, index', rows[i], Proceeding, change) && Same(w0, w, RowKey(rows[i]))
    requires Kept(w0, w', rows, done, ChangeKeys(changes))
    ensures Pass(w0, w', index', rows, i + 1, done, changes + [change])
    ensures Kept(w0, w', rows, done, ChangeKeys(changes + [change]))
  {
    FreshKey(rows, i);
    assert rows[..i + 1] == rows[..i] + [rows[i]];
    PassedSnoc(w0, w, w', index, index', rows[..i], rows[i], done);
    RowChangesSnoc(rows[..i], rows[i], done, w0.ledger);
    forall r | r in rows && RowKey(r) in ChangeKeys(changes + [change]) ensures Delivered(w', r) {
      if RowKey(r) !in ChangeKeys(changes) { assert RowKey(r) == RowKey(rows[i]); assert r == rows[i]; }
    }
  }

  lemma PassSkip(w0: World, w: World, index: map<Key, LedgerEntry>, rows: seq<DesiredRow>, i: nat, done: set<Key>,
      changes: seq<Change>)
    requires i < |rows| && Pass(w0, w, index, rows, i, done, changes) && RowKey(rows[i]) in done
    ensures Pass(w0, w, index, rows, i + 1, done, changes)
  {
    assert rows[..i + 1] == rows[..i] + [rows[i]];
    PassedSkip(w0, w, index, rows[..i], rows[i], done);
    RowChangesSnoc(rows[..i], rows[i], done, w0.ledger);
  }

  lemma PassEnd(prefix: string, w0: World, w: World, index: map<Key, LedgerEntry>, rows: seq<DesiredRow>,
      done: set<Key>, changes: seq<Change>)
    requires DistinctKeys(rows) && Pass(w0, w, index, rows, |rows|, done, changes)
    ensures Passed(w0, w, index, rows, done) && NoConflict(w0, Goal(rows), done)
    ensures Elements(changes) == RowChanges(rows, done, w0.ledger)
    ensures BracketingRows(prefix, rows, done, w0) ==> BothPresent(prefix, w)
  {
    assert rows[..|rows|] == rows;
    GoalIs(rows);
    if BracketingRows(prefix, rows, done, w0) { SentinelsInPlace(prefix, rows, |rows|, done, w0, w, index); }
  }

  // ---- Dropping what is no longer desired -----------------------------------------------------

  function EntryKeys(list: seq<LedgerEntry>): set<Key> {
    set e | e in list :: EntryKey(e)
  }

  lemma EntryKeysSnoc(list: seq<LedgerEntry>, e: LedgerEntry)
    ensures EntryKeys(list + [e]) == EntryKeys(list) + {EntryKey(e)}
  {
    assert forall x :: x in list + [e] <==> x in list || x == e;
  }

  /** Rows of the ledger, none of them desired, listed once each. */
  ghost predicate Droppable(list: seq<LedgerEntry>, ledger: map<Key, LedgerEntry>, rows: seq<DesiredRow>) {
    && NoDuplicates(list)
    && forall e :: e in list ==> EntryKey(e) in ledger && ledger[EntryKey(e)] == e && EntryKey(e) !in DesiredKeys(rows)
  }

  lemma NotYetDropped(list: seq<LedgerEntry>, ledger: map<Key, LedgerEntry>, rows: seq<DesiredRow>, i: nat)
    requires Droppable(list, ledger, rows) && i < |list|
    ensures EntryKey(list[i]) !in EntryKeys(list[..i]) && EntryKey(list[i]) in ledger
    ensures ledger[EntryKey(list[i])] == list[i]
    ensures EntryKeys(list[..i + 1]) == EntryKeys(list[..i]) + {EntryKey(list[i])}
  {
    assert list[i] in list;
    forall e | e in list[..i] ensures EntryKey(e) != EntryKey(list[i]) {
      assert e in list;
      assert e != list[i];
    }
    assert list[..i + 1] == list[..i] + [list[i]];
    EntryKeysSnoc(list[..i], list[i]);
  }

  /** What a run needs so that its drops keep the bracketing: either no sentinel
      is dropped, or all that is claimed is, and no name still present goes after
      a sentinel. */
  ghost predicate DropsBracket(prefix: string, prunes: seq<LedgerEntry>, w: World) {
    || (forall e :: e in prunes ==> !IsSentinel(prefix, EntryKey(e)))
    || (ClaimedKeys(w.ledger) <= EntryKeys(prunes) && SentinelsClose(prefix, prunes, w))
  }

  ghost predicate SentinelsClose(prefix: string, prunes: seq<LedgerEntry>, w: World) {
    forall i, j :: 0 <= i < j < |prunes| && IsSentinel(prefix, EntryKey(prunes[i])) ==>
      EntryKey(prunes[j]) !in w.provider || IsSentinel(prefix, EntryKey(prunes[j]))
  }

  function ClaimedKeys(ledger: map<Key, LedgerEntry>): set<Key> {
    set k | k in ledger && Claimed(ledger, k)
  }

  lemma DropKeepsMoment(w0: World, w: World, w': World, k: Key, rows: seq<DesiredRow>, done: set<Key>,
      reported: set<Key>)
    requires DistinctKeys(rows) && Moment(w0, w, Goal(rows), done) && Kept(w0, w, rows, done, reported)
    requires DropStep(w, w', k) && k !in DesiredKeys(rows)
    ensures Moment(w0, w', Goal(rows), done) && Kept(w0, w', rows, done, reported)
  {
    GoalIs(rows);
    DropMoment(w0, w, w', k, Goal(rows), done);
    forall r | r in rows && Delivered(w, r) ensures Delivered(w', r) { assert Same(w, w', RowKey(r)); }
  }

  /** Bracketing is promised of prunes that respect it. */
  ghost predicate PrunesBracket(prefix: string, prunes: seq<LedgerEntry>, w1: World, w: World) {
    Bracketed(prefix, w1) && DropsBracket(prefix, prunes, w1) ==> Bracketed(prefix, w)
  }

  /** Pruning entry i keeps the bracketing. */
  lemma PruneKeepsBracketed(prefix: string, w1: World, w: World, w': World, prunes: seq<LedgerEntry>, i: nat)
    requires i < |prunes| && PrunesBracket(prefix, prunes, w1, w) && DropStep(w, w', EntryKey(prunes[i]))
    requires w.ledger == w1.ledger - EntryKeys(prunes[..i]) && w.provider.Keys <= w1.provider.Keys
    ensures PrunesBracket(prefix, prunes, w1, w')
  {
    if Bracketed(prefix, w1) && DropsBracket(prefix, prunes, w1) {
      var k := EntryKey(prunes[i]);
      assert prunes[i] in prunes;
      if IsSentinel(prefix, k) { OnlySentinelsLeft(prefix, w1, w, prunes, i); }
      DropStepBracketed(prefix, w, w', k);
    }
  }

  /** The world after pruning n of a list, and of the next the name alone. */
  function PrunedWorld(w: World, list: seq<LedgerEntry>, n: nat, deleted: bool): World
    requires n <= |list| && (deleted ==> n < |list|)
  {
    var gone := EntryKeys(list[..n]);
    World(w.provider - (gone + if deleted then {EntryKey(list[n])} else {}), w.ledger - gone)
  }

  lemma PrunedWorldStep(w1: World, w: World, w': World, list: seq<LedgerEntry>, i: nat, stage: nat)
    requires i < |list| && w == PrunedWorld(w1, list, i, false) && Staged(w, w', EntryKey(list[i]), stage)
    ensures w' == PrunedWorld(w1, list, if stage == 2 then i + 1 else i, stage == 1)
  {
    assert list[..i + 1] == list[..i] + [list[i]];
    EntryKeysSnoc(list[..i], list[i]);
    var r := PrunedWorld(w1, list, if stage == 2 then i + 1 else i, stage == 1);
    assert w'.provider == r.provider && w'.ledger == r.ledger;
  }

  /** Of a prune of k, nothing, the deletion of the name, or also that of the row. */
  ghost predicate Staged(w: World, w': World, k: Key, stage: nat) {
    && stage <= 2 && w'.provider == (if 1 <= stage then w.provider - {k} else w.provider)
    && w'.ledger == if stage == 2 then w.ledger - {k} else w.ledger
  }

  /** Inside the prunes: n are gone, and of the next perhaps the name. */
  ghost predicate Pruned(prefix: string, w0: World, w1: World, w: World, prunes: seq<LedgerEntry>, n: nat,
      deleted: bool, rows: seq<DesiredRow>, done: set<Key>, reported: set<Key>)
  {
    && n <= |prunes| && (deleted ==> n < |prunes|) && w == PrunedWorld(w1, prunes, n, deleted)
    && Moment(w0, w, Goal(rows), done) && Kept(w0, w, rows, done, reported) && PrunesBracket(prefix, prunes, w1, w)
  }

  lemma PruningStep(prefix: string, w0: World, w1: World, w: World, w': World, prunes: seq<LedgerEntry>, i: nat,
      stage: nat, rows: seq<DesiredRow>, done: set<Key>, reported: set<Key>)
    requires DistinctKeys(rows) && Droppable(prunes, w1.ledger, rows) && i < |prunes|
    requires Pruned(prefix, w0, w1, w, prunes, i, false, rows, done, reported)
    requires DropStep(w, w', EntryKey(prunes[i])) && Staged(w, w', EntryKey(prunes[i]), stage)
    ensures Pruned(prefix, w0, w1, w', prunes, if stage == 2 then i + 1 else i, stage == 1, rows, done, reported)
  {
    NotYetDropped(prunes, w1.ledger, rows, i);
    assert prunes[i] in prunes;
    DropKeepsMoment(w0, w, w', EntryKey(prunes[i]), rows, done, reported);
    PruneKeepsBracketed(prefix, w1, w, w', prunes, i);
    PrunedWorldStep(w1, w, w', prunes, i, stage);
  }

  /** Inside the releases: n are gone. */
  ghost predicate Released(prefix: string, w0: World, w1: World, w: World, list: seq<LedgerEntry>, n: nat,
                           rows: seq<DesiredRow>, done: set<Key>, reported: set<Key>)
  {
    && n <= |list| && w == w1.(ledger := w1.ledger - EntryKeys(list[..n]))
    && Moment(w0, w, Goal(rows), done) && Kept(w0, w, rows, done, reported)
    && ClaimedKeys(w.ledger) == ClaimedKeys(w1.ledger) && (Bracketed(prefix, w1) ==> Bracketed(prefix, w))
  }

  lemma ReleasingStep(prefix: string, w0: World, w1: World, w: World, w': World, list: seq<LedgerEntry>, i: nat,
      landed: bool, rows: seq<DesiredRow>, done: set<Key>, reported: set<Key>)
    requires DistinctKeys(rows) && Droppable(list, w1.ledger, rows) && i < |list| && list[i].state == Reserved
    requires Released(prefix, w0, w1, w, list, i, rows, done, reported) && DropStep(w, w', EntryKey(list[i]))
    requires w' == if landed then w.(ledger := w.ledger - {EntryKey(list[i])}) else w
    ensures Released(prefix, w0, w1, w', list, if landed then i + 1 else i, rows, done, reported)
  {
    NotYetDropped(list, w1.ledger, rows, i);
    assert list[i] in list;
    DropKeepsMoment(w0, w, w', EntryKey(list[i]), rows, done, reported);
    ReservationKeepsBracketed(prefix, w, w', EntryKey(list[i]));
  }

  /** A part of at most `count` actions from t0 on proceeds exactly when all of them
      return, and otherwise stops at the first that does not. */
  ghost predicate Ends(choices: Choices, t0: nat, count: nat, t: nat, out: Outcome) {
    && (out == Proceeding || out == Stopped) && t0 <= t <= t0 + count
    && (out == Proceeding ==> t == t0 + count && forall x :: t0 <= x < t ==> choices(x).reply.Returned?)
    && (out == Stopped ==>
      t0 < t && !choices(t - 1).reply.Returned? && forall x :: t0 <= x < t - 1 ==> choices(x).reply.Returned?)
  }

  lemma EndsOn(choices: Choices, t0: nat, count: nat, t1: nat, more: nat, t: nat, out: Outcome)
    requires Ends(choices, t0, count, t1, Proceeding) && Ends(choices, t1, more, t, out)
    ensures Ends(choices, t0, count + more, t, out)
  {
  }

  lemma OnlySentinelsLeft(prefix: string, w1: World, w: World, prunes: seq<LedgerEntry>, i: nat)
    requires i < |prunes| && IsSentinel(prefix, EntryKey(prunes[i])) && DropsBracket(prefix, prunes, w1)
    requires w.ledger == w1.ledger - EntryKeys(prunes[..i]) && w.provider.Keys <= w1.provider.Keys
    ensures forall x :: x in w.provider && Claimed(w.ledger, x) ==> IsSentinel(prefix, x)
  {
    assert prunes[i] in prunes;
    forall j | 0 <= j < i ensures EntryKey(prunes[j]) in EntryKeys(prunes[..i]) { assert prunes[j] in prunes[..i]; }
    forall x | x in w.provider && Claimed(w.ledger, x) ensures IsSentinel(prefix, x) {
      assert x in ClaimedKeys(w1.ledger);
      var e :| e in prunes && EntryKey(e) == x;
      var j :| 0 <= j < |prunes| && prunes[j] == e;
    }
  }

  lemma ReservationKeepsBracketed(prefix: string, w: World, w': World, k: Key)
    requires SameExcept(w, w', k) && w'.provider == w.provider && !Claimed(w.ledger, k)
    requires k in w'.ledger ==> !Claimed(w'.ledger, k)
    ensures ClaimedKeys(w'.ledger) == ClaimedKeys(w.ledger) && (Bracketed(prefix, w) ==> Bracketed(prefix, w'))
  {
    forall x ensures Claimed(w.ledger, x) <==> Claimed(w'.ledger, x) { if x != k { assert Same(w, w', x); } }
  }

  function Deletes(list: seq<LedgerEntry>): seq<Change> {
    seq(|list|, i requires 0 <= i < |list| => Change(list[i].surface, list[i].name, Delete))
  }

  lemma DeletesNext(list: seq<LedgerEntry>, i: nat)
    requires i < |list|
    ensures Deletes(list)[..i] + [Change(list[i].surface, list[i].name, Delete)] == Deletes(list)[..i + 1]
  {
  }

  lemma DeletesAre(list: seq<LedgerEntry>)
    ensures Elements(Deletes(list)) == set e | e in list :: Change(e.surface, e.name, Delete)
    ensures ChangeKeys(Deletes(list)) == EntryKeys(list)
  {
    var d := Deletes(list);
    forall e | e in list ensures Change(e.surface, e.name, Delete) in d && EntryKey(e) in ChangeKeys(d) {
      var i :| 0 <= i < |list| && list[i] == e;
      assert d[i] == Change(e.surface, e.name, Delete);
    }
    forall c | c in d
      ensures exists e ::
        e in list && c == Change(e.surface, e.name, Delete) && EntryKey(e) == NewKey(c.surface, c.name)
    {
      var i :| 0 <= i < |d| && d[i] == c;
      assert list[i] in list;
    }
  }

  /** Key k holds its desired row. */
  ghost predicate At(w: World, goal: map<Key, DesiredRow>, k: Key) {
    && k in goal && k in w.provider && w.provider[k] == goal[k].value
    && k in w.ledger && w.ledger[k].state == Owned && !w.ledger[k].missing
  }

  lemma AtDelivered(w: World, rows: seq<DesiredRow>, k: Key)
    requires DistinctKeys(rows) && k in DesiredKeys(rows) && forall r :: r in rows && RowKey(r) == k ==> Delivered(w, r)
    ensures At(w, Goal(rows), k)
  {
    GoalIs(rows);
    var r :| r in rows && RowKey(r) == k;
    assert Delivered(w, r);
  }

  lemma SettledGoal(w: World, goal: map<Key, DesiredRow>, done: set<Key>)
    requires w.ledger.Keys <= goal.Keys && forall k :: k in goal && k !in done ==> At(w, goal, k)
    ensures Final(w, goal, done) == w
  {
    var f := Final(w, goal, done);
    forall k ensures k in f.provider <==> k in w.provider { if k in goal && k !in done { assert At(w, goal, k); } }
    forall k | k in f.provider ensures f.provider[k] == w.provider[k] {
      if k in goal && k !in done { assert At(w, goal, k); }
    }
    forall k ensures k in f.ledger <==> k in w.ledger { if k in goal && k !in done { assert At(w, goal, k); } }
    forall k | k in f.ledger ensures f.ledger[k] == w.ledger[k] { if k !in done { assert At(w, goal, k); } }
  }

  /** A world that holds what it should is where its own runs end. */
  lemma SettledIsFinal(w: World, rows: seq<DesiredRow>, done: set<Key>)
    requires DistinctKeys(rows) && w.ledger.Keys <= DesiredKeys(rows)
    requires forall r :: r in rows && RowKey(r) !in done ==> Delivered(w, r)
    ensures Final(w, Goal(rows), done) == w
  {
    GoalIs(rows);
    forall k | k in Goal(rows) && k !in done ensures At(w, Goal(rows), k) { AtDelivered(w, rows, k); }
    SettledGoal(w, Goal(rows), done);
  }

  lemma SkippableGoal(w: World, goal: map<Key, DesiredRow>, done: set<Key>)
    requires forall k :: k in goal && k in done ==> At(w, goal, k)
    ensures Final(w, goal, done) == Final(w, goal, {})
    ensures NoConflict(w, goal, done) <==> NoConflict(w, goal, {})
  {
    var f, g := Final(w, goal, done), Final(w, goal, {});
    forall k ensures k in f.provider <==> k in g.provider { if k in goal && k in done { assert At(w, goal, k); } }
    forall k | k in f.provider ensures f.provider[k] == g.provider[k] {
      if k in goal && k in done { assert At(w, goal, k); }
    }
    forall k ensures k in f.ledger <==> k in g.ledger { if k in goal && k in done { assert At(w, goal, k); } }
    forall k | k in f.ledger ensures f.ledger[k] == g.ledger[k] { if k in done { assert At(w, goal, k); } }
  }

  /** Skipping rows that are delivered already changes nothing. */
  lemma DoneIsSkippable(w: World, rows: seq<DesiredRow>, done: set<Key>)
    requires DistinctKeys(rows) && forall r :: r in rows && RowKey(r) in done ==> Delivered(w, r)
    ensures Final(w, Goal(rows), done) == Final(w, Goal(rows), {})
    ensures NoConflict(w, Goal(rows), done) <==> NoConflict(w, Goal(rows), {})
  {
    GoalIs(rows);
    forall k | k in Goal(rows) && k in done ensures At(w, Goal(rows), k) { AtDelivered(w, rows, k); }
    SkippableGoal(w, Goal(rows), done);
  }

  /** How far the release and prune loops got. */
  datatype Trail = Trail(reservations: seq<LedgerEntry>, prunes: seq<LedgerEntry>, released: nat, pruned: nat,
    deleted: bool)

  /** The first action that does not return is the deletion of the i-th prune, after
      all reservations; it dies having landed or not. */
  ghost predicate CutAt(choices: Choices, t0: nat, reservations: nat, i: nat, landed: bool) {
    var n := t0 + reservations + 4 * i + 2;
    (forall x :: t0 <= x < n ==> choices(x).reply.Returned?) && choices(n) == Choice(Died, if landed then 1 else 0)
  }

  /** The lists a trail is about. */
  ghost predicate Trails(rows: seq<DesiredRow>, index: map<Key, LedgerEntry>, trail: Trail) {
    Leftovers(rows, index, trail.reservations, true) && Leftovers(rows, index, trail.prunes, false) &&
      Sorted(PruneLeq, trail.prunes)
  }

  /** The world that a trail leads to. */
  ghost predicate LeadsTo(w1: World, trail: Trail, w: World) {
    && trail.released <= |trail.reservations| && trail.pruned <= |trail.prunes|
    && (trail.deleted ==> trail.pruned < |trail.prunes|)
    && (trail.released < |trail.reservations| ==> trail.pruned == 0 && !trail.deleted)
    && w ==
      PrunedWorld(w1.(ledger := w1.ledger - EntryKeys(trail.reservations[..trail.released])), trail.prunes,
      trail.pruned, trail.deleted)
  }

  /** The trail that a cut leads to. */
  ghost predicate CutsAt(choices: Choices, t0: nat, trail: Trail) {
    forall i, d :: 0 <= i < |trail.prunes| && CutAt(choices, t0, |trail.reservations|, i, d) ==>
      trail.released == |trail.reservations| && trail.pruned == i && trail.deleted == d
  }

  lemma ReleaseCuts(choices: Choices, t0: nat, t: nat, trail: Trail)
    requires Ends(choices, t0, |trail.reservations|, t, Stopped)
    ensures CutsAt(choices, t0, trail)
  {
    forall i, d | 0 <= i < |trail.prunes| && CutAt(choices, t0, |trail.reservations|, i, d) ensures false {}
  }

  /** Where the prunes stop, in terms of the action that stops them. */
  ghost predicate StopsAt(choices: Choices, t0: nat, n: nat, deleted: bool, t: nat) {
    t0 + 4 * n <= t <= t0 + 4 * n + 4 && (t == t0 + 4 * n + 3 ==> deleted == Lands(choices(t - 1)))
  }

  lemma PruneCuts(choices: Choices, t0: nat, t1: nat, t: nat, out: Outcome, trail: Trail)
    requires Ends(choices, t0, |trail.reservations|, t1, Proceeding) && Ends(choices, t1, 4 * |trail.prunes|, t, out)
    requires out == Stopped ==> StopsAt(choices, t1, trail.pruned, trail.deleted, t)
    requires trail.released == |trail.reservations|
    ensures CutsAt(choices, t0, trail)
  {
    forall i, d | 0 <= i < |trail.prunes| && CutAt(choices, t0, |trail.reservations|, i, d)
      ensures trail.released == |trail.reservations| && trail.pruned == i && trail.deleted == d
    {
      assert !choices(t1 + 4 * i + 2).reply.Returned?;
      assert t - 1 == t1 + 4 * i + 2;
    }
  }

  lemma TrailReleased(prefix: string, w0: World, w1: World, w: World, reservations: seq<LedgerEntry>,
      prunes: seq<LedgerEntry>, n: nat, rows: seq<DesiredRow>, done: set<Key>, reported: set<Key>)
    requires Released(prefix, w0, w1, w, reservations, n, rows, done, reported)
    ensures LeadsTo(w1, Trail(reservations, prunes, n, 0, false), w) && PrunesBracket(prefix, prunes, w1, w)
  {
    assert w == PrunedWorld(w, prunes, 0, false);
  }

  lemma TrailPruned(prefix: string, w0: World, w1: World, w2: World, w: World, trail: Trail, rows: seq<DesiredRow>,
      done: set<Key>, reported: set<Key>)
    requires Released(prefix, w0, w1, w2, trail.reservations, trail.released, rows, done, reported)
    requires Pruned(prefix, w0, w2, w, trail.prunes, trail.pruned, trail.deleted, rows, done, reported)
    requires trail.released == |trail.reservations|
    ensures LeadsTo(w1, trail, w) && PrunesBracket(prefix, trail.prunes, w1, w)
  {
    StillBracketing(prefix, w1, w2, trail.prunes);
  }

  lemma StillBracketing(prefix: string, w1: World, w: World, prunes: seq<LedgerEntry>)
    requires ClaimedKeys(w.ledger) == ClaimedKeys(w1.ledger) && w.provider == w1.provider
    ensures DropsBracket(prefix, prunes, w1) ==> DropsBracket(prefix, prunes, w)
  {
  }

  /** Where the list of undesired rows and the two worlds stand after the pass. */
  ghost predicate Leftovers(rows: seq<DesiredRow>, index: map<Key, LedgerEntry>, list: seq<LedgerEntry>,
      reserved: bool)
  {
    && NoDuplicates(list)
    && forall e :: e in list <==>
      EntryKey(e) in index && index[EntryKey(e)] == e && EntryKey(e) !in DesiredKeys(rows) &&
        (e.state == Reserved <==> reserved)
  }

  lemma LeftoversDroppable(w0: World, w: World, index: map<Key, LedgerEntry>, rows: seq<DesiredRow>, done: set<Key>,
      list: seq<LedgerEntry>, reserved: bool)
    requires Passed(w0, w, index, rows, done) && LedgerOk(index) && Leftovers(rows, index, list, reserved)
    ensures Droppable(list, w.ledger, rows)
    ensures forall k :: k in EntryKeys(list) <==>
      k in w0.ledger && k !in DesiredKeys(rows) && (w0.ledger[k].state == Reserved <==> reserved)
  {
    forall e | e in list ensures EntryKey(e) in w.ledger && w.ledger[EntryKey(e)] == e {
      assert Same(w0, w, EntryKey(e)) && Agrees(index, w0.ledger, EntryKey(e));
    }
    forall k | k in w0.ledger && k !in DesiredKeys(rows) && (w0.ledger[k].state == Reserved <==> reserved)
      ensures k in EntryKeys(list)
    {
      assert Agrees(index, w0.ledger, k);
      assert index[k] in list;
    }
    forall e | e in list ensures EntryKey(e) in w0.ledger && w0.ledger[EntryKey(e)] == e {
      assert Agrees(index, w0.ledger, EntryKey(e));
    }
  }

  lemma DeletesAreDeletions(w0: World, w: World, index: map<Key, LedgerEntry>, rows: seq<DesiredRow>, done: set<Key>,
      prunes: seq<LedgerEntry>)
    requires Passed(w0, w, index, rows, done) && LedgerOk(index) && Leftovers(rows, index, prunes, false)
    ensures Elements(Deletes(prunes)) == Deletions(rows, w0.ledger)
  {
    DeletesAre(prunes);
    forall e | e in prunes ensures Change(e.surface, e.name, Delete) in Deletions(rows, w0.ledger) {
      assert Agrees(index, w0.ledger, EntryKey(e));
      assert Claimed(w0.ledger, EntryKey(e));
    }
    forall k | k in w0.ledger && k !in DesiredKeys(rows) && Claimed(w0.ledger, k) ensures w0.ledger[k] in prunes {
      assert Agrees(index, w0.ledger, k);
      assert EntryKey(index[k]) == k;
    }
  }

  lemma KeptWithDeletes(w0: World, w: World, rows: seq<DesiredRow>, done: set<Key>, delivered: seq<Change>,
      deleted: seq<Change>, prunes: seq<LedgerEntry>)
    requires Kept(w0, w, rows, done, ChangeKeys(delivered)) && deleted <= Deletes(prunes)
    requires EntryKeys(prunes) !! DesiredKeys(rows)
    ensures Kept(w0, w, rows, done, ChangeKeys(delivered + deleted))
  {
    DeletesAre(prunes);
    forall r | r in rows && RowKey(r) in ChangeKeys(delivered + deleted) ensures RowKey(r) in ChangeKeys(delivered) {
      var c :| c in delivered + deleted && NewKey(c.surface, c.name) == RowKey(r);
      assert RowKey(r) in DesiredKeys(rows);
      assert c in deleted ==> c in Deletes(prunes);
    }
  }

  /** After the drops only desired rows are in the ledger, and the run is where
      it was heading. */
  lemma Settles(w0: World, w1: World, w: World, index: map<Key, LedgerEntry>, rows: seq<DesiredRow>, done: set<Key>,
      dropped: set<Key>, pruned: set<Key>)
    requires DistinctKeys(rows) && Passed(w0, w1, index, rows, done)
    requires w.ledger == w1.ledger - dropped && w.provider == w1.provider - pruned && pruned <= dropped
    requires forall k :: k in dropped <==> k in w0.ledger && k !in DesiredKeys(rows)
    requires NoConflict(w0, Goal(rows), done) && Moment(w0, w, Goal(rows), done)
    ensures w == Final(w0, Goal(rows), done)
  {
    assert forall k :: k !in DesiredKeys(rows) ==> Same(w0, w1, k);
    forall r | r in rows && RowKey(r) !in done ensures Delivered(w, r) {
      assert Delivered(w1, r);
      assert RowKey(r) in DesiredKeys(rows);
    }
    SettledIsFinal(w, rows, done);
  }

  /** The two lists can be dropped, in a way that respects the bracketing. */
  lemma DropsReady(prefix: string, manifest: seq<ManifestEntry>, teardown: bool, done: set<Key>, w0: World, w1: World,
      index: map<Key, LedgerEntry>, reservations: seq<LedgerEntry>, prunes: seq<LedgerEntry>)
    requires ManifestOk(prefix, manifest) && LedgerOk(index) && Sorted(PruneLeq, prunes)
    requires
      var rows := DesiredRows(prefix, manifest, !teardown);
      && Passed(w0, w1, index, rows, done)
      && Leftovers(rows, index, reservations, true) && Leftovers(rows, index, prunes, false)
    ensures
      var rows := DesiredRows(prefix, manifest, !teardown);
      && Droppable(reservations, w1.ledger, rows) && Droppable(prunes, w1.ledger, rows)
      && (BracketedRun(prefix, manifest, teardown, done, w0) ==> DropsBracket(prefix, prunes, w1))
  {
    var rows := DesiredRows(prefix, manifest, !teardown);
    LeftoversDroppable(w0, w1, index, rows, done, reservations, true);
    LeftoversDroppable(w0, w1, index, rows, done, prunes, false);
    if BracketedRun(prefix, manifest, teardown, done, w0) {
      PrunesRespect(prefix, manifest, teardown, done, w0, w1, index, prunes);
    }
  }

  /** What the drops have made of the run. */
  lemma DropsEnd(w0: World, w1: World, w: World, index: map<Key, LedgerEntry>, rows: seq<DesiredRow>, done: set<Key>,
      trail: Trail, delivered: seq<Change>, deletions: seq<Change>, out: Outcome)
    requires DistinctKeys(rows) && Passed(w0, w1, index, rows, done) && LedgerOk(index) && Trails(rows, index, trail)
    requires Droppable(trail.prunes, w1.ledger, rows) && LeadsTo(w1, trail, w) && NoConflict(w0, Goal(rows), done)
    requires Moment(w0, w, Goal(rows), done) && Kept(w0, w, rows, done, ChangeKeys(delivered))
    requires Elements(delivered) == RowChanges(rows, done, w0.ledger) && deletions <= Deletes(trail.prunes)
    requires out == Proceeding || out == Stopped
    requires out == Proceeding ==>
      && deletions == Deletes(trail.prunes)
      && trail.released == |trail.reservations| && trail.pruned == |trail.prunes|
    ensures RunEffect(rows, done, w0, w, out, delivered + deletions)
  {
    var reservations, prunes := trail.reservations, trail.prunes;
    KeptWithDeletes(w0, w, rows, done, delivered, deletions, prunes);
    if out == Proceeding {
      assert reservations[..|reservations|] == reservations && prunes[..|prunes|] == prunes;
      RunEnds(w0, w1, w, index, rows, done, reservations, prunes, delivered);
    }
  }

  lemma RunEnds(w0: World, w1: World, w: World, index: map<Key, LedgerEntry>, rows: seq<DesiredRow>, done: set<Key>,
                reservations: seq<LedgerEntry>, prunes: seq<LedgerEntry>, delivered: seq<Change>)
    requires DistinctKeys(rows) && Passed(w0, w1, index, rows, done) && LedgerOk(index)
    requires Leftovers(rows, index, reservations, true) && Leftovers(rows, index, prunes, false)
    requires w.ledger == w1.ledger - EntryKeys(reservations) - EntryKeys(prunes)
    requires w.provider == w1.provider - EntryKeys(prunes)
    requires NoConflict(w0, Goal(rows), done) && Moment(w0, w, Goal(rows), done)
    requires Elements(delivered) == RowChanges(rows, done, w0.ledger)
    ensures w == Final(w0, Goal(rows), done)
    ensures Elements(delivered + Deletes(prunes)) == RowChanges(rows, done, w0.ledger) + Deletions(rows, w0.ledger)
  {
    LeftoversDroppable(w0, w1, index, rows, done, reservations, true);
    LeftoversDroppable(w0, w1, index, rows, done, prunes, false);
    Settles(w0, w1, w, index, rows, done, EntryKeys(reservations) + EntryKeys(prunes), EntryKeys(prunes));
    DeletesAreDeletions(w0, w1, index, rows, done, prunes);
    assert Elements(delivered + Deletes(prunes)) == Elements(delivered) + Elements(Deletes(prunes));
  }

  lemma StillDroppable(reservations: seq<LedgerEntry>, prunes: seq<LedgerEntry>, ledger: map<Key, LedgerEntry>,
      rows: seq<DesiredRow>)
    requires Droppable(reservations, ledger, rows) && Droppable(prunes, ledger, rows)
    requires forall e :: e in reservations ==> e.state == Reserved
    requires forall e :: e in prunes ==> e.state != Reserved
    ensures Droppable(prunes, ledger - EntryKeys(reservations), rows)
  {
  }

  /** No ordinary name of ours that is present goes after a sentinel of ours. */
  ghost predicate Orderly(prefix: string, w: World) {
    forall s, x ::
      IsSentinel(prefix, s) && Claimed(w.ledger, s) && !IsSentinel(prefix, x) && Claimed(w.ledger, x) && x in w.provider
      ==> !PruneLeq(w.ledger[s], w.ledger[x])
  }

  /** The bracketing is promised of every converge run, and of a teardown with
      nothing desired whose names are orderly. */
  ghost predicate BracketedRun(prefix: string, manifest: seq<ManifestEntry>, teardown: bool, completed: set<Key>,
      w: World)
  {
    && (forall e :: e in manifest ==> e.keyID != "")
    && (forall k :: IsSentinel(prefix, k) && k in completed ==> k in w.provider)
    && (teardown ==> manifest == [] && Orderly(prefix, w))
  }

  lemma ConvergeBrings(prefix: string, manifest: seq<ManifestEntry>, completed: set<Key>, w: World)
    requires ManifestOk(prefix, manifest) && BracketedRun(prefix, manifest, false, completed, w)
    ensures BracketingRows(prefix, DesiredRows(prefix, manifest, true), completed, w)
  {
    var rows := DesiredRows(prefix, manifest, true);
    DesiredRowsShape(prefix, manifest, true);
    assert Sentinel(prefix, Secret) in rows && Sentinel(prefix, Variable) in rows;
    forall r | r in rows ensures r.keyID == "" <==> IsSentinel(prefix, RowKey(r)) {
      if r in ManifestRows(prefix, manifest) {
        var i :| 0 <= i < |manifest| && ManifestRows(prefix, manifest)[i] == r;
        assert manifest[i] in manifest;
        SentinelNameTaken(prefix, manifest[i]);
      }
    }
  }

  lemma TeardownWantsNothing(prefix: string)
    ensures DesiredRows(prefix, [], false) == []
  {
    assert ManifestRows(prefix, []) == [];
  }

  lemma UntouchedByNothing(w0: World, w: World, index: map<Key, LedgerEntry>, done: set<Key>)
    requires Passed(w0, w, index, [], done)
    ensures w == w0
  {
    forall k ensures (k in w.provider <==> k in w0.provider) && (k in w.ledger <==> k in w0.ledger) {
      assert Same(w0, w, k);
    }
    forall k | k in w.provider ensures w.provider[k] == w0.provider[k] { assert Same(w0, w, k); }
    forall k | k in w.ledger ensures w.ledger[k] == w0.ledger[k] { assert Same(w0, w, k); }
  }

  /** After the pass over the rows the prunes respect the bracketing. */
  lemma PrunesRespect(prefix: string, manifest: seq<ManifestEntry>, teardown: bool, completed: set<Key>, w0: World,
      w: World, index: map<Key, LedgerEntry>, prunes: seq<LedgerEntry>)
    requires ManifestOk(prefix, manifest) && BracketedRun(prefix, manifest, teardown, completed, w0)
    requires
      var rows := DesiredRows(prefix, manifest, !teardown);
      Passed(w0, w, index, rows, completed) && LedgerOk(index) && Leftovers(rows, index, prunes, false) &&
        Sorted(PruneLeq, prunes)
    ensures DropsBracket(prefix, prunes, w)
  {
    var rows := DesiredRows(prefix, manifest, !teardown);
    LeftoversDroppable(w0, w, index, rows, completed, prunes, false);
    if teardown {
      TeardownWantsNothing(prefix);
      UntouchedByNothing(w0, w, index, completed);
      forall i, j | 0 <= i < j < |prunes| && IsSentinel(prefix, EntryKey(prunes[i])) &&
        EntryKey(prunes[j]) in w.provider
        ensures IsSentinel(prefix, EntryKey(prunes[j]))
      {
        assert prunes[i] in prunes && prunes[j] in prunes;
        assert w.ledger[EntryKey(prunes[i])] == prunes[i] && w.ledger[EntryKey(prunes[j])] == prunes[j];
        assert PruneLeq(prunes[i], prunes[j]);
      }
    } else {
      ConvergeBrings(prefix, manifest, completed, w0);
    }
  }

  /** Between the runs of one job. */
  ghost predicate Resumable(w0: World, w: World, rows: seq<DesiredRow>, completed: set<Key>) {
    && LedgerOk(w.ledger) && IndexOk(w.ledger) && NoConflict(w, Goal(rows), {})
    && Final(w, Goal(rows), {}) == Final(w0, Goal(rows), {})
    && forall r :: r in rows && RowKey(r) in completed ==> Delivered(w, r)
  }

  lemma RunResumable(w0: World, w: World, w': World, rows: seq<DesiredRow>, completed: set<Key>, out: Outcome,
      changes: seq<Change>)
    requires DistinctKeys(rows) && Resumable(w0, w, rows, completed) && RunEffect(rows, completed, w, w', out, changes)
    ensures Resumable(w0, w', rows, completed + ChangeKeys(changes)) && Resumable(w0, w', rows, {})
  {
    DoneIsSkippable(w, rows, completed);
    DoneIsSkippable(w', rows, completed);
  }

  // ---- Planning against execution -------------------------------------------------------------

  /** The secret names the provider lists, normalised for comparison. */
  function SecretNames(provider: map<Key, string>): set<string> {
    set k | k in provider && k.surface == Secret :: Upper(k.name)
  }

  function Realized(c: Change): Change {
    if c.disposition == Unknown then c.(disposition := Create) else c
  }

  /** What a plan must show, and its reader must know of variables, for it to hold. */
  ghost predicate Predictable(prefix: string, manifest: seq<ManifestEntry>, plan: seq<Change>, w: World) {
    && Upper(prefix) == prefix && (forall c :: c in plan ==> c.disposition != Conflict)
    && forall r :: r in DesiredRows(prefix, manifest, true) && r.surface == Variable && RowKey(r) in w.provider ==>
      Claimed(w.ledger, RowKey(r))
  }

  /** With an upper-case prefix, no planned conflict and no unclaimed variable under
      a desired name, a run meets no conflict and reports the planned changes. */
  lemma PlanPredictsSync(prefix: string, manifest: seq<ManifestEntry>, w: World)
    requires ManifestOk(prefix, manifest) && Upper(prefix) == prefix
    requires forall c :: c in Planned(DesiredRows(prefix, manifest, true), w.ledger, SecretNames(w.provider)) ==>
      c.disposition != Conflict
    requires forall r ::
      r in DesiredRows(prefix, manifest, true) && r.surface == Variable && RowKey(r) in w.provider ==>
      Claimed(w.ledger, RowKey(r))
    ensures
      var rows := DesiredRows(prefix, manifest, true);
      && NoConflict(w, Goal(rows), {})
      && RowChanges(rows, {}, w.ledger) + Deletions(rows, w.ledger) ==
        set c | c in Planned(rows, w.ledger, SecretNames(w.provider)) :: Realized(c)
  {
    var rows := DesiredRows(prefix, manifest, true);
    var names := SecretNames(w.provider);
    DesiredRowsShape(prefix, manifest, true);
    GoalIs(rows);
    forall r | r in rows
      ensures Upper(r.name) == r.name && PlannedRow(r, w.ledger, names).disposition != Conflict
      ensures Realized(PlannedRow(r, w.ledger, names)) == RowChange(r, w.ledger)
    {
      NamesAreUpper(prefix, manifest, r);
      assert PlannedRow(r, w.ledger, names) in PlannedRows(rows, w.ledger, names);
    }
    forall k | k in Goal(rows) && k in w.provider ensures Claimed(w.ledger, k) {
      var r :| r in rows && RowKey(r) == k;
      assert k.name == r.name;
      assert r.surface == Secret ==> Upper(k.name) in names;
    }
    PlannedRealized(rows, w.ledger, names);
  }

  lemma PlannedRealized(rows: seq<DesiredRow>, ledger: map<Key, LedgerEntry>, names: set<string>)
    requires forall r :: r in rows ==> Realized(PlannedRow(r, ledger, names)) == RowChange(r, ledger)
    ensures RowChanges(rows, {}, ledger) + Deletions(rows, ledger) ==
      set c | c in Planned(rows, ledger, names) :: Realized(c)
  {
    var planned := set c | c in Planned(rows, ledger, names) :: Realized(c);
    forall c | c in RowChanges(rows, {}, ledger) ensures c in planned {
      var r :| r in rows && RowChange(r, ledger) == c;
      assert PlannedRow(r, ledger, names) in Planned(rows, ledger, names);
    }
    forall c | c in Deletions(rows, ledger) ensures c in planned {
      assert c in Planned(rows, ledger, names) && Realized(c) == c;
    }
    forall c | c in Planned(rows, ledger, names)
      ensures Realized(c) in RowChanges(rows, {}, ledger) + Deletions(rows, ledger)
    {
      if c in PlannedRows(rows, ledger, names) {
        var r :| r in rows && PlannedRow(r, ledger, names) == c;
        assert RowChange(r, ledger) in RowChanges(rows, {}, ledger);
      } else {
        assert c in Deletions(rows, ledger) && Realized(c) == c;
      }
    }
  }

  lemma UpperConcat(a: string, b: string)
    ensures Upper(a + b) == Upper(a) + Upper(b)
  {
  }

  lemma NamesAreUpper(prefix: string, manifest: seq<ManifestEntry>, r: DesiredRow)
    requires ManifestOk(prefix, manifest) && Upper(prefix) == prefix && r in DesiredRows(prefix, manifest, true)
    ensures Upper(r.name) == r.name
  {
    DesiredRowsShape(prefix, manifest, true);
    if r in ManifestRows(prefix, manifest) {
      var i :| 0 <= i < |manifest| && ManifestRows(prefix, manifest)[i] == r;
      IdentifierIsUpper(prefix + manifest[i].canonicalName);
    } else {
      UpperConcat(prefix, SENTINEL_NAME);
      assert Upper(SENTINEL_NAME) == SENTINEL_NAME;
    }
  }

  /** Only an upper-case prefix makes the prediction hold: with any other, a secret
      already standing under the sentinel name is planned as a creation, because
      listed names are compared in upper case with a desired name that is not. */
  lemma MixedCasePrefixMisplans(prefix: string, value: string)
    requires Upper(prefix) != prefix
    ensures
      var rows, w := DesiredRows(prefix, [], true), World(map[SentinelKey(prefix, Secret) := value], map[]);
      && (forall c :: c in Planned(rows, w.ledger, SecretNames(w.provider)) ==> c.disposition != Conflict)
      && (forall r :: r in rows && r.surface == Variable ==> RowKey(r) !in w.provider)
      && !NoConflict(w, Goal(rows), {})
  {
    var rows, k := DesiredRows(prefix, [], true), SentinelKey(prefix, Secret);
    DesiredRowsShape(prefix, [], true);
    GoalIs(rows);
    var w := World(map[k := value], map[]);
    PlanMisses(prefix, value);
    assert Sentinel(prefix, Secret) in rows;
    assert k in Goal(rows) && k in w.provider;
  }

  /** The plan compares the sentinel's name with the provider's, which is upper-case. */
  lemma PlanMisses(prefix: string, value: string)
    requires Upper(prefix) != prefix
    ensures
      var rows, w := DesiredRows(prefix, [], true), World(map[SentinelKey(prefix, Secret) := value], map[]);
      forall c :: c in Planned(rows, w.ledger, SecretNames(w.provider)) ==> c.disposition != Conflict
  {
    var rows, w := DesiredRows(prefix, [], true), World(map[SentinelKey(prefix, Secret) := value], map[]);
    var names := SecretNames(w.provider);
    DesiredRowsShape(prefix, [], true);
    UpperDiffers(prefix);
    assert prefix + SENTINEL_NAME !in names;
    forall c | c in Planned(rows, w.ledger, names) ensures c.disposition != Conflict {
      var r :| r in rows && c == PlannedRow(r, w.ledger, names);
      assert r.name == prefix + SENTINEL_NAME;
    }
  }

  lemma UpperDiffers(prefix: string)
    requires Upper(prefix) != prefix
    ensures Upper(prefix + SENTINEL_NAME) != prefix + SENTINEL_NAME
  {
    var name := prefix + SENTINEL_NAME;
    UpperConcat(prefix, SENTINEL_NAME);
    assert Upper(name)[..|prefix|] == Upper(prefix) && name[..|prefix|] == prefix;
  }

  // ---- Every cut of an empty teardown -----------------------------------------------------------

  /** Where a teardown with nothing desired may be cut: while it releases bare
      reservations, while it prunes k, whose name may already be deleted, or not
      at all. */
  datatype Cut = Releasing(released: set<Key>) | Pruning(k: Key, deleted: bool) | Finished

  function Reservations(ledger: map<Key, LedgerEntry>): set<Key> {
    set k | k in ledger && !Claimed(ledger, k)
  }

  /** The claimed names that are pruned before k. */
  function Earlier(ledger: map<Key, LedgerEntry>, k: Key): set<Key>
    requires k in ledger
  {
    set x | x in ledger && Claimed(ledger, x) && x != k && PruneLeq(ledger[x], ledger[k])
  }

  predicate CutOk(w: World, c: Cut) {
    match c
    case Releasing(released) => released <= Reservations(w.ledger)
    case Pruning(k, _) => Claimed(w.ledger, k)
    case Finished => true
  }

  function CutWorld(w: World, c: Cut): World
    requires CutOk(w, c)
  {
    match c
    case Releasing(released) => w.(ledger := w.ledger - released)
    case Pruning(k, deleted) =>
      var earlier := Earlier(w.ledger, k);
      World(w.provider - (earlier + if deleted then {k} else {}), w.ledger - (Reservations(w.ledger) + earlier))
    case Finished => World(w.provider - ClaimedKeys(w.ledger), map[])
  }

  /** The state is one of the cuts. */
  ghost predicate CutOf(w: World, w': World) {
    exists c :: CutOk(w, c) && w' == CutWorld(w, c)
  }

  /** The choices cut a run at the deletion of k. */
  ghost predicate CutsKey(choices: Choices, ledger: map<Key, LedgerEntry>, k: Key, deleted: bool) {
    k in ledger && CutAt(choices, 0, |Reservations(ledger)|, |Earlier(ledger, k)|, deleted)
  }

  /** Choices that do so. */
  function CutChoices(ledger: map<Key, LedgerEntry>, k: Key, deleted: bool): Choices
    requires k in ledger
  {
    var n := |Reservations(ledger)| + 4 * |Earlier(ledger, k)| + 2;
    t => if t == n then Choice(Died, if deleted then 1 else 0) else Choice(Returned, 1)
  }

  lemma IndexIsLedger(w0: World, w: World, index: map<Key, LedgerEntry>, done: set<Key>)
    requires Passed(w0, w, index, [], done)
    ensures index == w0.ledger
  {
    forall k ensures k in index <==> k in w0.ledger { assert Agrees(index, w0.ledger, k); }
    forall k | k in index ensures index[k] == w0.ledger[k] { assert Agrees(index, w0.ledger, k); }
  }

  lemma {:induction false} KeysCounted(list: seq<LedgerEntry>, ledger: map<Key, LedgerEntry>, n: nat)
    requires Droppable(list, ledger, []) && n <= |list|
    ensures |EntryKeys(list[..n])| == n
  {
    if n == 0 {
      assert list[..0] == [] && EntryKeys([]) == {};
    } else {
      KeysCounted(list, ledger, n - 1);
      NotYetDropped(list, ledger, [], n - 1);
      var front := EntryKeys(list[..n - 1]);
      assert EntryKeys(list[..n]) == front + {EntryKey(list[n - 1])};
    }
  }

  /** With nothing desired the lists are all of the ledger. */
  lemma ListsAll(ledger: map<Key, LedgerEntry>, trail: Trail)
    requires LedgerOk(ledger) && Trails([], ledger, trail)
    ensures Droppable(trail.reservations, ledger, []) && Droppable(trail.prunes, ledger, [])
    ensures EntryKeys(trail.reservations) == Reservations(ledger) && EntryKeys(trail.prunes) == ClaimedKeys(ledger)
  {
    forall k | k in Reservations(ledger) ensures k in EntryKeys(trail.reservations) {
      assert ledger[k] in trail.reservations;
    }
    forall k | k in ClaimedKeys(ledger) ensures k in EntryKeys(trail.prunes) { assert ledger[k] in trail.prunes; }
  }

  /** What has been pruned before the n-th is what precedes it. */
  lemma PrefixIsEarlier(ledger: map<Key, LedgerEntry>, trail: Trail, n: nat)
    requires LedgerOk(ledger) && Trails([], ledger, trail) && n < |trail.prunes|
    ensures
      var k := EntryKey(trail.prunes[n]);
      Claimed(ledger, k) && ledger[k] == trail.prunes[n] && EntryKeys(trail.prunes[..n]) == Earlier(ledger, k)
  {
    var list := trail.prunes;
    ListsAll(ledger, trail);
    assert list[n] in list;
    var k := EntryKey(list[n]);
    NotYetDropped(list, ledger, [], n);
    forall e | e in list[..n] ensures EntryKey(e) in Earlier(ledger, k) {
      var i :| 0 <= i < n && list[i] == e;
      assert e in list && PruneLeq(list[i], list[n]);
    }
    forall x | x in Earlier(ledger, k) ensures x in EntryKeys(list[..n]) {
      assert x in EntryKeys(list) by { assert x in ClaimedKeys(ledger); }
      var e :| e in list && EntryKey(e) == x;
      InPrefix(list, n, e);
    }
  }

  /** Of a sorted list, what precedes the n-th entry stands before it. */
  lemma InPrefix(list: seq<LedgerEntry>, n: nat, e: LedgerEntry)
    requires Sorted(PruneLeq, list) && n < |list| && e in list && e != list[n] && PruneLeq(e, list[n])
    requires EntryKey(e) != EntryKey(list[n])
    ensures e in list[..n]
  {
    var i :| 0 <= i < |list| && list[i] == e;
    if n < i {
      PruneLeqAntisymmetric(list[n], list[i]);
      assert false;
    }
    assert list[..n][i] == e;
  }

  /** A trail of an empty teardown is a cut. */
  lemma TrailIsCut(w: World, trail: Trail, w': World)
    requires LedgerOk(w.ledger) && Trails([], w.ledger, trail) && LeadsTo(w, trail, w')
    ensures CutOf(w, w')
    ensures trail.released == |trail.reservations| && trail.pruned < |trail.prunes| ==>
      CutOk(w, Pruning(EntryKey(trail.prunes[trail.pruned]), trail.deleted))
      && w' == CutWorld(w, Pruning(EntryKey(trail.prunes[trail.pruned]), trail.deleted))
  {
    ListsAll(w.ledger, trail);
    var c := TheCut(trail);
    if trail.released < |trail.reservations| {
      assert w'.provider == w.provider;
      assert CutOk(w, c) && w' == CutWorld(w, c);
    } else {
      assert trail.reservations[..trail.released] == trail.reservations;
      if trail.pruned < |trail.prunes| { PruneIsCut(w, trail, w'); } else { EndIsCut(w, trail, w'); }
    }
  }

  lemma PruneIsCut(w: World, trail: Trail, w': World)
    requires LedgerOk(w.ledger) && Trails([], w.ledger, trail) && LeadsTo(w, trail, w')
    requires trail.released == |trail.reservations| && trail.pruned < |trail.prunes|
    requires EntryKeys(trail.reservations[..trail.released]) == Reservations(w.ledger)
    ensures CutOk(w, TheCut(trail)) && w' == CutWorld(w, TheCut(trail))
  {
    PrefixIsEarlier(w.ledger, trail, trail.pruned);
    assert w'.ledger == CutWorld(w, TheCut(trail)).ledger;
  }

  lemma EndIsCut(w: World, trail: Trail, w': World)
    requires Trails([], w.ledger, trail) && LeadsTo(w, trail, w')
    requires trail.released == |trail.reservations| && trail.pruned == |trail.prunes|
    requires EntryKeys(trail.reservations[..trail.released]) == Reservations(w.ledger)
    requires EntryKeys(trail.prunes) == ClaimedKeys(w.ledger)
    ensures CutOk(w, TheCut(trail)) && w' == CutWorld(w, TheCut(trail))
  {
    assert trail.prunes[..trail.pruned] == trail.prunes;
    assert w'.provider == CutWorld(w, Finished).provider;
    assert w'.ledger == map[];
  }

  function TheCut(trail: Trail): Cut
    requires trail.released <= |trail.reservations|
  {
    if trail.released < |trail.reservations| then Releasing(EntryKeys(trail.reservations[..trail.released]))
    else if trail.pruned < |trail.prunes| then Pruning(EntryKey(trail.prunes[trail.pruned]), trail.deleted)
    else Finished
  }

  /** A claimed name is pruned after as many others as precede it. */
  lemma PlaceOf(ledger: map<Key, LedgerEntry>, trail: Trail, k: Key) returns (i: nat)
    requires LedgerOk(ledger) && Trails([], ledger, trail) && Claimed(ledger, k)
    ensures i < |trail.prunes| && EntryKey(trail.prunes[i]) == k
    ensures |Earlier(ledger, k)| == i && |Reservations(ledger)| == |trail.reservations|
  {
    ListsAll(ledger, trail);
    KeysCounted(trail.reservations, ledger, |trail.reservations|);
    assert trail.reservations[..|trail.reservations|] == trail.reservations;
    assert ledger[k] in trail.prunes;
    i :| 0 <= i < |trail.prunes| && trail.prunes[i] == ledger[k];
    PrefixIsEarlier(ledger, trail, i);
    KeysCounted(trail.prunes, ledger, i);
  }

  /** Choices that cut at k cut there. */
  lemma CutIsReached(w: World, trail: Trail, w': World, choices: Choices, k: Key, deleted: bool)
    requires LedgerOk(w.ledger) && Trails([], w.ledger, trail) && LeadsTo(w, trail, w') && CutsAt(choices, 0, trail)
    requires Claimed(w.ledger, k) && CutsKey(choices, w.ledger, k, deleted)
    ensures w' == CutWorld(w, Pruning(k, deleted))
  {
    var i := PlaceOf(w.ledger, trail, k);
    assert CutAt(choices, 0, |trail.reservations|, i, deleted);
    TrailIsCut(w, trail, w');
  }

  lemma EmptyRun(w: World, trail: Trail, w': World, choices: Choices)
    requires LedgerOk(w.ledger) && Trails([], w.ledger, trail) && LeadsTo(w, trail, w') && CutsAt(choices, 0, trail)
    ensures CutOf(w, w')
    ensures forall k, d :: Claimed(w.ledger, k) && CutsKey(choices, w.ledger, k, d) ==> w' == CutWorld(w, Pruning(k, d))
  {
    TrailIsCut(w, trail, w');
    forall k, d | Claimed(w.ledger, k) && CutsKey(choices, w.ledger, k, d) ensures w' == CutWorld(w, Pruning(k, d)) {
      CutIsReached(w, trail, w', choices, k, d);
    }
  }

  lemma CutKeepsBracketed(prefix: string, w: World, c: Cut)
    requires LedgerOk(w.ledger) && Bracketed(prefix, w) && Orderly(prefix, w) && CutOk(w, c)
    ensures Bracketed(prefix, CutWorld(w, c))
  {
    var w' := CutWorld(w, c);
    forall x | x in w'.provider && Claimed(w'.ledger, x) && !IsSentinel(prefix, x) ensures BothPresent(prefix, w') {
      assert BothPresent(prefix, w);
      forall s | IsSentinel(prefix, s) ensures s in w'.provider { SentinelOutlives(prefix, w, c, s, x); }
    }
  }

  /** While an ordinary name stands, so does the sentinel. */
  lemma SentinelOutlives(prefix: string, w: World, c: Cut, s: Key, x: Key)
    requires Orderly(prefix, w) && CutOk(w, c) && IsSentinel(prefix, s) && s in w.provider
    requires x in CutWorld(w, c).provider && Claimed(CutWorld(w, c).ledger, x) && !IsSentinel(prefix, x)
    ensures s in CutWorld(w, c).provider
  {
    if c.Pruning? && Claimed(w.ledger, s) {
      var ledger, k := w.ledger, c.k;
      assert !PruneLeq(ledger[s], ledger[x]);
      PruneLeqIsOrder();
      assert x == k || PruneLeq(ledger[k], ledger[x]);
      assert s != k && !PruneLeq(ledger[s], ledger[k]);
    }
  }

  /** Cutting the teardown at a sentinel that precedes an ordinary name. */
  lemma DisorderBreaks(prefix: string, w: World, s: Key, x: Key)
    requires LedgerOk(w.ledger) && IsSentinel(prefix, s) && Claimed(w.ledger, s)
    requires !IsSentinel(prefix, x) && Claimed(w.ledger, x) && x in w.provider && PruneLeq(w.ledger[s], w.ledger[x])
    ensures !Bracketed(prefix, CutWorld(w, Pruning(s, true)))
  {
    if PruneLeq(w.ledger[x], w.ledger[s]) { PruneLeqAntisymmetric(w.ledger[s], w.ledger[x]); }
    var w' := CutWorld(w, Pruning(s, true));
    assert x in w'.provider && Claimed(w'.ledger, x) && !BothPresent(prefix, w');
  }

  /** From a bracketed state, an empty teardown is bracketed at every cut if and only
      if no present ordinary name of ours goes after a sentinel of ours. */
  lemma EmptyTeardownBracketed(prefix: string, w: World)
    requires LedgerOk(w.ledger) && Bracketed(prefix, w)
    ensures (forall c :: CutOk(w, c) ==> Bracketed(prefix, CutWorld(w, c))) <==> Orderly(prefix, w)
  {
    if Orderly(prefix, w) {
      forall c | CutOk(w, c) ensures Bracketed(prefix, CutWorld(w, c)) { CutKeepsBracketed(prefix, w, c); }
    } else {
      var s, x :| IsSentinel(prefix, s) && Claimed(w.ledger, s) && !IsSentinel(prefix, x) && Claimed(w.ledger, x)
        && x in w.provider && PruneLeq(w.ledger[s], w.ledger[x]);
      DisorderBreaks(prefix, w, s, x);
      assert CutOk(w, Pruning(s, true));
    }
  }

  /** Both sentinels and one ordinary secret, all owned and present. */
  function ThreeOwned(prefix: string, name: string): World {
    var s, v, x := SentinelKey(prefix, Secret), SentinelKey(prefix, Variable), NewKey(Secret, name);
    World(map[s := "", v := "", x := ""],
          map[s := LedgerEntry(Secret, prefix + SENTINEL_NAME, Owned, false),
            v := LedgerEntry(Variable, prefix + SENTINEL_NAME, Owned, false),
              x := LedgerEntry(Secret, name, Owned, false)])
  }

  /** A deliverable name that ends like the sentinel and sorts after it is torn down
      after it: cut there, an ordinary name of ours stands outside the bracket. */
  lemma SuffixNameBreaks(prefix: string, name: string)
    requires HasSuffix(name, SENTINEL_NAME) && NameLeq(prefix + SENTINEL_NAME, name)
    requires Upper(name) != Upper(prefix + SENTINEL_NAME)
    ensures
      var w := ThreeOwned(prefix, name);
      && LedgerOk(w.ledger) && IndexOk(w.ledger) && Bracketed(prefix, w) && !Orderly(prefix, w)
      && !Bracketed(prefix, CutWorld(w, Pruning(SentinelKey(prefix, Secret), true)))
  {
    var w, s, x := ThreeOwned(prefix, name), SentinelKey(prefix, Secret), NewKey(Secret, name);
    ThreeBracketed(prefix, name);
    assert HasSuffix(prefix + SENTINEL_NAME, SENTINEL_NAME);
    assert PruneLeq(w.ledger[s], w.ledger[x]);
    DisorderBreaks(prefix, w, s, x);
  }

  lemma ThreeBracketed(prefix: string, name: string)
    requires Upper(name) != Upper(prefix + SENTINEL_NAME)
    ensures
      var w, s, x := ThreeOwned(prefix, name), SentinelKey(prefix, Secret), NewKey(Secret, name);
      && LedgerOk(w.ledger) && IndexOk(w.ledger) && Bracketed(prefix, w)
      && IsSentinel(prefix, s) && Claimed(w.ledger, s) && w.ledger[s].name == prefix + SENTINEL_NAME
      && !IsSentinel(prefix, x) && Claimed(w.ledger, x) && x in w.provider && w.ledger[x].name == name
  {
  }

  /** Such a name exists and is accepted. */
  lemma SuffixNameAccepted()
    ensures EntryOk("", ManifestEntry("key", "X_" + SENTINEL_NAME, SecretClass, ""))
    ensures HasSuffix("X_" + SENTINEL_NAME, SENTINEL_NAME) && NameLeq("" + SENTINEL_NAME, "X_" + SENTINEL_NAME)
    ensures Upper("X_" + SENTINEL_NAME) != Upper("" + SENTINEL_NAME)
  {
    var name := "" + ("X_" + SENTINEL_NAME);
    assert name == "X_MANAGED_BY_HIKYO";
    assert name[0] == 'X' && ("" + SENTINEL_NAME)[0] == 'M';
    assert !HasPrefix(name, "FORGEJO_") && !HasPrefix(name, "GITHUB_") && !HasPrefix(name, "GITEA_") by {
      assert "FORGEJO_"[0] == 'F' && "GITHUB_"[0] == 'G' && "GITEA_"[0] == 'G';
    }
    assert |Upper(name)| == 18 && |Upper("" + SENTINEL_NAME)| == 16;
  }

  // ---- Tearing down with something still desired ---------------------------------------------

  lemma OrdinaryGoal(prefix: string, manifest: seq<ManifestEntry>)
    requires ManifestOk(prefix, manifest)
    ensures forall k :: k in Goal(DesiredRows(prefix, manifest, false)) ==> !IsSentinel(prefix, k)
    ensures Goal(DesiredRows(prefix, manifest, false)) == map[] <==> manifest == []
  {
    var rows := DesiredRows(prefix, manifest, false);
    DesiredRowsShape(prefix, manifest, false);
    GoalIs(rows);
    forall k | k in Goal(rows) ensures !IsSentinel(prefix, k) {
      var r :| r in rows && RowKey(r) == k;
      var i :| 0 <= i < |manifest| && ManifestRows(prefix, manifest)[i] == r;
      SentinelNameTaken(prefix, manifest[i]);
    }
    if manifest == [] { TeardownWantsNothing(prefix); } else { assert ManifestRows(prefix, manifest)[0] in rows; }
  }

  /** Someone else's names stand where the sentinels would. */
  predicate SentinelsForeign(prefix: string, w: World) {
    ConflictAt(w, SentinelKey(prefix, Secret)) && ConflictAt(w, SentinelKey(prefix, Variable))
  }

  lemma FinalBracketed(prefix: string, goal: map<Key, DesiredRow>, w: World)
    requires forall k :: k in goal ==> !IsSentinel(prefix, k)
    ensures Bracketed(prefix, Final(w, goal, {})) <==> goal == map[] || SentinelsForeign(prefix, w)
  {
    var final := Final(w, goal, {});
    assert BothPresent(prefix, final) <==> SentinelsForeign(prefix, w);
    if goal != map[] {
      var k :| k in goal;
      assert k in final.provider && Claimed(final.ledger, k) && !IsSentinel(prefix, k);
    }
  }

  /** A completed teardown is bracketed exactly when nothing is desired any more,
      or someone else's names stand where the sentinels did. */
  lemma TeardownBracketed(prefix: string, manifest: seq<ManifestEntry>, w: World)
    requires ManifestOk(prefix, manifest)
    ensures Bracketed(prefix, Final(w, Goal(DesiredRows(prefix, manifest, false)), {})) <==>
      manifest == [] || SentinelsForeign(prefix, w)
  {
    OrdinaryGoal(prefix, manifest);
    FinalBracketed(prefix, Goal(DesiredRows(prefix, manifest, false)), w);
  }

  /** The provider store of one destination and the journal's persisted ledger. */
  class Session {
    var provider: map<Key, string>
    var ledger: map<Key, LedgerEntry>

    ghost function Now(): World
      reads this
    {
      World(provider, ledger)
    }

    /** Gate, prepare, write and finish a row the ledger already holds. */
    method Deliver(row: DesiredRow, state: LedgerState, choices: Choices, t0: nat) returns (t: nat, out: Outcome)
      requires LedgerOk(ledger) && RowKey(row) in ledger && ledger[RowKey(row)].state == state
      requires state == Reserved ==> RowKey(row) !in provider
      modifies this
      ensures RowStep(old(Now()), Now(), row) && KeepsIdentity(old(Now()), Now(), row) && RowKey(row) in ledger
      ensures out == Proceeding || out == Stopped
      ensures out == Proceeding ==>
        && RowKey(row) in provider && provider[RowKey(row)] == row.value
        && ledger[RowKey(row)].state == Owned && !ledger[RowKey(row)].missing
      ensures Smooth(choices) ==> out == Proceeding
    {
      var k := RowKey(row);
      t, out := t0 + 1, Stopped;
      if !choices(t0).reply.Returned? { return; }
      var prepared := choices(t);
      t := t + 1;
      if Lands(prepared) && state == Reserved { ledger := ledger[k := ledger[k].(state := Dispatched)]; }
      if !prepared.reply.Returned? { return; }
      var written := choices(t);
      t := t + 1;
      if Lands(written) { provider := provider[k := row.value]; }
      if !written.reply.Returned? { return; }
      var finished := choices(t);
      t := t + 1;
      if Lands(finished) { ledger := ledger[k := ledger[k].(state := Owned, missing := false)]; }
      if finished.reply.Returned? { out := Proceeding; }
    }

    /** One desired row.  `index` is the in-memory ledger of this run. */
    method SyncRow(row: DesiredRow, index: map<Key, LedgerEntry>, choices: Choices, t0: nat)
      returns (index': map<Key, LedgerEntry>, t: nat, out: Outcome, change: Change)
      requires LedgerOk(ledger)
      requires RowKey(row) in index <==> RowKey(row) in ledger
      requires RowKey(row) in index ==> index[RowKey(row)] == ledger[RowKey(row)]
      modifies this
      ensures RowResult(old(Now()), Now(), index, index', row, out, change)
      ensures Smooth(choices) && !ConflictAt(old(Now()), RowKey(row)) ==> out == Proceeding
    {
      var k := RowKey(row);
      index', t, out, change := index, t0, Stopped, Change(row.surface, row.name, Create);
      var state := Reserved;
      if k in index' {
        state := index'[k].state;
        if (state == Owned || state == Dispatched) && !index'[k].missing { change := change.(disposition := Update); }
      } else {
        var c := choices(t);
        t := t + 1;
        if Lands(c) { ledger := ledger[k := LedgerEntry(row.surface, row.name, Reserved, false)]; }
        if !c.reply.Returned? { return; }
        index' := index'[k := LedgerEntry(row.surface, row.name, Reserved, false)];
      }
      if state == Reserved && k in provider {
        var c := choices(t);
        t := t + 1;
        if Lands(c) { ledger := ledger - {k}; }
        if c.reply.Returned? { out := Conflicted; }
        return;
      }
      ghost var reserved := Now();
      t, out := Deliver(row, state, choices, t);
      SameExceptTransitive(old(Now()), reserved, Now(), k);
      if out == Proceeding { index' := index'[k := LedgerEntry(row.surface, row.name, Owned, false)]; }
    }

    /** All desired rows in order, skipping those done earlier in the job. */
    method SyncRows(rows: seq<DesiredRow>, done: set<Key>, choices: Choices, t0: nat, ghost prefix: string)
      returns (index: map<Key, LedgerEntry>, t: nat, out: Outcome, changes: seq<Change>)
      requires LedgerOk(ledger) && DistinctKeys(rows)
      modifies this
      ensures During(prefix, old(Now()), Now(), rows, done, ChangeKeys(changes))
      ensures out == Proceeding ==>
        && Passed(old(Now()), Now(), index, rows, done) && LedgerOk(index) && NoConflict(old(Now()), Goal(rows), done)
        && Elements(changes) == RowChanges(rows, done, old(ledger))
      ensures out == Conflicted ==> !NoConflict(old(Now()), Goal(rows), done)
      ensures Smooth(choices) && NoConflict(old(Now()), Goal(rows), done) ==> out == Proceeding
      ensures out == Proceeding && BracketingRows(prefix, rows, done, old(Now())) ==> BothPresent(prefix, Now())
      ensures out != Invalid && (rows == [] ==> out == Proceeding && t == t0)
    {
      ghost var w0 := Now();
      MidwayStarts(prefix, w0, rows, done);
      index, t, out, changes := ledger, t0, Proceeding, [];
      for i := 0 to |rows|
        invariant out == Proceeding && (i == 0 ==> t == t0) && Midway(prefix, w0, Now(), index, rows, i, done, changes)
      {
        index, t, out, changes := SyncNext(rows, i, done, index, changes, choices, t, prefix, w0);
        if out != Proceeding { return; }
      }
      PassEnd(prefix, w0, Now(), index, rows, done, changes);
    }

    /** The i-th row, unless it is already done. */
    method SyncNext(rows: seq<DesiredRow>, i: nat, done: set<Key>, index0: map<Key, LedgerEntry>, changes0: seq<Change>,
        choices: Choices, t0: nat, ghost prefix: string, ghost w0: World)
      returns (index: map<Key, LedgerEntry>, t: nat, out: Outcome, changes: seq<Change>)
      requires DistinctKeys(rows) && i < |rows| && Midway(prefix, w0, Now(), index0, rows, i, done, changes0)
      modifies this
      ensures During(prefix, w0, Now(), rows, done, ChangeKeys(changes))
      ensures out == Proceeding ==> Midway(prefix, w0, Now(), index, rows, i + 1, done, changes)
      ensures out == Conflicted ==> !NoConflict(w0, Goal(rows), done)
      ensures out != Invalid && (Smooth(choices) && NoConflict(w0, Goal(rows), done) ==> out == Proceeding)
    {
      index, t, out, changes := index0, t0, Proceeding, changes0;
      if RowKey(rows[i]) in done {
        PassSkip(w0, Now(), index, rows, i, done, changes);
        return;
      }
      ghost var w := Now();
      GoalIs(rows);
      FreshKey(rows, i);
      assert Same(w0, w, RowKey(rows[i])) && Agrees(index, w0.ledger, RowKey(rows[i]));
      var change;
      index, t, out, change := SyncRow(rows[i], index, choices, t);
      RowKeepsDuring(prefix, w0, w, Now(), index0, rows, i, done, changes);
      if out != Proceeding { return; }
      PassRow(w0, w, Now(), index0, index, rows, i, done, changes, change);
      changes := changes + [change];
    }

    /** Drops a bare reservation that is no longer desired. */
    method ReleaseReservation(e: LedgerEntry, choices: Choices, t0: nat) returns (t: nat, out: Outcome)
      requires LedgerOk(ledger) && EntryKey(e) in ledger && ledger[EntryKey(e)] == e && e.state == Reserved
      modifies this
      ensures DropStep(old(Now()), Now(), EntryKey(e)) && provider == old(provider)
      ensures t == t0 + 1 && out == if choices(t0).reply.Returned? then Proceeding else Stopped
      ensures ledger == if Lands(choices(t0)) then old(ledger) - {EntryKey(e)} else old(ledger)
    {
      var c := choices(t0);
      t, out := t0 + 1, if c.reply.Returned? then Proceeding else Stopped;
      if Lands(c) { ledger := ledger - {EntryKey(e)}; }
    }

    /** Deletes an owned name that is no longer desired, then its ledger row.
        `stage` counts which of the two has happened. */
    method Prune(e: LedgerEntry, choices: Choices, t0: nat) returns (t: nat, out: Outcome, ghost stage: nat)
      requires LedgerOk(ledger) && EntryKey(e) in ledger && ledger[EntryKey(e)] == e && e.state != Reserved
      modifies this
      ensures DropStep(old(Now()), Now(), EntryKey(e)) && Staged(old(Now()), Now(), EntryKey(e), stage)
      ensures Ends(choices, t0, 4, t, out) && (out == Proceeding ==> stage == 2)
      ensures out == Stopped && stage == 2 ==> t == t0 + 4
      ensures out == Stopped && t == t0 + 3 ==> stage == if Lands(choices(t0 + 2)) then 1 else 0
    {
      t, out, stage := t0 + 1, Stopped, 0;
      if !choices(t - 1).reply.Returned? { return; }
      t := t + 1;
      if !choices(t - 1).reply.Returned? { return; }
      var deleted := choices(t);
      t := t + 1;
      if Lands(deleted) {
        provider := provider - {EntryKey(e)};
        stage := 1;
      }
      if !deleted.reply.Returned? { return; }
      var finished := choices(t);
      t := t + 1;
      if Lands(finished) {
        ledger := ledger - {EntryKey(e)};
        stage := 2;
      }
      if finished.reply.Returned? { out := Proceeding; }
    }

    /** Releases the i-th of the given reservations. */
    method ReleaseNext(list: seq<LedgerEntry>, i: nat, choices: Choices, t0: nat, ghost prefix: string, ghost w0: World,
        ghost w1: World, ghost rows: seq<DesiredRow>, ghost done: set<Key>, ghost reported: set<Key>)
      returns (t: nat, out: Outcome, ghost n: nat)
      requires LedgerOk(w1.ledger) && DistinctKeys(rows) && Droppable(list, w1.ledger, rows) && i < |list|
      requires Released(prefix, w0, w1, Now(), list, i, rows, done, reported) && list[i].state == Reserved
      modifies this
      ensures Released(prefix, w0, w1, Now(), list, n, rows, done, reported)
      ensures Ends(choices, t0, 1, t, out) && (out == Proceeding ==> n == i + 1)
    {
      ghost var w, landed := Now(), Lands(choices(t0));
      NotYetDropped(list, w1.ledger, rows, i);
      t, out := ReleaseReservation(list[i], choices, t0);
      n := if landed then i + 1 else i;
      ReleasingStep(prefix, w0, w1, w, Now(), list, i, landed, rows, done, reported);
    }

    /** Releases every bare reservation that is no longer desired; `n` of them are
        gone in the end. */
    method ReleaseAll(list: seq<LedgerEntry>, choices: Choices, t0: nat, ghost prefix: string,
                      ghost w0: World, ghost rows: seq<DesiredRow>, ghost done: set<Key>, ghost reported: set<Key>)
      returns (t: nat, out: Outcome, ghost n: nat)
      requires LedgerOk(ledger) && DistinctKeys(rows) && Droppable(list, ledger, rows)
      requires forall e :: e in list ==> e.state == Reserved
      requires Moment(w0, Now(), Goal(rows), done) && Kept(w0, Now(), rows, done, reported)
      modifies this
      ensures Released(prefix, w0, old(Now()), Now(), list, n, rows, done, reported)
      ensures Ends(choices, t0, |list|, t, out) && (out == Proceeding ==> n == |list|)
    {
      t, out, n := t0, Proceeding, 0;
      for i := 0 to |list|
        invariant out == Proceeding && n == i && Ends(choices, t0, i, t, Proceeding)
        invariant Released(prefix, w0, old(Now()), Now(), list, i, rows, done, reported)
      {
        t, out, n := ReleaseNext(list, i, choices, t, prefix, w0, old(Now()), rows, done, reported);
        EndsOn(choices, t0, i, t0 + i, 1, t, out);
        if out != Proceeding { return; }
      }
    }

    /** Prunes the i-th of the given names. */
    method PruneNext(list: seq<LedgerEntry>, i: nat, choices: Choices, t0: nat, ghost prefix: string, ghost w0: World,
        ghost w1: World, ghost rows: seq<DesiredRow>, ghost done: set<Key>, ghost reported: set<Key>)
      returns (t: nat, out: Outcome, ghost n: nat, ghost deleted: bool)
      requires LedgerOk(w1.ledger) && DistinctKeys(rows) && Droppable(list, w1.ledger, rows) && i < |list|
      requires Pruned(prefix, w0, w1, Now(), list, i, false, rows, done, reported) && list[i].state != Reserved
      modifies this
      ensures Pruned(prefix, w0, w1, Now(), list, n, deleted, rows, done, reported)
      ensures Ends(choices, t0, 4, t, out) && i <= n && (out == Proceeding ==> n == i + 1 && !deleted)
      ensures out == Stopped ==> StopsAt(choices, t0, n - i, deleted, t)
    {
      ghost var w := Now();
      ghost var stage;
      NotYetDropped(list, w1.ledger, rows, i);
      t, out, stage := Prune(list[i], choices, t0);
      PruningStep(prefix, w0, w1, w, Now(), list, i, stage, rows, done, reported);
      n, deleted := if stage == 2 then i + 1 else i, stage == 1;
    }

    /** Prunes every claimed name that is no longer desired, in the given order.  In
        the end n are gone, and of the next the name alone if `deleted`. */
    method PruneAll(list: seq<LedgerEntry>, choices: Choices, t0: nat, ghost prefix: string,
                    ghost w0: World, ghost rows: seq<DesiredRow>, ghost done: set<Key>, ghost reported: set<Key>)
      returns (t: nat, out: Outcome, changes: seq<Change>, ghost n: nat, ghost deleted: bool)
      requires LedgerOk(ledger) && DistinctKeys(rows) && Droppable(list, ledger, rows)
      requires forall e :: e in list ==> e.state != Reserved
      requires Moment(w0, Now(), Goal(rows), done) && Kept(w0, Now(), rows, done, reported)
      modifies this
      ensures Pruned(prefix, w0, old(Now()), Now(), list, n, deleted, rows, done, reported)
      ensures changes <= Deletes(list) && (out == Proceeding ==> changes == Deletes(list) && n == |list|)
      ensures Ends(choices, t0, 4 * |list|, t, out) && (out == Stopped ==> StopsAt(choices, t0, n, deleted, t))
    {
      t, out, changes, n, deleted := t0, Proceeding, [], 0, false;
      for i := 0 to |list|
        invariant out == Proceeding && changes == Deletes(list)[..i] && n == i && !deleted
        invariant Ends(choices, t0, 4 * i, t, Proceeding)
        invariant Pruned(prefix, w0, old(Now()), Now(), list, i, false, rows, done, reported)
      {
        t, out, n, deleted := PruneNext(list, i, choices, t, prefix, w0, old(Now()), rows, done, reported);
        EndsOn(choices, t0, 4 * i, t0 + 4 * i, 4, t, out);
        if out != Proceeding { return; }
        DeletesNext(list, i);
        changes := changes + [Change(list[i].surface, list[i].name, Delete)];
      }
    }

    /** The release loop, then the prune loop. */
    method DropAll(reservations: seq<LedgerEntry>, prunes: seq<LedgerEntry>, choices: Choices, t0: nat,
        ghost prefix: string, ghost w0: World, ghost rows: seq<DesiredRow>, ghost done: set<Key>,
        ghost reported: set<Key>)
      returns (out: Outcome, deletions: seq<Change>, ghost trail: Trail)
      requires LedgerOk(ledger) && DistinctKeys(rows) && Droppable(reservations, ledger, rows)
      requires Droppable(prunes, ledger, rows)
      requires forall e :: e in reservations ==> e.state == Reserved
      requires forall e :: e in prunes ==> e.state != Reserved
      requires Moment(w0, Now(), Goal(rows), done) && Kept(w0, Now(), rows, done, reported)
      modifies this
      ensures Moment(w0, Now(), Goal(rows), done) && Kept(w0, Now(), rows, done, reported)
      ensures PrunesBracket(prefix, prunes, old(Now()), Now())
      ensures trail.reservations == reservations && trail.prunes == prunes && LeadsTo(old(Now()), trail, Now())
      ensures CutsAt(choices, t0, trail)
      ensures deletions <= Deletes(prunes) && (out == Proceeding || out == Stopped)
      ensures Smooth(choices) ==> out == Proceeding
      ensures out == Proceeding ==>
        deletions == Deletes(prunes) && trail.released == |reservations| && trail.pruned == |prunes|
    {
      ghost var w1, n, m, deleted := Now(), 0, 0, false;
      var t;
      t, out, n := ReleaseAll(reservations, choices, t0, prefix, w0, rows, done, reported);
      deletions, trail := [], Trail(reservations, prunes, n, 0, false);
      if out != Proceeding {
        ReleaseCuts(choices, t0, t, trail);
        TrailReleased(prefix, w0, w1, Now(), reservations, prunes, n, rows, done, reported);
        return;
      }
      assert reservations[..n] == reservations;
      StillDroppable(reservations, prunes, w1.ledger, rows);
      ghost var t1, w2 := t, Now();
      t, out, deletions, m, deleted := PruneAll(prunes, choices, t, prefix, w0, rows, done, reported);
      trail := Trail(reservations, prunes, n, m, deleted);
      PruneCuts(choices, t0, t1, t, out, trail);
      TrailPruned(prefix, w0, w1, w2, Now(), trail, rows, done, reported);
    }

    /** Releases and prunes what the pass over the rows left undesired. */
    method DropUndesired(ghost prefix: string, ghost manifest: seq<ManifestEntry>, ghost teardown: bool,
        ghost done: set<Key>, rows: seq<DesiredRow>, index: map<Key, LedgerEntry>, delivered: seq<Change>,
        choices: Choices, t0: nat, ghost w0: World)
      returns (out: Outcome, changes: seq<Change>, ghost trail: Trail)
      requires ManifestOk(prefix, manifest) && rows == DesiredRows(prefix, manifest, !teardown) && DistinctKeys(rows)
      requires Passed(w0, Now(), index, rows, done) && LedgerOk(index) && NoConflict(w0, Goal(rows), done)
      requires Moment(w0, Now(), Goal(rows), done) && Kept(w0, Now(), rows, done, ChangeKeys(delivered))
      requires Elements(delivered) == RowChanges(rows, done, w0.ledger)
      modifies this
      ensures RunEffect(rows, done, w0, Now(), out, changes)
      ensures (out == Proceeding || out == Stopped) && (Smooth(choices) ==> out == Proceeding)
      ensures Bracketed(prefix, old(Now())) && BracketedRun(prefix, manifest, teardown, done, w0) ==>
        Bracketed(prefix, Now())
      ensures Trails(rows, index, trail) && LeadsTo(old(Now()), trail, Now()) && CutsAt(choices, t0, trail)
    {
      ghost var w1 := Now();
      var reservations, prunes := Undesired(rows, index);
      DropsReady(prefix, manifest, teardown, done, w0, w1, index, reservations, prunes);
      var deletions;
      out, deletions, trail :=
        DropAll(reservations, prunes, choices, t0, prefix, w0, rows, done, ChangeKeys(delivered));
      changes := delivered + deletions;
      DropsEnd(w0, w1, Now(), index, rows, done, trail, delivered, deletions, out);
    }

    /** A whole run, from a manifest to the reported changes. */
    method Sync(prefix: string, manifest: seq<ManifestEntry>, teardown: bool, completed: set<Key>, choices: Choices)
      returns (out: Outcome, changes: seq<Change>)
      requires LedgerOk(ledger)
      modifies this
      ensures out == Invalid <==> !ManifestOk(prefix, manifest) || !IndexOk(old(ledger))
      ensures out == Invalid ==> Now() == old(Now()) && changes == []
      ensures ManifestOk(prefix, manifest) ==>
        RunEffect(DesiredRows(prefix, manifest, !teardown), completed, old(Now()), Now(), out, changes)
      ensures
        Smooth(choices) && NoConflict(old(Now()), Goal(DesiredRows(prefix, manifest, !teardown)), completed) ==>
        out == Invalid || out == Proceeding
      ensures Bracketed(prefix, old(Now())) && BracketedRun(prefix, manifest, teardown, completed, old(Now())) ==>
        Bracketed(prefix, Now())
      ensures teardown && manifest == [] && out != Invalid ==> CutOf(old(Now()), Now())
      ensures teardown && manifest == [] && out != Invalid ==>
        forall k, d :: Claimed(old(ledger), k) && CutsKey(choices, old(ledger), k, d) ==>
          Now() == CutWorld(old(Now()), Pruning(k, d))
    {
      out, changes := Invalid, [];
      var valid := ValidateManifest(prefix, manifest);
      if !valid || !IndexOk(ledger) {
        if valid { DesiredRowsShape(prefix, manifest, !teardown); }
        return;
      }
      var rows := BuildDesiredRows(prefix, manifest, !teardown);
      DesiredRowsShape(prefix, manifest, !teardown);
      var index, t;
      ghost var w0 := Now();
      if !teardown && BracketedRun(prefix, manifest, teardown, completed, w0) {
        ConvergeBrings(prefix, manifest, completed, w0);
      }
      if teardown && manifest == [] { TeardownWantsNothing(prefix); }
      index, t, out, changes := SyncRows(rows, completed, choices, 0, prefix);
      if out != Proceeding { return; }
      if rows == [] { UntouchedByNothing(w0, Now(), index, completed); }
      ghost var trail;
      out, changes, trail := DropUndesired(prefix, manifest, teardown, completed, rows, index, changes, choices, t, w0);
      if rows == [] {
        IndexIsLedger(w0, w0, index, completed);
        EmptyRun(w0, trail, Now(), choices);
      }
    }

    /** Cuts an empty teardown at the deletion of k. */
    method CutTeardown(prefix: string, k: Key, deleted: bool)
      requires LedgerOk(ledger) && IndexOk(ledger) && Claimed(ledger, k)
      modifies this
      ensures Now() == CutWorld(old(Now()), Pruning(k, deleted))
    {
      var choices := CutChoices(ledger, k, deleted);
      assert CutsKey(choices, ledger, k, deleted);
      var out, changes := Sync(prefix, [], true, {}, choices);
    }

    /** The predicted changes of a converge run. */
    method Plan(prefix: string, manifest: seq<ManifestEntry>) returns (plan: Option<seq<Change>>)
      ensures plan.Some? <==> ManifestOk(prefix, manifest) && IndexOk(ledger)
      ensures plan.Some? ==>
        Elements(plan.value) == Planned(DesiredRows(prefix, manifest, true), ledger, SecretNames(provider))
    {
      var valid := ValidateManifest(prefix, manifest);
      if !valid || !IndexOk(ledger) { return None; }
      var rows := BuildDesiredRows(prefix, manifest, true);
      var changes := PlanChanges(rows, ledger, SecretNames(provider));
      return Some(changes);
    }

    /** A plan and then the run it announces.  With an upper-case prefix, no planned
        conflict and no unclaimed variable under a desired name, the run meets no
        conflict, a run without failures succeeds, and success reports the plan. */
    method PlanThenSync(prefix: string, manifest: seq<ManifestEntry>, choices: Choices)
      returns (plan: Option<seq<Change>>, out: Outcome, changes: seq<Change>)
      requires LedgerOk(ledger)
      modifies this
      ensures plan.None? <==> out == Invalid
      ensures plan.Some? && Predictable(prefix, manifest, plan.value, old(Now())) ==>
        && out != Conflicted && (Smooth(choices) ==> out == Proceeding)
        && (out == Proceeding ==> Elements(changes) == set c | c in plan.value :: Realized(c))
    {
      plan := Plan(prefix, manifest);
      ghost var w := Now();
      if plan.Some? && Predictable(prefix, manifest, plan.value, w) {
        assert forall c :: c in plan.value <==> c in Elements(plan.value);
        PlanPredictsSync(prefix, manifest, w);
      }
      out, changes := Sync(prefix, manifest, false, {}, choices);
    }

    /** One job: any number of runs cut anywhere, each followed either by a resume
        that skips the names reported so far or by a restart that has forgotten
        them, and then a run without failures. */
    method Job(prefix: string, manifest: seq<ManifestEntry>, teardown: bool, cuts: seq<(Choices, bool)>, last: Choices)
      returns (out: Outcome)
      requires LedgerOk(ledger) && IndexOk(ledger) && ManifestOk(prefix, manifest) && Smooth(last)
      requires NoConflict(Now(), Goal(DesiredRows(prefix, manifest, !teardown)), {})
      modifies this
      ensures out == Proceeding && Now() == Final(old(Now()), Goal(DesiredRows(prefix, manifest, !teardown)), {})
    {
      ghost var w0, rows := Now(), DesiredRows(prefix, manifest, !teardown);
      DesiredRowsShape(prefix, manifest, !teardown);
      var completed: set<Key> := {};
      for i := 0 to |cuts|
        invariant Resumable(w0, Now(), rows, completed)
      {
        ghost var w := Now();
        var changes;
        out, changes := Sync(prefix, manifest, teardown, completed, cuts[i].0);
        RunResumable(w0, w, Now(), rows, completed, out, changes);
        completed := if cuts[i].1 then {} else completed + ChangeKeys(changes);
      }
      DoneIsSkippable(Now(), rows, completed);
      var changes;
      out, changes := Sync(prefix, manifest, teardown, completed, last);
    }
  }
}
