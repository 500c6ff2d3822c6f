/** The adapter ownership ledger: names, keys, the rows a manifest desires, what a
    plan predicts and what a sync will have to release or prune. */
module Ledger {
  import opened Options
  import opened Ordering

  const SENTINEL_NAME := "MANAGED_BY_HIKYO"

  datatype Surface = Secret | Variable

  datatype Classification = SecretClass | ConfigClass | UnknownClass

  datatype LedgerState = Reserved | Dispatched | Owned

  datatype ManifestEntry = ManifestEntry(keyID: string, canonicalName: string, classification: Classification,
    value: string)

  datatype LedgerEntry = LedgerEntry(surface: Surface, name: string, state: LedgerState, missing: bool)

  /** A desired row; the management sentinels are the rows without a key id. */
  datatype DesiredRow = DesiredRow(keyID: string, value: string, surface: Surface, name: string)

  datatype Disposition = Create | Update | Delete | Conflict | Unknown

  datatype Change = Change(surface: Surface, name: string, disposition: Disposition)

  datatype Key = Key(surface: Surface, name: string)

  function UpperChar(c: char): char {
    if 'a' <= c <= 'z' then ('A' as int + (c as int - 'a' as int)) as char else c
  }

  function Upper(s: string): string {
    seq(|s|, i requires 0 <= i < |s| => UpperChar(s[i]))
  }

  function NewKey(surface: Surface, name: string): Key {
    Key(surface, Upper(name))
  }

  function RowKey(row: DesiredRow): Key {
    NewKey(row.surface, row.name)
  }

  function EntryKey(e: LedgerEntry): Key {
    NewKey(e.surface, e.name)
  }

  // ---- Manifest validation -----------------------------------------------------

  function SurfaceOf(e: ManifestEntry): Surface {
    if e.classification == ConfigClass then Variable else Secret
  }

  predicate HeadChar(c: char) { 'A' <= c <= 'Z' || c == '_' }

  predicate TailChar(c: char) { HeadChar(c) || '0' <= c <= '9' }

  /** Upper-case identifier syntax: a letter or underscore, then also digits. */
  predicate IdentifierName(s: string) {
    0 < |s| && HeadChar(s[0]) && forall i :: 0 <= i < |s| ==> TailChar(s[i])
  }

  predicate HasPrefix(s: string, prefix: string) { prefix <= s }

  predicate HasSuffix(s: string, suffix: string) {
    |suffix| <= |s| && s[|s| - |suffix|..] == suffix
  }

  predicate EntryOk(prefix: string, e: ManifestEntry) {
    var name := prefix + e.canonicalName;
    && e.classification != UnknownClass
    && name != prefix + SENTINEL_NAME
    && |name| <= 128
    && IdentifierName(name)
    && !HasPrefix(name, "FORGEJO_") && !HasPrefix(name, "GITHUB_") && !HasPrefix(name, "GITEA_")
    && !(e.classification == ConfigClass && name == "CI")
    && '\r' !in e.value
  }

  /** Every entry is deliverable byte-exactly and no two names collide. */
  predicate ManifestOk(prefix: string, entries: seq<ManifestEntry>) {
    && (forall i :: 0 <= i < |entries| ==> EntryOk(prefix, entries[i]))
    && (forall i, j :: 0 <= i < j < |entries| ==>
      Upper(prefix + entries[i].canonicalName) != Upper(prefix + entries[j].canonicalName))
  }

  method ValidateManifest(prefix: string, entries: seq<ManifestEntry>) returns (ok: bool)
    ensures ok <==> ManifestOk(prefix, entries)
  {
    var seen: set<string> := {};
    for i := 0 to |entries|
      invariant ManifestOk(prefix, entries[..i])
      invariant seen == set k | 0 <= k < i :: Upper(prefix + entries[k].canonicalName)
    {
      assert entries[..i + 1][i] == entries[i];
      assert forall k :: 0 <= k < i ==> entries[..i + 1][k] == entries[..i][k] == entries[k];
      if !EntryOk(prefix, entries[i]) { return false; }
      var normalized := Upper(prefix + entries[i].canonicalName);
      if normalized in seen { return false; }
      seen := seen + {normalized};
    }
    assert entries[..|entries|] == entries;
    return true;
  }

  lemma IdentifierIsUpper(s: string)
    requires IdentifierName(s)
    ensures Upper(s) == s
  {
  }

  // ---- Index ---------------------------------------------------------------------

  predicate MissingOk(state: LedgerState, missing: bool) {
    missing ==> state == Owned || state == Dispatched
  }

  /** The last row of each key, the way repeated assignment leaves it. */
  ghost function Indexed(rows: seq<LedgerEntry>): map<Key, LedgerEntry> {
    if rows == [] then map[] else Indexed(rows[..|rows| - 1])[EntryKey(rows[|rows| - 1]) := rows[|rows| - 1]]
  }

  method IndexLedger(rows: seq<LedgerEntry>) returns (out: Option<map<Key, LedgerEntry>>)
    ensures out.Some? <==> forall i :: 0 <= i < |rows| ==> MissingOk(rows[i].state, rows[i].missing)
    ensures out.Some? ==> out.value == Indexed(rows) && LedgerOk(out.value)
  {
    var index: map<Key, LedgerEntry> := map[];
    for i := 0 to |rows|
      invariant index == Indexed(rows[..i]) && LedgerOk(index)
      invariant forall k :: 0 <= k < i ==> MissingOk(rows[k].state, rows[k].missing)
    {
      if !MissingOk(rows[i].state, rows[i].missing) { return None; }
      index := index[EntryKey(rows[i]) := rows[i]];
      assert rows[..i + 1][..i] == rows[..i];
    }
    assert rows[..|rows|] == rows;
    return Some(index);
  }

  /** Every row sits under its own key. */
  ghost predicate LedgerOk(ledger: map<Key, LedgerEntry>) {
    forall k :: k in ledger ==> EntryKey(ledger[k]) == k
  }

  /** Claimed rows are the ones whose name is, or may be, ours at the provider. */
  predicate Claimed(ledger: map<Key, LedgerEntry>, k: Key) {
    k in ledger && ledger[k].state != Reserved
  }

  // ---- Desired rows -----------------------------------------------------------------

  predicate SurfaceLeq(a: Surface, b: Surface) { a == Secret || b == Variable }

  predicate RowLeq(a: DesiredRow, b: DesiredRow) {
    if (a.keyID == "") != (b.keyID == "") then a.keyID == ""
    else if a.surface != b.surface then SurfaceLeq(a.surface, b.surface)
    else NameLeq(a.name, b.name)
  }

  function Sentinel(prefix: string, surface: Surface): DesiredRow {
    DesiredRow("", SENTINEL_NAME, surface, prefix + SENTINEL_NAME)
  }

  function ManifestRows(prefix: string, manifest: seq<ManifestEntry>): seq<DesiredRow> {
    seq(|manifest|, i requires 0 <= i < |manifest| =>
      DesiredRow(manifest[i].keyID, manifest[i].value, SurfaceOf(manifest[i]), prefix + manifest[i].canonicalName))
  }

  function DesiredRows(prefix: string, manifest: seq<ManifestEntry>, sentinels: bool): seq<DesiredRow> {
    var first := if sentinels then [Sentinel(prefix, Secret), Sentinel(prefix, Variable)] else [];
    Sort(RowLeq, first + ManifestRows(prefix, manifest))
  }

  lemma RowLeqIsOrder()
    ensures TotalPreorder(RowLeq)
  {
    forall a, b ensures RowLeq(a, b) || RowLeq(b, a) { NameLeqTotal(a.name, b.name); }
    forall a, b, c | RowLeq(a, b) && RowLeq(b, c) ensures RowLeq(a, c) {
      if NameLeq(a.name, b.name) && NameLeq(b.name, c.name) { NameLeqTransitive(a.name, b.name, c.name); }
    }
  }

  predicate DistinctKeys(rows: seq<DesiredRow>) {
    forall i, j :: 0 <= i < j < |rows| ==> RowKey(rows[i]) != RowKey(rows[j])
  }

  predicate SentinelsFirst(rows: seq<DesiredRow>) {
    forall i, j :: 0 <= i < j < |rows| && rows[j].keyID == "" ==> rows[i].keyID == ""
  }

  lemma SortMembers<T>(leq: (T, T) -> bool, s: seq<T>, x: T)
    ensures x in Sort(leq, s) <==> x in s
  {
    SortPermutes(leq, s);
    assert x in s <==> x in multiset(s);
    assert x in Sort(leq, s) <==> x in multiset(Sort(leq, s));
  }

  lemma {:induction false} InsertDistinct(x: DesiredRow, s: seq<DesiredRow>)
    requires DistinctKeys(s) && forall i :: 0 <= i < |s| ==> RowKey(s[i]) != RowKey(x)
    ensures DistinctKeys(Insert(RowLeq, x, s))
  {
    if s != [] && !RowLeq(s[|s| - 1], x) {
      var front, last := s[..|s| - 1], s[|s| - 1];
      InsertDistinct(x, front);
      InsertPermutes(RowLeq, x, front);
      var r := Insert(RowLeq, x, front);
      forall i | 0 <= i < |r| ensures RowKey(r[i]) != RowKey(last) {
        assert r[i] in multiset(r);
        if r[i] != x { assert r[i] in front; }
      }
    }
  }

  lemma {:induction false} SortDistinct(s: seq<DesiredRow>)
    requires DistinctKeys(s)
    ensures DistinctKeys(Sort(RowLeq, s))
  {
    if s != [] {
      var front := s[..|s| - 1];
      SortDistinct(front);
      forall i | 0 <= i < |Sort(RowLeq, front)| ensures RowKey(Sort(RowLeq, front)[i]) != RowKey(s[|s| - 1]) {
        SortMembers(RowLeq, front, Sort(RowLeq, front)[i]);
      }
      InsertDistinct(s[|s| - 1], Sort(RowLeq, front));
    }
  }

  /** The rows a valid manifest desires: exactly the manifest and, unless tearing
      down, the two sentinels; one row per key; sentinels before everything. */
  lemma DesiredRowsShape(prefix: string, manifest: seq<ManifestEntry>, sentinels: bool)
    requires ManifestOk(prefix, manifest)
    ensures
      var rows := DesiredRows(prefix, manifest, sentinels);
      && DistinctKeys(rows) && SentinelsFirst(rows)
      && forall r :: r in rows <==>
        || r in ManifestRows(prefix, manifest)
        || (sentinels && (r == Sentinel(prefix, Secret) || r == Sentinel(prefix, Variable)))
  {
    var head := if sentinels then [Sentinel(prefix, Secret), Sentinel(prefix, Variable)] else [];
    var raw := head + ManifestRows(prefix, manifest);
    RowLeqIsOrder();
    SortSorts(RowLeq, raw);
    forall i, j | 0 <= i < j < |raw| ensures RowKey(raw[i]) != RowKey(raw[j]) {
      if |head| <= j {
        assert EntryOk(prefix, manifest[j - |head|]);
        SentinelNameTaken(prefix, manifest[j - |head|]);
      }
    }
    SortDistinct(raw);
    forall r ensures r in DesiredRows(prefix, manifest, sentinels) <==> r in raw { SortMembers(RowLeq, raw, r); }
  }

  /** No deliverable name collides with the sentinel, even up to letter case. */
  lemma SentinelNameTaken(prefix: string, e: ManifestEntry)
    requires EntryOk(prefix, e)
    ensures Upper(prefix + SENTINEL_NAME) != Upper(prefix + e.canonicalName)
  {
    var a, b := prefix + SENTINEL_NAME, prefix + e.canonicalName;
    IdentifierIsUpper(b);
    forall i | 0 <= i < |a| ensures UpperChar(a[i]) == a[i] {
      if i < |prefix| { assert a[i] == b[i] && TailChar(b[i]); }
    }
    assert Upper(a) == a;
  }

  method BuildDesiredRows(prefix: string, manifest: seq<ManifestEntry>, sentinels: bool) returns (rows: seq<DesiredRow>)
    ensures rows == DesiredRows(prefix, manifest, sentinels)
  {
    rows := [];
    if sentinels { rows := [Sentinel(prefix, Secret), Sentinel(prefix, Variable)]; }
    ghost var head := rows;
    for i := 0 to |manifest|
      invariant rows == head + ManifestRows(prefix, manifest)[..i]
    {
      var e := manifest[i];
      rows := rows + [DesiredRow(e.keyID, e.value, SurfaceOf(e), prefix + e.canonicalName)];
    }
    assert ManifestRows(prefix, manifest)[..|manifest|] == ManifestRows(prefix, manifest);
    rows := Sort(RowLeq, rows);
  }

  function DesiredKeys(rows: seq<DesiredRow>): set<Key> {
    set r | r in rows :: RowKey(r)
  }

  // ---- Planning ----------------------------------------------------------------------

  predicate ChangeLeq(a: Change, b: Change) {
    if a.surface != b.surface then SurfaceLeq(a.surface, b.surface) else NameLeq(a.name, b.name)
  }

  /** A name the ledger says we already hold at the provider. */
  predicate Held(ledger: map<Key, LedgerEntry>, k: Key) {
    Claimed(ledger, k) && !ledger[k].missing
  }

  function PlannedRow(row: DesiredRow, ledger: map<Key, LedgerEntry>, providerSecrets: set<string>): Change {
    var k := RowKey(row);
    Change(row.surface, row.name,
           if Held(ledger, k) then Update
           else if row.surface == Secret && row.name in providerSecrets then Conflict
           else if row.surface == Variable && k !in ledger then Unknown
           else Create)
  }

  function Deletions(rows: seq<DesiredRow>, ledger: map<Key, LedgerEntry>): set<Change> {
    set k | k in ledger && k !in DesiredKeys(rows) && Claimed(ledger, k) ::
      Change(ledger[k].surface, ledger[k].name, Delete)
  }

  function PlannedRows(rows: seq<DesiredRow>, ledger: map<Key, LedgerEntry>,
      providerSecrets: set<string>): set<Change>
  {
    set r | r in rows :: PlannedRow(r, ledger, providerSecrets)
  }

  function Planned(rows: seq<DesiredRow>, ledger: map<Key, LedgerEntry>, providerSecrets: set<string>): set<Change> {
    PlannedRows(rows, ledger, providerSecrets) + Deletions(rows, ledger)
  }

  function Elements<T>(s: seq<T>): set<T> {
    set x | x in s
  }

  lemma PlannedSnoc(rows: seq<DesiredRow>, r: DesiredRow, ledger: map<Key, LedgerEntry>, secrets: set<string>)
    ensures PlannedRows(rows + [r], ledger, secrets) ==
      PlannedRows(rows, ledger, secrets) + {PlannedRow(r, ledger, secrets)}
  {
    assert forall x :: x in rows + [r] <==> x in rows || x == r;
  }

  method PlanChanges(desired: seq<DesiredRow>, ledger: map<Key, LedgerEntry>, providerSecrets: set<string>)
    returns (changes: seq<Change>)
    ensures Elements(changes) == Planned(desired, ledger, providerSecrets)
    ensures Sorted(ChangeLeq, changes)
  {
    changes := [];
    var desiredSet: set<Key> := {};
    for i := 0 to |desired|
      invariant desiredSet == DesiredKeys(desired[..i])
      invariant Elements(changes) == PlannedRows(desired[..i], ledger, providerSecrets)
    {
      desiredSet := desiredSet + {RowKey(desired[i])};
      changes := changes + [PlannedRow(desired[i], ledger, providerSecrets)];
      assert desired[..i + 1] == desired[..i] + [desired[i]];
      PlannedSnoc(desired[..i], desired[i], ledger, providerSecrets);
    }
    assert desired[..|desired|] == desired;
    ghost var rows := changes;
    var rest := ledger.Keys;
    while rest != {}
      invariant rest <= ledger.Keys
      invariant Elements(changes) == Elements(rows)
        + set k | k in ledger && k !in rest && k !in desiredSet && Claimed(ledger, k) ::
          Change(ledger[k].surface, ledger[k].name, Delete)
    {
      var k :| k in rest;
      rest := rest - {k};
      if k !in desiredSet && ledger[k].state != Reserved {
        changes := changes + [Change(ledger[k].surface, ledger[k].name, Delete)];
      }
    }
    ghost var unsorted := changes;
    changes := Sort(ChangeLeq, changes);
    forall c ensures c in changes <==> c in unsorted { SortMembers(ChangeLeq, unsorted, c); }
    ChangeLeqIsOrder();
    SortSorts(ChangeLeq, unsorted);
  }

  lemma ChangeLeqIsOrder()
    ensures TotalPreorder(ChangeLeq)
  {
    forall a, b ensures ChangeLeq(a, b) || ChangeLeq(b, a) { NameLeqTotal(a.name, b.name); }
    forall a, b, c | ChangeLeq(a, b) && ChangeLeq(b, c) ensures ChangeLeq(a, c) {
      if NameLeq(a.name, b.name) && NameLeq(b.name, c.name) { NameLeqTransitive(a.name, b.name, c.name); }
    }
  }

  // ---- What is no longer desired --------------------------------------------------------

  predicate LooksSentinel(e: LedgerEntry) { HasSuffix(e.name, SENTINEL_NAME) }

  predicate EntryLeq(a: LedgerEntry, b: LedgerEntry) {
    if a.surface != b.surface then SurfaceLeq(a.surface, b.surface) else NameLeq(a.name, b.name)
  }

  predicate PruneLeq(a: LedgerEntry, b: LedgerEntry) {
    if LooksSentinel(a) != LooksSentinel(b) then LooksSentinel(b) else EntryLeq(a, b)
  }

  lemma PruneLeqIsOrder()
    ensures TotalPreorder(PruneLeq)
  {
    forall a, b ensures PruneLeq(a, b) || PruneLeq(b, a) { NameLeqTotal(a.name, b.name); }
    forall a, b, c | PruneLeq(a, b) && PruneLeq(b, c) ensures PruneLeq(a, c) {
      if NameLeq(a.name, b.name) && NameLeq(b.name, c.name) { NameLeqTransitive(a.name, b.name, c.name); }
    }
  }

  /** The order decides between any two names of one ledger. */
  lemma PruneLeqAntisymmetric(a: LedgerEntry, b: LedgerEntry)
    requires PruneLeq(a, b) && PruneLeq(b, a)
    ensures EntryKey(a) == EntryKey(b)
  {
    NameLeqAntisymmetric(a.name, b.name);
  }

  ghost predicate NoDuplicates<T>(s: seq<T>) {
    forall i, j :: 0 <= i < j < |s| ==> s[i] != s[j]
  }

  lemma CountedTwice<T>(s: seq<T>, i: nat, j: nat)
    requires i < j < |s| && s[i] == s[j]
    ensures 2 <= multiset(s)[s[i]]
  {
    assert s == s[..j] + [s[j]] + s[j + 1..];
    assert s[i] in s[..j];
    assert s[i] in multiset(s[..j]);
  }

  lemma {:induction false} CountedOnce<T>(s: seq<T>, x: T)
    requires NoDuplicates(s)
    ensures multiset(s)[x] <= 1
  {
    if s != [] {
      var front := s[..|s| - 1];
      CountedOnce(front, x);
      assert s == front + [s[|s| - 1]];
      if x == s[|s| - 1] { assert x !in front; assert x !in multiset(front); }
    }
  }

  lemma SortUnique<T>(leq: (T, T) -> bool, s: seq<T>)
    requires NoDuplicates(s)
    ensures NoDuplicates(Sort(leq, s))
  {
    SortPermutes(leq, s);
    var r := Sort(leq, s);
    forall i, j | 0 <= i < j < |r| ensures r[i] != r[j] {
      CountedOnce(s, r[i]);
      if r[i] == r[j] { CountedTwice(r, i, j); }
    }
  }

  /** The undesired rows: bare reservations to release and claimed names to prune,
      names that look like a sentinel pruned after everything else. */
  method Undesired(desired: seq<DesiredRow>, ledger: map<Key, LedgerEntry>)
    returns (reservations: seq<LedgerEntry>, prunes: seq<LedgerEntry>)
    requires LedgerOk(ledger)
    ensures forall e :: e in reservations <==>
      EntryKey(e) in ledger && ledger[EntryKey(e)] == e && EntryKey(e) !in DesiredKeys(desired) && e.state == Reserved
    ensures forall e :: e in prunes <==>
      EntryKey(e) in ledger && ledger[EntryKey(e)] == e && EntryKey(e) !in DesiredKeys(desired) && e.state != Reserved
    ensures Sorted(PruneLeq, prunes) && NoDuplicates(prunes) && NoDuplicates(reservations)
  {
    var desiredSet: set<Key> := {};
    for i := 0 to |desired|
      invariant desiredSet == DesiredKeys(desired[..i])
    {
      desiredSet := desiredSet + {RowKey(desired[i])};
      assert desired[..i + 1] == desired[..i] + [desired[i]];
    }
    assert desired[..|desired|] == desired;
    reservations, prunes := [], [];
    var rest := ledger.Keys;
    while rest != {}
      invariant rest <= ledger.Keys && NoDuplicates(reservations) && NoDuplicates(prunes)
      invariant forall e :: e in reservations <==>
        EntryKey(e) in ledger.Keys - rest && ledger[EntryKey(e)] == e && EntryKey(e) !in desiredSet &&
        e.state == Reserved
      invariant forall e :: e in prunes <==>
        EntryKey(e) in ledger.Keys - rest && ledger[EntryKey(e)] == e && EntryKey(e) !in desiredSet &&
        e.state != Reserved
    {
      var k :| k in rest;
      rest := rest - {k};
      if k !in desiredSet {
        if ledger[k].state == Reserved {
          reservations := reservations + [ledger[k]];
        } else {
          prunes := prunes + [ledger[k]];
        }
      }
    }
    ghost var found, claimed := reservations, prunes;
    reservations := Sort(EntryLeq, reservations);
    SortUnique(EntryLeq, found);
    forall e ensures e in reservations <==> e in found { SortMembers(EntryLeq, found, e); }
    prunes := Sort(PruneLeq, prunes);
    SortUnique(PruneLeq, claimed);
    forall e ensures e in prunes <==> e in claimed { SortMembers(PruneLeq, claimed, e); }
    PruneLeqIsOrder();
    SortSorts(PruneLeq, claimed);
  }
}
