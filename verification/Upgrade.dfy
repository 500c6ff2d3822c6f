/** The automatic upgrade: a host journal and the database's pending operation
    are two durable state machines that advance in turn over a route of hops,
    with a crash or an error possible at every action.

    Identities and digests are opaque values.  The host and the database are
    abstract actors: each action takes the next `Choice`, which says whether it
    returns, fails or never returns because the coordinator died, and how much
    of its durable effect landed before that. */
module Upgrade {
  import opened Options
  import opened Faults

  type Digest = nat
  type Identity = nat

  datatype Source = Genesis(legacy: bool) | Release(id: Identity)

  datatype Step = Step(
    source: Source, target: Identity,
    sourceMigrations: Digest, targetMigrations: Digest, sourceSchema: Digest, targetSchema: Digest)

  /** An authenticated route; its source is the source of its first step. */
  datatype Plan = Plan(digest: Digest, steps: seq<Step>)

  /** What the planner guarantees of a route it returns: each hop starts from the
      release, migrations and schema that the previous one ends with, and no hop
      stays in place, because release sequences strictly increase. */
  predicate RouteOk(p: Plan) {
    && 0 < |p.steps|
    && (forall i :: 0 <= i < |p.steps| ==> p.steps[i].source != Release(p.steps[i].target))
    && (forall i :: 0 <= i < |p.steps| - 1 ==>
      && p.steps[i + 1].source == Release(p.steps[i].target)
      && p.steps[i + 1].sourceMigrations == p.steps[i].targetMigrations
      && p.steps[i + 1].sourceSchema == p.steps[i].targetSchema)
  }

  // ---- Database --------------------------------------------------------------

  datatype Phase = Prepared | SchemaWriteStarted | SchemaApplied | Healthy | RestoreRequired

  datatype Operation = Operation(
    isUpgrade: bool, invalidated: bool, routeDigest: Digest, routeSource: Source,
    source: Source, target: Identity, hop: nat, routeLength: nat,
    sourceMigrations: Digest, targetMigrations: Digest, sourceSchema: Digest, targetSchema: Digest, phase: Phase)

  datatype Control = Control(
    instance: Digest, applied: Source, migrations: Digest, schema: Digest, maintenance: bool, pending: Operation)

  /** The physical schema: measured, or torn while migrations are running. */
  datatype Catalog = Catalog(migrations: Digest, schema: Digest) | Torn

  /** `genesis` and `instance` identify a database that has no control record. */
  datatype Database = Database(control: Option<Control>, catalog: Catalog, genesis: Source, instance: Digest)

  /** The validity that every read of the control record enforces. */
  predicate ControlOk(c: Control) {
    var p := c.pending;
    if p.invalidated then c.maintenance && p.phase == RestoreRequired
    else if p.phase == Healthy then
      && c.maintenance == (p.hop + 1 < p.routeLength) && c.applied == Release(p.target)
      && c.migrations == p.targetMigrations && c.schema == p.targetSchema
    else
      && c.maintenance && c.applied == p.source && c.migrations == p.sourceMigrations && c.schema == p.sourceSchema
  }

  datatype Installed = Installed(instance: Digest, source: Source, migrations: Digest, schema: Digest)

  /** The installed source, measured against the real catalog. */
  function InspectInstalled(db: Database, manifest: Digest): Option<Installed> {
    if db.catalog.Torn? || db.catalog.migrations != manifest then None
    else if db.control.None? then Some(Installed(db.instance, db.genesis, manifest, db.catalog.schema))
    else
      var c := db.control.value;
      if c.migrations != manifest || c.schema != db.catalog.schema then None
      else Some(Installed(c.instance, c.applied, manifest, c.schema))
  }

  // ---- Journal ----------------------------------------------------------------

  datatype JournalPhase = Preparing | Proved | WriteIntent | SchemaWritten | HopHealthy | NeedsRestore | Complete

  datatype Journal = Journal(
    phase: JournalPhase, hop: nat, target: Identity, source: Source,
    sourceMigrations: Digest, sourceSchema: Digest, instance: Digest, route: Digest)

  /** Whether a journal, present or not, names this route at a usable position. */
  predicate ValidPosition(p: Plan, journal: Option<Journal>) {
    && journal.Some? && 0 < |p.steps|
    && var j := journal.value;
    && j.target == p.steps[|p.steps| - 1].target && j.route == p.digest && j.source == p.steps[0].source
    && j.sourceSchema == p.steps[0].sourceSchema && j.sourceMigrations == p.steps[0].sourceMigrations
    && j.instance != 0 && j.hop <= |p.steps|
    && match j.phase
       case Proved => j.hop == 0
       case HopHealthy => j.hop != 0
       case WriteIntent => j.hop != |p.steps|
       case SchemaWritten => j.hop != |p.steps|
       case _ => false
  }

  predicate ValidPending(c: Control, j: Journal, p: Plan, i: nat) {
    && i < |p.steps|
    && var q, step := c.pending, p.steps[i];
    && c.instance == j.instance && q.isUpgrade && !q.invalidated && q.routeDigest == j.route
    && q.routeSource == j.source
    && q.source == step.source && q.target == step.target && q.hop == i && q.routeLength == |p.steps|
    && q.sourceMigrations == step.sourceMigrations && q.targetMigrations == step.targetMigrations
    && q.sourceSchema == step.sourceSchema && q.targetSchema == step.targetSchema
  }

  predicate ValidHealthy(c: Control, j: Journal, p: Plan, i: nat) {
    && ValidPending(c, j, p, i)
    && c.pending.phase == Healthy && c.applied == Release(p.steps[i].target)
    && c.migrations == p.steps[i].targetMigrations && c.schema == p.steps[i].targetSchema
    && c.maintenance != (i == |p.steps| - 1)
  }

  /** The result of reading the control record. */
  datatype Read = Unreadable | Absent | Found(control: Control)

  datatype Disposition = Refuse | Skip | Migrate

  /** Whether hop i still has to be migrated, given what was read. */
  function MigrationDisposition(read: Read, installed: Option<Installed>, j: Journal, p: Plan, i: nat): Disposition
    requires i < |p.steps|
  {
    var step := p.steps[i];
    var measured := installed == Some(Installed(j.instance, step.source, step.sourceMigrations, step.sourceSchema));
    if read.Unreadable? then Refuse
    else if read.Found? && ValidPending(read.control, j, p, i) then
      match read.control.pending.phase
      case SchemaApplied => if j.phase == WriteIntent || j.phase == SchemaWritten then Skip else Refuse
      case Healthy => if j.phase == WriteIntent || j.phase == SchemaWritten then Skip else Refuse
      case Prepared => if j.phase == WriteIntent && measured then Migrate else Refuse
      case _ => Refuse
    else if j.phase == SchemaWritten then Refuse
    else if read.Absent? then
      if i == 0 && j.source == Genesis(true) && measured then Migrate else Refuse
    else if read.control.pending.invalidated || read.control.pending.phase != Healthy then Refuse
    else if 0 < i && !ValidHealthy(read.control, j, p, i - 1) then Refuse
    else if measured then Migrate else Refuse
  }

  // ---- Where the database stands on the route --------------------------------

  /** The exact control record of hop i in a phase. */
  function AtHop(p: Plan, instance: Digest, i: nat, phase: Phase): Control
    requires i < |p.steps|
  {
    var s := p.steps[i];
    var op := Operation(true, false, p.digest, p.steps[0].source, s.source, s.target, i, |p.steps|,
                        s.sourceMigrations, s.targetMigrations, s.sourceSchema, s.targetSchema, phase);
    if phase == Healthy
      then Control(instance, Release(s.target), s.targetMigrations, s.targetSchema, i + 1 < |p.steps|, op)
    else Control(instance, s.source, s.sourceMigrations, s.sourceSchema, true, op)
  }

  /** The measured schema that goes with a phase; a started write leaves any. */
  predicate CatalogFits(p: Plan, i: nat, phase: Phase, catalog: Catalog)
    requires i < |p.steps|
  {
    match phase
    case Prepared => catalog == Catalog(p.steps[i].sourceMigrations, p.steps[i].sourceSchema)
    case SchemaWriteStarted => true
    case _ => catalog == Catalog(p.steps[i].targetMigrations, p.steps[i].targetSchema)
  }

  predicate Pending(p: Plan, instance: Digest, db: Database, i: nat, phase: Phase) {
    i < |p.steps| && db.control == Some(AtHop(p, instance, i, phase)) && CatalogFits(p, i, phase, db.catalog)
  }

  /** The database is unchanged at the source of hop i: healthy at the previous
      hop, or, for the first hop, an unadopted legacy database or any healthy
      earlier operation whose applied release is the route's source. */
  predicate AtSource(p: Plan, instance: Digest, db: Database, i: nat) {
    && i < |p.steps|
    && var s := p.steps[i];
    && db.catalog == Catalog(s.sourceMigrations, s.sourceSchema)
    && if 0 < i then db.control == Some(AtHop(p, instance, i - 1, Healthy))
       else if db.control.None? then db.genesis == s.source == Genesis(true) && db.instance == instance
       else
         var c := db.control.value;
         && ControlOk(c) && c.pending.phase == Healthy && !c.pending.invalidated
         && c.instance == instance && c.applied == s.source && c.migrations == s.sourceMigrations
         && c.schema == s.sourceSchema
  }

  /** The journal and the database correspond. */
  predicate Corresponds(p: Plan, j: Journal, db: Database) {
    match j.phase
    case Preparing => j.hop == 0 && AtSource(p, j.instance, db, 0)
    case Proved => j.hop == 0 && AtSource(p, j.instance, db, 0)
    case WriteIntent =>
      || AtSource(p, j.instance, db, j.hop)
      || Pending(p, j.instance, db, j.hop, Prepared) || Pending(p, j.instance, db, j.hop, SchemaWriteStarted)
      || Pending(p, j.instance, db, j.hop, SchemaApplied) || Pending(p, j.instance, db, j.hop, Healthy)
      || Pending(p, j.instance, db, j.hop, RestoreRequired)
    case SchemaWritten =>
      || Pending(p, j.instance, db, j.hop, SchemaApplied) || Pending(p, j.instance, db, j.hop, Healthy)
      || Pending(p, j.instance, db, j.hop, RestoreRequired)
    case HopHealthy => 0 < j.hop && Pending(p, j.instance, db, j.hop - 1, Healthy)
    case NeedsRestore =>
      || Pending(p, j.instance, db, j.hop, SchemaApplied) || Pending(p, j.instance, db, j.hop, Healthy)
      || Pending(p, j.instance, db, j.hop, RestoreRequired)
    case Complete => j.hop == |p.steps| && 0 < j.hop && Pending(p, j.instance, db, j.hop - 1, Healthy)
  }

  /** The journal names this route and instance. */
  predicate Names(p: Plan, j: Journal) {
    && 0 < |p.steps|
    && j.target == p.steps[|p.steps| - 1].target && j.route == p.digest && j.source == p.steps[0].source
    && j.sourceSchema == p.steps[0].sourceSchema && j.sourceMigrations == p.steps[0].sourceMigrations
    && j.instance != 0
  }

  predicate Consistent(p: Plan, w: World) {
    Names(p, w.journal) && Corresponds(p, w.journal, w.db)
  }

  /** What is left after any part of a run: consistent, same installation. */
  predicate Survives(p: Plan, w0: World, w: World) {
    && Consistent(p, w) && w.journal.instance == w0.journal.instance
    && (w0.journal.phase != Preparing ==> w.journal.phase != Preparing)
  }

  /** A validated pending operation is the exact record of its hop, and back. */
  lemma ValidPendingIsExact(p: Plan, c: Control, j: Journal, i: nat)
    requires RouteOk(p) && Names(p, j) && i < |p.steps|
    ensures ControlOk(c) && ValidPending(c, j, p, i) <==> c == AtHop(p, j.instance, i, c.pending.phase)
    ensures ControlOk(c) ==> (ValidHealthy(c, j, p, i) <==> c == AtHop(p, j.instance, i, Healthy))
  {
  }

  /** For any journal of this route and any readable database: migrations are asked
      for exactly when the database is measured at the unchanged source of the hop
      and no write of it was published, or prepared under a recorded intent; they
      are skipped exactly when this hop's own write is recorded complete. */
  lemma DispositionIsExact(p: Plan, j: Journal, db: Database, i: nat)
    requires RouteOk(p) && Names(p, j) && i < |p.steps|
    requires db.control.Some? ==> ControlOk(db.control.value)
    ensures
      var d := MigrationDisposition(ReadControl(db), InspectInstalled(db, p.steps[i].sourceMigrations), j, p, i);
      && (d == Migrate <==>
        || (j.phase == WriteIntent && Pending(p, j.instance, db, i, Prepared))
        || (j.phase != SchemaWritten && AtSource(p, j.instance, db, i)))
      && (d == Skip <==>
        && (j.phase == WriteIntent || j.phase == SchemaWritten)
        && (db.control == Some(AtHop(p, j.instance, i, SchemaApplied)) ||
          db.control == Some(AtHop(p, j.instance, i, Healthy))))
  {
    if db.control.Some? {
      ValidPendingIsExact(p, db.control.value, j, i);
      if 0 < i { ValidPendingIsExact(p, db.control.value, j, i - 1); }
    }
  }

  // ---- Actions -----------------------------------------------------------------

  /** The service unit: what runs, which executable is installed, the durable fence
      that keeps it from starting, and the permission that exempts this boot. */
  datatype Service = Service(serving: bool, binary: Option<Identity>, fenced: bool, permitted: bool)

  /** Everything that survives the coordinator. */
  datatype World = World(journal: Journal, db: Database, service: Service)

  /** Nothing fails and every effect is complete. */
  ghost predicate Clean(choices: Choices) {
    Smooth(choices) && forall t :: choices(t).effect == 4
  }

  function ReadControl(db: Database): Read {
    if db.control.None? then Absent else Found(db.control.value)
  }

  function WriteJournal(w: World, j: Journal, c: Choice): World {
    if Lands(c) then w.(journal := j) else w
  }

  /** The fence goes up first, then the permission goes, then the unit stops. */
  function FenceAndStop(w: World, c: Choice): World {
    var done := if c.reply.Returned? then 3 else c.effect;
    w.(service := w.service.(
         fenced := w.service.fenced || 1 <= done, permitted := w.service.permitted && done < 2,
         serving := w.service.serving && done < 3))
  }

  function InstallBinary(w: World, target: Identity, c: Choice): World {
    if Lands(c) then w.(service := w.service.(binary := Some(target))) else w
  }

  /** The fence goes first, then the permission. */
  function CompleteService(w: World, c: Choice): World {
    if Lands(c) then w.(service := w.service.(fenced := false, permitted := w.service.permitted && !c.reply.Returned?))
    else w
  }

  /** The candidate's migrate command commits its boundaries one by one.  The
      host may only run it from the measured source or a prepared operation. */
  function RunMigrations(p: Plan, instance: Digest, db: Database, i: nat, effect: nat): (r: Database)
    requires AtSource(p, instance, db, i) || Pending(p, instance, db, i, Prepared)
    ensures effect == 0 ==> r == db
    ensures 4 <= effect ==> Pending(p, instance, r, i, SchemaApplied)
    ensures 0 < effect < 4 ==> Pending(p, instance, r, i, Prepared) || Pending(p, instance, r, i, SchemaWriteStarted)
  {
    var s := p.steps[i];
    var at := (phase: Phase) => Some(AtHop(p, instance, i, phase));
    if effect == 0 then db
    else if effect == 1 then db.(control := at(Prepared))
    else if effect == 2 then db.(control := at(SchemaWriteStarted), catalog := Torn)
    else if effect == 3
      then db.(control := at(SchemaWriteStarted), catalog := Catalog(s.targetMigrations, s.targetSchema))
    else db.(control := at(SchemaApplied), catalog := Catalog(s.targetMigrations, s.targetSchema))
  }

  /** Starting the candidate: its boot gate records health or its refusal.  A start that
      fails or is cut may leave the candidate permitted and running. */
  function StartCandidate(p: Plan, w: World, i: nat, c: Choice): World
    requires i < |p.steps|
  {
    var instance := w.journal.instance;
    var db := if Pending(p, instance, w.db, i, SchemaApplied) && 0 < c.effect
              then w.db.(control := Some(AtHop(p, instance, i, if c.effect == 1 then RestoreRequired else Healthy)))
              else w.db;
    var up := c.reply.Returned? || 0 < c.effect;
    w.(db := db, service := w.service.(serving := up || w.service.serving, permitted := up || w.service.permitted))
  }

  /** systemd starts the unit again, or the host reboots, which voids the permission. */
  function Restarted(w: World): World {
    w.(service := w.service.(serving := w.service.permitted || !w.service.fenced))
  }

  function Rebooted(w: World): World {
    w.(service := w.service.(serving := !w.service.fenced, permitted := false))
  }

  // ---- What the fence is for ------------------------------------------------------------

  predicate Untouched(p: Plan, w: World) { AtSource(p, w.journal.instance, w.db, 0) }

  /** Hop i has been written: applied, healthy or refused. */
  predicate Written(p: Plan, instance: Digest, db: Database, i: nat) {
    Pending(p, instance, db, i, SchemaApplied) || Pending(p, instance, db, i, Healthy) ||
      Pending(p, instance, db, i, RestoreRequired)
  }

  /** The installed executable is the one that hop i's schema is for. */
  predicate Belongs(p: Plan, w: World, i: nat) {
    i < |p.steps| && Written(p, w.journal.instance, w.db, i) && w.service.binary == Some(p.steps[i].target)
  }

  /** Nothing has been written, or the executable belongs to what was. */
  ghost predicate Fits(p: Plan, w: World) {
    Untouched(p, w) || exists i: nat :: Belongs(p, w, i)
  }

  /** Nothing has been written, or all of it has and is healthy. */
  predicate Settled(p: Plan, w: World) {
    || Untouched(p, w)
    || (0 < |p.steps| && Pending(p, w.journal.instance, w.db, |p.steps| - 1, Healthy)
        && w.service.binary == Some(p.steps[|p.steps| - 1].target))
  }

  /** No executable runs, or may start, over a schema that is not its own; and the fence
      is down only over an untouched database or the finished route. */
  ghost predicate Guarded(p: Plan, w: World) {
    && (w.service.serving || w.service.permitted ==> Fits(p, w))
    && (!w.service.fenced ==> Settled(p, w))
  }

  /** Fenced, not permitted and stopped. */
  predicate Down(w: World) { w.service.fenced && !w.service.permitted && !w.service.serving }

  /** Fenced, and only hop i's executable runs or may start. */
  predicate Manned(p: Plan, w: World, i: nat) {
    w.service.fenced && (w.service.serving || w.service.permitted ==> Belongs(p, w, i))
  }

  lemma MannedGuarded(p: Plan, w: World, i: nat)
    requires Manned(p, w, i)
    ensures Guarded(p, w)
  {
  }

  lemma SettledFits(p: Plan, w: World)
    requires Settled(p, w)
    ensures Fits(p, w)
  {
    if !Untouched(p, w) { assert Belongs(p, w, |p.steps| - 1); }
  }

  lemma FenceGuards(p: Plan, w: World, c: Choice)
    requires Guarded(p, w)
    ensures Guarded(p, FenceAndStop(w, c)) && (c.reply.Returned? ==> Down(FenceAndStop(w, c)))
  {
    var w' := FenceAndStop(w, c);
    if w'.service.serving || w'.service.permitted {
      if !Untouched(p, w) {
        var i: nat :| Belongs(p, w, i);
        assert Belongs(p, w', i);
      }
    }
  }

  /** Wherever the coordinator was cut, neither a restart of the unit nor a reboot of the
      host starts an executable over a schema that is not its own. */
  lemma RestartsGuarded(p: Plan, w: World)
    requires Guarded(p, w)
    ensures Guarded(p, Restarted(w)) && Guarded(p, Rebooted(w))
    ensures Restarted(w).service.serving ==> Fits(p, Restarted(w))
    ensures Rebooted(w).service.serving ==> Settled(p, Rebooted(w))
  {
    if !w.service.fenced { SettledFits(p, w); }
    if Fits(p, w) && !Untouched(p, w) {
      var i: nat :| Belongs(p, w, i);
      assert Belongs(p, Restarted(w), i) && Belongs(p, Rebooted(w), i);
    }
  }

  /** The exact-state transition that records an outside health failure. */
  function RequireRestore(p: Plan, w: World, i: nat, c: Choice): World
    requires i < |p.steps|
  {
    if Pending(p, w.journal.instance, w.db, i, SchemaApplied) && Lands(c)
    then w.(db := w.db.(control := Some(AtHop(p, w.journal.instance, i, RestoreRequired))))
    else w
  }

  // ---- The coordinator ------------------------------------------------------------

  datatype Outcome = Proceeding | Crashed | Refused | Upgraded | CleanupFailed | AlreadyInstalled

  /** The unfinished states from which a rerun needs no operator. */
  predicate Resumable(w: World) {
    && (w.journal.phase == Proved || w.journal.phase == WriteIntent || w.journal.phase == SchemaWritten ||
      w.journal.phase == HopHealthy)
    && (w.db.control.Some? ==>
      var q := w.db.control.value.pending.phase; q != SchemaWriteStarted && q != RestoreRequired)
  }

  /** The journal stands before hop i. */
  predicate Before(j: Journal, i: nat) {
    j.hop == i && (j.phase == Proved || j.phase == WriteIntent || j.phase == SchemaWritten || j.phase == HopHealthy)
  }

  /** Hop i is written or healthy and its journal entry is under way. */
  predicate Startable(p: Plan, w: World, i: nat) {
    && i < |p.steps|
    && (Pending(p, w.journal.instance, w.db, i, SchemaApplied) || Pending(p, w.journal.instance, w.db, i, Healthy))
    && (w.journal.phase == WriteIntent || w.journal.phase == SchemaWritten || w.journal.phase == HopHealthy)
  }

  /** The failure fence registered before any process operation. */
  method Abort(p: Plan, w0: World, choices: Choices, t0: nat) returns (w: World, t: nat, out: Outcome)
    requires Consistent(p, w0) && Guarded(p, w0)
    ensures Survives(p, w0, w) && Guarded(p, w) && w.journal == w0.journal && w.db == w0.db
    ensures out == Refused || out == Crashed
    ensures t == t0 + 1 && (out == Refused && choices(t0).reply.Returned? ==> Down(w))
  {
    var c := choices(t0);
    FenceGuards(p, w0, c);
    w, t := FenceAndStop(w0, c), t0 + 1;
    out := if c.reply.Died? then Crashed else Refused;
  }

  /** A successful child exit alone is insufficient: publish schema-applied only
      once the database is read back at the exact hop. */
  method ConfirmMigrated(p: Plan, w0: World, i: nat, choices: Choices, t0: nat) returns (w: World, t: nat, out: Outcome)
    requires RouteOk(p) && Consistent(p, w0) && i < |p.steps| && w0.journal.phase == WriteIntent && w0.journal.hop == i
    ensures Survives(p, w0, w) && (out == Proceeding || out == Refused || out == Crashed)
    ensures w.journal.hop == i && w.service == w0.service
    ensures out == Proceeding ==>
      w.journal == w0.journal.(phase := SchemaWritten) && w.db == w0.db &&
        Pending(p, w.journal.instance, w.db, i, SchemaApplied)
    ensures Clean(choices) && Pending(p, w0.journal.instance, w0.db, i, SchemaApplied) ==> out == Proceeding
  {
    var c := choices(t0);
    w, t := w0, t0 + 1;
    if c.reply.Died? { out := Crashed; return; }
    if c.reply.Failed? || w.db.control.None? { out := Refused; return; }
    var found := w.db.control.value;
    if !ValidPending(found, w.journal, p, i) || found.pending.phase != SchemaApplied { out := Refused; return; }
    c := choices(t);
    w, t := WriteJournal(w, w.journal.(phase := SchemaWritten), c), t + 1;
    out := if c.reply.Died? then Crashed else if c.reply.Failed? then Refused else Proceeding;
  }

  /** Reconcile hop i with the database and migrate it if it is still due. */
  method MigrateHop(p: Plan, w0: World, i: nat, choices: Choices, t0: nat)
    returns (w: World, t: nat, out: Outcome, migrated: bool)
    requires RouteOk(p) && Consistent(p, w0) && i < |p.steps| && Before(w0.journal, i)
    ensures Survives(p, w0, w) && (out == Proceeding || out == Refused || out == Crashed)
    ensures out == Proceeding ==>
      && (w.journal == w0.journal.(phase := WriteIntent, hop := i) ||
        w.journal == w0.journal.(phase := SchemaWritten, hop := i))
      && (Pending(p, w.journal.instance, w.db, i, SchemaApplied) || Pending(p, w.journal.instance, w.db, i, Healthy))
    ensures w.journal.hop == i && w.service == w0.service
    ensures migrated ==>
      AtSource(p, w0.journal.instance, w0.db, i) || Pending(p, w0.journal.instance, w0.db, i, Prepared)
    ensures out == Proceeding && !migrated ==> w0.journal.phase == WriteIntent || w0.journal.phase == SchemaWritten
    ensures Clean(choices) && Resumable(w0) ==> out == Proceeding
  {
    w, t, migrated := w0, t0, false;
    var j := w.journal;
    DispositionIsExact(p, j, w.db, i);
    var c := choices(t);
    t := t + 1;
    if c.reply.Died? { out := Crashed; return; }
    var read := if c.reply.Failed? then Unreadable else ReadControl(w.db);
    var disposition := MigrationDisposition(read, InspectInstalled(w.db, p.steps[i].sourceMigrations), j, p, i);
    if disposition == Refuse { out := Refused; return; }
    if disposition == Skip { out := Proceeding; return; }
    j := j.(hop := i, phase := WriteIntent);
    c := choices(t);
    w, t := WriteJournal(w, j, c), t + 1;
    if !c.reply.Returned? { out := if c.reply.Died? then Crashed else Refused; return; }
    c := choices(t);
    w, t, migrated := w.(db := RunMigrations(p, j.instance, w.db, i, c.effect)), t + 1, true;
    if !c.reply.Returned? { out := if c.reply.Died? then Crashed else Refused; return; }
    w, t, out := ConfirmMigrated(p, w, i, choices, t);
  }

  /** The database half of a health failure. */
  method RecordRefusal(p: Plan, w0: World, i: nat, j: Journal, choices: Choices, t0: nat)
    returns (w: World, t: nat, out: Outcome)
    requires RouteOk(p) && Consistent(p, w0) && Written(p, w0.journal.instance, w0.db, i)
    ensures Survives(p, w0, w) && w.journal == w0.journal && (out == Refused || out == Crashed)
    ensures w.db == w0.db || Pending(p, w0.journal.instance, w.db, i, RestoreRequired)
    ensures Pending(p, w0.journal.instance, w0.db, i, Healthy) ==> w.db == w0.db
    ensures w.service == w0.service
  {
    var c := choices(t0);
    w, t, out := w0, t0 + 1, if c.reply.Died? then Crashed else Refused;
    if !c.reply.Returned? || w.db.control.None? { return; }
    if ValidPending(w.db.control.value, j, p, i) && w.db.control.value.pending.phase == SchemaApplied {
      c := choices(t);
      w, t := RequireRestore(p, w, i, c), t + 1;
      if c.reply.Died? { out := Crashed; }
    }
  }

  /** Candidate health failed: fence, make the journal terminal, and record the
      refusal in the database without ever reversing what it already applied. */
  method RecordHealthFailure(p: Plan, w0: World, i: nat, choices: Choices, t0: nat)
    returns (w: World, t: nat, out: Outcome)
    requires RouteOk(p) && Consistent(p, w0) && Written(p, w0.journal.instance, w0.db, i)
    ensures Survives(p, w0, w) && (out == Refused || out == Crashed)
    ensures w.journal == w0.journal || w.journal == w0.journal.(phase := NeedsRestore, hop := i)
    ensures out == Refused && choices(t0 + 1).reply.Returned? ==> w.journal.phase == NeedsRestore
    ensures w.db == w0.db || Pending(p, w0.journal.instance, w.db, i, RestoreRequired)
    ensures Pending(p, w0.journal.instance, w0.db, i, Healthy) ==> w.db == w0.db
    ensures w.service == FenceAndStop(w0, choices(t0)).service
  {
    var j := w0.journal.(phase := NeedsRestore, hop := i);
    var c := choices(t0);
    w, t, out := FenceAndStop(w0, c), t0 + 1, Crashed;
    if c.reply.Died? { return; }
    c := choices(t);
    w, t := WriteJournal(w, j, c), t + 1;
    if c.reply.Died? { return; }
    w, t, out := RecordRefusal(p, w, i, j, choices, t);
  }

  lemma Started(p: Plan, w0: World, i: nat, c: Choice)
    requires RouteOk(p) && Consistent(p, w0) && Startable(p, w0, i)
    requires w0.service.fenced && w0.service.binary == Some(p.steps[i].target)
    ensures
      var w := StartCandidate(p, w0, i, c);
      && Survives(p, w0, w) && Belongs(p, w, i) && w.service.fenced && w.journal == w0.journal
      && (c.reply.Returned? ==> w.service == w0.service.(serving := true, permitted := true))
      && (1 < c.effect ==> Pending(p, w.journal.instance, w.db, i, Healthy))
  {
  }

  lemma StillBelongs(p: Plan, w: World, w': World, i: nat, c: Choice)
    requires Belongs(p, w, i) && w.service.fenced && w'.journal.instance == w.journal.instance
    requires w'.service == FenceAndStop(w, c).service
    requires w'.db == w.db || Pending(p, w.journal.instance, w'.db, i, RestoreRequired)
    ensures Belongs(p, w', i) && w'.service.fenced
  {
  }

  /** The candidate is not healthy. */
  method FailHealth(p: Plan, w0: World, i: nat, choices: Choices, t0: nat) returns (w: World, t: nat, out: Outcome)
    requires RouteOk(p) && Consistent(p, w0) && Belongs(p, w0, i) && w0.service.fenced
    ensures Survives(p, w0, w) && (out == Refused || out == Crashed) && Belongs(p, w, i) && w.service.fenced
    ensures w.journal == w0.journal || w.journal.phase == NeedsRestore
  {
    w, t, out := RecordHealthFailure(p, w0, i, choices, t0);
    StillBelongs(p, w0, w, i, choices(t0));
  }

  /** Start the candidate of hop i and accept it only when the database is read
      back exactly healthy; anything else is a health failure. */
  method AwaitHealthy(p: Plan, w0: World, i: nat, choices: Choices, t0: nat) returns (w: World, t: nat, out: Outcome)
    requires RouteOk(p) && Consistent(p, w0) && Startable(p, w0, i)
    requires w0.service.fenced && w0.service.binary == Some(p.steps[i].target)
    ensures Survives(p, w0, w) && (out == Proceeding || out == Refused || out == Crashed)
    ensures Belongs(p, w, i) && w.service.fenced
    ensures w.journal == w0.journal || w.journal.phase == NeedsRestore
    ensures out == Proceeding ==>
      && w.journal == w0.journal && Pending(p, w.journal.instance, w.db, i, Healthy)
      && w.service == w0.service.(serving := true, permitted := true)
    ensures Clean(choices) ==> out == Proceeding
  {
    var c := choices(t0);
    Started(p, w0, i, c);
    w, t := StartCandidate(p, w0, i, c), t0 + 1;
    if c.reply.Died? { out := Crashed; return; }
    if c.reply.Failed? { w, t, out := FailHealth(p, w, i, choices, t); return; }
    c := choices(t);
    t := t + 1;
    if c.reply.Died? { out := Crashed; return; }
    if c.reply.Failed? || w.db.control.None? || !ValidHealthy(w.db.control.value, w.journal, p, i) {
      w, t, out := FailHealth(p, w, i, choices, t);
      return;
    }
    out := Proceeding;
  }

  /** Install, configure, start and record one hop. */
  method StartHop(p: Plan, w0: World, i: nat, choices: Choices, t0: nat) returns (w: World, t: nat, out: Outcome)
    requires RouteOk(p) && Consistent(p, w0) && Startable(p, w0, i) && Down(w0)
    ensures Survives(p, w0, w) && (out == Proceeding || out == Refused || out == Crashed)
    ensures Manned(p, w, i)
    ensures w.journal.phase == NeedsRestore || w.journal.hop == w0.journal.hop || w.journal.hop == i + 1
    ensures out == Proceeding ==>
      && w.journal == w0.journal.(phase := HopHealthy, hop := i + 1) && Pending(p, w.journal.instance, w.db, i, Healthy)
      && w.service.serving && w.service.binary == Some(p.steps[i].target)
    ensures Clean(choices) ==> out == Proceeding
  {
    var c := choices(t0);
    w, t := InstallBinary(w0, p.steps[i].target, c), t0 + 1;
    if !c.reply.Returned? { out := if c.reply.Died? then Crashed else Refused; return; }
    c := choices(t);
    t := t + 1;
    if !c.reply.Returned? { out := if c.reply.Died? then Crashed else Refused; return; }
    w, t, out := AwaitHealthy(p, w, i, choices, t);
    if out != Proceeding { return; }
    c := choices(t);
    w, t := WriteJournal(w, w.journal.(phase := HopHealthy, hop := i + 1), c), t + 1;
    out := if c.reply.Died? then Crashed else if c.reply.Failed? then Refused else Proceeding;
  }

  /** The final half: switch to restart evidence, lift the fence, publish. */
  method Finish(p: Plan, w0: World, choices: Choices, t0: nat) returns (w: World, t: nat, out: Outcome)
    requires RouteOk(p) && Consistent(p, w0) && w0.journal.phase == HopHealthy && w0.journal.hop == |p.steps|
    requires w0.service.fenced && w0.service.binary == Some(p.steps[|p.steps| - 1].target)
    ensures Guarded(p, w)
    ensures Survives(p, w0, w) && w.db == w0.db && w.journal.hop == w0.journal.hop
    ensures out != Proceeding && out != AlreadyInstalled
    ensures out == Upgraded || out == CleanupFailed ==>
      w.journal.phase == Complete && w.service == w0.service.(fenced := false, permitted := false)
    ensures Clean(choices) ==> out == Upgraded
  {
    var c := choices(t0);
    w, t := w0, t0 + 1;
    ghost var n := |p.steps| - 1;
    assert Belongs(p, w, n);
    if !c.reply.Returned? { out := if c.reply.Died? then Crashed else Refused; return; }
    c := choices(t);
    w, t := CompleteService(w, c), t + 1;
    assert Belongs(p, w, n);
    if !c.reply.Returned? { out := if c.reply.Died? then Crashed else Refused; return; }
    c := choices(t);
    w, t := WriteJournal(w, w.journal.(phase := Complete), c), t + 1;
    assert Belongs(p, w, n);
    if !c.reply.Returned? { out := if c.reply.Died? then Crashed else Refused; return; }
    c := choices(t);
    t := t + 1;
    out := if c.reply.Returned? then Upgraded else if c.reply.Died? then Crashed else CleanupFailed;
  }

  /** The journal's hop never goes back, except to the hop of a terminal failure. */
  predicate Advances(j: Journal, j': Journal) {
    j'.phase == NeedsRestore || j.hop <= j'.hop
  }

  /** Every hop migrated so far is at or before the journal's. */
  predicate Covers(j: Journal, log: seq<nat>) {
    j.phase == NeedsRestore || forall k :: 0 <= k < |log| ==> log[k] <= j.hop
  }

  /** Hops ask for migrations strictly in route order, each once per run. */
  predicate InOrder(log: seq<nat>) {
    forall k :: 0 <= k < |log| ==> log[k] == log[0] + k
  }

  /** One pass of the loop.  `already` is the resumed final hop, which is only
      restarted before completion. */
  method Hop(p: Plan, w0: World, i: nat, already: bool, choices: Choices, t0: nat)
    returns (w: World, t: nat, out: Outcome, migrated: bool)
    requires RouteOk(p) && Consistent(p, w0) && i < |p.steps| && Down(w0)
    requires if already then w0.journal.phase == HopHealthy && w0.journal.hop == i + 1 == |p.steps|
      else Before(w0.journal, i)
    ensures Survives(p, w0, w) && (out == Proceeding || out == Refused || out == Crashed)
    ensures Guarded(p, w) && w.service.fenced && (out == Proceeding && i + 1 < |p.steps| ==> Down(w))
    ensures out == Proceeding ==>
      && w.journal == w0.journal.(phase := HopHealthy, hop := i + 1)
      && (i + 1 == |p.steps| ==> w.service.serving && w.service.binary == Some(p.steps[i].target))
      && Resumable(w)
    ensures Advances(w0.journal, w.journal)
    ensures migrated ==> !already && (w.journal.phase == NeedsRestore || i <= w.journal.hop)
    ensures out == Proceeding && !migrated && !already ==>
      w0.journal.phase == WriteIntent || w0.journal.phase == SchemaWritten
    ensures Clean(choices) && Resumable(w0) ==> out == Proceeding
  {
    w, t, out, migrated := w0, t0, Proceeding, false;
    if !already {
      w, t, out, migrated := MigrateHop(p, w, i, choices, t);
    }
    if out == Proceeding {
      w, t, out := StartHop(p, w, i, choices, t);
      MannedGuarded(p, w, i);
    }
    if out == Proceeding && i < |p.steps| - 1 {
      var c := choices(t);
      FenceGuards(p, w, c);
      w, t := FenceAndStop(w, c), t + 1;
      if !c.reply.Returned? { out := if c.reply.Died? then Crashed else Refused; }
    }
  }

  /** Hop i is next, or it is the final one and only restarted. */
  predicate Due(p: Plan, w: World, i: nat, already: bool) {
    && i < |p.steps|
    && if already then w.journal.phase == HopHealthy && w.journal.hop == i + 1 == |p.steps| else Before(w.journal, i)
  }

  /** What one pass leaves, wherever it is cut. */
  ghost predicate Passed(p: Plan, w0: World, i: nat, already: bool, w: World, out: Outcome, log0: seq<nat>,
      log: seq<nat>)
  {
    && Survives(p, w0, w) && Guarded(p, w) && w.service.fenced
    && (log == log0 || (!already && log == log0 + [i]))
    && Advances(w0.journal, w.journal) && (log != log0 ==> w.journal.phase == NeedsRestore || i <= w.journal.hop)
    && (out == Proceeding ==>
      && w.journal == w0.journal.(phase := HopHealthy, hop := i + 1) && Resumable(w)
      && (already || log == log0 + [i] || w0.journal.phase == WriteIntent || w0.journal.phase == SchemaWritten)
      && (if i + 1 < |p.steps| then Down(w) else w.service.serving && w.service.binary == Some(p.steps[i].target)))
  }

  /** One pass with its executable check; `log` gains the hop if it migrated. */
  method NextHop(p: Plan, w0: World, i: nat, already: bool, staged: set<Identity>, choices: Choices, t0: nat,
      log0: seq<nat>)
    returns (w: World, t: nat, out: Outcome, log: seq<nat>)
    requires RouteOk(p) && Consistent(p, w0) && Due(p, w0, i, already) && Down(w0)
    ensures Passed(p, w0, i, already, w, out, log0, log) && (out == Proceeding || out == Refused || out == Crashed)
    ensures Clean(choices) && Resumable(w0) && p.steps[i].target in staged ==> out == Proceeding
  {
    w, t, out, log := w0, t0, Refused, log0;
    if p.steps[i].target !in staged { return; }
    var migrated;
    w, t, out, migrated := Hop(p, w, i, already, choices, t);
    if migrated { log := log + [i]; }
  }

  /** What the passes so far leave. */
  ghost predicate Ran(p: Plan, w0: World, start: nat, already: bool, w: World, log: seq<nat>) {
    && Survives(p, w0, w) && Guarded(p, w) && w.service.fenced && (already ==> log == [])
    && InOrder(log) && (forall k :: 0 <= k < |log| ==> start <= log[k] < |p.steps|)
    && Advances(w0.journal, w.journal) && Covers(w.journal, log)
  }

  /** The passes before `index` have all succeeded. */
  ghost predicate Stands(p: Plan, w0: World, start: nat, already: bool, index: nat, w: World, log: seq<nat>) {
    && start <= index <= |p.steps| && Ran(p, w0, start, already, w, log)
    && w.journal == (if index == start then w0.journal else w0.journal.(phase := HopHealthy, hop := index))
    && (Resumable(w0) || start < index ==> Resumable(w))
    && |log| <= index - start && (forall k :: 0 <= k < |log| ==> log[k] == index - |log| + k)
    && (if index < |p.steps| then Down(w) else w.service.serving && w.service.binary == Some(p.steps[index - 1].target))
  }

  lemma PassedRan(p: Plan, w0: World, start: nat, already: bool, index: nat, w: World, log: seq<nat>, w': World,
      out: Outcome, log': seq<nat>)
    requires start <= index < |p.steps| && Due(p, w0, start, already)
    requires Stands(p, w0, start, already, index, w, log) && Passed(p, w, index, already, w', out, log, log')
    ensures Ran(p, w0, start, already, w', log')
  {
    SurvivesOn(p, w0, w, w');
  }

  lemma StandsDue(p: Plan, w0: World, start: nat, already: bool, index: nat, w: World, log: seq<nat>)
    requires Stands(p, w0, start, already, index, w, log) && index < |p.steps| && Due(p, w0, start, already)
    ensures Consistent(p, w) && Due(p, w, index, already) && Down(w) && (Resumable(w0) ==> Resumable(w))
  {
  }

  lemma PassedStands(p: Plan, w0: World, start: nat, already: bool, index: nat, w: World, log: seq<nat>, w': World,
      log': seq<nat>)
    requires start <= index < |p.steps| && Due(p, w0, start, already)
    requires Stands(p, w0, start, already, index, w, log) && Passed(p, w, index, already, w', Proceeding, log, log')
    ensures Stands(p, w0, start, already, index + 1, w', log')
  {
    PassedRan(p, w0, start, already, index, w, log, w', Proceeding, log');
  }

  /** The hops from the journal's position to the end of the route. */
  method RunHops(p: Plan, w0: World, start: nat, already: bool, staged: set<Identity>, choices: Choices, t0: nat)
    returns (w: World, t: nat, out: Outcome, log: seq<nat>)
    requires RouteOk(p) && Consistent(p, w0) && Due(p, w0, start, already) && Down(w0)
    ensures Ran(p, w0, start, already, w, log) && (out == Proceeding || out == Refused || out == Crashed)
    ensures out == Proceeding ==>
      && w.journal == w0.journal.(phase := HopHealthy, hop := |p.steps|)
      && w.service.serving && w.service.binary == Some(p.steps[|p.steps| - 1].target)
    ensures Clean(choices) && Resumable(w0) && AllStaged(p, staged) ==> out == Proceeding
  {
    w, t, out, log := w0, t0, Proceeding, [];
    var index := start;
    while index < |p.steps|
      invariant out == Proceeding && Stands(p, w0, start, already, index, w, log)
    {
      ghost var before, log0 := w, log;
      StandsDue(p, w0, start, already, index, w, log);
      w, t, out, log := NextHop(p, w, index, already, staged, choices, t, log);
      PassedRan(p, w0, start, already, index, before, log0, w, out, log);
      if out != Proceeding { return; }
      PassedStands(p, w0, start, already, index, before, log0, w, log);
      index := index + 1;
    }
  }

  lemma SurvivesOn(p: Plan, w0: World, w1: World, w: World)
    requires Survives(p, w0, w1) && Survives(p, w1, w)
    ensures Survives(p, w0, w)
  {
  }

  predicate AllStaged(p: Plan, staged: set<Identity>) {
    forall i :: 0 <= i < |p.steps| ==> p.steps[i].target in staged
  }

  /** The journal must name a usable position, and a completed hop must be read
      back exactly healthy before anything else runs. */
  method CheckEntry(p: Plan, w: World, choices: Choices, t0: nat) returns (t: nat, out: Outcome)
    requires RouteOk(p) && Consistent(p, w)
    ensures out == Proceeding || out == Refused || out == Crashed
    ensures out == Proceeding ==> ValidPosition(p, Some(w.journal))
    ensures Clean(choices) && Resumable(w) ==> out == Proceeding
  {
    t := t0;
    if !ValidPosition(p, Some(w.journal)) { return t, Refused; }
    if w.journal.phase == HopHealthy {
      var c := choices(t);
      t := t + 1;
      if c.reply.Died? { return t, Crashed; }
      if c.reply.Failed? || w.db.control.None? { return t, Refused; }
      if !ValidHealthy(w.db.control.value, w.journal, p, w.journal.hop - 1) { return t, Refused; }
    }
    return t, Proceeding;
  }

  /** Apply the route from wherever the journal stands.  `log` is the hops whose
      migrations this run started.  For every choice of failures and of the
      moment of death, what survives is consistent; a smooth run of a resumable
      state finishes the upgrade. */
  method ApplyRoute(p: Plan, w0: World, staged: set<Identity>, choices: Choices, t0: nat)
    returns (w: World, t: nat, out: Outcome, log: seq<nat>)
    requires RouteOk(p) && Consistent(p, w0) && Down(w0)
    ensures Survives(p, w0, w) && Guarded(p, w) && Logged(p, w0, w, log)
    ensures out != Proceeding && out != AlreadyInstalled
    ensures out == Upgraded || out == CleanupFailed ==> Finished(p, w)
    ensures out == Refused ==> 0 < t && (choices(t - 1).reply.Returned? ==> Down(w))
    ensures Clean(choices) && Resumable(w0) && AllStaged(p, staged) ==> out == Upgraded
  {
    w, log := w0, [];
    t, out := CheckEntry(p, w, choices, t0);
    if out == Proceeding { w, t, out, log := RunRoute(p, w, staged, choices, t); }
    if out == Refused { w, t, out := Abort(p, w, choices, t); }
  }

  /** The hops that are left, and completion. */
  method RunRoute(p: Plan, w0: World, staged: set<Identity>, choices: Choices, t0: nat)
    returns (w: World, t: nat, out: Outcome, log: seq<nat>)
    requires RouteOk(p) && Consistent(p, w0) && Down(w0) && ValidPosition(p, Some(w0.journal))
    ensures Survives(p, w0, w) && Guarded(p, w) && Logged(p, w0, w, log)
    ensures out != Proceeding && out != AlreadyInstalled
    ensures out == Upgraded || out == CleanupFailed ==> Finished(p, w)
    ensures Clean(choices) && Resumable(w0) && AllStaged(p, staged) ==> out == Upgraded
  {
    var start := w0.journal.hop;
    var finalAlreadyHealthy := w0.journal.phase == HopHealthy && start == |p.steps|;
    if finalAlreadyHealthy { start := start - 1; }
    w, t, out, log := RunHops(p, w0, start, finalAlreadyHealthy, staged, choices, t0);
    if out == Proceeding { w, t, out := Finish(p, w, choices, t); }
  }

  /** The hops migrated by a run, between where the journal stood and where it stands. */
  ghost predicate Logged(p: Plan, w0: World, w: World, log: seq<nat>) {
    && InOrder(log) && (forall k :: 0 <= k < |log| ==> w0.journal.hop <= log[k] < |p.steps|)
    && Advances(w0.journal, w.journal) && Covers(w.journal, log)
  }

  /** The route is complete: its last release serves, out of maintenance and unfenced. */
  predicate Finished(p: Plan, w: World) {
    && 0 < |p.steps| && w.journal.phase == Complete
    && w.db.control == Some(AtHop(p, w.journal.instance, |p.steps| - 1, Healthy)) && !w.db.control.value.maintenance
    && w.service.serving && !w.service.fenced && w.service.binary == Some(p.steps[|p.steps| - 1].target)
  }

  // ---- Whole invocations ----------------------------------------------------------------

  /** An unfinished operation pins its route. */
  predicate Pinned(j: Journal) { j.phase != Complete && j.phase != Preparing }

  /** What the planner answers with, beside a journal of route p: the digest of an
      unfinished operation's route identifies it, and a new route starts from the
      installed source as measured.  No steps means the target is installed. */
  predicate Planned(p: Plan, w: World, q: Plan) {
    if Pinned(w.journal) then q.digest == w.journal.route ==> q == p
    else q.steps != [] ==> RouteOk(q) && AtSource(q, w.journal.instance, w.db, 0)
  }

  /** A completed route leaves the database at the source of any route that goes on
      from its target. */
  lemma CompleteIsSource(p: Plan, q: Plan, w: World)
    requires RouteOk(p) && RouteOk(q) && Consistent(p, w) && w.journal.phase == Complete
    requires
      var last, first := p.steps[|p.steps| - 1], q.steps[0];
      && first.source == Release(last.target)
      && first.sourceMigrations == last.targetMigrations && first.sourceSchema == last.targetSchema
    ensures AtSource(q, w.journal.instance, w.db, 0)
  {
  }

  function Opened(q: Plan, instance: Digest): Journal
    requires q.steps != []
  {
    var s := q.steps[0];
    var target := q.steps[|q.steps| - 1].target;
    Journal(Preparing, 0, target, s.source, s.sourceMigrations, s.sourceSchema, instance, q.digest)
  }

  /** Over an untouched database any service is guarded. */
  lemma UntouchedGuarded(q: Plan, w: World)
    requires AtSource(q, w.journal.instance, w.db, 0)
    ensures Guarded(q, w)
  {
  }

  /** Opens the journal of a new operation, fences, makes the backup and its evidence,
      and records the proof.  `route` is the one the journal names at the end. */
  method Prepare(p: Plan, q: Plan, w0: World, choices: Choices, t0: nat)
    returns (route: Plan, w: World, t: nat, out: Outcome)
    requires Consistent(p, w0) && RouteOk(q) && AtSource(q, w0.journal.instance, w0.db, 0)
    ensures (route == q && Consistent(q, w) && Guarded(q, w) && Opens(q, w0, w)) || (route == p && w == w0)
    ensures out == Proceeding || out == Refused || out == Crashed
    ensures out == Proceeding ==> route == q && Down(w) && w.journal.phase == Proved && w.db == w0.db
    ensures Clean(choices) ==> out == Proceeding
  {
    var c := choices(t0);
    route, w, t := if Lands(c) then q else p, WriteJournal(w0, Opened(q, w0.journal.instance), c), t0 + 1;
    if Lands(c) { UntouchedGuarded(q, w); }
    out := if c.reply.Died? then Crashed else Refused;
    if !c.reply.Returned? { return; }
    c := choices(t);
    w, t := FenceAndStop(w, c), t + 1;
    UntouchedGuarded(q, w);
    out := if c.reply.Died? then Crashed else Refused;
    if !c.reply.Returned? { return; }
    c := choices(t);
    t := t + 1;
    out := if c.reply.Died? then Crashed else Refused;
    if !c.reply.Returned? { return; }
    c := choices(t);
    w, t := WriteJournal(w, w.journal.(phase := Proved), c), t + 1;
    UntouchedGuarded(q, w);
    out := if c.reply.Died? then Crashed else if c.reply.Failed? then Refused else Proceeding;
  }

  /** The journal of q has been opened, and no hop begun. */
  predicate Opens(q: Plan, w0: World, w: World) {
    && q.steps != [] && w.db == w0.db
    && (w.journal == Opened(q, w0.journal.instance) || w.journal == Opened(q, w0.journal.instance).(phase := Proved))
  }

  /** One invocation of the upgrade command, beside a journal of route p, when planning
      gives q.  A terminal journal only fences; an unfinished one resumes behind the
      fence, if the route is still its own; otherwise a new operation begins.  `route`
      is the one the journal names in the end, `log` the hops it migrated. */
  method Attempt(p: Plan, q: Plan, w0: World, staged: set<Identity>, choices: Choices)
    returns (route: Plan, w: World, out: Outcome, log: seq<nat>)
    requires RouteOk(p) && Consistent(p, w0) && Guarded(p, w0) && Planned(p, w0, q)
    ensures Invoked(p, q, w0, route, w, log) && out != Proceeding
    ensures w0.journal.phase == NeedsRestore ==> w.journal == w0.journal && w.db == w0.db && log == []
    ensures w0.journal.phase != NeedsRestore && q.steps == [] ==> out == AlreadyInstalled && w == w0 && log == []
    ensures out == AlreadyInstalled ==> q.steps == []
    ensures out == Upgraded || out == CleanupFailed ==> route == q && Finished(q, w)
    ensures Clean(choices) && AllStaged(q, staged) && Completable(p, q, w0) ==> out == Upgraded
  {
    route, w, out, log := p, w0, Refused, [];
    if w0.journal.phase == NeedsRestore {
      FenceGuards(p, w0, choices(0));
      w, out := FenceAndStop(w0, choices(0)), if choices(0).reply.Died? then Crashed else Refused;
      return;
    }
    if q.steps == [] { out := AlreadyInstalled; return; }
    if Pinned(w0.journal) && q.digest != w0.journal.route { return; }
    if !AllStaged(q, staged) { return; }
    if Pinned(w0.journal) {
      w, out, log := Resume(p, w0, staged, choices);
    } else {
      route, w, out, log := Begin(p, q, w0, staged, choices);
    }
  }

  /** Resumes an unfinished operation behind the fence. */
  method Resume(p: Plan, w0: World, staged: set<Identity>, choices: Choices)
    returns (w: World, out: Outcome, log: seq<nat>)
    requires RouteOk(p) && Consistent(p, w0) && Guarded(p, w0) && Pinned(w0.journal)
    ensures Survives(p, w0, w) && Guarded(p, w) && Logged(p, w0, w, log) && out != Proceeding && out != AlreadyInstalled
    ensures out == Upgraded || out == CleanupFailed ==> Finished(p, w)
    ensures Clean(choices) && Resumable(w0) && AllStaged(p, staged) ==> out == Upgraded
  {
    var c := choices(0);
    FenceGuards(p, w0, c);
    w, out, log := FenceAndStop(w0, c), if c.reply.Died? then Crashed else Refused, [];
    if !c.reply.Returned? { return; }
    var t;
    w, t, out, log := ApplyRoute(p, w, staged, choices, 1);
  }

  /** Prepares a new operation and applies its route. */
  method Begin(p: Plan, q: Plan, w0: World, staged: set<Identity>, choices: Choices)
    returns (route: Plan, w: World, out: Outcome, log: seq<nat>)
    requires Consistent(p, w0) && Guarded(p, w0) && RouteOk(q) && AtSource(q, w0.journal.instance, w0.db, 0)
    ensures
      || (route == p && w == w0 && log == [])
      || (route == q && Begun(q, w0, w, log))
    ensures out != Proceeding && out != AlreadyInstalled
    ensures out == Upgraded || out == CleanupFailed ==> route == q && Finished(q, w)
    ensures Clean(choices) && AllStaged(q, staged) ==> out == Upgraded
  {
    var t;
    route, w, t, out := Prepare(p, q, w0, choices, 0);
    log := [];
    if out == Proceeding { w, t, out, log := ApplyRoute(q, w, staged, choices, t); }
  }

  /** What a new operation leaves, wherever it is cut. */
  ghost predicate Begun(q: Plan, w0: World, w: World, log: seq<nat>) {
    && Consistent(q, w) && Guarded(q, w) && w.journal.instance == w0.journal.instance
    && InOrder(log) && (forall k :: 0 <= k < |log| ==> log[k] < |q.steps|) && Covers(w.journal, log)
    && (w.journal.phase == Preparing ==> log == [])
  }

  /** A new operation, or an unfinished one that needs no operator. */
  predicate Completable(p: Plan, q: Plan, w: World) {
    q.steps != [] && (!Pinned(w.journal) || (Resumable(w) && q == p))
  }

  /** What an invocation leaves, wherever it is cut.  An operation's hops are migrated in
      order from where its journal stood, a new one's from its start. */
  ghost predicate Invoked(p: Plan, q: Plan, w0: World, route: Plan, w: World, log: seq<nat>) {
    && Consistent(route, w) && Guarded(route, w) && w.journal.instance == w0.journal.instance
    && InOrder(log) && Covers(w.journal, log) && (forall k :: 0 <= k < |log| ==> log[k] < |route.steps|)
    && (w.journal.phase == Preparing ==> log == [])
    && (if Pinned(w0.journal) then
          && route == p && Survives(p, w0, w) && Advances(w0.journal, w.journal)
          && forall k :: 0 <= k < |log| ==> w0.journal.hop <= log[k]
        else
          || (route == q && q.steps != [])
          || (route == p && w == w0 && log == []))
  }

  predicate Nondecreasing(log: seq<nat>) {
    forall i, j :: 0 <= i < j < |log| ==> log[i] <= log[j]
  }

  lemma LogsJoin(j: Journal, j': Journal, before: seq<nat>, log: seq<nat>)
    requires Nondecreasing(before) && Covers(j, before) && InOrder(log) && Covers(j', log) && Advances(j, j')
    requires j.phase == NeedsRestore ==> j' == j && log == []
    requires forall k :: 0 <= k < |log| ==> j.hop <= log[k]
    ensures Nondecreasing(before + log) && Covers(j', before + log)
  {
  }

  /** An invocation, and whether the host rebooted and the unit restarted before it. */
  datatype Try = Try(choices: Choices, rebooted: bool, restarted: bool)

  function Meanwhile(w: World, e: Try): World {
    var booted := if e.rebooted then Rebooted(w) else w;
    if e.restarted then Restarted(booted) else booted
  }

  lemma MeanwhileGuarded(p: Plan, w: World, e: Try)
    requires Guarded(p, w)
    ensures Guarded(p, Meanwhile(w, e))
  {
    RestartsGuarded(p, w);
    RestartsGuarded(p, if e.rebooted then Rebooted(w) else w);
  }

  /** Between invocations that plan q: the journal still tells of the finished p, or
      tells of q and covers the hops migrated so far. */
  ghost predicate Underway(p: Plan, q: Plan, w0: World, route: Plan, w: World, log: seq<nat>) {
    && Consistent(route, w) && Guarded(route, w) && w.journal.instance == w0.journal.instance
    && Nondecreasing(log) && (forall k :: 0 <= k < |log| ==> log[k] < |q.steps|)
    && (if route == q then Covers(w.journal, log) && (w.journal.phase == Preparing ==> log == [])
        else route == p && w.journal == w0.journal && w.db == w0.db && log == [])
  }

  /** What planning answers on the way to q: nothing to do once q is complete. */
  function Answer(q: Plan, route: Plan, w: World): Plan {
    if route == q && w.journal.phase == Complete then Plan(q.digest, []) else q
  }

  lemma AnswerPlanned(p: Plan, q: Plan, w0: World, route: Plan, w: World, log: seq<nat>)
    requires RouteOk(q) && AtSource(q, w0.journal.instance, w0.db, 0) && !Pinned(w0.journal)
    requires Underway(p, q, w0, route, w, log)
    ensures Planned(route, w, Answer(q, route, w))
  {
  }

  lemma UnderwayOn(p: Plan, q: Plan, w0: World, route: Plan, w: World, log: seq<nat>, route': Plan, w': World,
      part: seq<nat>)
    requires RouteOk(q) && !Pinned(w0.journal) && Underway(p, q, w0, route, w, log)
    requires Invoked(route, Answer(q, route, w), w, route', w', part)
    requires w.journal.phase == NeedsRestore ==> w'.journal == w.journal && part == []
    ensures Underway(p, q, w0, route', w', log + part)
  {
    if Pinned(w.journal) {
      LogsJoin(w.journal, w'.journal, log, part);
    } else if part == [] {
      assert log + part == log;
    } else {
      assert log + part == part;
    }
  }

  lemma MeanwhileUnderway(p: Plan, q: Plan, w0: World, route: Plan, w: World, log: seq<nat>, e: Try)
    requires Underway(p, q, w0, route, w, log)
    ensures Underway(p, q, w0, route, Meanwhile(w, e), log)
  {
    MeanwhileGuarded(route, w, e);
  }

  /** From a finished or barely begun operation: any number of invocations along q, each
      failing or dying wherever its choices say, with reboots and restarts in between,
      then one clean invocation.  Every surviving state is consistent and guarded, and
      if it needs no operator the last invocation completes the route.  Over all of
      them hops are migrated in nondecreasing order. */
  method CrashThenResume(p: Plan, q: Plan, w0: World, staged: set<Identity>, attempts: seq<Try>, last: Try)
    returns (between: Plan, survived: World, route: Plan, w: World, out: Outcome, log: seq<nat>)
    requires RouteOk(p) && Consistent(p, w0) && Guarded(p, w0) && !Pinned(w0.journal)
    requires RouteOk(q) && AtSource(q, w0.journal.instance, w0.db, 0) && AllStaged(q, staged) && Clean(last.choices)
    ensures Consistent(between, survived) && Guarded(between, survived) && Consistent(route, w) && Guarded(route, w)
    ensures between == p || between == q
    ensures between == q && survived.journal.phase == Complete ==>
      out == AlreadyInstalled && w.journal == survived.journal
    ensures Ready(q, between, survived) ==> out == Upgraded && route == q && Finished(q, w)
    ensures survived.journal.phase == NeedsRestore ==> w.journal == survived.journal && w.db == survived.db
    ensures Nondecreasing(log) && forall k :: 0 <= k < |log| ==> log[k] < |q.steps|
  {
    between, survived, log := p, w0, [];
    for k := 0 to |attempts|
      invariant Underway(p, q, w0, between, survived, log)
    {
      between, survived, out, log := Again(p, q, w0, between, survived, staged, attempts[k], log);
    }
    route, w, out, log := Again(p, q, w0, between, survived, staged, last, log);
  }

  /** No operator is needed to reach the end of q. */
  predicate Ready(q: Plan, route: Plan, w: World) {
    route != q || w.journal.phase == Preparing || Resumable(w)
  }

  lemma ReadyCompletable(p: Plan, q: Plan, w0: World, route: Plan, w: World, log: seq<nat>)
    requires RouteOk(q) && !Pinned(w0.journal) && Underway(p, q, w0, route, w, log) && Ready(q, route, w)
    ensures Answer(q, route, w) == q && Completable(route, q, w)
  {
  }

  /** One more invocation, after what happens to the host meanwhile. */
  method Again(p: Plan, q: Plan, ghost w0: World, route0: Plan, w1: World, staged: set<Identity>, e: Try,
      log0: seq<nat>)
    returns (route: Plan, w: World, out: Outcome, log: seq<nat>)
    requires RouteOk(p) && RouteOk(q) && AtSource(q, w0.journal.instance, w0.db, 0) && !Pinned(w0.journal)
    requires Underway(p, q, w0, route0, w1, log0)
    ensures Underway(p, q, w0, route, w, log)
    ensures route0 == q && w1.journal.phase == Complete ==> out == AlreadyInstalled && w.journal == w1.journal
    ensures w1.journal.phase == NeedsRestore ==> w.journal == w1.journal && w.db == w1.db
    ensures Clean(e.choices) && AllStaged(q, staged) && Ready(q, route0, w1) ==>
      out == Upgraded && route == q && Finished(q, w)
  {
    var now, plan, part := Meanwhile(w1, e), Answer(q, route0, w1), [];
    MeanwhileUnderway(p, q, w0, route0, w1, log0, e);
    AgainReady(p, q, w0, route0, w1, now, log0);
    route, w, out, part := Attempt(route0, plan, now, staged, e.choices);
    UnderwayOn(p, q, w0, route0, now, log0, route, w, part);
    log := log0 + part;
  }

  lemma AgainReady(p: Plan, q: Plan, w0: World, route: Plan, w1: World, now: World, log: seq<nat>)
    requires RouteOk(p) && RouteOk(q) && AtSource(q, w0.journal.instance, w0.db, 0) && !Pinned(w0.journal)
    requires Underway(p, q, w0, route, now, log) && now.journal == w1.journal && now.db == w1.db
    ensures RouteOk(route) && Planned(route, now, Answer(q, route, w1))
    ensures Ready(q, route, w1) ==> Answer(q, route, w1) == q && Completable(route, q, now)
  {
    AnswerPlanned(p, q, w0, route, now, log);
    if Ready(q, route, w1) { ReadyCompletable(p, q, w0, route, now, log); }
  }
}
