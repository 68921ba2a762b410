/** What every transaction of the exposure store keeps, and what therefore holds after every run. */
module StoreSafety {
  import opened Base
  import opened Records
  import opened Store
  import E = Exposures
  import F = Findings

  // ---------------------------------------------------------------- the invariants

  /** An exposure row matches its log, belongs to a known target, is not ahead of it, and is open only
      on an active target and at an address of the current binding. */
  predicate ExposureSafe(db: Db, s: Service) {
    s in db.exposures ==>
      var rec := db.exposures[s];
      && E.Consistent(rec)
      && s.target in db.targets
      && rec.row.lastGeneration <= db.targets[s.target].generation
      && (rec.row.open ==> db.targets[s.target].status.Active? && rec.row.address in db.targets[s.target].addresses)
  }

  predicate FindingSafe(db: Db, f: Fingerprint) {
    f in db.findings ==> f.service.target in db.targets && F.Consistent(db.findings[f])
  }

  /** An open finding rests on an open exposure and names its address and service identity. */
  predicate Grounded(db: Db, f: Fingerprint) {
    f in db.findings && db.findings[f].row.status.Unresolved? ==>
      var row := db.findings[f].row;
      && f.service in db.exposures && db.exposures[f.service].row.open
      && row.address == db.exposures[f.service].row.address
      && row.identity == db.exposures[f.service].row.identity
      && row.lastSeenAt >= db.exposures[f.service].row.lastConfirmedAt
  }

  /** All invariants, except that findings of the given services may have lost touch with their exposure. */
  ghost predicate SafeExcept(db: Db, services: set<Service>) {
    && (forall s :: ExposureSafe(db, s))
    && (forall f :: FindingSafe(db, f))
    && (forall f: Fingerprint :: f.service !in services ==> Grounded(db, f))
    && (forall t :: t in db.targets && db.targets[t].status.Removed? ==> db.targets[t].addresses == [])
  }

  ghost predicate Safe(db: Db) {
    SafeExcept(db, {})
  }

  /** The finding is what recomputing it from the target, the exposure and the rule would give. */
  predicate Current(db: Db, f: Fingerprint) {
    f.service.target in db.targets ==>
      F.UpToDate(Get(db.findings, f), db.targets[f.service.target], ExposureRow(db, f.service), Get(db.rules, f.rule),
                 f.service.key)
  }

  ghost predicate Exact(db: Db) {
    forall f :: Current(db, f)
  }

  // ---------------------------------------------------------------- reconciling

  /** Reconciliation makes the findings of its services current and leaves all others alone. */
  lemma ReconcileEffect(db: Db, batch: Batch, queueable: bool, f: Fingerprint)
    requires Reconcile(db, batch, queueable).Ok?
    ensures var db' := Reconcile(db, batch, queueable).value;
            && (f.service in batch.services ==> Current(db', f))
            && (f.service !in batch.services ==> Get(db'.findings, f) == Get(db.findings, f))
  {
    var db' := Reconcile(db, batch, queueable).value;
    assert Get(db'.findings, f) == FindingAfter(db, batch, f);
    assert ExposureRow(db', f.service) == ExposureRow(db, f.service);
    if f.service in batch.services && f.service.target in db.targets {
      F.ReconcileBringsUpToDate(Get(db.findings, f), db.targets[f.service.target], ExposureRow(db, f.service),
                                Get(db.rules, f.rule), f.service.key,
                                F.Cause(batch.source, batch.at, Get(batch.transitions, f.service)));
    }
  }

  lemma ReconcileSafe(db: Db, batch: Batch, queueable: bool)
    requires SafeExcept(db, batch.services) && Reconcile(db, batch, queueable).Ok?
    ensures Safe(Reconcile(db, batch, queueable).value)
  {
    var db' := Reconcile(db, batch, queueable).value;
    forall f ensures Grounded(db', f) {
      assert FindingSafe(db, f) && (f.service !in batch.services ==> Grounded(db, f));
      ReconcileEffect(db, batch, queueable, f);
    }
    forall s ensures ExposureSafe(db', s) {
      assert ExposureSafe(db, s);
    }
    forall f ensures FindingSafe(db', f) {
      assert FindingSafe(db, f) && ExposureSafe(db, f.service);
      assert Get(db'.findings, f) == FindingAfter(db, batch, f);
      if f.service in batch.services && f.service.target in db.targets {
        F.ReconcileKeepsConsistent(Get(db.findings, f), db.targets[f.service.target], ExposureRow(db, f.service),
                                   Get(db.rules, f.rule), f.service.key,
                                   F.Cause(batch.source, batch.at, Get(batch.transitions, f.service)));
      }
    }
  }

  // ---------------------------------------------------------------- scans

  /** One port: evidence that is not applied changes nothing; evidence that is keeps the row consistent,
      opens it only at the attempt's own address, and never raises its generation above the attempt's. */
  lemma EvidenceRow(attempts: map<Id, Attempt>, env: Envelope, observed: map<PortKey, Observation>,
                    before: Option<ExposureRecord>, key: PortKey)
    requires before.Some? ==> E.Consistent(before.value)
    requires forall k :: k in observed ==> observed[k].address == env.address
    ensures var change := EvidenceAt(attempts, env, observed, before, key);
            && (!change.applied ==> change.record == before)
            && (change.record.Some? ==> E.Consistent(change.record.value))
            && (change.applied ==>
                  && change.record.Some?
                  && (var row := change.record.value.row;
                      && (row.open ==> row.address == env.address)
                      && row.lastGeneration <= if before.Some? then Max(before.value.row.lastGeneration, env.generation)
                                               else env.generation))
  {
    if key in observed {
      match observed[key].state
      case Open => E.OpenKeepsConsistent(before, env, observed[key]);
      case Closed => CloseByRow(before, env, key, ExplicitClosed);
      case Filtered => CloseByRow(before, env, key, ExplicitFiltered);
      case Unknown =>
    } else {
      CloseByRow(before, env, key, CoverageAbsence);
    }
  }

  lemma CloseByRow(before: Option<ExposureRecord>, env: Envelope, key: PortKey, reason: ClosureReason)
    requires before.Some? ==> E.Consistent(before.value)
    ensures var change := CloseBy(before, env, key, reason);
            && (!change.applied ==> change.record == before)
            && (change.record.Some? ==> E.Consistent(change.record.value))
            && (change.applied ==>
                  && before.Some? && change.record.Some? && !change.record.value.row.open
                  && change.record.value.row.lastGeneration <= Max(before.value.row.lastGeneration, env.generation))
  {
    E.CloseKeepsConsistent(before, env.generation, Some(env.attempt), FromAttempt(env.attempt), env.completedAt,
                           reason);
  }

  lemma EvidenceKeepsSafe(db: Db, env: Envelope, observed: map<PortKey, Observation>, s: Service)
    requires ExposureSafe(db, s)
    requires env.target in db.targets && CurrentAttempt(db.targets[env.target], env)
    requires forall k :: k in observed ==> observed[k].address == env.address
    ensures var change := EvidenceFor(db, env, observed, s);
            && (!change.applied ==> change.record == Get(db.exposures, s))
            && ExposureSafe(db.(exposures := ApplyEvidence(db, env, observed)), s)
  {
    EvidenceRow(db.attempts, env, observed, Get(db.exposures, s), s.key);
    assert Get(ApplyEvidence(db, env, observed), s) == EvidenceFor(db, env, observed, s).record;
  }

  lemma RecordKeeps(db: Db, env: Envelope, stale: bool, eligible: bool)
    requires Safe(db) && env.target in db.targets
    ensures var db' := RecordAttempt(db, env, stale, eligible);
            Safe(db') && (Exact(db) ==> Exact(db'))
  {
    var db' := RecordAttempt(db, env, stale, eligible);
    forall s ensures ExposureSafe(db', s) { assert ExposureSafe(db, s); }
    forall f ensures FindingSafe(db', f) && Grounded(db', f) { assert FindingSafe(db, f) && Grounded(db, f); }
    if Exact(db) {
      forall f ensures Current(db', f) { assert Current(db, f); }
    }
  }

  lemma AbsorbKeeps(db: Db, env: Envelope, observed: map<PortKey, Observation>, queueable: bool)
    requires Safe(db)
    requires env.target in db.targets && CurrentAttempt(db.targets[env.target], env)
    requires forall k :: k in observed ==> observed[k].address == env.address
    requires Absorb(db, env, observed, queueable).Ok?
    ensures var db' := Absorb(db, env, observed, queueable).value;
            Safe(db') && (Exact(db) ==> Exact(db'))
  {
    var mid := db.(exposures := ApplyEvidence(db, env, observed));
    var batch := Batch(Affected(db, env, observed), FromAttempt(env.attempt), env.completedAt,
                       Transitions(db, env, observed));
    var db' := Absorb(db, env, observed, queueable).value;
    forall s ensures ExposureSafe(mid, s) && (s !in batch.services ==> ExposureRow(mid, s) == ExposureRow(db, s)) {
      EvidenceKeepsSafe(db, env, observed, s);
      assert Get(mid.exposures, s) == EvidenceFor(db, env, observed, s).record;
    }
    forall f ensures FindingSafe(mid, f) && (f.service !in batch.services ==> Grounded(mid, f)) {
      assert FindingSafe(db, f) && Grounded(db, f);
    }
    ReconcileSafe(mid, batch, queueable);
    if Exact(db) {
      forall f ensures Current(db', f) {
        assert Current(db, f);
        ReconcileEffect(mid, batch, queueable, f);
      }
    }
  }

  lemma IngestKeeps(db: Db, env: Envelope, observations: seq<Observation>, validated: bool, queueable: bool)
    requires Safe(db) && IngestScan(db, env, observations, validated, queueable).Ok?
    ensures var db' := IngestScan(db, env, observations, validated, queueable).value.db;
            Safe(db') && (Exact(db) ==> Exact(db'))
  {
    var outcome := IngestScan(db, env, observations, validated, queueable).value;
    if !outcome.duplicate {
      RecordKeeps(db, env, outcome.stale, outcome.eligible);
      if outcome.eligible {
        AbsorbKeeps(RecordAttempt(db, env, outcome.stale, true), env, ByKey(observations), queueable);
      }
    }
  }

  // ---------------------------------------------------------------- target events

  lemma CloseKeepsRow(db: Db, closing: Closing, event: TargetEvent, s: Service)
    requires s in db.exposures && E.Consistent(db.exposures[s])
    ensures var after := CloseServices(db.exposures, closing, event)[s];
            && E.Consistent(after)
            && (s !in closing.services ==> after == db.exposures[s])
            && (s in closing.services ==> !after.row.open)
            && after.row.lastGeneration <= Max(db.exposures[s].row.lastGeneration, event.generation)
  {
  }

  /** Only the given services of the event's target are out of place. */
  ghost predicate Displaced(db: Db, services: set<Service>, event: TargetEvent) {
    && event.target in db.targets && db.targets[event.target].generation == event.generation
    && (forall s :: s in services ==> s.target == event.target)
    && (forall s :: s !in services ==> ExposureSafe(db, s))
    && (forall s :: s in services && s in db.exposures
          ==> E.Consistent(db.exposures[s]) && db.exposures[s].row.lastGeneration <= event.generation)
    && (forall f :: FindingSafe(db, f) && Grounded(db, f))
    && (forall t :: t in db.targets && db.targets[t].status.Removed? ==> db.targets[t].addresses == [])
  }

  /** Closing the displaced services restores the invariants. */
  lemma CloseAndReconcileKeeps(db: Db, closing: Closing, event: TargetEvent, queueable: bool)
    requires Displaced(db, closing.services, event)
    requires CloseAndReconcile(db, closing, event, queueable).Ok?
    ensures var db' := CloseAndReconcile(db, closing, event, queueable).value;
            && Safe(db')
            && ((forall f: Fingerprint :: f.service !in closing.services ==> Current(db, f)) ==> Exact(db'))
            && (forall s :: s in db'.exposures && db'.exposures[s].row.open
                  ==> s !in closing.services && s in db.exposures && db.exposures[s].row.open)
  {
    var mid := db.(exposures := CloseServices(db.exposures, closing, event));
    var batch := ClosingBatch(closing, event);
    var db' := CloseAndReconcile(db, closing, event, queueable).value;
    forall s ensures ExposureSafe(mid, s)
             ensures s !in closing.services ==> ExposureRow(mid, s) == ExposureRow(db, s)
             ensures s in closing.services && s in mid.exposures ==> !mid.exposures[s].row.open
    {
      if s in db.exposures {
        assert s !in closing.services ==> ExposureSafe(db, s);
        CloseKeepsRow(db, closing, event, s);
      }
    }
    forall f ensures FindingSafe(mid, f) && (f.service !in closing.services ==> Grounded(mid, f)) {
      assert FindingSafe(db, f) && Grounded(db, f);
    }
    ReconcileSafe(mid, batch, queueable);
    forall f: Fingerprint ensures (f.service in closing.services || Current(db, f)) ==> Current(db', f) {
      ReconcileEffect(mid, batch, queueable, f);
    }
  }

  /** An accepted event displaces at most the services the source goes on to close. */
  lemma EnterDisplaces(db: Db, event: TargetEvent)
    requires Safe(db) && BindingFits(event)
    requires event.target in db.targets ==> Accepts(db.targets[event.target], event)
    ensures var db1 := Enter(db, event, Get(db.targets, event.target));
            && Displaced(db1, LiveServices(db1, event.target), event)
            && (event.kind.Upsert? ==> Displaced(db1, MisboundServices(db1, event.target, event.addresses), event))
            && (Exact(db) ==> forall f: Fingerprint ::
                  f.service !in LiveServices(db1, event.target) ==> Current(db1, f))
            && (Exact(db) && event.kind.Upsert? ==> Exact(db1))
  {
    var db1 := Enter(db, event, Get(db.targets, event.target));
    forall s
      ensures s !in LiveServices(db1, event.target) ==> ExposureSafe(db1, s)
      ensures event.kind.Upsert? && s !in MisboundServices(db1, event.target, event.addresses) ==> ExposureSafe(db1, s)
      ensures (s in db1.exposures && s.target == event.target) ==>
                E.Consistent(db1.exposures[s]) && db1.exposures[s].row.lastGeneration <= event.generation
    {
      assert ExposureSafe(db, s);
    }
    forall f ensures FindingSafe(db1, f) && Grounded(db1, f) { assert FindingSafe(db, f) && Grounded(db, f); }
    forall f | f in db1.findings && f.service.target == event.target && db1.findings[f].row.status.Unresolved?
      ensures f.service in LiveServices(db1, event.target) {}
    if Exact(db) {
      forall f: Fingerprint
        ensures f.service !in LiveServices(db1, event.target) || event.kind.Upsert? ==> Current(db1, f)
      {
        assert Current(db, f) && FindingSafe(db, f) && ExposureSafe(db, f.service);
      }
    }
  }

  /** When nothing has to be closed, the accepted event displaces nothing at all. */
  lemma NothingDisplaced(db: Db, event: TargetEvent)
    requires Safe(db) && BindingFits(event) && event.kind.Upsert?
    requires event.target in db.targets
             ==> Accepts(db.targets[event.target], event) && !ChangesBinding(db.targets[event.target], event)
    ensures Displaced(Enter(db, event, Get(db.targets, event.target)), {}, event)
  {
    var db1 := Enter(db, event, Get(db.targets, event.target));
    EnterDisplaces(db, event);
    forall s ensures ExposureSafe(db1, s) {
      assert ExposureSafe(db, s);
      if s.target == event.target && s in db.exposures && db.exposures[s].row.open {
        assert db.exposures[s].row.address in Members(db.targets[event.target].addresses);
        assert db.exposures[s].row.address in Members(event.addresses);
      }
    }
  }

  lemma DisplacedNothingIsSafe(db: Db, event: TargetEvent)
    requires Displaced(db, {}, event)
    ensures Safe(db)
  {
  }

  lemma TargetEventKeeps(db: Db, event: TargetEvent, queueable: bool)
    requires Safe(db) && ApplyTargetEvent(db, event, queueable).Ok?
    ensures var db' := ApplyTargetEvent(db, event, queueable).value;
            Safe(db') && (Exact(db) ==> Exact(db'))
  {
    var db' := ApplyTargetEvent(db, event, queueable).value;
    if event.id in db.events {
    } else if event.target in db.targets && !Accepts(db.targets[event.target], event) {
      forall s ensures ExposureSafe(db', s) { assert ExposureSafe(db, s); }
      forall f ensures FindingSafe(db', f) && Grounded(db', f) && (Exact(db) ==> Current(db', f)) {
        assert FindingSafe(db, f) && Grounded(db, f) && (Exact(db) ==> Current(db, f));
      }
    } else {
      AcceptedEventKeeps(db, event, queueable);
    }
  }

  /** How an accepted event is settled. */
  function ClosingOf(db: Db, event: TargetEvent): Option<Closing> {
    var previous := Get(db.targets, event.target);
    ClosingFor(Enter(db, event, previous), event, previous.Some? && SkipsRemoval(previous.value, event),
               previous.Some? && ChangesBinding(previous.value, event))
  }

  predicate Accepted(db: Db, event: TargetEvent) {
    event.id !in db.events && (event.target in db.targets ==> Accepts(db.targets[event.target], event))
  }

  lemma AcceptedEventSettles(db: Db, event: TargetEvent, queueable: bool)
    requires Accepted(db, event) && ApplyTargetEvent(db, event, queueable).Ok?
    ensures BindingFits(event)
    ensures ApplyTargetEvent(db, event, queueable)
         == Settle(Enter(db, event, Get(db.targets, event.target)), event, ClosingOf(db, event), queueable)
  {
  }

  lemma AcceptedEventKeeps(db: Db, event: TargetEvent, queueable: bool)
    requires Safe(db) && Accepted(db, event) && ApplyTargetEvent(db, event, queueable).Ok?
    ensures var db' := ApplyTargetEvent(db, event, queueable).value;
            Safe(db') && (Exact(db) ==> Exact(db'))
  {
    AcceptedEventSettles(db, event, queueable);
    EnterDisplaces(db, event);
    var db1 := Enter(db, event, Get(db.targets, event.target));
    match ClosingOf(db, event)
    case None =>
      NothingDisplaced(db, event);
      DisplacedNothingIsSafe(db1, event);
    case Some(closing) =>
      if closing.services == {} {
        DisplacedNothingIsSafe(db1, event);
      } else {
        CloseAndReconcileKeeps(db1, closing, event, queueable);
      }
  }

  // ---------------------------------------------------------------- reconcile_all

  lemma ReconcileAllKeeps(db: Db, invocation: Id, now: Time, queueable: bool)
    requires Safe(db) && ReconcileAll(db, invocation, now, queueable).Ok?
    ensures var db' := ReconcileAll(db, invocation, now, queueable).value;
            && Safe(db')
            && (Exact(db) || invocation !in db.runs ==> Exact(db'))
  {
    if invocation !in db.runs {
      var batch := Batch(AllServices(db), FromReconciliation(invocation), now, map[]);
      ReconcileSafe(db, batch, queueable);
      var mid := Reconcile(db, batch, queueable).value;
      ReconcilingAllIsExact(db, batch, queueable);
      RunsDoNotMatter(mid, ReconcileAll(db, invocation, now, queueable).value.runs);
    }
  }

  lemma ReconcilingAllIsExact(db: Db, batch: Batch, queueable: bool)
    requires batch.services == AllServices(db) && Reconcile(db, batch, queueable).Ok?
    ensures Exact(Reconcile(db, batch, queueable).value)
  {
    var mid := Reconcile(db, batch, queueable).value;
    forall f ensures Current(mid, f) {
      ReconcileEffect(db, batch, queueable, f);
      if f.service !in batch.services {
        assert f.service !in db.exposures && Get(db.findings, f) == None;
      }
    }
  }

  lemma RunsDoNotMatter(db: Db, runs: map<Id, ReconciliationRun>)
    requires Safe(db) && Exact(db)
    ensures Safe(db.(runs := runs)) && Exact(db.(runs := runs))
  {
    var db' := db.(runs := runs);
    forall s ensures ExposureSafe(db', s) { assert ExposureSafe(db, s); }
    forall f ensures FindingSafe(db', f) && Grounded(db', f) && Current(db', f) {
      assert FindingSafe(db, f) && Grounded(db, f) && Current(db, f);
    }
  }

  /** On a database whose findings are exact, a full reconciliation rewrites no finding and appends no
      finding event. */
  lemma ReconcileAllIsIdentity(db: Db, invocation: Id, now: Time, queueable: bool)
    requires Exact(db) && ReconcileAll(db, invocation, now, queueable).Ok?
    ensures ReconcileAll(db, invocation, now, queueable).value.findings == db.findings
  {
    if invocation !in db.runs {
      var batch := Batch(AllServices(db), FromReconciliation(invocation), now, map[]);
      var findings := ReconcileFindings(db, batch);
      forall f ensures Get(findings, f) == Get(db.findings, f) {
        assert Current(db, f) && Get(findings, f) == FindingAfter(db, batch, f);
        if f.service in batch.services && f.service.target in db.targets {
          F.ReconcileLeavesUpToDate(Get(db.findings, f), db.targets[f.service.target], ExposureRow(db, f.service),
                                    Get(db.rules, f.rule), f.service.key, F.Cause(batch.source, now, None));
        }
      }
      SameLookups(findings, db.findings);
    }
  }

  lemma SameLookups<K, V>(a: map<K, V>, b: map<K, V>)
    requires forall k :: Get(a, k) == Get(b, k)
    ensures a == b
  {
    forall k ensures k in a <==> k in b { assert Get(a, k) == Get(b, k); }
    forall k | k in a ensures a[k] == b[k] { assert Get(a, k) == Get(b, k); }
  }

  // ---------------------------------------------------------------- every run

  lemma StepKeeps(db: Db, op: Op)
    requires Safe(db)
    ensures Safe(Execute(db, op))
    ensures Exact(db) && !op.EditRules? ==> Exact(Execute(db, op))
  {
    match op
    case TargetEventOp(event, q) => if ApplyTargetEvent(db, event, q).Ok? { TargetEventKeeps(db, event, q); }
    case ScanOp(env, obs, v, q) => if IngestScan(db, env, obs, v, q).Ok? { IngestKeeps(db, env, obs, v, q); }
    case ReconcileOp(i, now, q) => if ReconcileAll(db, i, now, q).Ok? { ReconcileAllKeeps(db, i, now, q); }
    case EditRules(rules) =>
      var db' := Execute(db, op);
      forall s ensures ExposureSafe(db', s) { assert ExposureSafe(db, s); }
      forall f ensures FindingSafe(db', f) && Grounded(db', f) { assert FindingSafe(db, f) && Grounded(db, f); }
  }

  /** After any run from the empty database, rule edits included, the store is safe: every stored
      finding is the one its event log replays to and is publishable, every exposure likewise, and an
      open exposure lies on an active target at an address of its current binding. */
  lemma {:induction false} EveryRunIsSafe(rules: map<Id, Rule>, ops: seq<Op>)
    ensures Safe(Run(EmptyDb(rules), ops))
    decreases |ops|
  {
    if ops != [] {
      EveryRunIsSafe(rules, ops[..|ops| - 1]);
      StepKeeps(Run(EmptyDb(rules), ops[..|ops| - 1]), ops[|ops| - 1]);
    }
  }

  /** With a fixed rule set, incremental maintenance equals recomputation after any run. */
  lemma {:induction false} EveryRunIsExact(rules: map<Id, Rule>, ops: seq<Op>)
    requires forall i :: 0 <= i < |ops| ==> !ops[i].EditRules?
    ensures Exact(Run(EmptyDb(rules), ops))
    decreases |ops|
  {
    if ops != [] {
      EveryRunIsExact(rules, ops[..|ops| - 1]);
      EveryRunIsSafe(rules, ops[..|ops| - 1]);
      StepKeeps(Run(EmptyDb(rules), ops[..|ops| - 1]), ops[|ops| - 1]);
    }
  }
}
