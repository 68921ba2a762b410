/** The three transactions of the exposure store as functions on the whole database. A transaction
    either succeeds with a new database or fails and, being rolled back, changes nothing. Rows of
    different services and fingerprints do not influence each other, so each table is described row
    by row. `queueable` is false exactly when finding export is enabled but no bucket is configured. */
module Store {
  import opened Base
  import opened Records
  import E = Exposures
  import F = Findings

  // ---------------------------------------------------------------- control of a port

  predicate Covers(attempt: Attempt, target: Id, generation: int, key: PortKey) {
    attempt.eligible && attempt.target == target && attempt.generation == generation && Covered(attempt.coverage, key)
  }

  /** The attempt is the latest eligible one, by (completion time, attempt id), that covers the port. */
  predicate Controls(attempts: map<Id, Attempt>, env: Envelope, key: PortKey) {
    && env.attempt in attempts && Covers(attempts[env.attempt], env.target, env.generation, key)
    && forall other :: other in attempts && other != env.attempt
                       && Covers(attempts[other], env.target, env.generation, key)
                       ==> Before(attempts[other].completedAt, other, attempts[env.attempt].completedAt, env.attempt)
  }

  // ---------------------------------------------------------------- scan evidence

  /** The observations as the dictionary the source builds from them. */
  function ByKey(observations: seq<Observation>): (m: map<PortKey, Observation>)
    ensures forall i :: 0 <= i < |observations| ==> observations[i].key in m
    ensures forall k :: k in m ==> m[k] in observations && m[k].key == k
  {
    if observations == [] then map[]
    else
      var last := observations[|observations| - 1];
      ByKey(observations[..|observations| - 1])[last.key := last]
  }

  /** What an attempt does to one port of its target. */
  function EvidenceAt(attempts: map<Id, Attempt>, env: Envelope, observed: map<PortKey, Observation>,
                      before: Option<ExposureRecord>, key: PortKey): E.Change
  {
    if key in observed then
      if !Controls(attempts, env, key) then E.Change(false, None, before)
      else match observed[key].state
        case Open => E.OpenExposure(before, env, observed[key])
        case Closed => CloseBy(before, env, key, ExplicitClosed)
        case Filtered => CloseBy(before, env, key, ExplicitFiltered)
        case Unknown => E.Change(false, None, before)
    else if before.Some? && Covered(env.coverage, key) && Controls(attempts, env, key) then
      CloseBy(before, env, key, CoverageAbsence)
    else
      E.Change(false, None, before)
  }

  function CloseBy(before: Option<ExposureRecord>, env: Envelope, key: PortKey, reason: ClosureReason): E.Change {
    if Covered(env.coverage, key) then
      E.CloseExposure(before, env.generation, Some(env.attempt), FromAttempt(env.attempt), env.completedAt, reason)
    else E.Change(false, None, before)
  }

  function EvidenceFor(db: Db, env: Envelope, observed: map<PortKey, Observation>, s: Service): E.Change {
    var before := Get(db.exposures, s);
    if s.target == env.target then EvidenceAt(db.attempts, env, observed, before, s.key)
    else E.Change(false, None, before)
  }

  /** The services an attempt can touch: those with a row and those it observed. */
  function Touchable(db: Db, env: Envelope, observed: map<PortKey, Observation>): set<Service> {
    db.exposures.Keys + set k | k in observed.Keys :: Service(env.target, k)
  }

  function ApplyEvidence(db: Db, env: Envelope, observed: map<PortKey, Observation>): (m: map<Service, ExposureRecord>)
    ensures forall s :: Get(m, s) == EvidenceFor(db, env, observed, s).record
  {
    map s | s in Touchable(db, env, observed) && EvidenceFor(db, env, observed, s).record.Some?
      :: EvidenceFor(db, env, observed, s).record.value
  }

  function Affected(db: Db, env: Envelope, observed: map<PortKey, Observation>): (services: set<Service>)
    ensures forall s :: s in services <==> EvidenceFor(db, env, observed, s).applied
  {
    set s | s in Touchable(db, env, observed) && EvidenceFor(db, env, observed, s).applied
  }

  function Transitions(db: Db, env: Envelope, observed: map<PortKey, Observation>): map<Service, Transition> {
    map s | s in Affected(db, env, observed) && EvidenceFor(db, env, observed, s).transition.Some?
      :: EvidenceFor(db, env, observed, s).transition.value
  }

  // ---------------------------------------------------------------- reconciling findings

  function ExposureRow(db: Db, s: Service): Option<Exposure> {
    if s in db.exposures then Some(db.exposures[s].row) else None
  }

  datatype Batch = Batch(services: set<Service>, source: Source, at: Time, transitions: map<Service, Transition>)

  function FindingAfter(db: Db, batch: Batch, f: Fingerprint): Option<FindingRecord> {
    var before := Get(db.findings, f);
    if f.service in batch.services && f.service.target in db.targets then
      F.ReconcileFinding(before, db.targets[f.service.target], ExposureRow(db, f.service), Get(db.rules, f.rule),
                         f.service.key, F.Cause(batch.source, batch.at, Get(batch.transitions, f.service)))
    else before
  }

  function Candidates(db: Db, batch: Batch): set<Fingerprint> {
    db.findings.Keys + set s, r | s in batch.services && r in db.rules.Keys :: Fingerprint(s, r)
  }

  function ReconcileFindings(db: Db, batch: Batch): (m: map<Fingerprint, FindingRecord>)
    ensures forall f :: Get(m, f) == FindingAfter(db, batch, f)
  {
    map f | f in Candidates(db, batch) && FindingAfter(db, batch, f).Some? :: FindingAfter(db, batch, f).value
  }

  predicate Stops(rule: Rule, key: PortKey, queueable: bool) {
    F.RuleMatches(rule, key).Err? || (F.RuleMatches(rule, key) == Ok(true) && !queueable)
  }

  /** An open finding of the service that no rule selects any more. */
  predicate Lapsed(db: Db, s: Service, f: Fingerprint)
    requires s.target in db.targets
  {
    && f in db.findings && f.service == s && db.findings[f].row.status.Unresolved?
    && !F.Selected(db.targets[s.target], ExposureRow(db, s), Get(db.rules, f.rule), s.key)
  }

  /** Reconciling a service raises when its target is unknown, when a rule it has to be matched against
      is malformed, or when a finding would change hands without a bucket to publish to. */
  predicate Rejects(db: Db, s: Service, queueable: bool) {
    s.target !in db.targets
    || (&& ExposureRow(db, s).Some? && ExposureRow(db, s).value.open && db.targets[s.target].status.Active?
        && exists r :: r in db.rules && Stops(db.rules[r], s.key, queueable))
    || (!queueable && exists f :: f in db.findings && Lapsed(db, s, f))
  }

  function Reconcile(db: Db, batch: Batch, queueable: bool): Result<Db, StoreError> {
    if exists s :: s in batch.services && Rejects(db, s, queueable) then Err(ReconciliationRejected)
    else Ok(db.(findings := ReconcileFindings(db, batch)))
  }

  // ---------------------------------------------------------------- ingest_scan

  datatype IngestOutcome = IngestOutcome(db: Db, duplicate: bool, stale: bool, eligible: bool)

  /** The attempt speaks about the target as it is now. */
  predicate CurrentAttempt(target: Target, env: Envelope) {
    env.generation == target.generation && target.status.Active? && env.address in target.addresses
  }

  predicate DistinctKeys(observations: seq<Observation>) {
    forall i, j :: 0 <= i < j < |observations| ==> observations[i].key != observations[j].key
  }

  function LatestOf(previous: Option<Time>, at: Time): Option<Time> {
    Some(if previous.Some? then Max(previous.value, at) else at)
  }

  function IngestScan(db: Db, env: Envelope, observations: seq<Observation>, validated: bool, queueable: bool)
    : Result<IngestOutcome, StoreError>
  {
    match CheckScan(db, env, observations)
    case Err(e) => Err(e)
    case Ok(Some(existing)) => Ok(IngestOutcome(db, true, existing.stale, existing.eligible))
    case Ok(None) =>
      var target := db.targets[env.target];
      var stale := env.generation != target.generation;
      var eligible := CurrentAttempt(target, env) && env.complete && validated;
      var recorded := RecordAttempt(db, env, stale, eligible);
      if !eligible then Ok(IngestOutcome(recorded, false, stale, false))
      else
        match Absorb(recorded, env, ByKey(observations), queueable)
        case Err(e) => Err(e)
        case Ok(db') => Ok(IngestOutcome(db', false, stale, true))
  }

  /** What is checked before anything is written: an error, the attempt that this one repeats, or None. */
  function CheckScan(db: Db, env: Envelope, observations: seq<Observation>)
    : (result: Result<Option<Attempt>, StoreError>)
    ensures result.Ok? ==> env.target in db.targets
  {
    if env.target !in db.targets then Err(UnknownTarget)
    else if db.targets[env.target].identity.provider != env.provider then Err(ScanMismatch)
    else if env.targetEvent !in db.events then Err(UnknownTarget)
    else
      var event := db.events[env.targetEvent];
      if event.target != env.target || event.generation != env.generation || event.provider != env.provider then
        Err(ScanMismatch)
      else if exists a :: a in db.attempts && a != env.attempt && db.attempts[a].result == env.result then
        Err(AttemptConflict)
      else if env.attempt in db.attempts then
        var existing := db.attempts[env.attempt];
        if existing.result != env.result || existing.evidence != env.evidence then Err(AttemptConflict)
        else Ok(Some(existing))
      else if !DistinctKeys(observations)
           || exists i :: 0 <= i < |observations| && observations[i].address != env.address then
        Err(InvalidObservations)
      else Ok(None)
  }

  function RecordAttempt(db: Db, env: Envelope, stale: bool, eligible: bool): Db
    requires env.target in db.targets
  {
    var target := db.targets[env.target];
    var attempt := Attempt(env.result, env.target, env.generation, env.completedAt, stale, eligible, env.evidence,
                           env.coverage);
    var target' := if CurrentAttempt(target, env) then
                     target.(lastAttemptAt := LatestOf(target.lastAttemptAt, env.completedAt),
                             lastConfirmedAt := if eligible then LatestOf(target.lastConfirmedAt, env.completedAt)
                                                else target.lastConfirmedAt)
                   else target;
    db.(attempts := db.attempts[env.attempt := attempt], targets := db.targets[env.target := target'])
  }

  /** Applies eligible evidence to the exposures, then brings the affected findings up to date. */
  function Absorb(db: Db, env: Envelope, observed: map<PortKey, Observation>, queueable: bool): Result<Db, StoreError> {
    var batch := Batch(Affected(db, env, observed), FromAttempt(env.attempt), env.completedAt,
                       Transitions(db, env, observed));
    Reconcile(db.(exposures := ApplyEvidence(db, env, observed)), batch, queueable)
  }

  // ---------------------------------------------------------------- apply_target_event

  predicate BindingFits(event: TargetEvent) {
    match event.kind
    case Removal => event.addresses == []
    case Upsert => event.addresses != []
  }

  predicate Accepts(target: Target, event: TargetEvent) {
    event.generation > target.generation
    || (event.generation == target.generation && event.observedAt >= target.observedAt)
  }

  /** A reactivation that skipped a generation, hence the removal in between. */
  predicate SkipsRemoval(target: Target, event: TargetEvent) {
    event.kind.Upsert? && event.newTarget && target.status.Active? && event.generation > target.generation + 1
  }

  predicate ChangesBinding(target: Target, event: TargetEvent) {
    event.kind.Upsert? && Members(target.addresses) != Members(event.addresses)
  }

  function RemovalTime(event: TargetEvent): Time {
    if event.removedAt.Some? then event.removedAt.value else event.observedAt
  }

  /** The target row after an accepted event; `previous` carries over what events do not set. */
  function TargetAfter(previous: Option<Target>, event: TargetEvent): Target {
    Target(event.identity, event.location, event.generation, if event.kind.Removal? then Removed else Active,
           event.addresses, event.context, event.observedAt,
           if previous.Some? then previous.value.lastAttemptAt else None,
           if previous.Some? then previous.value.lastConfirmedAt else None,
           if event.kind.Removal? then Some(RemovalTime(event)) else None)
  }

  /** Services of the target with an open exposure or an open finding. */
  function LiveServices(db: Db, target: Id): set<Service> {
    (set s | s in db.exposures && s.target == target && db.exposures[s].row.open)
    + set f | f in db.findings && f.service.target == target && db.findings[f].row.status.Unresolved? :: f.service
  }

  /** Services whose open exposure or open finding was seen at an address outside the binding. */
  function MisboundServices(db: Db, target: Id, binding: seq<Id>): set<Service> {
    (set s | s in db.exposures && s.target == target && db.exposures[s].row.open
             && db.exposures[s].row.address !in binding)
    + set f | f in db.findings && f.service.target == target && db.findings[f].row.status.Unresolved?
              && db.findings[f].row.address !in binding :: f.service
  }

  /** What an accepted event has to close, when, and why. */
  datatype Closing = Closing(services: set<Service>, at: Time, reason: ClosureReason)

  function CloseServices(exposures: map<Service, ExposureRecord>, closing: Closing, event: TargetEvent)
    : map<Service, ExposureRecord>
  {
    map s | s in exposures
      :: if s in closing.services then CloseForEvent(exposures[s], closing, event) else exposures[s]
  }

  function CloseForEvent(record: ExposureRecord, closing: Closing, event: TargetEvent): ExposureRecord {
    E.CloseExposure(Some(record), event.generation, None, FromTargetEvent(event.id), closing.at,
                    closing.reason).record.value
  }

  /** Closes the services and reconciles their findings; the transitions label the findings' cause. */
  function CloseAndReconcile(db: Db, closing: Closing, event: TargetEvent, queueable: bool): Result<Db, StoreError> {
    Reconcile(db.(exposures := CloseServices(db.exposures, closing, event)), ClosingBatch(closing, event), queueable)
  }

  function ClosingBatch(closing: Closing, event: TargetEvent): Batch {
    Batch(closing.services, FromTargetEvent(event.id), closing.at, map s | s in closing.services :: Shut)
  }

  function EventRowOf(event: TargetEvent, accepted: bool): EventRow {
    EventRow(event.target, event.generation, event.kind, event.identity.provider, accepted, !accepted)
  }

  function ApplyTargetEvent(db: Db, event: TargetEvent, queueable: bool): Result<Db, StoreError> {
    if !BindingFits(event) then Err(InvalidEvent)
    else if event.id in db.events then Ok(db)
    else if event.target !in db.targets then
      if exists t :: t in db.targets && db.targets[t].identity == event.identity then Err(IdentityConflict)
      else
        var entered := Enter(db, event, None);
        Settle(entered, event, ClosingFor(entered, event, false, false), queueable)
    else
      var target := db.targets[event.target];
      if target.identity != event.identity then Err(IdentityConflict)
      else if !Accepts(target, event) then Ok(db.(events := db.events[event.id := EventRowOf(event, false)]))
      else
        var entered := Enter(db, event, Some(target));
        Settle(entered, event, ClosingFor(entered, event, SkipsRemoval(target, event), ChangesBinding(target, event)),
               queueable)
  }

  /** Writes the accepted event and the new target row. */
  function Enter(db: Db, event: TargetEvent, previous: Option<Target>): Db {
    db.(events := db.events[event.id := EventRowOf(event, true)],
        targets := db.targets[event.target := TargetAfter(previous, event)])
  }

  /** The services the new target row no longer supports. */
  function ClosingFor(db: Db, event: TargetEvent, skipsRemoval: bool, changesBinding: bool): Option<Closing> {
    if event.kind.Removal? then
      Some(Closing(LiveServices(db, event.target), RemovalTime(event), OwnershipRemoved))
    else if skipsRemoval then
      Some(Closing(LiveServices(db, event.target), event.observedAt, GenerationGapReactivation))
    else if changesBinding then
      Some(Closing(MisboundServices(db, event.target, event.addresses), event.observedAt, AddressBindingChanged))
    else None
  }

  function Settle(db: Db, event: TargetEvent, closing: Option<Closing>, queueable: bool): Result<Db, StoreError> {
    if closing.None? || closing.value.services == {} then Ok(db)
    else if event.kind.Upsert? && !queueable then Err(HandoffBucketMissing)
    else CloseAndReconcile(db, closing.value, event, queueable)
  }

  // ---------------------------------------------------------------- reconcile_all

  function AllServices(db: Db): set<Service> {
    db.exposures.Keys + set f | f in db.findings :: f.service
  }

  function ReconcileAll(db: Db, invocation: Id, now: Time, queueable: bool): Result<Db, StoreError> {
    if !queueable then Err(HandoffBucketMissing)
    else if invocation in db.runs then Ok(db)
    else
      match Reconcile(db, Batch(AllServices(db), FromReconciliation(invocation), now, map[]), queueable)
      case Err(e) => Err(e)
      case Ok(db') => Ok(db'.(runs := db.runs[invocation := ReconciliationRun(now, |AllServices(db)|)]))
  }

  // ---------------------------------------------------------------- runs

  datatype Op =
    | TargetEventOp(event: TargetEvent, queueable: bool)
    | ScanOp(env: Envelope, observations: seq<Observation>, validated: bool, queueable: bool)
    | ReconcileOp(invocation: Id, now: Time, queueable: bool)
    | EditRules(rules: map<Id, Rule>)

  /** One transaction: a failing one leaves the database as it was. */
  function Execute(db: Db, op: Op): Db {
    match op
    case TargetEventOp(event, q) => (match ApplyTargetEvent(db, event, q) case Ok(d) => d case Err(_) => db)
    case ScanOp(env, obs, v, q) => (match IngestScan(db, env, obs, v, q) case Ok(o) => o.db case Err(_) => db)
    case ReconcileOp(i, now, q) => (match ReconcileAll(db, i, now, q) case Ok(d) => d case Err(_) => db)
    case EditRules(rules) => db.(rules := rules)
  }

  function Run(db: Db, ops: seq<Op>): Db {
    if ops == [] then db else Execute(Run(db, ops[..|ops| - 1]), ops[|ops| - 1])
  }
}
