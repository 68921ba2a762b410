/** Why every event in the logs is there: each transaction adds at most one event to a log, and what that
    event says of its cause is what was the case in the transaction that wrote it. */
module Reasons {
  import opened Base
  import opened Records
  import opened Store
  import E = Exposures
  import F = Findings
  import opened StoreSafety
  import T = StoreTheorems

  // ---------------------------------------------------------------- exposures

  /** Newer than the row, first by generation, then by completion time, then by attempt id. */
  predicate Newer(env: Envelope, row: Exposure) {
    || env.generation > row.lastGeneration
    || (env.generation == row.lastGeneration
        && (|| env.completedAt > row.lastConfirmedAt
            || (env.completedAt == row.lastConfirmedAt && env.attempt > row.lastAttempt)))
  }

  function RowOf(record: Option<ExposureRecord>): Option<Exposure> {
    if record.Some? then Some(record.value.row) else None
  }

  function LogOf(record: Option<ExposureRecord>): seq<ExposureEvent> {
    if record.Some? then record.value.log else []
  }

  /** What a scan read at a port: None if it did not list the port. */
  function ReadingIn(observed: map<PortKey, Observation>, key: PortKey): Option<PortState> {
    if key in observed then Some(observed[key].state) else None
  }

  /** An event that a scan caused. */
  predicate ScanTold(was: Option<Exposure>, env: Envelope, reading: Option<PortState>, e: ExposureEvent) {
    && e.source == FromAttempt(env.attempt) && e.generation == env.generation
    && e.at == (if was.Some? then Max(was.value.lastConfirmedAt, env.completedAt) else env.completedAt)
    && e.previousIdentity == (if was.Some? then Some(was.value.identity) else None)
    && match e.change
       case OpenObservation =>
         && reading == Some(Open) && (was.Some? ==> !was.value.open)
         && e.transition == if was.Some? then Reopened else Opened
       case ServiceChanged =>
         reading == Some(Open) && e.transition.Updated? && was.Some? && was.value.open
             && was.value.identity != e.identity
       case AddressChanged =>
         && reading == Some(Open) && e.transition.Updated? && was.Some? && was.value.open
         && was.value.identity == e.identity && was.value.address != env.address
       case ClosedFor(reason) =>
         && e.transition.Shut? && was.Some? && was.value.open && was.value.identity == e.identity
         && match reason
            case ExplicitClosed => reading == Some(Closed)
            case ExplicitFiltered => reading == Some(Filtered)
            case CoverageAbsence => reading == None
            case _ => false
  }

  /** At most one event more, and that event told; the transition reported is that of the event. */
  predicate ScanChange(before: Option<ExposureRecord>, change: E.Change, env: Envelope, reading: Option<PortState>) {
    var was, now := LogOf(before), LogOf(change.record);
    if change.transition.None? then now == was
    else
      && |now| == |was| + 1 && now[..|was|] == was && now[|was|].transition == change.transition.value
      && ScanTold(RowOf(before), env, reading, now[|was|])
  }

  /** What an applied observation of an open port leaves in the row. */
  predicate Seen(was: Option<Exposure>, row: Exposure, env: Envelope, obs: Observation) {
    && row.open && row.address == obs.address && row.service == obs.service && row.identity == obs.identity
    && row.lastAttempt == env.attempt && row.lastGeneration == env.generation
    && row.lastConfirmedAt == (if was.Some? then Max(was.value.lastConfirmedAt, env.completedAt) else env.completedAt)
    && row.firstOpenedAt == (if was.Some? then was.value.firstOpenedAt else env.completedAt)
  }

  /** An observation of an open port counts exactly if it is newer than the row, and is an event unless the
      same service was open at the same address. */
  lemma OpeningTells(before: Option<ExposureRecord>, env: Envelope, obs: Observation)
    requires before.Some? ==> E.Consistent(before.value)
    requires obs.address == env.address
    ensures var change := E.OpenExposure(before, env, obs);
            && (change.applied <==> before.None? || Newer(env, before.value.row))
            && (change.applied ==> change.record.Some? && Seen(RowOf(before), change.record.value.row, env, obs))
            && (!change.applied ==> change.record == before)
            && (change.transition.None? <==>
                  !change.applied || (before.Some? && before.value.row.open && before.value.row.identity == obs.identity
                                      && before.value.row.address == obs.address))
            && ScanChange(before, change, env, Some(Open))
  {
  }

  /** What closing by a scan leaves in the row. */
  predicate Gone(was: Exposure, row: Exposure, env: Envelope) {
    && !row.open && row.address == was.address && row.service == was.service && row.identity == was.identity
    && row.lastAttempt == env.attempt && row.lastGeneration == env.generation
    && row.lastConfirmedAt == Max(was.lastConfirmedAt, env.completedAt) && row.firstOpenedAt == was.firstOpenedAt
  }

  /** Closing by a scan counts exactly if it is newer than the row, and is an event if the port was open. */
  lemma ClosingTells(before: Option<ExposureRecord>, env: Envelope, reading: Option<PortState>, reason: ClosureReason)
    requires before.Some? ==> E.Consistent(before.value)
    requires match reason
             case ExplicitClosed => reading == Some(Closed)
             case ExplicitFiltered => reading == Some(Filtered)
             case CoverageAbsence => reading == None
             case _ => false
    ensures var change := E.CloseExposure(before, env.generation, Some(env.attempt), FromAttempt(env.attempt),
                                          env.completedAt, reason);
            && (change.applied <==> before.Some? && Newer(env, before.value.row))
            && (change.applied ==> change.record.Some? && Gone(before.value.row, change.record.value.row, env))
            && (!change.applied ==> change.record == before)
            && (change.transition.None? <==> !change.applied || !before.value.row.open)
            && (change.transition.Some? ==> change.record.value.row.closureReason == Some(reason))
            && ScanChange(before, change, env, reading)
  {
  }

  /** Evidence takes effect exactly where its attempt controls the port, its reading is not "unknown", and it
      is newer than the row; closing needs coverage and a row. */
  lemma EvidenceTells(attempts: map<Id, Attempt>, env: Envelope, observed: map<PortKey, Observation>,
                      before: Option<ExposureRecord>, key: PortKey)
    requires before.Some? ==> E.Consistent(before.value)
    requires forall k :: k in observed ==> observed[k].address == env.address
    ensures var change, reading := EvidenceAt(attempts, env, observed, before, key), ReadingIn(observed, key);
            && (change.applied <==>
                  && Controls(attempts, env, key) && (before.Some? ==> Newer(env, before.value.row))
                  && (reading == Some(Open)
                      || (before.Some? && Covered(env.coverage, key)
                          && (reading == None || reading == Some(Closed) || reading == Some(Filtered)))))
            && (!change.applied ==> change.record == before && change.transition.None?)
            && (change.applied ==>
                  && change.record.Some?
                  && if reading == Some(Open) then
                       Seen(RowOf(before), change.record.value.row, env, observed[key])
                     else Gone(before.value.row, change.record.value.row, env))
            && ScanChange(before, change, env, reading)
  {
    if key in observed {
      match observed[key].state
      case Open => OpeningTells(before, env, observed[key]);
      case Closed => ClosingTells(before, env, Some(Closed), ExplicitClosed);
      case Filtered => ClosingTells(before, env, Some(Filtered), ExplicitFiltered);
      case Unknown =>
    } else {
      ClosingTells(before, env, None, CoverageAbsence);
    }
  }

  /** The attempt is the target's present one, complete and validated: what makes a scan count. */
  predicate Counts(db: Db, env: Envelope, validated: bool) {
    && env.target in db.targets && db.targets[env.target].status.Active?
    && env.generation == db.targets[env.target].generation && env.address in db.targets[env.target].addresses
    && env.complete && validated
  }

  /** A target row notes the latest attempt that speaks of it as it is, and the latest that counts. */
  function Noted(t: Target, env: Envelope, counts: bool): (noted: Target)
    ensures T.SameTarget(t, noted)
  {
    var latest := (previous: Option<Time>) => Some(if previous.Some? then Max(previous.value, env.completedAt)
                                                   else env.completedAt);
    if t.status.Active? && env.generation == t.generation && env.address in t.addresses then
      t.(lastAttemptAt := latest(t.lastAttemptAt),
         lastConfirmedAt := if counts then latest(t.lastConfirmedAt) else t.lastConfirmedAt)
    else t
  }

  /** A scan is taken in exactly if it agrees with its target and its target event, its result is no other
      attempt's, and it either repeats its attempt or reads each port once, at its own address. Each refusal
      names its cause. */
  lemma ScansAreChecked(db: Db, env: Envelope, observations: seq<Observation>)
    ensures var known := env.target in db.targets && env.targetEvent in db.events;
            var fits := known && db.targets[env.target].identity.provider == env.provider
                        && var e := db.events[env.targetEvent];
                           e.target == env.target && e.generation == env.generation && e.provider == env.provider;
            var taken := exists a :: a in db.attempts && a != env.attempt && db.attempts[a].result == env.result;
            var repeats := env.attempt in db.attempts && db.attempts[env.attempt].result == env.result
                           && db.attempts[env.attempt].evidence == env.evidence;
            var readable := && (forall i, j :: 0 <= i < j < |observations| ==>
                                  observations[i].key != observations[j].key)
                            && (forall i :: 0 <= i < |observations| ==> observations[i].address == env.address);
            match CheckScan(db, env, observations)
            case Ok(Some(existing)) => fits && !taken && repeats && existing == db.attempts[env.attempt]
            case Ok(None) => fits && !taken && env.attempt !in db.attempts && readable
            case Err(UnknownTarget) => !known
            case Err(ScanMismatch) =>
              && env.target in db.targets && !fits
              && (env.targetEvent in db.events || db.targets[env.target].identity.provider != env.provider)
            case Err(AttemptConflict) => fits && (taken || (env.attempt in db.attempts && !repeats))
            case Err(InvalidObservations) => fits && !taken && env.attempt !in db.attempts && !readable
            case Err(_) => false
  {
  }

  /** A target event is taken in unless it has addresses where a removal has none or the other way round, or
      is new and would give its target, or its provider identity, to another; apart from that only the
      reconciliation of what it closes can fail. */
  lemma TargetEventsAreChecked(db: Db, event: TargetEvent, queueable: bool)
    ensures var result := ApplyTargetEvent(db, event, queueable);
            var fits := event.kind.Removal? <==> event.addresses == [];
            var clashes := if event.target in db.targets then db.targets[event.target].identity != event.identity
                           else exists t :: t in db.targets && db.targets[t].identity == event.identity;
            && (result == Err(InvalidEvent) <==> !fits)
            && (result == Err(IdentityConflict) <==> fits && event.id !in db.events && clashes)
            && (result == Err(HandoffBucketMissing) ==> event.kind.Upsert? && !queueable)
            && (result.Err? ==> result.error.InvalidEvent? || result.error.IdentityConflict?
                                || result.error.HandoffBucketMissing? || result.error.ReconciliationRejected?)
  {
  }

  /** A scan that is not a repetition is recorded; it counts, and then acts on each port as evidence does, or
      changes no exposure and no finding. */
  lemma ScansTell(db: Db, env: Envelope, observations: seq<Observation>, validated: bool, queueable: bool, s: Service)
    requires Safe(db) && IngestScan(db, env, observations, validated, queueable).Ok?
    ensures var o := IngestScan(db, env, observations, validated, queueable).value;
            && (o.duplicate <==> env.attempt in db.attempts)
            && (o.duplicate ==>
                  && o.db == db && o.stale == db.attempts[env.attempt].stale
                  && o.eligible == db.attempts[env.attempt].eligible)
            && (!o.duplicate ==>
                  && o.eligible == Counts(db, env, validated)
                  && (o.stale <==> env.generation != db.targets[env.target].generation)
                  && o.db.targets == db.targets[env.target := Noted(db.targets[env.target], env, o.eligible)]
                  && o.db.events == db.events && o.db.rules == db.rules && o.db.runs == db.runs
                  && o.db.attempts == db.attempts[env.attempt :=
                       Attempt(env.result, env.target, env.generation, env.completedAt, o.stale, o.eligible,
                               env.evidence, env.coverage)]
                  && (!o.eligible ==> o.db.exposures == db.exposures && o.db.findings == db.findings)
                  && (o.eligible && s.target != env.target ==> Get(o.db.exposures, s) == Get(db.exposures, s))
                  && (o.eligible && s.target == env.target ==>
                        var change := EvidenceAt(o.db.attempts, env, ByKey(observations), Get(db.exposures, s), s.key);
                        Get(o.db.exposures, s) == change.record))
  {
    var o := IngestScan(db, env, observations, validated, queueable).value;
    if !o.duplicate {
      RecordingTells(db, env, o.stale, o.eligible);
      if o.eligible { AbsorbingTells(RecordAttempt(db, env, o.stale, true), env, ByKey(observations), queueable, s); }
    }
  }

  lemma RecordingTells(db: Db, env: Envelope, stale: bool, eligible: bool)
    requires env.target in db.targets
    ensures var recorded := RecordAttempt(db, env, stale, eligible);
            && recorded.targets == db.targets[env.target := Noted(db.targets[env.target], env, eligible)]
            && recorded == db.(targets := recorded.targets,
                               attempts := db.attempts[env.attempt :=
                                 Attempt(env.result, env.target, env.generation, env.completedAt, stale, eligible,
                                         env.evidence, env.coverage)])
  {
  }

  lemma AbsorbingTells(db: Db, env: Envelope, observed: map<PortKey, Observation>, queueable: bool, s: Service)
    requires Absorb(db, env, observed, queueable).Ok?
    ensures var after := Absorb(db, env, observed, queueable).value;
            && after == db.(exposures := after.exposures, findings := after.findings)
            && Get(after.exposures, s)
               == if s.target == env.target then
                    EvidenceAt(db.attempts, env, observed, Get(db.exposures, s), s.key).record
                  else Get(db.exposures, s)
  {
    assert Get(ApplyEvidence(db, env, observed), s) == EvidenceFor(db, env, observed, s).record;
  }

  // ---------------------------------------------------------------- exposures closed by target events

  /** An event that a target event caused: the service was open, and the target is removed, was announced
      anew across a removal that never arrived, or has lost the address. */
  predicate TargetTold(was: Exposure, previous: Target, event: TargetEvent, e: ExposureEvent) {
    && e.source == FromTargetEvent(event.id) && e.generation == event.generation && e.transition.Shut?
    && was.open && e.identity == was.identity && e.previousIdentity == Some(was.identity)
    && e.at == Max(was.lastConfirmedAt, EffectiveAt(event))
    && e.change.ClosedFor?
    && match e.change.reason
       case OwnershipRemoved => event.kind.Removal?
       case GenerationGapReactivation => Skips(previous, event)
       case AddressBindingChanged =>
         event.kind.Upsert? && !Skips(previous, event) && was.address !in event.addresses
       case _ => false
  }

  /** When the event took effect: for a removal that says when, then. */
  function EffectiveAt(event: TargetEvent): Time {
    if event.kind.Removal? && event.removedAt.Some? then event.removedAt.value else event.observedAt
  }

  predicate Skips(previous: Target, event: TargetEvent) {
    event.kind.Upsert? && event.newTarget && previous.status.Active? && event.generation > previous.generation + 1
  }

  /** Which open services of its target an accepted event closes. */
  predicate Closes(previous: Target, event: TargetEvent, was: Exposure) {
    was.open && (event.kind.Removal? || Skips(previous, event) || was.address !in event.addresses)
  }

  /** An event of a known target closes exactly the open services that it takes the ground from, each with
      one event that names the reason; nothing else changes in any exposure. */
  lemma TargetEventsTell(db: Db, event: TargetEvent, queueable: bool, s: Service)
    requires Safe(db) && ApplyTargetEvent(db, event, queueable).Ok?
    ensures var after := ApplyTargetEvent(db, event, queueable).value;
            if && event.id !in db.events && s.target == event.target && s in db.exposures && s.target in db.targets
               && T.AtLeast(event, db.targets[s.target].generation, db.targets[s.target].observedAt)
               && Closes(db.targets[s.target], event, db.exposures[s].row) then
              && s in after.exposures && !after.exposures[s].row.open
              && after.exposures[s].row.lastGeneration == event.generation
              && var log, n := after.exposures[s].log, |db.exposures[s].log|;
                 && |log| == n + 1 && log[..n] == db.exposures[s].log
                 && TargetTold(db.exposures[s].row, db.targets[s.target], event, log[n])
                 && log[n].change == ClosedFor(after.exposures[s].row.closureReason.value)
            else Get(after.exposures, s) == Get(db.exposures, s)
  {
    if event.id !in db.events && Accepted(db, event) {
      AcceptedEventSettles(db, event, queueable);
      var previous := Get(db.targets, event.target);
      var entered := Enter(db, event, previous);
      ClosedServices(db, event, s);
      SettledExposures(entered, event, ClosingOf(db, event), queueable, s);
    }
    assert ExposureSafe(db, s);
  }

  /** What the accepted event goes on to close. */
  lemma ClosedServices(db: Db, event: TargetEvent, s: Service)
    requires Safe(db) && Accepted(db, event) && BindingFits(event)
    ensures var closing := ClosingOf(db, event);
            var closes := s in db.exposures && s.target == event.target && s.target in db.targets
                          && Closes(db.targets[s.target], event, db.exposures[s].row);
            && ExposureSafe(db, s)
            && (closes ==> closing.Some? && s in closing.value.services)
            && (closing.Some? && s in closing.value.services && s in db.exposures && s.target in db.targets ==>
                  (db.exposures[s].row.open ==> closes)
                  && closing.value.reason == (if event.kind.Removal? then OwnershipRemoved
                                              else if Skips(db.targets[s.target], event) then GenerationGapReactivation
                                              else AddressBindingChanged)
                  && closing.value.at == EffectiveAt(event))
  {
    assert ExposureSafe(db, s);
    forall f | f in db.findings && f.service == s && db.findings[f].row.status.Unresolved?
      ensures s in db.exposures && db.exposures[s].row.open
              && db.findings[f].row.address == db.exposures[s].row.address
    {
      assert Grounded(db, f);
    }
    if s in db.exposures && s.target == event.target && db.exposures[s].row.open && event.kind.Upsert?
       && !SkipsRemoval(db.targets[s.target], event) && db.exposures[s].row.address !in event.addresses {
      assert db.exposures[s].row.address in Members(db.targets[s.target].addresses);
    }
  }

  lemma SettledExposures(db: Db, event: TargetEvent, closing: Option<Closing>, queueable: bool, s: Service)
    requires Settle(db, event, closing, queueable).Ok?
    ensures var after := Settle(db, event, closing, queueable).value;
            Get(after.exposures, s)
            == if closing.Some? && s in closing.value.services && s in db.exposures then
                 Some(CloseForEvent(db.exposures[s], closing.value, event))
               else Get(db.exposures, s)
  {
  }

  /** Without somewhere to publish to, an announcement that would close a service is refused. */
  lemma UnpublishableIsRefused(db: Db, event: TargetEvent, s: Service)
    requires Safe(db) && BindingFits(event) && event.kind.Upsert? && event.id !in db.events
    requires s in db.exposures && s.target == event.target && s.target in db.targets
    requires db.targets[s.target].identity == event.identity
    requires T.AtLeast(event, db.targets[s.target].generation, db.targets[s.target].observedAt)
    requires Closes(db.targets[s.target], event, db.exposures[s].row)
    ensures ApplyTargetEvent(db, event, false) == Err(HandoffBucketMissing)
  {
    ClosedServices(db, event, s);
  }

  // ---------------------------------------------------------------- findings

  /** What a finding event says of its cause: the source and the generation, and the reason by what target,
      exposure and rule now are, and the finding was. */
  predicate FindingTold(was: Option<Finding>, t: Target, exposure: Option<Exposure>, rule: Option<Rule>, source: Source,
                        at: Time, reopened: bool, key: PortKey, e: FindingEvent)
  {
    && e.source == source && e.generation == t.generation
    && e.at == ToldAt(was, if e.next.Unresolved? then exposure else None, at)
    && match e.kind
       case FindingOpened =>
         && was.None?
         && e.reason == (if source.FromReconciliation? then ReconciliationRepair
                         else if reopened then ExposureReopened else ExposureOpen)
       case FindingReopened =>
         && was.Some? && was.value.status.Resolved?
         && e.reason == (if source.FromReconciliation? then ReconciliationRepair else ExposureReopened)
       case FindingUpdated =>
         && was.Some? && was.value.status.Unresolved? && exposure.Some? && rule.Some?
         && (match e.reason
             case FindingServiceChanged => was.value.identity != exposure.value.identity
             case FindingAddressChanged =>
               was.value.identity == exposure.value.identity && was.value.address != exposure.value.address
             case RuleChanged =>
               && was.value.identity == exposure.value.identity && was.value.address == exposure.value.address
               && (was.value.severity != rule.value.severity || was.value.title != rule.value.name
                   || was.value.description != rule.value.description)
             case _ => false)
       case FindingResolved =>
         && was.Some? && was.value.status.Unresolved?
         && (match e.reason
             case TargetOwnershipRemoved => t.status.Removed?
             case ExposureClosed => t.status.Active? && (exposure.None? || !exposure.value.open)
             case RuleDisabled =>
               && t.status.Active? && exposure.Some? && exposure.value.open
               && rule.Some? && !rule.value.enabled
             case RuleNoLongerMatches =>
               && t.status.Active? && exposure.Some? && exposure.value.open
               && (rule.Some? ==> rule.value.enabled && !F.Lists(rule.value, key))
             case _ => false)
  }

  /** No earlier than its cause, than what the exposure was last confirmed, and than the finding itself. */
  function ToldAt(was: Option<Finding>, exposure: Option<Exposure>, at: Time): Time {
    var confirmed := if exposure.Some? then Max(at, exposure.value.lastConfirmedAt) else at;
    if was.Some? then Max3(confirmed, was.value.lastSeenAt, was.value.lastChangedAt) else confirmed
  }

  function FindingLog(record: Option<FindingRecord>): seq<FindingEvent> { if record.Some? then record.value.log
                                                                         else [] }

  function FindingRow(record: Option<FindingRecord>): Option<Finding> {
    if record.Some? then Some(record.value.row) else None
  }

  /** At most one event more, and that event told. */
  predicate FindingChange(before: Option<FindingRecord>, after: Option<FindingRecord>, t: Target,
                          exposure: Option<Exposure>, rule: Option<Rule>, source: Source, at: Time, reopened: bool,
                          key: PortKey)
  {
    var was, now := FindingLog(before), FindingLog(after);
    now == was
    || (|now| == |was| + 1 && now[..|was|] == was
        && FindingTold(FindingRow(before), t, exposure, rule, source, at, reopened, key, now[|was|]))
  }

  lemma ReconcilingTells(before: Option<FindingRecord>, t: Target, exposure: Option<Exposure>, rule: Option<Rule>,
                         key: PortKey, cause: F.Cause)
    requires before.Some? ==> F.Consistent(before.value)
    requires exposure.Some? ==>
               && exposure.value.firstOpenedAt <= exposure.value.lastConfirmedAt
               && exposure.value.lastChangedAt <= exposure.value.lastConfirmedAt
    ensures FindingChange(before, F.ReconcileFinding(before, t, exposure, rule, key, cause), t, exposure, rule,
                          cause.source, cause.at, cause.transition == Some(Reopened), key)
  {
  }

  lemma BatchTells(db: Db, batch: Batch, queueable: bool, f: Fingerprint)
    requires Reconcile(db, batch, queueable).Ok? && FindingSafe(db, f)
    requires f.service in db.exposures ==> E.Consistent(db.exposures[f.service])
    ensures var after := Reconcile(db, batch, queueable).value;
            var before, now := Get(db.findings, f), Get(after.findings, f);
            if f.service.target in db.targets then
              FindingChange(before, now, db.targets[f.service.target], ExposureRow(db, f.service),
                            Get(db.rules, f.rule),
                            batch.source, batch.at, Get(batch.transitions, f.service) == Some(Reopened), f.service.key)
            else now == before
  {
    assert Get(Reconcile(db, batch, queueable).value.findings, f) == FindingAfter(db, batch, f);
    if f.service.target in db.targets {
      ReconcilingTells(Get(db.findings, f), db.targets[f.service.target], ExposureRow(db, f.service),
                       Get(db.rules, f.rule), f.service.key,
                       F.Cause(batch.source, batch.at, Get(batch.transitions, f.service)));
    }
  }

  /** What caused the events of an operation. */
  function SourceOf(op: Op): Source
    requires !op.EditRules?
  {
    match op
    case TargetEventOp(event, _) => FromTargetEvent(event.id)
    case ScanOp(env, _, _, _) => FromAttempt(env.attempt)
    case ReconcileOp(invocation, _, _) => FromReconciliation(invocation)
  }

  function TimeOf(op: Op): Time
    requires !op.EditRules?
  {
    match op
    case TargetEventOp(event, _) => EffectiveAt(event)
    case ScanOp(env, _, _, _) => env.completedAt
    case ReconcileOp(_, now, _) => now
  }

  /** The operation opened the service again. */
  predicate ReopenedIn(before: Db, after: Db, s: Service) {
    var was, now := LogOf(Get(before.exposures, s)), LogOf(Get(after.exposures, s));
    |now| == |was| + 1 && now[|was|].transition.Reopened?
  }

  lemma ScanFindingsTell(db: Db, env: Envelope, observations: seq<Observation>, validated: bool, queueable: bool,
                         f: Fingerprint)
    requires Safe(db) && IngestScan(db, env, observations, validated, queueable).Ok?
    ensures StepTold(db, IngestScan(db, env, observations, validated, queueable).value.db, FromAttempt(env.attempt),
                     env.completedAt, f)
  {
    var o := IngestScan(db, env, observations, validated, queueable).value;
    if !o.duplicate && o.eligible {
      var recorded, observed := RecordAttempt(db, env, o.stale, true), ByKey(observations);
      assert ExposureSafe(db, f.service) && FindingSafe(db, f);
      ScanBatchTells(recorded, env, observed, queueable, f);
      EvidenceReopens(recorded, env, observed, f.service);
    }
  }

  lemma ScanBatchTells(db: Db, env: Envelope, observed: map<PortKey, Observation>, queueable: bool, f: Fingerprint)
    requires Absorb(db, env, observed, queueable).Ok? && FindingSafe(db, f)
    requires f.service in db.exposures ==> E.Consistent(db.exposures[f.service])
    requires forall k :: k in observed ==> observed[k].address == env.address
    ensures var after := Absorb(db, env, observed, queueable).value;
            var before, now := Get(db.findings, f), Get(after.findings, f);
            && after.targets == db.targets && after.rules == db.rules
            && Get(after.exposures, f.service) == EvidenceFor(db, env, observed, f.service).record
            && if f.service.target in db.targets then
                 FindingChange(before, now, db.targets[f.service.target], ExposureRow(after, f.service),
                               Get(db.rules, f.rule), FromAttempt(env.attempt), env.completedAt,
                               EvidenceFor(db, env, observed, f.service).transition == Some(Reopened), f.service.key)
               else now == before
  {
    var mid := db.(exposures := ApplyEvidence(db, env, observed));
    var batch := Batch(Affected(db, env, observed), FromAttempt(env.attempt), env.completedAt,
                       Transitions(db, env, observed));
    assert Get(mid.exposures, f.service) == EvidenceFor(db, env, observed, f.service).record;
    EvidenceRow(db.attempts, env, observed, Get(db.exposures, f.service), f.service.key);
    BatchTells(mid, batch, queueable, f);
    TransitionsAreReported(db, env, observed, f.service);
  }

  lemma TransitionsAreReported(db: Db, env: Envelope, observed: map<PortKey, Observation>, s: Service)
    ensures Get(Transitions(db, env, observed), s) == EvidenceFor(db, env, observed, s).transition
  {
  }

  lemma EvidenceReopens(db: Db, env: Envelope, observed: map<PortKey, Observation>, s: Service)
    requires s in db.exposures ==> E.Consistent(db.exposures[s])
    requires forall k :: k in observed ==> observed[k].address == env.address
    ensures var change := EvidenceFor(db, env, observed, s);
            change.transition == Some(Reopened) <==>
              && |LogOf(change.record)| == |LogOf(Get(db.exposures, s))| + 1
              && LogOf(change.record)[|LogOf(Get(db.exposures, s))|].transition.Reopened?
  {
    EvidenceTells(db.attempts, env, observed, Get(db.exposures, s), s.key);
  }

  /** The finding's new event, if any, is told by the database after the step. */
  predicate StepTold(before: Db, after: Db, source: Source, at: Time, f: Fingerprint) {
    var was, now := Get(before.findings, f), Get(after.findings, f);
    if f.service.target in after.targets then
      FindingChange(was, now, after.targets[f.service.target], ExposureRow(after, f.service), Get(after.rules, f.rule),
                    source, at, ReopenedIn(before, after, f.service), f.service.key)
    else now == was
  }

  lemma TargetEventFindingsTell(db: Db, event: TargetEvent, queueable: bool, f: Fingerprint)
    requires Safe(db) && ApplyTargetEvent(db, event, queueable).Ok?
    ensures StepTold(db, ApplyTargetEvent(db, event, queueable).value, FromTargetEvent(event.id), EffectiveAt(event), f)
  {
    if event.id !in db.events && Accepted(db, event) {
      AcceptedEventSettles(db, event, queueable);
      var entered := Enter(db, event, Get(db.targets, event.target));
      assert FindingSafe(db, f) && ExposureSafe(db, f.service);
      SettledFindingsTell(entered, event, ClosingOf(db, event), queueable, f);
      TargetEventsTell(db, event, queueable, f.service);
    }
  }

  lemma SettledFindingsTell(db: Db, event: TargetEvent, closing: Option<Closing>, queueable: bool, f: Fingerprint)
    requires Settle(db, event, closing, queueable).Ok? && FindingSafe(db, f)
    requires f.service in db.exposures ==> E.Consistent(db.exposures[f.service])
    requires closing.Some? ==> closing.value.at == EffectiveAt(event)
    ensures var after := Settle(db, event, closing, queueable).value;
            var was, now := Get(db.findings, f), Get(after.findings, f);
            && after.targets == db.targets && after.rules == db.rules
            && if f.service.target in db.targets then
                 FindingChange(was, now, db.targets[f.service.target], ExposureRow(after, f.service),
                               Get(db.rules, f.rule), FromTargetEvent(event.id), EffectiveAt(event), false,
                               f.service.key)
               else now == was
  {
    if closing.Some? && closing.value.services != {} {
      var mid := db.(exposures := CloseServices(db.exposures, closing.value, event));
      if f.service in db.exposures { CloseKeepsRow(db, closing.value, event, f.service); }
      BatchTells(mid, ClosingBatch(closing.value, event), queueable, f);
    }
  }

  /** Every event in the log of a finding was written by one operation, and its source, kind and reason are
      true of what that operation found and left. */
  lemma StepFindingsTell(db: Db, op: Op, f: Fingerprint)
    requires Safe(db)
    ensures if op.EditRules? then Execute(db, op) == db.(rules := op.rules)
            else StepTold(db, Execute(db, op), SourceOf(op), TimeOf(op), f)
  {
    match op
    case TargetEventOp(event, q) => if ApplyTargetEvent(db, event, q).Ok? { TargetEventFindingsTell(db, event, q, f); }
    case ScanOp(env, obs, v, q) => if IngestScan(db, env, obs, v, q).Ok? { ScanFindingsTell(db, env, obs, v, q, f); }
    case ReconcileOp(i, now, q) =>
      if ReconcileAll(db, i, now, q).Ok? && i !in db.runs {
        assert FindingSafe(db, f) && ExposureSafe(db, f.service);
        BatchTells(db, Batch(AllServices(db), FromReconciliation(i), now, map[]), q, f);
      }
    case EditRules(rules) =>
  }

  /** A full reconciliation needs somewhere to publish to, does nothing when repeated, and is recorded with
      the number of services that it went through: those with an exposure or a finding. */
  lemma ReconcilesTell(db: Db, invocation: Id, now: Time, queueable: bool, services: set<Service>)
    requires forall s :: s in services <==> s in db.exposures || exists f :: f in db.findings && f.service == s
    ensures var result := ReconcileAll(db, invocation, now, queueable);
            && (result == Err(HandoffBucketMissing) <==> !queueable)
            && (queueable && invocation in db.runs ==> result == Ok(db))
            && (result.Ok? && invocation !in db.runs ==>
                  result.value == db.(findings := result.value.findings,
                                      runs := db.runs[invocation := ReconciliationRun(now, |services|)]))
  {
    assert services == AllServices(db) by {
      forall s ensures s in services <==> s in AllServices(db) {}
    }
  }

  /** So it is at every step of every run, rule edits included. */
  lemma EveryFindingEventIsTold(rules: map<Id, Rule>, ops: seq<Op>, k: nat, f: Fingerprint)
    requires k < |ops|
    ensures !ops[k].EditRules? ==>
              StepTold(Run(EmptyDb(rules), ops[..k]), Run(EmptyDb(rules), ops[..k + 1]), SourceOf(ops[k]),
                       TimeOf(ops[k]), f)
  {
    EveryRunIsSafe(rules, ops[..k]);
    StepFindingsTell(Run(EmptyDb(rules), ops[..k]), ops[k], f);
    assert ops[..k + 1][..k] == ops[..k];
  }
}
