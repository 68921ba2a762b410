/** Row and message shapes of the exposure store (the `act` schema and the parser's models). */
module Records {
  import opened Base

  // ---------------------------------------------------------------- keys

  datatype PortKey = PortKey(protocol: Id, port: int)

  /** Primary key of exposure_state. */
  datatype Service = Service(target: Id, key: PortKey)

  /** A finding fingerprint. The source hashes exactly these parts; the hash is taken to be
      injective, so the parts themselves serve as the key. */
  datatype Fingerprint = Fingerprint(service: Service, rule: Id)

  // ---------------------------------------------------------------- targets

  datatype TargetStatus = Active | Removed

  datatype ProviderIdentity = ProviderIdentity(provider: Id, scope: Id, resource: Id)

  datatype Target = Target(
    identity: ProviderIdentity,
    location: Option<Id>,
    generation: int,
    status: TargetStatus,
    addresses: seq<Id>,
    context: Id,
    observedAt: Time,
    lastAttemptAt: Option<Time>,
    lastConfirmedAt: Option<Time>,
    removedAt: Option<Time>)

  datatype EventKind = Upsert | Removal

  datatype TargetEvent = TargetEvent(
    id: Id,
    target: Id,
    generation: int,
    kind: EventKind,
    identity: ProviderIdentity,
    location: Option<Id>,
    addresses: seq<Id>,
    context: Id,
    observedAt: Time,
    newTarget: bool,          // scan_reason == "new_target"
    removedAt: Option<Time>)

  /** A row of the append-only target_events table. */
  datatype EventRow = EventRow(target: Id, generation: int, kind: EventKind, provider: Id, accepted: bool, stale: bool)

  // ---------------------------------------------------------------- scans

  datatype CoverageTerm = CoverageTerm(protocol: Id, portFrom: int, portTo: int, complete: bool) {
    predicate Contains(key: PortKey) {
      complete && protocol == key.protocol && portFrom <= key.port <= portTo
    }
  }

  predicate Covered(coverage: seq<CoverageTerm>, key: PortKey) {
    exists i :: 0 <= i < |coverage| && coverage[i].Contains(key)
  }

  datatype Evidence = Evidence(envelope: Id, raw: Option<Id>, enrichment: Option<Id>)

  datatype Envelope = Envelope(
    attempt: Id,
    result: Id,
    target: Id,
    targetEvent: Id,
    provider: Id,
    generation: int,
    address: Id,
    complete: bool,           // outcome == "complete"
    completedAt: Time,
    coverage: seq<CoverageTerm>,
    evidence: Evidence)

  datatype PortState = Open | Closed | Filtered | Unknown

  datatype Observation = Observation(
    key: PortKey,
    address: Id,
    state: PortState,
    service: Id,              // name, product, version and script hashes
    identity: Id)             // service_identity_sha256

  /** A row of scan_attempts together with its coverage rows. */
  datatype Attempt = Attempt(
    result: Id,
    target: Id,
    generation: int,
    completedAt: Time,
    stale: bool,
    eligible: bool,
    evidence: Evidence,
    coverage: seq<CoverageTerm>)

  // ---------------------------------------------------------------- exposures

  datatype Source = FromAttempt(id: Id) | FromTargetEvent(id: Id) | FromReconciliation(id: Id)

  datatype ClosureReason =
    | ExplicitClosed | ExplicitFiltered | CoverageAbsence
    | OwnershipRemoved | AddressBindingChanged | GenerationGapReactivation

  datatype ExposureChange = OpenObservation | ServiceChanged | AddressChanged | ClosedFor(reason: ClosureReason)

  datatype Transition = Opened | Reopened | Updated | Shut

  datatype ExposureEvent = ExposureEvent(
    transition: Transition,
    source: Source,
    generation: int,
    change: ExposureChange,
    previousIdentity: Option<Id>,
    identity: Id,
    at: Time)

  datatype Exposure = Exposure(
    open: bool,
    address: Id,
    service: Id,
    identity: Id,
    firstOpenedAt: Time,
    lastConfirmedAt: Time,
    lastChangedAt: Time,
    closedAt: Option<Time>,
    closureReason: Option<ClosureReason>,
    lastAttempt: Id,
    version: int,
    lastGeneration: int)

  /** An exposure_state row with its own slice of exposure_events, oldest first. */
  datatype ExposureRecord = ExposureRecord(row: Exposure, log: seq<ExposureEvent>)

  // ---------------------------------------------------------------- findings

  datatype FindingStatus = Unresolved | Resolved

  datatype FindingEventKind = FindingOpened | FindingReopened | FindingUpdated | FindingResolved

  datatype FindingReason =
    | ExposureOpen | ExposureReopened | ReconciliationRepair
    | FindingServiceChanged | FindingAddressChanged | RuleChanged
    | TargetOwnershipRemoved | ExposureClosed | RuleDisabled | RuleNoLongerMatches

  datatype FindingEvent = FindingEvent(
    kind: FindingEventKind,
    previous: Option<FindingStatus>,
    next: FindingStatus,
    severity: Id,
    reason: FindingReason,
    version: int,
    source: Source,
    generation: int,
    identity: Id,
    at: Time)

  datatype Finding = Finding(
    status: FindingStatus,
    severity: Id,
    title: Id,
    description: Id,
    address: Id,
    service: Id,
    identity: Id,
    firstOpenedAt: Time,
    lastSeenAt: Time,
    lastChangedAt: Time,
    resolvedAt: Option<Time>,
    resolution: Option<FindingReason>,
    version: int)

  /** A findings row with its own slice of finding_events, oldest first. */
  datatype FindingRecord = FindingRecord(row: Finding, log: seq<FindingEvent>)

  // ---------------------------------------------------------------- rules

  datatype RuleKind = ExposureRule | PortRule

  /** The editable match_criteria document: `supported` says that its fields are exactly the ones
      the rule kind allows; a None list is one that is empty or holds values of the wrong type. */
  datatype Criteria = Criteria(supported: bool, protocols: Option<set<Id>>, ports: Option<set<int>>)

  datatype Rule = Rule(
    enabled: bool,
    severity: Id,
    name: Id,
    description: Id,
    kind: RuleKind,
    criteria: Criteria)

  // ---------------------------------------------------------------- the database

  datatype ReconciliationRun = ReconciliationRun(completedAt: Time, examined: nat)

  datatype Db = Db(
    targets: map<Id, Target>,
    events: map<Id, EventRow>,
    attempts: map<Id, Attempt>,
    exposures: map<Service, ExposureRecord>,
    findings: map<Fingerprint, FindingRecord>,
    rules: map<Id, Rule>,
    runs: map<Id, ReconciliationRun>)

  function EmptyDb(rules: map<Id, Rule>): Db {
    Db(map[], map[], map[], map[], map[], rules, map[])
  }

  datatype StoreError =
    | InvalidEvent            // address binding does not fit the event type
    | IdentityConflict        // target id or provider identity already taken
    | UnknownTarget
    | ScanMismatch            // scan disagrees with its target or target event
    | AttemptConflict
    | InvalidObservations     // wrong address, or one port reported twice
    | HandoffBucketMissing
    | ReconciliationRejected  // malformed rule, or no bucket for a finding transition
}
