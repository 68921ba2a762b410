/** One findings row: how detection rules open, update, resolve and reopen it. */
module Findings {
  import opened Base
  import opened Records

  // ---------------------------------------------------------------- rules

  /** Whether an enabled rule selects a service; Err when the editable criteria are malformed. The
      checks are made in the source's order, so a malformed port list goes unnoticed for a service
      whose protocol the rule does not select. */
  function RuleMatches(rule: Rule, key: PortKey): Result<bool, ()> {
    if !rule.enabled then Ok(false)
    else if !rule.criteria.supported then Err(())
    else if rule.criteria.protocols.None? then Err(())
    else if key.protocol !in rule.criteria.protocols.value then Ok(false)
    else if rule.kind.ExposureRule? then Ok(true)
    else if rule.criteria.ports.None? then Err(())
    else Ok(key.port in rule.criteria.ports.value)
  }

  /** The rule is enabled and lists the service's protocol and, being a port rule, its port. */
  predicate Lists(rule: Rule, key: PortKey) {
    var c := rule.criteria;
    && rule.enabled && c.supported && c.protocols.Some? && key.protocol in c.protocols.value
    && (rule.kind.PortRule? ==> c.ports.Some? && key.port in c.ports.value)
  }

  /** An enabled rule without the lists that it needs for the service. */
  predicate Broken(rule: Rule, key: PortKey) {
    var c := rule.criteria;
    && rule.enabled
    && (|| !c.supported || c.protocols.None?
        || (key.protocol in c.protocols.value && rule.kind.PortRule? && c.ports.None?))
  }

  /** A rule selects a service exactly if it is enabled and lists its protocol and, being a port rule, its
      port; matching raises exactly if an enabled rule lacks the lists that it needs. */
  lemma MatchesExactly(rule: Rule, key: PortKey)
    ensures RuleMatches(rule, key) == Ok(true) <==> Lists(rule, key)
    ensures RuleMatches(rule, key).Err? <==> Broken(rule, key)
  {
  }

  /** The service is open on an active target and the rule lists it. */
  predicate Selected(target: Target, exposure: Option<Exposure>, rule: Option<Rule>, key: PortKey) {
    && target.status.Active?
    && exposure.Some? && exposure.value.open
    && rule.Some? && Lists(rule.value, key)
  }

  // ---------------------------------------------------------------- transitions

  /** The cause of a transition: which operation, at what time, and what that operation just did to
      the exposure. */
  datatype Cause = Cause(source: Source, at: Time, transition: Option<Transition>)

  function EnsureFinding(before: Option<FindingRecord>, target: Target, exposure: Exposure, rule: Rule,
                         cause: Cause): FindingRecord
  {
    var repair := cause.source.FromReconciliation?;
    var base := Max3(cause.at, exposure.firstOpenedAt, Max(exposure.lastConfirmedAt, exposure.lastChangedAt));
    match before
    case None =>
      var reason := if repair then ReconciliationRepair
                    else if cause.transition == Some(Reopened) then ExposureReopened else ExposureOpen;
      var row := Finding(Unresolved, rule.severity, rule.name, rule.description, exposure.address, exposure.service,
                         exposure.identity, exposure.firstOpenedAt, exposure.lastConfirmedAt, base, None, None, 1);
      FindingRecord(row, [OpenEvent(FindingOpened, None, reason, row, target, cause)])
    case Some(FindingRecord(was, log)) =>
      var at := Max(base, Max3(was.firstOpenedAt, was.lastSeenAt, was.lastChangedAt));
      var row := was.(status := Unresolved, severity := rule.severity, title := rule.name,
                      description := rule.description, address := exposure.address, service := exposure.service,
                      identity := exposure.identity, lastSeenAt := Max(was.lastSeenAt, exposure.lastConfirmedAt),
                      lastChangedAt := at, resolvedAt := None, resolution := None, version := was.version + 1);
      if was.status.Resolved? then
        var reason := if repair then ReconciliationRepair else ExposureReopened;
        FindingRecord(row, log + [OpenEvent(FindingReopened, Some(Resolved), reason, row, target, cause)])
      else if was.identity != exposure.identity || was.address != exposure.address
           || was.severity != rule.severity || was.title != rule.name || was.description != rule.description then
        var reason := if was.identity != exposure.identity then FindingServiceChanged
                      else if was.address != exposure.address then FindingAddressChanged
                      else RuleChanged;
        FindingRecord(row, log + [OpenEvent(FindingUpdated, Some(Unresolved), reason, row, target, cause)])
      else
        FindingRecord(was.(lastSeenAt := Max(was.lastSeenAt, exposure.lastConfirmedAt)), log)
  }

  function OpenEvent(kind: FindingEventKind, previous: Option<FindingStatus>, reason: FindingReason, row: Finding,
                     target: Target, cause: Cause): FindingEvent
  {
    FindingEvent(kind, previous, Unresolved, row.severity, reason, row.version, cause.source, target.generation,
                 row.identity, row.lastChangedAt)
  }

  function ResolutionReason(target: Target, exposure: Option<Exposure>, rule: Option<Rule>): FindingReason {
    if target.status.Removed? then TargetOwnershipRemoved
    else if exposure.None? || !exposure.value.open then ExposureClosed
    else if rule.Some? && !rule.value.enabled then RuleDisabled
    else RuleNoLongerMatches
  }

  function ResolveFinding(before: FindingRecord, target: Target, reason: FindingReason, cause: Cause): FindingRecord {
    var was := before.row;
    var at := Max(cause.at, Max3(was.firstOpenedAt, was.lastSeenAt, was.lastChangedAt));
    var row := was.(status := Resolved, lastChangedAt := at, resolvedAt := Some(at), resolution := Some(reason),
                    version := was.version + 1);
    FindingRecord(row, before.log + [FindingEvent(FindingResolved, Some(Unresolved), Resolved, was.severity, reason,
                                                  row.version, cause.source, target.generation, was.identity, at)])
  }

  /** The reconciliation of one fingerprint: present and up to date when the rule selects the open
      service, resolved when it does not. */
  function ReconcileFinding(before: Option<FindingRecord>, target: Target, exposure: Option<Exposure>,
                            rule: Option<Rule>, key: PortKey, cause: Cause): (after: Option<FindingRecord>)
    ensures before.Some? ==> after.Some?
  {
    if Selected(target, exposure, rule, key) then
      Some(EnsureFinding(before, target, exposure.value, rule.value, cause))
    else if before.Some? && before.value.row.status.Unresolved? then
      Some(ResolveFinding(before.value, target, ResolutionReason(target, exposure, rule), cause))
    else before
  }

  // ---------------------------------------------------------------- the published contract

  /** The shared contract's rules for a finding record. */
  predicate ContractRecord(row: Finding) {
    && row.firstOpenedAt <= row.lastSeenAt && row.firstOpenedAt <= row.lastChangedAt
    && match row.status
       case Unresolved => row.resolvedAt.None? && row.resolution.None?
       case Resolved =>
         && row.resolvedAt.Some? && row.resolution.Some?
         && row.lastSeenAt <= row.resolvedAt.value && row.lastChangedAt == row.resolvedAt.value
  }

  /** The shared contract's rules for a finding event. */
  predicate ContractEvent(event: FindingEvent) {
    match event.kind
    case FindingOpened =>
      && event.previous == None && event.next == Unresolved
      && (event.reason == ExposureOpen || event.reason == ExposureReopened || event.reason == ReconciliationRepair)
    case FindingReopened =>
      && event.previous == Some(Resolved) && event.next == Unresolved
      && (event.reason == ExposureReopened || event.reason == ReconciliationRepair)
    case FindingUpdated =>
      && event.previous == Some(Unresolved) && event.next == Unresolved
      && (event.reason == FindingServiceChanged || event.reason == FindingAddressChanged || event.reason == RuleChanged)
    case FindingResolved =>
      && event.previous == Some(Unresolved) && event.next == Resolved
      && (event.reason == TargetOwnershipRemoved || event.reason == ExposureClosed
          || event.reason == RuleDisabled || event.reason == RuleNoLongerMatches)
  }

  /** The shared contract's rules for the document that pairs a finding with its latest event. */
  predicate ContractDocument(row: Finding, event: FindingEvent) {
    && ContractRecord(row) && ContractEvent(event)
    && event.next == row.status && event.at == row.lastChangedAt
    && (event.kind.FindingResolved? ==> row.resolution == Some(event.reason))
  }

  // ---------------------------------------------------------------- what every row keeps

  /** A legal event chain: versions 1, 2, 3, ..., each event starts from the status the one before left,
      event times never decrease, and every event satisfies the contract. */
  predicate Chain(log: seq<FindingEvent>) {
    && (forall i :: 0 <= i < |log| ==> ContractEvent(log[i]) && log[i].version == i + 1)
    && (forall i :: 0 < i < |log| ==> log[i].previous == Some(log[i - 1].next) && log[i - 1].at <= log[i].at)
    && (|log| > 0 ==> log[0].previous == None)
  }

  /** The stored row is the one its log replays to, and the pair is publishable. */
  predicate Consistent(rec: FindingRecord) {
    && Chain(rec.log)
    && |rec.log| == rec.row.version >= 1
    && ContractDocument(rec.row, rec.log[|rec.log| - 1])
    && rec.log[|rec.log| - 1].identity == rec.row.identity
    && rec.log[|rec.log| - 1].severity == rec.row.severity
  }

  lemma AppendKeeps(rec: FindingRecord, row: Finding, event: FindingEvent)
    requires Consistent(rec) && ContractDocument(row, event)
    requires event.previous == Some(rec.row.status) && event.at >= rec.row.lastChangedAt
    requires event.version == row.version == rec.row.version + 1
    requires event.identity == row.identity && event.severity == row.severity
    ensures Consistent(FindingRecord(row, rec.log + [event]))
  {
  }

  lemma EnsureKeepsConsistent(before: Option<FindingRecord>, target: Target, exposure: Exposure, rule: Rule,
                              cause: Cause)
    requires before.Some? ==> Consistent(before.value)
    requires exposure.firstOpenedAt <= exposure.lastConfirmedAt
    ensures Consistent(EnsureFinding(before, target, exposure, rule, cause))
  {
    var after := EnsureFinding(before, target, exposure, rule, cause);
    if before.Some? && |after.log| > |before.value.log| {
      AppendKeeps(before.value, after.row, after.log[|after.log| - 1]);
    }
  }

  lemma ReconcileKeepsConsistent(before: Option<FindingRecord>, target: Target, exposure: Option<Exposure>,
                                 rule: Option<Rule>, key: PortKey, cause: Cause)
    requires before.Some? ==> Consistent(before.value)
    requires exposure.Some? ==> exposure.value.firstOpenedAt <= exposure.value.lastConfirmedAt
    ensures var after := ReconcileFinding(before, target, exposure, rule, key, cause);
            after.Some? ==> Consistent(after.value)
  {
    if Selected(target, exposure, rule, key) {
      EnsureKeepsConsistent(before, target, exposure.value, rule.value, cause);
    } else if before.Some? && before.value.row.status.Unresolved? {
      var after := ResolveFinding(before.value, target, ResolutionReason(target, exposure, rule), cause);
      AppendKeeps(before.value, after.row, after.log[|after.log| - 1]);
    }
  }

  // ---------------------------------------------------------------- agreement with the exposure

  /** An open finding says about the service exactly what the exposure and the rule say now. */
  predicate Agrees(row: Finding, exposure: Exposure, rule: Rule) {
    && row.address == exposure.address && row.identity == exposure.identity
    && row.severity == rule.severity && row.title == rule.name && row.description == rule.description
    && row.lastSeenAt >= exposure.lastConfirmedAt
  }

  /** The finding is open exactly when it should be, and then up to date. */
  predicate UpToDate(record: Option<FindingRecord>, target: Target, exposure: Option<Exposure>, rule: Option<Rule>,
                     key: PortKey)
  {
    if Selected(target, exposure, rule, key) then
      && record.Some? && record.value.row.status.Unresolved?
      && Agrees(record.value.row, exposure.value, rule.value)
    else
      record.Some? ==> record.value.row.status.Resolved?
  }

  lemma ReconcileBringsUpToDate(before: Option<FindingRecord>, target: Target, exposure: Option<Exposure>,
                                rule: Option<Rule>, key: PortKey, cause: Cause)
    ensures UpToDate(ReconcileFinding(before, target, exposure, rule, key, cause), target, exposure, rule, key)
  {
  }

  /** Reconciling a finding that is already up to date changes neither the row nor its log. */
  lemma ReconcileLeavesUpToDate(before: Option<FindingRecord>, target: Target, exposure: Option<Exposure>,
                                rule: Option<Rule>, key: PortKey, cause: Cause)
    requires UpToDate(before, target, exposure, rule, key)
    ensures ReconcileFinding(before, target, exposure, rule, key, cause) == before
  {
  }
}
