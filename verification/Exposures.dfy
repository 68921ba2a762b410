/** One exposure_state row: how scan evidence and target events change it. */
module Exposures {
  import opened Base
  import opened Records

  /** What one call to the open or close routine reports and leaves behind. */
  datatype Change = Change(applied: bool, transition: Option<Transition>, record: Option<ExposureRecord>)

  /** The row-level recency guard: evidence counts only when it is newer than the row, first by
      generation, then by (time, attempt id). */
  predicate EvidenceIsNewer(row: Exposure, generation: int, at: Time, attempt: Id) {
    if generation != row.lastGeneration then generation > row.lastGeneration
    else Before(row.lastConfirmedAt, row.lastAttempt, at, attempt)
  }

  function OpenExposure(before: Option<ExposureRecord>, env: Envelope, obs: Observation): Change {
    match before
    case None =>
      var at := env.completedAt;
      var row := Exposure(true, obs.address, obs.service, obs.identity, at, at, at, None, None,
                          env.attempt, 1, env.generation);
      Change(true, Some(Opened),
             Some(ExposureRecord(row, [OpenEvent(Opened, OpenObservation, None, env, obs, at)])))
    case Some(ExposureRecord(row, log)) =>
      if !EvidenceIsNewer(row, env.generation, env.completedAt, env.attempt) then
        Change(false, None, before)
      else
        var at := Max3(env.completedAt, row.lastConfirmedAt, row.lastChangedAt);
        var seen := row.(address := obs.address, service := obs.service, identity := obs.identity,
                         lastConfirmedAt := at, lastAttempt := env.attempt, lastGeneration := env.generation);
        if !row.open then
          var reopened := seen.(open := true, lastChangedAt := at, closedAt := None, closureReason := None,
                                version := row.version + 1);
          var event := OpenEvent(Reopened, OpenObservation, Some(row.identity), env, obs, at);
          Change(true, Some(Reopened), Some(ExposureRecord(reopened, log + [event])))
        else if row.identity != obs.identity || row.address != obs.address then
          var change := if row.identity != obs.identity then ServiceChanged else AddressChanged;
          var updated := seen.(lastChangedAt := at, version := row.version + 1);
          var event := OpenEvent(Updated, change, Some(row.identity), env, obs, at);
          Change(true, Some(Updated), Some(ExposureRecord(updated, log + [event])))
        else
          Change(true, None, Some(ExposureRecord(seen, log)))
  }

  function OpenEvent(transition: Transition, change: ExposureChange, previous: Option<Id>,
                     env: Envelope, obs: Observation, at: Time): ExposureEvent
  {
    ExposureEvent(transition, FromAttempt(env.attempt), env.generation, change, previous, obs.identity, at)
  }

  /** Closing by a scan attempt (`attempt` given) obeys the recency guard and refreshes a row that is
      already closed; closing by a target event always applies and leaves a closed row alone. */
  function CloseExposure(before: Option<ExposureRecord>, generation: int, attempt: Option<Id>, source: Source,
                         at: Time, reason: ClosureReason): Change
  {
    match before
    case None => Change(false, None, None)
    case Some(ExposureRecord(row, log)) =>
      if attempt.Some? && !EvidenceIsNewer(row, generation, at, attempt.value) then
        Change(false, None, before)
      else if !row.open then
        if attempt.None? then
          Change(false, None, before)
        else
          var seen := row.(lastConfirmedAt := Max(row.lastConfirmedAt, at), lastAttempt := attempt.value,
                           lastGeneration := generation);
          Change(true, None, Some(ExposureRecord(seen, log)))
      else
        var when := Max3(at, row.lastConfirmedAt, row.lastChangedAt);
        var shut := row.(open := false, lastConfirmedAt := when, lastChangedAt := when,
                         closedAt := Some(when), closureReason := Some(reason),
                         lastAttempt := if attempt.Some? then attempt.value else row.lastAttempt,
                         lastGeneration := if attempt.Some? then generation else Max(row.lastGeneration, generation),
                         version := row.version + 1);
        var event := ExposureEvent(Shut, source, generation, ClosedFor(reason), Some(row.identity), row.identity, when);
        Change(true, Some(Shut), Some(ExposureRecord(shut, log + [event])))
  }

  // ---------------------------------------------------------------- what every row keeps

  /** The state an exposure event leads to, and the one it may start from. */
  predicate LegalNext(open: Option<bool>, event: ExposureEvent) {
    match event.transition
    case Opened => open == None && event.change == OpenObservation && event.previousIdentity == None
    case Reopened => open == Some(false) && event.change == OpenObservation && event.previousIdentity.Some?
    case Updated => open == Some(true) && (event.change.ServiceChanged? || event.change.AddressChanged?)
    case Shut => open == Some(true) && event.change.ClosedFor? && event.previousIdentity == Some(event.identity)
  }

  /** Replays an exposure log: None when some event does not follow from the ones before it. */
  function Replay(log: seq<ExposureEvent>): (state: Option<Option<bool>>) {
    if log == [] then Some(None)
    else
      var last := log[|log| - 1];
      match Replay(log[..|log| - 1])
      case Some(open) => if LegalNext(open, last) then Some(Some(!last.transition.Shut?)) else None
      case None => None
  }

  predicate TimesOrdered(log: seq<ExposureEvent>) {
    forall i, j :: 0 <= i < j < |log| ==> log[i].at <= log[j].at
  }

  /** The stored row is what its event log says: the log is legal, replays to the stored state, has one
      entry per state version, and never runs backwards in time. */
  predicate Consistent(rec: ExposureRecord) {
    var row, log := rec.row, rec.log;
    && row.firstOpenedAt <= row.lastChangedAt <= row.lastConfirmedAt
    && (row.open <==> row.closedAt.None?) && (row.open <==> row.closureReason.None?)
    && (!row.open ==> row.closedAt == Some(row.lastChangedAt))
    && |log| == row.version >= 1
    && Replay(log) == Some(Some(row.open))
    && TimesOrdered(log)
    && log[|log| - 1].at == row.lastChangedAt
    && log[|log| - 1].identity == row.identity
  }

  lemma AppendKeeps(rec: ExposureRecord, row: Exposure, event: ExposureEvent)
    requires Consistent(rec)
    requires LegalNext(Some(rec.row.open), event)
    requires row.open == !event.transition.Shut? && row.version == rec.row.version + 1
    requires row.lastChangedAt == event.at >= rec.row.lastChangedAt && row.identity == event.identity
    requires row.firstOpenedAt == rec.row.firstOpenedAt && row.lastChangedAt <= row.lastConfirmedAt
    requires (row.open <==> row.closedAt.None?) && (row.open <==> row.closureReason.None?)
    requires !row.open ==> row.closedAt == Some(row.lastChangedAt)
    ensures Consistent(ExposureRecord(row, rec.log + [event]))
  {
  }

  lemma OpenKeepsConsistent(before: Option<ExposureRecord>, env: Envelope, obs: Observation)
    requires before.Some? ==> Consistent(before.value)
    ensures var change := OpenExposure(before, env, obs);
            && change.record.Some? && Consistent(change.record.value)
            && (!change.applied ==> change.record == before)
            && (change.applied ==>
                  var row := change.record.value.row;
                  row.open && row.address == obs.address && row.lastGeneration == env.generation)
  {
    var after := OpenExposure(before, env, obs).record.value;
    match before
    case None =>
      assert after.log[..0] == [];
    case Some(rec) =>
      if |after.log| > |rec.log| {
        AppendKeeps(rec, after.row, after.log[|after.log| - 1]);
      }
  }

  lemma CloseKeepsConsistent(before: Option<ExposureRecord>, generation: int, attempt: Option<Id>, source: Source,
                             at: Time, reason: ClosureReason)
    requires before.Some? ==> Consistent(before.value)
    ensures var change := CloseExposure(before, generation, attempt, source, at, reason);
            && change.record.Some? == before.Some? && (before.Some? ==> Consistent(change.record.value))
            && (!change.applied ==> change.record == before)
            && (change.applied ==>
                  var row := change.record.value.row;
                  !row.open && row.lastGeneration <= Max(before.value.row.lastGeneration, generation))
  {
  }
}
