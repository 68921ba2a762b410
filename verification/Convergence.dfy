/** Scan attempts of one target generation may be ingested in any order and more than once. The ports may
    have rows from before: of older generations, or closed when the generation began. This module says
    exactly at which ports the outcome does not depend on the order, and what it is there. */
module Convergence {
  import opened Base
  import opened Records
  import opened Store
  import E = Exposures
  import F = Findings
  import StoreSafety

  /** A validated scan result as it is handed to the store. */
  datatype Report = Report(env: Envelope, observations: seq<Observation>) {
    predicate Covers(key: PortKey) { Covered(env.coverage, key) }

    /** What the report says about a port; None for a port it does not list. */
    function Reading(key: PortKey): Option<PortState> {
      var observed := ByKey(observations);
      if key in observed then Some(observed[key].state) else None
    }

    predicate ReadsOpen(key: PortKey) { Covers(key) && Reading(key) == Some(Open) }

    function Row(stale: bool): Attempt {
      Attempt(env.result, env.target, env.generation, env.completedAt, stale, true, env.evidence, env.coverage)
    }
  }

  /** The order in which attempts supersede each other. */
  predicate Older(a: Report, b: Report) {
    Before(a.env.completedAt, a.env.attempt, b.env.completedAt, b.env.attempt)
  }

  /** The report is the latest of those that cover the port. */
  ghost predicate Latest(reports: set<Report>, key: PortKey, r: Report) {
    r in reports && r.Covers(key) && forall o :: o in reports && o != r && o.Covers(key) ==> Older(o, r)
  }

  // ---------------------------------------------------------------- the setting

  /** A successful, complete and validated scan of the target as it is now. */
  predicate Eligible(db: Db, t: Id, r: Report) {
    && t in db.targets && r.env.target == t && r.env.complete
    && CurrentAttempt(db.targets[t], r.env)
    && db.targets[t].identity.provider == r.env.provider
    && r.env.targetEvent in db.events
    && db.events[r.env.targetEvent].target == t
    && db.events[r.env.targetEvent].generation == r.env.generation
    && db.events[r.env.targetEvent].provider == r.env.provider
    && DistinctKeys(r.observations)
    && forall i :: 0 <= i < |r.observations| ==> r.observations[i].address == r.env.address
  }

  /** Attempt and result ids identify their report and are new to the store. */
  ghost predicate Distinguished(db: Db, reports: set<Report>) {
    && (forall a, b :: a in reports && b in reports && a != b
          ==> a.env.attempt != b.env.attempt && a.env.result != b.env.result)
    && (forall r :: r in reports ==> r.env.attempt !in db.attempts)
    && (forall r, a :: r in reports && a in db.attempts ==> db.attempts[a].result != r.env.result)
  }

  /** An active target generation without attempts of its own, with any rows that a safe store may hold for
      the target, a well-formed rule set, and eligible reports about it. */
  ghost predicate Start(db: Db, t: Id, reports: set<Report>) {
    && t in db.targets
    && (forall k :: RowBehind(Get(db.exposures, Service(t, k)), db.targets[t].generation))
    && (forall a :: a in db.attempts ==> !(db.attempts[a].eligible && db.attempts[a].target == t
                                           && db.attempts[a].generation == db.targets[t].generation))
    && (forall r, k :: r in db.rules ==> !F.Broken(db.rules[r], k))
    && (forall r :: r in reports ==> Eligible(db, t, r))
    && Distinguished(db, reports)
  }

  /** The row, if there is one, is not ahead of the generation. */
  predicate RowBehind(record: Option<ExposureRecord>, generation: int) {
    record.Some? ==>
      && record.value.row.lastGeneration <= generation
      && record.value.row.lastChangedAt <= record.value.row.lastConfirmedAt
  }

  /** Every safe store meets the condition on rows. */
  lemma SafeRowsAreBehind(db: Db, t: Id, key: PortKey)
    requires StoreSafety.Safe(db) && t in db.targets
    ensures RowBehind(Get(db.exposures, Service(t, key)), db.targets[t].generation)
  {
    assert StoreSafety.ExposureSafe(db, Service(t, key));
  }

  function Deliver(db: Db, r: Report): Db {
    Execute(db, ScanOp(r.env, r.observations, true, true))
  }

  function DeliverAll(db: Db, order: seq<Report>): Db {
    if order == [] then db else Deliver(DeliverAll(db, order[..|order| - 1]), order[|order| - 1])
  }

  // ---------------------------------------------------------------- what is observed

  datatype View = View(address: Id, service: Id, identity: Id, attempt: Id)

  function OpenAt(record: Option<ExposureRecord>): Option<View> {
    if record.Some? && record.value.row.open then
      var row := record.value.row;
      Some(View(row.address, row.service, row.identity, row.lastAttempt))
    else None
  }

  /** What a reader sees at a port of the target. */
  function OpenPort(db: Db, t: Id, key: PortKey): Option<View> {
    OpenAt(Get(db.exposures, Service(t, key)))
  }

  function ViewOf(r: Report, key: PortKey): View
    requires key in ByKey(r.observations)
  {
    var o := ByKey(r.observations)[key];
    View(o.address, o.service, o.identity, r.env.attempt)
  }

  // ---------------------------------------------------------------- what a report does to a port

  /** What the port shows once the report has been applied. */
  function Shows(r: Report, key: PortKey): Option<View> {
    if r.Reading(key) == Some(Open) then Some(ViewOf(r, key)) else None
  }

  /** The report covers the port, does not read it "unknown", and is not older than the prior row's own
      stamp if that row is already of this generation: it is applied if it comes first. */
  predicate Moves(prior: Option<ExposureRecord>, r: Report, key: PortKey) {
    && r.Covers(key) && r.Reading(key) != Some(Unknown)
    && (prior.Some? && prior.value.row.lastGeneration == r.env.generation ==>
          Before(prior.value.row.lastConfirmedAt, prior.value.row.lastAttempt, r.env.completedAt, r.env.attempt))
  }

  /** The time a row carries after the report: never earlier than that of the prior row. */
  function Stamp(prior: Option<ExposureRecord>, r: Report): Time {
    if prior.Some? then Max(prior.value.row.lastConfirmedAt, r.env.completedAt) else r.env.completedAt
  }

  /** With the first report applied, the late stamp of the prior row turns the second one away, although
      it is the newer of the two. */
  predicate Blocks(prior: Option<ExposureRecord>, first: Report, second: Report) {
    prior.Some? && !Before(Stamp(prior, first), first.env.attempt, second.env.completedAt, second.env.attempt)
  }

  /** The verdict on a port: that of the latest report covering it, or what the prior row shows if that
      report has no effect. */
  ghost function Verdict(prior: Option<ExposureRecord>, reports: set<Report>, key: PortKey): Option<View> {
    if exists r :: Latest(reports, key, r) && Moves(prior, r, key) then
      var r :| Latest(reports, key, r) && Moves(prior, r, key);
      Shows(r, key)
    else OpenAt(prior)
  }

  // ---------------------------------------------------------------- the invariant

  /** The row is what the report makes of the prior row. */
  predicate Explains(prior: Option<ExposureRecord>, r: Report, key: PortKey, record: Option<ExposureRecord>) {
    && Moves(prior, r, key) && OpenAt(record) == Shows(r, key)
    && (prior.Some? ==> record.Some?)
    && (record.Some? ==>
          var row := record.value.row;
          && row.lastChangedAt <= row.lastConfirmedAt == Stamp(prior, r)
          && row.lastAttempt == r.env.attempt && row.lastGeneration == r.env.generation)
  }

  /** A port's row after the given reports have been delivered, in any order: untouched, or explained by one
      of them, and that is the latest one unless it was blocked. */
  ghost predicate RowReflects(prior: Option<ExposureRecord>, reports: set<Report>, key: PortKey,
                              record: Option<ExposureRecord>)
  {
    && (record == prior || exists a :: a in reports && Explains(prior, a, key, record))
    && (forall w :: Latest(reports, key, w) && Moves(prior, w, key) ==>
          || Explains(prior, w, key, record)
          || exists a :: a in reports && a != w && Blocks(prior, a, w) && Explains(prior, a, key, record))
  }

  /** The rest of the store while reports are being delivered. */
  ghost predicate Frame(start: Db, db: Db, t: Id, reports: set<Report>) {
    && t in db.targets && t in start.targets
    && db.events == start.events && db.rules == start.rules
    && db.targets[t].identity == start.targets[t].identity
    && db.targets[t].generation == start.targets[t].generation
    && db.targets[t].status == start.targets[t].status
    && db.targets[t].addresses == start.targets[t].addresses
    && (forall r :: r in reports ==> r.env.attempt in db.attempts && db.attempts[r.env.attempt] == r.Row(false))
    && (forall a :: a in db.attempts ==> (a in start.attempts && db.attempts[a] == start.attempts[a])
                                         || exists r :: r in reports && r.env.attempt == a)
  }

  ghost predicate Reflects(start: Db, db: Db, t: Id, reports: set<Report>) {
    && Frame(start, db, t, reports)
    && forall k :: RowReflects(Get(start.exposures, Service(t, k)), reports, k, Get(db.exposures, Service(t, k)))
  }

  // ---------------------------------------------------------------- one delivery

  /** The SQL query for the controlling attempt finds the latest delivered report. */
  lemma ControlIsLatest(start: Db, db: Db, t: Id, reports: set<Report>, r: Report, key: PortKey)
    requires Start(start, t, reports) && Frame(start, db, t, reports) && r in reports
    ensures Controls(db.attempts, r.env, key) <==> Latest(reports, key, r)
  {
  }

  /** A report that does not control the port, or reads it "unknown", leaves its row alone. */
  lemma PassedOver(attempts: map<Id, Attempt>, r: Report, before: Option<ExposureRecord>, key: PortKey)
    requires !Controls(attempts, r.env, key) || r.Reading(key) == Some(Unknown)
    ensures EvidenceAt(attempts, r.env, ByKey(r.observations), before, key).record == before
  {
  }

  lemma UntouchedRowReflects(prior: Option<ExposureRecord>, reports: set<Report>, r: Report, key: PortKey,
                             record: Option<ExposureRecord>)
    requires RowReflects(prior, reports, key, record)
    requires r !in reports && (Latest(reports + {r}, key, r) ==> !Moves(prior, r, key))
    ensures RowReflects(prior, reports + {r}, key, record)
  {
    var all := reports + {r};
    if record != prior {
      var a :| a in reports && Explains(prior, a, key, record);
      assert a in all;
    }
    forall w | Latest(all, key, w) && Moves(prior, w, key) && !Explains(prior, w, key, record)
      ensures exists a :: a in all && a != w && Blocks(prior, a, w) && Explains(prior, a, key, record)
    {
      assert Latest(reports, key, w);
      var a :| a in reports && a != w && Blocks(prior, a, w) && Explains(prior, a, key, record);
      assert a in all;
    }
  }

  /** A controlling attempt that does not read "unknown" either meets the recency guard and changes nothing,
      or imposes its reading and leaves its own stamp, at a time no earlier than the row's. */
  lemma ControllingEffect(attempts: map<Id, Attempt>, env: Envelope, observed: map<PortKey, Observation>,
                          before: Option<ExposureRecord>, key: PortKey)
    requires Controls(attempts, env, key) && Covered(env.coverage, key)
    requires before.Some? ==> before.value.row.lastChangedAt <= before.value.row.lastConfirmedAt
    requires key in observed ==> observed[key].key == key && !observed[key].state.Unknown?
    ensures var after := EvidenceAt(attempts, env, observed, before, key).record;
            if before.Some? && !E.EvidenceIsNewer(before.value.row, env.generation, env.completedAt, env.attempt) then
              after == before
            else
              && OpenAt(after) == ViewIn(observed, key, env.attempt) && (before.Some? ==> after.Some?)
              && (after.Some? ==> StampedBy(before, env, after.value.row))
  {
  }

  function ViewIn(observed: map<PortKey, Observation>, key: PortKey, attempt: Id): Option<View> {
    if key in observed && observed[key].state.Open? then
      Some(View(observed[key].address, observed[key].service, observed[key].identity, attempt))
    else None
  }

  predicate StampedBy(before: Option<ExposureRecord>, env: Envelope, row: Exposure) {
    && row.lastChangedAt <= row.lastConfirmedAt && row.lastAttempt == env.attempt
    && row.lastGeneration == env.generation
    && row.lastConfirmedAt == if before.Some? then Max(before.value.row.lastConfirmedAt, env.completedAt)
                              else env.completedAt
  }

  /** On a row that no report has touched, a controlling report takes effect exactly if it moves it. */
  lemma FirstEffect(attempts: map<Id, Attempt>, prior: Option<ExposureRecord>, r: Report, key: PortKey)
    requires Controls(attempts, r.env, key) && r.Covers(key) && RowBehind(prior, r.env.generation)
    requires r.Reading(key) != Some(Unknown)
    ensures var after := EvidenceAt(attempts, r.env, ByKey(r.observations), prior, key).record;
            if Moves(prior, r, key) then Explains(prior, r, key, after) else after == prior
  {
    ControllingEffect(attempts, r.env, ByKey(r.observations), prior, key);
    assert Shows(r, key) == ViewIn(ByKey(r.observations), key, r.env.attempt);
  }

  /** On a row that an older report explains, a controlling report that does not read "unknown" takes
      effect exactly if it is not blocked. */
  lemma NextEffect(attempts: map<Id, Attempt>, prior: Option<ExposureRecord>, a: Report, r: Report, key: PortKey,
                   before: Option<ExposureRecord>)
    requires Controls(attempts, r.env, key) && r.Covers(key) && RowBehind(prior, r.env.generation)
    requires a.env.generation == r.env.generation && Older(a, r) && Explains(prior, a, key, before)
    requires r.Reading(key) != Some(Unknown)
    ensures var after := EvidenceAt(attempts, r.env, ByKey(r.observations), before, key).record;
            if Blocks(prior, a, r) then after == before else Explains(prior, r, key, after)
  {
    ControllingEffect(attempts, r.env, ByKey(r.observations), before, key);
    assert Shows(r, key) == ViewIn(ByKey(r.observations), key, r.env.attempt);
  }

  /** A report that controls the port makes its row reflect all reports. */
  lemma ControllingImposesReading(attempts: map<Id, Attempt>, prior: Option<ExposureRecord>, reports: set<Report>,
                                  r: Report, key: PortKey, before: Option<ExposureRecord>)
    requires r !in reports && Latest(reports + {r}, key, r) && Controls(attempts, r.env, key)
    requires RowBehind(prior, r.env.generation)
    requires forall a :: a in reports ==> a.env.generation == r.env.generation
    requires RowReflects(prior, reports, key, before)
    ensures RowReflects(prior, reports + {r}, key,
                        EvidenceAt(attempts, r.env, ByKey(r.observations), before, key).record)
  {
    var all := reports + {r};
    var after := EvidenceAt(attempts, r.env, ByKey(r.observations), before, key).record;
    assert r in all;
    forall w | Latest(all, key, w) ensures w == r {}
    if r.Reading(key) == Some(Unknown) {
      PassedOver(attempts, r, before, key);
      UntouchedRowReflects(prior, reports, r, key, before);
    } else if before == prior {
      FirstEffect(attempts, prior, r, key);
    } else {
      var a :| a in reports && Explains(prior, a, key, before);
      assert a in all && Older(a, r);
      NextEffect(attempts, prior, a, r, key, before);
    }
  }

  /** A redelivered report is recognised as a duplicate. */
  lemma RedeliveryIsIgnored(start: Db, db: Db, t: Id, reports: set<Report>, r: Report)
    requires Start(start, t, reports) && Frame(start, db, t, reports) && r in reports
    ensures Deliver(db, r) == db
  {
    assert Eligible(start, t, r);
    forall a | a in db.attempts && a != r.env.attempt ensures db.attempts[a].result != r.env.result {
      if !(a in start.attempts && db.attempts[a] == start.attempts[a]) {
        var o :| o in reports && o.env.attempt == a;
      }
    }
  }

  /** A new report is accepted as eligible, and its evidence is absorbed. */
  lemma NewReportIsAbsorbed(start: Db, db: Db, t: Id, reports: set<Report>, r: Report)
    requires r !in reports && Start(start, t, reports + {r}) && Frame(start, db, t, reports)
    ensures var recorded := RecordAttempt(db, r.env, false, true);
            && Frame(start, recorded, t, reports + {r}) && recorded.exposures == db.exposures
            && Deliver(db, r) == recorded.(exposures := ApplyEvidence(recorded, r.env, ByKey(r.observations)),
                                           findings := Deliver(db, r).findings)
  {
    var all := reports + {r};
    assert r in all && Eligible(start, t, r) && Eligible(db, t, r);
    forall a | a in db.attempts ensures a != r.env.attempt && db.attempts[a].result != r.env.result {
      if !(a in start.attempts && db.attempts[a] == start.attempts[a]) {
        var o :| o in reports && o.env.attempt == a;
        assert o in all;
      }
    }
    var recorded := RecordAttempt(db, r.env, false, true);
    FrameGrows(start, db, t, reports, r);
    AbsorbSucceeds(recorded, r);
    IngestAbsorbs(db, r);
  }

  lemma IngestAbsorbs(db: Db, r: Report)
    requires Eligible(db, r.env.target, r)
    requires forall a :: a in db.attempts ==> a != r.env.attempt && db.attempts[a].result != r.env.result
    requires Absorb(RecordAttempt(db, r.env, false, true), r.env, ByKey(r.observations), true).Ok?
    ensures Deliver(db, r) == Absorb(RecordAttempt(db, r.env, false, true), r.env, ByKey(r.observations), true).value
  {
  }

  lemma FrameGrows(start: Db, db: Db, t: Id, reports: set<Report>, r: Report)
    requires r !in reports && Start(start, t, reports + {r}) && Frame(start, db, t, reports)
    requires r.env.attempt !in db.attempts
    ensures Frame(start, RecordAttempt(db, r.env, false, true), t, reports + {r})
  {
  }

  lemma AbsorbSucceeds(db: Db, r: Report)
    requires r.env.target in db.targets
    requires forall n, k :: n in db.rules ==> !F.Broken(db.rules[n], k)
    ensures Absorb(db, r.env, ByKey(r.observations), true).Ok?
  {
    var observed := ByKey(r.observations);
    AffectedAreOwn(db, r.env, observed);
    NothingRejected(db.(exposures := ApplyEvidence(db, r.env, observed)), Affected(db, r.env, observed));
  }

  lemma AffectedAreOwn(db: Db, env: Envelope, observed: map<PortKey, Observation>)
    ensures forall s :: s in Affected(db, env, observed) ==> s.target == env.target
  {
  }

  /** With well-formed rules and somewhere to publish to, services of known targets are never rejected. */
  lemma NothingRejected(db: Db, services: set<Service>)
    requires forall s :: s in services ==> s.target in db.targets
    requires forall n, k :: n in db.rules ==> !F.Broken(db.rules[n], k)
    ensures forall s :: s in services ==> !Rejects(db, s, true)
  {
    forall s, r | s in services && r in db.rules ensures !Stops(db.rules[r], s.key, true) {
      F.MatchesExactly(db.rules[r], s.key);
    }
  }

  /** The row of a port after a new report is its effect on the row before. */
  lemma DeliveredRow(start: Db, db: Db, t: Id, reports: set<Report>, r: Report, key: PortKey)
    requires r !in reports && Start(start, t, reports + {r}) && Frame(start, db, t, reports)
    ensures var attempts := RecordAttempt(db, r.env, false, true).attempts;
            && Get(Deliver(db, r).exposures, Service(t, key))
               == EvidenceAt(attempts, r.env, ByKey(r.observations), Get(db.exposures, Service(t, key)), key).record
            && (Controls(attempts, r.env, key) <==> Latest(reports + {r}, key, r))
  {
    var recorded := RecordAttempt(db, r.env, false, true);
    assert r in reports + {r} && Eligible(start, t, r);
    NewReportIsAbsorbed(start, db, t, reports, r);
    ControlIsLatest(start, recorded, t, reports + {r}, r, key);
    EvidenceLookup(recorded, r, key);
  }

  lemma EvidenceLookup(db: Db, r: Report, key: PortKey)
    ensures Get(ApplyEvidence(db, r.env, ByKey(r.observations)), Service(r.env.target, key))
         == EvidenceAt(db.attempts, r.env, ByKey(r.observations), Get(db.exposures, Service(r.env.target, key)),
                       key).record
  {
  }

  lemma RowKeepsReflecting(attempts: map<Id, Attempt>, prior: Option<ExposureRecord>, reports: set<Report>, r: Report,
                           key: PortKey, before: Option<ExposureRecord>)
    requires r !in reports && (Controls(attempts, r.env, key) <==> Latest(reports + {r}, key, r))
    requires RowBehind(prior, r.env.generation) && RowReflects(prior, reports, key, before)
    requires forall a :: a in reports ==> a.env.generation == r.env.generation
    ensures RowReflects(prior, reports + {r}, key,
                        EvidenceAt(attempts, r.env, ByKey(r.observations), before, key).record)
  {
    if Latest(reports + {r}, key, r) {
      ControllingImposesReading(attempts, prior, reports, r, key, before);
    } else {
      PassedOver(attempts, r, before, key);
      UntouchedRowReflects(prior, reports, r, key, before);
    }
  }

  lemma DeliverKeepsReflecting(start: Db, db: Db, t: Id, reports: set<Report>, r: Report)
    requires Start(start, t, reports + {r}) && Reflects(start, db, t, reports)
    ensures Reflects(start, Deliver(db, r), t, reports + {r})
  {
    if r in reports {
      assert reports + {r} == reports;
      RedeliveryIsIgnored(start, db, t, reports, r);
    } else {
      assert r in reports + {r} && Eligible(start, t, r);
      forall a | a in reports ensures a.env.generation == r.env.generation { assert Eligible(start, t, a); }
      NewReportIsAbsorbed(start, db, t, reports, r);
      forall k
        ensures RowReflects(Get(start.exposures, Service(t, k)), reports + {r}, k,
                            Get(Deliver(db, r).exposures, Service(t, k)))
      {
        DeliveredRow(start, db, t, reports, r, k);
        RowKeepsReflecting(RecordAttempt(db, r.env, false, true).attempts, Get(start.exposures, Service(t, k)),
                           reports, r,
                           k, Get(db.exposures, Service(t, k)));
      }
    }
  }

  // ---------------------------------------------------------------- every order

  lemma SmallerStart(start: Db, t: Id, reports: set<Report>, fewer: set<Report>)
    requires Start(start, t, reports) && fewer <= reports
    ensures Start(start, t, fewer)
  {
  }

  lemma {:induction false} DeliveriesReflect(start: Db, t: Id, order: seq<Report>)
    requires Start(start, t, Members(order))
    ensures Reflects(start, DeliverAll(start, order), t, Members(order))
    decreases |order|
  {
    if order != [] {
      var shorter, last := order[..|order| - 1], order[|order| - 1];
      assert order == shorter + [last];
      assert Members(order) == Members(shorter) + {last};
      SmallerStart(start, t, Members(order), Members(shorter));
      DeliveriesReflect(start, t, shorter);
      DeliverKeepsReflecting(start, DeliverAll(start, shorter), t, Members(shorter), last);
    }
  }

  lemma {:induction false} LatestExists(reports: set<Report>, key: PortKey, some: Report) returns (r: Report)
    requires some in reports && some.Covers(key)
    requires forall a, b :: a in reports && b in reports && a != b ==> a.env.attempt != b.env.attempt
    ensures Latest(reports, key, r)
    decreases reports
  {
    var rest := set o | o in reports && o != some && o.Covers(key) && !Older(o, some);
    if rest == {} {
      r := some;
      forall o | o in reports && o != some && o.Covers(key) ensures Older(o, some) {
        assert o !in rest;
      }
    } else {
      var next :| next in rest;
      assert some !in rest && rest < reports;
      r := LatestExists(rest, key, next);
      forall o | o in reports && o != r && o.Covers(key) ensures Older(o, r) {
        if o !in rest { assert o == some || Older(o, some); }
      }
    }
  }

  /** A port is settled if no report can take effect that would leave it otherwise than the latest covering
      report leaves it: no report that blocks the latest one shows anything else, and if the latest one has
      no effect of its own, no report shows anything else than the prior row. */
  ghost predicate Settled(prior: Option<ExposureRecord>, reports: set<Report>, key: PortKey) {
    forall w, a :: Latest(reports, key, w) && a in reports && a != w && Moves(prior, a, key) ==> Agree(prior, a, w, key)
  }

  predicate Agree(prior: Option<ExposureRecord>, a: Report, w: Report, key: PortKey) {
    if Moves(prior, w, key) then Blocks(prior, a, w) ==> Shows(a, key) == Shows(w, key)
    else Shows(a, key) == OpenAt(prior)
  }

  /** Of two reports, the older applied first, the newer is blocked exactly if the prior row is stamped later
      than it, or at the same time with the older one earlier but of a greater attempt id. */
  lemma WhatBlocks(prior: Option<ExposureRecord>, a: Report, w: Report)
    requires Older(a, w)
    ensures Blocks(prior, a, w) <==>
              && prior.Some?
              && var late := prior.value.row.lastConfirmedAt;
                 || w.env.completedAt < late
                 || (w.env.completedAt == late && a.env.completedAt < late && a.env.attempt >= w.env.attempt)
  {
  }

  /** Where no prior row is stamped later than a report covering the port, nothing is ever blocked: the port
      is settled unless its latest report has no effect while another shows what the prior row does not. */
  lemma TimelyRowsSettle(prior: Option<ExposureRecord>, reports: set<Report>, key: PortKey)
    requires prior.Some? ==> forall r :: r in reports && r.Covers(key)
                               ==> prior.value.row.lastConfirmedAt <= r.env.completedAt
    ensures Settled(prior, reports, key) <==>
              forall w, a :: Latest(reports, key, w) && !Moves(prior, w, key) && a in reports && Moves(prior, a, key)
                             ==> Shows(a, key) == OpenAt(prior)
  {
    forall w, a | Latest(reports, key, w) && a in reports && a != w && Moves(prior, a, key)
      ensures !Blocks(prior, a, w)
    {
      WhatBlocks(prior, a, w);
    }
    if Settled(prior, reports, key) {
      forall w, a | Latest(reports, key, w) && a in reports && a != w && Moves(prior, a, key) && !Moves(prior, w, key)
        ensures Shows(a, key) == OpenAt(prior)
      {
        assert Agree(prior, a, w, key);
      }
    }
  }

  /** Delivered in any order, with any repetition, a settled port shows its verdict. */
  lemma SettledPortsConverge(start: Db, t: Id, reports: set<Report>, order: seq<Report>, key: PortKey)
    requires Start(start, t, reports) && Members(order) == reports
    requires Settled(Get(start.exposures, Service(t, key)), reports, key)
    ensures OpenPort(DeliverAll(start, order), t, key) == Verdict(Get(start.exposures, Service(t, key)), reports, key)
  {
    DeliveriesReflect(start, t, order);
    SettledRowShowsVerdict(Get(start.exposures, Service(t, key)), reports, key,
                           Get(DeliverAll(start, order).exposures, Service(t, key)));
  }

  lemma SettledRowShowsVerdict(prior: Option<ExposureRecord>, reports: set<Report>, key: PortKey,
                               record: Option<ExposureRecord>)
    requires forall a, b :: a in reports && b in reports && a != b ==> a.env.attempt != b.env.attempt
    requires RowReflects(prior, reports, key, record) && Settled(prior, reports, key)
    ensures OpenAt(record) == Verdict(prior, reports, key)
  {
    if record != prior {
      var a :| a in reports && Explains(prior, a, key, record);
      var w := LatestExists(reports, key, a);
      OnlyOneLatest(reports, key, w);
      if Moves(prior, w, key) && !Explains(prior, w, key, record) {
        var b :| b in reports && b != w && Blocks(prior, b, w) && Explains(prior, b, key, record);
        assert Agree(prior, b, w, key);
      } else if a != w {
        assert Agree(prior, a, w, key);
      }
    } else if w :| Latest(reports, key, w) && Moves(prior, w, key) {
      OnlyOneLatest(reports, key, w);
    }
  }

  lemma OnlyOneLatest(reports: set<Report>, key: PortKey, w: Report)
    requires Latest(reports, key, w)
    ensures forall o :: Latest(reports, key, o) ==> o == w
  {
  }

  // ---------------------------------------------------------------- why nothing weaker will do

  /** Once a port's latest report has been delivered, another delivery leaves the port alone. */
  lemma LatestStays(start: Db, db: Db, t: Id, delivered: set<Report>, next: Report, key: PortKey, w: Report)
    requires Start(start, t, delivered + {next}) && Frame(start, db, t, delivered)
    requires w in delivered && Latest(delivered + {next}, key, w)
    ensures OpenPort(Deliver(db, next), t, key) == OpenPort(db, t, key)
  {
    if next in delivered {
      SmallerStart(start, t, delivered + {next}, delivered);
      RedeliveryIsIgnored(start, db, t, delivered, next);
    } else {
      assert next in delivered + {next} && w in delivered + {next};
      assert !Latest(delivered + {next}, key, next);
      DeliveredRow(start, db, t, delivered, next, key);
      PassedOver(RecordAttempt(db, next.env, false, true).attempts, next, Get(db.exposures, Service(t, key)), key);
    }
  }

  lemma {:induction false} LatestIsFinal(start: Db, t: Id, reports: set<Report>, prefix: seq<Report>, more: seq<Report>,
                                         key: PortKey, w: Report)
    requires Start(start, t, reports) && Members(prefix) <= reports && Members(more) <= reports
    requires Latest(reports, key, w) && w in prefix
    ensures OpenPort(DeliverAll(start, prefix + more), t, key) == OpenPort(DeliverAll(start, prefix), t, key)
    decreases |more|
  {
    if more == [] {
      assert prefix + more == prefix;
    } else {
      var shorter, last := more[..|more| - 1], more[|more| - 1];
      LatestIsFinal(start, t, reports, prefix, shorter, key, w);
      AppendLast(start, prefix, more);
      var so := Members(prefix + shorter);
      assert so + {last} <= reports && w in so;
      SmallerStart(start, t, reports, so);
      SmallerStart(start, t, reports, so + {last});
      DeliveriesReflect(start, t, prefix + shorter);
      LatestStays(start, DeliverAll(start, prefix + shorter), t, so, last, key, w);
    }
  }

  lemma AppendLast(start: Db, prefix: seq<Report>, more: seq<Report>)
    requires more != []
    ensures DeliverAll(start, prefix + more)
         == Deliver(DeliverAll(start, prefix + more[..|more| - 1]), more[|more| - 1])
  {
    SplitLast(prefix, more);
    LastDelivered(start, prefix + more[..|more| - 1], more[|more| - 1]);
  }

  lemma SplitLast(prefix: seq<Report>, more: seq<Report>)
    requires more != []
    ensures prefix + more == prefix + more[..|more| - 1] + [more[|more| - 1]]
  {
  }

  lemma LastDelivered(start: Db, order: seq<Report>, last: Report)
    ensures DeliverAll(start, order + [last]) == Deliver(DeliverAll(start, order), last)
  {
  }

  lemma {:induction false} Enumeration(reports: set<Report>) returns (order: seq<Report>)
    ensures Members(order) == reports
    decreases reports
  {
    if reports == {} {
      order := [];
    } else {
      var r :| r in reports;
      var rest := Enumeration(reports - {r});
      order := [r] + rest;
      assert Members(order) == {r} + Members(rest);
    }
  }

  /** After a single delivery the row is what the report makes of the prior row. */
  lemma OneDelivered(start: Db, t: Id, reports: set<Report>, key: PortKey, a: Report)
    requires Start(start, t, reports) && a in reports && a.Covers(key)
    ensures var prior := Get(start.exposures, Service(t, key));
            var record := Get(DeliverAll(start, [a]).exposures, Service(t, key));
            && Frame(start, DeliverAll(start, [a]), t, {a}) && Start(start, t, {a})
            && if Moves(prior, a, key) then Explains(prior, a, key, record) else record == prior
  {
    assert Members([a]) == {a};
    SmallerStart(start, t, reports, {a});
    DeliveriesReflect(start, t, [a]);
    OneReflected(Get(start.exposures, Service(t, key)), a, key,
                 Get(DeliverAll(start, [a]).exposures, Service(t, key)));
  }

  lemma OneReflected(prior: Option<ExposureRecord>, a: Report, key: PortKey, record: Option<ExposureRecord>)
    requires RowReflects(prior, {a}, key, record) && a.Covers(key)
    ensures if Moves(prior, a, key) then Explains(prior, a, key, record) else record == prior
  {
    assert Latest({a}, key, a);
  }

  /** A report that moves the port, delivered before the latest one that disagrees with it. */
  lemma MoverFirst(start: Db, t: Id, reports: set<Report>, key: PortKey, a: Report, w: Report, all: seq<Report>)
    requires Start(start, t, reports) && a in reports && a != w && Members(all) <= reports && Latest(reports, key, w)
    requires var prior := Get(start.exposures, Service(t, key));
             Moves(prior, a, key) && !Agree(prior, a, w, key)
    ensures OpenPort(DeliverAll(start, [a, w] + all), t, key) == Shows(a, key)
  {
    MoverThenLatest(start, t, reports, key, a, w);
    LatestIsFinal(start, t, reports, [a, w], all, key, w);
  }

  lemma MoverThenLatest(start: Db, t: Id, reports: set<Report>, key: PortKey, a: Report, w: Report)
    requires Start(start, t, reports) && a in reports && a != w && Latest(reports, key, w)
    requires var prior := Get(start.exposures, Service(t, key));
             Moves(prior, a, key) && !Agree(prior, a, w, key)
    ensures OpenPort(DeliverAll(start, [a, w]), t, key) == Shows(a, key)
  {
    OneDelivered(start, t, reports, key, a);
    PairDelivered(start, a, w);
    LatestAfterMover(start, DeliverAll(start, [a]), t, reports, key, a, w);
  }

  lemma LatestAfterMover(start: Db, db: Db, t: Id, reports: set<Report>, key: PortKey, a: Report, w: Report)
    requires Start(start, t, reports) && a in reports && a != w && Latest(reports, key, w) && Frame(start, db, t, {a})
    requires var prior := Get(start.exposures, Service(t, key));
             && Moves(prior, a, key) && !Agree(prior, a, w, key)
             && Explains(prior, a, key, Get(db.exposures, Service(t, key)))
    ensures OpenPort(Deliver(db, w), t, key) == Shows(a, key)
  {
    assert Eligible(start, t, w) && Eligible(start, t, a);
    SmallerStart(start, t, reports, {a} + {w});
    SecondHasNoEffect(start, db, t, a, w, key);
  }

  lemma PairDelivered(start: Db, a: Report, w: Report)
    ensures DeliverAll(start, [a, w]) == Deliver(DeliverAll(start, [a]), w)
  {
    LastDelivered(start, [a], w);
    assert [a] + [w] == [a, w];
  }

  lemma SecondHasNoEffect(start: Db, db: Db, t: Id, a: Report, w: Report, key: PortKey)
    requires a != w && Start(start, t, {a} + {w}) && Frame(start, db, t, {a})
    requires a.env.generation == w.env.generation == start.targets[t].generation && w.Covers(key) && Older(a, w)
    requires var prior := Get(start.exposures, Service(t, key));
             Explains(prior, a, key, Get(db.exposures, Service(t, key))) && !Agree(prior, a, w, key)
    ensures OpenPort(Deliver(db, w), t, key) == OpenPort(db, t, key)
  {
    DeliveredRow(start, db, t, {a}, w, key);
    RowStays(RecordAttempt(db, w.env, false, true).attempts, Get(start.exposures, Service(t, key)), a, w, key,
             Get(db.exposures, Service(t, key)));
  }

  lemma RowStays(attempts: map<Id, Attempt>, prior: Option<ExposureRecord>, a: Report, w: Report, key: PortKey,
                 before: Option<ExposureRecord>)
    requires RowBehind(prior, w.env.generation) && a.env.generation == w.env.generation && w.Covers(key)
    requires Explains(prior, a, key, before) && Older(a, w) && !Agree(prior, a, w, key)
    ensures EvidenceAt(attempts, w.env, ByKey(w.observations), before, key).record == before
  {
    if w.Reading(key) == Some(Unknown) || !Controls(attempts, w.env, key) {
      PassedOver(attempts, w, before, key);
    } else {
      NextEffect(attempts, prior, a, w, key, before);
    }
  }

  /** The latest report delivered before all others. */
  lemma LatestFirst(start: Db, t: Id, reports: set<Report>, key: PortKey, w: Report, all: seq<Report>)
    requires Start(start, t, reports) && Members(all) <= reports && Latest(reports, key, w)
    ensures var prior := Get(start.exposures, Service(t, key));
            OpenPort(DeliverAll(start, [w] + all), t, key)
            == if Moves(prior, w, key) then Shows(w, key) else OpenAt(prior)
  {
    OneDelivered(start, t, reports, key, w);
    LatestIsFinal(start, t, reports, [w], all, key, w);
  }

  /** At a port that is not settled, two orders of the same reports disagree. */
  lemma UnsettledPortsDiverge(start: Db, t: Id, reports: set<Report>, key: PortKey)
    returns (one: seq<Report>, two: seq<Report>)
    requires Start(start, t, reports) && !Settled(Get(start.exposures, Service(t, key)), reports, key)
    ensures Members(one) == reports == Members(two)
    ensures OpenPort(DeliverAll(start, one), t, key) != OpenPort(DeliverAll(start, two), t, key)
  {
    var prior := Get(start.exposures, Service(t, key));
    var w, a :| Latest(reports, key, w) && a in reports && a != w && Moves(prior, a, key) && !Agree(prior, a, w, key);
    var all := Enumeration(reports);
    one, two := TwoOrders(reports, all, a, w);
    MoverFirst(start, t, reports, key, a, w, all);
    LatestFirst(start, t, reports, key, w, all);
  }

  lemma TwoOrders(reports: set<Report>, all: seq<Report>, a: Report, w: Report)
    returns (one: seq<Report>, two: seq<Report>)
    requires Members(all) == reports && a in reports && w in reports
    ensures one == [a, w] + all && two == [w] + all && Members(one) == reports == Members(two)
  {
    one, two := [a, w] + all, [w] + all;
    assert Members(one) == {a, w} + Members(all) && Members(two) == {w} + Members(all);
  }

  ghost predicate OrderIndependentAt(start: Db, t: Id, reports: set<Report>, key: PortKey) {
    forall one, two :: Members(one) == reports && Members(two) == reports
      ==> OpenPort(DeliverAll(start, one), t, key) == OpenPort(DeliverAll(start, two), t, key)
  }

  /** Whether a port is open, at which address, with which identity and by which attempt, is independent of
      the order and multiplicity of deliveries if and only if the port is settled. */
  lemma OrderIndependentIffSettled(start: Db, t: Id, reports: set<Report>, key: PortKey)
    requires Start(start, t, reports)
    ensures OrderIndependentAt(start, t, reports, key) <==> Settled(Get(start.exposures, Service(t, key)), reports, key)
  {
    if Settled(Get(start.exposures, Service(t, key)), reports, key) {
      forall one, two | Members(one) == reports && Members(two) == reports
        ensures OpenPort(DeliverAll(start, one), t, key) == OpenPort(DeliverAll(start, two), t, key)
      {
        SettledPortsConverge(start, t, reports, one, key);
        SettledPortsConverge(start, t, reports, two, key);
      }
    } else {
      var one, two := UnsettledPortsDiverge(start, t, reports, key);
    }
  }

  // ---------------------------------------------------------------- findings

  /** What a reader sees of an open finding. */
  datatype FindingView = FindingView(address: Id, identity: Id, severity: Id, title: Id, description: Id)

  function OpenFinding(db: Db, f: Fingerprint): Option<FindingView> {
    if f in db.findings && db.findings[f].row.status.Unresolved? then
      var row := db.findings[f].row;
      Some(FindingView(row.address, row.identity, row.severity, row.title, row.description))
    else None
  }

  /** The finding that a port and a rule call for. */
  function Expected(port: Option<View>, rule: Option<Rule>, key: PortKey): Option<FindingView> {
    if port.Some? && rule.Some? && F.Lists(rule.value, key) then
      Some(FindingView(port.value.address, port.value.identity, rule.value.severity, rule.value.name,
                       rule.value.description))
    else None
  }

  lemma {:induction false} DeliveriesKeepExact(start: Db, order: seq<Report>)
    requires StoreSafety.Safe(start) && StoreSafety.Exact(start)
    ensures StoreSafety.Safe(DeliverAll(start, order)) && StoreSafety.Exact(DeliverAll(start, order))
    decreases |order|
  {
    if order != [] {
      var shorter, r := order[..|order| - 1], order[|order| - 1];
      DeliveriesKeepExact(start, shorter);
      StoreSafety.StepKeeps(DeliverAll(start, shorter), ScanOp(r.env, r.observations, true, true));
    }
  }

  /** In an exact store the open findings of an active target are those its ports and rules call for. */
  lemma FindingsFollowPorts(db: Db, f: Fingerprint)
    requires StoreSafety.Exact(db)
    requires f.service.target in db.targets && db.targets[f.service.target].status.Active?
    ensures OpenFinding(db, f)
         == Expected(OpenPort(db, f.service.target, f.service.key), Get(db.rules, f.rule), f.service.key)
  {
    assert StoreSafety.Current(db, f);
    assert f.service == Service(f.service.target, f.service.key);
  }

  /** So the open findings of a settled port converge too, to those that its verdict and the rules call for. */
  lemma FindingsConverge(start: Db, reports: set<Report>, order: seq<Report>, f: Fingerprint)
    requires Start(start, f.service.target, reports) && Members(order) == reports
    requires StoreSafety.Safe(start) && StoreSafety.Exact(start) && start.targets[f.service.target].status.Active?
    requires Settled(Get(start.exposures, f.service), reports, f.service.key)
    ensures OpenFinding(DeliverAll(start, order), f)
         == Expected(Verdict(Get(start.exposures, f.service), reports, f.service.key), Get(start.rules, f.rule),
                     f.service.key)
  {
    var t, key := f.service.target, f.service.key;
    assert f.service == Service(t, key);
    SettledPortsConverge(start, t, reports, order, key);
    DeliveriesReflect(start, t, order);
    DeliveriesKeepExact(start, order);
    FindingsFollowPorts(DeliverAll(start, order), f);
  }
}
