/** The store as the object the handlers call: tables are fields, each public method is one transaction
    that loops over rows and queues handoffs as it goes, and a transaction that raises restores the tables
    it found. Every method is proved to do what its function in Store says, and to queue what Exports says. */
module Repositories {
  import opened Base
  import opened Records
  import opened Store
  import E = Exposures
  import F = Findings
  import StoreSafety
  import opened Exports

  class Repository {
    var targets: map<Id, Target>
    var events: map<Id, EventRow>
    var attempts: map<Id, Attempt>
    var exposures: map<Service, ExposureRecord>
    var findings: map<Fingerprint, FindingRecord>
    var rules: map<Id, Rule>
    var runs: map<Id, ReconciliationRun>
    var queue: Queue

    function Snapshot(): Db
      reads this
    {
      Db(targets, events, attempts, exposures, findings, rules, runs)
    }

    function State(): World
      reads this
    {
      World(Snapshot(), queue)
    }

    constructor (rules: map<Id, Rule>)
      ensures State() == World(EmptyDb(rules), map[])
    {
      targets, events, attempts, exposures, findings, runs, queue := map[], map[], map[], map[], map[], map[], map[];
      this.rules := rules;
    }

    method RollBack(saved: World)
      modifies this
      ensures State() == saved
    {
      var db := saved.db;
      targets, events, attempts, exposures := db.targets, db.events, db.attempts, db.exposures;
      findings, rules, runs, queue := db.findings, db.rules, db.runs, saved.queue;
    }

    // -------------------------------------------------------------- queued handoffs

    /** The queue with the handoffs of just the events written since. */
    ghost function NewQueue(before: World, mode: Export): Queue
      reads this
    {
      QueueAfter(before.queue, before.db.findings, findings, targets, mode)
    }

    ghost predicate Queued(before: World, mode: Export)
      reads this
    {
      queue == NewQueue(before, mode)
    }

    /** The queue has changed along with the findings. */
    static ghost predicate Tracks(queue0: Queue, findings0: map<Fingerprint, FindingRecord>, queue: Queue,
                                  findings: map<Fingerprint, FindingRecord>, targets: map<Id, Target>, mode: Export)
    {
      forall key :: Get(queue, key) == HandoffAfter(queue0, findings0, findings, targets, mode, key)
    }

    /** Steps that touch different findings add up. */
    static lemma TracksOn(queue0: Queue, findings0: map<Fingerprint, FindingRecord>, queue1: Queue,
                          findings1: map<Fingerprint, FindingRecord>, queue2: Queue,
                          findings2: map<Fingerprint, FindingRecord>, targets: map<Id, Target>, mode: Export)
      requires Tracks(queue0, findings0, queue1, findings1, targets, mode)
      requires Tracks(queue1, findings1, queue2, findings2, targets, mode)
      requires forall f :: Get(findings1, f) == Get(findings0, f) || Get(findings2, f) == Get(findings1, f)
      ensures Tracks(queue0, findings0, queue2, findings2, targets, mode)
    {
      forall key ensures Get(queue2, key) == HandoffAfter(queue0, findings0, findings2, targets, mode, key) {
        assert Get(queue1, key) == HandoffAfter(queue0, findings0, findings1, targets, mode, key);
        assert Get(queue2, key) == HandoffAfter(queue1, findings1, findings2, targets, mode, key);
        assert Get(findings1, key.f) == Get(findings0, key.f) || Get(findings2, key.f) == Get(findings1, key.f);
      }
    }

    static lemma NothingQueued(queue: Queue, findings: map<Fingerprint, FindingRecord>, targets: map<Id, Target>,
                               mode: Export)
      ensures Tracks(queue, findings, queue, findings, targets, mode)
      ensures QueueAfter(queue, findings, findings, targets, mode) == queue
    {
      StoreSafety.SameLookups(QueueAfter(queue, findings, findings, targets, mode), queue);
    }

    /** Writes a finding, and queues its new event if there is one. */
    method WriteFinding(f: Fingerprint, rec: FindingRecord, target: Target, mode: Export)
      requires f.service.target in targets && targets[f.service.target] == target
      modifies this`findings, this`queue
      ensures findings == old(findings)[f := rec]
      ensures Tracks(old(queue), old(findings), queue, findings, targets, mode)
    {
      var grown := |rec.log| > Length(Get(findings, f));
      findings := findings[f := rec];
      if grown && mode.To? {
        queue := Insert(queue, Key(f, OfEvent(rec.row.version), mode.bucket), EventNotice(target, rec));
      }
    }

    // -------------------------------------------------------------- findings

    /** A finding after the service has been reconciled. */
    static function FindingIfReconciled(db: Db, s: Service, cause: F.Cause, f: Fingerprint): Option<FindingRecord>
      requires s.target in db.targets
    {
      if f.service == s then
        F.ReconcileFinding(Get(db.findings, f), db.targets[s.target], ExposureRow(db, s), Get(db.rules, f.rule),
                           s.key, cause)
      else Get(db.findings, f)
    }

    /** A finding after the matched rules have been ensured. */
    static function Ensured(before: map<Fingerprint, FindingRecord>, rules: map<Id, Rule>, s: Service, matched: set<Id>,
                            target: Target, exposure: Exposure, cause: F.Cause, f: Fingerprint): Option<FindingRecord>
    {
      if f.service == s && f.rule in matched && f.rule in rules then
        Some(F.EnsureFinding(Get(before, f), target, exposure, rules[f.rule], cause))
      else Get(before, f)
    }

    /** A finding after the given open ones have been resolved. */
    static function Dropped(before: map<Fingerprint, FindingRecord>, existing: map<Fingerprint, FindingRecord>,
                            unmatched: set<Fingerprint>, rules: map<Id, Rule>, target: Target,
                            exposure: Option<Exposure>,
                            cause: F.Cause, f: Fingerprint): Option<FindingRecord>
    {
      if f in unmatched && f in existing then
        Some(F.ResolveFinding(existing[f], target, F.ResolutionReason(target, exposure, Get(rules, f.rule)), cause))
      else Get(before, f)
    }

    static function Unmatched(existing: map<Fingerprint, FindingRecord>, matched: set<Id>): (fs: set<Fingerprint>)
      ensures forall f :: f in fs <==> f in existing && existing[f].row.status.Unresolved? && f.rule !in matched
    {
      set f | f in existing && existing[f].row.status.Unresolved? && f.rule !in matched
    }

    /** Matches every rule against the open service and ensures a finding for each that selects it. */
    method EnsureMatching(s: Service, target: Target, exposure: Exposure, cause: F.Cause, mode: Export)
      returns (ok: bool, matched: set<Id>)
      requires s.target in targets && targets[s.target] == target
      modifies this`findings, this`queue
      ensures ok <==> forall r :: r in rules ==> !Stops(rules[r], s.key, mode.Queueable())
      ensures ok ==> forall r :: r in matched <==> r in rules && F.Lists(rules[r], s.key)
      ensures ok ==> forall f :: Get(findings, f)
                       == Ensured(old(findings), rules, s, matched, target, exposure, cause, f)
      ensures ok ==> Tracks(old(queue), old(findings), queue, findings, targets, mode)
    {
      ghost var before := findings;
      NothingQueued(queue, findings, targets, mode);
      matched := {};
      var pending := set r | r in rules :: Fingerprint(s, r);
      while pending != {}
        invariant forall f :: f in pending ==> f.service == s && f.rule in rules
        invariant forall r :: r in matched <==>
                    r in rules && Fingerprint(s, r) !in pending && F.Lists(rules[r], s.key)
        invariant forall r :: r in rules && Fingerprint(s, r) !in pending ==> !Stops(rules[r], s.key, mode.Queueable())
        invariant forall f :: Get(findings, f) == Ensured(before, rules, s, matched, target, exposure, cause, f)
        invariant Tracks(old(queue), before, queue, findings, targets, mode)
      {
        var f :| f in pending;
        var selected := F.RuleMatches(rules[f.rule], s.key);
        F.MatchesExactly(rules[f.rule], s.key);
        if selected.Err? || (selected.value && mode.Unconfigured?) {
          assert Stops(rules[f.rule], s.key, mode.Queueable());
          return false, matched;
        }
        pending := pending - {f};
        if selected.value {
          ghost var was, had, queued := findings, matched, queue;
          assert Get(was, f) == Ensured(before, rules, s, had, target, exposure, cause, f);
          WriteFinding(f, F.EnsureFinding(Get(findings, f), target, exposure, rules[f.rule], cause), target, mode);
          assert Get(was, f) == Get(before, f);
          TracksOn(old(queue), before, queued, was, queue, findings, targets, mode);
          matched := matched + {f.rule};
          forall g ensures Get(findings, g) == Ensured(before, rules, s, matched, target, exposure, cause, g) {
            assert Get(was, g) == Ensured(before, rules, s, had, target, exposure, cause, g);
          }
        }
      }
      ok := true;
    }

    /** Resolves the open findings of the service that no rule matched. */
    method ResolveUnmatched(existing: map<Fingerprint, FindingRecord>, matched: set<Id>, target: Target,
                            exposure: Option<Exposure>, cause: F.Cause, mode: Export)
      returns (ok: bool)
      requires forall f :: f in existing ==> f.service.target in targets && targets[f.service.target] == target
      modifies this`findings, this`queue
      ensures ok <==> mode.Queueable() || forall f :: f !in Unmatched(existing, matched)
      ensures ok ==> forall f :: Get(findings, f)
                       == Dropped(old(findings), existing, Unmatched(existing, matched), rules, target, exposure,
                                  cause, f)
      ensures ok ==> Tracks(old(queue), old(findings), queue, findings, targets, mode)
    {
      ghost var before := findings;
      NothingQueued(queue, findings, targets, mode);
      var pending := Unmatched(existing, matched);
      ghost var all := pending;
      while pending != {}
        invariant pending <= all
        invariant mode.Queueable() || pending == all
        invariant forall f :: Get(findings, f)
                    == Dropped(before, existing, all - pending, rules, target, exposure, cause, f)
        invariant Tracks(old(queue), before, queue, findings, targets, mode)
      {
        var f :| f in pending;
        if mode.Unconfigured? { return false; }
        ghost var was, left, queued := findings, pending, queue;
        pending := pending - {f};
        var reason := F.ResolutionReason(target, exposure, Get(rules, f.rule));
        WriteFinding(f, F.ResolveFinding(existing[f], target, reason, cause), target, mode);
        assert Get(was, f) == Dropped(before, existing, all - left, rules, target, exposure, cause, f);
        TracksOn(old(queue), before, queued, was, queue, findings, targets, mode);
        forall g ensures Get(findings, g)
                      == Dropped(before, existing, all - pending, rules, target, exposure, cause, g)
        {
          assert Get(was, g) == Dropped(before, existing, all - left, rules, target, exposure, cause, g);
        }
      }
      assert all - pending == all;
      return true;
    }

    /** Reconciles the findings of one service: first every rule against the open exposure, then every
        open finding no rule matched. Answers false where the source raises. */
    method ReconcileService(s: Service, cause: F.Cause, mode: Export) returns (ok: bool)
      modifies this`findings, this`queue
      ensures ok <==> !Rejects(old(Snapshot()), s, mode.Queueable())
      ensures ok ==> s.target in targets
      ensures ok ==> forall f :: Get(findings, f) == FindingIfReconciled(old(Snapshot()), s, cause, f)
      ensures ok ==> Tracks(old(queue), old(findings), queue, findings, targets, mode)
    {
      NothingQueued(queue, findings, targets, mode);
      if s.target !in targets { return false; }
      ghost var db := Snapshot();
      var target := targets[s.target];
      var exposure := ExposureRow(Snapshot(), s);
      var existing := map f | f in findings && f.service == s :: findings[f];
      var matched: set<Id> := {};
      if exposure.Some? && exposure.value.open && target.status.Active? {
        ok, matched := EnsureMatching(s, target, exposure.value, cause, mode);
        if !ok {
          ghost var r :| r in db.rules && Stops(db.rules[r], s.key, mode.Queueable());
          return;
        }
      }
      ghost var ensured, queued := findings, queue;
      assert forall r :: r in matched <==> F.Selected(target, exposure, Get(rules, r), s.key);
      UnmatchedHaveLapsed(db, s, existing, matched);
      ok := ResolveUnmatched(existing, matched, target, exposure, cause, mode);
      if !ok {
        ghost var f :| f in Unmatched(existing, matched);
        assert Lapsed(db, s, f);
      } else {
        forall f ensures Get(findings, f) == FindingIfReconciled(db, s, cause, f) {
          assert Get(existing, f) == if f.service == s then Get(db.findings, f) else None;
        }
        forall f ensures Get(ensured, f) == Get(db.findings, f) || Get(findings, f) == Get(ensured, f) {
          assert f in Unmatched(existing, matched) ==> f.rule !in matched;
        }
        TracksOn(old(queue), db.findings, queued, ensured, queue, findings, targets, mode);
      }
    }

    static lemma UnmatchedHaveLapsed(db: Db, s: Service, existing: map<Fingerprint, FindingRecord>, matched: set<Id>)
      requires s.target in db.targets
      requires existing == map f | f in db.findings && f.service == s :: db.findings[f]
      requires forall r :: r in matched <==>
                 F.Selected(db.targets[s.target], ExposureRow(db, s), Get(db.rules, r), s.key)
      ensures forall f :: f in Unmatched(existing, matched) <==> Lapsed(db, s, f)
    {
    }

    lemma SameVerdictOnOwnFindings(db: Db, db': Db, s: Service, queueable: bool)
      requires db' == db.(findings := db'.findings)
      requires forall f: Fingerprint :: f.service == s ==> Get(db'.findings, f) == Get(db.findings, f)
      ensures Rejects(db, s, queueable) <==> Rejects(db', s, queueable)
    {
    }

    /** The findings of the services still pending are as before, the others reconciled. */
    static ghost predicate Partly(before: Db, batch: Batch, pending: set<Service>,
                                  findings: map<Fingerprint, FindingRecord>)
    {
      forall f :: Get(findings, f) ==
        if f.service in pending then Get(before.findings, f) else FindingAfter(before, batch, f)
    }

    method ReconcileNext(s: Service, batch: Batch, mode: Export, ghost pending: set<Service>, ghost before: World)
      returns (ok: bool)
      requires s in pending && pending <= batch.services && Snapshot() == before.db.(findings := findings)
      requires Partly(before.db, batch, pending, findings)
      requires Tracks(before.queue, before.db.findings, queue, findings, targets, mode)
      modifies this`findings, this`queue
      ensures ok <==> !Rejects(before.db, s, mode.Queueable())
      ensures ok ==> Partly(before.db, batch, pending - {s}, findings)
      ensures ok ==> Tracks(before.queue, before.db.findings, queue, findings, targets, mode)
    {
      ghost var was, queued := findings, queue;
      SameVerdictOnOwnFindings(before.db, Snapshot(), s, mode.Queueable());
      ok := ReconcileService(s, F.Cause(batch.source, batch.at, Get(batch.transitions, s)), mode);
      if ok { TracksOn(before.queue, before.db.findings, queued, was, queue, findings, targets, mode); }
    }

    method ReconcileFindingKeys(batch: Batch, mode: Export) returns (ok: bool)
      modifies this`findings, this`queue
      ensures var result := Reconcile(old(Snapshot()), batch, mode.Queueable());
              ok == result.Ok? && (ok ==> Snapshot() == result.value)
      ensures ok ==> queue == QueueAfter(old(queue), old(findings), findings, targets, mode)
    {
      ghost var before := State();
      NothingQueued(queue, findings, targets, mode);
      var pending := batch.services;
      while pending != {}
        invariant pending <= batch.services
        invariant forall s :: s in batch.services - pending ==> !Rejects(before.db, s, mode.Queueable())
        invariant Partly(before.db, batch, pending, findings)
        invariant Tracks(before.queue, before.db.findings, queue, findings, targets, mode)
      {
        var s :| s in pending;
        ok := ReconcileNext(s, batch, mode, pending, before);
        if !ok { return; }
        pending := pending - {s};
      }
      StoreSafety.SameLookups(findings, ReconcileFindings(before.db, batch));
      AllTracked(before.queue, before.db.findings, queue, findings, targets, mode);
      return true;
    }

    static lemma AllTracked(queue0: Queue, findings0: map<Fingerprint, FindingRecord>, queue: Queue,
                            findings: map<Fingerprint, FindingRecord>, targets: map<Id, Target>, mode: Export)
      requires Tracks(queue0, findings0, queue, findings, targets, mode)
      ensures queue == QueueAfter(queue0, findings0, findings, targets, mode)
    {
      StoreSafety.SameLookups(queue, QueueAfter(queue0, findings0, findings, targets, mode));
    }

    // -------------------------------------------------------------- scan evidence

    /** Stores what an open or close routine leaves behind, and notes what it reports. */
    method WriteRow(s: Service, change: E.Change)
      modifies this`exposures
      ensures change.record.Some? ==> exposures == old(exposures)[s := change.record.value]
      ensures change.record.None? ==> exposures == old(exposures)
    {
      if change.record.Some? {
        exposures := exposures[s := change.record.value];
      }
    }

    /** The services handled so far show their change; the others are as before. */
    static ghost predicate Progress(now: map<Service, ExposureRecord>, before: map<Service, ExposureRecord>,
                                    effect: Service -> E.Change, done: set<Service>, affected: set<Service>,
                                    transitions: map<Service, Transition>)
    {
      && (forall s :: Get(now, s) == if s in done then effect(s).record else Get(before, s))
      && (forall s :: s in affected <==> s in done && effect(s).applied)
      && (forall s :: Get(transitions, s) == if s in done then effect(s).transition else None)
    }

    /** Stores and notes the change to a service that has not been handled yet. */
    method Note(s: Service, change: E.Change, affected: set<Service>, transitions: map<Service, Transition>,
                ghost before: map<Service, ExposureRecord>, ghost effect: Service -> E.Change, ghost done: set<Service>)
      returns (affected': set<Service>, transitions': map<Service, Transition>)
      requires s !in done && change == effect(s) && (change.record.None? ==> s !in exposures)
      requires Progress(exposures, before, effect, done, affected, transitions)
      modifies this`exposures
      ensures Progress(exposures, before, effect, done + {s}, affected', transitions')
    {
      affected', transitions' := affected, transitions;
      WriteRow(s, change);
      if change.applied { affected' := affected + {s}; }
      if change.transition.Some? { transitions' := transitions[s := change.transition.value]; }
      assert Get(transitions, s) == None;
    }

    /** Lets the evidence act on the given services of the target, none of them handled before. */
    method Visit(rows: set<Service>, env: Envelope, observed: map<PortKey, Observation>, affected: set<Service>,
                 transitions: map<Service, Transition>, ghost before: Db, ghost effect: Service -> E.Change,
                 ghost done: set<Service>)
      returns (affected': set<Service>, transitions': map<Service, Transition>)
      requires forall s :: s in rows ==> s.target == env.target && s !in done
      requires forall s :: effect(s) == EvidenceFor(before, env, observed, s)
      requires attempts == before.attempts
      requires Progress(exposures, before.exposures, effect, done, affected, transitions)
      modifies this`exposures
      ensures Progress(exposures, before.exposures, effect, done + rows, affected', transitions')
    {
      affected', transitions' := affected, transitions;
      var pending := rows;
      ghost var visited := done;
      while pending != {}
        invariant pending <= rows && visited == done + (rows - pending)
        invariant Progress(exposures, before.exposures, effect, visited, affected', transitions')
      {
        var s :| s in pending;
        assert Get(exposures, s) == Get(before.exposures, s);
        var change := EvidenceAt(attempts, env, observed, Get(exposures, s), s.key);
        KeepsRows(attempts, env, observed, Get(exposures, s), s.key);
        assert change == effect(s) && s !in visited;
        affected', transitions' := Note(s, change, affected', transitions', before.exposures, effect, visited);
        pending := pending - {s};
        visited := visited + {s};
      }
      assert visited == done + rows;
    }

    /** First every observed port, then every stored port of the target that was not observed. */
    method ApplyExposureEvidence(env: Envelope, observed: map<PortKey, Observation>)
      returns (affected: set<Service>, transitions: map<Service, Transition>)
      modifies this`exposures
      ensures exposures == ApplyEvidence(old(Snapshot()), env, observed)
      ensures affected == Affected(old(Snapshot()), env, observed)
      ensures transitions == Transitions(old(Snapshot()), env, observed)
    {
      ghost var before := Snapshot();
      ghost var effect := s => EvidenceFor(before, env, observed, s);
      var keys := set k | k in observed.Keys :: Service(env.target, k);
      affected, transitions := Visit(keys, env, observed, {}, map[], before, effect, {});
      var rows := set s | s in exposures && s.target == env.target && s.key !in observed;
      forall s | s in before.exposures && s.target == env.target && s.key !in observed ensures s in rows {
        assert Get(exposures, s) == Get(before.exposures, s);
      }
      affected, transitions := Visit(rows, env, observed, affected, transitions, before, effect, {} + keys);
      Finished(before, exposures, env, observed, effect, {} + keys + rows, affected, transitions);
    }

    /** Evidence never makes a row disappear. */
    static lemma KeepsRows(attempts: map<Id, Attempt>, env: Envelope, observed: map<PortKey, Observation>,
                           before: Option<ExposureRecord>, key: PortKey)
      ensures before.Some? ==> EvidenceAt(attempts, env, observed, before, key).record.Some?
    {
    }

    static lemma Finished(before: Db, now: map<Service, ExposureRecord>, env: Envelope,
                          observed: map<PortKey, Observation>, effect: Service -> E.Change, done: set<Service>,
                          affected: set<Service>, transitions: map<Service, Transition>)
      requires forall s :: effect(s) == EvidenceFor(before, env, observed, s)
      requires Progress(now, before.exposures, effect, done, affected, transitions)
      requires forall s :: s in before.exposures && s.target == env.target ==> s in done
      requires forall s :: s in done ==> s.target == env.target
      requires forall k :: k in observed ==> Service(env.target, k) in done
      ensures now == ApplyEvidence(before, env, observed)
      ensures affected == Affected(before, env, observed)
      ensures transitions == Transitions(before, env, observed)
    {
      forall s ensures s !in done ==> effect(s) == E.Change(false, None, Get(before.exposures, s))
               ensures effect(s).transition.Some? ==> effect(s).applied
      {
        Untouched(before, env, observed, s);
      }
      StoreSafety.SameLookups(now, ApplyEvidence(before, env, observed));
      forall s ensures Get(transitions, s) == Get(Transitions(before, env, observed), s) {
        assert s in Affected(before, env, observed) <==> effect(s).applied;
      }
      StoreSafety.SameLookups(transitions, Transitions(before, env, observed));
    }

    static lemma Untouched(db: Db, env: Envelope, observed: map<PortKey, Observation>, s: Service)
      ensures s.target != env.target || (s.key !in observed && s !in db.exposures)
              ==> EvidenceFor(db, env, observed, s) == E.Change(false, None, Get(db.exposures, s))
      ensures EvidenceFor(db, env, observed, s).transition.Some? ==> EvidenceFor(db, env, observed, s).applied
    {
    }

    /** Exposures first, then the findings of the services they affect. */
    method AbsorbEvidence(env: Envelope, observed: map<PortKey, Observation>, mode: Export) returns (ok: bool)
      modifies this`exposures, this`findings, this`queue
      ensures var result := Absorb(old(Snapshot()), env, observed, mode.Queueable());
              && ok == result.Ok? && (ok ==> Snapshot() == result.value)
              && (!ok ==> result == Err(ReconciliationRejected))
      ensures ok ==> queue == QueueAfter(old(queue), old(findings), findings, targets, mode)
    {
      var affected, transitions := ApplyExposureEvidence(env, observed);
      var batch := Batch(affected, FromAttempt(env.attempt), env.completedAt, transitions);
      ok := ReconcileFindingKeys(batch, mode);
    }

    method IngestScan(env: Envelope, observations: seq<Observation>, validated: bool, mode: Export)
      returns (result: Result<(bool, bool, bool), StoreError>)
      modifies this
      ensures match Store.IngestScan(old(Snapshot()), env, observations, validated, mode.Queueable())
              case Ok(o) => result == Ok((o.duplicate, o.stale, o.eligible)) && Snapshot() == o.db
                            && Queued(old(State()), mode)
              case Err(e) => result == Err(e) && State() == old(State())
    {
      var saved := State();
      NothingQueued(queue, findings, targets, mode);
      var checked := CheckScan(saved.db, env, observations);
      if checked.Err? { return Err(checked.error); }
      if checked.value.Some? {
        var existing := checked.value.value;
        return Ok((true, existing.stale, existing.eligible));
      }
      var target := targets[env.target];
      var stale := env.generation != target.generation;
      var eligible := CurrentAttempt(target, env) && env.complete && validated;
      var recorded := RecordAttempt(Snapshot(), env, stale, eligible);
      attempts, targets := recorded.attempts, recorded.targets;
      NothingQueued(queue, findings, targets, mode);
      if eligible {
        assert Snapshot() == recorded;
        var ok := AbsorbEvidence(env, ByKey(observations), mode);
        if !ok {
          RollBack(saved);
          return Err(ReconciliationRejected);
        }
      }
      return Ok((false, stale, eligible));
    }

    // -------------------------------------------------------------- target events

    method CloseExposures(closing: Closing, event: TargetEvent)
      modifies this`exposures
      ensures exposures == CloseServices(old(exposures), closing, event)
    {
      ghost var before := exposures;
      var pending := closing.services;
      while pending != {}
        invariant pending <= closing.services
        invariant exposures.Keys == before.Keys
        invariant forall s | s in before ::
                    exposures[s] == if s in closing.services - pending then CloseForEvent(before[s], closing, event)
                                    else before[s]
      {
        var s :| s in pending;
        WriteRow(s, E.CloseExposure(Get(exposures, s), event.generation, None, FromTargetEvent(event.id), closing.at,
                                 closing.reason));
        pending := pending - {s};
      }
    }

    /** Enters an accepted event and closes what its target row no longer supports. */
    method Accept(event: TargetEvent, previous: Option<Target>, skipsRemoval: bool, changesBinding: bool, mode: Export)
      returns (error: Option<StoreError>)
      modifies this
      ensures var entered := Enter(old(Snapshot()), event, previous);
              match Settle(entered, event, ClosingFor(entered, event, skipsRemoval, changesBinding), mode.Queueable())
              case Ok(db) =>
                && error == None && Snapshot() == db
                && queue == QueueAfter(old(queue), old(findings), findings, targets, mode)
              case Err(e) => error == Some(e) && State() == old(State())
    {
      var saved := State();
      events := events[event.id := EventRowOf(event, true)];
      targets := targets[event.target := TargetAfter(previous, event)];
      assert Snapshot() == Enter(saved.db, event, previous);
      NothingQueued(queue, findings, targets, mode);
      var closing := ClosingFor(Snapshot(), event, skipsRemoval, changesBinding);
      if closing.None? || closing.value.services == {} { return None; }
      if event.kind.Upsert? && mode.Unconfigured? {
        RollBack(saved);
        return Some(HandoffBucketMissing);
      }
      CloseExposures(closing.value, event);
      var ok := ReconcileFindingKeys(ClosingBatch(closing.value, event), mode);
      if !ok {
        RollBack(saved);
        return Some(ReconciliationRejected);
      }
      return None;
    }

    /** Applies one inventory event; answers false for one that was seen before. */
    method ApplyTargetEvent(event: TargetEvent, mode: Export) returns (result: Result<bool, StoreError>)
      modifies this
      ensures match Store.ApplyTargetEvent(old(Snapshot()), event, mode.Queueable())
              case Ok(db) => result == Ok(event.id !in old(events)) && Snapshot() == db && Queued(old(State()), mode)
              case Err(e) => result == Err(e) && State() == old(State())
    {
      if !BindingFits(event) { return Err(InvalidEvent); }
      if event.id in events {
        NothingQueued(queue, findings, targets, mode);
        return Ok(false);
      }
      var error: Option<StoreError>;
      if event.target !in targets {
        if exists t :: t in targets && targets[t].identity == event.identity { return Err(IdentityConflict); }
        error := Accept(event, None, false, false, mode);
      } else {
        var target := targets[event.target];
        if target.identity != event.identity { return Err(IdentityConflict); }
        if !Accepts(target, event) {
          events := events[event.id := EventRowOf(event, false)];
          NothingQueued(queue, findings, targets, mode);
          return Ok(true);
        }
        error := Accept(event, Some(target), SkipsRemoval(target, event), ChangesBinding(target, event), mode);
      }
      return if error.Some? then Err(error.value) else Ok(true);
    }

    // -------------------------------------------------------------- full reconciliation

    /** Queues a snapshot of every open finding on an active target. */
    method QueueSnapshots(invocation: Id, bucket: Id)
      modifies this`queue
      ensures queue == WithSnapshots(old(queue), Snapshot(), invocation, bucket)
    {
      ghost var before := queue;
      var current := set f | f in findings && Serving(Snapshot(), f);
      var pending := current;
      while pending != {}
        invariant pending <= current
        invariant forall key :: Get(queue, key) ==
                    if key.f in pending then Get(before, key)
                    else SnapshotAfter(before, Snapshot(), invocation, bucket, key)
      {
        var f :| f in pending;
        queue := Insert(queue, Key(f, OfRun(invocation), bucket), SnapshotNotice(Snapshot(), f));
        pending := pending - {f};
      }
      StoreSafety.SameLookups(queue, WithSnapshots(before, Snapshot(), invocation, bucket));
    }

    /** Beside the new events, an invocation that had not run before queues its snapshots. */
    ghost predicate SnapshotsQueued(before: World, invocation: Id, mode: Export)
      reads this
    {
      if mode.To? && invocation !in before.db.runs then
        queue == WithSnapshots(NewQueue(before, mode), Snapshot(), invocation, mode.bucket)
      else Queued(before, mode)
    }

    /** Answers whether the invocation had already run. */
    method ReconcileAll(invocation: Id, now: Time, mode: Export) returns (result: Result<bool, StoreError>)
      modifies this
      ensures match Store.ReconcileAll(old(Snapshot()), invocation, now, mode.Queueable())
              case Ok(db) =>
                && result == Ok(invocation in old(runs)) && Snapshot() == db
                && SnapshotsQueued(old(State()), invocation, mode)
              case Err(e) => result == Err(e) && State() == old(State())
    {
      var saved := State();
      if mode.Unconfigured? { return Err(HandoffBucketMissing); }
      if invocation in runs {
        NothingQueued(queue, findings, targets, mode);
        return Ok(true);
      }
      var services := AllServices(Snapshot());
      var ok := ReconcileFindingKeys(Batch(services, FromReconciliation(invocation), now, map[]), mode);
      if !ok {
        RollBack(saved);
        return Err(ReconciliationRejected);
      }
      runs := runs[invocation := ReconciliationRun(now, |services|)];
      assert Queued(saved, mode);
      if mode.To? { QueueSnapshots(invocation, mode.bucket); }
      return Ok(false);
    }

    // -------------------------------------------------------------- the transactions of Exports

    /** What each of the three methods leaves behind is what Exports commits. */
    static lemma TransactionsCommit(before: World, act: Act)
      ensures var db := Execute(before.db, OpOf(act));
              var queue := QueueAfter(before.queue, before.db.findings, db.findings, db.targets, act.mode);
              && (db == before.db ==> Commit(before, act) == before)
              && (!act.op.ReconcileOp? || !act.mode.To? ==> Commit(before, act) == World(db, queue))
              && (act.op.ReconcileOp? && act.op.invocation !in before.db.runs && act.mode.To? && db != before.db ==>
                    Commit(before, act) == World(db, WithSnapshots(queue, db, act.op.invocation, act.mode.bucket)))
    {
      NothingQueued(before.queue, before.db.findings, before.db.targets, act.mode);
    }
  }
}
