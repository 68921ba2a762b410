/** What a reader of the exposure store may rely on, stated over whole runs. */
module StoreTheorems {
  import opened Base
  import opened Records
  import opened Store
  import opened StoreSafety
  import F = Findings

  // ---------------------------------------------------------------- reachable states

  /** Nothing of the target is open. */
  ghost predicate Quiet(db: Db, t: Id) {
    && (forall s :: s in db.exposures && s.target == t ==> !db.exposures[s].row.open)
    && (forall f :: f in db.findings && f.service.target == t ==> db.findings[f].row.status.Resolved?)
  }

  lemma QuietMeansNothingLive(db: Db, t: Id)
    ensures Quiet(db, t) <==> LiveServices(db, t) == {}
  {
    if LiveServices(db, t) == {} {
      forall s | s in db.exposures && s.target == t ensures !db.exposures[s].row.open {
        assert s !in LiveServices(db, t);
      }
      forall f | f in db.findings && f.service.target == t ensures db.findings[f].row.status.Resolved? {
        assert f.service !in LiveServices(db, t);
      }
    }
  }

  /** Every open exposure and every open finding of the target names an address of its binding. */
  ghost predicate Bound(db: Db, t: Id, binding: seq<Id>) {
    && (forall s :: s in db.exposures && s.target == t && db.exposures[s].row.open
          ==> db.exposures[s].row.address in binding)
    && (forall f :: f in db.findings && f.service.target == t && db.findings[f].row.status.Unresolved?
          ==> db.findings[f].row.address in binding)
  }

  /** In every reachable state, rule edits included: a removed or unknown target has neither an open
      exposure nor an open finding, and what is open on an active target was seen at an address the
      target holds now. */
  lemma RemovedTargetsAreQuiet(rules: map<Id, Rule>, ops: seq<Op>, t: Id)
    ensures var db := Run(EmptyDb(rules), ops);
            && (t !in db.targets || db.targets[t].status.Removed? ==> Quiet(db, t))
            && (t in db.targets ==> Bound(db, t, db.targets[t].addresses))
  {
    var db := Run(EmptyDb(rules), ops);
    EveryRunIsSafe(rules, ops);
    forall s | s in db.exposures && s.target == t && db.exposures[s].row.open
      ensures t in db.targets && db.targets[t].status.Active? && db.exposures[s].row.address in db.targets[t].addresses
    {
      assert ExposureSafe(db, s);
    }
    forall f | f in db.findings && f.service.target == t && db.findings[f].row.status.Unresolved?
      ensures f.service in db.exposures && db.exposures[f.service].row.open
      ensures db.findings[f].row.address == db.exposures[f.service].row.address
    {
      assert Grounded(db, f);
    }
  }

  /** The target is active, the service open on it, and the rule lists it. */
  predicate CalledFor(db: Db, f: Fingerprint) {
    && f.service.target in db.targets && db.targets[f.service.target].status.Active?
    && f.service in db.exposures && db.exposures[f.service].row.open
    && f.rule in db.rules && F.Lists(db.rules[f.rule], f.service.key)
  }

  /** The open findings of a reachable state with fixed rules are exactly those called for, and they show
      the exposure and the rule as they are. */
  lemma OpenFindingsAreExact(rules: map<Id, Rule>, ops: seq<Op>, f: Fingerprint)
    requires forall i :: 0 <= i < |ops| ==> !ops[i].EditRules?
    ensures var db := Run(EmptyDb(rules), ops);
            && (f in db.findings && db.findings[f].row.status.Unresolved? <==> CalledFor(db, f))
            && (CalledFor(db, f) ==>
                  var row, exposure, rule := db.findings[f].row, db.exposures[f.service].row, db.rules[f.rule];
                  && row.address == exposure.address && row.identity == exposure.identity
                  && row.severity == rule.severity && row.title == rule.name && row.description == rule.description
                  && row.lastSeenAt >= exposure.lastConfirmedAt)
  {
    EveryRunIsExact(rules, ops);
    EveryRunIsSafe(rules, ops);
    var db := Run(EmptyDb(rules), ops);
    assert Current(db, f) && FindingSafe(db, f);
  }

  /** Reconciling a service fails exactly if its target is unknown, an enabled rule lacks the lists that it
      needs for the open service, or a finding would have to be published and there is nowhere to. */
  lemma RejectsExactly(db: Db, s: Service, queueable: bool)
    ensures var live := && s.target in db.targets && db.targets[s.target].status.Active?
                        && s in db.exposures && db.exposures[s].row.open;
            Rejects(db, s, queueable) <==>
              || s.target !in db.targets
              || (live && exists r :: r in db.rules && F.Broken(db.rules[r], s.key))
              || (live && !queueable && exists r :: r in db.rules && F.Lists(db.rules[r], s.key))
              || (!queueable && exists f :: f in db.findings && f.service == s && db.findings[f].row.status.Unresolved?
                                            && !CalledFor(db, f))
  {
    forall r | r in db.rules
      ensures Stops(db.rules[r], s.key, queueable) <==>
                F.Broken(db.rules[r], s.key) || (!queueable && F.Lists(db.rules[r], s.key))
    {
      F.MatchesExactly(db.rules[r], s.key);
    }
    if s.target in db.targets {
      forall f | f in db.findings && f.service == s
        ensures Lapsed(db, s, f) <==> db.findings[f].row.status.Unresolved? && !CalledFor(db, f)
      {
      }
    }
  }

  // ---------------------------------------------------------------- which event a target row shows

  /** The row is that of the event, apart from what scans note in it. */
  predicate Shows(t: Target, event: TargetEvent) {
    && t.identity == event.identity && t.location == event.location && t.generation == event.generation
    && (t.status.Removed? <==> event.kind.Removal?) && t.addresses == event.addresses && t.context == event.context
    && t.observedAt == event.observedAt
    && t.removedAt == (if event.kind.Upsert? then None
                       else if event.removedAt.Some? then event.removedAt else Some(event.observedAt))
  }

  /** At least as recent, first by generation, then by observation time. */
  predicate AtLeast(event: TargetEvent, generation: int, observedAt: Time) {
    event.generation > generation || (event.generation == generation && event.observedAt >= observedAt)
  }

  /** Two rows that differ at most in what scans note. */
  predicate SameTarget(a: Target, b: Target) {
    b == a.(lastAttemptAt := b.lastAttemptAt, lastConfirmedAt := b.lastConfirmedAt)
  }

  /** An event seen before changes nothing. A new one takes effect exactly if its target is new or the event
      is at least as recent as the row; otherwise it is only recorded. */
  lemma EventsTakeEffectByRecency(db: Db, event: TargetEvent, queueable: bool)
    requires ApplyTargetEvent(db, event, queueable).Ok?
    ensures var after := ApplyTargetEvent(db, event, queueable).value;
            && (event.id in db.events ==> after == db)
            && (event.id !in db.events ==>
                  var recent := event.target !in db.targets
                               || AtLeast(event, db.targets[event.target].generation,
                                          db.targets[event.target].observedAt);
                  && event.id in after.events && (after.events[event.id].accepted <==> recent)
                  && (after.events[event.id].stale <==> !recent)
                  && (recent ==> event.target in after.targets && Shows(after.targets[event.target], event))
                  && (!recent ==> after == db.(events := after.events)))
            && (forall t :: t != event.target ==> Get(after.targets, t) == Get(db.targets, t))
  {
    if event.id !in db.events && Accepted(db, event) {
      AcceptedEventSettles(db, event, queueable);
      SettlingKeepsTargets(Enter(db, event, Get(db.targets, event.target)), event, ClosingOf(db, event), queueable);
    }
  }

  lemma SettlingKeepsTargets(db: Db, event: TargetEvent, closing: Option<Closing>, queueable: bool)
    requires Settle(db, event, closing, queueable).Ok?
    ensures var after := Settle(db, event, closing, queueable).value;
            after.targets == db.targets && after.events == db.events
  {
  }

  /** Scans, reconciliations, rule edits and events that fail or were seen before leave every target row, but
      for what scans note in it. */
  lemma OthersLeaveTargets(db: Db, op: Op, t: Id)
    requires !TakesPart(db, op, t)
    ensures t in Execute(db, op).targets <==> t in db.targets
    ensures t in db.targets ==> SameTarget(db.targets[t], Execute(db, op).targets[t])
  {
    match op
    case TargetEventOp(event, q) =>
      if ApplyTargetEvent(db, event, q).Ok? {
        EventsTakeEffectByRecency(db, event, q);
        assert Get(Execute(db, op).targets, t) == Get(db.targets, t);
      }
    case ScanOp(env, obs, v, q) => if IngestScan(db, env, obs, v, q).Ok? { ScansLeaveTargets(db, env, obs, v, q, t); }
    case ReconcileOp(_, _, _) =>
    case EditRules(_) =>
  }

  lemma ScansLeaveTargets(db: Db, env: Envelope, observations: seq<Observation>, validated: bool, queueable: bool,
                          t: Id)
    requires IngestScan(db, env, observations, validated, queueable).Ok?
    ensures var after := IngestScan(db, env, observations, validated, queueable).value.db;
            (t in after.targets <==> t in db.targets)
            && (t in db.targets ==> SameTarget(db.targets[t], after.targets[t]))
  {
  }

  /** The operation is a new event of the target, and succeeds. */
  predicate TakesPart(db: Db, op: Op, t: Id) {
    && op.TargetEventOp? && op.event.target == t && op.event.id !in db.events
    && ApplyTargetEvent(db, op.event, op.queueable).Ok?
  }

  ghost predicate TakesPartAt(rules: map<Id, Rule>, ops: seq<Op>, i: int, t: Id) {
    0 <= i < |ops| && TakesPart(Run(EmptyDb(rules), ops[..i]), ops[i], t)
  }

  /** Of the first n operations, the i-th brought the most recent event, and the last of those that are
      equally recent; `took` says which of them took part. */
  ghost predicate Latest(took: int -> bool, ops: seq<Op>, n: nat, i: int) {
    && 0 <= i < n <= |ops| && took(i) && ops[i].TargetEventOp?
    && forall j :: 0 <= j < n && took(j) ==>
         && ops[j].TargetEventOp?
         && var e, d := ops[i].event, ops[j].event;
            if j <= i then AtLeast(e, d.generation, d.observedAt) else !AtLeast(d, e.generation, e.observedAt)
  }

  /** The row shows the latest event; without a row there was none. */
  ghost predicate RowIsLatest(took: int -> bool, ops: seq<Op>, n: nat, i: int, row: Option<Target>) {
    n <= |ops|
    && if row.Some? then Latest(took, ops, n, i) && Shows(row.value, ops[i].event)
       else forall j :: 0 <= j < n ==> !took(j)
  }

  lemma NextRow(took: int -> bool, ops: seq<Op>, n: nat, i: int, before: Option<Target>, after: Option<Target>)
    returns (next: int)
    requires n < |ops| && RowIsLatest(took, ops, n, i, before)
    requires took(n) ==>
               && ops[n].TargetEventOp? && after.Some?
               && var e := ops[n].event;
                  if before.None? || AtLeast(e, before.value.generation, before.value.observedAt) then
                    Shows(after.value, e)
                  else after == before
    requires !took(n) ==> before.Some? == after.Some? && (before.Some? ==> SameTarget(before.value, after.value))
    ensures RowIsLatest(took, ops, n + 1, next, after)
  {
    next := i;
    if took(n) && (before.None? || AtLeast(ops[n].event, before.value.generation, before.value.observedAt)) {
      next := n;
    }
  }

  lemma StepRow(db: Db, op: Op, t: Id)
    ensures var before, after := Get(db.targets, t), Get(Execute(db, op).targets, t);
            if TakesPart(db, op, t) then
              after.Some?
              && if before.None? || AtLeast(op.event, before.value.generation, before.value.observedAt) then
                   Shows(after.value, op.event)
                 else after == before
            else before.Some? == after.Some? && (before.Some? ==> SameTarget(before.value, after.value))
  {
    if TakesPart(db, op, t) {
      EventsTakeEffectByRecency(db, op.event, op.queueable);
    } else {
      OthersLeaveTargets(db, op, t);
    }
  }

  lemma {:induction false} RowAfter(rules: map<Id, Rule>, ops: seq<Op>, t: Id, n: nat) returns (i: int)
    requires n <= |ops|
    ensures RowIsLatest(j => TakesPartAt(rules, ops, j, t), ops, n, i, Get(Run(EmptyDb(rules), ops[..n]).targets, t))
  {
    if n == 0 { return 0; }
    i := RowAfter(rules, ops, t, n - 1);
    assert ops[..n][..n - 1] == ops[..n - 1];
    StepRow(Run(EmptyDb(rules), ops[..n - 1]), ops[n - 1], t);
    i := NextRow(j => TakesPartAt(rules, ops, j, t), ops, n - 1, i,
                 Get(Run(EmptyDb(rules), ops[..n - 1]).targets, t), Get(Run(EmptyDb(rules), ops[..n]).targets, t));
  }

  /** After every run, in whatever order events arrived, a target row is that of the event with the greatest
      generation and observation time, the last to arrive among equals; a target that no event named has no
      row. */
  lemma TargetRowIsLatest(rules: map<Id, Rule>, ops: seq<Op>, t: Id) returns (i: int)
    ensures RowIsLatest(j => TakesPartAt(rules, ops, j, t), ops, |ops|, i, Get(Run(EmptyDb(rules), ops).targets, t))
  {
    i := RowAfter(rules, ops, t, |ops|);
    assert ops[..|ops|] == ops;
  }

  /** Hence a full reconciliation after such a run changes no finding and appends no event. */
  lemma ReconciliationFindsNothing(rules: map<Id, Rule>, ops: seq<Op>, invocation: Id, now: Time, queueable: bool)
    requires forall i :: 0 <= i < |ops| ==> !ops[i].EditRules?
    ensures var db := Run(EmptyDb(rules), ops);
            Execute(db, ReconcileOp(invocation, now, queueable)).findings == db.findings
  {
    EveryRunIsExact(rules, ops);
    var db := Run(EmptyDb(rules), ops);
    if ReconcileAll(db, invocation, now, queueable).Ok? {
      ReconcileAllIsIdentity(db, invocation, now, queueable);
    }
  }

  /** After rules were edited in any way, one successful fresh reconciliation restores exactness. */
  lemma ReconciliationRepairs(rules: map<Id, Rule>, ops: seq<Op>, invocation: Id, now: Time, queueable: bool)
    requires var db := Run(EmptyDb(rules), ops);
             invocation !in db.runs && ReconcileAll(db, invocation, now, queueable).Ok?
    ensures Exact(Execute(Run(EmptyDb(rules), ops), ReconcileOp(invocation, now, queueable)))
  {
    EveryRunIsSafe(rules, ops);
    ReconcileAllKeeps(Run(EmptyDb(rules), ops), invocation, now, queueable);
  }

  // ---------------------------------------------------------------- nothing is lost or rewound

  predicate NotRewound(before: Target, after: Target) {
    && before.identity == after.identity
    && (before.generation < after.generation
        || (before.generation == after.generation && before.observedAt <= after.observedAt))
  }

  /** Logs only grow, recorded events and attempts stay as they are, and no target goes back in
      (generation, observation time). */
  ghost predicate Extends(before: Db, after: Db) {
    && (forall t :: t in before.targets ==> t in after.targets && NotRewound(before.targets[t], after.targets[t]))
    && (forall e :: e in before.events ==> e in after.events && after.events[e] == before.events[e])
    && (forall a :: a in before.attempts ==> a in after.attempts && after.attempts[a] == before.attempts[a])
    && (forall s :: s in before.exposures ==> s in after.exposures && before.exposures[s].log <= after.exposures[s].log)
    && (forall f :: f in before.findings ==> f in after.findings && before.findings[f].log <= after.findings[f].log)
    && (forall r :: r in before.runs ==> r in after.runs && after.runs[r] == before.runs[r])
  }

  lemma ReconcileExtends(db: Db, batch: Batch, queueable: bool)
    requires Reconcile(db, batch, queueable).Ok?
    ensures Extends(db, Reconcile(db, batch, queueable).value)
  {
    var db' := Reconcile(db, batch, queueable).value;
    forall f | f in db.findings ensures f in db'.findings && db.findings[f].log <= db'.findings[f].log {
      assert Get(db'.findings, f) == FindingAfter(db, batch, f);
    }
  }

  lemma AbsorbExtends(db: Db, env: Envelope, observed: map<PortKey, Observation>, queueable: bool)
    requires Absorb(db, env, observed, queueable).Ok?
    ensures Extends(db, Absorb(db, env, observed, queueable).value)
  {
    var mid := db.(exposures := ApplyEvidence(db, env, observed));
    forall s | s in db.exposures ensures s in mid.exposures && db.exposures[s].log <= mid.exposures[s].log {
      assert Get(mid.exposures, s) == EvidenceFor(db, env, observed, s).record;
    }
    ReconcileExtends(mid, Batch(Affected(db, env, observed), FromAttempt(env.attempt), env.completedAt,
                                Transitions(db, env, observed)), queueable);
  }

  lemma IngestExtends(db: Db, env: Envelope, observations: seq<Observation>, validated: bool, queueable: bool)
    requires IngestScan(db, env, observations, validated, queueable).Ok?
    ensures Extends(db, IngestScan(db, env, observations, validated, queueable).value.db)
  {
    var outcome := IngestScan(db, env, observations, validated, queueable).value;
    if !outcome.duplicate {
      var mid := RecordAttempt(db, env, outcome.stale, outcome.eligible);
      assert Extends(db, mid);
      if outcome.eligible {
        AbsorbExtends(mid, env, ByKey(observations), queueable);
        ExtendsTransitive(db, mid, outcome.db);
      }
    }
  }

  lemma ExtendsTransitive(a: Db, b: Db, c: Db)
    requires Extends(a, b) && Extends(b, c)
    ensures Extends(a, c)
  {
  }

  lemma CloseExtends(db: Db, closing: Closing, event: TargetEvent, queueable: bool)
    requires CloseAndReconcile(db, closing, event, queueable).Ok?
    ensures Extends(db, CloseAndReconcile(db, closing, event, queueable).value)
  {
    var mid := db.(exposures := CloseServices(db.exposures, closing, event));
    assert Extends(db, mid);
    ReconcileExtends(mid, ClosingBatch(closing, event), queueable);
    ExtendsTransitive(db, mid, CloseAndReconcile(db, closing, event, queueable).value);
  }

  lemma SettleExtends(db: Db, event: TargetEvent, closing: Option<Closing>, queueable: bool)
    requires Settle(db, event, closing, queueable).Ok?
    ensures Extends(db, Settle(db, event, closing, queueable).value)
  {
    if closing.Some? && closing.value.services != {} {
      CloseExtends(db, closing.value, event, queueable);
    }
  }

  lemma TargetEventExtends(db: Db, event: TargetEvent, queueable: bool)
    requires ApplyTargetEvent(db, event, queueable).Ok?
    ensures Extends(db, ApplyTargetEvent(db, event, queueable).value)
  {
    if Accepted(db, event) {
      AcceptedEventSettles(db, event, queueable);
      var mid := Enter(db, event, Get(db.targets, event.target));
      EnterExtends(db, event, queueable);
      SettleExtends(mid, event, ClosingOf(db, event), queueable);
      ExtendsTransitive(db, mid, ApplyTargetEvent(db, event, queueable).value);
    }
  }

  lemma EnterExtends(db: Db, event: TargetEvent, queueable: bool)
    requires Accepted(db, event) && ApplyTargetEvent(db, event, queueable).Ok?
    ensures Extends(db, Enter(db, event, Get(db.targets, event.target)))
  {
  }

  lemma StepExtends(db: Db, op: Op)
    ensures Extends(db, Execute(db, op))
  {
    match op
    case TargetEventOp(event, q) => if ApplyTargetEvent(db, event, q).Ok? { TargetEventExtends(db, event, q); }
    case ScanOp(env, obs, v, q) => if IngestScan(db, env, obs, v, q).Ok? { IngestExtends(db, env, obs, v, q); }
    case ReconcileOp(i, now, q) =>
      if ReconcileAll(db, i, now, q).Ok? && i !in db.runs {
        ReconcileExtends(db, Batch(AllServices(db), FromReconciliation(i), now, map[]), q);
      }
    case EditRules(_) =>
  }

  /** Over any stretch of any run nothing recorded is lost and no target is rewound. */
  lemma {:induction false} RunExtends(db: Db, ops: seq<Op>)
    ensures Extends(db, Run(db, ops))
    decreases |ops|
  {
    if ops != [] {
      var mid := Run(db, ops[..|ops| - 1]);
      RunExtends(db, ops[..|ops| - 1]);
      StepExtends(mid, ops[|ops| - 1]);
      ExtendsTransitive(db, mid, Run(db, ops));
    }
  }

  // ---------------------------------------------------------------- a removal that arrives late or never

  /** With somewhere to publish to, closing services of a known target never fails. */
  lemma ClosingSucceeds(db: Db, closing: Closing, event: TargetEvent)
    requires event.target in db.targets && forall s :: s in closing.services ==> s.target == event.target
    ensures CloseAndReconcile(db, closing, event, true).Ok?
  {
  }

  /** A removal, or a reactivation that skipped one, always succeeds and leaves nothing of the target open. */
  lemma ClearsTarget(db: Db, event: TargetEvent)
    requires Safe(db) && BindingFits(event) && event.id !in db.events
    requires event.target in db.targets
    requires AtLeast(event, db.targets[event.target].generation, db.targets[event.target].observedAt)
    requires event.kind.Removal? || SkipsRemoval(db.targets[event.target], event)
    requires db.targets[event.target].identity == event.identity
    ensures var after := Execute(db, TargetEventOp(event, true));
            && Quiet(after, event.target)
            && after.targets == db.targets[event.target := TargetAfter(Some(db.targets[event.target]), event)]
            && after.events == db.events[event.id := EventRowOf(event, true)]
  {
    var mid := Enter(db, event, Some(db.targets[event.target]));
    var closing := ClosingOf(db, event).value;
    EnterDisplaces(db, event);
    ClosingSucceeds(mid, closing, event);
    assert ApplyTargetEvent(db, event, true) == Settle(mid, event, Some(closing), true);
    SettlesQuietly(mid, closing, event);
  }

  lemma SettlesQuietly(db: Db, closing: Closing, event: TargetEvent)
    requires Displaced(db, closing.services, event) && closing.services == LiveServices(db, event.target)
    requires CloseAndReconcile(db, closing, event, true).Ok?
    ensures var after := Settle(db, event, Some(closing), true).value;
            Quiet(after, event.target) && after.targets == db.targets && after.events == db.events
  {
    if closing.services == {} {
      QuietMeansNothingLive(db, event.target);
    } else {
      ClosesEverything(db, closing, event);
    }
  }

  lemma ClosesEverything(db: Db, closing: Closing, event: TargetEvent)
    requires Displaced(db, closing.services, event) && closing.services == LiveServices(db, event.target)
    requires CloseAndReconcile(db, closing, event, true).Ok?
    ensures Quiet(CloseAndReconcile(db, closing, event, true).value, event.target)
  {
    var after := CloseAndReconcile(db, closing, event, true).value;
    CloseAndReconcileKeeps(db, closing, event, true);
    forall s | s in after.exposures && s.target == event.target ensures !after.exposures[s].row.open {
      assert s in db.exposures && db.exposures[s].row.open ==> s in LiveServices(db, event.target);
    }
    forall f | f in after.findings && f.service.target == event.target ensures after.findings[f].row.status.Resolved? {
      assert Grounded(after, f);
    }
  }

  /** Announcing a target again on which nothing is open only replaces its row. */
  lemma ReappearsQuietly(db: Db, arrival: TargetEvent)
    requires BindingFits(arrival) && arrival.kind.Upsert? && arrival.id !in db.events
    requires arrival.target in db.targets && db.targets[arrival.target].identity == arrival.identity
    requires AtLeast(arrival, db.targets[arrival.target].generation, db.targets[arrival.target].observedAt)
    requires Quiet(db, arrival.target)
    ensures var after := Enter(db, arrival, Some(db.targets[arrival.target]));
            Execute(db, TargetEventOp(arrival, true)) == after && Quiet(after, arrival.target)
  {
    var mid := Enter(db, arrival, Some(db.targets[arrival.target]));
    QuietMeansNothingLive(mid, arrival.target);
    assert MisboundServices(mid, arrival.target, arrival.addresses) <= LiveServices(mid, arrival.target);
  }

  /** The removal arrives first. */
  lemma RemovalThenArrival(db: Db, removal: TargetEvent, arrival: TargetEvent, removed: Db)
    requires BindingFits(arrival) && arrival.kind.Upsert? && arrival.id !in removed.events
    requires removal.target == arrival.target && removal.target in db.targets
    requires removal.identity == arrival.identity && removal.generation < arrival.generation
    requires removed.targets == db.targets[removal.target := TargetAfter(Some(db.targets[removal.target]), removal)]
    requires Quiet(removed, removal.target)
    ensures var after := Execute(removed, TargetEventOp(arrival, true));
            && after.targets == db.targets[arrival.target := TargetAfter(Some(db.targets[arrival.target]), arrival)]
            && Quiet(after, arrival.target)
  {
    ReappearsQuietly(removed, arrival);
  }

  /** The removal arrives second, and is stale. */
  lemma ArrivalThenRemoval(db: Db, removal: TargetEvent, arrival: TargetEvent, arrived: Db)
    requires BindingFits(removal) && removal.id !in arrived.events
    requires removal.target == arrival.target && removal.target in db.targets
    requires removal.identity == arrival.identity && removal.generation < arrival.generation
    requires arrived.targets == db.targets[removal.target := TargetAfter(Some(db.targets[removal.target]), arrival)]
    requires Quiet(arrived, removal.target)
    ensures var after := Execute(arrived, TargetEventOp(removal, true));
            && after.targets == db.targets[arrival.target := TargetAfter(Some(db.targets[arrival.target]), arrival)]
            && Quiet(after, arrival.target)
  {
    StaleEventOnlyRecorded(arrived, removal);
  }

  /** The target is active and its removal and a later announcement are both still to come. */
  ghost predicate RemovalPending(db: Db, removal: TargetEvent, arrival: TargetEvent) {
    && Safe(db) && BindingFits(removal) && BindingFits(arrival)
    && removal.kind.Removal? && arrival.kind.Upsert? && arrival.newTarget
    && removal.id != arrival.id && removal.id !in db.events && arrival.id !in db.events
    && removal.target == arrival.target && removal.target in db.targets
    && db.targets[removal.target].status.Active?
    && removal.identity == arrival.identity == db.targets[removal.target].identity
    && db.targets[removal.target].generation < removal.generation < arrival.generation
  }

  /** A removal may be missed and arrive after the target was announced again under a later generation:
      in either order both events succeed, the target row ends as the announcement sets it, and nothing
      of the target is open. */
  lemma LateRemovalCommutes(db: Db, removal: TargetEvent, arrival: TargetEvent, removalFirst: bool)
    requires RemovalPending(db, removal, arrival)
    ensures var first, second := if removalFirst then removal else arrival, if removalFirst then arrival else removal;
            var after := Execute(Execute(db, TargetEventOp(first, true)), TargetEventOp(second, true));
            && after.targets == db.targets[arrival.target := TargetAfter(Some(db.targets[arrival.target]), arrival)]
            && Quiet(after, arrival.target)
  {
    if removalFirst {
      ClearsTarget(db, removal);
      RemovalThenArrival(db, removal, arrival, Execute(db, TargetEventOp(removal, true)));
    } else {
      ClearsTarget(db, arrival);
      ArrivalThenRemoval(db, removal, arrival, Execute(db, TargetEventOp(arrival, true)));
    }
  }

  lemma StaleEventOnlyRecorded(db: Db, event: TargetEvent)
    requires BindingFits(event) && event.id !in db.events
    requires event.target in db.targets && db.targets[event.target].identity == event.identity
    requires !AtLeast(event, db.targets[event.target].generation, db.targets[event.target].observedAt)
    ensures Execute(db, TargetEventOp(event, true)) == db.(events := db.events[event.id := EventRowOf(event, false)])
  {
  }
}
