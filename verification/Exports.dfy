/** The handoffs that the store's transactions queue for publishing: one document for each finding event,
    written in the transaction that writes the event, and one for each open finding of a completed full
    reconciliation. A consumer learns of the findings through these alone. */
module Exports {
  import opened Base
  import opened Records
  import opened Store
  import F = Findings
  import opened StoreSafety
  import StoreTheorems
  import Reasons

  /** Whether findings are exported, and where to. */
  datatype Export = Off | Unconfigured | To(bucket: Id) {
    predicate Queueable() { !Unconfigured? }
  }

  /** An event of a finding is known by its version. */
  datatype Subject = OfEvent(version: int) | OfRun(invocation: Id)

  /** The handoff key hashes exactly these parts. */
  datatype Key = Key(f: Fingerprint, subject: Subject, bucket: Id)

  datatype Notice = Notice(provider: Id, generation: int, finding: Finding, event: Option<FindingEvent>)

  type Queue = map<Key, Notice>

  function EventNotice(target: Target, rec: FindingRecord): Notice
    requires rec.log != []
  {
    Notice(target.identity.provider, target.generation, rec.row, Some(rec.log[|rec.log| - 1]))
  }

  /** A key that is taken keeps its row. */
  function Insert(queue: Queue, key: Key, notice: Notice): Queue {
    if key in queue then queue else queue[key := notice]
  }

  // ---------------------------------------------------------------- what a transaction queues

  function Length(rec: Option<FindingRecord>): nat { if rec.Some? then |rec.value.log| else 0 }

  /** What a key holds after findings changed from `before` to `after`. */
  function HandoffAfter(queue: Queue, before: map<Fingerprint, FindingRecord>, after: map<Fingerprint, FindingRecord>,
                        targets: map<Id, Target>, mode: Export, key: Key): Option<Notice>
  {
    if key in queue then Some(queue[key])
    else if && mode == To(key.bucket) && key.f.service.target in targets
            && Length(Get(after, key.f)) > Length(Get(before, key.f))
            && key.subject == OfEvent(after[key.f].row.version) then
      Some(EventNotice(targets[key.f.service.target], after[key.f]))
    else None
  }

  function QueueAfter(queue: Queue, before: map<Fingerprint, FindingRecord>, after: map<Fingerprint, FindingRecord>,
                      targets: map<Id, Target>, mode: Export): (q: Queue)
    ensures forall key :: Get(q, key) == HandoffAfter(queue, before, after, targets, mode, key)
  {
    var candidates := if mode.To? then set f | f in after :: Key(f, OfEvent(after[f].row.version), mode.bucket) else {};
    map key | key in queue.Keys + candidates && HandoffAfter(queue, before, after, targets, mode, key).Some?
      :: HandoffAfter(queue, before, after, targets, mode, key).value
  }

  /** Open findings on active targets. */
  predicate Serving(db: Db, f: Fingerprint) {
    && f in db.findings && db.findings[f].row.status.Unresolved?
    && f.service.target in db.targets && db.targets[f.service.target].status.Active?
  }

  function SnapshotNotice(db: Db, f: Fingerprint): Notice
    requires Serving(db, f)
  {
    var target := db.targets[f.service.target];
    Notice(target.identity.provider, target.generation, db.findings[f].row, None)
  }

  function SnapshotAfter(queue: Queue, db: Db, invocation: Id, bucket: Id, key: Key): Option<Notice> {
    if key in queue then Some(queue[key])
    else if key == Key(key.f, OfRun(invocation), bucket) && Serving(db, key.f) then Some(SnapshotNotice(db, key.f))
    else None
  }

  function WithSnapshots(queue: Queue, db: Db, invocation: Id, bucket: Id): (q: Queue)
    ensures forall key :: Get(q, key) == SnapshotAfter(queue, db, invocation, bucket, key)
  {
    var candidates := set f | f in db.findings :: Key(f, OfRun(invocation), bucket);
    map key | key in queue.Keys + candidates && SnapshotAfter(queue, db, invocation, bucket, key).Some?
      :: SnapshotAfter(queue, db, invocation, bucket, key).value
  }

  // ---------------------------------------------------------------- runs

  datatype World = World(db: Db, queue: Queue)

  datatype Act = Act(op: Op, mode: Export)

  function OpOf(act: Act): Op {
    match act.op
    case TargetEventOp(event, _) => TargetEventOp(event, act.mode.Queueable())
    case ScanOp(env, observations, validated, _) => ScanOp(env, observations, validated, act.mode.Queueable())
    case ReconcileOp(invocation, now, _) => ReconcileOp(invocation, now, act.mode.Queueable())
    case EditRules(rules) => EditRules(rules)
  }

  /** The transaction completes a full reconciliation. */
  predicate Completes(before: Db, after: Db, act: Act) {
    act.op.ReconcileOp? && act.op.invocation in after.runs && act.op.invocation !in before.runs
  }

  function Commit(w: World, act: Act): World {
    var db := Execute(w.db, OpOf(act));
    var queue := QueueAfter(w.queue, w.db.findings, db.findings, db.targets, act.mode);
    World(db, if Completes(w.db, db, act) && act.mode.To? then
                WithSnapshots(queue, db, act.op.invocation, act.mode.bucket)
              else queue)
  }

  function RunAll(rules: map<Id, Rule>, acts: seq<Act>): World {
    if acts == [] then World(EmptyDb(rules), map[])
    else Commit(RunAll(rules, acts[..|acts| - 1]), acts[|acts| - 1])
  }

  function Ops(acts: seq<Act>): (ops: seq<Op>)
    ensures |ops| == |acts| && forall i :: 0 <= i < |acts| ==> ops[i] == OpOf(acts[i])
  {
    seq(|acts|, i requires 0 <= i < |acts| => OpOf(acts[i]))
  }

  lemma {:induction false} SameStore(rules: map<Id, Rule>, acts: seq<Act>)
    ensures RunAll(rules, acts).db == Run(EmptyDb(rules), Ops(acts))
  {
    if acts != [] {
      SameStore(rules, acts[..|acts| - 1]);
      assert Ops(acts)[..|acts| - 1] == Ops(acts[..|acts| - 1]);
    }
  }

  // ---------------------------------------------------------------- one event at a time

  /** At most one event more; without one, at most the time of the last sighting moved. */
  predicate OneMore(before: Option<FindingRecord>, after: Option<FindingRecord>) {
    var had := if before.Some? then before.value.log else [];
    && (before.Some? ==> after.Some?)
    && (after.Some? ==>
          && had <= after.value.log && |after.value.log| <= |had| + 1
          && (|after.value.log| == |had| ==>
                before.Some? && after.value.row == before.value.row.(lastSeenAt := after.value.row.lastSeenAt)))
  }

  lemma ReconcileAddsOne(db: Db, batch: Batch, queueable: bool, f: Fingerprint)
    requires Reconcile(db, batch, queueable).Ok?
    ensures OneMore(Get(db.findings, f), Get(Reconcile(db, batch, queueable).value.findings, f))
  {
    assert Get(Reconcile(db, batch, queueable).value.findings, f) == FindingAfter(db, batch, f);
  }

  lemma AbsorbAddsOne(db: Db, env: Envelope, observed: map<PortKey, Observation>, queueable: bool, f: Fingerprint)
    requires Absorb(db, env, observed, queueable).Ok?
    ensures OneMore(Get(db.findings, f), Get(Absorb(db, env, observed, queueable).value.findings, f))
  {
    var batch := Batch(Affected(db, env, observed), FromAttempt(env.attempt), env.completedAt,
                       Transitions(db, env, observed));
    ReconcileAddsOne(db.(exposures := ApplyEvidence(db, env, observed)), batch, queueable, f);
  }

  lemma IngestAddsOne(db: Db, env: Envelope, observations: seq<Observation>, validated: bool, queueable: bool,
                      f: Fingerprint)
    requires IngestScan(db, env, observations, validated, queueable).Ok?
    ensures OneMore(Get(db.findings, f),
                    Get(IngestScan(db, env, observations, validated, queueable).value.db.findings, f))
  {
    var o := IngestScan(db, env, observations, validated, queueable).value;
    if !o.duplicate && o.eligible {
      AbsorbAddsOne(RecordAttempt(db, env, o.stale, true), env, ByKey(observations), queueable, f);
    }
  }

  lemma SettleAddsOne(db: Db, event: TargetEvent, closing: Option<Closing>, queueable: bool, f: Fingerprint)
    requires Settle(db, event, closing, queueable).Ok?
    ensures OneMore(Get(db.findings, f), Get(Settle(db, event, closing, queueable).value.findings, f))
  {
    if closing.Some? && closing.value.services != {} {
      ReconcileAddsOne(db.(exposures := CloseServices(db.exposures, closing.value, event)),
                       ClosingBatch(closing.value, event), queueable, f);
    }
  }

  lemma TargetEventAddsOne(db: Db, event: TargetEvent, queueable: bool, f: Fingerprint)
    requires ApplyTargetEvent(db, event, queueable).Ok?
    ensures OneMore(Get(db.findings, f), Get(ApplyTargetEvent(db, event, queueable).value.findings, f))
  {
    if event.id !in db.events {
      var previous := Get(db.targets, event.target);
      if previous.None? {
        var entered := Enter(db, event, None);
        SettleAddsOne(entered, event, ClosingFor(entered, event, false, false), queueable, f);
      } else if Accepts(previous.value, event) {
        var entered := Enter(db, event, previous);
        SettleAddsOne(entered, event, ClosingFor(entered, event, SkipsRemoval(previous.value, event),
                                                 ChangesBinding(previous.value, event)), queueable, f);
      }
    }
  }

  lemma StepAddsOne(db: Db, op: Op, f: Fingerprint)
    ensures OneMore(Get(db.findings, f), Get(Execute(db, op).findings, f))
  {
    match op
    case TargetEventOp(event, q) => if ApplyTargetEvent(db, event, q).Ok? { TargetEventAddsOne(db, event, q, f); }
    case ScanOp(env, obs, v, q) => if IngestScan(db, env, obs, v, q).Ok? { IngestAddsOne(db, env, obs, v, q, f); }
    case ReconcileOp(i, now, q) =>
      if ReconcileAll(db, i, now, q).Ok? && i !in db.runs {
        ReconcileAddsOne(db, Batch(AllServices(db), FromReconciliation(i), now, map[]), q, f);
      }
    case EditRules(rules) =>
  }

  // ---------------------------------------------------------------- every event is queued, once

  /** The document of one event of a finding: that very event, with the finding as it left it. */
  predicate Tells(queue: Queue, key: Key, event: FindingEvent, version: int) {
    && key in queue && queue[key].event == Some(event) && queue[key].finding.version == version
    && queue[key].generation == event.generation
    && F.ContractDocument(queue[key].finding, event)
  }

  /** The handoffs of a finding are those of its events, and the last of them shows it as it is, except
      that the service may have been seen again since. */
  ghost predicate Told(w: World, bucket: Id, f: Fingerprint) {
    var n := Length(Get(w.db.findings, f));
    && (forall i :: 0 <= i < n ==> Tells(w.queue, Key(f, OfEvent(i + 1), bucket), w.db.findings[f].log[i], i + 1))
    && (forall v, b :: NoOther(w.queue, f, v, b, bucket, n))
    && (n > 0 ==> Shows(w.queue, Key(f, OfEvent(n), bucket), w.db.findings[f].row))
  }

  predicate NoOther(queue: Queue, f: Fingerprint, version: int, to: Id, bucket: Id, last: nat) {
    Key(f, OfEvent(version), to) in queue ==> to == bucket && 1 <= version <= last
  }

  predicate Shows(queue: Queue, key: Key, row: Finding) {
    key in queue && row == queue[key].finding.(lastSeenAt := row.lastSeenAt)
  }

  /** Snapshots belong to reconciliations that completed. */
  predicate SnapshotsDated(w: World) {
    forall key :: key in w.queue && key.subject.OfRun? ==> key.subject.invocation in w.db.runs
  }

  /** The handoff of one event is there as before, or was added because just this event was written. */
  predicate Adds(w: World, w': World, mode: Export, f: Fingerprint, v: int, bucket: Id) {
    var key := Key(f, OfEvent(v), bucket);
    var n, m := Length(Get(w.db.findings, f)), Length(Get(w'.db.findings, f));
    && n <= m <= n + 1
    && (forall i :: 0 <= i < n ==> w'.db.findings[f].log[i] == w.db.findings[f].log[i])
    && (key in w.queue ==> key in w'.queue && w'.queue[key] == w.queue[key])
    && (key !in w.queue ==> (key in w'.queue <==> m == v == n + 1 && mode == To(bucket)))
    && (key !in w.queue && key in w'.queue ==> Tells(w'.queue, key, w'.db.findings[f].log[v - 1], v))
  }

  /** A new event carries the generation that its target now has. */
  predicate Dated(before: Db, after: Db, f: Fingerprint) {
    var n := Length(Get(before.findings, f));
    Length(Get(after.findings, f)) == n + 1 ==>
      && f.service.target in after.targets
      && after.findings[f].log[n].generation == after.targets[f.service.target].generation
  }

  lemma StepDates(db: Db, op: Op, f: Fingerprint)
    requires Safe(db)
    ensures Dated(db, Execute(db, op), f)
  {
    Reasons.StepFindingsTell(db, op, f);
    ToldIsDated(db, Execute(db, op), op, f);
  }

  lemma ToldIsDated(before: Db, after: Db, op: Op, f: Fingerprint)
    requires if op.EditRules? then after == before.(rules := op.rules)
             else Reasons.StepTold(before, after, Reasons.SourceOf(op), Reasons.TimeOf(op), f)
    ensures Dated(before, after, f)
  {
  }

  lemma QueueAdds(w: World, after: Db, mode: Export, f: Fingerprint, v: int, bucket: Id)
    requires OneMore(Get(w.db.findings, f), Get(after.findings, f)) && FindingSafe(w.db, f) && FindingSafe(after, f)
    requires Dated(w.db, after, f)
    ensures Adds(w, World(after, QueueAfter(w.queue, w.db.findings, after.findings, after.targets, mode)), mode, f, v,
                 bucket)
  {
    var key := Key(f, OfEvent(v), bucket);
    assert Get(QueueAfter(w.queue, w.db.findings, after.findings, after.targets, mode), key)
        == HandoffAfter(w.queue, w.db.findings, after.findings, after.targets, mode, key);
  }

  lemma QueueKeepsTold(w: World, after: Db, bucket: Id, f: Fingerprint)
    requires Told(w, bucket, f) && OneMore(Get(w.db.findings, f), Get(after.findings, f))
    requires FindingSafe(w.db, f) && FindingSafe(after, f) && Dated(w.db, after, f)
    ensures Told(World(after, QueueAfter(w.queue, w.db.findings, after.findings, after.targets, To(bucket))), bucket, f)
  {
    var w' := World(after, QueueAfter(w.queue, w.db.findings, after.findings, after.targets, To(bucket)));
    forall v, b ensures Adds(w, w', To(bucket), f, v, b) { QueueAdds(w, after, To(bucket), f, v, b); }
    AddingKeepsTold(w, w', bucket, f);
    var m := Length(Get(after.findings, f));
    if m > 0 {
      assert Adds(w, w', To(bucket), f, m, bucket);
      assert NoOther(w.queue, f, m, bucket, bucket, Length(Get(w.db.findings, f)));
      assert Get(w'.queue, Key(f, OfEvent(m), bucket))
          == HandoffAfter(w.queue, w.db.findings, after.findings, after.targets, To(bucket),
                          Key(f, OfEvent(m), bucket));
    }
  }

  lemma AddingKeepsTold(w: World, w': World, bucket: Id, f: Fingerprint)
    requires Told(w, bucket, f) && forall v, b :: Adds(w, w', To(bucket), f, v, b)
    ensures var n := Length(Get(w'.db.findings, f));
            && (forall i :: 0 <= i < n ==>
                  Tells(w'.queue, Key(f, OfEvent(i + 1), bucket), w'.db.findings[f].log[i], i + 1))
            && (forall v, b :: NoOther(w'.queue, f, v, b, bucket, n))
  {
    var n, m := Length(Get(w.db.findings, f)), Length(Get(w'.db.findings, f));
    assert Adds(w, w', To(bucket), f, 0, bucket);
    forall i | 0 <= i < m
      ensures Tells(w'.queue, Key(f, OfEvent(i + 1), bucket), w'.db.findings[f].log[i], i + 1)
    {
      assert Adds(w, w', To(bucket), f, i + 1, bucket);
      assert i < n ==> Tells(w.queue, Key(f, OfEvent(i + 1), bucket), w.db.findings[f].log[i], i + 1);
      assert NoOther(w.queue, f, i + 1, bucket, bucket, n);
    }
    forall v, b ensures NoOther(w'.queue, f, v, b, bucket, m) {
      assert Adds(w, w', To(bucket), f, v, b) && NoOther(w.queue, f, v, b, bucket, n);
    }
  }

  lemma SnapshotsKeepTold(w: World, invocation: Id, bucket: Id, other: Id, f: Fingerprint)
    requires Told(w, bucket, f)
    ensures Told(World(w.db, WithSnapshots(w.queue, w.db, invocation, other)), bucket, f)
  {
    var queue := WithSnapshots(w.queue, w.db, invocation, other);
    forall v, b ensures Get(queue, Key(f, OfEvent(v), b)) == Get(w.queue, Key(f, OfEvent(v), b))
                ensures NoOther(queue, f, v, b, bucket, Length(Get(w.db.findings, f)))
    {
      assert NoOther(w.queue, f, v, b, bucket, Length(Get(w.db.findings, f)));
      assert Get(queue, Key(f, OfEvent(v), b))
          == SnapshotAfter(w.queue, w.db, invocation, other, Key(f, OfEvent(v), b));
    }
    var n := Length(Get(w.db.findings, f));
    forall i | 0 <= i < n
      ensures Tells(queue, Key(f, OfEvent(i + 1), bucket), w.db.findings[f].log[i], i + 1)
    {
      assert Tells(w.queue, Key(f, OfEvent(i + 1), bucket), w.db.findings[f].log[i], i + 1);
      assert Get(queue, Key(f, OfEvent(i + 1), bucket)) == Get(w.queue, Key(f, OfEvent(i + 1), bucket));
    }
    if n > 0 {
      var last := Key(f, OfEvent(n), bucket);
      assert Shows(w.queue, last, w.db.findings[f].row) && Get(queue, last) == Get(w.queue, last);
    }
  }

  lemma CommitKeepsTold(w: World, act: Act, bucket: Id, f: Fingerprint)
    requires Safe(w.db) && Told(w, bucket, f) && act.mode == To(bucket)
    ensures Told(Commit(w, act), bucket, f)
  {
    var after := Execute(w.db, OpOf(act));
    StepKeeps(w.db, OpOf(act));
    StepAddsOne(w.db, OpOf(act), f);
    StepDates(w.db, OpOf(act), f);
    assert FindingSafe(w.db, f) && FindingSafe(after, f);
    QueueKeepsTold(w, after, bucket, f);
    var queue := QueueAfter(w.queue, w.db.findings, after.findings, after.targets, To(bucket));
    if Completes(w.db, after, act) {
      SnapshotsKeepTold(World(after, queue), act.op.invocation, bucket, bucket, f);
    }
  }

  /** While findings are exported to one bucket, every event of every finding is queued in the
      transaction that writes it, exactly once, in a document that satisfies the shared contract. */
  lemma {:induction false} EveryEventIsQueuedOnce(rules: map<Id, Rule>, acts: seq<Act>, bucket: Id, f: Fingerprint)
    requires forall i :: 0 <= i < |acts| ==> acts[i].mode == To(bucket)
    ensures Told(RunAll(rules, acts), bucket, f)
  {
    if acts != [] {
      var rest := acts[..|acts| - 1];
      EveryEventIsQueuedOnce(rules, rest, bucket, f);
      SameStore(rules, rest);
      EveryRunIsSafe(rules, Ops(rest));
      CommitKeepsTold(RunAll(rules, rest), acts[|acts| - 1], bucket, f);
    }
  }

  // ---------------------------------------------------------------- switching the export

  /** Every handoff tells the event it stands for. */
  ghost predicate Faithful(w: World, f: Fingerprint) {
    forall v, b :: Key(f, OfEvent(v), b) in w.queue ==>
      && 1 <= v <= Length(Get(w.db.findings, f))
      && Tells(w.queue, Key(f, OfEvent(v), b), w.db.findings[f].log[v - 1], v)
  }

  /** A transaction adds the handoff of the event it wrote, if it exports, and no other. */
  lemma CommitQueues(w: World, act: Act, f: Fingerprint, v: int, bucket: Id)
    requires Safe(w.db)
    ensures Adds(w, Commit(w, act), act.mode, f, v, bucket)
  {
    var after, key := Execute(w.db, OpOf(act)), Key(f, OfEvent(v), bucket);
    StepKeeps(w.db, OpOf(act));
    StepAddsOne(w.db, OpOf(act), f);
    StepDates(w.db, OpOf(act), f);
    assert FindingSafe(w.db, f) && FindingSafe(after, f);
    QueueAdds(w, after, act.mode, f, v, bucket);
    var queue := QueueAfter(w.queue, w.db.findings, after.findings, after.targets, act.mode);
    if Completes(w.db, after, act) && act.mode.To? {
      assert Get(Commit(w, act).queue, key)
          == SnapshotAfter(queue, after, act.op.invocation, act.mode.bucket, key);
    }
  }

  lemma {:induction false} EveryHandoffIsFaithful(rules: map<Id, Rule>, acts: seq<Act>, f: Fingerprint)
    ensures Safe(RunAll(rules, acts).db) && Faithful(RunAll(rules, acts), f)
  {
    SameStore(rules, acts);
    EveryRunIsSafe(rules, Ops(acts));
    if acts != [] {
      var w := RunAll(rules, acts[..|acts| - 1]);
      EveryHandoffIsFaithful(rules, acts[..|acts| - 1], f);
      forall v, b | Key(f, OfEvent(v), b) in RunAll(rules, acts).queue
        ensures 1 <= v <= Length(Get(RunAll(rules, acts).db.findings, f))
        ensures Tells(RunAll(rules, acts).queue, Key(f, OfEvent(v), b),
                      RunAll(rules, acts).db.findings[f].log[v - 1], v)
      {
        CommitQueues(w, acts[|acts| - 1], f, v, b);
      }
    }
  }

  /** Whoever switches the export on, off or to another bucket between transactions: an event has a
      handoff for a bucket if and only if the transaction that wrote the event exported there. */
  lemma QueuedIffExported(rules: map<Id, Rule>, acts: seq<Act>, k: nat, f: Fingerprint, v: int, bucket: Id)
    requires k < |acts|
    requires Length(Get(RunAll(rules, acts[..k]).db.findings, f)) < v
          <= Length(Get(RunAll(rules, acts[..k + 1]).db.findings, f))
    ensures Length(Get(RunAll(rules, acts).db.findings, f)) >= v
    ensures Key(f, OfEvent(v), bucket) in RunAll(rules, acts).queue <==> acts[k].mode == To(bucket)
  {
    var run := (i: nat) => if i <= |acts| then RunAll(rules, acts[..i]) else RunAll(rules, acts);
    forall i: nat | i < |acts| ensures Decides(run(i), run(i + 1), acts[i].mode, f, v, bucket) {
      DecidesAt(rules, acts, i, f, v, bucket);
    }
    assert acts[..|acts|] == acts;
    DecidedOnce(run, acts, k, |acts|, f, v, bucket);
  }

  /** What the transaction decides that writes an event, later ones leave. */
  lemma {:induction false} DecidedOnce(run: nat -> World, acts: seq<Act>, k: nat, n: nat, f: Fingerprint, v: int,
                                       bucket: Id)
    requires k < n <= |acts|
    requires forall i: nat :: i < n ==> Decides(run(i), run(i + 1), acts[i].mode, f, v, bucket)
    requires Length(Get(run(k).db.findings, f)) < v <= Length(Get(run(k + 1).db.findings, f))
    ensures Length(Get(run(n).db.findings, f)) >= v
    ensures Key(f, OfEvent(v), bucket) in run(n).queue <==> acts[k].mode == To(bucket)
  {
    assert Decides(run(n - 1), run(n - 1 + 1), acts[n - 1].mode, f, v, bucket);
    if k < n - 1 { DecidedOnce(run, acts, k, n - 1, f, v, bucket); }
  }

  lemma DecidesAt(rules: map<Id, Rule>, acts: seq<Act>, i: nat, f: Fingerprint, v: int, bucket: Id)
    requires i < |acts|
    ensures Decides(RunAll(rules, acts[..i]), RunAll(rules, acts[..i + 1]), acts[i].mode, f, v, bucket)
  {
    EveryHandoffIsFaithful(rules, acts[..i], f);
    CommitDecides(RunAll(rules, acts[..i]), acts[i], f, v, bucket);
    assert acts[..i + 1][..i] == acts[..i];
  }

  /** Handoffs of earlier events stay as they are, and that of a new event is there if it was exported. */
  predicate Decides(w: World, w': World, mode: Export, f: Fingerprint, v: int, bucket: Id) {
    var key := Key(f, OfEvent(v), bucket);
    var n, m := Length(Get(w.db.findings, f)), Length(Get(w'.db.findings, f));
    && n <= m
    && (1 <= v <= n ==> (key in w'.queue <==> key in w.queue))
    && (n < v <= m ==> (key in w'.queue <==> mode == To(bucket)))
  }

  lemma CommitDecides(w: World, act: Act, f: Fingerprint, v: int, bucket: Id)
    requires Safe(w.db) && Faithful(w, f)
    ensures Decides(w, Commit(w, act), act.mode, f, v, bucket)
  {
    CommitQueues(w, act, f, v, bucket);
  }

  // ---------------------------------------------------------------- what a consumer sees

  /** The document of the highest version that reached the queue. */
  predicate Latest(queue: Queue, bucket: Id, f: Fingerprint, version: int) {
    && Key(f, OfEvent(version), bucket) in queue
    && forall key :: key in queue && key.f == f && key.bucket == bucket && key.subject.OfEvent? ==>
         key.subject.version <= version
  }

  ghost predicate ShownOpen(queue: Queue, bucket: Id, f: Fingerprint) {
    exists v :: Latest(queue, bucket, f, v) && queue[Key(f, OfEvent(v), bucket)].finding.status.Unresolved?
  }

  /** A consumer that goes by the latest event of each finding sees as open exactly the services that are
      open on an active target and selected by a rule, and sees them as exposure and rule show them. */
  lemma ExportedViewIsExact(rules: map<Id, Rule>, acts: seq<Act>, bucket: Id, f: Fingerprint)
    requires forall i :: 0 <= i < |acts| ==> acts[i].mode == To(bucket) && !acts[i].op.EditRules?
    ensures var w := RunAll(rules, acts);
            ShownOpen(w.queue, bucket, f) <==> StoreTheorems.CalledFor(w.db, f)
    ensures var w := RunAll(rules, acts);
            forall v :: Latest(w.queue, bucket, f, v) ==>
              var shown := w.queue[Key(f, OfEvent(v), bucket)].finding;
              && f in w.db.findings && shown.status == w.db.findings[f].row.status
              && (shown.status.Unresolved? ==>
                    && f.service in w.db.exposures && f.rule in w.db.rules
                    && shown.address == w.db.exposures[f.service].row.address
                    && shown.identity == w.db.exposures[f.service].row.identity
                    && shown.severity == w.db.rules[f.rule].severity && shown.title == w.db.rules[f.rule].name)
  {
    var w := RunAll(rules, acts);
    EveryEventIsQueuedOnce(rules, acts, bucket, f);
    SameStore(rules, acts);
    StoreTheorems.OpenFindingsAreExact(rules, Ops(acts), f);
    EveryRunIsSafe(rules, Ops(acts));
    assert FindingSafe(w.db, f);
    LatestIsLast(w, bucket, f);
  }

  lemma LatestIsLast(w: World, bucket: Id, f: Fingerprint)
    requires Told(w, bucket, f)
    ensures forall v :: Latest(w.queue, bucket, f, v) <==> v == Length(Get(w.db.findings, f)) > 0
  {
    var n := Length(Get(w.db.findings, f));
    if n > 0 { assert Tells(w.queue, Key(f, OfEvent(n - 1 + 1), bucket), w.db.findings[f].log[n - 1], n - 1 + 1); }
    forall key | key in w.queue && key.f == f && key.bucket == bucket && key.subject.OfEvent?
      ensures key.subject.version <= n
    {
      assert NoOther(w.queue, f, key.subject.version, bucket, bucket, n);
    }
    forall v | Latest(w.queue, bucket, f, v) ensures v == n > 0 {
      assert NoOther(w.queue, f, v, bucket, bucket, n);
      assert Key(f, OfEvent(n), bucket) in w.queue;
    }
  }

  // ---------------------------------------------------------------- snapshots

  lemma QueueKeepsDated(w: World, after: Db, mode: Export)
    requires SnapshotsDated(w) && w.db.runs.Keys <= after.runs.Keys
    ensures SnapshotsDated(World(after, QueueAfter(w.queue, w.db.findings, after.findings, after.targets, mode)))
  {
    var queue := QueueAfter(w.queue, w.db.findings, after.findings, after.targets, mode);
    forall key | key in queue && key.subject.OfRun? ensures key.subject.invocation in after.runs {
      assert Get(queue, key) == HandoffAfter(w.queue, w.db.findings, after.findings, after.targets, mode, key);
    }
  }

  lemma SnapshotsKeepDated(w: World, invocation: Id, bucket: Id)
    requires SnapshotsDated(w) && invocation in w.db.runs
    ensures SnapshotsDated(World(w.db, WithSnapshots(w.queue, w.db, invocation, bucket)))
  {
    var queue := WithSnapshots(w.queue, w.db, invocation, bucket);
    forall key | key in queue && key.subject.OfRun? ensures key.subject.invocation in w.db.runs {
      assert Get(queue, key) == SnapshotAfter(w.queue, w.db, invocation, bucket, key);
    }
  }

  lemma {:induction false} SnapshotsAreDated(rules: map<Id, Rule>, acts: seq<Act>)
    ensures SnapshotsDated(RunAll(rules, acts))
  {
    if acts != [] {
      var act, w := acts[|acts| - 1], RunAll(rules, acts[..|acts| - 1]);
      SnapshotsAreDated(rules, acts[..|acts| - 1]);
      CommitKeepsDated(w, act);
    }
  }

  lemma CommitKeepsDated(w: World, act: Act)
    requires SnapshotsDated(w)
    ensures SnapshotsDated(Commit(w, act))
  {
    var after := Execute(w.db, OpOf(act));
    RunsStay(w.db, OpOf(act));
    QueueKeepsDated(w, after, act.mode);
    if Completes(w.db, after, act) && act.mode.To? {
      var queue := QueueAfter(w.queue, w.db.findings, after.findings, after.targets, act.mode);
      SnapshotsKeepDated(World(after, queue), act.op.invocation, act.mode.bucket);
    }
  }

  lemma RunsStay(db: Db, op: Op)
    ensures db.runs.Keys <= Execute(db, op).runs.Keys
  {
    StoreTheorems.StepExtends(db, op);
    ExtendingKeepsRuns(db, Execute(db, op));
  }

  lemma ExtendingKeepsRuns(before: Db, after: Db)
    requires StoreTheorems.Extends(before, after)
    ensures before.runs.Keys <= after.runs.Keys
  {
    forall r | r in before.runs ensures r in after.runs {}
  }

  /** A completed full reconciliation queues a snapshot of every open finding as it is, and of no other. */
  lemma SnapshotsShowOpenFindings(rules: map<Id, Rule>, acts: seq<Act>, act: Act, f: Fingerprint)
    requires act.mode.To? && act.op.ReconcileOp? && act.op.invocation !in RunAll(rules, acts).db.runs
    requires act.op.invocation in Commit(RunAll(rules, acts), act).db.runs
    ensures var w := Commit(RunAll(rules, acts), act);
            var key := Key(f, OfRun(act.op.invocation), act.mode.bucket);
            && (key in w.queue <==> f in w.db.findings && w.db.findings[f].row.status.Unresolved?)
            && (key in w.queue ==>
                  && w.queue[key].finding == w.db.findings[f].row && F.ContractRecord(w.queue[key].finding)
                  && f.service.target in w.db.targets && w.queue[key].event.None?
                  && w.queue[key].generation == w.db.targets[f.service.target].generation)
  {
    var before := RunAll(rules, acts);
    SnapshotsAreDated(rules, acts);
    SameStore(rules, acts);
    EveryRunIsSafe(rules, Ops(acts));
    StepKeeps(before.db, OpOf(act));
    SnapshotIsExact(before, Execute(before.db, OpOf(act)), act.op.invocation, act.mode, f);
  }

  lemma SnapshotIsExact(before: World, after: Db, invocation: Id, mode: Export, f: Fingerprint)
    requires SnapshotsDated(before) && Safe(after) && mode.To? && invocation !in before.db.runs
    ensures var queued := QueueAfter(before.queue, before.db.findings, after.findings, after.targets, mode);
            var queue := WithSnapshots(queued, after, invocation, mode.bucket);
            var key := Key(f, OfRun(invocation), mode.bucket);
            && (key in queue <==> f in after.findings && after.findings[f].row.status.Unresolved?)
            && (key in queue ==>
                  && queue[key].finding == after.findings[f].row && F.ContractRecord(queue[key].finding)
                  && f.service.target in after.targets && queue[key].event.None?
                  && queue[key].generation == after.targets[f.service.target].generation)
  {
    var key := Key(f, OfRun(invocation), mode.bucket);
    var queued := QueueAfter(before.queue, before.db.findings, after.findings, after.targets, mode);
    var queue := WithSnapshots(queued, after, invocation, mode.bucket);
    assert key !in before.queue;
    assert Get(queued, key)
        == HandoffAfter(before.queue, before.db.findings, after.findings, after.targets, mode, key);
    assert Get(queue, key) == SnapshotAfter(queued, after, invocation, mode.bucket, key);
    assert FindingSafe(after, f) && Grounded(after, f) && ExposureSafe(after, f.service);
  }

  // ---------------------------------------------------------------- the provider

  /** Every handoff names the provider of its finding's target. */
  ghost predicate Attributed(w: World) {
    forall key :: key in w.queue ==>
      && key.f.service.target in w.db.targets
      && w.queue[key].provider == w.db.targets[key.f.service.target].identity.provider
  }

  lemma QueueKeepsAttributed(w: World, after: Db, mode: Export)
    requires Attributed(w) && StoreTheorems.Extends(w.db, after)
    ensures Attributed(World(after, QueueAfter(w.queue, w.db.findings, after.findings, after.targets, mode)))
  {
    var queue := QueueAfter(w.queue, w.db.findings, after.findings, after.targets, mode);
    forall key | key in queue
      ensures key.f.service.target in after.targets
              && queue[key].provider == after.targets[key.f.service.target].identity.provider
    {
      assert Get(queue, key) == HandoffAfter(w.queue, w.db.findings, after.findings, after.targets, mode, key);
    }
  }

  lemma SnapshotsKeepAttributed(w: World, invocation: Id, bucket: Id)
    requires Attributed(w)
    ensures Attributed(World(w.db, WithSnapshots(w.queue, w.db, invocation, bucket)))
  {
    var queue := WithSnapshots(w.queue, w.db, invocation, bucket);
    forall key | key in queue
      ensures key.f.service.target in w.db.targets
              && queue[key].provider == w.db.targets[key.f.service.target].identity.provider
    {
      assert Get(queue, key) == SnapshotAfter(w.queue, w.db, invocation, bucket, key);
    }
  }

  lemma {:induction false} EveryHandoffIsAttributed(rules: map<Id, Rule>, acts: seq<Act>)
    ensures Attributed(RunAll(rules, acts))
  {
    if acts != [] {
      EveryHandoffIsAttributed(rules, acts[..|acts| - 1]);
      CommitKeepsAttributed(RunAll(rules, acts[..|acts| - 1]), acts[|acts| - 1]);
    }
  }

  lemma CommitKeepsAttributed(w: World, act: Act)
    requires Attributed(w)
    ensures Attributed(Commit(w, act))
  {
    var after := Execute(w.db, OpOf(act));
    StoreTheorems.StepExtends(w.db, OpOf(act));
    QueueKeepsAttributed(w, after, act.mode);
    if Completes(w.db, after, act) && act.mode.To? {
      var queue := QueueAfter(w.queue, w.db.findings, after.findings, after.targets, act.mode);
      SnapshotsKeepAttributed(World(after, queue), act.op.invocation, act.mode.bucket);
    }
  }
}
