/** The Kubernetes operator: one Scanner, the Job name derived from it, and the reconcile loop that
    creates, watches and releases the Job. Every call to the API server is one step; before each of
    them users, the Job controller, the garbage collector and the clock may do anything they are able
    to do, and the call may fail, which ends the reconcile. Reads are current, status is written by
    the operator alone, and only the operator removes the two finalizers it places. */
module Operator {
  import opened Base

  // ---------------------------------------------------------------- the objects

  const SECOND := 1_000_000_000

  datatype Outcome = Unset | Pending | Running | Succeeded | Failed | Cancelled | Expired

  predicate Terminal(outcome: Outcome) {
    outcome.Succeeded? || outcome.Failed? || outcome.Cancelled? || outcome.Expired?
  }

  /** Reasons of the JobReady condition. */
  datatype Reason =
    | JobCreated | JobSucceeded | JobFailed | JobDeleted | JobMissing | JobNameCollision
    | InvalidRequest | CancelRequested | CutoffElapsed

  datatype Status = Status(
    outcome: Outcome,
    activeJob: bool,
    ready: Option<Reason>,
    accepted: Option<bool>,
    queuedAt: Option<Time>,
    startedAt: Option<Time>,
    completedAt: Option<Time>)

  /** Execution fields, immutable once admitted. `valid` says that everything else the Job is built from
      passes validation. */
  datatype Spec = Spec(deadline: Option<Time>, notAfter: Option<Time>, ttl: nat, valid: bool)

  /** `finalizer` is the operator's own; `deleting` means a deletion timestamp is set. */
  datatype Scanner = Scanner(cancel: bool, deleting: bool, finalizer: bool, status: Status)

  datatype Condition = NotTrue | True(since: Option<Time>)

  /** The Job holding the derived name. `owned`: controlled by the Scanner; `protected`: carries the
      status-protection finalizer; `held`: carries somebody else's. */
  datatype Job = Job(
    owned: bool,
    protected: bool,
    held: bool,
    deleting: bool,
    active: bool,
    startTime: Option<Time>,
    complete: Condition,
    failed: Condition)
  {
    predicate Finished() { complete.True? || failed.True? }
  }

  /** A successful Create: the clock reading of its reconcile and the Job's run-time budget in seconds. */
  datatype Creation = Creation(at: Time, budget: nat)

  /** What others ever did: a cancellation request, another Job under the name, a deletion request for the
      Scanner's own Job, the Job's success or failure, a deletion request for the Scanner. */
  datatype Past = Past(cancelled: bool, contested: bool, withdrawn: bool, completed: bool, failed: bool, unwanted: bool)

  datatype World = World(
    scanner: Option<Scanner>,
    job: Option<Job>,
    clock: Time,
    creations: seq<Creation>,
    released: bool,           // the operator has taken its finalizer off the Scanner's Job
    retired: Option<Status>,  // the status under which the operator asked for the Scanner's deletion
    past: Past)

  predicate OwnJob(w: World) { w.job.Some? && w.job.value.owned }

  predicate JobWasCreated(status: Status) { status.activeJob || status.ready == Some(JobCreated) }

  predicate DeadlinesValid(spec: Spec) {
    spec.deadline.Some? && spec.notAfter.Some? && spec.deadline.value <= spec.notAfter.value
  }

  /** Whole seconds a Job created now may run; None when not one remains. */
  function ActiveDeadline(notAfter: Time, now: Time): (budget: Option<nat>)
    ensures budget.None? <==> now + SECOND > notAfter
    ensures budget.Some? ==>
              && budget.value >= 1
              && now + budget.value * SECOND <= notAfter < now + (budget.value + 1) * SECOND
  {
    if notAfter - now < SECOND then None else Some((notAfter - now) / SECOND)
  }

  // ---------------------------------------------------------------- everybody else

  datatype Act =
    | SetCancel(on: bool)
    | DeleteScanner
    | DeleteJob               // by a user, the garbage collector or the Job's own TTL
    | Report(active: bool, startTime: Option<Time>, complete: Condition, failed: Condition)
    | OccupyName(other: Job)
    | VacateName
    | Hold(on: bool)          // another controller's finalizer on the Scanner's Job
    | Tick(delta: nat)

  function WithScannerDeleted(w: World): World {
    if w.scanner.None? then w
    else if w.scanner.value.finalizer then w.(scanner := Some(w.scanner.value.(deleting := true)))
    else w.(scanner := None)
  }

  predicate Lingering(job: Job) { job.deleting && !job.protected && !job.held }

  /** A Job being deleted goes away with its last finalizer. */
  function Reaped(w: World): World {
    if w.job.Some? && Lingering(w.job.value) then w.(job := None) else w
  }

  function WithJobDeleted(w: World): World {
    if w.job.None? then w
    else
      Reaped(w.(job := Some(w.job.value.(deleting := true)),
                past := if w.job.value.owned then w.past.(withdrawn := true) else w.past))
  }

  function Stick(before: Condition, after: Condition): Condition { if before.True? then before else after }

  function Apply(w: World, act: Act): World {
    match act
    case SetCancel(on) =>
      if w.scanner.None? then w
      else w.(scanner := Some(w.scanner.value.(cancel := on)), past := w.past.(cancelled := w.past.cancelled || on))
    case DeleteScanner => WithScannerDeleted(w.(past := w.past.(unwanted := true)))
    case DeleteJob => WithJobDeleted(w)
    case Report(active, startTime, complete, failed) =>
      if !OwnJob(w) then w
      else
        var j := w.job.value.(active := active, startTime := startTime,
                              complete := Stick(w.job.value.complete, complete),
                              failed := Stick(w.job.value.failed, failed));
        w.(job := Some(j), past := w.past.(completed := w.past.completed || j.complete.True?,
                                           failed := w.past.failed || j.failed.True?))
    case OccupyName(other) =>
      if w.job.Some? then w
      else w.(job := Some(other.(owned := false)), past := w.past.(contested := true))
    case VacateName => if OwnJob(w) then w else w.(job := None)
    case Hold(on) =>
      if !OwnJob(w) || (on && w.job.value.deleting) then w else Reaped(w.(job := Some(w.job.value.(held := on))))
    case Tick(delta) => w.(clock := w.clock + delta)
  }

  /** What others can bring about, in any number of steps. */
  predicate Env(w: World, w': World) {
    && w'.creations == w.creations && w'.released == w.released && w'.retired == w.retired && w'.clock >= w.clock
    && Remembers(w.past, w'.past)
    && (w'.scanner.Some? ==>
          && w.scanner.Some? && w'.scanner.value.status == w.scanner.value.status
          && w'.scanner.value.finalizer == w.scanner.value.finalizer
          && (w.scanner.value.deleting ==> w'.scanner.value.deleting)
          && (w'.scanner.value.deleting && !w.scanner.value.deleting ==> w.scanner.value.finalizer && w'.past.unwanted)
          && (w'.scanner.value.cancel ==> w.scanner.value.cancel || w'.past.cancelled))
    && (w.scanner.Some? && w.scanner.value.finalizer ==> w'.scanner.Some?)
    && (w.scanner.Some? && w'.scanner.None? ==> w'.past.unwanted)
    && (OwnJob(w') ==>
          && OwnJob(w) && w'.job.value.protected == w.job.value.protected
          && (w.job.value.deleting ==> w'.job.value.deleting)
          && (Lingering(w'.job.value) ==> Lingering(w.job.value))
          && (w'.job.value.deleting ==> w.job.value.deleting || w'.past.withdrawn)
          && (w'.job.value.complete.True? ==> w.job.value.complete.True? || w'.past.completed)
          && (w'.job.value.failed.True? ==> w.job.value.failed.True? || w'.past.failed))
    && (OwnJob(w) && w.job.value.protected ==> OwnJob(w'))
    && (w'.job.Some? && !w'.job.value.owned ==> (w.job.Some? && !w.job.value.owned) || w'.past.contested)
  }

  predicate Remembers(p: Past, p': Past) {
    && (p.cancelled ==> p'.cancelled) && (p.contested ==> p'.contested) && (p.withdrawn ==> p'.withdrawn)
    && (p.completed ==> p'.completed) && (p.failed ==> p'.failed) && (p.unwanted ==> p'.unwanted)
  }

  lemma ApplyIsEnv(w: World, act: Act)
    ensures Env(w, Apply(w, act))
  {
    match act
    case SetCancel(_) =>
    case DeleteScanner => ScannerDeletionIsEnv(w);
    case DeleteJob => JobDeletionIsEnv(w);
    case Report(_, _, _, _) => ReportIsEnv(w, act);
    case OccupyName(_) => OccupyingIsEnv(w, act);
    case VacateName => VacatingIsEnv(w);
    case Hold(_) => HoldIsEnv(w, act);
    case Tick(_) =>
  }

  lemma ScannerDeletionIsEnv(w: World)
    ensures Env(w, Apply(w, DeleteScanner))
  {
  }

  lemma OccupyingIsEnv(w: World, act: Act)
    requires act.OccupyName?
    ensures Env(w, Apply(w, act))
  {
  }

  lemma VacatingIsEnv(w: World)
    ensures Env(w, Apply(w, VacateName))
  {
  }

  lemma JobDeletionIsEnv(w: World)
    ensures Env(w, WithJobDeleted(w))
  {
  }

  lemma ReportIsEnv(w: World, act: Act)
    requires act.Report?
    ensures Env(w, Apply(w, act))
  {
  }

  lemma HoldIsEnv(w: World, act: Act)
    requires act.Hold?
    ensures Env(w, Apply(w, act))
  {
  }

  lemma EnvTransitive(a: World, b: World, c: World)
    requires Env(a, b) && Env(b, c)
    ensures Env(a, c)
  {
  }

  // ---------------------------------------------------------------- what always holds

  /** The times and marks that go with an outcome. */
  predicate Complete(status: Status) {
    && (Terminal(status.outcome) ==> status.completedAt.Some? && status.ready.Some? && !status.activeJob)
    && (!Terminal(status.outcome) ==> status.completedAt.None? && status.accepted != Some(false))
    && (status.outcome.Running? ==> status.startedAt.Some?)
    && (status.outcome.Running? || status.outcome.Pending? ==> status.activeJob && status.accepted == Some(true))
    && (!status.outcome.Unset? && !status.outcome.Expired? ==> status.queuedAt.Some?)
  }

  /** A status is true of the world: a terminal one carries its completion time and a reason that really
      occurred, "job missing" never among them; one that mentions a Job means the Job was created. */
  predicate Truthful(spec: Spec, w: World, status: Status) {
    && Complete(status) && (JobWasCreated(status) ==> w.creations != [])
    && (Terminal(status.outcome) ==>
          match status.ready.value
          case JobSucceeded =>
            status.outcome.Succeeded? && status.accepted == Some(true) && w.past.completed && w.creations != []
          case JobFailed =>
            status.outcome.Failed? && status.accepted == Some(true) && w.past.failed && w.creations != []
          case JobDeleted =>
            status.outcome.Failed? && status.accepted != Some(false) && w.past.withdrawn && w.creations != []
          case JobNameCollision =>
            status.outcome.Failed? && status.accepted != Some(false) && w.past.contested && w.creations == []
          case InvalidRequest =>
            && status.outcome.Failed? && status.accepted == Some(false) && w.creations == []
            && Unfit(spec, status.completedAt.value)
          case CancelRequested => status.outcome.Cancelled? && status.accepted == Some(false) && w.past.cancelled
          case CutoffElapsed =>
            && status.outcome.Expired? && spec.notAfter.Some?
            && spec.notAfter.value <= status.completedAt.value <= w.clock
            && (status.accepted == Some(false) ==> w.creations == [])
          case JobMissing => false
          case JobCreated => false)
  }

  /** No Job can be built at that time: a deadline is missing or they are out of order, or the cutoff is
      still ahead and the rest of the request is invalid or less than a second remains. */
  predicate Unfit(spec: Spec, at: Time) {
    || Undeadlined(spec)
    || (at < spec.notAfter.value && (!spec.valid || spec.notAfter.value < at + SECOND))
  }

  /** Holds between any two API calls. At most one Job was ever created, inside its window; until the
      operator releases it the Job cannot disappear, and the operator releases it only from a Scanner that
      is terminal or being deleted; the Scanner outlives its Job, and goes only when others want it gone or
      after its retention. */
  predicate Inv(spec: Spec, w: World) {
    && |w.creations| <= 1 && (w.creations != [] ==> InTime(spec, w.creations[0]))
    && (w.scanner.None? || w.scanner.value.deleting ==> w.past.unwanted || w.retired.Some?)
    && (w.retired.Some? ==>
          && Terminal(w.retired.value.outcome) && w.retired.value.completedAt.Some?
          && w.retired.value.completedAt.value + spec.ttl * SECOND <= w.clock)
    && (OwnJob(w) ==> w.creations != [] && w.scanner.Some? && w.scanner.value.finalizer)
    && (w.creations != [] && !w.released ==> OwnJob(w) && w.job.value.protected)
    && (w.released ==> w.scanner.None? || Terminal(w.scanner.value.status.outcome) || w.scanner.value.deleting)
    && (w.job.Some? && !w.job.value.owned ==> w.past.contested)
    && (OwnJob(w) ==>
          && (w.job.value.deleting ==> w.past.withdrawn) && !Lingering(w.job.value)
          && (w.job.value.complete.True? ==> w.past.completed)
          && (w.job.value.failed.True? ==> w.past.failed))
    && (w.scanner.Some? ==>
          && Truthful(spec, w, w.scanner.value.status)
          && (w.scanner.value.deleting ==> w.scanner.value.finalizer)
          && (w.scanner.value.cancel ==> w.past.cancelled)
          && (!w.scanner.value.finalizer ==> !Terminal(w.scanner.value.status.outcome)))
  }

  /** A valid request within its deadlines, with all the whole seconds there were until the cutoff. */
  predicate InTime(spec: Spec, creation: Creation) {
    && spec.valid && !Undeadlined(spec)
    && creation.budget >= 1
    && creation.at + creation.budget * SECOND <= spec.notAfter.value
    && spec.notAfter.value < creation.at + (creation.budget + 1) * SECOND
  }

  /** A Scanner that has just been admitted. */
  function Admitted(cancel: bool, clock: Time, other: Option<Job>): World {
    World(Some(Scanner(cancel, false, false, Status(Unset, false, None, None, None, None, None))),
          if other.Some? then Some(other.value.(owned := false)) else None, clock, [], false, None,
          Past(cancel, other.Some?, false, false, false, false))
  }

  lemma EnvKeepsInv(spec: Spec, w: World, w': World)
    requires Inv(spec, w) && Env(w, w')
    ensures Inv(spec, w')
  {
  }

  /** Nothing is taken back: creations are only appended, a terminal verdict stays, a Scanner that is gone
      or being deleted stays so. */
  predicate Onward(w: World, w': World) {
    && w.creations <= w'.creations && (w.released ==> w'.released) && w.clock <= w'.clock
    && Remembers(w.past, w'.past)
    && (w'.scanner.Some? ==>
          && w.scanner.Some?
          && (w.scanner.value.deleting ==> w'.scanner.value.deleting)
          && Settles(w.scanner.value.status, w'.scanner.value.status))
  }

  /** A verdict is final, and so are the times of queueing and starting. */
  predicate Settles(before: Status, after: Status) {
    && (Terminal(before.outcome) ==> after == before)
    && (before.queuedAt.Some? ==> after.queuedAt == before.queuedAt)
    && (before.startedAt.Some? ==> after.startedAt == before.startedAt)
  }

  lemma EnvIsOnward(w: World, w': World)
    requires Env(w, w')
    ensures Onward(w, w') && NoMoreOf(w, w')
  {
  }

  lemma OnwardTransitive(a: World, b: World, c: World)
    requires Onward(a, b) && Onward(b, c)
    ensures Onward(a, c)
  {
  }

  /** The reconciler's copy is up to date in the parts that only the operator writes. */
  predicate Tracks(w: World, s: Scanner) {
    w.scanner.Some? && w.scanner.value.finalizer && s.finalizer && w.scanner.value.status == s.status
  }

  /** The Scanner's Job has not come back, nor regained protection, nor escaped deletion. */
  predicate NoMoreOf(w: World, w': World) {
    OwnJob(w') ==>
      && OwnJob(w) && (w.job.value.deleting ==> w'.job.value.deleting)
      && (!w.job.value.protected ==> !w'.job.value.protected)
  }

  /** After a successful pass over a terminal Scanner its Job is released, and its deletion under way if the
      scan was stopped. */
  predicate CleanedUp(w: World) {
    w.scanner.Some? && Terminal(w.scanner.value.status.outcome) && OwnJob(w) ==>
      && !w.job.value.protected
      && (w.scanner.value.status.outcome.Cancelled? || w.scanner.value.status.outcome.Expired? ==> w.job.value.deleting)
  }

  /** The Scanner has its verdict or its Job. */
  predicate Underway(w: World) {
    w.scanner.Some? ==> Terminal(w.scanner.value.status.outcome) || w.creations != []
  }

  function WithJobReleased(w: World): World
    requires w.job.Some?
  {
    Reaped(w.(job := Some(w.job.value.(protected := false)), released := true))
  }

  lemma ReleaseKeepsInv(spec: Spec, w: World)
    requires Inv(spec, w) && OwnJob(w)
    requires Terminal(w.scanner.value.status.outcome) || w.scanner.value.deleting
    ensures var w' := WithJobReleased(w);
            && Inv(spec, w') && Onward(w, w') && NoMoreOf(w, w') && w'.scanner == w.scanner
            && w'.creations == w.creations
            && (OwnJob(w') ==> !w'.job.value.protected)
  {
  }

  /** A deadline is missing, or they are out of order. */
  predicate Undeadlined(spec: Spec) {
    spec.deadline.None? || spec.notAfter.None? || spec.deadline.value > spec.notAfter.value
  }

  lemma LettingGoKeepsInv(spec: Spec, w: World)
    requires Inv(spec, w) && !OwnJob(w) && w.scanner.Some? && w.scanner.value.deleting
    ensures Inv(spec, w.(scanner := None)) && Onward(w, w.(scanner := None))
  {
  }

  lemma RetiringKeepsInv(spec: Spec, w: World, status: Status)
    requires Inv(spec, w) && w.scanner.Some? && w.scanner.value.finalizer
    requires Terminal(status.outcome) && status.completedAt.Some?
    requires status.completedAt.value + spec.ttl * SECOND <= w.clock
    ensures var w' := WithScannerDeleted(w.(retired := Some(status)));
            Inv(spec, w') && Onward(w, w') && NoMoreOf(w, w') && w'.scanner == Some(w.scanner.value.(deleting := true))
  {
  }

  // ---------------------------------------------------------------- status

  function WithTerminal(status: Status, outcome: Outcome, reason: Reason, when: Time): Status {
    status.(outcome := outcome, activeJob := false, ready := Some(reason), completedAt := Some(when),
            queuedAt := if status.queuedAt.None? && !outcome.Expired? then Some(when) else status.queuedAt)
  }

  function Verdict(status: Status, outcome: Outcome, reason: Reason, refused: bool, when: Time): Status {
    var terminal := WithTerminal(status, outcome, reason, when);
    if refused then terminal.(accepted := Some(false)) else terminal
  }

  function Since(condition: Condition, now: Time): Time
    requires condition.True?
  {
    if condition.since.Some? then condition.since.value else now
  }

  function Reflected(status: Status, job: Job, now: Time): Status {
    var seen := status.(queuedAt := if status.queuedAt.None? then Some(now) else status.queuedAt,
                        accepted := Some(true));
    if job.complete.True? then WithTerminal(seen, Succeeded, JobSucceeded, Since(job.complete, now))
    else if job.failed.True? then WithTerminal(seen, Failed, JobFailed, Since(job.failed, now))
    else
      var live := seen.(activeJob := true, ready := Some(JobCreated));
      if job.active then
        live.(outcome := Running,
              startedAt := if live.startedAt.Some? then live.startedAt
                           else if job.startTime.Some? then job.startTime else Some(now))
      else live.(outcome := Pending)
  }

  /** The status a Job calls for: a collision, a finish (success before failure, at the time the Job
      reports), the cutoff, a deletion, or the phase the Job is in. */
  predicate Judged(status: Status, job: Job, notAfter: Time, now: Time) {
    && (Terminal(status.outcome) <==> !job.owned || job.Finished() || notAfter <= now || job.deleting)
    && (!job.owned <==> status.ready == Some(JobNameCollision))
    && (job.owned && job.complete.True? <==> status.ready == Some(JobSucceeded))
    && (job.owned && !job.complete.True? && job.failed.True? <==> status.ready == Some(JobFailed))
    && (job.owned && !job.Finished() && notAfter <= now <==> status.ready == Some(CutoffElapsed))
    && (job.owned && !job.Finished() && now < notAfter && job.deleting <==> status.ready == Some(JobDeleted))
    && (status.ready == Some(CutoffElapsed) ==> status.accepted != Some(false))
    && (status.ready == Some(JobSucceeded) ==>
          status.completedAt == if job.complete.since.Some? then job.complete.since else Some(now))
    && (status.ready == Some(JobFailed) ==>
          status.completedAt == if job.failed.since.Some? then job.failed.since else Some(now))
    && (job.owned && !job.Finished() && now < notAfter && !job.deleting ==>
          status.ready == Some(JobCreated) && status.outcome == if job.active then Running else Pending)
  }

  lemma ReflectedIsTruthful(spec: Spec, w: World, status: Status, job: Job, now: Time)
    requires Truthful(spec, w, status) && !Terminal(status.outcome) && w.creations != [] && job.owned
    requires (job.complete.True? ==> w.past.completed) && (job.failed.True? ==> w.past.failed)
    ensures Truthful(spec, w, Reflected(status, job, now)) && Settles(status, Reflected(status, job, now))
    ensures job.Finished() <==> Terminal(Reflected(status, job, now).outcome)
  {
  }

  lemma ReflectedIsJudged(status: Status, job: Job, notAfter: Time, now: Time)
    requires !Terminal(status.outcome) && job.owned && (job.Finished() || (now < notAfter && !job.deleting))
    ensures Judged(Reflected(status, job, now), job, notAfter, now)
  {
  }

  // ---------------------------------------------------------------- the reconciler

  class Reconciler {
    const spec: Spec
    var w: World
    ghost var broken: nat     // calls that failed

    constructor (spec: Spec, cancel: bool, clock: Time, other: Option<Job>)
      ensures this.spec == spec && w == Admitted(cancel, clock, other) && Inv(spec, w)
    {
      this.spec := spec;
      w, broken := Admitted(cancel, clock, other), 0;
    }

    /** Others act before the next API call, which may then fail. */
    method Meanwhile() returns (ok: bool)
      requires Inv(spec, w)
      modifies this`w, this`broken
      ensures Env(old(w), w) && Inv(spec, w) && Onward(old(w), w) && NoMoreOf(old(w), w)
      ensures broken == old(broken) + if ok then 0 else 1
    {
      ghost var start := w;
      var steps: nat := *;
      while steps > 0
        invariant Env(start, w) && Inv(spec, w) && broken == old(broken)
      {
        var act: Act := *;
        ghost var before := w;
        w := Apply(w, act);
        ApplyIsEnv(before, act);
        EnvTransitive(start, before, w);
        EnvKeepsInv(spec, before, w);
        steps := steps - 1;
      }
      EnvIsOnward(start, w);
      ok := *;
      if !ok { broken := broken + 1; }
    }

    method PatchStatus(s: Scanner, status: Status) returns (ok: bool, s': Scanner)
      requires Inv(spec, w) && Tracks(w, s) && !Terminal(s.status.outcome)
      requires Truthful(spec, w, status) && Settles(s.status, status)
      modifies this`w, this`broken
      ensures Inv(spec, w) && Onward(old(w), w) && w.released == old(w).released
      ensures ok ==> Tracks(w, s') && s'.status == status
      ensures broken >= old(broken) && (ok ==> broken == old(broken))
      ensures !ok ==> broken > old(broken)
    {
      s' := s;
      if status == s.status { return true, s; }
      ok := Meanwhile();
      if !ok { return; }
      w := w.(scanner := Some(w.scanner.value.(status := status)));
      s' := w.scanner.value;
    }

    /** Asks for the deletion of the Scanner's own Job, if there is one; nothing a user could not do. */
    method RequestJobDeletion() returns (ok: bool)
      requires Inv(spec, w)
      modifies this`w, this`broken
      ensures Inv(spec, w) && Env(old(w), w)
      ensures ok && OwnJob(w) ==> w.job.value.deleting
      ensures broken >= old(broken) && (ok ==> broken == old(broken))
      ensures !ok ==> broken > old(broken)
    {
      ok := Meanwhile();
      if !ok { return; }
      var job := w.job;
      if job.None? || !job.value.owned || job.value.deleting { return true; }
      ghost var middle := w;
      ok := Meanwhile();
      if !ok { EnvTransitive(old(w), middle, w); return; }
      ghost var before := w;
      Delete(job.value);
      EnvTransitive(old(w), middle, before);
      EnvTransitive(old(w), before, w);
    }

    /** Deletes what has the name, which was the Scanner's own Job when it was read. */
    method Delete(ghost seen: Job)
      requires Inv(spec, w) && seen.owned && !seen.deleting
      modifies this`w
      ensures Inv(spec, w) && Env(old(w), w) && w == WithJobDeleted(old(w))
    {
      JobDeletionIsEnv(w);
      EnvKeepsInv(spec, w, WithJobDeleted(w));
      w := WithJobDeleted(w);
    }

    /** Takes the status-protection finalizer off the Scanner's own Job, if there is one. */
    method ReleaseJobFinalizer(ghost s: Scanner) returns (ok: bool)
      requires Inv(spec, w) && Tracks(w, s)
      requires Terminal(s.status.outcome) || w.scanner.value.deleting
      modifies this`w, this`broken
      ensures Inv(spec, w) && Onward(old(w), w) && Tracks(w, s) && w.creations == old(w).creations
      ensures ok && OwnJob(w) ==> !w.job.value.protected
      ensures NoMoreOf(old(w), w)
      ensures broken >= old(broken) && (ok ==> broken == old(broken))
      ensures !ok ==> broken > old(broken)
    {
      ok := Meanwhile();
      if !ok { return; }
      var job := w.job;
      if job.None? || !job.value.owned || !job.value.protected { return true; }
      ok := Meanwhile();
      if !ok { return; }
      ReleaseKeepsInv(spec, w);
      w := WithJobReleased(w);
    }

    method ReconcileTerminal(s: Scanner, now: Time) returns (ok: bool)
      requires Inv(spec, w) && Tracks(w, s) && Terminal(s.status.outcome) && now <= w.clock
      modifies this`w, this`broken
      ensures Inv(spec, w) && Onward(old(w), w)
      ensures ok ==> CleanedUp(w)
      ensures ok ==> Retained(s.status, now)
      ensures broken >= old(broken) && (ok ==> broken == old(broken))
      ensures !ok ==> broken > old(broken)
    {
      ok := ReleaseJobFinalizer(s);
      if !ok { return; }
      if s.status.outcome.Cancelled? || s.status.outcome.Expired? {
        ok := RequestJobDeletion();
        if !ok { return; }
      }
      ok := Retire(s, now);
    }

    /** Asks for the deletion of a terminal Scanner when its retention is over. */
    method Retire(s: Scanner, now: Time) returns (ok: bool)
      requires Inv(spec, w) && Tracks(w, s) && Terminal(s.status.outcome) && now <= w.clock && CleanedUp(w)
      modifies this`w, this`broken
      ensures Inv(spec, w) && Onward(old(w), w) && CleanedUp(w)
      ensures ok ==> Retained(s.status, now)
      ensures broken >= old(broken) && (ok ==> broken == old(broken))
      ensures !ok ==> broken > old(broken)
    {
      if s.status.completedAt.None? {
        assert false;
      }
      if now < s.status.completedAt.value + spec.ttl * SECOND { return true; }
      ok := Meanwhile();
      if !ok { return; }
      RetiringKeepsInv(spec, w, s.status);
      w := WithScannerDeleted(w.(retired := Some(s.status)));
    }

    /** A terminal Scanner whose retention is over is gone or going. */
    predicate Retained(status: Status, now: Time)
      reads this`w
    {
      status.completedAt.Some? && status.completedAt.value + spec.ttl * SECOND <= now ==>
        w.scanner.None? || w.scanner.value.deleting
    }

    method ReconcileDeletion(s: Scanner) returns (ok: bool)
      requires Inv(spec, w) && w.scanner == Some(s) && s.deleting
      modifies this`w, this`broken
      ensures Inv(spec, w) && Onward(old(w), w)
      ensures ok ==> w.scanner.None? || (OwnJob(w) && w.job.value.deleting && !w.job.value.protected)
      ensures broken >= old(broken) && (ok ==> broken == old(broken))
      ensures !ok ==> broken > old(broken)
    {
      ok := RequestJobDeletion();
      if !ok { return; }
      ok := ReleaseJobFinalizer(s);
      if !ok { return; }
      ok := Meanwhile();
      if !ok { return; }
      if OwnJob(w) { return true; }
      ok := Meanwhile();
      if !ok { return; }
      LettingGoKeepsInv(spec, w);
      w := w.(scanner := None);
    }

    /** Ends the scan with a verdict, then cleans up. */
    method Conclude(s: Scanner, outcome: Outcome, reason: Reason, refused: bool, when: Time, now: Time)
      returns (ok: bool)
      requires Inv(spec, w) && Tracks(w, s) && !Terminal(s.status.outcome) && Terminal(outcome)
      requires Truthful(spec, w, Verdict(s.status, outcome, reason, refused, when)) && now <= w.clock
      modifies this`w, this`broken
      ensures Inv(spec, w) && Onward(old(w), w)
      ensures ok && w.scanner.Some? ==> w.scanner.value.status == Verdict(s.status, outcome, reason, refused, when)
      ensures ok ==> CleanedUp(w)
      ensures broken >= old(broken) && (ok ==> broken == old(broken))
      ensures !ok ==> broken > old(broken)
    {
      var s': Scanner;
      ok, s' := PatchStatus(s, Verdict(s.status, outcome, reason, refused, when));
      if !ok { return; }
      ok := ReconcileTerminal(s', now);
    }

    /** Shows the Job's phase or finish, and cleans up after a finish. */
    method Reflect(s: Scanner, job: Job, now: Time) returns (ok: bool)
      requires Inv(spec, w) && Tracks(w, s) && !Terminal(s.status.outcome) && now <= w.clock
      requires Truthful(spec, w, Reflected(s.status, job, now)) && Settles(s.status, Reflected(s.status, job, now))
      requires job.Finished() <==> Terminal(Reflected(s.status, job, now).outcome)
      modifies this`w, this`broken
      ensures Inv(spec, w) && Onward(old(w), w)
      ensures ok && w.scanner.Some? ==> w.scanner.value.status == Reflected(s.status, job, now)
      ensures ok ==> CleanedUp(w)
      ensures broken >= old(broken) && (ok ==> broken == old(broken))
      ensures !ok ==> broken > old(broken)
    {
      var s': Scanner;
      ok, s' := PatchStatus(s, Reflected(s.status, job, now));
      if !ok { return; }
      if job.Finished() {
        ok := ReconcileTerminal(s', now);
      }
    }

    /** The Job exists, or has just been created. */
    method ReconcileJob(s: Scanner, job: Job, notAfter: Time, now: Time) returns (ok: bool)
      requires Inv(spec, w) && Tracks(w, s) && !Terminal(s.status.outcome) && !w.released
      requires DeadlinesValid(spec) && notAfter == spec.notAfter.value && now <= w.clock && w.job == Some(job)
      modifies this`w, this`broken
      ensures Inv(spec, w) && Onward(old(w), w)
      ensures ok ==> CleanedUp(w)
      ensures ok && w.scanner.Some? ==> Judged(w.scanner.value.status, job, notAfter, now)
      ensures broken >= old(broken) && (ok ==> broken == old(broken))
      ensures !ok ==> broken > old(broken)
    {
      if !job.owned {
        ok := Conclude(s, Failed, JobNameCollision, false, now, now);
      } else if now >= notAfter && !job.Finished() {
        ok := RequestJobDeletion();
        if !ok { return; }
        ok := Conclude(s, Expired, CutoffElapsed, false, now, now);
      } else if job.deleting && !job.Finished() {
        ok := Conclude(s, Failed, JobDeleted, false, now, now);
      } else {
        ReflectedIsTruthful(spec, w, s.status, job, now);
        ReflectedIsJudged(s.status, job, notAfter, now);
        ok := Reflect(s, job, now);
      }
    }

    /** Creates the Job, or finds the one that has taken the name in the meantime. */
    method CreateJob(s: Scanner, now: Time, budget: nat) returns (ok: bool)
      requires Inv(spec, w) && Tracks(w, s) && !Terminal(s.status.outcome) && !w.released
      requires InTime(spec, Creation(now, budget)) && now <= w.clock
      modifies this`w, this`broken
      ensures Inv(spec, w) && Onward(old(w), w) && Tracks(w, s) && !w.released
      ensures ok ==> w.job.Some?
      ensures w.creations != old(w).creations ==>
                && w.creations == old(w).creations + [Creation(now, budget)]
                && w.job == Some(Job(true, true, false, false, false, None, NotTrue, NotTrue))
      ensures broken >= old(broken) && (ok ==> broken == old(broken))
      ensures !ok ==> broken > old(broken) || w.past.contested
    {
      ok := Meanwhile();
      if !ok { return; }
      if w.job.None? {
        w := w.(job := Some(Job(true, true, false, false, false, None, NotTrue, NotTrue)),
                creations := w.creations + [Creation(now, budget)]);
      } else {
        ok := Meanwhile();
        if !ok { return; }
        ok := w.job.Some?;
      }
    }

    /** A Scanner that is neither terminal nor being deleted when it is read. */
    method ReconcileActive(s: Scanner, now: Time) returns (ok: bool)
      requires Inv(spec, w) && Tracks(w, s) && !Terminal(s.status.outcome) && !w.released
      requires now <= w.clock && (s.cancel ==> w.past.cancelled)
      modifies this`w, this`broken
      ensures Inv(spec, w) && Onward(old(w), w)
      ensures ok ==> CleanedUp(w)
      ensures ok && s.cancel && w.scanner.Some? ==> w.scanner.value.status.ready == Some(CancelRequested)
      ensures ok && !s.cancel && Undeadlined(spec) && w.scanner.Some? ==>
                w.scanner.value.status.ready == Some(InvalidRequest)
      ensures ok ==> Underway(w)
      ensures broken >= old(broken) && (ok ==> broken == old(broken))
      ensures !ok ==> broken > old(broken) || w.past.contested
    {
      if s.cancel {
        ok := RequestJobDeletion();
        if !ok { return; }
        ok := Conclude(s, Cancelled, CancelRequested, true, now, now);
        return;
      }
      if !DeadlinesValid(spec) {
        ok := Conclude(s, Failed, InvalidRequest, true, now, now);
        return;
      }
      ok := Meanwhile();
      if !ok { return; }
      if w.job.None? {
        ok := StartJob(s, now);
      } else {
        ok := ReconcileJob(s, w.job.value, spec.notAfter.value, now);
      }
    }

    /** No Job has the name: create it if there is time and the request is valid. */
    method StartJob(s: Scanner, now: Time) returns (ok: bool)
      requires Inv(spec, w) && Tracks(w, s) && !Terminal(s.status.outcome) && !w.released
      requires DeadlinesValid(spec) && now <= w.clock && w.job.None?
      modifies this`w, this`broken
      ensures Inv(spec, w) && Onward(old(w), w)
      ensures ok ==> CleanedUp(w) && Underway(w)
      ensures ok && spec.notAfter.value <= now && w.scanner.Some? ==>
                w.scanner.value.status.ready == Some(CutoffElapsed) && w.scanner.value.status.accepted == Some(false)
      ensures ok && now < spec.notAfter.value && Unfit(spec, now) && w.scanner.Some? ==>
                w.scanner.value.status.ready == Some(InvalidRequest)
      ensures broken >= old(broken) && (ok ==> broken == old(broken))
      ensures !ok ==> broken > old(broken) || w.past.contested
    {
      var notAfter := spec.notAfter.value;
      if JobWasCreated(s.status) {
        assert false;
      }
      if now >= notAfter {
        ok := Conclude(s, Expired, CutoffElapsed, true, now, now);
        return;
      }
      var budget := ActiveDeadline(notAfter, now);
      if !spec.valid || budget.None? {
        ok := Conclude(s, Failed, InvalidRequest, true, now, now);
        return;
      }
      ok := CreateJob(s, now, budget.value);
      if !ok { return; }
      ok := ReconcileJob(s, w.job.value, notAfter, now);
    }

    /** A pass that comes through leaves a Scanner that had the finalizer with its verdict or its Job, or
        on its way out; the first pass places the finalizer. */
    method Reconcile() returns (ok: bool)
      requires Inv(spec, w)
      modifies this`w, this`broken
      ensures Inv(spec, w) && Onward(old(w), w)
      ensures ok ==> CleanedUp(w)
      ensures ok && w.scanner.Some? ==> w.scanner.value.finalizer
      ensures ok && old(w).scanner.Some? && old(w).scanner.value.finalizer ==>
                Underway(w) || w.scanner.value.deleting
      ensures broken >= old(broken) && (ok ==> broken == old(broken))
      ensures !ok ==> broken > old(broken) || w.past.contested
    {
      ok := Meanwhile();
      if !ok || w.scanner.None? { return; }
      var s := w.scanner.value;
      var now := w.clock;
      if s.deleting {
        ok := ReconcileDeletion(s);
      } else if !s.finalizer {
        ok := Meanwhile();
        if !ok { return; }
        if w.scanner.None? {
          broken := broken + 1;
          return false;
        }
        w := w.(scanner := Some(w.scanner.value.(finalizer := true)));
      } else if Terminal(s.status.outcome) {
        ok := ReconcileTerminal(s, now);
      } else {
        ok := ReconcileActive(s, now);
      }
    }

    /** The life of a Scanner: any number of reconciles, each of which may break off at any API call. */
    method Live(passes: nat)
      requires Inv(spec, w)
      modifies this`w, this`broken
      ensures Inv(spec, w) && Onward(old(w), w)
    {
      ghost var start := w;
      for i := 0 to passes
        invariant Inv(spec, w) && Onward(start, w)
      {
        var ok := Reconcile();
      }
    }
  }

  /** Two moments in the life of any Scanner, whatever happens between any two API calls: at most one Job
      was created, in time and with the longest budget that fits; the Scanner does not disappear before its
      Job, and only if others deleted it or its retention is over; a terminal status is final, complete and
      never "job missing". */
  method Life(spec: Spec, cancel: bool, clock: Time, other: Option<Job>, passes: nat, more: nat)
    returns (earlier: World, later: World)
    ensures |later.creations| <= 1 && (OwnJob(later) ==> later.scanner.Some?)
    ensures later.creations != [] ==> InTime(spec, later.creations[0])
    ensures later.scanner.None? ==>
              || later.past.unwanted
              || (later.retired.Some? && Terminal(later.retired.value.outcome)
                  && later.retired.value.completedAt.Some?
                  && later.retired.value.completedAt.value + spec.ttl * SECOND <= later.clock)
    ensures later.scanner.Some? && Terminal(later.scanner.value.status.outcome) ==>
              later.scanner.value.status.completedAt.Some? && later.scanner.value.status.ready != Some(JobMissing)
    ensures earlier.scanner.Some? && Terminal(earlier.scanner.value.status.outcome) && later.scanner.Some? ==>
              later.scanner.value.status == earlier.scanner.value.status
    ensures earlier.scanner.None? ==> later.scanner.None?
  {
    var r := new Reconciler(spec, cancel, clock, other);
    r.Live(passes);
    earlier := r.w;
    r.Live(more);
    later := r.w;
  }
}
