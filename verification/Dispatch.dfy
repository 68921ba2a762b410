/** Processing one target event: claim it, check ownership, cancel superseded Scanners, check again, and
    create the Scanner or record why not. Every dependency may fail or answer anything at each call. */
module Dispatch {
  import opened Base
  import opened Claims

  // ---------------------------------------------------------------- ownership decisions

  datatype ReplyState = IsActive | IsStale | IsMoved | IsInactive | IsUnknown

  /** An answer of the ownership service. `malformed`: the generation it names is not a number. */
  datatype Reply = Reply(
    state: ReplyState,
    current: Option<int>,
    malformed: bool,
    requested: Option<int>,
    policyOrLifecycle: bool)

  datatype Decision = ToDispatch | ToStale | ToCancel | ToRetry

  datatype Check = Check(decision: Decision, current: Option<int>, policyOrLifecycle: bool)

  function ClassifyVerdict(reply: Reply, generation: int): Check {
    var doubtful := (reply.requested.Some? && reply.requested.value != generation)
                    || (reply.current.Some? && (reply.malformed || reply.current.value < 1));
    var state := if doubtful then IsUnknown else reply.state;
    var current := if doubtful then None else reply.current;
    var decision := match state
      case IsActive =>
        if current.None? || current.value == generation then ToDispatch
        else if current.value > generation then ToStale
        else ToRetry
      case IsStale => ToStale
      case IsMoved => ToCancel
      case IsInactive => ToCancel
      case IsUnknown => ToRetry;
    Check(decision, current, reply.policyOrLifecycle)
  }

  /** The reply is about this request and any generation it names is a proper one. */
  predicate Credible(reply: Reply, generation: int) {
    && (reply.requested.None? || reply.requested.value == generation)
    && (reply.current.None? || (!reply.malformed && reply.current.value >= 1))
  }

  /** Fail closed: only a credible "active" that does not name another generation dispatches, only a
      credible proof of the contrary cancels, and everything doubtful is retried. */
  lemma OnlyProofDecides(reply: Reply, generation: int)
    ensures var check := ClassifyVerdict(reply, generation);
            && check.policyOrLifecycle == reply.policyOrLifecycle
            && check.current == (if Credible(reply, generation) then reply.current else None)
    ensures var decision := ClassifyVerdict(reply, generation).decision;
            && (decision.ToDispatch? <==> Credible(reply, generation) && reply.state.IsActive?
                                          && (reply.current.None? || reply.current.value == generation))
            && (decision.ToCancel? <==>
                  Credible(reply, generation) && (reply.state.IsMoved? || reply.state.IsInactive?))
            && (decision.ToStale? <==> Credible(reply, generation)
                                       && (reply.state.IsStale? || (reply.state.IsActive? && reply.current.Some?
                                                                    && reply.current.value > generation)))
  {
  }

  // ---------------------------------------------------------------- Scanners

  datatype Name = Name(text: Id)

  /** A Scanner in the cluster; None: its generation is missing or invalid. */
  datatype Resource = Resource(target: Id, generation: Option<int>)

  predicate SameTarget(r: Resource, target: Id) { r.target == target }

  predicate Superseded(r: Resource, target: Id, below: int) {
    SameTarget(r, target) && r.generation.Some? && r.generation.value < below
  }

  predicate Distinct(names: seq<Name>) {
    forall i, j :: 0 <= i < j < |names| ==> names[i] != names[j]
  }

  /** Some Scanner of the target has no valid generation. */
  predicate Unreadable(scanners: map<Name, Resource>, target: Id) {
    exists n :: n in scanners && SameTarget(scanners[n], target) && scanners[n].generation.None?
  }

  function Cancellable(scanners: map<Name, Resource>, target: Id, below: int, spared: set<Name>): set<Name> {
    set n | n in scanners && Superseded(scanners[n], target, below) && n !in spared
  }

  /** Nothing is gone but some of the given, and nothing is new or changed. */
  predicate OnlyWithout(before: map<Name, Resource>, after: map<Name, Resource>, some: set<Name>) {
    && (forall n :: n in after ==> n in before && after[n] == before[n])
    && (forall n :: n in before && n !in after ==> n in some)
  }

  class ScannerClient {
    var scanners: map<Name, Resource>
    ghost var faults: nat     // calls that failed

    constructor (scanners: map<Name, Resource>)
      ensures this.scanners == scanners && faults == 0
    {
      this.scanners, faults := scanners, 0;
    }

    /** Every Scanner, with its name, in some order; the caller compares labels itself. */
    method List() returns (found: seq<(Name, Resource)>)
      ensures forall i :: 0 <= i < |found| ==> found[i].0 in scanners && scanners[found[i].0] == found[i].1
      ensures forall i, j :: 0 <= i < j < |found| ==> found[i].0 != found[j].0
      ensures forall n :: n in scanners ==> (n, scanners[n]) in found
    {
      found := [];
      var items := scanners.Items;
      while items != {}
        invariant items <= scanners.Items
        invariant forall i :: 0 <= i < |found| ==> found[i].0 in scanners && scanners[found[i].0] == found[i].1
        invariant forall i :: 0 <= i < |found| ==> found[i] !in items
        invariant forall i, j :: 0 <= i < j < |found| ==> found[i].0 != found[j].0
        invariant forall n :: n in scanners ==> (n, scanners[n]) in found || (n, scanners[n]) in items
      {
        var item :| item in items;
        assert item in scanners.Items;
        items := items - {item};
        found := found + [item];
      }
    }

    /** Answers whether there was something to delete; may fail. */
    method Delete(name: Name) returns (ok: bool, deleted: bool)
      modifies this
      ensures if ok then scanners == old(scanners) - {name} && deleted == (name in old(scanners))
              else scanners == old(scanners) && !deleted
      ensures faults == old(faults) + if ok then 0 else 1
    {
      ok, deleted := *, false;
      if ok {
        deleted := name in scanners;
        scanners := scanners - {name};
      } else {
        faults := faults + 1;
      }
    }

    /** The names to delete; fails if some Scanner of the target has no valid generation. */
    method Candidates(target: Id, below: int, spared: set<Name>) returns (ok: bool, names: seq<Name>)
      ensures ok <==> forall n :: n in scanners && SameTarget(scanners[n], target) ==> scanners[n].generation.Some?
      ensures ok ==> Distinct(names) && forall n :: n in names <==> n in Cancellable(scanners, target, below, spared)
    {
      names := [];
      var found := List();
      for i := 0 to |found|
        invariant forall k :: 0 <= k < i && SameTarget(found[k].1, target) ==> found[k].1.generation.Some?
        invariant forall n :: n in names <==>
                    exists k :: 0 <= k < i && found[k].0 == n && Superseded(found[k].1, target, below) && n !in spared
        invariant Distinct(names)
      {
        var name, resource := found[i].0, found[i].1;
        assert name !in names;
        if !SameTarget(resource, target) { continue; }
        if resource.generation.None? { return false, names; }
        if resource.generation.value < below && name !in spared { names := names + [name]; }
      }
      forall n | n in scanners ensures exists k :: 0 <= k < |found| && found[k] == (n, scanners[n]) {
        assert (n, scanners[n]) in found;
      }
      ok := true;
    }

    method DeleteAll(names: seq<Name>) returns (ok: bool, deleted: nat)
      requires Distinct(names) && forall n :: n in names ==> n in scanners
      modifies this
      ensures ok ==> scanners == old(scanners) - Members(names)
      ensures OnlyWithout(old(scanners), scanners, Members(names))
      ensures deleted == |old(scanners)| - |scanners|
      ensures faults >= old(faults) && (ok <==> faults == old(faults))
    {
      deleted := 0;
      ghost var before := scanners;
      for i := 0 to |names|
        invariant forall n :: n in scanners <==> n in before && n !in names[..i]
        invariant forall n :: n in scanners ==> scanners[n] == before[n]
        invariant deleted == |before| - |scanners| && faults == old(faults)
      {
        assert names[..i + 1] == names[..i] + [names[i]];
        RemovingShrinks(scanners, names[i]);
        var gone: bool;
        ok, gone := Delete(names[i]);
        if !ok { return; }
        deleted := deleted + if gone then 1 else 0;
      }
      assert names[..|names|] == names;
      ok := true;
    }

    /** First looks at all Scanners of the target, then deletes those of a generation below the bound. One
        invalid generation among them stops it before anything is deleted. */
    method CancelMatching(target: Id, below: int, spared: set<Name>) returns (ok: bool, deleted: nat)
      modifies this
      ensures ok ==> scanners == old(scanners) - Cancellable(old(scanners), target, below, spared)
      ensures OnlyWithout(old(scanners), scanners, Cancellable(old(scanners), target, below, spared))
      ensures deleted == |old(scanners)| - |scanners|
      ensures Unreadable(old(scanners), target) ==> !ok && scanners == old(scanners)
      ensures faults >= old(faults) && (ok ==> faults == old(faults))
      ensures !ok ==> faults > old(faults) || Unreadable(old(scanners), target)
    {
      var names: seq<Name>;
      ok, names := Candidates(target, below, spared);
      if !ok { return false, 0; }
      SameMembers(Members(names), Cancellable(scanners, target, below, spared));
      ok, deleted := DeleteAll(names);
    }

    static lemma SameMembers(a: set<Name>, b: set<Name>)
      requires forall n :: n in a <==> n in b
      ensures a == b
    {
    }

    static lemma RemovingShrinks(scanners: map<Name, Resource>, n: Name)
      requires n in scanners
      ensures |scanners - {n}| == |scanners| - 1
    {
    }
  }

  // ---------------------------------------------------------------- one run of the handler

  /** `name` is the Scanner name derived from the event id. Removals have no deadlines and no scan. */
  datatype Event = Event(
    name: Name,
    target: Id,
    generation: int,
    removal: bool,
    inScope: bool,
    deadline: Time,
    notAfter: Time,
    buildable: bool)

  /** What the handler did and was told, in order. Creating and Recording are entered before the call,
      the others after it returned. */
  datatype Step =
    | TookClaim
    | Checked(check: Check)
    | CancelledOlder
    | DeletedOwn
    | ReadClock(at: Time)
    | Creating
    | CreateReturned
    | Recording(state: ClaimState)

  function LastCheck(journal: seq<Step>): Option<Check> {
    if journal == [] then None
    else
      var last := journal[|journal| - 1];
      if last.Checked? then Some(last.check) else LastCheck(journal[..|journal| - 1])
  }

  predicate SaidDispatch(step: Step) { step.Checked? && step.check.decision.ToDispatch? }

  /** Create is called at most once: with the claim, in scope, after two checks that said "dispatch" with
      the cancellation between them, and right after a clock reading before both deadlines. "Dispatched"
      is recorded only right after create returned; any other terminal state only after the deletion of
      the event's own Scanner, and for the reason that it names. */
  predicate Justified(journal: seq<Step>, i: nat, e: Event)
    requires i < |journal|
  {
    match journal[i]
    case Creating =>
      && i == 5 && e.inScope && !e.removal
      && journal[0] == TookClaim && SaidDispatch(journal[1]) && journal[2] == CancelledOlder && SaidDispatch(journal[3])
      && journal[4].ReadClock? && journal[4].at < e.deadline && journal[4].at < e.notAfter
    case CreateReturned => i == 6 && journal[5].Creating?
    case Recording(state) =>
      && e.inScope && journal[0] == TookClaim
      && (if state.Dispatched? then i == 7 && journal[6].CreateReturned?
          else DeletedOwn in journal[..i] && Reasoned(journal[..i], state, e))
    case _ => true
  }

  predicate Reasoned(journal: seq<Step>, state: ClaimState, e: Event) {
    match state
    case Removed => e.removal && LastCheck(journal).Some? && !LastCheck(journal).value.decision.ToRetry?
    case Stale => !e.removal && LastCheck(journal).Some? && LastCheck(journal).value.decision.ToStale?
    case Cancelled => !e.removal && LastCheck(journal).Some? && LastCheck(journal).value.decision.ToCancel?
    case Expired =>
      !e.removal && |journal| >= 2 && journal[|journal| - 2].ReadClock?
      && (journal[|journal| - 2].at >= e.deadline || journal[|journal| - 2].at >= e.notAfter)
    case _ => false
  }

  predicate Safe(journal: seq<Step>, e: Event) {
    forall i {:trigger Justified(journal, i, e)} :: 0 <= i < |journal| ==> Justified(journal, i, e)
  }

  lemma Noted(journal: seq<Step>, step: Step, e: Event)
    requires Safe(journal, e) && Justified(journal + [step], |journal|, e)
    ensures Safe(journal + [step], e)
  {
    var longer := journal + [step];
    forall i | 0 <= i < |longer| ensures Justified(longer, i, e) {
      if i < |journal| {
        assert Justified(journal, i, e) && longer[..i] == journal[..i];
      }
    }
  }

  function Launched(scanners: map<Name, Resource>, e: Event): map<Name, Resource> {
    if e.name in scanners then scanners else scanners[e.name := Resource(e.target, Some(e.generation))]
  }

  /** Whether a terminal cancellation is also for this Scanner, other than the event's own: after a proof
      that the target is gone, or has moved on for policy or lifecycle, all through the event's generation;
      otherwise those below the event's or below the current generation that a "stale" named. */
  predicate Doomed(r: Resource, e: Event, check: Check) {
    && SameTarget(r, e.target) && r.generation.Some?
    && if check.decision.ToCancel? || (check.decision.ToStale? && check.policyOrLifecycle) then
         r.generation.value <= e.generation
       else
         || r.generation.value < e.generation
         || (check.decision.ToStale? && check.current.Some? && r.generation.value < check.current.value)
  }

  predicate DoomedBy(r: Resource, e: Event, check: Option<Check>) { check.Some? && Doomed(r, e, check.value) }

  /** A run deletes the event's own Scanner and such as its last check dooms, and adds only the event's own,
      by creating it. */
  predicate OnlyOwn(before: map<Name, Resource>, after: map<Name, Resource>, e: Event, created: bool,
                    check: Option<Check>)
  {
    && (forall n :: n in after && n !in before ==> n == e.name && created)
    && (forall n :: n in after && n in before && n != e.name ==> after[n] == before[n])
    && (forall n :: n in before && n !in after ==> n == e.name || DoomedBy(before[n], e, check))
  }

  /** What an earlier check that said "dispatch" dooms, any check dooms. */
  lemma OnlyOwnTwice(a: map<Name, Resource>, b: map<Name, Resource>, c: map<Name, Resource>, e: Event, created: bool,
                     first: Check, second: Check)
    requires OnlyOwn(a, b, e, created, Some(first)) && OnlyOwn(b, c, e, created, Some(second))
    requires first.decision.ToDispatch?
    ensures OnlyOwn(a, c, e, created, Some(second))
  {
  }

  datatype Outcome = ScopeDenied | AlreadyDone | Done(state: ClaimState, cancelled: int) | Failed

  class Handler {
    const claims: ClaimStore
    const cluster: ScannerClient
    ghost var journal: seq<Step>
    ghost var faults: nat     // calls of others than the cluster that failed

    constructor (claims: ClaimStore, cluster: ScannerClient)
      ensures this.claims == claims && this.cluster == cluster && journal == [] && faults == 0
    {
      this.claims, this.cluster, journal, faults := claims, cluster, [], 0;
    }

    method Note(ghost step: Step, ghost e: Event)
      requires Safe(journal, e) && Justified(journal + [step], |journal|, e)
      modifies this`journal
      ensures journal == old(journal) + [step] && Safe(journal, e)
      ensures LastCheck(journal) == if step.Checked? then Some(step.check) else LastCheck(old(journal))
    {
      Noted(journal, step, e);
      assert (journal + [step])[..|journal|] == journal;
      journal := journal + [step];
    }

    /** Gives the claim back unless that call fails; the record itself is retried in any case. */
    method RetryClaim(owner: Id) returns (outcome: Outcome)
      requires claims.Valid()
      modifies claims`w, this`faults
      ensures claims.Valid() && outcome == Failed && old(claims.w).log <= claims.w.log
      ensures faults >= old(faults) && GaveBack(owner, old(faults))
    {
      var reachable: bool := *;
      if reachable {
        var marked := claims.MarkRetryable(owner);
      } else {
        faults := faults + 1;
      }
      return Failed;
    }

    ghost predicate GaveBack(owner: Id, faults0: nat)
      reads this, claims
    {
      OwnedBy(claims.w, owner) ==> faults > faults0
    }

    method Revalidate(e: Event) returns (ok: bool, check: Check)
      requires Safe(journal, e)
      modifies this`journal, this`faults
      ensures Safe(journal, e) && journal == old(journal) + if ok then [Checked(check)] else []
      ensures faults == old(faults) + if ok then 0 else 1
    {
      var reply: Reply := *;
      ok, check := *, ClassifyVerdict(reply, e.generation);
      if ok { Note(Checked(check), e); } else { faults := faults + 1; }
    }

    /** The event's own Scanner is gone, and so are those that the check dooms. */
    predicate Cleared(e: Event, check: Check) reads cluster {
      && e.name !in cluster.scanners
      && forall n :: n in cluster.scanners ==> !Doomed(cluster.scanners[n], e, check)
    }

    method CancelTerminal(e: Event, check: Check) returns (ok: bool, deleted: nat)
      requires Safe(journal, e) && e.generation >= 1
      modifies this`journal, cluster
      ensures Safe(journal, e)
      ensures journal == old(journal) || journal == old(journal) + [DeletedOwn]
      ensures deleted == |old(cluster.scanners)| - |cluster.scanners|
      ensures ok ==> journal != old(journal) && Cleared(e, check)
      ensures OnlyOwn(old(cluster.scanners), cluster.scanners, e, false, Some(check))
      ensures cluster.faults >= old(cluster.faults) && (ok ==> cluster.faults == old(cluster.faults))
      ensures !ok ==> cluster.faults > old(cluster.faults) || Unreadable(old(cluster.scanners), e.target)
    {
      ghost var before := cluster.scanners;
      var exact: bool;
      ok, exact := cluster.Delete(e.name);
      if exact { cluster.RemovingShrinks(before, e.name); }
      if !ok { return false, 0; }
      Note(DeletedOwn, e);
      ghost var middle := cluster.scanners;
      var through := check.decision.ToCancel? || (check.decision.ToStale? && check.policyOrLifecycle);
      var below := if through then e.generation + 1
                   else if check.decision.ToStale? && check.current.Some? && check.current.value > e.generation then
                     check.current.value
                   else e.generation;
      ok, deleted := cluster.CancelMatching(e.target, below, {e.name});
      deleted := deleted + if exact then 1 else 0;
      assert forall r :: Superseded(r, e.target, below) <==> Doomed(r, e, check);
      DeletedAreDoomed(before, middle, cluster.scanners, e, check, ok);
    }

    static lemma DeletedAreDoomed(before: map<Name, Resource>, middle: map<Name, Resource>,
                                  after: map<Name, Resource>, e: Event, check: Check, all: bool)
      requires middle == before - {e.name}
      requires forall n :: n in middle && n !in after ==> Doomed(middle[n], e, check)
      requires forall n :: n in after ==> n in middle && after[n] == middle[n] && (all ==> !Doomed(middle[n], e, check))
      ensures OnlyOwn(before, after, e, false, Some(check))
      ensures all ==> e.name !in after && forall n :: n in after ==> !Doomed(after[n], e, check)
      ensures Unreadable(middle, e.target) ==> Unreadable(before, e.target)
    {
    }

    /** No call failed. */
    ghost predicate Faultless(clusterFaults: nat, faults0: nat)
      reads this, cluster
    {
      cluster.faults == clusterFaults && faults == faults0
    }

    /** Why a record is retried: a call failed, a Scanner of the target is unreadable, no Scanner can be
        built, or the last check was in doubt. */
    ghost predicate Excused(e: Event, before: map<Name, Resource>, clusterFaults: nat, faults0: nat)
      reads this, cluster
    {
      || cluster.faults > clusterFaults || faults > faults0 || Unreadable(before, e.target) || !e.buildable
      || (LastCheck(journal).Some? && LastCheck(journal).value.decision.ToRetry?)
    }

    /** Cleans up, then records the terminal state; `cancelled` Scanners were deleted earlier in the run. */
    method Conclude(e: Event, owner: Id, state: ClaimState, check: Check, cancelled: nat) returns (outcome: Outcome)
      requires claims.Valid() && claims.w.item.Some? && e.generation >= 1 && e.inScope
      requires Safe(journal, e) && journal != [] && journal[0] == TookClaim
      requires LastCheck(journal) == Some(check) && Reasoned(journal, state, e) && !state.Expired?
      modifies this`journal, this`faults, cluster, claims`w, claims`completed
      ensures claims.Valid() && Safe(journal, e) && LastCheck(journal) == Some(check)
      ensures outcome.Done? ==>
                && outcome == Done(state, cancelled + |old(cluster.scanners)| - |cluster.scanners|)
                && claims.w.item.Some? && claims.w.item.value.state == state && Cleared(e, check)
      ensures outcome.Done? || outcome.Failed?
      ensures OnlyOwn(old(cluster.scanners), cluster.scanners, e, false, Some(check))
      ensures Creating in journal ==> Creating in old(journal)
      ensures cluster.faults >= old(cluster.faults) && faults >= old(faults)
      ensures outcome.Done? ==> Faultless(old(cluster.faults), old(faults))
      ensures outcome.Failed? ==>
                Excused(e, old(cluster.scanners), old(cluster.faults), old(faults))
      ensures outcome.Failed? ==> GaveBack(owner, old(faults))
    {
      var ok, deleted := CancelTerminal(e, check);
      if !ok {
        outcome := RetryClaim(owner);
        return;
      }
      outcome := Record(e, owner, state, cancelled + deleted);
    }

    method Record(e: Event, owner: Id, state: ClaimState, cancelled: int) returns (outcome: Outcome)
      requires claims.Valid() && claims.w.item.Some? && Terminal(state)
      requires Safe(journal, e) && Justified(journal + [Recording(state)], |journal|, e)
      modifies this`journal, this`faults, claims`w, claims`completed
      ensures claims.Valid() && Safe(journal, e) && journal == old(journal) + [Recording(state)]
      ensures outcome.Done? ==>
                outcome == Done(state, cancelled) && claims.w.item.Some? && claims.w.item.value.state == state
      ensures outcome.Done? || outcome.Failed?
      ensures if outcome.Done? then faults == old(faults) else faults > old(faults)
    {
      Note(Recording(state), e);
      var reachable: bool := *;
      if !reachable {
        faults := faults + 1;
        outcome := RetryClaim(owner);
        return;
      }
      var completion := claims.Complete(owner, state);
      if completion.Lost? {
        faults := faults + 1;
        outcome := RetryClaim(owner);
        return;
      }
      outcome := Done(state, cancelled);
    }

    /** After a dispatch the superseded Scanners are gone and were counted, and the event's own is there. */
    static predicate MadeRoom(before: map<Name, Resource>, after: map<Name, Resource>, e: Event, cancelled: int) {
      && after.Keys == before.Keys - Cancellable(before, e.target, e.generation, {}) + {e.name}
      && after[e.name] == (if e.name in before && !Superseded(before[e.name], e.target, e.generation) then
                             before[e.name] else Resource(e.target, Some(e.generation)))
      && cancelled == |Cancellable(before, e.target, e.generation, {})|
    }

    /** The Scanners left are as the outcome says, and the count is the number deleted on the way. */
    ghost predicate CountsCancelled(before: map<Name, Resource>, e: Event, outcome: Outcome)
      requires outcome.Done?
      reads this, cluster
    {
      if outcome.state.Dispatched? then MadeRoom(before, cluster.scanners, e, outcome.cancelled)
      else
        && LastCheck(journal).Some? && Cleared(e, LastCheck(journal).value)
        && outcome.cancelled == |before| - |cluster.scanners|
    }

    static lemma LaunchingMakesRoom(before: map<Name, Resource>, middle: map<Name, Resource>, e: Event)
      requires middle == before - Cancellable(before, e.target, e.generation, {})
      ensures MadeRoom(before, Launched(middle, e), e, |before| - |middle|)
    {
      RemovingCounts(before, Cancellable(before, e.target, e.generation, {}));
    }

    static lemma RemovingCounts(scanners: map<Name, Resource>, gone: set<Name>)
      requires gone <= scanners.Keys
      ensures |scanners - gone| == |scanners| - |gone|
    {
      assert (scanners - gone).Keys == scanners.Keys - gone;
      assert |(scanners - gone).Keys| == |scanners - gone| && |scanners.Keys| == |scanners|;
    }

    /** Deletes the superseded Scanners of the target. */
    method MakeRoom(e: Event, ghost first: Check) returns (ok: bool, cancelled: nat)
      requires first.decision.ToDispatch?
      modifies cluster
      ensures OnlyOwn(old(cluster.scanners), cluster.scanners, e, false, Some(first))
      ensures cancelled == |old(cluster.scanners)| - |cluster.scanners|
      ensures ok ==> cluster.scanners
                     == old(cluster.scanners) - Cancellable(old(cluster.scanners), e.target, e.generation, {})
      ensures cluster.faults >= old(cluster.faults) && (ok ==> cluster.faults == old(cluster.faults))
      ensures !ok ==> cluster.faults > old(cluster.faults) || Unreadable(old(cluster.scanners), e.target)
    {
      ok, cancelled := cluster.CancelMatching(e.target, e.generation, {});
    }

    /** The event survived the first check: make room, check again, look at the clock, create. */
    method DispatchScanner(e: Event, owner: Id, ghost first: Check) returns (outcome: Outcome)
      requires claims.Valid() && claims.w.item.Some? && e.generation >= 1 && e.inScope && !e.removal
      requires journal == [TookClaim, Checked(first)] && first.decision.ToDispatch? && Safe(journal, e)
      modifies this`journal, this`faults, cluster, claims`w, claims`completed
      ensures claims.Valid() && Safe(journal, e) && LastCheck(journal).Some?
      ensures outcome.Done? ==>
                && claims.w.item.Some? && claims.w.item.value.state == outcome.state
                && CountsCancelled(old(cluster.scanners), e, outcome)
      ensures outcome.Failed? || (outcome.Done? && !outcome.state.Removed?)
      ensures OnlyOwn(old(cluster.scanners), cluster.scanners, e, Creating in journal, LastCheck(journal))
      ensures outcome.Failed? ==> Excused(e, old(cluster.scanners), old(cluster.faults), old(faults))
      ensures outcome.Failed? ==> GaveBack(owner, old(faults))
      ensures outcome.Done? ==> Faultless(old(cluster.faults), old(faults))
    {
      ghost var before := cluster.scanners;
      assert LastCheck(journal) == Some(first);
      var ok, cancelled := MakeRoom(e, first);
      if !ok || !e.buildable {
        outcome := RetryClaim(owner);
        return;
      }
      Note(CancelledOlder, e);
      ghost var middle := cluster.scanners;
      outcome := DispatchChecked(e, owner, cancelled, first);
      LaunchingMakesRoom(before, middle, e);
      ghost var last := LastCheck(journal).value;
      OnlyOwnTwice(before, middle, cluster.scanners, e, Creating in journal, first, last);
    }

    /** Older Scanners are gone: check again, look at the clock, create. */
    method DispatchChecked(e: Event, owner: Id, cancelled: nat, ghost first: Check) returns (outcome: Outcome)
      requires claims.Valid() && claims.w.item.Some? && e.generation >= 1 && e.inScope && !e.removal
      requires journal == [TookClaim, Checked(first), CancelledOlder] && first.decision.ToDispatch? && Safe(journal, e)
      requires forall n :: n in cluster.scanners ==> !Superseded(cluster.scanners[n], e.target, e.generation)
      requires LastCheck(journal) == Some(first)
      modifies this`journal, this`faults, cluster, claims`w, claims`completed
      ensures claims.Valid() && Safe(journal, e) && LastCheck(journal).Some?
      ensures outcome.Failed? || (outcome.Done? && !outcome.state.Removed?)
      ensures outcome.Done? ==>
                && claims.w.item.Some? && claims.w.item.value.state == outcome.state
                && (if outcome.state.Dispatched? then
                      cluster.scanners == Launched(old(cluster.scanners), e) && outcome.cancelled == cancelled
                    else
                      && Cleared(e, LastCheck(journal).value)
                      && outcome.cancelled == cancelled + |old(cluster.scanners)| - |cluster.scanners|)
      ensures OnlyOwn(old(cluster.scanners), cluster.scanners, e, Creating in journal, LastCheck(journal))
      ensures cluster.faults >= old(cluster.faults) && faults >= old(faults)
      ensures outcome.Done? ==> Faultless(old(cluster.faults), old(faults))
      ensures outcome.Failed? ==> Excused(e, old(cluster.scanners), old(cluster.faults), old(faults))
      ensures outcome.Failed? ==> GaveBack(owner, old(faults))
    {
      var ok, check := Revalidate(e);
      if !ok || check.decision.ToRetry? {
        outcome := RetryClaim(owner);
        return;
      }
      if !check.decision.ToDispatch? {
        outcome := Conclude(e, owner, if check.decision.ToStale? then Stale else Cancelled, check, cancelled);
        return;
      }
      var now: Time := *;
      Note(ReadClock(now), e);
      if now >= e.deadline || now >= e.notAfter {
        outcome := Expire(e, owner, check, cancelled);
      } else {
        outcome := Create(e, owner, check, cancelled);
      }
    }

    method Expire(e: Event, owner: Id, ghost check: Check, cancelled: nat) returns (outcome: Outcome)
      requires claims.Valid() && claims.w.item.Some? && e.inScope && !e.removal
      requires Safe(journal, e) && |journal| == 5 && journal[0] == TookClaim && journal[4].ReadClock?
      requires journal[4].at >= e.deadline || journal[4].at >= e.notAfter
      requires LastCheck(journal) == Some(check) && check.decision.ToDispatch?
      requires forall n :: n in cluster.scanners ==> !Superseded(cluster.scanners[n], e.target, e.generation)
      modifies this`journal, this`faults, cluster, claims`w, claims`completed
      ensures claims.Valid() && Safe(journal, e) && LastCheck(journal) == Some(check)
      ensures outcome.Done? ==>
                && outcome == Done(Expired, cancelled + |old(cluster.scanners)| - |cluster.scanners|)
                && claims.w.item.Some? && claims.w.item.value.state == Expired && Cleared(e, check)
      ensures outcome.Done? || outcome.Failed?
      ensures OnlyOwn(old(cluster.scanners), cluster.scanners, e, false, Some(check))
      ensures cluster.faults >= old(cluster.faults) && faults >= old(faults)
      ensures outcome.Done? ==> Faultless(old(cluster.faults), old(faults))
      ensures outcome.Failed? ==> cluster.faults > old(cluster.faults) || faults > old(faults)
      ensures outcome.Failed? ==> GaveBack(owner, old(faults))
    {
      ghost var before := cluster.scanners;
      var ok, exact := cluster.Delete(e.name);
      if !ok {
        outcome := RetryClaim(owner);
        return;
      }
      if exact { cluster.RemovingShrinks(before, e.name); }
      DeletedAreDoomed(before, cluster.scanners, cluster.scanners, e, check, true);
      Note(DeletedOwn, e);
      outcome := Record(e, owner, Expired, cancelled + if exact then 1 else 0);
    }

    /** Creation conflicts with an existing Scanner of that name are fine; a failed call may have taken
        effect all the same. */
    method Create(e: Event, owner: Id, ghost check: Check, cancelled: nat) returns (outcome: Outcome)
      requires claims.Valid() && claims.w.item.Some?
      requires Safe(journal, e) && |journal| == 5 && Justified(journal + [Creating], 5, e)
      requires LastCheck(journal) == Some(check)
      modifies this`journal, this`faults, cluster, claims`w, claims`completed
      ensures claims.Valid() && Safe(journal, e) && LastCheck(journal) == Some(check)
      ensures outcome.Done? ==>
                && outcome == Done(Dispatched, cancelled)
                && claims.w.item.Some? && claims.w.item.value.state == Dispatched
                && cluster.scanners == Launched(old(cluster.scanners), e)
      ensures outcome.Done? || outcome.Failed?
      ensures Creating in journal && OnlyOwn(old(cluster.scanners), cluster.scanners, e, true, Some(check))
      ensures cluster.faults == old(cluster.faults) && faults >= old(faults)
      ensures outcome.Done? ==> Faultless(old(cluster.faults), old(faults))
      ensures outcome.Failed? ==> faults > old(faults)
      ensures outcome.Failed? ==> GaveBack(owner, old(faults))
    {
      Note(Creating, e);
      var answered, applied: bool := *, *;
      if answered || applied { cluster.scanners := Launched(cluster.scanners, e); }
      if !answered {
        faults := faults + 1;
        outcome := RetryClaim(owner);
        return;
      }
      Note(CreateReturned, e);
      outcome := Record(e, owner, Dispatched, cancelled);
    }

    /** One SQS record, from the first clock reading to the outcome. */
    method ProcessRecord(e: Event, owner: Id, now: Time) returns (outcome: Outcome)
      requires claims.Valid() && e.generation >= 1 && journal == []
      modifies this`journal, this`faults, cluster, claims
      ensures claims.Valid() && Safe(journal, e)
      ensures outcome.ScopeDenied? <==> !e.inScope
      ensures outcome.ScopeDenied? || outcome.AlreadyDone? ==>
                journal == [] && cluster.scanners == old(cluster.scanners)
      ensures OnlyOwn(old(cluster.scanners), cluster.scanners, e, Creating in journal, LastCheck(journal))
      ensures !e.inScope ==> claims.w == old(claims.w)
      ensures outcome.AlreadyDone? ==> claims.w.item.Some? && Terminal(claims.w.item.value.state)
      ensures outcome.Done? ==>
                && claims.w.item.Some? && claims.w.item.value.state == outcome.state
                && (e.removal <==> outcome.state.Removed?)
                && CountsCancelled(old(cluster.scanners), e, outcome)
      ensures outcome.Failed? ==>
                if journal == [] then
                  || |claims.w.log| > |old(claims.w.log)|
                  || (claims.w.item.Some? && claims.w.item.value.state.Claimed?
                      && claims.w.item.value.lease.Some? && claims.w.item.value.lease.value > now)
                else Excused(e, old(cluster.scanners), old(cluster.faults), old(faults))
      ensures outcome.Failed? && journal != [] ==> GaveBack(owner, old(faults))
      ensures outcome.Done? ==> Faultless(old(cluster.faults), old(faults))
    {
      if !e.inScope { return ScopeDenied; }
      var acquired := claims.Acquire(owner, now);
      match acquired {
        case Duplicate(_) => return AlreadyDone;
        case Busy => return Failed;
        case Failure => return Failed;
        case Won(_) =>
      }
      Note(TookClaim, e);
      outcome := ProcessClaimed(e, owner);
    }

    /** The record is this run's to process. */
    method ProcessClaimed(e: Event, owner: Id) returns (outcome: Outcome)
      requires claims.Valid() && claims.w.item.Some? && e.generation >= 1 && e.inScope
      requires journal == [TookClaim] && Safe(journal, e)
      modifies this`journal, this`faults, cluster, claims`w, claims`completed
      ensures claims.Valid() && Safe(journal, e) && journal != []
      ensures outcome.Done? || outcome.Failed?
      ensures OnlyOwn(old(cluster.scanners), cluster.scanners, e, Creating in journal, LastCheck(journal))
      ensures outcome.Done? ==>
                && claims.w.item.Some? && claims.w.item.value.state == outcome.state
                && (e.removal <==> outcome.state.Removed?)
                && CountsCancelled(old(cluster.scanners), e, outcome)
      ensures outcome.Failed? ==>
                && Excused(e, old(cluster.scanners), old(cluster.faults), old(faults)) && GaveBack(owner, old(faults))
      ensures outcome.Done? ==> Faultless(old(cluster.faults), old(faults))
    {
      assert LastCheck(journal) == None by { assert journal[..0] == []; }
      var ok, check := Revalidate(e);
      if ok { assert LastCheck(journal) == Some(check); }
      if !ok || check.decision.ToRetry? {
        outcome := RetryClaim(owner);
      } else if e.removal {
        outcome := Conclude(e, owner, Removed, check, 0);
      } else if check.decision.ToStale? {
        outcome := Conclude(e, owner, Stale, check, 0);
      } else if check.decision.ToCancel? {
        outcome := Conclude(e, owner, Cancelled, check, 0);
      } else {
        outcome := DispatchScanner(e, owner, check);
      }
    }
  }
}
