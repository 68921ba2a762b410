/** The state table of one inventory target and its transactional outbox. Every actor reads, plans and
    then commits under a condition on the state it read; between the two anything may happen. A run is
    any sequence of commits, each planned from some state that was stored at some earlier time. */
module Inventory {
  import opened Base
  import C = ConfigOrder

  // ---------------------------------------------------------------- targets as observed

  /** Lifecycle documents always name an instance state, possibly "unknown". */
  const UNKNOWN: Id := 0

  datatype Lifecycle = Lifecycle(instance: Id, rest: Id)

  datatype Observed = Observed(
    publicIp: Id,
    instance: Id,
    lifecycle: Lifecycle,
    policy: Id,
    links: Id,                // attachment, allocation and association
    tags: set<Id>,
    ports: Id,                // the candidate ports
    canary: bool,
    details: Id,              // the names of the source event
    vector: C.Vector)         // security groups and the Config versions

  /** The source hashes exactly these parts. */
  datatype Signature = Signature(publicIp: Id, lifecycle: Lifecycle, groups: seq<Id>, policy: Id)

  function SignatureOf(t: Observed): Signature {
    Signature(t.publicIp, t.lifecycle, t.vector.groups, t.policy)
  }

  /** A direct read carries Config versions over where it confirms what they were attached to. */
  function PreservingVersions(t: Observed, previous: Observed): Observed {
    var sameInterface := && t.publicIp == previous.publicIp && t.instance == previous.instance
                         && t.lifecycle == previous.lifecycle && t.vector.groups == previous.vector.groups
                         && t.links == previous.links;
    var samePolicy := t.vector.groups == previous.vector.groups && t.policy == previous.policy;
    t.(vector := C.Vector(t.vector.groups, if sameInterface then previous.vector.eni else None,
                          if samePolicy then previous.vector.at else map[]))
  }

  function PreservingLifecycle(t: Observed, previous: Observed): Observed {
    if t.lifecycle.instance == UNKNOWN then
      t.(lifecycle := t.lifecycle.(instance := previous.lifecycle.instance))
    else t
  }

  // ---------------------------------------------------------------- the table

  datatype State = State(generation: nat, active: bool, target: Observed, signature: Signature, observedAt: Time)

  datatype ChangeKind = NewTarget | PolicyChanged | TargetChanged | Removal

  /** Outbox events; the event id is a hash of the content, so equal content is the same row. */
  datatype Event =
    | Change(generation: nat, kind: ChangeKind, signature: Signature)
    | Coverage(generation: nat, content: Id)

  /** `past` remembers every state ever stored: what a slow actor may still be holding. */
  datatype World = World(item: Option<State>, outbox: set<Event>, past: set<State>)

  const EMPTY := World(None, {}, {})

  /** The condition of both conditional writers. */
  predicate Matches(item: Option<State>, previous: Option<State>) {
    if previous.None? then item.None?
    else
      && item.Some? && item.value.generation == previous.value.generation && item.value.active == previous.value.active
      && item.value.observedAt == previous.value.observedAt
      && item.value.target.vector.eni == previous.value.target.vector.eni
      && item.value.target.vector.at == previous.value.target.vector.at
  }

  function WriteStateOnly(w: World, previous: State, state: State): Option<World> {
    if Matches(w.item, Some(previous)) then Some(w.(item := Some(state), past := w.past + {state})) else None
  }

  function WriteStateAndOutbox(w: World, previous: Option<State>, state: State, event: Event): Option<World> {
    if Matches(w.item, previous) && event !in w.outbox then
      Some(World(Some(state), w.outbox + {event}, w.past + {state}))
    else None
  }

  // ---------------------------------------------------------------- what an actor plans

  datatype Plan = Nothing | Revalidate | Raise | Refresh(state: State) | Announce(state: State, event: Event)

  /** The kind of event a new generation is announced with; None where the event builder would raise. */
  function KindOf(previous: Option<State>, target: Observed): Option<ChangeKind> {
    if previous.None? || !previous.value.active then Some(NewTarget)
    else
      var had := previous.value.target;
      if had.vector.groups != target.vector.groups || had.policy != target.policy then Some(PolicyChanged)
      else if SignatureOf(had) != SignatureOf(target) then Some(TargetChanged)
      else None
  }

  function PlanReconcile(previous: Option<State>, incoming: Observed, observedAt: Time): Plan {
    if previous.None? then PlanWrite(None, incoming, observedAt)
    else
      var p := previous.value;
      if incoming.vector.eni.Some? then
        match C.Compare(incoming.vector, p.target.vector)
        case Err(_) => Raise
        case Ok(Mixed) => Revalidate
        case Ok(NotNewer) => Nothing
        case Ok(Advances) => PlanWrite(previous, incoming, Max(observedAt, p.observedAt))
      else if observedAt <= p.observedAt then Nothing
      else PlanWrite(previous, PreservingVersions(incoming, p.target), Max(observedAt, p.observedAt))
  }

  function PlanWrite(previous: Option<State>, incoming: Observed, at: Time): Plan {
    var active := previous.Some? && previous.value.active;
    var target := if active then PreservingLifecycle(incoming, previous.value.target) else incoming;
    if active && previous.value.signature == SignatureOf(target) then
      Refresh(State(previous.value.generation, true, target, SignatureOf(target), at))
    else
      var generation := if previous.None? then 1 else previous.value.generation + 1;
      match KindOf(previous, target)
      case None => Raise
      case Some(kind) => Announce(State(generation, true, target, SignatureOf(target), at),
                                  Change(generation, kind, SignatureOf(target)))
  }

  function PlanRemoval(current: State, at: Time): Plan {
    if !current.active || at <= current.observedAt then Nothing
    else Announce(State(current.generation + 1, false, current.target, current.signature, at),
                  Change(current.generation + 1, Removal, current.signature))
  }

  function PlanConfirmation(expected: State, observation: Observed): Plan {
    if SignatureOf(observation) != expected.signature || observation.vector.eni.None? then Nothing
    else if || C.Compare(observation.vector, expected.target.vector).Err?
            || observation.vector.groups != expected.target.vector.groups then Raise
    else
      var confirmed := C.Confirmed(expected.target.vector, observation.vector);
      Refresh(expected.(target := expected.target.(vector := confirmed)))
  }

  // ---------------------------------------------------------------- runs

  /** A commit attempt of some actor, with the state it read before. */
  datatype Act =
    | Reconcile(previous: Option<State>, incoming: Observed, observedAt: Time)
    | Remove(current: State, at: Time)
    | Confirm(expected: State, observation: Observed)
    | Cover(reading: State, content: Id)

  function Read(act: Act): Option<State> {
    match act
    case Reconcile(previous, _, _) => previous
    case Remove(current, _) => Some(current)
    case Confirm(expected, _) => Some(expected)
    case Cover(reading, _) => Some(reading)
  }

  function PlanOf(act: Act): Plan {
    match act
    case Reconcile(previous, incoming, observedAt) => PlanReconcile(previous, incoming, observedAt)
    case Remove(current, at) => PlanRemoval(current, at)
    case Confirm(expected, observation) => PlanConfirmation(expected, observation)
    case Cover(_, _) => Nothing
  }

  predicate Covers(w: World, reading: State, content: Id) {
    && reading.active && w.item.Some? && w.item.value.active && w.item.value.generation == reading.generation
    && Coverage(reading.generation, content) !in w.outbox
  }

  /** An actor can only have read what was stored at some time; normalized targets are valid. */
  predicate Possible(w: World, act: Act) {
    && (Read(act).Some? ==> Read(act).value in w.past)
    && (act.Reconcile? ==> act.incoming.vector.Valid())
  }

  function Commit(w: World, previous: Option<State>, plan: Plan): World {
    match plan
    case Refresh(state) =>
      if previous.Some? && WriteStateOnly(w, previous.value, state).Some? then
        WriteStateOnly(w, previous.value, state).value
      else w
    case Announce(state, event) =>
      if WriteStateAndOutbox(w, previous, state, event).Some? then
        WriteStateAndOutbox(w, previous, state, event).value
      else w
    case _ => w
  }

  function Apply(w: World, act: Act): World {
    if !Possible(w, act) then w
    else if act.Cover? then
      if Covers(w, act.reading, act.content) then
        w.(outbox := w.outbox + {Coverage(act.reading.generation, act.content)})
      else w
    else Commit(w, Read(act), PlanOf(act))
  }

  function Run(w: World, acts: seq<Act>): World {
    if acts == [] then w else Apply(Run(w, acts[..|acts| - 1]), acts[|acts| - 1])
  }

  // ---------------------------------------------------------------- generation fencing

  predicate Upserted(outbox: set<Event>, g: nat, s: Signature) {
    Change(g, NewTarget, s) in outbox || Change(g, PolicyChanged, s) in outbox || Change(g, TargetChanged, s) in outbox
  }

  predicate Announced(outbox: set<Event>, g: nat, s: Signature) {
    Upserted(outbox, g, s) || Removed(outbox, g, s)
  }

  predicate Removed(outbox: set<Event>, g: nat, s: Signature) { Change(g, Removal, s) in outbox }

  ghost predicate SomeUpserted(outbox: set<Event>, g: nat) { exists s :: Upserted(outbox, g, s) }

  ghost predicate OtherUpserted(outbox: set<Event>, g: nat, s: Signature) {
    exists t :: t != s && Upserted(outbox, g, t)
  }

  ghost predicate SomeRemoved(outbox: set<Event>, g: nat) { exists s :: Removed(outbox, g, s) }

  ghost predicate SomeAnnounced(outbox: set<Event>, g: nat) {
    exists s :: Announced(outbox, g, s)
  }

  function LastGeneration(w: World): nat {
    if w.item.None? then 0 else w.item.value.generation
  }

  /** A stored state is the one its generation was announced with. */
  predicate Recorded(outbox: set<Event>, s: State) {
    && s.generation >= 1 && s.signature == SignatureOf(s.target) && s.target.vector.Valid()
    && (if s.active then Upserted(outbox, s.generation, s.signature)
        else Removed(outbox, s.generation, s.signature))
  }

  /** An event continues what was announced one generation earlier: a target is new at first and after a
      removal only, a removal ends an active generation, and any other change is a change. */
  ghost predicate Continues(outbox: set<Event>, e: Event) {
    match e
    case Coverage(g, _) => SomeUpserted(outbox, g)
    case Change(g, NewTarget, _) => g == 1 || (g > 1 && SomeRemoved(outbox, g - 1))
    case Change(g, Removal, s) => g > 1 && Upserted(outbox, g - 1, s)
    case Change(g, _, s) => g > 1 && OtherUpserted(outbox, g - 1, s)
  }

  ghost predicate Inv(w: World) {
    && (w.item.Some? ==> w.item.value in w.past)
    && (w.item.None? ==> w.past == {})
    && (forall s :: s in w.past ==> Recorded(w.outbox, s) && s.generation <= LastGeneration(w))
    && (forall e :: e in w.outbox ==> 1 <= e.generation <= LastGeneration(w))
    && (forall e {:trigger Continues(w.outbox, e)} :: e in w.outbox ==> Continues(w.outbox, e))
    && (forall d, e ::
          d in w.outbox && e in w.outbox && d.Change? && e.Change? && d.generation == e.generation ==> d == e)
    && (forall g: nat :: 1 <= g <= LastGeneration(w) ==> SomeAnnounced(w.outbox, g))
  }

  /** What one commit never undoes. */
  predicate Onward(w: World, w': World) {
    && w.outbox <= w'.outbox && w.past <= w'.past
    && (w.item.Some? ==>
          && w'.item.Some?
          && var s, s' := w.item.value, w'.item.value;
             && s.generation <= s'.generation && s.observedAt <= s'.observedAt
             && (s.generation == s'.generation ==> s.active == s'.active && s.signature == s'.signature)
             && VersionsKept(s.target.vector, s'.target.vector))
  }

  /** A component version known before and after has not decreased. */
  predicate VersionsKept(v: C.Vector, v': C.Vector) {
    && (v.eni.Some? && v'.eni.Some? ==> v.eni.value <= v'.eni.value)
    && (forall g :: g in v.at && g in v'.at ==> v.at[g] <= v'.at[g])
  }

  /** The state read and the state found under a matching condition agree on what the plan relied on. */
  lemma MatchMeansSame(w: World, previous: State)
    requires Inv(w) && previous in w.past && Matches(w.item, Some(previous))
    ensures w.item.value.signature == previous.signature
  {
  }

  /** What plans look like. */
  predicate Sound(previous: Option<State>, plan: Plan) {
    match plan
    case Refresh(s) =>
      && previous.Some? && s.generation == previous.value.generation && s.active == previous.value.active
      && s.signature == previous.value.signature == SignatureOf(s.target) && s.target.vector.Valid()
      && s.observedAt >= previous.value.observedAt && VersionsKept(previous.value.target.vector, s.target.vector)
    case Announce(s, e) =>
      && s.generation == (if previous.None? then 1 else previous.value.generation + 1)
      && s.signature == SignatureOf(s.target) && s.target.vector.Valid()
      && e.Change? && e.generation == s.generation && e.signature == s.signature && (s.active <==> e.kind != Removal)
      && (previous.Some? ==>
            && s.observedAt >= previous.value.observedAt
            && VersionsKept(previous.value.target.vector, s.target.vector))
      && Follows(previous, e)
    case _ => true
  }

  predicate Follows(previous: Option<State>, e: Event)
    requires e.Change?
  {
    match e.kind
    case NewTarget => previous.None? || !previous.value.active
    case Removal => previous.Some? && previous.value.active && previous.value.signature == e.signature
    case _ => previous.Some? && previous.value.active && previous.value.signature != e.signature
  }

  lemma PlanWriteSound(previous: Option<State>, incoming: Observed, at: Time)
    requires incoming.vector.Valid()
    requires previous.Some? ==>
               && previous.value.signature == SignatureOf(previous.value.target) && at >= previous.value.observedAt
               && VersionsKept(previous.value.target.vector, incoming.vector)
    ensures Sound(previous, PlanWrite(previous, incoming, at)) && !PlanWrite(previous, incoming, at).Raise?
  {
  }

  /** Only an incomplete Config vector makes a reconcile raise: the event builder always has a reason. */
  lemma PlanReconcileSound(previous: Option<State>, incoming: Observed, observedAt: Time)
    requires incoming.vector.Valid()
    requires previous.Some? ==> previous.value.signature == SignatureOf(previous.value.target)
                                && previous.value.target.vector.Valid()
    ensures Sound(previous, PlanReconcile(previous, incoming, observedAt))
    ensures PlanReconcile(previous, incoming, observedAt).Raise? ==>
              incoming.vector.eni.Some? && C.Compare(incoming.vector, previous.value.target.vector).Err?
  {
    if previous.None? {
      PlanWriteSound(previous, incoming, observedAt);
    } else {
      var p := previous.value;
      var at := Max(observedAt, p.observedAt);
      if incoming.vector.eni.None? {
        PlanWriteSound(previous, PreservingVersions(incoming, p.target), at);
      } else if C.Compare(incoming.vector, p.target.vector) == Ok(C.Advances) {
        C.AdvancingTellsAll(incoming.vector, p.target.vector);
        PlanWriteSound(previous, incoming, at);
      }
    }
  }

  /** The versions a stored vector has after a direct read: those of the interface only if all they were
      attached to is confirmed, those of the groups only if groups and policy are. */
  predicate CarriedOver(stored: C.Vector, previous: Observed, incoming: Observed) {
    var samePolicy := incoming.vector.groups == previous.vector.groups && incoming.policy == previous.policy;
    var sameInterface := && incoming.publicIp == previous.publicIp && incoming.instance == previous.instance
                         && incoming.lifecycle == previous.lifecycle && incoming.links == previous.links
                         && incoming.vector.groups == previous.vector.groups;
    && stored.groups == incoming.vector.groups
    && stored.eni == (if sameInterface then previous.vector.eni else None)
    && stored.at == (if samePolicy then previous.vector.at else map[])
  }

  /** The state to be stored is what was observed, except for a lifecycle the observer did not know and the
      versions that a direct read does not deliver. */
  predicate Takes(s: State, previous: Option<State>, incoming: Observed, observedAt: Time) {
    && s.active && s.observedAt == (if previous.Some? then Max(observedAt, previous.value.observedAt) else observedAt)
    && s.target == incoming.(lifecycle := s.target.lifecycle, vector := s.target.vector)
    && s.target.lifecycle.rest == incoming.lifecycle.rest
    && s.target.lifecycle.instance
       == (if incoming.lifecycle.instance == UNKNOWN && previous.Some? && previous.value.active then
             previous.value.target.lifecycle.instance
           else incoming.lifecycle.instance)
    && (if incoming.vector.eni.Some? || previous.None? then s.target.vector == incoming.vector
        else CarriedOver(s.target.vector, previous.value.target, incoming))
  }

  /** The state has taken account of the observation: a direct read counts by its time, a Config observation
      by its versions. */
  predicate Heeded(incoming: Observed, observedAt: Time, s: State) {
    if incoming.vector.eni.Some? then C.Compare(incoming.vector, s.target.vector) != Ok(C.Advances)
    else observedAt <= s.observedAt
  }

  /** The event is of the kind that the difference calls for. */
  predicate Names(kind: ChangeKind, previous: Option<State>, target: Observed) {
    match kind
    case NewTarget => previous.None? || !previous.value.active
    case PolicyChanged =>
      && previous.Some? && previous.value.active
      && (previous.value.target.vector.groups != target.vector.groups || previous.value.target.policy != target.policy)
    case TargetChanged =>
      && previous.Some? && previous.value.active
      && previous.value.target.vector.groups == target.vector.groups && previous.value.target.policy == target.policy
      && (previous.value.target.publicIp != target.publicIp || previous.value.target.lifecycle != target.lifecycle)
    case Removal => false
  }

  /** A plan takes the observation over unless it is heeded already, and announces it if the target is not
      active or one of the parts that count has changed. */
  lemma PlansTakeOver(previous: Option<State>, incoming: Observed, observedAt: Time)
    requires previous.Some? ==>
               previous.value.signature == SignatureOf(previous.value.target) && previous.value.target.vector.Valid()
    requires incoming.vector.Valid()
    ensures var plan := PlanReconcile(previous, incoming, observedAt);
            && (plan.Refresh? || plan.Announce? ==>
                  Takes(plan.state, previous, incoming, observedAt) && Heeded(incoming, observedAt, plan.state))
            && (previous.Some? && incoming.vector.eni.Some? ==>
                  var order := C.Compare(incoming.vector, previous.value.target.vector);
                  && (plan.Nothing? <==> order == Ok(C.NotNewer)) && (plan.Revalidate? <==> order == Ok(C.Mixed))
                  && (plan.Raise? <==> order.Err?))
            && (previous.Some? && incoming.vector.eni.None? ==>
                  && (plan.Nothing? <==> observedAt <= previous.value.observedAt)
                  && !plan.Revalidate? && !plan.Raise?)
            && (previous.None? ==> plan.Announce?)
            && (plan.Refresh? ==> previous.Some? && previous.value.active)
            && (plan.Announce? ==> plan.event.Change? && Names(plan.event.kind, previous, plan.state.target))
  {
  }

  /** Signatures differ exactly in the parts that the kinds of change are about. */
  lemma SameSignatureMeansNoKind(previous: State, target: Observed)
    requires previous.active && previous.signature == SignatureOf(previous.target)
    ensures previous.signature == SignatureOf(target) <==>
              !Names(PolicyChanged, Some(previous), target) && !Names(TargetChanged, Some(previous), target)
  {
  }

  /** A removal ends an active target that was observed before, and keeps what was known of it. */
  lemma RemovalsEnd(current: State, at: Time)
    ensures var plan := PlanRemoval(current, at);
            && (plan.Nothing? <==> !current.active || at <= current.observedAt)
            && (!plan.Nothing? ==>
                  && plan.Announce? && plan.event == Change(current.generation + 1, Removal, current.signature)
                  && plan.state == current.(generation := current.generation + 1, active := false, observedAt := at))
  {
  }

  lemma PlansAreSound(act: Act)
    requires act.Reconcile? ==> act.incoming.vector.Valid()
    requires Read(act).Some? ==> Read(act).value.signature == SignatureOf(Read(act).value.target)
                                 && Read(act).value.target.vector.Valid()
    ensures Sound(Read(act), PlanOf(act))
  {
    match act
    case Reconcile(previous, incoming, observedAt) => PlanReconcileSound(previous, incoming, observedAt);
    case Remove(current, at) =>
    case Confirm(expected, observation) =>
    case Cover(_, _) =>
  }

  lemma RefreshKeeps(w: World, previous: State, s: State)
    requires Inv(w) && previous in w.past && Sound(Some(previous), Refresh(s)) && Matches(w.item, Some(previous))
    ensures var w' := w.(item := Some(s), past := w.past + {s}); Inv(w') && Onward(w, w')
  {
    MatchMeansSame(w, previous);
    assert Recorded(w.outbox, previous) && Recorded(w.outbox, s);
  }

  lemma AnnounceKeepsInv(w: World, previous: Option<State>, s: State, e: Event)
    requires Inv(w) && (previous.Some? ==> previous.value in w.past) && Sound(previous, Announce(s, e))
    requires Matches(w.item, previous)
    ensures Inv(World(Some(s), w.outbox + {e}, w.past + {s}))
  {
    var w' := World(Some(s), w.outbox + {e}, w.past + {s});
    assert previous.Some? ==> Recorded(w.outbox, previous.value);
    NewEventContinues(w, previous, s, e);
    GrowthKeeps(w, e);
    assert Recorded(w'.outbox, s);
    assert Announced(w'.outbox, s.generation, s.signature);
    assert forall d :: d in w.outbox ==> d.generation < e.generation;
  }

  lemma AnnounceGoesOnward(w: World, previous: Option<State>, s: State, e: Event)
    requires Sound(previous, Announce(s, e)) && Matches(w.item, previous)
    ensures Onward(w, World(Some(s), w.outbox + {e}, w.past + {s}))
  {
  }

  lemma NewEventContinues(w: World, previous: Option<State>, s: State, e: Event)
    requires Sound(previous, Announce(s, e)) && (previous.Some? ==> Recorded(w.outbox, previous.value))
    ensures Continues(w.outbox + {e}, e)
  {
    var outbox := w.outbox + {e};
    if previous.Some? {
      var p := previous.value;
      assert if p.active then Upserted(outbox, p.generation, p.signature)
             else Removed(outbox, p.generation, p.signature);
    }
  }

  /** Adding an event leaves what was known about the others. */
  lemma GrowthKeeps(w: World, e: Event)
    requires Inv(w)
    ensures var outbox := w.outbox + {e};
            && (forall d {:trigger Continues(outbox, d)} :: d in w.outbox ==> Continues(outbox, d))
            && (forall g :: 1 <= g <= LastGeneration(w) ==> SomeAnnounced(outbox, g))
            && (forall s :: s in w.past ==> Recorded(outbox, s))
  {
    var outbox := w.outbox + {e};
    forall d | d in w.outbox ensures Continues(outbox, d) { GrowthKeepsContinuing(w.outbox, outbox, d); }
    forall g: nat | 1 <= g <= LastGeneration(w) ensures SomeAnnounced(outbox, g) {
      assert SomeAnnounced(w.outbox, g);
      var x :| Announced(w.outbox, g, x);
      assert Announced(outbox, g, x);
    }
  }

  lemma GrowthKeepsContinuing(outbox: set<Event>, more: set<Event>, e: Event)
    requires outbox <= more && Continues(outbox, e)
    ensures Continues(more, e)
  {
    match e
    case Coverage(g, _) =>
      var s :| Upserted(outbox, g, s);
      assert Upserted(more, g, s);
    case Change(g, NewTarget, _) =>
      if g > 1 {
        var s :| Removed(outbox, g - 1, s);
        assert Removed(more, g - 1, s);
      }
    case Change(g, Removal, s) =>
    case Change(g, _, s) =>
      var t :| t != s && Upserted(outbox, g - 1, t);
      assert Upserted(more, g - 1, t);
  }

  lemma CoverKeeps(w: World, reading: State, content: Id)
    requires Inv(w) && reading in w.past && Covers(w, reading, content)
    ensures var w' := w.(outbox := w.outbox + {Coverage(reading.generation, content)}); Inv(w') && Onward(w, w')
  {
    var e := Coverage(reading.generation, content);
    assert Recorded(w.outbox, reading);
    assert Upserted(w.outbox + {e}, e.generation, reading.signature);
    GrowthKeeps(w, e);
  }

  /** Whatever an actor commits, however old its reading, keeps the invariant and takes nothing back. */
  lemma StepKeeps(w: World, act: Act)
    requires Inv(w)
    ensures Inv(Apply(w, act)) && Onward(w, Apply(w, act))
  {
    if Possible(w, act) {
      if act.Cover? {
        if Covers(w, act.reading, act.content) { CoverKeeps(w, act.reading, act.content); }
      } else {
        assert Read(act).Some? ==> Recorded(w.outbox, Read(act).value);
        PlansAreSound(act);
        CommitKeeps(w, Read(act), PlanOf(act));
      }
    }
  }

  lemma CommitKeeps(w: World, previous: Option<State>, plan: Plan)
    requires Inv(w) && (previous.Some? ==> previous.value in w.past) && Sound(previous, plan)
    ensures Inv(Commit(w, previous, plan)) && Onward(w, Commit(w, previous, plan))
  {
    if Matches(w.item, previous) {
      match plan
      case Refresh(s) => RefreshKeeps(w, previous.value, s);
      case Announce(s, e) =>
        AnnounceKeepsInv(w, previous, s, e);
        AnnounceGoesOnward(w, previous, s, e);
      case _ =>
    }
  }

  /** Generation fencing under every interleaving: exactly one state-changing event for each generation up
      to the current one and none beyond, each continuing the one before, and coverage events only for
      generations that were active. */
  lemma {:induction false} EveryRunIsFenced(acts: seq<Act>)
    ensures Inv(Run(EMPTY, acts))
    decreases |acts|
  {
    if acts != [] {
      EveryRunIsFenced(acts[..|acts| - 1]);
      StepKeeps(Run(EMPTY, acts[..|acts| - 1]), acts[|acts| - 1]);
    }
  }

  /** Over any stretch of any run, generations and observation times do not decrease, and within one
      generation status and signature are constant. */
  predicate NeverBack(w: World, w': World) {
    && w.outbox <= w'.outbox && w.past <= w'.past
    && (w.item.Some? ==>
          && w'.item.Some?
          && w.item.value.generation <= w'.item.value.generation && w.item.value.observedAt <= w'.item.value.observedAt
          && (w.item.value.generation == w'.item.value.generation ==>
                w.item.value.active == w'.item.value.active && w.item.value.signature == w'.item.value.signature))
  }

  lemma {:induction false} RunKeepsInv(w: World, acts: seq<Act>)
    requires Inv(w)
    ensures Inv(Run(w, acts)) && NeverBack(w, Run(w, acts))
    decreases |acts|
  {
    if acts != [] {
      RunKeepsInv(w, acts[..|acts| - 1]);
      StepKeeps(Run(w, acts[..|acts| - 1]), acts[|acts| - 1]);
    }
  }

  lemma RunsNeverGoBack(acts: seq<Act>, more: seq<Act>)
    ensures NeverBack(Run(EMPTY, acts), Run(Run(EMPTY, acts), more))
    ensures Inv(Run(Run(EMPTY, acts), more))
  {
    EveryRunIsFenced(acts);
    RunKeepsInv(Run(EMPTY, acts), more);
  }

  // ---------------------------------------------------------------- replays

  /** Offering the observation again would write nothing. */
  predicate Absorbed(incoming: Observed, item: Option<State>) {
    item.Some? && C.Compare(incoming.vector, item.value.target.vector) != Ok(C.Advances)
  }

  /** What a Config observation has written absorbs it. */
  lemma CommitAbsorbs(w: World, previous: Option<State>, incoming: Observed, observedAt: Time)
    requires incoming.vector.eni.Some? && incoming.vector.Valid()
    requires var w' := Commit(w, previous, PlanReconcile(previous, incoming, observedAt)); w' != w
    ensures var w' := Commit(w, previous, PlanReconcile(previous, incoming, observedAt));
            w'.item.Some? && w'.item.value.target.vector == incoming.vector && Absorbed(incoming, w'.item)
  {
  }

  /** A confirmation fills in a component that was unknown, with a version that the observation supersedes. */
  predicate Revives(w: World, act: Act, incoming: Observed) {
    && act.Confirm? && Possible(w, act) && Matches(w.item, Some(act.expected)) && PlanOf(act).Refresh?
    && C.Revives(incoming.vector, act.expected.target.vector, act.observation.vector)
  }

  /** An absorbed Config observation stays absorbed through every commit but exactly those. */
  lemma AbsorbedStaysExactly(w: World, act: Act, incoming: Observed)
    requires Inv(w) && Absorbed(incoming, w.item) && incoming.vector.eni.Some? && incoming.vector.Valid()
    ensures Absorbed(incoming, Apply(w, act).item) <==> !Revives(w, act, incoming)
  {
    if Apply(w, act) != w && !act.Cover? {
      var p := Read(act).value;
      assert Recorded(w.outbox, p) && Recorded(w.outbox, w.item.value);
      MatchMeansSame(w, p);
      assert p.target.vector == w.item.value.target.vector;
      match act
      case Reconcile(_, offered, _) =>
        if offered.vector.eni.Some? {
          C.ReplayStaysAbsorbed(incoming.vector, offered.vector, p.target.vector);
        }
      case Remove(_, _) =>
      case Confirm(_, observation) =>
        C.ConfirmationRevivesExactly(incoming.vector, p.target.vector, observation.vector);
    }
  }

  /** In particular where all components of the observation are known. */
  lemma AbsorbedStays(w: World, act: Act, incoming: Observed)
    requires Inv(w) && Absorbed(incoming, w.item) && incoming.vector.eni.Some? && incoming.vector.Valid()
    requires act.Confirm? ==> act.expected.target.vector.eni.Some?
                              && C.GroupsKnown(incoming.vector, act.expected.target.vector)
    ensures Absorbed(incoming, Apply(w, act).item)
  {
    AbsorbedStaysExactly(w, act, incoming);
  }

  predicate WritesNothing(w: World, incoming: Observed, observedAt: Time) {
    Apply(w, Reconcile(w.item, incoming, observedAt)) == w
  }

  /** Offering a Config observation writes nothing exactly if the stored state has absorbed it. */
  lemma AbsorbedMeansNothingWritten(w: World, incoming: Observed, observedAt: Time)
    requires Inv(w) && w.item.Some? && incoming.vector.eni.Some? && incoming.vector.Valid()
    ensures WritesNothing(w, incoming, observedAt) <==> Absorbed(incoming, w.item)
  {
    var plan := PlanReconcile(w.item, incoming, observedAt);
    if Absorbed(incoming, w.item) {
      assert plan.Nothing? || plan.Revalidate? || plan.Raise?;
    } else {
      assert Recorded(w.outbox, w.item.value);
      PlanReconcileSound(w.item, incoming, observedAt);
      C.AdvancingTellsAll(incoming.vector, w.item.value.target.vector);
      assert plan.Announce? ==> plan.event !in w.outbox;
      assert plan.state.target.vector == incoming.vector;
    }
  }

  /** No step of the run revives the observation. */
  ghost predicate NeverRevived(w: World, acts: seq<Act>, incoming: Observed) {
    forall i {:trigger Revives(Run(w, acts[..i]), acts[i], incoming)} ::
      0 <= i < |acts| ==> !Revives(Run(w, acts[..i]), acts[i], incoming)
  }

  /** At no point of the run is the observation written again. */
  ghost predicate NeverRewritten(w: World, acts: seq<Act>, incoming: Observed, observedAt: Time) {
    forall i {:trigger WritesNothing(Run(w, acts[..i]), incoming, observedAt)} ::
      0 <= i <= |acts| ==> WritesNothing(Run(w, acts[..i]), incoming, observedAt)
  }

  lemma RunOneMore(w: World, acts: seq<Act>, i: nat)
    requires i < |acts|
    ensures Run(w, acts[..i + 1]) == Apply(Run(w, acts[..i]), acts[i])
  {
    assert acts[..i + 1][..i] == acts[..i];
  }

  lemma {:induction false} UnrevivedStaysAbsorbed(w: World, acts: seq<Act>, incoming: Observed, i: nat)
    requires Inv(w) && Absorbed(incoming, w.item) && incoming.vector.eni.Some? && incoming.vector.Valid()
    requires i <= |acts| && NeverRevived(w, acts, incoming)
    ensures Absorbed(incoming, Run(w, acts[..i]).item)
  {
    if i > 0 {
      UnrevivedStaysAbsorbed(w, acts, incoming, i - 1);
      RunKeepsInv(w, acts[..i - 1]);
      RunOneMore(w, acts, i - 1);
      AbsorbedStaysExactly(Run(w, acts[..i - 1]), acts[i - 1], incoming);
    }
  }

  /** Over every run, an absorbed Config observation is never written again if and only if no confirmation
      revives it. */
  lemma ReplaysWriteNothing(w: World, acts: seq<Act>, incoming: Observed, observedAt: Time)
    requires Inv(w) && Absorbed(incoming, w.item) && incoming.vector.eni.Some? && incoming.vector.Valid()
    ensures NeverRewritten(w, acts, incoming, observedAt) <==> NeverRevived(w, acts, incoming)
  {
    forall i | 0 <= i <= |acts|
      ensures WritesNothing(Run(w, acts[..i]), incoming, observedAt) <==> Absorbed(incoming, Run(w, acts[..i]).item)
    {
      RunKeepsInv(w, acts[..i]);
      AbsorbedMeansNothingWritten(Run(w, acts[..i]), incoming, observedAt);
    }
    if NeverRevived(w, acts, incoming) {
      forall i | 0 <= i <= |acts| ensures WritesNothing(Run(w, acts[..i]), incoming, observedAt) {
        UnrevivedStaysAbsorbed(w, acts, incoming, i);
      }
    } else {
      var i :| 0 <= i < |acts| && Revives(Run(w, acts[..i]), acts[i], incoming);
      RunKeepsInv(w, acts[..i]);
      RunOneMore(w, acts, i);
      if Absorbed(incoming, Run(w, acts[..i]).item) {
        AbsorbedStaysExactly(Run(w, acts[..i]), acts[i], incoming);
        assert !WritesNothing(Run(w, acts[..i + 1]), incoming, observedAt);
      } else {
        assert !WritesNothing(Run(w, acts[..i]), incoming, observedAt);
      }
    }
  }

  // ---------------------------------------------------------------- versions over a run

  datatype Component = Interface | Group(id: Id)

  function VersionOf(w: World, c: Component): Option<Time> {
    if w.item.None? then None
    else if c.Interface? then w.item.value.target.vector.eni
    else Get(w.item.value.target.vector.at, c.id)
  }

  ghost predicate KnownThroughout(w: World, acts: seq<Act>, c: Component) {
    forall i {:trigger VersionOf(Run(w, acts[..i]), c)} :: 0 <= i <= |acts| ==> VersionOf(Run(w, acts[..i]), c).Some?
  }

  /** Over any stretch in which a component stays known its version never decreases. */
  lemma {:induction false} KnownVersionsNeverDecrease(w: World, acts: seq<Act>, c: Component)
    requires Inv(w) && KnownThroughout(w, acts, c)
    ensures VersionOf(w, c).Some? && VersionOf(Run(w, acts), c).Some?
    ensures VersionOf(w, c).value <= VersionOf(Run(w, acts), c).value
    decreases |acts|
  {
    assert acts[..0] == [] && acts[..|acts|] == acts;
    assert VersionOf(Run(w, acts[..0]), c).Some? && VersionOf(Run(w, acts[..|acts|]), c).Some?;
    if acts != [] {
      var shorter := acts[..|acts| - 1];
      forall i | 0 <= i <= |shorter| ensures VersionOf(Run(w, shorter[..i]), c).Some? {
        assert shorter[..i] == acts[..i];
        assert VersionOf(Run(w, acts[..i]), c).Some?;
      }
      KnownVersionsNeverDecrease(w, shorter, c);
      RunKeepsInv(w, shorter);
      StepKeeps(Run(w, shorter), acts[|acts| - 1]);
    }
  }

  // ---------------------------------------------------------------- a version that comes back

  const WRITTEN := Observed(1, 1, Lifecycle(1, 1), 1, 1, {}, 0, false, 0, C.Vector([7], Some(10), map[7 := 10]))
  const SEEN := WRITTEN.(links := 2, vector := C.Vector([7], None, map[]))
  const OLD := WRITTEN.(vector := C.Vector([7], Some(5), map[7 := 5]))

  const FIRST := State(1, true, WRITTEN, SignatureOf(WRITTEN), 1)
  const SECOND := State(1, true, SEEN.(vector := C.Vector([7], None, map[7 := 10])), SignatureOf(WRITTEN), 2)
  const THIRD := SECOND.(target := SECOND.target.(vector := C.Vector([7], Some(5), map[7 := 10])))

  /** A Config observation is written, a direct read with another attachment forgets the interface's version,
      an older observation of the same state is confirmed. */
  const FORGETFUL := [Reconcile(None, WRITTEN, 1), Reconcile(Some(FIRST), SEEN, 2), Confirm(SECOND, OLD)]

  lemma ForgetfulRun()
    ensures Run(EMPTY, FORGETFUL[..1]).item == Some(FIRST)
    ensures Run(EMPTY, FORGETFUL[..2]).item == Some(SECOND)
    ensures Run(EMPTY, FORGETFUL).item == Some(THIRD)
  {
    assert FORGETFUL[..0] == [] && FORGETFUL[..3] == FORGETFUL;
    RunOneMore(EMPTY, FORGETFUL, 0);
    RunOneMore(EMPTY, FORGETFUL, 1);
    RunOneMore(EMPTY, FORGETFUL, 2);
    var w1, w2 := Run(EMPTY, FORGETFUL[..1]), Run(EMPTY, FORGETFUL[..2]);
    assert w1 == World(Some(FIRST), {Change(1, NewTarget, SignatureOf(WRITTEN))}, {FIRST});
    assert PlanOf(FORGETFUL[1]) == Refresh(SECOND);
    assert w2.item == Some(SECOND) && SECOND in w2.past;
    assert C.Confirmed(SECOND.target.vector, OLD.vector) == THIRD.target.vector;
  }

  /** In this run the interface's version goes back, and the observation that had been written and absorbed
      is written once more when it is replayed. */
  lemma ForgottenVersionComesBack(observedAt: Time)
    ensures Absorbed(WRITTEN, Run(EMPTY, FORGETFUL[..1]).item) && !Absorbed(WRITTEN, Run(EMPTY, FORGETFUL).item)
    ensures !WritesNothing(Run(EMPTY, FORGETFUL), WRITTEN, observedAt)
    ensures VersionOf(Run(EMPTY, FORGETFUL[..1]), Interface) == Some(10)
    ensures VersionOf(Run(EMPTY, FORGETFUL), Interface) == Some(5)
  {
    ForgetfulRun();
    C.ConfirmationOfUnknownMayRevive();
    EveryRunIsFenced(FORGETFUL);
    AbsorbedMeansNothingWritten(Run(EMPTY, FORGETFUL), WRITTEN, observedAt);
  }
}
