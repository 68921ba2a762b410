/** The inventory state store as an object. Other actors commit between any read and any write. The
    journal notes, in order, which ownership verdicts the handler that drives the store was given and
    which events its own commits emitted. */
module InventoryStore {
  import opened Base
  import opened Inventory
  import C = ConfigOrder

  datatype Action = Added | Changed | Noop | Removed | Race | Revalidation | Raised

  datatype Outcome = Outcome(action: Action, state: Option<State>, event: Option<Event>)

  datatype Verdict = OwnerActive | OwnerStale | OwnerMoved | OwnerInactive | OwnerUnknown

  /** A direct look at the interface; `revisable` stands for the reason "policy-or-lifecycle". */
  datatype Check = Check(verdict: Verdict, current: Option<Observed>, revisable: bool)

  predicate Gone(verdict: Verdict) { verdict.OwnerInactive? || verdict.OwnerMoved? }

  /** A direct read carries no Config versions. */
  function Direct(t: Observed): Observed {
    t.(vector := C.Vector(t.vector.groups, None, map[]))
  }

  // ---------------------------------------------------------------- the journal

  datatype Entry = Learned(id: Id, generation: nat, check: Check) | Emitted(id: Id, event: Event)

  predicate IsRemoval(e: Entry) { e.Emitted? && e.event.Change? && e.event.kind.Removal? }

  /** The verdict that the target is gone, at just the generation that the removal ends. */
  predicate Backs(verdict: Entry, removal: Entry)
    requires IsRemoval(removal)
  {
    && verdict.Learned? && Gone(verdict.check.verdict)
    && verdict.id == removal.id && verdict.generation + 1 == removal.event.generation
  }

  /** Every removal comes right after the verdict that backs it. */
  predicate Disciplined(journal: seq<Entry>) {
    forall i :: 0 <= i < |journal| && IsRemoval(journal[i]) ==> i > 0 && Backs(journal[i - 1], journal[i])
  }

  function Emissions(journal: seq<Entry>): nat {
    if journal == [] then 0
    else Emissions(journal[..|journal| - 1]) + if journal[|journal| - 1].Emitted? then 1 else 0
  }

  /** Events other than those of new targets. */
  function Changes(journal: seq<Entry>): nat {
    if journal == [] then 0
    else Changes(journal[..|journal| - 1]) + if IsChange(journal[|journal| - 1]) then 1 else 0
  }

  predicate IsChange(e: Entry) { e.Emitted? && e.event.Change? && !e.event.kind.NewTarget? }

  /** Whom the entries from the given position on remove. */
  function RemovedSince(journal: seq<Entry>, start: nat): set<Id> {
    set i | start <= i < |journal| && IsRemoval(journal[i]) :: journal[i].id
  }

  // ---------------------------------------------------------------- what others do meanwhile

  function WorldIn(table: map<Id, World>, id: Id): World { if id in table then table[id] else EMPTY }

  /** The table, and how often others have written to each target. */
  datatype Scene = Scene(table: map<Id, World>, foreign: multiset<Id>)

  /** One target at two moments: nothing is undone, and it is as it was unless it is one's own or others
      wrote to it. */
  predicate Proceeds(a: Scene, b: Scene, own: set<Id>, id: Id) {
    && NeverBack(WorldIn(a.table, id), WorldIn(b.table, id)) && a.foreign[id] <= b.foreign[id]
    && (id !in own && a.foreign[id] == b.foreign[id] ==> WorldIn(b.table, id) == WorldIn(a.table, id))
  }

  ghost predicate Leads(a: Scene, b: Scene, own: set<Id>) {
    forall id {:trigger Proceeds(a, b, own, id)} :: Proceeds(a, b, own, id)
  }

  ghost predicate Fenced(table: map<Id, World>) {
    forall id {:trigger Inv(WorldIn(table, id))} :: Inv(WorldIn(table, id))
  }

  lemma LeadsOn(a: Scene, b: Scene, c: Scene, first: set<Id>, second: set<Id>, own: set<Id>)
    requires Leads(a, b, first) && Leads(b, c, second) && first <= own && second <= own
    ensures Leads(a, c, own)
  {
    forall id ensures Proceeds(a, c, own, id) {
      assert Proceeds(a, b, first, id) && Proceeds(b, c, second, id);
    }
  }

  lemma Unmoved(a: Scene, own: set<Id>)
    ensures Leads(a, a, own)
  {
  }

  /** What was once stored or emitted stays on record; what nobody wrote to is as it was. */
  lemma RecordStays(a: Scene, b: Scene, own: set<Id>, id: Id)
    requires Leads(a, b, own)
    ensures WorldIn(a.table, id).past <= WorldIn(b.table, id).past
    ensures WorldIn(a.table, id).outbox <= WorldIn(b.table, id).outbox
    ensures a.foreign[id] <= b.foreign[id]
    ensures id !in own && a.foreign[id] == b.foreign[id] ==> WorldIn(b.table, id) == WorldIn(a.table, id)
  {
    assert Proceeds(a, b, own, id);
  }

  lemma OnwardIsNeverBack(w: World, w': World)
    requires Onward(w, w')
    ensures NeverBack(w, w')
  {
  }

  /** A write of one's own. */
  lemma Updated(a: Scene, id: Id, w: World)
    requires Fenced(a.table) && Inv(w) && Onward(WorldIn(a.table, id), w)
    ensures Fenced(a.table[id := w]) && Leads(a, Scene(a.table[id := w], a.foreign), {id})
  {
    var table' := a.table[id := w];
    forall i ensures Inv(WorldIn(table', i)) {
      assert Inv(WorldIn(a.table, i));
      assert WorldIn(table', i) == if i == id then w else WorldIn(a.table, i);
    }
    forall i ensures Proceeds(a, Scene(table', a.foreign), {id}, i) {
      assert WorldIn(table', i) == if i == id then w else WorldIn(a.table, i);
    }
  }

  lemma Committed(a: Scene, id: Id, previous: Option<State>, plan: Plan)
    requires Fenced(a.table) && Sound(previous, plan)
    requires previous.Some? ==> previous.value in WorldIn(a.table, id).past
    ensures var table' := a.table[id := Commit(WorldIn(a.table, id), previous, plan)];
            Fenced(table') && Leads(a, Scene(table', a.foreign), {id})
  {
    CommitKeeps(WorldIn(a.table, id), previous, plan);
    Updated(a, id, Commit(WorldIn(a.table, id), previous, plan));
  }

  /** What others write is counted. */
  function Acted(a: Scene, id: Id, act: Act): Scene {
    var w := Apply(WorldIn(a.table, id), act);
    if w == WorldIn(a.table, id) then a else Scene(a.table[id := w], a.foreign + multiset{id})
  }

  lemma Stepped(a: Scene, id: Id, act: Act)
    requires Fenced(a.table)
    ensures Fenced(Acted(a, id, act).table) && Leads(a, Acted(a, id, act), {})
  {
    var w, b := Apply(WorldIn(a.table, id), act), Acted(a, id, act);
    if b != a {
      StepKeeps(WorldIn(a.table, id), act);
      Updated(a, id, w);
      forall i ensures Proceeds(a, b, {}, i) { assert Proceeds(a, Scene(b.table, a.foreign), {id}, i); }
    }
  }

  /** What was read from the table, or stored earlier, yields a sound plan. */
  lemma PlanIsSound(table: map<Id, World>, id: Id, act: Act)
    requires Fenced(table) && (act.Reconcile? ==> act.incoming.vector.Valid())
    requires Read(act).Some? ==> Read(act).value in WorldIn(table, id).past
    ensures Sound(Read(act), PlanOf(act))
    ensures act.Reconcile? && PlanOf(act).Raise? ==> act.incoming.vector.eni.Some? && !act.incoming.vector.Complete()
    ensures Read(act).Some? ==>
              Read(act).value.signature == SignatureOf(Read(act).value.target) && Read(act).value.target.vector.Valid()
  {
    assert Inv(WorldIn(table, id));
    assert Read(act).Some? ==> Recorded(WorldIn(table, id).outbox, Read(act).value);
    PlansAreSound(act);
    if act.Reconcile? { PlanReconcileSound(act.previous, act.incoming, act.observedAt); }
  }

  lemma ReadIsPast(table: map<Id, World>, id: Id)
    requires Fenced(table)
    ensures WorldIn(table, id).item.Some? ==> WorldIn(table, id).item.value in WorldIn(table, id).past
  {
    assert Inv(WorldIn(table, id));
  }

  /** A plan made from what is stored meets its condition. */
  lemma FreshPlanCommits(w: World, plan: Plan)
    requires Inv(w) && Sound(w.item, plan) && plan.Announce?
    ensures plan.event !in w.outbox
  {
  }

  lemma Covered(a: Scene, id: Id, reading: State, content: Id)
    requires Fenced(a.table) && reading in WorldIn(a.table, id).past && Covers(WorldIn(a.table, id), reading, content)
    ensures var w := WorldIn(a.table, id);
            var w' := w.(outbox := w.outbox + {Coverage(reading.generation, content)});
            && Fenced(a.table[id := w']) && Leads(a, Scene(a.table[id := w'], a.foreign), {id})
            && SomeUpserted(w'.outbox, reading.generation)
  {
    var w := WorldIn(a.table, id);
    var w' := w.(outbox := w.outbox + {Coverage(reading.generation, content)});
    CoverKeeps(w, reading, content);
    Updated(a, id, w');
    assert Continues(w'.outbox, Coverage(reading.generation, content));
  }

  /** The observation tells the versions of just what is stored. */
  predicate Concerns(observation: Observed, expected: State) {
    SignatureOf(observation) == expected.signature && observation.vector.eni.Some?
  }

  /** Only the versions change: none is lost or lowered or made up, and the observation has no news left. */
  predicate Confirming(expected: State, stored: State, observation: Observed) {
    var before, after, seen := expected.target.vector, stored.target.vector, observation.vector;
    && stored == expected.(target := expected.target.(vector := after))
    && after.groups == before.groups && VersionsKept(before, after)
    && (before.eni.Some? ==> after.eni.Some?) && (forall g :: g in before.at && g in before.groups ==> g in after.at)
    && (after.eni == before.eni || after.eni == seen.eni)
    && (forall g :: g in after.at ==> Get(after.at, g) == Get(before.at, g) || Get(after.at, g) == Get(seen.at, g))
    && C.Compare(seen, after) == Ok(C.NotNewer)
  }

  const MAX_RETRIES := 4

  class StateStore {
    var table: map<Id, World>
    var claims: map<Id, Time>
    ghost var journal: seq<Entry>
    ghost var foreign: multiset<Id>
    ghost var faults: nat     // calls that raised
    ghost var races: nat      // reconciles that gave up

    constructor ()
      ensures Valid() && table == map[] && claims == map[] && journal == [] && foreign == multiset{}
      ensures faults == 0 && races == 0
    {
      table, claims, journal, foreign, faults, races := map[], map[], [], multiset{}, 0, 0;
    }

    ghost predicate Valid() reads this`table {
      Fenced(table)
    }

    ghost function Now(): Scene reads this`table, this`foreign {
      Scene(table, foreign)
    }

    /** Whether the call just made raised, with or without effect. */
    method Fails() returns (raised: bool)
      modifies this`faults
      ensures faults == old(faults) + if raised then 1 else 0
    {
      raised := *;
      if raised { faults := faults + 1; }
    }

    /** Other actors commit, however old what they read. */
    method Meanwhile(ghost origin: Scene, ghost own: set<Id>)
      requires Valid() && Leads(origin, Now(), own)
      modifies this`table, this`foreign
      ensures Valid() && Leads(origin, Now(), own) && Leads(old(Now()), Now(), {})
    {
      ghost var start := Now();
      Unmoved(start, {});
      var steps: nat := *;
      while steps > 0
        invariant Valid() && Leads(origin, Now(), own) && Leads(start, Now(), {})
      {
        var id: Id := *;
        var act: Act := *;
        ghost var before := Now();
        var w := Apply(WorldIn(table, id), act);
        Stepped(before, id, act);
        if w != WorldIn(table, id) {
          table := table[id := w];
          foreign := foreign + multiset{id};
        }
        LeadsOn(start, before, Now(), {}, {}, {});
        LeadsOn(origin, before, Now(), own, {}, own);
        steps := steps - 1;
      }
    }

    /** Carries out a planned write under its condition; one planned from what was stored when it was called
        fails only if others wrote to the target. */
    method Write(id: Id, previous: Option<State>, plan: Plan, ghost origin: Scene, ghost own: set<Id>)
      returns (done: bool)
      requires Valid() && Leads(origin, Now(), own) && id in own
      requires Sound(previous, plan) && (plan.Refresh? || plan.Announce?)
      requires previous.Some? ==> previous.value in WorldIn(table, id).past
      modifies this`table, this`journal, this`foreign
      ensures Valid() && Leads(origin, Now(), own) && foreign[id] >= old(foreign)[id]
      ensures old(WorldIn(table, id)).past <= WorldIn(table, id).past
      ensures done ==> plan.state in WorldIn(table, id).past && WorldIn(table, id).item == Some(plan.state)
      ensures done && plan.Announce? ==> plan.event in WorldIn(table, id).outbox
      ensures journal == old(journal) + if done && plan.Announce? then [Emitted(id, plan.event)] else []
      ensures !done && old(WorldIn(table, id)).item == previous ==> foreign[id] > old(foreign)[id]
    {
      ghost var start := Now();
      Meanwhile(origin, own);
      RecordStays(start, Now(), {}, id);
      var w := WorldIn(table, id);
      done := Matches(w.item, previous) && (plan.Announce? ==> plan.event !in w.outbox);
      if done {
        ghost var before := Now();
        Committed(before, id, previous, plan);
        table := table[id := Commit(w, previous, plan)];
        if plan.Announce? { journal := journal + [Emitted(id, plan.event)]; }
        LeadsOn(origin, before, Now(), own, {id}, own);
      } else if start.foreign[id] == foreign[id] && w.item == previous {
        assert Inv(w);
        FreshPlanCommits(w, plan);
      }
    }

    /** Up to four attempts, each of which fails only if others wrote to the target. Afterwards some stored
        state has taken account of the observation, unless it could not be ordered. */
    method Reconcile(id: Id, incoming: Observed, observedAt: Time) returns (result: Outcome)
      requires Valid() && incoming.vector.Valid()
      modifies this`table, this`journal, this`foreign, this`races
      ensures Valid() && Leads(old(Now()), Now(), {id})
      ensures journal == old(journal) + if result.event.Some? then [Emitted(id, result.event.value)] else []
      ensures result.state.Some? ==> result.state.value in WorldIn(table, id).past
      ensures result.event.Some? <==> result.action.Added? || result.action.Changed?
      ensures result.event.Some? ==>
                && result.state.Some? && result.state.value.active
                && result.event.value in WorldIn(table, id).outbox && result.event.value.Change?
                && (result.action.Added? <==> result.event.value.kind.NewTarget?)
                && !result.event.value.kind.Removal?
                && result.event.value.generation == result.state.value.generation
                && result.event.value.signature == result.state.value.signature
      ensures result.action.Added? || result.action.Changed? ==> Written(id, result, incoming, observedAt)
      ensures !result.action.Removed?
      ensures result.action.Raised? ==> incoming.vector.eni.Some? && !incoming.vector.Complete()
      ensures result.action.Revalidation? ==>
                && incoming.vector.eni.Some? && result.state.Some?
                && C.Compare(incoming.vector, result.state.value.target.vector) == Ok(C.Mixed)
      ensures !result.action.Raised? ==> result.state == WorldIn(table, id).item
      ensures result.action.Noop? || result.action.Added? || result.action.Changed? ==>
                result.state.Some? && Heeded(incoming, observedAt, result.state.value)
      ensures races == old(races) + if result.action.Race? then 1 else 0
      ensures result.action.Race? ==> foreign[id] >= old(foreign)[id] + MAX_RETRIES
    {
      ghost var origin := Now();
      Unmoved(origin, {id});
      for attempt := 0 to MAX_RETRIES
        invariant Valid() && Leads(origin, Now(), {id}) && journal == old(journal)
        invariant foreign[id] >= old(foreign)[id] + attempt && races == old(races)
      {
        ghost var before := Now();
        Meanwhile(origin, {id});
        RecordStays(before, Now(), {}, id);
        var previous := WorldIn(table, id).item;
        var plan := PlanReconcile(previous, incoming, observedAt);
        ReadIsPast(table, id);
        PlanIsSound(table, id, Inventory.Reconcile(previous, incoming, observedAt));
        PlansTakeOver(previous, incoming, observedAt);
        match plan {
          case Nothing => return Outcome(Noop, previous, None);
          case Revalidate => return Outcome(Revalidation, previous, None);
          case Raise => return Outcome(Raised, None, None);
          case Refresh(state) =>
            var done := Write(id, previous, plan, origin, {id});
            if done { return Outcome(Noop, Some(state), None); }
          case Announce(state, event) =>
            var done := Write(id, previous, plan, origin, {id});
            if done {
              assert Precedes(id, previous, state);
              var appeared := previous.None? || !previous.value.active;
              return Outcome(if appeared then Added else Changed, Some(state), Some(event));
            }
        }
      }
      ghost var last := Now();
      Meanwhile(origin, {id});
      RecordStays(last, Now(), {}, id);
      ReadIsPast(table, id);
      races := races + 1;
      return Outcome(Race, WorldIn(table, id).item, None);
    }

    /** The state written shows what was observed, and its event says what has changed. */
    ghost predicate Written(id: Id, result: Outcome, incoming: Observed, observedAt: Time)
      reads this`table
    {
      && result.state.Some? && result.event.Some? && result.event.value.Change?
      && exists previous :: Precedes(id, previous, result.state.value)
                            && Takes(result.state.value, previous, incoming, observedAt)
                            && Names(result.event.value.kind, previous, result.state.value.target)
    }

    /** What was stored of the target one generation earlier, if it is not the first. */
    ghost predicate Precedes(id: Id, previous: Option<State>, s: State)
      reads this`table
    {
      if previous.None? then s.generation == 1
      else previous.value in WorldIn(table, id).past && previous.value.generation + 1 == s.generation
    }

    /** Persists Config versions after a direct read confirmed the payload. */
    method ConfirmConfigVersions(id: Id, expected: State, observation: Observed) returns (result: Outcome)
      requires Valid() && expected in WorldIn(table, id).past
      modifies this`table, this`journal, this`foreign
      ensures Valid() && Leads(old(Now()), Now(), {id}) && journal == old(journal)
      ensures result.action.Noop? || result.action.Race? || result.action.Raised?
      ensures result.action.Raised? <==>
                Concerns(observation, expected) && !C.Confirms(observation.vector, expected.target.vector)
      ensures result.action.Raised? && observation.vector.Valid() ==>
                observation.vector.eni.Some? && !observation.vector.Complete()
      ensures result.action.Noop? ==> result.state.Some? && result.state.value in WorldIn(table, id).past
      ensures result.action.Noop? ==>
                if Concerns(observation, expected) then Confirming(expected, result.state.value, observation)
                else result.state.value == expected
      ensures result.action.Race? ==>
                foreign[id] > old(foreign)[id] || old(WorldIn(table, id)).item != Some(expected)
    {
      ghost var origin := Now();
      Unmoved(origin, {id});
      var plan := PlanConfirmation(expected, observation);
      PlanIsSound(table, id, Confirm(expected, observation));
      match plan {
        case Raise => return Outcome(Raised, None, None);
        case Refresh(state) =>
          var done := Write(id, Some(expected), plan, origin, {id});
          if done { return Outcome(Noop, Some(state), None); }
          ghost var before := Now();
          Meanwhile(origin, {id});
          RecordStays(before, Now(), {}, id);
          return Outcome(Race, WorldIn(table, id).item, None);
        case _ => return Outcome(Noop, Some(expected), None);
      }
    }

    /** Why a removal was not made: the stored state was observed later, or is not at the expected
        generation any more, or others wrote to the target. */
    ghost predicate Excused(id: Id, generation: nat, at: Time, result: Outcome, foreign0: multiset<Id>)
      reads this`table, this`foreign
    {
      match result.action
      case Noop =>
        && result.state.Some? && result.state.value in WorldIn(table, id).past
        && result.state.value.active && result.state.value.generation == generation
        && at <= result.state.value.observedAt
      case Race =>
        || foreign[id] > foreign0[id] || result.state.None?
        || !result.state.value.active || result.state.value.generation != generation
      case _ => false
    }

    method Remove(id: Id, expected: State, at: Time) returns (result: Outcome)
      requires Valid()
      modifies this`table, this`journal, this`foreign
      ensures Valid() && Leads(old(Now()), Now(), {id})
      ensures journal == old(journal) + if result.event.Some? then [Emitted(id, result.event.value)] else []
      ensures result.event.Some? <==> result.action.Removed?
      ensures result.action.Removed? ==>
                && result.event.value.Change? && result.event.value.kind.Removal?
                && result.event.value.generation == expected.generation + 1
                && result.event.value in WorldIn(table, id).outbox
                && result.state.Some? && result.state.value in WorldIn(table, id).past
                && !result.state.value.active && result.state.value.generation == expected.generation + 1
                && result.state.value.observedAt == at
      ensures result.action.Removed? || Excused(id, expected.generation, at, result, old(foreign))
      ensures old(WorldIn(table, id)).item == Some(expected) && expected.active && expected.observedAt < at ==>
                result.action.Removed? || foreign[id] > old(foreign)[id]
    {
      ghost var origin := Now();
      Unmoved(origin, {id});
      Meanwhile(origin, {id});
      RecordStays(origin, Now(), {}, id);
      var current := WorldIn(table, id).item;
      ReadIsPast(table, id);
      if current.None? || !current.value.active || current.value.generation != expected.generation {
        return Outcome(Race, current, None);
      }
      if at <= current.value.observedAt { return Outcome(Noop, current, None); }
      var plan := PlanRemoval(current.value, at);
      RemovalsEnd(current.value, at);
      PlanIsSound(table, id, Inventory.Remove(current.value, at));
      var done := Write(id, current, plan, origin, {id});
      if done { return Outcome(Removed, Some(plan.state), Some(plan.event)); }
      ghost var before := Now();
      Meanwhile(origin, {id});
      RecordStays(before, Now(), {}, id);
      return Outcome(Race, WorldIn(table, id).item, None);
    }

    method EnqueueCoverage(id: Id, state: State, content: Id) returns (result: Outcome)
      requires Valid()
      modifies this`table, this`journal, this`foreign
      ensures Valid() && Leads(old(Now()), Now(), {id})
      ensures result.action.Changed? ==>
                && Coverage(state.generation, content) in WorldIn(table, id).outbox
                && SomeUpserted(WorldIn(table, id).outbox, state.generation)
      ensures journal == old(journal) + if result.event.Some? then [Emitted(id, result.event.value)] else []
      ensures result.event.Some? ==> result.event.value == Coverage(state.generation, content)
      ensures result.event.Some? <==> result.action.Changed?
      ensures result.action.Noop? ==>
                || foreign[id] > old(foreign)[id]
                || Coverage(state.generation, content) in WorldIn(table, id).outbox
      ensures result.action.Race? ==>
                || foreign[id] > old(foreign)[id] || result.state.None?
                || !result.state.value.active || result.state.value.generation != state.generation
      ensures result.action.Changed? || result.action.Noop? || result.action.Race?
    {
      ghost var origin := Now();
      Unmoved(origin, {id});
      Meanwhile(origin, {id});
      RecordStays(origin, Now(), {}, id);
      var current := WorldIn(table, id).item;
      ReadIsPast(table, id);
      if current.None? || !current.value.active || current.value.generation != state.generation {
        return Outcome(Race, current, None);
      }
      ghost var reading := Now();
      Meanwhile(origin, {id});
      RecordStays(reading, Now(), {}, id);
      var w := WorldIn(table, id);
      if Covers(w, current.value, content) {
        ghost var before := Now();
        var event := Coverage(current.value.generation, content);
        Covered(before, id, current.value, content);
        table := table[id := w.(outbox := w.outbox + {event})];
        journal := journal + [Emitted(id, event)];
        LeadsOn(origin, before, Now(), {id}, {id}, {id});
        return Outcome(Changed, current, Some(event));
      }
      ghost var refused := Now();
      Meanwhile(origin, {id});
      RecordStays(refused, Now(), {}, id);
      var latest := WorldIn(table, id).item;
      var same := latest.Some? && latest.value.active && latest.value.generation == state.generation;
      return Outcome(if same then Noop else Race, latest, None);
    }

    /** The ownership validator looks at the live interface and answers anything. */
    method Validate(id: Id, generation: nat) returns (check: Check)
      requires Valid()
      modifies this`table, this`journal, this`foreign
      ensures Valid() && Leads(old(Now()), Now(), {})
      ensures journal == old(journal) + [Learned(id, generation, check)]
      ensures check.current.Some? ==> check.current.value == Direct(check.current.value)
    {
      ghost var origin := Now();
      Unmoved(origin, {});
      Meanwhile(origin, {});
      check := *;
      if check.current.Some? { check := check.(current := Some(Direct(check.current.value))); }
      journal := journal + [Learned(id, generation, check)];
    }

    method ClaimSignal(signal: Id, now: Time, ttl: nat) returns (ok: bool)
      modifies this`claims
      ensures ok <==> signal !in old(claims) || old(claims)[signal] < now
      ensures claims == if ok then old(claims)[signal := now + ttl] else old(claims)
    {
      ok := signal !in claims || claims[signal] < now;
      if ok { claims := claims[signal := now + ttl]; }
    }

    method ReleaseSignal(signal: Id)
      modifies this`claims
      ensures claims == old(claims) - {signal}
    {
      claims := claims - {signal};
    }
  }
}
