/** The snapshot and signal handlers: which targets they may remove, and what they report. */
module InventoryHandlers {
  import opened Base
  import opened Inventory
  import opened InventoryStore

  datatype Sighting = Sighting(id: Id, target: Observed, observedAt: Option<Time>)

  datatype Snapshot = Snapshot(complete: bool, scope: set<Id>, targets: seq<Sighting>)

  predicate InScope(allowed: Option<set<Id>>, address: Id) { allowed.Some? ==> address in allowed.value }

  /** The one target a managed canary may scan, on its own ports. */
  datatype Canary = Canary(id: Id, publicIp: Id, tag: Id, ports: Id)

  predicate IsCanary(canary: Canary, t: Sighting) {
    t.id == canary.id && t.target.publicIp == canary.publicIp && canary.tag in t.target.tags
  }

  /** Which targets a run is about. */
  datatype Focus = Focus(single: Option<Id>, canary: Option<Canary>, allowed: Option<set<Id>>)

  predicate Wanted(focus: Focus, t: Sighting) {
    && (focus.single.Some? ==> t.target.publicIp == focus.single.value)
    && (focus.canary.Some? ==> IsCanary(focus.canary.value, t))
    && InScope(focus.allowed, t.target.publicIp)
  }

  function Selected(targets: seq<Sighting>, focus: Focus): (s: seq<Sighting>)
    ensures forall t :: t in s <==>
              && t in targets && (focus.single.Some? ==> t.target.publicIp == focus.single.value)
              && (focus.allowed.Some? ==> t.target.publicIp in focus.allowed.value)
              && (focus.canary.Some? ==>
                    && t.id == focus.canary.value.id && t.target.publicIp == focus.canary.value.publicIp
                    && focus.canary.value.tag in t.target.tags)
    ensures focus.canary.Some? ==> Ids(s) <= {focus.canary.value.id}
  {
    if targets == [] then []
    else (if Wanted(focus, targets[0]) then [targets[0]] else []) + Selected(targets[1..], focus)
  }

  /** A canary is announced with its own ports, whatever was observed. */
  function Narrowed(t: Observed, canary: Option<Canary>): (n: Observed)
    ensures SignatureOf(n) == SignatureOf(t) && n.vector == t.vector
    ensures canary.None? ==> n == t
    ensures canary.Some? ==> n.canary && n.ports == canary.value.ports && n.tags == t.tags && n.details == t.details
  {
    if canary.Some? then t.(ports := canary.value.ports, canary := true) else t
  }

  function Ids(targets: seq<Sighting>): set<Id> { set i | 0 <= i < |targets| :: targets[i].id }

  function EventCount(counts: multiset<Action>): nat { counts[Added] + counts[Changed] + counts[Removed] }

  lemma OneMore(journal: seq<Entry>, e: Entry, start: nat)
    requires start <= |journal|
    ensures Emissions(journal + [e]) == Emissions(journal) + if e.Emitted? then 1 else 0
    ensures Changes(journal + [e]) == Changes(journal) + if IsChange(e) then 1 else 0
    ensures RemovedSince(journal + [e], start) == RemovedSince(journal, start) + if IsRemoval(e) then {e.id} else {}
  {
  }

  /** What the handlers promise of everything they add to the journal. */
  ghost predicate Orderly(before: seq<Entry>, after: seq<Entry>) {
    before <= after && (Disciplined(before) ==> Disciplined(after))
  }

  /** An upsert removes nobody. */
  lemma UpsertIsOrderly(start: seq<Entry>, before: seq<Entry>, after: seq<Entry>, id: Id, event: Option<Event>)
    requires Orderly(start, before) && after == before + (if event.Some? then [Emitted(id, event.value)] else [])
    requires event.Some? ==> event.value.Change? && !event.value.kind.Removal?
    ensures Orderly(start, after) && RemovedSince(after, |start|) == RemovedSince(before, |start|)
    ensures Emissions(after) == Emissions(before) + if event.Some? then 1 else 0
    ensures Changes(after) == Changes(before) + if event.Some? && !event.value.kind.NewTarget? then 1 else 0
  {
    if event.Some? {
      OneMore(before, Emitted(id, event.value), |start|);
    } else {
      assert after == before;
    }
  }

  lemma LearningIsOrderly(start: seq<Entry>, before: seq<Entry>, e: Entry)
    requires Orderly(start, before) && e.Learned?
    ensures var after := before + [e];
            && Orderly(start, after) && Emissions(after) == Emissions(before) && Changes(after) == Changes(before)
            && RemovedSince(after, |start|) == RemovedSince(before, |start|)
  {
  }

  /** A removal right after the verdict that the target is gone. */
  lemma RemovalIsOrderly(start: seq<Entry>, asked: seq<Entry>, e: Entry)
    requires Orderly(start, asked) && |asked| > |start| && IsRemoval(e)
    requires Backs(asked[|asked| - 1], e)
    ensures var after := asked + [e];
            && Orderly(start, after) && Emissions(after) == Emissions(asked) + 1 && Changes(after) == Changes(asked) + 1
            && RemovedSince(after, |start|) == RemovedSince(asked, |start|) + {e.id}
  {
    OneMore(asked, e, |start|);
    var after := asked + [e];
    forall i | 0 <= i < |after| && IsRemoval(after[i]) && Disciplined(asked)
      ensures i > 0 && Backs(after[i - 1], after[i])
    {
      if i < |asked| { assert after[i] == asked[i]; }
    }
  }

  // ---------------------------------------------------------------- what a look calls for

  predicate Replaceable(check: Check, eager: bool) {
    check.verdict.OwnerStale? && check.current.Some? && (eager || check.revisable)
  }

  /** Some state on record has taken account of the observation. */
  ghost predicate Noticed(table: map<Id, World>, id: Id, target: Observed, at: Time) {
    exists s :: s in WorldIn(table, id).past && Heeded(target, at, s)
  }

  /** The entry is a look at the target as stored, and what its verdict calls for was done: a target that is
      gone was removed right after, unless it had been observed later than now, and one that has changed was
      brought up to date. */
  ghost predicate Answered(journal: seq<Entry>, table: map<Id, World>, k: nat, id: Id, state: State, now: Time,
                           eager: bool)
  {
    && k < |journal| && journal[k].Learned? && journal[k].id == id && journal[k].generation == state.generation
    && (Gone(journal[k].check.verdict) ==>
          now <= state.observedAt || (k + 1 < |journal| && IsRemoval(journal[k + 1]) && journal[k + 1].id == id))
    && (Replaceable(journal[k].check, eager) ==> Noticed(table, id, journal[k].check.current.value, now))
  }

  /** Unless others wrote to the target, it was looked at and the verdict acted upon. */
  ghost predicate Attended(store: StateStore, start: nat, foreign0: multiset<Id>, id: Id, state: State, now: Time,
                           eager: bool)
    reads store`journal, store`table, store`foreign
  {
    || store.foreign[id] > foreign0[id]
    || exists k :: k >= start && Answered(store.journal, store.table, k, id, state, now, eager)
  }

  lemma AnsweredStays(before: seq<Entry>, after: seq<Entry>, a: Scene, b: Scene, own: set<Id>, k: nat, id: Id,
                      state: State, now: Time, eager: bool)
    requires before <= after && Leads(a, b, own) && Answered(before, a.table, k, id, state, now, eager)
    ensures Answered(after, b.table, k, id, state, now, eager)
  {
    RecordStays(a, b, own, id);
    if Replaceable(before[k].check, eager) {
      var s :| s in WorldIn(a.table, id).past && Heeded(before[k].check.current.value, now, s);
      assert s in WorldIn(b.table, id).past;
    }
  }

  /** Looks at the live target and removes it if it is gone. */
  method RemoveIfGone(store: StateStore, id: Id, state: State, now: Time, ghost start: seq<Entry>)
    returns (check: Check, result: Outcome)
    requires store.Valid() && Orderly(start, store.journal)
    modifies store`table, store`journal, store`foreign
    ensures store.Valid() && Leads(old(store.Now()), store.Now(), {id}) && Orderly(start, store.journal)
    ensures check.current.Some? ==> check.current.value == Direct(check.current.value)
    ensures result.action.Race? || result.action.Noop? || (result.action.Removed? && Gone(check.verdict))
    ensures old(store.journal) + [Learned(id, state.generation, check)] <= store.journal
    ensures result.action.Removed? ==>
              |store.journal| == |old(store.journal)| + 2
              && IsRemoval(store.journal[|old(store.journal)| + 1]) && store.journal[|old(store.journal)| + 1].id == id
    ensures Gone(check.verdict) ==>
              result.action.Removed? || store.Excused(id, state.generation, now, result, old(store.foreign))
    ensures Gone(check.verdict) && old(WorldIn(store.table, id)).item == Some(state) ==>
              || result.action.Removed? || store.foreign[id] > old(store.foreign)[id]
              || !state.active || now <= state.observedAt
    ensures !Gone(check.verdict) ==> result.action.Noop? && Leads(old(store.Now()), store.Now(), {})
    ensures Emissions(store.journal) == Emissions(old(store.journal)) + if result.action.Removed? then 1 else 0
    ensures Changes(store.journal) == Changes(old(store.journal)) + if result.action.Removed? then 1 else 0
    ensures RemovedSince(store.journal, |start|)
         == RemovedSince(old(store.journal), |start|) + if result.action.Removed? then {id} else {}
  {
    ghost var before, origin := store.journal, store.Now();
    check := store.Validate(id, state.generation);
    LearningIsOrderly(start, before, Learned(id, state.generation, check));
    RecordStays(origin, store.Now(), {}, id);
    result := Outcome(Noop, None, None);
    if Gone(check.verdict) {
      ghost var asked, middle := store.journal, store.Now();
      result := store.Remove(id, state, now);
      RecordStays(middle, store.Now(), {id}, id);
      LeadsOn(origin, middle, store.Now(), {}, {id}, {id});
      if result.event.Some? {
        RemovalIsOrderly(start, asked, Emitted(id, result.event.value));
      } else {
        assert store.journal == asked;
      }
    } else {
      LeadsOn(origin, store.Now(), store.Now(), {}, {}, {id});
    }
  }

  /** Reconciles a target and notes the event, if any. */
  method Observe(store: StateStore, id: Id, target: Observed, at: Time, ghost start: seq<Entry>)
    returns (result: Outcome)
    requires store.Valid() && target.vector.Valid() && Orderly(start, store.journal)
    modifies store`table, store`journal, store`foreign, store`races
    ensures store.Valid() && Leads(old(store.Now()), store.Now(), {id}) && Orderly(start, store.journal)
    ensures old(store.journal) <= store.journal
    ensures RemovedSince(store.journal, |start|) == RemovedSince(old(store.journal), |start|)
    ensures Emissions(store.journal)
         == Emissions(old(store.journal)) + if result.action.Added? || result.action.Changed? then 1 else 0
    ensures Changes(store.journal) == Changes(old(store.journal)) + if result.action.Changed? then 1 else 0
    ensures store.races == old(store.races) + if result.action.Race? then 1 else 0
    ensures result.state.Some? ==> result.state.value in WorldIn(store.table, id).past
    ensures !result.action.Removed?
    ensures result.action.Raised? ==> target.vector.eni.Some? && !target.vector.Complete()
    ensures result.action.Revalidation? ==> target.vector.eni.Some? && result.state.Some?
    ensures !result.action.Raised? ==> WorldIn(store.table, id).item == result.state
    ensures result.action.Noop? || result.action.Added? || result.action.Changed? ==>
              result.state.Some? && Heeded(target, at, result.state.value) && Noticed(store.table, id, target, at)
    ensures result.action.Race? ==> store.foreign[id] >= old(store.foreign)[id] + MAX_RETRIES
  {
    ghost var before := store.journal;
    result := store.Reconcile(id, target, at);
    UpsertIsOrderly(start, before, store.journal, id, result.event);
  }

  // ---------------------------------------------------------------- snapshots

  /** The stored state's versions were confirmed from the observation, if they were about the same. */
  ghost predicate ConfirmedFrom(table: map<Id, World>, id: Id, state: State, target: Observed) {
    Concerns(target, state) ==> exists s :: s in WorldIn(table, id).past && Confirming(state, s, target)
  }

  /** What the look at an observation that could not be ordered led to, if others did not interfere: a target
      that is gone was removed unless observed later than now, the versions of one that is active were
      confirmed, and one that has changed was brought up to date and then confirmed. */
  ghost predicate Resolved(table: map<Id, World>, seen: Sighting, state: State, check: Check, action: Action,
                           now: Time)
  {
    && (Gone(check.verdict) && state.active && state.observedAt < now ==> action.Removed?)
    && (check.verdict.OwnerActive? ==> ConfirmedFrom(table, seen.id, state, seen.target))
    && (Replaceable(check, false) ==>
          exists s :: s in WorldIn(table, seen.id).past && Heeded(check.current.value, now, s)
                      && (s.signature == SignatureOf(seen.target) ==> ConfirmedFrom(table, seen.id, s, seen.target)))
  }

  /** Settles an observation that could not be ordered by looking at the live target. None: raised. */
  method Resolve(store: StateStore, seen: Sighting, state: State, now: Time, ghost start: seq<Entry>)
    returns (action: Option<Action>, ghost check: Check)
    requires store.Valid() && Orderly(start, store.journal) && seen.target.vector.Valid()
    requires WorldIn(store.table, seen.id).item == Some(state)
    modifies store`table, store`journal, store`foreign, store`races
    ensures store.Valid() && Orderly(start, store.journal) && Leads(old(store.Now()), store.Now(), {seen.id})
    ensures old(store.journal) + [Learned(seen.id, state.generation, check)] <= store.journal
    ensures action.Some? ==> !action.value.Raised? && !action.value.Revalidation?
    ensures action.None? ==> seen.target.vector.eni.Some? && !seen.target.vector.Complete()
    ensures action.Some? ==>
              Emissions(store.journal) == Emissions(old(store.journal)) + EventCount(multiset{action.value})
    ensures RemovedSince(store.journal, |start|) <= RemovedSince(old(store.journal), |start|) + {seen.id}
    ensures action.Some? && store.foreign[seen.id] == old(store.foreign)[seen.id] ==>
              Resolved(store.table, seen, state, check, action.value, now)
  {
    ghost var origin := store.Now();
    ReadIsPast(store.table, seen.id);
    var seenCheck, result := RemoveIfGone(store, seen.id, state, now, start);
    check := seenCheck;
    ghost var looked := store.Now();
    RecordStays(origin, looked, {seen.id}, seen.id);
    if Gone(seenCheck.verdict) { return Some(result.action), check; }
    RecordStays(origin, looked, {}, seen.id);
    if seenCheck.verdict.OwnerStale? && seenCheck.current.Some? && seenCheck.revisable {
      result := Observe(store, seen.id, seenCheck.current.value, now, start);
      ghost var observed := store.Now();
      RecordStays(looked, observed, {seen.id}, seen.id);
      LeadsOn(origin, looked, observed, {seen.id}, {seen.id}, {seen.id});
      if result.state.Some? && result.state.value.signature == SignatureOf(seen.target) {
        var confirmed := store.ConfirmConfigVersions(seen.id, result.state.value, seen.target);
        RecordStays(observed, store.Now(), {seen.id}, seen.id);
        LeadsOn(origin, observed, store.Now(), {seen.id}, {seen.id}, {seen.id});
        if confirmed.action.Raised? { return None, check; }
      }
      return Some(result.action), check;
    }
    if seenCheck.verdict.OwnerActive? {
      result := store.ConfirmConfigVersions(seen.id, state, seen.target);
      RecordStays(looked, store.Now(), {seen.id}, seen.id);
      LeadsOn(origin, looked, store.Now(), {seen.id}, {seen.id}, {seen.id});
      return if result.action.Raised? then None else Some(result.action), check;
    }
    return Some(Noop), check;
  }

  /** The observation was taken account of, or led to a look at the live target. */
  ghost predicate Considered(store: StateStore, start: nat, foreign0: multiset<Id>, seen: Sighting, at: Time)
    reads store`journal, store`table, store`foreign
  {
    || store.foreign[seen.id] > foreign0[seen.id] || Noticed(store.table, seen.id, seen.target, at)
    || exists k :: start <= k < |store.journal| && store.journal[k].Learned? && store.journal[k].id == seen.id
  }

  /** Reconciles one observed target, with a direct look where the observation could not be ordered. */
  method Apply(store: StateStore, seen: Sighting, at: Time, now: Time, ghost start: seq<Entry>)
    returns (action: Option<Action>)
    requires store.Valid() && Orderly(start, store.journal) && seen.target.vector.Valid()
    modifies store`table, store`journal, store`foreign, store`races
    ensures store.Valid() && Orderly(start, store.journal) && Leads(old(store.Now()), store.Now(), {seen.id})
    ensures old(store.journal) <= store.journal
    ensures action.Some? ==>
              Emissions(store.journal) == Emissions(old(store.journal)) + EventCount(multiset{action.value})
    ensures RemovedSince(store.journal, |start|) <= RemovedSince(old(store.journal), |start|) + {seen.id}
    ensures action.None? ==> seen.target.vector.eni.Some? && !seen.target.vector.Complete()
    ensures action.Some? ==> Considered(store, |old(store.journal)|, old(store.foreign), seen, at)
  {
    ghost var origin := store.Now();
    var result := Observe(store, seen.id, seen.target, at, start);
    if result.action.Raised? { return None; }
    if result.action.Revalidation? {
      ghost var observed, before := store.Now(), store.journal;
      ghost var check;
      action, check := Resolve(store, seen, result.state.value, now, start);
      LeadsOn(origin, observed, store.Now(), {seen.id}, {seen.id}, {seen.id});
      assert store.journal[|before|].Learned?;
    } else {
      action := Some(result.action);
    }
  }

  /** The key of a row to be read. */
  datatype Row = Row(id: Id)

  /** Active targets of the scope, read one after the other while others keep committing. Whatever is active
      all the time is among them. */
  method ListCurrent(store: StateStore, scope: set<Id>) returns (current: seq<(Id, State)>)
    requires store.Valid()
    modifies store`table, store`foreign
    ensures store.Valid() && Leads(old(store.Now()), store.Now(), {})
    ensures forall i, j :: 0 <= i < j < |current| ==> current[i].0 != current[j].0
    ensures forall i :: 0 <= i < |current| ==> current[i].0 in scope && current[i].1.active
    ensures forall i :: 0 <= i < |current| ==>
              || store.foreign[current[i].0] > old(store.foreign)[current[i].0]
              || WorldIn(store.table, current[i].0).item == Some(current[i].1)
    ensures forall id :: id in scope ==>
              var item := old(WorldIn(store.table, id)).item;
              || store.foreign[id] > old(store.foreign)[id] || item.None? || !item.value.active
              || (id, item.value) in current
  {
    var later: set<Row> := *;
    var pending := (set id | id in store.table :: Row(id)) + later;
    current := [];
    ghost var start := store.Now();
    Unmoved(start, {});
    while pending != {}
      invariant store.Valid() && Leads(start, store.Now(), {})
      invariant forall i, j :: 0 <= i < j < |current| ==> current[i].0 != current[j].0
      invariant forall i :: 0 <= i < |current| ==>
                  current[i].0 in scope && current[i].1.active && Row(current[i].0) !in pending
      invariant forall i :: 0 <= i < |current| ==> ReadNow(start, store.Now(), current[i].0, current[i].1)
      invariant forall id :: id in scope && Row(id) !in pending ==> Found(start, store.Now(), id, current)
    {
      var row :| row in pending;
      pending := pending - {row};
      var id := row.id;
      ghost var before, listed := store.Now(), current;
      store.Meanwhile(start, {});
      RecordStays(start, store.Now(), {}, id);
      var item := WorldIn(store.table, id).item;
      if id in scope && item.Some? && item.value.active { current := current + [(id, item.value)]; }
      forall i | 0 <= i < |listed| ensures ReadNow(start, store.Now(), listed[i].0, listed[i].1) {
        assert ReadNow(start, before, listed[i].0, listed[i].1);
        RecordStays(start, before, {}, listed[i].0);
        RecordStays(before, store.Now(), {}, listed[i].0);
      }
      forall other | other in scope && Row(other) !in pending ensures Found(start, store.Now(), other, current) {
        if other != id {
          assert Found(start, before, other, listed);
          RecordStays(start, before, {}, other);
          RecordStays(before, store.Now(), {}, other);
        }
      }
    }
    forall i | 0 <= i < |current| ensures store.foreign[current[i].0] > start.foreign[current[i].0]
                                          || WorldIn(store.table, current[i].0).item == Some(current[i].1)
    {
      assert ReadNow(start, store.Now(), current[i].0, current[i].1);
    }
    forall id | id in scope ensures Found(start, store.Now(), id, current) {}
  }

  /** What was read is still stored, unless others wrote to it. */
  ghost predicate ReadNow(start: Scene, now: Scene, id: Id, state: State) {
    now.foreign[id] > start.foreign[id] || WorldIn(now.table, id).item == Some(state)
  }

  /** A target that was active at the start is listed, unless others wrote to it. */
  ghost predicate Found(start: Scene, now: Scene, id: Id, current: seq<(Id, State)>) {
    var item := WorldIn(start.table, id).item;
    now.foreign[id] > start.foreign[id] || item.None? || !item.value.active || (id, item.value) in current
  }

  /** An active target that the snapshot did not see: remove it if gone, refresh it if it changed. */
  method Review(store: StateStore, id: Id, state: State, now: Time, ghost start: seq<Entry>)
    returns (counted: multiset<Action>)
    requires store.Valid() && Orderly(start, store.journal) && state.active
    modifies store`table, store`journal, store`foreign, store`races
    ensures store.Valid() && Orderly(start, store.journal) && Leads(old(store.Now()), store.Now(), {id})
    ensures old(store.journal) <= store.journal
    ensures Emissions(store.journal) == Emissions(old(store.journal)) + EventCount(counted)
    ensures old(WorldIn(store.table, id)).item == Some(state) ==>
              Attended(store, |old(store.journal)|, old(store.foreign), id, state, now, false)
  {
    ghost var origin, before := store.Now(), store.journal;
    var check, result := RemoveIfGone(store, id, state, now, start);
    if Gone(check.verdict) {
      assert store.foreign[id] > origin.foreign[id] || WorldIn(origin.table, id).item != Some(state)
             || Answered(store.journal, store.table, |before|, id, state, now, false);
      return multiset{result.action};
    }
    if check.verdict.OwnerStale? && check.current.Some? && check.revisable {
      ghost var looked := store.Now();
      result := Observe(store, id, check.current.value, now, start);
      RecordStays(looked, store.Now(), {id}, id);
      RecordStays(origin, looked, {id}, id);
      LeadsOn(origin, looked, store.Now(), {id}, {id}, {id});
      assert store.foreign[id] > origin.foreign[id]
             || Answered(store.journal, store.table, |before|, id, state, now, false);
      return multiset{result.action};
    }
    assert Answered(store.journal, store.table, |before|, id, state, now, false);
    return multiset{};
  }

  function TimeOf(t: Sighting, now: Time): Time { if t.observedAt.Some? then t.observedAt.value else now }

  /** No observation is of the future, and every Config observation has all its versions. */
  predicate Orderable(selected: seq<Sighting>, now: Time) {
    forall t :: t in selected ==> TimeOf(t, now) <= now && (t.target.vector.eni.Some? ==> t.target.vector.Complete())
  }

  lemma NoticedStays(a: Scene, b: Scene, own: set<Id>, id: Id, target: Observed, at: Time)
    requires Leads(a, b, own) && Noticed(a.table, id, target, at)
    ensures Noticed(b.table, id, target, at)
  {
    RecordStays(a, b, own, id);
    var s :| s in WorldIn(a.table, id).past && Heeded(target, at, s);
    assert s in WorldIn(b.table, id).past;
  }

  /** The selected targets one after the other. */
  method ApplyAll(store: StateStore, selected: seq<Sighting>, canary: Option<Canary>, now: Time,
                  ghost start: seq<Entry>) returns (raised: bool, counts: multiset<Action>)
    requires store.Valid() && store.journal == start
    requires forall i :: 0 <= i < |selected| ==> selected[i].target.vector.Valid()
    modifies store`table, store`journal, store`foreign, store`faults, store`races
    ensures store.Valid() && Orderly(start, store.journal) && Leads(old(store.Now()), store.Now(), Ids(selected))
    ensures !raised ==> EventCount(counts) == Emissions(store.journal) - Emissions(start)
    ensures RemovedSince(store.journal, |start|) <= Ids(selected)
    ensures raised ==> store.faults > old(store.faults) || !Orderable(selected, now)
    ensures store.faults >= old(store.faults) && (!raised ==> store.faults == old(store.faults))
    ensures !raised ==> forall i :: 0 <= i < |selected| ==>
              && TimeOf(selected[i], now) <= now
              && Considered(store, |start|, old(store.foreign), selected[i], TimeOf(selected[i], now))
  {
    ghost var origin := store.Now();
    Unmoved(origin, Ids(selected));
    counts := multiset{};
    for i := 0 to |selected|
      invariant store.Valid() && Orderly(start, store.journal) && Leads(origin, store.Now(), Ids(selected))
      invariant EventCount(counts) == Emissions(store.journal) - Emissions(start)
      invariant RemovedSince(store.journal, |start|) <= Ids(selected) && store.faults == old(store.faults)
      invariant forall k :: 0 <= k < i ==>
                  && TimeOf(selected[k], now) <= now
                  && Considered(store, |start|, origin.foreign, selected[k], TimeOf(selected[k], now))
    {
      assert selected[i] in selected;
      var seen := selected[i].(target := Narrowed(selected[i].target, canary));
      var at := TimeOf(seen, now);
      if at > now { return true, counts; }
      ghost var before, journal := store.Now(), store.journal;
      var action := Apply(store, seen, at, now, start);
      LeadsOn(origin, before, store.Now(), Ids(selected), {seen.id}, Ids(selected));
      if action.None? { return true, counts; }
      var broke := store.Fails();
      if broke { return true, counts; }
      counts := counts + multiset{action.value};
      RecordStays(origin, before, Ids(selected), seen.id);
      forall k | 0 <= k <= i
        ensures Considered(store, |start|, origin.foreign, selected[k], TimeOf(selected[k], now))
      {
        if k < i {
          StillConsidered(store, start, journal, origin, before, {seen.id}, selected[k], TimeOf(selected[k], now));
        }
      }
    }
    return false, counts;
  }

  lemma StillConsidered(store: StateStore, start: seq<Entry>, journal: seq<Entry>, origin: Scene, before: Scene,
                        own: set<Id>, seen: Sighting, at: Time)
    requires journal <= store.journal && Leads(before, store.Now(), own)
    requires || before.foreign[seen.id] > origin.foreign[seen.id] || Noticed(before.table, seen.id, seen.target, at)
             || exists k :: |start| <= k < |journal| && journal[k].Learned? && journal[k].id == seen.id
    ensures Considered(store, |start|, origin.foreign, seen, at)
  {
    RecordStays(before, store.Now(), own, seen.id);
    if Noticed(before.table, seen.id, seen.target, at) {
      NoticedStays(before, store.Now(), own, seen.id, seen.target, at);
    } else if before.foreign[seen.id] <= origin.foreign[seen.id] {
      var k :| |start| <= k < |journal| && journal[k].Learned? && journal[k].id == seen.id;
      assert store.journal[k].Learned? && store.journal[k].id == seen.id;
    }
  }

  lemma StillAttended(store: StateStore, start: nat, journal: seq<Entry>, origin: Scene, before: Scene, own: set<Id>,
                      id: Id, state: State, now: Time, eager: bool)
    requires journal <= store.journal && Leads(before, store.Now(), own)
    requires || before.foreign[id] > origin.foreign[id]
             || exists k :: k >= start && Answered(journal, before.table, k, id, state, now, eager)
    ensures Attended(store, start, origin.foreign, id, state, now, eager)
  {
    RecordStays(before, store.Now(), own, id);
    if before.foreign[id] <= origin.foreign[id] {
      var k :| k >= start && Answered(journal, before.table, k, id, state, now, eager);
      AnsweredStays(journal, store.journal, before, store.Now(), own, k, id, state, now, eager);
    }
  }

  lemma JustAttended(store: StateStore, start: nat, recent: nat, foreign0: multiset<Id>, foreign1: multiset<Id>, id: Id,
                     state: State, now: Time, eager: bool)
    requires start <= recent && foreign0[id] <= foreign1[id] <= store.foreign[id]
    requires foreign0[id] == foreign1[id] ==> Attended(store, recent, foreign1, id, state, now, eager)
    ensures Attended(store, start, foreign0, id, state, now, eager)
  {
    if store.foreign[id] == foreign0[id] {
      var k :| k >= recent && Answered(store.journal, store.table, k, id, state, now, eager);
      assert k >= start;
    }
  }

  /** Is the target to be looked at for not having been seen? */
  predicate Missing(id: Id, state: State, allowed: Option<set<Id>>, seen: set<Id>) {
    InScope(allowed, state.target.publicIp) && id !in seen
  }

  function IdsOf(current: seq<(Id, State)>): set<Id> { set i | 0 <= i < |current| :: current[i].0 }

  /** The listed targets that the snapshot did not see, one after the other. */
  method ReviewAll(store: StateStore, current: seq<(Id, State)>, allowed: Option<set<Id>>, seen: set<Id>, now: Time,
                   ghost start: seq<Entry>) returns (raised: bool, counts: multiset<Action>)
    requires store.Valid() && Orderly(start, store.journal)
    requires forall i, j :: 0 <= i < j < |current| ==> current[i].0 != current[j].0
    requires forall i :: 0 <= i < |current| ==> current[i].1.active
    modifies store`table, store`journal, store`foreign, store`faults, store`races
    ensures store.Valid() && Orderly(start, store.journal) && old(store.journal) <= store.journal
    ensures Leads(old(store.Now()), store.Now(), IdsOf(current))
    ensures store.faults == old(store.faults) + if raised then 1 else 0
    ensures !raised ==> EventCount(counts) == Emissions(store.journal) - Emissions(old(store.journal))
    ensures !raised ==> forall i :: 0 <= i < |current| && Missing(current[i].0, current[i].1, allowed, seen) ==>
              || old(WorldIn(store.table, current[i].0)).item != Some(current[i].1)
              || Attended(store, |old(store.journal)|, old(store.foreign), current[i].0, current[i].1, now, false)
  {
    ghost var origin, entries := store.Now(), store.journal;
    ghost var all := IdsOf(current);
    Unmoved(origin, all);
    counts := multiset{};
    for i := 0 to |current|
      invariant store.Valid() && Orderly(start, store.journal) && entries <= store.journal
      invariant Leads(origin, store.Now(), IdsOf(current[..i])) && store.faults == old(store.faults)
      invariant EventCount(counts) == Emissions(store.journal) - Emissions(entries)
      invariant forall k :: 0 <= k < i && Missing(current[k].0, current[k].1, allowed, seen) ==>
                  || WorldIn(origin.table, current[k].0).item != Some(current[k].1)
                  || Attended(store, |entries|, origin.foreign, current[k].0, current[k].1, now, false)
    {
      var id, state := current[i].0, current[i].1;
      OneMoreId(current, i);
      if Missing(id, state, allowed, seen) {
        ghost var before, journal := store.Now(), store.journal;
        assert id !in IdsOf(current[..i]);
        RecordStays(origin, before, IdsOf(current[..i]), id);
        var action := Review(store, id, state, now, start);
        var broke := store.Fails();
        if broke {
          ghost var some := IdsOf(current[..i + 1]);
          LeadsOn(origin, before, store.Now(), IdsOf(current[..i]), {id}, some);
          Unmoved(store.Now(), all);
          Prefix(current, i + 1);
          LeadsOn(origin, store.Now(), store.Now(), some, all, all);
          return true, counts;
        }
        counts := counts + action;
        LeadsOn(origin, before, store.Now(), IdsOf(current[..i]), {id}, IdsOf(current[..i + 1]));
        if WorldIn(origin.table, id).item == Some(state) {
          RecordStays(before, store.Now(), {id}, id);
          JustAttended(store, |entries|, |journal|, origin.foreign, before.foreign, id, state, now, false);
        }
        forall k | 0 <= k < i && Missing(current[k].0, current[k].1, allowed, seen)
                   && WorldIn(origin.table, current[k].0).item == Some(current[k].1)
          ensures Attended(store, |entries|, origin.foreign, current[k].0, current[k].1, now, false)
        {
          StillAttended(store, |entries|, journal, origin, before, {id}, current[k].0, current[k].1, now, false);
        }
      } else {
        Unmoved(store.Now(), {});
        LeadsOn(origin, store.Now(), store.Now(), IdsOf(current[..i]), {}, IdsOf(current[..i + 1]));
      }
    }
    assert current[..|current|] == current;
    return false, counts;
  }

  lemma Prefix(current: seq<(Id, State)>, n: nat)
    requires n <= |current|
    ensures IdsOf(current[..n]) <= IdsOf(current)
  {
    forall k | 0 <= k < n ensures current[..n][k].0 in IdsOf(current) { assert current[..n][k] == current[k]; }
  }

  /** Every selected observation was taken account of or led to a look. */
  ghost predicate AllConsidered(store: StateStore, start: nat, foreign0: multiset<Id>, selected: seq<Sighting>,
                                now: Time)
    reads store`journal, store`table, store`foreign
  {
    forall i :: 0 <= i < |selected| ==> Considered(store, start, foreign0, selected[i], TimeOf(selected[i], now))
  }

  /** Every target of the scope that was active at the start and was not seen was looked at, and the verdict
      acted upon, unless others wrote to it. */
  ghost predicate AllAttended(store: StateStore, start: nat, origin: Scene, scope: set<Id>, allowed: Option<set<Id>>,
                              seen: set<Id>, now: Time, eager: bool)
    reads store`journal, store`table, store`foreign
  {
    forall id {:trigger WorldIn(origin.table, id)} ::
      && id in scope && WorldIn(origin.table, id).item.Some? && WorldIn(origin.table, id).item.value.active
      && id !in seen && (allowed.Some? ==> WorldIn(origin.table, id).item.value.target.publicIp in allowed.value)
      ==> Attended(store, start, origin.foreign, id, WorldIn(origin.table, id).item.value, now, eager)
  }

  /** Applies the observed targets, then removes only absences that a direct look confirms, and all of
      those. Any call may raise, which ends the run. */
  method ReconcileSnapshot(store: StateStore, batch: Snapshot, now: Time, focus: Focus, exact: bool)
    returns (raised: bool, counts: multiset<Action>)
    requires store.Valid() && forall i :: 0 <= i < |batch.targets| ==> batch.targets[i].target.vector.Valid()
    modifies store`table, store`journal, store`foreign, store`faults, store`races
    ensures store.Valid() && Orderly(old(store.journal), store.journal)
    ensures !raised ==> EventCount(counts) == Emissions(store.journal) - Emissions(old(store.journal))
    ensures !batch.complete || focus.single.Some? ==>
              RemovedSince(store.journal, |old(store.journal)|) <= Ids(Selected(batch.targets, focus))
    ensures exact && (!batch.complete || |Selected(batch.targets, focus)| != 1) ==>
              raised && store.journal == old(store.journal)
    ensures raised ==>
              || store.faults > old(store.faults) || !Orderable(Selected(batch.targets, focus), now)
              || (exact && (!batch.complete || |Selected(batch.targets, focus)| != 1))
    ensures !raised ==> store.faults == old(store.faults)
    ensures !raised ==> forall t :: t in Selected(batch.targets, focus) ==> TimeOf(t, now) <= now
    ensures !raised ==>
              AllConsidered(store, |old(store.journal)|, old(store.foreign), Selected(batch.targets, focus), now)
    ensures !raised && batch.complete && focus.single.None? ==>
              AllAttended(store, |old(store.journal)|, old(store.Now()), batch.scope, focus.allowed,
                          Ids(Selected(batch.targets, focus)), now, false)
  {
    ghost var start, origin := store.journal, store.Now();
    counts := multiset{};
    var selected := Selected(batch.targets, focus);
    if exact && (!batch.complete || |selected| != 1) { return true, counts; }
    forall i | 0 <= i < |selected| ensures selected[i].target.vector.Valid() { assert selected[i] in selected; }
    raised, counts := ApplyAll(store, selected, focus.canary, now, start);
    if raised { return; }
    if batch.complete && focus.single.None? {
      ghost var applied, entries := store.Now(), store.journal;
      var current := ListCurrent(store, batch.scope);
      ghost var listed := store.Now();
      raised := store.Fails();
      if raised { return; }
      var more: multiset<Action>;
      raised, more := ReviewAll(store, current, focus.allowed, Ids(selected), now, start);
      if raised { return; }
      counts := counts + more;
      SnapshotKeeps(store, start, entries, origin, applied, listed, selected, IdsOf(current), now);
      MissingAttended(store, |start|, |entries|, origin, applied, listed, current, batch.scope, focus.allowed,
                      Ids(selected), now, false);
    }
  }

  /** What was considered stays so while the rest is reviewed. */
  lemma SnapshotKeeps(store: StateStore, start: seq<Entry>, entries: seq<Entry>, origin: Scene, applied: Scene,
                      listed: Scene, selected: seq<Sighting>, reviewed: set<Id>, now: Time)
    requires entries <= store.journal && Leads(applied, listed, {}) && Leads(listed, store.Now(), reviewed)
    requires forall i :: 0 <= i < |selected| ==>
               var seen, at := selected[i], TimeOf(selected[i], now);
               || applied.foreign[seen.id] > origin.foreign[seen.id]
               || Noticed(applied.table, seen.id, seen.target, at)
               || exists k :: |start| <= k < |entries| && entries[k].Learned? && entries[k].id == seen.id
    ensures AllConsidered(store, |start|, origin.foreign, selected, now)
  {
    LeadsOn(applied, listed, store.Now(), {}, reviewed, reviewed);
    forall i | 0 <= i < |selected|
      ensures Considered(store, |start|, origin.foreign, selected[i], TimeOf(selected[i], now))
    {
      StillConsidered(store, start, entries, origin, applied, reviewed, selected[i], TimeOf(selected[i], now));
    }
  }

  /** Whatever was active all the time was listed, and whatever was listed and not seen was attended to. */
  lemma MissingAttended(store: StateStore, start: nat, recent: nat, origin: Scene, applied: Scene, listed: Scene,
                        current: seq<(Id, State)>, scope: set<Id>, allowed: Option<set<Id>>, seen: set<Id>, now: Time,
                        eager: bool)
    requires start <= recent && Leads(origin, applied, seen) && Leads(applied, listed, {})
    requires Leads(listed, store.Now(), IdsOf(current))
    requires forall id :: id in scope ==> Found(applied, listed, id, current)
    requires forall i :: 0 <= i < |current| ==> ReadNow(applied, listed, current[i].0, current[i].1)
    requires forall i :: 0 <= i < |current| && Missing(current[i].0, current[i].1, allowed, seen) ==>
               || WorldIn(listed.table, current[i].0).item != Some(current[i].1)
               || Attended(store, recent, listed.foreign, current[i].0, current[i].1, now, eager)
    ensures AllAttended(store, start, origin, scope, allowed, seen, now, eager)
  {
    forall id | id in scope && WorldIn(origin.table, id).item.Some? && WorldIn(origin.table, id).item.value.active
                && Missing(id, WorldIn(origin.table, id).item.value, allowed, seen)
      ensures Attended(store, start, origin.foreign, id, WorldIn(origin.table, id).item.value, now, eager)
    {
      var state := WorldIn(origin.table, id).item.value;
      RecordStays(origin, applied, seen, id);
      RecordStays(applied, listed, {}, id);
      RecordStays(listed, store.Now(), IdsOf(current), id);
      assert Found(applied, listed, id, current);
      if listed.foreign[id] == origin.foreign[id] {
        assert (id, state) in current;
        var i :| 0 <= i < |current| && current[i] == (id, state);
        assert ReadNow(applied, listed, current[i].0, current[i].1);
        JustAttended(store, start, recent, origin.foreign, listed.foreign, id, state, now, eager);
      }
    }
  }

  // ---------------------------------------------------------------- signals

  datatype Hint = Hint(signal: Id, accountAuthorized: bool, addresses: set<Id>, ports: Id, names: Id)

  datatype Resolution = Unresolved | Answer(targets: seq<Sighting>)

  datatype SignalStatus = Ignored | Duplicate | Processed(events: nat) | Failed | Stuck

  predicate ClaimedAt(claims: map<Id, Time>, signal: Id, now: Time) { signal in claims && claims[signal] >= now }

  /** What becomes of the claims: kept by a signal that was processed, given back where it failed. A claim
      is stuck until it expires where giving it back fails as well, or where it was made but its call
      raised. */
  predicate ClaimsAfter(status: SignalStatus, before: map<Id, Time>, after: map<Id, Time>, hint: Option<Hint>,
                        until: Time)
  {
    match status
    case Processed(_) => hint.Some? && after == before[hint.value.signal := until]
    case Stuck => hint.Some? && after == before[hint.value.signal := until]
    case Failed => after == before || (hint.Some? && after == before - {hint.value.signal})
    case _ => after == before
  }

  /** The claim goes back, so that the signal can be retried. */
  method GiveBack(store: StateStore, signal: Id) returns (status: SignalStatus)
    modifies store`claims, store`faults
    ensures status == if store.faults == old(store.faults) then Failed else Stuck
    ensures store.claims == if status == Failed then old(store.claims) - {signal} else old(store.claims)
    ensures store.faults >= old(store.faults)
  {
    var raised := store.Fails();
    if raised { return Stuck; }
    store.ReleaseSignal(signal);
    return Failed;
  }

  /** The reconciles of some target were overtaken four times in a row. */
  ghost predicate Overtaken(store: StateStore, foreign0: multiset<Id>)
    reads store`foreign
  {
    exists id: Id {:trigger store.foreign[id]} :: store.foreign[id] >= foreign0[id] + MAX_RETRIES
  }

  /** The account and all addresses are in scope, and the resolver knew the answer. */
  predicate Admissible(hint: Hint, resolution: Resolution, allowed: Option<set<Id>>) {
    && hint.accountAuthorized && (forall a :: a in hint.addresses ==> allowed.Some? ==> a in allowed.value)
    && resolution.Answer?
    && forall i :: 0 <= i < |resolution.targets| && allowed.Some? ==>
         resolution.targets[i].target.publicIp in allowed.value
  }

  /** Claims the signal, reconciles what it resolves to, then looks at the targets it used to concern. Any
      call may raise. */
  method ProcessSignal(store: StateStore, hint: Option<Hint>, resolution: Resolution, scope: set<Id>, now: Time,
                       ttl: nat, allowed: Option<set<Id>>) returns (status: SignalStatus)
    requires store.Valid()
    modifies store
    ensures store.Valid() && Orderly(old(store.journal), store.journal)
    ensures resolution.Answer? ==>
              RemovedSince(store.journal, |old(store.journal)|) !! Ids(resolution.targets)
    ensures ClaimsAfter(status, old(store.claims), store.claims, hint, now + ttl)
    ensures status.Processed? ==>
              && Admissible(hint.value, resolution, allowed)
              && !ClaimedAt(old(store.claims), hint.value.signal, now)
              && Changes(store.journal) - Changes(old(store.journal)) <= status.events
              && status.events <= Emissions(store.journal) - Emissions(old(store.journal))
              && (forall i :: 0 <= i < |resolution.targets| ==>
                    Noticed(store.table, resolution.targets[i].id, Direct(resolution.targets[i].target), now))
              && AllAttended(store, |old(store.journal)|, old(store.Now()), scope, allowed, Ids(resolution.targets),
                             now, true)
    ensures status.Ignored? <==> hint.None?
    ensures status.Ignored? || status.Duplicate? ==> store.journal == old(store.journal)
    ensures status.Duplicate? ==> hint.Some? && ClaimedAt(old(store.claims), hint.value.signal, now)
    ensures hint.Some? && !Admissible(hint.value, resolution, allowed) ==>
              status.Failed? && store.claims == old(store.claims) && store.journal == old(store.journal)
    ensures status.Failed? && Admissible(hint.value, resolution, allowed) ==>
              store.faults > old(store.faults) || Overtaken(store, old(store.foreign))
    ensures status.Stuck? ==> store.faults > old(store.faults)
    ensures status.Ignored? || status.Duplicate? || status.Processed? ==>
              store.faults == old(store.faults) && store.races == old(store.races)
  {
    ghost var start, origin := store.journal, store.Now();
    if hint.None? { return Ignored; }
    var signal := hint.value.signal;
    if !hint.value.accountAuthorized || exists a :: a in hint.value.addresses && !InScope(allowed, a) { return Failed; }
    if resolution.Unresolved? { return Failed; }
    if exists i :: 0 <= i < |resolution.targets| && !InScope(allowed, resolution.targets[i].target.publicIp) {
      return Failed;
    }
    var raised := store.Fails();
    if raised { return Failed; }
    var claimed := store.ClaimSignal(signal, now, ttl);
    raised := store.Fails();
    if raised { return if claimed then Stuck else Failed; }
    if !claimed { return Duplicate; }
    var fine, changed := Carry(store, hint.value, resolution.targets, scope, now, allowed);
    if fine { return Processed(changed); }
    status := GiveBack(store, signal);
  }

  /** What follows the claim. */
  method Carry(store: StateStore, hint: Hint, targets: seq<Sighting>, scope: set<Id>, now: Time,
               allowed: Option<set<Id>>)
    returns (fine: bool, changed: nat)
    requires store.Valid()
    modifies store`table, store`journal, store`foreign, store`faults, store`races
    ensures store.Valid() && Orderly(old(store.journal), store.journal)
    ensures RemovedSince(store.journal, |old(store.journal)|) !! Ids(targets)
    ensures fine ==>
              && Changes(store.journal) - Changes(old(store.journal)) <= changed
              && changed <= Emissions(store.journal) - Emissions(old(store.journal))
              && store.faults == old(store.faults) && store.races == old(store.races)
              && (forall i :: 0 <= i < |targets| ==>
                    Noticed(store.table, targets[i].id, Direct(targets[i].target), now))
              && AllAttended(store, |old(store.journal)|, old(store.Now()), scope, allowed, Ids(targets), now, true)
    ensures store.faults >= old(store.faults)
    ensures !fine ==> store.faults > old(store.faults) || Overtaken(store, old(store.foreign))
  {
    ghost var start, origin := store.journal, store.Now();
    changed := 0;
    var candidates := ListCurrent(store, scope);
    ghost var listed := store.Now();
    var raised := store.Fails();
    if raised { return false, 0; }
    fine, changed := Upsert(store, targets, now, start);
    ghost var applied, entries := store.Now(), store.journal;
    if !fine {
      OvertakenSince(store, origin, listed, {});
      return;
    }
    var more;
    fine, more := ReexamineAll(store, hint, candidates, allowed, Ids(targets), now, start);
    changed := changed + more;
    if !fine {
      LeadsOn(origin, listed, applied, {}, Ids(targets), Ids(targets));
      OvertakenSince(store, origin, applied, Ids(targets));
      return;
    }
    forall i | 0 <= i < |targets| ensures Noticed(store.table, targets[i].id, Direct(targets[i].target), now) {
      NoticedStays(applied, store.Now(), IdsOf(candidates), targets[i].id, Direct(targets[i].target), now);
    }
    CandidatesAttended(store, |start|, |entries|, origin, listed, applied, candidates, scope, allowed, Ids(targets),
                       now);
  }

  lemma OvertakenSince(store: StateStore, origin: Scene, later: Scene, own: set<Id>)
    requires Leads(origin, later, own)
    ensures Overtaken(store, later.foreign) ==> Overtaken(store, origin.foreign)
  {
    if Overtaken(store, later.foreign) {
      var id: Id :| store.foreign[id] >= later.foreign[id] + MAX_RETRIES;
      RecordStays(origin, later, own, id);
      assert store.foreign[id] >= origin.foreign[id] + MAX_RETRIES;
    }
  }

  lemma CandidatesAttended(store: StateStore, start: nat, recent: nat, origin: Scene, listed: Scene, applied: Scene,
                           current: seq<(Id, State)>, scope: set<Id>, allowed: Option<set<Id>>, seen: set<Id>,
                           now: Time)
    requires start <= recent && Leads(origin, listed, {}) && Leads(listed, applied, seen)
    requires Leads(applied, store.Now(), IdsOf(current))
    requires forall id :: id in scope ==> Found(origin, listed, id, current)
    requires forall i :: 0 <= i < |current| && Missing(current[i].0, current[i].1, allowed, seen) ==>
               || WorldIn(applied.table, current[i].0).item != Some(current[i].1)
               || Attended(store, recent, applied.foreign, current[i].0, current[i].1, now, true)
    ensures AllAttended(store, start, origin, scope, allowed, seen, now, true)
  {
    forall id | id in scope && WorldIn(origin.table, id).item.Some? && WorldIn(origin.table, id).item.value.active
                && Missing(id, WorldIn(origin.table, id).item.value, allowed, seen)
      ensures Attended(store, start, origin.foreign, id, WorldIn(origin.table, id).item.value, now, true)
    {
      var state := WorldIn(origin.table, id).item.value;
      RecordStays(origin, listed, {}, id);
      RecordStays(listed, applied, seen, id);
      RecordStays(applied, store.Now(), IdsOf(current), id);
      assert Found(origin, listed, id, current);
      if applied.foreign[id] == origin.foreign[id] {
        assert (id, state) in current;
        var i :| 0 <= i < |current| && current[i] == (id, state);
        JustAttended(store, start, recent, origin.foreign, applied.foreign, id, state, now, true);
      }
    }
  }

  /** A target that the signal used to concern and no longer resolves to. */
  method Reexamine(store: StateStore, hint: Hint, id: Id, state: State, now: Time, ghost start: seq<Entry>)
    returns (fine: bool, changed: nat)
    requires store.Valid() && Orderly(start, store.journal) && state.active
    modifies store`table, store`journal, store`foreign, store`faults, store`races
    ensures store.Valid() && Orderly(start, store.journal) && Leads(old(store.Now()), store.Now(), {id})
    ensures old(store.journal) <= store.journal
    ensures changed <= Emissions(store.journal) - Emissions(old(store.journal))
    ensures changed == Changes(store.journal) - Changes(old(store.journal))
    ensures fine ==> store.faults == old(store.faults) && store.races == old(store.races)
    ensures RemovedSince(store.journal, |start|) <= RemovedSince(old(store.journal), |start|) + {id}
    ensures fine && old(WorldIn(store.table, id)).item == Some(state) ==>
              Attended(store, |old(store.journal)|, old(store.foreign), id, state, now, true)
    ensures store.faults >= old(store.faults)
    ensures !fine ==> store.faults > old(store.faults) || Overtaken(store, old(store.foreign))
  {
    ghost var origin, before := store.Now(), store.journal;
    var check, result := RemoveIfGone(store, id, state, now, start);
    ghost var looked := store.Now();
    RecordStays(origin, looked, {id}, id);
    changed := if result.action.Removed? then 1 else 0;
    var raised := store.Fails();
    if raised { return false, changed; }
    if check.verdict.OwnerStale? && check.current.Some? {
      var more;
      fine, more := Update(store, hint, id, check.current.value, now, start);
      changed := changed + more;
      LeadsOn(origin, looked, store.Now(), {id}, {id}, {id});
      RecordStays(looked, store.Now(), {id}, id);
      if !fine {
        OvertakenSince(store, origin, looked, {id});
        return;
      }
    }
    assert store.foreign[id] > origin.foreign[id] || WorldIn(origin.table, id).item != Some(state)
           || Answered(store.journal, store.table, |before|, id, state, now, true);
    fine := true;
  }

  /** Brings a target up to date with the live one, under the names of the signal. */
  method Update(store: StateStore, hint: Hint, id: Id, live: Observed, now: Time, ghost start: seq<Entry>)
    returns (fine: bool, changed: nat)
    requires store.Valid() && Orderly(start, store.journal) && live == Direct(live)
    modifies store`table, store`journal, store`foreign, store`faults, store`races
    ensures store.Valid() && Orderly(start, store.journal) && Leads(old(store.Now()), store.Now(), {id})
    ensures old(store.journal) <= store.journal
    ensures changed <= Emissions(store.journal) - Emissions(old(store.journal))
    ensures changed == Changes(store.journal) - Changes(old(store.journal))
    ensures RemovedSince(store.journal, |start|) == RemovedSince(old(store.journal), |start|)
    ensures fine ==>
              && store.faults == old(store.faults) && store.races == old(store.races)
              && Noticed(store.table, id, live, now)
    ensures store.faults >= old(store.faults)
    ensures !fine ==> store.faults > old(store.faults) || Overtaken(store, old(store.foreign))
  {
    ghost var foreign0 := store.foreign;
    var current := live.(ports := hint.ports, details := hint.names);
    var result := Observe(store, id, current, now, start);
    changed := if result.action.Changed? then 1 else 0;
    if result.action.Race? {
      assert store.foreign[id] >= foreign0[id] + MAX_RETRIES;
      return false, changed;
    }
    var raised := store.Fails();
    if raised { return false, changed; }
    var s := result.state.value;
    assert s in WorldIn(store.table, id).past && Heeded(live, now, s);
    fine := true;
  }

  method ReexamineAll(store: StateStore, hint: Hint, current: seq<(Id, State)>, allowed: Option<set<Id>>, seen: set<Id>,
                      now: Time, ghost start: seq<Entry>) returns (fine: bool, changed: nat)
    requires store.Valid() && Orderly(start, store.journal) && RemovedSince(store.journal, |start|) !! seen
    requires forall i, j :: 0 <= i < j < |current| ==> current[i].0 != current[j].0
    requires forall i :: 0 <= i < |current| ==> current[i].1.active
    modifies store`table, store`journal, store`foreign, store`faults, store`races
    ensures store.Valid() && Orderly(start, store.journal) && old(store.journal) <= store.journal
    ensures Leads(old(store.Now()), store.Now(), IdsOf(current))
    ensures RemovedSince(store.journal, |start|) !! seen
    ensures changed <= Emissions(store.journal) - Emissions(old(store.journal))
    ensures changed == Changes(store.journal) - Changes(old(store.journal))
    ensures fine ==> store.faults == old(store.faults) && store.races == old(store.races)
    ensures store.faults >= old(store.faults)
    ensures !fine ==> store.faults > old(store.faults) || Overtaken(store, old(store.foreign))
    ensures fine ==> forall i :: 0 <= i < |current| && Missing(current[i].0, current[i].1, allowed, seen) ==>
              || old(WorldIn(store.table, current[i].0)).item != Some(current[i].1)
              || Attended(store, |old(store.journal)|, old(store.foreign), current[i].0, current[i].1, now, true)
  {
    ghost var origin, entries := store.Now(), store.journal;
    ghost var all := IdsOf(current);
    Unmoved(origin, all);
    changed := 0;
    for i := 0 to |current|
      invariant store.Valid() && Orderly(start, store.journal) && entries <= store.journal
      invariant Leads(origin, store.Now(), IdsOf(current[..i]))
      invariant store.faults == old(store.faults) && store.races == old(store.races)
      invariant changed <= Emissions(store.journal) - Emissions(entries)
      invariant changed == Changes(store.journal) - Changes(entries)
      invariant RemovedSince(store.journal, |start|) !! seen
      invariant forall k :: 0 <= k < i && Missing(current[k].0, current[k].1, allowed, seen) ==>
                  || WorldIn(origin.table, current[k].0).item != Some(current[k].1)
                  || Attended(store, |entries|, origin.foreign, current[k].0, current[k].1, now, true)
    {
      var id, state := current[i].0, current[i].1;
      OneMoreId(current, i);
      if Missing(id, state, allowed, seen) {
        ghost var before, journal := store.Now(), store.journal;
        assert id !in IdsOf(current[..i]);
        RecordStays(origin, before, IdsOf(current[..i]), id);
        var more;
        fine, more := Reexamine(store, hint, id, state, now, start);
        changed := changed + more;
        LeadsOn(origin, before, store.Now(), IdsOf(current[..i]), {id}, IdsOf(current[..i + 1]));
        if !fine {
          OvertakenSince(store, origin, before, IdsOf(current[..i]));
          Prefix(current, i + 1);
          Unmoved(store.Now(), all);
          LeadsOn(origin, store.Now(), store.Now(), IdsOf(current[..i + 1]), all, all);
          return;
        }
        if WorldIn(origin.table, id).item == Some(state) {
          RecordStays(before, store.Now(), {id}, id);
          JustAttended(store, |entries|, |journal|, origin.foreign, before.foreign, id, state, now, true);
        }
        forall k | 0 <= k < i && Missing(current[k].0, current[k].1, allowed, seen)
                   && WorldIn(origin.table, current[k].0).item == Some(current[k].1)
          ensures Attended(store, |entries|, origin.foreign, current[k].0, current[k].1, now, true)
        {
          StillAttended(store, |entries|, journal, origin, before, {id}, current[k].0, current[k].1, now, true);
        }
      } else {
        Unmoved(store.Now(), {});
        LeadsOn(origin, store.Now(), store.Now(), IdsOf(current[..i]), {}, IdsOf(current[..i + 1]));
      }
    }
    assert current[..|current|] == current;
    fine := true;
  }

  lemma OneMoreId(current: seq<(Id, State)>, i: nat)
    requires i < |current|
    ensures IdsOf(current[..i]) <= IdsOf(current[..i + 1]) && current[i].0 in IdsOf(current[..i + 1])
  {
    forall k | 0 <= k < i ensures current[k].0 in IdsOf(current[..i + 1]) { assert current[..i + 1][k] == current[k]; }
    assert current[..i + 1][i] == current[i];
  }

  /** The resolved targets one after the other. */
  method Upsert(store: StateStore, targets: seq<Sighting>, now: Time, ghost start: seq<Entry>)
    returns (fine: bool, changed: nat)
    requires store.Valid() && store.journal == start
    modifies store`table, store`journal, store`foreign, store`faults, store`races
    ensures store.Valid() && Orderly(start, store.journal) && RemovedSince(store.journal, |start|) == {}
    ensures start <= store.journal && Leads(old(store.Now()), store.Now(), Ids(targets))
    ensures changed == Emissions(store.journal) - Emissions(start)
    ensures Changes(store.journal) - Changes(start) <= changed
    ensures fine ==> store.faults == old(store.faults) && store.races == old(store.races)
    ensures store.faults >= old(store.faults)
    ensures !fine ==> store.faults > old(store.faults) || Overtaken(store, old(store.foreign))
    ensures fine ==> forall i :: 0 <= i < |targets| ==>
              Noticed(store.table, targets[i].id, Direct(targets[i].target), now)
  {
    ghost var origin := store.Now();
    Unmoved(origin, Ids(targets));
    fine, changed := true, 0;
    for i := 0 to |targets|
      invariant store.Valid() && Orderly(start, store.journal) && RemovedSince(store.journal, |start|) == {}
      invariant Leads(origin, store.Now(), Ids(targets))
      invariant store.faults == old(store.faults) && store.races == old(store.races)
      invariant changed == Emissions(store.journal) - Emissions(start) && fine
      invariant Changes(store.journal) - Changes(start) <= changed
      invariant forall k :: 0 <= k < i ==> Noticed(store.table, targets[k].id, Direct(targets[k].target), now)
    {
      ghost var before := store.Now();
      var id := targets[i].id;
      var result := Observe(store, id, Direct(targets[i].target), now, start);
      LeadsOn(origin, before, store.Now(), Ids(targets), {id}, Ids(targets));
      if result.action.Added? || result.action.Changed? { changed := changed + 1; }
      if result.action.Race? {
        RecordStays(origin, before, Ids(targets), id);
        assert store.foreign[id] >= origin.foreign[id] + MAX_RETRIES;
        return false, changed;
      }
      var raised := store.Fails();
      if raised { return false, changed; }
      forall k | 0 <= k < i ensures Noticed(store.table, targets[k].id, Direct(targets[k].target), now) {
        NoticedStays(before, store.Now(), {id}, targets[k].id, Direct(targets[k].target), now);
      }
    }
  }
}
