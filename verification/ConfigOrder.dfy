/** How AWS Config observations of one network interface are ordered: a version for the interface itself
    and one for each of its security groups. */
module ConfigOrder {
  import opened Base

  /** `groups` are the interface's security groups, sorted and unique; `at` holds the capture times known. */
  datatype Vector = Vector(groups: seq<Id>, eni: Option<Time>, at: map<Id, Time>) {
    /** Versions belong to the interface's own groups. */
    predicate Valid() { forall g :: g in at ==> g in groups }

    /** Every component has a version, as Config itself always delivers them. */
    predicate Complete() { Valid() && eni.Some? && forall g :: g in groups ==> g in at }
  }

  datatype Order = Advances | NotNewer | Mixed

  predicate GroupsKnown(incoming: Vector, previous: Vector) {
    forall g :: g in incoming.groups ==> g in previous.at
  }

  predicate SomeGroup(incoming: Vector, previous: Vector, newer: bool) {
    exists g :: g in incoming.groups && g in incoming.at && g in previous.at
                && (if newer then incoming.at[g] > previous.at[g] else incoming.at[g] < previous.at[g])
  }

  /** The comparison; Err where the source raises because the incoming vector is incomplete. */
  function Compare(incoming: Vector, previous: Vector): Result<Order, ()> {
    if incoming.eni.None? then Err(())
    else if incoming.groups != previous.groups && incoming.eni == previous.eni then Ok(Mixed)
    else if exists g :: g in incoming.groups && g !in incoming.at then Err(())
    else if previous.eni.None? || !GroupsKnown(incoming, previous) then Ok(Mixed)
    else
      var advanced := incoming.eni.value > previous.eni.value || SomeGroup(incoming, previous, true);
      var regressed := incoming.eni.value < previous.eni.value || SomeGroup(incoming, previous, false);
      if advanced && regressed then Ok(Mixed)
      else if advanced || (incoming.groups != previous.groups && !regressed) then Ok(Advances)
      else Ok(NotNewer)
  }

  /** The comparison as the source computes it: flags updated group by group. */
  method ConfigObservationOrder(incoming: Vector, previous: Vector) returns (order: Result<Order, ()>)
    ensures order == Compare(incoming, previous)
  {
    if incoming.eni.None? { return Err(()); }
    var advanced, regressed, unknown := false, false, previous.eni.None?;
    if previous.eni.Some? {
      advanced := incoming.eni.value > previous.eni.value;
      regressed := incoming.eni.value < previous.eni.value;
    }
    var changed := incoming.groups != previous.groups;
    if changed {
      if previous.eni.None? {
        unknown := true;
      } else if incoming.eni == previous.eni {
        return Ok(Mixed);
      }
    }
    for i := 0 to |incoming.groups|
      invariant forall g :: g in incoming.groups[..i] ==> g in incoming.at
      invariant unknown <==> previous.eni.None? || exists g :: g in incoming.groups[..i] && g !in previous.at
      invariant advanced <==>
                  || (previous.eni.Some? && incoming.eni.value > previous.eni.value)
                  || exists g :: g in incoming.groups[..i] && g in previous.at && incoming.at[g] > previous.at[g]
      invariant regressed <==>
                  || (previous.eni.Some? && incoming.eni.value < previous.eni.value)
                  || exists g :: g in incoming.groups[..i] && g in previous.at && incoming.at[g] < previous.at[g]
    {
      var g := incoming.groups[i];
      assert incoming.groups[..i + 1] == incoming.groups[..i] + [g];
      if g !in incoming.at { return Err(()); }
      if g !in previous.at {
        unknown := true;
        continue;
      }
      advanced := advanced || incoming.at[g] > previous.at[g];
      regressed := regressed || incoming.at[g] < previous.at[g];
    }
    assert incoming.groups[..|incoming.groups|] == incoming.groups;
    if unknown || (advanced && regressed) { return Ok(Mixed); }
    return Ok(if advanced || (changed && !regressed) then Advances else NotNewer);
  }

  // ---------------------------------------------------------------- what the verdicts mean

  /** No component of the newer vector is older, and something moved: the interface, or, with the same
      groups, one of the groups. Groups may only have been dropped. */
  predicate Supersedes(newer: Vector, older: Vector)
    requires newer.Complete() && older.Complete()
  {
    && (forall g :: g in newer.groups ==> g in older.groups && newer.at[g] >= older.at[g])
    && newer.eni.value >= older.eni.value
    && (newer.eni.value > older.eni.value
        || (newer.groups == older.groups && exists g :: g in newer.groups && newer.at[g] > older.at[g]))
  }

  /** Nothing the vector says is newer than what is known. */
  predicate AlreadyKnown(incoming: Vector, previous: Vector)
    requires incoming.Complete() && previous.Complete()
  {
    && (forall g :: g in incoming.groups ==> g in previous.groups && incoming.at[g] <= previous.at[g])
    && incoming.eni.value <= previous.eni.value
    && (incoming.groups == previous.groups || incoming.eni.value < previous.eni.value)
  }

  /** On complete vectors the flags decide exactly these two relations, and everything else is mixed. */
  lemma VerdictsMean(incoming: Vector, previous: Vector)
    requires incoming.Complete() && previous.Complete()
    ensures Compare(incoming, previous) == Ok(Advances) <==> Supersedes(incoming, previous)
    ensures Compare(incoming, previous) == Ok(NotNewer) <==> AlreadyKnown(incoming, previous)
  {
  }

  /** "Advances" is a strict partial order on complete vectors. */
  lemma AdvancesIsStrictOrder(a: Vector, b: Vector, c: Vector)
    requires a.Complete() && b.Complete() && c.Complete()
    ensures Compare(a, a) != Ok(Advances)
    ensures Compare(a, b) == Ok(Advances) ==> Compare(b, a) != Ok(Advances)
    ensures Compare(a, b) == Ok(Advances) && Compare(b, c) == Ok(Advances) ==> Compare(a, c) == Ok(Advances)
  {
  }

  // ---------------------------------------------------------------- replays

  /** A vector that advances past another makes all of it known. */
  lemma AdvancingTellsAll(incoming: Vector, previous: Vector)
    requires Compare(incoming, previous) == Ok(Advances)
    ensures incoming.eni.Some? && previous.eni.Some? && incoming.eni.value >= previous.eni.value
    ensures forall g :: g in incoming.groups ==>
              g in incoming.at && g in previous.at && incoming.at[g] >= previous.at[g]
    ensures incoming.eni.value > previous.eni.value
            || (incoming.groups == previous.groups && SomeGroup(incoming, previous, true))
  {
  }

  /** Transitivity, whether or not the oldest vector is complete. Hence an observation that does not
      advance past a vector does not advance past what superseded it: neither immediately nor along a
      chain of advances does the replay of an absorbed observation come into effect. */
  lemma ReplayStaysAbsorbed(replay: Vector, after: Vector, before: Vector)
    requires after.Valid() && Compare(after, before) == Ok(Advances)
    ensures Compare(replay, after) == Ok(Advances) ==> Compare(replay, before) == Ok(Advances)
  {
  }

  // ---------------------------------------------------------------- confirmation

  /** The observed vector has a version for every group of the vector it confirms. */
  predicate Confirms(observed: Vector, known: Vector) {
    observed.eni.Some? && observed.groups == known.groups && forall g :: g in observed.groups ==> g in observed.at
  }

  /** Componentwise maximum, for the groups of the vector being confirmed. */
  function Confirmed(known: Vector, observed: Vector): Vector
    requires Confirms(observed, known)
  {
    Vector(known.groups,
           Some(if known.eni.Some? then Max(known.eni.value, observed.eni.value) else observed.eni.value),
           map g | g in known.groups :: if g in known.at then Max(known.at[g], observed.at[g]) else observed.at[g])
  }

  /** Confirming a vector in which all components of an observation were known does not bring it back. */
  lemma ConfirmationKeepsAbsorbed(replay: Vector, known: Vector, observed: Vector)
    requires Confirms(observed, known) && known.eni.Some? && GroupsKnown(replay, known)
    ensures Compare(replay, Confirmed(known, observed)) == Ok(Advances) ==> Compare(replay, known) == Ok(Advances)
  {
  }

  /** A component of the observation was unknown, and the observation supersedes what the confirmation
      fills in. */
  predicate Revives(replay: Vector, known: Vector, observed: Vector)
    requires Confirms(observed, known)
  {
    && replay.Complete() && (known.eni.None? || !GroupsKnown(replay, known))
    && Supersedes(replay, Confirmed(known, observed))
  }

  /** An observation that did not advance past a vector advances past its confirmation in exactly that case. */
  lemma ConfirmationRevivesExactly(replay: Vector, known: Vector, observed: Vector)
    requires replay.Valid() && known.Valid() && Confirms(observed, known)
    requires Compare(replay, known) != Ok(Advances)
    ensures Compare(replay, Confirmed(known, observed)) == Ok(Advances) <==> Revives(replay, known, observed)
  {
    var after := Confirmed(known, observed);
    if replay.Complete() { VerdictsMean(replay, after); }
    if known.eni.Some? && GroupsKnown(replay, known) { ConfirmationKeepsAbsorbed(replay, known, observed); }
  }

  /** The case occurs: the interface's version was forgotten, and an old one confirmed. */
  lemma ConfirmationOfUnknownMayRevive()
    ensures var replay, known, observed := Vector([7], Some(10), map[7 := 10]), Vector([7], None, map[7 := 10]),
                                           Vector([7], Some(5), map[7 := 5]);
            && Compare(replay, known) == Ok(Mixed) && Confirms(observed, known) && Revives(replay, known, observed)
            && Compare(replay, Confirmed(known, observed)) == Ok(Advances)
  {
  }
}
