/** The claim item of one event. Workers take it with a put, take it over when it was released or its lease
    ran out, and finish or release it as its owner. Any number of them act on it at any time; the log
    holds the successful conditional writes in the order in which the table took them. */
module Claims {
  import opened Base

  datatype ClaimState = Claimed | Retryable | Dispatched | Stale | Cancelled | Removed | Expired

  predicate Terminal(state: ClaimState) { !state.Claimed? && !state.Retryable? }

  /** Owner and lease are present exactly while the item is claimed. */
  datatype Item = Item(state: ClaimState, owner: Option<Id>, lease: Option<Time>, attempts: nat)

  datatype Entry = Acquired(owner: Id, at: Time) | Completed(owner: Id, state: ClaimState) | Released(owner: Id)

  datatype World = World(item: Option<Item>, log: seq<Entry>)

  const EMPTY := World(None, [])

  // ---------------------------------------------------------------- conditional writes

  predicate OwnedBy(w: World, owner: Id) {
    w.item.Some? && w.item.value.state.Claimed? && w.item.value.owner == Some(owner)
  }

  /** attribute_not_exists */
  predicate CanPut(w: World) { w.item.None? }

  predicate CanTakeOver(w: World, now: Time) {
    && w.item.Some?
    && (w.item.value.state.Retryable?
        || (w.item.value.state.Claimed? && w.item.value.lease.Some? && w.item.value.lease.value <= now))
  }

  function Put(w: World, owner: Id, now: Time, lease: nat): World {
    World(Some(Item(Claimed, Some(owner), Some(now + lease), 1)), w.log + [Acquired(owner, now)])
  }

  function TakeOver(w: World, owner: Id, now: Time, lease: nat): World
    requires w.item.Some?
  {
    World(Some(Item(Claimed, Some(owner), Some(now + lease), w.item.value.attempts + 1)),
          w.log + [Acquired(owner, now)])
  }

  function Finish(w: World, owner: Id, state: ClaimState): World
    requires w.item.Some?
  {
    World(Some(w.item.value.(state := state, owner := None, lease := None)), w.log + [Completed(owner, state)])
  }

  function Release(w: World, owner: Id): World
    requires w.item.Some?
  {
    World(Some(w.item.value.(state := Retryable, owner := None, lease := None)), w.log + [Released(owner)])
  }

  // ---------------------------------------------------------------- runs

  datatype Act =
    | TryPut(owner: Id, now: Time)
    | TryTakeOver(owner: Id, now: Time)
    | TryFinish(owner: Id, state: ClaimState)
    | TryRelease(owner: Id)

  function Apply(w: World, act: Act, lease: nat): World {
    match act
    case TryPut(owner, now) => if CanPut(w) then Put(w, owner, now, lease) else w
    case TryTakeOver(owner, now) =>
      if CanTakeOver(w, now) then TakeOver(w, owner, now, lease) else w
    case TryFinish(owner, state) => if OwnedBy(w, owner) && Terminal(state) then Finish(w, owner, state) else w
    case TryRelease(owner) => if OwnedBy(w, owner) then Release(w, owner) else w
  }

  function Run(acts: seq<Act>, lease: nat): World {
    if acts == [] then EMPTY else Apply(Run(acts[..|acts| - 1], lease), acts[|acts| - 1], lease)
  }

  // ---------------------------------------------------------------- what the log says

  function Acquisitions(log: seq<Entry>): nat {
    if log == [] then 0
    else Acquisitions(log[..|log| - 1]) + if log[|log| - 1].Acquired? then 1 else 0
  }

  /** An entry may only follow certain others: an acquisition comes first, after a release, or after an
      acquisition whose lease the new owner's clock has seen run out; finishing and releasing come right
      after the acquisition by the same owner. Hence nothing follows a completion. */
  predicate MayFollow(log: seq<Entry>, i: nat, lease: nat)
    requires i < |log|
  {
    match log[i]
    case Acquired(_, at) =>
      i == 0 || log[i - 1].Released? || (log[i - 1].Acquired? && log[i - 1].at + lease <= at)
    case Completed(owner, state) => i > 0 && log[i - 1].Acquired? && log[i - 1].owner == owner && Terminal(state)
    case Released(owner) => i > 0 && log[i - 1].Acquired? && log[i - 1].owner == owner
  }

  predicate Legal(log: seq<Entry>, lease: nat) {
    forall i {:trigger MayFollow(log, i, lease)} :: 0 <= i < |log| ==> MayFollow(log, i, lease)
  }

  /** The item is what the last entry left, and counts the acquisitions. */
  predicate Matches(w: World, lease: nat) {
    if w.log == [] then w.item.None?
    else
      && w.item.Some? && w.item.value.attempts == Acquisitions(w.log)
      && match w.log[|w.log| - 1]
         case Acquired(owner, at) =>
           w.item.value.state.Claimed? && w.item.value.owner == Some(owner) && w.item.value.lease == Some(at + lease)
         case Completed(_, state) => w.item.value.state == state && w.item.value.owner.None? && w.item.value.lease.None?
         case Released(_) => w.item.value.state.Retryable? && w.item.value.owner.None? && w.item.value.lease.None?
  }

  predicate Inv(w: World, lease: nat) { Legal(w.log, lease) && Matches(w, lease) }

  lemma Appended(log: seq<Entry>, e: Entry, lease: nat)
    requires Legal(log, lease)
    requires MayFollow(log + [e], |log|, lease)
    ensures Legal(log + [e], lease)
    ensures Acquisitions(log + [e]) == Acquisitions(log) + if e.Acquired? then 1 else 0
  {
    var longer := log + [e];
    assert longer[..|log|] == log;
    forall i | 0 <= i < |longer| ensures MayFollow(longer, i, lease) {
      if i < |log| { assert MayFollow(log, i, lease); }
    }
  }

  /** What the item says about the last entry. */
  lemma LastEntry(w: World, lease: nat)
    requires Inv(w, lease) && w.item.Some?
    ensures w.log != []
    ensures var last := w.log[|w.log| - 1];
            && (w.item.value.state.Claimed? ==>
                  && last.Acquired? && w.item.value.owner == Some(last.owner)
                  && w.item.value.lease == Some(last.at + lease))
            && (w.item.value.state.Retryable? ==> last.Released?)
  {
    assert MayFollow(w.log, |w.log| - 1, lease);
  }

  /** Appending a permitted entry and storing what it leaves. */
  lemma WriteKeeps(w: World, item: Item, e: Entry, lease: nat)
    requires Inv(w, lease)
    requires MayFollow(w.log + [e], |w.log|, lease)
    requires item.attempts == (if w.item.Some? then w.item.value.attempts else 0) + if e.Acquired? then 1 else 0
    requires match e
             case Acquired(owner, at) => item.state.Claimed? && item.owner == Some(owner)
                                           && item.lease == Some(at + lease)
             case Completed(_, state) => item.state == state && item.owner.None? && item.lease.None?
             case Released(_) => item.state.Retryable? && item.owner.None? && item.lease.None?
    ensures Inv(World(Some(item), w.log + [e]), lease)
  {
    Appended(w.log, e, lease);
  }

  lemma StepKeeps(w: World, act: Act, lease: nat)
    requires Inv(w, lease)
    ensures Inv(Apply(w, act, lease), lease) && w.log <= Apply(w, act, lease).log
  {
    var w' := Apply(w, act, lease);
    if w' != w {
      if w.item.Some? { LastEntry(w, lease); }
      var e := w'.log[|w.log|];
      assert w'.log == w.log + [e];
      assert MayFollow(w.log + [e], |w.log|, lease);
      WriteKeeps(w, w'.item.value, e, lease);
    }
  }

  /** Every interleaving of any number of workers produces a legal log: terminal states are absorbing and
      written once, by the latest acquirer; a claimed item changes hands only after its lease ran out; the
      attempt count is the number of acquisitions. */
  lemma {:induction false} EveryRunIsLegal(acts: seq<Act>, lease: nat)
    ensures Inv(Run(acts, lease), lease)
    decreases |acts|
  {
    if acts != [] {
      EveryRunIsLegal(acts[..|acts| - 1], lease);
      StepKeeps(Run(acts[..|acts| - 1], lease), acts[|acts| - 1], lease);
    }
  }

  // ---------------------------------------------------------------- the claim store

  datatype Acquisition = Won(attempt: nat) | Duplicate(state: ClaimState) | Busy | Failure

  datatype Completion = Wrote | AlreadyThere | Lost

  class ClaimStore {
    const lease: nat
    var w: World
    ghost var acquired: nat   // acquisitions written by this object
    ghost var completed: nat  // completions written by this object

    constructor (lease: nat)
      ensures this.lease == lease && w == EMPTY && acquired == 0 && completed == 0 && Valid()
    {
      this.lease := lease;
      w, acquired, completed := EMPTY, 0, 0;
    }

    predicate Valid() reads this { Inv(w, lease) }

    /** Other workers act. */
    method Meanwhile()
      requires Valid()
      modifies this`w
      ensures Valid() && old(w).log <= w.log && (w.log == old(w).log ==> w == old(w))
    {
      ghost var start := w;
      var steps: nat := *;
      while steps > 0
        invariant Valid() && start.log <= w.log && (w.log == start.log ==> w == start)
      {
        var act: Act := *;
        StepKeeps(w, act, lease);
        w := Apply(w, act, lease);
        steps := steps - 1;
      }
    }

    predicate WonBy(owner: Id, now: Time) reads this {
      OwnedBy(w, owner) && w.log != [] && w.log[|w.log| - 1] == Acquired(owner, now)
    }

    method PutItem(owner: Id, now: Time) returns (done: bool)
      requires Valid()
      modifies this`w, this`acquired
      ensures acquired == old(acquired) + if done then 1 else 0
      ensures Valid() && old(w).log <= w.log && w.item.Some?
      ensures done ==> WonBy(owner, now) && w.item.value.attempts == 1
      ensures !done && w.log == old(w).log ==> w == old(w)
    {
      Meanwhile();
      done := CanPut(w);
      if done {
        StepKeeps(w, TryPut(owner, now), lease);
        w, acquired := Put(w, owner, now, lease), acquired + 1;
      }
    }

    /** Reads the item; `seen` is what it holds, its lease is known while it is claimed. */
    method Get() returns (seen: Item)
      requires Valid() && w.item.Some?
      modifies this`w
      ensures Valid() && old(w).log <= w.log && w.item == Some(seen)
      ensures seen.state.Claimed? ==> seen.lease.Some?
      ensures seen.attempts == Acquisitions(w.log)
      ensures w.log == old(w).log ==> w == old(w)
    {
      LastEntry(w, lease);
      Meanwhile();
      LastEntry(w, lease);
      seen := w.item.value;
    }

    method UpdateItem(owner: Id, now: Time) returns (done: bool)
      requires Valid() && w.item.Some?
      modifies this`w, this`acquired
      ensures acquired == old(acquired) + if done then 1 else 0
      ensures Valid() && old(w).log <= w.log && w.item.Some?
      ensures done ==> WonBy(owner, now) && w.item.value.attempts > Acquisitions(old(w).log)
      ensures !done && CanTakeOver(old(w), now) ==> |w.log| > |old(w).log|
    {
      LastEntry(w, lease);
      ghost var before := w.log;
      Meanwhile();
      AcquisitionsGrow(before, w.log);
      LastEntry(w, lease);
      done := CanTakeOver(w, now);
      if done {
        StepKeeps(w, TryTakeOver(owner, now), lease);
        w, acquired := TakeOver(w, owner, now, lease), acquired + 1;
      }
    }

    /** Winning means having been the last to acquire at the moment of the write; the attempt number
        returned may lag behind when others came and went in between. Failure means that others did. */
    method Acquire(owner: Id, now: Time) returns (result: Acquisition)
      requires Valid()
      modifies this`w, this`acquired
      ensures acquired == old(acquired) + if result.Won? then 1 else 0
      ensures Valid() && old(w).log <= w.log && w.item.Some?
      ensures result.Won? ==> WonBy(owner, now) && 1 <= result.attempt <= w.item.value.attempts
      ensures result.Duplicate? ==> w.item.value.state == result.state && Terminal(result.state)
      ensures result.Failure? ==>
                && |w.log| > |old(w).log| && !Terminal(w.item.value.state)
                && !(w.item.value.state.Claimed? && w.item.value.lease.Some? && w.item.value.lease.value > now)
      ensures result.Busy? ==>
                w.item.value.state.Claimed? && w.item.value.lease.Some? && w.item.value.lease.value > now
    {
      var done := PutItem(owner, now);
      if done { return Won(1); }
      var existing := Get();
      if Terminal(existing.state) { return Duplicate(existing.state); }
      if existing.state.Claimed? && existing.lease.value > now { return Busy; }
      done := UpdateItem(owner, now);
      if done { return Won(existing.attempts + 1); }
      var latest := Get();
      if Terminal(latest.state) { return Duplicate(latest.state); }
      if latest.state.Claimed? && latest.lease.value > now { return Busy; }
      return Failure;
    }

    static lemma {:induction false} AcquisitionsGrow(log: seq<Entry>, more: seq<Entry>)
      requires log <= more
      ensures Acquisitions(log) <= Acquisitions(more)
      decreases |more|
    {
      if |log| < |more| {
        AcquisitionsGrow(log, more[..|more| - 1]);
      } else {
        assert log == more;
      }
    }

    /** Succeeds only for the owner, or when the same terminal state is there already. */
    method Complete(owner: Id, state: ClaimState) returns (result: Completion)
      requires Valid() && Terminal(state) && w.item.Some?
      modifies this`w, this`completed
      ensures completed == old(completed) + if result.Wrote? then 1 else 0
      ensures Valid() && old(w).log <= w.log && w.log != []
      ensures result.Wrote? ==> w.log[|w.log| - 1] == Completed(owner, state)
      ensures w.item.Some? && (result.Lost? <==> w.item.value.state != state)
      ensures result.Wrote? || !OwnedBy(w, owner) || |w.log| > |old(w).log|
    {
      LastEntry(w, lease);
      Meanwhile();
      LastEntry(w, lease);
      if OwnedBy(w, owner) {
        StepKeeps(w, TryFinish(owner, state), lease);
        w, completed := Finish(w, owner, state), completed + 1;
        return Wrote;
      }
      var existing := Get();
      return if existing.state == state then AlreadyThere else Lost;
    }

    method MarkRetryable(owner: Id) returns (marked: bool)
      requires Valid()
      modifies this`w
      ensures Valid() && old(w).log <= w.log
      ensures marked ==> w.log != [] && w.log[|w.log| - 1] == Released(owner) && w.item.value.state.Retryable?
      ensures !marked ==> !OwnedBy(w, owner)
    {
      Meanwhile();
      marked := OwnedBy(w, owner);
      if marked {
        StepKeeps(w, TryRelease(owner), lease);
        w := Release(w, owner);
      }
    }
  }
}
