/** Delivery of the inventory outbox. Stream records may be delivered again at any time, replay runs
    beside the stream, a dispatcher may stop between any two calls, and other honest writers put objects
    too. Event ids are content hashes, so an event stands for its own id, object key and canonical body. */
module Outbox {
  import opened Base

  datatype Event = Event(scope: Id, content: Id, coverage: bool)

  /** A stored object: its body, the hash in its metadata, its entity tag and its version. */
  datatype Object = Object(body: Event, metadata: Option<Event>, etag: Option<Event>, version: Option<Id>)

  /** Whoever writes objects records true hashes. */
  predicate Honest(o: Object) {
    (o.metadata.Some? ==> o.metadata.value == o.body) && (o.etag.Some? ==> o.etag.value == o.body)
  }

  /** Outbox rows with their delivered mark, objects by key, and the pointers sent to the three queues. */
  datatype World = World(
    rows: map<Event, bool>,
    objects: map<Event, Object>,
    projected: set<Event>,
    priority: set<Event>,
    routine: set<Event>)

  predicate Routed(w: World, e: Event) { if e.coverage then e in w.routine else e in w.priority }

  /** The object holds the canonical event, and both queues got a pointer to it. */
  predicate Delivered(w: World, e: Event) {
    e in w.objects && w.objects[e].body == e && e in w.projected && Routed(w, e)
  }

  predicate Inv(w: World) {
    && (forall e :: e in w.objects ==> Honest(w.objects[e]))
    && (forall e :: e in w.rows && w.rows[e] ==> Delivered(w, e))
  }

  /** Objects never change, rows and pointers are not taken back, delivered rows stay delivered. */
  predicate Onward(w: World, w': World) {
    && (forall e :: e in w.objects ==> e in w'.objects && w'.objects[e] == w.objects[e])
    && (forall e :: e in w.rows ==> e in w'.rows && (w.rows[e] ==> w'.rows[e]))
    && w.projected <= w'.projected && w.priority <= w'.priority && w.routine <= w'.routine
  }

  // ---------------------------------------------------------------- single effects

  function PutIfAbsent(w: World, e: Event, o: Object): World {
    if e in w.objects then w else w.(objects := w.objects[e := o])
  }

  function SendRouted(w: World, e: Event): World {
    if e.coverage then w.(routine := w.routine + {e}) else w.(priority := w.priority + {e})
  }

  /** Conditional on the row still being pending. */
  function MarkDelivered(w: World, e: Event): World {
    if e in w.rows && !w.rows[e] then w.(rows := w.rows[e := true]) else w
  }

  datatype Act =
    | InsertRow(e: Event)
    | PutObject(e: Event, o: Object)
    | SendProjection(e: Event)
    | SendPointer(e: Event)
    | Mark(e: Event)

  function Apply(w: World, act: Act): World {
    match act
    case InsertRow(e) => if e in w.rows then w else w.(rows := w.rows[e := false])
    case PutObject(e, o) => PutIfAbsent(w, e, o)
    case SendProjection(e) => w.(projected := w.projected + {e})
    case SendPointer(e) => SendRouted(w, e)
    case Mark(e) => MarkDelivered(w, e)
  }

  /** What everyone owes the others: true hashes, and no mark before the delivery. */
  predicate Justified(w: World, act: Act) {
    (act.PutObject? ==> Honest(act.o)) && (act.Mark? ==> Delivered(w, act.e))
  }

  lemma StepKeeps(w: World, act: Act)
    requires Inv(w) && Justified(w, act)
    ensures Inv(Apply(w, act)) && Onward(w, Apply(w, act))
  {
    var w' := Apply(w, act);
    forall e | e in w'.rows && w'.rows[e] ensures Delivered(w', e) {
      assert (e in w.rows && w.rows[e]) || act == Mark(e);
    }
  }

  // ---------------------------------------------------------------- histories

  /** All acts so far in order, each by the dispatcher looked at or by anyone else. */
  datatype History = Begun | After(earlier: History, mine: bool, act: Act)

  function Run(w: World, h: History): World {
    match h
    case Begun => w
    case After(earlier, _, act) => Apply(Run(w, earlier), act)
  }

  predicate Legal(w: World, h: History) {
    h.After? ==> Legal(w, h.earlier) && Justified(Run(w, h.earlier), h.act)
  }

  function Own(h: History): seq<Act> {
    match h
    case Begun => []
    case After(earlier, mine, act) => Own(earlier) + if mine then [act] else []
  }

  /** Whoever acts, any number of dispatchers among them: the invariant holds as long as each pays what it owes. */
  lemma {:induction false} LegalRunsKeep(w: World, h: History)
    requires Inv(w) && Legal(w, h)
    ensures Inv(Run(w, h)) && Onward(w, Run(w, h))
  {
    if h.After? {
      LegalRunsKeep(w, h.earlier);
      StepKeeps(Run(w, h.earlier), h.act);
    }
  }

  predicate Putting(own: seq<Act>, e: Event) {
    own == [] || (|own| == 1 && own[0].PutObject? && own[0].e == e)
  }

  /** What a dispatcher does about an event: perhaps the object, then as much of the rest as it gets to. */
  predicate InOrder(own: seq<Act>, e: Event) {
    var n := if own != [] && own[0].PutObject? then 1 else 0;
    Putting(own[..n], e) && own[n..] <= Program(e)
  }

  lemma GoesInOrder(put: seq<Act>, rest: seq<Act>, e: Event)
    requires Putting(put, e) && rest <= Program(e)
    ensures InOrder(put + rest, e) && put + [] == put
  {
    assert (put + rest)[..|put|] == put && (put + rest)[|put|..] == rest;
    assert put == [] && rest != [] ==> rest[0] == Program(e)[0];
  }

  function Pointers(e: Event): seq<Act> { [SendProjection(e), SendPointer(e)] }

  function Program(e: Event): seq<Act> { Pointers(e) + [Mark(e)] }

  lemma DeliveredStays(w: World, w': World, e: Event)
    requires Delivered(w, e) && Onward(w, w')
    ensures Delivered(w', e)
  {
  }

  // ---------------------------------------------------------------- the dispatcher

  /** What a stream record shows of a row: `parsed` is the event its JSON parses to, if it does. */
  datatype Image = Image(insert: bool, pending: bool, id: Event, scope: Id, retentionValid: bool, parsed: Option<Event>)

  datatype Dispatched = Sent | Ignored | Raised

  /** The row names the event it carries. */
  predicate Sound(image: Image) {
    image.retentionValid && image.parsed == Some(image.id) && image.scope == image.id.scope
  }

  /** A record, and if it was pending then its event is delivered and its row marked. */
  predicate HandledIn(w: World, item: Option<Image>) {
    item.Some? && (item.value.pending ==>
      Sound(item.value) && item.value.id in w.rows && w.rows[item.value.id] && Delivered(w, item.value.id))
  }

  /** An object is there that does not show itself to be the event's, or has no immutable identity. */
  predicate Unverifiable(w: World, e: Event) {
    e in w.objects
    && (|| (w.objects[e].metadata.Some? && w.objects[e].metadata.value != e)
        || (w.objects[e].metadata.None? && w.objects[e].etag != Some(e))
        || (w.objects[e].etag.None? && w.objects[e].version.None?))
  }

  /** No attempt can succeed: the row does not name the event it carries, or it is not in the table, or the
      object under its key cannot be verified. */
  predicate Hopeless(rows: map<Event, bool>, w: World, image: Image) {
    !Sound(image) || image.id !in rows || Unverifiable(w, image.id)
  }

  /** Rows an image still shows pending. */
  function PendingCount(items: seq<Option<Image>>): nat {
    if items == [] then 0
    else
      var last := items[|items| - 1];
      PendingCount(items[..|items| - 1]) + if last.Some? && last.value.pending then 1 else 0
  }

  class Dispatcher {
    var w: World
    ghost const origin: World
    ghost var history: History
    ghost var faults: nat     // calls of this dispatcher that failed

    constructor (w: World)
      requires Inv(w)
      ensures Valid() && this.w == w && history == Begun && faults == 0
    {
      this.w, origin, history, faults := w, w, Begun, 0;
    }

    /** All that has happened, this dispatcher's own calls included, is a legal history. */
    ghost predicate Valid() reads this {
      Inv(w) && Legal(origin, history) && w == Run(origin, history)
    }

    method Do(act: Act, ghost mine: bool)
      requires Valid() && Justified(w, act)
      modifies this`w, this`history
      ensures Valid() && Onward(old(w), w) && w == Apply(old(w), act)
      ensures Own(history) == Own(old(history)) + if mine then [act] else []
    {
      StepKeeps(w, act);
      w := Apply(w, act);
      history := After(history, mine, act);
    }

    /** Others act, and the next call is made, or fails. A call that took effect but failed on the way back
        is the case in which others did just the same. */
    method Meanwhile() returns (ok: bool)
      requires Valid()
      modifies this
      ensures Valid() && Onward(old(w), w) && Own(history) == Own(old(history))
      ensures faults == old(faults) + if ok then 0 else 1
    {
      ghost var start := w;
      var steps: nat := *;
      while steps > 0
        invariant Valid() && Onward(start, w) && Own(history) == Own(old(history)) && faults == old(faults)
      {
        var act: Act := *;
        if Justified(w, act) { Do(act, false); }
        steps := steps - 1;
      }
      ok := *;
      if !ok { faults := faults + 1; }
    }

    /** Metadata decides if present, the entity tag otherwise. */
    static function Verified(o: Object, e: Event): (ok: bool)
      ensures ok && Honest(o) ==> o.body == e
    {
      if o.metadata.Some? then o.metadata.value == e else o.etag == Some(e)
    }

    /** Writes the object, or verifies the one that is there; answers with what identifies it. */
    method EnsureObject(e: Event) returns (ok: bool, seen: Object, ghost own: seq<Act>)
      requires Valid()
      modifies this
      ensures Valid() && Onward(old(w), w)
      ensures Own(history) == Own(old(history)) + own && Putting(own, e)
      ensures ok ==>
                && e in w.objects && w.objects[e].body == e && seen == w.objects[e]
                && (seen.etag.Some? || seen.version.Some?)
      ensures faults >= old(faults) && (ok ==> faults == old(faults))
      ensures !ok ==> faults > old(faults) || Unverifiable(w, e)
    {
      seen, own := Object(e, Some(e), None, None), [];
      ok := Meanwhile();
      if !ok { return; }
      if e !in w.objects {
        var tag: bool, version: Option<Id> := *, *;
        seen := Object(e, Some(e), if tag then Some(e) else None, version);
        Do(PutObject(e, seen), true);
        own := [PutObject(e, seen)];
      } else {
        ok := Meanwhile();
        if !ok { return; }
        seen := w.objects[e];
        if !Verified(seen, e) { return false, seen, own; }
      }
      if seen.etag.None? && seen.version.None? {
        ok := Meanwhile();
        if !ok { return; }
        seen := w.objects[e];
        ok := Verified(seen, e) && (seen.etag.Some? || seen.version.Some?);
      }
    }

    method MarkRow(e: Event) returns (ok: bool)
      requires Valid() && Delivered(w, e)
      modifies this
      ensures Valid() && Onward(old(w), w)
      ensures Own(history) == Own(old(history)) + [Mark(e)] || (!ok && Own(history) == Own(old(history)))
      ensures ok ==> e in w.rows && w.rows[e]
      ensures faults >= old(faults) && (ok ==> faults == old(faults))
      ensures !ok ==> faults > old(faults) || e !in old(w).rows
    {
      ok := Meanwhile();
      if !ok { return; }
      var pending := e in w.rows && !w.rows[e];
      Do(Mark(e), true);
      if !pending {
        ok := Meanwhile();
        ok := ok && e in w.rows && w.rows[e];
      }
    }

    /** One pointer to the projection queue, then one to the routed queue. */
    method SendPointers(e: Event) returns (ok: bool, ghost own: seq<Act>)
      requires Valid()
      modifies this
      ensures Valid() && Onward(old(w), w)
      ensures Own(history) == Own(old(history)) + own && own <= Pointers(e)
      ensures ok ==> own == Pointers(e) && e in w.projected && Routed(w, e)
      ensures faults == old(faults) + if ok then 0 else 1
    {
      own := [];
      ok := Meanwhile();
      if !ok { return; }
      Do(SendProjection(e), true);
      own := [SendProjection(e)];
      ok := Meanwhile();
      if !ok { return; }
      Do(SendPointer(e), true);
      own := Pointers(e);
    }

    /** The pointers go out, then the row is marked. */
    method Announce(e: Event) returns (ok: bool, ghost own: seq<Act>)
      requires Valid() && e in w.objects && w.objects[e].body == e
      modifies this
      ensures Valid() && Onward(old(w), w)
      ensures Own(history) == Own(old(history)) + own && own <= Program(e)
      ensures ok ==> own == Program(e) && e in w.rows && w.rows[e] && Delivered(w, e)
      ensures faults >= old(faults) && (ok ==> faults == old(faults))
      ensures !ok ==> faults > old(faults) || e !in old(w).rows
    {
      ok, own := SendPointers(e);
      if !ok { return; }
      ghost var before := Own(history);
      ok := MarkRow(e);
      if Own(history) != before { own := Program(e); }
    }

    /** Object first, then the projection queue, then the routed queue, then the mark. */
    method Deliver(e: Event) returns (ok: bool, ghost own: seq<Act>)
      requires Valid()
      modifies this
      ensures Valid() && Onward(old(w), w)
      ensures Own(history) == Own(old(history)) + own && InOrder(own, e)
      ensures ok ==> Mark(e) in own && e in w.rows && w.rows[e] && Delivered(w, e)
      ensures faults >= old(faults) && (ok ==> faults == old(faults))
      ensures !ok ==> faults > old(faults) || e !in old(w).rows || Unverifiable(w, e)
    {
      var seen;
      ghost var put, rest;
      ok, seen, put := EnsureObject(e);
      own := put;
      GoesInOrder(put, [], e);
      if !ok { return; }
      ok, rest := Announce(e);
      own := put + rest;
      GoesInOrder(put, rest, e);
    }

    /** Delivers the event of a new row that is still pending. */
    method DispatchRecord(image: Image) returns (result: Dispatched, ghost own: seq<Act>)
      requires Valid()
      modifies this
      ensures Valid() && Onward(old(w), w)
      ensures Own(history) == Own(old(history)) + own && InOrder(own, image.id)
      ensures own != [] ==> image.insert && image.pending && Sound(image)
      ensures result.Sent? ==> Mark(image.id) in own
      ensures result.Ignored? <==> !image.insert || !image.pending
      ensures result.Ignored? ==> w == old(w)
      ensures faults >= old(faults) && (!result.Raised? ==> faults == old(faults))
      ensures result.Raised? ==> faults > old(faults) || Hopeless(old(w).rows, w, image)
      ensures result.Sent? ==>
                Sound(image) && image.id in w.rows && w.rows[image.id] && Delivered(w, image.id)
    {
      own := [];
      if !image.insert || !image.pending { return Ignored, own; }
      if !image.retentionValid || image.parsed.None? { return Raised, own; }
      var e := image.parsed.value;
      if e != image.id || e.scope != image.scope { return Raised, own; }
      var ok;
      ok, own := Deliver(e);
      return if ok then Sent else Raised, own;
    }

    /** Works through the rows that a query found pending, if it answered; a row that is not even a record
        fails like any other. Fails in the end if any of them failed. */
    method Replay(found: Option<seq<Option<Image>>>) returns (processed: Option<nat>)
      requires Valid()
      modifies this
      ensures Valid() && Onward(old(w), w)
      ensures processed.Some? ==> found.Some? && processed.value == PendingCount(found.value)
      ensures processed.Some? ==> forall i :: 0 <= i < |found.value| ==> HandledIn(w, found.value[i])
      ensures faults >= old(faults) && (processed.Some? ==> faults == old(faults))
      ensures processed.None? && found.Some? ==>
                || faults > old(faults)
                || exists i :: 0 <= i < |found.value|
                               && (found.value[i].None? || Hopeless(old(w).rows, w, found.value[i].value))
    {
      if found.None? { return None; }
      ghost var start := w;
      var items := found.value;
      var done, failures := 0, 0;
      for i := 0 to |items|
        invariant Valid() && Onward(start, w) && done >= 0 && failures >= 0 && faults >= old(faults)
        invariant failures == 0 ==> faults == old(faults)
        invariant failures > 0 ==>
                    || faults > old(faults)
                    || exists k :: 0 <= k < i && (items[k].None? || Hopeless(start.rows, w, items[k].value))
        invariant failures == 0 ==> done == PendingCount(items[..i])
        invariant failures == 0 ==> forall k :: 0 <= k < i ==> HandledIn(w, items[k])
      {
        ghost var before := w;
        var result := Raised;
        ghost var own;
        if items[i].Some? { result, own := DispatchRecord(items[i].value.(insert := true)); }
        if result.Sent? { done := done + 1; } else if result.Raised? { failures := failures + 1; }
        forall k | 0 <= k < i && HandledIn(before, items[k]) ensures HandledIn(w, items[k]) {
          if items[k].value.pending { DeliveredStays(before, w, items[k].value.id); }
        }
        assert items[..i + 1][..i] == items[..i];
      }
      assert items[..|items|] == items;
      return if failures > 0 then None else Some(done);
    }
  }
}
