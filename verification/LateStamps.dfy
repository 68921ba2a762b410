/** A run after which the order of two scans matters although both read the port plainly: the row still
    carries the later time of a scan of the generation before. */
module LateStamps {
  import opened Base
  import opened Records
  import opened Store
  import opened Convergence
  import E = Exposures
  import StoreSafety

  const TARGET: Id := 1
  const ADDRESS: Id := 9
  const PORT := PortKey(6, 443)
  const IDENTITY := ProviderIdentity(1, 1, 1)

  function Announcement(generation: int): TargetEvent {
    TargetEvent(generation, TARGET, generation, Upsert, IDENTITY, None, [ADDRESS], 0, generation, generation == 1, None)
  }

  /** A complete scan of the one port. */
  function Scan(attempt: Id, generation: int, at: Time, state: PortState): Report {
    Report(Envelope(attempt, attempt, TARGET, generation, 1, generation, ADDRESS, true, at,
                    [CoverageTerm(6, 443, 443, true)], Evidence(attempt, None, None)),
           [Observation(PORT, ADDRESS, state, 0, 0)])
  }

  const FIRST := Scan(1, 1, 100, Open)
  const OPENING := Scan(2, 2, 50, Open)
  const CLOSING := Scan(3, 2, 60, Closed)

  const HISTORY := [TargetEventOp(Announcement(1), true), ScanOp(FIRST.env, FIRST.observations, true, true),
                    TargetEventOp(Announcement(2), true)]

  function Reached(): Db { Run(EmptyDb(map[]), HISTORY) }

  lemma ScanReads(attempt: Id, generation: int, at: Time, state: PortState)
    ensures var r := Scan(attempt, generation, at, state);
            && r.Covers(PORT) && r.Reading(PORT) == Some(state) && DistinctKeys(r.observations)
  {
    var r := Scan(attempt, generation, at, state);
    assert r.env.coverage[0].Contains(PORT);
    assert r.observations[0].key in ByKey(r.observations);
  }

  /** Entering an announcement that changes no address closes nothing. */
  lemma AnnouncementIsEntered(db: Db, generation: int)
    requires generation !in db.events
    requires TARGET in db.targets ==> var target := db.targets[TARGET];
                                      && target.identity == IDENTITY && target.generation < generation
                                      && target.addresses == [ADDRESS] && generation != 1
    requires TARGET !in db.targets ==> forall t :: t in db.targets ==> db.targets[t].identity != IDENTITY
    ensures Execute(db, TargetEventOp(Announcement(generation), true))
         == Enter(db, Announcement(generation), Get(db.targets, TARGET))
  {
  }

  lemma AfterFirstAnnouncement()
    ensures var db := Execute(EmptyDb(map[]), TargetEventOp(Announcement(1), true));
            && db.targets == map[TARGET := TargetAfter(None, Announcement(1))]
            && db.events == map[1 := EventRowOf(Announcement(1), true)]
            && db.attempts == map[] && db.exposures == map[] && db.rules == map[]
  {
    AnnouncementIsEntered(EmptyDb(map[]), 1);
  }

  lemma StartsFresh(db: Db)
    requires db.targets == map[TARGET := TargetAfter(None, Announcement(1))]
    requires db.events == map[1 := EventRowOf(Announcement(1), true)]
    requires db.attempts == map[] && db.exposures == map[] && db.rules == map[]
    ensures Start(db, TARGET, {FIRST})
  {
    ScanReads(1, 1, 100, Open);
  }

  lemma AfterFirstScan(db: Db)
    requires db.targets == map[TARGET := TargetAfter(None, Announcement(1))]
    requires db.events == map[1 := EventRowOf(Announcement(1), true)]
    requires db.attempts == map[] && db.exposures == map[] && db.rules == map[]
    ensures var db' := Deliver(db, FIRST);
            && Frame(db, db', TARGET, {FIRST})
            && Explains(None, FIRST, PORT, Get(db'.exposures, Service(TARGET, PORT)))
  {
    StartsFresh(db);
    ScanReads(1, 1, 100, Open);
    OneDelivered(db, TARGET, {FIRST}, PORT, FIRST);
    LastDelivered(db, [], FIRST);
    assert [] + [FIRST] == [FIRST];
  }

  /** The second announcement starts a generation whose row is stamped 100. */
  lemma AfterSecondAnnouncement(db1: Db, db2: Db)
    requires Frame(db1, db2, TARGET, {FIRST}) && db1.attempts == map[] && db1.rules == map[]
    requires db1.targets == map[TARGET := TargetAfter(None, Announcement(1))]
    requires db1.events == map[1 := EventRowOf(Announcement(1), true)]
    requires StoreSafety.Safe(Execute(db2, TargetEventOp(Announcement(2), true)))
    ensures var db := Execute(db2, TargetEventOp(Announcement(2), true));
            && Start(db, TARGET, {OPENING, CLOSING}) && db.exposures == db2.exposures
  {
    AnnouncementIsEntered(db2, 2);
    var db := Execute(db2, TargetEventOp(Announcement(2), true));
    forall k ensures RowBehind(Get(db.exposures, Service(TARGET, k)), db.targets[TARGET].generation) {
      SafeRowsAreBehind(db, TARGET, k);
    }
    forall a | a in db.attempts ensures a == 1 && db.attempts[a] == FIRST.Row(false) {}
    ScanReads(2, 2, 50, Open);
    ScanReads(3, 2, 60, Closed);
  }

  lemma HistoryUnfolds()
    ensures var db1 := Execute(EmptyDb(map[]), TargetEventOp(Announcement(1), true));
            Reached() == Execute(Deliver(db1, FIRST), TargetEventOp(Announcement(2), true))
  {
    var db1 := Execute(EmptyDb(map[]), TargetEventOp(Announcement(1), true));
    assert HISTORY[..2] == [HISTORY[0], HISTORY[1]] && HISTORY[..2][..1] == [HISTORY[0]]
           && HISTORY[..2][..1][..0] == [];
    assert Run(EmptyDb(map[]), HISTORY[..2][..1]) == db1;
    assert Run(EmptyDb(map[]), HISTORY[..2]) == Deliver(db1, FIRST);
  }

  lemma ReachedStarts()
    ensures Start(Reached(), TARGET, {OPENING, CLOSING}) && StoreSafety.Safe(Reached())
    ensures Explains(None, FIRST, PORT, Get(Reached().exposures, Service(TARGET, PORT)))
  {
    HistoryUnfolds();
    StoreSafety.EveryRunIsSafe(map[], HISTORY);
    var db1 := Execute(EmptyDb(map[]), TargetEventOp(Announcement(1), true));
    AfterFirstAnnouncement();
    AfterFirstScan(db1);
    AfterSecondAnnouncement(db1, Deliver(db1, FIRST));
  }

  /** A reachable store, and two scans of its current generation: the one that completed last reads the port
      closed. Delivered second it is turned away by the time that the row kept from the generation before,
      and the port stays open; delivered first it closes the port. */
  lemma LateStampBreaksOrder()
    ensures Start(Reached(), TARGET, {OPENING, CLOSING}) && StoreSafety.Safe(Reached())
    ensures Latest({OPENING, CLOSING}, PORT, CLOSING) && CLOSING.Reading(PORT) == Some(Closed)
    ensures OpenPort(DeliverAll(Reached(), [OPENING, CLOSING]), TARGET, PORT).Some?
    ensures OpenPort(DeliverAll(Reached(), [CLOSING, OPENING]), TARGET, PORT).None?
  {
    ReachedStarts();
    ScanReads(2, 2, 50, Open);
    ScanReads(3, 2, 60, Closed);
    var start, reports := Reached(), {OPENING, CLOSING};
    var prior := Get(start.exposures, Service(TARGET, PORT));
    WhatBlocks(prior, OPENING, CLOSING);
    MoverFirst(start, TARGET, reports, PORT, OPENING, CLOSING, []);
    LatestFirst(start, TARGET, reports, PORT, CLOSING, [OPENING]);
    assert [OPENING, CLOSING] + [] == [OPENING, CLOSING] && [CLOSING] + [OPENING] == [CLOSING, OPENING];
  }
}
