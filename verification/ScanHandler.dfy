/** A complete scan result from its documents to the store: the raw document has to account for the
    coverage, the enrichment may only add service details to open ports, both have to agree with the open
    ports that the result declares, and what the ingest then closes for want of mention is bounded. */
module ScanHandler {
  import opened Base
  import opened Records
  import opened XmlAccounting
  import P = Ports
  import Store
  import StoreSafety
  import Repositories
  import opened Exports

  const TCP: Id := 6

  /** The enrichment scan covers exactly the declared open ports. */
  function EnrichmentCoverage(ports: seq<int>): (coverage: seq<Declaration>)
    ensures ports != [] ==> Countable(coverage)
    ensures |coverage| == |ports|
    ensures forall i :: 0 <= i < |ports| ==>
              coverage[i].Numeric? && forall k :: coverage[i].term.Contains(k) <==> k == PortKey(TCP, ports[i])
  {
    seq(|ports|, i requires 0 <= i < |ports| => Numeric(CoverageTerm(TCP, ports[i], ports[i], true)))
  }

  predicate AreOpenTcp(ports: seq<int>, observations: map<PortKey, Observation>) {
    && (forall i, j :: 0 <= i < j < |ports| ==> ports[i] < ports[j])
    && (forall i :: 0 <= i < |ports| ==>
          PortKey(TCP, ports[i]) in observations && observations[PortKey(TCP, ports[i])].state.Open?)
    && (forall k :: k in observations && k.protocol == TCP && observations[k].state.Open? ==> k.port in ports)
  }

  /** The document lists the port as open. */
  predicate OpenIn(nodes: seq<PortNode>, key: PortKey) {
    exists i :: 0 <= i < |nodes| && NodeKey(nodes[i]) == key && nodes[i].state.OpenText?
  }

  /** The enrichment lists open ports only, all of them open in the raw document, and none is missing. */
  ghost predicate SameOpen(raw: seq<PortNode>, enriched: seq<PortNode>) {
    && (forall i :: 0 <= i < |enriched| ==> enriched[i].state.OpenText? && OpenIn(raw, NodeKey(enriched[i])))
    && (forall i :: 0 <= i < |raw| && raw[i].state.OpenText? ==> NodeKey(raw[i]) in Listed(enriched))
  }

  /** The declared ports are the open TCP ports of the raw document in order. */
  ghost predicate Declares(ports: seq<int>, raw: seq<PortNode>) {
    && (forall i, j :: 0 <= i < j < |ports| ==> ports[i] < ports[j])
    && (forall i :: 0 <= i < |ports| ==> OpenIn(raw, PortKey(TCP, ports[i])))
    && (forall i :: 0 <= i < |raw| && raw[i].state.OpenText? && NodeKey(raw[i]).protocol == TCP ==>
          NodeKey(raw[i]).port in ports)
  }

  /** What a complete scan has to bring: a raw document that accounts for the coverage and shows just the
      declared ports open, and, where there are any, an enrichment that accounts for these and agrees. */
  ghost predicate Acceptable(raw: Document, enrichment: Option<Document>, declaredOpen: seq<int>,
                             coverage: seq<Declaration>)
  {
    && Accountable(raw, coverage) && Legible(raw.ports) && Declares(declaredOpen, raw.ports)
    && (if enrichment.None? then declaredOpen == []
        else
          && Accountable(enrichment.value, EnrichmentCoverage(declaredOpen))
          && Legible(enrichment.value.ports) && SameOpen(raw.ports, enrichment.value.ports))
  }

  /** The state is that of the raw node, the details are those of the enrichment where it lists the port. */
  ghost predicate Tells(o: Observation, node: PortNode, enrichment: Option<Document>, address: Id) {
    && o.key == NodeKey(node) && o.address == address && Reads(o.state, node.state)
    && (if enrichment.Some? && NodeKey(node) in Listed(enrichment.value.ports) then
          exists j :: 0 <= j < |enrichment.value.ports| && NodeKey(enrichment.value.ports[j]) == NodeKey(node)
                      && o.service == enrichment.value.ports[j].service
                      && o.identity == enrichment.value.ports[j].identity
        else o.service == node.service && o.identity == node.identity)
  }

  /** The observations of a complete scan; None exactly where the result is not acceptable. */
  method LoadObservations(raw: Document, enrichment: Option<Document>, declaredOpen: seq<int>, address: Id,
                          coverage: seq<Declaration>) returns (loaded: Option<map<PortKey, Observation>>)
    requires Bounded(coverage) && forall i :: 0 <= i < |declaredOpen| ==> 1 <= declaredOpen[i] <= P.MAX_PORT
    ensures loaded.Some? <==> Acceptable(raw, enrichment, declaredOpen, coverage)
    ensures loaded.Some? ==>
              && loaded.value.Keys == Listed(raw.ports) && Keyed(loaded.value)
              && (forall i :: 0 <= i < |raw.ports| ==>
                    NodeKey(raw.ports[i]) in loaded.value
                    && Tells(loaded.value[NodeKey(raw.ports[i])], raw.ports[i], enrichment, address))
  {
    var ok := ValidateCompleteXml(raw, coverage);
    if !ok { return None; }
    DistinctKeysAgree(raw.ports, address);
    var discovery := ParsePorts(raw.ports, address);
    if discovery.None? { return None; }
    loaded := discovery;
    if enrichment.Some? {
      AgreementOnDocuments(raw.ports, enrichment.value.ports, discovery.value, address);
      loaded := Enrich(discovery.value, enrichment.value, declaredOpen, address);
      if loaded.None? { return; }
    } else if declaredOpen != [] {
      return None;
    }
    DeclarationOnDocuments(raw.ports, discovery.value, loaded.value, declaredOpen, address);
    if !AreOpenTcp(declaredOpen, loaded.value) { return None; }
  }

  lemma DistinctKeysAgree(nodes: seq<PortNode>, address: Id)
    requires forall i, j :: 0 <= i < j < |nodes| ==> NodeKey(nodes[i]) != NodeKey(nodes[j])
    ensures forall i, j :: 0 <= i < j < |nodes| ==> !Contradict(nodes[i], nodes[j], address)
  {
  }

  /** The observations transcribe the nodes. */
  ghost predicate Transcript(nodes: seq<PortNode>, observations: map<PortKey, Observation>, address: Id) {
    && observations.Keys == Listed(nodes) && Legible(nodes)
    && forall i :: 0 <= i < |nodes| ==>
         NodeKey(nodes[i]) in observations && Transcribes(observations[NodeKey(nodes[i])], nodes[i], address)
  }

  lemma AgreementOnDocuments(raw: seq<PortNode>, enriched: seq<PortNode>, discovery: map<PortKey, Observation>,
                             address: Id)
    requires Transcript(raw, discovery, address)
    ensures SameOpen(raw, enriched) <==> Agreeing(discovery, enriched)
  {
    forall k ensures k in discovery && discovery[k].state.Open? <==> OpenIn(raw, k) {
      OpenMeansOpen(raw, discovery, address, k);
    }
  }

  lemma OpenMeansOpen(nodes: seq<PortNode>, observations: map<PortKey, Observation>, address: Id, k: PortKey)
    requires Transcript(nodes, observations, address)
    ensures k in observations && observations[k].state.Open? <==> OpenIn(nodes, k)
  {
    if k in observations { assert k in Listed(nodes); }
  }

  /** Enrichment changes no state, so the open ports are those of the raw document. */
  lemma DeclarationOnDocuments(raw: seq<PortNode>, discovery: map<PortKey, Observation>,
                               merged: map<PortKey, Observation>, declaredOpen: seq<int>, address: Id)
    requires Transcript(raw, discovery, address)
    requires merged.Keys == discovery.Keys && forall k :: k in merged ==> merged[k].state == discovery[k].state
    ensures AreOpenTcp(declaredOpen, merged) <==> Declares(declaredOpen, raw)
  {
    forall k ensures k in merged && merged[k].state.Open? <==> OpenIn(raw, k) {
      OpenMeansOpen(raw, discovery, address, k);
    }
    if AreOpenTcp(declaredOpen, merged) {
      forall i | 0 <= i < |raw| && raw[i].state.OpenText? && NodeKey(raw[i]).protocol == TCP
        ensures NodeKey(raw[i]).port in declaredOpen
      {
        assert OpenIn(raw, NodeKey(raw[i]));
      }
    }
  }

  /** The enrichment lists open ports only, all of them discovered open, and none is missing. */
  ghost predicate Agreeing(discovery: map<PortKey, Observation>, nodes: seq<PortNode>) {
    && (forall i :: 0 <= i < |nodes| ==>
          && nodes[i].state.OpenText? && NodeKey(nodes[i]) in discovery
          && discovery[NodeKey(nodes[i])].state.Open?)
    && (forall k :: k in discovery && discovery[k].state.Open? ==> k in Listed(nodes))
  }

  method Enrich(discovery: map<PortKey, Observation>, enrichment: Document, declaredOpen: seq<int>, address: Id)
    returns (merged: Option<map<PortKey, Observation>>)
    requires forall i :: 0 <= i < |declaredOpen| ==> 1 <= declaredOpen[i] <= P.MAX_PORT
    requires forall k :: k in discovery ==> discovery[k].address == address
    ensures merged.Some? <==>
              && Accountable(enrichment, EnrichmentCoverage(declaredOpen)) && Legible(enrichment.ports)
              && Agreeing(discovery, enrichment.ports)
    ensures merged.Some? ==> OnlyEnriched(discovery, merged.value)
    ensures merged.Some? ==> forall k :: k in discovery ==>
              Overlaid(discovery[k], merged.value[k], enrichment.ports, k, address)
  {
    var ok := ValidateCompleteXml(enrichment, EnrichmentCoverage(declaredOpen));
    if !ok { return None; }
    DistinctKeysAgree(enrichment.ports, address);
    var parsed := ParsePorts(enrichment.ports, address);
    if parsed.None? { return None; }
    var items := InSomeOrder(parsed.value);
    merged := MergeEnrichment(discovery, items, true);
    AgreementOnItems(discovery, enrichment.ports, parsed.value, items, address);
    if merged.Some? {
      forall k | k in discovery ensures Overlaid(discovery[k], merged.value[k], enrichment.ports, k, address) {
        OverlaidByItem(discovery[k], merged.value[k], enrichment.ports, parsed.value, items, k, address);
      }
    }
  }

  ghost predicate Overlaid(before: Observation, after: Observation, nodes: seq<PortNode>, k: PortKey, address: Id) {
    if k in Listed(nodes) then
      exists i :: 0 <= i < |nodes| && NodeKey(nodes[i]) == k && Transcribes(after, nodes[i], address)
    else after == before
  }

  /** The items are the enrichment's observations in some order. */
  ghost predicate Itemized(observations: map<PortKey, Observation>, items: seq<Observation>) {
    && (forall i :: 0 <= i < |items| ==> items[i].key in observations && items[i] == observations[items[i].key])
    && (forall k :: k in observations ==> exists i :: 0 <= i < |items| && items[i].key == k)
  }

  lemma ItemOf(nodes: seq<PortNode>, parsed: map<PortKey, Observation>, items: seq<Observation>, address: Id, j: nat)
    returns (i: nat)
    requires Transcript(nodes, parsed, address) && Itemized(parsed, items) && j < |nodes|
    ensures i < |items| && items[i].key == NodeKey(nodes[j]) && Transcribes(items[i], nodes[j], address)
  {
    assert NodeKey(nodes[j]) in parsed;
    i :| 0 <= i < |items| && items[i].key == NodeKey(nodes[j]);
  }

  lemma NodeOf(nodes: seq<PortNode>, parsed: map<PortKey, Observation>, items: seq<Observation>, address: Id, i: nat)
    returns (j: nat)
    requires Transcript(nodes, parsed, address) && Itemized(parsed, items) && i < |items|
    ensures j < |nodes| && items[i].key == NodeKey(nodes[j]) && Transcribes(items[i], nodes[j], address)
  {
    assert items[i].key in Listed(nodes);
    j :| 0 <= j < |nodes| && NodeKey(nodes[j]) == items[i].key;
  }

  predicate NoConflict(discovery: map<PortKey, Observation>, items: seq<Observation>) {
    forall i :: 0 <= i < |items| ==> !Conflicts(discovery, items[i])
  }

  predicate NoneMissing(discovery: map<PortKey, Observation>, items: seq<Observation>) {
    forall k :: k in discovery && discovery[k].state.Open? ==> exists i :: 0 <= i < |items| && items[i].key == k
  }

  lemma AgreementOnItems(discovery: map<PortKey, Observation>, nodes: seq<PortNode>,
                         parsed: map<PortKey, Observation>, items: seq<Observation>, address: Id)
    requires Transcript(nodes, parsed, address) && Itemized(parsed, items)
    requires forall k :: k in discovery ==> discovery[k].address == address
    ensures Agreeing(discovery, nodes) <==> NoConflict(discovery, items) && NoneMissing(discovery, items)
  {
    if Agreeing(discovery, nodes) {
      forall i | 0 <= i < |items| ensures !Conflicts(discovery, items[i]) {
        var j := NodeOf(nodes, parsed, items, address, i);
      }
      forall k | k in discovery && discovery[k].state.Open? ensures exists i :: 0 <= i < |items| && items[i].key == k {
        var j :| 0 <= j < |nodes| && NodeKey(nodes[j]) == k;
        var i := ItemOf(nodes, parsed, items, address, j);
      }
    }
    if NoConflict(discovery, items) && NoneMissing(discovery, items) {
      forall j | 0 <= j < |nodes|
        ensures nodes[j].state.OpenText? && NodeKey(nodes[j]) in discovery && discovery[NodeKey(nodes[j])].state.Open?
      {
        var i := ItemOf(nodes, parsed, items, address, j);
        assert !Conflicts(discovery, items[i]);
      }
      forall k | k in discovery && discovery[k].state.Open? ensures k in Listed(nodes) {
        var i :| 0 <= i < |items| && items[i].key == k;
        assert k in parsed;
      }
    }
  }

  lemma OverlaidByItem(before: Observation, after: Observation, nodes: seq<PortNode>,
                       parsed: map<PortKey, Observation>, items: seq<Observation>, k: PortKey, address: Id)
    requires Transcript(nodes, parsed, address) && Itemized(parsed, items)
    requires LastOf(items, |items|, k, before, after)
    ensures Overlaid(before, after, nodes, k, address)
  {
    if k in Listed(nodes) {
      assert k in parsed && after == parsed[k];
    }
  }

  /** The observations as a list without repetition. */
  method InSomeOrder(observations: map<PortKey, Observation>) returns (list: seq<Observation>)
    requires Keyed(observations)
    ensures Store.ByKey(list) == observations && Store.DistinctKeys(list)
    ensures forall i :: 0 <= i < |list| ==> list[i].key in observations && list[i] == observations[list[i].key]
  {
    list := [];
    var pending := observations.Keys;
    while pending != {}
      invariant pending <= observations.Keys && Store.DistinctKeys(list)
      invariant forall i :: 0 <= i < |list| ==>
                  list[i].key in observations.Keys - pending && list[i] == observations[list[i].key]
      invariant forall k :: Get(Store.ByKey(list), k) == if k in pending then None else Get(observations, k)
    {
      var k :| k in pending;
      ListedLast(list, observations[k]);
      list := list + [observations[k]];
      pending := pending - {k};
    }
    StoreSafety.SameLookups(Store.ByKey(list), observations);
  }

  lemma ListedLast(list: seq<Observation>, o: Observation)
    ensures Store.ByKey(list + [o]) == Store.ByKey(list)[o.key := o]
  {
    assert (list + [o])[..|list|] == list;
  }

  /** The ports of the target that the ingest closed although the document does not list them. */
  function ClosedUnlisted(before: Db, after: Db, listed: set<PortKey>): set<Service> {
    set s | s in before.exposures && before.exposures[s].row.open && s.key !in listed
            && (s !in after.exposures || !after.exposures[s].row.open)
  }

  /** Only covered ports that are not listed close without being listed. */
  lemma UnlistedCloseByAbsence(db: Db, env: Envelope, observations: seq<Observation>, validated: bool, queueable: bool)
    requires Store.IngestScan(db, env, observations, validated, queueable).Ok?
    ensures var o := Store.IngestScan(db, env, observations, validated, queueable).value;
            var recorded := if o.duplicate then db else Store.RecordAttempt(db, env, o.stale, o.eligible);
            ClosedUnlisted(db, o.db, Store.ByKey(observations).Keys)
            <= ClosedByAbsence(recorded, env, Store.ByKey(observations))
  {
    var o := Store.IngestScan(db, env, observations, validated, queueable).value;
    if !o.duplicate && o.eligible {
      var recorded := Store.RecordAttempt(db, env, o.stale, o.eligible);
      var observed := Store.ByKey(observations);
      forall s | s in ClosedUnlisted(db, o.db, observed.Keys) ensures s in ClosedByAbsence(recorded, env, observed) {
        assert Get(o.db.exposures, s) == Store.EvidenceFor(recorded, env, observed, s).record;
      }
    }
  }

  /** An acceptable scan is ingested, and one that is not changes nothing. Whatever the store held, a complete
      scan closes no more unlisted ports than its raw document collapsed into groups that are not open, and
      none if there are no such groups. */
  method ProcessScanResult(repository: Repositories.Repository, env: Envelope, raw: Document,
                           enrichment: Option<Document>, declaredOpen: seq<int>, coverage: seq<Declaration>,
                           mode: Export) returns (ok: bool, ghost observations: seq<Observation>)
    requires Bounded(coverage) && forall i :: 0 <= i < |declaredOpen| ==> 1 <= declaredOpen[i] <= P.MAX_PORT
    requires Countable(coverage) ==> env.coverage == Terms(coverage)
    modifies repository
    ensures !Acceptable(raw, enrichment, declaredOpen, coverage) ==>
              !ok && repository.State() == old(repository.State())
    ensures Acceptable(raw, enrichment, declaredOpen, coverage) ==>
              && Store.ByKey(observations).Keys == Listed(raw.ports)
              && match Store.IngestScan(old(repository.Snapshot()), env, observations, true, mode.Queueable())
                 case Ok(o) => ok && repository.Snapshot() == o.db
                 case Err(_) => !ok && repository.State() == old(repository.State())
    ensures ok ==>
              |ClosedUnlisted(old(repository.Snapshot()), repository.Snapshot(), Listed(raw.ports))|
              <= Collapsed(raw.extras)
  {
    observations := [];
    var loaded := LoadObservations(raw, enrichment, declaredOpen, env.address, coverage);
    if loaded.None? { return false, observations; }
    var list := InSomeOrder(loaded.value);
    observations := list;
    ghost var before := repository.Snapshot();
    var result := repository.IngestScan(env, list, true, mode);
    if result.Err? { return false, observations; }
    BoundedClosings(before, env, list, mode.Queueable(), Collapsed(raw.extras));
    return true, observations;
  }

  lemma BoundedClosings(db: Db, env: Envelope, observations: seq<Observation>, queueable: bool, collapsed: int)
    requires Store.IngestScan(db, env, observations, true, queueable).Ok?
    requires Accounted(env.coverage, Store.ByKey(observations).Keys, collapsed)
    ensures |ClosedUnlisted(db, Store.IngestScan(db, env, observations, true, queueable).value.db,
                            Store.ByKey(observations).Keys)| <= collapsed
  {
    var o := Store.IngestScan(db, env, observations, true, queueable).value;
    var recorded := if o.duplicate then db else Store.RecordAttempt(db, env, o.stale, o.eligible);
    var observed := Store.ByKey(observations);
    UnlistedCloseByAbsence(db, env, observations, true, queueable);
    AbsenceIsBounded(recorded, env, observed, observed.Keys, collapsed);
    FewerServices(ClosedUnlisted(db, o.db, observed.Keys), ClosedByAbsence(recorded, env, observed));
  }

  lemma FewerServices(a: set<Service>, b: set<Service>)
    requires a <= b
    ensures |a| <= |b|
  {
    assert b == a + (b - a);
  }
}
