/** Why an unlisted port may be treated as not open: a complete scan document has to account, number for
    number, for every port it was asked to cover. */
module XmlAccounting {
  import opened Base
  import opened Records
  import P = Ports
  import Store

  // ---------------------------------------------------------------- the document

  datatype StateText = NoState | OpenText | ClosedText | FilteredText | OtherText

  /** The protocol of a node that names none. */
  const NO_PROTOCOL: Id := 0

  /** A listed port; None: the port number is not an integer. */
  datatype PortNode = PortNode(protocol: Id, port: Option<int>, state: StateText, service: Id, identity: Id)

  /** A collapsed group of ports in one state; None: the count is not an integer. */
  datatype Extra = Extra(state: StateText, count: Option<int>)

  /** `sound`: finished successfully, exactly one host, the authorized one, not timed out. */
  datatype Document = Document(sound: bool, ports: seq<PortNode>, extras: seq<Extra>)

  /** A coverage declaration that has no numeric bounds cannot be counted. */
  datatype Declaration = Numeric(term: CoverageTerm) | Textual

  predicate Countable(coverage: seq<Declaration>) {
    coverage != [] && forall i :: 0 <= i < |coverage| ==> coverage[i].Numeric? && coverage[i].term.complete
  }

  predicate Bounded(coverage: seq<Declaration>) {
    forall i :: 0 <= i < |coverage| && coverage[i].Numeric? ==>
      P.Range(coverage[i].term.portFrom, coverage[i].term.portTo).Proper()
  }

  function Terms(coverage: seq<Declaration>): (terms: seq<CoverageTerm>)
    requires forall i :: 0 <= i < |coverage| ==> coverage[i].Numeric?
    ensures |terms| == |coverage| && forall i :: 0 <= i < |terms| ==> terms[i] == coverage[i].term
  {
    seq(|coverage|, i requires 0 <= i < |coverage| => coverage[i].term)
  }

  // ---------------------------------------------------------------- counting coverage

  ghost function IntervalKeys(protocol: Id, lo: int, hi: int): (s: set<PortKey>)
    ensures forall k :: k in s <==> k.protocol == protocol && lo <= k.port <= hi
    decreases hi - lo
  {
    if lo > hi then {} else IntervalKeys(protocol, lo, hi - 1) + {PortKey(protocol, hi)}
  }

  lemma {:induction false} IntervalKeysCount(protocol: Id, lo: int, hi: int)
    requires lo <= hi + 1
    ensures |IntervalKeys(protocol, lo, hi)| == hi - lo + 1
    decreases hi - lo
  {
    if lo <= hi { IntervalKeysCount(protocol, lo, hi - 1); }
  }

  ghost function RangeKeys(protocol: Id, rs: seq<P.Range>): (s: set<PortKey>)
    ensures forall k :: k in s <==> k.protocol == protocol && P.Covers(rs, k.port)
  {
    if rs == [] then {}
    else
      assert forall p :: P.Covers(rs, p) <==> rs[0].Has(p) || P.Covers(rs[1..], p) by {
        forall p ensures P.Covers(rs, p) <==> rs[0].Has(p) || P.Covers(rs[1..], p) { P.Split(rs, p); }
      }
      IntervalKeys(protocol, rs[0].start, rs[0].end) + RangeKeys(protocol, rs[1..])
  }

  /** The sizes of a canonical list add up to the number of keys it stands for. */
  lemma {:induction false} RangeKeysCount(protocol: Id, rs: seq<P.Range>)
    requires P.Canonical(rs)
    ensures |RangeKeys(protocol, rs)| == P.Count(rs)
  {
    if rs != [] {
      RangeKeysCount(protocol, rs[1..]);
      IntervalKeysCount(protocol, rs[0].start, rs[0].end);
      var head := IntervalKeys(protocol, rs[0].start, rs[0].end);
      forall k | k in head ensures k !in RangeKeys(protocol, rs[1..]) { P.TailCovers(rs, k.port); }
      assert head !! RangeKeys(protocol, rs[1..]);
    }
  }

  /** The ranges declared for one protocol. */
  function RangesOf(terms: seq<CoverageTerm>, protocol: Id): (rs: seq<P.Range>)
    ensures forall r :: r in rs <==>
              exists i :: 0 <= i < |terms| && terms[i].protocol == protocol
                  && r == P.Range(terms[i].portFrom, terms[i].portTo)
  {
    if terms == [] then []
    else
      var last := terms[|terms| - 1];
      RangesOf(terms[..|terms| - 1], protocol)
      + if last.protocol == protocol then [P.Range(last.portFrom, last.portTo)] else []
  }

  predicate AllComplete(terms: seq<CoverageTerm>) {
    forall i :: 0 <= i < |terms| ==> terms[i].complete && P.Range(terms[i].portFrom, terms[i].portTo).Proper()
  }

  lemma CoveredByProtocol(terms: seq<CoverageTerm>, key: PortKey)
    requires AllComplete(terms)
    ensures Covered(terms, key) <==> P.Covers(RangesOf(terms, key.protocol), key.port)
  {
    var rs := RangesOf(terms, key.protocol);
    if Covered(terms, key) {
      var i :| 0 <= i < |terms| && terms[i].Contains(key);
      assert P.Range(terms[i].portFrom, terms[i].portTo) in rs;
      var j :| 0 <= j < |rs| && rs[j] == P.Range(terms[i].portFrom, terms[i].portTo);
      assert rs[j].Has(key.port);
    }
    if P.Covers(rs, key.port) {
      var j :| 0 <= j < |rs| && rs[j].Has(key.port);
      assert rs[j] in rs;
      var i :| 0 <= i < |terms| && terms[i].protocol == key.protocol
          && rs[j] == P.Range(terms[i].portFrom, terms[i].portTo);
      assert terms[i].Contains(key);
    }
  }

  lemma AllCompleteRanges(terms: seq<CoverageTerm>, protocol: Id)
    requires AllComplete(terms)
    ensures P.AllProper(RangesOf(terms, protocol)) && P.NonEmpty(RangesOf(terms, protocol))
  {
  }

  /** The set holds exactly the covered keys. */
  ghost predicate IsCoverage(keys: set<PortKey>, terms: seq<CoverageTerm>) {
    forall k :: k in keys <==> Covered(terms, k)
  }

  /** All declarations are about the same protocol. */
  predicate OneProtocol(coverage: seq<Declaration>)
    requires Countable(coverage)
  {
    forall i :: 0 <= i < |coverage| ==> coverage[i].term.protocol == coverage[0].term.protocol
  }

  /** The protocols that occur, each once; None if a declaration cannot be counted. */
  method Protocols(coverage: seq<Declaration>) returns (protocols: Option<seq<Id>>)
    ensures protocols.Some? <==> Countable(coverage)
    ensures protocols.Some? ==>
              && (forall i :: 0 <= i < |coverage| ==> coverage[i].term.protocol in protocols.value)
              && (|protocols.value| == 1 <==> OneProtocol(coverage))
              && forall i, j :: 0 <= i < j < |protocols.value| ==> protocols.value[i] != protocols.value[j]
  {
    if coverage == [] { return None; }
    var found: seq<Id> := [];
    for i := 0 to |coverage|
      invariant forall j :: 0 <= j < i ==> coverage[j].Numeric? && coverage[j].term.complete
      invariant forall j :: 0 <= j < i ==> coverage[j].term.protocol in found
      invariant forall j, k :: 0 <= j < k < |found| ==> found[j] != found[k]
      invariant forall j :: 0 <= j < |found| ==> exists k :: 0 <= k < i && coverage[k].term.protocol == found[j]
    {
      if coverage[i].Textual? || !coverage[i].term.complete { return None; }
      if coverage[i].term.protocol !in found { found := found + [coverage[i].term.protocol]; }
    }
    assert coverage[0].term.protocol in found && (|found| >= 2 ==> found[0] != found[1]);
    if |found| == 1 {
      forall i | 0 <= i < |coverage| ensures coverage[i].term.protocol == found[0] {
        assert coverage[i].term.protocol in found;
      }
    }
    return Some(found);
  }

  /** The merged groups stand for the covered keys of the given protocols. */
  ghost predicate Grouped(groups: map<Id, seq<P.Range>>, terms: seq<CoverageTerm>, protocols: seq<Id>,
                          keys: set<PortKey>)
  {
    && (forall q {:trigger q in groups} :: q in groups <==> q in protocols)
    && (forall k: PortKey {:trigger k in keys} ::
          k in keys <==> k.protocol in groups && k in RangeKeys(k.protocol, groups[k.protocol]))
    && (forall k: PortKey {:trigger k in keys} {:trigger Covered(terms, k)} ::
          k in keys <==> k.protocol in protocols && Covered(terms, k))
  }

  /** The group stands for the covered keys of its protocol. */
  ghost predicate StandsFor(group: seq<P.Range>, terms: seq<CoverageTerm>, protocol: Id) {
    forall k: PortKey {:trigger k in RangeKeys(protocol, group)} ::
      k in RangeKeys(protocol, group) <==> k.protocol == protocol && Covered(terms, k)
  }

  lemma GroupStands(group: seq<P.Range>, terms: seq<CoverageTerm>, protocol: Id)
    requires AllComplete(terms) && P.SamePorts(group, RangesOf(terms, protocol))
    ensures StandsFor(group, terms, protocol)
  {
    forall k: PortKey ensures k in RangeKeys(protocol, group) <==> k.protocol == protocol && Covered(terms, k) {
      CoveredByProtocol(terms, k);
      assert P.Covers(group, k.port) <==> P.Covers(RangesOf(terms, protocol), k.port);
    }
  }

  lemma OneMoreGroup(groups: map<Id, seq<P.Range>>, terms: seq<CoverageTerm>, protocols: seq<Id>, keys: set<PortKey>,
                     protocol: Id, group: seq<P.Range>)
    requires Grouped(groups, terms, protocols, keys) && protocol !in protocols && StandsFor(group, terms, protocol)
    ensures Grouped(groups[protocol := group], terms, protocols + [protocol], keys + RangeKeys(protocol, group))
    ensures keys !! RangeKeys(protocol, group)
  {
  }

  lemma AllGrouped(groups: map<Id, seq<P.Range>>, terms: seq<CoverageTerm>, protocols: seq<Id>, keys: set<PortKey>)
    requires Grouped(groups, terms, protocols, keys)
    requires forall i :: 0 <= i < |terms| ==> terms[i].protocol in protocols
    ensures IsCoverage(keys, terms)
  {
  }

  /** One round of the loop below. */
  lemma MergedGroup(groups: map<Id, seq<P.Range>>, terms: seq<CoverageTerm>, protocols: seq<Id>, i: nat,
                    keys: set<PortKey>,
                    group: seq<P.Range>)
    requires AllComplete(terms) && forall i, j :: 0 <= i < j < |protocols| ==> protocols[i] != protocols[j]
    requires i < |protocols| && Grouped(groups, terms, protocols[..i], keys)
    requires P.Canonical(group) && P.SamePorts(group, RangesOf(terms, protocols[i]))
    ensures Grouped(groups[protocols[i] := group], terms, protocols[..i + 1], keys + RangeKeys(protocols[i], group))
    ensures |keys + RangeKeys(protocols[i], group)| == |keys| + P.Count(group)
    ensures |groups[protocols[i] := group]| == |groups| + 1
  {
    assert protocols[..i + 1] == protocols[..i] + [protocols[i]];
    GroupStands(group, terms, protocols[i]);
    OneMoreGroup(groups, terms, protocols[..i], keys, protocols[i], group);
    RangeKeysCount(protocols[i], group);
  }

  /** Normalizes the ranges of each protocol, and counts. */
  method MergeGroups(terms: seq<CoverageTerm>, protocols: seq<Id>)
    returns (groups: map<Id, seq<P.Range>>, represented: int, ghost keys: set<PortKey>)
    requires AllComplete(terms) && forall i, j :: 0 <= i < j < |protocols| ==> protocols[i] != protocols[j]
    ensures Grouped(groups, terms, protocols, keys) && represented == |keys| && |groups| == |protocols|
  {
    groups, represented, keys := map[], 0, {};
    for i := 0 to |protocols|
      invariant Grouped(groups, terms, protocols[..i], keys) && represented == |keys| && |groups| == i
    {
      var protocol := protocols[i];
      AllCompleteRanges(terms, protocol);
      var group := P.Normalize(RangesOf(terms, protocol));
      MergedGroup(groups, terms, protocols, i, keys, group);
      keys := keys + RangeKeys(protocol, group);
      groups := groups[protocol := group];
      represented := represented + P.Count(group);
    }
    assert protocols[..|protocols|] == protocols;
  }

  /** Groups the declarations by protocol. */
  method CoverageRanges(coverage: seq<Declaration>)
    returns (merged: Option<map<Id, seq<P.Range>>>, represented: int, ghost keys: set<PortKey>)
    requires Bounded(coverage)
    ensures merged.Some? <==> Countable(coverage)
    ensures merged.Some? ==>
              && IsCoverage(keys, Terms(coverage)) && represented == |keys|
              && (forall k: PortKey :: k in keys <==>
                    k.protocol in merged.value && P.Covers(merged.value[k.protocol], k.port))
              && (|merged.value| == 1 <==> OneProtocol(coverage))
  {
    merged, represented, keys := None, 0, {};
    var protocols := Protocols(coverage);
    if protocols.None? { return; }
    var groups: map<Id, seq<P.Range>>;
    groups, represented, keys := MergeGroups(Terms(coverage), protocols.value);
    AllGrouped(groups, Terms(coverage), protocols.value, keys);
    merged := Some(groups);
  }

  // ---------------------------------------------------------------- accepting a document

  ghost function Listed(nodes: seq<PortNode>): (s: set<PortKey>)
  {
    set i | 0 <= i < |nodes| && nodes[i].port.Some? :: PortKey(nodes[i].protocol, nodes[i].port.value)
  }

  function Collapsed(extras: seq<Extra>): int {
    if extras == [] then 0
    else
      var last := extras[|extras| - 1];
      Collapsed(extras[..|extras| - 1]) + if last.count.Some? then last.count.value else 0
  }

  /** Every listed port is covered, and the covered ports not listed number exactly the collapsed ones. */
  ghost predicate Accounted(terms: seq<CoverageTerm>, listed: set<PortKey>, collapsed: int) {
    exists keys :: IsCoverage(keys, terms) && listed <= keys && |keys - listed| == collapsed
  }

  /** Every listed port is covered, has a state, and is listed once. */
  predicate Fits(nodes: seq<PortNode>, coverage: map<Id, seq<P.Range>>) {
    && (forall i :: 0 <= i < |nodes| ==>
          && nodes[i].port.Some? && !nodes[i].state.NoState?
          && nodes[i].protocol in coverage && P.Covers(coverage[nodes[i].protocol], nodes[i].port.value))
    && forall i, j :: 0 <= i < j < |nodes| ==> NodeKey(nodes[i]) != NodeKey(nodes[j])
  }

  method ListExplicit(nodes: seq<PortNode>, coverage: map<Id, seq<P.Range>>) returns (ok: bool, explicit: set<PortKey>)
    ensures ok <==> Fits(nodes, coverage)
    ensures ok ==> explicit == Listed(nodes)
  {
    explicit := {};
    for i := 0 to |nodes|
      invariant explicit == Listed(nodes[..i]) && Fits(nodes[..i], coverage)
      invariant forall k :: k in explicit <==> exists j :: 0 <= j < i && NodeKey(nodes[j]) == k
    {
      var node := nodes[i];
      if node.port.None? { return false, explicit; }
      var key := NodeKey(node);
      if key.protocol !in coverage || !P.Covers(coverage[key.protocol], key.port) { return false, explicit; }
      if key in explicit || node.state.NoState? { return false, explicit; }
      ListedGrows(nodes[..i], node);
      assert nodes[..i + 1] == nodes[..i] + [node];
      explicit := explicit + {key};
    }
    assert nodes[..|nodes|] == nodes;
    ok := true;
  }

  function NodeKey(node: PortNode): PortKey { PortKey(node.protocol, if node.port.Some? then node.port.value else 0) }

  lemma ListedGrows(nodes: seq<PortNode>, node: PortNode)
    requires node.port.Some?
    ensures Listed(nodes + [node]) == Listed(nodes) + {NodeKey(node)}
  {
    var all := nodes + [node];
    assert all[|nodes|] == node;
    forall k | k in Listed(nodes) ensures k in Listed(all) {
      var i :| 0 <= i < |nodes| && nodes[i].port.Some? && k == PortKey(nodes[i].protocol, nodes[i].port.value);
      assert all[i] == nodes[i];
    }
  }

  predicate NotOpen(extras: seq<Extra>) {
    forall i :: 0 <= i < |extras| ==>
      extras[i].count.Some? && extras[i].count.value >= 1 && !extras[i].state.NoState? && !extras[i].state.OpenText?
  }

  method CountCollapsed(extras: seq<Extra>) returns (ok: bool, collapsed: int)
    ensures ok <==> NotOpen(extras)
    ensures ok ==> collapsed == Collapsed(extras)
  {
    collapsed := 0;
    for i := 0 to |extras|
      invariant collapsed == Collapsed(extras[..i]) && NotOpen(extras[..i])
    {
      var extra := extras[i];
      assert extras[..i + 1][..i] == extras[..i];
      if extra.count.None? { return false, 0; }
      if extra.state.NoState? || extra.count.value < 1 || extra.state.OpenText? { return false, 0; }
      collapsed := collapsed + extra.count.value;
    }
    assert extras[..|extras|] == extras;
    ok := true;
  }

  /** Every listed port is covered by the declarations, has a state, and is listed once. */
  predicate FitsTerms(nodes: seq<PortNode>, terms: seq<CoverageTerm>) {
    && (forall i :: 0 <= i < |nodes| ==>
          nodes[i].port.Some? && !nodes[i].state.NoState? && Covered(terms, NodeKey(nodes[i])))
    && forall i, j :: 0 <= i < j < |nodes| ==> NodeKey(nodes[i]) != NodeKey(nodes[j])
  }

  /** A sound document that accounts for the whole coverage, with collapsed ports that are not open and, if
      there are any, of the only protocol there is. */
  ghost predicate Accountable(doc: Document, coverage: seq<Declaration>) {
    && doc.sound && Countable(coverage) && FitsTerms(doc.ports, Terms(coverage)) && NotOpen(doc.extras)
    && (Collapsed(doc.extras) != 0 ==>
          forall i :: 0 <= i < |coverage| ==> coverage[i].term.protocol == coverage[0].term.protocol)
    && Accounted(Terms(coverage), Listed(doc.ports), Collapsed(doc.extras))
  }

  /** Accepts exactly the accountable documents. */
  method ValidateCompleteXml(doc: Document, coverage: seq<Declaration>) returns (ok: bool)
    requires Bounded(coverage)
    ensures ok <==> Accountable(doc, coverage)
  {
    if !doc.sound { return false; }
    var merged, represented, keys := CoverageRanges(coverage);
    if merged.None? { return false; }
    var explicit: set<PortKey>;
    ok, explicit := ListExplicit(doc.ports, merged.value);
    forall i | 0 <= i < |doc.ports| && doc.ports[i].port.Some?
      ensures Covered(Terms(coverage), NodeKey(doc.ports[i])) <==>
                && doc.ports[i].protocol in merged.value
                && P.Covers(merged.value[doc.ports[i].protocol], doc.ports[i].port.value)
    {
      assert NodeKey(doc.ports[i]) in keys <==> Covered(Terms(coverage), NodeKey(doc.ports[i]));
    }
    if !ok { return; }
    var collapsed: int;
    ok, collapsed := CountCollapsed(doc.extras);
    if !ok { return; }
    ListedIsCovered(doc.ports, Terms(coverage), keys, collapsed);
    if collapsed != 0 && |merged.value| != 1 { return false; }
    return |explicit| + collapsed == represented;
  }

  lemma ListedIsCovered(nodes: seq<PortNode>, terms: seq<CoverageTerm>, keys: set<PortKey>, collapsed: int)
    requires IsCoverage(keys, terms) && FitsTerms(nodes, terms)
    ensures Accounted(terms, Listed(nodes), collapsed) <==> |Listed(nodes)| + collapsed == |keys|
  {
    var listed := Listed(nodes);
    forall k | k in listed ensures k in keys {
      var i :| 0 <= i < |nodes| && nodes[i].port.Some? && k == PortKey(nodes[i].protocol, nodes[i].port.value);
      assert k == NodeKey(nodes[i]);
    }
    assert keys == (keys - listed) + listed;
    assert |keys| == |keys - listed| + |listed|;
    if Accounted(terms, listed, collapsed) {
      var other :| IsCoverage(other, terms) && listed <= other && |other - listed| == collapsed;
      assert other == keys;
    }
  }

  // ---------------------------------------------------------------- observations

  function NormalizeState(text: StateText): PortState {
    match text
    case OpenText => Open
    case ClosedText => Closed
    case FilteredText => Filtered
    case _ => Unknown
  }

  function Observed(node: PortNode, address: Id): Observation {
    Observation(NodeKey(node), address, NormalizeState(node.state), node.service, node.identity)
  }

  /** The node names no protocol or no proper port number. */
  predicate Malformed(node: PortNode) {
    node.protocol == NO_PROTOCOL || node.port.None? || !(1 <= node.port.value <= P.MAX_PORT)
  }

  predicate Contradict(a: PortNode, b: PortNode, address: Id) {
    NodeKey(a) == NodeKey(b) && Observed(a, address) != Observed(b, address)
  }

  /** Every node names its protocol and a proper port number. */
  predicate Legible(nodes: seq<PortNode>) {
    forall i :: 0 <= i < |nodes| ==>
      nodes[i].protocol != NO_PROTOCOL && nodes[i].port.Some? && 1 <= nodes[i].port.value <= 65535
  }

  /** The states that the document may name are taken over, and everything else is unknown. */
  predicate Reads(state: PortState, text: StateText) {
    && (state.Open? <==> text.OpenText?) && (state.Closed? <==> text.ClosedText?)
    && (state.Filtered? <==> text.FilteredText?)
  }

  /** The observation says what the node says. */
  predicate Transcribes(o: Observation, node: PortNode, address: Id) {
    && node.port.Some? && o.key == PortKey(node.protocol, node.port.value) && o.address == address
    && o.service == node.service && o.identity == node.identity && Reads(o.state, node.state)
  }

  /** One observation for each listed port; refused exactly if a node is malformed or two of them say
      different things about one port. */
  method ParsePorts(nodes: seq<PortNode>, address: Id) returns (parsed: Option<map<PortKey, Observation>>)
    ensures parsed.Some? ==>
              && parsed.value.Keys == Listed(nodes) && Keyed(parsed.value)
              && (forall i :: 0 <= i < |nodes| ==>
                    NodeKey(nodes[i]) in parsed.value
                    && Transcribes(parsed.value[NodeKey(nodes[i])], nodes[i], address))
    ensures parsed.None? <==>
              || !Legible(nodes)
              || (exists i, j :: 0 <= i < j < |nodes| && Contradict(nodes[i], nodes[j], address))
  {
    var observations: map<PortKey, Observation> := map[];
    for i := 0 to |nodes|
      invariant observations.Keys == Listed(nodes[..i]) && Keyed(observations)
      invariant forall j :: 0 <= j < i ==>
                  NodeKey(nodes[j]) in observations && observations[NodeKey(nodes[j])] == Observed(nodes[j], address)
      invariant forall j :: 0 <= j < i ==> !Malformed(nodes[j])
    {
      var node := nodes[i];
      if Malformed(node) { return None; }
      var key, observation := NodeKey(node), Observed(node, address);
      if key in observations && observations[key] != observation {
        var j :| 0 <= j < i && NodeKey(nodes[..i][j]) == key;
        assert Contradict(nodes[j], nodes[i], address);
        return None;
      }
      ListedGrows(nodes[..i], node);
      assert nodes[..i + 1] == nodes[..i] + [node];
      observations := observations[key := observation];
    }
    assert nodes[..|nodes|] == nodes;
    return Some(observations);
  }

  /** Observations are filed under their own port. */
  predicate Keyed(observations: map<PortKey, Observation>) {
    forall k :: k in observations ==> observations[k].key == k
  }

  predicate OnlyEnriched(discovery: map<PortKey, Observation>, merged: map<PortKey, Observation>) {
    && merged.Keys == discovery.Keys
    && forall k :: k in merged ==>
         && merged[k].state == discovery[k].state && merged[k].address == discovery[k].address
         && (merged[k] != discovery[k] ==> discovery[k].state.Open? && merged[k].key == k)
  }

  /** Of the first n items the last about the port, or else what was there before. */
  predicate LastOf(items: seq<Observation>, n: nat, key: PortKey, before: Observation, now: Observation)
    requires n <= |items|
  {
    || ((forall i :: 0 <= i < n ==> items[i].key != key) && now == before)
    || exists i :: 0 <= i < n && items[i].key == key && now == items[i]
                   && forall j :: i < j < n ==> items[j].key != key
  }

  /** Overlays service details on open ports; the listed ports and their states stay as discovered. */
  method MergeEnrichment(discovery: map<PortKey, Observation>, enrichment: seq<Observation>, requireComplete: bool)
    returns (merged: Option<map<PortKey, Observation>>)
    ensures merged.Some? ==> OnlyEnriched(discovery, merged.value)
    ensures merged.Some? ==> forall k :: k in discovery ==>
              LastOf(enrichment, |enrichment|, k, discovery[k], merged.value[k])
    ensures merged.Some? ==> forall i :: 0 <= i < |enrichment| ==> !Conflicts(discovery, enrichment[i])
    ensures merged.Some? && requireComplete ==> forall k :: k in discovery && discovery[k].state.Open? ==>
              exists i :: 0 <= i < |enrichment| && enrichment[i].key == k
    ensures merged.None? ==>
              || (exists i :: 0 <= i < |enrichment| && Conflicts(discovery, enrichment[i]))
              || (requireComplete && exists k :: k in discovery && discovery[k].state.Open?
                                                 && forall i :: 0 <= i < |enrichment| ==> enrichment[i].key != k)
  {
    var now := discovery;
    var enriched: set<PortKey> := {};
    for i := 0 to |enrichment|
      invariant OnlyEnriched(discovery, now) && forall j :: 0 <= j < i ==> !Conflicts(discovery, enrichment[j])
      invariant forall k :: k in enriched <==> exists j :: 0 <= j < i && enrichment[j].key == k
      invariant forall k :: k in enriched ==> k in discovery && discovery[k].state.Open?
      invariant forall k :: k in discovery ==> LastOf(enrichment, i, k, discovery[k], now[k])
    {
      var item := enrichment[i];
      if item.key !in now || !now[item.key].state.Open? || !item.state.Open? || now[item.key].address != item.address {
        assert Conflicts(discovery, item);
        return None;
      }
      now := now[item.key := item];
      enriched := enriched + {item.key};
    }
    var expected := set k | k in discovery && discovery[k].state.Open?;
    if requireComplete && enriched != expected {
      MissingOne(enriched, expected);
      return None;
    }
    if requireComplete {
      forall k | k in discovery && discovery[k].state.Open?
        ensures exists i :: 0 <= i < |enrichment| && enrichment[i].key == k
      {
        assert k in expected;
      }
    }
    return Some(now);
  }

  lemma MissingOne(some: set<PortKey>, all: set<PortKey>)
    requires some <= all && some != all
    ensures exists k :: k in all && k !in some
  {
  }

  predicate Conflicts(discovery: map<PortKey, Observation>, item: Observation) {
    item.key !in discovery || !discovery[item.key].state.Open? || !item.state.Open?
    || discovery[item.key].address != item.address
  }

  // ---------------------------------------------------------------- what absence closes

  /** The services an ingest closes because the document covered them without listing them. */
  function ClosedByAbsence(db: Db, env: Envelope, observed: map<PortKey, Observation>): set<Service> {
    set s | s in db.exposures && s.key !in observed && Store.EvidenceFor(db, env, observed, s).applied
  }

  ghost function KeysOf(services: set<Service>): set<PortKey> { set s | s in services :: s.key }

  lemma {:induction false} OneTargetOneKey(services: set<Service>, target: Id)
    requires forall s :: s in services ==> s.target == target
    ensures |KeysOf(services)| == |services|
    decreases services
  {
    if s :| s in services {
      OneTargetOneKey(services - {s}, target);
      assert KeysOf(services) == KeysOf(services - {s}) + {s.key};
      assert s.key !in KeysOf(services - {s}) by {
        forall o | o in services - {s} ensures o.key != s.key { assert o != s; }
      }
    } else {
      assert KeysOf(services) == {};
    }
  }

  lemma {:induction false} SubsetIsSmaller(a: set<PortKey>, b: set<PortKey>)
    requires a <= b
    ensures |a| <= |b|
  {
    assert b == a + (b - a);
  }

  /** An ingest of an accepted document never closes more ports by absence than its collapsed counts add
      up to, and none at all when there are none. */
  lemma AbsenceIsBounded(db: Db, env: Envelope, observed: map<PortKey, Observation>, listed: set<PortKey>,
                         collapsed: int)
    requires Accounted(env.coverage, listed, collapsed) && observed.Keys == listed
    ensures |ClosedByAbsence(db, env, observed)| <= collapsed
  {
    var closed := ClosedByAbsence(db, env, observed);
    var keys :| IsCoverage(keys, env.coverage) && listed <= keys && |keys - listed| == collapsed;
    forall s | s in closed ensures s.target == env.target && s.key in keys - listed {}
    OneTargetOneKey(closed, env.target);
    SubsetIsSmaller(KeysOf(closed), keys - listed);
  }
}
