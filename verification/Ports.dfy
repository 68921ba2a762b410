/** Sets of TCP ports as lists of ranges. Four places turn an arbitrary selection into such a list, by
    sorting and merging or by painting a bitmap; all of them produce the one canonical list. */
module Ports {
  import opened Base

  const MAX_PORT := 65535
  const MAX_TERMS := 256

  datatype Range = Range(start: int, end: int) {
    predicate Has(p: int) { start <= p <= end }

    predicate Proper() { 1 <= start <= end <= MAX_PORT }

    function Size(): int { end - start + 1 }
  }

  const FULL := Range(1, MAX_PORT)

  predicate Covers(rs: seq<Range>, p: int) {
    exists i :: 0 <= i < |rs| && rs[i].Has(p)
  }

  predicate AllProper(rs: seq<Range>) {
    forall i :: 0 <= i < |rs| ==> rs[i].Proper()
  }

  predicate NonEmpty(rs: seq<Range>) {
    forall i :: 0 <= i < |rs| ==> rs[i].start <= rs[i].end
  }

  /** Sorted, and with a gap of at least one port between neighbours. */
  predicate Canonical(rs: seq<Range>) {
    && NonEmpty(rs)
    && forall i, j :: 0 <= i < j < |rs| ==> rs[i].end + 1 < rs[j].start
  }

  ghost predicate SamePorts(a: seq<Range>, b: seq<Range>) {
    forall p {:trigger Covers(a, p)} {:trigger Covers(b, p)} :: Covers(a, p) <==> Covers(b, p)
  }

  // ---------------------------------------------------------------- uniqueness

  lemma TailCovers(rs: seq<Range>, p: int)
    requires Canonical(rs) && rs != []
    ensures Covers(rs[1..], p) <==> Covers(rs, p) && p > rs[0].end
  {
  }

  /** The first range of a canonical list is the first run of its ports. */
  lemma FirstRun(rs: seq<Range>, p: int)
    requires Canonical(rs) && rs != []
    ensures Covers(rs, rs[0].start) && !Covers(rs, rs[0].end + 1)
    ensures p < rs[0].start ==> !Covers(rs, p)
    ensures rs[0].start <= p <= rs[0].end ==> Covers(rs, p)
  {
  }

  /** A set of ports has only one canonical list. */
  lemma {:induction false} CanonicalIsUnique(a: seq<Range>, b: seq<Range>)
    requires Canonical(a) && Canonical(b) && SamePorts(a, b)
    ensures a == b
  {
    if a != [] { FirstRun(a, 0); }
    if b != [] { FirstRun(b, 0); }
    if a != [] && b != [] {
      FirstRun(a, b[0].start);
      FirstRun(b, a[0].start);
      FirstRun(a, b[0].end + 1);
      FirstRun(b, a[0].end + 1);
      assert a[0] == b[0];
      forall p ensures Covers(a[1..], p) <==> Covers(b[1..], p) {
        TailCovers(a, p);
        TailCovers(b, p);
      }
      CanonicalIsUnique(a[1..], b[1..]);
      assert a == [a[0]] + a[1..] && b == [b[0]] + b[1..];
    }
  }

  // ---------------------------------------------------------------- counting

  function Count(rs: seq<Range>): int {
    if rs == [] then 0 else rs[0].Size() + Count(rs[1..])
  }

  ghost function PortSet(rs: seq<Range>): (s: set<int>)
    ensures forall p :: p in s <==> Covers(rs, p)
  {
    if rs == [] then {}
    else
      var all := Interval(rs[0].start, rs[0].end) + PortSet(rs[1..]);
      assert forall p :: Covers(rs, p) <==> rs[0].Has(p) || Covers(rs[1..], p) by {
        forall p ensures Covers(rs, p) <==> rs[0].Has(p) || Covers(rs[1..], p) { Split(rs, p); }
      }
      all
  }

  lemma Split(rs: seq<Range>, p: int)
    requires rs != []
    ensures Covers(rs, p) <==> rs[0].Has(p) || Covers(rs[1..], p)
  {
  }

  ghost function Interval(lo: int, hi: int): (s: set<int>)
    ensures forall p :: p in s <==> lo <= p <= hi
    decreases hi - lo
  {
    if lo > hi then {} else Interval(lo, hi - 1) + {hi}
  }

  lemma {:induction false} IntervalSize(lo: int, hi: int)
    requires lo <= hi + 1
    ensures |Interval(lo, hi)| == hi - lo + 1
    decreases hi - lo
  {
    if lo <= hi { IntervalSize(lo, hi - 1); }
  }

  /** The sizes of a canonical list add up to the number of its ports. */
  lemma {:induction false} CountIsCardinality(rs: seq<Range>)
    requires Canonical(rs)
    ensures Count(rs) == |PortSet(rs)|
  {
    if rs == [] {
      assert PortSet(rs) == {};
    } else {
      CountIsCardinality(rs[1..]);
      IntervalSize(rs[0].start, rs[0].end);
      var head := Interval(rs[0].start, rs[0].end);
      forall p | p in head ensures p !in PortSet(rs[1..]) { TailCovers(rs, p); }
      assert PortSet(rs) == head + PortSet(rs[1..]);
      assert head !! PortSet(rs[1..]);
    }
  }

  // ---------------------------------------------------------------- sort and merge

  predicate SortedByStart(rs: seq<Range>) {
    forall i, j :: 0 <= i < j < |rs| ==> rs[i].start <= rs[j].start
  }

  function Insert(r: Range, rs: seq<Range>): (out: seq<Range>)
    requires SortedByStart(rs)
    ensures SortedByStart(out) && forall q :: q in out <==> q == r || q in rs
  {
    if rs == [] || r.start <= rs[0].start then [r] + rs
    else
      var rest := Insert(r, rs[1..]);
      assert forall q :: q in rest ==> q.start >= rs[0].start;
      [rs[0]] + rest
  }

  function Sorted(rs: seq<Range>): (out: seq<Range>)
    ensures SortedByStart(out) && forall q :: q in out <==> q in rs
  {
    if rs == [] then [] else Insert(rs[0], Sorted(rs[1..]))
  }

  lemma SameMembersCoverSame(a: seq<Range>, b: seq<Range>)
    requires forall q :: q in a <==> q in b
    ensures SamePorts(a, b)
  {
    forall p ensures Covers(a, p) ==> Covers(b, p) {
      if i :| 0 <= i < |a| && a[i].Has(p) {
        assert a[i] in b;
        var j :| 0 <= j < |b| && b[j] == a[i];
      }
    }
    forall p ensures Covers(b, p) ==> Covers(a, p) {
      if i :| 0 <= i < |b| && b[i].Has(p) {
        assert b[i] in a;
        var j :| 0 <= j < |a| && a[j] == b[i];
      }
    }
  }

  /** The list covers the ports of the other list and of one more range. */
  ghost predicate Adds(after: seq<Range>, before: seq<Range>, r: Range) {
    forall p {:trigger Covers(after, p)} :: Covers(after, p) <==> Covers(before, p) || r.Has(p)
  }

  lemma AddsToSame(before: seq<Range>, after: seq<Range>, read: seq<Range>, r: Range)
    requires SamePorts(before, read) && Adds(after, before, r)
    ensures SamePorts(after, read + [r])
  {
    forall p ensures Covers(after, p) <==> Covers(read + [r], p) { Grown(read, r, p); }
  }

  lemma Grown(rs: seq<Range>, r: Range, p: int)
    ensures Covers(rs + [r], p) <==> Covers(rs, p) || r.Has(p)
  {
    var all := rs + [r];
    if Covers(rs, p) {
      var i :| 0 <= i < |rs| && rs[i].Has(p);
      assert all[i].Has(p);
    }
    if r.Has(p) { assert all[|rs|].Has(p); }
    if Covers(all, p) {
      var i :| 0 <= i < |all| && all[i].Has(p);
      assert i < |rs| ==> rs[i].Has(p);
    }
  }

  /** Extends the last range if the next one overlaps or touches it, and appends it otherwise. */
  function Absorb(rs: seq<Range>, r: Range): seq<Range> {
    var n := |rs|;
    if n > 0 && r.start <= rs[n - 1].end + 1 then rs[n - 1 := Range(rs[n - 1].start, Max(rs[n - 1].end, r.end))]
    else rs + [r]
  }

  /** Sorts, then merges range by range. */
  method Normalize(declared: seq<Range>) returns (normalized: seq<Range>)
    requires NonEmpty(declared)
    ensures Canonical(normalized) && SamePorts(normalized, declared)
    ensures AllProper(declared) ==> AllProper(normalized)
    ensures |normalized| <= |declared| && (declared != [] ==> normalized != [])
  {
    var sorted := Sorted(declared);
    SortKeeps(declared);
    normalized := [];
    for i := 0 to |sorted|
      invariant |normalized| <= i && (i > 0 ==> normalized != [])
      invariant Canonical(normalized) && SamePorts(normalized, sorted[..i])
      invariant normalized != [] ==> i > 0 && normalized[|normalized| - 1].start <= sorted[i - 1].start
      invariant AllProper(declared) ==> AllProper(normalized)
    {
      MergeStep(normalized, sorted[i]);
      AddsToSame(normalized, Absorb(normalized, sorted[i]), sorted[..i], sorted[i]);
      assert sorted[..i + 1] == sorted[..i] + [sorted[i]];
      normalized := Absorb(normalized, sorted[i]);
    }
    assert sorted[..|sorted|] == sorted;
  }

  lemma SortKeeps(rs: seq<Range>)
    ensures |Sorted(rs)| == |rs| && SamePorts(Sorted(rs), rs)
    ensures NonEmpty(rs) ==> NonEmpty(Sorted(rs))
    ensures AllProper(rs) ==> AllProper(Sorted(rs))
  {
    SortKeepsLength(rs);
    SameMembersCoverSame(Sorted(rs), rs);
    forall i | 0 <= i < |Sorted(rs)| ensures Sorted(rs)[i] in rs {}
  }

  /** Taking up the next range of a sorted list. */
  lemma MergeStep(rs: seq<Range>, r: Range)
    requires Canonical(rs) && r.start <= r.end && (rs != [] ==> rs[|rs| - 1].start <= r.start)
    ensures var after := Absorb(rs, r);
            && |after| <= |rs| + 1 && after != [] && Canonical(after) && after[|after| - 1].start <= r.start
            && (AllProper(rs) && r.Proper() ==> AllProper(after))
            && Adds(after, rs, r)
  {
    var n := |rs|;
    if n > 0 && r.start <= rs[n - 1].end + 1 {
      var after := rs[n - 1 := Range(rs[n - 1].start, Max(rs[n - 1].end, r.end))];
      forall p ensures Covers(after, p) <==> Covers(rs, p) || r.Has(p) { Extended(rs, r, p); }
    } else {
      LastIsGreatest(rs);
      forall p ensures Covers(rs + [r], p) <==> Covers(rs, p) || r.Has(p) { Grown(rs, r, p); }
    }
  }

  lemma {:induction false} SortKeepsLength(rs: seq<Range>)
    ensures |Sorted(rs)| == |rs|
  {
    if rs != [] {
      SortKeepsLength(rs[1..]);
      InsertLengthens(rs[0], Sorted(rs[1..]));
    }
  }

  lemma {:induction false} InsertLengthens(r: Range, rs: seq<Range>)
    requires SortedByStart(rs)
    ensures |Insert(r, rs)| == |rs| + 1
  {
    if rs != [] && r.start > rs[0].start { InsertLengthens(r, rs[1..]); }
  }

  lemma Extended(rs: seq<Range>, r: Range, p: int)
    requires rs != [] && NonEmpty(rs) && rs[|rs| - 1].start <= r.start <= rs[|rs| - 1].end + 1 && r.start <= r.end
    ensures var n := |rs|;
            Covers(rs[n - 1 := Range(rs[n - 1].start, Max(rs[n - 1].end, r.end))], p) <==> Covers(rs, p) || r.Has(p)
  {
    var n := |rs|;
    var all := rs[n - 1 := Range(rs[n - 1].start, Max(rs[n - 1].end, r.end))];
    if Covers(rs, p) {
      var i :| 0 <= i < |rs| && rs[i].Has(p);
      assert all[i].Has(p);
    }
    if r.Has(p) { assert all[n - 1].Has(p); }
    if Covers(all, p) {
      var i :| 0 <= i < |all| && all[i].Has(p);
      assert i < n - 1 ==> rs[i].Has(p);
      assert i == n - 1 ==> rs[i].Has(p) || r.Has(p);
    }
  }

  // ---------------------------------------------------------------- bitmap

  predicate Chosen(ports: seq<int>, ranges: seq<Range>, p: int) { p in ports || Covers(ranges, p) }

  /** Paints ports and ranges into a bitmap; false if one of them is out of bounds. */
  method Paint(bits: array<bool>, ports: seq<int>, ranges: seq<Range>) returns (ok: bool)
    requires bits.Length == MAX_PORT + 1 && forall p :: 0 <= p <= MAX_PORT ==> !bits[p]
    modifies bits
    ensures ok <==> AllProper(ranges) && forall i :: 0 <= i < |ports| ==> 1 <= ports[i] <= MAX_PORT
    ensures ok ==> forall p :: 0 <= p <= MAX_PORT ==> (bits[p] <==> Chosen(ports, ranges, p))
  {
    for i := 0 to |ports|
      invariant forall k :: 0 <= k < i ==> 1 <= ports[k] <= MAX_PORT
      invariant forall p :: 0 <= p <= MAX_PORT ==> (bits[p] <==> p in ports[..i])
    {
      if !(1 <= ports[i] <= MAX_PORT) { return false; }
      bits[ports[i]] := true;
      assert ports[..i + 1] == ports[..i] + [ports[i]];
    }
    assert ports[..|ports|] == ports;
    for i := 0 to |ranges|
      invariant forall k :: 0 <= k < i ==> ranges[k].Proper()
      invariant forall p :: 0 <= p <= MAX_PORT ==> (bits[p] <==> Chosen(ports, ranges[..i], p))
    {
      var r := ranges[i];
      if !r.Proper() { return false; }
      ghost var before := bits[..];
      for port := r.start to r.end + 1
        invariant forall p :: 0 <= p <= MAX_PORT ==> (bits[p] <==> before[p] || r.start <= p < port)
      {
        bits[port] := true;
      }
      assert ranges[..i + 1] == ranges[..i] + [r];
      forall p | 0 <= p <= MAX_PORT ensures bits[p] <==> Chosen(ports, ranges[..i + 1], p) {
        Grown(ranges[..i], r, p);
        assert before[p] <==> Chosen(ports, ranges[..i], p);
      }
    }
    assert ranges[..|ranges|] == ranges;
    ok := true;
  }

  /** Collects the painted ports in order. */
  method Selected(bits: array<bool>) returns (selected: seq<int>)
    requires bits.Length == MAX_PORT + 1
    ensures forall i, j :: 0 <= i < j < |selected| ==> selected[i] < selected[j]
    ensures forall p :: p in selected <==> 1 <= p <= MAX_PORT && bits[p]
  {
    selected := [];
    for port := 1 to MAX_PORT + 1
      invariant forall i, j :: 0 <= i < j < |selected| ==> selected[i] < selected[j]
      invariant forall i :: 0 <= i < |selected| ==> selected[i] < port
      invariant forall p :: p in selected <==> 1 <= p < port && bits[p]
    {
      if bits[port] { selected := selected + [port]; }
    }
  }

  /** Cuts an increasing list of ports into maximal runs. */
  method Runs(selected: seq<int>) returns (runs: seq<Range>)
    requires forall i, j :: 0 <= i < j < |selected| ==> selected[i] < selected[j]
    ensures Canonical(runs) && forall p :: Covers(runs, p) <==> p in selected
  {
    runs := [];
    var start := 0;
    while start < |selected|
      invariant 0 <= start <= |selected|
      invariant Canonical(runs) && forall p :: Covers(runs, p) <==> p in selected[..start]
      invariant runs != [] && start < |selected| ==> runs[|runs| - 1].end + 1 < selected[start]
    {
      var end := start;
      while end + 1 < |selected| && selected[end + 1] == selected[end] + 1
        invariant start <= end < |selected|
        invariant forall k :: start <= k <= end ==> selected[k] == selected[start] + (k - start)
      {
        end := end + 1;
      }
      var run := Range(selected[start], selected[end]);
      ghost var before := runs;
      runs := runs + [run];
      LastIsGreatest(before);
      forall p ensures Covers(runs, p) <==> p in selected[..end + 1] {
        Grown(before, run, p);
        RunHolds(selected, start, end, p);
      }
      start := end + 1;
    }
    assert selected[..start] == selected;
  }

  lemma LastIsGreatest(rs: seq<Range>)
    requires Canonical(rs)
    ensures forall k :: 0 <= k < |rs| ==> rs[k].end <= rs[|rs| - 1].end
  {
  }

  lemma RunHolds(selected: seq<int>, start: nat, end: nat, p: int)
    requires start <= end < |selected|
    requires forall k :: start <= k <= end ==> selected[k] == selected[start] + (k - start)
    ensures p in selected[..end + 1] <==> p in selected[..start] || selected[start] <= p <= selected[end]
  {
    var upTo := selected[..end + 1];
    if selected[start] <= p <= selected[end] {
      assert upTo[start + (p - selected[start])] == p;
    }
    if p in selected[..start] {
      var k :| 0 <= k < start && selected[k] == p;
      assert upTo[k] == p;
    }
    if p in upTo {
      var k :| 0 <= k <= end && upTo[k] == p;
      assert k < start ==> selected[..start][k] == p;
    }
  }
}
