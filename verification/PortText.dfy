/** Port coverage as text: decimal numbers, terms, comma-separated lists. */
module PortText {
  import opened Base
  import opened Ports

  // ---------------------------------------------------------------- decimal numbers

  const DIGITS := "0123456789"

  predicate IsDigit(c: char) { '0' <= c <= '9' }

  function DigitValue(c: char): nat
    requires IsDigit(c)
  {
    c as nat - '0' as nat
  }

  predicate AllDigits(s: string) { forall i :: 0 <= i < |s| ==> IsDigit(s[i]) }

  function Decimal(n: nat): (s: string)
    ensures s != [] && AllDigits(s)
  {
    if n < 10 then [DIGITS[n]] else Decimal(n / 10) + [DIGITS[n % 10]]
  }

  function Value(s: string): nat
    requires AllDigits(s)
  {
    if s == [] then 0 else Value(s[..|s| - 1]) * 10 + DigitValue(s[|s| - 1])
  }

  lemma {:induction false} DecimalHasValue(n: nat)
    ensures Value(Decimal(n)) == n
  {
    if n >= 10 {
      DecimalHasValue(n / 10);
      assert Decimal(n)[..|Decimal(n)| - 1] == Decimal(n / 10);
    }
  }

  function Power(k: nat): nat { if k == 0 then 1 else 10 * Power(k - 1) }

  lemma {:induction false} DecimalIsShort(n: nat, k: nat)
    requires k >= 1 && n < Power(k)
    ensures |Decimal(n)| <= k
  {
    if n >= 10 { DecimalIsShort(n / 10, k - 1); }
  }

  // ---------------------------------------------------------------- terms

  function Render(r: Range): string
    requires r.Proper()
  {
    if r.start == r.end then Decimal(r.start) else Decimal(r.start) + "-" + Decimal(r.end)
  }

  predicate Number(s: string) { 1 <= |s| <= 5 && AllDigits(s) }

  /** Position of the first dash, or the length. */
  function Dash(s: string): (k: nat)
    ensures k <= |s| && (k < |s| ==> s[k] == '-') && forall i :: 0 <= i < k ==> s[i] != '-'
  {
    if s == [] || s[0] == '-' then 0 else 1 + Dash(s[1..])
  }

  /** One to five digits, optionally a dash and one to five more. */
  function ParseTerm(s: string): Option<Range> {
    var k := Dash(s);
    if !Number(s[..k]) then None
    else if k == |s| then Some(Range(Value(s), Value(s)))
    else if !Number(s[k + 1..]) then None
    else Some(Range(Value(s[..k]), Value(s[k + 1..])))
  }

  lemma DashIsUnique(s: string, k: nat)
    requires k <= |s| && (k < |s| ==> s[k] == '-') && forall i :: 0 <= i < k ==> s[i] != '-'
    ensures Dash(s) == k
  {
  }

  /** Reading back what was rendered. */
  lemma RenderedTermParses(r: Range)
    requires r.Proper()
    ensures ParseTerm(Render(r)) == Some(r)
  {
    var a, b := Decimal(r.start), Decimal(r.end);
    assert Power(5) == 100000;
    DecimalIsShort(r.start, 5);
    DecimalIsShort(r.end, 5);
    DecimalHasValue(r.start);
    DecimalHasValue(r.end);
    var s := Render(r);
    DashIsUnique(s, |a|);
    if r.start != r.end {
      assert s[..|a|] == a && s[|a| + 1..] == b;
    } else {
      assert s[..|a|] == a;
    }
  }

  // ---------------------------------------------------------------- lists

  function Join(parts: seq<string>): string {
    if parts == [] then "" else if |parts| == 1 then parts[0] else parts[0] + "," + Join(parts[1..])
  }

  function Split(s: string): (parts: seq<string>)
    ensures parts != []
  {
    if s == [] then [""]
    else
      var rest := Split(s[1..]);
      if s[0] == ',' then [""] + rest else [[s[0]] + rest[0]] + rest[1..]
  }

  lemma {:induction false} SplitFirst(part: string, rest: string)
    requires ',' !in part
    ensures Split(part) == [part] && Split(part + "," + rest) == [part] + Split(rest)
  {
    if part == [] {
      assert part + "," + rest == "," + rest;
      assert ("," + rest)[1..] == rest;
    } else {
      SplitFirst(part[1..], rest);
      assert (part + "," + rest)[1..] == part[1..] + "," + rest;
      assert part == [part[0]] + part[1..];
    }
  }

  lemma {:induction false} SplitOfJoin(parts: seq<string>)
    requires parts != [] && forall i :: 0 <= i < |parts| ==> ',' !in parts[i]
    ensures Split(Join(parts)) == parts
  {
    if |parts| == 1 {
      SplitFirst(parts[0], "");
    } else {
      SplitOfJoin(parts[1..]);
      SplitFirst(parts[0], Join(parts[1..]));
      assert parts == [parts[0]] + parts[1..];
    }
  }

  /** ASCII white space, the four separator characters included. */
  predicate IsSpace(c: char): (space: bool)
    ensures space <==> c as int in {9, 10, 11, 12, 13, 28, 29, 30, 31, 32}
  {
    c == ' ' || '\t' <= c <= '\r' || 0x1c <= c as int <= 0x1f
  }

  function StripLeft(s: string): string {
    if s != [] && IsSpace(s[0]) then StripLeft(s[1..]) else s
  }

  function StripRight(s: string): string {
    if s != [] && IsSpace(s[|s| - 1]) then StripRight(s[..|s| - 1]) else s
  }

  function Strip(s: string): string { StripRight(StripLeft(s)) }

  function RenderAll(rs: seq<Range>): (terms: seq<string>)
    requires AllProper(rs)
    ensures |terms| == |rs| && forall i :: 0 <= i < |rs| ==> terms[i] == Render(rs[i])
  {
    seq(|rs|, i requires 0 <= i < |rs| => Render(rs[i]))
  }

  lemma RenderedIsPlain(r: Range)
    requires r.Proper()
    ensures Render(r) != [] && ',' !in Render(r) && Strip(Render(r)) == Render(r)
  {
  }

  // ---------------------------------------------------------------- the scanner's parser

  const MAX_INPUT_TERMS := 4096

  /** The ranges that the given terms stand for; None if one of them is malformed or out of bounds. */
  function TermRanges(terms: seq<string>): (rs: Option<seq<Range>>)
    ensures rs.Some? ==> AllProper(rs.value) && |rs.value| == |terms|
  {
    if terms == [] then Some([])
    else
      var before := TermRanges(terms[..|terms| - 1]);
      var term := ParseTerm(Strip(terms[|terms| - 1]));
      if before.Some? && term.Some? && term.value.Proper() then Some(before.value + [term.value]) else None
  }

  lemma {:induction false} MalformedStays(terms: seq<string>, i: nat)
    requires i <= |terms| && TermRanges(terms[..i]).None?
    ensures TermRanges(terms).None?
    decreases |terms| - i
  {
    if i < |terms| {
      assert terms[..i + 1][..i] == terms[..i];
      MalformedStays(terms, i + 1);
    } else {
      assert terms[..i] == terms;
    }
  }

  method ParseCoverage(declarations: string) returns (result: Result<seq<Range>, ()>)
    ensures result.Ok? ==>
              && TermRanges(Split(declarations)).Some?
              && Canonical(result.value) && AllProper(result.value) && 1 <= |result.value| <= MAX_TERMS
              && SamePorts(result.value, TermRanges(Split(declarations)).value)
    ensures result.Err? <==> (|| TermRanges(Split(declarations)).None?
                              || |Split(declarations)| > MAX_INPUT_TERMS
                              || TooFragmented(TermRanges(Split(declarations)).value))
  {
    var raw := Split(declarations);
    if |raw| > MAX_INPUT_TERMS { return Err(()); }
    var parsed: seq<Range> := [];
    for i := 0 to |raw|
      invariant TermRanges(raw[..i]) == Some(parsed)
    {
      assert raw[..i + 1][..i] == raw[..i];
      var term := ParseTerm(Strip(raw[i]));
      if term.None? || !term.value.Proper() {
        MalformedStays(raw, i + 1);
        return Err(());
      }
      parsed := parsed + [term.value];
    }
    assert raw[..|raw|] == raw;
    var normalized := Normalize(parsed);
    CanonicalFormIsTooLong(normalized, parsed);
    if |normalized| > MAX_TERMS { return Err(()); }
    return Ok(normalized);
  }

  /** The canonical list of the ports has more terms than allowed. */
  ghost predicate TooFragmented(rs: seq<Range>) {
    exists canonical :: Canonical(canonical) && SamePorts(canonical, rs) && |canonical| > MAX_TERMS
  }

  lemma CanonicalFormIsTooLong(normalized: seq<Range>, rs: seq<Range>)
    requires Canonical(normalized) && SamePorts(normalized, rs)
    ensures TooFragmented(rs) <==> |normalized| > MAX_TERMS
  {
    if TooFragmented(rs) {
      var canonical :| Canonical(canonical) && SamePorts(canonical, rs) && |canonical| > MAX_TERMS;
      CanonicalIsUnique(canonical, normalized);
    }
  }

  // ---------------------------------------------------------------- the contract's validators

  method ValidatePortRanges(ranges: seq<Range>, allowEmpty: bool) returns (ok: bool)
    requires NonEmpty(ranges)
    ensures ok <==> (allowEmpty || ranges != []) && Canonical(ranges)
  {
    if !allowEmpty && ranges == [] { return false; }
    var previous: Option<Range> := None;
    for i := 0 to |ranges|
      invariant previous == if i == 0 then None else Some(ranges[i - 1])
      invariant Canonical(ranges[..i])
    {
      var current := ranges[i];
      if previous.Some? {
        var p := previous.value;
        if current.start < p.start || (current.start == p.start && current.end <= p.end) { return false; }
        if current.start <= p.end + 1 { return false; }
        assert ranges[..i][i - 1] == p;
      }
      LastIsGreatest(ranges[..i]);
      assert ranges[..i + 1] == ranges[..i] + [current];
      previous := Some(current);
    }
    assert ranges[..|ranges|] == ranges;
    ok := true;
  }

  ghost predicate RenderingOf(terms: seq<string>, rs: seq<Range>) {
    AllProper(rs) && Canonical(rs) && terms == RenderAll(rs)
  }

  /** Accepts exactly the renderings of canonical lists, and decodes them. */
  method ValidateCanonicalPorts(terms: seq<string>) returns (decoded: Option<seq<Range>>)
    ensures decoded.Some? ==> RenderingOf(terms, decoded.value)
    ensures decoded.None? ==> forall rs :: !RenderingOf(terms, rs)
  {
    var previousEnd := 0;
    var ranges: seq<Range> := [];
    for i := 0 to |terms|
      invariant |ranges| == i && RenderingOf(terms[..i], ranges)
      invariant previousEnd == if i == 0 then 0 else ranges[i - 1].end
    {
      var term := ParseTerm(terms[i]);
      if term.None? || !term.value.Proper() || terms[i] != Render(term.value)
         || term.value.start <= previousEnd + (if previousEnd != 0 then 1 else 0) {
        forall rs ensures !RenderingOf(terms, rs) {
          if RenderingOf(terms, rs) { OnlyContinuation(terms, ranges, i, rs); }
        }
        return None;
      }
      Continues(terms, ranges, i, term.value);
      ranges := ranges + [term.value];
      previousEnd := term.value.end;
    }
    assert terms[..|terms|] == terms;
    return Some(ranges);
  }

  lemma Continues(terms: seq<string>, ranges: seq<Range>, i: nat, r: Range)
    requires i == |ranges| < |terms| && RenderingOf(terms[..i], ranges)
    requires r.Proper() && terms[i] == Render(r) && (i > 0 ==> r.start > ranges[i - 1].end + 1)
    ensures RenderingOf(terms[..i + 1], ranges + [r])
  {
    LastIsGreatest(ranges);
    assert terms[..i + 1] == terms[..i] + [terms[i]];
    assert RenderAll(ranges + [r]) == RenderAll(ranges) + [Render(r)];
  }

  /** If the terms render a canonical list, the next term is its next range. */
  lemma OnlyContinuation(terms: seq<string>, ranges: seq<Range>, i: nat, rs: seq<Range>)
    requires i == |ranges| < |terms| && RenderingOf(terms[..i], ranges) && RenderingOf(terms, rs)
    ensures ParseTerm(terms[i]) == Some(rs[i]) && rs[i].Proper() && terms[i] == Render(rs[i])
    ensures i > 0 ==> rs[i].start > ranges[i - 1].end + 1
  {
    RenderedTermParses(rs[i]);
    if i > 0 {
      RenderedTermParses(rs[i - 1]);
      RenderedTermParses(ranges[i - 1]);
      assert terms[..i][i - 1] == terms[i - 1];
    }
  }

  // ---------------------------------------------------------------- from directive to scanner and back

  datatype Profile = FastFullTcp | TargetedTcp | Deep

  /** What the directive contract admits. */
  predicate ValidDirective(profile: Profile, ranges: seq<Range>) {
    && 1 <= |ranges| <= MAX_TERMS && AllProper(ranges) && Canonical(ranges)
    && (!profile.TargetedTcp? ==> ranges == [FULL])
  }

  /** The generator puts single ports and proper ranges into separate fields. */
  method PortSelection(ranges: seq<Range>) returns (ports: seq<int>, rest: seq<Range>)
    requires AllProper(ranges)
    ensures forall p :: Chosen(ports, rest, p) <==> Covers(ranges, p)
    ensures AllProper(rest) && forall i :: 0 <= i < |ports| ==> 1 <= ports[i] <= MAX_PORT
    ensures |ports| + |rest| <= |ranges|
    ensures forall p :: p in ports ==> Range(p, p) in ranges
    ensures forall r :: r in rest ==> r in ranges && r.start < r.end
  {
    ports, rest := [], [];
    for i := 0 to |ranges|
      invariant forall p :: Chosen(ports, rest, p) <==> Covers(ranges[..i], p)
      invariant AllProper(rest) && forall k :: 0 <= k < |ports| ==> 1 <= ports[k] <= MAX_PORT
      invariant |ports| + |rest| <= i
      invariant forall p :: p in ports ==> Range(p, p) in ranges
      invariant forall r :: r in rest ==> r in ranges && r.start < r.end
    {
      var r := ranges[i];
      assert ranges[..i + 1] == ranges[..i] + [r];
      ghost var ports0, rest0 := ports, rest;
      if r.start == r.end {
        if r.start !in ports { ports := ports + [r.start]; }
      } else {
        rest := rest + [r];
      }
      forall p ensures Chosen(ports, rest, p) <==> Covers(ranges[..i + 1], p) {
        Grown(ranges[..i], r, p);
        Grown(rest0, r, p);
        assert Chosen(ports0, rest0, p) <==> Covers(ranges[..i], p);
      }
    }
    assert ranges[..|ranges|] == ranges;
  }

  /** The list stands for the selection; a deep scan without a selection is one of everything. */
  ghost predicate StandsFor(runs: seq<Range>, profile: Profile, ports: seq<int>, ranges: seq<Range>) {
    && Canonical(runs)
    && forall p :: Covers(runs, p) <==>
                   Chosen(ports, ranges, p) || (profile.Deep? && NothingChosen(ports, ranges) && FULL.Has(p))
  }

  lemma OnlyOneStands(runs: seq<Range>, profile: Profile, ports: seq<int>, ranges: seq<Range>)
    requires StandsFor(runs, profile, ports, ranges)
    ensures forall other :: StandsFor(other, profile, ports, ranges) ==> other == runs
  {
    forall other | StandsFor(other, profile, ports, ranges) ensures other == runs { CanonicalIsUnique(other, runs); }
  }

  /** The text lists the canonical ranges of the selection; fast full scans list everything. */
  ghost predicate Lists(text: string, profile: Profile, ports: seq<int>, ranges: seq<Range>) {
    exists runs :: runs != [] && |runs| <= MAX_TERMS && AllProper(runs) && text == Join(RenderAll(runs))
                   && if profile.FastFullTcp? then runs == [FULL] else StandsFor(runs, profile, ports, ranges)
  }

  ghost predicate Unlistable(profile: Profile, ports: seq<int>, ranges: seq<Range>) {
    && !profile.FastFullTcp?
    && (|| !AllProper(ranges) || (exists i :: 0 <= i < |ports| && !(1 <= ports[i] <= MAX_PORT))
        || (profile.TargetedTcp? && NothingChosen(ports, ranges))
        || exists runs :: StandsFor(runs, profile, ports, ranges) && |runs| > MAX_TERMS)
  }

  /** The operator paints the selection into a bitmap and renders its runs. */
  method ExplicitPortCoverage(profile: Profile, ports: seq<int>, ranges: seq<Range>)
    returns (result: Result<string, ()>)
    ensures result.Ok? ==> Lists(result.value, profile, ports, ranges)
    ensures result.Err? <==> Unlistable(profile, ports, ranges)
  {
    FullIsFull();
    if profile.FastFullTcp? { return Ok("1-65535"); }
    var bits := new bool[MAX_PORT + 1](i => false);
    var ok := Paint(bits, ports, ranges);
    if !ok { return Err(()); }
    var selected := Selected(bits);
    forall p ensures p in selected <==> Chosen(ports, ranges, p) { ChosenIsProper(ports, ranges, p); }
    if selected == [] {
      assert NothingChosen(ports, ranges);
      if profile.Deep? {
        assert StandsFor([FULL], profile, ports, ranges);
        OnlyOneStands([FULL], profile, ports, ranges);
        return Ok("1-65535");
      }
      return Err(());
    }
    var runs := Runs(selected);
    assert Chosen(ports, ranges, selected[0]) && Covers(runs, selected[0]);
    assert StandsFor(runs, profile, ports, ranges);
    OnlyOneStands(runs, profile, ports, ranges);
    forall i | 0 <= i < |runs| ensures runs[i].Proper() {
      assert runs[i].Has(runs[i].start) && runs[i].Has(runs[i].end);
      assert Covers(runs, runs[i].start) && Covers(runs, runs[i].end);
    }
    if |runs| > MAX_TERMS { return Err(()); }
    return Ok(Join(RenderAll(runs)));
  }

  ghost predicate NothingChosen(ports: seq<int>, ranges: seq<Range>) { forall p :: !Chosen(ports, ranges, p) }

  lemma ChosenIsProper(ports: seq<int>, ranges: seq<Range>, p: int)
    requires AllProper(ranges) && forall i :: 0 <= i < |ports| ==> 1 <= ports[i] <= MAX_PORT
    ensures Chosen(ports, ranges, p) ==> 1 <= p <= MAX_PORT
  {
  }

  lemma FullIsFull()
    ensures Canonical([FULL]) && AllProper([FULL]) && "1-65535" == Join(RenderAll([FULL]))
    ensures forall p :: Covers([FULL], p) <==> FULL.Has(p)
  {
    assert Decimal(65535) == "65535" by {
      assert Decimal(6553) == "6553" by {
        assert Decimal(655) == "655" by { assert Decimal(65) == "65"; }
      }
    }
    forall p ensures Covers([FULL], p) <==> FULL.Has(p) {
      assert [FULL][0] == FULL;
    }
  }

  lemma TermAppended(terms: seq<string>, rs: seq<Range>, term: string, r: Range)
    requires TermRanges(terms) == Some(rs) && ParseTerm(Strip(term)) == Some(r) && r.Proper()
    ensures TermRanges(terms + [term]) == Some(rs + [r])
  {
  }

  lemma StrippedTermParses(r: Range)
    requires r.Proper()
    ensures ParseTerm(Strip(Render(r))) == Some(r)
  {
    RenderedTermParses(r);
    RenderedIsPlain(r);
  }

  predicate ReadsAs(term: string, r: Range) { r.Proper() && ParseTerm(Strip(term)) == Some(r) }

  lemma {:induction false} TermsParse(terms: seq<string>, rs: seq<Range>)
    requires |terms| == |rs|
    requires forall i {:trigger ReadsAs(terms[i], rs[i])} :: 0 <= i < |rs| ==> ReadsAs(terms[i], rs[i])
    ensures TermRanges(terms) == Some(rs)
  {
    if rs != [] {
      var n := |rs| - 1;
      forall i | 0 <= i < n ensures ReadsAs(terms[..n][i], rs[..n][i]) { assert ReadsAs(terms[i], rs[i]); }
      TermsParse(terms[..n], rs[..n]);
      assert ReadsAs(terms[n], rs[n]);
      TermAppended(terms[..n], rs[..n], terms[n], rs[n]);
      assert terms == terms[..n] + [terms[n]] && rs == rs[..n] + [rs[n]];
    }
  }

  lemma RenderedTermsParse(rs: seq<Range>)
    requires AllProper(rs)
    ensures TermRanges(RenderAll(rs)) == Some(rs)
  {
    forall i | 0 <= i < |rs| ensures ReadsAs(RenderAll(rs)[i], rs[i]) { StrippedTermParses(rs[i]); }
    TermsParse(RenderAll(rs), rs);
  }

  lemma RenderedListSplits(rs: seq<Range>)
    requires AllProper(rs) && rs != []
    ensures Split(Join(RenderAll(rs))) == RenderAll(rs)
  {
    forall i | 0 <= i < |rs| ensures ',' !in RenderAll(rs)[i] { RenderedIsPlain(rs[i]); }
    SplitOfJoin(RenderAll(rs));
  }

  /** For every valid directive the ranges come back unchanged: through the generator's split, the
      operator's bitmap and text, the scanner's parser, and the result contract's validator. */
  method RoundTrip(profile: Profile, ranges: seq<Range>)
    returns (scanned: seq<Range>, terms: seq<string>, decoded: seq<Range>)
    requires ValidDirective(profile, ranges)
    ensures scanned == ranges && decoded == ranges && terms == RenderAll(ranges)
  {
    var ports, rest := PortSelection(ranges);
    var rendered := ExplicitPortCoverage(profile, ports, rest);
    ArrivesIntact(profile, ranges, ports, rest, rendered);
    var parsed := ParseCoverage(rendered.value);
    RenderedListSplits(ranges);
    RenderedTermsParse(ranges);
    CanonicalFormIsTooLong(ranges, ranges);
    CanonicalIsUnique(parsed.value, ranges);
    scanned := parsed.value;
    terms := RenderAll(scanned);
    var accepted := ValidateCanonicalPorts(terms);
    assert RenderingOf(terms, ranges);
    decoded := accepted.value;
    RenderedTermsParse(decoded);
  }

  lemma ArrivesIntact(profile: Profile, ranges: seq<Range>, ports: seq<int>, rest: seq<Range>,
                      rendered: Result<string, ()>)
    requires ValidDirective(profile, ranges)
    requires forall p :: Chosen(ports, rest, p) <==> Covers(ranges, p)
    requires AllProper(rest) && forall i :: 0 <= i < |ports| ==> 1 <= ports[i] <= MAX_PORT
    requires rendered.Ok? ==> Lists(rendered.value, profile, ports, rest)
    requires rendered.Err? ==> Unlistable(profile, ports, rest)
    ensures rendered == Ok(Join(RenderAll(ranges)))
  {
    var p := ranges[0].start;
    assert ranges[0].Has(p) && Covers(ranges, p) && Chosen(ports, rest, p);
    forall runs | StandsFor(runs, profile, ports, rest) ensures runs == ranges { CanonicalIsUnique(runs, ranges); }
  }

  // ---------------------------------------------------------------- candidate ports of a policy change

  datatype Protocol = AnyProtocol | Tcp | OtherProtocol

  /** One permission of a security-group change; bounds that are not integers are None. */
  datatype Permission = Permission(protocol: Protocol, from: Option<int>, to: Option<int>) {
    predicate Bounded() { from.Some? && to.Some? && Range(from.value, to.value).Proper() }

    /** The permission lets TCP traffic to the port through. */
    predicate Opens(p: int) {
      1 <= p <= MAX_PORT
      && (protocol.AnyProtocol? || (protocol.Tcp? && (!Bounded() || from.value <= p <= to.value)))
    }
  }

  /** The permission does not concern TCP, or names the ports it opens. */
  predicate Clear(permission: Permission) {
    permission.protocol.OtherProtocol? || (permission.protocol.Tcp? && permission.Bounded())
  }

  predicate AllClear(permissions: seq<Permission>) {
    forall i :: 0 <= i < |permissions| ==> Clear(permissions[i])
  }

  predicate SomeTcp(permissions: seq<Permission>) {
    exists i :: 0 <= i < |permissions| && permissions[i].protocol.Tcp?
  }

  predicate Opened(permissions: seq<Permission>, p: int) {
    exists i :: 0 <= i < |permissions| && permissions[i].Opens(p)
  }

  /** The canonical list of exactly the ports that the permissions open. */
  ghost predicate Spans(runs: seq<Range>, permissions: seq<Permission>) {
    && Canonical(runs) && AllProper(runs)
    && forall p {:trigger Covers(runs, p)} :: Covers(runs, p) <==> Opened(permissions, p)
  }

  ghost predicate TooMuch(permissions: seq<Permission>, maxRanges: nat, maxPorts: nat) {
    exists runs :: Spans(runs, permissions) && (|runs| > maxRanges || |PortSet(runs)| > maxPorts)
  }

  lemma SpansIsUnique(a: seq<Range>, b: seq<Range>, permissions: seq<Permission>)
    requires Spans(a, permissions) && Spans(b, permissions)
    ensures a == b
  {
    CanonicalIsUnique(a, b);
  }

  /** The canonical list of just the ports that the permissions open, or everything: exactly where one of
      them does not say which ports it opens, none of them opens any, or the list exceeds a limit. */
  method CandidateTcpPorts(permissions: Option<seq<Permission>>, maxRanges: nat, maxPorts: nat)
    returns (full: bool, ranges: seq<Range>)
    ensures full ==> ranges == [FULL]
    ensures !full ==>
              && permissions.Some? && Spans(ranges, permissions.value)
              && |ranges| <= maxRanges && |PortSet(ranges)| <= maxPorts
    ensures full <==>
              || permissions.None? || !AllClear(permissions.value) || !SomeTcp(permissions.value)
              || TooMuch(permissions.value, maxRanges, maxPorts)
    ensures permissions.Some? ==> forall p :: Opened(permissions.value, p) ==> Covers(ranges, p)
  {
    full, ranges := true, [FULL];
    FullIsFull();
    if permissions.None? || permissions.value == [] { return; }
    var found := TcpRanges(permissions.value);
    if found.None? || found.value == [] { return; }
    var merged := Normalize(found.value);
    CountIsCardinality(merged);
    assert Spans(merged, permissions.value);
    forall runs | Spans(runs, permissions.value) ensures runs == merged {
      SpansIsUnique(runs, merged, permissions.value);
    }
    if |merged| > maxRanges || Count(merged) > maxPorts { return; }
    full, ranges := false, merged;
  }

  /** The ranges as declared; None if a permission does not say which ports it opens. */
  method TcpRanges(permissions: seq<Permission>) returns (found: Option<seq<Range>>)
    ensures found.Some? <==> AllClear(permissions)
    ensures found.Some? ==> AllProper(found.value) && (found.value != [] <==> SomeTcp(permissions))
    ensures found.Some? ==> forall p {:trigger Opened(permissions, p)} {:trigger Covers(found.value, p)} ::
              Covers(found.value, p) <==> Opened(permissions, p)
  {
    var ranges: seq<Range> := [];
    for i := 0 to |permissions|
      invariant AllProper(ranges) && AllClear(permissions[..i]) && (ranges != [] <==> SomeTcp(permissions[..i]))
      invariant forall p {:trigger Opened(permissions[..i], p)} {:trigger Covers(ranges, p)} ::
                  Covers(ranges, p) <==> Opened(permissions[..i], p)
    {
      var permission := permissions[i];
      ghost var before := ranges;
      assert permissions[..i + 1] == permissions[..i] + [permission];
      if !Clear(permission) { return None; }
      if permission.protocol.Tcp? {
        var r := Range(permission.from.value, permission.to.value);
        ranges := ranges + [r];
        forall p ensures Covers(ranges, p) <==> Covers(before, p) || permission.Opens(p) { Grown(before, r, p); }
      }
      forall p ensures Covers(ranges, p) <==> Opened(permissions[..i + 1], p) { OneMoreOpens(permissions, i, p); }
    }
    assert permissions[..|permissions|] == permissions;
    return Some(ranges);
  }

  lemma OneMoreOpens(permissions: seq<Permission>, i: nat, p: int)
    requires i < |permissions|
    ensures Opened(permissions[..i + 1], p) <==> Opened(permissions[..i], p) || permissions[i].Opens(p)
  {
    if Opened(permissions[..i], p) {
      var k :| 0 <= k < i && permissions[..i][k].Opens(p);
      assert permissions[..i + 1][k] == permissions[..i][k];
    }
    assert permissions[..i + 1][i] == permissions[i];
  }
}
