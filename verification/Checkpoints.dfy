/** Compaction checkpoints: three lists of journal spans that must cover one input span exactly. */
module Checkpoints {
  import opened Bytes
  import opened Wrappers

  /** An inclusive range of sequence numbers, bound to canonical bytes by a digest. */
  datatype JournalSpan = JournalSpan(first: u64, last: u64, digest: seq<byte>)

  datatype EvidenceScopeKind = Session | Project | Person | Shared

  datatype SourceRef = SourceRef(
    owner: seq<byte>, resource: seq<byte>, revision: seq<byte>, digest: seq<byte>,
    rangeStart: u64, rangeEnd: u64, kind: EvidenceScopeKind, scope: seq<byte>)

  datatype Checkpoint = Checkpoint(
    id: seq<byte>, session: seq<byte>, revision: u64, parent: Option<seq<byte>>, input: JournalSpan,
    summarized: seq<JournalSpan>, retained: seq<JournalSpan>, excluded: seq<JournalSpan>,
    summary: seq<byte>, policy: seq<byte>, policyVersion: u64, model: Option<seq<byte>>,
    hydration: seq<SourceRef>)

  datatype CompactionProblem =
    | InvalidIdentity | InvalidLineage | InvalidRange | InvalidDigest | MissingCitation
    | IncompleteCoverage | OverlappingRanges | OutsideInput | ScopeDenied

  // ----- texts

  /** The bytes of a leading white-space character, zero when there is none. */
  function WhiteSpace(s: seq<byte>): (n: nat)
    ensures n <= |s|
  {
    if s == [] then 0
    else if 9 <= s[0] <= 13 || s[0] == 32 then 1
    else if |s| >= 2 && s[0] == 0xC2 && s[1] in {0x85, 0xA0} then 2
    else if |s| >= 3 && s[0] == 0xE1 && s[1] == 0x9A && s[2] == 0x80 then 3
    else if |s| >= 3 && s[0] == 0xE2 && s[1] == 0x80 && (0x80 <= s[2] <= 0x8A || s[2] in {0xA8, 0xA9, 0xAF}) then 3
    else if |s| >= 3 && s[0] == 0xE2 && s[1] == 0x81 && s[2] == 0x9F then 3
    else if |s| >= 3 && s[0] == 0xE3 && s[1] == 0x80 && s[2] == 0x80 then 3
    else 0
  }

  /** `trim().is_empty()`. */
  predicate Blank(s: seq<byte>) { s == [] || (WhiteSpace(s) > 0 && Blank(s[WhiteSpace(s)..])) }

  /** Some character of the text is a control character. */
  predicate HasControl(s: seq<byte>) {
    exists i | 0 <= i < |s| ::
      s[i] < 0x20 || s[i] == 0x7F || (s[i] == 0xC2 && i + 1 < |s| && 0x80 <= s[i + 1] <= 0x9F)
  }

  predicate ValidIdentity(s: seq<byte>) { !Blank(s) && |s| <= 512 && !HasControl(s) }

  predicate ValidDigest(s: seq<byte>) {
    |s| == 64 && forall i | 0 <= i < 64 :: '0' as int <= s[i] <= '9' as int || 'a' as int <= s[i] <= 'f' as int
  }

  // ----- what a checkpoint must be

  function Spans(c: Checkpoint): seq<JournalSpan> { c.summarized + c.retained + c.excluded }

  predicate SpanOk(s: JournalSpan) { 0 < s.first <= s.last && ValidDigest(s.digest) }

  predicate Named(c: Checkpoint) {
    && ValidIdentity(c.id) && ValidIdentity(c.session) && ValidIdentity(c.policy)
    && (c.model.Some? ==> ValidIdentity(c.model.value))
  }

  predicate Descends(c: Checkpoint) {
    && c.revision != 0 && c.policyVersion != 0
    && (c.parent.Some? ==> ValidIdentity(c.parent.value) && c.parent.value != c.id)
  }

  /** A summary is a text exactly when some span is summarized. */
  predicate Cited(c: Checkpoint) { |c.summary| <= 65_536 && (Blank(c.summary) <==> c.summarized == []) }

  predicate Bounded(c: Checkpoint) { 0 < |Spans(c)| <= 1024 && |c.hydration| <= 256 }

  predicate Inside(s: JournalSpan, input: JournalSpan) { input.first <= s.first && s.last <= input.last }

  predicate SourceOk(s: SourceRef) {
    && ValidIdentity(s.owner) && ValidIdentity(s.resource) && ValidIdentity(s.revision) && ValidIdentity(s.scope)
    && ValidDigest(s.digest) && s.rangeStart <= s.rangeEnd
  }

  predicate Hydrates(c: Checkpoint, s: SourceRef) {
    s.kind == EvidenceScopeKind.Session && s.scope == c.session && SourceOk(s)
  }

  datatype Range = Range(first: u64, last: u64) {
    predicate Covers(n: int) { first <= n <= last }
  }

  function Ranges(spans: seq<JournalSpan>): (r: seq<Range>)
    ensures |r| == |spans|
  {
    seq(|spans|, i requires 0 <= i < |spans| => Range(spans[i].first, spans[i].last))
  }

  /** How many of the ranges hold a sequence number. */
  function Count(ranges: seq<Range>, n: int): nat {
    if ranges == [] then 0 else (if ranges[0].Covers(n) then 1 else 0) + Count(ranges[1..], n)
  }

  /** Every input sequence number lies in exactly one summarized, retained or excluded span, and the
      spans hold nothing else. */
  ghost predicate ExactCover(c: Checkpoint) {
    && (forall s | s in Spans(c) :: Inside(s, c.input))
    && (forall n | c.input.first <= n <= c.input.last :: Count(Ranges(Spans(c)), n) == 1)
  }

  /** The promise of `validate_checkpoint`. */
  ghost predicate Sealed(c: Checkpoint) {
    && Named(c) && Descends(c) && Cited(c) && Bounded(c)
    && SpanOk(c.input) && (forall s | s in Spans(c) :: SpanOk(s))
    && ExactCover(c)
    && (forall s | s in c.hydration :: Hydrates(c, s))
  }

  // ----- counting

  lemma {:induction false} CountAppend(a: seq<Range>, b: seq<Range>, n: int)
    ensures Count(a + b, n) == Count(a, n) + Count(b, n)
  {
    if a == [] {
      assert a + b == b;
    } else {
      assert (a + b)[1..] == a[1..] + b;
      CountAppend(a[1..], b, n);
    }
  }

  lemma {:induction false} CountNone(a: seq<Range>, n: int)
    requires forall x | x in a :: !x.Covers(n)
    ensures Count(a, n) == 0
  {
    if a != [] { CountNone(a[1..], n); }
  }

  lemma {:induction false} CountSome(a: seq<Range>, n: int)
    requires Count(a, n) > 0
    ensures exists x | x in a :: x.Covers(n)
  {
    if !a[0].Covers(n) {
      CountSome(a[1..], n);
      var x :| x in a[1..] && x.Covers(n);
      assert x in a;
    }
  }

  // ----- the sorted coverage

  predicate AtMost(x: Range, y: Range) { x.first < y.first || (x.first == y.first && x.last <= y.last) }

  function Insert(x: Range, s: seq<Range>): seq<Range> {
    if s == [] || AtMost(x, s[0]) then [x] + s else [s[0]] + Insert(x, s[1..])
  }

  /** What any sort of the coverage yields. */
  function Sort(s: seq<Range>): seq<Range> { if s == [] then [] else Insert(s[0], Sort(s[1..])) }

  predicate Ascending(s: seq<Range>) { forall i, j | 0 <= i < j < |s| :: AtMost(s[i], s[j]) }

  lemma {:induction false} InsertSorts(x: Range, s: seq<Range>)
    requires Ascending(s)
    ensures Ascending(Insert(x, s)) && multiset(Insert(x, s)) == multiset(s) + multiset{x}
  {
    if s == [] || AtMost(x, s[0]) {
      assert multiset([x] + s) == multiset([x]) + multiset(s);
    } else {
      InsertSorts(x, s[1..]);
      var rest := Insert(x, s[1..]);
      assert s == [s[0]] + s[1..];
      assert multiset(s) == multiset([s[0]]) + multiset(s[1..]);
      forall j | 0 <= j < |rest| ensures AtMost(s[0], rest[j]) {
        assert rest[j] in multiset(rest);
        assert rest[j] == x || rest[j] in s[1..];
      }
    }
  }

  lemma {:induction false} InsertCounts(x: Range, s: seq<Range>, n: int)
    ensures Count(Insert(x, s), n) == (if x.Covers(n) then 1 else 0) + Count(s, n)
  {
    if s != [] && !AtMost(x, s[0]) {
      InsertCounts(x, s[1..], n);
      assert Insert(x, s)[1..] == Insert(x, s[1..]);
    } else {
      assert Insert(x, s)[1..] == s;
    }
  }

  /** Sorting keeps every range and so every count. */
  lemma {:induction false} Sorting(s: seq<Range>)
    ensures Ascending(Sort(s)) && multiset(Sort(s)) == multiset(s) && |Sort(s)| == |s|
    ensures forall n: int :: Count(Sort(s), n) == Count(s, n)
  {
    if s != [] {
      Sorting(s[1..]);
      InsertSorts(s[0], Sort(s[1..]));
      assert s == [s[0]] + s[1..];
      assert |multiset(Sort(s))| == |multiset(s)|;
      forall n: int ensures Count(Sort(s), n) == Count(s, n) { InsertCounts(s[0], Sort(s[1..]), n); }
    }
  }

  // ----- validation

  function ValidateSpan(s: JournalSpan): (r: Result<(), CompactionProblem>)
    ensures r.Ok? <==> SpanOk(s)
  {
    if s.first == 0 || s.first > s.last then Err(InvalidRange)
    else if !ValidDigest(s.digest) then Err(InvalidDigest)
    else Ok(())
  }

  function ValidateReference(s: SourceRef): (r: Result<(), CompactionProblem>)
    ensures r.Ok? <==> SourceOk(s)
  {
    if !ValidIdentity(s.owner) || !ValidIdentity(s.resource) || !ValidIdentity(s.revision) || !ValidIdentity(s.scope)
    then Err(InvalidIdentity)
    else if !ValidDigest(s.digest) then Err(InvalidDigest)
    else if s.rangeStart > s.rangeEnd then Err(InvalidRange)
    else Ok(())
  }

  ghost predicate Partition(ranges: seq<Range>, first: int, last: int) {
    forall n: int :: Count(ranges, n) == if first <= n <= last then 1 else 0
  }

  /** The sweep over the sorted ranges: it succeeds exactly when they partition the input, and an error
      names a number that is covered twice or not at all. */
  method Sweep(input: JournalSpan, coverage: seq<Range>) returns (r: Result<(), CompactionProblem>)
    requires Ascending(coverage) && input.first <= input.last
    requires forall x | x in coverage :: input.first <= x.first <= x.last <= input.last
    ensures r.Ok? <==> Partition(coverage, input.first, input.last)
    ensures r.Err? ==> r.error in {OverlappingRanges, IncompleteCoverage}
    ensures r == Err(OverlappingRanges) ==> exists n | input.first <= n <= input.last :: Count(coverage, n) > 1
    ensures r == Err(IncompleteCoverage) ==> exists n | input.first <= n <= input.last :: Count(coverage, n) == 0
  {
    hide Count;
    var next: nat := input.first;
    var k := 0;
    var none := coverage[..0];
    forall n: int ensures Count(none, n) == 0 { CountNone(none, n); }
    while k < |coverage|
      invariant 0 <= k <= |coverage| && input.first <= next <= input.last + 1
      invariant Partition(coverage[..k], input.first, next - 1)
    {
      var range := coverage[k];
      assert range in coverage && coverage == coverage[..k] + coverage[k..];
      if range.first < next {
        CountAppend(coverage[..k], coverage[k..], range.first);
        CountFirst(coverage[k..], range.first);
        assert Count(coverage, range.first) > 1;
        return Err(OverlappingRanges);
      }
      if range.first > next {
        CountAppend(coverage[..k], coverage[k..], next);
        CountNone(coverage[k..], next);
        assert Count(coverage, next) == 0;
        return Err(IncompleteCoverage);
      }
      var seen := coverage[..k + 1];
      assert seen == coverage[..k] + [range];
      forall n: int ensures Count(seen, n) == if input.first <= n <= range.last then 1 else 0 {
        CountAppend(coverage[..k], [range], n);
        CountOne(range, n);
      }
      next := range.last + 1;
      k := k + 1;
    }
    assert coverage[..k] == coverage;
    if next != input.last + 1 {
      assert Count(coverage, next) == 0;
      return Err(IncompleteCoverage);
    }
    return Ok(());
  }

  lemma {:induction false} CountOne(x: Range, n: int)
    ensures Count([x], n) == if x.Covers(n) then 1 else 0
  {
  }

  lemma {:induction false} CountFirst(a: seq<Range>, n: int)
    requires a != [] && a[0].Covers(n)
    ensures Count(a, n) > 0
  {
  }

  /** The first loop of `validate_checkpoint` gathers the spans, each of them checked. */
  method Gather(c: Checkpoint) returns (r: Result<seq<Range>, CompactionProblem>)
    ensures r.Ok? <==> forall s | s in Spans(c) :: SpanOk(s) && Inside(s, c.input)
    ensures r.Ok? ==> r.value == Ranges(Spans(c))
    ensures r.Err? ==> r.error in {InvalidRange, InvalidDigest, OutsideInput}
    ensures r == Err(OutsideInput) ==> exists s | s in Spans(c) :: !Inside(s, c.input)
  {
    hide ValidDigest;
    var spans := c.summarized + c.retained + c.excluded;
    var coverage: seq<Range> := [];
    for k := 0 to |spans|
      invariant forall s | s in spans[..k] :: SpanOk(s) && Inside(s, c.input)
      invariant coverage == Ranges(spans)[..k]
    {
      var span := spans[k];
      assert span in Spans(c);
      var checked := ValidateSpan(span);
      if checked.Err? { return Err(checked.error); }
      if span.first < c.input.first || span.last > c.input.last { return Err(OutsideInput); }
      coverage := coverage + [Range(span.first, span.last)];
    }
    return Ok(coverage);
  }

  /** The last loop of `validate_checkpoint`. */
  method CheckSources(c: Checkpoint) returns (r: Result<(), CompactionProblem>)
    ensures r.Ok? <==> forall s | s in c.hydration :: Hydrates(c, s)
    ensures r.Err? ==> r.error in {ScopeDenied, InvalidRange, InvalidDigest, InvalidIdentity}
  {
    hide ValidDigest, ValidIdentity;
    for k := 0 to |c.hydration|
      invariant forall s | s in c.hydration[..k] :: Hydrates(c, s)
    {
      var source := c.hydration[k];
      assert source in c.hydration;
      if source.kind != EvidenceScopeKind.Session || source.scope != c.session { return Err(ScopeDenied); }
      var checked := ValidateReference(source);
      if checked.Err? { return checked; }
    }
    return Ok(());
  }

  /** `validate_checkpoint`: it accepts exactly the sealed checkpoints. */
  method ValidateCheckpoint(c: Checkpoint) returns (r: Result<(), CompactionProblem>)
    ensures r.Ok? <==> Sealed(c)
    ensures r == Err(OverlappingRanges) ==>
      exists n | c.input.first <= n <= c.input.last :: Count(Ranges(Spans(c)), n) > 1
    ensures r == Err(IncompleteCoverage) ==>
      exists n | c.input.first <= n <= c.input.last :: Count(Ranges(Spans(c)), n) == 0
    ensures r == Err(OutsideInput) ==> exists s | s in Spans(c) :: !Inside(s, c.input)
  {
    hide ValidIdentity, ValidDigest, Blank, Count, Sort, Ascending, Hydrates, Ranges, Partition;
    if !ValidIdentity(c.id) || !ValidIdentity(c.session) || !ValidIdentity(c.policy)
       || (c.model.Some? && !ValidIdentity(c.model.value))
    {
      return Err(InvalidIdentity);
    }
    if c.revision == 0 || c.policyVersion == 0
       || (c.parent.Some? && (!ValidIdentity(c.parent.value) || c.parent.value == c.id))
    {
      return Err(InvalidLineage);
    }
    if |c.summary| > 65_536 { return Err(InvalidRange); }
    if Blank(c.summary) != (c.summarized == []) { return Err(MissingCitation); }
    var input := ValidateSpan(c.input);
    if input.Err? { return input; }
    if Spans(c) == [] || |Spans(c)| > 1024 || |c.hydration| > 256 { return Err(InvalidRange); }
    var gathered := Gather(c);
    if gathered.Err? { return Err(gathered.error); }
    var coverage := Sort(gathered.value);
    SortedInside(c);
    var swept := Sweep(c.input, coverage);
    OutsideNothing(c);
    SortingKeeps(c);
    if swept.Err? { return swept; }
    r := CheckSources(c);
  }

  lemma SortedInside(c: Checkpoint)
    requires forall s | s in Spans(c) :: SpanOk(s) && Inside(s, c.input)
    ensures Ascending(Sort(Ranges(Spans(c))))
    ensures forall x | x in Sort(Ranges(Spans(c))) :: c.input.first <= x.first <= x.last <= c.input.last
  {
    hide Sort, Ascending, ValidDigest;
    var ranges := Ranges(Spans(c));
    Sorting(ranges);
    forall x | x in Sort(ranges) ensures c.input.first <= x.first <= x.last <= c.input.last {
      assert x in multiset(Sort(ranges)) && x in ranges;
      var i :| 0 <= i < |ranges| && x == ranges[i];
      assert Spans(c)[i] in Spans(c);
    }
  }

  lemma SortingKeeps(c: Checkpoint)
    ensures var ranges := Ranges(Spans(c));
      && (Partition(Sort(ranges), c.input.first, c.input.last) <==> Partition(ranges, c.input.first, c.input.last))
      && forall n: int :: Count(Sort(ranges), n) == Count(ranges, n)
  {
    hide Sort, Count, Ranges;
    Sorting(Ranges(Spans(c)));
  }

  /** Spans inside the input hold nothing outside it. */
  lemma OutsideNothing(c: Checkpoint)
    requires forall s | s in Spans(c) :: Inside(s, c.input)
    ensures Partition(Ranges(Spans(c)), c.input.first, c.input.last) <==> ExactCover(c)
  {
    forall n: int | !(c.input.first <= n <= c.input.last) ensures Count(Ranges(Spans(c)), n) == 0 {
      forall x | x in Ranges(Spans(c)) ensures !x.Covers(n) {
        var i :| 0 <= i < |Spans(c)| && x == Ranges(Spans(c))[i];
        assert Spans(c)[i] in Spans(c);
      }
      CountNone(Ranges(Spans(c)), n);
    }
  }

  // ----- what each number is

  datatype Visibility = Summarized | Retained | Excluded

  predicate Holds(spans: seq<JournalSpan>, n: int) { exists s | s in spans :: s.first <= n <= s.last }

  /** `visibility`: retained spans win, then summarized ones, and the rest counts as excluded. */
  function Visible(c: Checkpoint, n: u64): Visibility {
    if Holds(c.retained, n) then Retained else if Holds(c.summarized, n) then Summarized else Excluded
  }

  lemma {:induction false} HoldsCounts(spans: seq<JournalSpan>, n: int)
    ensures Holds(spans, n) <==> Count(Ranges(spans), n) > 0
  {
    hide Count;
    var ranges := Ranges(spans);
    if Count(ranges, n) > 0 {
      CountSome(ranges, n);
      var x :| x in ranges && x.Covers(n);
      var i :| 0 <= i < |ranges| && ranges[i] == x;
      assert spans[i] in spans;
    } else {
      forall s | s in spans ensures !(s.first <= n <= s.last) {
        var i :| 0 <= i < |spans| && spans[i] == s;
        if s.first <= n <= s.last { CountNth(ranges, i, n); }
      }
    }
  }

  lemma {:induction false} CountNth(a: seq<Range>, i: nat, n: int)
    requires i < |a| && a[i].Covers(n)
    ensures Count(a, n) > 0
  {
    if i > 0 { CountNth(a[1..], i - 1, n); }
  }

  /** In a sealed checkpoint the order of the tests in `visibility` is immaterial: every input number is
      held by spans of one kind only, and what is neither retained nor summarized is excluded by name. */
  lemma {:induction false} OneVisibility(c: Checkpoint, n: u64)
    requires Sealed(c) && c.input.first <= n <= c.input.last
    ensures Visible(c, n) == Retained <==> Holds(c.retained, n)
    ensures Visible(c, n) == Summarized <==> Holds(c.summarized, n)
    ensures Visible(c, n) == Excluded <==> Holds(c.excluded, n)
  {
    hide Count, Holds, ValidIdentity, ValidDigest, Blank;
    var a, b, x := Ranges(c.summarized), Ranges(c.retained), Ranges(c.excluded);
    assert Ranges(Spans(c)) == a + b + x;
    CountAppend(a + b, x, n);
    CountAppend(a, b, n);
    HoldsCounts(c.summarized, n);
    HoldsCounts(c.retained, n);
    HoldsCounts(c.excluded, n);
    assert Count(Ranges(Spans(c)), n) == 1;
  }
}
