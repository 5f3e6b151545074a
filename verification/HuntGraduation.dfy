/**
  H2 sections and graduation: what makes a section complete, the record built from it, and
  the counting over records that decides whether the hunt graduates.
 */
module HuntGraduation {
  import opened Common
  import opened Strings
  import HuntDerive

  datatype Disposition = Answered | NotLoadBearing | Flag | Unknown

  /**
    A row of a section. `fieldsFilled` says that the text fields its disposition requires are
    non-empty strings, `anchored` that its evidence resolves to an artifact of the repository.
   */
  datatype Row = Row(candidateId: Option<string>, disposition: Disposition, fieldsFilled: bool, anchored: bool)

  datatype Coverage = Coverage(acknowledged: Option<bool>, additional: Option<seq<Row>>)

  datatype Section = Section(coverage: Option<Coverage>, rows: Option<seq<Row>>)

  predicate ValidRow(r: Row) {
    r.candidateId.Some? && !IsBlank(r.candidateId.value) && r.disposition != Unknown && r.fieldsFilled && r.anchored
  }

  predicate AllValid(rows: seq<Row>) {
    forall i | 0 <= i < |rows| :: ValidRow(rows[i])
  }

  predicate ValidSection(s: Section) {
    && s.coverage.Some? && s.coverage.value.acknowledged.Some?
    && s.rows.Some? && s.coverage.value.additional.Some?
    && AllValid(s.rows.value) && AllValid(s.coverage.value.additional.value)
  }

  function Ids(rows: seq<Row>): (ids: seq<Option<string>>)
    ensures |ids| == |rows| && forall i | 0 <= i < |rows| :: ids[i] == rows[i].candidateId
  {
    seq(|rows|, i requires 0 <= i < |rows| => rows[i].candidateId)
  }

  function Items<T>(s: seq<T>): set<T> {
    set x | x in s
  }

  predicate IsComplete(derived: seq<string>, s: Section) {
    && s.coverage.Some? && s.coverage.value.acknowledged == Some(true)
    && |derived| >= 1 && ValidSection(s)
    && (forall i | 0 <= i < |s.rows.value| ::
      s.rows.value[i].candidateId.Some? && s.rows.value[i].candidateId.value in derived)
    && |Items(Ids(s.rows.value))| == |s.rows.value|
    && (forall d | d in derived :: exists i | 0 <= i < |s.rows.value| :: s.rows.value[i].candidateId == Some(d))
  }

  // ---------------------------------------------------------------------------
  // A complete section disposes every candidate once
  // ---------------------------------------------------------------------------

  ghost predicate Distinct<T(!new)>(s: seq<T>) {
    forall i, j | 0 <= i < j < |s| :: s[i] != s[j]
  }

  lemma ItemsAppend<T>(s: seq<T>, x: T)
    ensures Items(s + [x]) == Items(s) + {x}
  {
  }

  lemma {:induction false} ItemsAreFew<T>(s: seq<T>)
    ensures |Items(s)| <= |s|
  {
    if s != [] {
      var front, x := s[..|s| - 1], s[|s| - 1];
      assert s == front + [x];
      ItemsAppend(front, x);
      ItemsAreFew(front);
    }
  }

  lemma {:induction false} FullCountIsDistinct<T(!new)>(s: seq<T>)
    requires |Items(s)| == |s|
    ensures Distinct(s)
  {
    if s != [] {
      var front, x := s[..|s| - 1], s[|s| - 1];
      assert s == front + [x];
      ItemsAppend(front, x);
      ItemsAreFew(front);
      assert x !in Items(front);
      FullCountIsDistinct(front);
    }
  }

  lemma {:induction false} DistinctIsFullCount<T(!new)>(s: seq<T>)
    requires Distinct(s)
    ensures |Items(s)| == |s|
  {
    if s != [] {
      var front, x := s[..|s| - 1], s[|s| - 1];
      assert s == front + [x];
      ItemsAppend(front, x);
      DistinctIsFullCount(front);
    }
  }

  /** Rows with distinct ids that are all derived and cover all the derived ids. */
  ghost predicate Covers(ids: seq<Option<string>>, derived: seq<string>) {
    && Distinct(ids)
    && (forall i | 0 <= i < |ids| :: ids[i].Some? && ids[i].value in derived)
    && (forall d | d in derived :: Some(d) in ids)
  }

  /** The row names a candidate, disposes it in one of the three ways, says all that takes and is anchored. */
  ghost predicate Sound(row: Row) {
    && row.candidateId.Some? && (exists ch | ch in row.candidateId.value :: !IsSpace(ch))
    && (row.disposition == Answered || row.disposition == NotLoadBearing || row.disposition == Flag)
    && row.fieldsFilled && row.anchored
  }

  lemma ValidIffSound(rows: seq<Row>)
    ensures AllValid(rows) <==> forall row | row in rows :: Sound(row)
  {
    forall row ensures ValidRow(row) <==> Sound(row) {
      if row.candidateId.Some? {
        var id := row.candidateId.value;
        assert IsBlank(id) <==> forall ch | ch in id :: IsSpace(ch);
      }
    }
  }

  /** A section is complete exactly when coverage is acknowledged, something was derived, every row, additional
      ones included, is sound, and the rows name each derived candidate once and nothing else. */
  ghost predicate DisposesAll(derived: seq<string>, s: Section) {
    && s.coverage.Some? && s.coverage.value.acknowledged == Some(true) && s.coverage.value.additional.Some?
    && derived != [] && s.rows.Some? && Covers(Ids(s.rows.value), derived)
    && (forall row | row in s.rows.value :: Sound(row))
    && (forall row | row in s.coverage.value.additional.value :: Sound(row))
  }

  lemma CompleteIffCovers(derived: seq<string>, s: Section)
    ensures IsComplete(derived, s) <==> DisposesAll(derived, s)
  {
    if s.rows.Some? {
      ValidIffSound(s.rows.value);
    }
    if s.coverage.Some? && s.coverage.value.additional.Some? {
      ValidIffSound(s.coverage.value.additional.value);
    }
    if s.rows.Some? {
      var ids := Ids(s.rows.value);
      if |Items(ids)| == |ids| {
        FullCountIsDistinct(ids);
      }
      if Distinct(ids) {
        DistinctIsFullCount(ids);
      }
      forall d
        ensures Some(d) in ids <==> exists i | 0 <= i < |s.rows.value| :: s.rows.value[i].candidateId == Some(d)
      {
        if i :| 0 <= i < |s.rows.value| && s.rows.value[i].candidateId == Some(d) {
          assert ids[i] == Some(d);
        }
      }
    }
  }

  lemma CoversCounts(ids: seq<Option<string>>, derived: seq<string>)
    requires Covers(ids, derived) && Distinct(derived)
    ensures |ids| == |derived|
  {
    var names := Items(derived);
    DistinctIsFullCount(ids);
    DistinctIsFullCount(derived);
    Wrapped(names);
    assert Items(ids) == set d | d in names :: Some(d);
  }

  lemma {:induction false} Wrapped(names: set<string>)
    ensures |set d | d in names :: Some(d)| == |names|
    decreases |names|
  {
    var all := set d | d in names :: Some(d);
    if names != {} {
      var x :| x in names;
      Wrapped(names - {x});
      var fewer := set d | d in names - {x} :: Some(d);
      assert all == fewer + {Some(x)} && Some(x) !in fewer;
    } else {
      assert all == {};
    }
  }

  // ---------------------------------------------------------------------------
  // Records
  // ---------------------------------------------------------------------------

  datatype Record = Record(derived: seq<string>, dispositions: seq<Disposition>, complete: bool)

  function Dispositions(rows: seq<Row>): (r: seq<Disposition>)
    ensures |r| == |rows| && forall i | 0 <= i < |rows| :: r[i] == rows[i].disposition
  {
    seq(|rows|, i requires 0 <= i < |rows| => rows[i].disposition)
  }

  /** The record of one review run; no section at all is recorded as incomplete. */
  function BuildRecord(derived: seq<string>, section: Option<Section>): Record {
    var rows := if section.Some? && section.value.rows.Some? then section.value.rows.value else [];
    var complete := section.Some? && ValidSection(section.value) && IsComplete(derived, section.value);
    Record(derived, Dispositions(rows), complete)
  }

  /** The record keeps the derived ids and the dispositions as they stand, and is complete exactly when there is
      a section and it disposes them all. */
  lemma RecordSays(derived: seq<string>, section: Option<Section>)
    ensures
      var r := BuildRecord(derived, section);
      && r.derived == derived
      && (r.complete <==> section.Some? && DisposesAll(derived, section.value))
      && (if section.Some? && section.value.rows.Some?
          then |r.dispositions| == |section.value.rows.value|
               && forall i | 0 <= i < |r.dispositions| :: r.dispositions[i] == section.value.rows.value[i].disposition
          else r.dispositions == [])
  {
    if section.Some? {
      CompleteIffCovers(derived, section.value);
    }
  }

  /** A complete record disposes as many candidates as were derived, each with a known disposition. */
  lemma CompleteRecordIsFull(derived: seq<string>, section: Option<Section>)
    requires Distinct(derived)
    ensures var r := BuildRecord(derived, section);
      r.complete ==> |r.dispositions| == |r.derived| && Unknown !in r.dispositions
  {
    if BuildRecord(derived, section).complete {
      CompleteIffCovers(derived, section.value);
      CoversCounts(Ids(section.value.rows.value), derived);
      assert forall i | 0 <= i < |section.value.rows.value| :: ValidRow(section.value.rows.value[i]);
    }
  }

  // ---------------------------------------------------------------------------
  // Counting
  // ---------------------------------------------------------------------------

  datatype Counts = Counts(answered: nat, notLoadBearing: nat, flag: nat)

  function Disposed(c: Counts): nat {
    c.answered + c.notLoadBearing + c.flag
  }

  /** How many rows of all the records have the disposition. */
  function Total(records: seq<Record>, d: Disposition): nat {
    if records == [] then 0
    else Total(records[..|records| - 1], d) + Count(records[|records| - 1].dispositions, d)
  }

  /** How many have one of the three known ones. */
  function TotalKnown(records: seq<Record>): nat {
    Total(records, Answered) + Total(records, NotLoadBearing) + Total(records, Flag)
  }

  method DispositionCounts(records: seq<Record>) returns (counts: Counts)
    ensures counts.answered == Total(records, Answered)
    ensures counts.notLoadBearing == Total(records, NotLoadBearing)
    ensures counts.flag == Total(records, Flag)
  {
    counts := Counts(0, 0, 0);
    for i := 0 to |records|
      invariant counts.answered == Total(records[..i], Answered)
      invariant counts.notLoadBearing == Total(records[..i], NotLoadBearing)
      invariant counts.flag == Total(records[..i], Flag)
    {
      var ds := records[i].dispositions;
      for j := 0 to |ds|
        invariant counts.answered == Total(records[..i], Answered) + Count(ds[..j], Answered)
        invariant counts.notLoadBearing == Total(records[..i], NotLoadBearing) + Count(ds[..j], NotLoadBearing)
        invariant counts.flag == Total(records[..i], Flag) + Count(ds[..j], Flag)
      {
        match ds[j] {
          case Answered => counts := counts.(answered := counts.answered + 1);
          case NotLoadBearing => counts := counts.(notLoadBearing := counts.notLoadBearing + 1);
          case Flag => counts := counts.(flag := counts.flag + 1);
          case Unknown =>
        }
        assert ds[..j + 1][..j] == ds[..j];
      }
      assert ds[..|ds|] == ds;
      assert records[..i + 1][..i] == records[..i];
    }
    assert records[..|records|] == records;
  }

  function CompleteOnly(records: seq<Record>): (r: seq<Record>)
    ensures forall i | 0 <= i < |r| :: r[i].complete && r[i] in records
  {
    if records == [] then []
    else
      var last := records[|records| - 1];
      CompleteOnly(records[..|records| - 1]) + if last.complete then [last] else []
  }

  function TotalDerived(records: seq<Record>): nat {
    if records == [] then 0 else TotalDerived(records[..|records| - 1]) + |records[|records| - 1].derived|
  }

  /** Records built by a review run from candidates with distinct ids. */
  ghost predicate IsBuilt(r: Record) {
    exists derived, section :: Distinct(derived) && r == BuildRecord(derived, section)
  }

  /** The ids of the candidates, in order. */
  ghost predicate IdsOf(ids: seq<string>, candidates: seq<HuntDerive.Candidate>) {
    |ids| == |candidates| && forall i | 0 <= i < |ids| :: ids[i] == candidates[i].id
  }

  /** One review run: derive the candidates of every file, then record the section against their ids. */
  method ReviewRun(files: seq<HuntDerive.File>, section: Option<Section>)
    returns (r: Record, ghost parts: seq<seq<HuntDerive.Candidate>>, ghost at: seq<seq<nat>>)
    requires forall i, j | 0 <= i < j < |files| :: files[i].relpath != files[j].relpath
    ensures |parts| == |at| == |files| && forall i | 0 <= i < |files| :: HuntDerive.FromFile(files[i], at[i], parts[i])
    ensures IdsOf(r.derived, HuntDerive.Flatten(parts))
    ensures r.complete <==> section.Some? && DisposesAll(r.derived, section.value)
    ensures IsBuilt(r)
    ensures r.complete ==> |r.dispositions| == |r.derived| && Unknown !in r.dispositions
  {
    var candidates;
    candidates, parts, at := HuntDerive.Derive(files);
    var ids := seq(|candidates|, i requires 0 <= i < |candidates| => candidates[i].id);
    CompleteRecordIsFull(ids, section);
    RecordSays(ids, section);
    r := BuildRecord(ids, section);
  }

  lemma BuiltIsFull(r: Record)
    requires IsBuilt(r) && r.complete
    ensures |r.dispositions| == |r.derived| && Unknown !in r.dispositions
  {
    var derived, section :| Distinct(derived) && r == BuildRecord(derived, section);
    CompleteRecordIsFull(derived, section);
  }

  lemma {:induction false} KnownAreAllCounted(ds: seq<Disposition>)
    requires forall i | 0 <= i < |ds| :: ds[i] != Unknown
    ensures Known(ds) == |ds|
  {
    if ds != [] {
      KnownAreAllCounted(ds[..|ds| - 1]);
    }
  }

  function Known(ds: seq<Disposition>): nat {
    Count(ds, Answered) + Count(ds, NotLoadBearing) + Count(ds, Flag)
  }

  lemma RecordIsAllCounted(r: Record)
    requires IsBuilt(r) && r.complete
    ensures Known(r.dispositions) == |r.derived|
  {
    BuiltIsFull(r);
    KnownAreAllCounted(r.dispositions);
  }

  ghost predicate AllCounted(records: seq<Record>) {
    forall i | 0 <= i < |records| :: Known(records[i].dispositions) == |records[i].derived|
  }

  lemma {:induction false} CountedIsDerived(records: seq<Record>)
    requires AllCounted(records)
    ensures TotalKnown(records) == TotalDerived(records)
  {
    if records != [] {
      CountedIsDerived(records[..|records| - 1]);
    }
  }

  /** Over complete records the number disposed is the number derived. */
  lemma DisposedIsDerived(records: seq<Record>)
    requires forall i | 0 <= i < |records| :: IsBuilt(records[i]) && records[i].complete
    ensures TotalKnown(records) == TotalDerived(records)
  {
    forall i | 0 <= i < |records| ensures Known(records[i].dispositions) == |records[i].derived| {
      RecordIsAllCounted(records[i]);
    }
    CountedIsDerived(records);
  }

  // ---------------------------------------------------------------------------
  // Order does not matter
  // ---------------------------------------------------------------------------

  ghost predicate Shuffled(a: seq<Record>, b: seq<Record>) {
    forall r :: Count(a, r) == Count(b, r)
  }

  lemma TotalAppend(s: seq<Record>, x: Record, d: Disposition)
    ensures Total(s + [x], d) == Total(s, d) + Count(x.dispositions, d)
  {
    assert (s + [x])[..|s|] == s;
  }

  function Without(s: seq<Record>, k: nat): seq<Record>
    requires k < |s|
  {
    s[..k] + s[k + 1..]
  }

  lemma WithoutLast(s: seq<Record>, k: nat)
    requires k < |s| - 1
    ensures Without(s, k) == Without(s[..|s| - 1], k) + [s[|s| - 1]]
  {
  }

  lemma {:induction false} ExtractTotal(s: seq<Record>, k: nat, d: Disposition)
    requires k < |s|
    ensures Total(s, d) == Total(Without(s, k), d) + Count(s[k].dispositions, d)
  {
    var n := |s| - 1;
    assert s == s[..n] + [s[n]];
    TotalAppend(s[..n], s[n], d);
    if k == n {
      assert Without(s, k) == s[..n];
    } else {
      ExtractTotal(s[..n], k, d);
      WithoutLast(s, k);
      TotalAppend(Without(s[..n], k), s[n], d);
    }
  }

  lemma {:induction false} ExtractTimes(s: seq<Record>, k: nat, r: Record)
    requires k < |s|
    ensures Count(s, r) == Count(Without(s, k), r) + Bit(s[k] == r)
  {
    var n := |s| - 1;
    assert s == s[..n] + [s[n]];
    CountAppend(s[..n], s[n], r);
    if k == n {
      assert Without(s, k) == s[..n];
    } else {
      ExtractTimes(s[..n], k, r);
      WithoutLast(s, k);
      CountAppend(Without(s[..n], k), s[n], r);
    }
  }

  lemma {:induction false} Find(s: seq<Record>, r: Record) returns (k: nat)
    requires Count(s, r) > 0
    ensures k < |s| && s[k] == r
  {
    if s[|s| - 1] == r {
      k := |s| - 1;
    } else {
      k := Find(s[..|s| - 1], r);
    }
  }

  lemma NothingShuffled(b: seq<Record>)
    requires Shuffled([], b)
    ensures b == []
  {
    if b != [] {
      assert Count([], b[|b| - 1]) == 0;
    }
  }

  lemma {:induction false} TotalIgnoresOrder(a: seq<Record>, b: seq<Record>, d: Disposition)
    requires Shuffled(a, b)
    ensures Total(a, d) == Total(b, d) && |a| == |b|
  {
    if a == [] {
      NothingShuffled(b);
    } else {
      var n := |a| - 1;
      var r := a[n];
      assert Count(a, r) > 0;
      var k := Find(b, r);
      ExtractTotal(b, k, d);
      forall x ensures Count(a[..n], x) == Count(Without(b, k), x) {
        ExtractTimes(b, k, x);
        assert Count(a, x) == Count(b, x);
      }
      TotalIgnoresOrder(a[..n], Without(b, k), d);
    }
  }

  lemma {:induction false} TimesComplete(s: seq<Record>, r: Record)
    ensures Count(CompleteOnly(s), r) == if r.complete then Count(s, r) else 0
  {
    if s != [] {
      var front, x := s[..|s| - 1], s[|s| - 1];
      assert s == front + [x];
      TimesComplete(front, r);
      CountAppend(front, x, r);
      if x.complete {
        assert CompleteOnly(s) == CompleteOnly(front) + [x];
        CountAppend(CompleteOnly(front), x, r);
      } else {
        assert CompleteOnly(s) == CompleteOnly(front);
      }
    }
  }

  lemma CompleteKeepsShuffle(a: seq<Record>, b: seq<Record>)
    requires Shuffled(a, b)
    ensures Shuffled(CompleteOnly(a), CompleteOnly(b))
  {
    forall r ensures Count(CompleteOnly(a), r) == Count(CompleteOnly(b), r) {
      TimesComplete(a, r);
      TimesComplete(b, r);
      assert Count(a, r) == Count(b, r);
    }
  }

  // ---------------------------------------------------------------------------
  // Graduation
  // ---------------------------------------------------------------------------

  datatype Guard = MinRuns | MinDisposed | Discrimination | FpThreshold | CompleteRuns

  lemma Tenth(x: real, d: real)
    requires d > 0.0
    ensures x < 0.10 <==> 10.0 * (x * d) < d
  {
    assert 10.0 * (x * d) - d == (10.0 * x - 1.0) * d;
  }

  lemma QuotientBelowTenth(n: real, d: real)
    requires d > 0.0
    ensures n / d < 0.10 <==> 10.0 * n < d
  {
    assert (n / d) * d == n;
    Tenth(n / d, d);
  }

  lemma RateBelowTenth(c: Counts)
    requires Disposed(c) > 0
    ensures Share(c.notLoadBearing, Disposed(c)) < 0.10 <==> 10 * c.notLoadBearing < Disposed(c)
  {
    QuotientBelowTenth(c.notLoadBearing as real, Disposed(c) as real);
  }

  /** The share of not-load-bearing rows among the known rows of complete records, if there are any. */
  method FpRate(records: seq<Record>) returns (rate: Option<real>)
    ensures rate == None <==> TotalKnown(CompleteOnly(records)) == 0
    ensures rate.Some? ==>
      IsShare(rate.value, Total(CompleteOnly(records), NotLoadBearing), TotalKnown(CompleteOnly(records)))
  {
    var counts := DispositionCounts(CompleteOnly(records));
    var disposed := Disposed(counts);
    if disposed == 0 {
      return None;
    }
    return Some(Share(counts.notLoadBearing, disposed));
  }

  /** `share` is `n` out of `d`. */
  ghost predicate IsShare(share: real, n: nat, d: nat) {
    share * (d as real) == n as real
  }

  function Share(n: nat, d: nat): (share: real)
    requires d > 0
    ensures IsShare(share, n, d)
  {
    n as real / d as real
  }

  function Window(records: seq<Record>, disabled: set<Guard>): seq<Record> {
    if CompleteRuns in disabled then records else CompleteOnly(records)
  }

  /** The guards that are not disabled hold of these records. */
  ghost predicate Ready(window: seq<Record>, disabled: set<Guard>) {
    && (MinRuns in disabled || |window| >= 10)
    && (MinDisposed in disabled || TotalKnown(window) >= 20)
    && (Discrimination in disabled ||
          (Total(window, NotLoadBearing) >= 1 && Total(window, Answered) + Total(window, Flag) >= 1))
    && (FpThreshold in disabled || 10 * Total(window, NotLoadBearing) < TotalKnown(window))
  }

  method IsGraduationReady(records: seq<Record>, disabled: set<Guard>) returns (ready: bool)
    ensures ready <==> Ready(Window(records, disabled), disabled)
  {
    var window := if CompleteRuns in disabled then records else CompleteOnly(records);
    var counts := DispositionCounts(window);
    var disposed := Disposed(counts);
    var threshold := false;
    if disposed > 0 {
      RateBelowTenth(counts);
      threshold := Share(counts.notLoadBearing, disposed) < 0.10;
    }
    ready := (MinRuns in disabled || |window| >= 10)
      && (MinDisposed in disabled || disposed >= 20)
      && (Discrimination in disabled || (counts.notLoadBearing >= 1 && counts.answered + counts.flag >= 1))
      && (FpThreshold in disabled || threshold);
  }

  lemma WindowKeepsShuffle(a: seq<Record>, b: seq<Record>, disabled: set<Guard>)
    requires Shuffled(a, b)
    ensures Shuffled(Window(a, disabled), Window(b, disabled))
  {
    if CompleteRuns !in disabled {
      CompleteKeepsShuffle(a, b);
    }
  }

  /** Neither readiness nor the rate depends on the order of the records. */
  lemma GraduationIgnoresOrder(a: seq<Record>, b: seq<Record>, disabled: set<Guard>)
    requires Shuffled(a, b)
    ensures Ready(Window(a, disabled), disabled) <==> Ready(Window(b, disabled), disabled)
    ensures forall d :: Total(CompleteOnly(a), d) == Total(CompleteOnly(b), d)
  {
    WindowKeepsShuffle(a, b, disabled);
    CompleteKeepsShuffle(a, b);
    forall d
      ensures Total(Window(a, disabled), d) == Total(Window(b, disabled), d)
      ensures Total(CompleteOnly(a), d) == Total(CompleteOnly(b), d)
      ensures |Window(a, disabled)| == |Window(b, disabled)|
    {
      TotalIgnoresOrder(Window(a, disabled), Window(b, disabled), d);
      TotalIgnoresOrder(CompleteOnly(a), CompleteOnly(b), d);
    }
    TotalIgnoresOrder(Window(a, disabled), Window(b, disabled), Flag);
  }

  /** With every guard on, the records graduate exactly when at least ten of them are complete, at least 20
      candidates were derived in those, some of these turned out not load bearing, some did not, and
      fewer than a tenth did. */
  lemma GraduationIsEarned(records: seq<Record>)
    requires forall i | 0 <= i < |records| :: IsBuilt(records[i])
    ensures
      var window := CompleteOnly(records);
      var n, derived := Total(window, NotLoadBearing), TotalDerived(window);
      Ready(Window(records, {}), {}) <==> |window| >= 10 && derived >= 20 && 1 <= n < derived && 10 * n < derived
  {
    DisposedIsDerived(CompleteOnly(records));
  }
}
