/**
  Noisy-or confidence over certified predicates: each alternative counts once, with its best
  capped contribution. Arithmetic is exact.
 */
module Confidence {
  import opened Common
  import opened Certification

  datatype Constants = Constants(pMax: real, cap: real, live: real, file: real, none: real)

  datatype Verdict = Verdict(pMax: real, q: real, confidence: real)

  predicate IsCertified(p: Predicate) {
    && p.certifier.seat != p.authorSeat
    && p.certifier.model != p.authorModel
    && p.certifier.category == Some(ResolveEvidenceCategory(p.certifier.evidenceRef))
  }

  function Strength(c: Constants, p: Predicate): real {
    match ResolveEvidenceCategory(p.certifier.evidenceRef)
    case LiveData => c.live
    case FileLine => c.file
    case NoCategory => c.none
  }

  /** What a predicate says for its alternative: its strength when exclusive, else nothing. */
  function Weight(c: Constants, p: Predicate): real {
    if p.notValueKey && p.notValue then 1.0 * Strength(c, p) else 0.0 * Strength(c, p)
  }

  /** Certified by another seat and another model, with evidence of the category declared. */
  ghost predicate Certified(p: Predicate) {
    !SelfCertified(p) && ShowsItsCategory(p)
  }

  lemma CertifiedIff(p: Predicate)
    ensures IsCertified(p) <==> Certified(p)
  {
    EvidenceMeans(p.certifier.evidenceRef);
  }

  /** What the evidence is worth, if the predicate is exclusive with a value: by its kind. */
  ghost function Worth(c: Constants, p: Predicate): real {
    if !p.notValueKey || !p.notValue then 0.0
    else if IsLiveRef(p.certifier.evidenceRef) then c.live
    else if IsLineRef(p.certifier.evidenceRef) then c.file
    else c.none
  }

  lemma WeightIsWorth(c: Constants, p: Predicate)
    ensures Weight(c, p) == Worth(c, p)
  {
    EvidenceMeans(p.certifier.evidenceRef);
  }

  function Max(a: real, b: real): real { if a < b then b else a }

  function Min(a: real, b: real): real { if b < a then b else a }

  // ---------------------------------------------------------------------------
  // Best weight of each certified alternative
  // ---------------------------------------------------------------------------

  type Table = map<string, real>

  ghost predicate Backs(p: Predicate, alt: string) {
    Certified(p) && p.hypothesis == alt
  }

  /** `table` gives each alternative with a certified predicate its largest weight, or 0 if that is larger. */
  ghost predicate IsBestTable(c: Constants, preds: seq<Predicate>, table: Table) {
    && (forall alt :: alt in table <==> exists p :: p in preds && Backs(p, alt))
    && (forall alt | alt in table :: IsBest(c, preds, alt, table[alt]))
  }

  function Improved(c: Constants, table: Table, p: Predicate): Table {
    table[p.hypothesis := Max(if p.hypothesis in table then table[p.hypothesis] else 0.0, Weight(c, p))]
  }

  method BestTable(c: Constants, preds: seq<Predicate>) returns (table: Table)
    ensures IsBestTable(c, preds, table)
  {
    table := map[];
    for k := 0 to |preds|
      invariant IsBestTable(c, preds[..k], table)
    {
      TableOneMore(c, preds[..k], preds[k], table);
      assert preds[..k + 1] == preds[..k] + [preds[k]];
      if IsCertified(preds[k]) {
        table := Improved(c, table, preds[k]);
      }
    }
    assert preds[..|preds|] == preds;
  }

  ghost predicate IsBest(c: Constants, preds: seq<Predicate>, alt: string, best: real) {
    && best >= 0.0
    && (exists p :: p in preds && Backs(p, alt))
    && (forall p | p in preds && Backs(p, alt) :: Worth(c, p) <= best)
    && (best == 0.0 || exists p :: p in preds && Backs(p, alt) && Worth(c, p) == best)
  }

  lemma BestOneMore(c: Constants, preds: seq<Predicate>, p: Predicate, alt: string, best: real)
    requires if exists q :: q in preds && Backs(q, alt) then IsBest(c, preds, alt, best) else best == 0.0
    ensures (exists q :: q in preds + [p] && Backs(q, alt))
       <==> (exists q :: q in preds && Backs(q, alt)) || Backs(p, alt)
    ensures Backs(p, alt) ==> IsBest(c, preds + [p], alt, Max(best, Worth(c, p)))
    ensures !Backs(p, alt) && (exists q :: q in preds && Backs(q, alt)) ==> IsBest(c, preds + [p], alt, best)
  {
    var more := preds + [p];
    assert p in more && forall q :: q in more <==> q in preds || q == p;
  }

  lemma TableOneMore(c: Constants, preds: seq<Predicate>, p: Predicate, before: Table)
    requires IsBestTable(c, preds, before)
    ensures IsBestTable(c, preds + [p], if IsCertified(p) then Improved(c, before, p) else before)
  {
    CertifiedIff(p);
    WeightIsWorth(c, p);
    var after := if IsCertified(p) then Improved(c, before, p) else before;
    forall alt
      ensures alt in after <==> exists q :: q in preds + [p] && Backs(q, alt)
      ensures alt in after ==> IsBest(c, preds + [p], alt, after[alt])
    {
      BestOneMore(c, preds, p, alt, if alt in before then before[alt] else 0.0);
    }
  }

  /** More certified predicates give more alternatives, each with at least its old weight. */
  lemma TableGrows(c: Constants, a: seq<Predicate>, b: seq<Predicate>, s: Table, t: Table)
    requires IsBestTable(c, a, s) && IsBestTable(c, b, t)
    requires forall p | p in a && Certified(p) :: p in b
    ensures Below(s, t)
  {
    forall alt | alt in s ensures alt in t && s[alt] <= t[alt] {
      var p :| p in a && Backs(p, alt);
      assert p in b && Backs(p, alt);
      if s[alt] != 0.0 {
        var q :| q in a && Backs(q, alt) && Worth(c, q) == s[alt];
        assert q in b;
      }
    }
  }

  ghost predicate NonNegative(table: Table) {
    forall alt | alt in table :: table[alt] >= 0.0
  }

  lemma BestIsNonNegative(c: Constants, preds: seq<Predicate>, table: Table)
    requires IsBestTable(c, preds, table)
    ensures NonNegative(table)
  {
    forall alt | alt in table ensures table[alt] >= 0.0 {
      assert IsBest(c, preds, alt, table[alt]);
    }
  }

  ghost predicate Below(s: Table, t: Table) {
    forall alt | alt in s :: alt in t && s[alt] <= t[alt]
  }

  // ---------------------------------------------------------------------------
  // The product of what is left in doubt
  // ---------------------------------------------------------------------------

  type Op = (real, real) -> real

  const TIMES: Op := (x, y) => x * y

  // The laws of multiplication that the results below need.

  ghost predicate Commutes(mul: Op) {
    forall x, y :: mul(x, y) == mul(y, x)
  }

  ghost predicate Swaps(mul: Op) {
    forall x, y, z :: mul(x, mul(y, z)) == mul(y, mul(x, z))
  }

  ghost predicate Grows(mul: Op) {
    && (forall x, y, u, v | 0.0 <= x <= y && 0.0 <= u <= v :: 0.0 <= mul(x, u) <= mul(y, v))
    && (forall x :: mul(1.0, x) == x)
  }

  lemma Scale(x: real, y: real, u: real, v: real)
    requires 0.0 <= x <= y && 0.0 <= u <= v
    ensures 0.0 <= TIMES(x, u) <= TIMES(y, v)
  {
    assert y * v - x * u == (y - x) * v + x * (v - u);
  }

  lemma TimesKeepsUnit(x: real)
    ensures TIMES(1.0, x) == x
  {
  }

  lemma TimesGrows()
    ensures Grows(TIMES)
  {
    forall x ensures TIMES(1.0, x) == x {
      TimesKeepsUnit(x);
    }
    forall x, y, u, v | 0.0 <= x <= y && 0.0 <= u <= v ensures 0.0 <= TIMES(x, u) <= TIMES(y, v) {
      Scale(x, y, u, v);
    }
  }

  lemma TimesSwaps()
    ensures Commutes(TIMES) && Swaps(TIMES)
  {
    forall x, y, z ensures TIMES(x, TIMES(y, z)) == TIMES(y, TIMES(x, z)) {
      assert x * (y * z) == y * (x * z);
    }
  }

  function Factor(cap: real, best: real): real {
    1.0 - Min(cap, best)
  }

  /** What an alternative leaves in doubt: all but its best weight, of which no more than the cap counts. */
  ghost function LeftInDoubt(cap: real, best: real): real {
    if best <= cap then 1.0 - best else 1.0 - cap
  }

  lemma FactorIsLeft(cap: real, best: real)
    ensures Factor(cap, best) == LeftInDoubt(cap, best)
  {
  }

  /** The product of what every alternative leaves in doubt. */
  ghost function Doubt(mul: Op, cap: real, table: Table): real {
    if table == map[] then 1.0
    else mul(LeftInDoubt(cap, table[Pick(table)]), Doubt(mul, cap, table - {Pick(table)}))
  }

  ghost function Power(mul: Op, x: real, k: nat): real {
    if k == 0 then 1.0 else mul(x, Power(mul, x, k - 1))
  }

  /** The product does not depend on the order of its factors. */
  lemma {:induction false} DoubtTakes(mul: Op, cap: real, table: Table, alt: string)
    requires Swaps(mul) && alt in table
    ensures Doubt(mul, cap, table) == mul(LeftInDoubt(cap, table[alt]), Doubt(mul, cap, table - {alt}))
    decreases |table|
  {
    var first := Pick(table);
    if first != alt {
      var a, b := table - {first}, table - {alt};
      assert a - {alt} == b - {first};
      DoubtTakes(mul, cap, a, alt);
      DoubtTakes(mul, cap, b, first);
    }
  }

  lemma DoubtIsBounded(cap: real, best: real)
    requires 0.0 <= cap <= 1.0 && best >= 0.0
    ensures 0.0 <= 1.0 - cap <= LeftInDoubt(cap, best) <= 1.0
  {
  }

  lemma FactorStep(mul: Op, low: real, factor: real, power: real, doubt: real)
    requires Grows(mul) && 0.0 <= low <= factor <= 1.0 && 0.0 <= power <= doubt <= 1.0
    ensures 0.0 <= mul(low, power) <= mul(factor, doubt) <= 1.0
  {
    assert mul(factor, doubt) <= mul(1.0, doubt) == doubt;
  }

  lemma {:induction false} DoubtBounds(mul: Op, cap: real, table: Table)
    requires Grows(mul) && 0.0 <= cap <= 1.0 && NonNegative(table)
    ensures 0.0 <= Power(mul, 1.0 - cap, |table|) <= Doubt(mul, cap, table) <= 1.0
    decreases |table|
  {
    if table != map[] {
      var alt := Pick(table);
      var rest := table - {alt};
      assert table.Keys == rest.Keys + {alt};
      DoubtBounds(mul, cap, rest);
      DoubtIsBounded(cap, table[alt]);
      FactorStep(mul, 1.0 - cap, LeftInDoubt(cap, table[alt]), Power(mul, 1.0 - cap, |rest|), Doubt(mul, cap, rest));
    }
  }

  lemma {:induction false} DoubtFalls(mul: Op, cap: real, s: Table, t: Table)
    requires Swaps(mul) && Grows(mul) && 0.0 <= cap <= 1.0 && Below(s, t)
    requires NonNegative(s) && NonNegative(t)
    ensures Doubt(mul, cap, t) <= Doubt(mul, cap, s)
    decreases |t|
  {
    if t != map[] {
      var alt := Pick(t);
      var rest := t - {alt};
      DoubtBounds(mul, cap, rest);
      DoubtIsBounded(cap, t[alt]);
      if alt in s {
        DoubtTakes(mul, cap, s, alt);
        DoubtFalls(mul, cap, s - {alt}, rest);
        assert 0.0 <= LeftInDoubt(cap, t[alt]) <= LeftInDoubt(cap, s[alt]);
        assert 0.0 <= Doubt(mul, cap, rest) <= Doubt(mul, cap, s - {alt});
      } else {
        DoubtFalls(mul, cap, s, rest);
        assert mul(1.0, Doubt(mul, cap, rest)) == Doubt(mul, cap, rest);
      }
    }
  }

  // ---------------------------------------------------------------------------
  // Confidence
  // ---------------------------------------------------------------------------

  ghost predicate IsConfidence(mul: Op, c: Constants, preds: seq<Predicate>, r: Verdict) {
    && r.pMax == c.pMax && r.confidence == mul(c.pMax, r.q)
    && exists table :: IsBestTable(c, preds, table) && r.q == 1.0 - Doubt(mul, c.cap, table)
  }

  /** Multiplies the factors in any order. */
  method Product(mul: Op, cap: real, table: Table) returns (product: real)
    requires Commutes(mul) && Swaps(mul)
    ensures product == Doubt(mul, cap, table)
  {
    product := 1.0;
    var done: Table := map[];
    while done.Keys != table.Keys
      invariant done.Keys <= table.Keys && forall alt | alt in done :: done[alt] == table[alt]
      invariant product == Doubt(mul, cap, done)
      decreases table.Keys - done.Keys
    {
      var alt :| alt in table && alt !in done;
      var more := done[alt := table[alt]];
      assert more - {alt} == done;
      DoubtTakes(mul, cap, more, alt);
      FactorIsLeft(cap, table[alt]);
      product, done := mul(product, Factor(cap, table[alt])), more;
    }
    assert done == table;
  }

  /** The alternatives that have a certified predicate. */
  ghost function Alternatives(preds: seq<Predicate>): set<string> {
    set p | p in preds && Certified(p) :: p.hypothesis
  }

  lemma TableKeys(c: Constants, preds: seq<Predicate>, table: Table)
    requires IsBestTable(c, preds, table)
    ensures table.Keys == Alternatives(preds)
  {
    forall alt ensures alt in table <==> alt in Alternatives(preds) {
      if alt in table {
        var p :| p in preds && Backs(p, alt);
      }
      if alt in Alternatives(preds) {
        var p :| p in preds && Certified(p) && p.hypothesis == alt;
        assert Backs(p, alt);
      }
    }
  }

  /** For k certified alternatives, Q lies between 0 and 1 - (1 - cap)^k. */
  lemma ConfidenceBounds(mul: Op, c: Constants, preds: seq<Predicate>, r: Verdict)
    requires Grows(mul) && IsConfidence(mul, c, preds, r) && 0.0 <= c.cap <= 1.0
    ensures 0.0 <= r.q <= 1.0 - Power(mul, 1.0 - c.cap, |Alternatives(preds)|) <= 1.0
  {
    var table :| IsBestTable(c, preds, table) && r.q == 1.0 - Doubt(mul, c.cap, table);
    BestIsNonNegative(c, preds, table);
    DoubtBounds(mul, c.cap, table);
    TableKeys(c, preds, table);
    assert |table| == |table.Keys|;
  }

  /** Adding predicates never lowers Q. */
  lemma ConfidenceGrows(mul: Op, c: Constants, a: seq<Predicate>, b: seq<Predicate>, r: Verdict, s: Verdict)
    requires Swaps(mul) && Grows(mul) && 0.0 <= c.cap <= 1.0
    requires IsConfidence(mul, c, a, r) && IsConfidence(mul, c, b, s)
    requires forall p | p in a && Certified(p) :: p in b
    ensures r.q <= s.q
  {
    var x :| IsBestTable(c, a, x) && r.q == 1.0 - Doubt(mul, c.cap, x);
    var y :| IsBestTable(c, b, y) && s.q == 1.0 - Doubt(mul, c.cap, y);
    TableGrows(c, a, b, x, y);
    BestIsNonNegative(c, a, x);
    BestIsNonNegative(c, b, y);
    DoubtFalls(mul, c.cap, x, y);
  }

  /** Only which certified predicates are present matters: not their order, nor repeats, nor the others. */
  lemma ConfidenceIgnoresTheRest(mul: Op, c: Constants, a: seq<Predicate>, b: seq<Predicate>, r: Verdict, s: Verdict)
    requires Swaps(mul) && Grows(mul) && 0.0 <= c.cap <= 1.0
    requires IsConfidence(mul, c, a, r) && IsConfidence(mul, c, b, s)
    requires forall p | Certified(p) :: p in a <==> p in b
    ensures r == s
  {
    ConfidenceGrows(mul, c, a, b, r, s);
    ConfidenceGrows(mul, c, b, a, s, r);
  }

  method ComputeConfidence(c: Constants, preds: seq<Predicate>) returns (r: Verdict)
    ensures IsConfidence(TIMES, c, preds, r)
  {
    var table := BestTable(c, preds);
    TimesSwaps();
    var product := Product(TIMES, c.cap, table);
    var q := 1.0 - product;
    return Verdict(c.pMax, q, TIMES(c.pMax, q));
  }

  /** The three laws for what the code computes, with real multiplication. */
  lemma NoisyOrLaws(c: Constants, a: seq<Predicate>, b: seq<Predicate>, r: Verdict, s: Verdict)
    requires IsConfidence(TIMES, c, a, r) && IsConfidence(TIMES, c, b, s) && 0.0 <= c.cap <= 1.0
    ensures 0.0 <= r.q <= 1.0 - Power(TIMES, 1.0 - c.cap, |Alternatives(a)|) <= 1.0
    ensures (forall p | p in a && Certified(p) :: p in b) ==> r.q <= s.q
    ensures (forall p | Certified(p) :: p in a <==> p in b) ==> r == s
  {
    TimesGrows();
    TimesSwaps();
    ConfidenceBounds(TIMES, c, a, r);
    if forall p | p in a && Certified(p) :: p in b {
      ConfidenceGrows(TIMES, c, a, b, r, s);
    }
    if forall p | Certified(p) :: p in a <==> p in b {
      ConfidenceIgnoresTheRest(TIMES, c, a, b, r, s);
    }
  }
}
