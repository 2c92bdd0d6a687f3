/**
 * The four pillars themselves: how a stem index and a branch index become a
 * pillar (`makePillar`), the cycle arithmetic for the year, month and hour
 * pillars (`hourToJiji`, `getShiganBase` and the index formulas of
 * `calculateSaju`), and the element tally (`countOhang`).
 */
module Pillars {
  import opened Wrappers
  import opened Tables

  /** One pillar: stem and branch glyphs, their Korean readings and their elements. */
  datatype Pillar = Pillar(gan: string, ji: string, ganKr: string, jiKr: string, ohangGan: string, ohangJi: string)

  /** `CHEONGAN.indexOf(c)`: the position of a stem glyph in the stem table, or -1. */
  function StemPosition(c: char): (r: int)
    ensures -1 <= r < 10
    ensures r == -1 <==> c !in Stems
    ensures r >= 0 ==> Stems[r] == c
  {
    match c
    case '甲' => 0 case '乙' => 1 case '丙' => 2 case '丁' => 3 case '戊' => 4
    case '己' => 5 case '庚' => 6 case '辛' => 7 case '壬' => 8 case '癸' => 9
    case _ => -1
  }

  /** `JIJI.indexOf(c)`: the position of a branch glyph in the branch table, or -1. */
  function BranchPosition(c: char): (r: int)
    ensures -1 <= r < 12
    ensures r == -1 <==> c !in Branches
    ensures r >= 0 ==> Branches[r] == c
  {
    match c
    case '子' => 0 case '丑' => 1 case '寅' => 2 case '卯' => 3 case '辰' => 4 case '巳' => 5
    case '午' => 6 case '未' => 7 case '申' => 8 case '酉' => 9 case '戌' => 10 case '亥' => 11
    case _ => -1
  }

  /** Looking up the glyph at a table position gives that position back. */
  lemma PositionsRoundTrip(s: int, b: int)
    requires 0 <= s < 10 && 0 <= b < 12
    ensures StemPosition(Stems[s]) == s && BranchPosition(Branches[b]) == b
  {
    StemsDistinct();
    BranchesDistinct();
  }

  /** The position of a pillar's stem in the stem table, or -1 when it is not one stem glyph. */
  function StemIndex(p: Pillar): int {
    if |p.gan| == 1 then StemPosition(p.gan[0]) else -1
  }

  /** The position of a pillar's branch in the branch table, or -1 when it is not one branch glyph. */
  function BranchIndex(p: Pillar): int {
    if |p.ji| == 1 then BranchPosition(p.ji[0]) else -1
  }

  /** A pillar whose readings and elements are the table entries of its two glyphs. */
  predicate WellFormed(p: Pillar) {
    var s, b := StemIndex(p), BranchIndex(p);
    0 <= s && 0 <= b
    && p.ganKr == StemsKr[s] && p.jiKr == BranchesKr[b]
    && p.gan[0] in StemOhang && p.ohangGan == StemOhang[p.gan[0]]
    && p.ji[0] in BranchOhang && p.ohangJi == BranchOhang[p.ji[0]]
  }

  /** One of the sixty stem-branch pairs of the cycle: stem and branch indices share their parity. */
  predicate Sexagenary(p: Pillar) {
    StemIndex(p) % 2 == BranchIndex(p) % 2
  }

  /**
   * `makePillar`: the pillar at stem index `ganIndex % 10` and branch index
   * `jiIndex % 12`, with readings and elements looked up in the tables.
   */
  function MakePillar(ganIndex: int, jiIndex: int): (p: Pillar)
    requires ganIndex >= 0 && jiIndex >= 0
    ensures WellFormed(p)
    ensures StemIndex(p) == ganIndex % 10 && BranchIndex(p) == jiIndex % 12
    ensures Sexagenary(p) <==> ganIndex % 2 == jiIndex % 2
  {
    var s, b := ganIndex % 10, jiIndex % 12;
    PositionsRoundTrip(s, b);
    OhangTablesTotal();
    EvenModulus(ganIndex, 10);
    EvenModulus(jiIndex, 12);
    Pillar([Stems[s]], [Branches[b]], StemsKr[s], BranchesKr[b], StemOhang[Stems[s]], BranchOhang[Branches[b]])
  }

  /** A number below the modulus is its own remainder. */
  lemma SmallRemainder(x: int, n: int)
    requires 0 <= x < n
    ensures x % n == x
  {
  }

  /** Reducing modulo an even number keeps the parity. */
  lemma EvenModulus(x: int, n: int)
    requires x >= 0 && n > 0 && n % 2 == 0
    ensures x % n % 2 == x % 2
  {
    var q, h := x / n, n / 2;
    assert x == n * q + x % n;
    assert n * q == 2 * (h * q);
  }

  lemma IndexRanges(p: Pillar)
    requires WellFormed(p)
    ensures StemIndex(p) < 10 && p.gan[0] == Stems[StemIndex(p)]
    ensures BranchIndex(p) < 12 && p.ji[0] == Branches[BranchIndex(p)]
  {
  }

  /** Two well-formed pillars with the same indices are the same pillar. */
  lemma WellFormedUnique(p: Pillar, q: Pillar)
    requires WellFormed(p) && WellFormed(q)
    requires StemIndex(p) == StemIndex(q) && BranchIndex(p) == BranchIndex(q)
    ensures p == q
  {
    IndexRanges(p);
    IndexRanges(q);
    assert p.gan == [p.gan[0]] == [q.gan[0]] == q.gan;
    assert p.ji == [p.ji[0]] == [q.ji[0]] == q.ji;
  }

  /** A well-formed pillar is rebuilt exactly from its two indices. */
  lemma MakePillarInverse(p: Pillar)
    requires WellFormed(p)
    ensures MakePillar(StemIndex(p), BranchIndex(p)) == p
  {
    var s, b := StemIndex(p), BranchIndex(p);
    IndexRanges(p);
    SmallRemainder(s, 10);
    SmallRemainder(b, 12);
    var q := MakePillar(s, b);
    assert StemIndex(q) == s && BranchIndex(q) == b;
    WellFormedUnique(p, q);
  }

  // ---------------------------------------------------------------- hour pillar

  /**
   * `hourToJiji`: the branch of the double hour a clock hour falls in. 子 (0)
   * runs from 23:00 to 01:00; every other branch b covers hours 2b-1 and 2b.
   */
  function HourBranch(hour: int): (b: int)
    ensures 0 <= b < 12
    ensures b == 0 <==> hour >= 23 || hour < 1
    ensures b != 0 ==> 2 * b - 1 <= hour <= 2 * b
  {
    if hour >= 23 || hour < 1 then 0 else (hour + 1) / 2
  }

  /** Every double hour other than 子 holds exactly its two clock hours. */
  lemma HourBranchWindow(b: int, hour: int)
    requires 1 <= b < 12
    ensures HourBranch(hour) == b <==> 2 * b - 1 <= hour <= 2 * b
  {
  }

  /**
   * `getShiganBase`: the stem of the 子 hour on a day with the given stem:
   * 甲/己 days start at 甲 (0), 乙/庚 at 丙 (2), 丙/辛 at 戊 (4), 丁/壬 at 庚 (6),
   * 戊/癸 at 壬 (8).
   */
  function HourStemBase(dayStem: int): (r: int)
    requires dayStem >= 0
    ensures 0 <= r <= 8 && r % 2 == 0
    ensures r / 2 == dayStem % 5
  {
    (dayStem % 5) * 2
  }

  /** The stem of the hour pillar: the day's 子-hour stem advanced by the hour's branch. */
  function HourStem(dayStem: int, branch: int): (r: int)
    requires dayStem >= 0 && 0 <= branch < 12
    ensures 0 <= r < 10
    ensures r % 2 == branch % 2
    ensures branch == 0 ==> r == HourStemBase(dayStem)
  {
    (HourStemBase(dayStem) + branch) % 10
  }

  /** Days five stems apart share their hour stems, and each hour advances the stem by one. */
  lemma HourStemCycle(dayStem: int, branch: int)
    requires dayStem >= 0 && 0 <= branch < 11
    ensures HourStem(dayStem + 5, branch) == HourStem(dayStem, branch)
    ensures HourStem(dayStem, branch + 1) == (HourStem(dayStem, branch) + 1) % 10
  {
    assert (dayStem + 5) % 5 == dayStem % 5;
    assert HourStemBase(dayStem + 5) == HourStemBase(dayStem);
    RemSucc(HourStemBase(dayStem) + branch);
  }

  // ---------------------------------------------------------------- year pillar

  /** JavaScript's `x % 60`: the remainder takes the sign of the dividend. */
  function JsRem60(a: int): (r: int)
    ensures -60 < r < 60
    ensures a >= 0 ==> r == a % 60
    ensures a < 0 ==> r <= 0 && (r == 0 || r + 60 == a % 60)
  {
    if a >= 0 then a % 60 else -((-a) % 60)
  }

  /**
   * `((sajuYear - 4) % 60 + 60) % 60`: the year's place in the sixty-year
   * cycle, counted from a 甲子 year (4 CE).
   */
  function YearCycleIndex(sajuYear: int): (r: int)
    ensures 0 <= r < 60
    ensures r == (sajuYear - 4) % 60
  {
    JsRem60(JsRem60(sajuYear - 4) + 60)
  }

  /** The cycle repeats every sixty years; 1984 is a 甲子 year. */
  lemma YearCyclePeriod(y: int)
    ensures YearCycleIndex(y + 60) == YearCycleIndex(y)
    ensures YearCycleIndex(1984) == 0
  {
  }

  /** A position in the sixty-cycle is fixed by its stem and its branch. */
  lemma CycleFromStemAndBranch(a: int, b: int)
    requires 0 <= a < 60 && 0 <= b < 60
    requires a % 10 == b % 10 && a % 12 == b % 12
    ensures a == b
  {
    var qa, qb, r := a / 12, b / 12, a % 12;
    assert a == 12 * qa + r && b == 12 * qb + r;
    assert 0 <= qa < 5 && 0 <= qb < 5;
    assert (12 * qa) % 10 == (12 * qb) % 10;
  }

  /** Adding one to a number adds one to its last decimal digit, modulo ten. */
  lemma RemSucc(k: int)
    requires k >= 0
    ensures (k + 1) % 10 == (k % 10 + 1) % 10
  {
    var q, r := k / 10, k % 10;
    assert k == 10 * q + r;
    if r < 9 {
      assert k + 1 == 10 * q + (r + 1);
    } else {
      assert k + 1 == 10 * (q + 1);
    }
  }

  // ---------------------------------------------------------------- month pillar

  /** The branch of solar month `m` (1 = 寅 month ... 12 = 丑 month): `(m + 1) % 12`. */
  function MonthBranch(m: int): (r: int)
    requires 1 <= m <= 12
    ensures 0 <= r < 12
    ensures m <= 10 ==> r == m + 1
    ensures m > 10 ==> r == m - 11
  {
    (m + 1) % 12
  }

  /** Distinct months have distinct branches: the twelve months use each branch once. */
  lemma MonthBranchInjective(m1: int, m2: int)
    requires 1 <= m1 <= 12 && 1 <= m2 <= 12
    ensures MonthBranch(m1) == MonthBranch(m2) <==> m1 == m2
  {
  }

  /**
   * The stem of solar month `m` in a year with stem `yearStem`:
   * `(yearStem * 2 + 2 + (m - 1)) % 10`.
   */
  function MonthStem(yearStem: int, m: int): (r: int)
    requires yearStem >= 0 && 1 <= m <= 12
    ensures 0 <= r < 10
    ensures r % 2 == MonthBranch(m) % 2
  {
    (yearStem * 2 + 2 + (m - 1)) % 10
  }

  /**
   * The 寅 month of a 甲 or 己 year is 丙寅, and years five stems apart share
   * their month stems.
   */
  lemma MonthStemCycle(yearStem: int, m: int)
    requires yearStem >= 0 && 1 <= m <= 12
    ensures yearStem % 5 == 0 ==> MonthStem(yearStem, 1) == 2
    ensures MonthStem(yearStem + 5, m) == MonthStem(yearStem, m)
  {
    var k := yearStem * 2 + 2 + (m - 1);
    assert (yearStem + 5) * 2 + 2 + (m - 1) == k + 10;
    ShiftTen(k);
    if yearStem % 5 == 0 {
      var q := yearStem / 5;
      assert yearStem * 2 + 2 == 10 * q + 2;
      TensDropped(q, 2);
    }
  }

  /** Adding ten leaves the last decimal digit unchanged. */
  lemma ShiftTen(x: int)
    requires x >= 0
    ensures (x + 10) % 10 == x % 10
  {
    var q, r := x / 10, x % 10;
    assert x + 10 == 10 * (q + 1) + r;
  }

  /** Adding a multiple of ten leaves the last decimal digit unchanged. */
  lemma {:induction false} TensDropped(q: nat, r: int)
    requires r >= 0
    ensures (10 * q + r) % 10 == r % 10
  {
    if q > 0 {
      TensDropped(q - 1, r);
      ShiftTen(10 * (q - 1) + r);
    }
  }

  /** Each month's stem is the one after the previous month's. */
  lemma MonthStemStep(yearStem: int, m: int)
    requires yearStem >= 0 && 1 <= m < 12
    ensures MonthStem(yearStem, m + 1) == (MonthStem(yearStem, m) + 1) % 10
  {
    var k := yearStem * 2 + 2 + (m - 1);
    RemSucc(k);
  }

  // ---------------------------------------------------------------- element tally

  /** How many of the given glyph elements of a pillar, if present, are `e`. */
  function Hits(p: Option<Pillar>, e: string): nat {
    match p
    case None => 0
    case Some(q) => (if q.ohangGan == e then 1 else 0) + (if q.ohangJi == e then 1 else 0)
  }

  /** How often element `e` occurs among the present pillars. */
  function Occurrences(ps: seq<Option<Pillar>>, e: string): nat {
    if ps == [] then 0 else Occurrences(ps[..|ps| - 1], e) + Hits(ps[|ps| - 1], e)
  }

  /** The tally `countOhang` produces: one entry per element. */
  function Tally(ps: seq<Option<Pillar>>): map<string, int> {
    map e | e in ElementSet :: Occurrences(ps, e)
  }

  /** The five tally entries added up. */
  function ElementSum(t: map<string, int>): int
    requires ElementSet <= t.Keys
  {
    t[Wood] + t[Fire] + t[Earth] + t[Metal] + t[Water]
  }

  /** The number of present pillars. */
  function Present(ps: seq<Option<Pillar>>): nat {
    if ps == [] then 0 else Present(ps[..|ps| - 1]) + (if ps[|ps| - 1].Some? then 1 else 0)
  }

  /** Every present pillar's two elements are among the five. */
  predicate ElementsKnown(ps: seq<Option<Pillar>>) {
    forall i :: 0 <= i < |ps| && ps[i].Some? ==> ps[i].value.ohangGan in ElementSet && ps[i].value.ohangJi in ElementSet
  }

  /**
   * `countOhang`: start every element at zero and add one for the stem's and
   * one for the branch's element of every present pillar.
   */
  method CountOhang(ps: seq<Option<Pillar>>) returns (count: map<string, int>)
    requires ElementsKnown(ps)
    ensures count == Tally(ps)
  {
    count := map[Wood := 0, Fire := 0, Earth := 0, Metal := 0, Water := 0];
    TallyEmpty(ps);
    var i := 0;
    while i < |ps|
      invariant 0 <= i <= |ps|
      invariant count == Tally(ps[..i])
    {
      TallyStep(ps, i);
      if ps[i].Some? {
        var p := ps[i].value;
        count := Bump(count, p.ohangGan, p.ohangJi);
      }
      i := i + 1;
    }
    assert ps[..i] == ps;
  }

  /** Extending a prefix by one pillar adds that pillar's hits. */
  lemma OccurrencesSnoc(ps: seq<Option<Pillar>>, i: nat, e: string)
    requires i < |ps|
    ensures Occurrences(ps[..i + 1], e) == Occurrences(ps[..i], e) + Hits(ps[i], e)
  {
    assert ps[..i + 1][..i] == ps[..i];
  }

  /** Before any pillar is counted, every element stands at zero. */
  lemma TallyEmpty(ps: seq<Option<Pillar>>)
    ensures Tally(ps[..0]) == map[Wood := 0, Fire := 0, Earth := 0, Metal := 0, Water := 0]
  {
    assert ps[..0] == [];
  }

  /** `count[g]++; count[j]++`: two entries raised by one each, where the two may be the same entry. */
  function Bump(t: map<string, int>, g: string, j: string): (u: map<string, int>)
    requires g in t && j in t
    ensures u.Keys == t.Keys
    ensures forall e :: e in t ==> u[e] == t[e] + (if e == g then 1 else 0) + (if e == j then 1 else 0)
  {
    var t' := t[g := t[g] + 1];
    t'[j := t'[j] + 1]
  }

  /** One more pillar raises the tally entries of its two elements by one each. */
  lemma TallyStep(ps: seq<Option<Pillar>>, i: nat)
    requires i < |ps| && ElementsKnown(ps)
    ensures ps[i].None? ==> Tally(ps[..i + 1]) == Tally(ps[..i])
    ensures ps[i].Some? ==> ps[i].value.ohangGan in Tally(ps[..i]) && ps[i].value.ohangJi in Tally(ps[..i])
    ensures ps[i].Some? ==> Tally(ps[..i + 1]) == Bump(Tally(ps[..i]), ps[i].value.ohangGan, ps[i].value.ohangJi)
  {
    var t, n := Tally(ps[..i]), Tally(ps[..i + 1]);
    var u := if ps[i].Some? then Bump(t, ps[i].value.ohangGan, ps[i].value.ohangJi) else t;
    forall e | e in ElementSet
      ensures n[e] == u[e]
    {
      OccurrencesSnoc(ps, i, e);
    }
    assert n.Keys == u.Keys;
  }

  /** Both of a pillar's elements are among the five. */
  predicate HasElements(p: Pillar) {
    p.ohangGan in ElementSet && p.ohangJi in ElementSet
  }

  /** A well-formed pillar's two elements are among the five. */
  lemma WellFormedElements(p: Pillar)
    requires WellFormed(p)
    ensures HasElements(p)
  {
    OhangTablesTotal();
  }

  /** The tally of four pillars, the last possibly absent, adds up to 8, or 6 without it. */
  lemma FourPillarsTally(y: Pillar, m: Pillar, d: Pillar, t: Option<Pillar>)
    requires WellFormed(y) && WellFormed(m) && WellFormed(d) && (t.Some? ==> WellFormed(t.value))
    ensures ElementsKnown([Some(y), Some(m), Some(d), t])
    ensures var tally := Tally([Some(y), Some(m), Some(d), t]);
            tally.Keys == ElementSet && ElementSum(tally) == (if t.Some? then 8 else 6)
            && forall e :: e in tally ==> 0 <= tally[e] <= 8
  {
    var ps := [Some(y), Some(m), Some(d), t];
    KnownFour(y, m, d, t);
    PresentFour(y, m, d, t);
    TallyTotal(ps);
    TallyBounded(ps);
  }

  /** Well-formed pillars carry known elements. */
  lemma KnownFour(y: Pillar, m: Pillar, d: Pillar, t: Option<Pillar>)
    requires WellFormed(y) && WellFormed(m) && WellFormed(d) && (t.Some? ==> WellFormed(t.value))
    ensures ElementsKnown([Some(y), Some(m), Some(d), t])
  {
    WellFormedElements(y);
    WellFormedElements(m);
    WellFormedElements(d);
    if t.Some? {
      WellFormedElements(t.value);
    }
  }

  /** Three pillars and an optional hour pillar: three or four are present. */
  lemma PresentFour(y: Pillar, m: Pillar, d: Pillar, t: Option<Pillar>)
    ensures Present([Some(y), Some(m), Some(d), t]) == if t.Some? then 4 else 3
  {
    var ps := [Some(y), Some(m), Some(d), t];
    var p1, p2, p3 := [Some(y)], [Some(y), Some(m)], [Some(y), Some(m), Some(d)];
    assert p1[..0] == [] && p2[..1] == p1 && p3[..2] == p2 && ps[..3] == p3;
    assert Present(p1) == 1;
    assert Present(p2) == 2;
    assert Present(p3) == 3;
  }

  /** No tally entry exceeds two per present pillar. */
  lemma TallyBounded(ps: seq<Option<Pillar>>)
    requires ElementsKnown(ps)
    ensures forall e :: e in Tally(ps) ==> 0 <= Tally(ps)[e] <= 2 * Present(ps)
  {
    TallyTotal(ps);
  }

  /** A present pillar adds two to the tally, spread over its elements. */
  lemma HitsSum(p: Option<Pillar>)
    requires p.Some? ==> p.value.ohangGan in ElementSet && p.value.ohangJi in ElementSet
    ensures Hits(p, Wood) + Hits(p, Fire) + Hits(p, Earth) + Hits(p, Metal) + Hits(p, Water)
            == if p.Some? then 2 else 0
  {
  }

  /** Every present pillar contributes exactly two elements to the tally. */
  lemma {:induction false} TallyTotal(ps: seq<Option<Pillar>>)
    requires ElementsKnown(ps)
    ensures ElementSum(Tally(ps)) == 2 * Present(ps)
  {
    if ps != [] {
      var init := ps[..|ps| - 1];
      assert ElementsKnown(init) by {
        forall i | 0 <= i < |init| ensures init[i] == ps[i] { }
      }
      TallyTotal(init);
      HitsSum(ps[|ps| - 1]);
    }
  }
}
