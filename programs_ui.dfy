/**
  The program cards (frontend/src/components/ProgramsSection.jsx): one card
  per program in input order, an icon and an emoji looked up by program
  type with a fallback, the "savings" of the quarterly plan and its
  percentage, and the "MOST POPULAR" marker on the third card.
 */
module ProgramsUi {
  import opened Wrappers
  import opened JsValues

  datatype Icon = Star | Zap | Brain | Laptop | Target

  const ProgramIcons: map<string, Icon> := map[
    "little_learners" := Star, "young_explorers" := Zap, "smart_kids" := Brain,
    "tech_teens" := Laptop, "future_leaders" := Target]

  const ProgramEmojis: map<string, string> := map[
    "little_learners" := "\U{1F31F}", "young_explorers" := "\U{1F680}", "smart_kids" := "\U{26A1}",
    "tech_teens" := "\U{1F4BB}", "future_leaders" := "\U{1F3AF}"]

  /** `programIcons[program_type] || Star`. */
  function IconFor(programType: string): (icon: Icon)
    ensures programType in ProgramIcons ==> icon == ProgramIcons[programType]
    ensures programType !in ProgramIcons ==> icon == Star
  {
    if programType in ProgramIcons then ProgramIcons[programType] else Star
  }

  /** `programEmojis[program_type] || '🌟'`: every emoji in the table is a non-empty string. */
  function EmojiFor(programType: string): (emoji: string)
    ensures programType in ProgramEmojis ==> emoji == ProgramEmojis[programType]
    ensures programType !in ProgramEmojis ==> emoji == "\U{1F31F}"
  {
    if programType in ProgramEmojis && ProgramEmojis[programType] != "" then ProgramEmojis[programType]
    else "\U{1F31F}"
  }

  /** The five known types get five different icons and emojis; any other type looks like little_learners. */
  lemma LookupTables(t: string, u: string)
    ensures t in ProgramIcons && u in ProgramIcons && t != u ==> IconFor(t) != IconFor(u)
    ensures t in ProgramEmojis && u in ProgramEmojis && t != u ==> EmojiFor(t) != EmojiFor(u)
    ensures t !in ProgramIcons ==> IconFor(t) == IconFor("little_learners")
    ensures t !in ProgramEmojis ==> EmojiFor(t) == EmojiFor("little_learners")
  {
  }

  /** `monthly_price * 3 - quarterly_price`, a signed amount. */
  function Savings(p: ProgramJson): (s: int)
    ensures s + p.quarterlyPrice == 3 * p.monthlyPrice
    ensures s < 0 <==> p.quarterlyPrice > 3 * p.monthlyPrice
  {
    3 * p.monthlyPrice - p.quarterlyPrice
  }

  /**
    `r` is `Math.round(num / den)` computed exactly: the greatest integer not
    above num/den + 1/2, which rounds halves toward positive infinity.
    Multiplying `r <= num/den + 1/2 < r + 1` through by `2 * den` gives the
    integer form below (the inequalities turn round when `den` is negative).
   */
  predicate IsRoundedQuotient(r: int, num: int, den: int)
  {
    && den != 0
    && (den > 0 ==> 2 * den * r <= 2 * num + den < 2 * den * (r + 1))
    && (den < 0 ==> 2 * den * r >= 2 * num + den > 2 * den * (r + 1))
  }

  lemma MulLess(d: int, a: int, b: int)
    requires d > 0 && d * a < d * b
    ensures a < b
  {
  }

  /** At most one integer is the rounded quotient. */
  lemma RoundedQuotientIsUnique(r1: int, r2: int, num: int, den: int)
    requires IsRoundedQuotient(r1, num, den) && IsRoundedQuotient(r2, num, den)
    ensures r1 == r2
  {
    if den > 0 {
      MulLess(2 * den, r1, r2 + 1);
      MulLess(2 * den, r2, r1 + 1);
    } else {
      MulLess(-2 * den, r1, r2 + 1);
      MulLess(-2 * den, r2, r1 + 1);
    }
  }

  /** Division rounding toward negative infinity, for a divisor of either sign. */
  function FloorDiv(n: int, d: int): (q: int)
    requires d != 0
    ensures d > 0 ==> d * q <= n < d * (q + 1)
    ensures d < 0 ==> d * q >= n > d * (q + 1)
  {
    if d > 0 then n / d else (-n) / (-d)
  }

  /**
    `Math.round((savings / (monthly_price * 3)) * 100)` in exact arithmetic.
    With a monthly price of 0 JavaScript divides by zero and shows NaN or an
    infinity; that case is None.
   */
  function SavingsPercent(p: ProgramJson): (r: Option<int>)
    ensures r.None? <==> p.monthlyPrice == 0
    ensures r.Some? ==> IsRoundedQuotient(r.value, 100 * Savings(p), 3 * p.monthlyPrice)
  {
    if p.monthlyPrice == 0 then None
    else
      var q := FloorDiv(200 * Savings(p) + 3 * p.monthlyPrice, 6 * p.monthlyPrice);
      assert 6 * p.monthlyPrice * q == 2 * (3 * p.monthlyPrice) * q;
      assert 6 * p.monthlyPrice * (q + 1) == 2 * (3 * p.monthlyPrice) * (q + 1);
      Some(q)
  }

  /** A program whose quarter costs three and a half months loses half a month, shown as -17%. */
  lemma HalfMonthLoss(p: ProgramJson)
    requires 0 < p.monthlyPrice && 2 * p.quarterlyPrice == 7 * p.monthlyPrice
    ensures 2 * Savings(p) == -p.monthlyPrice && Savings(p) < 0
    ensures SavingsPercent(p) == Some(-17)
  {
    var m := p.monthlyPrice;
    assert 2 * Savings(p) == -m;
    assert IsRoundedQuotient(-17, 100 * Savings(p), 3 * m);
    RoundedQuotientIsUnique(SavingsPercent(p).value, -17, 100 * Savings(p), 3 * m);
  }

  /** One rendered card. */
  datatype ProgramCard = ProgramCard(
    program: ProgramJson,
    icon: Icon,
    emoji: string,
    savings: int,
    savingsPercent: Option<int>,
    mostPopular: bool,
    features: seq<string>)

  function CardFor(p: ProgramJson, index: nat): ProgramCard
  {
    ProgramCard(p, IconFor(p.programType), EmojiFor(p.programType), Savings(p),
                SavingsPercent(p), index == 2, p.features)
  }

  /** `programs.map((program, index) => …)`. */
  function Cards(programs: seq<ProgramJson>): (cards: seq<ProgramCard>)
    ensures |cards| == |programs|
    ensures forall i :: 0 <= i < |cards| ==> cards[i].program == programs[i]
    ensures forall i :: 0 <= i < |cards| ==> (cards[i].mostPopular <==> i == 2)
    ensures forall i :: 0 <= i < |cards| ==> cards[i].features == programs[i].features
    ensures forall i :: 0 <= i < |cards| ==>
      cards[i].icon == IconFor(programs[i].programType) && cards[i].emoji == EmojiFor(programs[i].programType)
    ensures forall i :: 0 <= i < |cards| ==>
      cards[i].savings == 3 * programs[i].monthlyPrice - programs[i].quarterlyPrice
      && cards[i].savingsPercent == SavingsPercent(programs[i])
  {
    seq(|programs|, i requires 0 <= i < |programs| => CardFor(programs[i], i))
  }

  /** With fewer than three programs no card is marked; with three or more exactly the third is. */
  lemma MostPopularIsTheThirdCard(programs: seq<ProgramJson>)
    ensures |programs| < 3 ==> forall i :: 0 <= i < |programs| ==> !Cards(programs)[i].mostPopular
    ensures |programs| >= 3 ==>
              && Cards(programs)[2].mostPopular
              && forall i :: 0 <= i < |programs| && Cards(programs)[i].mostPopular ==> i == 2
  {
  }
}
