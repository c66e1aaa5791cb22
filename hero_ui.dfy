/**
  The four figures of the hero banner (frontend/src/components/HeroSection.jsx).
  They use the same fallbacks as the stats cards except for the educators,
  whose fallback already carries a "+" before the one appended after it.
 */
module HeroUi {
  import opened Wrappers
  import opened JsValues
  import StatsUi

  /** The four figures, in display order: students, success rate, educators, support. */
  function HeroFigures(stats: StatsJson, localeString: int -> string): (figures: seq<string>)
    ensures |figures| == 4
    ensures stats.totalStudents.Some? && localeString(stats.totalStudents.value) != "" ==>
      figures[0] == localeString(stats.totalStudents.value)
    ensures !(stats.totalStudents.Some? && localeString(stats.totalStudents.value) != "") ==> figures[0] == "10,000+"
    ensures TruthyString(stats.successRate) ==> figures[1] == stats.successRate.value
    ensures !TruthyString(stats.successRate) ==> figures[1] == "99%"
    ensures TruthyNumber(stats.expertEducators) ==> figures[2] == NumberToString(stats.expertEducators.value) + "+"
    ensures !TruthyNumber(stats.expertEducators) ==> figures[2] == "25++"
    ensures TruthyString(stats.supportHours) ==> figures[3] == stats.supportHours.value
    ensures !TruthyString(stats.supportHours) ==> figures[3] == "24/7"
    ensures |figures[2]| > 0 && figures[2][|figures[2]| - 1] == '+'
  {
    [ if stats.totalStudents.Some? && localeString(stats.totalStudents.value) != ""
      then localeString(stats.totalStudents.value) else "10,000+",
      if TruthyString(stats.successRate) then stats.successRate.value else "99%",
      (if TruthyNumber(stats.expertEducators) then NumberToString(stats.expertEducators.value) else "25+") + "+",
      if TruthyString(stats.supportHours) then stats.supportHours.value else "24/7" ]
  }

  /** Without a truthy `expert_educators` the banner shows "25++". */
  lemma MissingEducatorsShowsDoublePlus(stats: StatsJson, localeString: int -> string)
    requires !TruthyNumber(stats.expertEducators)
    ensures HeroFigures(stats, localeString)[2] == "25++"
    ensures Occurrences(HeroFigures(stats, localeString)[2], '+') == 2
  {
    assert "25++"[..3] == "25+" && "25+"[..2] == "25" && "25"[..1] == "2" && "2"[..0] == [];
  }

  /**
    The banner and the stats cards show the same students, success-rate and
    support strings for every stats object, and the same educators string
    exactly when `expert_educators` is truthy.
   */
  lemma HeroAgreesWithStats(stats: StatsJson, localeString: int -> string)
    ensures var hero := HeroFigures(stats, localeString);
            var items := StatsUi.StatItems(stats, localeString);
      && hero[0] == items[0].value
      && hero[1] == items[1].value
      && hero[3] == items[3].value
      && (hero[2] == items[2].value <==> TruthyNumber(stats.expertEducators))
  {
    if !TruthyNumber(stats.expertEducators) {
      MissingEducatorsShowsDoublePlus(stats, localeString);
      assert |StatsUi.EducatorsValue(stats)| == 3;
    }
  }
}
