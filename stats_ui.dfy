/**
  The four statistic cards (frontend/src/components/StatsSection.jsx). Each
  value is the fetched field when it is truthy and a fixed text otherwise;
  the educators value always gets one "+" appended. `toLocaleString` is
  locale-dependent and stays a parameter, `localeString`.
 */
module StatsUi {
  import opened Wrappers
  import opened JsValues

  datatype StatItem = StatItem(title: string, value: string)

  /** `stats.total_students?.toLocaleString() || '10,000+'`. */
  function StudentsValue(stats: StatsJson, localeString: int -> string): (v: string)
    ensures v != ""
    ensures stats.totalStudents.Some? && localeString(stats.totalStudents.value) != "" ==>
      v == localeString(stats.totalStudents.value)
    ensures !(stats.totalStudents.Some? && localeString(stats.totalStudents.value) != "") ==> v == "10,000+"
  {
    if stats.totalStudents.Some? && localeString(stats.totalStudents.value) != ""
    then localeString(stats.totalStudents.value)
    else "10,000+"
  }

  /** `stats.success_rate || '99%'`. */
  function SuccessValue(stats: StatsJson): (v: string)
    ensures v != ""
    ensures TruthyString(stats.successRate) ==> v == stats.successRate.value
    ensures !TruthyString(stats.successRate) ==> v == "99%"
  {
    if TruthyString(stats.successRate) then stats.successRate.value else "99%"
  }

  /** `` `${stats.expert_educators || '25'}+` ``. */
  function EducatorsValue(stats: StatsJson): (v: string)
    ensures TruthyNumber(stats.expertEducators) ==> v == NumberToString(stats.expertEducators.value) + "+"
    ensures !TruthyNumber(stats.expertEducators) ==> v == "25+"
  {
    (if TruthyNumber(stats.expertEducators) then NumberToString(stats.expertEducators.value) else "25") + "+"
  }

  /** `stats.support_hours || '24/7'`. */
  function SupportValue(stats: StatsJson): (v: string)
    ensures v != ""
    ensures TruthyString(stats.supportHours) ==> v == stats.supportHours.value
    ensures !TruthyString(stats.supportHours) ==> v == "24/7"
  {
    if TruthyString(stats.supportHours) then stats.supportHours.value else "24/7"
  }

  /** `statItems`: four cards in a fixed order. */
  function StatItems(stats: StatsJson, localeString: int -> string): (items: seq<StatItem>)
    ensures |items| == 4
    ensures items[0].title == "Students Enrolled" && items[1].title == "Success Rate"
    ensures items[2].title == "Expert Educators" && items[3].title == "Learning Support"
    ensures items[0].value == StudentsValue(stats, localeString) && items[1].value == SuccessValue(stats)
    ensures items[2].value == EducatorsValue(stats) && items[3].value == SupportValue(stats)
  {
    [ StatItem("Students Enrolled", StudentsValue(stats, localeString)),
      StatItem("Success Rate", SuccessValue(stats)),
      StatItem("Expert Educators", EducatorsValue(stats)),
      StatItem("Learning Support", SupportValue(stats)) ]
  }

  /** The educators value is its base followed by exactly one "+", whatever the stats. */
  lemma EducatorsHaveOnePlus(stats: StatsJson)
    ensures Occurrences(EducatorsValue(stats), '+') == 1
    ensures EducatorsValue(stats)[|EducatorsValue(stats)| - 1] == '+'
  {
    var base := if TruthyNumber(stats.expertEducators) then NumberToString(stats.expertEducators.value) else "25";
    assert EducatorsValue(stats) == base + "+";
    OccurrencesOfAbsent(base, '+');
    OccurrencesOfConcat(base, "+", '+');
    assert Occurrences("+", '+') == Occurrences([], '+') + 1 by {
      assert "+"[..0] == [];
    }
  }

  /** With the empty stats object `{}` every card shows its fallback. */
  lemma EmptyStatsShowFallbacks(localeString: int -> string)
    ensures StatItems(EmptyStats, localeString)[0].value == "10,000+"
    ensures StatItems(EmptyStats, localeString)[1].value == "99%"
    ensures StatItems(EmptyStats, localeString)[2].value == "25+"
    ensures StatItems(EmptyStats, localeString)[3].value == "24/7"
  {
  }

  /** A stats object missing only `support_hours` shows the fetched values and the "24/7" fallback. */
  lemma MissingSupportHoursFallsBack(stats: StatsJson, localeString: int -> string)
    requires stats.supportHours.None?
    requires stats.totalStudents.Some? && localeString(stats.totalStudents.value) != ""
    requires TruthyString(stats.successRate) && TruthyNumber(stats.expertEducators)
    ensures StatItems(stats, localeString)[0].value == localeString(stats.totalStudents.value)
    ensures StatItems(stats, localeString)[1].value == stats.successRate.value
    ensures StatItems(stats, localeString)[2].value == NumberToString(stats.expertEducators.value) + "+"
    ensures StatItems(stats, localeString)[3].value == "24/7"
  {
  }
}
