/**
 * The preventive check-up schedule: which age group is the patient's, and
 * when a card shows the date of the next check-up.
 */
module CheckupTab {
  import opened Wrappers

  /** One age group of the schedule; `nextDate` is optional. */
  datatype Checkup = Checkup(
    age: string, period: string,
    examinations: seq<string>, specialists: seq<string>,
    completed: bool, nextDate: Option<string>)

  /** `isCurrentAgeGroup`: only the three known labels can match, each on its own closed range. */
  function IsCurrentAgeGroup(group: string, currentAge: int): (matches: bool)
    ensures group == "18-39 лет" ==> (matches <==> 18 <= currentAge <= 39)
    ensures group == "40-64 лет" ==> (matches <==> 40 <= currentAge <= 64)
    ensures group == "65+ лет" ==> (matches <==> currentAge >= 65)
    ensures matches ==> group in Labels && currentAge >= 18
  {
    if group == "18-39 лет" then 18 <= currentAge <= 39
    else if group == "40-64 лет" then 40 <= currentAge <= 64
    else if group == "65+ лет" then currentAge >= 65
    else false
  }

  const Labels: seq<string> := ["18-39 лет", "40-64 лет", "65+ лет"]

  /**
   * For every age at most one group matches, none under 18, and from 18 on
   * exactly one; a group outside the three never matches.
   */
  lemma AgeGroupsPartition(currentAge: int)
    ensures forall i, j :: 0 <= i < j < |Labels| ==>
              !(IsCurrentAgeGroup(Labels[i], currentAge) && IsCurrentAgeGroup(Labels[j], currentAge))
    ensures currentAge < 18 ==> forall group :: !IsCurrentAgeGroup(group, currentAge)
    ensures currentAge >= 18 ==> exists i :: 0 <= i < |Labels| && IsCurrentAgeGroup(Labels[i], currentAge)
    ensures forall group :: group !in Labels ==> !IsCurrentAgeGroup(group, currentAge)
  {
    if currentAge >= 18 {
      var i := if currentAge <= 39 then 0 else if currentAge <= 64 then 1 else 2;
      assert IsCurrentAgeGroup(Labels[i], currentAge);
    }
  }

  /** What a check-up card shows beyond its fixed text. */
  datatype CheckupCard = CheckupCard(current: bool, nextCheckup: Option<string>)

  /**
   * A card is outlined and marked "current group" when its group matches,
   * and shows the next check-up date only for a completed check-up whose
   * date is present and non-empty.
   */
  function Card(c: Checkup, currentAge: int): (v: CheckupCard)
    ensures v.current <==> IsCurrentAgeGroup(c.age, currentAge)
    ensures v.nextCheckup.Some? <==> c.completed && c.nextDate.Some? && c.nextDate.value != ""
    ensures v.nextCheckup.Some? ==> v.nextCheckup == c.nextDate
  {
    CheckupCard(
      IsCurrentAgeGroup(c.age, currentAge),
      if c.completed && c.nextDate.Some? && c.nextDate.value != "" then c.nextDate else None)
  }
}
