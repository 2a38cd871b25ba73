/**
 * The vaccination tab: the schedule split into recommended and other
 * vaccines, the badges on their cards, and the age-group cards.
 */
module VaccinationTab {
  import opened Wrappers
  import opened Display
  import opened Seqs

  datatype Vaccination = Vaccination(
    vaccine: string, age: string, doses: int, description: string,
    completed: bool, nextDate: Option<string>, isRecommended: bool)

  datatype AgeBasedVaccination = AgeBasedVaccination(ageGroup: string, vaccines: seq<string>, isCurrentAge: bool)

  function Recommended(vs: seq<Vaccination>): (r: seq<Vaccination>)
    ensures forall i :: 0 <= i < |r| ==> r[i].isRecommended
    ensures forall i :: 0 <= i < |vs| && vs[i].isRecommended ==> vs[i] in r
  {
    Filter(vs, (v: Vaccination) => v.isRecommended)
  }

  function Other(vs: seq<Vaccination>): (r: seq<Vaccination>)
    ensures forall i :: 0 <= i < |r| ==> !r[i].isRecommended
    ensures forall i :: 0 <= i < |vs| && !vs[i].isRecommended ==> vs[i] in r
  {
    Filter(vs, (v: Vaccination) => !v.isRecommended)
  }

  /**
   * The two lists split the schedule: every vaccination is in exactly one,
   * as often as in the schedule, and both keep the schedule's order.
   */
  lemma RecommendedOtherPartition(vs: seq<Vaccination>)
    ensures multiset(Recommended(vs)) + multiset(Other(vs)) == multiset(vs)
    ensures |Recommended(vs)| + |Other(vs)| == |vs|
    ensures forall i, j :: 0 <= i < |Recommended(vs)| && 0 <= j < |Other(vs)| ==> Recommended(vs)[i] != Other(vs)[j]
    ensures IsSubsequence(Recommended(vs), vs) && IsSubsequence(Other(vs), vs)
  {
    var keep := (v: Vaccination) => v.isRecommended;
    var drop := (v: Vaccination) => !v.isRecommended;
    FilterPartition(vs, keep, drop);
    FilterKeepsOrder(vs, keep);
    FilterKeepsOrder(vs, drop);
  }

  /** The optional parts of a vaccine card. */
  datatype VaccineCard = VaccineCard(doneBadge: bool, nextDose: Option<string>)

  /** A recommended vaccine's card: "Выполнено" when done, and the next dose when a date is present. */
  function RecommendedCard(v: Vaccination): (c: VaccineCard)
    ensures c.doneBadge <==> v.completed
    ensures c.nextDose.Some? <==> v.nextDate.Some? && v.nextDate.value != ""
    ensures c.nextDose.Some? ==> c.nextDose == v.nextDate
  {
    VaccineCard(v.completed, if v.nextDate.Some? && v.nextDate.value != "" then v.nextDate else None)
  }

  /** Another vaccine's card: the same "Выполнено" rule, and never a next-dose line. */
  function OtherCard(v: Vaccination): (c: VaccineCard)
    ensures c.doneBadge <==> v.completed
    ensures c.nextDose.None?
  {
    VaccineCard(v.completed, None)
  }

  /** Both lists mark completion the same way. */
  lemma DoneBadgeAgrees(v: Vaccination)
    ensures RecommendedCard(v).doneBadge == OtherCard(v).doneBadge
  {
  }

  /**
   * An age-group card: its title, the `border-primary` outline, the
   * "Ваша группа" badge and one secondary badge per vaccine.
   */
  datatype GroupCard = GroupCard(title: string, outlined: bool, badge: Option<Badge>, vaccines: seq<Badge>)

  /**
   * The card of one age group: the patient's group, and only it, is both
   * outlined and marked "Ваша группа", so outline and badge never disagree;
   * the vaccines are listed in order, one badge each.
   */
  function AgeGroupCard(g: AgeBasedVaccination): (c: GroupCard)
    ensures c.title == g.ageGroup
    ensures c.outlined <==> g.isCurrentAge
    ensures c.badge.Some? <==> c.outlined
    ensures c.badge.Some? ==> c.badge.value == Badge("Ваша группа", Default)
    ensures |c.vaccines| == |g.vaccines|
    ensures forall i :: 0 <= i < |c.vaccines| ==> c.vaccines[i] == Badge(g.vaccines[i], Secondary)
  {
    GroupCard(
      g.ageGroup,
      g.isCurrentAge,
      if g.isCurrentAge then Some(Badge("Ваша группа", Default)) else None,
      seq(|g.vaccines|, i requires 0 <= i < |g.vaccines| => Badge(g.vaccines[i], Secondary)))
  }
}
