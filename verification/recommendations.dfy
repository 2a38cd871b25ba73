/**
 * The specialists' recommendations: a list of records that a validated form
 * is prepended to, two per-record toggles, the active / completed split and
 * the icon and priority helpers used when the list is drawn.
 */
module Recommendations {
  import opened Wrappers
  import opened Display
  import opened Text
  import opened Seqs

  datatype Recommendation = Recommendation(
    id: string,
    specialist: string,
    specialistType: string,
    date: string,
    title: string,
    description: string,
    reminder: bool,
    reminderTime: Option<string>,
    completed: bool,
    priority: string)

  /** The "new recommendation" form; `priority` is one of "high", "medium", "low". */
  datatype RecommendationForm = RecommendationForm(
    specialist: string,
    specialistType: string,
    title: string,
    description: string,
    reminder: bool,
    reminderTime: string,
    priority: string)

  const BlankForm := RecommendationForm("", "", "", "", false, "", "medium")

  /** The form may be submitted only with a specialist and a title. */
  predicate Complete(f: RecommendationForm) {
    f.specialist != "" && f.title != ""
  }

  /** The record a submitted form becomes; `id` and `date` come from the clock. */
  function RecordOf(f: RecommendationForm, id: string, date: string): (r: Recommendation)
    ensures !r.completed && r.priority == f.priority && r.reminder == f.reminder
    ensures r.id == id && r.date == date && r.reminderTime == Some(f.reminderTime)
    ensures r.specialist == f.specialist && r.specialistType == f.specialistType
    ensures r.title == f.title && r.description == f.description
  {
    Recommendation(id, f.specialist, f.specialistType, date, f.title, f.description,
                   f.reminder, Some(f.reminderTime), false, f.priority)
  }

  /**
   * `toggleCompleted(id)`: the records with that id have `completed` flipped;
   * every other field of every record, the length and the order stay.
   */
  function WithCompletedToggled(rs: seq<Recommendation>, id: string): (r: seq<Recommendation>)
    ensures |r| == |rs|
    ensures forall i :: 0 <= i < |r| ==> r[i].(completed := rs[i].completed) == rs[i]
    ensures forall i :: 0 <= i < |r| ==> (r[i].completed != rs[i].completed <==> rs[i].id == id)
  {
    seq(|rs|, i requires 0 <= i < |rs| =>
      if rs[i].id == id then rs[i].(completed := !rs[i].completed) else rs[i])
  }

  /** `toggleReminder(id)`: the same shape, on the `reminder` field. */
  function WithReminderToggled(rs: seq<Recommendation>, id: string): (r: seq<Recommendation>)
    ensures |r| == |rs|
    ensures forall i :: 0 <= i < |r| ==> r[i].(reminder := rs[i].reminder) == rs[i]
    ensures forall i :: 0 <= i < |r| ==> (r[i].reminder != rs[i].reminder <==> rs[i].id == id)
  {
    seq(|rs|, i requires 0 <= i < |rs| =>
      if rs[i].id == id then rs[i].(reminder := !rs[i].reminder) else rs[i])
  }

  /** Toggling `completed` twice with the same id restores the list. */
  lemma {:induction false} ToggleCompletedTwice(rs: seq<Recommendation>, id: string)
    ensures WithCompletedToggled(WithCompletedToggled(rs, id), id) == rs
  {
    var once := WithCompletedToggled(rs, id);
    var twice := WithCompletedToggled(once, id);
    forall i | 0 <= i < |rs|
      ensures twice[i] == rs[i]
    {
      assert once[i].id == rs[i].id;
    }
  }

  /** Toggling `reminder` twice with the same id restores the list. */
  lemma {:induction false} ToggleReminderTwice(rs: seq<Recommendation>, id: string)
    ensures WithReminderToggled(WithReminderToggled(rs, id), id) == rs
  {
    var once := WithReminderToggled(rs, id);
    var twice := WithReminderToggled(once, id);
    forall i | 0 <= i < |rs|
      ensures twice[i] == rs[i]
    {
      assert once[i].id == rs[i].id;
    }
  }

  /** The two toggles touch different fields, so their order does not matter. */
  lemma {:induction false} TogglesCommute(rs: seq<Recommendation>, a: string, b: string)
    ensures WithReminderToggled(WithCompletedToggled(rs, a), b)
         == WithCompletedToggled(WithReminderToggled(rs, b), a)
  {
    var left := WithReminderToggled(WithCompletedToggled(rs, a), b);
    var right := WithCompletedToggled(WithReminderToggled(rs, b), a);
    forall i | 0 <= i < |rs|
      ensures left[i] == right[i]
    {
      assert WithCompletedToggled(rs, a)[i].id == rs[i].id;
      assert WithReminderToggled(rs, b)[i].id == rs[i].id;
    }
  }

  /** The records still to do, in list order. */
  function Active(rs: seq<Recommendation>): (r: seq<Recommendation>)
    ensures forall i :: 0 <= i < |r| ==> !r[i].completed
    ensures forall i :: 0 <= i < |rs| && !rs[i].completed ==> rs[i] in r
  {
    Filter(rs, (x: Recommendation) => !x.completed)
  }

  /** The records already done, in list order. */
  function Completed(rs: seq<Recommendation>): (r: seq<Recommendation>)
    ensures forall i :: 0 <= i < |r| ==> r[i].completed
    ensures forall i :: 0 <= i < |rs| && rs[i].completed ==> rs[i] in r
  {
    Filter(rs, (x: Recommendation) => x.completed)
  }

  /**
   * The two lists split the records: together they hold every record as many
   * times as the list does, no record is in both, and each keeps list order.
   */
  lemma ActiveCompletedPartition(rs: seq<Recommendation>)
    ensures multiset(Active(rs)) + multiset(Completed(rs)) == multiset(rs)
    ensures |Active(rs)| + |Completed(rs)| == |rs|
    ensures forall i, j :: 0 <= i < |Active(rs)| && 0 <= j < |Completed(rs)| ==> Active(rs)[i] != Completed(rs)[j]
    ensures IsSubsequence(Active(rs), rs) && IsSubsequence(Completed(rs), rs)
  {
    var keep := (x: Recommendation) => !x.completed;
    var drop := (x: Recommendation) => x.completed;
    FilterPartition(rs, keep, drop);
    FilterKeepsOrder(rs, keep);
    FilterKeepsOrder(rs, drop);
  }

  /** The icons a specialist card can show. */
  datatype Icon = Heart | Activity | Stethoscope | UtensilsCrossed | Brain | UserCircle

  /** The specialty stems tried in order against the lower-cased type. */
  const IconRules: seq<Rule<Icon>> := [
    Rule(["кардио"], Heart),
    Rule(["эндокрино"], Activity),
    Rule(["терапевт"], Stethoscope),
    Rule(["диетолог"], UtensilsCrossed),
    Rule(["невролог"], Brain)
  ]

  /**
   * `getSpecialistIcon`: the icon of the first stem inside the lower-cased
   * specialty, and `UserCircle` when there is none.
   */
  function SpecialistIcon(specialistType: string): (icon: Icon)
    ensures icon == UserCircle <==> NoneFires(Lower(specialistType), IconRules)
    ensures forall i :: FirstToFire(Lower(specialistType), IconRules, i) ==> icon == IconRules[i].outcome
  {
    NoStemFallsBack();
    Dispatch(Lower(specialistType), IconRules, UserCircle)
  }

  /** Every stem has an icon of its own: none of them is the fallback. */
  lemma NoStemFallsBack()
    ensures forall i :: 0 <= i < |IconRules| ==> IconRules[i].outcome != UserCircle
  {
  }

  /** The specialties of the initial records get their own icons. */
  lemma FixtureIcons()
    ensures SpecialistIcon("Кардиолог") == Heart
    ensures SpecialistIcon("Эндокринолог") == Activity
    ensures SpecialistIcon("Терапевт") == Stethoscope
    ensures SpecialistIcon("Диетолог") == UtensilsCrossed
  {
    CardiologistIcon();
    EndocrinologistIcon();
    TherapistIcon();
    DietitianIcon();
  }

  lemma CardiologistIcon()
    ensures SpecialistIcon("Кардиолог") == Heart
  {
    var text := "кардиолог";
    LowerCardiologist("Кардиолог");
    assert OccursAt(text, IconRules[0].keywords[0], 0);
  }

  lemma LowerCardiologist(q: string)
    requires q == "Кардиолог"
    ensures Lower(q) == "кардиолог"
  {
  }

  lemma EndocrinologistIcon()
    ensures SpecialistIcon("Эндокринолог") == Activity
  {
    var text := "эндокринолог";
    LowerEndocrinologist("Эндокринолог");
    QuietEndocrinologist0(text);
    assert OccursAt(text, IconRules[1].keywords[0], 0);
  }

  lemma LowerEndocrinologist(q: string)
    requires q == "Эндокринолог"
    ensures Lower(q) == "эндокринолог"
  {
  }

  lemma QuietEndocrinologist0(text: string)
    requires text == "эндокринолог"
    ensures !Fires(text, IconRules[0])
  {
    SilentRule(text, IconRules[0]);
  }

  lemma TherapistIcon()
    ensures SpecialistIcon("Терапевт") == Stethoscope
  {
    var text := "терапевт";
    LowerTherapist("Терапевт");
    QuietTherapist0(text);
    QuietTherapist1(text);
    assert OccursAt(text, IconRules[2].keywords[0], 0);
  }

  lemma LowerTherapist(q: string)
    requires q == "Терапевт"
    ensures Lower(q) == "терапевт"
  {
  }

  lemma QuietTherapist0(text: string)
    requires text == "терапевт"
    ensures !Fires(text, IconRules[0])
  {
    SilentRule(text, IconRules[0]);
  }

  lemma QuietTherapist1(text: string)
    requires text == "терапевт"
    ensures !Fires(text, IconRules[1])
  {
    SilentRule(text, IconRules[1]);
  }

  lemma DietitianIcon()
    ensures SpecialistIcon("Диетолог") == UtensilsCrossed
  {
    var text := "диетолог";
    LowerDietitian("Диетолог");
    QuietDietitian0(text);
    QuietDietitian1(text);
    QuietDietitian2(text);
    assert OccursAt(text, IconRules[3].keywords[0], 0);
  }

  lemma LowerDietitian(q: string)
    requires q == "Диетолог"
    ensures Lower(q) == "диетолог"
  {
  }

  lemma QuietDietitian0(text: string)
    requires text == "диетолог"
    ensures !Fires(text, IconRules[0])
  {
    SilentRule(text, IconRules[0]);
  }

  lemma QuietDietitian1(text: string)
    requires text == "диетолог"
    ensures !Fires(text, IconRules[1])
  {
    SilentRule(text, IconRules[1]);
  }

  lemma QuietDietitian2(text: string)
    requires text == "диетолог"
    ensures !Fires(text, IconRules[2])
  {
    SilentRule(text, IconRules[2]);
  }

  /** `getPriorityLabel`: any priority other than "high" and "low" reads as medium. */
  function PriorityLabel(priority: string): (name: string)
    ensures name == "Высокий" <==> priority == "high"
    ensures name == "Низкий" <==> priority == "low"
    ensures name == "Средний" <==> priority != "high" && priority != "low"
  {
    if priority == "high" then "Высокий"
    else if priority == "low" then "Низкий"
    else "Средний"
  }

  /** `getPriorityColor`: the badge variant, `Default` for medium and anything unknown. */
  function PriorityVariant(priority: string): (v: Variant)
    ensures v == Destructive <==> priority == "high"
    ensures v == Secondary <==> priority == "low"
    ensures v == Default <==> priority != "high" && priority != "low"
  {
    if priority == "high" then Destructive
    else if priority == "low" then Secondary
    else Default
  }

  /** Label and colour agree: a high label is red, a low one grey, the rest plain. */
  lemma PriorityLabelMatchesVariant(priority: string)
    ensures PriorityLabel(priority) == "Высокий" <==> PriorityVariant(priority) == Destructive
    ensures PriorityLabel(priority) == "Низкий" <==> PriorityVariant(priority) == Secondary
    ensures PriorityLabel(priority) == "Средний" <==> PriorityVariant(priority) == Default
  {
  }

  /** The four records the page starts with; the last one is already completed. */
  const InitialRecommendations: seq<Recommendation> := [
    Recommendation("1", "Доктор Иванов А.П.", "Кардиолог", "2024-11-20",
      "Контроль артериального давления",
      "Измерять давление утром и вечером, записывать в дневник. При показателях выше 140/90 связаться с врачом.",
      true, Some("09:00"), false, "high"),
    Recommendation("2", "Доктор Петрова Е.С.", "Эндокринолог", "2024-11-18",
      "Контроль уровня глюкозы",
      "Проверять уровень сахара в крови натощак 3 раза в неделю. Поддерживать показатели в пределах 4.0-6.0 ммоль/л.",
      true, Some("08:00"), false, "high"),
    Recommendation("3", "Доктор Сидоров М.В.", "Терапевт", "2024-11-15",
      "Физическая активность",
      "Ежедневная ходьба не менее 30 минут в умеренном темпе. Избегать интенсивных нагрузок.",
      true, Some("18:00"), false, "medium"),
    Recommendation("4", "Диетолог Смирнова О.И.", "Диетолог", "2024-11-10",
      "Диетические рекомендации",
      "Ограничить соль до 5г в день, увеличить потребление овощей и фруктов. Исключить жареное и копченое.",
      false, None, true, "medium")
  ]

  /** Three of the initial records are still active and one is completed. */
  lemma InitialSplit()
    ensures |Active(InitialRecommendations)| == 3 && |Completed(InitialRecommendations)| == 1
  {
    SplitOfFour(InitialRecommendations);
  }

  /** Four records of which only the last is completed split three to one. */
  lemma SplitOfFour(rs: seq<Recommendation>)
    requires |rs| == 4 && !rs[0].completed && !rs[1].completed && !rs[2].completed && rs[3].completed
    ensures |Active(rs)| == 3 && |Completed(rs)| == 1
  {
    var done := (x: Recommendation) => x.completed;
    assert Filter(rs[3..], done) == [rs[3]] by {
      assert rs[3..][1..] == [];
    }
    assert Filter(rs[2..], done) == Filter(rs[3..], done) by {
      assert rs[2..][1..] == rs[3..];
    }
    assert Filter(rs[1..], done) == Filter(rs[2..], done) by {
      assert rs[1..][1..] == rs[2..];
    }
    assert Completed(rs) == [rs[3]];
    ActiveCompletedPartition(rs);
  }

  /** The component's state: the records (newest first), the form and its visibility. */
  class Board {
    var recommendations: seq<Recommendation>
    var form: RecommendationForm
    var showForm: bool

    constructor ()
      ensures recommendations == InitialRecommendations && form == BlankForm && !showForm
    {
      recommendations := InitialRecommendations;
      form := BlankForm;
      showForm := false;
    }

    /** The header button: shows or hides the form. */
    method ToggleForm()
      modifies this
      ensures showForm == !old(showForm)
      ensures recommendations == old(recommendations) && form == old(form)
    {
      showForm := !showForm;
    }

    /** The inputs' `onChange` handlers: the form takes the typed values. */
    method Fill(f: RecommendationForm)
      modifies this
      ensures form == f
      ensures recommendations == old(recommendations) && showForm == old(showForm)
    {
      form := f;
    }

    /**
     * `handleSubmit`: without a specialist or a title nothing changes;
     * otherwise the form becomes a not-yet-completed record in front of the
     * earlier ones, the form is cleared and hidden.
     */
    method Submit(id: string, date: string)
      modifies this
      ensures !Complete(old(form)) ==> recommendations == old(recommendations) && form == old(form) && showForm == old(showForm)
      ensures Complete(old(form)) ==>
                && recommendations == [RecordOf(old(form), id, date)] + old(recommendations)
                && form == BlankForm && !showForm
      ensures |recommendations| == |old(recommendations)| + (if Complete(old(form)) then 1 else 0)
      ensures recommendations[|recommendations| - |old(recommendations)|..] == old(recommendations)
    {
      if !Complete(form) {
        return;
      }
      recommendations := [RecordOf(form, id, date)] + recommendations;
      form := BlankForm;
      showForm := false;
    }

    /** The "done" button of a card. */
    method ToggleCompleted(id: string)
      modifies this
      ensures recommendations == WithCompletedToggled(old(recommendations), id)
      ensures form == old(form) && showForm == old(showForm)
    {
      recommendations := WithCompletedToggled(recommendations, id);
    }

    /** The reminder switch of a card. */
    method ToggleReminder(id: string)
      modifies this
      ensures recommendations == WithReminderToggled(old(recommendations), id)
      ensures form == old(form) && showForm == old(showForm)
    {
      recommendations := WithReminderToggled(recommendations, id);
    }
  }
}
