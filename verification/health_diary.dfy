/**
 * The health diary: three reading classifiers (temperature, blood pressure,
 * pulse) and the entry list that a submitted form is prepended to.
 *
 * Entries keep the form's raw strings; a classifier receives the reading as
 * `parseFloat` / `parseInt` would return it, `None` standing for NaN.
 */
module HealthDiary {
  import opened Wrappers
  import opened Display

  datatype DiaryEntry = DiaryEntry(
    id: string, date: string, time: string,
    temperature: string, systolic: string, diastolic: string, pulse: string)

  /** The four text inputs of the "add entry" form. */
  datatype DiaryForm = DiaryForm(temperature: string, systolic: string, diastolic: string, pulse: string)

  datatype FormField = Temperature | Systolic | Diastolic | Pulse

  const EmptyForm := DiaryForm("", "", "", "")

  const TemperatureLow := Badge("Низкая", Secondary)
  const TemperatureNormal := Badge("Норма", Default)
  const TemperatureHigh := Badge("Высокая", Destructive)

  const PressureLow := Badge("Низкое", Secondary)
  const PressureNormal := Badge("Норма", Default)
  const PressureHigh := Badge("Высокое", Destructive)

  const PulseLow := Badge("Низкий", Secondary)
  const PulseNormal := Badge("Норма", Default)
  const PulseHigh := Badge("Высокий", Destructive)

  /** Body temperature: normal on the closed interval [36, 37.2]. */
  function TemperatureStatus(t: Option<real>): (r: Option<Badge>)
    ensures r.None? <==> !IsSet(t, 0.0)
    ensures r == Some(TemperatureLow) <==> IsSet(t, 0.0) && t.value < 36.0
    ensures r == Some(TemperatureNormal) <==> t.Some? && 36.0 <= t.value <= 37.2
    ensures r == Some(TemperatureHigh) <==> t.Some? && t.value > 37.2
  {
    if !IsSet(t, 0.0) then None
    else if t.value < 36.0 then Some(TemperatureLow)
    else if t.value > 37.2 then Some(TemperatureHigh)
    else Some(TemperatureNormal)
  }

  /**
   * Blood pressure from systolic `s` and diastolic `d`. The "high" test runs
   * first, so one high reading makes the pair high even when the other is low.
   */
  function PressureStatus(s: Option<int>, d: Option<int>): (r: Option<Badge>)
    ensures r.None? <==> !IsSet(s, 0) || !IsSet(d, 0)
    ensures r == Some(PressureHigh) <==> IsSet(s, 0) && IsSet(d, 0) && (s.value > 140 || d.value > 90)
    ensures r == Some(PressureNormal) <==>
              s.Some? && d.Some? && 90 <= s.value <= 140 && 60 <= d.value <= 90
    ensures r == Some(PressureLow) <==>
              IsSet(s, 0) && IsSet(d, 0) && s.value <= 140 && d.value <= 90 && (s.value < 90 || d.value < 60)
  {
    if !IsSet(s, 0) || !IsSet(d, 0) then None
    else if s.value > 140 || d.value > 90 then Some(PressureHigh)
    else if s.value < 90 || d.value < 60 then Some(PressureLow)
    else Some(PressureNormal)
  }

  /** Pulse in beats per minute: 60 and 100 are still normal. */
  function PulseStatus(p: Option<int>): (r: Option<Badge>)
    ensures r.None? <==> !IsSet(p, 0)
    ensures r == Some(PulseLow) <==> IsSet(p, 0) && p.value < 60
    ensures r == Some(PulseNormal) <==> p.Some? && 60 <= p.value <= 100
    ensures r == Some(PulseHigh) <==> p.Some? && p.value > 100
  {
    if !IsSet(p, 0) then None
    else if p.value > 100 then Some(PulseHigh)
    else if p.value < 60 then Some(PulseLow)
    else Some(PulseNormal)
  }

  /** An independent reading of the pressure rule: each side on its own scale. */
  datatype Severity = Normal | Low | High

  /** Normal < Low < High: a high side outranks a low one. */
  function Rank(v: Severity): nat {
    match v
    case Normal => 0
    case Low => 1
    case High => 2
  }

  function Worse(a: Severity, b: Severity): Severity {
    if Rank(a) >= Rank(b) then a else b
  }

  function SideSeverity(v: int, lo: int, hi: int): Severity {
    if v > hi then High else if v < lo then Low else Normal
  }

  function PressureBadge(v: Severity): Badge {
    match v
    case Normal => PressureNormal
    case Low => PressureLow
    case High => PressureHigh
  }

  /**
   * The pressure badge is the worse of the systolic severity on [90, 140]
   * and the diastolic severity on [60, 90].
   */
  lemma PressureIsWorseSide(s: int, d: int)
    requires s != 0 && d != 0
    ensures PressureStatus(Some(s), Some(d))
              == Some(PressureBadge(Worse(SideSeverity(s, 90, 140), SideSeverity(d, 60, 90))))
  {
  }

  /** High wins over low: a systolic above 140 is high whatever the diastolic. */
  lemma HighBeforeLow(s: int, d: int)
    requires s > 140 && d != 0
    ensures PressureStatus(Some(s), Some(d)) == Some(PressureHigh)
  {
  }

  /** The form carries a reading: diastolic alone does not count. */
  predicate HasReading(f: DiaryForm) {
    f.temperature != "" || f.systolic != "" || f.pulse != ""
  }

  function EntryOf(f: DiaryForm, id: string, date: string, time: string): DiaryEntry {
    DiaryEntry(id, date, time, f.temperature, f.systolic, f.diastolic, f.pulse)
  }

  /** The two readings the diary starts with, newest first. */
  const InitialEntries: seq<DiaryEntry> := [
    DiaryEntry("1", "2024-11-24", "08:00", "36.6", "120", "80", "72"),
    DiaryEntry("2", "2024-11-23", "20:00", "36.8", "125", "82", "75")
  ]

  /** The diary component's state: the entries, newest first, and the form. */
  class Diary {
    var entries: seq<DiaryEntry>
    var form: DiaryForm

    constructor ()
      ensures entries == InitialEntries && form == EmptyForm
    {
      entries := InitialEntries;
      form := EmptyForm;
    }

    /** An input's `onChange`: one field takes the typed text. */
    method Edit(field: FormField, value: string)
      modifies this
      ensures entries == old(entries)
      ensures form == match field
        case Temperature => old(form).(temperature := value)
        case Systolic => old(form).(systolic := value)
        case Diastolic => old(form).(diastolic := value)
        case Pulse => old(form).(pulse := value)
    {
      match field
      case Temperature => form := form.(temperature := value);
      case Systolic => form := form.(systolic := value);
      case Diastolic => form := form.(diastolic := value);
      case Pulse => form := form.(pulse := value);
    }

    /**
     * `handleSubmit`: without a temperature, systolic or pulse value nothing
     * changes; otherwise one entry built from the form goes in front of the
     * earlier entries, which keep their order, and the form is emptied.
     * `id`, `date` and `time` stand for `Date.now()` and the clock.
     */
    method Submit(id: string, date: string, time: string)
      modifies this
      ensures !HasReading(old(form)) ==> entries == old(entries) && form == old(form)
      ensures HasReading(old(form)) ==>
                && entries == [EntryOf(old(form), id, date, time)] + old(entries)
                && form == EmptyForm
      ensures |entries| == |old(entries)| + (if HasReading(old(form)) then 1 else 0)
      ensures entries[|entries| - |old(entries)|..] == old(entries)
    {
      if !HasReading(form) {
        return;
      }
      entries := [EntryOf(form, id, date, time)] + entries;
      form := EmptyForm;
    }
  }
}
