/**
 * The lifestyle journal: the sleep, water and steps gauges, the entry list
 * a submitted form is prepended to, and the summary drawn from the newest
 * entry.
 *
 * As in the health diary, a gauge receives its reading as `parseFloat` /
 * `parseInt` would return it, with `None` for NaN; the summary takes the two
 * parsers as parameters.
 */
module Lifestyle {
  import opened Wrappers
  import opened Display

  /** A badge together with the fill of the progress bar beside it, in percent. */
  datatype Gauge = Gauge(badge: Badge, progress: real)

  datatype LifestyleEntry = LifestyleEntry(
    id: string, date: string,
    sleep: string, water: string, steps: string,
    exercise: string, meals: string, notes: string)

  /** The six text inputs of the form. */
  datatype LifestyleForm = LifestyleForm(
    sleep: string, water: string, steps: string,
    exercise: string, meals: string, notes: string)

  const EmptyForm := LifestyleForm("", "", "", "", "", "")

  /**
   * `getSleepStatus`: under 6 hours is too little, over 9 too much (a full
   * bar); in between is normal, and the bar is h / 8 of full, which passes
   * 100 above 8 hours.
   */
  function SleepStatus(h: Option<real>): (r: Option<Gauge>)
    ensures r.None? <==> !IsSet(h, 0.0)
    ensures r.Some? && h.value < 6.0 ==> r.value == Gauge(Badge("Мало", Destructive), h.value * 12.5)
    ensures r.Some? && h.value > 9.0 ==> r.value == Gauge(Badge("Много", Secondary), 100.0)
    ensures r.Some? && 6.0 <= h.value <= 9.0 ==>
              r.value == Gauge(Badge("Норма", Default), h.value * 12.5) && 75.0 <= r.value.progress <= 112.5
  {
    if !IsSet(h, 0.0) then None
    else if h.value < 6.0 then Some(Gauge(Badge("Мало", Destructive), (h.value / 8.0) * 100.0))
    else if h.value > 9.0 then Some(Gauge(Badge("Много", Secondary), 100.0))
    else Some(Gauge(Badge("Норма", Default), (h.value / 8.0) * 100.0))
  }

  /** `getWaterStatus`: under 6 glasses is too little; the bar is capped at full. */
  function WaterStatus(g: Option<int>): (r: Option<Gauge>)
    ensures r.None? <==> !IsSet(g, 0)
    ensures r.Some? ==> r.value.progress <= 100.0
    ensures r.Some? ==> (r.value.badge == Badge("Мало", Secondary) <==> g.value < 6)
    ensures r.Some? ==> (r.value.badge == Badge("Хорошо", Default) <==> g.value >= 6)
  {
    if !IsSet(g, 0) then None
    else if g.value < 6 then Some(Gauge(Badge("Мало", Secondary), (g.value as real / 8.0) * 100.0))
    else Some(Gauge(Badge("Хорошо", Default), Min((g.value as real / 8.0) * 100.0, 100.0)))
  }

  /** `Math.min` on two reals. */
  function Min(a: real, b: real): (m: real)
    ensures m <= a && m <= b && (m == a || m == b)
  {
    if a <= b then a else b
  }

  /** `getStepsStatus`: under 5000 is too few, from 10000 excellent with a full bar. */
  function StepsStatus(s: Option<int>): (r: Option<Gauge>)
    ensures r.None? <==> !IsSet(s, 0)
    ensures r.Some? ==> (r.value.badge == Badge("Мало", Secondary) <==> s.value < 5000)
    ensures r.Some? ==> (r.value.badge == Badge("Хорошо", Default) <==> 5000 <= s.value < 10000)
    ensures r.Some? ==> (r.value.badge == Badge("Отлично", Default) <==> s.value >= 10000)
    ensures r.Some? && s.value > 0 ==> 0.0 < r.value.progress <= 100.0
    ensures r.Some? && s.value >= 10000 ==> r.value.progress == 100.0
  {
    if !IsSet(s, 0) then None
    else if s.value < 5000 then Some(Gauge(Badge("Мало", Secondary), (s.value as real / 10000.0) * 100.0))
    else if s.value >= 10000 then Some(Gauge(Badge("Отлично", Default), 100.0))
    else Some(Gauge(Badge("Хорошо", Default), (s.value as real / 10000.0) * 100.0))
  }

  /** Whatever the label, the steps bar is the count as a share of 10000, capped at full. */
  lemma StepsProgressIsCappedShare(s: int)
    requires s != 0
    ensures StepsStatus(Some(s)).value.progress == Min(s as real / 100.0, 100.0)
  {
  }

  /** Likewise the water bar is the glass count as a share of 8, capped at full. */
  lemma WaterProgressIsCappedShare(g: int)
    requires g != 0
    ensures WaterStatus(Some(g)).value.progress == Min(g as real * 12.5, 100.0)
  {
  }

  /** The sleep bar is not capped in the normal band: 8.5 hours fill it past 100. */
  lemma SleepProgressOverfills()
    ensures SleepStatus(Some(8.5)) == Some(Gauge(Badge("Норма", Default), 106.25))
  {
  }

  /** The three gauges of the summary cards; an absent one is not drawn. */
  datatype Summary = Summary(sleep: Option<Gauge>, water: Option<Gauge>, steps: Option<Gauge>)

  /**
   * The summary cards: the newest entry is "today", and each gauge is drawn
   * only when that entry's field is non-empty. `parseReal` and `parseWhole`
   * stand for `parseFloat` and `parseInt`.
   */
  function TodaySummary(entries: seq<LifestyleEntry>,
                        parseReal: string -> Option<real>,
                        parseWhole: string -> Option<int>): (r: Summary)
    ensures entries == [] ==> r == Summary(None, None, None)
    ensures entries != [] ==>
              && (r.sleep.Some? <==> entries[0].sleep != "" && IsSet(parseReal(entries[0].sleep), 0.0))
              && (r.water.Some? <==> entries[0].water != "" && IsSet(parseWhole(entries[0].water), 0))
              && (r.steps.Some? <==> entries[0].steps != "" && IsSet(parseWhole(entries[0].steps), 0))
    ensures entries != [] && entries[0].sleep != "" ==> r.sleep == SleepStatus(parseReal(entries[0].sleep))
    ensures entries != [] && entries[0].water != "" ==> r.water == WaterStatus(parseWhole(entries[0].water))
    ensures entries != [] && entries[0].steps != "" ==> r.steps == StepsStatus(parseWhole(entries[0].steps))
  {
    if entries == [] then Summary(None, None, None)
    else
      var today := entries[0];
      Summary(
        if today.sleep != "" then SleepStatus(parseReal(today.sleep)) else None,
        if today.water != "" then WaterStatus(parseWhole(today.water)) else None,
        if today.steps != "" then StepsStatus(parseWhole(today.steps)) else None)
  }

  /** Older entries never influence the summary. */
  lemma SummaryUsesNewestOnly(e: LifestyleEntry, older: seq<LifestyleEntry>,
                              parseReal: string -> Option<real>, parseWhole: string -> Option<int>)
    ensures TodaySummary([e] + older, parseReal, parseWhole) == TodaySummary([e], parseReal, parseWhole)
  {
  }

  function EntryOf(f: LifestyleForm, id: string, date: string): LifestyleEntry {
    LifestyleEntry(id, date, f.sleep, f.water, f.steps, f.exercise, f.meals, f.notes)
  }

  /** The one day the journal starts with. */
  const InitialEntries: seq<LifestyleEntry> := [
    LifestyleEntry("1", "2024-11-24", "7.5", "6", "8500", "30", "3",
                   "Утренняя пробежка, чувствую себя хорошо")
  ]

  /** The journal's state: the entries, newest first, and the form. */
  class Journal {
    var entries: seq<LifestyleEntry>
    var form: LifestyleForm

    constructor ()
      ensures entries == InitialEntries && form == EmptyForm
    {
      entries := InitialEntries;
      form := EmptyForm;
    }

    /** The inputs' `onChange` handlers: the form takes the typed values. */
    method Fill(f: LifestyleForm)
      modifies this
      ensures form == f && entries == old(entries)
    {
      form := f;
    }

    /**
     * `handleSubmit`: there is no validation; the form always becomes the
     * new first entry, the earlier ones keep their order, and the form is
     * emptied. By `SummaryUsesNewestOnly` the summary then shows the
     * submitted values alone.
     */
    method Submit(id: string, date: string)
      modifies this
      ensures entries == [EntryOf(old(form), id, date)] + old(entries)
      ensures form == EmptyForm
    {
      entries := [EntryOf(form, id, date)] + entries;
      form := EmptyForm;
    }
  }
}
