/**
 * The fitness watch page: the heart-rate and stress classifiers, the
 * five-second tick that jitters the live metrics, the "today so far" slice of
 * the hourly table with its stress colours and average, and the goal
 * percentages.
 *
 * `Math.random()` draws are parameters in [0, 1); the clock's hour and the
 * sync time are parameters too.
 */
module FitnessTracker {
  import opened Display
  import opened Seqs

  datatype Metrics = Metrics(
    heartRate: int, steps: int, calories: int, distance: real,
    activeMinutes: int, stress: int, oxygen: int, temperature: real)

  const InitialMetrics := Metrics(72, 8234, 1845, 5.8, 143, 35, 98, 36.6)

  /** A classifier's answer: its text, the text colour class and the badge variant. */
  datatype Reading = Reading(text: string, color: string, variant: Variant)

  /** `getHeartRateStatus`: 60 to 100 beats per minute inclusive is normal. */
  function HeartRateStatus(hr: int): (r: Reading)
    ensures r.text == "Низкий" <==> hr < 60
    ensures r.text == "Норма" <==> 60 <= hr <= 100
    ensures r.text == "Высокий" <==> hr > 100
    ensures r.variant == Secondary <==> hr < 60
    ensures r.variant == Destructive <==> hr > 100
  {
    if hr < 60 then Reading("Низкий", "text-blue-500", Secondary)
    else if hr > 100 then Reading("Высокий", "text-red-500", Destructive)
    else Reading("Норма", "text-green-500", Default)
  }

  /** `getStressLevel`: below 30 low, below 60 medium, otherwise high. */
  function StressLevel(stress: int): (r: Reading)
    ensures r.text == "Низкий" <==> stress < 30
    ensures r.text == "Средний" <==> 30 <= stress < 60
    ensures r.text == "Высокий" <==> stress >= 60
  {
    if stress < 30 then Reading("Низкий", "text-green-500", Default)
    else if stress < 60 then Reading("Средний", "text-yellow-500", Secondary)
    else Reading("Высокий", "text-red-500", Destructive)
  }

  /** Every stress value falls in exactly one of the three levels. */
  lemma StressLevelsPartition(stress: int)
    ensures StressLevel(stress).text in {"Низкий", "Средний", "Высокий"}
    ensures StressLevel(stress).variant in {Default, Secondary, Destructive}
  {
  }

  /** The colour class of one bar in the hourly stress chart. */
  function StressBarColor(stress: int): (c: string)
    ensures c == "bg-green-500/20 hover:bg-green-500/40" <==> stress < 30
    ensures c == "bg-yellow-500/20 hover:bg-yellow-500/40" <==> 30 <= stress < 60
    ensures c == "bg-red-500/20 hover:bg-red-500/40" <==> stress >= 60
  {
    if stress < 30 then "bg-green-500/20 hover:bg-green-500/40"
    else if stress < 60 then "bg-yellow-500/20 hover:bg-yellow-500/40"
    else "bg-red-500/20 hover:bg-red-500/40"
  }

  /** The chart and the live badge use the same 30 / 60 thresholds: green, yellow and red agree. */
  lemma BarColorAgreesWithLevel(stress: int)
    ensures (StressBarColor(stress) == "bg-green-500/20 hover:bg-green-500/40") <==> (StressLevel(stress).color == "text-green-500")
    ensures (StressBarColor(stress) == "bg-yellow-500/20 hover:bg-yellow-500/40") <==> (StressLevel(stress).color == "text-yellow-500")
    ensures (StressBarColor(stress) == "bg-red-500/20 hover:bg-red-500/40") <==> (StressLevel(stress).color == "text-red-500")
  {
  }

  /** `Math.floor(Math.random() * n)`: a whole number from 0 to n - 1. */
  function Scaled(draw: real, n: nat): (k: int)
    requires 0.0 <= draw < 1.0 && n > 0
    ensures 0 <= k < n
    ensures k as real <= draw * n as real < k as real + 1.0
  {
    assert draw * n as real < n as real by {
      assert draw * n as real < 1.0 * n as real;
    }
    (draw * n as real).Floor
  }

  /** `Math.max(lo, Math.min(hi, v))`. */
  function Clamp(lo: int, hi: int, v: int): (r: int)
    requires lo <= hi
    ensures lo <= r <= hi
    ensures lo <= v <= hi ==> r == v
    ensures v < lo ==> r == lo
    ensures v > hi ==> r == hi
  {
    if v > hi then hi else if v < lo then lo else v
  }

  /** The four random draws one tick consumes, in the order the source makes them. */
  datatype Draws = Draws(heart: real, steps: real, calories: real, stress: real)

  predicate ValidDraws(d: Draws) {
    0.0 <= d.heart < 1.0 && 0.0 <= d.steps < 1.0 && 0.0 <= d.calories < 1.0 && 0.0 <= d.stress < 1.0
  }

  /**
   * The metrics after one tick: heart rate moves by -3 to +2, steps grow by
   * 0 to 9, calories by 0 to 4, stress moves by -5 to +4 and is kept in
   * [0, 100]; distance, active minutes, oxygen and temperature stay.
   */
  function Jitter(m: Metrics, d: Draws): (r: Metrics)
    requires ValidDraws(d)
    ensures m.heartRate - 3 <= r.heartRate <= m.heartRate + 2
    ensures m.steps <= r.steps <= m.steps + 9
    ensures m.calories <= r.calories <= m.calories + 4
    ensures 0 <= r.stress <= 100
    ensures 0 <= m.stress <= 100 ==> m.stress - 5 <= r.stress <= m.stress + 4
    ensures r.(heartRate := m.heartRate, steps := m.steps, calories := m.calories, stress := m.stress) == m
  {
    m.(heartRate := m.heartRate + Scaled(d.heart, 6) - 3,
       steps := m.steps + Scaled(d.steps, 10),
       calories := m.calories + Scaled(d.calories, 5),
       stress := Clamp(0, 100, m.stress + Scaled(d.stress, 10) - 5))
  }

  /** The metrics after a run of ticks, one set of draws per tick. */
  function Run(m: Metrics, ds: seq<Draws>): Metrics
    requires forall i :: 0 <= i < |ds| ==> ValidDraws(ds[i])
    decreases |ds|
  {
    if ds == [] then m else Run(Jitter(m, ds[0]), ds[1..])
  }

  /**
   * However many ticks run, stress stays in [0, 100], steps and calories
   * never fall, and heart rate drifts by at most 3 down or 2 up per tick.
   */
  lemma {:induction false} RunBounds(m: Metrics, ds: seq<Draws>)
    requires forall i :: 0 <= i < |ds| ==> ValidDraws(ds[i])
    requires 0 <= m.stress <= 100
    ensures 0 <= Run(m, ds).stress <= 100
    ensures Run(m, ds).steps >= m.steps && Run(m, ds).calories >= m.calories
    ensures m.heartRate - 3 * |ds| <= Run(m, ds).heartRate <= m.heartRate + 2 * |ds|
    ensures Run(m, ds).distance == m.distance && Run(m, ds).oxygen == m.oxygen
    decreases |ds|
  {
    if ds != [] {
      RunBounds(Jitter(m, ds[0]), ds[1..]);
    }
  }

  /** One row of the fixed hourly table. */
  datatype HourlyData = HourlyData(hour: string, heartRate: int, steps: int, calories: int, stress: int)

  const Hourly: seq<HourlyData> := [
    HourlyData("00:00", 58, 0, 60, 15), HourlyData("01:00", 56, 0, 65, 12),
    HourlyData("02:00", 55, 0, 62, 10), HourlyData("03:00", 54, 0, 61, 10),
    HourlyData("04:00", 55, 0, 63, 12), HourlyData("05:00", 57, 0, 68, 15),
    HourlyData("06:00", 62, 125, 85, 25), HourlyData("07:00", 68, 543, 142, 32),
    HourlyData("08:00", 75, 892, 198, 38), HourlyData("09:00", 78, 1234, 256, 42),
    HourlyData("10:00", 72, 1456, 287, 35), HourlyData("11:00", 70, 1698, 315, 30),
    HourlyData("12:00", 74, 2123, 389, 28), HourlyData("13:00", 76, 2567, 445, 32),
    HourlyData("14:00", 82, 3234, 567, 48), HourlyData("15:00", 88, 4123, 698, 55),
    HourlyData("16:00", 85, 5234, 856, 50), HourlyData("17:00", 90, 6456, 1025, 58),
    HourlyData("18:00", 78, 7234, 1198, 42), HourlyData("19:00", 72, 7856, 1345, 35),
    HourlyData("20:00", 70, 8123, 1456, 32), HourlyData("21:00", 68, 8234, 1567, 30),
    HourlyData("22:00", 65, 8234, 1698, 25), HourlyData("23:00", 62, 8234, 1845, 22)
  ]

  /** `todayData`: the rows up to and including the current hour. */
  function TodayData(hourly: seq<HourlyData>, currentHour: nat): (r: seq<HourlyData>)
    ensures |r| == if currentHour < |hourly| then currentHour + 1 else |hourly|
    ensures r == hourly[..|r|]
  {
    Take(hourly, currentHour + 1)
  }

  /** At any hour of the day the slice of the fixed table is non-empty and ends at that hour. */
  lemma TodayEndsAtCurrentHour(currentHour: nat)
    requires currentHour < 24
    ensures var today := TodayData(Hourly, currentHour);
            |today| == currentHour + 1 && today[currentHour] == Hourly[currentHour]
  {
  }

  /** `Math.round`: the nearest whole number, halves rounded up. */
  function Round(x: real): (k: int)
    ensures x - 0.5 < k as real <= x + 0.5
  {
    (x + 0.5).Floor
  }

  function StressSum(rows: seq<HourlyData>): int {
    if rows == [] then 0 else rows[0].stress + StressSum(rows[1..])
  }

  /** The "average stress" badge over the rows so far: the mean stress, rounded to the nearest whole. */
  function AverageStress(rows: seq<HourlyData>): (a: int)
    requires rows != []
    ensures StressSum(rows) as real / |rows| as real - 0.5 < a as real <= StressSum(rows) as real / |rows| as real + 0.5
  {
    Round(StressSum(rows) as real / |rows| as real)
  }

  /** If every row's stress lies in [lo, hi], so does their sum divided by the row count. */
  lemma {:induction false} StressSumBounds(rows: seq<HourlyData>, lo: int, hi: int)
    requires forall i :: 0 <= i < |rows| ==> lo <= rows[i].stress <= hi
    ensures |rows| * lo <= StressSum(rows) <= |rows| * hi
  {
    if rows != [] {
      StressSumBounds(rows[1..], lo, hi);
    }
  }

  /** The average badge never leaves the range of the hourly values it summarises. */
  lemma AverageWithinRange(rows: seq<HourlyData>, lo: int, hi: int)
    requires rows != []
    requires forall i :: 0 <= i < |rows| ==> lo <= rows[i].stress <= hi
    ensures lo <= AverageStress(rows) <= hi
  {
    StressSumBounds(rows, lo, hi);
    MeanBounds(StressSum(rows) as real, |rows| as real, lo as real, hi as real);
  }

  /** A sum of `n` terms, each in [lo, hi], has its mean in [lo, hi]. */
  lemma MeanBounds(sum: real, n: real, lo: real, hi: real)
    requires n > 0.0 && lo * n <= sum <= hi * n
    ensures lo <= sum / n <= hi
  {
    var q := sum / n;
    assert q * n == sum;
    QuotientBounds(q, n, lo, hi);
  }

  lemma QuotientBounds(q: real, n: real, lo: real, hi: real)
    requires n > 0.0 && lo * n <= q * n <= hi * n
    ensures lo <= q <= hi
  {
  }

  /** A goal's progress as shown: `Math.round(value / target * 100)`, with no cap. */
  function GoalPercent(value: real, target: real): (p: int)
    requires target > 0.0
    ensures value / target * 100.0 - 0.5 < p as real <= value / target * 100.0 + 0.5
    ensures value >= 0.0 ==> p >= 0
    ensures value >= target ==> p >= 100
  {
    var q := value / target;
    assert q * target == value;
    assert value >= target ==> q >= 1.0 by {
      if value >= target {
        QuotientBounds(q, target, 1.0, q);
      }
    }
    Round(q * 100.0)
  }

  /** The four goals: 10000 steps, 2500 kcal, 150 active minutes and 8 km. */
  function Goals(m: Metrics): (g: seq<int>)
    ensures |g| == 4
    ensures m.steps as real / 100.0 - 0.5 < g[0] as real <= m.steps as real / 100.0 + 0.5
    ensures m.calories as real / 25.0 - 0.5 < g[1] as real <= m.calories as real / 25.0 + 0.5
    ensures m.activeMinutes as real / 1.5 - 0.5 < g[2] as real <= m.activeMinutes as real / 1.5 + 0.5
    ensures m.distance * 12.5 - 0.5 < g[3] as real <= m.distance * 12.5 + 0.5
    ensures m.steps >= 10000 ==> g[0] >= 100
    ensures m.calories >= 2500 ==> g[1] >= 100
    ensures m.activeMinutes >= 150 ==> g[2] >= 100
    ensures m.distance >= 8.0 ==> g[3] >= 100
  {
    [GoalPercent(m.steps as real, 10000.0), GoalPercent(m.calories as real, 2500.0),
     GoalPercent(m.activeMinutes as real, 150.0), GoalPercent(m.distance, 8.0)]
  }

  /** A larger value never shows a smaller percentage. */
  lemma GoalPercentMonotone(a: real, b: real, target: real)
    requires target > 0.0 && a <= b
    ensures GoalPercent(a, target) <= GoalPercent(b, target)
  {
    assert a / target <= b / target;
  }

  /** Progress past the goal is shown as it is: 15000 steps read 150%. */
  lemma GoalNotCapped()
    ensures Goals(InitialMetrics.(steps := 15000))[0] == 150
  {
  }

  /** The page's state: the connection flag, the last sync time and the live metrics. */
  class Watch {
    var connected: bool
    var lastSync: string
    var metrics: Metrics

    constructor (now: string)
      ensures connected && lastSync == now && metrics == InitialMetrics
    {
      connected := true;
      lastSync := now;
      metrics := InitialMetrics;
    }

    /** The connect / disconnect button. */
    method ToggleConnection()
      modifies this
      ensures connected == !old(connected)
      ensures lastSync == old(lastSync) && metrics == old(metrics)
    {
      connected := !connected;
    }

    /**
     * One five-second interval: each metric takes its draw, in the source's
     * order, and the sync time is updated. The tick runs whether or not the
     * watch is connected.
     */
    method Tick(d: Draws, now: string)
      requires ValidDraws(d)
      modifies this
      ensures metrics == Jitter(old(metrics), d)
      ensures lastSync == now && connected == old(connected)
    {
      var next := metrics;
      next := next.(heartRate := next.heartRate + Scaled(d.heart, 6) - 3);
      next := next.(steps := next.steps + Scaled(d.steps, 10));
      next := next.(calories := next.calories + Scaled(d.calories, 5));
      next := next.(stress := Clamp(0, 100, next.stress + Scaled(d.stress, 10) - 5));
      metrics := next;
      lastSync := now;
    }
  }
}
