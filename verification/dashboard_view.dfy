/**
 What the dashboard derives from its data for display: the doughnut's two
 slices, the bar chart's labels and values, the weekly total, and the daily
 average `Math.round(total / 7)`.
 */
module DashboardView {
  import opened Dashboard

  /** The doughnut's slice labels, in slice order. */
  const DoughnutLabels: seq<string> := ["Organik", "Anorganik"]

  /** The doughnut slices: one per label, each the weight of the label it
      sits under, together making up the two weights. */
  function DoughnutData(d: DashboardData): (r: seq<real>)
    ensures |r| == |DoughnutLabels|
    ensures forall i :: 0 <= i < |r| ==>
              r[i] == if DoughnutLabels[i] == "Organik" then d.stats.organik else d.stats.anorganik
    ensures Sum(r) == d.stats.organik + d.stats.anorganik
  {
    var r := [d.stats.organik, d.stats.anorganik];
    assert Sum(r[..1]) == Sum(r[..1][..0]) + d.stats.organik;
    assert r[..1][..0] == [];
    r
  }

  /** `weeklyActivity.map(item => item.day)`. */
  function BarLabels(w: seq<WeeklyActivity>): (r: seq<string>)
    ensures |r| == |w|
    ensures forall i :: 0 <= i < |w| ==> r[i] == w[i].day
  {
    if w == [] then [] else [w[0].day] + BarLabels(w[1..])
  }

  /** `weeklyActivity.map(item => item.amount)`. */
  function BarData(w: seq<WeeklyActivity>): (r: seq<real>)
    ensures |r| == |w|
    ensures forall i :: 0 <= i < |w| ==> r[i] == w[i].amount
  {
    if w == [] then [] else [w[0].amount] + BarData(w[1..])
  }

  /** The bars are the weekly entries, in order: pairing each label with the
      value at the same position gives back the weekly activity. */
  lemma BarsRebuildWeeklyActivity(w: seq<WeeklyActivity>)
    ensures |BarLabels(w)| == |BarData(w)| == |w|
    ensures seq(|w|, i requires 0 <= i < |w| => WeeklyActivity(BarLabels(w)[i], BarData(w)[i])) == w
  {
  }

  /** Sum of a sequence of numbers, folded from the left. */
  function Sum(xs: seq<real>): real
  {
    if xs == [] then 0.0 else Sum(xs[..|xs| - 1]) + xs[|xs| - 1]
  }

  /** `weeklyActivity.reduce((sum, item) => sum + item.amount, 0)`: no
      negative amount means no negative total, and no entry outweighs it. */
  function WeeklyTotal(w: seq<WeeklyActivity>): (r: real)
    ensures (forall i :: 0 <= i < |w| ==> w[i].amount >= 0.0) ==>
              r >= 0.0 && forall i :: 0 <= i < |w| ==> w[i].amount <= r
  {
    if w == [] then 0.0 else WeeklyTotal(w[..|w| - 1]) + w[|w| - 1].amount
  }

  /** The total printed under the bar chart is the sum of the bars. */
  lemma {:induction false} WeeklyTotalIsSumOfBars(w: seq<WeeklyActivity>)
    ensures WeeklyTotal(w) == Sum(BarData(w))
  {
    if w != [] {
      var init := w[..|w| - 1];
      WeeklyTotalIsSumOfBars(init);
      assert BarData(w)[..|w| - 1] == BarData(init);
    }
  }

  /** `Math.round(x)`: the nearest integer, halves rounded up. */
  function Round(x: real): (r: int)
    ensures r as real - 0.5 <= x < r as real + 0.5
  {
    (x + 0.5).Floor
  }

  /** The "daily average" card: the weekly total over seven days, rounded,
      whatever the number of entries. */
  function DailyAverage(w: seq<WeeklyActivity>): (r: int)
    ensures r as real - 0.5 <= WeeklyTotal(w) / 7.0 < r as real + 0.5
  {
    Round(WeeklyTotal(w) / 7.0)
  }

  /** Whole-kilogram amounts give a whole-kilogram total. */
  lemma {:induction false} WeeklyTotalOfIntegers(w: seq<WeeklyActivity>)
    requires forall i :: 0 <= i < |w| ==> w[i].amount == w[i].amount.Floor as real
    ensures WeeklyTotal(w) == WeeklyTotal(w).Floor as real
  {
    if w != [] {
      var init := w[..|w| - 1];
      WeeklyTotalOfIntegers(init);
      var a, b := WeeklyTotal(init).Floor, w[|w| - 1].amount.Floor;
      assert WeeklyTotal(w) == (a + b) as real;
    }
  }

  /** With whole-kilogram amounts the daily average is within 3/7 of
      total/7: seven times it is within 3 of the total, so no total ever
      sits exactly half-way and every other integer is strictly farther. */
  lemma DailyAverageIsNearest(w: seq<WeeklyActivity>, k: int)
    requires forall i :: 0 <= i < |w| ==> w[i].amount == w[i].amount.Floor as real
    ensures var t := WeeklyTotal(w).Floor;
            7 * DailyAverage(w) - 3 <= t <= 7 * DailyAverage(w) + 3
    ensures var t := WeeklyTotal(w).Floor;
            k != DailyAverage(w) ==> 7 * k - t > 3 || t - 7 * k > 3
  {
    WeeklyTotalOfIntegers(w);
    var t := WeeklyTotal(w).Floor;
    var a := DailyAverage(w);
    assert a as real - 0.5 <= (t as real) / 7.0 < a as real + 0.5;
    assert 7 * a - 3 <= t <= 7 * a + 3 by {
      assert (7 * a) as real - 3.5 <= t as real < (7 * a) as real + 3.5;
    }
  }

  /** The placeholder shows seven "-" bars of 0, a total of 0 and an average of 0. */
  lemma InitialView(now: int)
    ensures BarLabels(InitialData(now).weeklyActivity) == seq(7, _ => "-")
    ensures BarData(InitialData(now).weeklyActivity) == seq(7, _ => 0.0)
    ensures WeeklyTotal(InitialData(now).weeklyActivity) == 0.0
    ensures DailyAverage(InitialData(now).weeklyActivity) == 0
    ensures DoughnutData(InitialData(now)) == [0.0, 0.0]
  {
    var w := InitialData(now).weeklyActivity;
    assert forall n :: 0 <= n <= 7 ==> WeeklyTotal(w[..n]) == 0.0 by {
      forall n | 0 <= n <= 7 ensures WeeklyTotal(w[..n]) == 0.0 {
        WeeklyTotalOfZeros(w, n);
      }
    }
    assert w[..7] == w;
  }

  lemma {:induction false} WeeklyTotalOfZeros(w: seq<WeeklyActivity>, n: nat)
    requires n <= |w|
    requires forall i :: 0 <= i < |w| ==> w[i].amount == 0.0
    ensures WeeklyTotal(w[..n]) == 0.0
  {
    if n > 0 {
      WeeklyTotalOfZeros(w, n - 1);
      assert w[..n][..n - 1] == w[..n - 1];
    }
  }

  /** After a push the doughnut shows the payload's two weights, and the bars
      the payload's weekly entries. */
  lemma PushedView(s: DashboardState, apiData: StatsPayload, parseDate: string -> int)
    ensures DoughnutData(HandleUpdateStats(s, apiData, parseDate).data)
         == [apiData.stats.organik, apiData.stats.anorganik]
    ensures BarLabels(HandleUpdateStats(s, apiData, parseDate).data.weeklyActivity)
         == BarLabels(apiData.weeklyActivity)
  {
  }
}
