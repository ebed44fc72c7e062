/**
 * The "Articles by Domain" bar chart: the aggregates it derives from the
 * per-domain counts (the largest count, the total) and each bar's colour.
 */
module DomainChart {
  import opened Wrappers
  import opened Types

  const FALLBACK_COLOR: string := "bg-gray-500"

  const DOMAIN_COLORS: map<string, string> := map[
    "Physics" := "bg-blue-500",
    "Biology" := "bg-green-500",
    "Astronomy" := "bg-purple-500",
    "AI" := "bg-orange-500",
    "Medicine" := "bg-red-500",
    "Chemistry" := "bg-yellow-500",
    "Earth Science" := "bg-teal-500",
    "Technology" := "bg-gray-500",
    "Neuroscience" := "bg-pink-500",
    "Agriculture" := "bg-amber-500",
    "General Science" := "bg-slate-500"
  ]

  /** One bar: its domain label, its count and its colour class. */
  datatype Bar = Bar(domain: string, count: int, color: string)

  /** What the chart shows: the largest count (the bar scale), the total and the bars. */
  datatype Chart = Chart(maxCount: int, totalCount: int, bars: seq<Bar>)

  /** `domainColors[domain] || 'bg-gray-500'`. */
  function ColorFor(domain: string): (color: string)
    ensures domain in DOMAIN_COLORS ==> color == DOMAIN_COLORS[domain]
    ensures domain !in DOMAIN_COLORS ==> color == FALLBACK_COLOR
  {
    if domain in DOMAIN_COLORS && DOMAIN_COLORS[domain] != "" then DOMAIN_COLORS[domain] else FALLBACK_COLOR
  }

  /** `Math.max(...stats.map((s) => s.count))` on a non-empty list. */
  function MaxCount(stats: seq<DomainStats>): (m: int)
    requires |stats| > 0
    ensures forall i | 0 <= i < |stats| :: stats[i].count <= m
    ensures exists i | 0 <= i < |stats| :: stats[i].count == m
    decreases |stats|
  {
    if |stats| == 1 then stats[0].count
    else
      var rest := MaxCount(stats[1..]);
      if stats[0].count >= rest then stats[0].count else rest
  }

  /** The counts added up from the right: the plain sum. */
  function Sum(stats: seq<DomainStats>): int
    decreases |stats|
  {
    if stats == [] then 0 else stats[0].count + Sum(stats[1..])
  }

  /** `stats.reduce((sum, s) => sum + s.count, acc)`: a left fold starting from `acc`. */
  function TotalFrom(acc: int, stats: seq<DomainStats>): int
    decreases |stats|
  {
    if stats == [] then acc else TotalFrom(acc + stats[0].count, stats[1..])
  }

  /** The left fold from 0 that the chart uses is the sum of all counts. */
  lemma {:induction false} TotalFromIsSum(acc: int, stats: seq<DomainStats>)
    ensures TotalFrom(acc, stats) == acc + Sum(stats)
    decreases |stats|
  {
    if stats != [] {
      TotalFromIsSum(acc + stats[0].count, stats[1..]);
    }
  }

  function Bars(stats: seq<DomainStats>): seq<Bar> {
    seq(|stats|, i requires 0 <= i < |stats| => Bar(stats[i].domain, stats[i].count, ColorFor(stats[i].domain)))
  }

  /**
   * `DomainChart({stats})`: nothing for missing or empty statistics; otherwise
   * the largest count, the total of all counts and one bar per entry, in order.
   */
  function Render(stats: Option<seq<DomainStats>>): (chart: Option<Chart>)
    ensures chart.None? <==> stats.None? || |stats.value| == 0
    ensures chart.Some? ==>
      && (forall i | 0 <= i < |stats.value| :: stats.value[i].count <= chart.value.maxCount)
      && (exists i | 0 <= i < |stats.value| :: stats.value[i].count == chart.value.maxCount)
      && chart.value.totalCount == Sum(stats.value)
      && |chart.value.bars| == |stats.value|
      && (forall i | 0 <= i < |stats.value| ::
            chart.value.bars[i] == Bar(stats.value[i].domain, stats.value[i].count, ColorFor(stats.value[i].domain)))
  {
    if stats.None? || |stats.value| == 0 then None
    else
      TotalFromIsSum(0, stats.value);
      Some(Chart(MaxCount(stats.value), TotalFrom(0, stats.value), Bars(stats.value)))
  }

  /** A count at most a positive maximum gives a ratio of at most one. */
  lemma RatioAtMostOne(c: int, m: int)
    requires 0 <= c <= m && 0 < m
    ensures (c as real) / (m as real) <= 1.0
  {
    var q := (c as real) / (m as real);
    assert q * (m as real) == c as real;
  }

  /** With non-negative counts each bar's width ratio `count / maxCount` lies in [0, 1]. */
  lemma BarRatioAtMostOne(stats: seq<DomainStats>, i: nat)
    requires i < |stats|
    requires forall j | 0 <= j < |stats| :: stats[j].count >= 0
    ensures Render(Some(stats)).Some?
    ensures var chart := Render(Some(stats)).value;
      0 <= chart.bars[i].count <= chart.maxCount
      && (chart.maxCount > 0 ==> (chart.bars[i].count as real) / (chart.maxCount as real) <= 1.0)
  {
    var chart := Render(Some(stats)).value;
    assert chart.bars[i].count == stats[i].count;
    if chart.maxCount > 0 {
      RatioAtMostOne(chart.bars[i].count, chart.maxCount);
    }
  }
}
