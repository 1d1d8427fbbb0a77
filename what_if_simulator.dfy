/**
 * The what-if growth simulator: a weekly growth rate built from the posting
 * strategy, a six-month compounding projection (four weeks per month) beside
 * a linear baseline, the total growth figure and the advice banners.
 * Numbers are exact reals; `Math.round` is Numeric.Round.
 */
module WhatIfSimulator {
  import opened Optional
  import opened Numeric

  /** The three controls: posts per week, reels per week, TikTok on or off. */
  datatype Strategy = Strategy(posts: nat, reels: nat, tiktok: bool)

  /** The ranges the two sliders allow. */
  predicate InSliderRange(s: Strategy) {
    2 <= s.posts <= 28 && s.reels <= 7
  }

  const BaseGrowth: real := 0.005

  function PostBonus(s: Strategy): real {
    (s.posts as real / 12.0) * 0.003
  }

  function ReelsBonus(s: Strategy): real {
    (s.reels as real / 3.0) * 0.008
  }

  function TikTokBonus(s: Strategy): real {
    if s.tiktok then 0.0228 else 0.0
  }

  function WeeklyGrowth(s: Strategy): (w: real)
    ensures w >= BaseGrowth
    ensures s.tiktok ==> w >= BaseGrowth + 0.0228
  {
    BaseGrowth + PostBonus(s) + ReelsBonus(s) + TikTokBonus(s)
  }

  /** More posts, more reels and TikTok switched on each give a rate at least as high. */
  lemma WeeklyGrowthMonotone(s: Strategy, t: Strategy)
    requires s.posts <= t.posts && s.reels <= t.reels && (s.tiktok ==> t.tiktok)
    ensures WeeklyGrowth(s) <= WeeklyGrowth(t)
    ensures s.tiktok == t.tiktok && s.posts == t.posts && s.reels == t.reels ==> WeeklyGrowth(s) == WeeklyGrowth(t)
  {
  }

  /** The engagement figure, the same at every month. */
  function Engagement(s: Strategy): (e: real)
    ensures e >= 2.99
  {
    ((2.99 + ReelsBonus(s) * 100.0 + TikTokBonus(s) * 50.0) * 100.0) / 100.0
  }

  /** Switching TikTok on adds 1.14 engagement points and nothing else. */
  lemma EngagementTikTokGain(s: Strategy)
    ensures Engagement(s.(tiktok := true)) == Engagement(s.(tiktok := false)) + 1.14
  {
  }

  /** Growth over one month of four weeks. */
  function MonthlyFactor(s: Strategy): (f: real)
    ensures f >= 1.0
  {
    PowAtLeastOne(1.0 + WeeklyGrowth(s), 4);
    Pow(1.0 + WeeklyGrowth(s), 4)
  }

  datatype ProjectionPoint = ProjectionPoint(month: nat, followers: int, engagement: real, baseline: real)

  /** The unrounded follower count after `m` months. */
  function Compounded(start: nat, s: Strategy, m: nat): (c: real)
    ensures c >= start as real
  {
    PowAtLeastOne(MonthlyFactor(s), m);
    start as real * Pow(MonthlyFactor(s), m)
  }

  /** The conservative baseline: 0.5% a week of the start, without compounding. */
  function Baseline(start: nat, m: nat): real {
    start as real + start as real * 0.005 * 4.0 * m as real
  }

  /** The point the projection holds for month `m`. */
  function PointAt(start: nat, s: Strategy, m: nat): ProjectionPoint {
    ProjectionPoint(m, Round(Compounded(start, s, m)), Engagement(s), Baseline(start, m))
  }

  /** `calculateGrowth`: seven points, months 0 to 6, compounding the monthly factor. */
  method CalculateGrowth(start: nat, s: Strategy) returns (ps: seq<ProjectionPoint>)
    ensures |ps| == 7
    ensures forall m :: 0 <= m < 7 ==> ps[m] == PointAt(start, s, m)
    ensures ps[0].followers == start
    ensures forall m :: 0 <= m < 7 ==> ps[m].month == m && ps[m].engagement == ps[0].engagement
  {
    var current: real := start as real;
    ps := [];
    var month := 0;
    while month <= 6
      invariant 0 <= month <= 7
      invariant |ps| == month
      invariant current == Compounded(start, s, month)
      invariant forall m :: 0 <= m < month ==> ps[m] == PointAt(start, s, m)
    {
      ps := ps + [ProjectionPoint(month, Round(current), Engagement(s), Baseline(start, month))];
      current := current * Pow(1.0 + WeeklyGrowth(s), 4);
      month := month + 1;
    }
    RoundInt(start);
  }

  /** Followers never fall from one month to a later one. */
  lemma ProjectionMonotone(start: nat, s: Strategy, m: nat, n: nat)
    requires m <= n
    ensures PointAt(start, s, m).followers <= PointAt(start, s, n).followers
  {
    PowGrowsWithExponent(MonthlyFactor(s), m, n);
    RoundMonotone(Compounded(start, s, m), Compounded(start, s, n));
  }

  /** A strategy that posts at least as much, with TikTok if the other has it, never projects fewer followers. */
  lemma StrategyMonotone(start: nat, s: Strategy, t: Strategy, m: nat)
    requires s.posts <= t.posts && s.reels <= t.reels && (s.tiktok ==> t.tiktok)
    ensures PointAt(start, s, m).followers <= PointAt(start, t, m).followers
  {
    WeeklyGrowthMonotone(s, t);
    PowGrowsWithBase(1.0 + WeeklyGrowth(s), 1.0 + WeeklyGrowth(t), 4);
    PowGrowsWithBase(MonthlyFactor(s), MonthlyFactor(t), m);
    RoundMonotone(Compounded(start, s, m), Compounded(start, t, m));
  }

  /** With the same sliders, switching TikTok on never projects fewer followers. */
  lemma TikTokNeverWorse(start: nat, s: Strategy, m: nat)
    ensures PointAt(start, s.(tiktok := false), m).followers <= PointAt(start, s.(tiktok := true), m).followers
  {
    StrategyMonotone(start, s.(tiktok := false), s.(tiktok := true), m);
  }

  /** The baseline grows by the same amount every month and ignores the strategy. */
  lemma BaselineLinear(start: nat, s: Strategy, t: Strategy, m: nat)
    ensures PointAt(start, s, m + 1).baseline - PointAt(start, s, m).baseline == start as real * 0.02
    ensures PointAt(start, s, m).baseline == PointAt(start, t, m).baseline
    ensures PointAt(start, s, 0).baseline == start as real
  {
  }

  /** `totalGrowth`: the six-month gain as a percentage of the start; no value for a zero start. */
  function TotalGrowth(start: nat, target: int): (r: Option<real>)
    ensures r.None? <==> start == 0
    ensures r.Some? ==> (r.value >= 0.0 <==> target >= start)
  {
    if start == 0 then None
    else Some((target - start) as real / start as real * 100.0)
  }

  /** The projected total growth is never negative. */
  lemma TotalGrowthNonNegative(start: nat, s: Strategy)
    requires start > 0
    ensures TotalGrowth(start, PointAt(start, s, 6).followers).Some?
    ensures TotalGrowth(start, PointAt(start, s, 6).followers).value >= 0.0
  {
    ProjectionMonotone(start, s, 0, 6);
    RoundInt(start);
  }

  datatype Banner = PostWarning | ReelsWarning | TikTokCritical | OptimalStrategy

  /** The banners shown under "Dynamic Recommendations", in display order. */
  function Banners(s: Strategy): (r: seq<Banner>)
    ensures PostWarning in r <==> s.posts < 8
    ensures ReelsWarning in r <==> s.reels < 2
    ensures TikTokCritical in r <==> !s.tiktok
  {
    (if s.posts < 8 then [PostWarning] else [])
    + (if s.reels < 2 then [ReelsWarning] else [])
    + (if !s.tiktok then [TikTokCritical] else [])
    + (if s.posts >= 8 && s.reels >= 2 && s.tiktok then [OptimalStrategy] else [])
  }

  /** The "optimal strategy" banner shows exactly when no warning does, and then alone. */
  lemma OptimalIffNoWarning(s: Strategy)
    ensures OptimalStrategy in Banners(s) <==> Banners(s) == [OptimalStrategy]
    ensures OptimalStrategy !in Banners(s) ==> |Banners(s)| >= 1
  {
  }

  /** The simulator's three controls. */
  class Simulator {
    var posts: nat
    var reels: nat
    var hasTikTok: bool

    ghost predicate Valid()
      reads this
    {
      InSliderRange(Strategy(posts, reels, hasTikTok))
    }

    function Current(): Strategy
      reads this
    {
      Strategy(posts, reels, hasTikTok)
    }

    constructor()
      ensures Valid()
      ensures posts == 8 && reels == 2 && !hasTikTok
      ensures Banners(Current()) == [TikTokCritical]
    {
      posts, reels, hasTikTok := 8, 2, false;
    }

    method SetPosts(n: nat)
      requires Valid() && 2 <= n <= 28
      modifies this
      ensures Valid()
      ensures posts == n && reels == old(reels) && hasTikTok == old(hasTikTok)
    {
      posts := n;
    }

    method SetReels(n: nat)
      requires Valid() && n <= 7
      modifies this
      ensures Valid()
      ensures reels == n && posts == old(posts) && hasTikTok == old(hasTikTok)
    {
      reels := n;
    }

    method ToggleTikTok()
      requires Valid()
      modifies this
      ensures Valid()
      ensures hasTikTok == !old(hasTikTok) && posts == old(posts) && reels == old(reels)
    {
      hasTikTok := !hasTikTok;
    }

    /** The projection and the total growth the panel displays. */
    method Project(start: nat) returns (ps: seq<ProjectionPoint>, total: Option<real>)
      ensures |ps| == 7 && forall m :: 0 <= m < 7 ==> ps[m] == PointAt(start, Current(), m)
      ensures total == TotalGrowth(start, ps[6].followers)
      ensures start > 0 ==> total.Some? && total.value >= 0.0
    {
      ps := CalculateGrowth(start, Current());
      total := TotalGrowth(start, ps[6].followers);
      if start > 0 {
        TotalGrowthNonNegative(start, Current());
      }
    }
  }
}
