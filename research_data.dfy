/**
 * The dashboard's one hardcoded dataset: six institution records, the
 * benchmark figures, the precomputed "gap" figures and the recommendations,
 * with the aggregates the views compute over the records.
 */
module ResearchData {
  import opened Optional
  import opened Numeric

  datatype InstagramAccount = InstagramAccount(
    handle: string, followers: nat, posts: Option<nat>, url: string)

  /** `followers` is 0 for the inactive accounts and null where it was not measured. */
  datatype TikTokAccount = TikTokAccount(
    handle: Option<string>, followers: Option<nat>, active: bool, url: Option<string>)

  datatype University = University(
    id: string, name: string, shortName: string,
    instagram: InstagramAccount, tiktok: TikTokAccount,
    color: string, note: Option<string>)

  datatype Recommendation = Recommendation(
    id: nat, priority: string, category: string, action: string, rationale: string,
    implementation: seq<string>, expectedImpact: string, timeframe: string, resources: string)

  datatype FrequencyRange = FrequencyRange(min: nat, max: nat)

  datatype Benchmarks = Benchmarks(
    averageEngagement: real,
    optimalPostingFrequency: FrequencyRange, optimalEngagementRate: real,
    minimumEffective: FrequencyRange, minimumEngagementRate: real,
    bestTime: string, bestContent: string,
    reelsEngagement: real, carouselEngagement: real,
    facebookEngagement: real, facebookPostingFrequency: nat,
    twitterEngagement: real, twitterPostingFrequency: nat, twitterIndustryAverage: real,
    linkedinEngagement: real, linkedinPostingFrequency: FrequencyRange,
    tiktokWeeklyFollowerGrowth: real, tiktokEngagementMultiplier: nat)

  datatype Gaps = Gaps(
    vsAverage: int, vsLeader: int, percentageGap: int,
    closestName: string, closestDifference: int, closestPercentageGap: int,
    tiktokPresence: bool, competitorsActive: nat, potentialGrowth: string,
    recommendedPlatforms: nat, missingPlatforms: seq<string>)

  const YuRecord: University :=
    University("yu", "Yeshiva University", "YU",
      InstagramAccount("@yeshiva_university", 15000, Some(2260), "https://www.instagram.com/yeshiva_university/"),
      TikTokAccount(None, Some(0), false, None),
      "#003D7A", None)

  const NyuRecord: University :=
    University("nyu", "New York University", "NYU",
      InstagramAccount("@nyuniversity", 593000, Some(2613), "https://www.instagram.com/nyuniversity/"),
      TikTokAccount(Some("@nyuniversity"), Some(112400), true, Some("https://www.tiktok.com/@nyuniversity")),
      "#57068c", None)

  const ColumbiaRecord: University :=
    University("columbia", "Columbia University", "Columbia",
      InstagramAccount("@columbia", 457000, None, "https://www.instagram.com/columbia/"),
      TikTokAccount(None, Some(0), false, None),
      "#b9d9eb", None)

  const RutgersRecord: University :=
    University("rutgers", "Rutgers University", "Rutgers",
      InstagramAccount("@rutgersu", 124000, None, "https://www.instagram.com/rutgersu/"),
      TikTokAccount(Some("@rutgersu"), None, true, Some("https://www.tiktok.com/@rutgersu")),
      "#CC0033", None)

  const BrandeisRecord: University :=
    University("brandeis", "Brandeis University", "Brandeis",
      InstagramAccount("@brandeisuniversity", 25000, Some(2965), "https://www.instagram.com/brandeisuniversity/"),
      TikTokAccount(Some("@brandeisuniversity"), None, true, Some("https://www.tiktok.com/@brandeisuniversity")),
      "#003478", None)

  const MarylandRecord: University :=
    University("maryland", "University of Maryland", "Maryland",
      InstagramAccount("@applymaryland", 4932, Some(1258), "https://www.instagram.com/applymaryland/"),
      TikTokAccount(None, Some(0), false, None),
      "#E03A3E", Some("Admissions account only"))

  /** The six records in source order. */
  const Universities: seq<University> := [
    YuRecord, NyuRecord, ColumbiaRecord, RutgersRecord, BrandeisRecord, MarylandRecord
  ]

  const TheBenchmarks: Benchmarks := Benchmarks(
    2.99,
    FrequencyRange(8, 28), 4.52,
    FrequencyRange(2, 15), 2.99,
    "8 PM Wednesday", "Instagram Reels",
    1.99, 0.80,
    2.97, 2,
    2.61, 2, 10.1,
    2.95, FrequencyRange(2, 3),
    2.28, 4)

  const TheGaps: Gaps := Gaps(
    -135000, -578000, 3853,
    "Brandeis", 10000, 67,
    false, 3, "2.28% weekly",
    6, ["TikTok", "LinkedIn (TBD)", "Twitter (TBD)"])

  const TikTokPresence: Recommendation :=
    Recommendation(1, "immediate", "Platform Expansion", "Establish TikTok Presence",
      "Highest ROI potential - 2.28% weekly growth, 4x engagement vs other platforms",
      ["Create official @yeshivauniversity account", "Post 3-5 videos per week initially",
       "Focus on campus life, student stories", "Target: 5,000 followers in 3 months"],
      "High", "This week", "Low cost")

  const ReelsStrategy: Recommendation :=
    Recommendation(2, "immediate", "Content Strategy", "Instagram Reels Strategy",
      "1.99% engagement rate vs 0.80% for static posts",
      ["Produce 2-3 Reels per week", "Focus on trending audio and formats",
       "Highlight student success stories", "Post at 8 PM Wednesday for optimal reach"],
      "Medium-High", "Immediate", "Medium cost")

  const PostingFrequency: Recommendation :=
    Recommendation(3, "high", "Posting Frequency", "Increase Instagram Posting to 8-12 Posts/Week",
      "Current posting below industry optimal range (8-28 posts/week)",
      ["Schedule posts for consistent 8 PM timing", "Mix of Reels, carousels, and static posts",
       "Use campus life hashtags: #collegelife #YULife", "Monitor engagement and adjust"],
      "Medium", "Immediate", "Medium cost")

  const CompetitorStudy: Recommendation :=
    Recommendation(4, "medium", "Competitive Analysis", "Study NYU and Brandeis Strategies",
      "NYU leads with 593K followers, Brandeis is closest competitor",
      ["Analyze top-performing content from both", "Identify content gaps and opportunities",
       "Adopt best practices while maintaining YU authenticity", "Monthly competitive review"],
      "Medium", "Ongoing", "Low cost")

  /** The four recommendations in source order. */
  const Recommendations: seq<Recommendation> := [
    TikTokPresence, ReelsStrategy, PostingFrequency, CompetitorStudy
  ]

  /** The largest Instagram follower count (`Math.max(...followers)`). */
  function MaxFollowers(us: seq<University>): (m: nat)
    requires |us| > 0
    ensures forall i :: 0 <= i < |us| ==> us[i].instagram.followers <= m
    ensures exists i :: 0 <= i < |us| && us[i].instagram.followers == m
  {
    if |us| == 1 then us[0].instagram.followers
    else
      var rest := MaxFollowers(us[1..]);
      assert forall i :: 1 <= i < |us| ==> us[i] == us[1..][i - 1];
      if us[0].instagram.followers >= rest then us[0].instagram.followers else rest
  }

  /** Sum of the Instagram follower counts (the `reduce` the views perform). */
  function TotalFollowers(us: seq<University>): nat {
    if |us| == 0 then 0 else us[0].instagram.followers + TotalFollowers(us[1..])
  }

  /** Number of records with an active TikTok account. */
  function CountTikTokActive(us: seq<University>): (n: nat)
    ensures n <= |us|
    ensures n == 0 <==> forall i :: 0 <= i < |us| ==> !us[i].tiktok.active
  {
    if |us| == 0 then 0
    else
      assert forall i :: 1 <= i < |us| ==> us[i] == us[1..][i - 1];
      (if us[0].tiktok.active then 1 else 0) + CountTikTokActive(us[1..])
  }

  /** The six records hold 1218932 followers between them. */
  lemma DatasetTotalFollowers()
    ensures TotalFollowers(Universities) == 1218932
  {
    var us := Universities;
    assert us[5..][1..] == [];
    assert TotalFollowers(us[5..]) == 4932;
    assert us[4..][1..] == us[5..];
    assert TotalFollowers(us[4..]) == 29932;
    assert us[3..][1..] == us[4..];
    assert TotalFollowers(us[3..]) == 153932;
    assert us[2..][1..] == us[3..];
    assert TotalFollowers(us[2..]) == 610932;
    assert us[1..][1..] == us[2..];
    assert TotalFollowers(us[1..]) == 1203932;
  }

  /** Three of the six records have an active TikTok account. */
  lemma DatasetTikTokActive()
    ensures CountTikTokActive(Universities) == 3
  {
    var us := Universities;
    assert us[5..][1..] == [];
    assert CountTikTokActive(us[5..]) == 0;
    assert us[4..][1..] == us[5..];
    assert CountTikTokActive(us[4..]) == 1;
    assert us[3..][1..] == us[4..];
    assert CountTikTokActive(us[3..]) == 2;
    assert us[2..][1..] == us[3..];
    assert CountTikTokActive(us[2..]) == 2;
    assert us[1..][1..] == us[2..];
    assert CountTikTokActive(us[1..]) == 3;
  }

  /** Number of records carrying the id `id`. */
  function CountId(us: seq<University>, id: string): (n: nat)
    ensures n <= |us|
  {
    if |us| == 0 then 0 else (if us[0].id == id then 1 else 0) + CountId(us[1..], id)
  }

  /** The first record carrying the id `id`. */
  function FindById(us: seq<University>, id: string): (r: Option<University>)
    ensures r.Some? ==> r.value in us && r.value.id == id
    ensures r.None? <==> forall i :: 0 <= i < |us| ==> us[i].id != id
  {
    if |us| == 0 then None
    else if us[0].id == id then Some(us[0])
    else
      assert forall i :: 1 <= i < |us| ==> us[i] == us[1..][i - 1];
      FindById(us[1..], id)
  }

  const Subject: University := Universities[0]

  /** The record ids are pairwise distinct, and exactly one of them is "yu". */
  lemma IdsUnique()
    ensures forall i, j :: 0 <= i < j < |Universities| ==> Universities[i].id != Universities[j].id
    ensures CountId(Universities, "yu") == 1
    ensures FindById(Universities, "yu") == Some(Subject)
  {
    var us := Universities;
    assert CountId(us[6..], "yu") == 0;
    assert us[5..][1..] == us[6..] && us[5].id != "yu";
    assert CountId(us[5..], "yu") == 0;
    assert us[4..][1..] == us[5..] && us[4].id != "yu";
    assert CountId(us[4..], "yu") == 0;
    assert us[3..][1..] == us[4..] && us[3].id != "yu";
    assert CountId(us[3..], "yu") == 0;
    assert us[2..][1..] == us[3..] && us[2].id != "yu";
    assert CountId(us[2..], "yu") == 0;
    assert us[1..][1..] == us[2..] && us[1].id != "yu";
    assert CountId(us[1..], "yu") == 0;
  }

  /** The "gap to the leader" figure is the subject's count minus the largest count. */
  lemma LeaderGapAgrees()
    ensures TheGaps.vsLeader == Subject.instagram.followers - MaxFollowers(Universities)
    ensures MaxFollowers(Universities) == Universities[1].instagram.followers
  {
    var m := MaxFollowers(Universities);
    assert m <= 593000 by {
      var k :| 0 <= k < |Universities| && Universities[k].instagram.followers == m;
    }
  }

  /** The percentage gap is the leader's excess over the subject as a rounded percentage. */
  lemma PercentageGapAgrees()
    ensures var leader := MaxFollowers(Universities);
      var yu := Subject.instagram.followers;
      TheGaps.percentageGap == Round(((leader - yu) * 100) as real / yu as real)
  {
    LeaderGapAgrees();
    assert (57800000 as real) / (15000 as real) == 3853.0 + 1.0 / 3.0;
  }

  /** Brandeis is the non-subject record closest in followers, 10000 away, a 67% gap. */
  lemma ClosestCompetitorAgrees()
    ensures var brandeis := Universities[4];
      var yu := Subject.instagram.followers;
      && brandeis.shortName == TheGaps.closestName
      && brandeis.instagram.followers - yu == TheGaps.closestDifference
      && TheGaps.closestPercentageGap == Round((TheGaps.closestDifference * 100) as real / yu as real)
      && forall i :: 1 <= i < |Universities| ==>
           Abs(brandeis.instagram.followers - yu) <= Abs(Universities[i].instagram.followers - yu)
  {
    assert (1000000 as real) / (15000 as real) == 66.0 + 2.0 / 3.0;
  }

  /** The count of competitors on TikTok is the number of records with an active account. */
  lemma TikTokCountAgrees()
    ensures TheGaps.competitorsActive == CountTikTokActive(Universities)
    ensures !TheGaps.tiktokPresence <==> !Subject.tiktok.active
  {
    DatasetTikTokActive();
  }

  /** Inactive accounts have neither handle nor link; active ones have a link. */
  lemma TikTokAccountsConsistent()
    ensures forall i :: 0 <= i < |Universities| ==>
      var t := Universities[i].tiktok;
      (!t.active ==> t.handle.None? && t.url.None?) && (t.active ==> t.url.Some? && t.handle.Some?)
  {
  }

  predicate KnownPriority(p: string) {
    p == "immediate" || p == "high" || p == "medium"
  }

  lemma RecommendationsWellFormed()
    ensures forall i :: 0 <= i < |Recommendations| ==> KnownPriority(Recommendations[i].priority)
    ensures forall i, j :: 0 <= i < j < |Recommendations| ==> Recommendations[i].id < Recommendations[j].id
  {
  }

  /** The posting-frequency ranges are non-empty. */
  lemma FrequencyRangesOrdered()
    ensures TheBenchmarks.optimalPostingFrequency.min <= TheBenchmarks.optimalPostingFrequency.max
    ensures TheBenchmarks.minimumEffective.min <= TheBenchmarks.minimumEffective.max
    ensures TheBenchmarks.linkedinPostingFrequency.min <= TheBenchmarks.linkedinPostingFrequency.max
  {
  }
}
