/**
 * The visual analysis view: the Instagram bar-chart entries (one per
 * record, largest audience first), their follower total, the TikTok
 * status entries and the active-account count.
 */
module VisualAnalysis {
  import opened Optional
  import opened StableSort
  import opened ResearchData
  import opened ResearchExplorer

  datatype BarEntry = BarEntry(name: string, followers: nat, posts: nat, color: string, isYU: bool)

  /** One record's bar: a missing post count becomes 0 and only the `yu` record is marked. */
  function ToBar(u: University): (e: BarEntry)
    ensures e.name == u.shortName && e.followers == u.instagram.followers && e.color == u.color
    ensures e.posts == u.instagram.posts.GetOr(0)
    ensures e.isYU <==> u.id == "yu"
  {
    BarEntry(u.shortName, u.instagram.followers, u.instagram.posts.GetOr(0), u.color, u.id == "yu")
  }

  /** The chart's comparator: a positive result puts `a` after `b`. */
  function ByFollowersDesc(a: BarEntry, b: BarEntry): int {
    b.followers - a.followers
  }

  /** `instagramData`: the bars, sorted by the chart's comparator. */
  function InstagramChart(us: seq<University>): (r: seq<BarEntry>)
    ensures |r| == |us|
  {
    SortSeq(MapSeq(ToBar, us), ByFollowersDesc)
  }

  /** The chart lists the records in the explorer's followers order. */
  lemma ChartFollowsExplorerOrder(us: seq<University>)
    ensures InstagramChart(us) == MapSeq(ToBar, SortSeq(us, Comparator(ByFollowers)))
  {
    SortSeqMap(us, ToBar, Comparator(ByFollowers), ByFollowersDesc);
  }

  /** One bar per record, with followers non-increasing down the chart. */
  lemma ChartDescending(us: seq<University>)
    ensures multiset(InstagramChart(us)) == multiset(MapSeq(ToBar, us))
    ensures forall i, j :: 0 <= i < j < |us| ==> InstagramChart(us)[j].followers <= InstagramChart(us)[i].followers
  {
    SortSeqPermutes(MapSeq(ToBar, us), ByFollowersDesc);
    ChartFollowsExplorerOrder(us);
    ComparatorLaws(ByFollowers);
    SortSeqSorted(us, Comparator(ByFollowers));
    FollowersDescending(SortSeq(us, Comparator(ByFollowers)));
  }

  /** The sum of the bars' followers, from the last bar back. */
  function BarTotal(s: seq<BarEntry>): nat {
    if |s| == 0 then 0 else BarTotal(s[..|s| - 1]) + s[|s| - 1].followers
  }

  lemma {:induction false} BarTotalInsert(s: seq<BarEntry>, x: BarEntry)
    ensures BarTotal(Insert(s, x, ByFollowersDesc)) == BarTotal(s) + x.followers
    decreases |s|
  {
    var r := Insert(s, x, ByFollowersDesc);
    if |s| > 0 && ByFollowersDesc(s[|s| - 1], x) > 0 {
      BarTotalInsert(s[..|s| - 1], x);
      assert r[..|r| - 1] == Insert(s[..|s| - 1], x, ByFollowersDesc);
    } else {
      assert r[..|r| - 1] == s;
    }
  }

  /** Sorting does not change the total. */
  lemma {:induction false} BarTotalSorted(s: seq<BarEntry>)
    ensures BarTotal(SortSeq(s, ByFollowersDesc)) == BarTotal(s)
    decreases |s|
  {
    if |s| > 0 {
      BarTotalSorted(s[..|s| - 1]);
      BarTotalInsert(SortSeq(s[..|s| - 1], ByFollowersDesc), s[|s| - 1]);
    }
  }

  lemma {:induction false} TotalFollowersSnoc(s: seq<University>, u: University)
    ensures TotalFollowers(s + [u]) == TotalFollowers(s) + u.instagram.followers
  {
    if |s| > 0 {
      assert (s + [u])[1..] == s[1..] + [u];
      TotalFollowersSnoc(s[1..], u);
    }
  }

  lemma {:induction false} BarTotalMapped(us: seq<University>)
    ensures BarTotal(MapSeq(ToBar, us)) == TotalFollowers(us)
    decreases |us|
  {
    if |us| > 0 {
      var init := us[..|us| - 1];
      assert MapSeq(ToBar, us)[..|us| - 1] == MapSeq(ToBar, init);
      BarTotalMapped(init);
      assert us == init + [us[|us| - 1]];
      TotalFollowersSnoc(init, us[|us| - 1]);
    }
  }

  /** The "Total" badge: the chart's followers summed, equal to every record's followers summed. */
  lemma ChartTotal(us: seq<University>)
    ensures BarTotal(InstagramChart(us)) == TotalFollowers(us)
  {
    BarTotalSorted(MapSeq(ToBar, us));
    BarTotalMapped(us);
  }

  lemma DatasetTotal()
    ensures BarTotal(InstagramChart(Universities)) == 1218932
  {
    ChartTotal(Universities);
    DatasetTotalFollowers();
  }

  /** The posts caption under a bar, shown only for a positive count. */
  function PostsCaption(e: BarEntry): (c: Option<nat>)
    ensures c.Some? ==> c.value == e.posts && c.value > 0
  {
    if e.posts > 0 then Some(e.posts) else None
  }

  /** A caption appears exactly for a record whose post count is known and positive. */
  lemma CaptionShown(u: University)
    ensures PostsCaption(ToBar(u)).Some? <==> u.instagram.posts.Some? && u.instagram.posts.value > 0
  {
  }

  datatype TikTokEntry = TikTokEntry(name: string, active: nat, followers: nat)

  /** One record's TikTok bar: 100 when active, 0 otherwise; a missing follower count becomes 0. */
  function ToTikTok(u: University): (e: TikTokEntry)
    ensures e.name == u.shortName
    ensures e.active == (if u.tiktok.active then 100 else 0)
    ensures e.followers == u.tiktok.followers.GetOr(0)
  {
    TikTokEntry(u.shortName, if u.tiktok.active then 100 else 0, u.tiktok.followers.GetOr(0))
  }

  /** `tiktokData`: one entry per record, in dataset order. */
  function TikTokChart(us: seq<University>): (r: seq<TikTokEntry>)
    ensures |r| == |us| && forall i :: 0 <= i < |us| ==> r[i] == ToTikTok(us[i])
  {
    MapSeq(ToTikTok, us)
  }

  /** The entries whose bar is above zero. */
  function ActiveEntries(es: seq<TikTokEntry>): (n: nat)
    ensures n <= |es|
  {
    if |es| == 0 then 0 else (if es[0].active > 0 then 1 else 0) + ActiveEntries(es[1..])
  }

  /** The "Active TikTok Accounts" figure is the number of records with an active account. */
  lemma {:induction false} ActiveCountAgrees(us: seq<University>)
    ensures ActiveEntries(TikTokChart(us)) == CountTikTokActive(us)
  {
    if |us| > 0 {
      assert TikTokChart(us)[1..] == TikTokChart(us[1..]);
      ActiveCountAgrees(us[1..]);
    }
  }

  lemma DatasetActiveCount()
    ensures ActiveEntries(TikTokChart(Universities)) == 3
    ensures |TikTokChart(Universities)| == 6
  {
    ActiveCountAgrees(Universities);
    TikTokCountAgrees();
  }
}
