/**
 * The explorer view: a case-insensitive search combined with a platform
 * filter, a stable sort of the surviving records, a compare selection of at
 * most four records, and the comma-separated export of the whole dataset.
 */
module ResearchExplorer {
  import opened Optional
  import opened Collections
  import opened Text
  import opened StableSort
  import opened ResearchData

  /** The platform drop-down: 'all', 'instagram' or 'tiktok'. */
  datatype Platform = AllPlatforms | InstagramPlatform | TikTokPlatform

  /** The sort drop-down: 'followers', 'name' or 'engagement' (which has no ordering of its own). */
  datatype SortKey = ByFollowers | ByName | ByEngagement

  predicate MatchesSearch(u: University, term: string) {
    Contains(Lower(u.name), Lower(term)) || Contains(Lower(u.shortName), Lower(term))
  }

  predicate MatchesPlatform(u: University, p: Platform) {
    match p
    case AllPlatforms => true
    case InstagramPlatform => u.instagram.followers > 0
    case TikTokPlatform => u.tiktok.active
  }

  predicate Keep(u: University, term: string, p: Platform) {
    MatchesSearch(u, term) && MatchesPlatform(u, p)
  }

  /** The records that pass the search and the platform filter. */
  function Filter(us: seq<University>, term: string, p: Platform): (r: seq<University>)
    ensures |r| <= |us|
    ensures forall u :: u in r <==> u in us && Keep(u, term, p)
  {
    if |us| == 0 then []
    else
      var last := us[|us| - 1];
      assert us == us[..|us| - 1] + [last];
      Filter(us[..|us| - 1], term, p) + (if Keep(last, term, p) then [last] else [])
  }

  /** Filtering commutes with concatenation: the filter keeps the input order. */
  lemma {:induction false} FilterAppend(a: seq<University>, b: seq<University>, term: string, p: Platform)
    ensures Filter(a + b, term, p) == Filter(a, term, p) + Filter(b, term, p)
    decreases |b|
  {
    if |b| > 0 {
      var init, last := b[..|b| - 1], b[|b| - 1];
      var tail := if Keep(last, term, p) then [last] else [];
      assert (a + b)[..|a + b| - 1] == a + init && (a + b)[|a + b| - 1] == last;
      assert Filter(a + b, term, p) == Filter(a + init, term, p) + tail;
      assert Filter(b, term, p) == Filter(init, term, p) + tail;
      FilterAppend(a, init, term, p);
    } else {
      assert a + b == a;
    }
  }

  lemma {:induction false} FilterSubsequence(us: seq<University>, term: string, p: Platform)
    ensures SubsequenceOf(Filter(us, term, p), us)
    decreases |us|
  {
    if |us| > 0 {
      var init, last := us[..|us| - 1], us[|us| - 1];
      FilterSubsequence(init, term, p);
      var r := Filter(us, term, p);
      assert us[..|us| - 1] == init;
      if Keep(last, term, p) {
        assert r[..|r| - 1] == Filter(init, term, p) && r[|r| - 1] == last;
      } else {
        assert r == Filter(init, term, p);
      }
    }
  }

  /** An empty search with every platform keeps the whole dataset in order. */
  lemma {:induction false} FilterKeepsAll(us: seq<University>)
    ensures Filter(us, "", AllPlatforms) == us
    decreases |us|
  {
    if |us| > 0 {
      FilterKeepsAll(us[..|us| - 1]);
      assert Lower("") <= Lower(us[|us| - 1].name);
      assert us == us[..|us| - 1] + [us[|us| - 1]];
    }
  }

  lemma {:induction false} FilterIdempotent(us: seq<University>, term: string, p: Platform)
    ensures Filter(Filter(us, term, p), term, p) == Filter(us, term, p)
    decreases |us|
  {
    if |us| > 0 {
      var init, last := us[..|us| - 1], us[|us| - 1];
      FilterIdempotent(init, term, p);
      FilterAppend(Filter(init, term, p), if Keep(last, term, p) then [last] else [], term, p);
      if Keep(last, term, p) {
        assert Filter([last], term, p) == [last] by {
          assert [last][..0] == [];
        }
      }
    }
  }

  /** The comparator handed to `sort`: a positive result puts `a` after `b`. */
  function Comparator(k: SortKey): (University, University) -> int {
    match k
    case ByFollowers => (a: University, b: University) => b.instagram.followers - a.instagram.followers
    case ByName => (a: University, b: University) => LexCompare(a.name, b.name)
    case ByEngagement => (a: University, b: University) => 0
  }

  lemma ComparatorLaws(k: SortKey)
    ensures Antisymmetric(Comparator(k))
    ensures TiesTransitive(Comparator(k))
  {
    if k == ByName {
      forall a: University, b: University
        ensures Comparator(k)(a, b) == -Comparator(k)(b, a)
        ensures Comparator(k)(a, b) == 0 <==> a.name == b.name
      {
        LexCompareAntisymmetric(a.name, b.name);
        LexCompareZero(a.name, b.name);
      }
    }
  }

  /** Adjacent order by followers is a non-increasing follower count throughout. */
  lemma {:induction false} FollowersDescending(s: seq<University>)
    requires Sorted(s, Comparator(ByFollowers))
    ensures forall i, j :: 0 <= i < j < |s| ==> s[j].instagram.followers <= s[i].instagram.followers
    decreases |s|
  {
    if |s| > 1 {
      var init := s[..|s| - 1];
      assert Sorted(init, Comparator(ByFollowers)) by {
        forall i | 0 < i < |init| ensures Comparator(ByFollowers)(init[i - 1], init[i]) <= 0 {
          assert init[i - 1] == s[i - 1] && init[i] == s[i];
        }
      }
      FollowersDescending(init);
      assert Comparator(ByFollowers)(s[|s| - 2], s[|s| - 1]) <= 0;
      forall i, j | 0 <= i < j < |s| ensures s[j].instagram.followers <= s[i].instagram.followers {
        if j < |s| - 1 {
          assert s[i] == init[i] && s[j] == init[j];
        } else if i < |s| - 2 {
          assert s[i] == init[i] && s[|s| - 2] == init[|s| - 2];
        }
      }
    }
  }

  /** Adjacent order by name is an ascending order of names throughout. */
  lemma {:induction false} NamesAscending(s: seq<University>)
    requires Sorted(s, Comparator(ByName))
    ensures forall i, j :: 0 <= i < j < |s| ==> LexCompare(s[i].name, s[j].name) <= 0
    decreases |s|
  {
    if |s| > 1 {
      var init := s[..|s| - 1];
      assert Sorted(init, Comparator(ByName)) by {
        forall i | 0 < i < |init| ensures Comparator(ByName)(init[i - 1], init[i]) <= 0 {
          assert init[i - 1] == s[i - 1] && init[i] == s[i];
        }
      }
      NamesAscending(init);
      var n := |s|;
      assert LexCompare(s[n - 2].name, s[n - 1].name) <= 0 by {
        assert Comparator(ByName)(s[n - 2], s[n - 1]) <= 0;
      }
      forall i, j | 0 <= i < j < n ensures LexCompare(s[i].name, s[j].name) <= 0 {
        if j < n - 1 {
          assert s[i] == init[i] && s[j] == init[j];
        } else if i < n - 2 {
          assert s[i] == init[i] && s[n - 2] == init[n - 2];
          LexCompareTransitive(s[i].name, s[n - 2].name, s[n - 1].name);
        } else if i == n - 2 {
        }
      }
    }
  }

  /** The sorted list holds the same records as its input. */
  lemma SortedSameRecords(f: seq<University>, k: SortKey)
    ensures var r := SortSeq(f, Comparator(k));
      && multiset(r) == multiset(f)
      && (forall u :: u in r <==> u in f)
  {
    var r := SortSeq(f, Comparator(k));
    SortSeqPermutes(f, Comparator(k));
    assert forall u :: u in r <==> u in multiset(r);
    assert forall u :: u in f <==> u in multiset(f);
  }

  /** The sorted list is in the order the key asks for. */
  lemma SortedByKey(f: seq<University>, k: SortKey)
    ensures var r := SortSeq(f, Comparator(k));
      && (k == ByFollowers ==>
            forall i, j :: 0 <= i < j < |r| ==> r[j].instagram.followers <= r[i].instagram.followers)
      && (k == ByName ==> forall i, j :: 0 <= i < j < |r| ==> LexCompare(r[i].name, r[j].name) <= 0)
      && (k == ByEngagement ==> r == f)
  {
    var r := SortSeq(f, Comparator(k));
    ComparatorLaws(k);
    SortSeqSorted(f, Comparator(k));
    if k == ByFollowers {
      FollowersDescending(r);
    } else if k == ByName {
      NamesAscending(r);
    } else {
      SortSeqAllTied(f, Comparator(k));
    }
  }

  /** Records the key ties keep the order the filter gave them. */
  lemma SortedKeepsTies(f: seq<University>, k: SortKey)
    ensures forall x :: Ties(SortSeq(f, Comparator(k)), x, Comparator(k)) == Ties(f, x, Comparator(k))
  {
    ComparatorLaws(k);
    forall x {
      SortSeqStable(f, x, Comparator(k));
    }
  }

  /**
   * The list the view shows: the filtered records, copied into an array and
   * sorted there with the chosen key's comparator.
   */
  method FilteredUniversities(us: seq<University>, term: string, p: Platform, k: SortKey)
    returns (r: seq<University>)
    ensures r == SortSeq(Filter(us, term, p), Comparator(k))
    ensures multiset(r) == multiset(Filter(us, term, p))
    ensures forall u :: u in r <==> u in us && Keep(u, term, p)
    ensures k == ByFollowers ==>
      forall i, j :: 0 <= i < j < |r| ==> r[j].instagram.followers <= r[i].instagram.followers
    ensures k == ByName ==> forall i, j :: 0 <= i < j < |r| ==> LexCompare(r[i].name, r[j].name) <= 0
    ensures k == ByEngagement ==> r == Filter(us, term, p)
    ensures forall x :: Ties(r, x, Comparator(k)) == Ties(Filter(us, term, p), x, Comparator(k))
  {
    var filtered := Filter(us, term, p);
    var a := new University[|filtered|](i requires 0 <= i < |filtered| => filtered[i]);
    assert a[..] == filtered;
    SortInPlace(a, Comparator(k));
    r := a[..];
    SortedSameRecords(filtered, k);
    SortedByKey(filtered, k);
    SortedKeepsTies(filtered, k);
  }

  /** Some selected record carries the id `id` (`find` returns a truthy record). */
  predicate HasId(sel: seq<University>, id: string) {
    exists i :: 0 <= i < |sel| && sel[i].id == id
  }

  ghost predicate UniqueIds(sel: seq<University>) {
    forall i, j :: 0 <= i < j < |sel| ==> sel[i].id != sel[j].id
  }

  /** The selection without the records carrying `id`, in their order. */
  function RemoveId(sel: seq<University>, id: string): (r: seq<University>)
    ensures forall u :: u in r <==> u in sel && u.id != id
    ensures !HasId(r, id)
    ensures |r| <= |sel|
  {
    if |sel| == 0 then []
    else
      var last := sel[|sel| - 1];
      assert sel == sel[..|sel| - 1] + [last];
      var init := RemoveId(sel[..|sel| - 1], id);
      assert forall i :: 0 <= i < |init| ==> init[i] in init;
      init + (if last.id != id then [last] else [])
  }

  lemma {:induction false} RemoveIdSubsequence(sel: seq<University>, id: string)
    ensures SubsequenceOf(RemoveId(sel, id), sel)
    decreases |sel|
  {
    if |sel| > 0 {
      var init := sel[..|sel| - 1];
      RemoveIdSubsequence(init, id);
      var r := RemoveId(sel, id);
      assert sel[..|sel| - 1] == init;
      if sel[|sel| - 1].id != id {
        assert r[..|r| - 1] == RemoveId(init, id) && r[|r| - 1] == sel[|sel| - 1];
      } else {
        assert r == RemoveId(init, id);
      }
    }
  }

  lemma {:induction false} RemoveIdAbsent(sel: seq<University>, id: string)
    requires !HasId(sel, id)
    ensures RemoveId(sel, id) == sel
    decreases |sel|
  {
    if |sel| > 0 {
      RemoveIdAbsent(sel[..|sel| - 1], id);
      assert sel == sel[..|sel| - 1] + [sel[|sel| - 1]];
    }
  }

  lemma {:induction false} RemoveIdUnique(sel: seq<University>, id: string)
    requires UniqueIds(sel)
    ensures UniqueIds(RemoveId(sel, id))
    decreases |sel|
  {
    if |sel| > 0 {
      var init, last := sel[..|sel| - 1], sel[|sel| - 1];
      RemoveIdUnique(init, id);
      var r0 := RemoveId(init, id);
      if last.id != id {
        forall i | 0 <= i < |r0| ensures r0[i].id != last.id {
          assert r0[i] in init;
          var k :| 0 <= k < |init| && init[k] == r0[i];
          assert sel[k] == init[k];
        }
      }
    }
  }

  /** `toggleCompare`: remove the record if its id is selected, else add it while fewer than four are. */
  function Toggled(sel: seq<University>, u: University): (r: seq<University>)
    ensures HasId(sel, u.id) ==> !HasId(r, u.id) && forall x :: x in r <==> x in sel && x.id != u.id
    ensures !HasId(sel, u.id) && |sel| < 4 ==> r == sel + [u]
    ensures !HasId(sel, u.id) && |sel| >= 4 ==> r == sel
    ensures |sel| <= 4 ==> |r| <= 4
  {
    if HasId(sel, u.id) then RemoveId(sel, u.id)
    else if |sel| < 4 then sel + [u]
    else sel
  }

  /** Removal keeps the other selected records in their order. */
  lemma ToggledKeepsOrder(sel: seq<University>, u: University)
    ensures SubsequenceOf(sel, Toggled(sel, u)) || SubsequenceOf(Toggled(sel, u), sel)
  {
    if HasId(sel, u.id) {
      RemoveIdSubsequence(sel, u.id);
    } else if |sel| < 4 {
      var r := sel + [u];
      assert r[..|r| - 1] == sel;
      SubsequenceRefl(sel);
    } else {
      SubsequenceRefl(sel);
    }
  }

  /** Toggling never selects two records with the same id. */
  lemma ToggledUnique(sel: seq<University>, u: University)
    requires UniqueIds(sel)
    ensures UniqueIds(Toggled(sel, u))
  {
    if HasId(sel, u.id) {
      RemoveIdUnique(sel, u.id);
    }
  }

  /** Toggling the same record twice from a selection without it restores the selection. */
  lemma ToggleTwice(sel: seq<University>, u: University)
    requires !HasId(sel, u.id) && |sel| < 4
    ensures Toggled(Toggled(sel, u), u) == sel
  {
    var s1 := sel + [u];
    assert s1[|s1| - 1] == u;
    assert HasId(s1, u.id);
    assert s1[..|s1| - 1] == sel;
    RemoveIdAbsent(sel, u.id);
  }

  const ExportHeader: seq<string> :=
    ["University", "Instagram Followers", "Instagram Posts", "TikTok Status", "TikTok Followers"]

  lemma HeaderPlain()
    ensures FreeOf(ExportHeader, ',') && FreeOf(ExportHeader, '\n')
  {
    forall i | 0 <= i < |ExportHeader| ensures ',' !in ExportHeader[i] && '\n' !in ExportHeader[i] {
      var h := ExportHeader[i];
      assert forall k :: 0 <= k < |h| ==> 'A' <= h[k] <= 'z' || h[k] == ' ';
    }
  }

  /** `value || 'N/A'`: null and 0 are both falsy. */
  function OrNA(v: Option<nat>): (r: string)
    ensures r == "N/A" <==> v.None? || v.value == 0
    ensures r != "N/A" ==> forall i :: 0 <= i < |r| ==> '0' <= r[i] <= '9'
    ensures r != "N/A" ==> ParseNat(r) == v.value
  {
    if v.Some? && v.value != 0 then
      ParseRendered(v.value);
      NatToString(v.value)
    else "N/A"
  }

  function ExportRow(u: University): seq<string> {
    [u.name, NatToString(u.instagram.followers), OrNA(u.instagram.posts),
     if u.tiktok.active then "Active" else "Inactive", OrNA(u.tiktok.followers)]
  }

  /** The export's lines: the header, then one row per record in dataset order. */
  function ExportLines(us: seq<University>): (r: seq<string>)
    ensures |r| == |us| + 1
  {
    [Join(ExportHeader, ',')] + seq(|us|, i requires 0 <= i < |us| => Join(ExportRow(us[i]), ','))
  }

  /** The export text: fields joined by ',' and rows by a newline, with no quoting. */
  function ExportCsv(us: seq<University>): string {
    Join(ExportLines(us), '\n')
  }

  /** No name holds the field or the row separator. */
  ghost predicate PlainNames(us: seq<University>) {
    forall i :: 0 <= i < |us| ==> ',' !in us[i].name && '\n' !in us[i].name
  }

  lemma DigitsPlain(n: nat)
    ensures ',' !in NatToString(n) && '\n' !in NatToString(n)
  {
    var s := NatToString(n);
    assert forall i :: 0 <= i < |s| ==> '0' <= s[i] <= '9';
  }

  lemma RowPlain(u: University)
    requires ',' !in u.name && '\n' !in u.name
    ensures FreeOf(ExportRow(u), ',') && FreeOf(ExportRow(u), '\n')
  {
    DigitsPlain(u.instagram.followers);
    if u.instagram.posts.Some? { DigitsPlain(u.instagram.posts.value); }
    if u.tiktok.followers.Some? { DigitsPlain(u.tiktok.followers.value); }
  }

  /** A row splits back into the record's five fields, the follower count readable as a number. */
  lemma RowReadsBack(u: University)
    requires ',' !in u.name && '\n' !in u.name
    ensures var fields := Split(Join(ExportRow(u), ','), ',');
      && fields == ExportRow(u) && fields[0] == u.name
      && ParseNat(fields[1]) == u.instagram.followers
      && (fields[2] == "N/A" <==> u.instagram.posts.None? || u.instagram.posts.value == 0)
      && (fields[3] == "Active" <==> u.tiktok.active)
  {
    RowPlain(u);
    SplitJoin(ExportRow(u), ',');
    ParseRendered(u.instagram.followers);
  }

  lemma {:induction false} LinesPlain(us: seq<University>)
    requires PlainNames(us)
    ensures FreeOf(ExportLines(us), '\n')
  {
    var lines := ExportLines(us);
    HeaderPlain();
    JoinFree(ExportHeader, ',', '\n');
    forall i | 0 <= i < |lines| ensures '\n' !in lines[i] {
      if i > 0 {
        RowPlain(us[i - 1]);
        JoinFree(ExportRow(us[i - 1]), ',', '\n');
      }
    }
  }

  /**
   * When names hold no separator, the export reads back: one header line and
   * one line per record in dataset order, each splitting into that record's
   * five fields.
   */
  lemma ExportReadsBack(us: seq<University>)
    requires PlainNames(us)
    ensures var lines := Split(ExportCsv(us), '\n');
      && |lines| == |us| + 1
      && Split(lines[0], ',') == ExportHeader
      && forall i :: 0 <= i < |us| ==> Split(lines[i + 1], ',') == ExportRow(us[i])
  {
    LinesPlain(us);
    HeaderPlain();
    SplitJoin(ExportLines(us), '\n');
    SplitJoin(ExportHeader, ',');
    forall i | 0 <= i < |us| ensures Split(ExportLines(us)[i + 1], ',') == ExportRow(us[i]) {
      RowReadsBack(us[i]);
    }
  }

  /** The explorer's state fields. */
  class Explorer {
    var searchTerm: string
    var platform: Platform
    var sortBy: SortKey
    var compareMode: bool
    var selected: seq<University>

    /** At most four records, distinct ids, and nothing selected outside compare mode. */
    ghost predicate Valid()
      reads this
    {
      |selected| <= 4 && UniqueIds(selected) && (!compareMode ==> selected == [])
    }

    constructor()
      ensures Valid()
      ensures searchTerm == "" && platform == AllPlatforms && sortBy == ByFollowers
      ensures !compareMode && selected == []
    {
      searchTerm, platform, sortBy := "", AllPlatforms, ByFollowers;
      compareMode, selected := false, [];
    }

    method SetSearch(term: string)
      requires Valid()
      modifies this
      ensures Valid()
      ensures searchTerm == term
      ensures platform == old(platform) && sortBy == old(sortBy)
      ensures compareMode == old(compareMode) && selected == old(selected)
    {
      searchTerm := term;
    }

    method SetPlatform(p: Platform)
      requires Valid()
      modifies this
      ensures Valid()
      ensures platform == p
      ensures searchTerm == old(searchTerm) && sortBy == old(sortBy)
      ensures compareMode == old(compareMode) && selected == old(selected)
    {
      platform := p;
    }

    method SetSortBy(k: SortKey)
      requires Valid()
      modifies this
      ensures Valid()
      ensures sortBy == k
      ensures searchTerm == old(searchTerm) && platform == old(platform)
      ensures compareMode == old(compareMode) && selected == old(selected)
    {
      sortBy := k;
    }

    /** The list rendered for the current query. */
    method Visible(us: seq<University>) returns (r: seq<University>)
      ensures r == SortSeq(Filter(us, searchTerm, platform), Comparator(sortBy))
    {
      r := FilteredUniversities(us, searchTerm, platform, sortBy);
    }

    /** The compare button: flips the mode, and turning it off empties the selection. */
    method ClickCompareButton()
      requires Valid()
      modifies this
      ensures Valid()
      ensures compareMode == !old(compareMode)
      ensures selected == (if old(compareMode) then [] else old(selected))
      ensures searchTerm == old(searchTerm) && platform == old(platform) && sortBy == old(sortBy)
    {
      var wasOn := compareMode;
      compareMode := !compareMode;
      if wasOn {
        selected := [];
      }
    }

    /** "Clear All" in the comparison view. */
    method ClearSelection()
      requires Valid()
      modifies this
      ensures Valid()
      ensures selected == []
      ensures compareMode == old(compareMode)
      ensures searchTerm == old(searchTerm) && platform == old(platform) && sortBy == old(sortBy)
    {
      selected := [];
    }

    /** A click on a record's card toggles it, in compare mode only. */
    method ClickCard(u: University)
      requires Valid()
      modifies this
      ensures Valid()
      ensures selected == (if compareMode then Toggled(old(selected), u) else old(selected))
      ensures compareMode == old(compareMode)
      ensures searchTerm == old(searchTerm) && platform == old(platform) && sortBy == old(sortBy)
    {
      if compareMode {
        ToggledUnique(selected, u);
        selected := Toggled(selected, u);
      }
    }
  }
}
