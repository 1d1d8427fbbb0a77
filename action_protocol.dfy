/**
 * The action protocol view: the recommendations grouped into three priority
 * columns, then listed in full with their priority colours and numbered
 * implementation steps.
 */
module ActionProtocol {
  import opened Optional
  import opened ResearchData

  datatype Colors = Colors(bg: string, border: string, text: string)

  /** `priorityColors[priority]`: absent for a priority outside the three. */
  function PriorityColors(priority: string): (c: Option<Colors>)
    ensures c.Some? <==> KnownPriority(priority)
    ensures priority == "immediate" ==> c == Some(Colors("bg-accent-red/10", "border-accent-red", "text-accent-red"))
    ensures priority == "high" ==> c == Some(Colors("bg-accent-yellow/10", "border-accent-yellow", "text-accent-yellow"))
    ensures priority == "medium" ==> c == Some(Colors("bg-accent-blue/10", "border-accent-blue", "text-accent-blue"))
  {
    match priority
    case "immediate" => Some(Colors("bg-accent-red/10", "border-accent-red", "text-accent-red"))
    case "high" => Some(Colors("bg-accent-yellow/10", "border-accent-yellow", "text-accent-yellow"))
    case "medium" => Some(Colors("bg-accent-blue/10", "border-accent-blue", "text-accent-blue"))
    case _ => None
  }

  /** The column order of the priority matrix. */
  const ColumnOrder: seq<string> := ["immediate", "high", "medium"]

  /** A column: the recommendations of priority `p`, in dataset order. */
  function Column(recs: seq<Recommendation>, p: string): (r: seq<Recommendation>)
    ensures |r| <= |recs|
    ensures forall x :: x in r <==> x in recs && x.priority == p
  {
    if |recs| == 0 then []
    else (if recs[0].priority == p then [recs[0]] else []) + Column(recs[1..], p)
  }

  /** The number of recommendations of priority `p`. */
  function CountPriority(recs: seq<Recommendation>, p: string): nat {
    if |recs| == 0 then 0 else (if recs[0].priority == p then 1 else 0) + CountPriority(recs[1..], p)
  }

  /** A column has one entry per recommendation of that priority, so none is listed twice or dropped. */
  lemma {:induction false} ColumnCounts(recs: seq<Recommendation>, p: string)
    ensures |Column(recs, p)| == CountPriority(recs, p)
  {
    if |recs| > 0 {
      ColumnCounts(recs[1..], p);
    }
  }

  /** Earlier recommendations stay ahead of later ones in a column. */
  lemma {:induction false} ColumnAppend(a: seq<Recommendation>, b: seq<Recommendation>, p: string)
    ensures Column(a + b, p) == Column(a, p) + Column(b, p)
  {
    if |a| > 0 {
      assert (a + b)[1..] == a[1..] + b;
      ColumnAppend(a[1..], b, p);
    } else {
      assert a + b == b;
    }
  }

  /** With every priority one of the three, the columns together hold every recommendation exactly once. */
  lemma {:induction false} ColumnsPartition(recs: seq<Recommendation>)
    requires forall i :: 0 <= i < |recs| ==> KnownPriority(recs[i].priority)
    ensures |Column(recs, "immediate")| + |Column(recs, "high")| + |Column(recs, "medium")| == |recs|
  {
    ColumnCounts(recs, "immediate");
    ColumnCounts(recs, "high");
    ColumnCounts(recs, "medium");
    CountsPartition(recs);
  }

  lemma {:induction false} CountsPartition(recs: seq<Recommendation>)
    requires forall i :: 0 <= i < |recs| ==> KnownPriority(recs[i].priority)
    ensures CountPriority(recs, "immediate") + CountPriority(recs, "high") + CountPriority(recs, "medium") == |recs|
  {
    if |recs| > 0 {
      assert forall i :: 0 <= i < |recs[1..]| ==> recs[1..][i] == recs[i + 1];
      CountsPartition(recs[1..]);
    }
  }

  /** The priority matrix: one column per priority, in column order. */
  function Matrix(recs: seq<Recommendation>): (m: seq<(string, seq<Recommendation>)>)
    ensures |m| == |ColumnOrder|
    ensures forall k :: 0 <= k < |m| ==> m[k].0 == ColumnOrder[k]
    ensures forall x :: x in recs && !KnownPriority(x.priority) ==> forall k :: 0 <= k < |m| ==> x !in m[k].1
  {
    seq(|ColumnOrder|, k requires 0 <= k < |ColumnOrder| => (ColumnOrder[k], Column(recs, ColumnOrder[k])))
  }

  /** The dataset's matrix: both immediate actions, then the high one, then the medium one. */
  lemma DatasetMatrix()
    ensures Matrix(Recommendations)[0].1 == [Recommendations[0], Recommendations[1]]
    ensures Matrix(Recommendations)[1].1 == [Recommendations[2]]
    ensures Matrix(Recommendations)[2].1 == [Recommendations[3]]
  {
    ImmediateColumn();
    HighColumn();
    MediumColumn();
  }

  /** The priorities of the four recommendations, in order. */
  lemma DatasetPriorities()
    ensures TikTokPresence.priority == "immediate" && ReelsStrategy.priority == "immediate"
    ensures PostingFrequency.priority == "high" && CompetitorStudy.priority == "medium"
  {
  }

  /** A column of the dataset, one recommendation at a time. */
  lemma DatasetColumn(p: string)
    ensures Column(Recommendations, p)
      == Column([TikTokPresence], p) + Column([ReelsStrategy], p)
       + Column([PostingFrequency], p) + Column([CompetitorStudy], p)
  {
    var a, b, c, d := [TikTokPresence], [ReelsStrategy], [PostingFrequency], [CompetitorStudy];
    assert Recommendations == a + b + c + d;
    ColumnAppend(a + b + c, d, p);
    ColumnAppend(a + b, c, p);
    ColumnAppend(a, b, p);
  }

  lemma ImmediateColumn()
    ensures Column(Recommendations, "immediate") == [TikTokPresence, ReelsStrategy]
  {
    DatasetColumn("immediate");
    DatasetPriorities();
  }

  lemma HighColumn()
    ensures Column(Recommendations, "high") == [PostingFrequency]
  {
    DatasetColumn("high");
    DatasetPriorities();
  }

  lemma MediumColumn()
    ensures Column(Recommendations, "medium") == [CompetitorStudy]
  {
    DatasetColumn("medium");
    DatasetPriorities();
  }

  /** The implementation steps numbered from `first` on. */
  function NumberFrom(steps: seq<string>, first: nat): (r: seq<(nat, string)>)
    ensures |r| == |steps|
    ensures forall i :: 0 <= i < |r| ==> r[i] == (first + i, steps[i])
  {
    if |steps| == 0 then []
    else [(first, steps[0])] + NumberFrom(steps[1..], first + 1)
  }

  /** The step list under a card: numbered 1 to n in order. */
  function NumberedSteps(steps: seq<string>): (r: seq<(nat, string)>)
    ensures |r| == |steps|
    ensures |r| > 0 ==> r[0].0 == 1 && r[|r| - 1].0 == |steps|
    ensures forall i, j :: 0 <= i < j < |r| ==> r[i].0 < r[j].0
    ensures forall i :: 0 <= i < |r| ==> r[i].1 == steps[i]
  {
    NumberFrom(steps, 1)
  }

  datatype DetailCard = DetailCard(rec: Recommendation, colors: Option<Colors>, steps: seq<(nat, string)>)

  /** The detailed list: every recommendation once, in dataset order, with its colours looked up by priority. */
  function DetailCards(recs: seq<Recommendation>): (r: seq<DetailCard>)
    ensures |r| == |recs|
    ensures forall i :: 0 <= i < |r| ==> r[i].rec == recs[i]
    ensures forall i :: 0 <= i < |r| ==> (r[i].colors.Some? <==> KnownPriority(recs[i].priority))
    ensures forall i :: 0 <= i < |r| ==> |r[i].steps| == |recs[i].implementation|
  {
    seq(|recs|, i requires 0 <= i < |recs| =>
      DetailCard(recs[i], PriorityColors(recs[i].priority), NumberedSteps(recs[i].implementation)))
  }

  /** Every card of the dataset finds its colours. */
  lemma DatasetCardsColored()
    ensures forall i :: 0 <= i < |Recommendations| ==> DetailCards(Recommendations)[i].colors.Some?
  {
    RecommendationsWellFormed();
  }
}
