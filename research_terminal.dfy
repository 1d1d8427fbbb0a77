/**
 * The research terminal: a line of input is trimmed, split on spaces and
 * dispatched on its lower-cased first word; the outcome is appended to the
 * history log, except that `clear` replaces the log. Command output is kept
 * as structured reports rather than the formatted text the terminal prints.
 */
module ResearchTerminal {
  import opened Optional
  import opened Text
  import opened Numeric
  import opened ResearchData

  datatype EntryKind = System | Input | Error

  datatype Report =
    | HelpReport
    | AnalyzeReport(uni: University)
    | CompareReport(first: University, second: University, difference: nat, winner: string)
    | StatsReport(count: nat, average: int, max: nat, tiktokActive: nat, benchmarks: Benchmarks)
    | RecommendReport(top: Recommendation)
    | GapReport(gaps: Gaps, count: nat)

  /** A history entry: a plain line of some kind, or command output. */
  datatype Entry = Line(kind: EntryKind, text: string) | Output(report: Report)

  const InitialHistory: seq<Entry> := [
    Line(System, "YU Research Terminal v1.0.0 initialized..."),
    Line(System, "Type \"help\" for available commands")
  ]

  const ClearedHistory: seq<Entry> := [
    Line(System, "Terminal cleared."),
    Line(System, "Type \"help\" for available commands")
  ]

  /** The record named by an argument: its lower-cased short name or its id. */
  predicate Names(u: University, key: string) {
    Lower(u.shortName) == key || u.id == key
  }

  /** `find` over the records with the lower-cased argument; a missing argument matches nothing. */
  function FindUni(us: seq<University>, key: Option<string>): (r: Option<University>)
    ensures r.Some? ==> key.Some? && r.value in us && Names(r.value, key.value)
    ensures r.None? <==> key.None? || forall i :: 0 <= i < |us| ==> !Names(us[i], key.value)
  {
    if key.None? || |us| == 0 then None
    else if Names(us[0], key.value) then Some(us[0])
    else
      assert forall i :: 1 <= i < |us| ==> us[i] == us[1..][i - 1];
      FindUni(us[1..], key)
  }

  /** The first record that a key names is the one found. */
  lemma {:induction false} FindFirst(us: seq<University>, i: nat, key: string)
    requires i < |us| && Names(us[i], key)
    requires forall j :: 0 <= j < i ==> !Names(us[j], key)
    ensures FindUni(us, Some(key)) == Some(us[i])
  {
    if i > 0 {
      assert forall j :: 0 <= j < i - 1 ==> us[1..][j] == us[j + 1];
      FindFirst(us[1..], i - 1, key);
    }
  }

  /** The keys the error message suggests, one per record in dataset order. */
  const SuggestedKeys: seq<string> := ["yu", "nyu", "columbia", "rutgers", "brandeis", "maryland"]

  /** Each record's id is its suggested key, and so is its lower-cased short name. */
  lemma DatasetKeys()
    ensures |SuggestedKeys| == |Universities|
    ensures forall i :: 0 <= i < |Universities| ==>
      Universities[i].id == SuggestedKeys[i] && Lower(Universities[i].shortName) == SuggestedKeys[i]
  {
    forall i | 0 <= i < |Universities| ensures Lower(Universities[i].shortName) == SuggestedKeys[i] {
      LowerEach(Universities[i].shortName, SuggestedKeys[i]);
    }
  }

  /** Records whose keys are pairwise distinct are each found by their own key. */
  lemma LookupByDistinctKeys(us: seq<University>, keys: seq<string>)
    requires |keys| == |us|
    requires forall i :: 0 <= i < |us| ==> us[i].id == keys[i] && Lower(us[i].shortName) == keys[i]
    requires forall i, j :: 0 <= j < i < |us| ==> keys[j] != keys[i]
    ensures forall i :: 0 <= i < |us| ==>
      FindUni(us, Some(us[i].id)) == Some(us[i]) && FindUni(us, Some(Lower(us[i].shortName))) == Some(us[i])
  {
    forall i | 0 <= i < |us| ensures FindUni(us, Some(keys[i])) == Some(us[i]) {
      FindFirst(us, i, keys[i]);
    }
  }

  /** Every record of the dataset is found by its own id and by its short name in any case. */
  lemma DatasetLookup()
    ensures forall i :: 0 <= i < |Universities| ==>
      FindUni(Universities, Some(Universities[i].id)) == Some(Universities[i])
      && FindUni(Universities, Some(Lower(Universities[i].shortName))) == Some(Universities[i])
  {
    DatasetKeys();
    SuggestedKeysDistinct();
    LookupByDistinctKeys(Universities, SuggestedKeys);
  }

  lemma SuggestedKeysDistinct()
    ensures forall i, j :: 0 <= j < i < |SuggestedKeys| ==> SuggestedKeys[j] != SuggestedKeys[i]
  {
  }

  /** `args[i]?.toLowerCase()`. */
  function LoweredArg(args: seq<string>, i: nat): (r: Option<string>)
    ensures r.Some? <==> i < |args|
  {
    if i < |args| then Some(Lower(args[i])) else None
  }

  /** How a missing argument appears in an error message. */
  function Shown(key: Option<string>): string {
    match key
    case Some(k) => k
    case None => "undefined"
  }

  function Analyze(us: seq<University>, args: seq<string>): (e: Entry)
    ensures e.Output? <==> FindUni(us, LoweredArg(args, 0)).Some?
    ensures e.Output? ==>
      (e.report.AnalyzeReport? && e.report.uni in us && Names(e.report.uni, Lower(args[0])))
    ensures e.Line? ==> e == Line(Error, "University \"" + Shown(LoweredArg(args, 0))
                          + "\" not found. Try: yu, nyu, columbia, rutgers, brandeis, maryland")
  {
    var key := LoweredArg(args, 0);
    match FindUni(us, key)
    case Some(u) => Output(AnalyzeReport(u))
    case None => Line(Error, "University \"" + Shown(key)
                  + "\" not found. Try: yu, nyu, columbia, rutgers, brandeis, maryland")
  }

  function Compare(us: seq<University>, args: seq<string>): (e: Entry)
    ensures e.Output? <==> FindUni(us, LoweredArg(args, 0)).Some? && FindUni(us, LoweredArg(args, 1)).Some?
    ensures e.Line? ==> e == Line(Error, "Invalid universities. Usage: compare [uni1] [uni2]")
    ensures e.Output? ==> e.report.CompareReport?
    ensures e.Output? && e.report.CompareReport? ==>
      var r := e.report;
      var f1, f2 := r.first.instagram.followers, r.second.instagram.followers;
      && r.difference == Abs(f1 - f2)
      && (f1 > f2 ==> r.winner == r.first.shortName)
      && (f1 <= f2 ==> r.winner == r.second.shortName)
  {
    var u1 := FindUni(us, LoweredArg(args, 0));
    var u2 := FindUni(us, LoweredArg(args, 1));
    if u1.None? || u2.None? then Line(Error, "Invalid universities. Usage: compare [uni1] [uni2]")
    else
      var a, b := u1.value, u2.value;
      var diff := a.instagram.followers - b.instagram.followers;
      Output(CompareReport(a, b, Abs(diff),
        if a.instagram.followers > b.instagram.followers then a.shortName else b.shortName))
  }

  /** Swapping the arguments keeps the difference and, unless tied, the winner. */
  lemma CompareSwapped(us: seq<University>, x: string, y: string)
    requires Compare(us, [x, y]).Output?
    ensures Compare(us, [y, x]).Output?
    ensures var r, s := Compare(us, [x, y]).report, Compare(us, [y, x]).report;
      && s.difference == r.difference
      && (r.first.instagram.followers != r.second.instagram.followers ==> s.winner == r.winner)
  {
    assert LoweredArg([x, y], 0) == LoweredArg([y, x], 1);
    assert LoweredArg([x, y], 1) == LoweredArg([y, x], 0);
  }

  lemma {:induction false} TotalAtMost(us: seq<University>, m: nat)
    requires forall i :: 0 <= i < |us| ==> us[i].instagram.followers <= m
    ensures TotalFollowers(us) <= |us| * m
    decreases |us|
  {
    if |us| > 0 {
      assert forall i :: 1 <= i < |us| ==> us[i] == us[1..][i - 1];
      TotalAtMost(us[1..], m);
    }
  }

  lemma MeanAtMost(total: nat, n: nat, m: nat)
    requires n > 0 && total <= n * m
    ensures total as real / n as real <= m as real
  {
    assert total as real <= n as real * m as real;
    assert (n as real * m as real) / n as real == m as real;
  }

  /** `stats`: rounded mean, maximum and TikTok count; the dataset must be non-empty. */
  function Stats(us: seq<University>): (e: Entry)
    requires |us| > 0
    ensures e.Output? && e.report.StatsReport?
    ensures var r := e.report;
      && r.count == |us|
      && r.average == Round(TotalFollowers(us) as real / |us| as real)
      && r.max == MaxFollowers(us)
      && r.tiktokActive == CountTikTokActive(us)
      && (forall i :: 0 <= i < |us| ==> us[i].instagram.followers <= r.max)
      && (exists i :: 0 <= i < |us| && us[i].instagram.followers == r.max)
      && r.average <= r.max
      && r.tiktokActive <= r.count
  {
    var m := MaxFollowers(us);
    TotalAtMost(us, m);
    var avg := TotalFollowers(us) as real / |us| as real;
    MeanAtMost(TotalFollowers(us), |us|, m);
    RoundMonotone(avg, m as real);
    RoundInt(m);
    Output(StatsReport(|us|, Round(avg), m, CountTikTokActive(us), TheBenchmarks))
  }

  /** On the dataset: mean 203155, maximum NYU's 593000, three of six on TikTok. */
  lemma DatasetStats()
    ensures Stats(Universities).report.average == 203155
    ensures Stats(Universities).report.max == Universities[1].instagram.followers
    ensures Stats(Universities).report.tiktokActive == 3
  {
    DatasetTotalFollowers();
    assert 1218932.0 / 6.0 == 203155.0 + 1.0 / 3.0;
    LeaderGapAgrees();
    TikTokCountAgrees();
  }

  /** What a command does: not found, a result entry, or replacing the log (`clear` returns null). */
  datatype Outcome = NotFound | Produced(entry: Entry) | Cleared

  predicate IsCommand(name: string) {
    name in {"help", "analyze", "compare", "stats", "recommend", "gap", "clear"}
  }

  /** Looks the lower-cased command name up and runs it. */
  function Dispatch(us: seq<University>, name: string, args: seq<string>): (o: Outcome)
    requires |us| > 0
    ensures o.NotFound? <==> !IsCommand(Lower(name))
    ensures o.Cleared? <==> Lower(name) == "clear"
  {
    match Lower(name)
    case "help" => Produced(Output(HelpReport))
    case "analyze" => Produced(Analyze(us, args))
    case "compare" => Produced(Compare(us, args))
    case "stats" => Produced(Stats(us))
    case "recommend" => Produced(Output(RecommendReport(Recommendations[0])))
    case "gap" => Produced(Output(GapReport(TheGaps, |us|)))
    case "clear" => Cleared
    case _ => NotFound
  }

  function NotFoundMessage(name: string): string {
    "Command \"" + name + "\" not found. Type \"help\" for available commands."
  }

  /** The log after running the non-blank, trimmed line `t`. */
  function AfterCommand(h: seq<Entry>, us: seq<University>, t: string): (r: seq<Entry>)
    requires |us| > 0
  {
    var words := Split(t, ' ');
    var echoed := h + [Line(Input, "> " + t)];
    match Dispatch(us, words[0], words[1..])
    case NotFound => echoed + [Line(Error, NotFoundMessage(words[0]))]
    case Produced(e) => echoed + [e]
    case Cleared => ClearedHistory
  }

  /**
   * Apart from `clear`, a command keeps the log, echoes the line, and then
   * appends exactly one entry: an error naming an unknown command, or the
   * command's result.
   */
  lemma AfterCommandAppends(h: seq<Entry>, us: seq<University>, t: string)
    requires |us| > 0
    ensures var words := Split(t, ' ');
      var r := AfterCommand(h, us, t);
      && (Lower(words[0]) == "clear" <==> r == ClearedHistory)
      && (Lower(words[0]) != "clear" ==>
            |r| == |h| + 2 && r[..|h|] == h && r[|h|] == Line(Input, "> " + t))
      && (!IsCommand(Lower(words[0])) ==> r[|h| + 1] == Line(Error, NotFoundMessage(words[0])))
  {
    var words := Split(t, ' ');
    var r := AfterCommand(h, us, t);
    if Lower(words[0]) != "clear" {
      assert |r| == |h| + 2;
      assert r[|h|] == Line(Input, "> " + t);
    }
  }

  /** The terminal's state: the log and the text in the input box, over the institution records. */
  class Terminal {
    var history: seq<Entry>
    var input: string
    const data: seq<University>

    constructor(data: seq<University>)
      requires |data| > 0
      ensures this.data == data
      ensures history == InitialHistory && input == ""
    {
      this.data := data;
      history := InitialHistory;
      input := "";
    }

    method Type(text: string)
      modifies this
      ensures input == text && history == old(history)
    {
      input := text;
    }

    /** `executeCommand`: blank input changes nothing; otherwise the log is updated and the box emptied. */
    method ExecuteCommand(cmd: string)
      requires |data| > 0
      modifies this
      ensures Trim(cmd) == "" ==> history == old(history) && input == old(input)
      ensures Trim(cmd) != "" ==> history == AfterCommand(old(history), data, Trim(cmd)) && input == ""
    {
      var t := Trim(cmd);
      if t == "" {
        return;
      }
      RunLine(t);
      input := "";
    }

    /** Echoes the line, then appends what the command produced, or replaces the log for `clear`. */
    method RunLine(t: string)
      requires |data| > 0
      modifies this
      ensures history == AfterCommand(old(history), data, t) && input == old(input)
    {
      ghost var before := history;
      history := history + [Line(Input, "> " + t)];
      var words := Split(t, ' ');
      var outcome := Dispatch(data, words[0], words[1..]);
      match outcome {
        case NotFound =>
          history := history + [Line(Error, NotFoundMessage(words[0]))];
        case Produced(e) =>
          history := history + [e];
        case Cleared =>
          history := ClearedHistory;
      }
      assert history == AfterCommand(before, data, t);
    }
  }
}
