/**
 * The insight carousel: five fixed insights, a typing effect that reveals
 * the current insight's text one character per tick, the automatic cycle to
 * the next insight and the dot buttons that jump to one.
 */
module EinsteinAI {

  datatype Insight = Insight(
    id: nat, kind: string, title: string, text: string,
    confidence: nat, actionable: bool, priority: string)

  const Insights: seq<Insight> := [
    Insight(1, "critical", "Critical Gap Detected",
      "NYU has 39.5x more Instagram followers than YU. This represents a 3,853% difference in digital reach. Immediate action required to close this competitive gap.",
      98, true, "HIGH"),
    Insight(2, "opportunity", "High-Impact Opportunity",
      "TikTok adoption could yield 2.28% weekly growth - 4x higher engagement than other platforms. This represents the fastest path to audience expansion.",
      94, true, "HIGH"),
    Insight(3, "insight", "Cross-Platform Synergy",
      "Universities with TikTok presence average 4.8x more Instagram followers. Strong cross-platform correlation detected. Multi-channel strategy recommended.",
      91, true, "MEDIUM"),
    Insight(4, "recommendation", "Content Optimization Strategy",
      "Instagram Reels generate 2.5x more engagement (1.99% vs 0.80%). Posting at 8 PM Wednesday maximizes reach by 45%. Shift content strategy accordingly.",
      96, true, "HIGH"),
    Insight(5, "prediction", "Growth Trajectory Analysis",
      "With optimal strategy implementation, YU can reach 25,000 followers in 6 months - a 67% growth rate. Conservative estimate with 95% confidence interval.",
      89, false, "INFO")
  ]

  /** The insight after `i` in the automatic cycle. */
  function NextInsight(i: nat): (j: nat)
    requires i < |Insights|
    ensures j < |Insights| && j != i
    ensures j == 0 <==> i == |Insights| - 1
  {
    (i + 1) % |Insights|
  }

  /** Five steps of the cycle visit every insight and come back. */
  lemma CycleVisitsAll(i: nat)
    requires i < |Insights|
    ensures NextInsight(NextInsight(NextInsight(NextInsight(NextInsight(i))))) == i
    ensures {i, NextInsight(i), NextInsight(NextInsight(i)), NextInsight(NextInsight(NextInsight(i))),
             NextInsight(NextInsight(NextInsight(NextInsight(i))))} == {0, 1, 2, 3, 4}
  {
  }

  /** `getPriorityColor`: a colour per known priority, the muted default otherwise. */
  function PriorityColor(priority: string): (c: string)
    ensures c == "text-lab-400" <==> priority !in {"HIGH", "MEDIUM", "INFO"}
    ensures priority == "HIGH" ==> c == "text-accent-red"
    ensures priority == "MEDIUM" ==> c == "text-accent-yellow"
    ensures priority == "INFO" ==> c == "text-accent-cyan"
  {
    match priority
    case "HIGH" => "text-accent-red"
    case "MEDIUM" => "text-accent-yellow"
    case "INFO" => "text-accent-cyan"
    case _ => "text-lab-400"
  }

  /** Every insight is shown in one of the named colours. */
  lemma InsightsHaveKnownPriority()
    ensures forall i :: 0 <= i < |Insights| ==> PriorityColor(Insights[i].priority) != "text-lab-400"
  {
  }

  /** The carousel. `typed` is the typing interval's own character counter. */
  class Carousel {
    var currentInsight: nat
    var displayedText: string
    var isTyping: bool
    var isProcessing: bool
    var typed: nat

    function Text(): string
      requires currentInsight < |Insights|
      reads this
    {
      Insights[currentInsight].text
    }

    /** The shown text is the first `typed` characters, and typing stops only once all are shown. */
    ghost predicate Valid()
      reads this
    {
      currentInsight < |Insights|
      && typed <= |Text()|
      && displayedText == Text()[..typed]
      && (!isTyping ==> typed == |Text()|)
    }

    /** Mounting shows the first insight and starts typing it. */
    constructor()
      ensures Valid()
      ensures currentInsight == 0 && displayedText == "" && isTyping && !isProcessing
    {
      currentInsight, isProcessing := 0, false;
      displayedText, isTyping, typed := "", true, 0;
    }

    /** The typing effect, run whenever the current insight changes: clear the text and type again. */
    method RestartTyping()
      requires currentInsight < |Insights|
      modifies this
      ensures Valid()
      ensures displayedText == "" && isTyping && typed == 0
      ensures currentInsight == old(currentInsight) && isProcessing == old(isProcessing)
    {
      isTyping := true;
      displayedText := "";
      typed := 0;
    }

    /** One 30 ms typing tick: reveal one more character, or stop once the whole text is shown. */
    method TypingTick()
      requires Valid()
      modifies this
      ensures Valid()
      ensures old(typed) < |Text()| ==>
        typed == old(typed) + 1 && displayedText == Text()[..typed] && isTyping == old(isTyping)
      ensures old(typed) == |Text()| ==> !isTyping && displayedText == old(displayedText)
      ensures |displayedText| <= |old(displayedText)| + 1
      ensures currentInsight == old(currentInsight) && isProcessing == old(isProcessing)
    {
      var text := Insights[currentInsight].text;
      if typed < |text| {
        displayedText := text[..typed + 1];
        typed := typed + 1;
      } else {
        isTyping := false;
      }
    }

    /** The 10 s cycle interval: mark processing. */
    method BeginCycle()
      requires Valid()
      modifies this
      ensures Valid()
      ensures isProcessing
      ensures currentInsight == old(currentInsight) && displayedText == old(displayedText)
      ensures typed == old(typed) && isTyping == old(isTyping)
    {
      isProcessing := true;
    }

    /** The 300 ms timeout after it: move to the next insight, which always restarts the typing. */
    method EndCycle()
      requires Valid()
      modifies this
      ensures Valid()
      ensures currentInsight == NextInsight(old(currentInsight)) && !isProcessing
      ensures displayedText == "" && isTyping
    {
      currentInsight := (currentInsight + 1) % |Insights|;
      isProcessing := false;
      RestartTyping();
    }

    /** A dot click selects insight `idx`; re-selecting the current one changes nothing. */
    method ClickDot(idx: nat)
      requires Valid() && idx < |Insights|
      modifies this
      ensures Valid()
      ensures currentInsight == idx && isProcessing == old(isProcessing)
      ensures idx != old(currentInsight) ==> displayedText == "" && isTyping
      ensures idx == old(currentInsight) ==>
        displayedText == old(displayedText) && typed == old(typed) && isTyping == old(isTyping)
    {
      if idx != currentInsight {
        currentInsight := idx;
        RestartTyping();
      }
    }
  }
}
