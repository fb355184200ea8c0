/**
 * The smart insights card (SmartInsights.jsx): the priority styling, the
 * "Hot" badge, the icon per insight type, and the compact selection.
 */
module SmartInsights {
  /** The fields of an insight the card reads. */
  datatype Insight = Insight(id: string, kind: string, priority: string, title: string, message: string, action: string)

  /** The icons of `getInsightIcon`; Info is the default. */
  datatype Icon = RefreshCw | Flame | BarChart3 | Sparkles | PiggyBank | Info

  const KnownKinds: set<string> := {"restock", "deal", "pattern", "recommendation", "savings"}

  /** `getInsightIcon(type)`. */
  function InsightIcon(kind: string): (r: Icon)
    ensures r == Info <==> kind !in KnownKinds
    ensures r == Flame <==> kind == "deal"
  {
    match kind
    case "restock" => RefreshCw
    case "deal" => Flame
    case "pattern" => BarChart3
    case "recommendation" => Sparkles
    case "savings" => PiggyBank
    case _ => Info
  }

  /** `getPriorityClass(priority)`: any priority other than high or medium is styled as low. */
  function PriorityClass(priority: string): (r: string)
    ensures r == "priority-high" <==> priority == "high"
    ensures r == "priority-medium" <==> priority == "medium"
    ensures r == "priority-low" <==> priority != "high" && priority != "medium"
  {
    match priority
    case "high" => "priority-high"
    case "medium" => "priority-medium"
    case _ => "priority-low"
  }

  /** `displayedInsights`: in compact mode the first three, otherwise all. */
  function Displayed(insights: seq<Insight>, compact: bool): (r: seq<Insight>)
    ensures r <= insights
    ensures !compact ==> r == insights
    ensures compact ==> |r| == if |insights| < 3 then |insights| else 3
  {
    if compact && |insights| > 3 then insights[..3] else insights
  }

  /** Selecting the compact list again from what it shows changes nothing. */
  lemma CompactIdempotent(insights: seq<Insight>)
    ensures Displayed(Displayed(insights, true), true) == Displayed(insights, true)
  {
  }

  /** What one card shows besides its texts. */
  datatype InsightCard = InsightCard(className: string, icon: Icon, actionShown: bool, hot: bool)

  /** One entry of the list. */
  function CardFor(insight: Insight, compact: bool): (r: InsightCard)
    ensures r.hot <==> insight.priority == "high"
    ensures r.actionShown <==> !compact
    ensures r.className == "insight-card " + PriorityClass(insight.priority)
    ensures r.icon == InsightIcon(insight.kind)
  {
    InsightCard("insight-card " + PriorityClass(insight.priority), InsightIcon(insight.kind), !compact, insight.priority == "high")
  }

  /** The badge and the high-priority styling go together. */
  lemma HotIffHighStyle(insight: Insight, compact: bool)
    ensures CardFor(insight, compact).hot <==> PriorityClass(insight.priority) == "priority-high"
  {
  }
}
