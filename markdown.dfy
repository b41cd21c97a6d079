/** The Markdown rendering of a detailed report and its summary table: a fixed
    template whose lists are numbered from 1 and whose empty sections show
    fixed fallback sentences. */
module MarkdownReport {
  import opened Text
  import opened Dicts
  import opened ReportBuilder

  // ---------------------------------------------------------------------------
  // Fixed text

  const InsightsHeading: string := "\n---\n\n## \U{1F50D} Key Insights\n\n"
  const RisksHeading: string := "\n---\n\n## \U{26A0}\U{FE0F} Risk Assessment\n\n"
  const CostsHeading: string := "\n---\n\n## \U{1F4B0} Cost Considerations\n\n"
  const RoadmapHeading: string := "\n---\n\n## \U{1F4C8} Implementation Roadmap\n\n"
  const AgentsHeading: string := "\n---\n\n## \U{1F4CA} Detailed Agent Recommendations\n\n"

  const NoInsights: string := "No specific insights extracted from the conversation."
  const NoRisks: string := "No specific risks identified in the conversation."
  const NoCosts: string := "No specific cost considerations mentioned."
  const NoAgentRecommendations: string := "No specific recommendations provided."

  /** The title, the metadata block and the head of the summary table, line
      by line; the last line is empty so that the text ends with a newline. */
  function HeaderLines(m: Metadata): seq<string>
  {
    [ "# Multi-Agent Architecture Advisory Report",
      "",
      "**Generated:** " + m.timestamp + "  ",
      "**Request:** " + m.userRequest + "  ",
      "**Categories:** " + Join(m.categories, ", ") + "  ",
      "**Priority:** " + m.priority + "  ",
      "**Total Agents:** " + NatToString(m.totalAgents) + "  ",
      "**Total Recommendations:** " + NatToString(m.totalRecommendations),
      "",
      "---",
      "",
      "## \U{1F4CB} Agent Recommendations Summary",
      "",
      "| Agent | Role | Focus Area | Recommendation Count |",
      "|-------|------|------------|---------------------|",
      "" ]
  }

  function Header(m: Metadata): string
  {
    Join(HeaderLines(m), "\n")
  }

  /** The closing summary, the list of sections and the next steps, line by line. */
  function FooterLines(m: Metadata): seq<string>
  {
    [ "",
      "## \U{1F4CA} Report Summary",
      "",
      "This comprehensive architecture report was generated by analyzing the multi-agent conversation between "
        + NatToString(m.totalAgents) + " specialized architecture agents. The report includes "
        + NatToString(m.totalRecommendations) + " total recommendations across various architectural domains.",
      "",
      "### Report Sections:",
      "- **Agent Recommendations Summary**: Overview of each agent's contributions",
      "- **Key Insights**: Critical findings from the conversation",
      "- **Risk Assessment**: Identified risks and challenges",
      "- **Cost Considerations**: Financial implications and optimizations",
      "- **Implementation Roadmap**: Phased approach to implementation",
      "- **Detailed Agent Recommendations**: Comprehensive recommendations from each specialist",
      "",
      "### Next Steps:",
      "1. Review all agent recommendations carefully",
      "2. Prioritize recommendations based on business needs",
      "3. Develop detailed implementation plans",
      "4. Consider risk mitigation strategies",
      "5. Plan cost optimization approaches",
      "",
      "---",
      "*Report generated by Multi-Agent Architecture Advisory System*",
      "" ]
  }

  function Footer(m: Metadata): string
  {
    Join(FooterLines(m), "\n")
  }

  // ---------------------------------------------------------------------------
  // Repeated parts

  function TableRow(row: SummaryRow): string
  {
    "| " + row.agent + " | " + row.role + " | " + row.focusArea + " | " + NatToString(row.recommendationCount) + " |\n"
  }

  function TableRows(rows: seq<SummaryRow>): string
  {
    if rows == [] then "" else TableRows(rows[..|rows| - 1]) + TableRow(rows[|rows| - 1])
  }

  /** Line `n` of a numbered list. */
  function NumberedItem(n: nat, item: string): string
  {
    NatToString(n) + ". " + item + "\n"
  }

  /** `items` numbered from 1, one per line. */
  function NumberedList(items: seq<string>): string
  {
    if items == [] then "" else NumberedList(items[..|items| - 1]) + NumberedItem(|items|, items[|items| - 1])
  }

  /** A list section: the numbered items, or the fallback sentence when empty. */
  function ListSection(items: seq<string>, fallback: string): string
  {
    if items != [] then NumberedList(items) else fallback + "\n"
  }

  /** A phase's heading, duration and description, then a blank line. */
  function PhaseBlock(p: Phase): string
  {
    Join(["### " + p.phase, "**Duration:** " + p.duration, "**Description:** " + p.description, "", ""], "\n")
  }

  function PhaseBlocks(phases: seq<Phase>): string
  {
    if phases == [] then "" else PhaseBlocks(phases[..|phases| - 1]) + PhaseBlock(phases[|phases| - 1])
  }

  /** An agent's heading, focus area and count, then a blank line. */
  function AgentHead(name: string, s: AgentSummary): string
  {
    Join(["### " + name + " - " + s.role, "**Focus Area:** " + s.focusArea,
          "**Recommendation Count:** " + NatToString(s.count), "", ""], "\n")
  }

  function AgentRecommendations(recommendations: seq<string>): string
  {
    if recommendations != [] then "**Key Recommendations:**\n" + NumberedList(recommendations)
    else NoAgentRecommendations + "\n"
  }

  function AgentBlock(name: string, s: AgentSummary): string
  {
    AgentHead(name, s) + AgentRecommendations(s.recommendations) + "\n---\n\n"
  }

  function AgentBlocks(keys: seq<string>, values: map<string, AgentSummary>): string
    requires forall k :: k in keys ==> k in values
  {
    if keys == [] then ""
    else AgentBlocks(keys[..|keys| - 1], values) + AgentBlock(keys[|keys| - 1], values[keys[|keys| - 1]])
  }

  /** The whole document, in the order the renderer appends its parts. */
  function Markdown(report: Report, table: seq<SummaryRow>): string
    requires report.agentSummaries.Valid()
  {
    Header(report.metadata) + TableRows(table)
    + InsightsHeading + ListSection(report.keyInsights, NoInsights)
    + RisksHeading + ListSection(report.riskAssessment, NoRisks)
    + CostsHeading + ListSection(report.costConsiderations, NoCosts)
    + RoadmapHeading + PhaseBlocks(report.implementationRoadmap)
    + AgentsHeading + AgentBlocks(report.agentSummaries.keys, report.agentSummaries.values)
    + Footer(report.metadata)
  }

  // ---------------------------------------------------------------------------
  // The renderer

  /** `markdown += f"{i}. {item}\n"` for each item, numbered from 1. */
  method AppendNumbered(md: string, items: seq<string>) returns (out: string)
    ensures out == md + NumberedList(items)
  {
    out := md;
    for i := 0 to |items|
      invariant out == md + NumberedList(items[..i])
    {
      assert items[..i + 1][..i] == items[..i];
      out := out + NumberedItem(i + 1, items[i]);
    }
    assert items[..|items|] == items;
  }

  method AppendSection(md: string, items: seq<string>, fallback: string) returns (out: string)
    ensures out == md + ListSection(items, fallback)
  {
    if items != [] {
      out := AppendNumbered(md, items);
    } else {
      out := md + fallback + "\n";
    }
  }

  method AppendAgents(md: string, keys: seq<string>, values: map<string, AgentSummary>) returns (out: string)
    requires forall k :: k in keys ==> k in values
    ensures out == md + AgentBlocks(keys, values)
  {
    out := md;
    for k := 0 to |keys|
      invariant out == md + AgentBlocks(keys[..k], values)
    {
      var agentName := keys[k];
      var agentData := values[agentName];
      var recommendations: string;
      if agentData.recommendations != [] {
        recommendations := AppendNumbered("**Key Recommendations:**\n", agentData.recommendations);
      } else {
        recommendations := NoAgentRecommendations + "\n";
      }
      assert recommendations == AgentRecommendations(agentData.recommendations);
      var block := AgentHead(agentName, agentData) + recommendations + "\n---\n\n";
      assert block == AgentBlock(agentName, agentData);
      AgentBlocksSnoc(keys, values, k);
      ConcatAssoc(md, AgentBlocks(keys[..k], values), block);
      out := out + block;
    }
    assert keys[..|keys|] == keys;
  }

  lemma AgentBlocksSnoc(keys: seq<string>, values: map<string, AgentSummary>, k: int)
    requires forall k :: k in keys ==> k in values
    requires 0 <= k < |keys|
    ensures AgentBlocks(keys[..k + 1], values) == AgentBlocks(keys[..k], values) + AgentBlock(keys[k], values[keys[k]])
  {
    assert keys[..k + 1][..k] == keys[..k];
  }

  method AppendPhases(md: string, phases: seq<Phase>) returns (out: string)
    ensures out == md + PhaseBlocks(phases)
  {
    out := md;
    for p := 0 to |phases|
      invariant out == md + PhaseBlocks(phases[..p])
    {
      assert phases[..p + 1][..p] == phases[..p];
      out := out + PhaseBlock(phases[p]);
    }
    assert phases[..|phases|] == phases;
  }

  method AppendTableRows(md: string, table: seq<SummaryRow>) returns (out: string)
    ensures out == md + TableRows(table)
  {
    out := md;
    for i := 0 to |table|
      invariant out == md + TableRows(table[..i])
    {
      assert table[..i + 1][..i] == table[..i];
      out := out + TableRow(table[i]);
    }
    assert table[..|table|] == table;
  }

  /** `generate_markdown_report(detailed_report, summary_table)`. */
  method GenerateMarkdownReport(report: Report, table: seq<SummaryRow>) returns (md: string)
    requires report.agentSummaries.Valid()
    ensures md == Markdown(report, table)
  {
    var metadata := report.metadata;
    md := AppendTableRows(Header(metadata), table);
    md := AppendSection(md + InsightsHeading, report.keyInsights, NoInsights);
    md := AppendSection(md + RisksHeading, report.riskAssessment, NoRisks);
    md := AppendSection(md + CostsHeading, report.costConsiderations, NoCosts);
    md := AppendPhases(md + RoadmapHeading, report.implementationRoadmap);
    md := AppendAgents(md + AgentsHeading, report.agentSummaries.keys, report.agentSummaries.values);
    md := md + Footer(metadata);
  }

  // ---------------------------------------------------------------------------
  // What the document shows

  /** A piece of either half is a piece of the whole. */
  lemma ContainsEither(s: string, t: string, k: string)
    requires Contains(s, k) || Contains(t, k)
    ensures Contains(s + t, k)
  {
    if Contains(s, k) {
      ContainsPrefix(s, t);
      ContainsTransitive(s + t, s, k);
    } else {
      ContainsSuffix(s, t);
      ContainsTransitive(s + t, t, k);
    }
  }

  /** Item `i` appears as line `i + 1` of the numbered list. */
  lemma {:induction false} NumberedListItem(items: seq<string>, i: int)
    requires 0 <= i < |items|
    ensures Contains(NumberedList(items), NumberedItem(i + 1, items[i]))
    decreases |items|
  {
    var n := |items| - 1;
    if i == n {
      ContainsSuffix(NumberedList(items[..n]), NumberedItem(n + 1, items[n]));
    } else {
      assert items[..n][i] == items[i];
      NumberedListItem(items[..n], i);
      ContainsEither(NumberedList(items[..n]), NumberedItem(n + 1, items[n]), NumberedItem(i + 1, items[i]));
    }
  }

  /** A list section shows every item under its number, or the fallback
      sentence when there are no items. */
  lemma ListSectionShows(items: seq<string>, fallback: string)
    ensures forall i :: 0 <= i < |items| ==> Contains(ListSection(items, fallback), NumberedItem(i + 1, items[i]))
    ensures items == [] ==> Contains(ListSection(items, fallback), fallback + "\n")
  {
    forall i | 0 <= i < |items|
      ensures Contains(ListSection(items, fallback), NumberedItem(i + 1, items[i]))
    {
      NumberedListItem(items, i);
    }
    if items == [] {
      ContainsSelf(fallback + "\n");
    }
  }

  /** Row `i` of the table appears in the table's rendering. */
  lemma {:induction false} TableRowShown(rows: seq<SummaryRow>, i: int)
    requires 0 <= i < |rows|
    ensures Contains(TableRows(rows), TableRow(rows[i]))
    decreases |rows|
  {
    var n := |rows| - 1;
    if i == n {
      ContainsSuffix(TableRows(rows[..n]), TableRow(rows[n]));
    } else {
      assert rows[..n][i] == rows[i];
      TableRowShown(rows[..n], i);
      ContainsEither(TableRows(rows[..n]), TableRow(rows[n]), TableRow(rows[i]));
    }
  }

  /** The block of agent `keys[i]` appears among the agent blocks. */
  lemma {:induction false} AgentBlockShown(keys: seq<string>, values: map<string, AgentSummary>, i: int)
    requires forall k :: k in keys ==> k in values
    requires 0 <= i < |keys|
    ensures Contains(AgentBlocks(keys, values), AgentBlock(keys[i], values[keys[i]]))
    decreases |keys|
  {
    var n := |keys| - 1;
    assert keys[..n + 1] == keys;
    var prev := AgentBlocks(keys[..n], values);
    var last := AgentBlock(keys[n], values[keys[n]]);
    AgentBlocksSnoc(keys, values, n);
    if i == n {
      ContainsSuffix(prev, last);
    } else {
      assert keys[..n][i] == keys[i];
      AgentBlockShown(keys[..n], values, i);
      ContainsEither(prev, last, AgentBlock(keys[i], values[keys[i]]));
    }
  }

  /** The metadata block shows the request, the agent count and the
      recommendation count. */
  lemma HeaderShowsMetadata(m: Metadata)
    ensures Contains(Header(m), "**Request:** " + m.userRequest)
    ensures Contains(Header(m), "**Total Agents:** " + NatToString(m.totalAgents))
    ensures Contains(Header(m), "**Total Recommendations:** " + NatToString(m.totalRecommendations))
  {
    var lines := HeaderLines(m);
    JoinContainsPart(lines, "\n", 3);
    ContainsPrefix("**Request:** " + m.userRequest, "  ");
    ContainsTransitive(Header(m), lines[3], "**Request:** " + m.userRequest);
    JoinContainsPart(lines, "\n", 6);
    ContainsPrefix("**Total Agents:** " + NatToString(m.totalAgents), "  ");
    ContainsTransitive(Header(m), lines[6], "**Total Agents:** " + NatToString(m.totalAgents));
    JoinContainsPart(lines, "\n", 7);
  }

  /** For a conversation with no messages the report has no agents and no
      recommendations, the table has no rows, the three list sections fall
      back to their fixed sentences and no agent block is written. */
  lemma EmptyConversationReport(timestamp: string, userRequest: string, categories: seq<string>, priority: string)
    ensures var report := DetailedReport([], timestamp, userRequest, categories, priority);
      && report.metadata.totalAgents == 0
      && report.metadata.totalRecommendations == 0
      && TableRows(SummaryTable([])) == ""
      && ListSection(report.keyInsights, NoInsights) == NoInsights + "\n"
      && ListSection(report.riskAssessment, NoRisks) == NoRisks + "\n"
      && ListSection(report.costConsiderations, NoCosts) == NoCosts + "\n"
      && AgentBlocks(report.agentSummaries.keys, report.agentSummaries.values) == ""
  {
  }
}
