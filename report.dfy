/** Report assembly: the per-agent summary table, the detailed report record
    with its metadata totals, and the fixed implementation roadmap. */
module ReportBuilder {
  import opened Text
  import opened Messages
  import opened Dicts
  import opened KeyPointExtraction
  import opened Recommendations
  import opened SignalExtraction

  // ---------------------------------------------------------------------------
  // Lookups

  /** The generator's `agent_roles` table. */
  const AgentRoles: map<string, string> := map[
    "HeadOfArchitecture" := "Strategic Oversight",
    "CloudArchitect" := "Cloud Infrastructure",
    "OSSArchitect" := "Open Source Solutions",
    "LeadArchitect" := "Technical Integration",
    BusinessUser := "Business Requirements"
  ]

  const UnknownRole: string := "Unknown Role"

  /** The table inside `_get_focus_area`. */
  const FocusAreas: map<string, string> := map[
    "HeadOfArchitecture" := "Strategic Planning & Business Alignment",
    "CloudArchitect" := "Cloud Infrastructure & Scalability",
    "OSSArchitect" := "Open Source Tools & Cost Optimization",
    "LeadArchitect" := "Technical Integration & Architecture Patterns"
  ]

  const GeneralArchitecture: string := "General Architecture"

  /** `agent_roles.get(agent, "Unknown Role")`. */
  function RoleOf(agent: string): (role: string)
    ensures role == UnknownRole <==> agent !in AgentRoles
    ensures agent in AgentRoles ==> role == AgentRoles[agent]
  {
    if agent in AgentRoles then AgentRoles[agent] else UnknownRole
  }

  /** `_get_focus_area(agent)`. */
  function FocusAreaOf(agent: string): (area: string)
    ensures area == GeneralArchitecture <==> agent !in FocusAreas
    ensures agent in FocusAreas ==> area == FocusAreas[agent]
  {
    if agent in FocusAreas then FocusAreas[agent] else GeneralArchitecture
  }

  /** The defaults are told apart from table entries: an agent gets
      "Unknown Role" (resp. "General Architecture") exactly when it is not in
      the table, and the requester's proxy is the only agent with a role but
      no focus area. */
  lemma LookupDefaults(agent: string)
    ensures RoleOf(agent) == UnknownRole <==> agent !in AgentRoles
    ensures FocusAreaOf(agent) == GeneralArchitecture <==> agent !in FocusAreas
    ensures agent in AgentRoles && agent !in FocusAreas <==> agent == BusinessUser
  {
    assert UnknownRole[0] == 'U';
    assert GeneralArchitecture[0] == 'G';
    if agent in AgentRoles {
      assert agent in FocusAreas || agent == BusinessUser;
      if agent == BusinessUser {
        assert AgentRoles[agent] == "Business Requirements";
      } else {
        assert AgentRoles[agent][0] in "SCOT";
      }
    }
    if agent in FocusAreas {
      assert FocusAreas[agent][0] in "SCOT";
    }
  }

  // ---------------------------------------------------------------------------
  // Roadmap

  datatype Phase = Phase(phase: string, duration: string, description: string)

  /** The four phases every roadmap consists of. */
  const Phases: seq<Phase> := [
    Phase("Phase 1: Foundation", "2-4 weeks", "Core infrastructure setup"),
    Phase("Phase 2: Development", "4-8 weeks", "Application development and integration"),
    Phase("Phase 3: Testing", "2-3 weeks", "Testing and quality assurance"),
    Phase("Phase 4: Deployment", "1-2 weeks", "Production deployment and monitoring")
  ]

  /** `_generate_roadmap(recommendations)`: the argument is not consulted. */
  function GenerateRoadmap(recommendations: Dict<seq<string>>): (phases: seq<Phase>)
    ensures |phases| == 4
    ensures forall i, j :: 0 <= i < j < |phases| ==> phases[i].phase != phases[j].phase
    ensures forall i :: 0 <= i < |phases| ==> phases[i].duration != [] && phases[i].description != []
  {
    Phases
  }

  // ---------------------------------------------------------------------------
  // Summary table

  datatype SummaryRow = SummaryRow(
    agent: string,
    role: string,
    keyRecommendations: string,
    recommendationCount: nat,
    focusArea: string)

  const NoRecommendations: string := "No specific recommendations provided"

  /** At most this many key points are shown in a summary row. */
  const MaxShownPoints: nat := 5

  /** The "Key Recommendations" cell: the first five key points, one per
      line, or the placeholder when there are none. */
  function CombinedPoints(points: seq<string>): string
  {
    if points != [] then Join(Take(points, MaxShownPoints), "\n") else NoRecommendations
  }

  /** The cell can be read back: cutting it at line breaks yields the first
      five key points, provided no key point holds a line break (which
      extraction guarantees). */
  lemma CombinedPointsLines(points: seq<string>)
    requires points != []
    requires forall i :: 0 <= i < |points| ==> '\n' !in points[i]
    ensures Split(CombinedPoints(points), '\n') == Take(points, MaxShownPoints)
  {
    var shown := Take(points, MaxShownPoints);
    assert forall i :: 0 <= i < |shown| ==> shown[i] == points[i];
    SplitJoin(shown, '\n');
  }

  function RowFor(agent: string, points: seq<string>): SummaryRow
  {
    SummaryRow(agent, RoleOf(agent), CombinedPoints(points), |points|, FocusAreaOf(agent))
  }

  /** One row per key of `keys`, in order. */
  function Rows(keys: seq<string>, values: map<string, seq<string>>): (rows: seq<SummaryRow>)
    requires forall k :: k in keys ==> k in values
    ensures |rows| == |keys|
    ensures forall i :: 0 <= i < |keys| ==> rows[i] == RowFor(keys[i], values[keys[i]])
  {
    if keys == [] then []
    else Rows(keys[..|keys| - 1], values) + [RowFor(keys[|keys| - 1], values[keys[|keys| - 1]])]
  }

  /** The summary table of a transcript. */
  function SummaryTable(messages: seq<Message>): seq<SummaryRow>
  {
    var recs := RecommendationsOf(messages);
    Rows(recs.keys, recs.values)
  }

  /** `generate_summary_table(messages, ...)`: one row appended per entry of
      the recommendations dictionary. The request, categories and priority
      are accepted but unused. */
  method GenerateSummaryTable(messages: seq<Message>, userRequest: string, categories: seq<string>, priority: string)
    returns (rows: seq<SummaryRow>)
    ensures rows == SummaryTable(messages)
  {
    var recommendations := ExtractKeyRecommendations(messages);
    rows := [];
    var keys := recommendations.keys;
    for i := 0 to |keys|
      invariant rows == Rows(keys[..i], recommendations.values)
    {
      var agentName := keys[i];
      var keyPoints := recommendations.values[agentName];
      RowsSnoc(keys, recommendations.values, i);
      rows := rows + [RowFor(agentName, keyPoints)];
    }
    assert keys[..|keys|] == keys;
  }

  lemma RowsSnoc(keys: seq<string>, values: map<string, seq<string>>, i: int)
    requires forall k :: k in keys ==> k in values
    requires 0 <= i < |keys|
    ensures Rows(keys[..i + 1], values) == Rows(keys[..i], values) + [RowFor(keys[i], values[keys[i]])]
  {
    assert keys[..i + 1][..i] == keys[..i];
  }

  /** What one row holds: an agent other than the requester's proxy, the
      full number of its key points (at most ten), and the first five of them
      one per line, or the placeholder when there are none. */
  lemma RowForEntry(messages: seq<Message>, agent: string)
    requires agent in RecommendationsOf(messages).values
    ensures var points := RecommendationsOf(messages).values[agent];
      var row := RowFor(agent, points);
      && row.agent != BusinessUser
      && row.role != "Business Requirements"
      && row.recommendationCount == |points| <= MaxKeyPoints
      && (row.recommendationCount == 0 ==> row.keyRecommendations == NoRecommendations)
      && (row.recommendationCount > 0 ==> Split(row.keyRecommendations, '\n') == Take(points, MaxShownPoints))
  {
    var points := RecommendationsOf(messages).values[agent];
    NoBusinessUserEntry(messages);
    RecommendationValuesShape(messages, agent);
    if agent in AgentRoles {
      assert AgentRoles[agent] == "Business Requirements" ==> agent == BusinessUser;
    }
    if points != [] {
      CombinedPointsLines(points);
    }
  }

  /** The summary table has one row per contributing agent, in the order the
      agents first contributed, each describing that agent's entry. */
  lemma SummaryTableRows(messages: seq<Message>)
    ensures var agents := FirstOccurrences(ContributorNames(messages));
      var rows := SummaryTable(messages);
      && |rows| == |agents|
      && forall i :: 0 <= i < |rows| ==>
        && rows[i].agent == agents[i]
        && agents[i] in RecommendationsOf(messages).values
        && rows[i] == RowFor(agents[i], RecommendationsOf(messages).values[agents[i]])
  {
    KeysInFirstContributionOrder(messages);
  }


  // ---------------------------------------------------------------------------
  // Detailed report

  datatype Metadata = Metadata(
    timestamp: string,
    userRequest: string,
    categories: seq<string>,
    priority: string,
    totalAgents: nat,
    totalRecommendations: nat)

  datatype AgentSummary = AgentSummary(role: string, recommendations: seq<string>, count: nat, focusArea: string)

  datatype Report = Report(
    metadata: Metadata,
    agentSummaries: Dict<AgentSummary>,
    keyInsights: seq<string>,
    implementationRoadmap: seq<Phase>,
    riskAssessment: seq<string>,
    costConsiderations: seq<string>)

  /** `sum(len(points) for points in recommendations.values())`. */
  function TotalPoints(keys: seq<string>, values: map<string, seq<string>>): nat
    requires forall k :: k in keys ==> k in values
  {
    if keys == [] then 0
    else TotalPoints(keys[..|keys| - 1], values) + |values[keys[|keys| - 1]]|
  }

  /** The sum of the `count` fields of a summary dictionary. */
  function TotalCount(d: Dict<AgentSummary>): nat
    requires d.Valid()
  {
    CountOver(d.keys, d.values)
  }

  function CountOver(keys: seq<string>, values: map<string, AgentSummary>): nat
    requires forall k :: k in keys ==> k in values
  {
    if keys == [] then 0
    else CountOver(keys[..|keys| - 1], values) + values[keys[|keys| - 1]].count
  }

  function SummaryFor(agent: string, points: seq<string>): AgentSummary
  {
    AgentSummary(RoleOf(agent), points, |points|, FocusAreaOf(agent))
  }

  /** The `agent_summaries` dictionary after the loop has visited `keys`. */
  function Summaries(keys: seq<string>, values: map<string, seq<string>>): (d: Dict<AgentSummary>)
    requires forall k :: k in keys ==> k in values
    ensures d.Valid()
  {
    if keys == [] then Empty()
    else
      var k := keys[|keys| - 1];
      Summaries(keys[..|keys| - 1], values).Put(k, SummaryFor(k, values[k]))
  }

  function DetailedReport(messages: seq<Message>, timestamp: string, userRequest: string,
                          categories: seq<string>, priority: string): Report
  {
    var recs := RecommendationsOf(messages);
    var metadata := Metadata(timestamp, userRequest, categories, priority,
                             |recs.keys|, TotalPoints(recs.keys, recs.values));
    Report(metadata, Summaries(recs.keys, recs.values), Insights(messages),
           GenerateRoadmap(recs), Risks(messages), Costs(messages))
  }

  /** `generate_detailed_report(messages, user_request, categories, priority)`;
      the clock reading is passed in as `timestamp`. The summary dictionary is
      filled in place, one agent at a time. */
  method GenerateDetailedReport(messages: seq<Message>, timestamp: string, userRequest: string,
                                categories: seq<string>, priority: string)
    returns (report: Report)
    ensures report == DetailedReport(messages, timestamp, userRequest, categories, priority)
  {
    var recommendations := ExtractKeyRecommendations(messages);
    var metadata := Metadata(timestamp, userRequest, categories, priority,
                             |recommendations.keys|, TotalPoints(recommendations.keys, recommendations.values));
    var summaries := BuildSummaries(recommendations.keys, recommendations.values);
    var insights := ExtractInsights(messages);
    var roadmap := GenerateRoadmap(recommendations);
    var risks := ExtractRisks(messages);
    var costs := ExtractCostConsiderations(messages);
    report := Report(metadata, summaries, insights, roadmap, risks, costs);
  }

  /** The loop of `generate_detailed_report` that fills `agent_summaries`,
      one `summaries[agent] = {...}` per recommendations entry. */
  method BuildSummaries(keys: seq<string>, values: map<string, seq<string>>) returns (summaries: Dict<AgentSummary>)
    requires forall k :: k in keys ==> k in values
    ensures summaries == Summaries(keys, values)
  {
    summaries := Empty();
    for i := 0 to |keys|
      invariant summaries == Summaries(keys[..i], values)
    {
      var agentName := keys[i];
      var keyPoints := values[agentName];
      SummariesSnoc(keys, values, i);
      summaries := summaries.Put(agentName, SummaryFor(agentName, keyPoints));
    }
    assert keys[..|keys|] == keys;
  }

  lemma SummariesSnoc(keys: seq<string>, values: map<string, seq<string>>, i: int)
    requires forall k :: k in keys ==> k in values
    requires 0 <= i < |keys|
    ensures Summaries(keys[..i + 1], values) == Summaries(keys[..i], values).Put(keys[i], SummaryFor(keys[i], values[keys[i]]))
  {
    assert keys[..i + 1][..i] == keys[..i];
  }

  /** With distinct keys, the summary dictionary has exactly those keys in
      that order, and each summary describes that agent's key points. */
  lemma {:induction false} SummariesContent(keys: seq<string>, values: map<string, seq<string>>)
    requires forall k :: k in keys ==> k in values
    requires forall i, j :: 0 <= i < j < |keys| ==> keys[i] != keys[j]
    ensures Summaries(keys, values).keys == keys
    ensures forall k :: k in keys ==> Summaries(keys, values).values[k] == SummaryFor(k, values[k])
  {
    if keys != [] {
      var init := keys[..|keys| - 1];
      var last := keys[|keys| - 1];
      assert keys == init + [last];
      assert last !in init;
      SummariesContent(init, values);
      var prev := Summaries(init, values);
      assert last !in prev.values;
      assert Summaries(keys, values) == prev.Put(last, SummaryFor(last, values[last]));
    }
  }

  lemma {:induction false} CountsMatchPoints(keys: seq<string>, values: map<string, seq<string>>, summaries: map<string, AgentSummary>)
    requires forall k :: k in keys ==> k in values && k in summaries && summaries[k].count == |values[k]|
    ensures CountOver(keys, summaries) == TotalPoints(keys, values)
  {
    if keys != [] {
      CountsMatchPoints(keys[..|keys| - 1], values, summaries);
    }
  }

  /** The metadata agrees with the summaries: `total_agents` is the number of
      summaries, `total_recommendations` the sum of their counts; the
      summaries follow the recommendations dictionary, and the roadmap is the
      same four phases whatever the transcript. */
  lemma DetailedReportConsistent(messages: seq<Message>, timestamp: string, userRequest: string,
                                 categories: seq<string>, priority: string)
    ensures var r := DetailedReport(messages, timestamp, userRequest, categories, priority);
      var recs := RecommendationsOf(messages);
      && r.metadata.totalAgents == |r.agentSummaries.keys|
      && r.metadata.totalRecommendations == TotalCount(r.agentSummaries)
      && r.agentSummaries.keys == recs.keys
      && (forall k :: k in recs.values ==>
          k in r.agentSummaries.values
          && r.agentSummaries.values[k].recommendations == recs.values[k]
          && r.agentSummaries.values[k].count == |recs.values[k]|)
      && |r.implementationRoadmap| == 4
      && r.implementationRoadmap == DetailedReport([], "", "", [], "").implementationRoadmap
  {
    var recs := RecommendationsOf(messages);
    var d := Summaries(recs.keys, recs.values);
    SummariesContent(recs.keys, recs.values);
    CountsMatchPoints(recs.keys, recs.values, d.values);
  }
}
