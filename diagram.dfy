/** The discrete structure behind the charts: the architecture diagram's
    nodes, labels and edges, the risk matrix's integer scores, and the
    implementation timeline's bars. */
module Charts {
  import opened Text
  import opened ComponentExtraction
  import opened ReportBuilder

  // ---------------------------------------------------------------------------
  // Architecture diagram

  datatype NodeKind = Application | Cloud | Database | Microservice | Api

  /** A graph node with the text shown when hovering over it. */
  datatype Node = Node(id: string, kind: NodeKind, hover: string)

  /** An undirected edge. */
  datatype Edge = Edge(a: string, b: string)

  datatype Diagram = Diagram(nodes: seq<Node>, edges: seq<Edge>)

  const Center: string := "Main Application"

  /** Hover texts are cut to fifty characters plus "...". */
  const MaxLabelLength: nat := 50

  /** `s[:n] + "..." if len(s) > n else s`. */
  function Truncate(s: string, n: nat): (r: string)
    ensures |s| <= n ==> r == s
    ensures |s| > n ==> |r| == n + 3 && r[..n] == s[..n] && r[n..] == "..."
  {
    if |s| > n then s[..n] + "..." else s
  }

  /** `f"{prefix}_{i}"`. */
  function NodeId(prefix: string, i: nat): string
  {
    prefix + "_" + NatToString(i)
  }

  /** The satellites of one bucket, `prefix_0`, `prefix_1`, … in entry order. */
  function Satellites(prefix: string, kind: NodeKind, entries: seq<string>): (r: seq<Node>)
    ensures |r| == |entries|
  {
    if entries == [] then []
    else
      var n := |entries| - 1;
      Satellites(prefix, kind, entries[..n]) + [Node(NodeId(prefix, n), kind, Truncate(entries[n], MaxLabelLength))]
  }

  /** One edge from the centre to each satellite. */
  function Spokes(satellites: seq<Node>): (r: seq<Edge>)
    ensures |r| == |satellites|
  {
    if satellites == [] then []
    else Spokes(satellites[..|satellites| - 1]) + [Edge(Center, satellites[|satellites| - 1].id)]
  }

  /** Positions of the four buckets the diagram draws, in `Buckets`. */
  const CloudIndex: nat := 0
  const DatabaseIndex: nat := 1
  const ApiIndex: nat := 2
  const MicroserviceIndex: nat := 3

  /** One group of satellites: id prefix, node kind, and the bucket's entries. */
  datatype Group = Group(prefix: string, kind: NodeKind, entries: seq<string>)

  /** The groups in the order the source adds them: cloud services,
      databases, microservices, APIs. */
  function Groups(components: seq<seq<string>>): seq<Group>
    requires |components| == |Buckets|
  {
    [ Group("Cloud", Cloud, components[CloudIndex]),
      Group("DB", Database, components[DatabaseIndex]),
      Group("Service", Microservice, components[MicroserviceIndex]),
      Group("API", Api, components[ApiIndex]) ]
  }

  function GroupNodes(groups: seq<Group>): seq<Node>
  {
    if groups == [] then []
    else
      var g := groups[|groups| - 1];
      GroupNodes(groups[..|groups| - 1]) + Satellites(g.prefix, g.kind, g.entries)
  }

  function AllSatellites(components: seq<seq<string>>): seq<Node>
    requires |components| == |Buckets|
  {
    GroupNodes(Groups(components))
  }

  function DiagramOf(components: seq<seq<string>>): Diagram
    requires |components| == |Buckets|
  {
    var satellites := AllSatellites(components);
    Diagram([Node(Center, Application, Center)] + satellites, Spokes(satellites))
  }

  /** The node-adding loop of one bucket. */
  method AddSatellites(prefix: string, kind: NodeKind, entries: seq<string>, nodes: seq<Node>, edges: seq<Edge>)
    returns (nodes': seq<Node>, edges': seq<Edge>)
    ensures nodes' == nodes + Satellites(prefix, kind, entries)
    ensures edges' == edges + Spokes(Satellites(prefix, kind, entries))
  {
    nodes', edges' := nodes, edges;
    for i := 0 to |entries|
      invariant nodes' == nodes + Satellites(prefix, kind, entries[..i])
      invariant edges' == edges + Spokes(Satellites(prefix, kind, entries[..i]))
    {
      var service := entries[i];
      var nodeId := NodeId(prefix, i);
      var hover := Truncate(service, MaxLabelLength);
      var node := Node(nodeId, kind, hover);
      var before := Satellites(prefix, kind, entries[..i]);
      SatellitesStep(prefix, kind, entries, i);
      ConcatAssoc(nodes, before, [node]);
      ConcatAssoc(edges, Spokes(before), [Edge(Center, nodeId)]);
      nodes' := nodes' + [node];
      edges' := edges' + [Edge(Center, nodeId)];
    }
    assert entries[..|entries|] == entries;
  }

  /** One turn of the node-adding loop adds one satellite and its edge. */
  lemma SatellitesStep(prefix: string, kind: NodeKind, entries: seq<string>, i: int)
    requires 0 <= i < |entries|
    ensures var before := Satellites(prefix, kind, entries[..i]);
      var node := Node(NodeId(prefix, i), kind, Truncate(entries[i], MaxLabelLength));
      && Satellites(prefix, kind, entries[..i + 1]) == before + [node]
      && Spokes(Satellites(prefix, kind, entries[..i + 1])) == Spokes(before) + [Edge(Center, node.id)]
  {
    assert entries[..i + 1][..i] == entries[..i];
    var before := Satellites(prefix, kind, entries[..i]);
    var node := Node(NodeId(prefix, i), kind, Truncate(entries[i], MaxLabelLength));
    SpokesAppend(before, [node]);
    assert [node][..0] == [];
  }

  lemma {:induction false} SpokesAppend(a: seq<Node>, b: seq<Node>)
    ensures Spokes(a + b) == Spokes(a) + Spokes(b)
    decreases |b|
  {
    if b == [] {
      assert a + b == a;
    } else {
      assert (a + b)[..|a + b| - 1] == a + b[..|b| - 1];
      SpokesAppend(a, b[..|b| - 1]);
    }
  }

  /** Satellite `i` is `prefix_i` with its entry cut to fifty characters. */
  lemma {:induction false} SatelliteAt(prefix: string, kind: NodeKind, entries: seq<string>, i: int)
    requires 0 <= i < |entries|
    ensures Satellites(prefix, kind, entries)[i] == Node(NodeId(prefix, i), kind, Truncate(entries[i], MaxLabelLength))
  {
    var n := |entries| - 1;
    if i < n {
      assert entries[..n][i] == entries[i];
      SatelliteAt(prefix, kind, entries[..n], i);
    }
  }

  /** Edge `i` joins the centre to satellite `i`. */
  lemma {:induction false} SpokeAt(satellites: seq<Node>, i: int)
    requires 0 <= i < |satellites|
    ensures Spokes(satellites)[i] == Edge(Center, satellites[i].id)
  {
    var n := |satellites| - 1;
    if i < n {
      assert satellites[..n][i] == satellites[i];
      SpokeAt(satellites[..n], i);
    }
  }

  /** `create_architecture_diagram(components, user_request)`, without the
      coordinates and the figure. */
  method CreateArchitectureDiagram(components: seq<seq<string>>, userRequest: string) returns (d: Diagram)
    requires |components| == |Buckets|
    ensures d == DiagramOf(components)
  {
    var nodes: seq<Node> := [Node(Center, Application, Center)];
    var edges: seq<Edge> := [];
    var groups := Groups(components);
    for k := 0 to |groups|
      invariant nodes == [Node(Center, Application, Center)] + GroupNodes(groups[..k])
      invariant edges == Spokes(GroupNodes(groups[..k]))
    {
      var g := groups[k];
      assert groups[..k + 1][..k] == groups[..k];
      var added := Satellites(g.prefix, g.kind, g.entries);
      assert GroupNodes(groups[..k + 1]) == GroupNodes(groups[..k]) + added;
      SpokesAppend(GroupNodes(groups[..k]), added);
      ConcatAssoc([Node(Center, Application, Center)], GroupNodes(groups[..k]), added);
      nodes, edges := AddSatellites(g.prefix, g.kind, g.entries, nodes, edges);
    }
    assert groups[..|groups|] == groups;
    d := Diagram(nodes, edges);
  }

  /** Identifiers of one prefix differ when their indices do. */
  lemma NodeIdInjective(prefix: string, i: nat, j: nat)
    requires NodeId(prefix, i) == NodeId(prefix, j)
    ensures i == j
  {
    var a := NodeId(prefix, i);
    assert a[|prefix| + 1..] == NatToString(i);
    assert NodeId(prefix, j)[|prefix| + 1..] == NatToString(j);
    NatToStringInjective(i, j);
  }

  /** No id occurs twice. */
  predicate DistinctIds(nodes: seq<Node>)
  {
    forall i, j :: 0 <= i < j < |nodes| ==> nodes[i].id != nodes[j].id
  }

  /** Every id is non-empty and starts with a character of `initials`. */
  predicate InitialsIn(nodes: seq<Node>, initials: set<char>)
  {
    forall i :: 0 <= i < |nodes| ==> nodes[i].id != [] && nodes[i].id[0] in initials
  }

  predicate ShortHovers(nodes: seq<Node>)
  {
    forall i :: 0 <= i < |nodes| ==> |nodes[i].hover| <= MaxLabelLength + 3
  }

  /** One bucket's satellites have distinct ids starting like the prefix,
      and hover texts of at most 53 characters. */
  lemma SatellitesWellFormed(prefix: string, kind: NodeKind, entries: seq<string>)
    requires prefix != []
    ensures var s := Satellites(prefix, kind, entries);
      DistinctIds(s) && InitialsIn(s, {prefix[0]}) && ShortHovers(s)
  {
    var s := Satellites(prefix, kind, entries);
    forall i | 0 <= i < |s|
      ensures s[i].id != [] && s[i].id[0] == prefix[0] && |s[i].hover| <= MaxLabelLength + 3
    {
      SatelliteAt(prefix, kind, entries, i);
    }
    forall i, j | 0 <= i < j < |s|
      ensures s[i].id != s[j].id
    {
      SatelliteAt(prefix, kind, entries, i);
      SatelliteAt(prefix, kind, entries, j);
      if NodeId(prefix, i) == NodeId(prefix, j) {
        NodeIdInjective(prefix, i, j);
      }
    }
  }

  lemma ConcatWellFormed(a: seq<Node>, b: seq<Node>, ca: set<char>, cb: set<char>)
    requires DistinctIds(a) && DistinctIds(b) && ShortHovers(a) && ShortHovers(b)
    requires InitialsIn(a, ca) && InitialsIn(b, cb) && ca !! cb
    ensures DistinctIds(a + b) && InitialsIn(a + b, ca + cb) && ShortHovers(a + b)
  {
    var c := a + b;
    forall i, j | 0 <= i < j < |c|
      ensures c[i].id != c[j].id
    {
      if i < |a| && j >= |a| {
        assert c[i].id[0] in ca && c[j].id[0] in cb;
      }
    }
  }

  lemma AllSatellitesBlocks(components: seq<seq<string>>)
    requires |components| == |Buckets|
    ensures AllSatellites(components) ==
      Satellites("Cloud", Cloud, components[CloudIndex])
      + Satellites("DB", Database, components[DatabaseIndex])
      + Satellites("Service", Microservice, components[MicroserviceIndex])
      + Satellites("API", Api, components[ApiIndex])
  {
    var gs := Groups(components);
    var s1 := Satellites("Cloud", Cloud, components[CloudIndex]);
    var s2 := Satellites("DB", Database, components[DatabaseIndex]);
    var s3 := Satellites("Service", Microservice, components[MicroserviceIndex]);
    var s4 := Satellites("API", Api, components[ApiIndex]);
    assert gs[..1][..0] == [];
    assert GroupNodes(gs[..1]) == s1;
    assert gs[..2][..1] == gs[..1];
    assert GroupNodes(gs[..2]) == s1 + s2;
    assert gs[..3][..2] == gs[..2];
    assert GroupNodes(gs[..3]) == s1 + s2 + s3;
    assert gs[..3] == gs[..|gs| - 1];
    assert GroupNodes(gs) == s1 + s2 + s3 + s4;
  }

  lemma FiveBlocks(c0: seq<Node>, s1: seq<Node>, s2: seq<Node>, s3: seq<Node>, s4: seq<Node>)
    requires DistinctIds(c0) && DistinctIds(s1) && DistinctIds(s2) && DistinctIds(s3) && DistinctIds(s4)
    requires ShortHovers(c0) && ShortHovers(s1) && ShortHovers(s2) && ShortHovers(s3) && ShortHovers(s4)
    requires InitialsIn(c0, {'M'}) && InitialsIn(s1, {'C'}) && InitialsIn(s2, {'D'})
    requires InitialsIn(s3, {'S'}) && InitialsIn(s4, {'A'})
    ensures DistinctIds(c0 + (s1 + s2 + s3 + s4)) && ShortHovers(c0 + (s1 + s2 + s3 + s4))
  {
    ConcatWellFormed(c0, s1, {'M'}, {'C'});
    ConcatWellFormed(c0 + s1, s2, {'M', 'C'}, {'D'});
    ConcatWellFormed(c0 + s1 + s2, s3, {'M', 'C', 'D'}, {'S'});
    ConcatWellFormed(c0 + s1 + s2 + s3, s4, {'M', 'C', 'D', 'S'}, {'A'});
    ConcatAssoc(c0, s1, s2);
    ConcatAssoc(c0, s1 + s2, s3);
    ConcatAssoc(c0, s1 + s2 + s3, s4);
  }

  /** Every node id is used once, so the graph has one node per entry drawn
      plus the centre, and every hover text is at most 53 characters. */
  lemma DiagramNodes(components: seq<seq<string>>)
    requires |components| == |Buckets|
    ensures var d := DiagramOf(components);
      && |d.nodes| == 1 + |components[CloudIndex]| + |components[DatabaseIndex]|
                        + |components[MicroserviceIndex]| + |components[ApiIndex]|
      && d.nodes[0].id == Center
      && DistinctIds(d.nodes)
      && ShortHovers(d.nodes)
  {
    var c0 := [Node(Center, Application, Center)];
    var s1 := Satellites("Cloud", Cloud, components[CloudIndex]);
    var s2 := Satellites("DB", Database, components[DatabaseIndex]);
    var s3 := Satellites("Service", Microservice, components[MicroserviceIndex]);
    var s4 := Satellites("API", Api, components[ApiIndex]);
    SatellitesWellFormed("Cloud", Cloud, components[CloudIndex]);
    SatellitesWellFormed("DB", Database, components[DatabaseIndex]);
    SatellitesWellFormed("Service", Microservice, components[MicroserviceIndex]);
    SatellitesWellFormed("API", Api, components[ApiIndex]);
    assert InitialsIn(c0, {'M'});
    FiveBlocks(c0, s1, s2, s3, s4);
    AllSatellitesBlocks(components);
    assert DiagramOf(components).nodes == c0 + (s1 + s2 + s3 + s4);
  }

  /** There is exactly one edge per satellite, joining it to "Main Application". */
  lemma DiagramEdges(components: seq<seq<string>>)
    requires |components| == |Buckets|
    ensures var d := DiagramOf(components);
      && |d.edges| == |d.nodes| - 1
      && forall i :: 0 <= i < |d.edges| ==> d.edges[i] == Edge(Center, d.nodes[i + 1].id)
  {
    var d := DiagramOf(components);
    var sats := AllSatellites(components);
    forall i | 0 <= i < |d.edges|
      ensures d.edges[i] == Edge(Center, d.nodes[i + 1].id)
    {
      SpokeAt(sats, i);
      assert d.nodes[i + 1] == sats[i];
    }
  }

  /** Only four of the eight buckets are drawn: storage, security,
      monitoring and user-interface entries never change the diagram. */
  lemma DiagramIgnoresOtherBuckets(c1: seq<seq<string>>, c2: seq<seq<string>>)
    requires |c1| == |Buckets| && |c2| == |Buckets|
    requires c1[CloudIndex] == c2[CloudIndex] && c1[DatabaseIndex] == c2[DatabaseIndex]
    requires c1[MicroserviceIndex] == c2[MicroserviceIndex] && c1[ApiIndex] == c2[ApiIndex]
    ensures DiagramOf(c1) == DiagramOf(c2)
  {
  }

  // ---------------------------------------------------------------------------
  // Risk priority matrix

  datatype RiskPoint = RiskPoint(risk: string, impact: nat, probability: nat, description: string)

  const ImpactWords: seq<string> := ["critical", "severe", "major"]
  const ProbabilityWords: seq<string> := ["likely", "probable", "common"]

  /** Descriptions are cut to a hundred characters plus "...". */
  const MaxDescriptionLength: nat := 100

  function Impact(risk: string): (score: nat)
    ensures score == 2 || score == 3
    ensures score == 3 <==> exists k :: 0 <= k < |ImpactWords| && Contains(Lower(risk), ImpactWords[k])
  {
    if AnyKeyword(Lower(risk), ImpactWords) then 3 else 2
  }

  function Probability(risk: string): (score: nat)
    ensures score == 2 || score == 3
    ensures score == 3 <==> exists k :: 0 <= k < |ProbabilityWords| && Contains(Lower(risk), ProbabilityWords[k])
  {
    if AnyKeyword(Lower(risk), ProbabilityWords) then 3 else 2
  }

  /** The point plotted for the risk at position `i` (numbered from 1). */
  function PointFor(i: nat, risk: string): RiskPoint
  {
    RiskPoint("Risk " + NatToString(i + 1), Impact(risk), Probability(risk), Truncate(risk, MaxDescriptionLength))
  }

  function RiskPoints(risks: seq<string>): (r: seq<RiskPoint>)
    ensures |r| == |risks|
    ensures forall i :: 0 <= i < |risks| ==> r[i] == PointFor(i, risks[i])
  {
    if risks == [] then []
    else
      var n := |risks| - 1;
      RiskPoints(risks[..n]) + [PointFor(n, risks[n])]
  }

  /** The scoring loop of `create_risk_priority_matrix(detailed_report)`; an
      empty list means the "No risks identified" placeholder is shown. */
  method CreateRiskPriorityMatrix(report: Report) returns (points: seq<RiskPoint>)
    ensures points == RiskPoints(report.riskAssessment)
  {
    var risks := report.riskAssessment;
    points := [];
    for i := 0 to |risks|
      invariant points == RiskPoints(risks[..i])
    {
      assert risks[..i + 1][..i] == risks[..i];
      var risk := risks[i];
      var impact := if AnyKeyword(Lower(risk), ImpactWords) then 3 else 2;
      var probability := if AnyKeyword(Lower(risk), ProbabilityWords) then 3 else 2;
      var description := Truncate(risk, MaxDescriptionLength);
      points := points + [RiskPoint("Risk " + NatToString(i + 1), impact, probability, description)];
    }
    assert risks[..|risks|] == risks;
  }

  /** Scores are 2 or 3, 3 exactly when a severity (resp. likelihood) word
      occurs in the lower-cased risk; the labels "Risk 1", "Risk 2", … are
      pairwise different, and descriptions are at most 103 characters and
      begin like the risk. */
  lemma RiskPointsScoring(risks: seq<string>)
    ensures var ps := RiskPoints(risks);
      && (forall i :: 0 <= i < |ps| ==>
        && (ps[i].impact == 3 <==> AnyKeyword(Lower(risks[i]), ImpactWords))
        && (ps[i].impact == 2 <==> !AnyKeyword(Lower(risks[i]), ImpactWords))
        && (ps[i].probability == 3 <==> AnyKeyword(Lower(risks[i]), ProbabilityWords))
        && (ps[i].probability == 2 <==> !AnyKeyword(Lower(risks[i]), ProbabilityWords))
        && |ps[i].description| <= MaxDescriptionLength + 3
        && (|risks[i]| <= MaxDescriptionLength ==> ps[i].description == risks[i])
        && (|risks[i]| > MaxDescriptionLength ==>
              ps[i].description[..MaxDescriptionLength] == risks[i][..MaxDescriptionLength]))
      && (forall i, j :: 0 <= i < j < |ps| ==> ps[i].risk != ps[j].risk)
  {
    var ps := RiskPoints(risks);
    forall i, j | 0 <= i < j < |ps|
      ensures ps[i].risk != ps[j].risk
    {
      var a := "Risk " + NatToString(i + 1);
      var b := "Risk " + NatToString(j + 1);
      if a == b {
        assert a[5..] == NatToString(i + 1);
        assert b[5..] == NatToString(j + 1);
        NatToStringInjective(i + 1, j + 1);
      }
    }
  }

  // ---------------------------------------------------------------------------
  // Implementation timeline

  /** One Gantt bar: the phase name, start week, length in weeks, and the
      duration text shown inside it. */
  datatype Bar = Bar(task: string, start: nat, weeks: nat, text: string)

  const BarWeeks: nat := 2

  function Bars(phases: seq<Phase>): (r: seq<Bar>)
    ensures |r| == |phases|
    ensures forall i :: 0 <= i < |phases| ==>
      r[i] == Bar(phases[i].phase, i * BarWeeks, BarWeeks, phases[i].duration)
  {
    if phases == [] then []
    else
      var n := |phases| - 1;
      Bars(phases[..n]) + [Bar(phases[n].phase, n * BarWeeks, BarWeeks, phases[n].duration)]
  }

  /** The bar-building loop of `create_implementation_timeline(detailed_report)`;
      an empty list means the "No implementation timeline available"
      placeholder is shown. */
  method CreateImplementationTimeline(report: Report) returns (bars: seq<Bar>)
    ensures bars == Bars(report.implementationRoadmap)
  {
    var phases := report.implementationRoadmap;
    bars := [];
    for i := 0 to |phases|
      invariant bars == Bars(phases[..i])
    {
      assert phases[..i + 1][..i] == phases[..i];
      bars := bars + [Bar(phases[i].phase, i * 2, 2, phases[i].duration)];
    }
    assert phases[..|phases|] == phases;
  }

  /** Each bar starts where the previous one ends; for any detailed report
      the timeline is the four roadmap phases over weeks 0 to 8. */
  lemma TimelineBars(messages: seq<Messages.Message>, timestamp: string, userRequest: string,
                     categories: seq<string>, priority: string)
    ensures var bars := Bars(DetailedReport(messages, timestamp, userRequest, categories, priority).implementationRoadmap);
      && |bars| == 4
      && bars[0].start == 0
      && (forall i :: 0 <= i < |bars| - 1 ==> bars[i + 1].start == bars[i].start + bars[i].weeks)
      && bars[3].start + bars[3].weeks == 8
      && (forall i :: 0 <= i < |bars| ==> bars[i].task == Phases[i].phase)
  {
    DetailedReportConsistent(messages, timestamp, userRequest, categories, priority);
  }
}
