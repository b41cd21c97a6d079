# Multi-agent architecture advisory: report layer

This project models the deterministic part of the multi-agent architecture advisory app in `app.py`. That part turns a group chat into a report.

Several architect agents answer a business user's request in turns. The app then mines the transcript and assembles the report:

- Key points are pulled from each agent's reply. These are numbered lines, bulleted lines, and short lines with an action word, at most ten per reply.
- Each agent's key points go into an insertion-ordered dictionary. A later reply from the same agent replaces its earlier points.
- Key insights, risks and cost considerations are collected as sentences. Each holds one of its category's words, and at most five are kept per category.
- Architecture components are sorted into eight keyword buckets. At most five distinct entries are kept per bucket.
- The report itself has these parts:
  - a summary table;
  - a detailed report with metadata totals and a fixed four-phase roadmap;
  - timeline bars;
  - the final Markdown document.

Three more functions are modelled although the app never calls them:

- the chat's termination predicate, which stops once four distinct named agents other than the business user have spoken;
- the node and edge structure of the architecture diagram (`create_architecture_diagram`, app.py:419);
- the integer risk scores of the risk matrix (`create_risk_priority_matrix`, app.py:623).

The app's main flow (app.py:938-958) draws only the component distribution chart and the timeline.

Modules, one per concern:

- `Text` models the Python string operations the app relies on:
  - `str.split` always returns at least one piece;
  - ASCII `strip` and `lower`;
  - substring `in`;
  - slicing `xs[:n]`;
  - `str(n)` for naturals;
  - `str.join`.
- `Messages` and `Dicts` hold a chat message (a missing name is `None`, a missing content is `""`) and an insertion-ordered dictionary.
- `Conversation` models `should_terminate`.
- `KeyPointExtraction` and `Recommendations` model `_extract_key_points` and `extract_key_recommendations`.
- `SignalExtraction` models `_extract_insights`, `_extract_risks` and `_extract_cost_considerations`.
- `ReportBuilder` models the role and focus-area lookups, `_generate_roadmap`, `generate_summary_table` and `generate_detailed_report`.
- `ComponentExtraction` models `extract_architecture_components`.
- `Charts` models the graph of `create_architecture_diagram`, the scoring of `create_risk_priority_matrix` and the bars of `create_implementation_timeline`.
- `MarkdownReport` models `generate_markdown_report`.

Each loop of the source is a method with a loop, proved equal to a recursive specification function. This covers the extraction passes, the dictionary updates and the `+=` growth of the Markdown text. The properties are then proved as lemmas about those functions.

## Model

| member | source | states |
|---|---|---|
| Text.Lower | app.py:206 | lower-casing keeps the length and maps each character to its ASCII lower-case form |
| Text.LowerIsLowerCase | app.py:401 | a lower-cased message content holds no upper-case letter |
| Text.LowerKeepsContains | app.py:206 | if a line contains a keyword, its lower-cased form contains the lower-cased keyword |
| Text.StripSpec | app.py:195 | `strip` removes exactly the leading and trailing whitespace: the result is a contiguous slice with non-space ends, and it is empty iff the line is all whitespace |
| Text.StripContained | app.py:309 | a stripped sentence is a substring of the sentence |
| Text.LowerStrip | app.py:409-411 | stripping and lower-casing commute |
| Text.Split | app.py:191 | `split` yields at least one piece, and no piece contains the separator |
| Text.JoinSplit | app.py:191 | joining the pieces of `split` with the separator gives back the original text |
| Text.SplitJoin | app.py:224 | splitting a `"\n"`-join of newline-free parts gives back the parts |
| Text.SplitPartContained | app.py:307 | every piece of a split is a substring of the text |
| Text.JoinContainsPart | app.py:224 | a join contains each of its parts |
| Text.Take | app.py:210 | `xs[:n]` is the prefix of length `min(n, len(xs))` |
| Text.NatToString | app.py:677-678 | `str(n)` of a natural is a non-empty string of decimal digits |
| Text.DecimalRoundTrip | app.py:677-678 | reading back `str(n)` as a decimal number gives `n` |
| Text.NatToStringInjective | app.py:677-678 | different counts render as different strings |
| Messages.SpeakerName | app.py:176 | a message's name, or "Unknown" when it has none; the result is "Unknown" iff the name is missing or is "Unknown" itself |
| Dicts.Dict.Put | app.py:184 | assigning a key keeps the dictionary well-formed and updates its value; a new key goes last and an existing key keeps its place |
| Conversation.ShouldTerminate | app.py:135-142 | true exactly when at least four distinct named speakers other than `BusinessUser` occur in the messages |
| Conversation.SpeakersMembership | app.py:138-140 | a name is counted iff some message carries it and is not from `BusinessUser` |
| Conversation.SpeakersAppend | app.py:138-140 | the speakers of a concatenated transcript are the union of the parts' speakers |
| Conversation.TerminationMonotone | app.py:135-142 | once the predicate holds, it holds for every longer transcript |
| Conversation.RepeatedTurnKeepsCount | app.py:138-140 | another turn by an already-counted speaker, an unnamed turn or a `BusinessUser` turn leaves the speaker set unchanged |
| Conversation.StopsAtFourthSpeaker | app.py:135-142 | the message that first makes the predicate true comes from a new counted speaker, after exactly three others |
| Conversation.AllSpecialistsTerminate | app.py:135-142 | once the four specialist agents have all spoken, the predicate holds |
| Conversation.SpecialistsDistinct | app.py:163-168 | the four specialist names are distinct |
| KeyPointExtraction.StrippedLines | app.py:191-195 | line `i` of the stripped lines is the stripped `i`-th input line |
| KeyPointExtraction.KeyPoints | app.py:188-210 | at most ten key points, each non-empty, newline-free and with no surrounding whitespace |
| KeyPointExtraction.ExtractKeyPoints | app.py:188-210 | the append loop over the lines yields exactly `KeyPoints(content)` |
| KeyPointExtraction.KeptLinesShape | app.py:195-208 | every kept line is a non-empty, stripped, newline-free line |
| KeyPointExtraction.StrippedLineShape | app.py:195 | a stripped newline-free line is newline-free and has non-space ends |
| KeyPointExtraction.KeptLinesMembership | app.py:195-208 | a string is kept iff it is a non-empty stripped input line that passes the numbered, bullet or keyword test |
| KeyPointExtraction.KeptLinesSubsequence | app.py:194-208 | the kept lines are a subsequence of the stripped lines, in their order |
| KeyPointExtraction.EmbedsExtend | app.py:194-208 | appending a line keeps an order-preserving embedding, and so does appending it to both sides |
| KeyPointExtraction.TakeSubsequence | app.py:210 | truncating a subsequence keeps it a subsequence |
| KeyPointExtraction.KeyPointsInLineOrder | app.py:188-210 | the key points are a subsequence of the reply's stripped lines |
| KeyPointExtraction.KeyPointsSelection | app.py:194-210 | every key point is a stripped line that is numbered, bulleted, or has an action keyword and is under 200 characters; every numbered or bulleted line is kept before the cap; without overflow nothing is cut |
| Recommendations.Contributes | app.py:179-180 | a message is used iff its sender is not `BusinessUser` and its content has a non-whitespace character |
| Recommendations.RecommendationsOf | app.py:171-186 | the per-agent dictionary is well-formed (distinct keys, one value per key) |
| Recommendations.ExtractKeyRecommendations | app.py:171-186 | the loop over messages with in-place assignment yields exactly `RecommendationsOf(messages)` |
| Recommendations.RecommendationsKeys | app.py:175-184 | an agent has an entry iff one of its messages is not from `BusinessUser` and has non-blank content |
| Recommendations.KeysAreContributors | app.py:175-184 | the keys are exactly the names of contributing messages |
| Recommendations.NoBusinessUserEntry | app.py:179-180 | `BusinessUser` never has an entry |
| Recommendations.LastMessageWins | app.py:184 | an agent's entry is the key points of its last contributing message |
| Recommendations.RecommendationValuesShape | app.py:182-184 | every entry has at most ten non-empty, newline-free points |
| Recommendations.ContributorNames | app.py:175-180 | lists the names of the contributing messages, in message order |
| Recommendations.FirstOccurrences | app.py:184 | keeps the same members, each exactly once (no two positions hold the same name) |
| Recommendations.KeysInFirstContributionOrder | app.py:184 | the dictionary's key order is the order in which agents first contribute |
| SignalExtraction.Tagged | app.py:313 | at most five entries are reported |
| SignalExtraction.Insights | app.py:295-313 | at most five insights |
| SignalExtraction.Risks | app.py:328-342 | at most five risks |
| SignalExtraction.Costs | app.py:344-358 | at most five cost considerations |
| SignalExtraction.ExtractTagged | app.py:303-313 | the nested message/sentence loop yields exactly the first five collected entries |
| SignalExtraction.ExtractInsights | app.py:295-313 | the insight loop yields `Insights(messages)` |
| SignalExtraction.ExtractRisks | app.py:328-342 | the risk loop yields `Risks(messages)` |
| SignalExtraction.ExtractCostConsiderations | app.py:344-358 | the cost loop yields `Costs(messages)` |
| SignalExtraction.SentenceHitFound | app.py:307-311 | every qualifying sentence is collected, stripped |
| SignalExtraction.SentenceHitSource | app.py:307-311 | every collected entry is the stripped form of a qualifying sentence |
| SignalExtraction.HitFound | app.py:303-311 | every qualifying sentence of a message passing the message-level filter is collected |
| SignalExtraction.HitSource | app.py:303-311 | every collected entry comes from such a sentence |
| SignalExtraction.AllHitsMembership | app.py:303-311 | an entry is collected iff some message and sentence position produce it |
| SignalExtraction.AllHitsAppend | app.py:303-311 | entries are collected in message-then-sentence order: collection distributes over concatenation |
| SignalExtraction.ReportedEntriesStable | app.py:303-313 | later messages never change the entries already reported; they can only fill the remaining places |
| SignalExtraction.KeywordListsWordLike | app.py:301-354 | the sentence keyword lists hold non-empty words with no whitespace at either end and no dot ("key finding" has an inner space) |
| SignalExtraction.HitShape | app.py:309-311 | a collected entry is longer than 20 characters, stripped, dot-free and contains a keyword |
| SignalExtraction.SentenceHitsShape | app.py:307-311 | every entry collected from one message has that shape |
| SignalExtraction.AllHitsShape | app.py:303-311 | every collected entry has that shape |
| SignalExtraction.ReportedEntriesShape | app.py:295-358 | every reported insight, risk and cost has that shape for its own category's words |
| SignalExtraction.SentenceHitsWitness | app.py:307-309 | a message with a collected sentence has a sentence with a keyword |
| SignalExtraction.MessageFilterRedundant | app.py:303-311 | when the sentence words are among the message words, the message-level filter changes nothing |
| SignalExtraction.FilterRedundant | app.py:303-311 | the same holds over a whole transcript |
| SignalExtraction.CategoriesIgnoreTriggers | app.py:328-358 | insights, risks and costs equal the unfiltered collection: "limitation" and "optimization" have no effect |
| ReportBuilder.RoleOf | app.py:163-169 | an agent's role is its entry in the role table, and "Unknown Role" iff it has none |
| ReportBuilder.FocusAreaOf | app.py:239-247 | an agent's focus area is its entry in the focus table, and "General Architecture" iff it has none |
| ReportBuilder.GenerateRoadmap | app.py:315-326 | the roadmap has four phases with distinct names, each with a non-empty duration and description |
| ReportBuilder.LookupDefaults | app.py:163-247 | the role is "Unknown Role" iff the agent is not in the role table; the focus area is "General Architecture" iff it is not in the focus table; only `BusinessUser` has a role but no focus area |
| ReportBuilder.CombinedPointsLines | app.py:224 | splitting a non-empty row's "Key Recommendations" on newlines gives its first five key points |
| ReportBuilder.Rows | app.py:220-235 | one row per agent, in order, each built from that agent's points |
| ReportBuilder.GenerateSummaryTable | app.py:212-237 | the loop yields exactly `SummaryTable(messages)` |
| ReportBuilder.RowForEntry | app.py:220-235 | a row is never for `BusinessUser` nor has its role; the count is the full number of key points (at most ten); an empty row shows the placeholder; a non-empty row's cell lists the first five points |
| ReportBuilder.SummaryTableRows | app.py:212-237 | the table has one row per contributing agent, in first-contribution order, built from its entry |
| ReportBuilder.Summaries | app.py:271-279 | the per-agent summary dictionary is well-formed |
| ReportBuilder.GenerateDetailedReport | app.py:249-293 | the report-building code yields exactly `DetailedReport(...)` |
| ReportBuilder.BuildSummaries | app.py:271-279 | the in-place summary loop yields exactly `Summaries(keys, values)` |
| ReportBuilder.SummariesContent | app.py:271-279 | the summaries have the agents' key order, and each holds its agent's points and their count |
| ReportBuilder.CountsMatchPoints | app.py:260-277 | the sum of the summaries' counts equals the total number of key points |
| ReportBuilder.DetailedReportConsistent | app.py:249-326 | total agents is the number of summaries; total recommendations is the sum of their counts; the summaries follow the agents' order and content; the roadmap always has the same four phases, whatever the input |
| ComponentExtraction.DistinctSample | app.py:415 | `list(set(xs))[:5]` yields distinct elements of `xs`, `min(5, number of distinct elements)` of them |
| ComponentExtraction.ExtractComponents | app.py:375-417 | eight buckets, each a sample of at most five distinct entries of that bucket's collected sentences |
| ComponentExtraction.SampleEach | app.py:414-415 | each bucket becomes a distinct sample of its collected entries |
| ComponentExtraction.CollectBuckets | app.py:400-411 | the nested loops collect exactly each bucket's keyword hits, message by message |
| ComponentExtraction.CollectContent | app.py:404-411 | the keyword/sentence loops for one message yield exactly its hits |
| ComponentExtraction.KeywordTablesWordLike | app.py:388-397 | every keyword table holds non-empty, lower-case, dot-free words with no whitespace at either end ("service mesh" has an inner space) |
| ComponentExtraction.PieceShape | app.py:409-411 | a collected piece is lower-case, stripped, dot-free, longer than ten characters, and contains one of its bucket's keywords |
| ComponentExtraction.KeywordHitsShape | app.py:407-411 | every piece collected for one keyword has that shape |
| ComponentExtraction.SplitLowerCase | app.py:401-408 | the pieces of lower-cased content are lower-case |
| ComponentExtraction.ContentHitsShape | app.py:404-411 | every piece collected from one message has that shape |
| ComponentExtraction.BucketHitsShape | app.py:400-411 | every piece collected for a bucket has that shape |
| ComponentExtraction.SampleShape | app.py:400-417 | a bucket holds at most five entries; each has that shape and is the stripped '.'-piece of some message's lower-cased content that holds one of the bucket's keywords |
| ComponentExtraction.KeywordHitFound | app.py:408-411 | a sentence with the keyword and longer than ten characters once stripped is collected |
| ComponentExtraction.ContentHitFound | app.py:404-411 | such a sentence is collected for its message whatever the keyword's position in the table |
| ComponentExtraction.BucketHitFound | app.py:400-411 | such a sentence of any message is collected for the bucket |
| ComponentExtraction.KeywordHitSource | app.py:408-411 | every piece collected for a keyword is the stripped form of a sentence that holds it and is longer than ten characters once stripped |
| ComponentExtraction.ContentHitSource | app.py:404-411 | every piece collected from one message comes from one of its sentences and one of the keywords |
| ComponentExtraction.MessagesHitSource | app.py:400-411 | every collected piece comes from some message, keyword and sentence |
| ComponentExtraction.BucketHitSource | app.py:400-411 | every entry collected for a bucket, from any sender, comes from some message's sentence that holds one of the bucket's keywords |
| ComponentExtraction.BucketHitsMembership | app.py:400-411 | an entry is collected for a bucket iff some message, keyword and sentence produce it |
| ComponentExtraction.MessagesHitFound | app.py:400-411 | such a sentence of any message is collected for any keyword list |
| Charts.Truncate | app.py:444 | a label of at most 50 characters is kept; a longer one becomes its first 50 characters followed by "..." |
| Charts.Satellites | app.py:437-478 | one node per entry |
| Charts.Spokes | app.py:445 | one edge per satellite |
| Charts.AddSatellites | app.py:437-445 | one bucket's loop appends its satellites and their spokes to the graph |
| Charts.SatellitesStep | app.py:437-445 | each iteration adds one node `prefix_i` and one edge to the centre |
| Charts.SpokesAppend | app.py:437-478 | spokes distribute over concatenated satellites |
| Charts.SatelliteAt | app.py:441-444 | entry `i` becomes node `prefix_i` with the truncated entry as its label |
| Charts.SpokeAt | app.py:445 | edge `i` joins "Main Application" to satellite `i` |
| Charts.CreateArchitectureDiagram | app.py:426-482 | the diagram code yields exactly `DiagramOf(components)` |
| Charts.NodeIdInjective | app.py:441 | `prefix_i` and `prefix_j` differ when `i` and `j` differ |
| Charts.SatellitesWellFormed | app.py:437-445 | one bucket's nodes have distinct ids starting with the prefix's initial and labels of at most 53 characters |
| Charts.ConcatWellFormed | app.py:437-478 | blocks with disjoint id initials combine into a well-formed node list |
| Charts.AllSatellitesBlocks | app.py:437-478 | the satellites are the cloud, database, microservice and API blocks, in that order |
| Charts.FiveBlocks | app.py:426-478 | the centre and four satellite blocks have distinct ids and short labels |
| Charts.DiagramNodes | app.py:426-482 | one centre node plus one node per graphed entry, all ids distinct, all labels at most 53 characters |
| Charts.DiagramEdges | app.py:426-478 | exactly one edge per satellite, each joining the centre to it |
| Charts.DiagramIgnoresOtherBuckets | app.py:426-478 | the storage, security, monitoring and user-interface buckets do not affect the diagram |
| Charts.Impact | app.py:637 | the impact is 2 or 3, and 3 iff the lower-cased risk holds "critical", "severe" or "major" |
| Charts.Probability | app.py:638 | the probability is 2 or 3, and 3 iff the lower-cased risk holds "likely", "probable" or "common" |
| Charts.RiskPoints | app.py:635-645 | one scored point per risk, in order |
| Charts.CreateRiskPriorityMatrix | app.py:623-645 | the scoring loop yields exactly `RiskPoints(risks)` |
| Charts.RiskPointsScoring | app.py:635-645 | impact is 3 iff a severity word occurs, else 2; probability is 3 iff a likelihood word occurs, else 2; descriptions are at most 103 characters, unchanged when short and beginning with the risk's first 100 characters when long; labels are distinct |
| Charts.Bars | app.py:598-609 | one bar per phase, starting at week `2i`, two weeks long, labelled with the phase's duration |
| Charts.CreateImplementationTimeline | app.py:582-609 | the bar loop yields exactly `Bars(phases)` |
| Charts.TimelineBars | app.py:598-602 | a report's timeline has four back-to-back bars from week 0 to week 8, one per roadmap phase |
| MarkdownReport.AppendNumbered | app.py:696-697 | the `+=` loop appends the numbered list |
| MarkdownReport.AppendSection | app.py:695-699 | a list section is the numbered items, or the fallback sentence when there are none |
| MarkdownReport.AppendAgents | app.py:730-742 | the agent loop appends one block per agent, in the summaries' order |
| MarkdownReport.AgentBlocksSnoc | app.py:730-742 | one more agent appends exactly its block |
| MarkdownReport.AppendPhases | app.py:722-725 | the roadmap loop appends one block per phase |
| MarkdownReport.AppendTableRows | app.py:689-690 | the table loop appends one row per summary row |
| MarkdownReport.GenerateMarkdownReport | app.py:666-768 | the document is header, table rows, the three list sections, the roadmap, the agent blocks and the footer, in that order |
| MarkdownReport.NumberedListItem | app.py:696-697 | item `i` appears as "`i+1`. item" |
| MarkdownReport.ListSectionShows | app.py:694-718 | every insight, risk or cost appears numbered; an empty list shows its fallback sentence |
| MarkdownReport.TableRowShown | app.py:689-690 | every summary row appears in the table |
| MarkdownReport.AgentBlockShown | app.py:730-742 | every agent's block appears in the detailed section |
| MarkdownReport.HeaderShowsMetadata | app.py:671-678 | the header shows the request and both totals |
| MarkdownReport.EmptyConversationReport | app.py:689-742 | an empty conversation gives zero totals, no table rows, the three fallback sentences and no agent blocks |

Two behaviours of the code are worth noting:

- Insights, risks and costs (app.py:303-311, 332-340, 348-356) and the component buckets (app.py:400-411) read every message, `BusinessUser`'s included.
- The per-agent fallback sentence (app.py:739-740) appears only inside an agent's block. An empty conversation's report therefore shows three fallback sentences.

## Left out

- The Streamlit user interface (`main`) is out of scope. So is agent construction with AutoGen, `GroupChat` and the model client: these are UI, network and language-model calls. `should_terminate` is modelled as the predicate it is, although the app never hands it to the chat manager.
- The diagram's node coordinates use floating-point trigonometry and are not modelled. Only its nodes, labels and edges are.
- Plotly figures, traces, layouts and colours are presentation and are not modelled. That includes `create_component_distribution_chart` (app.py:551-580) and the "no data" annotation figures.
- The timestamp from `datetime.now()` is an input string. `pd.DataFrame` and `json.dumps` are left out as serialisers: the summary table is a sequence of row records.
- `lower` and `strip` are modelled on ASCII only. Python's Unicode case mapping and whitespace set are not modelled.
- `list(set(...))` iterates in an order the language does not fix. The model allows any distinct choice of the right size: `ComponentExtraction.DistinctSample` promises no order.
- `_extract_insights` builds an `all_content` string it never uses. It is not modelled.
- The timeline's start weeks are computed but never drawn. They are kept in `Charts.Bars` only as data.
- The app keeps the eight component buckets in a dictionary. Here they are a sequence indexed like `ComponentExtraction.Buckets`.
- ReportBuilder.RowForEntry: the "Key Recommendations" cell is stated in one direction only. The placeholder "No specific recommendations provided" contains "recommend", so it can itself be a key point, and a cell cannot always tell the two cases apart.
- MarkdownReport.GenerateMarkdownReport: no lemma states containment of each part in the whole document. Containment is proved part by part (list sections, table rows, agent blocks, header), and the method's postcondition places the parts in order.
- `create_architecture_diagram` (app.py:419) and `create_risk_priority_matrix` (app.py:623) are never called by the app, like `should_terminate`. They are modelled as the functions they are.
