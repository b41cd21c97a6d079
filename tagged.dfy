/** Sentence-tagged extraction of insights, risks and cost considerations:
    every message (the requester's included) whose lower-cased content holds a
    trigger keyword is cut at '.', and each stripped piece longer than twenty
    characters whose lower-cased text holds a sentence keyword is collected, in
    message-then-sentence order; the first five are reported. */
module SignalExtraction {
  import opened Text
  import opened Messages

  const InsightKeywords: seq<string> :=
    ["insight", "key finding", "important", "critical", "essential", "crucial", "significant"]

  /** The message-level filter for risks; the sentence-level list lacks "limitation". */
  const RiskTriggers: seq<string> := ["risk", "challenge", "concern", "issue", "problem", "limitation"]
  const RiskKeywords: seq<string> := ["risk", "challenge", "concern", "issue", "problem"]

  /** The message-level filter for costs; the sentence-level list lacks "optimization". */
  const CostTriggers: seq<string> :=
    ["cost", "budget", "price", "expensive", "cheap", "affordable", "optimization"]
  const CostKeywords: seq<string> := ["cost", "budget", "price", "expensive", "cheap", "affordable"]

  /** A collected sentence must be strictly longer than this once stripped. */
  const MinSentenceLength: nat := 20

  /** At most this many entries are reported per category. */
  const MaxEntries: nat := 5

  /** The sentence-level test. */
  predicate Qualifies(sentence: string, keywords: seq<string>)
  {
    AnyKeyword(Lower(sentence), keywords) && |Strip(sentence)| > MinSentenceLength
  }

  /** The stripped qualifying pieces of `sentences`, in order. */
  function SentenceHits(sentences: seq<string>, keywords: seq<string>): seq<string>
  {
    if sentences == [] then []
    else
      var s := sentences[|sentences| - 1];
      SentenceHits(sentences[..|sentences| - 1], keywords) + (if Qualifies(s, keywords) then [Strip(s)] else [])
  }

  /** What one message contributes: nothing unless its lower-cased content
      holds a trigger keyword. */
  function MessageHits(content: string, triggers: seq<string>, keywords: seq<string>): seq<string>
  {
    if AnyKeyword(Lower(content), triggers) then SentenceHits(Split(content, '.'), keywords) else []
  }

  /** Everything collected from `msgs` before the cut to five. */
  function AllHits(msgs: seq<Message>, triggers: seq<string>, keywords: seq<string>): seq<string>
  {
    if msgs == [] then []
    else AllHits(msgs[..|msgs| - 1], triggers, keywords) + MessageHits(msgs[|msgs| - 1].content, triggers, keywords)
  }

  /** The reported entries: the first five collected. */
  function Tagged(msgs: seq<Message>, triggers: seq<string>, keywords: seq<string>): (r: seq<string>)
    ensures |r| <= MaxEntries
  {
    Take(AllHits(msgs, triggers, keywords), MaxEntries)
  }

  function Insights(msgs: seq<Message>): (r: seq<string>)
    ensures |r| <= MaxEntries
  {
    Tagged(msgs, InsightKeywords, InsightKeywords)
  }

  function Risks(msgs: seq<Message>): (r: seq<string>)
    ensures |r| <= MaxEntries
  {
    Tagged(msgs, RiskTriggers, RiskKeywords)
  }

  function Costs(msgs: seq<Message>): (r: seq<string>)
    ensures |r| <= MaxEntries
  {
    Tagged(msgs, CostTriggers, CostKeywords)
  }

  /** The shared loop of the three extractors: a pass over the messages, and
      for each message that passes the trigger filter a pass over its
      '.'-pieces, appending each qualifying stripped piece. */
  method ExtractTagged(messages: seq<Message>, triggers: seq<string>, keywords: seq<string>)
    returns (entries: seq<string>)
    ensures entries == Tagged(messages, triggers, keywords)
  {
    var found: seq<string> := [];
    for i := 0 to |messages|
      invariant found == AllHits(messages[..i], triggers, keywords)
    {
      assert messages[..i + 1][..i] == messages[..i];
      var content := messages[i].content;
      if AnyKeyword(Lower(content), triggers) {
        var sentences := Split(content, '.');
        ghost var before := found;
        for j := 0 to |sentences|
          invariant found == before + SentenceHits(sentences[..j], keywords)
        {
          assert sentences[..j + 1][..j] == sentences[..j];
          var sentence := sentences[j];
          if AnyKeyword(Lower(sentence), keywords) {
            if |Strip(sentence)| > MinSentenceLength {
              found := found + [Strip(sentence)];
            }
          }
        }
        assert sentences[..|sentences|] == sentences;
      }
    }
    assert messages[..|messages|] == messages;
    entries := Take(found, MaxEntries);
  }

  /** `_extract_insights(messages)`. */
  method ExtractInsights(messages: seq<Message>) returns (insights: seq<string>)
    ensures insights == Insights(messages)
  {
    insights := ExtractTagged(messages, InsightKeywords, InsightKeywords);
  }

  /** `_extract_risks(messages)`. */
  method ExtractRisks(messages: seq<Message>) returns (risks: seq<string>)
    ensures risks == Risks(messages)
  {
    risks := ExtractTagged(messages, RiskTriggers, RiskKeywords);
  }

  /** `_extract_cost_considerations(messages)`. */
  method ExtractCostConsiderations(messages: seq<Message>) returns (costs: seq<string>)
    ensures costs == Costs(messages)
  {
    costs := ExtractTagged(messages, CostTriggers, CostKeywords);
  }

  // ---------------------------------------------------------------------------
  // Which entries are collected

  /** Piece `j` of message `i` is collected as `x`. */
  predicate HitAt(msgs: seq<Message>, triggers: seq<string>, keywords: seq<string>, i: int, j: int, x: string)
  {
    && 0 <= i < |msgs|
    && AnyKeyword(Lower(msgs[i].content), triggers)
    && 0 <= j < |Split(msgs[i].content, '.')|
    && Qualifies(Split(msgs[i].content, '.')[j], keywords)
    && x == Strip(Split(msgs[i].content, '.')[j])
  }

  lemma {:induction false} SentenceHitFound(sentences: seq<string>, keywords: seq<string>, j: int)
    requires 0 <= j < |sentences| && Qualifies(sentences[j], keywords)
    ensures Strip(sentences[j]) in SentenceHits(sentences, keywords)
  {
    var init := sentences[..|sentences| - 1];
    if j < |init| {
      assert init[j] == sentences[j];
      SentenceHitFound(init, keywords, j);
    }
  }

  lemma {:induction false} SentenceHitSource(sentences: seq<string>, keywords: seq<string>, x: string)
    returns (j: int)
    requires x in SentenceHits(sentences, keywords)
    ensures 0 <= j < |sentences| && Qualifies(sentences[j], keywords) && x == Strip(sentences[j])
  {
    var init := sentences[..|sentences| - 1];
    if x in SentenceHits(init, keywords) {
      j := SentenceHitSource(init, keywords, x);
      assert init[j] == sentences[j];
    } else {
      j := |sentences| - 1;
    }
  }

  lemma {:induction false} HitFound(msgs: seq<Message>, triggers: seq<string>, keywords: seq<string>, i: int, j: int, x: string)
    requires HitAt(msgs, triggers, keywords, i, j, x)
    ensures x in AllHits(msgs, triggers, keywords)
  {
    var n := |msgs| - 1;
    var init := msgs[..n];
    if i < n {
      assert init[i] == msgs[i];
      assert HitAt(init, triggers, keywords, i, j, x);
      HitFound(init, triggers, keywords, i, j, x);
    } else {
      SentenceHitFound(Split(msgs[n].content, '.'), keywords, j);
    }
  }

  lemma {:induction false} HitSource(msgs: seq<Message>, triggers: seq<string>, keywords: seq<string>, x: string)
    returns (i: int, j: int)
    requires x in AllHits(msgs, triggers, keywords)
    ensures HitAt(msgs, triggers, keywords, i, j, x)
  {
    var n := |msgs| - 1;
    var init := msgs[..n];
    if x in AllHits(init, triggers, keywords) {
      i, j := HitSource(init, triggers, keywords, x);
      assert init[i] == msgs[i];
    } else {
      i := n;
      j := SentenceHitSource(Split(msgs[n].content, '.'), keywords, x);
    }
  }

  /** An entry is collected exactly when it is the stripped form of a
      qualifying piece of a message that passes the trigger filter, whoever
      sent that message. */
  lemma AllHitsMembership(msgs: seq<Message>, triggers: seq<string>, keywords: seq<string>, x: string)
    ensures x in AllHits(msgs, triggers, keywords) <==>
      exists i, j :: HitAt(msgs, triggers, keywords, i, j, x)
  {
    if x in AllHits(msgs, triggers, keywords) {
      var i, j := HitSource(msgs, triggers, keywords, x);
    }
    if exists i, j :: HitAt(msgs, triggers, keywords, i, j, x) {
      var i, j :| HitAt(msgs, triggers, keywords, i, j, x);
      HitFound(msgs, triggers, keywords, i, j, x);
    }
  }

  /** Collection distributes over concatenated transcripts, so the entries of
      earlier messages come before those of later ones. */
  lemma {:induction false} AllHitsAppend(a: seq<Message>, b: seq<Message>, triggers: seq<string>, keywords: seq<string>)
    ensures AllHits(a + b, triggers, keywords) == AllHits(a, triggers, keywords) + AllHits(b, triggers, keywords)
    decreases |b|
  {
    if b == [] {
      assert a + b == a;
    } else {
      assert (a + b)[..|a + b| - 1] == a + b[..|b| - 1];
      AllHitsAppend(a, b[..|b| - 1], triggers, keywords);
    }
  }

  /** Later messages never displace reported entries: the report for a
      transcript is a prefix of the report for any extension of it. */
  lemma ReportedEntriesStable(a: seq<Message>, b: seq<Message>, triggers: seq<string>, keywords: seq<string>)
    ensures |Tagged(a, triggers, keywords)| <= |Tagged(a + b, triggers, keywords)|
    ensures Tagged(a, triggers, keywords) == Tagged(a + b, triggers, keywords)[..|Tagged(a, triggers, keywords)|]
  {
    AllHitsAppend(a, b, triggers, keywords);
    var x := AllHits(a, triggers, keywords);
    var y := AllHits(b, triggers, keywords);
    var r := Take(x, MaxEntries);
    var t := Take(x + y, MaxEntries);
    assert |r| <= |t|;
    assert r == t[..|r|];
  }

  // ---------------------------------------------------------------------------
  // What every entry looks like

  lemma KeywordListsWordLike()
    ensures WordLike(InsightKeywords) && WordLike(RiskKeywords) && WordLike(CostKeywords)
    ensures forall j :: 0 <= j < |InsightKeywords| ==> '.' !in InsightKeywords[j]
    ensures forall j :: 0 <= j < |RiskKeywords| ==> '.' !in RiskKeywords[j]
    ensures forall j :: 0 <= j < |CostKeywords| ==> '.' !in CostKeywords[j]
  {
  }

  /** A reported entry: longer than twenty characters, stripped, within one
      '.'-piece, and its lower-cased text holds a sentence keyword. */
  predicate EntryShape(x: string, keywords: seq<string>)
  {
    |x| > MinSentenceLength && !IsSpace(x[0]) && !IsSpace(x[|x| - 1]) && '.' !in x
    && AnyKeyword(Lower(x), keywords)
  }

  lemma HitShape(s: string, keywords: seq<string>)
    requires WordLike(keywords) && Qualifies(s, keywords) && '.' !in s
    ensures EntryShape(Strip(s), keywords)
  {
    StripSpec(s);
    if '.' in Strip(s) {
      StripChars(s, '.');
    }
    var j :| 0 <= j < |keywords| && Contains(Lower(s), keywords[j]);
    StripKeepsWord(Lower(s), keywords[j]);
    LowerStrip(s);
  }

  lemma {:induction false} SentenceHitsShape(sentences: seq<string>, keywords: seq<string>)
    requires WordLike(keywords)
    requires forall j :: 0 <= j < |sentences| ==> '.' !in sentences[j]
    ensures forall x :: x in SentenceHits(sentences, keywords) ==> EntryShape(x, keywords)
  {
    if sentences != [] {
      var s := sentences[|sentences| - 1];
      SentenceHitsShape(sentences[..|sentences| - 1], keywords);
      if Qualifies(s, keywords) {
        HitShape(s, keywords);
      }
    }
  }

  lemma {:induction false} AllHitsShape(msgs: seq<Message>, triggers: seq<string>, keywords: seq<string>)
    requires WordLike(keywords)
    ensures forall x :: x in AllHits(msgs, triggers, keywords) ==> EntryShape(x, keywords)
  {
    if msgs != [] {
      AllHitsShape(msgs[..|msgs| - 1], triggers, keywords);
      SentenceHitsShape(Split(msgs[|msgs| - 1].content, '.'), keywords);
    }
  }

  /** Insights, risks and costs: at most five entries each, every one a
      stripped '.'-piece longer than twenty characters holding a keyword of
      its category. */
  lemma ReportedEntriesShape(msgs: seq<Message>)
    ensures forall x :: x in Insights(msgs) ==> EntryShape(x, InsightKeywords)
    ensures forall x :: x in Risks(msgs) ==> EntryShape(x, RiskKeywords)
    ensures forall x :: x in Costs(msgs) ==> EntryShape(x, CostKeywords)
  {
    KeywordListsWordLike();
    AllHitsShape(msgs, InsightKeywords, InsightKeywords);
    AllHitsShape(msgs, RiskTriggers, RiskKeywords);
    AllHitsShape(msgs, CostTriggers, CostKeywords);
  }

  // ---------------------------------------------------------------------------
  // The trigger filter is redundant

  /** Collection without the message-level filter. */
  function UnfilteredHits(msgs: seq<Message>, keywords: seq<string>): seq<string>
  {
    if msgs == [] then []
    else UnfilteredHits(msgs[..|msgs| - 1], keywords) + SentenceHits(Split(msgs[|msgs| - 1].content, '.'), keywords)
  }

  lemma {:induction false} SentenceHitsWitness(sentences: seq<string>, keywords: seq<string>)
    requires SentenceHits(sentences, keywords) != []
    ensures exists j :: 0 <= j < |sentences| && AnyKeyword(Lower(sentences[j]), keywords)
  {
    var init := sentences[..|sentences| - 1];
    if SentenceHits(init, keywords) != [] {
      SentenceHitsWitness(init, keywords);
      var j :| 0 <= j < |init| && AnyKeyword(Lower(init[j]), keywords);
      assert sentences[j] == init[j];
    }
  }

  /** A message with a qualifying piece always passes a trigger filter that
      includes every sentence keyword. */
  lemma MessageFilterRedundant(content: string, triggers: seq<string>, keywords: seq<string>)
    requires forall j :: 0 <= j < |keywords| ==> keywords[j] in triggers
    ensures MessageHits(content, triggers, keywords) == SentenceHits(Split(content, '.'), keywords)
  {
    var parts := Split(content, '.');
    if SentenceHits(parts, keywords) != [] {
      SentenceHitsWitness(parts, keywords);
      var j :| 0 <= j < |parts| && AnyKeyword(Lower(parts[j]), keywords);
      SplitPartContained(content, '.', j);
      LowerKeepsContains(content, parts[j]);
      AnyKeywordInContext(Lower(parts[j]), Lower(content), keywords);
      AnyKeywordWiden(Lower(content), keywords, triggers);
    }
  }

  lemma {:induction false} FilterRedundant(msgs: seq<Message>, triggers: seq<string>, keywords: seq<string>)
    requires forall j :: 0 <= j < |keywords| ==> keywords[j] in triggers
    ensures AllHits(msgs, triggers, keywords) == UnfilteredHits(msgs, keywords)
  {
    if msgs != [] {
      FilterRedundant(msgs[..|msgs| - 1], triggers, keywords);
      MessageFilterRedundant(msgs[|msgs| - 1].content, triggers, keywords);
    }
  }

  /** The wider message-level lists ("limitation" for risks, "optimization"
      for costs) change nothing: each category equals the first five pieces
      found by the sentence keywords alone. */
  lemma CategoriesIgnoreTriggers(msgs: seq<Message>)
    ensures Insights(msgs) == Take(UnfilteredHits(msgs, InsightKeywords), MaxEntries)
    ensures Risks(msgs) == Take(UnfilteredHits(msgs, RiskKeywords), MaxEntries)
    ensures Costs(msgs) == Take(UnfilteredHits(msgs, CostKeywords), MaxEntries)
  {
    FilterRedundant(msgs, InsightKeywords, InsightKeywords);
    FilterRedundant(msgs, RiskTriggers, RiskKeywords);
    FilterRedundant(msgs, CostTriggers, CostKeywords);
  }
}
