/** Per-agent aggregation of key points: one dictionary entry per speaker
    (other than the requester's proxy) with non-blank content, holding the
    key points of that speaker's last such message, keyed in the order the
    speakers first contributed. */
module Recommendations {
  import opened Text
  import opened Messages
  import opened Dicts
  import opened KeyPointExtraction

  /** A message that `extract_key_recommendations` does not skip. */
  predicate Contributes(m: Message): (b: bool)
    ensures b <==> SpeakerName(m) != BusinessUser && exists c :: 0 <= c < |m.content| && !IsSpace(m.content[c])
  {
    StripSpec(m.content);
    SpeakerName(m) != BusinessUser && Strip(m.content) != ""
  }

  /** The dictionary the aggregation loop has built after reading `msgs`. */
  function RecommendationsOf(msgs: seq<Message>): (d: Dict<seq<string>>)
    ensures d.Valid()
  {
    if msgs == [] then Empty()
    else
      var prev := RecommendationsOf(msgs[..|msgs| - 1]);
      var m := msgs[|msgs| - 1];
      if Contributes(m) then prev.Put(SpeakerName(m), KeyPoints(m.content)) else prev
  }

  /** `extract_key_recommendations(messages)`: the loop that fills the
      dictionary in place, one message at a time. */
  method ExtractKeyRecommendations(messages: seq<Message>) returns (recommendations: Dict<seq<string>>)
    ensures recommendations == RecommendationsOf(messages)
  {
    recommendations := Empty();
    for i := 0 to |messages|
      invariant recommendations == RecommendationsOf(messages[..i])
    {
      assert messages[..i + 1][..i] == messages[..i];
      var msg := messages[i];
      var agentName := SpeakerName(msg);
      var content := msg.content;
      if agentName == BusinessUser || Strip(content) == "" {
        continue;
      }
      var keyPoints := ExtractKeyPoints(content);
      recommendations := recommendations.Put(agentName, keyPoints);
    }
    assert messages[..|messages|] == messages;
  }

  /** A name has an entry exactly when some message under that name is not
      skipped; in particular BusinessUser never has one. */
  lemma {:induction false} RecommendationsKeys(msgs: seq<Message>, n: string)
    ensures n in RecommendationsOf(msgs).values <==>
      exists i :: 0 <= i < |msgs| && Contributes(msgs[i]) && SpeakerName(msgs[i]) == n
  {
    KeysAreContributors(msgs, n);
  }

  lemma {:induction false} KeysAreContributors(msgs: seq<Message>, n: string)
    ensures n in RecommendationsOf(msgs).values <==> n in ContributorNames(msgs)
  {
    if msgs != [] {
      KeysAreContributors(msgs[..|msgs| - 1], n);
    }
  }

  /** The requester's proxy and blank messages contribute nothing. */
  lemma NoBusinessUserEntry(msgs: seq<Message>)
    ensures BusinessUser !in RecommendationsOf(msgs).values
  {
    RecommendationsKeys(msgs, BusinessUser);
  }

  /** Later messages overwrite: the entry of a speaker holds the key points of
      that speaker's last non-skipped message. */
  lemma {:induction false} LastMessageWins(msgs: seq<Message>, i: int)
    requires 0 <= i < |msgs| && Contributes(msgs[i])
    requires forall j :: i < j < |msgs| && Contributes(msgs[j]) ==> SpeakerName(msgs[j]) != SpeakerName(msgs[i])
    ensures SpeakerName(msgs[i]) in RecommendationsOf(msgs).values
    ensures RecommendationsOf(msgs).values[SpeakerName(msgs[i])] == KeyPoints(msgs[i].content)
  {
    var init := msgs[..|msgs| - 1];
    if i < |msgs| - 1 {
      forall j | i < j < |init| && Contributes(init[j])
        ensures SpeakerName(init[j]) != SpeakerName(init[i])
      {
        assert init[j] == msgs[j];
      }
      assert init[i] == msgs[i];
      LastMessageWins(init, i);
    }
  }

  /** Every entry is a key-point list: at most ten non-empty, single-line items. */
  lemma {:induction false} RecommendationValuesShape(msgs: seq<Message>, n: string)
    requires n in RecommendationsOf(msgs).values
    ensures var v := RecommendationsOf(msgs).values[n];
      |v| <= MaxKeyPoints && forall i :: 0 <= i < |v| ==> v[i] != "" && '\n' !in v[i]
  {
    var init := msgs[..|msgs| - 1];
    var m := msgs[|msgs| - 1];
    if !(Contributes(m) && SpeakerName(m) == n) {
      RecommendationValuesShape(init, n);
    }
  }

  /** The names of the non-skipped messages, in message order, repeats kept. */
  function ContributorNames(msgs: seq<Message>): (names: seq<string>)
    ensures forall n :: n in names <==>
      exists i :: 0 <= i < |msgs| && Contributes(msgs[i]) && SpeakerName(msgs[i]) == n
  {
    if msgs == [] then []
    else
      var m := msgs[|msgs| - 1];
      var init := msgs[..|msgs| - 1];
      assert forall i :: 0 <= i < |init| ==> init[i] == msgs[i];
      ContributorNames(init) + (if Contributes(m) then [SpeakerName(m)] else [])
  }

  /** `xs` without repeats, each element at its first occurrence. */
  function FirstOccurrences(xs: seq<string>): (r: seq<string>)
    ensures forall x :: x in r <==> x in xs
    ensures forall i, j :: 0 <= i < j < |r| ==> r[i] != r[j]
  {
    if xs == [] then []
    else
      var prev := FirstOccurrences(xs[..|xs| - 1]);
      var x := xs[|xs| - 1];
      assert xs == xs[..|xs| - 1] + [x];
      if x in prev then prev else prev + [x]
  }

  /** The dictionary's key order is the order in which speakers first
      contributed. */
  lemma {:induction false} KeysInFirstContributionOrder(msgs: seq<Message>)
    ensures RecommendationsOf(msgs).keys == FirstOccurrences(ContributorNames(msgs))
  {
    if msgs != [] {
      var init := msgs[..|msgs| - 1];
      var m := msgs[|msgs| - 1];
      KeysInFirstContributionOrder(init);
      var prev := RecommendationsOf(init);
      var names := ContributorNames(msgs);
      if Contributes(m) {
        var x := SpeakerName(m);
        assert names == ContributorNames(init) + [x];
        assert names[..|names| - 1] == ContributorNames(init);
        assert x in prev.values <==> x in prev.keys;
        assert RecommendationsOf(msgs) == prev.Put(x, KeyPoints(m.content));
        assert FirstOccurrences(names) ==
          if x in FirstOccurrences(ContributorNames(init)) then FirstOccurrences(ContributorNames(init))
          else FirstOccurrences(ContributorNames(init)) + [x];
      } else {
        assert names == ContributorNames(init);
        assert RecommendationsOf(msgs) == prev;
      }
    }
  }
}
