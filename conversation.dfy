/** The termination rule of the group chat: the conversation is over once four
    distinct specialists (any named speaker other than the requester's proxy)
    have spoken. */
module Conversation {
  import opened Messages

  /** The names of the four specialist agents, in round-robin order. */
  const Specialists: seq<string> := ["HeadOfArchitecture", "CloudArchitect", "OSSArchitect", "LeadArchitect"]

  const RequiredSpeakers: nat := 4

  /** A message whose name is present, non-empty (truthy) and not the requester's. */
  predicate CountsAsSpeaker(m: Message)
  {
    m.name.Some? && m.name.value != "" && m.name.value != BusinessUser
  }

  /** The set of distinct counted speaker names in `msgs`. */
  function Speakers(msgs: seq<Message>): set<string>
  {
    if msgs == [] then {}
    else
      var m := msgs[|msgs| - 1];
      Speakers(msgs[..|msgs| - 1]) + (if CountsAsSpeaker(m) then {m.name.value} else {})
  }

  /** `should_terminate(messages)`: true once at least four distinct speakers
      other than BusinessUser have a message in the transcript. */
  method ShouldTerminate(messages: seq<Message>) returns (done: bool)
    ensures done <==> |Speakers(messages)| >= RequiredSpeakers
  {
    var agentResponses: set<string> := {};
    for i := 0 to |messages|
      invariant agentResponses == Speakers(messages[..i])
    {
      var msg := messages[i];
      assert messages[..i + 1][..i] == messages[..i];
      if msg.name.Some? && msg.name.value != "" && msg.name.value != BusinessUser {
        agentResponses := agentResponses + {msg.name.value};
      }
    }
    assert messages[..|messages|] == messages;
    done := |agentResponses| >= RequiredSpeakers;
  }

  /** A name is counted exactly when some message carries it as a counted speaker. */
  lemma {:induction false} SpeakersMembership(msgs: seq<Message>, n: string)
    ensures n in Speakers(msgs) <==>
      exists i :: 0 <= i < |msgs| && CountsAsSpeaker(msgs[i]) && msgs[i].name.value == n
  {
    if msgs != [] {
      var init := msgs[..|msgs| - 1];
      SpeakersMembership(init, n);
      if n in Speakers(init) {
        var i :| 0 <= i < |init| && CountsAsSpeaker(init[i]) && init[i].name.value == n;
        assert msgs[i] == init[i];
      }
      if exists i :: 0 <= i < |msgs| && CountsAsSpeaker(msgs[i]) && msgs[i].name.value == n {
        var i :| 0 <= i < |msgs| && CountsAsSpeaker(msgs[i]) && msgs[i].name.value == n;
        if i < |init| {
          assert init[i] == msgs[i];
        }
      }
    }
  }

  /** The speakers of a concatenated transcript are those of its two parts. */
  lemma {:induction false} SpeakersAppend(a: seq<Message>, b: seq<Message>)
    ensures Speakers(a + b) == Speakers(a) + Speakers(b)
    decreases |b|
  {
    if b == [] {
      assert a + b == a;
    } else {
      var m := b[|b| - 1];
      assert (a + b)[..|a + b| - 1] == a + b[..|b| - 1];
      SpeakersAppend(a, b[..|b| - 1]);
    }
  }

  /** Termination is monotone: appending messages never un-terminates. */
  lemma TerminationMonotone(a: seq<Message>, b: seq<Message>)
    requires |Speakers(a)| >= RequiredSpeakers
    ensures |Speakers(a + b)| >= RequiredSpeakers
  {
    SpeakersAppend(a, b);
    assert Speakers(a) <= Speakers(a + b);
    SubsetCardinality(Speakers(a), Speakers(a + b));
  }

  lemma SubsetCardinality(s: set<string>, t: set<string>)
    requires s <= t
    ensures |s| <= |t|
  {
    assert t == s + (t - s);
  }

  /** A further turn by a speaker already counted (or by an uncounted
      speaker) leaves the speaker set, hence the count, unchanged. */
  lemma RepeatedTurnKeepsCount(msgs: seq<Message>, m: Message)
    requires !CountsAsSpeaker(m) || m.name.value in Speakers(msgs)
    ensures Speakers(msgs + [m]) == Speakers(msgs)
  {
    assert (msgs + [m])[..|msgs|] == msgs;
  }

  /** The conversation stops exactly at the turn of the fourth distinct
      specialist: before it three were counted, and it is a new speaker. */
  lemma StopsAtFourthSpeaker(msgs: seq<Message>, m: Message)
    requires |Speakers(msgs)| < RequiredSpeakers
    requires |Speakers(msgs + [m])| >= RequiredSpeakers
    ensures CountsAsSpeaker(m) && m.name.value !in Speakers(msgs)
    ensures |Speakers(msgs)| == RequiredSpeakers - 1
  {
    assert (msgs + [m])[..|msgs|] == msgs;
    if !CountsAsSpeaker(m) || m.name.value in Speakers(msgs) {
      RepeatedTurnKeepsCount(msgs, m);
    }
  }

  /** Once each of the four specialists has had a turn, the chat terminates,
      however the turns are ordered or repeated. */
  lemma AllSpecialistsTerminate(msgs: seq<Message>)
    requires forall j :: 0 <= j < |Specialists| ==> Specialists[j] in Speakers(msgs)
    ensures |Speakers(msgs)| >= RequiredSpeakers
  {
    var all := {Specialists[0], Specialists[1], Specialists[2], Specialists[3]};
    assert all <= Speakers(msgs) by {
      assert Specialists[0] in Speakers(msgs);
      assert Specialists[1] in Speakers(msgs);
      assert Specialists[2] in Speakers(msgs);
      assert Specialists[3] in Speakers(msgs);
    }
    SubsetCardinality(all, Speakers(msgs));
    SpecialistsDistinct();
  }

  lemma SpecialistsDistinct()
    ensures |{Specialists[0], Specialists[1], Specialists[2], Specialists[3]}| == 4
  {
    var a, b, c, d := Specialists[0], Specialists[1], Specialists[2], Specialists[3];
    assert a[0] == 'H' && b[0] == 'C' && c[0] == 'O' && d[0] == 'L';
    assert |{a}| == 1;
    assert b !in {a};
    assert |{a, b}| == 2;
    assert c !in {a, b};
    assert |{a, b, c}| == 3;
    assert d !in {a, b, c};
  }
}
