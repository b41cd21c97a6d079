/** Component bucketing: every message (the requester's included) is
    lower-cased and cut at '.', and each stripped piece longer than ten
    characters that holds a keyword of a bucket is collected for that bucket;
    each bucket then keeps at most five distinct entries, in no particular
    order. */
module ComponentExtraction {
  import opened Text
  import opened Messages

  /** The eight component buckets, in the order the source's dictionary lists them. */
  datatype Bucket =
    | CloudServices | Databases | Apis | Microservices
    | Storage | Security | Monitoring | UserInterfaces

  const Buckets: seq<Bucket> :=
    [CloudServices, Databases, Apis, Microservices, Storage, Security, Monitoring, UserInterfaces]

  /** The keyword table of each bucket. */
  function Keywords(b: Bucket): seq<string>
  {
    match b
    case CloudServices =>
      ["aws", "azure", "gcp", "cloud", "serverless", "lambda", "ec2", "s3", "rds", "kubernetes", "docker"]
    case Databases =>
      ["database", "db", "postgresql", "mysql", "mongodb", "redis", "elasticsearch", "dynamodb", "sql", "nosql"]
    case Apis => ["api", "rest", "graphql", "gateway", "endpoint", "service mesh"]
    case Microservices => ["microservice", "service", "container", "pod", "deployment"]
    case Storage => ["storage", "file", "blob", "s3", "bucket", "cdn"]
    case Security => ["security", "auth", "authentication", "authorization", "ssl", "tls", "encryption"]
    case Monitoring => ["monitoring", "logging", "metrics", "observability", "prometheus", "grafana"]
    case UserInterfaces => ["ui", "frontend", "web", "mobile", "react", "angular", "vue"]
  }

  /** A collected piece must be strictly longer than this once stripped. */
  const MinPieceLength: nat := 10

  /** At most this many entries are kept per bucket. */
  const MaxPerBucket: nat := 5

  /** The stripped pieces of `sentences` that hold `keyword` and are long enough. */
  function KeywordHits(sentences: seq<string>, keyword: string): seq<string>
  {
    if sentences == [] then []
    else
      var s := sentences[|sentences| - 1];
      KeywordHits(sentences[..|sentences| - 1], keyword)
        + (if Contains(s, keyword) && |Strip(s)| > MinPieceLength then [Strip(s)] else [])
  }

  /** What one lower-cased message contributes to a bucket with `keywords`:
      for each keyword in turn that occurs in the message, its pieces. */
  function ContentHits(content: string, keywords: seq<string>): seq<string>
  {
    if keywords == [] then []
    else
      var k := keywords[|keywords| - 1];
      ContentHits(content, keywords[..|keywords| - 1])
        + (if Contains(content, k) then KeywordHits(Split(content, '.'), k) else [])
  }

  /** Everything collected from `msgs` for a bucket with `keywords`, repeats
      included. */
  function MessagesHits(msgs: seq<Message>, keywords: seq<string>): seq<string>
  {
    if msgs == [] then []
    else MessagesHits(msgs[..|msgs| - 1], keywords) + ContentHits(Lower(msgs[|msgs| - 1].content), keywords)
  }

  /** Everything collected for bucket `b` from `msgs`, repeats included. */
  function BucketHits(msgs: seq<Message>, b: Bucket): seq<string>
  {
    MessagesHits(msgs, Keywords(b))
  }

  /** `ys` is a possible value of `list(set(xs))[:n]`: distinct elements of
      `xs`, as many as there are distinct elements up to `n`. */
  predicate IsSample(ys: seq<string>, xs: seq<string>, n: nat)
  {
    && (forall i, j :: 0 <= i < j < |ys| ==> ys[i] != ys[j])
    && (forall i :: 0 <= i < |ys| ==> ys[i] in xs)
    && |ys| == if |set x | x in xs| < n then |set x | x in xs| else n
  }

  /** `list(set(xs))[:n]`: the set's iteration order is not modelled, so any
      choice of elements is allowed. */
  method DistinctSample(xs: seq<string>, n: nat) returns (ys: seq<string>)
    ensures IsSample(ys, xs, n)
  {
    var all := set x | x in xs;
    var remaining := all;
    ys := [];
    while |ys| < n && remaining != {}
      invariant remaining <= all
      invariant forall i :: 0 <= i < |ys| ==> ys[i] in all && ys[i] !in remaining
      invariant forall i, j :: 0 <= i < j < |ys| ==> ys[i] != ys[j]
      invariant |ys| + |remaining| == |all|
      invariant |ys| <= n
      decreases |remaining|
    {
      var y :| y in remaining;
      ys := ys + [y];
      remaining := remaining - {y};
    }
    if |ys| < n {
      assert |ys| == |all|;
    }
  }

  /** `extract_architecture_components(messages)`: the result lists the
      buckets' entries in the order of `Buckets`. */
  method ExtractComponents(messages: seq<Message>) returns (components: seq<seq<string>>)
    ensures |components| == |Buckets|
    ensures forall t :: 0 <= t < |Buckets| ==>
      IsSample(components[t], BucketHits(messages, Buckets[t]), MaxPerBucket)
  {
    var collected := CollectBuckets(messages);
    components := SampleEach(collected);
  }

  /** The final loop: `list(set(entries))[:5]` for every bucket. */
  method SampleEach(collected: seq<seq<string>>) returns (components: seq<seq<string>>)
    ensures |components| == |collected|
    ensures forall t :: 0 <= t < |collected| ==> IsSample(components[t], collected[t], MaxPerBucket)
  {
    components := [];
    for t := 0 to |collected|
      invariant |components| == t
      invariant forall u :: 0 <= u < t ==> IsSample(components[u], collected[u], MaxPerBucket)
    {
      var sample := DistinctSample(collected[t], MaxPerBucket);
      components := components + [sample];
    }
  }

  /** The message loop: every bucket's list before the duplicates are dropped. */
  method CollectBuckets(messages: seq<Message>) returns (collected: seq<seq<string>>)
    ensures |collected| == |Buckets|
    ensures forall t :: 0 <= t < |Buckets| ==> collected[t] == BucketHits(messages, Buckets[t])
  {
    collected := seq(|Buckets|, t => []);
    for i := 0 to |messages|
      invariant |collected| == |Buckets|
      invariant forall t :: 0 <= t < |Buckets| ==> collected[t] == BucketHits(messages[..i], Buckets[t])
    {
      var content := Lower(messages[i].content);
      for t := 0 to |Buckets|
        invariant |collected| == |Buckets|
        invariant forall u :: 0 <= u < t ==> collected[u] == BucketHits(messages[..i + 1], Buckets[u])
        invariant forall u :: t <= u < |Buckets| ==> collected[u] == BucketHits(messages[..i], Buckets[u])
      {
        var hits := CollectContent(content, Keywords(Buckets[t]));
        BucketHitsSnoc(messages, i, Buckets[t]);
        collected := collected[t := collected[t] + hits];
      }
    }
    assert messages[..|messages|] == messages;
  }

  lemma BucketHitsSnoc(msgs: seq<Message>, i: int, b: Bucket)
    requires 0 <= i < |msgs|
    ensures BucketHits(msgs[..i + 1], b) == BucketHits(msgs[..i], b) + ContentHits(Lower(msgs[i].content), Keywords(b))
  {
    assert msgs[..i + 1][..i] == msgs[..i];
  }

  /** The keyword and piece loops for one bucket and one lower-cased message. */
  method CollectContent(content: string, keywords: seq<string>) returns (hits: seq<string>)
    ensures hits == ContentHits(content, keywords)
  {
    hits := [];
    for k := 0 to |keywords|
      invariant hits == ContentHits(content, keywords[..k])
    {
      assert keywords[..k + 1][..k] == keywords[..k];
      var keyword := keywords[k];
      if Contains(content, keyword) {
        var sentences := Split(content, '.');
        ghost var before := hits;
        for j := 0 to |sentences|
          invariant hits == before + KeywordHits(sentences[..j], keyword)
        {
          assert sentences[..j + 1][..j] == sentences[..j];
          var sentence := sentences[j];
          if Contains(sentence, keyword) && |Strip(sentence)| > MinPieceLength {
            hits := hits + [Strip(sentence)];
          }
        }
        assert sentences[..|sentences|] == sentences;
      }
    }
    assert keywords[..|keywords|] == keywords;
  }

  // ---------------------------------------------------------------------------
  // What every entry looks like

  /** Every keyword of a table is lower-case and holds no '.'. */
  predicate LowerDotFree(keywords: seq<string>)
  {
    forall j :: 0 <= j < |keywords| ==> IsLowerCase(keywords[j]) && '.' !in keywords[j]
  }

  /** Every keyword of every bucket is non-empty, lower-case, dot-free and
      has no whitespace at its ends (checked one table at a time). */
  lemma KeywordTablesWordLike(b: Bucket)
    ensures WordLike(Keywords(b))
    ensures LowerDotFree(Keywords(b))
  {
    match b
    case CloudServices => TableWordLikeCloudServices();
    case Databases => TableWordLikeDatabases();
    case Apis => TableWordLikeApis();
    case Microservices => TableWordLikeMicroservices();
    case Storage => TableWordLikeStorage();
    case Security => TableWordLikeSecurity();
    case Monitoring => TableWordLikeMonitoring();
    case UserInterfaces => TableWordLikeUserInterfaces();
  }

  lemma TableWordLikeCloudServices()
    ensures WordLike(Keywords(CloudServices))
    ensures LowerDotFree(Keywords(CloudServices))
  {
  }

  lemma TableWordLikeDatabases()
    ensures WordLike(Keywords(Databases))
    ensures LowerDotFree(Keywords(Databases))
  {
  }

  lemma TableWordLikeApis()
    ensures WordLike(Keywords(Apis))
    ensures LowerDotFree(Keywords(Apis))
  {
  }

  lemma TableWordLikeMicroservices()
    ensures WordLike(Keywords(Microservices))
    ensures LowerDotFree(Keywords(Microservices))
  {
  }

  lemma TableWordLikeStorage()
    ensures WordLike(Keywords(Storage))
    ensures LowerDotFree(Keywords(Storage))
  {
  }

  lemma TableWordLikeSecurity()
    ensures WordLike(Keywords(Security))
    ensures LowerDotFree(Keywords(Security))
  {
  }

  lemma TableWordLikeMonitoring()
    ensures WordLike(Keywords(Monitoring))
    ensures LowerDotFree(Keywords(Monitoring))
  {
  }

  lemma TableWordLikeUserInterfaces()
    ensures WordLike(Keywords(UserInterfaces))
    ensures LowerDotFree(Keywords(UserInterfaces))
  {
  }


  /** A bucket entry: lower-case, longer than ten characters, stripped,
      within one '.'-piece, and holding one of the bucket's keywords. */
  predicate EntryShape(x: string, b: Bucket)
  {
    && IsLowerCase(x) && |x| > MinPieceLength
    && !IsSpace(x[0]) && !IsSpace(x[|x| - 1]) && '.' !in x
    && exists j :: 0 <= j < |Keywords(b)| && Contains(x, Keywords(b)[j])
  }

  lemma PieceShape(s: string, k: string, b: Bucket, j: int)
    requires 0 <= j < |Keywords(b)| && k == Keywords(b)[j]
    requires IsLowerCase(s) && '.' !in s && Contains(s, k) && |Strip(s)| > MinPieceLength
    ensures EntryShape(Strip(s), b)
  {
    KeywordTablesWordLike(b);
    StripSpec(s);
    StripOfLowerCase(s);
    if '.' in Strip(s) {
      StripChars(s, '.');
    }
    StripKeepsWord(s, k);
  }

  lemma {:induction false} KeywordHitsShape(sentences: seq<string>, b: Bucket, j: int)
    requires 0 <= j < |Keywords(b)|
    requires forall i :: 0 <= i < |sentences| ==> IsLowerCase(sentences[i]) && '.' !in sentences[i]
    ensures forall x :: x in KeywordHits(sentences, Keywords(b)[j]) ==> EntryShape(x, b)
  {
    if sentences != [] {
      var s := sentences[|sentences| - 1];
      KeywordHitsShape(sentences[..|sentences| - 1], b, j);
      if Contains(s, Keywords(b)[j]) && |Strip(s)| > MinPieceLength {
        PieceShape(s, Keywords(b)[j], b, j);
      }
    }
  }

  lemma SplitLowerCase(content: string)
    requires IsLowerCase(content)
    ensures forall i :: 0 <= i < |Split(content, '.')| ==> IsLowerCase(Split(content, '.')[i])
  {
    forall i | 0 <= i < |Split(content, '.')|
      ensures IsLowerCase(Split(content, '.')[i])
    {
      SplitPartContained(content, '.', i);
      var piece := Split(content, '.')[i];
      var p :| 0 <= p && p + |piece| <= |content| && OccursAt(content, piece, p);
      forall c | 0 <= c < |piece| ensures !IsUpper(piece[c]) {
        assert piece[c] == content[p + c];
      }
    }
  }

  lemma {:induction false} ContentHitsShape(content: string, b: Bucket, n: nat)
    requires IsLowerCase(content) && n <= |Keywords(b)|
    ensures forall x :: x in ContentHits(content, Keywords(b)[..n]) ==> EntryShape(x, b)
  {
    if n > 0 {
      var kws := Keywords(b)[..n];
      assert kws[..n - 1] == Keywords(b)[..n - 1];
      ContentHitsShape(content, b, n - 1);
      SplitLowerCase(content);
      KeywordHitsShape(Split(content, '.'), b, n - 1);
    }
  }

  /** Every entry collected for a bucket is a lower-cased, stripped piece of
      more than ten characters that holds one of the bucket's keywords. */
  lemma {:induction false} BucketHitsShape(msgs: seq<Message>, b: Bucket)
    ensures forall x :: x in BucketHits(msgs, b) ==> EntryShape(x, b)
  {
    if msgs != [] {
      BucketHitsShape(msgs[..|msgs| - 1], b);
      var content := Lower(msgs[|msgs| - 1].content);
      LowerIsLowerCase(msgs[|msgs| - 1].content);
      ContentHitsShape(content, b, |Keywords(b)|);
      assert Keywords(b)[..|Keywords(b)|] == Keywords(b);
    }
  }

  /** Hence every reported entry, of at most five distinct ones per bucket,
      has that shape, and is a stripped piece of some message's lower-cased
      content holding one of the bucket's keywords. */
  lemma SampleShape(ys: seq<string>, msgs: seq<Message>, b: Bucket)
    requires IsSample(ys, BucketHits(msgs, b), MaxPerBucket)
    ensures |ys| <= MaxPerBucket
    ensures forall i :: 0 <= i < |ys| ==> EntryShape(ys[i], b)
    ensures forall k :: 0 <= k < |ys| ==> HasSource(msgs, Keywords(b), ys[k])
  {
    BucketHitsShape(msgs, b);
    forall k | 0 <= k < |ys|
      ensures HasSource(msgs, Keywords(b), ys[k])
    {
      BucketHitsMembership(msgs, b, ys[k]);
    }
  }

  // ---------------------------------------------------------------------------
  // Which pieces are collected

  lemma {:induction false} KeywordHitFound(sentences: seq<string>, k: string, j: int)
    requires 0 <= j < |sentences| && Contains(sentences[j], k) && |Strip(sentences[j])| > MinPieceLength
    ensures Strip(sentences[j]) in KeywordHits(sentences, k)
  {
    var init := sentences[..|sentences| - 1];
    if j < |init| {
      assert init[j] == sentences[j];
      KeywordHitFound(init, k, j);
    }
  }

  lemma {:induction false} ContentHitFound(content: string, keywords: seq<string>, p: int, j: int)
    requires 0 <= p < |keywords|
    requires 0 <= j < |Split(content, '.')|
    requires Contains(Split(content, '.')[j], keywords[p])
    requires |Strip(Split(content, '.')[j])| > MinPieceLength
    ensures Strip(Split(content, '.')[j]) in ContentHits(content, keywords)
  {
    var init := keywords[..|keywords| - 1];
    if p < |init| {
      assert init[p] == keywords[p];
      ContentHitFound(content, init, p, j);
    } else {
      SplitPartContained(content, '.', j);
      ContainsTransitive(content, Split(content, '.')[j], keywords[p]);
      KeywordHitFound(Split(content, '.'), keywords[p], j);
    }
  }

  /** Nothing is missed: a long enough piece of any message, whoever sent it,
      that holds a keyword of the bucket is collected for it (so the
      message-level keyword test never rejects a piece). */
  lemma BucketHitFound(msgs: seq<Message>, b: Bucket, i: int, p: int, j: int)
    requires 0 <= i < |msgs| && 0 <= p < |Keywords(b)|
    requires 0 <= j < |Split(Lower(msgs[i].content), '.')|
    requires Contains(Split(Lower(msgs[i].content), '.')[j], Keywords(b)[p])
    requires |Strip(Split(Lower(msgs[i].content), '.')[j])| > MinPieceLength
    ensures Strip(Split(Lower(msgs[i].content), '.')[j]) in BucketHits(msgs, b)
  {
    MessagesHitFound(msgs, Keywords(b), i, p, j);
  }

  lemma {:induction false} MessagesHitFound(msgs: seq<Message>, keywords: seq<string>, i: int, p: int, j: int)
    requires 0 <= i < |msgs| && 0 <= p < |keywords|
    requires 0 <= j < |Split(Lower(msgs[i].content), '.')|
    requires Contains(Split(Lower(msgs[i].content), '.')[j], keywords[p])
    requires |Strip(Split(Lower(msgs[i].content), '.')[j])| > MinPieceLength
    ensures Strip(Split(Lower(msgs[i].content), '.')[j]) in MessagesHits(msgs, keywords)
  {
    var init := msgs[..|msgs| - 1];
    if i < |init| {
      assert init[i] == msgs[i];
      MessagesHitFound(init, keywords, i, p, j);
    } else {
      ContentHitFound(Lower(msgs[i].content), keywords, p, j);
    }
  }

  // ---------------------------------------------------------------------------
  // Where collected entries come from

  /** Piece `j` of the lower-cased content of message `i` holds keyword `p`,
      is longer than ten characters once stripped, and strips to `x`. */
  predicate PieceAt(msgs: seq<Message>, keywords: seq<string>, i: int, p: int, j: int, x: string)
  {
    && 0 <= i < |msgs| && 0 <= p < |keywords|
    && 0 <= j < |Split(Lower(msgs[i].content), '.')|
    && Contains(Split(Lower(msgs[i].content), '.')[j], keywords[p])
    && |Strip(Split(Lower(msgs[i].content), '.')[j])| > MinPieceLength
    && x == Strip(Split(Lower(msgs[i].content), '.')[j])
  }

  /** Some piece of some message produces `x`. */
  ghost predicate HasSource(msgs: seq<Message>, keywords: seq<string>, x: string)
  {
    exists i, p, j :: PieceAt(msgs, keywords, i, p, j, x)
  }

  lemma {:induction false} KeywordHitSource(sentences: seq<string>, k: string, x: string) returns (j: int)
    requires x in KeywordHits(sentences, k)
    ensures 0 <= j < |sentences| && Contains(sentences[j], k) && |Strip(sentences[j])| > MinPieceLength
    ensures x == Strip(sentences[j])
  {
    var init := sentences[..|sentences| - 1];
    if x in KeywordHits(init, k) {
      j := KeywordHitSource(init, k, x);
      assert init[j] == sentences[j];
    } else {
      j := |sentences| - 1;
    }
  }

  lemma {:induction false} ContentHitSource(content: string, keywords: seq<string>, x: string) returns (p: int, j: int)
    requires x in ContentHits(content, keywords)
    ensures 0 <= p < |keywords| && 0 <= j < |Split(content, '.')|
    ensures Contains(Split(content, '.')[j], keywords[p])
    ensures |Strip(Split(content, '.')[j])| > MinPieceLength && x == Strip(Split(content, '.')[j])
  {
    var init := keywords[..|keywords| - 1];
    if x in ContentHits(content, init) {
      p, j := ContentHitSource(content, init, x);
      assert init[p] == keywords[p];
    } else {
      p := |keywords| - 1;
      j := KeywordHitSource(Split(content, '.'), keywords[p], x);
    }
  }

  lemma {:induction false} MessagesHitSource(msgs: seq<Message>, keywords: seq<string>, x: string) returns (i: int, p: int, j: int)
    requires x in MessagesHits(msgs, keywords)
    ensures PieceAt(msgs, keywords, i, p, j, x)
  {
    var init := msgs[..|msgs| - 1];
    if x in MessagesHits(init, keywords) {
      i, p, j := MessagesHitSource(init, keywords, x);
      assert init[i] == msgs[i];
    } else {
      i := |msgs| - 1;
      p, j := ContentHitSource(Lower(msgs[i].content), keywords, x);
    }
  }

  /** Nothing is made up: every entry collected for a bucket, from whichever
      sender, is a long enough stripped piece of some message that holds one
      of the bucket's keywords. */
  lemma BucketHitSource(msgs: seq<Message>, b: Bucket, x: string) returns (i: int, p: int, j: int)
    requires x in BucketHits(msgs, b)
    ensures PieceAt(msgs, Keywords(b), i, p, j, x)
  {
    i, p, j := MessagesHitSource(msgs, Keywords(b), x);
  }

  /** An entry is collected for a bucket exactly when some message has a
      piece that produces it. */
  lemma BucketHitsMembership(msgs: seq<Message>, b: Bucket, x: string)
    ensures x in BucketHits(msgs, b) <==> exists i, p, j :: PieceAt(msgs, Keywords(b), i, p, j, x)
  {
    if x in BucketHits(msgs, b) {
      var i, p, j := BucketHitSource(msgs, b, x);
    }
    if exists i, p, j :: PieceAt(msgs, Keywords(b), i, p, j, x) {
      var i, p, j :| PieceAt(msgs, Keywords(b), i, p, j, x);
      BucketHitFound(msgs, b, i, p, j);
    }
  }

}
