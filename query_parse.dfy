/** Reading a search query back into its parts. The service joins its
    qualifiers with single spaces and does not escape the values it puts
    in them, so the query determines the inputs only when no organization,
    file name or topic contains a space. This module states both halves:
    the round trip under that condition, and a collision without it. */
module QueryParse {
  import opened Wrappers
  import opened GitHubService

  predicate NoSpace(s: String) {
    ' ' !in s
  }

  /** `s.split(" ")`: the maximal space-free runs of `s`, empty ones
      included, so there is always at least one part. */
  function Split(s: String): (parts: seq<String>)
    ensures |parts| >= 1
    ensures forall i :: 0 <= i < |parts| ==> NoSpace(parts[i])
  {
    if |s| == 0 then [""]
    else
      var rest := Split(s[1..]);
      if s[0] == ' ' then [""] + rest
      else [[s[0]] + rest[0]] + rest[1..]
  }

  lemma JoinUnfold(parts: seq<String>, sep: String)
    requires |parts| >= 2
    ensures Join(parts, sep) == parts[0] + sep + Join(parts[1..], sep)
  {
  }

  /** Joining the parts of a split with spaces gives back the string. */
  lemma {:induction false} JoinSplit(s: String)
    ensures Join(Split(s), " ") == s
  {
    if |s| > 0 {
      var rest := Split(s[1..]);
      JoinSplit(s[1..]);
      if s[0] == ' ' {
        JoinUnfold([""] + rest, " ");
        assert ([""] + rest)[1..] == rest;
        assert s == [' '] + s[1..];
      } else if |rest| == 1 {
        assert s == [s[0]] + s[1..];
      } else {
        var parts := [[s[0]] + rest[0]] + rest[1..];
        JoinUnfold(parts, " ");
        JoinUnfold(rest, " ");
        assert parts[1..] == rest[1..];
        assert s == [s[0]] + s[1..];
      }
    }
  }

  lemma {:induction false} SplitNoSpace(a: String)
    requires NoSpace(a)
    ensures Split(a) == [a]
  {
    if |a| > 0 {
      assert NoSpace(a[1..]) by {
        forall i | 0 <= i < |a[1..]| ensures a[1..][i] != ' ' {
          assert a[1..][i] == a[i + 1];
        }
      }
      SplitNoSpace(a[1..]);
      assert [a[0]] + a[1..] == a;
    }
  }

  lemma {:induction false} SplitCons(a: String, b: String)
    requires NoSpace(a)
    ensures Split(a + " " + b) == [a] + Split(b)
  {
    if |a| == 0 {
      assert a + " " + b == [' '] + b;
      assert (a + " " + b)[1..] == b;
    } else {
      var s := a + " " + b;
      assert s[0] == a[0];
      assert s[1..] == a[1..] + " " + b;
      assert NoSpace(a[1..]) by {
        forall i | 0 <= i < |a[1..]| ensures a[1..][i] != ' ' {
          assert a[1..][i] == a[i + 1];
        }
      }
      SplitCons(a[1..], b);
      assert [a[0]] + a[1..] == a;
    }
  }

  /** Splitting a space-join of space-free parts gives back the parts. */
  lemma {:induction false} SplitJoin(parts: seq<String>)
    requires |parts| >= 1
    requires forall i :: 0 <= i < |parts| ==> NoSpace(parts[i])
    ensures Split(Join(parts, " ")) == parts
  {
    if |parts| == 1 {
      SplitNoSpace(parts[0]);
    } else {
      JoinUnfold(parts, " ");
      SplitCons(parts[0], Join(parts[1..], " "));
      SplitJoin(parts[1..]);
    }
  }

  function StripPrefix(prefix: String, s: String): (r: Option<String>)
    ensures r.Some? <==> prefix <= s
    ensures r.Some? ==> s == prefix + r.value
  {
    if prefix <= s then Some(s[|prefix|..]) else None
  }

  /** The topics named by a list of "topic:<t>" qualifiers, if every
      qualifier is one. */
  function StripTopics(qs: seq<String>): (r: Option<seq<String>>)
  {
    if qs == [] then Some([])
    else match (StripPrefix("topic:", qs[0]), StripTopics(qs[1..]))
      case (Some(t), Some(ts)) => Some([t] + ts)
      case _ => None
  }

  /** The organization, file name and topics a query was built from, if
      it has the shape the service produces. */
  function ParseQuery(q: String): Option<(String, String, seq<String>)>
  {
    var parts := Split(q);
    if |parts| < 2 then None
    else match (StripPrefix("org:", parts[0]), StripPrefix("filename:", parts[1]), StripTopics(parts[2..]))
      case (Some(org), Some(filename), Some(topics)) => Some((org, filename, topics))
      case _ => None
  }

  lemma {:induction false} StripTopicQualifiers(topics: seq<String>)
    ensures StripTopics(TopicQualifiers(topics)) == Some(topics)
  {
    if topics != [] {
      var qs := TopicQualifiers(topics);
      assert qs[1..] == TopicQualifiers(topics[1..]);
      StripTopicQualifiers(topics[1..]);
      assert ("topic:" + topics[0])[|"topic:"|..] == topics[0];
      assert [topics[0]] + topics[1..] == topics;
    }
  }

  lemma NoSpaceConcat(a: String, b: String)
    requires NoSpace(a) && NoSpace(b)
    ensures NoSpace(a + b)
  {
  }

  /** When no value contains a space, the query splits into exactly
      2 + |topics| qualifiers and parses back to the inputs. */
  lemma QueryRoundTrip(org: String, filename: String, topics: seq<String>)
    requires NoSpace(org) && NoSpace(filename)
    requires forall i :: 0 <= i < |topics| ==> NoSpace(topics[i])
    ensures |Split(Query(org, filename, topics))| == 2 + |topics|
    ensures ParseQuery(Query(org, filename, topics)) == Some((org, filename, topics))
  {
    var qs := Qualifiers(org, filename, topics);
    NoSpaceConcat("org:", org);
    NoSpaceConcat("filename:", filename);
    forall i | 2 <= i < |qs| ensures NoSpace(qs[i]) {
      NoSpaceConcat("topic:", topics[i - 2]);
    }
    SplitJoin(qs);
    assert qs[2..] == TopicQualifiers(topics);
    StripTopicQualifiers(topics);
    assert ("org:" + org)[|"org:"|..] == org;
    assert ("filename:" + filename)[|"filename:"|..] == filename;
  }

  /** Without escaping, a space inside a value is read as a qualifier
      boundary: two different (organization, file name) pairs yield the
      same query. */
  lemma QueryNotInjective()
    ensures ("a filename:b", "c") != ("a", "b filename:c")
    ensures Query("a filename:b", "c", []) == Query("a", "b filename:c", [])
  {
    QueryWithoutTopics("a filename:b", "c");
    QueryWithoutTopics("a", "b filename:c");
    assert "org:" + "a filename:b" + " filename:" + "c" == "org:a filename:b filename:c";
    assert "org:" + "a" + " filename:" + "b filename:c" == "org:a filename:b filename:c";
  }
}
