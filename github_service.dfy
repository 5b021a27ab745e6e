/** The search wrapper around the code-hosting platform's client:
    `GitHubService.findFileInOrg` builds a code-search query from an
    organization, a file name and a list of repository topics, sends it
    once with a fixed page size, and reshapes the response items into
    `SearchResult` records. The client's `search.code` call is a
    parameter of the model: a function from the request it receives to
    the outcome it settles with. */
module GitHubService {
  import opened Wrappers

  type String = seq<char>

  /** What the caller gets back per matched file. */
  datatype SearchResult = SearchResult(repository: String, path: String, url: String)

  /** The part of a code-search response item that the service reads. */
  datatype Repository = Repository(fullName: String)
  datatype CodeSearchItem = CodeSearchItem(path: String, repository: Repository, htmlUrl: String)

  /** The parameters handed to `search.code`. */
  datatype SearchRequest = SearchRequest(q: String, perPage: nat)

  /** How the `search.code` call settles: with the response's item list,
      or with the error it was rejected with. */
  datatype Outcome<+E> = Resolved(items: seq<CodeSearchItem>) | Rejected(error: E)

  /** Results per page requested from the search endpoint. */
  const PerPage: nat := 100

  // ---------------------------------------------------------------------
  // Query construction
  // ---------------------------------------------------------------------

  /** `topics.map(topic => "topic:" + topic)`. */
  function TopicQualifiers(topics: seq<String>): (qs: seq<String>)
    ensures |qs| == |topics|
    ensures forall i :: 0 <= i < |topics| ==> qs[i] == "topic:" + topics[i]
  {
    if topics == [] then []
    else ["topic:" + topics[0]] + TopicQualifiers(topics[1..])
  }

  /** The qualifier list: the organization, then the file name, then one
      topic qualifier per topic in input order. */
  function Qualifiers(org: String, filename: String, topics: seq<String>): (qs: seq<String>)
    ensures |qs| == 2 + |topics|
    ensures qs[0] == "org:" + org && qs[1] == "filename:" + filename
    ensures forall i :: 0 <= i < |topics| ==> qs[2 + i] == "topic:" + topics[i]
  {
    ["org:" + org, "filename:" + filename] + TopicQualifiers(topics)
  }

  /** `parts.join(sep)` as JavaScript defines it: the empty list joins to
      the empty string, and the separator goes only between elements. */
  function Join(parts: seq<String>, sep: String): String
  {
    if |parts| == 0 then ""
    else if |parts| == 1 then parts[0]
    else parts[0] + sep + Join(parts[1..], sep)
  }

  /** The search string sent as `q`. */
  function Query(org: String, filename: String, topics: seq<String>): String
  {
    Join(Qualifiers(org, filename, topics), " ")
  }

  /** Reference reading of the query: the topic part is " topic:<t>" for
      each topic, concatenated in order. */
  function TopicSuffix(topics: seq<String>): String
  {
    if topics == [] then ""
    else " topic:" + topics[0] + TopicSuffix(topics[1..])
  }

  lemma JoinCons(head: String, rest: seq<String>, sep: String)
    requires rest != []
    ensures Join([head] + rest, sep) == head + sep + Join(rest, sep)
  {
    assert ([head] + rest)[1..] == rest;
  }

  lemma {:induction false} JoinTopics(head: String, topics: seq<String>)
    ensures Join([head] + TopicQualifiers(topics), " ") == head + TopicSuffix(topics)
    decreases topics
  {
    if topics == [] {
      assert [head] + TopicQualifiers(topics) == [head];
    } else {
      var rest := TopicQualifiers(topics[1..]);
      var t := "topic:" + topics[0];
      assert TopicQualifiers(topics) == [t] + rest;
      JoinCons(head, [t] + rest, " ");
      JoinTopics(t, topics[1..]);
      assert head + " " + (t + TopicSuffix(topics[1..])) == head + TopicSuffix(topics);
    }
  }

  /** The query is "org:<org> filename:<filename>" followed by
      " topic:<t>" for each topic in order. */
  lemma QueryMatchesReference(org: String, filename: String, topics: seq<String>)
    ensures Query(org, filename, topics) == "org:" + org + " filename:" + filename + TopicSuffix(topics)
  {
    var o, f := "org:" + org, "filename:" + filename;
    var tail := [f] + TopicQualifiers(topics);
    assert Qualifiers(org, filename, topics) == [o] + tail;
    JoinCons(o, tail, " ");
    JoinTopics(f, topics);
  }

  /** With the default (empty) topic list the query holds exactly the
      organization and file name qualifiers. */
  lemma QueryWithoutTopics(org: String, filename: String)
    ensures Query(org, filename, []) == "org:" + org + " filename:" + filename
  {
    QueryMatchesReference(org, filename, []);
  }

  /** Adding a topic appends exactly one " topic:<t>" qualifier to the end
      of the query and leaves the rest of it as it was. */
  lemma {:induction false} QueryAppendTopic(org: String, filename: String, topics: seq<String>, t: String)
    ensures Query(org, filename, topics + [t]) == Query(org, filename, topics) + " topic:" + t
  {
    QueryMatchesReference(org, filename, topics);
    QueryMatchesReference(org, filename, topics + [t]);
    TopicSuffixAppend(topics, t);
  }

  lemma {:induction false} TopicSuffixAppend(topics: seq<String>, t: String)
    ensures TopicSuffix(topics + [t]) == TopicSuffix(topics) + " topic:" + t
  {
    if topics == [] {
      assert [] + [t] == [t];
      assert [t][1..] == [];
    } else {
      assert (topics + [t])[1..] == topics[1..] + [t];
      TopicSuffixAppend(topics[1..], t);
    }
  }

  /** The request `findFileInOrg` hands to `search.code`: the query
      built from the inputs and a page size of 100, whatever the inputs. */
  function Request(org: String, filename: String, topics: seq<String>): (req: SearchRequest)
    ensures req.perPage == 100
    ensures req.q == "org:" + org + " filename:" + filename + TopicSuffix(topics)
  {
    QueryMatchesReference(org, filename, topics);
    SearchRequest(Query(org, filename, topics), PerPage)
  }

  // ---------------------------------------------------------------------
  // Response mapping
  // ---------------------------------------------------------------------

  /** `items.map(item => ({ repository, path, url }))`: one result per
      item, in item order, each field copied from the item. */
  function MapItems(items: seq<CodeSearchItem>): (results: seq<SearchResult>)
    ensures |results| == |items|
    ensures forall i :: 0 <= i < |items| ==>
      results[i].repository == items[i].repository.fullName &&
      results[i].path == items[i].path &&
      results[i].url == items[i].htmlUrl
  {
    if items == [] then []
    else
      var item := items[0];
      [SearchResult(item.repository.fullName, item.path, item.htmlUrl)] + MapItems(items[1..])
  }

  /** Mapping keeps order: the results for a concatenation of item lists
      are the concatenation of their results. */
  lemma {:induction false} MapItemsConcat(a: seq<CodeSearchItem>, b: seq<CodeSearchItem>)
    ensures MapItems(a + b) == MapItems(a) + MapItems(b)
  {
    if a == [] {
      assert a + b == b;
    } else {
      assert (a + b)[1..] == a[1..] + b;
      MapItemsConcat(a[1..], b);
    }
  }

  // ---------------------------------------------------------------------
  // The operation
  // ---------------------------------------------------------------------

  /** `findFileInOrg(org, filename, topics)` against a client whose
      `search.code` settles with `searchCode(request)`. A resolved call
      yields one result per item, fields copied verbatim and order kept
      (an empty item list yields no results, not an error); a rejected
      call is rethrown as the same error with no partial results. */
  function FindFileInOrg<E>(org: String, filename: String, topics: seq<String>,
                            searchCode: SearchRequest -> Outcome<E>): (r: Result<seq<SearchResult>, E>)
    ensures r.Err? <==> searchCode(Request(org, filename, topics)).Rejected?
    ensures r.Err? ==> r.error == searchCode(Request(org, filename, topics)).error
    ensures r.Ok? ==>
      var items := searchCode(Request(org, filename, topics)).items;
      |r.value| == |items| &&
      forall i :: 0 <= i < |items| ==>
        r.value[i] == SearchResult(items[i].repository.fullName, items[i].path, items[i].htmlUrl)
  {
    match searchCode(Request(org, filename, topics))
    case Resolved(items) => Ok(MapItems(items))
    case Rejected(error) => Err(error)
  }

  /** An empty item list is a successful, empty search. */
  lemma EmptyResponseIsEmptyResult<E>(org: String, filename: String, topics: seq<String>,
                                      searchCode: SearchRequest -> Outcome<E>)
    requires searchCode(Request(org, filename, topics)) == Resolved([])
    ensures FindFileInOrg(org, filename, topics, searchCode) == Ok([])
  {
  }

  // ---------------------------------------------------------------------
  // The recorded examples
  // ---------------------------------------------------------------------

  lemma ExampleWithoutTopics()
    ensures Request("test-org", "package.json", [])
         == SearchRequest("org:test-org filename:package.json", 100)
  {
    QueryWithoutTopics("test-org", "package.json");
  }

  lemma ExampleWithTopic()
    ensures Request("test-org", "package.json", ["nodejs"])
         == SearchRequest("org:test-org filename:package.json topic:nodejs", 100)
  {
    var base := "org:test-org filename:package.json";
    assert "org:" + "test-org" + " filename:" + "package.json" == base;
    assert ["nodejs"][1..] == [];
    assert TopicSuffix(["nodejs"]) == " topic:nodejs";
    assert base + " topic:nodejs" == "org:test-org filename:package.json topic:nodejs";
  }
}
