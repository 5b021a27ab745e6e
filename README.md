# File search across an organization

A model of `GitHubService.findFileInOrg`, the one piece of logic in a small
tool that searches every repository of a code-hosting organization for a
file of a given name, optionally restricted to repositories carrying given
topics. The operation

1. builds the qualifier list `org:<org>`, `filename:<filename>`, then
   `topic:<t>` for each topic in input order, and joins it with single
   spaces into the search string `q`;
2. calls the client's `search.code` once with `{ q, per_page: 100 }`;
3. maps each response item to a `SearchResult { repository, path, url }`
   taken from the item's `repository.full_name`, `path` and `html_url`;
4. rethrows the client's error unchanged if the call fails.

The model is pure: `search.code` is a parameter `searchCode: SearchRequest ->
Outcome<E>`, the outcome the client settles with for the request it is
given (`Resolved(items)` or `Rejected(error)`), and the operation returns a
`Result<seq<SearchResult>, E>` instead of a promise. Because the request is
passed to `searchCode`, the model also fixes what is sent.

Files:

- `wrappers.dfy` — `Option` and `Result`.
- `github_service.dfy` — module `GitHubService`: the data types, query
  construction (`TopicQualifiers`, `Qualifiers`, `Join` with JavaScript's
  `Array.prototype.join` behaviour, `Query`, `Request`), the response mapping
  (`MapItems`), the operation (`FindFileInOrg`) and their lemmas, including
  the two request examples the repository's tests record.
- `query_parse.dfy` — module `QueryParse`: an independent reading of the
  query (split on spaces, strip the `org:`, `filename:`, `topic:` prefixes)
  and the round trip it completes when no value contains a space, plus the
  collision that unescaped values allow.

## Model

| member | source | states |
|---|---|---|
| `GitHubService.TopicQualifiers` | src/services/GitHubService.ts:15 | one `topic:<t>` qualifier per topic, same count, same order |
| `GitHubService.Qualifiers` | src/services/GitHubService.ts:12-16 | exactly 2 + \|topics\| qualifiers: `org:<org>` first, `filename:<filename>` second, then the topic qualifiers in input order |
| `GitHubService.JoinTopics` | src/services/GitHubService.ts:15-17 | space-joining a qualifier followed by the topic qualifiers appends ` topic:<t>` per topic to it |
| `GitHubService.QueryMatchesReference` | src/services/GitHubService.ts:12-17 | the query equals `org:<org> filename:<filename>` followed by ` topic:<t>` for each topic in order |
| `GitHubService.QueryWithoutTopics` | src/services/GitHubService.ts:10-17 | with the default empty topic list the query is exactly `org:<org> filename:<filename>` |
| `GitHubService.QueryAppendTopic` | src/services/GitHubService.ts:15-17 | one more topic appends exactly ` topic:<t>` to the query and changes nothing before it |
| `GitHubService.Request` | src/services/GitHubService.ts:20-23 | the request carries that query and `per_page` 100 for every input |
| `GitHubService.MapItems` | src/services/GitHubService.ts:25-29 | one result per item, in item order, with repository, path and url copied from `repository.full_name`, `path`, `html_url` |
| `GitHubService.MapItemsConcat` | src/services/GitHubService.ts:25 | mapping distributes over concatenation of item lists, so relative order is kept |
| `GitHubService.FindFileInOrg` | src/services/GitHubService.ts:7-34 | fails exactly when the search call for the built request fails, with the same error and no results; otherwise returns one verbatim-copied result per item in order |
| `GitHubService.EmptyResponseIsEmptyResult` | src/services/GitHubService.ts:25 | an empty item list gives a successful empty result, not an error |
| `GitHubService.ExampleWithoutTopics` | tests/services/GitHubService.test.ts:33-40 | `("test-org", "package.json")` sends `q = "org:test-org filename:package.json"`, `per_page = 100` |
| `GitHubService.ExampleWithTopic` | tests/services/GitHubService.test.ts:58-67 | with topic `nodejs` it sends `q = "org:test-org filename:package.json topic:nodejs"`, `per_page = 100` |
| `QueryParse.JoinSplit` | src/services/GitHubService.ts:17 | space-joining the space-split parts of any string gives the string back |
| `QueryParse.SplitJoin` | src/services/GitHubService.ts:17 | splitting the space-join of a non-empty list of space-free parts gives the list back |
| `QueryParse.QueryRoundTrip` | src/services/GitHubService.ts:12-17 | when org, filename and topics contain no space, the query has 2 + \|topics\| space-separated qualifiers and parses back to exactly those inputs |
| `QueryParse.QueryNotInjective` | src/services/GitHubService.ts:13-14 | values are not escaped: different (org, filename) pairs can produce the same query |

## Left out

- `src/config/github.ts`: reading the token from the environment and building the client at import time is process setup, not logic; the client appears only as the `searchCode` parameter.
- `src/app.ts`: the hard-coded configuration, the placeholder-organization guard and console rendering are orchestration and output.
- The HTTP request made by `search.code` is a foreign network call; its outcome is the `searchCode` parameter, so rate limits, pagination beyond the first page and transport details are not modelled.
- The `console.error` call before the rethrow is a side effect that does not change the result.
- Promises and `await`: the single awaited call is modelled synchronously.
- Response items carry many more fields than the three the service reads; `CodeSearchItem` holds only those three.
- The `SearchResult` type's declaring module (`@/types`) is not part of this model; its three string fields are taken from how the service builds it.
