# Reddit / Hacker News story aggregator — a Dafny model of its core

The program periodically collects stories from Hacker News and from Reddit's
`programming` listing, merges the two streams into one process-wide story
list, and serves two pages over that list: every story newest first, and a
case-insensitive title search. This project models the sequential logic of
`main.go`:

- `Stories` — the `Story` record and the two source tags.
- `Text` — the two string primitives the search uses: upper-casing (ASCII
  letters) and substring containment.
- `Feeds` — normalisation of a Hacker News item and of a Reddit submission
  into a `Story`, the Hacker News collector (an id list, then one fetch per
  id, finishing in any order) and the Reddit collector (one listing, one
  story per submission, in listing order). A failed call yields no story.
- `FanIn` — the loop of `manageStories` that receives from the two collector
  channels and forwards each story to the writer until both channels are
  closed. The choice `select` makes is the input: a trace of receive
  outcomes (a story on a feed, or that feed's channel closed).
- `Query` — the search loop, the `all` and `topTen` listings (the sequence of
  stories each would render) and what the search handler renders.
- `StoreWriter` — the story list as a class whose `Append` is one step of
  `writeToStories`, and one refresh cycle: fan-in, then the writer.
- `QueryScenarios` — worked search examples over a three-story store.

Where the code departs from what it evidently means to do, the model follows
the code: an empty search query is answered with the 406 "Search parameter was
not given" error, but the handler goes on and lists every story (see
Findings); and the listing named `topTen` shows nine stories, not ten, and is
not routed at all (only `/` and `/search` are registered, main.go:50-51).

## Model

| member | source | states |
|---|---|---|
| Stories.OneSource | main.go:16-26 | the `Story` record holds title, author, url and source, as the Go struct; the two source tags `HackerNews` and `Reddit` differ, so a story carrying one of them names exactly one source |
| Query.Matches | main.go:171 | a story matches a query exactly when the upper-cased query occurs at some position of the upper-cased title; the empty query matches every story |
| Text.Upper | main.go:171 | upper-casing keeps the length and upper-cases each character on its own; no lower-case ASCII letter is left |
| Text.UpperIdempotent | main.go:171 | upper-casing an upper-cased string changes nothing |
| Text.ContainsIffOccurs | main.go:171 | `Contains(s, sub)` holds exactly when `sub` occurs in `s` at some position |
| Text.ContainsEmpty | main.go:171 | every string contains the empty string |
| Feeds.FromHnItem | main.go:123-128 | a Hacker News story copies title, url and author (`By`) field for field, so the item is recoverable from it, and is tagged `HackerNews` |
| Feeds.GetHnStory | main.go:115-131 | a failed item fetch yields no story; a successful one yields exactly that item's story, tagged `HackerNews` |
| Feeds.Delivered | main.go:104-112 | the per-id fetches deliver at most one story per id |
| Feeds.DeliveredMembers | main.go:106-130 | a story is delivered exactly when it is the story of some id whose fetch succeeded |
| Feeds.DeliveredAppend | main.go:104-112 | deliveries of two batches of fetches concatenate |
| Feeds.DeliveredOrderIndependent | main.go:104-112 | which stories arrive does not depend on the order the concurrent fetches finish: two orders of the same ids deliver the same multiset |
| Feeds.HnStories | main.go:93-113 | a failed id list sends nothing; otherwise at most one story per changed id |
| Feeds.HnStoriesContents | main.go:93-131 | the collector's stories are the same multiset for every completion order, and are exactly the stories of changed ids whose fetch succeeded |
| Feeds.FromSubmission | main.go:150-155 | a Reddit story copies title, url and author field for field, so the submission is recoverable from it, and is tagged `Reddit` |
| Feeds.RedditListing | main.go:142-158 | a failed listing gives no story; a listing gives one story per submission, the i-th from the i-th submission |
| Feeds.RedditStories | main.go:134-159 | the collector loop sends exactly the listing's stories, in listing order, all tagged `Reddit`, and nothing when the listing failed |
| Query.Found | main.go:167-177 | the search result is never longer than the store |
| Query.FoundIsSubsequence | main.go:167-177 | the search result is a subsequence of the store: store order is kept |
| Query.FoundCounts | main.go:167-177 | each matching story occurs in the result exactly as often as in the store, every other story not at all |
| Query.FoundMembers | main.go:167-177 | a story is in the result exactly when it is in the store and its upper-cased title contains the upper-cased query |
| Query.FoundAppend | main.go:163-177 | searching a store extended at the end gives the old results followed by the results among the new stories |
| Query.FoundCaseInsensitive | main.go:171 | two queries that upper-case to the same string find the same stories |
| Query.FoundUpperQuery | main.go:171 | upper-casing the query beforehand changes no result |
| Query.FoundEmptyQuery | main.go:171 | the empty query finds the whole store, in order |
| Query.SearchInStories | main.go:167-177 | the search loop returns exactly the matching stories in store order: a subsequence of the store holding precisely the stories that match |
| Query.NewestFirst | main.go:219-221 | the newest-first listing has as many entries as the store |
| Query.NewestFirstAt | main.go:219-221 | position k of the listing holds the k-th story from the end of the store |
| Query.NewestFirstInvolution | main.go:219-221 | listing the listing newest first gives back the store |
| Query.NewestFirstPermutation | main.go:219-221 | every story of the store appears in the listing exactly as often as in the store |
| Query.All | main.go:214-224 | the `all` loop renders every story, newest first: entry k is the k-th from the end, and the listing is a permutation of the store |
| Query.TopTen | main.go:202-212 | the `topTen` loop renders the newest `min(len, 9)` stories, newest first; never ten or more, exactly nine once the store has ten |
| Query.TopTenIntended | main.go:207-209 | with the guard admitting the tenth story, the newest `min(len, 10)` stories, ten once the store has ten |
| Query.SearchHandler | main.go:179-200 | the handler reports the missing parameter exactly when the query is empty, lists exactly the search result (the matching stories in store order, each as often as stored), shows the "no results" notice exactly when it lists none, and for the empty query lists the whole store |
| Query.SearchHandlerIntended | main.go:179-200 | with a return after the error, an empty query lists nothing; any other query lists exactly the search result, the matching stories in store order |
| FanIn.ManageStories | main.go:68-86 | the loop forwards exactly the stories received so far, in receive order, and stops exactly when both channels have been seen closed (at the first outcome where that holds), or when the trace runs out with a channel still open |
| FanIn.ValuesInterleave | main.go:71-86 | what is forwarded is a merge of the two feeds' streams in which each feed's stories keep their order |
| FanIn.InterleavingLength | main.go:71-86 | a merge holds exactly as many stories as its two streams together |
| FanIn.DrainedPrefixHasAll | main.go:71-86 | once both channels have been seen closed, no story is lost: everything either feed will ever send has been forwarded |
| FanIn.DrainedCycleForwardsAll | main.go:71-86 | a drained loop forwards a merge of both feeds' whole streams, as many stories as the two together |
| StoreWriter.StoryStore.constructor | main.go:28 | the store starts empty |
| StoreWriter.StoryStore.Append | main.go:161-165 | one writer step puts the story at the end; the length grows by one and every earlier story is unchanged |
| StoreWriter.StoryStore.WriteAll | main.go:161-165 | the writer appends a cycle's stories in arrival order, after the earlier ones |
| StoreWriter.RefreshCycle | main.go:60-86 | a cycle never truncates or reorders the store; it appends exactly the stories received, in receive order, a merge keeping each feed's order (once drained, every story of the trace); earlier search results are unchanged |
| StoreWriter.AppendedAtMostFetched | main.go:93-159 | a drained cycle appends exactly what the two collectors sent, so no more stories than changed ids plus submissions |
| QueryScenarios.SearchScenario | main.go:167-177 | in a store of "Go concurrency patterns", "Learning Rust", "Go vs Rust", the query "go" finds the first and third in that order, "python" finds none |
| QueryScenarios.CaseScenario | main.go:171 | "Rust in Production" is found by "rust", "RUST" and "Rust" |

## Left out

- Goroutines, channels, their buffer size of 8, `sync.WaitGroup` and the scheduling of `select` (main.go:60-66, 104-112): the fan-in is a loop over an explicit trace of receive outcomes, and the order in which the Hacker News per-id fetches finish is an explicit parameter.
- FanIn.ManageStories: stops when the trace runs out with a channel still open, where the real loop would block in `select` waiting for more.
- The data race between the writer and the HTTP handlers on the shared story list (main.go:28, 163, 170, 219): the model has one owner of the list, and the handlers read a snapshot of it.
- `time.Sleep`, the endless refresh loop and the writer goroutine that never ends (main.go:59, 88, 162): timing and liveness, not functional behaviour; one loop iteration is `RefreshCycle`.
- The feed clients (main.go:33-45, 97, 118, 137-142): their results are given as `Result` values and a per-id fetch function; the Reddit login and the process exit on login failure are not modelled.
- The HTTP server, `r.FormValue`, `http.Error` status codes and `w.Write` (main.go:47-56, 179-200): only which stories each handler renders, and whether the error or the "no results" notice is written.
- HTML building in `htmlHead`, `htmlTail`, `htmlForm` and `htmlStory` (main.go:226-259): string templating.
- Text.Upper: upper-cases ASCII letters only, where `strings.ToUpper` follows Unicode case mapping; case-insensitivity is stated relative to this function.
- Error logging to the console (main.go:100, 145): output only.

## Findings

| source | as written | input that shows it | evidently intended | confidence | as-written member | corrected member |
|---|---|---|---|---|---|---|
| main.go:207 | the guard `len(stories) - i < 10` ends the loop after nine stories | a store of ten stories: `topTen` renders nine | the newest ten stories | medium, not executed | Query.TopTen | Query.TopTenIntended |
| main.go:182-184 | `http.Error` for an empty query is not followed by `return` | query "" with a non-empty store: the error text is followed by every story | an empty query renders only the error | high, not executed | Query.SearchHandler | Query.SearchHandlerIntended |
