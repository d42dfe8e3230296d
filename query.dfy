/** The read side of the story store: the substring search and the two
    newest-first listings, each giving the stories a handler would render. */
module Query {
  import opened Text
  import opened Stories

  /** A story matches a query when its upper-cased title contains the
      upper-cased query, that is, when the upper-cased query occurs at some
      position of the upper-cased title. The empty query matches every story. */
  function Matches(s: Story, query: string): (b: bool)
    ensures b <==> exists i :: OccursAt(Upper(s.title), Upper(query), i)
    ensures query == "" ==> b
  {
    ContainsIffOccurs(Upper(s.title), Upper(query));
    ContainsEmpty(Upper(s.title));
    Contains(Upper(s.title), Upper(query))
  }

  /** The matching stories, in store order. */
  function Found(stories: seq<Story>, query: string): (r: seq<Story>)
    ensures |r| <= |stories|
  {
    if stories == [] then []
    else
      var last := stories[|stories| - 1];
      Found(stories[..|stories| - 1], query) + (if Matches(last, query) then [last] else [])
  }

  /** `a` is `b` with some elements left out, the rest in the same order. */
  predicate IsSubsequence(a: seq<Story>, b: seq<Story>)
    decreases |b|
  {
    a == [] ||
    (b != [] &&
     ((a[|a| - 1] == b[|b| - 1] && IsSubsequence(a[..|a| - 1], b[..|b| - 1])) ||
      IsSubsequence(a, b[..|b| - 1])))
  }

  /** The search keeps store order: its result is a subsequence of the store. */
  lemma {:induction false} FoundIsSubsequence(stories: seq<Story>, query: string)
    ensures IsSubsequence(Found(stories, query), stories)
  {
    if stories != [] {
      var init := stories[..|stories| - 1];
      var last := stories[|stories| - 1];
      FoundIsSubsequence(init, query);
      var r := Found(stories, query);
      if Matches(last, query) {
        assert r[|r| - 1] == last && r[..|r| - 1] == Found(init, query);
      } else {
        assert r == Found(init, query);
      }
    }
  }

  /** The search keeps exactly the matching stories, each as often as the
      store holds it, and drops every other story. */
  lemma {:induction false} FoundCounts(stories: seq<Story>, query: string, x: Story)
    ensures multiset(Found(stories, query))[x] == if Matches(x, query) then multiset(stories)[x] else 0
  {
    if stories != [] {
      var init := stories[..|stories| - 1];
      var last := stories[|stories| - 1];
      FoundCounts(init, query, x);
      assert stories == init + [last];
    }
  }

  /** A story is in the result exactly when it is in the store and matches. */
  lemma FoundMembers(stories: seq<Story>, query: string, x: Story)
    ensures x in Found(stories, query) <==> x in stories && Matches(x, query)
  {
    FoundCounts(stories, query, x);
    assert x in Found(stories, query) <==> multiset(Found(stories, query))[x] > 0;
  }

  /** The search distributes over concatenation: stories appended to the
      store can only add results after the earlier ones. */
  lemma {:induction false} FoundAppend(s: seq<Story>, t: seq<Story>, query: string)
    ensures Found(s + t, query) == Found(s, query) + Found(t, query)
    decreases |t|
  {
    if t == [] {
      assert s + t == s;
    } else {
      var init := t[..|t| - 1];
      FoundAppend(s, init, query);
      assert (s + t)[..|s + t| - 1] == s + init;
    }
  }

  /** The search is case-insensitive: queries that upper-case alike find the
      same stories. */
  lemma {:induction false} FoundCaseInsensitive(stories: seq<Story>, q1: string, q2: string)
    requires Upper(q1) == Upper(q2)
    ensures Found(stories, q1) == Found(stories, q2)
  {
    if stories != [] {
      FoundCaseInsensitive(stories[..|stories| - 1], q1, q2);
    }
  }

  /** Upper-casing the query first changes nothing. */
  lemma FoundUpperQuery(stories: seq<Story>, query: string)
    ensures Found(stories, Upper(query)) == Found(stories, query)
  {
    UpperIdempotent(query);
    FoundCaseInsensitive(stories, Upper(query), query);
  }

  /** The empty query matches every title, so it finds the whole store. */
  lemma {:induction false} FoundEmptyQuery(stories: seq<Story>)
    ensures Found(stories, "") == stories
  {
    if stories != [] {
      var init := stories[..|stories| - 1];
      FoundEmptyQuery(init);
      ContainsEmpty(Upper(stories[|stories| - 1].title));
      assert stories == init + [stories[|stories| - 1]];
    }
  }

  /** The search loop: walks the store in order and appends each story whose
      upper-cased title contains the upper-cased query. */
  method SearchInStories(stories: seq<Story>, query: string) returns (found: seq<Story>)
    ensures found == Found(stories, query)
    ensures IsSubsequence(found, stories)
    ensures forall x :: x in found <==> x in stories && Matches(x, query)
  {
    found := [];
    var i := 0;
    while i < |stories|
      invariant 0 <= i <= |stories|
      invariant found == Found(stories[..i], query)
    {
      var story := stories[i];
      if Contains(Upper(story.title), Upper(query)) {
        found := found + [story];
      }
      assert stories[..i + 1][..i] == stories[..i];
      i := i + 1;
    }
    assert stories[..i] == stories;
    FoundIsSubsequence(stories, query);
    forall x ensures x in found <==> x in stories && Matches(x, query) {
      FoundMembers(stories, query, x);
    }
  }

  /** The store, most recently appended first. */
  function NewestFirst(stories: seq<Story>): (r: seq<Story>)
    ensures |r| == |stories|
  {
    if stories == [] then [] else [stories[|stories| - 1]] + NewestFirst(stories[..|stories| - 1])
  }

  /** Position k of the newest-first listing holds the k-th story from the end. */
  lemma {:induction false} NewestFirstAt(stories: seq<Story>, k: nat)
    requires k < |stories|
    ensures NewestFirst(stories)[k] == stories[|stories| - 1 - k]
  {
    if k > 0 {
      NewestFirstAt(stories[..|stories| - 1], k - 1);
    }
  }

  /** Listing newest first twice gives back the store order. */
  lemma NewestFirstInvolution(stories: seq<Story>)
    ensures NewestFirst(NewestFirst(stories)) == stories
  {
    var r := NewestFirst(stories);
    forall k | 0 <= k < |stories| ensures NewestFirst(r)[k] == stories[k] {
      NewestFirstAt(r, k);
      NewestFirstAt(stories, |stories| - 1 - k);
    }
  }

  /** Every story of the store appears in the listing exactly as often. */
  lemma {:induction false} NewestFirstPermutation(stories: seq<Story>)
    ensures multiset(NewestFirst(stories)) == multiset(stories)
  {
    if stories != [] {
      var init := stories[..|stories| - 1];
      NewestFirstPermutation(init);
      assert stories == init + [stories[|stories| - 1]];
    }
  }

  /** The `all` listing: every story, newest first, by a descending index. */
  method All(stories: seq<Story>) returns (listing: seq<Story>)
    ensures |listing| == |stories|
    ensures forall k :: 0 <= k < |stories| ==> listing[k] == stories[|stories| - 1 - k]
    ensures listing == NewestFirst(stories)
    ensures multiset(listing) == multiset(stories)
  {
    listing := [];
    var i := |stories| - 1;
    while i >= 0
      invariant -1 <= i < |stories|
      invariant |listing| == |stories| - 1 - i
      invariant forall k :: 0 <= k < |listing| ==> listing[k] == stories[|stories| - 1 - k]
    {
      listing := listing + [stories[i]];
      i := i - 1;
    }
    forall k | 0 <= k < |stories| ensures listing[k] == NewestFirst(stories)[k] {
      NewestFirstAt(stories, k);
    }
    NewestFirstPermutation(stories);
  }

  function Min(a: int, b: int): (m: int)
    ensures m <= a && m <= b && (m == a || m == b)
  {
    if a < b then a else b
  }

  /** The `topTen` listing as written: the guard `len - i < 10` stops after
      nine stories, so it shows the newest nine, never ten. */
  method TopTen(stories: seq<Story>) returns (listing: seq<Story>)
    ensures listing == NewestFirst(stories)[..Min(|stories|, 9)]
    ensures |listing| < 10
    ensures |stories| >= 10 ==> |listing| == 9
  {
    listing := [];
    var i := |stories| - 1;
    while i >= 0 && |stories| - i < 10
      invariant -1 <= i < |stories|
      invariant |stories| - 1 - i <= 9
      invariant |listing| == |stories| - 1 - i
      invariant forall k :: 0 <= k < |listing| ==> listing[k] == stories[|stories| - 1 - k]
    {
      listing := listing + [stories[i]];
      i := i - 1;
    }
    forall k | 0 <= k < |listing| ensures listing[k] == NewestFirst(stories)[k] {
      NewestFirstAt(stories, k);
    }
  }

  /** The listing the name `topTen` promises: the guard admits the tenth story. */
  method TopTenIntended(stories: seq<Story>) returns (listing: seq<Story>)
    ensures listing == NewestFirst(stories)[..Min(|stories|, 10)]
    ensures |stories| >= 10 ==> |listing| == 10
  {
    listing := [];
    var i := |stories| - 1;
    while i >= 0 && |stories| - i <= 10
      invariant -1 <= i < |stories|
      invariant |stories| - 1 - i <= 10
      invariant |listing| == |stories| - 1 - i
      invariant forall k :: 0 <= k < |listing| ==> listing[k] == stories[|stories| - 1 - k]
    {
      listing := listing + [stories[i]];
      i := i - 1;
    }
    forall k | 0 <= k < |listing| ensures listing[k] == NewestFirst(stories)[k] {
      NewestFirstAt(stories, k);
    }
  }

  /** What the search handler renders: whether it wrote the "parameter was
      not given" error, the stories it lists, and whether it wrote the
      "no results" notice. */
  datatype SearchPage = SearchPage(rejected: bool, shown: seq<Story>, noResults: bool)

  /** The search handler as written: an empty query writes the error but
      does not return, so the search still runs and, since every title
      contains the empty string, the whole store is listed. */
  function SearchHandler(stories: seq<Story>, query: string): (p: SearchPage)
    ensures p.rejected <==> query == ""
    ensures p.noResults <==> p.shown == []
    ensures forall x :: x in p.shown <==> x in stories && Matches(x, query)
    ensures query == "" ==> p.shown == stories
    ensures p.shown == Found(stories, query)
  {
    FoundEmptyQuery(stories);
    forall x ensures x in Found(stories, query) <==> x in stories && Matches(x, query) {
      FoundMembers(stories, query, x);
    }
    var found := Found(stories, query);
    SearchPage(query == "", found, found == [])
  }

  /** The search handler with the evident intent: an empty query is a client
      error and nothing else is rendered. */
  function SearchHandlerIntended(stories: seq<Story>, query: string): (p: SearchPage)
    ensures p.rejected <==> query == ""
    ensures query == "" ==> p.shown == [] && !p.noResults
    ensures query != "" ==> (p.noResults <==> p.shown == [])
    ensures forall x :: x in p.shown <==> query != "" && x in stories && Matches(x, query)
    ensures query != "" ==> p.shown == Found(stories, query)
  {
    if query == "" then SearchPage(true, [], false)
    else
      forall x ensures x in Found(stories, query) <==> x in stories && Matches(x, query) {
        FoundMembers(stories, query, x);
      }
      var found := Found(stories, query);
      SearchPage(false, found, found == [])
  }
}
