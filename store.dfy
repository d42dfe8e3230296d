/** The story store, its single writer, and one refresh cycle wiring the
    collectors, the fan-in loop and the writer together. */
module StoreWriter {
  import opened Stories
  import opened Feeds
  import opened FanIn
  import Query

  /** The process-wide story list. It only ever grows at the end. */
  class StoryStore {
    var stories: seq<Story>

    /** The store starts empty. */
    constructor ()
      ensures stories == []
    {
      stories := [];
    }

    /** One step of writeToStories: the received story goes at the end and
        every earlier story stays where it was. */
    method Append(s: Story)
      modifies this
      ensures stories == old(stories) + [s]
      ensures |stories| == |old(stories)| + 1
      ensures stories[..|old(stories)|] == old(stories) && stories[|stories| - 1] == s
    {
      stories := stories + [s];
    }

    /** writeToStories over one cycle's stream: each received story is
        appended in the order it arrives. */
    method WriteAll(received: seq<Story>)
      modifies this
      ensures stories == old(stories) + received
    {
      var i := 0;
      while i < |received|
        invariant 0 <= i <= |received|
        invariant stories == old(stories) + received[..i]
      {
        Append(received[i]);
        assert received[..i + 1] == received[..i] + [received[i]];
        i := i + 1;
      }
      assert received[..i] == received;
    }
  }

  /** One refresh cycle driven by `trace`: the fan-in loop forwards to the
      writer, which appends. Earlier stories are untouched; every story the
      loop received has been appended, each feed's in its own order (once
      both feeds are drained that is every story of the trace), and earlier
      search results stay as they were. */
  method RefreshCycle(store: StoryStore, trace: seq<Event>) returns (drained: bool)
    requires WellFormed(trace)
    modifies store
    ensures |store.stories| >= |old(store.stories)|
    ensures store.stories[..|old(store.stories)|] == old(store.stories)
    ensures store.stories == old(store.stories) + Values(trace)
    ensures IsInterleaving(store.stories[|old(store.stories)|..], ValuesFrom(trace, Hn), ValuesFrom(trace, Reddit))
    ensures forall q :: (Query.Found(store.stories, q) ==
                         Query.Found(old(store.stories), q) + Query.Found(store.stories[|old(store.stories)|..], q))
  {
    var forwarded, consumed;
    forwarded, consumed, drained := ManageStories(trace);
    store.WriteAll(forwarded);
    ghost var before := old(store.stories);
    assert store.stories[|before|..] == forwarded;
    if drained {
      DrainedPrefixHasAll(trace, consumed);
    } else {
      assert trace[..consumed] == trace;
    }
    ValuesInterleave(trace);
    forall q ensures Query.Found(store.stories, q) == Query.Found(before, q) + Query.Found(forwarded, q) {
      Query.FoundAppend(before, forwarded, q);
    }
  }

  /** A drained cycle whose feeds carried what the two collectors sent
      appends no more stories than the sources returned items: at most one
      per changed Hacker News id plus one per Reddit submission. */
  lemma AppendedAtMostFetched(trace: seq<Event>, k: nat, changes: Result<seq<int>>,
                              fetch: int -> Result<HnItem>, order: seq<int>, listing: Result<seq<Submission>>)
    requires changes.Ok? ==> multiset(order) == multiset(changes.value)
    requires WellFormed(trace) && k <= |trace|
    requires ClosedIn(trace[..k], Hn) && ClosedIn(trace[..k], Reddit)
    requires ValuesFrom(trace, Hn) == HnStories(changes, fetch, order)
    requires ValuesFrom(trace, Reddit) == RedditListing(listing)
    ensures |Values(trace[..k])| ==
            |HnStories(changes, fetch, order)| + |RedditListing(listing)|
    ensures |Values(trace[..k])| <=
            (if changes.Ok? then |changes.value| else 0) + (if listing.Ok? then |listing.value| else 0)
  {
    DrainedCycleForwardsAll(trace, k);
  }
}
