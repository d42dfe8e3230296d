/** Normalisation of the two feeds' items into stories. The feed clients
    themselves are not modelled: what they return is given as a `Result`. */
module Feeds {
  import opened Stories

  /** What a feed client call gives back: a value or an error message. */
  datatype Result<T> = Ok(value: T) | Err(message: string)

  datatype Option<T> = None | Some(value: T)

  /** The fields of a Hacker News item the collector reads (`author` is the item's `By`). */
  datatype HnItem = HnItem(title: string, url: string, author: string)

  /** The fields of a Reddit submission the collector reads. */
  datatype Submission = Submission(title: string, url: string, author: string)

  /** A Hacker News item as a story: fields copied, tagged HackerNews.
      Nothing is lost: the item is recovered from the story's fields. */
  function FromHnItem(item: HnItem): (s: Story)
    ensures Registered(s) && s.source == SourceHackerNews
    ensures HnItem(s.title, s.url, s.author) == item
  {
    Story(item.title, item.author, item.url, SourceHackerNews)
  }

  /** A Reddit submission as a story: fields copied, tagged Reddit.
      Nothing is lost: the submission is recovered from the story's fields. */
  function FromSubmission(sub: Submission): (s: Story)
    ensures Registered(s) && s.source == SourceReddit
    ensures Submission(s.title, s.url, s.author) == sub
  {
    Story(sub.title, sub.author, sub.url, SourceReddit)
  }

  /** One per-item fetch: a failed fetch yields no story, a successful one
      yields the item's story. */
  function GetHnStory(fetched: Result<HnItem>): (r: Option<Story>)
    ensures r.Some? <==> fetched.Ok?
    ensures r.Some? ==> (r.value.source == SourceHackerNews &&
                         HnItem(r.value.title, r.value.url, r.value.author) == fetched.value)
  {
    match fetched
    case Ok(item) => Some(FromHnItem(item))
    case Err(_) => None
  }

  /** The stories the per-item fetches deliver, in the order the fetches
      finish (`order`); `fetch` stands for the client's per-id answer. */
  function Delivered(order: seq<int>, fetch: int -> Result<HnItem>): (r: seq<Story>)
    ensures |r| <= |order|
  {
    if order == [] then []
    else
      match GetHnStory(fetch(order[0]))
      case Some(s) => [s] + Delivered(order[1..], fetch)
      case None => Delivered(order[1..], fetch)
  }

  /** The Hacker News collector: the changed-id list, then one fetch per id.
      A failed id list yields nothing. `order` is the order in which the
      per-id fetches finish, some permutation of the ids. */
  function HnStories(changes: Result<seq<int>>, fetch: int -> Result<HnItem>, order: seq<int>): (r: seq<Story>)
    requires changes.Ok? ==> multiset(order) == multiset(changes.value)
    ensures changes.Err? ==> r == []
    ensures changes.Ok? ==> |r| <= |changes.value|
  {
    match changes
    case Err(_) => []
    case Ok(ids) =>
      assert |order| == |multiset(order)| == |multiset(ids)| == |ids|;
      Delivered(order, fetch)
  }

  /** A delivered story is exactly the story of some id whose fetch succeeded. */
  lemma {:induction false} DeliveredMembers(order: seq<int>, fetch: int -> Result<HnItem>, s: Story)
    ensures s in Delivered(order, fetch) <==>
      exists k :: 0 <= k < |order| && fetch(order[k]).Ok? && FromHnItem(fetch(order[k]).value) == s
  {
    if order != [] {
      DeliveredMembers(order[1..], fetch, s);
      if exists k :: 0 <= k < |order| && fetch(order[k]).Ok? && FromHnItem(fetch(order[k]).value) == s {
        var k :| 0 <= k < |order| && fetch(order[k]).Ok? && FromHnItem(fetch(order[k]).value) == s;
        if k > 0 {
          assert order[1..][k - 1] == order[k];
        }
      }
      forall k | 0 < k < |order| ensures order[1..][k - 1] == order[k] { }
    }
  }

  /** Deliveries split at any point of the completion order. */
  lemma {:induction false} DeliveredAppend(a: seq<int>, b: seq<int>, fetch: int -> Result<HnItem>)
    ensures Delivered(a + b, fetch) == Delivered(a, fetch) + Delivered(b, fetch)
  {
    if a != [] {
      assert (a + b)[0] == a[0] && (a + b)[1..] == a[1..] + b;
      DeliveredAppend(a[1..], b, fetch);
    } else {
      assert a + b == b;
    }
  }

  lemma SplitAtIndex(o: seq<int>, j: nat)
    requires j < |o|
    ensures o == (o[..j] + [o[j]]) + o[j + 1..]
  {
  }

  /** Taking one id out of a completion order takes its story (if any) out
      of the delivered multiset. */
  lemma DeliveredSplitAt(o: seq<int>, j: nat, fetch: int -> Result<HnItem>)
    requires j < |o|
    ensures multiset(Delivered(o, fetch)) ==
            multiset(Delivered([o[j]], fetch)) + multiset(Delivered(o[..j] + o[j + 1..], fetch))
  {
    var pre, x, post := o[..j], o[j], o[j + 1..];
    SplitAtIndex(o, j);
    DeliveredAppend(pre + [x], post, fetch);
    DeliveredAppend(pre, [x], fetch);
    DeliveredAppend(pre, post, fetch);
    var dp, dx, dq := Delivered(pre, fetch), Delivered([x], fetch), Delivered(post, fetch);
    assert Delivered(o, fetch) == dp + dx + dq;
    assert multiset(dp + dx + dq) == multiset(dp) + multiset(dx) + multiset(dq);
    assert multiset(dp + dq) == multiset(dp) + multiset(dq);
  }

  lemma RemoveFromBoth(o1: seq<int>, o2: seq<int>, j: nat)
    requires multiset(o1) == multiset(o2) && o1 != [] && j < |o2| && o2[j] == o1[0]
    ensures multiset(o1[1..]) == multiset(o2[..j] + o2[j + 1..])
  {
    var x := o1[0];
    assert o1 == [x] + o1[1..];
    assert o2 == o2[..j] + [x] + o2[j + 1..];
    calc {
      multiset(o1[1..]);
      multiset(o1) - multiset{x};
      multiset(o2) - multiset{x};
      multiset(o2[..j]) + multiset(o2[j + 1..]);
      multiset(o2[..j] + o2[j + 1..]);
    }
  }

  /** Which stories arrive does not depend on the order the fetches finish:
      two completion orders of the same ids deliver the same multiset. */
  lemma {:induction false} DeliveredOrderIndependent(o1: seq<int>, o2: seq<int>, fetch: int -> Result<HnItem>)
    requires multiset(o1) == multiset(o2)
    ensures multiset(Delivered(o1, fetch)) == multiset(Delivered(o2, fetch))
    decreases |o1|
  {
    if o1 != [] {
      assert o1[0] in multiset(o2);
      var j :| 0 <= j < |o2| && o2[j] == o1[0];
      RemoveFromBoth(o1, o2, j);
      DeliveredOrderIndependent(o1[1..], o2[..j] + o2[j + 1..], fetch);
      DeliveredSplitAt(o2, j, fetch);
      DeliveredSplitAt(o1, 0, fetch);
      assert o1[..0] + o1[1..] == o1[1..];
    } else {
      assert o2 == [];
    }
  }

  /** What the Hacker News collector sends is the same whatever order its
      per-id fetches finish in, up to that order; each story it sends is the
      story of a changed id whose fetch succeeded, and every such story is sent. */
  lemma HnStoriesContents(changes: Result<seq<int>>, fetch: int -> Result<HnItem>, o1: seq<int>, o2: seq<int>, s: Story)
    requires changes.Ok? ==> multiset(o1) == multiset(changes.value)
    requires changes.Ok? ==> multiset(o2) == multiset(changes.value)
    ensures multiset(HnStories(changes, fetch, o1)) == multiset(HnStories(changes, fetch, o2))
    ensures s in HnStories(changes, fetch, o1) <==>
      changes.Ok? && exists id :: id in changes.value && fetch(id).Ok? && FromHnItem(fetch(id).value) == s
  {
    if changes.Ok? {
      DeliveredOrderIndependent(o1, o2, fetch);
      DeliveredMembers(o1, fetch, s);
      var ids := changes.value;
      forall id | id in ids ensures id in o1 {
        assert id in multiset(ids);
      }
      forall id | id in o1 ensures id in ids {
        assert id in multiset(o1);
      }
      if exists id :: id in ids && fetch(id).Ok? && FromHnItem(fetch(id).value) == s {
        var id :| id in ids && fetch(id).Ok? && FromHnItem(fetch(id).value) == s;
        var k :| 0 <= k < |o1| && o1[k] == id;
      }
    }
  }

  /** The stories a Reddit listing normalises to: one per submission, in
      listing order; a failed listing normalises to none. */
  function RedditListing(listing: Result<seq<Submission>>): (r: seq<Story>)
    ensures listing.Err? ==> r == []
    ensures listing.Ok? ==> |r| == |listing.value|
    ensures listing.Ok? ==> forall i :: 0 <= i < |r| ==> r[i] == FromSubmission(listing.value[i])
  {
    match listing
    case Err(_) => []
    case Ok(subs) => seq(|subs|, i requires 0 <= i < |subs| => FromSubmission(subs[i]))
  }

  /** The Reddit collector: one listing call; on success one story per
      submission, in listing order; on failure nothing. Returns the stories
      in the order they are sent to the collector's channel. */
  method RedditStories(listing: Result<seq<Submission>>) returns (sent: seq<Story>)
    ensures sent == RedditListing(listing)
    ensures forall s :: s in sent ==> s.source == SourceReddit
  {
    sent := [];
    if listing.Err? {
      return;
    }
    var submissions := listing.value;
    var i := 0;
    while i < |submissions|
      invariant 0 <= i <= |submissions|
      invariant |sent| == i
      invariant forall k :: 0 <= k < i ==> sent[k] == FromSubmission(submissions[k])
    {
      sent := sent + [FromSubmission(submissions[i])];
      i := i + 1;
    }
  }
}
