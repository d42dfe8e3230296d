/** The fan-in loop of one refresh cycle: it receives from the Hacker News
    and the Reddit channel and forwards every story to the writer until both
    channels have been seen closed. Which channel `select` serves next is
    not modelled as a choice: the loop is driven by the trace of what each
    receive gave. */
module FanIn {
  import opened Stories

  /** The two collector channels. */
  datatype Feed = Hn | Reddit

  /** One outcome of the `select`: a story received on a feed's channel, or
      the observation that the channel is closed. */
  datatype Event = Received(from: Feed, story: Story) | Closed(from: Feed)

  /** The stories received on `f` in the trace, in trace order. */
  function ValuesFrom(trace: seq<Event>, f: Feed): (r: seq<Story>)
    ensures |r| <= |trace|
  {
    if trace == [] then []
    else
      var last := trace[|trace| - 1];
      ValuesFrom(trace[..|trace| - 1], f) + (if last.Received? && last.from == f then [last.story] else [])
  }

  /** Every story received in the trace, whichever feed it came on, in trace order. */
  function Values(trace: seq<Event>): (r: seq<Story>)
    ensures |r| <= |trace|
  {
    if trace == [] then []
    else
      var last := trace[|trace| - 1];
      Values(trace[..|trace| - 1]) + (if last.Received? then [last.story] else [])
  }

  /** The trace shows feed `f`'s channel closed. */
  predicate ClosedIn(trace: seq<Event>, f: Feed)
  {
    trace != [] && (trace[|trace| - 1] == Closed(f) || ClosedIn(trace[..|trace| - 1], f))
  }

  /** A channel yields no story once it has been seen closed. */
  predicate WellFormed(trace: seq<Event>)
  {
    forall i, j :: 0 <= i < j < |trace| && trace[i].Closed? && trace[j].Received? ==> trace[j].from != trace[i].from
  }

  /** `out` merges `a` and `b`: each keeps its own order in it and nothing else is in it. */
  predicate IsInterleaving(out: seq<Story>, a: seq<Story>, b: seq<Story>)
    decreases |out|
  {
    if out == [] then a == [] && b == []
    else
      var last := out[|out| - 1];
      (a != [] && a[|a| - 1] == last && IsInterleaving(out[..|out| - 1], a[..|a| - 1], b)) ||
      (b != [] && b[|b| - 1] == last && IsInterleaving(out[..|out| - 1], a, b[..|b| - 1]))
  }

  /** The loop of manageStories: while either channel is open, take the next
      outcome; a received story is forwarded, a closed channel clears its
      flag. The loop also stops when the trace runs out (the real loop would
      block in `select`). Returns the forwarded stories, the number of
      outcomes taken, and whether both channels were seen closed. */
  method ManageStories(trace: seq<Event>) returns (forwarded: seq<Story>, consumed: nat, drained: bool)
    ensures consumed <= |trace|
    ensures forwarded == Values(trace[..consumed])
    ensures drained <==> ClosedIn(trace[..consumed], Hn) && ClosedIn(trace[..consumed], Reddit)
    ensures !drained ==> consumed == |trace|
    ensures drained ==> consumed > 0 && !(ClosedIn(trace[..consumed - 1], Hn) && ClosedIn(trace[..consumed - 1], Reddit))
  {
    var hnOpen, redditOpen := true, true;
    forwarded, consumed := [], 0;
    while (hnOpen || redditOpen) && consumed < |trace|
      invariant consumed <= |trace|
      invariant hnOpen <==> !ClosedIn(trace[..consumed], Hn)
      invariant redditOpen <==> !ClosedIn(trace[..consumed], Reddit)
      invariant forwarded == Values(trace[..consumed])
      invariant consumed > 0 ==> !(ClosedIn(trace[..consumed - 1], Hn) && ClosedIn(trace[..consumed - 1], Reddit))
      decreases |trace| - consumed
    {
      assert trace[..consumed + 1][..consumed] == trace[..consumed];
      match trace[consumed] {
        case Received(_, story) =>
          forwarded := forwarded + [story];
        case Closed(Hn) =>
          hnOpen := false;
        case Closed(Reddit) =>
          redditOpen := false;
      }
      consumed := consumed + 1;
    }
    drained := !hnOpen && !redditOpen;
  }

  /** What is forwarded is a merge of the two feeds' streams: each feed's
      stories keep their order. */
  lemma {:induction false} ValuesInterleave(trace: seq<Event>)
    ensures IsInterleaving(Values(trace), ValuesFrom(trace, Hn), ValuesFrom(trace, Reddit))
  {
    if trace != [] {
      var init := trace[..|trace| - 1];
      ValuesInterleave(init);
      var out := Values(trace);
      var last := trace[|trace| - 1];
      if last.Received? {
        assert out[..|out| - 1] == Values(init);
        if last.from == Hn {
          var a := ValuesFrom(trace, Hn);
          assert a[..|a| - 1] == ValuesFrom(init, Hn) && a[|a| - 1] == last.story;
          assert ValuesFrom(trace, Reddit) == ValuesFrom(init, Reddit);
        } else {
          var b := ValuesFrom(trace, Reddit);
          assert b[..|b| - 1] == ValuesFrom(init, Reddit) && b[|b| - 1] == last.story;
          assert ValuesFrom(trace, Hn) == ValuesFrom(init, Hn);
        }
      } else {
        assert out == Values(init);
        assert ValuesFrom(trace, Hn) == ValuesFrom(init, Hn);
        assert ValuesFrom(trace, Reddit) == ValuesFrom(init, Reddit);
      }
    }
  }

  /** A merge has exactly as many stories as its two streams together. */
  lemma {:induction false} InterleavingLength(out: seq<Story>, a: seq<Story>, b: seq<Story>)
    requires IsInterleaving(out, a, b)
    ensures |out| == |a| + |b|
    decreases |out|
  {
    if out != [] {
      var last := out[|out| - 1];
      if a != [] && a[|a| - 1] == last && IsInterleaving(out[..|out| - 1], a[..|a| - 1], b) {
        InterleavingLength(out[..|out| - 1], a[..|a| - 1], b);
      } else {
        InterleavingLength(out[..|out| - 1], a, b[..|b| - 1]);
      }
    }
  }

  /** A closed channel shows in the trace at some position. */
  lemma {:induction false} ClosedAt(trace: seq<Event>, f: Feed) returns (i: nat)
    requires ClosedIn(trace, f)
    ensures i < |trace| && trace[i] == Closed(f)
  {
    if trace[|trace| - 1] == Closed(f) {
      i := |trace| - 1;
    } else {
      i := ClosedAt(trace[..|trace| - 1], f);
    }
  }

  /** Outcomes with no received story add nothing to what is forwarded. */
  lemma {:induction false} NothingAfter(trace: seq<Event>, k: nat, f: Feed)
    requires k <= |trace|
    requires forall j :: k <= j < |trace| ==> !trace[j].Received?
    ensures Values(trace) == Values(trace[..k])
    ensures ValuesFrom(trace, f) == ValuesFrom(trace[..k], f)
    decreases |trace| - k
  {
    if k < |trace| {
      var init := trace[..|trace| - 1];
      NothingAfter(init, k, f);
      assert init[..k] == trace[..k];
    } else {
      assert trace[..k] == trace;
    }
  }

  /** Once both channels have been seen closed, nothing is lost: the stories
      forwarded up to that point are all the stories of the whole trace, and
      all of each feed's stories. */
  lemma DrainedPrefixHasAll(trace: seq<Event>, k: nat)
    requires WellFormed(trace) && k <= |trace|
    requires ClosedIn(trace[..k], Hn) && ClosedIn(trace[..k], Reddit)
    ensures Values(trace[..k]) == Values(trace)
    ensures ValuesFrom(trace[..k], Hn) == ValuesFrom(trace, Hn)
    ensures ValuesFrom(trace[..k], Reddit) == ValuesFrom(trace, Reddit)
  {
    var ih := ClosedAt(trace[..k], Hn);
    var ir := ClosedAt(trace[..k], Reddit);
    assert trace[ih] == Closed(Hn) && trace[ir] == Closed(Reddit);
    forall j | k <= j < |trace| ensures !trace[j].Received? {
    }
    NothingAfter(trace, k, Hn);
    NothingAfter(trace, k, Reddit);
  }

  /** A drained cycle forwards exactly the two feeds' streams, merged, and
      as many stories as the two together. */
  lemma DrainedCycleForwardsAll(trace: seq<Event>, k: nat)
    requires WellFormed(trace) && k <= |trace|
    requires ClosedIn(trace[..k], Hn) && ClosedIn(trace[..k], Reddit)
    ensures IsInterleaving(Values(trace[..k]), ValuesFrom(trace, Hn), ValuesFrom(trace, Reddit))
    ensures |Values(trace[..k])| == |ValuesFrom(trace, Hn)| + |ValuesFrom(trace, Reddit)|
  {
    DrainedPrefixHasAll(trace, k);
    ValuesInterleave(trace);
    InterleavingLength(Values(trace), ValuesFrom(trace, Hn), ValuesFrom(trace, Reddit));
  }
}
