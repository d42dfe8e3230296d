/** The story record every feed is normalised into, and its source tags. */
module Stories {

  /** The tag of stories that came from Hacker News. */
  const SourceHackerNews: string := "HackerNews"

  /** The tag of stories that came from Reddit. */
  const SourceReddit: string := "Reddit"

  /** One normalised feed item. Fields may be empty: nothing validates them. */
  datatype Story = Story(title: string, author: string, url: string, source: string)

  /** A story carries one of the registered source tags. */
  predicate Registered(s: Story)
  {
    s.source == SourceHackerNews || s.source == SourceReddit
  }

  /** The two tags differ, so a registered story names exactly one source. */
  lemma OneSource(s: Story)
    requires Registered(s)
    ensures (s.source == SourceHackerNews) != (s.source == SourceReddit)
  {
    assert SourceHackerNews[0] != SourceReddit[0];
  }
}
