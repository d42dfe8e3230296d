/** Worked examples of the search over a small store. */
module QueryScenarios {
  import opened Text
  import opened Stories
  import opened Query

  const GoPatterns := Story("Go concurrency patterns", "", "", SourceHackerNews)
  const LearningRust := Story("Learning Rust", "", "", SourceReddit)
  const GoVsRust := Story("Go vs Rust", "", "", SourceHackerNews)

  lemma ScenarioTitles()
    ensures Upper(GoPatterns.title) == "GO CONCURRENCY PATTERNS"
    ensures Upper(LearningRust.title) == "LEARNING RUST"
    ensures Upper(GoVsRust.title) == "GO VS RUST"
  {
  }

  lemma FoundSingle(a: Story, query: string)
    ensures Found([a], query) == if Matches(a, query) then [a] else []
  {
  }

  lemma FoundOfThree(a: Story, b: Story, c: Story, query: string)
    ensures Found([a, b, c], query) ==
            (if Matches(a, query) then [a] else []) +
            (if Matches(b, query) then [b] else []) +
            (if Matches(c, query) then [c] else [])
  {
    assert [a, b, c] == [a] + [b] + [c];
    FoundAppend([a] + [b], [c], query);
    FoundAppend([a], [b], query);
    FoundSingle(a, query);
    FoundSingle(b, query);
    FoundSingle(c, query);
  }

  lemma GoMatchesFirst()
    ensures Matches(GoPatterns, "go")
  {
    ScenarioTitles();
    assert Upper("go") == "GO";
    ContainedAsPrefix("GO CONCURRENCY PATTERNS", "GO");
  }

  lemma GoMissesSecond()
    ensures !Matches(LearningRust, "go")
  {
    ScenarioTitles();
    assert Upper("go") == "GO";
    NotContainedWithoutFirstPair("LEARNING RUST", "GO");
  }

  lemma GoMatchesThird()
    ensures Matches(GoVsRust, "go")
  {
    ScenarioTitles();
    assert Upper("go") == "GO";
    ContainedAsPrefix("GO VS RUST", "GO");
  }

  lemma PythonMissesFirst()
    ensures !Matches(GoPatterns, "python")
  {
    ScenarioTitles();
    assert Upper("python") == "PYTHON";
    NotContainedWithoutFirstPair("GO CONCURRENCY PATTERNS", "PYTHON");
  }

  lemma PythonMissesSecond()
    ensures !Matches(LearningRust, "python")
  {
    ScenarioTitles();
    assert Upper("python") == "PYTHON";
    NotContainedWithoutFirstPair("LEARNING RUST", "PYTHON");
  }

  lemma PythonMissesThird()
    ensures !Matches(GoVsRust, "python")
  {
    ScenarioTitles();
    assert Upper("python") == "PYTHON";
    NotContainedWithoutFirstPair("GO VS RUST", "PYTHON");
  }

  /** Searching a three-story store: "go" finds the first and third story,
      in store order, and "python" finds nothing. */
  lemma SearchScenario()
    ensures Found([GoPatterns, LearningRust, GoVsRust], "go") == [GoPatterns, GoVsRust]
    ensures Found([GoPatterns, LearningRust, GoVsRust], "python") == []
  {
    FoundOfThree(GoPatterns, LearningRust, GoVsRust, "go");
    FoundOfThree(GoPatterns, LearningRust, GoVsRust, "python");
    GoMatchesFirst();
    GoMissesSecond();
    GoMatchesThird();
    PythonMissesFirst();
    PythonMissesSecond();
    PythonMissesThird();
  }

  const RustInProduction := Story("Rust in Production", "", "", SourceReddit)

  lemma RustMatches()
    ensures Matches(RustInProduction, "rust")
  {
    assert Upper("rust") == "RUST";
    assert Upper(RustInProduction.title) == "RUST IN PRODUCTION";
    ContainedAsPrefix("RUST IN PRODUCTION", "RUST");
  }

  /** A title is found whatever the case of the query. */
  lemma CaseScenario()
    ensures Found([RustInProduction], "rust") == [RustInProduction]
    ensures Found([RustInProduction], "RUST") == [RustInProduction]
    ensures Found([RustInProduction], "Rust") == [RustInProduction]
  {
    RustMatches();
    FoundSingle(RustInProduction, "rust");
    assert Upper("rust") == "RUST" && Upper("RUST") == "RUST" && Upper("Rust") == "RUST";
    FoundCaseInsensitive([RustInProduction], "rust", "RUST");
    FoundCaseInsensitive([RustInProduction], "rust", "Rust");
  }
}
