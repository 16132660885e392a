/** The recommended-articles section: an optional category filter, a limit
    on how many cards are shown, and a "View All" button when some are cut
    off. */
module ArticlesSection {
  import opened Lists

  /** An article as far as the section's logic goes; `readTime` is in
      minutes. */
  datatype Article = Article(id: string, category: string, readTime: int)

  const Articles: seq<Article> := [
      Article("1", "anxiety", 5),
      Article("2", "anxiety", 7),
      Article("3", "sad", 4),
      Article("4", "confident", 6),
      Article("5", "general", 5),
      Article("6", "anxiety", 3)
    ]

  /** The `limit` prop's default. */
  const DefaultLimit := 6

  function ArticleId(a: Article): string { a.id }
  function ArticleCategory(a: Article): string { a.category }

  /** `filteredArticles`: a missing or empty filter keeps every article; any
      other keeps exactly the articles of that category, in catalogue
      order. */
  function Filtered(filter: Option<string>): (r: seq<Article>)
    ensures filter.None? || filter.value == "" ==> r == Articles
    ensures filter.Some? && filter.value != "" ==>
              forall a :: a in r <==> a in Articles && a.category == filter.value
    ensures IsSubsequence(r, Articles)
  {
    if filter.Some? && filter.value != "" then
      KeepKeyMembers(Articles, ArticleCategory, filter.value);
      KeepKey(Articles, ArticleCategory, filter.value)
    else
      PrefixIsSubsequence(Articles, |Articles|);
      assert Articles[..|Articles|] == Articles;
      Articles
  }

  /** `displayArticles = filteredArticles.slice(0, limit)`: the first
      `limit` filtered articles. */
  function Displayed(filter: Option<string>, limit: int): (r: seq<Article>)
    ensures |r| <= |Filtered(filter)| && r == Filtered(filter)[..|r|]
    ensures 0 <= limit ==> |r| == Min(limit, |Filtered(filter)|)
    ensures limit < 0 ==> |r| == Max(|Filtered(filter)| + limit, 0)
  {
    Take(Filtered(filter), limit)
  }

  /** The "View All Articles" button: shown when more articles match than
      the limit. */
  function ShowViewAll(filter: Option<string>, limit: int): (b: bool)
    ensures b <==> |Filtered(filter)| > limit
  {
    |Filtered(filter)| > limit
  }

  /** For a non-negative limit, "View All" appears exactly when some
      matching article is not shown. */
  lemma ViewAllIffSomeHidden(filter: Option<string>, limit: int)
    requires 0 <= limit
    ensures ShowViewAll(filter, limit) <==> |Displayed(filter, limit)| < |Filtered(filter)|
  {
  }

  /** With the default limit and no filter, all six articles are shown and
      there is no "View All". */
  lemma DefaultShowsEverything()
    ensures Displayed(None, DefaultLimit) == Articles
    ensures !ShowViewAll(None, DefaultLimit)
  {
  }

  // The steps below unroll the "anxiety" filter one article at a time, from
  // the end of the list. Each takes the category as a parameter fixed by
  // `requires`, so the solver compares it as one value instead of expanding
  // the literal at every step.

  lemma AnxietyFromThree(c: string)
    requires c == "anxiety"
    ensures KeepKey(Articles[3..], ArticleCategory, c) == [Articles[5]]
  {
    assert Articles[6..] == [];
    KeepKeyStep(Articles, ArticleCategory, c, 5);
    KeepKeyStep(Articles, ArticleCategory, c, 4);
    KeepKeyStep(Articles, ArticleCategory, c, 3);
  }

  lemma AnxietyFromOne(c: string)
    requires c == "anxiety"
    ensures KeepKey(Articles[1..], ArticleCategory, c) == [Articles[1], Articles[5]]
  {
    AnxietyFromThree(c);
    KeepKeyStep(Articles, ArticleCategory, c, 2);
    KeepKeyStep(Articles, ArticleCategory, c, 1);
  }

  lemma AnxietyFromZero(c: string)
    requires c == "anxiety"
    ensures KeepKey(Articles[0..], ArticleCategory, c) == [Articles[0], Articles[1], Articles[5]]
  {
    AnxietyFromOne(c);
    KeepKeyStep(Articles, ArticleCategory, c, 0);
  }

  lemma AnxietyShown(c: string)
    requires c == "anxiety"
    ensures Filtered(Some(c)) == [Articles[0], Articles[1], Articles[5]]
  {
    AnxietyFromZero(c);
    assert Articles[0..] == Articles;
  }

  /** The anxiety filter keeps articles 1, 2 and 6. */
  lemma AnxietyArticles()
    ensures Keys(Filtered(Some("anxiety")), ArticleId) == ["1", "2", "6"]
  {
    AnxietyShown("anxiety");
    var ids := Keys([Articles[0], Articles[1], Articles[5]], ArticleId);
    assert ids[0] == "1" && ids[1] == "2" && ids[2] == "6";
  }
}
