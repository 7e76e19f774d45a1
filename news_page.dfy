/**
 * The news page (src/components/news-page.tsx): a fixed list of four articles,
 * filtered by a search term that must occur, ignoring case, in the title or the
 * summary, and by a category button that is either "All" or must equal the
 * article's category exactly.
 */
module NewsPage {
  import opened Seqs
  import opened Text

  datatype Article = Article(
    id: int, title: string, summary: string, source: string, time: string,
    category: string, impact: string, relatedSymbols: seq<string>)

  const NewsData: seq<Article> := [
    Article(1, "Apple Reports Record Q4 Earnings, Beats Expectations",
      "Apple Inc. reported quarterly earnings that exceeded analyst expectations, driven by strong iPhone sales and services revenue growth.",
      "MarketWatch", "2 hours ago", "Earnings", "positive", ["AAPL"]),
    Article(2, "Federal Reserve Signals Potential Rate Cut in Next Meeting",
      "Fed officials hint at monetary policy adjustments amid changing economic conditions and inflation targets.",
      "Reuters", "4 hours ago", "Economic Policy", "positive", ["SPY", "QQQ"]),
    Article(3, "Tesla Stock Drops on Production Concerns",
      "Tesla shares decline following reports of potential production delays at the Austin facility.",
      "Bloomberg", "6 hours ago", "Corporate", "negative", ["TSLA"]),
    Article(4, "Microsoft Azure Revenue Surges 30% Year-over-Year",
      "Cloud computing division continues to drive growth for Microsoft, outpacing competitors in enterprise market.",
      "TechCrunch", "8 hours ago", "Technology", "positive", ["MSFT"])
  ]

  /** The category buttons. */
  const Categories: seq<string> := ["All", "Earnings", "Economic Policy", "Corporate", "Technology", "Market Analysis"]

  /**
   * `matchesSearch && matchesCategory`: whether an article is shown depends
   * only on its title, summary and category; a category other than "All"
   * admits only its own articles, and the empty term leaves the choice to the
   * category alone.
   */
  function Selects(term: string, category: string): (p: Article -> bool)
    ensures forall a :: p(a) && category != "All" ==> a.category == category
    ensures term == "" ==> forall a :: p(a) <==> category == "All" || a.category == category
  {
    assert forall s :: Includes(s, ToLower("")) by {
      forall s ensures Includes(s, ToLower("")) {
        IncludesEmpty(s);
      }
    }
    (a: Article) =>
      && (Includes(ToLower(a.title), ToLower(term)) || Includes(ToLower(a.summary), ToLower(term)))
      && (category == "All" || a.category == category)
  }

  /** `filteredNews`. */
  function FilterNews(articles: seq<Article>, term: string, category: string): (r: seq<Article>)
    ensures forall a :: a in r <==>
      && a in articles
      && (Includes(ToLower(a.title), ToLower(term)) || Includes(ToLower(a.summary), ToLower(term)))
      && (category == "All" || a.category == category)
    ensures forall a :: multiset(r)[a] == if Selects(term, category)(a) then multiset(articles)[a] else 0
    ensures IsSubseq(r, articles)
  {
    FilterMultiset(articles, Selects(term, category));
    FilterIsSubseq(articles, Selects(term, category));
    Filter(articles, Selects(term, category))
  }

  /** With an empty search box and "All" selected every article is shown. */
  lemma ShowsAllByDefault(articles: seq<Article>)
    ensures FilterNews(articles, "", "All") == articles
  {
    forall i | 0 <= i < |articles| ensures Selects("", "All")(articles[i]) {
      IncludesEmpty(ToLower(articles[i].title));
    }
    FilterKeepsAll(articles, Selects("", "All"));
  }

  /** "Market Analysis" is offered as a category but no article has it, so it shows nothing. */
  lemma MarketAnalysisShowsNothing(term: string)
    ensures "Market Analysis" in Categories
    ensures FilterNews(NewsData, term, "Market Analysis") == []
  {
    assert Categories[5] == "Market Analysis";
    FilterKeepsNone(NewsData, Selects(term, "Market Analysis"));
  }

  /**
   * Whether an article is shown does not depend on its source, its related
   * symbols or any field other than its title, summary and category.
   */
  lemma SelectionIgnoresOtherFields(a: Article, b: Article, term: string, category: string)
    requires a.title == b.title && a.summary == b.summary && a.category == b.category
    ensures Selects(term, category)(a) == Selects(term, category)(b)
  {
  }
}
