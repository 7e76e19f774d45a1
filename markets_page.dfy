/**
 * The markets page (src/components/markets-page.tsx): a fixed list of six
 * quotes, filtered by a search term that must occur, ignoring case, in the
 * symbol or the name.
 */
module MarketsPage {
  import opened Seqs
  import opened Text

  datatype MarketRow = MarketRow(
    symbol: string, name: string, price: real, change: real,
    changePercent: real, volume: string)

  const MarketData: seq<MarketRow> := [
    MarketRow("AAPL", "Apple Inc.", 175.43, 2.34, 1.35, "52.3M"),
    MarketRow("GOOGL", "Alphabet Inc.", 2847.52, -15.23, -0.53, "28.1M"),
    MarketRow("MSFT", "Microsoft Corp.", 378.91, 4.67, 1.25, "31.7M"),
    MarketRow("TSLA", "Tesla Inc.", 248.73, -8.45, -3.28, "89.2M"),
    MarketRow("AMZN", "Amazon.com Inc.", 3342.88, 12.45, 0.37, "45.6M"),
    MarketRow("NVDA", "NVIDIA Corp.", 875.28, 23.67, 2.78, "67.4M")
  ]

  function MatchesTerm(term: string): MarketRow -> bool
  {
    (m: MarketRow) => SearchMatches(m.symbol, m.name, term)
  }

  /** `filteredStocks`: the rows whose symbol or name contains the term, ignoring case, in order. */
  function FilterStocks(rows: seq<MarketRow>, term: string): (r: seq<MarketRow>)
    ensures forall m :: m in r <==>
      m in rows && (Includes(ToLower(m.symbol), ToLower(term)) || Includes(ToLower(m.name), ToLower(term)))
    ensures forall m :: multiset(r)[m] == if SearchMatches(m.symbol, m.name, term) then multiset(rows)[m] else 0
    ensures IsSubseq(r, rows)
  {
    FilterMultiset(rows, MatchesTerm(term));
    FilterIsSubseq(rows, MatchesTerm(term));
    Filter(rows, MatchesTerm(term))
  }

  /** With an empty search box all six rows are shown. */
  lemma EmptyTermShowsAll()
    ensures FilterStocks(MarketData, "") == MarketData
    ensures |FilterStocks(MarketData, "")| == 6
  {
    forall i | 0 <= i < |MarketData| ensures MatchesTerm("")(MarketData[i]) {
      EmptyTermMatches(MarketData[i].symbol, MarketData[i].name);
    }
    FilterKeepsAll(MarketData, MatchesTerm(""));
  }

  /** Filtering the shown rows again with the same term shows the same rows. */
  lemma FilterStocksIdempotent(rows: seq<MarketRow>, term: string)
    ensures FilterStocks(FilterStocks(rows, term), term) == FilterStocks(rows, term)
  {
    FilterIdempotent(rows, MatchesTerm(term));
  }

  /** Terms that differ only in the case of their letters show the same rows. */
  lemma FilterStocksIgnoresCase(rows: seq<MarketRow>, term: string, other: string)
    requires ToLower(term) == ToLower(other)
    ensures FilterStocks(rows, term) == FilterStocks(rows, other)
  {
    FilterCongruent(rows, MatchesTerm(term), MatchesTerm(other));
  }

  /** In particular a term and its upper-cased form show the same rows. */
  lemma UpperCasedTermShowsSameRows(rows: seq<MarketRow>, term: string)
    ensures FilterStocks(rows, ToUpper(term)) == FilterStocks(rows, term)
  {
    LowerOfUpper(term);
    FilterStocksIgnoresCase(rows, ToUpper(term), term);
  }
}
