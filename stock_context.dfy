/**
 * The stock catalog context (src/contexts/stockContext.tsx): a list of stock
 * records seeded with eight entries, to which the application appends and from
 * which it removes by symbol. The `Stock` record is shared with the portfolio
 * context.
 */
module StockContext {
  import opened Wrappers
  import opened Seqs

  /**
   * A stock record. Prices and changes are carried, never computed on here.
   * `quantity` is set only on the portfolio entries created by a buy.
   */
  datatype Stock = Stock(symbol: string, name: string, price: real, change: real, quantity: Option<real>)

  /** The test `s.symbol === symbol` as a predicate value. */
  function SymbolIs(symbol: string): Stock -> bool
  {
    (s: Stock) => s.symbol == symbol
  }

  /** The test `s.symbol !== symbol` as a predicate value. */
  function SymbolIsNot(symbol: string): Stock -> bool
  {
    (s: Stock) => s.symbol != symbol
  }

  function Quote(symbol: string, name: string, price: real, change: real): Stock
  {
    Stock(symbol, name, price, change, None)
  }

  /** The catalog the context starts with. */
  const SeedCatalog: seq<Stock> := [
    Quote("AAPL", "Apple Inc.", 175.43, 1.2),
    Quote("MSFT", "Microsoft Corp.", 378.85, 0.8),
    Quote("GOOGL", "Alphabet Inc.", 138.21, -0.3),
    Quote("TSLA", "Tesla Inc.", 248.50, 2.1),
    Quote("AMZN", "Amazon.com Inc.", 151.94, 0.5),
    Quote("NVDA", "NVIDIA Corp.", 875.28, 3.2),
    Quote("META", "Meta Platforms", 484.20, 1.8),
    Quote("NFLX", "Netflix Inc.", 487.55, -0.7)
  ]

  /** The seed has eight entries and no symbol twice. */
  lemma SeedCatalogDistinct()
    ensures |SeedCatalog| == 8
    ensures forall i, j :: 0 <= i < j < |SeedCatalog| ==> SeedCatalog[i].symbol != SeedCatalog[j].symbol
  {
  }

  /**
   * `stocks.filter((s) => s.symbol !== symbol)`: every entry with another
   * symbol stays, with its multiplicity and in its order; no entry with
   * `symbol` stays.
   */
  function WithoutSymbol(stocks: seq<Stock>, symbol: string): (r: seq<Stock>)
    ensures forall s :: s in r <==> s in stocks && s.symbol != symbol
    ensures forall s :: multiset(r)[s] == if s.symbol != symbol then multiset(stocks)[s] else 0
    ensures IsSubseq(r, stocks)
  {
    FilterMultiset(stocks, SymbolIsNot(symbol));
    FilterIsSubseq(stocks, SymbolIsNot(symbol));
    Filter(stocks, SymbolIsNot(symbol))
  }

  /**
   * The contract of `WithoutSymbol` leaves no freedom: any order-preserving
   * subsequence that keeps exactly the entries with another symbol, each with
   * its multiplicity, is the filter's result.
   */
  lemma WithoutSymbolDetermined(stocks: seq<Stock>, symbol: string, r: seq<Stock>)
    requires IsSubseq(r, stocks)
    requires forall s :: multiset(r)[s] == if s.symbol != symbol then multiset(stocks)[s] else 0
    ensures r == WithoutSymbol(stocks, symbol)
  {
    FilterUnique(stocks, SymbolIsNot(symbol), r);
  }

  /** Removing a symbol that no entry has changes nothing. */
  lemma WithoutAbsentSymbol(stocks: seq<Stock>, symbol: string)
    requires forall i :: 0 <= i < |stocks| ==> stocks[i].symbol != symbol
    ensures WithoutSymbol(stocks, symbol) == stocks
  {
    FilterKeepsAll(stocks, SymbolIsNot(symbol));
  }

  /** After removing a symbol, no entry of it is counted. */
  lemma WithoutSymbolCountsNone(stocks: seq<Stock>, symbol: string)
    ensures Count(WithoutSymbol(stocks, symbol), SymbolIs(symbol)) == 0
  {
    var r := WithoutSymbol(stocks, symbol);
    forall i | 0 <= i < |r| ensures !SymbolIs(symbol)(r[i]) {
      assert r[i] in r;
    }
    CountZero(r, SymbolIs(symbol));
  }

  /** The catalog state held by the stock context provider. */
  class StockStore {
    var stocks: seq<Stock>

    constructor ()
      ensures stocks == SeedCatalog
    {
      stocks := SeedCatalog;
    }

    /** `addToStocks`: appends without checking whether the symbol is already listed. */
    method AddToStocks(stock: Stock)
      modifies this
      ensures stocks == old(stocks) + [stock]
      ensures Count(stocks, SymbolIs(stock.symbol)) == Count(old(stocks), SymbolIs(stock.symbol)) + 1
    {
      CountAppend(stocks, stock, SymbolIs(stock.symbol));
      stocks := stocks + [stock];
    }

    /** `removeFromStocks`: drops every entry whose symbol is the given stock's, whatever its other fields. */
    method RemoveFromStocks(stock: Stock)
      modifies this
      ensures stocks == WithoutSymbol(old(stocks), stock.symbol)
      ensures forall i :: 0 <= i < |stocks| ==> stocks[i].symbol != stock.symbol
    {
      stocks := WithoutSymbol(stocks, stock.symbol);
      assert forall i :: 0 <= i < |stocks| ==> stocks[i] in stocks;
    }
  }

  /** Appending a listed stock again lists its symbol twice: there is no de-duplication. */
  lemma AddingListedStockDuplicates()
    ensures Count(SeedCatalog + [SeedCatalog[0]], SymbolIs("AAPL")) == 2
  {
    CountAppend(SeedCatalog, SeedCatalog[0], SymbolIs("AAPL"));
    assert Count(SeedCatalog, SymbolIs("AAPL")) == 1;
  }
}
