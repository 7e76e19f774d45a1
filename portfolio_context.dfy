/**
 * The portfolio context (src/contexts/portfolioContext.tsx): the list of the
 * user's portfolio entries, replaced wholesale by each server snapshot and
 * updated optimistically by buys and sells, each of which also issues a buy or
 * sell request to the server.
 *
 * Buys and sells look the ticker up with `stocks?.getStock(ticker)`, where
 * `stocks` is the stock context's value. That value has no `getStock` member
 * (src/contexts/stockContext.tsx:34-38), so under the provider nesting of
 * src/contexts/ContextProvider.tsx:8-9 the call throws a `TypeError`; outside
 * a stock provider `stocks` is undefined and the lookup yields undefined. Both
 * cases are modelled, together with a hypothetical provider that does supply a
 * `getStock`, whose answers are a parameter. The HTTP requests are recorded in
 * a ghost log instead of being sent.
 */
module PortfolioContext {
  import opened Wrappers
  import opened Seqs
  import opened StockContext

  /** A request body sent to the buy or sell endpoint: `{ quantity, stock_symbol }`. */
  datatype Request = Buy(stockSymbol: string, quantity: real) | Sell(stockSymbol: string, quantity: real)

  /** One item of the server's portfolio snapshot. */
  datatype ServerItem = ServerItem(symbol: string, name: string, price: real, change: real, quantity: real)

  /** The server's response; its `portfolio` list may be absent. */
  datatype Snapshot = Snapshot(portfolio: Option<seq<ServerItem>>)

  /** The order the trading panel passes on. */
  datatype Order = Order(symbol: string, quantity: real, price: real, orderType: string)

  /** What `useStocks()` hands the portfolio provider, as far as `getStock` is concerned. */
  datatype StockSource =
    | NoStockProvider                               // `stocks` is undefined
    | WithoutGetStock                               // the stock provider as written
    | WithGetStock(getStock: string -> Option<Stock>) // a provider that supplies `getStock`

  /** The outcome of `stocks?.getStock(ticker)`. */
  datatype LookupResult = Found(stock: Stock) | NotFound | Throws

  /**
   * `?.` only short-circuits on an undefined `stocks`; calling a missing
   * `getStock` on a defined `stocks` throws.
   */
  function LookUp(source: StockSource, ticker: string): (l: LookupResult)
    ensures l.Throws? <==> source.WithoutGetStock?
    ensures l.Found? <==> source.WithGetStock? && source.getStock(ticker) != None
    ensures l.Found? ==> source.WithGetStock? && source.getStock(ticker) == Some(l.stock)
  {
    match source
    case NoStockProvider => NotFound
    case WithoutGetStock => Throws
    case WithGetStock(getStock) =>
      match getStock(ticker)
      case None => NotFound
      case Some(stock) => Found(stock)
  }

  /** The mapping applied to one server item: four fields are copied, the quantity is not. */
  function ToEntry(item: ServerItem): Stock
  {
    Stock(item.symbol, item.name, item.price, item.change, None)
  }

  /**
   * The snapshot's entries stand one for one, in order, for its items, and
   * carry each item's symbol, name, price and change but no quantity.
   */
  function ToEntries(items: seq<ServerItem>): (r: seq<Stock>)
    ensures |r| == |items|
    ensures forall i :: 0 <= i < |r| ==>
      && r[i].symbol == items[i].symbol && r[i].name == items[i].name
      && r[i].price == items[i].price && r[i].change == items[i].change
      && r[i].quantity == None
  {
    if items == [] then []
    else
      var rest := ToEntries(items[1..]);
      assert forall i :: 1 <= i < |items| ==> ([ToEntry(items[0])] + rest)[i] == rest[i - 1];
      [ToEntry(items[0])] + rest
  }

  /** `(data.portfolio ?? []).map(...)`: a snapshot without a portfolio list yields no entries. */
  function SnapshotEntries(data: Snapshot): (r: seq<Stock>)
    ensures data.portfolio == None ==> r == []
    ensures data.portfolio != None ==> |r| == |data.portfolio.value|
  {
    match data.portfolio
    case None => []
    case Some(items) => ToEntries(items)
  }

  /** The entry a buy appends: the looked-up stock with the bought quantity. */
  function Bought(stock: Stock, quantity: real): (e: Stock)
    ensures e.symbol == stock.symbol && e.name == stock.name
    ensures e.price == stock.price && e.change == stock.change
    ensures e.quantity == Some(quantity)
  {
    stock.(quantity := Some(quantity))
  }

  /** The portfolio state held by the provider, and the requests it has issued. */
  class Portfolio {
    var portfolio: seq<Stock>
    ghost var requests: seq<Request>

    constructor ()
      ensures portfolio == [] && requests == []
    {
      portfolio := [];
      requests := [];
    }

    /**
     * The effect run when the query data changes: no data leaves the list as
     * it is; otherwise the list is replaced by the snapshot's entries,
     * whatever it held, optimistic entries included.
     */
    method Refresh(data: Option<Snapshot>)
      modifies this
      ensures data == None ==> portfolio == old(portfolio)
      ensures data != None ==> portfolio == SnapshotEntries(data.value)
      ensures requests == old(requests)
    {
      if data != None {
        portfolio := SnapshotEntries(data.value);
      }
    }

    /**
     * `addToPortfolio`: a lookup that throws or finds nothing changes nothing
     * and sends nothing; otherwise one entry is appended and one buy request
     * is issued. `threw` reports the `TypeError` propagating to the caller.
     */
    method AddToPortfolio(source: StockSource, ticker: string, quantity: real) returns (threw: bool)
      modifies this
      ensures threw <==> LookUp(source, ticker).Throws?
      ensures !LookUp(source, ticker).Found? ==> portfolio == old(portfolio) && requests == old(requests)
      ensures LookUp(source, ticker).Found? ==>
        && portfolio == old(portfolio) + [Bought(LookUp(source, ticker).stock, quantity)]
        && requests == old(requests) + [Buy(ticker, quantity)]
      ensures LookUp(source, ticker).Found? ==>
        var symbol := LookUp(source, ticker).stock.symbol;
        Count(portfolio, SymbolIs(symbol)) == Count(old(portfolio), SymbolIs(symbol)) + 1
    {
      match LookUp(source, ticker)
      case Throws =>
        threw := true;
      case NotFound =>
        threw := false;
      case Found(stock) =>
        var entry := Bought(stock, quantity);
        CountAppend(portfolio, entry, SymbolIs(stock.symbol));
        portfolio := portfolio + [entry];
        requests := requests + [Buy(ticker, quantity)];
        threw := false;
    }

    /**
     * `removeFromPortfolio`: a lookup that throws or finds nothing changes
     * nothing and sends nothing; otherwise every entry with the looked-up
     * stock's symbol is dropped, whatever quantity was asked for, and one sell
     * request is issued.
     */
    method RemoveFromPortfolio(source: StockSource, ticker: string, quantity: real) returns (threw: bool)
      modifies this
      ensures threw <==> LookUp(source, ticker).Throws?
      ensures !LookUp(source, ticker).Found? ==> portfolio == old(portfolio) && requests == old(requests)
      ensures LookUp(source, ticker).Found? ==>
        && portfolio == WithoutSymbol(old(portfolio), LookUp(source, ticker).stock.symbol)
        && requests == old(requests) + [Sell(ticker, quantity)]
      ensures LookUp(source, ticker).Found? ==> GetStockAmount(LookUp(source, ticker).stock.symbol) == 0
    {
      match LookUp(source, ticker)
      case Throws =>
        threw := true;
      case NotFound =>
        threw := false;
      case Found(stock) =>
        WithoutSymbolCountsNone(portfolio, stock.symbol);
        portfolio := WithoutSymbol(portfolio, stock.symbol);
        requests := requests + [Sell(ticker, quantity)];
        threw := false;
    }

    /** `getStocks`: the entries with the ticker as symbol, in list order. */
    function GetStocks(ticker: string): (r: seq<Stock>)
      reads this
      ensures forall s :: s in r <==> s in portfolio && s.symbol == ticker
      ensures IsSubseq(r, portfolio)
      ensures |r| == Count(portfolio, SymbolIs(ticker))
    {
      FilterIsSubseq(portfolio, SymbolIs(ticker));
      FilterLength(portfolio, SymbolIs(ticker));
      Filter(portfolio, SymbolIs(ticker))
    }

    /** `getStockAmount`: how many entries the ticker has, not how many shares they hold. */
    function GetStockAmount(ticker: string): (n: nat)
      reads this
      ensures n == Count(portfolio, SymbolIs(ticker))
      ensures n == 0 <==> forall i :: 0 <= i < |portfolio| ==> portfolio[i].symbol != ticker
    {
      CountZero(portfolio, SymbolIs(ticker));
      |GetStocks(ticker)|
    }


    /** `proceedBuyOrder`: a buy of the order's symbol and quantity; price and order type are ignored. */
    method ProceedBuyOrder(source: StockSource, order: Order) returns (threw: bool)
      modifies this
      ensures threw <==> LookUp(source, order.symbol).Throws?
      ensures !LookUp(source, order.symbol).Found? ==> portfolio == old(portfolio) && requests == old(requests)
      ensures LookUp(source, order.symbol).Found? ==>
        && portfolio == old(portfolio) + [Bought(LookUp(source, order.symbol).stock, order.quantity)]
        && requests == old(requests) + [Buy(order.symbol, order.quantity)]
    {
      threw := AddToPortfolio(source, order.symbol, order.quantity);
    }

    /** `proceedSellOrder`: a sell of the order's symbol and quantity; price and order type are ignored. */
    method ProceedSellOrder(source: StockSource, order: Order) returns (threw: bool)
      modifies this
      ensures threw <==> LookUp(source, order.symbol).Throws?
      ensures !LookUp(source, order.symbol).Found? ==> portfolio == old(portfolio) && requests == old(requests)
      ensures LookUp(source, order.symbol).Found? ==>
        && portfolio == WithoutSymbol(old(portfolio), LookUp(source, order.symbol).stock.symbol)
        && requests == old(requests) + [Sell(order.symbol, order.quantity)]
    {
      threw := RemoveFromPortfolio(source, order.symbol, order.quantity);
    }
  }

  /**
   * Counting entries is not summing quantities: two buys of AAPL, of 10 and
   * of 5 shares, leave an amount of 2.
   */
  lemma AmountCountsEntries(apple: Stock)
    requires apple.symbol == "AAPL"
    ensures Count([Bought(apple, 10.0), Bought(apple, 5.0)], SymbolIs("AAPL")) == 2
  {
    var entries := [Bought(apple, 10.0), Bought(apple, 5.0)];
    assert entries[1..] == [Bought(apple, 5.0)] && entries[1..][1..] == [];
    assert Count(entries[1..], SymbolIs("AAPL")) == 1;
  }

  /**
   * What the trading panel could rely on if the stock provider supplied a
   * `getStock` resolving the ticker to a stock of that symbol: after two buys
   * a sell of a single share leaves no entry of the ticker at all, and the
   * three requests have been issued in order.
   */
  method BuyBuySellScenario(source: StockSource, ticker: string) returns (amount: nat, ghost log: seq<Request>)
    requires source.WithGetStock? && source.getStock(ticker) != None
    requires source.getStock(ticker).value.symbol == ticker
    ensures amount == 0
    ensures log == [Buy(ticker, 10.0), Buy(ticker, 5.0), Sell(ticker, 1.0)]
  {
    var p := new Portfolio();
    var _ := p.AddToPortfolio(source, ticker, 10.0);
    var _ := p.AddToPortfolio(source, ticker, 5.0);
    assert p.GetStockAmount(ticker) == 2;
    var _ := p.RemoveFromPortfolio(source, ticker, 1.0);
    log := p.requests;
    amount := p.GetStockAmount(ticker);
  }

  /**
   * With the providers as written, a buy from a fresh portfolio throws: no
   * entry is added and no request is sent.
   */
  method BuyWithProvidersAsWritten(ticker: string, quantity: real) returns (threw: bool, amount: nat, ghost log: seq<Request>)
    ensures threw && amount == 0 && log == []
  {
    var p := new Portfolio();
    threw := p.AddToPortfolio(WithoutGetStock, ticker, quantity);
    log := p.requests;
    amount := p.GetStockAmount(ticker);
  }
}
