# Stock-trading dashboard front end: list-state model

This project models, in Dafny, the state logic of a React trading dashboard:
the stock catalog context, the portfolio context with its optimistic buys and
sells, the watchlist page's editing and search, and the search/category filters
of the news and markets pages. Everything else in the application is view code
over static mock arrays.

Modules (one per source file, plus three helpers):

- `Wrappers`: `Option`, standing for a JavaScript `undefined` result.
- `Seqs`: `Array.prototype.filter` as `Filter`, a reference `Count`, the
  order-preserving subsequence relation `IsSubseq`, and the lemmas that every
  page's filter relies on (membership, multiplicities, order, idempotence,
  congruence, keep-all, keep-none, and that these properties determine the
  result).
- `Text`: `toLowerCase`/`toUpperCase` on ASCII letters, `includes`, `trim` with
  JavaScript's white-space and line-terminator set, and the shared
  "symbol or name contains the term, ignoring case" test.
- `StockContext` (src/contexts/stockContext.tsx): the `Stock` record, the seed
  catalog and the `StockStore` class holding the catalog list.
- `PortfolioContext` (src/contexts/portfolioContext.tsx): the `Portfolio` class
  holding the entry list and a ghost log of the buy/sell requests it issues.
- `WatchlistPage` (src/pages/Watchlist.tsx): the `Watchlist` class holding the
  list and the two text boxes, and the filter/partition functions.
- `NewsPage`, `MarketsPage` (src/components/news-page.tsx,
  src/components/markets-page.tsx): the pure filters.

In the two contexts and on the watchlist page, state that the source keeps
with `useState` and updates through setters is a class field reassigned by a
method with a `modifies` clause. The news and markets pages' search term and
selected category are also `useState` values, but they only feed the page's
filter, so they are parameters of `FilterNews` and `FilterStocks`. Expressions
the source recomputes on each render are functions.

Buys and sells look the ticker up with `stocks?.getStock(ticker)`, where
`stocks` is the stock context's value. That value has no `getStock` member
(src/contexts/stockContext.tsx:34-38), and `?.` only guards an undefined
`stocks`, so under the provider nesting of src/contexts/ContextProvider.tsx:8-9
every buy and sell throws a `TypeError` before it changes anything or sends a
request. The model makes this explicit: each portfolio operation takes a
`StockSource`, which is either no stock provider (the lookup yields undefined
and the ticker is "not found"), the stock provider as written (the lookup
throws, reported as `threw`), or a provider that does supply a `getStock`,
whose answers are a parameter `string -> Option<Stock>`. For that last case
nothing further is assumed about the answers: in particular the found stock's
symbol need not equal the ticker. Removal therefore drops the entries carrying
the *found stock's* symbol, while the sell request carries the ticker, exactly
as the code does.

What the portfolio code does: a buy appends a new entry (duplicates
accumulate), a sell drops every entry of the symbol whatever quantity was asked
for, `getStockAmount` counts entries rather than summing quantities (the
trading panel shows that number as "Available: N Shares"), and nothing is
undone when a request fails.

## Model

| member | source | states |
|---|---|---|
| `StockContext.SeedCatalogDistinct` | src/contexts/stockContext.tsx:15-24 | the seed catalog has 8 entries and no symbol appears twice |
| `StockContext.StockStore.constructor` | src/contexts/stockContext.tsx:15-24 | the catalog starts as the seed list |
| `StockContext.StockStore.AddToStocks` | src/contexts/stockContext.tsx:26-28 | the stock is appended at the end, earlier entries unchanged, and the count of its symbol grows by one even when already listed |
| `StockContext.AddingListedStockDuplicates` | src/contexts/stockContext.tsx:26-28 | appending AAPL to the seed lists AAPL twice: no de-duplication |
| `StockContext.StockStore.RemoveFromStocks` | src/contexts/stockContext.tsx:30-32 | the new list is `WithoutSymbol` of the old one for the given stock's symbol, and no entry has that symbol afterwards |
| `StockContext.WithoutSymbol` | src/contexts/stockContext.tsx:30-32 | an entry is in the result iff it is in the input with another symbol; each such entry keeps its multiplicity, entries with the symbol have none; the result is an order-preserving subsequence of the input; only the symbol is compared |
| `StockContext.WithoutSymbolDetermined` | src/contexts/stockContext.tsx:30-32 | the properties above determine the result: any order-preserving subsequence keeping exactly the other-symbol entries with their multiplicities equals it |
| `Seqs.Filter` | src/components/markets-page.tsx:29-33 | `Array.prototype.filter`: an element is in the result iff it is in the input and satisfies the predicate; the result is no longer than the input (multiplicities and order: `FilterMultiset`, `FilterIsSubseq`) |
| `Seqs.FilterUnique` | src/components/markets-page.tsx:29 | for any predicate, `filter`'s result is the only order-preserving subsequence that keeps exactly the satisfying elements with their multiplicities |
| `StockContext.WithoutAbsentSymbol` | src/contexts/stockContext.tsx:30-32 | removing a symbol no entry has returns the list unchanged |
| `StockContext.WithoutSymbolCountsNone` | src/contexts/stockContext.tsx:30-32 | after removal the symbol's count is 0 |
| `PortfolioContext.Portfolio.constructor` | src/contexts/portfolioContext.tsx:22 | the portfolio starts empty, with no request issued |
| `PortfolioContext.Portfolio.Refresh` | src/contexts/portfolioContext.tsx:29-42 | no data leaves the list unchanged; data replaces the list wholesale by the snapshot's entries, discarding optimistic entries; no request is issued |
| `PortfolioContext.ToEntries` | src/contexts/portfolioContext.tsx:33-38 | the refreshed list has one entry per snapshot item, in order, carrying the item's symbol, name, price and change and no quantity |
| `PortfolioContext.SnapshotEntries` | src/contexts/portfolioContext.tsx:33-38 | a snapshot without a portfolio list yields the empty list; otherwise one entry per item |
| `PortfolioContext.LookUp` | src/contexts/portfolioContext.tsx:45 | `stocks?.getStock(ticker)` throws exactly when the stock context's value lacks `getStock` (as src/contexts/stockContext.tsx:34-38 does); it finds a stock exactly when a supplied `getStock` returns one, and then that stock |
| `PortfolioContext.Bought` | src/contexts/portfolioContext.tsx:50 | the appended entry is the looked-up stock with every field kept and the bought quantity set |
| `PortfolioContext.Portfolio.AddToPortfolio` | src/contexts/portfolioContext.tsx:44-57 | it throws exactly when the lookup throws; a lookup that throws or finds nothing changes nothing and issues nothing; a found one appends exactly one entry at the end, leaves earlier entries untouched, raises the symbol's entry count by one and logs one buy request with the ticker and quantity |
| `PortfolioContext.Portfolio.RemoveFromPortfolio` | src/contexts/portfolioContext.tsx:59-72 | it throws exactly when the lookup throws; a lookup that throws or finds nothing changes nothing and issues nothing; a found one drops every entry with the found stock's symbol regardless of quantity, keeps the rest in order, leaves that symbol's amount at 0 and logs one sell request with the ticker and quantity |
| `PortfolioContext.Portfolio.GetStocks` | src/contexts/portfolioContext.tsx:74-76 | an entry is returned iff it is in the portfolio with the ticker as symbol; the result keeps list order and has as many elements as the portfolio has entries for the ticker |
| `PortfolioContext.Portfolio.GetStockAmount` | src/contexts/portfolioContext.tsx:78-80 | the amount is the number of entries with the ticker as symbol, and is 0 exactly when no entry has it |
| `PortfolioContext.AmountCountsEntries` | src/contexts/portfolioContext.tsx:78-80 | two AAPL entries of 10 and 5 shares give an amount of 2, not 15 |
| `PortfolioContext.Portfolio.ProceedBuyOrder` | src/contexts/portfolioContext.tsx:82-85 | the same effect, including the throw, as a buy of the order's symbol and quantity; price and order type play no part |
| `PortfolioContext.Portfolio.ProceedSellOrder` | src/contexts/portfolioContext.tsx:87-90 | the same effect, including the throw, as a sell of the order's symbol and quantity; price and order type play no part |
| `PortfolioContext.BuyBuySellScenario` | src/contexts/portfolioContext.tsx:44-80 | with a supplied `getStock` resolving the ticker to a stock of that symbol, two buys and then a sell of one share leave an amount of 0, and the requests issued are buy 10, buy 5, sell 1, in that order |
| `PortfolioContext.BuyWithProvidersAsWritten` | src/contexts/portfolioContext.tsx:44-57 | with the stock provider as written, a buy throws, adds no entry and sends no request |
| `WatchlistPage.Watchlist.constructor` | src/pages/Watchlist.tsx:72-74 | the page starts with the six mock entries and two empty text boxes |
| `WatchlistPage.Watchlist.SetSearchTerm` | src/pages/Watchlist.tsx:123 | typing in the search box sets the term and nothing else |
| `WatchlistPage.Watchlist.SetNewSymbol` | src/pages/Watchlist.tsx:140 | typing in the add box sets the input and nothing else |
| `WatchlistPage.Watchlist.ToggleStar` | src/pages/Watchlist.tsx:76-78 | the list becomes `ToggleStarred` of the old list; the text boxes are unchanged |
| `WatchlistPage.ToggleStarred` | src/pages/Watchlist.tsx:76-78 | length is preserved; `starred` flips exactly on the entries with the symbol; every other field and every other entry is unchanged |
| `WatchlistPage.ToggleStarredTwice` | src/pages/Watchlist.tsx:76-78 | toggling the same symbol twice restores the original list |
| `WatchlistPage.Watchlist.RemoveFromWatchlist` | src/pages/Watchlist.tsx:80-82 | the list becomes `WithoutSymbol` of the old list, and no entry has the symbol afterwards |
| `WatchlistPage.WithoutSymbol` | src/pages/Watchlist.tsx:80-82 | an entry is kept iff its symbol differs, with its multiplicity, in original order |
| `Text.Trim` | src/pages/Watchlist.tsx:85 | `trim` yields the empty string exactly when the input is all white space (JavaScript's white-space and line-terminator set); a non-empty result neither starts nor ends with white space |
| `WatchlistPage.Watchlist.AddToWatchlist` | src/pages/Watchlist.tsx:84-99 | blank input changes nothing; other input appends one placeholder entry built from the untrimmed input and clears the box; the search term is unchanged |
| `WatchlistPage.NewEntry` | src/pages/Watchlist.tsx:87-95 | the symbol is the input upper-cased (same length, no lower-case letter, same letters ignoring case); the name is the symbol followed by " Corp."; price 100, change 0, change percent 0, volume "0", not starred |
| `WatchlistPage.NewEntryFoundByInput` | src/pages/Watchlist.tsx:87-105 | searching for exactly what was typed finds the entry that was added |
| `WatchlistPage.FilterWatchlist` | src/pages/Watchlist.tsx:101-105 | an entry is shown iff the lower-cased term occurs in its lower-cased symbol or name; each shown entry keeps its multiplicity; order is preserved |
| `WatchlistPage.EmptyTermKeepsWatchlist` | src/pages/Watchlist.tsx:101-105 | the empty term shows the whole list |
| `WatchlistPage.StarredStocks` | src/pages/Watchlist.tsx:107 | exactly the starred entries, each with its multiplicity, in order |
| `WatchlistPage.OtherStocks` | src/pages/Watchlist.tsx:108 | exactly the entries not starred, each with its multiplicity, in order |
| `WatchlistPage.StarredOtherPartition` | src/pages/Watchlist.tsx:107-108 | starred and other stocks split the filtered list: each entry lands on exactly one side chosen by `starred`, multiplicities add up, lengths add up, each side keeps list order |
| `NewsPage.FilterNews` | src/components/news-page.tsx:66-72 | an article is shown iff the lower-cased term occurs in its lower-cased title or summary and the category is "All" or equals its category; each shown article keeps its multiplicity; the result is an order-preserving subsequence |
| `NewsPage.Selects` | src/components/news-page.tsx:66-71 | a category other than "All" admits only its own articles; with the empty term the category alone decides |
| `NewsPage.ShowsAllByDefault` | src/components/news-page.tsx:61-72 | empty term with "All" shows every article, in order |
| `NewsPage.MarketAnalysisShowsNothing` | src/components/news-page.tsx:64-72 | "Market Analysis" is a category button, and selecting it shows no article whatever the term |
| `NewsPage.SelectionIgnoresOtherFields` | src/components/news-page.tsx:67-70 | source, related symbols and the other fields are never consulted: two articles with equal title, summary and category are shown or hidden alike |
| `MarketsPage.FilterStocks` | src/components/markets-page.tsx:29-33 | a row is shown iff the lower-cased term occurs in its lower-cased symbol or name; each shown row keeps its multiplicity; the result is an order-preserving subsequence |
| `MarketsPage.EmptyTermShowsAll` | src/components/markets-page.tsx:8-15 | the empty term shows all six rows |
| `MarketsPage.FilterStocksIdempotent` | src/components/markets-page.tsx:29-33 | filtering the result again with the same term returns it unchanged |
| `MarketsPage.FilterStocksIgnoresCase` | src/components/markets-page.tsx:31-32 | terms equal after lower-casing show the same rows |
| `MarketsPage.UpperCasedTermShowsSameRows` | src/components/markets-page.tsx:31-32 | a term and its upper-cased form show the same rows |
| `Text.ToLower` | src/components/markets-page.tsx:31-32 | `toLowerCase` keeps the length; at each position an ASCII upper-case letter becomes its lower-case form (code point + 32) and every other character is kept; no upper-case letter remains |
| `Text.ToUpper` | src/pages/Watchlist.tsx:88-89 | `toUpperCase` keeps the length; at each position an ASCII lower-case letter becomes its upper-case form (code point - 32) and every other character is kept; no lower-case letter remains |
| `Text.LowerOfUpper` | src/pages/Watchlist.tsx:88-104 | lower-casing an upper-cased string gives the lower-cased original, so an added symbol is searched as typed |
| `Text.Includes` | src/components/markets-page.tsx:31-32 | `includes` never finds a string longer than the one searched |
| `Text.IncludesEmpty` | src/components/markets-page.tsx:31-32 | every string includes the empty string |
| `Text.IncludesItself` | src/pages/Watchlist.tsx:103 | every string includes itself |
| `Text.EmptyTermMatches` | src/pages/Watchlist.tsx:101-105 | the empty search term matches every symbol and name |
| `Text.SymbolMatchesAnyCase` | src/pages/Watchlist.tsx:101-105 | a term equal to the symbol up to letter case matches it |

## Left out

- HTTP: the buy and sell calls are recorded as `Request` values in a ghost log; their responses, failures and any refetch they trigger are not modelled. The portfolio query's result is the `Refresh` parameter.
- `getStock`: the stock context as written does not supply it, and the resulting `TypeError` is modelled only as the `threw` result of the portfolio operations. The trading panel itself calls `stocks?.getStock(symbol)` while rendering (src/components/trading-panel.tsx:24), so under the same provider nesting it throws before its order handlers can run; rendering and the panel are not modelled. For a provider that does supply one, its answers are a parameter and no property of them is assumed.
- Server snapshot items are assumed to carry symbol, name, price and change; a field missing from an item (which the source would copy as `undefined`) is not modelled.
- Quantities, prices and changes are carried `real` values and never computed on; `Number(...)` parsing in the trading panel, `NaN` and floating point are not modelled.
- Case mapping covers ASCII letters only; the full Unicode `toLowerCase`/`toUpperCase` is not modelled. `trim` uses JavaScript's exact white-space set.
- React scheduling: each state setter is applied at once. All list updates use the functional `prev => ...` form, so batching would compose them in the same order.
- Logging to the console, rendering, price alerts, sectors, market alerts and the category buttons' styling.
- The login check the trading panel makes before placing an order, authentication, routing, the TradingView chart and the derived gain/loss and cost figures are outside this model.
- Weighted-average cost, validation of quantities, holdings or cash, rollback on failure and a per-symbol in-flight lock: the source implements none of them.
