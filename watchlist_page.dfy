/**
 * The watchlist page (src/pages/Watchlist.tsx): a list of watched stocks that
 * the user stars, unstars, removes and adds to, a search box that filters the
 * list case-insensitively, and the split of the filtered list into starred and
 * other stocks.
 */
module WatchlistPage {
  import opened Seqs
  import opened Text

  datatype WatchItem = WatchItem(
    symbol: string, name: string, price: real, change: real,
    changePercent: real, volume: string, starred: bool)

  /** The list the page starts with. */
  const WatchlistData: seq<WatchItem> := [
    WatchItem("AAPL", "Apple Inc.", 175.43, 2.34, 1.35, "52.3M", true),
    WatchItem("GOOGL", "Alphabet Inc.", 2847.52, -15.23, -0.53, "28.1M", true),
    WatchItem("MSFT", "Microsoft Corp.", 378.91, 4.67, 1.25, "31.7M", false),
    WatchItem("TSLA", "Tesla Inc.", 248.73, -8.45, -3.28, "89.2M", true),
    WatchItem("AMZN", "Amazon.com Inc.", 3342.88, 12.45, 0.37, "45.6M", false),
    WatchItem("NVDA", "NVIDIA Corp.", 875.28, 23.67, 2.78, "67.4M", true)
  ]

  /**
   * `prev.map((item) => item.symbol === symbol ? { ...item, starred: !item.starred } : item)`:
   * `starred` flips on the entries with the symbol, and no other field and no
   * other entry changes.
   */
  function ToggleStarred(items: seq<WatchItem>, symbol: string): (r: seq<WatchItem>)
    ensures |r| == |items|
    ensures forall i :: 0 <= i < |r| ==>
      && r[i].symbol == items[i].symbol && r[i].name == items[i].name
      && r[i].price == items[i].price && r[i].change == items[i].change
      && r[i].changePercent == items[i].changePercent && r[i].volume == items[i].volume
      && r[i].starred == (if items[i].symbol == symbol then !items[i].starred else items[i].starred)
  {
    if items == [] then []
    else
      var item := items[0];
      var rest := ToggleStarred(items[1..], symbol);
      var head := if item.symbol == symbol then item.(starred := !item.starred) else item;
      assert forall i :: 1 <= i < |items| ==> ([head] + rest)[i] == rest[i - 1];
      [head] + rest
  }

  /** Toggling the same symbol twice restores the list. */
  lemma {:induction false} ToggleStarredTwice(items: seq<WatchItem>, symbol: string)
    ensures ToggleStarred(ToggleStarred(items, symbol), symbol) == items
  {
    if items != [] {
      ToggleStarredTwice(items[1..], symbol);
      assert items == [items[0]] + items[1..];
    }
  }

  function SymbolIsNot(symbol: string): WatchItem -> bool
  {
    (w: WatchItem) => w.symbol != symbol
  }

  /** `prev.filter((item) => item.symbol !== symbol)`. */
  function WithoutSymbol(items: seq<WatchItem>, symbol: string): (r: seq<WatchItem>)
    ensures forall w :: w in r <==> w in items && w.symbol != symbol
    ensures forall w :: multiset(r)[w] == if w.symbol != symbol then multiset(items)[w] else 0
    ensures IsSubseq(r, items)
  {
    FilterMultiset(items, SymbolIsNot(symbol));
    FilterIsSubseq(items, SymbolIsNot(symbol));
    Filter(items, SymbolIsNot(symbol))
  }

  /** The placeholder entry added for a typed symbol. */
  function NewEntry(input: string): (w: WatchItem)
    ensures |w.symbol| == |input| && ToLower(w.symbol) == ToLower(input)
    ensures forall i :: 0 <= i < |w.symbol| ==> !IsAsciiLower(w.symbol[i])
    ensures w.name == w.symbol + " Corp."
    ensures w.price == 100.0 && w.change == 0.0 && w.changePercent == 0.0
    ensures w.volume == "0" && !w.starred
  {
    LowerOfUpper(input);
    var symbol := ToUpper(input);
    WatchItem(symbol, symbol + " Corp.", 100.0, 0.0, 0.0, "0", false)
  }

  /** The entry added for a typed symbol is found by searching for what was typed. */
  lemma NewEntryFoundByInput(input: string)
    ensures SearchMatches(NewEntry(input).symbol, NewEntry(input).name, input)
  {
    SymbolMatchesAnyCase(NewEntry(input).symbol, NewEntry(input).name, input);
  }

  function MatchesTerm(term: string): WatchItem -> bool
  {
    (w: WatchItem) => SearchMatches(w.symbol, w.name, term)
  }

  /** `filteredWatchlist`: the entries whose symbol or name contains the term, ignoring case, in order. */
  function FilterWatchlist(items: seq<WatchItem>, term: string): (r: seq<WatchItem>)
    ensures forall w :: w in r <==> w in items && SearchMatches(w.symbol, w.name, term)
    ensures forall w :: multiset(r)[w] == if SearchMatches(w.symbol, w.name, term) then multiset(items)[w] else 0
    ensures IsSubseq(r, items)
  {
    FilterMultiset(items, MatchesTerm(term));
    FilterIsSubseq(items, MatchesTerm(term));
    Filter(items, MatchesTerm(term))
  }

  /** The empty search term shows the whole list. */
  lemma EmptyTermKeepsWatchlist(items: seq<WatchItem>)
    ensures FilterWatchlist(items, "") == items
  {
    forall i | 0 <= i < |items| ensures MatchesTerm("")(items[i]) {
      EmptyTermMatches(items[i].symbol, items[i].name);
    }
    FilterKeepsAll(items, MatchesTerm(""));
  }

  function IsStarred(): WatchItem -> bool
  {
    (w: WatchItem) => w.starred
  }

  function IsNotStarred(): WatchItem -> bool
  {
    (w: WatchItem) => !w.starred
  }

  /** `starredStocks`: the starred entries, each with its multiplicity, in order. */
  function StarredStocks(filtered: seq<WatchItem>): (r: seq<WatchItem>)
    ensures forall w :: w in r <==> w in filtered && w.starred
    ensures forall w :: multiset(r)[w] == if w.starred then multiset(filtered)[w] else 0
    ensures IsSubseq(r, filtered)
  {
    FilterMultiset(filtered, IsStarred());
    FilterIsSubseq(filtered, IsStarred());
    Filter(filtered, IsStarred())
  }

  /** `otherStocks`: the entries not starred, each with its multiplicity, in order. */
  function OtherStocks(filtered: seq<WatchItem>): (r: seq<WatchItem>)
    ensures forall w :: w in r <==> w in filtered && !w.starred
    ensures forall w :: multiset(r)[w] == if !w.starred then multiset(filtered)[w] else 0
    ensures IsSubseq(r, filtered)
  {
    FilterMultiset(filtered, IsNotStarred());
    FilterIsSubseq(filtered, IsNotStarred());
    Filter(filtered, IsNotStarred())
  }

  /**
   * The starred and other stocks split the filtered list: each entry goes to
   * exactly one side, chosen by `starred`, with its multiplicity, and each
   * side keeps the list's order.
   */
  lemma StarredOtherPartition(filtered: seq<WatchItem>)
    ensures forall w :: w in StarredStocks(filtered) <==> w in filtered && w.starred
    ensures forall w :: w in OtherStocks(filtered) <==> w in filtered && !w.starred
    ensures multiset(StarredStocks(filtered)) + multiset(OtherStocks(filtered)) == multiset(filtered)
    ensures |StarredStocks(filtered)| + |OtherStocks(filtered)| == |filtered|
    ensures IsSubseq(StarredStocks(filtered), filtered) && IsSubseq(OtherStocks(filtered), filtered)
  {
    var starred, others := StarredStocks(filtered), OtherStocks(filtered);
    assert multiset(starred) + multiset(others) == multiset(filtered) by {
      forall w ensures (multiset(starred) + multiset(others))[w] == multiset(filtered)[w] {
        if w.starred {
          assert multiset(starred)[w] == multiset(filtered)[w];
          assert multiset(others)[w] == 0;
        } else {
          assert multiset(starred)[w] == 0;
          assert multiset(others)[w] == multiset(filtered)[w];
        }
      }
    }
    calc {
      |starred| + |others|;
      |multiset(starred)| + |multiset(others)|;
      |multiset(starred) + multiset(others)|;
      |multiset(filtered)|;
      |filtered|;
    }
  }

  /** The page's state: the list, the search box and the add-symbol box. */
  class Watchlist {
    var watchlist: seq<WatchItem>
    var searchTerm: string
    var newSymbol: string

    constructor ()
      ensures watchlist == WatchlistData && searchTerm == "" && newSymbol == ""
    {
      watchlist := WatchlistData;
      searchTerm := "";
      newSymbol := "";
    }

    /** Typing into the search box. */
    method SetSearchTerm(term: string)
      modifies this
      ensures searchTerm == term
      ensures watchlist == old(watchlist) && newSymbol == old(newSymbol)
    {
      searchTerm := term;
    }

    /** Typing into the add-symbol box. */
    method SetNewSymbol(input: string)
      modifies this
      ensures newSymbol == input
      ensures watchlist == old(watchlist) && searchTerm == old(searchTerm)
    {
      newSymbol := input;
    }

    /** `toggleStar`. */
    method ToggleStar(symbol: string)
      modifies this
      ensures watchlist == ToggleStarred(old(watchlist), symbol)
      ensures searchTerm == old(searchTerm) && newSymbol == old(newSymbol)
    {
      watchlist := ToggleStarred(watchlist, symbol);
    }

    /** `removeFromWatchlist`: every entry with the symbol goes, the rest stay in order. */
    method RemoveFromWatchlist(symbol: string)
      modifies this
      ensures watchlist == WithoutSymbol(old(watchlist), symbol)
      ensures forall i :: 0 <= i < |watchlist| ==> watchlist[i].symbol != symbol
      ensures searchTerm == old(searchTerm) && newSymbol == old(newSymbol)
    {
      watchlist := WithoutSymbol(watchlist, symbol);
      assert forall i :: 0 <= i < |watchlist| ==> watchlist[i] in watchlist;
    }

    /**
     * `addToWatchlist`: blank input (empty after `trim`) changes nothing;
     * otherwise the placeholder entry for the untrimmed input is appended and
     * the box is cleared.
     */
    method AddToWatchlist()
      modifies this
      ensures IsBlank(old(newSymbol)) ==> watchlist == old(watchlist) && newSymbol == old(newSymbol)
      ensures !IsBlank(old(newSymbol)) ==> watchlist == old(watchlist) + [NewEntry(old(newSymbol))] && newSymbol == ""
      ensures searchTerm == old(searchTerm)
    {
      if Trim(newSymbol) != "" {
        watchlist := watchlist + [NewEntry(newSymbol)];
        newSymbol := "";
      }
    }
  }
}
