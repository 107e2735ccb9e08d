/**
 * The watchlist store of src/lib/stores/tickerStore.js: one state value that
 * `addTicker`, `removeTicker` and `reset` replace. The transitions are pure
 * functions of the old state; the `TickerStore` class holds the current value.
 */
module TickerStore {
  import opened Wrappers
  import opened Records

  /** `{selectedTickers, availableTickers, filings, isLoading, error}`; `filings` is keyed by symbol. */
  datatype StoreState = StoreState(
    selectedTickers: seq<Ticker>,
    availableTickers: seq<Ticker>,
    filings: map<string, seq<Filing>>,
    isLoading: bool,
    error: Option<string>)

  /** The bundled ticker table (symbol and name only, no id). */
  const BundledTickers: seq<Ticker> := [
    Ticker(None, "AAPL", "Apple Inc."),
    Ticker(None, "MSFT", "Microsoft Corporation"),
    Ticker(None, "GOOGL", "Alphabet Inc."),
    Ticker(None, "AMZN", "Amazon.com, Inc."),
    Ticker(None, "META", "Meta Platforms, Inc."),
    Ticker(None, "TSLA", "Tesla, Inc."),
    Ticker(None, "NVDA", "NVIDIA Corporation"),
    Ticker(None, "JPM", "JPMorgan Chase & Co."),
    Ticker(None, "V", "Visa Inc."),
    Ticker(None, "WMT", "Walmart Inc.")
  ]

  /** The bundled sample filings, keyed by ticker symbol. */
  const BundledFilings: map<string, seq<Filing>> := map[
    "AAPL" := [
      Filing("aapl-10k-2023", "AAPL", "10-K", "2023-10-27", "Annual Report",
        "Apple reported a record annual revenue of $394.3 billion with iPhone sales continuing to be the main revenue driver. Services segment showed strong growth, reaching $85.2 billion. The company faces challenges in China market but continues to innovate with new AI capabilities.",
        "#"),
      Filing("aapl-10q-2023q3", "AAPL", "10-Q", "2023-07-20", "Quarterly Report",
        "Apple reported a slight decline in quarterly revenue to $81.8 billion (-1.4% YoY). iPhone and Services segments performed well, while Mac and iPad sales decreased. The company announced a $90 billion share repurchase authorization.",
        "#")
    ],
    "MSFT" := [
      Filing("msft-10k-2023", "MSFT", "10-K", "2023-07-27", "Annual Report",
        "Microsoft achieved record revenue of $211.9 billion (+7% YoY), driven by cloud services growth. Azure revenue grew by 27%. The company continues to invest heavily in AI technology across its product portfolio and announced layoffs of approximately 10,000 employees.",
        "#"),
      Filing("msft-8k-2023", "MSFT", "8-K", "2023-01-18", "Current Report",
        "Microsoft announced a strategic partnership with OpenAI, investing $10 billion. The company plans to integrate ChatGPT technology across Microsoft products including Azure, Bing, and Microsoft 365.",
        "#")
    ],
    "GOOGL" := [
      Filing("googl-10q-2023q2", "GOOGL", "10-Q", "2023-07-25", "Quarterly Report",
        "Alphabet reported Q2 revenue of $74.6 billion (+7% YoY). Google Search remains the main revenue driver. YouTube ad revenue recovered after previous declines. Google Cloud achieved profitability for the first time with $8 billion in revenue.",
        "#")
    ],
    "TSLA" := [
      Filing("tsla-10q-2023q3", "TSLA", "10-Q", "2023-10-18", "Quarterly Report",
        "Tesla reported Q3 revenue of $23.4 billion (-1% YoY) with automotive revenue down 3%. Delivered 435,059 vehicles with reduced average selling prices. Energy generation and storage business grew 40% YoY. The company continues to invest in AI and robotics.",
        "#")
    ],
    "AMZN" := [
      Filing("amzn-10q-2023q3", "AMZN", "10-Q", "2023-10-26", "Quarterly Report",
        "Amazon reported Q3 revenue of $143.1 billion (+13% YoY). AWS revenue grew 12% YoY to $23.1 billion. Advertising services showed strong growth at $12.1 billion. The company continues to reduce workforce and optimize operations for greater efficiency.",
        "#")
    ]
  ]

  /** `initialState`: nothing selected, the bundled tables, not loading, no error. */
  function InitialState(): (s: StoreState)
    ensures s.selectedTickers == [] && !s.isLoading && s.error == None
    ensures s.availableTickers == BundledTickers && s.filings == BundledFilings
  {
    StoreState([], BundledTickers, BundledFilings, false, None)
  }

  /** `tickers.some(t => t.symbol === symbol)`. */
  predicate HasSymbol(tickers: seq<Ticker>, symbol: string)
  {
    exists i :: 0 <= i < |tickers| && tickers[i].symbol == symbol
  }

  /** No two entries share a symbol. */
  ghost predicate UniqueSymbols(tickers: seq<Ticker>)
  {
    forall i, j :: 0 <= i < j < |tickers| ==> tickers[i].symbol != tickers[j].symbol
  }

  /** The two states agree on everything but `selectedTickers`. */
  ghost predicate SameApartFromSelection(s: StoreState, s': StoreState)
  {
    && s'.availableTickers == s.availableTickers
    && s'.filings == s.filings
    && s'.isLoading == s.isLoading
    && s'.error == s.error
  }

  /** `tickers.filter(t => t.symbol !== symbol)`. */
  function WithoutSymbol(tickers: seq<Ticker>, symbol: string): (r: seq<Ticker>)
    ensures |r| <= |tickers|
    ensures !HasSymbol(r, symbol)
    ensures forall t :: t in r <==> t in tickers && t.symbol != symbol
    decreases |tickers|
  {
    if |tickers| == 0 then []
    else
      var rest := WithoutSymbol(tickers[1..], symbol);
      if tickers[0].symbol == symbol then rest else [tickers[0]] + rest
  }

  /** The update of `addTicker`. */
  function AddTickerUpdate(s: StoreState, ticker: Ticker): (s': StoreState)
    ensures SameApartFromSelection(s, s')
    ensures HasSymbol(s.selectedTickers, ticker.symbol) ==> s' == s
    ensures !HasSymbol(s.selectedTickers, ticker.symbol) ==>
      && |s'.selectedTickers| == |s.selectedTickers| + 1
      && s'.selectedTickers[..|s.selectedTickers|] == s.selectedTickers
      && s'.selectedTickers[|s.selectedTickers|] == ticker
    ensures HasSymbol(s'.selectedTickers, ticker.symbol)
    ensures UniqueSymbols(s.selectedTickers) ==> UniqueSymbols(s'.selectedTickers)
  {
    if HasSymbol(s.selectedTickers, ticker.symbol) then s
    else
      var selected := s.selectedTickers + [ticker];
      assert selected[|s.selectedTickers|] == ticker;
      s.(selectedTickers := selected)
  }

  /** The update of `removeTicker`. */
  function RemoveTickerUpdate(s: StoreState, symbol: string): (s': StoreState)
    ensures SameApartFromSelection(s, s')
    ensures !HasSymbol(s'.selectedTickers, symbol)
    ensures forall t :: t in s'.selectedTickers <==> t in s.selectedTickers && t.symbol != symbol
  {
    s.(selectedTickers := WithoutSymbol(s.selectedTickers, symbol))
  }

  /** Filtering works piecewise, so it keeps the relative order of what it keeps. */
  lemma {:induction false} WithoutSymbolAppend(a: seq<Ticker>, b: seq<Ticker>, symbol: string)
    ensures WithoutSymbol(a + b, symbol) == WithoutSymbol(a, symbol) + WithoutSymbol(b, symbol)
    decreases |a|
  {
    if |a| == 0 {
      assert a + b == b;
    } else {
      assert (a + b)[1..] == a[1..] + b;
      WithoutSymbolAppend(a[1..], b, symbol);
    }
  }

  /** Removing a symbol nobody has changes nothing. */
  lemma {:induction false} WithoutAbsentSymbol(tickers: seq<Ticker>, symbol: string)
    requires !HasSymbol(tickers, symbol)
    ensures WithoutSymbol(tickers, symbol) == tickers
    decreases |tickers|
  {
    if |tickers| > 0 {
      assert !HasSymbol(tickers[1..], symbol) by {
        forall i | 0 <= i < |tickers[1..]| ensures tickers[1..][i].symbol != symbol {
          assert tickers[1..][i] == tickers[i + 1];
        }
      }
      WithoutAbsentSymbol(tickers[1..], symbol);
    }
  }

  /** Filtering keeps the entries' symbols distinct. */
  lemma {:induction false} WithoutSymbolKeepsUnique(tickers: seq<Ticker>, symbol: string)
    requires UniqueSymbols(tickers)
    ensures UniqueSymbols(WithoutSymbol(tickers, symbol))
    decreases |tickers|
  {
    if |tickers| > 0 {
      var rest := WithoutSymbol(tickers[1..], symbol);
      WithoutSymbolKeepsUnique(tickers[1..], symbol);
      if tickers[0].symbol != symbol {
        forall t | t in rest ensures t.symbol != tickers[0].symbol {
          var i :| 1 <= i < |tickers| && tickers[i] == t;
        }
        var r := [tickers[0]] + rest;
        forall i, j | 0 <= i < j < |r| ensures r[i].symbol != r[j].symbol {
          if i == 0 {
            assert r[j] in rest;
          } else {
            assert r[i] == rest[i - 1] && r[j] == rest[j - 1];
          }
        }
      }
    }
  }

  /** With distinct symbols, filtering out a selected symbol drops exactly one entry. */
  lemma {:induction false} WithoutPresentSymbol(tickers: seq<Ticker>, symbol: string)
    requires UniqueSymbols(tickers) && HasSymbol(tickers, symbol)
    ensures |WithoutSymbol(tickers, symbol)| == |tickers| - 1
    decreases |tickers|
  {
    var tail := tickers[1..];
    assert UniqueSymbols(tail) by {
      forall i, j | 0 <= i < j < |tail| ensures tail[i].symbol != tail[j].symbol {
        assert tail[i] == tickers[i + 1] && tail[j] == tickers[j + 1];
      }
    }
    if tickers[0].symbol == symbol {
      assert !HasSymbol(tail, symbol) by {
        forall i | 0 <= i < |tail| ensures tail[i].symbol != symbol {
          assert tail[i] == tickers[i + 1];
        }
      }
      WithoutAbsentSymbol(tail, symbol);
    } else {
      var k :| 0 <= k < |tickers| && tickers[k].symbol == symbol;
      assert tail[k - 1] == tickers[k];
      WithoutPresentSymbol(tail, symbol);
    }
  }

  /** `removeTicker` keeps the store's symbols distinct. */
  lemma RemoveTickerKeepsUnique(s: StoreState, symbol: string)
    requires UniqueSymbols(s.selectedTickers)
    ensures UniqueSymbols(RemoveTickerUpdate(s, symbol).selectedTickers)
  {
    WithoutSymbolKeepsUnique(s.selectedTickers, symbol);
  }

  /** `removeTicker` of a symbol that is not selected leaves the state as it was. */
  lemma RemoveAbsentTicker(s: StoreState, symbol: string)
    requires !HasSymbol(s.selectedTickers, symbol)
    ensures RemoveTickerUpdate(s, symbol) == s
  {
    WithoutAbsentSymbol(s.selectedTickers, symbol);
  }

  /** Adding the same ticker (or any ticker with its symbol) again changes nothing. */
  lemma AddTickerIdempotent(s: StoreState, ticker: Ticker, again: Ticker)
    requires again.symbol == ticker.symbol
    ensures AddTickerUpdate(AddTickerUpdate(s, ticker), again) == AddTickerUpdate(s, ticker)
  {
  }

  /** Adding a ticker whose symbol is new and then removing that symbol restores the state. */
  lemma AddThenRemove(s: StoreState, ticker: Ticker)
    requires !HasSymbol(s.selectedTickers, ticker.symbol)
    ensures RemoveTickerUpdate(AddTickerUpdate(s, ticker), ticker.symbol) == s
  {
    WithoutSymbolAppend(s.selectedTickers, [ticker], ticker.symbol);
    WithoutAbsentSymbol(s.selectedTickers, ticker.symbol);
    assert WithoutSymbol([ticker], ticker.symbol) == [];
  }

  /** Removing a symbol twice is the same as removing it once. */
  lemma RemoveTickerIdempotent(s: StoreState, symbol: string)
    ensures RemoveTickerUpdate(RemoveTickerUpdate(s, symbol), symbol) == RemoveTickerUpdate(s, symbol)
  {
    WithoutAbsentSymbol(WithoutSymbol(s.selectedTickers, symbol), symbol);
  }

  /** The store created by `createTickerStore`, holding the current state value. */
  class Store {
    var state: StoreState

    /** Distinct symbols: the state `addTicker` and `removeTicker` keep. */
    ghost predicate Valid()
      reads this
    {
      UniqueSymbols(state.selectedTickers)
    }

    constructor ()
      ensures Valid() && state == InitialState()
    {
      state := InitialState();
    }

    /** `addTicker(ticker)`: `update` with the add transition. */
    method AddTicker(ticker: Ticker)
      requires Valid()
      modifies this
      ensures Valid()
      ensures state == AddTickerUpdate(old(state), ticker)
    {
      state := AddTickerUpdate(state, ticker);
    }

    /** `removeTicker(symbol)`: `update` with the remove transition. */
    method RemoveTicker(symbol: string)
      requires Valid()
      modifies this
      ensures Valid()
      ensures state == RemoveTickerUpdate(old(state), symbol)
    {
      RemoveTickerKeepsUnique(state, symbol);
      state := RemoveTickerUpdate(state, symbol);
    }

    /** `reset()`: `set(initialState)`. */
    method Reset()
      modifies this
      ensures Valid() && state == InitialState()
    {
      state := InitialState();
    }
  }
}
