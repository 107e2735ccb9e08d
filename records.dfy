/**
 * The plain objects the client code hands around: tickers and filings as the
 * service layer returns them and as the watchlist store holds them.
 */
module Records {
  import opened Wrappers

  /**
   * `{id, symbol, name}`. The bundled ticker table of the store has no `id`
   * (only `symbol` and `name`), so `id` is optional.
   */
  datatype Ticker = Ticker(id: Option<string>, symbol: string, name: string)

  /** `{id, ticker, type, date, title, summary, url}`; `formType` is the source's `type`. */
  datatype Filing = Filing(
    id: string,
    ticker: string,
    formType: string,
    date: string,
    title: string,
    summary: string,
    url: string)

  /**
   * A filing as returned for several tickers at once: the filing's fields plus
   * the symbol and name of its expanded ticker, `None` where `expand?.ticker?`
   * yields `undefined`.
   */
  datatype TickerFiling = TickerFiling(
    id: string,
    ticker: string,
    tickerSymbol: Option<string>,
    tickerName: Option<string>,
    formType: string,
    date: string,
    title: string,
    summary: string,
    url: string)
}
