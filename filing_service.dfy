/**
 * `filingService` of src/lib/services/pocketbase.js: filings for one ticker,
 * and filings for several tickers through one OR-joined filter string.
 */
module FilingService {
  import opened Wrappers
  import opened Strings
  import opened Records
  import opened Backend

  const ClausePrefix: string := "ticker = \""
  const Or: string := " || "

  /** The clause `ticker = "<id>"`; the id is inserted verbatim, without escaping. */
  function Clause(id: string): (c: string)
    ensures ClausePrefix <= c && c[|c| - 1] == '"'
    ensures |c| == |ClausePrefix| + |id| + 1 && c[|ClausePrefix|..|c| - 1] == id
  {
    ClausePrefix + id + "\""
  }

  /** `tickerIds.map(id => clause)`. */
  function Clauses(ids: seq<string>): (cs: seq<string>)
    ensures |cs| == |ids|
    ensures forall i :: 0 <= i < |ids| ==> cs[i] == Clause(ids[i])
    decreases |ids|
  {
    if |ids| == 0 then [] else [Clause(ids[0])] + Clauses(ids[1..])
  }

  /** The filter of `getFilingsForTickers`: one clause per id, in order, joined by " || ". */
  function TickerFilter(ids: seq<string>): (f: string)
    ensures f == "" <==> |ids| == 0
    ensures |ids| > 0 ==> Clause(ids[0]) <= f
  {
    Join(Clauses(ids), Or)
  }

  /** Index of the first double quote in `s`. */
  function QuoteIndex(s: string): (r: Option<nat>)
    ensures r.None? ==> '"' !in s
    ensures r.Some? ==> r.value < |s| && s[r.value] == '"' && '"' !in s[..r.value]
    decreases |s|
  {
    if |s| == 0 then None
    else if s[0] == '"' then Some(0)
    else match QuoteIndex(s[1..])
      case None => None
      case Some(k) =>
        assert s[..k + 1] == [s[0]] + s[1..][..k];
        Some(k + 1)
  }

  /**
   * Reads a filter of the shape `TickerFilter` builds back into its ids: a
   * clause, then either the end or " || " and more clauses.
   */
  function ParseTickerFilter(f: string): Option<seq<string>>
    decreases |f|
  {
    if !(ClausePrefix <= f) then None
    else
      var rest := f[|ClausePrefix|..];
      match QuoteIndex(rest)
      case None => None
      case Some(k) =>
        var id := rest[..k];
        var after := rest[k + 1..];
        if after == [] then Some([id])
        else if !(Or <= after) then None
        else match ParseTickerFilter(after[|Or|..])
          case None => None
          case Some(ids) => Some([id] + ids)
  }

  /** The first quote after a quote-free id is the one that closes it. */
  lemma QuoteIndexAfterId(id: string, tail: string)
    requires '"' !in id
    ensures QuoteIndex(id + "\"" + tail) == Some(|id|)
  {
    var s := id + "\"" + tail;
    assert s[|id|] == '"';
    assert s[..|id|] == id;
  }

  /** Parsing a filter that starts with the clause of a quote-free id reads that id, then what follows. */
  lemma ParseClause(id: string, tail: string)
    requires '"' !in id
    ensures tail == [] ==> ParseTickerFilter(Clause(id) + tail) == Some([id])
    ensures Or <= tail ==>
      ParseTickerFilter(Clause(id) + tail) ==
        match ParseTickerFilter(tail[|Or|..])
        case None => None
        case Some(ids) => Some([id] + ids)
  {
    var f := Clause(id) + tail;
    assert f == ClausePrefix + (id + "\"" + tail);
    var rest := f[|ClausePrefix|..];
    assert rest == id + "\"" + tail;
    QuoteIndexAfterId(id, tail);
    assert rest[..|id|] == id;
    assert rest[|id| + 1..] == tail;
  }

  /** A filter for a first id and more ids is the first clause, " || ", then the rest's filter. */
  lemma TickerFilterCons(id: string, ids: seq<string>)
    requires |ids| > 0
    ensures TickerFilter([id] + ids) == Clause(id) + Or + TickerFilter(ids)
  {
    assert Clauses([id] + ids) == [Clause(id)] + Clauses(ids) by {
      assert ([id] + ids)[1..] == ids;
    }
    JoinCons(Clause(id), Clauses(ids), Or);
  }

  /**
   * The filter string determines its ids: for a non-empty list of ids without
   * a double quote, parsing the built filter gives the ids back.
   */
  lemma {:induction false} TickerFilterRoundTrip(ids: seq<string>)
    requires |ids| > 0
    requires forall i :: 0 <= i < |ids| ==> '"' !in ids[i]
    ensures ParseTickerFilter(TickerFilter(ids)) == Some(ids)
    decreases |ids|
  {
    if |ids| == 1 {
      assert ids == [ids[0]];
      SingleTickerFilter(ids[0]);
      assert TickerFilter(ids) == Clause(ids[0]) + [];
      ParseClause(ids[0], []);
    } else {
      var head, tail := ids[0], ids[1..];
      assert ids == [head] + tail;
      TickerFilterCons(head, tail);
      ParseAfterClause(head, TickerFilter(tail));
      TickerFilterRoundTrip(tail);
    }
  }

  /** Parsing a quote-free id's clause, " || " and a rest reads the id, then parses the rest. */
  lemma ParseAfterClause(id: string, rest: string)
    requires '"' !in id
    ensures ParseTickerFilter(Clause(id) + Or + rest) ==
      match ParseTickerFilter(rest)
      case None => None
      case Some(ids) => Some([id] + ids)
  {
    var after := Or + rest;
    assert Clause(id) + Or + rest == Clause(id) + after;
    assert after[|Or|..] == rest;
    ParseClause(id, after);
  }

  /** A filter with one clause is the single-ticker filter of `getFilingsForTicker`. */
  lemma SingleTickerFilter(id: string)
    ensures TickerFilter([id]) == Clause(id)
  {
    assert Clauses([id]) == [Clause(id)];
    assert Join([Clause(id)], Or) == Clause(id);
  }

  /**
   * Ids are not escaped: the single id `x" || ticker = "y` builds the same
   * filter as the two ids `x` and `y`, so the filter no longer determines the ids.
   */
  lemma UnescapedIdsCollide(x: string, y: string)
    ensures TickerFilter([x + "\"" + Or + ClausePrefix + y]) == TickerFilter([x, y])
  {
    var forged := x + "\"" + Or + ClausePrefix + y;
    SingleTickerFilter(forged);
    SingleTickerFilter(y);
    TickerFilterCons(x, [y]);
    assert [x] + [y] == [x, y];
    var q := "\"";
    assert Clause(forged) == ClausePrefix + (x + q + Or + ClausePrefix + y) + q;
    assert Clause(x) + Or + Clause(y) == (ClausePrefix + x + q) + Or + (ClausePrefix + y + q);
    assert ClausePrefix + (x + q + Or + ClausePrefix + y) + q == (ClausePrefix + x + q) + Or + (ClausePrefix + y + q);
  }

  /** The projection `{id, ticker, type, date, title, summary, url}` of a filing record. */
  function AsFiling(rec: FilingRecord): (f: Filing)
    ensures f.id == rec.id && f.ticker == rec.ticker && f.formType == rec.formType && f.date == rec.date
    ensures f.title == rec.title && f.summary == rec.summary && f.url == rec.url
  {
    Filing(rec.id, rec.ticker, rec.formType, rec.date, rec.title, rec.summary, rec.url)
  }

  /** The projection of `getFilingsForTickers`: the filing's fields plus `expand?.ticker?.symbol/name`. */
  function AsTickerFiling(rec: FilingRecord): (f: TickerFiling)
    ensures f.id == rec.id && f.ticker == rec.ticker && f.formType == rec.formType && f.date == rec.date
    ensures f.title == rec.title && f.summary == rec.summary && f.url == rec.url
    ensures f.tickerSymbol.Some? <==> rec.expand.Some? && rec.expand.value.ticker.Some?
    ensures f.tickerName.Some? <==> rec.expand.Some? && rec.expand.value.ticker.Some?
    ensures f.tickerSymbol.Some? ==>
      f.tickerSymbol.value == rec.expand.value.ticker.value.symbol
      && f.tickerName.value == rec.expand.value.ticker.value.name
  {
    var expanded := Expanded(rec.expand);
    TickerFiling(
      rec.id, rec.ticker,
      if expanded.Some? then Some(expanded.value.symbol) else None,
      if expanded.Some? then Some(expanded.value.name) else None,
      rec.formType, rec.date, rec.title, rec.summary, rec.url)
  }

  /** `getFilingsForTicker(tickerId)`. */
  function GetFilingsForTicker(tickerId: string, answer: Answer<seq<FilingRecord>>): (c: Call<seq<Filing>>)
    ensures c.requests == [GetFullList("filings", Clause(tickerId), "-date", "")]
    ensures answer.Threw? ==> c.result == []
    ensures answer.Answered? ==>
      && |c.result| == |answer.value|
      && forall i :: 0 <= i < |answer.value| ==>
           var (f, rec) := (c.result[i], answer.value[i]);
           f.id == rec.id && f.ticker == rec.ticker && f.formType == rec.formType && f.date == rec.date
           && f.title == rec.title && f.summary == rec.summary && f.url == rec.url
  {
    var request := GetFullList("filings", Clause(tickerId), "-date", "");
    match answer
    case Threw(_) => Call([request], [])
    case Answered(records) =>
      Call([request], seq(|records|, i requires 0 <= i < |records| => AsFiling(records[i])))
  }

  /** `getFilingsForTickers(tickerIds)`. */
  function GetFilingsForTickers(tickerIds: seq<string>, answer: Answer<seq<FilingRecord>>): (c: Call<seq<TickerFiling>>)
    ensures |tickerIds| == 0 ==> c.requests == [] && c.result == []
    ensures |tickerIds| > 0 ==>
      c.requests == [GetFullList("filings", TickerFilter(tickerIds), "-date", "ticker")]
    ensures answer.Threw? ==> c.result == []
    ensures |tickerIds| > 0 && answer.Answered? ==>
      && |c.result| == |answer.value|
      && forall i :: 0 <= i < |answer.value| ==>
           var (f, rec) := (c.result[i], answer.value[i]);
           f.id == rec.id && f.ticker == rec.ticker && f.formType == rec.formType && f.date == rec.date
           && f.title == rec.title && f.summary == rec.summary && f.url == rec.url
           && (f.tickerSymbol.Some? <==> rec.expand.Some? && rec.expand.value.ticker.Some?)
           && (f.tickerName.Some? <==> rec.expand.Some? && rec.expand.value.ticker.Some?)
           && (f.tickerSymbol.Some? ==>
                 f.tickerSymbol.value == rec.expand.value.ticker.value.symbol
                 && f.tickerName == Some(rec.expand.value.ticker.value.name))
  {
    if |tickerIds| == 0 then Call([], [])
    else
      var request := GetFullList("filings", TickerFilter(tickerIds), "-date", "ticker");
      match answer
      case Threw(_) => Call([request], [])
      case Answered(records) =>
        Call([request], seq(|records|, i requires 0 <= i < |records| => AsTickerFiling(records[i])))
  }
}
