/**
 * `tickerService` of src/lib/services/pocketbase.js: the list of all tickers,
 * a user's watchlist, and adding/removing watchlist entries. Every operation
 * catches what the backend throws and returns an empty list or `false`.
 */
module TickerService {
  import opened Wrappers
  import opened Records
  import opened Backend

  /** The projection `{id, symbol, name}` of a ticker record. */
  function AsTicker(rec: TickerRecord): (t: Ticker)
    ensures t.id == Some(rec.id) && t.symbol == rec.symbol && t.name == rec.name
  {
    Ticker(Some(rec.id), rec.symbol, rec.name)
  }

  /** `getAvailableTickers()`: one list query sorted by symbol, projected record by record. */
  function GetAvailableTickers(answer: Answer<seq<TickerRecord>>): (c: Call<seq<Ticker>>)
    ensures c.requests == [GetFullList("tickers", "", "symbol", "")]
    ensures answer.Threw? ==> c.result == []
    ensures answer.Answered? ==>
      && |c.result| == |answer.value|
      && forall i :: 0 <= i < |answer.value| ==>
           c.result[i].id == Some(answer.value[i].id)
           && c.result[i].symbol == answer.value[i].symbol
           && c.result[i].name == answer.value[i].name
  {
    var request := GetFullList("tickers", "", "symbol", "");
    match answer
    case Threw(_) => Call([request], [])
    case Answered(records) =>
      Call([request], seq(|records|, i requires 0 <= i < |records| => AsTicker(records[i])))
  }

  /** The ticker an entry's `expand.ticker` resolved to, if it did. */
  function ExpandedTicker(rec: WatchRecord): Option<TickerRecord>
  {
    Expanded(rec.expand)
  }

  /**
   * The filter-then-map of `getUserTickers`: entries whose ticker relation
   * did not resolve are dropped, the others are projected, in order.
   */
  function ExpandedTickers(records: seq<WatchRecord>): (r: seq<Ticker>)
    ensures |r| <= |records|
    ensures forall k :: 0 <= k < |r| ==>
      exists i :: 0 <= i < |records| && ExpandedTicker(records[i]).Some?
                  && r[k] == AsTicker(ExpandedTicker(records[i]).value)
    ensures forall i :: 0 <= i < |records| && ExpandedTicker(records[i]).Some? ==>
      AsTicker(ExpandedTicker(records[i]).value) in r
    decreases |records|
  {
    if |records| == 0 then []
    else
      var rest := ExpandedTickers(records[1..]);
      match ExpandedTicker(records[0])
      case None => rest
      case Some(t) => [AsTicker(t)] + rest
  }

  /** The filter `user = "<id>"`; the id is inserted verbatim. */
  function UserFilter(userId: string): string
  {
    "user = \"" + userId + "\""
  }

  /** `getUserTickers(userId)`. */
  function GetUserTickers(userId: Option<string>, answer: Answer<seq<WatchRecord>>): (c: Call<seq<Ticker>>)
    ensures !Truthy(userId) ==> c.requests == [] && c.result == []
    ensures Truthy(userId) ==>
      c.requests == [GetFullList("users_tickers", UserFilter(userId.value), "", "ticker")]
    ensures answer.Threw? ==> c.result == []
    ensures Truthy(userId) && answer.Answered? ==> c.result == ExpandedTickers(answer.value)
  {
    if !Truthy(userId) then Call([], [])
    else
      var request := GetFullList("users_tickers", UserFilter(userId.value), "", "ticker");
      match answer
      case Threw(_) => Call([request], [])
      case Answered(records) => Call([request], ExpandedTickers(records))
  }

  /** Dropping unresolved entries works piecewise: the result for `a + b` is the result for `a`, then for `b`. */
  lemma {:induction false} ExpandedTickersAppend(a: seq<WatchRecord>, b: seq<WatchRecord>)
    ensures ExpandedTickers(a + b) == ExpandedTickers(a) + ExpandedTickers(b)
    decreases |a|
  {
    if |a| > 0 {
      assert (a + b)[1..] == a[1..] + b;
      ExpandedTickersAppend(a[1..], b);
    } else {
      assert a + b == b;
    }
  }

  /** When every entry resolved, nothing is dropped and entry `i` gives ticker `i`. */
  lemma {:induction false} ExpandedTickersAllResolved(records: seq<WatchRecord>)
    requires forall i :: 0 <= i < |records| ==> ExpandedTicker(records[i]).Some?
    ensures |ExpandedTickers(records)| == |records|
    ensures forall i :: 0 <= i < |records| ==>
      ExpandedTickers(records)[i] == AsTicker(ExpandedTicker(records[i]).value)
    decreases |records|
  {
    if |records| > 0 {
      ExpandedTickersAllResolved(records[1..]);
    }
  }

  /** When no entry resolved, the watchlist comes back empty. */
  lemma {:induction false} ExpandedTickersNoneResolved(records: seq<WatchRecord>)
    requires forall i :: 0 <= i < |records| ==> ExpandedTicker(records[i]).None?
    ensures ExpandedTickers(records) == []
    decreases |records|
  {
    if |records| > 0 {
      ExpandedTickersNoneResolved(records[1..]);
    }
  }

  /** `addUserTicker(userId, tickerId)`: `answer` is what `create` resolved to or threw. */
  function AddUserTicker(userId: Option<string>, tickerId: string, answer: Answer<WatchRecord>): (c: Call<bool>)
    ensures !Truthy(userId) ==> c.requests == [] && !c.result
    ensures Truthy(userId) ==> c.requests == [CreateWatch(userId.value, tickerId)]
    ensures c.result <==> Truthy(userId) && answer.Answered?
  {
    if !Truthy(userId) then Call([], false)
    else Call([CreateWatch(userId.value, tickerId)], answer.Answered?)
  }

  /** The filter `user = "<user>" && ticker = "<ticker>"`; both ids are inserted verbatim. */
  function EntryFilter(userId: string, tickerId: string): string
  {
    "user = \"" + userId + "\" && ticker = \"" + tickerId + "\""
  }

  /**
   * `removeUserTicker(userId, tickerId)`: `found` is what `getFirstListItem`
   * resolved to or threw, `deleted` the same for `delete`.
   */
  function RemoveUserTicker(userId: Option<string>, tickerId: string,
                            found: Answer<WatchRecord>, deleted: Answer<()>): (c: Call<bool>)
    ensures !Truthy(userId) ==> c.requests == [] && !c.result
    ensures Truthy(userId) && found.Threw? ==>
      c.requests == [GetFirstListItem("users_tickers", EntryFilter(userId.value, tickerId))] && !c.result
    ensures Truthy(userId) && found.Answered? ==>
      c.requests == [GetFirstListItem("users_tickers", EntryFilter(userId.value, tickerId)),
                     Delete("users_tickers", found.value.id)]
    ensures c.result <==> Truthy(userId) && found.Answered? && deleted.Answered?
  {
    if !Truthy(userId) then Call([], false)
    else
      var lookup := GetFirstListItem("users_tickers", EntryFilter(userId.value, tickerId));
      match found
      case Threw(_) => Call([lookup], false)
      case Answered(rec) => Call([lookup, Delete("users_tickers", rec.id)], deleted.Answered?)
  }
}
