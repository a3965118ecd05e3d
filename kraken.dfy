/** The exchange client of src/kraken.rs: the response envelope, the trade adapter,
    the conversion of one `Trades` page and the stream that pages through the
    exchange's trade history one trade at a time. */
module Kraken {
  import opened Results
  import opened Errors
  import opened Trades
  import opened Uint64

  // ---------------------------------------------------------------- wire types

  /** A trade as the exchange sends it: a positional 6-tuple of price, volume,
      time in seconds, buy/sell flag, market/limit flag and a miscellaneous field. */
  datatype KrakenTrade = KrakenTrade(price: string, volume: string, time: real,
                                     side: string, orderType: string, misc: string)

  /** The envelope every response comes in. */
  datatype KrakenResponse<T> = KrakenResponse(error: seq<string>, result: Option<T>)

  /** One page of the `Trades` endpoint: the trades under the exchange's own key for
      the pair (the flattened map), and the cursor to continue from. */
  datatype HistoryResponse = HistoryResponse(trades: map<string, seq<KrakenTrade>>, last: string)

  /** The query of a `Trades` request. */
  datatype HistoryRequest = HistoryRequest(pair: string, since: u64)

  /** A request as it reaches the transport. */
  datatype Request = Request(endpoint: string, query: HistoryRequest)

  /** A response body, given by what JSON decoding makes of its text as a
      `KrakenResponse<T>`: an envelope, or the decoder's complaint. */
  datatype Json<T> = Parses(envelope: KrakenResponse<T>) | Malformed(reason: string)

  // ------------------------------------------------------------- trade adapter

  /** `From<KrakenTrade> for Trade`: the fields are taken by position, the pair is
      always "ETHEUR", and the two flags and the last field are dropped. */
  function TradeOf(t: KrakenTrade): (r: Trade)
    ensures r.pair == "ETHEUR"
    ensures r.price == Parsed(t.price) && r.volume == Parsed(t.volume)
    ensures r.timestamp == Scaled(t.time)
  {
    Trade("ETHEUR", Parsed(t.price), Parsed(t.volume), Scaled(t.time))
  }

  /** Fields 3 to 5 of the tuple have no influence on the trade. */
  lemma TradeOfIgnoresFlags(a: KrakenTrade, b: KrakenTrade)
    requires a.price == b.price && a.volume == b.volume && a.time == b.time
    ensures TradeOf(a) == TradeOf(b)
  {
  }

  /** `trades.into_iter().map(Trade::from).collect()`: one trade per tuple. */
  function AdaptAll(ts: seq<KrakenTrade>): (r: seq<Trade>)
    ensures |r| == |ts|
  {
    if ts == [] then [] else [TradeOf(ts[0])] + AdaptAll(ts[1..])
  }

  /** ... and in the order of the tuples. */
  lemma {:induction false} AdaptAllAt(ts: seq<KrakenTrade>, i: nat)
    requires i < |ts|
    ensures AdaptAll(ts)[i] == TradeOf(ts[i])
  {
    if i > 0 {
      AdaptAllAt(ts[1..], i - 1);
    }
  }

  // ------------------------------------------------------------------ envelope

  /** The `and_then` chain of `Kraken::req` after the transport has answered: a
      transport failure is passed on, a body that does not decode becomes a
      `JSONError`, and a decoded envelope yields its `result` if there is one and
      otherwise a `KrakenError` carrying the `error` list. */
  function Settle<T>(fetched: Result<Json<T>, Error>): (r: Result<T, Error>)
    ensures fetched.Err? ==> r == Err(fetched.error)
    ensures fetched.Ok? && fetched.value.Malformed? ==> r == Err(JSONError(fetched.value.reason))
    ensures r.Ok? <==> fetched.Ok? && fetched.value.Parses? && fetched.value.envelope.result.Some?
    ensures r.Ok? ==> r.value == fetched.value.envelope.result.value
    ensures fetched.Ok? && fetched.value.Parses? && fetched.value.envelope.result.None? ==>
              r == Err(KrakenError(fetched.value.envelope.error))
  {
    match fetched
    case Err(e) => Err(e)
    case Ok(Malformed(reason)) => Err(JSONError(reason))
    case Ok(Parses(envelope)) =>
      match envelope.result
      case Some(result) => Ok(result)
      case None => Err(KrakenError(envelope.error))
  }

  /** A present `result` wins whatever the `error` list holds. */
  lemma SettleIgnoresErrorList<T>(errors: seq<string>, result: T)
    ensures Settle(Ok(Parses(KrakenResponse(errors, Some(result))))) == Ok(result)
  {
  }

  // ----------------------------------------------------------- page conversion

  /** The page's trade state, as `PaginationHelper` holds it. */
  datatype PaginationHelper = PaginationHelper(pair: string, trades: seq<Trade>, continuation: u64)

  /** Why the stream panics: an `unwrap` on an error. */
  datatype Halt =
    | HistoryFailed(error: Error)   // `self.history(..).await.unwrap()`
    | NoDataKey                     // `res.trades.remove(&pair).unwrap()`
    | BadLast(kind: IntErrorKind)   // `res.last.parse::<u64>().unwrap()`

  /** A key of the page that carries trades. */
  predicate IsDataKey(res: HistoryResponse, key: string)
  {
    key in res.trades && key != "last"
  }

  predicate HasDataKey(res: HistoryResponse)
  {
    exists key :: key in res.trades && key != "last"
  }

  /** `h` is what converting `res` may give: one of its data keys as the pair, that
      key's trades adapted in order, and `last` parsed as the continuation. Which
      key is taken when there are several is left open, as the map's order is. */
  ghost predicate IsPageOf(res: HistoryResponse, h: PaginationHelper)
  {
    IsDataKey(res, h.pair) && h.trades == AdaptAll(res.trades[h.pair])
    && Parse(res.last) == Ok(h.continuation)
  }

  /** `From<HistoryResponse> for PaginationHelper`: scan the keys for one that is
      not "last", take its trades, and parse `last`; either `unwrap` may fail. */
  method FromHistory(res: HistoryResponse) returns (r: Result<PaginationHelper, Halt>)
    ensures r.Ok? <==> HasDataKey(res) && Parse(res.last).Ok?
    ensures r.Ok? ==> IsPageOf(res, r.value)
    ensures !HasDataKey(res) ==> r == Err(NoDataKey)
    ensures HasDataKey(res) && Parse(res.last).Err? ==> r == Err(BadLast(Parse(res.last).error))
  {
    var pair := "";
    var unvisited := res.trades.Keys;
    while unvisited != {}
      invariant unvisited <= res.trades.Keys
      invariant pair == ""
      invariant forall key | key in res.trades && key !in unvisited :: key == "last"
      decreases unvisited
    {
      var key :| key in unvisited;
      if key != "last" {
        pair := key;
        break;
      }
      unvisited := unvisited - {key};
    }
    var removed := if pair in res.trades then Some(res.trades[pair]) else None;
    if removed.None? {
      return Err(NoDataKey);
    }
    var continuation := Parse(res.last);
    if continuation.Err? {
      return Err(BadLast(continuation.error));
    }
    return Ok(PaginationHelper(pair, AdaptAll(removed.value), continuation.value));
  }

  /** With exactly one data key the conversion is determined. */
  lemma PageOfSingleKey(res: HistoryResponse, key: string, h: PaginationHelper)
    requires IsDataKey(res, key)
    requires forall k | k in res.trades && k != "last" :: k == key
    requires Parse(res.last).Ok?
    ensures IsPageOf(res, h) <==>
              h == PaginationHelper(key, AdaptAll(res.trades[key]), Parse(res.last).value)
  {
  }

  // ----------------------------------------------------------------- transport

  /** The transport behind the `HTTPRequest` trait. The network is the function
      `respond`, which gives the answer to a request from the request and the
      number of requests made before it; `sent` logs every request. */
  class Client {
    const respond: (nat, Request) -> Result<Json<HistoryResponse>, Error>
    var sent: seq<Request>

    constructor (respond: (nat, Request) -> Result<Json<HistoryResponse>, Error>)
      ensures this.respond == respond && sent == []
    {
      this.respond := respond;
      sent := [];
    }

    method Req(endpoint: string, query: HistoryRequest) returns (fetched: Result<Json<HistoryResponse>, Error>)
      modifies this
      ensures sent == old(sent) + [Request(endpoint, query)]
      ensures fetched == respond(|old(sent)|, Request(endpoint, query))
    {
      fetched := respond(|sent|, Request(endpoint, query));
      sent := sent + [Request(endpoint, query)];
    }
  }

  /** The `Kraken` client over a transport. */
  class Kraken {
    const client: Client

    constructor (client: Client)
      ensures this.client == client
    {
      this.client := client;
    }

    /** `Kraken::req`: one request, then `Settle` on what came back. */
    method Req(endpoint: string, query: HistoryRequest) returns (r: Result<HistoryResponse, Error>)
      modifies client
      ensures client.sent == old(client.sent) + [Request(endpoint, query)]
      ensures r == Settle(client.respond(|old(client.sent)|, Request(endpoint, query)))
    {
      var fetched := client.Req(endpoint, query);
      r := Settle(fetched);
    }

    /** `Kraken::history`: a `Trades` request with exactly the given pair and cursor. */
    method History(pair: string, since: u64) returns (r: Result<HistoryResponse, Error>)
      modifies client
      ensures client.sent == old(client.sent) + [TradesRequest(pair, since)]
      ensures r == Settle(client.respond(|old(client.sent)|, TradesRequest(pair, since)))
    {
      r := Req("Trades", HistoryRequest(pair, since));
    }

    /** `Kraken::history_since_until_now`: a stream that has buffered nothing yet and
        will start from `since`. */
    method HistorySinceUntilNow(pair: string, since: u64) returns (s: TradeStream)
      ensures fresh(s) && s.kraken == this && s.Valid()
      ensures s.State() == PaginationHelper(pair, [], since) && s.status == Live
      ensures s.emitted == [] && s.pages == []
    {
      s := new TradeStream(this, pair, since);
    }
  }

  function TradesRequest(pair: string, since: u64): (req: Request)
  {
    Request("Trades", HistoryRequest(pair, since))
  }

  // -------------------------------------------------------------------- stream

  function Last<T>(s: seq<T>): (x: T)
    requires s != []
  {
    s[|s| - 1]
  }

  function AllButLast<T>(s: seq<T>): (prefix: seq<T>)
    requires s != []
  {
    s[..|s| - 1]
  }

  /** The order in which popping from the end hands out a buffer. */
  function Reversed<T>(s: seq<T>): (r: seq<T>)
  {
    if s == [] then [] else [Last(s)] + Reversed(AllButLast(s))
  }

  /** What draining the pages one after the other emits: each page back to front. */
  function Drained<T>(pages: seq<seq<T>>): (out: seq<T>)
  {
    if pages == [] then [] else Drained(AllButLast(pages)) + Reversed(Last(pages))
  }

  function Concat<T>(pages: seq<seq<T>>): (all: seq<T>)
  {
    if pages == [] then [] else Concat(AllButLast(pages)) + Last(pages)
  }

  lemma {:induction false} ReversedPermutes<T>(s: seq<T>)
    ensures |Reversed(s)| == |s| && multiset(Reversed(s)) == multiset(s)
  {
    if s != [] {
      ReversedPermutes(AllButLast(s));
      assert s == AllButLast(s) + [Last(s)];
    }
  }

  /** Draining loses no trade and repeats none: it emits the fetched trades,
      every one of them once. */
  lemma {:induction false} DrainedPermutes<T>(pages: seq<seq<T>>)
    ensures |Drained(pages)| == |Concat(pages)|
    ensures multiset(Drained(pages)) == multiset(Concat(pages))
  {
    if pages != [] {
      DrainedPermutes(AllButLast(pages));
      ReversedPermutes(Last(pages));
    }
  }

  /** Two trades that arrive as `[a, b]` leave in the order `[b, a]`. */
  lemma ReversedTwo<T>(a: T, b: T)
    ensures Reversed([a, b]) == [b, a]
  {
    assert AllButLast([a, b]) == [a] && AllButLast([a]) == [];
    assert Reversed([a]) == [a] + Reversed<T>([]);
    assert Reversed([a, b]) == [b] + Reversed([a]);
  }

  /** One value the stream produces: a trade, the end of the stream, or a panic. */
  datatype Step = Yield(trade: Trade) | End | Panic(cause: Halt)

  /** `Live` while the stream can be polled; `Exhausted` after it returned `None`;
      `Aborted` after a panic. */
  datatype Status = Live | Exhausted | Aborted

  /** What a fetch that receives `got` does: the pages fetched before and after
      it, the new state and status, and the step it ends the poll with, if any. */
  ghost predicate Fetched(got: Result<HistoryResponse, Error>, before: seq<seq<Trade>>,
                          after: seq<seq<Trade>>, s: PaginationHelper, status: Status, stop: Option<Step>)
  {
    match got
    case Err(e) => stop == Some(Panic(HistoryFailed(e))) && status == Aborted && after == before
    case Ok(res) =>
      if !HasDataKey(res) then stop == Some(Panic(NoDataKey)) && status == Aborted && after == before
      else if Parse(res.last).Err? then
        stop == Some(Panic(BadLast(Parse(res.last).error))) && status == Aborted && after == before
      else
        after == before + [s.trades] && IsPageOf(res, s)
        && if s.trades == [] then stop == Some(End) && status == Exhausted
           else stop == None && status == Live
  }

  /** What a poll that fetches and receives `got` does: as `Fetched`, and when the
      page is not empty it also pops the page's last trade and yields it. */
  ghost predicate AfterFetch(got: Result<HistoryResponse, Error>, before: seq<seq<Trade>>,
                             after: seq<seq<Trade>>, s: PaginationHelper, status: Status, step: Step)
  {
    if step.Yield? then
      after != [] && Last(after) != [] && step.trade == Last(Last(after))
      && s.trades == AllButLast(Last(after))
      && Fetched(got, before, after, s.(trades := Last(after)), status, None)
    else Fetched(got, before, after, s, status, Some(step))
  }

  /** The state of `stream::unfold` in `history_since_until_now`. `pages` records
      every page fetched so far and `emitted` every trade yielded so far. */
  class TradeStream {
    const kraken: Kraken
    var pair: string
    var trades: seq<Trade>
    var continuation: u64
    var status: Status
    ghost var emitted: seq<Trade>
    ghost var pages: seq<seq<Trade>>

    /** What has been yielded, followed by what is still buffered in the order it
        will be yielded, is exactly the fetched pages each drained back to front. */
    ghost predicate Valid()
      reads this
    {
      Drained(pages) == emitted + Reversed(trades)
      && (status != Live ==> trades == [])
      && (status == Exhausted ==> pages != [] && Last(pages) == [])
    }

    function State(): (h: PaginationHelper)
      reads this
    {
      PaginationHelper(pair, trades, continuation)
    }

    constructor (kraken: Kraken, pair: string, since: u64)
      ensures this.kraken == kraken && Valid()
      ensures State() == PaginationHelper(pair, [], since) && status == Live
      ensures emitted == [] && pages == []
    {
      this.kraken := kraken;
      this.pair := pair;
      trades := [];
      continuation := since;
      status := Live;
      emitted := [];
      pages := [];
    }

    /** One poll of the stream. With trades buffered it pops and yields the last
        one and touches nothing else; with none it fetches a page for the current
        pair and cursor, replaces the whole state with that page, and ends the
        stream if the page is empty or yields the page's last trade otherwise. */
    method Next() returns (step: Step)
      requires Valid() && status == Live
      modifies this, kraken.client
      ensures Valid()
      ensures step.Yield? ==> emitted == old(emitted) + [step.trade]
      ensures !step.Yield? ==> emitted == old(emitted)
      ensures old(trades) != [] ==>
                step == Yield(Last(old(trades))) && status == Live
                && State() == old(State()).(trades := AllButLast(old(trades)))
                && pages == old(pages) && kraken.client.sent == old(kraken.client.sent)
      ensures old(trades) == [] ==>
                kraken.client.sent == old(kraken.client.sent) + [TradesRequest(old(pair), old(continuation))]
                && AfterFetch(Settle(kraken.client.respond(|old(kraken.client.sent)|,
                                                           TradesRequest(old(pair), old(continuation)))),
                              old(pages), pages, State(), status, step)
    {
      if trades == [] {
        var stop := Fetch();
        if stop.Some? {
          return stop.value;
        }
      }
      ghost var full := State();
      step := Yield(Last(trades));
      trades := AllButLast(trades);
      emitted := emitted + [step.trade];
      assert Reversed(full.trades) == [step.trade] + Reversed(trades);
      assert emitted + Reversed(trades) == old(emitted) + Reversed(full.trades);
      if old(trades) == [] {
        assert Last(pages) == full.trades;
        assert State().(trades := Last(pages)) == full;
      }
    }

    /** `state = PaginationHelper::from(self.history(..).await.unwrap())` and the
        check for an empty page that follows it. */
    method Fetch() returns (stop: Option<Step>)
      requires Valid() && status == Live && trades == []
      modifies this, kraken.client
      ensures Valid() && emitted == old(emitted)
      ensures kraken.client.sent == old(kraken.client.sent) + [TradesRequest(old(pair), old(continuation))]
      ensures Fetched(Settle(kraken.client.respond(|old(kraken.client.sent)|,
                                                   TradesRequest(old(pair), old(continuation)))),
                      old(pages), pages, State(), status, stop)
      ensures stop.None? ==> status == Live && trades != [] && pages == old(pages) + [trades]
      ensures stop.Some? ==> !stop.value.Yield?
    {
      assert Drained(pages) == emitted by {
        assert Reversed(trades) == [];
      }
      var got := kraken.History(pair, continuation);
      if got.Err? {
        status := Aborted;
        return Some(Panic(HistoryFailed(got.error)));
      }
      var converted := FromHistory(got.value);
      if converted.Err? {
        status := Aborted;
        return Some(Panic(converted.error));
      }
      var page := converted.value;
      assert IsPageOf(got.value, page);
      ghost var before := pages;
      pair, trades, continuation := page.pair, page.trades, page.continuation;
      pages := pages + [page.trades];
      assert AllButLast(pages) == before && Last(pages) == page.trades;
      assert Drained(pages) == emitted + Reversed(trades);
      if trades == [] {
        status := Exhausted;
        return Some(End);
      }
      return None;
    }
  }

  /** A stream that has ended has emitted the pages P1..Pk fetched before the empty
      page, each back to front: reverse(P1) + ... + reverse(Pk). */
  lemma ExhaustedRun(s: TradeStream)
    requires s.Valid() && s.status == Exhausted
    ensures s.emitted == Drained(AllButLast(s.pages))
    ensures multiset(s.emitted) == multiset(Concat(AllButLast(s.pages)))
  {
    assert Reversed(Last(s.pages)) == [] && Reversed(s.trades) == [];
    assert Drained(s.pages) == Drained(AllButLast(s.pages)) + Reversed(Last(s.pages));
    assert s.emitted + Reversed(s.trades) == s.emitted;
    DrainedPermutes(AllButLast(s.pages));
  }
}
