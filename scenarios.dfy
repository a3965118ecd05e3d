/** The unit tests of src/kraken.rs and the two-page run, stated over the model. */
module KrakenScenarios {
  import opened Results
  import opened Errors
  import opened Trades
  import opened Uint64
  import opened Kraken

  /** The cursor of the two-trade page parses to the number it spells. */
  lemma SampleCursor(last: string)
    requires last == "1575145023655038533"
    ensures Parse(last) == Ok(1575145023655038533)
  {
    var a, b, c, d, e := "1575", "1450", "2365", "5038", "533";
    assert last == a + (b + (c + (d + e)));
    assert Parse(last) == Accumulate(last, 0);
    AccumulateConcat(a, b + (c + (d + e)), 0);
    AccumulateConcat(b, c + (d + e), 1575);
    AccumulateConcat(c, d + e, 15751450);
    AccumulateConcat(d, e, 157514502365);
    SampleCursorChunks();
  }

  lemma SampleCursorChunks()
    ensures Accumulate("1575", 0) == Ok(1575)
    ensures Accumulate("1450", 1575) == Ok(15751450)
    ensures Accumulate("2365", 15751450) == Ok(157514502365)
    ensures Accumulate("5038", 157514502365) == Ok(1575145023655038)
    ensures Accumulate("533", 1575145023655038) == Ok(1575145023655038533)
  {
  }

  /** The tuple of the trade test: its volume is field 1 and the pair is fixed. */
  lemma SampleTrade()
    ensures var t := TradeOf(KrakenTrade("164.70000", "2.00000000", 1573915002.1839, "s", "m", ""));
            t.volume == Parsed("2.00000000") && t.price == Parsed("164.70000")
            && t.timestamp == Scaled(1573915002.1839) && t.pair == "ETHEUR"
  {
  }

  /** A response that carries only an error list is that error, unchanged. */
  method UnknownPair() returns (res: Result<HistoryResponse, Error>, sent: seq<Request>)
    ensures res == Err(KrakenError(["EQuery:Unknown asset pair"]))
    ensures sent == [Request("Trades", HistoryRequest("ETHEUR", 1575127767000000000))]
  {
    var body: Json<HistoryResponse> := Parses(KrakenResponse(["EQuery:Unknown asset pair"], None));
    var client := new Client((n: nat, r: Request) => Ok(body));
    var kraken := new Kraken(client);
    res := kraken.History("ETHEUR", 1575127767000000000);
    sent := client.sent;
  }

  function FirstTrade(): (t: KrakenTrade)
  {
    KrakenTrade("138.65000", "1.55284051", 1575127767.9793, "b", "l", "")
  }

  function SecondTrade(): (t: KrakenTrade)
  {
    KrakenTrade("138.66000", "10.00000000", 1575127767.9842, "b", "l", "")
  }

  /** The page of two trades of the history test, and an empty page after it. */
  function TwoTradePage(last: string): (res: HistoryResponse)
  {
    HistoryResponse(map["XETHZEUR" := [FirstTrade(), SecondTrade()]], last)
  }

  function EmptyPage(last: string): (res: HistoryResponse)
  {
    HistoryResponse(map["XETHZEUR" := []], last)
  }

  /** A stub transport: the two-trade page for the first request, the empty page
      for every later one, both with the cursor `last`. */
  function Stub(last: string): (respond: (nat, Request) -> Result<Json<HistoryResponse>, Error>)
  {
    (n: nat, r: Request) =>
      Ok(Parses(KrakenResponse([], Some(if n == 0 then TwoTradePage(last) else EmptyPage(last)))))
  }

  /** `history` hands back the page's map with both trades under the exchange's key. */
  method TwoTradeHistory(last: string) returns (res: Result<HistoryResponse, Error>)
    ensures res.Ok? && "XETHZEUR" in res.value.trades && |res.value.trades["XETHZEUR"]| == 2
  {
    var client := new Client(Stub(last));
    var kraken := new Kraken(client);
    res := kraken.History("ETHEUR", 1575127767000000000);
    assert res == Ok(TwoTradePage(last));
  }

  /** Against the stub the two trades come out last first, the second request
      carries the discovered pair key and the first page's cursor (for the test's
      "1575145023655038533" that is 1575145023655038533, by `SampleCursor`), and
      then the stream ends after exactly two trades. */
  method TwoTradesThenEmpty(last: string, cursor: u64) returns (steps: seq<Step>, sent: seq<Request>)
    requires Parse(last) == Ok(cursor)
    ensures steps == [Yield(TradeOf(SecondTrade())), Yield(TradeOf(FirstTrade())), End]
    ensures sent == [TradesRequest("ETHEUR", 1575127767000000000), TradesRequest("XETHZEUR", cursor)]
  {
    var client := new Client(Stub(last));
    var kraken := new Kraken(client);
    var stream := kraken.HistorySinceUntilNow("ETHEUR", 1575127767000000000);
    var s1 := FirstPoll(stream, last, cursor);
    var s2 := stream.Next();
    assert s2 == Yield(TradeOf(FirstTrade())) && stream.trades == [];
    var s3 := LastPoll(stream, last, cursor);
    assert stream.emitted == [TradeOf(SecondTrade()), TradeOf(FirstTrade())];
    steps, sent := [s1, s2, s3], client.sent;
  }

  /** The first poll of that run: it fetches the two-trade page and yields its
      second trade. */
  method FirstPoll(stream: TradeStream, last: string, cursor: u64) returns (step: Step)
    requires Parse(last) == Ok(cursor)
    requires stream.Valid() && stream.status == Live && stream.emitted == [] && stream.pages == []
    requires stream.State() == PaginationHelper("ETHEUR", [], 1575127767000000000)
    requires stream.kraken.client.respond == Stub(last) && stream.kraken.client.sent == []
    modifies stream, stream.kraken.client
    ensures stream.Valid() && stream.status == Live
    ensures stream.State() == PaginationHelper("XETHZEUR", [TradeOf(FirstTrade())], cursor)
    ensures step == Yield(TradeOf(SecondTrade())) && stream.emitted == [step.trade]
    ensures stream.kraken.client.sent == [TradesRequest("ETHEUR", 1575127767000000000)]
  {
    var t1, t2 := TradeOf(FirstTrade()), TradeOf(SecondTrade());
    assert AdaptAll([FirstTrade(), SecondTrade()]) == [t1, t2] by {
      AdaptAllAt([FirstTrade(), SecondTrade()], 0);
      AdaptAllAt([FirstTrade(), SecondTrade()], 1);
    }
    assert IsDataKey(TwoTradePage(last), "XETHZEUR");
    assert Settle(Stub(last)(0, TradesRequest("ETHEUR", 1575127767000000000))) == Ok(TwoTradePage(last));
    step := stream.Next();
    PageOfSingleKey(TwoTradePage(last), "XETHZEUR", stream.State().(trades := [t1, t2]));
  }

  /** The third poll of that run: the buffer is empty, the stream fetches with the
      discovered key and the cursor, receives the empty page and ends. */
  method LastPoll(stream: TradeStream, last: string, cursor: u64) returns (step: Step)
    requires Parse(last) == Ok(cursor)
    requires stream.Valid() && stream.status == Live
    requires stream.State() == PaginationHelper("XETHZEUR", [], cursor)
    requires stream.kraken.client.respond == Stub(last)
    requires stream.kraken.client.sent == [TradesRequest("ETHEUR", 1575127767000000000)]
    modifies stream, stream.kraken.client
    ensures step == End && stream.status == Exhausted && stream.emitted == old(stream.emitted)
    ensures stream.kraken.client.sent == [TradesRequest("ETHEUR", 1575127767000000000),
                                          TradesRequest("XETHZEUR", cursor)]
  {
    assert IsDataKey(EmptyPage(last), "XETHZEUR");
    assert Settle(Stub(last)(1, TradesRequest("XETHZEUR", cursor))) == Ok(EmptyPage(last));
    step := stream.Next();
  }
}
