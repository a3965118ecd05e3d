# Kraken trade-history pagination, modelled in Dafny

This project models the client of src/kraken.rs. That client turns the
exchange's cursor-based `Trades` endpoint into a stream of `Trade` values. It
has four parts:

- **Envelope.** `Kraken::req` turns a decoded `{error, result}` body into the
  result, or into `Error::KrakenError(error)`. Transport and JSON failures pass
  through as errors.
- **Trade adapter.** `From<KrakenTrade> for Trade` reads the positional 6-tuple
  the exchange sends.
- **Page conversion.** `From<HistoryResponse> for PaginationHelper` scans the
  page's keys for one that is not `"last"`, adapts that key's trades in order,
  and parses the decimal cursor `last` into a `u64`.
- **Stream.** The `stream::unfold` closure of `history_since_until_now` is the
  class `TradeStream`. Each call to `Next()` is one poll. With trades buffered,
  it pops the last one and yields it. With none, it asks for a page at the
  current pair and cursor, replaces its state with the converted page, and then
  either ends (empty page) or yields that page's last trade.

Files:

- `results.dfy`: Option and Result.
- `error.dfy`: the crate's `Error` enum.
- `trade.dfy`: `Trade`.
- `decimal.dfy`: `u64` and the `str::parse::<u64>` of the cursor, following
  Rust's standard library (see below).
- `kraken.dfy`: the wire types, the adapter, the envelope, the page conversion,
  the transport and the stream.
- `scenarios.dfy`: the unit tests of src/kraken.rs and a two-page run, stated
  over the model.

The transport stands for the `HTTPRequest` trait. It is a `Client` object with
two fields:

- `respond`: a function that answers a request, from the request and from the
  number of requests made before it.
- `sent`: a log of every request.

A response body is represented by what JSON decoding makes of it: an envelope
(`Parses`) or a decoder complaint (`Malformed`, which becomes `JSONError`).

Five `unwrap`s can fail. The three outside the adapter are `Panic` steps,
after which the stream is `Aborted`:

- the one on `history(..)` (src/kraken.rs:127);
- the one on `remove(&pair)` when no data key exists (src/kraken.rs:43);
- the one on `parse::<u64>()` (src/kraken.rs:47).

The adapter's two `parse::<f64>().unwrap()` calls (src/kraken.rs:20-21) are
left out with the rest of the floating point (see "## Left out").

After `None` the stream is `Exhausted`. `Next` requires a `Live` stream. The
`futures` `Unfold` refuses to be polled after it has returned `None`, and after
a panic there is nothing left to poll.

The ghost fields `pages` and `emitted` record every page fetched and every
trade yielded. The invariant `Valid()` says that what was emitted, followed by
the buffer in pop order, is the fetched pages drained one after the other, each
back to front. `ExhaustedRun` turns this into the whole-run result. Over fetches
that return pages P1..Pk and then an empty page, the stream emits
reverse(P1) + ... + reverse(Pk), a permutation of the fetched trades.

Points of the code that the model keeps as written:

- `req` does not look at `error` when `result` is present (src/kraken.rs:93-94):
  a decoded envelope with a `result` gives `Ok(result)` whatever its `error`
  list holds (`SettleIgnoresErrorList`).
- A page with two or more data keys is not rejected (src/kraken.rs:37-42). One
  of them is taken, whichever the map's iteration order gives first. `IsPageOf`
  leaves that choice open. `PageOfSingleKey` shows that with exactly one key the
  result is determined. A page with no data key panics in `remove(..).unwrap()`
  (src/kraken.rs:43); no `Error` value is produced.
- The stream hands back no error: every failure inside it is a panic.
- The adapter sets `pair` to "ETHEUR" on every trade. The stream's own `pair` is
  the discovered key, so the second request of a run goes out for "XETHZEUR"
  (`TwoTradesThenEmpty`).

Cursor parse. `Uint64.Parse` follows `<u64 as FromStr>::from_str`:

- the empty text is `Empty`;
- an optional leading `+` is accepted;
- the digits are read from the left;
- a non-digit is `InvalidDigit` and a value over 2^64 - 1 is `PosOverflow`,
  whichever comes first;
- a lone `+` is `InvalidDigit`, as in current Rust (older releases reported
  `Empty`; either way it is a failure).

## Model

| member | source | states |
|---|---|---|
| `Kraken.TradeOf` | src/kraken.rs:16-24 | the tuple is read by position: price from field 0, volume from field 1, timestamp from field 2 scaled by 10 000; pair is always "ETHEUR" |
| `Kraken.TradeOfIgnoresFlags` | src/kraken.rs:14-24 | tuple fields 3 to 5 (buy/sell, order type, misc) have no influence on the trade |
| `Kraken.AdaptAll` | src/kraken.rs:46 | the adapted page has exactly as many trades as the page has tuples |
| `Kraken.AdaptAllAt` | src/kraken.rs:46 | the i-th adapted trade is the adapter applied to the i-th tuple, so the order is kept |
| `Kraken.Settle` | src/kraken.rs:89-96 | a transport error passes through; an undecodable body is `JSONError`; the result is Ok exactly when the decoded envelope has a `result`, and is then that result; without one it is `KrakenError` with the `error` list unchanged |
| `Kraken.SettleIgnoresErrorList` | src/kraken.rs:93-94 | a present `result` is returned whatever the `error` list holds |
| `Kraken.Client.Req` | src/api.rs:11-19 | the transport logs exactly the request it was given and answers it from the network function |
| `Kraken.Kraken.Req` | src/kraken.rs:84-97 | one request goes out, logged as given, and the answer is settled by `Settle` |
| `Kraken.Kraken.History` | src/kraken.rs:104-111 | one request to endpoint "Trades" with exactly the given pair and since, and the answer settled |
| `Kraken.Kraken.HistorySinceUntilNow` | src/kraken.rs:113-122 | a fresh stream with an empty buffer, the given pair and `continuation = since`, nothing emitted or fetched |
| `Kraken.TradeStream.constructor` | src/kraken.rs:118-122 | the initial state: empty buffer, the given pair, continuation `since` |
| `Kraken.FromHistory` | src/kraken.rs:34-49 | succeeds exactly when the page has a key other than "last" and `last` parses; the new pair is such a key, the trades are that key's tuples adapted in order, the continuation is the parsed `last`; no data key gives `NoDataKey`, a bad cursor gives its parse error |
| `Kraken.PageOfSingleKey` | src/kraken.rs:36-47 | with exactly one data key, a converted page is determined: that key, its trades adapted, the parsed cursor (both directions) |
| `Kraken.TradeStream.Fetch` | src/kraken.rs:125-132 | the fetch uses the current pair and continuation; a failed request, a missing data key or a bad cursor aborts; otherwise the whole state is the converted page, which is recorded, and an empty page ends the stream |
| `Kraken.TradeStream.Next` | src/kraken.rs:123-139 | with a non-empty buffer: yields its last element, leaves the prefix, keeps pair and continuation, fetches nothing; with an empty buffer: fetches once with the current pair and continuation and then does what `Fetch` says, popping and yielding the page's last trade when there is one; keeps `Valid()` |
| `Kraken.ReversedPermutes` | src/kraken.rs:133-137 | popping a buffer empty hands out every element once: same length and same multiset |
| `Kraken.ReversedTwo` | src/kraken.rs:133-137 | a page `[A, B]` is yielded as B then A |
| `Kraken.DrainedPermutes` | src/kraken.rs:123-139 | draining the fetched pages emits exactly the fetched trades, none lost or repeated |
| `Kraken.ExhaustedRun` | src/kraken.rs:118-139 | once the stream has ended, it has emitted reverse(P1) + ... + reverse(Pk) of the pages before the empty page, a permutation of their trades |
| `Uint64.Parse` | src/kraken.rs:47 | the parse reports `Empty` exactly for the empty text |
| `Uint64.AccumulateMeaning` | src/kraken.rs:47 | reading digits onto a running value succeeds exactly when all are digits and the total fits in 64 bits, and gives that total; a digit string is never `InvalidDigit` |
| `Uint64.ParseMeaning` | src/kraken.rs:47 | the parse succeeds exactly on an optional `+` followed by one or more digits whose value is at most 2^64 - 1, and yields that value |
| `Uint64.ParseOverflow` | src/kraken.rs:47 | a digit string above 2^64 - 1 fails with `PosOverflow` |
| `Uint64.AccumulateConcat` | src/kraken.rs:47 | parsing `a + b` is parsing `a`, then continuing with `b` from its value |
| `Uint64.RenderRoundTrip` | src/kraken.rs:47 | a `u64` cursor written in decimal parses back to itself |
| `KrakenScenarios.SampleCursor` | src/kraken.rs:257 | "1575145023655038533" parses to 1575145023655038533 |
| `KrakenScenarios.SampleTrade` | src/kraken.rs:149-163 | the test tuple adapts with volume from field 1 ("2.00000000"), price from field 0, the time field, pair "ETHEUR" |
| `KrakenScenarios.UnknownPair` | src/kraken.rs:327-352 | a body `{"error":["EQuery:Unknown asset pair"]}` makes `history` return `KrakenError(["EQuery:Unknown asset pair"])` after one `Trades` request |
| `KrakenScenarios.TwoTradeHistory` | src/kraken.rs:233-271 | `history` against the two-trade page yields a map holding two trades under "XETHZEUR" |
| `KrakenScenarios.FirstPoll` | src/kraken.rs:125-137 | the first poll of the two-page run fetches, takes "XETHZEUR" as the pair and the parsed cursor as the continuation, and yields the second trade |
| `KrakenScenarios.LastPoll` | src/kraken.rs:125-131 | a poll with an empty buffer that receives an empty page ends the stream after one request for the discovered key and cursor |
| `KrakenScenarios.TwoTradesThenEmpty` | src/kraken.rs:118-139 | against a stub that gives two trades and then an empty page, the stream yields the second trade, then the first, then ends; the two requests are (ETHEUR, since) and (XETHZEUR, parsed `last`) |

## Left out

- Floating point. `parse::<f64>()` of price and volume and
  `(time * 10_000.0) as u64` are kept symbolic, as `Parsed(text)` and
  `Scaled(seconds)`. The model does not compute their values, nor the panic
  of `parse::<f64>().unwrap()` on a non-numeric price or volume.
- `Kraken.TradeOf`: states that the timestamp is the wire time scaled by
  10 000, not the truncated integer itself, because of the floating-point
  omission above.
- JSON decoding by serde, including `#[serde(flatten)]` on `HistoryResponse`.
  A body is given by what it decodes to, and a body that fails to decode by the
  decoder's message.
- The HTTP transport of src/api.rs (reqwest, URL building, query encoding). It
  is the `respond` function of `Client`. The trait's `Box<dyn Error>` is
  replaced by the crate's `Error`.
- `Kraken::assets` and `Asset`: a fixed `Assets` request whose decoding is all
  serde. `Kraken.Kraken.Req` is specialised to the `Trades` query and response
  types, while `Settle` stays generic.
- async, `Stream` and tokio: the stream is a sequential `Next()` method. Its
  `match state.trades.pop() { None => return None, .. }` arm cannot be reached
  after the length checks, and the model leaves it out.
- The `Display` and `From` impls of src/error.rs (foreign error types, a
  constant message). src/trade.rs's unused `TradeAPI` trait.
- Diesel storage, configuration and the binaries (src/repo.rs, src/schema.rs,
  src/bin/*.rs).
