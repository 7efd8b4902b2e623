/** Order-book history of one token: a snapshot, then price changes. */
module BookHistory {
  import opened Trading
  import opened SourceMerge
  import opened Texts

  // ----- price levels

  /** Decimal text as the provider sends it: an exact decimal or nothing usable. */
  datatype Text = Unreadable | Exact(value: real)

  datatype BookLevels = BookLevels(bids: map<real, real>, asks: map<real, real>)

  /** Levels as they are kept: prices in [0, 1], sizes above zero. */
  predicate Sound(levels: map<real, real>) {
    forall p :: p in levels ==> 0.0 <= p <= 1.0 && levels[p] > 0.0
  }

  predicate SoundBook(book: BookLevels) {
    Sound(book.bids) && Sound(book.asks)
  }

  /** Sized levels from lowest to highest price. */
  predicate StrictlyAscending(levels: seq<Level>) {
    forall i, j :: 0 <= i < j < |levels| ==> levels[i].price < levels[j].price
  }

  predicate StrictlyDescending(levels: seq<Level>) {
    forall i, j :: 0 <= i < j < |levels| ==> levels[i].price > levels[j].price
  }

  /** The levels listed are exactly the levels of the map. */
  ghost predicate Lists(levels: seq<Level>, m: map<real, real>) {
    && (forall i :: 0 <= i < |levels| ==> levels[i].price in m && m[levels[i].price] == levels[i].qty)
    && (forall p :: p in m ==> Level(p, m[p]) in levels)
  }

  ghost predicate IsLowest(prices: set<real>, p: real) {
    p in prices && forall q :: q in prices ==> p <= q
  }

  lemma SomeMember<T>(s: set<T>) returns (x: T)
    requires |s| > 0
    ensures x in s
  {
    x :| x in s;
  }

  lemma {:induction false} LowestExists(prices: set<real>)
    requires |prices| > 0
    ensures exists p :: IsLowest(prices, p)
    decreases |prices|
  {
    var p := SomeMember(prices);
    var rest := prices - {p};
    if |rest| > 0 {
      LowestExists(rest);
      var q :| IsLowest(rest, q);
      var least := MinReal(p, q);
      forall r | r in prices ensures least <= r {
        assert r == p || r in rest;
      }
      assert IsLowest(prices, least);
    } else {
      assert prices == {p};
      assert IsLowest(prices, p);
    }
  }

  function Lowest(prices: set<real>): (p: real)
    requires |prices| > 0
    ensures IsLowest(prices, p)
  {
    LowestExists(prices);
    var p :| p in prices && forall q :: q in prices ==> p <= q;
    p
  }

  /** A sorted map read in key order. */
  function Ascending(m: map<real, real>): seq<Level>
    decreases |m|
  {
    if |m| == 0 then []
    else
      var p := Lowest(m.Keys);
      [Level(p, m[p])] + Ascending(m - {p})
  }

  lemma {:induction false} AscendingListsTheMap(m: map<real, real>)
    ensures StrictlyAscending(Ascending(m)) && Lists(Ascending(m), m)
    decreases |m|
  {
    if |m| > 0 {
      hide StrictlyAscending, Lists;
      var p := Lowest(m.Keys);
      AscendingListsTheMap(m - {p});
      LowestFirst(m, p, Ascending(m - {p}));
    }
  }

  lemma LowestFirst(m: map<real, real>, p: real, rest: seq<Level>)
    requires p in m && (forall q :: q in m.Keys ==> p <= q)
    requires StrictlyAscending(rest) && Lists(rest, m - {p})
    ensures var levels := [Level(p, m[p])] + rest; StrictlyAscending(levels) && Lists(levels, m)
  {
    var levels := [Level(p, m[p])] + rest;
    assert levels[0] == Level(p, m[p]);
    forall q | q in m ensures Level(q, m[q]) in levels {
      if q != p {
        assert q in m - {p};
      }
    }
  }

  function Reversed(levels: seq<Level>): (r: seq<Level>)
    ensures |r| == |levels| && forall i :: 0 <= i < |r| ==> r[i] == levels[|levels| - 1 - i]
  {
    seq(|levels|, i requires 0 <= i < |levels| => levels[|levels| - 1 - i])
  }

  /** The published form of a book: bids from the highest down, asks from the lowest up. */
  function ToOrderBook(book: BookLevels, timestampMs: Millis): (r: OrderBook)
    ensures StrictlyDescending(r.bids) && Lists(r.bids, book.bids)
    ensures StrictlyAscending(r.asks) && Lists(r.asks, book.asks)
    ensures r.timestampMs == timestampMs
  {
    AscendingListsTheMap(book.bids);
    AscendingListsTheMap(book.asks);
    ReversedLists(Ascending(book.bids), book.bids);
    OrderBook(Reversed(Ascending(book.bids)), Ascending(book.asks), timestampMs)
  }

  lemma ReversedLists(levels: seq<Level>, m: map<real, real>)
    requires StrictlyAscending(levels) && Lists(levels, m)
    ensures StrictlyDescending(Reversed(levels)) && Lists(Reversed(levels), m)
  {
    var back := Reversed(levels);
    forall l | l in levels ensures l in back {
      var i :| 0 <= i < |levels| && levels[i] == l;
      assert back[|levels| - 1 - i] == l;
    }
  }

  // ----- best prices

  function FirstPrice(levels: seq<Level>): Option<real> {
    if levels == [] then None else Some(levels[0].price)
  }

  /** The highest price among all levels. */
  function HighestPrice(levels: seq<Level>): Option<real> {
    if levels == [] then None
    else
      match HighestPrice(levels[1..])
      case None => Some(levels[0].price)
      case Some(p) => Some(MaxReal(levels[0].price, p))
  }

  /** The lowest price among all levels. */
  function LowestPrice(levels: seq<Level>): Option<real> {
    if levels == [] then None
    else
      match LowestPrice(levels[1..])
      case None => Some(levels[0].price)
      case Some(p) => Some(MinReal(levels[0].price, p))
  }

  lemma {:induction false} HighestIsFirst(levels: seq<Level>)
    requires StrictlyDescending(levels)
    ensures HighestPrice(levels) == FirstPrice(levels)
    decreases |levels|
  {
    if levels != [] {
      HighestIsFirst(levels[1..]);
    }
  }

  lemma {:induction false} LowestIsFirst(levels: seq<Level>)
    requires StrictlyAscending(levels)
    ensures LowestPrice(levels) == FirstPrice(levels)
    decreases |levels|
  {
    if levels != [] {
      LowestIsFirst(levels[1..]);
    }
  }

  /** On a published book the first level of each side is what a scan of the side finds. */
  lemma BestPricesAgree(book: BookLevels, timestampMs: Millis)
    ensures var b := ToOrderBook(book, timestampMs);
      HighestPrice(b.bids) == FirstPrice(b.bids) && LowestPrice(b.asks) == FirstPrice(b.asks)
  {
    var b := ToOrderBook(book, timestampMs);
    HighestIsFirst(b.bids);
    LowestIsFirst(b.asks);
  }

  // ----- provider events

  datatype Event = Event(
    marketId: string, conditionId: string, tokenId: string, eventType: string, outcome: Option<string>,
    timestamp: Millis, cursor: string,
    side: Option<string>, price: Option<Text>, sizeAfter: Option<Text>,
    bids: Option<seq<(Text, Text)>>, asks: Option<seq<(Text, Text)>>)

  datatype Page = Page(items: seq<Event>, nextCursor: Option<string>)

  datatype Token = Token(marketId: string, conditionId: string, tokenId: string, name: string)

  datatype Result<T> = Ok(value: T) | Err

  predicate IdentityMatches(event: Event, token: Token, eventType: string) {
    && event.marketId == token.marketId
    && Lower(event.conditionId) == Lower(token.conditionId)
    && event.tokenId == token.tokenId
    && event.eventType == eventType
    && (event.outcome.Some? ==> event.outcome.value == token.name)
  }

  predicate ValidDelta(event: Event) {
    && event.cursor != ""
    && (event.side == Some("BUY") || event.side == Some("SELL"))
    && event.price.Some? && event.price.value.Exact?
    && event.sizeAfter.Some? && event.sizeAfter.value.Exact?
    && 0.0 <= event.price.value.value <= 1.0
    && event.sizeAfter.value.value >= 0.0
  }

  /** A price change replaces one level, or removes it when nothing is left. */
  function Changed(levels: map<real, real>, price: real, size: real): map<real, real> {
    if size == 0.0 then levels - {price} else levels[price := size]
  }

  function Apply(book: BookLevels, event: Event): Result<BookLevels> {
    if !ValidDelta(event) then Err
    else
      var price, size := event.price.value.value, event.sizeAfter.value.value;
      if event.side == Some("BUY") then Ok(book.(bids := Changed(book.bids, price, size)))
      else Ok(book.(asks := Changed(book.asks, price, size)))
  }

  predicate ValidDeltas(events: seq<Event>) {
    forall i :: 0 <= i < |events| ==> ValidDelta(events[i])
  }

  /** A snapshot with price changes applied in order. */
  function Fold(start: BookLevels, events: seq<Event>): BookLevels
    requires ValidDeltas(events)
  {
    if events == [] then start
    else Apply(Fold(start, events[..|events| - 1]), events[|events| - 1]).value
  }

  lemma {:induction false} FoldIsSound(start: BookLevels, events: seq<Event>)
    requires SoundBook(start) && ValidDeltas(events)
    ensures SoundBook(Fold(start, events))
    decreases |events|
  {
    if events != [] {
      FoldIsSound(start, events[..|events| - 1]);
    }
  }

  function SideOf(book: BookLevels, side: string): map<real, real> {
    if side == "BUY" then book.bids else book.asks
  }

  predicate Touches(event: Event, side: string, price: real) {
    event.side == Some(side) && event.price == Some(Exact(price))
  }

  /** A level is what its last price change left, and the snapshot's when nothing changed it. */
  lemma {:induction false} LevelIsItsLastChange(start: BookLevels, events: seq<Event>, side: string, price: real, last: int)
    requires ValidDeltas(events) && (side == "BUY" || side == "SELL") && -1 <= last < |events|
    requires last >= 0 ==> Touches(events[last], side, price)
    requires forall i :: last < i < |events| ==> !Touches(events[i], side, price)
    ensures var levels := SideOf(Fold(start, events), side);
      if last < 0 then
        var was := SideOf(start, side);
        (price in levels <==> price in was) && (price in was ==> levels[price] == was[price])
      else
        var size := events[last].sizeAfter.value.value;
        (price in levels <==> size != 0.0) && (size != 0.0 ==> levels[price] == size)
    decreases |events|
  {
    if events != [] && last < |events| - 1 {
      var shorter := events[..|events| - 1];
      LevelIsItsLastChange(start, shorter, side, price, last);
      assert !Touches(events[|events| - 1], side, price);
    }
  }

  // ----- the snapshot

  predicate ReadableLevel(level: (Text, Text)) {
    level.0.Exact? && level.1.Exact? && 0.0 <= level.0.value <= 1.0 && level.1.value > 0.0
  }

  predicate ReadableLevels(levels: seq<(Text, Text)>) {
    && (forall i :: 0 <= i < |levels| ==> ReadableLevel(levels[i]))
    && (forall i, j :: 0 <= i < j < |levels| ==> levels[i].0 != levels[j].0)
  }

  ghost predicate Holds(levels: seq<(Text, Text)>, m: map<real, real>) {
    && (forall i :: 0 <= i < |levels| ==>
      levels[i].0.Exact? && levels[i].0.value in m && levels[i].1 == Exact(m[levels[i].0.value]))
    && (forall p :: p in m ==> (Exact(p), Exact(m[p])) in levels)
  }

  /** Reads one side of a snapshot; a repeated price is an error. */
  method ParseLevels(levels: seq<(Text, Text)>) returns (r: Result<map<real, real>>)
    ensures r.Ok? <==> ReadableLevels(levels)
    ensures r.Ok? ==> Holds(levels, r.value) && Sound(r.value)
  {
    var parsed: map<real, real> := map[];
    for i := 0 to |levels|
      invariant ReadableLevels(levels[..i]) && Holds(levels[..i], parsed) && Sound(parsed)
    {
      assert levels[..i + 1] == levels[..i] + [levels[i]];
      if !ReadableLevel(levels[i]) {
        return Err;
      }
      var price, size := levels[i].0.value, levels[i].1.value;
      if price in parsed {
        assert (Exact(price), Exact(parsed[price])) in levels[..i];
        return Err;
      }
      parsed := parsed[price := size];
    }
    assert levels[..|levels|] == levels;
    return Ok(parsed);
  }

  // ----- the history of a token

  datatype Source = Source(market: string, outcome: Outcome, token: Token)

  datatype BookUpdate = BookUpdate(market: string, outcome: Outcome, book: OrderBook)

  function StreamId(src: Source): string {
    "market:" + src.market + ":" + (if src.outcome == Up then "up" else "down")
  }

  function EnvelopeFor(src: Source, timestampMs: Millis, book: BookLevels, frame: nat): Envelope<BookUpdate> {
    Envelope(
      Pm(timestampMs, 0, StreamId(src), 0, frame),
      BookUpdate(src.market, src.outcome, ToOrderBook(book, timestampMs)))
  }

  ghost predicate Chronological(events: seq<Event>) {
    forall i, j :: 0 <= i < j < |events| ==> events[i].timestamp <= events[j].timestamp
  }

  /** Price changes received: usable, in time order and between two instants. */
  ghost predicate Feed(events: seq<Event>, from: Millis, last: Millis, to: Millis) {
    && ValidDeltas(events)
    && Chronological(events)
    && from <= last
    && forall i :: 0 <= i < |events| ==> from <= events[i].timestamp <= last && events[i].timestamp < to
  }

  /** Exactly the first `base` events come before the window. */
  ghost predicate SplitAt(events: seq<Event>, base: nat, from: Millis) {
    && base <= |events|
    && (forall i :: 0 <= i < base ==> events[i].timestamp < from)
    && (forall i :: base <= i < |events| ==> from <= events[i].timestamp)
  }

  ghost predicate AllBefore(events: seq<Event>, from: Millis) {
    forall i :: 0 <= i < |events| ==> events[i].timestamp < from
  }

  lemma SplitHere(before: seq<Event>, after: seq<Event>, from: Millis)
    requires AllBefore(before, from) && forall i :: 0 <= i < |after| ==> from <= after[i].timestamp
    ensures SplitAt(before + after, |before|, from)
  {
  }

  lemma OneMoreBefore(events: seq<Event>, e: Event, from: Millis)
    requires AllBefore(events, from) && e.timestamp < from
    ensures AllBefore(events + [e], from)
  {
  }

  /** The `k`-th book: the baseline at the window start, then one book per event in the window. */
  ghost function BookAt(src: Source, start: BookLevels, events: seq<Event>, base: nat, from: Millis, k: nat)
    : Envelope<BookUpdate>
    requires ValidDeltas(events) && base + k <= |events|
  {
    var time := if k == 0 then from else events[base + k - 1].timestamp;
    EnvelopeFor(src, time, Fold(start, events[..base + k]), k)
  }

  ghost predicate IsHistory(
    said: seq<Envelope<BookUpdate>>, src: Source, start: BookLevels, events: seq<Event>, base: nat, from: Millis)
  {
    && ValidDeltas(events)
    && base <= |events|
    && |said| == 1 + |events| - base
    && forall k :: 0 <= k < |said| ==> said[k] == BookAt(src, start, events, base, from, k)
  }

  lemma {:induction false} FoldPrefix(start: BookLevels, events: seq<Event>, e: Event)
    requires ValidDeltas(events) && ValidDelta(e)
    ensures ValidDeltas(events + [e]) && Fold(start, events + [e]) == Apply(Fold(start, events), e).value
  {
    assert (events + [e])[..|events|] == events;
  }

  /** A history grows by the book after one more event. */
  lemma HistoryGrows(
    said: seq<Envelope<BookUpdate>>, src: Source, start: BookLevels, events: seq<Event>, base: nat, from: Millis,
    e: Event)
    requires IsHistory(said, src, start, events, base, from) && ValidDelta(e)
    ensures ValidDeltas(events + [e])
    ensures var book := Apply(Fold(start, events), e).value;
      IsHistory(said + [EnvelopeFor(src, e.timestamp, book, |said|)], src, start, events + [e], base, from)
  {
    hide Apply, ToOrderBook, ValidDelta;
    FoldPrefix(start, events, e);
    var longer := events + [e];
    forall k | 0 <= k < |said| ensures BookAt(src, start, longer, base, from, k) == said[k] {
      assert longer[..base + k] == events[..base + k];
    }
    assert longer[..base + |said|] == longer;
  }

  /** Histories are sorted by key and stay in their window, so they can be merged. */
  lemma HistoryIsSorted(
    said: seq<Envelope<BookUpdate>>, src: Source, start: BookLevels, events: seq<Event>, base: nat, from: Millis,
    to: Millis, i: nat, j: nat)
    requires IsHistory(said, src, start, events, base, from) && Chronological(events) && SplitAt(events, base, from)
    requires from < to && (forall k :: 0 <= k < |events| ==> events[k].timestamp < to)
    requires i < j < |said|
    ensures Compare(said[i].key, said[j].key) == Less
    ensures from <= said[i].key.timestampMs <= said[j].key.timestampMs < to
  {
    hide Fold, ToOrderBook, ValidDeltas;
    assert said[i] == BookAt(src, start, events, base, from, i);
    assert said[j] == BookAt(src, start, events, base, from, j);
    TextOrder(StreamId(src), StreamId(src));
  }

  /** Every published book is sound and best level first. */
  lemma HistoryIsWellFormed(
    said: seq<Envelope<BookUpdate>>, src: Source, start: BookLevels, events: seq<Event>, base: nat, from: Millis,
    k: nat)
    requires IsHistory(said, src, start, events, base, from) && SoundBook(start) && k < |said|
    ensures var b := said[k].fact.book;
      && StrictlyDescending(b.bids) && StrictlyAscending(b.asks)
      && (forall l :: l in b.bids || l in b.asks ==> l.qty > 0.0 && 0.0 <= l.price <= 1.0)
      && HighestPrice(b.bids) == FirstPrice(b.bids) && LowestPrice(b.asks) == FirstPrice(b.asks)
  {
    hide Fold, ToOrderBook, ValidDelta;
    var book := Fold(start, events[..base + k]);
    FoldIsSound(start, events[..base + k]);
    BestPricesAgree(book, said[k].key.timestampMs);
    assert said[k] == BookAt(src, start, events, base, from, k);
    var b := said[k].fact.book;
    forall l | l in b.bids || l in b.asks ensures l.qty > 0.0 && 0.0 <= l.price <= 1.0 {
      if l in b.bids {
        var i :| 0 <= i < |b.bids| && b.bids[i] == l;
        assert l.price in book.bids;
      } else {
        var i :| 0 <= i < |b.asks| && b.asks[i] == l;
        assert l.price in book.asks;
      }
    }
  }

  /**
   * What every published envelope says: the token's own market and outcome, a book of the key's time that lists exactly
   * the folded levels, and a key at the time of its event, of rank 0 and epoch 0, numbered by frames.
   */
  lemma EnvelopesAreFaithful(
    said: seq<Envelope<BookUpdate>>, src: Source, start: BookLevels, events: seq<Event>, base: nat, from: Millis, k: nat)
    requires IsHistory(said, src, start, events, base, from) && k < |said|
    ensures var key, update, folded := said[k].key, said[k].fact, Fold(start, events[..base + k]);
      && update.market == src.market && update.outcome == src.outcome
      && update.book.timestampMs == key.timestampMs == (if k == 0 then from else events[base + k - 1].timestamp)
      && StrictlyDescending(update.book.bids) && Lists(update.book.bids, folded.bids)
      && StrictlyAscending(update.book.asks) && Lists(update.book.asks, folded.asks)
      && key.Pm? && key.rank == 0 && key.epoch == 0 && key.frame == k
      && key.streamId == "market:" + src.market + (match src.outcome case Up => ":up" case Down => ":down")
  {
    hide Fold, ToOrderBook, ValidDelta, StrictlyAscending, StrictlyDescending, Lists;
    assert said[k] == BookAt(src, start, events, base, from, k);
    assert ":" + "up" == ":up" && ":" + "down" == ":down";
  }

  // ----- reading a page

  /** What one price change on a page must satisfy, given the ones before it. */
  ghost predicate Follows(
    items: seq<Event>, i: nat, token: Token, from: Millis, last: Millis, to: Millis, lastCursor: string)
    requires i < |items|
  {
    var e := items[i];
    && IdentityMatches(e, token, "price_change")
    && from <= e.timestamp < to
    && (if i == 0 then last else items[i - 1].timestamp) <= e.timestamp
    && e.cursor != (if i == 0 then lastCursor else items[i - 1].cursor)
    && (forall j :: 0 <= j < i ==> items[j].cursor != e.cursor)
    && ValidDelta(e)
  }

  ghost predicate PageFollows(
    items: seq<Event>, token: Token, from: Millis, last: Millis, to: Millis, lastCursor: string)
  {
    forall i :: 0 <= i < |items| ==> Follows(items, i, token, from, last, to, lastCursor)
  }

  method CheckPage(items: seq<Event>, token: Token, from: Millis, last: Millis, to: Millis, lastCursor: string)
    returns (ok: bool, newLast: Millis, newCursor: string)
    ensures ok <==> PageFollows(items, token, from, last, to, lastCursor)
    ensures ok ==> newLast == (if items == [] then last else items[|items| - 1].timestamp)
    ensures ok ==> newCursor == (if items == [] then lastCursor else items[|items| - 1].cursor)
  {
    hide ValidDelta, IdentityMatches;
    ok, newLast, newCursor := true, last, lastCursor;
    var cursors: set<string> := {};
    for i := 0 to |items|
      invariant ok && forall j :: 0 <= j < i ==> Follows(items, j, token, from, last, to, lastCursor)
      invariant newLast == (if i == 0 then last else items[i - 1].timestamp)
      invariant newCursor == (if i == 0 then lastCursor else items[i - 1].cursor)
      invariant cursors == set j | 0 <= j < i :: items[j].cursor
    {
      var e := items[i];
      assert e.cursor in cursors <==> exists j :: 0 <= j < i && items[j].cursor == e.cursor;
      if !IdentityMatches(e, token, "price_change") || e.timestamp < from || e.timestamp < newLast ||
         e.timestamp >= to || e.cursor == "" || e.cursor == newCursor || e.cursor in cursors || !ValidDelta(e) {
        assert !Follows(items, i, token, from, last, to, lastCursor) by { NeedsCursor(e); }
        return false, newLast, newCursor;
      }
      cursors := cursors + {e.cursor};
      newLast, newCursor := e.timestamp, e.cursor;
    }
  }

  lemma NeedsCursor(e: Event)
    ensures ValidDelta(e) ==> e.cursor != ""
  {
  }

  /** A checked page extends the feed. */
  lemma PageExtendsFeed(
    events: seq<Event>, items: seq<Event>, token: Token, from: Millis, last: Millis, to: Millis, lastCursor: string)
    requires Feed(events, from, last, to)
    requires PageFollows(items, token, from, last, to, lastCursor)
    ensures Feed(events + items, from, if items == [] then last else items[|items| - 1].timestamp, to)
  {
    hide ValidDelta, IdentityMatches;
    forall i, j | 0 <= i <= j < |items| ensures last <= items[i].timestamp <= items[j].timestamp {
      PageInOrder(items, i, j, token, from, last, to, lastCursor);
    }
    assert ValidDeltas(items) && forall i :: 0 <= i < |items| ==> items[i].timestamp < to by {
      forall i | 0 <= i < |items| ensures ValidDelta(items[i]) && items[i].timestamp < to {
        assert Follows(items, i, token, from, last, to, lastCursor);
      }
    }
    Appended(events, items, from, last, if items == [] then last else items[|items| - 1].timestamp, to);
  }

  lemma Appended(events: seq<Event>, items: seq<Event>, from: Millis, last: Millis, newLast: Millis, to: Millis)
    requires Feed(events, from, last, to) && ValidDeltas(items) && Chronological(items) && last <= newLast
    requires forall i :: 0 <= i < |items| ==> last <= items[i].timestamp <= newLast && items[i].timestamp < to
    ensures Feed(events + items, from, newLast, to)
  {
    hide ValidDelta;
    var all := events + items;
    assert forall i :: |events| <= i < |all| ==> all[i] == items[i - |events|];
  }

  lemma {:induction false} PageInOrder(
    items: seq<Event>, i: nat, j: nat, token: Token, from: Millis, last: Millis, to: Millis, lastCursor: string)
    requires i <= j < |items|
    requires forall k :: 0 <= k < |items| ==> Follows(items, k, token, from, last, to, lastCursor)
    ensures last <= items[i].timestamp <= items[j].timestamp
    decreases j
  {
    hide ValidDelta, IdentityMatches;
    assert Follows(items, j, token, from, last, to, lastCursor);
    if i < j {
      PageInOrder(items, i, j - 1, token, from, last, to, lastCursor);
    } else if j > 0 {
      PageInOrder(items, j - 1, j - 1, token, from, last, to, lastCursor);
    }
  }

  // ----- the provider's feed

  /** Cursors read one after the other: each page names the next, and the last one names `next`. */
  ghost predicate Chain(provider: map<string, Page>, first: string, read: seq<string>, next: Option<string>) {
    && (forall i :: 0 <= i < |read| ==> read[i] in provider)
    && (if read == [] then next == Some(first)
        else read[0] == first && provider[read[|read| - 1]].nextCursor == next)
    && (forall i :: 0 < i < |read| ==> provider[read[i - 1]].nextCursor == Some(read[i]))
  }

  /** Every price change on the pages read, in order. */
  ghost function FeedOf(provider: map<string, Page>, read: seq<string>): seq<Event> {
    if read == [] then []
    else
      var last := read[|read| - 1];
      FeedOf(provider, read[..|read| - 1]) + (if last in provider then provider[last].items else [])
  }

  /** The whole feed after a cursor: a chain of pages that ends. */
  ghost predicate IsWholeFeed(provider: map<string, Page>, first: string, events: seq<Event>) {
    exists read :: Chain(provider, first, read, None) && events == FeedOf(provider, read)
  }

  lemma ChainGrows(provider: map<string, Page>, first: string, read: seq<string>, cursor: string)
    requires Chain(provider, first, read, Some(cursor)) && cursor in provider
    ensures Chain(provider, first, read + [cursor], provider[cursor].nextCursor)
    ensures FeedOf(provider, read + [cursor]) == FeedOf(provider, read) + provider[cursor].items
  {
    assert (read + [cursor])[..|read|] == read;
  }

  lemma {:induction false} ChainsAgree(
    provider: map<string, Page>, first: string, one: seq<string>, two: seq<string>, a: Option<string>, i: nat)
    requires Chain(provider, first, one, a) && Chain(provider, first, two, None) && i < |one|
    ensures i < |two| && one[i] == two[i]
    decreases i
  {
    if i > 0 {
      ChainsAgree(provider, first, one, two, a, i - 1);
      assert provider[one[i - 1]].nextCursor == Some(one[i]);
      assert provider[two[i - 1]].nextCursor == Some(one[i]);
    }
  }

  /** A provider has at most one whole feed after a cursor. */
  lemma WholeFeedIsUnique(provider: map<string, Page>, first: string, one: seq<Event>, two: seq<Event>)
    requires IsWholeFeed(provider, first, one) && IsWholeFeed(provider, first, two)
    ensures one == two
  {
    var a :| Chain(provider, first, a, None) && one == FeedOf(provider, a);
    var b :| Chain(provider, first, b, None) && two == FeedOf(provider, b);
    ChainsAgree(provider, first, a, b, None, |a| - 1);
    ChainsAgree(provider, first, b, a, None, |b| - 1);
    forall i | 0 <= i < |a| ensures a[i] == b[i] {
      ChainsAgree(provider, first, a, b, None, i);
    }
    assert a == b;
  }

  /** The time and cursor of the last price change received, or the snapshot's. */
  ghost function LastTime(snapshot: Millis, events: seq<Event>): Millis {
    if events == [] then snapshot else events[|events| - 1].timestamp
  }

  ghost function LastCursor(snapshot: string, events: seq<Event>): string {
    if events == [] then snapshot else events[|events| - 1].cursor
  }

  /** The next page can be taken: present, not an empty page that goes on, checked, and going on somewhere new. */
  ghost predicate Fetchable(
    provider: map<string, Page>, cursor: string, seen: set<string>, token: Token, from: Millis, last: Millis, to: Millis,
    lastCursor: string)
  {
    && cursor in provider
    && var page := provider[cursor];
    && (page.items == [] ==> page.nextCursor.None?)
    && PageFollows(page.items, token, from, last, to, lastCursor)
    && (page.nextCursor.Some? ==> page.nextCursor.value != "" && page.nextCursor.value !in seen)
  }

  ghost function Cursors(read: seq<string>, next: Option<string>): set<string> {
    (set c | c in read) + (if next.Some? then {next.value} else {})
  }

  /** Where a replay starts reading and what it accepts. */
  datatype Reader = Reader(provider: map<string, Page>, first: string, token: Token, from: Millis, to: Millis)

  /** The page under `cursor` can be taken after the pages read. */
  ghost predicate Continues(f: Reader, read: seq<string>, cursor: string) {
    var events := FeedOf(f.provider, read);
    Fetchable(
      f.provider, cursor, Cursors(read, Some(cursor)), f.token, f.from, LastTime(f.from, events), f.to,
      LastCursor(f.first, events))
  }

  ghost predicate GoodPages(f: Reader, read: seq<string>) {
    forall k :: 0 <= k < |read| ==> Continues(f, read[..k], read[k])
  }

  /** The whole feed can be read: the chain ends and every page on it can be taken in turn. */
  ghost predicate ReadableFeed(f: Reader) {
    exists read :: Chain(f.provider, f.first, read, None) && GoodPages(f, read)
  }

  lemma GoodPagesGrow(f: Reader, read: seq<string>, cursor: string)
    requires GoodPages(f, read) && Continues(f, read, cursor)
    ensures GoodPages(f, read + [cursor])
  {
    hide Continues;
    var longer := read + [cursor];
    forall k | 0 <= k < |longer| ensures Continues(f, longer[..k], longer[k]) {
      assert longer[..k] == if k < |read| then read[..k] else read;
    }
  }

  /** A price change of this token that a book can take, inside the time asked for. */
  predicate IsOurs(e: Event, f: Reader) {
    && e.marketId == f.token.marketId && e.tokenId == f.token.tokenId
    && Lower(e.conditionId) == Lower(f.token.conditionId) && (e.outcome == None || e.outcome == Some(f.token.name))
    && e.eventType == "price_change" && e.cursor != "" && f.from <= e.timestamp < f.to
    && e.side in {Some("BUY"), Some("SELL")}
    && e.price.Some? && e.price.value.Exact? && 0.0 <= e.price.value.value <= 1.0
    && e.sizeAfter.Some? && e.sizeAfter.value.Exact? && e.sizeAfter.value.value >= 0.0
  }

  /** Whatever the provider sends, only price changes of this token, in time order, are ever read. */
  lemma {:induction false} FeedIsOurs(f: Reader, read: seq<string>)
    requires GoodPages(f, read)
    ensures forall e :: e in FeedOf(f.provider, read) ==> IsOurs(e, f)
    decreases |read|
  {
    hide IsOurs;
    if read != [] {
      var n := |read| - 1;
      assert forall k :: 0 <= k < n ==> read[..n][..k] == read[..k];
      FeedIsOurs(f, read[..n]);
      assert Continues(f, read[..n], read[n]);
      PageIsOurs(f, read[..n], read[n]);
    }
  }

  /** A page brings no cursor twice, and not the cursor read last before it. */
  lemma CursorsAreNew(f: Reader, read: seq<string>, cursor: string)
    requires Continues(f, read, cursor)
    ensures var items, before := f.provider[cursor].items, FeedOf(f.provider, read);
      && (forall i, j :: 0 <= i < j < |items| ==> items[i].cursor != items[j].cursor)
      && (items != [] ==> items[0].cursor != (if before == [] then f.first else before[|before| - 1].cursor))
      && (items == [] ==> f.provider[cursor].nextCursor == None)
      && (f.provider[cursor].nextCursor != None ==>
        f.provider[cursor].nextCursor.value != "" && f.provider[cursor].nextCursor.value !in read + [cursor])
  {
    hide FeedOf, IdentityMatches, ValidDelta;
    var items, events := f.provider[cursor].items, FeedOf(f.provider, read);
    forall i, j | 0 <= i < j < |items| ensures items[i].cursor != items[j].cursor {
      assert Follows(items, j, f.token, f.from, LastTime(f.from, events), f.to, LastCursor(f.first, events));
    }
    if items != [] {
      assert Follows(items, 0, f.token, f.from, LastTime(f.from, events), f.to, LastCursor(f.first, events));
    }
  }

  lemma PageIsOurs(f: Reader, read: seq<string>, cursor: string)
    requires Continues(f, read, cursor)
    ensures forall e :: e in f.provider[cursor].items ==> IsOurs(e, f)
  {
    hide FeedOf, Cursors;
    var items, events := f.provider[cursor].items, FeedOf(f.provider, read);
    forall e | e in items ensures IsOurs(e, f) {
      var i :| 0 <= i < |items| && items[i] == e;
      assert Follows(items, i, f.token, f.from, LastTime(f.from, events), f.to, LastCursor(f.first, events));
    }
  }

  /** A page that cannot be taken makes the whole feed unreadable. */
  lemma BadPageBreaksFeed(f: Reader, read: seq<string>, cursor: string)
    requires Chain(f.provider, f.first, read, Some(cursor)) && !Continues(f, read, cursor)
    ensures !ReadableFeed(f)
  {
    hide Continues;
    forall whole | Chain(f.provider, f.first, whole, None) ensures !GoodPages(f, whole) {
      var n := |read|;
      forall i | 0 <= i < n ensures i < |whole| && read[i] == whole[i] {
        ChainsAgree(f.provider, f.first, read, whole, Some(cursor), i);
      }
      NextOnChain(f, read, whole, cursor);
      assert whole[..n] == read;
    }
  }

  lemma NextOnChain(f: Reader, read: seq<string>, whole: seq<string>, cursor: string)
    requires Chain(f.provider, f.first, read, Some(cursor)) && Chain(f.provider, f.first, whole, None)
    requires forall i :: 0 <= i < |read| ==> i < |whole| && read[i] == whole[i]
    ensures |read| < |whole| && whole[|read|] == cursor
  {
    var n := |read|;
    if n > 0 {
      assert whole[n - 1] == read[n - 1];
    }
  }

  /** What a replay remembers is what the pages read so far hold. */
  ghost predicate InStep(
    f: Reader, read: seq<string>, next: Option<string>, events: seq<Event>, lastTime: Millis, lastCursor: string,
    seen: set<string>)
  {
    && Feed(events, f.from, lastTime, f.to)
    && Chain(f.provider, f.first, read, next)
    && events == FeedOf(f.provider, read)
    && lastTime == LastTime(f.from, events)
    && lastCursor == LastCursor(f.first, events)
    && seen == Cursors(read, next)
    && GoodPages(f, read)
    && (next.Some? ==> next.value !in read)
  }

  /** What is checked of a page is checked against the pages read so far. */
  lemma StepIsFetchable(
    f: Reader, read: seq<string>, cursor: string, events: seq<Event>, lastTime: Millis, lastCursor: string,
    seen: set<string>)
    requires InStep(f, read, Some(cursor), events, lastTime, lastCursor, seen)
    ensures Continues(f, read, cursor) <==>
      Fetchable(f.provider, cursor, seen, f.token, f.from, lastTime, f.to, lastCursor)
    ensures !Continues(f, read, cursor) ==> !ReadableFeed(f)
    ensures cursor !in read
  {
    hide Feed, Chain, GoodPages, Cursors, Fetchable, FeedOf, ReadableFeed;
    if !Continues(f, read, cursor) {
      BadPageBreaksFeed(f, read, cursor);
    }
  }

  /** Taking a page that continues the chain keeps the replay in step. */
  lemma PageKeepsStep(
    f: Reader, read: seq<string>, cursor: string, events: seq<Event>, lastTime: Millis, lastCursor: string,
    seen: set<string>)
    requires InStep(f, read, Some(cursor), events, lastTime, lastCursor, seen) && Continues(f, read, cursor)
    ensures var page := f.provider[cursor];
      InStep(
        f, read + [cursor], page.nextCursor, events + page.items,
        if page.items == [] then lastTime else page.items[|page.items| - 1].timestamp,
        if page.items == [] then lastCursor else page.items[|page.items| - 1].cursor,
        if page.nextCursor.Some? then seen + {page.nextCursor.value} else seen)
  {
    hide Feed, Chain, GoodPages, PageFollows, FeedOf;
    var page := f.provider[cursor];
    PageExtendsFeed(events, page.items, f.token, f.from, lastTime, f.to, lastCursor);
    ChainGrows(f.provider, f.first, read, cursor);
    GoodPagesGrow(f, read, cursor);
  }

  // ----- the replay of one token

  class TokenReplay {
    const src: Source
    const fromMs: Millis
    const toMs: Millis
    /** The provider: price changes after a cursor, one page each. */
    const provider: map<string, Page>
    const snapshotTimestampMs: Millis
    const snapshotCursor: string

    var book: BookLevels
    var nextCursor: Option<string>
    var pages: seq<Event>
    var seenPageCursors: set<string>
    var lastEventCursor: string
    var lastTimestampMs: Millis
    var exhausted: bool
    var baselineEmitted: bool
    var pendingEvent: Option<Event>
    var frameSequence: nat

    /** The book of the snapshot. */
    ghost const start: BookLevels
    /** Price changes taken from the pages so far. */
    ghost var taken: seq<Event>
    /** How many of them come before the window. */
    ghost var base: nat
    /** Books published so far. */
    ghost var said: seq<Envelope<BookUpdate>>
    /** Cursors of the pages asked for, in order. */
    ghost var read: seq<string>

    /** Price changes the book reflects. */
    ghost function Applied(): seq<Event>
      reads this
    {
      if pendingEvent.Some? && taken != [] then taken[..|taken| - 1] else taken
    }

    ghost predicate Reading()
      reads this
    {
      && SoundBook(start)
      && snapshotTimestampMs <= fromMs < toMs
      && exhausted == nextCursor.None?
      && InStep(Feeding(), read, nextCursor, taken + pages, lastTimestampMs, lastEventCursor, seenPageCursors)
    }

    ghost function Feeding(): Reader {
      Reader(provider, snapshotCursor, src.token, snapshotTimestampMs, toMs)
    }

    /** The next page can be taken. */
    ghost predicate CanFetch()
      reads this
    {
      nextCursor.Some? && Continues(Feeding(), read, nextCursor.value)
    }

    ghost predicate Telling()
      reads this
    {
      && ValidDeltas(Applied())
      && book == Fold(start, Applied())
      && frameSequence == |said|
      && (pendingEvent.Some? ==> taken != [] && pendingEvent.value == taken[|taken| - 1])
      && (if baselineEmitted
          then IsHistory(said, src, start, Applied(), base, fromMs) && SplitAt(taken, base, fromMs) &&
            (|taken| > base || (exhausted && pages == [] && pendingEvent.None?))
          else said == [] && pendingEvent.None? && AllBefore(taken, fromMs))
    }

    ghost predicate Valid()
      reads this
    {
      Reading() && Telling()
    }

    constructor (
      src: Source, fromMs: Millis, toMs: Millis, provider: map<string, Page>, snapshot: Event, book: BookLevels)
      requires snapshot.timestamp <= fromMs < toMs && SoundBook(book)
      ensures Valid() && !baselineEmitted && said == [] && start == book && read == []
      ensures snapshotCursor == snapshot.cursor && snapshotTimestampMs == snapshot.timestamp
      ensures this.src == src && this.fromMs == fromMs && this.toMs == toMs && this.provider == provider
    {
      this.src, this.fromMs, this.toMs, this.provider := src, fromMs, toMs, provider;
      snapshotTimestampMs, lastTimestampMs := snapshot.timestamp, snapshot.timestamp;
      this.book, start := book, book;
      nextCursor, lastEventCursor := Some(snapshot.cursor), snapshot.cursor;
      seenPageCursors, snapshotCursor, read := {snapshot.cursor}, snapshot.cursor, [];
      pages, taken, said, pendingEvent := [], [], [], None;
      exhausted, baselineEmitted, frameSequence, base := false, false, 0, 0;
    }

    /** Pages still to be asked for. */
    ghost function Unread(): nat
      reads this
    {
      Remaining(provider.Keys, read)
    }

    ghost function Steps(): nat
      reads this
    {
      (if baselineEmitted then 0 else 2) + (if pendingEvent.Some? then 1 else 0)
    }

    /** Less is left to read, or to publish, than before. */
    ghost predicate Progress(unread: nat, queued: nat, steps: nat)
      reads this
    {
      Unread() < unread || (Unread() == unread && (|pages| < queued || (|pages| == queued && Steps() < steps)))
    }

    /** Every book of the window, read to the end of the feed or to the first error. */
    method ReplayAll() returns (stream: Stream<BookUpdate>)
      requires Valid() && !baselineEmitted
      modifies this
      ensures stream.items == said && FromToken(stream, fromMs, toMs)
      ensures !stream.fails ==> WholeHistory(said, src, start, Feeding(), fromMs)
      ensures !stream.fails ==> ReadableFeed(Feeding())
      ensures ReadableFeed(Feeding()) && |said| < I64_MAX ==> !stream.fails
    {
      hide InStep, IsHistory, SplitAt, ReadableFeed, FromToken, Feed, WholeHistory, IsWholeFeed, Telling;
      stream := Stream([], false);
      assert FromToken(Stream([], true), fromMs, toMs) && FromToken(Stream([], false), fromMs, toMs) by {
        NothingPublished(fromMs, toMs);
      }
      assert said == [] by { NothingSaid(this); }
      while true
        invariant Valid() && stream == Stream(said, false)
        invariant FromToken(stream, fromMs, toMs) && FromToken(Stream(said, true), fromMs, toMs)
        decreases Unread(), |pages|, Steps()
      {
        var next := NextBookUpdate();
        if next.Err? {
          return Stream(stream.items, true);
        }
        if next.value.None? {
          ToldEverything(this);
          return;
        }
        stream := Stream(stream.items + [next.value.value], false);
        ValidIsPublished(this);
        PublishedIsFromToken(this);
      }
    }

    /** The next price change, asking for another page when the current one is used up. */
    method NextDelta() returns (r: Result<Option<Event>>)
      requires Reading()
      modifies this`pages, this`nextCursor, this`seenPageCursors, this`lastEventCursor, this`lastTimestampMs,
        this`exhausted, this`taken, this`read
      ensures r.Ok? ==> Reading()
      ensures r.Ok? && r.value.Some? ==> taken == old(taken) + [r.value.value]
      ensures r.Ok? && r.value.Some? ==>
        Unread() < old(Unread()) || (Unread() == old(Unread()) && |pages| < old(|pages|))
      ensures r.Ok? && r.value.None? ==> taken == old(taken) && pages == [] && exhausted
      ensures r.Ok? && r.value.None? ==>
        Unread() < old(Unread()) || (Unread() == old(Unread()) && |pages| == old(|pages|))
      ensures r.Err? ==> taken == old(taken)
      ensures r.Err? <==> old(pages == [] && !exhausted && !CanFetch())
      ensures r.Err? ==> !ReadableFeed(Feeding())
      ensures old(pages) == [] && old(exhausted) ==> r == Ok(None)
    {
      hide InStep, SoundBook, Continues, Remaining, ReadableFeed;
      while true
        invariant Reading() && taken == old(taken)
        invariant old(pages) == [] && old(exhausted) ==> pages == [] && exhausted
        invariant pages == [] && !exhausted ==>
          old(pages) == [] && !old(exhausted) && CanFetch() == old(CanFetch())
        invariant old(pages) == [] && !old(exhausted) && (pages != [] || exhausted) ==> old(CanFetch())
        invariant Unread() < old(Unread()) || (Unread() == old(Unread()) && |pages| == old(|pages|))
        decreases if pages == [] && !exhausted then 1 else 0
      {
        if pages != [] {
          var event := pages[0];
          assert taken + pages == (taken + [event]) + pages[1..];
          taken, pages := taken + [event], pages[1..];
          return Ok(Some(event));
        }
        if exhausted {
          return Ok(None);
        }
        var ok := FetchPage();
        if !ok {
          return Err;
        }
      }
    }

    /** Asks for the next page and checks it against everything received before. */
    method FetchPage() returns (ok: bool)
      requires Reading() && pages == [] && !exhausted
      modifies this`pages, this`nextCursor, this`seenPageCursors, this`lastEventCursor, this`lastTimestampMs,
        this`exhausted, this`read
      ensures ok <==> old(CanFetch())
      ensures !ok ==> !ReadableFeed(Feeding())
      ensures ok ==> Reading() && Unread() < old(Unread()) && (pages != [] || exhausted)
      ensures ok ==>
        var page := provider[old(nextCursor).value];
        read == old(read) + [old(nextCursor).value] && pages == page.items && nextCursor == page.nextCursor
    {
      hide InStep, SoundBook, PageFollows, Remaining, ReadableFeed, Continues;
      var cursor := nextCursor.value;
      assert taken + pages == taken;
      StepIsFetchable(Feeding(), read, cursor, taken, lastTimestampMs, lastEventCursor, seenPageCursors);
      if cursor !in provider {
        return false;
      }
      var page := provider[cursor];
      if page.items == [] && page.nextCursor.Some? {
        return false;
      }
      var valid, newLast, newCursor :=
        CheckPage(page.items, src.token, snapshotTimestampMs, lastTimestampMs, toMs, lastEventCursor);
      if !valid {
        return false;
      }
      var next := page.nextCursor;
      if next.Some? && (next.value == "" || next.value in seenPageCursors) {
        return false;
      }
      PageKeepsStep(Feeding(), read, cursor, taken, lastTimestampMs, lastEventCursor, seenPageCursors);
      FetchMakesProgress(provider.Keys, read, cursor);
      lastTimestampMs, lastEventCursor, nextCursor, pages := newLast, newCursor, next, page.items;
      seenPageCursors := if next.Some? then seenPageCursors + {next.value} else seenPageCursors;
      exhausted := next.None?;
      read := read + [cursor];
      return true;
    }

    /** Publishes the current book. */
    method MakeEnvelope(timestampMs: Millis) returns (r: Result<Envelope<BookUpdate>>)
      modifies this`frameSequence
      ensures r.Ok? <==> old(frameSequence) < I64_MAX
      ensures r.Ok? ==> r.value == EnvelopeFor(src, timestampMs, book, old(frameSequence))
      ensures r.Ok? ==> frameSequence == old(frameSequence) + 1
    {
      if frameSequence >= I64_MAX {
        return Err;
      }
      frameSequence := frameSequence + 1;
      return Ok(EnvelopeFor(src, timestampMs, book, frameSequence - 1));
    }

    /** The next book: the baseline first, then one per price change in the window. */
    method NextBookUpdate() returns (r: Result<Option<Envelope<BookUpdate>>>)
      requires Valid()
      modifies this
      ensures r.Ok? ==> Valid() && baselineEmitted
      ensures r.Ok? && r.value.Some? ==> said == old(said) + [r.value.value]
      ensures r.Ok? && r.value.Some? ==> Progress(old(Unread()), old(|pages|), old(Steps()))
      ensures r.Ok? && r.value.None? ==>
        said == old(said) && taken == old(taken) && Applied() == taken && IsWholeFeed(provider, snapshotCursor, taken)
      ensures r.Ok? && r.value.None? ==> ReadableFeed(Feeding())
      ensures r.Err? ==> said == old(said) && (!ReadableFeed(Feeding()) || |said| >= I64_MAX)
    {
      hide InStep, SoundBook, Fold, IsHistory, SplitAt, ValidDeltas, ReadableFeed, Remaining;
      if !baselineEmitted {
        r := Baseline();
        return;
      }
      ghost var applied := Applied();
      var event := pendingEvent;
      if pendingEvent.Some? {
        assert taken == applied + [event.value];
        pendingEvent := None;
      } else {
        var next := NextDelta();
        if next.Err? {
          return Err;
        }
        event := next.value;
        if event.None? {
          ExhaustedIsWhole(this);
          return Ok(None);
        }
        SplitGrows(this, old(taken), base);
      }
      r := Publish(applied, event.value);
    }

    /** Publishes the book at the start of the window. */
    method Baseline() returns (r: Result<Option<Envelope<BookUpdate>>>)
      requires Valid() && !baselineEmitted
      modifies this
      ensures r.Ok? ==> Valid() && baselineEmitted && r.value.Some? && said == old(said) + [r.value.value]
      ensures r.Ok? ==> Progress(old(Unread()), old(|pages|), old(Steps()))
      ensures r.Err? ==> said == old(said) && (!ReadableFeed(Feeding()) || |said| >= I64_MAX)
    {
      hide InStep, SoundBook, Fold, IsHistory, ToOrderBook, ValidDeltas, SplitAt, ReadableFeed, Remaining;
      var ok := ReachWindow();
      if !ok {
        return Err;
      }
      baselineEmitted := true;
      var envelope := MakeEnvelope(fromMs);
      if envelope.Err? {
        return Err;
      }
      said := said + [envelope.value];
      BaselineIsHistory(said, src, start, Applied(), base, fromMs, book);
      return Ok(Some(envelope.value));
    }

    /** Applies every price change before the window; the first one in it is kept for later. */
    method ReachWindow() returns (ok: bool)
      requires Valid() && !baselineEmitted
      modifies this`pages, this`nextCursor, this`seenPageCursors, this`lastEventCursor, this`lastTimestampMs,
        this`exhausted, this`taken, this`read, this`book, this`pendingEvent, this`base
      ensures ok ==> Reading() && ValidDeltas(Applied()) && book == Fold(start, Applied()) && |Applied()| == base
      ensures ok ==> SplitAt(taken, base, fromMs)
      ensures ok ==> if pendingEvent.Some? then taken != [] && pendingEvent.value == taken[|taken| - 1]
                     else exhausted && pages == []
      ensures ok ==>
        || Unread() < old(Unread())
        || (Unread() == old(Unread()) && |pages| < old(|pages|))
        || (Unread() == old(Unread()) && |pages| == old(|pages|) && pendingEvent.None?)
      ensures !ok ==> !ReadableFeed(Feeding())
    {
      hide InStep, SoundBook, Fold, IsHistory, ToOrderBook, ValidDelta, ValidDeltas, Apply, Remaining, ReadableFeed,
        AllBefore, SplitAt;
      while true
        invariant Reading() && pendingEvent.None?
        invariant Unread() < old(Unread()) || (Unread() == old(Unread()) && |pages| <= old(|pages|))
        invariant ValidDeltas(taken) && book == Fold(start, taken)
        invariant AllBefore(taken, fromMs)
        decreases Unread(), |pages|
      {
        ghost var applied := taken;
        var next := NextDelta();
        if next.Err? {
          return false;
        }
        if next.value.None? {
          base := |taken|;
          SplitHere(taken, [], fromMs);
          assert taken + [] == taken;
          return true;
        }
        var event := next.value.value;
        FeedTail(this);
        if event.timestamp >= fromMs {
          assert taken[..|taken| - 1] == applied;
          SplitHere(applied, [event], fromMs);
          pendingEvent, base := Some(event), |applied|;
          return true;
        }
        FoldPrefix(start, applied, event);
        DeltasApply(book, event);
        OneMoreBefore(applied, event, fromMs);
        book := Apply(book, event).value;
      }
    }

    /** Applies one price change of the window and publishes the book after it. */
    method Publish(ghost applied: seq<Event>, event: Event) returns (r: Result<Option<Envelope<BookUpdate>>>)
      requires Reading() && baselineEmitted && pendingEvent.None? && frameSequence == |said|
      requires taken == applied + [event] && ValidDeltas(applied) && book == Fold(start, applied)
      requires IsHistory(said, src, start, applied, base, fromMs) && SplitAt(taken, base, fromMs) && |taken| > base
      modifies this`book, this`frameSequence, this`said
      ensures r.Ok? ==> Valid() && r.value.Some? && said == old(said) + [r.value.value]
      ensures r.Err? ==> said == old(said) && |said| >= I64_MAX
    {
      hide SoundBook, Fold, IsHistory, ToOrderBook, SplitAt, InStep;
      FeedTail(this);
      FoldPrefix(start, applied, event);
      HistoryGrows(said, src, start, applied, base, fromMs, event);
      DeltasApply(book, event);
      book := Apply(book, event).value;
      var envelope := MakeEnvelope(event.timestamp);
      if envelope.Err? {
        return Err;
      }
      said := said + [envelope.value];
      return Ok(Some(envelope.value));
    }
  }

  /** A replay that has read everything has taken the whole feed. */
  lemma ExhaustedIsWhole(t: TokenReplay)
    requires t.Reading() && t.exhausted && t.pages == []
    ensures IsWholeFeed(t.provider, t.snapshotCursor, t.taken) && ReadableFeed(t.Feeding())
  {
    hide Feed, Cursors, FeedOf, Continues;
    assert t.taken + t.pages == t.taken;
  }

  /** The books said are the history of the whole feed, the baseline folding exactly what precedes the window. */
  ghost predicate WholeHistory(
    said: seq<Envelope<BookUpdate>>, src: Source, start: BookLevels, f: Reader, from: Millis)
  {
    exists events, base :: IsWholeFeed(f.provider, f.first, events) && IsTold(said, src, start, events, base, from)
  }

  ghost predicate IsTold(
    said: seq<Envelope<BookUpdate>>, src: Source, start: BookLevels, events: seq<Event>, base: nat, from: Millis)
  {
    IsHistory(said, src, start, events, base, from) && SplitAt(events, base, from)
  }

  lemma ToldEverything(t: TokenReplay)
    requires t.Valid() && t.baselineEmitted && t.Applied() == t.taken
    requires IsWholeFeed(t.provider, t.snapshotCursor, t.taken)
    ensures WholeHistory(t.said, t.src, t.start, t.Feeding(), t.fromMs)
  {
    hide InStep, IsHistory, SplitAt, IsWholeFeed;
    assert IsTold(t.said, t.src, t.start, t.taken, t.base, t.fromMs);
  }

  lemma NothingPublished(from: Millis, to: Millis)
    ensures FromToken(Stream([], true), from, to) && FromToken(Stream([], false), from, to)
  {
  }

  lemma NothingSaid(t: TokenReplay)
    requires t.Valid() && !t.baselineEmitted
    ensures t.said == []
  {
    hide InStep;
  }

  lemma PublishedIsFromToken(t: TokenReplay)
    requires Published(t.said, t.fromMs, t.toMs, t.src, t.start, t.Applied(), t.base)
    ensures FromToken(Stream(t.said, true), t.fromMs, t.toMs) && FromToken(Stream(t.said, false), t.fromMs, t.toMs)
  {
    hide Published;
  }

  /** A price change that passed its page's checks always applies. */
  lemma DeltasApply(book: BookLevels, event: Event)
    requires ValidDelta(event)
    ensures Apply(book, event).Ok?
  {
  }

  lemma FeedTail(t: TokenReplay)
    requires t.Reading() && t.taken != []
    ensures ValidDelta(t.taken[|t.taken| - 1]) && ValidDeltas(t.taken)
  {
    hide ValidDelta, Chain, FeedOf, GoodPages, Cursors;
    var taken, pages := t.taken, t.pages;
    assert forall i :: 0 <= i < |taken| ==> (taken + pages)[i] == taken[i];
  }

  lemma SplitGrows(t: TokenReplay, was: seq<Event>, base: nat)
    requires t.Reading() && SplitAt(was, base, t.fromMs) && base < |was|
    requires |t.taken| == |was| + 1 && t.taken[..|was|] == was
    ensures SplitAt(t.taken, base, t.fromMs)
  {
    hide ValidDelta, Chain, FeedOf, GoodPages, Cursors;
    var taken, pages := t.taken, t.pages;
    var all := taken + pages;
    assert all[|was|] == taken[|was|] && all[base] == was[base];
    assert all[base].timestamp <= all[|was|].timestamp;
    assert forall i :: 0 <= i < |was| ==> taken[i] == was[i];
  }

  lemma BaselineIsHistory(
    said: seq<Envelope<BookUpdate>>, src: Source, start: BookLevels, events: seq<Event>, base: nat, from: Millis,
    book: BookLevels)
    requires ValidDeltas(events) && base == |events| && book == Fold(start, events)
    requires said == [EnvelopeFor(src, from, book, 0)]
    ensures IsHistory(said, src, start, events, base, from)
  {
    hide Fold, ToOrderBook, ValidDelta;
    assert events[..base + 0] == events;
  }

  ghost function Remaining(keys: set<string>, read: seq<string>): nat {
    |keys - (set c | c in read)|
  }

  lemma FetchMakesProgress(keys: set<string>, read: seq<string>, cursor: string)
    requires cursor in keys && cursor !in read
    ensures Remaining(keys, read + [cursor]) < Remaining(keys, read)
  {
    assert keys - (set c | c in read + [cursor]) == (keys - (set c | c in read)) - {cursor};
  }

  // ----- opening a token and merging tokens

  /** A snapshot the replay can start from. */
  predicate UsableSnapshot(items: seq<Event>, token: Token, from: Millis) {
    && |items| == 1
    && IdentityMatches(items[0], token, "book")
    && items[0].timestamp <= from
    && items[0].cursor != ""
    && items[0].side.None? && items[0].price.None? && items[0].sizeAfter.None?
    && items[0].bids.Some? && ReadableLevels(items[0].bids.value)
    && items[0].asks.Some? && ReadableLevels(items[0].asks.value)
  }

  /** A level of a snapshot: an exact price in [0, 1] and an exact positive size. */
  predicate IsLevel(level: (Text, Text)) {
    level.0.Exact? && 0.0 <= level.0.value <= 1.0 && level.1.Exact? && level.1.value > 0.0
  }

  predicate AreLevels(levels: Option<seq<(Text, Text)>>) {
    && levels.Some? && (forall l :: l in levels.value ==> IsLevel(l))
    && forall i, j :: 0 <= i < j < |levels.value| ==> levels.value[i].0 != levels.value[j].0
  }

  /** A usable snapshot is one book of this token, not after the window start, with readable levels and nothing else. */
  lemma UsableSnapshotIff(items: seq<Event>, token: Token, from: Millis)
    ensures UsableSnapshot(items, token, from) <==>
      |items| == 1 && var e := items[0];
      && e.marketId == token.marketId && e.tokenId == token.tokenId && Lower(e.conditionId) == Lower(token.conditionId)
      && e.eventType == "book" && e.outcome in {None, Some(token.name)} && e.timestamp <= from && |e.cursor| > 0
      && e.side == None && e.price == None && e.sizeAfter == None && AreLevels(e.bids) && AreLevels(e.asks)
  {
    hide Lower, ReadableLevels, AreLevels;
    if |items| == 1 {
      LevelsIff(items[0].bids);
      LevelsIff(items[0].asks);
    }
  }

  lemma LevelsIff(levels: Option<seq<(Text, Text)>>)
    ensures AreLevels(levels) <==> levels.Some? && ReadableLevels(levels.value)
  {
    if levels.Some? {
      assert forall i :: 0 <= i < |levels.value| ==> levels.value[i] in levels.value;
      if ReadableLevels(levels.value) {
        forall l | l in levels.value ensures IsLevel(l) {
          var i :| 0 <= i < |levels.value| && levels.value[i] == l;
          assert ReadableLevel(levels.value[i]);
        }
      }
    }
  }

  /** Starts a replay at the latest snapshot not after the window start. */
  method Open(src: Source, from: Millis, to: Millis, provider: map<string, Page>, snapshots: Result<Page>)
    returns (r: Option<TokenReplay>)
    requires from < to
    ensures r.Some? <==> snapshots.Ok? && UsableSnapshot(snapshots.value.items, src.token, from)
    ensures r.Some? ==> fresh(r.value) && r.value.Valid() && !r.value.baselineEmitted && r.value.src == src
    ensures r.Some? ==> r.value.fromMs == from && r.value.toMs == to && r.value.provider == provider
    ensures r.Some? ==>
      && r.value.snapshotCursor == snapshots.value.items[0].cursor
      && r.value.snapshotTimestampMs == snapshots.value.items[0].timestamp
    ensures r.Some? ==>
      && Holds(snapshots.value.items[0].bids.value, r.value.start.bids)
      && Holds(snapshots.value.items[0].asks.value, r.value.start.asks)
  {
    hide IdentityMatches, ReadableLevels, Holds;
    if snapshots.Err? || |snapshots.value.items| != 1 {
      return None;
    }
    var snapshot := snapshots.value.items[0];
    if !IdentityMatches(snapshot, src.token, "book") || snapshot.timestamp > from || snapshot.cursor == "" ||
       snapshot.side.Some? || snapshot.price.Some? || snapshot.sizeAfter.Some? ||
       snapshot.bids.None? || snapshot.asks.None? {
      return None;
    }
    var bids := ParseLevels(snapshot.bids.value);
    if bids.Err? {
      return None;
    }
    var asks := ParseLevels(snapshot.asks.value);
    if asks.Err? {
      return None;
    }
    var replay := new TokenReplay(src, from, to, provider, snapshot, BookLevels(bids.value, asks.value));
    return Some(replay);
  }

  ghost predicate Published(
    said: seq<Envelope<BookUpdate>>, from: Millis, to: Millis, src: Source, start: BookLevels, events: seq<Event>,
    base: nat)
  {
    && IsHistory(said, src, start, events, base, from)
    && Chronological(events)
    && SplitAt(events, base, from)
    && forall k :: 0 <= k < |events| ==> events[k].timestamp < to
  }

  /** What a token has published is the history of the price changes it has applied. */
  lemma ValidIsPublished(t: TokenReplay)
    requires t.Valid() && t.baselineEmitted
    ensures Published(t.said, t.fromMs, t.toMs, t.src, t.start, t.Applied(), t.base)
  {
    hide ValidDelta, Fold;
    var all := t.taken + t.pages;
    assert forall i :: 0 <= i < |t.Applied()| ==> t.Applied()[i] == t.taken[i] == all[i];
  }

  ghost predicate FromToken(stream: Stream<BookUpdate>, from: Millis, to: Millis) {
    stream.items == [] ||
    exists src, start, events, base :: Published(stream.items, from, to, src, start, events, base)
  }

  /** Streams of published books meet what the merge relies on. */
  lemma TokenStreamsAreSorted(streams: seq<Stream<BookUpdate>>, from: Millis, to: Millis)
    requires from < to && forall s :: 0 <= s < |streams| ==> FromToken(streams[s], from, to)
    ensures Sorted(streams, to)
  {
    hide IsHistory, Compare, FromToken;
    forall s, i, j | 0 <= s < |streams| && 0 <= i < j < |streams[s].items|
      ensures Compare(streams[s].items[i].key, streams[s].items[j].key) != Greater
    {
      StreamIsSorted(streams[s], from, to, i, j);
    }
    forall p | Within(streams, p) ensures At(streams, p).key.timestampMs <= to {
      StreamIsTimely(streams[p.stream], from, to, p.index);
    }
  }

  lemma StreamIsSorted(stream: Stream<BookUpdate>, from: Millis, to: Millis, i: nat, j: nat)
    requires from < to && FromToken(stream, from, to) && i < j < |stream.items|
    ensures Compare(stream.items[i].key, stream.items[j].key) == Less
  {
    hide IsHistory, Compare;
    var src, start, events, base :| Published(stream.items, from, to, src, start, events, base);
    HistoryIsSorted(stream.items, src, start, events, base, from, to, i, j);
  }

  lemma StreamIsTimely(stream: Stream<BookUpdate>, from: Millis, to: Millis, i: nat)
    requires from < to && FromToken(stream, from, to) && i < |stream.items|
    ensures from <= stream.items[i].key.timestampMs < to
  {
    hide Fold, ToOrderBook, ValidDelta;
    var src, start, events, base :| Published(stream.items, from, to, src, start, events, base);
    assert stream.items[i] == BookAt(src, start, events, base, from, i);
  }

  /**
   * A window that starts after the earliest representable instant cannot run into the watermark
   * underflow, so merging its token streams succeeds exactly when every one of them does.
   */
  lemma TokenStreamsStayAboveFloor(streams: seq<Stream<BookUpdate>>, from: Millis, to: Millis)
    requires I64_MIN < from < to && forall s :: 0 <= s < |streams| ==> FromToken(streams[s], from, to)
    ensures Sorted(streams, to) && !TwoAtFloor(streams)
  {
    hide FromToken, Sorted;
    TokenStreamsAreSorted(streams, from, to);
    forall p | Within(streams, p) ensures !Floor(streams, p) {
      StreamIsTimely(streams[p.stream], from, to, p.index);
    }
  }
}
