/** Paginated market discovery and the subscription plan built from it. */
module Discovery {
  import opened Trading
  import opened Sequences

  const USIZE_MAX: nat := 0xffff_ffff_ffff_ffff

  datatype OutcomeToken = OutcomeToken(outcomeId: string, tokenId: string)

  datatype Market = Market(
    id: string, conditionId: string, openMs: Millis, closeMs: Millis, active: bool, seriesId: Option<string>,
    outcomes: seq<OutcomeToken>)

  datatype Shard = Shard(index: nat, assets: seq<string>)

  datatype Snapshot = Snapshot(digest: string, markets: seq<Market>, laneA: seq<Shard>, laneB: seq<Shard>)

  datatype Error =
    | Unavailable
    | IncompletePagination(offset: nat)
    | RepeatedPage(offset: nat)
    | OffsetOverflow(offset: nat)
    | DuplicateMarketId(id: string)
    | DuplicateOutcomeId(id: string)
    | MissingFamily(id: string)
    | Malformed

  datatype Result<T> = Ok(value: T) | Err(error: Error)

  /** Characters that trimming removes. */
  predicate IsSpace(c: char) {
    var n := c as int;
    9 <= n <= 13 || n == 32 || n == 0x85 || n == 0xa0 || n == 0x1680 || 0x2000 <= n <= 0x200a ||
    n == 0x2028 || n == 0x2029 || n == 0x202f || n == 0x205f || n == 0x3000
  }

  predicate Blank(s: string) {
    forall i :: 0 <= i < |s| ==> IsSpace(s[i])
  }

  predicate ValidMarket(m: Market) {
    !Blank(m.id) && !Blank(m.conditionId) && m.openMs <= m.closeMs && m.outcomes != []
  }

  predicate ValidPage(page: seq<Market>) {
    forall i :: 0 <= i < |page| ==> ValidMarket(page[i])
  }

  // ----- what a snapshot is

  function Active(markets: seq<Market>): seq<Market> {
    if markets == [] then []
    else if markets[0].active then [markets[0]] + Active(markets[1..])
    else Active(markets[1..])
  }

  function ById(): Market -> string {
    (m: Market) => m.id
  }

  function AsIs(): string -> string {
    (s: string) => s
  }

  function Tokens(markets: seq<Market>): seq<string> {
    if markets == [] then [] else Tokens(markets[..|markets| - 1]) + TokensOf(markets[|markets| - 1].outcomes)
  }

  function TokensOf(outcomes: seq<OutcomeToken>): seq<string> {
    seq(|outcomes|, i requires 0 <= i < |outcomes| => outcomes[i].tokenId)
  }

  predicate Distinct<T(==)>(s: seq<T>) {
    forall i, j :: 0 <= i < j < |s| ==> s[i] != s[j]
  }

  predicate GoodOutcome(outcomes: seq<OutcomeToken>, k: nat)
    requires k < |outcomes|
  {
    && !Blank(outcomes[k].outcomeId)
    && !Blank(outcomes[k].tokenId)
    && forall l :: 0 <= l < k ==> outcomes[l].outcomeId != outcomes[k].outcomeId
  }

  predicate GoodOutcomes(outcomes: seq<OutcomeToken>) {
    forall k :: 0 <= k < |outcomes| ==> GoodOutcome(outcomes, k)
  }

  /** What is wrong with the `i`-th market, given the ones before it. */
  function Fault(markets: seq<Market>, i: nat): Option<Error>
    requires i < |markets|
  {
    var m := markets[i];
    if exists j :: 0 <= j < i && markets[j].id == m.id then Some(DuplicateMarketId(m.id))
    else if m.seriesId.None? || Blank(m.seriesId.value) then Some(MissingFamily(m.id))
    else if !GoodOutcomes(m.outcomes) then Some(DuplicateOutcomeId(m.id))
    else None
  }

  /** The fault of the first faulty market. */
  function FirstFault(markets: seq<Market>, from: nat): Option<Error>
    requires from <= |markets|
    decreases |markets| - from
  {
    if from == |markets| then None
    else if Fault(markets, from).Some? then Fault(markets, from)
    else FirstFault(markets, from + 1)
  }

  function Sharded(tokens: seq<string>, shardSize: nat): seq<Shard>
    requires shardSize > 0
  {
    var chunks := Chunks(tokens, shardSize);
    seq(|chunks|, i requires 0 <= i < |chunks| => Shard(i, chunks[i]))
  }

  /** The snapshot of a complete listing. */
  function Normalized(markets: seq<Market>, shardSize: nat, digest: seq<Market> -> string): Result<Snapshot>
    requires shardSize > 0
  {
    var kept := Sort(ById(), Active(markets));
    var tokens := Sort(AsIs(), Tokens(kept));
    match FirstFault(kept, 0)
    case Some(error) => Err(error)
    case None =>
      if !Distinct(tokens) then Err(Malformed)
      else Ok(Snapshot(digest(kept), kept, Sharded(tokens, shardSize), Sharded(tokens, shardSize)))
  }

  // ----- the normalisation loops

  method CheckOutcomes(outcomes: seq<OutcomeToken>, assets: seq<string>) returns (ok: bool, tokens: seq<string>)
    ensures ok <==> GoodOutcomes(outcomes)
    ensures ok ==> tokens == assets + TokensOf(outcomes)
  {
    hide Blank;
    var ids: set<string> := {};
    tokens := assets;
    for k := 0 to |outcomes|
      invariant ids == set l | 0 <= l < k :: outcomes[l].outcomeId
      invariant forall l :: 0 <= l < k ==> GoodOutcome(outcomes, l)
      invariant tokens == assets + TokensOf(outcomes)[..k]
    {
      var o := outcomes[k];
      assert o.outcomeId in ids <==> exists l :: 0 <= l < k && outcomes[l].outcomeId == o.outcomeId;
      if Blank(o.outcomeId) || Blank(o.tokenId) || o.outcomeId in ids {
        assert !GoodOutcome(outcomes, k);
        return false, tokens;
      }
      ids := ids + {o.outcomeId};
      tokens := tokens + [o.tokenId];
    }
    assert TokensOf(outcomes)[..|outcomes|] == TokensOf(outcomes);
    ok := true;
  }

  /** Checks markets in order and collects their tokens; stops at the first fault. */
  method CheckMarkets(kept: seq<Market>) returns (fault: Option<Error>, assets: seq<string>)
    ensures fault == FirstFault(kept, 0)
    ensures fault.None? ==> assets == Tokens(kept)
  {
    hide Blank, GoodOutcomes, Tokens, TokensOf;
    var ids: set<string> := {};
    assets := [];
    NoTokens();
    for i := 0 to |kept|
      invariant ids == set j | 0 <= j < i :: kept[j].id
      invariant assets == Tokens(kept[..i])
      invariant FirstFault(kept, 0) == FirstFault(kept, i)
    {
      var m := kept[i];
      assert m.id in ids <==> exists j :: 0 <= j < i && kept[j].id == m.id;
      if m.id in ids {
        return Some(DuplicateMarketId(m.id)), assets;
      }
      ids := ids + {m.id};
      if m.seriesId.None? || Blank(m.seriesId.value) {
        return Some(MissingFamily(m.id)), assets;
      }
      var ok, tokens := CheckOutcomes(m.outcomes, assets);
      if !ok {
        return Some(DuplicateOutcomeId(m.id)), assets;
      }
      MoreTokens(kept, i);
      assets := tokens;
    }
    assert kept[..|kept|] == kept;
    fault := None;
  }

  lemma NoTokens()
    ensures Tokens([]) == []
  {
  }

  lemma MoreTokens(kept: seq<Market>, i: nat)
    requires i < |kept|
    ensures Tokens(kept[..i + 1]) == Tokens(kept[..i]) + TokensOf(kept[i].outcomes)
  {
    assert kept[..i + 1][..i] == kept[..i];
  }

  /** Filters, sorts and checks a listing and cuts its tokens into shards. */
  method NormalizeSnapshot(markets: seq<Market>, shardSize: nat, digest: seq<Market> -> string)
    returns (r: Result<Snapshot>)
    requires shardSize > 0
    ensures r == Normalized(markets, shardSize, digest)
  {
    hide Sort, Tokens, FirstFault, Sharded, SortedBy, Distinct;
    var kept := Sort(ById(), Active(markets));
    var fault, assets := CheckMarkets(kept);
    if fault.Some? {
      return Err(fault.value);
    }
    SortSorts(AsIs(), assets);
    assets := Sort(AsIs(), assets);
    var repeated := AdjacentPair(assets);
    if repeated {
      return Err(Malformed);
    }
    var shards := Sharded(assets, shardSize);
    return Ok(Snapshot(digest(kept), kept, shards, shards));
  }

  /** In a sorted list a repeated member repeats next to itself. */
  method AdjacentPair(s: seq<string>) returns (found: bool)
    requires SortedBy(AsIs(), s)
    ensures found <==> !Distinct(s)
  {
    found := exists i :: 0 < i < |s| && s[i - 1] == s[i];
    if !found {
      forall i, j | 0 <= i < j < |s| ensures s[i] != s[j] {
        NoneBetween(s, i, j);
      }
    }
  }

  lemma NoneBetween(s: seq<string>, i: nat, j: nat)
    requires SortedBy(AsIs(), s) && i < j < |s| && forall k :: 0 < k < |s| ==> s[k - 1] != s[k]
    ensures s[i] != s[j]
  {
    hide NotAfter;
    assert s[(i + 1) - 1] != s[i + 1];
    assert NotAfter(AsIs()(s[i]), AsIs()(s[i + 1]));
    if i + 1 < j {
      assert NotAfter(AsIs()(s[i + 1]), AsIs()(s[j]));
      NotAfterIsTotal(s[i], s[i + 1], s[i]);
    }
  }

  // ----- what a successful snapshot promises

  ghost predicate IsPlan(lane: seq<Shard>, tokens: seq<string>, shardSize: nat) {
    && (forall i :: 0 <= i < |lane| ==> lane[i].index == i && 0 < |lane[i].assets| <= shardSize)
    && Concat(AssetsOf(lane)) == tokens
  }

  ghost function AssetsOf(lane: seq<Shard>): seq<seq<string>> {
    seq(|lane|, i requires 0 <= i < |lane| => lane[i].assets)
  }

  lemma ShardsArePlan(tokens: seq<string>, shardSize: nat)
    requires shardSize > 0
    ensures IsPlan(Sharded(tokens, shardSize), tokens, shardSize)
  {
    hide Chunks, Concat;
    assert AssetsOf(Sharded(tokens, shardSize)) == Chunks(tokens, shardSize);
  }

  ghost predicate AllGood(kept: seq<Market>) {
    && (forall i, j :: 0 <= i < j < |kept| ==> kept[i].id != kept[j].id)
    && (forall i :: 0 <= i < |kept| ==>
      kept[i].seriesId.Some? && !Blank(kept[i].seriesId.value) && GoodOutcomes(kept[i].outcomes))
  }

  lemma {:induction false} NoFaultIff(kept: seq<Market>, from: nat)
    requires from <= |kept|
    ensures FirstFault(kept, from).None? <==> forall i :: from <= i < |kept| ==> Fault(kept, i).None?
    decreases |kept| - from
  {
    if from < |kept| {
      NoFaultIff(kept, from + 1);
    }
  }

  /** When a listing has a snapshot, and what is in it. */
  lemma SnapshotIff(markets: seq<Market>, shardSize: nat, digest: seq<Market> -> string)
    requires shardSize > 0
    ensures var r, kept := Normalized(markets, shardSize, digest), Sort(ById(), Active(markets));
      && (r.Ok? <==> AllGood(kept) && Distinct(Sort(AsIs(), Tokens(kept))))
      && (r.Ok? ==>
        && r.value.markets == kept && multiset(kept) == multiset(Active(markets)) && SortedBy(ById(), kept)
        && r.value.digest == digest(kept) && r.value.laneA == r.value.laneB
        && var tokens := Sort(AsIs(), Tokens(kept));
           SortedBy(AsIs(), tokens) && Distinct(tokens) && multiset(tokens) == multiset(Tokens(kept)) &&
           IsPlan(r.value.laneA, tokens, shardSize))
  {
    hide Sort, Sharded, Tokens, Active, FirstFault, NotAfter, IsPlan, Distinct;
    var kept := Sort(ById(), Active(markets));
    NoFaultIff(kept, 0);
    assert AllGood(kept) <==> FirstFault(kept, 0).None? by { GoodIff(kept); }
    SortSorts(ById(), Active(markets));
    SortSorts(AsIs(), Tokens(kept));
    ShardsArePlan(Sort(AsIs(), Tokens(kept)), shardSize);
  }

  /** What an error says of the `i`-th market. */
  ghost predicate Describes(error: Error, kept: seq<Market>, i: nat)
    requires i < |kept|
  {
    var m := kept[i];
    var repeated := exists j :: 0 <= j < i && kept[j].id == m.id;
    var family := m.seriesId.Some? && !Blank(m.seriesId.value);
    match error
    case DuplicateMarketId(id) => id == m.id && repeated
    case MissingFamily(id) => id == m.id && !repeated && !family
    case DuplicateOutcomeId(id) => id == m.id && !repeated && family &&
      exists k :: 0 <= k < |m.outcomes| && (
        Blank(m.outcomes[k].outcomeId) || Blank(m.outcomes[k].tokenId) ||
        exists l :: 0 <= l < k && m.outcomes[l].outcomeId == m.outcomes[k].outcomeId)
    case _ => false
  }

  /** An error tells what is wrong with the first market that is wrong, or that two markets share a token. */
  lemma {:induction false} ErrorTells(markets: seq<Market>, shardSize: nat, digest: seq<Market> -> string)
    requires shardSize > 0 && Normalized(markets, shardSize, digest).Err?
    ensures var kept, error := Sort(ById(), Active(markets)), Normalized(markets, shardSize, digest).error;
      || (exists i: nat :: i < |kept| && Describes(error, kept, i) && AllGood(kept[..i]))
      || (error == Malformed && AllGood(kept) && !Distinct(Sort(AsIs(), Tokens(kept))))
  {
    hide Sort, Sharded, Tokens, Active, Blank, Distinct;
    var kept := Sort(ById(), Active(markets));
    if FirstFault(kept, 0).Some? {
      var i := FaultyMarket(kept, 0);
      FaultDescribes(kept, i);
      GoodBefore(kept, i);
      hide FirstFault, Describes;
      assert i < |kept| && Describes(Normalized(markets, shardSize, digest).error, kept, i);
    } else {
      NoFaultIff(kept, 0);
      GoodIff(kept);
    }
  }

  lemma {:induction false} FaultyMarket(kept: seq<Market>, from: nat) returns (i: nat)
    requires from <= |kept| && FirstFault(kept, from).Some?
    ensures from <= i < |kept| && Fault(kept, i) == FirstFault(kept, from)
    ensures forall j :: from <= j < i ==> Fault(kept, j).None?
    decreases |kept| - from
  {
    if Fault(kept, from).Some? {
      i := from;
    } else {
      i := FaultyMarket(kept, from + 1);
    }
  }

  lemma FaultDescribes(kept: seq<Market>, i: nat)
    requires i < |kept| && Fault(kept, i).Some?
    ensures Describes(Fault(kept, i).value, kept, i)
  {
    hide Blank;
    var outcomes := kept[i].outcomes;
    if !GoodOutcomes(outcomes) {
      var k :| 0 <= k < |outcomes| && !GoodOutcome(outcomes, k);
    }
  }

  lemma GoodBefore(kept: seq<Market>, i: nat)
    requires i <= |kept| && forall j :: 0 <= j < i ==> Fault(kept, j).None?
    ensures AllGood(kept[..i])
  {
    hide Blank, GoodOutcomes;
    GoodIff(kept[..i]);
    forall j | 0 <= j < i ensures Fault(kept[..i], j).None? {
      assert Fault(kept, j).None?;
    }
  }

  lemma GoodIff(kept: seq<Market>)
    ensures AllGood(kept) <==> forall i :: 0 <= i < |kept| ==> Fault(kept, i).None?
  {
    hide Blank, GoodOutcomes;
    if forall i :: 0 <= i < |kept| ==> Fault(kept, i).None? {
      forall i, j | 0 <= i < j < |kept| ensures kept[i].id != kept[j].id {
        assert Fault(kept, j).None?;
      }
      forall i | 0 <= i < |kept|
        ensures kept[i].seriesId.Some? && !Blank(kept[i].seriesId.value) && GoodOutcomes(kept[i].outcomes)
      {
        assert Fault(kept, i).None?;
      }
    }
  }

  lemma {:induction false} ActiveMembers(markets: seq<Market>, m: Market)
    ensures m in Active(markets) <==> m in markets && m.active
    ensures multiset(Active(markets))[m] == if m.active then multiset(markets)[m] else 0
    decreases |markets|
  {
    if markets != [] {
      ActiveMembers(markets[1..], m);
      assert markets == [markets[0]] + markets[1..];
    }
  }

  /** Something is left when the white space is taken off. */
  predicate Says(s: string) {
    exists i :: 0 <= i < |s| && !IsSpace(s[i])
  }

  /** Every market of a snapshot of valid pages is open for trading, named, dated and of some series, with named outcomes. */
  lemma SnapshotMarketsAreUsable(markets: seq<Market>, shardSize: nat, digest: seq<Market> -> string, m: Market)
    requires shardSize > 0 && ValidPage(markets) && Normalized(markets, shardSize, digest).Ok?
    requires m in Normalized(markets, shardSize, digest).value.markets
    ensures m in markets && m.active && Says(m.id) && Says(m.conditionId) && m.openMs <= m.closeMs
    ensures m.seriesId.Some? && Says(m.seriesId.value)
    ensures m.outcomes != [] && forall o :: o in m.outcomes ==> Says(o.outcomeId) && Says(o.tokenId)
  {
    hide Sort, Sharded, Tokens, Active, FirstFault, NotAfter, IsPlan, Distinct, IsSpace, AssetsOf;
    SnapshotIff(markets, shardSize, digest);
    var kept := Sort(ById(), Active(markets));
    var i :| 0 <= i < |kept| && kept[i] == m;
    assert m in multiset(kept);
    assert m in multiset(Active(markets));
    ActiveMembers(markets, m);
    assert ValidMarket(m);
    assert GoodOutcomes(m.outcomes);
    forall o | o in m.outcomes ensures Says(o.outcomeId) && Says(o.tokenId) {
      var k :| 0 <= k < |m.outcomes| && m.outcomes[k] == o;
      assert GoodOutcome(m.outcomes, k);
    }
  }

  // ----- the order of the listing does not matter

  ghost predicate DistinctIds(markets: seq<Market>) {
    forall i, j :: 0 <= i < j < |markets| ==> markets[i].id != markets[j].id
  }

  lemma ActiveOfPermutation(a: seq<Market>, b: seq<Market>)
    requires multiset(a) == multiset(b)
    ensures multiset(Active(a)) == multiset(Active(b))
  {
    forall m ensures multiset(Active(a))[m] == multiset(Active(b))[m] {
      ActiveMembers(a, m);
      ActiveMembers(b, m);
    }
  }

  lemma IdsTell(markets: seq<Market>)
    requires DistinctIds(markets)
    ensures KeyTells(ById(), Active(markets))
  {
    var kept := Active(markets);
    forall i, j | 0 <= i < |kept| && 0 <= j < |kept| && kept[i].id == kept[j].id ensures kept[i] == kept[j] {
      ActiveMembers(markets, kept[i]);
      ActiveMembers(markets, kept[j]);
      var k :| 0 <= k < |markets| && markets[k] == kept[i];
      var l :| 0 <= l < |markets| && markets[l] == kept[j];
      assert k == l;
    }
  }

  /** Any permutation of a listing has the same snapshot or the same error. */
  lemma ListingOrderIsIrrelevant(a: seq<Market>, b: seq<Market>, shardSize: nat, digest: seq<Market> -> string)
    requires shardSize > 0 && multiset(a) == multiset(b) && DistinctIds(a)
    ensures Normalized(a, shardSize, digest) == Normalized(b, shardSize, digest)
  {
    hide Sort, FirstFault, Tokens, Sharded, Active;
    ActiveOfPermutation(a, b);
    IdsTell(a);
    SortForgetsOrder(ById(), Active(a), Active(b));
  }

  // ----- paging

  datatype Request = Request(limit: nat, offset: nat)

  function Page(list: seq<Market>, request: Request): seq<Market> {
    if request.offset >= |list| then []
    else if request.offset + request.limit <= |list| then list[request.offset..request.offset + request.limit]
    else list[request.offset..]
  }

  /** Requests answered from one fixed listing. */
  ghost predicate Serves(fetch: Request -> Result<seq<Market>>, list: seq<Market>, pageSize: nat) {
    forall offset: nat :: fetch(Request(pageSize, offset)) == Ok(Page(list, Request(pageSize, offset)))
  }

  ghost predicate Injective(digest: seq<Market> -> string) {
    forall a, b :: digest(a) == digest(b) ==> a == b
  }

  /** What discovery of a fixed listing yields, whatever the page size. */
  function Discovered(list: seq<Market>, shardSize: nat, digest: seq<Market> -> string): Result<Snapshot>
    requires shardSize > 0
  {
    if !ValidPage(list) then Err(Malformed) else Normalized(list, shardSize, digest)
  }

  /** Fingerprints of full pages before an offset. */
  ghost predicate Fingerprints(
    prints: set<string>, list: seq<Market>, offset: nat, pageSize: nat, digest: seq<Market> -> string)
  {
    forall f :: f in prints ==> FullPageBefore(f, list, offset, pageSize, digest)
  }

  ghost predicate FullPageBefore(
    f: string, list: seq<Market>, offset: nat, pageSize: nat, digest: seq<Market> -> string)
  {
    exists j: nat :: IsFullPage(f, list, j, offset, pageSize, digest)
  }

  ghost predicate IsFullPage(
    f: string, list: seq<Market>, j: nat, offset: nat, pageSize: nat, digest: seq<Market> -> string)
  {
    j + pageSize <= offset <= |list| && f == digest(list[j..j + pageSize])
  }

  /** Pages of a listing without repeated ids never repeat. */
  lemma FreshPage(prints: set<string>, list: seq<Market>, offset: nat, pageSize: nat, digest: seq<Market> -> string)
    requires Fingerprints(prints, list, offset, pageSize, digest) && Injective(digest) && DistinctIds(list)
    requires 0 < pageSize && offset + pageSize <= |list|
    ensures digest(list[offset..offset + pageSize]) !in prints
    ensures Fingerprints(
      prints + {digest(list[offset..offset + pageSize])}, list, offset + pageSize, pageSize, digest)
  {
    var page := list[offset..offset + pageSize];
    hide Injective, DistinctIds;
    if digest(page) in prints {
      assert FullPageBefore(digest(page), list, offset, pageSize, digest);
      var j: nat :| IsFullPage(digest(page), list, j, offset, pageSize, digest);
      NoSecondPage(list, j, offset, pageSize, digest);
    }
    forall f | f in prints + {digest(page)}
      ensures FullPageBefore(f, list, offset + pageSize, pageSize, digest)
    {
      if f in prints {
        assert FullPageBefore(f, list, offset, pageSize, digest);
        var j: nat :| IsFullPage(f, list, j, offset, pageSize, digest);
        assert IsFullPage(f, list, j, offset + pageSize, pageSize, digest);
      } else {
        assert IsFullPage(f, list, offset, offset + pageSize, pageSize, digest);
      }
    }
  }

  lemma NoSecondPage(list: seq<Market>, j: nat, offset: nat, pageSize: nat, digest: seq<Market> -> string)
    requires Injective(digest) && DistinctIds(list) && 0 < pageSize && j + pageSize <= offset
    requires offset + pageSize <= |list|
    ensures digest(list[j..j + pageSize]) != digest(list[offset..offset + pageSize])
  {
    assert list[j..j + pageSize][0].id == list[j].id;
    assert list[offset..offset + pageSize][0].id == list[offset].id;
  }

  /** A provider that holds one listing, without repeated ids, and digests that tell pages apart. */
  ghost predicate Steady(
    fetch: Request -> Result<seq<Market>>, list: seq<Market>, pageSize: nat, digest: seq<Market> -> string)
  {
    |list| <= USIZE_MAX && Serves(fetch, list, pageSize) && DistinctIds(list) && Injective(digest)
  }

  /** Pages read one after the other: each valid, each asked for where the ones before it end, no full one twice. */
  ghost predicate ReadsPages(
    fetch: Request -> Result<seq<Market>>, pageSize: nat, digest: seq<Market> -> string, pages: seq<seq<Market>>)
  {
    && (forall k :: 0 <= k < |pages| ==>
      fetch(Request(pageSize, |Concat(pages[..k])|)) == Ok(pages[k]) && ValidPage(pages[k]))
    && (forall j, k :: 0 <= j < k < |pages| && |pages[j]| == |pages[k]| == pageSize ==> digest(pages[j]) != digest(pages[k]))
    && (forall k :: 0 <= k < |pages| - 1 ==> |pages[k]| >= pageSize)
  }

  ghost predicate IsRepeated(page: seq<Market>, pages: seq<seq<Market>>, pageSize: nat, digest: seq<Market> -> string) {
    |page| == pageSize && exists j :: 0 <= j < |pages| && |pages[j]| == pageSize && digest(pages[j]) == digest(page)
  }

  /** How discovery ends after the pages it has taken: at a short page, or with what is wrong with the next answer. */
  ghost predicate EndsWith(
    fetch: Request -> Result<seq<Market>>, pageSize: nat, shardSize: nat, digest: seq<Market> -> string,
    pages: seq<seq<Market>>, r: Result<Snapshot>)
    requires shardSize > 0
  {
    var offset := |Concat(pages)|;
    var answer := fetch(Request(pageSize, offset));
    if pages != [] && |pages[|pages| - 1]| < pageSize then r == Normalized(Concat(pages), shardSize, digest)
    else if answer.Err? then r == Err(if offset == 0 then answer.error else IncompletePagination(offset))
    else if !ValidPage(answer.value) then r == Err(Malformed)
    else if IsRepeated(answer.value, pages, pageSize, digest) then r == Err(RepeatedPage(offset))
    else |answer.value| >= pageSize && offset + |answer.value| > USIZE_MAX && r == Err(OffsetOverflow(offset))
  }

  /** Fetches every page, then normalises the whole; `list` is what the provider holds, if it holds still. */
  method DiscoverSnapshot(
    pageSize: nat, shardSize: nat, fetch: Request -> Result<seq<Market>>, digest: seq<Market> -> string,
    ghost list: seq<Market>)
    returns (r: Result<Snapshot>, ghost pages: seq<seq<Market>>)
    ensures pageSize == 0 || shardSize == 0 ==> r == Err(Malformed)
    ensures pageSize > 0 && shardSize > 0 ==>
      ReadsPages(fetch, pageSize, digest, pages) && EndsWith(fetch, pageSize, shardSize, digest, pages, r)
    ensures r.Ok? ==> shardSize > 0 && exists all :: ValidPage(all) && r == Normalized(all, shardSize, digest)
    ensures pageSize > 0 && shardSize > 0 && Steady(fetch, list, pageSize, digest) ==>
      r == Discovered(list, shardSize, digest)
  {
    hide Normalized, Steady, ValidPage, Page, Fingerprints, ReadsPages, Concat, IsRepeated;
    pages := [];
    if pageSize == 0 || shardSize == 0 {
      return Err(Malformed), pages;
    }
    ghost var steady := Steady(fetch, list, pageSize, digest);
    var offset: nat, prints: set<string>, markets: seq<Market> := 0, {}, [];
    NothingRead(list, pageSize, digest);
    NoPages(fetch, pageSize, digest);
    while true
      invariant ValidPage(markets) && offset <= USIZE_MAX
      invariant steady ==>
        offset <= |list| && markets == list[..offset] && Fingerprints(prints, list, offset, pageSize, digest)
      invariant ReadsPages(fetch, pageSize, digest, pages) && AllFull(pages, pageSize)
      invariant markets == Concat(pages) && offset == |markets| && PrintsOf(prints, pages, pageSize, digest)
      decreases USIZE_MAX - offset
    {
      var answer := fetch(Request(pageSize, offset));
      if steady {
        SteadyPage(fetch, list, pageSize, digest, offset, prints);
      }
      if answer.Err? {
        return Err(if offset == 0 then answer.error else IncompletePagination(offset)), pages;
      }
      var page := answer.value;
      if !ValidPage(page) {
        return Err(Malformed), pages;
      }
      ValidTogether(markets, page);
      PrintsTell(prints, pages, pageSize, digest, page);
      if |page| == pageSize {
        if digest(page) in prints {
          return Err(RepeatedPage(offset)), pages;
        }
        prints := prints + {digest(page)};
      }
      markets := markets + page;
      if |page| >= pageSize && offset + |page| > USIZE_MAX {
        return Err(OffsetOverflow(offset)), pages;
      }
      OneMorePage(fetch, pageSize, digest, pages, page);
      ConcatSnoc(pages, page);
      pages := pages + [page];
      if |page| < pageSize {
        break;
      }
      offset := offset + |page|;
    }
    r := NormalizeSnapshot(markets, shardSize, digest);
  }

  ghost predicate AllFull(pages: seq<seq<Market>>, pageSize: nat) {
    forall k :: 0 <= k < |pages| ==> |pages[k]| >= pageSize
  }

  /** The fingerprints kept are those of the full pages read. */
  ghost predicate PrintsOf(prints: set<string>, pages: seq<seq<Market>>, pageSize: nat, digest: seq<Market> -> string) {
    forall f :: f in prints <==> exists j :: 0 <= j < |pages| && |pages[j]| == pageSize && digest(pages[j]) == f
  }

  lemma NoPages(fetch: Request -> Result<seq<Market>>, pageSize: nat, digest: seq<Market> -> string)
    ensures ReadsPages(fetch, pageSize, digest, []) && PrintsOf({}, [], pageSize, digest) && Concat<Market>([]) == []
  {
  }

  lemma PrintsTell(prints: set<string>, pages: seq<seq<Market>>, pageSize: nat, digest: seq<Market> -> string, page: seq<Market>)
    requires PrintsOf(prints, pages, pageSize, digest)
    ensures IsRepeated(page, pages, pageSize, digest) <==> |page| == pageSize && digest(page) in prints
    ensures PrintsOf(
      if |page| == pageSize then prints + {digest(page)} else prints, pages + [page], pageSize, digest)
  {
    var longer := pages + [page];
    assert longer[|pages|] == page && forall j :: 0 <= j < |pages| ==> longer[j] == pages[j];
  }

  lemma OneMorePage(
    fetch: Request -> Result<seq<Market>>, pageSize: nat, digest: seq<Market> -> string, pages: seq<seq<Market>>,
    page: seq<Market>)
    requires ReadsPages(fetch, pageSize, digest, pages) && AllFull(pages, pageSize)
    requires fetch(Request(pageSize, |Concat(pages)|)) == Ok(page) && ValidPage(page)
    requires !IsRepeated(page, pages, pageSize, digest)
    ensures ReadsPages(fetch, pageSize, digest, pages + [page])
  {
    hide ValidPage, Concat;
    var longer := pages + [page];
    forall k | 0 <= k < |longer| ensures fetch(Request(pageSize, |Concat(longer[..k])|)) == Ok(longer[k]) && ValidPage(longer[k]) {
      assert longer[..k] == if k < |pages| then pages[..k] else pages;
    }
  }

  lemma NothingRead(list: seq<Market>, pageSize: nat, digest: seq<Market> -> string)
    ensures Fingerprints({}, list, 0, pageSize, digest) && ValidPage([])
  {
  }

  lemma ValidTogether(a: seq<Market>, b: seq<Market>)
    ensures ValidPage(a + b) <==> ValidPage(a) && ValidPage(b)
  {
    hide ValidMarket;
    assert forall i :: 0 <= i < |a| ==> (a + b)[i] == a[i];
    assert forall i :: 0 <= i < |b| ==> (a + b)[|a| + i] == b[i];
  }

  /** One page of a steady provider continues the listing and is new. */
  lemma SteadyPage(
    fetch: Request -> Result<seq<Market>>, list: seq<Market>, pageSize: nat, digest: seq<Market> -> string,
    offset: nat, prints: set<string>)
    requires Steady(fetch, list, pageSize, digest) && pageSize > 0 && offset <= |list|
    requires Fingerprints(prints, list, offset, pageSize, digest)
    ensures var answer := fetch(Request(pageSize, offset));
      && answer.Ok?
      && var page := answer.value;
      && offset + |page| <= |list| <= USIZE_MAX && |page| <= pageSize
      && list[..offset] + page == list[..offset + |page|]
      && (|page| < pageSize ==> list[..offset] + page == list)
      && (!ValidPage(page) ==> !ValidPage(list))
      && (|page| == pageSize ==>
        && digest(page) !in prints
        && Fingerprints(prints + {digest(page)}, list, offset + pageSize, pageSize, digest))
  {
    hide ValidMarket, Fingerprints, DistinctIds, Injective;
    var page := Page(list, Request(pageSize, offset));
    assert fetch(Request(pageSize, offset)) == Ok(page);
    assert list[..offset] + page == list[..offset + |page|];
    assert list == list[..offset] + page + list[offset + |page|..];
    ValidTogether(list[..offset] + page, list[offset + |page|..]);
    ValidTogether(list[..offset], page);
    if |page| == pageSize {
      FreshPage(prints, list, offset, pageSize, digest);
    }
  }

  /** Neither the page size nor the order of the listing changes what discovery finds. */
  lemma PagingAndOrderAreIrrelevant(a: seq<Market>, b: seq<Market>, shardSize: nat, digest: seq<Market> -> string)
    requires shardSize > 0 && multiset(a) == multiset(b) && DistinctIds(a)
    ensures Discovered(a, shardSize, digest) == Discovered(b, shardSize, digest)
  {
    hide Normalized, ValidMarket;
    ListingOrderIsIrrelevant(a, b, shardSize, digest);
    if ValidPage(a) {
      ValidPermutation(a, b);
    } else if ValidPage(b) {
      ValidPermutation(b, a);
    }
  }

  lemma ValidPermutation(a: seq<Market>, b: seq<Market>)
    requires multiset(a) == multiset(b) && ValidPage(a)
    ensures ValidPage(b)
  {
    hide ValidMarket;
    forall i | 0 <= i < |b| ensures ValidMarket(b[i]) {
      assert b[i] in multiset(b);
      assert b[i] in a;
    }
  }
}
