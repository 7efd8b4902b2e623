/** The canonical order of source events, and the replay that merges streams under it. */
module SourceMerge {
  import opened Trading
  import opened Texts

  // ----- the canonical order

  datatype Key =
    | Pm(timestampMs: Millis, rank: int, streamId: string, epoch: int, frame: int)
    | Cex(timestampMs: Millis, rank: int, tradeId: nat)

  function Compare(a: Key, b: Key): Ordering {
    var head := Then(CompareInt(a.timestampMs, b.timestampMs), CompareInt(a.rank, b.rank));
    if head != Equal then head
    else
      match (a, b)
      case (Pm(_, _, s, e, f), Pm(_, _, t, g, h)) => Then(Then(CompareText(s, t), CompareInt(e, g)), CompareInt(f, h))
      case (Cex(_, _, i), Cex(_, _, j)) => CompareInt(i, j)
      case (Pm(_, _, _, _, _), Cex(_, _, _)) => Less
      case (Cex(_, _, _), Pm(_, _, _, _, _)) => Greater
  }

  /** Comparison is antisymmetric, transitive and agrees with equality. */
  lemma KeysAreTotallyOrdered(a: Key, b: Key, c: Key)
    ensures Compare(a, b) == Equal <==> a == b
    ensures Compare(b, a) == Flip(Compare(a, b))
    ensures Compare(a, b) != Greater && Compare(b, c) != Greater ==> Compare(a, c) != Greater
    ensures Compare(a, b) == Less && Compare(b, c) != Greater ==> Compare(a, c) == Less
    ensures Compare(a, b) != Greater && Compare(b, c) == Less ==> Compare(a, c) == Less
  {
    hide CompareText;
    if a.Pm? && b.Pm? {
      TextOrder(a.streamId, b.streamId);
    }
    if a.Pm? && b.Pm? && c.Pm? {
      TextOrder(b.streamId, c.streamId);
      TextOrder(a.streamId, c.streamId);
      if CompareText(a.streamId, b.streamId) != Greater && CompareText(b.streamId, c.streamId) != Greater {
        TextTransitive(a.streamId, b.streamId, c.streamId);
      }
    }
  }

  /** The later fields of two keys of one time and rank: market frames first, then trades by their ids. */
  ghost predicate EarlierInRank(a: Key, b: Key) {
    match (a, b)
    case (Pm(_, _, s, e, f), Pm(_, _, t, g, h)) => DictionaryBefore(s, t) || (s == t && (e < g || (e == g && f < h)))
    case (Cex(_, _, i), Cex(_, _, j)) => i < j
    case (Pm(_, _, _, _, _), Cex(_, _, _)) => true
    case (Cex(_, _, _), Pm(_, _, _, _, _)) => false
  }

  /** Keys are ordered field by field: time, rank, then stream, epoch and frame, or trade id. */
  lemma KeyOrder(a: Key, b: Key)
    ensures Compare(a, b) == Less <==>
      a.timestampMs < b.timestampMs ||
      (a.timestampMs == b.timestampMs && (a.rank < b.rank || (a.rank == b.rank && EarlierInRank(a, b))))
  {
    hide CompareText, DictionaryBefore;
    if a.Pm? && b.Pm? {
      TextOrder(a.streamId, b.streamId);
      TextIsDictionary(a.streamId, b.streamId);
    }
  }

  /** The order refines time. */
  lemma OrderRefinesTime(a: Key, b: Key)
    requires Compare(a, b) != Greater
    ensures a.timestampMs <= b.timestampMs
  {
  }

  // ----- streams and positions in them

  datatype Envelope<T> = Envelope(key: Key, fact: T)

  /** What a stream yields: some updates and then either its end or an error. */
  datatype Stream<T> = Stream(items: seq<Envelope<T>>, fails: bool)

  datatype Position = Position(stream: nat, index: nat)

  datatype Signal<T> = Data(envelope: Envelope<T>) | Watermark(ms: Millis)

  datatype Result = Done | StreamFailed | WatermarkUnderflow | WatermarkRegressed

  ghost predicate Within<T>(streams: seq<Stream<T>>, p: Position) {
    p.stream < |streams| && p.index < |streams[p.stream].items|
  }

  function At<T>(streams: seq<Stream<T>>, p: Position): Envelope<T>
    requires Within(streams, p)
  {
    streams[p.stream].items[p.index]
  }

  /** Every stream is sorted by key and stays within the window. */
  ghost predicate Sorted<T>(streams: seq<Stream<T>>, to: Millis) {
    && (forall s, i, j :: 0 <= s < |streams| && 0 <= i < j < |streams[s].items| ==>
      Compare(streams[s].items[i].key, streams[s].items[j].key) != Greater)
    && (forall p :: Within(streams, p) ==> At(streams, p).key.timestampMs <= to)
  }

  /** The order of emission: by key, then by stream, then by place in the stream. */
  ghost predicate Before<T>(streams: seq<Stream<T>>, p: Position, q: Position)
    requires Within(streams, p) && Within(streams, q)
  {
    var o := Compare(At(streams, p).key, At(streams, q).key);
    o == Less || (o == Equal && (p.stream < q.stream || (p.stream == q.stream && p.index < q.index)))
  }

  lemma BeforeIsStrictOrder<T>(streams: seq<Stream<T>>, p: Position, q: Position, r: Position)
    requires Within(streams, p) && Within(streams, q) && Within(streams, r)
    ensures Before(streams, p, q) && Before(streams, q, r) ==> Before(streams, p, r)
    ensures !Before(streams, p, p)
    ensures p != q ==> (Before(streams, p, q) <==> !Before(streams, q, p))
  {
    hide Compare;
    KeysAreTotallyOrdered(At(streams, p).key, At(streams, q).key, At(streams, r).key);
    KeysAreTotallyOrdered(At(streams, p).key, At(streams, p).key, At(streams, p).key);
    KeysAreTotallyOrdered(At(streams, q).key, At(streams, r).key, At(streams, r).key);
  }

  // ----- what a replay may say

  /** The positions visited, each one before the next. */
  ghost predicate Ascending<T>(streams: seq<Stream<T>>, order: seq<Position>) {
    && (forall k :: 0 <= k < |order| ==> Within(streams, order[k]))
    && (forall k, l :: 0 <= k < l < |order| ==> Before(streams, order[k], order[l]))
  }

  ghost predicate Complete<T>(streams: seq<Stream<T>>, order: seq<Position>) {
    forall p :: Within(streams, p) ==> p in order
  }

  function Events<T>(out: seq<Signal<T>>): seq<Envelope<T>> {
    if out == [] then []
    else if out[|out| - 1].Data? then Events(out[..|out| - 1]) + [out[|out| - 1].envelope]
    else Events(out[..|out| - 1])
  }

  ghost predicate Emits<T>(streams: seq<Stream<T>>, order: seq<Position>, events: seq<Envelope<T>>)
    requires Ascending(streams, order)
  {
    |events| == |order| && forall k :: 0 <= k < |order| ==> events[k] == At(streams, order[k])
  }

  /** A promise is never broken, repeated or taken back. */
  ghost predicate KeepsPromises<T>(out: seq<Signal<T>>) {
    forall i, j :: 0 <= i < j < |out| && out[i].Watermark? ==>
      out[i].ms < (match out[j] case Watermark(ms) => ms case Data(e) => e.key.timestampMs)
  }

  /** Every event but the first is announced as tightly as a watermark can. */
  ghost predicate Tight<T>(out: seq<Signal<T>>) {
    forall j :: 0 < j < |out| && out[j].Data? ==> Promised(out[..j], out[j].envelope.key.timestampMs - 1)
  }

  ghost predicate Promised<T>(out: seq<Signal<T>>, ms: int) {
    exists i :: 0 <= i < |out| && out[i].Watermark? && out[i].ms == ms
  }

  /** All events, each exactly once and in canonical order. */
  ghost predicate IsMerge<T>(streams: seq<Stream<T>>, events: seq<Envelope<T>>) {
    exists order :: Ascending(streams, order) && Complete(streams, order) && Emits(streams, order, events)
  }

  /** Events in canonical order, possibly not all of them. */
  ghost predicate IsOrdered<T>(streams: seq<Stream<T>>, events: seq<Envelope<T>>) {
    exists order :: Ascending(streams, order) && Emits(streams, order, events)
  }

  ghost predicate Floor<T>(streams: seq<Stream<T>>, p: Position) {
    Within(streams, p) && At(streams, p).key.timestampMs == I64_MIN
  }

  /** Two events at the earliest representable instant: the second cannot be announced. */
  ghost predicate TwoAtFloor<T>(streams: seq<Stream<T>>) {
    exists p, q :: p != q && Floor(streams, p) && Floor(streams, q)
  }

  /** There is only one canonical order. */
  lemma {:induction false} OrderIsUnique<T>(streams: seq<Stream<T>>, one: seq<Position>, two: seq<Position>)
    requires Ascending(streams, one) && Ascending(streams, two)
    requires forall p :: p in one <==> p in two
    ensures one == two
    decreases |one|
  {
    hide Before, Within;
    if one == [] {
      NothingIn(two);
    } else {
      var p := one[|one| - 1];
      assert p in two;
      var q := two[|two| - 1];
      SameLast(streams, one, two);
      var a, b := one[..|one| - 1], two[..|two| - 1];
      forall r ensures r in a <==> r in b {
        DropLast(streams, one, r);
        DropLast(streams, two, r);
      }
      OrderIsUnique(streams, a, b);
      assert one == a + [p] && two == b + [q];
    }
  }

  lemma NothingIn(s: seq<Position>)
    requires forall p :: p !in s
    ensures |s| == 0
  {
    var members := multiset(s);
    assert forall p :: p in members ==> p in s;
    assert members == multiset{};
  }

  lemma SameLast<T>(streams: seq<Stream<T>>, one: seq<Position>, two: seq<Position>)
    requires one != [] && two != [] && Ascending(streams, one) && Ascending(streams, two)
    requires forall p :: p in one <==> p in two
    ensures one[|one| - 1] == two[|two| - 1]
  {
    hide Before, Within;
    var p, q := one[|one| - 1], two[|two| - 1];
    if p != q {
      assert p in two && q in one;
      var k :| 0 <= k < |two| && two[k] == p;
      var l :| 0 <= l < |one| && one[l] == q;
      assert Before(streams, p, q) && Before(streams, q, p);
      BeforeIsStrictOrder(streams, p, q, q);
      assert false;
    }
  }

  lemma DropLast<T>(streams: seq<Stream<T>>, order: seq<Position>, p: Position)
    requires order != [] && Ascending(streams, order)
    ensures p in order[..|order| - 1] <==> p in order && p != order[|order| - 1]
  {
    hide Before, Within;
    var last := order[|order| - 1];
    BeforeIsStrictOrder(streams, last, last, last);
    assert order == order[..|order| - 1] + [last];
  }

  /** The merged events are determined by the streams alone. */
  lemma MergeIsUnique<T>(streams: seq<Stream<T>>, one: seq<Envelope<T>>, two: seq<Envelope<T>>)
    requires IsMerge(streams, one) && IsMerge(streams, two)
    ensures one == two
  {
    hide Ascending, Complete;
    var a :| Ascending(streams, a) && Complete(streams, a) && Emits(streams, a, one);
    var b :| Ascending(streams, b) && Complete(streams, b) && Emits(streams, b, two);
    CompleteOrdersAgree(streams, a, b);
    OrderIsUnique(streams, a, b);
    EmitsOnce(streams, a, one, two);
  }

  lemma CompleteOrdersAgree<T>(streams: seq<Stream<T>>, a: seq<Position>, b: seq<Position>)
    requires Ascending(streams, a) && Complete(streams, a) && Ascending(streams, b) && Complete(streams, b)
    ensures forall p :: p in a <==> p in b
  {
    hide Before, Within;
  }

  lemma EmitsOnce<T>(streams: seq<Stream<T>>, order: seq<Position>, one: seq<Envelope<T>>, two: seq<Envelope<T>>)
    requires Ascending(streams, order) && Emits(streams, order, one) && Emits(streams, order, two)
    ensures one == two
  {
    hide Before, Within;
  }

  // ----- the frontier of a merge

  /** How many events of a stream have been emitted. */
  function Emitted<T>(cursor: seq<nat>, pending: map<nat, Envelope<T>>, s: nat): int
    requires s < |cursor|
  {
    var c: int := cursor[s];
    if s in pending then c - 1 else c
  }

  ghost predicate Heads<T>(streams: seq<Stream<T>>, cursor: seq<nat>, pending: map<nat, Envelope<T>>) {
    && |cursor| == |streams|
    && (forall s :: 0 <= s < |streams| && s !in pending ==> cursor[s] == |streams[s].items|)
    && (forall s :: s in pending ==>
      s < |streams| && 1 <= cursor[s] <= |streams[s].items| && pending[s] == streams[s].items[cursor[s] - 1])
  }

  ghost predicate Frontier<T>(
    streams: seq<Stream<T>>, cursor: seq<nat>, pending: map<nat, Envelope<T>>, order: seq<Position>)
  {
    && Heads(streams, cursor, pending)
    && Ascending(streams, order)
    && (forall p :: Within(streams, p) ==> (p in order <==> p.index < Emitted(cursor, pending, p.stream)))
    && Ahead(streams, cursor, pending, order)
  }

  /** Everything emitted comes before everything pending. */
  ghost predicate Ahead<T>(
    streams: seq<Stream<T>>, cursor: seq<nat>, pending: map<nat, Envelope<T>>, order: seq<Position>)
    requires Heads(streams, cursor, pending) && Ascending(streams, order)
  {
    forall k, s :: 0 <= k < |order| && s in pending ==> Before(streams, order[k], Position(s, cursor[s] - 1))
  }

  /** `s` holds a least pending event, earlier streams winning ties. */
  ghost predicate Least<T>(pending: map<nat, Envelope<T>>, s: nat) {
    s in pending && forall t :: t in pending && t != s ==>
      var o := Compare(pending[s].key, pending[t].key); o == Less || (o == Equal && s < t)
  }

  method LeastPending<T>(pending: map<nat, Envelope<T>>) returns (s: nat)
    requires pending != map[]
    ensures s in pending && Least(pending, s)
  {
    hide Compare;
    var todo := pending.Keys;
    s :| s in todo;
    todo := todo - {s};
    while todo != {}
      invariant s in pending && s !in todo && todo <= pending.Keys
      invariant forall t :: t in pending && t !in todo && t != s ==>
        var o := Compare(pending[s].key, pending[t].key); o == Less || (o == Equal && s < t)
      decreases |todo|
    {
      var t :| t in todo;
      todo := todo - {t};
      var o := Compare(pending[t].key, pending[s].key);
      KeysAreTotallyOrdered(pending[t].key, pending[s].key, pending[s].key);
      if o == Less || (o == Equal && t < s) {
        forall u | u in pending && u !in todo && u != t
          ensures var p := Compare(pending[t].key, pending[u].key); p == Less || (p == Equal && t < u)
        {
          KeysAreTotallyOrdered(pending[t].key, pending[s].key, pending[u].key);
          KeysAreTotallyOrdered(pending[t].key, pending[u].key, pending[u].key);
          KeysAreTotallyOrdered(pending[s].key, pending[u].key, pending[u].key);
        }
        s := t;
      }
    }
  }

  /** After emitting the least pending event and pulling its stream once more. */
  function Pulled<T>(streams: seq<Stream<T>>, cursor: seq<nat>, pending: map<nat, Envelope<T>>, s: nat)
    : (r: (seq<nat>, map<nat, Envelope<T>>))
    requires s < |cursor| == |streams|
  {
    if cursor[s] < |streams[s].items| then
      (cursor[s := cursor[s] + 1], pending[s := streams[s].items[cursor[s]]])
    else (cursor, pending - {s})
  }

  lemma EmitLeast<T>(
    streams: seq<Stream<T>>, cursor: seq<nat>, pending: map<nat, Envelope<T>>, order: seq<Position>, s: nat, to: Millis)
    requires Sorted(streams, to) && Frontier(streams, cursor, pending, order) && Least(pending, s)
    ensures var (next, rest) := Pulled(streams, cursor, pending, s);
      Frontier(streams, next, rest, order + [Position(s, cursor[s] - 1)])
  {
    hide Before, Compare, Sorted, Ahead;
    PulledHeads(streams, cursor, pending, s);
    EmittedGrows(streams, cursor, pending, order, s);
    StaysAhead(streams, cursor, pending, order, s, to);
  }

  lemma StaysAhead<T>(
    streams: seq<Stream<T>>, cursor: seq<nat>, pending: map<nat, Envelope<T>>, order: seq<Position>, s: nat, to: Millis)
    requires Sorted(streams, to) && Frontier(streams, cursor, pending, order) && Least(pending, s)
    requires var (next, rest) := Pulled(streams, cursor, pending, s); Heads(streams, next, rest)
    requires Ascending(streams, order + [Position(s, cursor[s] - 1)])
    ensures var (next, rest) := Pulled(streams, cursor, pending, s);
      Ahead(streams, next, rest, order + [Position(s, cursor[s] - 1)])
  {
    hide Before, Compare, Sorted, Pulled;
    var (next, rest) := Pulled(streams, cursor, pending, s);
    var p := Position(s, cursor[s] - 1);
    var longer := order + [p];
    assert longer[|order|] == p;
    forall k, t | 0 <= k < |longer| && t in rest
      ensures Before(streams, longer[k], Position(t, next[t] - 1))
    {
      LeastBefore(streams, cursor, pending, s, t, to);
      if k < |order| {
        assert longer[k] == order[k];
        BeforeIsStrictOrder(streams, order[k], p, Position(t, next[t] - 1));
      }
    }
  }

  lemma PulledHeads<T>(streams: seq<Stream<T>>, cursor: seq<nat>, pending: map<nat, Envelope<T>>, s: nat)
    requires Heads(streams, cursor, pending) && s in pending
    ensures var (next, rest) := Pulled(streams, cursor, pending, s); Heads(streams, next, rest)
  {
  }

  lemma EmittedGrows<T>(
    streams: seq<Stream<T>>, cursor: seq<nat>, pending: map<nat, Envelope<T>>, order: seq<Position>, s: nat)
    requires Frontier(streams, cursor, pending, order) && s in pending
    ensures var (next, rest) := Pulled(streams, cursor, pending, s);
      var longer := order + [Position(s, cursor[s] - 1)];
      && Ascending(streams, longer)
      && forall q :: Within(streams, q) ==> (q in longer <==> q.index < Emitted(next, rest, q.stream))
  {
    hide Before, Compare;
    var (next, rest) := Pulled(streams, cursor, pending, s);
    var p := Position(s, cursor[s] - 1);
    var longer := order + [p];
    assert Within(streams, p);
    forall q | Within(streams, q) ensures q in longer <==> q.index < Emitted(next, rest, q.stream) {
      assert q in longer <==> q in order || q == p;
    }
  }

  lemma LeastBefore<T>(
    streams: seq<Stream<T>>, cursor: seq<nat>, pending: map<nat, Envelope<T>>, s: nat, t: nat, to: Millis)
    requires Sorted(streams, to) && Heads(streams, cursor, pending) && Least(pending, s)
    requires t in Pulled(streams, cursor, pending, s).1
    ensures var (next, rest) := Pulled(streams, cursor, pending, s);
      && Heads(streams, next, rest)
      && Before(streams, Position(s, cursor[s] - 1), Position(t, next[t] - 1))
  {
    hide Compare, Sorted;
    PulledHeads(streams, cursor, pending, s);
    var c := cursor[s];
    if t == s {
      NextInStream(streams, s, c, to);
    } else {
      assert Pulled(streams, cursor, pending, s).0[t] == cursor[t];
    }
  }

  lemma NextInStream<T>(streams: seq<Stream<T>>, s: nat, c: nat, to: Millis)
    requires Sorted(streams, to) && s < |streams| && 1 <= c < |streams[s].items|
    ensures Compare(streams[s].items[c - 1].key, streams[s].items[c].key) != Greater
  {
  }

  // ----- progress

  ghost function Left<T>(streams: seq<Stream<T>>, cursor: seq<nat>, pending: map<nat, Envelope<T>>, n: nat): int
    requires n <= |streams| == |cursor|
  {
    if n == 0 then 0
    else Left(streams, cursor, pending, n - 1) + |streams[n - 1].items| - Emitted(cursor, pending, n - 1)
  }

  lemma {:induction false} LeftIsNatural<T>(
    streams: seq<Stream<T>>, cursor: seq<nat>, pending: map<nat, Envelope<T>>, n: nat)
    requires Heads(streams, cursor, pending) && n <= |streams|
    ensures Left(streams, cursor, pending, n) >= 0
  {
    if n > 0 {
      LeftIsNatural(streams, cursor, pending, n - 1);
    }
  }

  lemma {:induction false} PullingMakesProgress<T>(
    streams: seq<Stream<T>>, cursor: seq<nat>, pending: map<nat, Envelope<T>>, s: nat, n: nat)
    requires Heads(streams, cursor, pending) && s in pending && n <= |streams|
    ensures var (next, rest) := Pulled(streams, cursor, pending, s);
      Left(streams, next, rest, n) == Left(streams, cursor, pending, n) - (if s < n then 1 else 0)
  {
    if n > 0 {
      PullingMakesProgress(streams, cursor, pending, s, n - 1);
    }
  }

  // ----- signals

  ghost predicate Closed<T>(out: seq<Signal<T>>, last: Option<Millis>) {
    && KeepsPromises(out)
    && Tight(out)
    && (last.Some? ==> Promised(out, last.value))
    && (forall i :: 0 <= i < |out| && out[i].Watermark? ==> last.Some? && out[i].ms <= last.value)
  }

  lemma SendData<T>(out: seq<Signal<T>>, last: Option<Millis>, e: Envelope<T>)
    requires Closed(out, last)
    requires last.Some? ==> last.value == e.key.timestampMs - 1
    requires last.None? ==> out == []
    ensures Closed(out + [Data(e)], last) && Events(out + [Data(e)]) == Events(out) + [e]
  {
    var longer := out + [Data(e)];
    assert longer[..|out|] == out;
    forall j | 0 < j < |longer| && longer[j].Data?
      ensures Promised(longer[..j], longer[j].envelope.key.timestampMs - 1)
    {
      if j < |out| {
        assert longer[..j] == out[..j];
      }
    }
    StillPromised(out, Data(e), last);
  }

  lemma StillPromised<T>(out: seq<Signal<T>>, signal: Signal<T>, last: Option<Millis>)
    requires last.Some? ==> Promised(out, last.value)
    ensures last.Some? ==> Promised(out + [signal], last.value)
  {
    if last.Some? {
      var i :| 0 <= i < |out| && out[i].Watermark? && out[i].ms == last.value;
      assert (out + [signal])[i] == out[i];
    }
  }

  lemma SendWatermark<T>(out: seq<Signal<T>>, last: Option<Millis>, ms: Millis)
    requires Closed(out, last) && (last.Some? ==> last.value < ms)
    ensures Closed(out + [Watermark(ms)], Some(ms)) && Events(out + [Watermark(ms)]) == Events(out)
  {
    var longer := out + [Watermark(ms)];
    assert longer[..|out|] == out;
    assert longer[|out|] == Watermark(ms);
    forall j | 0 < j < |longer| && longer[j].Data?
      ensures Promised(longer[..j], longer[j].envelope.key.timestampMs - 1)
    {
      assert longer[..j] == out[..j];
    }
  }

  // ----- the replay

  /** What the last watermark promises about the events still to come. */
  ghost predicate Announced<T>(
    pending: map<nat, Envelope<T>>, order: seq<Position>, last: Option<Millis>, to: Millis)
  {
    if order == [] then last == None
    else if pending == map[] then last == Some(to)
    else
      && last.Some?
      && (forall s :: s in pending ==> last.value < pending[s].key.timestampMs)
      && (exists s :: s in pending && last.value == pending[s].key.timestampMs - 1)
  }

  /** Only the very first event may sit at the floor. */
  ghost predicate OneAtFloor<T>(streams: seq<Stream<T>>, order: seq<Position>)
    requires Ascending(streams, order)
  {
    forall k :: 0 < k < |order| ==> !Floor(streams, order[k])
  }

  lemma LeastIsNext<T>(pending: map<nat, Envelope<T>>, order: seq<Position>, last: Option<Millis>, to: Millis, s: nat)
    requires Announced(pending, order, last, to) && Least(pending, s)
    ensures order != [] ==> last == Some(pending[s].key.timestampMs - 1)
  {
    hide Compare;
    if order != [] {
      assert pending != map[];
      var t :| t in pending && last.value == pending[t].key.timestampMs - 1;
      if t != s {
        OrderRefinesTime(pending[s].key, pending[t].key);
      }
    }
  }

  /** Between two rounds of a replay. */
  ghost predicate Running<T>(
    streams: seq<Stream<T>>, cursor: seq<nat>, pending: map<nat, Envelope<T>>, order: seq<Position>,
    out: seq<Signal<T>>, last: Option<Millis>, to: Millis)
  {
    && Frontier(streams, cursor, pending, order)
    && Emits(streams, order, Events(out))
    && OneAtFloor(streams, order)
    && Closed(out, last)
    && Announced(pending, order, last, to)
    && (order == [] <==> out == [])
    && (last == Some(to) ==> out != [] && out[|out| - 1] == Watermark(to))
  }

  /** Within a round: an event is out, its watermark is not. */
  ghost predicate Sent<T>(
    streams: seq<Stream<T>>, cursor: seq<nat>, pending: map<nat, Envelope<T>>, order: seq<Position>,
    out: seq<Signal<T>>, last: Option<Millis>, e: Envelope<T>)
  {
    && Frontier(streams, cursor, pending, order)
    && Emits(streams, order, Events(out))
    && OneAtFloor(streams, order)
    && Closed(out, last)
    && order != [] && At(streams, order[|order| - 1]) == e
    && out != []
    && (last.Some? ==> last.value == e.key.timestampMs - 1)
  }

  lemma SendLeast<T>(
    streams: seq<Stream<T>>, cursor: seq<nat>, pending: map<nat, Envelope<T>>, order: seq<Position>,
    out: seq<Signal<T>>, last: Option<Millis>, to: Millis, s: nat)
    requires Sorted(streams, to) && Running(streams, cursor, pending, order, out, last, to) && Least(pending, s)
    ensures var (next, rest) := Pulled(streams, cursor, pending, s);
      Sent(streams, next, rest, order + [Position(s, cursor[s] - 1)], out + [Data(pending[s])], last, pending[s])
  {
    hide Sorted, Before, Compare, KeepsPromises, Tight, Promised, Pulled, Closed, Events, Ahead;
    var e := pending[s];
    LeastIsNext(pending, order, last, to, s);
    SendData(out, last, e);
    EmitLeast(streams, cursor, pending, order, s, to);
    var p := Position(s, cursor[s] - 1);
    assert Within(streams, p) && At(streams, p) == e;
    assert order != [] ==> !Floor(streams, p);
  }

  function NextMark<T>(pending: map<nat, Envelope<T>>, s: nat, to: Millis): int
    requires pending != map[] ==> s in pending
  {
    if pending == map[] then to else pending[s].key.timestampMs - 1
  }

  /** The next watermark sits just below the least pending event, or at the end of the window. */
  lemma NextWatermark<T>(
    streams: seq<Stream<T>>, cursor: seq<nat>, pending: map<nat, Envelope<T>>, order: seq<Position>, to: Millis,
    e: Envelope<T>, last: Option<Millis>, s: nat)
    requires Sorted(streams, to) && Frontier(streams, cursor, pending, order)
    requires order != [] && At(streams, order[|order| - 1]) == e
    requires last.Some? ==> last.value == e.key.timestampMs - 1
    requires pending != map[] ==> Least(pending, s)
    ensures var mark := NextMark(pending, s, to);
      && (last.Some? ==> last.value <= mark && (mark == to ==> last.value < mark))
      && mark <= to && (pending != map[] ==> mark < to)
      && (mark >= I64_MIN ==> Announced(pending, order, Some(mark), to))
      && (mark < I64_MIN ==> TwoAtFloor(streams))
  {
    hide Compare;
    var p := order[|order| - 1];
    assert Within(streams, p) && e.key.timestampMs <= to;
    if pending != map[] {
      var q := Position(s, cursor[s] - 1);
      assert Within(streams, q) && At(streams, q) == pending[s];
      assert Before(streams, p, q);
      OrderRefinesTime(e.key, pending[s].key);
      LeastIsEarliest(pending, s);
      if pending[s].key.timestampMs == I64_MIN {
        BeforeIsStrictOrder(streams, p, q, q);
        assert Floor(streams, p) && Floor(streams, q);
      }
    }
  }

  lemma LeastIsEarliest<T>(pending: map<nat, Envelope<T>>, s: nat)
    requires Least(pending, s)
    ensures forall t :: t in pending ==> pending[s].key.timestampMs <= pending[t].key.timestampMs
  {
    hide Compare;
    forall t | t in pending ensures pending[s].key.timestampMs <= pending[t].key.timestampMs {
      if t != s {
        OrderRefinesTime(pending[s].key, pending[t].key);
      }
    }
  }

  lemma SendNext<T>(
    streams: seq<Stream<T>>, cursor: seq<nat>, pending: map<nat, Envelope<T>>, order: seq<Position>,
    out: seq<Signal<T>>, last: Option<Millis>, to: Millis, e: Envelope<T>, s: nat)
    requires Sorted(streams, to) && Sent(streams, cursor, pending, order, out, last, e)
    requires pending != map[] ==> Least(pending, s)
    ensures var mark := NextMark(pending, s, to);
      && mark <= to && (last.Some? ==> last.value <= mark)
      && (mark < I64_MIN ==> TwoAtFloor(streams))
      && (mark >= I64_MIN ==>
        var said := if last == Some(mark) then out else out + [Watermark(mark)];
        Running(streams, cursor, pending, order, said, Some(mark), to))
  {
    hide Sorted, Frontier, Before, Compare, KeepsPromises, Tight, Promised, Closed, Events, Announced;
    NextWatermark(streams, cursor, pending, order, to, e, last, s);
    var mark := NextMark(pending, s, to);
    if mark >= I64_MIN && last != Some(mark) {
      SendWatermark(out, last, mark);
    }
  }

  lemma AllEmitted<T>(streams: seq<Stream<T>>, cursor: seq<nat>, order: seq<Position>)
    requires Frontier(streams, cursor, map[], order) && OneAtFloor(streams, order)
    ensures Complete(streams, order) && !TwoAtFloor(streams)
  {
    hide Before, Compare;
    forall p | Within(streams, p) ensures p in order {
      assert p.index < cursor[p.stream];
    }
    forall p, q | p != q && Floor(streams, p) && Within(streams, q) ensures !Floor(streams, q) {
      FloorIsFirst(streams, order, p, q);
    }
  }

  lemma FloorIsFirst<T>(streams: seq<Stream<T>>, order: seq<Position>, p: Position, q: Position)
    requires Ascending(streams, order) && Complete(streams, order) && OneAtFloor(streams, order)
    requires p != q && Floor(streams, p) && Within(streams, q)
    ensures !Floor(streams, q)
  {
    hide Before;
    var k :| 0 <= k < |order| && order[k] == p;
    var l :| 0 <= l < |order| && order[l] == q;
    assert k == 0;
  }

  /** Opens every stream at its first event. */
  method FirstEvents<T>(streams: seq<Stream<T>>)
    returns (ok: bool, cursor: seq<nat>, pending: map<nat, Envelope<T>>)
    ensures ok <==> forall s :: 0 <= s < |streams| && streams[s].items == [] ==> !streams[s].fails
    ensures ok ==> Heads(streams, cursor, pending) && forall s :: s in pending ==> cursor[s] == 1
    ensures ok ==> forall s :: 0 <= s < |streams| && s !in pending ==> streams[s].items == []
  {
    ok, cursor, pending := true, [], map[];
    for s := 0 to |streams|
      invariant ok && |cursor| == s
      invariant forall t :: 0 <= t < s && streams[t].items == [] ==> !streams[t].fails
      invariant forall t :: 0 <= t < s && t !in pending ==> cursor[t] == |streams[t].items| == 0
      invariant forall t :: t in pending ==>
        t < s && cursor[t] == 1 <= |streams[t].items| && pending[t] == streams[t].items[0]
    {
      if streams[s].items != [] {
        cursor, pending := cursor + [1], pending[s := streams[s].items[0]];
      } else if streams[s].fails {
        ok := false;
        return;
      } else {
        cursor := cursor + [0];
      }
    }
  }

  lemma NothingEmitted<T>(streams: seq<Stream<T>>)
    ensures Ascending(streams, []) && Emits(streams, [], []) && OneAtFloor(streams, [])
  {
  }

  lemma NothingBefore<T>(streams: seq<Stream<T>>, cursor: seq<nat>, pending: map<nat, Envelope<T>>, to: Millis)
    requires Heads(streams, cursor, pending) && forall s :: s in pending ==> cursor[s] == 1
    requires forall s :: 0 <= s < |streams| && s !in pending ==> streams[s].items == []
    requires forall s :: 0 <= s < |streams| && streams[s].items == [] ==> !streams[s].fails
    ensures Running(streams, cursor, pending, [], [], None, to) && ReadOut(streams, pending)
  {
  }

  lemma AtTheEnd<T>(pending: map<nat, Envelope<T>>, order: seq<Position>, last: Option<Millis>, to: Millis)
    requires pending == map[] && Announced(pending, order, last, to)
    ensures if order == [] then last == None else last == Some(to)
  {
  }

  ghost predicate NoFailure<T>(streams: seq<Stream<T>>) {
    forall s :: 0 <= s < |streams| ==> !streams[s].fails
  }

  /** Streams known not to fail: those read past their last event. */
  ghost predicate ReadOut<T>(streams: seq<Stream<T>>, pending: map<nat, Envelope<T>>) {
    forall s :: 0 <= s < |streams| && s !in pending ==> !streams[s].fails
  }

  /** What holds of the signals however far a replay gets. */
  ghost predicate Safe<T>(streams: seq<Stream<T>>, out: seq<Signal<T>>) {
    KeepsPromises(out) && Tight(out) && IsOrdered(streams, Events(out))
  }

  lemma NothingSent<T>(streams: seq<Stream<T>>)
    requires exists s :: 0 <= s < |streams| && streams[s].fails
    ensures Safe(streams, []) && !NoFailure(streams)
  {
    NothingEmitted(streams);
  }

  lemma SentIsSafe<T>(
    streams: seq<Stream<T>>, cursor: seq<nat>, pending: map<nat, Envelope<T>>, order: seq<Position>,
    out: seq<Signal<T>>, last: Option<Millis>, e: Envelope<T>)
    requires Sent(streams, cursor, pending, order, out, last, e)
    ensures Safe(streams, out)
  {
    hide Before, KeepsPromises, Tight, Promised, Events;
  }

  lemma SomeFailure<T>(streams: seq<Stream<T>>, s: nat)
    requires s < |streams| && streams[s].fails
    ensures !NoFailure(streams)
  {
  }

  lemma HeadInRange<T>(streams: seq<Stream<T>>, cursor: seq<nat>, pending: map<nat, Envelope<T>>, s: nat)
    requires Heads(streams, cursor, pending) && s in pending
    ensures s < |cursor| == |streams| && 1 <= cursor[s] <= |streams[s].items|
  {
  }

  lemma StillReadOut<T>(streams: seq<Stream<T>>, cursor: seq<nat>, pending: map<nat, Envelope<T>>, s: nat)
    requires Heads(streams, cursor, pending) && ReadOut(streams, pending) && s in pending
    requires !(cursor[s] == |streams[s].items| && streams[s].fails)
    ensures ReadOut(streams, Pulled(streams, cursor, pending, s).1)
  {
  }

  lemma Finish<T>(
    streams: seq<Stream<T>>, cursor: seq<nat>, order: seq<Position>, out: seq<Signal<T>>, last: Option<Millis>,
    to: Millis)
    requires Running(streams, cursor, map[], order, out, last, to) && ReadOut(streams, map[])
    ensures NoFailure(streams) && !TwoAtFloor(streams)
    ensures var said := if last.None? || last.value < to then out + [Watermark(to)] else out;
      Safe(streams, said) && IsMerge(streams, Events(said)) && said != [] && said[|said| - 1] == Watermark(to)
  {
    hide Ahead, Before, Within, Heads, KeepsPromises, Tight, Promised, Events, TwoAtFloor, Complete;
    AllEmitted(streams, cursor, order);
    AtTheEnd<T>(map[], order, last, to);
    if last.None? {
      SendWatermark(out, last, to);
    }
  }

  /** Watermarks only move forward. */
  ghost predicate Increasing<T>(out: seq<Signal<T>>) {
    forall i, j :: 0 <= i < j < |out| && out[i].Watermark? && out[j].Watermark? ==> out[i].ms < out[j].ms
  }

  ghost predicate UpToLast<T>(out: seq<Signal<T>>, last: Option<Millis>) {
    Increasing(out) && forall i :: 0 <= i < |out| && out[i].Watermark? ==> last.Some? && out[i].ms <= last.value
  }

  lemma StartsUpToLast<T>()
    ensures UpToLast<T>([], None)
  {
  }

  lemma MoreData<T>(out: seq<Signal<T>>, last: Option<Millis>, e: Envelope<T>)
    requires UpToLast(out, last)
    ensures UpToLast(out + [Data(e)], last)
  {
  }

  /**
   * The signals of one replay window. Streams in any order are replayed with increasing watermarks;
   * sorted ones completely, in order and within every promise made.
   */
  method Replay<T>(from: Millis, to: Millis, streams: seq<Stream<T>>) returns (r: Result, out: seq<Signal<T>>)
    ensures Increasing(out)
    ensures r == WatermarkRegressed ==> !Sorted(streams, to)
    ensures from >= to ==> r == Done && out == [Watermark(to)]
    ensures from < to && Sorted(streams, to) ==> Safe(streams, out)
    ensures from < to && Sorted(streams, to) ==> (r == Done <==> NoFailure(streams) && !TwoAtFloor(streams))
    ensures from < to && Sorted(streams, to) && r == Done ==>
      IsMerge(streams, Events(out)) && out != [] && out[|out| - 1] == Watermark(to)
  {
    hide *;
    out := [];
    StartsUpToLast<T>();
    var last: Option<Millis> := None;
    if from >= to {
      MoreAndLast(out, last, to);
      out := out + [Watermark(to)];
      return Done, out;
    }
    ghost var sorted := Sorted(streams, to);
    ghost var order: seq<Position> := [];
    UpToLastIncreases(out, last);
    var ok, cursor, pending := FirstEvents(streams);
    if !ok {
      NothingSent(streams);
      return StreamFailed, out;
    }
    NothingBefore(streams, cursor, pending, to);
    while pending != map[]
      invariant sorted ==> Running(streams, cursor, pending, order, out, last, to)
      invariant UpToLast(out, last)
      invariant |cursor| == |streams| && Heads(streams, cursor, pending) && ReadOut(streams, pending)
      decreases Left(streams, cursor, pending, |streams|)
    {
      var s := LeastPending(pending);
      HeadInRange(streams, cursor, pending, s);
      var e := pending[s];
      if sorted {
        SendLeast(streams, cursor, pending, order, out, last, to, s);
      }
      PulledHeads(streams, cursor, pending, s);
      PullingMakesProgress(streams, cursor, pending, s, |streams|);
      LeftIsNatural(streams, cursor, pending, |streams|);
      MoreData(out, last, e);
      out := out + [Data(e)];
      UpToLastIncreases(out, last);
      order := order + [Position(s, cursor[s] - 1)];
      var pulled := Pulled(streams, cursor, pending, s);
      if sorted {
        SentIsSafe(streams, pulled.0, pulled.1, order, out, last, e);
      }
      if cursor[s] == |streams[s].items| && streams[s].fails {
        SomeFailure(streams, s);
        return StreamFailed, out;
      }
      StillReadOut(streams, cursor, pending, s);
      cursor, pending := pulled.0, pulled.1;
      var next := 0;
      if pending != map[] {
        next := LeastPending(pending);
      }
      if sorted {
        SendNext(streams, cursor, pending, order, out, last, to, e, next);
      }
      var watermark := NextMark(pending, next, to);
      if watermark < I64_MIN {
        return WatermarkUnderflow, out;
      }
      if last.Some? && watermark < last.value {
        return WatermarkRegressed, out;
      }
      if last != Some(watermark) {
        MarkInRange(pending, next, to);
        MoreAndLast(out, last, watermark);
        out := out + [Watermark(watermark)];
        last := Some(watermark);
      }
    }
    if sorted {
      Finish(streams, cursor, order, out, last, to);
    }
    UpToLastIncreases(out, last);
    if last.None? || last.value < to {
      MoreAndLast(out, last, to);
      out := out + [Watermark(to)];
    }
    return Done, out;
  }

  lemma UpToLastIncreases<T>(out: seq<Signal<T>>, last: Option<Millis>)
    requires UpToLast(out, last)
    ensures Increasing(out)
  {
  }

  lemma MoreAndLast<T>(out: seq<Signal<T>>, last: Option<Millis>, mark: Millis)
    requires UpToLast(out, last) && (last.Some? ==> last.value < mark)
    ensures UpToLast(out + [Watermark(mark)], Some(mark)) && Increasing(out + [Watermark(mark)])
  {
  }

  lemma MarkInRange<T>(pending: map<nat, Envelope<T>>, s: nat, to: Millis)
    requires pending != map[] ==> s in pending
    ensures NextMark(pending, s, to) <= I64_MAX
  {
  }
}
