/** The frame collector: shards, one bounded channel and one tape writer, step by step. */
module Collector {
  import opened Trading
  import Numerals
  import Sequences

  datatype Record = Record(receiptMs: Millis, connection: string, raw: string)

  /** Where one shard's task stands. */
  datatype Phase =
    | Connecting
    | Pumping
    | Sending(record: Record)
    | BackingOff
    | Stopped
    | Exhausted

  datatype Shard = Shard(phase: Phase, epoch: nat, reconnects: nat, failures: nat, joined: bool)

  datatype Writer = Writing | Flushed | Broken

  /** The collector between two steps; `received` records every frame a connection returned. */
  datatype State = State(
    shards: seq<Shard>,
    queue: seq<Record>,
    writer: Writer,
    writerSeen: bool,
    tape: seq<Record>,
    written: nat,
    cancelled: bool,
    failed: bool,
    reconnects: nat,
    received: seq<Record>)

  datatype Config = Config(capacity: nat, maxFailures: nat)

  predicate Legal(c: Config) {
    c.capacity > 0 && c.maxFailures > 0
  }

  datatype Action =
    | Shutdown
    | Connect(i: nat)
    | ConnectFails(i: nat)
    | Retry(i: nat)
    | Receive(i: nat, receiptMs: Millis, raw: string)
    | Disconnect(i: nat)
    | Stop(i: nat)
    | Send(i: nat)
    | SendFails(i: nat)
    | Append
    | AppendFails
    | Flush
    | FlushFails
    | Join(i: nat)
    | SeeWriter

  /** Shards with one subscription chunk each. */
  function PlanShards<T>(subscriptions: seq<T>, shardSize: nat): (r: seq<seq<T>>)
    requires shardSize > 0
    ensures Sequences.Concat(r) == subscriptions
    ensures forall i :: 0 <= i < |r| ==> 0 < |r[i]| <= shardSize
    ensures forall i :: 0 <= i < |r| - 1 ==> |r[i]| == shardSize
  {
    Sequences.Chunks(subscriptions, shardSize)
  }

  function Start(shards: nat): State {
    State(
      seq(shards, _ => Shard(Connecting, 0, 0, 0, false)), [], Writing, false, [], 0, false, false, 0, [])
  }

  predicate Ended(p: Phase) {
    p == Stopped || p == Exhausted
  }

  predicate AllEnded(shards: seq<Shard>) {
    forall i :: 0 <= i < |shards| ==> Ended(shards[i].phase)
  }

  function ConnectionId(shard: nat, epoch: nat): string {
    Numerals.Numbered(Numerals.Numbered("shard", shard) + "-epoch", epoch)
  }

  /** When a step can happen. */
  predicate Enabled(c: Config, s: State, a: Action) {
    match a
    case Shutdown => true
    case Connect(i) => i < |s.shards| && s.shards[i].phase == Connecting
    case ConnectFails(i) => i < |s.shards| && s.shards[i].phase == Connecting
    case Retry(i) => i < |s.shards| && s.shards[i].phase == BackingOff
    case Receive(i, _, _) => i < |s.shards| && s.shards[i].phase == Pumping
    case Disconnect(i) => i < |s.shards| && s.shards[i].phase == Pumping
    case Stop(i) =>
      i < |s.shards| && s.cancelled && s.shards[i].phase in {Connecting, Pumping, BackingOff}
    case Send(i) =>
      i < |s.shards| && s.shards[i].phase.Sending? && s.writer == Writing && |s.queue| < c.capacity
    case SendFails(i) => i < |s.shards| && s.shards[i].phase.Sending? && s.writer != Writing
    case Append => s.writer == Writing && s.queue != []
    case AppendFails => s.writer == Writing && s.queue != []
    case Flush => s.writer == Writing && s.queue == [] && AllEnded(s.shards)
    case FlushFails => s.writer == Writing && s.queue == [] && AllEnded(s.shards)
    case Join(i) => i < |s.shards| && Ended(s.shards[i].phase) && !s.shards[i].joined
    case SeeWriter => s.writer != Writing && !s.writerSeen
  }

  function Update(s: State, i: nat, shard: Shard): State
    requires i < |s.shards|
  {
    s.(shards := s.shards[i := shard])
  }

  function Next(c: Config, s: State, a: Action): State
    requires Enabled(c, s, a)
  {
    match a
    case Shutdown => s.(cancelled := true)
    case Connect(i) =>
      var h := s.shards[i];
      Update(s, i, h.(phase := Pumping, epoch := h.epoch + 1, failures := 0))
    case ConnectFails(i) =>
      var h := s.shards[i];
      Update(s, i, h.(
        phase := if h.failures + 1 >= c.maxFailures then Exhausted else BackingOff,
        failures := h.failures + 1))
    case Retry(i) => Update(s, i, s.shards[i].(phase := Connecting))
    case Receive(i, receiptMs, raw) =>
      var h := s.shards[i];
      var record := Record(receiptMs, ConnectionId(i, if h.epoch > 0 then h.epoch - 1 else 0), raw);
      Update(s, i, h.(phase := Sending(record))).(received := s.received + [record])
    case Disconnect(i) =>
      var h := s.shards[i];
      Update(s, i, h.(phase := BackingOff, reconnects := h.reconnects + 1))
    case Stop(i) => Update(s, i, s.shards[i].(phase := Stopped))
    case Send(i) =>
      var h := s.shards[i];
      Update(s, i, h.(phase := Pumping)).(queue := s.queue + [h.phase.record])
    case SendFails(i) => Update(s, i, s.shards[i].(phase := Stopped))
    case Append => s.(tape := s.tape + [s.queue[0]], queue := s.queue[1..], written := s.written + 1)
    case AppendFails => s.(writer := Broken, queue := [])
    case Flush => s.(writer := Flushed)
    case FlushFails => s.(writer := Broken)
    case Join(i) =>
      var h := s.shards[i];
      var t := Update(s, i, h.(joined := true));
      if h.phase == Exhausted then t.(failed := true, cancelled := true)
      else t.(reconnects := s.reconnects + h.reconnects)
    case SeeWriter => s.(writerSeen := true, cancelled := true)
  }

  /** The run is over: every task has been joined and the writer's result seen. */
  predicate Over(s: State) {
    s.writerSeen && forall i :: 0 <= i < |s.shards| ==> s.shards[i].joined
  }

  predicate Succeeded(s: State) {
    Over(s) && !s.failed && s.writer == Flushed
  }

  ghost predicate IsRun(c: Config, states: seq<State>, actions: seq<Action>) {
    && |states| == |actions| + 1
    && forall k :: 0 <= k < |actions| ==>
      Enabled(c, states[k], actions[k]) && states[k + 1] == Next(c, states[k], actions[k])
  }

  // ----- what a shard counts

  predicate IsAttempt(a: Action, i: nat) {
    a == Connect(i) || a == ConnectFails(i)
  }

  /** Failed attempts of a shard to connect since it last succeeded. */
  function Streak(actions: seq<Action>, i: nat): nat {
    if actions == [] then 0
    else
      var last := actions[|actions| - 1];
      if last == Connect(i) then 0
      else Streak(actions[..|actions| - 1], i) + if last == ConnectFails(i) then 1 else 0
  }

  function Times(actions: seq<Action>, a: Action): nat {
    if actions == [] then 0 else Times(actions[..|actions| - 1], a) + if actions[|actions| - 1] == a then 1 else 0
  }

  ghost predicate Counts(h: Shard, actions: seq<Action>, i: nat) {
    h.failures == Streak(actions, i) && h.epoch == Times(actions, Connect(i)) && h.reconnects == Times(actions, Disconnect(i))
  }

  predicate HasGivenUp(s: State, i: nat) {
    i < |s.shards| && s.shards[i].phase == Exhausted
  }

  lemma NothingCounted(shards: nat, actions: seq<Action>, i: nat)
    requires i < shards
    ensures Counts(Start(shards).shards[i], actions[..0], i)
  {
  }

  /**
   * In every run a shard counts its consecutive failures, the connections it opened and those it lost; it gives up with
   * the failure that makes the streak as long as is allowed, and with no other.
   */
  lemma {:induction false} ShardsCount(c: Config, shards: nat, states: seq<State>, actions: seq<Action>, n: nat, i: nat)
    requires IsRun(c, states, actions) && states[0] == Start(shards) && n <= |actions| && i < shards
    ensures |states[n].shards| == shards && Counts(states[n].shards[i], actions[..n], i)
    ensures n > 0 ==>
      (HasGivenUp(states[n], i) <==>
       HasGivenUp(states[n - 1], i) || (actions[n - 1] == ConnectFails(i) && Streak(actions[..n], i) >= c.maxFailures))
    decreases n
  {
    hide ConnectionId, Next, Enabled, Counts, Streak;
    if n == 0 {
      NothingCounted(shards, actions, i);
    } else {
      ShardsCount(c, shards, states, actions, n - 1, i);
      StepCounts(c, states[n - 1], actions[n - 1], actions[..n - 1], i);
      assert actions[..n] == actions[..n - 1] + [actions[n - 1]];
    }
  }

  lemma StepCounts(c: Config, s: State, a: Action, past: seq<Action>, i: nat)
    requires Enabled(c, s, a) && i < |s.shards| && Counts(s.shards[i], past, i)
    ensures var t := Next(c, s, a);
      && |t.shards| == |s.shards| && Counts(t.shards[i], past + [a], i)
      && (HasGivenUp(t, i) <==> HasGivenUp(s, i) || (a == ConnectFails(i) && Streak(past + [a], i) >= c.maxFailures))
  {
    hide ConnectionId, Streak, Times;
    CountsSnoc(past, a, i);
  }

  lemma CountsSnoc(past: seq<Action>, a: Action, i: nat)
    ensures Streak(past + [a], i) ==
      if a == Connect(i) then 0 else Streak(past, i) + (if a == ConnectFails(i) then 1 else 0)
    ensures forall b :: Times(past + [a], b) == Times(past, b) + (if a == b then 1 else 0)
  {
    assert (past + [a])[..|past|] == past;
  }

  /**
   * What a connection returns is taken as it came, under the id of the connection last opened by its shard; nothing else
   * counts as received.
   */
  lemma FramesAreTakenAsTheyCome(c: Config, shards: nat, states: seq<State>, actions: seq<Action>, n: nat)
    requires Legal(c) && IsRun(c, states, actions) && states[0] == Start(shards) && n < |actions|
    ensures match actions[n]
      case Receive(i, receiptMs, raw) =>
        && i < shards && Times(actions[..n], Connect(i)) > 0
        && states[n + 1].received == states[n].received + [
          Record(receiptMs, "shard-" + Numerals.Decimal(i) + "-epoch-" + Numerals.Decimal(Times(actions[..n], Connect(i)) - 1), raw)]
      case _ => states[n + 1].received == states[n].received
  {
    hide Numerals.Decimal, Inv, Counts;
    var s, a := states[n], actions[n];
    assert Enabled(c, s, a) && states[n + 1] == Next(c, s, a);
    if a.Receive? {
      ShardCountIs(c, shards, states, actions, n, a.i);
      EveryRunKeepsInv(c, shards, states, actions, n);
      PumpingHasOpened(c, s, a.i);
      var e := Times(actions[..n], Connect(a.i)) - 1;
      assert ConnectionId(a.i, e) == "shard-" + Numerals.Decimal(a.i) + "-epoch-" + Numerals.Decimal(e);
    }
  }

  lemma ShardCountIs(c: Config, shards: nat, states: seq<State>, actions: seq<Action>, n: nat, i: nat)
    requires IsRun(c, states, actions) && states[0] == Start(shards) && n <= |actions| && i < |states[n].shards|
    ensures i < shards && states[n].shards[i].epoch == Times(actions[..n], Connect(i))
  {
    if i < shards {
      ShardsCount(c, shards, states, actions, n, i);
    } else {
      SameShards(c, shards, states, actions, n);
    }
  }

  lemma {:induction false} SameShards(c: Config, shards: nat, states: seq<State>, actions: seq<Action>, n: nat)
    requires IsRun(c, states, actions) && states[0] == Start(shards) && n <= |actions|
    ensures |states[n].shards| == shards
    decreases n
  {
    hide Enabled, Next;
    if n > 0 {
      SameShards(c, shards, states, actions, n - 1);
      KeepsShards(c, states[n - 1], actions[n - 1]);
    }
  }

  lemma KeepsShards(c: Config, s: State, a: Action)
    requires Enabled(c, s, a)
    ensures |Next(c, s, a).shards| == |s.shards|
  {
    hide ConnectionId;
  }

  lemma PumpingHasOpened(c: Config, s: State, i: nat)
    requires Inv(c, s) && i < |s.shards| && s.shards[i].phase == Pumping
    ensures s.shards[i].epoch > 0
  {
    hide Lossless, Prefixed, Attributed;
    assert ShardOk(c, i, s.shards[i]);
  }

  /** What makes the collector stop: it was told to, a shard gave up, or the writer ended. */
  ghost predicate HasReason(s: State, actions: seq<Action>) {
    Shutdown in actions || s.failed || s.writer != Writing
  }

  /** No task stops, and no run is cancelled, without a reason. */
  lemma {:induction false} StopsForAReason(c: Config, shards: nat, states: seq<State>, actions: seq<Action>, n: nat)
    requires IsRun(c, states, actions) && states[0] == Start(shards) && n <= |actions|
    ensures var s := states[n];
      && (s.cancelled ==> HasReason(s, actions[..n]))
      && (forall i :: 0 <= i < |s.shards| && s.shards[i].phase == Stopped ==> HasReason(s, actions[..n]))
      && (s.failed ==> exists i :: 0 <= i < |s.shards| && s.shards[i].phase == Exhausted)
    decreases n
  {
    hide ConnectionId;
    if n > 0 {
      StopsForAReason(c, shards, states, actions, n - 1);
      assert actions[..n] == actions[..n - 1] + [actions[n - 1]];
      StepHasReason(c, states[n - 1], actions[n - 1], actions[..n - 1]);
    }
  }

  lemma StepHasReason(c: Config, s: State, a: Action, past: seq<Action>)
    requires Enabled(c, s, a)
    requires s.cancelled ==> HasReason(s, past)
    requires forall i :: 0 <= i < |s.shards| && s.shards[i].phase == Stopped ==> HasReason(s, past)
    requires s.failed ==> exists i :: 0 <= i < |s.shards| && s.shards[i].phase == Exhausted
    ensures var t := Next(c, s, a);
      && (t.cancelled ==> HasReason(t, past + [a]))
      && (forall i :: 0 <= i < |t.shards| && t.shards[i].phase == Stopped ==> HasReason(t, past + [a]))
      && (t.failed ==> exists i :: 0 <= i < |t.shards| && t.shards[i].phase == Exhausted)
  {
    hide ConnectionId;
    var t := Next(c, s, a);
    assert HasReason(s, past) ==> HasReason(t, past + [a]);
    if t.failed {
      var i :| 0 <= i < |s.shards| && s.shards[i].phase == Exhausted;
      assert t.shards[i].phase == Exhausted;
    }
  }

  // ----- connection ids

  lemma {:induction false} DigitsThenDash(a: string, b: string, restA: string, restB: string)
    requires (forall c :: c in a ==> '0' <= c <= '9') && (forall c :: c in b ==> '0' <= c <= '9')
    requires a + "-" + restA == b + "-" + restB
    ensures a == b && restA == restB
    decreases |a|
  {
    var left, right := a + "-" + restA, b + "-" + restB;
    if a == [] || b == [] {
      assert left[0] == right[0];
      assert left[1..] == right[1..];
      assert a == [] ==> left[0] == '-';
      assert b == [] ==> right[0] == '-';
      DashEndsDigits(a, restA);
      DashEndsDigits(b, restB);
    } else {
      assert left[0] == a[0] && right[0] == b[0];
      assert left[1..] == a[1..] + "-" + restA && right[1..] == b[1..] + "-" + restB;
      assert forall c :: c in a[1..] ==> c in a;
      assert forall c :: c in b[1..] ==> c in b;
      DigitsThenDash(a[1..], b[1..], restA, restB);
      assert a == [a[0]] + a[1..] && b == [b[0]] + b[1..];
    }
  }

  lemma DashEndsDigits(a: string, rest: string)
    requires forall c :: c in a ==> '0' <= c <= '9'
    ensures (a + "-" + rest)[0] == '-' <==> a == []
  {
    if a != [] {
      assert a[0] in a && (a + "-" + rest)[0] == a[0];
    }
  }

  /** No two connections share an id. */
  lemma ConnectionIdsAreUnique(i: nat, e: nat, j: nat, f: nat)
    ensures ConnectionId(i, e) == ConnectionId(j, f) <==> i == j && e == f
  {
    hide Numerals.Decimal, Numerals.ValueOf;
    if ConnectionId(i, e) == ConnectionId(j, f) {
      var a, b := Numerals.Decimal(i), Numerals.Decimal(j);
      var restA, restB := "epoch-" + Numerals.Decimal(e), "epoch-" + Numerals.Decimal(f);
      assert ConnectionId(i, e) == "shard-" + (a + "-" + restA);
      assert ConnectionId(j, f) == "shard-" + (b + "-" + restB);
      assert ConnectionId(i, e)[6..] == a + "-" + restA && ConnectionId(j, f)[6..] == b + "-" + restB;
      Numerals.DecimalRoundTrip(i);
      Numerals.DecimalRoundTrip(j);
      DigitsThenDash(a, b, restA, restB);
      assert restA[6..] == Numerals.Decimal(e) && restB[6..] == Numerals.Decimal(f);
      Numerals.DecimalRoundTrip(e);
      Numerals.DecimalRoundTrip(f);
    }
  }

  // ----- frames of one connection

  function Only(records: seq<Record>, id: string): seq<Record> {
    if records == [] then []
    else
      var last := records[|records| - 1];
      Only(records[..|records| - 1], id) + (if last.connection == id then [last] else [])
  }

  lemma OnlySnoc(records: seq<Record>, r: Record, id: string)
    ensures Only(records + [r], id) == Only(records, id) + (if r.connection == id then [r] else [])
  {
    assert (records + [r])[..|records|] == records;
  }

  function Held(shard: Shard): seq<Record> {
    if shard.phase.Sending? then [shard.phase.record] else []
  }

  ghost function HeldBy(shards: seq<Shard>, n: nat): nat
    requires n <= |shards|
  {
    if n == 0 then 0 else HeldBy(shards, n - 1) + |Held(shards[n - 1])|
  }

  lemma {:induction false} HeldAfterUpdate(shards: seq<Shard>, i: nat, shard: Shard, n: nat)
    requires i < |shards| && n <= |shards|
    ensures HeldBy(shards[i := shard], n) ==
      HeldBy(shards, n) + (if i < n then |Held(shard)| - |Held(shards[i])| else 0)
  {
    if n > 0 {
      HeldAfterUpdate(shards, i, shard, n - 1);
    }
  }

  // ----- the invariant

  /** What a shard may look like. */
  ghost predicate ShardOk(c: Config, i: nat, h: Shard) {
    && (h.phase.Sending? ==> h.epoch > 0 && h.phase.record.connection == ConnectionId(i, h.epoch - 1))
    && (match h.phase
        case Connecting => h.epoch == h.reconnects
        case BackingOff => h.epoch == h.reconnects
        case Pumping => h.epoch == h.reconnects + 1
        case Sending(_) => h.epoch == h.reconnects + 1
        case Stopped => h.reconnects <= h.epoch <= h.reconnects + 1
        case Exhausted => h.epoch == h.reconnects)
    && (if h.phase == Exhausted then h.failures == c.maxFailures else h.failures < c.maxFailures)
    && (h.joined ==> Ended(h.phase))
  }

  ghost predicate ShardsOk(c: Config, s: State) {
    forall i :: 0 <= i < |s.shards| ==> ShardOk(c, i, s.shards[i])
  }

  /** The frames of a connection that have left its shard, in order. */
  ghost predicate FlowsThrough(s: State, i: nat, id: string)
    requires i < |s.shards|
  {
    Only(s.received, id) == Only(s.tape + s.queue, id) + Only(Held(s.shards[i]), id)
  }

  /** Nothing is lost between a connection and the tape. */
  ghost predicate Lossless(s: State) {
    && (forall i: nat, e: nat :: i < |s.shards| ==> FlowsThrough(s, i, ConnectionId(i, e)))
    && |s.received| == |s.tape| + |s.queue| + HeldBy(s.shards, |s.shards|)
  }

  /** What is on the tape is a prefix, connection by connection. */
  ghost predicate Prefixed(s: State) {
    forall i: nat, e: nat :: i < |s.shards| ==>
      Only(s.tape, ConnectionId(i, e)) <= Only(s.received, ConnectionId(i, e))
  }

  /** Every record names a connection some shard has opened. */
  ghost predicate Attributed(s: State) {
    && AllOpened(s.shards, s.received)
    && AllOpened(s.shards, s.queue)
    && AllOpened(s.shards, s.tape)
  }

  ghost predicate AllOpened(shards: seq<Shard>, records: seq<Record>) {
    forall k :: 0 <= k < |records| ==> Opened(shards, records[k].connection)
  }

  ghost predicate Opened(shards: seq<Shard>, id: string) {
    exists i: nat, e: nat :: IsOpened(shards, id, i, e)
  }

  ghost predicate IsOpened(shards: seq<Shard>, id: string, i: nat, e: nat) {
    i < |shards| && e < shards[i].epoch && id == ConnectionId(i, e)
  }

  ghost predicate Inv(c: Config, s: State) {
    && Legal(c)
    && |s.queue| <= c.capacity
    && s.written == |s.tape|
    && ShardsOk(c, s)
    && Attributed(s)
    && (if s.writer == Broken then Prefixed(s) && s.queue == [] else Lossless(s))
    && (s.writer == Flushed ==> s.queue == [] && AllEnded(s.shards))
    && (s.writerSeen ==> s.writer != Writing)
    && (s.failed <==> SomeExhausted(s))
    && s.reconnects == Tallies(s.shards, |s.shards|)
  }

  lemma {:induction false} OnlyConcat(a: seq<Record>, b: seq<Record>, id: string)
    ensures Only(a + b, id) == Only(a, id) + Only(b, id)
    decreases |b|
  {
    hide Only;
    if b == [] {
      assert a + b == a;
      OnlyNothing(id);
    } else {
      var shorter, last := b[..|b| - 1], b[|b| - 1];
      OnlyConcat(a, shorter, id);
      assert a + b == (a + shorter) + [last] && b == shorter + [last];
      OnlySnoc(a + shorter, last, id);
      OnlySnoc(shorter, last, id);
    }
  }

  lemma LosslessIsPrefixed(s: State)
    requires Lossless(s)
    ensures Prefixed(s)
  {
    hide ConnectionId, Only;
    forall i: nat, e: nat | i < |s.shards|
      ensures Only(s.tape, ConnectionId(i, e)) <= Only(s.received, ConnectionId(i, e))
    {
      assert FlowsThrough(s, i, ConnectionId(i, e));
      OnlyConcat(s.tape, s.queue, ConnectionId(i, e));
    }
  }

  /** A shard that holds no frame before or after a step does not disturb the flow. */
  lemma QuietShard(s: State, i: nat, h: Shard)
    requires i < |s.shards| && Held(s.shards[i]) == Held(h)
    ensures Lossless(s) ==> Lossless(Update(s, i, h))
    ensures Prefixed(s) ==> Prefixed(Update(s, i, h))
  {
    hide ConnectionId, Only, Held;
    HeldAfterUpdate(s.shards, i, h, |s.shards|);
    var t := Update(s, i, h);
    if Lossless(s) {
      forall j: nat, e: nat | j < |t.shards| ensures FlowsThrough(t, j, ConnectionId(j, e)) {
        assert FlowsThrough(s, j, ConnectionId(j, e));
      }
    }
  }

  lemma OnlyOne(r: Record, id: string)
    ensures Only([], id) == [] && Only([r], id) == (if r.connection == id then [r] else [])
  {
    assert [r][..0] == [];
  }

  lemma ReceiveFlows(c: Config, s: State, i: nat, receiptMs: Millis, raw: string)
    requires Enabled(c, s, Receive(i, receiptMs, raw)) && ShardsOk(c, s)
    ensures Lossless(s) ==> Lossless(Next(c, s, Receive(i, receiptMs, raw)))
    ensures Prefixed(s) ==> Prefixed(Next(c, s, Receive(i, receiptMs, raw)))
  {
    hide ConnectionId, Only, ShardOk;
    var t := Next(c, s, Receive(i, receiptMs, raw));
    var r := t.shards[i].phase.record;
    HeldAfterUpdate(s.shards, i, t.shards[i], |s.shards|);
    forall j: nat, e: nat | j < |t.shards|
      ensures FlowsThrough(s, j, ConnectionId(j, e)) ==> FlowsThrough(t, j, ConnectionId(j, e))
      ensures Only(s.tape, ConnectionId(j, e)) <= Only(s.received, ConnectionId(j, e)) ==>
        Only(t.tape, ConnectionId(j, e)) <= Only(t.received, ConnectionId(j, e))
    {
      var id := ConnectionId(j, e);
      OnlySnoc(s.received, r, id);
      OnlyOne(r, id);
      ConnectionIdsAreUnique(i, if s.shards[i].epoch > 0 then s.shards[i].epoch - 1 else 0, j, e);
    }
  }

  lemma SendFlows(c: Config, s: State, i: nat)
    requires Enabled(c, s, Send(i)) && ShardsOk(c, s) && Lossless(s)
    ensures Lossless(Next(c, s, Send(i)))
  {
    hide ConnectionId, Only;
    var t := Next(c, s, Send(i));
    var h := s.shards[i];
    var r := h.phase.record;
    assert ShardOk(c, i, h);
    HeldAfterUpdate(s.shards, i, t.shards[i], |s.shards|);
    forall j: nat, e: nat | j < |t.shards| ensures FlowsThrough(t, j, ConnectionId(j, e)) {
      var id := ConnectionId(j, e);
      assert FlowsThrough(s, j, id);
      assert t.tape + t.queue == (s.tape + s.queue) + [r];
      OnlySnoc(s.tape + s.queue, r, id);
      OnlyOne(r, id);
      ConnectionIdsAreUnique(i, h.epoch - 1, j, e);
    }
  }

  lemma AppendFlows(c: Config, s: State)
    requires Enabled(c, s, Append) && Lossless(s)
    ensures Lossless(Next(c, s, Append))
  {
    hide ConnectionId, Only, Held;
    var t := Next(c, s, Append);
    assert t.tape + t.queue == s.tape + s.queue;
    forall j: nat, e: nat | j < |t.shards| ensures FlowsThrough(t, j, ConnectionId(j, e)) {
      assert FlowsThrough(s, j, ConnectionId(j, e));
    }
  }

  /** What a step leaves of the flow of frames. */
  lemma StepKeepsFlow(c: Config, s: State, a: Action)
    requires Inv(c, s) && Enabled(c, s, a)
    ensures var t := Next(c, s, a); if t.writer == Broken then Prefixed(t) && t.queue == [] else Lossless(t)
  {
    hide Lossless, Prefixed, ShardsOk, AllEnded;
    match a
    case Receive(i, receiptMs, raw) => ReceiveFlows(c, s, i, receiptMs, raw);
    case Send(i) => SendFlows(c, s, i);
    case SendFails(i) =>
      BrokenIsClosed(c, s, i);
      SameTape(s, Next(c, s, a));
    case Append => AppendFlows(c, s);
    case AppendFails =>
      LosslessIsPrefixed(s);
      SameTape(s, Next(c, s, a));
    case FlushFails =>
      LosslessIsPrefixed(s);
      SameTape(s, Next(c, s, a));
    case Shutdown => SameFlow(s, Next(c, s, a));
    case Flush => SameFlow(s, Next(c, s, a));
    case SeeWriter => SameFlow(s, Next(c, s, a));
    case Join(i) =>
      QuietShard(s, i, s.shards[i].(joined := true));
      SameFlow(Update(s, i, s.shards[i].(joined := true)), Next(c, s, a));
    case _ => QuietStep(c, s, a);
  }

  /** Steps of one shard that hold and move no frame. */
  lemma QuietStep(c: Config, s: State, a: Action)
    requires Enabled(c, s, a) && (a.Connect? || a.ConnectFails? || a.Retry? || a.Disconnect? || a.Stop?)
    ensures var t := Next(c, s, a);
      (Lossless(s) ==> Lossless(t)) && (Prefixed(s) ==> Prefixed(t)) && t.writer == s.writer && t.queue == s.queue
  {
    hide Lossless, Prefixed, ConnectionId;
    QuietShard(s, a.i, Next(c, s, a).shards[a.i]);
  }

  /** A channel is closed under a waiting shard only by a broken writer. */
  lemma BrokenIsClosed(c: Config, s: State, i: nat)
    requires Inv(c, s) && Enabled(c, s, SendFails(i))
    ensures s.writer == Broken
  {
    hide Lossless, Prefixed, ShardsOk;
  }

  lemma SameTape(s: State, t: State)
    requires Prefixed(s) && s.tape == t.tape && s.received == t.received && |s.shards| == |t.shards|
    ensures Prefixed(t)
  {
    hide ConnectionId, Only;
  }

  lemma SameFlow(s: State, t: State)
    requires s.tape == t.tape && s.queue == t.queue && s.received == t.received && s.shards == t.shards
    ensures Lossless(s) ==> Lossless(t)
    ensures Prefixed(s) ==> Prefixed(t)
  {
    hide ConnectionId, Only, Held;
    if Lossless(s) {
      forall j: nat, e: nat | j < |t.shards| ensures FlowsThrough(t, j, ConnectionId(j, e)) {
        assert FlowsThrough(s, j, ConnectionId(j, e));
      }
    }
  }

  lemma StepKeepsShards(c: Config, s: State, a: Action)
    requires Legal(c) && ShardsOk(c, s) && Enabled(c, s, a)
    ensures ShardsOk(c, Next(c, s, a))
  {
    hide ConnectionId;
    var t := Next(c, s, a);
    forall j | 0 <= j < |t.shards| ensures ShardOk(c, j, t.shards[j]) {
      assert ShardOk(c, j, s.shards[j]);
    }
  }

  /** A connection once opened stays opened. */
  lemma OpenedGrows(was: seq<Shard>, now: seq<Shard>, records: seq<Record>)
    requires AllOpened(was, records) && |was| == |now|
    requires forall i :: 0 <= i < |was| ==> was[i].epoch <= now[i].epoch
    ensures AllOpened(now, records)
  {
    hide ConnectionId;
    forall k | 0 <= k < |records| ensures Opened(now, records[k].connection) {
      assert Opened(was, records[k].connection);
      var i: nat, e: nat :| IsOpened(was, records[k].connection, i, e);
      assert IsOpened(now, records[k].connection, i, e);
    }
  }

  lemma StepKeepsAttributed(c: Config, s: State, a: Action)
    requires ShardsOk(c, s) && Attributed(s) && Enabled(c, s, a)
    ensures Attributed(Next(c, s, a))
  {
    hide ConnectionId, AllOpened, ShardsOk;
    var t := Next(c, s, a);
    EpochsGrow(c, s, a);
    OpenedGrows(s.shards, t.shards, s.received);
    OpenedGrows(s.shards, t.shards, s.queue);
    OpenedGrows(s.shards, t.shards, s.tape);
    match a
    case Receive(i, _, _) =>
      LiveConnection(c, s, i);
      OneMore(t.shards, s.received, t.received[|s.received|], i, s.shards[i].epoch - 1);
    case Send(i) =>
      LiveConnection(c, s, i);
      OneMore(t.shards, s.queue, s.shards[i].phase.record, i, s.shards[i].epoch - 1);
    case Append => MoveOne(t.shards, s.tape, s.queue);
    case AppendFails => NoRecords(t.shards);
    case _ =>
  }

  lemma EpochsGrow(c: Config, s: State, a: Action)
    requires Enabled(c, s, a)
    ensures var t := Next(c, s, a);
      |t.shards| == |s.shards| && forall i :: 0 <= i < |s.shards| ==> s.shards[i].epoch <= t.shards[i].epoch
  {
    hide ConnectionId;
  }

  lemma LiveConnection(c: Config, s: State, i: nat)
    requires ShardsOk(c, s) && i < |s.shards| && (s.shards[i].phase.Sending? || s.shards[i].phase == Pumping)
    ensures var h := s.shards[i];
      h.epoch > 0 && (h.phase.Sending? ==> h.phase.record.connection == ConnectionId(i, h.epoch - 1))
  {
    hide ConnectionId;
    assert ShardOk(c, i, s.shards[i]);
  }

  lemma OneMore(shards: seq<Shard>, records: seq<Record>, r: Record, i: nat, e: nat)
    requires AllOpened(shards, records) && IsOpened(shards, r.connection, i, e)
    ensures AllOpened(shards, records + [r])
  {
    hide ConnectionId;
    assert Opened(shards, r.connection);
  }

  lemma MoveOne(shards: seq<Shard>, tape: seq<Record>, queue: seq<Record>)
    requires AllOpened(shards, tape) && AllOpened(shards, queue) && queue != []
    ensures AllOpened(shards, tape + [queue[0]]) && AllOpened(shards, queue[1..])
  {
    hide Opened;
  }

  lemma NoRecords(shards: seq<Shard>)
    ensures AllOpened(shards, [])
  {
  }

  /** Every step keeps the invariant. */
  lemma StepKeepsInv(c: Config, s: State, a: Action)
    requires Inv(c, s) && Enabled(c, s, a)
    ensures Inv(c, Next(c, s, a))
  {
    hide Lossless, Prefixed, ShardsOk, ConnectionId, Attributed;
    StepKeepsFlow(c, s, a);
    StepKeepsAttributed(c, s, a);
    StepKeepsShards(c, s, a);
    StepKeepsVerdict(c, s, a);
    StepKeepsTally(c, s, a);
  }

  /** What a joined task has reported. */
  function Tally(h: Shard): nat {
    if h.joined && h.phase == Stopped then h.reconnects else 0
  }

  function Tallies(shards: seq<Shard>, n: nat): nat
    requires n <= |shards|
  {
    if n == 0 then 0 else Tallies(shards, n - 1) + Tally(shards[n - 1])
  }

  lemma {:induction false} TalliesAfterUpdate(shards: seq<Shard>, i: nat, h: Shard, n: nat)
    requires i < |shards| && n <= |shards|
    ensures Tallies(shards[i := h], n) == Tallies(shards, n) + (if i < n then Tally(h) - Tally(shards[i]) else 0)
  {
    if n > 0 {
      TalliesAfterUpdate(shards, i, h, n - 1);
    }
  }

  lemma StepKeepsTally(c: Config, s: State, a: Action)
    requires ShardsOk(c, s) && Enabled(c, s, a) && s.reconnects == Tallies(s.shards, |s.shards|)
    ensures Next(c, s, a).reconnects == Tallies(Next(c, s, a).shards, |s.shards|)
  {
    hide ConnectionId, ShardsOk, Tallies;
    var t := Next(c, s, a);
    EndedStaysEnded(c, s, a);
    if !(a.Shutdown? || a.Append? || a.AppendFails? || a.Flush? || a.FlushFails? || a.SeeWriter?) {
      TalliesAfterUpdate(s.shards, a.i, t.shards[a.i], |s.shards|);
    }
  }

  ghost predicate SomeExhausted(s: State) {
    exists i :: 0 <= i < |s.shards| && s.shards[i].joined && s.shards[i].phase == Exhausted
  }

  lemma StepKeepsVerdict(c: Config, s: State, a: Action)
    requires Inv(c, s) && Enabled(c, s, a)
    ensures Next(c, s, a).failed <==> SomeExhausted(Next(c, s, a))
    ensures Next(c, s, a).writer == Flushed ==> AllEnded(Next(c, s, a).shards)
  {
    hide Lossless, Prefixed, ConnectionId, Attributed, ShardsOk;
    var t := Next(c, s, a);
    EndedStaysEnded(c, s, a);
    if a.Join? && s.shards[a.i].phase == Exhausted {
      assert t.shards[a.i].joined && t.shards[a.i].phase == Exhausted;
    } else {
      assert t.failed == s.failed;
      if SomeExhausted(s) {
        var j :| 0 <= j < |s.shards| && s.shards[j].joined && s.shards[j].phase == Exhausted;
        assert t.shards[j].joined && t.shards[j].phase == Exhausted;
      }
      if SomeExhausted(t) {
        var j :| 0 <= j < |t.shards| && t.shards[j].joined && t.shards[j].phase == Exhausted;
        assert s.shards[j].joined && s.shards[j].phase == Exhausted;
      }
    }
  }

  /** A task that has ended keeps its result; a task is joined only after it ended. */
  lemma EndedStaysEnded(c: Config, s: State, a: Action)
    requires ShardsOk(c, s) && Enabled(c, s, a)
    ensures var t := Next(c, s, a);
      |t.shards| == |s.shards| && forall j :: 0 <= j < |s.shards| ==>
        && (Ended(s.shards[j].phase) ==> t.shards[j].phase == s.shards[j].phase)
        && (s.shards[j].joined ==> t.shards[j].joined && Ended(s.shards[j].phase))
        && (t.shards[j].joined ==> Ended(s.shards[j].phase) && (s.shards[j].joined || a == Join(j)))
  {
    hide ConnectionId;
    forall j | 0 <= j < |s.shards| ensures s.shards[j].joined ==> Ended(s.shards[j].phase) {
      assert ShardOk(c, j, s.shards[j]);
    }
  }

  // ----- whole runs

  lemma StartIsInv(c: Config, n: nat)
    requires Legal(c)
    ensures Inv(c, Start(n))
  {
    hide ConnectionId;
    var s := Start(n);
    NothingHeld(s.shards, n);
    NothingReported(s.shards, n);
    forall i: nat, e: nat | i < |s.shards| ensures FlowsThrough(s, i, ConnectionId(i, e)) {
    }
  }

  lemma {:induction false} NothingHeld(shards: seq<Shard>, n: nat)
    requires n <= |shards| && forall i :: 0 <= i < |shards| ==> Held(shards[i]) == []
    ensures HeldBy(shards, n) == 0
  {
    if n > 0 {
      NothingHeld(shards, n - 1);
    }
  }

  lemma {:induction false} NothingReported(shards: seq<Shard>, n: nat)
    requires n <= |shards| && forall i :: 0 <= i < |shards| ==> Tally(shards[i]) == 0
    ensures Tallies(shards, n) == 0
  {
    if n > 0 {
      NothingReported(shards, n - 1);
    }
  }

  /** The invariant holds in every state of every run. */
  lemma {:induction false} EveryRunKeepsInv(c: Config, n: nat, states: seq<State>, actions: seq<Action>, k: nat)
    requires Legal(c) && IsRun(c, states, actions) && states[0] == Start(n) && k < |states|
    ensures Inv(c, states[k])
    decreases k
  {
    hide Inv, Enabled, Next;
    if k == 0 {
      StartIsInv(c, n);
    } else {
      EveryRunKeepsInv(c, n, states, actions, k - 1);
      assert states[k] == Next(c, states[k - 1], actions[k - 1]);
      StepKeepsInv(c, states[k - 1], actions[k - 1]);
    }
  }

  /** A successful run has every frame of every connection on the tape, in order, and counts them all. */
  lemma SuccessLosesNothing(c: Config, s: State, id: string)
    requires Inv(c, s) && Succeeded(s)
    ensures Only(s.tape, id) == Only(s.received, id)
    ensures s.written == |s.tape| == |s.received|
  {
    hide Only, Lossless, ShardOk;
    OpenedLosesNothing(c, s);
    if Opened(s.shards, id) {
      var i: nat, e: nat :| IsOpened(s.shards, id, i, e);
    } else {
      OnlyForeign(s.shards, s.tape, id);
      OnlyForeign(s.shards, s.received, id);
    }
  }

  lemma {:induction false} OnlyForeign(shards: seq<Shard>, records: seq<Record>, id: string)
    requires AllOpened(shards, records) && !Opened(shards, id)
    ensures Only(records, id) == []
    decreases |records|
  {
    hide Opened;
    if records != [] {
      OnlyForeign(shards, records[..|records| - 1], id);
      assert Opened(shards, records[|records| - 1].connection);
    }
  }

  lemma OpenedLosesNothing(c: Config, s: State)
    requires Inv(c, s) && Succeeded(s)
    ensures forall i: nat, e: nat :: i < |s.shards| ==>
      Only(s.tape, ConnectionId(i, e)) == Only(s.received, ConnectionId(i, e))
    ensures s.written == |s.tape| == |s.received|
  {
    hide ConnectionId, Only, ShardOk;
    NothingHeld(s.shards, |s.shards|);
    assert s.tape + s.queue == s.tape;
    forall i: nat, e: nat | i < |s.shards|
      ensures Only(s.tape, ConnectionId(i, e)) == Only(s.received, ConnectionId(i, e))
    {
      assert FlowsThrough(s, i, ConnectionId(i, e));
      assert Only(Held(s.shards[i]), ConnectionId(i, e)) == [] by { OnlyNothing(ConnectionId(i, e)); }
    }
  }

  lemma OnlyNothing(id: string)
    ensures Only([], id) == []
  {
  }

  /** However a run goes, the tape holds a prefix of what each connection delivered. */
  lemma TapeIsAlwaysPrefix(c: Config, s: State)
    requires Inv(c, s)
    ensures forall i: nat, e: nat :: i < |s.shards| ==>
      Only(s.tape, ConnectionId(i, e)) <= Only(s.received, ConnectionId(i, e))
    ensures |s.queue| <= c.capacity && s.written == |s.tape|
  {
    hide ConnectionId, Only, Lossless;
    if s.writer != Broken {
      LosslessIsPrefixed(s);
    }
  }

  /** When a run is over it fails exactly when some shard ran out of attempts or the writer broke. */
  lemma VerdictIsExact(c: Config, s: State)
    requires Inv(c, s) && Over(s)
    ensures Succeeded(s) <==>
      s.writer != Broken && forall i :: 0 <= i < |s.shards| ==> s.shards[i].failures < c.maxFailures
  {
    hide Lossless, Prefixed, ConnectionId;
    assert forall i :: 0 <= i < |s.shards| ==> ShardOk(c, i, s.shards[i]);
    if s.failed {
      var i :| 0 <= i < |s.shards| && s.shards[i].joined && s.shards[i].phase == Exhausted;
      assert s.shards[i].failures == c.maxFailures;
    }
  }

  ghost function Connections(shards: seq<Shard>, n: nat): nat
    requires n <= |shards|
  {
    if n == 0 then 0 else Connections(shards, n - 1) + shards[n - 1].epoch
  }

  /** The reported reconnects account for every connection opened but at most one per shard. */
  lemma ReportedReconnects(c: Config, s: State)
    requires Inv(c, s) && Succeeded(s)
    ensures s.reconnects <= Connections(s.shards, |s.shards|) <= s.reconnects + |s.shards|
  {
    hide Lossless, Prefixed, ConnectionId, Attributed;
    forall i | 0 <= i < |s.shards| ensures Tally(s.shards[i]) <= s.shards[i].epoch <= Tally(s.shards[i]) + 1 {
      assert ShardOk(c, i, s.shards[i]);
    }
    ConnectionsAndTallies(s.shards, |s.shards|);
  }

  lemma {:induction false} ConnectionsAndTallies(shards: seq<Shard>, n: nat)
    requires n <= |shards|
    requires forall i :: 0 <= i < |shards| ==> Tally(shards[i]) <= shards[i].epoch <= Tally(shards[i]) + 1
    ensures Tallies(shards, n) <= Connections(shards, n) <= Tallies(shards, n) + n
  {
    if n > 0 {
      ConnectionsAndTallies(shards, n - 1);
    }
  }

  // ----- shutdown always finishes

  /** Steps that need nothing from outside once shutdown was asked for. */
  predicate Drains(a: Action) {
    a.Stop? || a.Send? || a.SendFails? || a.Append? || a.Flush? || a.Join? || a.SeeWriter?
  }

  function Weight(h: Shard): nat {
    match h.phase
    case Sending(_) => 4
    case Stopped => if h.joined then 0 else 1
    case Exhausted => if h.joined then 0 else 1
    case _ => 2
  }

  function Weights(shards: seq<Shard>, n: nat): nat
    requires n <= |shards|
  {
    if n == 0 then 0 else Weights(shards, n - 1) + Weight(shards[n - 1])
  }

  lemma {:induction false} WeightsAfterUpdate(shards: seq<Shard>, i: nat, h: Shard, n: nat)
    requires i < |shards| && n <= |shards|
    ensures Weights(shards[i := h], n) == Weights(shards, n) + (if i < n then Weight(h) - Weight(shards[i]) else 0)
  {
    if n > 0 {
      WeightsAfterUpdate(shards, i, h, n - 1);
    }
  }

  /** Work left before a cancelled run is over. */
  function Work(s: State): nat {
    Weights(s.shards, |s.shards|) + |s.queue| + (if s.writer == Writing then 2 else if s.writerSeen then 0 else 1)
  }

  /** Each draining step leaves less to do. */
  lemma DrainingMakesProgress(c: Config, s: State, a: Action)
    requires Inv(c, s) && Enabled(c, s, a) && Drains(a)
    ensures Work(Next(c, s, a)) < Work(s)
  {
    hide Lossless, Prefixed, ShardsOk, Weights;
    var t := Next(c, s, a);
    if a.Stop? || a.Send? || a.SendFails? || a.Join? {
      WeightsAfterUpdate(s.shards, a.i, t.shards[a.i], |s.shards|);
    }
  }

  /** While a cancelled run is not over, some draining step can be taken: a full channel never deadlocks it. */
  lemma ShutdownNeverBlocks(c: Config, s: State) returns (a: Action)
    requires Inv(c, s) && s.cancelled && !Over(s)
    ensures Drains(a) && Enabled(c, s, a)
  {
    hide Lossless, Prefixed, ShardsOk;
    if i :| 0 <= i < |s.shards| && !s.shards[i].joined {
      match s.shards[i].phase
      case Sending(_) =>
        if s.writer != Writing {
          a := SendFails(i);
        } else if |s.queue| < c.capacity {
          a := Send(i);
        } else {
          a := Append;
        }
      case Stopped => a := Join(i);
      case Exhausted => a := Join(i);
      case _ => a := Stop(i);
    } else if s.writer != Writing {
      a := SeeWriter;
    } else if s.queue != [] {
      a := Append;
    } else {
      a := Flush;
      assert AllEnded(s.shards) by { JoinedHaveEnded(c, s); }
    }
  }

  lemma JoinedHaveEnded(c: Config, s: State)
    requires ShardsOk(c, s) && forall i :: 0 <= i < |s.shards| ==> s.shards[i].joined
    ensures AllEnded(s.shards)
  {
    hide ConnectionId;
    assert forall i :: 0 <= i < |s.shards| ==> ShardOk(c, i, s.shards[i]);
  }

  /** From any cancelled state, draining alone brings the run to its end. */
  lemma {:induction false} ShutdownFinishes(c: Config, s: State) returns (states: seq<State>, actions: seq<Action>)
    requires Inv(c, s) && s.cancelled
    ensures IsRun(c, states, actions) && states[0] == s && Over(states[|actions|])
    ensures |actions| <= Work(s) && forall k :: 0 <= k < |actions| ==> Drains(actions[k])
    decreases Work(s)
  {
    hide Inv, Enabled, Next, Over, Work;
    if Over(s) {
      states, actions := [s], [];
    } else {
      var a := ShutdownNeverBlocks(c, s);
      var t := Next(c, s, a);
      StepKeepsInv(c, s, a);
      DrainingMakesProgress(c, s, a);
      StaysCancelled(c, s, a);
      var later, rest := ShutdownFinishes(c, t);
      states, actions := [s] + later, [a] + rest;
    }
  }

  /** However a cancelled run drains, it takes no more steps than there is work, and it is over when it cannot go on. */
  lemma {:induction false} EveryDrainEnds(c: Config, states: seq<State>, actions: seq<Action>)
    requires IsRun(c, states, actions) && Inv(c, states[0]) && states[0].cancelled
    requires forall k :: 0 <= k < |actions| ==> Drains(actions[k])
    ensures |actions| + Work(states[|actions|]) <= Work(states[0])
    ensures Inv(c, states[|actions|]) && states[|actions|].cancelled
    ensures (forall a :: Drains(a) ==> !Enabled(c, states[|actions|], a)) ==> Over(states[|actions|])
    decreases |actions|
  {
    hide Inv, Enabled, Next, Over, Work, Drains;
    var n := |actions|;
    if n > 0 {
      var s, a := states[n - 1], actions[n - 1];
      EveryDrainEnds(c, states[..n], actions[..n - 1]);
      StepKeepsInv(c, s, a);
      DrainingMakesProgress(c, s, a);
      StaysCancelled(c, s, a);
    }
    if !Over(states[n]) {
      var a := ShutdownNeverBlocks(c, states[n]);
    }
  }

  lemma StaysCancelled(c: Config, s: State, a: Action)
    requires Enabled(c, s, a) && s.cancelled
    ensures Next(c, s, a).cancelled
  {
  }
}
