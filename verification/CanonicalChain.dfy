/** The stored canonical chain: logs of one chain, replaced from a common ancestor on reorganisation. */
module CanonicalChain {
  import opened Trading

  datatype Checkpoint = Checkpoint(block: nat, hash: string)

  datatype Log = Log(chainId: nat, block: nat, hash: string, txHash: string, tx: nat, index: nat, event: string)

  datatype Segment = Segment(chainId: nat, ancestor: Checkpoint, logs: seq<Log>)

  /** The chain a store keeps and the contracts whose logs it takes. */
  datatype Registry = Registry(chainId: nat, knows: Log -> bool)

  predicate Accepts(registry: Registry, log: Log) {
    log.chainId == registry.chainId && registry.knows(log)
  }

  /** Chain order: block, then transaction, then log. */
  predicate Before(a: Log, b: Log) {
    a.block < b.block || (a.block == b.block && (a.tx < b.tx || (a.tx == b.tx && a.index < b.index)))
  }

  // ----- what is checked before a replacement

  /** Neighbours in order, with one hash per block. */
  predicate Linked(a: Log, b: Log) {
    Before(a, b) && (a.block == b.block ==> a.hash == b.hash)
  }

  predicate ValidSegment(registry: Registry, segment: Segment) {
    && segment.chainId == registry.chainId
    && (forall i :: 0 < i < |segment.logs| ==> Linked(segment.logs[i - 1], segment.logs[i]))
    && (forall log :: log in segment.logs ==> log.block > segment.ancestor.block && Accepts(registry, log))
  }

  /** Numbers the database can hold. */
  predicate Storable(segment: Segment) {
    && segment.chainId <= I64_MAX && segment.ancestor.block <= I64_MAX
    && forall log :: log in segment.logs ==> log.block <= I64_MAX && log.tx <= I64_MAX && log.index <= I64_MAX
  }

  datatype State = State(rows: seq<Log>, checkpoint: Option<Checkpoint>)

  /** The stored row last in chain order. */
  function Tip(rows: seq<Log>): Option<Log> {
    if rows == [] then None
    else
      var last := rows[|rows| - 1];
      match Tip(rows[..|rows| - 1])
      case None => Some(last)
      case Some(best) => Some(if Before(best, last) then last else best)
  }

  function TipCheckpoint(rows: seq<Log>): Option<Checkpoint> {
    match Tip(rows)
    case None => None
    case Some(log) => Some(Checkpoint(log.block, log.hash))
  }

  function HashesAt(rows: seq<Log>, block: nat): set<string> {
    set i | 0 <= i < |rows| && rows[i].block == block :: rows[i].hash
  }

  /** The store agrees with itself and knows the ancestor under the claimed hash and no other. */
  predicate ValidAncestor(s: State, ancestor: Checkpoint) {
    && s.checkpoint == TipCheckpoint(s.rows)
    && match TipCheckpoint(s.rows)
       case None => ancestor.block == 0
       case Some(tip) => ancestor.block <= tip.block && HashesAt(s.rows, ancestor.block) == {ancestor.hash}
  }

  predicate Acceptable(registry: Registry, s: State, segment: Segment) {
    ValidSegment(registry, segment) && ValidAncestor(s, segment.ancestor) && Storable(segment)
  }

  function SegmentTip(segment: Segment): Checkpoint {
    if segment.logs == [] then segment.ancestor
    else var last := segment.logs[|segment.logs| - 1]; Checkpoint(last.block, last.hash)
  }

  // ----- the replacement

  /** Rows up to a block, in their order. */
  function UpTo(rows: seq<Log>, block: nat): seq<Log> {
    if rows == [] then []
    else
      var last := rows[|rows| - 1];
      if last.block <= block then UpTo(rows[..|rows| - 1], block) + [last] else UpTo(rows[..|rows| - 1], block)
  }

  lemma {:induction false} UpToMembers(rows: seq<Log>, block: nat)
    ensures forall log :: log in UpTo(rows, block) <==> log in rows && log.block <= block
    decreases |rows|
  {
    if rows != [] {
      UpToMembers(rows[..|rows| - 1], block);
      assert rows == rows[..|rows| - 1] + [rows[|rows| - 1]];
    }
  }

  /** Two rows the primary key cannot tell apart. */
  predicate SameKey(a: Log, b: Log) {
    a.block == b.block && a.hash == b.hash && a.txHash == b.txHash && a.tx == b.tx && a.index == b.index
  }

  /** Some row has the log's block, hash, transaction and index. */
  predicate KeyTaken(rows: seq<Log>, log: Log) {
    exists i :: 0 <= i < |rows| && (rows[i].block, rows[i].hash, rows[i].txHash, rows[i].tx, rows[i].index)
      == (log.block, log.hash, log.txHash, log.tx, log.index)
  }

  lemma KeyIsFree(rows: seq<Log>, log: Log)
    requires forall i :: 0 <= i < |rows| ==> !SameKey(rows[i], log)
    ensures !KeyTaken(rows, log)
  {
  }

  /** The old chain up to the ancestor, then the new segment. */
  function Replaced(s: State, segment: Segment): State {
    State(UpTo(s.rows, segment.ancestor.block) + segment.logs, Some(SegmentTip(segment)))
  }

  class LogStore {
    var rows: seq<Log>
    var checkpoint: Option<Checkpoint>

    constructor ()
      ensures rows == [] && checkpoint == None
    {
      rows, checkpoint := [], None;
    }

    function Value(): State
      reads this
    {
      State(rows, checkpoint)
    }

    /** A row is added unless its key is already there. */
    method Insert(log: Log)
      modifies this`rows
      ensures rows == if KeyTaken(old(rows), log) then old(rows) else old(rows) + [log]
    {
      if forall i :: 0 <= i < |rows| ==> !SameKey(rows[i], log) {
        rows := rows + [log];
      }
    }

    /** Deletes what follows the ancestor, adds the segment row by row and moves the checkpoint. */
    method WriteSegment(registry: Registry, segment: Segment)
      requires ValidSegment(registry, segment)
      modifies this
      ensures Value() == Replaced(old(Value()), segment)
    {
      hide Before, Accepts, SameKey;
      UpToMembers(rows, segment.ancestor.block);
      rows := UpTo(rows, segment.ancestor.block);
      ghost var kept := rows;
      for i := 0 to |segment.logs|
        invariant rows == kept + segment.logs[..i] && checkpoint == old(checkpoint)
      {
        assert segment.logs[..i + 1] == segment.logs[..i] + [segment.logs[i]];
        NoConflict(registry, segment, kept, i);
        KeyIsFree(rows, segment.logs[i]);
        Insert(segment.logs[i]);
      }
      assert segment.logs[..|segment.logs|] == segment.logs;
      checkpoint := Some(SegmentTip(segment));
    }

    /** Replaces the chain after the ancestor, or refuses and changes nothing. */
    method ReplaceSegment(registry: Registry, segment: Segment) returns (ok: bool)
      modifies this
      ensures ok <==> Acceptable(registry, old(Value()), segment)
      ensures Value() == if ok then Replaced(old(Value()), segment) else old(Value())
    {
      if !ValidSegment(registry, segment) || !ValidAncestor(Value(), segment.ancestor) || !Storable(segment) {
        return false;
      }
      WriteSegment(registry, segment);
      return true;
    }
  }

  lemma {:induction false} SegmentOrder(logs: seq<Log>, i: nat, j: nat)
    requires i < j < |logs| && forall k :: 0 < k < |logs| ==> Linked(logs[k - 1], logs[k])
    ensures Before(logs[i], logs[j]) && (logs[i].block == logs[j].block ==> logs[i].hash == logs[j].hash)
    decreases j
  {
    assert Linked(logs[j - 1], logs[j]);
    if i < j - 1 {
      SegmentOrder(logs, i, j - 1);
    }
  }

  /** No row of a valid segment meets a row already there, so none is dropped. */
  lemma NoConflict(registry: Registry, segment: Segment, kept: seq<Log>, i: nat)
    requires ValidSegment(registry, segment) && i < |segment.logs|
    requires forall log :: log in kept ==> log.block <= segment.ancestor.block
    ensures forall k :: 0 <= k < |kept + segment.logs[..i]| ==>
      !SameKey((kept + segment.logs[..i])[k], segment.logs[i])
  {
    var all := kept + segment.logs[..i];
    assert segment.logs[i] in segment.logs;
    forall k | 0 <= k < |all| ensures !SameKey(all[k], segment.logs[i]) {
      if k < |kept| {
        assert all[k] in kept;
      } else {
        SegmentOrder(segment.logs, k - |kept|, i);
      }
    }
  }

  // ----- what every run keeps

  ghost predicate Ordered(rows: seq<Log>) {
    forall i, j :: 0 <= i < j < |rows| ==> Before(rows[i], rows[j])
  }

  ghost predicate OneHashPerBlock(rows: seq<Log>) {
    forall i, j :: 0 <= i < j < |rows| && rows[i].block == rows[j].block ==> rows[i].hash == rows[j].hash
  }

  function LastCheckpoint(rows: seq<Log>): Option<Checkpoint> {
    if rows == [] then None else Some(Checkpoint(rows[|rows| - 1].block, rows[|rows| - 1].hash))
  }

  /** Strictly ordered rows, one hash per block, and a checkpoint at the last row. */
  ghost predicate Canonical(s: State) {
    Ordered(s.rows) && OneHashPerBlock(s.rows) && s.checkpoint == LastCheckpoint(s.rows)
  }

  /** A checkpoint without any row: what an empty first segment leaves behind. */
  ghost predicate Stuck(s: State) {
    s.rows == [] && s.checkpoint.Some?
  }

  lemma {:induction false} TipIsLast(rows: seq<Log>)
    requires Ordered(rows)
    ensures Tip(rows) == if rows == [] then None else Some(rows[|rows| - 1])
    decreases |rows|
  {
    if rows != [] {
      TipIsLast(rows[..|rows| - 1]);
    }
  }

  /** In an ordered table the rows up to a block are a prefix. */
  lemma {:induction false} UpToIsPrefix(rows: seq<Log>, block: nat)
    requires Ordered(rows)
    ensures var kept := UpTo(rows, block);
      && |kept| <= |rows| && kept == rows[..|kept|]
      && (forall i :: |kept| <= i < |rows| ==> rows[i].block > block)
    decreases |rows|
  {
    if rows != [] {
      var n := |rows| - 1;
      UpToIsPrefix(rows[..n], block);
      var kept := UpTo(rows[..n], block);
      if rows[n].block <= block {
        AllKept(rows, block);
      }
    }
  }

  lemma {:induction false} AllKept(rows: seq<Log>, block: nat)
    requires forall i :: 0 <= i < |rows| ==> rows[i].block <= block
    ensures UpTo(rows, block) == rows
    decreases |rows|
  {
    if rows != [] {
      AllKept(rows[..|rows| - 1], block);
      assert rows == rows[..|rows| - 1] + [rows[|rows| - 1]];
    }
  }

  /** Every accepted replacement keeps the table canonical, except an empty one on an empty table. */
  lemma ReplacementKeepsCanonical(registry: Registry, s: State, segment: Segment)
    requires Canonical(s) && Acceptable(registry, s, segment)
    ensures if s.rows == [] && segment.logs == [] then Stuck(Replaced(s, segment))
            else Canonical(Replaced(s, segment))
  {
    hide Ordered, OneHashPerBlock, UpTo, ValidSegment, ValidAncestor, Storable;
    var kept := UpTo(s.rows, segment.ancestor.block);
    OrderedAfter(registry, s, segment);
    if segment.logs == [] {
      assert kept + segment.logs == kept;
      if s.rows == [] {
        NothingUpTo(segment.ancestor.block);
      } else {
        AncestorIsKept(s, segment.ancestor);
      }
    }
  }

  lemma NothingUpTo(block: nat)
    ensures UpTo([], block) == []
  {
  }

  lemma OrderedAfter(registry: Registry, s: State, segment: Segment)
    requires Ordered(s.rows) && OneHashPerBlock(s.rows) && ValidSegment(registry, segment)
    ensures var rows := UpTo(s.rows, segment.ancestor.block) + segment.logs; Ordered(rows) && OneHashPerBlock(rows)
  {
    hide Accepts;
    var kept := UpTo(s.rows, segment.ancestor.block);
    UpToMembers(s.rows, segment.ancestor.block);
    UpToIsPrefix(s.rows, segment.ancestor.block);
    hide UpTo;
    var rows := kept + segment.logs;
    forall i, j | 0 <= i < j < |rows|
      ensures Before(rows[i], rows[j]) && (rows[i].block == rows[j].block ==> rows[i].hash == rows[j].hash)
    {
      if j < |kept| {
        assert rows[i] == s.rows[i] && rows[j] == s.rows[j];
      } else if i < |kept| {
        assert rows[i] in kept && rows[j] == segment.logs[j - |kept|] && rows[j] in segment.logs;
      } else {
        SegmentOrder(segment.logs, i - |kept|, j - |kept|);
      }
    }
  }

  lemma RowWithHash(rows: seq<Log>, block: nat, hash: string) returns (i: nat)
    requires hash in HashesAt(rows, block)
    ensures i < |rows| && rows[i].block == block && rows[i].hash == hash
  {
    i :| 0 <= i < |rows| && rows[i].block == block && rows[i].hash == hash;
  }

  lemma AncestorHash(s: State, ancestor: Checkpoint)
    requires Ordered(s.rows) && ValidAncestor(s, ancestor) && s.rows != []
    ensures HashesAt(s.rows, ancestor.block) == {ancestor.hash}
    ensures ancestor.hash in HashesAt(s.rows, ancestor.block)
  {
    hide Ordered, HashesAt;
    TipIsLast(s.rows);
  }

  /** The last row kept is in the ancestor's block, under the ancestor's hash. */
  lemma AncestorIsKept(s: State, ancestor: Checkpoint)
    requires Ordered(s.rows) && OneHashPerBlock(s.rows) && ValidAncestor(s, ancestor) && s.rows != []
    ensures var kept := UpTo(s.rows, ancestor.block);
      kept != [] && kept[|kept| - 1].block == ancestor.block && kept[|kept| - 1].hash == ancestor.hash
  {
    hide ValidAncestor, HashesAt;
    var kept := UpTo(s.rows, ancestor.block);
    UpToMembers(s.rows, ancestor.block);
    UpToIsPrefix(s.rows, ancestor.block);
    hide UpTo;
    AncestorHash(s, ancestor);
    var i := RowWithHash(s.rows, ancestor.block, ancestor.hash);
    var k := |kept| - 1;
    assert i <= k;
    assert kept[k] in kept && kept[k] == s.rows[k];
    if i < k {
      assert Before(s.rows[i], s.rows[k]);
    }
  }

  /** A stuck store refuses every segment. */
  lemma StuckRefusesEverything(registry: Registry, s: State, segment: Segment)
    requires Stuck(s)
    ensures !Acceptable(registry, s, segment)
  {
  }

  function Step(registry: Registry, s: State, segment: Segment): State {
    if Acceptable(registry, s, segment) then Replaced(s, segment) else s
  }

  function Run(registry: Registry, s: State, segments: seq<Segment>): State
    decreases |segments|
  {
    if segments == [] then s else Run(registry, Step(registry, s, segments[0]), segments[1..])
  }

  /** From an empty table, every sequence of calls leaves it canonical or stuck. */
  lemma {:induction false} EveryRunIsCanonical(registry: Registry, s: State, segments: seq<Segment>)
    requires Canonical(s)
    ensures Canonical(Run(registry, s, segments)) || Stuck(Run(registry, s, segments))
    ensures s.rows != [] ==> Canonical(Run(registry, s, segments)) && Run(registry, s, segments).rows != []
    decreases |segments|
  {
    if segments != [] {
      var next := Step(registry, s, segments[0]);
      if Acceptable(registry, s, segments[0]) {
        ReplacementKeepsCanonical(registry, s, segments[0]);
        if s.rows != [] {
          AncestorIsKept(s, segments[0].ancestor);
        }
      }
      if Stuck(next) {
        StuckForever(registry, next, segments[1..]);
      } else {
        EveryRunIsCanonical(registry, next, segments[1..]);
      }
    }
  }

  lemma {:induction false} StuckForever(registry: Registry, s: State, segments: seq<Segment>)
    requires Stuck(s)
    ensures Run(registry, s, segments) == s
    decreases |segments|
  {
    if segments != [] {
      StuckRefusesEverything(registry, s, segments[0]);
      StuckForever(registry, s, segments[1..]);
    }
  }

  /** A run that starts with an accepted, nonempty segment is canonical ever after. */
  lemma NonemptyStartIsCanonical(registry: Registry, segments: seq<Segment>)
    requires segments != [] && segments[0].logs != [] && Acceptable(registry, State([], None), segments[0])
    ensures Canonical(Run(registry, State([], None), segments))
  {
    var next := Step(registry, State([], None), segments[0]);
    ReplacementKeepsCanonical(registry, State([], None), segments[0]);
    EveryRunIsCanonical(registry, next, segments[1..]);
  }

  /** An empty first segment ends the store's life. */
  lemma EmptyStartIsStuck(registry: Registry, segments: seq<Segment>)
    requires segments != [] && segments[0].logs == [] && Acceptable(registry, State([], None), segments[0])
    ensures Stuck(Run(registry, State([], None), segments))
  {
    StuckForever(registry, Step(registry, State([], None), segments[0]), segments[1..]);
  }

  /** An accepted empty segment on the empty table of chain 137, after which every segment is refused. */
  lemma EmptyFirstSegment(segment: Segment)
    ensures var registry, first := Registry(137, (_: Log) => true), Segment(137, Checkpoint(0, "genesis"), []);
      && Acceptable(registry, State([], None), first)
      && var after := Run(registry, State([], None), [first]);
      && after == State([], Some(Checkpoint(0, "genesis"))) && !Acceptable(registry, after, segment)
  {
    var registry, first := Registry(137, (_: Log) => true), Segment(137, Checkpoint(0, "genesis"), []);
    assert Acceptable(registry, State([], None), first);
    assert Replaced(State([], None), first) == State([], Some(Checkpoint(0, "genesis")));
    StuckRefusesEverything(registry, Replaced(State([], None), first), segment);
  }

  /** Replacing again by the same segment is accepted exactly when the table held something before. */
  lemma RepeatedSegment(registry: Registry, s: State, segment: Segment)
    requires Canonical(s) && Acceptable(registry, s, segment)
    ensures Acceptable(registry, Replaced(s, segment), segment) <==> s.rows != []
    ensures s.rows != [] ==> Replaced(Replaced(s, segment), segment) == Replaced(s, segment)
  {
    hide Ordered, OneHashPerBlock, UpTo, ValidSegment, Storable, HashesAt;
    var t := Replaced(s, segment);
    ReplacementKeepsCanonical(registry, s, segment);
    if s.rows == [] {
      NothingUpTo(segment.ancestor.block);
      assert t.rows == segment.logs;
      if segment.logs != [] {
        TipIsLast(t.rows);
        FirstBlockIsLater(registry, segment);
      }
    } else {
      KeptAgain(registry, s, segment);
      TipIsLast(t.rows);
    }
  }

  lemma FirstBlockIsLater(registry: Registry, segment: Segment)
    requires ValidSegment(registry, segment)
    ensures HashesAt(segment.logs, segment.ancestor.block) == {}
  {
    assert forall i :: 0 <= i < |segment.logs| ==> segment.logs[i] in segment.logs;
  }

  lemma KeptAgain(registry: Registry, s: State, segment: Segment)
    requires Canonical(s) && Acceptable(registry, s, segment) && s.rows != []
    requires Canonical(Replaced(s, segment))
    ensures var t := Replaced(s, segment);
      && t.rows != []
      && UpTo(t.rows, segment.ancestor.block) == UpTo(s.rows, segment.ancestor.block)
      && HashesAt(t.rows, segment.ancestor.block) == {segment.ancestor.hash}
      && segment.ancestor.block <= t.rows[|t.rows| - 1].block
  {
    hide ValidAncestor, Storable, HashesAt, OneHashPerBlock, Ordered, ValidSegment, UpTo;
    var t, block := Replaced(s, segment), segment.ancestor.block;
    var kept := UpTo(s.rows, block);
    SegmentIsLater(registry, segment);
    UpToMembers(s.rows, block);
    UpToOfAppended(kept, segment.logs, block);
    AncestorIsKept(s, segment.ancestor);
    AncestorHash(s, segment.ancestor);
    HashesOfAppended(kept, segment.logs, block);
    UpToIsPrefix(s.rows, block);
    assert s.rows == kept + s.rows[|kept|..];
    HashesOfAppended(kept, s.rows[|kept|..], block);
    if segment.logs != [] {
      assert t.rows[|t.rows| - 1] == segment.logs[|segment.logs| - 1];
    } else {
      assert t.rows == kept;
    }
  }

  ghost predicate AllLater(logs: seq<Log>, block: nat) {
    forall i :: 0 <= i < |logs| ==> logs[i].block > block
  }

  lemma SegmentIsLater(registry: Registry, segment: Segment)
    requires ValidSegment(registry, segment)
    ensures AllLater(segment.logs, segment.ancestor.block)
  {
    assert forall i :: 0 <= i < |segment.logs| ==> segment.logs[i] in segment.logs;
  }

  lemma HashesOfAppended(kept: seq<Log>, later: seq<Log>, block: nat)
    requires AllLater(later, block)
    ensures HashesAt(kept + later, block) == HashesAt(kept, block)
  {
    var all := kept + later;
    forall h | h in HashesAt(kept, block) ensures h in HashesAt(all, block) {
      var i := RowWithHash(kept, block, h);
      assert all[i] == kept[i];
    }
    forall h | h in HashesAt(all, block) ensures h in HashesAt(kept, block) {
      var i := RowWithHash(all, block, h);
      assert i < |kept| && all[i] == kept[i];
    }
  }

  lemma {:induction false} UpToOfAppended(kept: seq<Log>, later: seq<Log>, block: nat)
    requires (forall log :: log in kept ==> log.block <= block) && AllLater(later, block)
    ensures UpTo(kept + later, block) == kept
    decreases |later|
  {
    var all := kept + later;
    if later == [] {
      assert all == kept;
      assert forall i :: 0 <= i < |kept| ==> kept[i] in kept;
      AllKept(kept, block);
    } else {
      var shorter := later[..|later| - 1];
      assert all[..|all| - 1] == kept + shorter;
      UpToOfAppended(kept, shorter, block);
    }
  }

  lemma RootIsSpared(registry: Registry, s: State, segment: Segment)
    requires Canonical(s) && s.rows != [] && Acceptable(registry, s, segment)
    ensures forall log: Log :: log.block <= s.rows[0].block ==> (log in Replaced(s, segment).rows <==> log in s.rows)
  {
    hide OneHashPerBlock, Storable, ValidAncestor;
    AncestorIsKept(s, segment.ancestor);
    UpToIsPrefix(s.rows, segment.ancestor.block);
    UpToMembers(s.rows, segment.ancestor.block);
    hide UpTo;
    var kept := UpTo(s.rows, segment.ancestor.block);
    assert kept[0] == s.rows[0] && kept[0] in kept;
  }

  /** The first block ever stored is never touched: no accepted ancestor lies below it. */
  lemma {:induction false} RootIsPermanent(registry: Registry, s: State, segments: seq<Segment>)
    requires Canonical(s) && s.rows != []
    ensures Run(registry, s, segments).rows != [] && Run(registry, s, segments).rows[0] == s.rows[0]
    ensures forall log: Log :: log.block <= s.rows[0].block ==> (log in Run(registry, s, segments).rows <==> log in s.rows)
    decreases |segments|
  {
    if segments != [] {
      var next := Step(registry, s, segments[0]);
      if Acceptable(registry, s, segments[0]) {
        ReplacementKeepsCanonical(registry, s, segments[0]);
        AncestorIsKept(s, segments[0].ancestor);
        UpToIsPrefix(s.rows, segments[0].ancestor.block);
        RootIsSpared(registry, s, segments[0]);
      }
      RootIsPermanent(registry, next, segments[1..]);
    }
  }

  // ----- which segments are accepted

  /** Lower block, or the same block and a lower transaction, or the same transaction and a lower log index. */
  predicate Precedes(a: Log, b: Log) {
    if a.block != b.block then a.block < b.block else if a.tx != b.tx then a.tx < b.tx else a.index < b.index
  }

  /** A segment of this chain alone, in chain order throughout, one hash per block, all after the ancestor. */
  ghost predicate Proper(registry: Registry, segment: Segment) {
    && segment.chainId == registry.chainId
    && (forall i, j :: 0 <= i < j < |segment.logs| ==> Precedes(segment.logs[i], segment.logs[j]))
    && (forall i, j :: 0 <= i < j < |segment.logs| && segment.logs[i].block == segment.logs[j].block ==>
      segment.logs[i].hash == segment.logs[j].hash)
    && (forall i :: 0 <= i < |segment.logs| ==>
      var log := segment.logs[i];
      segment.ancestor.block < log.block && log.chainId == registry.chainId && registry.knows(log))
  }

  /** The ancestor is a stored block under its stored hash; on an empty table, block zero under any hash. */
  ghost predicate KnownAncestor(rows: seq<Log>, ancestor: Checkpoint) {
    if rows == [] then ancestor.block == 0
    else exists i :: 0 <= i < |rows| && rows[i].block == ancestor.block && rows[i].hash == ancestor.hash
  }

  lemma ProperIff(registry: Registry, segment: Segment)
    ensures ValidSegment(registry, segment) <==> Proper(registry, segment)
  {
    var logs := segment.logs;
    if ValidSegment(registry, segment) {
      forall i, j | 0 <= i < j < |logs|
        ensures Precedes(logs[i], logs[j]) && (logs[i].block == logs[j].block ==> logs[i].hash == logs[j].hash)
      {
        SegmentOrder(logs, i, j);
      }
      assert forall i :: 0 <= i < |logs| ==> logs[i] in logs;
    }
    if Proper(registry, segment) {
      forall k | 0 < k < |logs| ensures Linked(logs[k - 1], logs[k]) {
        assert Precedes(logs[k - 1], logs[k]);
      }
    }
  }

  lemma KnownAncestorIff(s: State, ancestor: Checkpoint)
    requires Canonical(s)
    ensures ValidAncestor(s, ancestor) <==> KnownAncestor(s.rows, ancestor)
  {
    var rows := s.rows;
    TipIsLast(rows);
    if rows != [] {
      if ValidAncestor(s, ancestor) {
        AncestorHash(s, ancestor);
        var i := RowWithHash(rows, ancestor.block, ancestor.hash);
      }
      if i :| 0 <= i < |rows| && rows[i].block == ancestor.block && rows[i].hash == ancestor.hash {
        var last := |rows| - 1;
        assert i < last ==> Before(rows[i], rows[last]);
        assert ancestor.hash in HashesAt(rows, ancestor.block);
        forall hash | hash in HashesAt(rows, ancestor.block) ensures hash == ancestor.hash {
          var j := RowWithHash(rows, ancestor.block, hash);
        }
        assert HashesAt(rows, ancestor.block) == {ancestor.hash};
      }
    }
  }

  /** On a canonical table exactly the proper segments on a known ancestor are accepted, if the database can hold them. */
  lemma AcceptedIff(registry: Registry, s: State, segment: Segment)
    requires Canonical(s)
    ensures Acceptable(registry, s, segment) <==>
      && Proper(registry, segment) && KnownAncestor(s.rows, segment.ancestor)
      && segment.chainId < 0x8000_0000_0000_0000 && segment.ancestor.block < 0x8000_0000_0000_0000
      && forall log :: log in segment.logs ==>
        log.block < 0x8000_0000_0000_0000 && log.tx < 0x8000_0000_0000_0000 && log.index < 0x8000_0000_0000_0000
  {
    hide ValidSegment, Proper, ValidAncestor, KnownAncestor, Canonical;
    ProperIff(registry, segment);
    KnownAncestorIff(s, segment.ancestor);
  }
}
