/** Which recorded entries a ledger can be rebuilt from, told from the entries alone. */
module Reconstruction {
  import opened Trading
  import opened Numerals
  import A = Accounting
  import L = Ledger
  import G = LedgerLog

  // ----- repetitions and conflicts

  /** Two entries that share an id and differ. */
  ghost predicate Clash(es: seq<L.Entry>, i: nat, j: nat) {
    i < j < |es| && es[i].eventId == es[j].eventId && es[i] != es[j]
  }

  ghost predicate Conflicting(es: seq<L.Entry>) {
    exists i: nat, j: nat :: Clash(es, i, j)
  }

  /** The first entry that carries its id. */
  ghost predicate IsFirst(es: seq<L.Entry>, i: nat) {
    i < |es| && forall j :: 0 <= j < i ==> es[j].eventId != es[i].eventId
  }

  /** `unique` is `es` read at increasing places `at`, which are exactly the first entries of their ids. */
  ghost predicate FirstsAt(es: seq<L.Entry>, at: seq<nat>, unique: seq<L.Entry>) {
    && |at| == |unique|
    && (forall k :: 0 <= k < |at| ==> IsFirst(es, at[k]) && unique[k] == es[at[k]])
    && (forall k, l :: 0 <= k < l < |at| ==> at[k] < at[l])
    && (forall i: nat :: IsFirst(es, i) ==> i in at)
  }

  ghost predicate DistinctIds(es: seq<L.Entry>) {
    forall i, j :: 0 <= i < j < |es| ==> es[i].eventId != es[j].eventId
  }

  ghost predicate SameMembers(a: seq<L.Entry>, b: seq<L.Entry>) {
    forall e :: e in a <==> e in b
  }

  lemma {:induction false} WithIdIff(es: seq<L.Entry>, id: string)
    ensures match L.WithId(es, id)
      case None => forall i :: 0 <= i < |es| ==> es[i].eventId != id
      case Some(e) => e in es && e.eventId == id
    decreases |es|
  {
    if es != [] {
      var n := |es| - 1;
      WithIdIff(es[..n], id);
      assert forall i :: 0 <= i < n ==> es[..n][i] == es[i];
    }
  }

  lemma NothingFirst()
    ensures FirstsAt([], [], []) && !Conflicting([])
  {
  }

  /** An entry under a new id is the next first one. */
  lemma OneMoreFirst(es: seq<L.Entry>, at: seq<nat>, unique: seq<L.Entry>, e: L.Entry)
    requires FirstsAt(es, at, unique) && SameMembers(es, unique)
    requires forall i :: 0 <= i < |unique| ==> unique[i].eventId != e.eventId
    ensures FirstsAt(es + [e], at + [|es|], unique + [e]) && SameMembers(es + [e], unique + [e])
  {
    var longer := es + [e];
    forall j | 0 <= j < |es| ensures es[j].eventId != e.eventId {
      assert es[j] in unique;
    }
    assert IsFirst(longer, |es|);
    forall i: nat | IsFirst(longer, i) ensures i in at + [|es|] {
      if i < |es| {
        assert forall j :: 0 <= j <= i ==> longer[j] == es[j];
        assert IsFirst(es, i);
      }
    }
    assert forall k :: 0 <= k < |at| ==> IsFirst(longer, at[k]);
  }

  /** An exact repetition is no first entry. */
  lemma OneMoreRepetition(es: seq<L.Entry>, at: seq<nat>, unique: seq<L.Entry>, e: L.Entry)
    requires FirstsAt(es, at, unique) && SameMembers(es, unique) && e in es
    ensures FirstsAt(es + [e], at, unique) && SameMembers(es + [e], unique)
  {
    var longer := es + [e];
    var j :| 0 <= j < |es| && es[j] == e;
    assert longer[j].eventId == longer[|es|].eventId;
    forall i: nat | IsFirst(longer, i) ensures i in at {
      assert longer[|es|] == e && i < |es|;
      assert forall k :: 0 <= k <= i ==> longer[k] == es[k];
      assert IsFirst(es, i);
    }
    assert forall k :: 0 <= k < |at| ==> IsFirst(longer, at[k]);
  }

  lemma ConflictGrows(es: seq<L.Entry>, e: L.Entry)
    ensures Conflicting(es + [e]) <==>
      Conflicting(es) || exists i :: 0 <= i < |es| && es[i].eventId == e.eventId && es[i] != e
  {
    var longer := es + [e];
    if i: nat, j: nat :| Clash(longer, i, j) {
      assert j < |es| ==> Clash(es, i, j);
    }
    if i: nat, j: nat :| Clash(es, i, j) {
      assert Clash(longer, i, j);
    }
    if i :| 0 <= i < |es| && es[i].eventId == e.eventId && es[i] != e {
      assert Clash(longer, i, |es|);
    }
  }

  /**
   * Deduplication succeeds if and only if no two entries share an id and differ; it then gives the first entry of
   * every id, in order, and they are the same entries.
   */
  lemma {:induction false} DeduplicatedIff(es: seq<L.Entry>) returns (at: seq<nat>)
    ensures L.Deduplicated(es).Some? <==> !Conflicting(es)
    ensures L.Deduplicated(es).Some? ==>
      var unique := L.Deduplicated(es).value;
      FirstsAt(es, at, unique) && SameMembers(es, unique) && DistinctIds(unique)
    decreases |es|
  {
    hide L.WithId, FirstsAt, Conflicting, SameMembers, DistinctIds;
    at := [];
    if es == [] {
      NothingFirst();
      FirstsAreDistinct(es, at, []);
      NoMembers();
    } else {
      var n := |es| - 1;
      var front, last := es[..n], es[n];
      assert es == front + [last];
      at := DeduplicatedIff(front);
      ConflictGrows(front, last);
      if L.Deduplicated(front).Some? {
        var unique := L.Deduplicated(front).value;
        WithIdIff(unique, last.eventId);
        match L.WithId(unique, last.eventId) {
          case None =>
            AllNew(front, unique, last);
            OneMoreFirst(front, at, unique, last);
            at := at + [n];
            FirstsAreDistinct(es, at, unique + [last]);
          case Some(previous) =>
            PreviousDecides(front, unique, previous, last);
            if previous == last {
              OneMoreRepetition(front, at, unique, last);
            }
        }
      }
    }
  }

  lemma NoMembers()
    ensures SameMembers([], [])
  {
  }

  lemma FirstsAreDistinct(es: seq<L.Entry>, at: seq<nat>, unique: seq<L.Entry>)
    requires FirstsAt(es, at, unique)
    ensures DistinctIds(unique)
  {
  }

  lemma AllNew(front: seq<L.Entry>, unique: seq<L.Entry>, last: L.Entry)
    requires SameMembers(front, unique) && forall i :: 0 <= i < |unique| ==> unique[i].eventId != last.eventId
    ensures !(exists i :: 0 <= i < |front| && front[i].eventId == last.eventId && front[i] != last)
  {
    forall i | 0 <= i < |front| ensures front[i].eventId != last.eventId {
      assert front[i] in unique;
    }
  }

  /** Whether the new entry conflicts shows at the one entry kept under its id. */
  lemma PreviousDecides(front: seq<L.Entry>, unique: seq<L.Entry>, previous: L.Entry, last: L.Entry)
    requires SameMembers(front, unique) && DistinctIds(unique)
    requires previous in unique && previous.eventId == last.eventId
    ensures previous in front
    ensures previous == last <==> !(exists i :: 0 <= i < |front| && front[i].eventId == last.eventId && front[i] != last)
  {
    assert previous in front;
    forall i | 0 <= i < |front| && front[i].eventId == last.eventId ensures front[i] == previous {
      assert front[i] in unique;
      var k :| 0 <= k < |unique| && unique[k] == front[i];
      var l :| 0 <= l < |unique| && unique[l] == previous;
      assert k == l;
    }
    var j :| 0 <= j < |front| && front[j] == previous;
  }

  // ----- why a reconstruction fails

  lemma ApplyVerdicts(l: L.State, entry: L.Entry)
    ensures L.Apply(l, entry).1 != L.Err(L.SequenceGap)
    ensures entry.eventId !in l.placements ==> L.Apply(l, entry).1 != L.Err(L.ConflictingDuplicate)
  {
    hide A.Filled, A.Settled, A.Held, L.AfterFill, L.FillMatches;
  }

  ghost predicate Fresh(l: L.State, es: seq<L.Entry>) {
    forall i :: 0 <= i < |es| ==> es[i].eventId !in l.placements
  }

  lemma {:induction false} PlacedByEntries(l: L.State, es: seq<L.Entry>)
    ensures forall id :: id in L.Replay(l, es).0.placements ==>
      id in l.placements || exists i :: 0 <= i < |es| && es[i].eventId == id
    decreases |es|
  {
    hide L.Apply;
    if es != [] {
      var n := |es| - 1;
      PlacedByEntries(l, es[..n]);
      var m := L.Replay(l, es[..n]).0;
      L.ApplyFrame(m, es[n]);
      forall id | id in m.placements && id !in l.placements ensures exists i :: 0 <= i < |es| && es[i].eventId == id {
        var i :| 0 <= i < n && es[..n][i].eventId == id;
        assert es[i].eventId == id;
      }
    }
  }

  /** Entries under distinct new ids are never refused as duplicates. */
  lemma {:induction false} NoDuplicateLeft(l: L.State, es: seq<L.Entry>)
    requires DistinctIds(es) && Fresh(l, es)
    ensures L.Replay(l, es).1 != L.Err(L.ConflictingDuplicate)
    decreases |es|
  {
    hide L.Apply;
    if es != [] {
      var n := |es| - 1;
      NoDuplicateLeft(l, es[..n]);
      PlacedByEntries(l, es[..n]);
      assert forall i :: 0 <= i < n ==> es[..n][i] == es[i];
      assert es[n].eventId !in L.Replay(l, es[..n]).0.placements;
      ApplyVerdicts(L.Replay(l, es[..n]).0, es[n]);
    }
  }

  /** The replay reaches entry `k` and finds another number on it. */
  ghost predicate GapAt(blank: L.State, es: seq<L.Entry>, k: nat) {
    k < |es| && L.Replay(blank, es[..k]).1.Ok? && es[k].sequence != k
  }

  ghost predicate HasGap(es: seq<L.Entry>, idPrefix: string) {
    exists k: nat :: GapAt(L.Blank(L.CashIn(es), idPrefix), es, k)
  }

  ghost predicate NumberedFromZero(es: seq<L.Entry>) {
    forall k :: 0 <= k < |es| ==> es[k].sequence == k
  }

  lemma {:induction false} ReplayCounts(blank: L.State, es: seq<L.Entry>)
    requires blank.nextSequence == 0
    ensures L.Replay(blank, es).1.Ok? ==> L.Replay(blank, es).0.nextSequence == |es| && NumberedFromZero(es)
    ensures L.Replay(blank, es).1 == L.Err(L.SequenceGap) <==> exists k: nat :: GapAt(blank, es, k)
    decreases |es|
  {
    hide L.Apply;
    if es != [] {
      var n := |es| - 1;
      var front := es[..n];
      ReplayCounts(blank, front);
      assert forall k :: 0 <= k <= n ==> es[..k] == front[..k];
      assert forall k: nat :: k < n ==> (GapAt(blank, es, k) <==> GapAt(blank, front, k));
      assert front[..n] == front;
      var m := L.Replay(blank, front).0;
      if L.Replay(blank, front).1.Ok? {
        NoGapBefore(blank, front);
        ApplyVerdicts(m, es[n]);
        L.ApplyFrame(m, es[n]);
        assert GapAt(blank, es, n) <==> es[n].sequence != n;
      } else {
        assert !GapAt(blank, es, n);
        if k: nat :| GapAt(blank, front, k) {
          assert GapAt(blank, es, k);
        }
      }
    }
  }

  lemma NoGapBefore(blank: L.State, es: seq<L.Entry>)
    requires NumberedFromZero(es)
    ensures !exists k: nat :: GapAt(blank, es, k)
  {
  }

  lemma BlankIsFresh(cash: real, idPrefix: string, es: seq<L.Entry>)
    ensures Fresh(L.Blank(cash, idPrefix), es) && L.Blank(cash, idPrefix).nextSequence == 0
  {
  }

  /**
   * What a reconstruction answers, told from the entries. It reports a conflicting duplicate exactly when two entries
   * share an id and differ; otherwise a gap exactly when the distinct entries that replay reaches are not numbered
   * 0, 1, 2 and so on; and a ledger that it rebuilds holds the first entry of every id, numbered that way.
   */
  lemma ReconstructionVerdict(es: seq<L.Entry>, idPrefix: string) returns (at: seq<nat>, unique: seq<L.Entry>)
    ensures L.Reconstruct(es, idPrefix) == L.Failed(L.ConflictingDuplicate) <==> Conflicting(es)
    ensures !Conflicting(es) ==> FirstsAt(es, at, unique) && SameMembers(es, unique) && DistinctIds(unique)
    ensures !Conflicting(es) ==>
      (L.Reconstruct(es, idPrefix) == L.Failed(L.SequenceGap) <==> HasGap(unique, idPrefix))
    ensures L.Reconstruct(es, idPrefix).Rebuilt? ==>
      var l := L.Reconstruct(es, idPrefix).state;
      l.entries == unique && l.nextSequence == |unique| && NumberedFromZero(unique)
  {
    hide L.Replay, L.Deduplicated, L.CashIn, L.AtRest, L.Blank, Conflicting, FirstsAt, DistinctIds, SameMembers;
    at := DeduplicatedIff(es);
    unique := [];
    if !Conflicting(es) {
      unique := L.Deduplicated(es).value;
      var blank := L.Blank(L.CashIn(unique), idPrefix);
      BlankIsFresh(L.CashIn(unique), idPrefix, unique);
      NoDuplicateLeft(blank, unique);
      ReplayCounts(blank, unique);
      assert L.Reconstruct(es, idPrefix) == L.Failed(L.SequenceGap) <==> L.Replay(blank, unique).1 == L.Err(L.SequenceGap);
    }
  }

  function PaidIn(): L.Event -> real {
    (e: L.Event) => if e.CashMovement? then e.amount else 0.0
  }

  lemma {:induction false} PaidInIsSummed(es: seq<L.Entry>)
    ensures L.CashIn(es) == G.Total(PaidIn(), es)
    decreases |es|
  {
    if es != [] {
      PaidInIsSummed(es[..|es| - 1]);
    }
  }

  lemma {:induction false} FundingStays(blank: L.State, es: seq<L.Entry>)
    ensures L.Replay(blank, es).0.cashFunded == blank.cashFunded && L.Replay(blank, es).0.idPrefix == blank.idPrefix
    decreases |es|
  {
    hide L.Apply;
    if es != [] {
      var n := |es| - 1;
      FundingStays(blank, es[..n]);
      L.ApplyFrame(L.Replay(blank, es[..n]).0, es[n]);
    }
  }

  /** A rebuilt account is bound by its cash if and only if the distinct entries paid some in. */
  lemma RebuiltIsFundedIff(es: seq<L.Entry>, idPrefix: string)
    requires L.Reconstruct(es, idPrefix).Rebuilt?
    ensures var l := L.Reconstruct(es, idPrefix).state;
      (l.cashFunded <==> G.Total(PaidIn(), l.entries) > 0.0) && l.idPrefix == idPrefix
  {
    hide L.Replay, L.Deduplicated, L.CashIn, L.AtRest;
    var unique := L.Deduplicated(es).value;
    PaidInIsSummed(unique);
    FundingStays(L.Blank(L.CashIn(unique), idPrefix), unique);
  }

  /** Two entries of one id with different amounts. */
  lemma ConflictIsReported()
    ensures var es := [
      L.Entry("paper-ledger-0", 0, 0, L.CashMovement(100.0)), L.Entry("paper-ledger-0", 0, 0, L.CashMovement(200.0))];
      L.Reconstruct(es, "p") == L.Failed(L.ConflictingDuplicate)
  {
    var es := [
      L.Entry("paper-ledger-0", 0, 0, L.CashMovement(100.0)), L.Entry("paper-ledger-0", 0, 0, L.CashMovement(200.0))];
    assert Clash(es, 0, 1);
    var _, _ := ReconstructionVerdict(es, "p");
  }
}
