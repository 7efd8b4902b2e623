/** Durable raw-evidence sink: multipart segments committed by an atomic manifest. */
module Archive {
  import opened Trading
  import opened Numerals

  type Bytes = seq<bv8>

  /** SHA-256 is any function from contents to digests. */
  type Digest = Bytes -> string

  const SCHEMA_VERSION := 1
  const MAX_PARTS := 0xffff_ffff

  datatype SegmentRef = SegmentRef(key: string, sha: string, records: nat)
  datatype Manifest = Manifest(schemaVersion: nat, segments: seq<SegmentRef>)
  datatype PartId = PartId(number: nat, sha: string)
  datatype Upload = Upload(key: string, parts: map<nat, Bytes>)

  /** What survives a crash: objects, the manifest object, and unfinished uploads. */
  datatype Store = Store(
    objects: map<string, Bytes>, manifest: Option<Manifest>, uploads: map<nat, Upload>, nextUpload: nat)

  function SegmentKey(index: nat): string {
    "segments/segment-" + Padded(Decimal(index), 8) + ".jsonl"
  }

  lemma SegmentKeysDistinct(i: nat, j: nat)
    requires i != j
    ensures SegmentKey(i) != SegmentKey(j)
  {
    var head, tail := "segments/segment-", ".jsonl";
    var p, q := Padded(Decimal(i), 8), Padded(Decimal(j), 8);
    DecimalRoundTrip(i);
    DecimalRoundTrip(j);
    PaddingKeepsValue(Decimal(i), 8);
    PaddingKeepsValue(Decimal(j), 8);
    assert p != q;
    if |p| == |q| {
      assert SegmentKey(i)[|head|..|head| + |p|] == p;
      assert SegmentKey(j)[|head|..|head| + |q|] == q;
    }
  }

  /** No manifest yet counts as an empty one. */
  function ManifestOf(st: Store): Manifest {
    match st.manifest
    case None => Manifest(SCHEMA_VERSION, [])
    case Some(m) => m
  }

  predicate Intact(sha: Digest, st: Store, segment: SegmentRef) {
    segment.key in st.objects && sha(st.objects[segment.key]) == segment.sha
  }

  /** What recovery checks: the version, and every committed segment's presence and digest. */
  predicate Readable(sha: Digest, st: Store) {
    ManifestOf(st).schemaVersion == SCHEMA_VERSION &&
    forall i :: 0 <= i < |ManifestOf(st).segments| ==> Intact(sha, st, ManifestOf(st).segments[i])
  }

  /** A store this sink wrote: readable, with segments under consecutive keys. */
  ghost predicate Sound(sha: Digest, st: Store) {
    Readable(sha, st) &&
    forall i :: 0 <= i < |ManifestOf(st).segments| ==> ManifestOf(st).segments[i].key == SegmentKey(i)
  }

  function Contents(st: Store, segments: seq<SegmentRef>): Bytes {
    if segments == [] then []
    else
      var last := segments[|segments| - 1];
      Contents(st, segments[..|segments| - 1]) + if last.key in st.objects then st.objects[last.key] else []
  }

  /** The bytes a reader of the manifest gets. */
  function Durable(st: Store): Bytes {
    Contents(st, ManifestOf(st).segments)
  }

  /** Committed segments stay, under their keys, with their contents. */
  ghost predicate Keeps(before: Store, after: Store) {
    ManifestOf(before).segments <= ManifestOf(after).segments &&
    (forall i :: 0 <= i < |ManifestOf(before).segments| ==>
      var key := ManifestOf(before).segments[i].key;
      key in before.objects && key in after.objects && after.objects[key] == before.objects[key]) &&
    Durable(before) <= Durable(after)
  }

  lemma {:induction false} ContentsFrame(a: Store, b: Store, segments: seq<SegmentRef>)
    requires forall i :: 0 <= i < |segments| ==>
      segments[i].key in a.objects && segments[i].key in b.objects &&
      a.objects[segments[i].key] == b.objects[segments[i].key]
    ensures Contents(a, segments) == Contents(b, segments)
    decreases |segments|
  {
    if segments != [] {
      ContentsFrame(a, b, segments[..|segments| - 1]);
    }
  }

  /** Touching only uploads, or the object under the next free key, is safe. */
  lemma UncommittedIsSafe(sha: Digest, before: Store, after: Store)
    requires Sound(sha, before) && after.manifest == before.manifest
    requires var next := SegmentKey(|ManifestOf(before).segments|);
      forall key :: key in before.objects && key != next ==>
        key in after.objects && after.objects[key] == before.objects[key]
    ensures Sound(sha, after) && Keeps(before, after) && Durable(after) == Durable(before)
  {
    var segments := ManifestOf(before).segments;
    forall i | 0 <= i < |segments|
      ensures segments[i].key in after.objects && after.objects[segments[i].key] == before.objects[segments[i].key]
    {
      assert Intact(sha, before, segments[i]);
      SegmentKeysDistinct(i, |segments|);
    }
    ContentsFrame(before, after, segments);
  }

  /** Putting a manifest with one more segment, already stored under the next key, commits it. */
  lemma CommitIsSafe(sha: Digest, before: Store, after: Store, body: Bytes, records: nat)
    requires Sound(sha, before) && after.objects == before.objects
    requires var n := |ManifestOf(before).segments|;
      SegmentKey(n) in before.objects && before.objects[SegmentKey(n)] == body &&
      after.manifest == Some(ManifestOf(before).(segments := ManifestOf(before).segments +
        [SegmentRef(SegmentKey(n), sha(body), records)]))
    ensures Sound(sha, after) && Keeps(before, after) && Durable(after) == Durable(before) + body
  {
    var segments, n := ManifestOf(before).segments, |ManifestOf(before).segments|;
    var all := ManifestOf(after).segments;
    assert all[..n] == segments;
    forall i | 0 <= i < n ensures Intact(sha, after, all[i]) && all[i].key in before.objects {
      assert Intact(sha, before, segments[i]);
    }
    ContentsFrame(before, after, segments);
  }

  // ----- records

  function Joined(pieces: seq<Bytes>): Bytes {
    if pieces == [] then [] else Joined(pieces[..|pieces| - 1]) + pieces[|pieces| - 1]
  }

  lemma JoinedSnoc(pieces: seq<Bytes>, piece: Bytes)
    ensures Joined(pieces + [piece]) == Joined(pieces) + piece
  {
    assert (pieces + [piece])[..|pieces|] == pieces;
  }

  lemma {:induction false} JoinedConcat(a: seq<Bytes>, b: seq<Bytes>)
    ensures Joined(a + b) == Joined(a) + Joined(b)
    decreases |b|
  {
    hide Joined;
    if b == [] {
      assert a + b == a;
      JoinedNothing();
    } else {
      var shorter, last := b[..|b| - 1], b[|b| - 1];
      JoinedConcat(a, shorter);
      assert a + b == (a + shorter) + [last] && b == shorter + [last];
      JoinedSnoc(a + shorter, last);
      JoinedSnoc(shorter, last);
    }
  }

  /** How many records the committed segments hold. */
  function RecordCount(segments: seq<SegmentRef>): nat {
    if segments == [] then 0 else RecordCount(segments[..|segments| - 1]) + segments[|segments| - 1].records
  }

  /** Durable bytes made of the bytes found and a whole number of the records given since. */
  ghost predicate AtBoundary(durable: Bytes, base: Bytes, appended: seq<Bytes>) {
    exists k: nat :: Reaches(durable, base, appended, k)
  }

  ghost predicate Reaches(durable: Bytes, base: Bytes, appended: seq<Bytes>, k: nat) {
    k <= |appended| && durable == base + Joined(appended[..k])
  }

  /** The buffer holds exactly the last `buffered` records; all earlier ones are durable. */
  ghost predicate Holding(durable: Bytes, base: Bytes, appended: seq<Bytes>, buffered: nat, buffer: Bytes) {
    && buffered <= |appended|
    && buffer == Joined(appended[|appended| - buffered..])
    && Reaches(durable, base, appended, |appended| - buffered)
  }

  lemma HoldOneMore(
    durable: Bytes, base: Bytes, appended: seq<Bytes>, buffered: nat, buffer: Bytes, record: Bytes)
    requires Holding(durable, base, appended, buffered, buffer)
    ensures Holding(durable, base, appended + [record], buffered + 1, buffer + record)
  {
    var n := |appended| - buffered;
    var longer := appended + [record];
    assert longer[..n] == appended[..n] && longer[n..] == appended[n..] + [record];
    JoinedSnoc(appended[n..], record);
  }

  lemma ReleaseBuffer(durable: Bytes, base: Bytes, appended: seq<Bytes>, buffered: nat, buffer: Bytes)
    requires Holding(durable, base, appended, buffered, buffer)
    ensures Holding(durable + buffer, base, appended, 0, [])
  {
    hide Joined;
    var n := |appended| - buffered;
    assert appended == appended[..n] + appended[n..] && appended[..|appended|] == appended;
    JoinedConcat(appended[..n], appended[n..]);
    assert appended[|appended|..] == [];
    JoinedNothing();
    assert base + (Joined(appended[..n]) + buffer) == (base + Joined(appended[..n])) + buffer;
  }

  lemma JoinedNothing()
    ensures Joined([]) == []
  {
  }

  lemma HoldingIsBoundary(durable: Bytes, base: Bytes, appended: seq<Bytes>, buffered: nat, buffer: Bytes)
    requires Holding(durable, base, appended, buffered, buffer)
    ensures AtBoundary(durable, base, appended)
  {
    hide Joined;
  }

  /** Records that all hold something cannot wait in an empty buffer. */
  lemma EmptyBufferHoldsNothing(durable: Bytes, base: Bytes, appended: seq<Bytes>, buffered: nat)
    requires Holding(durable, base, appended, buffered, []) && forall i :: 0 <= i < |appended| ==> appended[i] != []
    ensures buffered == 0
  {
    var n := |appended| - buffered;
    assert forall i :: n <= i < |appended| ==> appended[i] == appended[n..][i - n];
    NonemptyJoined(appended[n..]);
  }

  lemma NonemptyJoined(pieces: seq<Bytes>)
    requires forall i :: 0 <= i < |pieces| ==> pieces[i] != []
    ensures Joined(pieces) == [] <==> |pieces| == 0
  {
  }

  // ----- the object store

  datatype Attempt = Succeeded | Transient | Permanent

  function Assembled(parts: map<nat, Bytes>, ids: seq<PartId>): Bytes {
    if ids == [] then []
    else
      var last := ids[|ids| - 1].number;
      Assembled(parts, ids[..|ids| - 1]) + if last in parts then parts[last] else []
  }

  predicate PartsMatch(sha: Digest, parts: map<nat, Bytes>, ids: seq<PartId>) {
    forall i :: 0 <= i < |ids| ==> ids[i].number in parts && sha(parts[ids[i].number]) == ids[i].sha
  }

  /** Upload ids are handed out in order. */
  ghost predicate UploadsNumbered(st: Store) {
    forall id :: id in st.uploads ==> id < st.nextUpload
  }

  /** A manifest put that takes effect. */
  function Put(st: Store, body: Manifest): Store {
    st.(manifest := Some(body))
  }

  /** A completed upload. */
  function Completed(st: Store, key: string, body: Bytes): Store {
    st.(objects := st.objects[key := body])
  }

  /**
   * An S3-shaped store that may fail at every call. A failed manifest put changes nothing; any other
   * failed call may leave its upload or its target object half done. `trace` lists the state after
   * every operation: a crash leaves one of them behind.
   */
  class ObjectStore {
    const sha: Digest
    var state: Store
    var trace: seq<Store>
    /** How every call ended. */
    var attempts: seq<Attempt>

    ghost predicate Valid()
      reads this
    {
      trace != [] && trace[|trace| - 1] == state && forall i :: 0 <= i < |trace| ==> UploadsNumbered(trace[i])
    }

    /** Storage found in some state. */
    constructor (sha: Digest, state: Store)
      requires UploadsNumbered(state)
      ensures Valid() && this.sha == sha && this.state == state && trace == [state] && attempts == []
    {
      this.sha := sha;
      this.state := state;
      trace, attempts := [state], [];
    }

    method PutManifest(body: Manifest) returns (r: Attempt)
      requires Valid()
      modifies this
      ensures Valid() && trace == old(trace) + [state] && attempts == old(attempts) + [r]
      ensures state == if r.Succeeded? then Put(old(state), body) else old(state)
    {
      r := Failing();
      if r.Succeeded? {
        state := Put(state, body);
      }
      trace, attempts := trace + [state], attempts + [r];
    }

    method CreateMultipart(key: string) returns (r: Attempt, id: nat)
      requires Valid()
      modifies this
      ensures Valid() && trace == old(trace) + [state] && attempts == old(attempts) + [r]
      ensures state.objects == old(state).objects && state.manifest == old(state).manifest
      ensures r.Succeeded? ==> id in state.uploads && state.uploads[id] == Upload(key, map[])
    {
      r := Failing();
      id := state.nextUpload;
      var dangling := Coin();
      if r.Succeeded? || dangling {
        state := state.(uploads := state.uploads[id := Upload(key, map[])], nextUpload := id + 1);
      }
      trace, attempts := trace + [state], attempts + [r];
    }

    method UploadPart(id: nat, number: nat, body: Bytes) returns (r: Attempt)
      requires Valid() && id in state.uploads
      modifies this
      ensures Valid() && trace == old(trace) + [state] && attempts == old(attempts) + [r]
      ensures state.objects == old(state).objects && state.manifest == old(state).manifest
      ensures id in state.uploads && state.uploads[id].key == old(state).uploads[id].key
      ensures forall n :: n != number && n in old(state).uploads[id].parts ==>
        n in state.uploads[id].parts && state.uploads[id].parts[n] == old(state).uploads[id].parts[n]
      ensures r.Succeeded? ==> number in state.uploads[id].parts && state.uploads[id].parts[number] == body
    {
      r := Failing();
      var upload := state.uploads[id];
      var torn := Torn();
      var stored := if r.Succeeded? then body else torn;
      state := state.(uploads := state.uploads[id := upload.(parts := upload.parts[number := stored])]);
      trace, attempts := trace + [state], attempts + [r];
    }

    method CompleteMultipart(key: string, id: nat, ids: seq<PartId>) returns (r: Attempt)
      requires Valid() && id in state.uploads
      modifies this
      ensures Valid() && trace == old(trace) + [state] && attempts == old(attempts) + [r]
      ensures state.manifest == old(state).manifest
      ensures forall k :: k != key && k in old(state).objects ==>
        k in state.objects && state.objects[k] == old(state).objects[k]
      ensures r.Succeeded? ==>
        PartsMatch(sha, old(state).uploads[id].parts, ids) &&
        key in state.objects && state.objects[key] == Assembled(old(state).uploads[id].parts, ids)
      ensures !r.Succeeded? ==> id in state.uploads && state.uploads[id] == old(state).uploads[id]
    {
      var upload := state.uploads[id];
      r := Failing();
      if !PartsMatch(sha, upload.parts, ids) {
        r := Permanent;
      }
      var written := Coin();
      if r.Succeeded? {
        state := Completed(state, key, Assembled(upload.parts, ids)).(uploads := state.uploads - {id});
      } else if written {
        var torn := Torn();
        state := Completed(state, key, torn);
      }
      trace, attempts := trace + [state], attempts + [r];
    }

    method AbortMultipart(id: nat) returns (r: Attempt)
      requires Valid()
      modifies this
      ensures Valid() && trace == old(trace) + [state] && attempts == old(attempts) + [r]
      ensures state.objects == old(state).objects && state.manifest == old(state).manifest
      ensures state.uploads.Keys <= old(state).uploads.Keys
      ensures r.Succeeded? ==> state.uploads == old(state).uploads - {id}
    {
      r := Failing();
      var gone := Coin();
      if r.Succeeded? || gone {
        state := state.(uploads := state.uploads - {id});
      }
      trace, attempts := trace + [state], attempts + [r];
    }

    /** Reading can fail and changes nothing. */
    method Read() returns (r: Attempt)
      modifies this`attempts
      ensures attempts == old(attempts) + [r]
    {
      r := Failing();
      attempts := attempts + [r];
    }

    method Failing() returns (r: Attempt)
    {
      if * {
        r := Succeeded;
      } else if * {
        r := Transient;
      } else {
        r := Permanent;
      }
    }

    method Coin() returns (b: bool)
    {
      b := *;
    }

    method Torn() returns (b: Bytes)
    {
      b := *;
    }

    /** Some moment after the process started. */
    method CrashPoint() returns (n: nat)
      requires Valid()
      ensures 0 < n <= |trace|
    {
      n :| 0 < n <= |trace|;
    }
  }

  // ----- recovery

  datatype Recovery = Recovered(manifest: Manifest) | Unavailable | Corrupt

  /**
   * Recovery reports corruption only of a store that is not readable, and never accepts one that is not.
   * It touches nothing but unfinished uploads, one abort at a time, and leaves none when it succeeds.
   */
  method Recover(store: ObjectStore) returns (r: Recovery)
    requires store.Valid()
    modifies store
    ensures store.Valid() && OnlyAborts(old(store.trace), store.trace)
    ensures store.state.objects == old(store.state).objects && store.state.manifest == old(store.state).manifest
    ensures r.Corrupt? ==> !Readable(store.sha, old(store.state))
    ensures r.Recovered? ==>
      Readable(store.sha, old(store.state)) && r.manifest == ManifestOf(old(store.state)) && store.state.uploads == map[]
    ensures old(store.attempts) <= store.attempts
    ensures r.Unavailable? <==> !NoneFailed(store.attempts[|old(store.attempts)|..])
    ensures r.Recovered? && store.state.manifest.Some? ==>
      && store.state.manifest.value.schemaVersion == 1
      && forall segment :: segment in store.state.manifest.value.segments ==>
        segment.key in store.state.objects && store.sha(store.state.objects[segment.key]) == segment.sha
  {
    hide UploadsNumbered, NoneFailed;
    ghost var tried := store.attempts;
    NothingFailed(tried);
    var read := store.Read();
    OneMoreTry(tried, tried, read);
    if !read.Succeeded? {
      return Unavailable;
    }
    var manifest := ManifestOf(store.state);
    if manifest.schemaVersion != SCHEMA_VERSION {
      return Corrupt;
    }
    var i := 0;
    while i < |manifest.segments|
      invariant 0 <= i <= |manifest.segments| && store.state == old(store.state) && store.trace == old(store.trace)
      invariant store.Valid() && forall j :: 0 <= j < i ==> Intact(store.sha, store.state, manifest.segments[j])
      invariant old(store.attempts) <= store.attempts && NoneFailed(store.attempts[|old(store.attempts)|..])
    {
      ghost var before := store.attempts;
      read := store.Read();
      OneMoreTry(tried, before, read);
      if !read.Succeeded? {
        return Unavailable;
      }
      if !Intact(store.sha, store.state, manifest.segments[i]) {
        return Corrupt;
      }
      i := i + 1;
    }
    ghost var checked := store.attempts;
    var listed := store.Read();
    OneMoreTry(tried, checked, listed);
    if !listed.Succeeded? {
      return Unavailable;
    }
    ghost var known := store.attempts;
    var aborted := AbortPending(store);
    MoreTries(tried, known, store.attempts);
    r := if aborted then Recovered(manifest) else Unavailable;
  }

  ghost predicate NoneFailed(tries: seq<Attempt>) {
    forall i :: 0 <= i < |tries| ==> tries[i].Succeeded?
  }

  lemma NothingFailed(tried: seq<Attempt>)
    ensures NoneFailed(tried[|tried|..])
  {
  }

  lemma MoreTries(earlier: seq<Attempt>, tried: seq<Attempt>, later: seq<Attempt>)
    requires earlier <= tried <= later
    ensures NoneFailed(later[|earlier|..]) <==> NoneFailed(tried[|earlier|..]) && NoneFailed(later[|tried|..])
  {
    var a, b := tried[|earlier|..], later[|tried|..];
    assert later[|earlier|..] == a + b;
    assert forall i :: 0 <= i < |a| ==> (a + b)[i] == a[i];
    assert forall i :: 0 <= i < |b| ==> (a + b)[|a| + i] == b[i];
  }

  lemma OneMoreTry(earlier: seq<Attempt>, tried: seq<Attempt>, r: Attempt)
    requires earlier <= tried
    ensures NoneFailed((tried + [r])[|earlier|..]) <==> NoneFailed(tried[|earlier|..]) && r.Succeeded?
  {
    var tries := tried[|earlier|..];
    assert (tried + [r])[|earlier|..] == tries + [r];
    assert (tries + [r])[|tries|] == r;
    assert forall i :: 0 <= i < |tries| ==> (tries + [r])[i] == tries[i];
  }

  /** Every state after the first ones differs from the one before in its uploads only. */
  ghost predicate OnlyAborts(earlier: seq<Store>, later: seq<Store>) {
    && earlier <= later
    && forall i :: |earlier| <= i < |later| && i > 0 ==>
      later[i].objects == later[i - 1].objects && later[i].manifest == later[i - 1].manifest
  }

  method AbortPending(store: ObjectStore) returns (ok: bool)
    requires store.Valid()
    modifies store
    ensures store.Valid() && OnlyAborts(old(store.trace), store.trace)
    ensures store.state.objects == old(store.state).objects && store.state.manifest == old(store.state).manifest
    ensures ok ==> store.state.uploads == map[]
    ensures old(store.attempts) <= store.attempts && (ok <==> NoneFailed(store.attempts[|old(store.attempts)|..]))
  {
    hide UploadsNumbered, NoneFailed;
    ghost var tried := store.attempts;
    NothingFailed(tried);
    var todo := store.state.uploads.Keys;
    while todo != {}
      invariant store.Valid() && OnlyAborts(old(store.trace), store.trace) && store.state.uploads.Keys <= todo
      invariant store.state.objects == old(store.state).objects && store.state.manifest == old(store.state).manifest
      invariant old(store.attempts) <= store.attempts && NoneFailed(store.attempts[|old(store.attempts)|..])
      decreases |todo|
    {
      var id :| id in todo;
      ghost var before := store.attempts;
      var r := store.AbortMultipart(id);
      OneMoreTry(tried, before, r);
      if !r.Succeeded? {
        return false;
      }
      todo := todo - {id};
    }
    ok := true;
  }

  // ----- the sink

  /** What a flush of `buffer` by a sink that believes in `manifest` puts. */
  function Next(sha: Digest, manifest: Manifest, buffer: Bytes, records: nat): Manifest {
    manifest.(segments := manifest.segments +
      [SegmentRef(SegmentKey(|manifest.segments|), sha(buffer), records)])
  }

  /** The last call ended for good: it failed permanently, or was the last of so many transient failures in a row. */
  ghost predicate GaveUp(tries: seq<Attempt>, limit: nat) {
    tries != [] && (tries[|tries| - 1].Permanent? ||
      (|tries| >= limit && forall i :: |tries| - limit <= i < |tries| ==> tries[i].Transient?))
  }

  /** The calls made since `earlier` went on exactly until one ended for good. */
  ghost predicate Persistent(earlier: seq<Attempt>, later: seq<Attempt>, limit: nat, failed: bool) {
    && earlier <= later
    && (failed <==> GaveUp(later[|earlier|..], limit))
    && forall k :: |earlier| <= k < |later| ==> !GaveUp(later[|earlier|..k], limit)
  }

  ghost predicate Going(earlier: seq<Attempt>, later: seq<Attempt>, limit: nat) {
    Persistent(earlier, later, limit, false) && (later == earlier || later[|later| - 1].Succeeded?)
  }

  /** One operation retried: transient failures, then its last try. */
  ghost predicate Retried(earlier: seq<Attempt>, later: seq<Attempt>, limit: nat, ok: bool) {
    && earlier < later && |later| - |earlier| <= limit
    && (forall i :: |earlier| <= i < |later| - 1 ==> later[i].Transient?)
    && var last := later[|later| - 1];
       (ok <==> last.Succeeded?) && (last.Transient? ==> |later| - |earlier| == limit)
  }

  /** Tries of one operation so far, all of them transient failures. */
  ghost predicate Retrying(earlier: seq<Attempt>, later: seq<Attempt>, tries: nat) {
    earlier <= later && |later| == |earlier| + tries && forall i :: |earlier| <= i < |later| ==> later[i].Transient?
  }

  lemma NoTryYet(tried: seq<Attempt>)
    ensures Retrying(tried, tried, 0)
  {
  }

  lemma OneTry(earlier: seq<Attempt>, tried: seq<Attempt>, r: Attempt, tries: nat, limit: nat)
    requires Retrying(earlier, tried, tries) && tries < limit
    ensures r.Succeeded? ==> Retried(earlier, tried + [r], limit, true)
    ensures r.Permanent? || (r.Transient? && tries + 1 == limit) ==> Retried(earlier, tried + [r], limit, false)
    ensures r.Transient? ==> Retrying(earlier, tried + [r], tries + 1)
  {
  }

  /** The next operation does not give up before its last try. */
  lemma NotYet(earlier: seq<Attempt>, middle: seq<Attempt>, later: seq<Attempt>, limit: nat, ok: bool, k: nat)
    requires limit > 0 && earlier <= middle && Retried(middle, later, limit, ok) && |middle| < k < |later|
    requires middle == earlier || middle[|middle| - 1].Succeeded?
    ensures !GaveUp(later[|earlier|..k], limit)
  {
    var n, m, tries := |earlier|, |middle|, later[|earlier|..k];
    assert m > n ==> tries[m - n - 1] == middle[m - 1];
    assert tries[|tries| - 1] == later[k - 1];
  }

  /** Its last try decides. */
  lemma LastTry(earlier: seq<Attempt>, middle: seq<Attempt>, later: seq<Attempt>, limit: nat, ok: bool)
    requires limit > 0 && earlier <= middle && Retried(middle, later, limit, ok)
    ensures earlier <= later && (GaveUp(later[|earlier|..], limit) <==> !ok)
  {
    var all := later[|earlier|..];
    assert all[|all| - 1] == later[|later| - 1];
    assert forall i :: |middle| <= i < |later| ==> all[i - |earlier|] == later[i];
  }

  lemma GoesOn(earlier: seq<Attempt>, middle: seq<Attempt>, later: seq<Attempt>, limit: nat, ok: bool)
    requires limit > 0 && Going(earlier, middle, limit) && Retried(middle, later, limit, ok)
    ensures Persistent(earlier, later, limit, !ok) && (ok ==> Going(earlier, later, limit))
  {
    hide GaveUp;
    LastTry(earlier, middle, later, limit, ok);
    forall k | |earlier| <= k < |later| ensures !GaveUp(later[|earlier|..k], limit) {
      if k > |middle| {
        NotYet(earlier, middle, later, limit, ok, k);
      } else {
        assert later[|earlier|..k] == middle[|earlier|..k];
        assert k == |middle| ==> middle[|earlier|..k] == middle[|earlier|..];
      }
    }
  }

  lemma GoingIsPersistent(earlier: seq<Attempt>, later: seq<Attempt>, limit: nat)
    requires Going(earlier, later, limit)
    ensures Persistent(earlier, later, limit, false)
  {
  }

  lemma NothingTried(earlier: seq<Attempt>, limit: nat)
    ensures Going(earlier, earlier, limit) && Persistent(earlier, earlier, limit, false)
  {
  }

  datatype Outcome = Committed | StoreFailed | TooManyParts

  class DurableRawSink {
    const store: ObjectStore
    const recordsPerSegment: nat
    const partSize: nat
    const maxAttempts: nat
    var manifest: Manifest
    var buffer: Bytes
    var bufferedRecords: nat
    ghost const base: Bytes
    ghost const baseRecords: nat
    ghost const start: nat
    /** The records this session was given. */
    ghost var appended: seq<Bytes>

    /**
     * The manifest in memory is the durable one, and what this session appended is what it made
     * durable followed by what it still buffers.
     */
    ghost predicate Valid()
      reads this, store
    {
      store.Valid() && recordsPerSegment > 0 && partSize > 0 && maxAttempts > 0 &&
      Sound(store.sha, store.state) && manifest == ManifestOf(store.state) &&
      Holding(Durable(store.state), base, appended, bufferedRecords, buffer) &&
      RecordCount(manifest.segments) == baseRecords + |appended| - bufferedRecords &&
      0 < start <= |store.trace| && Evolves(store.sha, store.trace[start - 1..], base, appended)
    }

    constructor (
      store: ObjectStore, manifest: Manifest, recordsPerSegment: nat, partSize: nat, maxAttempts: nat,
      ghost start: nat)
      requires store.Valid() && manifest == ManifestOf(store.state) && 0 < start <= |store.trace|
      requires recordsPerSegment > 0 && partSize > 0 && maxAttempts > 0
      ensures Evolves(store.sha, store.trace[start - 1..], Durable(store.state), []) ==> Valid()
      ensures this.store == store && base == Durable(store.state) && appended == [] && buffer == []
      ensures bufferedRecords == 0 && this.recordsPerSegment == recordsPerSegment && this.start == start
      ensures baseRecords == RecordCount(ManifestOf(store.state).segments)
    {
      this.store, this.manifest, this.recordsPerSegment := store, manifest, recordsPerSegment;
      this.partSize, this.maxAttempts := partSize, maxAttempts;
      buffer, bufferedRecords, base, appended := [], 0, Durable(store.state), [];
      this.start, baseRecords := start, RecordCount(manifest.segments);
      assert Durable(store.state) == Durable(store.state) + [];
      ghost var states := store.trace[start - 1..];
      assert states[|states| - 1] == store.state;
    }

    /** Every record given is durable, except at most the last `n`. */
    ghost predicate AllDurableBut(n: int)
      reads this, store
    {
      exists k: nat :: |appended| - k <= n && Reaches(Durable(store.state), base, appended, k)
    }

    method AppendRecord(record: Bytes) returns (r: Outcome)
      requires Valid()
      modifies this, store
      ensures Valid() && appended == old(appended) + [record]
      ensures old(store.trace) <= store.trace
      ensures r.Committed? ==> bufferedRecords < recordsPerSegment || buffer == []
      ensures old(bufferedRecords) + 1 < recordsPerSegment ==>
        r.Committed? && store.trace == old(store.trace) && store.attempts == old(store.attempts)
      ensures old(bufferedRecords) + 1 >= recordsPerSegment ==>
        && Persistent(old(store.attempts), store.attempts, maxAttempts, r.StoreFailed?)
        && (r.TooManyParts? <==> !r.StoreFailed? && |old(buffer) + record| > MAX_PARTS * partSize)
      ensures r.Committed? && (forall i :: 0 <= i < |appended| ==> appended[i] != []) ==>
        AllDurableBut(recordsPerSegment - 1)
    {
      hide Evolves, Sound, Durable, Joined, RecordCount;
      r := Committed;
      AppendingEvolves(store.sha, store.trace[start - 1..], base, appended, record);
      HoldOneMore(Durable(store.state), base, appended, bufferedRecords, buffer, record);
      buffer := buffer + record;
      appended := appended + [record];
      bufferedRecords := bufferedRecords + 1;
      if bufferedRecords >= recordsPerSegment {
        r := FlushSegment();
      }
      if buffer == [] && forall i :: 0 <= i < |appended| ==> appended[i] != [] {
        EmptyBufferHoldsNothing(Durable(store.state), base, appended, bufferedRecords);
      }
    }

    /** Uploads the buffer as the next segment and commits it; a failure leaves it buffered. */
    method FlushSegment() returns (r: Outcome)
      requires Valid()
      modifies this, store
      ensures Valid() && appended == old(appended)
      ensures old(store.trace) <= store.trace
      ensures r.Committed? ==> buffer == [] && bufferedRecords == (if old(buffer) == [] then old(bufferedRecords) else 0)
      ensures !r.Committed? ==> buffer == old(buffer) && bufferedRecords == old(bufferedRecords)
      ensures Durable(store.state) == old(Durable(store.state)) + if r.Committed? then old(buffer) else []
      ensures Persistent(old(store.attempts), store.attempts, maxAttempts, r.StoreFailed?)
      ensures r.TooManyParts? <==> !r.StoreFailed? && |old(buffer)| > MAX_PARTS * partSize
    {
      hide Evolves, Sound, Durable, Assembled, SegmentKey, Holding, RecordCount, Persistent, Going, Retried;
      ghost var tried := store.attempts;
      NothingTried(tried, maxAttempts);
      assert Durable(store.state) == Durable(store.state) + [];
      if buffer == [] {
        return Committed;
      }
      var key := SegmentKey(|manifest.segments|);
      var made, id := CreateWithRetry(key);
      GoesOn(tried, tried, store.attempts, maxAttempts, made);
      if !made {
        return StoreFailed;
      }
      var sent, ids := UploadParts(id, tried);
      if !sent.Committed? {
        if sent.TooManyParts? {
          GoingIsPersistent(tried, store.attempts, maxAttempts);
        }
        return sent;
      }
      ghost var uploaded := store.attempts;
      var completed := CompleteWithRetry(key, id, ids);
      GoesOn(tried, uploaded, store.attempts, maxAttempts, completed);
      if !completed {
        return StoreFailed;
      }
      ghost var finished := store.attempts;
      var put := PutWithRetry(Next(store.sha, manifest, buffer, bufferedRecords));
      GoesOn(tried, finished, store.attempts, maxAttempts, put);
      if !put {
        return StoreFailed;
      }
      r := Committed;
    }

    /** Sends the buffer in parts of at most `partSize` bytes, numbered from one. */
    method UploadParts(id: nat, ghost tried: seq<Attempt>) returns (r: Outcome, ids: seq<PartId>)
      requires Valid() && id in store.state.uploads && Going(tried, store.attempts, maxAttempts)
      modifies store
      ensures Valid() && old(store.trace) <= store.trace && Durable(store.state) == old(Durable(store.state))
      ensures r.Committed? ==>
        id in store.state.uploads && Assembled(store.state.uploads[id].parts, ids) == buffer
      ensures if r.StoreFailed? then Persistent(tried, store.attempts, maxAttempts, true)
              else Going(tried, store.attempts, maxAttempts)
      ensures !r.StoreFailed? ==> (r.TooManyParts? <==> |buffer| > MAX_PARTS * partSize)
    {
      hide Evolves, Sound, Durable, Assembled, Holding, RecordCount, Persistent, Going, Retried;
      ids := [];
      NothingAssembled(store.state.uploads[id].parts);
      var sent := 0;
      while sent < |buffer|
        invariant Valid() && old(store.trace) <= store.trace && Durable(store.state) == old(Durable(store.state))
        invariant 0 <= sent <= |buffer| && id in store.state.uploads
        invariant Numbered1(ids) && PartsMatch(store.sha, store.state.uploads[id].parts, ids)
        invariant Assembled(store.state.uploads[id].parts, ids) == buffer[..sent]
        invariant Going(tried, store.attempts, maxAttempts)
        invariant |ids| <= MAX_PARTS && sent <= |ids| * partSize && (sent < |buffer| ==> sent == |ids| * partSize)
      {
        var end := if sent + partSize < |buffer| then sent + partSize else |buffer|;
        var chunk := buffer[sent..end];
        if |ids| + 1 > MAX_PARTS {
          return TooManyParts, ids;
        }
        PartsGrow(|ids|, partSize);
        ghost var before := store.attempts;
        var part := PartId(|ids| + 1, store.sha(chunk));
        var ok := UploadWithRetry(id, |ids| + 1, chunk, ids);
        GoesOn(tried, before, store.attempts, maxAttempts, ok);
        if !ok {
          return StoreFailed, ids;
        }
        AssembledGrows(store.state.uploads[id].parts, ids, part);
        assert buffer[..sent] + chunk == buffer[..end];
        ids := ids + [part];
        sent := end;
      }
      assert buffer[..sent] == buffer;
      PartsBound(|ids|, partSize);
      r := Committed;
    }

    method CreateWithRetry(key: string) returns (ok: bool, id: nat)
      requires Valid() && key == SegmentKey(|manifest.segments|)
      modifies store
      ensures Valid() && old(store.trace) <= store.trace && Durable(store.state) == old(Durable(store.state))
      ensures ok ==> id in store.state.uploads && store.state.uploads[id] == Upload(key, map[])      ensures Retried(old(store.attempts), store.attempts, maxAttempts, ok)
    {
      hide Evolves, Sound, Holding, RecordCount, Durable, Keeps, SegmentKey, Retrying, Retried;
      NoTryYet(store.attempts);
      var attempt := 1;
      while true
        invariant Valid() && 1 <= attempt <= maxAttempts && old(store.trace) <= store.trace
        invariant Durable(store.state) == old(Durable(store.state))
        invariant Retrying(old(store.attempts), store.attempts, attempt - 1)
        decreases maxAttempts - attempt
      {
        ghost var before, trace := store.state, store.trace;
        var r;
        ghost var tried := store.attempts;
        r, id := store.CreateMultipart(key);
        OneTry(old(store.attempts), tried, r, attempt - 1, maxAttempts);
        UncommittedIsSafe(store.sha, before, store.state);
        HoldingIsBoundary(Durable(before), base, appended, bufferedRecords, buffer);
        TraceGrows(store.sha, trace, store.trace, start, before, store.state, base, appended);
        if r.Succeeded? {
          return true, id;
        }
        if r.Permanent? || attempt >= maxAttempts {
          return false, 0;
        }
        attempt := attempt + 1;
      }
    }

    method UploadWithRetry(id: nat, number: nat, chunk: Bytes, ghost ids: seq<PartId>) returns (ok: bool)
      requires Valid() && id in store.state.uploads && Numbered1(ids) && number == |ids| + 1
      requires PartsMatch(store.sha, store.state.uploads[id].parts, ids)
      modifies store
      ensures Valid() && old(store.trace) <= store.trace && Durable(store.state) == old(Durable(store.state))
      ensures id in store.state.uploads && PartsMatch(store.sha, store.state.uploads[id].parts, ids)
      ensures Assembled(store.state.uploads[id].parts, ids) == Assembled(old(store.state).uploads[id].parts, ids)
      ensures ok ==> number in store.state.uploads[id].parts && store.state.uploads[id].parts[number] == chunk      ensures Retried(old(store.attempts), store.attempts, maxAttempts, ok)
    {
      hide Evolves, Sound, Holding, RecordCount, Durable, Keeps, Assembled, Retrying, Retried;
      NoTryYet(store.attempts);
      var attempt := 1;
      while true
        invariant Valid() && 1 <= attempt <= maxAttempts && old(store.trace) <= store.trace
        invariant Durable(store.state) == old(Durable(store.state)) && id in store.state.uploads
        invariant PartsMatch(store.sha, store.state.uploads[id].parts, ids)
        invariant Assembled(store.state.uploads[id].parts, ids) == Assembled(old(store.state).uploads[id].parts, ids)
        invariant Retrying(old(store.attempts), store.attempts, attempt - 1)
        decreases maxAttempts - attempt
      {
        ghost var before, trace := store.state, store.trace;
        ghost var tried := store.attempts;
        var r := store.UploadPart(id, number, chunk);
        OneTry(old(store.attempts), tried, r, attempt - 1, maxAttempts);
        UncommittedIsSafe(store.sha, before, store.state);
        HoldingIsBoundary(Durable(before), base, appended, bufferedRecords, buffer);
        TraceGrows(store.sha, trace, store.trace, start, before, store.state, base, appended);
        AssembledFrame(before.uploads[id].parts, store.state.uploads[id].parts, ids, number);
        if r.Succeeded? {
          return true;
        }
        if r.Permanent? || attempt >= maxAttempts {
          return false;
        }
        attempt := attempt + 1;
      }
    }

    method CompleteWithRetry(key: string, id: nat, ids: seq<PartId>) returns (ok: bool)
      requires Valid() && id in store.state.uploads && key == SegmentKey(|manifest.segments|)
      modifies store
      ensures Valid() && old(store.trace) <= store.trace && Durable(store.state) == old(Durable(store.state))
      ensures ok ==>
        key in store.state.objects && store.state.objects[key] == Assembled(old(store.state).uploads[id].parts, ids)      ensures Retried(old(store.attempts), store.attempts, maxAttempts, ok)
    {
      hide Evolves, Sound, Holding, RecordCount, Durable, Keeps, Assembled, PartsMatch, SegmentKey, Retrying, Retried;
      NoTryYet(store.attempts);
      var attempt := 1;
      while true
        invariant Valid() && 1 <= attempt <= maxAttempts && old(store.trace) <= store.trace
        invariant Durable(store.state) == old(Durable(store.state))
        invariant id in store.state.uploads && store.state.uploads[id] == old(store.state).uploads[id]
        invariant Retrying(old(store.attempts), store.attempts, attempt - 1)
        decreases maxAttempts - attempt
      {
        ghost var before, trace := store.state, store.trace;
        ghost var tried := store.attempts;
        var r := store.CompleteMultipart(key, id, ids);
        OneTry(old(store.attempts), tried, r, attempt - 1, maxAttempts);
        UncommittedIsSafe(store.sha, before, store.state);
        HoldingIsBoundary(Durable(before), base, appended, bufferedRecords, buffer);
        TraceGrows(store.sha, trace, store.trace, start, before, store.state, base, appended);
        if r.Succeeded? {
          return true;
        }
        if r.Permanent? || attempt >= maxAttempts {
          return false;
        }
        attempt := attempt + 1;
      }
    }

    /** The commit: once the put succeeds the buffer is durable, and until then nothing changed. */
    method PutWithRetry(next: Manifest) returns (ok: bool)
      requires Valid() && buffer != []
      requires var key := SegmentKey(|manifest.segments|);
        key in store.state.objects && store.state.objects[key] == buffer &&
        next == Next(store.sha, manifest, buffer, bufferedRecords)
      modifies this, store
      ensures Valid() && old(store.trace) <= store.trace && appended == old(appended)
      ensures ok ==> buffer == [] && bufferedRecords == 0
      ensures !ok ==> buffer == old(buffer) && bufferedRecords == old(bufferedRecords)
      ensures Durable(store.state) == old(Durable(store.state)) + if ok then old(buffer) else []      ensures Retried(old(store.attempts), store.attempts, maxAttempts, ok)
    {
      hide Evolves, Sound, Durable, Keeps, SegmentKey, Holding, RecordCount, Retrying, Retried;
      NoTryYet(store.attempts);
      var attempt := 1;
      while true
        invariant Valid() && 1 <= attempt <= maxAttempts && old(store.trace) <= store.trace
        invariant store.state == old(store.state) && buffer == old(buffer) && manifest == old(manifest)
        invariant bufferedRecords == old(bufferedRecords) && appended == old(appended)
        invariant Retrying(old(store.attempts), store.attempts, attempt - 1)
        decreases maxAttempts - attempt
      {
        ghost var before, trace := store.state, store.trace;
        ghost var tried := store.attempts;
        var r := store.PutManifest(next);
        OneTry(old(store.attempts), tried, r, attempt - 1, maxAttempts);
        if r.Succeeded? {
          CommitIsSafe(store.sha, before, store.state, buffer, bufferedRecords);
          ReleaseBuffer(Durable(before), base, appended, bufferedRecords, buffer);
          HoldingIsBoundary(Durable(store.state), base, appended, 0, []);
          OneMoreSegment(manifest.segments, SegmentRef(SegmentKey(|manifest.segments|), store.sha(buffer), bufferedRecords));
          TraceGrows(store.sha, trace, store.trace, start, before, store.state, base, appended);
          manifest := next;
          buffer := [];
          bufferedRecords := 0;
          return true;
        }
        UncommittedIsSafe(store.sha, before, store.state);
        HoldingIsBoundary(Durable(before), base, appended, bufferedRecords, buffer);
        TraceGrows(store.sha, trace, store.trace, start, before, store.state, base, appended);
        if r.Permanent? || attempt >= maxAttempts {
          return false;
        }
        attempt := attempt + 1;
      }
    }
  }

  lemma PartsGrow(n: nat, size: nat)
    ensures (n + 1) * size == n * size + size
  {
  }

  lemma PartsBound(n: nat, size: nat)
    requires n <= MAX_PARTS
    ensures n * size <= MAX_PARTS * size
  {
  }

  lemma OneMoreSegment(segments: seq<SegmentRef>, segment: SegmentRef)
    ensures RecordCount(segments + [segment]) == RecordCount(segments) + segment.records
  {
    assert (segments + [segment])[..|segments|] == segments;
  }

  ghost predicate Numbered1(ids: seq<PartId>) {
    forall i :: 0 <= i < |ids| ==> ids[i].number == i + 1
  }

  lemma NothingAssembled(parts: map<nat, Bytes>)
    ensures Assembled(parts, []) == []
  {
  }

  lemma AssembledGrows(parts: map<nat, Bytes>, ids: seq<PartId>, part: PartId)
    requires part.number in parts
    ensures Assembled(parts, ids + [part]) == Assembled(parts, ids) + parts[part.number]
  {
    assert (ids + [part])[..|ids|] == ids;
  }

  lemma {:induction false} AssembledFrame(a: map<nat, Bytes>, b: map<nat, Bytes>, ids: seq<PartId>, number: nat)
    requires forall n :: n != number && n in a ==> n in b && b[n] == a[n]
    requires forall i :: 0 <= i < |ids| ==> ids[i].number in a && ids[i].number != number
    ensures Assembled(a, ids) == Assembled(b, ids)
    decreases |ids|
  {
    if ids != [] {
      AssembledFrame(a, b, ids[..|ids| - 1], number);
    }
  }

  // ----- what a crash at any point finds

  /**
   * The states of one session, in order: every one is sound, each step keeps everything committed,
   * and the durable bytes are always those found at the start followed by a prefix of what the
   * session appended.
   */
  ghost predicate Evolves(sha: Digest, states: seq<Store>, base: Bytes, appended: seq<Bytes>) {
    states != [] && Durable(states[0]) == base &&
    (forall i :: 0 <= i < |states| ==> Sound(sha, states[i]) && AtBoundary(Durable(states[i]), base, appended)) &&
    (forall i :: 0 < i < |states| ==> Keeps(states[i - 1], states[i]))
  }

  lemma AppendingEvolves(sha: Digest, states: seq<Store>, base: Bytes, appended: seq<Bytes>, record: Bytes)
    requires Evolves(sha, states, base, appended)
    ensures Evolves(sha, states, base, appended + [record])
  {
    hide Durable, Sound, Keeps, AtBoundary;
    forall i | 0 <= i < |states| ensures AtBoundary(Durable(states[i]), base, appended + [record]) {
      BoundaryStays(Durable(states[i]), base, appended, record);
    }
  }

  lemma BoundaryStays(durable: Bytes, base: Bytes, appended: seq<Bytes>, record: Bytes)
    requires AtBoundary(durable, base, appended)
    ensures AtBoundary(durable, base, appended + [record])
  {
    hide Joined;
    var k: nat :| Reaches(durable, base, appended, k);
    assert (appended + [record])[..k] == appended[..k];
    assert Reaches(durable, base, appended + [record], k);
  }

  lemma TraceGrows(
    sha: Digest, earlier: seq<Store>, later: seq<Store>, start: nat, before: Store, after: Store, base: Bytes,
    appended: seq<Bytes>)
    requires 0 < start <= |earlier| && later == earlier + [after] && earlier[|earlier| - 1] == before
    requires Evolves(sha, earlier[start - 1..], base, appended)
    requires Sound(sha, after) && Keeps(before, after) && AtBoundary(Durable(after), base, appended)
    ensures Evolves(sha, later[start - 1..], base, appended)
  {
    hide Sound, Durable, Keeps, AtBoundary;
    var states := earlier[start - 1..];
    assert later[start - 1..] == states + [after];
    assert states[|states| - 1] == before;
  }

  // ----- opening a store

  /**
   * Opening any store: what recovery cannot accept is reported, and a store that this sink wrote, crashed or
   * not, is never corrupt; its session starts from exactly the durable bytes.
   */
  method Open(store: ObjectStore, recordsPerSegment: nat, partSize: nat, maxAttempts: nat)
    returns (r: Recovery, sink: DurableRawSink?)
    requires store.Valid() && recordsPerSegment > 0 && partSize > 0 && maxAttempts > 0
    modifies store
    ensures store.Valid() && old(store.trace) <= store.trace && (r.Recovered? <==> sink != null)
    ensures r.Corrupt? ==> !Readable(store.sha, old(store.state))
    ensures r.Recovered? ==> Readable(store.sha, old(store.state))
    ensures old(store.attempts) <= store.attempts
    ensures r.Unavailable? <==> !NoneFailed(store.attempts[|old(store.attempts)|..])
    ensures store.state.objects == old(store.state).objects && store.state.manifest == old(store.state).manifest
    ensures Sound(store.sha, old(store.state)) ==>
      !r.Corrupt? &&
      Evolves(store.sha, store.trace[|old(store.trace)| - 1..], Durable(old(store.state)), [])
    ensures sink != null ==>
      && fresh(sink) && sink.store == store && sink.recordsPerSegment == recordsPerSegment
      && sink.base == Durable(old(store.state)) && sink.appended == [] && sink.start == |old(store.trace)|
      && (Sound(store.sha, old(store.state)) ==> sink.Valid())
  {
    hide Durable, Evolves, Readable, OnlyAborts, UploadsNumbered;
    ghost var before, earlier := store.state, store.trace;
    r := Recover(store);
    OnlyAbortsExtends(earlier, store.trace);
    if Sound(store.sha, before) {
      AbortsEvolve(store.sha, earlier, store.trace, before);
      AbortsKeepDurable(store.sha, before, store.state);
    }
    SameContents(before, store.state);
    sink := null;
    if r.Recovered? {
      sink := new DurableRawSink(store, r.manifest, recordsPerSegment, partSize, maxAttempts, |earlier|);
    }
  }

  lemma OnlyAbortsExtends(earlier: seq<Store>, later: seq<Store>)
    requires OnlyAborts(earlier, later)
    ensures earlier <= later
  {
  }

  lemma AbortsKeepDurable(sha: Digest, before: Store, after: Store)
    requires Sound(sha, before) && after.objects == before.objects && after.manifest == before.manifest
    ensures Sound(sha, after) && Keeps(before, after) && Durable(after) == Durable(before)
  {
    UncommittedIsSafe(sha, before, after);
  }

  lemma {:induction false} SameObjects(a: Store, b: Store, segments: seq<SegmentRef>)
    requires a.objects == b.objects
    ensures Contents(a, segments) == Contents(b, segments)
    decreases |segments|
  {
    if segments != [] {
      SameObjects(a, b, segments[..|segments| - 1]);
    }
  }

  lemma SameContents(before: Store, after: Store)
    requires after.objects == before.objects && after.manifest == before.manifest
    ensures Durable(after) == Durable(before)
  {
    SameObjects(before, after, ManifestOf(before).segments);
  }

  lemma NothingGiven(durable: Bytes)
    ensures AtBoundary(durable, durable, [])
  {
    assert durable == durable + [];
    assert Reaches(durable, durable, [], 0);
  }

  /** Recovery is the first part of a session. */
  lemma {:induction false} AbortsEvolve(sha: Digest, earlier: seq<Store>, later: seq<Store>, before: Store)
    requires OnlyAborts(earlier, later) && earlier != [] && earlier[|earlier| - 1] == before && Sound(sha, before)
    ensures Evolves(sha, later[|earlier| - 1..], Durable(before), [])
    decreases |later|
  {
    hide Sound, Durable, Keeps, AtBoundary;
    var n := |earlier| - 1;
    NothingGiven(Durable(before));
    if |later| == |earlier| {
      assert later[n..] == [before];
    } else {
      var shorter := later[..|later| - 1];
      assert OnlyAborts(earlier, shorter);
      AbortsEvolve(sha, earlier, shorter, before);
      var states := shorter[n..];
      assert later[n..] == states + [later[|later| - 1]];
      var last := states[|states| - 1];
      assert last == later[|later| - 2];
      AbortsStayPut(earlier, later, |later| - 2);
      AbortsStayPut(earlier, later, |later| - 1);
      AbortsKeepDurable(sha, before, last);
      AbortsKeepDurable(sha, last, later[|later| - 1]);
    }
  }

  lemma {:induction false} AbortsStayPut(earlier: seq<Store>, later: seq<Store>, i: nat)
    requires OnlyAborts(earlier, later) && earlier != [] && |earlier| - 1 <= i < |later|
    ensures later[i].objects == earlier[|earlier| - 1].objects && later[i].manifest == earlier[|earlier| - 1].manifest
    decreases i
  {
    if i >= |earlier| {
      AbortsStayPut(earlier, later, i - 1);
    }
  }

  // ----- many sessions, each ended by a crash

  /** One process: the states its operations left behind, up to the crash, and the records it was given. */
  datatype Session = Session(states: seq<Store>, base: Bytes, appended: seq<Bytes>)

  /** Each session finds the store that the crash of the one before left. */
  ghost predicate IsHistory(sha: Digest, initial: Store, sessions: seq<Session>) {
    (forall i :: 0 <= i < |sessions| ==>
      Evolves(sha, sessions[i].states, sessions[i].base, sessions[i].appended)) &&
    (forall i :: 0 <= i < |sessions| ==> sessions[i].states[0] == Found(initial, sessions, i))
  }

  /** The store that the `i`-th session finds. */
  ghost function Found(initial: Store, sessions: seq<Session>, i: nat): Store
    requires i <= |sessions|
  {
    if i == 0 || sessions[i - 1].states == [] then initial else CrashOf(sessions[i - 1])
  }

  /** The last state a session left behind. */
  function CrashOf(s: Session): Store
    requires s.states != []
  {
    s.states[|s.states| - 1]
  }

  /** A run of the sink cut after any store operation is a session, and what it leaves can be opened again. */
  lemma CutIsSession(sink: DurableRawSink, n: nat)
    requires sink.Valid() && 0 < sink.start <= n <= |sink.store.trace|
    ensures Evolves(sink.store.sha, sink.store.trace[sink.start - 1..n], sink.base, sink.appended)
    ensures Sound(sink.store.sha, sink.store.trace[n - 1]) && UploadsNumbered(sink.store.trace[n - 1])
  {
    hide Evolves, Sound, UploadsNumbered, Durable, Holding, RecordCount;
    var all, k := sink.store.trace[sink.start - 1..], n - sink.start + 1;
    CutEvolves(sink.store.sha, all, sink.base, sink.appended, k);
    assert all[..k] == sink.store.trace[sink.start - 1..n] && all[k - 1] == sink.store.trace[n - 1];
  }

  lemma CutEvolves(sha: Digest, states: seq<Store>, base: Bytes, appended: seq<Bytes>, n: nat)
    requires Evolves(sha, states, base, appended) && 0 < n <= |states|
    ensures Evolves(sha, states[..n], base, appended) && Sound(sha, states[n - 1])
  {
    hide Sound, Durable, Keeps, AtBoundary;
  }

  /**
   * One process over a store: recovery, then appends until they are used up or the process stops, then a
   * crash after some store operation, possibly long before the last.
   */
  method RunSession(
    sha: Digest, found: Store, records: seq<Bytes>, recordsPerSegment: nat, partSize: nat, maxAttempts: nat)
    returns (crash: Store, ghost session: Session)
    requires Sound(sha, found) && UploadsNumbered(found)
    requires recordsPerSegment > 0 && partSize > 0 && maxAttempts > 0
    ensures Evolves(sha, session.states, session.base, session.appended) && session.appended <= records
    ensures session.states[0] == found && CrashOf(session) == crash
    ensures Sound(sha, crash) && UploadsNumbered(crash)
  {
    hide Evolves, Sound, Durable, Readable, UploadsNumbered, Holding, RecordCount;
    var store := new ObjectStore(sha, found);
    var r, sink := Open(store, recordsPerSegment, partSize, maxAttempts);
    ghost var base, appended: seq<Bytes> := Durable(found), [];
    if sink != null {
      var i := 0;
      var stop := store.Coin();
      while i < |records| && !stop
        invariant 0 <= i <= |records| && sink.Valid() && sink.store == store && sink.start == 1
        invariant sink.appended == records[..i] && sink.base == base && sink.appended <= records
        invariant store.trace[0] == found && store.sha == sha && fresh(store) && fresh(sink)
      {
        var outcome := sink.AppendRecord(records[i]);
        assert records[..i + 1] == records[..i] + [records[i]];
        i := i + 1;
        stop := store.Coin();
      }
      appended := sink.appended;
    }
    assert store.trace[0..] == store.trace;
    var cut := store.CrashPoint();
    ghost var states := store.trace[..cut];
    CutEvolves(sha, store.trace, base, appended, cut);
    assert UploadsNumbered(store.trace[cut - 1]);
    crash := store.trace[cut - 1];
    session := Session(states, base, appended);
  }

  /** Any number of processes over one store, each crashing somewhere. */
  method RunSessions(
    sha: Digest, initial: Store, scripts: seq<seq<Bytes>>, recordsPerSegment: nat, partSize: nat, maxAttempts: nat)
    returns (crash: Store, ghost sessions: seq<Session>)
    requires Sound(sha, initial) && UploadsNumbered(initial)
    requires recordsPerSegment > 0 && partSize > 0 && maxAttempts > 0
    ensures IsHistory(sha, initial, sessions) && |sessions| == |scripts|
    ensures forall i :: 0 <= i < |scripts| ==> sessions[i].appended <= scripts[i]
    ensures crash == Found(initial, sessions, |sessions|) && Sound(sha, crash)
  {
    hide Sound, Durable, UploadsNumbered, Evolves, IsHistory, Found;
    crash, sessions := initial, [];
    NoSessions(sha, initial);
    for i := 0 to |scripts|
      invariant |sessions| == i && IsHistory(sha, initial, sessions)
      invariant forall j :: 0 <= j < i ==> sessions[j].appended <= scripts[j]
      invariant crash == Found(initial, sessions, |sessions|) && Sound(sha, crash) && UploadsNumbered(crash)
    {
      ghost var session;
      crash, session := RunSession(sha, crash, scripts[i], recordsPerSegment, partSize, maxAttempts);
      OneMoreSession(sha, initial, sessions, session);
      sessions := sessions + [session];
    }
  }

  lemma NoSessions(sha: Digest, initial: Store)
    ensures IsHistory(sha, initial, []) && Found(initial, [], 0) == initial
  {
  }

  lemma OneMoreSession(sha: Digest, initial: Store, sessions: seq<Session>, session: Session)
    requires IsHistory(sha, initial, sessions) && Evolves(sha, session.states, session.base, session.appended)
    requires session.states[0] == Found(initial, sessions, |sessions|)
    ensures IsHistory(sha, initial, sessions + [session])
    ensures CrashOf(session) == Found(initial, sessions + [session], |sessions| + 1)
  {
    hide Evolves, Found;
    var all := sessions + [session];
    SessionNonempty(sha, session);
    SessionsNonempty(sha, initial, sessions);
    forall i | 0 <= i < |all| ensures Evolves(sha, all[i].states, all[i].base, all[i].appended) {
      assert i < |sessions| ==> all[i] == sessions[i];
    }
    forall i | 0 <= i < |all| ensures all[i].states[0] == Found(initial, all, i) {
      FoundBefore(initial, sessions, session, i);
      assert i < |sessions| ==> all[i] == sessions[i];
    }
    FoundAfter(initial, sessions, session);
  }

  lemma SessionNonempty(sha: Digest, s: Session)
    requires Evolves(sha, s.states, s.base, s.appended)
    ensures s.states != []
  {
    hide Sound, Durable, Keeps, AtBoundary;
  }

  lemma FoundBefore(initial: Store, sessions: seq<Session>, session: Session, i: nat)
    requires i <= |sessions|
    ensures Found(initial, sessions + [session], i) == Found(initial, sessions, i)
  {
    assert i > 0 ==> (sessions + [session])[i - 1] == sessions[i - 1];
  }

  lemma FoundAfter(initial: Store, sessions: seq<Session>, session: Session)
    requires session.states != []
    ensures Found(initial, sessions + [session], |sessions| + 1) == CrashOf(session)
  {
    assert (sessions + [session])[|sessions|] == session;
  }

  /** The first `counts[i]` records of every session, session by session. */
  ghost function Survivors(sessions: seq<Session>, counts: seq<nat>): seq<Bytes>
    requires |counts| <= |sessions| && forall i :: 0 <= i < |counts| ==> counts[i] <= |sessions[i].appended|
  {
    if counts == [] then []
    else
      var n := |counts| - 1;
      Survivors(sessions, counts[..n]) + sessions[n].appended[..counts[n]]
  }

  /**
   * After any number of crashes, at any points, the durable bytes are those found first followed, session by
   * session and in order, by a prefix of the records each session was given; and the store is readable.
   */
  lemma {:induction false} CrashesLoseOnlySuffixes(sha: Digest, initial: Store, sessions: seq<Session>, n: nat)
    returns (counts: seq<nat>)
    requires Sound(sha, initial) && IsHistory(sha, initial, sessions) && n <= |sessions|
    ensures |counts| == n && forall i :: 0 <= i < n ==> counts[i] <= |sessions[i].appended|
    ensures var crash := Found(initial, sessions, n);
      Sound(sha, crash) && Durable(crash) == Durable(initial) + Joined(Survivors(sessions, counts))
    decreases n
  {
    hide Durable, Sound, Keeps, Joined, Evolves, Survivors, IsHistory;
    if n == 0 {
      counts := [];
      NoSurvivors(sessions);
    } else {
      var earlier := CrashesLoseOnlySuffixes(sha, initial, sessions, n - 1);
      counts := OneMoreCrash(sha, initial, sessions, n, earlier);
    }
  }

  lemma OneMoreCrash(sha: Digest, initial: Store, sessions: seq<Session>, n: nat, earlier: seq<nat>)
    returns (counts: seq<nat>)
    requires IsHistory(sha, initial, sessions) && 0 < n <= |sessions| && |earlier| == n - 1
    requires forall i :: 0 <= i < n - 1 ==> earlier[i] <= |sessions[i].appended|
    requires Durable(Found(initial, sessions, n - 1)) == Durable(initial) + Joined(Survivors(sessions, earlier))
    ensures |counts| == n && forall i :: 0 <= i < n ==> counts[i] <= |sessions[i].appended|
    ensures var crash := Found(initial, sessions, n);
      Sound(sha, crash) && Durable(crash) == Durable(initial) + Joined(Survivors(sessions, counts))
  {
    hide Durable, Sound, Joined, Evolves, Survivors;
    SessionsNonempty(sha, initial, sessions);
    assert sessions[n - 1].states[0] == Found(initial, sessions, n - 1);
    var k := WhatSurvives(sha, sessions[n - 1]);
    counts := earlier + [k];
    SurvivorsGrow(sessions, earlier, k, Durable(initial));
  }

  lemma NoSurvivors(sessions: seq<Session>)
    ensures Joined(Survivors(sessions, [])) == []
  {
  }

  lemma SurvivorsGrow(sessions: seq<Session>, counts: seq<nat>, k: nat, base: Bytes)
    requires |counts| < |sessions| && k <= |sessions[|counts|].appended|
    requires forall i :: 0 <= i < |counts| ==> counts[i] <= |sessions[i].appended|
    ensures base + Joined(Survivors(sessions, counts + [k]))
         == base + Joined(Survivors(sessions, counts)) + Joined(sessions[|counts|].appended[..k])
  {
    hide Joined;
    var more := sessions[|counts|].appended[..k];
    assert (counts + [k])[..|counts|] == counts;
    JoinedConcat(Survivors(sessions, counts), more);
    assert base + (Joined(Survivors(sessions, counts)) + Joined(more)) == base + Joined(Survivors(sessions, counts)) + Joined(more);
  }

  /** How many records of a session its crash leaves. */
  lemma WhatSurvives(sha: Digest, s: Session) returns (k: nat)
    requires Evolves(sha, s.states, s.base, s.appended)
    ensures k <= |s.appended| && Durable(CrashOf(s)) == Durable(s.states[0]) + Joined(s.appended[..k])
    ensures Sound(sha, CrashOf(s))
  {
    hide Durable, Sound, Keeps, Joined;
    var n := |s.states| - 1;
    var durable := Durable(s.states[n]);
    assert Sound(sha, s.states[n]) && AtBoundary(durable, s.base, s.appended);
    var count: nat :| Reaches(durable, s.base, s.appended, count);
    k := count;
  }

  lemma KeepsSelf(sha: Digest, st: Store)
    requires Sound(sha, st)
    ensures Keeps(st, st)
  {
    hide Durable;
    forall k | 0 <= k < |ManifestOf(st).segments| ensures ManifestOf(st).segments[k].key in st.objects {
      assert Intact(sha, st, ManifestOf(st).segments[k]);
    }
  }

  lemma KeepsThrough(a: Store, b: Store, c: Store)
    requires Keeps(a, b) && Keeps(b, c)
    ensures Keeps(a, c)
  {
    hide Durable;
    var was, mid := ManifestOf(a).segments, ManifestOf(b).segments;
    forall i | 0 <= i < |was|
      ensures was[i].key in a.objects && was[i].key in c.objects && c.objects[was[i].key] == a.objects[was[i].key]
    {
      assert was[i] == mid[i];
    }
  }

  /** Within a session nothing committed is ever rewritten. */
  lemma {:induction false} SessionKeeps(sha: Digest, s: Session, i: nat, j: nat)
    requires Evolves(sha, s.states, s.base, s.appended) && i <= j < |s.states|
    ensures Keeps(s.states[i], s.states[j])
    decreases j
  {
    hide Durable, Sound, Keeps, AtBoundary;
    if i == j {
      KeepsSelf(sha, s.states[i]);
    } else {
      SessionKeeps(sha, s, i, j - 1);
      KeepsThrough(s.states[i], s.states[j - 1], s.states[j]);
    }
  }

  /** Nothing committed is ever rewritten, however many operations, crashes and sessions later one looks. */
  lemma {:induction false} CommittedForever(
    sha: Digest, initial: Store, sessions: seq<Session>, a: nat, i: nat, b: nat, j: nat)
    requires IsHistory(sha, initial, sessions) && a <= b < |sessions|
    requires i < |sessions[a].states| && j < |sessions[b].states| && (a == b ==> i <= j)
    ensures Keeps(sessions[a].states[i], sessions[b].states[j])
    decreases b - a
  {
    hide Durable, Sound, Keeps, Evolves, IsHistory;
    SessionEvolves(sha, initial, sessions, b);
    if a == b {
      SessionKeeps(sha, sessions[a], i, j);
    } else {
      var crash := |sessions[b - 1].states| - 1;
      CommittedForever(sha, initial, sessions, a, i, b - 1, crash);
      SessionKeeps(sha, sessions[b], 0, j);
      KeepsThrough(sessions[a].states[i], sessions[b].states[0], sessions[b].states[j]);
    }
  }

  lemma SessionEvolves(sha: Digest, initial: Store, sessions: seq<Session>, b: nat)
    requires IsHistory(sha, initial, sessions) && b < |sessions|
    ensures Evolves(sha, sessions[b].states, sessions[b].base, sessions[b].appended)
    ensures b > 0 ==>
      sessions[b - 1].states != [] && sessions[b].states != [] && sessions[b].states[0] == CrashOf(sessions[b - 1])
  {
    hide Durable, Sound, Keeps, Evolves;
    SessionsNonempty(sha, initial, sessions);
    assert sessions[b].states[0] == Found(initial, sessions, b);
  }

  lemma SessionsNonempty(sha: Digest, initial: Store, sessions: seq<Session>)
    requires IsHistory(sha, initial, sessions)
    ensures forall i :: 0 <= i < |sessions| ==> sessions[i].states != []
  {
    hide Evolves;
    forall i | 0 <= i < |sessions| ensures sessions[i].states != [] {
      SessionNonempty(sha, sessions[i]);
    }
  }

  // ----- why a failed put must change nothing

  /**
   * If a put took effect but was reported as failed, the sink would keep its old manifest and its buffer, and
   * its next flush, now with one record more, would complete under the key just committed. A crash before that
   * flush's own put is then found corrupt unless the two contents have one digest.
   */
  lemma UnnoticedPutCorrupts(sha: Digest, st: Store, buffer: Bytes, records: nat, record: Bytes)
    requires Sound(sha, st)
    ensures var manifest := ManifestOf(st);
      var key := SegmentKey(|manifest.segments|);
      var committed := Put(Completed(st, key, buffer), Next(sha, manifest, buffer, records));
      var second := Completed(committed, key, buffer + record);
      && Sound(sha, committed) && Durable(committed) == Durable(st) + buffer
      && (Readable(sha, second) <==> sha(buffer + record) == sha(buffer))
  {
    hide Durable;
    var manifest := ManifestOf(st);
    var n := |manifest.segments|;
    var key := SegmentKey(n);
    var stored := Completed(st, key, buffer);
    var committed := Put(stored, Next(sha, manifest, buffer, records));
    UncommittedIsSafe(sha, st, stored);
    CommitIsSafe(sha, stored, committed, buffer, records);
    var second := Completed(committed, key, buffer + record);
    var segments := ManifestOf(second).segments;
    assert Intact(sha, second, segments[n]) <==> sha(buffer + record) == sha(buffer);
    forall i | 0 <= i < n ensures Intact(sha, second, segments[i]) {
      SegmentKeysDistinct(i, n);
      assert Intact(sha, committed, segments[i]);
    }
  }
}
