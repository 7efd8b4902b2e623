/** Rolling rows into segment parts of bounded encoded size. */
module SegmentParts {
  import opened Trading
  import opened Sequences

  const USIZE_MAX: nat := 0xffff_ffff_ffff_ffff
  const NEWLINE: bv8 := 10

  /** How a row is written; some rows cannot be. */
  type Encoder<!Row> = Row -> Option<seq<bv8>>

  /** Bytes one row takes in a segment: its line and a newline. */
  function LineBytes<Row>(enc: Encoder<Row>, row: Row): nat {
    match enc(row)
    case None => 0
    case Some(line) => |line| + 1
  }

  function Bytes<Row>(enc: Encoder<Row>, rows: seq<Row>): nat {
    if rows == [] then 0 else Bytes(enc, rows[..|rows| - 1]) + LineBytes(enc, rows[|rows| - 1])
  }

  predicate Fits<Row>(enc: Encoder<Row>, row: Row, limit: nat) {
    enc(row).Some? && LineBytes(enc, row) <= limit
  }

  predicate AllFit<Row>(enc: Encoder<Row>, rows: seq<Row>, limit: nat) {
    forall i :: 0 <= i < |rows| ==> Fits(enc, rows[i], limit)
  }

  /** Newline-terminated rows, one after the other. */
  function Encode<Row>(enc: Encoder<Row>, rows: seq<Row>): Option<seq<bv8>> {
    if rows == [] then Some([])
    else
      match Encode(enc, rows[..|rows| - 1])
      case None => None
      case Some(bytes) =>
        match enc(rows[|rows| - 1])
        case None => None
        case Some(line) => Some(bytes + line + [NEWLINE])
  }

  // ----- sums and encodings of concatenations

  lemma {:induction false} BytesOfConcat<Row>(enc: Encoder<Row>, a: seq<Row>, b: seq<Row>)
    ensures Bytes(enc, a + b) == Bytes(enc, a) + Bytes(enc, b)
    decreases |b|
  {
    if b == [] {
      assert a + b == a;
    } else {
      var c := b[..|b| - 1];
      BytesOfConcat(enc, a, c);
      assert (a + b)[..|a + b| - 1] == a + c;
    }
  }

  lemma {:induction false} EncodeOfConcat<Row>(enc: Encoder<Row>, a: seq<Row>, b: seq<Row>)
    ensures Encode(enc, a + b) ==
      if Encode(enc, a).Some? && Encode(enc, b).Some? then Some(Encode(enc, a).value + Encode(enc, b).value) else None
    decreases |b|
  {
    if b == [] {
      assert a + b == a;
      assert Encode(enc, a).Some? ==> Encode(enc, a).value + [] == Encode(enc, a).value;
    } else {
      var c := b[..|b| - 1];
      EncodeOfConcat(enc, a, c);
      assert (a + b)[..|a + b| - 1] == a + c;
      var ea, ec, line := Encode(enc, a), Encode(enc, c), enc(b[|b| - 1]);
      if ea.Some? && ec.Some? && line.Some? {
        assert ea.value + ec.value + line.value + [NEWLINE] == ea.value + (ec.value + line.value + [NEWLINE]);
      }
    }
  }

  /** Rows that fit are encoded in exactly the bytes counted for them. */
  lemma {:induction false} EncodedSize<Row>(enc: Encoder<Row>, rows: seq<Row>, limit: nat)
    requires AllFit(enc, rows, limit)
    ensures Encode(enc, rows).Some? && |Encode(enc, rows).value| == Bytes(enc, rows)
    decreases |rows|
  {
    if rows != [] {
      EncodedSize(enc, rows[..|rows| - 1], limit);
    }
  }

  lemma {:induction false} BytesGrow<Row>(enc: Encoder<Row>, rows: seq<Row>, i: nat)
    requires i <= |rows|
    ensures Bytes(enc, rows[..i]) <= Bytes(enc, rows)
    decreases |rows|
  {
    if i < |rows| {
      BytesGrow(enc, rows[..|rows| - 1], i);
      assert rows[..|rows| - 1][..i] == rows[..i];
    } else {
      assert rows[..i] == rows;
    }
  }

  /**
   * A segment can be written if and only if all its rows can; row `i` then stands after the bytes counted for the rows
   * before it, and a newline follows it.
   */
  lemma {:induction false} RowsThenNewlines<Row>(enc: Encoder<Row>, rows: seq<Row>, i: nat)
    ensures Encode(enc, rows).Some? <==> forall k :: 0 <= k < |rows| ==> enc(rows[k]).Some?
    ensures Encode(enc, rows).Some? ==> |Encode(enc, rows).value| == Bytes(enc, rows)
    ensures Encode(enc, rows).Some? && i < |rows| ==>
      var bytes, start, line := Encode(enc, rows).value, Bytes(enc, rows[..i]), enc(rows[i]).value;
      start + |line| < |bytes| && bytes[start..start + |line|] == line && bytes[start + |line|] == 10
    decreases |rows|
  {
    if rows != [] {
      var n := |rows| - 1;
      RowsThenNewlines(enc, rows[..n], i);
      if Encode(enc, rows).Some? && i < n {
        assert rows[..n][..i] == rows[..i];
        var before := Encode(enc, rows[..n]).value;
        assert Encode(enc, rows).value[..|before|] == before;
      }
    }
  }

  function Encodings<Row>(enc: Encoder<Row>, parts: seq<seq<Row>>): (r: seq<seq<bv8>>)
    ensures |r| == |parts|
  {
    seq(|parts|, i requires 0 <= i < |parts| =>
      match Encode(enc, parts[i]) case None => [] case Some(bytes) => bytes)
  }

  lemma FitParts<Row>(enc: Encoder<Row>, a: seq<Row>, b: seq<Row>, limit: nat)
    requires AllFit(enc, a + b, limit)
    ensures AllFit(enc, a, limit) && AllFit(enc, b, limit)
  {
    assert forall i :: 0 <= i < |a| ==> (a + b)[i] == a[i];
    assert forall i :: 0 <= i < |b| ==> (a + b)[|a| + i] == b[i];
  }

  lemma EncodeNothing<Row>(enc: Encoder<Row>)
    ensures Encode(enc, []) == Some([])
  {
  }

  /** The encoded parts, laid end to end, are the encoding of all rows. */
  lemma {:induction false} PartsEncodeTheWhole<Row>(enc: Encoder<Row>, parts: seq<seq<Row>>, limit: nat)
    requires AllFit(enc, Concat(parts), limit)
    ensures Encode(enc, Concat(parts)) == Some(Concat(Encodings(enc, parts)))
    ensures forall i :: 0 <= i < |parts| ==>
      Encode(enc, parts[i]) == Some(Encodings(enc, parts)[i]) && |Encodings(enc, parts)[i]| == Bytes(enc, parts[i])
    decreases |parts|
  {
    if parts == [] {
      EncodeNothing(enc);
    } else {
      hide Bytes, LineBytes, Fits, Encode;
      var first, rest := parts[0], Concat(parts[1..]);
      assert AllFit(enc, first, limit) && AllFit(enc, rest, limit) by { FitParts(enc, first, rest, limit); }
      PartsEncodeTheWhole(enc, parts[1..], limit);
      EncodedSize(enc, first, limit);
      EncodeOfConcat(enc, first, rest);
      var all := Encodings(enc, parts);
      assert all[1..] == Encodings(enc, parts[1..]);
      forall i | 0 <= i < |parts| ensures Encode(enc, parts[i]) == Some(all[i]) && |all[i]| == Bytes(enc, parts[i]) {
        if i > 0 {
          assert parts[i] == parts[1..][i - 1] && all[i] == all[1..][i - 1];
        }
      }
    }
  }

  // ----- no split needs fewer parts

  /** Consecutive parts that each hold something and stay within the limit. */
  ghost predicate WithinLimit<Row>(enc: Encoder<Row>, parts: seq<seq<Row>>, limit: nat) {
    forall i :: 0 <= i < |parts| ==> Bytes(enc, parts[i]) <= limit
  }

  ghost predicate NoEmptyPart<T>(parts: seq<seq<T>>) {
    forall i :: 0 <= i < |parts| ==> parts[i] != []
  }

  /** No part could have taken one more row. */
  ghost predicate Full<Row>(enc: Encoder<Row>, parts: seq<seq<Row>>, limit: nat)
    requires NoEmptyPart(parts)
  {
    forall i :: 0 < i < |parts| ==> Bytes(enc, parts[i - 1]) + LineBytes(enc, parts[i][0]) > limit
  }

  lemma BytesOfOne<Row>(enc: Encoder<Row>, row: Row)
    ensures Bytes(enc, [row]) == LineBytes(enc, row)
  {
    assert [row][..0] == [];
  }

  /** Full parts covering the end of what another split covers are no more numerous. */
  lemma {:induction false} FullPartsAreFewest<Row>(
    enc: Encoder<Row>, parts: seq<seq<Row>>, other: seq<seq<Row>>, limit: nat, lag: nat)
    requires NoEmptyPart(parts) && Full(enc, parts, limit) && WithinLimit(enc, other, limit)
    requires lag <= |Concat(other)| && Concat(other)[lag..] == Concat(parts)
    ensures |parts| <= |other|
    decreases |other|
  {
    if |parts| > 1 {
      assert |Concat(parts)| > 0;
      var x, a, b := other[0], parts[0], parts[1];
      FirstPartReachesNoFurther(enc, parts, other, limit, lag);
      var ahead := lag + |a| - |x|;
      assert Concat(other)[|x|..] == Concat(other[1..]);
      assert Concat(parts)[|a|..] == Concat(parts[1..]);
      assert Concat(other[1..])[ahead..] == Concat(other)[lag + |a|..] == Concat(other)[lag..][|a|..];
      FullPartsAreFewest(enc, parts[1..], other[1..], limit, ahead);
    }
  }

  /** A part within the limit ends no later than the full part that starts after it. */
  lemma FirstPartReachesNoFurther<Row>(
    enc: Encoder<Row>, parts: seq<seq<Row>>, other: seq<seq<Row>>, limit: nat, lag: nat)
    requires NoEmptyPart(parts) && Full(enc, parts, limit) && WithinLimit(enc, other, limit)
    requires lag <= |Concat(other)| && Concat(other)[lag..] == Concat(parts)
    requires |parts| > 1 && other != []
    ensures |other[0]| <= lag + |parts[0]|
  {
    hide Bytes, LineBytes, Concat;
    var x, a, b := other[0], parts[0], parts[1];
    if |x| > lag + |a| {
      OverlongPart(parts, other, lag);
      BytesOfMiddle(enc, x[..lag], a, b[0], x[lag + |a| + 1..]);
      assert false;
    }
  }

  lemma BytesOfMiddle<Row>(enc: Encoder<Row>, before: seq<Row>, a: seq<Row>, row: Row, after: seq<Row>)
    ensures Bytes(enc, before + (a + [row]) + after) >= Bytes(enc, a) + LineBytes(enc, row)
  {
    hide Bytes, LineBytes;
    BytesOfConcat(enc, before + (a + [row]), after);
    BytesOfConcat(enc, before, a + [row]);
    BytesOfConcat(enc, a, [row]);
    BytesOfOne(enc, row);
  }

  lemma TwoParts<Row>(parts: seq<seq<Row>>)
    requires |parts| > 1 && parts[1] != []
    ensures Concat(parts) == parts[0] + [parts[1][0]] + (parts[1][1..] + Concat(parts[1..][1..]))
  {
    assert Concat(parts) == parts[0] + (parts[1] + Concat(parts[1..][1..]));
  }

  lemma SliceOfSum<Row>(x: seq<Row>, rest: seq<Row>, lag: nat, a: seq<Row>, row: Row, tail: seq<Row>)
    requires lag + |a| < |x| && (x + rest)[lag..] == a + [row] + tail
    ensures x == x[..lag] + (a + [row]) + x[lag + |a| + 1..]
  {
    var end := lag + |a| + 1;
    assert x[lag..end] == (x + rest)[lag..][..|a| + 1];
    assert (a + [row] + tail)[..|a| + 1] == a + [row];
    assert x == x[..lag] + x[lag..end] + x[end..];
  }

  /** A part that reaches past a full part holds all of it and the row after it. */
  lemma OverlongPart<Row>(parts: seq<seq<Row>>, other: seq<seq<Row>>, lag: nat)
    requires |parts| > 1 && parts[1] != [] && other != []
    requires lag <= |Concat(other)| && Concat(other)[lag..] == Concat(parts)
    requires |other[0]| > lag + |parts[0]|
    ensures var x, a, b := other[0], parts[0], parts[1];
      x == x[..lag] + (a + [b[0]]) + x[lag + |a| + 1..]
  {
    var x, a, b := other[0], parts[0], parts[1];
    TwoParts(parts);
    assert Concat(other) == x + Concat(other[1..]);
    hide Concat;
    SliceOfSum(x, Concat(other[1..]), lag, a, b[0], b[1..] + Concat(parts[1..][1..]));
  }

  // ----- rolling

  /** Rows dealt with so far: closed parts, none of which could hold more, and the open one. */
  ghost predicate Rolling<Row>(
    enc: Encoder<Row>, done: seq<Row>, parts: seq<seq<Row>>, part: seq<Row>, partBytes: nat, limit: nat)
  {
    && AllFit(enc, done, limit)
    && Concat(parts) + part == done
    && NoEmptyPart(parts) && WithinLimit(enc, parts, limit)
    && partBytes == Bytes(enc, part) <= limit
    && (part == [] ==> parts == [])
    && (part != [] ==> Full(enc, parts + [part], limit))
  }

  /** The next row goes into the open part, or closes it when there is no room. */
  lemma RollOne<Row>(
    enc: Encoder<Row>, done: seq<Row>, parts: seq<seq<Row>>, part: seq<Row>, partBytes: nat, limit: nat, row: Row)
    requires Rolling(enc, done, parts, part, partBytes, limit) && Fits(enc, row, limit)
    ensures var size := LineBytes(enc, row);
      if part != [] && partBytes + size > limit then
        Rolling(enc, done + [row], parts + [part], [row], size, limit)
      else Rolling(enc, done + [row], parts, part + [row], partBytes + size, limit)
  {
    hide Bytes, LineBytes, Concat;
    BytesOfOne(enc, row);
    if part != [] && partBytes + LineBytes(enc, row) > limit {
      CloseFullPart(enc, parts, part, row, limit);
      ConcatSnoc(parts, part);
    } else {
      BytesOfConcat(enc, part, [row]);
      if part != [] {
        AddToPart(enc, parts, part, row, limit);
      } else {
        assert part + [row] == [row];
      }
    }
  }

  lemma RollEnd<Row(!new)>(
    enc: Encoder<Row>, rows: seq<Row>, parts: seq<seq<Row>>, part: seq<Row>, partBytes: nat, limit: nat)
    requires Rolling(enc, rows, parts, part, partBytes, limit)
    ensures var all := if part != [] then parts + [part] else parts;
      && Concat(all) == rows && NoEmptyPart(all) && WithinLimit(enc, all, limit)
      && FewestParts(enc, rows, all, limit)
  {
    hide Bytes, LineBytes, Concat, Fits;
    ConcatSnoc(parts, part);
    var all := if part != [] then parts + [part] else parts;
    forall other | Concat(other) == rows && WithinLimit(enc, other, limit) ensures |all| <= |other| {
      FullPartsAreFewest(enc, all, other, limit, 0);
    }
  }

  /** No split of the rows into consecutive parts within the limit has fewer parts. */
  ghost predicate FewestParts<Row(!new)>(enc: Encoder<Row>, rows: seq<Row>, parts: seq<seq<Row>>, limit: nat) {
    forall other :: Concat(other) == rows && WithinLimit(enc, other, limit) ==> |parts| <= |other|
  }

  /** Bytes in the open part once the rows have been rolled. */
  function OpenBytes<Row>(enc: Encoder<Row>, rows: seq<Row>, limit: nat): nat {
    if rows == [] then 0
    else
      var before, size := OpenBytes(enc, rows[..|rows| - 1], limit), LineBytes(enc, rows[|rows| - 1]);
      if |rows| > 1 && before + size > limit then size else before + size
  }

  /** No row, counted on top of the part open before it, passes the address space. */
  predicate Countable<Row>(enc: Encoder<Row>, rows: seq<Row>, limit: nat) {
    forall i :: 0 <= i < |rows| ==> OpenBytes(enc, rows[..i], limit) + LineBytes(enc, rows[i]) <= USIZE_MAX
  }

  lemma {:induction false} OpenBytesWithin<Row>(enc: Encoder<Row>, rows: seq<Row>, limit: nat)
    requires AllFit(enc, rows, limit)
    ensures OpenBytes(enc, rows, limit) <= limit
    decreases |rows|
  {
    if rows != [] {
      OpenBytesWithin(enc, rows[..|rows| - 1], limit);
    }
  }

  /** Fitting rows are countable under any limit up to half the address space. */
  lemma SmallLimitsAreCountable<Row>(enc: Encoder<Row>, rows: seq<Row>, limit: nat)
    requires AllFit(enc, rows, limit) && 2 * limit <= USIZE_MAX
    ensures Countable(enc, rows, limit)
  {
    forall i | 0 <= i < |rows| ensures OpenBytes(enc, rows[..i], limit) + LineBytes(enc, rows[i]) <= USIZE_MAX {
      OpenBytesWithin(enc, rows[..i], limit);
      assert Fits(enc, rows[i], limit);
    }
  }

  /** Splits rows greedily; fails on a row that cannot be written or is too long by itself. */
  method RollRows<Row(!new)>(enc: Encoder<Row>, rows: seq<Row>, limit: nat) returns (r: Option<seq<seq<Row>>>)
    requires limit <= USIZE_MAX
    ensures r.Some? <==> AllFit(enc, rows, limit) && Countable(enc, rows, limit)
    ensures r.Some? ==> Concat(r.value) == rows && NoEmptyPart(r.value) && WithinLimit(enc, r.value, limit)
    ensures r.Some? ==> FewestParts(enc, rows, r.value, limit)
  {
    hide Rolling, FewestParts, Concat, WithinLimit, NoEmptyPart, Bytes, OpenBytes;
    var parts: seq<seq<Row>>, part: seq<Row>, partBytes: nat := [], [], 0;
    RollStart(enc, limit);
    assert rows[..0] == [];
    for i := 0 to |rows|
      invariant AllFit(enc, rows[..i], limit) && partBytes == OpenBytes(enc, rows[..i], limit)
      invariant Countable(enc, rows[..i], limit) && (part == [] <==> i == 0)
      invariant Rolling(enc, rows[..i], parts, part, partBytes, limit)
    {
      var row := rows[i];
      assert rows[..i + 1] == rows[..i] + [row];
      if enc(row).None? {
        assert !Fits(enc, row, limit);
        return None;
      }
      var lineBytes := |enc(row).value| + 1;
      if lineBytes > limit {
        assert !Fits(enc, row, limit);
        return None;
      }
      if partBytes + lineBytes > USIZE_MAX {
        assert OpenBytes(enc, rows[..i], limit) + LineBytes(enc, rows[i]) > USIZE_MAX;
        return None;
      }
      CountOne(enc, rows, i, limit);
      RollOne(enc, rows[..i], parts, part, partBytes, limit, row);
      if part != [] && partBytes + lineBytes > limit {
        parts, part, partBytes := parts + [part], [], 0;
        assert part + [row] == [row];
      }
      part, partBytes := part + [row], partBytes + lineBytes;
    }
    assert rows[..|rows|] == rows;
    RollEnd(enc, rows, parts, part, partBytes, limit);
    if part != [] {
      parts := parts + [part];
    }
    return Some(parts);
  }

  lemma RollStart<Row>(enc: Encoder<Row>, limit: nat)
    ensures Rolling(enc, [], [], [], 0, limit) && OpenBytes(enc, [], limit) == 0
  {
  }

  lemma CountOne<Row>(enc: Encoder<Row>, rows: seq<Row>, i: nat, limit: nat)
    requires i < |rows| && Countable(enc, rows[..i], limit)
    requires OpenBytes(enc, rows[..i], limit) + LineBytes(enc, rows[i]) <= USIZE_MAX
    ensures Countable(enc, rows[..i + 1], limit)
    ensures var before, size := OpenBytes(enc, rows[..i], limit), LineBytes(enc, rows[i]);
      OpenBytes(enc, rows[..i + 1], limit) == if i > 0 && before + size > limit then size else before + size
  {
    var longer := rows[..i + 1];
    assert longer[..i] == rows[..i];
    forall k | 0 <= k < |longer| ensures OpenBytes(enc, longer[..k], limit) + LineBytes(enc, longer[k]) <= USIZE_MAX {
      assert longer[..k] == rows[..k];
      assert k < i ==> rows[..i][..k] == rows[..k] && rows[..i][k] == rows[k];
    }
  }

  lemma CloseFullPart<Row>(enc: Encoder<Row>, parts: seq<seq<Row>>, part: seq<Row>, row: Row, limit: nat)
    requires NoEmptyPart(parts) && part != [] && Full(enc, parts + [part], limit)
    requires Bytes(enc, part) + LineBytes(enc, row) > limit
    ensures NoEmptyPart(parts + [part]) && Full(enc, parts + [part] + [[row]], limit)
  {
  }

  lemma AddToPart<Row>(enc: Encoder<Row>, parts: seq<seq<Row>>, part: seq<Row>, row: Row, limit: nat)
    requires NoEmptyPart(parts) && part != [] && Full(enc, parts + [part], limit)
    ensures Full(enc, parts + [part + [row]], limit)
  {
    var was, now := parts + [part], parts + [part + [row]];
    forall i | 0 < i < |now| ensures Bytes(enc, now[i - 1]) + LineBytes(enc, now[i][0]) > limit {
      assert now[i - 1] == was[i - 1] && now[i][0] == was[i][0];
    }
  }
}
