/** Strict decoding of dynamic ABI arrays from hex log data. */
module AbiDecoder {
  import opened Trading
  import opened Texts

  const USIZE_MAX: nat := 0xffff_ffff_ffff_ffff
  const U128_MAX: nat := 0xffff_ffff_ffff_ffff_ffff_ffff_ffff_ffff
  const DECIMAL_MAX: nat := 79_228_162_514_264_337_593_543_950_335

  // ----- hexadecimal words

  predicate IsHex(c: char) {
    '0' <= c <= '9' || 'a' <= c <= 'f' || 'A' <= c <= 'F'
  }

  predicate AllHex(s: string) {
    forall i :: 0 <= i < |s| ==> IsHex(s[i])
  }

  function DigitValue(c: char): nat
    requires IsHex(c)
  {
    if c <= '9' then c as int - '0' as int
    else if c <= 'F' then c as int - 'A' as int + 10
    else c as int - 'a' as int + 10
  }

  function HexDigit(d: nat): char
    requires d < 16
  {
    if d < 10 then ('0' as int + d) as char else ('a' as int + d - 10) as char
  }

  function ValueOf(s: string): nat
    requires AllHex(s)
  {
    if s == [] then 0 else 16 * ValueOf(s[..|s| - 1]) + DigitValue(s[|s| - 1])
  }

  /** A number as lowercase hex of a fixed width. */
  function Hex(n: nat, width: nat): (s: string)
    ensures |s| == width
  {
    if width == 0 then "" else Hex(n / 16, width - 1) + [HexDigit(n % 16)]
  }

  /** One 32-byte word. */
  function Word(n: nat): string {
    Hex(n, 64)
  }

  ghost function Pow16(k: nat): nat {
    if k == 0 then 1 else 16 * Pow16(k - 1)
  }

  lemma {:induction false} HexRoundTrip(n: nat, width: nat)
    requires n < Pow16(width)
    ensures AllHex(Hex(n, width)) && ValueOf(Hex(n, width)) == n && Lower(Hex(n, width)) == Hex(n, width)
    decreases width
  {
    if width > 0 {
      HexRoundTrip(n / 16, width - 1);
      var s := Hex(n, width);
      assert s[..width - 1] == Hex(n / 16, width - 1);
      forall i | 0 <= i < width ensures IsHex(s[i]) && LowerChar(s[i]) == s[i] {
        if i < width - 1 {
          assert s[i] == Hex(n / 16, width - 1)[i];
          assert Lower(Hex(n / 16, width - 1))[i] == s[i];
        }
      }
    }
  }

  lemma DigitRoundTrip(c: char)
    requires IsHex(c)
    ensures DigitValue(c) < 16 && HexDigit(DigitValue(c)) == LowerChar(c)
  {
  }

  lemma HexSplit(n: nat, d: nat, width: nat)
    requires d < 16
    ensures Hex(16 * n + d, width + 1) == Hex(n, width) + [HexDigit(d)]
  {
    assert (16 * n + d) / 16 == n && (16 * n + d) % 16 == d;
  }

  lemma ReadLastDigit(s: string)
    requires AllHex(s) && s != []
    ensures var n := |s| - 1;
      DigitValue(s[n]) < 16 && HexDigit(DigitValue(s[n])) == LowerChar(s[n]) &&
      ValueOf(s) == 16 * ValueOf(s[..n]) + DigitValue(s[n])
  {
    DigitRoundTrip(s[|s| - 1]);
  }

  lemma EmptyHex()
    ensures Hex(ValueOf(""), 0) == ""
  {
  }

  /** Only the case of the digits is lost when a word is read as a number. */
  lemma {:induction false} ValueRoundTrip(s: string)
    requires AllHex(s)
    ensures Hex(ValueOf(s), |s|) == Lower(s)
    decreases |s|
  {
    hide Hex, ValueOf, HexDigit, DigitValue, LowerChar, IsHex;
    if s == [] {
      EmptyHex();
    } else {
      var n := |s| - 1;
      ValueRoundTrip(s[..n]);
      assert Lower(s) == Lower(s[..n]) + [LowerChar(s[n])];
      ReadLastDigit(s);
      HexSplit(ValueOf(s[..n]), DigitValue(s[n]), n);
    }
  }

  lemma {:induction false} PowMonotone(a: nat, b: nat)
    requires a <= b
    ensures 1 <= Pow16(a) <= Pow16(b)
    decreases b
  {
    if a < b {
      PowMonotone(a, b - 1);
    } else if a > 0 {
      PowMonotone(a - 1, a - 1);
    }
  }

  /** Every decimal amount, offset and length fits a word. */
  lemma WordsAreWide(n: nat)
    requires n <= DECIMAL_MAX || n <= USIZE_MAX
    ensures n < Pow16(64)
  {
    assert Pow16(4) == 0x1_0000;
    PowFour(4);
    PowFour(8);
    PowFour(12);
    PowFour(16);
    PowFour(20);
    PowMonotone(24, 64);
  }

  lemma PowFour(k: nat)
    ensures Pow16(k + 4) == 0x1_0000 * Pow16(k)
  {
    assert Pow16(k + 4) == 16 * Pow16(k + 3);
    assert Pow16(k + 3) == 16 * Pow16(k + 2);
    assert Pow16(k + 2) == 16 * Pow16(k + 1);
  }

  lemma WordRoundTrip(n: nat)
    requires n <= DECIMAL_MAX || n <= USIZE_MAX
    ensures AllHex(Word(n)) && ValueOf(Word(n)) == n && Lower(Word(n)) == Word(n)
  {
    WordsAreWide(n);
    HexRoundTrip(n, 64);
  }

  // ----- decoding

  /** Hex data of whole words, without its prefix. */
  function AbiData(value: string): Option<string> {
    if |value| >= 2 && value[..2] == "0x" && (|value| - 2) % 64 == 0 && AllHex(value[2..]) then Some(value[2..])
    else None
  }

  function WordAt(data: string, index: nat): Option<string> {
    if 64 * index + 64 <= |data| then Some(data[64 * index..64 * index + 64]) else None
  }

  function ParseUsize(word: string): Option<nat>
    requires AllHex(word)
  {
    if ValueOf(word) <= USIZE_MAX then Some(ValueOf(word)) else None
  }

  function ParseDecimal(word: string): Option<nat>
    requires AllHex(word)
  {
    if ValueOf(word) <= U128_MAX && ValueOf(word) <= DECIMAL_MAX then Some(ValueOf(word)) else None
  }

  /** The elements of a dynamic array whose offset must be the expected one. */
  function DynamicWords(data: string, offsetWord: nat, expectedOffset: nat): (r: Option<string>)
    requires AllHex(data)
    ensures r.Some? ==> AllHex(r.value) && |r.value| % 64 == 0
  {
    match WordAt(data, offsetWord)
    case None => None
    case Some(word) =>
      match ParseUsize(word)
      case None => None
      case Some(offset) =>
        if offset != expectedOffset then None
        else
          var lengthWord := offset / 32;
          match WordAt(data, lengthWord)
          case None => None
          case Some(size) =>
            match ParseUsize(size)
            case None => None
            case Some(length) =>
              var start := 64 * (lengthWord + 1);
              var end := start + 64 * length;
              if end > USIZE_MAX || end > |data| then None else Some(data[start..end])
  }

  function Words(s: string): (ws: seq<string>)
    requires |s| % 64 == 0
    ensures |ws| == |s| / 64
    ensures forall i :: 0 <= i < |ws| ==> |ws[i]| == 64 && (AllHex(s) ==> AllHex(ws[i]))
  {
    if s == [] then [] else
      assert AllHex(s) ==> AllHex(s[..64]) && AllHex(s[64..]);
      [s[..64]] + Words(s[64..])
  }

  datatype Transfer = Transfer(assetId: string, amount: nat)

  function Zipped(ids: seq<string>, amounts: seq<string>): Option<seq<Transfer>>
    requires |ids| == |amounts| && forall i :: 0 <= i < |amounts| ==> AllHex(amounts[i])
  {
    if ids == [] then Some([])
    else
      match ParseDecimal(amounts[0])
      case None => None
      case Some(amount) =>
        match Zipped(ids[1..], amounts[1..])
        case None => None
        case Some(rest) => Some([Transfer("0x" + Lower(ids[0]), amount)] + rest)
  }

  /** Two arrays of equal length, back to back, and nothing else. */
  function TwoArrays(data: string): (r: Option<(string, string)>)
    requires AllHex(data)
    ensures r.Some? ==> |r.value.0| == |r.value.1| && |r.value.0| % 64 == 0 && AllHex(r.value.0) && AllHex(r.value.1)
  {
    match DynamicWords(data, 0, 64)
    case None => None
    case Some(ids) =>
      var valuesOffset := 96 + |ids| / 2;
      match DynamicWords(data, 1, valuesOffset)
      case None => None
      case Some(values) =>
        if |ids| != |values| || |data| != (valuesOffset + 32) * 2 + |values| then None else Some((ids, values))
  }

  /** The transfers in the data of a batch. */
  function BatchData(value: string): Option<seq<Transfer>> {
    match AbiData(value)
    case None => None
    case Some(data) =>
      match TwoArrays(data)
      case None => None
      case Some((ids, values)) => Zipped(Words(ids), Words(values))
  }

  function AbiWord(value: string): Option<string> {
    if |value| == 66 && value[..2] == "0x" && AllHex(value[2..]) then Some(value[2..]) else None
  }

  /** Twelve zero bytes and a twenty-byte address. */
  function AddressOf(word: string): Option<string>
    requires |word| == 64
  {
    if forall i :: 0 <= i < 24 ==> word[i] == '0' then Some("0x" + Lower(word[24..])) else None
  }

  function TopicAddress(topic: string): Option<string> {
    match AbiWord(topic)
    case None => None
    case Some(word) => AddressOf(word)
  }

  datatype Batch = Batch(from: string, to: string, transfers: seq<Transfer>)

  function DecodeBatch(topics: seq<string>, data: string): Option<Batch> {
    if |topics| != 4 || TopicAddress(topics[1]).None? then None
    else
      match BatchData(data)
      case None => None
      case Some(transfers) =>
        match (TopicAddress(topics[2]), TopicAddress(topics[3]))
        case (Some(from), Some(to)) => Some(Batch(from, to, transfers))
        case _ => None
  }

  // ----- the one canonical encoding

  function Joined(ws: seq<string>): string {
    if ws == [] then "" else ws[0] + Joined(ws[1..])
  }

  function AmountWords(transfers: seq<Transfer>): seq<string> {
    seq(|transfers|, i requires 0 <= i < |transfers| => Word(transfers[i].amount))
  }

  function IdWords(transfers: seq<Transfer>): seq<string>
    requires forall t :: t in transfers ==> |t.assetId| >= 2
  {
    seq(|transfers|, i requires 0 <= i < |transfers| => assert transfers[i] in transfers; transfers[i].assetId[2..])
  }

  /** An asset id as the decoder reports it, and an amount it can hold. */
  predicate IsTransfer(t: Transfer) {
    |t.assetId| == 66 && t.assetId[..2] == "0x" && AllHex(t.assetId[2..]) && Lower(t.assetId) == t.assetId &&
    t.amount <= DECIMAL_MAX
  }

  predicate AreTransfers(ts: seq<Transfer>) {
    forall t :: t in ts ==> IsTransfer(t)
  }

  function Encoded(ts: seq<Transfer>): string
    requires AreTransfers(ts)
  {
    var n := |ts|;
    "0x" + (Word(64) + Word(96 + 32 * n) + Word(n) + Joined(IdWords(ts)) + Word(n) + Joined(AmountWords(ts)))
  }

  lemma {:induction false} WordsOfJoined(ws: seq<string>)
    requires forall i :: 0 <= i < |ws| ==> |ws[i]| == 64
    ensures |Joined(ws)| == 64 * |ws| && Words(Joined(ws)) == ws
    decreases |ws|
  {
    if ws != [] {
      WordsOfJoined(ws[1..]);
      assert Joined(ws)[64..] == Joined(ws[1..]);
    }
  }

  lemma {:induction false} JoinedWords(s: string)
    requires |s| % 64 == 0
    ensures Joined(Words(s)) == s
    decreases |s|
  {
    if s != [] {
      JoinedWords(s[64..]);
      assert Words(s)[1..] == Words(s[64..]);
    }
  }

  lemma {:induction false} AllHexJoined(ws: seq<string>)
    requires forall i :: 0 <= i < |ws| ==> AllHex(ws[i])
    ensures AllHex(Joined(ws))
    decreases |ws|
  {
    if ws != [] {
      AllHexJoined(ws[1..]);
    }
  }

  lemma {:induction false} ZippedExactly(ids: seq<string>, amounts: seq<string>)
    requires |ids| == |amounts|
    requires forall i :: 0 <= i < |ids| ==> |ids[i]| == 64 && AllHex(ids[i]) && |amounts[i]| == 64 && AllHex(amounts[i])
    ensures Zipped(ids, amounts).Some? <==> forall i :: 0 <= i < |ids| ==> ValueOf(amounts[i]) <= DECIMAL_MAX
    ensures Zipped(ids, amounts).Some? ==>
      var ts := Zipped(ids, amounts).value;
      |ts| == |ids| && forall i :: 0 <= i < |ids| ==> ts[i] == Transfer("0x" + Lower(ids[i]), ValueOf(amounts[i]))
    decreases |ids|
  {
    if ids != [] {
      ZippedExactly(ids[1..], amounts[1..]);
    }
  }

  // ----- decode after encode

  /** The pieces of data laid out as a batch of `n` transfers. */
  ghost predicate Layout(data: string, n: nat, ids: string, values: string) {
    |ids| == 64 * n && |values| == 64 * n &&
    data == Word(64) + Word(96 + 32 * n) + Word(n) + ids + Word(n) + values
  }

  lemma LayoutSlices(data: string, n: nat, ids: string, values: string)
    requires Layout(data, n, ids, values)
    ensures |data| == 256 + 128 * n
    ensures data[0..64] == Word(64) && data[64..128] == Word(96 + 32 * n) && data[128..192] == Word(n)
    ensures data[192..192 + 64 * n] == ids
    ensures data[192 + 64 * n..256 + 64 * n] == Word(n) && data[256 + 64 * n..256 + 128 * n] == values
  {
    hide Hex;
    var head := Word(64) + Word(96 + 32 * n) + Word(n);
    assert |head| == 192;
    assert data == head + (ids + (Word(n) + values));
    assert data[192..] == ids + (Word(n) + values);
    assert data[192 + 64 * n..] == Word(n) + values;
  }

  /** Data laid out as a batch is decoded into exactly its two arrays. */
  lemma LayoutDecodes(data: string, n: nat, ids: string, values: string)
    requires Layout(data, n, ids, values) && AllHex(data) && 256 + 128 * n <= USIZE_MAX
    ensures TwoArrays(data) == Some((ids, values))
  {
    hide Hex, ValueOf, AllHex;
    LayoutSlices(data, n, ids, values);
    WordRoundTrip(64);
    WordRoundTrip(96 + 32 * n);
    WordRoundTrip(n);
    assert (96 + 32 * n) / 32 == 3 + n;
    assert DynamicWords(data, 0, 64) == Some(ids);
    assert DynamicWords(data, 1, 96 + 32 * n) == Some(values);
  }

  lemma EncodedLayout(ts: seq<Transfer>)
    requires AreTransfers(ts) && 256 + 128 * |ts| <= USIZE_MAX
    ensures Layout(Encoded(ts)[2..], |ts|, Joined(IdWords(ts)), Joined(AmountWords(ts)))
    ensures AllHex(Encoded(ts)[2..])
    ensures forall i :: 0 <= i < |ts| ==> AllHex(IdWords(ts)[i]) && |IdWords(ts)[i]| == 64
    ensures forall i :: 0 <= i < |ts| ==> AllHex(AmountWords(ts)[i]) && ValueOf(AmountWords(ts)[i]) == ts[i].amount
  {
    hide Hex, Joined, ValueOf;
    var n, ids, amounts := |ts|, IdWords(ts), AmountWords(ts);
    forall i | 0 <= i < n
      ensures AllHex(ids[i]) && |ids[i]| == 64 && AllHex(amounts[i]) && ValueOf(amounts[i]) == ts[i].amount
    {
      assert ts[i] in ts;
      WordRoundTrip(ts[i].amount);
    }
    WordsOfJoined(ids);
    WordsOfJoined(amounts);
    AllHexJoined(ids);
    AllHexJoined(amounts);
    WordRoundTrip(64);
    WordRoundTrip(96 + 32 * n);
    WordRoundTrip(n);
    HexPieces(Word(64), Word(96 + 32 * n), Word(n), Joined(ids), Joined(amounts));
  }

  lemma HexPieces(a: string, b: string, c: string, d: string, e: string)
    requires AllHex(a) && AllHex(b) && AllHex(c) && AllHex(d) && AllHex(e)
    ensures AllHex(a + b + c + d + c + e)
  {
  }

  /** Every list of transfers that fits in memory is recovered from its encoding. */
  lemma DecodeAfterEncode(ts: seq<Transfer>)
    requires AreTransfers(ts) && 256 + 128 * |ts| <= USIZE_MAX
    ensures BatchData(Encoded(ts)) == Some(ts)
  {
    hide Joined, TwoArrays, Words, Encoded, AllHex, Zipped, AbiData, IdWords, AmountWords, IsTransfer;
    IdsAreLong(ts);
    EncodedArrays(ts);
    RecoverTransfers(ts);
  }

  lemma IdsAreLong(ts: seq<Transfer>)
    requires AreTransfers(ts)
    ensures forall t :: t in ts ==> |t.assetId| >= 2
  {
    hide Lower, AllHex;
  }

  /** An encoding is whole hex words that hold the two arrays. */
  lemma EncodedArrays(ts: seq<Transfer>)
    requires AreTransfers(ts) && (forall t :: t in ts ==> |t.assetId| >= 2) && 256 + 128 * |ts| <= USIZE_MAX
    ensures var data := AbiData(Encoded(ts));
      data.Some? && AllHex(data.value) && TwoArrays(data.value) == Some((Joined(IdWords(ts)), Joined(AmountWords(ts))))
  {
    hide *;
    EncodedIsData(ts);
    EncodedLayout(ts);
    LayoutDecodes(Encoded(ts)[2..], |ts|, Joined(IdWords(ts)), Joined(AmountWords(ts)));
  }

  lemma EncodedIsData(ts: seq<Transfer>)
    requires AreTransfers(ts) && 256 + 128 * |ts| <= USIZE_MAX
    ensures |Encoded(ts)| >= 2 && AbiData(Encoded(ts)) == Some(Encoded(ts)[2..])
  {
    hide Hex, Joined, Encoded, AllHex, Layout, IdWords, AmountWords, IsTransfer;
    IdsAreLong(ts);
    EncodedPrefix(ts);
    EncodedLayout(ts);
    LayoutSlices(Encoded(ts)[2..], |ts|, Joined(IdWords(ts)), Joined(AmountWords(ts)));
  }

  lemma RecoverTransfers(ts: seq<Transfer>)
    requires AreTransfers(ts) && 256 + 128 * |ts| <= USIZE_MAX
    ensures var ids, amounts := Joined(IdWords(ts)), Joined(AmountWords(ts));
      AllHex(ids) && AllHex(amounts) && |ids| == |amounts| == 64 * |ts| &&
      Zipped(Words(ids), Words(amounts)) == Some(ts)
  {
    hide Hex, Joined, ValueOf, Words, Encoded, Lower, Zipped, Layout;
    var ids, amounts := IdWords(ts), AmountWords(ts);
    EncodedLayout(ts);
    WordsOfJoined(ids);
    WordsOfJoined(amounts);
    AllHexJoined(ids);
    AllHexJoined(amounts);
    ZippedExactly(ids, amounts);
    forall i | 0 <= i < |ts| ensures Transfer("0x" + Lower(ids[i]), ValueOf(amounts[i])) == ts[i] {
      IdSurvives(ts, i);
    }
    forall i | 0 <= i < |ts| ensures ValueOf(amounts[i]) <= DECIMAL_MAX {
      assert ts[i] in ts;
    }
    assert Zipped(ids, amounts).Some?;
    assert Zipped(ids, amounts).value == ts;
  }

  lemma EncodedPrefix(ts: seq<Transfer>)
    requires AreTransfers(ts)
    ensures |Encoded(ts)| >= 2 && Encoded(ts)[..2] == "0x"
  {
  }

  lemma IdSurvives(ts: seq<Transfer>, i: nat)
    requires AreTransfers(ts) && i < |ts|
    ensures "0x" + Lower(IdWords(ts)[i]) == ts[i].assetId
  {
    assert ts[i] in ts;
    var id := ts[i].assetId;
    assert id == "0x" + id[2..];
    assert Lower(id)[2..] == Lower(id[2..]);
  }

  // ----- encode after decode

  /** What an accepted dynamic array says about the data around it. */
  lemma DynamicWordsFacts(data: string, offsetWord: nat, expectedOffset: nat)
    requires AllHex(data) && DynamicWords(data, offsetWord, expectedOffset).Some?
    ensures Placed(data, offsetWord, expectedOffset, DynamicWords(data, offsetWord, expectedOffset).value)
  {
    hide Hex, ValueOf, Lower, AllHex;
    var body := DynamicWords(data, offsetWord, expectedOffset).value;
    var lengthWord := expectedOffset / 32;
    var offset, size := WordAt(data, offsetWord).value, WordAt(data, lengthWord).value;
    HexSlice(data, offsetWord);
    HexSlice(data, lengthWord);
    ValueRoundTrip(offset);
    ValueRoundTrip(size);
    assert |body| == 64 * ValueOf(size);
    assert |body| / 64 == ValueOf(size);
  }

  lemma HexSlice(data: string, index: nat)
    requires AllHex(data) && WordAt(data, index).Some?
    ensures AllHex(WordAt(data, index).value)
  {
  }

  /** `body` is the array at the expected offset, after a word holding its length. */
  ghost predicate Placed(data: string, offsetWord: nat, expectedOffset: nat, body: string) {
    var lengthWord := expectedOffset / 32;
    |body| % 64 == 0 && 64 * offsetWord + 64 <= |data| && 64 * lengthWord + 64 + |body| <= |data| &&
    Lower(data[64 * offsetWord..64 * offsetWord + 64]) == Word(expectedOffset) &&
    Lower(data[64 * lengthWord..64 * lengthWord + 64]) == Word(|body| / 64) &&
    body == data[64 * lengthWord + 64..64 * lengthWord + 64 + |body|]
  }

  lemma {:induction false} LowerJoined(ws: seq<string>, vs: seq<string>)
    requires |ws| == |vs| && forall i :: 0 <= i < |ws| ==> vs[i] == Lower(ws[i])
    ensures Lower(Joined(ws)) == Joined(vs)
    decreases |ws|
  {
    if ws != [] {
      LowerJoined(ws[1..], vs[1..]);
      assert Lower(Joined(ws)) == Lower(ws[0]) + Lower(Joined(ws[1..]));
    }
  }

  lemma LowerConcat(a: string, b: string)
    ensures Lower(a + b) == Lower(a) + Lower(b)
  {
  }

  lemma LowerIsLower(s: string)
    ensures Lower(Lower(s)) == Lower(s) && (AllHex(s) ==> AllHex(Lower(s)))
  {
  }

  /** Accepted data is, up to hex case, the canonical encoding of what it was decoded into. */
  lemma EncodeAfterDecode(value: string)
    requires BatchData(value).Some?
    ensures var ts := BatchData(value).value; AreTransfers(ts) && Lower(value) == Encoded(ts)
  {
    hide Hex, ValueOf, TwoArrays, Words, Joined, Lower, AllHex, Zipped, IdWords, AmountWords, AreTransfers;
    var data := AbiData(value).value;
    var (ids, values) := TwoArrays(data).value;
    var ts := BatchData(value).value;
    AcceptedArrays(data);
    AcceptedTransfers(ids, values, ts);
    assert value == "0x" + data;
    LowerConcat("0x", data);
    LowerPrefix();
  }

  /** Accepted data is laid out as a batch of the two arrays it yields. */
  lemma AcceptedArrays(data: string)
    requires AllHex(data) && TwoArrays(data).Some?
    ensures var (ids, values) := TwoArrays(data).value; Layout(Lower(data), |ids| / 64, Lower(ids), Lower(values))
  {
    hide *;
    var n := ArraysArePlaced(data);
    PlacedTogether(data, n, TwoArrays(data).value.0, TwoArrays(data).value.1);
  }

  lemma ArraysArePlaced(data: string) returns (n: nat)
    requires AllHex(data) && TwoArrays(data).Some?
    ensures var (ids, values) := TwoArrays(data).value;
      && Placed(data, 0, 64, ids) && Placed(data, 1, 96 + 32 * n, values)
      && |ids| == |values| == 64 * n && |data| == 256 + 128 * n && n == |ids| / 64
  {
    hide Placed, AllHex, DynamicWords;
    var ids := TwoArrays(data).value.0;
    n := |ids| / 64;
    DynamicWordsFacts(data, 0, 64);
    DynamicWordsFacts(data, 1, 96 + |ids| / 2);
    assert |ids| == 64 * n && |ids| / 2 == 32 * n;
  }

  lemma PlacedTogether(data: string, n: nat, ids: string, values: string)
    requires |ids| == |values| == 64 * n && |data| == 256 + 128 * n
    requires Placed(data, 0, 64, ids) && Placed(data, 1, 96 + 32 * n, values)
    ensures Layout(Lower(data), n, Lower(ids), Lower(values))
  {
    hide Hex, Lower;
    assert (96 + 32 * n) / 32 == 3 + n;
    SplitBatch(data, n, ids, values);
  }

  lemma LowerPrefix()
    ensures Lower("0x") == "0x"
  {
  }

  lemma SplitBatch(data: string, n: nat, ids: string, values: string)
    requires |data| == 256 + 128 * n && |ids| == 64 * n == |values|
    requires Lower(data[0..64]) == Word(64) && Lower(data[64..128]) == Word(96 + 32 * n)
    requires Lower(data[128..192]) == Word(n) && ids == data[192..192 + 64 * n]
    requires Lower(data[192 + 64 * n..256 + 64 * n]) == Word(n) && values == data[256 + 64 * n..256 + 128 * n]
    ensures Lower(data) == Word(64) + Word(96 + 32 * n) + Word(n) + Lower(ids) + Word(n) + Lower(values)
  {
    hide Hex, Lower;
    var a, b, c, d := data[0..64], data[64..128], data[128..192], data[192 + 64 * n..256 + 64 * n];
    assert data == a + b + c + ids + d + values;
    LowerConcat(a + b + c + ids + d, values);
    LowerConcat(a + b + c + ids, d);
    LowerConcat(a + b + c, ids);
    LowerConcat(a + b, c);
    LowerConcat(a, b);
  }

  lemma AcceptedTransfers(ids: string, values: string, ts: seq<Transfer>)
    requires |ids| == |values| && |ids| % 64 == 0 && AllHex(ids) && AllHex(values)
    requires Zipped(Words(ids), Words(values)) == Some(ts)
    ensures AreTransfers(ts) && |ts| == |ids| / 64
    ensures Joined(IdWords(ts)) == Lower(ids) && Joined(AmountWords(ts)) == Lower(values)
  {
    hide Hex, ValueOf, Joined, Words, Lower;
    var ws, vs := Words(ids), Words(values);
    ZippedExactly(ws, vs);
    forall i | 0 <= i < |ts|
      ensures IsTransfer(ts[i]) && ts[i].assetId[2..] == Lower(ws[i]) && Word(ts[i].amount) == Lower(vs[i])
    {
      ValueRoundTrip(vs[i]);
      AcceptedId(ws[i]);
    }
    assert AreTransfers(ts);
    LowerJoined(ws, IdWords(ts));
    LowerJoined(vs, AmountWords(ts));
    JoinedWords(ids);
    JoinedWords(values);
  }

  lemma AcceptedId(word: string)
    requires |word| == 64 && AllHex(word)
    ensures var id := "0x" + Lower(word);
      |id| == 66 && id[..2] == "0x" && id[2..] == Lower(word) && AllHex(id[2..]) && Lower(id) == id
  {
    LowerIsLower(word);
    LowerConcat("0x", Lower(word));
  }

  /** Two accepted payloads with the same result differ at most in hex case. */
  lemma DecodingIsInjective(one: string, two: string)
    requires BatchData(one).Some? && BatchData(one) == BatchData(two)
    ensures Lower(one) == Lower(two)
  {
    EncodeAfterDecode(one);
    EncodeAfterDecode(two);
  }

  // ----- exactly which logs are accepted

  lemma LowerHexIff(s: string)
    ensures AllHex(Lower(s)) <==> AllHex(s)
  {
    forall i | 0 <= i < |s| ensures IsHex(Lower(s)[i]) <==> IsHex(s[i]) {
    }
    if AllHex(Lower(s)) {
      forall i | 0 <= i < |s| ensures IsHex(s[i]) {
        assert IsHex(Lower(s)[i]);
      }
    }
  }

  lemma {:induction false} ValueIgnoresCase(s: string)
    requires AllHex(s)
    ensures AllHex(Lower(s)) && ValueOf(Lower(s)) == ValueOf(s)
    decreases |s|
  {
    LowerHexIff(s);
    if s != [] {
      var n := |s| - 1;
      ValueIgnoresCase(s[..n]);
      assert Lower(s)[..n] == Lower(s[..n]);
      assert DigitValue(LowerChar(s[n])) == DigitValue(s[n]);
    }
  }

  lemma WordIgnoresCase(data: string, index: nat)
    requires AllHex(data)
    ensures WordAt(data, index).Some? <==> WordAt(Lower(data), index).Some?
    ensures WordAt(data, index).Some? ==>
      var word := WordAt(data, index).value;
      AllHex(word) && WordAt(Lower(data), index) == Some(Lower(word)) && ValueOf(Lower(word)) == ValueOf(word)
  {
    if WordAt(data, index).Some? {
      var word := WordAt(data, index).value;
      HexSlice(data, index);
      ValueIgnoresCase(word);
      assert Lower(data)[64 * index..64 * index + 64] == Lower(word);
    }
  }

  function LowerOption(s: Option<string>): Option<string> {
    if s.Some? then Some(Lower(s.value)) else None
  }

  lemma DynamicIgnoresCase(data: string, offsetWord: nat, expectedOffset: nat)
    requires AllHex(data) && AllHex(Lower(data))
    ensures DynamicWords(Lower(data), offsetWord, expectedOffset)
         == LowerOption(DynamicWords(data, offsetWord, expectedOffset))
  {
    hide ValueOf, Lower, AllHex;
    WordIgnoresCase(data, offsetWord);
    WordIgnoresCase(data, expectedOffset / 32);
    var r := DynamicWords(data, offsetWord, expectedOffset);
    if r.Some? {
      var start := 64 * (expectedOffset / 32 + 1);
      LowerSlice(data, start, start + |r.value|);
    }
  }

  lemma LowerSlice(s: string, i: nat, j: nat)
    requires i <= j <= |s|
    ensures Lower(s)[i..j] == Lower(s[i..j])
  {
  }

  lemma {:induction false} WordsIgnoreCase(s: string)
    requires |s| % 64 == 0
    ensures |Words(Lower(s))| == |Words(s)|
    ensures forall i :: 0 <= i < |Words(s)| ==> Words(Lower(s))[i] == Lower(Words(s)[i])
    decreases |s|
  {
    if s != [] {
      LowerSlice(s, 64, |s|);
      LowerSlice(s, 0, 64);
      assert Lower(s)[..64] == Lower(s)[0..64] && s[..64] == s[0..64];
      assert Lower(s)[64..] == Lower(s)[64..|s|] && s[64..] == s[64..|s|];
      WordsIgnoreCase(s[64..]);
    }
  }

  /** The case of hex digits never matters. */
  lemma BatchIgnoresCase(value: string)
    requires |value| >= 2 && value[..2] == "0x"
    ensures BatchData(Lower(value)) == BatchData(value)
  {
    hide ValueOf, Lower, AllHex, TwoArrays, Zipped, Words;
    var data := value[2..];
    assert Lower(value)[..2] == "0x" && Lower(value)[2..] == Lower(data) by { LowerAfterPrefix(value); }
    LowerHexIff(data);
    if AbiData(value).Some? {
      ArraysIgnoreCase(data);
      if TwoArrays(data).Some? {
        var (ids, values) := TwoArrays(data).value;
        ZippedIgnoresCase(ids, values);
      }
    }
  }

  lemma LowerAfterPrefix(value: string)
    requires |value| >= 2 && value[..2] == "0x"
    ensures Lower(value)[..2] == "0x" && Lower(value)[2..] == Lower(value[2..])
  {
    assert value == "0x" + value[2..];
    LowerConcat("0x", value[2..]);
    LowerPrefix();
  }

  lemma ArraysIgnoreCase(data: string)
    requires AllHex(data) && AllHex(Lower(data))
    ensures TwoArrays(data).None? ==> TwoArrays(Lower(data)).None?
    ensures TwoArrays(data).Some? ==>
      TwoArrays(Lower(data)) == Some((Lower(TwoArrays(data).value.0), Lower(TwoArrays(data).value.1)))
  {
    hide DynamicWords, Lower, AllHex;
    DynamicIgnoresCase(data, 0, 64);
    var ids := DynamicWords(data, 0, 64);
    if ids.Some? {
      DynamicIgnoresCase(data, 1, 96 + |ids.value| / 2);
    }
  }

  lemma ZippedIgnoresCase(ids: string, values: string)
    requires |ids| == |values| && |ids| % 64 == 0
    requires AllHex(ids) && AllHex(values) && AllHex(Lower(ids)) && AllHex(Lower(values))
    ensures Zipped(Words(Lower(ids)), Words(Lower(values))) == Zipped(Words(ids), Words(values))
  {
    hide ValueOf, Lower, AllHex, Words, Zipped;
    var ws, vs := Words(ids), Words(values);
    var lws, lvs := Words(Lower(ids)), Words(Lower(values));
    WordsIgnoreCase(ids);
    WordsIgnoreCase(values);
    ZippedExactly(ws, vs);
    ZippedExactly(lws, lvs);
    forall i | 0 <= i < |ws|
      ensures Lower(lws[i]) == Lower(ws[i]) && ValueOf(lvs[i]) == ValueOf(vs[i])
    {
      LowerIsLower(ws[i]);
      ValueIgnoresCase(vs[i]);
    }
    var one, two := Zipped(ws, vs), Zipped(lws, lvs);
    if one.Some? {
      assert two.Some?;
      assert one.value == two.value;
    }
  }

  /** The data of a log is read as `ts` exactly when it spells the canonical encoding of `ts`, in either case. */
  lemma AcceptedIff(value: string, ts: seq<Transfer>)
    requires |value| <= USIZE_MAX
    ensures BatchData(value) == Some(ts) <==>
      (AreTransfers(ts) && |value| >= 2 && value[..2] == "0x" && Lower(value) == Encoded(ts))
  {
    hide BatchData, Lower, Encoded;
    if BatchData(value) == Some(ts) {
      AcceptedPrefix(value);
      EncodeAfterDecode(value);
    }
    if AreTransfers(ts) && |value| >= 2 && value[..2] == "0x" && Lower(value) == Encoded(ts) {
      EncodedLength(ts);
      BatchIgnoresCase(value);
      DecodeAfterEncode(ts);
    }
  }

  lemma AcceptedPrefix(value: string)
    requires BatchData(value).Some?
    ensures |value| >= 2 && value[..2] == "0x"
  {
  }

  lemma EncodedLength(ts: seq<Transfer>)
    requires AreTransfers(ts)
    ensures |Encoded(ts)| == 258 + 128 * |ts|
  {
    hide Hex, Joined;
    forall i | 0 <= i < |ts| ensures |IdWords(ts)[i]| == 64 {
      assert ts[i] in ts;
    }
    WordsOfJoined(IdWords(ts));
    WordsOfJoined(AmountWords(ts));
  }

  // ----- addresses in topics

  predicate IsAddress(a: string) {
    |a| == 42 && a[..2] == "0x" && AllHex(a[2..]) && Lower(a) == a
  }

  function TopicOf(a: string): string
    requires IsAddress(a)
  {
    "0x" + seq(24, _ => '0') + a[2..]
  }

  lemma TopicIff(topic: string, a: string)
    ensures TopicAddress(topic) == Some(a) <==>
      (IsAddress(a) && |topic| >= 2 && topic[..2] == "0x" && Lower(topic) == TopicOf(a))
  {
    if TopicAddress(topic) == Some(a) {
      ReadTopic(topic);
    }
    if IsAddress(a) && |topic| >= 2 && topic[..2] == "0x" && Lower(topic) == TopicOf(a) {
      WriteTopic(topic, a);
    }
  }

  lemma ReadTopic(topic: string)
    requires TopicAddress(topic).Some?
    ensures var a := TopicAddress(topic).value;
      IsAddress(a) && |topic| >= 2 && topic[..2] == "0x" && Lower(topic) == TopicOf(a)
  {
    var a := TopicAddress(topic).value;
    var tail := topic[26..];
    assert topic[2..][24..] == tail;
    LowerIsLower(tail);
    LowerConcat("0x", Lower(tail));
    LowerPrefix();
    assert a[2..] == Lower(tail);
    forall i | 0 <= i < 66 ensures Lower(topic)[i] == TopicOf(a)[i] {
      if i < 2 {
        assert topic[i] == topic[..2][i];
      } else if i < 26 {
        assert topic[2..][i - 2] == '0';
      } else {
        assert TopicOf(a)[i] == a[i - 24] == LowerChar(topic[i]);
      }
    }
  }

  lemma WriteTopic(topic: string, a: string)
    requires IsAddress(a) && |topic| >= 2 && topic[..2] == "0x" && Lower(topic) == TopicOf(a)
    ensures TopicAddress(topic) == Some(a)
  {
    var word := topic[2..];
    assert |topic| == |Lower(topic)| == 66;
    forall i | 0 <= i < 24 ensures word[i] == '0' {
      assert Lower(topic)[i + 2] == TopicOf(a)[i + 2] == '0';
    }
    forall i | 24 <= i < 64 ensures LowerChar(word[i]) == a[i - 22] && IsHex(word[i]) {
      assert Lower(topic)[i + 2] == TopicOf(a)[i + 2] == a[2..][i - 24];
      assert IsHex(a[2..][i - 24]);
    }
    assert AllHex(word);
    assert word[24..] == topic[26..];
    assert a == "0x" + Lower(word[24..]);
  }

  /** Which batch logs are accepted, and what they are read as. */
  lemma BatchLogIff(topics: seq<string>, data: string, batch: Batch)
    requires |data| <= USIZE_MAX
    ensures DecodeBatch(topics, data) == Some(batch) <==>
      && |topics| == 4
      && TopicAddress(topics[1]).Some?
      && Spells(topics[2], batch.from)
      && Spells(topics[3], batch.to)
      && AreTransfers(batch.transfers)
      && |data| >= 2 && data[..2] == "0x" && Lower(data) == Encoded(batch.transfers)
  {
    hide BatchData, TopicAddress, Encoded, Lower, AreTransfers;
    AcceptedIff(data, batch.transfers);
    if |topics| == 4 {
      TopicIff(topics[2], batch.from);
      TopicIff(topics[3], batch.to);
    }
  }

  ghost predicate Spells(topic: string, a: string) {
    IsAddress(a) && |topic| >= 2 && topic[..2] == "0x" && Lower(topic) == TopicOf(a)
  }

  // ----- position splits and merges

  /** The amount of a position change whose partition array closes the data. */
  function PositionData(value: string, collateral: string): Option<nat> {
    match AbiData(value)
    case None => None
    case Some(data) =>
      match WordAt(data, 0)
      case None => None
      case Some(token) =>
        if AddressOf(token) != Some(collateral) then None
        else
          match DynamicWords(data, 1, 96)
          case None => None
          case Some(partition) =>
            if |data| != 256 + |partition| then None else ParseDecimal(data[128..192])
  }

  /** An accepted position change: a padded address, offset 96, the amount and one array of whole words. */
  ghost predicate PositionLayout(data: string, collateral: string, amount: nat, partition: string) {
    IsAddress(collateral) && |partition| % 64 == 0 && amount <= DECIMAL_MAX &&
    data == TopicOf(collateral)[2..] + Word(96) + Word(amount) + Word(|partition| / 64) + partition
  }

  lemma PositionIsCanonical(value: string, collateral: string)
    requires PositionData(value, collateral).Some?
    ensures var amount := PositionData(value, collateral).value;
      PositionLayout(Lower(value[2..]), collateral, amount, Lower(value[258..]))
  {
    hide Hex, ValueOf, DynamicWords, Lower, AllHex, Zipped;
    var data := value[2..];
    var token := data[0..64];
    var partition := DynamicWords(data, 1, 96).value;
    DynamicWordsFacts(data, 1, 96);
    assert partition == data[256..256 + |partition|] == value[258..];
    HexSlice(data, 0);
    HexSlice(data, 2);
    ValueRoundTrip(data[128..192]);
    CollateralTopic(token);
    SplitPosition(data);
  }

  lemma CollateralTopic(token: string)
    requires |token| == 64 && AllHex(token) && AddressOf(token).Some?
    ensures IsAddress(AddressOf(token).value) && Lower(token) == TopicOf(AddressOf(token).value)[2..]
  {
    var topic := "0x" + token;
    assert topic[2..] == token && topic[..2] == "0x";
    ReadTopic(topic);
    LowerAfterPrefix(topic);
  }

  lemma SplitPosition(data: string)
    requires |data| >= 256
    ensures Lower(data) == Lower(data[0..64]) + Lower(data[64..128]) + Lower(data[128..192]) + Lower(data[192..256])
                         + Lower(data[256..])
  {
    assert data == data[0..64] + data[64..128] + data[128..192] + data[192..256] + data[256..];
  }

  /** A position change is accepted exactly when it has that one layout, in either case. */
  lemma PositionIff(value: string, collateral: string, amount: nat)
    requires |value| <= USIZE_MAX
    ensures PositionData(value, collateral) == Some(amount) <==>
      && |value| >= 258 && value[..2] == "0x"
      && AllHex(value[2..])
      && PositionLayout(Lower(value[2..]), collateral, amount, Lower(value[258..]))
  {
    hide PositionLayout, Lower;
    if PositionData(value, collateral) == Some(amount) {
      PositionIsCanonical(value, collateral);
    }
    if |value| >= 258 && value[..2] == "0x" && AllHex(value[2..]) &&
       PositionLayout(Lower(value[2..]), collateral, amount, Lower(value[258..])) {
      PositionDecodes(value[2..], collateral, amount);
      assert value[2..][256..] == value[258..];
      hide PositionData;
      PositionFromData(value, collateral, amount);
    }
  }

  lemma PositionSlices(data: string, collateral: string, amount: nat, partition: string)
    requires PositionLayout(data, collateral, amount, partition)
    ensures |data| == 256 + |partition| && data[0..64] == TopicOf(collateral)[2..] && data[64..128] == Word(96)
    ensures data[128..192] == Word(amount) && data[192..256] == Word(|partition| / 64)
    ensures data[256..256 + |partition|] == partition
  {
    hide Hex;
  }

  ghost predicate PositionParts(data: string, collateral: string, amount: nat) {
    && |data| >= 256 && |data| % 64 == 0 && AllHex(data)
    && AddressOf(data[0..64]) == Some(collateral)
    && DynamicWords(data, 1, 96) == Some(data[256..])
    && ParseDecimal(data[128..192]) == Some(amount)
  }

  lemma PositionFromData(value: string, collateral: string, amount: nat)
    requires |value| >= 2 && value[..2] == "0x" && PositionParts(value[2..], collateral, amount)
    ensures PositionData(value, collateral) == Some(amount)
  {
    hide DynamicWords, AddressOf, ParseDecimal;
  }

  lemma PositionDecodes(data: string, collateral: string, amount: nat)
    requires AllHex(data) && 256 <= |data| <= USIZE_MAX
    requires PositionLayout(Lower(data), collateral, amount, Lower(data[256..]))
    ensures PositionParts(data, collateral, amount)
  {
    hide Hex, ValueOf, Lower, AllHex, PositionLayout, DynamicWords;
    var n := (|data| - 256) / 64;
    PositionSlices(Lower(data), collateral, amount, Lower(data[256..]));
    PositionWhole(data, collateral, amount);
    LowerSlice(data, 0, 64);
    LowerSlice(data, 128, 192);
    LowerSlice(data, 192, 256);
    HexSlice(data, 0);
    HexSlice(data, 1);
    HexSlice(data, 2);
    HexSlice(data, 3);
    ReadBack(data[128..192], amount);
    ReadBack(data[192..256], n);
    LowerSlice(data, 64, 128);
    ReadBack(data[64..128], 96);
    ReadArray(data, n);
    CollateralBack(data[0..64], collateral);
  }

  lemma PositionWhole(data: string, collateral: string, amount: nat)
    requires |data| >= 256 && PositionLayout(Lower(data), collateral, amount, Lower(data[256..]))
    ensures |data| % 64 == 0 && IsAddress(collateral) && amount <= DECIMAL_MAX
  {
    hide Hex, Lower, IsAddress, AllHex;
    var rest := Lower(data[256..]);
    assert |rest| == |data| - 256 && |rest| % 64 == 0;
  }

  lemma ReadBack(word: string, n: nat)
    requires |word| == 64 && AllHex(word) && Lower(word) == Word(n) && (n <= DECIMAL_MAX || n <= USIZE_MAX)
    ensures ValueOf(word) == n
  {
    hide Hex, ValueOf, Lower;
    ValueIgnoresCase(word);
    WordRoundTrip(n);
  }

  lemma ReadArray(data: string, n: nat)
    requires AllHex(data) && |data| == 256 + 64 * n <= USIZE_MAX
    requires AllHex(data[64..128]) && ValueOf(data[64..128]) == 96
    requires AllHex(data[192..256]) && ValueOf(data[192..256]) == n
    ensures DynamicWords(data, 1, 96) == Some(data[256..])
  {
    hide ValueOf, AllHex;
    assert WordAt(data, 1) == Some(data[64..128]) && WordAt(data, 3) == Some(data[192..256]);
    assert data[256..] == data[256..256 + 64 * n];
  }

  lemma CollateralBack(token: string, a: string)
    requires |token| == 64 && IsAddress(a) && Lower(token) == TopicOf(a)[2..]
    ensures AddressOf(token) == Some(a)
  {
    var topic := "0x" + token;
    assert topic[2..] == token && topic[..2] == "0x";
    LowerAfterPrefix(topic);
    assert TopicOf(a)[..2] == "0x";
    assert Lower(topic) == Lower(topic)[..2] + Lower(topic)[2..];
    assert TopicOf(a) == TopicOf(a)[..2] + TopicOf(a)[2..];
    WriteTopic(topic, a);
  }

  datatype PositionChange = PositionChange(stakeholder: string, conditionId: string, amount: nat)

  /** A split or merge: the stakeholder and the condition from the topics, the amount from the data. */
  function DecodePosition(topics: seq<string>, data: string, collateral: string): Option<PositionChange> {
    if |topics| != 4 then None
    else
      match (TopicAddress(topics[1]), AbiWord(topics[2]), AbiWord(topics[3]))
      case (Some(stakeholder), Some(_), Some(condition)) =>
        (match PositionData(data, collateral)
         case None => None
         case Some(amount) => Some(PositionChange(stakeholder, "0x" + Lower(condition), amount)))
      case _ => None
  }

  predicate IsWordText(topic: string) {
    |topic| == 66 && topic[..2] == "0x" && AllHex(topic[2..])
  }

  /** Which position-change logs are accepted, and what they are read as. */
  lemma PositionLogIff(topics: seq<string>, data: string, collateral: string, change: PositionChange)
    requires |data| <= USIZE_MAX
    ensures DecodePosition(topics, data, collateral) == Some(change) <==>
      && |topics| == 4
      && Spells(topics[1], change.stakeholder)
      && IsWordText(topics[2])
      && IsWordText(topics[3]) && change.conditionId == Lower(topics[3])
      && |data| >= 258 && data[..2] == "0x"
      && AllHex(data[2..])
      && PositionLayout(Lower(data[2..]), collateral, change.amount, Lower(data[258..]))
  {
    hide PositionData, TopicAddress, Lower, PositionLayout, AllHex;
    PositionIff(data, collateral, change.amount);
    if |topics| == 4 {
      TopicIff(topics[1], change.stakeholder);
      if IsWordText(topics[3]) {
        LowerAfterPrefix(topics[3]);
        assert Lower(topics[3]) == "0x" + Lower(topics[3][2..]);
      }
    }
  }
}
