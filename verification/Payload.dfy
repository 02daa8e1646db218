/** Request payloads of the TCP and UDP connectors: hex text or number lists in, hex text and numbers out. */
module Payload {
  import opened Text
  import opened Wrappers

  type Byte = b: int | 0 <= b < 256

  /** One element of a decoded JSON array. `int` and `int64` elements are both an `IntItem`. */
  datatype Item = IntItem(i: int) | FloatItem(f: real) | NumberItem(parsed: Option<int>) | OtherItem

  /** The dynamic types `DecodeData` distinguishes. */
  datatype Data =
    | Missing
    | HexText(text: string)
    | RawBytes(bytes: seq<Byte>)
    | Items(items: seq<Item>)
    | Ints(ints: seq<int>)
    | Floats(floats: seq<real>)
    | OtherData

  predicate IsHexDigit(c: char)
  {
    '0' <= c <= '9' || 'a' <= c <= 'f' || 'A' <= c <= 'F'
  }

  predicate AllHex(s: string)
  {
    forall i | 0 <= i < |s| :: IsHexDigit(s[i])
  }

  function DigitValue(c: char): (n: int)
    requires IsHexDigit(c)
    ensures 0 <= n < 16
  {
    if c <= '9' then c as int - '0' as int
    else if c <= 'F' then c as int - 'A' as int + 10
    else c as int - 'a' as int + 10
  }

  function Digit(n: int): (c: char)
    requires 0 <= n < 16
    ensures IsHexDigit(c) && DigitValue(c) == n && LowerChar(c) == c
  {
    if n < 10 then (n + '0' as int) as char else (n - 10 + 'a' as int) as char
  }

  /** hex.EncodeToString, which is BytesToHex. */
  function BytesToHex(bytes: seq<Byte>): (text: string)
    ensures |text| == 2 * |bytes|
    ensures AllHex(text)
  {
    if bytes == [] then "" else [Digit(bytes[0] / 16), Digit(bytes[0] % 16)] + BytesToHex(bytes[1..])
  }

  /** hex.DecodeString */
  function HexDecode(s: string): Option<seq<Byte>>
  {
    if s == "" then Some([])
    else if |s| == 1 || !IsHexDigit(s[0]) || !IsHexDigit(s[1]) then None
    else
      match HexDecode(s[2..])
      case None => None
      case Some(rest) => Some([16 * DigitValue(s[0]) + DigitValue(s[1])] + rest)
  }

  /** What is left of a hex text once it is trimmed and its separators are dropped. */
  function HexCore(text: string): string
  {
    ReplaceAll(ReplaceAll(ReplaceAll(TrimSpace(text), ' ', ""), ':', ""), '-', "")
  }

  predicate InByteRange(n: int)
  {
    0 <= n <= 255
  }

  predicate IsWholeByte(f: real)
  {
    f == f.Floor as real && 0.0 <= f <= 255.0
  }

  predicate ItemIsByte(item: Item)
  {
    match item
    case IntItem(i) => InByteRange(i)
    case FloatItem(f) => IsWholeByte(f)
    case NumberItem(Some(i)) => InByteRange(i)
    case NumberItem(None) => false
    case OtherItem => false
  }

  function ItemNumber(item: Item): int
    requires ItemIsByte(item)
  {
    match item
    case IntItem(i) => i
    case FloatItem(f) => f.Floor
    case NumberItem(Some(i)) => i
  }

  function ToByte(item: Item): (r: Result<Byte>)
    ensures r.Ok? <==> ItemIsByte(item)
    ensures r.Ok? ==> r.value == ItemNumber(item)
  {
    match item
    case IntItem(i) => if i < 0 || i > 255 then Err else Ok(i)
    case FloatItem(f) =>
      if f != f.Floor as real || f < 0.0 || f > 255.0 then Err else Ok(f.Floor)
    case NumberItem(parsed) =>
      if parsed.None? || parsed.value < 0 || parsed.value > 255 then Err else Ok(parsed.value)
    case OtherItem => Err
  }

  method IntsFromAny(items: seq<Item>) returns (r: Result<seq<Byte>>)
    ensures r.Ok? <==> items != [] && forall item | item in items :: ItemIsByte(item)
    ensures r.Ok? ==> |r.value| == |items| && forall k | 0 <= k < |items| :: r.value[k] == ItemNumber(items[k])
  {
    if |items| == 0 {
      return Err;
    }
    var out := new Byte[|items|];
    for i := 0 to |items|
      invariant forall k | 0 <= k < i :: ItemIsByte(items[k]) && out[k] == ItemNumber(items[k])
    {
      var n := ToByte(items[i]);
      if n.Err? {
        return Err;
      }
      out[i] := n.value;
    }
    return Ok(out[..]);
  }

  /** The answer for a list of numbers. */
  predicate IsIntsAnswer(ints: seq<int>, r: Result<seq<Byte>>)
  {
    (r.Ok? <==> ints != [] && forall n | n in ints :: InByteRange(n)) && (r.Ok? ==> r.value == ints)
  }

  method DecodeInts(ints: seq<int>) returns (r: Result<seq<Byte>>)
    ensures IsIntsAnswer(ints, r)
  {
    var out := new Byte[|ints|];
    for i := 0 to |ints|
      invariant forall k | 0 <= k < i :: InByteRange(ints[k]) && out[k] == ints[k]
    {
      if ints[i] < 0 || ints[i] > 255 {
        assert !InByteRange(ints[i]) && ints[i] in ints;
        return Err;
      }
      out[i] := ints[i];
    }
    if out.Length == 0 {
      return Err;
    }
    return Ok(out[..]);
  }

  method DecodeFloats(floats: seq<real>) returns (r: Result<seq<Byte>>)
    ensures r.Ok? <==> floats != [] && forall f | f in floats :: IsWholeByte(f)
    ensures r.Ok? ==> |r.value| == |floats| && forall k | 0 <= k < |floats| :: r.value[k] as real == floats[k]
  {
    var out := new Byte[|floats|];
    for i := 0 to |floats|
      invariant forall k | 0 <= k < i :: IsWholeByte(floats[k]) && out[k] as real == floats[k]
    {
      var f := floats[i];
      if f != f.Floor as real || f < 0.0 || f > 255.0 {
        assert !IsWholeByte(f) && f in floats;
        return Err;
      }
      out[i] := f.Floor;
    }
    if out.Length == 0 {
      return Err;
    }
    return Ok(out[..]);
  }

  /** BytesToInts: the numbers are the bytes, one for one. */
  method BytesToInts(bytes: seq<Byte>) returns (ints: seq<int>)
    ensures ints == bytes
  {
    var out := new int[|bytes|];
    for i := 0 to |bytes|
      invariant forall k | 0 <= k < i :: out[k] == bytes[k]
    {
      out[i] := bytes[i];
    }
    ints := out[..];
  }

  function DecodeCore(core: string): Result<seq<Byte>>
  {
    if |core| % 2 != 0 then Err
    else
      match HexDecode(core)
      case None => Err
      case Some(bytes) => if bytes == [] then Err else Ok(bytes)
  }

  /** The hex branch of DecodeData. */
  function DecodeText(text: string): Result<seq<Byte>>
  {
    if TrimSpace(text) == "" then Err else DecodeCore(HexCore(text))
  }

  /** Whatever DecodeData accepts carries at least one byte. */
  method DecodeData(data: Data) returns (r: Result<seq<Byte>>)
    ensures r.Ok? ==> r.value != []
    ensures data.HexText? ==> r == DecodeText(data.text)
    ensures data.RawBytes? && data.bytes != [] ==> r == Ok(data.bytes)
    ensures data.Ints? ==> IsIntsAnswer(data.ints, r)
    ensures data.Items? ==> (r.Ok? <==> data.items != [] && forall item | item in data.items :: ItemIsByte(item))
    ensures data.Items? && r.Ok? ==>
              |r.value| == |data.items| && forall k | 0 <= k < |data.items| :: r.value[k] == ItemNumber(data.items[k])
    ensures data.Floats? ==> (r.Ok? <==> data.floats != [] && forall f | f in data.floats :: IsWholeByte(f))
    ensures data.Floats? && r.Ok? ==>
              |r.value| == |data.floats| && forall k | 0 <= k < |data.floats| :: r.value[k] as real == data.floats[k]
    ensures data.Missing? || data.OtherData? ==> r.Err?
  {
    match data {
      case Missing => r := Err;
      case HexText(text) => r := DecodeText(text);
      case RawBytes(bytes) => r := if bytes == [] then Err else Ok(bytes);
      case Items(items) => r := IntsFromAny(items);
      case Ints(ints) => r := DecodeInts(ints);
      case Floats(floats) => r := DecodeFloats(floats);
      case OtherData => r := Err;
    }
  }

  /** The numbers of a non-empty payload decode to that payload and to nothing else. */
  lemma IntsRoundTrip(bytes: seq<Byte>, r: Result<seq<Byte>>)
    requires bytes != []
    ensures IsIntsAnswer(bytes, r) <==> r == Ok(bytes)
  {
  }

  /** Hex decoding succeeds exactly on even runs of hex digits. */
  lemma {:induction false} HexDecodeAccepts(s: string)
    ensures HexDecode(s).Some? <==> |s| % 2 == 0 && AllHex(s)
    ensures HexDecode(s).Some? ==> 2 * |HexDecode(s).value| == |s|
  {
    if |s| >= 2 {
      HexDecodeAccepts(s[2..]);
      assert forall i | 2 <= i < |s| :: s[i] == s[2..][i - 2];
    }
  }

  lemma DigitsOfByte(high: char, low: char)
    requires IsHexDigit(high) && IsHexDigit(low)
    ensures var b := 16 * DigitValue(high) + DigitValue(low);
            Digit(b / 16) == LowerChar(high) && Digit(b % 16) == LowerChar(low)
  {
    var b := 16 * DigitValue(high) + DigitValue(low);
    assert b / 16 == DigitValue(high) && b % 16 == DigitValue(low);
  }

  /** Encoding what was decoded gives the text back in lower case. */
  lemma {:induction false} HexDecodeThenEncode(s: string)
    requires HexDecode(s).Some?
    ensures BytesToHex(HexDecode(s).value) == ToLower(s)
  {
    if s != "" {
      HexDecodeThenEncode(s[2..]);
      assert ToLower(s) == [LowerChar(s[0]), LowerChar(s[1])] + ToLower(s[2..]);
      DigitsOfByte(s[0], s[1]);
    }
  }

  lemma DecodeTwoDigits(high: int, low: int, rest: string)
    requires 0 <= high < 16 && 0 <= low < 16
    ensures HexDecode([Digit(high), Digit(low)] + rest)
         == match HexDecode(rest) case None => None case Some(bytes) => Some([16 * high + low] + bytes)
  {
    var text := [Digit(high), Digit(low)] + rest;
    assert text[2..] == rest;
  }

  /** Decoding undoes encoding. */
  lemma {:induction false} HexRoundTrip(bytes: seq<Byte>)
    ensures HexDecode(BytesToHex(bytes)) == Some(bytes)
  {
    if bytes != [] {
      var high, low := bytes[0] / 16, bytes[0] % 16;
      HexRoundTrip(bytes[1..]);
      DecodeTwoDigits(high, low, BytesToHex(bytes[1..]));
      assert 16 * high + low == bytes[0];
      assert bytes == [bytes[0]] + bytes[1..];
    }
  }

  lemma HexDigitsAreCore(s: string)
    requires AllHex(s)
    ensures HexCore(s) == s && TrimSpace(s) == s
  {
    TrimNoop(s, IsSpace);
    ReplaceNoop(s, ' ', "");
    ReplaceNoop(s, ':', "");
    ReplaceNoop(s, '-', "");
  }

  lemma HexTextIsCore(text: string)
    requires AllHex(text) && text != ""
    ensures DecodeText(text) == DecodeCore(text)
  {
    HexDigitsAreCore(text);
  }

  lemma CoreRoundTrip(bytes: seq<Byte>)
    requires bytes != []
    ensures DecodeCore(BytesToHex(bytes)) == Ok(bytes)
  {
    HexRoundTrip(bytes);
    HexDecodeAccepts(BytesToHex(bytes));
    DecodedCore(BytesToHex(bytes), bytes);
  }

  lemma DecodedCore(core: string, bytes: seq<Byte>)
    requires |core| % 2 == 0 && HexDecode(core) == Some(bytes) && bytes != []
    ensures DecodeCore(core) == Ok(bytes)
  {
  }

  /** Every non-empty payload survives the trip through its own hex text. */
  lemma PayloadRoundTrip(bytes: seq<Byte>)
    requires bytes != []
    ensures DecodeText(BytesToHex(bytes)) == Ok(bytes)
  {
    CoreRoundTrip(bytes);
    HexTextIsCore(BytesToHex(bytes));
  }

  /**
   * A text is accepted exactly when its core is a non-empty even run of hex digits, and then the
   * accepted bytes print as that core in lower case.
   */
  lemma TextAcceptedExactly(text: string)
    ensures var core := HexCore(text);
            && (DecodeText(text).Ok? <==> core != "" && |core| % 2 == 0 && AllHex(core))
            && (DecodeText(text).Ok? ==> BytesToHex(DecodeText(text).value) == ToLower(core))
  {
    var core := HexCore(text);
    HexDecodeAccepts(core);
    if HexDecode(core).Some? {
      HexDecodeThenEncode(core);
    }
    if TrimSpace(text) == "" {
      ReplaceNoop("", ' ', "");
    }
  }

  // ---------- The text of a payload ----------

  const HEX_DIGITS := "0123456789abcdef"

  /** Byte by byte, the digit of the high half and then that of the low half. */
  lemma {:induction false} HexAt(bytes: seq<Byte>, i: nat)
    requires i < |bytes|
    ensures BytesToHex(bytes)[2 * i] == HEX_DIGITS[bytes[i] / 16]
    ensures BytesToHex(bytes)[2 * i + 1] == HEX_DIGITS[bytes[i] % 16]
  {
    if i == 0 {
      DigitMeans(bytes[0] / 16);
      DigitMeans(bytes[0] % 16);
    } else {
      HexAt(bytes[1..], i - 1);
      assert BytesToHex(bytes)[2 * i] == BytesToHex(bytes[1..])[2 * (i - 1)];
      assert BytesToHex(bytes)[2 * i + 1] == BytesToHex(bytes[1..])[2 * (i - 1) + 1];
    }
  }

  lemma DigitMeans(n: nat)
    requires n < 16
    ensures Digit(n) == HEX_DIGITS[n]
  {
  }

  predicate IsSeparator(c: char)
  {
    c in " :-"
  }

  /** Exactly the spaces, colons and dashes of the trimmed text are dropped, and the rest keeps its order. */
  lemma HexCoreKeeps(text: string)
    ensures HexCore(text) == Keep(TrimSpace(text), c => !IsSeparator(c))
  {
    var t := TrimSpace(text);
    ReplaceDrops(t, ' ');
    ReplaceDrops(Keep(t, x => x != ' '), ':');
    KeepTwice(t, x => x != ' ', x => x != ':', x => x != ' ' && x != ':');
    ReplaceDrops(Keep(t, x => x != ' ' && x != ':'), '-');
    KeepTwice(t, x => x != ' ' && x != ':', x => x != '-', c => !IsSeparator(c));
  }

  /** A byte is decoded from whichever kind of number carries it. */
  lemma ItemRoundTrip(b: Byte)
    ensures ToByte(IntItem(b)) == Ok(b)
    ensures ToByte(FloatItem(b as real)) == Ok(b)
    ensures ToByte(NumberItem(Some(b))) == Ok(b)
  {
  }

  /** Nothing else is: an item is accepted only if it is one of the three forms of the byte it decodes to. */
  lemma ItemIsOfByte(item: Item)
    ensures ToByte(item).Ok? ==> var b := ToByte(item).value;
              item == IntItem(b) || item == FloatItem(b as real) || item == NumberItem(Some(b))
  {
  }
}
