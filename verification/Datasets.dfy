// Thread operational datasets (src/matter/thread-datasets.js): cleaning a pasted hex string and
// decoding the type-length-value list it stands for.

module Datasets {
  import opened Text

  type Byte = x: int | 0 <= x < 256

  type Bytes = seq<Byte>

  // ---------------------------------------------------------------------------
  // The hex text
  // ---------------------------------------------------------------------------

  function HexValue(c: char): (v: Option<nat>)
    ensures v.Some? ==> v.value < 16
  {
    if '0' <= c <= '9' then Some(c as int - '0' as int)
    else if 'a' <= c <= 'f' then Some(c as int - 'a' as int + 10)
    else if 'A' <= c <= 'F' then Some(c as int - 'A' as int + 10)
    else None
  }

  predicate IsHex(c: char) { HexValue(c).Some? }

  predicate AllHex(s: string) { forall i :: 0 <= i < |s| ==> IsHex(s[i]) }

  predicate IsSeparator(c: char) { IsSpace(c) || c == ':' || c == '-' }

  function WithoutPrefix(s: string): string {
    if |s| >= 2 && s[0] == '0' && (s[1] == 'x' || s[1] == 'X') then s[2..] else s
  }

  function WithoutSeparators(s: string): string {
    if s == "" then "" else (if IsSeparator(s[0]) then "" else [s[0]]) + WithoutSeparators(s[1..])
  }

  function LowerChar(c: char): char { if 'A' <= c <= 'F' then c - 'A' + 'a' else c }

  function LowerHex(s: string): string {
    if s == "" then "" else [LowerChar(s[0])] + LowerHex(s[1..])
  }

  /** Hex with or without `0x`, white space, colons and dashes; at least four bytes. */
  function Normalise(input: string): Option<string> {
    var s := WithoutSeparators(WithoutPrefix(Trim(input)));
    if !AllHex(s) || |s| % 2 != 0 || |s| < 8 then None else Some(LowerHex(s))
  }

  function HexByte(high: char, low: char): Byte
    requires IsHex(high) && IsHex(low)
  {
    HexValue(high).value * 16 + HexValue(low).value
  }

  /** `Buffer.from(s, 'hex')` */
  function FromHex(s: string): Bytes
    requires AllHex(s) && |s| % 2 == 0
    decreases |s|
  {
    if s == "" then [] else [HexByte(s[0], s[1])] + FromHex(s[2..])
  }

  const HEX_DIGITS := "0123456789abcdef"

  function HexDigit(n: nat): char
    requires n < 16
  {
    HEX_DIGITS[n]
  }

  function ToHex(bytes: Bytes): string {
    if bytes == [] then "" else [HexDigit(bytes[0] / 16), HexDigit(bytes[0] % 16)] + ToHex(bytes[1..])
  }

  // ---------------------------------------------------------------------------
  // Type, length, value
  // ---------------------------------------------------------------------------

  /** A length below 255 takes one byte; 255 announces a two-byte length, whatever the length is. */
  datatype Tlv = Tlv(kind: Byte, value: Bytes, extended: bool)

  predicate Encodable(t: Tlv) { if t.extended then |t.value| < 0x1_0000 else |t.value| < 255 }

  predicate AllEncodable(list: seq<Tlv>) { forall i :: 0 <= i < |list| ==> Encodable(list[i]) }

  function EncodeOne(t: Tlv): Bytes
    requires Encodable(t)
  {
    [t.kind] + (if t.extended then [255, |t.value| / 256, |t.value| % 256] else [|t.value|]) + t.value
  }

  function Encode(list: seq<Tlv>): Bytes
    requires AllEncodable(list)
  {
    if list == [] then [] else EncodeOne(list[0]) + Encode(list[1..])
  }

  datatype Error =
    | NotHexText
    | TruncatedTlv(offset: nat)
    | TruncatedLength(offset: nat)
    | TruncatedValue(offset: nat)
    | NoExtPanId

  datatype Result<+T> = Success(value: T) | Failure(error: Error)

  /** Two bytes, the high one first. */
  function Both(high: Byte, low: Byte): (n: nat)
    ensures n < 0x1_0000 && n / 256 == high && n % 256 == low
  {
    (high as int) * 256 + (low as int)
  }

  /** The TLV at an offset, and where the next one starts. */
  function ReadOne(buf: Bytes, i: nat): (r: Result<(Tlv, nat)>)
    requires i < |buf|
    ensures r.Success? ==> i + 2 <= r.value.1 <= |buf|
  {
    var kind := buf[i];
    if i + 1 >= |buf| then Failure(TruncatedTlv(i + 1))
    else
      var extended := buf[i + 1] == 255;
      if extended && i + 4 > |buf| then Failure(TruncatedLength(i + 2))
      else
        var start := if extended then i + 4 else i + 2;
        var len := if extended then Both(buf[i + 2], buf[i + 3]) else buf[i + 1];
        if start + len > |buf| then Failure(TruncatedValue(start))
        else Success((Tlv(kind, buf[start..start + len], extended), start + len))
  }

  /** All TLVs from an offset to the end. */
  function ReadAll(buf: Bytes, i: nat): Result<seq<Tlv>>
    requires i <= |buf|
    decreases |buf| - i
  {
    if i == |buf| then Success([])
    else
      match ReadOne(buf, i)
      case Failure(error) => Failure(error)
      case Success((t, next)) =>
        match ReadAll(buf, next)
        case Failure(error) => Failure(error)
        case Success(rest) => Success([t] + rest)
  }

  // ---------------------------------------------------------------------------
  // The dataset
  // ---------------------------------------------------------------------------

  /** A number that may be missing, or null because its value was too short. */
  datatype Number = Missing | Null | Is(n: nat)

  datatype Policy = NoPolicy | NullPolicy | Policy(rotationTime: nat, flags: nat)

  datatype Dataset = Dataset(channel: Number, panId: Number, extPanId: Option<Bytes>, networkName: Option<Bytes>,
                             pskc: Option<Bytes>, networkKey: Option<Bytes>, meshLocalPrefix: Option<Bytes>,
                             securityPolicy: Policy, activeTimestamp: Option<Bytes>, channelMask: Option<Bytes>,
                             unknown: seq<Tlv>)

  const NOTHING := Dataset(Missing, Missing, None, None, None, None, None, NoPolicy, None, None, [])

  function Word(value: Bytes, at: nat): nat
    requires at + 2 <= |value|
  {
    Both(value[at], value[at + 1])
  }

  function Add(ds: Dataset, t: Tlv): Dataset {
    match t.kind
    case 0 => ds.(channel := if |t.value| >= 3 then Is(Word(t.value, 1)) else Null)
    case 1 => ds.(panId := if |t.value| >= 2 then Is(Word(t.value, 0)) else Null)
    case 2 => ds.(extPanId := Some(t.value))
    case 3 => ds.(networkName := Some(t.value))
    case 4 => ds.(pskc := Some(t.value))
    case 5 => ds.(networkKey := Some(t.value))
    case 7 => ds.(meshLocalPrefix := Some(t.value))
    case 12 => ds.(securityPolicy := if |t.value| >= 3 then Policy(Word(t.value, 0), t.value[2]) else NullPolicy)
    case 14 => ds.(activeTimestamp := Some(t.value))
    case 53 => ds.(channelMask := Some(t.value))
    case _ => ds.(unknown := ds.unknown + [t])
  }

  function AddAll(ds: Dataset, list: seq<Tlv>): Dataset
    decreases list
  {
    if list == [] then ds else AddAll(Add(ds, list[0]), list[1..])
  }

  function DecodeBytes(buf: Bytes): Result<Dataset> {
    match ReadAll(buf, 0)
    case Failure(error) => Failure(error)
    case Success(list) =>
      var ds := AddAll(NOTHING, list);
      if ds.extPanId.None? || |ds.extPanId.value| != 8 then Failure(NoExtPanId) else Success(ds)
  }

  function DecodeText(tlvHex: string): Result<Dataset> {
    match Normalise(tlvHex)
    case None => Failure(NotHexText)
    case Some(hex) =>
      NormalisedHex(tlvHex);
      DecodeBytes(FromHex(hex))
  }

  /** One TLV: the index moves over type, length and value, and never past the end. */
  method ReadTlv(buf: Bytes, at: nat) returns (r: Result<(Tlv, nat)>)
    requires at < |buf|
    ensures r == ReadOne(buf, at)
  {
    var i := at;
    var kind := buf[i];
    i := i + 1;
    if i >= |buf| {
      return Failure(TruncatedTlv(i));
    }
    var len: nat := buf[i];
    i := i + 1;
    var extended := len == 255;
    if extended {
      if i + 2 > |buf| {
        return Failure(TruncatedLength(i));
      }
      len := Both(buf[i], buf[i + 1]);
      i := i + 2;
    }
    if i + len > |buf| {
      return Failure(TruncatedValue(i));
    }
    r := Success((Tlv(kind, buf[i..i + len], extended), i + len));
  }

  /** The loop: an index walks the buffer and every value read goes into the dataset. */
  method Decode(tlvHex: string) returns (r: Result<Dataset>)
    ensures r == DecodeText(tlvHex)
  {
    hide Normalise, ReadOne, Add, FromHex;
    var hex := Normalise(tlvHex);
    if hex.None? {
      return Failure(NotHexText);
    }
    NormalisedHex(tlvHex);
    var buf := FromHex(hex.value);
    var ds := NOTHING;
    var i := 0;
    while i < |buf|
      invariant 0 <= i <= |buf|
      invariant Walked(buf, i, ds)
    {
      var one := ReadTlv(buf, i);
      if one.Failure? {
        return Failure(one.error);
      }
      var (t, next) := one.value;
      ReadFirst(buf, i, t, next);
      ds := Add(ds, t);
      i := next;
    }
    r := if ds.extPanId.None? || |ds.extPanId.value| != 8 then Failure(NoExtPanId) else Success(ds);
  }

  /** What is left to read from an offset completes what was collected so far. */
  predicate Walked(buf: Bytes, i: nat, ds: Dataset)
    requires i <= |buf|
  {
    match ReadAll(buf, i)
    case Failure(error) => ReadAll(buf, 0) == Failure(error)
    case Success(rest) => ReadAll(buf, 0).Success? && AddAll(NOTHING, ReadAll(buf, 0).value) == AddAll(ds, rest)
  }

  lemma ReadFirst(buf: Bytes, i: nat, t: Tlv, next: nat)
    requires i < |buf| && ReadOne(buf, i) == Success((t, next))
    ensures match ReadAll(buf, next)
            case Failure(error) => ReadAll(buf, i) == Failure(error)
            case Success(rest) => ReadAll(buf, i) == Success([t] + rest)
                                  && forall ds :: AddAll(ds, [t] + rest) == AddAll(Add(ds, t), rest)
  {
  }

  // ---------------------------------------------------------------------------
  // Exactly the concatenations of TLVs
  // ---------------------------------------------------------------------------

  lemma ReadEncoded(front: Bytes, t: Tlv, rest: Bytes)
    requires Encodable(t)
    ensures ReadOne(front + EncodeOne(t) + rest, |front|) == Success((t, |front| + |EncodeOne(t)|))
  {
    var buf := front + EncodeOne(t) + rest;
    var i := |front|;
    var one := EncodeOne(t);
    assert forall k :: 0 <= k < |one| ==> buf[i + k] == one[k];
    assert buf[i + 0] == one[0] && buf[i + 1] == one[1];
    var start := if t.extended then i + 4 else i + 2;
    if t.extended {
      assert buf[i + 2] == one[2] && buf[i + 3] == one[3];
    }
    assert buf[start..start + |t.value|] == t.value;
  }

  lemma Regroup(x: Bytes, y: Bytes, z: Bytes)
    ensures x + (y + z) == (x + y) + z
  {
  }

  lemma ReadStep(buf: Bytes, i: nat, t: Tlv, next: nat, rest: seq<Tlv>)
    requires i < |buf| && ReadOne(buf, i) == Success((t, next)) && next <= |buf| && ReadAll(buf, next) == Success(rest)
    ensures ReadAll(buf, i) == Success([t] + rest)
  {
  }

  lemma {:induction false} ReadEncodedFrom(buf: Bytes, front: Bytes, list: seq<Tlv>)
    requires AllEncodable(list) && buf == front + Encode(list)
    ensures ReadAll(buf, |front|) == Success(list)
    decreases list
  {
    hide ReadOne, EncodeOne, Encodable;
    if list != [] {
      hide ReadAll;
      var one, rest := EncodeOne(list[0]), Encode(list[1..]);
      Regroup(front, one, rest);
      ReadEncoded(front, list[0], rest);
      ReadEncodedFrom(buf, front + one, list[1..]);
      ReadStep(buf, |front|, list[0], |front| + |one|, list[1..]);
      assert [list[0]] + list[1..] == list;
    }
  }

  /** Every list is recovered from its encoding. */
  lemma EncodingRecovered(list: seq<Tlv>)
    requires AllEncodable(list)
    ensures ReadAll(Encode(list), 0) == Success(list)
  {
    assert [] + Encode(list) == Encode(list);
    ReadEncodedFrom(Encode(list), [], list);
  }

  lemma ReadIsEncoded(buf: Bytes, i: nat)
    requires i < |buf| && ReadOne(buf, i).Success?
    ensures var (t, next) := ReadOne(buf, i).value;
            Encodable(t) && buf[i..next] == EncodeOne(t)
  {
  }

  lemma {:induction false} ReadAllIsEncoded(buf: Bytes, i: nat)
    requires i <= |buf| && ReadAll(buf, i).Success?
    ensures AllEncodable(ReadAll(buf, i).value) && Encode(ReadAll(buf, i).value) == buf[i..]
    decreases |buf| - i
  {
    if i < |buf| {
      var (t, next) := ReadOne(buf, i).value;
      ReadIsEncoded(buf, i);
      ReadAllIsEncoded(buf, next);
      var rest := ReadAll(buf, next).value;
      assert ([t] + rest)[1..] == rest;
      assert buf[i..] == buf[i..next] + buf[next..];
      hide ReadOne, EncodeOne;
    }
  }

  /** The value of the last TLV of a type. */
  function LastOf(list: seq<Tlv>, kind: Byte): Option<Bytes> {
    if list == [] then None
    else if list[|list| - 1].kind == kind then Some(list[|list| - 1].value)
    else LastOf(list[..|list| - 1], kind)
  }

  lemma {:induction false} AddAllAppend(ds: Dataset, x: seq<Tlv>, t: Tlv)
    ensures AddAll(ds, x + [t]) == Add(AddAll(ds, x), t)
    decreases x
  {
    hide Add;
    if x == [] {
      assert [t][1..] == [] && x + [t] == [t];
      assert AddAll(ds, [t]) == AddAll(Add(ds, t), []);
    } else {
      assert (x + [t])[1..] == x[1..] + [t];
      AddAllAppend(Add(ds, x[0]), x[1..], t);
    }
  }

  predicate Known(kind: Byte) {
    kind == 0 || kind == 1 || kind == 2 || kind == 3 || kind == 4 || kind == 5 || kind == 7 || kind == 12 || kind == 14
        || kind == 53
  }

  function Unknowns(list: seq<Tlv>): seq<Tlv> {
    if list == [] then []
    else Unknowns(list[..|list| - 1]) + (if Known(list[|list| - 1].kind) then [] else [list[|list| - 1]])
  }

  function NumberIn(value: Option<Bytes>, at: nat): Number {
    match value
    case None => Missing
    case Some(v) => if |v| >= at + 2 then Is(Word(v, at)) else Null
  }

  function PolicyIn(value: Option<Bytes>): Policy {
    match value
    case None => NoPolicy
    case Some(v) => if |v| >= 3 then Policy(Word(v, 0), v[2]) else NullPolicy
  }

  lemma LastOfAppend(list: seq<Tlv>, t: Tlv, kind: Byte)
    ensures LastOf(list + [t], kind) == if t.kind == kind then Some(t.value) else LastOf(list, kind)
  {
  }

  lemma UnknownsAppend(list: seq<Tlv>, t: Tlv)
    ensures Unknowns(list + [t]) == if Known(t.kind) then Unknowns(list) else Unknowns(list) + [t]
  {
  }

  /** The dataset has the last value of each type, and the TLVs of other types in order. */
  predicate LastFields(ds: Dataset, list: seq<Tlv>) {
    && ds.channel == NumberIn(LastOf(list, 0), 1) && ds.panId == NumberIn(LastOf(list, 1), 0)
    && ds.extPanId == LastOf(list, 2) && ds.networkName == LastOf(list, 3)
    && ds.pskc == LastOf(list, 4) && ds.networkKey == LastOf(list, 5) && ds.meshLocalPrefix == LastOf(list, 7)
    && ds.securityPolicy == PolicyIn(LastOf(list, 12)) && ds.activeTimestamp == LastOf(list, 14)
    && ds.channelMask == LastOf(list, 53) && ds.unknown == Unknowns(list)
  }

  lemma AddLast(ds: Dataset, list: seq<Tlv>, t: Tlv)
    requires LastFields(ds, list)
    ensures LastFields(Add(ds, t), list + [t])
  {
    LastOfAppend(list, t, 0);
    LastOfAppend(list, t, 1);
    LastOfAppend(list, t, 2);
    LastOfAppend(list, t, 3);
    LastOfAppend(list, t, 4);
    LastOfAppend(list, t, 5);
    LastOfAppend(list, t, 7);
    LastOfAppend(list, t, 12);
    LastOfAppend(list, t, 14);
    LastOfAppend(list, t, 53);
    UnknownsAppend(list, t);
    hide LastOf, Unknowns, Word;
  }

  lemma {:induction false} FieldsAreLast(list: seq<Tlv>)
    ensures LastFields(AddAll(NOTHING, list), list)
  {
    if list != [] {
      var n := |list| - 1;
      FieldsAreLast(list[..n]);
      AddAllAppend(NOTHING, list[..n], list[n]);
      AddLast(AddAll(NOTHING, list[..n]), list[..n], list[n]);
      assert list[..n] + [list[n]] == list;
      hide LastFields, Add, AddAll;
    }
  }

  ghost predicate IsConcatenation(buf: Bytes, list: seq<Tlv>) { AllEncodable(list) && Encode(list) == buf }

  /** The extended PAN id is there and has its eight bytes. */
  predicate HasExtPanId(list: seq<Tlv>) { LastOf(list, 2).Some? && |LastOf(list, 2).value| == 8 }

  /**
   * The decoder accepts exactly the concatenations of complete TLVs whose last extended PAN id has
   * eight bytes, and what it reads is that list, in order.
   */
  lemma DecodesExactly(buf: Bytes)
    ensures DecodeBytes(buf).Success? <==> exists list :: IsConcatenation(buf, list) && HasExtPanId(list)
    ensures forall list :: IsConcatenation(buf, list) && HasExtPanId(list) ==>
            DecodeBytes(buf) == Success(AddAll(NOTHING, list))
  {
    forall list | IsConcatenation(buf, list) ensures ReadAll(buf, 0) == Success(list) {
      EncodingRecovered(list);
    }
    forall list: seq<Tlv> ensures AddAll(NOTHING, list).extPanId == LastOf(list, 2) {
      FieldsAreLast(list);
    }
    if ReadAll(buf, 0).Success? {
      ReadAllIsEncoded(buf, 0);
      assert buf[0..] == buf;
      assert IsConcatenation(buf, ReadAll(buf, 0).value);
    }
    hide ReadAll, AddAll, LastOf, Encode;
  }

  // ---------------------------------------------------------------------------
  // From text and back
  // ---------------------------------------------------------------------------

  lemma {:induction false} LowerHexHex(s: string)
    requires AllHex(s)
    ensures AllHex(LowerHex(s)) && |LowerHex(s)| == |s|
  {
    if s != "" {
      assert AllHex(s[1..]);
      LowerHexHex(s[1..]);
    }
  }

  lemma NormalisedHex(input: string)
    ensures Normalise(input).Some? ==> AllHex(Normalise(input).value) && |Normalise(input).value| % 2 == 0
  {
    var s := WithoutSeparators(WithoutPrefix(Trim(input)));
    if AllHex(s) {
      LowerHexHex(s);
    }
  }

  predicate LowerDigit(c: char) { '0' <= c <= '9' || 'a' <= c <= 'f' }

  predicate AllLowerDigits(s: string) { forall i :: 0 <= i < |s| ==> LowerDigit(s[i]) }

  lemma HexDigitAt(n: nat)
    requires n < 16
    ensures LowerDigit(HexDigit(n)) && HexValue(HexDigit(n)) == Some(n)
  {
  }

  lemma BytePair(b: Byte)
    ensures LowerDigit(HexDigit(b / 16)) && LowerDigit(HexDigit(b % 16))
    ensures IsHex(HexDigit(b / 16)) && IsHex(HexDigit(b % 16)) && HexByte(HexDigit(b / 16), HexDigit(b % 16)) == b
  {
    HexDigitAt(b / 16);
    HexDigitAt(b % 16);
    hide HexDigit, HexValue, LowerDigit;
  }

  lemma {:induction false} ToHexText(bytes: Bytes)
    ensures AllLowerDigits(ToHex(bytes)) && |ToHex(bytes)| == 2 * |bytes|
  {
    hide HexDigit, LowerDigit;
    if bytes != [] {
      ToHexText(bytes[1..]);
      BytePair(bytes[0]);
    }
  }

  lemma {:induction false} DigitsKept(s: string)
    requires AllLowerDigits(s)
    ensures AllHex(s) && WithoutSeparators(s) == s && LowerHex(s) == s
  {
    if s != "" {
      assert AllLowerDigits(s[1..]);
      DigitsKept(s[1..]);
      assert LowerDigit(s[0]);
      assert [s[0]] + s[1..] == s;
    }
  }

  lemma FromHexStep(c: char, d: char, rest: string)
    requires IsHex(c) && IsHex(d) && AllHex(rest) && |rest| % 2 == 0
    ensures AllHex([c, d] + rest) && |[c, d] + rest| % 2 == 0
    ensures FromHex([c, d] + rest) == [HexByte(c, d)] + FromHex(rest)
  {
  }

  lemma {:induction false} FromToHex(bytes: Bytes)
    ensures AllHex(ToHex(bytes)) && |ToHex(bytes)| % 2 == 0 && FromHex(ToHex(bytes)) == bytes
  {
    if bytes != [] {
      hide FromHex, IsHex, AllHex, HexByte, HexDigit;
      BytePair(bytes[0]);
      FromToHex(bytes[1..]);
      FromHexStep(HexDigit(bytes[0] / 16), HexDigit(bytes[0] % 16), ToHex(bytes[1..]));
      assert [bytes[0]] + bytes[1..] == bytes;
    }
  }

  lemma NormaliseDigits(s: string)
    requires AllLowerDigits(s) && |s| % 2 == 0 && |s| >= 8
    ensures Normalise(s) == Some(s)
  {
    DigitsKept(s);
    assert LowerDigit(s[0]) && LowerDigit(s[1]) && LowerDigit(s[|s| - 1]);
    CleanTrims(s);
    hide WithoutSeparators, LowerHex;
  }

  /** The hex text of a byte string of at least four bytes is read back as those bytes. */
  lemma TextRecovered(bytes: Bytes)
    requires |bytes| >= 4
    ensures var s := ToHex(bytes);
            Normalise(s) == Some(s) && AllHex(s) && |s| % 2 == 0 && FromHex(s) == bytes
  {
    hide *;
    ToHexText(bytes);
    FromToHex(bytes);
    NormaliseDigits(ToHex(bytes));
  }

  // ----- decorated text -----

  predicate AllSpace(s: string) { forall i :: 0 <= i < |s| ==> IsSpace(s[i]) }

  /** The text holds exactly these digits, in either case, with separators anywhere. */
  predicate Interleaves(body: string, digits: string) {
    if body == "" then digits == ""
    else if IsSeparator(body[0]) then Interleaves(body[1..], digits)
    else
      digits != "" && HexValue(body[0]).Some? && HexValue(body[0]) == HexValue(digits[0])
      && Interleaves(body[1..], digits[1..])
  }

  predicate IsPrefix(prefix: string) { prefix == "" || prefix == "0x" || prefix == "0X" }

  predicate Decoration(front: string, prefix: string, body: string, back: string, digits: string) {
    AllSpace(front) && AllSpace(back) && IsPrefix(prefix) && Interleaves(body, digits)
  }

  /** White space around an optional `0x` and the digits with separators. */
  ghost predicate Decorates(text: string, digits: string) {
    exists front, prefix, body, back ::
      text == front + prefix + body + back && Decoration(front, prefix, body, back, digits)
  }

  lemma DigitChar(c: char, d: char)
    requires LowerDigit(d) && HexValue(c) == HexValue(d)
    ensures IsHex(c) && LowerChar(c) == d
  {
  }

  lemma HexChar(c: char)
    requires IsHex(c)
    ensures LowerDigit(LowerChar(c)) && HexValue(LowerChar(c)) == HexValue(c)
  {
  }

  lemma ReadOneMore(c: char, rest: string)
    ensures AllHex([c] + rest) <==> IsHex(c) && AllHex(rest)
    ensures LowerHex([c] + rest) == [LowerChar(c)] + LowerHex(rest)
    ensures AllLowerDigits([c] + rest) <==> LowerDigit(c) && AllLowerDigits(rest)
  {
    hide IsHex, LowerDigit, LowerChar;
    var s := [c] + rest;
    assert s[0] == c && s[1..] == rest;
    assert forall i :: 0 < i < |s| ==> s[i] == rest[i - 1];
    assert forall i :: 0 <= i < |rest| ==> rest[i] == s[i + 1];
    assert AllHex(s) ==> AllHex(rest) && IsHex(c);
    assert AllLowerDigits(s) ==> AllLowerDigits(rest) && LowerDigit(c);
    assert LowerHex(s) == [LowerChar(c)] + LowerHex(rest);
  }

  lemma {:induction false} InterleavedReads(body: string, digits: string)
    requires Interleaves(body, digits) && AllLowerDigits(digits)
    ensures AllHex(WithoutSeparators(body)) && LowerHex(WithoutSeparators(body)) == digits
  {
    hide IsSeparator, HexValue, LowerChar, LowerDigit, AllLowerDigits;
    if body != "" {
      hide LowerHex, AllHex;
      if IsSeparator(body[0]) {
        InterleavedReads(body[1..], digits);
        assert WithoutSeparators(body) == WithoutSeparators(body[1..]);
      } else {
        assert [digits[0]] + digits[1..] == digits;
        ReadOneMore(digits[0], digits[1..]);
        InterleavedReads(body[1..], digits[1..]);
        DigitChar(body[0], digits[0]);
        ReadOneMore(body[0], WithoutSeparators(body[1..]));
      }
    }
  }

  lemma {:induction false} ReadInterleaves(body: string)
    requires AllHex(WithoutSeparators(body))
    ensures Interleaves(body, LowerHex(WithoutSeparators(body))) && AllLowerDigits(LowerHex(WithoutSeparators(body)))
  {
    hide IsSeparator, HexValue, LowerChar, LowerDigit;
    if body != "" {
      hide LowerHex, AllHex, AllLowerDigits;
      var rest := WithoutSeparators(body[1..]);
      if IsSeparator(body[0]) {
        assert WithoutSeparators(body) == rest;
        ReadInterleaves(body[1..]);
      } else {
        ReadOneMore(body[0], rest);
        ReadInterleaves(body[1..]);
        HexChar(body[0]);
        ReadOneMore(LowerChar(body[0]), LowerHex(rest));
        assert ([LowerChar(body[0])] + LowerHex(rest))[1..] == LowerHex(rest);
      }
    }
  }

  lemma {:induction false} InterleavesFront(front: string, body: string, digits: string)
    requires AllSpace(front)
    ensures Interleaves(front + body, digits) <==> Interleaves(body, digits)
  {
    if front == "" {
      assert front + body == body;
    } else {
      assert (front + body)[1..] == front[1..] + body;
      InterleavesFront(front[1..], body, digits);
    }
  }

  lemma {:induction false} InterleavesBack(body: string, back: string, digits: string)
    requires AllSpace(back)
    ensures Interleaves(body + back, digits) <==> Interleaves(body, digits)
    decreases body
  {
    if body == "" {
      InterleavesFront(back, "", digits);
      assert back + "" == back == "" + back;
    } else {
      assert (body + back)[1..] == body[1..] + back;
      InterleavesBack(body[1..], back, digits);
      if digits != "" {
        InterleavesBack(body[1..], back, digits[1..]);
      }
      hide IsSeparator, HexValue;
    }
  }

  /** What is trimmed off is white space. */
  lemma TrimParts(s: string) returns (front: string, back: string)
    ensures s == front + Trim(s) + back && AllSpace(front) && AllSpace(back)
  {
    var n := TrimStartOf(s);
    var m := TrimEndOf(s[n..]);
    front, back := s[..n], s[n..][m..];
    hide IsSpace;
  }

  lemma {:induction false} TrimStartFront(front: string, s: string)
    requires AllSpace(front)
    ensures TrimStart(front + s) == TrimStart(s)
  {
    if front == "" {
      assert front + s == s;
    } else {
      assert (front + s)[1..] == front[1..] + s;
      TrimStartFront(front[1..], s);
    }
  }

  lemma {:induction false} TrimStartBack(s: string, back: string)
    requires exists i :: 0 <= i < |s| && !IsSpace(s[i])
    ensures TrimStart(s + back) == TrimStart(s) + back
  {
    if IsSpace(s[0]) {
      assert (s + back)[1..] == s[1..] + back;
      var i :| 0 <= i < |s| && !IsSpace(s[i]);
      assert s[1..][i - 1] == s[i];
      TrimStartBack(s[1..], back);
    }
  }

  lemma {:induction false} TrimEndBack(s: string, back: string)
    requires AllSpace(back)
    ensures TrimEnd(s + back) == TrimEnd(s)
    decreases |back|
  {
    if back == "" {
      assert s + back == s;
    } else {
      var n := |back| - 1;
      assert (s + back)[..|s + back| - 1] == s + back[..n];
      TrimEndBack(s, back[..n]);
    }
  }

  lemma TrimAround(front: string, s: string, back: string)
    requires AllSpace(front) && AllSpace(back) && exists i :: 0 <= i < |s| && !IsSpace(s[i])
    ensures Trim(front + s + back) == Trim(s)
  {
    assert front + s + back == front + (s + back);
    TrimStartFront(front, s + back);
    TrimStartBack(s, back);
    TrimEndBack(TrimStart(s), back);
    hide TrimStart, TrimEnd;
  }

  lemma {:induction false} SomeDigit(body: string, digits: string)
    requires Interleaves(body, digits) && digits != ""
    ensures exists i :: 0 <= i < |body| && !IsSpace(body[i])
  {
    if IsSeparator(body[0]) {
      SomeDigit(body[1..], digits);
      var i :| 0 <= i < |body| - 1 && !IsSpace(body[1..][i]);
      assert body[i + 1] == body[1..][i];
    } else {
      assert !IsSpace(body[0]);
    }
    hide IsSpace;
  }

  /** A text of digits and separators does not start with `0x`. */
  lemma NoPrefix(body: string, digits: string)
    requires Interleaves(body, digits)
    ensures WithoutPrefix(body) == body
  {
    if |body| >= 2 && body[0] == '0' {
      assert !IsSeparator('0');
      assert Interleaves(body[1..], digits[1..]) && body[1..][0] == body[1];
      assert !IsSeparator('x') && !IsSeparator('X');
    }
  }

  /** The prefix and the digits behind it stay when the text is trimmed. */
  lemma PrefixKept(prefix: string, body: string, digits: string)
    requires (prefix == "0x" || prefix == "0X") && Interleaves(body, digits)
    ensures Interleaves(WithoutPrefix(Trim(prefix + body)), digits)
  {
    hide Interleaves, Trim;
    var s := prefix + body;
    var front, back := TrimParts(s);
    NoSpaces();
    hide IsSpace;
    assert s[0] == '0' && s[1] == prefix[1];
    var u := Trim(s);
    SpaceAt(s, front, u, back, 0);
    assert front == "" && s == u + back;
    SpaceAt(s, front, u, back, 1);
    assert |back| <= |body|;
    var kept := body[..|body| - |back|];
    assert u == s[..|u|] && s[..|u|] == prefix + kept;
    assert back == s[|u|..] && s[|u|..] == body[|body| - |back|..];
    assert (prefix + kept)[2..] == kept && kept + back == body;
    InterleavesBack(kept, back, digits);
  }

  lemma SpaceAt(s: string, front: string, u: string, back: string, i: nat)
    requires s == front + u + back && AllSpace(front) && AllSpace(back) && i < |s|
    ensures i < |front| || |s| - |back| <= i ==> IsSpace(s[i])
  {
    hide IsSpace;
    if i < |front| {
      assert s[i] == front[i];
    } else if |s| - |back| <= i {
      assert s[i] == back[i - (|s| - |back|)];
    }
  }

  lemma NoSpaces()
    ensures !IsSpace('0') && !IsSpace('x') && !IsSpace('X')
  {
  }

  lemma TrimmedInterleaves(body: string, digits: string)
    requires Interleaves(body, digits)
    ensures Interleaves(WithoutPrefix(Trim(body)), digits)
  {
    hide Interleaves, Trim, AllSpace, WithoutPrefix;
    var front, back := TrimParts(body);
    assert body == front + (Trim(body) + back);
    InterleavesFront(front, Trim(body) + back, digits);
    InterleavesBack(Trim(body), back, digits);
    NoPrefix(Trim(body), digits);
  }

  lemma DecoratedReads(front: string, prefix: string, body: string, back: string, digits: string)
    requires Decoration(front, prefix, body, back, digits)
    requires AllLowerDigits(digits) && |digits| % 2 == 0 && |digits| >= 8
    ensures Normalise(front + prefix + body + back) == Some(digits)
  {
    hide Interleaves, Trim, AllSpace, WithoutSeparators, WithoutPrefix, LowerHex, AllLowerDigits, AllHex, IsSpace;
    var s := prefix + body;
    SomeDigit(body, digits);
    var i :| 0 <= i < |body| && !IsSpace(body[i]);
    assert s[|prefix| + i] == body[i];
    TrimAround(front, s, back);
    assert front + prefix + body + back == front + s + back;
    var u := WithoutPrefix(Trim(s));
    if prefix == "" {
      assert s == body;
      TrimmedInterleaves(body, digits);
    } else {
      PrefixKept(prefix, body, digits);
    }
    InterleavedReads(u, digits);
    SameLength(u, digits);
  }

  lemma SameLength(u: string, digits: string)
    requires AllHex(WithoutSeparators(u)) && LowerHex(WithoutSeparators(u)) == digits
    ensures |WithoutSeparators(u)| == |digits|
  {
    LowerHexHex(WithoutSeparators(u));
  }

  /**
   * Cleaning a text gives these digits exactly when the text is they, in either case, with
   * separators anywhere, an optional `0x` in front and white space around, and they are enough bytes.
   */
  lemma NormaliseExactly(text: string, digits: string)
    ensures Normalise(text) == Some(digits) <==>
            AllLowerDigits(digits) && |digits| % 2 == 0 && |digits| >= 8 && Decorates(text, digits)
  {
    hide Interleaves, Trim, AllSpace, WithoutSeparators, LowerHex, AllLowerDigits, AllHex;
    if Normalise(text) == Some(digits) {
      var t := Trim(text);
      var front, back := TrimParts(text);
      var body := WithoutPrefix(t);
      var prefix := if body == t then "" else t[..2];
      assert t == prefix + body;
      ReadInterleaves(body);
      LowerHexHex(WithoutSeparators(body));
      assert text == front + prefix + body + back;
      assert Decoration(front, prefix, body, back, digits);
    }
    if AllLowerDigits(digits) && |digits| % 2 == 0 && |digits| >= 8 && Decorates(text, digits) {
      var front, prefix, body, back :|
        text == front + prefix + body + back && Decoration(front, prefix, body, back, digits);
      DecoratedReads(front, prefix, body, back, digits);
    }
  }

  lemma {:induction false} EncodeLength(list: seq<Tlv>, i: nat)
    requires AllEncodable(list) && i < |list|
    ensures |Encode(list)| >= 2 + |list[i].value|
  {
    if i > 0 {
      assert list[1..][i - 1] == list[i];
      EncodeLength(list[1..], i - 1);
    }
  }

  lemma {:induction false} LastIndex(list: seq<Tlv>, kind: Byte)
    requires LastOf(list, kind).Some?
    ensures exists i :: 0 <= i < |list| && list[i].value == LastOf(list, kind).value
  {
    if list[|list| - 1].kind != kind {
      LastIndex(list[..|list| - 1], kind);
      var front := list[..|list| - 1];
      var i :| 0 <= i < |front| && front[i].value == LastOf(front, kind).value;
      assert list[i] == front[i];
    }
  }

  /** The hex text of any complete TLV list with an extended PAN id is decoded as that list. */
  lemma DatasetRoundTrip(list: seq<Tlv>)
    requires AllEncodable(list) && HasExtPanId(list)
    ensures DecodeText(ToHex(Encode(list))) == Success(AddAll(NOTHING, list))
  {
    LastIndex(list, 2);
    var i :| 0 <= i < |list| && list[i].value == LastOf(list, 2).value;
    EncodeLength(list, i);
    TextRecovered(Encode(list));
    DecodesExactly(Encode(list));
    assert IsConcatenation(Encode(list), list);
    hide Encode, ToHex, FromHex, Normalise, AddAll, DecodeBytes, HasExtPanId, AllHex;
  }

  /** And so is any decorated form of that text. */
  lemma DecoratedRoundTrip(list: seq<Tlv>, text: string)
    requires AllEncodable(list) && HasExtPanId(list) && Decorates(text, ToHex(Encode(list)))
    ensures DecodeText(text) == Success(AddAll(NOTHING, list))
  {
    var digits := ToHex(Encode(list));
    DatasetRoundTrip(list);
    LastIndex(list, 2);
    var i :| 0 <= i < |list| && list[i].value == LastOf(list, 2).value;
    EncodeLength(list, i);
    ToHexText(Encode(list));
    TextRecovered(Encode(list));
    NormaliseExactly(text, digits);
    hide Encode, ToHex, FromHex, Normalise, AddAll, DecodeBytes, AllHex, AllLowerDigits, Decorates;
  }
}
