/** The bigint-tagging JSON codec (util/bigint_codec.ts).

    `JSON.stringify` and `JSON.parse` are taken to be inverse on a value tree;
    what the model keeps is the replacer and the reviver they are given. The
    replacer turns every bigint `k` into the string of its decimal digits
    followed by `n`; the reviver turns every string matching `/^-?\d+n$/` back
    into a bigint. */
module BigintCodec {

  /** A JavaScript value as JSON sees it; object members keep their order. */
  datatype Json =
    | JNull
    | JBool(b: bool)
    | JNumber(num: real)
    | JString(str: string)
    | JBigInt(big: int)
    | JArray(items: seq<Json>)
    | JObject(members: seq<(string, Json)>)

  predicate IsDigit(c: char) {
    '0' <= c <= '9'
  }

  predicate AllDigits(s: string) {
    forall i :: 0 <= i < |s| ==> IsDigit(s[i])
  }

  function DigitChar(d: nat): (c: char)
    requires d < 10
    ensures IsDigit(c) && c as int - '0' as int == d
  {
    ('0' as int + d) as char
  }

  /** The decimal digits of a natural number, without leading zeros. */
  function NatToDecimal(k: nat): (s: string)
    ensures |s| >= 1 && AllDigits(s)
  {
    if k < 10 then [DigitChar(k)] else NatToDecimal(k / 10) + [DigitChar(k % 10)]
  }

  /** `BigInt.prototype.toString()`: a `-` for negative values, then the digits. */
  function IntToDecimal(k: int): string {
    if k < 0 then "-" + NatToDecimal(-k) else NatToDecimal(k)
  }

  /** The value of a string of decimal digits (leading zeros allowed). */
  function DigitsValue(s: string): nat
    requires AllDigits(s)
  {
    if s == [] then 0 else DigitsValue(s[..|s| - 1]) * 10 + (s[|s| - 1] as int - '0' as int)
  }

  /** The strings `/^-?\d+$/` accepts. */
  predicate IsDecimal(s: string) {
    (|s| >= 1 && AllDigits(s)) || (|s| >= 2 && s[0] == '-' && AllDigits(s[1..]))
  }

  /** `BigInt(s)` on a string `IsDecimal` accepts. */
  function ParseDecimal(s: string): int
    requires IsDecimal(s)
  {
    if s[0] == '-' then -(DigitsValue(s[1..]) as int) else DigitsValue(s)
  }

  /** The strings the reviver's pattern `/^\-?\d+n$/` accepts. */
  predicate IsBigintTag(s: string): (b: bool)
    ensures b ==> |s| >= 2 && s[|s| - 1] == 'n' && IsDigit(s[|s| - 2])
    ensures b ==> IsDigit(s[0]) || (s[0] == '-' && |s| >= 3)
  {
    |s| >= 1 && s[|s| - 1] == 'n' && IsDecimal(s[..|s| - 1])
  }

  /** `encode_bigint`: every bigint becomes its decimal rendering followed by `n`. */
  function Encode(v: Json): (r: Json)
    ensures NoBigints(r)
    ensures v.JArray? <==> r.JArray?
    ensures v.JBigInt? ==> r.JString? && IsBigintTag(r.str)
  {
    match v
    case JBigInt(k) => JString(IntToDecimal(k) + "n")
    case JArray(items) => JArray(seq(|items|, i requires 0 <= i < |items| => Encode(items[i])))
    case JObject(members) =>
      JObject(seq(|members|, i requires 0 <= i < |members| => (members[i].0, Encode(members[i].1))))
    case _ => v
  }

  /** `encode_bigint_ext`: every bigint becomes its plain decimal rendering. */
  function EncodeExt(v: Json): (r: Json)
    ensures NoBigints(r)
    ensures v.JArray? <==> r.JArray?
    ensures v.JBigInt? ==> r.JString? && IsDecimal(r.str) && !IsBigintTag(r.str)
  {
    match v
    case JBigInt(k) => JString(IntToDecimal(k))
    case JArray(items) => JArray(seq(|items|, i requires 0 <= i < |items| => EncodeExt(items[i])))
    case JObject(members) =>
      JObject(seq(|members|, i requires 0 <= i < |members| => (members[i].0, EncodeExt(members[i].1))))
    case _ => v
  }

  /** `decode_bigint`: every string matching the pattern becomes the bigint its
      text without the final `n` denotes. */
  function Decode(v: Json): (r: Json)
    ensures NoTagLikeStrings(r)
    ensures v.JArray? <==> r.JArray?
    ensures NoTagLikeStrings(v) ==> r == v
  {
    match v
    case JString(s) => if IsBigintTag(s) then JBigInt(ParseDecimal(s[..|s| - 1])) else v
    case JArray(items) => JArray(seq(|items|, i requires 0 <= i < |items| => Decode(items[i])))
    case JObject(members) =>
      JObject(seq(|members|, i requires 0 <= i < |members| => (members[i].0, Decode(members[i].1))))
    case _ => v
  }

  /** No bigint is left in `v`: what `JSON.stringify` can serialise without
      throwing a `TypeError`. */
  predicate NoBigints(v: Json) {
    match v
    case JBigInt(_) => false
    case JArray(items) => forall i :: 0 <= i < |items| ==> NoBigints(items[i])
    case JObject(members) => forall i :: 0 <= i < |members| ==> NoBigints(members[i].1)
    case _ => true
  }

  /** No string value in `v` (member names do not count) matches the reviver's pattern. */
  predicate NoTagLikeStrings(v: Json) {
    match v
    case JString(s) => !IsBigintTag(s)
    case JArray(items) => forall i :: 0 <= i < |items| ==> NoTagLikeStrings(items[i])
    case JObject(members) => forall i :: 0 <= i < |members| ==> NoTagLikeStrings(members[i].1)
    case _ => true
  }

  lemma {:induction false} DigitsRoundTrip(k: nat)
    ensures DigitsValue(NatToDecimal(k)) == k
  {
    if k >= 10 {
      DigitsRoundTrip(k / 10);
      var s := NatToDecimal(k / 10) + [DigitChar(k % 10)];
      assert s[..|s| - 1] == NatToDecimal(k / 10);
    }
  }

  /** Parsing the decimal rendering of any integer gives it back, negative
      values and zero included. */
  lemma DecimalRoundTrip(k: int)
    ensures IsDecimal(IntToDecimal(k)) && ParseDecimal(IntToDecimal(k)) == k
  {
    var s := IntToDecimal(k);
    if k < 0 {
      assert s[1..] == NatToDecimal(-k);
      DigitsRoundTrip(-k);
    } else {
      DigitsRoundTrip(k);
    }
  }

  /** The encoding of a bigint is a string the reviver's pattern accepts. */
  lemma EncodedBigintIsTag(k: int)
    ensures IsBigintTag(IntToDecimal(k) + "n")
    ensures Decode(Encode(JBigInt(k))) == JBigInt(k)
  {
    var s := IntToDecimal(k) + "n";
    assert s[..|s| - 1] == IntToDecimal(k);
    DecimalRoundTrip(k);
  }

  /** Round trip: decoding undoes encoding, at any depth, provided no string in
      the value already looks like an encoded bigint. */
  lemma {:induction false} RoundTrip(v: Json)
    requires NoTagLikeStrings(v)
    ensures Decode(Encode(v)) == v
  {
    match v
    case JBigInt(k) =>
      EncodedBigintIsTag(k);
    case JArray(items) =>
      forall i | 0 <= i < |items|
        ensures Decode(Encode(items[i])) == items[i]
      {
        RoundTrip(items[i]);
      }
    case JObject(members) =>
      forall i | 0 <= i < |members|
        ensures Decode(Encode(members[i].1)) == members[i].1
      {
        RoundTrip(members[i].1);
      }
    case _ =>
  }

  /** The precondition of `RoundTrip` is needed: a string that already looks
      like an encoded bigint comes back as a bigint. */
  lemma TagLikeStringIsNotPreserved()
    ensures Encode(JString("12n")) == JString("12n")
    ensures Decode(Encode(JString("12n"))) == JBigInt(12)
  {
    assert "12n"[..2] == "12";
    assert DigitsValue("12"[..1]) == 1;
  }

  /** The strings of the codec's tests are not mistaken for bigints. */
  lemma TestStringsAreNotTags()
    ensures !IsBigintTag("n") && !IsBigintTag("strin") && !IsBigintTag("nstrn")
  {
    assert "strin"[..4][0] == 's';
    assert "nstrn"[..4][0] == 'n';
  }

  /** `encode_bigint_ext` drops the marker, so decoding leaves its bigints as strings. */
  lemma {:induction false} ExtEncodingStaysString(v: Json)
    requires NoTagLikeStrings(v)
    ensures Decode(EncodeExt(v)) == EncodeExt(v)
  {
    match v
    case JBigInt(k) =>
      var s := IntToDecimal(k);
      assert IsDigit(s[|s| - 1]);
    case JArray(items) =>
      forall i | 0 <= i < |items|
        ensures Decode(EncodeExt(items[i])) == EncodeExt(items[i])
      {
        ExtEncodingStaysString(items[i]);
      }
    case JObject(members) =>
      forall i | 0 <= i < |members|
        ensures Decode(EncodeExt(members[i].1)) == EncodeExt(members[i].1)
      {
        ExtEncodingStaysString(members[i].1);
      }
    case _ =>
  }
}
