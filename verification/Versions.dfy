/** How two versions of one entity are ordered (internal/pipeline/ledger.go, compareVersions).

    Every order is reduced to one statement: a version it can read has a width and a value, and two
    versions are comparable exactly when both can be read at one width, and then by value. */
module Versions {
  import opened Names

  /** provider.VersionOrder. */
  datatype VersionOrder = Unset | Decimal | Lexical | Base64

  // ---- The code --------------------------------------------------------------------------------

  predicate IsDecimal(s: Text) {
    s != [] && forall i :: 0 <= i < |s| ==> IsDigit(s[i])
  }

  /** strings.Compare and bytes.Compare. */
  function CompareBytes(a: Text, b: Text): int {
    if a == [] && b == [] then 0
    else if a == [] then -1
    else if b == [] then 1
    else if a[0] < b[0] then -1
    else if a[0] > b[0] then 1
    else CompareBytes(a[1..], b[1..])
  }

  /** strings.TrimLeft(s, "0"). */
  function TrimZeros(s: Text): Text {
    if s != [] && s[0] == 0x30 then TrimZeros(s[1..]) else s
  }

  function Sign(n: int): int {
    if n < 0 then -1 else if n > 0 then 1 else 0
  }

  function CompareDecimal(a: Text, b: Text): int {
    var x, y := TrimZeros(a), TrimZeros(b);
    if |x| != |y| then Sign(|x| - |y|) else CompareBytes(x, y)
  }

  function CompareVersions(order: VersionOrder, v: Text, head: Text): Option<int> {
    match order
    case Decimal =>
      if IsDecimal(v) && IsDecimal(head) then Some(CompareDecimal(v, head)) else None
    case Lexical =>
      if v != [] && |v| == |head| then Some(CompareBytes(v, head)) else None
    case Base64 =>
      var a, b := DecodeBase64(v), DecodeBase64(head);
      if a.Some? && b.Some? && |a.value| == |b.value| then Some(CompareBytes(a.value, b.value)) else None
    case Unset =>
      None
  }

  /** base64URLToStd. */
  function ToStd(s: Text): Text {
    seq(|s|, i requires 0 <= i < |s| => if s[i] == 0x2D then 0x2B else if s[i] == 0x5F then 0x2F else s[i])
  }

  /** The spelling in the alphabet of section 4 of RFC 4648, for a text that has one. */
  function Normalize(s: Text): (t: Option<Text>)
    ensures t.Some? ==> |t.value| == |s| > 0
  {
    var urlSafe := 0x2D in s || 0x5F in s;
    var standard := 0x2B in s || 0x2F in s;
    if s == [] || (urlSafe && standard) then None
    else Some(if urlSafe then ToStd(s) else s)
  }

  function DecodeBase64(s: Text): Option<Text> {
    var t := Normalize(s);
    if t.None? then None else DecodeQuanta(StripLines(t.value), EndsInPad(t.value))
  }

  /** strings.HasSuffix(s, "="), which chooses the padded decoder. */
  predicate EndsInPad(s: Text) {
    s != [] && s[|s| - 1] == 0x3D
  }

  /** Go's decoders skip carriage returns and line feeds wherever they stand. */
  function StripLines(s: Text): Text {
    if s == [] then []
    else (if s[0] == 0x0A || s[0] == 0x0D then [] else [s[0]]) + StripLines(s[1..])
  }

  /** The value of a character of the alphabet of section 4 of RFC 4648. */
  function Sextet(c: byte): Option<nat> {
    if 0x41 <= c <= 0x5A then Some(c - 0x41)
    else if 0x61 <= c <= 0x7A then Some(c - 0x61 + 26)
    else if IsDigit(c) then Some(c - 0x30 + 52)
    else if c == 0x2B then Some(62)
    else if c == 0x2F then Some(63)
    else None
  }

  predicate Sextets(s: Text, n: nat) {
    n <= |s| && forall i :: 0 <= i < n ==> Sextet(s[i]).Some?
  }

  /** base64.StdEncoding (padded) and base64.RawStdEncoding, not strict: trailing bits are ignored. */
  function DecodeQuanta(s: Text, padded: bool): Option<Text> {
    if s == [] then Some([])
    else if Sextets(s, 4) then
      var rest := DecodeQuanta(s[4..], padded);
      if rest.None? then None else Some(Three(s) + rest.value)
    else if padded then
      if |s| == 4 && Sextets(s, 3) && s[3] == 0x3D then Some(Three(s[..3] + [0x41])[..2])
      else if |s| == 4 && Sextets(s, 2) && s[2] == 0x3D && s[3] == 0x3D then Some(Three(s[..2] + [0x41, 0x41])[..1])
      else None
    else
      if |s| == 3 && Sextets(s, 3) then Some(Three(s + [0x41])[..2])
      else if |s| == 2 && Sextets(s, 2) then Some(Three(s + [0x41, 0x41])[..1])
      else None
  }

  /** The three bytes four sextets spell. */
  function Three(s: Text): (r: Text)
    requires Sextets(s, 4)
    ensures |r| == 3
  {
    SextetRange(s[0]); SextetRange(s[1]); SextetRange(s[2]); SextetRange(s[3]);
    var a, b, c, d := Sextet(s[0]).value, Sextet(s[1]).value, Sextet(s[2]).value, Sextet(s[3]).value;
    [a * 4 + b / 16, (b % 16) * 16 + c / 4, (c % 4) * 64 + d]
  }

  lemma SextetRange(c: byte)
    requires Sextet(c).Some?
    ensures 0 <= Sextet(c).value < 64
  {
  }

  // ---- The meaning -----------------------------------------------------------------------------

  /** The number a run of digits spells. */
  function Number(s: Text): int {
    if s == [] then 0 else Number(s[..|s| - 1]) * 10 + (s[|s| - 1] as int - 0x30)
  }

  /** The value of bytes stored most significant first. */
  function BigEndian(s: Text): nat {
    if s == [] then 0 else BigEndian(s[..|s| - 1]) * 256 + s[|s| - 1]
  }

  datatype Reading = Reading(width: nat, value: int)

  /** What a version means under its provider's declared order. A number has no width. */
  function Read(order: VersionOrder, v: Text): Option<Reading> {
    match order
    case Decimal => if IsDecimal(v) then Some(Reading(0, Number(v))) else None
    case Lexical => if v != [] then Some(Reading(|v|, BigEndian(v))) else None
    case Base64 =>
      var b := DecodeBase64(v);
      if b.Some? then Some(Reading(|b.value|, BigEndian(b.value))) else None
    case Unset => None
  }

  /** Two versions compare exactly when the declared order reads both at one width, and then by the values they
      stand for. */
  predicate ByValue(order: VersionOrder, a: Text, b: Text) {
    CompareVersions(order, a, b) ==
      var x, y := Read(order, a), Read(order, b);
      if x.Some? && y.Some? && x.value.width == y.value.width
      then Some(Sign(x.value.value - y.value.value)) else None
  }

  lemma DecimalByValue(a: Text, b: Text)
    ensures ByValue(Decimal, a, b)
  {
    if IsDecimal(a) && IsDecimal(b) {
      DecimalIsByNumber(a, b);
    }
  }

  lemma LexicalByValue(a: Text, b: Text)
    ensures ByValue(Lexical, a, b)
  {
    if a != [] && |a| == |b| {
      BytesAreByValue(a, b);
    }
  }

  lemma Base64ByValue(a: Text, b: Text)
    ensures ByValue(Base64, a, b)
  {
    var x, y := DecodeBase64(a), DecodeBase64(b);
    if x.Some? && y.Some? && |x.value| == |y.value| {
      BytesAreByValue(x.value, y.value);
    }
  }

  /** compareVersions orders two versions by what they mean, under every declared order. */
  lemma CompareIsByValue(order: VersionOrder, a: Text, b: Text)
    ensures ByValue(order, a, b)
  {
    match order
    case Decimal => DecimalByValue(a, b);
    case Lexical => LexicalByValue(a, b);
    case Base64 => Base64ByValue(a, b);
    case Unset =>
  }

  /** Reflexive, antisymmetric in sign and transitive on the pairs it accepts. */
  lemma CompareIsAnOrder(order: VersionOrder, a: Text, b: Text, c: Text)
    ensures CompareVersions(order, a, a).Some? ==> CompareVersions(order, a, a) == Some(0)
    ensures var ab, ba := CompareVersions(order, a, b), CompareVersions(order, b, a);
            ab.Some? == ba.Some? && (ab.Some? ==> ab.value == -ba.value)
    ensures var ab, bc, ac := CompareVersions(order, a, b), CompareVersions(order, b, c), CompareVersions(order, a, c);
            ab.Some? && bc.Some? ==> ac.Some? && (ab.value <= 0 && bc.value <= 0 ==>
              ac.value <= 0 && (ac.value == 0 <==> ab.value == 0 && bc.value == 0))
  {
    CompareIsByValue(order, a, a);
    CompareIsByValue(order, a, b);
    CompareIsByValue(order, b, a);
    CompareIsByValue(order, b, c);
    CompareIsByValue(order, a, c);
  }

  // ---- Digits ----------------------------------------------------------------------------------

  function Pow(base: nat, n: nat): nat {
    if n == 0 then 1 else base * Pow(base, n - 1)
  }

  /** The value of digits in a base, most significant first. */
  function Value(s: Text, zero: int, base: nat): int {
    if s == [] then 0 else Value(s[..|s| - 1], zero, base) * base + (s[|s| - 1] - zero)
  }

  lemma NumberIsValue(s: Text)
    ensures Number(s) == Value(s, 0x30, 10)
    ensures BigEndian(s) == Value(s, 0, 256)
  {
  }

  /** Splitting off the leading digit. */
  lemma {:induction false} ValueHead(s: Text, zero: int, base: nat)
    requires s != []
    ensures Value(s, zero, base) == (s[0] - zero) * Pow(base, |s| - 1) + Value(s[1..], zero, base)
  {
    if |s| == 1 {
      assert s[..0] == [] && s[1..] == [];
    } else {
      var t := s[..|s| - 1];
      ValueHead(t, zero, base);
      assert s[1..][..|s| - 2] == t[1..];
      calc {
        Value(s, zero, base);
        Value(t, zero, base) * base + (s[|s| - 1] - zero);
        ((s[0] - zero) * Pow(base, |s| - 2) + Value(t[1..], zero, base)) * base + (s[|s| - 1] - zero);
        { MulShift(s[0] - zero, Pow(base, |s| - 2), Value(t[1..], zero, base), base); }
        (s[0] - zero) * Pow(base, |s| - 1) + (Value(t[1..], zero, base) * base + (s[|s| - 1] - zero));
      }
    }
  }

  lemma MulShift(d: int, p: int, v: int, base: int)
    ensures (d * p + v) * base == d * (base * p) + v * base
  {
  }

  predicate DigitsOf(s: Text, zero: int, base: nat) {
    forall i :: 0 <= i < |s| ==> 0 <= s[i] - zero < base
  }

  lemma {:induction false} ValueBound(s: Text, zero: int, base: nat)
    requires DigitsOf(s, zero, base) && base > 0
    ensures 0 <= Value(s, zero, base) < Pow(base, |s|)
  {
    if s != [] {
      var t, d := s[..|s| - 1], s[|s| - 1] - zero;
      ValueBound(t, zero, base);
      AddDigit(Value(t, zero, base), Pow(base, |s| - 1), d, base);
    }
  }

  lemma AddDigit(v: int, p: int, d: int, base: int)
    requires 0 <= v < p && 0 <= d < base
    ensures 0 <= v * base + d < base * p
  {
    assert v * base <= (p - 1) * base;
  }

  /** Digit strings of one width compare as their values do. */
  lemma {:induction false} EqualWidth(a: Text, b: Text, zero: int, base: nat)
    requires |a| == |b| && base > 0 && DigitsOf(a, zero, base) && DigitsOf(b, zero, base)
    ensures CompareBytes(a, b) == Sign(Value(a, zero, base) - Value(b, zero, base))
  {
    if a != [] {
      ValueHead(a, zero, base);
      ValueHead(b, zero, base);
      ValueBound(a[1..], zero, base);
      ValueBound(b[1..], zero, base);
      var p := Pow(base, |a| - 1);
      if a[0] < b[0] {
        LeadingDigit(a[0] - zero, b[0] - zero, p, Value(a[1..], zero, base), Value(b[1..], zero, base));
      } else if b[0] < a[0] {
        LeadingDigit(b[0] - zero, a[0] - zero, p, Value(b[1..], zero, base), Value(a[1..], zero, base));
      } else {
        EqualWidth(a[1..], b[1..], zero, base);
      }
    }
  }

  lemma LeadingDigit(d: int, e: int, p: int, x: int, y: int)
    requires d < e && 0 <= x < p && 0 <= y
    ensures d * p + x < e * p + y
  {
    assert d * p + p == (d + 1) * p <= e * p;
  }

  lemma BytesAreByValue(a: Text, b: Text)
    requires |a| == |b|
    ensures CompareBytes(a, b) == Sign(BigEndian(a) - BigEndian(b))
  {
    EqualWidth(a, b, 0, 256);
    NumberIsValue(a);
    NumberIsValue(b);
  }

  /** Leading zeros are not part of a number. */
  lemma {:induction false} TrimKeepsNumber(s: Text)
    ensures Number(TrimZeros(s)) == Number(s)
    ensures |TrimZeros(s)| <= |s| && TrimZeros(s) == s[|s| - |TrimZeros(s)|..]
    ensures TrimZeros(s) == [] || TrimZeros(s)[0] != 0x30
  {
    if s != [] && s[0] == 0x30 {
      TrimKeepsNumber(s[1..]);
      NumberIsValue(s);
      NumberIsValue(s[1..]);
      ValueHead(s, 0x30, 10);
    }
  }

  /** compareDecimal agrees with the numbers spelled, for digit strings of any length. */
  lemma DecimalIsByNumber(a: Text, b: Text)
    requires IsDecimal(a) && IsDecimal(b)
    ensures CompareDecimal(a, b) == Sign(Number(a) - Number(b))
  {
    var x, y := TrimZeros(a), TrimZeros(b);
    TrimKeepsNumber(a);
    TrimKeepsNumber(b);
    NumberIsValue(x);
    NumberIsValue(y);
    if |x| == |y| {
      EqualWidth(x, y, 0x30, 10);
    } else if |x| < |y| {
      LongerIsLarger(x, y);
    } else {
      LongerIsLarger(y, x);
    }
  }

  lemma LongerIsLarger(x: Text, y: Text)
    requires DigitsOf(x, 0x30, 10) && DigitsOf(y, 0x30, 10)
    requires |x| < |y| && y[0] != 0x30
    ensures Value(x, 0x30, 10) < Value(y, 0x30, 10)
  {
    ValueBound(x, 0x30, 10);
    ValueHead(y, 0x30, 10);
    ValueBound(y[1..], 0x30, 10);
    PowMonotone(10, |x|, |y| - 1);
    LeadingDigit(0, y[0] - 0x30, Pow(10, |y| - 1), Value(x, 0x30, 10), Value(y[1..], 0x30, 10));
  }

  lemma {:induction false} PowMonotone(base: nat, m: nat, n: nat)
    requires base > 0 && m <= n
    ensures Pow(base, m) <= Pow(base, n)
  {
    if m < n {
      PowMonotone(base, m, n - 1);
      assert Pow(base, n) >= Pow(base, n - 1);
    }
  }

  // ---- The four spellings of base64 ----------------------------------------------------------------

  /** The alphabets of sections 4 and 5 of RFC 4648. */
  function Letter(v: nat, urlSafe: bool): byte
    requires v < 64
  {
    if v < 26 then 0x41 + v
    else if v < 52 then 0x61 + v - 26
    else if v < 62 then 0x30 + v - 52
    else if v == 62 then (if urlSafe then 0x2D else 0x2B)
    else (if urlSafe then 0x5F else 0x2F)
  }

  /** The encoding RFC 4648 defines: four letters for three bytes, and a padded or unpadded tail. */
  function Encode(b: Text, urlSafe: bool, padded: bool): Text {
    if b == [] then []
    else if |b| == 1 then
      [Letter(b[0] / 4, urlSafe), Letter((b[0] % 4) * 16, urlSafe)] + (if padded then [0x3D, 0x3D] else [])
    else if |b| == 2 then
      [Letter(b[0] / 4, urlSafe), Letter((b[0] % 4) * 16 + b[1] / 16, urlSafe), Letter((b[1] % 16) * 4, urlSafe)]
      + (if padded then [0x3D] else [])
    else
      [Letter(b[0] / 4, urlSafe), Letter((b[0] % 4) * 16 + b[1] / 16, urlSafe),
       Letter((b[1] % 16) * 4 + b[2] / 64, urlSafe), Letter(b[2] % 64, urlSafe)]
      + Encode(b[3..], urlSafe, padded)
  }

  lemma LetterSextet(v: nat)
    requires v < 64
    ensures Sextet(Letter(v, false)) == Some(v)
  {
  }

  /** All four spellings of a value decode to that value. */
  lemma Base64RoundTrip(b: Text, urlSafe: bool, padded: bool)
    requires b != []
    ensures DecodeBase64(Encode(b, urlSafe, padded)) == Some(b)
  {
    var std := Encode(b, false, padded);
    EncodedText(b, false, padded);
    EncodedPad(b, false, padded);
    NormalizeEncoded(b, urlSafe, padded);
    StripNothing(std);
    DecodeEncoded(b, padded);
    if !EndsInPad(std) && padded {
      NoTailNoPad(b);
      DecodeEncoded(b, false);
    }
  }

  lemma NormalizeEncoded(b: Text, urlSafe: bool, padded: bool)
    requires b != []
    ensures Normalize(Encode(b, urlSafe, padded)) == Some(Encode(b, false, padded))
  {
    var s := Encode(b, urlSafe, padded);
    EncodedText(b, urlSafe, padded);
    if urlSafe {
      UrlToStd(b, padded);
      if 0x2D !in s && 0x5F !in s {
        assert ToStd(s) == s;
      }
    }
  }

  predicate InAlphabet(c: byte, urlSafe: bool) {
    || IsUpper(c) || IsLower(c) || IsDigit(c) || c == 0x3D
    || (if urlSafe then c == 0x2D || c == 0x5F else c == 0x2B || c == 0x2F)
  }

  /** The letters of an encoding are those of its alphabet and the pad. */
  lemma {:induction false} EncodedText(b: Text, urlSafe: bool, padded: bool)
    ensures var s := Encode(b, urlSafe, padded);
            (forall i :: 0 <= i < |s| ==> InAlphabet(s[i], urlSafe)) && (b != [] ==> s != [])
  {
    if |b| >= 3 {
      EncodedText(b[3..], urlSafe, padded);
    }
  }

  /** A padded encoding ends in a pad exactly when it has a tail. */
  lemma {:induction false} EncodedPad(b: Text, urlSafe: bool, padded: bool)
    ensures EndsInPad(Encode(b, urlSafe, padded)) <==> padded && |b| % 3 != 0
  {
    if |b| >= 3 {
      var rest := b[3..];
      EncodedPad(rest, urlSafe, padded);
      EncodedText(rest, urlSafe, padded);
      GroupPad(Encode(b, urlSafe, padded)[..4], Encode(rest, urlSafe, padded));
      assert |rest| % 3 == |b| % 3;
    } else {
      TailPad(b, urlSafe, padded);
    }
  }

  lemma GroupPad(group: Text, rest: Text)
    requires |group| == 4 && group[3] != 0x3D
    ensures EndsInPad(group + rest) <==> EndsInPad(rest)
  {
  }

  lemma TailPad(b: Text, urlSafe: bool, padded: bool)
    requires |b| < 3
    ensures EndsInPad(Encode(b, urlSafe, padded)) <==> padded && |b| % 3 != 0
  {
  }

  lemma {:induction false} UrlToStd(b: Text, padded: bool)
    ensures ToStd(Encode(b, true, padded)) == Encode(b, false, padded)
  {
    if |b| >= 3 {
      UrlToStd(b[3..], padded);
      var s := Encode(b, true, padded);
      assert s == s[..4] + Encode(b[3..], true, padded);
      assert ToStd(s) == ToStd(s[..4]) + ToStd(Encode(b[3..], true, padded));
    }
  }

  lemma {:induction false} StripNothing(s: Text)
    requires 0x0A !in s && 0x0D !in s
    ensures StripLines(s) == s
  {
    if s != [] {
      StripNothing(s[1..]);
    }
  }

  lemma {:induction false} DecodeEncoded(b: Text, padded: bool)
    ensures DecodeQuanta(Encode(b, false, padded), padded) == Some(b)
  {
    if |b| == 1 {
      DecodeOneByte(b, padded);
    } else if |b| == 2 {
      DecodeTwoBytes(b, padded);
    } else if |b| >= 3 {
      var s := Encode(b, false, padded);
      DecodeThreeBytes(b, padded);
      DecodeEncoded(b[3..], padded);
      assert s[4..] == Encode(b[3..], false, padded);
      assert b == b[..3] + b[3..];
      assert DecodeQuanta(s, padded) == Some(Three(s) + b[3..]);
    }
  }

  lemma DecodeOneByte(b: Text, padded: bool)
    requires |b| == 1
    ensures DecodeQuanta(Encode(b, false, padded), padded) == Some(b)
  {
    var s := Encode(b, false, padded);
    LetterSextet(b[0] / 4);
    LetterSextet((b[0] % 4) * 16);
    var q := [s[0], s[1], 0x41, 0x41];
    assert Three(q)[..1] == b;
    if padded {
      assert Sextet(s[2]).None? && !Sextets(s, 3);
      assert s[..2] + [0x41, 0x41] == q;
    } else {
      assert s + [0x41, 0x41] == q;
    }
  }

  lemma DecodeTwoBytes(b: Text, padded: bool)
    requires |b| == 2
    ensures DecodeQuanta(Encode(b, false, padded), padded) == Some(b)
  {
    var s := Encode(b, false, padded);
    LetterSextet(b[0] / 4);
    LetterSextet((b[0] % 4) * 16 + b[1] / 16);
    LetterSextet((b[1] % 16) * 4);
    var q := [s[0], s[1], s[2], 0x41];
    assert Three(q)[..2] == b;
    if padded {
      assert Sextet(s[3]).None?;
      assert s[..3] + [0x41] == q;
    } else {
      assert s + [0x41] == q;
    }
  }

  lemma DecodeThreeBytes(b: Text, padded: bool)
    requires |b| >= 3
    ensures var s := Encode(b, false, padded);
            Sextets(s, 4) && Three(s) == b[..3]
  {
    LetterSextet(b[0] / 4);
    LetterSextet((b[0] % 4) * 16 + b[1] / 16);
    LetterSextet((b[1] % 16) * 4 + b[2] / 64);
    LetterSextet(b[2] % 64);
  }

  /** With no tail there is nothing to pad. */
  lemma {:induction false} NoTailNoPad(b: Text)
    requires |b| % 3 == 0
    ensures Encode(b, false, true) == Encode(b, false, false)
  {
    if b != [] {
      NoTailNoPad(b[3..]);
    }
  }

  /** A text accepted with line breaks in it decodes as its clean spelling does. */
  lemma LineBreaksChangeNothing(s: Text)
    requires DecodeBase64(s).Some? && StripLines(s) != []
    ensures DecodeBase64(StripLines(s)) == DecodeBase64(s)
  {
    var t := Normalize(s).value;
    NormalizeStripped(s);
    StripKeeps(t);
    StripNothing(StripLines(t));
    SamePad(t);
  }

  lemma NormalizeStripped(s: Text)
    requires Normalize(s).Some? && StripLines(s) != []
    ensures Normalize(StripLines(s)) == Some(StripLines(Normalize(s).value))
  {
    StripKeeps(s);
    StripToStd(s);
  }

  /** When an unpadded decoding succeeds there is no pad to lose, and a last pad is never stripped. */
  lemma SamePad(t: Text)
    requires DecodeQuanta(StripLines(t), EndsInPad(t)).Some?
    ensures EndsInPad(StripLines(t)) == EndsInPad(t)
  {
    if EndsInPad(t) {
      StripLast(t);
    } else if EndsInPad(StripLines(t)) {
      UnpaddedHasNoPad(StripLines(t));
    }
  }

  lemma {:induction false} StripKeeps(s: Text)
    ensures var c := StripLines(s);
            && (0x2D in c <==> 0x2D in s) && (0x5F in c <==> 0x5F in s)
            && (0x2B in c <==> 0x2B in s) && (0x2F in c <==> 0x2F in s)
            && 0x0A !in c && 0x0D !in c
  {
    if s != [] {
      StripKeeps(s[1..]);
      assert s == [s[0]] + s[1..];
    }
  }

  lemma ToStdJoins(a: Text, b: Text)
    ensures ToStd(a + b) == ToStd(a) + ToStd(b)
  {
  }

  lemma ToStdTail(s: Text)
    requires s != []
    ensures ToStd(s) != [] && ToStd(s)[1..] == ToStd(s[1..]) && ToStd(s) == ToStd([s[0]]) + ToStd(s[1..])
  {
  }

  lemma {:induction false} StripToStd(s: Text)
    ensures StripLines(ToStd(s)) == ToStd(StripLines(s))
  {
    if s != [] {
      StripToStd(s[1..]);
      var h: Text := if s[0] == 0x0A || s[0] == 0x0D then [] else [s[0]];
      ToStdTail(s);
      ToStdJoins(h, StripLines(s[1..]));
    } else {
      assert ToStd([]) == [];
    }
  }

  lemma {:induction false} StripLast(s: Text)
    requires EndsInPad(s)
    ensures EndsInPad(StripLines(s))
  {
    if |s| > 1 {
      StripLast(s[1..]);
    }
  }

  lemma {:induction false} UnpaddedHasNoPad(s: Text)
    requires 0x3D in s
    ensures DecodeQuanta(s, false).None?
  {
    assert Sextet(0x3D).None?;
    if Sextets(s, 4) {
      assert s == s[..4] + s[4..];
      UnpaddedHasNoPad(s[4..]);
    }
  }
}
