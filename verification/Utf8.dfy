/** UTF-8 as Go's unicode/utf8 reads and writes it: a byte that begins no encoding is read as U+FFFD, one
    byte at a time. */
module Utf8 {
  import opened Names
  import opened Lists

  /** A Unicode scalar value. */
  type Rune = r: int | 0 <= r < 0xD800 || 0xE000 <= r <= 0x10FFFF witness 0

  const ERROR: Rune := 0xFFFD

  /** What one call of DecodeRuneInString returns. */
  datatype Decoded = Decoded(rune: Rune, width: nat) {
    /** The byte it read begins no encoding. */
    predicate Bad() {
      rune == ERROR && width == 1
    }
  }

  predicate Continues(b: byte) {
    0x80 <= b <= 0xBF
  }

  function Byte(i: int): byte
    requires 0 <= i < 256
  {
    i
  }

  /** A continuation byte carrying the last six bits of `q`. */
  function Tail(q: nat): (b: byte)
    ensures Continues(b) && b == 0x80 + q % 64
  {
    0x80 + q % 64
  }

  /** utf8.EncodeRune. */
  function Encode(r: Rune): (s: Text)
    ensures 1 <= |s| <= 4
  {
    var r1 := r / 64;
    var r2 := r1 / 64;
    var r3 := r2 / 64;
    if r < 0x80 then [Byte(r)]
    else if r < 0x800 then [Byte(0xC0 + r1), Tail(r)]
    else if r < 0x1_0000 then [Byte(0xE0 + r2), Tail(r1), Tail(r)]
    else [Byte(0xF0 + r3), Tail(r2), Tail(r1), Tail(r)]
  }

  /** The number whose digits to the base 64 are the bytes' payloads. */
  function Joined(lead: int, b: byte): int {
    64 * lead + (b - 0x80)
  }

  /** utf8.DecodeRuneInString of a string that is not empty. */
  function Decode(s: Text): (d: Decoded)
    requires s != []
    ensures 1 <= d.width <= |s|
  {
    if s[0] < 0x80 then Decoded(s[0], 1)
    else if 0xC2 <= s[0] <= 0xDF then Decode2(s)
    else if 0xE0 <= s[0] <= 0xEF then Decode3(s)
    else if 0xF0 <= s[0] <= 0xF4 then Decode4(s)
    else Decoded(ERROR, 1)
  }

  function Decode2(s: Text): (d: Decoded)
    requires s != [] && 0xC2 <= s[0] <= 0xDF
    ensures 1 <= d.width <= |s|
  {
    if |s| >= 2 && Continues(s[1]) then Decoded(Joined(s[0] - 0xC0, s[1]), 2) else Decoded(ERROR, 1)
  }

  function Decode3(s: Text): (d: Decoded)
    requires s != [] && 0xE0 <= s[0] <= 0xEF
    ensures 1 <= d.width <= |s|
  {
    if |s| >= 3 && Continues(s[1]) && Continues(s[2])
       && (s[0] == 0xE0 ==> s[1] >= 0xA0) && (s[0] == 0xED ==> s[1] <= 0x9F)
    then Decoded(Joined(Joined(s[0] - 0xE0, s[1]), s[2]), 3)
    else Decoded(ERROR, 1)
  }

  function Decode4(s: Text): (d: Decoded)
    requires s != [] && 0xF0 <= s[0] <= 0xF4
    ensures 1 <= d.width <= |s|
  {
    if |s| >= 4 && Continues(s[1]) && Continues(s[2]) && Continues(s[3])
       && (s[0] == 0xF0 ==> s[1] >= 0x90) && (s[0] == 0xF4 ==> s[1] <= 0x8F)
    then Decoded(Joined(Joined(Joined(s[0] - 0xF0, s[1]), s[2]), s[3]), 4)
    else Decoded(ERROR, 1)
  }

  /** Every character of a string, bad bytes as U+FFFD. */
  function Runes(s: Text): seq<Rune> {
    if s == [] then [] else [Decode(s).rune] + Runes(s[Decode(s).width..])
  }

  function Spell(rs: seq<Rune>): Text {
    if rs == [] then [] else Encode(rs[0]) + Spell(rs[1..])
  }

  /** utf8.ValidString. */
  predicate Valid(s: Text) {
    s == [] || (!Decode(s).Bad() && Valid(s[Decode(s).width..]))
  }

  // ---- The two directions ------------------------------------------------------------------------------

  lemma DecodeOfEncode(r: Rune, tail: Text)
    ensures Decode(Encode(r) + tail) == Decoded(r, |Encode(r)|)
  {
    var s, e := Encode(r) + tail, Encode(r);
    assert forall i :: 0 <= i < |e| ==> s[i] == e[i];
  }

  lemma EncodeOfDecode(s: Text)
    requires s != [] && !Decode(s).Bad()
    ensures Encode(Decode(s).rune) == s[..Decode(s).width]
  {
    if 0xC2 <= s[0] <= 0xDF {
      Encode2(s);
    } else if 0xE0 <= s[0] <= 0xEF {
      Encode3(s);
    } else if 0xF0 <= s[0] <= 0xF4 {
      Encode4(s);
    }
  }

  lemma Encode2(s: Text)
    requires s != [] && 0xC2 <= s[0] <= 0xDF && Decode2(s).width == 2
    ensures Encode(Decode2(s).rune) == s[..2]
  {
    Digits(s[0] - 0xC0, s[1]);
  }

  lemma Encode3(s: Text)
    requires s != [] && 0xE0 <= s[0] <= 0xEF && Decode3(s).width == 3
    ensures Encode(Decode3(s).rune) == s[..3]
  {
    Digits(s[0] - 0xE0, s[1]);
    Digits(Joined(s[0] - 0xE0, s[1]), s[2]);
  }

  lemma Encode4(s: Text)
    requires s != [] && 0xF0 <= s[0] <= 0xF4 && Decode4(s).width == 4
    ensures Encode(Decode4(s).rune) == s[..4]
  {
    var lead := s[0] - 0xF0;
    var j1 := Joined(lead, s[1]);
    var j2 := Joined(j1, s[2]);
    var j3 := Joined(j2, s[3]);
    Digits(lead, s[1]);
    Digits(j1, s[2]);
    Digits(j2, s[3]);
    assert Decode4(s).rune == j3 >= 0x1_0000;
    assert Encode(j3) == [Byte(0xF0 + lead), Tail(j1), Tail(j2), Tail(j3)];
  }

  lemma Digits(lead: nat, b: byte)
    requires Continues(b)
    ensures Joined(lead, b) >= 0 && Joined(lead, b) / 64 == lead && Tail(Joined(lead, b)) == b
  {
  }

  /** The first character is read first, whatever follows. */
  lemma RunesOfEncode(r: Rune, rest: Text)
    ensures Runes(Encode(r) + rest) == [r] + Runes(rest)
    ensures Valid(Encode(r) + rest) <==> Valid(rest)
  {
    var s := Encode(r) + rest;
    DecodeOfEncode(r, rest);
    assert s[|Encode(r)|..] == rest;
    assert r == ERROR ==> |Encode(r)| == 3;
  }

  /** Spelling a list of characters and reading it back gives the list, whatever follows. */
  lemma {:induction false} RunesOfSpell(rs: seq<Rune>, tail: Text)
    ensures Runes(Spell(rs) + tail) == rs + Runes(tail)
    ensures Valid(Spell(rs) + tail) <==> Valid(tail)
  {
    if rs == [] {
      assert Spell(rs) + tail == tail;
    } else {
      RunesOfSpell(rs[1..], tail);
      RunesOfEncode(rs[0], Spell(rs[1..]) + tail);
      Joins(Encode(rs[0]), Spell(rs[1..]), tail);
      HeadAndTail(rs);
      Joins([rs[0]], rs[1..], Runes(tail));
    }
  }

  lemma SpellIsValid(rs: seq<Rune>)
    ensures Runes(Spell(rs)) == rs && Valid(Spell(rs))
  {
    RunesOfSpell(rs, []);
    assert Spell(rs) + [] == Spell(rs) && rs + [] == rs;
  }

  /** A valid string is the spelling of its characters. */
  lemma {:induction false} SpellOfRunes(s: Text)
    requires Valid(s)
    ensures Spell(Runes(s)) == s
  {
    if s != [] {
      EncodeOfDecode(s);
      SpellOfRunes(s[Decode(s).width..]);
      SpellFirst(Decode(s).rune, Runes(s[Decode(s).width..]));
      Cut(s, Decode(s).width);
    }
  }

  lemma SpellFirst(r: Rune, rest: seq<Rune>)
    ensures Spell([r] + rest) == Encode(r) + Spell(rest)
  {
    assert ([r] + rest)[1..] == rest;
  }

  lemma {:induction false} SpellConcat(a: seq<Rune>, b: seq<Rune>)
    ensures Spell(a + b) == Spell(a) + Spell(b)
  {
    if a == [] {
      assert a + b == b;
    } else {
      assert (a + b)[1..] == a[1..] + b;
      SpellConcat(a[1..], b);
    }
  }

  /** A string is valid exactly when it is what some list of characters spells. */
  lemma ValidIsSpelled(s: Text)
    ensures Valid(s) <==> exists rs: seq<Rune> :: Spell(rs) == s
  {
    if Valid(s) {
      SpellOfRunes(s);
    }
    if rs: seq<Rune> :| Spell(rs) == s {
      SpellIsValid(rs);
    }
  }

  /** No string has more characters than bytes. */
  lemma {:induction false} NoMoreRunesThanBytes(s: Text)
    ensures |Runes(s)| <= |s|
  {
    if s != [] {
      NoMoreRunesThanBytes(s[Decode(s).width..]);
    }
  }

  /** A zero byte is always the character U+0000, in valid and in invalid strings. */
  lemma {:induction false} ZeroIsNul(s: Text)
    ensures 0 in s <==> 0 in Runes(s)
  {
    if s != [] {
      var d := Decode(s);
      ZeroIsNul(s[d.width..]);
      assert s == s[..d.width] + s[d.width..];
      assert 0 in s[..d.width] <==> d.rune == 0;
    }
  }

  /** What a Postgres text column takes: valid UTF-8 without U+0000. */
  predicate Storable(s: Text) {
    Valid(s) && 0 !in s
  }

  // ---- Reading from an index, as a loop does -----------------------------------------------------------

  function RunesFrom(s: Text, i: nat): seq<Rune>
    requires i <= |s|
    decreases |s| - i
  {
    if i == |s| then [] else [Decode(s[i..]).rune] + RunesFrom(s, i + Decode(s[i..]).width)
  }

  predicate ValidFrom(s: Text, i: nat)
    requires i <= |s|
    decreases |s| - i
  {
    i == |s| || (!Decode(s[i..]).Bad() && ValidFrom(s, i + Decode(s[i..]).width))
  }

  lemma {:induction false} FromIndex(s: Text, i: nat)
    requires i <= |s|
    ensures RunesFrom(s, i) == Runes(s[i..]) && ValidFrom(s, i) == Valid(s[i..])
    decreases |s| - i
  {
    if i < |s| {
      var rest := s[i..];
      var w := Decode(rest).width;
      DropDrop(s, i, w);
      assert rest[w..] == s[i + w..];
      FromIndex(s, i + w);
    }
  }

  lemma FromStart(s: Text)
    ensures RunesFrom(s, 0) == Runes(s) && ValidFrom(s, 0) == Valid(s)
  {
    FromIndex(s, 0);
    assert s[0..] == s;
  }

  /** One step of a loop that decodes a string from the front, `all` being what is still to come and what
      was read already. */
  lemma StepFrom(s: Text, i: nat, all: seq<Rune>, n: nat)
    requires i < |s| && n <= |all| && all[n..] == RunesFrom(s, i)
    ensures var d := Decode(s[i..]);
            && n < |all| && all[n] == d.rune && all[n + 1..] == RunesFrom(s, i + d.width)
            && (ValidFrom(s, i) <==> !d.Bad() && ValidFrom(s, i + d.width))
  {
    ReadOne(all, n, Decode(s[i..]).rune, RunesFrom(s, i + Decode(s[i..]).width));
  }
}
