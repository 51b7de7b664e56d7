/** The ISO 7064 check that decides whether a candidate is an IBAN (internal/pipeline/mask.go, validIBAN). */
module Iban {
  import opened Names

  const SPACE: byte := 0x20

  /** strings.ReplaceAll(s, " ", ""). */
  function Compact(s: Text): Text {
    if s == [] then [] else (if s[0] == SPACE then [] else [s[0]]) + Compact(s[1..])
  }

  /** The decimal digits a character stands for: itself, or two digits of which A is 10 and Z is 35. */
  function Expanded(c: byte): seq<nat>
    requires IsDigit(c) || IsUpper(c)
  {
    if IsDigit(c) then [c - 0x30] else [(c - 0x41 + 10) / 10, (c - 0x41 + 10) % 10]
  }

  /** ISO 13616: a letter stands for its place in the alphabet and nine. */
  lemma ExpandedMeans(c: byte)
    requires IsDigit(c) || IsUpper(c)
    ensures Decimal(Expanded(c)) == if '0' <= c as char <= '9' then c - '0' as int else c - 'A' as int + 10
    ensures |Expanded(c)| == if '0' <= c as char <= '9' then 1 else 2
  {
    var ds := Expanded(c);
    assert ds[..|ds| - 1] == if |ds| == 2 then [ds[0]] else [];
  }

  predicate Expandable(s: Text) {
    forall i :: 0 <= i < |s| ==> IsDigit(s[i]) || IsUpper(s[i])
  }

  /** The number's decimal digits, written out. */
  function ExpandAll(s: Text): seq<nat>
    requires Expandable(s)
  {
    if s == [] then [] else ExpandAll(s[..|s| - 1]) + Expanded(s[|s| - 1])
  }

  /** The number some decimal digits spell. */
  function Decimal(ds: seq<nat>): nat {
    if ds == [] then 0 else 10 * Decimal(ds[..|ds| - 1]) + ds[|ds| - 1]
  }

  /** Country code and check digits go to the end. */
  function Rotated(s: Text): Text
    requires |s| >= 4
  {
    s[4..] + s[..4]
  }

  /** ISO 7064 MOD 97-10: the expanded number of the rotated string leaves remainder 1. */
  predicate IsIban(s: Text) {
    var c := Compact(s);
    15 <= |c| <= 34 && Expandable(Rotated(c)) && Decimal(ExpandAll(Rotated(c))) % 97 == 1
  }

  lemma ModStep(n: nat, k: nat, d: nat)
    ensures (n % 97 * k + d) % 97 == (n * k + d) % 97
  {
    var q, r := n / 97, n % 97;
    var m, x := q * k, r * k + d;
    assert n * k == (97 * q + r) * k == 97 * m + r * k;
    MultiplesVanish(m, x);
  }

  lemma MultiplesVanish(m: nat, x: nat)
    ensures (97 * m + x) % 97 == x % 97
  {
  }

  lemma DecimalPush(ds: seq<nat>, d: nat)
    ensures Decimal(ds + [d]) == 10 * Decimal(ds) + d
  {
    assert (ds + [d])[..|ds|] == ds;
  }

  lemma DecimalPushTwo(ds: seq<nat>, c: nat, d: nat)
    ensures Decimal(ds + [c, d]) == 100 * Decimal(ds) + 10 * c + d
  {
    assert ds + [c, d] == ds + [c] + [d];
    DecimalPush(ds + [c], d);
    DecimalPush(ds, c);
  }

  /** `rem` is the remainder of the number that the first `i` characters expand to. */
  ghost predicate Running(s: Text, i: nat, rem: nat) {
    i <= |s| && Expandable(s[..i]) && rem == Decimal(ExpandAll(s[..i])) % 97
  }

  lemma ExpandOne(s: Text, c: byte)
    requires Expandable(s) && (IsDigit(c) || IsUpper(c))
    ensures Expandable(s + [c]) && ExpandAll(s + [c]) == ExpandAll(s) + Expanded(c)
  {
    var t := s + [c];
    assert t[..|t| - 1] == s && t[|t| - 1] == c;
    forall k | 0 <= k < |t|
      ensures IsDigit(t[k]) || IsUpper(t[k])
    {
      if k < |s| {
        assert t[k] == s[k];
      }
    }
  }

  lemma RunDigit(s: Text, i: nat, rem: nat)
    requires i < |s| && Running(s, i, rem) && IsDigit(s[i])
    ensures Running(s, i + 1, (rem * 10 + (s[i] - 0x30)) % 97)
  {
    var ds := ExpandAll(s[..i]);
    ExpandOne(s[..i], s[i]);
    assert s[..i + 1] == s[..i] + [s[i]];
    DecimalPush(ds, s[i] - 0x30);
    ModStep(Decimal(ds), 10, s[i] - 0x30);
  }

  lemma RunLetter(s: Text, i: nat, rem: nat)
    requires i < |s| && Running(s, i, rem) && IsUpper(s[i])
    ensures Running(s, i + 1, (rem * 100 + (s[i] - 0x41) + 10) % 97)
  {
    var ds, v := ExpandAll(s[..i]), s[i] - 0x41 + 10;
    ExpandOne(s[..i], s[i]);
    assert s[..i + 1] == s[..i] + [s[i]];
    DecimalPushTwo(ds, v / 10, v % 10);
    ModStep(Decimal(ds), 100, v);
  }

  lemma RunAll(s: Text, rem: nat)
    requires Running(s, |s|, rem)
    ensures Expandable(s) && rem == Decimal(ExpandAll(s)) % 97
  {
    assert s[..|s|] == s;
  }

  /** The running remainder is the remainder of the whole number, whatever its length. */
  method Remainder(rotated: Text) returns (r: Option<nat>)
    ensures r.Some? <==> Expandable(rotated)
    ensures r.Some? ==> r.value == Decimal(ExpandAll(rotated)) % 97
  {
    var rem: nat := 0;
    for i := 0 to |rotated|
      invariant Running(rotated, i, rem)
    {
      var c := rotated[i];
      if IsDigit(c) {
        RunDigit(rotated, i, rem);
        var d: nat := c - 0x30;
        rem := (rem * 10 + d) % 97;
      } else if IsUpper(c) {
        RunLetter(rotated, i, rem);
        var d: nat := c - 0x41;
        rem := (rem * 100 + d + 10) % 97;
      } else {
        return None;
      }
    }
    RunAll(rotated, rem);
    return Some(rem);
  }

  method ValidIban(s: Text) returns (ok: bool)
    ensures ok <==> IsIban(s)
  {
    var compact := Compact(s);
    if |compact| < 15 || |compact| > 34 {
      return false;
    }
    var rem := Remainder(Rotated(compact));
    return rem == Some(1);
  }
}
