/** The character rules, the check every field goes through, and the cleaners a normalizer calls first
    (internal/record/validate.go and internal/record/clean.go). */
module Clean {
  import opened Names
  import opened Lists
  import opened Utf8

  const MAX_TITLE := 1024
  const MAX_TEXT := 1048576
  const MAX_AUTHOR := 256
  const SPACE: Rune := 0x20

  datatype CharRule = IdentifierChars | DisplayChars | OneLineChars | ContentChars {
    predicate Refuses(c: Rune) {
      if this == ContentChars then c == 0
      else if c < 0x20 || 0x7F <= c <= 0x9F || c == 0x2028 || c == 0x2029 then true
      else if this == OneLineChars then false
      else if this == DisplayChars && (c == 0x200C || c == 0x200D) then false
      else Invisible(c)
    }

    predicate Allows(rs: seq<Rune>) {
      forall i :: 0 <= i < |rs| ==> !Refuses(rs[i])
    }
  }

  predicate Invisible(c: Rune) {
    || c == 0x00AD || c == 0x061C || 0x200B <= c <= 0x200F || 0x202A <= c <= 0x202E
    || 0x2060 <= c <= 0x206F || c == 0xFEFF
  }

  /** What each rule refuses, as intervals of code points: U+0000 alone; the controls and the two line separators; those
      and the characters that do not show, but for the two joiners; and those with the joiners. Each rule takes whatever
      a stricter one takes. */
  lemma RulesMean(c: Rune)
    ensures ContentChars.Refuses(c) <==> c == 0
    ensures OneLineChars.Refuses(c) <==> c <= 0x1F || 0x7F <= c <= 0x9F || 0x2028 <= c <= 0x2029
    ensures DisplayChars.Refuses(c) <==>
            || c <= 0x1F || 0x7F <= c <= 0x9F || c == 0xAD || c == 0x61C || c == 0x200B || 0x200E <= c <= 0x200F
            || 0x2028 <= c <= 0x202E || 0x2060 <= c <= 0x206F || c == 0xFEFF
    ensures IdentifierChars.Refuses(c) <==> DisplayChars.Refuses(c) || 0x200C <= c <= 0x200D
    ensures ContentChars.Refuses(c) ==> OneLineChars.Refuses(c)
    ensures OneLineChars.Refuses(c) ==> DisplayChars.Refuses(c)
  {
  }

  datatype Verdict = Fine | TooShort | TooLong | BadCharacter | NotUtf8

  // ---- checkString ---------------------------------------------------------------------------------

  /** What a field may hold: valid UTF-8 of `min` bytes to `max` characters, none of which the rule refuses. */
  predicate Permitted(s: Text, min: nat, max: nat, rule: CharRule) {
    Valid(s) && min <= |s| && |Runes(s)| <= max && rule.Allows(Runes(s))
  }

  /** utf8.RuneCountInString. */
  method RuneCount(s: Text) returns (n: nat)
    ensures n == |Runes(s)|
  {
    n := 0;
    var i := 0;
    FromStart(s);
    while i < |s|
      invariant i <= |s| && n + |RunesFrom(s, i)| == |Runes(s)|
    {
      var d := Decode(s[i..]);
      i, n := i + d.width, n + 1;
    }
  }

  method CheckString(s: Text, min: nat, max: nat, rule: CharRule) returns (v: Verdict)
    ensures v == Fine <==> Permitted(s, min, max, rule)
    ensures v == TooShort <==> |s| < min
    ensures v == TooLong <==> min <= |s| && |Runes(s)| > max
  {
    if |s| < min {
      return TooShort;
    }
    NoMoreRunesThanBytes(s);
    if |s| > max {
      var count := RuneCount(s);
      if count > max {
        return TooLong;
      }
    }
    if rule == ContentChars {
      ZeroIsNul(s);
      if 0 in s {
        return BadCharacter;
      }
    } else {
      var refused := RefusedIn(s, rule);
      if refused {
        return BadCharacter;
      }
    }
    if !Valid(s) {
      return NotUtf8;
    }
    return Fine;
  }

  /** Ranging over the characters of a string, bad bytes as U+FFFD. */
  method RefusedIn(s: Text, rule: CharRule) returns (refused: bool)
    ensures refused <==> !rule.Allows(Runes(s))
  {
    var i := 0;
    ghost var all, k := Runes(s), 0;
    FromStart(s);
    while i < |s|
      invariant i <= |s| && k <= |all| && all[k..] == RunesFrom(s, i)
      invariant forall j :: 0 <= j < k ==> !rule.Refuses(all[j])
    {
      var d := Decode(s[i..]);
      StepFrom(s, i, all, k);
      if rule.Refuses(d.rune) {
        return true;
      }
      i, k := i + d.width, k + 1;
    }
    return false;
  }

  // ---- The cleaners --------------------------------------------------------------------------------

  /** What is written for one character: itself, or what it is replaced with, or nothing. */
  function Written(c: Rune, rule: CharRule, replacement: Option<Rune>): seq<Rune> {
    if !rule.Refuses(c) then [c] else if replacement.Some? then [replacement.value] else []
  }

  function Kept(rs: seq<Rune>, rule: CharRule, replacement: Option<Rune>): seq<Rune> {
    if rs == [] then [] else Written(rs[0], rule, replacement) + Kept(rs[1..], rule, replacement)
  }

  function First<T>(s: seq<T>, n: nat): seq<T> {
    if |s| <= n then s else s[..n]
  }

  /** Decode, drop or replace what the rule refuses, take the first `max` characters. */
  function Cleaned(s: Text, rule: CharRule, max: nat, replacement: Option<Rune>): Text {
    Spell(First(Kept(Runes(s), rule, replacement), max))
  }

  /** With a replacement, every character is kept or replaced. */
  lemma {:induction false} KeptReplaces(rs: seq<Rune>, rule: CharRule, c: Rune, i: nat)
    requires i < |rs|
    ensures var kept := Kept(rs, rule, Some(c)); |kept| == |rs| && kept[i] == if rule.Refuses(rs[i]) then c else rs[i]
  {
    if i > 0 {
      KeptReplaces(rs[1..], rule, c, i - 1);
    } else if |rs| > 1 {
      KeptReplaces(rs[1..], rule, c, 0);
    }
  }

  /** Without one, the characters kept are those the rule allows, in their order. */
  lemma {:induction false} KeptDrops(rs: seq<Rune>, rule: CharRule)
    ensures InOrderOf(rs, Kept(rs, rule, None)) && |Kept(rs, rule, None)| == AllowedCount(rs, rule)
    ensures rule.Allows(Kept(rs, rule, None))
  {
    if rs == [] {
      assert PickedAt(rs, Kept(rs, rule, None), []);
    } else {
      KeptDrops(rs[1..], rule);
      PickOneBefore(rs[1..], Kept(rs[1..], rule, None), rs[0]);
      HeadAndTail(rs);
      assert [] + Kept(rs[1..], rule, None) == Kept(rs[1..], rule, None);
    }
  }

  function AllowedCount(rs: seq<Rune>, rule: CharRule): nat {
    if rs == [] then 0 else AllowedCount(rs[1..], rule) + if rule.Refuses(rs[0]) then 0 else 1
  }

  /** The first `max` of the characters read, each kept, or replaced if the rule refuses it; or, with nothing to replace
      them with, as many of those the rule allows, in their order, none of them left out. */
  ghost predicate CleanedAs(rs: seq<Rune>, out: seq<Rune>, rule: CharRule, max: nat, replacement: Option<Rune>) {
    match replacement
    case Some(c) =>
      && |out| == (if |rs| < max then |rs| else max)
      && forall i :: 0 <= i < |out| ==> out[i] == if rule.Refuses(rs[i]) then c else rs[i]
    case None =>
      && |out| == (if AllowedCount(rs, rule) < max then AllowedCount(rs, rule) else max)
      && rule.Allows(out) && exists whole :: out <= whole && IsAllowedPart(rs, whole, rule)
  }

  /** Some of the characters in their order, and all that the rule allows. */
  ghost predicate IsAllowedPart(rs: seq<Rune>, whole: seq<Rune>, rule: CharRule) {
    InOrderOf(rs, whole) && rule.Allows(whole) && |whole| == AllowedCount(rs, rule)
  }

  lemma CleanedMeans(s: Text, rule: CharRule, max: nat, replacement: Option<Rune>)
    ensures exists out :: Cleaned(s, rule, max, replacement) == Spell(out) && CleanedAs(Runes(s), out, rule, max, replacement)
  {
    var rs, kept := Runes(s), Kept(Runes(s), rule, replacement);
    var out := First(kept, max);
    match replacement
    case Some(c) =>
      if rs != [] {
        KeptReplaces(rs, rule, c, 0);
      }
      forall i | 0 <= i < |out|
        ensures out[i] == if rule.Refuses(rs[i]) then c else rs[i]
      {
        KeptReplaces(rs, rule, c, i);
      }
      assert CleanedAs(rs, out, rule, max, replacement);
    case None =>
      KeptDrops(rs, rule);
      assert IsAllowedPart(rs, kept, rule) && out <= kept;
      assert CleanedAs(rs, out, rule, max, replacement);
  }

  /** The loop over `s`, at byte `i`, has met `n` characters, all of which the rule allows. */
  ghost predicate Met(s: Text, i: nat, n: nat, rule: CharRule) {
    && i <= |s| && n <= |Runes(s)| && Runes(s)[n..] == RunesFrom(s, i) && ValidFrom(s, i) == Valid(s)
    && forall j :: 0 <= j < n ==> !rule.Refuses(Runes(s)[j])
  }

  lemma MetOne(s: Text, i: nat, n: nat, rule: CharRule)
    requires i < |s| && Met(s, i, n, rule)
    ensures var d := Decode(s[i..]);
            if d.Bad() || rule.Refuses(d.rune) then !(Valid(s) && rule.Allows(Runes(s))) else Met(s, i + d.width, n + 1, rule)
  {
    StepFrom(s, i, Runes(s), n);
  }

  /** permits. */
  method Permits(s: Text, rule: CharRule) returns (ok: bool, n: nat)
    ensures ok <==> Valid(s) && rule.Allows(Runes(s))
    ensures ok ==> n == |Runes(s)|
  {
    n := 0;
    var i := 0;
    FromStart(s);
    while i < |s|
      invariant Met(s, i, n, rule)
    {
      var d := Decode(s[i..]);
      MetOne(s, i, n, rule);
      if d.Bad() || rule.Refuses(d.rune) {
        return false, 0;
      }
      i, n := i + d.width, n + 1;
    }
    return true, n;
  }

  lemma {:induction false} KeptAll(rs: seq<Rune>, rule: CharRule, replacement: Option<Rune>)
    requires rule.Allows(rs)
    ensures Kept(rs, rule, replacement) == rs
  {
    if rs != [] {
      KeptAll(rs[1..], rule, replacement);
      HeadAndTail(rs);
    }
  }

  /** A value the rule already permits is left alone. */
  lemma PermittedIsKept(s: Text, rule: CharRule, max: nat, replacement: Option<Rune>)
    requires Permitted(s, 0, max, rule)
    ensures Cleaned(s, rule, max, replacement) == s
  {
    KeptAll(Runes(s), rule, replacement);
    SpellOfRunes(s);
  }

  /** The loop over `s`, at byte `i`, has written `done` of all it has to write. */
  ghost predicate Wrote(s: Text, i: nat, done: seq<Rune>, rule: CharRule, replacement: Option<Rune>) {
    i <= |s| && Kept(Runes(s), rule, replacement) == done + Kept(RunesFrom(s, i), rule, replacement)
  }

  lemma KeptStep(s: Text, i: nat, done: seq<Rune>, rule: CharRule, replacement: Option<Rune>)
    requires i < |s| && Wrote(s, i, done, rule, replacement)
    ensures var d := Decode(s[i..]);
            && (!rule.Refuses(d.rune) ==> Wrote(s, i + d.width, done + [d.rune], rule, replacement))
            && (rule.Refuses(d.rune) && replacement.Some? ==> Wrote(s, i + d.width, done + [replacement.value], rule, replacement))
            && (rule.Refuses(d.rune) && replacement.None? ==> Wrote(s, i + d.width, done, rule, replacement))
  {
    var d := Decode(s[i..]);
    var rest := RunesFrom(s, i + d.width);
    assert RunesFrom(s, i) == [d.rune] + rest;
    KeptFirst(d.rune, rest, rule, replacement);
    Joins(done, Written(d.rune, rule, replacement), Kept(rest, rule, replacement));
    assert done + [] == done;
  }

  lemma KeptFirst(c: Rune, rest: seq<Rune>, rule: CharRule, replacement: Option<Rune>)
    ensures Kept([c] + rest, rule, replacement) == Written(c, rule, replacement) + Kept(rest, rule, replacement)
  {
    assert ([c] + rest)[1..] == rest;
  }

  /** strings.Builder.WriteRune. */
  method WriteRune(b: Text, c: Rune, ghost done: seq<Rune>) returns (b': Text)
    requires b == Spell(done)
    ensures b' == Spell(done + [c])
  {
    SpellConcat(done, [c]);
    SpellFirst(c, []);
    b' := b + Encode(c);
  }

  method CleanWith(s: Text, rule: CharRule, max: nat, replacement: Option<Rune>) returns (r: Text)
    ensures r == Cleaned(s, rule, max, replacement)
    ensures exists out :: r == Spell(out) && CleanedAs(Runes(s), out, rule, max, replacement)
  {
    CleanedMeans(s, rule, max, replacement);
    var ok, short := Permits(s, rule);
    if ok && short <= max {
      PermittedIsKept(s, rule, max, replacement);
      return s;
    }
    r := Rewrite(s, rule, max, replacement);
  }

  lemma WroteAll(s: Text, done: seq<Rune>, max: nat, rule: CharRule, replacement: Option<Rune>)
    requires Wrote(s, |s|, done, rule, replacement) && |done| <= max
    ensures done == First(Kept(Runes(s), rule, replacement), max)
  {
  }

  lemma WroteEnough(s: Text, i: nat, done: seq<Rune>, c: Rune, rule: CharRule, replacement: Option<Rune>)
    requires Wrote(s, i, done + [c], rule, replacement)
    ensures done == First(Kept(Runes(s), rule, replacement), |done|)
  {
  }

  /** The loop of clean, which stops at the first character too many. */
  method Rewrite(s: Text, rule: CharRule, max: nat, replacement: Option<Rune>) returns (r: Text)
    ensures r == Cleaned(s, rule, max, replacement)
  {
    r := [];
    var n, i := 0, 0;
    ghost var done: seq<Rune> := [];
    FromStart(s);
    while i < |s|
      invariant n == |done| <= max
      invariant Wrote(s, i, done, rule, replacement)
      invariant r == Spell(done)
    {
      var d := Decode(s[i..]);
      KeptStep(s, i, done, rule, replacement);
      i := i + d.width;
      var c := d.rune;
      if rule.Refuses(c) {
        if replacement.None? {
          continue;
        }
        c := replacement.value;
      }
      if n == max {
        WroteEnough(s, i, done, c, rule, replacement);
        return r;
      }
      r := WriteRune(r, c, done);
      n, done := n + 1, done + [c];
    }
    WroteAll(s, done, max, rule, replacement);
  }

  // ---- What a cleaner promises ------------------------------------------------------------------------

  lemma {:induction false} KeptIsAllowed(rs: seq<Rune>, rule: CharRule, replacement: Option<Rune>)
    requires replacement.Some? ==> !rule.Refuses(replacement.value)
    ensures rule.Allows(Kept(rs, rule, replacement))
  {
    if rs != [] {
      KeptIsAllowed(rs[1..], rule, replacement);
    }
  }

  /** A cleaned value passes the check of its field. */
  lemma CleanedIsPermitted(s: Text, rule: CharRule, max: nat, replacement: Option<Rune>)
    requires replacement.Some? ==> !rule.Refuses(replacement.value)
    ensures Permitted(Cleaned(s, rule, max, replacement), 0, max, rule)
  {
    KeptIsAllowed(Runes(s), rule, replacement);
    SpellIsValid(First(Kept(Runes(s), rule, replacement), max));
  }

  /** Cleaning changes a value exactly when the field may not hold it, and cleaning twice is cleaning once. */
  lemma CleaningIsExact(s: Text, rule: CharRule, max: nat, replacement: Option<Rune>)
    requires replacement.Some? ==> !rule.Refuses(replacement.value)
    ensures Cleaned(s, rule, max, replacement) == s <==> Permitted(s, 0, max, rule)
    ensures var once := Cleaned(s, rule, max, replacement); Cleaned(once, rule, max, replacement) == once
  {
    CleanedIsPermitted(s, rule, max, replacement);
    PermittedIsKept(Cleaned(s, rule, max, replacement), rule, max, replacement);
    if Permitted(s, 0, max, rule) {
      PermittedIsKept(s, rule, max, replacement);
    }
  }

  /** A byte that is not UTF-8 is not lost: it comes out as U+FFFD, because no rule refuses that character. */
  lemma ErrorIsNeverRefused(rule: CharRule)
    ensures !rule.Refuses(ERROR)
  {
  }

  // ---- The three field classes --------------------------------------------------------------------------

  function TrimFront<T(==)>(s: seq<T>, x: T): seq<T> {
    if s != [] && s[0] == x then TrimFront(s[1..], x) else s
  }

  function TrimBack<T(==)>(s: seq<T>, x: T): seq<T> {
    if s != [] && s[|s| - 1] == x then TrimBack(s[..|s| - 1], x) else s
  }

  /** strings.Trim(s, " "). */
  function Trimmed<T(==)>(s: seq<T>, x: T): seq<T> {
    TrimBack(TrimFront(s, x), x)
  }

  /** What is trimmed off at either end is all of it `x`, and what stays neither begins nor ends with it. */
  ghost predicate TrimmedAs<T(!new)>(s: seq<T>, t: seq<T>, x: T) {
    && (t != [] ==> t[0] != x && t[|t| - 1] != x)
    && exists front, back :: IsAll(front, x) && IsAll(back, x) && s == front + t + back
  }

  predicate IsAll<T(==)>(s: seq<T>, x: T) {
    forall i :: 0 <= i < |s| ==> s[i] == x
  }

  lemma {:induction false} FrontTrimmed<T>(s: seq<T>, x: T) returns (front: seq<T>)
    ensures var t := TrimFront(s, x); IsAll(front, x) && s == front + t && (t != [] ==> t[0] != x)
  {
    front := [];
    if s != [] && s[0] == x {
      var rest := FrontTrimmed(s[1..], x);
      front := [x] + rest;
      HeadAndTail(s);
    }
  }

  lemma {:induction false} BackTrimmed<T>(s: seq<T>, x: T) returns (back: seq<T>)
    ensures var t := TrimBack(s, x); IsAll(back, x) && s == t + back && t <= s && (t != [] ==> t[|t| - 1] != x)
  {
    back := [];
    if s != [] && s[|s| - 1] == x {
      var init := s[..|s| - 1];
      var rest := BackTrimmed(init, x);
      back := rest + [x];
      assert s == init + [x];
    }
  }

  lemma TrimmedMeans<T(!new)>(s: seq<T>, x: T)
    ensures TrimmedAs(s, Trimmed(s, x), x)
  {
    var front := FrontTrimmed(s, x);
    var back := BackTrimmed(TrimFront(s, x), x);
    Joins(front, Trimmed(s, x), back);
  }

  lemma SpaceFirst(c: Rune)
    ensures Encode(c)[0] == 0x20 <==> c == SPACE
    ensures Encode(c)[|Encode(c)| - 1] == 0x20 <==> c == SPACE
    ensures Encode(SPACE) == [0x20]
  {
  }

  lemma {:induction false} TrimFrontOfSpell(rs: seq<Rune>)
    ensures TrimFront(Spell(rs), 0x20) == Spell(TrimFront(rs, SPACE))
  {
    if rs != [] {
      SpaceFirst(rs[0]);
      if rs[0] == SPACE {
        assert Spell(rs)[1..] == Spell(rs[1..]);
        TrimFrontOfSpell(rs[1..]);
      } else {
        assert Spell(rs)[0] == Encode(rs[0])[0];
      }
    }
  }

  lemma {:induction false} TrimBackOfSpell(rs: seq<Rune>)
    ensures TrimBack(Spell(rs), 0x20) == Spell(TrimBack(rs, SPACE))
  {
    if rs != [] {
      var m, c := rs[..|rs| - 1], rs[|rs| - 1];
      assert rs == m + [c];
      SpellConcat(m, [c]);
      SpellFirst(c, []);
      assert Spell(rs) == Spell(m) + Encode(c);
      SpaceFirst(c);
      if c == SPACE {
        assert Spell(rs)[..|Spell(rs)| - 1] == Spell(m);
        TrimBackOfSpell(m);
      } else {
        assert Spell(rs)[|Spell(rs)| - 1] == Encode(c)[|Encode(c)| - 1];
      }
    }
  }

  lemma {:induction false} TrimFrontKeeps(rs: seq<Rune>, rule: CharRule)
    ensures |TrimFront(rs, SPACE)| <= |rs|
    ensures rule.Allows(rs) ==> rule.Allows(TrimFront(rs, SPACE))
    ensures var t := TrimFront(rs, SPACE); t != [] ==> t[0] != SPACE
  {
    if rs != [] && rs[0] == SPACE {
      TrimFrontKeeps(rs[1..], rule);
    }
  }

  lemma {:induction false} TrimBackKeeps(rs: seq<Rune>, rule: CharRule)
    ensures var t := TrimBack(rs, SPACE); t <= rs && (t != [] ==> t[|t| - 1] != SPACE)
    ensures rule.Allows(rs) ==> rule.Allows(TrimBack(rs, SPACE))
  {
    if rs != [] && rs[|rs| - 1] == SPACE {
      TrimBackKeeps(rs[..|rs| - 1], rule);
    }
  }

  function Title(s: Text): Text {
    Trimmed(Cleaned(s, OneLineChars, MAX_TITLE, Some(SPACE)), 0x20)
  }

  method CleanDisplay(s: Text) returns (r: Text)
    ensures r == Cleaned(s, DisplayChars, MAX_AUTHOR, None)
    ensures Permitted(r, 0, MAX_AUTHOR, DisplayChars)
  {
    r := CleanWith(s, DisplayChars, MAX_AUTHOR, None);
    CleanedIsPermitted(s, DisplayChars, MAX_AUTHOR, None);
  }

  method CleanText(s: Text) returns (r: Text)
    ensures r == Cleaned(s, ContentChars, MAX_TEXT, None)
    ensures Permitted(r, 0, MAX_TEXT, ContentChars)
  {
    r := CleanWith(s, ContentChars, MAX_TEXT, None);
    CleanedIsPermitted(s, ContentChars, MAX_TEXT, None);
  }

  method CleanTitle(s: Text) returns (r: Text)
    ensures r == Title(s)
    ensures exists out :: CleanedAs(Runes(s), out, OneLineChars, 1024, Some(SPACE)) && TrimmedAs(Spell(out), r, 0x20)
  {
    r := CleanWith(s, OneLineChars, MAX_TITLE, Some(SPACE));
    TrimmedMeans(r, 0x20);
    r := Trimmed(r, 0x20);
  }

  /** Trimming a permitted title leaves a permitted title, which trimming again leaves alone. */
  lemma TrimmedIsPermitted(s: Text)
    requires Permitted(s, 0, MAX_TITLE, OneLineChars)
    ensures Permitted(Trimmed(s, 0x20), 0, MAX_TITLE, OneLineChars)
    ensures Trimmed(Trimmed(s, 0x20), 0x20) == Trimmed(s, 0x20)
  {
    var rs := Runes(s);
    var front := TrimFront(rs, SPACE);
    var both := TrimBack(front, SPACE);
    SpellOfRunes(s);
    TrimFrontOfSpell(rs);
    TrimBackOfSpell(front);
    TrimFrontKeeps(rs, OneLineChars);
    TrimBackKeeps(front, OneLineChars);
    SpellIsValid(both);
    TrimFrontOfSpell(both);
    TrimBackOfSpell(both);
    assert both != [] ==> both[0] == front[0];
  }

  /** CleanTitle yields a title the field may hold, is idempotent, and changes a title the field may already
      hold by no more than the trim. */
  lemma TitleIsExact(s: Text)
    ensures Permitted(Title(s), 0, MAX_TITLE, OneLineChars)
    ensures Title(Title(s)) == Title(s)
    ensures Permitted(s, 0, MAX_TITLE, OneLineChars) ==> Title(s) == Trimmed(s, 0x20)
  {
    var cleaned := Cleaned(s, OneLineChars, MAX_TITLE, Some(SPACE));
    CleanedIsPermitted(s, OneLineChars, MAX_TITLE, Some(SPACE));
    TrimmedIsPermitted(cleaned);
    PermittedIsKept(Title(s), OneLineChars, MAX_TITLE, Some(SPACE));
    if Permitted(s, 0, MAX_TITLE, OneLineChars) {
      PermittedIsKept(s, OneLineChars, MAX_TITLE, Some(SPACE));
    }
  }
}
