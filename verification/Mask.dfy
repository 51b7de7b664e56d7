/** Finding the values to mask in a text and putting placeholders in their place (internal/pipeline/mask.go
    and internal/pipeline/redact.go).

    A regular expression is any function that returns ascending, disjoint, non-empty matches in bounds. */
module Mask {
  import opened Names
  import opened Lists
  import Utf8
  import Clean
  import Iban

  const MAX_SECRET_BYTES := 512
  const MAX_SECRETS_PER_DELIVERY := 1024

  datatype SecretKind = Email | Phone | IbanKind

  datatype Secret = Secret(kind: SecretKind, value: Text)

  datatype Span = Span(start: nat, end: nat, secret: Secret)

  datatype Match = Match(start: nat, end: nat)

  predicate MatchesOk(text: Text, ms: seq<Match>) {
    && (forall i :: 0 <= i < |ms| ==> ms[i].start < ms[i].end <= |text|)
    && (forall i, j :: 0 <= i < j < |ms| ==> ms[i].end <= ms[j].start)
  }

  /** The three patterns. */
  datatype Patterns = Patterns(email: Text -> seq<Match>, iban: Text -> seq<Match>, phone: Text -> seq<Match>)

  ghost predicate Lawful(p: Patterns) {
    forall text :: MatchesOk(text, p.email(text)) && MatchesOk(text, p.iban(text)) && MatchesOk(text, p.phone(text))
  }

  type Finder = p: Patterns | Lawful(p)
    ghost witness Patterns((t: Text) => [], (t: Text) => [], (t: Text) => [])

  // ---- Candidates ------------------------------------------------------------------------------------

  predicate IsAlnum(c: byte) {
    IsDigit(c) || IsLower(c) || IsUpper(c)
  }

  /** boundedBy: the match stands on its own rather than inside a longer token. */
  predicate BoundedBy(text: Text, start: nat, end: nat)
    requires start <= end <= |text|
  {
    && (start > 0 ==>
      var c := text[start - 1];
      !(IsAlnum(c) || c == 0x2F || c == 0x40 || c == 0x5F || c == 0x2B || c == 0x2E || c == 0x2D))
    && (end < |text| ==>
      var c := text[end];
      && !(IsAlnum(c) || c == 0x2F || c == 0x40 || c == 0x5F)
      && !((c == 0x2E || c == 0x2D) && end + 1 < |text| && IsDigit(text[end + 1])))
  }

  /** The runs of digits of a text, in order. */
  function DigitGroups(s: Text): seq<Text> {
    if s == [] then []
    else if !IsDigit(s[0]) then DigitGroups(s[1..])
    else [s[..RunLength(s)]] + DigitGroups(s[RunLength(s)..])
  }

  /** How many digits the text begins with. */
  function RunLength(s: Text): (n: nat)
    ensures n <= |s| && (forall i :: 0 <= i < n ==> IsDigit(s[i])) && (n < |s| ==> !IsDigit(s[n]))
    ensures s != [] && IsDigit(s[0]) ==> n > 0
  {
    if s != [] && IsDigit(s[0]) then 1 + RunLength(s[1..]) else 0
  }

  function TotalLength(groups: seq<Text>): nat {
    if groups == [] then 0 else |groups[0]| + TotalLength(groups[1..])
  }

  predicate LooksLikeAYear(g: Text) {
    |g| == 4 && ((g[0] == 0x31 && g[1] == 0x39) || (g[0] == 0x32 && g[1] == 0x30))
  }

  /** validPhone. */
  predicate IsPhone(s: Text) {
    var groups := DigitGroups(s);
    var digits := TotalLength(groups);
    if s != [] && s[0] == 0x2B then 8 <= digits <= 15
    else
      && 9 <= digits <= 15 && |groups| == 3
      && (exists i :: 0 <= i < |groups| && |groups[i]| == 4)
      && !LooksLikeAYear(groups[0])
  }

  /** A run of digits that no digit adjoins. */
  predicate IsRun(s: Text, m: Match) {
    && m.start < m.end <= |s| && (forall i :: m.start <= i < m.end ==> IsDigit(s[i]))
    && (m.start > 0 ==> !IsDigit(s[m.start - 1])) && (m.end < |s| ==> !IsDigit(s[m.end]))
  }

  /** The runs of the text from `from` on, in order, with every digit in one of them. */
  ghost predicate AreRuns(s: Text, from: nat, runs: seq<Match>) {
    && (forall k :: 0 <= k < |runs| ==> IsRun(s, runs[k]) && from <= runs[k].start)
    && OneBehindTheOther(runs)
    && (forall i :: from <= i < |s| && IsDigit(s[i]) ==> InOne(runs, i))
  }

  predicate OneBehindTheOther(runs: seq<Match>) {
    forall j, k :: 0 <= j < k < |runs| ==> runs[j].end < runs[k].start
  }

  predicate InOne(runs: seq<Match>, i: nat) {
    exists k :: 0 <= k < |runs| && runs[k].start <= i < runs[k].end
  }

  predicate Spells(s: Text, runs: seq<Match>, groups: seq<Text>) {
    && |runs| == |groups|
    && forall k :: 0 <= k < |runs| ==> runs[k].start <= runs[k].end <= |s| && groups[k] == s[runs[k].start..runs[k].end]
  }

  lemma {:induction false} GroupsAreRuns(s: Text, from: nat) returns (runs: seq<Match>)
    requires from <= |s| && (0 < from < |s| ==> !IsDigit(s[from - 1]) || !IsDigit(s[from]))
    ensures AreRuns(s, from, runs) && Spells(s, runs, DigitGroups(s[from..]))
    decreases |s| - from
  {
    if from == |s| {
      runs := [];
    } else if !IsDigit(s[from]) {
      runs := GroupsAreRuns(s, from + 1);
      assert s[from..][1..] == s[from + 1..];
    } else {
      var to := RunFrom(s, from);
      var rest := GroupsAreRuns(s, to);
      RunEnds(s, from, to);
      RunInFront(s, from, to, rest);
      SpellsInFront(s, from, to, rest, DigitGroups(s[to..]));
      runs := [Match(from, to)] + rest;
    }
  }

  lemma RunFrom(s: Text, from: nat) returns (to: nat)
    requires from < |s| && IsDigit(s[from])
    ensures from < to <= |s| && (forall i :: from <= i < to ==> IsDigit(s[i])) && (to < |s| ==> !IsDigit(s[to]))
  {
    var rest := s[from..];
    to := from + RunLength(rest);
    assert forall i :: from <= i < |s| ==> s[i] == rest[i - from];
  }

  lemma RunInFront(s: Text, from: nat, to: nat, rest: seq<Match>)
    requires IsRun(s, Match(from, to)) && AreRuns(s, to, rest)
    ensures AreRuns(s, from, [Match(from, to)] + rest)
  {
    forall k | 0 <= k < |rest|
      ensures to < rest[k].start
    {
      assert IsRun(s, rest[k]);
    }
    OrderInFront(Match(from, to), rest);
    forall i | from <= i < |s| && IsDigit(s[i])
      ensures InOne([Match(from, to)] + rest, i)
    {
      CoveredInFront(Match(from, to), rest, i);
    }
  }

  lemma OrderInFront(m: Match, rest: seq<Match>)
    requires OneBehindTheOther(rest) && forall k :: 0 <= k < |rest| ==> m.end < rest[k].start
    ensures OneBehindTheOther([m] + rest)
  {
    var runs := [m] + rest;
    forall j, k | 0 <= j < k < |runs|
      ensures runs[j].end < runs[k].start
    {
      assert runs[k] == rest[k - 1];
      assert runs[j] == if j == 0 then m else rest[j - 1];
    }
  }

  lemma SpellsInFront(s: Text, from: nat, to: nat, rest: seq<Match>, groups: seq<Text>)
    requires from <= to <= |s| && Spells(s, rest, groups)
    ensures Spells(s, [Match(from, to)] + rest, [s[from..to]] + groups)
  {
  }

  lemma CoveredInFront(m: Match, rest: seq<Match>, i: nat)
    requires m.start <= i < m.end || InOne(rest, i)
    ensures InOne([m] + rest, i)
  {
    var runs := [m] + rest;
    if m.start <= i < m.end {
      assert runs[0].start <= i < runs[0].end;
    } else {
      var k :| 0 <= k < |rest| && rest[k].start <= i < rest[k].end;
      assert runs[k + 1].start <= i < runs[k + 1].end;
    }
  }

  /** How many digits the text has. */
  function DigitCount(s: Text): nat {
    if s == [] then 0 else DigitCount(s[..|s| - 1]) + if IsDigit(s[|s| - 1]) then 1 else 0
  }

  lemma {:induction false} CountJoins(a: Text, b: Text)
    ensures DigitCount(a + b) == DigitCount(a) + DigitCount(b)
  {
    if b == [] {
      assert a + b == a;
    } else {
      assert (a + b)[..|a + b| - 1] == a + b[..|b| - 1];
      CountJoins(a, b[..|b| - 1]);
    }
  }

  lemma {:induction false} CountRun(s: Text)
    requires forall i :: 0 <= i < |s| ==> IsDigit(s[i])
    ensures DigitCount(s) == |s|
  {
    if s != [] {
      CountRun(s[..|s| - 1]);
    }
  }

  lemma {:induction false} GroupsCount(s: Text)
    ensures TotalLength(DigitGroups(s)) == DigitCount(s)
    decreases |s|
  {
    if s != [] {
      var n := RunLength(s);
      var skip := if n == 0 then 1 else n;
      GroupsCount(s[skip..]);
      Cut(s, skip);
      CountJoins(s[..skip], s[skip..]);
      if n > 0 {
        CountRun(s[..n]);
      }
    }
  }

  predicate FourLong(runs: seq<Match>) {
    exists k :: 0 <= k < |runs| && runs[k].end - runs[k].start == 4
  }

  /** Four digits that read as a year from 1900 to 2099. */
  predicate YearAt(s: Text, run: Match) {
    && run.end - run.start == 4 && run.end <= |s|
    && var c, d := s[run.start] as char, s[run.start + 1] as char; (c == '1' && d == '9') || (c == '2' && d == '0')
  }

  /** A telephone number: with a leading plus, 8 to 15 digits; and without, 9 to 15 digits in three groups, one of
      them of four digits, of which the first does not read as a year. */
  predicate PhoneShape(s: Text, runs: seq<Match>) {
    if s != [] && s[0] as char == '+' then 8 <= DigitCount(s) <= 15
    else 9 <= DigitCount(s) <= 15 && |runs| == 3 && FourLong(runs) && !YearAt(s, runs[0])
  }

  lemma PhoneMeans(s: Text, runs: seq<Match>)
    requires AreRuns(s, 0, runs) && Spells(s, runs, DigitGroups(s))
    ensures IsPhone(s) <==> PhoneShape(s, runs)
  {
    GroupsCount(s);
    ThreeGroups(s, runs, DigitGroups(s));
  }

  lemma ThreeGroups(s: Text, runs: seq<Match>, groups: seq<Text>)
    requires AreRuns(s, 0, runs) && Spells(s, runs, groups)
    ensures |groups| == |runs|
    ensures |groups| == 3 ==> ((exists i :: 0 <= i < |groups| && |groups[i]| == 4) <==> FourLong(runs))
    ensures |groups| == 3 ==> (LooksLikeAYear(groups[0]) <==> YearAt(s, runs[0]))
  {
    if |runs| == 3 {
      assert IsRun(s, runs[0]) && IsRun(s, runs[1]) && IsRun(s, runs[2]);
      assert |groups[0]| == runs[0].end - runs[0].start && |groups[1]| == runs[1].end - runs[1].start && |groups[2]| == runs[2].end - runs[2].start;
      if |groups[0]| == 4 {
        assert groups[0][0] == s[runs[0].start] && groups[0][1] == s[runs[0].start + 1];
      }
    }
  }

  /** digitGroups: the loop over the text. */
  method CollectGroups(s: Text) returns (out: seq<Text>)
    ensures out == DigitGroups(s)
  {
    out := [];
    var i := 0;
    assert s[0..] == s;
    while i < |s|
      invariant i <= |s| && DigitGroups(s) == out + DigitGroups(s[i..])
    {
      if !IsDigit(s[i]) {
        assert s[i..][1..] == s[i + 1..];
        i := i + 1;
        continue;
      }
      var j := i;
      while j < |s| && IsDigit(s[j])
        invariant i <= j <= |s| && forall k :: i <= k < j ==> IsDigit(s[k])
      {
        j := j + 1;
      }
      RunEnds(s, i, j);
      Joins(out, [s[i..j]], DigitGroups(s[j..]));
      out := out + [s[i..j]];
      i := j;
    }
    assert out + [] == out;
  }

  lemma {:induction false} RunEnds(s: Text, i: nat, j: nat)
    requires i < j <= |s| && (forall k :: i <= k < j ==> IsDigit(s[k])) && (j < |s| ==> !IsDigit(s[j]))
    ensures DigitGroups(s[i..]) == [s[i..j]] + DigitGroups(s[j..])
  {
    var rest := s[i..];
    var n := RunLength(rest);
    assert forall k :: 0 <= k < |rest| ==> rest[k] == s[i + k];
    assert n == j - i;
    assert rest[..n] == s[i..j] && rest[n..] == s[j..];
  }

  /** The sum over the groups. */
  method CountDigits(groups: seq<Text>) returns (digits: nat)
    ensures digits == TotalLength(groups)
  {
    digits := 0;
    assert groups[0..] == groups;
    for i := 0 to |groups|
      invariant digits + TotalLength(groups[i..]) == TotalLength(groups)
    {
      assert groups[i..][0] == groups[i] && groups[i..][1..] == groups[i + 1..];
      digits := digits + |groups[i]|;
    }
  }

  /** validPhone. `runs` are the runs of digits of the text. */
  method ValidPhone(s: Text) returns (ok: bool, ghost runs: seq<Match>)
    ensures ok <==> IsPhone(s)
    ensures AreRuns(s, 0, runs) && (ok <==> PhoneShape(s, runs))
  {
    runs := GroupsAreRuns(s, 0);
    assert s[0..] == s;
    PhoneMeans(s, runs);
    var groups := CollectGroups(s);
    var digits := CountDigits(groups);
    if s != [] && s[0] == 0x2B {
      return 8 <= digits <= 15, runs;
    }
    if digits < 9 || digits > 15 || |groups| != 3 {
      return false, runs;
    }
    if !(exists i :: 0 <= i < |groups| && |groups[i]| == 4) {
      return false, runs;
    }
    ok := !LooksLikeAYear(groups[0]);
  }

  /** A letter or a digit of ASCII. */
  predicate Wordy(c: char) {
    'a' <= c <= 'z' || 'A' <= c <= 'Z' || '0' <= c <= '9'
  }

  /** The match does not touch a character that would make it part of a longer token: before it a letter, a digit or one
      of `/@_+.-`, behind it a letter, a digit or one of `/@_`, or a dot or a hyphen with a digit behind that. */
  lemma BoundedMeans(text: Text, start: nat, end: nat)
    requires start <= end <= |text|
    ensures BoundedBy(text, start, end) <==>
            && !(start > 0 && (Wordy(text[start - 1] as char) || text[start - 1] as char in "/@_+.-"))
            && !(end < |text| && (Wordy(text[end] as char) || text[end] as char in "/@_"))
            && !(end + 1 < |text| && text[end] as char in ".-" && '0' <= text[end + 1] as char <= '9')
  {
  }

  /** The tests a match of this kind has to pass. */
  predicate Accepts(kind: SecretKind, text: Text, m: Match)
    requires m.start <= m.end <= |text|
  {
    var v := text[m.start..m.end];
    && |v| <= MAX_SECRET_BYTES
    && (kind != Email ==> BoundedBy(text, m.start, m.end))
    && (kind == IbanKind ==> Iban.IsIban(v))
    && (kind == Phone ==> IsPhone(v))
  }

  function SpanOf(kind: SecretKind, text: Text, m: Match): Span
    requires m.start <= m.end <= |text|
  {
    Span(m.start, m.end, Secret(kind, text[m.start..m.end]))
  }

  function Candidates(kind: SecretKind, text: Text, ms: seq<Match>): seq<Span>
    requires forall i :: 0 <= i < |ms| ==> ms[i].start < ms[i].end <= |text|
  {
    if ms == [] then []
    else (if Accepts(kind, text, ms[0]) then [SpanOf(kind, text, ms[0])] else []) + Candidates(kind, text, ms[1..])
  }

  /** appendMatches. */
  method AppendMatches(dst: seq<Span>, text: Text, ms: seq<Match>, kind: SecretKind) returns (r: seq<Span>)
    requires MatchesOk(text, ms)
    ensures r == dst + Candidates(kind, text, ms)
  {
    r := dst;
    for i := 0 to |ms|
      invariant r + Candidates(kind, text, ms[i..]) == dst + Candidates(kind, text, ms)
    {
      var m := ms[i];
      var v := text[m.start..m.end];
      assert ms[i..][0] == m && ms[i..][1..] == ms[i + 1..];
      var rest := Candidates(kind, text, ms[i + 1..]);
      if |v| > MAX_SECRET_BYTES {
        assert [] + rest == rest;
        continue;
      }
      if kind != Email && !BoundedBy(text, m.start, m.end) {
        assert [] + rest == rest;
        continue;
      }
      var ok := Passes(kind, v);
      if !ok {
        assert [] + rest == rest;
        continue;
      }
      Joins(r, [SpanOf(kind, text, m)], rest);
      r := r + [Span(m.start, m.end, Secret(kind, v))];
    }
    assert r + [] == r;
  }

  method Passes(kind: SecretKind, v: Text) returns (ok: bool)
    ensures ok <==> (kind == IbanKind ==> Iban.IsIban(v)) && (kind == Phone ==> IsPhone(v))
  {
    if kind == IbanKind {
      ok := Iban.ValidIban(v);
    } else if kind == Phone {
      ghost var runs;
      ok, runs := ValidPhone(v);
    } else {
      ok := true;
    }
  }

  /** Everything a span the masker may keep is: a non-empty stretch of the text with its own value. */
  predicate SpanOk(text: Text, s: Span) {
    s.start < s.end <= |text| && s.secret.value == text[s.start..s.end] && |s.secret.value| <= MAX_SECRET_BYTES
  }

  predicate SpansOk(text: Text, ss: seq<Span>) {
    forall i :: 0 <= i < |ss| ==> SpanOk(text, ss[i])
  }

  lemma {:induction false} CandidatesOk(kind: SecretKind, text: Text, ms: seq<Match>)
    requires forall i :: 0 <= i < |ms| ==> ms[i].start < ms[i].end <= |text|
    ensures SpansOk(text, Candidates(kind, text, ms))
  {
    if ms != [] {
      CandidatesOk(kind, text, ms[1..]);
    }
  }

  // ---- Sorting ---------------------------------------------------------------------------------------

  predicate Sorted(ss: seq<Span>) {
    forall i, j :: 0 <= i < j < |ss| ==> ss[i].start <= ss[j].start
  }

  /** `s` after every span that starts no later. */
  function Insert(ss: seq<Span>, s: Span): seq<Span> {
    if ss != [] && ss[|ss| - 1].start > s.start then Insert(ss[..|ss| - 1], s) + [ss[|ss| - 1]] else ss + [s]
  }

  /** sort.SliceStable by start. */
  function StableSort(ss: seq<Span>): seq<Span> {
    if ss == [] then [] else Insert(StableSort(ss[..|ss| - 1]), ss[|ss| - 1])
  }

  lemma {:induction false} InsertKeeps(ss: seq<Span>, s: Span)
    requires Sorted(ss)
    ensures Sorted(Insert(ss, s)) && multiset(Insert(ss, s)) == multiset(ss) + multiset{s}
  {
    if ss != [] && ss[|ss| - 1].start > s.start {
      var init, last := ss[..|ss| - 1], ss[|ss| - 1];
      InsertKeeps(init, s);
      assert ss == init + [last];
      SortedPush(Insert(init, s), init, s, last);
    }
  }

  lemma SortedPush(r: seq<Span>, init: seq<Span>, s: Span, last: Span)
    requires Sorted(r) && Sorted(init + [last]) && s.start <= last.start
    requires multiset(r) == multiset(init) + multiset{s}
    ensures Sorted(r + [last])
  {
    forall i | 0 <= i < |r|
      ensures r[i].start <= last.start
    {
      assert r[i] in multiset(r);
      if r[i] != s {
        var j :| 0 <= j < |init| && init[j] == r[i];
        assert (init + [last])[j].start <= (init + [last])[|init|].start;
      }
    }
  }

  lemma {:induction false} SortKeeps(ss: seq<Span>)
    ensures Sorted(StableSort(ss)) && multiset(StableSort(ss)) == multiset(ss)
  {
    if ss != [] {
      var init, last := ss[..|ss| - 1], ss[|ss| - 1];
      assert ss == init + [last];
      SortKeeps(init);
      InsertKeeps(StableSort(init), last);
      assert multiset(ss) == multiset(init) + multiset{last};
    }
  }

  /** The spans that start at one place. */
  function At(ss: seq<Span>, start: nat): seq<Span> {
    if ss == [] then []
    else At(ss[..|ss| - 1], start) + (if ss[|ss| - 1].start == start then [ss[|ss| - 1]] else [])
  }

  lemma AtPush(ss: seq<Span>, s: Span, start: nat)
    ensures At(ss + [s], start) == At(ss, start) + (if s.start == start then [s] else [])
  {
    assert (ss + [s])[..|ss|] == ss;
  }

  lemma {:induction false} InsertIsStable(ss: seq<Span>, s: Span, start: nat)
    requires Sorted(ss)
    ensures At(Insert(ss, s), start) == At(ss, start) + (if s.start == start then [s] else [])
  {
    if ss != [] && ss[|ss| - 1].start > s.start {
      var init, last := ss[..|ss| - 1], ss[|ss| - 1];
      InsertIsStable(init, s, start);
      AtPush(Insert(init, s), last, start);
      if s.start == start {
        NoneAt(ss, s, start);
      }
    } else {
      AtPush(ss, s, start);
    }
  }

  /** If the last span starts later, it is not among those at `start`. */
  lemma NoneAt(ss: seq<Span>, s: Span, start: nat)
    requires ss != [] && ss[|ss| - 1].start > s.start == start
    ensures At(ss, start) == At(ss[..|ss| - 1], start)
  {
  }

  /** The sort is stable: spans that start at one place keep their order. */
  lemma {:induction false} SortIsStable(ss: seq<Span>, start: nat)
    ensures At(StableSort(ss), start) == At(ss, start)
  {
    if ss != [] {
      SortIsStable(ss[..|ss| - 1], start);
      SortKeeps(ss[..|ss| - 1]);
      InsertIsStable(StableSort(ss[..|ss| - 1]), ss[|ss| - 1], start);
    }
  }

  // ---- Overlaps --------------------------------------------------------------------------------------

  predicate Disjoint(ss: seq<Span>) {
    forall i, j :: 0 <= i < j < |ss| ==> ss[i].end <= ss[j].start
  }

  predicate Overlap(a: Span, b: Span) {
    a.start < b.end && b.start < a.end
  }

  /** `s` itself, or a span that starts no later and overlaps it. */
  predicate Covers(k: Span, s: Span) {
    k == s || (Overlap(k, s) && k.start <= s.start)
  }

  predicate CoveredBy(kept: seq<Span>, s: Span) {
    exists k :: 0 <= k < |kept| && Covers(kept[k], s)
  }

  /** The greedy choice: a span is dropped when it begins before the last one kept ends. */
  function Kept(ss: seq<Span>, end: nat): seq<Span> {
    if ss == [] then []
    else if ss[0].start < end then Kept(ss[1..], end)
    else [ss[0]] + Kept(ss[1..], ss[0].end)
  }

  /** What the masker keeps, given everything it found. */
  predicate Resolved(text: Text, found: seq<Span>, kept: seq<Span>) {
    && SpansOk(text, kept) && Disjoint(kept)
    && (forall i :: 0 <= i < |kept| ==> kept[i] in found)
    && (forall i :: 0 <= i < |found| ==> CoveredBy(kept, found[i]))
  }

  lemma {:induction false} KeptIsDisjoint(ss: seq<Span>, end: nat)
    requires Sorted(ss) && forall i :: 0 <= i < |ss| ==> ss[i].start < ss[i].end
    ensures Disjoint(Kept(ss, end))
    ensures forall i :: 0 <= i < |Kept(ss, end)| ==> Kept(ss, end)[i] in ss && Kept(ss, end)[i].start >= end
  {
    if ss != [] {
      if ss[0].start < end {
        KeptIsDisjoint(ss[1..], end);
      } else {
        KeptIsDisjoint(ss[1..], ss[0].end);
      }
    }
  }

  /** A span is kept, or it begins before `end`, or a kept span that starts no later overlaps it. */
  lemma {:induction false} KeptCovers(ss: seq<Span>, end: nat, i: nat)
    requires Sorted(ss) && (forall j :: 0 <= j < |ss| ==> ss[j].start < ss[j].end) && i < |ss|
    ensures ss[i].start < end || CoveredBy(Kept(ss, end), ss[i])
  {
    var kept := Kept(ss, end);
    if ss[0].start < end {
      if i > 0 {
        KeptCovers(ss[1..], end, i - 1);
      }
    } else {
      assert kept[0] == ss[0];
      if i == 0 || ss[i].start < ss[0].end {
        assert Covers(kept[0], ss[i]);
      } else {
        KeptCovers(ss[1..], ss[0].end, i - 1);
        var rest := Kept(ss[1..], ss[0].end);
        var k :| 0 <= k < |rest| && Covers(rest[k], ss[i]);
        assert Covers(kept[k + 1], ss[i]);
      }
    }
  }

  /** The same spans, in another order. */
  lemma SameMembers(a: seq<Span>, b: seq<Span>, i: nat) returns (j: nat)
    requires multiset(a) == multiset(b) && i < |a|
    ensures j < |b| && b[j] == a[i]
  {
    assert a[i] in multiset(a);
    assert a[i] in b;
    j :| j < |b| && b[j] == a[i];
  }

  lemma SortedOk(text: Text, found: seq<Span>)
    requires SpansOk(text, found)
    ensures SpansOk(text, StableSort(found))
  {
    var ss := StableSort(found);
    SortKeeps(found);
    forall i | 0 <= i < |ss|
      ensures SpanOk(text, ss[i])
    {
      var j := SameMembers(ss, found, i);
    }
  }

  /** Kept spans are in bounds, in order and disjoint, and every candidate is kept or overlaps a kept span
      that starts no later. */
  lemma KeptResolves(text: Text, found: seq<Span>)
    requires SpansOk(text, found)
    ensures Resolved(text, found, Kept(StableSort(found), 0))
  {
    var ss := StableSort(found);
    SortKeeps(found);
    SortedOk(text, found);
    assert forall i :: 0 <= i < |ss| ==> SpanOk(text, ss[i]);
    KeptIsDisjoint(ss, 0);
    var kept := Kept(ss, 0);
    forall i | 0 <= i < |kept|
      ensures kept[i] in found && SpanOk(text, kept[i])
    {
      var j :| 0 <= j < |ss| && ss[j] == kept[i];
      var k := SameMembers(ss, found, j);
    }
    forall i | 0 <= i < |found|
      ensures CoveredBy(kept, found[i])
    {
      var j := SameMembers(found, ss, i);
      KeptCovers(ss, 0, j);
    }
  }

  function Found(p: Finder, text: Text): seq<Span> {
    Candidates(Email, text, p.email(text)) + Candidates(IbanKind, text, p.iban(text)) + Candidates(Phone, text, p.phone(text))
  }

  lemma FoundOk(p: Finder, text: Text)
    ensures SpansOk(text, Found(p, text))
  {
    assert MatchesOk(text, p.email(text)) && MatchesOk(text, p.iban(text)) && MatchesOk(text, p.phone(text));
    CandidatesOk(Email, text, p.email(text));
    CandidatesOk(IbanKind, text, p.iban(text));
    CandidatesOk(Phone, text, p.phone(text));
  }

  function Spans(p: Finder, text: Text): seq<Span> {
    Kept(StableSort(Found(p, text)), 0)
  }

  function MatchesOf(p: Finder, kind: SecretKind, text: Text): seq<Match> {
    match kind
    case Email => p.email(text)
    case IbanKind => p.iban(text)
    case Phone => p.phone(text)
  }

  /** A value to mask: what its kind's expression matches, of at most 512 bytes, which for an account or a telephone
      number stands on its own and is one. */
  predicate Meant(p: Finder, text: Text, s: Span) {
    && s.start <= s.end <= |text| && s.secret.value == text[s.start..s.end] && |s.secret.value| <= 512
    && Match(s.start, s.end) in MatchesOf(p, s.secret.kind, text)
    && (s.secret.kind == IbanKind ==> BoundedBy(text, s.start, s.end) && Iban.IsIban(s.secret.value))
    && (s.secret.kind == Phone ==> BoundedBy(text, s.start, s.end) && IsPhone(s.secret.value))
  }

  lemma {:induction false} CandidatesMean(kind: SecretKind, text: Text, ms: seq<Match>, s: Span)
    requires forall i :: 0 <= i < |ms| ==> ms[i].start < ms[i].end <= |text|
    ensures s in Candidates(kind, text, ms) <==>
            s.start <= s.end <= |text| && Match(s.start, s.end) in ms && Accepts(kind, text, Match(s.start, s.end)) && s == SpanOf(kind, text, Match(s.start, s.end))
  {
    if ms != [] {
      CandidatesMean(kind, text, ms[1..], s);
      HeadAndTail(ms);
    }
  }

  /** What is found is exactly what is meant. */
  lemma FoundMeans(p: Finder, text: Text, s: Span)
    ensures s in Found(p, text) <==> Meant(p, text, s)
  {
    assert MatchesOk(text, p.email(text)) && MatchesOk(text, p.iban(text)) && MatchesOk(text, p.phone(text));
    CandidatesMean(Email, text, p.email(text), s);
    CandidatesMean(IbanKind, text, p.iban(text), s);
    CandidatesMean(Phone, text, p.phone(text), s);
  }

  /** Every span kept is a value to mask, and every value to mask is kept, or overlaps a kept one that starts before it,
      or where it does and is of an earlier kind. */
  ghost predicate KeepsMeant(p: Finder, text: Text, kept: seq<Span>) {
    && (forall i :: 0 <= i < |kept| ==> Meant(p, text, kept[i]))
    && (forall s :: Meant(p, text, s) ==> Beaten(kept, s))
  }

  predicate Beaten(kept: seq<Span>, s: Span) {
    exists k :: 0 <= k < |kept| && (kept[k] == s || (Overlap(kept[k], s) && GoesFirst(kept[k], s)))
  }

  function Rank(kind: SecretKind): nat {
    match kind
    case Email => 0
    case IbanKind => 1
    case Phone => 2
  }

  predicate GoesFirst(a: Span, b: Span) {
    a.start < b.start || (a.start == b.start && Rank(a.secret.kind) <= Rank(b.secret.kind))
  }

  predicate FirstFirst(ss: seq<Span>) {
    forall i, j :: 0 <= i < j < |ss| ==> GoesFirst(ss[i], ss[j])
  }

  predicate Ranked(ss: seq<Span>) {
    forall i, j :: 0 <= i < j < |ss| ==> Rank(ss[i].secret.kind) <= Rank(ss[j].secret.kind)
  }

  lemma {:induction false} InsertRanks(ss: seq<Span>, s: Span)
    requires FirstFirst(ss) && forall i :: 0 <= i < |ss| ==> Rank(ss[i].secret.kind) <= Rank(s.secret.kind)
    ensures FirstFirst(Insert(ss, s)) && forall x :: x in Insert(ss, s) <==> x in ss || x == s
  {
    if ss != [] && ss[|ss| - 1].start > s.start {
      var init, last := ss[..|ss| - 1], ss[|ss| - 1];
      InsertRanks(init, s);
      assert ss == init + [last];
      forall x | x in Insert(init, s)
        ensures GoesFirst(x, last)
      {
        if x != s {
          var i :| 0 <= i < |init| && ss[i] == x;
        }
      }
      FirstFirstPush(Insert(init, s), last);
    } else {
      forall x | x in ss
        ensures GoesFirst(x, s)
      {
        var i :| 0 <= i < |ss| && ss[i] == x;
        assert i < |ss| - 1 ==> GoesFirst(ss[i], ss[|ss| - 1]);
      }
      FirstFirstPush(ss, s);
    }
  }

  lemma FirstFirstPush(ss: seq<Span>, s: Span)
    requires FirstFirst(ss) && forall x :: x in ss ==> GoesFirst(x, s)
    ensures FirstFirst(ss + [s])
  {
  }

  lemma {:induction false} SortRanks(ss: seq<Span>)
    requires Ranked(ss)
    ensures FirstFirst(StableSort(ss)) && forall x :: x in StableSort(ss) <==> x in ss
  {
    if ss != [] {
      var init, s := ss[..|ss| - 1], ss[|ss| - 1];
      SortRanks(init);
      assert ss == init + [s];
      var sorted := StableSort(init);
      forall i | 0 <= i < |sorted|
        ensures Rank(sorted[i].secret.kind) <= Rank(s.secret.kind)
      {
        assert sorted[i] in init;
      }
      InsertRanks(sorted, s);
    }
  }

  lemma {:induction false} CandidatesAreOfKind(kind: SecretKind, text: Text, ms: seq<Match>)
    requires forall i :: 0 <= i < |ms| ==> ms[i].start < ms[i].end <= |text|
    ensures forall i :: 0 <= i < |Candidates(kind, text, ms)| ==> Candidates(kind, text, ms)[i].secret.kind == kind
  {
    if ms != [] {
      CandidatesAreOfKind(kind, text, ms[1..]);
    }
  }

  lemma FoundRanked(p: Finder, text: Text)
    ensures Ranked(Found(p, text))
  {
    assert MatchesOk(text, p.email(text)) && MatchesOk(text, p.iban(text)) && MatchesOk(text, p.phone(text));
    CandidatesAreOfKind(Email, text, p.email(text));
    CandidatesAreOfKind(IbanKind, text, p.iban(text));
    CandidatesAreOfKind(Phone, text, p.phone(text));
  }

  /** The greedy choice drops a span only for one that goes first. */
  lemma {:induction false} KeptBeats(ss: seq<Span>, end: nat, s: Span)
    requires FirstFirst(ss) && (forall j :: 0 <= j < |ss| ==> ss[j].start < ss[j].end) && s in ss
    ensures s.start < end || Beaten(Kept(ss, end), s)
  {
    var kept, rest := Kept(ss, end), ss[1..];
    assert s == ss[0] || (s in rest && GoesFirst(ss[0], s));
    if ss[0].start < end {
      if s in rest {
        KeptBeats(rest, end, s);
      }
    } else if s == ss[0] || s.start < ss[0].end {
      assert kept[0] == ss[0];
    } else {
      KeptBeats(rest, ss[0].end, s);
      BeatenBehind(ss[0], Kept(rest, ss[0].end), s);
    }
  }

  lemma BeatenBehind(first: Span, rest: seq<Span>, s: Span)
    requires Beaten(rest, s)
    ensures Beaten([first] + rest, s)
  {
    var k :| 0 <= k < |rest| && (rest[k] == s || (Overlap(rest[k], s) && GoesFirst(rest[k], s)));
    assert ([first] + rest)[k + 1] == rest[k];
  }

  lemma SpansMean(p: Finder, text: Text)
    ensures KeepsMeant(p, text, Spans(p, text))
  {
    var found, kept := Found(p, text), Spans(p, text);
    FoundOk(p, text);
    KeptResolves(text, found);
    forall i | 0 <= i < |kept|
      ensures Meant(p, text, kept[i])
    {
      assert kept[i] in found;
      FoundMeans(p, text, kept[i]);
    }
    forall s | Meant(p, text, s)
      ensures Beaten(kept, s)
    {
      MeantIsBeaten(p, text, s);
    }
  }

  lemma MeantIsBeaten(p: Finder, text: Text, s: Span)
    requires Meant(p, text, s)
    ensures Beaten(Spans(p, text), s)
  {
    var found := Found(p, text);
    FoundMeans(p, text, s);
    FoundOk(p, text);
    FoundRanked(p, text);
    SortRanks(found);
    SortedOk(text, found);
    SortedBeats(text, StableSort(found), s);
  }

  lemma SortedBeats(text: Text, ss: seq<Span>, s: Span)
    requires FirstFirst(ss) && SpansOk(text, ss) && s in ss
    ensures Beaten(Kept(ss, 0), s)
  {
    forall j | 0 <= j < |ss|
      ensures ss[j].start < ss[j].end
    {
      assert SpanOk(text, ss[j]);
    }
    KeptBeats(ss, 0, s);
  }

  /** findSecrets. */
  method FindSecrets(p: Finder, text: Text) returns (kept: seq<Span>)
    ensures kept == Spans(p, text) && Resolved(text, Found(p, text), kept)
    ensures KeepsMeant(p, text, kept)
  {
    SpansMean(p, text);
    assert MatchesOk(text, p.email(text)) && MatchesOk(text, p.iban(text)) && MatchesOk(text, p.phone(text));
    var found := AppendMatches([], text, p.email(text), Email);
    found := AppendMatches(found, text, p.iban(text), IbanKind);
    found := AppendMatches(found, text, p.phone(text), Phone);
    assert found == Found(p, text);
    FoundOk(p, text);
    KeptResolves(text, found);
    kept := DropOverlaps(StableSort(found));
  }

  /** The loop over the sorted candidates, at candidate `i`. */
  ghost predicate Keeping(found: seq<Span>, i: nat, kept: seq<Span>, end: nat) {
    i <= |found| && Kept(found, 0) == kept + Kept(found[i..], end)
  }

  lemma KeepOne(found: seq<Span>, i: nat, kept: seq<Span>, end: nat)
    requires i < |found| && Keeping(found, i, kept, end)
    ensures if found[i].start < end then Keeping(found, i + 1, kept, end)
            else Keeping(found, i + 1, kept + [found[i]], found[i].end)
  {
    assert found[i..][0] == found[i];
    DropDrop(found, i, 1);
    Joins(kept, [found[i]], Kept(found[i + 1..], found[i].end));
  }

  method DropOverlaps(found: seq<Span>) returns (kept: seq<Span>)
    ensures kept == Kept(found, 0)
  {
    kept := [];
    var end := 0;
    for i := 0 to |found|
      invariant Keeping(found, i, kept, end)
    {
      var s := found[i];
      KeepOne(found, i, kept, end);
      if s.start < end {
        continue;
      }
      kept := kept + [s];
      end := s.end;
    }
  }

  // ---- Placeholders ------------------------------------------------------------------------------------

  /** `text` from `at` on, with every value replaced by its token. */
  function Masked(text: Text, ss: seq<Span>, tokens: map<Secret, Text>, at: nat): Text
    requires SpansOk(text, ss) && Disjoint(ss) && at <= |text| && (ss != [] ==> at <= ss[0].start)
    requires HasTokens(ss, tokens)
    decreases |ss|
  {
    if ss == [] then text[at..]
    else text[at..ss[0].start] + tokens[ss[0].secret] + Masked(text, ss[1..], tokens, ss[0].end)
  }

  predicate HasTokens(ss: seq<Span>, tokens: map<Secret, Text>) {
    forall i :: 0 <= i < |ss| ==> ss[i].secret in tokens && tokens[ss[i].secret] != []
  }

  /** Where each token ends up in the masked text, and the value it stands for. */
  datatype Placed = Placed(start: nat, length: nat, value: Text)

  function Places(ss: seq<Span>, tokens: map<Secret, Text>, at: nat, out: nat): seq<Placed>
    requires HasTokens(ss, tokens) && Disjoint(ss) && (ss != [] ==> at <= ss[0].start)
    requires forall i :: 0 <= i < |ss| ==> ss[i].start < ss[i].end
    decreases |ss|
  {
    if ss == [] then []
    else
      var start, length := out + (ss[0].start - at), |tokens[ss[0].secret]|;
      [Placed(start, length, ss[0].secret.value)] + Places(ss[1..], tokens, ss[0].end, start + length)
  }

  /** The masked text from `out` on, with the values put back at the replaced positions. */
  function Restored(masked: Text, places: seq<Placed>, out: nat): Text
    requires out <= |masked|
    decreases |places|
  {
    if places == [] then masked[out..]
    else
      var p := places[0];
      if out <= p.start && p.start + p.length <= |masked| then
        masked[out..p.start] + p.value + Restored(masked, places[1..], p.start + p.length)
      else []
  }

  /** Putting the values back gives the text back, exactly. */
  lemma {:induction false} RestoringUndoesMasking(text: Text, ss: seq<Span>, tokens: map<Secret, Text>, at: nat, masked: Text, out: nat)
    requires SpansOk(text, ss) && Disjoint(ss) && at <= |text| && (ss != [] ==> at <= ss[0].start) && HasTokens(ss, tokens)
    requires out <= |masked| && masked[out..] == Masked(text, ss, tokens, at)
    ensures Restored(masked, Places(ss, tokens, at, out), out) == text[at..]
    decreases |ss|
  {
    if ss != [] {
      var s, token := ss[0], tokens[ss[0].secret];
      var start := out + (s.start - at);
      var rest := Masked(text, ss[1..], tokens, s.end);
      ThreeParts(masked, out, text[at..s.start], token, rest);
      RestoringUndoesMasking(text, ss[1..], tokens, s.end, masked, start + |token|);
      TwoCuts(text, at, s.start, s.end);
    }
  }

  lemma ThreeParts(masked: Text, out: nat, a: Text, token: Text, rest: Text)
    requires out <= |masked| && masked[out..] == a + token + rest
    ensures out + |a| + |token| <= |masked|
    ensures masked[out..out + |a|] == a && masked[out + |a| + |token|..] == rest
  {
    var n := |a| + |token|;
    assert |masked[out..]| == n + |rest|;
    DropDrop(masked, out, n);
    assert masked[out..][..|a|] == a;
    assert masked[out..out + |a|] == masked[out..][..|a|];
  }

  lemma TwoCuts(text: Text, at: nat, start: nat, end: nat)
    requires at <= start <= end <= |text|
    ensures text[at..] == text[at..start] + text[start..end] + text[end..]
  {
  }

  /** How much longer the first `n` tokens are than the values they stand for. */
  function Shift(ss: seq<Span>, tokens: map<Secret, Text>, n: nat): int
    requires HasTokens(ss, tokens) && n <= |ss|
  {
    if n == 0 then 0 else Shift(ss, tokens, n - 1) + |tokens[ss[n - 1].secret]| - (ss[n - 1].end - ss[n - 1].start)
  }

  /** Where a byte of the text is after `n` tokens: as far as it was, and as much further as those are longer. */
  function Spot(ss: seq<Span>, tokens: map<Secret, Text>, n: nat, i: int): int
    requires HasTokens(ss, tokens) && n <= |ss|
  {
    i + Shift(ss, tokens, n)
  }

  predicate StandsAt(part: Text, whole: Text, i: int) {
    0 <= i && i + |part| <= |whole| && whole[i..i + |part|] == part
  }

  function From(ss: seq<Span>, n: nat): nat
    requires n <= |ss|
  {
    if n == 0 then 0 else ss[n - 1].end
  }

  /** The text between two values, and before the first and behind the last. */
  function Between(text: Text, ss: seq<Span>, n: nat): Text
    requires SpansOk(text, ss) && Disjoint(ss) && n <= |ss|
  {
    text[From(ss, n)..if n < |ss| then ss[n].start else |text|]
  }

  /** The token of this value stands where the value was, and the text before the value where that was. */
  predicate PieceAt(text: Text, ss: seq<Span>, tokens: map<Secret, Text>, n: nat, masked: Text)
    requires SpansOk(text, ss) && Disjoint(ss) && HasTokens(ss, tokens) && n < |ss|
  {
    && StandsAt(Between(text, ss, n), masked, Spot(ss, tokens, n, From(ss, n)))
    && StandsAt(tokens[ss[n].secret], masked, Spot(ss, tokens, n, ss[n].start))
  }

  /** The masked text has each token where its value was, and what was between two values between their tokens, and
      nothing else. */
  predicate MaskedAs(text: Text, ss: seq<Span>, tokens: map<Secret, Text>, masked: Text)
    requires SpansOk(text, ss) && Disjoint(ss) && HasTokens(ss, tokens)
  {
    && |masked| == Spot(ss, tokens, |ss|, |text|)
    && (forall n :: 0 <= n < |ss| ==> PieceAt(text, ss, tokens, n, masked))
    && StandsAt(Between(text, ss, |ss|), masked, Spot(ss, tokens, |ss|, From(ss, |ss|)))
  }

  /** The masked text of the first `n` spans, up to the end of the last of them. */
  ghost predicate MaskedSoFar(text: Text, ss: seq<Span>, tokens: map<Secret, Text>, n: nat, b: Text)
    requires SpansOk(text, ss) && Disjoint(ss) && HasTokens(ss, tokens) && n <= |ss|
  {
    |b| == Spot(ss, tokens, n, From(ss, n)) && forall k :: 0 <= k < n ==> PieceAt(text, ss, tokens, k, b)
  }

  lemma StandsOn(part: Text, whole: Text, i: int, more: Text)
    requires StandsAt(part, whole, i)
    ensures StandsAt(part, whole + more, i)
  {
    assert (whole + more)[i..i + |part|] == whole[i..i + |part|];
  }

  lemma StandsLast(before: Text, part: Text, more: Text)
    ensures StandsAt(part, before + part + more, |before|)
  {
  }

  lemma PieceStays(text: Text, ss: seq<Span>, tokens: map<Secret, Text>, n: nat, b: Text, more: Text)
    requires SpansOk(text, ss) && Disjoint(ss) && HasTokens(ss, tokens) && n < |ss| && PieceAt(text, ss, tokens, n, b)
    ensures PieceAt(text, ss, tokens, n, b + more)
  {
    StandsOn(Between(text, ss, n), b, Spot(ss, tokens, n, From(ss, n)), more);
    StandsOn(tokens[ss[n].secret], b, Spot(ss, tokens, n, ss[n].start), more);
  }

  lemma InTextOrderOfSpans(text: Text, ss: seq<Span>, n: nat)
    requires SpansOk(text, ss) && Disjoint(ss) && n <= |ss|
    ensures From(ss, n) <= if n < |ss| then ss[n].start else |text|
  {
    assert n > 0 ==> SpanOk(text, ss[n - 1]);
    assert n < |ss| ==> SpanOk(text, ss[n]);
  }

  lemma NewPiece(text: Text, ss: seq<Span>, tokens: map<Secret, Text>, n: nat, b: Text)
    requires SpansOk(text, ss) && Disjoint(ss) && HasTokens(ss, tokens) && n < |ss| && |b| == Spot(ss, tokens, n, From(ss, n))
    ensures var b' := b + Between(text, ss, n) + tokens[ss[n].secret];
            PieceAt(text, ss, tokens, n, b') && |b'| == Spot(ss, tokens, n + 1, From(ss, n + 1))
  {
    var gap, token := Between(text, ss, n), tokens[ss[n].secret];
    InTextOrderOfSpans(text, ss, n);
    assert |gap| == ss[n].start - From(ss, n);
    StandsLast(b, gap, token);
    StandsLast(b + gap, token, []);
    assert b + gap + token + [] == b + gap + token;
  }

  lemma MaskedOneMore(text: Text, ss: seq<Span>, tokens: map<Secret, Text>, n: nat, b: Text)
    requires SpansOk(text, ss) && Disjoint(ss) && HasTokens(ss, tokens) && n < |ss| && MaskedSoFar(text, ss, tokens, n, b)
    ensures MaskedSoFar(text, ss, tokens, n + 1, b + Between(text, ss, n) + tokens[ss[n].secret])
  {
    var gap, token := Between(text, ss, n), tokens[ss[n].secret];
    NewPiece(text, ss, tokens, n, b);
    Joins(b, gap, token);
    forall k | 0 <= k < n
      ensures PieceAt(text, ss, tokens, k, b + gap + token)
    {
      PieceStays(text, ss, tokens, k, b, gap + token);
    }
  }

  lemma MaskedLast(text: Text, ss: seq<Span>, tokens: map<Secret, Text>, b: Text)
    requires SpansOk(text, ss) && Disjoint(ss) && HasTokens(ss, tokens) && MaskedSoFar(text, ss, tokens, |ss|, b)
    ensures MaskedAs(text, ss, tokens, b + Between(text, ss, |ss|))
  {
    var gap := Between(text, ss, |ss|);
    InTextOrderOfSpans(text, ss, |ss|);
    forall k | 0 <= k < |ss|
      ensures PieceAt(text, ss, tokens, k, b + gap)
    {
      PieceStays(text, ss, tokens, k, b, gap);
    }
    StandsLast(b, gap, []);
    assert b + gap + [] == b + gap;
  }

  lemma Tails(text: Text, ss: seq<Span>, tokens: map<Secret, Text>, n: nat)
    requires SpansOk(text, ss) && Disjoint(ss) && HasTokens(ss, tokens) && n <= |ss|
    ensures SpansOk(text, ss[n..]) && Disjoint(ss[n..]) && HasTokens(ss[n..], tokens)
    ensures From(ss, n) <= |text| && (ss[n..] != [] ==> From(ss, n) <= ss[n..][0].start)
  {
    var rest := ss[n..];
    InTextOrderOfSpans(text, ss, n);
    assert n < |ss| ==> SpanOk(text, ss[n]);
    forall i | 0 <= i < |rest|
      ensures SpanOk(text, rest[i]) && rest[i].secret in tokens && tokens[rest[i].secret] != []
    {
      assert rest[i] == ss[n + i] && SpanOk(text, ss[n + i]);
    }
    forall i, j | 0 <= i < j < |rest|
      ensures rest[i].end <= rest[j].start
    {
      assert rest[i] == ss[n + i] && rest[j] == ss[n + j];
    }
  }

  /** The masked text from the end of value `n` on. */
  function MaskedTail(text: Text, ss: seq<Span>, tokens: map<Secret, Text>, n: nat): Text
    requires SpansOk(text, ss) && Disjoint(ss) && HasTokens(ss, tokens) && n <= |ss|
  {
    Tails(text, ss, tokens, n);
    Masked(text, ss[n..], tokens, From(ss, n))
  }

  /** One value on, as masking goes. */
  lemma MaskedStep(text: Text, ss: seq<Span>, tokens: map<Secret, Text>, n: nat)
    requires SpansOk(text, ss) && Disjoint(ss) && HasTokens(ss, tokens) && n < |ss|
    ensures MaskedTail(text, ss, tokens, n) == Between(text, ss, n) + tokens[ss[n].secret] + MaskedTail(text, ss, tokens, n + 1)
  {
    Tails(text, ss, tokens, n);
    assert ss[n..][0] == ss[n] && ss[n..][1..] == ss[n + 1..];
  }

  lemma MaskedNext(text: Text, ss: seq<Span>, tokens: map<Secret, Text>, n: nat, b: Text, masked: Text) returns (b': Text)
    requires SpansOk(text, ss) && Disjoint(ss) && HasTokens(ss, tokens) && n < |ss| && MaskedRest(text, ss, tokens, n, b, masked)
    ensures MaskedRest(text, ss, tokens, n + 1, b', masked)
  {
    var gap, token := Between(text, ss, n), tokens[ss[n].secret];
    b' := b + gap + token;
    MaskedOneMore(text, ss, tokens, n, b);
    MaskedStep(text, ss, tokens, n);
    FourJoin(b, gap, token, MaskedTail(text, ss, tokens, n + 1));
  }

  /** The masked text from value `n` on, behind what it is up to there. */
  ghost predicate MaskedRest(text: Text, ss: seq<Span>, tokens: map<Secret, Text>, n: nat, b: Text, masked: Text)
    requires SpansOk(text, ss) && Disjoint(ss) && HasTokens(ss, tokens) && n <= |ss|
  {
    MaskedSoFar(text, ss, tokens, n, b) && masked == b + MaskedTail(text, ss, tokens, n)
  }

  lemma MaskedEnd(text: Text, ss: seq<Span>, tokens: map<Secret, Text>, b: Text, masked: Text)
    requires SpansOk(text, ss) && Disjoint(ss) && HasTokens(ss, tokens) && MaskedRest(text, ss, tokens, |ss|, b, masked)
    ensures MaskedAs(text, ss, tokens, masked)
  {
    assert ss[|ss|..] == [];
    assert masked == b + Between(text, ss, |ss|);
    MaskedLast(text, ss, tokens, b);
  }

  lemma {:induction false} MaskedFrom(text: Text, ss: seq<Span>, tokens: map<Secret, Text>, n: nat, b: Text, masked: Text)
    requires SpansOk(text, ss) && Disjoint(ss) && HasTokens(ss, tokens) && n <= |ss| && MaskedRest(text, ss, tokens, n, b, masked)
    ensures MaskedAs(text, ss, tokens, masked)
    decreases |ss| - n
  {
    if n == |ss| {
      MaskedEnd(text, ss, tokens, b, masked);
    } else {
      var b' := MaskedNext(text, ss, tokens, n, b, masked);
      MaskedFrom(text, ss, tokens, n + 1, b', masked);
    }
  }

  lemma FourJoin(a: Text, b: Text, c: Text, d: Text)
    ensures a + (b + c + d) == a + b + c + d
  {
  }

  /** Masking puts the tokens in the values' places and changes nothing else. */
  lemma MaskedMeans(text: Text, ss: seq<Span>, tokens: map<Secret, Text>)
    requires SpansOk(text, ss) && Disjoint(ss) && HasTokens(ss, tokens)
    ensures MaskedAs(text, ss, tokens, Masked(text, ss, tokens, 0))
  {
    var masked := Masked(text, ss, tokens, 0);
    assert ss[0..] == ss && [] + masked == masked;
    MaskedFrom(text, ss, tokens, 0, [], masked);
  }

  datatype ApplyError = NoToken | MaskedTooLong

  /** apply: a missing token is an error, never a value left in place. */
  method Apply(text: Text, ss: seq<Span>, tokens: map<Secret, Text>, maxChars: nat) returns (r: Result<Text, ApplyError>)
    requires SpansOk(text, ss) && Disjoint(ss)
    ensures r == Err(NoToken) <==> !HasTokens(ss, tokens)
    ensures HasTokens(ss, tokens) ==>
      r == if ss != [] && |Utf8.Runes(Masked(text, ss, tokens, 0))| > maxChars then Err(MaskedTooLong) else Ok(Masked(text, ss, tokens, 0))
    ensures r.Ok? ==> MaskedAs(text, ss, tokens, r.value)
  {
    if HasTokens(ss, tokens) {
      MaskedMeans(text, ss, tokens);
    }
    if ss == [] {
      assert text[0..] == text;
      return Ok(text);
    }
    var b: Text, at: nat := [], 0;
    for i := 0 to |ss|
      invariant Applying(text, ss, tokens, i, at, b)
    {
      var sp := ss[i];
      if sp.secret !in tokens || tokens[sp.secret] == [] {
        return Err(NoToken);
      }
      ApplyOne(text, ss, tokens, i, at, b);
      b := b + text[at..sp.start];
      b := b + tokens[sp.secret];
      at := sp.end;
    }
    assert ss[|ss|..] == [] && ss[..|ss|] == ss;
    b := b + text[at..];
    var chars := Clean.RuneCount(b);
    if chars > maxChars {
      return Err(MaskedTooLong);
    }
    return Ok(b);
  }

  /** The loop of apply, before span `i`: `b` is the masked text up to byte `at` of the original. */
  ghost predicate Applying(text: Text, ss: seq<Span>, tokens: map<Secret, Text>, i: nat, at: nat, b: Text)
    requires SpansOk(text, ss) && Disjoint(ss)
  {
    && i <= |ss| && at <= |text| && (i < |ss| ==> at <= ss[i].start)
    && HasTokens(ss[..i], tokens)
    && (HasTokens(ss, tokens) ==> Masked(text, ss, tokens, 0) == b + Masked(text, ss[i..], tokens, at))
  }

  lemma ApplyOne(text: Text, ss: seq<Span>, tokens: map<Secret, Text>, i: nat, at: nat, b: Text)
    requires SpansOk(text, ss) && Disjoint(ss) && i < |ss| && Applying(text, ss, tokens, i, at, b)
    requires ss[i].secret in tokens && tokens[ss[i].secret] != []
    ensures Applying(text, ss, tokens, i + 1, ss[i].end, b + text[at..ss[i].start] + tokens[ss[i].secret])
  {
    var sp := ss[i];
    assert ss[i..][0] == sp;
    DropDrop(ss, i, 1);
    if HasTokens(ss, tokens) {
      Joins(b, text[at..sp.start] + tokens[sp.secret], Masked(text, ss[i + 1..], tokens, sp.end));
      Joins(b, text[at..sp.start], tokens[sp.secret]);
    }
  }

  function SecretSet(ss: seq<Span>): set<Secret> {
    set i | 0 <= i < |ss| :: ss[i].secret
  }

  function SecretList(ss: seq<Span>): seq<Secret> {
    seq(|ss|, i requires 0 <= i < |ss| => ss[i].secret)
  }

  /** Each value once, in the order they first appear. */
  function FirstSeen(s: seq<Secret>): seq<Secret> {
    if s == [] then []
    else
      var before := FirstSeen(s[..|s| - 1]);
      if s[|s| - 1] in before then before else before + [s[|s| - 1]]
  }

  lemma FirstSeenPush(s: seq<Secret>, x: Secret)
    ensures FirstSeen(s + [x]) == if x in FirstSeen(s) then FirstSeen(s) else FirstSeen(s) + [x]
  {
    assert (s + [x])[..|s|] == s;
  }

  lemma {:induction false} FirstSeenIsEachOnce(s: seq<Secret>)
    ensures Distinct(FirstSeen(s)) && forall x :: x in FirstSeen(s) <==> x in s
  {
    if s != [] {
      FirstSeenIsEachOnce(s[..|s| - 1]);
      assert s == s[..|s| - 1] + [s[|s| - 1]];
    }
  }

  /** Repeats may be dropped before or after. */
  lemma {:induction false} FirstSeenOnce(prev: seq<Secret>, s: seq<Secret>)
    ensures FirstSeen(prev + FirstSeen(s)) == FirstSeen(prev + s)
  {
    if s == [] {
      assert FirstSeen(s) == s;
    } else {
      var init, x := s[..|s| - 1], s[|s| - 1];
      FirstSeenOnce(prev, init);
      FirstSeenIsEachOnce(init);
      FirstSeenIsEachOnce(prev + init);
      assert prev + s == prev + init + [x];
      FirstSeenPush(prev + init, x);
      if x in FirstSeen(init) {
        assert x in prev + init;
      } else {
        assert prev + FirstSeen(s) == prev + FirstSeen(init) + [x];
        FirstSeenPush(prev + FirstSeen(init), x);
      }
    }
  }

  /** The values of a text's spans, each once, in the order they first appear. */
  method Secrets(ss: seq<Span>) returns (out: seq<Secret>)
    ensures out == FirstSeen(SecretList(ss))
  {
    out := [];
    var seen: set<Secret> := {};
    for i := 0 to |ss|
      invariant forall s :: s in seen <==> s in out
      invariant out == FirstSeen(SecretList(ss)[..i])
    {
      assert SecretList(ss)[..i + 1] == SecretList(ss)[..i] + [ss[i].secret];
      FirstSeenPush(SecretList(ss)[..i], ss[i].secret);
      if ss[i].secret in seen {
        continue;
      }
      seen := seen + {ss[i].secret};
      out := out + [ss[i].secret];
    }
    assert SecretList(ss)[..|ss|] == SecretList(ss);
  }

  // ---- A delivery ----------------------------------------------------------------------------------------

  datatype Content = Content(title: Text, text: Text)

  datatype MaskError = TooManySecrets | NotMasked(why: ApplyError)

  lemma SpansFit(p: Finder, text: Text)
    ensures SpansOk(text, Spans(p, text)) && Disjoint(Spans(p, text))
  {
    FoundOk(p, text);
    KeptResolves(text, Found(p, text));
  }

  /** A text with every value the masker recognizes replaced. */
  function MaskedText(p: Finder, text: Text, tokens: map<Secret, Text>): Text
    requires HasTokens(Spans(p, text), tokens)
  {
    SpansFit(p, text);
    Masked(text, Spans(p, text), tokens, 0)
  }

  /** What is recognized in a text. */
  function SecretsIn(p: Finder, text: Text): set<Secret> {
    SecretSet(Spans(p, text))
  }

  function SecretsOf(p: Finder, c: Content): set<Secret> {
    SecretsIn(p, c.title) + SecretsIn(p, c.text)
  }

  function AllSecrets(p: Finder, recs: seq<Content>): set<Secret> {
    if recs == [] then {} else AllSecrets(p, recs[..|recs| - 1]) + SecretsOf(p, recs[|recs| - 1])
  }

  ghost predicate EachOnce(s: seq<Secret>, all: set<Secret>) {
    Distinct(s) && forall x :: x in s <==> x in all
  }

  lemma {:induction false} EachOnceCount(s: seq<Secret>, all: set<Secret>)
    requires EachOnce(s, all)
    ensures |s| == |all|
  {
    if s == [] {
      assert all == {};
    } else {
      var last := s[|s| - 1];
      assert last in s;
      var rest := all - {last};
      forall x
        ensures x in s[..|s| - 1] <==> x in rest
      {
        if x in s[..|s| - 1] {
          assert x in s;
        }
        if x in rest {
          assert x in s;
        }
      }
      EachOnceCount(s[..|s| - 1], rest);
    }
  }

  /** The secrets of one text that were not wanted before. */
  method AddSecrets(ss: seq<Span>, wanted: seq<Secret>, ghost before: seq<Secret>) returns (r: seq<Secret>)
    requires wanted == FirstSeen(before)
    ensures r == FirstSeen(before + SecretList(ss))
  {
    var secrets := Secrets(ss);
    r := wanted;
    assert before + secrets[..0] == before;
    for i := 0 to |secrets|
      invariant r == FirstSeen(before + secrets[..i])
    {
      assert before + secrets[..i + 1] == before + secrets[..i] + [secrets[i]];
      FirstSeenPush(before + secrets[..i], secrets[i]);
      if secrets[i] !in r {
        r := r + [secrets[i]];
      }
    }
    assert secrets[..|secrets|] == secrets;
    FirstSeenOnce(before, SecretList(ss));
  }

  /** What is recognized in the titles and texts of a delivery, in the order it stands there. */
  function InTextOrder(p: Finder, recs: seq<Content>): seq<Secret> {
    if recs == [] then []
    else
      var c := recs[|recs| - 1];
      InTextOrder(p, recs[..|recs| - 1]) + SecretList(Spans(p, c.title)) + SecretList(Spans(p, c.text))
  }

  /** The scan of the whole delivery: what the upsert stores, in the order it stores it. */
  method Wanted(p: Finder, recs: seq<Content>) returns (wanted: seq<Secret>)
    ensures wanted == FirstSeen(InTextOrder(p, recs))
  {
    wanted := [];
    for i := 0 to |recs|
      invariant wanted == FirstSeen(InTextOrder(p, recs[..i]))
    {
      var title := FindSecrets(p, recs[i].title);
      var text := FindSecrets(p, recs[i].text);
      ghost var before := InTextOrder(p, recs[..i]);
      wanted := AddSecrets(title, wanted, before);
      wanted := AddSecrets(text, wanted, before + SecretList(title));
      assert recs[..i + 1][..i] == recs[..i];
    }
    assert recs[..|recs|] == recs;
  }

  /** That is every value of the delivery, each once. */
  lemma {:induction false} WantedIsEachOnce(p: Finder, recs: seq<Content>)
    ensures EachOnce(FirstSeen(InTextOrder(p, recs)), AllSecrets(p, recs))
  {
    FirstSeenIsEachOnce(InTextOrder(p, recs));
    AllAreInText(p, recs);
  }

  lemma {:induction false} AllAreInText(p: Finder, recs: seq<Content>)
    ensures forall x :: x in InTextOrder(p, recs) <==> x in AllSecrets(p, recs)
  {
    if recs != [] {
      var c := recs[|recs| - 1];
      AllAreInText(p, recs[..|recs| - 1]);
      ListedSecrets(Spans(p, c.title));
      ListedSecrets(Spans(p, c.text));
    }
  }

  lemma ListedSecrets(ss: seq<Span>)
    ensures forall x :: x in SecretList(ss) <==> x in SecretSet(ss)
  {
    forall i | 0 <= i < |ss|
      ensures ss[i].secret in SecretList(ss)
    {
      assert SecretList(ss)[i] == ss[i].secret;
    }
  }

  /** A masked text no longer fits its field. (A text in which nothing was recognized is not measured.) */
  predicate NoLongerFits(p: Finder, text: Text, tokens: map<Secret, Text>, maxChars: nat)
    requires HasTokens(Spans(p, text), tokens)
  {
    Spans(p, text) != [] && |Utf8.Runes(MaskedText(p, text, tokens))| > maxChars
  }

  /** Why a field cannot be masked, if it cannot. */
  function FieldError(p: Finder, text: Text, tokens: map<Secret, Text>, maxChars: nat): Option<ApplyError> {
    if !HasTokens(Spans(p, text), tokens) then Some(NoToken)
    else if NoLongerFits(p, text, tokens, maxChars) then Some(MaskedTooLong)
    else None
  }

  /** Why a record cannot be masked: what is wrong with its title, or else with its text. */
  function ContentError(p: Finder, c: Content, tokens: map<Secret, Text>): Option<ApplyError> {
    var title := FieldError(p, c.title, tokens, Clean.MAX_TITLE);
    if title.Some? then title else FieldError(p, c.text, tokens, Clean.MAX_TEXT)
  }

  predicate IsMasked(p: Finder, was: Content, now: Content, tokens: map<Secret, Text>) {
    && ContentError(p, was, tokens).None?
    && now == Content(MaskedText(p, was.title, tokens), MaskedText(p, was.text, tokens))
  }

  /** The first record that cannot be masked, and why. */
  predicate FailsFirst(p: Finder, recs: seq<Content>, tokens: map<Secret, Text>, i: nat, why: ApplyError) {
    && i < |recs| && ContentError(p, recs[i], tokens) == Some(why)
    && forall j :: 0 <= j < i ==> ContentError(p, recs[j], tokens).None?
  }

  /** maskRecords: the scan runs over every record first, a delivery with too many values is refused whole, and
      the records are then rewritten in place, unless one of them cannot be: then the first such record says why.
      `tokens` is what the redaction map answers. */
  method MaskRecords(p: Finder, recs: array<Content>, tokens: map<Secret, Text>) returns (r: Option<MaskError>)
    modifies recs
    ensures r == Some(TooManySecrets) <==> |AllSecrets(p, old(recs[..]))| > MAX_SECRETS_PER_DELIVERY
    ensures r == Some(TooManySecrets) ==> recs[..] == old(recs[..])
    ensures r.None? ==> AllMasked(p, old(recs[..]), recs[..], tokens)
    ensures r.Some? && r.value.NotMasked? ==> exists i :: FailsFirst(p, old(recs[..]), tokens, i, r.value.why)
  {
    var wanted := Wanted(p, recs[..]);
    WantedIsEachOnce(p, recs[..]);
    EachOnceCount(wanted, AllSecrets(p, recs[..]));
    if |wanted| > MAX_SECRETS_PER_DELIVERY {
      return Some(TooManySecrets);
    }
    r := Rewrite(p, recs, tokens);
  }

  /** Each record, masked, in its place. */
  ghost predicate AllMasked(p: Finder, was: seq<Content>, now: seq<Content>, tokens: map<Secret, Text>) {
    AllPairs((a: Content, b: Content) => IsMasked(p, a, b, tokens), was, now)
  }

  predicate AllPairs(related: (Content, Content) -> bool, was: seq<Content>, now: seq<Content>) {
    |now| == |was| && forall i :: 0 <= i < |now| ==> related(was[i], now[i])
  }

  lemma PairsPush(related: (Content, Content) -> bool, was: seq<Content>, now: seq<Content>, a: Content, b: Content)
    requires AllPairs(related, was, now) && related(a, b)
    ensures AllPairs(related, was + [a], now + [b])
  {
  }

  /** The first `now` of the records are rewritten. */
  predicate Halfway(recs: seq<Content>, was: seq<Content>, now: seq<Content>) {
    |now| <= |was| && recs == now + was[|now|..]
  }

  method Put(recs: array<Content>, i: nat, c: Content, ghost was: seq<Content>, ghost now: seq<Content>)
    requires i < recs.Length && i == |now| && Halfway(recs[..], was, now)
    modifies recs
    ensures Halfway(recs[..], was, now + [c])
  {
    recs[i] := c;
  }

  method Rewrite(p: Finder, recs: array<Content>, tokens: map<Secret, Text>) returns (r: Option<MaskError>)
    modifies recs
    ensures r != Some(TooManySecrets)
    ensures r.None? ==> AllMasked(p, old(recs[..]), recs[..], tokens)
    ensures r.Some? ==> exists i :: FailsFirst(p, old(recs[..]), tokens, i, r.value.why)
  {
    ghost var was, now := recs[..], [];
    ghost var related := (a: Content, b: Content) => IsMasked(p, a, b, tokens);
    for i := 0 to recs.Length
      invariant |now| == i && Halfway(recs[..], was, now)
      invariant AllPairs(related, was[..i], now)
    {
      assert recs[i] == recs[..][i] == was[i];
      var masked := MaskContent(p, recs[i], tokens);
      if masked.Err? {
        assert FailsFirst(p, was, tokens, i, masked.error) by {
          assert forall j :: 0 <= j < i ==> was[..i][j] == was[j] && related(was[j], now[j]);
        }
        return Some(NotMasked(masked.error));
      }
      Put(recs, i, masked.value, was, now);
      PairsPush(related, was[..i], now, was[i], masked.value);
      now := now + [masked.value];
      assert was[..i + 1] == was[..i] + [was[i]];
    }
    assert was[..|was|] == was && recs[..] == now;
    return None;
  }

  method MaskContent(p: Finder, rec: Content, tokens: map<Secret, Text>) returns (r: Result<Content, ApplyError>)
    ensures r.Ok? ==> IsMasked(p, rec, r.value, tokens)
    ensures ContentError(p, rec, tokens) == if r.Ok? then None else Some(r.error)
  {
    var title := MaskOne(p, rec.title, tokens, Clean.MAX_TITLE);
    if title.Err? {
      return Err(title.error);
    }
    var text := MaskOne(p, rec.text, tokens, Clean.MAX_TEXT);
    if text.Err? {
      return Err(text.error);
    }
    return Ok(Content(title.value, text.value));
  }

  method MaskOne(p: Finder, text: Text, tokens: map<Secret, Text>, maxChars: nat) returns (r: Result<Text, ApplyError>)
    ensures FieldError(p, text, tokens, maxChars) == if r.Ok? then None else Some(r.error)
    ensures r.Ok? ==> r.value == MaskedText(p, text, tokens)
  {
    var ss := FindSecrets(p, text);
    r := Apply(text, ss, tokens, maxChars);
  }

  /** Nothing the masker recognizes is lost or left in doubt: the masked text and the places of its tokens
      give the original back. */
  lemma MaskingIsReversible(p: Finder, text: Text, tokens: map<Secret, Text>)
    requires HasTokens(Spans(p, text), tokens)
    ensures SpansOk(text, Spans(p, text)) && Disjoint(Spans(p, text))
    ensures Restored(MaskedText(p, text, tokens), Places(Spans(p, text), tokens, 0, 0), 0) == text
  {
    SpansFit(p, text);
    var masked := MaskedText(p, text, tokens);
    assert masked[0..] == masked && text[0..] == text;
    RestoringUndoesMasking(text, Spans(p, text), tokens, 0, masked, 0);
  }
}
