/** The scope id, the string access is decided on: how it is built, read and checked (internal/record/scope.go
    and the name rule of internal/record/validate.go). */
module ScopeIds {
  import opened Names
  import opened Lists

  const MAX_SCOPE_ID := 512
  const MAX_KIND := 32
  const COLON: byte := 0x3A
  const PERCENT: byte := 0x25

  datatype Scope = Scope(provider: Text, containerKind: Text, containerId: Text)

  datatype BadScopeId = BadProvider | BadKind | EmptyContainer | ControlCharacter | TooLong | NotEscaped | BadEscape

  // ---- Characters ------------------------------------------------------------------------------------

  /** The set section 2.3 of RFC 3986 calls unreserved. */
  predicate Unreserved(c: byte) {
    IsUpper(c) || IsLower(c) || IsDigit(c) || c == 0x2E || c == 0x5F || c == 0x7E || c == 0x2D
  }

  predicate Control(c: byte) {
    c < 0x20 || c == 0x7F
  }

  predicate IsUpperHex(c: byte) {
    IsDigit(c) || 0x41 <= c <= 0x46
  }

  function UpperHex(n: nat): (c: byte)
    requires n < 16
    ensures IsUpperHex(c) && Unhex(c) == n
  {
    if n < 10 then 0x30 + n else 0x41 + n - 10
  }

  function Unhex(c: byte): int {
    if c >= 0x41 then c - 0x41 + 10 else c - 0x30
  }

  lemma HexOfUnhex(c: byte)
    requires IsUpperHex(c)
    ensures 0 <= Unhex(c) < 16 && UpperHex(Unhex(c)) == c
  {
  }

  // ---- Names ---------------------------------------------------------------------------------------

  predicate NameChar(c: byte, hyphen: bool) {
    IsLower(c) || IsDigit(c) || c == 0x5F || (hyphen && c == 0x2D)
  }

  /** A lowercase letter, then letters, digits and underscores. */
  predicate IsName(s: Text, maxLen: nat, hyphen: bool) {
    && 0 < |s| <= maxLen && IsLower(s[0])
    && forall i :: 0 <= i < |s| ==> NameChar(s[i], hyphen)
  }

  method ValidName(s: Text, maxLen: nat, hyphen: bool) returns (ok: bool)
    ensures ok <==> IsName(s, maxLen, hyphen)
  {
    if s == [] || |s| > maxLen || !IsLower(s[0]) {
      return false;
    }
    for i := 1 to |s|
      invariant forall j :: 0 <= j < i ==> NameChar(s[j], hyphen)
    {
      if !NameChar(s[i], hyphen) {
        return false;
      }
    }
    return true;
  }

  // ---- The format ------------------------------------------------------------------------------------

  /** One byte of a container id as it is written. */
  function Escape(c: byte): Text {
    if Unreserved(c) then [c] else [PERCENT, UpperHex(c / 16), UpperHex(c % 16)]
  }

  /** Section 2.3 of RFC 3986: letters, digits, hyphen, period, underscore and tilde stand for themselves, and any other
      byte is a percent sign and its two digits, upper case. */
  lemma EscapeMeans(c: byte)
    ensures var ch := c as char;
            if 'A' <= ch <= 'Z' || 'a' <= ch <= 'z' || '0' <= ch <= '9' || ch in "-._~" then Escape(c) == [c]
            else |Escape(c)| == 3 && Escape(c)[0] as char == '%'
                 && Escape(c)[1] as char == "0123456789ABCDEF"[c / 16] && Escape(c)[2] as char == "0123456789ABCDEF"[c % 16]
  {
  }

  function EscapeAll(id: Text): Text {
    if id == [] then [] else Escape(id[0]) + EscapeAll(id[1..])
  }

  function Spelled(s: Scope): Text {
    s.provider + [COLON] + s.containerKind + [COLON] + EscapeAll(s.containerId)
  }

  predicate NoControls(id: Text) {
    forall i :: 0 <= i < |id| ==> !Control(id[i])
  }

  /** The parts ScopeID takes. */
  predicate Accepted(s: Scope) {
    && IsName(s.provider, MAX_KIND, false) && IsName(s.containerKind, MAX_KIND, false)
    && s.containerId != [] && NoControls(s.containerId)
    && |Spelled(s)| <= MAX_SCOPE_ID
  }

  /** The strings ScopeID produces. */
  ghost predicate IsScopeId(s: Text) {
    exists scope :: Accepted(scope) && Spelled(scope) == s
  }

  // ---- Printing ------------------------------------------------------------------------------------

  lemma {:induction false} EscapeOneMore(id: Text, c: byte)
    ensures EscapeAll(id + [c]) == EscapeAll(id) + Escape(c)
  {
    if id == [] {
      assert EscapeAll([c]) == Escape(c) + EscapeAll([c][1..]);
    } else {
      EscapeOneMore(id[1..], c);
      Joins(Escape(id[0]), EscapeAll(id[1..]), Escape(c));
      assert (id + [c])[1..] == id[1..] + [c];
    }
  }

  lemma {:induction false} EscapePrefixShorter(id: Text, n: nat)
    requires n <= |id|
    ensures |EscapeAll(id[..n])| <= |EscapeAll(id)|
    decreases |id| - n
  {
    if n < |id| {
      EscapeOneMore(id[..n], id[n]);
      assert id[..n + 1] == id[..n] + [id[n]];
      EscapePrefixShorter(id, n + 1);
    } else {
      assert id[..n] == id;
    }
  }

  method ScopeId(scope: Scope) returns (r: Result<Text, BadScopeId>)
    ensures r.Ok? <==> Accepted(scope)
    ensures r.Ok? ==> r.value == Spelled(scope)
  {
    var ok := ValidName(scope.provider, MAX_KIND, false);
    if !ok {
      return Err(BadProvider);
    }
    ok := ValidName(scope.containerKind, MAX_KIND, false);
    if !ok {
      return Err(BadKind);
    }
    if scope.containerId == [] {
      return Err(EmptyContainer);
    }
    var id, b := scope.containerId, scope.provider + [COLON] + scope.containerKind + [COLON];
    ghost var front := b;
    for i := 0 to |id|
      invariant b == front + EscapeAll(id[..i]) && NoControls(id[..i])
      invariant i > 0 ==> |b| <= MAX_SCOPE_ID
    {
      assert id[..i + 1] == id[..i] + [id[i]];
      EscapeOneMore(id[..i], id[i]);
      Joins(front, EscapeAll(id[..i]), Escape(id[i]));
      if !Unreserved(id[i]) && Control(id[i]) {
        return Err(ControlCharacter);
      }
      b := b + Escape(id[i]);
      if |b| > MAX_SCOPE_ID {
        EscapePrefixShorter(id, i + 1);
        return Err(TooLong);
      }
    }
    assert id[..|id|] == id;
    return Ok(b);
  }

  // ---- Reading ---------------------------------------------------------------------------------------

  /** The byte an escape stands for, when the format writes that escape. */
  function Escaped(enc: Text, i: nat): Option<byte>
    requires i < |enc|
  {
    if enc[i] == PERCENT && i + 2 < |enc| && IsUpperHex(enc[i + 1]) && IsUpperHex(enc[i + 2])
    then
      var c := 16 * Unhex(enc[i + 1]) + Unhex(enc[i + 2]);
      if 0 <= c < 256 && !Unreserved(c) && !Control(c) then Some(c) else None
    else None
  }

  /** The container id that `enc` spells from byte `i` on. */
  function Decoded(enc: Text, i: nat): Option<Text>
    requires i <= |enc|
    decreases |enc| - i
  {
    if i == |enc| then Some([])
    else if Unreserved(enc[i]) then
      var rest := Decoded(enc, i + 1); if rest.None? then None else Some([enc[i]] + rest.value)
    else if Escaped(enc, i).Some? then
      var rest := Decoded(enc, i + 3); if rest.None? then None else Some([Escaped(enc, i).value] + rest.value)
    else None
  }

  /** strings.IndexByte, or the length when the byte does not occur. */
  function IndexOf(s: Text, c: byte, from: nat): (i: nat)
    requires from <= |s|
    ensures from <= i <= |s| && (i < |s| ==> s[i] == c) && (forall j :: from <= j < i ==> s[j] != c)
    decreases |s| - from
  {
    if from == |s| || s[from] == c then from else IndexOf(s, c, from + 1)
  }

  lemma {:induction false} DecodedOfEscaped(id: Text, enc: Text, i: nat)
    requires i <= |enc| && enc[i..] == EscapeAll(id) && NoControls(id)
    ensures Decoded(enc, i) == Some(id)
  {
    if id != [] {
      var e := Escape(id[0]);
      EscapeShape(enc, i, id[0], EscapeAll(id[1..]));
      DecodedOfEscaped(id[1..], enc, i + |e|);
      HeadAndTail(id);
    }
  }

  lemma EscapeShape(enc: Text, i: nat, c: byte, rest: Text)
    requires i <= |enc| && enc[i..] == Escape(c) + rest && !Control(c)
    ensures var e := Escape(c);
            && i + |e| <= |enc| && enc[i + |e|..] == rest
            && (if Unreserved(c) then enc[i] == c && |e| == 1 else Escaped(enc, i) == Some(c) && !Unreserved(enc[i]) && |e| == 3)
  {
    var e := Escape(c);
    assert forall j :: 0 <= j < |e| ==> enc[i + j] == enc[i..][j] == e[j];
    assert enc[i..][|e|..] == rest;
  }

  lemma {:induction false} EscapedOfDecoded(enc: Text, i: nat)
    requires i <= |enc| && Decoded(enc, i).Some?
    ensures EscapeAll(Decoded(enc, i).value) == enc[i..] && NoControls(Decoded(enc, i).value)
    decreases |enc| - i
  {
    if i < |enc| {
      var n := if Unreserved(enc[i]) then 1 else 3;
      var c := if Unreserved(enc[i]) then enc[i] else Escaped(enc, i).value;
      EscapedOfDecoded(enc, i + n);
      EscapeBytes(enc, i, c, n);
      var rest := Decoded(enc, i + n).value;
      assert ([c] + rest)[1..] == rest;
      assert enc[i..] == enc[i..i + n] + enc[i + n..];
    }
  }

  lemma EscapeBytes(enc: Text, i: nat, c: byte, n: nat)
    requires i < |enc|
    requires (Unreserved(enc[i]) && c == enc[i] && n == 1) || (!Unreserved(enc[i]) && Escaped(enc, i) == Some(c) && n == 3)
    ensures i + n <= |enc| && Escape(c) == enc[i..i + n] && !Control(c)
  {
    if n == 3 {
      HexOfUnhex(enc[i + 1]);
      HexOfUnhex(enc[i + 2]);
    }
  }

  /** Two parts without a separator, each followed by one, and what is left. */
  lemma Separated(a: Text, b: Text, rest: Text, c: byte)
    requires c !in a && c !in b
    ensures var s := a + [c] + b + [c] + rest;
            && |s| == |a| + |b| + 2 + |rest|
            && s[..|a|] == a && s[|a| + 1..|a| + 1 + |b|] == b && s[|a| + |b| + 2..] == rest
            && IndexOf(s, c, 0) == |a| && IndexOf(s, c, |a| + 1) == |a| + 1 + |b|
  {
    var s := a + [c] + b + [c] + rest;
    assert s[..|a|] == a && s[|a|] == c;
    assert s[|a| + 1..|a| + 1 + |b|] == b && s[|a| + 1 + |b|] == c;
    assert forall j :: 0 <= j < |a| ==> s[j] == a[j];
    assert forall j :: 0 <= j < |b| ==> s[|a| + 1 + j] == b[j];
  }

  /** Where the two colons of a spelled scope are. */
  lemma Colons(scope: Scope)
    requires IsName(scope.provider, MAX_KIND, false) && IsName(scope.containerKind, MAX_KIND, false)
    ensures var s, p, k := Spelled(scope), |scope.provider|, |scope.containerKind|;
            && |s| == p + k + 2 + |EscapeAll(scope.containerId)|
            && IndexOf(s, COLON, 0) == p && IndexOf(s, COLON, p + 1) == p + 1 + k
            && s[..p] == scope.provider && s[p + 1..p + 1 + k] == scope.containerKind
            && s[p + k + 2..] == EscapeAll(scope.containerId)
  {
    Separated(scope.provider, scope.containerKind, EscapeAll(scope.containerId), COLON);
  }

  /** A spelled scope determines its parts. */
  ghost predicate IsParted(s: Text, scope: Scope) {
    var first := IndexOf(s, COLON, 0);
    && first < |s| && scope.provider == s[..first]
    && var second := IndexOf(s, COLON, first + 1);
       second < |s| && scope.containerKind == s[first + 1..second] && Decoded(s[second + 1..], 0) == Some(scope.containerId)
  }

  lemma SpelledIsParted(scope: Scope)
    requires Accepted(scope)
    ensures IsParted(Spelled(scope), scope)
  {
    Colons(scope);
    var enc := EscapeAll(scope.containerId);
    assert enc[0..] == enc;
    DecodedOfEscaped(scope.containerId, enc, 0);
  }

  /** Two scopes that are spelled alike are one scope: the string is a join key. */
  lemma SpelledOnce(a: Scope, b: Scope)
    requires Accepted(a) && Accepted(b) && Spelled(a) == Spelled(b)
    ensures a == b
  {
    SpelledIsParted(a);
    SpelledIsParted(b);
  }

  /** The parts between the colons, and what the rest decodes to. */
  function Parts(s: Text, first: nat, second: nat): (Text, Text, Text)
    requires first < second < |s|
  {
    (s[..first], s[first + 1..second], s[second + 1..])
  }

  ghost predicate PartsOk(s: Text, first: nat, second: nat) {
    && first < second < |s| && s[first] == COLON && s[second] == COLON && |s| <= MAX_SCOPE_ID
    && var (provider, kind, enc) := Parts(s, first, second);
       IsName(provider, MAX_KIND, false) && IsName(kind, MAX_KIND, false) && enc != [] && Decoded(enc, 0).Some?
  }

  lemma PartsSpell(s: Text, first: nat, second: nat) returns (scope: Scope)
    requires PartsOk(s, first, second)
    ensures scope.provider == s[..first] && scope.containerKind == s[first + 1..second]
    ensures Some(scope.containerId) == Decoded(s[second + 1..], 0) && Accepted(scope) && Spelled(scope) == s
  {
    var enc := s[second + 1..];
    scope := Scope(s[..first], s[first + 1..second], Decoded(enc, 0).value);
    EscapedOfDecoded(enc, 0);
    assert enc[0..] == enc;
    assert s == s[..first] + [s[first]] + s[first + 1..second] + [s[second]] + s[second + 1..];
  }

  lemma SpelledHasParts(scope: Scope)
    requires Accepted(scope)
    ensures PartsOk(Spelled(scope), |scope.provider|, |scope.provider| + 1 + |scope.containerKind|)
  {
    Colons(scope);
    var enc := EscapeAll(scope.containerId);
    assert enc[0..] == enc;
    DecodedOfEscaped(scope.containerId, enc, 0);
  }

  lemma ScopeIdHasParts(s: Text)
    requires IsScopeId(s)
    ensures var first := IndexOf(s, COLON, 0);
            first < |s| && PartsOk(s, first, IndexOf(s, COLON, first + 1))
  {
    var scope :| Accepted(scope) && Spelled(scope) == s;
    SpelledHasParts(scope);
    Colons(scope);
  }

  /** The escape loop of checkScopeID. */
  method CheckEscapes(enc: Text) returns (r: Option<BadScopeId>)
    ensures r.None? <==> Decoded(enc, 0).Some?
  {
    var i := 0;
    while i < |enc|
      invariant i <= |enc| && Decoded(enc, 0).Some? == Decoded(enc, i).Some?
    {
      var c := enc[i];
      if Unreserved(c) {
        i := i + 1;
        continue;
      }
      if c != PERCENT || i + 2 >= |enc| || !IsUpperHex(enc[i + 1]) || !IsUpperHex(enc[i + 2]) {
        return Some(NotEscaped);
      }
      var decoded := 16 * Unhex(enc[i + 1]) + Unhex(enc[i + 2]);
      if Unreserved(decoded) || Control(decoded) {
        return Some(BadEscape);
      }
      i := i + 3;
    }
    return None;
  }

  method CheckScopeId(s: Text) returns (r: Option<BadScopeId>)
    ensures r.None? <==> IsScopeId(s)
    ensures r.None? ==> var first := IndexOf(s, COLON, 0); first < |s| && PartsOk(s, first, IndexOf(s, COLON, first + 1))
  {
    if IsScopeId(s) {
      ScopeIdHasParts(s);
    }
    if |s| > MAX_SCOPE_ID {
      return Some(TooLong);
    }
    var first := IndexOf(s, COLON, 0);
    if first == |s| {
      return Some(BadProvider);
    }
    var ok := ValidName(s[..first], MAX_KIND, false);
    if !ok {
      return Some(BadProvider);
    }
    var second := IndexOf(s, COLON, first + 1);
    if second == |s| {
      return Some(BadKind);
    }
    ok := ValidName(s[first + 1..second], MAX_KIND, false);
    if !ok {
      return Some(BadKind);
    }
    if s[second + 1..] == [] {
      return Some(EmptyContainer);
    }
    r := CheckEscapes(s[second + 1..]);
    if r.None? {
      ghost var scope := PartsSpell(s, first, second);
    }
  }

  /** ParseScopeID accepts exactly the strings ScopeID produces, and gives back the parts they were produced
      from. */
  method ParseScopeId(s: Text) returns (r: Result<Scope, BadScopeId>)
    ensures r.Ok? <==> IsScopeId(s)
    ensures r.Ok? ==> Accepted(r.value) && Spelled(r.value) == s
  {
    var bad := CheckScopeId(s);
    if bad.Some? {
      return Err(bad.value);
    }
    var first := IndexOf(s, COLON, 0);
    var second := IndexOf(s, COLON, first + 1);
    ghost var scope := PartsSpell(s, first, second);
    var id := Unescape(s[second + 1..]);
    return Ok(Scope(s[..first], s[first + 1..second], id));
  }

  /** What was decoded before byte `i`, and what is decoded from there on, is the container id. */
  ghost predicate Reads(enc: Text, i: nat, id: Text)
    requires i <= |enc|
  {
    Decoded(enc, i).Some? && Decoded(enc, 0) == Some(id + Decoded(enc, i).value)
  }

  lemma ReadsOne(enc: Text, i: nat, id: Text)
    requires i < |enc| && Reads(enc, i, id)
    ensures if enc[i] == PERCENT then Escaped(enc, i).Some? && Reads(enc, i + 3, id + [Escaped(enc, i).value])
            else Reads(enc, i + 1, id + [enc[i]])
  {
    if enc[i] == PERCENT {
      Joins(id, [Escaped(enc, i).value], Decoded(enc, i + 3).value);
    } else {
      Joins(id, [enc[i]], Decoded(enc, i + 1).value);
    }
  }

  /** The decoding loop of ParseScopeID, after the check. */
  method Unescape(enc: Text) returns (id: Text)
    requires Decoded(enc, 0).Some?
    ensures Decoded(enc, 0) == Some(id)
  {
    id := [];
    var i := 0;
    assert [] + Decoded(enc, 0).value == Decoded(enc, 0).value;
    while i < |enc|
      invariant i <= |enc| && Reads(enc, i, id)
    {
      ReadsOne(enc, i, id);
      if enc[i] == PERCENT {
        id := id + [16 * Unhex(enc[i + 1]) + Unhex(enc[i + 2])];
        i := i + 3;
      } else {
        id := id + [enc[i]];
        i := i + 1;
      }
    }
    assert id + [] == id;
  }

  /** Reading what was printed gives the parts back. */
  lemma ReadOfPrinted(scope: Scope, read: Scope)
    requires Accepted(scope) && Accepted(read) && Spelled(read) == Spelled(scope)
    ensures IsScopeId(Spelled(scope)) && read == scope
  {
    SpelledOnce(scope, read);
  }
}
