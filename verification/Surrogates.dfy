/** The scan for an escape that names half of a surrogate pair (internal/record/decode.go,
    hasUnpairedSurrogate), against reading the escapes of section 7 of RFC 8259 one by one. */
module Surrogates {
  import opened Names
  import opened Lists

  const BACKSLASH: byte := 0x5C
  const LETTER_U: byte := 0x75
  const ESCAPE_LEN := 6

  // ---- A valid document, as far as escapes go -------------------------------------------------------------

  predicate HexDigit(b: byte) {
    0x30 <= b <= 0x39 || 0x41 <= b <= 0x46 || 0x61 <= b <= 0x66
  }

  /** A document is a list of bytes that are no backslash, escapes of one character, and escapes of four hex
      digits. */
  datatype Item = Plain(b: byte) | Short(c: byte) | Hex(h1: byte, h2: byte, h3: byte, h4: byte) {
    predicate Ok() {
      match this
      case Plain(b) => b != BACKSLASH
      case Short(c) => c != LETTER_U
      case Hex(h1, h2, h3, h4) => HexDigit(h1) && HexDigit(h2) && HexDigit(h3) && HexDigit(h4)
    }

    function Bytes(): Text {
      match this
      case Plain(b) => [b]
      case Short(c) => [BACKSLASH, c]
      case Hex(h1, h2, h3, h4) => [BACKSLASH, LETTER_U, h1, h2, h3, h4]
    }

    /** The escaped UTF-16 unit. */
    function Unit(): int {
      if Hex? then ((16 * HexValue(h1) + HexValue(h2)) * 16 + HexValue(h3)) * 16 + HexValue(h4) else 0
    }

    predicate High() {
      Hex? && 0xD800 <= Unit() <= 0xDBFF
    }

    predicate Low() {
      Hex? && 0xDC00 <= Unit() <= 0xDFFF
    }
  }

  function HexValue(b: byte): int {
    if b <= 0x39 then b - 0x30 else if b <= 0x46 then b - 0x41 + 10 else b - 0x61 + 10
  }

  predicate AllOk(items: seq<Item>) {
    forall i :: 0 <= i < |items| ==> items[i].Ok()
  }

  function Spell(items: seq<Item>): Text {
    if items == [] then [] else items[0].Bytes() + Spell(items[1..])
  }

  /** A high surrogate not followed at once by a low one, or a low one with no high one before it. */
  predicate Unpaired(items: seq<Item>) {
    exists i :: 0 <= i < |items| && UnpairedAt(items, i)
  }

  predicate UnpairedAt(items: seq<Item>, i: nat)
    requires i < |items|
  {
    || (items[i].High() && !(i + 1 < |items| && items[i + 1].Low()))
    || (items[i].Low() && !(i > 0 && items[i - 1].High()))
  }

  // ---- Reading the items one by one -----------------------------------------------------------------------

  function ReadItems(items: seq<Item>): bool {
    if items == [] then false
    else if items[0].Low() then true
    else if items[0].High() then
      if |items| >= 2 && items[1].Low() then ReadItems(items[2..]) else true
    else ReadItems(items[1..])
  }

  /** The suffix reads as the whole does, when what precedes it is not a high surrogate. */
  lemma {:induction false} ReadIsUnpaired(items: seq<Item>, from: nat)
    requires from <= |items| && (from > 0 ==> !items[from - 1].High())
    ensures ReadItems(items[from..]) <==> exists i :: from <= i < |items| && UnpairedAt(items, i)
    decreases |items| - from
  {
    if from < |items| {
      var rest := items[from..];
      assert rest[0] == items[from] && rest[1..] == items[from + 1..];
      if items[from].Low() {
        assert UnpairedAt(items, from);
      } else if items[from].High() {
        if from + 1 < |items| && items[from + 1].Low() {
          assert rest[1] == items[from + 1] && rest[2..] == items[from + 2..];
          assert !UnpairedAt(items, from) && !UnpairedAt(items, from + 1);
          ReadIsUnpaired(items, from + 2);
        } else {
          assert UnpairedAt(items, from);
        }
      } else {
        assert !UnpairedAt(items, from);
        ReadIsUnpaired(items, from + 1);
      }
    }
  }

  lemma ReadingFindsUnpaired(items: seq<Item>)
    ensures ReadItems(items) <==> Unpaired(items)
  {
    assert items[0..] == items;
    ReadIsUnpaired(items, 0);
  }

  // ---- The scan of the bytes ------------------------------------------------------------------------------

  datatype Half = NoHalf | HighHalf | LowHalf

  /** b | 0x20. */
  function Or20(b: byte): byte {
    if b / 32 % 2 == 1 then b else b + 32
  }

  /** The closure surrogate. */
  function SurrogateAt(data: Text, i: nat): Half {
    if i + ESCAPE_LEN > |data| || data[i] != BACKSLASH || data[i + 1] != LETTER_U || Or20(data[i + 2]) != 0x64 then NoHalf
    else
      var c := Or20(data[i + 3]);
      if c == 0x38 || c == 0x39 || c == 0x61 || c == 0x62 then HighHalf
      else if 0x63 <= c <= 0x66 then LowHalf
      else NoHalf
  }

  function HalfOf(item: Item): Half {
    if item.High() then HighHalf else if item.Low() then LowHalf else NoHalf
  }

  /** Two hex digits decide whether an escape is a surrogate, and which half. */
  lemma TwoDigitsDecide(item: Item)
    requires item.Hex? && item.Ok()
    ensures HalfOf(item) == SurrogateAt(item.Bytes(), 0)
  {
    var c := Or20(item.h2);
    assert 0 <= HexValue(item.h3) < 16 && 0 <= HexValue(item.h4) < 16;
    assert Or20(item.h1) == 0x64 <==> HexValue(item.h1) == 13;
    assert (c == 0x38 || c == 0x39 || c == 0x61 || c == 0x62) <==> 8 <= HexValue(item.h2) <= 11;
    assert 0x63 <= c <= 0x66 <==> 12 <= HexValue(item.h2) <= 15;
  }

  /** At the start of an item the closure answers for that item. */
  lemma SurrogateAtItem(data: Text, i: nat, items: seq<Item>)
    requires i <= |data| && data[i..] == Spell(items) && AllOk(items)
    ensures SurrogateAt(data, i) == if items == [] then NoHalf else HalfOf(items[0])
  {
    if items != [] {
      var bytes := items[0].Bytes();
      assert data[i..] == bytes + Spell(items[1..]);
      assert forall k :: 0 <= k < |bytes| ==> data[i + k] == data[i..][k] == bytes[k];
      if items[0].Hex? {
        TwoDigitsDecide(items[0]);
      }
    }
  }

  /** What is left of the document at byte `i`: what is left of an item already judged, none of it a
      backslash, and then whole items. */
  ghost predicate Left(data: Text, i: nat, pad: Text, items: seq<Item>) {
    i <= |data| && data[i..] == pad + Spell(items) && BACKSLASH !in pad && AllOk(items)
  }

  lemma SkipPad(data: Text, i: nat, pad: Text, items: seq<Item>)
    requires Left(data, i, pad, items) && pad != []
    ensures i < |data| && data[i] != BACKSLASH && Left(data, i + 1, pad[1..], items)
  {
    assert data[i] == data[i..][0] == pad[0];
    DropDrop(data, i, 1);
    DropInto(pad, Spell(items), 1);
  }

  /** `n` bytes into the next item. */
  lemma SkipInto(data: Text, i: nat, items: seq<Item>, n: nat)
    requires Left(data, i, [], items) && items != [] && 1 <= n <= |items[0].Bytes()|
    requires BACKSLASH !in items[0].Bytes()[n..]
    ensures i + n <= |data| && Left(data, i + n, items[0].Bytes()[n..], items[1..])
  {
    var bytes, rest := items[0].Bytes(), Spell(items[1..]);
    assert [] + Spell(items) == bytes + rest;
    assert |data[i..]| == |bytes| + |rest|;
    DropDrop(data, i, n);
    DropInto(bytes, rest, n);
  }

  lemma FirstByte(data: Text, i: nat, items: seq<Item>)
    requires Left(data, i, [], items) && items != []
    ensures i < |data| && (data[i] == BACKSLASH <==> !items[0].Plain?)
  {
    assert data[i] == data[i..][0] == items[0].Bytes()[0];
  }

  lemma NothingLeft(data: Text, i: nat, pad: Text, items: seq<Item>)
    requires Left(data, i, pad, items)
    ensures i == |data| <==> pad == [] && items == []
  {
    if items != [] {
      assert |Spell(items)| >= |items[0].Bytes()| >= 1;
    }
  }

  /** The scan, at byte `i`, still has to answer what reading all the items answers. */
  ghost predicate Scanning(data: Text, i: nat, pad: Text, left: seq<Item>, items: seq<Item>) {
    Left(data, i, pad, left) && ReadItems(items) == ReadItems(left)
  }

  lemma ScanStart(data: Text, items: seq<Item>)
    requires AllOk(items) && data == Spell(items)
    ensures Scanning(data, 0, [], items, items) && (ReadItems(items) <==> Unpaired(items))
  {
    assert data[0..] == [] + Spell(items);
    ReadingFindsUnpaired(items);
  }

  lemma ScanPlain(data: Text, i: nat, pad: Text, left: seq<Item>, items: seq<Item>) returns (pad': Text, left': seq<Item>)
    requires Scanning(data, i, pad, left, items) && i < |data| && data[i] != BACKSLASH
    ensures Scanning(data, i + 1, pad', left', items)
  {
    NothingLeft(data, i, pad, left);
    if pad == [] {
      FirstByte(data, i, left);
      SkipInto(data, i, left, 1);
      pad', left' := left[0].Bytes()[1..], left[1..];
    } else {
      SkipPad(data, i, pad, left);
      pad', left' := pad[1..], left;
    }
  }

  /** A backslash begins an item. */
  lemma AtItem(data: Text, i: nat, pad: Text, left: seq<Item>, items: seq<Item>)
    requires Scanning(data, i, pad, left, items) && i < |data| && data[i] == BACKSLASH
    ensures pad == [] && left != [] && !left[0].Plain? && SurrogateAt(data, i) == HalfOf(left[0])
  {
    NothingLeft(data, i, pad, left);
    if pad != [] {
      SkipPad(data, i, pad, left);
    }
    FirstByte(data, i, left);
    SurrogateAtItem(data, i, left);
  }

  lemma ScanOther(data: Text, i: nat, pad: Text, left: seq<Item>, items: seq<Item>) returns (pad': Text, left': seq<Item>)
    requires Scanning(data, i, pad, left, items) && i < |data| && data[i] == BACKSLASH && SurrogateAt(data, i) == NoHalf
    ensures Scanning(data, i + 2, pad', left', items)
  {
    AtItem(data, i, pad, left, items);
    SkipInto(data, i, left, 2);
    pad', left' := left[0].Bytes()[2..], left[1..];
  }

  lemma ScanLow(data: Text, i: nat, pad: Text, left: seq<Item>, items: seq<Item>)
    requires Scanning(data, i, pad, left, items) && i < |data| && data[i] == BACKSLASH && SurrogateAt(data, i) == LowHalf
    ensures ReadItems(items)
  {
    AtItem(data, i, pad, left, items);
  }

  lemma ScanHigh(data: Text, i: nat, pad: Text, left: seq<Item>, items: seq<Item>) returns (left': seq<Item>)
    requires Scanning(data, i, pad, left, items) && i < |data| && data[i] == BACKSLASH && SurrogateAt(data, i) == HighHalf
    ensures if SurrogateAt(data, i + ESCAPE_LEN) == LowHalf then Scanning(data, i + 2 * ESCAPE_LEN, [], left', items) else ReadItems(items)
  {
    AtItem(data, i, pad, left, items);
    SkipInto(data, i, left, ESCAPE_LEN);
    var next := left[1..];
    SurrogateAtItem(data, i + ESCAPE_LEN, next);
    left' := [];
    if SurrogateAt(data, i + ESCAPE_LEN) == LowHalf {
      SkipInto(data, i + ESCAPE_LEN, next, ESCAPE_LEN);
      left' := next[1..];
      DropDrop(left, 1, 1);
    }
  }

  /** hasUnpairedSurrogate answers what reading the escapes one by one answers, on every valid document. */
  method HasUnpairedSurrogate(data: Text, ghost items: seq<Item>) returns (found: bool)
    requires AllOk(items) && data == Spell(items)
    ensures found <==> Unpaired(items)
  {
    var i := 0;
    ghost var pad: Text, left := [], items;
    ScanStart(data, items);
    while i < |data|
      invariant Scanning(data, i, pad, left, items)
    {
      if data[i] != BACKSLASH {
        pad, left := ScanPlain(data, i, pad, left, items);
        i := i + 1;
        continue;
      }
      match SurrogateAt(data, i)
      case LowHalf =>
        ScanLow(data, i, pad, left, items);
        return true;
      case HighHalf =>
        left := ScanHigh(data, i, pad, left, items);
        if SurrogateAt(data, i + ESCAPE_LEN) != LowHalf {
          return true;
        }
        i, pad := i + 2 * ESCAPE_LEN, [];
      case NoHalf =>
        pad, left := ScanOther(data, i, pad, left, items);
        i := i + 2;
    }
    NothingLeft(data, i, pad, left);
    return false;
  }
}
