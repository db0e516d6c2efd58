/** Which strings the child driver takes for an identifier, and what it reads in them. The
    forms are described without scanning; the parsers accept exactly these. */
module HardwareForms {
  import opened Wrappers
  import opened HardwareId

  // ----- the GUID -----

  predicate IsHex(c: char) { '0' <= c <= '9' || 'a' <= c <= 'f' || 'A' <= c <= 'F' }

  /** The upper-case form of a hexadecimal digit. */
  function Upper(c: char): char
    requires IsHex(c)
  {
    if 'a' <= c <= 'f' then "ABCDEF"[c as int - 'a' as int] else c
  }

  predicate HexOrHyphen(text: string) {
    forall i :: 0 <= i < |text| ==> text[i] == '-' || IsHex(text[i])
  }

  /** The digits of a text in upper case, without its hyphens. */
  function Plain(text: string): string
    requires HexOrHyphen(text)
  {
    if text == [] then []
    else (if text[0] == '-' then [] else [Upper(text[0])]) + Plain(text[1..])
  }

  /** The identifier names a GUID: behind the prefix thirty-two digits up to a closing brace,
      in either case and with hyphens anywhere; what follows the brace does not matter. */
  predicate Names(id: string, end: nat) {
    && GUID_PREFIX <= id && 11 <= end < |id| && id[end] == '}'
    && HexOrHyphen(id[11..end]) && |Plain(id[11..end])| == 32
  }

  lemma UpperIsPrinted(c: char)
    requires IsHex(c)
    ensures var value := HexNibble(c); value.Some? && value.value < 16 && HexDigit(value.value) == Upper(c)
  {
    if 'a' <= c <= 'f' {
      var k := c as int - 'a' as int;
      assert "ABCDEF"[k] == ('A' as int + k) as char;
    }
  }

  // ----- digits and numbers -----

  lemma {:induction false} NibblesOfValue(d: seq<nat>)
    requires AreNibbles(d)
    ensures Nibbles(Value(d), |d|) == d && Value(d) < Power16(|d|)
    decreases |d|
  {
    if d != [] {
      var front, last := d[..|d| - 1], d[|d| - 1];
      NibblesOfValue(front);
      assert Value(d) / 16 == Value(front) && Value(d) % 16 == last;
      assert d == front + [last];
    }
  }

  lemma {:induction false} NibblesOfBytes(d: seq<nat>, bytes: seq<nat>)
    requires AreNibbles(d) && |d| == 2 * |bytes|
    requires forall i :: 0 <= i < |bytes| ==> bytes[i] == ByteAt(d, 2 * i)
    ensures (forall i :: 0 <= i < |bytes| ==> bytes[i] < 256) && TailNibbles(bytes) == d
    decreases |d|
  {
    if bytes != [] {
      var n := |bytes| - 1;
      assert bytes[n] == d[2 * n] * 16 + d[2 * n + 1];
      NibblesOfBytes(d[..2 * n], bytes[..n]);
      assert bytes[n] / 16 == d[2 * n] && bytes[n] % 16 == d[2 * n + 1];
      assert d == d[..2 * n] + [d[2 * n], d[2 * n + 1]];
    }
  }

  lemma NumberOfEight(d: seq<nat>)
    requires |d| == 32 && AreNibbles(d)
    ensures var g := Assemble(d); g.data1 < 0x1_0000_0000 && Nibbles(g.data1, 8) == d[0..8]
  {
    Powers();
    ValueOfEight(d[0..8]);
    NibblesOfValue(d[0..8]);
    SliceBytes(d, 0, 8, 0);
    SliceBytes(d, 0, 8, 2);
    SliceBytes(d, 0, 8, 4);
    SliceBytes(d, 0, 8, 6);
  }

  lemma NumberOfFour(d: seq<nat>, at: nat)
    requires |d| == 32 && AreNibbles(d) && at <= 28
    ensures var n := ByteAt(d, at) * 0x100 + ByteAt(d, at + 2); n < 0x1_0000 && Nibbles(n, 4) == d[at..at + 4]
  {
    Powers();
    ValueOfFour(d[at..at + 4]);
    NibblesOfValue(d[at..at + 4]);
    SliceBytes(d, at, at + 4, 0);
    SliceBytes(d, at, at + 4, 2);
  }

  lemma BytesOfTail(d: seq<nat>, i: nat)
    requires |d| == 32 && i < 8
    ensures Assemble(d).data4[i] == ByteAt(d, 16 + 2 * i) == ByteAt(d[16..32], 2 * i)
  {}

  lemma NumbersOfTail(d: seq<nat>)
    requires |d| == 32 && AreNibbles(d)
    ensures var tail := Assemble(d).data4;
            (forall i :: 0 <= i < 8 ==> tail[i] < 256) && TailNibbles(tail) == d[16..32]
  {
    var tail := Assemble(d).data4;
    forall i | 0 <= i < 8 ensures tail[i] == ByteAt(d[16..32], 2 * i) {
      BytesOfTail(d, i);
    }
    NibblesOfBytes(d[16..32], tail);
  }

  lemma NumbersOfMiddle(d: seq<nat>)
    requires |d| == 32 && AreNibbles(d)
    ensures var g := Assemble(d);
            && g.data2 < 0x1_0000 && Nibbles(g.data2, 4) == d[8..12]
            && g.data3 < 0x1_0000 && Nibbles(g.data3, 4) == d[12..16]
  {
    NumberOfFour(d, 8);
    NumberOfFour(d, 12);
  }

  lemma JoinGroups(g: Guid, d: seq<nat>)
    requires Legal(g) && |d| == 32
    requires Nibbles(g.data1, 8) == d[0..8] && Nibbles(g.data2, 4) == d[8..12] && Nibbles(g.data3, 4) == d[12..16]
    requires TailNibbles(g.data4) == d[16..32]
    ensures Digits(g) == d
  {}

  lemma LegalIfNarrow(g: Guid)
    requires g.data1 < 0x1_0000_0000 && g.data2 < 0x1_0000 && g.data3 < 0x1_0000
    requires |g.data4| == 8 && forall i :: 0 <= i < 8 ==> g.data4[i] < 256
    ensures Legal(g)
  {}

  /** The other half of the round trip: any thirty-two digits are those of a GUID. */
  lemma DigitsOfAssemble(d: seq<nat>)
    requires |d| == 32 && AreNibbles(d)
    ensures Legal(Assemble(d)) && Digits(Assemble(d)) == d
  {
    NumberOfEight(d);
    NumbersOfMiddle(d);
    NumbersOfTail(d);
    LegalIfNarrow(Assemble(d));
    JoinGroups(Assemble(d), d);
  }

  // ----- scanning -----

  lemma HexAppend(d: seq<nat>, value: nat, rest: string)
    requires AreNibbles(d) && value < 16
    ensures Hex(d + [value]) + rest == Hex(d) + ([HexDigit(value)] + rest)
  {}

  /** A well-formed body is read to its end, digit for digit. */
  lemma {:induction false} BodyIsRead(text: string, end: nat, d: seq<nat>)
    requires end < |text| && text[end] == '}' && HexOrHyphen(text[..end])
    requires AreNibbles(d) && |d| + |Plain(text[..end])| == 32
    ensures var r := ScanGuid(text, d);
            r.Some? && Legal(r.value) && Hex(Digits(r.value)) == Hex(d) + Plain(text[..end])
    decreases end
  {
    if end == 0 {
      DigitsOfAssemble(d);
      assert Hex(d) + [] == Hex(d);
    } else {
      assert text[..end][1..] == text[1..][..end - 1] && text[..end][0] == text[0];
      if text[0] == '-' {
        BodyIsRead(text[1..], end - 1, d);
      } else {
        UpperIsPrinted(text[0]);
        var value := HexNibble(text[0]).value;
        BodyIsRead(text[1..], end - 1, d + [value]);
        HexAppend(d, value, Plain(text[1..][..end - 1]));
      }
    }
  }

  lemma NotHex(c: char)
    ensures HexNibble(c).Some? <==> IsHex(c)
  {}

  /** Whatever is read has a well-formed body. */
  lemma {:induction false} ReadHasBody(text: string, d: seq<nat>) returns (end: nat)
    requires |d| <= 32 && ScanGuid(text, d).Some?
    ensures end < |text| && text[end] == '}' && HexOrHyphen(text[..end]) && |d| + |Plain(text[..end])| == 32
    decreases |text|
  {
    if text[0] == '}' {
      end := 0;
    } else {
      var rest;
      NotHex(text[0]);
      if text[0] == '-' {
        rest := ReadHasBody(text[1..], d);
      } else {
        rest := ReadHasBody(text[1..], d + [HexNibble(text[0]).value]);
      }
      end := rest + 1;
      assert text[..end] == [text[0]] + text[1..][..rest];
      assert text[..end][1..] == text[1..][..rest];
    }
  }

  /** The driver reads a GUID exactly in the identifiers that name one; and printing that GUID
      gives the digits back, in upper case and with the hyphens where they belong. */
  lemma ParseGuidIff(id: string)
    ensures ParseGuid(id).Some? <==> exists end: nat :: Names(id, end)
    ensures forall end: nat :: Names(id, end) ==>
              ParseGuid(id).Some? && Legal(ParseGuid(id).value) && Hex(Digits(ParseGuid(id).value)) == Plain(id[11..end])
  {
    if ParseGuid(id).Some? {
      var end := ReadHasBody(id[11..], []);
      assert id[11..][..end] == id[11..11 + end];
      assert Names(id, 11 + end);
    }
    forall end: nat | Names(id, end)
      ensures ParseGuid(id).Some? && Legal(ParseGuid(id).value)
      ensures Hex(Digits(ParseGuid(id).value)) == Plain(id[11..end])
    {
      assert id[11..][..end - 11] == id[11..end];
      BodyIsRead(id[11..], end - 11, []);
      assert Hex([]) + Plain(id[11..end]) == Plain(id[11..end]);
    }
  }

  // ----- the MTU -----

  /** The characters up to a NUL. */
  function Field(text: string): string {
    if text == [] || text[0] == NUL then [] else [text[0]] + Field(text[1..])
  }

  predicate AllDecimal(text: string) {
    forall i :: 0 <= i < |text| ==> '0' <= text[i] <= '9'
  }

  /** The number a row of decimal digits stands for, behind a number already read. */
  function Numeral(before: nat, text: string): nat
    requires AllDecimal(text)
  {
    if text == [] then before
    else Numeral(before, text[..|text| - 1]) * 10 + (text[|text| - 1] as int - '0' as int)
  }

  lemma {:induction false} NumeralFromFront(before: nat, text: string)
    requires AllDecimal(text) && text != []
    ensures Numeral(before, text) == Numeral(before * 10 + (text[0] as int - '0' as int), text[1..])
    decreases |text|
  {
    if |text| == 1 {
      assert text[..0] == [] && text[1..] == [];
    } else {
      var front := text[..|text| - 1];
      NumeralFromFront(before, front);
      assert text[1..][..|text| - 2] == front[1..];
    }
  }

  lemma {:induction false} NumeralGrows(before: nat, text: string)
    requires AllDecimal(text)
    ensures before <= Numeral(before, text)
    decreases |text|
  {
    if text != [] {
      NumeralGrows(before, text[..|text| - 1]);
    }
  }

  /** The scan yields the number unless it does not fit into a word. */
  lemma {:induction false} FieldIsRead(text: string, before: nat)
    requires before < USIZE_RANGE
    ensures var field := Field(text);
            ScanDecimal(text, before) ==
            if AllDecimal(field) && Numeral(before, field) < USIZE_RANGE then Some(Numeral(before, field)) else None
    decreases |text|
  {
    if text != [] && text[0] != NUL {
      var field, rest := Field(text), Field(text[1..]);
      assert field[0] == text[0] && field[1..] == rest;
      if '0' <= text[0] <= '9' {
        var next := before * 10 + (text[0] as int - '0' as int);
        assert AllDecimal(field) <==> AllDecimal(rest) by {
          assert forall i :: 0 < i < |field| ==> field[i] == rest[i - 1];
          assert forall i :: 0 <= i < |rest| ==> rest[i] == field[i + 1];
        }
        if AllDecimal(rest) {
          NumeralFromFront(before, field);
          NumeralGrows(next, rest);
        }
        if next < USIZE_RANGE {
          FieldIsRead(text[1..], next);
        }
      }
    }
  }

  /** The driver reads an MTU exactly in the identifiers whose field is a decimal number from
      1500 to 65521, however many zeros lead it; a number too long for a word is refused. */
  lemma ParseMtuIff(id: string, mtu: nat)
    ensures ParseMtu(id) == Some(mtu) <==>
            && MTU_PREFIX <= id && AllDecimal(Field(id[13..])) && Numeral(0, Field(id[13..])) == mtu
            && 1500 <= mtu <= 65521
  {
    if MTU_PREFIX <= id {
      FieldIsRead(id[13..], 0);
    }
  }
}
